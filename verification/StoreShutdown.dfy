/**
  Shutdown comes to an end. Once the worker is closing, every step it can still
  take lowers one measure, and until the final phase is over there is always
  such a step: however calls, closes and timers are interleaved and whatever
  they answer, it ends with an empty table.
*/
module StoreShutdown {
  import opened Wrappers
  import opened StoreLedger
  import opened StoreTable
  import opened StoreSafety
  import opened StoreRuns

  // What else every reachable state satisfies

  /** A closing worker without calls is in its final phase. */
  predicate Finishes(s: State) { s.closing && s.active == 0 ==> s.finishing }

  /** The table holds the newest entry of each path. */
  ghost predicate Newest(s: State) {
    forall id :: id in s.entries && s.entries[id].path in s.stores ==> id <= s.stores[s.entries[id].path]
  }

  ghost predicate Good(s: State) { Inv(s) && Finishes(s) && Newest(s) }

  lemma FinishesKeeps(s: State, a: Action)
    requires Inv(s) && Enabled(s, a) && Finishes(s)
    ensures Finishes(Apply(s, a))
  {
    if a.Finish? || a.ShutdownAsked? || a.Admit? {
      ShutStep(s, a);
    } else {
      hide Apply, Inv;
      InvIsTotal(s);
      OtherStepsKeepFlags(s, a);
    }
  }

  lemma ShutStep(s: State, a: Action)
    requires TableTotal(s) && ShutOk(s) && Enabled(s, a) && Finishes(s) && (a.Finish? || a.ShutdownAsked? || a.Admit?)
    ensures Finishes(Apply(s, a))
  {
    hide TableTotal, KeysOf;
  }

  /** No entry appears or changes its path, and the table at most loses some. */
  ghost predicate Trims(s: State, t: State) {
    && t.entries.Keys == s.entries.Keys && (forall id :: id in s.entries ==> t.entries[id].path == s.entries[id].path)
    && (forall p :: p in t.stores ==> p in s.stores && t.stores[p] == s.stores[p])
    && t.nextEntry == s.nextEntry
  }

  lemma TrimsThen(s: State, t: State, u: State)
    requires Trims(s, t) && Trims(t, u)
    ensures Trims(s, u)
  {
  }

  lemma CloseTrims(s: State, p: Path)
    requires TableTotal(s)
    ensures Trims(s, CloseStore(s, p).0)
  {
  }

  lemma DropTrims(s: State, id: EntryId)
    requires id in s.entries
    ensures Trims(s, DropEntry(s, id))
  {
  }

  lemma LeaveTrims(s: State, c: CallId, id: EntryId, reply: Reply)
    requires id in s.entries
    ensures Trims(s, LeaveStore(s, c, id, reply))
  {
    hide InTable;
  }

  lemma EntryTrims(s: State, id: EntryId, h: Held)
    requires id in s.entries && h.path == s.entries[id].path
    ensures Trims(s, SetEntry(s, id, h))
  {
  }

  lemma ClosedTrims(s: State, id: EntryId, ok: bool)
    requires id in s.entries
    ensures Trims(s, ClosedEntry(s, id, ok))
  {
    hide DropEntry, Trims;
    var t := SetEntry(s, id, s.entries[id].(closing := Finished(ok)));
    EntryTrims(s, id, s.entries[id].(closing := Finished(ok)));
    DropTrims(t, id);
    TrimsThen(s, t, DropEntry(t, id));
  }

  /** Whether the step enters a Store: a call that opens or shares one, or waits for its close. */
  predicate Enters(s: State, a: Action) {
    a.CloseWaitEnds? || (a.Begin? && a.call in s.calls && s.calls[a.call].Admitted? && s.calls[a.call].need.OpenStore?)
  }

  predicate SameTable(s: State, t: State) {
    t.entries == s.entries && t.stores == s.stores && t.nextEntry == s.nextEntry
  }

  lemma SameTrims(s: State, t: State)
    requires SameTable(s, t)
    ensures Trims(s, t)
  {
  }

  lemma TrimsSame(s: State, t: State, u: State)
    requires Trims(s, t) && SameTable(t, u)
    ensures Trims(s, u)
  {
  }

  /** Steps of calls that enter no Store. */
  lemma CallStepTrims(s: State, a: Action)
    requires TableTotal(s) && Enabled(s, a) && !Enters(s, a)
    requires a.Admit? || a.Begin? || a.OpenContinues? || a.WorkEnds? || a.DirectEnds? || a.ReleaseEnds? || a.Finish?
    ensures Trims(s, Apply(s, a))
  {
    hide InTable, KeysOf, CloseStore, DropEntry, LeaveStore, ClosedEntry, Trims, TableTotal;
    var t := Apply(s, a);
    match a {
      case Begin(c) =>
        if s.calls[c].need.ReleaseStore? {
          CloseTrims(s, s.calls[c].need.path);
          TrimsSame(s, CloseStore(s, s.calls[c].need.path).0, t);
        } else {
          SameTrims(s, t);
        }
      case OpenContinues(c) =>
        var id := s.calls[c].entry;
        if s.entries[id].opening == Settled(Opened) {
          SameTrims(s, t);
        } else {
          DropTrims(s, id);
          KeysStay(s, id);
          LeaveTrims(DropEntry(s, id), c, id, if s.entries[id].opening == Settled(Thrown) then ThrownError
            else RefusedOpen);
          TrimsThen(s, DropEntry(s, id), t);
        }
      case WorkEnds(c, thrown) =>
        var id := s.calls[c].entry;
        var u := Note(s, WorkEnded(s.entries[id].path, id, c));
        SameTrims(s, u);
        LeaveTrims(u, c, id, if thrown then ThrownError else Value);
        TrimsThen(s, u, t);
      case _ => SameTrims(s, t);
    }
  }

  lemma KeysStay(s: State, id: EntryId)
    requires id in s.entries
    ensures DropEntry(s, id).entries == s.entries
  {
  }

  lemma TimerTrims(s: State, id: EntryId)
    requires TableTotal(s) && Enabled(s, TimerFires(id))
    ensures Trims(s, Apply(s, TimerFires(id)))
  {
    hide CloseStore, Trims, InTable;
    var h := s.entries[id];
    var u := SetEntry(s, id, h.(timer := false));
    EntryTrims(s, id, h.(timer := false));
    CloseTrims(u, h.path);
    TrimsThen(s, u, CloseStore(u, h.path).0);
  }

  /** Steps of entries and of the final phase. */
  lemma EntryStepTrims(s: State, a: Action)
    requires TableTotal(s) && Enabled(s, a)
    requires a.OpenSettles? || a.TimerFires? || a.CloseStarts? || a.CloseSettles? || a.ShutdownAsked? || a.DrainNext?
      || a.DrainWaitEnds?
    ensures Trims(s, Apply(s, a))
  {
    hide InTable, KeysOf, CloseStore, ClosedEntry, Trims;
    var t := Apply(s, a);
    match a {
      case OpenSettles(id, result) =>
        var h := s.entries[id].(opening := Settled(result));
        EntryTrims(s, id, h);
        TrimsSame(s, SetEntry(s, id, h), t);
      case TimerFires(id) => TimerTrims(s, id);
      case CloseStarts(id) =>
        ClosedTrims(s, id, false);
        var h := s.entries[id].(closing := Calling);
        EntryTrims(s, id, h);
        if s.entries[id].opening != Settled(Thrown) {
          TrimsSame(s, SetEntry(s, id, h), t);
        }
      case CloseSettles(id, ok) =>
        ClosedTrims(s, id, ok);
        TrimsSame(s, ClosedEntry(s, id, ok), t);
      case DrainNext =>
        if s.drain.todo != [] {
          CloseTrims(s, s.drain.todo[0]);
          TrimsSame(s, CloseStore(s, s.drain.todo[0]).0, t);
        } else {
          SameTrims(s, t);
        }
      case _ => SameTrims(s, t);
    }
  }

  lemma StepTrims(s: State, a: Action)
    requires TableTotal(s) && Enabled(s, a) && !Enters(s, a)
    ensures Trims(s, Apply(s, a))
  {
    hide Apply, Enabled, TableTotal, Trims;
    if a.Admit? || a.Begin? || a.OpenContinues? || a.WorkEnds? || a.DirectEnds? || a.ReleaseEnds? || a.Finish? {
      CallStepTrims(s, a);
    } else {
      EntryStepTrims(s, a);
    }
  }

  lemma TrimmedIsNewest(s: State, t: State)
    requires Newest(s) && Trims(s, t)
    ensures Newest(t)
  {
  }

  lemma EnteredIsNewest(s: State, c: CallId, p: Path)
    requires TableTotal(s) && EntriesOk(s) && Newest(s)
    ensures Newest(EnterStore(s, c, p))
  {
    forall id | id in s.entries ensures id < s.nextEntry {
      assert EntryOk(s, id);
    }
    hide EntriesOk, TableTotal;
  }

  lemma NewestKeeps(s: State, a: Action)
    requires Inv(s) && Enabled(s, a) && Newest(s)
    ensures Newest(Apply(s, a))
  {
    hide InTable, KeysOf, EnterStore, LedgerOk, CountsOk, CallsOk, ShutOk, TableTotal, EntriesOk, Newest;
    if Enters(s, a) {
      EnteredIsNewest(s, a.call, if a.CloseWaitEnds? then s.calls[a.call].path else s.calls[a.call].need.path);
    } else {
      hide Apply;
      StepTrims(s, a);
      TrimmedIsNewest(s, Apply(s, a));
    }
  }

  lemma {:induction false} RunIsGood(acts: seq<Action>)
    requires Reach(acts).Some?
    ensures Good(Reach(acts).value)
  {
    if acts != [] {
      hide Apply, Inv, Enabled, Newest, Finishes;
      var front, a := acts[..|acts| - 1], acts[|acts| - 1];
      RunIsGood(front);
      RunKeeps(acts);
      FinishesKeeps(Reach(front).value, a);
      NewestKeeps(Reach(front).value, a);
    } else {
      RunKeeps(acts);
    }
  }

  /** In every reachable state, a closing worker whose last call has returned is in its final phase. */
  lemma LastCallStartsFinalPhase(acts: seq<Action>)
    requires Reach(acts).Some?
    ensures var s := Reach(acts).value;
      s.closing && s.active == 0 ==> s.finishing && !s.drain.NotStarted?
  {
    RunIsGood(acts);
  }
}

/**
  What a caller is told, and why: each reply by its cause, what a call does next
  when it begins, and that an idle Store always has its timer running.
*/
module StoreReplies {
  import opened Wrappers
  import opened StoreLedger
  import opened StoreTable
  import opened StoreSafety
  import opened StoreRuns

  /** The call returns with this step. */
  predicate ReturnsNow(s: State, t: State, c: CallId) {
    c in t.calls && t.calls[c].Returned? && !(c in s.calls && s.calls[c].Returned?)
  }

  lemma EnterReturnsNone(s: State, c: CallId, p: Path, d: CallId)
    requires TableTotal(s)
    ensures !ReturnsNow(s, EnterStore(s, c, p), d)
  {
    hide TableTotal;
  }

  lemma CloseReturnsNone(s: State, p: Path)
    requires TableTotal(s)
    ensures CloseStore(s, p).0.calls == s.calls
    ensures CloseStore(s, p).1 ==
      if p !in s.stores then NothingHeld
      else if s.entries[s.stores[p]].users != 0 then BusyHeld
      else Waits(s.stores[p])
  {
    hide TableTotal;
  }

  lemma LeaveReturns(s: State, c: CallId, id: EntryId, reply: Reply, d: CallId)
    requires id in s.entries && ReturnsNow(s, LeaveStore(s, c, id, reply), d)
    ensures d == c && LeaveStore(s, c, id, reply).calls[d] == Returned(reply)
  {
    hide InTable;
  }

  /** The reply a step gives to the call it returns. */
  predicate Because(s: State, a: Action, c: CallId, reply: Reply)
    requires TableTotal(s) && Enabled(s, a)
  {
    match a
    // A release: nothing was held, or calls still use the Store.
    case Begin(d) =>
      && d == c && s.calls[c].need.ReleaseStore?
      && (var p := s.calls[c].need.path;
          if p !in s.stores then reply == Value
          else s.entries[s.stores[p]].users != 0 && reply == RefusedBusy)
    // The Store did not open.
    case OpenContinues(d) =>
      && d == c && s.entries[s.calls[c].entry].opening != Settled(Opened)
      && reply == if s.entries[s.calls[c].entry].opening == Settled(Thrown) then ThrownError else RefusedOpen
    // The binding answered or threw.
    case WorkEnds(d, thrown) => d == c && reply == if thrown then ThrownError else Value
    case DirectEnds(d, thrown) => d == c && reply == if thrown then ThrownError else Value
    // A release's close settled.
    case ReleaseEnds(d) =>
      && d == c && s.entries[s.calls[c].entry].closing.Finished?
      && reply == if s.entries[s.calls[c].entry].closing.ok then Value else ThrownError
    case _ => false
  }

  /** Every reply has its cause in the step that gives it. */
  lemma RepliesHaveCauses(s: State, a: Action, c: CallId)
    requires TableTotal(s) && Enabled(s, a) && ReturnsNow(s, Apply(s, a), c)
    ensures Because(s, a, c, Apply(s, a).calls[c].reply)
  {
    hide InTable, KeysOf, EnterStore, CloseStore, LeaveStore, ClosedEntry, TableTotal;
    match a {
      case Begin(d) =>
        match s.calls[d].need {
          case NoStore =>
          case OpenStore(p) => EnterReturnsNone(s, d, p, c);
          case ReleaseStore(p) => CloseReturnsNone(s, p);
        }
      case CloseWaitEnds(d) => EnterReturnsNone(s, d, s.calls[d].path, c);
      case OpenContinues(d) =>
        var id := s.calls[d].entry;
        if s.entries[id].opening != Settled(Opened) {
          var reply := if s.entries[id].opening == Settled(Thrown) then ThrownError else RefusedOpen;
          LeaveReturns(DropEntry(s, id), d, id, reply, c);
        }
      case WorkEnds(d, thrown) =>
        var id := s.calls[d].entry;
        LeaveReturns(Note(s, WorkEnded(s.entries[id].path, id, d)), d, id, if thrown then ThrownError else Value, c);
      case TimerFires(id) =>
        var h := s.entries[id];
        StaysTotal(s, id, h.(timer := false));
        CloseReturnsNone(SetEntry(s, id, h.(timer := false)), h.path);
      case CloseStarts(id) => ClosedCalls(s, id, false);
      case CloseSettles(id, ok) => ClosedCalls(s, id, ok);
      case DrainNext =>
        if s.drain.todo != [] {
          CloseReturnsNone(s, s.drain.todo[0]);
        }
      case _ =>
    }
  }

  lemma StaysTotal(s: State, id: EntryId, h: Held)
    requires TableTotal(s) && id in s.entries && h.path == s.entries[id].path
    ensures TableTotal(SetEntry(s, id, h))
  {
  }

  lemma ClosedCalls(s: State, id: EntryId, ok: bool)
    requires id in s.entries
    ensures ClosedEntry(s, id, ok).calls == s.calls
  {
    hide InTable;
  }

  /**
    How a call begins. A release of a free Store waits for its close, which exists
    from now on; a call that opens a Store opens it when none is held, waits while
    it is being closed, and else uses it, whose timer stops.
  */
  lemma CallsBegin(s: State, c: CallId)
    requires TableTotal(s) && Enabled(s, Begin(c))
    ensures c in Apply(s, Begin(c)).calls
    ensures var t := Apply(s, Begin(c));
      match s.calls[c].need
      case NoStore => t == s.(calls := s.calls[c := Direct])
      case ReleaseStore(p) =>
        if p !in s.stores then t.calls[c] == Returned(Value) && t.entries == s.entries
        else if s.entries[s.stores[p]].users != 0 then t.calls[c] == Returned(RefusedBusy) && t.entries == s.entries
        else
          var id := s.stores[p];
          && t.calls[c] == AwaitRelease(id) && id in t.entries
          && t.entries[id].closing != NotClosing && !t.entries[id].timer
          && (s.entries[id].closing != NotClosing ==> t.entries[id].closing == s.entries[id].closing)
      case OpenStore(p) =>
        if p !in s.stores then
          var id := s.nextEntry;
          && t.calls[c] == AwaitOpen(id) && p in t.stores && t.stores[p] == id && id in t.entries
          && t.entries[id].path == p && t.entries[id].opening == Pending && t.entries[id].users == 1
          && t.log == s.log + [OpenCalled(p, id)]
        else
          var id := s.stores[p];
          if s.entries[id].closing != NotClosing then t.calls[c] == AwaitClose(p, id) && t.entries == s.entries
          else
            && t.calls[c] == AwaitOpen(id) && id in t.entries && t.log == s.log
            && t.entries[id].users == s.entries[id].users + 1 && !t.entries[id].timer
  {
  }

  /**
    How an entry goes on: its open answers, the first use starts or the entry is
    dropped, an idle timer or a release queues its close, which calls the binding
    once the open was answered, and a settled close takes it out of the table.
  */
  lemma EntriesGoOn(s: State, a: Action)
    requires Inv(s) && Enabled(s, a)
    ensures a.OpenSettles? ==> var t, id := Apply(s, a), a.entry;
      && id in t.entries && t.entries[id].opening == Settled(a.result)
      && t.log == s.log + [OpenSettled(s.entries[id].path, id, a.result)]
    ensures a.OpenContinues? && s.entries[s.calls[a.call].entry].opening == Settled(Opened) ==>
      var t, id := Apply(s, a), s.calls[a.call].entry;
      && a.call in t.calls && t.calls[a.call] == Working(id)
      && t.log == s.log + [WorkStarted(s.entries[id].path, id, a.call)]
    ensures a.CloseStarts? ==> var t, id := Apply(s, a), a.entry;
      && id in t.entries && t.entries[id].closing == Calling
      && t.log == s.log + [CloseCalled(s.entries[id].path, id)]
    ensures a.CloseSettles? ==> var t, id := Apply(s, a), a.entry;
      && id in t.entries && t.entries[id].closing == Finished(a.ok) && s.entries[id].path !in t.stores
      && t.log == s.log + [CloseSettled(s.entries[id].path, id, a.ok)]
    ensures a.TimerFires? ==> var t, id := Apply(s, a), a.entry;
      id in t.entries && t.entries[id].closing == Queued && !t.entries[id].timer && t.log == s.log
  {
    hide LedgerOk, CountsOk, CallsOk, ShutOk;
    if a.CloseStarts? || a.CloseSettles? || a.TimerFires? {
      assert EntryOk(s, a.entry);
    }
  }

  // Idle Stores

  /** An open Store that no call uses and nobody closes has its timer running. */
  ghost predicate EntryTimed(s: State, id: EntryId)
    requires id in s.entries
  {
    InTable(s, id) && s.entries[id].users == 0 && s.entries[id].closing == NotClosing ==> s.entries[id].timer
  }

  ghost predicate Timed(s: State) { forall id :: id in s.entries ==> EntryTimed(s, id) }

  /** All entries but one are as they were, and none has come into the table. */
  ghost predicate OthersStay(s: State, t: State, id: EntryId) {
    forall e :: e in t.entries && e != id ==>
      e in s.entries && t.entries[e] == s.entries[e] && (InTable(t, e) ==> InTable(s, e))
  }

  lemma OthersTimed(s: State, t: State, id: EntryId)
    requires Timed(s) && OthersStay(s, t, id) && (id in t.entries ==> EntryTimed(t, id))
    ensures Timed(t)
  {
  }

  lemma EnterTimed(s: State, c: CallId, p: Path)
    requires TableTotal(s) && EntriesOk(s) && Timed(s)
    ensures Timed(EnterStore(s, c, p))
  {
    var t := EnterStore(s, c, p);
    if p !in s.stores {
      OthersTimed(s, t, s.nextEntry);
    } else {
      assert EntryOk(s, s.stores[p]);
      OthersTimed(s, t, s.stores[p]);
    }
  }

  lemma CloseTimed(s: State, t: State, p: Path)
    requires TableTotal(s) && t.entries == CloseStore(s, p).0.entries && t.stores == s.stores
    requires forall id :: id in s.entries && !(p in s.stores && s.stores[p] == id) ==> EntryTimed(s, id)
    requires p in s.stores && s.entries[s.stores[p]].users != 0 ==> EntryTimed(s, s.stores[p])
    ensures Timed(t)
  {
  }

  lemma SameTimed(s: State, t: State)
    requires Timed(s) && t.entries == s.entries && t.stores == s.stores
    ensures Timed(t)
  {
  }

  lemma LeaveTimed(s: State, u: State, c: CallId, id: EntryId, reply: Reply)
    requires Timed(s) && id in s.entries && u.entries == s.entries
    requires u.stores == s.stores || u.stores == s.stores - {s.entries[id].path}
    ensures Timed(LeaveStore(u, c, id, reply))
  {
    var t := LeaveStore(u, c, id, reply);
    OthersTimed(s, t, id);
  }

  lemma ClosedTimed(s: State, u: State, id: EntryId, ok: bool)
    requires Timed(s) && id in s.entries
    requires u.entries == ClosedEntry(s, id, ok).entries && u.stores == ClosedEntry(s, id, ok).stores
    ensures Timed(u)
  {
    OthersTimed(s, u, id);
  }

  lemma EntryChangeTimed(s: State, u: State, id: EntryId, h: Held)
    requires Timed(s) && id in s.entries && h.path == s.entries[id].path
    requires u.entries == s.entries[id := h] && u.stores == s.stores
    requires h.users == 0 && h.closing == NotClosing && InTable(s, id) ==> h.timer
    ensures Timed(u)
  {
    OthersTimed(s, u, id);
  }

  lemma TimerFired(s: State, id: EntryId)
    requires TableTotal(s) && EntriesOk(s) && Timed(s) && Enabled(s, TimerFires(id))
    ensures Timed(Apply(s, TimerFires(id)))
  {
    hide Timed, TableTotal;
    assert EntryOk(s, id);
    var h := s.entries[id].(timer := false, closing := Queued);
    EntryChangeTimed(s, Apply(s, TimerFires(id)), id, h);
  }

  lemma CallStepTimed(s: State, a: Action)
    requires TableTotal(s) && EntriesOk(s) && Enabled(s, a) && Timed(s)
    requires a.Begin? || a.CloseWaitEnds? || a.OpenContinues? || a.WorkEnds?
    ensures Timed(Apply(s, a))
  {
    hide Timed, InTable, EnterStore, CloseStore, LeaveStore, TableTotal, EntriesOk, EntryOk;
    var t := Apply(s, a);
    match a
    case Begin(c) =>
      match s.calls[c].need {
        case NoStore => SameTimed(s, t);
        case OpenStore(p) => EnterTimed(s, c, p);
        case ReleaseStore(p) => CloseKeepsTimed(s, t, p);
      }
    case CloseWaitEnds(c) => EnterTimed(s, c, s.calls[c].path);
    case OpenContinues(c) => ContinuesTimed(s, c);
    case WorkEnds(c, thrown) =>
      var id := s.calls[c].entry;
      LeaveTimed(s, Note(s, WorkEnded(s.entries[id].path, id, c)), c, id, if thrown then ThrownError else Value);
  }

  lemma EntryStepTimed(s: State, a: Action)
    requires TableTotal(s) && EntriesOk(s) && Enabled(s, a) && Timed(s)
    requires a.OpenSettles? || a.TimerFires? || a.CloseStarts? || a.CloseSettles? || a.DrainNext?
    ensures Timed(Apply(s, a))
  {
    hide Timed, InTable, CloseStore, ClosedEntry, TableTotal, EntriesOk, EntryOk;
    var t := Apply(s, a);
    match a
    case OpenSettles(id, result) => SettledTimed(s, id, result);
    case TimerFires(id) => TimerFired(s, id);
    case CloseStarts(id) => StartedTimed(s, id);
    case CloseSettles(id, ok) => ClosedTimed(s, t, id, ok);
    case DrainNext =>
      if s.drain.todo != [] {
        CloseKeepsTimed(s, t, s.drain.todo[0]);
      } else {
        SameTimed(s, t);
      }
  }

  lemma StepTimed(s: State, a: Action)
    requires Inv(s) && Enabled(s, a) && Timed(s)
    ensures Timed(Apply(s, a))
  {
    hide Timed, InTable, KeysOf, LedgerOk, CountsOk, CallsOk, ShutOk, TableTotal, EntriesOk;
    if a.Begin? || a.CloseWaitEnds? || a.OpenContinues? || a.WorkEnds? {
      hide Apply;
      CallStepTimed(s, a);
    } else if a.OpenSettles? || a.TimerFires? || a.CloseStarts? || a.CloseSettles? || a.DrainNext? {
      hide Apply;
      EntryStepTimed(s, a);
    } else {
      SameTimed(s, Apply(s, a));
    }
  }

  lemma CloseKeepsTimed(s: State, t: State, p: Path)
    requires TableTotal(s) && Timed(s) && t.entries == CloseStore(s, p).0.entries
      && t.stores == CloseStore(s, p).0.stores
    ensures Timed(t)
  {
    CloseTimed(s, t, p);
  }

  lemma SettledTimed(s: State, id: EntryId, result: OpenResult)
    requires TableTotal(s) && Timed(s) && Enabled(s, OpenSettles(id, result))
    ensures Timed(Apply(s, OpenSettles(id, result)))
  {
    hide Timed, TableTotal;
    assert EntryTimed(s, id) by {
      TimedAt(s, id);
    }
    EntryChangeTimed(s, Apply(s, OpenSettles(id, result)), id, s.entries[id].(opening := Settled(result)));
  }

  lemma TimedAt(s: State, id: EntryId)
    requires Timed(s) && id in s.entries
    ensures EntryTimed(s, id)
  {
  }

  lemma ContinuesTimed(s: State, c: CallId)
    requires TableTotal(s) && Timed(s) && Enabled(s, OpenContinues(c))
    ensures Timed(Apply(s, OpenContinues(c)))
  {
    hide Timed, TableTotal, LeaveStore;
    var id := s.calls[c].entry;
    if s.entries[id].opening == Settled(Opened) {
      SameTimed(s, Apply(s, OpenContinues(c)));
    } else {
      var reply := if s.entries[id].opening == Settled(Thrown) then ThrownError else RefusedOpen;
      LeaveTimed(s, DropEntry(s, id), c, id, reply);
    }
  }

  lemma StartedTimed(s: State, id: EntryId)
    requires TableTotal(s) && Timed(s) && Enabled(s, CloseStarts(id))
    ensures Timed(Apply(s, CloseStarts(id)))
  {
    hide Timed, TableTotal, ClosedEntry;
    if s.entries[id].opening == Settled(Thrown) {
      ClosedTimed(s, Apply(s, CloseStarts(id)), id, false);
    } else {
      EntryChangeTimed(s, Apply(s, CloseStarts(id)), id, s.entries[id].(closing := Calling));
    }
  }

  /** In every reachable state an idle Store's timer runs, so no Store stays open for ever unused. */
  lemma {:induction false} IdleIsTimed(acts: seq<Action>)
    requires Reach(acts).Some?
    ensures Timed(Reach(acts).value)
  {
    if acts != [] {
      hide Apply, Inv, Enabled, Timed;
      var front := acts[..|acts| - 1];
      IdleIsTimed(front);
      RunKeeps(front);
      StepTimed(Reach(front).value, acts[|acts| - 1]);
    }
  }
}

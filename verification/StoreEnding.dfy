/**
  A closing worker always ends. Every step it takes of its own lowers what is
  left to do, and until the final phase is over it can take one.
*/
module StoreEnding {
  import opened Wrappers
  import opened StoreLedger
  import opened StoreTable
  import opened StoreSafety
  import opened StoreRuns
  import opened StoreShutdown
  import opened StoreMeasure

  /** A step of the worker or an answer it waits for; not a new call, and not another request to shut down. */
  predicate Own(a: Action) { !a.Admit? && !a.ShutdownAsked? }

  // Changes that lower what is left

  lemma FewerStores(stores: map<Path, EntryId>, p: Path, id: EntryId)
    ensures |stores - {p}| <= |stores|
    ensures p !in stores ==> |stores[p := id]| == |stores| + 1
  {
    var less := stores - {p};
    assert less.Keys == stores.Keys - {p};
    if p in stores {
      assert stores.Keys == less.Keys + {p};
    } else {
      assert less.Keys == stores.Keys;
      assert stores[p := id].Keys == stores.Keys + {p};
    }
    assert |stores.Keys| == |stores| && |less.Keys| == |less| && |stores[p := id].Keys| == |stores[p := id]|;
  }

  /** A call goes on to a phase in which it opens nothing more. */
  lemma PhaseMove(s: State, t: State, c: CallId, ph: Phase)
    requires c in s.calls && t.calls == s.calls[c := ph] && t.nextEntry == s.nextEntry && t.drain == s.drain
    requires |t.stores| <= |s.stores| && EntriesLeft(t.entries) <= EntriesLeft(s.entries)
    requires !MayOpen(ph) && PhaseWeight(ph, Bound(s)) < PhaseWeight(s.calls[c], Bound(s))
    ensures Left(t) < Left(s)
  {
    hide EntriesLeft, CallsLeft, Openers;
    OpenersAfter(s.calls, c, ph);
    CallMoves(s.calls, Bound(s), c, ph, Bound(t));
  }

  /** Calls stay as they are, and an entry or the final phase goes on. */
  lemma OtherMove(s: State, t: State)
    requires t.calls == s.calls && t.nextEntry == s.nextEntry
    requires EntriesLeft(t.entries) + PhaseLeft(t) < EntriesLeft(s.entries) + PhaseLeft(s)
    ensures Left(t) < Left(s)
  {
    hide EntriesLeft, CallsLeft, PhaseLeft;
  }

  lemma SamePhaseLeft(s: State, t: State)
    requires t.calls == s.calls && t.drain == s.drain && |t.stores| <= |s.stores|
    ensures PhaseLeft(t) <= PhaseLeft(s)
  {
  }

  lemma CloseLowers(s: State, p: Path)
    requires TableTotal(s)
    ensures EntriesLeft(CloseStore(s, p).0.entries) <= EntriesLeft(s.entries)
    ensures p in s.stores && s.entries[s.stores[p]].users == 0 && s.entries[s.stores[p]].closing == NotClosing ==>
      EntriesLeft(CloseStore(s, p).0.entries) < EntriesLeft(s.entries)
  {
    hide EntriesLeft;
    if p in s.stores && s.entries[s.stores[p]].users == 0 {
      var id := s.stores[p];
      EntryChanges(s.entries, id, ClosingEntry(s, id).entries[id]);
    }
  }

  // A call enters a Store

  lemma HasNotStarted(s: State, c: CallId)
    requires ShutOk(s) && c in s.calls
    ensures s.drain.NotStarted?
  {
  }

  lemma NextIsNew(s: State)
    requires EntriesOk(s)
    ensures s.nextEntry !in s.entries
  {
    assert s.nextEntry in s.entries ==> EntryOk(s, s.nextEntry);
  }

  lemma OpenLess(s: State, c: CallId, p: Path)
    requires Inv(s) && c in s.calls && MayOpen(s.calls[c]) && p !in s.stores
    ensures Left(OpenEntry(s, c, p)) < Left(s)
  {
    hide EntriesLeft, CallsLeft, Openers;
    var t, id := OpenEntry(s, c, p), s.nextEntry;
    HasNotStarted(s, c);
    NextIsNew(s);
    OpenersAfter(s.calls, c, AwaitOpen(id));
    CallMoves(s.calls, Bound(s), c, AwaitOpen(id), Bound(t));
    EntryAppears(s.entries, id, Held(p, Pending, 1, false, NotClosing));
    FewerStores(s.stores, p, id);
  }

  lemma WaitLess(s: State, c: CallId, p: Path, id: EntryId)
    requires c in s.calls && MayOpen(s.calls[c]) && id < s.nextEntry
    requires s.calls[c].AwaitClose? ==> s.calls[c].entry < id
    ensures Left(SetPhase(s, c, AwaitClose(p, id))) < Left(s)
  {
    hide EntriesLeft, CallsLeft, Openers;
    OpenersAfter(s.calls, c, AwaitClose(p, id));
    CallMoves(s.calls, Bound(s), c, AwaitClose(p, id), Bound(s));
  }

  lemma HoldLess(s: State, c: CallId, id: EntryId)
    requires c in s.calls && MayOpen(s.calls[c]) && id in s.entries
    ensures Left(HoldEntry(s, c, id)) < Left(s)
  {
    hide EntriesLeft;
    var h := s.entries[id];
    EntryChanges(s.entries, id, h.(users := h.users + 1, timer := false));
    PhaseMove(s, HoldEntry(s, c, id), c, AwaitOpen(id));
  }

  lemma EnterLess(s: State, c: CallId, p: Path)
    requires Inv(s) && Newest(s) && c in s.calls && MayOpen(s.calls[c])
    requires s.calls[c].AwaitClose? ==>
      && s.calls[c].path == p && s.calls[c].entry in s.entries && s.entries[s.calls[c].entry].path == p
      && s.entries[s.calls[c].entry].closing.Finished?
    ensures Left(EnterStore(s, c, p)) < Left(s)
  {
    hide Left;
    if p !in s.stores {
      OpenLess(s, c, p);
    } else {
      var id := s.stores[p];
      assert EntryOk(s, id);
      if s.entries[id].closing != NotClosing {
        if s.calls[c].AwaitClose? {
          assert EntryOk(s, s.calls[c].entry);
        }
        WaitLess(s, c, p, id);
      } else {
        HoldLess(s, c, id);
      }
    }
  }

  // Every step of its own lowers what is left

  lemma BeginLess(s: State, c: CallId)
    requires Inv(s) && Newest(s) && Enabled(s, Begin(c))
    ensures Left(Apply(s, Begin(c))) < Left(s)
  {
    hide Left, EntriesLeft, EnterStore, CloseStore;
    match s.calls[c].need
    case NoStore => PhaseMove(s, Apply(s, Begin(c)), c, Direct);
    case OpenStore(p) => EnterLess(s, c, p);
    case ReleaseStore(p) => ReleaseLess(s, c, p);
  }

  lemma ReleaseLess(s: State, c: CallId, p: Path)
    requires TableTotal(s) && c in s.calls && s.calls[c] == Admitted(ReleaseStore(p))
    ensures Left(Apply(s, Begin(c))) < Left(s)
  {
    hide Left, EntriesLeft, CloseStore;
    var (u, answer) := CloseStore(s, p);
    CloseKeepsFlags(s, p);
    CloseLowers(s, p);
    var ph := match answer case NothingHeld => Returned(Value) case BusyHeld => Returned(RefusedBusy)
      case Waits(id) => AwaitRelease(id);
    assert Apply(s, Begin(c)) == SetPhase(u, c, ph);
    PhaseMove(s, SetPhase(u, c, ph), c, ph);
  }

  /** A call stops using an entry and returns. */
  lemma LeaveLess(s: State, u: State, c: CallId, id: EntryId, reply: Reply)
    requires c in s.calls && (s.calls[c].AwaitOpen? || s.calls[c].Working?) && id in s.entries
    requires u.calls == s.calls && u.entries == s.entries && u.nextEntry == s.nextEntry && u.drain == s.drain
    requires |u.stores| <= |s.stores|
    ensures Left(LeaveStore(u, c, id, reply)) < Left(s)
  {
    hide Left, EntriesLeft, InTable;
    var left := s.entries[id].(users := s.entries[id].users - 1);
    var idle := left.users == 0 && InTable(SetEntry(u, id, left), id);
    var t := LeaveStore(u, c, id, reply);
    EntryChanges(s.entries, id, t.entries[id]);
    assert t.entries == s.entries[id := t.entries[id]];
    PhaseMove(s, t, c, Returned(reply));
  }

  lemma ContinueLess(s: State, c: CallId)
    requires TableTotal(s) && Enabled(s, OpenContinues(c))
    ensures Left(Apply(s, OpenContinues(c))) < Left(s)
  {
    hide Left, EntriesLeft, LeaveStore, InTable, TableTotal;
    var id := s.calls[c].entry;
    if s.entries[id].opening == Settled(Opened) {
      PhaseMove(s, Apply(s, OpenContinues(c)), c, Working(id));
    } else {
      FewerStores(s.stores, s.entries[id].path, id);
      LeaveLess(s, DropEntry(s, id), c, id, if s.entries[id].opening == Settled(Thrown) then ThrownError
        else RefusedOpen);
    }
  }

  lemma WorkLess(s: State, c: CallId, thrown: bool)
    requires TableTotal(s) && Enabled(s, WorkEnds(c, thrown))
    ensures Left(Apply(s, WorkEnds(c, thrown))) < Left(s)
  {
    hide Left, EntriesLeft, LeaveStore, TableTotal;
    var id := s.calls[c].entry;
    LeaveLess(s, Note(s, WorkEnded(s.entries[id].path, id, c)), c, id, if thrown then ThrownError else Value);
  }

  lemma PlainCallLess(s: State, a: Action)
    requires Inv(s) && Newest(s) && Enabled(s, a) && (a.DirectEnds? || a.CloseWaitEnds? || a.ReleaseEnds?)
    ensures Left(Apply(s, a)) < Left(s)
  {
    hide Left, EntriesLeft, EnterStore;
    match a
    case DirectEnds(c, _) => PhaseMove(s, Apply(s, a), c, Apply(s, a).calls[c]);
    case ReleaseEnds(c) => PhaseMove(s, Apply(s, a), c, Apply(s, a).calls[c]);
    case CloseWaitEnds(c) =>
      assert CallOk(s, c);
      EnterLess(s, c, s.calls[c].path);
  }

  /** An entry changes to a lighter one, and may leave the table. */
  lemma EntryLess(s: State, t: State, id: EntryId, h: Held)
    requires id in s.entries && t.entries == s.entries[id := h] && EntryWeight(h) < EntryWeight(s.entries[id])
    requires t.calls == s.calls && t.nextEntry == s.nextEntry && t.drain == s.drain && |t.stores| <= |s.stores|
    ensures Left(t) < Left(s)
  {
    hide Left, EntriesLeft, PhaseLeft;
    EntryChanges(s.entries, id, h);
    SamePhaseLeft(s, t);
    OtherMove(s, t);
  }

  lemma OpenSettlesLess(s: State, id: EntryId, result: OpenResult)
    requires TableTotal(s) && Enabled(s, OpenSettles(id, result))
    ensures Left(Apply(s, OpenSettles(id, result))) < Left(s)
  {
    hide Left, TableTotal;
    EntryLess(s, Apply(s, OpenSettles(id, result)), id, s.entries[id].(opening := Settled(result)));
  }

  lemma ClosedLess(s: State, u: State, id: EntryId, ok: bool)
    requires id in s.entries && s.entries[id].closing in {Queued, Calling}
    requires u == ClosedEntry(s, id, ok) || (exists e :: u == Note(ClosedEntry(s, id, ok), e))
    ensures Left(u) < Left(s)
  {
    hide Left, InTable;
    FewerStores(s.stores, s.entries[id].path, id);
    EntryLess(s, u, id, s.entries[id].(closing := Finished(ok)));
  }

  lemma CloseStartsLess(s: State, id: EntryId)
    requires TableTotal(s) && Enabled(s, CloseStarts(id))
    ensures Left(Apply(s, CloseStarts(id))) < Left(s)
  {
    hide Left, TableTotal, ClosedEntry;
    if s.entries[id].opening == Settled(Thrown) {
      ClosedLess(s, Apply(s, CloseStarts(id)), id, false);
    } else {
      EntryLess(s, Apply(s, CloseStarts(id)), id, s.entries[id].(closing := Calling));
    }
  }

  lemma CloseSettlesLess(s: State, id: EntryId, ok: bool)
    requires TableTotal(s) && Enabled(s, CloseSettles(id, ok))
    ensures Left(Apply(s, CloseSettles(id, ok))) < Left(s)
  {
    hide Left, TableTotal, ClosedEntry;
    ClosedLess(s, Apply(s, CloseSettles(id, ok)), id, ok);
  }

  lemma TimerLess(s: State, id: EntryId)
    requires Inv(s) && Enabled(s, TimerFires(id))
    ensures Left(Apply(s, TimerFires(id))) < Left(s)
  {
    hide Left;
    assert EntryOk(s, id);
    TimerCloses(s, id);
  }

  lemma TimerCloses(s: State, id: EntryId)
    requires TableTotal(s) && Enabled(s, TimerFires(id))
    requires InTable(s, id) && s.entries[id].users == 0 && s.entries[id].closing == NotClosing
    ensures Left(Apply(s, TimerFires(id))) < Left(s)
  {
    hide Left;
    var h := s.entries[id].(timer := false, closing := Queued);
    EntryLess(s, Apply(s, TimerFires(id)), id, h);
  }

  /** Keys listed once each are as many as the table has. */
  lemma {:induction false} ListedOnce(keys: set<Path>, order: seq<Path>)
    requires (forall p :: p in keys <==> p in order) && forall i, j :: 0 <= i < j < |order| ==> order[i] != order[j]
    ensures |order| == |keys|
    decreases |order|
  {
    if order == [] {
      assert keys == {};
    } else {
      var rest := order[1..];
      assert order == [order[0]] + rest;
      forall i | 0 <= i < |rest| ensures rest[i] != order[0] {
        assert rest[i] == order[i + 1];
      }
      ListedOnce(keys - {order[0]}, rest);
      assert order[0] in keys;
    }
  }

  lemma FinishLess(s: State, c: CallId, order: seq<Path>)
    requires Inv(s) && s.closing && Enabled(s, Finish(c, order))
    ensures Left(Apply(s, Finish(c, order))) < Left(s)
  {
    hide Left, LedgerOk, CountsOk, EntriesOk, CallsOk, TableTotal;
    var t := Apply(s, Finish(c, order));
    HasNotStarted(s, c);
    ListedOnce(s.stores.Keys, order);
    assert |s.stores.Keys| == |s.stores|;
    GoneLess(s, t, c, |order|);
  }

  lemma GoneLess(s: State, t: State, c: CallId, n: nat)
    requires c in s.calls && s.calls[c].Returned? && t.calls == s.calls - {c} && s.drain.NotStarted?
    requires t.stores == s.stores && t.entries == s.entries && t.nextEntry == s.nextEntry && n == |s.stores|
    requires t.drain.NotStarted? || (t.drain.NextOf? && |t.drain.todo| == n)
    ensures Left(t) < Left(s)
  {
    hide EntriesLeft, CallsLeft, Openers;
    OpenersWithout(s.calls, c);
    CallGoes(s.calls, Bound(s), c);
  }

  lemma DrainLess(s: State, a: Action)
    requires TableTotal(s) && Enabled(s, a) && (a.DrainNext? || a.DrainWaitEnds?)
    ensures Left(Apply(s, a)) < Left(s)
  {
    hide Left, EntriesLeft, CloseStore, InTable, KeysOf;
    if a.DrainNext? && s.drain.todo != [] {
      CloseKeepsFlags(s, s.drain.todo[0]);
      CloseLowers(s, s.drain.todo[0]);
    }
    OtherMove(s, Apply(s, a));
  }

  /** While the worker is closing, each of its own steps leaves less to do. */
  lemma OwnStepLess(s: State, a: Action)
    requires Good(s) && s.closing && Enabled(s, a) && Own(a)
    ensures Left(Apply(s, a)) < Left(s)
  {
    hide Left, Apply, Enabled, Inv, Newest;
    InvIsTotal(s);
    match a
    case Begin(c) => BeginLess(s, c);
    case OpenSettles(id, result) => OpenSettlesLess(s, id, result);
    case OpenContinues(c) => ContinueLess(s, c);
    case WorkEnds(c, thrown) => WorkLess(s, c, thrown);
    case DirectEnds(_, _) => PlainCallLess(s, a);
    case CloseWaitEnds(_) => PlainCallLess(s, a);
    case ReleaseEnds(_) => PlainCallLess(s, a);
    case TimerFires(id) => TimerLess(s, id);
    case CloseStarts(id) => CloseStartsLess(s, id);
    case CloseSettles(id, ok) => CloseSettlesLess(s, id, ok);
    case Finish(c, order) => FinishLess(s, c, order);
    case DrainNext => DrainLess(s, a);
    case DrainWaitEnds => DrainLess(s, a);
  }

  /** Asked to shut down again, a closing worker does nothing new. */
  lemma AskedAgain(s: State, order: seq<Path>)
    requires Good(s) && s.closing && Enabled(s, ShutdownAsked(order))
    ensures Apply(s, ShutdownAsked(order)) == s
  {
  }

  // There is always a step

  lemma {:induction false} ListKeys(keys: set<Path>) returns (order: seq<Path>)
    ensures forall p :: p in keys <==> p in order
    ensures forall i, j :: 0 <= i < j < |order| ==> order[i] != order[j]
    decreases |keys|
  {
    if keys == {} {
      order := [];
    } else {
      var k :| k in keys;
      var rest := ListKeys(keys - {k});
      order := [k] + rest;
    }
  }

  /** Until the final phase is over, a closing worker can take a step of its own. */
  lemma CanGoOn(s: State) returns (a: Action)
    requires Good(s) && s.closing && !s.drain.Drained?
    ensures TableTotal(s) && Enabled(s, a) && Own(a)
  {
    InvIsTotal(s);
    if s.calls.Keys != {} {
      hide Enabled, Inv;
      var c :| c in s.calls.Keys;
      var order := ListKeys(s.stores.Keys);
      a := NoCallIsStuck(s, c, order);
    } else {
      NoCalls(s);
      hide Enabled, Inv;
      DrainGoesOn(s, true);
      a := DrainStep(s, true);
    }
  }

  lemma NoCalls(s: State)
    requires Good(s) && s.closing && s.calls.Keys == {}
    ensures s.finishing
  {
  }

  // Whole shutdowns

  predicate AllOwn(acts: seq<Action>) { forall i :: 0 <= i < |acts| ==> Own(acts[i]) }

  lemma GoodStep(s: State, a: Action)
    requires Good(s) && Enabled(s, a)
    ensures Good(Apply(s, a))
  {
    hide Apply, Enabled, Inv, Newest, Finishes;
    StepKeeps(s, a);
    FinishesKeeps(s, a);
    NewestKeeps(s, a);
  }

  lemma {:induction false} OwnRun(s: State, acts: seq<Action>)
    requires Good(s) && s.closing && AllOwn(acts) && StateAfter(s, acts).Some?
    ensures var t := StateAfter(s, acts).value; Good(t) && t.closing && |acts| + Left(t) <= Left(s)
    decreases |acts|
  {
    hide Apply, Enabled, Good, Left, Own;
    if acts != [] {
      GoodIsTotal(s);
      OwnStepLess(s, acts[0]);
      GoodStep(s, acts[0]);
      ClosingStep(s, acts[0]);
      assert forall i :: 0 <= i < |acts[1..]| ==> acts[1..][i] == acts[i + 1];
      OwnRun(Apply(s, acts[0]), acts[1..]);
    }
  }

  lemma GoodIsTotal(s: State)
    requires Good(s)
    ensures TableTotal(s)
  {
  }

  /**
    Once shutdown began, whatever order the worker's own steps and the answers it
    awaits come in: no more than `Left` of them are possible, until the final phase
    is over another one is, and then the table is empty.
  */
  lemma ShutdownCompletes(acts: seq<Action>, more: seq<Action>)
    requires Reach(acts).Some? && Reach(acts).value.closing
    requires AllOwn(more) && StateAfter(Reach(acts).value, more).Some?
    ensures var t := StateAfter(Reach(acts).value, more).value;
      && |more| <= Left(Reach(acts).value) && TableTotal(t)
      && (if t.drain.Drained? then t.stores == map[] else exists a :: Own(a) && Enabled(t, a))
  {
    hide Apply, Enabled, Left, Own, Good, Inv;
    RunIsGood(acts);
    OwnRun(Reach(acts).value, more);
    var t := StateAfter(Reach(acts).value, more).value;
    GoodIsTotal(t);
    if t.drain.Drained? {
      GoodIsEmpty(t);
    } else {
      var a := CanGoOn(t);
    }
  }

  lemma GoodIsEmpty(s: State)
    requires Good(s) && s.drain.Drained?
    ensures s.stores == map[]
  {
  }

  /** From every reachable closing state the worker's own steps lead to the end, with an empty table. */
  lemma ShutdownCanComplete(acts: seq<Action>) returns (more: seq<Action>)
    requires Reach(acts).Some? && Reach(acts).value.closing
    ensures AllOwn(more) && |more| <= Left(Reach(acts).value) && StateAfter(Reach(acts).value, more).Some?
    ensures StateAfter(Reach(acts).value, more).value.drain.Drained?
      && StateAfter(Reach(acts).value, more).value.stores == map[]
  {
    RunIsGood(acts);
    more := ToTheEnd(Reach(acts).value);
    OwnRun(Reach(acts).value, more);
  }

  lemma {:induction false} ToTheEnd(s: State) returns (more: seq<Action>)
    requires Good(s) && s.closing
    ensures AllOwn(more) && StateAfter(s, more).Some?
    ensures StateAfter(s, more).value.drain.Drained? && StateAfter(s, more).value.stores == map[]
    decreases Left(s)
  {
    hide Apply, Enabled, Left, Own, Good;
    if s.drain.Drained? {
      GoodIsEmpty(s);
      more := [];
    } else {
      var a := CanGoOn(s);
      OwnStepLess(s, a);
      GoodStep(s, a);
      OwnIsNoAdmit(a);
      ClosingStep(s, a);
      var rest := ToTheEnd(Apply(s, a));
      more := [a] + rest;
      assert more[1..] == rest;
    }
  }

  lemma OwnIsNoAdmit(a: Action)
    requires Own(a)
    ensures !a.Admit?
  {
  }
}

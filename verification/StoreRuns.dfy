/** The worker over whole runs: what holds after any sequence of steps from the start. */
module StoreRuns {
  import opened Wrappers
  import opened StoreLedger
  import opened StoreTable
  import opened StoreSafety

  /** The state after a sequence of steps, when each was enabled in turn. */
  ghost function Reach(acts: seq<Action>): Option<State> {
    if acts == [] then Some(START)
    else
      match Reach(acts[..|acts| - 1])
      case None => None
      case Some(s) =>
        var a := acts[|acts| - 1];
        if TableTotal(s) && Enabled(s, a) then Some(Apply(s, a)) else None
  }

  lemma StartHolds()
    ensures Inv(START)
  {
  }

  /** Every reachable state satisfies the invariant. */
  lemma {:induction false} RunKeeps(acts: seq<Action>)
    requires Reach(acts).Some?
    ensures Inv(Reach(acts).value)
  {
    if acts == [] {
      StartHolds();
    } else {
      RunKeeps(acts[..|acts| - 1]);
      StepKeeps(Reach(acts[..|acts| - 1]).value, acts[|acts| - 1]);
    }
  }

  lemma {:induction false} PrefixReached(acts: seq<Action>, n: nat)
    requires Reach(acts).Some? && n <= |acts|
    ensures Reach(acts[..n]).Some?
    decreases |acts|
  {
    if n < |acts| {
      assert acts[..|acts| - 1][..n] == acts[..n];
      PrefixReached(acts[..|acts| - 1], n);
    } else {
      assert acts[..n] == acts;
    }
  }

  /**
    The binding sees a serial Store: in every run, an open of a path starts only
    after every earlier open of it failed or had its close settled, work starts
    only on an opened entry not yet closed, and no entry is closed twice.
  */
  lemma StoresAreSerial(acts: seq<Action>)
    requires Reach(acts).Some?
    ensures var log := Reach(acts).value.log;
      && (forall i, j :: 0 <= i < j < |log| && log[i].OpenCalled? && log[j].OpenCalled? ==>
           log[i].path == log[j].path ==> Over(log[..j], i, log[i].path, log[i].entry))
      && (forall j :: 0 <= j < |log| && log[j].WorkStarted? ==>
           exists i :: 0 <= i < j && log[i] == OpenSettled(log[j].path, log[j].entry, Opened))
      && (forall i, j :: 0 <= i < j < |log| && log[i].CloseCalled? && log[j].WorkStarted? ==>
        log[i].entry != log[j].entry)
      && (forall i, j :: 0 <= i < j < |log| && log[i].CloseCalled? && log[j].CloseCalled? ==>
        log[i].entry != log[j].entry)
  {
    RunKeeps(acts);
    var log := Reach(acts).value.log;
    forall i, j | 0 <= i < j < |log| && log[i].OpenCalled? && log[j].OpenCalled? && log[i].path == log[j].path
      ensures Over(log[..j], i, log[i].path, log[i].entry)
    {
      OpensNeverOverlap(log, i, j);
    }
    forall j | 0 <= j < |log| && log[j].WorkStarted?
      ensures exists i :: 0 <= i < j && log[i] == OpenSettled(log[j].path, log[j].entry, Opened)
      ensures forall i :: 0 <= i < j ==> !(log[i].CloseCalled? && log[i].entry == log[j].entry)
    {
      WorkOnlyWhileOpen(log, j);
    }
    forall i, j | 0 <= i < j < |log| && log[i].CloseCalled? && log[j].CloseCalled?
      ensures log[i].entry != log[j].entry
    {
      ClosedAtMostOnce(log, i, j);
    }
  }

  /** A running call's entry opened, is not closing and is still the table's; an armed timer's entry is idle there. */
  lemma WorkHoldsItsEntry(acts: seq<Action>)
    requires Reach(acts).Some?
    ensures var s := Reach(acts).value;
      && (forall c :: c in s.calls && s.calls[c].Working? ==>
           var id := s.calls[c].entry;
           id in s.entries && s.entries[id].opening == Settled(Opened) && s.entries[id].closing == NotClosing
             && InTable(s, id))
      && (forall id :: id in s.entries && s.entries[id].timer ==>
           InTable(s, id) && Users(s.calls, id) == {} && s.entries[id].closing == NotClosing)
  {
    RunKeeps(acts);
    var s := Reach(acts).value;
    forall c | c in s.calls && s.calls[c].Working?
      ensures var id := s.calls[c].entry;
        id in s.entries && s.entries[id].opening == Settled(Opened) && s.entries[id].closing == NotClosing
          && InTable(s, id)
    {
      assert CallOk(s, c) && EntryOk(s, s.calls[c].entry);
    }
    forall id | id in s.entries && s.entries[id].timer
      ensures InTable(s, id) && Users(s.calls, id) == {} && s.entries[id].closing == NotClosing
    {
      assert EntryOk(s, id);
    }
  }

  // Shutdown

  lemma EnterKeepsFlags(s: State, c: CallId, p: Path)
    requires TableTotal(s)
    ensures var t := EnterStore(s, c, p);
      t.closing == s.closing && t.active == s.active && t.finishing == s.finishing && t.drain == s.drain
  {
    hide TableTotal;
  }

  lemma CloseKeepsFlags(s: State, p: Path)
    requires TableTotal(s)
    ensures var t := CloseStore(s, p).0;
      && t.closing == s.closing && t.active == s.active && t.finishing == s.finishing && t.drain == s.drain
      && t.stores == s.stores && t.nextEntry == s.nextEntry && t.calls == s.calls
  {
    hide TableTotal;
  }

  predicate FlagsStay(s: State, t: State) {
    t.closing == s.closing && t.active == s.active && t.finishing == s.finishing
  }

  lemma OtherStepsKeepFlags(s: State, a: Action)
    requires TableTotal(s) && Enabled(s, a) && !a.Admit? && !a.Finish? && !a.ShutdownAsked?
    ensures FlagsStay(s, Apply(s, a))
  {
    hide InTable, KeysOf, EnterStore, CloseStore;
    match a {
      case Begin(c) =>
        match s.calls[c].need {
          case NoStore =>
          case OpenStore(p) => EnterKeepsFlags(s, c, p);
          case ReleaseStore(p) => CloseKeepsFlags(s, p);
        }
      case CloseWaitEnds(c) => EnterKeepsFlags(s, c, s.calls[c].path);
      case TimerFires(id) => TimerKeepsFlags(s, id);
      case DrainNext =>
        if s.drain.todo != [] {
          CloseKeepsFlags(s, s.drain.todo[0]);
        }
      case _ =>
    }
  }

  lemma TimerKeepsFlags(s: State, id: EntryId)
    requires TableTotal(s) && Enabled(s, TimerFires(id))
    ensures FlagsStay(s, Apply(s, TimerFires(id)))
  {
    hide CloseStore, InTable;
    var h := s.entries[id];
    CloseKeepsFlags(SetEntry(s, id, h.(timer := false)), h.path);
  }

  lemma ClosingStep(s: State, a: Action)
    requires TableTotal(s) && Enabled(s, a) && s.closing
    ensures Apply(s, a).closing && !a.Admit?
  {
    hide TableTotal, InTable, KeysOf;
    if !a.Finish? && !a.ShutdownAsked? && !a.Admit? {
      hide Apply, Enabled;
      OtherStepsKeepFlags(s, a);
    }
  }

  lemma EnterKeepsCalls(s: State, c: CallId, p: Path)
    requires TableTotal(s) && c in s.calls
    ensures EnterStore(s, c, p).calls.Keys == s.calls.Keys
  {
    hide TableTotal;
  }

  lemma CloseKeepsCalls(s: State, p: Path)
    requires TableTotal(s)
    ensures CloseStore(s, p).0.calls == s.calls
  {
    hide TableTotal;
  }

  lemma CallsOnlyEnd(s: State, a: Action)
    requires TableTotal(s) && Enabled(s, a) && !a.Admit?
    ensures Apply(s, a).calls.Keys <= s.calls.Keys
  {
    hide InTable, KeysOf, EnterStore, CloseStore;
    if a.Begin? {
      match s.calls[a.call].need
      case NoStore =>
      case OpenStore(p) => EnterKeepsCalls(s, a.call, p);
      case ReleaseStore(p) => CloseKeepsCalls(s, p);
    } else if a.CloseWaitEnds? {
      EnterKeepsCalls(s, a.call, s.calls[a.call].path);
    } else if a.TimerFires? {
      var h := s.entries[a.entry];
      CloseKeepsCalls(SetEntry(s, a.entry, h.(timer := false)), h.path);
    } else if a.DrainNext? && s.drain.todo != [] {
      CloseKeepsCalls(s, s.drain.todo[0]);
    }
  }

  lemma FinishingStep(s: State, a: Action)
    requires TableTotal(s) && Enabled(s, a) && s.finishing
    ensures Apply(s, a).finishing
  {
    hide TableTotal, InTable, KeysOf;
    if !a.Finish? && !a.ShutdownAsked? && !a.Admit? {
      hide Apply, Enabled;
      OtherStepsKeepFlags(s, a);
    }
  }

  /** After the final phase every entry is done with: nothing is left to open, run or close. */
  lemma DrainedEntries(s: State, id: EntryId)
    requires Inv(s) && s.drain.Drained? && id in s.entries
    ensures s.entries[id].opening.Settled? && !s.entries[id].timer
    ensures s.entries[id].closing.Finished? || s.entries[id].closing.NotClosing?
  {
    assert EntryOk(s, id);
  }

  lemma DrainedStep(s: State, a: Action)
    requires Inv(s) && Enabled(s, a) && s.drain.Drained?
    ensures a.ShutdownAsked? && Apply(s, a) == s
  {
    if a.OpenSettles? || a.CloseStarts? || a.CloseSettles? || a.TimerFires? {
      DrainedEntries(s, a.entry);
    }
  }

  /** What shutdown promises between an earlier and a later state of one run. */
  ghost predicate StaysShut(s: State, t: State) {
    && (s.closing ==> t.closing && t.calls.Keys <= s.calls.Keys)
    && (s.finishing ==> t.finishing)
    && (s.drain.Drained? ==> t == s)
  }

  lemma StepStaysShut(s: State, a: Action)
    requires Inv(s) && Enabled(s, a)
    ensures StaysShut(s, Apply(s, a)) && (s.closing ==> !a.Admit?)
  {
    if s.closing {
      ClosingStep(s, a);
      CallsOnlyEnd(s, a);
    }
    if s.finishing {
      FinishingStep(s, a);
    }
    if s.drain.Drained? {
      DrainedStep(s, a);
    }
  }

  /**
    Once shutdown began, at any point of a run: no later step admits a call, the
    flags never fall back, so the final phase is entered at most once, and after
    it ended nothing changes any more.
  */
  lemma {:induction false} ShutdownIsFinal(acts: seq<Action>, n: nat)
    requires Reach(acts).Some? && n <= |acts|
    ensures Reach(acts[..n]).Some? && StaysShut(Reach(acts[..n]).value, Reach(acts).value)
    ensures Reach(acts[..n]).value.closing ==> forall i :: n <= i < |acts| ==> !acts[i].Admit?
    decreases |acts|
  {
    hide Apply, Enabled, Inv;
    PrefixReached(acts, n);
    if n == |acts| {
      assert acts[..n] == acts;
    } else {
      var front := acts[..|acts| - 1];
      assert front[..n] == acts[..n];
      ShutdownIsFinal(front, n);
      RunKeeps(front);
      StepStaysShut(Reach(front).value, acts[|acts| - 1]);
      assert forall i :: n <= i < |front| ==> acts[i] == front[i];
    }
  }

  /** The final phase runs with no active call, meets no Busy Store, and ends with an empty table. */
  lemma FinalPhase(acts: seq<Action>)
    requires Reach(acts).Some? && Reach(acts).value.finishing
    ensures var s := Reach(acts).value;
      && s.closing && s.active == 0 && s.calls == map[] && s.busyDrains == 0
      && TableTotal(s) && (forall p :: CloseStore(s, p).1 != BusyHeld)
      && (s.drain.Drained? ==> s.stores == map[])
  {
    RunKeeps(acts);
    var s := Reach(acts).value;
    forall p ensures CloseStore(s, p).1 != BusyHeld {
      DrainFindsIdle(s, p);
    }
  }

  function StageLeft(c: CloseStage): nat {
    match c
    case NotClosing => 4
    case Queued => 3
    case Calling => 2
    case Finished(_) => 1
  }

  /** How much of the final phase is left. */
  function DrainLeft(s: State): nat {
    match s.drain
    case NotStarted => 0
    case NextOf(todo) => 4 * |todo| + 1
    case Awaiting(id, todo) => 4 * |todo| + 1 + if id in s.entries then StageLeft(s.entries[id].closing) else 0
    case Drained => 0
  }

  /** The step the final phase takes or waits for: its own next turn, or what settles the close it awaits. */
  function DrainStep(s: State, ok: bool): Action
    requires s.drain.NextOf? || s.drain.Awaiting?
  {
    match s.drain
    case NextOf(_) => DrainNext
    case Awaiting(id, _) =>
      if id !in s.entries then DrainWaitEnds
      else
        match s.entries[id].closing
        case Calling => CloseSettles(id, ok)
        case Finished(_) => DrainWaitEnds
        case _ => CloseStarts(id)
  }

  /**
    The final phase always goes on: until it is over the step it takes or waits
    for is possible, with either answer of an awaited storeClose, and brings it
    closer to the end.
  */
  lemma DrainGoesOn(s: State, ok: bool)
    requires Inv(s) && s.finishing && !s.drain.Drained?
    ensures s.drain.NextOf? || s.drain.Awaiting?
    ensures Enabled(s, DrainStep(s, ok)) && DrainLeft(Apply(s, DrainStep(s, ok))) < DrainLeft(s)
    ensures Apply(s, DrainStep(s, ok)).finishing
    ensures s.drain.Awaiting? && s.drain.entry in s.entries && s.entries[s.drain.entry].closing == Calling ==>
      DrainStep(s, ok) == CloseSettles(s.drain.entry, ok)
  {
    if s.drain.NextOf? {
      if s.drain.todo != [] {
        DrainFindsIdle(s, s.drain.todo[0]);
      }
    } else {
      AwaitedIs(s);
      AwaitedStep(s, ok);
    }
  }

  /** An entry the final phase waits for is closing, and was opened or refused before. */
  lemma AwaitedIs(s: State)
    requires Inv(s) && s.drain.Awaiting?
    ensures s.drain.entry in s.entries
    ensures s.entries[s.drain.entry].closing != NotClosing && s.entries[s.drain.entry].opening.Settled?
  {
    assert EntryOk(s, s.drain.entry);
  }

  lemma AwaitedStep(s: State, ok: bool)
    requires TableTotal(s) && s.drain.Awaiting? && s.drain.entry in s.entries
    requires s.entries[s.drain.entry].closing != NotClosing && s.entries[s.drain.entry].opening.Settled?
    ensures Enabled(s, DrainStep(s, ok)) && DrainLeft(Apply(s, DrainStep(s, ok))) < DrainLeft(s)
    ensures Apply(s, DrainStep(s, ok)).finishing == s.finishing
  {
    hide TableTotal;
  }

  /** The final phase left to itself, an entry's storeClose answering as `answer` says. */
  ghost function DrainSteps(s: State, answer: EntryId -> bool, fuel: nat): seq<Action>
    requires Inv(s) && s.finishing
    decreases fuel
  {
    if s.drain.Drained? || fuel == 0 then []
    else
      var ok := s.drain.Awaiting? && answer(s.drain.entry);
      DrainGoesOn(s, ok);
      var a := DrainStep(s, ok);
      StepKeeps(s, a);
      [a] + DrainSteps(Apply(s, a), answer, fuel - 1)
  }

  /** The state after steps taken from `s`, or None when one of them is not possible. */
  ghost function StateAfter(s: State, acts: seq<Action>): Option<State>
    decreases |acts|
  {
    if acts == [] then Some(s)
    else if TableTotal(s) && Enabled(s, acts[0]) then StateAfter(Apply(s, acts[0]), acts[1..])
    else None
  }

  /**
    For all answers of the closes, failed ones included, at most `DrainLeft(s)`
    such steps end the final phase with an empty table.
  */
  lemma {:induction false} DrainEnds(s: State, answer: EntryId -> bool)
    requires Inv(s) && s.finishing
    ensures var acts := DrainSteps(s, answer, DrainLeft(s));
      && |acts| <= DrainLeft(s) && StateAfter(s, acts).Some?
      && StateAfter(s, acts).value.drain.Drained? && StateAfter(s, acts).value.stores == map[]
      && forall i :: 0 <= i < |acts| && acts[i].CloseSettles? ==> acts[i].ok == answer(acts[i].entry)
  {
    DrainEndsIn(s, answer, DrainLeft(s));
  }

  lemma {:induction false} DrainEndsIn(s: State, answer: EntryId -> bool, fuel: nat)
    requires Inv(s) && s.finishing && DrainLeft(s) <= fuel
    ensures var acts := DrainSteps(s, answer, fuel);
      && |acts| <= fuel && StateAfter(s, acts).Some?
      && StateAfter(s, acts).value.drain.Drained? && StateAfter(s, acts).value.stores == map[]
      && forall i :: 0 <= i < |acts| && acts[i].CloseSettles? ==> acts[i].ok == answer(acts[i].entry)
    decreases fuel
  {
    hide Apply, Enabled, DrainLeft, Inv;
    if s.drain.Drained? {
      DrainedIsEmpty(s);
    } else {
      var ok := s.drain.Awaiting? && answer(s.drain.entry);
      DrainGoesOn(s, ok);
      var a := DrainStep(s, ok);
      InvIsTotal(s);
      StepKeeps(s, a);
      DrainEndsIn(Apply(s, a), answer, fuel - 1);
      var rest := DrainSteps(Apply(s, a), answer, fuel - 1);
      assert DrainSteps(s, answer, fuel) == [a] + rest;
      assert ([a] + rest)[1..] == rest;
      forall i | 0 < i < |[a] + rest| && ([a] + rest)[i].CloseSettles?
        ensures ([a] + rest)[i].ok == answer(([a] + rest)[i].entry)
      {
        assert ([a] + rest)[i] == rest[i - 1];
      }
    }
  }

  lemma InvIsTotal(s: State)
    requires Inv(s)
    ensures TableTotal(s)
  {
  }

  lemma DrainedIsEmpty(s: State)
    requires Inv(s) && s.drain.Drained?
    ensures s.stores == map[]
  {
  }

  /** With no call left, only answers of the binding, timers and the final phase itself can move. */
  lemma FinishingActions(s: State, a: Action)
    requires TableTotal(s) && ShutOk(s) && s.finishing && Enabled(s, a)
    ensures a.OpenSettles? || a.TimerFires? || a.CloseStarts? || a.CloseSettles? || a.ShutdownAsked? || a.DrainNext?
      || a.DrainWaitEnds?
  {
    hide Apply;
  }

  lemma AnswerNeverBack(s: State, a: Action)
    requires TableTotal(s) && Enabled(s, a) && (a.OpenSettles? || a.CloseStarts? || a.CloseSettles?)
    ensures DrainLeft(Apply(s, a)) <= DrainLeft(s)
  {
    hide TableTotal;
  }

  lemma TimerNeverBack(s: State, id: EntryId)
    requires TableTotal(s) && Enabled(s, TimerFires(id))
    ensures DrainLeft(Apply(s, TimerFires(id))) <= DrainLeft(s)
  {
  }

  /** No step sets the final phase back. */
  lemma DrainNeverBack(s: State, a: Action)
    requires Inv(s) && s.finishing && Enabled(s, a)
    ensures DrainLeft(Apply(s, a)) <= DrainLeft(s)
  {
    FinishingActions(s, a);
    if a.DrainNext? {
      DrainGoesOn(s, true);
    } else if a.TimerFires? {
      TimerNeverBack(s, a.entry);
    } else if !a.ShutdownAsked? && !a.DrainWaitEnds? {
      AnswerNeverBack(s, a);
    }
  }

  /** No admitted call is stuck: some step it depends on, or its own next step, is enabled. */
  lemma NoCallIsStuck(s: State, c: CallId, order: seq<Path>) returns (a: Action)
    requires Inv(s) && c in s.calls && KeysOf(s, order)
    ensures Enabled(s, a)
    ensures match s.calls[c]
      case Admitted(_) => a == Begin(c)
      case AwaitClose(_, id) => a in {CloseStarts(id), CloseSettles(id, true), CloseWaitEnds(c)}
      case AwaitOpen(id) => a in {OpenSettles(id, Opened), OpenContinues(c)}
      case Working(_) => a == WorkEnds(c, false)
      case Direct => a == DirectEnds(c, false)
      case AwaitRelease(id) => a in {CloseStarts(id), CloseSettles(id, true), ReleaseEnds(c)}
      case Returned(_) => a == Finish(c, order)
  {
    assert CallOk(s, c);
    match s.calls[c]
    case Admitted(_) => a := Begin(c);
    case AwaitClose(_, id) =>
      assert EntryOk(s, id);
      a := match s.entries[id].closing
           case Queued => CloseStarts(id)
           case Calling => CloseSettles(id, true)
           case _ => CloseWaitEnds(c);
    case AwaitOpen(id) => a := if s.entries[id].opening == Pending then OpenSettles(id, Opened) else OpenContinues(c);
    case Working(_) => a := WorkEnds(c, false);
    case Direct => a := DirectEnds(c, false);
    case AwaitRelease(id) =>
      assert EntryOk(s, id);
      a := match s.entries[id].closing
           case Queued => CloseStarts(id)
           case Calling => CloseSettles(id, true)
           case _ => ReleaseEnds(c);
    case Returned(_) => a := Finish(c, order);
  }
}

/**
  The worker as the source writes it: one object whose fields its handlers
  update in place. Each step method is one uninterrupted run of a handler: its
  new state is that of one step of StoreTable, and it keeps the invariant.
  `Replay` performs any run on the object, so what is proved of every reachable
  state holds of the object after it.
*/
module WorkerServer {
  import opened StoreLedger
  import opened StoreTable
  import opened StoreSafety
  import opened StoreRuns
  import opened Wrappers

  class Worker {
    var stores: map<Path, EntryId>
    var entries: map<EntryId, Held>
    var nextEntry: EntryId
    var calls: map<CallId, Phase>
    var active: int
    var closing: bool
    var finishing: bool
    var drain: Drain
    ghost var busyDrains: nat
    ghost var log: seq<Event>

    ghost function Now(): State
      reads this
    {
      State(stores, entries, nextEntry, calls, active, closing, finishing, drain, busyDrains, log)
    }

    constructor ()
      ensures Now() == START && Inv(Now())
    {
      stores, entries, nextEntry, calls := map[], map[], 0, map[];
      active, closing, finishing, drain := 0, false, false, NotStarted;
      busyDrains, log := 0, [];
    }

    /** closeStore up to its await. */
    method CloseStore(path: Path) returns (answer: CloseAnswer)
      requires TableTotal(Now())
      modifies this`entries
      ensures (Now(), answer) == StoreTable.CloseStore(old(Now()), path)
    {
      if path !in stores {
        return NothingHeld;
      }
      var id := stores[path];
      var held := entries[id];
      if held.users != 0 {
        return BusyHeld;
      }
      entries := entries[id := held.(timer := false)];
      if held.closing == NotClosing {
        entries := entries[id := entries[id].(closing := Queued)];
      }
      assert entries == ClosingEntry(old(Now()), id).entries;
      return Waits(id);
    }

    /** withStore up to its first await; also where it goes on after waiting for a close. */
    method EnterStore(call: CallId, path: Path)
      requires TableTotal(Now())
      modifies this`stores, this`entries, this`nextEntry, this`calls, this`log
      ensures Now() == StoreTable.EnterStore(old(Now()), call, path)
    {
      if path in stores && entries[stores[path]].closing != NotClosing {
        calls := calls[call := AwaitClose(path, stores[path])];
        return;
      }
      if path !in stores {
        stores := stores[path := nextEntry];
        entries := entries[nextEntry := Held(path, Pending, 0, false, NotClosing)];
        log := log + [OpenCalled(path, nextEntry)];
        nextEntry := nextEntry + 1;
      }
      var id := stores[path];
      entries := entries[id := entries[id].(users := entries[id].users + 1, timer := false)];
      calls := calls[call := AwaitOpen(id)];
      assert entries == StoreTable.EnterStore(old(Now()), call, path).entries;
    }

    /** withStore's finally block, entered with the call's answer. */
    method LeaveStore(call: CallId, id: EntryId, reply: Reply)
      requires id in entries
      modifies this`entries, this`calls
      ensures Now() == StoreTable.LeaveStore(old(Now()), call, id, reply)
    {
      var held := entries[id];
      entries := entries[id := held.(users := held.users - 1)];
      if held.users - 1 == 0 && held.path in stores && stores[held.path] == id {
        entries := entries[id := entries[id].(timer := true)];
      }
      assert entries == StoreTable.LeaveStore(old(Now()), call, id, reply).entries;
      calls := calls[call := Returned(reply)];
    }

    /** withStore after its open promise settled. */
    method OpenContinues(call: CallId)
      requires Inv(Now()) && Enabled(Now(), Action.OpenContinues(call))
      modifies this
      ensures Inv(Now()) && Now() == Apply(old(Now()), Action.OpenContinues(call))
    {
      hide Inv;
      InvIsTotal(Now());
      StepKeeps(Now(), Action.OpenContinues(call));
      var id := calls[call].entry;
      var held := entries[id];
      if held.opening == Settled(Opened) {
        calls := calls[call := Working(id)];
        log := log + [WorkStarted(held.path, id, call)];
        return;
      }
      if held.path in stores && stores[held.path] == id {
        stores := stores - {held.path};
      }
      LeaveStore(call, id, if held.opening == Settled(Thrown) then ThrownError else RefusedOpen);
    }

    /** The call's work answered or threw. */
    method WorkEnds(call: CallId, thrown: bool)
      requires Inv(Now()) && Enabled(Now(), Action.WorkEnds(call, thrown))
      modifies this
      ensures Inv(Now()) && Now() == Apply(old(Now()), Action.WorkEnds(call, thrown))
    {
      hide Inv;
      InvIsTotal(Now());
      StepKeeps(Now(), Action.WorkEnds(call, thrown));
      var id := calls[call].entry;
      log := log + [WorkEnded(entries[id].path, id, call)];
      LeaveStore(call, id, if thrown then ThrownError else Value);
    }

    /** The handler of one request, after its secret, ping and name tests: refused while closing. */
    method Receive(call: CallId, need: Need) returns (admitted: bool)
      requires Inv(Now()) && call !in calls
      modifies this
      ensures Inv(Now()) && admitted == !old(closing)
      ensures Now() == if admitted then Apply(old(Now()), Admit(call, need)) else old(Now())
    {
      if closing {
        return false;
      }
      hide Inv;
      InvIsTotal(Now());
      StepKeeps(Now(), Admit(call, need));
      active := active + 1;
      calls := calls[call := Admitted(need)];
      return true;
    }

    /** answer up to its first await. */
    method Begin(call: CallId)
      requires Inv(Now()) && Enabled(Now(), Action.Begin(call))
      modifies this
      ensures Inv(Now()) && Now() == Apply(old(Now()), Action.Begin(call))
    {
      hide Inv;
      InvIsTotal(Now());
      StepKeeps(Now(), Action.Begin(call));
      match calls[call].need
      case NoStore =>
        calls := calls[call := Direct];
      case OpenStore(path) =>
        EnterStore(call, path);
      case ReleaseStore(path) =>
        var answer := CloseStore(path);
        match answer
        case NothingHeld => calls := calls[call := Returned(Value)];
        case BusyHeld => calls := calls[call := Returned(RefusedBusy)];
        case Waits(id) => calls := calls[call := AwaitRelease(id)];
    }

    /** An idle timer fires. */
    method TimerFires(id: EntryId)
      requires Inv(Now()) && Enabled(Now(), Action.TimerFires(id))
      modifies this
      ensures Inv(Now()) && Now() == Apply(old(Now()), Action.TimerFires(id))
    {
      hide Inv;
      InvIsTotal(Now());
      StepKeeps(Now(), Action.TimerFires(id));
      entries := entries[id := entries[id].(timer := false)];
      var answer := CloseStore(entries[id].path);
    }

    /** storeClose settled: the closing promise's finally block removes the entry. */
    method CloseSettles(id: EntryId, ok: bool)
      requires Inv(Now()) && Enabled(Now(), Action.CloseSettles(id, ok))
      modifies this
      ensures Inv(Now()) && Now() == Apply(old(Now()), Action.CloseSettles(id, ok))
    {
      hide Inv;
      InvIsTotal(Now());
      StepKeeps(Now(), Action.CloseSettles(id, ok));
      var path := entries[id].path;
      entries := entries[id := entries[id].(closing := Finished(ok))];
      if path in stores && stores[path] == id {
        stores := stores - {path};
      }
      log := log + [CloseSettled(path, id, ok)];
    }

    /** shutdown up to its first await. */
    method Shutdown(order: seq<Path>)
      requires TableTotal(Now()) && KeysOf(Now(), order)
      modifies this`closing, this`finishing, this`drain
      ensures Now() == StoreTable.Shutdown(old(Now()), order)
    {
      if !closing {
        closing := true;
      }
      if active != 0 || finishing {
        return;
      }
      finishing := true;
      drain := NextOf(order);
    }

    /** The handler after its answer settled. */
    method Finish(call: CallId, order: seq<Path>)
      requires Inv(Now()) && Enabled(Now(), Action.Finish(call, order))
      modifies this
      ensures Inv(Now()) && Now() == Apply(old(Now()), Action.Finish(call, order))
    {
      hide Inv;
      InvIsTotal(Now());
      StepKeeps(Now(), Action.Finish(call, order));
      active := active - 1;
      calls := calls - {call};
      if closing && active == 0 {
        Shutdown(order);
      }
    }

    /** One turn of the final phase's loop up to its await. */
    method DrainNext()
      requires Inv(Now()) && drain.NextOf?
      modifies this
      ensures Inv(Now()) && Now() == Apply(old(Now()), Action.DrainNext)
    {
      hide Inv;
      InvIsTotal(Now());
      StepKeeps(Now(), Action.DrainNext);
      if drain.todo == [] {
        drain := Drained;
        return;
      }
      var path, rest := drain.todo[0], drain.todo[1..];
      var answer := CloseStore(path);
      match answer
      case NothingHeld => drain := NextOf(rest);
      case BusyHeld => drain, busyDrains := NextOf(rest), busyDrains + 1;
      case Waits(id) => drain := Awaiting(id, rest);
    }

    /** The open promise settles. */
    method OpenSettles(id: EntryId, result: OpenResult)
      requires Inv(Now()) && Enabled(Now(), Action.OpenSettles(id, result))
      modifies this
      ensures Inv(Now()) && Now() == Apply(old(Now()), Action.OpenSettles(id, result))
    {
      hide Inv;
      InvIsTotal(Now());
      StepKeeps(Now(), Action.OpenSettles(id, result));
      log := log + [OpenSettled(entries[id].path, id, result)];
      entries := entries[id := entries[id].(opening := Settled(result))];
    }

    /** A call that needs no Store answered or threw. */
    method DirectEnds(call: CallId, thrown: bool)
      requires Inv(Now()) && Enabled(Now(), Action.DirectEnds(call, thrown))
      modifies this
      ensures Inv(Now()) && Now() == Apply(old(Now()), Action.DirectEnds(call, thrown))
    {
      hide Inv;
      InvIsTotal(Now());
      StepKeeps(Now(), Action.DirectEnds(call, thrown));
      calls := calls[call := Returned(if thrown then ThrownError else Value)];
    }

    /** withStore's loop after the close it waited for, settled either way. */
    method CloseWaitEnds(call: CallId)
      requires Inv(Now()) && Enabled(Now(), Action.CloseWaitEnds(call))
      modifies this
      ensures Inv(Now()) && Now() == Apply(old(Now()), Action.CloseWaitEnds(call))
    {
      hide Inv;
      InvIsTotal(Now());
      StepKeeps(Now(), Action.CloseWaitEnds(call));
      EnterStore(call, calls[call].path);
    }

    /** A release after the close it awaited: a failed close is thrown. */
    method ReleaseEnds(call: CallId)
      requires Inv(Now()) && Enabled(Now(), Action.ReleaseEnds(call))
      modifies this
      ensures Inv(Now()) && Now() == Apply(old(Now()), Action.ReleaseEnds(call))
    {
      hide Inv;
      InvIsTotal(Now());
      StepKeeps(Now(), Action.ReleaseEnds(call));
      calls := calls[call := Returned(if entries[calls[call].entry].closing.ok then Value else ThrownError)];
    }

    /** The closing promise after the open it waited for; a rejected open skips storeClose. */
    method CloseStarts(id: EntryId)
      requires Inv(Now()) && Enabled(Now(), Action.CloseStarts(id))
      modifies this
      ensures Inv(Now()) && Now() == Apply(old(Now()), Action.CloseStarts(id))
    {
      hide Inv;
      InvIsTotal(Now());
      StepKeeps(Now(), Action.CloseStarts(id));
      var held := entries[id];
      if held.opening == Settled(Thrown) {
        entries := entries[id := held.(closing := Finished(false))];
        if held.path in stores && stores[held.path] == id {
          stores := stores - {held.path};
        }
      } else {
        entries := entries[id := held.(closing := Calling)];
        log := log + [CloseCalled(held.path, id)];
      }
    }

    /** The process is asked to shut down. */
    method ShutdownAsked(order: seq<Path>)
      requires Inv(Now()) && Enabled(Now(), Action.ShutdownAsked(order))
      modifies this
      ensures Inv(Now()) && Now() == Apply(old(Now()), Action.ShutdownAsked(order))
    {
      hide Inv;
      InvIsTotal(Now());
      StepKeeps(Now(), Action.ShutdownAsked(order));
      Shutdown(order);
    }

    /** The final phase's loop after the close it awaited, settled either way. */
    method DrainWaitEnds()
      requires Inv(Now()) && Enabled(Now(), Action.DrainWaitEnds)
      modifies this
      ensures Inv(Now()) && Now() == Apply(old(Now()), Action.DrainWaitEnds)
    {
      hide Inv;
      InvIsTotal(Now());
      StepKeeps(Now(), Action.DrainWaitEnds);
      drain := NextOf(drain.todo);
    }

    /** Any step, by the handler that makes it. */
    method Perform(a: Action)
      requires Inv(Now()) && Enabled(Now(), a)
      modifies this
      ensures Inv(Now()) && Now() == Apply(old(Now()), a)
    {
      hide Apply, Inv;
      match a
      case Admit(call, need) => var admitted := Receive(call, need);
      case Begin(call) => Begin(call);
      case OpenSettles(id, result) => OpenSettles(id, result);
      case OpenContinues(call) => OpenContinues(call);
      case WorkEnds(call, thrown) => WorkEnds(call, thrown);
      case DirectEnds(call, thrown) => DirectEnds(call, thrown);
      case CloseWaitEnds(call) => CloseWaitEnds(call);
      case ReleaseEnds(call) => ReleaseEnds(call);
      case TimerFires(id) => TimerFires(id);
      case CloseStarts(id) => CloseStarts(id);
      case CloseSettles(id, ok) => CloseSettles(id, ok);
      case Finish(call, order) => Finish(call, order);
      case ShutdownAsked(order) => ShutdownAsked(order);
      case DrainNext => DrainNext();
      case DrainWaitEnds => DrainWaitEnds();
    }
  }

  /** A run on the object itself: any run of steps brings a new worker to the state the run reaches. */
  method Replay(acts: seq<Action>) returns (w: Worker)
    requires Reach(acts).Some?
    ensures fresh(w) && Inv(w.Now()) && w.Now() == Reach(acts).value
  {
    hide Apply, Inv, Enabled;
    w := new Worker();
    for k := 0 to |acts|
      invariant fresh(w) && Inv(w.Now()) && Reach(acts[..k]) == Some(w.Now())
    {
      PrefixReached(acts, k + 1);
      assert acts[..k + 1][..k] == acts[..k];
      w.Perform(acts[k]);
    }
    assert acts[..|acts|] == acts;
  }
}

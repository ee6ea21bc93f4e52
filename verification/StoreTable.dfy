/**
  The worker's table of open Stores, as one state with one function per
  uninterrupted run of JavaScript: everything between two awaits happens in one
  step, and any enabled step may come next. A promise is a value that settles in
  a step of its own; a timer may fire at any moment while it is armed.
*/
module StoreTable {
  import opened StoreLedger

  /** What storeOpen has answered so far. */
  datatype Answered = Pending | Settled(result: OpenResult)

  /** The shared closing promise: absent, waiting for the open promise, calling storeClose, settled. */
  datatype CloseStage = NotClosing | Queued | Calling | Finished(ok: bool)

  /** One table entry object. It outlives its place in the table while calls still hold it. */
  datatype Held = Held(path: Path, opening: Answered, users: int, timer: bool, closing: CloseStage)

  /** What an admitted request asks for. */
  datatype Need = OpenStore(path: Path) | ReleaseStore(path: Path) | NoStore

  datatype Reply = Value | RefusedBusy | RefusedOpen | ThrownError

  /** Where an admitted call stands. */
  datatype Phase =
    | Admitted(need: Need)
    | AwaitClose(path: Path, entry: EntryId)
    | AwaitOpen(entry: EntryId)
    | Working(entry: EntryId)
    | Direct
    | AwaitRelease(entry: EntryId)
    | Returned(reply: Reply)

  /** The final phase of shutdown: the paths still to close, one awaited at a time. */
  datatype Drain =
    | NotStarted
    | NextOf(todo: seq<Path>)
    | Awaiting(entry: EntryId, todo: seq<Path>)
    | Drained

  datatype State = State(
    stores: map<Path, EntryId>,
    entries: map<EntryId, Held>,
    nextEntry: EntryId,
    calls: map<CallId, Phase>,
    active: int,
    closing: bool,
    finishing: bool,
    drain: Drain,
    busyDrains: nat,
    log: seq<Event>)

  const START := State(map[], map[], 0, map[], 0, false, false, NotStarted, 0, [])

  datatype CloseAnswer = NothingHeld | BusyHeld | Waits(entry: EntryId)

  predicate InTable(s: State, id: EntryId)
    requires id in s.entries
  {
    var p := s.entries[id].path;
    p in s.stores && s.stores[p] == id
  }

  // Table reads never miss: every id the table names is an entry.
  ghost predicate TableTotal(s: State) {
    forall p :: p in s.stores ==> s.stores[p] in s.entries && s.entries[s.stores[p]].path == p
  }

  function SetEntry(s: State, id: EntryId, h: Held): State { s.(entries := s.entries[id := h]) }
  function SetPhase(s: State, c: CallId, p: Phase): State { s.(calls := s.calls[c := p]) }
  function Note(s: State, e: Event): State { s.(log := s.log + [e]) }
  function Forget(s: State, p: Path): State { s.(stores := s.stores - {p}) }

  /** The entry's idle timer stops and its one closing promise exists from now on. */
  function ClosingEntry(s: State, id: EntryId): State
    requires id in s.entries
  {
    var h := s.entries[id];
    SetEntry(s, id, h.(timer := false, closing := if h.closing == NotClosing then Queued else h.closing))
  }

  /** closeStore up to its await: the answer it settles with, or the entry it waits for. */
  function CloseStore(s: State, p: Path): (State, CloseAnswer)
    requires TableTotal(s)
  {
    if p !in s.stores then (s, NothingHeld)
    else if s.entries[s.stores[p]].users != 0 then (s, BusyHeld)
    else (ClosingEntry(s, s.stores[p]), Waits(s.stores[p]))
  }

  /** No entry is held for the path: open one, with this call as its first user. */
  function OpenEntry(s: State, c: CallId, p: Path): State {
    var id := s.nextEntry;
    s.(stores := s.stores[p := id],
       entries := s.entries[id := Held(p, Pending, 1, false, NotClosing)],
       nextEntry := id + 1,
       calls := s.calls[c := AwaitOpen(id)],
       log := s.log + [OpenCalled(p, id)])
  }

  /** One more call uses the entry, whose idle timer stops. */
  function HoldEntry(s: State, c: CallId, id: EntryId): State
    requires id in s.entries
  {
    var h := s.entries[id];
    s.(entries := s.entries[id := h.(users := h.users + 1, timer := false)],
       calls := s.calls[c := AwaitOpen(id)])
  }

  /** The head of withStore: wait for a close, or hold the entry, opening it when there is none. */
  function EnterStore(s: State, c: CallId, p: Path): State
    requires TableTotal(s)
  {
    if p !in s.stores then OpenEntry(s, c, p)
    else if s.entries[s.stores[p]].closing != NotClosing then SetPhase(s, c, AwaitClose(p, s.stores[p]))
    else HoldEntry(s, c, s.stores[p])
  }

  /** withStore's finally block: stop using the entry, and start its idle timer when it was the last use. */
  function LeaveStore(s: State, c: CallId, id: EntryId, reply: Reply): State
    requires id in s.entries
  {
    var left := s.entries[id].(users := s.entries[id].users - 1);
    var idle := left.users == 0 && InTable(s, id);
    SetPhase(SetEntry(s, id, left.(timer := idle || left.timer)), c, Returned(reply))
  }

  /** The open promise answered a refusal or an error: the entry leaves the table. */
  function DropEntry(s: State, id: EntryId): State
    requires id in s.entries
  {
    if InTable(s, id) then Forget(s, s.entries[id].path) else s
  }

  /** The closing promise settles; its finally block removes the entry. */
  function ClosedEntry(s: State, id: EntryId, ok: bool): State
    requires id in s.entries
  {
    DropEntry(SetEntry(s, id, s.entries[id].(closing := Finished(ok))), id)
  }

  /** shutdown up to its first await. */
  function Shutdown(s: State, order: seq<Path>): State {
    var t := s.(closing := true);
    if t.active != 0 || t.finishing then t
    else t.(finishing := true, drain := NextOf(order))
  }

  datatype Action =
    | Admit(call: CallId, need: Need)
    | Begin(call: CallId)
    | OpenSettles(entry: EntryId, result: OpenResult)
    | OpenContinues(call: CallId)
    | WorkEnds(call: CallId, thrown: bool)
    | DirectEnds(call: CallId, thrown: bool)
    | CloseWaitEnds(call: CallId)
    | ReleaseEnds(call: CallId)
    | TimerFires(entry: EntryId)
    | CloseStarts(entry: EntryId)
    | CloseSettles(entry: EntryId, ok: bool)
    | Finish(call: CallId, order: seq<Path>)
    | ShutdownAsked(order: seq<Path>)
    | DrainNext
    | DrainWaitEnds

  /** `order` lists the table's keys, each once, as `[...stores.keys()]` does. */
  ghost predicate KeysOf(s: State, order: seq<Path>) {
    && (forall p :: p in s.stores <==> p in order)
    && (forall i, j :: 0 <= i < j < |order| ==> order[i] != order[j])
  }

  /** When a step can be taken. Admit is the handler after its `closing` test. */
  ghost predicate Enabled(s: State, a: Action)
    requires TableTotal(s)
  {
    match a
    case Admit(c, need) => !s.closing && c !in s.calls
    case Begin(c) => c in s.calls && s.calls[c].Admitted?
    case OpenSettles(id, _) => id in s.entries && s.entries[id].opening == Pending
    case OpenContinues(c) =>
      && c in s.calls && s.calls[c].AwaitOpen?
      && s.calls[c].entry in s.entries && s.entries[s.calls[c].entry].opening.Settled?
    case WorkEnds(c, _) => c in s.calls && s.calls[c].Working? && s.calls[c].entry in s.entries
    case DirectEnds(c, _) => c in s.calls && s.calls[c] == Direct
    case CloseWaitEnds(c) =>
      && c in s.calls && s.calls[c].AwaitClose?
      && s.calls[c].entry in s.entries && s.entries[s.calls[c].entry].closing.Finished?
    case ReleaseEnds(c) =>
      && c in s.calls && s.calls[c].AwaitRelease?
      && s.calls[c].entry in s.entries && s.entries[s.calls[c].entry].closing.Finished?
    case TimerFires(id) => id in s.entries && s.entries[id].timer
    case CloseStarts(id) => id in s.entries && s.entries[id].closing == Queued && s.entries[id].opening.Settled?
    case CloseSettles(id, _) => id in s.entries && s.entries[id].closing == Calling
    case Finish(c, order) => c in s.calls && s.calls[c].Returned? && KeysOf(s, order)
    case ShutdownAsked(order) => KeysOf(s, order)
    case DrainNext => s.drain.NextOf?
    case DrainWaitEnds =>
      && s.drain.Awaiting? && s.drain.entry in s.entries && s.entries[s.drain.entry].closing.Finished?
  }

  /** The state after a step. */
  function Apply(s: State, a: Action): State
    requires TableTotal(s) && Enabled(s, a)
  {
    match a
    case Admit(c, need) => SetPhase(s.(active := s.active + 1), c, Admitted(need))
    case Begin(c) =>
      (match s.calls[c].need
       case NoStore => SetPhase(s, c, Direct)
       case OpenStore(p) => EnterStore(s, c, p)
       case ReleaseStore(p) =>
         var (t, answer) := CloseStore(s, p);
         match answer
         case NothingHeld => SetPhase(t, c, Returned(Value))
         case BusyHeld => SetPhase(t, c, Returned(RefusedBusy))
         case Waits(id) => SetPhase(t, c, AwaitRelease(id)))
    case OpenSettles(id, result) =>
      var h := s.entries[id];
      Note(SetEntry(s, id, h.(opening := Settled(result))), OpenSettled(h.path, id, result))
    case OpenContinues(c) =>
      var id := s.calls[c].entry;
      var h := s.entries[id];
      if h.opening == Settled(Opened) then
        Note(SetPhase(s, c, Working(id)), WorkStarted(h.path, id, c))
      else
        LeaveStore(DropEntry(s, id), c, id, if h.opening == Settled(Thrown) then ThrownError else RefusedOpen)
    case WorkEnds(c, thrown) =>
      var id := s.calls[c].entry;
      var t := Note(s, WorkEnded(s.entries[id].path, id, c));
      LeaveStore(t, c, id, if thrown then ThrownError else Value)
    case DirectEnds(c, thrown) => SetPhase(s, c, Returned(if thrown then ThrownError else Value))
    case CloseWaitEnds(c) => EnterStore(s, c, s.calls[c].path)
    case ReleaseEnds(c) =>
      SetPhase(s, c, Returned(if s.entries[s.calls[c].entry].closing.ok then Value else ThrownError))
    case TimerFires(id) =>
      var h := s.entries[id];
      CloseStore(SetEntry(s, id, h.(timer := false)), h.path).0
    case CloseStarts(id) =>
      // A rejected open promise skips storeClose and runs the finally block.
      var h := s.entries[id];
      if h.opening == Settled(Thrown) then ClosedEntry(s, id, false)
      else Note(SetEntry(s, id, h.(closing := Calling)), CloseCalled(h.path, id))
    case CloseSettles(id, ok) => Note(ClosedEntry(s, id, ok), CloseSettled(s.entries[id].path, id, ok))
    case Finish(c, order) =>
      var t := s.(calls := s.calls - {c}, active := s.active - 1);
      if t.closing && t.active == 0 then Shutdown(t, order) else t
    case ShutdownAsked(order) => Shutdown(s, order)
    case DrainNext =>
      if s.drain.todo == [] then s.(drain := Drained)
      else
        var rest := s.drain.todo[1..];
        var (t, answer) := CloseStore(s, s.drain.todo[0]);
        (match answer
         case NothingHeld => t.(drain := NextOf(rest))
         case BusyHeld => t.(drain := NextOf(rest), busyDrains := s.busyDrains + 1)
         case Waits(id) => t.(drain := Awaiting(id, rest)))
    case DrainWaitEnds => s.(drain := NextOf(s.drain.todo))
  }
}

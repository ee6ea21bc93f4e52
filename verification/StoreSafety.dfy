/**
  Safety of the Store table over every run: an inductive invariant, and what it
  says of each log of binding calls, of admission and of shutdown.
*/
module StoreSafety {
  import opened StoreLedger
  import opened StoreTable

  predicate Uses(ph: Phase, id: EntryId) {
    (ph.AwaitOpen? || ph.Working?) && ph.entry == id
  }

  /** The calls that hold an entry: what its `users` field counts. */
  function Users(calls: map<CallId, Phase>, id: EntryId): set<CallId> {
    set c | c in calls && Uses(calls[c], id)
  }

  /** The calls running on an entry's Store. */
  function Workers(calls: map<CallId, Phase>, id: EntryId): set<CallId> {
    set c | c in calls && calls[c] == Working(id)
  }

  /** The ledger standing that a table state stands for. */
  function StandingOf(s: State, p: Path): Standing
    requires TableTotal(s)
  {
    if p !in s.stores then Closed
    else
      var id := s.stores[p];
      var h := s.entries[id];
      if h.opening == Pending then Opening(id)
      else if h.opening != Settled(Opened) then Closed
      else if h.closing == Calling then Closing(id)
      else Open(id, Workers(s.calls, id))
  }

  ghost predicate EntryOk(s: State, id: EntryId)
    requires id in s.entries
  {
    var h := s.entries[id];
    && id < s.nextEntry && h.users >= 0
    && (InTable(s, id) ==> !h.closing.Finished?)
    && (!InTable(s, id) ==> h.closing.Finished? || (h.opening.Settled? && h.opening != Settled(Opened)))
    && (InTable(s, id) && h.users == 0 ==> h.opening == Settled(Opened))
    && (h.closing != NotClosing ==> h.users == 0 && h.opening == Settled(Opened) && !h.timer)
    && (h.timer ==> InTable(s, id) && h.users == 0)
  }

  ghost predicate EntriesOk(s: State) { forall id :: id in s.entries ==> EntryOk(s, id) }

  ghost predicate CountsOk(s: State) { forall id :: id in s.entries ==> s.entries[id].users == |Users(s.calls, id)| }

  ghost predicate CallOk(s: State, c: CallId)
    requires c in s.calls
  {
    match s.calls[c]
    case Admitted(_) => true
    case AwaitClose(p, id) => id in s.entries && s.entries[id].path == p && s.entries[id].closing != NotClosing
    case AwaitOpen(id) => id in s.entries && s.entries[id].users > 0
    case Working(id) => id in s.entries && s.entries[id].users > 0 && s.entries[id].opening == Settled(Opened)
    case Direct => true
    case AwaitRelease(id) => id in s.entries && s.entries[id].closing != NotClosing
    case Returned(_) => true
  }

  ghost predicate CallsOk(s: State) { forall c :: c in s.calls ==> CallOk(s, c) }

  ghost predicate ShutOk(s: State) {
    && s.active == |s.calls.Keys|
    && s.busyDrains == 0
    && (s.finishing ==> s.closing && s.calls.Keys == {})
    && (s.finishing <==> !s.drain.NotStarted?)
    && match s.drain
       case NotStarted => true
       case NextOf(todo) => forall p :: p in s.stores ==> p in todo
       case Awaiting(id, todo) =>
         && id in s.entries && s.entries[id].closing != NotClosing
         && forall p :: p in s.stores ==> p in todo || s.stores[p] == id
       case Drained => s.stores == map[]
  }

  ghost predicate LedgerOk(s: State)
    requires TableTotal(s)
  {
    && Accepts(s.log)
    && Replay(s.log).value.used == s.entries.Keys
    && forall p :: Look(Replay(s.log).value, p) == StandingOf(s, p)
  }

  ghost predicate TableOk(s: State) { TableTotal(s) && EntriesOk(s) && CallsOk(s) && ShutOk(s) }

  ghost predicate Inv(s: State) { TableOk(s) && CountsOk(s) && LedgerOk(s) }

  // How one call's move changes the counted sets.

  ghost predicate OnlyMoves(s: State, t: State, c: CallId) {
    && (forall d :: d != c && d in s.calls ==> d in t.calls && s.calls[d] == t.calls[d])
    && (forall d :: d != c && d in t.calls ==> d in s.calls)
  }

  ghost predicate UsesOf(s: State, c: CallId, id: EntryId) { c in s.calls && Uses(s.calls[c], id) }

  ghost predicate WorksOn(s: State, c: CallId, id: EntryId) { c in s.calls && s.calls[c] == Working(id) }

  lemma UsersAfter(s: State, t: State, c: CallId, id: EntryId)
    requires OnlyMoves(s, t, c)
    ensures |Users(t.calls, id)| ==
      |Users(s.calls, id)| + (if UsesOf(t, c, id) then 1 else 0) - (if UsesOf(s, c, id) then 1 else 0)
  {
    Without(Users(s.calls, id), c);
    Without(Users(t.calls, id), c);
    forall d
      ensures d in Users(t.calls, id) - {c} <==> d in Users(s.calls, id) - {c}
    {
    }
    assert Users(t.calls, id) - {c} == Users(s.calls, id) - {c};
  }

  lemma Without(users: set<CallId>, c: CallId)
    ensures |users| == |users - {c}| + if c in users then 1 else 0
  {
    if c in users {
      assert users == (users - {c}) + {c};
    } else {
      assert users == users - {c};
    }
  }

  lemma WorkersAfter(s: State, t: State, c: CallId, id: EntryId)
    requires OnlyMoves(s, t, c)
    ensures WorksOn(t, c, id) ==> Workers(t.calls, id) == Workers(s.calls, id) + {c}
    ensures WorksOn(s, c, id) && !WorksOn(t, c, id) ==> Workers(t.calls, id) == Workers(s.calls, id) - {c}
    ensures !WorksOn(s, c, id) && !WorksOn(t, c, id) ==> Workers(t.calls, id) == Workers(s.calls, id)
  {
  }

  /** A call that holds an entry keeps that entry's count positive. */
  lemma Counted(s: State, c: CallId, id: EntryId)
    requires CountsOk(s) && UsesOf(s, c, id) && id in s.entries
    ensures s.entries[id].users > 0
  {
    assert c in Users(s.calls, id);
  }

  lemma NoWorkers(s: State, id: EntryId)
    requires CallsOk(s) && id in s.entries && s.entries[id].users == 0
    ensures Workers(s.calls, id) == {}
  {
    forall c | c in s.calls ensures s.calls[c] != Working(id) {
      assert CallOk(s, c);
    }
  }

  // One step, part by part: the counts, the table, the ledger.

  lemma MoveCounts(s: State, t: State, c: CallId)
    requires CountsOk(s) && OnlyMoves(s, t, c)
    requires forall id :: id in s.entries ==> id in t.entries
    requires forall id :: id in t.entries ==>
      t.entries[id].users == (if id in s.entries then s.entries[id].users else |Users(s.calls, id)|)
        + (if UsesOf(t, c, id) then 1 else 0) - (if UsesOf(s, c, id) then 1 else 0)
    ensures CountsOk(t)
  {
    forall id | id in t.entries ensures t.entries[id].users == |Users(t.calls, id)| {
      UsersAfter(s, t, c, id);
    }
  }

  lemma LedgerMoves(s: State, t: State, e: Event)
    requires TableTotal(s) && LedgerOk(s) && TableTotal(t) && t.log == s.log + [e]
    requires Allowed(StandingOf(s, e.path), e) && StandingOf(t, e.path) == NextStanding(StandingOf(s, e.path), e)
    requires e.OpenCalled? ==> e.entry !in s.entries
    requires t.entries.Keys == if e.OpenCalled? then s.entries.Keys + {e.entry} else s.entries.Keys
    requires forall q :: q != e.path ==> StandingOf(t, q) == StandingOf(s, q)
    ensures LedgerOk(t)
  {
    ReplayAppend(s.log, e);
    AfterLooks(Replay(s.log).value, e);
  }

  lemma LedgerStays(s: State, t: State)
    requires TableTotal(s) && LedgerOk(s) && TableTotal(t) && t.log == s.log && t.entries.Keys == s.entries.Keys
    requires forall q :: StandingOf(t, q) == StandingOf(s, q)
    ensures LedgerOk(t)
  {
  }

  // Frames: what does not change keeps its part of the invariant.

  ghost predicate SameEntries(s: State, t: State) {
    t.entries == s.entries && t.stores == s.stores && t.nextEntry == s.nextEntry
  }

  lemma EntriesFrame(s: State, t: State)
    requires TableTotal(s) && EntriesOk(s) && SameEntries(s, t)
    ensures TableTotal(t) && EntriesOk(t)
  {
    forall id | id in t.entries ensures EntryOk(t, id) {
      assert EntryOk(s, id);
    }
  }

  /** Only `id` changes, and the table keeps every other entry's place. */
  ghost predicate OnlyEntry(s: State, t: State, id: EntryId) {
    && id in t.entries && s.nextEntry <= t.nextEntry
    && (forall e :: e != id && e in t.entries ==>
         e in s.entries && t.entries[e] == s.entries[e] && (InTable(t, e) <==> InTable(s, e)))
    && (forall e :: e in s.entries ==> e in t.entries)
  }

  lemma EntryChange(s: State, t: State, id: EntryId)
    requires EntriesOk(s) && OnlyEntry(s, t, id) && EntryOk(t, id)
    ensures EntriesOk(t)
  {
    forall e | e in t.entries ensures EntryOk(t, e) {
      assert e in s.entries ==> EntryOk(s, e);
    }
  }

  /** A call's own condition survives a change of entries that keeps what it relies on. */
  lemma CallFrame(s: State, t: State, d: CallId)
    requires d in s.calls && CallOk(s, d) && d in t.calls && t.calls[d] == s.calls[d]
    requires forall e :: e in s.entries ==> e in t.entries && t.entries[e].path == s.entries[e].path
    requires forall e :: e in s.entries && s.entries[e].closing != NotClosing ==> t.entries[e].closing != NotClosing
    requires forall e :: UsesOf(s, d, e) && e in s.entries ==> t.entries[e].users > 0
    requires forall e :: e in s.entries && s.entries[e].opening.Settled? ==>
      t.entries[e].opening == s.entries[e].opening
    ensures CallOk(t, d)
  {
  }

  // Entering: a call takes hold of an entry, or opens a new one.

  lemma OpenKeepsTable(s: State, c: CallId, p: Path)
    requires TableOk(s) && c in s.calls && p !in s.stores && !s.finishing
    ensures TableOk(OpenEntry(s, c, p))
  {
    var t := OpenEntry(s, c, p);
    var id := s.nextEntry;
    assert id in s.entries ==> EntryOk(s, id);
    assert t.calls.Keys == s.calls.Keys;
    assert OnlyEntry(s, t, id);
    EntryChange(s, t, id);
    forall d | d in t.calls && d != c ensures CallOk(t, d) {
      assert CallOk(s, d);
      CallFrame(s, t, d);
    }
  }

  lemma HoldKeepsTable(s: State, c: CallId, id: EntryId)
    requires TableOk(s) && c in s.calls && id in s.entries && InTable(s, id) && s.entries[id].closing == NotClosing
    ensures TableOk(HoldEntry(s, c, id))
  {
    var t := HoldEntry(s, c, id);
    assert EntryOk(s, id);
    assert t.calls.Keys == s.calls.Keys;
    assert OnlyEntry(s, t, id);
    EntryChange(s, t, id);
    forall d | d in t.calls && d != c ensures CallOk(t, d) {
      assert CallOk(s, d);
      CallFrame(s, t, d);
    }
  }

  lemma NobodyUses(s: State, id: EntryId)
    requires CallsOk(s) && id !in s.entries
    ensures Users(s.calls, id) == {}
  {
    forall c | c in s.calls ensures !Uses(s.calls[c], id) {
      assert CallOk(s, c);
    }
  }

  /** A path keeps its standing when its entry does and no work on it starts or ends. */
  lemma StandingFrame(s: State, t: State, q: Path)
    requires TableTotal(s) && TableTotal(t) && (q in s.stores <==> q in t.stores)
    requires q in s.stores ==>
      && s.stores[q] == t.stores[q]
      && t.entries[s.stores[q]].opening == s.entries[s.stores[q]].opening
      && (t.entries[s.stores[q]].closing == Calling <==> s.entries[s.stores[q]].closing == Calling)
      && Workers(t.calls, s.stores[q]) == Workers(s.calls, s.stores[q])
    ensures StandingOf(t, q) == StandingOf(s, q)
  {
  }

  lemma OpenLedger(s: State, c: CallId, p: Path)
    requires TableTotal(s) && LedgerOk(s) && s.nextEntry !in s.entries && p !in s.stores
    requires c in s.calls && HoldsNone(s.calls[c])
    ensures LedgerOk(OpenEntry(s, c, p))
  {
    var t := OpenEntry(s, c, p);
    forall q | q != p ensures StandingOf(t, q) == StandingOf(s, q) {
      if q in s.stores {
        WorkersAfter(s, t, c, s.stores[q]);
      }
      StandingFrame(s, t, q);
    }
    LedgerMoves(s, t, OpenCalled(p, s.nextEntry));
  }

  lemma OpenCounts(s: State, c: CallId, p: Path)
    requires CallsOk(s) && CountsOk(s) && s.nextEntry !in s.entries && c in s.calls && HoldsNone(s.calls[c])
    ensures CountsOk(OpenEntry(s, c, p))
  {
    NobodyUses(s, s.nextEntry);
    MoveCounts(s, OpenEntry(s, c, p), c);
  }

  lemma OpenKeeps(s: State, c: CallId, p: Path)
    requires Inv(s) && c in s.calls && HoldsNone(s.calls[c]) && p !in s.stores
    ensures Inv(OpenEntry(s, c, p))
  {
    assert s.nextEntry in s.entries ==> EntryOk(s, s.nextEntry);
    OpenKeepsTable(s, c, p);
    OpenCounts(s, c, p);
    OpenLedger(s, c, p);
  }

  // A call that holds no entry, before and after, only changes its phase.

  ghost predicate HoldsNone(ph: Phase) { !ph.AwaitOpen? && !ph.Working? }

  /** The ledger does not see a change that keeps every entry's stage and every running call. */
  lemma QuietLedger(s: State, t: State, c: CallId)
    requires TableTotal(s) && LedgerOk(s) && TableTotal(t) && t.log == s.log && t.stores == s.stores
    requires OnlyMoves(s, t, c) && t.entries.Keys == s.entries.Keys
    requires c in s.calls ==> !s.calls[c].Working?
    requires c in t.calls ==> !t.calls[c].Working?
    requires forall e :: e in s.entries ==> t.entries[e].opening == s.entries[e].opening
    requires forall e :: e in s.entries ==> (t.entries[e].closing == Calling <==> s.entries[e].closing == Calling)
    ensures LedgerOk(t)
  {
    forall q ensures StandingOf(t, q) == StandingOf(s, q) {
      if q in s.stores {
        WorkersAfter(s, t, c, s.stores[q]);
      }
      StandingFrame(s, t, q);
    }
    LedgerStays(s, t);
  }

  lemma HoldKeeps(s: State, c: CallId, p: Path)
    requires Inv(s) && c in s.calls && HoldsNone(s.calls[c]) && p in s.stores
    requires s.entries[s.stores[p]].closing == NotClosing
    ensures Inv(HoldEntry(s, c, s.stores[p]))
  {
    var t := HoldEntry(s, c, s.stores[p]);
    HoldKeepsTable(s, c, s.stores[p]);
    MoveCounts(s, t, c);
    QuietLedger(s, t, c);
  }

  lemma PhaseTable(s: State, c: CallId, ph: Phase)
    requires TableOk(s) && c in s.calls && CallOk(SetPhase(s, c, ph), c)
    ensures TableOk(SetPhase(s, c, ph))
  {
    var t := SetPhase(s, c, ph);
    EntriesFrame(s, t);
    assert t.calls.Keys == s.calls.Keys;
    forall d | d in t.calls && d != c ensures CallOk(t, d) {
      assert CallOk(s, d);
    }
  }

  lemma PhaseKeeps(s: State, c: CallId, ph: Phase)
    requires Inv(s) && c in s.calls && HoldsNone(s.calls[c]) && HoldsNone(ph)
    requires CallOk(SetPhase(s, c, ph), c)
    ensures Inv(SetPhase(s, c, ph))
  {
    var t := SetPhase(s, c, ph);
    PhaseTable(s, c, ph);
    MoveCounts(s, t, c);
    QuietLedger(s, t, c);
  }

  lemma EnterKeeps(s: State, c: CallId, p: Path)
    requires Inv(s) && c in s.calls && HoldsNone(s.calls[c])
    ensures Inv(EnterStore(s, c, p))
  {
    if p !in s.stores {
      OpenKeeps(s, c, p);
    } else if s.entries[s.stores[p]].closing != NotClosing {
      PhaseKeeps(s, c, AwaitClose(p, s.stores[p]));
    } else {
      HoldKeeps(s, c, p);
    }
  }

  // Closing: closeStore on an idle entry, or its timer.

  lemma EntryTable(s: State, id: EntryId, h: Held)
    requires TableOk(s) && id in s.entries && EntryOk(SetEntry(s, id, h), id)
    requires h.path == s.entries[id].path && h.users == s.entries[id].users
    requires s.entries[id].closing != NotClosing ==> h.closing != NotClosing
    requires s.entries[id].opening.Settled? ==> h.opening == s.entries[id].opening
    ensures TableOk(SetEntry(s, id, h))
  {
    var t := SetEntry(s, id, h);
    assert OnlyEntry(s, t, id);
    EntryChange(s, t, id);
    forall d | d in t.calls ensures CallOk(t, d) {
      assert CallOk(s, d);
      CallFrame(s, t, d);
    }
  }

  lemma IdleEntryKeeps(s: State, id: EntryId, h: Held)
    requires Inv(s) && id in s.entries && EntryOk(SetEntry(s, id, h), id)
    requires h.path == s.entries[id].path && h.users == s.entries[id].users && h.opening == s.entries[id].opening
    requires s.entries[id].closing != NotClosing ==> h.closing != NotClosing
    requires h.closing == Calling <==> s.entries[id].closing == Calling
    ensures Inv(SetEntry(s, id, h))
  {
    EntryTable(s, id, h);
    var t := SetEntry(s, id, h);
    assert t.entries.Keys == s.entries.Keys;
    forall q ensures StandingOf(t, q) == StandingOf(s, q) {
      StandingFrame(s, t, q);
    }
    LedgerStays(s, t);
  }

  /** closeStore keeps the invariant, and refuses Busy exactly when the path's Store has users. */
  lemma CloseStoreKeeps(s: State, p: Path)
    requires Inv(s)
    ensures Inv(CloseStore(s, p).0)
    ensures CloseStore(s, p).1 == BusyHeld <==> p in s.stores && Users(s.calls, s.stores[p]) != {}
    ensures CloseStore(s, p).1 == NothingHeld <==> p !in s.stores
  {
    if p in s.stores && s.entries[s.stores[p]].users == 0 {
      var id := s.stores[p];
      assert EntryOk(s, id);
      IdleEntryKeeps(s, id, ClosingEntry(s, id).entries[id]);
    }
  }

  lemma TimerKeeps(s: State, id: EntryId)
    requires Inv(s) && Enabled(s, TimerFires(id))
    ensures Inv(Apply(s, TimerFires(id)))
  {
    assert EntryOk(s, id);
    var t := SetEntry(s, id, s.entries[id].(timer := false));
    IdleEntryKeeps(s, id, s.entries[id].(timer := false));
    CloseStoreKeeps(t, s.entries[id].path);
  }

  // Answers of the binding.

  lemma NoteFrame(s: State, t: State)
    requires TableOk(s) && CountsOk(s) && SameEntries(s, t) && t.calls == s.calls
    requires t.active == s.active && t.busyDrains == s.busyDrains && t.closing == s.closing
    requires t.finishing == s.finishing && t.drain == s.drain
    ensures TableOk(t) && CountsOk(t)
  {
    EntriesFrame(s, t);
    forall d | d in t.calls ensures CallOk(t, d) {
      assert CallOk(s, d);
    }
  }

  /** An event moves the ledger when only its own path's entry and running calls change. */
  lemma EventLedger(s: State, t: State, e: Event, c: CallId)
    requires TableTotal(s) && LedgerOk(s) && TableTotal(t) && t.log == s.log + [e] && !e.OpenCalled?
    requires OnlyMoves(s, t, c) && t.entries.Keys == s.entries.Keys
    requires forall q :: q != e.path ==> (q in s.stores <==> q in t.stores)
    requires forall q :: q != e.path && q in s.stores ==>
      && t.stores[q] == s.stores[q] && t.entries[s.stores[q]] == s.entries[s.stores[q]]
      && !WorksOn(s, c, s.stores[q]) && !WorksOn(t, c, s.stores[q])
    requires Allowed(StandingOf(s, e.path), e) && StandingOf(t, e.path) == NextStanding(StandingOf(s, e.path), e)
    ensures LedgerOk(t)
  {
    forall q | q != e.path ensures StandingOf(t, q) == StandingOf(s, q) {
      if q in s.stores {
        WorkersAfter(s, t, c, s.stores[q]);
      }
      StandingFrame(s, t, q);
    }
    LedgerMoves(s, t, e);
  }

  function EntryNoted(s: State, id: EntryId, h: Held, e: Event): State { Note(SetEntry(s, id, h), e) }

  lemma EntryNotedKeeps(s: State, id: EntryId, h: Held, e: Event)
    requires Inv(s) && id in s.entries && InTable(s, id) && EntryOk(SetEntry(s, id, h), id)
    requires h.path == s.entries[id].path && h.users == s.entries[id].users
    requires s.entries[id].closing != NotClosing ==> h.closing != NotClosing
    requires s.entries[id].opening.Settled? ==> h.opening == s.entries[id].opening
    requires e.path == h.path && !e.OpenCalled?
    requires TableTotal(EntryNoted(s, id, h, e)) && Allowed(StandingOf(s, h.path), e)
    requires StandingOf(EntryNoted(s, id, h, e), h.path) == NextStanding(StandingOf(s, h.path), e)
    ensures Inv(EntryNoted(s, id, h, e))
  {
    var m, t := SetEntry(s, id, h), EntryNoted(s, id, h, e);
    EntryTable(s, id, h);
    NoteFrame(m, t);
    assert t.entries.Keys == s.entries.Keys;
    forall q | q != e.path ensures StandingOf(t, q) == StandingOf(s, q) {
      StandingFrame(s, t, q);
    }
    LedgerMoves(s, t, e);
  }

  lemma OpenSettlesKeeps(s: State, id: EntryId, result: OpenResult)
    requires Inv(s) && id in s.entries && s.entries[id].opening == Pending
    ensures Inv(EntryNoted(s, id, s.entries[id].(opening := Settled(result)),
      OpenSettled(s.entries[id].path, id, result)))
  {
    assert EntryOk(s, id);
    forall c | c in s.calls ensures s.calls[c] != Working(id) {
      assert CallOk(s, c);
    }
    assert Workers(s.calls, id) == {};
    EntryNotedKeeps(s, id, s.entries[id].(opening := Settled(result)), OpenSettled(s.entries[id].path, id, result));
  }

  lemma CloseStartsKeeps(s: State, id: EntryId)
    requires Inv(s) && id in s.entries && s.entries[id].closing == Queued
    ensures s.entries[id].opening == Settled(Opened)
    ensures Inv(EntryNoted(s, id, s.entries[id].(closing := Calling), CloseCalled(s.entries[id].path, id)))
  {
    assert EntryOk(s, id);
    NoWorkers(s, id);
    EntryNotedKeeps(s, id, s.entries[id].(closing := Calling), CloseCalled(s.entries[id].path, id));
  }

  /** Removing an entry from the table touches no other entry's place. */
  lemma ForgetPlaces(s: State, id: EntryId, e: EntryId)
    requires TableTotal(s) && id in s.entries && e in s.entries && e != id && InTable(s, id)
    ensures InTable(Forget(s, s.entries[id].path), e) <==> InTable(s, e)
  {
  }

  lemma ClosedTable(s: State, id: EntryId, ok: bool)
    requires TableOk(s) && id in s.entries && s.entries[id].closing == Calling
    ensures TableOk(ClosedEntry(s, id, ok))
  {
    assert EntryOk(s, id);
    var t := ClosedEntry(s, id, ok);
    forall e | e in s.entries && e != id ensures InTable(t, e) <==> InTable(s, e) {
      ForgetPlaces(s, id, e);
    }
    assert OnlyEntry(s, t, id);
    EntryChange(s, t, id);
    forall d | d in t.calls ensures CallOk(t, d) {
      assert CallOk(s, d);
      CallFrame(s, t, d);
    }
  }

  lemma CloseSettlesLedger(s: State, id: EntryId, ok: bool)
    requires TableTotal(s) && LedgerOk(s) && id in s.entries && InTable(s, id)
    requires s.entries[id].closing == Calling && s.entries[id].opening == Settled(Opened)
    requires TableTotal(ClosedEntry(s, id, ok))
    ensures LedgerOk(Note(ClosedEntry(s, id, ok), CloseSettled(s.entries[id].path, id, ok)))
  {
    var p := s.entries[id].path;
    var t := Note(ClosedEntry(s, id, ok), CloseSettled(p, id, ok));
    forall q | q != p ensures StandingOf(t, q) == StandingOf(s, q) {
      StandingFrame(s, t, q);
    }
    assert t.entries.Keys == s.entries.Keys;
    LedgerMoves(s, t, CloseSettled(p, id, ok));
  }

  lemma CloseSettlesKeeps(s: State, id: EntryId, ok: bool)
    requires Inv(s) && id in s.entries && s.entries[id].closing == Calling
    ensures Inv(Note(ClosedEntry(s, id, ok), CloseSettled(s.entries[id].path, id, ok)))
  {
    assert EntryOk(s, id);
    ClosedTable(s, id, ok);
    CloseSettlesLedger(s, id, ok);
    NoteFrame(ClosedEntry(s, id, ok), Note(ClosedEntry(s, id, ok), CloseSettled(s.entries[id].path, id, ok)));
  }

  // The continuation of an opened, refused or failed open, and the end of work.

  lemma WorkStartsLedger(s: State, c: CallId, id: EntryId)
    requires TableTotal(s) && LedgerOk(s) && c in s.calls && s.calls[c] == AwaitOpen(id) && id in s.entries
    requires InTable(s, id) && s.entries[id].opening == Settled(Opened) && s.entries[id].closing == NotClosing
    ensures LedgerOk(Note(SetPhase(s, c, Working(id)), WorkStarted(s.entries[id].path, id, c)))
  {
    var p := s.entries[id].path;
    var t := Note(SetPhase(s, c, Working(id)), WorkStarted(p, id, c));
    WorkersAfter(s, t, c, id);
    EventLedger(s, t, WorkStarted(p, id, c), c);
  }

  lemma WorkStartsKeeps(s: State, c: CallId, id: EntryId)
    requires Inv(s) && c in s.calls && s.calls[c] == AwaitOpen(id) && id in s.entries
    requires s.entries[id].opening == Settled(Opened)
    ensures Inv(Note(SetPhase(s, c, Working(id)), WorkStarted(s.entries[id].path, id, c)))
  {
    assert CallOk(s, c) && EntryOk(s, id);
    var m := SetPhase(s, c, Working(id));
    PhaseTable(s, c, Working(id));
    MoveCounts(s, m, c);
    NoteFrame(m, Note(m, WorkStarted(s.entries[id].path, id, c)));
    WorkStartsLedger(s, c, id);
  }

  lemma LeaveTable(s: State, c: CallId, id: EntryId, reply: Reply)
    requires TableOk(s) && CountsOk(s) && UsesOf(s, c, id) && id in s.entries
    requires s.entries[id].opening.Settled? && (s.entries[id].opening == Settled(Opened) || !InTable(s, id))
    requires CountsOk(LeaveStore(s, c, id, reply))
    ensures TableOk(LeaveStore(s, c, id, reply))
  {
    Counted(s, c, id);
    assert EntryOk(s, id);
    var t := LeaveStore(s, c, id, reply);
    assert t.calls.Keys == s.calls.Keys;
    assert OnlyEntry(s, t, id);
    EntryChange(s, t, id);
    forall d | d in t.calls && d != c ensures CallOk(t, d) {
      assert CallOk(s, d);
      forall e | UsesOf(s, d, e) && e in s.entries ensures t.entries[e].users > 0 {
        Counted(t, d, e);
      }
      CallFrame(s, t, d);
    }
  }

  lemma LeaveCounts(s: State, c: CallId, id: EntryId, reply: Reply)
    requires CountsOk(s) && UsesOf(s, c, id) && id in s.entries
    ensures CountsOk(LeaveStore(s, c, id, reply))
  {
    MoveCounts(s, LeaveStore(s, c, id, reply), c);
  }

  lemma WorkEndsLedger(s: State, c: CallId, id: EntryId, reply: Reply)
    requires TableTotal(s) && LedgerOk(s) && c in s.calls && s.calls[c] == Working(id) && id in s.entries
    requires InTable(s, id) && s.entries[id].opening == Settled(Opened) && s.entries[id].closing == NotClosing
    ensures LedgerOk(LeaveStore(Note(s, WorkEnded(s.entries[id].path, id, c)), c, id, reply))
  {
    var e := WorkEnded(s.entries[id].path, id, c);
    var t := LeaveStore(Note(s, e), c, id, reply);
    WorkersAfter(s, t, c, id);
    assert t.entries.Keys == s.entries.Keys;
    EventLedger(s, t, e, c);
  }

  lemma WorkEndsKeeps(s: State, c: CallId, id: EntryId, reply: Reply)
    requires Inv(s) && c in s.calls && s.calls[c] == Working(id) && id in s.entries
    ensures Inv(LeaveStore(Note(s, WorkEnded(s.entries[id].path, id, c)), c, id, reply))
  {
    assert CallOk(s, c) && EntryOk(s, id);
    var m := Note(s, WorkEnded(s.entries[id].path, id, c));
    NoteFrame(s, m);
    LeaveCounts(m, c, id, reply);
    LeaveTable(m, c, id, reply);
    WorkEndsLedger(s, c, id, reply);
  }

  lemma DropTable(s: State, id: EntryId)
    requires TableOk(s) && CountsOk(s) && id in s.entries
    requires s.entries[id].opening.Settled? && s.entries[id].opening != Settled(Opened) && s.entries[id].users > 0
    ensures TableOk(DropEntry(s, id)) && CountsOk(DropEntry(s, id))
  {
    assert EntryOk(s, id);
    var t := DropEntry(s, id);
    if InTable(s, id) {
      forall e | e in s.entries && e != id ensures InTable(t, e) <==> InTable(s, e) {
        ForgetPlaces(s, id, e);
      }
      EntryChange(s, t, id);
      forall d | d in t.calls ensures CallOk(t, d) {
        assert CallOk(s, d);
      }
    }
  }

  lemma DropLedger(s: State, t: State, c: CallId, id: EntryId)
    requires TableTotal(s) && LedgerOk(s) && id in s.entries && TableTotal(t)
    requires s.entries[id].opening.Settled? && s.entries[id].opening != Settled(Opened)
    requires t.stores == DropEntry(s, id).stores && t.log == s.log && t.entries.Keys == s.entries.Keys
    requires forall e :: e != id && e in s.entries ==> t.entries[e] == s.entries[e]
    requires c in s.calls && c in t.calls && !s.calls[c].Working? && !t.calls[c].Working? && OnlyMoves(s, t, c)
    ensures LedgerOk(t)
  {
    forall q ensures StandingOf(t, q) == StandingOf(s, q) {
      if q in s.stores {
        WorkersAfter(s, t, c, s.stores[q]);
      }
      if q != s.entries[id].path {
        StandingFrame(s, t, q);
      }
    }
    LedgerStays(s, t);
  }

  lemma OpenFailsLedger(s: State, c: CallId, id: EntryId, reply: Reply)
    requires TableTotal(s) && LedgerOk(s) && c in s.calls && s.calls[c] == AwaitOpen(id) && id in s.entries
    requires s.entries[id].opening.Settled? && s.entries[id].opening != Settled(Opened)
    requires TableTotal(LeaveStore(DropEntry(s, id), c, id, reply))
    ensures LedgerOk(LeaveStore(DropEntry(s, id), c, id, reply))
  {
    var t := LeaveStore(DropEntry(s, id), c, id, reply);
    assert t.entries.Keys == s.entries.Keys;
    DropLedger(s, t, c, id);
  }

  lemma OpenFailsKeeps(s: State, c: CallId, id: EntryId, reply: Reply)
    requires Inv(s) && c in s.calls && s.calls[c] == AwaitOpen(id) && id in s.entries
    requires s.entries[id].opening.Settled? && s.entries[id].opening != Settled(Opened)
    ensures Inv(LeaveStore(DropEntry(s, id), c, id, reply))
  {
    assert CallOk(s, c) && EntryOk(s, id);
    DropTable(s, id);
    LeaveCounts(DropEntry(s, id), c, id, reply);
    LeaveTable(DropEntry(s, id), c, id, reply);
    OpenFailsLedger(s, c, id, reply);
  }

  // Admission, the end of a call, and shutdown.

  lemma AdmitTable(s: State, c: CallId, need: Need)
    requires TableOk(s) && !s.closing && c !in s.calls
    ensures TableOk(SetPhase(s.(active := s.active + 1), c, Admitted(need)))
  {
    var t := SetPhase(s.(active := s.active + 1), c, Admitted(need));
    EntriesFrame(s, t);
    assert t.calls.Keys == s.calls.Keys + {c};
    forall d | d in t.calls && d != c ensures CallOk(t, d) {
      assert CallOk(s, d);
    }
  }

  lemma AdmitKeeps(s: State, c: CallId, need: Need)
    requires Inv(s) && !s.closing && c !in s.calls
    ensures Inv(SetPhase(s.(active := s.active + 1), c, Admitted(need)))
  {
    var t := SetPhase(s.(active := s.active + 1), c, Admitted(need));
    AdmitTable(s, c, need);
    MoveCounts(s, t, c);
    QuietLedger(s, t, c);
  }

  function Ended(s: State, c: CallId): State { s.(calls := s.calls - {c}, active := s.active - 1) }

  lemma EndedTable(s: State, c: CallId)
    requires TableOk(s) && c in s.calls
    ensures TableOk(Ended(s, c))
  {
    var t := Ended(s, c);
    EntriesFrame(s, t);
    assert t.calls.Keys == s.calls.Keys - {c};
    forall d | d in t.calls ensures CallOk(t, d) {
      assert CallOk(s, d);
    }
  }

  lemma EndedKeeps(s: State, c: CallId)
    requires Inv(s) && c in s.calls && s.calls[c].Returned?
    ensures Inv(Ended(s, c))
  {
    EndedTable(s, c);
    MoveCounts(s, Ended(s, c), c);
    QuietLedger(s, Ended(s, c), c);
  }

  lemma FlagsFrame(s: State, t: State)
    requires Inv(s) && SameEntries(s, t) && t.calls == s.calls && t.log == s.log && ShutOk(t)
    ensures Inv(t)
  {
    EntriesFrame(s, t);
    forall d | d in t.calls ensures CallOk(t, d) {
      assert CallOk(s, d);
    }
    forall q ensures StandingOf(t, q) == StandingOf(s, q) {
    }
  }

  lemma ShutdownKeeps(s: State, order: seq<Path>)
    requires Inv(s) && KeysOf(s, order)
    ensures Inv(Shutdown(s, order))
  {
    FlagsFrame(s, Shutdown(s, order));
  }

  /** The final phase never meets a Busy Store: no call is active, so no entry has a user. */
  lemma DrainFindsIdle(s: State, p: Path)
    requires Inv(s) && s.finishing
    ensures CloseStore(s, p).1 != BusyHeld
  {
    if p in s.stores {
      assert Users(s.calls, s.stores[p]) == {};
    }
  }

  lemma DrainNextKeeps(s: State)
    requires Inv(s) && s.drain.NextOf?
    ensures Inv(Apply(s, DrainNext))
  {
    if s.drain.todo == [] {
      FlagsFrame(s, s.(drain := Drained));
    } else {
      var p := s.drain.todo[0];
      CloseStoreKeeps(s, p);
      DrainFindsIdle(s, p);
      FlagsFrame(CloseStore(s, p).0, Apply(s, DrainNext));
    }
  }

  lemma DrainWaitKeeps(s: State)
    requires Inv(s) && Enabled(s, DrainWaitEnds)
    ensures Inv(Apply(s, DrainWaitEnds))
  {
    assert EntryOk(s, s.drain.entry);
    FlagsFrame(s, s.(drain := NextOf(s.drain.todo)));
  }

  lemma BeginKeeps(s: State, c: CallId)
    requires Inv(s) && Enabled(s, Begin(c))
    ensures Inv(Apply(s, Begin(c)))
  {
    match s.calls[c].need
    case NoStore => PhaseKeeps(s, c, Direct);
    case OpenStore(p) => EnterKeeps(s, c, p);
    case ReleaseStore(p) =>
      CloseStoreKeeps(s, p);
      var (t, answer) := CloseStore(s, p);
      match answer
      case NothingHeld => PhaseKeeps(t, c, Returned(Value));
      case BusyHeld => PhaseKeeps(t, c, Returned(RefusedBusy));
      case Waits(id) => PhaseKeeps(t, c, AwaitRelease(id));
  }

  /** Every step keeps the invariant. */
  lemma StepKeeps(s: State, a: Action)
    requires Inv(s) && Enabled(s, a)
    ensures Inv(Apply(s, a))
  {
    match a
    case Admit(c, need) => AdmitKeeps(s, c, need);
    case Begin(c) => BeginKeeps(s, c);
    case DirectEnds(c, thrown) => PhaseKeeps(s, c, Returned(if thrown then ThrownError else Value));
    case ReleaseEnds(c) =>
      PhaseKeeps(s, c, Returned(if s.entries[s.calls[c].entry].closing.ok then Value else ThrownError));
    case OpenSettles(id, result) => OpenSettlesKeeps(s, id, result);
    case CloseStarts(id) => CloseStartsKeeps(s, id);
    case CloseSettles(id, ok) => CloseSettlesKeeps(s, id, ok);
    case OpenContinues(c) =>
      var id := s.calls[c].entry;
      var opening := s.entries[id].opening;
      if opening == Settled(Opened) {
        WorkStartsKeeps(s, c, id);
      } else {
        OpenFailsKeeps(s, c, id, if opening == Settled(Thrown) then ThrownError else RefusedOpen);
      }
    case WorkEnds(c, thrown) => WorkEndsKeeps(s, c, s.calls[c].entry, if thrown then ThrownError else Value);
    case CloseWaitEnds(c) => EnterKeeps(s, c, s.calls[c].path);
    case TimerFires(id) => TimerKeeps(s, id);
    case Finish(c, order) =>
      EndedKeeps(s, c);
      ShutdownKeeps(Ended(s, c), order);
    case ShutdownAsked(order) => ShutdownKeeps(s, order);
    case DrainNext => DrainNextKeeps(s);
    case DrainWaitEnds => DrainWaitKeeps(s);
  }
}

/**
  The serial discipline a Store must be handled with, stated over the log of
  calls made to the native binding: a Store is opened only while it is closed,
  work runs only while it is open, and it is closed once, with no work running.
  The ledger knows nothing of tables, promises or timers; the worker's table
  (module StoreTable) is proved to produce only logs that the ledger accepts.
*/
module StoreLedger {
  import opened Wrappers

  datatype Path = Path(name: string)
  type EntryId = nat
  type CallId = nat

  datatype OpenResult = Opened | Refused | Thrown

  /** One call to the binding, or its answer. An entry is one storeOpen call. */
  datatype Event =
    | OpenCalled(path: Path, entry: EntryId)
    | OpenSettled(path: Path, entry: EntryId, result: OpenResult)
    | WorkStarted(path: Path, entry: EntryId, call: CallId)
    | WorkEnded(path: Path, entry: EntryId, call: CallId)
    | CloseCalled(path: Path, entry: EntryId)
    | CloseSettled(path: Path, entry: EntryId, ok: bool)

  datatype Standing =
    | Closed
    | Opening(entry: EntryId)
    | Open(entry: EntryId, running: set<CallId>)
    | Closing(entry: EntryId)

  /** Standing by path (a path not listed is closed), and every entry ever opened. */
  datatype Ledger = Ledger(standings: map<Path, Standing>, used: set<EntryId>)

  const EMPTY := Ledger(map[], {})

  function Look(l: Ledger, p: Path): Standing {
    if p in l.standings then l.standings[p] else Closed
  }

  function Put(l: Ledger, p: Path, s: Standing): (r: Ledger)
    ensures r.used == l.used
    ensures forall q :: Look(r, q) == if q == p then s else Look(l, q)
  {
    l.(standings := l.standings[p := s])
  }

  /** Whether a path standing at `now` may see the event next. */
  predicate Allowed(now: Standing, e: Event) {
    match e
    case OpenCalled(_, _) => now == Closed
    case OpenSettled(_, id, _) => now == Opening(id)
    case WorkStarted(_, id, c) => now.Open? && now.entry == id && c !in now.running
    case WorkEnded(_, id, c) => now.Open? && now.entry == id && c in now.running
    case CloseCalled(_, id) => now == Open(id, {})
    case CloseSettled(_, id, _) => now == Closing(id)
  }

  /** Where the event leaves the path. */
  function NextStanding(now: Standing, e: Event): Standing
    requires Allowed(now, e)
  {
    match e
    case OpenCalled(_, id) => Opening(id)
    case OpenSettled(_, id, result) => if result == Opened then Open(id, {}) else Closed
    case WorkStarted(_, id, c) => Open(id, now.running + {c})
    case WorkEnded(_, id, c) => Open(id, now.running - {c})
    case CloseCalled(_, id) => Closing(id)
    case CloseSettled(_, _, _) => Closed
  }

  /** The one transition an event allows, or None when the discipline forbids it. */
  function After(l: Ledger, e: Event): Option<Ledger> {
    var now := Look(l, e.path);
    if !Allowed(now, e) || (e.OpenCalled? && e.entry in l.used) then None
    else
      var used := if e.OpenCalled? then l.used + {e.entry} else l.used;
      Some(Put(l.(used := used), e.path, NextStanding(now, e)))
  }

  lemma AfterLooks(l: Ledger, e: Event)
    requires After(l, e).Some?
    ensures forall q :: q != e.path ==> Look(After(l, e).value, q) == Look(l, q)
    ensures Look(After(l, e).value, e.path) == NextStanding(Look(l, e.path), e)
  {
    var used := if e.OpenCalled? then l.used + {e.entry} else l.used;
    assert forall q :: Look(l.(used := used), q) == Look(l, q);
  }

  function Replay(log: seq<Event>): Option<Ledger> {
    if log == [] then Some(EMPTY)
    else
      match Replay(log[..|log| - 1])
      case None => None
      case Some(l) => After(l, log[|log| - 1])
  }

  ghost predicate Accepts(log: seq<Event>) { Replay(log).Some? }

  lemma ReplayAppend(log: seq<Event>, e: Event)
    requires Accepts(log)
    ensures Replay(log + [e]) == After(Replay(log).value, e)
  {
    assert (log + [e])[..|log|] == log;
  }

  lemma {:induction false} PrefixAccepted(log: seq<Event>, n: nat)
    requires Accepts(log) && n <= |log|
    ensures Accepts(log[..n])
    decreases |log|
  {
    if n < |log| {
      assert log[..|log| - 1][..n] == log[..n];
      PrefixAccepted(log[..|log| - 1], n);
    } else {
      assert log[..n] == log;
    }
  }

  // What the ledger means, said of the log alone.

  /** Entry `id` of `p` is over in `log`: it failed to open, or its close settled. */
  ghost predicate Over(log: seq<Event>, from: nat, p: Path, id: EntryId) {
    exists k :: from < k < |log| &&
      (log[k] == OpenSettled(p, id, Refused) || log[k] == OpenSettled(p, id, Thrown) ||
       log[k] == CloseSettled(p, id, true) || log[k] == CloseSettled(p, id, false))
  }

  /** After its OpenCalled, an entry is either the path's standing entry or over. */
  lemma {:induction false} StandingOrOver(log: seq<Event>, i: nat)
    requires Accepts(log) && i < |log| && log[i].OpenCalled?
    ensures log[i].entry in Replay(log).value.used
    ensures var now := Look(Replay(log).value, log[i].path);
      Over(log, i, log[i].path, log[i].entry) || (!now.Closed? && now.entry == log[i].entry)
  {
    var front := log[..|log| - 1];
    var e := log[|log| - 1];
    var p, id := log[i].path, log[i].entry;
    if i < |front| {
      StandingOrOver(front, i);
      var l := Replay(front).value;
      if Over(front, i, p, id) {
        var k :| i < k < |front| &&
          (front[k] == OpenSettled(p, id, Refused) || front[k] == OpenSettled(p, id, Thrown) ||
           front[k] == CloseSettled(p, id, true) || front[k] == CloseSettled(p, id, false));
        assert log[k] == front[k];
      } else if e.path == p && Look(Replay(log).value, p) == Closed {
        assert i < |log| - 1 && log[|log| - 1] == e;
      }
    }
  }

  /** Two opens of one path never overlap: the first is over before the second starts. */
  lemma OpensNeverOverlap(log: seq<Event>, i: nat, j: nat)
    requires Accepts(log) && i < j < |log|
    requires log[i].OpenCalled? && log[j].OpenCalled? && log[i].path == log[j].path
    ensures log[i].entry != log[j].entry
    ensures Over(log[..j], i, log[i].path, log[i].entry)
  {
    PrefixAccepted(log, j + 1);
    assert log[..j + 1][..j] == log[..j];
    StandingOrOver(log[..j], i);
  }

  /** An entry whose close was called never stands open again. */
  lemma {:induction false} ClosedForGood(log: seq<Event>, i: nat)
    requires Accepts(log) && i < |log| && log[i].CloseCalled?
    ensures log[i].entry in Replay(log).value.used
    ensures forall p :: var now := Look(Replay(log).value, p);
      (now.Opening? || now.Open?) ==> now.entry != log[i].entry
  {
    UsedStands(log);
    var front := log[..|log| - 1];
    UsedStands(front);
    OneStanding(front);
    OneEventStep(log);
    if i < |front| {
      ClosedForGood(front, i);
    }
  }

  /** Every standing entry was opened before. */
  lemma {:induction false} UsedStands(log: seq<Event>)
    requires Accepts(log)
    ensures forall p :: var now := Look(Replay(log).value, p); !now.Closed? ==> now.entry in Replay(log).value.used
  {
    if log != [] {
      UsedStands(log[..|log| - 1]);
      OneEventStep(log);
    }
  }

  /** One event changes the standing of its own path only, and uses an entry only by opening it. */
  lemma OneEventStep(log: seq<Event>)
    requires Accepts(log) && log != []
    ensures var e, l, m := log[|log| - 1], Replay(log[..|log| - 1]).value, Replay(log).value;
      && (forall q :: q != e.path ==> Look(m, q) == Look(l, q))
      && m.used == l.used + (if e.OpenCalled? then {e.entry} else {})
      && (!Look(m, e.path).Closed? ==> Look(m, e.path).entry == e.entry)
      && (if e.OpenCalled? then e.entry !in l.used else Look(l, e.path).entry == e.entry)
  {
    AfterLooks(Replay(log[..|log| - 1]).value, log[|log| - 1]);
  }

  /** An entry stands at no more than one path. */
  lemma {:induction false} OneStanding(log: seq<Event>)
    requires Accepts(log)
    ensures forall p, q :: p != q ==>
      var a, b := Look(Replay(log).value, p), Look(Replay(log).value, q);
      a.Closed? || b.Closed? || a.entry != b.entry
  {
    if log != [] {
      OneStanding(log[..|log| - 1]);
      UsedStands(log[..|log| - 1]);
      OneEventStep(log);
    }
  }

  /** storeClose is called at most once for one storeOpen. */
  lemma ClosedAtMostOnce(log: seq<Event>, i: nat, j: nat)
    requires Accepts(log) && i < j < |log|
    requires log[i].CloseCalled? && log[j].CloseCalled?
    ensures log[i].entry != log[j].entry
  {
    PrefixAccepted(log, j + 1);
    assert log[..j + 1][..j] == log[..j];
    assert log[..j + 1][j] == log[j];
    ClosedForGood(log[..j], i);
  }

  /** Work never starts on an entry whose close was called before, nor on one that never opened. */
  lemma WorkOnlyWhileOpen(log: seq<Event>, j: nat)
    requires Accepts(log) && j < |log| && log[j].WorkStarted?
    ensures exists i :: 0 <= i < j && log[i] == OpenSettled(log[j].path, log[j].entry, Opened)
    ensures forall i :: 0 <= i < j ==> !(log[i].CloseCalled? && log[i].entry == log[j].entry)
  {
    PrefixAccepted(log, j + 1);
    var front := log[..j];
    assert log[..j + 1][..j] == front;
    assert log[..j + 1][j] == log[j];
    OpenHasOpened(front, log[j].path);
    forall i | 0 <= i < j && front[i].CloseCalled?
      ensures front[i].entry != log[j].entry
    {
      ClosedForGood(front, i);
    }
    assert forall i :: 0 <= i < j ==> log[i] == front[i];
  }

  lemma {:induction false} OpenHasOpened(log: seq<Event>, p: Path)
    requires Accepts(log) && Look(Replay(log).value, p).Open?
    ensures exists i :: 0 <= i < |log| && log[i] == OpenSettled(p, Look(Replay(log).value, p).entry, Opened)
  {
    var front := log[..|log| - 1];
    var e := log[|log| - 1];
    if Look(Replay(front).value, p).Open? {
      OpenHasOpened(front, p);
      var i :| 0 <= i < |front| && front[i] == OpenSettled(p, Look(Replay(front).value, p).entry, Opened);
      assert log[i] == front[i];
    } else {
      assert log[|log| - 1] == e;
    }
  }
}

/** How much is left for a closing worker to do: calls, entries and the final phase, each weighed. */
module StoreMeasure {
  import opened StoreLedger
  import opened StoreTable
  import opened StoreSafety

  // Sums over a set of keys

  ghost function Sum<K(!new)>(keys: set<K>, f: K -> nat): nat
    decreases |keys|
  {
    if keys == {} then 0
    else
      var k :| k in keys;
      f(k) + Sum(keys - {k}, f)
  }

  lemma {:induction false} SumSplits<K(!new)>(keys: set<K>, f: K -> nat, x: K)
    requires x in keys
    ensures Sum(keys, f) == f(x) + Sum(keys - {x}, f)
    decreases |keys|
  {
    var k :| k in keys && Sum(keys, f) == f(k) + Sum(keys - {k}, f);
    if k != x {
      SumSplits(keys - {k}, f, x);
      SumSplits(keys - {x}, f, k);
      assert keys - {k} - {x} == keys - {x} - {k};
    }
  }

  lemma {:induction false} SumBelow<K(!new)>(keys: set<K>, f: K -> nat, g: K -> nat)
    requires forall k :: k in keys ==> f(k) <= g(k)
    ensures Sum(keys, f) <= Sum(keys, g)
    decreases |keys|
  {
    if keys != {} {
      var k :| k in keys && Sum(keys, f) == f(k) + Sum(keys - {k}, f);
      SumBelow(keys - {k}, f, g);
      SumSplits(keys, g, k);
    }
  }

  // Entries

  /** Answers and closes an entry can still get. */
  function EntryWeight(h: Held): nat {
    (if h.opening == Pending then 1 else 0)
    + match h.closing case NotClosing => 3 case Queued => 2 case Calling => 1 case Finished(_) => 0
  }

  ghost function EntryIn(entries: map<EntryId, Held>): EntryId -> nat {
    id => if id in entries then EntryWeight(entries[id]) else 0
  }

  ghost function EntriesLeft(entries: map<EntryId, Held>): nat { Sum(entries.Keys, EntryIn(entries)) }

  lemma EntryChanges(entries: map<EntryId, Held>, id: EntryId, h: Held)
    requires id in entries
    ensures EntriesLeft(entries[id := h]) + EntryWeight(entries[id]) == EntriesLeft(entries) + EntryWeight(h)
  {
    var after := entries[id := h];
    assert after.Keys == entries.Keys;
    SumSplits(entries.Keys, EntryIn(entries), id);
    SumSplits(entries.Keys, EntryIn(after), id);
    SumBelow(entries.Keys - {id}, EntryIn(entries), EntryIn(after));
    SumBelow(entries.Keys - {id}, EntryIn(after), EntryIn(entries));
  }

  lemma EntryAppears(entries: map<EntryId, Held>, id: EntryId, h: Held)
    requires id !in entries
    ensures EntriesLeft(entries[id := h]) == EntriesLeft(entries) + EntryWeight(h)
  {
    var after := entries[id := h];
    SumSplits(after.Keys, EntryIn(after), id);
    assert after.Keys - {id} == entries.Keys;
    SumBelow(entries.Keys, EntryIn(entries), EntryIn(after));
    SumBelow(entries.Keys, EntryIn(after), EntryIn(entries));
  }

  // Calls

  /** A call that may still open a Store. */
  predicate MayOpen(ph: Phase) { ph.Admitted? || ph.AwaitClose? }

  function Openers(calls: map<CallId, Phase>): set<CallId> { set c | c in calls && MayOpen(calls[c]) }

  /**
    The steps of a call before it has returned. `k` bounds the numbers of all
    entries there will ever be; a call waits only for ever newer ones.
  */
  function PhaseWeight(ph: Phase, k: nat): nat {
    match ph
    case Admitted(_) => 12 + k
    case AwaitClose(_, id) => 11 + if id < k then k - id else 0
    case AwaitOpen(_) => 5
    case Working(_) => 4
    case Direct => 4
    case AwaitRelease(_) => 4
    case Returned(_) => 1
  }

  ghost function CallIn(calls: map<CallId, Phase>, k: nat): CallId -> nat {
    c => if c in calls then PhaseWeight(calls[c], k) else 0
  }

  ghost function CallsLeft(calls: map<CallId, Phase>, k: nat): nat { Sum(calls.Keys, CallIn(calls, k)) }

  /** One call moves on, and the bound does not rise. */
  lemma CallMoves(calls: map<CallId, Phase>, k: nat, c: CallId, ph: Phase, j: nat)
    requires c in calls && j <= k
    ensures CallsLeft(calls[c := ph], j) + PhaseWeight(calls[c], k) <= CallsLeft(calls, k) + PhaseWeight(ph, j)
  {
    var after := calls[c := ph];
    assert after.Keys == calls.Keys;
    SumSplits(calls.Keys, CallIn(calls, k), c);
    SumSplits(calls.Keys, CallIn(after, j), c);
    SumBelow(calls.Keys - {c}, CallIn(after, j), CallIn(calls, k));
  }

  lemma CallGoes(calls: map<CallId, Phase>, k: nat, c: CallId)
    requires c in calls
    ensures CallsLeft(calls - {c}, k) + PhaseWeight(calls[c], k) == CallsLeft(calls, k)
  {
    var after := calls - {c};
    SumSplits(calls.Keys, CallIn(calls, k), c);
    assert after.Keys == calls.Keys - {c};
    SumBelow(after.Keys, CallIn(after, k), CallIn(calls, k));
    SumBelow(after.Keys, CallIn(calls, k), CallIn(after, k));
  }

  lemma OpenersAfter(calls: map<CallId, Phase>, c: CallId, ph: Phase)
    requires c in calls
    ensures |Openers(calls[c := ph])| ==
      |Openers(calls)| + (if MayOpen(ph) then 1 else 0) - (if MayOpen(calls[c]) then 1 else 0)
  {
    var before, after := Openers(calls), Openers(calls[c := ph]);
    Without(before, c);
    Without(after, c);
    forall d ensures d in before - {c} <==> d in after - {c} {
    }
    assert before - {c} == after - {c};
  }

  lemma OpenersWithout(calls: map<CallId, Phase>, c: CallId)
    requires c in calls && !MayOpen(calls[c])
    ensures Openers(calls - {c}) == Openers(calls)
  {
  }

  // All of it

  /** No entry will ever have this number or a higher one. */
  function Bound(s: State): nat { s.nextEntry + |Openers(s.calls)| }

  function PhaseLeft(s: State): nat {
    match s.drain
    case NotStarted => 2 * (|s.stores| + |Openers(s.calls)|) + 2
    case NextOf(todo) => 2 * |todo| + 1
    case Awaiting(_, todo) => 2 * |todo| + 2
    case Drained => 0
  }

  ghost function Left(s: State): nat { CallsLeft(s.calls, Bound(s)) + EntriesLeft(s.entries) + PhaseLeft(s) }
}

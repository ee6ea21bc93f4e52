/**
  Lists in a record: a u16 count, then the items. `keep` says how many leading
  items the encoder writes, decided from the record's length before the count.
  Also a trailing flag that says whether something was left out.
*/
module ListCodec {
  import opened Wrappers
  import opened Bytes
  import opened Wire
  import opened Codec

  function PutEach<T>(item: Codec<T>, at: nat, xs: seq<T>): Option<seq<byte>>
    decreases |xs|
  {
    if xs == [] then Some([])
    else
      match item.put(at, xs[0])
      case None => None
      case Some(a) =>
        match PutEach(item, at + |a|, xs[1..])
        case None => None
        case Some(b) => Some(a + b)
  }

  function NormEach<T>(item: Codec<T>, at: nat, xs: seq<T>): (r: seq<T>)
    ensures |r| == |xs|
    decreases |xs|
  {
    if xs == [] then []
    else
      match item.put(at, xs[0])
      case None => xs
      case Some(a) => [item.norm(at, xs[0])] + NormEach(item, at + |a|, xs[1..])
  }

  function GetEach<T>(item: Codec<T>, b: seq<byte>, count: nat): Option<(seq<T>, seq<byte>)>
    decreases count
  {
    if count == 0 then Some(([], b))
    else
      match item.get(b)
      case None => None
      case Some((x, rest)) =>
        match GetEach(item, rest, count - 1)
        case None => None
        case Some((xs, after)) => Some(([x] + xs, after))
  }

  /** Items take at least one byte each, so a count that was written with its items fits a u16. */
  ghost predicate TakesSpace<T(!new)>(item: Codec<T>) {
    forall at: nat, x :: item.put(at, x).Some? ==> |item.put(at, x).value| >= 1
  }

  lemma PairTakesSpace<A(!new), B(!new)>(a: Codec<A>, b: Codec<B>)
    requires TakesSpace(a)
    ensures TakesSpace(Pair(a, b))
  {
    forall at: nat, v | Pair(a, b).put(at, v).Some? ensures |Pair(a, b).put(at, v).value| >= 1 {
      PairIs(a, b, at, v);
    }
  }

  lemma PairTakesSpaceLater<A(!new), B(!new)>(a: Codec<A>, b: Codec<B>)
    requires TakesSpace(b)
    ensures TakesSpace(Pair(a, b))
  {
    forall at: nat, v | Pair(a, b).put(at, v).Some? ensures |Pair(a, b).put(at, v).value| >= 1 {
      PairIs(a, b, at, v);
    }
  }

  lemma ChoiceTakesSpace<T(!new)>(tag: T -> int, form: int -> Codec<T>)
    ensures TakesSpace(Choice(tag, form))
  {
  }

  lemma ViaTakesSpace<A(!new), T(!new)>(c: Codec<A>, down: T -> A, up: A -> T)
    requires TakesSpace(c)
    ensures TakesSpace(Via(c, down, up))
  {
  }

  lemma {:induction false} EachIsCounted<T(!new)>(item: Codec<T>, at: nat, xs: seq<T>)
    requires TakesSpace(item) && PutEach(item, at, xs).Some?
    ensures |xs| <= |PutEach(item, at, xs).value|
    decreases |xs|
  {
    if xs != [] {
      EachIsCounted(item, at + |item.put(at, xs[0]).value|, xs[1..]);
    }
  }

  lemma {:induction false} EachWritesBack<T(!new)>(item: Codec<T>, at: nat, xs: seq<T>)
    requires Lawful(item) && at <= LIMIT && (forall k :: 0 <= k < |xs| ==> item.ok(xs[k]))
      && PutEach(item, at, xs).Some?
    ensures var b, ys := PutEach(item, at, xs).value, NormEach(item, at, xs);
      && at + |b| <= LIMIT && (forall k :: 0 <= k < |ys| ==> item.ok(ys[k]))
      && PutEach(item, at, ys) == Some(b) && NormEach(item, at, ys) == ys
    decreases |xs|
  {
    if xs != [] {
      var a := item.put(at, xs[0]).value;
      assert WritesBack(item, at, xs[0]);
      EachWritesBack(item, at + |a|, xs[1..]);
      var ys := NormEach(item, at, xs);
      assert ys[1..] == NormEach(item, at + |a|, xs[1..]);
    }
  }

  lemma {:induction false} EachReadsBack<T(!new)>(item: Codec<T>, at: nat, xs: seq<T>, rest: seq<byte>)
    requires Lawful(item) && at <= LIMIT && (forall k :: 0 <= k < |xs| ==> item.ok(xs[k]))
      && PutEach(item, at, xs).Some?
    ensures GetEach(item, PutEach(item, at, xs).value + rest, |xs|) == Some((NormEach(item, at, xs), rest))
    decreases |xs|
  {
    hide Lawful;
    if xs == [] {
      assert [] + rest == rest;
    } else {
      var a := item.put(at, xs[0]).value;
      var b := PutEach(item, at + |a|, xs[1..]).value;
      Law(item, at, xs[0]);
      EachReadsBack(item, at + |a|, xs[1..], rest);
      assert a + b + rest == a + (b + rest);
    }
  }

  lemma {:induction false} EachReads<T(!new)>(item: Codec<T>, b: seq<byte>, count: nat)
    requires Lawful(item) && GetEach(item, b, count).Some?
    ensures var (xs, rest) := GetEach(item, b, count).value;
      && |xs| == count && (forall k :: 0 <= k < |xs| ==> item.ok(xs[k]))
      && |rest| <= |b| && rest == b[|b| - |rest|..]
    decreases count
  {
    if count > 0 {
      assert ReadsPrefix(item, b);
      var (x, mid) := item.get(b).value;
      EachReads(item, mid, count - 1);
    }
  }

  lemma {:induction false} EachReadsOn<T(!new)>(item: Codec<T>, b: seq<byte>, count: nat, more: seq<byte>)
    requires Lawful(item) && GetEach(item, b, count).Some?
    ensures var (xs, rest) := GetEach(item, b, count).value;
      GetEach(item, b + more, count) == Some((xs, rest + more))
    decreases count
  {
    if count > 0 {
      assert ReadsPrefix(item, b);
      EachReadsOn(item, item.get(b).value.1, count - 1, more);
    }
  }

  /** What an item becomes, every item of a list becomes. */
  lemma {:induction false} EachBecomes<T(!new)>(item: Codec<T>, at: nat, xs: seq<T>, became: (T, T) -> bool)
    requires PutEach(item, at, xs).Some?
    requires forall a: nat, x :: item.put(a, x).Some? ==> became(x, item.norm(a, x))
    ensures forall k :: 0 <= k < |xs| ==> became(xs[k], NormEach(item, at, xs)[k])
    decreases |xs|
  {
    if xs != [] {
      var a := item.put(at, xs[0]).value;
      EachBecomes(item, at + |a|, xs[1..], became);
      forall k | 0 <= k < |xs| ensures became(xs[k], NormEach(item, at, xs)[k]) {
        if k > 0 {
          assert xs[k] == xs[1..][k - 1] && NormEach(item, at, xs)[k] == NormEach(item, at + |a|, xs[1..])[k - 1];
        }
      }
    }
  }

  // The list

  predicate AllOk<T(!new)>(item: Codec<T>, xs: seq<T>) { forall k :: 0 <= k < |xs| ==> item.ok(xs[k]) }

  /** The count is cast to u16. */
  function Listed<T(!new)>(item: Codec<T>, keep: (nat, seq<T>) -> nat): Codec<seq<T>> {
    Codec(
      (xs: seq<T>) => AllOk(item, xs),
      (at: nat, xs: seq<T>) => NormEach(item, at + 2, First(xs, keep(at, xs))),
      (at: nat, xs: seq<T>) =>
        if at + 2 > LIMIT then None
        else
          match PutEach(item, at + 2, First(xs, keep(at, xs)))
          case None => None
          case Some(b) => Some(BigEndian(keep(at, xs), 2) + b),
      b => if |b| < 2 then None else GetEach(item, b[2..], FromBigEndian(b[..2])))
  }

  function First<T>(xs: seq<T>, n: nat): seq<T> { if n <= |xs| then xs[..n] else xs }

  /** What arrives is kept whole when it is sent again. */
  ghost predicate KeepsStable<T(!new)>(item: Codec<T>, keep: (nat, seq<T>) -> nat, at: nat, xs: seq<T>) {
    var k := keep(at, xs);
    k <= |xs| && (PutEach(item, at + 2, First(xs, k)).Some? ==> keep(at, NormEach(item, at + 2, First(xs, k))) == k)
  }

  lemma CountReads(n: nat, rest: seq<byte>)
    requires n <= LIMIT
    ensures var b := BigEndian(n, 2) + rest; FromBigEndian(b[..2]) == n && b[2..] == rest
  {
    hide BigEndian, FromBigEndian;
    Widths();
    BigEndianReads(n, 2);
    Cut(BigEndian(n, 2), rest);
  }

  lemma ListedWrites<T(!new)>(item: Codec<T>, keep: (nat, seq<T>) -> nat, at: nat, xs: seq<T>)
    requires Lawful(item) && TakesSpace(item) && KeepsStable(item, keep, at, xs)
    ensures WritesBack(Listed(item, keep), at, xs)
    ensures Listed(item, keep).ok(xs) && Listed(item, keep).put(at, xs).Some? ==> keep(at, xs) < 0x1_0000
  {
    hide Lawful, TakesSpace, BigEndian, FromBigEndian, PutEach, NormEach, GetEach;
    var c := Listed(item, keep);
    if c.ok(xs) && c.put(at, xs).Some? {
      var k := keep(at, xs);
      var kept := First(xs, k);
      var b, ys := PutEach(item, at + 2, kept).value, NormEach(item, at + 2, kept);
      EachWritesBack(item, at + 2, kept);
      EachIsCounted(item, at + 2, kept);
      assert First(ys, k) == ys;
      forall rest: seq<byte> ensures c.get(BigEndian(k, 2) + b + rest) == Some((ys, rest)) {
        assert BigEndian(k, 2) + b + rest == BigEndian(k, 2) + (b + rest);
        CountReads(k, b + rest);
        EachReadsBack(item, at + 2, kept, rest);
      }
    }
  }

  lemma ListedReads<T(!new)>(item: Codec<T>, keep: (nat, seq<T>) -> nat, b: seq<byte>)
    requires Lawful(item)
    ensures ReadsPrefix(Listed(item, keep), b)
  {
    hide Lawful, BigEndian, FromBigEndian, GetEach;
    var c := Listed(item, keep);
    if c.get(b).Some? {
      var n := FromBigEndian(b[..2]);
      EachReads(item, b[2..], n);
      var (xs, rest) := c.get(b).value;
      forall more ensures c.get(b + more) == Some((xs, rest + more)) {
        assert (b + more)[..2] == b[..2] && (b + more)[2..] == b[2..] + more;
        EachReadsOn(item, b[2..], n, more);
      }
    }
  }

  lemma ListedBecomes<T(!new)>(item: Codec<T>, keep: (nat, seq<T>) -> nat, at: nat, xs: seq<T>, became: (T, T) -> bool)
    requires Listed(item, keep).put(at, xs).Some? && keep(at, xs) <= |xs|
    requires forall a: nat, x :: item.put(a, x).Some? ==> became(x, item.norm(a, x))
    ensures var ys := Listed(item, keep).norm(at, xs);
      |ys| == keep(at, xs) && forall k :: 0 <= k < |ys| ==> became(xs[k], ys[k])
  {
    var kept := First(xs, keep(at, xs));
    EachBecomes(item, at + 2, kept, became);
    var ys := Listed(item, keep).norm(at, xs);
    forall k | 0 <= k < |ys| ensures became(xs[k], ys[k]) {
      assert kept[k] == xs[k];
    }
  }

  lemma ListedIs<T(!new)>(item: Codec<T>, keep: (nat, seq<T>) -> nat, at: nat, xs: seq<T>)
    requires Listed(item, keep).put(at, xs).Some?
    ensures PutEach(item, at + 2, First(xs, keep(at, xs))).Some?
    ensures |Listed(item, keep).put(at, xs).value| == 2 + |PutEach(item, at + 2, First(xs, keep(at, xs))).value|
  {
    hide BigEndian;
    assert |BigEndian(keep(at, xs), 2)| == 2;
  }

  lemma EmptyList<T(!new)>(item: Codec<T>, keep: (nat, seq<T>) -> nat, at: nat)
    requires at + 2 <= LIMIT && keep(at, []) == 0
    ensures Listed(item, keep).put(at, []) == Some(BigEndian(0, 2))
  {
    hide BigEndian;
    assert First<T>([], 0) == [];
    assert BigEndian(0, 2) + [] == BigEndian(0, 2);
  }

  lemma ListedTakesSpace<T(!new)>(item: Codec<T>, keep: (nat, seq<T>) -> nat)
    ensures TakesSpace(Listed(item, keep))
  {
    hide BigEndian;
    var c := Listed(item, keep);
    forall at: nat, xs | c.put(at, xs).Some? ensures |c.put(at, xs).value| >= 1 {
      assert |BigEndian(keep(at, xs), 2)| == 2;
    }
  }

  lemma ListedLaw<T(!new)>(item: Codec<T>, keep: (nat, seq<T>) -> nat)
    requires Lawful(item) && TakesSpace(item) && forall at: nat, xs :: KeepsStable(item, keep, at, xs)
    ensures Lawful(Listed(item, keep))
  {
    forall at: nat, xs ensures WritesBack(Listed(item, keep), at, xs) {
      ListedWrites(item, keep, at, xs);
    }
    forall b ensures ReadsPrefix(Listed(item, keep), b) {
      ListedReads(item, keep, b);
    }
  }

  /** Every item is written. */
  function KeepAll<T>(at: nat, xs: seq<T>): nat { |xs| }

  lemma WholeListLaw<T(!new)>(item: Codec<T>)
    requires Lawful(item) && TakesSpace(item)
    ensures Lawful(Listed(item, KeepAll))
  {
    forall at: nat, xs: seq<T> ensures KeepsStable(item, KeepAll, at, xs) {
      assert First(xs, |xs|) == xs;
    }
    ListedLaw(item, KeepAll);
  }

  /** A whole list of items that become something else. */
  predicate EachR<T>(r: (T, T) -> bool, xs: seq<T>, ys: seq<T>) {
    |ys| == |xs| && forall k :: 0 <= k < |ys| ==> r(xs[k], ys[k])
  }

  lemma WholeListBecomes<T(!new)>(item: Codec<T>, r: (T, T) -> bool)
    requires Becomes(item, r)
    ensures Becomes(Listed(item, KeepAll), (xs, ys) => EachR(r, xs, ys))
  {
    forall at: nat, xs | Listed(item, KeepAll).put(at, xs).Some?
      ensures EachR(r, xs, Listed(item, KeepAll).norm(at, xs)) {
      ListedBecomes(item, KeepAll, at, xs, r);
    }
  }

  // Keeping what fits

  /** Left unused by a windowed list, so that what ends the record still fits. */
  const RESERVE := 1024

  /** What `fits` leaves for items at length `at`; negative when nothing fits. */
  function Room(at: nat): int { LIMIT - RESERVE - at }

  function Total<T>(xs: seq<T>, cost: T -> nat): nat {
    if xs == [] then 0 else cost(xs[0]) + Total(xs[1..], cost)
  }

  lemma {:induction false} SameTotal<T>(xs: seq<T>, f: T -> nat, g: T -> nat)
    requires forall x :: f(x) == g(x)
    ensures Total(xs, f) == Total(xs, g)
    decreases |xs|
  {
    if xs != [] {
      SameTotal(xs[1..], f, g);
    }
  }

  function Fitting<T>(room: int, xs: seq<T>, cost: T -> nat): (n: nat)
    ensures n <= |xs|
    decreases |xs|
  {
    if xs == [] || cost(xs[0]) > room then 0 else 1 + Fitting(room - cost(xs[0]), xs[1..], cost)
  }

  /** The running total fits for exactly the prefixes up to the chosen one. */
  lemma {:induction false} FittingIsLongest<T>(room: int, xs: seq<T>, cost: T -> nat, n: nat)
    requires 0 < n <= |xs|
    ensures Total(xs[..n], cost) <= room <==> n <= Fitting(room, xs, cost)
    decreases n
  {
    assert xs[..n][0] == xs[0] && xs[..n][1..] == xs[1..][..n - 1];
    if n > 1 {
      FittingIsLongest(room - cost(xs[0]), xs[1..], cost, n - 1);
    }
  }

  /** Cheaper items in the place of the chosen ones are all chosen. */
  lemma {:induction false} CheaperFits<T>(room: int, more: int, xs: seq<T>, ys: seq<T>, cost: T -> nat)
    requires room <= more
    requires |ys| == Fitting(room, xs, cost) && forall k :: 0 <= k < |ys| ==> cost(ys[k]) <= cost(xs[k])
    ensures Fitting(more, ys, cost) == |ys|
    decreases |xs|
  {
    if ys != [] {
      assert cost(ys[0]) <= cost(xs[0]);
      forall k | 0 <= k < |ys| - 1 ensures cost(ys[1..][k]) <= cost(xs[1..][k]) {
        assert ys[1..][k] == ys[k + 1] && xs[1..][k] == xs[k + 1];
      }
      CheaperFits(room - cost(xs[0]), more - cost(ys[0]), xs[1..], ys[1..], cost);
    }
  }

  /** As many leading items as fit by cost. */
  function Window<T(!new)>(item: Codec<T>, cost: T -> nat): Codec<seq<T>> {
    Listed(item, KeepFitting(cost))
  }

  function KeepFitting<T>(cost: T -> nat): (nat, seq<T>) -> nat { (at: nat, xs: seq<T>) => Fitting(Room(at), xs, cost) }

  lemma WindowLaw<T(!new)>(item: Codec<T>, cost: T -> nat)
    requires Lawful(item) && TakesSpace(item)
    requires forall at: nat, x :: item.put(at, x).Some? ==> cost(item.norm(at, x)) <= cost(x)
    ensures Lawful(Window(item, cost))
  {
    var keep := KeepFitting(cost);
    forall at: nat, xs ensures KeepsStable(item, keep, at, xs) {
      var k := keep(at, xs);
      if PutEach(item, at + 2, First(xs, k)).Some? {
        EachBecomes(item, at + 2, First(xs, k), (x, y) => cost(y) <= cost(x));
        CheaperFits(Room(at), Room(at), xs, NormEach(item, at + 2, First(xs, k)), cost);
      }
    }
    ListedLaw(item, keep);
  }

  /** The value can be written in at most `n` bytes wherever `n` bytes are free. */
  ghost predicate Costed<T(!new)>(c: Codec<T>, v: T, n: nat) {
    forall at: nat :: at + n <= LIMIT ==> c.put(at, v).Some? && |c.put(at, v).value| <= n
  }

  lemma PairCosted<A(!new), B(!new)>(a: Codec<A>, b: Codec<B>, v: (A, B), m: nat, n: nat)
    requires Costed(a, v.0, m) && Costed(b, v.1, n)
    ensures Costed(Pair(a, b), v, m + n)
  {
    forall at: nat | at + m + n <= LIMIT ensures Pair(a, b).put(at, v).Some? && |Pair(a, b).put(at, v).value| <= m + n {
      var x := a.put(at, v.0).value;
      assert b.put(at + |x|, v.1).Some?;
    }
  }

  lemma ViaCosted<A(!new), T(!new)>(c: Codec<A>, down: T -> A, up: A -> T, v: T, n: nat)
    requires Costed(c, down(v), n)
    ensures Costed(Via(c, down, up), v, n)
  {
    forall at: nat | at + n <= LIMIT
      ensures Via(c, down, up).put(at, v).Some? && |Via(c, down, up).put(at, v).value| <= n {
      assert c.put(at, down(v)).Some?;
    }
  }

  lemma {:induction false} EachFits<T(!new)>(item: Codec<T>, cost: T -> nat, at: nat, xs: seq<T>)
    requires (forall k :: 0 <= k < |xs| ==> Costed(item, xs[k], cost(xs[k]))) && at + Total(xs, cost) <= LIMIT
    ensures PutEach(item, at, xs).Some? && |PutEach(item, at, xs).value| <= Total(xs, cost)
    decreases |xs|
  {
    if xs != [] {
      assert Costed(item, xs[0], cost(xs[0]));
      EachFits(item, cost, at + |item.put(at, xs[0]).value|, xs[1..]);
    }
  }

  /** A window always encodes, and leaves the reserve but for its count. */
  lemma WindowFits<T(!new)>(item: Codec<T>, cost: T -> nat, at: nat, xs: seq<T>)
    requires forall k :: 0 <= k < |xs| ==> Costed(item, xs[k], cost(xs[k]))
    requires at + 2 <= LIMIT
    ensures Window(item, cost).put(at, xs).Some?
    ensures var b := Window(item, cost).put(at, xs).value;
      at + |b| <= (if Room(at) < 0 then at else LIMIT - RESERVE) + 2
  {
    var n := Fitting(Room(at), xs, cost);
    assert Total(xs[..n], cost) <= (if Room(at) < 0 then 0 else Room(at)) by {
      if n > 0 {
        FittingIsLongest(Room(at), xs, cost, n);
      }
    }
    EachFits(item, cost, at + 2, xs[..n]);
    assert KeepFitting(cost)(at, xs) == n && First(xs, n) == xs[..n];
  }

  // A flag after the value

  /** The flag the encoder writes is the caller's, or that something of the value did not go. */
  function Flagged<T>(c: Codec<T>, lost: (nat, T) -> bool): Codec<(T, bool)> {
    Codec(
      (v: (T, bool)) => c.ok(v.0),
      (at: nat, v: (T, bool)) => (c.norm(at, v.0), v.1 || lost(at, v.0)),
      (at: nat, v: (T, bool)) =>
        match c.put(at, v.0)
        case None => None
        case Some(b) => if at + |b| + 1 > LIMIT then None else Some(b + [if v.1 || lost(at, v.0) then 1 else 0]),
      s =>
        match c.get(s)
        case None => None
        case Some((x, rest)) =>
          if rest == [] || rest[0] > 1 then None else Some(((x, rest[0] == 1), rest[1..])))
  }

  lemma FlaggedLaw<T(!new)>(c: Codec<T>, lost: (nat, T) -> bool)
    requires Lawful(c)
    requires forall at: nat, v :: at <= LIMIT && c.ok(v) && c.put(at, v).Some? ==> !lost(at, c.norm(at, v))
    ensures Lawful(Flagged(c, lost))
  {
    var f := Flagged(c, lost);
    forall at: nat, v ensures WritesBack(f, at, v) {
      if at <= LIMIT && f.ok(v) && f.put(at, v).Some? {
        FlaggedWrites(c, lost, at, v);
      }
    }
    forall s ensures ReadsPrefix(f, s) {
      assert ReadsPrefix(c, s);
      if f.get(s).Some? {
        var (x, mid) := c.get(s).value;
        forall more ensures f.get(s + more) == Some((f.get(s).value.0, f.get(s).value.1 + more)) {
          assert c.get(s + more) == Some((x, mid + more));
          assert (mid + more)[1..] == mid[1..] + more;
        }
      }
    }
  }

  lemma FlaggedWrites<T(!new)>(c: Codec<T>, lost: (nat, T) -> bool, at: nat, v: (T, bool))
    requires Lawful(c) && at <= LIMIT && Flagged(c, lost).ok(v) && Flagged(c, lost).put(at, v).Some?
    requires !lost(at, c.norm(at, v.0))
    ensures WritesBack(Flagged(c, lost), at, v)
  {
    var f := Flagged(c, lost);
    assert WritesBack(c, at, v.0);
    var b := c.put(at, v.0).value;
    var flag: seq<byte> := [if v.1 || lost(at, v.0) then 1 else 0];
    forall rest ensures f.get(b + flag + rest) == Some((f.norm(at, v), rest)) {
      assert b + flag + rest == b + (flag + rest);
      assert (flag + rest)[0] == flag[0] && (flag + rest)[1..] == rest;
    }
  }
}

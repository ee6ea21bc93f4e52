/**
  Merge diagnostics as SDK values in byte windows: conflicts, `.lww` decisions
  and merge units are kept while a budget of 16,384 bytes lasts. What is built
  encodes within that budget, and says exactly what was left out.
*/
module SdkWindows {
  import opened Wrappers
  import opened Bytes
  import opened Wire
  import opened MergeTypes
  import opened SdkValue
  import ListCodec
  import Calendar
  import Decimal
  import UtcText
  import Utf8

  const WINDOW := 16_384

  // Budgets

  /** `spend`: takes the cost off the budget, or leaves it alone when it does not suffice. */
  method Spend(remaining: nat, cost: nat) returns (ok: bool, left: nat)
    ensures ok <==> cost <= remaining
    ensures left == if ok then remaining - cost else remaining
  {
    if cost <= remaining {
      return true, remaining - cost;
    }
    return false, remaining;
  }

  /** How many leading items the window pays for: the longest prefix whose total cost it holds. */
  method CountSpending<T>(xs: seq<T>, cost: T -> nat) returns (count: nat)
    ensures count == ListCodec.Fitting(WINDOW, xs, cost)
  {
    var remaining: nat := WINDOW;
    count := 0;
    assert xs[0..] == xs;
    while count < |xs|
      invariant count <= |xs|
      invariant ListCodec.Fitting(WINDOW, xs, cost) == count + ListCodec.Fitting(remaining, xs[count..], cost)
    {
      assert xs[count..][0] == xs[count] && xs[count..][1..] == xs[count + 1..];
      var ok, left := Spend(remaining, cost(xs[count]));
      if !ok {
        return;
      }
      remaining := left;
      count := count + 1;
    }
  }

  function LineCost(s: seq<byte>): nat { |s| + 8 }
  function HunkCost(h: Hunk): nat { 96 + ListCodec.Total(h.ours, LineCost) + ListCodec.Total(h.theirs, LineCost) }
  function PathCost(c: Conflict): nat { |c.path| + 256 }
  function LwwCost(d: LwwDecision): nat { |d.path| + |d.rule| + 96 }
  function UnitCost(u: UnitReport): nat { |u.name| + 192 }

  /** The hunk counts of the conflicts kept. A conflict is dropped with all after it, a hunk with those after it. */
  function ConflictWindow(cs: seq<Conflict>, budget: nat): (w: seq<nat>)
    ensures |w| <= |cs|
  {
    if cs == [] || PathCost(cs[0]) > budget then []
    else
      var left := budget - PathCost(cs[0]);
      var n := ListCodec.Fitting(left, cs[0].hunks, HunkCost);
      HunksPaid(left, cs[0].hunks);
      [n] + ConflictWindow(cs[1..], left - ListCodec.Total(cs[0].hunks[..n], HunkCost))
  }

  lemma HunksPaid(budget: nat, hs: seq<Hunk>)
    ensures ListCodec.Total(hs[..ListCodec.Fitting(budget, hs, HunkCost)], HunkCost) <= budget
  {
    var n := ListCodec.Fitting(budget, hs, HunkCost);
    if n > 0 {
      ListCodec.FittingIsLongest(budget, hs, HunkCost, n);
    }
  }

  method HunkLineCost(h: Hunk) returns (cost: nat)
    ensures cost == HunkCost(h)
  {
    cost := 96;
    assert h.ours[0..] == h.ours && h.theirs[0..] == h.theirs;
    for k := 0 to |h.ours|
      invariant cost + ListCodec.Total(h.ours[k..], LineCost) == 96 + ListCodec.Total(h.ours, LineCost)
    {
      assert h.ours[k..][0] == h.ours[k] && h.ours[k..][1..] == h.ours[k + 1..];
      cost := cost + LineCost(h.ours[k]);
    }
    for k := 0 to |h.theirs|
      invariant cost + ListCodec.Total(h.theirs[k..], LineCost) == HunkCost(h)
    {
      assert h.theirs[k..][0] == h.theirs[k] && h.theirs[k..][1..] == h.theirs[k + 1..];
      cost := cost + LineCost(h.theirs[k]);
    }
  }

  /** `conflict_window`. */
  method CountConflicts(cs: seq<Conflict>) returns (hunks: seq<nat>)
    ensures hunks == ConflictWindow(cs, WINDOW)
  {
    hide HunkCost;
    var remaining: nat := WINDOW;
    hunks := [];
    assert cs[0..] == cs;
    assert [] + ConflictWindow(cs, WINDOW) == ConflictWindow(cs, WINDOW);
    for k := 0 to |cs|
      invariant ConflictWindow(cs, WINDOW) == hunks + ConflictWindow(cs[k..], remaining)
    {
      var c := cs[k];
      assert cs[k..][0] == c && cs[k..][1..] == cs[k + 1..];
      var ok, left := Spend(remaining, PathCost(c));
      if !ok {
        assert hunks + [] == hunks;
        return;
      }
      var count, after := CountHunks(c.hunks, left);
      assert hunks + ([count] + ConflictWindow(cs[k + 1..], after)) ==
        hunks + [count] + ConflictWindow(cs[k + 1..], after);
      hunks := hunks + [count];
      remaining := after;
    }
    assert hunks + [] == hunks;
  }

  method CountHunks(hs: seq<Hunk>, budget: nat) returns (count: nat, left: nat)
    ensures count == ListCodec.Fitting(budget, hs, HunkCost)
    ensures ListCodec.Total(hs[..count], HunkCost) <= budget && left == budget - ListCodec.Total(hs[..count], HunkCost)
  {
    hide HunkCost;
    left := budget;
    count := 0;
    assert hs[0..] == hs && hs[..0] == [];
    while count < |hs|
      invariant count <= |hs|
      invariant ListCodec.Fitting(budget, hs, HunkCost) == count + ListCodec.Fitting(left, hs[count..], HunkCost)
      invariant left + ListCodec.Total(hs[..count], HunkCost) == budget
    {
      assert hs[count..][0] == hs[count] && hs[count..][1..] == hs[count + 1..];
      var cost := HunkLineCost(hs[count]);
      var ok, after := Spend(left, cost);
      if !ok {
        return;
      }
      TotalSnoc(hs, count, HunkCost);
      left := after;
      count := count + 1;
    }
  }

  lemma {:induction false} TotalSnoc<T>(xs: seq<T>, k: nat, cost: T -> nat)
    requires k < |xs|
    ensures ListCodec.Total(xs[..k + 1], cost) == ListCodec.Total(xs[..k], cost) + cost(xs[k])
  {
    if k == 0 {
      assert xs[..1] == [xs[0]] && xs[..1][1..] == [];
    } else {
      TotalSnoc(xs[1..], k - 1, cost);
      assert xs[..k + 1][1..] == xs[1..][..k] && xs[..k][1..] == xs[1..][..k - 1];
    }
  }

  // The window is the greedy one

  /** What the first conflicts cost with so many hunks each. */
  function Spent(cs: seq<Conflict>, w: seq<nat>): nat
    requires |w| <= |cs|
  {
    if w == [] then 0
    else PathCost(cs[0]) + ListCodec.Total(ListCodec.First(cs[0].hunks, w[0]), HunkCost) + Spent(cs[1..], w[1..])
  }

  /** Within budget, and neither the next conflict nor the next hunk of any conflict would have been. */
  predicate Greedy(cs: seq<Conflict>, w: seq<nat>, budget: nat) {
    && |w| <= |cs|
    && Spent(cs, w) <= budget
    && (|w| < |cs| ==> Spent(cs, w) + PathCost(cs[|w|]) > budget)
    && (forall i :: 0 <= i < |w| ==> w[i] <= |cs[i].hunks|)
    && (forall i :: 0 <= i < |w| && w[i] < |cs[i].hunks| ==>
      Spent(cs, w[..i + 1]) + HunkCost(cs[i].hunks[w[i]]) > budget)
  }

  /** What one conflict with `n` of its hunks costs. */
  function CostWith(c: Conflict, n: nat): nat { PathCost(c) + ListCodec.Total(ListCodec.First(c.hunks, n), HunkCost) }

  lemma SpentFirst(cs: seq<Conflict>, n: nat, v: seq<nat>)
    requires |v| < |cs|
    ensures Spent(cs, [n] + v) == CostWith(cs[0], n) + Spent(cs[1..], v)
  {
    assert ([n] + v)[1..] == v;
  }

  lemma GreedyStep(cs: seq<Conflict>, n: nat, v: seq<nat>, budget: nat)
    requires cs != [] && n <= |cs[0].hunks| && CostWith(cs[0], n) <= budget
    requires n < |cs[0].hunks| ==> CostWith(cs[0], n) + HunkCost(cs[0].hunks[n]) > budget
    requires Greedy(cs[1..], v, budget - CostWith(cs[0], n))
    ensures Greedy(cs, [n] + v, budget)
  {
    hide HunkCost, PathCost, CostWith, Spent;
    var w, tail := [n] + v, cs[1..];
    SpentFirst(cs, n, v);
    if |w| < |cs| {
      assert cs[|w|] == tail[|v|];
    }
    forall i | 0 <= i < |w| ensures w[i] <= |cs[i].hunks| {
      if i > 0 {
        assert cs[i] == tail[i - 1] && v[i - 1] == w[i];
      }
    }
    forall i | 0 <= i < |w| && w[i] < |cs[i].hunks|
      ensures Spent(cs, w[..i + 1]) + HunkCost(cs[i].hunks[w[i]]) > budget {
      assert w[..i + 1] == [n] + v[..i];
      SpentFirst(cs, n, v[..i]);
      if i == 0 {
        NothingSpent(tail);
      } else {
        assert cs[i] == tail[i - 1] && v[i - 1] == w[i];
        assert Spent(tail, v[..i - 1 + 1]) + HunkCost(tail[i - 1].hunks[v[i - 1]]) > budget - CostWith(cs[0], n);
      }
    }
  }

  lemma NothingSpent(cs: seq<Conflict>)
    ensures Spent(cs, []) == 0
  {
  }

  /** The kept conflicts and hunks are exactly what the budget reaches. */
  lemma {:induction false} WindowIsGreedy(cs: seq<Conflict>, budget: nat)
    ensures Greedy(cs, ConflictWindow(cs, budget), budget)
    decreases |cs|
  {
    hide HunkCost, PathCost, Greedy;
    if cs == [] || PathCost(cs[0]) > budget {
      EmptyIsGreedy(cs, budget);
    } else {
      var hs, left := cs[0].hunks, budget - PathCost(cs[0]);
      var n := ListCodec.Fitting(left, hs, HunkCost);
      HunksPaid(left, hs);
      if n < |hs| {
        ListCodec.FittingIsLongest(left, hs, HunkCost, n + 1);
        TotalSnoc(hs, n, HunkCost);
      }
      assert ListCodec.First(hs, n) == hs[..n];
      WindowIsGreedy(cs[1..], budget - CostWith(cs[0], n));
      GreedyStep(cs, n, ConflictWindow(cs[1..], budget - CostWith(cs[0], n)), budget);
    }
  }

  lemma EmptyIsGreedy(cs: seq<Conflict>, budget: nat)
    requires cs == [] || PathCost(cs[0]) > budget
    ensures Greedy(cs, [], budget)
  {
  }

  // Sizes of values

  predicate Fits(v: Value, depth: nat, n: nat) { Put(v, depth).Some? && |Put(v, depth).value| <= n }
  predicate ItemsFit(items: seq<Value>, depth: nat, n: nat) {
    PutItems(items, depth).Some? && |PutItems(items, depth).value| <= n
  }
  predicate FieldsFit(fields: seq<Field>, depth: nat, n: nat) {
    PutFields(fields, depth).Some? && |PutFields(fields, depth).value| <= n
  }

  lemma ScalarsFit(depth: nat)
    requires depth <= MAXIMUM_VALUE_DEPTH
    ensures forall b :: Fits(Bool(b), depth, 1)
    ensures forall i :: Fits(Int(i), depth, 9)
    ensures forall s :: |s| < 0x1_0000_0000 ==> Fits(Text(s), depth, 5 + |s|)
  {
    hide BigEndian;
  }

  lemma ListFits(items: seq<Value>, depth: nat, n: nat)
    requires depth <= MAXIMUM_VALUE_DEPTH && ItemsFit(items, depth + 1, n)
    ensures Fits(List(items), depth, 5 + n)
  {
    hide BigEndian, PutItems;
    assert |BigEndian(|items|, 4)| == 4;
  }

  lemma MapFits(fields: seq<Field>, depth: nat, n: nat)
    requires depth <= MAXIMUM_VALUE_DEPTH && FieldsFit(fields, depth + 1, n)
    ensures Fits(Map(fields), depth, 5 + n)
  {
    hide BigEndian, PutFields;
    assert |BigEndian(|fields|, 4)| == 4;
  }

  lemma ItemsCons(v: Value, items: seq<Value>, depth: nat, m: nat, n: nat)
    requires Fits(v, depth, m) && ItemsFit(items, depth, n)
    ensures ItemsFit([v] + items, depth, m + n)
  {
    hide Put;
    assert ([v] + items)[1..] == items;
  }

  lemma FieldsCons(f: Field, fields: seq<Field>, depth: nat, m: nat, n: nat)
    requires |f.name| <= MAXIMUM_NAME_BYTES && Fits(f.value, depth, m) && FieldsFit(fields, depth, n)
    ensures FieldsFit([f] + fields, depth, 2 + |f.name| + m + n)
  {
    hide Put, BigEndian;
    assert ([f] + fields)[1..] == fields;
    assert |BigEndian(|f.name|, 2)| == 2;
  }

  // The values built

  /** A text of the source's own, all ASCII. */
  function Ascii(s: string): (r: seq<byte>)
    ensures |r| == |s|
  {
    seq(|s|, i requires 0 <= i < |s| => if s[i] as int < 128 then s[i] as int else 63)
  }

  lemma {:induction false} AsciiIsText(s: string)
    ensures Utf8.Valid(Ascii(s))
    decreases |s|
  {
    if s != [] {
      AsciiIsText(s[1..]);
      assert Ascii(s)[1..] == Ascii(s[1..]);
    }
  }

  function KindText(k: ConflictKind): string {
    match k
    case Content => "content"
    case AddAdd => "add/add"
    case ModifyDelete => "modify/delete"
    case DeleteModify => "delete/modify"
    case Type => "type"
    case Binary => "binary"
    case Markers => "markers"
    case Mode => "mode"
  }

  /** `as i64` of a usize. */
  function AsI64(n: nat): int {
    var m := n % 0x1_0000_0000_0000_0000;
    if m >= 0x8000_0000_0000_0000 then m - 0x1_0000_0000_0000_0000 else m
  }

  function LineItems(lines: seq<seq<byte>>): seq<Value> { seq(|lines|, i requires 0 <= i < |lines| => Text(lines[i])) }

  function HunkValue(h: Hunk): Value {
    Map([Field(Ascii("line"), Int(AsI64(h.line))),
         Field(Ascii("ours"), List(LineItems(h.ours))),
         Field(Ascii("theirs"), List(LineItems(h.theirs)))])
  }

  function HunkItems(hs: seq<Hunk>): seq<Value> { seq(|hs|, i requires 0 <= i < |hs| => HunkValue(hs[i])) }

  function ConflictValue(c: Conflict, count: nat): Value {
    Map([Field(Ascii("path"), Text(c.path)),
         Field(Ascii("kind"), Text(Ascii(KindText(c.kind)))),
         Field(Ascii("blocks"), Int(AsI64(|c.hunks|))),
         Field(Ascii("hunksOmitted"), Bool(count != |c.hunks|)),
         Field(Ascii("hunks"), List(HunkItems(ListCodec.First(c.hunks, count))))])
  }

  function ConflictItems(cs: seq<Conflict>, w: seq<nat>): seq<Value>
    requires |w| <= |cs|
  {
    seq(|w|, i requires 0 <= i < |w| => ConflictValue(cs[i], w[i]))
  }

  function Conflicts(cs: seq<Conflict>): Value { List(ConflictItems(cs, ConflictWindow(cs, WINDOW))) }
  function ConflictsTruncated(cs: seq<Conflict>): bool { |ConflictWindow(cs, WINDOW)| != |cs| }

  function LwwValue(d: LwwDecision): Value {
    Map([Field(Ascii("path"), Text(d.path)),
         Field(Ascii("kept"), Text(Ascii(if d.keptOurs then "ours" else "theirs"))),
         Field(Ascii("deleted"), Bool(d.deleted)),
         Field(Ascii("rule"), Text(d.rule))])
  }

  function LwwItems(ds: seq<LwwDecision>): seq<Value> { seq(|ds|, i requires 0 <= i < |ds| => LwwValue(ds[i])) }
  function Lww(ds: seq<LwwDecision>): Value {
    List(LwwItems(ListCodec.First(ds, ListCodec.Fitting(WINDOW, ds, LwwCost))))
  }

  function LwwTruncated(ds: seq<LwwDecision>): bool { ListCodec.Fitting(WINDOW, ds, LwwCost) != |ds| }

  /** A count that does not fit an i64 is the largest that does. */
  function CountValue(n: nat): Value { Int(if n < 0x8000_0000_0000_0000 then n else 0x7FFF_FFFF_FFFF_FFFF) }

  function UnitValue(u: UnitReport): Value {
    Map([Field(Ascii("unit"), Text(u.name)),
         Field(Ascii("kept"), Text(Ascii(if u.kept == Ours then "ours" else "theirs"))),
         Field(Ascii("keptTime"), Text(Ascii(UtcText.Utc(UtcText.Instant(u.seconds, u.nanoseconds))))),
         Field(Ascii("changedOurs"), CountValue(u.changedOurs)),
         Field(Ascii("changedTheirs"), CountValue(u.changedTheirs)),
         Field(Ascii("dropped"), CountValue(u.dropped)),
         Field(Ascii("crossLinks"), CountValue(u.crossLinks))])
  }

  function UnitItems(us: seq<UnitReport>): seq<Value> { seq(|us|, i requires 0 <= i < |us| => UnitValue(us[i])) }
  function Units(us: seq<UnitReport>): Value {
    List(UnitItems(ListCodec.First(us, ListCodec.Fitting(WINDOW, us, UnitCost))))
  }

  function UnitsTruncated(us: seq<UnitReport>): bool { ListCodec.Fitting(WINDOW, us, UnitCost) != |us| }

  // Each item encodes within its cost

  lemma {:induction false} LinesFit(lines: seq<seq<byte>>, depth: nat)
    requires depth <= MAXIMUM_VALUE_DEPTH && ListCodec.Total(lines, LineCost) <= WINDOW
    ensures ItemsFit(LineItems(lines), depth, ListCodec.Total(lines, LineCost))
    decreases |lines|
  {
    hide Put;
    if lines != [] {
      LinesFit(lines[1..], depth);
      ScalarsFit(depth);
      ItemsCons(Text(lines[0]), LineItems(lines[1..]), depth, LineCost(lines[0]),
        ListCodec.Total(lines[1..], LineCost));
      assert LineItems(lines) == [Text(lines[0])] + LineItems(lines[1..]);
    }
  }

  lemma HunkFits(h: Hunk, depth: nat)
    requires depth + 2 <= MAXIMUM_VALUE_DEPTH && HunkCost(h) <= WINDOW
    ensures Fits(HunkValue(h), depth, HunkCost(h))
  {
    hide Fits, ItemsFit, FieldsFit, Ascii, LineItems, ListCodec.Total;
    var a, b := ListCodec.Total(h.ours, LineCost), ListCodec.Total(h.theirs, LineCost);
    LinesFit(h.ours, depth + 2);
    LinesFit(h.theirs, depth + 2);
    ListFits(LineItems(h.ours), depth + 1, a);
    ListFits(LineItems(h.theirs), depth + 1, b);
    IntFits(AsI64(h.line), depth + 1);
    var line, ours, theirs := Field(Ascii("line"), Int(AsI64(h.line))), Field(Ascii("ours"), List(LineItems(h.ours))),
      Field(Ascii("theirs"), List(LineItems(h.theirs)));
    NoFields(depth + 1);
    FieldsCons(theirs, [], depth + 1, 5 + b, 0);
    assert [theirs] + [] == [theirs];
    FieldsCons(ours, [theirs], depth + 1, 5 + a, 13 + b);
    assert [ours] + [theirs] == [ours, theirs];
    FieldsCons(line, [ours, theirs], depth + 1, 9, 24 + a + b);
    assert [line] + [ours, theirs] == [line, ours, theirs];
    MapFits([line, ours, theirs], depth, 39 + a + b);
    Looser(HunkValue(h), depth, 44 + a + b, HunkCost(h));
  }

  lemma IntFits(i: int, depth: nat)
    requires depth <= MAXIMUM_VALUE_DEPTH
    ensures Fits(Int(i), depth, 9)
  {
    ScalarsFit(depth);
  }

  lemma TextFits(s: seq<byte>, depth: nat)
    requires depth <= MAXIMUM_VALUE_DEPTH && |s| < 0x1_0000_0000
    ensures Fits(Text(s), depth, 5 + |s|)
  {
    ScalarsFit(depth);
  }

  lemma BoolFits(b: bool, depth: nat)
    requires depth <= MAXIMUM_VALUE_DEPTH
    ensures Fits(Bool(b), depth, 1)
  {
    ScalarsFit(depth);
  }

  lemma Looser(v: Value, depth: nat, m: nat, n: nat)
    requires Fits(v, depth, m) && m <= n
    ensures Fits(v, depth, n)
  {
  }

  lemma {:induction false} HunksFit(hs: seq<Hunk>, depth: nat)
    requires depth + 2 <= MAXIMUM_VALUE_DEPTH && ListCodec.Total(hs, HunkCost) <= WINDOW
    ensures ItemsFit(HunkItems(hs), depth, ListCodec.Total(hs, HunkCost))
    decreases |hs|
  {
    hide Fits, ItemsFit, HunkCost, HunkValue;
    if hs == [] {
      NoFields(depth);
    } else {
      HunksFit(hs[1..], depth);
      HunkFits(hs[0], depth);
      ItemsCons(HunkValue(hs[0]), HunkItems(hs[1..]), depth, HunkCost(hs[0]), ListCodec.Total(hs[1..], HunkCost));
      assert HunkItems(hs) == [HunkValue(hs[0])] + HunkItems(hs[1..]);
    }
  }

  lemma ConflictFits(c: Conflict, count: nat, depth: nat)
    requires count <= |c.hunks| && depth + 4 <= MAXIMUM_VALUE_DEPTH
    requires PathCost(c) + ListCodec.Total(c.hunks[..count], HunkCost) <= WINDOW
    ensures Fits(ConflictValue(c, count), depth, PathCost(c) + ListCodec.Total(c.hunks[..count], HunkCost))
  {
    hide Fits, ItemsFit, FieldsFit, Ascii, HunkItems, ListCodec.Total;
    var kept := ListCodec.First(c.hunks, count);
    var n := ListCodec.Total(kept, HunkCost);
    var kind := Ascii(KindText(c.kind));
    HunksFit(kept, depth + 2);
    ListFits(HunkItems(kept), depth + 1, n);
    TextFits(c.path, depth + 1);
    TextFits(kind, depth + 1);
    IntFits(AsI64(|c.hunks|), depth + 1);
    BoolFits(count != |c.hunks|, depth + 1);
    NoFields(depth + 1);
    var f := [Field(Ascii("path"), Text(c.path)),
              Field(Ascii("kind"), Text(kind)),
              Field(Ascii("blocks"), Int(AsI64(|c.hunks|))),
              Field(Ascii("hunksOmitted"), Bool(count != |c.hunks|)),
              Field(Ascii("hunks"), List(HunkItems(kept)))];
    Tails(f);
    FieldsCons(f[4], f[5..], depth + 1, 5 + n, 0);
    FieldsCons(f[3], f[4..], depth + 1, 1, 12 + n);
    FieldsCons(f[2], f[3..], depth + 1, 9, 27 + n);
    FieldsCons(f[1], f[2..], depth + 1, 5 + |kind|, 44 + n);
    FieldsCons(f[0], f[1..], depth + 1, 5 + |c.path|, 55 + |kind| + n);
    MapFits(f[0..], depth, 66 + |kind| + |c.path| + n);
    Looser(ConflictValue(c, count), depth, 71 + |kind| + |c.path| + n, PathCost(c) + n);
  }

  /** A list is each of its elements in front of what follows. */
  lemma Tails<T>(f: seq<T>)
    ensures f[0..] == f && f[|f|..] == []
    ensures forall i :: 0 <= i < |f| ==> [f[i]] + f[i + 1..] == f[i..]
  {
  }

  lemma {:induction false} ConflictItemsFit(cs: seq<Conflict>, budget: nat, depth: nat)
    requires depth + 4 <= MAXIMUM_VALUE_DEPTH && budget <= WINDOW
    ensures ItemsFit(ConflictItems(cs, ConflictWindow(cs, budget)), depth, budget)
    decreases |cs|
  {
    hide Fits, ItemsFit, HunkCost, ConflictValue;
    var w := ConflictWindow(cs, budget);
    NoFields(depth);
    if w == [] {
      MoreRoom([], depth, 0, budget);
    } else {
      var c, n := cs[0], w[0];
      HunksPaid(budget - PathCost(c), c.hunks);
      var paid := PathCost(c) + ListCodec.Total(c.hunks[..n], HunkCost);
      ConflictFits(c, n, depth);
      ConflictItemsFit(cs[1..], budget - paid, depth);
      var rest := ConflictItems(cs[1..], w[1..]);
      ItemsCons(ConflictValue(c, n), rest, depth, paid, budget - paid);
      assert ConflictItems(cs, w) == [ConflictValue(c, n)] + rest;
    }
  }

  lemma MoreRoom(items: seq<Value>, depth: nat, m: nat, n: nat)
    requires ItemsFit(items, depth, m) && m <= n
    ensures ItemsFit(items, depth, n)
  {
  }

  /** The conflicts encode within the window and a list header, wherever they are placed. */
  lemma ConflictsFit(cs: seq<Conflict>, depth: nat)
    requires depth + 5 <= MAXIMUM_VALUE_DEPTH
    ensures Fits(Conflicts(cs), depth, WINDOW + 5)
  {
    ConflictItemsFit(cs, WINDOW, depth + 1);
    ListFits(ConflictItems(cs, ConflictWindow(cs, WINDOW)), depth, WINDOW);
  }

  lemma LwwFits(d: LwwDecision, depth: nat)
    requires depth + 1 <= MAXIMUM_VALUE_DEPTH && LwwCost(d) <= WINDOW
    ensures Fits(LwwValue(d), depth, LwwCost(d))
  {
    hide Fits, FieldsFit, Ascii;
    var kept := Ascii(if d.keptOurs then "ours" else "theirs");
    TextFits(d.path, depth + 1);
    TextFits(kept, depth + 1);
    BoolFits(d.deleted, depth + 1);
    TextFits(d.rule, depth + 1);
    NoFields(depth + 1);
    var f := [Field(Ascii("path"), Text(d.path)),
              Field(Ascii("kept"), Text(kept)),
              Field(Ascii("deleted"), Bool(d.deleted)),
              Field(Ascii("rule"), Text(d.rule))];
    Tails(f);
    FieldsCons(f[3], f[4..], depth + 1, 5 + |d.rule|, 0);
    FieldsCons(f[2], f[3..], depth + 1, 1, 11 + |d.rule|);
    FieldsCons(f[1], f[2..], depth + 1, 5 + |kept|, 21 + |d.rule|);
    FieldsCons(f[0], f[1..], depth + 1, 5 + |d.path|, 32 + |kept| + |d.rule|);
    MapFits(f[0..], depth, 43 + |kept| + |d.path| + |d.rule|);
    Looser(LwwValue(d), depth, 48 + |kept| + |d.path| + |d.rule|, LwwCost(d));
  }

  lemma {:induction false} LwwItemsFit(ds: seq<LwwDecision>, depth: nat)
    requires depth + 1 <= MAXIMUM_VALUE_DEPTH && ListCodec.Total(ds, LwwCost) <= WINDOW
    ensures ItemsFit(LwwItems(ds), depth, ListCodec.Total(ds, LwwCost))
    decreases |ds|
  {
    hide Fits, ItemsFit, LwwValue, LwwCost;
    if ds == [] {
      NoFields(depth);
    } else {
      LwwItemsFit(ds[1..], depth);
      LwwFits(ds[0], depth);
      ItemsCons(LwwValue(ds[0]), LwwItems(ds[1..]), depth, LwwCost(ds[0]), ListCodec.Total(ds[1..], LwwCost));
      assert LwwItems(ds) == [LwwValue(ds[0])] + LwwItems(ds[1..]);
    }
  }

  /** What a window pays for is within it. */
  lemma Paid<T>(xs: seq<T>, cost: T -> nat)
    ensures var kept := ListCodec.First(xs, ListCodec.Fitting(WINDOW, xs, cost)); ListCodec.Total(kept, cost) <= WINDOW
  {
    var n := ListCodec.Fitting(WINDOW, xs, cost);
    if n > 0 {
      ListCodec.FittingIsLongest(WINDOW, xs, cost, n);
    }
  }

  lemma LwwWindowFits(ds: seq<LwwDecision>, depth: nat)
    requires depth + 2 <= MAXIMUM_VALUE_DEPTH
    ensures Fits(Lww(ds), depth, WINDOW + 5)
  {
    hide LwwCost;
    var kept := ListCodec.First(ds, ListCodec.Fitting(WINDOW, ds, LwwCost));
    Paid(ds, LwwCost);
    LwwItemsFit(kept, depth + 1);
    ListFits(LwwItems(kept), depth, ListCodec.Total(kept, LwwCost));
  }

  lemma NoFields(depth: nat)
    ensures FieldsFit([], depth, 0) && ItemsFit([], depth, 0)
  {
  }

  // Units: the time text is short

  lemma Powers()
    ensures Decimal.Pow10(2) == 100 && Decimal.Pow10(10) == 10_000_000_000 && Decimal.Pow10(12) == 1_000_000_000_000
  {
    assert Decimal.Pow10(4) == 10_000;
    assert Decimal.Pow10(6) == 1_000_000;
    assert Decimal.Pow10(8) == 100_000_000;
  }

  /** Every year an i64 of seconds reaches has at most twelve digits. */
  lemma YearWithin(seconds: int)
    requires IsI64(seconds)
    ensures -1_000_000_000_000 < Calendar.Civil(seconds / 86_400).year < 1_000_000_000_000
  {
    var days := seconds / 86_400;
    var z := days + 719_468;
    var era, doe := z / 146_097, z % 146_097;
    Calendar.YearHoldsDay(doe);
    assert -107_000_000_000_000 < days < 107_000_000_000_000;
    assert -733_000_000 < era < 733_000_000;
  }

  /** A time of the source, i64 seconds and u32 nanoseconds, has a text of at most 44 characters. */
  lemma UtcIsShort(t: UtcText.Instant)
    requires IsI64(t.seconds) && t.nanos < 0x1_0000_0000
    ensures |UtcText.Utc(t)| <= 44
  {
    hide Decimal.Pad, Calendar.Civil, Decimal.Pow10, UtcText.YearText;
    var days, second := t.seconds / 86_400, t.seconds % 86_400;
    var d := Calendar.Civil(days);
    Calendar.CivilIsTheDate(days);
    Powers();
    YearIsShort(t.seconds);
    Decimal.PadWithin(d.month, 2, 2);
    Decimal.PadWithin(d.day, 2, 2);
    Decimal.PadWithin(second / 3600, 2, 2);
    Decimal.PadWithin(second / 60 % 60, 2, 2);
    Decimal.PadWithin(second % 60, 2, 2);
    Decimal.PadWithin(t.nanos, 9, 10);
  }

  lemma YearIsShort(seconds: int)
    requires IsI64(seconds)
    ensures |UtcText.YearText(Calendar.Civil(seconds / 86_400).year)| <= 13
  {
    hide Decimal.Pad, Calendar.Civil, Decimal.Pow10;
    var y := Calendar.Civil(seconds / 86_400).year;
    YearWithin(seconds);
    Powers();
    if y >= 0 {
      Decimal.PadWithin(y, 4, 12);
    } else {
      Decimal.PadWithin(-y, 3, 12);
    }
  }

  /** A report of the source: i64 seconds and u32 nanoseconds. */
  predicate TypedUnit(u: UnitReport) { IsI64(u.seconds) && u.nanoseconds < 0x1_0000_0000 && Utf8.Valid(u.name) }

  lemma UnitFits(u: UnitReport, depth: nat)
    requires TypedUnit(u) && depth + 1 <= MAXIMUM_VALUE_DEPTH && UnitCost(u) <= WINDOW
    ensures Fits(UnitValue(u), depth, UnitCost(u))
  {
    hide Fits, FieldsFit, Ascii, UtcText.Utc, Utf8.Valid, IsI64;
    var kept := Ascii(if u.kept == Ours then "ours" else "theirs");
    var time := Ascii(UtcText.Utc(UtcText.Instant(u.seconds, u.nanoseconds)));
    UtcIsShort(UtcText.Instant(u.seconds, u.nanoseconds));
    TextFits(u.name, depth + 1);
    TextFits(kept, depth + 1);
    TextFits(time, depth + 1);
    var f := UnitValue(u).fields;
    Tails(f);
    UnitCountsFit(u, depth + 1);
    assert f[3..] == UnitCounts(u);
    FieldsCons(f[2], f[3..], depth + 1, 5 + |time|, 85);
    FieldsCons(f[1], f[2..], depth + 1, 5 + |kept|, 100 + |time|);
    FieldsCons(f[0], f[1..], depth + 1, 5 + |u.name|, 111 + |kept| + |time|);
    MapFits(f[0..], depth, 122 + |kept| + |time| + |u.name|);
    Looser(UnitValue(u), depth, 127 + |kept| + |time| + |u.name|, UnitCost(u));
  }

  function UnitCounts(u: UnitReport): seq<Field> {
    [Field(Ascii("changedOurs"), CountValue(u.changedOurs)),
     Field(Ascii("changedTheirs"), CountValue(u.changedTheirs)),
     Field(Ascii("dropped"), CountValue(u.dropped)),
     Field(Ascii("crossLinks"), CountValue(u.crossLinks))]
  }

  lemma UnitCountsFit(u: UnitReport, depth: nat)
    requires depth <= MAXIMUM_VALUE_DEPTH
    ensures FieldsFit(UnitCounts(u), depth, 85)
  {
    hide Fits, FieldsFit, Ascii;
    var f := UnitCounts(u);
    Tails(f);
    NoFields(depth);
    IntFits(f[0].value.i, depth);
    IntFits(f[1].value.i, depth);
    IntFits(f[2].value.i, depth);
    IntFits(f[3].value.i, depth);
    FieldsCons(f[3], f[4..], depth, 9, 0);
    FieldsCons(f[2], f[3..], depth, 9, 21);
    FieldsCons(f[1], f[2..], depth, 9, 39);
    FieldsCons(f[0], f[1..], depth, 9, 63);
  }

  lemma {:induction false} UnitItemsFit(us: seq<UnitReport>, depth: nat)
    requires depth + 1 <= MAXIMUM_VALUE_DEPTH && ListCodec.Total(us, UnitCost) <= WINDOW
    requires forall k :: 0 <= k < |us| ==> TypedUnit(us[k])
    ensures ItemsFit(UnitItems(us), depth, ListCodec.Total(us, UnitCost))
    decreases |us|
  {
    hide Fits, ItemsFit, UnitValue, UnitCost, TypedUnit;
    if us == [] {
      NoFields(depth);
    } else {
      UnitItemsFit(us[1..], depth);
      UnitFits(us[0], depth);
      ItemsCons(UnitValue(us[0]), UnitItems(us[1..]), depth, UnitCost(us[0]), ListCodec.Total(us[1..], UnitCost));
      assert UnitItems(us) == [UnitValue(us[0])] + UnitItems(us[1..]);
    }
  }

  lemma UnitsWindowFits(us: seq<UnitReport>, depth: nat)
    requires depth + 2 <= MAXIMUM_VALUE_DEPTH && forall k :: 0 <= k < |us| ==> TypedUnit(us[k])
    ensures Fits(Units(us), depth, WINDOW + 5)
  {
    hide UnitCost, TypedUnit;
    var kept := ListCodec.First(us, ListCodec.Fitting(WINDOW, us, UnitCost));
    Paid(us, UnitCost);
    UnitItemsFit(kept, depth + 1);
    ListFits(UnitItems(kept), depth, ListCodec.Total(kept, UnitCost));
  }

  // What was built is read back

  predicate GoodField(f: Field) { Utf8.Valid(f.name) && Typed(f.value) && Unique(f.value) }
  predicate DistinctNames(fields: seq<Field>) {
    forall j, k :: 0 <= j < k < |fields| ==> fields[j].name != fields[k].name
  }

  lemma MapIsGood(fields: seq<Field>)
    requires DistinctNames(fields) && forall k :: 0 <= k < |fields| ==> GoodField(fields[k])
    ensures Typed(Map(fields)) && Unique(Map(fields))
  {
    hide Utf8.Valid;
  }

  lemma GoodText(name: string, s: seq<byte>)
    requires Utf8.Valid(s)
    ensures GoodField(Field(Ascii(name), Text(s)))
  {
    AsciiIsText(name);
  }

  lemma GoodInt(name: string, i: int)
    requires IsI64(i)
    ensures GoodField(Field(Ascii(name), Int(i)))
  {
    AsciiIsText(name);
  }

  lemma GoodBool(name: string, b: bool)
    ensures GoodField(Field(Ascii(name), Bool(b)))
  {
    AsciiIsText(name);
  }

  lemma GoodList(name: string, items: seq<Value>)
    requires forall k :: 0 <= k < |items| ==> Typed(items[k]) && Unique(items[k])
    ensures GoodField(Field(Ascii(name), List(items)))
  {
    AsciiIsText(name);
  }

  lemma Distinct(a: string, b: string)
    requires |a| != |b| || (a != [] && a[0] as int < 128 && b[0] as int < 128 && a[0] != b[0])
    ensures Ascii(a) != Ascii(b)
  {
    if |a| == |b| {
      assert Ascii(a)[0] == a[0] as int && Ascii(b)[0] == b[0] as int;
    }
  }

  /** A text of the source is well formed. */
  predicate TypedHunk(h: Hunk) {
    && (forall k :: 0 <= k < |h.ours| ==> Utf8.Valid(h.ours[k]))
    && (forall k :: 0 <= k < |h.theirs| ==> Utf8.Valid(h.theirs[k]))
  }
  predicate TypedConflict(c: Conflict) {
    Utf8.Valid(c.path) && forall k :: 0 <= k < |c.hunks| ==> TypedHunk(c.hunks[k])
  }

  lemma HunkIsTyped(h: Hunk)
    requires TypedHunk(h)
    ensures Typed(HunkValue(h)) && Unique(HunkValue(h))
  {
    hide GoodField, Ascii, Utf8.Valid, Typed, Unique;
    LinesAreTyped(h.ours);
    LinesAreTyped(h.theirs);
    GoodInt("line", AsI64(h.line));
    GoodList("ours", LineItems(h.ours));
    GoodList("theirs", LineItems(h.theirs));
    Distinct("line", "ours");
    MapIsGood(HunkValue(h).fields);
  }

  lemma LinesAreTyped(lines: seq<seq<byte>>)
    requires forall k :: 0 <= k < |lines| ==> Utf8.Valid(lines[k])
    ensures var items := LineItems(lines); forall k :: 0 <= k < |items| ==> Typed(items[k]) && Unique(items[k])
  {
    hide Utf8.Valid;
    var items := LineItems(lines);
    forall k | 0 <= k < |items| ensures Typed(items[k]) && Unique(items[k]) {
    }
  }

  lemma ConflictIsTyped(c: Conflict, count: nat)
    requires TypedConflict(c)
    ensures Typed(ConflictValue(c, count)) && Unique(ConflictValue(c, count))
      && DistinctNames(ConflictValue(c, count).fields)
  {
    hide GoodField, Ascii, Utf8.Valid, HunkValue, TypedHunk, Typed, Unique;
    var kept := HunkItems(ListCodec.First(c.hunks, count));
    forall k | 0 <= k < |kept| ensures Typed(kept[k]) && Unique(kept[k]) {
      HunkIsTyped(c.hunks[k]);
    }
    AsciiIsText(KindText(c.kind));
    GoodText("path", c.path);
    GoodText("kind", Ascii(KindText(c.kind)));
    GoodInt("blocks", AsI64(|c.hunks|));
    GoodBool("hunksOmitted", count != |c.hunks|);
    GoodList("hunks", kept);
    Distinct("path", "kind");
    MapIsGood(ConflictValue(c, count).fields);
  }

  /** The conflicts are read back as they were built. */
  lemma ConflictsArrive(cs: seq<Conflict>, depth: nat, rest: seq<byte>)
    requires depth + 5 <= MAXIMUM_VALUE_DEPTH && forall k :: 0 <= k < |cs| ==> TypedConflict(cs[k])
    ensures Put(Conflicts(cs), depth).Some?
    ensures Get(Put(Conflicts(cs), depth).value + rest, depth, true) == Some((Conflicts(cs), rest))
  {
    hide Put, Get, ConflictValue, TypedConflict;
    ConflictsFit(cs, depth);
    var items := Conflicts(cs).items;
    forall k | 0 <= k < |items| ensures Typed(items[k]) && Unique(items[k]) {
      ConflictIsTyped(cs[k], ConflictWindow(cs, WINDOW)[k]);
    }
    UniqueNamesDecide(Conflicts(cs), depth, rest);
  }

  lemma LwwIsTyped(d: LwwDecision)
    requires Utf8.Valid(d.path) && Utf8.Valid(d.rule)
    ensures Typed(LwwValue(d)) && Unique(LwwValue(d))
  {
    hide GoodField, Ascii, Utf8.Valid, Typed, Unique;
    var kept := if d.keptOurs then "ours" else "theirs";
    AsciiIsText(kept);
    GoodText("path", d.path);
    GoodText("kept", Ascii(kept));
    GoodBool("deleted", d.deleted);
    GoodText("rule", d.rule);
    Distinct("path", "kept");
    Distinct("path", "rule");
    Distinct("kept", "rule");
    MapIsGood(LwwValue(d).fields);
  }

  lemma LwwArrive(ds: seq<LwwDecision>, depth: nat, rest: seq<byte>)
    requires depth + 2 <= MAXIMUM_VALUE_DEPTH && forall k :: 0 <= k < |ds| ==>
      Utf8.Valid(ds[k].path) && Utf8.Valid(ds[k].rule)
    ensures Put(Lww(ds), depth).Some? && Get(Put(Lww(ds), depth).value + rest, depth, true) == Some((Lww(ds), rest))
  {
    hide Put, Get, LwwValue, Utf8.Valid;
    LwwWindowFits(ds, depth);
    var items := Lww(ds).items;
    forall k | 0 <= k < |items| ensures Typed(items[k]) && Unique(items[k]) {
      LwwIsTyped(ds[k]);
    }
    UniqueNamesDecide(Lww(ds), depth, rest);
  }

  lemma UnitIsTyped(u: UnitReport)
    requires TypedUnit(u)
    ensures Typed(UnitValue(u)) && Unique(UnitValue(u))
  {
    hide GoodField, Ascii, Utf8.Valid, Typed, Unique, UtcText.Utc;
    var kept := if u.kept == Ours then "ours" else "theirs";
    var time := UtcText.Utc(UtcText.Instant(u.seconds, u.nanoseconds));
    AsciiIsText(kept);
    AsciiIsText(time);
    GoodText("unit", u.name);
    GoodText("kept", Ascii(kept));
    GoodText("keptTime", Ascii(time));
    GoodInt("changedOurs", CountValue(u.changedOurs).i);
    GoodInt("changedTheirs", CountValue(u.changedTheirs).i);
    GoodInt("dropped", CountValue(u.dropped).i);
    GoodInt("crossLinks", CountValue(u.crossLinks).i);
    Distinct("unit", "kept");
    MapIsGood(UnitValue(u).fields);
  }

  lemma UnitsArrive(us: seq<UnitReport>, depth: nat, rest: seq<byte>)
    requires depth + 2 <= MAXIMUM_VALUE_DEPTH && forall k :: 0 <= k < |us| ==> TypedUnit(us[k])
    ensures Put(Units(us), depth).Some?
      && Get(Put(Units(us), depth).value + rest, depth, true) == Some((Units(us), rest))
  {
    hide Put, Get, UnitValue, TypedUnit;
    UnitsWindowFits(us, depth);
    var items := Units(us).items;
    forall k | 0 <= k < |items| ensures Typed(items[k]) && Unique(items[k]) {
      UnitIsTyped(us[k]);
    }
    UniqueNamesDecide(Units(us), depth, rest);
  }

  // What was left out

  /** `SdkValue::get`: the first field of that name. */
  function Lookup(v: Value, name: seq<byte>): Option<Value> {
    if v.Map? then FirstNamed(v.fields, name) else None
  }

  function FirstNamed(fields: seq<Field>, name: seq<byte>): Option<Value> {
    if fields == [] then None
    else if fields[0].name == name then Some(fields[0].value)
    else FirstNamed(fields[1..], name)
  }

  lemma {:induction false} NamedIsFirst(fields: seq<Field>, k: nat)
    requires k < |fields| && forall i, j :: 0 <= i < j < |fields| ==> fields[i].name != fields[j].name
    ensures FirstNamed(fields, fields[k].name) == Some(fields[k].value)
  {
    if k > 0 {
      assert fields[1..][k - 1] == fields[k] && fields[0].name != fields[k].name;
      NamedIsFirst(fields[1..], k - 1);
    }
  }

  // What each value shows

  /** An ASCII text is written as its character codes. */
  lemma AsciiIs(s: string)
    requires forall i :: 0 <= i < |s| ==> s[i] as int < 128
    ensures |Ascii(s)| == |s| && forall i :: 0 <= i < |s| ==> Ascii(s)[i] == s[i] as int
  {
  }

  predicate IsTexts(v: Option<Value>, lines: seq<seq<byte>>) {
    && v.Some? && v.value.List? && |v.value.items| == |lines|
    && forall i :: 0 <= i < |lines| ==> v.value.items[i] == Text(lines[i])
  }

  /** The line number, our lines and their lines, each under its own name. */
  predicate ShowsHunk(v: Value, h: Hunk) {
    && (h.line < 0x8000_0000_0000_0000 ==> Lookup(v, Ascii("line")) == Some(Int(h.line)))
    && IsTexts(Lookup(v, Ascii("ours")), h.ours)
    && IsTexts(Lookup(v, Ascii("theirs")), h.theirs)
  }

  /** Names that differ in one value differ in another with the same names. */
  lemma SameNames(v: Value, w: Value)
    requires v.Map? && w.Map? && Unique(v) && |w.fields| == |v.fields|
    requires forall i :: 0 <= i < |v.fields| ==> w.fields[i].name == v.fields[i].name
    ensures DistinctNames(w.fields)
  {
  }

  lemma LinesShow(lines: seq<seq<byte>>)
    ensures IsTexts(Some(List(LineItems(lines))), lines)
  {
  }

  lemma SmallIsItself(n: nat)
    requires n < 0x8000_0000_0000_0000
    ensures AsI64(n) == n
  {
  }

  lemma HunkShows(h: Hunk)
    ensures ShowsHunk(HunkValue(h), h)
  {
    hide Ascii, FirstNamed, LineItems, IsTexts, AsI64, Unique, DistinctNames;
    var plain := Hunk(0, [], []);
    NoLinesAreTyped();
    HunkIsTyped(plain);
    SameNames(HunkValue(plain), HunkValue(h));
    var f := HunkValue(h).fields;
    AllShow(f);
    assert FirstNamed(f, f[0].name) == Some(f[0].value) && FirstNamed(f, f[1].name) == Some(f[1].value);
    assert FirstNamed(f, f[2].name) == Some(f[2].value);
    LinesShow(h.ours);
    LinesShow(h.theirs);
    if h.line < 0x8000_0000_0000_0000 {
      SmallIsItself(h.line);
    }
  }

  lemma NoLinesAreTyped()
    ensures TypedHunk(Hunk(0, [], []))
  {
  }

  lemma AllShow(f: seq<Field>)
    requires DistinctNames(f)
    ensures forall i :: 0 <= i < |f| ==> FirstNamed(f, f[i].name) == Some(f[i].value)
  {
    forall i | 0 <= i < |f| ensures FirstNamed(f, f[i].name) == Some(f[i].value) {
      NamedIsFirst(f, i);
    }
  }

  predicate ShowsKind(v: Option<Value>, k: ConflictKind) {
    v == Some(Text(match k
      case Content => Ascii("content")
      case AddAdd => Ascii("add/add")
      case ModifyDelete => Ascii("modify/delete")
      case DeleteModify => Ascii("delete/modify")
      case Type => Ascii("type")
      case Binary => Ascii("binary")
      case Markers => Ascii("markers")
      case Mode => Ascii("mode")))
  }

  predicate ShowsHunks(v: Option<Value>, hs: seq<Hunk>) {
    && v.Some? && v.value.List? && |v.value.items| == |hs|
    && forall i :: 0 <= i < |hs| ==> ShowsHunk(v.value.items[i], hs[i])
  }

  lemma HunksShow(hs: seq<Hunk>)
    ensures ShowsHunks(Some(List(HunkItems(hs))), hs)
  {
    hide HunkValue, ShowsHunk;
    forall i | 0 <= i < |hs| ensures ShowsHunk(HunkItems(hs)[i], hs[i]) {
      HunkShows(hs[i]);
    }
  }

  /** The path, the kind by name, the true number of blocks, the hunks shown and whether that is all of them. */
  predicate ShowsConflict(v: Value, c: Conflict, n: nat)
    requires n <= |c.hunks|
  {
    && Lookup(v, Ascii("path")) == Some(Text(c.path))
    && ShowsKind(Lookup(v, Ascii("kind")), c.kind)
    && Lookup(v, Ascii("blocks")) == Some(Int(AsI64(|c.hunks|)))
    && (|c.hunks| < 0x8000_0000_0000_0000 ==> AsI64(|c.hunks|) == |c.hunks|)
    && ShowsHunks(Lookup(v, Ascii("hunks")), c.hunks[..n])
    && Lookup(v, Ascii("hunksOmitted")) == Some(Bool(n < |c.hunks|))
  }

  lemma ConflictShows(c: Conflict, n: nat)
    requires n <= |c.hunks|
    ensures ShowsConflict(ConflictValue(c, n), c, n)
  {
    hide Ascii, HunkValue, ShowsHunks, Utf8.Valid, FirstNamed, Unique, DistinctNames, AsI64;
    if |c.hunks| < 0x8000_0000_0000_0000 {
      SmallIsItself(|c.hunks|);
    }
    var plain := Conflict([], Content, []);
    PlainIsValid();
    ConflictIsTyped(plain, 0);
    SameNames(ConflictValue(plain, 0), ConflictValue(c, n));
    var f := ConflictValue(c, n).fields;
    AllShow(f);
    assert FirstNamed(f, f[0].name) == Some(f[0].value);
    assert FirstNamed(f, f[1].name) == Some(f[1].value);
    assert FirstNamed(f, f[2].name) == Some(f[2].value);
    assert FirstNamed(f, f[3].name) == Some(f[3].value);
    assert FirstNamed(f, f[4].name) == Some(f[4].value);
    HunksShow(c.hunks[..n]);
  }

  lemma PlainIsValid()
    ensures Utf8.Valid([])
  {
  }

  /**
    The conflicts shown are a prefix, each with its path, its kind, its true number
    of blocks and a prefix of its hunks, each side's lines under its own name;
    `hunksOmitted` says exactly whether that prefix is short, and the truncation
    flag whether the list is.
  */
  lemma ConflictsAreExact(cs: seq<Conflict>, k: nat)
    requires k < |Conflicts(cs).items|
    ensures |Conflicts(cs).items| <= |cs| && (ConflictsTruncated(cs) <==> |Conflicts(cs).items| < |cs|)
    ensures var v, n := Conflicts(cs).items[k], ConflictWindow(cs, WINDOW)[k];
      n <= |cs[k].hunks| && ShowsConflict(v, cs[k], n)
  {
    hide ConflictValue, ShowsConflict;
    WindowIsGreedy(cs, WINDOW);
    ConflictShows(cs[k], ConflictWindow(cs, WINDOW)[k]);
  }

  lemma {:induction false} TotalJoins<T>(xs: seq<T>, ys: seq<T>, f: T -> nat)
    ensures ListCodec.Total(xs + ys, f) == ListCodec.Total(xs, f) + ListCodec.Total(ys, f)
    decreases |xs|
  {
    if xs == [] {
      assert xs + ys == ys;
    } else {
      assert (xs + ys)[1..] == xs[1..] + ys;
      TotalJoins(xs[1..], ys, f);
    }
  }

  /** A conflict takes 256 bytes and its path of the window, each hunk 96 bytes, its lines and 8 for each. */
  lemma ConflictsCost(c: Conflict, h: Hunk)
    ensures PathCost(c) == |c.path| + 256
    ensures HunkCost(h) == 96 + ListCodec.Total(h.ours + h.theirs, (line: seq<byte>) => |line| + 8)
    ensures WINDOW == 16_384
  {
    TotalJoins(h.ours, h.theirs, LineCost);
    ListCodec.SameTotal(h.ours + h.theirs, LineCost, (line: seq<byte>) => |line| + 8);
  }

  predicate ShowsSide(v: Option<Value>, ours: bool) {
    v == Some(Text(if ours then Ascii("ours") else Ascii("theirs")))
  }

  predicate ShowsDecision(v: Value, d: LwwDecision) {
    && Lookup(v, Ascii("path")) == Some(Text(d.path))
    && ShowsSide(Lookup(v, Ascii("kept")), d.keptOurs)
    && Lookup(v, Ascii("deleted")) == Some(Bool(d.deleted))
    && Lookup(v, Ascii("rule")) == Some(Text(d.rule))
  }

  lemma DecisionShows(d: LwwDecision)
    ensures ShowsDecision(LwwValue(d), d)
  {
    hide Ascii, Utf8.Valid, FirstNamed, Unique, DistinctNames;
    var plain := LwwDecision([], false, false, []);
    PlainIsValid();
    LwwIsTyped(plain);
    SameNames(LwwValue(plain), LwwValue(d));
    var f := LwwValue(d).fields;
    AllShow(f);
    assert FirstNamed(f, f[0].name) == Some(f[0].value);
    assert FirstNamed(f, f[1].name) == Some(f[1].value);
    assert FirstNamed(f, f[2].name) == Some(f[2].value);
    assert FirstNamed(f, f[3].name) == Some(f[3].value);
  }

  /** A count, as far as an i64 goes. */
  predicate ShowsCount(v: Option<Value>, n: nat) {
    v == Some(Int(if n <= 0x7FFF_FFFF_FFFF_FFFF then n else 0x7FFF_FFFF_FFFF_FFFF))
  }

  predicate ShowsUnit(v: Value, u: UnitReport) {
    && Lookup(v, Ascii("unit")) == Some(Text(u.name))
    && ShowsSide(Lookup(v, Ascii("kept")), u.kept == Ours)
    && Lookup(v, Ascii("keptTime")) == Some(Text(Ascii(UtcText.Utc(UtcText.Instant(u.seconds, u.nanoseconds)))))
    && ShowsCount(Lookup(v, Ascii("changedOurs")), u.changedOurs)
    && ShowsCount(Lookup(v, Ascii("changedTheirs")), u.changedTheirs)
    && ShowsCount(Lookup(v, Ascii("dropped")), u.dropped)
    && ShowsCount(Lookup(v, Ascii("crossLinks")), u.crossLinks)
  }

  lemma UnitShows(u: UnitReport)
    ensures ShowsUnit(UnitValue(u), u)
  {
    hide Ascii, Utf8.Valid, UtcText.Utc, FirstNamed, Unique, DistinctNames;
    var plain := UnitReport([], Ours, 0, 0, 0, 0, 0, 0);
    PlainIsValid();
    UnitIsTyped(plain);
    SameNames(UnitValue(plain), UnitValue(u));
    var f := UnitValue(u).fields;
    AllShow(f);
    assert FirstNamed(f, f[0].name) == Some(f[0].value);
    assert FirstNamed(f, f[1].name) == Some(f[1].value);
    assert FirstNamed(f, f[2].name) == Some(f[2].value);
    assert FirstNamed(f, f[3].name) == Some(f[3].value);
    assert FirstNamed(f, f[4].name) == Some(f[4].value);
    assert FirstNamed(f, f[5].name) == Some(f[5].value);
    assert FirstNamed(f, f[6].name) == Some(f[6].value);
  }

  /**
    The decisions shown are the longest prefix of which each takes 96 bytes and its
    texts of the window, with each field as it is; the flag says whether it is short.
  */
  lemma LwwAreExact(ds: seq<LwwDecision>, n: nat)
    requires 0 < n <= |ds|
    ensures var items := Lww(ds).items;
      && (n <= |items| <==>
           ListCodec.Total(ds[..n], (d: LwwDecision) => |d.path| + |d.rule| + 96) <= 16_384)
      && (LwwTruncated(ds) <==> |items| < |ds|)
      && forall k :: 0 <= k < |items| ==> k < |ds| && ShowsDecision(items[k], ds[k])
  {
    hide LwwValue, ShowsDecision;
    ListCodec.FittingIsLongest(WINDOW, ds, LwwCost, n);
    ListCodec.SameTotal(ds[..n], LwwCost, (d: LwwDecision) => |d.path| + |d.rule| + 96);
    forall k | 0 <= k < |Lww(ds).items| ensures ShowsDecision(Lww(ds).items[k], ds[k]) {
      DecisionShows(ds[k]);
    }
  }

  /** The same of the units shown, of which each takes 192 bytes and its name. */
  lemma UnitsAreExact(us: seq<UnitReport>, n: nat)
    requires 0 < n <= |us|
    ensures var items := Units(us).items;
      && (n <= |items| <==> ListCodec.Total(us[..n], (u: UnitReport) => |u.name| + 192) <= 16_384)
      && (UnitsTruncated(us) <==> |items| < |us|)
      && forall k :: 0 <= k < |items| ==> k < |us| && ShowsUnit(items[k], us[k])
  {
    hide UnitValue, ShowsUnit;
    ListCodec.FittingIsLongest(WINDOW, us, UnitCost, n);
    ListCodec.SameTotal(us[..n], UnitCost, (u: UnitReport) => |u.name| + 192);
    forall k | 0 <= k < |Units(us).items| ensures ShowsUnit(Units(us).items[k], us[k]) {
      UnitShows(us[k]);
    }
  }
}

/**
  What changed between two texts, line by line: what it keeps is common to both,
  the left and the right text can be read off it, and while its table is within
  bounds nothing longer is common to both.
*/
module LineDiff {
  import opened Wrappers

  /** The most cells a table may have. */
  const MAXIMUM_DIFF_CELLS := 0x10_0000

  datatype LineOp = Same | Removed | Added

  datatype DiffLine<T> = DiffLine(op: LineOp, text: T)

  function Max(a: nat, b: nat): nat { if a >= b then a else b }

  /** The table's cell: how many lines the rests from `i` and `j` have in common at most. */
  function Common<T(==)>(x: seq<T>, y: seq<T>, i: nat, j: nat): nat
    decreases |x| - i + |y| - j
  {
    if i >= |x| || j >= |y| then 0
    else if x[i] == y[j] then Common(x, y, i + 1, j + 1) + 1
    else Max(Common(x, y, i + 1, j), Common(x, y, i, j + 1))
  }

  function Marked<T>(op: LineOp, s: seq<T>): (r: seq<DiffLine<T>>)
    ensures |r| == |s|
  {
    seq(|s|, k requires 0 <= k < |s| => DiffLine(op, s[k]))
  }

  /** The walk over the table. Where going on either way keeps as much, the left line goes first. */
  function Walk<T(==)>(x: seq<T>, y: seq<T>, i: nat, j: nat): seq<DiffLine<T>>
    requires i <= |x| && j <= |y|
    decreases |x| - i + |y| - j
  {
    if i < |x| && j < |y| then
      if x[i] == y[j] then [DiffLine(Same, x[i])] + Walk(x, y, i + 1, j + 1)
      else if Common(x, y, i + 1, j) >= Common(x, y, i, j + 1) then [DiffLine(Removed, x[i])] + Walk(x, y, i + 1, j)
      else [DiffLine(Added, y[j])] + Walk(x, y, i, j + 1)
    else Marked(Removed, x[i..]) + Marked(Added, y[j..])
  }

  function Cells(m: nat, n: nat): nat { (m + 1) * (n + 1) }

  function Prefix<T(==)>(x: seq<T>, y: seq<T>): (n: nat)
    ensures n <= |x| && n <= |y| && x[..n] == y[..n]
  {
    if x != [] && y != [] && x[0] == y[0] then
      var n := Prefix(x[1..], y[1..]);
      assert x[..n + 1] == [x[0]] + x[1..][..n] && y[..n + 1] == [y[0]] + y[1..][..n];
      n + 1
    else 0
  }

  function Suffix<T(==)>(x: seq<T>, y: seq<T>): (n: nat)
    ensures n <= |x| && n <= |y| && x[|x| - n..] == y[|y| - n..]
  {
    if x != [] && y != [] && x[|x| - 1] == y[|y| - 1] then
      var a, b := x[..|x| - 1], y[..|y| - 1];
      var n := Suffix(a, b);
      OneLonger(x, n);
      OneLonger(y, n);
      n + 1
    else 0
  }

  lemma OneLonger<T>(x: seq<T>, n: nat)
    requires n < |x|
    ensures var a := x[..|x| - 1]; x[|x| - (n + 1)..] == a[|a| - n..] + [x[|x| - 1]]
  {
  }

  /** The whole table within bounds, else that of the middle, else the middle as one block. */
  function Diff<T(==)>(x: seq<T>, y: seq<T>): seq<DiffLine<T>> {
    if Cells(|x|, |y|) <= MAXIMUM_DIFF_CELLS then Walk(x, y, 0, 0)
    else
      var p := Prefix(x, y);
      var s := Suffix(x[p..], y[p..]);
      var mx, my := x[p..|x| - s], y[p..|y| - s];
      Marked(Same, x[..p]) + Middle(mx, my) + Marked(Same, x[|x| - s..])
  }

  // Reading a difference

  /** The lines that are not of the other side alone. */
  function Side<T>(d: seq<DiffLine<T>>, other: LineOp): seq<T> {
    if d == [] then [] else (if d[0].op == other then [] else [d[0].text]) + Side(d[1..], other)
  }

  function Left<T>(d: seq<DiffLine<T>>): seq<T> { Side(d, Added) }
  function Right<T>(d: seq<DiffLine<T>>): seq<T> { Side(d, Removed) }

  function Kept<T>(d: seq<DiffLine<T>>): seq<T> {
    if d == [] then [] else (if d[0].op == Same then [d[0].text] else []) + Kept(d[1..])
  }

  lemma {:induction false} SideConcat<T>(d: seq<DiffLine<T>>, e: seq<DiffLine<T>>, other: LineOp)
    ensures Side(d + e, other) == Side(d, other) + Side(e, other)
    decreases |d|
  {
    if d == [] {
      assert d + e == e;
    } else {
      assert (d + e)[1..] == d[1..] + e;
      SideConcat(d[1..], e, other);
    }
  }

  lemma {:induction false} SideMarked<T>(op: LineOp, s: seq<T>, other: LineOp)
    ensures Side(Marked(op, s), other) == if op == other then [] else s
    decreases |s|
  {
    if s != [] {
      assert Marked(op, s)[1..] == Marked(op, s[1..]);
      SideMarked(op, s[1..], other);
      assert s == [s[0]] + s[1..];
    }
  }

  /** The walk from a place keeps what is left of both sides. */
  lemma {:induction false} WalkIsSound<T>(x: seq<T>, y: seq<T>, i: nat, j: nat)
    requires i <= |x| && j <= |y|
    ensures Left(Walk(x, y, i, j)) == x[i..] && Right(Walk(x, y, i, j)) == y[j..]
    decreases |x| - i + |y| - j
  {
    hide Common;
    if i < |x| && j < |y| {
      assert x[i..] == [x[i]] + x[i + 1..] && y[j..] == [y[j]] + y[j + 1..];
      var w := Walk(x, y, i, j);
      if x[i] == y[j] {
        WalkIsSound(x, y, i + 1, j + 1);
        assert w[1..] == Walk(x, y, i + 1, j + 1);
      } else if Common(x, y, i + 1, j) >= Common(x, y, i, j + 1) {
        WalkIsSound(x, y, i + 1, j);
        assert w[1..] == Walk(x, y, i + 1, j);
      } else {
        WalkIsSound(x, y, i, j + 1);
        assert w[1..] == Walk(x, y, i, j + 1);
      }
    } else {
      BlockIsSound(x[i..], y[j..]);
    }
  }

  lemma BlockIsSound<T>(x: seq<T>, y: seq<T>)
    ensures var d := Marked(Removed, x) + Marked(Added, y); Left(d) == x && Right(d) == y
  {
    SideConcat(Marked(Removed, x), Marked(Added, y), Added);
    SideConcat(Marked(Removed, x), Marked(Added, y), Removed);
    SideMarked(Removed, x, Added);
    SideMarked(Added, y, Added);
    SideMarked(Removed, x, Removed);
    SideMarked(Added, y, Removed);
    assert x + [] == x && [] + y == y;
  }

  /** The middle of two texts, as its table or as one block. */
  function Middle<T(==)>(x: seq<T>, y: seq<T>): seq<DiffLine<T>> {
    if Cells(|x|, |y|) <= MAXIMUM_DIFF_CELLS then Walk(x, y, 0, 0) else Marked(Removed, x) + Marked(Added, y)
  }

  lemma MiddleIsSound<T>(x: seq<T>, y: seq<T>)
    ensures Left(Middle(x, y)) == x && Right(Middle(x, y)) == y
  {
    hide Walk, Marked, Cells;
    WalkIsSound(x, y, 0, 0);
    BlockIsSound(x, y);
    assert x[0..] == x && y[0..] == y;
  }

  /** Both texts can be read off their difference, whatever their size. */
  lemma DiffIsSound<T>(x: seq<T>, y: seq<T>)
    ensures Left(Diff(x, y)) == x && Right(Diff(x, y)) == y
  {
    hide Middle, Marked, Cells, Prefix, Suffix, Left, Right;
    if Cells(|x|, |y|) <= MAXIMUM_DIFF_CELLS {
      MiddleIsSound(x, y);
      assert Diff(x, y) == Middle(x, y) by {
        WithinBounds(x, y);
      }
    } else {
      var p := Prefix(x, y);
      var s := Suffix(x[p..], y[p..]);
      var mx, my := x[p..|x| - s], y[p..|y| - s];
      MiddleIsSound(mx, my);
      Framed(x[..p], Middle(mx, my), x[|x| - s..]);
      Ends(x, p, s);
      Ends(y, p, s);
    }
  }

  lemma WithinBounds<T>(x: seq<T>, y: seq<T>)
    requires Cells(|x|, |y|) <= MAXIMUM_DIFF_CELLS
    ensures Diff(x, y) == Middle(x, y) == Walk(x, y, 0, 0)
  {
    hide Walk, Cells;
  }

  lemma Ends<T>(x: seq<T>, p: nat, s: nat)
    requires p + s <= |x|
    ensures x == x[..p] + x[p..|x| - s] + x[|x| - s..] && x[|x| - s..] == x[p..][|x[p..]| - s..]
  {
  }

  lemma Framed<T>(front: seq<T>, mid: seq<DiffLine<T>>, back: seq<T>)
    ensures var d := Marked(Same, front) + mid + Marked(Same, back);
      Left(d) == front + Left(mid) + back && Right(d) == front + Right(mid) + back
  {
    var a, c := Marked(Same, front), Marked(Same, back);
    SideConcat(a + mid, c, Added);
    SideConcat(a, mid, Added);
    SideConcat(a + mid, c, Removed);
    SideConcat(a, mid, Removed);
    SideMarked(Same, front, Added);
    SideMarked(Same, back, Added);
    SideMarked(Same, front, Removed);
    SideMarked(Same, back, Removed);
  }

  // Nothing longer is common

  predicate IsSubsequence<T(==)>(c: seq<T>, s: seq<T>) {
    || c == []
    || (s != [] && ((c[0] == s[0] && IsSubsequence(c[1..], s[1..])) || IsSubsequence(c, s[1..])))
  }

  lemma {:induction false} DropFirst<T>(c: seq<T>, s: seq<T>)
    requires c != [] && IsSubsequence(c, s)
    ensures s != [] && IsSubsequence(c[1..], s[1..]) && (c[0] != s[0] ==> IsSubsequence(c, s[1..]))
    decreases |s|
  {
    if !(c[0] == s[0] && IsSubsequence(c[1..], s[1..])) {
      DropFirst(c, s[1..]);
      Longer(c[1..], s[1..]);
    }
  }

  lemma {:induction false} Longer<T>(c: seq<T>, s: seq<T>)
    requires s != [] && IsSubsequence(c, s[1..])
    ensures IsSubsequence(c, s)
  {
  }

  lemma {:induction false} CommonIsLongest<T>(x: seq<T>, y: seq<T>, i: nat, j: nat, c: seq<T>)
    requires i <= |x| && j <= |y| && IsSubsequence(c, x[i..]) && IsSubsequence(c, y[j..])
    ensures |c| <= Common(x, y, i, j)
    decreases |x| - i + |y| - j
  {
    if c != [] {
      DropFirst(c, x[i..]);
      DropFirst(c, y[j..]);
      assert x[i..][1..] == x[i + 1..] && y[j..][1..] == y[j + 1..];
      if x[i] == y[j] {
        CommonIsLongest(x, y, i + 1, j + 1, c[1..]);
      } else if c[0] != x[i] {
        CommonIsLongest(x, y, i + 1, j, c);
      } else {
        CommonIsLongest(x, y, i, j + 1, c);
      }
    }
  }

  lemma {:induction false} KeptMarked<T>(op: LineOp, s: seq<T>)
    requires op != Same
    ensures Kept(Marked(op, s)) == []
    decreases |s|
  {
    if s != [] {
      assert Marked(op, s)[1..] == Marked(op, s[1..]);
      KeptMarked(op, s[1..]);
    }
  }

  lemma {:induction false} KeptConcat<T>(d: seq<DiffLine<T>>, e: seq<DiffLine<T>>)
    ensures Kept(d + e) == Kept(d) + Kept(e)
    decreases |d|
  {
    if d == [] {
      assert d + e == e;
    } else {
      assert (d + e)[1..] == d[1..] + e;
      KeptConcat(d[1..], e);
      var first := if d[0].op == Same then [d[0].text] else [];
      assert first + (Kept(d[1..]) + Kept(e)) == first + Kept(d[1..]) + Kept(e);
    }
  }

  lemma {:induction false} WalkKeeps<T>(x: seq<T>, y: seq<T>, i: nat, j: nat)
    requires i <= |x| && j <= |y|
    ensures |Kept(Walk(x, y, i, j))| == Common(x, y, i, j)
    decreases |x| - i + |y| - j
  {
    if i < |x| && j < |y| {
      var w := Walk(x, y, i, j);
      if x[i] == y[j] {
        WalkKeeps(x, y, i + 1, j + 1);
        assert w[1..] == Walk(x, y, i + 1, j + 1);
      } else if Common(x, y, i + 1, j) >= Common(x, y, i, j + 1) {
        WalkKeeps(x, y, i + 1, j);
        assert w[1..] == Walk(x, y, i + 1, j);
      } else {
        WalkKeeps(x, y, i, j + 1);
        assert w[1..] == Walk(x, y, i, j + 1);
      }
    } else {
      KeptMarked(Removed, x[i..]);
      KeptMarked(Added, y[j..]);
      KeptConcat(Marked(Removed, x[i..]), Marked(Added, y[j..]));
    }
  }

  lemma {:induction false} KeptIsCommon<T>(d: seq<DiffLine<T>>)
    ensures IsSubsequence(Kept(d), Left(d)) && IsSubsequence(Kept(d), Right(d))
    decreases |d|
  {
    if d != [] {
      KeptIsCommon(d[1..]);
      KeptStep(d, Added);
      KeptStep(d, Removed);
    }
  }

  lemma KeptStep<T>(d: seq<DiffLine<T>>, other: LineOp)
    requires d != [] && other != Same && IsSubsequence(Kept(d[1..]), Side(d[1..], other))
    ensures IsSubsequence(Kept(d), Side(d, other))
  {
    var k, s := Kept(d), Side(d, other);
    if d[0].op == Same {
      assert k[0] == s[0] && k[1..] == Kept(d[1..]) && s[1..] == Side(d[1..], other);
    } else {
      assert k == Kept(d[1..]);
      if d[0].op == other {
        assert s == Side(d[1..], other);
      } else {
        assert s[1..] == Side(d[1..], other);
      }
    }
  }

  // Trimming common ends loses nothing

  lemma {:induction false} DropFront<T>(c: seq<T>, x: seq<T>, p: nat)
    requires p <= |x| && IsSubsequence(c, x)
    ensures IsSubsequence(c[Least(p, |c|)..], x[p..])
    decreases p
  {
    if p == 0 {
      assert c[0..] == c && x[0..] == x;
    } else if c == [] {
    } else {
      DropFirst(c, x);
      DropFront(c[1..], x[1..], p - 1);
      assert c[1..][Least(p - 1, |c| - 1)..] == c[Least(p, |c|)..] && x[1..][p - 1..] == x[p..];
    }
  }

  function Least(a: nat, b: nat): nat { if a < b then a else b }

  lemma {:induction false} DropLast<T>(c: seq<T>, x: seq<T>)
    requires c != [] && IsSubsequence(c, x)
    ensures x != [] && IsSubsequence(c[..|c| - 1], x[..|x| - 1])
    decreases |x|
  {
    var d, y := c[..|c| - 1], x[..|x| - 1];
    if c[0] == x[0] && IsSubsequence(c[1..], x[1..]) {
      if |c| > 1 {
        DropLast(c[1..], x[1..]);
        assert d[1..] == c[1..][..|c| - 2] && y[1..] == x[1..][..|x| - 2];
        assert d[0] == y[0];
      }
    } else {
      DropLast(c, x[1..]);
      assert y[1..] == x[1..][..|x| - 2];
    }
  }

  lemma {:induction false} DropBack<T>(c: seq<T>, x: seq<T>, s: nat)
    requires s <= |x| && IsSubsequence(c, x)
    ensures IsSubsequence(c[..|c| - Least(s, |c|)], x[..|x| - s])
    decreases s
  {
    if s == 0 {
      assert c[..|c|] == c && x[..|x|] == x;
    } else if c == [] {
    } else {
      DropLast(c, x);
      var d, y := c[..|c| - 1], x[..|x| - 1];
      DropBack(d, y, s - 1);
      assert d[..|d| - Least(s - 1, |d|)] == c[..|c| - Least(s, |c|)] && y[..|y| - (s - 1)] == x[..|x| - s];
    }
  }

  /** A common subsequence less what the ends can hold is common to the middles. */
  lemma Trimmed<T>(c: seq<T>, x: seq<T>, p: nat, s: nat)
    requires p + s <= |x| && IsSubsequence(c, x)
    ensures var front := c[Least(p, |c|)..];
      IsSubsequence(front[..|front| - Least(s, |front|)], x[p..|x| - s])
  {
    hide IsSubsequence;
    DropFront(c, x, p);
    DropBack(c[Least(p, |c|)..], x[p..], s);
    assert x[p..][..|x[p..]| - s] == x[p..|x| - s];
  }

  lemma {:induction false} Extends<T>(a: seq<T>, b: seq<T>, c: seq<T>)
    requires IsSubsequence(b, c)
    ensures IsSubsequence(a + b, a + c)
    decreases |a|
  {
    if a == [] {
      assert a + b == b && a + c == c;
    } else {
      Extends(a[1..], b, c);
      assert (a + b)[1..] == a[1..] + b && (a + c)[1..] == a[1..] + c;
    }
  }

  lemma {:induction false} Reaches<T>(b: seq<T>, a: seq<T>, c: seq<T>)
    requires IsSubsequence(b, c)
    ensures IsSubsequence(b, a + c)
    decreases |a|
  {
    if a == [] {
      assert a + c == c;
    } else {
      Reaches(b, a[1..], c);
      assert (a + c)[1..] == a[1..] + c;
    }
  }

  lemma Itself<T>(a: seq<T>)
    ensures IsSubsequence(a, a)
  {
    Extends(a, [], []);
    assert a + [] == a;
  }

  predicate Share<T(==)>(x: seq<T>, y: seq<T>) { exists i, j :: 0 <= i < |x| && 0 <= j < |y| && x[i] == y[j] }

  lemma {:induction false} NothingShared<T>(x: seq<T>, y: seq<T>, c: seq<T>)
    requires !Share(x, y) && IsSubsequence(c, x) && IsSubsequence(c, y)
    ensures c == []
  {
    if c != [] {
      var i := Place(c, x);
      var j := Place(c, y);
    }
  }

  lemma {:induction false} Place<T>(c: seq<T>, x: seq<T>) returns (i: nat)
    requires c != [] && IsSubsequence(c, x)
    ensures i < |x| && x[i] == c[0]
    decreases |x|
  {
    if c[0] == x[0] {
      i := 0;
    } else {
      var k := Place(c, x[1..]);
      i := k + 1;
    }
  }

  lemma OneLine<T>(front: seq<T>, x: seq<T>, back: seq<T>, i: nat)
    requires i < |x|
    ensures IsSubsequence(front + [x[i]] + back, front + x + back)
  {
    Itself(back);
    Reaches(back, x[i + 1..], back);
    Extends([x[i]], back, x[i + 1..] + back);
    Reaches([x[i]] + back, x[..i], [x[i]] + (x[i + 1..] + back));
    assert x[..i] + ([x[i]] + (x[i + 1..] + back)) == x + back;
    Extends(front, [x[i]] + back, x + back);
    assert front + ([x[i]] + back) == front + [x[i]] + back && front + (x + back) == front + x + back;
  }

  // When the difference is longest

  ghost predicate Longest<T(!new)>(d: seq<DiffLine<T>>, x: seq<T>, y: seq<T>) {
    forall c :: IsSubsequence(c, x) && IsSubsequence(c, y) ==> |c| <= |Kept(d)|
  }

  /** The texts' middle, between their common ends. */
  function MiddleOf<T(==)>(x: seq<T>, y: seq<T>): (seq<T>, seq<T>) {
    var p := Prefix(x, y);
    var s := Suffix(x[p..], y[p..]);
    (x[p..|x| - s], y[p..|y| - s])
  }

  /** The table was walked, of the whole or of the middle. */
  predicate WithinTable<T(==)>(x: seq<T>, y: seq<T>) {
    var (mx, my) := MiddleOf(x, y);
    Cells(|x|, |y|) <= MAXIMUM_DIFF_CELLS || Cells(|mx|, |my|) <= MAXIMUM_DIFF_CELLS
  }

  lemma KeptFramed<T>(front: seq<T>, mid: seq<DiffLine<T>>, back: seq<T>)
    ensures |Kept(Marked(Same, front) + mid + Marked(Same, back))| == |front| + |Kept(mid)| + |back|
  {
    KeptConcat(Marked(Same, front) + mid, Marked(Same, back));
    KeptConcat(Marked(Same, front), mid);
    KeptSame(front);
    KeptSame(back);
  }

  lemma {:induction false} KeptSame<T>(s: seq<T>)
    ensures Kept(Marked(Same, s)) == s
    decreases |s|
  {
    if s != [] {
      assert Marked(Same, s)[1..] == Marked(Same, s[1..]);
      KeptSame(s[1..]);
      assert s == [s[0]] + s[1..];
    }
  }

  /**
    The kept lines are common to both texts. Nothing longer is common to both if
    and only if a table was walked or the texts' middles share no line.
  */
  lemma DiffIsLongest<T(!new)>(x: seq<T>, y: seq<T>)
    ensures IsSubsequence(Kept(Diff(x, y)), x) && IsSubsequence(Kept(Diff(x, y)), y)
    ensures Longest(Diff(x, y), x, y) <==> WithinTable(x, y) || !Share(MiddleOf(x, y).0, MiddleOf(x, y).1)
  {
    hide Cells, Walk, Diff, Kept, Longest, Share, MiddleOf;
    DiffIsSound(x, y);
    KeptIsCommon(Diff(x, y));
    if Cells(|x|, |y|) <= MAXIMUM_DIFF_CELLS {
      WholeIsLongest(x, y);
    } else {
      MiddleDecides(x, y);
    }
  }

  lemma WholeIsLongest<T(!new)>(x: seq<T>, y: seq<T>)
    requires Cells(|x|, |y|) <= MAXIMUM_DIFF_CELLS
    ensures Longest(Diff(x, y), x, y)
  {
    hide Cells, Walk, Common;
    WithinBounds(x, y);
    WalkKeeps(x, y, 0, 0);
    assert x[0..] == x && y[0..] == y;
    forall c | IsSubsequence(c, x) && IsSubsequence(c, y) ensures |c| <= |Kept(Diff(x, y))| {
      CommonIsLongest(x, y, 0, 0, c);
    }
  }

  lemma MiddleDecides<T(!new)>(x: seq<T>, y: seq<T>)
    requires Cells(|x|, |y|) > MAXIMUM_DIFF_CELLS
    ensures var (mx, my) := MiddleOf(x, y);
      Longest(Diff(x, y), x, y) <==> Cells(|mx|, |my|) <= MAXIMUM_DIFF_CELLS || !Share(mx, my)
  {
    hide Cells, Walk, Common, Prefix, Suffix, Middle, Marked, Share, IsSubsequence, Kept, Longest;
    var p := Prefix(x, y);
    var s := Suffix(x[p..], y[p..]);
    var mx, my := x[p..|x| - s], y[p..|y| - s];
    KeptFramed(x[..p], Middle(mx, my), x[|x| - s..]);
    Ends(x, p, s);
    Ends(y, p, s);
    var kept := |Kept(Middle(mx, my))|;
    if Cells(|mx|, |my|) <= MAXIMUM_DIFF_CELLS || !Share(mx, my) {
      FramedIsLongest(Diff(x, y), x, y, p, s);
    } else {
      FramedIsShort(Diff(x, y), x, y, p, s);
    }
  }

  lemma FramedIsLongest<T(!new)>(d: seq<DiffLine<T>>, x: seq<T>, y: seq<T>, p: nat, s: nat)
    requires p + s <= |x| && p + s <= |y|
    requires var (mx, my) := (x[p..|x| - s], y[p..|y| - s]);
      && |Kept(d)| == p + |Kept(Middle(mx, my))| + s
      && (Cells(|mx|, |my|) <= MAXIMUM_DIFF_CELLS || !Share(mx, my))
    ensures Longest(d, x, y)
  {
    hide Cells, Middle, Share, IsSubsequence, Kept;
    forall c | IsSubsequence(c, x) && IsSubsequence(c, y) ensures |c| <= |Kept(d)| {
      Trimmed(c, x, p, s);
      Trimmed(c, y, p, s);
      var front := c[Least(p, |c|)..];
      MiddleBound(x[p..|x| - s], y[p..|y| - s], front[..|front| - Least(s, |front|)]);
    }
  }

  lemma FramedIsShort<T(!new)>(d: seq<DiffLine<T>>, x: seq<T>, y: seq<T>, p: nat, s: nat)
    requires p + s <= |x| && p + s <= |y| && x[..p] == y[..p] && x[|x| - s..] == y[|y| - s..]
    requires var (mx, my) := (x[p..|x| - s], y[p..|y| - s]);
      && |Kept(d)| == p + |Kept(Middle(mx, my))| + s
      && Cells(|mx|, |my|) > MAXIMUM_DIFF_CELLS && Share(mx, my)
    ensures !Longest(d, x, y)
  {
    hide Cells, Middle, Share, IsSubsequence, Kept;
    var c := SharedLine(x, y, p, s);
    BlockKeepsNothing(x[p..|x| - s], y[p..|y| - s]);
  }

  lemma MiddleBound<T(!new)>(x: seq<T>, y: seq<T>, c: seq<T>)
    requires Cells(|x|, |y|) <= MAXIMUM_DIFF_CELLS || !Share(x, y)
    requires IsSubsequence(c, x) && IsSubsequence(c, y)
    ensures |c| <= |Kept(Middle(x, y))|
  {
    hide Cells, Walk, Common;
    if Cells(|x|, |y|) <= MAXIMUM_DIFF_CELLS {
      WalkKeeps(x, y, 0, 0);
      assert x[0..] == x && y[0..] == y;
      CommonIsLongest(x, y, 0, 0, c);
    } else {
      NothingShared(x, y, c);
    }
  }

  lemma BlockKeepsNothing<T>(x: seq<T>, y: seq<T>)
    requires Cells(|x|, |y|) > MAXIMUM_DIFF_CELLS
    ensures Kept(Middle(x, y)) == []
  {
    KeptMarked(Removed, x);
    KeptMarked(Added, y);
    KeptConcat(Marked(Removed, x), Marked(Added, y));
  }

  lemma SharedLine<T(!new)>(x: seq<T>, y: seq<T>, p: nat, s: nat) returns (c: seq<T>)
    requires p + s <= |x| && p + s <= |y| && x[..p] == y[..p] && x[|x| - s..] == y[|y| - s..]
    requires Share(x[p..|x| - s], y[p..|y| - s])
    ensures IsSubsequence(c, x) && IsSubsequence(c, y) && |c| == p + 1 + s
  {
    var mx, my := x[p..|x| - s], y[p..|y| - s];
    var i, j :| 0 <= i < |mx| && 0 <= j < |my| && mx[i] == my[j];
    c := x[..p] + [mx[i]] + x[|x| - s..];
    OneLine(x[..p], mx, x[|x| - s..], i);
    OneLine(y[..p], my, y[|y| - s..], j);
    Ends(x, p, s);
    Ends(y, p, s);
  }

  /** Two texts of 1,102 lines with 1,100 lines in common, of which the difference keeps none. */
  lemma LongTextsKeepNothing()
    ensures var same := seq(1100, _ => "same");
      var (x, y) := (["a"] + same + ["b"], ["c"] + same + ["d"]);
      Kept(Diff(x, y)) == [] && !Longest(Diff(x, y), x, y)
  {
    hide Longest, Share, Kept, Middle, Walk;
    var same := seq(1100, _ => "same");
    var x, y := ["a"] + same + ["b"], ["c"] + same + ["d"];
    assert Prefix(x, y) == 0 && x[0..] == x && y[0..] == y && Suffix(x, y) == 0;
    assert x[0..|x| - 0] == x && y[0..|y| - 0] == y;
    assert Share(x, y) by {
      OneShared(x, y, 1, 1);
    }
    DiffIsLongest(x, y);
    KeptFramed(x[..0], Middle(x, y), x[|x|..]);
    BlockKeepsNothing(x, y);
  }

  lemma OneShared<T>(x: seq<T>, y: seq<T>, i: nat, j: nat)
    requires i < |x| && j < |y| && x[i] == y[j]
    ensures Share(x, y)
  {
  }

  // Which of two ways is taken

  /** No addition stands directly before a removal. */
  predicate RemovalsFirst<T>(d: seq<DiffLine<T>>) {
    forall k :: 0 <= k < |d| - 1 && d[k].op == Added ==> d[k + 1].op != Removed
  }

  lemma RemovalsJoin<T>(a: seq<DiffLine<T>>, b: seq<DiffLine<T>>)
    requires RemovalsFirst(a) && RemovalsFirst(b)
    requires a != [] && b != [] && a[|a| - 1].op == Added ==> b[0].op != Removed
    ensures RemovalsFirst(a + b)
  {
    var d := a + b;
    forall k | 0 <= k < |d| - 1 && d[k].op == Added ensures d[k + 1].op != Removed {
      if k < |a| - 1 {
        assert a[k + 1] == d[k + 1];
      } else if k >= |a| {
        assert b[k - |a|] == d[k] && b[k - |a| + 1] == d[k + 1];
      }
    }
  }

  lemma CommonShrinks<T>(x: seq<T>, y: seq<T>, i: nat, j: nat)
    requires i <= |x| && j < |y|
    ensures Common(x, y, i, j + 1) <= Common(x, y, i, j)
  {
    hide Common, Walk, Left, Right, Kept, IsSubsequence;
    var w := Walk(x, y, i, j + 1);
    WalkKeeps(x, y, i, j + 1);
    WalkIsSound(x, y, i, j + 1);
    KeptIsCommon(w);
    assert y[j..][1..] == y[j + 1..];
    Longer(Kept(w), y[j..]);
    CommonIsLongest(x, y, i, j, Kept(w));
  }

  /** After an addition the walk does not go on with a removal. */
  lemma AddedGoesOn<T>(x: seq<T>, y: seq<T>, i: nat, j: nat)
    requires i < |x| && j < |y| && x[i] != y[j] && Common(x, y, i + 1, j) < Common(x, y, i, j + 1)
    ensures var w := Walk(x, y, i, j + 1); w != [] && w[0].op != Removed
  {
    CommonShrinks(x, y, i + 1, j);
    if j + 1 < |y| {
      Cell(x, y, i, j + 1);
      WalkStep(x, y, i, j + 1);
    }
  }

  lemma {:induction false} WalkRemovesFirst<T>(x: seq<T>, y: seq<T>, i: nat, j: nat)
    requires i <= |x| && j <= |y|
    ensures RemovalsFirst(Walk(x, y, i, j))
    decreases |x| - i + |y| - j
  {
    hide Common, RemovalsFirst;
    if i < |x| && j < |y| {
      WalkStep(x, y, i, j);
      if x[i] == y[j] {
        hide Walk;
        WalkRemovesFirst(x, y, i + 1, j + 1);
        OneRemovesFirst(DiffLine(Same, x[i]));
        RemovalsJoin([DiffLine(Same, x[i])], Walk(x, y, i + 1, j + 1));
      } else if Common(x, y, i + 1, j) >= Common(x, y, i, j + 1) {
        hide Walk;
        WalkRemovesFirst(x, y, i + 1, j);
        OneRemovesFirst(DiffLine(Removed, x[i]));
        RemovalsJoin([DiffLine(Removed, x[i])], Walk(x, y, i + 1, j));
      } else {
        hide Walk;
        WalkRemovesFirst(x, y, i, j + 1);
        AddedGoesOn(x, y, i, j);
        OneRemovesFirst(DiffLine(Added, y[j]));
        RemovalsJoin([DiffLine(Added, y[j])], Walk(x, y, i, j + 1));
      }
    } else {
      WalkRest(x, y, i, j);
      BlockRemovesFirst(x[i..], y[j..]);
    }
  }

  lemma OneRemovesFirst<T>(d: DiffLine<T>)
    ensures RemovalsFirst([d])
  {
  }

  lemma BlockRemovesFirst<T>(x: seq<T>, y: seq<T>)
    ensures RemovalsFirst(Marked(Removed, x) + Marked(Added, y))
  {
  }

  lemma FramedRemovesFirst<T>(front: seq<T>, mid: seq<DiffLine<T>>, back: seq<T>)
    requires RemovalsFirst(mid)
    ensures RemovalsFirst(Marked(Same, front) + mid + Marked(Same, back))
  {
    RemovalsJoin(Marked(Same, front), mid);
    RemovalsJoin(Marked(Same, front) + mid, Marked(Same, back));
  }

  /** Where lines differ, those of the left text come first. */
  lemma DiffRemovesFirst<T>(x: seq<T>, y: seq<T>)
    ensures RemovalsFirst(Diff(x, y))
  {
    hide Cells, Walk, Prefix, Suffix, Marked, RemovalsFirst;
    if Cells(|x|, |y|) <= MAXIMUM_DIFF_CELLS {
      WithinBounds(x, y);
      WalkRemovesFirst(x, y, 0, 0);
    } else {
      var p := Prefix(x, y);
      var s := Suffix(x[p..], y[p..]);
      var mx, my := x[p..|x| - s], y[p..|y| - s];
      WalkRemovesFirst(mx, my, 0, 0);
      BlockRemovesFirst(mx, my);
      FramedRemovesFirst(x[..p], Middle(mx, my), x[|x| - s..]);
    }
  }

  // The matching of two texts

  /** For each left line of a difference, the right line it is kept as, counted from `j`. */
  function MatchFrom<T>(d: seq<DiffLine<T>>, j: nat): seq<Option<nat>> {
    if d == [] then []
    else match d[0].op
      case Same => [Some(j)] + MatchFrom(d[1..], j + 1)
      case Removed => [None] + MatchFrom(d[1..], j)
      case Added => MatchFrom(d[1..], j + 1)
  }

  function Matching<T(==)>(a: seq<T>, b: seq<T>): seq<Option<nat>> { MatchFrom(Diff(a, b), 0) }

  /** One place for each line of `a`; matched lines are equal, and in the same order in both texts. */
  ghost predicate Matches<T>(a: seq<T>, b: seq<T>, m: seq<Option<nat>>) {
    && |m| == |a|
    && (forall k :: 0 <= k < |a| && m[k].Some? ==> m[k].value < |b| && b[m[k].value] == a[k])
    && (forall k, l :: 0 <= k < l < |a| && m[k].Some? && m[l].Some? ==> m[k].value < m[l].value)
  }

  /** Over the left lines `a`, the right lines `b` and `j` lines before them. */
  ghost predicate MatchesAt<T>(a: seq<T>, b: seq<T>, j: nat, m: seq<Option<nat>>) {
    && |m| == |a|
    && (forall k :: 0 <= k < |a| && m[k].Some? ==> j <= m[k].value < j + |b| && b[m[k].value - j] == a[k])
    && (forall k, l :: 0 <= k < l < |a| && m[k].Some? && m[l].Some? ==> m[k].value < m[l].value)
  }

  lemma {:induction false} MatchFromIsSound<T>(d: seq<DiffLine<T>>, j: nat)
    ensures MatchesAt(Left(d), Right(d), j, MatchFrom(d, j))
    decreases |d|
  {
    if d != [] {
      hide MatchesAt;
      var e, t := d[1..], d[0].text;
      match d[0].op
      case Same =>
        MatchFromIsSound(e, j + 1);
        OneMatched(t, Left(e), Right(e), j, MatchFrom(e, j + 1));
      case Removed =>
        MatchFromIsSound(e, j);
        OneUnmatched(t, Left(e), Right(e), j, MatchFrom(e, j));
      case Added =>
        MatchFromIsSound(e, j + 1);
        OnePassed(t, Left(e), Right(e), j, MatchFrom(e, j + 1));
    } else {
      assert Left(d) == [] && MatchFrom(d, j) == [];
    }
  }

  lemma OneMatched<T>(t: T, a: seq<T>, b: seq<T>, j: nat, m: seq<Option<nat>>)
    requires MatchesAt(a, b, j + 1, m)
    ensures MatchesAt([t] + a, [t] + b, j, [Some(j)] + m)
  {
    forall k | 0 <= k < |a| && m[k].Some?
      ensures m[k].value - j < |b| + 1 && ([t] + b)[m[k].value - j] == a[k]
    {
      assert ([t] + b)[m[k].value - j] == b[m[k].value - (j + 1)];
    }
  }

  lemma OneUnmatched<T>(t: T, a: seq<T>, b: seq<T>, j: nat, m: seq<Option<nat>>)
    requires MatchesAt(a, b, j, m)
    ensures MatchesAt([t] + a, b, j, [None] + m)
  {
  }

  lemma OnePassed<T>(t: T, a: seq<T>, b: seq<T>, j: nat, m: seq<Option<nat>>)
    requires MatchesAt(a, b, j + 1, m)
    ensures MatchesAt(a, [t] + b, j, m)
  {
    forall k | 0 <= k < |a| && m[k].Some?
      ensures m[k].value - j < |b| + 1 && ([t] + b)[m[k].value - j] == a[k]
    {
      assert ([t] + b)[m[k].value - j] == b[m[k].value - (j + 1)];
    }
  }

  lemma MatchingIsSound<T>(a: seq<T>, b: seq<T>)
    ensures Matches(a, b, Matching(a, b))
  {
    hide Diff;
    DiffIsSound(a, b);
    MatchFromIsSound(Diff(a, b), 0);
  }

  // A text against itself

  lemma {:induction false} WalkOfItself<T>(a: seq<T>, i: nat)
    requires i <= |a|
    ensures Walk(a, a, i, i) == Marked(Same, a[i..])
    decreases |a| - i
  {
    if i < |a| {
      WalkOfItself(a, i + 1);
      assert a[i..][1..] == a[i + 1..];
    }
  }

  lemma {:induction false} PrefixOfItself<T>(a: seq<T>)
    ensures Prefix(a, a) == |a|
    decreases |a|
  {
    if a != [] {
      PrefixOfItself(a[1..]);
    }
  }

  lemma DiffOfItself<T>(a: seq<T>)
    ensures Diff(a, a) == Marked(Same, a)
  {
    hide Cells, Walk, Prefix, Suffix, Middle, Marked, Diff;
    if Cells(|a|, |a|) <= MAXIMUM_DIFF_CELLS {
      WithinBounds(a, a);
      WalkOfItself(a, 0);
      assert a[0..] == a;
    } else {
      PrefixOfItself(a);
      assert a[..|a|] == a && a[|a|..] == [];
      NothingBetween(a);
    }
  }

  lemma NothingBetween<T>(a: seq<T>)
    requires Prefix(a, a) == |a| && Cells(|a|, |a|) > MAXIMUM_DIFF_CELLS
    ensures Diff(a, a) == Marked(Same, a)
  {
    hide Cells, Prefix, Walk, Middle, Suffix, Marked;
    NothingLeft<T>();
    var none := a[|a|..];
    assert none == [] && a[|a|..|a|] == [] && a[..|a|] == a;
    assert Diff(a, a) == Marked(Same, a) + [] + [];
  }

  lemma NothingLeft<T>()
    ensures Middle<T>([], []) == [] && Suffix<T>([], []) == 0 && Marked<T>(Same, []) == []
  {
  }

  lemma {:induction false} MatchFromSame<T>(a: seq<T>, j: nat)
    ensures MatchFrom(Marked(Same, a), j) == seq(|a|, k requires 0 <= k < |a| => Some(j + k))
    decreases |a|
  {
    if a != [] {
      assert Marked(Same, a)[1..] == Marked(Same, a[1..]);
      MatchFromSame(a[1..], j + 1);
    }
  }

  /** Each line of a text is matched with itself. */
  lemma MatchingOfItself<T>(a: seq<T>)
    ensures Matching(a, a) == seq(|a|, k requires 0 <= k < |a| => Some(k))
  {
    hide Diff, Marked;
    DiffOfItself(a);
    MatchFromSame(a, 0);
  }

  // The loops

  /** The cells from row `i` on are those of `Common`. */
  ghost predicate Filled<T>(table: array2<nat>, x: seq<T>, y: seq<T>, i: nat)
    reads table
  {
    && table.Length0 == |x| + 1 && table.Length1 == |y| + 1
    && (forall a, b :: i <= a <= |x| && 0 <= b <= |y| ==> table[a, b] == Common(x, y, a, b))
    && (forall a :: 0 <= a <= |x| ==> table[a, |y|] == 0)
  }

  /** The table, filled from its far corner. */
  method FillTable<T(==)>(x: seq<T>, y: seq<T>) returns (table: array2<nat>)
    ensures fresh(table) && Filled(table, x, y, 0)
  {
    table := new nat[|x| + 1, |y| + 1]((_, _) => 0);
    for i := |x| downto 0
      invariant Filled(table, x, y, i)
    {
      FillRow(table, x, y, i);
    }
  }

  method FillRow<T(==)>(table: array2<nat>, x: seq<T>, y: seq<T>, i: nat)
    requires i < |x| && Filled(table, x, y, i + 1)
    modifies table
    ensures Filled(table, x, y, i)
  {
    hide Common;
    Border(x, y, i);
    for j := |y| downto 0
      invariant Filled(table, x, y, i + 1)
      invariant forall b :: j <= b <= |y| ==> table[i, b] == Common(x, y, i, b)
    {
      Cell(x, y, i, j);
      table[i, j] := if x[i] == y[j] then table[i + 1, j + 1] + 1 else Max(table[i + 1, j], table[i, j + 1]);
    }
  }

  lemma Border<T>(x: seq<T>, y: seq<T>, a: nat)
    ensures Common(x, y, a, |y|) == 0
  {
  }

  lemma Cell<T>(x: seq<T>, y: seq<T>, i: nat, j: nat)
    requires i < |x| && j < |y|
    ensures x[i] == y[j] ==> Common(x, y, i, j) == Common(x, y, i + 1, j + 1) + 1
    ensures x[i] != y[j] ==> Common(x, y, i, j) == Max(Common(x, y, i + 1, j), Common(x, y, i, j + 1))
  {
  }

  /** The walk over the table. */
  method TableDiff<T(==)>(x: seq<T>, y: seq<T>) returns (out: seq<DiffLine<T>>)
    ensures out == Walk(x, y, 0, 0)
  {
    hide Walk, Common, Marked;
    var table := FillTable(x, y);
    out := [];
    var i, j := 0, 0;
    while i < |x| && j < |y|
      invariant Filled(table, x, y, 0)
      invariant i <= |x| && j <= |y| && out + Walk(x, y, i, j) == Walk(x, y, 0, 0)
    {
      WalkStep(x, y, i, j);
      if x[i] == y[j] {
        Moved(out, DiffLine(Same, x[i]), Walk(x, y, i + 1, j + 1));
        out := out + [DiffLine(Same, x[i])];
        i, j := i + 1, j + 1;
      } else if table[i + 1, j] >= table[i, j + 1] {
        Moved(out, DiffLine(Removed, x[i]), Walk(x, y, i + 1, j));
        out := out + [DiffLine(Removed, x[i])];
        i := i + 1;
      } else {
        Moved(out, DiffLine(Added, y[j]), Walk(x, y, i, j + 1));
        out := out + [DiffLine(Added, y[j])];
        j := j + 1;
      }
    }
    WalkRest(x, y, i, j);
    out := out + (Marked(Removed, x[i..]) + Marked(Added, y[j..]));
  }

  lemma Moved<A>(out: seq<A>, first: A, rest: seq<A>)
    ensures out + [first] + rest == out + ([first] + rest)
  {
  }

  lemma WalkStep<T>(x: seq<T>, y: seq<T>, i: nat, j: nat)
    requires i < |x| && j < |y|
    ensures Walk(x, y, i, j) ==
      if x[i] == y[j] then [DiffLine(Same, x[i])] + Walk(x, y, i + 1, j + 1)
      else if Common(x, y, i + 1, j) >= Common(x, y, i, j + 1) then [DiffLine(Removed, x[i])] + Walk(x, y, i + 1, j)
      else [DiffLine(Added, y[j])] + Walk(x, y, i, j + 1)
  {
  }

  lemma WalkRest<T>(x: seq<T>, y: seq<T>, i: nat, j: nat)
    requires i <= |x| && j <= |y| && (i == |x| || j == |y|)
    ensures Walk(x, y, i, j) == Marked(Removed, x[i..]) + Marked(Added, y[j..])
  {
  }

  method DiffLines<T(==)>(x: seq<T>, y: seq<T>) returns (out: seq<DiffLine<T>>)
    ensures out == Diff(x, y)
  {
    hide Cells, Walk, Prefix, Suffix, Marked;
    if Cells(|x|, |y|) <= MAXIMUM_DIFF_CELLS {
      out := TableDiff(x, y);
      return;
    }
    var p := Prefix(x, y);
    var s := Suffix(x[p..], y[p..]);
    var mx, my := x[p..|x| - s], y[p..|y| - s];
    out := Marked(Same, x[..p]);
    if Cells(|mx|, |my|) <= MAXIMUM_DIFF_CELLS {
      var mid := TableDiff(mx, my);
      out := out + mid;
    } else {
      out := out + (Marked(Removed, mx) + Marked(Added, my));
    }
    out := out + Marked(Same, x[|x| - s..]);
  }

  method MatchLines<T(==)>(a: seq<T>, b: seq<T>) returns (matched: array<Option<nat>>)
    ensures fresh(matched) && matched[..] == Matching(a, b)
  {
    hide Diff, MatchFrom, Left;
    matched := new Option<nat>[|a|](_ => None);
    var d := DiffLines(a, b);
    DiffIsSound(a, b);
    var i, j := 0, 0;
    assert d[0..] == d;
    for k := 0 to |d|
      invariant i + |Left(d[k..])| == |a|
      invariant forall l :: i <= l < |a| ==> matched[l] == None
      invariant matched[..i] + MatchFrom(d[k..], j) == Matching(a, b)
    {
      MatchStep(d, k, j, matched[..i]);
      match d[k].op
      case Same =>
        matched[i] := Some(j);
        assert matched[..i + 1] == matched[..i] + [Some(j)];
        i, j := i + 1, j + 1;
      case Removed =>
        assert matched[..i + 1] == matched[..i] + [None];
        i := i + 1;
      case Added => j := j + 1;
    }
    MatchEnd(d, j);
    assert matched[..i] + [] == matched[..];
  }

  lemma MatchStep<T>(d: seq<DiffLine<T>>, k: nat, j: nat, done: seq<Option<nat>>)
    requires k < |d|
    ensures var (now, rest) := (d[k..], d[k + 1..]);
      match d[k].op
      case Same =>
        |Left(now)| == |Left(rest)| + 1 && done + MatchFrom(now, j) == done + [Some(j)] + MatchFrom(rest, j + 1)
      case Removed =>
        |Left(now)| == |Left(rest)| + 1 && done + MatchFrom(now, j) == done + [None] + MatchFrom(rest, j)
      case Added => |Left(now)| == |Left(rest)| && MatchFrom(now, j) == MatchFrom(rest, j + 1)
  {
    assert d[k..][1..] == d[k + 1..];
  }

  lemma MatchEnd<T>(d: seq<DiffLine<T>>, j: nat)
    ensures Left(d[|d|..]) == [] && MatchFrom(d[|d|..], j) == []
  {
  }
}

/**
  Merging two descendants of a text by lines. The three texts are pieced apart
  along the base lines that both descendants still have. What lies between two
  such lines is settled by itself, and where it cannot be settled both versions
  are put out between markers and listed as a hunk.
*/
module LineMerge {
  import opened Wrappers
  import opened LineDiff

  const OPEN := "<<<<<<< "
  const SEPARATOR := "======="
  const CLOSE := ">>>>>>> "

  datatype Labels = Labels(ours: string, theirs: string)

  datatype Hunk = Hunk(line: nat, ours: seq<string>, theirs: seq<string>)

  datatype TextMerge = TextMerge(text: string, hunks: seq<Hunk>)

  // Texts and lines

  /** The pieces between newlines: one more than there are newlines. */
  function Lines(text: string): (ls: seq<string>)
    ensures ls != []
  {
    if text == "" then [""]
    else
      var ls := Lines(text[1..]);
      if text[0] == '\n' then [""] + ls else [[text[0]] + ls[0]] + ls[1..]
  }

  function Join(ls: seq<string>): string {
    if ls == [] then "" else if |ls| == 1 then ls[0] else ls[0] + "\n" + Join(ls[1..])
  }

  predicate Unbroken(s: string) { '\n' !in s }

  predicate AreLines(ls: seq<string>) { forall k :: 0 <= k < |ls| ==> Unbroken(ls[k]) }

  /** A text is its lines joined. */
  lemma {:induction false} JoinLines(text: string)
    ensures Join(Lines(text)) == text && AreLines(Lines(text))
    decreases |text|
  {
    if text != "" {
      var ls := Lines(text[1..]);
      JoinLines(text[1..]);
      if text[0] == '\n' {
        assert ([""] + ls)[1..] == ls;
        assert Join([""] + ls) == "" + "\n" + text[1..];
      } else {
        var first := [text[0]] + ls[0];
        assert ([first] + ls[1..])[1..] == ls[1..];
        assert text == [text[0]] + text[1..];
        if |ls| == 1 {
          assert Join([first] + ls[1..]) == first;
        } else {
          assert first + "\n" + Join(ls[1..]) == [text[0]] + (ls[0] + "\n" + Join(ls[1..]));
        }
      }
    }
  }

  lemma {:induction false} LinesOfLine(s: string)
    requires Unbroken(s)
    ensures Lines(s) == [s]
    decreases |s|
  {
    if s != "" {
      LinesOfLine(s[1..]);
      assert s == [s[0]] + s[1..];
    }
  }

  lemma {:induction false} LinesConcatenate(s: string, rest: string)
    ensures Lines(s + "\n" + rest) == Lines(s) + Lines(rest)
    decreases |s|
  {
    var t := s + "\n" + rest;
    if s == "" {
      assert t[1..] == rest;
    } else {
      assert t[1..] == s[1..] + "\n" + rest;
      LinesConcatenate(s[1..], rest);
    }
  }

  /** Joined pieces are the lines of their text if and only if none holds a newline. */
  lemma {:induction false} LinesJoin(ls: seq<string>)
    requires ls != []
    ensures Lines(Join(ls)) == ls <==> AreLines(ls)
    decreases |ls|
  {
    if AreLines(ls) {
      if |ls| == 1 {
        LinesOfLine(ls[0]);
        assert ls == [ls[0]];
      } else {
        LinesJoin(ls[1..]);
        LinesConcatenate(ls[0], Join(ls[1..]));
        LinesOfLine(ls[0]);
        assert ls == [ls[0]] + ls[1..];
      }
    } else {
      JoinLines(Join(ls));
    }
  }

  // The pieces of a merge

  /** A base line both sides kept, or what lies between two such lines. */
  datatype Piece = Stable(line: string) | Chunk(base: seq<string>, ours: seq<string>, theirs: seq<string>)

  datatype Texts = Texts(b: seq<string>, o: seq<string>, t: seq<string>, mo: seq<Option<nat>>, mt: seq<Option<nat>>)

  ghost predicate Matched(x: Texts) { Matches(x.b, x.o, x.mo) && Matches(x.b, x.t, x.mt) }

  /** Up to base line `k` everything was cut off, and since `bi`, `oi` and `ti` nothing. */
  ghost predicate Cut(x: Texts, k: nat, bi: nat, oi: nat, ti: nat) {
    && Matched(x) && bi <= k <= |x.b| && oi <= |x.o| && ti <= |x.t|
  }

  predicate Anchors(x: Texts, k: nat, oi: nat, ti: nat)
    requires k < |x.mo| && k < |x.mt|
  {
    x.mo[k].Some? && x.mt[k].Some? && oi <= x.mo[k].value && ti <= x.mt[k].value
  }

  ghost function Pieces(x: Texts, k: nat, bi: nat, oi: nat, ti: nat): seq<Piece>
    requires Cut(x, k, bi, oi, ti)
    decreases |x.b| - k
  {
    if k == |x.b| then [Chunk(x.b[bi..], x.o[oi..], x.t[ti..])]
    else if Anchors(x, k, oi, ti) then
      var (o, t) := (x.mo[k].value, x.mt[k].value);
      [Chunk(x.b[bi..k], x.o[oi..o], x.t[ti..t]), Stable(x.b[k])] + Pieces(x, k + 1, k + 1, o + 1, t + 1)
    else Pieces(x, k + 1, bi, oi, ti)
  }

  // What a piece becomes

  predicate Conflicts(p: Piece) {
    p.Chunk? && p.ours != p.base && p.theirs != p.base && p.ours != p.theirs
  }

  function Block(ours: seq<string>, theirs: seq<string>, labels: Labels): seq<string> {
    [OPEN + labels.ours] + ours + [SEPARATOR] + theirs + [CLOSE + labels.theirs]
  }

  function PieceLines(p: Piece, labels: Labels): seq<string> {
    match p
    case Stable(line) => [line]
    case Chunk(b, o, t) => if o == b then t else if t == b || o == t then o else Block(o, t, labels)
  }

  function PieceHunks(p: Piece, at: nat): seq<Hunk> {
    if Conflicts(p) then [Hunk(at + 1, p.ours, p.theirs)] else []
  }

  function Out(ps: seq<Piece>, labels: Labels): seq<string> {
    if ps == [] then [] else PieceLines(ps[0], labels) + Out(ps[1..], labels)
  }

  function Hunks(ps: seq<Piece>, labels: Labels, at: nat): seq<Hunk> {
    if ps == [] then [] else PieceHunks(ps[0], at) + Hunks(ps[1..], labels, at + |PieceLines(ps[0], labels)|)
  }

  function TextsOf(base: string, ours: string, theirs: string): Texts {
    var (b, o, t) := (Lines(base), Lines(ours), Lines(theirs));
    Texts(b, o, t, Matching(b, o), Matching(b, t))
  }

  lemma TextsMatched(base: string, ours: string, theirs: string)
    ensures Matched(TextsOf(base, ours, theirs))
  {
    hide Lines, Matching, Matches;
    MatchingIsSound(Lines(base), Lines(ours));
    MatchingIsSound(Lines(base), Lines(theirs));
  }

  ghost function PiecesOf(base: string, ours: string, theirs: string): seq<Piece> {
    TextsMatched(base, ours, theirs);
    Pieces(TextsOf(base, ours, theirs), 0, 0, 0, 0)
  }

  ghost function Merged(base: string, ours: string, theirs: string, labels: Labels): TextMerge {
    var ps := PiecesOf(base, ours, theirs);
    TextMerge(Join(Out(ps, labels)), Hunks(ps, labels, 0))
  }

  // The loop

  method Merge3(base: string, ours: string, theirs: string, labels: Labels) returns (m: TextMerge)
    ensures m == Merged(base, ours, theirs, labels)
  {
    hide Lines, Matching, Matches, Pieces, Out, Hunks, Join;
    TextsMatched(base, ours, theirs);
    var b, o, t := Lines(base), Lines(ours), Lines(theirs);
    var mo := MatchLines(b, o);
    var mt := MatchLines(b, t);
    ghost var x := TextsOf(base, ours, theirs);
    ghost var ps := PiecesOf(base, ours, theirs);
    var out: seq<string>, hunks: seq<Hunk> := [], [];
    var bi, oi, ti := 0, 0, 0;
    assert mo.Length == |b| && mt.Length == |b| by {
      Sizes(x);
    }
    for k := 0 to |b|
      invariant mo[..] == x.mo && mt[..] == x.mt
      invariant Cut(x, k, bi, oi, ti)
      invariant out + Out(Pieces(x, k, bi, oi, ti), labels) == Out(ps, labels)
      invariant hunks + Hunks(Pieces(x, k, bi, oi, ti), labels, |out|) == Hunks(ps, labels, 0)
    {
      Advance(x, k, bi, oi, ti);
      if mo[k].None? || mt[k].None? || mo[k].value < oi || mt[k].value < ti {
        continue;
      }
      var e, f := mo[k].value, mt[k].value;
      ghost var rest := Pieces(x, k + 1, k + 1, e + 1, f + 1);
      Taken(Chunk(b[bi..k], o[oi..e], t[ti..f]), [Stable(b[k])] + rest, labels, out, hunks);
      out, hunks := PutChunk(b[bi..k], o[oi..e], t[ti..f], labels, out, hunks);
      Taken(Stable(b[k]), rest, labels, out, hunks);
      out := out + [b[k]];
      bi, oi, ti := k + 1, e + 1, f + 1;
    }
    Finished(x, bi, oi, ti);
    Taken(Chunk(b[bi..], o[oi..], t[ti..]), [], labels, out, hunks);
    out, hunks := PutChunk(b[bi..], o[oi..], t[ti..], labels, out, hunks);
    assert out + [] == out && hunks + [] == hunks;
    assert out == Out(ps, labels) && hunks == Hunks(ps, labels, 0);
    m := TextMerge(Join(out), hunks);
  }

  method PutChunk(cb: seq<string>, co: seq<string>, ct: seq<string>, labels: Labels, before: seq<string>,
                  found: seq<Hunk>) returns (out: seq<string>, hunks: seq<Hunk>)
    ensures out == before + PieceLines(Chunk(cb, co, ct), labels)
    ensures hunks == found + PieceHunks(Chunk(cb, co, ct), |before|)
  {
    out, hunks := before, found;
    if co == cb {
      out := out + ct;
    } else if ct == cb || co == ct {
      out := out + co;
    } else {
      hunks := hunks + [Hunk(|out| + 1, co, ct)];
      out := out + [OPEN + labels.ours];
      out := out + co;
      out := out + [SEPARATOR];
      out := out + ct;
      out := out + [CLOSE + labels.theirs];
    }
  }

  lemma Sizes(x: Texts)
    requires Matched(x)
    ensures |x.mo| == |x.b| == |x.mt|
  {
  }

  /** One turn of the loop over the pieces. */
  lemma Advance(x: Texts, k: nat, bi: nat, oi: nat, ti: nat)
    requires Cut(x, k, bi, oi, ti) && k < |x.b|
    ensures |x.mo| == |x.b| == |x.mt|
    ensures !Anchors(x, k, oi, ti) ==>
      Cut(x, k + 1, bi, oi, ti) && Pieces(x, k, bi, oi, ti) == Pieces(x, k + 1, bi, oi, ti)
    ensures Anchors(x, k, oi, ti) ==>
      var (o, t) := (x.mo[k].value, x.mt[k].value);
      && o < |x.o| && t < |x.t| && x.o[o] == x.b[k] == x.t[t]
      && Cut(x, k + 1, k + 1, o + 1, t + 1)
      && Pieces(x, k, bi, oi, ti) ==
         [Chunk(x.b[bi..k], x.o[oi..o], x.t[ti..t])] + ([Stable(x.b[k])] + Pieces(x, k + 1, k + 1, o + 1, t + 1))
  {
  }

  lemma Finished(x: Texts, bi: nat, oi: nat, ti: nat)
    requires Cut(x, |x.b|, bi, oi, ti)
    ensures Pieces(x, |x.b|, bi, oi, ti) == [Chunk(x.b[bi..], x.o[oi..], x.t[ti..])] + []
  {
  }

  lemma Taken(p: Piece, rest: seq<Piece>, labels: Labels, out: seq<string>, hunks: seq<Hunk>)
    ensures out + Out([p] + rest, labels) == (out + PieceLines(p, labels)) + Out(rest, labels)
    ensures hunks + Hunks([p] + rest, labels, |out|)
         == (hunks + PieceHunks(p, |out|)) + Hunks(rest, labels, |out + PieceLines(p, labels)|)
    ensures Out([], labels) == [] && Hunks([], labels, |out + PieceLines(p, labels)|) == []
  {
    assert ([p] + rest)[1..] == rest;
  }

  // Choosing one side in every chunk

  datatype Choice = TheBase | TheOurs | TheTheirs

  function PieceSide(p: Piece, c: Choice): seq<string> {
    match p
    case Stable(line) => [line]
    case Chunk(b, o, t) => match c case TheBase => b case TheOurs => o case TheTheirs => t
  }

  function Chosen(ps: seq<Piece>, c: Choice): seq<string> {
    if ps == [] then [] else PieceSide(ps[0], c) + Chosen(ps[1..], c)
  }

  function RestOf(x: Texts, bi: nat, oi: nat, ti: nat, c: Choice): seq<string>
    requires bi <= |x.b| && oi <= |x.o| && ti <= |x.t|
  {
    match c case TheBase => x.b[bi..] case TheOurs => x.o[oi..] case TheTheirs => x.t[ti..]
  }

  lemma {:induction false} RestIsChosen(x: Texts, k: nat, bi: nat, oi: nat, ti: nat, c: Choice)
    requires Cut(x, k, bi, oi, ti)
    ensures Chosen(Pieces(x, k, bi, oi, ti), c) == RestOf(x, bi, oi, ti, c)
    decreases |x.b| - k
  {
    hide Pieces, Matched;
    if k == |x.b| {
      Finished(x, bi, oi, ti);
      ChosenFirst(Chunk(x.b[bi..], x.o[oi..], x.t[ti..]), [], c);
    } else {
      Advance(x, k, bi, oi, ti);
      if Anchors(x, k, oi, ti) {
        var o, t := x.mo[k].value, x.mt[k].value;
        var rest := Pieces(x, k + 1, k + 1, o + 1, t + 1);
        RestIsChosen(x, k + 1, k + 1, o + 1, t + 1, c);
        ChosenFirst(Chunk(x.b[bi..k], x.o[oi..o], x.t[ti..t]), [Stable(x.b[k])] + rest, c);
        ChosenFirst(Stable(x.b[k]), rest, c);
        CutAt(x.b, bi, k);
        CutAt(x.o, oi, o);
        CutAt(x.t, ti, t);
      } else {
        RestIsChosen(x, k + 1, bi, oi, ti, c);
      }
    }
  }

  lemma ChosenFirst(p: Piece, rest: seq<Piece>, c: Choice)
    ensures Chosen([p] + rest, c) == PieceSide(p, c) + Chosen(rest, c) && Chosen([], c) == []
  {
    assert ([p] + rest)[1..] == rest;
  }

  lemma CutAt<T>(s: seq<T>, i: nat, k: nat)
    requires i <= k < |s|
    ensures s[i..] == s[i..k] + ([s[k]] + s[k + 1..])
  {
  }

  /** Taking the same side in every chunk gives that side's text, and taking the base the base. */
  lemma ChoosingASide(base: string, ours: string, theirs: string)
    ensures var ps := PiecesOf(base, ours, theirs);
      && Join(Chosen(ps, TheBase)) == base
      && Join(Chosen(ps, TheOurs)) == ours
      && Join(Chosen(ps, TheTheirs)) == theirs
  {
    hide Lines, Matching, Pieces, Chosen, Join;
    var x := TextsOf(base, ours, theirs);
    TextsMatched(base, ours, theirs);
    forall c ensures Chosen(PiecesOf(base, ours, theirs), c) == RestOf(x, 0, 0, 0, c) {
      RestIsChosen(x, 0, 0, 0, 0, c);
    }
    assert x.b[0..] == x.b && x.o[0..] == x.o && x.t[0..] == x.t;
    JoinLines(base);
    JoinLines(ours);
    JoinLines(theirs);
  }

  // One side, or both, changed alike

  /** In every chunk `c` and `d` are the same lines. */
  predicate Agree(ps: seq<Piece>, c: Choice, d: Choice) {
    forall k :: 0 <= k < |ps| ==> PieceSide(ps[k], c) == PieceSide(ps[k], d)
  }

  lemma {:induction false} AgreeingMerge(ps: seq<Piece>, c: Choice, d: Choice, labels: Labels, at: nat)
    requires c != d && Agree(ps, c, d)
    ensures Hunks(ps, labels, at) == []
    ensures Out(ps, labels) == Chosen(ps, if c == TheBase then Other(d) else if d == TheBase then Other(c) else c)
    decreases |ps|
  {
    if ps != [] {
      assert Agree(ps[1..], c, d);
      AgreeingMerge(ps[1..], c, d, labels, at + |PieceLines(ps[0], labels)|);
      assert PieceSide(ps[0], c) == PieceSide(ps[0], d);
    }
  }

  function Other(c: Choice): Choice { if c == TheOurs then TheTheirs else TheOurs }

  ghost predicate Identity(m: seq<Option<nat>>) { forall k :: 0 <= k < |m| ==> m[k] == Some(k) }

  /** Two sides of the loop's texts that are the same text, matched alike. */
  ghost predicate Twins(x: Texts, c: Choice, d: Choice, bi: nat, oi: nat, ti: nat) {
    || (c == TheBase && d == TheOurs && x.b == x.o && Identity(x.mo) && bi == oi)
    || (c == TheBase && d == TheTheirs && x.b == x.t && Identity(x.mt) && bi == ti)
    || (c == TheOurs && d == TheTheirs && x.o == x.t && x.mo == x.mt && oi == ti)
  }

  lemma {:induction false} TwinsAgree(x: Texts, c: Choice, d: Choice, k: nat, bi: nat, oi: nat, ti: nat)
    requires Cut(x, k, bi, oi, ti) && Twins(x, c, d, bi, oi, ti)
    ensures Agree(Pieces(x, k, bi, oi, ti), c, d)
    decreases |x.b| - k
  {
    hide Pieces, Matched;
    if k == |x.b| {
      Finished(x, bi, oi, ti);
    } else {
      Advance(x, k, bi, oi, ti);
      if Anchors(x, k, oi, ti) {
        var o, t := x.mo[k].value, x.mt[k].value;
        TwinsAgree(x, c, d, k + 1, k + 1, o + 1, t + 1);
      } else {
        TwinsAgree(x, c, d, k + 1, bi, oi, ti);
      }
    }
  }

  lemma TwinTexts(base: string, ours: string, theirs: string, c: Choice, d: Choice, labels: Labels)
    requires Twins(TextsOf(base, ours, theirs), c, d, 0, 0, 0)
    ensures Merged(base, ours, theirs, labels).hunks == []
    ensures Merged(base, ours, theirs, labels).text ==
      if c == TheOurs then ours else if d == TheOurs then theirs else ours
  {
    hide Lines, Matching, Pieces, Chosen, Join, Agree, Out, Hunks, TextsOf, Twins;
    TextsMatched(base, ours, theirs);
    Distinct(TextsOf(base, ours, theirs), c, d);
    TwinsAgree(TextsOf(base, ours, theirs), c, d, 0, 0, 0, 0);
    AgreeingMerge(PiecesOf(base, ours, theirs), c, d, labels, 0);
    ChoosingASide(base, ours, theirs);
  }

  lemma Distinct(x: Texts, c: Choice, d: Choice)
    requires Twins(x, c, d, 0, 0, 0)
    ensures c != d && (c == TheBase || d == TheTheirs) && d != TheBase && c != TheTheirs
  {
  }

  /** Where one side did not change, or both changed alike, the merge is the other side, without a hunk. */
  lemma OneSidedMerges(base: string, side: string, labels: Labels)
    ensures Merged(base, base, side, labels) == TextMerge(side, [])
    ensures Merged(base, side, base, labels) == TextMerge(side, [])
    ensures Merged(base, side, side, labels) == TextMerge(side, [])
  {
    hide Lines, Matching, Merged;
    MatchingOfItself(Lines(base));
    TwinTexts(base, base, side, TheBase, TheOurs, labels);
    TwinTexts(base, side, base, TheBase, TheTheirs, labels);
    TwinTexts(base, side, side, TheOurs, TheTheirs, labels);
  }

  // Swapping the sides

  function Swapped(p: Piece): Piece {
    match p case Stable(line) => p case Chunk(b, o, t) => Chunk(b, t, o)
  }

  function SwappedAll(ps: seq<Piece>): (r: seq<Piece>)
    ensures |r| == |ps|
  {
    if ps == [] then [] else [Swapped(ps[0])] + SwappedAll(ps[1..])
  }

  function SwappedHunks(hs: seq<Hunk>): (r: seq<Hunk>)
    ensures |r| == |hs|
  {
    if hs == [] then [] else [Hunk(hs[0].line, hs[0].theirs, hs[0].ours)] + SwappedHunks(hs[1..])
  }

  lemma SwappedFirst(p: Piece, rest: seq<Piece>)
    ensures SwappedAll([p] + rest) == [Swapped(p)] + SwappedAll(rest) && SwappedAll([]) == []
  {
    assert ([p] + rest)[1..] == rest;
  }

  lemma {:induction false} PiecesSwap(x: Texts, y: Texts, k: nat, bi: nat, oi: nat, ti: nat)
    requires Cut(x, k, bi, oi, ti) && y == Texts(x.b, x.t, x.o, x.mt, x.mo) && Cut(y, k, bi, ti, oi)
    ensures Pieces(y, k, bi, ti, oi) == SwappedAll(Pieces(x, k, bi, oi, ti))
    decreases |x.b| - k
  {
    hide Pieces, Matched, SwappedAll;
    if k == |x.b| {
      Finished(x, bi, oi, ti);
      Finished(y, bi, ti, oi);
      SwappedFirst(Chunk(x.b[bi..], x.o[oi..], x.t[ti..]), []);
    } else {
      Advance(x, k, bi, oi, ti);
      Advance(y, k, bi, ti, oi);
      if Anchors(x, k, oi, ti) {
        var o, t := x.mo[k].value, x.mt[k].value;
        var rest := Pieces(x, k + 1, k + 1, o + 1, t + 1);
        PiecesSwap(x, y, k + 1, k + 1, o + 1, t + 1);
        SwappedFirst(Chunk(x.b[bi..k], x.o[oi..o], x.t[ti..t]), [Stable(x.b[k])] + rest);
        SwappedFirst(Stable(x.b[k]), rest);
      } else {
        PiecesSwap(x, y, k + 1, bi, oi, ti);
      }
    }
  }

  lemma {:induction false} SwappedMerge(ps: seq<Piece>, labels: Labels, at: nat)
    ensures Hunks(SwappedAll(ps), labels, at) == SwappedHunks(Hunks(ps, labels, at))
    ensures Hunks(ps, labels, at) == [] ==> Out(SwappedAll(ps), labels) == Out(ps, labels)
    decreases |ps|
  {
    hide SwappedHunks, PieceLines, PieceHunks, Swapped;
    if ps != [] {
      var p, rest := ps[0], ps[1..];
      var next := at + |PieceLines(p, labels)|;
      SwappedMerge(rest, labels, next);
      SwappedPiece(p, Hunks(rest, labels, next), labels, at);
      assert SwappedAll(ps)[1..] == SwappedAll(rest);
    } else {
      assert SwappedHunks([]) == [];
    }
  }

  lemma SwappedPiece(p: Piece, rest: seq<Hunk>, labels: Labels, at: nat)
    ensures |PieceLines(Swapped(p), labels)| == |PieceLines(p, labels)|
    ensures PieceHunks(Swapped(p), at) + SwappedHunks(rest) == SwappedHunks(PieceHunks(p, at) + rest)
    ensures PieceHunks(p, at) == [] ==> PieceLines(Swapped(p), labels) == PieceLines(p, labels)
  {
    if Conflicts(p) {
      var h := Hunk(at + 1, p.ours, p.theirs);
      assert ([h] + rest)[1..] == rest;
    } else {
      assert [] + rest == rest && [] + SwappedHunks(rest) == SwappedHunks(rest);
    }
  }

  /** Which side is ours decides nothing but the order within a block. */
  lemma MergeIsSymmetric(base: string, ours: string, theirs: string, labels: Labels)
    ensures var (m, n) := (Merged(base, ours, theirs, labels), Merged(base, theirs, ours, labels));
      n.hunks == SwappedHunks(m.hunks) && (m.hunks == [] ==> n.text == m.text)
  {
    hide Lines, Matching, Pieces, Join, Out, Hunks, SwappedAll, SwappedHunks;
    TextsMatched(base, ours, theirs);
    TextsMatched(base, theirs, ours);
    PiecesSwap(TextsOf(base, ours, theirs), TextsOf(base, theirs, ours), 0, 0, 0, 0);
    SwappedMerge(PiecesOf(base, ours, theirs), labels, 0);
  }

  // Base lines kept by both sides

  function StableLines(ps: seq<Piece>): seq<string> {
    if ps == [] then [] else (if ps[0].Stable? then [ps[0].line] else []) + StableLines(ps[1..])
  }

  /** The base lines from `k` on that are matched on both sides. */
  function KeptByBoth(x: Texts, k: nat): seq<string>
    requires |x.mo| == |x.b| == |x.mt| && k <= |x.b|
    decreases |x.b| - k
  {
    if k == |x.b| then []
    else (if x.mo[k].Some? && x.mt[k].Some? then [x.b[k]] else []) + KeptByBoth(x, k + 1)
  }

  /** No match lies before what was cut off. */
  ghost predicate Ahead(x: Texts, k: nat, oi: nat, ti: nat) {
    && |x.mo| == |x.b| == |x.mt|
    && (forall l :: k <= l < |x.b| && x.mo[l].Some? ==> oi <= x.mo[l].value)
    && (forall l :: k <= l < |x.b| && x.mt[l].Some? ==> ti <= x.mt[l].value)
  }

  lemma AheadStep(x: Texts, k: nat, oi: nat, ti: nat)
    requires Matched(x) && k < |x.b| && Ahead(x, k, oi, ti)
    ensures Ahead(x, k + 1, oi, ti) && (Anchors(x, k, oi, ti) <==> x.mo[k].Some? && x.mt[k].Some?)
    ensures Anchors(x, k, oi, ti) ==> Ahead(x, k + 1, x.mo[k].value + 1, x.mt[k].value + 1)
  {
  }

  lemma StableFirst(p: Piece, rest: seq<Piece>)
    ensures StableLines([p] + rest) == (if p.Stable? then [p.line] else []) + StableLines(rest) && StableLines([]) == []
  {
    assert ([p] + rest)[1..] == rest;
  }

  lemma {:induction false} StableFrom(x: Texts, k: nat, bi: nat, oi: nat, ti: nat)
    requires Cut(x, k, bi, oi, ti) && Ahead(x, k, oi, ti)
    ensures StableLines(Pieces(x, k, bi, oi, ti)) == KeptByBoth(x, k)
    decreases |x.b| - k
  {
    hide Pieces, Matched, StableLines, Ahead;
    if k == |x.b| {
      Finished(x, bi, oi, ti);
      StableFirst(Chunk(x.b[bi..], x.o[oi..], x.t[ti..]), []);
    } else {
      Advance(x, k, bi, oi, ti);
      AheadStep(x, k, oi, ti);
      if Anchors(x, k, oi, ti) {
        var o, t := x.mo[k].value, x.mt[k].value;
        var rest := Pieces(x, k + 1, k + 1, o + 1, t + 1);
        StableFrom(x, k + 1, k + 1, o + 1, t + 1);
        StableFirst(Chunk(x.b[bi..k], x.o[oi..o], x.t[ti..t]), [Stable(x.b[k])] + rest);
        StableFirst(Stable(x.b[k]), rest);
      } else {
        StableFrom(x, k + 1, bi, oi, ti);
      }
    }
  }

  /** The chunks are cut at every base line both sides kept: the loop's order test never skips one. */
  lemma EveryKeptLineCuts(base: string, ours: string, theirs: string)
    ensures Matched(TextsOf(base, ours, theirs))
    ensures StableLines(PiecesOf(base, ours, theirs)) == KeptByBoth(TextsOf(base, ours, theirs), 0)
  {
    hide Lines, Matching, Pieces, StableLines, KeptByBoth;
    TextsMatched(base, ours, theirs);
    StableFrom(TextsOf(base, ours, theirs), 0, 0, 0, 0);
  }

  // Which chunks become hunks

  /** Both sides' lines of the chunks that both sides changed, differently. */
  function Disputed(ps: seq<Piece>): seq<(seq<string>, seq<string>)> {
    if ps == [] then []
    else (if Conflicts(ps[0]) then [(ps[0].ours, ps[0].theirs)] else []) + Disputed(ps[1..])
  }

  function HunkSides(hs: seq<Hunk>): seq<(seq<string>, seq<string>)> {
    if hs == [] then [] else [(hs[0].ours, hs[0].theirs)] + HunkSides(hs[1..])
  }

  lemma {:induction false} SidesFrom(ps: seq<Piece>, labels: Labels, at: nat)
    ensures HunkSides(Hunks(ps, labels, at)) == Disputed(ps)
    decreases |ps|
  {
    hide PieceLines;
    if ps != [] {
      var rest := Hunks(ps[1..], labels, at + |PieceLines(ps[0], labels)|);
      SidesFrom(ps[1..], labels, at + |PieceLines(ps[0], labels)|);
      if Conflicts(ps[0]) {
        var h := Hunk(at + 1, ps[0].ours, ps[0].theirs);
        assert Hunks(ps, labels, at) == [h] + rest && ([h] + rest)[1..] == rest;
      } else {
        assert Hunks(ps, labels, at) == rest;
      }
    }
  }

  /** The hunks are the chunks both sides changed differently: all of them, in order, with both sides' lines. */
  lemma HunksAreDisputed(base: string, ours: string, theirs: string, labels: Labels)
    ensures HunkSides(Merged(base, ours, theirs, labels).hunks) == Disputed(PiecesOf(base, ours, theirs))
  {
    hide PiecesOf, Hunks, Disputed, HunkSides;
    SidesFrom(PiecesOf(base, ours, theirs), labels, 0);
  }

  // Where the hunks are

  /**
    At `p` stands the opening marker with our label, then our lines, the
    separator, their lines and the closing marker with their label.
  */
  ghost predicate Stands(ls: seq<string>, p: nat, h: Hunk, labels: Labels) {
    var mid, end := p + 1 + |h.ours|, p + 2 + |h.ours| + |h.theirs|;
    && end < |ls|
    && ls[p] == "<<<<<<< " + labels.ours
    && ls[p + 1..mid] == h.ours
    && ls[mid] == "======="
    && ls[mid + 1..end] == h.theirs
    && ls[end] == ">>>>>>> " + labels.theirs
  }

  lemma BlockStands(ls: seq<string>, p: nat, h: Hunk, labels: Labels)
    requires var block := Block(h.ours, h.theirs, labels); p + |block| <= |ls| && ls[p..p + |block|] == block
    ensures Stands(ls, p, h, labels)
  {
    var block := Block(h.ours, h.theirs, labels);
    var mid, end := p + 1 + |h.ours|, p + 2 + |h.ours| + |h.theirs|;
    forall k | 0 <= k < |block| ensures ls[p + k] == block[k] {
      assert ls[p..p + |block|][k] == ls[p + k];
    }
    assert ls[p + 0] == block[0];
    assert ls[p + 1..mid] == block[1..1 + |h.ours|] == h.ours;
    assert ls[mid + 1..end] == block[2 + |h.ours|..2 + |h.ours| + |h.theirs|] == h.theirs;
  }

  /** Hunk by hunk: it stands at its line, after the one before it. */
  ghost predicate Marks(out: seq<string>, hs: seq<Hunk>, labels: Labels, at: nat) {
    hs != [] ==>
      var h := hs[0];
      && at < h.line && Stands(out, h.line - 1, h, labels)
      && h.ours != h.theirs
      && Marks(out, hs[1..], labels, h.line + 2 + |h.ours| + |h.theirs|)
  }

  lemma {:induction false} MarksEarlier(out: seq<string>, hs: seq<Hunk>, labels: Labels, at: nat, earlier: nat)
    requires Marks(out, hs, labels, at) && earlier <= at
    ensures Marks(out, hs, labels, earlier)
  {
  }

  lemma {:induction false} HunksMark(before: seq<string>, ps: seq<Piece>, labels: Labels)
    ensures Marks(before + Out(ps, labels), Hunks(ps, labels, |before|), labels, |before|)
    decreases |ps|
  {
    hide Marks, Block, PieceLines, Conflicts;
    if ps != [] {
      var p := ps[0];
      var lines := PieceLines(p, labels);
      var tail := Out(ps[1..], labels);
      HunksMark(before + lines, ps[1..], labels);
      assert before + lines + tail == before + (lines + tail);
      var rest := Hunks(ps[1..], labels, |before + lines|);
      if Conflicts(p) {
        ConflictMarks(before, p, tail, rest, labels);
      } else {
        MarksEarlier(before + (lines + tail), rest, labels, |before + lines|, |before|);
        assert [] + rest == rest;
      }
    } else {
      NoMarks(before + Out(ps, labels), labels, |before|);
    }
  }

  lemma NoMarks(out: seq<string>, labels: Labels, at: nat)
    ensures Marks(out, [], labels, at)
  {
  }

  lemma ConflictMarks(before: seq<string>, p: Piece, after: seq<string>, rest: seq<Hunk>, labels: Labels)
    requires Conflicts(p)
    requires var lines := PieceLines(p, labels); Marks(before + lines + after, rest, labels, |before + lines|)
    ensures Marks(before + (PieceLines(p, labels) + after), PieceHunks(p, |before|) + rest, labels, |before|)
  {
    hide Marks, Block;
    MarksFirst(before, after, Hunk(|before| + 1, p.ours, p.theirs), rest, labels);
  }

  lemma MarksFirst(before: seq<string>, after: seq<string>, h: Hunk, rest: seq<Hunk>, labels: Labels)
    requires h.line == |before| + 1 && h.ours != h.theirs
    requires var block := Block(h.ours, h.theirs, labels);
      Marks(before + block + after, rest, labels, |before + block|)
    ensures Marks(before + (Block(h.ours, h.theirs, labels) + after), [h] + rest, labels, |before|)
  {
    hide Block, Stands;
    var block := Block(h.ours, h.theirs, labels);
    var out := before + (block + after);
    BlockSize(h.ours, h.theirs, labels);
    assert before + block + after == out && out[|before|..|before + block|] == block;
    BlockStands(out, |before|, h, labels);
    assert ([h] + rest)[1..] == rest;
  }

  lemma BlockSize(ours: seq<string>, theirs: seq<string>, labels: Labels)
    ensures |Block(ours, theirs, labels)| == |ours| + |theirs| + 3
  {
  }

  // The markers in the text itself

  lemma {:induction false} OutIsBroken(ps: seq<Piece>, labels: Labels, at: nat)
    requires forall k, c :: 0 <= k < |ps| ==> AreLines(PieceSide(ps[k], c))
    ensures AreLines(Out(ps, labels)) <==>
      Hunks(ps, labels, at) == [] || (Unbroken(labels.ours) && Unbroken(labels.theirs))
    decreases |ps|
  {
    hide Unbroken, AreLines, PieceLines, PieceSide, Conflicts;
    if ps != [] {
      var rest := ps[1..];
      forall k, c | 0 <= k < |rest| ensures AreLines(PieceSide(rest[k], c)) {
        assert rest[k] == ps[k + 1];
      }
      OutIsBroken(rest, labels, at + |PieceLines(ps[0], labels)|);
      LinesConcat(PieceLines(ps[0], labels), Out(rest, labels));
      PieceIsBroken(ps[0], labels);
    } else {
      NoneIsLines();
    }
  }

  lemma PieceIsBroken(p: Piece, labels: Labels)
    requires forall c :: AreLines(PieceSide(p, c))
    ensures AreLines(PieceLines(p, labels)) <==>
      !Conflicts(p) || (Unbroken(labels.ours) && Unbroken(labels.theirs))
  {
    hide Unbroken, AreLines, Block;
    assert AreLines(PieceSide(p, TheBase)) && AreLines(PieceSide(p, TheOurs)) && AreLines(PieceSide(p, TheTheirs));
    if Conflicts(p) {
      BlockIsBroken(p.ours, p.theirs, labels);
    }
  }

  lemma LinesConcat(a: seq<string>, b: seq<string>)
    ensures AreLines(a + b) <==> AreLines(a) && AreLines(b)
  {
    if AreLines(a + b) {
      forall k | 0 <= k < |a| ensures Unbroken(a[k]) {
        assert a[k] == (a + b)[k];
      }
      forall k | 0 <= k < |b| ensures Unbroken(b[k]) {
        assert b[k] == (a + b)[|a| + k];
      }
    }
  }

  lemma BlockIsBroken(ours: seq<string>, theirs: seq<string>, labels: Labels)
    ensures AreLines(Block(ours, theirs, labels)) <==>
      Unbroken(labels.ours) && Unbroken(labels.theirs) && AreLines(ours) && AreLines(theirs)
  {
    hide AreLines;
    var a, b := [OPEN + labels.ours], [CLOSE + labels.theirs];
    LinesConcat(a + ours + [SEPARATOR] + theirs, b);
    LinesConcat(a + ours + [SEPARATOR], theirs);
    LinesConcat(a + ours, [SEPARATOR]);
    LinesConcat(a, ours);
    OneIsLines(OPEN + labels.ours);
    OneIsLines(CLOSE + labels.theirs);
    OneIsLines(SEPARATOR);
  }

  lemma NoneIsLines()
    ensures AreLines([])
  {
  }

  lemma OneIsLines(s: string)
    ensures AreLines([s]) <==> Unbroken(s)
  {
    if AreLines([s]) {
      assert Unbroken([s][0]);
    }
  }

  lemma {:induction false} PiecesAreLines(ps: seq<Piece>, c: Choice, k: nat)
    requires AreLines(Chosen(ps, c)) && k < |ps|
    ensures AreLines(PieceSide(ps[k], c))
    decreases k
  {
    LinesConcat(PieceSide(ps[0], c), Chosen(ps[1..], c));
    if k > 0 {
      PiecesAreLines(ps[1..], c, k - 1);
    }
  }

  lemma MergedLines(base: string, ours: string, theirs: string, labels: Labels)
    ensures var (ps, m) := (PiecesOf(base, ours, theirs), Merged(base, ours, theirs, labels));
      && Out(ps, labels) != []
      && (AreLines(Out(ps, labels)) <==> m.hunks == [] || (Unbroken(labels.ours) && Unbroken(labels.theirs)))
  {
    hide Lines, Matching, Pieces, Chosen, Join, Out, Hunks, AreLines, Unbroken;
    var x := TextsOf(base, ours, theirs);
    var ps := PiecesOf(base, ours, theirs);
    TextsMatched(base, ours, theirs);
    JoinLines(base);
    JoinLines(ours);
    JoinLines(theirs);
    forall c ensures Chosen(ps, c) == RestOf(x, 0, 0, 0, c) && AreLines(Chosen(ps, c)) {
      RestIsChosen(x, 0, 0, 0, 0, c);
      assert x.b[0..] == x.b && x.o[0..] == x.o && x.t[0..] == x.t;
    }
    forall k, c | 0 <= k < |ps| ensures AreLines(PieceSide(ps[k], c)) {
      PiecesAreLines(ps, c, k);
    }
    OutIsBroken(ps, labels, 0);
    PiecesBegin(x, 0, 0, 0, 0);
    SomethingIsPut(ps, labels);
  }

  /** One chunk, or a chunk and a stable line before more. */
  lemma {:induction false} PiecesBegin(x: Texts, k: nat, bi: nat, oi: nat, ti: nat)
    requires Cut(x, k, bi, oi, ti)
    ensures var ps := Pieces(x, k, bi, oi, ti);
      ps == [Chunk(x.b[bi..], x.o[oi..], x.t[ti..])] || (|ps| > 1 && ps[1].Stable?)
    decreases |x.b| - k
  {
    hide Pieces, Matched;
    if k == |x.b| {
      Finished(x, bi, oi, ti);
    } else {
      Advance(x, k, bi, oi, ti);
      if !Anchors(x, k, oi, ti) {
        PiecesBegin(x, k + 1, bi, oi, ti);
      }
    }
  }

  lemma SomethingIsPut(ps: seq<Piece>, labels: Labels)
    requires ps != []
    requires (ps[0].Chunk? && ps[0].ours != [] && ps[0].theirs != []) || (|ps| > 1 && ps[1].Stable?)
    ensures Out(ps, labels) != []
  {
    if |ps| > 1 && ps[1].Stable? {
      assert ps[1..][0] == ps[1];
    }
  }

  /** The lines of the merged text are those the merge put out if and only if no label in it holds a newline. */
  lemma MergedTextLines(base: string, ours: string, theirs: string, labels: Labels)
    ensures var (ps, m) := (PiecesOf(base, ours, theirs), Merged(base, ours, theirs, labels));
      Lines(m.text) == Out(ps, labels) <==> m.hunks == [] || (Unbroken(labels.ours) && Unbroken(labels.theirs))
  {
    hide Lines, Join, Out, Hunks, AreLines, Unbroken, PiecesOf;
    MergedLines(base, ours, theirs, labels);
    LinesJoin(Out(PiecesOf(base, ours, theirs), labels));
  }

  /**
    Each hunk's `line` is the text's line of its opening marker, its own lines,
    the separator, their lines and the closing marker follow, and the hunks stand
    in order without overlap: if and only if there is no hunk or no label holds a
    newline.
  */
  lemma HunksAreInPlace(base: string, ours: string, theirs: string, labels: Labels)
    ensures var m := Merged(base, ours, theirs, labels);
      Marks(Lines(m.text), m.hunks, labels, 0) <==>
      m.hunks == [] || (Unbroken(labels.ours) && Unbroken(labels.theirs))
  {
    hide Lines, Join, Out, Hunks, Unbroken, PiecesOf, Marks;
    var ps := PiecesOf(base, ours, theirs);
    var m := Merged(base, ours, theirs, labels);
    MergedTextLines(base, ours, theirs, labels);
    HunksMark([], ps, labels);
    assert [] + Out(ps, labels) == Out(ps, labels);
    if m.hunks != [] && Marks(Lines(m.text), m.hunks, labels, 0) {
      JoinLines(m.text);
      MarksAreLines(Lines(m.text), m.hunks, labels);
    } else if m.hunks == [] {
      NoMarks(Lines(m.text), labels, 0);
    }
  }

  lemma MarksAreLines(ls: seq<string>, hs: seq<Hunk>, labels: Labels)
    requires hs != [] && AreLines(ls) && Marks(ls, hs, labels, 0)
    ensures Unbroken(labels.ours) && Unbroken(labels.theirs)
  {
    hide Unbroken;
    var h := hs[0];
    assert Unbroken(ls[h.line - 1]) && Unbroken(ls[h.line + 1 + |h.ours| + |h.theirs|]);
    LabelBreaks(labels);
  }

  lemma LabelBreaks(labels: Labels)
    ensures Unbroken(OPEN + labels.ours) <==> Unbroken(labels.ours)
    ensures Unbroken(CLOSE + labels.theirs) <==> Unbroken(labels.theirs)
  {
  }

  lemma {:induction false} MarksStand(ls: seq<string>, hs: seq<Hunk>, labels: Labels, at: nat, k: nat)
    requires Marks(ls, hs, labels, at) && k < |hs|
    ensures hs[k].line > at && Stands(ls, hs[k].line - 1, hs[k], labels)
    ensures k + 1 < |hs| ==> hs[k].line + |hs[k].ours| + |hs[k].theirs| + 3 <= hs[k + 1].line
    decreases k
  {
    hide Stands;
    var h := hs[0];
    if k == 0 {
      if |hs| > 1 {
        assert hs[1..][0] == hs[1];
      }
    } else {
      MarksStand(ls, hs[1..], labels, h.line + 2 + |h.ours| + |h.theirs|, k - 1);
    }
  }

  /**
    In the text, with labels of one line each: every hunk stands at the line it
    names, each side's lines under its own marker, and each after the one before.
  */
  lemma HunksStand(base: string, ours: string, theirs: string, labels: Labels, k: nat)
    requires Unbroken(labels.ours) && Unbroken(labels.theirs)
    requires k < |Merged(base, ours, theirs, labels).hunks|
    ensures var m := Merged(base, ours, theirs, labels);
      var h := m.hunks[k];
      && h.line > 0 && Stands(Lines(m.text), h.line - 1, h, labels)
      && (k + 1 < |m.hunks| ==> h.line + |h.ours| + |h.theirs| + 3 <= m.hunks[k + 1].line)
  {
    hide Lines, Merged, Stands, Marks, Unbroken;
    var m := Merged(base, ours, theirs, labels);
    HunksAreInPlace(base, ours, theirs, labels);
    MarksStand(Lines(m.text), m.hunks, labels, 0, k);
  }

  // Finding a marker block

  /** A later line for each marker: opening, separator, closing. */
  ghost predicate HoldsBlock(ls: seq<string>) {
    exists i, j, k :: 0 <= i < j < k < |ls| && OPEN <= ls[i] && ls[j] == SEPARATOR && CLOSE <= ls[k]
  }

  /** The scan finds a block if and only if there is one. */
  method HasMarkers(text: string) returns (found: bool)
    ensures found <==> HoldsBlock(Lines(text))
  {
    hide Lines;
    var ls := Lines(text);
    var stage := 0;
    ghost var open, middle := 0, 0;
    for n := 0 to |ls|
      invariant 0 <= stage <= 2
      invariant stage == 0 ==> forall i :: 0 <= i < n ==> !(OPEN <= ls[i])
      invariant stage >= 1 ==> 0 <= open < n && OPEN <= ls[open] && forall i :: 0 <= i < open ==> !(OPEN <= ls[i])
      invariant stage == 1 ==> forall j :: open < j < n ==> ls[j] != SEPARATOR
      invariant stage == 2 ==> open < middle < n && ls[middle] == SEPARATOR
      invariant stage == 2 ==> forall j :: open < j < middle ==> ls[j] != SEPARATOR
      invariant stage == 2 ==> forall k :: middle < k < n ==> !(CLOSE <= ls[k])
    {
      if stage == 0 && OPEN <= ls[n] {
        stage, open := 1, n;
      } else if stage == 1 && ls[n] == SEPARATOR {
        stage, middle := 2, n;
      } else if stage == 2 && CLOSE <= ls[n] {
        return true;
      }
    }
    found := false;
  }

  /** A merge with a hunk leaves a block that is found, whatever the labels hold. */
  lemma HunksAreFound(base: string, ours: string, theirs: string, labels: Labels)
    ensures var m := Merged(base, ours, theirs, labels); m.hunks != [] ==> HoldsBlock(Lines(m.text))
  {
    hide Lines, Join, Out, Hunks, Block, PiecesOf, HoldsBlock;
    var ps := PiecesOf(base, ours, theirs);
    var out := Out(ps, labels);
    HunksMark([], ps, labels);
    assert [] + out == out;
    var hs := Hunks(ps, labels, 0);
    if hs != [] {
      assert Stands(out, hs[0].line - 1, hs[0], labels);
      StandsHold(out, hs[0].line - 1, hs[0], labels);
      JoinHolds(out);
    }
  }

  lemma StandsHold(ls: seq<string>, p: nat, h: Hunk, labels: Labels)
    requires Stands(ls, p, h, labels)
    ensures HoldsBlock(ls)
  {
    var j, k := p + 1 + |h.ours|, p + 2 + |h.ours| + |h.theirs|;
    assert OPEN <= ls[p] && ls[j] == SEPARATOR && CLOSE <= ls[k];
  }

  function DeletionMarkers(text: string, ours: bool, labels: Labels): string {
    if ours then OPEN + labels.ours + "\n" + text + "\n" + SEPARATOR + "\n" + CLOSE + labels.theirs + " (deleted)"
    else OPEN + labels.ours + " (deleted)\n" + SEPARATOR + "\n" + text + "\n" + CLOSE + labels.theirs
  }

  /** The markers of a deletion are found, whatever the kept text and the labels hold. */
  lemma DeletionIsFound(text: string, ours: bool, labels: Labels)
    ensures HoldsBlock(Lines(DeletionMarkers(text, ours, labels)))
  {
    hide Lines, HoldsBlock, Join;
    var open, close := OPEN + labels.ours, CLOSE + labels.theirs;
    if ours {
      FourLines(open, text, SEPARATOR, close + " (deleted)");
      assert DeletionMarkers(text, ours, labels)
          == open + "\n" + text + "\n" + SEPARATOR + "\n" + (close + " (deleted)");
    } else {
      FourLines(open + " (deleted)", SEPARATOR, text, close);
      assert DeletionMarkers(text, ours, labels)
          == (open + " (deleted)") + "\n" + SEPARATOR + "\n" + text + "\n" + close;
    }
  }

  /** The kept text stands on its own side, the other side is empty, and the deleted side's label says so. */
  lemma DeletionStands(text: string, ours: bool, labels: Labels)
    requires Unbroken(labels.ours) && Unbroken(labels.theirs)
    ensures Lines(DeletionMarkers(text, ours, labels)) ==
      if ours then
        ["<<<<<<< " + labels.ours] + Lines(text) + ["=======", ">>>>>>> " + labels.theirs + " (deleted)"]
      else
        ["<<<<<<< " + labels.ours + " (deleted)", "======="] + Lines(text) + [">>>>>>> " + labels.theirs]
  {
    hide Lines, Join, Unbroken;
    var open, close := OPEN + labels.ours, CLOSE + labels.theirs;
    LabelBreaks(labels);
    DeletedBreaks(open);
    DeletedBreaks(close);
    SeparatorIsLine();
    LinesOfLine(SEPARATOR);
    if ours {
      var last := close + " (deleted)";
      assert DeletionMarkers(text, ours, labels) == open + "\n" + (text + "\n" + (SEPARATOR + "\n" + last));
      LinesConcatenate(open, text + "\n" + (SEPARATOR + "\n" + last));
      LinesConcatenate(text, SEPARATOR + "\n" + last);
      LinesConcatenate(SEPARATOR, last);
      LinesOfLine(open);
      LinesOfLine(last);
    } else {
      var first := open + " (deleted)";
      assert DeletionMarkers(text, ours, labels) == first + "\n" + (SEPARATOR + "\n" + (text + "\n" + close));
      LinesConcatenate(first, SEPARATOR + "\n" + (text + "\n" + close));
      LinesConcatenate(SEPARATOR, text + "\n" + close);
      LinesConcatenate(text, close);
      LinesOfLine(first);
      LinesOfLine(close);
    }
  }

  lemma DeletedBreaks(s: string)
    requires Unbroken(s)
    ensures Unbroken(s + " (deleted)")
  {
  }

  lemma SeparatorIsLine()
    ensures Unbroken(SEPARATOR)
  {
  }

  lemma FourLines(a: string, b: string, c: string, d: string)
    requires OPEN <= a && (b == SEPARATOR || c == SEPARATOR) && CLOSE <= d
    ensures HoldsBlock(Lines(a + "\n" + b + "\n" + c + "\n" + d))
  {
    hide Lines, Join;
    var ls := [a, b, c, d];
    FourHold(ls, if b == SEPARATOR then 1 else 2);
    JoinOfFour(ls);
    JoinHolds(ls);
  }

  lemma FourHold(ls: seq<string>, j: nat)
    requires |ls| == 4 && 0 < j < 3 && OPEN <= ls[0] && ls[j] == SEPARATOR && CLOSE <= ls[3]
    ensures HoldsBlock(ls)
  {
  }

  lemma JoinOfFour(ls: seq<string>)
    requires |ls| == 4
    ensures Join(ls) == ls[0] + "\n" + ls[1] + "\n" + ls[2] + "\n" + ls[3]
  {
    assert ls[1..][1..] == [ls[2], ls[3]] && ls[1..][1..][1..] == [ls[3]];
    assert Join([ls[3]]) == ls[3];
    assert Join([ls[2], ls[3]]) == ls[2] + "\n" + ls[3];
    assert Join(ls[1..]) == ls[1] + "\n" + (ls[2] + "\n" + ls[3]);
  }

  // Joined pieces that may hold newlines

  function Expanded(ls: seq<string>): seq<string> {
    if ls == [] then [] else Lines(ls[0]) + Expanded(ls[1..])
  }

  lemma {:induction false} LinesAreExpanded(ls: seq<string>)
    requires ls != []
    ensures Lines(Join(ls)) == Expanded(ls)
    decreases |ls|
  {
    hide Lines;
    if |ls| == 1 {
      assert Expanded(ls[1..]) == [];
    } else {
      LinesAreExpanded(ls[1..]);
      LinesConcatenate(ls[0], Join(ls[1..]));
    }
  }

  /** Each piece begins a line, and later pieces later lines. */
  lemma {:induction false} BeginsLine(ls: seq<string>, i: nat)
    requires i < |ls|
    ensures var at := |Expanded(ls[..i])|;
      && at < |Expanded(ls)| && Expanded(ls)[at] == Lines(ls[i])[0]
      && at < |Expanded(ls[..i + 1])|
    decreases i
  {
    hide Lines;
    if i == 0 {
      assert ls[..1] == [ls[0]];
      assert Expanded(ls[..0]) == [];
    } else {
      BeginsLine(ls[1..], i - 1);
      assert ls[..i][1..] == ls[1..][..i - 1] && ls[..i + 1][1..] == ls[1..][..i];
    }
  }

  lemma {:induction false} ExpandsInOrder(ls: seq<string>, i: nat, j: nat)
    requires i < j < |ls|
    ensures |Expanded(ls[..i])| < |Expanded(ls[..j])|
    decreases j
  {
    hide Expanded, Lines;
    BeginsLine(ls, j - 1);
    if i < j - 1 {
      ExpandsInOrder(ls, i, j - 1);
    }
  }

  lemma {:induction false} FirstLine(mark: string, s: string)
    requires Unbroken(mark) && mark <= s
    ensures mark <= Lines(s)[0]
    decreases |mark|
  {
    if mark != "" {
      assert mark[1..] <= s[1..];
      assert Unbroken(mark[1..]);
      FirstLine(mark[1..], s[1..]);
      assert mark == [mark[0]] + mark[1..] && s[0] == mark[0] && s[0] != '\n';
    }
  }

  lemma JoinHolds(ls: seq<string>)
    requires HoldsBlock(ls)
    ensures HoldsBlock(Lines(Join(ls)))
  {
    hide Lines, Expanded;
    var i, j, k :| 0 <= i < j < k < |ls| && OPEN <= ls[i] && ls[j] == SEPARATOR && CLOSE <= ls[k];
    LinesAreExpanded(ls);
    BeginsLine(ls, i);
    BeginsLine(ls, j);
    BeginsLine(ls, k);
    ExpandsInOrder(ls, i, j);
    ExpandsInOrder(ls, j, k);
    FirstLine(OPEN, ls[i]);
    LinesOfLine(SEPARATOR);
    FirstLine(CLOSE, ls[k]);
    var all := Expanded(ls);
    var a, b, c := |Expanded(ls[..i])|, |Expanded(ls[..j])|, |Expanded(ls[..k])|;
    assert OPEN <= all[a] && all[b] == SEPARATOR && CLOSE <= all[c];
  }
}

/**
  Conditional-compilation predicates: the formula, its printed text, and the
  checker that reads the text back and says whether the predicate can hold
  only in a test build.
*/
module CfgFormula {
  /** A feature, a target or any other option is an atom of its own text. */
  datatype Formula =
    | Atom(text: string)
    | Not(f: Formula)
    | All(parts: seq<Formula>)
    | Any(parts: seq<Formula>)

  /** Which atoms hold in a build. */
  type Build = string -> bool

  predicate Holds(f: Formula, b: Build) {
    match f
    case Atom(text) => b(text)
    case Not(g) => !Holds(g, b)
    case All(parts) => forall k :: 0 <= k < |parts| ==> Holds(parts[k], b)
    case Any(parts) => exists k :: 0 <= k < |parts| && Holds(parts[k], b)
  }

  // Atoms

  /** Read from depth `d`, parentheses close only what is open, and the depth ends at `e`. */
  predicate Moves(t: string, d: nat, e: nat) {
    if t == [] then d == e
    else if t[0] == '(' then Moves(t[1..], d + 1, e)
    else if t[0] == ')' then d > 0 && Moves(t[1..], d - 1, e)
    else Moves(t[1..], d, e)
  }

  predicate Calls(q: string, name: string) { |name| < |q| && name <= q && q[|q| - 1] == ')' }

  predicate NoSpace(t: string) { forall k :: 0 <= k < |t| ==> t[k] != ' ' }

  /** An atom's text has no space, and its parentheses match. */
  predicate MatchedText(t: string) { NoSpace(t) && Moves(t, 0, 0) }

  predicate Matched(f: Formula) {
    match f
    case Atom(text) => MatchedText(text)
    case Not(g) => Matched(g)
    case All(parts) => forall k :: 0 <= k < |parts| ==> Matched(parts[k])
    case Any(parts) => forall k :: 0 <= k < |parts| ==> Matched(parts[k])
  }

  // Printing

  function Print(f: Formula): string
    decreases f, 1
  {
    match f
    case Atom(text) => text
    case Not(g) => "not(" + Print(g) + ")"
    case All(parts) => "all(" + PrintList(parts) + ")"
    case Any(parts) => "any(" + PrintList(parts) + ")"
  }

  function PrintList(parts: seq<Formula>): string
    decreases parts, 0
  {
    if parts == [] then []
    else if |parts| == 1 then Print(parts[0])
    else Print(parts[0]) + "," + PrintList(parts[1..])
  }

  // Splitting on the commas outside parentheses

  /** Puts a text in front of the first part. */
  function Glue(x: string, parts: seq<string>): (r: seq<string>)
    requires parts != []
    ensures |r| == |parts|
  {
    [x + parts[0]] + parts[1..]
  }

  function Deeper(c: char, depth: int): int { if c == '(' then depth + 1 else if c == ')' then depth - 1 else depth }

  /** All parts, empty ones too, of a text entered at a depth. */
  function Pieces(e: string, depth: int): (r: seq<string>)
    ensures r != []
    ensures forall k :: 0 <= k < |r| ==> |r[k]| <= |e|
  {
    if e == [] then [[]]
    else if e[0] == ',' && depth == 0 then [[]] + Pieces(e[1..], 0)
    else Glue([e[0]], Pieces(e[1..], Deeper(e[0], depth)))
  }

  function NonEmpty(parts: seq<string>): seq<string> {
    if parts == [] then [] else (if parts[0] == [] then [] else [parts[0]]) + NonEmpty(parts[1..])
  }

  function Split(e: string): seq<string> { NonEmpty(Pieces(e, 0)) }

  lemma {:induction false} NonEmptyIsPart(parts: seq<string>, n: nat)
    requires forall k :: 0 <= k < |parts| ==> |parts[k]| <= n
    ensures forall k :: 0 <= k < |NonEmpty(parts)| ==> 0 < |NonEmpty(parts)[k]| <= n
    decreases |parts|
  {
    if parts != [] {
      assert forall k :: 0 <= k < |parts[1..]| ==> parts[1..][k] == parts[k + 1];
      NonEmptyIsPart(parts[1..], n);
    }
  }

  lemma SplitShortens(e: string)
    ensures forall k :: 0 <= k < |Split(e)| ==> 0 < |Split(e)[k]| <= |e|
  {
    NonEmptyIsPart(Pieces(e, 0), |e|);
  }

  lemma GlueGlue(x: string, y: string, parts: seq<string>)
    requires parts != []
    ensures Glue(x, Glue(y, parts)) == Glue(x + y, parts)
  {
    assert x + (y + parts[0]) == x + y + parts[0];
  }

  lemma GlueNothing(parts: seq<string>)
    requires parts != []
    ensures Glue([], parts) == parts
  {
    assert [] + parts[0] == parts[0];
  }

  lemma {:induction false} NonEmptySplits(a: seq<string>, b: seq<string>)
    ensures NonEmpty(a + b) == NonEmpty(a) + NonEmpty(b)
    decreases |a|
  {
    if a == [] {
      assert a + b == b;
    } else {
      assert (a + b)[1..] == a[1..] + b;
      NonEmptySplits(a[1..], b);
    }
  }

  /** `split_top_level`: parts are closed at each comma of depth zero, and empty ones dropped at the end. */
  method SplitTopLevel(e: string) returns (r: seq<string>)
    ensures r == Split(e)
  {
    var parts, depth, start := [], 0, 0;
    GlueNothing(Pieces(e, 0));
    assert e[0..] == e && e[0..0] == [] && [] + Glue([], Pieces(e, 0)) == Glue([], Pieces(e, 0));
    for index := 0 to |e|
      invariant 0 <= start <= index
      invariant Pieces(e, 0) == parts + Glue(e[start..index], Pieces(e[index..], depth))
    {
      var c := e[index];
      ghost var rest := e[index + 1..];
      assert e[index..][0] == c && e[index..][1..] == rest;
      if c == ',' && depth == 0 {
        ghost var open := e[start..index];
        assert Glue(open, [[]] + Pieces(rest, 0)) == [open] + Pieces(rest, 0) by {
          assert open + [] == open;
        }
        parts := parts + [e[start..index]];
        start := index + 1;
        GlueNothing(Pieces(rest, 0));
        assert e[start..index + 1] == [];
      } else {
        GlueGlue(e[start..index], [c], Pieces(rest, Deeper(c, depth)));
        assert e[start..index] + [c] == e[start..index + 1];
        depth := Deeper(c, depth);
      }
    }
    assert e[|e|..] == [] && e[start..] + [] == e[start..] && e[start..] == e[start..|e|];
    assert Pieces(e, 0) == parts + [e[start..]];
    parts := parts + [e[start..]];
    r := DropEmpty(parts);
  }

  method DropEmpty(parts: seq<string>) returns (r: seq<string>)
    ensures r == NonEmpty(parts)
  {
    r := [];
    for k := 0 to |parts|
      invariant r == NonEmpty(parts[..k])
    {
      assert parts[..k + 1] == parts[..k] + [parts[k]];
      NonEmptySplits(parts[..k], [parts[k]]);
      if parts[k] != [] {
        r := r + [parts[k]];
      }
    }
    assert parts[..|parts|] == parts;
  }

  // Splitting printed arguments

  lemma {:induction false} MovesOn(x: string, y: string, d: nat, e: nat, g: nat)
    requires Moves(x, d, e) && Moves(y, e, g)
    ensures Moves(x + y, d, g)
    decreases |x|
  {
    if x == [] {
      assert x + y == y;
    } else {
      assert (x + y)[1..] == x[1..] + y;
      var next: nat := if x[0] == '(' then d + 1 else if x[0] == ')' then d - 1 else d;
      MovesOn(x[1..], y, next, e, g);
    }
  }

  lemma {:induction false} MovesDeeper(x: string, d: nat, e: nat)
    requires Moves(x, d, e)
    ensures Moves(x, d + 1, e + 1)
    decreases |x|
  {
    if x != [] {
      var next: nat := if x[0] == '(' then d + 1 else if x[0] == ')' then d - 1 else d;
      MovesDeeper(x[1..], next, e);
    }
  }

  lemma CallMoves(name: string, inner: string)
    requires name in {"not(", "all(", "any("} && Moves(inner, 0, 0)
    ensures Moves(name + inner + ")", 0, 0)
  {
    hide Moves;
    NameMoves(name);
    MovesDeeper(inner, 0, 0);
    MovesOn(name, inner, 0, 1, 1);
    MovesOn(name + inner, ")", 0, 1, 0);
  }

  lemma NameMoves(name: string)
    requires name in {"not(", "all(", "any("}
    ensures Moves(name, 0, 1) && Moves(")", 1, 0) && Moves(",", 0, 0)
  {
    assert Moves("(", 0, 1);
    assert name[1..][1..][1..] == "(";
  }

  lemma {:induction false} PrintMoves(f: Formula)
    requires Matched(f)
    ensures Moves(Print(f), 0, 0)
    decreases f, 1
  {
    hide Moves;
    match f
    case Atom(_) =>
    case Not(g) =>
      PrintMoves(g);
      CallMoves("not(", Print(g));
    case All(parts) =>
      ListMoves(parts);
      CallMoves("all(", PrintList(parts));
    case Any(parts) =>
      ListMoves(parts);
      CallMoves("any(", PrintList(parts));
  }

  lemma {:induction false} ListMoves(parts: seq<Formula>)
    requires forall k :: 0 <= k < |parts| ==> Matched(parts[k])
    ensures Moves(PrintList(parts), 0, 0)
    decreases parts, 0
  {
    hide Print;
    if parts != [] {
      hide Moves;
      PrintMoves(parts[0]);
      if |parts| > 1 {
        ListMoves(parts[1..]);
        NameMoves("all(");
        MovesOn(Print(parts[0]), ",", 0, 0, 0);
        MovesOn(Print(parts[0]) + ",", PrintList(parts[1..]), 0, 0, 0);
      }
    }
  }

  lemma GlueFirst(x: string, a: seq<string>, b: seq<string>)
    requires a != []
    ensures Glue(x, a + b) == Glue(x, a) + b
  {
  }

  /** At a comma behind a matched text the pieces part. */
  lemma {:induction false} PiecesPart(x: string, d: nat, rest: string)
    requires Moves(x, d, 0)
    ensures Pieces(x + "," + rest, d) == Pieces(x, d) + Pieces(rest, 0)
    decreases |x|
  {
    hide Glue;
    var t := x + "," + rest;
    if x == [] {
      assert t[1..] == rest;
    } else {
      assert t[1..] == x[1..] + "," + rest;
      if x[0] == ',' && d == 0 {
        PiecesPart(x[1..], 0, rest);
      } else {
        var next: nat := if x[0] == '(' then d + 1 else if x[0] == ')' then d - 1 else d;
        PiecesPart(x[1..], next, rest);
        GlueFirst([x[0]], Pieces(x[1..], next), Pieces(rest, 0));
      }
    }
  }

  /** Inside a parenthesis a matched text is passed over in one piece. */
  lemma {:induction false} PiecesPass(x: string, d: nat, e: nat, rest: string)
    requires Moves(x, d, e)
    ensures Pieces(x + rest, d + 1) == Glue(x, Pieces(rest, e + 1))
    decreases |x|
  {
    hide Glue;
    if x == [] {
      assert x + rest == rest;
      GlueNothing(Pieces(rest, d + 1));
    } else {
      assert (x + rest)[1..] == x[1..] + rest && x == [x[0]] + x[1..];
      var next: nat := if x[0] == '(' then d + 1 else if x[0] == ')' then d - 1 else d;
      PiecesPass(x[1..], next, e, rest);
      GlueGlue([x[0]], x[1..], Pieces(rest, e + 1));
    }
  }

  /** A call is one piece. */
  lemma CallSplits(name: string, inner: string)
    requires name in {"not(", "all(", "any("} && Moves(inner, 0, 0)
    ensures Split(name + inner + ")") == [name + inner + ")"]
  {
    hide Moves, Glue;
    var tail := inner + ")";
    PiecesPass(inner, 0, 0, ")");
    LastParen(inner);
    assert name + inner + ")" == name + tail;
    NamePieces(name, tail);
    assert NonEmpty([name + tail]) == [name + tail] + NonEmpty([]);
  }

  lemma LastParen(inner: string)
    ensures Glue(inner, Pieces(")", 1)) == [inner + ")"]
  {
    assert ")"[1..] == [] && ")" + [] == ")";
    assert Pieces([], 0) == [[]] && Pieces(")", 1) == Glue(")", [[]]);
  }

  lemma NamePieces(name: string, tail: string)
    requires name in {"not(", "all(", "any("} && Pieces(tail, 1) == [tail]
    ensures Pieces(name + tail, 0) == [name + tail]
  {
    var a, b, c := [name[0]], [name[1]], [name[2]];
    assert name[3] == '(' && [name[3]] == "(" && name == a + b + c + "(";
    hide Pieces;
    OnePiece(name[3], tail, 0);
    OnePiece(name[2], "(" + tail, 0);
    OnePiece(name[1], c + ("(" + tail), 0);
    OnePiece(name[0], b + (c + ("(" + tail)), 0);
    assert name + tail == a + (b + (c + ("(" + tail)));
  }

  lemma OnePiece(x: char, tail: string, d: nat)
    requires x != ',' && x != ')' && Pieces(tail, Deeper(x, d)) == [tail]
    ensures Pieces([x] + tail, d) == [[x] + tail]
  {
    assert ([x] + tail)[1..] == tail;
  }

  /** The pieces of each part, one part after another. */
  function SplitAll(parts: seq<Formula>): seq<string> {
    if parts == [] then [] else Split(Print(parts[0])) + SplitAll(parts[1..])
  }

  /** A printed list splits into the pieces of its parts: no comma joins two parts, and none inside a call counts. */
  lemma {:induction false} SplitsBack(parts: seq<Formula>)
    requires forall k :: 0 <= k < |parts| ==> Matched(parts[k])
    ensures Split(PrintList(parts)) == SplitAll(parts)
    ensures forall k :: 0 <= k < |parts| && !parts[k].Atom? ==> Split(Print(parts[k])) == [Print(parts[k])]
    decreases |parts|
  {
    hide Matched, Print, Pieces, Moves;
    forall k | 0 <= k < |parts| && !parts[k].Atom? ensures Split(Print(parts[k])) == [Print(parts[k])] {
      PrintSplits(parts[k]);
    }
    if parts == [] {
      EmptyPieces();
    } else {
      PrintMoves(parts[0]);
      if |parts| == 1 {
        assert parts[1..] == [];
        assert Split(Print(parts[0])) + [] == Split(Print(parts[0]));
      } else {
        PiecesPart(Print(parts[0]), 0, PrintList(parts[1..]));
        NonEmptySplits(Pieces(Print(parts[0]), 0), Pieces(PrintList(parts[1..]), 0));
        SplitsBack(parts[1..]);
      }
    }
  }

  lemma PrintSplits(f: Formula)
    requires Matched(f) && !f.Atom?
    ensures Split(Print(f)) == [Print(f)]
  {
    hide Split, Moves;
    match f
    case Not(g) =>
      PrintMoves(g);
      CallSplits("not(", Print(g));
    case All(parts) =>
      ListMoves(parts);
      CallSplits("all(", PrintList(parts));
    case Any(parts) =>
      ListMoves(parts);
      CallSplits("any(", PrintList(parts));
  }

  lemma EmptyPieces()
    ensures Pieces([], 0) == [[]] && NonEmpty([[]]) == []
  {
  }

  // The checker

  function Squeeze(t: string): (r: string)
    ensures |r| <= |t|
  {
    if t == [] then [] else (if t[0] == ' ' then [] else [t[0]]) + Squeeze(t[1..])
  }

  predicate ImpliesTest(text: string)
    decreases |text|
  {
    var q := Squeeze(text);
    if q == "test" then true
    else if Calls(q, "all(") then
      var parts := Split(q[4..|q| - 1]);
      SplitShortens(q[4..|q| - 1]);
      exists k :: 0 <= k < |parts| && ImpliesTest(parts[k])
    else if Calls(q, "any(") then
      var parts := Split(q[4..|q| - 1]);
      SplitShortens(q[4..|q| - 1]);
      parts != [] && forall k :: 0 <= k < |parts| ==> ImpliesTest(parts[k])
    else false
  }

  // What it answers

  lemma {:induction false} SqueezePlain(t: string)
    requires forall k :: 0 <= k < |t| ==> t[k] != ' '
    ensures Squeeze(t) == t
  {
    if t != [] {
      SqueezePlain(t[1..]);
      assert [t[0]] + t[1..] == t;
    }
  }

  lemma {:induction false} PrintHasNoSpace(f: Formula)
    requires Matched(f)
    ensures NoSpace(Print(f))
    decreases f, 1
  {
    match f
    case Atom(_) =>
    case Not(g) => PrintHasNoSpace(g);
    case All(parts) => ListHasNoSpace(parts);
    case Any(parts) => ListHasNoSpace(parts);
  }

  lemma {:induction false} ListHasNoSpace(parts: seq<Formula>)
    requires forall k :: 0 <= k < |parts| ==> Matched(parts[k])
    ensures NoSpace(PrintList(parts))
    decreases parts, 0
  {
    if parts != [] {
      PrintHasNoSpace(parts[0]);
      ListHasNoSpace(parts[1..]);
    }
  }

  /** The checker's answer as a property of the formula. */
  predicate Implied(f: Formula) {
    match f
    case Atom(text) => text == "test"
    case Not(_) => false
    case All(parts) => exists k :: 0 <= k < |parts| && Implied(parts[k])
    case Any(parts) => parts != [] && forall k :: 0 <= k < |parts| ==> Implied(parts[k])
  }

  // What the checker reads

  /** The formula a text is read as: calls of `all` and `any` are taken apart, all else is an atom. */
  function Read(q: string): Formula
    decreases |q|
  {
    if Calls(q, "all(") then
      var parts := Split(q[4..|q| - 1]);
      SplitShortens(q[4..|q| - 1]);
      All(seq(|parts|, k requires 0 <= k < |parts| => Read(parts[k])))
    else if Calls(q, "any(") then
      var parts := Split(q[4..|q| - 1]);
      SplitShortens(q[4..|q| - 1]);
      Any(seq(|parts|, k requires 0 <= k < |parts| => Read(parts[k])))
    else Atom(q)
  }

  function ReadAll(texts: seq<string>): (r: seq<Formula>)
    ensures |r| == |texts|
  {
    seq(|texts|, k requires 0 <= k < |texts| => Read(texts[k]))
  }

  /** The formula with each atom replaced by what its pieces between commas are read as. */
  function Cut(f: Formula): Formula
    decreases f, 1
  {
    match f
    case Atom(text) => Read(text)
    case Not(_) => f
    case All(parts) => All(CutList(parts))
    case Any(parts) => Any(CutList(parts))
  }

  function CutList(parts: seq<Formula>): seq<Formula>
    decreases parts, 0
  {
    if parts == [] then []
    else (match parts[0] case Atom(text) => ReadAll(Split(text)) case _ => [Cut(parts[0])]) + CutList(parts[1..])
  }

  /** The checker's answers on texts are those on formulas. */
  ghost predicate Alike(texts: seq<string>, fs: seq<Formula>) {
    |texts| == |fs| && forall k :: 0 <= k < |fs| ==> (ImpliesTest(texts[k]) <==> Implied(fs[k]))
  }

  lemma AlikeSome(texts: seq<string>, fs: seq<Formula>)
    requires Alike(texts, fs)
    ensures (exists k :: 0 <= k < |texts| && ImpliesTest(texts[k])) <==> Implied(All(fs))
  {
    hide ImpliesTest;
  }

  lemma AlikeEach(texts: seq<string>, fs: seq<Formula>)
    requires Alike(texts, fs)
    ensures (texts != [] && forall k :: 0 <= k < |texts| ==> ImpliesTest(texts[k])) <==> Implied(Any(fs))
  {
    hide ImpliesTest;
  }

  lemma AlikeBoth(a: seq<string>, fs: seq<Formula>, b: seq<string>, gs: seq<Formula>)
    requires Alike(a, fs) && Alike(b, gs)
    ensures Alike(a + b, fs + gs)
  {
    hide ImpliesTest, Implied;
  }

  lemma {:induction false} PiecesHaveNoSpace(e: string, d: int)
    requires NoSpace(e)
    ensures forall k :: 0 <= k < |Pieces(e, d)| ==> NoSpace(Pieces(e, d)[k])
    decreases |e|
  {
    if e != [] {
      assert NoSpace(e[1..]);
      PiecesHaveNoSpace(e[1..], if e[0] == ',' && d == 0 then 0 else Deeper(e[0], d));
    }
  }

  lemma {:induction false} NonEmptyHasNoSpace(parts: seq<string>)
    requires forall k :: 0 <= k < |parts| ==> NoSpace(parts[k])
    ensures forall k :: 0 <= k < |NonEmpty(parts)| ==> NoSpace(NonEmpty(parts)[k])
    decreases |parts|
  {
    hide NoSpace;
    if parts != [] {
      assert forall k :: 0 <= k < |parts[1..]| ==> parts[1..][k] == parts[k + 1];
      NonEmptyHasNoSpace(parts[1..]);
    }
  }

  lemma SplitHasNoSpace(e: string)
    requires NoSpace(e)
    ensures forall k :: 0 <= k < |Split(e)| ==> NoSpace(Split(e)[k])
  {
    hide NoSpace, Pieces;
    PiecesHaveNoSpace(e, 0);
    NonEmptyHasNoSpace(Pieces(e, 0));
  }

  /** The checker's answer on any text without spaces is that on the formula it is read as. */
  lemma {:induction false} ReadDecides(q: string)
    requires NoSpace(q)
    ensures ImpliesTest(q) <==> Implied(Read(q))
    decreases |q|, 0
  {
    hide Split, ImpliesTest, Implied, Read;
    SqueezePlain(q);
    if Calls(q, "all(") || Calls(q, "any(") {
      var inner := q[4..|q| - 1];
      assert NoSpace(inner);
      SplitShortens(inner);
      SplitHasNoSpace(inner);
      var parts := Split(inner);
      forall k | 0 <= k < |parts| ensures ImpliesTest(parts[k]) <==> Implied(ReadAll(parts)[k]) {
        ReadDecides(parts[k]);
      }
      CallDecides(q, parts);
    } else {
      AtomDecides(q);
    }
  }

  lemma CallDecides(q: string, parts: seq<string>)
    requires Squeeze(q) == q && (Calls(q, "all(") || Calls(q, "any(")) && parts == Split(q[4..|q| - 1])
    requires Alike(parts, ReadAll(parts))
    ensures ImpliesTest(q) <==> Implied(Read(q))
  {
    hide Split, ImpliesTest, Read, Calls, Implied, Alike, ReadAll, Squeeze;
    if Calls(q, "all(") {
      AllAnswers(q, parts);
      AllIsRead(q, parts);
      AlikeSome(parts, ReadAll(parts));
    } else {
      AnyAnswers(q, parts);
      AnyIsRead(q, parts);
      AlikeEach(parts, ReadAll(parts));
    }
  }

  lemma AllAnswers(t: string, parts: seq<string>)
    requires Squeeze(t) == t && Calls(t, "all(") && parts == Split(t[4..|t| - 1])
    ensures ImpliesTest(t) <==> exists k :: 0 <= k < |parts| && ImpliesTest(parts[k])
  {
    hide Split, Squeeze;
    assert t[3] == '(' && "test"[3] == 't';
  }

  lemma AnyAnswers(t: string, parts: seq<string>)
    requires Squeeze(t) == t && !Calls(t, "all(") && Calls(t, "any(") && parts == Split(t[4..|t| - 1])
    ensures ImpliesTest(t) <==> parts != [] && forall k :: 0 <= k < |parts| ==> ImpliesTest(parts[k])
  {
    hide Split, Squeeze;
    assert t[3] == '(' && "test"[3] == 't';
  }

  lemma AllIsRead(q: string, parts: seq<string>)
    requires Calls(q, "all(") && parts == Split(q[4..|q| - 1])
    ensures Read(q) == All(ReadAll(parts))
  {
    hide Split;
    SplitShortens(q[4..|q| - 1]);
    assert Read(q).parts == ReadAll(parts);
  }

  lemma AnyIsRead(q: string, parts: seq<string>)
    requires !Calls(q, "all(") && Calls(q, "any(") && parts == Split(q[4..|q| - 1])
    ensures Read(q) == Any(ReadAll(parts))
  {
    hide Split;
    SplitShortens(q[4..|q| - 1]);
    assert Read(q).parts == ReadAll(parts);
  }

  lemma AtomDecides(q: string)
    requires Squeeze(q) == q && !Calls(q, "all(") && !Calls(q, "any(")
    ensures ImpliesTest(q) <==> Implied(Read(q))
  {
  }

  lemma ReadAllDecides(texts: seq<string>)
    requires forall k :: 0 <= k < |texts| ==> NoSpace(texts[k])
    ensures Alike(texts, ReadAll(texts))
  {
    hide ImpliesTest, Implied, Read;
    forall k | 0 <= k < |texts| ensures ImpliesTest(texts[k]) <==> Implied(Read(texts[k])) {
      ReadDecides(texts[k]);
    }
  }

  lemma Opened(inner: string)
    ensures Calls("all(" + inner + ")", "all(") && ("all(" + inner + ")")[4..|inner| + 4] == inner
    ensures Calls("any(" + inner + ")", "any(") && ("any(" + inner + ")")[4..|inner| + 4] == inner
    ensures !Calls("any(" + inner + ")", "all(") && !Calls("not(" + inner + ")", "all(")
      && !Calls("not(" + inner + ")", "any(")
    ensures ("all(" + inner + ")")[3] == ("any(" + inner + ")")[3] == ("not(" + inner + ")")[3] == '('
  {
    assert ("any(" + inner + ")")[1] == 'n' && "all("[1] == 'l';
    assert ("not(" + inner + ")")[0] == 'n' && "all("[0] == 'a' && "any("[0] == 'a';
  }

  /** On a printed formula the checker answers what holds of the formula cut at its atoms' commas. */
  lemma {:induction false} PrintDecides(f: Formula)
    requires Matched(f)
    ensures ImpliesTest(Print(f)) <==> Implied(Cut(f))
    decreases f, 1
  {
    hide ImpliesTest, Implied, Moves;
    PrintHasNoSpace(f);
    SqueezePlain(Print(f));
    match f
    case Atom(text) => ReadDecides(text);
    case Not(g) => NotReads(g);
    case All(parts) =>
      ListDecides(parts);
      AllReads(parts);
    case Any(parts) =>
      ListDecides(parts);
      AnyReads(parts);
  }

  lemma {:induction false} ListDecides(parts: seq<Formula>)
    requires forall k :: 0 <= k < |parts| ==> Matched(parts[k])
    ensures Alike(SplitAll(parts), CutList(parts))
    decreases parts, 0
  {
    hide ImpliesTest, Implied, Alike, Split, Moves, NoSpace;
    if parts == [] {
      NoneAlike();
    } else {
      ListDecides(parts[1..]);
      match parts[0] {
        case Atom(text) =>
          SplitHasNoSpace(text);
          ReadAllDecides(Split(text));
          AlikeBoth(Split(text), ReadAll(Split(text)), SplitAll(parts[1..]), CutList(parts[1..]));
        case _ =>
          PrintDecides(parts[0]);
          PrintSplits(parts[0]);
          OneAlike(Print(parts[0]), Cut(parts[0]));
          AlikeBoth([Print(parts[0])], [Cut(parts[0])], SplitAll(parts[1..]), CutList(parts[1..]));
      }
    }
  }

  lemma NoneAlike()
    ensures Alike([], [])
  {
  }

  lemma OneAlike(text: string, f: Formula)
    requires ImpliesTest(text) <==> Implied(f)
    ensures Alike([text], [f])
  {
    hide ImpliesTest, Implied;
  }

  lemma NotReads(g: Formula)
    requires Squeeze(Print(Not(g))) == Print(Not(g))
    ensures ImpliesTest(Print(Not(g))) <==> Implied(Not(g))
  {
    hide Squeeze;
    Opened(Print(g));
    assert "test"[3] == 't';
  }

  lemma AllReads(parts: seq<Formula>)
    requires Squeeze(Print(All(parts))) == Print(All(parts)) && forall k :: 0 <= k < |parts| ==> Matched(parts[k])
    requires Alike(SplitAll(parts), CutList(parts))
    ensures ImpliesTest(Print(All(parts))) <==> Implied(All(CutList(parts)))
  {
    hide PrintList, Squeeze, Split, SplitAll, CutList, Matched, ImpliesTest, Implied, Alike;
    Opened(PrintList(parts));
    SplitsBack(parts);
    AllAnswers(Print(All(parts)), SplitAll(parts));
    AlikeSome(SplitAll(parts), CutList(parts));
  }

  lemma AnyReads(parts: seq<Formula>)
    requires Squeeze(Print(Any(parts))) == Print(Any(parts)) && forall k :: 0 <= k < |parts| ==> Matched(parts[k])
    requires Alike(SplitAll(parts), CutList(parts))
    ensures ImpliesTest(Print(Any(parts))) <==> Implied(Any(CutList(parts)))
  {
    hide PrintList, Squeeze, Split, SplitAll, CutList, Matched, ImpliesTest, Implied, Alike;
    Opened(PrintList(parts));
    SplitsBack(parts);
    AnyAnswers(Print(Any(parts)), SplitAll(parts));
    AlikeEach(SplitAll(parts), CutList(parts));
  }

  /** Spaces do not matter. */
  lemma SpacesDoNotMatter(t: string, u: string)
    requires Squeeze(t) == Squeeze(u)
    ensures ImpliesTest(t) <==> ImpliesTest(u)
  {
    hide Split;
  }

  // What the answer means

  /** The formula with each `not(..)` and each empty `any()` taken to hold. */
  predicate Weakly(f: Formula, b: Build) {
    match f
    case Atom(text) => b(text)
    case Not(_) => true
    case All(parts) => forall k :: 0 <= k < |parts| ==> Weakly(parts[k], b)
    case Any(parts) => parts == [] || exists k :: 0 <= k < |parts| && Weakly(parts[k], b)
  }

  lemma {:induction false} HoldsWeakly(f: Formula, b: Build)
    requires Holds(f, b)
    ensures Weakly(f, b)
  {
    match f
    case Atom(_) =>
    case Not(_) =>
    case All(parts) =>
      forall k | 0 <= k < |parts| ensures Weakly(parts[k], b) {
        HoldsWeakly(parts[k], b);
      }
    case Any(parts) =>
      var k :| 0 <= k < |parts| && Holds(parts[k], b);
      HoldsWeakly(parts[k], b);
  }

  lemma {:induction false} ImpliedIsSound(f: Formula, b: Build)
    requires Implied(f) && Weakly(f, b)
    ensures b("test")
  {
    match f
    case Atom(_) =>
    case All(parts) =>
      var k :| 0 <= k < |parts| && Implied(parts[k]);
      ImpliedIsSound(parts[k], b);
    case Any(parts) =>
      var k :| 0 <= k < |parts| && Weakly(parts[k], b);
      ImpliedIsSound(parts[k], b);
  }

  /** Every option but `test`. */
  function Production(): Build { text => text != "test" }

  lemma {:induction false} ProductionDecides(f: Formula)
    ensures Implied(f) <==> !Weakly(f, Production())
  {
    match f
    case Atom(_) =>
    case Not(_) =>
    case All(parts) =>
      forall k | 0 <= k < |parts| ensures Implied(parts[k]) <==> !Weakly(parts[k], Production()) {
        ProductionDecides(parts[k]);
      }
    case Any(parts) =>
      forall k | 0 <= k < |parts| ensures Implied(parts[k]) <==> !Weakly(parts[k], Production()) {
        ProductionDecides(parts[k]);
      }
  }

  lemma TextDecides(f: Formula, t: string)
    requires Matched(f) && Squeeze(t) == Print(f)
    ensures ImpliesTest(t) <==> Implied(Cut(f))
  {
    hide ImpliesTest, Implied, Matched, Print, Cut;
    PrintHasNoSpace(f);
    SqueezePlain(Print(f));
    SpacesDoNotMatter(t, Print(f));
    PrintDecides(f);
  }

  /**
    For every formula whose atoms have matched parentheses, printed with any
    spacing, the answer is exact for the formula cut at its atoms' commas: true if
    and only if no other than a test build satisfies it when each `not(..)` and
    each empty `any()` counts as true.
  */
  lemma CheckerIsExact(f: Formula, t: string)
    requires Matched(f) && Squeeze(t) == Print(f)
    ensures ImpliesTest(t) <==> forall b: Build :: Weakly(Cut(f), b) ==> b("test")
  {
    hide ImpliesTest, Implied, Weakly, Matched, Squeeze, Print, Cut;
    TextDecides(f, t);
    ProductionDecides(Cut(f));
    if ImpliesTest(t) {
      forall b: Build | Weakly(Cut(f), b) ensures b("test") {
        ImpliedIsSound(Cut(f), b);
      }
    } else {
      assert !Production()("test");
    }
  }

  // Where the cut changes nothing

  /** What is read of an atom is the atom, or options of which none is `test`. */
  predicate HarmlessText(t: string) {
    && !Calls(t, "all(") && !Calls(t, "any(") && Split(t) != []
    && forall k :: 0 <= k < |Split(t)| ==>
      && !Calls(Split(t)[k], "all(") && !Calls(Split(t)[k], "any(")
      && (Split(t)[k] == "test" ==> t == "test")
  }

  predicate Harmless(f: Formula) {
    match f
    case Atom(text) => HarmlessText(text)
    case Not(_) => true
    case All(parts) => forall k :: 0 <= k < |parts| ==> Harmless(parts[k])
    case Any(parts) => forall k :: 0 <= k < |parts| ==> Harmless(parts[k])
  }

  lemma {:induction false} CutIsHarmless(f: Formula)
    requires Harmless(f)
    ensures Implied(Cut(f)) <==> Implied(f)
    decreases f, 1
  {
    hide HarmlessText;
    match f
    case Atom(text) => ReadsAtom(text);
    case Not(_) =>
    case All(parts) => CutListIsHarmless(parts);
    case Any(parts) => CutListIsHarmless(parts);
  }

  lemma ReadsAtom(text: string)
    requires HarmlessText(text)
    ensures Read(text) == Atom(text)
  {
    hide Split;
  }

  lemma {:induction false} CutListIsHarmless(parts: seq<Formula>)
    requires forall k :: 0 <= k < |parts| ==> Harmless(parts[k])
    ensures Implied(All(CutList(parts))) <==> Implied(All(parts))
    ensures Implied(Any(CutList(parts))) <==> Implied(Any(parts))
    ensures parts != [] ==> CutList(parts) != []
    decreases parts, 0
  {
    if parts != [] {
      hide Cut, HarmlessText, Harmless;
      var first := match parts[0] case Atom(text) => ReadAll(Split(text)) case _ => [Cut(parts[0])];
      var rest := CutList(parts[1..]);
      if !parts[0].Atom? {
        CutIsHarmless(parts[0]);
      }
      FirstIsHarmless(parts[0], first);
      CutListIsHarmless(parts[1..]);
      JoinImplied(first, rest);
      JoinImplied([parts[0]], parts[1..]);
      assert [parts[0]] + parts[1..] == parts;
      OneImplied(parts[0]);
    }
  }

  /** Whether some, or each, of the formulas implies a test build, part by part. */
  lemma JoinImplied(a: seq<Formula>, b: seq<Formula>)
    ensures Implied(All(a + b)) <==> Implied(All(a)) || Implied(All(b))
    ensures a != [] ==> (Implied(Any(a + b)) <==> Implied(Any(a)) && (b == [] || Implied(Any(b))))
  {
    var s := a + b;
    assert forall k :: 0 <= k < |a| ==> s[k] == a[k];
    assert forall k :: 0 <= k < |b| ==> s[|a| + k] == b[k];
  }

  lemma OneImplied(f: Formula)
    ensures (Implied(All([f])) <==> Implied(f)) && (Implied(Any([f])) <==> Implied(f))
  {
    assert [f][0] == f;
  }

  lemma FirstIsHarmless(f: Formula, first: seq<Formula>)
    requires Harmless(f) && first == match f case Atom(text) => ReadAll(Split(text)) case _ => [Cut(f)]
    requires !f.Atom? ==> (Implied(Cut(f)) <==> Implied(f))
    ensures first != [] && (Implied(All(first)) <==> Implied(f)) && (Implied(Any(first)) <==> Implied(f))
  {
    hide Split, Cut;
    if f.Atom? {
      AtomPieces(f.text);
    } else {
      OneImplied(Cut(f));
    }
  }

  lemma AtomPieces(text: string)
    requires HarmlessText(text)
    ensures var fs := ReadAll(Split(text));
      fs != [] && (Implied(All(fs)) <==> text == "test") && (Implied(Any(fs)) <==> text == "test")
  {
    hide Pieces, NonEmpty;
    var ps, fs := Split(text), ReadAll(Split(text));
    forall k | 0 <= k < |ps| ensures fs[k] == Atom(ps[k]) {
    }
    if text == "test" {
      TestSplits();
    }
    assert Implied(fs[0]) <==> ps[0] == "test";
  }

  lemma TestSplits()
    ensures Split("test") == ["test"]
  {
    assert Pieces("", 0) == [""];
    OnePiece('t', "", 0);
    assert "t" == ['t'] + "" && "st" == ['s'] + "t" && "est" == ['e'] + "st" && "test" == ['t'] + "est";
    OnePiece('s', "t", 0);
    OnePiece('e', "st", 0);
    OnePiece('t', "est", 0);
    assert NonEmpty(["test"]) == ["test"] + NonEmpty([]);
  }

  /**
    Where no comma-separated piece of an atom is `test` or a call, the answer is
    about the formula itself; a true one means that every build in which the
    predicate holds is a test build.
  */
  lemma CheckerIsSound(f: Formula, t: string)
    requires Matched(f) && Harmless(f) && Squeeze(t) == Print(f)
    ensures ImpliesTest(t) <==> forall b: Build :: Weakly(f, b) ==> b("test")
    ensures ImpliesTest(t) ==> forall b: Build :: Holds(f, b) ==> b("test")
  {
    hide ImpliesTest, Implied, Weakly, Holds, Matched, Harmless, Squeeze, Print, Cut;
    TextDecides(f, t);
    CutIsHarmless(f);
    ProductionDecides(f);
    assert !Production()("test");
    if Implied(f) {
      forall b: Build | Weakly(f, b) ensures b("test") {
        ImpliedIsSound(f, b);
      }
    }
    forall b: Build | Holds(f, b) ensures Weakly(f, b) {
      HoldsWeakly(f, b);
    }
  }

  /** Without negation and with no empty `any`, where the weak reading is the formula's own. */
  predicate Positive(f: Formula) {
    match f
    case Atom(_) => true
    case Not(_) => false
    case All(parts) => forall k :: 0 <= k < |parts| ==> Positive(parts[k])
    case Any(parts) => parts != [] && forall k :: 0 <= k < |parts| ==> Positive(parts[k])
  }

  lemma {:induction false} PositiveIsWeak(f: Formula, b: Build)
    requires Positive(f)
    ensures Weakly(f, b) <==> Holds(f, b)
  {
    match f
    case Atom(_) =>
    case All(parts) =>
      forall k | 0 <= k < |parts| ensures Weakly(parts[k], b) <==> Holds(parts[k], b) {
        PositiveIsWeak(parts[k], b);
      }
    case Any(parts) =>
      forall k | 0 <= k < |parts| ensures Weakly(parts[k], b) <==> Holds(parts[k], b) {
        PositiveIsWeak(parts[k], b);
      }
  }

  /** A negation is never taken to imply a test build, though this one does. */
  lemma NegationIsNotRead()
    ensures var f := Not(Not(Atom("test")));
      (forall b: Build :: Holds(f, b) ==> b("test")) && !ImpliesTest(Print(f))
  {
    var f := Not(Not(Atom("test")));
    TestIsMatched();
    PrintDecides(f);
  }

  lemma TestIsMatched()
    ensures MatchedText("test") && MatchedText("unix")
  {
    assert "test"[1..] == "est" && "est"[1..] == "st" && "st"[1..] == "t" && "t"[1..] == "";
    assert "unix"[1..] == "nix" && "nix"[1..] == "ix" && "ix"[1..] == "x" && "x"[1..] == "";
  }

  // Commas inside an option

  const COMMAS := "k=\"x,test,y\""

  /** A quoted option with commas in it. */
  function QuotedCommas(): Formula { All([Atom(COMMAS), Atom("unix")]) }

  /** A comma inside an atom misleads the checker: it takes this predicate, which holds in production, for test-only. */
  lemma CommaMisleads()
    ensures ImpliesTest(Print(QuotedCommas())) && Holds(QuotedCommas(), Production())
  {
    hide ImpliesTest, Print, Cut, CutList;
    var f := QuotedCommas();
    CommasAreMatched();
    PrintDecides(f);
    CommasAreCut();
    assert COMMAS[0] == 'k' && "test"[0] == 't' && "unix"[0] == 'u';
  }

  lemma CommasAreMatched()
    ensures Matched(QuotedCommas())
  {
    TestIsMatched();
    hide Moves;
    assert COMMAS == "k=\"x" + "," + "test" + "," + "y\"";
    NameMoves("all(");
    QuotesMove();
    MovesOn("k=\"x", ",", 0, 0, 0);
    MovesOn("k=\"x" + ",", "test", 0, 0, 0);
    MovesOn("k=\"x" + "," + "test", ",", 0, 0, 0);
    MovesOn("k=\"x" + "," + "test" + ",", "y\"", 0, 0, 0);
  }

  lemma QuotesMove()
    ensures Moves("k=\"x", 0, 0) && Moves("y\"", 0, 0)
  {
    assert "k=\"x"[1..] == "=\"x" && "=\"x"[1..] == "\"x" && "\"x"[1..] == "x" && "x"[1..] == "";
    assert "y\""[1..] == "\"" && "\""[1..] == "";
  }

  /** One of the pieces is `test`. */
  lemma CommasAreCut()
    ensures Implied(Cut(QuotedCommas()))
  {
    hide Pieces, Moves, NonEmpty;
    var x, rest := "k=\"x", "test" + "," + "y\"";
    assert COMMAS == x + "," + rest;
    TestIsMatched();
    QuotesMove();
    PiecesPart(x, 0, rest);
    PiecesPart("test", 0, "y\"");
    NonEmptySplits(Pieces(x, 0), Pieces(rest, 0));
    NonEmptySplits(Pieces("test", 0), Pieces("y\"", 0));
    TestSplits();
    var n := |Split(x)|;
    var ps := Split(COMMAS);
    assert ps == Split(x) + (["test"] + Split("y\""));
    assert ps[n] == "test";
    var parts := QuotedCommas().parts;
    assert parts[0] == Atom(COMMAS);
    assert CutList(parts)[n] == Read("test") == Atom("test");
  }
}

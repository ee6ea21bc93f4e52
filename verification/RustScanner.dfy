/**
  Blanking the comments of Rust source. The scanner knows line comments, nested
  block comments, strings with escapes, raw strings, character literals and
  lifetimes. `word` says which characters continue an identifier besides '_'.
*/
module RustScanner {
  function Min(a: nat, b: nat): nat { if a < b then a else b }

  predicate StartsWith(s: string, i: nat, p: string) { i + |p| <= |s| && s[i..i + |p|] == p }

  predicate Two(s: string, i: nat, a: char, b: char) { i + 1 < |s| && s[i] == a && s[i + 1] == b }

  // Where a token that starts at a position ends

  function LineEnd(s: string, i: nat): (j: nat)
    requires i <= |s|
    ensures i <= j <= |s|
    ensures forall k :: i <= k < j ==> s[k] != '\n'
    ensures j < |s| ==> s[j] == '\n'
    decreases |s| - i
  {
    if i == |s| || s[i] == '\n' then i else LineEnd(s, i + 1)
  }

  /** The end of a block comment entered `depth` deep; an unfinished one runs to the end. */
  function BlockEnd(s: string, i: nat, depth: nat): (j: nat)
    requires i <= |s| && depth > 0
    ensures i <= j <= |s| && (j < |s| ==> 0 < j && s[j - 1] == '/')
    decreases |s| - i
  {
    if i == |s| then i
    else if Two(s, i, '/', '*') then BlockEnd(s, i + 2, depth + 1)
    else if Two(s, i, '*', '/') then (if depth == 1 then i + 2 else BlockEnd(s, i + 2, depth - 1))
    else BlockEnd(s, i + 1, depth)
  }

  /** After the closing quote; an escape skips one character, which may be past the end. */
  function QuotedEnd(s: string, i: nat, quote: char): (j: nat)
    ensures Min(i, |s|) <= j <= |s|
    decreases |s| - i
  {
    if i >= |s| then |s|
    else if s[i] == '\\' then QuotedEnd(s, i + 2, quote)
    else if s[i] == quote then i + 1
    else QuotedEnd(s, i + 1, quote)
  }

  function Hashes(s: string, i: nat): (j: nat)
    requires i <= |s|
    ensures i <= j <= |s| && (forall k :: i <= k < j ==> s[k] == '#') && (j < |s| ==> s[j] != '#')
    decreases |s| - i
  {
    if i < |s| && s[i] == '#' then Hashes(s, i + 1) else i
  }

  predicate RawStart(s: string, i: nat, word: char -> bool)
    requires i < |s|
  {
    && !(i > 0 && (word(s[i - 1]) || s[i - 1] == '_'))
    && var j := Hashes(s, i + 1); j < |s| && s[j] == '"'
  }

  /** `str.find`: where the pattern first starts at or after a position, or past the end. */
  function Find(s: string, p: string, i: nat): (j: nat)
    ensures j + |p| <= |s| ==> j >= i && StartsWith(s, j, p)
    decreases |s| - i
  {
    if i + |p| > |s| then |s| + 1 else if StartsWith(s, i, p) then i else Find(s, p, i + 1)
  }

  function Closing(hashes: nat): (p: string)
    ensures |p| == hashes + 1
  {
    ['"'] + seq(hashes, _ => '#')
  }

  function RawEnd(s: string, i: nat): (j: nat)
    requires i < |s|
    ensures i < j <= |s|
  {
    var q := Hashes(s, i + 1);
    var closing := Closing(q - (i + 1));
    var end := Find(s, closing, q + 1);
    if end + |closing| > |s| then |s| else end + |closing|
  }

  predicate CharLiteral(s: string, i: nat)
    requires i < |s|
  {
    i + 2 < |s| && s[i + 2] == '\'' && s[i + 1] != '\''
  }

  datatype Kind = Comment | Literal | Code

  function KindAt(s: string, i: nat, word: char -> bool): Kind
    requires i < |s|
  {
    if Two(s, i, '/', '/') || Two(s, i, '/', '*') then Comment
    else if s[i] == 'r' && RawStart(s, i, word) then Literal
    else if s[i] == '"' then Literal
    else if s[i] == '\'' && (Two(s, i, '\'', '\\') || CharLiteral(s, i)) then Literal
    else Code
  }

  /** The end of the token at `i`. A lifetime's quote and any other character stand alone. */
  function TokenEnd(s: string, i: nat, word: char -> bool): (j: nat)
    requires i < |s|
    ensures i < j <= |s|
  {
    if Two(s, i, '/', '/') then LineEnd(s, i + 2)
    else if Two(s, i, '/', '*') then BlockEnd(s, i + 2, 1)
    else if s[i] == 'r' && RawStart(s, i, word) then RawEnd(s, i)
    else if s[i] == '"' then QuotedEnd(s, i + 1, '"')
    else if Two(s, i, '\'', '\\') then QuotedEnd(s, i + 1, '\'')
    else if s[i] == '\'' && CharLiteral(s, i) then i + 3
    else i + 1
  }

  function Spaces(t: string): (r: string)
    ensures |r| == |t| && forall k :: 0 <= k < |t| ==> r[k] == if t[k] == '\n' then '\n' else ' '
  {
    seq(|t|, k requires 0 <= k < |t| => if t[k] == '\n' then '\n' else ' ')
  }

  /** The text from `i` on, token by token, with comments blanked. */
  function BlankFrom(s: string, i: nat, word: char -> bool): (r: string)
    requires i <= |s|
    ensures |r| == |s| - i
    decreases |s| - i
  {
    if i == |s| then []
    else
      var j := TokenEnd(s, i, word);
      (if KindAt(s, i, word) == Comment then Spaces(s[i..j]) else s[i..j]) + BlankFrom(s, j, word)
  }

  function Blank(s: string, word: char -> bool): string { BlankFrom(s, 0, word) }

  datatype Span = Span(start: nat, end: nat)

  /** Where the string, raw-string and character literals are. */
  function LiteralsFrom(s: string, i: nat, word: char -> bool): seq<Span>
    requires i <= |s|
    decreases |s| - i
  {
    if i == |s| then []
    else
      var j := TokenEnd(s, i, word);
      (if KindAt(s, i, word) == Literal then [Span(i, j)] else []) + LiteralsFrom(s, j, word)
  }

  // What blanking changes

  /** A character is kept or becomes a space; newlines stay. */
  predicate Blanked(before: char, after: char) { after == before || (after == ' ' && before != '\n') }

  lemma CommentStarts(s: string, i: nat, word: char -> bool)
    requires i < |s| && KindAt(s, i, word) == Comment
    ensures s[i] == '/'
  {
  }

  /** The token at `i`, blanked when it is a comment. */
  function Head(s: string, i: nat, word: char -> bool): string
    requires i < |s|
  {
    var t := s[i..TokenEnd(s, i, word)];
    if KindAt(s, i, word) == Comment then Spaces(t) else t
  }

  lemma BlankStep(s: string, i: nat, word: char -> bool)
    requires i < |s|
    ensures BlankFrom(s, i, word) == Head(s, i, word) + BlankFrom(s, TokenEnd(s, i, word), word)
    ensures |Head(s, i, word)| == TokenEnd(s, i, word) - i
    ensures LiteralsFrom(s, i, word) ==
      (if KindAt(s, i, word) == Literal then [Span(i, TokenEnd(s, i, word))] else [])
        + LiteralsFrom(s, TokenEnd(s, i, word), word)
  {
    hide KindAt, TokenEnd;
  }

  lemma {:induction false} BlankKeeps(s: string, i: nat, word: char -> bool, k: nat)
    requires i + k < |s|
    ensures Blanked(s[i + k], BlankFrom(s, i, word)[k])
    ensures k == 0 && BlankFrom(s, i, word)[0] != s[i] ==> s[i] == '/'
    decreases |s| - i
  {
    hide KindAt, TokenEnd, BlankFrom;
    BlankStep(s, i, word);
    var j := TokenEnd(s, i, word);
    if i + k < j {
      assert s[i..j][k] == s[i + k];
      if KindAt(s, i, word) == Comment {
        CommentStarts(s, i, word);
      }
    } else {
      BlankKeeps(s, j, word, i + k - j);
    }
  }

  /** The text has its length and its lines. */
  lemma BlankKeepsLines(s: string, word: char -> bool, k: nat)
    requires k < |s|
    ensures |Blank(s, word)| == |s|
    ensures Blank(s, word)[k] == '\n' <==> s[k] == '\n'
  {
    BlankKeeps(s, 0, word, k);
  }

  // The blanked text scans as the original

  lemma {:induction false} SameQuotedEnd(s: string, o: string, i: nat, quote: char)
    requires |o| == |s| && forall k :: i <= k < QuotedEnd(s, i, quote) ==> o[k] == s[k]
    ensures QuotedEnd(o, i, quote) == QuotedEnd(s, i, quote)
    decreases |s| - i
  {
    if i < |s| {
      assert o[i] == s[i];
      if s[i] == '\\' {
        SameQuotedEnd(s, o, i + 2, quote);
      } else if s[i] != quote {
        SameQuotedEnd(s, o, i + 1, quote);
      }
    }
  }

  lemma {:induction false} SameHashes(s: string, o: string, i: nat)
    requires |o| == |s| && i <= |s| && (forall k :: i <= k < |s| ==> Blanked(s[k], o[k]))
    requires Hashes(o, i) < |o| && o[Hashes(o, i)] == '"'
    ensures Hashes(s, i) == Hashes(o, i) && s[Hashes(s, i)] == '"'
    decreases |s| - i
  {
    if o[i] == '#' {
      SameHashes(s, o, i + 1);
    }
  }

  lemma {:induction false} SameFind(s: string, o: string, p: string, i: nat)
    requires |o| == |s|
    requires var j := Find(s, p, i); forall k :: i <= k < (if j + |p| <= |s| then j + |p| else |s|) ==> o[k] == s[k]
    ensures Find(o, p, i) == Find(s, p, i)
    decreases |s| - i
  {
    if i + |p| <= |s| {
      assert s[i..i + |p|] == o[i..i + |p|];
      if !StartsWith(s, i, p) {
        SameFind(s, o, p, i + 1);
      }
    }
  }

  /** Whether the character before `i` continues an identifier. */
  predicate InWord(s: string, i: nat, word: char -> bool)
    requires i <= |s|
  {
    i > 0 && (word(s[i - 1]) || s[i - 1] == '_')
  }

  /** `o` is `s` with characters blanked from `i` on, the token at `i` untouched. */
  predicate Follows(s: string, o: string, i: nat, j: nat, word: char -> bool) {
    && i < j <= |s| == |o|
    && (forall k :: i <= k < |s| ==> Blanked(s[k], o[k]))
    && (forall k :: i <= k < j ==> o[k] == s[k])
    && (j < |s| && o[j] != s[j] ==> s[j] == '/')
    && (s[i] == 'r' ==> (InWord(o, i, word) <==> InWord(s, i, word)))
  }

  lemma SameRawStart(s: string, o: string, i: nat, word: char -> bool)
    requires Follows(s, o, i, TokenEndOr(s, i, word), word) && s[i] == 'r'
    ensures RawStart(o, i, word) <==> RawStart(s, i, word)
    ensures RawStart(s, i, word) ==> Hashes(o, i + 1) == Hashes(s, i + 1)
  {
    if RawStart(o, i, word) {
      SameHashes(s, o, i + 1);
    } else if RawStart(s, i, word) {
      RawPrefix(s, i);
      KeptHashes(s, o, i + 1);
    }
  }

  function TokenEndOr(s: string, i: nat, word: char -> bool): nat { if i < |s| then TokenEnd(s, i, word) else i + 1 }

  /** A raw string reaches past its opening quote. */
  lemma RawPrefix(s: string, i: nat)
    requires i < |s| && Hashes(s, i + 1) < |s|
    ensures Hashes(s, i + 1) < RawEnd(s, i)
  {
  }

  lemma {:induction false} KeptHashes(s: string, o: string, i: nat)
    requires |o| == |s| && i <= |s| && Hashes(s, i) < |s| && forall k :: i <= k <= Hashes(s, i) ==> o[k] == s[k]
    ensures Hashes(o, i) == Hashes(s, i)
    decreases |s| - i
  {
    if s[i] == '#' {
      KeptHashes(s, o, i + 1);
    }
  }

  /** A token that is no comment is found again where it was. */
  lemma SameToken(s: string, o: string, i: nat, word: char -> bool)
    requires i < |s| && KindAt(s, i, word) != Comment && Follows(s, o, i, TokenEnd(s, i, word), word)
    ensures KindAt(o, i, word) == KindAt(s, i, word) && TokenEnd(o, i, word) == TokenEnd(s, i, word)
  {
    if s[i] == 'r' {
      SameRawStart(s, o, i, word);
      if RawStart(s, i, word) {
        SameRawEnd(s, o, i);
      }
    } else if s[i] == '"' {
      SameQuotedEnd(s, o, i + 1, '"');
    } else if Two(s, i, '\'', '\\') {
      SameQuotedEnd(s, o, i + 1, '\'');
    }
  }

  lemma SameRawEnd(s: string, o: string, i: nat)
    requires i < |s| == |o| && Hashes(s, i + 1) < |s| && Hashes(o, i + 1) == Hashes(s, i + 1)
    requires forall k :: i <= k < RawEnd(s, i) ==> o[k] == s[k]
    ensures RawEnd(o, i) == RawEnd(s, i)
  {
    hide Hashes, Find, Closing;
    var q := Hashes(s, i + 1);
    var closing := Closing(q - (i + 1));
    SameFind(s, o, closing, q + 1);
  }

  /** Spaces and newlines scan as single characters. */
  lemma {:induction false} SpacesScan(o: string, i: nat, j: nat, word: char -> bool)
    requires i <= j <= |o| && forall k :: i <= k < j ==> o[k] == ' ' || o[k] == '\n'
    ensures BlankFrom(o, i, word) == o[i..j] + BlankFrom(o, j, word)
    ensures LiteralsFrom(o, i, word) == LiteralsFrom(o, j, word)
    decreases j - i
  {
    hide KindAt, TokenEnd, BlankFrom, LiteralsFrom;
    if i < j {
      SpacesScan(o, i + 1, j, word);
      BlankStep(o, i, word);
      SpaceToken(o, i, word);
      assert o[i..j] == o[i..i + 1] + o[i + 1..j];
    } else {
      assert o[i..j] == [];
    }
  }

  lemma SpaceToken(o: string, i: nat, word: char -> bool)
    requires i < |o| && (o[i] == ' ' || o[i] == '\n')
    ensures KindAt(o, i, word) == Code && TokenEnd(o, i, word) == i + 1
  {
  }

  /**
    What follows any text of the same length scans the same after blanking,
    provided a raw string's prefix sees the same kind of character before it.
  */
  lemma {:induction false} Rescan(s: string, i: nat, p: string, word: char -> bool)
    requires i == |p| <= |s| && !word(' ') && !word('/')
    requires i < |s| && s[i] == 'r' ==> (InWord(p, i, word) <==> InWord(s, i, word))
    ensures BlankFrom(p + BlankFrom(s, i, word), i, word) == BlankFrom(s, i, word)
    ensures LiteralsFrom(p + BlankFrom(s, i, word), i, word) == LiteralsFrom(s, i, word)
    decreases |s| - i
  {
    hide KindAt, TokenEnd, BlankFrom, LiteralsFrom, Follows;
    if i < |s| {
      var o, j, head := p + BlankFrom(s, i, word), TokenEnd(s, i, word), Head(s, i, word);
      BlankStep(s, i, word);
      assert o == p + head + BlankFrom(s, j, word);
      assert o[i..j] == head;
      if KindAt(s, i, word) == Comment {
        CommentEnds(s, i, word);
        Rescan(s, j, p + head, word);
        SpacesScan(o, i, j, word);
      } else {
        Rescan(s, j, p + head, word);
        Following(s, i, p, word);
        SameToken(s, o, i, word);
        BlankStep(o, i, word);
      }
    } else {
      assert BlankFrom(s, i, word) == [] && p + [] == p;
      NoLiterals(s, word);
      NoLiterals(p, word);
    }
  }

  /** A comment is followed by nothing, by a newline, or ends in a slash. */
  lemma CommentEnds(s: string, i: nat, word: char -> bool)
    requires i < |s| && KindAt(s, i, word) == Comment
    ensures var j := TokenEnd(s, i, word); j == |s| || s[j] == '\n' || s[j - 1] == '/'
  {
  }

  lemma Following(s: string, i: nat, p: string, word: char -> bool)
    requires i == |p| < |s| && KindAt(s, i, word) != Comment
    requires s[i] == 'r' ==> (InWord(p, i, word) <==> InWord(s, i, word))
    ensures Follows(s, p + BlankFrom(s, i, word), i, TokenEnd(s, i, word), word)
  {
    hide KindAt, TokenEnd, BlankFrom;
    var o, j := p + BlankFrom(s, i, word), TokenEnd(s, i, word);
    forall k | i <= k < |s| ensures Blanked(s[k], o[k]) {
      BlankKeeps(s, i, word, k - i);
    }
    BlankStep(s, i, word);
    assert o == p + s[i..j] + BlankFrom(s, j, word);
    forall k | i <= k < j ensures o[k] == s[k] {
      assert o[k] == s[i..j][k - i];
    }
    if j < |s| {
      BlankKeeps(s, j, word, 0);
      assert o[j] == BlankFrom(s, j, word)[0];
    }
  }

  /** Blanking twice is blanking once, and no literal is lost, found or moved. */
  lemma BlankIsIdempotent(s: string, word: char -> bool)
    requires !word(' ') && !word('/')
    ensures Blank(Blank(s, word), word) == Blank(s, word)
    ensures LiteralsFrom(Blank(s, word), 0, word) == LiteralsFrom(s, 0, word)
  {
    Rescan(s, 0, [], word);
    assert [] + BlankFrom(s, 0, word) == Blank(s, word);
  }

  lemma NoLiterals(s: string, word: char -> bool)
    ensures LiteralsFrom(s, |s|, word) == []
  {
  }

  // The scanner itself

  /** What is still to be written at `i`, inside a block comment `depth` deep or outside. */
  function Left(s: string, i: nat, depth: nat, word: char -> bool): (r: string)
    requires i <= |s|
    ensures |r| == |s| - i
  {
    if depth == 0 then BlankFrom(s, i, word)
    else Spaces(s[i..BlockEnd(s, i, depth)]) + BlankFrom(s, BlockEnd(s, i, depth), word)
  }

  lemma SpacesCut(s: string, i: nat, m: nat, e: nat)
    requires i <= m <= e <= |s|
    ensures Spaces(s[i..e]) == Spaces(s[i..m]) + Spaces(s[m..e])
  {
    assert s[i..e] == s[i..m] + s[m..e];
  }

  function After(c: char, depth: nat): nat
    requires depth > 0
  {
    if c == '/' then depth + 1 else depth - 1
  }

  lemma BlockEndDelimiter(s: string, i: nat, depth: nat)
    requires depth > 0 && (Two(s, i, '/', '*') || Two(s, i, '*', '/'))
    ensures BlockEnd(s, i, depth) == if After(s[i], depth) == 0 then i + 2 else BlockEnd(s, i + 2, After(s[i], depth))
  {
  }

  /** The part `i..m` of a comment is spaces in front of the rest of it. */
  lemma CommentCut(s: string, i: nat, m: nat, e: nat, word: char -> bool)
    requires i <= m <= e <= |s|
    ensures Spaces(s[i..e]) + BlankFrom(s, e, word) == Spaces(s[i..m]) + (Spaces(s[m..e]) + BlankFrom(s, e, word))
  {
    hide BlankFrom;
    SpacesCut(s, i, m, e);
  }

  /** A delimiter inside a block comment. */
  lemma BlockDelimiter(s: string, i: nat, depth: nat, word: char -> bool)
    requires depth > 0 && (Two(s, i, '/', '*') || Two(s, i, '*', '/'))
    ensures Left(s, i, depth, word) == "  " + Left(s, i + 2, After(s[i], depth), word)
  {
    hide BlankFrom, BlockEnd, Spaces;
    BlockEndDelimiter(s, i, depth);
    DelimiterSpaces(s, i);
    var e := BlockEnd(s, i, depth);
    CommentCut(s, i, i + 2, e, word);
    if After(s[i], depth) == 0 {
      assert s[i + 2..e] == [] && Spaces([]) == [];
      assert [] + BlankFrom(s, e, word) == BlankFrom(s, e, word);
    }
  }

  lemma DelimiterSpaces(s: string, i: nat)
    requires i + 2 <= |s| && s[i] != '\n' && s[i + 1] != '\n'
    ensures Spaces(s[i..i + 2]) == "  "
  {
  }

  lemma BlockCharacter(s: string, i: nat, depth: nat, word: char -> bool)
    requires i < |s| && depth > 0 && !Two(s, i, '/', '*') && !Two(s, i, '*', '/')
    ensures Left(s, i, depth, word) == Spaces([s[i]]) + Left(s, i + 1, depth, word)
  {
    hide BlankFrom;
    CommentCut(s, i, i + 1, BlockEnd(s, i, depth), word);
    assert s[i..i + 1] == [s[i]];
  }

  lemma EntersBlock(s: string, i: nat, word: char -> bool)
    requires i < |s| && Two(s, i, '/', '*')
    ensures Left(s, i, 0, word) == "  " + Left(s, i + 2, 1, word)
  {
    hide BlankFrom, BlockEnd, Spaces;
    BlockToken(s, i, word);
    var e := BlockEnd(s, i + 2, 1);
    BlankStep(s, i, word);
    DelimiterSpaces(s, i);
    CommentCut(s, i, i + 2, e, word);
  }

  lemma BlockToken(s: string, i: nat, word: char -> bool)
    requires i < |s| && Two(s, i, '/', '*')
    ensures KindAt(s, i, word) == Comment && TokenEnd(s, i, word) == BlockEnd(s, i + 2, 1)
  {
    hide BlockEnd;
  }

  /** A token kept as it is. */
  lemma KeepsToken(s: string, i: nat, word: char -> bool)
    requires i < |s| && KindAt(s, i, word) != Comment
    ensures Left(s, i, 0, word) == s[i..TokenEnd(s, i, word)] + Left(s, TokenEnd(s, i, word), 0, word)
  {
  }

  /** The text written so far and what is left make up the blanked text; the rest is untouched. */
  ghost predicate Scanning(source: string, out: array<char>, index: nat, depth: nat, word: char -> bool)
    reads out
  {
    && index <= |source| == out.Length
    && out[..index] + Left(source, index, depth, word) == Blank(source, word)
    && forall k :: index <= k < |source| ==> out[k] == source[k]
  }

  lemma Onward(source: string, done: string, more: string, index: nat, next: nat, depth: nat, after: nat,
      word: char -> bool)
    requires index <= next <= |source| && done + Left(source, index, depth, word) == Blank(source, word)
    requires Left(source, index, depth, word) == more + Left(source, next, after, word)
    ensures done + more + Left(source, next, after, word) == Blank(source, word)
  {
    hide Left, Blank;
    assert done + (more + Left(source, next, after, word)) == done + more + Left(source, next, after, word);
  }

  /** Two characters of a comment delimiter become spaces. */
  method BlankDelimiter(source: string, out: array<char>, index: nat, ghost depth: nat, ghost after: nat,
      ghost word: char -> bool)
    requires Scanning(source, out, index, depth, word) && index + 2 <= |source|
    requires Left(source, index, depth, word) == "  " + Left(source, index + 2, after, word)
    modifies out
    ensures Scanning(source, out, index + 2, after, word)
  {
    hide Left, Blank;
    Onward(source, out[..index], "  ", index, index + 2, depth, after, word);
    ghost var before := out[..index];
    out[index], out[index + 1] := ' ', ' ';
    assert out[..index + 2] == before + "  ";
  }

  /** One character inside a block comment; a newline stays. */
  method BlankCharacter(source: string, out: array<char>, index: nat, ghost depth: nat, ghost word: char -> bool)
    requires Scanning(source, out, index, depth, word) && index < |source| && depth > 0
    requires !Two(source, index, '/', '*') && !Two(source, index, '*', '/')
    modifies out
    ensures Scanning(source, out, index + 1, depth, word)
  {
    hide Left, Blank;
    BlockCharacter(source, index, depth, word);
    Onward(source, out[..index], Spaces([source[index]]), index, index + 1, depth, depth, word);
    ghost var before := out[..index];
    if source[index] != '\n' {
      out[index] := ' ';
    }
    assert out[..index + 1] == before + Spaces([source[index]]);
  }

  /** `blank_rust`: the source with its comments overwritten in place. */
  method BlankRust(source: string, word: char -> bool) returns (result: string)
    ensures result == Blank(source, word)
  {
    hide BlankFrom, BlockEnd, KindAt, TokenEnd, Left, Blank;
    var out := new char[|source|](k requires 0 <= k < |source| => source[k]);
    var index, depth := 0, 0;
    StartsWhole(source, word);
    assert out[..0] == [] && [] + Left(source, 0, 0, word) == Left(source, 0, 0, word);
    while index < |source|
      invariant 0 <= depth && Scanning(source, out, index, depth, word)
      decreases |source| - index
    {
      if depth > 0 {
        if Two(source, index, '/', '*') || Two(source, index, '*', '/') {
          BlockDelimiter(source, index, depth, word);
          var after := After(source[index], depth);
          BlankDelimiter(source, out, index, depth, after, word);
          index, depth := index + 2, after;
        } else {
          BlankCharacter(source, out, index, depth, word);
          index := index + 1;
        }
      } else if Two(source, index, '/', '/') {
        index := BlankLine(source, out, index, word);
      } else if Two(source, index, '/', '*') {
        EntersBlock(source, index, word);
        BlankDelimiter(source, out, index, 0, 1, word);
        index, depth := index + 2, 1;
      } else {
        var end := SkipToken(source, index, word);
        KeepsToken(source, index, word);
        Onward(source, out[..index], source[index..end], index, end, 0, 0, word);
        assert out[..end] == out[..index] + source[index..end];
        index := end;
      }
    }
    result := out[..];
    assert out[..] == out[..index];
    assert Left(source, index, depth, word) == [];
  }

  lemma StartsWhole(s: string, word: char -> bool)
    ensures Left(s, 0, 0, word) == Blank(s, word)
  {
  }

  /** A line comment, blanked up to its newline. */
  method BlankLine(source: string, out: array<char>, start: nat, ghost word: char -> bool) returns (index: nat)
    requires Scanning(source, out, start, 0, word) && Two(source, start, '/', '/')
    modifies out
    ensures start < index <= |source| && Scanning(source, out, index, 0, word)
  {
    hide Left, Blank;
    ghost var done := out[..start];
    index := start;
    while index < |source| && source[index] != '\n'
      invariant start <= index <= LineEnd(source, start + 2)
      invariant out[..start] == done
      invariant forall k :: start <= k < index ==> out[k] == ' '
      invariant forall k :: index <= k < |source| ==> out[k] == source[k]
    {
      out[index] := ' ';
      index := index + 1;
    }
    LineIs(source, start, word);
    ghost var blank := Spaces(source[start..index]);
    Onward(source, done, blank, start, index, 0, 0, word);
    assert out[start..index] == blank;
    assert out[..index] == out[..start] + out[start..index];
  }

  lemma LineIs(s: string, i: nat, word: char -> bool)
    requires Two(s, i, '/', '/')
    ensures var j := LineEnd(s, i + 2); Left(s, i, 0, word) == Spaces(s[i..j]) + Left(s, j, 0, word)
  {
  }

  /** The end of a literal or of a single character, by the source's own case order. */
  method SkipToken(source: string, index: nat, word: char -> bool) returns (end: nat)
    requires index < |source| && !Two(source, index, '/', '/') && !Two(source, index, '/', '*')
    ensures KindAt(source, index, word) != Comment && end == TokenEnd(source, index, word)
  {
    hide QuotedEnd, RawEnd, RawStart;
    var raw := false;
    if source[index] == 'r' {
      raw := IsRawStringStart(source, index, word);
    }
    if raw {
      end := RawEnd(source, index);
    } else if source[index] == '"' {
      end := SkipQuoted(source, index, '"');
    } else if source[index] == '\'' {
      if Two(source, index, '\'', '\\') {
        end := SkipQuoted(source, index, '\'');
      } else if CharLiteral(source, index) {
        end := index + 3;
      } else {
        end := index + 1;
      }
    } else {
      end := index + 1;
    }
  }

  method IsRawStringStart(source: string, index: nat, word: char -> bool) returns (raw: bool)
    requires index < |source|
    ensures raw == RawStart(source, index, word)
  {
    if index > 0 && (word(source[index - 1]) || source[index - 1] == '_') {
      return false;
    }
    var cursor := index + 1;
    while cursor < |source| && source[cursor] == '#'
      invariant index < cursor <= |source| && Hashes(source, cursor) == Hashes(source, index + 1)
    {
      cursor := cursor + 1;
    }
    return cursor < |source| && source[cursor] == '"';
  }

  /** Steps over escapes to the closing quote; a last escape may step past the end, where scanning stops. */
  method SkipQuoted(source: string, index: nat, quote: char) returns (end: nat)
    requires index < |source|
    ensures end == QuotedEnd(source, index + 1, quote)
  {
    var cursor := index + 1;
    while cursor < |source|
      invariant index < cursor <= |source| + 1
        && QuotedEnd(source, cursor, quote) == QuotedEnd(source, index + 1, quote)
    {
      if source[cursor] == '\\' {
        cursor := cursor + 2;
      } else if source[cursor] == quote {
        return cursor + 1;
      } else {
        cursor := cursor + 1;
      }
    }
    return |source|;
  }
}

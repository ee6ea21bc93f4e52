/**
  Rust's own comments and literals, given by how tokens are written rather than
  by how the scanner reads: a source text is the printing of a list of tokens
  that stand next to each other lawfully. The scanner finds exactly their
  comments and literals if and only if no token is contested: a raw byte or C
  string that ends elsewhere when read with escapes, or a lifetime or raw
  identifier `r` in front of a string that ends elsewhere when read as raw.
*/
module RustTokens {
  import opened RustScanner

  datatype QChar = Plain(c: char) | Escape(c: char)

  /** The inside of a block comment: characters, and block comments in it. */
  datatype Piece = Ch(c: char) | Nested(pieces: seq<Piece>)

  datatype Token =
    | LineComment(text: string)
    | BlockComment(pieces: seq<Piece>)
    | Str(prefix: string, chars: seq<QChar>)
    | RawStr(prefix: string, hashes: nat, body: string)
    | Chr(prefix: string, chars: seq<QChar>)
    | Lifetime(name: string)
    | Word(name: string)
    | RawIdent(name: string)
    | Punct(c: char)

  // Printing

  function PrintChars(cs: seq<QChar>): string {
    if cs == [] then []
    else (match cs[0] case Plain(c) => [c] case Escape(c) => ['\\', c]) + PrintChars(cs[1..])
  }

  function PrintPieces(ps: seq<Piece>): string
    decreases ps, 0
  {
    if ps == [] then [] else PrintPiece(ps[0]) + PrintPieces(ps[1..])
  }

  function PrintPiece(p: Piece): string
    decreases p, 1
  {
    match p
    case Ch(c) => [c]
    case Nested(ps) => "/*" + PrintPieces(ps) + "*/"
  }

  function Repeat(c: char, n: nat): (r: string)
    ensures |r| == n && forall k :: 0 <= k < n ==> r[k] == c
  {
    seq(n, _ => c)
  }

  function Print(t: Token): string {
    match t
    case LineComment(text) => "//" + text
    case BlockComment(ps) => "/*" + PrintPieces(ps) + "*/"
    case Str(prefix, cs) => prefix + ("\"" + PrintChars(cs) + "\"")
    case RawStr(prefix, n, body) => prefix + Repeat('#', n) + "\"" + body + Closing(n)
    case Chr(prefix, cs) => prefix + ("'" + PrintChars(cs) + "'")
    case Lifetime(name) => "'" + name
    case Word(name) => name
    case RawIdent(name) => "r#" + name
    case Punct(c) => [c]
  }

  function PrintAll(ts: seq<Token>): string { if ts == [] then [] else Print(ts[0]) + PrintAll(ts[1..]) }

  // Which lists of tokens are a Rust text

  /** What is used of the identifier characters. */
  predicate Lexical(word: char -> bool) {
    && word('b') && word('c') && word('r')
    && forall c :: c in {'"', '\'', '#', '/', '\\', '\n', ' '} ==> !word(c)
  }

  predicate Ident(c: char, word: char -> bool) { word(c) || c == '_' }

  predicate IsName(s: string, word: char -> bool) { s != [] && forall k :: 0 <= k < |s| ==> Ident(s[k], word) }

  predicate StartsIdent(s: string, word: char -> bool) { s != [] && Ident(s[0], word) }

  predicate Starts(s: string, c: char) { s != [] && s[0] == c }

  /** Hashes, if any, and then a quote. */
  predicate StartsRaw(s: string) { Hashes(s, 0) < |s| && s[Hashes(s, 0)] == '"' }

  predicate PlainAll(cs: seq<QChar>, quote: char) {
    forall k :: 0 <= k < |cs| && cs[k].Plain? ==> cs[k].c != quote && cs[k].c != '\\'
  }

  /** No delimiter starts at a character: one that does is written as a nested comment or closes this one. */
  predicate PiecesOk(ps: seq<Piece>, rest: string)
    decreases ps, 0
  {
    ps == [] || (PieceOk(ps[0], PrintPieces(ps[1..]) + rest) && PiecesOk(ps[1..], rest))
  }

  predicate PieceOk(p: Piece, rest: string)
    decreases p, 1
  {
    match p
    case Ch(c) => !Two([c] + rest, 0, '/', '*') && !Two([c] + rest, 0, '*', '/')
    case Nested(ps) => PiecesOk(ps, "*/" + rest)
  }

  /** The token may stand in front of the text `rest`. */
  predicate TokenOk(t: Token, rest: string, word: char -> bool) {
    match t
    case LineComment(text) => '\n' !in text && (rest == [] || rest[0] == '\n')
    case BlockComment(ps) => PiecesOk(ps, "*/" + rest)
    case Str(prefix, cs) => prefix in {"", "b", "c"} && PlainAll(cs, '"') && !StartsIdent(rest, word)
    case RawStr(prefix, n, body) =>
      && prefix in {"r", "br", "cr"} && !StartsIdent(rest, word)
      && forall k :: 0 <= k < |body| ==> !StartsWith(body + Closing(n), k, Closing(n))
    case Chr(prefix, cs) =>
      && prefix in {"", "b"} && cs != [] && PlainAll(cs, '\'') && !StartsIdent(rest, word)
      && (if cs[0].Plain? then |cs| == 1 else forall k :: 0 < k < |cs| ==> cs[k].Plain?)
    case Lifetime(name) => IsName(name, word) && !StartsIdent(rest, word) && !Starts(rest, '\'')
    case Word(name) =>
      && IsName(name, word) && !StartsIdent(rest, word)
      && (name in {"r", "br", "cr"} ==> !StartsRaw(rest))
      && (name in {"b", "c"} ==> !Starts(rest, '"')) && (name == "b" ==> !Starts(rest, '\''))
    case RawIdent(name) => IsName(name, word) && !StartsIdent(rest, word)
    case Punct(c) => !Ident(c, word) && c !in {'"', '\''} && (c == '/' ==> !Starts(rest, '/') && !Starts(rest, '*'))
  }

  predicate IsRust(ts: seq<Token>, word: char -> bool) {
    ts == [] || (TokenOk(ts[0], PrintAll(ts[1..]), word) && IsRust(ts[1..], word))
  }

  // What the tokens mark, and what the scanner marks

  /** A comment from start to end, a literal from its opening quote up to and with its closing one. */
  datatype Mark = Mark(comment: bool, start: nat, end: nat)

  function TokenMark(t: Token, at: nat): seq<Mark> {
    var end := at + |Print(t)|;
    match t
    case LineComment(_) => [Mark(true, at, end)]
    case BlockComment(_) => [Mark(true, at, end)]
    case Str(prefix, _) => [Mark(false, at + |prefix|, end)]
    case RawStr(prefix, n, body) => [Mark(false, at + |prefix| + n, at + |prefix| + n + |body| + 2)]
    case Chr(prefix, _) => [Mark(false, at + |prefix|, end)]
    case _ => []
  }

  function RustMarks(ts: seq<Token>, at: nat): seq<Mark> {
    if ts == [] then [] else TokenMark(ts[0], at) + RustMarks(ts[1..], at + |Print(ts[0])|)
  }

  /** The text with Rust's comments blanked. */
  function RustBlank(ts: seq<Token>): string {
    if ts == [] then []
    else (if ts[0].LineComment? || ts[0].BlockComment? then Spaces(Print(ts[0])) else Print(ts[0])) + RustBlank(ts[1..])
  }

  function OpenQuote(s: string, i: nat): nat
    requires i < |s|
  {
    if s[i] == 'r' then Hashes(s, i + 1) else i
  }

  /** After the closing quote of the raw string at `i`; an unfinished one runs to the end. */
  function RawClose(s: string, i: nat): (j: nat)
    requires i < |s|
    ensures i < j <= RawEnd(s, i)
  {
    var q := Hashes(s, i + 1);
    var end := Find(s, Closing(q - (i + 1)), q + 1);
    if end + |Closing(q - (i + 1))| > |s| then |s| else end + 1
  }

  function CloseQuote(s: string, i: nat, word: char -> bool): nat
    requires i < |s|
  {
    if s[i] == 'r' then RawClose(s, i) else TokenEnd(s, i, word)
  }

  function ScanMark(s: string, i: nat, word: char -> bool): seq<Mark>
    requires i < |s|
  {
    match KindAt(s, i, word)
    case Comment => [Mark(true, i, TokenEnd(s, i, word))]
    case Literal => [Mark(false, OpenQuote(s, i), CloseQuote(s, i, word))]
    case Code => []
  }

  function ScanMarks(s: string, i: nat, word: char -> bool): seq<Mark>
    requires i <= |s|
    decreases |s| - i
  {
    if i == |s| then [] else ScanMark(s, i, word) + ScanMarks(s, TokenEnd(s, i, word), word)
  }

  // Contested tokens

  /**
    Read with escapes, the body meets no quote and does not escape the one behind
    it, unless that quote is the text's last character.
  */
  predicate ReadsAlike(body: string, last: bool) {
    if body == [] then true
    else if body[0] == '\\' then (if |body| > 1 then ReadsAlike(body[2..], last) else last)
    else body[0] != '"' && ReadsAlike(body[1..], last)
  }

  /** Read as raw behind an `r`, the string the text starts with ends elsewhere. */
  predicate RawMatters(rest: string) {
    StartsRaw(rest) && RawClose("r" + rest, 0) != 1 + QuotedEnd(rest, Hashes(rest, 0) + 1, '"')
  }

  predicate ContestedToken(t: Token, rest: string) {
    match t
    case RawStr(prefix, n, body) => prefix != "r" && !ReadsAlike(body, n == 0 && rest == [])
    case Lifetime(name) => name == "r" && RawMatters(rest)
    case RawIdent(name) => name == "r" && RawMatters(rest)
    case _ => false
  }

  predicate Contested(ts: seq<Token>) {
    ts != [] && (ContestedToken(ts[0], PrintAll(ts[1..])) || Contested(ts[1..]))
  }

  // Scanning from one place to another

  /** From `i` the scanner comes to `j`, having marked `m` and written `b`. */
  predicate Over(s: string, i: nat, j: nat, word: char -> bool, m: seq<Mark>, b: string) {
    && i <= j <= |s|
    && ScanMarks(s, i, word) == m + ScanMarks(s, j, word)
    && BlankFrom(s, i, word) == b + BlankFrom(s, j, word)
  }

  lemma OverToken(s: string, i: nat, word: char -> bool)
    requires i < |s|
    ensures Over(s, i, TokenEnd(s, i, word), word, ScanMark(s, i, word), Head(s, i, word))
  {
    hide KindAt, TokenEnd, ScanMark;
    BlankStep(s, i, word);
  }

  lemma OverBoth(
    s: string, i: nat, j: nat, k: nat, word: char -> bool, m: seq<Mark>, b: string, m': seq<Mark>, b': string)
    requires Over(s, i, j, word, m, b) && Over(s, j, k, word, m', b')
    ensures Over(s, i, k, word, m + m', b + b')
  {
    hide ScanMarks, BlankFrom;
    assert m + (m' + ScanMarks(s, k, word)) == m + m' + ScanMarks(s, k, word);
    assert b + (b' + BlankFrom(s, k, word)) == b + b' + BlankFrom(s, k, word);
  }

  lemma OverNothing(s: string, i: nat, word: char -> bool)
    requires i <= |s|
    ensures Over(s, i, i, word, [], [])
  {
    hide ScanMarks, BlankFrom;
    assert [] + ScanMarks(s, i, word) == ScanMarks(s, i, word) && [] + BlankFrom(s, i, word) == BlankFrom(s, i, word);
  }

  predicate Alone(s: string, i: nat, word: char -> bool)
    requires i < |s|
  {
    KindAt(s, i, word) == Code && TokenEnd(s, i, word) == i + 1
  }

  lemma {:induction false} OverCode(s: string, i: nat, j: nat, word: char -> bool)
    requires i <= j <= |s| && forall k :: i <= k < j ==> Alone(s, k, word)
    ensures Over(s, i, j, word, [], s[i..j])
    decreases j - i
  {
    hide KindAt, TokenEnd, Over;
    if i == j {
      OverNothing(s, i, word);
      assert s[i..j] == [];
    } else {
      assert Alone(s, i, word);
      OverToken(s, i, word);
      OverCode(s, i + 1, j, word);
      var none: seq<Mark> := [];
      OverBoth(s, i, i + 1, j, word, none, s[i..i + 1], none, s[i + 1..j]);
      assert s[i..i + 1] + s[i + 1..j] == s[i..j] && none + none == none;
    }
  }

  /** A character that starts nothing. */
  lemma QuietChar(s: string, i: nat, word: char -> bool)
    requires i < |s| && s[i] !in {'"', '\'', '/'} && (s[i] == 'r' ==> !RawStart(s, i, word))
    ensures Alone(s, i, word)
  {
  }

  lemma SlashAlone(s: string, i: nat, word: char -> bool)
    requires i < |s| && s[i] == '/' && (i + 1 < |s| ==> s[i + 1] !in {'/', '*'})
    ensures Alone(s, i, word)
  {
  }

  /** A name scans character by character, but for an `r` alone in front of a string. */
  lemma NameScans(s: string, i: nat, j: nat, word: char -> bool)
    requires Lexical(word) && i < j <= |s| && IsName(s[i..j], word)
    requires s[i..j] == "r" ==> InWord(s, i, word) || !StartsRaw(s[j..])
    ensures Over(s, i, j, word, [], s[i..j])
  {
    forall k | i <= k < j ensures Alone(s, k, word) {
      assert s[k] == s[i..j][k - i];
      if s[k] == 'r' {
        if k > i {
          assert s[k - 1] == s[i..j][k - 1 - i];
        } else if k + 1 < j {
          assert s[k + 1] == s[i..j][k + 1 - i];
          NoHash(s, k + 1);
        } else {
          assert s[i..j] == "r";
          ShiftHashes(s, j, 0);
        }
      }
      QuietChar(s, k, word);
    }
    OverCode(s, i, j, word);
  }

  lemma NoHash(s: string, i: nat)
    requires i < |s| && s[i] != '#'
    ensures Hashes(s, i) == i
  {
  }

  // Reading at a place of a text is reading its rest

  lemma {:induction false} ShiftHashes(s: string, i: nat, k: nat)
    requires i + k <= |s|
    ensures Hashes(s, i + k) == i + Hashes(s[i..], k)
    decreases |s| - (i + k)
  {
    if i + k < |s| && s[i + k] == '#' {
      ShiftHashes(s, i, k + 1);
    }
  }

  lemma {:induction false} ShiftQuoted(s: string, i: nat, k: nat, quote: char)
    requires i <= |s|
    ensures QuotedEnd(s, i + k, quote) == i + QuotedEnd(s[i..], k, quote)
    decreases |s| - (i + k)
  {
    if i + k < |s| {
      if s[i + k] == '\\' {
        ShiftQuoted(s, i, k + 2, quote);
      } else if s[i + k] != quote {
        ShiftQuoted(s, i, k + 1, quote);
      }
    }
  }

  lemma {:induction false} ShiftFind(s: string, p: string, i: nat, k: nat)
    requires i <= |s|
    ensures Find(s, p, i + k) == i + Find(s[i..], p, k)
    decreases |s| - (i + k)
  {
    if i + k + |p| <= |s| {
      assert s[i + k..i + k + |p|] == s[i..][k..k + |p|];
      if !StartsWith(s, i + k, p) {
        ShiftFind(s, p, i, k + 1);
      }
    }
  }

  lemma ShiftRawClose(s: string, i: nat)
    requires i < |s|
    ensures RawClose(s, i) == i + RawClose(s[i..], 0)
  {
    hide Find, Hashes, Closing;
    ShiftHashes(s, i, 1);
    var q := Hashes(s, i + 1);
    ShiftFind(s, Closing(q - (i + 1)), i, q - i + 1);
  }

  // What each token's text scans as

  lemma {:induction false} CharsEnd(s: string, i: nat, cs: seq<QChar>, quote: char, rest: string)
    requires PlainAll(cs, quote) && quote != '\\' && i <= |s| && s[i..] == PrintChars(cs) + ([quote] + rest)
    ensures QuotedEnd(s, i, quote) == i + |PrintChars(cs)| + 1
    decreases |cs|
  {
    hide PrintChars;
    var more := [quote] + rest;
    if cs == [] {
      NoChars();
      assert s[i..] == more;
      Suffix(s, i, [quote], rest);
      assert s[i + 0] == quote;
    } else {
      FirstChar(cs);
      var first := PrintChars(cs[..1]);
      assert s[i..] == first + (PrintChars(cs[1..]) + more);
      Suffix(s, i, first, PrintChars(cs[1..]) + more);
      assert s[i + 0] == first[0];
      assert forall k :: 0 <= k < |cs[1..]| ==> cs[1..][k] == cs[k + 1];
      CharsEnd(s, i + |first|, cs[1..], quote, rest);
    }
  }

  lemma NoChars()
    ensures PrintChars([]) == []
  {
  }

  lemma FirstChar(cs: seq<QChar>)
    requires cs != []
    ensures PrintChars(cs) == PrintChars(cs[..1]) + PrintChars(cs[1..])
    ensures PrintChars(cs[..1]) == match cs[0] case Plain(c) => [c] case Escape(c) => ['\\', c]
  {
    assert cs[..1] == [cs[0]] && [cs[0]][1..] == [];
  }

  lemma LineOver(s: string, i: nat, text: string, word: char -> bool)
    requires i + 2 + |text| <= |s| && s[i..i + 2 + |text|] == "//" + text && '\n' !in text
    requires i + 2 + |text| < |s| ==> s[i + 2 + |text|] == '\n'
    ensures Over(s, i, i + 2 + |text|, word, [Mark(true, i, i + 2 + |text|)], Spaces("//" + text))
  {
    hide Over;
    var j := i + 2 + |text|;
    assert s[i] == '/' && s[i + 1] == '/';
    assert LineEnd(s, i + 2) == j by {
      forall k | i + 2 <= k < j ensures s[k] != '\n' {
        assert s[k] == s[i..j][k - i] == text[k - i - 2];
      }
    }
    OverToken(s, i, word);
  }

  /** A text cut after its first part. */
  lemma Suffix(s: string, i: nat, x: string, y: string)
    requires i <= |s| && s[i..] == x + y
    ensures i + |x| <= |s| && s[i + |x|..] == y && s[i..i + |x|] == x
    ensures forall k :: 0 <= k < |x| ==> s[i + k] == x[k]
  {
    assert forall k :: 0 <= k < |x| ==> s[i..][k] == s[i + k];
  }

  lemma BlockOpens(s: string, i: nat, depth: nat)
    requires depth > 0 && Two(s, i, '/', '*')
    ensures BlockEnd(s, i, depth) == BlockEnd(s, i + 2, depth + 1)
  {
  }

  lemma BlockCloses(s: string, i: nat, depth: nat)
    requires depth > 0 && Two(s, i, '*', '/')
    ensures BlockEnd(s, i, depth) == if depth == 1 then i + 2 else BlockEnd(s, i + 2, depth - 1)
  {
  }

  lemma BlockGoesOn(s: string, i: nat, depth: nat)
    requires depth > 0 && i < |s| && !Two(s, i, '/', '*') && !Two(s, i, '*', '/')
    ensures BlockEnd(s, i, depth) == BlockEnd(s, i + 1, depth)
  {
  }

  /** The pieces of a block comment leave its depth as it was. */
  lemma {:induction false} PiecesScan(s: string, i: nat, ps: seq<Piece>, rest: string, depth: nat)
    requires depth > 0 && i <= |s| && s[i..] == PrintPieces(ps) + rest && PiecesOk(ps, rest)
    ensures i + |PrintPieces(ps)| <= |s| && BlockEnd(s, i, depth) == BlockEnd(s, i + |PrintPieces(ps)|, depth)
    decreases ps, 0
  {
    hide BlockEnd, PrintPiece, PieceOk, PrintPieces, PiecesOk;
    PiecesStep(ps, rest);
    if ps != [] {
      var first, later := PrintPiece(ps[0]), PrintPieces(ps[1..]);
      Regroup(first, later, rest);
      Suffix(s, i, first, later + rest);
      PieceScans(s, i, ps[0], later + rest, depth);
      PiecesScan(s, i + |first|, ps[1..], rest, depth);
      assert i + |first| + |later| == i + |PrintPieces(ps)|;
    } else {
      assert |PrintPieces(ps)| == 0;
    }
  }

  lemma Regroup(a: string, b: string, c: string)
    ensures a + b + c == a + (b + c)
  {
  }

  lemma PiecesStep(ps: seq<Piece>, rest: string)
    ensures ps == [] ==> PrintPieces(ps) == []
    ensures ps != [] ==> PrintPieces(ps) == PrintPiece(ps[0]) + PrintPieces(ps[1..])
    ensures ps != [] && PiecesOk(ps, rest) ==>
      PieceOk(ps[0], PrintPieces(ps[1..]) + rest) && PiecesOk(ps[1..], rest)
  {
    hide PrintPiece, PieceOk;
  }

  lemma {:induction false} PieceScans(s: string, i: nat, p: Piece, rest: string, depth: nat)
    requires depth > 0 && i <= |s| && s[i..] == PrintPiece(p) + rest && PieceOk(p, rest)
    ensures i + |PrintPiece(p)| <= |s| && BlockEnd(s, i, depth) == BlockEnd(s, i + |PrintPiece(p)|, depth)
    decreases p, 1
  {
    hide BlockEnd, PrintPieces, PiecesOk;
    match p
    case Ch(c) =>
      TwoShifts(s, i, '/', '*');
      TwoShifts(s, i, '*', '/');
      BlockGoesOn(s, i, depth);
    case Nested(ps) =>
      NestedScans(s, i, ps, rest);
      BlockOpens(s, i, depth);
      PiecesScan(s, i + 2, ps, "*/" + rest, depth + 1);
      BlockCloses(s, i + 2 + |PrintPieces(ps)|, depth + 1);
  }

  lemma TwoShifts(s: string, i: nat, a: char, b: char)
    requires i <= |s|
    ensures Two(s, i, a, b) <==> Two(s[i..], 0, a, b)
  {
  }

  /** The delimiters of a block comment and what is between them. */
  lemma NestedScans(s: string, i: nat, ps: seq<Piece>, rest: string)
    requires i <= |s| && s[i..] == "/*" + PrintPieces(ps) + "*/" + rest
    ensures Two(s, i, '/', '*') && s[i + 2..] == PrintPieces(ps) + ("*/" + rest)
    ensures Two(s, i + 2 + |PrintPieces(ps)|, '*', '/')
  {
    hide PrintPieces;
    var inner := PrintPieces(ps);
    assert s[i..] == "/*" + (inner + ("*/" + rest));
    Suffix(s, i, "/*", inner + ("*/" + rest));
    Suffix(s, i + 2, inner, "*/" + rest);
    Suffix(s, i + 2 + |inner|, "*/", rest);
    assert s[i + 1] == s[i + 2 - 1];
  }

  lemma CommentOver(s: string, i: nat, j: nat, word: char -> bool)
    requires i < |s| && KindAt(s, i, word) == Comment && TokenEnd(s, i, word) == j
    ensures Over(s, i, j, word, [Mark(true, i, j)], Spaces(s[i..j]))
  {
    hide KindAt, TokenEnd, Over;
    OverToken(s, i, word);
  }

  lemma BlockEnds(s: string, i: nat, ps: seq<Piece>, rest: string)
    requires i <= |s| && s[i..] == "/*" + PrintPieces(ps) + "*/" + rest && PiecesOk(ps, "*/" + rest)
    ensures Two(s, i, '/', '*') && BlockEnd(s, i + 2, 1) == i + 4 + |PrintPieces(ps)|
  {
    hide BlockEnd, PrintPieces, PiecesOk;
    NestedScans(s, i, ps, rest);
    PiecesScan(s, i + 2, ps, "*/" + rest, 1);
    BlockCloses(s, i + 2 + |PrintPieces(ps)|, 1);
  }

  lemma BlockOver(s: string, i: nat, ps: seq<Piece>, t: string, rest: string, word: char -> bool)
    requires t == "/*" + PrintPieces(ps) + "*/" && i <= |s| && s[i..] == t + rest && PiecesOk(ps, "*/" + rest)
    ensures Over(s, i, i + |t|, word, [Mark(true, i, i + |t|)], Spaces(t))
  {
    hide Over, BlockEnd, PrintPieces, PiecesOk, KindAt, TokenEnd, Two, Spaces;
    BlockEnds(s, i, ps, rest);
    BlockToken(s, i, word);
    Suffix(s, i, t, rest);
    CommentOver(s, i, i + |t|, word);
  }

  // Strings and characters

  lemma LiteralOver(s: string, i: nat, word: char -> bool)
    requires i < |s| && KindAt(s, i, word) == Literal
    ensures var j := TokenEnd(s, i, word);
      Over(s, i, j, word, [Mark(false, OpenQuote(s, i), CloseQuote(s, i, word))], s[i..j])
  {
    hide KindAt, TokenEnd, Over, OpenQuote, CloseQuote;
    OverToken(s, i, word);
  }

  lemma QuoteStarts(s: string, i: nat, word: char -> bool)
    requires i < |s| && s[i] == '"'
    ensures KindAt(s, i, word) == Literal && TokenEnd(s, i, word) == QuotedEnd(s, i + 1, '"')
    ensures OpenQuote(s, i) == i && CloseQuote(s, i, word) == TokenEnd(s, i, word)
  {
    hide QuotedEnd;
  }

  lemma CharStarts(s: string, i: nat, word: char -> bool)
    requires i < |s| && s[i] == '\'' && (Two(s, i, '\'', '\\') || CharLiteral(s, i))
    ensures KindAt(s, i, word) == Literal && OpenQuote(s, i) == i && CloseQuote(s, i, word) == TokenEnd(s, i, word)
    ensures TokenEnd(s, i, word) == if Two(s, i, '\'', '\\') then QuotedEnd(s, i + 1, '\'') else i + 3
  {
    hide QuotedEnd;
  }

  /** A text between two quotes. */
  lemma Between(s: string, i: nat, q: char, inner: string, rest: string)
    requires i <= |s| && s[i..] == [q] + inner + [q] + rest
    ensures i + |inner| + 2 <= |s| && s[i] == q && s[i + 1..] == inner + ([q] + rest)
    ensures s[i..i + |inner| + 2] == [q] + inner + [q]
    ensures inner != [] ==> s[i + 1] == inner[0]
  {
    assert s[i..] == [q] + (inner + ([q] + rest));
    Suffix(s, i, [q], inner + ([q] + rest));
    Suffix(s, i + 1, inner, [q] + rest);
    Suffix(s, i + 1 + |inner|, [q], rest);
    Suffix(s, i, [q] + inner + [q], rest);
    assert inner != [] ==> s[i + 1 + 0] == inner[0];
  }

  lemma StrOver(s: string, i: nat, cs: seq<QChar>, rest: string, word: char -> bool)
    requires i <= |s| && s[i..] == "\"" + PrintChars(cs) + "\"" + rest && PlainAll(cs, '"')
    ensures var t := "\"" + PrintChars(cs) + "\""; Over(s, i, i + |t|, word, [Mark(false, i, i + |t|)], t)
  {
    hide Over, PrintChars, QuotedEnd, KindAt, TokenEnd, OpenQuote, CloseQuote, PlainAll;
    Between(s, i, '"', PrintChars(cs), rest);
    CharsEnd(s, i + 1, cs, '"', rest);
    QuoteStarts(s, i, word);
    LiteralOver(s, i, word);
  }

  lemma ChrOver(s: string, i: nat, cs: seq<QChar>, rest: string, word: char -> bool)
    requires i <= |s| && s[i..] == "'" + PrintChars(cs) + "'" + rest && TokenOk(Chr("", cs), rest, word)
    ensures var t := "'" + PrintChars(cs) + "'"; Over(s, i, i + |t|, word, [Mark(false, i, i + |t|)], t)
  {
    hide Over, PrintChars, QuotedEnd, KindAt, TokenEnd, OpenQuote, CloseQuote;
    var inner := PrintChars(cs);
    Between(s, i, '\'', inner, rest);
    FirstChar(cs);
    if cs[0].Plain? {
      OnePlain(cs);
    } else {
      CharsEnd(s, i + 1, cs, '\'', rest);
    }
    CharStarts(s, i, word);
    LiteralOver(s, i, word);
  }

  lemma OnePlain(cs: seq<QChar>)
    requires |cs| == 1 && cs[0].Plain?
    ensures PrintChars(cs) == [cs[0].c]
  {
    assert cs[1..] == [];
  }

  // Raw strings

  lemma RawAt(s: string, i: nat, word: char -> bool)
    requires i < |s| && s[i] == 'r' && !InWord(s, i, word) && StartsRaw(s[i + 1..])
    ensures Over(s, i, RawEnd(s, i), word, [Mark(false, Hashes(s, i + 1), RawClose(s, i))], s[i..RawEnd(s, i)])
  {
    hide Over, RawEnd, RawClose, Hashes;
    ShiftHashes(s, i + 1, 0);
    assert RawStart(s, i, word);
    LiteralOver(s, i, word);
  }

  lemma {:induction false} HashesAre(s: string, i: nat, n: nat)
    requires i + n < |s| && s[i + n] != '#' && forall k :: i <= k < i + n ==> s[k] == '#'
    ensures Hashes(s, i) == i + n
    decreases n
  {
    if n > 0 {
      HashesAre(s, i + 1, n - 1);
    }
  }

  lemma {:induction false} FindIs(s: string, p: string, i: nat, j: nat)
    requires i <= j && StartsWith(s, j, p) && forall k :: i <= k < j ==> !StartsWith(s, k, p)
    ensures Find(s, p, i) == j
    decreases j - i
  {
    if i < j {
      FindIs(s, p, i + 1, j);
    }
  }

  /** The text of a raw string from its hashes on. */
  function RawTail(n: nat, body: string): string { Repeat('#', n) + "\"" + body + Closing(n) }

  lemma RawTailIs(s: string, i: nat, n: nat, body: string, rest: string)
    requires i <= |s| && s[i..] == RawTail(n, body) + rest
    ensures i + n < |s| && Hashes(s, i) == i + n && s[i + n] == '"'
    ensures forall k :: i <= k < i + n ==> s[k] == '#'
    ensures s[i + n..] == "\"" + (body + Closing(n) + rest) && s[i + n + 1..] == body + Closing(n) + rest
  {
    hide Closing, Repeat;
    var hashes, more := Repeat('#', n), body + Closing(n) + rest;
    assert s[i..] == hashes + ("\"" + more);
    Suffix(s, i, hashes, "\"" + more);
    Suffix(s, i + n, "\"", more);
    assert s[i + n + 0] == '"';
    forall k | i <= k < i + n ensures s[k] == '#' {
      assert s[i + (k - i)] == hashes[k - i];
    }
    HashesAre(s, i, n);
  }

  lemma ClosingFound(s: string, i: nat, n: nat, body: string, rest: string)
    requires i <= |s| && s[i..] == body + Closing(n) + rest
    requires forall k :: 0 <= k < |body| ==> !StartsWith(body + Closing(n), k, Closing(n))
    ensures Find(s, Closing(n), i) == i + |body| && i + |body| + |Closing(n)| <= |s|
  {
    hide Closing;
    var p, t := Closing(n), body + Closing(n);
    Suffix(s, i, t, rest);
    var j := i + |body|;
    assert s[j..j + |p|] == p by {
      assert s[i..i + |t|][|body|..] == p;
    }
    forall k | i <= k < j ensures !StartsWith(s, k, p) {
      assert s[k..k + |p|] == s[i..i + |t|][k - i..k - i + |p|];
      assert !StartsWith(t, k - i, p);
    }
    FindIs(s, p, i, j);
  }

  lemma RawEnds(s: string, i: nat, n: nat, body: string, rest: string)
    requires i < |s| && s[i + 1..] == RawTail(n, body) + rest
    requires forall k :: 0 <= k < |body| ==> !StartsWith(body + Closing(n), k, Closing(n))
    ensures RawEnd(s, i) == i + 1 + |RawTail(n, body)| && Hashes(s, i + 1) == i + 1 + n
    ensures RawClose(s, i) == i + n + |body| + 3
  {
    hide Closing, Repeat, Find, Hashes;
    RawTailIs(s, i + 1, n, body, rest);
    ClosingFound(s, i + 2 + n, n, body, rest);
  }

  /** Characters that stand alone and then a string with escapes. */
  lemma ThenQuoted(s: string, i: nat, q: nat, word: char -> bool)
    requires i <= q < |s| && s[q] == '"' && forall k :: i <= k < q ==> Alone(s, k, word)
    ensures var e := QuotedEnd(s, q + 1, '"'); Over(s, i, e, word, [Mark(false, q, e)], s[i..e])
  {
    hide Over, QuotedEnd, KindAt, TokenEnd, OpenQuote, CloseQuote, Alone;
    OverCode(s, i, q, word);
    QuoteStarts(s, q, word);
    LiteralOver(s, q, word);
    var e := QuotedEnd(s, q + 1, '"');
    var none: seq<Mark> := [];
    OverBoth(s, i, q, e, word, none, s[i..q], [Mark(false, q, e)], s[q..e]);
    assert none + [Mark(false, q, e)] == [Mark(false, q, e)] && s[i..q] + s[q..e] == s[i..e];
  }

  /** Behind a prefix that is not `r` alone the scanner takes the string with escapes. */
  lemma ByteRawOver(s: string, i: nat, n: nat, body: string, rest: string, word: char -> bool)
    requires Lexical(word) && i + 2 <= |s| && s[i] in {'b', 'c'} && s[i + 1] == 'r'
    requires s[i + 2..] == RawTail(n, body) + rest
    ensures i + 2 + n < |s|
    ensures var q := i + 2 + n; var e := QuotedEnd(s, q + 1, '"'); Over(s, i, e, word, [Mark(false, q, e)], s[i..e])
  {
    hide Over, RawTail, QuotedEnd, Alone, Lexical, Hashes;
    PrefixesAlone(s, i, n, body, rest, word);
    ThenQuoted(s, i, i + 2 + n, word);
  }

  lemma PrefixesAlone(s: string, i: nat, n: nat, body: string, rest: string, word: char -> bool)
    requires Lexical(word) && i + 2 <= |s| && s[i] in {'b', 'c'} && s[i + 1] == 'r'
    requires s[i + 2..] == RawTail(n, body) + rest
    ensures i + 2 + n < |s| && s[i + 2 + n] == '"' && forall k :: i <= k < i + 2 + n ==> Alone(s, k, word)
  {
    hide RawTail, Alone, Lexical, Hashes;
    RawTailIs(s, i + 2, n, body, rest);
    forall k | i <= k < i + 2 + n ensures Alone(s, k, word) {
      PrefixAlone(s, i, i + 2 + n, k, word);
    }
  }

  /** Behind `b` or `c` an `r` and hashes start nothing. */
  lemma PrefixAlone(s: string, i: nat, q: nat, k: nat, word: char -> bool)
    requires Lexical(word) && i + 2 <= q <= |s| && s[i] in {'b', 'c'} && s[i + 1] == 'r'
    requires i <= k < q && (k >= i + 2 ==> s[k] == '#')
    ensures Alone(s, k, word)
  {
    hide Alone, RawStart;
    if k == i + 1 {
      WordIsNotRaw(s, k, word);
    }
    QuietChar(s, k, word);
  }

  lemma WordIsNotRaw(s: string, k: nat, word: char -> bool)
    requires k < |s| && InWord(s, k, word)
    ensures !RawStart(s, k, word)
  {
  }

  /** One token and the ones after it. */
  lemma Steps(ts: seq<Token>, at: nat, word: char -> bool)
    requires ts != []
    ensures PrintAll(ts) == Print(ts[0]) + PrintAll(ts[1..])
    ensures RustMarks(ts, at) == TokenMark(ts[0], at) + RustMarks(ts[1..], at + |Print(ts[0])|)
    ensures RustBlank(ts) == Written(ts[0]) + RustBlank(ts[1..])
    ensures Contested(ts) <==> ContestedToken(ts[0], PrintAll(ts[1..])) || Contested(ts[1..])
    ensures IsRust(ts, word) ==> TokenOk(ts[0], PrintAll(ts[1..]), word) && IsRust(ts[1..], word)
  {
    hide Print, TokenMark, ContestedToken, TokenOk;
  }

  // Tokens in their place

  /** Between `i - 1` and `i` no name goes on. */
  predicate Apart(s: string, i: nat, word: char -> bool)
    requires i <= |s|
  {
    i < |s| && Ident(s[i], word) ==> !InWord(s, i, word)
  }

  /** The text a token is scanned to, comments blanked. */
  function Written(t: Token): string { if t.LineComment? || t.BlockComment? then Spaces(Print(t)) else Print(t) }

  /** Whether the scanner takes this name for the start of a raw string. */
  predicate Eaten(t: Token, rest: string) { (t.Lifetime? || t.RawIdent?) && t.name == "r" && StartsRaw(rest) }

  /** A prefix of at most one character in front of a literal. */
  lemma PrefixOver(s: string, i: nat, prefix: string, j: nat, m: seq<Mark>, t: string, word: char -> bool)
    requires prefix in {"", "b", "c"} && i + |prefix| <= j <= |s| && s[i..i + |prefix|] == prefix
    requires Over(s, i + |prefix|, j, word, m, t)
    ensures Over(s, i, j, word, m, prefix + t)
  {
    hide Over;
    var p := i + |prefix|;
    forall k | i <= k < p ensures Alone(s, k, word) {
      assert s[k] == prefix[k - i];
      QuietChar(s, k, word);
    }
    OverCode(s, i, p, word);
    var none: seq<Mark> := [];
    OverBoth(s, i, p, j, word, none, prefix, m, t);
    assert none + m == m;
  }

  lemma StrText(s: string, i: nat, prefix: string, cs: seq<QChar>, rest: string, word: char -> bool)
    requires prefix in {"", "b", "c"} && PlainAll(cs, '"')
    requires i <= |s| && s[i..] == prefix + ("\"" + PrintChars(cs) + "\"") + rest
    ensures var t := Str(prefix, cs); Over(s, i, i + |Print(t)|, word, TokenMark(t, i), Print(t))
  {
    hide Over, PrintChars, PlainAll;
    var body := "\"" + PrintChars(cs) + "\"";
    var p := i + |prefix|;
    assert s[i..] == prefix + (body + rest);
    Suffix(s, i, prefix, body + rest);
    Suffix(s, p, body, rest);
    StrOver(s, p, cs, rest, word);
    PrefixOver(s, i, prefix, p + |body|, [Mark(false, p, p + |body|)], body, word);
  }

  lemma ChrText(s: string, i: nat, prefix: string, cs: seq<QChar>, rest: string, word: char -> bool)
    requires prefix in {"", "b"} && TokenOk(Chr("", cs), rest, word)
    requires i <= |s| && s[i..] == prefix + ("'" + PrintChars(cs) + "'") + rest
    ensures var t := Chr(prefix, cs); Over(s, i, i + |Print(t)|, word, TokenMark(t, i), Print(t))
  {
    hide Over, PrintChars, TokenOk;
    var body := "'" + PrintChars(cs) + "'";
    var p := i + |prefix|;
    assert s[i..] == prefix + (body + rest);
    Suffix(s, i, prefix, body + rest);
    Suffix(s, p, body, rest);
    ChrOver(s, p, cs, rest, word);
    PrefixOver(s, i, prefix, p + |body|, [Mark(false, p, p + |body|)], body, word);
  }

  lemma RawText(s: string, i: nat, n: nat, body: string, rest: string, word: char -> bool)
    requires i <= |s| && s[i..] == "r" + (RawTail(n, body) + rest) && !InWord(s, i, word)
    requires forall k :: 0 <= k < |body| ==> !StartsWith(body + Closing(n), k, Closing(n))
    ensures var j := i + 1 + |RawTail(n, body)|;
      Over(s, i, j, word, [Mark(false, i + 1 + n, i + n + |body| + 3)], "r" + RawTail(n, body))
  {
    hide Over, RawEnd, RawClose, Hashes, StartsRaw, RawTail, StartsWith, InWord;
    var tail := RawTail(n, body);
    Suffix(s, i, "r", tail + rest);
    assert s[i + 0] == 'r';
    RawEnds(s, i, n, body, rest);
    TailStartsRaw(n, body, rest);
    RawAt(s, i, word);
    assert s[i..] == "r" + tail + rest;
    Suffix(s, i, "r" + tail, rest);
  }

  lemma TailStartsRaw(n: nat, body: string, rest: string)
    ensures StartsRaw(RawTail(n, body) + rest)
  {
    hide RawTail;
    var u := RawTail(n, body) + rest;
    assert u[0..] == u;
    RawTailIs(u, 0, n, body, rest);
  }

  lemma NameToken(s: string, i: nat, lead: string, name: string, rest: string, word: char -> bool)
    requires lead in {"", "'", "r#"} && IsName(name, word) && Lexical(word)
    requires i <= |s| && s[i..] == lead + name + rest
    requires name == "r" ==> !StartsRaw(rest)
    requires lead == "'" ==> !Starts(rest, '\'')
    ensures Over(s, i, i + |lead| + |name|, word, [], lead + name)
  {
    hide Over, StartsRaw, Starts, Lexical;
    var p, j := i + |lead|, i + |lead| + |name|;
    assert s[i..] == lead + (name + rest);
    Suffix(s, i, lead, name + rest);
    Suffix(s, p, name, rest);
    NameScans(s, p, j, word);
    LeadScans(s, i, lead, name, rest, word);
    var none: seq<Mark> := [];
    OverBoth(s, i, p, j, word, none, lead, none, name);
    assert none + none == none;
  }

  lemma LeadScans(s: string, i: nat, lead: string, name: string, rest: string, word: char -> bool)
    requires lead in {"", "'", "r#"} && IsName(name, word) && Lexical(word)
    requires i <= |s| && s[i..] == lead + (name + rest)
    requires lead == "'" ==> !Starts(rest, '\'')
    ensures Over(s, i, i + |lead|, word, [], lead)
  {
    hide Over;
    var p := i + |lead|;
    Suffix(s, i, lead, name + rest);
    Suffix(s, p, name, rest);
    assert s[p + 0] == name[0] && s[i..p] == lead;
    if lead == "'" {
      assert s[i + 0] == '\'';
      assert i + 2 < |s| ==> s[i + 2] == (name + rest)[1];
      assert Alone(s, i, word);
      OverCode(s, i, p, word);
    } else if lead == "r#" {
      assert s[i + 0] == 'r' && s[i + 1] == '#';
      HashesAre(s, i + 1, 1);
      QuietChar(s, i, word);
      QuietChar(s, i + 1, word);
      OverCode(s, i, p, word);
    } else {
      OverNothing(s, i, word);
    }
  }

  /** A token the scanner reads as Rust does. */
  lemma TokenScans(s: string, i: nat, t: Token, rest: string, word: char -> bool)
    requires Lexical(word) && TokenOk(t, rest, word) && i <= |s| && s[i..] == Print(t) + rest && Apart(s, i, word)
    requires !Eaten(t, rest) && (t.RawStr? ==> t.prefix == "r")
    ensures Over(s, i, i + |Print(t)|, word, TokenMark(t, i), Written(t))
  {
    hide Over, PrintChars, PrintPieces, PiecesOk, Closing, Repeat, StartsWith, StartsRaw, IsName, Starts;
    Suffix(s, i, Print(t), rest);
    match t
    case LineComment(text) =>
      assert rest == s[i + |Print(t)|..];
      LineOver(s, i, text, word);
    case BlockComment(ps) => BlockOver(s, i, ps, Print(t), rest, word);
    case Str(prefix, cs) => StrText(s, i, prefix, cs, rest, word);
    case Chr(prefix, cs) => ChrText(s, i, prefix, cs, rest, word);
    case RawStr(_, n, body) => RawPrinted(s, i, t, rest, word);
    case Lifetime(name) => NameToken(s, i, "'", name, rest, word);
    case Word(name) => WordScans(s, i, name, rest, word);
    case RawIdent(name) => NameToken(s, i, "r#", name, rest, word);
    case Punct(c) => PunctScans(s, i, c, rest, word);
  }

  lemma RawPrinted(s: string, i: nat, t: Token, rest: string, word: char -> bool)
    requires Lexical(word) && t.RawStr? && t.prefix == "r" && TokenOk(t, rest, word)
    requires i <= |s| && s[i..] == Print(t) + rest && Apart(s, i, word)
    ensures Over(s, i, i + |Print(t)|, word, TokenMark(t, i), Print(t))
  {
    hide Over, Closing, Repeat, StartsWith, TokenOk, Print, Apart;
    RawPrints(t);
    RawCloses(t, rest, word);
    var tail := RawTail(t.hashes, t.body);
    assert s[i..] == "r" + (tail + rest);
    Suffix(s, i, "r", tail + rest);
    ApartAtR(s, i, word);
    RawText(s, i, t.hashes, t.body, rest, word);
  }

  lemma RawPrints(t: Token)
    requires t.RawStr?
    ensures Print(t) == t.prefix + RawTail(t.hashes, t.body)
      && |RawTail(t.hashes, t.body)| == 2 * t.hashes + |t.body| + 2
    ensures forall i: nat ::
      TokenMark(t, i) == [Mark(false, i + |t.prefix| + t.hashes, i + |t.prefix| + t.hashes + |t.body| + 2)]
  {
    hide Closing, Repeat;
    var h, c := Repeat('#', t.hashes), Closing(t.hashes);
    assert t.prefix + h + "\"" + t.body + c == t.prefix + (h + "\"" + t.body + c);
  }

  lemma RawCloses(t: Token, rest: string, word: char -> bool)
    requires t.RawStr? && TokenOk(t, rest, word)
    ensures t.prefix in {"r", "br", "cr"}
    ensures forall k :: 0 <= k < |t.body| ==> !StartsWith(t.body + Closing(t.hashes), k, Closing(t.hashes))
  {
  }

  lemma ApartAtR(s: string, i: nat, word: char -> bool)
    requires Lexical(word) && i < |s| && s[i + 0] == 'r' && Apart(s, i, word)
    ensures !InWord(s, i, word)
  {
  }

  lemma WordScans(s: string, i: nat, name: string, rest: string, word: char -> bool)
    requires Lexical(word) && TokenOk(Word(name), rest, word) && i <= |s| && s[i..] == name + rest
    ensures Over(s, i, i + |name|, word, [], name)
  {
    hide Over;
    assert "" + name == name && s[i..] == "" + name + rest;
    NameToken(s, i, "", name, rest, word);
  }

  lemma PunctScans(s: string, i: nat, c: char, rest: string, word: char -> bool)
    requires Lexical(word) && TokenOk(Punct(c), rest, word) && i <= |s| && s[i..] == [c] + rest
    ensures Over(s, i, i + 1, word, [], [c])
  {
    hide Over;
    Suffix(s, i, [c], rest);
    assert s[i + 0] == c && s[i..i + 1] == [c];
    assert i + 1 < |s| ==> s[i + 1] == rest[0];
    if c == '/' {
      SlashAlone(s, i, word);
    } else {
      QuietChar(s, i, word);
    }
    OverCode(s, i, i + 1, word);
  }

  /** After a token no name goes on. */
  lemma ApartAfter(s: string, i: nat, t: Token, rest: string, word: char -> bool)
    requires Lexical(word) && TokenOk(t, rest, word) && i <= |s| && s[i..] == Print(t) + rest
    ensures i + |Print(t)| <= |s| && Apart(s, i + |Print(t)|, word)
  {
    hide PrintChars, PrintPieces, PiecesOk, StartsWith, StartsRaw, IsName, PlainAll, Starts;
    Suffix(s, i, Print(t), rest);
    var j := i + |Print(t)|;
    assert j < |s| ==> s[j] == rest[0];
    if Print(t) != [] {
      assert s[i + (|Print(t)| - 1)] == Print(t)[|Print(t)| - 1];
    }
    match t
    case RawStr(_, n, _) => assert Print(t)[|Print(t)| - 1] == Closing(n)[n];
    case _ =>
  }

  /** Only punctuation is written with a hash first, and only a string without prefix with a quote. */
  lemma FirstOf(t: Token, rest: string, word: char -> bool)
    requires Lexical(word) && TokenOk(t, rest, word)
    ensures Print(t) != []
    ensures Print(t)[0] == '#' ==> t == Punct('#')
    ensures Print(t)[0] == '"' ==> t.Str? && t.prefix == ""
  {
    hide PrintChars, PrintPieces, PiecesOk, StartsWith, StartsRaw, PlainAll, Closing, Repeat;
  }

  /** The list starts with `k` tokens of `len` characters, settled and no comments, that mark `m`. */
  predicate Leads(ts: seq<Token>, at: nat, k: nat, m: seq<Mark>, len: nat, word: char -> bool) {
    && k <= |ts| && IsRust(ts[k..], word) && (Contested(ts) <==> Contested(ts[k..]))
    && len <= |PrintAll(ts)| && PrintAll(ts)[len..] == PrintAll(ts[k..])
    && RustMarks(ts, at) == m + RustMarks(ts[k..], at + len)
    && RustBlank(ts) == PrintAll(ts)[..len] + RustBlank(ts[k..])
  }

  lemma LeadsOn(ts: seq<Token>, at: nat, k: nat, m: seq<Mark>, len: nat, k': nat, m': seq<Mark>, len': nat,
                word: char -> bool)
    requires Leads(ts, at, k, m, len, word) && Leads(ts[k..], at + len, k', m', len', word)
    ensures Leads(ts, at, k + k', m + m', len + len', word)
  {
    hide IsRust, PrintAll, RustMarks, RustBlank, Contested;
    var u, v, tail := PrintAll(ts), PrintAll(ts[k..]), ts[k..][k'..];
    assert tail == ts[k + k'..];
    assert u[len + len'..] == v[len'..];
    assert u[..len + len'] == u[..len] + v[..len'];
    assert u[..len] + (v[..len'] + RustBlank(tail)) == u[..len] + v[..len'] + RustBlank(tail);
    var more := RustMarks(tail, at + len + len');
    assert m + (m' + more) == m + m' + more;
  }

  /** A settled token that is no comment leads. */
  lemma OneLeads(ts: seq<Token>, at: nat, word: char -> bool)
    requires ts != [] && IsRust(ts, word) && !ContestedToken(ts[0], PrintAll(ts[1..])) && Written(ts[0]) == Print(ts[0])
    ensures Leads(ts, at, 1, TokenMark(ts[0], at), |Print(ts[0])|, word)
  {
    hide IsRust, PrintAll, RustMarks, RustBlank, Contested, Print, TokenMark, ContestedToken, Written;
    Steps(ts, at, word);
  }

  /** Hashes and a quote are punctuation and a string without prefix, which ends where it ends with escapes. */
  lemma {:induction false} HashTokens(ts: seq<Token>, at: nat, word: char -> bool)
    requires Lexical(word) && IsRust(ts, word) && StartsRaw(PrintAll(ts))
    ensures var n := Hashes(PrintAll(ts), 0); var e := QuotedEnd(PrintAll(ts), n + 1, '"');
      e > 0 && Leads(ts, at, n + 1, [Mark(false, at + n, at + e)], e, word)
    decreases |ts|
  {
    hide QuotedEnd, Leads, TokenOk, Print, IsRust, Hashes, PrintAll, StartsRaw;
    NothingIsNotRaw();
    var u := PrintAll(ts);
    RawFirst(ts, word);
    if ts[0] == Punct('#') {
      HashGoesOn(ts, word);
      HashTokens(ts[1..], at + 1, word);
      HashLeads(ts, at, word);
      var n := Hashes(PrintAll(ts[1..]), 0);
      var e := QuotedEnd(PrintAll(ts[1..]), n + 1, '"');
      var none, one := [], [Mark(false, at + 1 + n, at + 1 + e)];
      LeadsOn(ts, at, 1, none, 1, n + 1, one, e, word);
      assert none + one == one;
    } else {
      StringFirst(ts, at, word);
    }
  }

  lemma HashLeads(ts: seq<Token>, at: nat, word: char -> bool)
    requires ts != [] && ts[0] == Punct('#') && IsRust(ts, word)
    ensures Leads(ts, at, 1, [], 1, word)
  {
    hide Leads, IsRust, PrintAll;
    HashPrints();
    OneLeads(ts, at, word);
  }

  /** Hashes are punctuation. */
  lemma {:induction false} HashesLead(ts: seq<Token>, at: nat, m: nat, word: char -> bool)
    requires Lexical(word) && IsRust(ts, word)
    requires m <= |PrintAll(ts)| && forall k :: 0 <= k < m ==> PrintAll(ts)[k] == '#'
    ensures m <= |ts| && Leads(ts, at, m, [], m, word)
    decreases m
  {
    hide Leads, TokenOk, Print, IsRust, PrintAll;
    if m == 0 {
      NoneLeads(ts, at, word);
    } else {
      NoTokens(ts);
      Steps(ts, at, word);
      var u, rest := PrintAll(ts), PrintAll(ts[1..]);
      FirstOf(ts[0], rest, word);
      assert u[0] == Print(ts[0])[0];
      HashPrints();
      HashLeads(ts, at, word);
      assert forall k :: 0 <= k < m - 1 ==> rest[k] == u[k + 1];
      HashesLead(ts[1..], at + 1, m - 1, word);
      var none: seq<Mark> := [];
      LeadsOn(ts, at, 1, none, 1, m - 1, none, m - 1, word);
      assert none + none == none;
    }
  }

  lemma NoneLeads(ts: seq<Token>, at: nat, word: char -> bool)
    requires IsRust(ts, word)
    ensures Leads(ts, at, 0, [], 0, word)
  {
    hide IsRust, PrintAll, RustMarks, RustBlank, Contested;
    assert ts[0..] == ts && PrintAll(ts)[0..] == PrintAll(ts);
    assert [] + RustMarks(ts, at) == RustMarks(ts, at) && [] + RustBlank(ts) == RustBlank(ts);
  }

  lemma NoTokens(ts: seq<Token>)
    requires PrintAll(ts) != []
    ensures ts != []
  {
  }

  lemma RawFirst(ts: seq<Token>, word: char -> bool)
    requires Lexical(word) && ts != [] && IsRust(ts, word) && StartsRaw(PrintAll(ts))
    ensures ts[0] == Punct('#') || (ts[0].Str? && ts[0].prefix == "" && Hashes(PrintAll(ts), 0) == 0)
  {
    hide TokenOk, Print, IsRust, PrintAll, Hashes;
    Steps(ts, 0, word);
    FirstOf(ts[0], PrintAll(ts[1..]), word);
    var u := PrintAll(ts);
    assert u[0] == Print(ts[0])[0];
    if u[0] != '#' {
      NoHash(u, 0);
    }
  }

  lemma HashGoesOn(ts: seq<Token>, word: char -> bool)
    requires ts != [] && ts[0] == Punct('#') && IsRust(ts, word) && StartsRaw(PrintAll(ts))
    ensures IsRust(ts[1..], word) && StartsRaw(PrintAll(ts[1..]))
    ensures var u, rest := PrintAll(ts), PrintAll(ts[1..]); var n := Hashes(rest, 0);
      Hashes(u, 0) == n + 1 && QuotedEnd(u, n + 2, '"') == 1 + QuotedEnd(rest, n + 1, '"')
  {
    hide TokenOk, IsRust, PrintAll, Hashes, QuotedEnd, Print, StartsRaw;
    Steps(ts, 0, word);
    HashPrints();
    HashText(PrintAll(ts), PrintAll(ts[1..]));
  }

  lemma HashText(u: string, rest: string)
    requires u == "#" + rest && StartsRaw(u)
    ensures StartsRaw(rest)
    ensures var n := Hashes(rest, 0);
      Hashes(u, 0) == n + 1 && QuotedEnd(u, n + 2, '"') == 1 + QuotedEnd(rest, n + 1, '"')
  {
    hide Hashes, QuotedEnd;
    assert u[0] == '#' && u[1..] == rest;
    HashFirst(u);
    ShiftHashes(u, 1, 0);
    ShiftQuoted(u, 1, Hashes(rest, 0) + 1, '"');
  }

  lemma NothingIsNotRaw()
    ensures !StartsRaw(PrintAll([]))
  {
  }

  lemma HashPrints()
    ensures Print(Punct('#')) == "#"
  {
  }

  lemma HashFirst(u: string)
    requires u != [] && u[0] == '#'
    ensures Hashes(u, 0) == Hashes(u, 1)
  {
  }

  lemma StringFirst(ts: seq<Token>, at: nat, word: char -> bool)
    requires ts != [] && IsRust(ts, word) && ts[0].Str? && ts[0].prefix == ""
    ensures var e := QuotedEnd(PrintAll(ts), 1, '"'); e > 0 && Leads(ts, at, 1, [Mark(false, at, at + e)], e, word)
  {
    hide PrintChars, QuotedEnd, PlainAll, IsRust, PrintAll, Leads, Print;
    var t, rest, u := ts[0], PrintAll(ts[1..]), PrintAll(ts);
    var inner := PrintChars(t.chars);
    Steps(ts, at, word);
    PlainString(t, rest, word);
    assert u[0..] == u == "\"" + inner + "\"" + rest;
    Between(u, 0, '"', inner, rest);
    CharsEnd(u, 1, t.chars, '"', rest);
    OneLeads(ts, at, word);
  }

  lemma PlainString(t: Token, rest: string, word: char -> bool)
    requires t.Str? && t.prefix == "" && TokenOk(t, rest, word)
    ensures Print(t) == "\"" + PrintChars(t.chars) + "\"" && PlainAll(t.chars, '"')
  {
    hide PrintChars, PlainAll;
  }

  // The theorem

  lemma OverRest(s: string, i: nat, j: nat, m: seq<Mark>, b: string, more: seq<Mark>, word: char -> bool)
    requires Over(s, i, j, word, m, b)
    ensures ScanMarks(s, i, word) == m + more <==> ScanMarks(s, j, word) == more
  {
    hide ScanMarks, BlankFrom;
    if ScanMarks(s, i, word) == m + more {
      assert (m + more)[|m|..] == more && (m + ScanMarks(s, j, word))[|m|..] == ScanMarks(s, j, word);
    }
  }

  lemma OverDiffers(s: string, i: nat, j: nat, x: Mark, b: string, y: Mark, more: seq<Mark>, word: char -> bool)
    requires Over(s, i, j, word, [x], b) && x != y
    ensures ScanMarks(s, i, word) != [y] + more
  {
    hide ScanMarks, BlankFrom;
    assert ([x] + ScanMarks(s, j, word))[0] == x && ([y] + more)[0] == y;
  }

  /**
    From `i`, where the tokens `ts` stand, scanner and tokens come to `j` with the
    same marks and the same text written, and `k` tokens are done with.
  */
  predicate Crossed(
    s: string, i: nat, ts: seq<Token>, word: char -> bool, k: nat, j: nat, m: seq<Mark>, b: string)
  {
    && 0 < k <= |ts| && i <= j <= |s| && s[j..] == PrintAll(ts[k..]) && IsRust(ts[k..], word) && Apart(s, j, word)
    && Over(s, i, j, word, m, b)
    && RustMarks(ts, i) == m + RustMarks(ts[k..], j) && RustBlank(ts) == b + RustBlank(ts[k..])
    && (Contested(ts) <==> Contested(ts[k..]))
  }

  /** Over a token that is not contested both go on together, to the end of it or of the string it eats. */
  lemma Crossing(s: string, i: nat, ts: seq<Token>, word: char -> bool)
    returns (k: nat, j: nat, m: seq<Mark>, b: string)
    requires Lexical(word) && IsRust(ts, word) && ts != [] && i <= |s| && s[i..] == PrintAll(ts) && Apart(s, i, word)
    requires !ContestedToken(ts[0], PrintAll(ts[1..]))
    ensures Crossed(s, i, ts, word, k, j, m, b)
  {
    hide TokenOk, Over, Apart, StartsRaw, Print, PrintAll, IsRust, Eaten, TokenMark, ContestedToken, Crossed, Lexical;
    Steps(ts, i, word);
    var t, rest := ts[0], PrintAll(ts[1..]);
    if Eaten(t, rest) {
      k, j, m := EatenCrosses(s, i, ts, word);
      b := s[i..j];
    } else {
      if t.RawStr? && t.prefix != "r" {
        ByteRawScans(s, i, t, rest, word);
      } else {
        TokenScans(s, i, t, rest, word);
      }
      k, j, m, b := 1, i + |Print(t)|, TokenMark(t, i), Written(t);
      OneCrosses(s, i, ts, word);
    }
  }

  lemma OneCrosses(s: string, i: nat, ts: seq<Token>, word: char -> bool)
    requires Lexical(word) && IsRust(ts, word) && ts != [] && i <= |s| && s[i..] == PrintAll(ts)
    requires !ContestedToken(ts[0], PrintAll(ts[1..]))
    requires Over(s, i, i + |Print(ts[0])|, word, TokenMark(ts[0], i), Written(ts[0]))
    ensures Crossed(s, i, ts, word, 1, i + |Print(ts[0])|, TokenMark(ts[0], i), Written(ts[0]))
  {
    hide TokenOk, Over, Apart, Print, PrintAll, IsRust, TokenMark, ContestedToken, Lexical, Written;
    hide RustMarks, RustBlank, Contested;
    Steps(ts, i, word);
    Suffix(s, i, Print(ts[0]), PrintAll(ts[1..]));
    ApartAfter(s, i, ts[0], PrintAll(ts[1..]), word);
  }

  /** A raw byte or C string as it is printed at a place. */
  lemma ByteRawPlace(s: string, i: nat, t: Token, rest: string, word: char -> bool)
    requires t.RawStr? && t.prefix != "r" && TokenOk(t, rest, word) && i <= |s| && s[i..] == Print(t) + rest
    ensures |t.prefix| == 2 && i + 2 <= |s| && s[i] in {'b', 'c'} && s[i + 1] == 'r'
    ensures s[i + 2..] == RawTail(t.hashes, t.body) + rest
  {
    hide TokenOk, Print, RawTail, Closing;
    RawPrints(t);
    RawCloses(t, rest, word);
    var tail := RawTail(t.hashes, t.body);
    assert s[i..] == t.prefix + (tail + rest);
    Suffix(s, i, t.prefix, tail + rest);
    assert s[i + 0] == t.prefix[0] && s[i + 1] == t.prefix[1];
  }

  /** A body that reads alike with escapes ends at its own quote. */
  lemma {:induction false} AlikeEnds(s: string, i: nat, body: string, more: string)
    requires i <= |s| && s[i..] == body + ("\"" + more)
    ensures QuotedEnd(s, i, '"') == i + |body| + 1 <==> ReadsAlike(body, more == [])
    decreases |body|
  {
    var rest := "\"" + more;
    Suffix(s, i, body, rest);
    Suffix(s, i + |body|, "\"", more);
    assert s[i + |body| + 0] == '"';
    if body != [] {
      assert s[i + 0] == body[0];
      if body[0] == '\\' {
        if |body| == 1 {
          QuotedGoesOn(s, i + 2);
        } else {
          LaterPart(s, i, 2, body, rest);
          AlikeEnds(s, i + 2, body[2..], more);
        }
      } else if body[0] != '"' {
        LaterPart(s, i, 1, body, rest);
        AlikeEnds(s, i + 1, body[1..], more);
      }
    }
  }

  lemma LaterPart(s: string, i: nat, n: nat, body: string, rest: string)
    requires i <= |s| && s[i..] == body + rest && n <= |body|
    ensures i + n <= |s| && s[i + n..] == body[n..] + rest
  {
    assert s[i..][n..] == s[i + n..];
  }

  /** Where a string with escapes ends after a place, unless the text is at its end. */
  lemma {:induction false} QuotedGoesOn(s: string, i: nat)
    requires i <= |s|
    ensures QuotedEnd(s, i, '"') > i || i == |s|
    decreases |s| - i
  {
  }

  lemma ByteRawReads(s: string, i: nat, t: Token, rest: string, word: char -> bool)
    requires t.RawStr? && t.prefix != "r" && i + 2 <= |s| && s[i + 2..] == RawTail(t.hashes, t.body) + rest
    ensures i + 2 + t.hashes < |s|
    ensures ContestedToken(t, rest) <==> QuotedEnd(s, i + 3 + t.hashes, '"') != i + 2 + t.hashes + |t.body| + 2
  {
    hide QuotedEnd, RawTail, ReadsAlike;
    var q, n := i + 2 + t.hashes, t.hashes;
    RawTailIs(s, i + 2, n, t.body, rest);
    var hashes := seq(n, _ => '#');
    assert Closing(n) == "\"" + hashes;
    assert t.body + Closing(n) + rest == t.body + ("\"" + (hashes + rest));
    assert hashes + rest == [] <==> n == 0 && rest == [] by {
      assert |hashes + rest| == n + |rest|;
    }
    AlikeEnds(s, q + 1, t.body, hashes + rest);
  }

  /** Where its body reads alike, the scanner takes a raw byte or C string as Rust does. */
  lemma ByteRawScans(s: string, i: nat, t: Token, rest: string, word: char -> bool)
    requires Lexical(word) && t.RawStr? && t.prefix != "r" && TokenOk(t, rest, word) && !ContestedToken(t, rest)
    requires i <= |s| && s[i..] == Print(t) + rest
    ensures Over(s, i, i + |Print(t)|, word, TokenMark(t, i), Written(t))
  {
    hide Over, QuotedEnd, TokenOk, Print, RawTail, ContestedToken, Lexical, TokenMark;
    ByteRawPlace(s, i, t, rest, word);
    ByteRawReads(s, i, t, rest, word);
    ByteRawOver(s, i, t.hashes, t.body, rest, word);
    RawPrints(t);
    Suffix(s, i, Print(t), rest);
    var j := i + |Print(t)|;
    ClosingHashes(s, i, t, rest, word);
    var m, none: seq<Mark> := TokenMark(t, i), [];
    var e := j - t.hashes;
    OverCode(s, e, j, word);
    OverBoth(s, i, e, j, word, m, s[i..e], none, s[e..j]);
    assert m + none == m && s[i..e] + s[e..j] == s[i..j] == Print(t);
  }

  /** The hashes that close a raw string start nothing. */
  lemma ClosingHashes(s: string, i: nat, t: Token, rest: string, word: char -> bool)
    requires t.RawStr? && i <= |s| && s[i..] == Print(t) + rest && i + |Print(t)| <= |s|
    ensures var j := i + |Print(t)|;
      j - t.hashes >= i && forall k :: j - t.hashes <= k < j ==> s[k] == '#' && Alone(s, k, word)
  {
    hide Print, RawTail, Alone;
    RawPrints(t);
    Suffix(s, i, Print(t), rest);
    var j := i + |Print(t)|;
    forall k | j - t.hashes <= k < j ensures s[k] == '#' && Alone(s, k, word) {
      LastHashes(t, k - i);
      assert s[i + (k - i)] == Print(t)[k - i];
      QuietChar(s, k, word);
    }
  }

  lemma LastHashes(t: Token, k: nat)
    requires t.RawStr? && |Print(t)| - t.hashes <= k < |Print(t)|
    ensures Print(t)[k] == '#'
  {
    var front := t.prefix + Repeat('#', t.hashes) + "\"" + t.body;
    assert Print(t) == front + Closing(t.hashes);
    assert Print(t)[k] == Closing(t.hashes)[k - |front|];
  }

  /** A name that is eaten, but settled, and the string behind it. */
  lemma EatenLeads(ts: seq<Token>, i: nat, word: char -> bool)
    requires Lexical(word) && IsRust(ts, word) && ts != []
    requires Eaten(ts[0], PrintAll(ts[1..])) && !ContestedToken(ts[0], PrintAll(ts[1..]))
    ensures var rest, at := PrintAll(ts[1..]), i + |Print(ts[0])|;
      var n := Hashes(rest, 0); var e := QuotedEnd(rest, n + 1, '"');
      Leads(ts, i, n + 2, [Mark(false, at + n, at + e)], |Print(ts[0])| + e, word)
  {
    hide Print, PrintAll, IsRust, Eaten, TokenMark, ContestedToken, Lexical, Leads, Hashes, QuotedEnd, StartsRaw;
    hide RustMarks, RustBlank, Contested, TokenOk;
    Steps(ts, i, word);
    var t, rest := ts[0], PrintAll(ts[1..]);
    var at := i + |Print(t)|;
    EatenRaw(t, rest);
    EatenMarks(t, rest, i);
    HashTokens(ts[1..], at, word);
    OneLeads(ts, i, word);
    var n := Hashes(rest, 0);
    var e := QuotedEnd(rest, n + 1, '"');
    var none, m := [], [Mark(false, at + n, at + e)];
    LeadsOn(ts, i, 1, none, |Print(t)|, n + 1, m, e, word);
    assert none + m == m;
  }

  /** Tokens that lead up to a place, and hashes behind it. */
  lemma HashesBehind(s: string, i: nat, ts: seq<Token>, k: nat, m: seq<Mark>, len: nat, h: nat, word: char -> bool)
    requires Lexical(word) && i <= |s| && s[i..] == PrintAll(ts) && Leads(ts, i, k, m, len, word)
    requires i + len + h <= |s| && forall x :: i + len <= x < i + len + h ==> s[x] == '#'
    ensures Leads(ts, i, k + h, m, len + h, word)
  {
    hide PrintAll, IsRust, Lexical, Leads;
    LeadsRest(s, i, ts, k, m, len, word);
    var tail := ts[k..];
    forall x | 0 <= x < h ensures PrintAll(tail)[x] == '#' {
      assert s[i + len..][x] == s[i + len + x];
    }
    HashesLead(tail, i + len, h, word);
    var none: seq<Mark> := [];
    LeadsOn(ts, i, k, m, len, h, none, h, word);
    assert m + none == m;
  }

  lemma EatenCrosses(s: string, i: nat, ts: seq<Token>, word: char -> bool) returns (k: nat, j: nat, m: seq<Mark>)
    requires Lexical(word) && IsRust(ts, word) && ts != [] && i <= |s| && s[i..] == PrintAll(ts)
    requires Eaten(ts[0], PrintAll(ts[1..])) && !ContestedToken(ts[0], PrintAll(ts[1..]))
    ensures i <= j <= |s| && Crossed(s, i, ts, word, k, j, m, s[i..j])
  {
    hide TokenOk, Over, Apart, Print, PrintAll, IsRust, Eaten, TokenMark, ContestedToken, Crossed, Lexical, Leads;
    hide Hashes, QuotedEnd, RawEnd, RawClose, StartsRaw, RustMarks, RustBlank, Contested, EndsLiteral;
    Steps(ts, i, word);
    var t, rest := ts[0], PrintAll(ts[1..]);
    var at := i + |Print(t)|;
    EatenScans(s, i, t, rest, word);
    EatenEnds(s, at, t, rest);
    EatenLeads(ts, i, word);
    AfterClose(s, at - 1);
    var n := Hashes(rest, 0);
    var e := QuotedEnd(rest, n + 1, '"');
    j := RawEnd(s, at - 1);
    m := [Mark(false, at + n, at + e)];
    k := n + 2 + (j - (at + e));
    HashesCross(s, i, ts, n + 2, m, |Print(t)| + e, j, word);
  }

  lemma HashesCross(s: string, i: nat, ts: seq<Token>, k: nat, m: seq<Mark>, len: nat, j: nat, word: char -> bool)
    requires Lexical(word) && i <= |s| && s[i..] == PrintAll(ts) && k > 0 && len > 0 && Leads(ts, i, k, m, len, word)
    requires i + len <= j <= |s| && forall x :: i + len <= x < j ==> s[x] == '#'
    requires Over(s, i, j, word, m, s[i..j]) && EndsLiteral(s, j)
    ensures Crossed(s, i, ts, word, k + (j - i - len), j, m, s[i..j])
  {
    hide PrintAll, Lexical, Leads, Over, Crossed, EndsLiteral;
    HashesBehind(s, i, ts, k, m, len, j - i - len, word);
    LeadsCross(s, i, ts, k + (j - i - len), m, j - i, word);
  }

  /** The text ends at `j`, or a quote or a hash stands before it. */
  predicate EndsLiteral(s: string, j: nat)
    requires j <= |s|
  {
    j == |s| || (j > 0 && s[j - 1] in {'"', '#'})
  }

  lemma EatenRaw(t: Token, rest: string)
    requires Eaten(t, rest)
    ensures StartsRaw(rest)
  {
  }

  lemma LeadsRest(s: string, i: nat, ts: seq<Token>, k: nat, m: seq<Mark>, len: nat, word: char -> bool)
    requires i <= |s| && s[i..] == PrintAll(ts) && Leads(ts, i, k, m, len, word)
    ensures k <= |ts| && IsRust(ts[k..], word) && i + len <= |s| && s[i + len..] == PrintAll(ts[k..])
  {
    hide IsRust, PrintAll, RustMarks, RustBlank, Contested;
    assert s[i + len..] == s[i..][len..];
  }

  lemma LeadsCross(s: string, i: nat, ts: seq<Token>, k: nat, m: seq<Mark>, len: nat, word: char -> bool)
    requires Lexical(word) && i <= |s| && s[i..] == PrintAll(ts) && k > 0 && Leads(ts, i, k, m, len, word)
    requires i + len <= |s| && Over(s, i, i + len, word, m, s[i..i + len])
    requires EndsLiteral(s, i + len)
    ensures Crossed(s, i, ts, word, k, i + len, m, s[i..i + len])
  {
    hide IsRust, PrintAll, RustMarks, RustBlank, Contested, Over;
    LeadsRest(s, i, ts, k, m, len, word);
    assert s[i..][..len] == s[i..i + len];
  }

  /** Between the closing quote of a raw string and its end are hashes. */
  lemma AfterClose(s: string, i: nat)
    requires i < |s|
    ensures forall k :: RawClose(s, i) <= k < RawEnd(s, i) ==> s[k] == '#'
    ensures EndsLiteral(s, RawEnd(s, i))
  {
    hide Find, Hashes;
    var q := Hashes(s, i + 1);
    var p := Closing(q - (i + 1));
    var end := Find(s, p, q + 1);
    if end + |p| <= |s| {
      forall k | end <= k < end + |p| ensures s[k] == p[k - end] {
        assert s[end..end + |p|][k - end] == s[k];
      }
    }
  }

  /** Over a contested token the scanner marks otherwise than Rust. */
  lemma ContestedDiffers(s: string, i: nat, ts: seq<Token>, word: char -> bool)
    requires Lexical(word) && IsRust(ts, word) && ts != [] && i <= |s| && s[i..] == PrintAll(ts)
    requires ContestedToken(ts[0], PrintAll(ts[1..]))
    ensures ScanMarks(s, i, word) != RustMarks(ts, i)
  {
    hide TokenOk, Over, Print, PrintAll, IsRust, TokenMark, Lexical, Leads, RawTail;
    hide Hashes, QuotedEnd, RawEnd, RawClose, RustMarks, ScanMarks, StartsRaw, ReadsAlike, Contested;
    Steps(ts, i, word);
    var t, rest := ts[0], PrintAll(ts[1..]);
    var at := i + |Print(t)|;
    if t.RawStr? {
      ByteRawDiffers(s, i, t, rest, RustMarks(ts[1..], at), word);
    } else {
      assert Eaten(t, rest);
      EatenDiffers(s, i, ts, word);
    }
  }

  lemma ByteRawDiffers(s: string, i: nat, t: Token, rest: string, more: seq<Mark>, word: char -> bool)
    requires Lexical(word) && t.RawStr? && TokenOk(t, rest, word) && ContestedToken(t, rest)
    requires i <= |s| && s[i..] == Print(t) + rest
    ensures ScanMarks(s, i, word) != TokenMark(t, i) + more
  {
    hide TokenOk, Over, Print, TokenMark, Lexical, RawTail, QuotedEnd, ScanMarks, ReadsAlike;
    ByteRawPlace(s, i, t, rest, word);
    ByteRawReads(s, i, t, rest, word);
    ByteRawOver(s, i, t.hashes, t.body, rest, word);
    RawPrints(t);
    var q := i + 2 + t.hashes;
    var e := QuotedEnd(s, q + 1, '"');
    OverDiffers(s, i, e, Mark(false, q, e), s[i..e], Mark(false, q, q + |t.body| + 2), more, word);
  }

  lemma EatenDiffers(s: string, i: nat, ts: seq<Token>, word: char -> bool)
    requires Lexical(word) && IsRust(ts, word) && ts != [] && i <= |s| && s[i..] == PrintAll(ts)
    requires Eaten(ts[0], PrintAll(ts[1..])) && ContestedToken(ts[0], PrintAll(ts[1..]))
    ensures ScanMarks(s, i, word) != RustMarks(ts, i)
  {
    hide TokenOk, Print, PrintAll, IsRust, TokenMark, Lexical, Eaten, ContestedToken;
    hide Hashes, QuotedEnd, RustMarks, ScanMarks, Contested, RustBlank;
    Steps(ts, i, word);
    var more := EatenRustMarks(ts, i, word);
    var c, others := EatenScanMarks(s, i, ts[0], PrintAll(ts[1..]), word);
    assert ScanMarks(s, i, word)[0].end == c && RustMarks(ts, i)[0].end != c;
  }

  lemma EatenScanMarks(s: string, i: nat, t: Token, rest: string, word: char -> bool)
    returns (c: nat, more: seq<Mark>)
    requires Lexical(word) && TokenOk(t, rest, word) && Eaten(t, rest) && i <= |s| && s[i..] == Print(t) + rest
    ensures var at, n := i + |Print(t)|, Hashes(rest, 0);
      && ScanMarks(s, i, word) == [Mark(false, at + n, c)] + more
      && (ContestedToken(t, rest) <==> c != at + QuotedEnd(rest, n + 1, '"'))
  {
    hide TokenOk, Print, Lexical, Eaten, ContestedToken, Hashes, QuotedEnd, RawEnd, RawClose, ScanMarks, BlankFrom;
    var at := i + |Print(t)|;
    EatenScans(s, i, t, rest, word);
    EatenEnds(s, at, t, rest);
    c, more := RawClose(s, at - 1), ScanMarks(s, RawEnd(s, at - 1), word);
  }

  lemma EatenRustMarks(ts: seq<Token>, i: nat, word: char -> bool) returns (more: seq<Mark>)
    requires Lexical(word) && IsRust(ts, word) && ts != [] && Eaten(ts[0], PrintAll(ts[1..]))
    ensures var rest, at := PrintAll(ts[1..]), i + |Print(ts[0])|;
      var n := Hashes(rest, 0); var e := QuotedEnd(rest, n + 1, '"');
      RustMarks(ts, i) == [Mark(false, at + n, at + e)] + more
  {
    hide TokenOk, Print, PrintAll, IsRust, TokenMark, Lexical, Eaten, RustBlank, Contested, ContestedToken;
    hide Hashes, QuotedEnd, RustMarks, StartsRaw;
    Steps(ts, i, word);
    var t, rest := ts[0], PrintAll(ts[1..]);
    var at := i + |Print(t)|;
    EatenRaw(t, rest);
    EatenMarks(t, rest, i);
    HashTokens(ts[1..], at, word);
    var n := Hashes(rest, 0);
    var none: seq<Mark> := [];
    assert none + RustMarks(ts[1..], at) == RustMarks(ts[1..], at);
    more := RustMarks(ts[1..][n + 1..], at + QuotedEnd(rest, n + 1, '"'));
  }

  lemma EatenEnds(s: string, j: nat, t: Token, rest: string)
    requires 0 < j <= |s| && s[j - 1] == 'r' && s[j..] == rest && Eaten(t, rest)
    ensures ContestedToken(t, rest) <==> RawClose(s, j - 1) != j + QuotedEnd(rest, Hashes(rest, 0) + 1, '"')
  {
    hide Hashes, QuotedEnd, RawClose, StartsRaw, ReadsAlike;
    ShiftRawClose(s, j - 1);
    assert s[j - 1..] == "r" + rest;
  }

  lemma EatenMarks(t: Token, rest: string, i: nat)
    requires Eaten(t, rest)
    ensures TokenMark(t, i) == [] && Written(t) == Print(t)
  {
  }

  ghost predicate Agree(s: string, i: nat, ts: seq<Token>, word: char -> bool)
    requires i <= |s|
  {
    ScanMarks(s, i, word) == RustMarks(ts, i) <==> !Contested(ts)
  }

  lemma {:induction false} Agreement(s: string, i: nat, ts: seq<Token>, word: char -> bool)
    requires Lexical(word) && IsRust(ts, word) && i <= |s| && s[i..] == PrintAll(ts) && Apart(s, i, word)
    ensures Agree(s, i, ts, word)
    decreases |ts|
  {
    hide Over, Apart, Agree, PrintAll, IsRust, RustMarks, RustBlank, Contested, ContestedToken, Lexical, Crossed;
    if ts == [] {
      NothingAgrees(s, i, word);
    } else if ContestedToken(ts[0], PrintAll(ts[1..])) {
      ContestedDiffers(s, i, ts, word);
      ContestedDisagrees(s, i, ts, word);
    } else {
      var k, j, m, b := Crossing(s, i, ts, word);
      CrossedOn(s, i, ts, word, k, j, m, b);
      Agreement(s, j, ts[k..], word);
      CrossedAgrees(s, i, ts, word, k, j, m, b);
    }
  }

  lemma CrossedOn(s: string, i: nat, ts: seq<Token>, word: char -> bool, k: nat, j: nat, m: seq<Mark>, b: string)
    requires Crossed(s, i, ts, word, k, j, m, b)
    ensures 0 < k <= |ts| && i <= j <= |s| && s[j..] == PrintAll(ts[k..]) && IsRust(ts[k..], word) && Apart(s, j, word)
  {
    hide Over, Apart, PrintAll, IsRust, RustMarks, RustBlank, Contested;
  }

  lemma CrossedAgrees(s: string, i: nat, ts: seq<Token>, word: char -> bool, k: nat, j: nat, m: seq<Mark>, b: string)
    requires i <= |s| && Crossed(s, i, ts, word, k, j, m, b) && Agree(s, j, ts[k..], word)
    ensures Agree(s, i, ts, word)
  {
    hide Over, Apart, PrintAll, IsRust, RustMarks, RustBlank, Contested, ScanMarks, BlankFrom;
    OverRest(s, i, j, m, b, RustMarks(ts[k..], j), word);
  }

  lemma NothingAgrees(s: string, i: nat, word: char -> bool)
    requires i <= |s| && s[i..] == PrintAll([])
    ensures Agree(s, i, [], word)
  {
    assert i == |s|;
  }

  lemma ContestedDisagrees(s: string, i: nat, ts: seq<Token>, word: char -> bool)
    requires ts != [] && i <= |s| && ContestedToken(ts[0], PrintAll(ts[1..]))
    requires ScanMarks(s, i, word) != RustMarks(ts, i)
    ensures Agree(s, i, ts, word)
  {
    hide ScanMarks, BlankFrom, ContestedToken, TokenMark, RustMarks, RustBlank, Print, PrintAll;
  }

  /** The scanner takes an eaten name and the string behind it as one raw string. */
  lemma EatenScans(s: string, i: nat, t: Token, rest: string, word: char -> bool)
    requires Lexical(word) && TokenOk(t, rest, word) && Eaten(t, rest) && i <= |s| && s[i..] == Print(t) + rest
    ensures |Print(t)| >= 2
    ensures var j := i + |Print(t)|; var r := RawEnd(s, j - 1);
      && j <= |s| && s[j..] == rest && s[j - 1] == 'r'
      && Over(s, i, r, word, [Mark(false, j + Hashes(rest, 0), RawClose(s, j - 1))], s[i..r])
  {
    hide Over, Hashes, RawEnd, RawClose, StartsRaw, Print, TokenOk, Eaten, Lexical;
    var lead := EatenPrints(t, rest, word);
    assert s[i..] == lead + ("r" + rest);
    EatenOver(s, i, lead, rest, word);
  }

  lemma EatenPrints(t: Token, rest: string, word: char -> bool) returns (lead: string)
    requires Eaten(t, rest) && TokenOk(t, rest, word)
    ensures lead in {"'", "r#"} && Print(t) == lead + "r" && StartsRaw(rest)
    ensures lead == "'" ==> !Starts(rest, '\'')
  {
    hide StartsRaw, Starts;
    lead := if t.Lifetime? then "'" else "r#";
  }

  lemma EatenOver(s: string, i: nat, lead: string, rest: string, word: char -> bool)
    requires Lexical(word) && lead in {"'", "r#"} && i <= |s| && s[i..] == lead + ("r" + rest)
    requires StartsRaw(rest) && (lead == "'" ==> !Starts(rest, '\''))
    ensures var j := i + |lead| + 1; var r := RawEnd(s, j - 1);
      && j <= |s| && s[j..] == rest && s[j - 1] == 'r'
      && Over(s, i, r, word, [Mark(false, j + Hashes(rest, 0), RawClose(s, j - 1))], s[i..r])
  {
    hide Over, Hashes, RawEnd, RawClose, StartsRaw, Starts;
    var p, j := i + |lead|, i + |lead| + 1;
    Suffix(s, i, lead, "r" + rest);
    Suffix(s, p, "r", rest);
    assert s[p + 0] == 'r' && s[i + (|lead| - 1)] == lead[|lead| - 1];
    LeadScans(s, i, lead, "r", rest, word);
    RawAt(s, p, word);
    ShiftHashes(s, j, 0);
    var r := RawEnd(s, p);
    JoinOver(s, i, p, r, [Mark(false, Hashes(s, j), RawClose(s, p))], word);
  }

  lemma JoinOver(s: string, i: nat, p: nat, r: nat, m: seq<Mark>, word: char -> bool)
    requires i <= p <= r <= |s| && Over(s, i, p, word, [], s[i..p]) && Over(s, p, r, word, m, s[p..r])
    ensures Over(s, i, r, word, m, s[i..r])
  {
    hide Over;
    var none: seq<Mark> := [];
    OverBoth(s, i, p, r, word, none, s[i..p], m, s[p..r]);
    assert none + m == m && s[i..p] + s[p..r] == s[i..r];
  }

  /**
    For every Rust text, the comments and literals the scanner finds are Rust's
    if and only if no token is contested.
  */
  lemma TokensAgree(ts: seq<Token>, word: char -> bool)
    requires Lexical(word) && IsRust(ts, word)
    ensures ScanMarks(PrintAll(ts), 0, word) == RustMarks(ts, 0) <==> !Contested(ts)
  {
    hide IsRust, ScanMarks, RustMarks, Contested;
    var s := PrintAll(ts);
    assert s[0..] == s;
    Agreement(s, 0, ts, word);
  }

  // A text that is misread

  /** The raw byte string of one backslash, a comma, and the byte string of two slashes. */
  function Misread(): seq<Token> { [RawStr("br", 0, "\\"), Punct(','), Str("b", [Plain('/'), Plain('/')])] }

  const MISREAD := "br\"\\\",b\"//\""

  lemma LastPart(t: Token)
    ensures PrintAll([t]) == Print(t) && RustBlank([t]) == Written(t)
  {
    hide Print;
    assert [t][1..] == [] && Print(t) + [] == Print(t) && Written(t) + [] == Written(t);
  }

  lemma MorePart(t: Token, ts: seq<Token>)
    ensures PrintAll([t] + ts) == Print(t) + PrintAll(ts) && RustBlank([t] + ts) == Written(t) + RustBlank(ts)
  {
    hide Print;
    assert ([t] + ts)[1..] == ts;
  }

  lemma MisreadTokenTexts()
    ensures Print(Str("b", [Plain('/'), Plain('/')])) == "b\"//\"" && Print(Punct(',')) == ","
    ensures Print(RawStr("br", 0, "\\")) == "br\"\\\""
  {
    hide PrintChars;
    TwoSlashes();
    assert Closing(0) == "\"" && Repeat('#', 0) == "";
  }

  /** The parts of the text, last first. */
  lemma MisreadParts()
    ensures var ts := Misread();
      && ts[1..] == [ts[1]] + [ts[2]] && PrintAll([ts[2]]) == "b\"//\"" && PrintAll(ts[1..]) == ",b\"//\""
      && PrintAll(ts) == MISREAD && RustBlank(ts) == MISREAD
  {
    hide PrintAll, Print, RustBlank;
    var ts := Misread();
    MisreadTokenTexts();
    LastPart(ts[2]);
    MorePart(ts[1], [ts[2]]);
    MorePart(ts[0], [ts[1]] + [ts[2]]);
    assert ts[1..] == [ts[1]] + [ts[2]] && ts == [ts[0]] + ([ts[1]] + [ts[2]]);
    assert "," + "b\"//\"" == ",b\"//\"" && "br\"\\\"" + ",b\"//\"" == MISREAD;
  }

  lemma NothingPrints()
    ensures PrintAll([]) == ""
  {
  }

  lemma TwoSlashes()
    ensures PrintChars([Plain('/'), Plain('/')]) == "//"
  {
    var cs := [Plain('/'), Plain('/')];
    assert cs[1..] == [Plain('/')] && cs[1..][1..] == [];
  }

  lemma MisreadPrints(word: char -> bool)
    requires Lexical(word) && !word(',')
    ensures PrintAll(Misread()) == MISREAD && IsRust(Misread(), word)
  {
    hide PrintAll, Print;
    var ts := Misread();
    MisreadParts();
    NothingPrints();
    assert ts[1..][1..] == [ts[2]] && [ts[2]][1..] == [];
    assert TokenOk(ts[2], "", word) && TokenOk(ts[1], "b\"//\"", word);
    assert Closing(0) == "\"" && !StartsWith("\\" + Closing(0), 0, Closing(0));
    assert TokenOk(ts[0], ",b\"//\"", word);
  }

  lemma MisreadEnd()
    ensures QuotedEnd(MISREAD, 3, '"') == 8
  {
    var s := MISREAD;
    assert s[3] == '\\' && s[5] == ',' && s[6] == 'b' && s[7] == '"';
    assert QuotedEnd(s, 7, '"') == 8;
    assert QuotedEnd(s, 6, '"') == 8;
    assert QuotedEnd(s, 5, '"') == 8;
  }

  /** Raw byte strings are read with escapes, so a slash inside the literal that follows is blanked. */
  lemma RawByteStringIsMisread(word: char -> bool)
    requires Lexical(word) && !word(',')
    ensures PrintAll(Misread()) == MISREAD && IsRust(Misread(), word) && Contested(Misread())
    ensures MISREAD[8] == '/' && Blank(MISREAD, word)[8] == ' ' && RustBlank(Misread()) == MISREAD
  {
    hide QuotedEnd, Over;
    var s, ts := MISREAD, Misread();
    MisreadPrints(word);
    MisreadEnd();
    var tail := RawTail(0, "\\");
    assert tail == "\"\\\"";
    assert s[2..] == tail + ",b\"//\"";
    ByteRawOver(s, 0, 0, "\\", ",b\"//\"", word);
    assert s[8..11] == "//" + "\"";
    LineOver(s, 8, "\"", word);
    assert "//" + "\"" == "//\"";
    JoinBlank(s, word);
    MisreadTokens();
  }

  lemma JoinBlank(s: string, word: char -> bool)
    requires |s| == 11 && Over(s, 0, 8, word, [Mark(false, 2, 8)], s[0..8])
    requires Over(s, 8, 11, word, [Mark(true, 8, 11)], Spaces("//\""))
    ensures Blank(s, word)[8] == ' '
  {
    hide ScanMarks;
  }

  lemma MisreadTokens()
    ensures RustBlank(Misread()) == MISREAD && Contested(Misread())
  {
    hide PrintAll, Print, RustBlank;
    MisreadParts();
  }
}

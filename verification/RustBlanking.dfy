/**
  When blanking is right, for every Rust text. The scanner and Rust's tokens are
  followed side by side, the one behind going on first: blanking is right if and
  only if neither comes to a comment where the other does not stand. A contested
  literal does no harm while the scanner is back in step at its end.
*/
module RustBlanking {
  import opened RustScanner
  import opened RustTokens

  predicate IsComment(t: Token) { t.LineComment? || t.BlockComment? }

  /** Each comes to a comment only where the other stands too. The scanner is at `i`, the tokens `ts` start at `at`. */
  predicate InStep(s: string, i: nat, at: nat, ts: seq<Token>, word: char -> bool)
    requires i <= |s|
    decreases |s| - i, |ts|
  {
    if i < at then i == |s| || (KindAt(s, i, word) != Comment && InStep(s, TokenEnd(s, i, word), at, ts, word))
    else if ts == [] then true
    else if i == |s| || at < i then !IsComment(ts[0]) && InStep(s, i, at + |Print(ts[0])|, ts[1..], word)
    else InStep(s, TokenEnd(s, i, word), at + |Print(ts[0])|, ts[1..], word)
  }

  // What both have written so far

  /** The scanner from `i` and the tokens from `at` write the same: what one is ahead is the text itself. */
  ghost predicate SameText(s: string, i: nat, at: nat, ts: seq<Token>, word: char -> bool)
    requires i <= |s| && at <= |s|
  {
    Meet(s, i, BlankFrom(s, i, word), at, RustBlank(ts))
  }

  lemma {:induction false} InStepDecides(s: string, i: nat, at: nat, ts: seq<Token>, word: char -> bool)
    requires Lexical(word) && IsRust(ts, word) && i <= |s| && at <= |s| && s[at..] == PrintAll(ts)
    ensures InStep(s, i, at, ts, word) <==> SameText(s, i, at, ts, word)
    decreases |s| - i, |ts|
  {
    hide KindAt, TokenEnd, Print, PrintAll, TokenOk, IsRust, IsComment, SameText, RustBlank, BlankFrom, Lexical;
    if i < at {
      ScannerSteps(s, i, at, ts, word);
      if KindAt(s, i, word) != Comment {
        InStepDecides(s, TokenEnd(s, i, word), at, ts, word);
      }
    } else if ts == [] {
      BothDone(s, i, at, word);
    } else {
      TokenPlace(s, at, ts, word);
      if at < i {
        TokenSteps(s, i, at, ts, word);
        if !IsComment(ts[0]) {
          InStepDecides(s, i, at + |Print(ts[0])|, ts[1..], word);
        }
      } else {
        BothStep(s, at, ts, word);
        InStepDecides(s, TokenEnd(s, i, word), at + |Print(ts[0])|, ts[1..], word);
      }
    }
  }

  lemma TokenPlace(s: string, at: nat, ts: seq<Token>, word: char -> bool)
    requires Lexical(word) && IsRust(ts, word) && ts != [] && at <= |s| && s[at..] == PrintAll(ts)
    ensures TokenOk(ts[0], PrintAll(ts[1..]), word) && IsRust(ts[1..], word) && Print(ts[0]) != []
    ensures s[at..] == Print(ts[0]) + PrintAll(ts[1..])
    ensures at + |Print(ts[0])| <= |s| && s[at + |Print(ts[0])|..] == PrintAll(ts[1..])
    ensures s[at..at + |Print(ts[0])|] == Print(ts[0]) && s[at] == Print(ts[0])[0]
  {
    hide Print, PrintAll, TokenOk, IsRust, Lexical;
    Steps(ts, at, word);
    FirstOf(ts[0], PrintAll(ts[1..]), word);
    Suffix(s, at, Print(ts[0]), PrintAll(ts[1..]));
    assert s[at + 0] == Print(ts[0])[0];
  }

  lemma BothDone(s: string, i: nat, at: nat, word: char -> bool)
    requires at <= i <= |s| && s[at..] == PrintAll([])
    ensures SameText(s, i, at, [], word)
  {
    assert at == |s|;
    assert s[at..i] == [];
  }

  /** Texts that start alike are the same if and only if what follows is. */
  lemma SameRest(x: string, a: string, b: string)
    ensures x + a == x + b <==> a == b
  {
    if x + a == x + b {
      assert (x + a)[|x|..] == a && (x + b)[|x|..] == b;
    }
  }

  /** Two continuations of one text that start at different places. */
  predicate Meet(s: string, j: nat, a: string, k: nat, b: string)
    requires j <= |s| && k <= |s|
  {
    if j <= k then a == s[j..k] + b else b == s[k..j] + a
  }

  lemma MeetLater(s: string, i: nat, j: nat, a: string, k: nat, b: string)
    requires i <= j <= |s| && i <= k <= |s|
    ensures s[i..j] + a == s[i..k] + b <==> Meet(s, j, a, k, b)
  {
    if j <= k {
      assert s[i..k] + b == s[i..j] + (s[j..k] + b);
      SameRest(s[i..j], a, s[j..k] + b);
    } else {
      assert s[i..j] + a == s[i..k] + (s[k..j] + a);
      SameRest(s[i..k], s[k..j] + a, b);
    }
  }

  lemma ScannerSteps(s: string, i: nat, at: nat, ts: seq<Token>, word: char -> bool)
    requires i < at <= |s|
    ensures KindAt(s, i, word) == Comment ==> !SameText(s, i, at, ts, word)
    ensures KindAt(s, i, word) != Comment ==>
      (SameText(s, i, at, ts, word) <==> SameText(s, TokenEnd(s, i, word), at, ts, word))
  {
    hide KindAt, TokenEnd, RustBlank, BlankFrom;
    var j := TokenEnd(s, i, word);
    BlankStep(s, i, word);
    if KindAt(s, i, word) == Comment {
      CommentStarts(s, i, word);
      assert BlankFrom(s, i, word)[0] == ' ' && (s[i..at] + RustBlank(ts))[0] == '/';
    } else {
      MeetLater(s, i, j, BlankFrom(s, j, word), at, RustBlank(ts));
    }
  }

  lemma TokenSteps(s: string, i: nat, at: nat, ts: seq<Token>, word: char -> bool)
    requires Lexical(word) && IsRust(ts, word) && ts != [] && at < i <= |s| && s[at..] == PrintAll(ts)
    requires at + |Print(ts[0])| <= |s|
    ensures IsComment(ts[0]) ==> !SameText(s, i, at, ts, word)
    ensures !IsComment(ts[0]) ==>
      (SameText(s, i, at, ts, word) <==> SameText(s, i, at + |Print(ts[0])|, ts[1..], word))
  {
    hide Print, PrintAll, TokenOk, IsRust, RustBlank, BlankFrom, Lexical, IsComment, Written, RustMarks, Contested;
    hide TokenMark, ContestedToken;
    var t := ts[0];
    var j := at + |Print(t)|;
    Steps(ts, at, word);
    TokenPlace(s, at, ts, word);
    if IsComment(t) {
      CommentPrints(t);
      assert RustBlank(ts)[0] == ' ' && (s[at..i] + BlankFrom(s, i, word))[0] == '/';
    } else {
      NotComment(t);
      MeetLater(s, at, j, RustBlank(ts[1..]), i, BlankFrom(s, i, word));
    }
  }

  lemma CommentPrints(t: Token)
    requires IsComment(t)
    ensures Print(t) != [] && Print(t)[0] == '/' && Written(t) != [] && Written(t)[0] == ' '
  {
    hide PrintPieces;
  }

  /** Where both stand, both find the same comment or none. */
  lemma BothStep(s: string, at: nat, ts: seq<Token>, word: char -> bool)
    requires Lexical(word) && IsRust(ts, word) && ts != [] && at < |s| && s[at..] == PrintAll(ts)
    requires at + |Print(ts[0])| <= |s|
    ensures SameText(s, at, at, ts, word) <==>
      SameText(s, TokenEnd(s, at, word), at + |Print(ts[0])|, ts[1..], word)
  {
    hide KindAt, TokenEnd, Print, PrintAll, TokenOk, IsRust, RustBlank, BlankFrom, Lexical, IsComment, Written;
    hide RustMarks, Contested, TokenMark, ContestedToken, Head;
    var t := ts[0];
    var i, j := TokenEnd(s, at, word), at + |Print(t)|;
    Steps(ts, at, word);
    TokenPlace(s, at, ts, word);
    BlankStep(s, at, word);
    assert s[at..at] + RustBlank(ts) == RustBlank(ts);
    if IsComment(t) {
      SameComment(s, at, t, PrintAll(ts[1..]), word);
      SameRest(Written(t), BlankFrom(s, i, word), RustBlank(ts[1..]));
      assert s[i..j] + RustBlank(ts[1..]) == RustBlank(ts[1..]);
    } else {
      NoComment(s, at, t, PrintAll(ts[1..]), word);
      NotComment(t);
      MeetLater(s, at, i, BlankFrom(s, i, word), j, RustBlank(ts[1..]));
    }
  }

  lemma NotComment(t: Token)
    requires !IsComment(t)
    ensures Written(t) == Print(t)
  {
    hide Print;
  }

  lemma SameComment(s: string, at: nat, t: Token, rest: string, word: char -> bool)
    requires IsComment(t) && TokenOk(t, rest, word) && at < |s| && s[at..] == Print(t) + rest
    ensures TokenEnd(s, at, word) == at + |Print(t)| && Head(s, at, word) == Written(t)
  {
    hide PrintPieces, PiecesOk, BlockEnd, LineEnd;
    Suffix(s, at, Print(t), rest);
    match t {
      case LineComment(text) =>
        LineEnds(s, at, text, rest);
      case BlockComment(ps) => BlockEnds(s, at, ps, rest);
    }
  }

  lemma LineEnds(s: string, at: nat, text: string, rest: string)
    requires at <= |s| && s[at..] == "//" + text + rest && '\n' !in text && (rest == [] || rest[0] == '\n')
    ensures Two(s, at, '/', '/') && LineEnd(s, at + 2) == at + 2 + |text|
  {
    assert s[at..] == "//" + (text + rest);
    Suffix(s, at, "//", text + rest);
    Suffix(s, at + 2, text, rest);
    assert s[at + 0] == '/' && s[at + 1] == '/';
    var j := at + 2 + |text|;
    assert j < |s| ==> s[j] == rest[0];
    forall k | at + 2 <= k < j ensures s[k] != '\n' {
      assert s[at + 2 + (k - at - 2)] == text[k - at - 2];
    }
  }

  lemma NoComment(s: string, at: nat, t: Token, rest: string, word: char -> bool)
    requires !IsComment(t) && TokenOk(t, rest, word) && Print(t) != [] && at < |s| && s[at..] == Print(t) + rest
    requires Lexical(word)
    ensures KindAt(s, at, word) != Comment && Head(s, at, word) == s[at..TokenEnd(s, at, word)]
  {
    hide PrintPieces, PiecesOk, PrintChars, PlainAll, StartsRaw, Closing, Repeat, StartsWith;
    Suffix(s, at, Print(t), rest);
    assert s[at + 0] == Print(t)[0];
    if t.Punct? {
      assert at + 1 < |s| ==> s[at + 1] == rest[0];
    } else {
      NotSlash(t, rest, word);
    }
  }

  lemma NotSlash(t: Token, rest: string, word: char -> bool)
    requires !IsComment(t) && !t.Punct? && TokenOk(t, rest, word) && Print(t) != [] && Lexical(word)
    ensures Print(t)[0] != '/'
  {
    hide PrintPieces, PiecesOk, PrintChars, PlainAll, StartsRaw, Closing, Repeat, StartsWith;
  }

  /** For every Rust text, exactly Rust's comments are blanked if and only if scanner and tokens are in step. */
  lemma BlanksRustComments(ts: seq<Token>, word: char -> bool)
    requires Lexical(word) && IsRust(ts, word)
    ensures Blank(PrintAll(ts), word) == RustBlank(ts) <==> InStep(PrintAll(ts), 0, 0, ts, word)
  {
    hide IsRust, RustBlank, BlankFrom, InStep, PrintAll;
    var s := PrintAll(ts);
    assert s[0..] == s && s[0..0] + RustBlank(ts) == RustBlank(ts);
    InStepDecides(s, 0, 0, ts, word);
  }

  /** The text whose literal is blanked is out of step. */
  lemma MisreadIsOutOfStep(word: char -> bool)
    requires Lexical(word) && !word(',')
    ensures IsRust(Misread(), word) && !InStep(PrintAll(Misread()), 0, 0, Misread(), word)
  {
    hide IsRust, RustBlank, Blank, InStep, PrintAll, Contested;
    RawByteStringIsMisread(word);
    BlanksRustComments(Misread(), word);
  }

  // Literals that are misread and left behind

  /** The scanner, started at `i`, comes to `j` without a comment. */
  predicate Passes(s: string, i: nat, j: nat, word: char -> bool)
    requires i <= |s|
    decreases |s| - i
  {
    i == j || (i < |s| && i < j && KindAt(s, i, word) != Comment && Passes(s, TokenEnd(s, i, word), j, word))
  }

  /**
    Every contested token is a raw byte or C string whose end the scanner, started
    at its opening quote, comes to without a comment.
  */
  predicate Recovers(s: string, at: nat, ts: seq<Token>, word: char -> bool)
    decreases ts
  {
    ts == [] ||
    (&& (ContestedToken(ts[0], PrintAll(ts[1..])) ==>
         && ts[0].RawStr? && at + 2 + ts[0].hashes <= |s|
         && Passes(s, at + 2 + ts[0].hashes, at + |Print(ts[0])|, word))
     && Recovers(s, at + |Print(ts[0])|, ts[1..], word))
  }

  lemma {:induction false} PassesKeeps(s: string, i: nat, j: nat, word: char -> bool)
    requires i <= |s| && Passes(s, i, j, word)
    ensures i <= j <= |s| && BlankFrom(s, i, word) == s[i..j] + BlankFrom(s, j, word)
    decreases |s| - i
  {
    hide KindAt, TokenEnd, BlankFrom;
    if i < j {
      var k := TokenEnd(s, i, word);
      BlankStep(s, i, word);
      PassesKeeps(s, k, j, word);
      assert s[i..k] + (s[k..j] + BlankFrom(s, j, word)) == s[i..j] + BlankFrom(s, j, word);
    } else {
      assert s[i..j] + BlankFrom(s, j, word) == BlankFrom(s, j, word);
    }
  }

  lemma RecoversTail(s: string, at: nat, ts: seq<Token>, word: char -> bool)
    requires ts != [] && Recovers(s, at, ts, word)
    ensures Recovers(s, at + |Print(ts[0])|, ts[1..], word)
  {
    hide Print, PrintAll, ContestedToken, Passes;
  }

  lemma PrintsOn(ts: seq<Token>)
    requires ts != []
    ensures |PrintAll(ts)| == |Print(ts[0])| + |PrintAll(ts[1..])|
  {
    hide Print;
  }

  lemma RecoversNext(s: string, ts: seq<Token>, word: char -> bool)
    requires ts != [] && |PrintAll(ts)| <= |s| && Recovers(s, |s| - |PrintAll(ts)|, ts, word)
    ensures |PrintAll(ts[1..])| <= |s| && Recovers(s, |s| - |PrintAll(ts[1..])|, ts[1..], word)
  {
    hide Print, PrintAll, Recovers;
    PrintsOn(ts);
    RecoversTail(s, |s| - |PrintAll(ts)|, ts, word);
  }

  lemma {:induction false} RecoversLater(s: string, ts: seq<Token>, k: nat, word: char -> bool)
    requires |PrintAll(ts)| <= |s| && k <= |ts| && Recovers(s, |s| - |PrintAll(ts)|, ts, word)
    ensures |PrintAll(ts[k..])| <= |s| && Recovers(s, |s| - |PrintAll(ts[k..])|, ts[k..], word)
    decreases k
  {
    hide PrintAll, Recovers;
    if k == 0 {
      assert ts[0..] == ts;
    } else {
      RecoversNext(s, ts, word);
      RecoversLater(s, ts[1..], k - 1, word);
      assert ts[1..][k - 1..] == ts[k..];
    }
  }

  lemma {:induction false} RecoveredFrom(s: string, i: nat, ts: seq<Token>, word: char -> bool)
    requires Lexical(word) && IsRust(ts, word) && i <= |s| && s[i..] == PrintAll(ts) && Apart(s, i, word)
    requires Recovers(s, i, ts, word)
    ensures BlankFrom(s, i, word) == RustBlank(ts)
    decreases |ts|
  {
    hide Over, Apart, PrintAll, IsRust, ContestedToken, Lexical, Crossed, Passes, BlankFrom, Recovers, TokenOk, Print;
    if ts == [] {
      NothingLeft(s, i, word);
    } else if ContestedToken(ts[0], PrintAll(ts[1..])) {
      RecoversHere(s, i, ts, word);
      TokenPlace(s, i, ts, word);
      ApartAfter(s, i, ts[0], PrintAll(ts[1..]), word);
      RecoveredFrom(s, i + |Print(ts[0])|, ts[1..], word);
      RecoveredToken(s, i, ts[0], PrintAll(ts[1..]), word);
      Steps(ts, i, word);
    } else {
      var k, j, m, b := Crossing(s, i, ts, word);
      CrossedOn(s, i, ts, word, k, j, m, b);
      RecoversLater(s, ts, k, word);
      RecoveredFrom(s, j, ts[k..], word);
      CrossedBlanks(s, i, ts, word, k, j, m, b);
    }
  }

  lemma NothingLeft(s: string, i: nat, word: char -> bool)
    requires i <= |s| && s[i..] == PrintAll([])
    ensures BlankFrom(s, i, word) == RustBlank([])
  {
    assert i == |s|;
  }

  lemma RecoversHere(s: string, i: nat, ts: seq<Token>, word: char -> bool)
    requires ts != [] && Recovers(s, i, ts, word) && ContestedToken(ts[0], PrintAll(ts[1..]))
    ensures ts[0].RawStr? && ts[0].prefix != "r" && i + 2 + ts[0].hashes <= |s|
    ensures Passes(s, i + 2 + ts[0].hashes, i + |Print(ts[0])|, word)
    ensures Recovers(s, i + |Print(ts[0])|, ts[1..], word)
  {
    hide Passes, Print, PrintAll;
  }

  lemma CrossedBlanks(s: string, i: nat, ts: seq<Token>, word: char -> bool, k: nat, j: nat, m: seq<Mark>, b: string)
    requires Crossed(s, i, ts, word, k, j, m, b) && BlankFrom(s, j, word) == RustBlank(ts[k..])
    ensures i <= |s| && BlankFrom(s, i, word) == RustBlank(ts)
  {
    hide Apart, PrintAll, IsRust, RustMarks, RustBlank, Contested, ScanMarks, BlankFrom;
  }

  /** A misread raw byte or C string that is left behind keeps its text. */
  lemma RecoveredToken(s: string, i: nat, t: Token, rest: string, word: char -> bool)
    requires Lexical(word) && t.RawStr? && t.prefix != "r" && TokenOk(t, rest, word)
    requires i <= |s| && s[i..] == Print(t) + rest && i + 2 + t.hashes <= |s|
    requires Passes(s, i + 2 + t.hashes, i + |Print(t)|, word)
    ensures i + |Print(t)| <= |s| && BlankFrom(s, i, word) == Written(t) + BlankFrom(s, i + |Print(t)|, word)
  {
    hide Print, TokenOk, Lexical, Passes, BlankFrom, RawTail, Alone, ScanMarks;
    var q, j := i + 2 + t.hashes, i + |Print(t)|;
    ByteRawPlace(s, i, t, rest, word);
    PrefixesAlone(s, i, t.hashes, t.body, rest, word);
    OverCode(s, i, q, word);
    PassesKeeps(s, q, j, word);
    Suffix(s, i, Print(t), rest);
    assert s[i..q] + (s[q..j] + BlankFrom(s, j, word)) == s[i..j] + BlankFrom(s, j, word);
  }

  /** Where every misread literal is left behind, exactly Rust's comments are blanked. */
  lemma RecoveredIsInStep(ts: seq<Token>, word: char -> bool)
    requires Lexical(word) && IsRust(ts, word) && Recovers(PrintAll(ts), 0, ts, word)
    ensures Blank(PrintAll(ts), word) == RustBlank(ts) && InStep(PrintAll(ts), 0, 0, ts, word)
  {
    hide IsRust, RustBlank, BlankFrom, InStep, PrintAll, Recovers;
    var s := PrintAll(ts);
    assert s[0..] == s;
    RecoveredFrom(s, 0, ts, word);
    BlanksRustComments(ts, word);
  }

  /** Without a contested token there is nothing to recover from. */
  lemma {:induction false} SettledRecovers(s: string, at: nat, ts: seq<Token>, word: char -> bool)
    requires !Contested(ts)
    ensures Recovers(s, at, ts, word)
    decreases |ts|
  {
    hide Print, PrintAll, ContestedToken;
    if ts != [] {
      SettledRecovers(s, at + |Print(ts[0])|, ts[1..], word);
    }
  }

  // A literal with quotes inside

  const HEADER := "{\"ApiVersion\":\"1.52\"}"

  function HeaderTokens(): seq<Token> { [RawStr("br", 1, HEADER)] }

  lemma {:induction false} SlashlessIsKept(s: string, i: nat, word: char -> bool)
    requires i <= |s| && '/' !in s
    ensures BlankFrom(s, i, word) == s[i..]
    decreases |s| - i
  {
    hide KindAt, TokenEnd, BlankFrom;
    if i < |s| {
      BlankStep(s, i, word);
      var j := TokenEnd(s, i, word);
      if KindAt(s, i, word) == Comment {
        CommentStarts(s, i, word);
      }
      SlashlessIsKept(s, j, word);
      assert s[i..j] + s[j..] == s[i..];
    } else {
      NothingLeft(s, i, word);
    }
  }

  /** The marks of this literal are wrong and its text is kept: contested is not yet misblanked. */
  lemma HeaderIsKept(word: char -> bool)
    ensures IsRust(HeaderTokens(), word) && Contested(HeaderTokens())
    ensures Blank(PrintAll(HeaderTokens()), word) == RustBlank(HeaderTokens()) == PrintAll(HeaderTokens())
  {
    hide Print, PrintAll, RustBlank, IsRust, Contested;
    var t := RawStr("br", 1, HEADER);
    HeaderPrints();
    LastPart(t);
    NotComment(t);
    SlashlessIsKept(Print(t), 0, word);
    assert Print(t)[0..] == Print(t);
    HeaderIsRust(word);
    HeaderIsContested();
  }

  lemma HeaderPrints()
    ensures '/' !in Print(RawStr("br", 1, HEADER))
  {
    hide Print;
    assert '/' !in HEADER && '/' !in "br";
    RawHasNoSlash("br", 1, HEADER);
  }

  lemma RawHasNoSlash(prefix: string, n: nat, body: string)
    requires '/' !in prefix && '/' !in body
    ensures '/' !in Print(RawStr(prefix, n, body))
  {
    var h, c := Repeat('#', n), Closing(n);
    assert '/' !in h && '/' !in c && '/' !in "\"";
    assert '/' !in prefix + h;
    assert '/' !in prefix + h + "\"";
    assert '/' !in prefix + h + "\"" + body;
  }

  lemma HeaderIsContested()
    ensures Contested(HeaderTokens())
  {
    assert HEADER[1..][0] == '"';
    assert HeaderTokens()[1..] == [];
  }

  lemma HeaderIsRust(word: char -> bool)
    ensures IsRust(HeaderTokens(), word)
  {
    assert HeaderTokens()[1..] == [];
    forall k | 0 <= k < |HEADER| ensures !StartsWith(HEADER + Closing(1), k, Closing(1)) {
      ClosesOnce(HEADER, k);
    }
  }

  lemma ClosesOnce(body: string, k: nat)
    requires '#' !in body && k < |body|
    ensures !StartsWith(body + Closing(1), k, Closing(1))
  {
    var t, c := body + Closing(1), Closing(1);
    assert t[k + 1] != '#' && c[1] == '#';
    assert t[k..k + 2][1] == t[k + 1];
  }
}

/** UTF-8 by the byte ranges of section 4 of RFC 3629, and cutting a text at a character boundary. */
module Utf8 {
  import opened Bytes

  predicate IsTail(b: byte) { 0x80 <= b <= 0xBF }

  /** The length of the character at the head of `s`, or 0 when none is well formed there. */
  function CharLength(s: seq<byte>): (n: nat)
    ensures n <= |s|
  {
    if |s| >= 1 && s[0] <= 0x7F then 1
    else if |s| >= 2 && 0xC2 <= s[0] <= 0xDF && IsTail(s[1]) then 2
    else if |s| >= 3 && ThreeBytes(s[0], s[1]) && IsTail(s[2]) then 3
    else if |s| >= 4 && FourBytes(s[0], s[1]) && IsTail(s[2]) && IsTail(s[3]) then 4
    else 0
  }

  predicate ThreeBytes(a: byte, b: byte) {
    || (a == 0xE0 && 0xA0 <= b <= 0xBF)
    || (0xE1 <= a <= 0xEC && IsTail(b))
    || (a == 0xED && 0x80 <= b <= 0x9F)
    || (0xEE <= a <= 0xEF && IsTail(b))
  }

  predicate FourBytes(a: byte, b: byte) {
    || (a == 0xF0 && 0x90 <= b <= 0xBF)
    || (0xF1 <= a <= 0xF3 && IsTail(b))
    || (a == 0xF4 && 0x80 <= b <= 0x8F)
  }

  /** A well-formed text: a Rust `str`. */
  predicate Valid(s: seq<byte>)
    decreases |s|
  {
    s == [] || (CharLength(s) > 0 && Valid(s[CharLength(s)..]))
  }

  /** `str::is_char_boundary`. */
  predicate IsBoundary(s: seq<byte>, i: nat) {
    i == 0 || i == |s| || (i < |s| && !IsTail(s[i]))
  }

  lemma {:induction false} AsciiIsValid(s: seq<byte>)
    requires forall k :: 0 <= k < |s| ==> s[k] <= 0x7F
    ensures Valid(s)
    decreases |s|
  {
    if s != [] {
      AsciiIsValid(s[1..]);
    }
  }

  lemma FirstIsLead(s: seq<byte>)
    requires Valid(s) && s != []
    ensures !IsTail(s[0])
  {
  }

  lemma PrefixCharLength(s: seq<byte>, n: nat)
    requires n <= |s| && CharLength(s) > 0
    ensures CharLength(s[..n]) == if n < CharLength(s) then 0 else CharLength(s)
  {
  }

  /** A prefix of a well-formed text is well formed exactly at a character boundary. */
  lemma {:induction false} BoundaryIsValid(s: seq<byte>, n: nat)
    requires Valid(s) && n <= |s|
    ensures Valid(s[..n]) <==> IsBoundary(s, n)
    decreases |s|
  {
    if s != [] && n > 0 {
      var k := CharLength(s);
      PrefixCharLength(s, n);
      if n >= k {
        assert s[..n][k..] == s[k..n] == s[k..][..n - k];
        BoundaryIsValid(s[k..], n - k);
        if n == k && k < |s| {
          FirstIsLead(s[k..]);
        }
      }
    }
  }

  lemma {:induction false} ValidConcat(s: seq<byte>, t: seq<byte>)
    requires Valid(s) && Valid(t)
    ensures Valid(s + t)
    decreases |s|
  {
    if s == [] {
      assert s + t == t;
    } else {
      var k := CharLength(s);
      assert (s + t)[k..] == s[k..] + t;
      ValidConcat(s[k..], t);
    }
  }

  // What well formed means

  /** A Unicode scalar value: no surrogate. */
  predicate IsScalar(c: int) { 0 <= c < 0xD800 || 0xE000 <= c < 0x11_0000 }

  /** The bytes of a scalar value: its bits in groups of six, under the lead byte for their number. */
  function Scalar(c: int): seq<byte>
    requires IsScalar(c)
  {
    if c < 0x80 then [c]
    else if c < 0x800 then [0xC0 + c / 0x40, 0x80 + c % 0x40]
    else if c < 0x1_0000 then [0xE0 + c / 0x1000, 0x80 + c / 0x40 % 0x40, 0x80 + c % 0x40]
    else [0xF0 + c / 0x4_0000, 0x80 + c / 0x1000 % 0x40, 0x80 + c / 0x40 % 0x40, 0x80 + c % 0x40]
  }

  predicate AllScalars(cs: seq<int>) { forall k :: 0 <= k < |cs| ==> IsScalar(cs[k]) }

  function Spelled(cs: seq<int>): seq<byte>
    requires AllScalars(cs)
  {
    if cs == [] then [] else Scalar(cs[0]) + Spelled(cs[1..])
  }

  /** The scalar value at the head of a text. */
  function First(s: seq<byte>): int
    requires CharLength(s) > 0
  {
    var a: int := s[0];
    match CharLength(s)
    case 1 => a
    case 2 => (a - 0xC0) * 0x40 + At(s, 1)
    case 3 => (a - 0xE0) * 0x1000 + At(s, 1) * 0x40 + At(s, 2)
    case _ => (a - 0xF0) * 0x4_0000 + At(s, 1) * 0x1000 + At(s, 2) * 0x40 + At(s, 3)
  }

  function At(s: seq<byte>, k: nat): int
    requires k < |s|
  {
    var b: int := s[k];
    b - 0x80
  }

  lemma Sixes(x: nat, y: nat, z: nat)
    requires y < 0x40 && z < 0x40
    ensures var c := x * 0x1000 + y * 0x40 + z; c / 0x1000 == x && c / 0x40 % 0x40 == y && c % 0x40 == z
  {
    var c := x * 0x1000 + y * 0x40 + z;
    Quotient(c, 0x1000, x, y * 0x40 + z);
    Quotient(c, 0x40, x * 0x40 + y, z);
  }

  lemma FirstOfThree(s: seq<byte>)
    requires CharLength(s) == 3
    ensures IsScalar(First(s)) && Scalar(First(s)) == s[..3]
  {
    var a: int := s[0];
    Sixes(a - 0xE0, At(s, 1), At(s, 2));
  }

  lemma FirstOfFour(s: seq<byte>)
    requires CharLength(s) == 4
    ensures IsScalar(First(s)) && Scalar(First(s)) == s[..4]
  {
    var a: int := s[0];
    var high := (a - 0xF0) * 0x40 + At(s, 1);
    Sixes(high, At(s, 2), At(s, 3));
    Sixes(a - 0xF0, At(s, 1), At(s, 2));
    Quotient(First(s), 0x4_0000, a - 0xF0, At(s, 1) * 0x1000 + At(s, 2) * 0x40 + At(s, 3));
  }

  lemma FirstIs(s: seq<byte>)
    requires CharLength(s) > 0
    ensures IsScalar(First(s)) && Scalar(First(s)) == s[..CharLength(s)]
  {
    match CharLength(s)
    case 1 =>
    case 2 =>
    case 3 => FirstOfThree(s);
    case _ => FirstOfFour(s);
  }

  lemma ScalarIsLead(c: int)
    requires IsScalar(c)
    ensures var s := Scalar(c); 0 < |s| <= 4 && CharLength(s) == |s|
  {
    if c < 0x800 {
    } else if c < 0x1_0000 {
      assert 0xE0 <= 0xE0 + c / 0x1000 <= 0xEF;
    } else {
      assert 0xF0 <= 0xF0 + c / 0x4_0000 <= 0xF4;
    }
  }

  lemma LongerText(s: seq<byte>, rest: seq<byte>)
    requires CharLength(s) == |s| > 0
    ensures CharLength(s + rest) == |s|
  {
  }

  lemma ScalarIsRead(c: int, rest: seq<byte>)
    requires IsScalar(c)
    ensures CharLength(Scalar(c) + rest) == |Scalar(c)| && |Scalar(c)| > 0
  {
    hide Scalar, CharLength;
    ScalarIsLead(c);
    LongerText(Scalar(c), rest);
  }

  lemma {:induction false} SpelledIsValid(cs: seq<int>)
    requires AllScalars(cs)
    ensures Valid(Spelled(cs))
    decreases |cs|
  {
    if cs != [] {
      hide Scalar;
      ScalarIsRead(cs[0], Spelled(cs[1..]));
      SpelledIsValid(cs[1..]);
      assert Spelled(cs)[|Scalar(cs[0])|..] == Spelled(cs[1..]);
    }
  }

  lemma {:induction false} ValidIsSpelled(s: seq<byte>) returns (cs: seq<int>)
    requires Valid(s)
    ensures AllScalars(cs) && Spelled(cs) == s
    decreases |s|
  {
    if s == [] {
      cs := [];
    } else {
      hide Scalar, First;
      FirstIs(s);
      var rest := ValidIsSpelled(s[CharLength(s)..]);
      cs := [First(s)] + rest;
      assert cs[1..] == rest;
      assert s == s[..CharLength(s)] + s[CharLength(s)..];
    }
  }

  /** A text is well formed if and only if it spells Unicode scalar values. */
  lemma ValidMeansScalars(s: seq<byte>)
    ensures Valid(s) <==> exists cs :: AllScalars(cs) && Spelled(cs) == s
  {
    if Valid(s) {
      var cs := ValidIsSpelled(s);
    }
    forall cs | AllScalars(cs) && Spelled(cs) == s ensures Valid(s) {
      SpelledIsValid(cs);
    }
  }
}

/** Bytes and big-endian numbers. */
module Bytes {
  type byte = x: int | 0 <= x < 256

  function Pow256(k: nat): (p: nat)
    ensures p > 0
  {
    if k == 0 then 1 else 256 * Pow256(k - 1)
  }

  /** The low `k` bytes of `n`, most significant first. */
  function BigEndian(n: nat, k: nat): (r: seq<byte>)
    ensures |r| == k
  {
    if k == 0 then [] else BigEndian(n / 256, k - 1) + [n % 256]
  }

  function FromBigEndian(s: seq<byte>): nat {
    if s == [] then 0 else 256 * FromBigEndian(s[..|s| - 1]) + s[|s| - 1]
  }

  lemma {:induction false} BigEndianReads(n: nat, k: nat)
    requires n < Pow256(k)
    ensures FromBigEndian(BigEndian(n, k)) == n
  {
    if k > 0 {
      BigEndianReads(n / 256, k - 1);
      assert BigEndian(n, k)[..k - 1] == BigEndian(n / 256, k - 1);
    }
  }

  lemma {:induction false} BigEndianWrites(s: seq<byte>)
    ensures FromBigEndian(s) < Pow256(|s|) && BigEndian(FromBigEndian(s), |s|) == s
  {
    if s != [] {
      BigEndianWrites(s[..|s| - 1]);
    }
  }

  /** A number too wide for its field arrives reduced. */
  lemma {:induction false} BigEndianWraps(n: nat, k: nat)
    ensures FromBigEndian(BigEndian(n, k)) == n % Pow256(k)
  {
    if k > 0 {
      BigEndianWraps(n / 256, k - 1);
      assert BigEndian(n, k)[..k - 1] == BigEndian(n / 256, k - 1);
      DivideTwice(n, Pow256(k - 1));
    }
  }

  lemma DivideTwice(n: nat, p: nat)
    requires p > 0
    ensures n % (256 * p) == 256 * ((n / 256) % p) + n % 256
  {
    var q := n / 256;
    var d, r := q / p, q % p;
    var low := 256 * r + n % 256;
    assert n == 256 * q + n % 256;
    assert n == (256 * p) * d + low by {
      assert q == p * d + r;
      assert 256 * (p * d) == (256 * p) * d;
    }
    assert 0 <= low < 256 * p;
    Remainder(n, 256 * p, d, low);
  }

  lemma Remainder(n: nat, m: nat, d: nat, r: nat)
    requires m > 0 && r < m && n == m * d + r
    ensures n % m == r
  {
    OneQuotient(m, d, r, n / m, n % m);
  }

  lemma OneQuotient(m: nat, d: nat, r: nat, e: nat, s: nat)
    requires r < m && s < m && m * d + r == m * e + s
    ensures d == e && r == s
  {
    if d < e {
      Grows(m, d + 1, e);
    } else if e < d {
      Grows(m, e + 1, d);
    }
  }

  lemma Grows(m: nat, a: nat, b: nat)
    requires a <= b
    ensures m * a <= m * b
  {
  }

  /** A concatenation is cut where it was joined. */
  lemma Cut<T>(a: seq<T>, b: seq<T>)
    ensures (a + b)[..|a|] == a && (a + b)[|a|..] == b
  {
  }

  lemma Widths()
    ensures Pow256(1) == 0x100 && Pow256(2) == 0x1_0000 && Pow256(4) == 0x1_0000_0000
    ensures Pow256(8) == 0x1_0000_0000_0000_0000
  {
    assert Pow256(3) == 0x100_0000;
    assert Pow256(5) == 0x100_0000_0000;
    assert Pow256(6) == 0x1_0000_0000_0000;
    assert Pow256(7) == 0x100_0000_0000_0000;
  }

  // Which byte stands where

  lemma DivideOn(n: nat, p: nat)
    requires p > 0
    ensures n / 256 / p == n / (256 * p)
  {
    var q := n / 256;
    var d, r := q / p, q % p;
    var low := 256 * r + n % 256;
    assert n == 256 * q + n % 256;
    assert n == (256 * p) * d + low by {
      assert q == p * d + r;
      assert 256 * (p * d) == (256 * p) * d;
    }
    assert 0 <= low < 256 * p;
    Quotient(n, 256 * p, d, low);
  }

  lemma Quotient(n: nat, m: nat, d: nat, r: nat)
    requires m > 0 && r < m && n == m * d + r
    ensures n / m == d
  {
    OneQuotient(m, d, r, n / m, n % m);
  }

  /** The byte at a place is the digit of its weight in base 256: the first weighs most. */
  lemma {:induction false} BigEndianAt(n: nat, k: nat, i: nat)
    requires i < k
    ensures BigEndian(n, k)[i] == n / Pow256(k - 1 - i) % 256
    decreases k
  {
    if i < k - 1 {
      BigEndianAt(n / 256, k - 1, i);
      DivideOn(n, Pow256(k - 2 - i));
    }
  }

  /** The sum of the bytes from `i` on, each times its weight; the last weighs one. */
  function Weighed(s: seq<byte>, i: nat): nat
    requires i <= |s|
    decreases |s| - i
  {
    if i == |s| then 0 else s[i] * Pow256(|s| - 1 - i) + Weighed(s, i + 1)
  }

  lemma {:induction false} WeighedShorter(s: seq<byte>, i: nat)
    requires s != [] && i < |s|
    ensures Weighed(s, i) == 256 * Weighed(s[..|s| - 1], i) + s[|s| - 1]
    decreases |s| - i
  {
    var t := s[..|s| - 1];
    if i == |s| - 1 {
      assert Weighed(s, i + 1) == 0;
    } else {
      WeighedShorter(s, i + 1);
      var p := Pow256(|s| - 2 - i);
      assert s[i] * (256 * p) == 256 * (s[i] * p);
    }
  }

  /** Reading is that sum. */
  lemma {:induction false} FromBigEndianIs(s: seq<byte>)
    ensures FromBigEndian(s) == Weighed(s, 0)
  {
    if s != [] {
      FromBigEndianIs(s[..|s| - 1]);
      WeighedShorter(s, 0);
    }
  }

  // Numbers of two, four and eight bytes

  function Digit(n: int, weight: int): byte
    requires weight > 0
  {
    n / weight % 256
  }

  function Two(n: int): (r: seq<byte>) { [Digit(n, 0x100), Digit(n, 1)] }

  function Four(n: int): (r: seq<byte>) {
    [Digit(n, 0x100_0000), Digit(n, 0x1_0000), Digit(n, 0x100), Digit(n, 1)]
  }

  function Eight(n: int): (r: seq<byte>) {
    [Digit(n, 0x100_0000_0000_0000), Digit(n, 0x1_0000_0000_0000), Digit(n, 0x100_0000_0000), Digit(n, 0x1_0000_0000)]
    + Four(n)
  }

  lemma TwoIs(n: nat)
    ensures BigEndian(n, 2) == Two(n)
  {
    hide BigEndian;
    Widths();
    BigEndianAt(n, 2, 0);
    BigEndianAt(n, 2, 1);
  }

  lemma FourIs(n: nat)
    ensures BigEndian(n, 4) == Four(n)
  {
    hide BigEndian;
    Weights();
    forall i | 0 <= i < 4 ensures BigEndian(n, 4)[i] == Four(n)[i] {
      BigEndianAt(n, 4, i);
    }
  }

  lemma EightIs(n: nat)
    ensures BigEndian(n, 8) == Eight(n)
  {
    hide BigEndian;
    Weights();
    forall i | 0 <= i < 8 ensures BigEndian(n, 8)[i] == Eight(n)[i] {
      BigEndianAt(n, 8, i);
    }
  }

  lemma Weights()
    ensures Pow256(0) == 1 && Pow256(1) == 0x100 && Pow256(2) == 0x1_0000 && Pow256(3) == 0x100_0000
    ensures Pow256(4) == 0x1_0000_0000 && Pow256(5) == 0x100_0000_0000 && Pow256(6) == 0x1_0000_0000_0000
    ensures Pow256(7) == 0x100_0000_0000_0000
  {
  }

  function FromFour(a: nat, b: nat, c: nat, d: nat): nat { a * 0x100_0000 + b * 0x1_0000 + c * 0x100 + d }

  lemma FourReads(a: byte, b: byte, c: byte, d: byte)
    ensures FromBigEndian([a, b, c, d]) == FromFour(a, b, c, d)
  {
    var s := [a, b, c, d];
    assert s[..3] == [a, b, c] && s[..3][..2] == [a, b] && s[..3][..2][..1] == [a];
    assert FromBigEndian([a]) == a;
    assert FromBigEndian([a, b]) == 256 * FromBigEndian([a]) + b;
    assert FromBigEndian([a, b, c]) == 256 * FromBigEndian([a, b]) + c;
  }
}

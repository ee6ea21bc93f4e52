/** Base64 text with padding, as `Buffer.toString("base64")` writes it and `Buffer.from` reads it back. */
module Base64 {
  import opened Bytes

  type Sextet = x: int | 0 <= x < 64

  function Letter(n: Sextet): char {
    if n < 26 then ('A' as int + n) as char
    else if n < 52 then ('a' as int + (n - 26)) as char
    else if n < 62 then ('0' as int + (n - 52)) as char
    else if n == 62 then '+'
    else '/'
  }

  predicate IsLetter(c: char) {
    'A' <= c <= 'Z' || 'a' <= c <= 'z' || '0' <= c <= '9' || c == '+' || c == '/'
  }

  function Number(c: char): Sextet
    requires IsLetter(c)
  {
    if 'A' <= c <= 'Z' then c as int - 'A' as int
    else if 'a' <= c <= 'z' then c as int - 'a' as int + 26
    else if '0' <= c <= '9' then c as int - '0' as int + 52
    else if c == '+' then 62
    else 63
  }

  lemma LetterReads(n: Sextet)
    ensures IsLetter(Letter(n)) && Letter(n) != '=' && Number(Letter(n)) == n
  {
  }

  function Encode(b: seq<byte>): string {
    if b == [] then []
    else if |b| == 1 then [Letter(b[0] / 4), Letter(b[0] % 4 * 16), '=', '=']
    else if |b| == 2 then [Letter(b[0] / 4), Letter(b[0] % 4 * 16 + b[1] / 16), Letter(b[1] % 16 * 4), '=']
    else
      [Letter(b[0] / 4), Letter(b[0] % 4 * 16 + b[1] / 16), Letter(b[1] % 16 * 4 + b[2] / 64), Letter(b[2] % 64)]
        + Encode(b[3..])
  }

  /** Whole groups of four letters, the last of which may end in one or two padding signs. */
  predicate Shaped(s: string) {
    && |s| % 4 == 0
    && (forall i :: 0 <= i < |s| - 2 ==> IsLetter(s[i]))
    && (s != [] ==>
         (s[|s| - 2] == '=' && s[|s| - 1] == '=')
           || (IsLetter(s[|s| - 2]) && (IsLetter(s[|s| - 1]) || s[|s| - 1] == '=')))
  }

  function Decode(s: string): seq<byte>
    requires Shaped(s)
  {
    if s == [] then []
    else
      var a, b := Number(s[0]), Number(s[1]);
      if s[2] == '=' then [a * 4 + b / 16]
      else if s[3] == '=' then [a * 4 + b / 16, b % 16 * 16 + Number(s[2]) / 4]
      else
        [a * 4 + b / 16, b % 16 * 16 + Number(s[2]) / 4, Number(s[2]) % 4 * 64 + Number(s[3])] + Decode(s[4..])
  }

  lemma {:induction false} DecodeEncode(b: seq<byte>)
    ensures Shaped(Encode(b)) && Decode(Encode(b)) == b
  {
    hide Letter, Number, IsLetter;
    if |b| == 0 {
    } else if |b| == 1 {
      LastOne(b[0]);
    } else if |b| == 2 {
      LastTwo(b[0], b[1]);
    } else {
      DecodeEncode(b[3..]);
      Group(b[0], b[1], b[2], Encode(b[3..]));
      assert b == [b[0], b[1], b[2]] + b[3..];
    }
  }

  lemma LastOne(x: byte)
    ensures Shaped(Encode([x])) && Decode(Encode([x])) == [x]
  {
    hide Letter, Number, IsLetter;
    LetterReads(x / 4);
    LetterReads(x % 4 * 16);
  }

  lemma LastTwo(x: byte, y: byte)
    ensures Shaped(Encode([x, y])) && Decode(Encode([x, y])) == [x, y]
  {
    hide Letter, Number, IsLetter;
    LetterReads(x / 4);
    LetterReads(x % 4 * 16 + y / 16);
    LetterReads(y % 16 * 4);
  }

  lemma GroupShaped(a: char, b: char, c: char, d: char, rest: string)
    requires IsLetter(a) && IsLetter(b) && IsLetter(c) && IsLetter(d) && Shaped(rest)
    ensures Shaped([a, b, c, d] + rest)
  {
    hide IsLetter;
    var s := [a, b, c, d] + rest;
    assert forall i :: 4 <= i < |s| ==> s[i] == rest[i - 4];
  }

  /** One full group in front of a shaped text. */
  lemma Group(x: byte, y: byte, z: byte, rest: string)
    requires Shaped(rest)
    ensures var s := [Letter(x / 4), Letter(x % 4 * 16 + y / 16), Letter(y % 16 * 4 + z / 64), Letter(z % 64)] + rest;
      Shaped(s) && Decode(s) == [x, y, z] + Decode(rest)
  {
    hide Letter, Number, IsLetter, Shaped, Decode;
    Sextets(x, y, z);
    GroupReads(x / 4, x % 4 * 16 + y / 16, y % 16 * 4 + z / 64, z % 64, rest);
  }

  lemma Sextets(x: byte, y: byte, z: byte)
    ensures var j, k := x % 4 * 16 + y / 16, y % 16 * 4 + z / 64;
      0 <= j < 64 && 0 <= k < 64 && x / 4 * 4 + j / 16 == x && j % 16 * 16 + k / 4 == y && k % 4 * 64 + z % 64 == z
  {
  }

  lemma GroupReads(i: Sextet, j: Sextet, k: Sextet, l: Sextet, rest: string)
    requires Shaped(rest)
    ensures var s := [Letter(i), Letter(j), Letter(k), Letter(l)] + rest;
      Shaped(s) && Decode(s) == [i * 4 + j / 16, j % 16 * 16 + k / 4, k % 4 * 64 + l] + Decode(rest)
  {
    hide Letter, Number, IsLetter, Shaped;
    LetterReads(i);
    LetterReads(j);
    LetterReads(k);
    LetterReads(l);
    GroupShaped(Letter(i), Letter(j), Letter(k), Letter(l), rest);
    var s := [Letter(i), Letter(j), Letter(k), Letter(l)] + rest;
    assert s[4..] == rest;
  }
}

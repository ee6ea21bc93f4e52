/**
  Record codecs with laws. `put(at, v)` is what an encoder appends to a record
  of length `at`, `get` what a decoder reads from the rest of a record. Where a
  record loses detail, `norm(at, v)` is the value that arrives. Every combinator
  keeps the laws, so a record built from lawful fields is lawful.
*/
module Codec {
  import opened Wrappers
  import opened Bytes
  import opened Wire
  import Utf8

  datatype Codec<!T> = Codec(
    ok: T -> bool,
    norm: (nat, T) -> T,
    put: (nat, T) -> Option<seq<byte>>,
    get: seq<byte> -> Option<(T, seq<byte>)>)

  /** What is written can be read back, followed by anything, and the value that arrives writes the same bytes. */
  ghost predicate WritesBack<T(!new)>(c: Codec<T>, at: nat, v: T) {
    at <= LIMIT && c.ok(v) && c.put(at, v).Some? ==>
      var b, w := c.put(at, v).value, c.norm(at, v);
      && at + |b| <= LIMIT
      && c.ok(w) && c.put(at, w) == Some(b) && c.norm(at, w) == w
      && forall rest :: c.get(b + rest) == Some((w, rest))
  }

  /** What is read is well formed, is a prefix of the bytes, and does not change when bytes follow. */
  ghost predicate ReadsPrefix<T(!new)>(c: Codec<T>, b: seq<byte>) {
    c.get(b).Some? ==>
      var (v, rest) := c.get(b).value;
      && c.ok(v)
      && |rest| <= |b| && rest == b[|b| - |rest|..]
      && forall more :: c.get(b + more) == Some((v, rest + more))
  }

  ghost predicate Lawful<T(!new)>(c: Codec<T>) {
    (forall at: nat, v :: WritesBack(c, at, v)) && (forall b :: ReadsPrefix(c, b))
  }

  /** The law at one value. */
  lemma Law<T(!new)>(c: Codec<T>, at: nat, v: T)
    requires Lawful(c)
    ensures WritesBack(c, at, v)
  {
  }

  lemma LawReads<T(!new)>(c: Codec<T>, b: seq<byte>)
    requires Lawful(c)
    ensures ReadsPrefix(c, b)
  {
  }

  lemma LawfulFrom<T(!new)>(c: Codec<T>)
    requires (forall at: nat, v :: WritesBack(c, at, v)) && (forall b :: ReadsPrefix(c, b))
    ensures Lawful(c)
  {
  }

  /** Nothing is lost, and what is read is written again byte for byte. */
  ghost predicate ExactAt<T(!new)>(c: Codec<T>, at: nat, b: seq<byte>) {
    c.get(b).Some? ==>
      var (v, rest) := c.get(b).value;
      |rest| <= |b| && (at + |b| - |rest| <= LIMIT ==> c.put(at, v) == Some(b[..|b| - |rest|]))
  }

  ghost predicate Exact<T(!new)>(c: Codec<T>) {
    (forall at: nat, v :: c.norm(at, v) == v) && (forall at: nat, b :: ExactAt(c, at, b))
  }

  /** Inverse both ways. */
  ghost predicate Faithful<T(!new)>(c: Codec<T>) { Lawful(c) && Exact(c) }

  lemma Unchanged<T(!new)>(c: Codec<T>, at: nat, v: T)
    requires Faithful(c)
    ensures c.norm(at, v) == v
  {
  }

  function Same<T>(at: nat, v: T): T { v }

  // Fields

  /** A fixed number of bytes for which `valid` holds. */
  function Fixed(n: nat, valid: seq<byte> -> bool): Codec<seq<byte>> {
    Codec(
      v => |v| == n && valid(v),
      Same,
      (at: nat, v) => Raw(at, v),
      b => if |b| >= n && valid(b[..n]) then Some((b[..n], b[n..])) else None)
  }

  lemma FixedLaw(n: nat, valid: seq<byte> -> bool)
    ensures Lawful(Fixed(n, valid)) && Exact(Fixed(n, valid))
  {
    var c := Fixed(n, valid);
    forall at: nat, v ensures WritesBack(c, at, v) {
      if c.ok(v) {
        forall rest ensures c.get(v + rest) == Some((v, rest)) {
          assert (v + rest)[..n] == v && (v + rest)[n..] == rest;
        }
      }
    }
    forall b ensures ReadsPrefix(c, b) {
      if c.get(b).Some? {
        forall more ensures c.get(b + more) == Some((b[..n], b[n..] + more)) {
          assert (b + more)[..n] == b[..n] && (b + more)[n..] == b[n..] + more;
        }
      }
    }
  }

  /** An unsigned big-endian number of `k` bytes. */
  function Unsigned(k: nat): Codec<int> {
    Codec(
      v => 0 <= v < Pow256(k),
      Same,
      (at: nat, v) => if v < 0 then None else Raw(at, BigEndian(v, k)),
      b => if |b| >= k then Some((FromBigEndian(b[..k]), b[k..])) else None)
  }

  lemma UnsignedLaw(k: nat)
    ensures Lawful(Unsigned(k)) && Exact(Unsigned(k))
  {
    hide BigEndian, FromBigEndian;
    var c := Unsigned(k);
    forall at: nat, v ensures WritesBack(c, at, v) {
      if c.ok(v) {
        BigEndianReads(v, k);
        forall rest ensures c.get(BigEndian(v, k) + rest) == Some((v, rest)) {
          assert (BigEndian(v, k) + rest)[..k] == BigEndian(v, k) && (BigEndian(v, k) + rest)[k..] == rest;
        }
      }
    }
    forall at: nat, b ensures ExactAt(c, at, b) {
      if |b| >= k {
        BigEndianWrites(b[..k]);
      }
    }
    forall b ensures ReadsPrefix(c, b) {
      if |b| >= k {
        BigEndianWrites(b[..k]);
        forall more ensures c.get(b + more) == Some((FromBigEndian(b[..k]), b[k..] + more)) {
          assert (b + more)[..k] == b[..k] && (b + more)[k..] == b[k..] + more;
        }
      }
    }
  }

  /** One byte standing for a value. */
  function Coded<T>(code: T -> int, of: int -> Option<T>): Codec<T> {
    Codec(
      v => true,
      Same,
      (at: nat, v) => if 0 <= code(v) < 256 then Raw(at, [code(v)]) else None,
      b => if b == [] then None else match of(b[0]) case None => None case Some(v) => Some((v, b[1..])))
  }

  lemma CodedIs<T(!new)>(code: T -> int, of: int -> Option<T>, at: nat, v: T)
    requires 0 <= code(v) < 256
    ensures Coded(code, of).put(at, v).Some? <==> at + 1 <= LIMIT
    ensures Coded(code, of).put(at, v).Some? ==> Coded(code, of).put(at, v).value == [code(v)]
    ensures Coded(code, of).norm(at, v) == v
  {
    var b: seq<byte> := [code(v)];
    assert |b| == 1 && Coded(code, of).put(at, v) == Raw(at, b);
  }

  lemma CodedLaw<T(!new)>(code: T -> int, of: int -> Option<T>)
    requires forall v :: 0 <= code(v) < 256 && of(code(v)) == Some(v)
    requires forall n: byte :: of(n).Some? ==> code(of(n).value) == n
    ensures Lawful(Coded(code, of)) && Exact(Coded(code, of))
  {
    var c := Coded(code, of);
    forall at: nat, v ensures WritesBack(c, at, v) {
      var b: seq<byte> := [code(v)];
      forall rest ensures c.get(b + rest) == Some((v, rest)) {
        assert (b + rest)[0] == code(v) && (b + rest)[1..] == rest;
      }
    }
    forall at: nat, b ensures ExactAt(c, at, b) {
      if c.get(b).Some? {
        assert b[..1] == [code(c.get(b).value.0)];
      }
    }
    forall b ensures ReadsPrefix(c, b) {
      if c.get(b).Some? {
        var v := c.get(b).value.0;
        forall more ensures c.get(b + more) == Some((v, b[1..] + more)) {
          assert (b + more)[0] == b[0] && (b + more)[1..] == b[1..] + more;
        }
      }
    }
  }

  /** A length of `width` bytes, at most `maximum`, then bytes for which `valid` holds. */
  function Run(width: nat, maximum: nat, valid: seq<byte> -> bool): Codec<seq<byte>> {
    Codec(
      v => valid(v),
      Same,
      (at: nat, v) => if |v| > maximum || |v| >= Pow256(width) then None else Raw(at, BigEndian(|v|, width) + v),
      b =>
        match TakenRun(b, width, maximum)
        case None => None
        case Some((v, rest)) => if valid(v) then Some((v, rest)) else None)
  }

  lemma RunLaw(width: nat, maximum: nat, valid: seq<byte> -> bool)
    ensures Lawful(Run(width, maximum, valid)) && Exact(Run(width, maximum, valid))
  {
    hide BigEndian, FromBigEndian, TakenRun, Pow256;
    var c := Run(width, maximum, valid);
    forall at: nat, v ensures WritesBack(c, at, v) {
      if c.ok(v) && c.put(at, v).Some? {
        forall rest: seq<byte> ensures c.get(BigEndian(|v|, width) + v + rest) == Some((v, rest)) {
          RunTaken(v, rest, width, maximum);
        }
      }
    }
    forall b ensures ReadsPrefix(c, b) {
      RunReads(b, width, maximum, valid);
    }
    forall at: nat, b ensures ExactAt(c, at, b) {
      RunReads(b, width, maximum, valid);
    }
  }

  lemma RunReads(b: seq<byte>, width: nat, maximum: nat, valid: seq<byte> -> bool)
    ensures ReadsPrefix(Run(width, maximum, valid), b) && forall at: nat :: ExactAt(Run(width, maximum, valid), at, b)
  {
    hide BigEndian, FromBigEndian, TakenRun, Pow256;
    var c := Run(width, maximum, valid);
    if c.get(b).Some? {
      var (v, rest) := c.get(b).value;
      TakenIsRun(b, width, maximum);
      assert b[..|b| - |rest|] == BigEndian(|v|, width) + v;
      forall more: seq<byte> ensures c.get(b + more) == Some((v, rest + more)) {
        RunTaken(v, rest + more, width, maximum);
        assert b + more == BigEndian(|v|, width) + v + (rest + more);
      }
    }
  }

  /** Text of at most `maximum` bytes under a u16 length. */
  function TextField(maximum: nat): Codec<seq<byte>> { Run(2, maximum, s => Utf8.Valid(s)) }

  lemma TextFieldLaw(maximum: nat)
    ensures Lawful(TextField(maximum)) && Exact(TextField(maximum))
  {
    RunLaw(2, maximum, s => Utf8.Valid(s));
  }

  // Combinators

  function Pair<A, B>(a: Codec<A>, b: Codec<B>): Codec<(A, B)> {
    Codec(
      (v: (A, B)) => a.ok(v.0) && b.ok(v.1),
      (at: nat, v: (A, B)) =>
        match a.put(at, v.0)
        case None => v
        case Some(x) => (a.norm(at, v.0), b.norm(at + |x|, v.1)),
      (at: nat, v: (A, B)) =>
        match a.put(at, v.0)
        case None => None
        case Some(x) =>
          match b.put(at + |x|, v.1)
          case None => None
          case Some(y) => Some(x + y),
      s =>
        match a.get(s)
        case None => None
        case Some((x, rest)) =>
          match b.get(rest)
          case None => None
          case Some((y, rest')) => Some(((x, y), rest')))
  }

  lemma PairOk<A(!new), B(!new)>(a: Codec<A>, b: Codec<B>, v: (A, B))
    ensures Pair(a, b).ok(v) <==> a.ok(v.0) && b.ok(v.1)
  {
  }

  /** A written pair is its first part, then its second. */
  lemma PairIs<A(!new), B(!new)>(a: Codec<A>, b: Codec<B>, at: nat, v: (A, B))
    requires Pair(a, b).put(at, v).Some?
    ensures a.put(at, v.0).Some?
    ensures var x := a.put(at, v.0).value;
      && b.put(at + |x|, v.1).Some?
      && Pair(a, b).put(at, v).value == x + b.put(at + |x|, v.1).value
      && Pair(a, b).norm(at, v) == (a.norm(at, v.0), b.norm(at + |x|, v.1))
  {
  }

  lemma PairPut<A(!new), B(!new)>(a: Codec<A>, b: Codec<B>, at: nat, v: (A, B))
    ensures Pair(a, b).put(at, v) ==
      match a.put(at, v.0)
      case None => None
      case Some(x) => Prepend(x, b.put(at + |x|, v.1))
  {
  }

  lemma PairOf<A(!new), B(!new)>(a: Codec<A>, b: Codec<B>, at: nat, v: (A, B))
    requires a.put(at, v.0).Some? && b.put(at + |a.put(at, v.0).value|, v.1).Some?
    ensures Pair(a, b).put(at, v) == Some(a.put(at, v.0).value + b.put(at + |a.put(at, v.0).value|, v.1).value)
  {
  }

  lemma PairWrites<A(!new), B(!new)>(a: Codec<A>, b: Codec<B>, at: nat, v: (A, B))
    requires Lawful(a) && Lawful(b)
    ensures WritesBack(Pair(a, b), at, v)
  {
    var c := Pair(a, b);
    if at <= LIMIT && c.ok(v) && c.put(at, v).Some? {
      assert WritesBack(a, at, v.0);
      var x := a.put(at, v.0).value;
      assert WritesBack(b, at + |x|, v.1);
      var y := b.put(at + |x|, v.1).value;
      forall rest ensures c.get(x + y + rest) == Some((c.norm(at, v), rest)) {
        assert x + y + rest == x + (y + rest);
      }
    }
  }

  lemma PairReads<A(!new), B(!new)>(a: Codec<A>, b: Codec<B>, s: seq<byte>)
    requires Lawful(a) && Lawful(b)
    ensures ReadsPrefix(Pair(a, b), s)
  {
    var c := Pair(a, b);
    if c.get(s).Some? {
      assert ReadsPrefix(a, s);
      var (x, mid) := a.get(s).value;
      assert ReadsPrefix(b, mid);
      var (y, rest) := b.get(mid).value;
      forall more ensures c.get(s + more) == Some(((x, y), rest + more)) {
        assert a.get(s + more) == Some((x, mid + more));
      }
    }
  }

  lemma PairLaw<A(!new), B(!new)>(a: Codec<A>, b: Codec<B>)
    requires Lawful(a) && Lawful(b)
    ensures Lawful(Pair(a, b))
  {
    forall at: nat, v ensures WritesBack(Pair(a, b), at, v) {
      PairWrites(a, b, at, v);
    }
    forall s ensures ReadsPrefix(Pair(a, b), s) {
      PairReads(a, b, s);
    }
  }

  lemma PairExact<A(!new), B(!new)>(a: Codec<A>, b: Codec<B>)
    requires Lawful(a) && Lawful(b) && Exact(a) && Exact(b)
    ensures Exact(Pair(a, b))
  {
    var c := Pair(a, b);
    forall at: nat, v: (A, B) ensures c.norm(at, v) == v {
      assert v == (v.0, v.1);
    }
    forall at: nat, s ensures ExactAt(c, at, s) {
      if c.get(s).Some? {
        var (x, mid) := a.get(s).value;
        assert ReadsPrefix(a, s) && ExactAt(a, at, s);
        var n := |s| - |mid|;
        assert ReadsPrefix(b, mid) && ExactAt(b, at + n, mid);
        var rest := b.get(mid).value.1;
        assert s[..n] + mid[..|mid| - |rest|] == s[..|s| - |rest|];
      }
    }
  }

  /** A value seen as another: `un` takes it apart when it is of this form. */
  function Form<A, T>(c: Codec<A>, mk: A -> T, un: T -> Option<A>): Codec<T> {
    Codec(
      v => match un(v) case None => false case Some(a) => c.ok(a),
      (at: nat, v) => match un(v) case None => v case Some(a) => mk(c.norm(at, a)),
      (at: nat, v) => match un(v) case None => None case Some(a) => c.put(at, a),
      s => match c.get(s) case None => None case Some((a, rest)) => Some((mk(a), rest)))
  }

  /** A codec for values of one tag only. */
  ghost predicate Holds<T(!new)>(c: Codec<T>, tag: T -> int, n: int) { forall v :: c.ok(v) ==> tag(v) == n }

  lemma FormHolds<A(!new), T(!new)>(c: Codec<A>, mk: A -> T, un: T -> Option<A>, tag: T -> int, n: int)
    requires forall v :: un(v).Some? ==> tag(v) == n
    ensures Holds(Form(c, mk, un), tag, n)
  {
  }

  lemma HoldsAt<T(!new)>(c: Codec<T>, tag: T -> int, n: int, v: T)
    requires Holds(c, tag, n) && c.ok(v)
    ensures tag(v) == n
  {
  }

  lemma FormIsOk<A(!new), T(!new)>(c: Codec<A>, mk: A -> T, un: T -> Option<A>, v: T)
    requires un(v).Some? && c.ok(un(v).value)
    ensures Form(c, mk, un).ok(v)
  {
  }

  lemma FormPut<A(!new), T(!new)>(c: Codec<A>, mk: A -> T, un: T -> Option<A>, at: nat, v: T)
    requires un(v).Some?
    ensures Form(c, mk, un).put(at, v) == c.put(at, un(v).value)
  {
  }

  lemma FormLaw<A(!new), T(!new)>(c: Codec<A>, mk: A -> T, un: T -> Option<A>)
    requires Lawful(c)
    requires forall a :: un(mk(a)) == Some(a)
    requires forall v :: un(v).Some? ==> mk(un(v).value) == v
    ensures Lawful(Form(c, mk, un))
  {
    var f := Form(c, mk, un);
    forall at: nat, v ensures WritesBack(f, at, v) {
      if un(v).Some? {
        assert WritesBack(c, at, un(v).value);
      }
    }
    forall s ensures ReadsPrefix(f, s) {
      assert ReadsPrefix(c, s);
    }
  }

  lemma FormExact<A(!new), T(!new)>(c: Codec<A>, mk: A -> T, un: T -> Option<A>)
    requires Exact(c)
    requires forall a :: un(mk(a)) == Some(a)
    requires forall v :: un(v).Some? ==> mk(un(v).value) == v
    ensures Exact(Form(c, mk, un))
  {
    var f := Form(c, mk, un);
    forall at: nat, s ensures ExactAt(f, at, s) {
      assert ExactAt(c, at, s);
    }
  }

  lemma FormFaithful<A(!new), T(!new)>(c: Codec<A>, mk: A -> T, un: T -> Option<A>)
    requires Faithful(c)
    requires forall a :: un(mk(a)) == Some(a)
    requires forall v :: un(v).Some? ==> mk(un(v).value) == v
    ensures Faithful(Form(c, mk, un))
  {
    FormLaw(c, mk, un);
    FormExact(c, mk, un);
  }

  lemma CheckedFaithful<T(!new)>(c: Codec<T>, p: T -> bool)
    requires Faithful(c)
    ensures Faithful(Checked(c, p))
  {
    CheckedLaw(c, p);
  }

  lemma PairFaithful<A(!new), B(!new)>(a: Codec<A>, b: Codec<B>)
    requires Faithful(a) && Faithful(b)
    ensures Faithful(Pair(a, b))
  {
    PairLaw(a, b);
    PairExact(a, b);
  }

  /** A record seen as its fields. `up` may forget nothing of the fields; `down` may forget details of the record. */
  function Via<A, T>(c: Codec<A>, down: T -> A, up: A -> T): Codec<T> {
    Codec(
      v => c.ok(down(v)),
      (at: nat, v) => up(c.norm(at, down(v))),
      (at: nat, v) => c.put(at, down(v)),
      s => match c.get(s) case None => None case Some((a, rest)) => Some((up(a), rest)))
  }

  lemma ViaPut<A(!new), T(!new)>(c: Codec<A>, down: T -> A, up: A -> T, at: nat, v: T)
    ensures Via(c, down, up).put(at, v) == c.put(at, down(v))
  {
  }

  lemma ViaLaw<A(!new), T(!new)>(c: Codec<A>, down: T -> A, up: A -> T)
    requires Lawful(c) && forall a :: down(up(a)) == a
    ensures Lawful(Via(c, down, up))
  {
    var f := Via(c, down, up);
    forall at: nat, v ensures WritesBack(f, at, v) {
      assert WritesBack(c, at, down(v));
    }
    forall s ensures ReadsPrefix(f, s) {
      assert ReadsPrefix(c, s);
    }
  }

  lemma ViaFaithful<A(!new), T(!new)>(c: Codec<A>, down: T -> A, up: A -> T)
    requires Faithful(c) && (forall a :: down(up(a)) == a) && (forall v :: up(down(v)) == v)
    ensures Faithful(Via(c, down, up))
  {
    ViaLaw(c, down, up);
    forall at: nat, s ensures ExactAt(Via(c, down, up), at, s) {
      assert ExactAt(c, at, s);
    }
  }

  /** A condition both the encoder and the decoder check. */
  function Checked<T>(c: Codec<T>, p: T -> bool): Codec<T> {
    c.(put := (at: nat, v) => if p(v) then c.put(at, v) else None,
       get := s => match c.get(s) case None => None case Some((v, rest)) => if p(v) then Some((v, rest)) else None)
  }

  lemma CheckedLaw<T(!new)>(c: Codec<T>, p: T -> bool)
    requires Lawful(c)
    requires forall at: nat, v :: c.put(at, v).Some? && p(v) ==> p(c.norm(at, v))
    ensures Lawful(Checked(c, p))
    ensures Exact(c) ==> Exact(Checked(c, p))
  {
    var k := Checked(c, p);
    forall at: nat, v ensures WritesBack(k, at, v) {
      assert WritesBack(c, at, v);
    }
    forall s ensures ReadsPrefix(k, s) {
      assert ReadsPrefix(c, s);
    }
    forall at: nat, s ensures Exact(c) ==> ExactAt(k, at, s) {
      assert Exact(c) ==> ExactAt(c, at, s);
    }
  }

  /** The form that no value has and no bytes read as. */
  function Refused<T>(): Codec<T> {
    Codec(v => false, Same, (at: nat, v) => None, s => None)
  }

  /** A tag byte chooses the form. */
  function Choice<T>(tag: T -> int, form: int -> Codec<T>): Codec<T> {
    Codec(
      v => form(tag(v)).ok(v),
      (at: nat, v) => form(tag(v)).norm(at + 1, v),
      (at: nat, v) =>
        if !(0 <= tag(v) < 256) || at >= LIMIT then None
        else match form(tag(v)).put(at + 1, v) case None => None case Some(b) => Some([tag(v)] + b),
      s => if s == [] then None else form(s[0]).get(s[1..]))
  }

  lemma ChoiceIsOk<T(!new)>(tag: T -> int, form: int -> Codec<T>, v: T)
    requires form(tag(v)).ok(v)
    ensures Choice(tag, form).ok(v)
  {
  }

  lemma ChoicePuts<T(!new)>(tag: T -> int, form: int -> Codec<T>, at: nat, v: T)
    requires 0 <= tag(v) < 256 && at < LIMIT
    ensures Choice(tag, form).put(at, v) == Prepend([tag(v)], form(tag(v)).put(at + 1, v))
  {
  }

  lemma ChoicePut<T(!new)>(tag: T -> int, form: int -> Codec<T>, at: nat, v: T)
    requires 0 <= tag(v) < 256 && at < LIMIT && form(tag(v)).put(at + 1, v).Some?
    ensures Choice(tag, form).put(at, v).Some?
  {
  }

  lemma ChoiceLaw<T(!new)>(tag: T -> int, form: int -> Codec<T>)
    requires forall n: byte :: Lawful(form(n))
    requires forall n: byte, v :: form(n).ok(v) ==> tag(v) == n
    requires forall v :: 0 <= tag(v) < 256
    ensures Lawful(Choice(tag, form))
    ensures (forall n: byte :: Exact(form(n))) ==> Exact(Choice(tag, form))
  {
    var c := Choice(tag, form);
    forall at: nat, v ensures WritesBack(c, at, v) {
      if at <= LIMIT && c.ok(v) && c.put(at, v).Some? {
        ChoiceWrites(tag, form, at, v);
      }
    }
    forall s ensures ReadsPrefix(c, s) {
      if c.get(s).Some? {
        ChoiceReads(tag, form, s);
      }
    }
    if forall n: byte :: Exact(form(n)) {
      forall at: nat, s ensures ExactAt(c, at, s) {
        if c.get(s).Some? {
          ChoiceReads(tag, form, s);
        }
      }
    }
  }

  lemma ChoiceWrites<T(!new)>(tag: T -> int, form: int -> Codec<T>, at: nat, v: T)
    requires 0 <= tag(v) < 256 && Lawful(form(tag(v)))
    requires forall n: byte, w :: form(n).ok(w) ==> tag(w) == n
    requires at <= LIMIT && Choice(tag, form).ok(v) && Choice(tag, form).put(at, v).Some?
    ensures WritesBack(Choice(tag, form), at, v)
  {
    var c := Choice(tag, form);
    var f := form(tag(v));
    assert WritesBack(f, at + 1, v);
    var b := f.put(at + 1, v).value;
    var t: byte := tag(v);
    forall rest ensures c.get([t] + b + rest) == Some((c.norm(at, v), rest)) {
      assert ([t] + b + rest)[1..] == b + rest;
    }
    assert form(t).ok(f.norm(at + 1, v));
  }

  lemma ChoiceReads<T(!new)>(tag: T -> int, form: int -> Codec<T>, s: seq<byte>)
    requires s != [] && Lawful(form(s[0])) && Choice(tag, form).get(s).Some?
    requires forall n: byte, w :: form(n).ok(w) ==> tag(w) == n
    ensures ReadsPrefix(Choice(tag, form), s)
    ensures Exact(form(s[0])) ==> forall at: nat :: ExactAt(Choice(tag, form), at, s)
  {
    var c := Choice(tag, form);
    var f := form(s[0]);
    assert ReadsPrefix(f, s[1..]);
    var (v, rest) := f.get(s[1..]).value;
    assert tag(v) == s[0];
    forall more ensures c.get(s + more) == Some((v, rest + more)) {
      assert (s + more)[1..] == s[1..] + more;
    }
    forall at: nat | Exact(f) ensures ExactAt(c, at, s) {
      assert ExactAt(f, at + 1, s[1..]);
      assert [s[0]] + s[1..][..|s| - 1 - |rest|] == s[..|s| - |rest|];
    }
  }

  /** The form without content. */
  function Only<T(==)>(it: T): Codec<T> {
    Codec(v => v == it, Same, (at: nat, v) => if v == it then Raw(at, []) else None, s => Some((it, s)))
  }

  lemma OnlyFaithful<T(!new)>(it: T)
    ensures Lawful(Only(it)) && Exact(Only(it))
  {
    var c := Only(it);
    forall at: nat, v ensures WritesBack(c, at, v) {
      assert forall rest: seq<byte> :: [] + rest == rest;
    }
  }

  // Booleans and optional values

  function BoolCode(b: bool): int { if b then 1 else 0 }
  function BoolOf(n: int): Option<bool> { if n == 0 then Some(false) else if n == 1 then Some(true) else None }
  function Boolean(): Codec<bool> { Coded(BoolCode, BoolOf) }

  lemma BooleanFaithful()
    ensures Faithful(Boolean())
  {
    CodedLaw(BoolCode, BoolOf);
  }

  function OptionTag<T>(v: Option<T>): int { if v.None? then 0 else 1 }
  function MakeSome<T>(x: T): Option<T> { Some(x) }
  function OptionForm<T(==)>(c: Codec<T>, n: int): Codec<Option<T>> {
    if n == 0 then Only(None) else if n == 1 then Form(c, MakeSome, (v: Option<T>) => v) else Refused()
  }

  /** A boolean, then the value when there is one. */
  function Optional<T(==)>(c: Codec<T>): Codec<Option<T>> {
    Choice(OptionTag, n => OptionForm(c, n))
  }

  lemma RefusedHolds<T(!new)>(tag: T -> int, n: int)
    ensures Holds(Refused<T>(), tag, n)
  {
  }

  lemma RefusedFaithful<T(!new)>()
    ensures Lawful(Refused<T>()) && Exact(Refused<T>())
  {
  }

  lemma OptionalPut<T(!new)>(c: Codec<T>, at: nat, v: Option<T>)
    requires at < LIMIT
    ensures Optional(c).put(at, v) ==
      match v case None => Some([0]) case Some(x) => Prepend([1], c.put(at + 1, x))
  {
    hide Choice, Form;
    var form := n => OptionForm(c, n);
    ChoicePuts(OptionTag, form, at, v);
    if v.None? {
      assert Only<Option<T>>(None).put(at + 1, v) == Some([]);
      assert [0] + [] == [0];
    } else {
      FormPut(c, MakeSome, (w: Option<T>) => w, at + 1, v);
    }
  }

  lemma OptionalLaw<T(!new)>(c: Codec<T>)
    requires Lawful(c)
    ensures Lawful(Optional(c))
    ensures Exact(c) ==> Exact(Optional(c))
  {
    hide Lawful, Exact;
    forall n: byte ensures Lawful(OptionForm(c, n)) && (Exact(c) ==> Exact(OptionForm(c, n))) {
      OnlyFaithful<Option<T>>(None);
      RefusedFaithful<Option<T>>();
      FormLaw(c, MakeSome, (v: Option<T>) => v);
      if Exact(c) {
        FormExact(c, MakeSome, (v: Option<T>) => v);
      }
    }
    ChoiceLaw(OptionTag, n => OptionForm(c, n));
  }

  lemma OptionalFaithful<T(!new)>(c: Codec<T>)
    requires Faithful(c)
    ensures Faithful(Optional(c))
  {
    OptionalLaw(c);
  }

  // What a value becomes when it is sent

  ghost predicate Becomes<T(!new)>(c: Codec<T>, became: (T, T) -> bool) {
    forall at: nat, v :: c.put(at, v).Some? ==> became(v, c.norm(at, v))
  }

  predicate Equal<T(==)>(v: T, w: T) { v == w }

  lemma BecomesAt<T(!new)>(c: Codec<T>, became: (T, T) -> bool, at: nat, v: T)
    requires Becomes(c, became) && c.put(at, v).Some?
    ensures became(v, c.norm(at, v))
  {
  }

  lemma FaithfulBecomes<T(!new)>(c: Codec<T>, became: (T, T) -> bool)
    requires Faithful(c) && forall v :: became(v, v)
    ensures Becomes(c, became)
  {
  }

  lemma PairBecomes<A(!new), B(!new)>(
    a: Codec<A>, b: Codec<B>, ra: (A, A) -> bool, rb: (B, B) -> bool, r: ((A, B), (A, B)) -> bool)
    requires Becomes(a, ra) && Becomes(b, rb)
    requires forall v: (A, B), w: (A, B) :: ra(v.0, w.0) && rb(v.1, w.1) ==> r(v, w)
    ensures Becomes(Pair(a, b), r)
  {
    forall at: nat, v | Pair(a, b).put(at, v).Some? ensures r(v, Pair(a, b).norm(at, v)) {
      PairIs(a, b, at, v);
    }
  }

  lemma ViaBecomes<A(!new), T(!new)>(c: Codec<A>, down: T -> A, up: A -> T, ra: (A, A) -> bool, r: (T, T) -> bool)
    requires Becomes(c, ra) && forall v, a :: ra(down(v), a) ==> r(v, up(a))
    ensures Becomes(Via(c, down, up), r)
  {
    forall at: nat, v | Via(c, down, up).put(at, v).Some? ensures r(v, Via(c, down, up).norm(at, v)) {
      BecomesAt(c, ra, at, down(v));
    }
  }

  lemma FormBecomes<A(!new), T(!new)>(
    c: Codec<A>, mk: A -> T, un: T -> Option<A>, ra: (A, A) -> bool, r: (T, T) -> bool)
    requires Becomes(c, ra) && forall v, a :: un(v).Some? && ra(un(v).value, a) ==> r(v, mk(a))
    ensures Becomes(Form(c, mk, un), r)
  {
    forall at: nat, v | Form(c, mk, un).put(at, v).Some? ensures r(v, Form(c, mk, un).norm(at, v)) {
      BecomesAt(c, ra, at, un(v).value);
    }
  }

  lemma CheckedBecomes<T(!new)>(c: Codec<T>, p: T -> bool, r: (T, T) -> bool)
    requires Becomes(c, r)
    ensures Becomes(Checked(c, p), r)
  {
    forall at: nat, v | Checked(c, p).put(at, v).Some? ensures r(v, Checked(c, p).norm(at, v)) {
      BecomesAt(c, r, at, v);
    }
  }

  lemma RefusedBecomes<T(!new)>(r: (T, T) -> bool)
    ensures Becomes(Refused<T>(), r)
  {
  }

  lemma ChoiceBecomes<T(!new)>(tag: T -> int, form: int -> Codec<T>, r: (T, T) -> bool)
    requires forall n: byte :: Becomes(form(n), r)
    ensures Becomes(Choice(tag, form), r)
  {
    var c := Choice(tag, form);
    forall at: nat, v | c.put(at, v).Some? ensures r(v, c.norm(at, v)) {
      var n: byte := tag(v);
      BecomesAt(form(n), r, at + 1, v);
    }
  }

  predicate OptionR<T>(r: (T, T) -> bool, v: Option<T>, w: Option<T>) {
    match (v, w)
    case (None, None) => true
    case (Some(x), Some(y)) => r(x, y)
    case _ => false
  }

  lemma OptionalBecomes<T(!new)>(c: Codec<T>, r: (T, T) -> bool)
    requires Becomes(c, r)
    ensures Becomes(Optional(c), (v, w) => OptionR(r, v, w))
  {
    var s := (v, w) => OptionR(r, v, w);
    forall n: byte ensures Becomes(OptionForm(c, n), s) {
      if n == 1 {
        FormBecomes(c, MakeSome, (v: Option<T>) => v, r, s);
      } else if n == 0 {
        assert Becomes(Only<Option<T>>(None), s);
      }
    }
    ChoiceBecomes(OptionTag, n => OptionForm(c, n), s);
  }
}

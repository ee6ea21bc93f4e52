/**
  Which bytes a record is. A codec writes plain bytes when what it appends, and
  whether it appends anything, is told by functions that mention no codec. A
  codec whose values lose detail on the way spells them: what it appends are the
  plain bytes of the value that arrives.
*/
module Spelling {
  import opened Wrappers
  import opened Bytes
  import opened Wire
  import opened Codec
  import opened ListCodec
  import opened HistoryRecords
  import opened MergeReport
  import Utf8

  /** Written exactly when it is legal and fits, and then as these bytes. */
  ghost predicate WrittenAt<T(!new)>(c: Codec<T>, legal: T -> bool, bytes: T -> seq<byte>, at: nat, v: T) {
    at <= LIMIT && c.ok(v) ==>
      c.put(at, v) == if legal(v) && at + |bytes(v)| <= LIMIT then Some(bytes(v)) else None
  }

  ghost predicate Writes<T(!new)>(c: Codec<T>, legal: T -> bool, bytes: T -> seq<byte>) {
    forall at: nat, v :: WrittenAt(c, legal, bytes, at, v)
  }

  lemma WritesAt<T(!new)>(c: Codec<T>, legal: T -> bool, bytes: T -> seq<byte>, at: nat, v: T)
    requires Writes(c, legal, bytes)
    ensures WrittenAt(c, legal, bytes, at, v)
  {
  }

  /** Written, if at all, as the bytes of the value that arrives. */
  ghost predicate SpelledAt<T(!new)>(c: Codec<T>, bytes: T -> seq<byte>, at: nat, v: T) {
    at <= LIMIT && c.ok(v) && c.put(at, v).Some? ==>
      c.put(at, v).value == bytes(c.norm(at, v)) && at + |c.put(at, v).value| <= LIMIT
  }

  ghost predicate Spells<T(!new)>(c: Codec<T>, bytes: T -> seq<byte>) {
    forall at: nat, v :: SpelledAt(c, bytes, at, v)
  }

  lemma SpellsAt<T(!new)>(c: Codec<T>, bytes: T -> seq<byte>, at: nat, v: T)
    requires Spells(c, bytes)
    ensures SpelledAt(c, bytes, at, v)
  {
  }

  lemma WritesSpells<T(!new)>(c: Codec<T>, legal: T -> bool, bytes: T -> seq<byte>)
    requires Writes(c, legal, bytes) && Faithful(c)
    ensures Spells(c, bytes)
  {
    forall at: nat, v ensures SpelledAt(c, bytes, at, v) {
      WritesAt(c, legal, bytes, at, v);
      Unchanged(c, at, v);
    }
  }

  /** The same said in other words. */
  lemma WritesAlso<T(!new)>(
    c: Codec<T>, p: T -> bool, x: T -> seq<byte>, legal: T -> bool, bytes: T -> seq<byte>)
    requires Writes(c, p, x) && forall v :: c.ok(v) ==> legal(v) == p(v) && bytes(v) == x(v)
    ensures Writes(c, legal, bytes)
  {
    forall at: nat, v ensures WrittenAt(c, legal, bytes, at, v) {
      WritesAt(c, p, x, at, v);
    }
  }

  lemma FormOk<A(!new), T(!new)>(c: Codec<A>, mk: A -> T, un: T -> Option<A>, v: T)
    ensures Form(c, mk, un).ok(v) <==> un(v).Some? && c.ok(un(v).value)
  {
  }

  lemma ChoiceOk<T(!new)>(tag: T -> int, form: int -> Codec<T>, v: T)
    ensures Choice(tag, form).ok(v) <==> form(tag(v)).ok(v)
  {
  }

  // Plain bytes

  function Always<T>(): T -> bool { (v: T) => true }
  function Plain(): seq<byte> -> seq<byte> { (s: seq<byte>) => s }
  function ShortRun(s: seq<byte>): seq<byte> { Two(|s|) + s }
  function LongRun(s: seq<byte>): seq<byte> { Four(|s|) + s }
  function Signed(n: int): seq<byte> { Eight(if n < 0 then n + 0x1_0000_0000_0000_0000 else n) }
  function Flag(b: bool): seq<byte> { [if b then 1 else 0] }
  function Both<A, B>(x: A -> seq<byte>, y: B -> seq<byte>): ((A, B)) -> seq<byte> { (v: (A, B)) => x(v.0) + y(v.1) }
  predicate AtMost(n: nat, s: seq<byte>) { |s| <= n }
  function Upto(n: nat): seq<byte> -> bool { s => AtMost(n, s) }
  function And<A, B>(p: A -> bool, q: B -> bool): ((A, B)) -> bool { (v: (A, B)) => p(v.0) && q(v.1) }
  function If<T>(p: T -> bool, q: T -> bool): T -> bool { (v: T) => p(v) && q(v) }
  function Maybe<T>(x: T -> seq<byte>): Option<T> -> seq<byte> {
    (v: Option<T>) => match v case None => [0] case Some(a) => [1] + x(a)
  }
  function Any<T>(p: T -> bool): Option<T> -> bool {
    (v: Option<T>) => match v case None => true case Some(a) => p(a)
  }
  function Concat<T>(x: T -> seq<byte>, vs: seq<T>): seq<byte> {
    if vs == [] then [] else x(vs[0]) + Concat(x, vs[1..])
  }
  function Counted<T>(x: T -> seq<byte>): seq<T> -> seq<byte> { (vs: seq<T>) => Two(|vs|) + Concat(x, vs) }
  function Marked<T>(x: T -> seq<byte>): ((T, bool)) -> seq<byte> { (v: (T, bool)) => x(v.0) + Flag(v.1) }

  // Fields

  lemma FixedWrites(n: nat, valid: seq<byte> -> bool)
    ensures Writes(Fixed(n, valid), Always(), Plain())
  {
  }

  lemma RunWrites(maximum: nat, valid: seq<byte> -> bool)
    ensures maximum < 0x1_0000 ==> Writes(Run(2, maximum, valid), Upto(maximum), ShortRun)
    ensures maximum < 0x1_0000_0000 ==> Writes(Run(4, maximum, valid), Upto(maximum), LongRun)
  {
    hide BigEndian, Pow256;
    Widths();
    forall at: nat, v | maximum < 0x1_0000 ensures WrittenAt(Run(2, maximum, valid), Upto(maximum), ShortRun, at, v) {
      TwoIs(|v|);
    }
    forall at: nat, v | maximum < 0x1_0000_0000
      ensures WrittenAt(Run(4, maximum, valid), Upto(maximum), LongRun, at, v) {
      FourIs(|v|);
    }
  }

  lemma NumbersWrite()
    ensures Writes(U16(), Always(), Two) && Writes(U32(), Always(), Four) && Writes(U64(), Always(), Eight)
    ensures Writes(I64(), Always(), Signed)
  {
    hide BigEndian, Pow256;
    forall at: nat, v ensures WrittenAt(U16(), Always(), Two, at, v) {
      if v >= 0 {
        TwoIs(v);
      }
    }
    forall at: nat, v ensures WrittenAt(U32(), Always(), Four, at, v) {
      if v >= 0 {
        FourIs(v);
      }
    }
    forall at: nat, v ensures WrittenAt(U64(), Always(), Eight, at, v) {
      if v >= 0 {
        EightIs(v);
      }
    }
    forall at: nat, v ensures WrittenAt(I64(), Always(), Signed, at, v) {
      SignedIsWritten(at, v);
    }
  }

  lemma SignedIsWritten(at: nat, v: int)
    ensures WrittenAt(I64(), Always(), Signed, at, v)
  {
    hide BigEndian, Eight, Pow256;
    Widths();
    var n := Twist(v);
    if 0 <= n < 0x1_0000_0000_0000_0000 {
      EightIs(n);
      TwistIs(v);
    }
  }

  lemma TwistIs(v: int)
    requires 0 <= Twist(v) < 0x1_0000_0000_0000_0000
    ensures Signed(v) == Eight(Twist(v))
  {
  }

  lemma CodedWrites<T(!new)>(code: T -> int, of: int -> Option<T>, bytes: T -> seq<byte>)
    requires forall v :: 0 <= code(v) < 256 && bytes(v) == [code(v)]
    ensures Writes(Coded(code, of), Always(), bytes)
  {
    forall at: nat, v ensures WrittenAt(Coded(code, of), Always(), bytes, at, v) {
      CodedIs(code, of, at, v);
    }
  }

  lemma BooleanWrites()
    ensures Writes(Boolean(), Always(), Flag)
  {
    CodedWrites(BoolCode, BoolOf, Flag);
  }

  /** What is always legal. */
  lemma AlwaysWrites<T(!new)>(c: Codec<T>, p: T -> bool, x: T -> seq<byte>, bytes: T -> seq<byte>)
    requires Writes(c, p, x) && forall v :: c.ok(v) ==> p(v) && bytes(v) == x(v)
    ensures Writes(c, Always(), bytes)
  {
    forall at: nat, v ensures WrittenAt(c, Always(), bytes, at, v) {
      WritesAt(c, p, x, at, v);
    }
  }

  lemma OnlyWrites<T(!new)>(it: T, legal: T -> bool, bytes: T -> seq<byte>)
    requires legal(it) && bytes(it) == []
    ensures Writes(Only(it), legal, bytes)
  {
  }

  lemma RefusedWrites<T(!new)>(legal: T -> bool, bytes: T -> seq<byte>)
    ensures Writes(Refused<T>(), legal, bytes)
  {
  }

  // Combinators

  lemma PairWritesAs<A(!new), B(!new)>(
    a: Codec<A>, p: A -> bool, x: A -> seq<byte>, b: Codec<B>, q: B -> bool, y: B -> seq<byte>)
    requires Writes(a, p, x) && Writes(b, q, y)
    ensures Writes(Pair(a, b), And(p, q), Both(x, y))
  {
    forall at: nat, v ensures WrittenAt(Pair(a, b), And(p, q), Both(x, y), at, v) {
      hide Writes;
      WritesAt(a, p, x, at, v.0);
      WritesAt(b, q, y, at + |x(v.0)|, v.1);
    }
  }

  lemma ViaWrites<A(!new), T(!new)>(
    c: Codec<A>, p: A -> bool, x: A -> seq<byte>, down: T -> A, up: A -> T, legal: T -> bool, bytes: T -> seq<byte>)
    requires Writes(c, p, x) && forall v :: bytes(v) == x(down(v)) && legal(v) == p(down(v))
    ensures Writes(Via(c, down, up), legal, bytes)
  {
    forall at: nat, v ensures WrittenAt(Via(c, down, up), legal, bytes, at, v) {
      WritesAt(c, p, x, at, down(v));
    }
  }

  lemma FormWrites<A(!new), T(!new)>(
    c: Codec<A>, p: A -> bool, x: A -> seq<byte>, mk: A -> T, un: T -> Option<A>, legal: T -> bool,
    bytes: T -> seq<byte>)
    requires Writes(c, p, x)
    requires forall v :: un(v).Some? ==> bytes(v) == x(un(v).value) && legal(v) == p(un(v).value)
    ensures Writes(Form(c, mk, un), legal, bytes)
  {
    forall at: nat, v ensures WrittenAt(Form(c, mk, un), legal, bytes, at, v) {
      if un(v).Some? {
        WritesAt(c, p, x, at, un(v).value);
      }
    }
  }

  lemma CheckedWrites<T(!new)>(c: Codec<T>, p: T -> bool, x: T -> seq<byte>, q: T -> bool, legal: T -> bool)
    requires Writes(c, p, x) && forall v :: c.ok(v) ==> legal(v) == (p(v) && q(v))
    ensures Writes(Checked(c, q), legal, x)
  {
    forall at: nat, v ensures WrittenAt(Checked(c, q), legal, x, at, v) {
      WritesAt(c, p, x, at, v);
    }
  }

  lemma ChoiceWritesAs<T(!new)>(
    tag: T -> int, form: int -> Codec<T>, legal: T -> bool, body: T -> seq<byte>, bytes: T -> seq<byte>)
    requires forall n: byte :: Writes(form(n), legal, body)
    requires forall v :: 0 <= tag(v) < 256 && bytes(v) == [tag(v)] + body(v)
    ensures Writes(Choice(tag, form), legal, bytes)
  {
    forall at: nat, v ensures WrittenAt(Choice(tag, form), legal, bytes, at, v) {
      hide Writes;
      var n: byte := tag(v);
      WritesAt(form(n), legal, body, at + 1, v);
    }
  }

  lemma OptionalWrites<T(!new)>(c: Codec<T>, p: T -> bool, x: T -> seq<byte>)
    requires Writes(c, p, x)
    ensures Writes(Optional(c), Any(p), Maybe(x))
  {
    forall at: nat, v ensures WrittenAt(Optional(c), Any(p), Maybe(x), at, v) {
      hide Writes, Optional;
      OptionalNorm(c, at, v);
      if at < LIMIT {
        OptionalPut(c, at, v);
        if v.Some? {
          WritesAt(c, p, x, at + 1, v.value);
        }
      }
    }
  }

  predicate AllLegal<T>(p: T -> bool, vs: seq<T>) { vs == [] || (p(vs[0]) && AllLegal(p, vs[1..])) }
  function Each<T>(p: T -> bool): seq<T> -> bool { (vs: seq<T>) => AllLegal(p, vs) }

  lemma {:induction false} EachWrites<T(!new)>(item: Codec<T>, p: T -> bool, x: T -> seq<byte>, at: nat, vs: seq<T>)
    requires Writes(item, p, x) && at <= LIMIT && AllOk(item, vs)
    ensures PutEach(item, at, vs) ==
      if AllLegal(p, vs) && at + |Concat(x, vs)| <= LIMIT then Some(Concat(x, vs)) else None
    decreases |vs|
  {
    hide Writes;
    if vs != [] {
      WritesAt(item, p, x, at, vs[0]);
      if p(vs[0]) && at + |x(vs[0])| <= LIMIT {
        EachWrites(item, p, x, at + |x(vs[0])|, vs[1..]);
      }
    }
  }

  /** A list written whole: a count of two bytes and the items. */
  lemma ListWrites<T(!new)>(item: Codec<T>, p: T -> bool, x: T -> seq<byte>)
    requires Writes(item, p, x)
    ensures Writes(Listed(item, KeepAll), Each(p), Counted(x))
  {
    forall at: nat, vs ensures WrittenAt(Listed(item, KeepAll), Each(p), Counted(x), at, vs) {
      ListIsWritten(item, p, x, at, vs);
    }
  }

  lemma ListIsWritten<T(!new)>(item: Codec<T>, p: T -> bool, x: T -> seq<byte>, at: nat, vs: seq<T>)
    requires Writes(item, p, x)
    ensures WrittenAt(Listed(item, KeepAll), Each(p), Counted(x), at, vs)
  {
    hide BigEndian, Writes, PutEach, Concat, AllLegal;
    var c := Listed(item, KeepAll);
    assert |Counted(x)(vs)| == 2 + |Concat(x, vs)|;
    if at + 2 <= LIMIT && c.ok(vs) {
      assert First(vs, |vs|) == vs;
      EachWrites(item, p, x, at + 2, vs);
      TwoIs(|vs|);
      assert c.put(at, vs) == Prepend(Two(|vs|), PutEach(item, at + 2, vs));
    }
  }

  // Where detail is lost

  /** Codecs that write exactly these bytes spell them when the value that arrives has the same bytes. */
  lemma SentSpells<T(!new)>(c: Codec<T>, legal: T -> bool, bytes: T -> seq<byte>, sent: (T, T) -> bool)
    requires Writes(c, legal, bytes) && Becomes(c, sent) && forall v, w :: sent(v, w) ==> bytes(w) == bytes(v)
    ensures Spells(c, bytes)
  {
    forall at: nat, v ensures SpelledAt(c, bytes, at, v) {
      hide Writes, Becomes;
      WritesAt(c, legal, bytes, at, v);
      if c.put(at, v).Some? {
        BecomesAt(c, sent, at, v);
      }
    }
  }

  lemma PairSpells<A(!new), B(!new)>(a: Codec<A>, x: A -> seq<byte>, b: Codec<B>, y: B -> seq<byte>)
    requires Spells(a, x) && Spells(b, y)
    ensures Spells(Pair(a, b), Both(x, y))
  {
    forall at: nat, v ensures SpelledAt(Pair(a, b), Both(x, y), at, v) {
      hide Spells;
      if at <= LIMIT && Pair(a, b).ok(v) && Pair(a, b).put(at, v).Some? {
        PairIs(a, b, at, v);
        SpellsAt(a, x, at, v.0);
        SpellsAt(b, y, at + |a.put(at, v.0).value|, v.1);
      }
    }
  }

  lemma ViaSpells<A(!new), T(!new)>(
    c: Codec<A>, x: A -> seq<byte>, down: T -> A, up: A -> T, bytes: T -> seq<byte>)
    requires Spells(c, x) && forall a :: bytes(up(a)) == x(a)
    ensures Spells(Via(c, down, up), bytes)
  {
    forall at: nat, v ensures SpelledAt(Via(c, down, up), bytes, at, v) {
      SpellsAt(c, x, at, down(v));
    }
  }

  lemma FormSpells<A(!new), T(!new)>(
    c: Codec<A>, x: A -> seq<byte>, mk: A -> T, un: T -> Option<A>, bytes: T -> seq<byte>)
    requires Spells(c, x) && forall a :: bytes(mk(a)) == x(a)
    ensures Spells(Form(c, mk, un), bytes)
  {
    forall at: nat, v ensures SpelledAt(Form(c, mk, un), bytes, at, v) {
      if un(v).Some? {
        SpellsAt(c, x, at, un(v).value);
      }
    }
  }

  lemma CheckedSpells<T(!new)>(c: Codec<T>, p: T -> bool, x: T -> seq<byte>)
    requires Spells(c, x)
    ensures Spells(Checked(c, p), x)
  {
    forall at: nat, v ensures SpelledAt(Checked(c, p), x, at, v) {
      SpellsAt(c, x, at, v);
    }
  }

  lemma RefusedSpells<T(!new)>(bytes: T -> seq<byte>)
    ensures Spells(Refused<T>(), bytes)
  {
  }

  lemma ChoiceSpells<T(!new)>(tag: T -> int, form: int -> Codec<T>, body: T -> seq<byte>, bytes: T -> seq<byte>)
    requires forall n: byte :: Lawful(form(n)) && Spells(form(n), body)
    requires forall n: byte, v :: form(n).ok(v) ==> tag(v) == n
    requires forall v :: 0 <= tag(v) < 256 && bytes(v) == [tag(v)] + body(v)
    ensures Spells(Choice(tag, form), bytes)
  {
    forall at: nat, v ensures SpelledAt(Choice(tag, form), bytes, at, v) {
      hide Lawful, Spells;
      var n: byte := tag(v);
      assert Lawful(form(n)) && Spells(form(n), body);
      ChoiceIsSpelled(tag, form, body, bytes, at, v);
    }
  }

  lemma ChoiceIsSpelled<T(!new)>(
    tag: T -> int, form: int -> Codec<T>, body: T -> seq<byte>, bytes: T -> seq<byte>, at: nat, v: T)
    requires 0 <= tag(v) < 256 && Lawful(form(tag(v))) && Spells(form(tag(v)), body)
    requires forall w :: form(tag(v)).ok(w) ==> tag(w) == tag(v)
    requires forall w :: 0 <= tag(w) < 256 && bytes(w) == [tag(w)] + body(w)
    ensures SpelledAt(Choice(tag, form), bytes, at, v)
  {
    hide Lawful, Spells;
    var f := form(tag(v));
    if at < LIMIT && f.ok(v) && f.put(at + 1, v).Some? {
      SpellsAt(f, body, at + 1, v);
      Law(f, at + 1, v);
    }
  }

  lemma OptionalNorm<T(!new)>(c: Codec<T>, at: nat, v: Option<T>)
    ensures Optional(c).norm(at, v) == match v case None => None case Some(x) => Some(c.norm(at + 1, x))
    ensures Optional(c).ok(v) <==> match v case None => true case Some(x) => c.ok(x)
    ensures Optional(c).put(at, v).Some? ==> at < LIMIT
  {
    var form := OptionForm(c, OptionTag(v));
    assert Optional(c).norm(at, v) == form.norm(at + 1, v) && Optional(c).ok(v) == form.ok(v);
    if v.None? {
      assert form == Only(None);
    } else {
      assert form == Form(c, MakeSome, (w: Option<T>) => w);
      FormIs(c, MakeSome, (w: Option<T>) => w, at + 1, v);
    }
  }

  lemma FormIs<A(!new), T(!new)>(c: Codec<A>, mk: A -> T, un: T -> Option<A>, at: nat, v: T)
    requires un(v).Some?
    ensures Form(c, mk, un).norm(at, v) == mk(c.norm(at, un(v).value))
    ensures Form(c, mk, un).ok(v) <==> c.ok(un(v).value)
  {
  }

  lemma {:induction false} EachSpells<T(!new)>(item: Codec<T>, x: T -> seq<byte>, at: nat, vs: seq<T>)
    requires Spells(item, x) && at <= LIMIT && AllOk(item, vs) && PutEach(item, at, vs).Some?
    ensures PutEach(item, at, vs).value == Concat(x, NormEach(item, at, vs))
    ensures at + |PutEach(item, at, vs).value| <= LIMIT
    decreases |vs|
  {
    hide Spells;
    if vs != [] {
      SpellsAt(item, x, at, vs[0]);
      var a := item.put(at, vs[0]).value;
      EachSpells(item, x, at + |a|, vs[1..]);
      assert NormEach(item, at, vs)[1..] == NormEach(item, at + |a|, vs[1..]);
    }
  }

  lemma ListedIsSpelled<T(!new)>(item: Codec<T>, keep: (nat, seq<T>) -> nat, x: T -> seq<byte>, at: nat, vs: seq<T>)
    requires Spells(item, x) && keep(at, vs) <= |vs|
    ensures SpelledAt(Listed(item, keep), Counted(x), at, vs)
  {
    hide BigEndian, Spells, PutEach, NormEach, Concat, Two;
    var c := Listed(item, keep);
    if at <= LIMIT && c.ok(vs) && c.put(at, vs).Some? {
      var k := keep(at, vs);
      var kept := First(vs, k);
      assert AllOk(item, kept);
      EachSpells(item, x, at + 2, kept);
      TwoIs(k);
      assert c.norm(at, vs) == NormEach(item, at + 2, kept);
      assert c.put(at, vs).value == Two(k) + PutEach(item, at + 2, kept).value;
    }
  }

  lemma ListedSpells<T(!new)>(item: Codec<T>, keep: (nat, seq<T>) -> nat, x: T -> seq<byte>)
    requires Spells(item, x) && forall at: nat, vs :: keep(at, vs) <= |vs|
    ensures Spells(Listed(item, keep), Counted(x))
  {
    forall at: nat, vs ensures SpelledAt(Listed(item, keep), Counted(x), at, vs) {
      ListedIsSpelled(item, keep, x, at, vs);
    }
  }

  lemma FlaggedSpells<T(!new)>(c: Codec<T>, lost: (nat, T) -> bool, x: T -> seq<byte>)
    requires Spells(c, x)
    ensures Spells(Flagged(c, lost), Marked(x))
  {
    forall at: nat, v ensures SpelledAt(Flagged(c, lost), Marked(x), at, v) {
      hide Spells;
      SpellsAt(c, x, at, v.0);
    }
  }

  // Texts and line numbers of a merge report

  lemma ClippedSpells()
    ensures Spells(Clipped(), ShortRun)
  {
    hide BigEndian, Clip, Utf8.Valid;
    forall at: nat, v ensures SpelledAt(Clipped(), ShortRun, at, v) {
      TwoIs(|Clip(v)|);
    }
  }

  function LineBytes(n: nat): seq<byte> { Four(n) }

  lemma LineNumberSpells()
    ensures Spells(LineNumber(), LineBytes)
  {
    hide BigEndian, FromBigEndian;
    forall at: nat, n ensures SpelledAt(LineNumber(), LineBytes, at, n) {
      BigEndianWrites(BigEndian(n, 4));
      FourIs(FromBigEndian(BigEndian(n, 4)));
    }
  }
}

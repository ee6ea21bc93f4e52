/**
  The RFC 3339 text of a modification time: seconds since 1970 with
  nanoseconds. For the years 0000 to 9999 and nanoseconds below 10^9 it reads
  back to the same instant and sorts as text the way instants sort. Every other
  instant has no date-time text and is missorted against some instant.
*/
module UtcText {
  import opened Wrappers
  import opened Calendar
  import opened Decimal

  /** A time of the source: i64 seconds and u32 nanoseconds; wider values are allowed here. */
  datatype Instant = Instant(seconds: int, nanos: nat)

  /** `{year:04}`: the sign of a negative year counts to the width. */
  function YearText(y: int): string {
    if y >= 0 then Pad(y, 4) else "-" + Pad(-y, 3)
  }

  function Utc(t: Instant): string {
    var days, second := t.seconds / 86_400, t.seconds % 86_400;
    var d := Civil(days);
    CivilIsTheDate(days);
    YearText(d.year) + "-" + Pad(d.month, 2) + "-" + Pad(d.day, 2) + "T"
    + Pad(second / 3600, 2) + ":" + Pad(second / 60 % 60, 2) + ":" + Pad(second % 60, 2) + "."
    + Pad(t.nanos, 9) + "Z"
  }

  /** From 0000-01-01T00:00:00 up to 10000-01-01T00:00:00, with nanoseconds below a second. */
  predicate InRange(t: Instant) {
    -62_167_219_200 <= t.seconds < 253_402_300_800 && t.nanos < 1_000_000_000
  }

  /** The computed year has four digits. */
  predicate YearFits(t: Instant) { 0 <= Civil(t.seconds / 86_400).year <= 9999 }

  predicate DateFits(t: Instant) { YearFits(t) && t.nanos < 1_000_000_000 }

  /** The years 0000 to 9999 are those seconds. */
  lemma YearsAreSeconds(t: Instant)
    ensures YearFits(t) <==> -62_167_219_200 <= t.seconds < 253_402_300_800
  {
    hide Civil, DayNumber;
    var days := t.seconds / 86_400;
    var c, first, last := Civil(days), Date(0, 1, 1), Date(10_000, 1, 1);
    CivilIsTheDate(days);
    Ends();
    if days < -719_528 {
      NotBefore(first, c);
    } else if days > -719_528 {
      NotBefore(c, first);
    }
    if days < 2_932_897 {
      NotBefore(last, c);
    } else if days > 2_932_897 {
      NotBefore(c, last);
    }
    CivilIsUnique(first);
    CivilIsUnique(last);
  }

  lemma Ends()
    ensures DayNumber(Date(0, 1, 1)) == -719_528 && DayNumber(Date(10_000, 1, 1)) == 2_932_897
  {
  }

  lemma NotBefore(a: Date, b: Date)
    requires Valid(a) && Valid(b) && DayNumber(b) < DayNumber(a)
    ensures !Before(a, b)
  {
    hide DayNumber;
    if Before(a, b) {
      DatesAscend(a, b);
    }
  }

  // A text of numbers of fixed width, each followed by its separator.

  datatype Field = Field(value: nat, width: nat, after: char)

  predicate Fits(fs: seq<Field>) { forall i :: 0 <= i < |fs| ==> fs[i].value < Pow10(fs[i].width) }

  function FieldText(f: Field): string { Fixed(f.value, f.width) + [f.after] }

  function Text(fs: seq<Field>): string {
    if fs == [] then [] else FieldText(fs[0]) + Text(fs[1..])
  }

  function Values(fs: seq<Field>): seq<nat> { seq(|fs|, i requires 0 <= i < |fs| => fs[i].value) }

  predicate SameShape(fs: seq<Field>, gs: seq<Field>) {
    |fs| == |gs| && forall i :: 0 <= i < |fs| ==> fs[i].width == gs[i].width && fs[i].after == gs[i].after
  }

  /** Reads numbers of the widths and separators of `shape`, and nothing else. */
  function Read(text: string, shape: seq<Field>): (r: Option<seq<nat>>)
    ensures r.Some? ==> |r.value| == |shape|
  {
    if shape == [] then (if text == [] then Some([]) else None)
    else
      var w := shape[0].width;
      if |text| <= w || !AllDigits(text[..w]) || text[w] != shape[0].after then None
      else
        match Read(text[w + 1..], shape[1..])
        case None => None
        case Some(rest) => Some([Value(text[..w])] + rest)
  }

  lemma ReadFirst(f: Field, rest: string, shape: seq<Field>)
    requires shape != [] && f.width == shape[0].width && f.after == shape[0].after && f.value < Pow10(f.width)
    ensures Read(FieldText(f) + rest, shape) ==
      match Read(rest, shape[1..]) case None => None case Some(v) => Some([f.value] + v)
  {
    hide Fixed, AllDigits, Value, Pow10;
    var text := FieldText(f) + rest;
    ValueOfFixed(f.value, f.width);
    assert text[..f.width] == Fixed(f.value, f.width);
    assert text[f.width + 1..] == rest;
  }

  lemma {:induction false} ReadText(fs: seq<Field>, shape: seq<Field>)
    requires Fits(fs) && SameShape(fs, shape)
    ensures Read(Text(fs), shape) == Some(Values(fs))
  {
    hide FieldText, Pow10;
    if fs == [] {
      assert Values(fs) == [];
    } else {
      ReadText(fs[1..], shape[1..]);
      ReadFirst(fs[0], Text(fs[1..]), shape);
      assert Values(fs) == [fs[0].value] + Values(fs[1..]);
    }
  }

  predicate TupleLess(a: seq<nat>, b: seq<nat>)
    requires |a| == |b|
  {
    a != [] && (a[0] < b[0] || (a[0] == b[0] && TupleLess(a[1..], b[1..])))
  }

  lemma FieldOrder(f: Field, g: Field, x: string, y: string)
    requires f.width == g.width && f.after == g.after && f.value < Pow10(f.width) && g.value < Pow10(g.width)
    ensures LexLess(FieldText(f) + x, FieldText(g) + y) <==> f.value < g.value || (f.value == g.value && LexLess(x, y))
  {
    hide Fixed, Pow10;
    FixedOrder(f.value, g.value, f.width);
    LexAppend([f.after], [g.after], x, y);
    LexAppend(Fixed(f.value, f.width), Fixed(g.value, g.width), [f.after] + x, [g.after] + y);
    assert FieldText(f) + x == Fixed(f.value, f.width) + ([f.after] + x);
    assert FieldText(g) + y == Fixed(g.value, g.width) + ([g.after] + y);
  }

  lemma {:induction false} TextOrder(fs: seq<Field>, gs: seq<Field>)
    requires Fits(fs) && Fits(gs) && SameShape(fs, gs)
    ensures LexLess(Text(fs), Text(gs)) <==> TupleLess(Values(fs), Values(gs))
  {
    hide FieldText, Pow10;
    if fs != [] {
      TextOrder(fs[1..], gs[1..]);
      FieldOrder(fs[0], gs[0], Text(fs[1..]), Text(gs[1..]));
      assert Values(fs)[1..] == Values(fs[1..]) && Values(gs)[1..] == Values(gs[1..]);
    }
  }

  // The seven numbers of an instant

  const SHAPE := [Field(0, 4, '-'), Field(0, 2, '-'), Field(0, 2, 'T'), Field(0, 2, ':'), Field(0, 2, ':'),
    Field(0, 2, '.'), Field(0, 9, 'Z')]

  function Parts(t: Instant): seq<nat>
    requires DateFits(t)
  {
    var d := Civil(t.seconds / 86_400);
    var s := t.seconds % 86_400;
    CivilIsTheDate(t.seconds / 86_400);
    [d.year, d.month, d.day, s / 3600, s / 60 % 60, s % 60, t.nanos]
  }

  function Fields(v: seq<nat>): seq<Field>
    requires |v| == 7
  {
    [Field(v[0], 4, '-'), Field(v[1], 2, '-'), Field(v[2], 2, 'T'), Field(v[3], 2, ':'), Field(v[4], 2, ':'),
      Field(v[5], 2, '.'), Field(v[6], 9, 'Z')]
  }

  lemma Powers()
    ensures Pow10(2) == 100 && Pow10(4) == 10_000 && Pow10(9) == 1_000_000_000
  {
    assert Pow10(5) == 100_000;
    assert Pow10(7) == 10_000_000;
  }

  lemma {:induction false} TextSnoc(fs: seq<Field>, f: Field)
    ensures Text(fs + [f]) == Text(fs) + FieldText(f)
  {
    hide Fixed;
    if fs == [] {
      assert (fs + [f])[1..] == [];
      assert FieldText(f) + [] == FieldText(f);
    } else {
      TextSnoc(fs[1..], f);
      assert (fs + [f])[1..] == fs[1..] + [f];
      assert FieldText(fs[0]) + (Text(fs[1..]) + FieldText(f)) == FieldText(fs[0]) + Text(fs[1..]) + FieldText(f);
    }
  }

  lemma SevenTexts(fs: seq<Field>)
    requires |fs| == 7
    ensures Text(fs) == FieldText(fs[0]) + FieldText(fs[1]) + FieldText(fs[2]) + FieldText(fs[3])
      + FieldText(fs[4]) + FieldText(fs[5]) + FieldText(fs[6])
  {
    hide FieldText;
    assert Text(fs[..1]) == FieldText(fs[0]) by {
      TextSnoc([], fs[0]);
      assert [] + [fs[0]] == fs[..1];
    }
    for n := 1 to 7
      invariant forall k :: 1 <= k < n ==> Text(fs[..k + 1]) == Text(fs[..k]) + FieldText(fs[k])
    {
      TextSnoc(fs[..n], fs[n]);
      assert fs[..n + 1] == fs[..n] + [fs[n]];
    }
    assert fs[..7] == fs;
  }

  lemma PartsFit(t: Instant)
    requires DateFits(t)
    ensures Fits(Fields(Parts(t))) && Values(Fields(Parts(t))) == Parts(t) && SameShape(Fields(Parts(t)), SHAPE)
  {
    Powers();
    CivilIsTheDate(t.seconds / 86_400);
  }

  lemma UtcIsFields(t: Instant)
    requires DateFits(t)
    ensures Utc(t) == Text(Fields(Parts(t)))
  {
    hide Civil, Pow10, Pad, Fixed, Text;
    var v := Parts(t);
    Powers();
    CivilIsTheDate(t.seconds / 86_400);
    PadIsFixed(v[0], 4);
    PadIsFixed(v[1], 2);
    PadIsFixed(v[2], 2);
    PadIsFixed(v[3], 2);
    PadIsFixed(v[4], 2);
    PadIsFixed(v[5], 2);
    PadIsFixed(v[6], 9);
    SevenTexts(Fields(v));
  }

  /** Reads a date-time: the fixed layout, a calendar date and a time of day. */
  function ReadUtc(text: string): Option<Instant> {
    match Read(text, SHAPE)
    case None => None
    case Some(v) =>
      var d := Date(v[0], v[1], v[2]);
      if !Valid(d) || v[3] >= 24 || v[4] >= 60 || v[5] >= 60 then None
      else Some(Instant(DayNumber(d) * 86_400 + v[3] * 3600 + v[4] * 60 + v[5], v[6]))
  }

  lemma DateReadsBack(t: Instant)
    requires DateFits(t)
    ensures ReadUtc(Utc(t)) == Some(t)
  {
    hide Civil, DayNumber, Valid, Read, Text, Utc, Fields, Fits, Values;
    UtcIsFields(t);
    PartsFit(t);
    ReadText(Fields(Parts(t)), SHAPE);
    CivilIsTheDate(t.seconds / 86_400);
    var s := t.seconds % 86_400;
    assert s == s / 3600 * 3600 + s / 60 % 60 * 60 + s % 60;
  }

  lemma {:induction false} ReadFront(fs: seq<Field>, rest: string, shape: seq<Field>)
    requires Fits(fs) && |fs| <= |shape| && SameShape(fs, shape[..|fs|]) && Read(rest, shape[|fs|..]).None?
    ensures Read(Text(fs) + rest, shape).None?
  {
    hide FieldText, Pow10;
    if fs == [] {
      assert Text(fs) + rest == rest && shape[|fs|..] == shape;
    } else {
      assert shape[1..][..|fs| - 1] == shape[..|fs|][1..] && shape[1..][|fs| - 1..] == shape[|fs|..];
      ReadFront(fs[1..], rest, shape[1..]);
      ReadFirst(fs[0], Text(fs[1..]) + rest, shape);
      assert Text(fs) + rest == FieldText(fs[0]) + (Text(fs[1..]) + rest);
    }
  }

  /** A number too wide for its field leaves a digit where the separator should be. */
  lemma TooWide(n: nat, rest: string, shape: seq<Field>)
    requires shape != [] && n >= Pow10(shape[0].width) && !IsDigit(shape[0].after)
    ensures Read(Digits(n) + rest, shape).None?
  {
    DigitsOverflow(n, shape[0].width);
    ValueOfDigits(n);
  }

  lemma YearOutside(t: Instant)
    requires !(0 <= Civil(t.seconds / 86_400).year <= 9999)
    ensures Read(Utc(t), SHAPE).None?
  {
    hide Civil, Text, Pow10;
    var d := Civil(t.seconds / 86_400);
    CivilIsTheDate(t.seconds / 86_400);
    var s := t.seconds % 86_400;
    var rest := "-" + Pad(d.month, 2) + "-" + Pad(d.day, 2) + "T"
      + Pad(s / 3600, 2) + ":" + Pad(s / 60 % 60, 2) + ":" + Pad(s % 60, 2) + "." + Pad(t.nanos, 9) + "Z";
    assert Utc(t) == YearText(d.year) + rest;
    if d.year < 0 {
      assert Utc(t)[0] == '-' && |SHAPE| == 7 && SHAPE[0].width == 4;
      assert |Utc(t)| > 4 ==> Utc(t)[..4][0] == '-';
    } else {
      Powers();
      DigitsOverflow(d.year, 4);
      TooWide(d.year, rest, SHAPE);
    }
  }

  lemma NanosOutside(t: Instant)
    requires 0 <= Civil(t.seconds / 86_400).year <= 9999 && t.nanos >= 1_000_000_000
    ensures Read(Utc(t), SHAPE).None?
  {
    hide Civil, Text, Pow10, Read, Pad, Digits;
    var u := t.(nanos := 0);
    UtcIsFields(u);
    PartsFit(u);
    Powers();
    var six := Fields(Parts(u))[..6];
    DigitsOverflow(t.nanos, 9);
    assert Pad(t.nanos, 9) == Digits(t.nanos) by {
      PadWide(t.nanos, 9);
    }
    TooWide(t.nanos, "Z", SHAPE[6..]);
    ReadFront(six, Digits(t.nanos) + "Z", SHAPE);
    SixTexts(t);
  }

  lemma PadWide(n: nat, w: nat)
    requires |Digits(n)| >= w
    ensures Pad(n, w) == Digits(n)
  {
  }

  lemma SixTexts(t: Instant)
    requires 0 <= Civil(t.seconds / 86_400).year <= 9999
    ensures Utc(t) == Text(Fields(Parts(t.(nanos := 0)))[..6]) + (Pad(t.nanos, 9) + "Z")
  {
    hide Civil, Text, Pow10, Pad, Fixed;
    var u := t.(nanos := 0);
    var fs := Fields(Parts(u));
    UtcIsFields(u);
    TextSnoc(fs[..6], fs[6]);
    assert fs[..6] + [fs[6]] == fs;
    var front := Text(fs[..6]);
    Powers();
    PadIsFixed(0, 9);
    assert Utc(u) == front + (Pad(0, 9) + "Z");
    var head := SixHead(t);
    assert Utc(t) == head + (Pad(t.nanos, 9) + "Z");
    assert Utc(u) == head + (Pad(0, 9) + "Z");
    assert |head| == |front|;
    assert head == Utc(u)[..|head|] == front;
  }

  /** Everything before the nanoseconds. */
  function SixHead(t: Instant): string {
    var d := Civil(t.seconds / 86_400);
    var s := t.seconds % 86_400;
    CivilIsTheDate(t.seconds / 86_400);
    YearText(d.year) + "-" + Pad(d.month, 2) + "-" + Pad(d.day, 2) + "T"
    + Pad(s / 3600, 2) + ":" + Pad(s / 60 % 60, 2) + ":" + Pad(s % 60, 2) + "."
  }

  /** The text reads back as its own instant exactly in range; out of range it is no date-time at all. */
  lemma UtcReadsBack(t: Instant)
    ensures if InRange(t) then ReadUtc(Utc(t)) == Some(t) else ReadUtc(Utc(t)) == None
  {
    hide Civil, Read, Utc;
    YearsAreSeconds(t);
    if InRange(t) {
      DateReadsBack(t);
    } else if !YearFits(t) {
      YearOutside(t);
    } else {
      NanosOutside(t);
    }
  }

  // Order

  predicate Earlier(t: Instant, u: Instant) {
    t.seconds < u.seconds || (t.seconds == u.seconds && t.nanos < u.nanos)
  }

  lemma DaysOrderDates(m: int, n: int)
    requires m < n
    ensures Before(Civil(m), Civil(n))
  {
    hide Civil, DayNumber;
    CivilIsTheDate(m);
    CivilIsTheDate(n);
    if Before(Civil(n), Civil(m)) {
      DatesAscend(Civil(n), Civil(m));
    }
  }

  lemma Unfold(a: seq<nat>, b: seq<nat>)
    requires |a| == 7 && |b| == 7
    ensures TupleLess(a, b) <==>
      a[0] < b[0] || (a[0] == b[0] && (a[1] < b[1] || (a[1] == b[1] && (a[2] < b[2] || (a[2] == b[2] &&
      (a[3] < b[3]
        || (a[3] == b[3] && (a[4] < b[4] || (a[4] == b[4] && (a[5] < b[5] || (a[5] == b[5] && a[6] < b[6])))))))))))
  {
    assert forall k :: 1 <= k < 7 ==> a[k..][0] == a[k] && b[k..][0] == b[k];
    assert a[1..][1..] == a[2..] && b[1..][1..] == b[2..];
    assert a[2..][1..] == a[3..] && b[2..][1..] == b[3..];
    assert a[3..][1..] == a[4..] && b[3..][1..] == b[4..];
    assert a[4..][1..] == a[5..] && b[4..][1..] == b[5..];
    assert a[5..][1..] == a[6..] && b[5..][1..] == b[6..];
    assert TupleLess(a[6..], b[6..]) <==> a[6] < b[6];
    assert TupleLess(a[5..], b[5..]) <==> a[5] < b[5] || (a[5] == b[5] && TupleLess(a[6..], b[6..]));
    assert TupleLess(a[4..], b[4..]) <==> a[4] < b[4] || (a[4] == b[4] && TupleLess(a[5..], b[5..]));
    assert TupleLess(a[3..], b[3..]) <==> a[3] < b[3] || (a[3] == b[3] && TupleLess(a[4..], b[4..]));
    assert TupleLess(a[2..], b[2..]) <==> a[2] < b[2] || (a[2] == b[2] && TupleLess(a[3..], b[3..]));
    assert TupleLess(a[1..], b[1..]) <==> a[1] < b[1] || (a[1] == b[1] && TupleLess(a[2..], b[2..]));
  }

  lemma TimeOfDay(s: int, r: int)
    requires 0 <= s < r < 86_400
    ensures var a, b := (s / 3600, s / 60 % 60, s % 60), (r / 3600, r / 60 % 60, r % 60);
      a.0 < b.0 || (a.0 == b.0 && (a.1 < b.1 || (a.1 == b.1 && a.2 < b.2)))
  {
    assert s == s / 3600 * 3600 + s / 60 % 60 * 60 + s % 60;
    assert r == r / 3600 * 3600 + r / 60 % 60 * 60 + r % 60;
  }

  lemma EarlierParts(t: Instant, u: Instant)
    requires DateFits(t) && DateFits(u) && Earlier(t, u)
    ensures TupleLess(Parts(t), Parts(u)) && !TupleLess(Parts(u), Parts(t))
  {
    hide Civil, TupleLess;
    Unfold(Parts(t), Parts(u));
    Unfold(Parts(u), Parts(t));
    if t.seconds / 86_400 < u.seconds / 86_400 {
      DaysOrderDates(t.seconds / 86_400, u.seconds / 86_400);
    } else if t.seconds < u.seconds {
      TimeOfDay(t.seconds % 86_400, u.seconds % 86_400);
    }
  }

  /** In range, text order is time order. */
  lemma UtcOrder(t: Instant, u: Instant)
    requires InRange(t) && InRange(u)
    ensures LexLess(Utc(t), Utc(u)) <==> Earlier(t, u)
  {
    hide Civil, Text, Utc, Parts, Fits, LexLess;
    YearsAreSeconds(t);
    YearsAreSeconds(u);
    UtcIsFields(t);
    UtcIsFields(u);
    PartsFit(t);
    PartsFit(u);
    TextOrder(Fields(Parts(t)), Fields(Parts(u)));
    if Earlier(t, u) {
      EarlierParts(t, u);
    } else if Earlier(u, t) {
      EarlierParts(u, t);
    } else {
      Unfold(Parts(t), Parts(t));
    }
  }

  // Out of range

  /** A time the source can hold: i64 seconds and u32 nanoseconds. */
  predicate Typed(t: Instant) {
    -0x8000_0000_0000_0000 <= t.seconds < 0x8000_0000_0000_0000 && t.nanos < 0x1_0000_0000
  }

  /** The texts are not ordered as the instants are. */
  predicate Missorted(t: Instant, u: Instant) {
    !(LexLess(Utc(t), Utc(u)) <==> Earlier(t, u)) || !(LexLess(Utc(u), Utc(t)) <==> Earlier(u, t))
  }

  lemma {:induction false} LexAsymmetric(a: string, b: string)
    requires LexLess(a, b)
    ensures !LexLess(b, a)
    decreases |a|
  {
    if a != [] && a[0] == b[0] {
      LexAsymmetric(a[1..], b[1..]);
    }
  }

  lemma {:induction false} LexTransitive(a: string, b: string, c: string)
    requires LexLess(a, b) && LexLess(b, c)
    ensures LexLess(a, c)
    decreases |a|
  {
    if a != [] && a[0] == b[0] && b[0] == c[0] {
      LexTransitive(a[1..], b[1..], c[1..]);
    }
  }

  lemma {:induction false} LexPrefix(p: string, a: string, b: string)
    ensures LexLess(p + a, p + b) <==> LexLess(a, b)
    decreases |p|
  {
    if p == [] {
      assert p + a == a && p + b == b;
    } else {
      assert (p + a)[1..] == p[1..] + a && (p + b)[1..] == p[1..] + b;
      LexPrefix(p[1..], a, b);
    }
  }

  /** Between two instants whose texts are in the wrong order, one of them is missorted against it. */
  lemma Between(x: Instant, t: Instant, y: Instant)
    requires (x == t || Earlier(x, t)) && (t == y || Earlier(t, y)) && LexLess(Utc(y), Utc(x))
    ensures Missorted(t, x) || Missorted(t, y)
  {
    hide Utc, LexLess;
    LexAsymmetric(Utc(y), Utc(x));
    if Earlier(x, t) && Earlier(t, y) && LexLess(Utc(x), Utc(t)) && LexLess(Utc(t), Utc(y)) {
      LexTransitive(Utc(x), Utc(t), Utc(y));
    }
  }

  /** The first digit of a number's text. */
  function Lead(n: nat): nat { if n < 10 then n else Lead(n / 10) }

  lemma {:induction false} LeadIsFirst(n: nat)
    ensures Lead(n) < 10 && |Digits(n)| > 0 && Digits(n)[0] == DigitChar(Lead(n))
  {
    if n >= 10 {
      LeadIsFirst(n / 10);
    }
  }

  lemma UtcStarts(t: Instant)
    ensures var y := Civil(t.seconds / 86_400).year;
      |YearText(y)| > 1 && |Utc(t)| > 1 && Utc(t)[0] == YearText(y)[0] && Utc(t)[1] == YearText(y)[1]
  {
    hide Civil, Digits, Pad;
    var days := t.seconds / 86_400;
    CivilIsTheDate(days);
    YearTextIsLong(Civil(days).year);
  }

  lemma YearTextIsLong(y: int)
    ensures |YearText(y)| >= 4
  {
    hide Digits;
  }

  const LAST_9999 := Instant(253_402_300_799, 0)
  const LAST_I64 := Instant(0x7FFF_FFFF_FFFF_FFFF, 0xFFFF_FFFF)
  const FIRST_I64 := Instant(-0x8000_0000_0000_0000, 0)
  const LAST_NEGATIVE := Instant(-62_167_219_201, 0xFFFF_FFFF)

  lemma EndYears()
    ensures Civil(LAST_9999.seconds / 86_400).year == 9999
    ensures Civil(LAST_I64.seconds / 86_400).year == 292_277_026_596
    ensures Civil(FIRST_I64.seconds / 86_400).year == -292_277_022_657
    ensures Civil(LAST_NEGATIVE.seconds / 86_400).year == -1
  {
    hide Civil;
    EndNumbers();
    CivilIsUnique(Date(9999, 12, 31));
    CivilIsUnique(Date(292_277_026_596, 12, 4));
    CivilIsUnique(Date(-292_277_022_657, 1, 27));
    CivilIsUnique(Date(-1, 12, 31));
  }

  lemma EndNumbers()
    ensures DayNumber(Date(9999, 12, 31)) == 2_932_896
    ensures DayNumber(Date(292_277_026_596, 12, 4)) == 106_751_991_167_300
    ensures DayNumber(Date(-292_277_022_657, 1, 27)) == -106_751_991_167_301
    ensures DayNumber(Date(-1, 12, 31)) == -719_529
  {
  }

  /** The texts of the ends: a later instant with an earlier text, past year 9999 and before year 0. */
  lemma EndsAreMissorted()
    ensures LexLess(Utc(LAST_I64), Utc(LAST_9999)) && LexLess(Utc(LAST_NEGATIVE), Utc(FIRST_I64))
  {
    hide Utc, Civil, Digits;
    EndYears();
    UtcStarts(LAST_I64);
    UtcStarts(LAST_9999);
    UtcStarts(LAST_NEGATIVE);
    UtcStarts(FIRST_I64);
    EndTexts();
  }

  lemma EndTexts()
    ensures YearText(292_277_026_596)[0] == '2' && YearText(9999)[0] == '9'
    ensures YearText(-1)[..2] == "-0" && YearText(-292_277_022_657)[..2] == "-2"
  {
    hide Digits;
    LeadIsFirst(292_277_026_596);
    LeadIsFirst(292_277_022_657);
    LeadIsFirst(9999);
    assert Lead(292_277_026_596) == 2 && Lead(292_277_022_657) == 2 && Lead(9999) == 9;
    Powers();
    ShortDigits();
    LongDigits(292_277_026_596);
    LongDigits(292_277_022_657);
  }

  lemma ShortDigits()
    ensures |Digits(1)| == 1 && |Digits(9999)| == 4
  {
  }

  lemma LongDigits(n: nat)
    requires n >= 10_000
    ensures |Digits(n)| > 4
  {
    Powers();
    DigitsOverflow(n, 4);
  }

  lemma NanosAreMissorted(s: int)
    ensures LexLess(Utc(Instant(s, 0xFFFF_FFFF)), Utc(Instant(s, 999_999_999)))
  {
    hide Civil, Digits, LexLess;
    var a, b := Instant(s, 0xFFFF_FFFF), Instant(s, 999_999_999);
    LeadIsFirst(0xFFFF_FFFF);
    LeadIsFirst(999_999_999);
    assert Lead(0xFFFF_FFFF) == 4 && Lead(999_999_999) == 9;
    NanoDigits();
    var p, q := Pad(0xFFFF_FFFF, 9) + "Z", Pad(999_999_999, 9) + "Z";
    SplitAtNanos(a);
    SplitAtNanos(b);
    LexPrefix(SixHead(a), p, q);
    FirstDecides(p, q);
  }

  lemma NanoDigits()
    ensures |Digits(0xFFFF_FFFF)| >= 9 && |Digits(999_999_999)| >= 9
  {
    Powers();
    assert Pow10(8) == 100_000_000;
    DigitsOverflow(0xFFFF_FFFF, 8);
    DigitsOverflow(999_999_999, 8);
  }

  lemma FirstDecides(p: string, q: string)
    requires p != [] && q != [] && p[0] < q[0]
    ensures LexLess(p, q)
  {
  }

  lemma SplitAtNanos(t: Instant)
    ensures Utc(t) == SixHead(t) + (Pad(t.nanos, 9) + "Z") && SixHead(t) == SixHead(t.(nanos := 0))
  {
    hide Civil, Pad;
  }

  /** Every time the source can hold that is out of range is missorted against another it can hold. */
  lemma OutOfRangeIsMissorted(t: Instant)
    requires Typed(t) && !InRange(t)
    ensures exists u :: Typed(u) && Missorted(t, u)
  {
    hide Utc, LexLess, Missorted;
    EndsAreMissorted();
    if t.seconds >= 253_402_300_800 {
      Between(LAST_9999, t, LAST_I64);
      assert Typed(LAST_9999) && Typed(LAST_I64);
    } else if t.seconds < -62_167_219_200 {
      Between(FIRST_I64, t, LAST_NEGATIVE);
      assert Typed(FIRST_I64) && Typed(LAST_NEGATIVE);
    } else {
      var x, y := Instant(t.seconds, 999_999_999), Instant(t.seconds, 0xFFFF_FFFF);
      NanosAreMissorted(t.seconds);
      Between(x, t, y);
      assert Typed(x) && Typed(y);
    }
  }

  /** The first second of year 10000 is no date-time, and its text sorts before the last of year 9999. */
  lemma YearTenThousand()
    ensures ReadUtc(Utc(Instant(253_402_300_800, 0))) == None
    ensures Earlier(LAST_9999, Instant(253_402_300_800, 0)) && LexLess(Utc(Instant(253_402_300_800, 0)), Utc(LAST_9999))
  {
    hide Utc, Civil, Digits, ReadUtc;
    var t := Instant(253_402_300_800, 0);
    UtcReadsBack(t);
    EndYears();
    Ends();
    CivilIsUnique(Date(10_000, 1, 1));
    UtcStarts(t);
    UtcStarts(LAST_9999);
    EndTexts();
    LeadIsFirst(10_000);
    assert Lead(10_000) == 1;
    LongDigits(10_000);
  }
}

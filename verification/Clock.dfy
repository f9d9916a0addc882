/** Timestamps as text: fixed-width UTC text is compared as text where times
    are meant. */
module Clock {

  /** A UTC moment as its calendar fields. */
  datatype Moment = Moment(year: nat, month: nat, day: nat, hour: nat, minute: nat, second: nat, micro: nat)

  predicate Valid(m: Moment) {
    && 1 <= m.year <= 9999 && 1 <= m.month <= 12 && 1 <= m.day <= 31
    && m.hour < 24 && m.minute < 60 && m.second < 60 && m.micro < 1_000_000
  }

  /** Chronological order of UTC moments. */
  predicate Before(a: Moment, b: Moment) {
    if a.year != b.year then a.year < b.year
    else if a.month != b.month then a.month < b.month
    else if a.day != b.day then a.day < b.day
    else if a.hour != b.hour then a.hour < b.hour
    else if a.minute != b.minute then a.minute < b.minute
    else if a.second != b.second then a.second < b.second
    else a.micro < b.micro
  }

  /** Text comparison, character by character. */
  predicate Less(s: string, t: string) {
    if t == "" then false
    else if s == "" then true
    else if s[0] != t[0] then s[0] < t[0]
    else Less(s[1..], t[1..])
  }

  // ---------------------------------------------------------------- rendering

  function Digit(d: nat): char
    requires d < 10
  {
    '0' + d as char
  }

  /** A number in exactly `width` decimal digits. */
  function Padded(n: nat, width: nat): (s: string)
    ensures |s| == width
  {
    if width == 0 then "" else Padded(n / 10, width - 1) + [Digit(n % 10)]
  }

  function Power(width: nat): nat {
    if width == 0 then 1 else 10 * Power(width - 1)
  }

  /** The C library prints a year without padding. */
  function YearText(y: nat): string {
    Padded(y, Digits(y))
  }

  function Digits(y: nat): nat {
    if y < 10 then 1 else if y < 100 then 2 else if y < 1000 then 3 else 4
  }

  function Text(m: Moment): string {
    YearText(m.year) + ("-" + (Padded(m.month, 2) + ("-" + (Padded(m.day, 2) + ("T" + (Padded(m.hour, 2) + (":" + (Padded(m.minute, 2)
      + (":" + (Padded(m.second, 2) + ("." + (Padded(m.micro, 6) + "Z"))))))))))))
  }

  // ---------------------------------------------------------------- order

  /** Comparing equal-width prefixes first, then the rests. */
  lemma {:induction false} LessConcat(s: string, t: string, u: string, v: string)
    requires |s| == |t|
    ensures Less(s + u, t + v) <==> Less(s, t) || (s == t && Less(u, v))
  {
    if s == "" {
      assert s + u == u && t + v == v;
    } else {
      LessConcat(s[1..], t[1..], u, v);
      assert (s + u)[1..] == s[1..] + u && (t + v)[1..] == t[1..] + v;
      assert s == [s[0]] + s[1..] && t == [t[0]] + t[1..];
    }
  }

  lemma {:induction false} PaddedOrder(a: nat, b: nat, width: nat)
    requires a < Power(width) && b < Power(width)
    ensures Less(Padded(a, width), Padded(b, width)) <==> a < b
    ensures Padded(a, width) == Padded(b, width) <==> a == b
  {
    if width > 0 {
      PaddedOrder(a / 10, b / 10, width - 1);
      LessConcat(Padded(a / 10, width - 1), Padded(b / 10, width - 1), [Digit(a % 10)], [Digit(b % 10)]);
      var p, q := Padded(a / 10, width - 1), Padded(b / 10, width - 1);
      assert (p + [Digit(a % 10)])[..width - 1] == p && (q + [Digit(b % 10)])[..width - 1] == q;
      assert (p + [Digit(a % 10)])[width - 1] == Digit(a % 10) && (q + [Digit(b % 10)])[width - 1] == Digit(b % 10);
      assert Less([Digit(a % 10)], [Digit(b % 10)]) <==> a % 10 < b % 10;
    }
  }

  /** One field and its separator, then the rest. */
  lemma FieldOrder(a: nat, b: nat, width: nat, mark: string, u: string, v: string)
    requires a < Power(width) && b < Power(width)
    ensures Less(Padded(a, width) + (mark + u), Padded(b, width) + (mark + v)) <==> a < b || (a == b && Less(u, v))
  {
    PaddedOrder(a, b, width);
    LessConcat(Padded(a, width), Padded(b, width), mark + u, mark + v);
    LessConcat(mark, mark, u, v);
    Irreflexive(mark);
  }

  lemma {:induction false} Irreflexive(s: string)
    ensures !Less(s, s)
  {
    if s != "" { Irreflexive(s[1..]); }
  }

  lemma Powers()
    ensures Power(2) == 100 && Power(4) == 10_000 && Power(6) == 1_000_000
  {
    assert Power(1) == 10 && Power(2) == 100 && Power(3) == 1000 && Power(4) == 10_000 && Power(5) == 100_000;
  }

  /** The text is 27 characters wide, as the schema demands, from the year 1000 on. */
  lemma Width(m: Moment)
    requires Valid(m)
    ensures |Text(m)| == 27 <==> m.year >= 1000
  {
  }

  function TimeText(m: Moment): string {
    Padded(m.hour, 2) + (":" + (Padded(m.minute, 2) + (":" + (Padded(m.second, 2) + ("." + (Padded(m.micro, 6) + "Z"))))))
  }

  lemma TimeOrder(a: Moment, b: Moment)
    requires Valid(a) && Valid(b)
    ensures Less(TimeText(a), TimeText(b)) <==> Before(a.(year := 0, month := 0, day := 0), b.(year := 0, month := 0, day := 0))
  {
    Powers();
    var za, zb := "Z" + "", "Z" + "";
    FieldOrder(a.micro, b.micro, 6, "Z", "", "");
    var ma, mb := Padded(a.micro, 6) + "Z", Padded(b.micro, 6) + "Z";
    assert ma == Padded(a.micro, 6) + za && mb == Padded(b.micro, 6) + zb;
    FieldOrder(a.second, b.second, 2, ".", ma, mb);
    var sa, sb := Padded(a.second, 2) + ("." + ma), Padded(b.second, 2) + ("." + mb);
    FieldOrder(a.minute, b.minute, 2, ":", sa, sb);
    FieldOrder(a.hour, b.hour, 2, ":", Padded(a.minute, 2) + (":" + sa), Padded(b.minute, 2) + (":" + sb));
  }

  /** What follows the year. */
  function DateText(m: Moment): string {
    "-" + (Padded(m.month, 2) + ("-" + (Padded(m.day, 2) + ("T" + TimeText(m)))))
  }

  lemma DateOrder(a: Moment, b: Moment)
    requires Valid(a) && Valid(b)
    ensures Less(DateText(a), DateText(b)) <==> Before(a.(year := 0), b.(year := 0))
  {
    Powers();
    TimeOrder(a, b);
    FieldOrder(a.day, b.day, 2, "T", TimeText(a), TimeText(b));
    var da, db := Padded(a.day, 2) + ("T" + TimeText(a)), Padded(b.day, 2) + ("T" + TimeText(b));
    FieldOrder(a.month, b.month, 2, "-", da, db);
    LessConcat("-", "-", Padded(a.month, 2) + ("-" + da), Padded(b.month, 2) + ("-" + db));
    Irreflexive("-");
  }

  lemma YearFits(y: nat)
    requires y <= 9999
    ensures y < Power(Digits(y))
  {
    assert Power(1) == 10 && Power(2) == 100 && Power(3) == 1000 && Power(4) == 10_000;
  }

  lemma YearThenDate(a: Moment)
    ensures Text(a) == YearText(a.year) + DateText(a)
  {
  }

  /** With years equally long, text order is time order. */
  lemma EvenOrder(a: Moment, b: Moment)
    requires Valid(a) && Valid(b) && Digits(a.year) == Digits(b.year)
    ensures Less(Text(a), Text(b)) <==> Before(a, b)
  {
    YearFits(a.year);
    YearFits(b.year);
    YearThenDate(a);
    YearThenDate(b);
    DateOrder(a, b);
    PaddedOrder(a.year, b.year, Digits(a.year));
    LessConcat(YearText(a.year), YearText(b.year), DateText(a), DateText(b));
  }

  /** On texts of the width the schema admits, text order is time order. */
  lemma TextOrder(a: Moment, b: Moment)
    requires Valid(a) && Valid(b) && |Text(a)| == 27 && |Text(b)| == 27
    ensures Less(Text(a), Text(b)) <==> Before(a, b)
  {
    Width(a);
    Width(b);
    EvenOrder(a, b);
  }

  // ---------------------------------------------------------------- reading back

  /** The number a run of decimal digits denotes. */
  function Read(s: string): int {
    if s == "" then 0 else 10 * Read(s[..|s| - 1]) + (s[|s| - 1] as int - '0' as int)
  }

  lemma {:induction false} ReadPadded(n: nat, width: nat)
    requires n < Power(width)
    ensures Read(Padded(n, width)) == n
  {
    if width > 0 {
      ReadPadded(n / 10, width - 1);
      var p := Padded(n / 10, width - 1);
      assert Padded(n, width)[..width - 1] == p && Padded(n, width)[width - 1] == Digit(n % 10);
    }
  }

  lemma TimeFields(m: Moment)
    ensures var u := TimeText(m);
      && |u| == 16 && u[2] == u[5] == ':' && u[8] == '.' && u[15] == 'Z'
      && u[0..2] == Padded(m.hour, 2) && u[3..5] == Padded(m.minute, 2) && u[6..8] == Padded(m.second, 2) && u[9..15] == Padded(m.micro, 6)
  {
    hide Padded;
  }

  /** A text of full width holds every field in its place, between the marks. */
  lemma TextReads(m: Moment)
    requires Valid(m) && m.year >= 1000
    ensures var t := Text(m);
      && |t| == 27 && t[4] == t[7] == '-' && t[10] == 'T' && t[13] == t[16] == ':' && t[19] == '.' && t[26] == 'Z'
      && Read(t[..4]) == m.year && Read(t[5..7]) == m.month && Read(t[8..10]) == m.day
      && Read(t[11..13]) == m.hour && Read(t[14..16]) == m.minute && Read(t[17..19]) == m.second && Read(t[20..26]) == m.micro
  {
    hide Padded, Read;
    Powers();
    ReadPadded(m.year, 4);
    ReadPadded(m.month, 2);
    ReadPadded(m.day, 2);
    ReadPadded(m.hour, 2);
    ReadPadded(m.minute, 2);
    ReadPadded(m.second, 2);
    ReadPadded(m.micro, 6);
    var t := Text(m);
    assert t[..4] == Padded(m.year, 4) && t[5..7] == Padded(m.month, 2) && t[8..10] == Padded(m.day, 2);
    TimeFields(m);
    var u := TimeText(m);
    assert t[11..] == u;
    assert t[11..13] == u[0..2] && t[14..16] == u[3..5] && t[17..19] == u[6..8] && t[20..26] == u[9..15];
    assert t[13] == u[2] && t[16] == u[5] && t[19] == u[8] && t[26] == u[15];
  }

  // ---------------------------------------------------------------- where the order breaks

  /** A number without its last `k` digits. */
  function Drop(n: nat, k: nat): nat {
    if k == 0 then n else Drop(n / 10, k - 1)
  }

  /** The first `width` digits of a year. */
  function Lead(y: nat, width: nat): nat
    requires width <= Digits(y)
  {
    Drop(y, Digits(y) - width)
  }

  /** Digits split into the leading ones and the rest. */
  lemma {:induction false} PaddedSplit(n: nat, width: nat, rest: nat)
    requires rest > 0
    ensures exists tail :: |tail| == rest && tail[0] >= '0' && Padded(n, width + rest) == Padded(Drop(n, rest), width) + tail
  {
    var last := [Digit(n % 10)];
    if rest == 1 {
      assert Padded(n, width + 1) == Padded(Drop(n, 1), width) + last by { assert Drop(n, 1) == Drop(n / 10, 0) == n / 10; }
    } else {
      PaddedSplit(n / 10, width, rest - 1);
      var tail :| |tail| == rest - 1 && tail[0] >= '0' && Padded(n / 10, width + rest - 1) == Padded(Drop(n / 10, rest - 1), width) + tail;
      assert Padded(n, width + rest) == Padded(Drop(n, rest), width) + (tail + last);
    }
  }

  lemma FirstDecides(s: string, t: string)
    requires s != "" && t != "" && s[0] > t[0]
    ensures !Less(s, t)
  {
  }

  lemma DateMarked(m: Moment)
    ensures DateText(m) != "" && DateText(m)[0] == '-'
  {
  }

  /** A longer year against a shorter one: the leading digits decide, and if they
      are equal the digit that follows is above the mark. */
  lemma LongerYear(a: Moment, b: Moment)
    requires Valid(a) && Valid(b) && Digits(a.year) < Digits(b.year)
    ensures Less(Text(b), Text(a)) <==> Lead(b.year, Digits(a.year)) < a.year
  {
    hide Text, DateText, Less, Padded;
    var w, k := Digits(a.year), Digits(b.year) - Digits(a.year);
    var lead := Lead(b.year, w);
    YearFits(a.year);
    LeadFits(b.year, w);
    YearThenDate(a);
    YearThenDate(b);
    PaddedSplit(b.year, w, k);
    var tail :| |tail| == k && tail[0] >= '0' && YearText(b.year) == Padded(lead, w) + tail;
    assert Text(b) == Padded(lead, w) + (tail + DateText(b));
    PaddedOrder(lead, a.year, w);
    LessConcat(Padded(lead, w), YearText(a.year), tail + DateText(b), DateText(a));
    DateMarked(a);
    FirstDecides(tail + DateText(b), DateText(a));
  }

  lemma DigitsRise(x: nat, y: nat)
    requires x <= y
    ensures Digits(x) <= Digits(y)
  {
  }

  /** For which earlier and later moment the texts stand in the wrong order: exactly
      when the later year is longer and its leading digits are below the earlier
      year. */
  lemma TextOrderBreaks(a: Moment, b: Moment)
    requires Valid(a) && Valid(b) && Before(a, b)
    ensures Digits(a.year) <= Digits(b.year)
    ensures Less(Text(b), Text(a)) <==> Lead(b.year, Digits(a.year)) < a.year
  {
    hide Text, Less, Digits;
    DigitsRise(a.year, b.year);
    if Digits(a.year) == Digits(b.year) { EvenOrder(b, a); } else { LongerYear(a, b); }
  }

  lemma LeadFits(y: nat, width: nat)
    requires y <= 9999 && 1 <= width <= Digits(y)
    ensures Lead(y, width) < Power(width)
  {
    assert Power(1) == 10 && Power(2) == 100 && Power(3) == 1000 && Power(4) == 10_000;
    assert Drop(y, 1) == Drop(y / 10, 0) && Drop(y, 2) == Drop(y / 10, 1) == Drop(y / 10 / 10, 0);
    assert Drop(y, 3) == Drop(y / 10, 2) == Drop(y / 10 / 10, 1) == Drop(y / 10 / 10 / 10, 0);
  }

  /** The first such pair: the year 999 sorts after the year 1000. */
  lemma NarrowYears()
    ensures var a, b := Moment(999, 12, 31, 0, 0, 0, 0), Moment(1000, 1, 1, 0, 0, 0, 0);
      Valid(a) && Valid(b) && Before(a, b) && Less(Text(b), Text(a))
  {
    TextOrderBreaks(Moment(999, 12, 31, 0, 0, 0, 0), Moment(1000, 1, 1, 0, 0, 0, 0));
    assert Drop(1000, 1) == Drop(100, 0) == 100;
  }
}

/** RFC 3339 timestamps to Unix milliseconds (crates/monoloop-interpreter/src/claude_stream.rs). */
module Timestamps {
  import opened Common
  import opened Text
  import opened Numerals
  import opened Calendar

  // Rust's string primitives.

  /** `str::split_once` on a character. */
  function SplitOnce(s: string, c: char): Option<(string, string)> {
    if s == "" then None
    else if s[0] == c then Some(("", s[1..]))
    else
      match SplitOnce(s[1..], c)
      case None => None
      case Some((a, b)) => Some(([s[0]] + a, b))
  }

  /** `str::split` on a character: never empty. */
  function Split(s: string, c: char): (parts: seq<string>)
    ensures |parts| >= 1
  {
    if s == "" then [""]
    else
      var rest := Split(s[1..], c);
      if s[0] == c then [""] + rest else [[s[0]] + rest[0]] + rest[1..]
  }

  /** `str::parse::<i64>`: an optional sign, then digits, within range. */
  function ParseI64(s: string): Option<int> {
    var signed := s != "" && (s[0] == '+' || s[0] == '-');
    var digits := if signed then s[1..] else s;
    if digits == "" || !AllDigits(digits) then None
    else
      var v := if signed && s[0] == '-' then -Value(digits) else Value(digits);
      if FitsI64(v) then Some(v) else None
  }

  // The source's functions.

  /** The first three characters of the fraction, padded with zeros; anything unreadable is zero. */
  function Millis(frac: string): int {
    var digits := if |frac| > 3 then frac[..3] else frac;
    var padded := digits + seq(3 - |digits|, _ => '0');
    match ParseI64(padded)
    case Some(v) => v
    case None => 0
  }

  /** A value, a refusal, or an overflow of the unchecked date arithmetic, which panics or wraps. */
  datatype Reading = Ms(value: nat) | Refused | Overflow

  function CheckedMs(days: int, h: int, mi: int, sec: int, ms: int): Reading {
    var a, b, c, d := days * 86_400_000, h * 3_600_000, mi * 60_000, sec * 1000;
    if !(FitsI64(a) && FitsI64(b) && FitsI64(c) && FitsI64(d)) then Refused
    else if !(FitsI64(a + b) && FitsI64(a + b + c) && FitsI64(a + b + c + d)) then Refused
    else if !FitsI64(a + b + c + d + ms) || a + b + c + d + ms < 0 then Refused
    else Ms(a + b + c + d + ms)
  }

  datatype Stamp = Stamp(y: int, mo: int, d: int, h: int, mi: int, sec: int, ms: int)

  function StampMs(t: Stamp): Reading {
    match DaysFromCivil(t.y, t.mo, t.d)
    case None => Refused
    case Some(days) => if StaysInI64(t.y, t.mo, t.d) then CheckedMs(days, t.h, t.mi, t.sec, t.ms) else Overflow
  }

  function ParseDate(date: string): Option<(int, int, int)> {
    var parts := Split(date, '-');
    if |parts| < 3 then None
    else
      match (ParseI64(parts[0]), ParseI64(parts[1]), ParseI64(parts[2]))
      case (Some(y), Some(mo), Some(d)) => Some((y, mo, d))
      case _ => None
  }

  function ParseTime(hms: string): Option<(int, int, int)> {
    var parts := Split(hms, ':');
    if |parts| < 3 then None
    else
      match (ParseI64(parts[0]), ParseI64(parts[1]), ParseI64(parts[2]))
      case (Some(h), Some(mi), Some(sec)) => Some((h, mi, sec))
      case _ => None
  }

  function ParseCore(core: string): Option<Stamp> {
    match SplitOnce(core, 'T')
    case None => None
    case Some((date, time)) =>
      var (hms, ms) := match SplitOnce(time, '.') case Some((a, b)) => (a, Millis(b)) case None => (time, 0);
      match (ParseDate(date), ParseTime(hms))
      case (Some((y, mo, d)), Some((h, mi, sec))) => Some(Stamp(y, mo, d, h, mi, sec, ms))
      case _ => None
  }

  function ParseRfc3339(text: string): Reading {
    var s := Trim(text);
    if s == "" || s[|s| - 1] != 'Z' || ByteLen(s) < 20 then Refused
    else
      match ParseCore(s[..|s| - 1])
      case None => Refused
      case Some(t) => StampMs(t)
  }

  // What a timestamp means.

  predicate ValidTime(t: Stamp) { 0 <= t.h < 24 && 0 <= t.mi < 60 && 0 <= t.sec < 60 && 0 <= t.ms < 1000 }

  predicate ValidStamp(t: Stamp) { ValidDate(t.y, t.mo, t.d) && ValidTime(t) }

  /** Milliseconds since the Unix epoch. */
  function TrueMs(t: Stamp): int
    requires 1 <= t.mo <= 12
  {
    (((DayCount(t.y, t.mo, t.d) * 24 + t.h) * 60 + t.mi) * 60 + t.sec) * 1000 + t.ms
  }

  /** The days for which the date arithmetic stays within 64 bits. */
  predicate DayInRange(t: Stamp)
    requires 1 <= t.mo <= 12
  {
    I64_MIN <= DayCount(t.y, t.mo, t.d) <= I64_MAX - EPOCH_SHIFT
  }

  /**
   A valid timestamp converts to its true value, is refused exactly before 1970 and when the milliseconds do not fit
   64 bits, and overflows exactly when already the days do not.
   */
  lemma StampMsIsTrue(t: Stamp)
    requires ValidStamp(t)
    ensures StampMs(t) ==
            if !DayInRange(t) then Overflow else if 0 <= TrueMs(t) <= I64_MAX then Ms(TrueMs(t)) else Refused
  {
    hide DayCount, DaysFromCivil, StaysInI64;
    CivilIsDayCount(t.y, t.mo, t.d);
    NoOverflow(t.y, t.mo, t.d);
  }

  predicate Before(t: Stamp, u: Stamp) {
    || DateBefore(t.y, t.mo, t.d, u.y, u.mo, u.d)
    || ((t.y, t.mo, t.d) == (u.y, u.mo, u.d) && TimeBefore(t, u))
  }

  predicate TimeBefore(t: Stamp, u: Stamp) {
    || t.h < u.h
    || (t.h == u.h && (t.mi < u.mi || (t.mi == u.mi && (t.sec < u.sec || (t.sec == u.sec && t.ms < u.ms)))))
  }

  lemma TrueMsIsOrdered(t: Stamp, u: Stamp)
    requires ValidStamp(t) && ValidStamp(u)
    ensures TrueMs(t) < TrueMs(u) <==> Before(t, u)
  {
    hide DayCount, DateBefore, ValidDate;
    DatesAreTotal(t, u);
    if DateBefore(t.y, t.mo, t.d, u.y, u.mo, u.d) {
      DatesAreOrdered(t.y, t.mo, t.d, u.y, u.mo, u.d);
    } else if (t.y, t.mo, t.d) != (u.y, u.mo, u.d) {
      DatesAreOrdered(u.y, u.mo, u.d, t.y, t.mo, t.d);
    }
  }

  lemma DatesAreTotal(t: Stamp, u: Stamp)
    ensures || DateBefore(t.y, t.mo, t.d, u.y, u.mo, u.d)
            || DateBefore(u.y, u.mo, u.d, t.y, t.mo, t.d)
            || (t.y, t.mo, t.d) == (u.y, u.mo, u.d)
  {
  }

  /** The conversion is strictly order-preserving, and reflects the order as well. */
  lemma StampsAreOrdered(t: Stamp, u: Stamp)
    requires ValidStamp(t) && ValidStamp(u) && StampMs(t).Ms? && StampMs(u).Ms?
    ensures StampMs(t).value < StampMs(u).value <==> Before(t, u)
  {
    hide DayCount, Before, StampMs, ValidStamp, TrueMs;
    StampMsIsTrue(t);
    StampMsIsTrue(u);
    TrueMsIsOrdered(t, u);
  }

  // Leap seconds, which RFC 3339 allows (section 5.7) and the source accepts.

  predicate LeapStamp(t: Stamp) { t.sec == 60 && ValidStamp(t.(sec := 59)) }

  /** The start of the minute after `t`. */
  function NextMinute(t: Stamp): Stamp {
    if t.mi < 59 then t.(mi := t.mi + 1, sec := 0, ms := 0)
    else if t.h < 23 then t.(h := t.h + 1, mi := 0, sec := 0, ms := 0)
    else
      var (y, mo, d) := NextDate(t.y, t.mo, t.d);
      Stamp(y, mo, d, 0, 0, 0, 0)
  }

  lemma LeapIsNextMinute(t: Stamp)
    requires LeapStamp(t)
    ensures ValidStamp(NextMinute(t)) && NextMinute(t).ms == 0 && TrueMs(t) == TrueMs(NextMinute(t)) + t.ms
  {
    hide DayCount, DaysFromCivil;
    if t.mi == 59 && t.h == 23 {
      NextDateIsNextDay(t.y, t.mo, t.d);
      CivilIsDayCount(t.y, t.mo, t.d);
      var (y, mo, d) := NextDate(t.y, t.mo, t.d);
      CivilIsDayCount(y, mo, d);
    }
  }

  lemma NothingBetween(t: Stamp, u: Stamp)
    requires LeapStamp(t) && ValidStamp(u)
    ensures Before(t, u) <==> !Before(u, NextMinute(t))
  {
    hide ValidDate, NextDate;
    if t.mi == 59 && t.h == 23 {
      NoDateBetween(t, u);
    }
  }

  lemma NoDateBetween(t: Stamp, u: Stamp)
    requires ValidDate(t.y, t.mo, t.d) && ValidDate(u.y, u.mo, u.d)
    ensures var (y, mo, d) := NextDate(t.y, t.mo, t.d);
            DateBefore(u.y, u.mo, u.d, y, mo, d) <==> !DateBefore(t.y, t.mo, t.d, u.y, u.mo, u.d)
  {
  }

  /** A leap second converts like any other, with the value of the second after it. */
  lemma LeapMsIsTrue(t: Stamp)
    requires LeapStamp(t)
    ensures StampMs(t) ==
            if !DayInRange(t) then Overflow else if 0 <= TrueMs(t) <= I64_MAX then Ms(TrueMs(t)) else Refused
  {
    hide DayCount, DaysFromCivil, StaysInI64;
    CivilIsDayCount(t.y, t.mo, t.d);
    NoOverflow(t.y, t.mo, t.d);
  }

  /** A leap second is out of order with exactly the stamps of the following second that are not later within it. */
  lemma LeapSecondOrder(t: Stamp, u: Stamp)
    requires LeapStamp(t) && ValidStamp(u) && StampMs(t).Ms? && StampMs(u).Ms?
    ensures (StampMs(t).value < StampMs(u).value <==> Before(t, u)) <==> !(u.(ms := 0) == NextMinute(t) && u.ms <= t.ms)
  {
    hide DayCount, Before, StampMs, TrueMs, NextMinute;
    LeapMsIsTrue(t);
    StampMsIsTrue(u);
    LeapIsNextMinute(t);
    NothingBetween(t, u);
    var m := NextMinute(t);
    var start := u.(ms := 0);
    TrueMsIsOrdered(u, m);
    TrueMsIsOrdered(start, m);
    TrueMsIsOrdered(m, start);
    SecondsApart(start, m);
    WithinSecond(u);
    StartsAreEqual(start, m);
  }

  lemma WithinSecond(u: Stamp)
    requires 1 <= u.mo <= 12
    ensures TrueMs(u) == TrueMs(u.(ms := 0)) + u.ms
  {
    hide DayCount;
  }

  /** Stamps at full seconds are a second apart, or equal in value. */
  lemma SecondsApart(a: Stamp, b: Stamp)
    requires ValidStamp(a) && ValidStamp(b) && a.ms == 0 && b.ms == 0
    ensures TrueMs(a) < TrueMs(b) ==> TrueMs(a) + 1000 <= TrueMs(b)
    ensures TrueMs(b) < TrueMs(a) ==> TrueMs(b) + 1000 <= TrueMs(a)
  {
    hide DayCount;
  }

  lemma StartsAreEqual(a: Stamp, b: Stamp)
    requires ValidStamp(a) && ValidStamp(b)
    ensures TrueMs(a) == TrueMs(b) <==> a == b
  {
    hide DayCount, TrueMs, ValidDate, DateBefore;
    TrueMsIsOrdered(a, b);
    TrueMsIsOrdered(b, a);
    DatesAreTotal(a, b);
  }

  /** The years of four digits hold their leap seconds and the minutes after them in range. */
  lemma LeapInRange(t: Stamp)
    requires LeapStamp(t) && 0 <= t.y < 9_999
    ensures DayInRange(t) && DayInRange(NextMinute(t))
  {
    hide DayCount, DaysFromCivil, TrueMs;
    LeapIsNextMinute(t);
    FourDigitDays(t);
    FourDigitDays(NextMinute(t));
  }

  /** For one: the leap second at the end of 2016 has the value of the new year. */
  lemma LeapSecondAliases()
    ensures StampMs(Stamp(2016, 12, 31, 23, 59, 60, 0)) == StampMs(Stamp(2017, 1, 1, 0, 0, 0, 0))
  {
    hide DayCount, TrueMs, StampMs;
    var t := Stamp(2016, 12, 31, 23, 59, 60, 0);
    LeapIsNextMinute(t);
    assert NextMinute(t) == Stamp(2017, 1, 1, 0, 0, 0, 0);
    LeapMsIsTrue(t);
    StampMsIsTrue(NextMinute(t));
    LeapInRange(t);
  }

  // Printing.

  function Pow10(w: nat): nat { if w == 0 then 1 else 10 * Pow10(w - 1) }

  /** The last `w` decimal digits of `n`. */
  function Pad(n: nat, w: nat): (s: string)
    ensures |s| == w
  {
    if w == 0 then "" else Pad(n / 10, w - 1) + [Digit(n % 10)]
  }

  /** A year of `w` digits, at least four as RFC 3339 has it; the source takes any number of them. */
  predicate Printable(t: Stamp, w: nat) {
    0 <= t.y < Pow10(w) && 4 <= w && FitsI64(t.y) && ValidDate(t.y, t.mo, t.d) && ValidTime(t)
  }

  function PrintDate(t: Stamp, w: nat): string
    requires Printable(t, w)
  {
    Pad(t.y, w) + "-" + Pad(t.mo, 2) + "-" + Pad(t.d, 2)
  }

  function PrintTime(t: Stamp): string
    requires ValidTime(t)
  {
    Pad(t.h, 2) + ":" + Pad(t.mi, 2) + ":" + Pad(t.sec, 2)
  }

  function Tail(frac: Option<string>): string { match frac case None => "" case Some(f) => "." + f }

  /** RFC 3339 in UTC, with no fraction or with one of any number of digits. */
  function Print(t: Stamp, w: nat, frac: Option<string>): string
    requires Printable(t, w)
  {
    PrintDate(t, w) + "T" + PrintTime(t) + Tail(frac) + "Z"
  }

  /** The milliseconds a fraction stands for, rounded down. */
  function FractionMs(frac: Option<string>): int
    requires frac.Some? ==> AllDigits(frac.value)
  {
    match frac
    case None => 0
    case Some(f) => PlaceValue(f, 0) * 100 + PlaceValue(f, 1) * 10 + PlaceValue(f, 2)
  }

  function PlaceValue(f: string, k: nat): int {
    if k < |f| then f[k] as int - '0' as int else 0
  }

  // Reading back.

  lemma {:induction false} PadDigits(n: nat, w: nat)
    ensures AllDigits(Pad(n, w))
    ensures n < Pow10(w) ==> Value(Pad(n, w)) == n
    decreases w
  {
    if w > 0 {
      PadDigits(n / 10, w - 1);
      assert Pad(n, w)[..w - 1] == Pad(n / 10, w - 1);
    }
  }

  lemma PadParses(n: nat, w: nat)
    requires 0 < w && n < Pow10(w) && FitsI64(n)
    ensures ParseI64(Pad(n, w)) == Some(n)
  {
    hide Pad, Value;
    PadDigits(n, w);
    assert IsDigit(Pad(n, w)[0]);
  }

  lemma {:induction false} SplitOnceFinds(a: string, c: char, b: string)
    requires c !in a
    ensures SplitOnce(a + [c] + b, c) == Some((a, b))
  {
    var s := a + [c] + b;
    if a == "" {
      assert s[1..] == b;
    } else {
      assert s[1..] == a[1..] + [c] + b;
      SplitOnceFinds(a[1..], c, b);
      assert [a[0]] + a[1..] == a;
    }
  }

  lemma {:induction false} SplitOnceMisses(a: string, c: char)
    requires c !in a
    ensures SplitOnce(a, c) == None
  {
    if a != "" {
      SplitOnceMisses(a[1..], c);
    }
  }

  lemma {:induction false} SplitFinds(a: string, c: char, b: string)
    requires c !in a
    ensures Split(a + [c] + b, c) == [a] + Split(b, c)
  {
    var s := a + [c] + b;
    if a == "" {
      assert s[1..] == b;
    } else {
      assert s[1..] == a[1..] + [c] + b;
      SplitFinds(a[1..], c, b);
      assert [a[0]] + a[1..] == a;
    }
  }

  lemma {:induction false} SplitMisses(a: string, c: char)
    requires c !in a
    ensures Split(a, c) == [a]
  {
    if a != "" {
      SplitMisses(a[1..], c);
      assert [a[0]] + a[1..] == a;
    }
  }

  lemma SplitThree(a: string, b: string, e: string, c: char)
    requires c !in a && c !in b && c !in e
    ensures Split(a + [c] + b + [c] + e, c) == [a, b, e]
  {
    hide Split;
    assert a + [c] + b + [c] + e == a + [c] + (b + [c] + e);
    SplitFinds(a, c, b + [c] + e);
    SplitFinds(b, c, e);
    SplitMisses(e, c);
  }

  lemma DateReadsBack(t: Stamp, w: nat)
    requires Printable(t, w)
    ensures ParseDate(PrintDate(t, w)) == Some((t.y, t.mo, t.d))
  {
    hide Split, ParseI64, Pad, Value;
    assert Pow10(2) == 100;
    hide Pow10;
    PadDigits(t.y, w);
    PadDigits(t.mo, 2);
    PadDigits(t.d, 2);
    SplitThree(Pad(t.y, w), Pad(t.mo, 2), Pad(t.d, 2), '-');
    PadParses(t.y, w);
    PadParses(t.mo, 2);
    PadParses(t.d, 2);
  }

  lemma TimeReadsBack(t: Stamp)
    requires ValidTime(t)
    ensures ParseTime(PrintTime(t)) == Some((t.h, t.mi, t.sec))
  {
    hide Split, ParseI64, Pad, Value;
    assert Pow10(2) == 100;
    PadDigits(t.h, 2);
    PadDigits(t.mi, 2);
    PadDigits(t.sec, 2);
    SplitThree(Pad(t.h, 2), Pad(t.mi, 2), Pad(t.sec, 2), ':');
    PadParses(t.h, 2);
    PadParses(t.mi, 2);
    PadParses(t.sec, 2);
  }

  lemma MillisReadsBack(f: string)
    requires AllDigits(f)
    ensures Millis(f) == FractionMs(Some(f)) && 0 <= Millis(f) < 1000
  {
    var digits := if |f| > 3 then f[..3] else f;
    var p := digits + seq(3 - |digits|, _ => '0');
    assert |p| == 3 && AllDigits(p);
    assert p[..2][..1] == p[..1] && p[..1][..0] == "";
    assert Value(p) == Value(p[..2]) * 10 + (p[2] as int - '0' as int);
    assert Value(p[..2]) == Value(p[..1]) * 10 + (p[1] as int - '0' as int);
    assert Value(p[..1]) == p[0] as int - '0' as int;
  }

  lemma NoLetters(t: Stamp, w: nat)
    requires Printable(t, w)
    ensures 'T' !in PrintDate(t, w) && '.' !in PrintTime(t)
  {
    hide Pad, Value, Pow10;
    PadDigits(t.y, w);
    PadDigits(t.mo, 2);
    PadDigits(t.d, 2);
    PadDigits(t.h, 2);
    PadDigits(t.mi, 2);
    PadDigits(t.sec, 2);
  }

  lemma CoreReadsBack(t: Stamp, w: nat, frac: Option<string>)
    requires Printable(t, w) && (frac.Some? ==> AllDigits(frac.value))
    ensures ParseCore(PrintDate(t, w) + "T" + PrintTime(t) + Tail(frac)) == Some(t.(ms := FractionMs(frac)))
  {
    hide ParseDate, ParseTime, PrintDate, PrintTime, Millis, FractionMs, SplitOnce, Pow10;
    var tail := Tail(frac);
    NoLetters(t, w);
    assert PrintDate(t, w) + "T" + PrintTime(t) + tail == PrintDate(t, w) + "T" + (PrintTime(t) + tail);
    SplitOnceFinds(PrintDate(t, w), 'T', PrintTime(t) + tail);
    DateReadsBack(t, w);
    TimeReadsBack(t);
    match frac
    case None =>
      assert PrintTime(t) + tail == PrintTime(t);
      SplitOnceMisses(PrintTime(t), '.');
      NoFraction();
    case Some(f) =>
      assert PrintTime(t) + tail == PrintTime(t) + "." + f;
      SplitOnceFinds(PrintTime(t), '.', f);
      MillisReadsBack(f);
  }

  lemma NoFraction()
    ensures FractionMs(None) == 0
  {
  }

  lemma {:induction false} BytesAtLeastScalars(s: string)
    ensures ByteLen(s) >= |s|
  {
    if s != "" {
      BytesAtLeastScalars(s[..|s| - 1]);
    }
  }

  lemma PrintShape(t: Stamp, w: nat, frac: Option<string>)
    requires Printable(t, w)
    ensures var s := Print(t, w, frac);
            |s| >= 20 && s[|s| - 1] == 'Z' && IsDigit(s[0])
            && s[..|s| - 1] == PrintDate(t, w) + "T" + PrintTime(t) + Tail(frac)
  {
    hide Pad, Value, Pow10;
    PadDigits(t.y, w);
    assert Print(t, w, frac)[0] == Pad(t.y, w)[0];
  }

  lemma FractionIsMillis(frac: Option<string>)
    requires frac.Some? ==> AllDigits(frac.value)
    ensures 0 <= FractionMs(frac) < 1000
  {
    if frac.Some? {
      MillisReadsBack(frac.value);
    }
  }

  /**
   Every printed timestamp, with a year of any width, any digits of fraction and any surrounding white space, is read
   back as the very timestamp.
   */
  lemma PrintedIsReadBack(t: Stamp, width: nat, frac: Option<string>, w: string, w': string)
    requires Printable(t, width) && (frac.Some? ==> AllDigits(frac.value)) && Blank(w) && Blank(w')
    ensures ParseRfc3339(w + Print(t, width, frac) + w') == StampMs(t.(ms := FractionMs(frac)))
  {
    hide Print, PrintDate, PrintTime, ParseCore, Trim, StampMs, FractionMs, Blank, Pow10;
    var s := Print(t, width, frac);
    PrintShape(t, width, frac);
    TrimStrips(w, s, w');
    BytesAtLeastScalars(s);
    CoreReadsBack(t, width, frac);
  }

  /** With the four digits of RFC 3339, that is the true number of milliseconds, or a refusal exactly before 1970. */
  lemma TimestampRoundTrip(t: Stamp, frac: Option<string>, w: string, w': string)
    requires Printable(t, 4) && (frac.Some? ==> AllDigits(frac.value)) && Blank(w) && Blank(w')
    ensures var u, r := t.(ms := FractionMs(frac)), ParseRfc3339(w + Print(t, 4, frac) + w');
            if t.y >= 1970 then r.Ms? && r.value == TrueMs(u) else r == Refused
  {
    hide ParseRfc3339, Print, StampMs, FractionMs, TrueMs, Blank, DayCount;
    var u := t.(ms := FractionMs(frac));
    PrintedIsReadBack(t, 4, frac, w, w');
    FractionIsMillis(frac);
    assert Pow10(4) == 10_000;
    StampMsIsTrue(u);
    FourDigitYears(u);
    FourDigitDays(u);
  }

  lemma FourDigitYears(t: Stamp)
    requires 0 <= t.y < 10_000 && ValidStamp(t)
    ensures TrueMs(t) <= I64_MAX && (0 <= TrueMs(t) <==> t.y >= 1970)
  {
    hide DayCount;
    YearBounds(t.y, t.mo, t.d);
  }

  /** A year of four digits stays far within range. */
  lemma FourDigitDays(t: Stamp)
    requires 0 <= t.y < 10_000 && 1 <= t.mo <= 12 && 1 <= t.d <= MonthLength(t.y, t.mo)
    ensures DayInRange(t)
  {
    hide DayCount;
    YearBounds(t.y, t.mo, t.d);
  }

  lemma YearBounds(y: int, m: int, d: int)
    requires 0 <= y < 10_000 && ValidDate(y, m, d)
    ensures -800_000 < DayCount(y, m, d) < 2_932_897 && (0 <= DayCount(y, m, d) <==> y >= 1970)
  {
    hide YearStart, MonthStart, YearLength, MonthLength;
    JanuaryIsFirst(y, m);
    MonthsGrow(y, m, 13);
    YearEndsWithDecember(y);
    YearsGrow(y, 10_000);
    YearZero(y);
    LastYear();
    EpochYear();
    if y < 1970 {
      YearsGrow(y, 1970);
    } else if y > 1970 {
      YearsGrow(1970, y);
      YearLengthPositive(1970);
    }
  }

  lemma YearZero(y: int)
    requires 0 <= y
    ensures YearStart(y) > -800_000
  {
    hide YearStart;
    YearStartIsClosed(y);
  }

  // What is refused.

  /** Text that does not end in `Z`, or is shorter than twenty bytes, is refused: offsets are not understood. */
  lemma OnlyUtcIsRead(text: string)
    requires var s := Trim(text); s == "" || s[|s| - 1] != 'Z' || ByteLen(s) < 20
    ensures ParseRfc3339(text) == Refused
  {
    hide Trim, ByteLen, ParseCore;
  }

  lemma OffsetIsRefused()
    ensures ParseRfc3339("2024-05-01T10:00:00.123+02:00") == Refused
  {
    hide ByteLen, ParseRfc3339, Trim;
    var s := "2024-05-01T10:00:00.123+02:00";
    assert |s| == 29 && s[0] == '2' && s[28] == '0';
    SolidTrims(s);
    OnlyUtcIsRead(s);
  }

  lemma SolidTrims(s: string)
    requires s != "" && !IsWhitespace(s[0]) && !IsWhitespace(s[|s| - 1])
    ensures Trim(s) == s
  {
    assert "" + s + "" == s;
    TrimStrips("", s, "");
  }

  /** Without a `T` between date and time nothing is read. */
  lemma DateAloneIsRefused(s: string)
    requires 'T' !in s
    ensures ParseCore(s) == None
  {
    SplitOnceMisses(s, 'T');
  }

  // A year that overflows.

  lemma {:induction false} NinesArePadded(w: nat)
    ensures Pow10(w) > 0 && Pad(Pow10(w) - 1, w) == seq(w, _ => '9')
  {
    if w > 0 {
      NinesArePadded(w - 1);
      assert (Pow10(w) - 1) / 10 == Pow10(w - 1) - 1 && (Pow10(w) - 1) % 10 == 9;
    }
  }

  lemma SeventeenDigits()
    ensures Pow10(17) == 100_000_000_000_000_000
  {
    assert Pow10(5) == 100_000;
    assert Pow10(9) == 10_000 * Pow10(5);
    assert Pow10(13) == 10_000 * Pow10(9);
  }

  /** A first of January in a year of seventeen nines is well formed, and overflows the date arithmetic. */
  lemma HugeYearOverflows()
    ensures ParseRfc3339("99999999999999999-01-01T00:00:00Z") == Overflow
  {
    hide ParseRfc3339, Pow10, StampMs, DayCount, Pad;
    var t := Stamp(99_999_999_999_999_999, 1, 1, 0, 0, 0, 0);
    SeventeenDigits();
    PrintedIsReadBack(t, 17, None, "", "");
    NoFraction();
    HugePrints(t);
    var s := "99999999999999999-01-01T00:00:00Z";
    assert "" + s + "" == s;
    StampMsIsTrue(t);
    HugeDay();
  }

  lemma HugePrints(t: Stamp)
    requires t == Stamp(99_999_999_999_999_999, 1, 1, 0, 0, 0, 0) && Printable(t, 17)
    ensures Print(t, 17, None) == "99999999999999999-01-01T00:00:00Z"
  {
    hide Pow10, Value, Pad;
    SeventeenDigits();
    NinesArePadded(17);
    assert Pad(t.y, 17) == "99999999999999999";
    TwoDigits();
  }

  lemma TwoDigits()
    ensures Pad(0, 2) == "00" && Pad(1, 2) == "01"
  {
    assert Pad(0, 1) == "0" && Pad(0, 0) == "";
  }

  lemma HugeDay()
    ensures DayCount(99_999_999_999_999_999, 1, 1) > I64_MAX
  {
    hide YearStart;
    YearStartIsClosed(99_999_999_999_999_999);
  }

  lemma YearLengthPositive(y: int)
    ensures YearLength(y) > 0
  {
  }

  lemma EpochYear()
    ensures YearStart(1970) == 0
  {
  }

  lemma LastYear()
    ensures YearStart(10_000) == 2_932_897
  {
    hide YearStart;
    YearStartIsClosed(10_000);
  }
}

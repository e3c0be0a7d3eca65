/**
 The civil-date arithmetic behind RFC 3339 timestamps (crates/monoloop-interpreter/src/claude_stream.rs), against
 a calendar that counts years and months one by one from 1970-01-01.
 */
module Calendar {
  import opened Common

  const I64_MIN: int := -0x8000_0000_0000_0000
  const I64_MAX: int := 0x7FFF_FFFF_FFFF_FFFF

  predicate FitsI64(n: int) { I64_MIN <= n <= I64_MAX }

  /** Division that truncates toward zero. */
  function Quot(a: int, b: int): int
    requires b > 0
  {
    if a >= 0 then a / b else -((-a) / b)
  }

  // The source's arithmetic.

  function MarchYear(y: int, m: int): int { if m <= 2 then y - 1 else y }

  function EraOf(y: int): int { Quot(if y >= 0 then y else y - 399, 400) }

  function DayOfYear(m: int, d: int): int {
    var mp := if m > 2 then m - 3 else m + 9;
    Quot(153 * mp + 2, 5) + d - 1
  }

  function DayOfEra(yoe: int, doy: int): int { yoe * 365 + Quot(yoe, 4) - Quot(yoe, 100) + doy }

  const EPOCH_SHIFT: int := 719_468

  function DaysFromCivil(y: int, m: int, d: int): Option<int> {
    if !(1 <= m <= 12 && 1 <= d <= 31) then None
    else
      var my := MarchYear(y, m);
      var era := EraOf(my);
      Some(era * 146_097 + DayOfEra(my - era * 400, DayOfYear(m, d)) - EPOCH_SHIFT)
  }

  // The reference calendar.

  predicate IsLeap(y: int) { y % 4 == 0 && (y % 100 != 0 || y % 400 == 0) }

  function YearLength(y: int): int { if IsLeap(y) then 366 else 365 }

  function MonthLength(y: int, m: int): int {
    if m == 2 then (if IsLeap(y) then 29 else 28)
    else if m == 4 || m == 6 || m == 9 || m == 11 then 30
    else 31
  }

  predicate ValidDate(y: int, m: int, d: int) { 1 <= m <= 12 && 1 <= d <= MonthLength(y, m) }

  /** Days from 1970-01-01 to the first of January of `y`. */
  function YearStart(y: int): int
    decreases if y >= 1970 then y - 1970 else 1970 - y
  {
    if y == 1970 then 0
    else if y > 1970 then YearStart(y - 1) + YearLength(y - 1)
    else YearStart(y + 1) - YearLength(y)
  }

  /** Days from the first of January to the first of month `m`. */
  function MonthStart(y: int, m: int): int
    requires 1 <= m <= 13
    decreases m
  {
    if m == 1 then 0 else MonthStart(y, m - 1) + MonthLength(y, m - 1)
  }

  /** Days from 1970-01-01 to the given date. */
  function DayCount(y: int, m: int, d: int): int
    requires 1 <= m <= 12
  {
    YearStart(y) + MonthStart(y, m) + d - 1
  }

  function NextDate(y: int, m: int, d: int): (int, int, int) {
    if d < MonthLength(y, m) then (y, m, d + 1)
    else if m < 12 then (y, m + 1, 1)
    else (y + 1, 1, 1)
  }

  // The eras of the source are floors, for negative years as well.

  lemma EraIsFloor(y: int)
    ensures EraOf(y) == y / 400 && 0 <= y - EraOf(y) * 400 < 400
  {
  }

  /** Days before the first of March of year `y`, counted from March of year zero. */
  function MarchStart(y: int): int { 365 * y + y / 4 - y / 100 + y / 400 }

  lemma QuarterCenturies(era: int, yoe: int)
    requires 0 <= yoe < 400
    ensures (era * 400 + yoe) / 4 == era * 100 + yoe / 4
    ensures (era * 400 + yoe) / 100 == era * 4 + yoe / 100
    ensures (era * 400 + yoe) / 400 == era
  {
  }

  lemma EraArithmetic(y: int, doy: int)
    ensures var era := EraOf(y); era * 146_097 + DayOfEra(y - era * 400, doy) == MarchStart(y) + doy
  {
    EraIsFloor(y);
    QuarterCenturies(EraOf(y), y - EraOf(y) * 400);
  }

  lemma CivilIsMarchBased(y: int, m: int, d: int)
    requires 1 <= m <= 12 && 1 <= d <= 31
    ensures DaysFromCivil(y, m, d) == Some(MarchStart(MarchYear(y, m)) + DayOfYear(m, d) - EPOCH_SHIFT)
  {
    hide EraOf, DayOfEra, MarchStart, MarchYear, DayOfYear;
    EraArithmetic(MarchYear(y, m), DayOfYear(m, d));
  }

  lemma FloorSteps(y: int)
    ensures y / 4 - (y - 1) / 4 == if y % 4 == 0 then 1 else 0
    ensures y / 100 - (y - 1) / 100 == if y % 100 == 0 then 1 else 0
    ensures y / 400 - (y - 1) / 400 == if y % 400 == 0 then 1 else 0
  {
  }

  lemma MarchYearLength(y: int)
    ensures MarchStart(y) == MarchStart(y - 1) + YearLength(y)
  {
    FloorSteps(y);
    LeapDivides(y);
  }

  lemma LeapDivides(y: int)
    ensures y % 400 == 0 ==> y % 100 == 0
    ensures y % 100 == 0 ==> y % 4 == 0
  {
  }

  lemma EpochIsZero()
    ensures MarchStart(1969) + 306 == EPOCH_SHIFT
  {
  }

  lemma {:induction false} YearStartIsClosed(y: int)
    ensures YearStart(y) == MarchStart(y - 1) + 306 - EPOCH_SHIFT
    decreases if y >= 1970 then y - 1970 else 1970 - y
  {
    hide MarchStart, YearLength;
    if y == 1970 {
      EpochIsZero();
    } else if y > 1970 {
      YearStartIsClosed(y - 1);
      MarchYearLength(y - 1);
    } else {
      YearStartIsClosed(y + 1);
      MarchYearLength(y);
    }
  }

  lemma MonthTable(y: int, m: int, d: int)
    requires 1 <= m <= 12
    ensures MonthStart(y, m) + d - 1 == if m <= 2 then DayOfYear(m, d) - 306 else DayOfYear(m, d) - 306 + YearLength(y)
  {
    var feb := MonthLength(y, 2);
    assert MonthStart(y, 3) == 31 + feb;
    assert MonthStart(y, 5) == 92 + feb by { assert MonthStart(y, 4) == 62 + feb; }
    assert MonthStart(y, 7) == 153 + feb by { assert MonthStart(y, 6) == 123 + feb; }
    assert MonthStart(y, 9) == 215 + feb by { assert MonthStart(y, 8) == 184 + feb; }
    assert MonthStart(y, 11) == 276 + feb by { assert MonthStart(y, 10) == 245 + feb; }
  }

  /**
   The source counts exactly the days since 1970-01-01: for every month, leap year and era, before and after year
   zero.  It accepts any day up to 31, and then counts on past the end of the month.
   */
  lemma CivilIsDayCount(y: int, m: int, d: int)
    ensures DaysFromCivil(y, m, d).None? <==> !(1 <= m <= 12 && 1 <= d <= 31)
    ensures DaysFromCivil(y, m, d).Some? ==> DaysFromCivil(y, m, d).value == DayCount(y, m, d)
  {
    if 1 <= m <= 12 && 1 <= d <= 31 {
      CivilIsMarchBased(y, m, d);
      ShiftedMonths(y, m, d);
    }
  }

  lemma ShiftedMonths(y: int, m: int, d: int)
    requires 1 <= m <= 12
    ensures DayCount(y, m, d) == MarchStart(MarchYear(y, m)) + DayOfYear(m, d) - EPOCH_SHIFT
  {
    hide MarchStart, DayOfYear, YearLength, YearStart, MonthStart;
    YearStartIsClosed(y);
    MonthTable(y, m, d);
    MarchYearLength(y);
  }

  // Order.

  lemma YearEndsWithDecember(y: int)
    ensures MonthStart(y, 13) == YearLength(y)
  {
    MonthTable(y, 12, 1);
  }

  lemma YearStep(y: int)
    ensures YearStart(y + 1) == YearStart(y) + YearLength(y)
  {
  }

  /** The next date is one day later, across ends of months, years and eras. */
  lemma NextDateIsNextDay(y: int, m: int, d: int)
    requires ValidDate(y, m, d)
    ensures var (y', m', d') := NextDate(y, m, d);
            && ValidDate(y', m', d')
            && DaysFromCivil(y', m', d').Some? && DaysFromCivil(y, m, d).Some?
            && DaysFromCivil(y', m', d').value == DaysFromCivil(y, m, d).value + 1
  {
    hide DaysFromCivil, YearStart, YearLength;
    var (y', m', d') := NextDate(y, m, d);
    CivilIsDayCount(y, m, d);
    CivilIsDayCount(y', m', d');
    if m == 12 {
      YearEndsWithDecember(y);
      YearStep(y);
    }
  }

  lemma {:induction false} MonthsGrow(y: int, m: int, m': int)
    requires 1 <= m < m' <= 13
    ensures MonthStart(y, m) + MonthLength(y, m) <= MonthStart(y, m')
    decreases m'
  {
    if m + 1 < m' {
      MonthsGrow(y, m, m' - 1);
    }
  }

  lemma {:induction false} YearsGrow(y: int, y': int)
    requires y < y'
    ensures YearStart(y) + YearLength(y) <= YearStart(y')
    decreases y' - y
  {
    hide YearStart;
    YearStep(y' - 1);
    if y < y' - 1 {
      YearsGrow(y, y' - 1);
    }
  }

  predicate DateBefore(y: int, m: int, d: int, y': int, m': int, d': int) {
    y < y' || (y == y' && (m < m' || (m == m' && d < d')))
  }

  lemma DatesAreOrdered(y: int, m: int, d: int, y': int, m': int, d': int)
    requires ValidDate(y, m, d) && ValidDate(y', m', d') && DateBefore(y, m, d, y', m', d')
    ensures DayCount(y, m, d) < DayCount(y', m', d')
  {
    hide YearStart, MonthStart, YearLength, MonthLength;
    if y < y' {
      YearsGrow(y, y');
      MonthsGrow(y, m, 13);
      YearEndsWithDecember(y);
      JanuaryIsFirst(y', m');
    } else if m < m' {
      MonthsGrow(y, m, m');
    }
  }

  lemma JanuaryIsFirst(y: int, m: int)
    requires 1 <= m <= 12
    ensures MonthStart(y, m) >= 0
  {
    MonthTable(y, m, 1);
  }

  /** A day past the end of its month names the same day as a date of the next month. */
  lemma PastEndOfMonth(y: int, m: int, d: int)
    requires 1 <= m <= 12 && 1 <= d <= 31
    ensures ValidDate(y, m, d) <==>
            DayCount(y, m, d) < DayCount(NextDate(y, m, 31).0, NextDate(y, m, 31).1, 1)
  {
    hide YearStart, YearLength;
    if m == 12 {
      YearEndsWithDecember(y);
      YearStep(y);
    }
  }

  /** February 30 is taken for the second of March. */
  lemma FebruaryThirtyAliases()
    ensures DaysFromCivil(2023, 2, 30) == DaysFromCivil(2023, 3, 2)
  {
  }

  // Every day has a date.

  lemma {:induction false} EveryDayHasADate(n: int) returns (y: int, m: int, d: int)
    ensures ValidDate(y, m, d) && DaysFromCivil(y, m, d) == Some(n)
    decreases if n >= 0 then n else -n
  {
    hide DaysFromCivil, YearStart, MonthStart;
    if n == 0 {
      y, m, d := 1970, 1, 1;
      EpochDate();
    } else if n > 0 {
      var y0, m0, d0 := EveryDayHasADate(n - 1);
      NextDateIsNextDay(y0, m0, d0);
      var date := NextDate(y0, m0, d0);
      y, m, d := date.0, date.1, date.2;
    } else {
      var y0, m0, d0 := EveryDayHasADate(n + 1);
      y, m, d := if d0 > 1 then y0 else if m0 > 1 then y0 else y0 - 1,
                 if d0 > 1 then m0 else if m0 > 1 then m0 - 1 else 12,
                 if d0 > 1 then d0 - 1 else if m0 > 1 then MonthLength(y0, m0 - 1) else 31;
      NextDateIsNextDay(y, m, d);
    }
  }

  lemma EpochDate()
    ensures DaysFromCivil(1970, 1, 1) == Some(0)
  {
  }

  // Machine integers.

  /** Every intermediate value of `days_from_civil` fits a signed 64-bit integer. */
  predicate StaysInI64(y: int, m: int, d: int) {
    var my := MarchYear(y, m);
    var era := EraOf(my);
    var doe := DayOfEra(my - era * 400, DayOfYear(m, d));
    && FitsI64(my) && FitsI64(if my >= 0 then my else my - 399)
    && FitsI64(era * 400) && FitsI64(my - era * 400)
    && FitsI64(era * 146_097) && FitsI64(era * 146_097 + doe) && FitsI64(era * 146_097 + doe - EPOCH_SHIFT)
  }

  lemma DayOfEraRange(yoe: int, m: int, d: int)
    requires 0 <= yoe < 400 && 1 <= m <= 12 && 1 <= d <= 31
    ensures 0 <= DayOfEra(yoe, DayOfYear(m, d)) < 146_200
  {
  }

  lemma EraRange(my: int)
    requires FitsI64(EraOf(my) * 146_097)
    ensures FitsI64(my) && FitsI64(if my >= 0 then my else my - 399)
    ensures FitsI64(EraOf(my) * 400) && FitsI64(my - EraOf(my) * 400)
  {
    EraIsFloor(my);
  }

  /** The arithmetic stays within 64 bits exactly when the day count does, with the epoch shift to spare above. */
  lemma NoOverflow(y: int, m: int, d: int)
    requires 1 <= m <= 12 && 1 <= d <= 31
    ensures StaysInI64(y, m, d) <==> I64_MIN <= DayCount(y, m, d) <= I64_MAX - EPOCH_SHIFT
  {
    hide MarchYear, EraOf, DayOfEra, DayOfYear, DayCount;
    var my := MarchYear(y, m);
    var era := EraOf(my);
    CivilIsDayCount(y, m, d);
    EraIsFloor(my);
    DayOfEraRange(my - era * 400, m, d);
    if FitsI64(era * 146_097) {
      EraRange(my);
    }
  }
}

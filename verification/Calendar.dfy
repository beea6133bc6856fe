/** The date arithmetic behind EXT-X-PROGRAM-DATE-TIME (crates/hls-server/src/lib.rs),
    against the Gregorian calendar itself. Day 0 is 1970-01-01. */
module Calendar {
  import opened Common

  datatype Date = Date(year: int, month: int, day: int)

  // ---- the calendar ----

  predicate Leap(y: int) { y % 4 == 0 && (y % 100 != 0 || y % 400 == 0) }

  function MonthLength(y: int, m: int): int {
    if m == 2 then (if Leap(y) then 29 else 28)
    else if m == 4 || m == 6 || m == 9 || m == 11 then 30
    else 31
  }

  predicate Valid(t: Date) { 1 <= t.month <= 12 && 1 <= t.day <= MonthLength(t.year, t.month) }

  function NextDay(t: Date): Date {
    if t.day < MonthLength(t.year, t.month) then t.(day := t.day + 1)
    else if t.month < 12 then Date(t.year, t.month + 1, 1)
    else Date(t.year + 1, 1, 1)
  }

  // ---- what the source computes ----

  function YearOfEra(doe: int): int { (doe - doe / 1460 + doe / 36524 - doe / 146096) / 365 }

  /** First day of year `yoe` within its 400-year era; years start on March 1. */
  function YearStart(yoe: int): int { 365 * yoe + yoe / 4 - yoe / 100 + yoe / 400 }

  function MonthStart(mp: int): int { (153 * mp + 2) / 5 }

  function Civil(days: int): Date {
    var z := days + 719_468;
    var era := z / 146_097;
    var doe := z % 146_097;
    var yoe := YearOfEra(doe);
    var doy := doe - (365 * yoe + yoe / 4 - yoe / 100);
    var mp := (5 * doy + 2) / 153;
    var d := doy - MonthStart(mp) + 1;
    var m := if mp < 10 then mp + 3 else mp - 9;
    var y := yoe + era * 400;
    Date(if m <= 2 then y + 1 else y, m, d)
  }

  // ---- the year formula ----

  /** Centuries of 36524 days, then quads of 1461, then years of 365. */
  lemma YearFormula(c: int, q: int, k: int, doy: int)
    requires 0 <= c <= 3 && 0 <= q <= 24 && 0 <= k <= 3 && 0 <= doy <= 365
    requires doy == 365 ==> k == 3 && (q < 24 || c == 3)
    ensures YearOfEra(36_524 * c + 1_461 * q + 365 * k + doy) == 100 * c + 4 * q + k
  {
    var doe := 36_524 * c + 1_461 * q + 365 * k + doy;
    var rest := 24 * c + q + 365 * k + doy;
    assert doe == 1460 * (25 * c + q) + rest;
    assert doe / 1460 == 25 * c + q + rest / 1460;
    assert doe / 36_524 - doe / 146_096 == c;
  }

  /** Every day of an era has such coordinates. */
  lemma Coordinates(doe: int) returns (c: int, q: int, k: int, doy: int)
    requires 0 <= doe < 146_097
    ensures 0 <= c <= 3 && 0 <= q <= 24 && 0 <= k <= 3 && 0 <= doy <= 365
    ensures doy == 365 ==> k == 3 && (q < 24 || c == 3)
    ensures doe == 36_524 * c + 1_461 * q + 365 * k + doy
  {
    c := if doe / 36_524 < 3 then doe / 36_524 else 3;
    var r := doe - 36_524 * c;
    q := r / 1_461;
    var s := r - 1_461 * q;
    k := if s / 365 < 3 then s / 365 else 3;
    doy := s - 365 * k;
  }

  /** The year formula finds the year whose days contain `doe`. */
  lemma YearOfEraCorrect(doe: int)
    requires 0 <= doe < 146_097
    ensures 0 <= YearOfEra(doe) < 400
    ensures YearStart(YearOfEra(doe)) <= doe < YearStart(YearOfEra(doe) + 1)
  {
    hide YearOfEra, Leap;
    var c, q, k, doy := Coordinates(doe);
    YearFormula(c, q, k, doy);
    var y := 100 * c + 4 * q + k;
    assert y / 4 == 25 * c + q && y / 100 == c;
    YearLength(y);
    if k == 3 { assert (y + 1) / 4 == 25 * c + q + 1; }
    if q == 24 && k == 3 { assert (y + 1) / 100 == c + 1; }
  }

  /** A March-based year has 366 days exactly when the February that ends it is long. */
  lemma YearLength(y: int)
    ensures YearStart(y + 1) - YearStart(y) == if Leap(y + 1) then 366 else 365
  {
    CarryOver(y, 4);
    CarryOver(y, 100);
    CarryOver(y, 400);
  }

  lemma CarryOver(y: int, n: int)
    requires n == 4 || n == 100 || n == 400
    ensures (y + 1) / n - y / n == if (y + 1) % n == 0 then 1 else 0
  {}

  lemma {:induction false} YearStartGrows(a: int, b: int)
    requires a <= b
    ensures YearStart(a) <= YearStart(b)
    decreases b - a
  {
    if a < b { YearStartGrows(a, b - 1); YearLength(b - 1); }
  }

  // ---- days within a March-based year ----

  /** The date `doy` days after March 1 of year `y`. */
  function Within(y: int, doy: int): Date {
    var mp := (5 * doy + 2) / 153;
    var m := if mp < 10 then mp + 3 else mp - 9;
    Date(if m <= 2 then y + 1 else y, m, doy - MonthStart(mp) + 1)
  }

  function LengthFrom(y: int): int { if Leap(y + 1) then 366 else 365 }

  lemma WithinValid(y: int, doy: int)
    requires 0 <= doy < LengthFrom(y)
    ensures Valid(Within(y, doy))
  {
    var mp := (5 * doy + 2) / 153;
    assert MonthStart(mp) <= doy < MonthStart(mp + 1) && 0 <= mp <= 11;
  }

  lemma WithinNext(y: int, doy: int)
    requires 0 <= doy < LengthFrom(y)
    ensures NextDay(Within(y, doy)) == if doy + 1 < LengthFrom(y) then Within(y, doy + 1) else Within(y + 1, 0)
  {
    var mp := (5 * doy + 2) / 153;
    assert MonthStart(mp) <= doy < MonthStart(mp + 1) && 0 <= mp <= 11;
    var mp' := (5 * (doy + 1) + 2) / 153;
    assert mp' == if doy + 1 < MonthStart(mp + 1) then mp else mp + 1;
  }

  /** Only one year of the era contains a given day. */
  lemma YearOfEraUnique(doe: int, yoe: int)
    requires 0 <= yoe < 400 && YearStart(yoe) <= doe < YearStart(yoe + 1)
    ensures 0 <= doe < 146_097 && YearOfEra(doe) == yoe
  {
    YearStartGrows(0, yoe);
    YearStartGrows(yoe + 1, 400);
    assert YearStart(0) == 0 && YearStart(400) == 146_097;
    hide YearStart, YearOfEra;
    YearOfEraCorrect(doe);
    if YearOfEra(doe) < yoe { YearStartGrows(YearOfEra(doe) + 1, yoe); }
    if YearOfEra(doe) > yoe { YearStartGrows(yoe + 1, YearOfEra(doe)); }
  }

  lemma EraSplit(era: int, doe: int)
    requires 0 <= doe < 146_097
    ensures (146_097 * era + doe) / 146_097 == era && (146_097 * era + doe) % 146_097 == doe
  {}

  /** The source's result, from the era, year and day it decomposes into. */
  lemma CivilParts(days: int, era: int, yoe: int, doy: int)
    requires 0 <= yoe < 400 && 0 <= doy < YearStart(yoe + 1) - YearStart(yoe)
    requires days + 719_468 == 146_097 * era + YearStart(yoe) + doy
    ensures Civil(days) == Within(yoe + 400 * era, doy)
  {
    hide YearOfEra, MonthStart;
    var doe := YearStart(yoe) + doy;
    YearOfEraUnique(doe, yoe);
    EraSplit(era, doe);
    assert yoe / 400 == 0;
  }

  lemma Decompose(days: int) returns (era: int, yoe: int, doy: int)
    ensures 0 <= yoe < 400 && 0 <= doy < YearStart(yoe + 1) - YearStart(yoe)
    ensures days + 719_468 == 146_097 * era + YearStart(yoe) + doy
    ensures Civil(days) == Within(yoe + 400 * era, doy) && doy < LengthFrom(yoe + 400 * era)
  {
    var z := days + 719_468;
    era := z / 146_097;
    yoe := YearOfEra(z % 146_097);
    doy := z % 146_097 - YearStart(yoe);
    YearOfEraCorrect(z % 146_097);
    CivilParts(days, era, yoe, doy);
    YearLength(yoe);
    LeapRepeats(yoe + 1, era);
  }

  lemma LeapRepeats(y: int, era: int)
    ensures Leap(y + 400 * era) == Leap(y)
  {
    ModRepeats(y, 100 * era, 4);
    ModRepeats(y, 4 * era, 100);
    ModRepeats(y, era, 400);
  }

  lemma ModRepeats(y: int, k: int, n: int)
    requires n == 4 || n == 100 || n == 400
    ensures (y + n * k) % n == y % n
  {}

  // ---- the theorems ----

  /** Day 0 is 1970-01-01, every day is a real date, and each day is the day after the one before. */
  lemma DaysAdvance(days: int)
    ensures Civil(0) == Date(1970, 1, 1)
    ensures Valid(Civil(days))
    ensures Civil(days + 1) == NextDay(Civil(days))
  {
    hide Civil, Within, NextDay, Valid, Leap;
    EpochDate();
    var era, yoe, doy := Decompose(days);
    var y := yoe + 400 * era;
    WithinValid(y, doy);
    WithinNext(y, doy);
    YearLength(yoe);
    LeapRepeats(yoe + 1, era);
    if doy + 1 < LengthFrom(y) {
      CivilParts(days + 1, era, yoe, doy + 1);
    } else if yoe < 399 {
      YearLength(yoe + 1);
      CivilParts(days + 1, era, yoe + 1, 0);
    } else {
      YearLength(0);
      CivilParts(days + 1, era + 1, 0, 0);
    }
  }

  lemma EpochDate()
    ensures Civil(0) == Date(1970, 1, 1)
  {
    assert 719_468 / 146_097 == 4 && 719_468 % 146_097 == 135_080;
    assert YearOfEra(135_080) == 369;
    assert 135_080 - (365 * 369 + 369 / 4 - 369 / 100) == 306;
    assert (5 * 306 + 2) / 153 == 10;
  }

  /** Days before January 1 of year `y`, counted from 1970. */
  function DaysToYear(y: int): int { 365 * (y - 1970) + Leaps(y - 1) - Leaps(1969) }
  function Leaps(y: int): int { y / 4 - y / 100 + y / 400 }

  function DaysToMonth(y: int, m: int): int
    decreases m
  {
    if m <= 1 then 0 else DaysToMonth(y, m - 1) + MonthLength(y, m - 1)
  }

  /** The day number of a date, straight from the calendar's rules. */
  function DayNumber(t: Date): int { DaysToYear(t.year) + DaysToMonth(t.year, t.month) + t.day - 1 }

  lemma YearAdds(y: int)
    ensures DaysToYear(y + 1) - DaysToYear(y) == (if Leap(y) then 366 else 365) == DaysToMonth(y, 13)
  {
    CarryOver(y - 1, 4);
    CarryOver(y - 1, 100);
    CarryOver(y - 1, 400);
    TwelveMonths(y);
    hide DaysToMonth;
  }

  lemma TwelveMonths(y: int)
    ensures DaysToMonth(y, 13) == if Leap(y) then 366 else 365
  {
    hide Leap;
    assert DaysToMonth(y, 4) == DaysToMonth(y, 2) + MonthLength(y, 2) + 31;
    assert DaysToMonth(y, 7) == DaysToMonth(y, 4) + 30 + 31 + 30;
    assert DaysToMonth(y, 10) == DaysToMonth(y, 7) + 31 + 31 + 30;
    assert DaysToMonth(y, 13) == DaysToMonth(y, 10) + 31 + 30 + 31;
  }

  lemma NextDayNumber(t: Date)
    requires Valid(t)
    ensures Valid(NextDay(t)) && DayNumber(NextDay(t)) == DayNumber(t) + 1
  {
    if t.day == MonthLength(t.year, t.month) && t.month == 12 { YearAdds(t.year); }
  }

  /** The date computed for a day is the one whose day number is that day. */
  lemma {:induction false} CivilIsInverse(days: int)
    ensures Valid(Civil(days)) && DayNumber(Civil(days)) == days
    decreases if days < 0 then -days else days
  {
    hide Civil, DayNumber, NextDay;
    DaysAdvance(days);
    if days == 0 {
      assert DayNumber(Date(1970, 1, 1)) == 0 by { EpochIsZero(); }
    } else if days > 0 {
      CivilIsInverse(days - 1);
      DaysAdvance(days - 1);
      NextDayNumber(Civil(days - 1));
    } else {
      CivilIsInverse(days + 1);
      NextDayNumber(Civil(days));
    }
  }

  lemma EpochIsZero()
    ensures DayNumber(Date(1970, 1, 1)) == 0
  {}

  lemma {:induction false} YearsApart(a: int, b: int)
    requires a < b
    ensures DaysToYear(a) + DaysToMonth(a, 13) <= DaysToYear(b)
    decreases b - a
  {
    YearAdds(a);
    if a + 1 < b { YearsApart(a, b - 1); YearAdds(b - 1); }
  }

  lemma {:induction false} MonthsApart(y: int, a: int, b: int)
    requires 1 <= a < b <= 13
    ensures DaysToMonth(y, a) + MonthLength(y, a) <= DaysToMonth(y, b)
    decreases b - a
  {
    if a + 1 < b { MonthsApart(y, a, b - 1); }
  }

  lemma DayNumberOrders(t: Date, u: Date)
    requires Valid(t) && Valid(u)
    requires t.year < u.year || (t.year == u.year && t.month < u.month)
    ensures DayNumber(t) < DayNumber(u)
  {
    if t.year < u.year {
      YearsApart(t.year, u.year);
      MonthsApart(t.year, t.month, 13);
      if u.month > 1 { MonthsApart(u.year, 1, u.month); }
    } else {
      MonthsApart(t.year, t.month, u.month);
    }
  }

  /** Every real date is reached: it is the one computed for its own day number. */
  lemma EveryDateIsReached(t: Date)
    requires Valid(t)
    ensures Civil(DayNumber(t)) == t
  {
    hide Civil;
    var u := Civil(DayNumber(t));
    CivilIsInverse(DayNumber(t));
    if u.year < t.year || (u.year == t.year && u.month < t.month) { DayNumberOrders(u, t); }
    if t.year < u.year || (u.year == t.year && t.month < u.month) { DayNumberOrders(t, u); }
  }

  // ---- the whole timestamp ----

  datatype Stamp = Stamp(date: Date, hour: nat, minute: nat, second: nat, milli: nat)

  function Utc(ms: nat): Stamp {
    var secs := ms / 1000;
    var s := secs % 86_400;
    Stamp(Civil(secs / 86_400), s / 3600, s % 3600 / 60, s % 3600 % 60, ms % 1000)
  }

  /** The fields of a timestamp are in range and name exactly the given millisecond. */
  lemma UtcRoundTrip(ms: nat)
    ensures var t := Utc(ms);
      && Valid(t.date) && t.hour < 24 && t.minute < 60 && t.second < 60 && t.milli < 1000
      && (((DayNumber(t.date) * 24 + t.hour) * 60 + t.minute) * 60 + t.second) * 1000 + t.milli == ms
  {
    hide Civil, DayNumber;
    CivilIsInverse(ms / 1000 / 86_400);
  }
}

/** Calendar arithmetic of the backup freshness task: days since 1970-01-01 from a
    civil date and back, in the proleptic Gregorian calendar.

    The reference is plain counting: `DateAt(n)` walks one day at a time from
    1970-01-01 under the leap-year rule of Appendix C of RFC 3339. */
module Calendar {

  datatype Date = Date(year: int, month: int, day: int)

  // ------------------------------------------------------------------
  // The calendar itself
  // ------------------------------------------------------------------

  predicate IsLeap(year: int) {
    year % 4 == 0 && (year % 100 != 0 || year % 400 == 0)
  }

  function DaysInMonth(year: int, month: int): int {
    if month == 2 then (if IsLeap(year) then 29 else 28)
    else if month == 4 || month == 6 || month == 9 || month == 11 then 30
    else 31
  }

  predicate ValidDate(date: Date) {
    1 <= date.month <= 12 && 1 <= date.day <= DaysInMonth(date.year, date.month)
  }

  const EPOCH := Date(1970, 1, 1)

  function NextDay(date: Date): Date {
    if date.day < DaysInMonth(date.year, date.month) then date.(day := date.day + 1)
    else if date.month < 12 then Date(date.year, date.month + 1, 1)
    else Date(date.year + 1, 1, 1)
  }

  function PreviousDay(date: Date): Date {
    if 1 < date.day then date.(day := date.day - 1)
    else if 1 < date.month then Date(date.year, date.month - 1, DaysInMonth(date.year, date.month - 1))
    else Date(date.year - 1, 12, 31)
  }

  /** The civil date `n` days after 1970-01-01 (before it, when `n` is negative),
      found by stepping one day at a time. */
  function DateAt(n: int): (date: Date)
    ensures ValidDate(date)
    decreases if n < 0 then -n else n
  {
    if n == 0 then EPOCH
    else if 0 < n then NextDay(DateAt(n - 1))
    else PreviousDay(DateAt(n + 1))
  }

  predicate Earlier(a: Date, b: Date) {
    || a.year < b.year
    || (a.year == b.year && a.month < b.month)
    || (a.year == b.year && a.month == b.month && a.day < b.day)
  }

  // ------------------------------------------------------------------
  // The code: Rust's `/` truncates toward zero
  // ------------------------------------------------------------------

  function Quot(a: int, b: int): (q: int)
    requires 0 < b
  {
    if 0 <= a then a / b else -((-a) / b)
  }

  /** Days since 1970-01-01, as the program computes them. It is called with any
      day 1..=31 in any month, so it is total. */
  function DaysFromCivil(date: Date): int {
    var y := if date.month <= 2 then date.year - 1 else date.year;
    var era := Quot(if 0 <= y then y else y - 399, 400);
    var yoe := y - era * 400;
    var doy := Quot(153 * (date.month + if 2 < date.month then -3 else 9) + 2, 5) + date.day - 1;
    var doe := yoe * 365 + Quot(yoe, 4) - Quot(yoe, 100) + doy;
    era * 146097 + doe - 719468
  }

  /** The civil date of a day number, as the program computes it. */
  function CivilFromDays(days: int): Date {
    var z := days + 719468;
    var era := Quot(if 0 <= z then z else z - 146096, 146097);
    CivilOfEraDay(era, z - era * 146097)
  }

  /** The part of `civil_from_days` after the day of the era is known. */
  function CivilOfEraDay(era: int, doe: int): Date {
    var yoe := Quot(doe - Quot(doe, 1460) + Quot(doe, 36524) - Quot(doe, 146096), 365);
    var y := yoe + era * 400;
    var doy := doe - (365 * yoe + Quot(yoe, 4) - Quot(yoe, 100));
    var mp := Quot(5 * doy + 2, 153);
    var d := doy - Quot(153 * mp + 2, 5) + 1;
    var m := if mp < 10 then mp + 3 else mp - 9;
    Date(if m <= 2 then y + 1 else y, m, d)
  }

  // ------------------------------------------------------------------
  // Years that start in March, counted within a 400-year era
  // ------------------------------------------------------------------

  /** The two `if`s around the truncating divisions make them floor. */
  lemma QuotIsFloor(y: int, n: int)
    requires 0 < n
    ensures Quot(if 0 <= y then y else y - (n - 1), n) == y / n
  {
    if y < 0 {
      var q := y / n;
      var r := y % n;
      assert y == n * q + r;
      var t := n - 1 - r;
      assert -(y - (n - 1)) == n * (-q) + t;
      DivUnique(n, -q, t);
    }
  }

  lemma DivUnique(n: int, q: int, r: int)
    requires 0 <= r < n
    ensures (n * q + r) / n == q
  {
    var x := n * q + r;
    var d := x / n - q;
    assert x == n * (q + d) + x % n;
    Distribute(n, q, d);
    if 0 < d {
      MulAtLeast(n, d);
    } else if d < 0 {
      MulAtLeast(n, -d);
    }
  }

  lemma Distribute(n: int, q: int, d: int)
    ensures n * (q + d) == n * q + n * d
  {
  }

  lemma MulAtLeast(n: int, d: int)
    requires 0 < n && 0 < d
    ensures n <= n * d
  {
  }

  /** Days before the March that opens March-year `y`, on the scale whose day 0
      is the first of March of year 0. */
  function MarchDays(y: int): int { 365 * y + y / 4 - y / 100 + y / 400 }

  /** Day of the March-year, counted from 0, of a month and day. */
  function MarchDoy(month: int, day: int): int
  {
    var mp := month + if 2 < month then -3 else 9;
    (153 * mp + 2) / 5 + day - 1
  }

  function MarchYear(date: Date): int { if date.month <= 2 then date.year - 1 else date.year }

  lemma DaysFromCivilIsMarchCount(date: Date)
    requires 1 <= date.month <= 12
    ensures DaysFromCivil(date) == MarchDays(MarchYear(date)) + MarchDoy(date.month, date.day) - 719468
  {
    var y := MarchYear(date);
    QuotIsFloor(y, 400);
    var era := y / 400;
    var yoe := y - era * 400;
    assert 0 <= yoe < 400;
    assert y / 4 == 100 * era + yoe / 4;
    assert y / 100 == 4 * era + yoe / 100;
  }

  lemma MarchYearLength(y: int)
    ensures MarchDays(y + 1) - MarchDays(y) == if IsLeap(y + 1) then 366 else 365
  {
    StepDiv(y, 4);
    StepDiv(y, 100);
    StepDiv(y, 400);
  }

  lemma StepDiv(y: int, n: int)
    requires 1 < n
    ensures (y + 1) / n - y / n == if (y + 1) % n == 0 then 1 else 0
  {
    var q := y / n;
    var r := y % n;
    assert y == n * q + r;
    if r + 1 < n {
      DivUnique(n, q, r + 1);
    } else {
      assert y + 1 == n * (q + 1);
      DivUnique(n, q + 1, 0);
    }
  }

  // ------------------------------------------------------------------
  // One day later is one more
  // ------------------------------------------------------------------

  lemma NextDayCountsOne(date: Date)
    requires ValidDate(date)
    ensures ValidDate(NextDay(date))
    ensures DaysFromCivil(NextDay(date)) == DaysFromCivil(date) + 1
  {
    var next := NextDay(date);
    DaysFromCivilIsMarchCount(date);
    DaysFromCivilIsMarchCount(next);
    if date.month == 2 && date.day == DaysInMonth(date.year, 2) {
      MarchYearLength(date.year - 1);
      assert MarchDoy(3, 1) == 0 && MarchDoy(2, date.day) == 336 + date.day;
    } else {
      assert MarchYear(next) == MarchYear(date);
      NextDoy(date);
    }
  }

  lemma NextDoy(date: Date)
    requires ValidDate(date)
    requires !(date.month == 2 && date.day == DaysInMonth(date.year, 2))
    ensures MarchDoy(NextDay(date).month, NextDay(date).day) == MarchDoy(date.month, date.day) + 1
  {
  }

  lemma PreviousThenNext(date: Date)
    requires ValidDate(date)
    ensures ValidDate(PreviousDay(date))
    ensures NextDay(PreviousDay(date)) == date
  {
  }

  // ------------------------------------------------------------------
  // CivilFromDays undoes DaysFromCivil
  // ------------------------------------------------------------------

  /** The day, within its 400-year era, of a month and day of March-year `yoe` of the era. */
  function EraDay(yoe: int, doy: int): int { 365 * yoe + yoe / 4 - yoe / 100 + doy }

  /** The year-of-era formula recovers the March-year from a day of the era. */
  lemma YearOfEra(yoe: int, doy: int)
    requires 0 <= yoe < 400
    requires 0 <= doy < if IsLeap(yoe + 1) then 366 else 365
    ensures
      var doe := EraDay(yoe, doy);
      0 <= doe < 146097 && (doe - doe / 1460 + doe / 36524 - doe / 146096) / 365 == yoe
  {
    var c := yoe / 100;
    var q := yoe % 100 / 4;
    var r := yoe % 4;
    assert yoe == 100 * c + 4 * q + r;
    assert yoe / 4 == 25 * c + q;
    assert doy == 365 ==> r == 3 && (q == 24 ==> c == 3);
    YearOfParts(c, q, r, doy);
  }

  lemma YearOfParts(c: int, q: int, r: int, doy: int)
    requires 0 <= c < 4 && 0 <= q < 25 && 0 <= r < 4 && 0 <= doy <= 365
    requires doy == 365 ==> r == 3 && (q == 24 ==> c == 3)
    ensures
      var doe := 36524 * c + 1461 * q + 365 * r + doy;
      && 0 <= doe < 146097
      && (doe - doe / 1460 + doe / 36524 - doe / 146096) / 365 == 100 * c + 4 * q + r
  {
    var doe := 36524 * c + 1461 * q + 365 * r + doy;
    CenturyOfEra(c, 1461 * q + 365 * r + doy);
    var t := 24 * c + q + 365 * r + doy;
    var b := if t < 1460 then 0 else 1;
    DivUnique(1460, 25 * c + q + b, t - 1460 * b);
    DivUnique(365, 100 * c + 4 * q + r, doy - b);
  }

  lemma CenturyOfEra(c: int, rest: int)
    requires 0 <= c < 4 && 0 <= rest <= 36524
    requires rest == 36524 ==> c == 3
    ensures
      var doe := 36524 * c + rest;
      0 <= doe < 146097 && doe / 36524 - doe / 146096 == c
  {
    if rest < 36524 {
      DivUnique(36524, c, rest);
      DivUnique(146096, 0, 36524 * c + rest);
    }
  }

  lemma MonthAndDayOfDoy(month: int, day: int)
    requires 1 <= month <= 12 && 1 <= day
    requires day <= if month == 2 then 29 else DaysInMonth(1, month)
    ensures
      var doy := MarchDoy(month, day);
      var mp := (5 * doy + 2) / 153;
      && 0 <= doy <= 365
      && mp == month + (if 2 < month then -3 else 9)
      && doy - (153 * mp + 2) / 5 + 1 == day
  {
    var doy := MarchDoy(month, day);
    var mp := month + if 2 < month then -3 else 9;
    DivUnique(153, mp, 5 * doy + 2 - 153 * mp);
  }

  /** The March-year day of a valid date, with the facts the code's formulas need. */
  lemma MarchPlace(date: Date) returns (yoe: int, era: int, doy: int)
    requires ValidDate(date)
    ensures 0 <= yoe < 400 && MarchYear(date) == yoe + 400 * era
    ensures doy == MarchDoy(date.month, date.day)
    ensures 0 <= doy < if IsLeap(yoe + 1) then 366 else 365
  {
    era, yoe := MarchYear(date) / 400, MarchYear(date) % 400;
    doy := MarchDoy(date.month, date.day);
    LeapByEra(MarchYear(date) + 1, era);
    LeapDayIsLast(date);
  }

  lemma LeapDayIsLast(date: Date)
    requires ValidDate(date)
    ensures 0 <= MarchDoy(date.month, date.day) < if IsLeap(MarchYear(date) + 1) then 366 else 365
  {
  }

  lemma EraDayRecovered(date: Date) returns (era: int, doe: int)
    requires ValidDate(date)
    ensures 0 <= doe < 146097 && CivilOfEraDay(era, doe) == date
    ensures doe == EraDay(MarchYear(date) - 400 * era, MarchDoy(date.month, date.day))
    ensures 0 <= MarchYear(date) - 400 * era < 400
  {
    var yoe, doy;
    yoe, era, doy := MarchPlace(date);
    doe := EraDay(yoe, doy);
    YearOfEra(yoe, doy);
    MonthAndDayOfDoy(date.month, date.day);
    KnownEraDay(era, yoe, doy, date.month, date.day);
  }

  lemma MarchDaysByEra(y: int, era: int)
    requires 0 <= y - 400 * era < 400
    ensures MarchDays(y) == 146097 * era + EraDay(y - 400 * era, 0)
  {
    var yoe := y - 400 * era;
    assert y / 400 == era;
    assert y / 4 == 100 * era + yoe / 4;
    assert y / 100 == 4 * era + yoe / 100;
  }

  lemma CivilByEra(days: int, era: int, doe: int)
    requires 0 <= doe < 146097 && days + 719468 == 146097 * era + doe
    ensures CivilFromDays(days) == CivilOfEraDay(era, doe)
  {
    EraOfDay(days + 719468, era, doe);
  }

  lemma CountByEra(date: Date, era: int)
    requires 1 <= date.month <= 12 && 0 <= MarchYear(date) - 400 * era < 400
    ensures DaysFromCivil(date) + 719468
            == 146097 * era + EraDay(MarchYear(date) - 400 * era, MarchDoy(date.month, date.day))
  {
    DaysFromCivilIsMarchCount(date);
    MarchDaysByEra(MarchYear(date), era);
  }

  /** `civil_from_days` is a left inverse of `days_from_civil`. */
  lemma CivilOfDays(date: Date)
    requires ValidDate(date)
    ensures CivilFromDays(DaysFromCivil(date)) == date
  {
    var era, doe := EraDayRecovered(date);
    CountByEra(date, era);
    CivilByEra(DaysFromCivil(date), era, doe);
  }

  lemma EraOfDay(z: int, era: int, doe: int)
    requires 0 <= doe < 146097 && z == 146097 * era + doe
    ensures Quot(if 0 <= z then z else z - 146096, 146097) == era
    ensures z - era * 146097 == doe
  {
    QuotIsFloor(z, 146097);
    DivUnique(146097, era, doe);
  }

  /** What the code returns for a day of an era whose March-year and month place are known. */
  lemma KnownEraDay(era: int, yoe: int, doy: int, month: int, day: int)
    requires 0 <= yoe < 400 && 1 <= month <= 12
    requires
      var doe := EraDay(yoe, doy);
      0 <= doe < 146097 && (doe - doe / 1460 + doe / 36524 - doe / 146096) / 365 == yoe
    requires
      var mp := (5 * doy + 2) / 153;
      && 0 <= doy
      && mp == month + (if 2 < month then -3 else 9)
      && doy - (153 * mp + 2) / 5 + 1 == day
    ensures CivilOfEraDay(era, EraDay(yoe, doy)) == Date(if month <= 2 then yoe + 400 * era + 1 else yoe + 400 * era, month, day)
  {
    QuotsOfEra(EraDay(yoe, doy));
  }

  lemma LeapByEra(y: int, era: int)
    ensures IsLeap(y) == IsLeap(y - 400 * era)
  {
    var w := y - 400 * era;
    assert y % 4 == w % 4;
    assert y % 100 == w % 100 by { ModByEra(w, 100, 4 * era); }
    assert y % 400 == w % 400 by { ModByEra(w, 400, era); }
  }

  lemma ModByEra(w: int, n: int, k: int)
    requires 0 < n
    ensures (w + n * k) % n == w % n
  {
    var q := w / n;
    var r := w % n;
    assert w + n * k == n * (q + k) + r;
    DivUnique(n, q + k, r);
  }

  /** On a day of the era every truncating division is an ordinary one. */
  lemma QuotsOfEra(doe: int)
    requires 0 <= doe < 146097
    ensures Quot(doe, 1460) == doe / 1460
    ensures Quot(doe, 36524) == doe / 36524
    ensures Quot(doe, 146096) == doe / 146096
    ensures 0 <= doe - doe / 1460 + doe / 36524 - doe / 146096
  {
  }

  // ------------------------------------------------------------------
  // Main results: both functions are counting
  // ------------------------------------------------------------------

  /** Counting: the day number of the date reached by `n` single-day steps is `n`. */
  lemma {:induction false} DaysOfDateAt(n: int)
    ensures DaysFromCivil(DateAt(n)) == n
    decreases if n < 0 then -n else n
  {
    if 0 < n {
      DaysOfDateAt(n - 1);
      NextDayCountsOne(DateAt(n - 1));
    } else if n < 0 {
      DaysOfDateAt(n + 1);
      PreviousThenNext(DateAt(n + 1));
      NextDayCountsOne(DateAt(n));
    }
  }

  /** `civil_from_days` finds, for every integer, the date that counting finds. */
  lemma CivilFromDaysCounts(n: int)
    ensures CivilFromDays(n) == DateAt(n)
  {
    DaysOfDateAt(n);
    CivilOfDays(DateAt(n));
  }

  /** The two functions are mutually inverse between all integers and all valid dates. */
  lemma MutuallyInverse(n: int, date: Date)
    ensures ValidDate(CivilFromDays(n)) && DaysFromCivil(CivilFromDays(n)) == n
    ensures ValidDate(date) <==> CivilFromDays(DaysFromCivil(date)) == date
  {
    CivilFromDaysCounts(n);
    DaysOfDateAt(n);
    CivilFromDaysCounts(DaysFromCivil(date));
    if ValidDate(date) {
      CivilOfDays(date);
    }
  }

  lemma EarlierCountsLess(a: Date, b: Date)
    requires ValidDate(a) && ValidDate(b) && Earlier(a, b)
    ensures DaysFromCivil(a) < DaysFromCivil(b)
  {
    var ya, yb := MarchYear(a), MarchYear(b);
    LeapDayIsLast(a);
    LeapDayIsLast(b);
    if ya < yb {
      MarchYearLength(ya);
      MarchDaysMonotone(ya + 1, yb);
    } else {
      assert ya == yb;
      DoyOrder(a, b);
    }
    DaysFromCivilIsMarchCount(a);
    DaysFromCivilIsMarchCount(b);
  }

  lemma DoyOrder(a: Date, b: Date)
    requires ValidDate(a) && ValidDate(b) && Earlier(a, b) && MarchYear(a) == MarchYear(b)
    ensures MarchDoy(a.month, a.day) < MarchDoy(b.month, b.day)
  {
  }

  lemma {:induction false} MarchDaysMonotone(y: int, z: int)
    requires y <= z
    ensures MarchDays(y) <= MarchDays(z)
    decreases z - y
  {
    if y < z {
      MarchYearLength(y);
      MarchDaysMonotone(y + 1, z);
    }
  }

  /** Calendar order and day numbers agree, both ways. */
  lemma StrictlyMonotone(a: Date, b: Date)
    requires ValidDate(a) && ValidDate(b)
    ensures Earlier(a, b) <==> DaysFromCivil(a) < DaysFromCivil(b)
  {
    if Earlier(a, b) {
      EarlierCountsLess(a, b);
    } else if a != b {
      EarlierCountsLess(b, a);
    }
  }
}

/**
 Time values and the recurring schedule, in UTC: milliseconds since 1970 split into year, month and day
 as section 21.4.1 of ECMA-262 lays down.
 */
module Calendar {

  const MS_PER_DAY: int := 86400000

  function Day(t: int): int { t / MS_PER_DAY }

  function TimeWithinDay(t: int): int { t % MS_PER_DAY }

  predicate Leap(y: int) {
    y % 4 == 0 && (y % 100 != 0 || y % 400 == 0)
  }

  function DayFromYear(y: int): int {
    365 * (y - 1970) + (y - 1969) / 4 - (y - 1901) / 100 + (y - 1601) / 400
  }

  lemma LeapsBy4(y: int)
    ensures (y - 1968) / 4 == (y - 1969) / 4 + if y % 4 == 0 then 1 else 0
  {
  }

  lemma LeapsBy100(y: int)
    ensures (y - 1900) / 100 == (y - 1901) / 100 + if y % 100 == 0 then 1 else 0
  {
  }

  lemma LeapsBy400(y: int)
    ensures (y - 1600) / 400 == (y - 1601) / 400 + if y % 400 == 0 then 1 else 0
  {
  }

  lemma Multiples(y: int)
    ensures y % 400 == 0 ==> y % 100 == 0
    ensures y % 100 == 0 ==> y % 4 == 0
  {
  }

  lemma YearLength(y: int)
    ensures DayFromYear(y + 1) - DayFromYear(y) == if Leap(y) then 366 else 365
  {
    LeapsBy4(y);
    LeapsBy100(y);
    LeapsBy400(y);
    Multiples(y);
    assert y + 1 - 1969 == y - 1968 && y + 1 - 1901 == y - 1900 && y + 1 - 1601 == y - 1600;
  }

  function YearAbove(day: int, y: int): (r: int)
    requires DayFromYear(y) <= day
    ensures DayFromYear(r) <= day < DayFromYear(r + 1)
    decreases day - DayFromYear(y)
  {
    YearLength(y);
    if day >= DayFromYear(y + 1) then YearAbove(day, y + 1) else y
  }

  function YearBelow(day: int, y: int): (r: int)
    requires day < DayFromYear(y + 1)
    ensures DayFromYear(r) <= day < DayFromYear(r + 1)
    decreases DayFromYear(y + 1) - day
  {
    YearLength(y);
    if day < DayFromYear(y) then YearBelow(day, y - 1) else y
  }

  /** The year that holds a day. */
  function YearFromDay(day: int): (r: int)
    ensures DayFromYear(r) <= day < DayFromYear(r + 1)
  {
    if day >= 0 then YearAbove(day, 1970) else YearBelow(day, 1969)
  }

  function MonthLength(y: int, m: int): (n: int)
    requires 0 <= m < 12
    ensures 28 <= n <= 31
  {
    if m == 1 then (if Leap(y) then 29 else 28)
    else if m == 3 || m == 5 || m == 8 || m == 10 then 30 else 31
  }

  /** Days of the year before the first of month m; month 12 is the next January. */
  function MonthStart(y: int, m: int): (d: int)
    requires 0 <= m <= 12
    ensures d >= 0 && (m == 12 ==> d == if Leap(y) then 366 else 365)
  {
    var leap := if Leap(y) then 1 else 0;
    [0, 31, 59 + leap, 90 + leap, 120 + leap, 151 + leap, 181 + leap, 212 + leap, 243 + leap, 273 + leap, 304 + leap, 334 + leap, 365 + leap][m]
  }

  lemma MonthStep(y: int, m: int)
    requires 0 <= m < 12
    ensures MonthStart(y, m + 1) == MonthStart(y, m) + MonthLength(y, m)
  {
  }

  function MonthAbove(y: int, inYear: int, m: int): (r: int)
    requires 0 <= m < 12 && MonthStart(y, m) <= inYear < MonthStart(y, 12)
    ensures 0 <= r < 12 && MonthStart(y, r) <= inYear < MonthStart(y, r + 1)
    decreases 12 - m
  {
    if inYear < MonthStart(y, m + 1) then m else MonthAbove(y, inYear, m + 1)
  }

  /** Month 0 to 11 and date 1 to 31. */
  datatype Date = Date(year: int, month: int, date: int)

  predicate Real(c: Date) {
    0 <= c.month < 12 && 1 <= c.date <= MonthLength(c.year, c.month)
  }

  function DateOf(day: int): (c: Date)
    ensures Real(c)
  {
    var y := YearFromDay(day);
    YearLength(y);
    var m := MonthAbove(y, day - DayFromYear(y), 0);
    MonthStep(y, m);
    Date(y, m, day - DayFromYear(y) - MonthStart(y, m) + 1)
  }

  /** MakeDay, which lets a month or date run over. */
  function MakeDay(year: int, month: int, date: int): int {
    var y, m := year + month / 12, month % 12;
    DayFromYear(y) + MonthStart(y, m) + date - 1
  }

  /** setMonth(getMonth() + 1) */
  function NextMonth(t: int): int {
    var c := DateOf(Day(t));
    MakeDay(c.year, c.month + 1, c.date) * MS_PER_DAY + TimeWithinDay(t)
  }

  lemma DateOfDay(day: int)
    ensures var c := DateOf(day); MakeDay(c.year, c.month, c.date) == day
  {
    hide MonthStart, DayFromYear, MonthLength, YearFromDay, MonthAbove;
    var c := DateOf(day);
    assert c.month / 12 == 0 && c.month % 12 == c.month;
  }

  lemma {:induction false} YearsAscend(y: int, z: int)
    requires y < z
    ensures DayFromYear(y + 1) <= DayFromYear(z)
    decreases z - y
  {
    if y + 1 < z {
      YearsAscend(y, z - 1);
      YearLength(z - 1);
    }
  }

  lemma {:induction false} MonthsAscend(y: int, m: int, n: int)
    requires 0 <= m < n <= 12
    ensures MonthStart(y, m + 1) <= MonthStart(y, n)
  {
  }

  /** Every real date is the date of its own day, so the split is exact in both directions. */
  lemma DayOfDate(c: Date)
    requires Real(c)
    ensures DateOf(MakeDay(c.year, c.month, c.date)) == c
  {
    hide MonthStart, DayFromYear, Leap;
    var day := MakeDay(c.year, c.month, c.date);
    assert c.month / 12 == 0 && c.month % 12 == c.month;
    var d := DateOf(day);
    YearLength(c.year);
    MonthStep(c.year, c.month);
    if c.month < 11 { MonthsAscend(c.year, c.month, 12); }
    assert DayFromYear(c.year) <= day < DayFromYear(c.year + 1);
    if d.year < c.year { YearsAscend(d.year, c.year); }
    if c.year < d.year { YearsAscend(c.year, d.year); }
    assert d.year == c.year;
    if d.month < c.month { MonthsAscend(c.year, d.month, c.month); MonthStep(c.year, d.month); }
    if c.month < d.month { MonthsAscend(c.year, c.month, d.month); MonthStep(c.year, d.month); }
  }

  /** A day in the month after c's, counted from c's first. */
  lemma OneMonthOn(c: Date)
    requires Real(c)
    ensures MakeDay(c.year, c.month + 1, c.date) == MakeDay(c.year, c.month, c.date) + MonthLength(c.year, c.month)
  {
    hide MonthStart, DayFromYear, MonthLength;
    assert c.month / 12 == 0 && c.month % 12 == c.month;
    MonthStep(c.year, c.month);
    if c.month == 11 {
      YearLength(c.year);
      assert MonthStart(c.year + 1, 0) == 0 by { FirstMonth(c.year + 1); }
    } else {
      assert (c.month + 1) / 12 == 0 && (c.month + 1) % 12 == c.month + 1;
    }
  }

  lemma FirstMonth(y: int)
    ensures MonthStart(y, 0) == 0
  {
  }

  lemma SplitDay(day: int, rest: int)
    requires 0 <= rest < MS_PER_DAY
    ensures Day(day * MS_PER_DAY + rest) == day
  {
  }

  /** A monthly advance is exactly the length of the current month. */
  lemma MonthlyAdvance(t: int)
    ensures var c := DateOf(Day(t)); NextMonth(t) == t + MonthLength(c.year, c.month) * 86_400_000
  {
    hide DateOf, MakeDay, MonthLength;
    var c := DateOf(Day(t));
    DateOfDay(Day(t));
    OneMonthOn(c);
  }

  /** The calendar is the one in use: the epoch, a leap day, and one that the century rule takes away. */
  lemma KnownDays()
    ensures DateOf(Day(0)) == Date(1970, 0, 1)
    ensures DateOf(Day(1_709_164_800_000)) == Date(2024, 1, 29)
    ensures DateOf(Day(4_107_542_400_000)) == Date(2100, 2, 1)
    ensures DateOf(Day(-1)) == Date(1969, 11, 31)
  {
    hide DateOf, DayFromYear, MonthStart;
    DayOfDate(Date(1970, 0, 1));
    DayOfDate(Date(2024, 1, 29));
    DayOfDate(Date(2100, 2, 1));
    DayOfDate(Date(1969, 11, 31));
    KnownYears();
    KnownMonths();
    assert (1969 + 11 / 12, 11 % 12) == (1969, 11);
  }

  lemma KnownYears()
    ensures DayFromYear(1969) == -365 && DayFromYear(1970) == 0 && DayFromYear(2024) == 19723 && DayFromYear(2100) == 47482
  {
  }

  lemma KnownMonths()
    ensures MonthStart(1970, 0) == 0 && MonthStart(2024, 1) == 31 && MonthStart(2100, 2) == 59 && MonthStart(1969, 11) == 334
  {
  }

  lemma NextDate(c: Date)
    requires Real(c)
    ensures var y, m := if c.month == 11 then c.year + 1 else c.year, (c.month + 1) % 12;
      DateOf(MakeDay(c.year, c.month + 1, c.date)) ==
        if c.date <= MonthLength(y, m) then Date(y, m, c.date) else Date(y, m + 1, c.date - MonthLength(y, m))
  {
    hide MonthStart, DayFromYear, DateOf;
    var y, m := if c.month == 11 then c.year + 1 else c.year, (c.month + 1) % 12;
    assert (c.month + 1) / 12 == (if c.month == 11 then 1 else 0) && m / 12 == 0 && m % 12 == m;
    if c.date <= MonthLength(y, m) {
      DayOfDate(Date(y, m, c.date));
    } else {
      MonthStep(y, m);
      assert (m + 1) / 12 == 0 && (m + 1) % 12 == m + 1;
      DayOfDate(Date(y, m + 1, c.date - MonthLength(y, m)));
    }
  }

  /** It keeps the date when the next month has one, and otherwise skips into the month after. */
  lemma DateAfterAdvance(t: int)
    ensures var c := DateOf(Day(t));
      var y, m := if c.month == 11 then c.year + 1 else c.year, (c.month + 1) % 12;
      DateOf(Day(NextMonth(t))) ==
        if c.date <= MonthLength(y, m) then Date(y, m, c.date) else Date(y, m + 1, c.date - MonthLength(y, m))
  {
    hide DateOf, MakeDay, Day, MonthLength;
    var c := DateOf(Day(t));
    SplitDay(MakeDay(c.year, c.month + 1, c.date), TimeWithinDay(t));
    NextDate(c);
  }

  datatype Frequency = Daily | Weekly | Monthly | Other

  function Period(f: Frequency): (ms: int)
    ensures ms > 0
  {
    match f
    case Daily => 24 * 60 * 60 * 1000
    case Weekly => 7 * 24 * 60 * 60 * 1000
    case _ => 30 * 24 * 60 * 60 * 1000
  }

  function Advance(next: int, f: Frequency): int {
    if f == Monthly then NextMonth(next) else next + Period(f)
  }

  function AdvanceBy(start: int, f: Frequency, n: nat): int {
    if n == 0 then start else Advance(AdvanceBy(start, f, n - 1), f)
  }

  /** The least an advance can be. */
  function Step(f: Frequency): (ms: int)
    ensures ms > 0
  {
    if f == Monthly then 28 * MS_PER_DAY else Period(f)
  }

  /** n times s, by repeated addition. */
  function Times(n: nat, s: int): int {
    if n == 0 then 0 else Times(n - 1, s) + s
  }

  lemma {:induction false} TimesIsProduct(n: nat, s: int)
    ensures Times(n, s) == n * s
  {
    if n > 0 {
      TimesIsProduct(n - 1, s);
      assert (n - 1) * s + s == n * s;
    }
  }

  lemma {:induction false} AdvanceByBetween(start: int, f: Frequency, n: nat, least: int, most: int)
    requires forall t :: t + least <= Advance(t, f) <= t + most
    ensures start + Times(n, least) <= AdvanceBy(start, f, n) <= start + Times(n, most)
    decreases n
  {
    hide Advance, DateOf, Day, MakeDay, DayFromYear, MonthStart, MonthLength, YearFromDay, NextMonth, Leap, Period, Step;
    if n > 0 {
      AdvanceByBetween(start, f, n - 1, least, most);
    }
  }

  lemma AdvanceByAtLeast(start: int, f: Frequency, n: nat)
    ensures AdvanceBy(start, f, n) >= start + n * Step(f)
    ensures f == Daily ==> AdvanceBy(start, f, n) == start + n * 86_400_000
    ensures f == Weekly ==> AdvanceBy(start, f, n) == start + n * 604_800_000
    ensures f == Other ==> AdvanceBy(start, f, n) == start + n * 2_592_000_000
    ensures f == Monthly ==> start + n * 2_419_200_000 <= AdvanceBy(start, f, n) <= start + n * 2_678_400_000
  {
    hide AdvanceBy, Times, Step, Advance;
    var most := if f == Monthly then 31 * MS_PER_DAY else Step(f);
    forall t ensures t + Step(f) <= Advance(t, f) <= t + most { AdvanceBounds(t, f); }
    AdvanceByBetween(start, f, n, Step(f), most);
    TimesIsProduct(n, Step(f));
    TimesIsProduct(n, most);
    StepLengths(f);
  }

  lemma StepLengths(f: Frequency)
    ensures Step(f) == match f case Daily => 86_400_000 case Weekly => 604_800_000 case Monthly => 2_419_200_000 case Other => 2_592_000_000
    ensures Period(f) == match f case Daily => 86_400_000 case Weekly => 604_800_000 case Monthly => 2_592_000_000 case Other => 2_592_000_000
  {
  }

  lemma AdvanceBounds(t: int, f: Frequency)
    ensures Advance(t, f) >= t + Step(f)
    ensures f != Monthly ==> Advance(t, f) == t + Step(f)
    ensures f == Monthly ==> Advance(t, f) <= t + 31 * MS_PER_DAY
  {
    if f == Monthly {
      hide DateOf, Day;
      MonthlyAdvance(t);
    }
  }
}

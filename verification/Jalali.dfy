/** Gregorian to Jalali dates (internal/bot/util.go).  The Gregorian leap rule is
    that of section 3.2.1 of ISO 8601:2004; the Jalali calendar is the 33-year cycle that
    the arithmetic of the conversion implies. */
module Jalali {

  datatype Date = Date(year: int, month: int, day: int)

  // ----- The two calendars -----

  predicate GregorianLeap(y: int) {
    y % 4 == 0 && (y % 100 != 0 || y % 400 == 0)
  }

  function GregorianMonthLength(y: int, m: int): int {
    if m == 2 then (if GregorianLeap(y) then 29 else 28)
    else if m == 4 || m == 6 || m == 9 || m == 11 then 30
    else 31
  }

  predicate ValidGregorian(d: Date) {
    1 <= d.month <= 12 && 1 <= d.day <= GregorianMonthLength(d.year, d.month)
  }

  function NextGregorian(d: Date): Date {
    if d.day < GregorianMonthLength(d.year, d.month) then d.(day := d.day + 1)
    else if d.month < 12 then Date(d.year, d.month + 1, 1)
    else Date(d.year + 1, 1, 1)
  }

  /** Position of a Jalali year in its 33-year cycle, which starts at year -1595. */
  function CycleYear(y: int): int {
    (y + 1595) % 33
  }

  /** Every fourth year of a cycle from its first is leap, except its last. */
  predicate JalaliLeap(y: int) {
    CycleYear(y) % 4 == 0 && CycleYear(y) != 32
  }

  function JalaliMonthLength(y: int, m: int): int {
    if m <= 6 then 31 else if m <= 11 || JalaliLeap(y) then 30 else 29
  }

  predicate ValidJalali(d: Date) {
    1 <= d.month <= 12 && 1 <= d.day <= JalaliMonthLength(d.year, d.month)
  }

  function NextJalali(d: Date): Date {
    if d.day < JalaliMonthLength(d.year, d.month) then d.(day := d.day + 1)
    else if d.month < 12 then Date(d.year, d.month + 1, 1)
    else Date(d.year + 1, 1, 1)
  }

  // ----- The conversion -----

  const GDM: seq<int> := [0, 31, 59, 90, 120, 151, 181, 212, 243, 273, 304, 334]

  /** Go's integer division truncates toward zero. */
  function GoDiv(n: int, d: int): int
    requires d > 0
  {
    if n >= 0 then n / d else -((-n) / d)
  }

  function LeapDays(y: int): int {
    GoDiv(y + 3, 4) - GoDiv(y + 99, 100) + GoDiv(y + 399, 400)
  }

  /** The day number of a Gregorian date, as the conversion computes it. */
  function DayNumber(d: Date): int
    requires 1 <= d.month <= 12
  {
    var gy2 := if d.month > 2 then d.year + 1 else d.year;
    355666 + 365 * d.year + LeapDays(gy2) + d.day + GDM[d.month - 1]
  }

  /** The Jalali date of a day number that is not negative. */
  function JalaliOf(n: int): Date {
    var inCycle := n % 12053;
    var inGroup := inCycle % 1461;
    var year := -1595 + 33 * (n / 12053) + 4 * (inCycle / 1461) + (if inGroup > 365 then (inGroup - 1) / 365 else 0);
    DayOfYear(year, if inGroup > 365 then (inGroup - 1) % 365 else inGroup)
  }

  /** The date `r` days after the start of a Jalali year. */
  function DayOfYear(y: int, r: int): Date {
    if r < 186 then Date(y, 1 + r / 31, 1 + r % 31) else Date(y, 7 + (r - 186) / 30, 1 + (r - 186) % 30)
  }

  /** The years for which truncating division still counts leap days rightly. */
  const FIRST_YEAR := -3

  /** Go's remainder takes the sign of the dividend. */
  function GoMod(n: int, d: int): int
    requires d > 0
  {
    n - d * GoDiv(n, d)
  }

  /** The date the code gives to any day number, negative ones included. */
  function Truncated(n: int): Date {
    var inCycle := GoMod(n, 12053);
    var inGroup := GoMod(inCycle, 1461);
    var year := -1595 + 33 * GoDiv(n, 12053) + 4 * GoDiv(inCycle, 1461);
    if inGroup > 365 then TruncatedDay(year + GoDiv(inGroup - 1, 365), GoMod(inGroup - 1, 365))
    else TruncatedDay(year, inGroup)
  }

  function TruncatedDay(y: int, r: int): Date {
    if r < 186 then Date(y, 1 + GoDiv(r, 31), 1 + GoMod(r, 31))
    else Date(y, 7 + GoDiv(r - 186, 30), 1 + GoMod(r - 186, 30))
  }

  lemma TruncatedAgrees(n: int)
    requires n >= 0
    ensures Truncated(n) == JalaliOf(n)
  {
    var inCycle := n % 12053;
    assert GoDiv(n, 12053) == n / 12053 && GoMod(n, 12053) == inCycle;
    var inGroup := inCycle % 1461;
    assert GoDiv(inCycle, 1461) == inCycle / 1461 && GoMod(inCycle, 1461) == inGroup;
    var r := if inGroup > 365 then (inGroup - 1) % 365 else inGroup;
    assert inGroup > 365 ==> GoDiv(inGroup - 1, 365) == (inGroup - 1) / 365 && GoMod(inGroup - 1, 365) == r;
    TruncatedDayAgrees(JalaliOf(n).year, r);
  }

  lemma TruncatedDayAgrees(y: int, r: int)
    requires r >= 0
    ensures TruncatedDay(y, r) == DayOfYear(y, r)
  {}

  method GregorianToJalali(gy: int, gm: int, gd: int) returns (jy: int, jm: int, jd: int)
    requires 1 <= gm <= 12
    ensures Date(jy, jm, jd) == Convert(Date(gy, gm, gd))
    ensures DayNumber(Date(gy, gm, gd)) >= 0 ==> Date(jy, jm, jd) == JalaliOf(DayNumber(Date(gy, gm, gd)))
  {
    var gy2 := gy;
    if gm > 2 {
      gy2 := gy2 + 1;
    }
    var days := 355666 + 365 * gy + GoDiv(gy2 + 3, 4) - GoDiv(gy2 + 99, 100) + GoDiv(gy2 + 399, 400) + gd + GDM[gm - 1];
    assert days == DayNumber(Date(gy, gm, gd));
    jy, jm, jd := FromDays(days);
  }

  /** The second half of the conversion: peel off cycles, groups of years and years. */
  method FromDays(n: int) returns (jy: int, jm: int, jd: int)
    ensures Date(jy, jm, jd) == Truncated(n)
    ensures n >= 0 ==> Date(jy, jm, jd) == JalaliOf(n)
  {
    var days := n;
    jy := -1595 + 33 * GoDiv(days, 12053);
    days := GoMod(days, 12053);
    jy := jy + 4 * GoDiv(days, 1461);
    days := GoMod(days, 1461);
    if days > 365 {
      jy := jy + GoDiv(days - 1, 365);
      days := GoMod(days - 1, 365);
    }
    if days < 186 {
      jm := 1 + GoDiv(days, 31);
      jd := 1 + GoMod(days, 31);
    } else {
      jm := 7 + GoDiv(days - 186, 30);
      jd := 1 + GoMod(days - 186, 30);
    }
    if n >= 0 { TruncatedAgrees(n); }
  }

  // ----- The inverse -----

  /** The day number of a Jalali date, by adding up cycles, years and months. */
  function JalaliDayNumber(d: Date): int {
    var c := CycleYear(d.year);
    12053 * ((d.year + 1595) / 33) + 365 * c + (c + 3) / 4 + DaysIntoYear(d)
  }

  function DaysIntoYear(d: Date): int {
    (if d.month <= 7 then 31 * (d.month - 1) else 186 + 30 * (d.month - 7)) + d.day - 1
  }

  /** Splitting a cycle into its years: `c` years before, `r` days into the year. */
  lemma YearOfCycle(n: int) returns (c: int, r: int)
    requires 0 <= n < 12053
    ensures 0 <= c < 33 && n == 365 * c + (c + 3) / 4 + r
    ensures 0 <= r < if c % 4 == 0 && c != 32 then 366 else 365
    ensures var g := n % 1461;
            c == 4 * (n / 1461) + (if g > 365 then (g - 1) / 365 else 0)
            && r == if g > 365 then (g - 1) % 365 else g
  {
    var q, g := n / 1461, n % 1461;
    c := 4 * q + (if g > 365 then (g - 1) / 365 else 0);
    r := if g > 365 then (g - 1) % 365 else g;
    assert 0 <= q <= 8;
  }

  lemma DateInYear(y: int, r: int)
    requires 0 <= r < if JalaliLeap(y) then 366 else 365
    ensures ValidJalali(DayOfYear(y, r)) && DayOfYear(y, r).year == y && DaysIntoYear(DayOfYear(y, r)) == r
  {}

  lemma CycleOfYear(cycle: int, c: int)
    requires 0 <= c < 33
    ensures (-1595 + 33 * cycle + c + 1595) / 33 == cycle && CycleYear(-1595 + 33 * cycle + c) == c
  {}

  lemma JalaliOfSplits(n: int) returns (c: int, r: int)
    ensures 0 <= c < 33 && n == 12053 * (n / 12053) + 365 * c + (c + 3) / 4 + r
    ensures 0 <= r < if c % 4 == 0 && c != 32 then 366 else 365
    ensures JalaliOf(n) == DayOfYear(-1595 + 33 * (n / 12053) + c, r)
  {
    c, r := YearOfCycle(n % 12053);
  }

  lemma NumberOfSplit(cycle: int, c: int, r: int)
    requires 0 <= c < 33 && 0 <= r < if c % 4 == 0 && c != 32 then 366 else 365
    ensures var d := DayOfYear(-1595 + 33 * cycle + c, r);
            ValidJalali(d) && JalaliDayNumber(d) == 12053 * cycle + 365 * c + (c + 3) / 4 + r
  {
    CycleOfYear(cycle, c);
    DateInYear(-1595 + 33 * cycle + c, r);
  }

  /** Every day number has a valid Jalali date that leads back to it. */
  lemma JalaliOfIsInverse(n: int)
    ensures ValidJalali(JalaliOf(n)) && JalaliDayNumber(JalaliOf(n)) == n
  {
    var c, r := JalaliOfSplits(n);
    NumberOfSplit(n / 12053, c, r);
  }

  /** Below zero the truncating code peels off cycles and groups of years, and
      what is left counts backwards from the first day of a year. */
  lemma NegativeSplits(k: int, q: int, g: int)
    requires k >= 0 && 0 <= q <= 8 && 0 <= g < 1461 && 1461 * q + g < 12053
    requires 12053 * k + 1461 * q + g > 0
    ensures Truncated(-(12053 * k + 1461 * q + g)) == Date(-1595 - 33 * k - 4 * q, 1 - g / 31, 1 - g % 31)
  {
    var r := 1461 * q + g;
    var n := -(12053 * k + r);
    assert (-n) / 12053 == k;
    assert GoDiv(n, 12053) == -k && GoMod(n, 12053) == -r;
    assert r / 1461 == q;
    assert GoDiv(-r, 1461) == -q && GoMod(-r, 1461) == -g;
    assert GoDiv(-g, 31) == -(g / 31) && GoMod(-g, 31) == -(g % 31);
  }

  lemma FirstDayNumber(k: int, q: int)
    requires 0 <= q <= 8
    ensures var d := Date(-1595 - 33 * k - 4 * q, 1, 1);
            JalaliDayNumber(d) == -(12053 * k + 1461 * q) + if q == 0 then 0 else 1
  {
    var y := -1595 - 33 * k - 4 * q;
    CycleOfYear(if q == 0 then -k else -k - 1, if q == 0 then 0 else 33 - 4 * q);
  }

  /** The code's date is valid and has the right number exactly for the day
      numbers from zero on and for whole cycles before. */
  lemma TruncatedIsRightExactlyWhen(n: int)
    ensures ValidJalali(Truncated(n)) && JalaliDayNumber(Truncated(n)) == n <==> n >= 0 || n % 12053 == 0
  {
    if n >= 0 {
      TruncatedAgrees(n);
      JalaliOfIsInverse(n);
    } else {
      var k, r := (-n) / 12053, (-n) % 12053;
      var q, g := r / 1461, r % 1461;
      NegativeSplits(k, q, g);
      FirstDayNumber(k, q);
      WholeCycles(n, k, r);
    }
  }

  lemma WholeCycles(n: int, k: int, r: int)
    requires 0 <= r < 12053 && n == -(12053 * k + r)
    ensures n % 12053 == 0 <==> r == 0
  {}

  /** Consecutive Jalali days have consecutive numbers. */
  lemma NextJalaliCounts(d: Date)
    requires ValidJalali(d)
    ensures ValidJalali(NextJalali(d)) && JalaliDayNumber(NextJalali(d)) == JalaliDayNumber(d) + 1
  {
    var c := CycleYear(d.year);
    if d.day == JalaliMonthLength(d.year, d.month) && d.month == 12 {
      NextYear(d.year);
      assert c % 4 == 0 <==> (c + 1 + 3) / 4 == (c + 3) / 4 + 1;
    }
  }

  lemma NextYear(y: int)
    ensures CycleYear(y) == 32 ==> CycleYear(y + 1) == 0 && (y + 1596) / 33 == (y + 1595) / 33 + 1
    ensures CycleYear(y) != 32 ==> CycleYear(y + 1) == CycleYear(y) + 1 && (y + 1596) / 33 == (y + 1595) / 33
  {}

  predicate Before(a: Date, b: Date) {
    a.year < b.year || (a.year == b.year && (a.month < b.month || (a.month == b.month && a.day < b.day)))
  }

  lemma EarlierJalaliIsSmaller(a: Date, b: Date)
    requires ValidJalali(a) && ValidJalali(b) && Before(a, b)
    ensures JalaliDayNumber(a) < JalaliDayNumber(b)
  {
    if a.year < b.year {
      YearStarts(a);
      YearStarts(b);
      YearsApart(a.year, b.year);
    }
  }

  /** Day numbers follow the order of Jalali dates. */
  lemma JalaliNumbersAreOrdered(a: Date, b: Date)
    requires ValidJalali(a) && ValidJalali(b)
    ensures Before(a, b) <==> JalaliDayNumber(a) < JalaliDayNumber(b)
  {
    if Before(a, b) {
      EarlierJalaliIsSmaller(a, b);
    } else if a != b {
      EarlierJalaliIsSmaller(b, a);
    }
  }

  function YearStart(y: int): int {
    JalaliDayNumber(Date(y, 1, 1))
  }

  lemma YearStarts(d: Date)
    requires ValidJalali(d)
    ensures YearStart(d.year) <= JalaliDayNumber(d) < YearStart(d.year + 1)
  {
    NextYear(d.year);
  }

  lemma {:induction false} YearsApart(y: int, z: int)
    requires y < z
    ensures YearStart(y + 1) <= YearStart(z)
    decreases z - y
  {
    if y + 1 < z {
      YearsApart(y, z - 1);
      NextYear(z - 1);
    }
  }

  // ----- The Gregorian side -----

  /** With years from -3 on, truncation and flooring agree. */
  lemma DivisionsFloor(y: int)
    requires y >= FIRST_YEAR
    ensures LeapDays(y) == Floored(y)
  {}

  lemma StepBy4(y: int)
    ensures (y + 4) / 4 == (y + 3) / 4 + if y % 4 == 0 then 1 else 0
  {}

  lemma Quotient100(n: int, q: int)
    requires 100 * q <= n < 100 * q + 100
    ensures n / 100 == q
  {}

  lemma StepBy100(y: int)
    ensures (y + 100) / 100 == (y + 99) / 100 + if y % 100 == 0 then 1 else 0
    ensures y % 100 == 0 ==> y % 4 == 0
  {
    var q, r := y / 100, y % 100;
    assert y == 100 * q + r;
    Quotient100(y + 100, q + 1);
    Quotient100(y + 99, if r == 0 then q else q + 1);
    if r == 0 { assert y == 4 * (25 * q); }
  }

  lemma Quotient400(n: int, q: int)
    requires 400 * q <= n < 400 * q + 400
    ensures n / 400 == q
  {}

  lemma StepBy400(y: int)
    ensures (y + 400) / 400 == (y + 399) / 400 + if y % 400 == 0 then 1 else 0
    ensures y % 400 == 0 ==> y % 100 == 0
  {
    var q, r := y / 400, y % 400;
    assert y == 400 * q + r;
    Quotient400(y + 400, q + 1);
    Quotient400(y + 399, if r == 0 then q else q + 1);
    if r == 0 { Quotient100(y, 4 * q); }
  }

  /** Leap days up to and including the year before `y`, with flooring division. */
  function Floored(y: int): int {
    (y + 3) / 4 - (y + 99) / 100 + (y + 399) / 400
  }

  /** The leap days counted up to a year grow by one exactly after a leap year. */
  lemma LeapDayCounts(y: int)
    ensures Floored(y + 1) == Floored(y) + if GregorianLeap(y) then 1 else 0
  {
    StepBy4(y);
    StepBy100(y);
    StepBy400(y);
  }

  lemma LeapDaysGrow(y: int)
    requires y >= FIRST_YEAR
    ensures LeapDays(y + 1) == LeapDays(y) + if GregorianLeap(y) then 1 else 0
  {
    DivisionsFloor(y);
    DivisionsFloor(y + 1);
    LeapDayCounts(y);
  }

  /** Days before the start of month `m`, in a leap year or not. */
  function DaysBefore(y: int, m: int): int
    requires 1 <= m <= 12
  {
    GDM[m - 1] + if m > 2 && GregorianLeap(y) then 1 else 0
  }

  function GregorianYearStart(y: int): int {
    DayNumber(Date(y, 1, 1))
  }

  lemma MonthsAddUp(y: int, m: int)
    requires 1 <= m <= 12
    ensures DaysBefore(y, m) + GregorianMonthLength(y, m)
         == if m < 12 then DaysBefore(y, m + 1) else if GregorianLeap(y) then 366 else 365
  {}

  lemma GregorianYearLength(y: int)
    requires y >= FIRST_YEAR
    ensures GregorianYearStart(y + 1) == GregorianYearStart(y) + if GregorianLeap(y) then 366 else 365
  {
    LeapDaysGrow(y);
  }

  lemma DayInYear(d: Date)
    requires ValidGregorian(d)
    ensures 0 <= DaysBefore(d.year, d.month) + d.day - 1 < if GregorianLeap(d.year) then 366 else 365
  {
    MonthsAddUp(d.year, d.month);
  }

  /** The day number is the start of the year plus the days before the month. */
  lemma GregorianPosition(d: Date)
    requires ValidGregorian(d) && d.year >= FIRST_YEAR
    ensures DayNumber(d) == GregorianYearStart(d.year) + DaysBefore(d.year, d.month) + d.day - 1
    ensures GregorianYearStart(d.year) <= DayNumber(d) < GregorianYearStart(d.year + 1)
  {
    GregorianYearLength(d.year);
    DayInYear(d);
    if d.month > 2 { LeapDaysGrow(d.year); }
  }

  /** Consecutive Gregorian days have consecutive day numbers. */
  lemma NextGregorianCounts(d: Date)
    requires ValidGregorian(d) && d.year >= FIRST_YEAR
    ensures ValidGregorian(NextGregorian(d))
    ensures DayNumber(NextGregorian(d)) == DayNumber(d) + 1
  {
    GregorianPosition(d);
    GregorianPosition(NextGregorian(d));
    MonthsAddUp(d.year, d.month);
    GregorianYearLength(d.year);
  }

  // ----- The main results -----

  lemma FlooredIsBounded(y: int)
    requires y >= FIRST_YEAR
    ensures Floored(y) >= -1
  {}

  lemma DayNumberIsPositive(d: Date)
    requires ValidGregorian(d) && d.year >= FIRST_YEAR
    ensures DayNumber(d) >= 0
  {
    DivisionsFloor(d.year);
    DivisionsFloor(d.year + 1);
    FlooredIsBounded(d.year);
    FlooredIsBounded(d.year + 1);
  }

  /** What the code computes for a date. */
  function Convert(d: Date): Date
    requires 1 <= d.month <= 12
  {
    Truncated(DayNumber(d))
  }

  lemma ConvertIsJalali(d: Date)
    requires ValidGregorian(d) && d.year >= FIRST_YEAR
    ensures Convert(d) == JalaliOf(DayNumber(d))
  {
    DayNumberIsPositive(d);
    TruncatedAgrees(DayNumber(d));
  }

  /** The conversion gives a valid date, takes the next day to the next day, and
      is undone by the Jalali day number. */
  lemma ConversionIsFaithful(d: Date)
    requires ValidGregorian(d) && d.year >= FIRST_YEAR
    ensures ValidJalali(Convert(d))
    ensures JalaliDayNumber(Convert(d)) == DayNumber(d)
    ensures ValidGregorian(NextGregorian(d)) && Convert(NextGregorian(d)) == NextJalali(Convert(d))
  {
    ConvertIsInverse(d);
    ConvertNext(d);
  }

  lemma ConvertIsInverse(d: Date)
    requires ValidGregorian(d) && d.year >= FIRST_YEAR
    ensures ValidJalali(Convert(d)) && JalaliDayNumber(Convert(d)) == DayNumber(d)
  {
    ConvertIsJalali(d);
    JalaliOfIsInverse(DayNumber(d));
  }

  lemma ConvertNext(d: Date)
    requires ValidGregorian(d) && d.year >= FIRST_YEAR
    ensures ValidGregorian(NextGregorian(d)) && Convert(NextGregorian(d)) == NextJalali(Convert(d))
  {
    NextGregorianCounts(d);
    ConvertIsInverse(d);
    ConvertIsInverse(NextGregorian(d));
    NextJalaliCounts(Convert(d));
    SameNumberSameDate(Convert(NextGregorian(d)), NextJalali(Convert(d)));
  }

  lemma SameNumberSameDate(a: Date, b: Date)
    requires ValidJalali(a) && ValidJalali(b) && JalaliDayNumber(a) == JalaliDayNumber(b)
    ensures a == b
  {
    JalaliNumbersAreOrdered(a, b);
    JalaliNumbersAreOrdered(b, a);
  }

  lemma {:induction false} GregorianYearsApart(y: int, z: int)
    requires FIRST_YEAR <= y < z
    ensures GregorianYearStart(y + 1) <= GregorianYearStart(z)
    decreases z - y
  {
    if y + 1 < z {
      GregorianYearsApart(y, z - 1);
      GregorianYearLength(z - 1);
    }
  }

  lemma {:induction false} MonthsApart(y: int, m: int, n: int)
    requires 1 <= m < n <= 12
    ensures DaysBefore(y, m) + GregorianMonthLength(y, m) <= DaysBefore(y, n)
    decreases n - m
  {
    MonthsAddUp(y, m);
    if m + 1 < n { MonthsApart(y, m + 1, n); }
  }

  lemma EarlierYear(a: Date, b: Date)
    requires ValidGregorian(a) && ValidGregorian(b) && FIRST_YEAR <= a.year < b.year
    ensures DayNumber(a) < DayNumber(b)
  {
    GregorianPosition(a);
    GregorianPosition(b);
    GregorianYearsApart(a.year, b.year);
  }

  lemma SameYear(a: Date, b: Date)
    requires ValidGregorian(a) && ValidGregorian(b) && Before(a, b) && FIRST_YEAR <= a.year == b.year
    ensures DayNumber(a) < DayNumber(b)
  {
    GregorianPosition(a);
    GregorianPosition(b);
    if a.month < b.month { MonthsApart(a.year, a.month, b.month); }
  }

  lemma DayNumbersAreOrdered(a: Date, b: Date)
    requires ValidGregorian(a) && ValidGregorian(b) && a.year >= FIRST_YEAR && b.year >= FIRST_YEAR
    requires Before(a, b)
    ensures DayNumber(a) < DayNumber(b)
  {
    if a.year < b.year {
      EarlierYear(a, b);
    } else {
      SameYear(a, b);
    }
  }

  /** The conversion is strictly monotone, hence injective. */
  lemma ConversionIsMonotone(a: Date, b: Date)
    requires ValidGregorian(a) && ValidGregorian(b) && a.year >= FIRST_YEAR && b.year >= FIRST_YEAR
    ensures Before(a, b) <==> Before(Convert(a), Convert(b))
    ensures Convert(a) == Convert(b) ==> a == b
  {
    if Before(a, b) { DayNumbersAreOrdered(a, b); }
    if Before(b, a) { DayNumbersAreOrdered(b, a); }
    ConvertIsInverse(a);
    ConvertIsInverse(b);
    JalaliNumbersAreOrdered(Convert(a), Convert(b));
  }

  lemma CountedBy4(y: int)
    ensures GoDiv(y + 4, 4) - GoDiv(y + 3, 4) == if y % 4 == (if y >= -3 then 0 else 1) then 1 else 0
  {}

  lemma CountedBy100(y: int)
    ensures GoDiv(y + 100, 100) - GoDiv(y + 99, 100) == if y % 100 == (if y >= -99 then 0 else 1) then 1 else 0
  {}

  lemma CountedBy400(y: int)
    ensures GoDiv(y + 400, 400) - GoDiv(y + 399, 400) == if y % 400 == (if y >= -399 then 0 else 1) then 1 else 0
  {}

  /** The leap day counted from February to March is the year's own from year -3
      on; before year -399 it is that of the year before, and in between the
      three divisors change over one by one. */
  lemma CountedLeapDays(y: int)
    ensures LeapDays(y + 1) - LeapDays(y)
         == (if y % 4 == (if y >= -3 then 0 else 1) then 1 else 0)
            - (if y % 100 == (if y >= -99 then 0 else 1) then 1 else 0)
            + (if y % 400 == (if y >= -399 then 0 else 1) then 1 else 0)
  {
    CountedBy4(y);
    CountedBy100(y);
    CountedBy400(y);
  }

  /** The years whose February the code miscounts: before year -3, the leap years
      and the years after a leap year, with -99 besides and without -399. */
  predicate Miscounted(y: int) {
    y < -3 && y != -399 && (GregorianLeap(y) || GregorianLeap(y - 1) || y == -99)
  }

  lemma MiscountedExactly(y: int)
    ensures LeapDays(y + 1) - LeapDays(y) == (if GregorianLeap(y) then 1 else 0) <==> !Miscounted(y)
  {
    CountedLeapDays(y);
    YearAfter4(y);
    YearAfter100(y);
    YearAfter400(y);
    StepBy100(y);
    StepBy400(y);
  }

  lemma YearAfter4(y: int)
    ensures y % 4 == 1 <==> (y - 1) % 4 == 0
  {}

  lemma YearAfter100(y: int)
    ensures y % 100 == 1 <==> (y - 1) % 100 == 0
    ensures y % 100 == 1 ==> y % 4 == 1
  {
    var q, r := y / 100, y % 100;
    Quotient100(y - 1, if r == 0 then q - 1 else q);
    if r == 1 { assert y == 4 * (25 * q) + 1; }
  }

  lemma YearAfter400(y: int)
    ensures y % 400 == 1 <==> (y - 1) % 400 == 0
    ensures y % 400 == 1 ==> y % 100 == 1
  {
    var q, r := y / 400, y % 400;
    Quotient400(y - 1, if r == 0 then q - 1 else q);
    if r == 1 { Quotient100(y, 4 * q); }
  }

  lemma FebruaryEnds(y: int)
    ensures DayNumber(Date(y, 3, 1)) - DayNumber(Date(y, 2, GregorianMonthLength(y, 2)))
         == 1 + LeapDays(y + 1) - LeapDays(y) - if GregorianLeap(y) then 1 else 0
  {}

  lemma OtherDaysCount(d: Date)
    requires ValidGregorian(d) && !(d.month == 2 && d.day == GregorianMonthLength(d.year, 2))
    ensures DayNumber(NextGregorian(d)) == DayNumber(d) + 1
  {}

  /** For every year, negative ones included: the next day gets the next number
      if and only if it does not follow the February of a miscounted year. */
  lemma NextDayCountsExactlyWhen(d: Date)
    requires ValidGregorian(d)
    ensures DayNumber(NextGregorian(d)) == DayNumber(d) + 1
            <==> !(d.month == 2 && d.day == GregorianMonthLength(d.year, 2) && Miscounted(d.year))
  {
    if d.month == 2 && d.day == GregorianMonthLength(d.year, 2) {
      FebruaryEnds(d.year);
      MiscountedExactly(d.year);
    } else {
      OtherDaysCount(d);
    }
  }

  /** The first miscounted year going back: two of its days share one number,
      hence one Jalali date. */
  lemma LeapDaysCounted(y: int)
    ensures y >= FIRST_YEAR ==> LeapDays(y + 1) - LeapDays(y) == if GregorianLeap(y) then 1 else 0
    ensures DayNumber(Date(-4, 2, 29)) == DayNumber(Date(-4, 3, 1))
  {
    if y >= FIRST_YEAR { LeapDaysGrow(y); }
  }

  /** Two dates that fix the position of the calendar: 1 January 2024 is
      11 Dey 1402, and 20 March 2024 is the first day of 1403. */
  lemma KnownDates()
    ensures Convert(Date(2024, 1, 1)) == Date(1402, 10, 11)
    ensures Convert(Date(2024, 3, 20)) == Date(1403, 1, 1)
  {
    KnownNumbers();
    ConvertIsJalali(Date(2024, 1, 1));
    ConvertIsJalali(Date(2024, 3, 20));
    KnownJalali();
  }

  lemma KnownNumbers()
    ensures DayNumber(Date(2024, 1, 1)) == 1094918 && DayNumber(Date(2024, 3, 20)) == 1094997
  {}

  lemma KnownJalali()
    ensures JalaliOf(1094918) == Date(1402, 10, 11) && JalaliOf(1094997) == Date(1403, 1, 1)
  {
    assert 1094918 == 12053 * 90 + 10148 && 10148 == 1461 * 6 + 1382 && 1381 == 365 * 3 + 286;
    assert 1094997 == 12053 * 90 + 10227 && 10227 == 1461 * 7;
    assert DayOfYear(1402, 286) == Date(1402, 10, 11) && DayOfYear(1403, 0) == Date(1403, 1, 1);
  }
}

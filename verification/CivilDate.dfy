/** Dates of the Gregorian calendar, and the days since the first of January 1970. */
module CivilDate {

  datatype Date = Date(year: int, month: int, day: int)

  predicate Leap(year: int) {
    year % 4 == 0 && (year % 100 != 0 || year % 400 == 0)
  }

  function MonthLength(year: int, month: int): (r: int)
    ensures 28 <= r <= 31
  {
    if month == 2 then (if Leap(year) then 29 else 28)
    else if month == 4 || month == 6 || month == 9 || month == 11 then 30
    else 31
  }

  predicate Valid(d: Date) {
    1970 <= d.year && 1 <= d.month <= 12 && 1 <= d.day <= MonthLength(d.year, d.month)
  }

  function NextMonth(d: Date): Date {
    if d.month == 12 then Date(d.year + 1, 1, 1) else Date(d.year, d.month + 1, 1)
  }

  function NextDay(d: Date): Date {
    if d.day < MonthLength(d.year, d.month) then d.(day := d.day + 1) else NextMonth(d)
  }

  /** The date of a day, counted one by one from the epoch. */
  function DateOf(n: nat): (d: Date)
    ensures Valid(d)
  {
    if n == 0 then Date(1970, 1, 1) else NextDay(DateOf(n - 1))
  }

  function YearLength(year: int): int {
    if Leap(year) then 366 else 365
  }

  function DaysBeforeYear(year: int): (r: nat)
    requires 1970 <= year
  {
    if year == 1970 then 0 else DaysBeforeYear(year - 1) + YearLength(year - 1)
  }

  function DaysBeforeMonth(year: int, month: int): (r: nat)
    requires 1 <= month <= 12
  {
    if month == 1 then 0 else DaysBeforeMonth(year, month - 1) + MonthLength(year, month - 1)
  }

  /** The number of a date, from the lengths of the years and months before it. */
  function DayNumber(d: Date): nat
    requires Valid(d)
  {
    DaysBeforeYear(d.year) + DaysBeforeMonth(d.year, d.month) + d.day - 1
  }

  lemma MonthsMakeYear(year: int)
    ensures DaysBeforeMonth(year, 12) + MonthLength(year, 12) == YearLength(year)
  {
    MonthAfter(year, 1, 3);
    MonthAfter(year, 4, 3);
    MonthAfter(year, 7, 3);
    MonthAfter(year, 10, 2);
  }

  lemma MonthAfter(year: int, month: int, k: int)
    requires 1 <= month && month + k <= 12 && 0 <= k <= 3
    ensures DaysBeforeMonth(year, month + k)
         == DaysBeforeMonth(year, month) + (if k > 0 then MonthLength(year, month) else 0)
            + (if k > 1 then MonthLength(year, month + 1) else 0) + if k > 2 then MonthLength(year, month + 2) else 0
  {
    if k > 0 {
      MonthAfter(year, month, k - 1);
    }
  }

  lemma NextDayNumber(d: Date)
    requires Valid(d)
    ensures Valid(NextDay(d)) && DayNumber(NextDay(d)) == DayNumber(d) + 1
  {
    if d.day == MonthLength(d.year, d.month) && d.month == 12 {
      MonthsMakeYear(d.year);
    }
  }

  /** Counting days one by one and adding up months and years agree. */
  lemma {:induction false} DayNumberOfDate(n: nat)
    ensures DayNumber(DateOf(n)) == n
  {
    if n > 0 {
      DayNumberOfDate(n - 1);
      NextDayNumber(DateOf(n - 1));
    }
  }

  lemma {:induction false} DateOfDayNumber(d: Date)
    requires Valid(d)
    ensures DateOf(DayNumber(d)) == d
  {
    var e := DateOf(DayNumber(d));
    DayNumberOfDate(DayNumber(d));
    SameNumberSameDate(d, e);
  }

  lemma DayInYear(d: Date)
    requires Valid(d)
    ensures DaysBeforeMonth(d.year, d.month) + d.day <= YearLength(d.year)
  {
    MonthsMakeYear(d.year);
    DaysBeforeMonthGrows(d.year, d.month, 12);
  }

  lemma {:induction false} DaysBeforeMonthGrows(year: int, m: int, k: int)
    requires 1 <= m <= k <= 12
    ensures m < k ==> DaysBeforeMonth(year, m) + MonthLength(year, m) <= DaysBeforeMonth(year, k)
    decreases k
  {
    if m + 1 < k {
      DaysBeforeMonthGrows(year, m, k - 1);
    }
  }

  lemma {:induction false} DaysBeforeYearGrows(y: int, z: int)
    requires 1970 <= y <= z
    ensures y < z ==> DaysBeforeYear(y) + YearLength(y) <= DaysBeforeYear(z)
    decreases z
  {
    if y + 1 < z {
      DaysBeforeYearGrows(y, z - 1);
    }
  }

  lemma SameNumberSameDate(d: Date, e: Date)
    requires Valid(d) && Valid(e) && DayNumber(d) == DayNumber(e)
    ensures d == e
  {
    DayInYear(d);
    DayInYear(e);
    if d.year <= e.year {
      DaysBeforeYearGrows(d.year, e.year);
    } else {
      DaysBeforeYearGrows(e.year, d.year);
    }
    assert d.year == e.year;
    if d.month <= e.month {
      DaysBeforeMonthGrows(d.year, d.month, e.month);
    } else {
      DaysBeforeMonthGrows(d.year, e.month, d.month);
    }
  }

  /** The days left in a month are of that month; the next is the first of the next month. */
  lemma {:induction false} RestOfMonth(n: nat, k: nat)
    requires DateOf(n).day + k <= MonthLength(DateOf(n).year, DateOf(n).month) + 1
    ensures var d := DateOf(n);
            DateOf(n + k) == if d.day + k <= MonthLength(d.year, d.month) then d.(day := d.day + k)
                             else NextMonth(d)
  {
    if k > 0 {
      RestOfMonth(n, k - 1);
    }
  }

  /** The first of the next month comes after every day of this one, and no other day between. */
  lemma FirstOfNextMonth(n: nat)
    ensures var d := DateOf(n);
            var m := DayNumber(NextMonth(d));
            && n < m && DateOf(m) == NextMonth(d)
            && forall k :: n <= k < m ==> DateOf(k).year == d.year && DateOf(k).month == d.month
  {
    var d := DateOf(n);
    var rest := MonthLength(d.year, d.month) + 1 - d.day;
    RestOfMonth(n, rest);
    DayNumberOfDate(n + rest);
    forall k | n <= k < n + rest ensures DateOf(k).year == d.year && DateOf(k).month == d.month {
      RestOfMonth(n, k - n);
    }
  }

  /** Sunday is 0; the epoch was a Thursday. */
  function DayOfWeek(n: nat): (r: int)
    ensures 0 <= r <= 6
  {
    (n + 4) % 7
  }

  /** Zeller's congruence, with Sunday as 0: January and February count as months 13 and 14 of the year
      before. */
  function Zeller(d: Date): int {
    var year := if d.month <= 2 then d.year - 1 else d.year;
    var month := if d.month <= 2 then d.month + 12 else d.month;
    (d.day + 13 * (month + 1) / 5 + (year + year / 4 - year / 100 + year / 400) + 6) % 7
  }

  function YearTerm(year: int): int {
    year + year / 4 - year / 100 + year / 400
  }

  lemma LeapTerms(year: int)
    ensures YearTerm(year) == YearTerm(year - 1) + if Leap(year) then 2 else 1
  {
    Fourths(year);
    Hundredths(year);
    FourHundredths(year);
  }

  lemma Fourths(year: int)
    ensures year / 4 == (year - 1) / 4 + if year % 4 == 0 then 1 else 0
  {
  }

  lemma Hundredths(year: int)
    ensures year / 100 == (year - 1) / 100 + if year % 100 == 0 then 1 else 0
    ensures year % 100 == 0 ==> year % 4 == 0
  {
  }

  lemma FourHundredths(year: int)
    ensures year / 400 == (year - 1) / 400 + if year % 400 == 0 then 1 else 0
    ensures year % 400 == 0 ==> year % 100 == 0
  {
  }

  /** What the months add. */
  function MonthTerm(month: int): int {
    if month == 1 then 36 else if month == 2 then 39 else if month == 3 then 10 else if month == 4 then 13
    else if month == 5 then 15 else if month == 6 then 18 else if month == 7 then 20 else if month == 8 then 23
    else if month == 9 then 26 else if month == 10 then 28 else if month == 11 then 31 else 33
  }

  function ZellerSum(d: Date): int {
    d.day + MonthTerm(d.month) + (if d.month <= 2 then YearTerm(d.year - 1) else YearTerm(d.year)) + 6
  }

  lemma ZellerIsSum(d: Date)
    requires Valid(d)
    ensures Zeller(d) == ZellerSum(d) % 7
  {
    var month := if d.month <= 2 then d.month + 12 else d.month;
    assert 13 * (month + 1) / 5 == MonthTerm(d.month);
    hide Leap;
  }

  /** From one day to the next the sum grows by one, but for multiples of seven. */
  lemma SumOfNext(d: Date)
    requires Valid(d)
    ensures Valid(NextDay(d))
    ensures var more := ZellerSum(NextDay(d)) - ZellerSum(d); more == 1 || more == -27 || more == -55
  {
    LeapTerms(d.year);
    hide Leap, YearTerm;
  }

  lemma Further(a: int, b: int)
    requires b - a == 1 || b - a == -27 || b - a == -55
    ensures b % 7 == (a % 7 + 1) % 7
  {
  }

  /** Each day is followed by the next day of the week, over the ends of months and years. */
  lemma NextWeekday(d: Date)
    requires Valid(d)
    ensures Valid(NextDay(d)) && Zeller(NextDay(d)) == (Zeller(d) + 1) % 7
  {
    hide *;
    SumOfNext(d);
    ZellerIsSum(d);
    ZellerIsSum(NextDay(d));
    Further(ZellerSum(d), ZellerSum(NextDay(d)));
  }

  lemma DayAfter(n: nat)
    ensures DateOf(n + 1) == NextDay(DateOf(n)) && Valid(DateOf(n)) && DayOfWeek(n + 1) == (DayOfWeek(n) + 1) % 7
    ensures DateOf(0) == Date(1970, 1, 1) && DayOfWeek(0) == 4 && Zeller(Date(1970, 1, 1)) == 4
  {
    hide NextDay;
  }

  /** The days of the week that are counted on from the epoch are those of the calendar. */
  lemma {:induction false} WeekdayOfDay(n: nat)
    ensures DayOfWeek(n) == Zeller(DateOf(n))
  {
    hide *;
    if n == 0 {
      DayAfter(0);
    } else {
      DayAfter(n - 1);
      WeekdayOfDay(n - 1);
      NextWeekday(DateOf(n - 1));
    }
  }

  lemma WeekdayOfDate(d: Date)
    requires Valid(d)
    ensures DayOfWeek(DayNumber(d)) == Zeller(d)
  {
    hide *;
    WeekdayOfDay(DayNumber(d));
    DateOfDayNumber(d);
  }
}

/** The calendar date of a feed item: its order through midnight UTC, and its text form. */
module Dates {

  /** A year, month and day; any integers, since the type is open. The zero date means "no date". */
  datatype Date = Date(year: int, month: int, day: int)

  predicate IsZero(d: Date) {
    d.year == 0 && d.month == 0 && d.day == 0
  }

  predicate Leap(year: int) {
    year % 4 == 0 && (year % 100 != 0 || year % 400 == 0)
  }

  /** Days from a fixed origin to the first of January of a year. */
  function DaysBeforeYear(year: int): int {
    365 * year + (year - 1) / 4 - (year - 1) / 100 + (year - 1) / 400
  }

  const CUMULATIVE: seq<int> := [0, 31, 59, 90, 120, 151, 181, 212, 243, 273, 304, 334, 365]

  function DaysBeforeMonth(month0: int, year: int): int
    requires 0 <= month0 <= 12
  {
    CUMULATIVE[month0] + if Leap(year) && month0 >= 2 then 1 else 0
  }

  /** Midnight UTC of a date as a day count. Months outside the year carry into it and days outside
      the month run on, as the standard library normalises them. */
  function Time(d: Date): int {
    var year, month0 := d.year + (d.month - 1) / 12, (d.month - 1) % 12;
    DaysBeforeYear(year) + DaysBeforeMonth(month0, year) + d.day - 1
  }

  predicate Before(d: Date, u: Date) {
    Time(d) < Time(u)
  }

  predicate After(d: Date, u: Date) {
    Time(d) > Time(u)
  }

  predicate Equal(d: Date, u: Date) {
    d.year == u.year && d.month == u.month && d.day == u.day
  }

  /******* Date order is calendar order *******/

  /** A date of the proleptic Gregorian calendar. */
  predicate Valid(d: Date) {
    1 <= d.month <= 12 && 1 <= d.day <= DaysBeforeMonth(d.month, d.year) - DaysBeforeMonth(d.month - 1, d.year)
  }

  predicate Earlier(d: Date, u: Date) {
    d.year < u.year || (d.year == u.year && (d.month < u.month || (d.month == u.month && d.day < u.day)))
  }

  /** A quotient grows by one exactly at the multiples of the divisor. */
  lemma QuotientSteps(y: int)
    ensures y / 4 - (y - 1) / 4 == if y % 4 == 0 then 1 else 0
    ensures y / 100 - (y - 1) / 100 == if y % 100 == 0 then 1 else 0
    ensures y / 400 - (y - 1) / 400 == if y % 400 == 0 then 1 else 0
  {
  }

  lemma Divisibility(y: int)
    ensures y % 400 == 0 ==> y % 100 == 0
    ensures y % 100 == 0 ==> y % 4 == 0
  {
  }

  lemma YearLength(year: int)
    ensures DaysBeforeYear(year + 1) - DaysBeforeYear(year) == 365 + if Leap(year) then 1 else 0
  {
    QuotientSteps(year);
    Divisibility(year);
  }

  lemma {:induction false} YearsAdd(y: int, z: int)
    requires y < z
    ensures DaysBeforeYear(y) + 365 + (if Leap(y) then 1 else 0) <= DaysBeforeYear(z)
    decreases z - y
  {
    YearLength(y);
    if y + 1 < z {
      YearsAdd(y + 1, z);
    }
  }

  lemma DayOfYear(d: Date)
    requires Valid(d)
    ensures Time(d) == DaysBeforeYear(d.year) + DaysBeforeMonth(d.month - 1, d.year) + d.day - 1
    ensures DaysBeforeYear(d.year) <= Time(d) < DaysBeforeYear(d.year) + 365 + if Leap(d.year) then 1 else 0
  {
    assert (d.month - 1) / 12 == 0 && (d.month - 1) % 12 == d.month - 1;
  }

  lemma EarlierInYear(d: Date, u: Date)
    requires Valid(d) && Valid(u) && Earlier(d, u) && d.year == u.year
    ensures DaysBeforeMonth(d.month - 1, d.year) + d.day < DaysBeforeMonth(u.month - 1, u.year) + u.day
  {
  }

  lemma EarlierIsLess(d: Date, u: Date)
    requires Valid(d) && Valid(u) && Earlier(d, u)
    ensures Time(d) < Time(u)
  {
    DayOfYear(d);
    DayOfYear(u);
    if d.year < u.year {
      YearsAdd(d.year, u.year);
    } else {
      EarlierInYear(d, u);
    }
  }

  /** On calendar dates, comparing midnights is comparing year, month and day; equality is exactly neither. */
  lemma CalendarOrder(d: Date, u: Date)
    requires Valid(d) && Valid(u)
    ensures Before(d, u) <==> Earlier(d, u)
    ensures After(d, u) <==> Earlier(u, d)
    ensures Equal(d, u) <==> !Before(d, u) && !After(d, u)
  {
    if Earlier(d, u) {
      EarlierIsLess(d, u);
    } else if Earlier(u, d) {
      EarlierIsLess(u, d);
    } else {
      assert d == u;
    }
  }

  /** The months have the lengths of the Gregorian calendar. */
  lemma ValidExactly(d: Date)
    ensures Valid(d) <==>
            && 1 <= d.month <= 12
            && 1 <= d.day
            && d.day <= (if d.month == 2 then
                           if d.year % 400 == 0 || (d.year % 4 == 0 && d.year % 100 != 0) then 29 else 28
                         else if d.month == 4 || d.month == 6 || d.month == 9 || d.month == 11 then 30
                         else 31)
  {
    if 1 <= d.month <= 12 {
      MonthLength(d.month, d.year);
    }
  }

  /** Whole multiples of the divisor pass through a quotient and leave the remainder alone. */
  lemma QuotientShifts(y: int, years: int)
    ensures (y + 12 * years) / 12 == y / 12 + years
    ensures (y + 12 * years) % 12 == y % 12
  {
    assert y == 12 * (y / 12) + y % 12;
    assert y + 12 * years == 12 * (y / 12 + years) + y % 12;
  }

  /** Twelve months make a year, also beyond the months of a year. */
  lemma MonthsMakeYears(d: Date, years: int)
    ensures Time(d.(month := d.month + 12 * years)) == Time(d.(year := d.year + years))
  {
    var m := d.month - 1;
    QuotientShifts(m, years);
    var later := d.(month := d.month + 12 * years);
    assert later.month - 1 == m + 12 * years;
    assert (later.month - 1) / 12 == m / 12 + years && (later.month - 1) % 12 == m % 12;
  }

  lemma MonthInYear(month: int)
    requires 1 <= month <= 12
    ensures (month - 1) / 12 == 0 && (month - 1) % 12 == month - 1
    ensures month < 12 ==> month / 12 == 0 && month % 12 == month
    ensures month == 12 ==> month / 12 == 1 && month % 12 == 0
  {
  }

  lemma MonthLength(month: int, year: int)
    requires 1 <= month <= 12
    ensures DaysBeforeMonth(month, year) - DaysBeforeMonth(month - 1, year)
        == if month == 2 then if year % 400 == 0 || (year % 4 == 0 && year % 100 != 0) then 29 else 28
           else if month == 4 || month == 6 || month == 9 || month == 11 then 30
           else 31
  {
    Divisibility(year);
  }

  lemma MonthRunsOn(d: Date)
    requires 1 <= d.month <= 12
    ensures Time(d.(month := d.month + 1)) == Time(d) + DaysBeforeMonth(d.month, d.year)
        - DaysBeforeMonth(d.month - 1, d.year)
  {
    MonthInYear(d.month);
    YearLength(d.year);
  }

  /** Days run on past the end of the month, and back before its first. */
  lemma DaysRunOn(d: Date, days: int)
    ensures Time(d.(day := d.day + days)) == Time(d) + days
  {
  }

  /** The month after one of the year's own begins where that one ends. */
  lemma MonthsFollow(d: Date)
    requires 1 <= d.month <= 12
    ensures Time(d.(month := d.month + 1)) - Time(d)
         == if d.month == 2 then if d.year % 400 == 0 || (d.year % 4 == 0 && d.year % 100 != 0) then 29 else 28
            else if d.month == 4 || d.month == 6 || d.month == 9 || d.month == 11 then 30
            else 31
  {
    MonthRunsOn(d);
    MonthLength(d.month, d.year);
  }

  lemma QuotientsIn400Years(y: int)
    ensures (y + 400) / 4 == y / 4 + 100 && (y + 400) % 4 == y % 4
    ensures (y + 400) / 100 == y / 100 + 4 && (y + 400) % 100 == y % 100
    ensures (y + 400) / 400 == y / 400 + 1 && (y + 400) % 400 == y % 400
  {
  }

  lemma YearsRepeat(y: int)
    ensures DaysBeforeYear(y + 400) == DaysBeforeYear(y) + 146097 && (Leap(y + 400) <==> Leap(y))
  {
    QuotientsIn400Years(y);
    QuotientsIn400Years(y - 1);
    assert y + 400 - 1 == y - 1 + 400;
  }

  /** The calendar repeats every 400 years, which are 146097 days. */
  lemma CalendarRepeats(d: Date)
    ensures Time(d.(year := d.year + 400)) == Time(d) + 146097
  {
    var year := d.year + (d.month - 1) / 12;
    YearsRepeat(year);
    assert d.year + 400 + (d.month - 1) / 12 == year + 400;
  }

  /** Outside the calendar the two notions part: this day count belongs to two unequal dates. */
  lemma NormalisedDatesCollide()
    ensures var d, u := Date(2023, 2, 30), Date(2023, 3, 2);
            !Valid(d) && Valid(u) && !Before(d, u) && !After(d, u) && !Equal(d, u)
  {
  }

  /** The day after a calendar date. */
  function Next(d: Date): Date
    requires Valid(d)
  {
    if Valid(d.(day := d.day + 1)) then d.(day := d.day + 1)
    else if d.month < 12 then Date(d.year, d.month + 1, 1)
    else Date(d.year + 1, 1, 1)
  }

  /** The number of a day within its year, from zero. */
  function InYear(d: Date): int
    requires 1 <= d.month <= 12
  {
    DaysBeforeMonth(d.month - 1, d.year) + d.day - 1
  }

  lemma NextInYear(d: Date)
    requires Valid(d)
    ensures Valid(Next(d))
    ensures if Next(d).year == d.year then InYear(Next(d)) == InYear(d) + 1
            else Next(d) == Date(d.year + 1, 1, 1) && InYear(d) == 364 + if Leap(d.year) then 1 else 0
  {
  }

  lemma NextIsOneLater(d: Date)
    requires Valid(d)
    ensures Valid(Next(d)) && Time(Next(d)) == Time(d) + 1
  {
    NextInYear(d);
    TimeInYear(d);
    TimeInYear(Next(d));
    if Next(d).year != d.year {
      YearLength(d.year);
    }
  }

  lemma TimeInYear(d: Date)
    requires Valid(d)
    ensures Time(d) == DaysBeforeYear(d.year) + InYear(d)
  {
    DayOfYear(d);
  }

  /** The day before a calendar date. */
  function Previous(d: Date): Date
    requires Valid(d)
  {
    if d.day > 1 then d.(day := d.day - 1)
    else if d.month > 1 then
      Date(d.year, d.month - 1, DaysBeforeMonth(d.month - 1, d.year) - DaysBeforeMonth(d.month - 2, d.year))
    else Date(d.year - 1, 12, 31)
  }

  lemma PreviousIsOneEarlier(d: Date)
    requires Valid(d)
    ensures Valid(Previous(d)) && Time(Previous(d)) == Time(d) - 1
  {
    assert Valid(Previous(d)) && Next(Previous(d)) == d;
    NextIsOneLater(Previous(d));
  }

  const ORIGIN := Date(1, 1, 1)

  /** Every midnight is that of a calendar date. */
  lemma {:induction false} SomeDateAt(t: int) returns (d: Date)
    ensures Valid(d) && Time(d) == t
    decreases if t < Time(ORIGIN) then Time(ORIGIN) - t else t - Time(ORIGIN)
  {
    if t == Time(ORIGIN) {
      d := ORIGIN;
    } else if t > Time(ORIGIN) {
      var before := SomeDateAt(t - 1);
      NextIsOneLater(before);
      d := Next(before);
    } else {
      var after := SomeDateAt(t + 1);
      PreviousIsOneEarlier(after);
      d := Previous(after);
    }
  }

  /** Against every calendar date, being equal is being neither before nor after. */
  ghost predicate EqualIsNeither(d: Date) {
    forall u :: Valid(u) ==> (Equal(d, u) <==> !Before(d, u) && !After(d, u))
  }

  /** Equality agrees with the order exactly on the calendar: any other date shares its midnight with an unequal
      calendar date. */
  lemma EqualIsNeitherExactly(d: Date)
    ensures Valid(d) <==> EqualIsNeither(d)
  {
    if Valid(d) {
      forall u | Valid(u)
        ensures Equal(d, u) <==> !Before(d, u) && !After(d, u)
      {
        CalendarOrder(d, u);
      }
    } else {
      var u := SomeDateAt(Time(d));
      assert Valid(u) && !Before(d, u) && !After(d, u);
      assert !Equal(d, u);
    }
  }

  /******* Text form *******/

  function Digit(n: nat): char
    requires n < 10
  {
    '0' + n as char
  }

  /** Decimal digits, padded with zeros to at least the given width. */
  function Pad(n: nat, width: nat): string
    decreases n + width
  {
    (if n < 10 && width <= 1 then "" else Pad(n / 10, if width == 0 then 0 else width - 1)) + [Digit(n % 10)]
  }

  /** The `%0wd` verb: a minus sign takes one place of the width. */
  function Padded(n: int, width: nat): string {
    if n >= 0 then Pad(n, width) else "-" + Pad(-n, if width == 0 then 0 else width - 1)
  }

  function String(d: Date): string {
    Padded(d.year, 4) + "-" + Padded(d.month, 2) + "-" + Padded(d.day, 2)
  }

  /** The number that decimal digits denote. */
  function Denoted(digits: string): int {
    if digits == [] then 0
    else 10 * Denoted(digits[..|digits| - 1]) + (digits[|digits| - 1] as int - '0' as int)
  }

  predicate Digits(s: string) {
    forall i :: 0 <= i < |s| ==> '0' <= s[i] <= '9'
  }

  lemma OneMoreDigit(s: string, d: nat)
    requires Digits(s) && d < 10
    ensures Digits(s + [Digit(d)]) && Denoted(s + [Digit(d)]) == 10 * Denoted(s) + d
  {
    assert (s + [Digit(d)])[..|s|] == s;
  }

  lemma LastDigit(s: string, n: nat)
    requires Digits(s) && Denoted(s) == n / 10
    ensures Digits(s + [Digit(n % 10)]) && Denoted(s + [Digit(n % 10)]) == n
  {
    OneMoreDigit(s, n % 10);
  }

  /** The text of a number reads back as that number. */
  lemma {:induction false} PadReadsBack(n: nat, width: nat)
    ensures Digits(Pad(n, width)) && Denoted(Pad(n, width)) == n
    decreases n + width
  {
    var w := if width == 0 then 0 else width - 1;
    var rest := if n < 10 && width <= 1 then "" else Pad(n / 10, w);
    if n >= 10 || width > 1 {
      PadReadsBack(n / 10, w);
    }
    LastDigit(rest, n);
    assert Pad(n, width) == rest + [Digit(n % 10)];
  }

  /** It is padded with zeros to the width, and no longer than it needs to be. */
  lemma {:induction false} PadIsShort(n: nat, width: nat)
    ensures var s := Pad(n, width); |s| >= width && |s| >= 1 && (|s| > width && |s| > 1 ==> s[0] != '0')
    decreases n + width
  {
    if n >= 10 || width > 1 {
      var w := if width == 0 then 0 else width - 1;
      PadIsShort(n / 10, w);
      assert Pad(n, width) == Pad(n / 10, w) + [Digit(n % 10)];
    }
  }

  /** The text of a number, with its sign, in at least the given width. */
  predicate Numeral(s: string, n: int, width: nat) {
    && |s| >= width && |s| >= 1
    && if n >= 0 then Digits(s) && Denoted(s) == n else s[0] == '-' && Digits(s[1..]) && Denoted(s[1..]) == -n
  }

  lemma PaddedReadsBack(n: int, width: nat)
    ensures Numeral(Padded(n, width), n, width)
  {
    var w := if n >= 0 then width else if width == 0 then 0 else width - 1;
    var m := if n >= 0 then n else -n;
    PadReadsBack(m, w);
    PadIsShort(m, w);
  }

  /** The text of any date is that of its year, its month and its day, with hyphens between them. */
  lemma TextInParts(d: Date) returns (year: string, month: string, day: string)
    ensures String(d) == year + "-" + month + "-" + day
    ensures Numeral(year, d.year, 4) && Numeral(month, d.month, 2) && Numeral(day, d.day, 2)
  {
    year, month, day := Padded(d.year, 4), Padded(d.month, 2), Padded(d.day, 2);
    PaddedReadsBack(d.year, 4);
    PaddedReadsBack(d.month, 2);
    PaddedReadsBack(d.day, 2);
  }

  /** A number that fits the width has exactly that many digits. */
  lemma {:induction false} PadFits(n: nat, width: nat)
    requires width >= 1 && n < Pow10(width)
    ensures |Pad(n, width)| == width
    decreases width
  {
    if width == 1 {
      assert Pow10(1) == 10 * Pow10(0) == 10;
    } else {
      PadFits(n / 10, width - 1);
    }
  }

  lemma PartReadsBack(n: nat, width: nat)
    requires width >= 1 && n < Pow10(width)
    ensures |Padded(n, width)| == width && Digits(Padded(n, width)) && Denoted(Padded(n, width)) == n
  {
    PadFits(n, width);
    PadReadsBack(n, width);
  }

  /** Three texts of four, two and two characters with hyphens between them. */
  lemma Hyphenated(y: string, m: string, t: string)
    requires |y| == 4 && |m| == 2 && |t| == 2
    ensures var s := y + "-" + m + "-" + t;
            |s| == 10 && s[..4] == y && s[4] == '-' && s[5..7] == m && s[7] == '-' && s[8..] == t
  {
  }

  /** The text of a date with a year of at most four digits reads back as the date: three numbers of four, two and
      two digits, with a hyphen between them. */
  lemma TextReadsBack(d: Date)
    requires Printable(d)
    ensures var s := String(d);
            && |s| == 10 && s[4] == '-' && s[7] == '-'
            && Digits(s[..4]) && Digits(s[5..7]) && Digits(s[8..])
            && d == Date(Denoted(s[..4]), Denoted(s[5..7]), Denoted(s[8..]))
  {
    assert Pow10(2) == 10 * Pow10(1) == 100 && Pow10(4) == 10 * Pow10(3) == 100 * Pow10(2);
    PartReadsBack(d.year, 4);
    PartReadsBack(d.month, 2);
    PartReadsBack(d.day, 2);
    Hyphenated(Padded(d.year, 4), Padded(d.month, 2), Padded(d.day, 2));
    assert String(d) == Padded(d.year, 4) + "-" + Padded(d.month, 2) + "-" + Padded(d.day, 2);
  }

  /** Byte-wise string order. */
  predicate Precedes(s: string, t: string) {
    if s == [] then t != []
    else t != [] && (s[0] < t[0] || (s[0] == t[0] && Precedes(s[1..], t[1..])))
  }

  function Pow10(width: nat): nat {
    if width == 0 then 1 else 10 * Pow10(width - 1)
  }

  /** Numbers padded to one width compare as their texts do, whatever follows them. */
  lemma {:induction false} PadOrder(a: nat, b: nat, width: nat, s: string, t: string)
    requires width >= 1 && a < Pow10(width) && b < Pow10(width)
    ensures Precedes(Pad(a, width) + s, Pad(b, width) + t) <==> a < b || (a == b && Precedes(s, t))
    ensures Pad(a, width) + s == Pad(b, width) + t <==> a == b && s == t
    ensures |Pad(a, width)| == width
    decreases width
  {
    var x, y := [Digit(a % 10)] + s, [Digit(b % 10)] + t;
    assert x[1..] == s && y[1..] == t;
    if width == 1 {
      assert Pow10(1) == 10 * Pow10(0) == 10;
      assert Pad(a, 1) + s == x && Pad(b, 1) + t == y;
    } else {
      PadOrder(a / 10, b / 10, width - 1, x, y);
      assert Pad(a, width) + s == Pad(a / 10, width - 1) + x;
      assert Pad(b, width) + t == Pad(b / 10, width - 1) + y;
    }
  }

  /** The dates whose text has the fixed ten-character form; the zero date is among them. */
  predicate Printable(d: Date) {
    0 <= d.year <= 9999 && 0 <= d.month <= 99 && 0 <= d.day <= 99
  }

  function DayText(d: Date): string {
    "-" + Padded(d.day, 2)
  }

  function MonthText(d: Date): string {
    "-" + Padded(d.month, 2) + DayText(d)
  }

  lemma DayTextOrder(d: Date, u: Date)
    requires Printable(d) && Printable(u)
    ensures Precedes(DayText(d), DayText(u)) <==> d.day < u.day
    ensures DayText(d) == DayText(u) <==> d.day == u.day
    ensures |DayText(d)| == 3
  {
    assert Pow10(2) == 10 * Pow10(1) == 100;
    PadOrder(d.day, u.day, 2, "", "");
    assert Pad(d.day, 2) + "" == Pad(d.day, 2) == DayText(d)[1..]
      && Pad(u.day, 2) + "" == Pad(u.day, 2) == DayText(u)[1..];
  }

  lemma MonthTextOrder(d: Date, u: Date)
    requires Printable(d) && Printable(u)
    ensures Precedes(MonthText(d), MonthText(u)) <==> d.month < u.month || (d.month == u.month && d.day < u.day)
    ensures MonthText(d) == MonthText(u) <==> d.month == u.month && d.day == u.day
    ensures |MonthText(d)| == 6
  {
    assert Pow10(2) == 10 * Pow10(1) == 100;
    DayTextOrder(d, u);
    PadOrder(d.month, u.month, 2, DayText(d), DayText(u));
    assert MonthText(d)[1..] == Pad(d.month, 2) + DayText(d) && MonthText(u)[1..] == Pad(u.month, 2) + DayText(u);
  }

  lemma YearThenMonth(d: Date)
    requires Printable(d)
    ensures String(d) == Pad(d.year, 4) + MonthText(d)
  {
  }

  /** The text form is injective and sorts like year, month and day. */
  lemma StringOrder(d: Date, u: Date)
    requires Printable(d) && Printable(u)
    ensures Precedes(String(d), String(u)) <==> Earlier(d, u)
    ensures String(d) == String(u) <==> d == u
    ensures |String(d)| == 10
  {
    assert Pow10(4) == 10 * Pow10(3) == 100 * Pow10(2) == 1000 * Pow10(1) == 10000;
    MonthTextOrder(d, u);
    PadOrder(d.year, u.year, 4, MonthText(d), MonthText(u));
    YearThenMonth(d);
    YearThenMonth(u);
  }

  /** So on printable calendar dates the order of the texts is the order in time. */
  lemma TextOrderIsTimeOrder(d: Date, u: Date)
    requires Valid(d) && Valid(u) && 0 <= d.year <= 9999 && 0 <= u.year <= 9999
    ensures Precedes(String(d), String(u)) <==> Before(d, u)
  {
    StringOrder(d, u);
    CalendarOrder(d, u);
  }
}

/**
 Calendar days, and the YYYY-MM-DD text the tables and pages carry them in.  Two
 pages compare days as text and one compares them as dates.
 */
module Days {
  import opened Digits
  import opened Text
  import opened Wrappers

  datatype Date = Date(year: int, month: int, day: int)

  predicate Leap(year: int) {
    year % 4 == 0 && (year % 100 != 0 || year % 400 == 0)
  }

  function MonthLength(year: int, month: int): (n: int)
    ensures 28 <= n <= 31
  {
    if month == 2 then if Leap(year) then 29 else 28
    else if month == 4 || month == 6 || month == 9 || month == 11 then 30
    else 31
  }

  predicate Valid(d: Date) {
    1 <= d.month <= 12 && 1 <= d.day <= MonthLength(d.year, d.month)
  }

  /** What has a ten-character text. */
  predicate Printable(d: Date) {
    Valid(d) && 0 <= d.year <= 9999
  }

  /** The days a block timestamp, counted in seconds since 1970, can fall on and print. */
  predicate BlockDay(d: Date) {
    Valid(d) && 1970 <= d.year <= 9999
  }

  predicate Earlier(a: Date, b: Date) {
    a.year < b.year
    || (a.year == b.year && (a.month < b.month || (a.month == b.month && a.day < b.day)))
  }

  function Previous(d: Date): (p: Date)
    requires Valid(d)
    ensures Valid(p) && Earlier(p, d)
  {
    if d.day > 1 then d.(day := d.day - 1)
    else if d.month > 1 then Date(d.year, d.month - 1, MonthLength(d.year, d.month - 1))
    else Date(d.year - 1, 12, 31)
  }

  /** AddDate(0, 0, -n). */
  function Back(d: Date, n: nat): (b: Date)
    requires Valid(d)
    ensures Valid(b) && d.year - n <= b.year <= d.year
  {
    if n == 0 then d else Previous(Back(d, n - 1))
  }

  /** No day lies between a day and the one before it. */
  lemma PreviousIsAdjacent(x: Date, d: Date)
    requires Valid(x) && Valid(d)
    ensures Earlier(x, d) <==> x == Previous(d) || Earlier(x, Previous(d))
  {
  }

  ghost predicate AmongLast(x: Date, last: Date, n: nat)
    requires Valid(last)
  {
    exists k: nat :: k <= n && x == Back(last, k)
  }

  /** Reaching back n days from the last one takes in that day and the n before it, no more. */
  lemma {:induction false} ReachIsLastDays(x: Date, last: Date, n: nat)
    requires Valid(x) && Valid(last)
    ensures !Earlier(x, Back(last, n)) && !Earlier(last, x) <==> AmongLast(x, last, n)
  {
    if n == 0 {
      assert AmongLast(x, last, 0) <==> x == Back(last, 0);
    } else {
      ReachIsLastDays(x, last, n - 1);
      PreviousIsAdjacent(x, Back(last, n - 1));
      assert AmongLast(x, last, n) <==> AmongLast(x, last, n - 1) || x == Back(last, n);
      BackIsNotLater(last, n);
    }
  }

  lemma {:induction false} BackIsNotLater(last: Date, n: nat)
    requires Valid(last)
    ensures !Earlier(last, Back(last, n))
  {
    if n > 0 {
      BackIsNotLater(last, n - 1);
    }
  }

  // ----- the Gregorian count of days

  /** Days before the year that begins in March. */
  function YearStart(year: int): int {
    365 * year + year / 4 - year / 100 + year / 400
  }

  /** Days before the month, counted from March. */
  function MonthStart(month: int): int {
    (153 * (if month > 2 then month - 3 else month + 9) + 2) / 5
  }

  function MarchYear(d: Date): int {
    if d.month > 2 then d.year else d.year - 1
  }

  /** The number of the day in the Gregorian calendar, counted from 1 March of year 0. */
  function DayNumber(d: Date): int {
    YearStart(MarchYear(d)) + MonthStart(d.month) + d.day - 1
  }

  lemma FourthYears(year: int)
    ensures year / 4 - (year - 1) / 4 == if year % 4 == 0 then 1 else 0
  {
  }

  lemma Quotient100(n: int, q: int, r: int)
    requires n == 100 * q + r && 0 <= r < 100
    ensures n / 100 == q
  {
  }

  lemma HundredthYears(year: int)
    ensures year / 100 - (year - 1) / 100 == if year % 100 == 0 then 1 else 0
  {
    var q, r := year / 100, year % 100;
    assert year == 100 * q + r;
    if r == 0 {
      Quotient100(year - 1, q - 1, 99);
    } else {
      Quotient100(year - 1, q, r - 1);
    }
  }

  lemma Quotient400(n: int, q: int, r: int)
    requires n == 400 * q + r && 0 <= r < 400
    ensures n / 400 == q
  {
  }

  lemma FourHundredthYears(year: int)
    ensures year / 400 - (year - 1) / 400 == if year % 400 == 0 then 1 else 0
  {
    var q, r := year / 400, year % 400;
    assert year == 400 * q + r;
    if r == 0 {
      Quotient400(year - 1, q - 1, 399);
    } else {
      Quotient400(year - 1, q, r - 1);
    }
  }

  lemma Remainder4(n: int, q: int)
    requires n == 4 * q
    ensures n % 4 == 0
  {
  }

  lemma Remainder100(n: int, q: int)
    requires n == 100 * q
    ensures n % 100 == 0
  {
  }

  lemma LeapRules(year: int)
    ensures year % 100 == 0 ==> year % 4 == 0
    ensures year % 400 == 0 ==> year % 100 == 0
  {
    var q, p := year / 100, year / 400;
    if year % 100 == 0 {
      Remainder4(year, 25 * q);
    }
    if year % 400 == 0 {
      Remainder100(year, 4 * p);
    }
  }

  lemma YearGrows(year: int)
    ensures YearStart(year) - YearStart(year - 1) == if Leap(year) then 366 else 365
  {
    FourthYears(year);
    HundredthYears(year);
    FourHundredthYears(year);
    LeapRules(year);
  }

  /** The day before has the number before. */
  lemma PreviousIsOneLess(d: Date)
    requires Valid(d)
    ensures DayNumber(Previous(d)) == DayNumber(d) - 1
  {
    if d.day == 1 {
      if d.month == 3 {
        YearGrows(d.year);
      } else {
        MonthBefore(d);
      }
    }
  }

  /** The year that begins in March changes only there. */
  lemma MonthBefore(d: Date)
    requires Valid(d) && d.day == 1 && d.month != 3
    ensures var p := Previous(d);
            MarchYear(p) == MarchYear(d) && MonthStart(p.month) + p.day == MonthStart(d.month)
  {
  }

  lemma {:induction false} BackCountsDown(number: Date -> int, d: Date, n: nat)
    requires Valid(d) && forall p {:trigger number(Previous(p))} :: Valid(p) ==> number(Previous(p)) == number(p) - 1
    ensures number(Back(d, n)) == number(d) - n
  {
    if n > 0 {
      BackCountsDown(number, d, n - 1);
      assert Back(d, n) == Previous(Back(d, n - 1));
    }
  }

  lemma BackIsSoManyLess(d: Date, n: nat)
    requires Valid(d)
    ensures DayNumber(Back(d, n)) == DayNumber(d) - n
  {
    forall p | Valid(p) ensures DayNumber(Previous(p)) == DayNumber(p) - 1 {
      PreviousIsOneLess(p);
    }
    BackCountsDown(DayNumber, d, n);
  }

  lemma {:induction false} YearsGrow(a: int, b: int)
    requires a < b
    ensures YearStart(a) + 365 * (b - a) <= YearStart(b)
    decreases b - a
  {
    YearGrows(b);
    if a + 1 < b {
      YearsGrow(a, b - 1);
    }
  }

  lemma MonthsFit(d: Date)
    requires Valid(d)
    ensures 0 <= MonthStart(d.month) + d.day - 1 <= 365
    ensures MonthStart(d.month) + d.day - 1 == 365 ==> Leap(d.year) && d.month == 2
  {
  }

  lemma YearEnds(d: Date, year: int)
    requires Valid(d) && MarchYear(d) < year
    ensures DayNumber(d) < YearStart(year)
  {
    var y := MarchYear(d);
    MonthsFit(d);
    YearsGrow(y, year);
    YearGrows(y + 1);
    if y + 1 < year {
      YearsGrow(y + 1, year);
    }
  }

  lemma EarlierIsLess(a: Date, b: Date)
    requires Valid(a) && Valid(b) && Earlier(a, b)
    ensures DayNumber(a) < DayNumber(b)
  {
    var y, z := MarchYear(a), MarchYear(b);
    MonthsFit(a);
    MonthsFit(b);
    if y < z {
      YearEnds(a, z);
    } else {
      assert y == z;
    }
  }

  /** Days compare as their numbers do. */
  lemma EarlierIsByNumber(a: Date, b: Date)
    requires Valid(a) && Valid(b)
    ensures Earlier(a, b) <==> DayNumber(a) < DayNumber(b)
  {
    if Earlier(a, b) {
      EarlierIsLess(a, b);
    } else if a != b {
      EarlierIsLess(b, a);
    }
  }

  // ----- the text

  function Two(n: int): (s: string)
    requires 0 <= n <= 99
    ensures |s| == 2
  {
    [Digit(n / 10), Digit(n % 10)]
  }

  function Four(n: int): (s: string)
    requires 0 <= n <= 9999
    ensures |s| == 4
  {
    Two(n / 100) + Two(n % 100)
  }

  function Format(d: Date): (s: string)
    requires Printable(d)
    ensures |s| == 10 && s[..7] == FormatMonth(d.year, d.month)
  {
    Four(d.year) + "-" + Two(d.month) + "-" + Two(d.day)
  }

  function FormatMonth(year: int, month: int): (s: string)
    requires 0 <= year <= 9999 && 1 <= month <= 12
    ensures |s| == 7
  {
    Four(year) + "-" + Two(month)
  }

  /** Texts of which the leading parts have one length compare by those first. */
  lemma {:induction false} LeadingPartFirst(a: string, b: string, x: string, y: string)
    requires |a| == |b|
    ensures StringLess(a + x, b + y) <==> StringLess(a, b) || (a == b && StringLess(x, y))
  {
    if a == "" {
      assert a + x == x && b + y == y;
    } else {
      assert (a + x)[1..] == a[1..] + x && (b + y)[1..] == b[1..] + y;
      assert a == [a[0]] + a[1..] && b == [b[0]] + b[1..];
      LeadingPartFirst(a[1..], b[1..], x, y);
    }
  }

  lemma DigitsCompare(m: int, n: int)
    requires 0 <= m <= 9 && 0 <= n <= 9
    ensures StringLess([Digit(m)], [Digit(n)]) <==> m < n
    ensures Digit(m) == Digit(n) <==> m == n
  {
  }

  lemma TwoCompare(m: int, n: int)
    requires 0 <= m <= 99 && 0 <= n <= 99
    ensures StringLess(Two(m), Two(n)) <==> m < n
    ensures Two(m) == Two(n) <==> m == n
  {
    DigitsCompare(m / 10, n / 10);
    DigitsCompare(m % 10, n % 10);
    assert Two(m) == [Digit(m / 10)] + [Digit(m % 10)] && Two(n) == [Digit(n / 10)] + [Digit(n % 10)];
    LeadingPartFirst([Digit(m / 10)], [Digit(n / 10)], [Digit(m % 10)], [Digit(n % 10)]);
    assert Two(m)[0] == Digit(m / 10) && Two(n)[0] == Digit(n / 10);
    assert Two(m)[1] == Digit(m % 10) && Two(n)[1] == Digit(n % 10);
  }

  lemma FourCompare(m: int, n: int)
    requires 0 <= m <= 9999 && 0 <= n <= 9999
    ensures StringLess(Four(m), Four(n)) <==> m < n
    ensures Four(m) == Four(n) <==> m == n
  {
    TwoCompare(m / 100, n / 100);
    TwoCompare(m % 100, n % 100);
    LeadingPartFirst(Two(m / 100), Two(n / 100), Two(m % 100), Two(n % 100));
    assert Four(m)[..2] == Two(m / 100) && Four(n)[..2] == Two(n / 100);
    assert Four(m)[2..] == Two(m % 100) && Four(n)[2..] == Two(n % 100);
  }

  lemma MonthsCompare(y: int, m: int, z: int, n: int)
    requires 0 <= y <= 9999 && 0 <= z <= 9999 && 1 <= m <= 12 && 1 <= n <= 12
    ensures StringLess(FormatMonth(y, m), FormatMonth(z, n)) <==> y < z || (y == z && m < n)
    ensures FormatMonth(y, m) == FormatMonth(z, n) <==> y == z && m == n
  {
    FourCompare(y, z);
    TwoCompare(m, n);
    LeadingPartFirst(Four(y) + "-", Four(z) + "-", Two(m), Two(n));
    LeadingPartFirst(Four(y), Four(z), "-", "-");
    assert FormatMonth(y, m)[..4] == Four(y) && FormatMonth(z, n)[..4] == Four(z);
    assert FormatMonth(y, m)[5..] == Two(m) && FormatMonth(z, n)[5..] == Two(n);
    assert (Four(y) + "-")[..4] == Four(y) && (Four(z) + "-")[..4] == Four(z);
  }

  /** Day texts compare as the days do. */
  lemma DaysCompare(a: Date, b: Date)
    requires Printable(a) && Printable(b)
    ensures StringLess(Format(a), Format(b)) <==> Earlier(a, b)
    ensures Format(a) == Format(b) <==> a == b
  {
    MonthsCompare(a.year, a.month, b.year, b.month);
    TwoCompare(a.day, b.day);
    var s, t := FormatMonth(a.year, a.month), FormatMonth(b.year, b.month);
    assert Format(a) == s + "-" + Two(a.day) && Format(b) == t + "-" + Two(b.day);
    LeadingPartFirst(s + "-", t + "-", Two(a.day), Two(b.day));
    LeadingPartFirst(s, t, "-", "-");
    assert (s + "-")[..7] == s && (t + "-")[..7] == t;
    assert Format(a)[8..] == Two(a.day) && Format(b)[8..] == Two(b.day);
  }

  /** Year, month and day in decimal, four, two and two digits, joined by hyphens. */
  lemma FormatMeans(d: Date)
    requires Printable(d)
    ensures var s := Format(d);
            && s == s[..4] + "-" + s[5..7] + "-" + s[8..]
            && AllDigits(s[..4]) && Value(s[..4]) == d.year
            && AllDigits(s[5..7]) && Value(s[5..7]) == d.month
            && AllDigits(s[8..]) && Value(s[8..]) == d.day
  {
    ValueOfTwo(d.month);
    ValueOfTwo(d.day);
    ValueOfFour(d.year);
    var s := Format(d);
    assert s[..4] == Four(d.year) && s[5..7] == Two(d.month) && s[8..] == Two(d.day);
  }

  lemma ValueOfTwo(n: int)
    requires 0 <= n <= 99
    ensures AllDigits(Two(n)) && Value(Two(n)) == n
  {
    var tens: string := [Digit(n / 10)];
    assert tens[..0] == "" && Value(tens) == n / 10;
    assert Two(n)[..1] == tens && Value(Two(n)) == Value(tens) * 10 + DigitValue(Two(n)[1]);
  }

  lemma ValueOfFour(n: int)
    requires 0 <= n <= 9999
    ensures AllDigits(Four(n)) && Value(Four(n)) == n
  {
    var s := Four(n);
    ValueOfTwo(n / 100);
    assert s[..2] == Two(n / 100) && s[..3] == Two(n / 100) + [s[2]] && s == s[..3] + [s[3]];
    assert s[..3][..2] == s[..2];
  }

  function ParseTwo(s: string): Option<nat>
    requires |s| == 2
  {
    if IsDigit(s[0]) && IsDigit(s[1]) then Some(10 * DigitValue(s[0]) + DigitValue(s[1])) else None
  }

  function ParseMonth(s: string): (r: Option<Date>)
    ensures r.Some? ==> Printable(r.value) && r.value.day == 1
  {
    if |s| != 7 || s[4] != '-' then None
    else match (ParseTwo(s[..2]), ParseTwo(s[2..4]), ParseTwo(s[5..]))
      case (Some(c), Some(y), Some(m)) => if 1 <= m <= 12 then Some(Date(100 * c + y, m, 1)) else None
      case _ => None
  }

  function ParseDay(s: string): Option<Date> {
    if |s| != 10 || s[7] != '-' then None
    else match (ParseMonth(s[..7]), ParseTwo(s[8..]))
      case (Some(first), Some(d)) =>
        var date := first.(day := d);
        if Valid(date) then Some(date) else None
      case _ => None
  }

  lemma ParseTwoOfTwo(n: int)
    requires 0 <= n <= 99
    ensures ParseTwo(Two(n)) == Some(n)
  {
  }

  lemma ParseMonthOfFormat(year: int, month: int)
    requires 0 <= year <= 9999 && 1 <= month <= 12
    ensures ParseMonth(FormatMonth(year, month)) == Some(Date(year, month, 1))
  {
    var s := FormatMonth(year, month);
    assert s[..2] == Two(year / 100) && s[2..4] == Two(year % 100) && s[5..] == Two(month);
    ParseTwoOfTwo(year / 100);
    ParseTwoOfTwo(year % 100);
    ParseTwoOfTwo(month);
  }

  /** A day read back from its text is that day. */
  lemma ParseDayOfFormat(d: Date)
    requires Printable(d)
    ensures ParseDay(Format(d)) == Some(d)
  {
    assert Format(d)[8..] == Two(d.day);
    ParseMonthOfFormat(d.year, d.month);
    ParseTwoOfTwo(d.day);
  }

  lemma TwoOfParseTwo(s: string)
    requires |s| == 2 && ParseTwo(s).Some?
    ensures ParseTwo(s).value <= 99 && Two(ParseTwo(s).value) == s
  {
  }

  /** A month text that parses is the text of the month it parses to. */
  lemma FormatOfParseMonth(s: string)
    requires ParseMonth(s).Some?
    ensures FormatMonth(ParseMonth(s).value.year, ParseMonth(s).value.month) == s
  {
    TwoOfParseTwo(s[..2]);
    TwoOfParseTwo(s[2..4]);
    TwoOfParseTwo(s[5..]);
    var c, y := ParseTwo(s[..2]).value, ParseTwo(s[2..4]).value;
    assert (100 * c + y) / 100 == c && (100 * c + y) % 100 == y;
    assert s == s[..2] + s[2..4] + "-" + s[5..];
  }

  // ----- months

  /** AddDate(0, 1, -1) of a month's first day. */
  function MonthEnd(first: Date): Date
    requires Valid(first) && first.day == 1
  {
    Previous(if first.month == 12 then Date(first.year + 1, 1, 1) else Date(first.year, first.month + 1, 1))
  }

  lemma MonthEndIsLastDay(first: Date)
    requires Valid(first) && first.day == 1
    ensures MonthEnd(first) == first.(day := MonthLength(first.year, first.month))
  {
  }
}

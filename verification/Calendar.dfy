/** Calendar dates as the HRM query validator sees them: the day arithmetic of
    section 21.4.1 of ECMA-262 and the `validDate` round trip built on it. */
module Calendar {
  import opened Wrappers
  import Strings

  predicate Leap(y: int) {
    y % 4 == 0 && (y % 100 != 0 || y % 400 == 0)
  }

  function DaysInMonth(y: int, m: int): int {
    if m == 2 then (if Leap(y) then 29 else 28)
    else if m == 4 || m == 6 || m == 9 || m == 11 then 30
    else 31
  }

  datatype Date = Date(y: int, m: int, d: int)

  /** A day of the proleptic Gregorian calendar, in any year. */
  predicate CalendarDay(t: Date) {
    1 <= t.m <= 12 && 1 <= t.d <= DaysInMonth(t.y, t.m)
  }

  /** One in the years that four digits can name. */
  predicate RealDate(t: Date) {
    0 <= t.y <= 9999 && CalendarDay(t)
  }

  /** The calendar's own successor: the reference the day numbers are checked against. */
  function NextDate(t: Date): Date {
    if t.d < DaysInMonth(t.y, t.m) then t.(d := t.d + 1)
    else if t.m < 12 then Date(t.y, t.m + 1, 1)
    else Date(t.y + 1, 1, 1)
  }

  /** Chronological order, field by field. */
  predicate Earlier(a: Date, b: Date) {
    a.y < b.y || (a.y == b.y && (a.m < b.m || (a.m == b.m && a.d < b.d)))
  }

  // ---------------------------------------------------------------- day numbers

  /** DayFromYear of section 21.4.1.3; every divisor is positive, so `/` is the floor. */
  function DayFromYear(y: int): int {
    365 * (y - 1970) + (y - 1969) / 4 - (y - 1901) / 100 + (y - 1601) / 400
  }

  function DaysBefore(y: int, m: int): int
    requires 1 <= m <= 13
    decreases m
  {
    if m == 1 then 0 else DaysBefore(y, m - 1) + DaysInMonth(y, m - 1)
  }

  /** MakeDay: a day of month past the end of its month rolls into the next one. */
  function DayNumber(t: Date): int
    requires 1 <= t.m <= 12
  {
    DayFromYear(t.y) + DaysBefore(t.y, t.m) + t.d - 1
  }

  lemma {:induction false} StepBy4(y: int)
    ensures (y - 1968) / 4 - (y - 1969) / 4 == if y % 4 == 0 then 1 else 0
  {
  }

  lemma {:induction false} StepBy100(y: int)
    ensures (y - 1900) / 100 - (y - 1901) / 100 == if y % 100 == 0 then 1 else 0
  {
  }

  lemma {:induction false} StepBy400(y: int)
    ensures (y - 1600) / 400 - (y - 1601) / 400 == if y % 400 == 0 then 1 else 0
  {
  }

  lemma {:induction false} CenturiesAreFourths(y: int)
    ensures y % 100 == 0 ==> y % 4 == 0
    ensures y % 400 == 0 ==> y % 100 == 0
  {
  }

  lemma {:induction false} YearLength(y: int)
    ensures DayFromYear(y + 1) - DayFromYear(y) == if Leap(y) then 366 else 365
  {
    StepBy4(y);
    StepBy100(y);
    StepBy400(y);
    CenturiesAreFourths(y);
    YearLengthFromSteps(y, (y - 1969) / 4, (y - 1901) / 100, (y - 1601) / 400,
                        (y - 1968) / 4, (y - 1900) / 100, (y - 1600) / 400, y % 4 == 0, y % 100 == 0, y % 400 == 0);
  }

  lemma {:induction false} YearLengthFromSteps(y: int, a: int, b: int, c: int, a': int, b': int, c': int, four: bool,
          century: bool, fourth: bool)
    requires a' - a == if four then 1 else 0
    requires b' - b == if century then 1 else 0
    requires c' - c == if fourth then 1 else 0
    requires (century ==> four) && (fourth ==> century)
    ensures (365 * (y - 1969) + a' - b' + c') - (365 * (y - 1970) + a - b + c) ==
            if four && (!century || fourth) then 366 else 365
  {
  }

  lemma {:induction false} DaysBeforeTable(y: int)
    ensures var leap := if Leap(y) then 1 else 0;
            && DaysBefore(y, 1) == 0 && DaysBefore(y, 2) == 31 && DaysBefore(y, 3) == 59 + leap
            && DaysBefore(y, 4) == 90 + leap && DaysBefore(y, 5) == 120 + leap && DaysBefore(y, 6) == 151 + leap
            && DaysBefore(y, 7) == 181 + leap && DaysBefore(y, 8) == 212 + leap && DaysBefore(y, 9) == 243 + leap
            && DaysBefore(y, 10) == 273 + leap && DaysBefore(y, 11) == 304 + leap && DaysBefore(y, 12) == 334 + leap
            && DaysBefore(y, 13) == 365 + leap
  {
    assert DaysBefore(y, 3) == DaysBefore(y, 2) + DaysInMonth(y, 2);
    assert DaysBefore(y, 5) == DaysBefore(y, 4) + DaysInMonth(y, 4);
    assert DaysBefore(y, 7) == DaysBefore(y, 6) + DaysInMonth(y, 6);
    assert DaysBefore(y, 9) == DaysBefore(y, 8) + DaysInMonth(y, 8);
    assert DaysBefore(y, 11) == DaysBefore(y, 10) + DaysInMonth(y, 10);
    assert DaysBefore(y, 13) == DaysBefore(y, 12) + DaysInMonth(y, 12);
  }

  /** Consecutive calendar days have consecutive numbers, and 1970-01-01 is day 0: together
      these two facts determine the number of every day. */
  lemma {:induction false} DayNumberCountsDays(t: Date)
    requires CalendarDay(t)
    ensures DayNumber(NextDate(t)) == DayNumber(t) + 1
    ensures DayNumber(Date(1970, 1, 1)) == 0
  {
    YearLength(t.y);
    DaysBeforeTable(t.y);
  }

  /** The next day is a day, and no day lies between. */
  lemma {:induction false} NextDateIsNext(t: Date, u: Date)
    requires CalendarDay(t)
    ensures CalendarDay(NextDate(t)) && Earlier(t, NextDate(t))
    ensures CalendarDay(u) && Earlier(t, u) ==> u == NextDate(t) || Earlier(NextDate(t), u)
  {
  }

  lemma {:induction false} YearsAscend(y: int, z: int)
    requires y <= z
    ensures DayFromYear(y) + 365 * (z - y) <= DayFromYear(z)
    decreases z - y
  {
    if y < z {
      YearLength(y);
      YearsAscend(y + 1, z);
    }
  }

  /** Even an overlong day of month stays in its year. */
  lemma {:induction false} DayStaysInYear(t: Date)
    requires 1 <= t.m <= 12 && 1 <= t.d <= 31
    ensures DayFromYear(t.y) <= DayNumber(t) < DayFromYear(t.y + 1)
    ensures 0 <= DaysBefore(t.y, t.m)
    ensures t.d <= DaysInMonth(t.y, t.m) ==> DaysBefore(t.y, t.m) + t.d - 1 < DaysBefore(t.y, t.m + 1)
  {
    YearLength(t.y);
    DaysBeforeTable(t.y);
  }

  lemma {:induction false} MonthsAscend(y: int, m: int, n: int)
    requires 1 <= m <= n <= 13
    ensures DaysBefore(y, m) <= DaysBefore(y, n)
    decreases n
  {
    if m < n { MonthsAscend(y, m, n - 1); }
  }

  lemma {:induction false} EarlierHasSmallerNumber(a: Date, b: Date)
    requires RealDate(a) && RealDate(b) && Earlier(a, b)
    ensures DayNumber(a) < DayNumber(b)
  {
    DayStaysInYear(a);
    DayStaysInYear(b);
    if a.y < b.y {
      YearsAscend(a.y + 1, b.y);
    } else if a.m < b.m {
      MonthsAscend(a.y, a.m + 1, b.m);
    }
  }

  /** Day numbers order real dates exactly as the calendar does. */
  lemma {:induction false} DayNumberOrdersDates(a: Date, b: Date)
    requires RealDate(a) && RealDate(b)
    ensures Earlier(a, b) <==> DayNumber(a) < DayNumber(b)
    ensures DayNumber(a) == DayNumber(b) <==> a == b
  {
    if Earlier(a, b) { EarlierHasSmallerNumber(a, b); }
    if Earlier(b, a) { EarlierHasSmallerNumber(b, a); }
  }

  // ------------------------------------------------------- from a day number back

  /** YearFromTime of section 21.4.1.3: the largest year that has begun by day n. */
  function YearFrom(n: int, y: int): (r: int)
    requires DayFromYear(y) <= n
    ensures y <= r && DayFromYear(r) <= n < DayFromYear(r + 1)
    decreases n - DayFromYear(y)
  {
    YearLength(y);
    if DayFromYear(y + 1) <= n then YearFrom(n, y + 1) else y
  }

  function MonthFrom(y: int, k: int, m: int): (r: int)
    requires 1 <= m <= 12 && DaysBefore(y, m) <= k < DaysBefore(y, 13)
    ensures m <= r <= 12 && DaysBefore(y, r) <= k < DaysBefore(y, r + 1)
    decreases 12 - m
  {
    if k < DaysBefore(y, m + 1) then m else MonthFrom(y, k, m + 1)
  }

  /** A year that has begun by day n. */
  function YearBefore(n: int): (y: int)
    ensures DayFromYear(y) <= n
  {
    if n >= 0 then 1970 else (YearsAscend(1970 + n, 1970); 1970 + n)
  }

  function DateFrom(n: int): (t: Date)
    ensures CalendarDay(t) && DayNumber(t) == n
    ensures DayFromYear(t.y) <= n < DayFromYear(t.y + 1)
  {
    var y := YearFrom(n, YearBefore(n));
    YearLength(y);
    DaysBeforeTable(y);
    var k := n - DayFromYear(y);
    var m := MonthFrom(y, k, 1);
    assert DaysBefore(y, m + 1) == DaysBefore(y, m) + DaysInMonth(y, m);
    Date(y, m, k - DaysBefore(y, m) + 1)
  }

  lemma {:induction false} YearHasBegun(n: int, y: int, a: int)
    requires DayFromYear(y) <= n < DayFromYear(y + 1)
    ensures a <= y <==> DayFromYear(a) <= n
  {
    if a <= y { YearsAscend(a, y); } else { YearsAscend(y + 1, a); }
  }

  /** A year covers the days from its first to the first of the next year. */
  lemma {:induction false} YearRange(n: int, a: int, b: int)
    ensures a <= DateFrom(n).y < b <==> DayFromYear(a) <= n < DayFromYear(b)
  {
    YearHasBegun(n, DateFrom(n).y, a);
    YearHasBegun(n, DateFrom(n).y, b);
  }

  /** Reading a number back as a date undoes numbering it. */
  lemma {:induction false} DateFromInvertsDayNumber(t: Date)
    requires RealDate(t)
    ensures DayFromYear(0) <= DayNumber(t) < DayFromYear(10000)
    ensures DateFrom(DayNumber(t)) == t
  {
    DayStaysInYear(t);
    YearsAscend(0, t.y);
    YearsAscend(t.y + 1, 10000);
    YearRange(DayNumber(t), 0, 10000);
    DayNumberOrdersDates(DateFrom(DayNumber(t)), t);
  }

  // ------------------------------------------------------------------- text form

  predicate Digit(c: char) { '0' <= c <= '9' }

  function DigitValue(c: char): (v: int)
    requires Digit(c)
    ensures 0 <= v <= 9
  {
    c as int - '0' as int
  }

  function DigitChar(v: int): (c: char)
    requires 0 <= v <= 9
    ensures Digit(c) && DigitValue(c) == v
  {
    '0' + v as char
  }

  /** The pattern test of validDate: four digits, two digits, two digits. */
  predicate DatePattern(s: string) {
    && |s| == 10 && s[4] == '-' && s[7] == '-'
    && Digit(s[0]) && Digit(s[1]) && Digit(s[2]) && Digit(s[3])
    && Digit(s[5]) && Digit(s[6]) && Digit(s[8]) && Digit(s[9])
  }

  function Fields(s: string): Date
    requires DatePattern(s)
  {
    Date(1000 * DigitValue(s[0]) + 100 * DigitValue(s[1]) + 10 * DigitValue(s[2]) + DigitValue(s[3]),
         10 * DigitValue(s[5]) + DigitValue(s[6]),
         10 * DigitValue(s[8]) + DigitValue(s[9]))
  }

  function TwoDigits(v: int): (s: string)
    requires 0 <= v <= 99
    ensures |s| == 2 && Digit(s[0]) && Digit(s[1]) && 10 * DigitValue(s[0]) + DigitValue(s[1]) == v
  {
    [DigitChar(v / 10), DigitChar(v % 10)]
  }

  /** The first ten characters of toISOString for a year of four digits. */
  function Format(t: Date): (s: string)
    requires 0 <= t.y <= 9999 && 0 <= t.m <= 99 && 0 <= t.d <= 99
    ensures DatePattern(s) && Fields(s) == t
  {
    var c, y, m, d := TwoDigits(t.y / 100), TwoDigits(t.y % 100), TwoDigits(t.m), TwoDigits(t.d);
    [c[0], c[1], y[0], y[1], '-', m[0], m[1], '-', d[0], d[1]]
  }

  lemma {:induction false} PairDeterminesDigits(a: char, b: char, c: char, d: char)
    requires Digit(a) && Digit(b) && Digit(c) && Digit(d)
    requires 10 * DigitValue(a) + DigitValue(b) == 10 * DigitValue(c) + DigitValue(d)
    ensures a == c && b == d
  {
    assert DigitValue(a) == DigitValue(c) && DigitValue(b) == DigitValue(d);
  }

  lemma {:induction false} FieldsDetermineText(s: string, t: string)
    requires DatePattern(s) && DatePattern(t) && Fields(s) == Fields(t)
    ensures s == t
  {
    var hi, lo := 10 * DigitValue(s[0]) + DigitValue(s[1]), 10 * DigitValue(s[2]) + DigitValue(s[3]);
    var hi', lo' := 10 * DigitValue(t[0]) + DigitValue(t[1]), 10 * DigitValue(t[2]) + DigitValue(t[3]);
    assert Fields(s).y == 100 * hi + lo && Fields(t).y == 100 * hi' + lo';
    assert hi == hi' && lo == lo';
    PairDeterminesDigits(s[0], s[1], t[0], t[1]);
    PairDeterminesDigits(s[2], s[3], t[2], t[3]);
    PairDeterminesDigits(s[5], s[6], t[5], t[6]);
    PairDeterminesDigits(s[8], s[9], t[8], t[9]);
    assert forall i :: 0 <= i < 10 ==> s[i] == t[i];
  }

  /** Date.parse of the text at midnight UTC, as a day number.  A day of month up to 31 that its
      month does not have is refused by some engines and rolled into the next month by others;
      `lenient` says which engine this is. */
  function DateParse(s: string, lenient: bool): (r: Option<int>)
    requires DatePattern(s)
  {
    var t := Fields(s);
    if 1 <= t.m <= 12 && 1 <= t.d <= (if lenient then 31 else DaysInMonth(t.y, t.m)) then Some(DayNumber(t)) else None
  }

  function IsoDay(n: int): string
    requires DayFromYear(0) <= n < DayFromYear(10000)
  {
    YearRange(n, 0, 10000);
    Format(DateFrom(n))
  }

  lemma {:induction false} ParsedDayIsRepresentable(s: string, lenient: bool)
    requires DatePattern(s) && DateParse(s, lenient).Some?
    ensures DayFromYear(0) <= DateParse(s, lenient).value < DayFromYear(10000)
  {
    var t := Fields(s);
    DayStaysInYear(t);
    YearsAscend(0, t.y);
    YearsAscend(t.y + 1, 10000);
  }

  /** validDate: the pattern, a parse that is not NaN, and the same text printed back. */
  predicate ValidDate(s: string, lenient: bool) {
    && DatePattern(s)
    && DateParse(s, lenient).Some?
    && (ParsedDayIsRepresentable(s, lenient); IsoDay(DateParse(s, lenient).value) == s)
  }

  /** The text names a real day. */
  predicate NamesRealDay(s: string) {
    DatePattern(s) && RealDate(Fields(s))
  }

  lemma {:induction false} RealDayIsPrintedBack(s: string)
    requires NamesRealDay(s)
    ensures DayFromYear(0) <= DayNumber(Fields(s)) < DayFromYear(10000)
    ensures IsoDay(DayNumber(Fields(s))) == s
  {
    DateFromInvertsDayNumber(Fields(s));
    FieldsDetermineText(s, Format(Fields(s)));
  }

  lemma {:induction false} PrintedBackIsReal(n: int)
    requires DayFromYear(0) <= n < DayFromYear(10000)
    ensures NamesRealDay(IsoDay(n))
  {
    YearRange(n, 0, 10000);
  }

  lemma {:induction false} RealDayIsValid(s: string, lenient: bool)
    requires NamesRealDay(s)
    ensures DateParse(s, lenient) == Some(DayNumber(Fields(s))) && ValidDate(s, lenient)
  {
    RealDayIsPrintedBack(s);
  }

  lemma {:induction false} ValidIsRealDay(s: string, lenient: bool)
    requires ValidDate(s, lenient)
    ensures NamesRealDay(s)
  {
    ParsedDayIsRepresentable(s, lenient);
    PrintedBackIsReal(DateParse(s, lenient).value);
  }

  /** validDate accepts exactly the real Gregorian days, whichever way the engine treats
      an overlong day of month. */
  lemma {:induction false} ValidDateIffRealDay(s: string, lenient: bool)
    ensures ValidDate(s, lenient) <==> NamesRealDay(s)
    ensures NamesRealDay(s) ==> DateParse(s, lenient) == Some(DayNumber(Fields(s)))
  {
    if NamesRealDay(s) {
      RealDayIsValid(s, lenient);
    } else if ValidDate(s, lenient) {
      ValidIsRealDay(s, lenient);
    }
  }

  // ----------------------------------------------------------- a day printed for the API

  /** `${year}`: decimal, without padding. */
  function YearText(y: int): string {
    if y < 0 then "-" + Strings.Decimal(-y) else Strings.Decimal(y)
  }

  /** The year as it is, month and day padded to two digits. */
  function DateText(t: Date): string
    requires CalendarDay(t)
  {
    YearText(t.y) + "-" + TwoDigits(t.m) + "-" + TwoDigits(t.d)
  }

  /** A date column in an answer. */
  function PrintedDay(n: int): string {
    DateText(DateFrom(n))
  }

  lemma {:induction false} DecimalLength(v: nat)
    ensures |Strings.Decimal(v)| == 4 <==> 1000 <= v <= 9999
    ensures |Strings.Decimal(v)| >= 1
  {
    assert v >= 10 ==> |Strings.Decimal(v)| == |Strings.Decimal(v / 10)| + 1;
    assert v >= 100 ==> |Strings.Decimal(v / 10)| == |Strings.Decimal(v / 100)| + 1;
    assert v >= 1000 ==> |Strings.Decimal(v / 100)| == |Strings.Decimal(v / 1000)| + 1;
    assert v >= 10000 ==> |Strings.Decimal(v / 1000)| == |Strings.Decimal(v / 10000)| + 1;
  }

  lemma {:induction false} AppendDigit(v: int, q: int, d: int)
    requires 1 <= q && 0 <= d <= 9 && v == 10 * q + d
    ensures Strings.Decimal(v) == Strings.Decimal(q) + [DigitChar(d)]
  {
    assert v / 10 == q && v % 10 == d;
  }

  lemma {:induction false} TwoDigitNumber(v: int)
    requires 10 <= v <= 99
    ensures Strings.Decimal(v) == TwoDigits(v)
  {
    AppendDigit(v, v / 10, v % 10);
    assert Strings.Decimal(v / 10) == [DigitChar(v / 10)];
  }

  lemma {:induction false} ThreeDigitNumber(v: int)
    requires 100 <= v <= 999
    ensures Strings.Decimal(v) == TwoDigits(v / 10) + [DigitChar(v % 10)]
  {
    AppendDigit(v, v / 10, v % 10);
    TwoDigitNumber(v / 10);
  }

  lemma {:induction false} FourDigitNumber(v: int)
    requires 1000 <= v <= 9999
    ensures Strings.Decimal(v) == TwoDigits(v / 100) + TwoDigits(v % 100)
  {
    var hi, lo := v / 100, v % 100;
    assert v / 10 == 10 * hi + lo / 10 && v % 10 == lo % 10;
    assert v / 10 / 10 == hi && v / 10 % 10 == lo / 10;
    ThreeDigitNumber(v / 10);
    AppendDigit(v, v / 10, v % 10);
  }

  lemma {:induction false} PrintedIsFormatted(t: Date)
    requires RealDate(t) && t.y >= 1000
    ensures DateText(t) == Format(t)
  {
    FourDigitNumber(t.y);
    assert YearText(t.y) == TwoDigits(t.y / 100) + TwoDigits(t.y % 100);
  }

  lemma {:induction false} UnpaddedYearIsRefused(t: Date)
    requires CalendarDay(t) && !(1000 <= t.y <= 9999)
    ensures !DatePattern(DateText(t))
  {
    if t.y >= 0 {
      DecimalLength(t.y);
    } else {
      assert DateText(t)[0] == '-';
    }
  }

  /** A day printed for the API is accepted when it is sent back exactly when its year has four
      digits, and then it denotes the same day. */
  lemma {:induction false} PrintedDayReadsBack(n: int, lenient: bool)
    ensures ValidDate(PrintedDay(n), lenient) <==> DayFromYear(1000) <= n < DayFromYear(10000)
    ensures ValidDate(PrintedDay(n), lenient) ==> DayNumber(Fields(PrintedDay(n))) == n
  {
    var t := DateFrom(n);
    YearRange(n, 1000, 10000);
    ValidDateIffRealDay(PrintedDay(n), lenient);
    if 1000 <= t.y < 10000 { PrintedIsFormatted(t); } else { UnpaddedYearIsRefused(t); }
  }

  /** A day of a year before 1000 is accepted in its padded form, but printed as text that is refused. */
  lemma {:induction false} EarlyYearIsRefused(t: Date, lenient: bool)
    requires RealDate(t) && t.y < 1000
    ensures ValidDate(Format(t), lenient) && DateParse(Format(t), lenient) == Some(DayNumber(t))
    ensures PrintedDay(DayNumber(t)) == DateText(t) && !ValidDate(DateText(t), lenient)
  {
    ValidDateIffRealDay(Format(t), lenient);
    DateFromInvertsDayNumber(t);
    UnpaddedYearIsRefused(t);
  }

  /** The first of May 999: "0999-05-01" in its padded form, "999-05-01" as printed. */
  lemma {:induction false} FirstOfMay999(t: Date)
    requires t.y == 999 && t.m == 5 && t.d == 1
    ensures RealDate(t) && Format(t) == "0999-05-01" && DateText(t) == "999-05-01"
  {
    assert Strings.Decimal(9) == "9";
    assert Strings.Decimal(99) == Strings.Decimal(9) + "9";
    assert Strings.Decimal(999) == Strings.Decimal(99) + "9";
  }

  lemma {:induction false} YearOrder(s: string, t: string, i: nat)
    requires DatePattern(s) && DatePattern(t) && i < 4 && s[i] != t[i] && forall j :: 0 <= j < i ==> s[j] == t[j]
    ensures Fields(s).y < Fields(t).y <==> s[i] < t[i]
    ensures Fields(s).y != Fields(t).y
  {
    var hi, lo := 10 * DigitValue(s[0]) + DigitValue(s[1]), 10 * DigitValue(s[2]) + DigitValue(s[3]);
    var hi', lo' := 10 * DigitValue(t[0]) + DigitValue(t[1]), 10 * DigitValue(t[2]) + DigitValue(t[3]);
    assert Fields(s).y == 100 * hi + lo && Fields(t).y == 100 * hi' + lo';
    if i < 2 {
      assert hi < hi' <==> s[i] < t[i];
    } else {
      assert hi == hi' && (lo < lo' <==> s[i] < t[i]);
    }
  }

  lemma {:induction false} DayOrder(s: string, t: string, i: nat)
    requires DatePattern(s) && DatePattern(t) && 4 <= i < 10 && s[i] != t[i] && forall j :: 0 <= j < i ==> s[j] == t[j]
    ensures Earlier(Fields(s), Fields(t)) <==> s[i] < t[i]
  {
    assert Fields(s).y == Fields(t).y;
    if i < 7 {
      assert Fields(s).m < Fields(t).m <==> s[i] < t[i];
    } else {
      assert Fields(s).m == Fields(t).m && (Fields(s).d < Fields(t).d <==> s[i] < t[i]);
    }
  }

  /** Comparing two dates as strings is comparing them on the calendar. */
  lemma {:induction false} StringOrderIsChronological(s: string, t: string)
    requires NamesRealDay(s) && NamesRealDay(t)
    ensures Strings.Less(s, t) <==> Earlier(Fields(s), Fields(t))
    ensures Strings.Less(s, t) <==> DayNumber(Fields(s)) < DayNumber(Fields(t))
  {
    DayNumberOrdersDates(Fields(s), Fields(t));
    if s == t {
      Strings.LessIsStrictTotalOrder(s, s, s);
    } else {
      var i := Strings.FirstDifference(s, t, 0);
      Strings.LessFromDifference(s, t, i);
      forall j | 0 <= j < i ensures s[j] == t[j] { assert s[..i][j] == t[..i][j]; }
      if i < 4 { YearOrder(s, t, i); } else { DayOrder(s, t, i); }
    }
  }
}

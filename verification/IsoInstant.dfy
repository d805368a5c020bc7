/**
 * UTC instants as the artifact table stores them: ISO text to the microsecond, with the
 * fraction left out when it is zero. Expiry is decided by comparing those texts.
 */
module IsoInstant {
  import opened Outcomes

  /** A civil UTC date and time. */
  datatype Instant = Instant(year: nat, month: nat, day: nat, hour: nat, minute: nat, second: nat, micro: nat)

  // ---- the calendar ----

  const MAX_YEAR := 9999

  predicate IsLeap(year: nat) {
    year % 4 == 0 && (year % 100 != 0 || year % 400 == 0)
  }

  function DaysInMonth(year: nat, month: nat): nat {
    if month == 2 then (if IsLeap(year) then 29 else 28)
    else if month in {4, 6, 9, 11} then 30
    else 31
  }

  function DaysInYear(year: nat): nat {
    if IsLeap(year) then 366 else 365
  }

  function DaysBeforeYear(year: nat): nat {
    if year <= 1 then 0 else DaysBeforeYear(year - 1) + DaysInYear(year - 1)
  }

  function DaysBeforeMonth(year: nat, month: nat): nat {
    if month <= 1 then 0 else DaysBeforeMonth(year, month - 1) + DaysInMonth(year, month - 1)
  }

  predicate Valid(t: Instant) {
    && 1 <= t.year <= MAX_YEAR && 1 <= t.month <= 12 && 1 <= t.day <= DaysInMonth(t.year, t.month)
    && t.hour < 24 && t.minute < 60 && t.second < 60 && t.micro < 1_000_000
  }

  /** An instant on the calendar. */
  type Utc = t: Instant | Valid(t) witness Instant(1970, 1, 1, 0, 0, 0, 0)

  function Days(t: Instant): nat {
    DaysBeforeYear(t.year) + DaysBeforeMonth(t.year, t.month) + t.day
  }

  function Seconds(t: Instant): nat {
    Days(t) * 86_400 + t.hour * 3_600 + t.minute * 60 + t.second
  }

  /** The position on the time line. */
  function Micros(t: Instant): nat {
    Seconds(t) * 1_000_000 + t.micro
  }

  function NextDay(t: Instant): Instant {
    if t.day < DaysInMonth(t.year, t.month) then t.(day := t.day + 1)
    else if t.month < 12 then t.(month := t.month + 1, day := 1)
    else t.(year := t.year + 1, month := 1, day := 1)
  }

  function NextSecond(t: Instant): Instant {
    if t.second < 59 then t.(second := t.second + 1)
    else if t.minute < 59 then t.(minute := t.minute + 1, second := 0)
    else if t.hour < 23 then t.(hour := t.hour + 1, minute := 0, second := 0)
    else NextDay(t).(hour := 0, minute := 0, second := 0)
  }

  /** Nothing when the sum is past the last representable year. */
  function AddSeconds(t: Instant, n: nat): Option<Instant> {
    if n == 0 then Some(t)
    else
      match AddSeconds(t, n - 1)
      case None => None
      case Some(u) => if NextSecond(u).year > MAX_YEAR then None else Some(NextSecond(u))
  }

  lemma MonthsFillTheYear(year: nat)
    ensures DaysBeforeMonth(year, 12) + 31 == DaysInYear(year)
  {
    assert DaysBeforeMonth(year, 3) == 31 + DaysInMonth(year, 2) by {
      assert DaysBeforeMonth(year, 2) == 31;
    }
    assert DaysBeforeMonth(year, 5) == DaysBeforeMonth(year, 3) + 61 by {
      assert DaysBeforeMonth(year, 4) == DaysBeforeMonth(year, 3) + 31;
    }
    assert DaysBeforeMonth(year, 7) == DaysBeforeMonth(year, 5) + 61 by {
      assert DaysBeforeMonth(year, 6) == DaysBeforeMonth(year, 5) + 31;
    }
    assert DaysBeforeMonth(year, 9) == DaysBeforeMonth(year, 7) + 62 by {
      assert DaysBeforeMonth(year, 8) == DaysBeforeMonth(year, 7) + 31;
    }
    assert DaysBeforeMonth(year, 11) == DaysBeforeMonth(year, 9) + 61 by {
      assert DaysBeforeMonth(year, 10) == DaysBeforeMonth(year, 9) + 30;
    }
  }

  // ---- the calendar, counted without the lengths of its months ----

  /** The days before each month of a common year, and before the next year. */
  const DAYS_BEFORE_MONTH: seq<nat> := [0, 31, 59, 90, 120, 151, 181, 212, 243, 273, 304, 334, 365]

  /** The days of all earlier years: every fourth is a day longer, a hundredth is not, a four hundredth is. */
  function GregorianDays(year: nat): int
    requires year >= 1
  {
    365 * (year - 1) + (year - 1) / 4 - (year - 1) / 100 + (year - 1) / 400
  }

  lemma {:induction false} YearsAreGregorian(year: nat)
    requires year >= 1
    ensures DaysBeforeYear(year) == GregorianDays(year)
  {
    if year > 1 {
      YearsAreGregorian(year - 1);
      YearIsGregorian(year - 1);
    }
  }

  // A period is full one year later exactly when the year is a multiple of it.
  lemma Quotients(year: nat)
    requires year >= 1
    ensures year / 4 == (year - 1) / 4 + if year % 4 == 0 then 1 else 0
    ensures year / 100 == (year - 1) / 100 + if year % 100 == 0 then 1 else 0
    ensures year / 400 == (year - 1) / 400 + if year % 400 == 0 then 1 else 0
  {
  }

  lemma Periods(year: nat)
    ensures year % 100 == 0 ==> year % 4 == 0
    ensures year % 400 == 0 ==> year % 100 == 0
  {
    if year % 100 == 0 {
      assert year == 4 * (25 * (year / 100));
    }
    if year % 400 == 0 {
      assert year == 100 * (4 * (year / 400));
    }
  }

  lemma YearIsGregorian(year: nat)
    requires year >= 1
    ensures GregorianDays(year + 1) == GregorianDays(year) + DaysInYear(year)
  {
    Quotients(year);
    Periods(year);
  }

  lemma {:induction false} MonthsAreGregorian(year: nat, month: nat)
    requires 1 <= month <= 13
    ensures DaysBeforeMonth(year, month)
            == DAYS_BEFORE_MONTH[month - 1] + if month > 2 && IsLeap(year) then 1 else 0
  {
    if month > 1 {
      MonthsAreGregorian(year, month - 1);
    }
  }

  /**
   * The calendar is the Gregorian one: the day count of a date is the closed form of its year, the table
   * of its month with a day more after February of a leap year, and its day; and a month has the days up
   * to the next. A year is leap exactly when the next begins 366 days later.
   */
  lemma CalendarIsGregorian(t: Instant)
    requires t.year >= 1 && 1 <= t.month <= 12
    ensures var leap := if GregorianDays(t.year + 1) - GregorianDays(t.year) == 366 then 1 else 0;
            var before := DAYS_BEFORE_MONTH[t.month - 1] + if t.month > 2 then leap else 0;
            var next := DAYS_BEFORE_MONTH[t.month] + if t.month > 1 then leap else 0;
            && Days(t) == GregorianDays(t.year) + before + t.day
            && DaysInMonth(t.year, t.month) == next - before
            && (Valid(t) ==> t.day <= next - before)
  {
    YearsAreGregorian(t.year);
    YearsAreGregorian(t.year + 1);
    MonthsAreGregorian(t.year, t.month);
    MonthsAreGregorian(t.year, t.month + 1);
  }

  lemma NextDayIsNext(t: Instant)
    requires Valid(t)
    ensures Days(NextDay(t)) == Days(t) + 1
  {
    if t.day == DaysInMonth(t.year, t.month) && t.month == 12 {
      MonthsFillTheYear(t.year);
    }
  }

  lemma NextSecondIsNext(t: Instant)
    requires Valid(t) && NextSecond(t).year <= MAX_YEAR
    ensures Valid(NextSecond(t)) && Seconds(NextSecond(t)) == Seconds(t) + 1 && NextSecond(t).micro == t.micro
  {
    hide DaysBeforeYear, DaysBeforeMonth;
    NextDayIsNext(t);
    if NextDay(t).year <= MAX_YEAR {
      NextDayIsValid(t);
    }
    assert Days(NextDay(t).(hour := 0, minute := 0, second := 0)) == Days(NextDay(t));
  }

  lemma NextDayIsValid(t: Instant)
    requires Valid(t) && NextDay(t).year <= MAX_YEAR
    ensures Valid(NextDay(t))
  {
  }

  lemma NextSecondMoves(u: Instant)
    requires Valid(u) && NextSecond(u).year <= MAX_YEAR
    ensures Valid(NextSecond(u)) && Micros(NextSecond(u)) == Micros(u) + 1_000_000
  {
    hide NextSecond, Seconds, Valid;
    NextSecondIsNext(u);
  }

  const LAST_INSTANT := Instant(MAX_YEAR, 12, 31, 23, 59, 59, 999_999)

  lemma PastTheCalendar(u: Instant)
    requires Valid(u) && NextSecond(u).year > MAX_YEAR
    ensures Micros(u) + 1_000_000 > Micros(LAST_INSTANT)
  {
    hide DaysBeforeYear, DaysBeforeMonth;
    assert u.year == MAX_YEAR && u.month == 12 && u.day == 31 && u.hour == 23 && u.minute == 59 && u.second == 59;
    assert Seconds(u) == Seconds(LAST_INSTANT);
    hide Seconds;
  }

  /**
   * Adding seconds moves exactly that far along the time line, through month ends and leap days. There
   * is no result only when the sum lies past the last instant of the calendar.
   */
  lemma {:induction false} AddSecondsIsExact(t: Instant, n: nat)
    requires Valid(t)
    ensures AddSeconds(t, n).Some? ==>
              Valid(AddSeconds(t, n).value) && Micros(AddSeconds(t, n).value) == Micros(t) + n * 1_000_000
    ensures AddSeconds(t, n).None? ==> Micros(t) + n * 1_000_000 > Micros(LAST_INSTANT)
  {
    hide NextSecond, Valid, Micros;
    if n > 0 {
      AddSecondsIsExact(t, n - 1);
      if AddSeconds(t, n - 1).Some? {
        var u := AddSeconds(t, n - 1).value;
        if NextSecond(u).year <= MAX_YEAR {
          NextSecondMoves(u);
        } else {
          PastTheCalendar(u);
        }
      }
    }
  }

  lemma PartsAreUnique(a: Instant, b: Instant)
    requires Valid(a) && Valid(b) && a.micro == b.micro && Seconds(b) == Seconds(a) + 86_400
    ensures Days(b) == Days(a) + 1 && b.hour == a.hour && b.minute == a.minute && b.second == a.second
  {
    hide Days;
    var x, y := a.hour * 3_600 + a.minute * 60 + a.second, b.hour * 3_600 + b.minute * 60 + b.second;
    assert 0 <= x < 86_400 && 0 <= y < 86_400;
    assert x == y;
    assert a.minute * 60 + a.second < 3_600 && b.minute * 60 + b.second < 3_600;
    assert a.hour == b.hour;
  }

  /** A day has 86,400 seconds: adding them gives the same time on the next day of the calendar. */
  lemma DayLater(t: Instant)
    requires Valid(t) && AddSeconds(t, 86_400).Some?
    ensures var u := AddSeconds(t, 86_400).value;
            Valid(u) && Days(u) == Days(t) + 1
            && u.hour == t.hour && u.minute == t.minute && u.second == t.second && u.micro == t.micro
  {
    hide AddSeconds, Days, Valid;
    AddSecondsIsExact(t, 86_400);
    SameMicro(t, 86_400);
    PartsAreUnique(t, AddSeconds(t, 86_400).value);
  }

  lemma {:induction false} SameMicro(t: Instant, n: nat)
    requires Valid(t)
    ensures AddSeconds(t, n).Some? ==> AddSeconds(t, n).value.micro == t.micro
  {
    if n > 0 {
      SameMicro(t, n - 1);
    }
  }

  // ---- the order of civil dates is the order of time ----

  predicate Before(a: Instant, b: Instant) {
    if a.year != b.year then a.year < b.year
    else if a.month != b.month then a.month < b.month
    else if a.day != b.day then a.day < b.day
    else if a.hour != b.hour then a.hour < b.hour
    else if a.minute != b.minute then a.minute < b.minute
    else if a.second != b.second then a.second < b.second
    else a.micro < b.micro
  }

  lemma {:induction false} YearsGrow(a: nat, b: nat)
    requires 1 <= a < b
    ensures DaysBeforeYear(a) + DaysInYear(a) <= DaysBeforeYear(b)
  {
    if a + 1 < b {
      YearsGrow(a, b - 1);
    }
  }

  lemma {:induction false} MonthsGrow(year: nat, a: nat, b: nat)
    requires 1 <= a < b
    ensures DaysBeforeMonth(year, a) + DaysInMonth(year, a) <= DaysBeforeMonth(year, b)
  {
    if a + 1 < b {
      MonthsGrow(year, a, b - 1);
    }
  }

  lemma DayFitsTheYear(t: Instant)
    requires Valid(t)
    ensures 1 <= DaysBeforeMonth(t.year, t.month) + t.day <= DaysInYear(t.year)
  {
    MonthsFillTheYear(t.year);
    if t.month < 12 {
      MonthsGrow(t.year, t.month, 12);
    }
  }

  lemma BeforeIsEarlierDay(a: Instant, b: Instant)
    requires Valid(a) && Valid(b) && Before(a, b)
    ensures Days(a) <= Days(b)
    ensures (a.year, a.month, a.day) != (b.year, b.month, b.day) ==> Days(a) < Days(b)
  {
    if a.year != b.year {
      YearsGrow(a.year, b.year);
      DayFitsTheYear(a);
      DayFitsTheYear(b);
    } else if a.month != b.month {
      MonthsGrow(a.year, a.month, b.month);
    }
  }

  lemma BeforeIsEarlier(a: Instant, b: Instant)
    requires Valid(a) && Valid(b)
    ensures Before(a, b) <==> Micros(a) < Micros(b)
    ensures a == b <==> Micros(a) == Micros(b)
  {
    if Before(a, b) {
      BeforeIsEarlierDay(a, b);
    } else if Before(b, a) {
      BeforeIsEarlierDay(b, a);
    }
  }

  /** The sum exists exactly when it does not lie past the last instant. */
  lemma AddSecondsIff(t: Instant, n: nat)
    requires Valid(t)
    ensures AddSeconds(t, n).Some? <==> Micros(t) + n * 1_000_000 <= Micros(LAST_INSTANT)
  {
    hide AddSeconds, Micros;
    AddSecondsIsExact(t, n);
    if AddSeconds(t, n).Some? {
      BeforeIsEarlier(LAST_INSTANT, AddSeconds(t, n).value);
    }
  }

  // ---- text ----

  /** Character by character, a proper prefix first: the order of a binary collation. */
  predicate TextLess(a: string, b: string) {
    b != "" && (a == "" || a[0] < b[0] || (a[0] == b[0] && TextLess(a[1..], b[1..])))
  }

  predicate TextAtMost(a: string, b: string) {
    a == b || TextLess(a, b)
  }

  function Pow10(width: nat): nat {
    if width == 0 then 1 else 10 * Pow10(width - 1)
  }

  function Digit(n: nat): char
    requires n < 10
  {
    '0' + n as char
  }

  /** Decimal digits, zero-padded on the left. */
  function Pad(width: nat, n: nat): (s: string)
    requires n < Pow10(width)
    ensures |s| == width
  {
    if width == 0 then "" else Pad(width - 1, n / 10) + [Digit(n % 10)]
  }

  function Num(s: string): nat {
    if s == "" then 0
    else 10 * Num(s[..|s| - 1]) + (if '0' <= s[|s| - 1] <= '9' then s[|s| - 1] as nat - '0' as nat else 0)
  }

  function Two(n: nat): (s: string)
    requires n < 100
    ensures |s| == 2
  {
    assert Pow10(2) == 100;
    Pad(2, n)
  }

  function Fraction(micro: nat): string
    requires micro < 1_000_000
  {
    assert Pow10(6) == 1_000_000 by { assert Pow10(3) == 1_000; }
    if micro == 0 then "+00:00" else "." + Pad(6, micro) + "+00:00"
  }

  function DateText(t: Instant): (s: string)
    requires Valid(t)
    ensures |s| == 11
  {
    assert Pow10(4) == 10_000 by { assert Pow10(2) == 100; }
    Pad(4, t.year) + "-" + Two(t.month) + "-" + Two(t.day) + "T"
  }

  function TimeText(t: Instant): (s: string)
    requires Valid(t)
    ensures |s| == 8
  {
    Two(t.hour) + ":" + Two(t.minute) + ":" + Two(t.second)
  }

  /** The text Python's isoformat gives for an aware UTC datetime. */
  function Iso(t: Instant): string
    requires Valid(t)
  {
    DateText(t) + TimeText(t) + Fraction(t.micro)
  }

  function FromIso(s: string): Instant
    requires |s| >= 25
  {
    Instant(
      Num(s[..4]), Num(s[5..7]), Num(s[8..10]),
      Num(s[11..13]), Num(s[14..16]), Num(s[17..19]),
      if |s| >= 26 && s[19] == '.' then Num(s[20..26]) else 0)
  }

  lemma {:induction false} NumOfPad(width: nat, n: nat)
    requires n < Pow10(width)
    ensures Num(Pad(width, n)) == n
  {
    if width > 0 {
      NumOfPad(width - 1, n / 10);
      var s := Pad(width, n);
      assert s[..|s| - 1] == Pad(width - 1, n / 10);
    }
  }

  /** Reading a stored time back gives the time that was stored. */
  lemma IsoRoundTrip(t: Instant)
    requires Valid(t)
    ensures |Iso(t)| >= 25 && FromIso(Iso(t)) == t
  {
    hide Pad, Num, Two;
    DatePartsRead(t);
    TimePartsRead(t);
    FractionReads(t.micro);
    var s := Iso(t);
    assert s[..4] == DateText(t)[..4] && s[5..7] == DateText(t)[5..7] && s[8..10] == DateText(t)[8..10];
    assert s[11..13] == TimeText(t)[..2] && s[14..16] == TimeText(t)[3..5] && s[17..19] == TimeText(t)[6..8];
    assert s[19..] == Fraction(t.micro);
    assert s[19] == Fraction(t.micro)[0];
    if |s| >= 26 {
      assert s[20..26] == Fraction(t.micro)[1..7];
    }
  }

  lemma TwoReads(n: nat)
    requires n < 100
    ensures Num(Two(n)) == n
  {
    assert Pow10(2) == 100;
    NumOfPad(2, n);
  }

  lemma DatePartsRead(t: Instant)
    requires Valid(t)
    ensures Num(DateText(t)[..4]) == t.year && Num(DateText(t)[5..7]) == t.month && Num(DateText(t)[8..10]) == t.day
  {
    hide Pad, Num, Two;
    var s := DateText(t);
    assert Pow10(4) == 10_000 by { assert Pow10(2) == 100; }
    assert s[..4] == Pad(4, t.year) && s[5..7] == Two(t.month) && s[8..10] == Two(t.day);
    NumOfPad(4, t.year);
    TwoReads(t.month);
    TwoReads(t.day);
  }

  lemma TimePartsRead(t: Instant)
    requires Valid(t)
    ensures Num(TimeText(t)[..2]) == t.hour && Num(TimeText(t)[3..5]) == t.minute && Num(TimeText(t)[6..8]) == t.second
  {
    hide Num, Two;
    var s := TimeText(t);
    assert s[..2] == Two(t.hour) && s[3..5] == Two(t.minute) && s[6..8] == Two(t.second);
    TwoReads(t.hour);
    TwoReads(t.minute);
    TwoReads(t.second);
  }

  lemma FractionReads(micro: nat)
    requires micro < 1_000_000
    ensures |Fraction(micro)| >= 6
    ensures if micro == 0 then |Fraction(micro)| == 6 && Fraction(micro)[0] != '.'
            else |Fraction(micro)| == 13 && Fraction(micro)[0] == '.' && Num(Fraction(micro)[1..7]) == micro
  {
    assert Pow10(6) == 1_000_000 by { assert Pow10(3) == 1_000; }
    if micro != 0 {
      assert Fraction(micro)[1..7] == Pad(6, micro);
      NumOfPad(6, micro);
    }
  }

  lemma {:induction false} TextLessIrreflexive(a: string)
    ensures !TextLess(a, a)
  {
    if a != "" {
      TextLessIrreflexive(a[1..]);
    }
  }

  /** Texts that start with parts of equal length compare by those parts first. */
  lemma {:induction false} TextLessByPart(a: string, x: string, b: string, y: string)
    requires |a| == |b|
    ensures TextLess(a + x, b + y) <==> TextLess(a, b) || (a == b && TextLess(x, y))
  {
    if a == "" {
      assert a + x == x && b + y == y;
    } else {
      assert (a + x)[1..] == a[1..] + x && (b + y)[1..] == b[1..] + y;
      TextLessByPart(a[1..], x, b[1..], y);
      assert a == [a[0]] + a[1..] && b == [b[0]] + b[1..];
      if a == b {
        TextLessIrreflexive(a);
      }
    }
  }

  lemma {:induction false} PadOrder(width: nat, m: nat, n: nat)
    requires m < Pow10(width) && n < Pow10(width)
    ensures TextLess(Pad(width, m), Pad(width, n)) <==> m < n
    ensures Pad(width, m) == Pad(width, n) <==> m == n
  {
    NumOfPad(width, m);
    NumOfPad(width, n);
    if width > 0 {
      PadOrder(width - 1, m / 10, n / 10);
      TextLessByPart(Pad(width - 1, m / 10), [Digit(m % 10)], Pad(width - 1, n / 10), [Digit(n % 10)]);
      assert TextLess([Digit(m % 10)], [Digit(n % 10)]) <==> m % 10 < n % 10;
    }
  }

  lemma DateOrder(a: Instant, b: Instant)
    requires Valid(a) && Valid(b)
    ensures TextLess(DateText(a), DateText(b)) <==>
            Before(a.(hour := 0, minute := 0, second := 0, micro := 0),
                b.(hour := 0, minute := 0, second := 0, micro := 0))
    ensures DateText(a) == DateText(b) <==> a.year == b.year && a.month == b.month && a.day == b.day
  {
    assert Pow10(2) == 100;
    assert Pow10(4) == 100 * Pow10(2);
    var ya, yb := Pad(4, a.year) + "-", Pad(4, b.year) + "-";
    var ma, mb := ya + Two(a.month) + "-", yb + Two(b.month) + "-";
    PadOrder(4, a.year, b.year);
    PadOrder(2, a.month, b.month);
    PadOrder(2, a.day, b.day);
    PartThenMark(Pad(4, a.year), Pad(4, b.year), '-');
    TextLessByPart(ya, Two(a.month), yb, Two(b.month));
    SamePart(ya, Two(a.month), yb, Two(b.month));
    PartThenMark(ya + Two(a.month), yb + Two(b.month), '-');
    TextLessByPart(ma, Two(a.day), mb, Two(b.day));
    SamePart(ma, Two(a.day), mb, Two(b.day));
    PartThenMark(ma + Two(a.day), mb + Two(b.day), 'T');
  }

  lemma SamePart(a: string, x: string, b: string, y: string)
    requires |a| == |b|
    ensures a + x == b + y <==> a == b && x == y
  {
    assert a == (a + x)[..|a|] && x == (a + x)[|a|..];
    assert b == (b + y)[..|b|] && y == (b + y)[|b|..];
  }

  lemma PartThenMark(a: string, b: string, mark: char)
    requires |a| == |b|
    ensures TextLess(a + [mark], b + [mark]) <==> TextLess(a, b)
    ensures a + [mark] == b + [mark] <==> a == b
  {
    TextLessByPart(a, [mark], b, [mark]);
    TextLessIrreflexive([mark]);
    SamePart(a, [mark], b, [mark]);
  }

  lemma TimeOrder(a: Instant, b: Instant)
    requires Valid(a) && Valid(b)
    ensures TextLess(TimeText(a), TimeText(b)) <==>
            (if a.hour != b.hour then a.hour < b.hour else if a.minute != b.minute then a.minute < b.minute
                else a.second < b.second)
    ensures TimeText(a) == TimeText(b) <==> a.hour == b.hour && a.minute == b.minute && a.second == b.second
  {
    assert Pow10(2) == 100;
    var ha, hb := Two(a.hour) + ":", Two(b.hour) + ":";
    var ma, mb := ha + Two(a.minute) + ":", hb + Two(b.minute) + ":";
    PadOrder(2, a.hour, b.hour);
    PadOrder(2, a.minute, b.minute);
    PadOrder(2, a.second, b.second);
    PartThenMark(Two(a.hour), Two(b.hour), ':');
    TextLessByPart(ha, Two(a.minute), hb, Two(b.minute));
    SamePart(ha, Two(a.minute), hb, Two(b.minute));
    PartThenMark(ha + Two(a.minute), hb + Two(b.minute), ':');
    TextLessByPart(ma, Two(a.second), mb, Two(b.second));
    SamePart(ma, Two(a.second), mb, Two(b.second));
  }

  // A missing fraction puts '+' where others have '.', and '+' comes first.
  lemma FractionOrder(m: nat, n: nat)
    requires m < 1_000_000 && n < 1_000_000
    ensures TextLess(Fraction(m), Fraction(n)) <==> m < n
  {
    var zone := "+00:00";
    assert Pow10(6) == 1_000_000 by { assert Pow10(3) == 1_000; }
    if m == n {
      TextLessIrreflexive(Fraction(m));
    } else if m != 0 && n != 0 {
      PadOrder(6, m, n);
      TextLessByPart(".", Pad(6, m), ".", Pad(6, n));
      TextLessIrreflexive(".");
      TextLessByPart("." + Pad(6, m), zone, "." + Pad(6, n), zone);
      TextLessIrreflexive(zone);
    } else {
      assert Fraction(m)[0] != Fraction(n)[0];
    }
  }

  /** Comparing the stored texts is comparing the times, with or without fractions. */
  lemma TextOrderIsTimeOrder(a: Instant, b: Instant)
    requires Valid(a) && Valid(b)
    ensures TextLess(Iso(a), Iso(b)) <==> Micros(a) < Micros(b)
    ensures TextAtMost(Iso(a), Iso(b)) <==> Micros(a) <= Micros(b)
  {
    DateOrder(a, b);
    TimeOrder(a, b);
    FractionOrder(a.micro, b.micro);
    TextLessByPart(DateText(a), TimeText(a), DateText(b), TimeText(b));
    SamePart(DateText(a), TimeText(a), DateText(b), TimeText(b));
    TextLessByPart(DateText(a) + TimeText(a), Fraction(a.micro), DateText(b) + TimeText(b), Fraction(b.micro));
    assert TextLess(Iso(a), Iso(b)) <==> Before(a, b);
    BeforeIsEarlier(a, b);
    IsoRoundTrip(a);
    IsoRoundTrip(b);
  }
}

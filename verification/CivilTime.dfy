// Naive datetimes as microseconds since 0001-01-01T00:00, the proleptic
// Gregorian calendar under them, and the three strftime patterns in use.

module CivilTime {
  import opened Wrappers
  import opened Strings

  const SECOND := 1_000_000
  const MINUTE := 60_000_000
  const HOUR := 3_600_000_000
  const DAY := 86_400_000_000

  datatype Date = Date(year: int, month: int, day: int)

  predicate Leap(y: int) {
    y % 4 == 0 && (y % 100 != 0 || y % 400 == 0)
  }

  function MonthLength(y: int, m: int): int {
    if m == 2 then (if Leap(y) then 29 else 28)
    else if m in {4, 6, 9, 11} then 30
    else 31
  }

  predicate ValidDate(d: Date) {
    1 <= d.year && 1 <= d.month <= 12 && 1 <= d.day <= MonthLength(d.year, d.month)
  }

  function NextDay(d: Date): Date {
    if d.day < MonthLength(d.year, d.month) then d.(day := d.day + 1)
    else if d.month < 12 then Date(d.year, d.month + 1, 1)
    else Date(d.year + 1, 1, 1)
  }

  // The date a number of days after 0001-01-01, one day at a time.
  function FromOrdinal(n: nat): (d: Date)
    ensures ValidDate(d) && Ordinal(d) == n
  {
    if n == 0 then Date(1, 1, 1)
    else
      var p := FromOrdinal(n - 1);
      NextDayOrdinal(p);
      NextDay(p)
  }

  // Days before the first of January and before the first of a month.
  function BeforeYear(y: int): int {
    365 * (y - 1) + (y - 1) / 4 - (y - 1) / 100 + (y - 1) / 400
  }

  function BeforeMonth(y: int, m: int): int
    requires 1 <= m <= 12
  {
    (if m == 1 then 0 else if m == 2 then 31 else if m == 3 then 59 else if m == 4 then 90
     else if m == 5 then 120 else if m == 6 then 151 else if m == 7 then 181 else if m == 8 then 212
     else if m == 9 then 243 else if m == 10 then 273 else if m == 11 then 304 else 334)
    + if m > 2 && Leap(y) then 1 else 0
  }

  // The closed form of the day number.
  function Ordinal(d: Date): int
    requires ValidDate(d)
  {
    BeforeYear(d.year) + BeforeMonth(d.year, d.month) + d.day - 1
  }

  lemma FourthStep(n: int)
    ensures (n + 1) / 4 == n / 4 + if (n + 1) % 4 == 0 then 1 else 0
  {}

  lemma HundredthStep(n: int)
    ensures (n + 1) / 100 == n / 100 + if (n + 1) % 100 == 0 then 1 else 0
    ensures n % 100 == 0 ==> n % 4 == 0
  {}

  lemma FourHundredthStep(n: int)
    ensures (n + 1) / 400 == n / 400 + if (n + 1) % 400 == 0 then 1 else 0
    ensures n % 400 == 0 ==> n % 100 == 0
  {
    if n % 400 == 0 {
      assert n == 400 * (n / 400) == 100 * (4 * (n / 400));
    }
  }

  lemma YearStep(y: int)
    requires y >= 1
    ensures BeforeYear(y + 1) == BeforeYear(y) + 365 + if Leap(y) then 1 else 0
  {
    FourthStep(y - 1);
    HundredthStep(y - 1);
    HundredthStep(y);
    FourHundredthStep(y - 1);
    FourHundredthStep(y);
  }

  lemma NextDayOrdinal(d: Date)
    requires ValidDate(d)
    ensures ValidDate(NextDay(d)) && Ordinal(NextDay(d)) == Ordinal(d) + 1
  {
    YearStep(d.year);
  }

  lemma YearsAscend(y: int, z: int)
    requires 1 <= y <= z
    ensures BeforeYear(y) <= BeforeYear(z)
    decreases z - y
  {
    if y < z {
      YearStep(y);
      YearsAscend(y + 1, z);
    }
  }

  lemma OrdinalInYear(d: Date)
    requires ValidDate(d)
    ensures BeforeYear(d.year) <= Ordinal(d) < BeforeYear(d.year + 1)
  {
    YearStep(d.year);
  }

  lemma OrdinalInjective(d: Date, e: Date)
    requires ValidDate(d) && ValidDate(e)
    ensures Ordinal(d) == Ordinal(e) ==> d == e
  {
    OrdinalInYear(d);
    OrdinalInYear(e);
    if d.year < e.year {
      YearsAscend(d.year + 1, e.year);
    } else if e.year < d.year {
      YearsAscend(e.year + 1, d.year);
    } else if d.month < e.month {
      MonthsAscend(d, e);
    } else if e.month < d.month {
      MonthsAscend(e, d);
    }
  }

  lemma MonthsAscend(d: Date, e: Date)
    requires ValidDate(d) && ValidDate(e) && d.year == e.year && d.month < e.month
    ensures Ordinal(d) < Ordinal(e)
  {}

  lemma FromOrdinalOrdinal(d: Date)
    requires ValidDate(d)
    ensures Ordinal(d) >= 0 && FromOrdinal(Ordinal(d)) == d
  {
    YearsAscend(1, d.year);
    OrdinalInjective(FromOrdinal(Ordinal(d)), d);
  }

  // The calendar reading of an instant.
  function DateOf(t: nat): (d: Date)
    ensures ValidDate(d)
  {
    FromOrdinal(t / DAY)
  }

  function SecondOfDay(t: nat): (s: nat)
    ensures s < 86400
  {
    t % DAY / SECOND
  }

  function Midnight(t: nat): nat { t / DAY * DAY }

  // The instant without its fraction of a second.
  function WholeSecond(t: nat): nat { t / SECOND * SECOND }

  // Between 1000-01-01 and 9999-12-31: where `%Y` prints four digits.
  predicate FourDigitYear(t: nat) {
    364_877 <= t / DAY < 3_652_059
  }

  lemma FourDigits(t: nat)
    ensures FourDigitYear(t) <==> 1000 <= DateOf(t).year <= 9999
  {
    var d := DateOf(t);
    OrdinalInYear(d);
    if d.year < 1000 { YearsAscend(d.year + 1, 1000); } else { YearsAscend(1000, d.year); }
    if d.year > 9999 { YearsAscend(10000, d.year); } else { YearsAscend(d.year + 1, 10000); }
  }

  // Decimal digits.
  function Digit(n: int): char
    requires 0 <= n < 10
  {
    ('0' as int + n) as char
  }

  function Two(n: int): (s: string)
    requires 0 <= n < 100
    ensures |s| == 2
  {
    [Digit(n / 10), Digit(n % 10)]
  }

  function Four(n: int): string
    requires 0 <= n < 10000
  {
    Two(n / 100) + Two(n % 100)
  }

  predicate IsDigit(c: char) { '0' <= c <= '9' }

  function Number(s: string): (n: nat) {
    if s == "" then 0
    else Number(s[..|s| - 1]) * 10 + if IsDigit(s[|s| - 1]) then s[|s| - 1] as int - '0' as int else 0
  }

  predicate AllDigits(s: string) { forall c :: c in s ==> IsDigit(c) }

  lemma NumberTwo(n: int)
    requires 0 <= n < 100
    ensures Number(Two(n)) == n && AllDigits(Two(n))
  {
    var s := Two(n);
    assert s[..1] == [Digit(n / 10)] && s[..1][..0] == "";
    assert Number(s[..1][..0]) == 0;
    assert Number(s[..1]) == n / 10;
  }

  lemma NumberFour(n: int)
    requires 0 <= n < 10000
    ensures Number(Four(n)) == n && AllDigits(Four(n))
  {
    var s := Four(n);
    NumberTwo(n / 100);
    assert s[..3][..2] == Two(n / 100);
    assert s[..4] == s;
  }

  lemma {:induction false} NumberDecimal(n: nat)
    ensures Number(Decimal(n)) == n && AllDigits(Decimal(n))
  {
    if n >= 10 {
      NumberDecimal(n / 10);
      var s := Decimal(n);
      assert s[..|s| - 1] == Decimal(n / 10);
    } else {
      assert Decimal(n)[..0] == "";
    }
  }

  lemma DecimalLength(n: nat)
    ensures |Decimal(n)| == 4 <==> 1000 <= n <= 9999
    ensures n < 1000 ==> |Decimal(n)| < 4
  {
    if n < 1000 {
      assert n / 10 / 10 < 10;
    } else if n <= 9999 {
      assert |Decimal(n / 10 / 10 / 10)| == 1;
      assert |Decimal(n / 10)| == 3;
    } else {
      assert |Decimal(n / 10 / 10 / 10)| >= 2;
      assert |Decimal(n / 10)| >= 4;
    }
  }

  lemma DecimalFour(n: nat)
    requires 1000 <= n <= 9999
    ensures Decimal(n) == Four(n)
  {
    assert n / 10 / 10 == n / 100 && n / 10 % 10 == n % 100 / 10 && n % 10 == n % 100 % 10;
    DecimalTwo(n / 100);
    assert Decimal(n) == Decimal(n / 10 / 10) + [Digit(n / 10 % 10)] + [Digit(n % 10)];
  }

  lemma DecimalTwo(n: nat)
    requires 10 <= n < 100
    ensures Decimal(n) == Two(n)
  {}

  // '%Y%m%d', '%Y%m%dT%H%M%S', '%Y-%m-%d' and '%Y-%m-%dT%H:%M'. The year is not
  // padded.
  function BasicDate(t: nat): (s: string)
    ensures |s| == 8 <==> FourDigitYear(t)
    ensures t / DAY < 364_877 ==> |s| < 8
  {
    FourDigits(t);
    var d := DateOf(t);
    DecimalLength(d.year);
    Decimal(d.year) + Two(d.month) + Two(d.day)
  }

  function Hour(t: nat): (h: nat)
    ensures h < 24
  {
    SecondOfDay(t) / 3600
  }

  function Minute(t: nat): (m: nat)
    ensures m < 60
  {
    SecondOfDay(t) / 60 % 60
  }

  function Second(t: nat): (s: nat)
    ensures s < 60
  {
    SecondOfDay(t) % 60
  }

  lemma ClockReading(t: nat)
    ensures SecondOfDay(t) == Hour(t) * 3600 + Minute(t) * 60 + Second(t)
  {
    var n := SecondOfDay(t);
    assert n / 60 / 60 == n / 3600;
  }

  function BasicTime(t: nat): (s: string)
    ensures |s| == 6
  {
    Two(Hour(t)) + Two(Minute(t)) + Two(Second(t))
  }

  function BasicDateTime(t: nat): (s: string)
    ensures |s| == |BasicDate(t)| + 7
  {
    BasicDate(t) + "T" + BasicTime(t)
  }

  function ExtendedDate(t: nat): string {
    var d := DateOf(t);
    Decimal(d.year) + "-" + Two(d.month) + "-" + Two(d.day)
  }

  function ExtendedMinute(t: nat): string {
    ExtendedDate(t) + "T" + Two(Hour(t)) + ":" + Two(Minute(t))
  }

  // Readers for DATE (RFC 5545 section 3.3.4) and for the date and time of a
  // DATE-TIME (section 3.3.5) without its zone.
  function MidnightOf(d: Date): Option<nat> {
    if ValidDate(d) then
      FromOrdinalOrdinal(d);
      var n: nat := Ordinal(d);
      Some(n * DAY)
    else None
  }

  function ReadDate(s: string): Option<nat> {
    if |s| == 8 && AllDigits(s) then
      MidnightOf(Date(Number(s[..4]), Number(s[4..6]), Number(s[6..8])))
    else None
  }

  function ReadTime(s: string): Option<nat> {
    if |s| == 6 && AllDigits(s) then
      var h, m, sec := Number(s[..2]), Number(s[2..4]), Number(s[4..6]);
      if h < 24 && m < 60 && sec < 60 then Some((h * 3600 + m * 60 + sec) * SECOND) else None
    else None
  }

  function ReadDateTime(s: string): Option<nat> {
    if |s| == 15 && s[8] == 'T' then
      match (ReadDate(s[..8]), ReadTime(s[9..]))
      case (Some(d), Some(t)) => Some(d + t)
      case _ => None
    else None
  }

  lemma ReadDateOfBasic(t: nat)
    requires FourDigitYear(t)
    ensures ReadDate(BasicDate(t)) == Some(Midnight(t))
  {
    FourDigits(t);
    var d, s := DateOf(t), BasicDate(t);
    DecimalFour(d.year);
    NumberFour(d.year);
    NumberTwo(d.month);
    NumberTwo(d.day);
    assert s[..4] == Four(d.year) && s[4..6] == Two(d.month) && s[6..8] == Two(d.day);
    assert Ordinal(d) == t / DAY;
  }

  lemma ReadTimeOfBasic(t: nat)
    ensures ReadTime(BasicTime(t)) == Some(SecondOfDay(t) * SECOND)
  {
    var h, m, sec, s := Hour(t), Minute(t), Second(t), BasicTime(t);
    NumberTwo(h);
    NumberTwo(m);
    NumberTwo(sec);
    assert s[..2] == Two(h) && s[2..4] == Two(m) && s[4..6] == Two(sec);
    ClockReading(t);
  }

  // Printing then reading keeps everything but the fraction of a second.
  lemma ReadDateTimeOfBasic(t: nat)
    requires FourDigitYear(t)
    ensures ReadDateTime(BasicDateTime(t)) == Some(WholeSecond(t))
  {
    hide Midnight, SecondOfDay, WholeSecond, BasicDate, BasicTime, ReadDateTime, ReadDate, ReadTime;
    ReadDateOfBasic(t);
    ReadTimeOfBasic(t);
    WholeSeconds(t);
    var d: nat, s: nat := Midnight(t), SecondOfDay(t) * SECOND;
    assert d + s == WholeSecond(t);
    JoinedParts(BasicDate(t), BasicTime(t), d, s);
  }

  lemma JoinedParts(date: string, time: string, d: nat, t: nat)
    requires |date| == 8 && |time| == 6 && ReadDate(date) == Some(d) && ReadTime(time) == Some(t)
    ensures ReadDateTime(date + "T" + time) == Some(d + t)
  {
    var s := date + "T" + time;
    assert s[..8] == date && s[9..] == time;
  }

  lemma WholeSeconds(t: nat)
    ensures Midnight(t) + SecondOfDay(t) * SECOND == WholeSecond(t)
  {
    var d, r := t / DAY, t % DAY;
    assert t == (d * 86400 + r / SECOND) * SECOND + r % SECOND;
  }

  // Without four digits for the year there is nothing a reader of dates takes.
  lemma ReadDateIff(t: nat)
    ensures ReadDate(BasicDate(t)).Some? <==> FourDigitYear(t)
  {
    if FourDigitYear(t) { ReadDateOfBasic(t); }
  }

  // The dashed date names the day and the dashed minute names the minute.
  lemma ExtendedDateInjective(t: nat, u: nat)
    ensures ExtendedDate(t) == ExtendedDate(u) <==> t / DAY == u / DAY
  {
    if ExtendedDate(t) == ExtendedDate(u) {
      var d, e := DateOf(t), DateOf(u);
      DatePart(d, ExtendedDate(t));
      DatePart(e, ExtendedDate(t));
      NumberDecimal(d.year); NumberDecimal(e.year);
      NumberTwo(d.month); NumberTwo(e.month);
      NumberTwo(d.day); NumberTwo(e.day);
      hide FromOrdinal, Two, Decimal, Number;
      assert Ordinal(d) == Ordinal(e);
    }
  }

  lemma DatePart(d: Date, s: string)
    requires ValidDate(d) && s == Decimal(d.year) + "-" + Two(d.month) + "-" + Two(d.day)
    ensures |s| >= 6 && s[..|s| - 6] == Decimal(d.year)
    ensures s[|s| - 5..|s| - 3] == Two(d.month) && s[|s| - 2..] == Two(d.day)
  {
    hide Decimal, Two, ValidDate;
  }

  lemma ExtendedMinuteInjective(t: nat, u: nat)
    ensures ExtendedMinute(t) == ExtendedMinute(u) <==> t / MINUTE == u / MINUTE
  {
    MinuteOfInstant(t);
    MinuteOfInstant(u);
    ExtendedDateInjective(t, u);
    SameMinute(t, u);
    if ExtendedMinute(t) == ExtendedMinute(u) {
      MinutePart(t, ExtendedMinute(t));
      MinutePart(u, ExtendedMinute(t));
      NumberTwo(Hour(t)); NumberTwo(Hour(u));
      NumberTwo(Minute(t)); NumberTwo(Minute(u));
      hide ExtendedDate, Two, Hour, Minute, Number;
    }
  }

  lemma MinutePart(t: nat, s: string)
    requires s == ExtendedMinute(t)
    ensures |s| >= 6 && s[..|s| - 6] == ExtendedDate(t)
    ensures s[|s| - 5..|s| - 3] == Two(Hour(t)) && s[|s| - 2..] == Two(Minute(t))
  {
    hide ExtendedDate, Two, Hour, Minute;
  }

  lemma SameMinute(t: nat, u: nat)
    ensures t / MINUTE == u / MINUTE ==>
              t / DAY == u / DAY && Hour(t) == Hour(u) && Minute(t) == Minute(u)
  {
    MinuteOfInstant(t);
    MinuteOfInstant(u);
  }

  lemma MinuteOfInstant(t: nat)
    ensures t / MINUTE == t / DAY * 1440 + Hour(t) * 60 + Minute(t)
  {
    ClockReading(t);
    WholeSeconds(t);
    assert t / SECOND == t / DAY * 86400 + Hour(t) * 3600 + Minute(t) * 60 + Second(t);
    assert t / MINUTE == t / SECOND / 60;
  }

  // ------------------------------------------------------ the order of stamps

  function Six(n: int): string
    requires 0 <= n < 1_000_000
  {
    Two(n / 10_000) + Two(n / 100 % 100) + Two(n % 100)
  }

  // `isoformat()`: the year padded, a fraction of a second only if there is one.
  function IsoDate(t: nat): string {
    var d := DateOf(t);
    (if d.year < 10_000 then Four(d.year) else Decimal(d.year)) + "-" + Two(d.month) + "-" + Two(d.day)
  }

  function Clock(t: nat): (s: string)
    ensures |s| == 8
  {
    Two(Hour(t)) + ":" + Two(Minute(t)) + ":" + Two(Second(t))
  }

  function Fraction(t: nat): string {
    if t % SECOND == 0 then "" else "." + Six(t % SECOND)
  }

  function IsoDateTime(t: nat): string {
    IsoDate(t) + "T" + Clock(t) + Fraction(t)
  }

  lemma IsoIsExtended(t: nat)
    requires FourDigitYear(t)
    ensures IsoDate(t) == ExtendedDate(t) && |IsoDate(t)| == 10
  {
    FourDigits(t);
    DecimalFour(DateOf(t).year);
  }

  lemma TwoLess(m: int, n: int)
    requires 0 <= m < n < 100
    ensures Less(Two(m), Two(n))
  {
    if m / 10 == n / 10 { assert m % 10 < n % 10; }
    assert Two(m)[1..] == [Digit(m % 10)] && Two(n)[1..] == [Digit(n % 10)];
    assert [Digit(m % 10)][1..] == [Digit(n % 10)][1..] == "";
  }

  // Two digits each: the first difference decides.
  lemma PairLess(m: int, n: int, s: string, t: string)
    requires 0 <= m < 100 && 0 <= n < 100
    requires m < n || (m == n && Less(s, t))
    ensures Less(Two(m) + s, Two(n) + t)
  {
    if m < n {
      TwoLess(m, n);
      LessBefore(Two(m), Two(n), s, t);
    } else {
      LessAfter(Two(m), s, t);
    }
  }

  lemma DatesInOrder(d: Date, e: Date)
    requires ValidDate(d) && ValidDate(e) && Ordinal(d) < Ordinal(e)
    ensures d.year < e.year || (d.year == e.year && (d.month < e.month || (d.month == e.month && d.day < e.day)))
  {
    OrdinalInYear(d);
    OrdinalInYear(e);
    if e.year < d.year { YearsAscend(e.year + 1, d.year); }
    if d.year == e.year && e.month < d.month { MonthsAscend(e, d); }
  }

  lemma IsoDateParts(t: nat, s: string)
    requires FourDigitYear(t)
    ensures var d := DateOf(t);
      1000 <= d.year <= 9999 && IsoDate(t) + s == Four(d.year) + ("-" + (Two(d.month) + ("-" + (Two(d.day) + s))))
  {
    FourDigits(t);
    hide Four, Two, FromOrdinal;
  }

  lemma IsoDateLess(t: nat, u: nat, s: string, r: string)
    requires FourDigitYear(t) && FourDigitYear(u) && t / DAY < u / DAY
    ensures Less(IsoDate(t) + s, IsoDate(u) + r)
  {
    var d, e := DateOf(t), DateOf(u);
    DatesInOrder(d, e);
    IsoDateParts(t, s);
    IsoDateParts(u, r);
    hide Less, Two, Four, FourDigitYear, IsoDate, DateOf;
    var dayD, dayE := "-" + (Two(d.day) + s), "-" + (Two(e.day) + r);
    if d.day < e.day {
      PairLess(d.day, e.day, s, r);
      LessAfter("-", Two(d.day) + s, Two(e.day) + r);
    }
    var monthD, monthE := Two(d.month) + dayD, Two(e.month) + dayE;
    if d.month < e.month || (d.month == e.month && d.day < e.day) {
      PairLess(d.month, e.month, dayD, dayE);
      LessAfter("-", monthD, monthE);
    }
    FourLess(d.year, e.year, "-" + monthD, "-" + monthE);
  }

  lemma FourLess(m: int, n: int, s: string, t: string)
    requires 0 <= m < 10_000 && 0 <= n < 10_000
    requires m < n || (m == n && Less(s, t))
    ensures Less(Four(m) + s, Four(n) + t)
  {
    hide Less, Two;
    if m / 100 == n / 100 { PairLess(m % 100, n % 100, s, t); }
    PairLess(m / 100, n / 100, Two(m % 100) + s, Two(n % 100) + t);
    assert Four(m) + s == Two(m / 100) + (Two(m % 100) + s) && Four(n) + t == Two(n / 100) + (Two(n % 100) + t);
  }

  lemma ClockParts(t: nat, s: string)
    ensures Clock(t) + s == Two(Hour(t)) + (":" + (Two(Minute(t)) + (":" + (Two(Second(t)) + s))))
  {
    hide Two, Hour, Minute, Second;
  }

  lemma ClockLess(t: nat, u: nat, s: string, r: string)
    requires SecondOfDay(t) < SecondOfDay(u)
    ensures Less(Clock(t) + s, Clock(u) + r)
  {
    ClockReading(t);
    ClockReading(u);
    ClockParts(t, s);
    ClockParts(u, r);
    hide Less, Two, Hour, Minute, Second, SecondOfDay, Clock;
    var secT, secU := ":" + (Two(Second(t)) + s), ":" + (Two(Second(u)) + r);
    if Second(t) < Second(u) {
      PairLess(Second(t), Second(u), s, r);
      LessAfter(":", Two(Second(t)) + s, Two(Second(u)) + r);
    }
    var minT, minU := Two(Minute(t)) + secT, Two(Minute(u)) + secU;
    if Minute(t) < Minute(u) || (Minute(t) == Minute(u) && Second(t) < Second(u)) {
      PairLess(Minute(t), Minute(u), secT, secU);
      LessAfter(":", minT, minU);
    }
    PairLess(Hour(t), Hour(u), ":" + minT, ":" + minU);
  }

  // A fraction comes after none, unless a zone stands in its place.
  lemma FractionLess(t: nat, u: nat, z: string, y: string)
    requires t % SECOND < u % SECOND && z in {"", "Z"}
    ensures Less(Fraction(t) + z, Fraction(u) + y) <==> !(t % SECOND == 0 && z == "Z")
  {
    var f, g := t % SECOND, u % SECOND;
    if f == 0 {
      assert (Fraction(u) + y)[0] == '.';
      assert Fraction(t) + z == z;
    } else {
      SixLess(f, g, z, y);
      LessAfter(".", Six(f) + z, Six(g) + y);
      assert Fraction(t) + z == "." + (Six(f) + z) && Fraction(u) + y == "." + (Six(g) + y);
    }
  }

  lemma SixParts(n: int, s: string)
    requires 0 <= n < 1_000_000
    ensures Six(n) + s == Two(n / 10_000) + (Two(n / 100 % 100) + (Two(n % 100) + s))
  {
    hide Two;
  }

  lemma SixLess(m: int, n: int, s: string, t: string)
    requires 0 <= m < n < 1_000_000
    ensures Less(Six(m) + s, Six(n) + t)
  {
    SixParts(m, s);
    SixParts(n, t);
    hide Less, Two, Six;
    SixDigits(m);
    SixDigits(n);
    var a, b, c := m / 10_000, m / 100 % 100, m % 100;
    var x, y, z := n / 10_000, n / 100 % 100, n % 100;
    if c < z { PairLess(c, z, s, t); }
    if b < y || (b == y && c < z) { PairLess(b, y, Two(c) + s, Two(z) + t); }
    PairLess(a, x, Two(b) + (Two(c) + s), Two(y) + (Two(z) + t));
  }

  lemma SixDigits(n: int)
    requires 0 <= n < 1_000_000
    ensures n == n / 10_000 * 10_000 + n / 100 % 100 * 100 + n % 100
  {
    assert n / 100 / 100 == n / 10_000;
  }

  lemma IsoParts(t: nat, z: string)
    ensures IsoDateTime(t) + z == IsoDate(t) + ("T" + (Clock(t) + (Fraction(t) + z)))
  {
    hide IsoDate, Clock, Fraction;
  }

  // Of two printed times the earlier comes first, except that a whole second with
  // a zone comes after its own fractions.
  lemma IsoOrderIff(t: nat, u: nat, z: string, y: string)
    requires FourDigitYear(t) && FourDigitYear(u) && t < u && z in {"", "Z"}
    ensures Less(IsoDateTime(t) + z, IsoDateTime(u) + y)
       <==> !(t / SECOND == u / SECOND && t % SECOND == 0 && z == "Z")
  {
    SameParts(t, u);
    IsoParts(t, z);
    IsoParts(u, y);
    hide Less, IsoDate, Clock, Fraction, SecondOfDay, FourDigitYear, IsoDateTime;
    var fracT, fracU := Fraction(t) + z, Fraction(u) + y;
    var clockT, clockU := Clock(t) + fracT, Clock(u) + fracU;
    if t / DAY < u / DAY {
      IsoDateLess(t, u, "T" + clockT, "T" + clockU);
    } else {
      LessAfter(IsoDate(t), "T" + clockT, "T" + clockU);
      LessAfter("T", clockT, clockU);
      if SecondOfDay(t) < SecondOfDay(u) {
        ClockLess(t, u, fracT, fracU);
      } else {
        LessAfter(Clock(t), fracT, fracU);
        FractionLess(t, u, z, y);
      }
    }
  }

  lemma SameParts(t: nat, u: nat)
    requires t < u
    ensures t / DAY <= u / DAY
    ensures t / DAY == u / DAY ==> IsoDate(t) == IsoDate(u) && SecondOfDay(t) <= SecondOfDay(u)
    ensures t / DAY == u / DAY && SecondOfDay(t) == SecondOfDay(u) ==> Clock(t) == Clock(u) && t % SECOND < u % SECOND
    ensures t / DAY == u / DAY && SecondOfDay(t) == SecondOfDay(u) <==> t / SECOND == u / SECOND
  {
    WholeSeconds(t);
    WholeSeconds(u);
    hide FromOrdinal, Two;
    if t / DAY == u / DAY {
      assert t % DAY < u % DAY;
    }
  }

  // ------------------------------------------------------ reading them back

  // The range of `datetime`: years up to 9999.
  predicate InRange(t: nat) {
    t / DAY < 3_652_059
  }

  lemma AtMostFourDigits(t: nat)
    requires InRange(t)
    ensures DateOf(t).year <= 9999
  {
    var d := DateOf(t);
    OrdinalInYear(d);
    if d.year > 9999 { YearsAscend(10000, d.year); }
  }

  // YYYY-MM-DD, HH:MM:SS, and a fraction of six digits or none.
  function ReadDashed(s: string): Option<nat> {
    if |s| == 10 && s[4] == '-' && s[7] == '-' then ReadDate(s[..4] + s[5..7] + s[8..]) else None
  }

  function ReadClock(s: string): Option<nat> {
    if |s| == 8 && s[2] == ':' && s[5] == ':' then ReadTime(s[..2] + s[3..5] + s[6..]) else None
  }

  function ReadFraction(s: string): Option<nat> {
    if s == "" then Some(0)
    else if |s| == 7 && s[0] == '.' && AllDigits(s[1..]) then Some(Number(s[1..]))
    else None
  }

  function ReadIso(s: string): Option<nat> {
    if |s| >= 19 && s[10] == 'T' then
      match (ReadDashed(s[..10]), ReadClock(s[11..19]), ReadFraction(s[19..]))
      case (Some(d), Some(c), Some(f)) => Some(d + c + f)
      case _ => None
    else None
  }

  lemma ReadPadded(t: nat)
    requires InRange(t)
    ensures var d := DateOf(t);
      0 < d.year < 10_000 && ReadDate(Four(d.year) + Two(d.month) + Two(d.day)) == Some(Midnight(t))
  {
    AtMostFourDigits(t);
    var d := DateOf(t);
    var s := Four(d.year) + Two(d.month) + Two(d.day);
    NumberFour(d.year);
    NumberTwo(d.month);
    NumberTwo(d.day);
    assert s[..4] == Four(d.year) && s[4..6] == Two(d.month) && s[6..8] == Two(d.day);
    assert Ordinal(d) == t / DAY;
  }

  lemma ReadDashedOfIso(t: nat)
    requires InRange(t)
    ensures |IsoDate(t)| == 10 && ReadDashed(IsoDate(t)) == Some(Midnight(t))
  {
    ReadPadded(t);
    var d, s := DateOf(t), IsoDate(t);
    hide ReadDate, FromOrdinal;
    assert s[..4] == Four(d.year) && s[5..7] == Two(d.month) && s[8..] == Two(d.day);
  }

  lemma ReadDashedOfExtended(t: nat)
    requires FourDigitYear(t)
    ensures |ExtendedDate(t)| == 10 && ReadDashed(ExtendedDate(t)) == Some(Midnight(t))
  {
    IsoIsExtended(t);
    ReadDashedOfIso(t);
  }

  lemma ReadClockOfClock(t: nat)
    ensures ReadClock(Clock(t)) == Some(SecondOfDay(t) * SECOND)
  {
    ReadTimeOfBasic(t);
    var s := Clock(t);
    hide ReadTime;
    assert s[..2] == Two(Hour(t)) && s[3..5] == Two(Minute(t)) && s[6..] == Two(Second(t));
  }

  lemma {:induction false} NumberAppend(s: string, n: int)
    requires 0 <= n < 100 && AllDigits(s)
    ensures Number(s + Two(n)) == Number(s) * 100 + n && AllDigits(s + Two(n))
  {
    var w := s + Two(n);
    assert w[..|w| - 1] == s + [Digit(n / 10)] && (s + [Digit(n / 10)])[..|s|] == s;
    assert Number(w[..|w| - 1]) == Number(s) * 10 + n / 10;
  }

  lemma NumberSix(n: int)
    requires 0 <= n < 1_000_000
    ensures |Six(n)| == 6 && Number(Six(n)) == n && AllDigits(Six(n))
  {
    NumberTwo(n / 10_000);
    NumberAppend(Two(n / 10_000), n / 100 % 100);
    NumberAppend(Two(n / 10_000) + Two(n / 100 % 100), n % 100);
    SixDigits(n);
  }

  lemma ReadFractionOfFraction(t: nat)
    ensures ReadFraction(Fraction(t)) == Some(t % SECOND)
  {
    var f := t % SECOND;
    if f != 0 {
      NumberSix(f);
      assert ("." + Six(f))[1..] == Six(f);
    }
  }

  lemma JoinedIso(date: string, clock: string, fraction: string, d: nat, c: nat, f: nat)
    requires |date| == 10 && ReadDashed(date) == Some(d) && |clock| == 8 && ReadClock(clock) == Some(c)
    requires ReadFraction(fraction) == Some(f)
    ensures ReadIso(date + "T" + clock + fraction) == Some(d + c + f)
  {
    hide ReadDashed, ReadClock, ReadFraction;
    var s := date + "T" + clock + fraction;
    assert s[..10] == date && s[11..19] == clock && s[19..] == fraction;
  }

  // What `isoformat` prints reads back to the microsecond.
  lemma ReadIsoOfIso(t: nat)
    requires InRange(t)
    ensures ReadIso(IsoDateTime(t)) == Some(t)
  {
    ReadDashedOfIso(t);
    ReadClockOfClock(t);
    ReadFractionOfFraction(t);
    SumOfParts(t);
    hide ReadIso, ReadDashed, ReadClock, ReadFraction, IsoDate, Clock, Fraction, SecondOfDay, Midnight;
    var d: nat, c: nat, f: nat := Midnight(t), SecondOfDay(t) * SECOND, t % SECOND;
    assert d + c + f == t;
    JoinedIso(IsoDate(t), Clock(t), Fraction(t), d, c, f);
  }

  lemma SumOfParts(t: nat)
    ensures Midnight(t) + SecondOfDay(t) * SECOND + t % SECOND == t
  {
    WholeSeconds(t);
  }

  // A uid suffix names the minute of its occurrence.
  function WholeMinute(t: nat): nat { t / MINUTE * MINUTE }

  lemma ReadIsoOfMinute(t: nat)
    requires FourDigitYear(t)
    ensures ReadIso(ExtendedMinute(t) + ":00") == Some(WholeMinute(t))
  {
    var u := WholeMinute(t);
    MinuteParts(t);
    IsoIsExtended(u);
    IsoIsExtended(t);
    ExtendedDateInjective(t, u);
    ReadIsoOfIso(u);
    hide IsoDate, ExtendedDate, Hour, Minute, Second, ReadIso;
    assert Two(0) == "00";
    assert IsoDateTime(u) == ExtendedMinute(t) + ":00";
  }

  lemma MinuteParts(t: nat)
    ensures var u := WholeMinute(t);
      u / DAY == t / DAY && Hour(u) == Hour(t) && Minute(u) == Minute(t) && Second(u) == 0 && u % SECOND == 0
  {
    var u := WholeMinute(t);
    SameMinute(t, u);
    assert u / MINUTE == t / MINUTE;
    assert u % SECOND == 0 && u / SECOND == u / MINUTE * 60;
    ClockReading(u);
    WholeSeconds(u);
    MinuteOfInstant(u);
  }
}

/** The names a schedule gives its Backups: its own name and the second of the run as YYYYMMDD-HHMMSS in UTC. */
module BackupNames {
  import opened Strings

  const SECOND := 1_000_000_000
  const DAY := 86400

  /** Days from 1 January of year 0 to 1 January 1970 in the proleptic Gregorian calendar. */
  const EPOCH_DAYS := 719528

  datatype Civil = Civil(year: nat, month: nat, day: nat, hour: nat, minute: nat, second: nat)

  predicate IsLeap(year: nat)
  {
    year % 4 == 0 && (year % 100 != 0 || year % 400 == 0)
  }

  function YearLength(year: nat): nat
  {
    if IsLeap(year) then 366 else 365
  }

  function MonthLength(year: nat, month: nat): nat
  {
    if month == 2 then if IsLeap(year) then 29 else 28
    else if month in {4, 6, 9, 11} then 30
    else 31
  }

  /** The year and the day within it, `days` after 1 January of `year`. */
  function YearAndDay(days: nat, year: nat): (nat, nat)
  {
    if days < YearLength(year) then (year, days) else YearAndDay(days - YearLength(year), year + 1)
  }

  /** The month and the day within it, `days` after the first of `month`. */
  function MonthAndDay(days: nat, year: nat, month: nat): (nat, nat)
  {
    if month >= 12 || days < MonthLength(year, month) then (month, days)
    else MonthAndDay(days - MonthLength(year, month), year, month + 1)
  }

  /** Seconds since 1 January of year 0, from nanoseconds since the Unix epoch; fractions are cut. */
  function Seconds(t: int): int
  {
    t / SECOND + EPOCH_DAYS * DAY
  }

  predicate FourDigitYear(t: int)
  {
    Seconds(t) >= 0 && YearAndDay(Seconds(t) / DAY, 0).0 < 10000
  }

  function Utc(t: int): Civil
    requires Seconds(t) >= 0
  {
    var days, rest := Seconds(t) / DAY, Seconds(t) % DAY;
    var (year, inYear) := YearAndDay(days, 0);
    var (month, inMonth) := MonthAndDay(inYear, year, 1);
    Civil(year, month, inMonth + 1, rest / 3600, rest / 60 % 60, rest % 60)
  }

  predicate InRange(c: Civil)
  {
    c.year < 10000 && c.month < 100 && c.day < 100 && c.hour < 100 && c.minute < 100 && c.second < 100
  }

  /** Go's layout 20060102-150405. */
  function Format(c: Civil): string
    requires InRange(c)
  {
    assert Power10(2) == 100 && Power10(4) == 10000;
    Pad(c.year, 4) + (Pad(c.month, 2) + (Pad(c.day, 2) + ("-" + ClockText(c))))
  }

  function ClockText(c: Civil): string
    requires InRange(c)
  {
    assert Power10(2) == 100;
    Pad(c.hour, 2) + (Pad(c.minute, 2) + Pad(c.second, 2))
  }

  function BackupName(schedule: string, t: int): string
    requires FourDigitYear(t)
  {
    UtcInRange(t);
    schedule + "-" + Format(Utc(t))
  }

  lemma UtcInRange(t: int)
    requires FourDigitYear(t)
    ensures InRange(Utc(t))
  {
    var (year, inYear) := YearAndDay(Seconds(t) / DAY, 0);
    YearAndDayBounds(Seconds(t) / DAY, 0);
    MonthAndDayBounds(inYear, year, 1);
  }

  lemma {:induction false} YearAndDayBounds(days: nat, year: nat)
    ensures var (y, d) := YearAndDay(days, year); year <= y && d < YearLength(y)
  {
    if days >= YearLength(year) {
      YearAndDayBounds(days - YearLength(year), year + 1);
    }
  }

  /** The days left in `year` from the first of `month` on. */
  function DaysLeft(year: nat, month: nat): nat
    decreases 12 - month
  {
    if month > 12 then 0 else MonthLength(year, month) + DaysLeft(year, month + 1)
  }

  lemma {:induction false} MonthAndDayBounds(days: nat, year: nat, month: nat)
    requires 1 <= month <= 12 && days < DaysLeft(year, month)
    ensures var (m, d) := MonthAndDay(days, year, month); month <= m <= 12 && d < MonthLength(year, m)
    decreases 12 - month
  {
    if month < 12 && days >= MonthLength(year, month) {
      MonthAndDayBounds(days - MonthLength(year, month), year, month + 1);
    }
  }

  predicate Earlier(a: (nat, nat), b: (nat, nat))
  {
    a.0 < b.0 || (a.0 == b.0 && a.1 < b.1)
  }

  lemma {:induction false} YearAndDayOrder(a: nat, b: nat, year: nat)
    requires a < b
    ensures Earlier(YearAndDay(a, year), YearAndDay(b, year))
  {
    if a >= YearLength(year) {
      YearAndDayOrder(a - YearLength(year), b - YearLength(year), year + 1);
    } else if b >= YearLength(year) {
      YearAndDayBounds(b - YearLength(year), year + 1);
    }
  }

  lemma {:induction false} MonthAndDayOrder(a: nat, b: nat, year: nat, month: nat)
    requires a < b && 1 <= month
    ensures Earlier(MonthAndDay(a, year, month), MonthAndDay(b, year, month))
    decreases 12 - month
  {
    if month < 12 && b >= MonthLength(year, month) {
      if a >= MonthLength(year, month) {
        MonthAndDayOrder(a - MonthLength(year, month), b - MonthLength(year, month), year, month + 1);
      } else {
        MonthGrows(b - MonthLength(year, month), year, month + 1);
      }
    }
  }

  lemma {:induction false} MonthGrows(days: nat, year: nat, month: nat)
    ensures month <= MonthAndDay(days, year, month).0
    decreases 12 - month
  {
    if month < 12 && days >= MonthLength(year, month) {
      MonthGrows(days - MonthLength(year, month), year, month + 1);
    }
  }

  /** The order of the calendar, field by field. */
  predicate CivilEarlier(a: Civil, b: Civil)
  {
    || a.year < b.year
    || (a.year == b.year &&
        (|| a.month < b.month
         || (a.month == b.month &&
             (|| a.day < b.day
              || (a.day == b.day && ClockEarlier(a, b))))))
  }

  predicate ClockEarlier(a: Civil, b: Civil)
  {
    || a.hour < b.hour
    || (a.hour == b.hour && (a.minute < b.minute || (a.minute == b.minute && a.second < b.second)))
  }

  lemma UtcOrder(t: int, u: int)
    requires 0 <= Seconds(t) < Seconds(u)
    ensures CivilEarlier(Utc(t), Utc(u))
  {
    var a, b := Seconds(t) / DAY, Seconds(u) / DAY;
    if a < b {
      YearAndDayOrder(a, b, 0);
      var (year, inYear) := YearAndDay(a, 0);
      var (year', inYear') := YearAndDay(b, 0);
      if year == year' {
        MonthAndDayOrder(inYear, inYear', year, 1);
      }
    } else {
      ClockOrder(Seconds(t) % DAY, Seconds(u) % DAY);
    }
  }

  lemma ClockOrder(a: nat, b: nat)
    requires a < b
    ensures a / 3600 < b / 3600 || (a / 3600 == b / 3600 &&
              (a / 60 % 60 < b / 60 % 60 || (a / 60 % 60 == b / 60 % 60 && a % 60 < b % 60)))
  {
    MinuteOfHour(a);
    MinuteOfHour(b);
  }

  lemma MinuteOfHour(a: nat)
    ensures a / 60 % 60 == a / 60 - 60 * (a / 3600)
  {
  }

  lemma FormatOrder(a: Civil, b: Civil)
    requires InRange(a) && InRange(b)
    ensures Less(Format(a), Format(b)) <==> CivilEarlier(a, b)
  {
    assert Power10(2) == 100 && Power10(4) == 10000;
    ClockTextOrder(a, b);
    var x, y := ClockText(a), ClockText(b);
    LessConcat("-", "-", x, y);
    PadBoth(a.day, b.day, 2, "-" + x, "-" + y);
    PadBoth(a.month, b.month, 2, Pad(a.day, 2) + ("-" + x), Pad(b.day, 2) + ("-" + y));
    PadBoth(a.year, b.year, 4, Pad(a.month, 2) + (Pad(a.day, 2) + ("-" + x)),
        Pad(b.month, 2) + (Pad(b.day, 2) + ("-" + y)));
  }

  lemma ClockTextOrder(a: Civil, b: Civil)
    requires InRange(a) && InRange(b)
    ensures Less(ClockText(a), ClockText(b)) <==> ClockEarlier(a, b)
  {
    assert Power10(2) == 100;
    PadOrder(a.second, b.second, 2);
    PadBoth(a.minute, b.minute, 2, Pad(a.second, 2), Pad(b.second, 2));
    PadBoth(a.hour, b.hour, 2, Pad(a.minute, 2) + Pad(a.second, 2), Pad(b.minute, 2) + Pad(b.second, 2));
  }

  lemma PadBoth(a: nat, b: nat, width: nat, x: string, y: string)
    requires a < Power10(width) && b < Power10(width)
    ensures Less(Pad(a, width) + x, Pad(b, width) + y) <==> a < b || (a == b && Less(x, y))
  {
    PadOrder(a, b, width);
    LessConcat(Pad(a, width), Pad(b, width), x, y);
  }

  /** Two runs of a schedule give one name exactly within one second; names grow with the second of the run across every
      month, leap day and turn of the year. */
  lemma NamesFollowTime(schedule: string, t: int, u: int)
    requires FourDigitYear(t) && FourDigitYear(u)
    ensures BackupName(schedule, t) == BackupName(schedule, u) <==> t / SECOND == u / SECOND
    ensures Less(BackupName(schedule, t), BackupName(schedule, u)) <==> t / SECOND < u / SECOND
  {
    UtcInRange(t);
    UtcInRange(u);
    FormatOrder(Utc(t), Utc(u));
    FormatOrder(Utc(u), Utc(t));
    LessConcat(schedule + "-", schedule + "-", Format(Utc(t)), Format(Utc(u)));
    LessConcat(schedule + "-", schedule + "-", Format(Utc(u)), Format(Utc(t)));
    LessIrreflexive(BackupName(schedule, t));
    LessIrreflexive(schedule + "-");
    if t / SECOND < u / SECOND {
      UtcOrder(t, u);
    } else if u / SECOND < t / SECOND {
      UtcOrder(u, t);
    }
  }

  function DaysBeforeYear(year: nat): nat
  {
    if year == 0 then 0 else DaysBeforeYear(year - 1) + YearLength(year - 1)
  }

  /** Years before `year` that are multiples of `k`. */
  function Multiples(year: nat, k: nat): nat
    requires k > 0
  {
    (year + k - 1) / k
  }

  lemma {:induction false} DaysBeforeYearClosed(year: nat)
    ensures DaysBeforeYear(year) == 365 * year + Multiples(year, 4) - Multiples(year, 100) + Multiples(year, 400)
  {
    if year > 0 {
      DaysBeforeYearClosed(year - 1);
      LeapYears(year - 1);
      NextMultiple4(year - 1);
      NextMultiple100(year - 1);
      NextMultiple400(year - 1);
    }
  }

  lemma LeapYears(year: nat)
    ensures YearLength(year) == 365 + (if year % 4 == 0 then 1 else 0) - (if year % 100 == 0 then 1 else 0)
                                + if year % 400 == 0 then 1 else 0
  {
    if year % 100 == 0 {
      HundredsAreFours(year / 100, year);
    }
    if year % 400 == 0 {
      FourHundreds(year / 400, year);
    }
  }

  lemma HundredsAreFours(q: nat, year: nat)
    requires year == 100 * q
    ensures year % 4 == 0
  {
    var r := 25 * q;
    assert year == 4 * r;
  }

  lemma FourHundreds(q: nat, year: nat)
    requires year == 400 * q
    ensures year % 100 == 0 && year % 4 == 0
  {
    var r := 4 * q;
    assert year == 100 * r;
    HundredsAreFours(r, year);
  }

  lemma NextMultiple4(year: nat)
    ensures Multiples(year + 1, 4) == Multiples(year, 4) + if year % 4 == 0 then 1 else 0
  {
  }

  lemma NextMultiple100(year: nat)
    ensures Multiples(year + 1, 100) == Multiples(year, 100) + if year % 100 == 0 then 1 else 0
  {
  }

  lemma NextMultiple400(year: nat)
    ensures Multiples(year + 1, 400) == Multiples(year, 400) + if year % 400 == 0 then 1 else 0
  {
  }

  lemma {:induction false} YearAndDayFrom(year: nat, days: nat)
    ensures YearAndDay(DaysBeforeYear(year) + days, 0) == YearAndDay(days, year)
  {
    if year > 0 {
      YearAndDayFrom(year - 1, YearLength(year - 1) + days);
    }
  }

  /** The constant that ties the calendar to Unix time is right. */
  lemma EpochIsNewYear1970()
    ensures Utc(0) == Civil(1970, 1, 1, 0, 0, 0)
  {
    DaysBeforeYearClosed(1970);
    assert Seconds(0) / DAY == DaysBeforeYear(1970) && Seconds(0) % DAY == 0;
    YearAndDayFrom(1970, 0);
  }

  // The calendar is the Gregorian one.

  /** The day number of a date since 1 January 1970, with years that begin in March. */
  function DayNumber(year: nat, month: nat, day: nat): int
  {
    var y := if month <= 2 then year - 1 else year;
    var m := if month <= 2 then month + 9 else month - 3;
    365 * y + y / 4 - y / 100 + y / 400 + (153 * m + 2) / 5 + day - 1 - 719468
  }

  /** The first of the month after a date. */
  function NextFirst(year: nat, month: nat): int
  {
    if month == 12 then DayNumber(year + 1, 1, 1) else DayNumber(year, month + 1, 1)
  }

  /** The civil date is the one whose day number is that of the whole days since 1970, within its month, and the time of
      day is the rest. */
  lemma UtcIsGregorian(t: int)
    requires Seconds(t) >= 0
    ensures var c, s := Utc(t), t / SECOND;
            && 1 <= c.month <= 12 && 1 <= c.day
            && DayNumber(c.year, c.month, c.day) == s / 86400 < NextFirst(c.year, c.month)
            && 3600 * c.hour + 60 * c.minute + c.second == s % 86400 && c.minute < 60 && c.second < 60
  {
    var days := Seconds(t) / DAY;
    var (year, inYear) := YearAndDay(days, 0);
    YearAndDayBounds(days, 0);
    YearAndDaySum(days, 0);
    MonthAndDaySum(inYear, year, 1);
    var (month, inMonth) := MonthAndDay(inYear, year, 1);
    StartOfMonth(year, month, inMonth);
    EndOfMonth(year, month);
    SplitSeconds(t / SECOND);
    ClockSum(Seconds(t) % DAY);
  }

  lemma SplitSeconds(s: int)
    ensures (s + EPOCH_DAYS * DAY) / DAY == s / DAY + EPOCH_DAYS && (s + EPOCH_DAYS * DAY) % DAY == s % DAY
  {
  }

  lemma ClockSum(rest: nat)
    requires rest < DAY
    ensures 3600 * (rest / 3600) + 60 * (rest / 60 % 60) + rest % 60 == rest
  {
    MinuteOfHour(rest);
  }

  lemma {:induction false} YearAndDaySum(days: nat, year: nat)
    ensures var (y, d) := YearAndDay(days, year); DaysBeforeYear(year) + days == DaysBeforeYear(y) + d
  {
    if days >= YearLength(year) {
      YearAndDaySum(days - YearLength(year), year + 1);
    }
  }

  /** The days from 1 January to the first of `month`. */
  function MonthStart(year: nat, month: nat): nat
    requires 1 <= month
  {
    if month <= 2 then 31 * (month - 1) else 59 + (if IsLeap(year) then 1 else 0) + (153 * (month - 3) + 2) / 5
  }

  lemma NextMonth(year: nat, month: nat)
    requires 1 <= month <= 12
    ensures MonthStart(year, month) + MonthLength(year, month)
            == if month == 12 then YearLength(year) else MonthStart(year, month + 1)
  {
  }

  lemma {:induction false} MonthAndDaySum(days: nat, year: nat, month: nat)
    requires 1 <= month <= 12 && MonthStart(year, month) + days < YearLength(year)
    ensures var (m, d) := MonthAndDay(days, year, month);
            && 1 <= m <= 12 && MonthStart(year, month) + days == MonthStart(year, m) + d && d < MonthLength(year, m)
    decreases 12 - month
  {
    NextMonth(year, month);
    if month < 12 && days >= MonthLength(year, month) {
      MonthAndDaySum(days - MonthLength(year, month), year, month + 1);
    }
  }

  lemma StartOfMonth(year: nat, month: nat, days: nat)
    requires 1 <= month <= 12
    ensures DayNumber(year, month, days + 1) == DaysBeforeYear(year) + MonthStart(year, month) + days - EPOCH_DAYS
  {
    DaysBeforeYearClosed(year);
    if month <= 2 {
      YearBefore(year);
    } else {
      LeapDay(year);
    }
  }

  lemma EndOfMonth(year: nat, month: nat)
    requires 1 <= month <= 12
    ensures NextFirst(year, month)
            == DaysBeforeYear(year) + MonthStart(year, month) + MonthLength(year, month) - EPOCH_DAYS
  {
    NextMonth(year, month);
    if month == 12 {
      StartOfMonth(year + 1, 1, 0);
    } else {
      StartOfMonth(year, month + 1, 0);
    }
  }

  lemma YearBefore(year: nat)
    ensures (year - 1) / 4 == Multiples(year, 4) - 1
    ensures (year - 1) / 100 == Multiples(year, 100) - 1
    ensures (year - 1) / 400 == Multiples(year, 400) - 1
  {
  }

  lemma LeapDay(year: nat)
    ensures year / 4 - year / 100 + year / 400 + 1
            == Multiples(year, 4) - Multiples(year, 100) + Multiples(year, 400) + if IsLeap(year) then 1 else 0
  {
    LeapYears(year);
    NextMultiple4(year);
    NextMultiple100(year);
    NextMultiple400(year);
    YearBefore(year + 1);
  }

  lemma {:induction false} PadReads(n: nat, width: nat)
    requires n < Power10(width)
    ensures DecimalValue(Pad(n, width)) == n && forall c | c in Pad(n, width) :: IsDigit(c)
  {
    if width > 0 {
      PadReads(n / 10, width - 1);
      assert Pad(n, width)[..width - 1] == Pad(n / 10, width - 1);
    }
  }

  /** The fields of a civil time, read from its text. */
  lemma FormatReads(c: Civil)
    requires InRange(c)
    ensures var s := Format(c);
            && |s| == 15 && s[8] == '-' && (forall k | 0 <= k < 15 && k != 8 :: IsDigit(s[k]))
            && DecimalValue(s[..4]) == c.year && DecimalValue(s[4..6]) == c.month && DecimalValue(s[6..8]) == c.day
            && DecimalValue(s[9..11]) == c.hour && DecimalValue(s[11..13]) == c.minute
            && DecimalValue(s[13..]) == c.second
  {
    FieldsFit(c);
    PadReads(c.year, 4);
    PadReads(c.month, 2);
    PadReads(c.day, 2);
    PadReads(c.hour, 2);
    PadReads(c.minute, 2);
    PadReads(c.second, 2);
    Fields(Pad(c.year, 4), Pad(c.month, 2), Pad(c.day, 2), Pad(c.hour, 2), Pad(c.minute, 2), Pad(c.second, 2));
  }

  lemma FieldsFit(c: Civil)
    requires InRange(c)
    ensures c.year < Power10(4) && c.month < Power10(2) && c.day < Power10(2)
    ensures c.hour < Power10(2) && c.minute < Power10(2) && c.second < Power10(2)
  {
    assert Power10(2) == 100 && Power10(4) == 10000;
  }

  lemma Fields(year: string, month: string, day: string, hour: string, minute: string, second: string)
    requires |year| == 4 && |month| == |day| == |hour| == |minute| == |second| == 2
    ensures var s := year + (month + (day + ("-" + (hour + (minute + second)))));
            && |s| == 15 && s[8] == '-' && s[..4] == year && s[4..6] == month && s[6..8] == day
            && s[9..11] == hour && s[11..13] == minute && s[13..] == second
            && forall k | 0 <= k < 15 && k != 8 ::
                 s[k] in year || s[k] in month || s[k] in day || s[k] in hour || s[k] in minute || s[k] in second
  {
  }

  /** A Backup's name is the schedule's, a dash, and 15 characters that give the Gregorian date and the time of day of
      the run's second in UTC. */
  lemma NameReads(schedule: string, t: int)
    requires FourDigitYear(t)
    ensures var name := BackupName(schedule, t);
            && |name| == |schedule| + 16 && name[..|schedule|] == schedule && name[|schedule|] == '-'
            && var s, u := name[|schedule| + 1..], t / SECOND;
               && s[8] == '-' && (forall k | 0 <= k < 15 && k != 8 :: IsDigit(s[k]))
               && DayNumber(DecimalValue(s[..4]), DecimalValue(s[4..6]), DecimalValue(s[6..8])) == u / 86400
               && u / 86400 < NextFirst(DecimalValue(s[..4]), DecimalValue(s[4..6]))
               && 1 <= DecimalValue(s[4..6]) <= 12 && 1 <= DecimalValue(s[6..8])
               && 3600 * DecimalValue(s[9..11]) + 60 * DecimalValue(s[11..13]) + DecimalValue(s[13..]) == u % 86400
               && DecimalValue(s[11..13]) < 60 && DecimalValue(s[13..]) < 60
  {
    UtcInRange(t);
    FormatReads(Utc(t));
    UtcIsGregorian(t);
    assert BackupName(schedule, t)[|schedule| + 1..] == Format(Utc(t));
  }
}

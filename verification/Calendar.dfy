/** UTC calendar truncation: minute, hour, day, week from Monday, and Gregorian month. */
module Calendar {

  // Instants are microseconds since 1970-01-01 00:00 UTC, a Thursday.
  type Instant = int

  const MINUTE := 60_000_000
  const HOUR := 60 * MINUTE
  const DAY := 24 * HOUR

  datatype Kind = Minute | Hour | Day | Week | Month | AllTime

  predicate LeapYear(year: int) {
    year % 4 == 0 && (year % 100 != 0 || year % 400 == 0)
  }

  // Months are counted from January 1970.
  function DaysInMonth(month: int): (days: nat)
    ensures 28 <= days <= 31
  {
    var m := month % 12;
    if m == 1 then (if LeapYear(1970 + month / 12) then 29 else 28)
    else if m == 3 || m == 5 || m == 8 || m == 10 then 30
    else 31
  }

  function FirstDay(month: int): int
    decreases if month < 0 then 0 - month else month
  {
    if month == 0 then 0
    else if month > 0 then FirstDay(month - 1) + DaysInMonth(month - 1)
    else FirstDay(month + 1) - DaysInMonth(month)
  }

  predicate InMonth(day: int, month: int) {
    FirstDay(month) <= day < FirstDay(month + 1)
  }

  function MonthBackFrom(month: int, day: int): (m: int)
    requires day < FirstDay(month + 1)
    ensures InMonth(day, m)
    decreases FirstDay(month + 1) - day
  {
    if FirstDay(month) <= day then month else MonthBackFrom(month - 1, day)
  }

  function MonthForthFrom(month: int, day: int): (m: int)
    requires FirstDay(month) <= day
    ensures InMonth(day, m)
    decreases day - FirstDay(month)
  {
    if day < FirstDay(month + 1) then month else MonthForthFrom(month + 1, day)
  }

  function MonthOf(day: int): (m: int)
    ensures InMonth(day, m)
  {
    if day < 0 then MonthBackFrom(0, day) else MonthForthFrom(0, day)
  }

  lemma {:induction false} FirstDaysAscend(a: int, b: int)
    requires a < b
    ensures FirstDay(a) < FirstDay(b)
    decreases b - a
  {
    if a + 1 < b {
      FirstDaysAscend(a, b - 1);
    }
  }

  // A day lies in one month only.
  lemma MonthIsUnique(day: int, a: int, b: int)
    requires InMonth(day, a) && InMonth(day, b)
    ensures a == b
  {
    if a + 1 < b {
      FirstDaysAscend(a + 1, b);
    } else if b + 1 < a {
      FirstDaysAscend(b + 1, a);
    }
  }

  // ---- Against the civil calendar

  // The day, counted from 1970-01-01, on which a month of a year starts. Years are taken to begin in
  // March, so that the leap day comes last: 153 days are five months, and 719468 days lie between
  // 1 March of the year 0 and 1970-01-01.
  function CivilDay(year: int, month: int): int
    requires 1 <= month <= 12
  {
    var y := if month <= 2 then year - 1 else year;
    365 * y + LeapDaysUpTo(y) + DaysFromMarch(month) - 719468
  }

  function LeapDaysUpTo(y: int): int {
    y / 4 - y / 100 + y / 400
  }

  function DaysFromMarch(month: int): int {
    (153 * ((month + 9) % 12) + 2) / 5
  }

  // The same, of a month counted from January 1970.
  function CivilMonth(n: int): int {
    CivilDay(1970 + n / 12, n % 12 + 1)
  }

  lemma FloorSteps(y: int, d: nat)
    requires d > 0
    ensures y / d - (y - 1) / d == if y % d == 0 then 1 else 0
  {
    var q := y / d;
    if y % d == 0 {
      UnitsAround(y - 1, d, q - 1);
      assert (q - 1 + 1) * d == y && (q - 1) * d == y - d;
    } else {
      UnitsAround(y - 1, d, q);
      assert (q + 1) * d == q * d + d;
    }
  }

  lemma FactorsDivide(y: int)
    ensures y % 400 == 0 ==> y % 100 == 0
    ensures y % 100 == 0 ==> y % 4 == 0
  {
    if y % 400 == 0 {
      Multiple(y, 4 * (y / 400), 100);
    }
    if y % 100 == 0 {
      Multiple(y, 25 * (y / 100), 4);
    }
  }

  lemma Multiple(y: int, q: int, d: nat)
    requires d > 0 && y == q * d
    ensures y % d == 0
  {
    UnitsAround(y, d, q);
  }

  // What the leap days of a year come to.
  lemma LeapDays(y: int)
    ensures LeapDaysUpTo(y) - LeapDaysUpTo(y - 1) == if y % 4 == 0 && (y % 100 != 0 || y % 400 == 0) then 1 else 0
  {
    FloorSteps(y, 4);
    FloorSteps(y, 100);
    FloorSteps(y, 400);
    FactorsDivide(y);
  }

  lemma MonthTable()
    ensures DaysFromMarch(3) == 0 && DaysFromMarch(4) == 31 && DaysFromMarch(5) == 61
    ensures DaysFromMarch(6) == 92 && DaysFromMarch(7) == 122 && DaysFromMarch(8) == 153
    ensures DaysFromMarch(9) == 184 && DaysFromMarch(10) == 214 && DaysFromMarch(11) == 245
    ensures DaysFromMarch(12) == 275 && DaysFromMarch(1) == 306 && DaysFromMarch(2) == 337
  {
  }

  function CivilLength(year: int, month: int): int {
    if month == 2 then (if LeapYear(year) then 29 else 28)
    else if month == 4 || month == 6 || month == 9 || month == 11 then 30 else 31
  }

  // The month after a month of the year.
  lemma CivilStep(y: int, m: int)
    requires 1 <= m <= 12
    ensures CivilDay(if m < 12 then y else y + 1, if m < 12 then m + 1 else 1) == CivilDay(y, m) + CivilLength(y, m)
  {
    MonthTable();
    LeapDays(y);
    assert LeapYear(y) <==> y % 4 == 0 && (y % 100 != 0 || y % 400 == 0);
    hide LeapDaysUpTo, DaysFromMarch, LeapYear;
  }

  lemma CivilMonthAt(q: int, m: int)
    requires 0 <= m < 12
    ensures CivilMonth(12 * q + m) == CivilDay(1970 + q, m + 1)
  {
    assert (12 * q + m) / 12 == q && (12 * q + m) % 12 == m;
    hide CivilDay;
  }

  // The first days of a month and of the next, each by its year and month.
  lemma MonthAndNext(n: int) returns (year: int, month: int)
    ensures year == 1970 + n / 12 && month == n % 12 + 1
    ensures CivilMonth(n) == CivilDay(year, month)
    ensures CivilMonth(n + 1) == if month < 12 then CivilDay(year, month + 1) else CivilDay(year + 1, 1)
  {
    var q, m := n / 12, n % 12;
    year, month := 1970 + q, m + 1;
    assert n == 12 * q + m;
    hide CivilMonth, CivilDay;
    CivilMonthAt(q, m);
    if m < 11 {
      CivilMonthAt(q, m + 1);
    } else {
      CivilMonthAt(q + 1, 0);
    }
  }

  lemma LengthsAgree(n: int)
    ensures DaysInMonth(n) == CivilLength(1970 + n / 12, n % 12 + 1)
  {
    hide LeapYear;
  }

  lemma MonthsStep(n: int)
    ensures CivilMonth(n + 1) == CivilMonth(n) + DaysInMonth(n)
  {
    hide CivilMonth, CivilDay, CivilLength, DaysInMonth;
    var year, month := MonthAndNext(n);
    LengthsAgree(n);
    CivilStep(year, month);
  }

  lemma EpochIsCivil()
    ensures CivilMonth(0) == 0
  {
    MonthTable();
  }

  // The months as walked from January 1970 start on the days of the civil calendar, in every year.
  lemma {:induction false} MonthsAreCivil(n: int)
    ensures FirstDay(n) == CivilMonth(n)
    decreases if n < 0 then 0 - n else n
  {
    EpochIsCivil();
    hide CivilMonth, DaysInMonth;
    if n > 0 {
      MonthsAreCivil(n - 1);
      MonthsStep(n - 1);
    } else if n < 0 {
      MonthsAreCivil(n + 1);
      MonthsStep(n);
    }
  }

  // A year has 365 days, or 366 by the leap rule; 400 years have 146097.
  lemma YearLengths(year: int, month: int)
    requires 1 <= month <= 12
    ensures CivilDay(year + 1, 1) - CivilDay(year, 1)
            == if year % 4 == 0 && (year % 100 != 0 || year % 400 == 0) then 366 else 365
    ensures CivilDay(year + 400, month) - CivilDay(year, month) == 146097
  {
    LeapDays(year);
    FourCenturies(if month <= 2 then year - 1 else year);
    hide LeapDaysUpTo, DaysFromMarch;
  }

  lemma FourCenturies(y: int)
    ensures LeapDaysUpTo(y + 400) == LeapDaysUpTo(y) + 97
  {
    UnitsAround(y + 400, 4, y / 4 + 100);
    UnitsAround(y + 400, 100, y / 100 + 4);
    UnitsAround(y + 400, 400, y / 400 + 1);
  }

  predicate InCivilMonth(t: Instant, year: int, month: int)
    requires 1 <= month <= 12
  {
    && CivilDay(year, month) * 86_400_000_000 <= t
    && t < (if month < 12 then CivilDay(year, month + 1) else CivilDay(year + 1, 1)) * 86_400_000_000
  }

  // A month bucket starts at the first midnight of the civil month the instant lies in.
  lemma MonthBucketIsCivil(t: Instant, year: int, month: int)
    requires 1 <= month <= 12
    ensures Truncate(Month, t) == CivilDay(year, month) * 86_400_000_000 <==> InCivilMonth(t, year, month)
  {
    hide CivilDay, CivilMonth, FirstDay, Truncate, MonthOf;
    var n, here := 12 * (year - 1970) + month - 1, MonthOf(t / DAY);
    MonthsAreCivil(n);
    MonthsAreCivil(n + 1);
    var y, m := MonthAndNext(n);
    assert y == year && m == month;
    MonthStart(t);
    UnitsBetween(t, DAY, FirstDay(n), FirstDay(n + 1));
    if InMonth(t / DAY, n) {
      MonthIsUnique(t / DAY, n, here);
    } else if FirstDay(n) == FirstDay(here) {
      FirstDaysApart(n, here);
    }
  }

  lemma FirstDaysApart(a: int, b: int)
    requires FirstDay(a) == FirstDay(b)
    ensures a == b
  {
    hide FirstDay;
    if a < b {
      FirstDaysAscend(a, b);
    } else if b < a {
      FirstDaysAscend(b, a);
    }
  }

  lemma MonthStart(t: Instant)
    ensures Truncate(Month, t) == FirstDay(MonthOf(t / DAY)) * DAY
    ensures FirstDay(MonthOf(t / DAY)) * DAY <= t < FirstDay(MonthOf(t / DAY) + 1) * DAY
  {
    hide FirstDay;
    UnitsBetween(t, DAY, FirstDay(MonthOf(t / DAY)), FirstDay(MonthOf(t / DAY) + 1));
  }

  // The smaller buckets, in whole minutes, hours, days, and weeks from the Monday four days after
  // the Thursday 1970-01-01.
  lemma SmallBucketsInMicroseconds(t: Instant)
    ensures Truncate(Minute, t) == t / 60_000_000 * 60_000_000
    ensures Truncate(Hour, t) == t / 3_600_000_000 * 3_600_000_000
    ensures Truncate(Day, t) == t / 86_400_000_000 * 86_400_000_000
    ensures Truncate(Week, t) == (t - 345_600_000_000) / 604_800_000_000 * 604_800_000_000 + 345_600_000_000
    ensures Truncate(AllTime, t) == 0
  {
    WeeksFromMonday(t);
  }

  lemma WeeksFromMonday(t: Instant)
    ensures Truncate(Week, t) == (t - 345_600_000_000) / 604_800_000_000 * 604_800_000_000 + 345_600_000_000
  {
    var week := WeekOf(t / DAY);
    UnitsBetween(t, DAY, FirstDayOfWeek(week), FirstDayOfWeek(week + 1));
    UnitsAround(t - 345_600_000_000, 604_800_000_000, week - 1);
    assert FirstDayOfWeek(week) * DAY == (week - 1) * 604_800_000_000 + 345_600_000_000;
  }

  function WeekOf(day: int): int {
    (day + 3) / 7
  }

  // A Monday.
  function FirstDayOfWeek(week: int): int {
    week * 7 - 3
  }

  function Truncate(kind: Kind, t: Instant): Instant {
    match kind
    case Minute => t / MINUTE * MINUTE
    case Hour => t / HOUR * HOUR
    case Day => t / DAY * DAY
    case Week => FirstDayOfWeek(WeekOf(t / DAY)) * DAY
    case Month => FirstDay(MonthOf(t / DAY)) * DAY
    case AllTime => 0
  }

  // The periods of a kind, numbered, and the instant one starts.
  function PeriodStart(kind: Kind, n: int): Instant {
    match kind
    case Minute => n * MINUTE
    case Hour => n * HOUR
    case Day => n * DAY
    case Week => FirstDayOfWeek(n) * DAY
    case Month => FirstDay(n) * DAY
    case AllTime => 0
  }

  ghost predicate InPeriod(kind: Kind, n: int, t: Instant) {
    kind == AllTime || PeriodStart(kind, n) <= t < PeriodStart(kind, n + 1)
  }

  lemma UnitsAround(t: int, unit: nat, n: int)
    requires unit > 0
    ensures n * unit <= t < (n + 1) * unit <==> n == t / unit
  {
    var q := t / unit;
    assert q * unit <= t < q * unit + unit;
    if n < q {
      Multiples(n + 1, q, unit);
    } else if n > q {
      Multiples(q + 1, n, unit);
    }
  }

  lemma Multiples(a: int, b: int, unit: nat)
    ensures a <= b ==> a * unit <= b * unit
    ensures a * unit < b * unit ==> a < b
  {
  }

  // t lies between two multiples of a unit exactly when its number of whole units does.
  lemma UnitsBetween(t: Instant, unit: nat, a: int, b: int)
    requires unit > 0
    ensures a * unit <= t < b * unit <==> a <= t / unit < b
  {
    var q := t / unit;
    assert q * unit <= t < q * unit + unit;
    Multiples(a, q, unit);
    Multiples(q + 1, a, unit);
    Multiples(q + 1, b, unit);
    Multiples(b, q, unit);
  }

  // Truncation finds the start of the period an instant lies in, and that period is the only one.
  lemma TruncateIsPeriodStart(kind: Kind, n: int, t: Instant)
    ensures InPeriod(kind, n, t) ==> Truncate(kind, t) == PeriodStart(kind, n)
    ensures exists m :: InPeriod(kind, m, t)
  {
    match kind {
      case Minute => UnitsAround(t, MINUTE, n); UnitsAround(t, MINUTE, t / MINUTE); assert InPeriod(kind, t / MINUTE, t);
      case Hour => UnitsAround(t, HOUR, n); UnitsAround(t, HOUR, t / HOUR); assert InPeriod(kind, t / HOUR, t);
      case Day => UnitsAround(t, DAY, n); UnitsAround(t, DAY, t / DAY); assert InPeriod(kind, t / DAY, t);
      case Week => WeekPeriods(n, t); WeekPeriods(WeekOf(t / DAY), t);
      case Month => MonthPeriods(n, t); MonthPeriods(MonthOf(t / DAY), t);
      case AllTime => assert InPeriod(kind, 0, t);
    }
  }

  lemma WeekPeriods(n: int, t: Instant)
    ensures InPeriod(Week, n, t) <==> n == WeekOf(t / DAY)
  {
  }

  lemma MonthPeriods(n: int, t: Instant)
    ensures InPeriod(Month, n, t) <==> n == MonthOf(t / DAY)
  {
    UnitsBetween(t, DAY, FirstDay(n), FirstDay(n + 1));
    if InMonth(t / DAY, n) {
      MonthIsUnique(t / DAY, n, MonthOf(t / DAY));
    }
  }

  // Every fine period lies inside one coarse period. Weeks and months do not nest.
  predicate Nests(fine: Kind, coarse: Kind) {
    match fine
    case Minute => true
    case Hour => !coarse.Minute?
    case Day => !coarse.Minute? && !coarse.Hour?
    case Week => coarse.Week? || coarse.AllTime?
    case Month => coarse.Month? || coarse.AllTime?
    case AllTime => coarse.AllTime?
  }

  // Cutting down to units first does not change how many groups of units have passed.
  lemma UnitsNest(t: int, unit: nat, group: nat, whole: nat)
    requires unit > 0 && whole > 0 && whole == unit * group
    ensures t / unit * unit / whole == t / whole
  {
    var q, cut := t / whole, t / unit * unit;
    UnitsAround(t, unit, t / unit);
    UnitsAround(cut, unit, t / unit);
    GroupsAround(t, unit, group, whole, q);
    GroupsAround(cut, unit, group, whole, q);
  }

  lemma GroupsAround(t: int, unit: nat, group: nat, whole: nat, q: int)
    requires unit > 0 && whole > 0 && whole == unit * group
    ensures q == t / whole <==> q * group <= t / unit < (q + 1) * group
  {
    UnitsAround(t, whole, q);
    Regroup(q, unit, group);
    Regroup(q + 1, unit, group);
    UnitsBetween(t, unit, q * group, (q + 1) * group);
  }

  lemma Regroup(q: int, unit: nat, group: nat)
    ensures q * (unit * group) == (q * group) * unit
  {
  }

  lemma SameDay(fine: Kind, t: Instant)
    requires fine.Minute? || fine.Hour? || fine.Day?
    ensures Truncate(fine, t) / DAY == t / DAY
  {
    match fine {
      case Minute => UnitsNest(t, MINUTE, 1440, DAY);
      case Hour => UnitsNest(t, HOUR, 24, DAY);
      case Day => UnitsNest(t, DAY, 1, DAY);
    }
  }

  lemma TruncationNests(fine: Kind, coarse: Kind, t: Instant)
    requires Nests(fine, coarse)
    ensures Truncate(coarse, Truncate(fine, t)) == Truncate(coarse, t)
  {
    if fine == coarse {
      TruncateAgain(fine, t);
    } else if fine.Minute? && coarse.Hour? {
      UnitsNest(t, MINUTE, 60, HOUR);
    } else if !coarse.AllTime? {
      SameDay(fine, t);
    }
  }

  lemma TruncateAgain(kind: Kind, t: Instant)
    ensures Truncate(kind, Truncate(kind, t)) == Truncate(kind, t)
  {
    match kind {
      case Minute => UnitsNest(t, MINUTE, 1, MINUTE);
      case Hour => UnitsNest(t, HOUR, 1, HOUR);
      case Day => UnitsNest(t, DAY, 1, DAY);
      case Week => WholeDays(FirstDayOfWeek(WeekOf(t / DAY)));
      case Month =>
        var first := FirstDay(MonthOf(t / DAY));
        WholeDays(first);
        MonthIsUnique(first, MonthOf(t / DAY), MonthOf(first));
      case AllTime =>
    }
  }

  lemma WholeDays(days: int)
    ensures days * DAY / DAY == days
  {
  }

  // An instant at which the fine start lies in another coarse period.
  function Straddled(fine: Kind, coarse: Kind): Instant {
    match coarse
    case Minute => MINUTE
    case Hour => HOUR
    case Day => DAY
    case Week => 5 * DAY
    case Month => if fine.Week? then 0 else 31 * DAY
    case AllTime => 0
  }

  lemma MonthStraddles(fine: Kind)
    requires fine.Week? || fine.AllTime?
    ensures var t := Straddled(fine, Month); Truncate(Month, Truncate(fine, t)) != Truncate(Month, t)
  {
    assert InMonth(31, 1) && InMonth(0, 0) && InMonth(-3, -1);
    MonthIsUnique(0, 0, MonthOf(0));
    if fine.Week? {
      MonthIsUnique(-3, -1, MonthOf(-3));
    } else {
      MonthIsUnique(31, 1, MonthOf(31));
    }
  }

  lemma FineStart(fine: Kind, coarse: Kind)
    requires !Nests(fine, coarse) && !coarse.Month?
    ensures Truncate(fine, Straddled(fine, coarse)) <= 0
  {
    if fine.Month? {
      var day := Straddled(fine, coarse) / DAY;
      assert InMonth(day, 0);
      MonthIsUnique(day, 0, MonthOf(day));
    }
  }

  lemma CoarseStart(fine: Kind, coarse: Kind)
    requires !Nests(fine, coarse) && !coarse.Month?
    ensures Truncate(coarse, Straddled(fine, coarse)) > 0
  {
  }

  lemma StartIsNotLater(kind: Kind, t: Instant)
    requires !kind.Month? && t <= 0
    ensures Truncate(kind, t) <= 0
  {
  }

  lemma Straddles(fine: Kind, coarse: Kind)
    requires !Nests(fine, coarse)
    ensures var t := Straddled(fine, coarse); Truncate(coarse, Truncate(fine, t)) != Truncate(coarse, t)
  {
    hide Truncate, Straddled;
    if coarse.Month? {
      MonthStraddles(fine);
    } else {
      FineStart(fine, coarse);
      CoarseStart(fine, coarse);
      StartIsNotLater(coarse, Truncate(fine, Straddled(fine, coarse)));
    }
  }

  // Truncating to the fine period first changes nothing exactly for the kinds that nest: weeks and
  // months do not, either way.
  lemma NestsExactly(fine: Kind, coarse: Kind)
    ensures Nests(fine, coarse) <==> forall t :: Truncate(coarse, Truncate(fine, t)) == Truncate(coarse, t)
  {
    hide Truncate;
    if Nests(fine, coarse) {
      forall t ensures Truncate(coarse, Truncate(fine, t)) == Truncate(coarse, t) {
        TruncationNests(fine, coarse, t);
      }
    } else {
      Straddles(fine, coarse);
    }
  }
}

/** Calendar days, the period each rebalance schedule groups them by, and the bars a schedule picks. */
module Calendar {

  /** A proleptic Gregorian day. */
  datatype Date = Date(year: int, month: int, day: int)

  /** The lexicographically ordered pair a schedule identifies a period by. */
  datatype Key = Key(major: int, minor: int)

  predicate KeyLess(a: Key, b: Key) {
    a.major < b.major || (a.major == b.major && a.minor < b.minor)
  }

  predicate IsLeap(year: int) {
    year % 4 == 0 && (year % 100 != 0 || year % 400 == 0)
  }

  function DaysInMonth(year: int, month: int): int {
    if month == 2 then (if IsLeap(year) then 29 else 28)
    else if month in {4, 6, 9, 11} then 30
    else 31
  }

  predicate ValidDate(d: Date) {
    1 <= d.year && 1 <= d.month <= 12 && 1 <= d.day <= DaysInMonth(d.year, d.month)
  }

  function DaysBeforeYear(year: int): int {
    365 * (year - 1) + (year - 1) / 4 - (year - 1) / 100 + (year - 1) / 400
  }

  function DaysBeforeMonth(year: int, month: int): int
    requires 1 <= month <= 13
    decreases month
  {
    if month == 1 then 0 else DaysBeforeMonth(year, month - 1) + DaysInMonth(year, month - 1)
  }

  /** Day number counting 1 January of year 1 as 1, a Monday. */
  function Ordinal(d: Date): int
    requires ValidDate(d)
  {
    DaysBeforeYear(d.year) + DaysBeforeMonth(d.year, d.month) + d.day
  }

  /** Dividing a successor steps the quotient exactly at the multiples. */
  lemma DivStep(n: int, k: int)
    requires k > 0
    ensures n / k == (n - 1) / k + (if n % k == 0 then 1 else 0)
  {
    var q, r := n / k, n % k;
    assert n == k * q + r;
    if r == 0 {
      assert n - 1 == k * (q - 1) + (k - 1);
      QuotientIs(n - 1, k, q - 1, k - 1);
    } else {
      assert n - 1 == k * q + (r - 1);
      QuotientIs(n - 1, k, q, r - 1);
    }
  }

  lemma QuotientIs(n: int, k: int, q: int, r: int)
    requires 0 <= r < k && n == k * q + r
    ensures n / k == q && n % k == r
  {
    var d := n / k - q;
    assert k * d == r - n % k;
    MultipleIsFar(k, d);
  }

  lemma MultipleIsFar(k: int, d: int)
    requires k > 0
    ensures d >= 1 ==> k * d >= k
    ensures d <= -1 ==> k * d <= -k
  {
  }

  lemma LeapCenturies(year: int)
    ensures year % 400 == 0 ==> year % 100 == 0
    ensures year % 100 == 0 ==> year % 4 == 0
  {
    if year % 400 == 0 {
      QuotientIs(year, 100, 4 * (year / 400), 0);
    }
    if year % 100 == 0 {
      QuotientIs(year, 4, 25 * (year / 100), 0);
    }
  }

  lemma YearLength(year: int)
    ensures DaysBeforeYear(year + 1) == DaysBeforeYear(year) + (if IsLeap(year) then 366 else 365)
  {
    LeapCenturies(year);
    DivStep(year, 4);
    DivStep(year, 100);
    DivStep(year, 400);
  }

  lemma MonthsFillTheYear(year: int)
    ensures DaysBeforeMonth(year, 13) == (if IsLeap(year) then 366 else 365)
  {
    assert DaysBeforeMonth(year, 4) == DaysBeforeMonth(year, 1) + 31 + DaysInMonth(year, 2) + 31;
    assert DaysBeforeMonth(year, 7) == DaysBeforeMonth(year, 4) + 30 + 31 + 30;
    assert DaysBeforeMonth(year, 10) == DaysBeforeMonth(year, 7) + 31 + 31 + 30;
  }

  lemma {:induction false} MonthsAscend(year: int, a: int, b: int)
    requires 1 <= a < b <= 13
    ensures DaysBeforeMonth(year, a) + DaysInMonth(year, a) <= DaysBeforeMonth(year, b)
    decreases b
  {
    if a < b - 1 {
      MonthsAscend(year, a, b - 1);
    }
  }

  lemma {:induction false} YearsAscend(a: int, b: int)
    requires a <= b
    ensures DaysBeforeYear(a) + 365 * (b - a) <= DaysBeforeYear(b) <= DaysBeforeYear(a) + 366 * (b - a)
    decreases b - a
  {
    if a < b {
      YearsAscend(a, b - 1);
      YearLength(b - 1);
    }
  }

  /** A day lies inside its own year. */
  lemma OrdinalInYear(d: Date)
    requires ValidDate(d)
    ensures DaysBeforeYear(d.year) < Ordinal(d) <= DaysBeforeYear(d.year + 1)
  {
    YearLength(d.year);
    MonthsFillTheYear(d.year);
    MonthsAscend(d.year, d.month, 13);
    if d.month > 1 {
      MonthsAscend(d.year, 1, d.month);
    }
  }

  predicate Earlier(a: Date, b: Date) {
    a.year < b.year || (a.year == b.year && (a.month < b.month || (a.month == b.month && a.day < b.day)))
  }

  /** Days are numbered in calendar order. */
  lemma EarlierDaysHaveSmallerNumbers(a: Date, b: Date)
    requires ValidDate(a) && ValidDate(b) && Earlier(a, b)
    ensures Ordinal(a) < Ordinal(b)
  {
    hide DaysBeforeYear, DaysBeforeMonth, DaysInMonth, IsLeap;
    OrdinalInYear(a);
    OrdinalInYear(b);
    if a.year < b.year {
      YearsAscend(a.year + 1, b.year);
    } else if a.month < b.month {
      MonthsAscend(a.year, a.month, b.month);
    }
  }

  /** The Monday that starts a day's week. */
  function MondayOf(ordinal: int): int {
    ordinal - (ordinal - 1) % 7
  }

  /** The Monday of week 1: the week holding the year's first Thursday (ISO 8601:2004, section 4.1.4). */
  function FirstIsoMonday(year: int): int {
    MondayOf(DaysBeforeYear(year) + 4)
  }

  function IsoYear(d: Date): int
    requires ValidDate(d)
  {
    var monday := MondayOf(Ordinal(d));
    if monday < FirstIsoMonday(d.year) then d.year - 1
    else if monday >= FirstIsoMonday(d.year + 1) then d.year + 1
    else d.year
  }

  function IsoKey(d: Date): Key
    requires ValidDate(d)
  {
    Key(IsoYear(d), (MondayOf(Ordinal(d)) - FirstIsoMonday(IsoYear(d))) / 7 + 1)
  }

  lemma MondayOfBounds(o: int)
    ensures MondayOf(o) <= o < MondayOf(o) + 7
    ensures (MondayOf(o) - 1) % 7 == 0
  {
  }

  lemma FirstIsoMondayIsAMonday(year: int)
    ensures (FirstIsoMonday(year) - 1) % 7 == 0
  {
    MondayOfBounds(DaysBeforeYear(year) + 4);
  }

  lemma FirstIsoMondaysAscend(a: int, b: int)
    requires a < b
    ensures FirstIsoMonday(a) + 358 <= FirstIsoMonday(b)
  {
    YearsAscend(a, b);
    MondayOfBounds(DaysBeforeYear(a) + 4);
    MondayOfBounds(DaysBeforeYear(b) + 4);
  }

  /** An ISO year is the span of weeks between two first Mondays, and a day's week lies in it. */
  lemma IsoYearSpansTheWeek(d: Date)
    requires ValidDate(d)
    ensures FirstIsoMonday(IsoYear(d)) <= MondayOf(Ordinal(d)) < FirstIsoMonday(IsoYear(d) + 1)
  {
    hide MondayOf, DaysBeforeYear, DaysBeforeMonth, Ordinal, IsLeap, DaysInMonth;
    OrdinalInYear(d);
    MondayOfBounds(Ordinal(d));
    YearLength(d.year - 1);
    YearLength(d.year);
    YearLength(d.year + 1);
    MondayOfBounds(DaysBeforeYear(d.year - 1) + 4);
    MondayOfBounds(DaysBeforeYear(d.year + 2) + 4);
  }

  /** Two days share an ISO (year, week) exactly when they share the Monday, and later weeks have later keys. */
  lemma IsoKeyIsTheWeek(a: Date, b: Date)
    requires ValidDate(a) && ValidDate(b)
    ensures IsoKey(a) == IsoKey(b) <==> MondayOf(Ordinal(a)) == MondayOf(Ordinal(b))
    ensures KeyLess(IsoKey(a), IsoKey(b)) <==> MondayOf(Ordinal(a)) < MondayOf(Ordinal(b))
  {
    hide FirstIsoMonday, IsoYear, Ordinal, MondayOf;
    IsoYearSpansTheWeek(a);
    IsoYearSpansTheWeek(b);
    MondayOfBounds(Ordinal(a));
    MondayOfBounds(Ordinal(b));
    IsoYearsFollowMondays(IsoYear(a), MondayOf(Ordinal(a)), IsoYear(b), MondayOf(Ordinal(b)));
    IsoYearsFollowMondays(IsoYear(b), MondayOf(Ordinal(b)), IsoYear(a), MondayOf(Ordinal(a)));
    FirstIsoMondayIsAMonday(IsoYear(a));
    FirstIsoMondayIsAMonday(IsoYear(b));
    KeysFollowMondays(IsoYear(a), FirstIsoMonday(IsoYear(a)), MondayOf(Ordinal(a)),
                      IsoYear(b), FirstIsoMonday(IsoYear(b)), MondayOf(Ordinal(b)));
  }

  lemma IsoYearsFollowMondays(ya: int, ma: int, yb: int, mb: int)
    requires FirstIsoMonday(ya) <= ma < FirstIsoMonday(ya + 1)
    requires FirstIsoMonday(yb) <= mb < FirstIsoMonday(yb + 1)
    ensures ya < yb ==> ma < mb
  {
    if ya + 1 < yb {
      FirstIsoMondaysAscend(ya + 1, yb);
    }
  }

  /** `f` stands for the first Monday of ISO year `y`, `m` for the Monday of a week in it. */
  lemma KeysFollowMondays(ya: int, fa: int, ma: int, yb: int, fb: int, mb: int)
    requires (fa - 1) % 7 == (ma - 1) % 7 == (mb - 1) % 7 == 0
    requires (ya == yb ==> fa == fb) && (ya < yb ==> ma < mb) && (yb < ya ==> mb < ma)
    ensures Key(ya, (ma - fa) / 7 + 1) == Key(yb, (mb - fb) / 7 + 1) <==> ma == mb
    ensures KeyLess(Key(ya, (ma - fa) / 7 + 1), Key(yb, (mb - fb) / 7 + 1)) <==> ma < mb
  {
    WeeksApart(fa, ma, mb);
  }

  lemma WeeksApart(first: int, ma: int, mb: int)
    requires (first - 1) % 7 == (ma - 1) % 7 == (mb - 1) % 7 == 0
    ensures (ma - first) / 7 == (mb - first) / 7 <==> ma == mb
    ensures (ma - first) / 7 < (mb - first) / 7 <==> ma < mb
  {
    var f, a, b := (first - 1) / 7, (ma - 1) / 7, (mb - 1) / 7;
    QuotientIs(ma - first, 7, a - f, 0);
    QuotientIs(mb - first, 7, b - f, 0);
  }

  // Schedules

  predicate KnownSchedule(schedule: string) {
    schedule in {"weekly", "monthly", "quarterly"}
  }

  function PeriodKey(schedule: string, d: Date): Key
    requires ValidDate(d) && KnownSchedule(schedule)
  {
    if schedule == "weekly" then IsoKey(d)
    else if schedule == "monthly" then Key(d.year, d.month)
    else Key(d.year, (d.month - 1) / 3)
  }

  predicate SameQuarter(a: int, b: int) {
    || (1 <= a <= 3 && 1 <= b <= 3) || (4 <= a <= 6 && 4 <= b <= 6)
    || (7 <= a <= 9 && 7 <= b <= 9) || (10 <= a <= 12 && 10 <= b <= 12)
  }

  /** What sharing a period means on the calendar, schedule by schedule. */
  ghost predicate SamePeriod(schedule: string, a: Date, b: Date)
    requires ValidDate(a) && ValidDate(b)
  {
    && (schedule == "monthly" ==> a.year == b.year && a.month == b.month)
    && (schedule == "quarterly" ==> a.year == b.year && SameQuarter(a.month, b.month))
    && (schedule == "weekly" ==> MondayOf(Ordinal(a)) == MondayOf(Ordinal(b)))
  }

  /** Period keys agree exactly on days of one calendar month, quarter or ISO week. */
  lemma KeysAreCalendarPeriods(schedule: string, a: Date, b: Date)
    requires ValidDate(a) && ValidDate(b) && KnownSchedule(schedule)
    ensures schedule == "weekly" || schedule == "monthly" || schedule == "quarterly"
    ensures PeriodKey(schedule, a) == PeriodKey(schedule, b) <==> SamePeriod(schedule, a, b)
  {
    hide IsoKey, Ordinal, MondayOf;
    IsoKeyIsTheWeek(a, b);
  }

  /** The next calendar day. */
  function NextDay(d: Date): Date {
    if d.day < DaysInMonth(d.year, d.month) then d.(day := d.day + 1)
    else if d.month < 12 then Date(d.year, d.month + 1, 1)
    else Date(d.year + 1, 1, 1)
  }

  /** Days are numbered without gaps. */
  lemma NextDayIsNumberedNext(d: Date)
    requires ValidDate(d)
    ensures ValidDate(NextDay(d)) && Ordinal(NextDay(d)) == Ordinal(d) + 1
  {
    if d.day == DaysInMonth(d.year, d.month) && d.month == 12 {
      YearLength(d.year);
      MonthsFillTheYear(d.year);
    }
  }

  /** The Gregorian months, and the day from which both weeks and timestamps are counted. */
  lemma CalendarAnchors(year: int, month: int)
    requires 1 <= month <= 12
    ensures DaysInMonth(year, month)
         == if month == 2 then if (year % 4 == 0 && year % 100 != 0) || year % 400 == 0 then 29 else 28
            else if month == 4 || month == 6 || month == 9 || month == 11 then 30
            else 31
    ensures Ordinal(Date(1970, 1, 1)) == 719163
    ensures MondayOf(Ordinal(Date(1970, 1, 1))) == Ordinal(Date(1970, 1, 1)) - 3
  {
    EpochIsAThursday();
    hide Ordinal, MondayOf;
  }

  lemma EpochIsAThursday()
    ensures Ordinal(Date(1970, 1, 1)) == 719163
    ensures MondayOf(Ordinal(Date(1970, 1, 1))) == Ordinal(Date(1970, 1, 1)) - 3
  {
    assert DaysBeforeMonth(1970, 1) == 0;
    assert DaysBeforeYear(1970) == 719162;
    hide DaysBeforeMonth, DaysBeforeYear;
  }

  ghost predicate AscendingDates(dates: seq<Date>) {
    && (forall i :: 0 <= i < |dates| ==> ValidDate(dates[i]))
    && (forall i, j :: 0 <= i < j < |dates| ==> Earlier(dates[i], dates[j]))
  }

  lemma PeriodKeysAscend(schedule: string, a: Date, b: Date)
    requires ValidDate(a) && ValidDate(b) && KnownSchedule(schedule) && Earlier(a, b)
    ensures !KeyLess(PeriodKey(schedule, b), PeriodKey(schedule, a))
  {
    if schedule == "weekly" {
      IsoKeyIsTheWeek(b, a);
      EarlierDaysHaveSmallerNumbers(a, b);
      MondaysAscend(Ordinal(a), Ordinal(b));
    }
  }

  lemma MondaysAscend(a: int, b: int)
    requires a < b
    ensures MondayOf(a) <= MondayOf(b)
  {
    MondayOfBounds(a);
    MondayOfBounds(b);
    WeeksApart(1, MondayOf(a), MondayOf(b));
  }

  /** The period of every bar. */
  function PeriodKeys(dates: seq<Date>, schedule: string): (keys: seq<Key>)
    requires KnownSchedule(schedule) && forall d :: d in dates ==> ValidDate(d)
    ensures |keys| == |dates|
  {
    seq(|dates|, i requires 0 <= i < |dates| => PeriodKey(schedule, dates[i]))
  }

  ghost predicate AscendingKeys(keys: seq<Key>) {
    forall i, j :: 0 <= i < j < |keys| ==> !KeyLess(keys[j], keys[i])
  }

  lemma PeriodsAscend(dates: seq<Date>, schedule: string)
    requires KnownSchedule(schedule) && AscendingDates(dates)
    ensures AscendingKeys(PeriodKeys(dates, schedule))
  {
    forall i, j | 0 <= i < j < |dates|
      ensures !KeyLess(PeriodKeys(dates, schedule)[j], PeriodKeys(dates, schedule)[i])
    {
      PeriodKeysAscend(schedule, dates[i], dates[j]);
    }
  }

  /** The picks among the first `n` bars, in order. */
  function PeriodStarts(keys: seq<Key>, minIndex: nat, n: nat): seq<nat>
    requires n <= |keys|
  {
    if n <= minIndex then []
    else if n - 1 == minIndex || keys[n - 1] != keys[n - 2] then PeriodStarts(keys, minIndex, n - 1) + [n - 1]
    else PeriodStarts(keys, minIndex, n - 1)
  }

  /** The earliest bar of its period among the bars at or after `minIndex`. */
  ghost predicate FirstOfPeriod(keys: seq<Key>, minIndex: nat, i: int) {
    minIndex <= i < |keys| && forall j :: minIndex <= j < i ==> keys[j] != keys[i]
  }

  ghost predicate Increasing(xs: seq<nat>) {
    forall k, l :: 0 <= k < l < |xs| ==> xs[k] < xs[l]
  }

  /** The picks are exactly the earliest bar of each period, each once and in ascending order. */
  lemma {:induction false} PeriodStartsAreExact(keys: seq<Key>, minIndex: nat, n: nat)
    requires AscendingKeys(keys) && n <= |keys|
    ensures forall i :: i in PeriodStarts(keys, minIndex, n) <==> i < n && FirstOfPeriod(keys, minIndex, i)
    ensures Increasing(PeriodStarts(keys, minIndex, n))
  {
    if n > minIndex {
      PeriodStartsAreExact(keys, minIndex, n - 1);
      var before := PeriodStarts(keys, minIndex, n - 1);
      forall k | 0 <= k < |before| ensures before[k] < n - 1 {
        var i := before[k];
        assert i in before;
        assert i < n - 1;
      }
      assert FirstOfPeriod(keys, minIndex, n - 1) <==> n - 1 == minIndex || keys[n - 1] != keys[n - 2] by {
        if n - 1 > minIndex && keys[n - 1] != keys[n - 2] {
          forall j | minIndex <= j < n - 1 ensures keys[j] != keys[n - 1] {
            assert !KeyLess(keys[n - 2], keys[j]) || j == n - 2;
            assert !KeyLess(keys[n - 1], keys[n - 2]);
          }
        }
      }
    }
  }

  /** Which of the first `n` bars are picked depends on the first `n` bars' periods only. */
  lemma {:induction false} PeriodStartsArePointInTime(keys: seq<Key>, other: seq<Key>, minIndex: nat, n: nat)
    requires n <= |keys| && n <= |other| && forall i :: 0 <= i < n ==> keys[i] == other[i]
    ensures PeriodStarts(keys, minIndex, n) == PeriodStarts(other, minIndex, n)
  {
    if n > minIndex {
      PeriodStartsArePointInTime(keys, other, minIndex, n - 1);
    }
  }

  /** Later bars add picks without touching the earlier ones. */
  lemma {:induction false} PeriodStartsExtend(keys: seq<Key>, minIndex: nat, m: nat, n: nat, i: nat)
    requires i < m <= n <= |keys|
    ensures i in PeriodStarts(keys, minIndex, m) <==> i in PeriodStarts(keys, minIndex, n)
    decreases n
  {
    if m < n && n > minIndex {
      PeriodStartsExtend(keys, minIndex, m, n - 1, i);
    }
  }

  datatype Indices = Picked(indices: seq<nat>) | UnsupportedSchedule(schedule: string)

  /** The picks of a whole panel: an unknown schedule is only noticed once there is a bar to look at. */
  function RebalanceSchedule(dates: seq<Date>, schedule: string, minIndex: nat): Indices
    requires forall d :: d in dates ==> ValidDate(d)
  {
    if minIndex >= |dates| then Picked([])
    else if !KnownSchedule(schedule) then UnsupportedSchedule(schedule)
    else Picked(PeriodStarts(PeriodKeys(dates, schedule), minIndex, |dates|))
  }

  method RebalanceIndices(dates: seq<Date>, schedule: string, minIndex: nat) returns (r: Indices)
    requires forall d :: d in dates ==> ValidDate(d)
    ensures r == RebalanceSchedule(dates, schedule, minIndex)
  {
    hide PeriodKey;
    if minIndex >= |dates| {
      return Picked([]);
    }
    var picked: seq<nat> := [];
    var lastKey := Key(0, 0);
    ghost var keys := if KnownSchedule(schedule) then PeriodKeys(dates, schedule) else [];
    for index := minIndex to |dates|
      invariant KnownSchedule(schedule) ==> picked == PeriodStarts(keys, minIndex, index)
      invariant picked != [] ==> KnownSchedule(schedule) && minIndex < index && lastKey == keys[index - 1]
      invariant picked == [] ==> index == minIndex
    {
      if !KnownSchedule(schedule) {
        return UnsupportedSchedule(schedule);
      }
      var key := PeriodKey(schedule, dates[index]);
      assert key == keys[index];
      if picked == [] || key != lastKey {
        picked := picked + [index];
        lastKey := key;
      }
    }
    r := Picked(picked);
  }
}

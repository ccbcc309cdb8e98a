/** The time axis of the staff analytics chart: the `days` parameter, and
    the calendar walk from the first day of the window to today, one day or
    one month at a time.  The amounts plotted along it are floating point
    and are not part of this model. */
module DashboardAnalytics {
  import opened Basics
  import opened Text
  import opened Money

  /** `int(request.GET.get("days", "30"))`, 30 when that raises, then
      clamped to one year. */
  function DaysParam(query: map<string, string>): (days: int)
    ensures 1 <= days <= 365
    ensures "days" !in query ==> days == 30
    ensures "days" in query && ParseInt(query["days"]).None? ==> days == 30
    ensures "days" in query && ParseInt(query["days"]).Some? ==> days == Clamp(ParseInt(query["days"]).value, 1, 365)
  {
    if "days" !in query then 30
    else
      var p := ParseInt(query["days"]);
      Clamp(if p.Some? then p.value else 30, 1, 365)
  }

  /** A supplied number of days inside the year is kept as it is. */
  lemma DaysParamKeepsInRange(n: int)
    requires 1 <= n <= 365
    ensures DaysParam(map["days" := IntToString(n)]) == n
  {
    ParseIntOfIntToString(n);
  }

  // ---------------------------------------------------------------------
  // The proleptic Gregorian calendar of Python's `datetime`

  datatype Date = Date(year: int, month: int, day: int)

  predicate Leap(y: int)
  {
    y % 4 == 0 && (y % 100 != 0 || y % 400 == 0)
  }

  function DaysIn(y: int, m: int): (n: int)
    requires 1 <= m <= 12
    ensures 28 <= n <= 31
  {
    if m == 2 then (if Leap(y) then 29 else 28)
    else if m == 4 || m == 6 || m == 9 || m == 11 then 30
    else 31
  }

  predicate ValidDate(d: Date)
  {
    1 <= d.month <= 12 && 1 <= d.day <= DaysIn(d.year, d.month)
  }

  /** The comparison the loop makes: `(year, month, day)` tuples in
      lexicographic order. */
  predicate Before(a: Date, b: Date)
  {
    a.year < b.year || (a.year == b.year && (a.month < b.month || (a.month == b.month && a.day < b.day)))
  }

  /** A number that grows with the date, for termination. */
  function Ord(d: Date): int
  {
    d.year * 1000 + d.month * 50 + d.day
  }

  lemma OrdMonotone(a: Date, b: Date)
    requires ValidDate(a) && ValidDate(b)
    ensures Before(a, b) ==> Ord(a) < Ord(b)
    ensures a == b || Before(a, b) || Before(b, a)
  {
    if a.year < b.year {
      assert a.month * 50 + a.day <= 631;
      assert b.month * 50 + b.day >= 51;
    }
  }

  /** `cursor + timedelta(days=1)`. */
  function NextDay(d: Date): (r: Date)
    requires ValidDate(d)
    ensures ValidDate(r) && Before(d, r)
  {
    if d.day < DaysIn(d.year, d.month) then d.(day := d.day + 1)
    else if d.month < 12 then Date(d.year, d.month + 1, 1)
    else Date(d.year + 1, 1, 1)
  }

  /** `cursor - timedelta(days=1)`. */
  function PrevDay(d: Date): (r: Date)
    requires ValidDate(d)
    ensures ValidDate(r) && Before(r, d)
  {
    if d.day > 1 then d.(day := d.day - 1)
    else if d.month > 1 then Date(d.year, d.month - 1, DaysIn(d.year, d.month - 1))
    else Date(d.year - 1, 12, 31)
  }

  /** The day after the day before is the day itself. */
  lemma NextOfPrev(d: Date)
    requires ValidDate(d)
    ensures NextDay(PrevDay(d)) == d
  {
  }

  /** Nothing lies strictly between a day and the next one. */
  lemma NextDayIsImmediate(d: Date, e: Date)
    requires ValidDate(d) && ValidDate(e) && Before(d, e)
    ensures !Before(e, NextDay(d))
  {
  }

  /** `cursor.replace(year=y, month=m, day=1)` with the month after the
      cursor's. */
  function NextMonthStart(d: Date): (r: Date)
    requires ValidDate(d)
    ensures ValidDate(r) && Before(d, r) && r.day == 1
    ensures d.month == 12 ==> r.year == d.year + 1 && r.month == 1
    ensures d.month < 12 ==> r.year == d.year && r.month == d.month + 1
  {
    Date(d.year + (if d.month == 12 then 1 else 0), if d.month == 12 then 1 else d.month + 1, 1)
  }

  /** `today - timedelta(days=k)`. */
  function DaysBefore(today: Date, k: nat): (r: Date)
    requires ValidDate(today)
    ensures ValidDate(r)
    ensures k > 0 ==> Before(r, today)
  {
    if k == 0 then today
    else
      var r := PrevDay(DaysBefore(today, k - 1));
      BeforeTransitive(r, DaysBefore(today, k - 1), today);
      r
  }

  lemma BeforeTransitive(a: Date, b: Date, c: Date)
    requires Before(a, b) && (Before(b, c) || b == c)
    ensures Before(a, c)
  {
  }

  function Step(d: Date, monthly: bool): (r: Date)
    requires ValidDate(d)
    ensures ValidDate(r) && Before(d, r)
  {
    if monthly then NextMonthStart(d) else NextDay(d)
  }

  /** The dates the chart visits, from `cursor` while it is not after
      `today`. */
  function Timeline(cursor: Date, today: Date, monthly: bool): (r: seq<Date>)
    requires ValidDate(cursor) && ValidDate(today)
    decreases Ord(today) - Ord(cursor) + 1
  {
    if Before(today, cursor) then []
    else
      var next := Step(cursor, monthly);
      OrdMonotone(cursor, next);
      OrdMonotone(cursor, today);
      [cursor] + Timeline(next, today, monthly)
  }

  /** The walk of `analytics_data`: `labels` gets one entry per visited
      date. */
  method Walk(start: Date, today: Date, monthly: bool) returns (dates: seq<Date>)
    requires ValidDate(start) && ValidDate(today)
    ensures dates == Timeline(start, today, monthly)
  {
    dates := [];
    var cursor := start;
    while !Before(today, cursor)
      invariant ValidDate(cursor)
      invariant dates + Timeline(cursor, today, monthly) == Timeline(start, today, monthly)
      decreases Ord(today) - Ord(cursor) + 1
    {
      var next := Step(cursor, monthly);
      OrdMonotone(cursor, next);
      OrdMonotone(cursor, today);
      assert Timeline(cursor, today, monthly) == [cursor] + Timeline(next, today, monthly);
      dates := dates + [cursor];
      cursor := next;
    }
  }

  /** Every date of `t` is a valid date no later than `today`. */
  predicate NoLaterThan(t: seq<Date>, today: Date)
  {
    forall i :: 0 <= i < |t| ==> ValidDate(t[i]) && !Before(today, t[i])
  }

  /** Each date of `t` is the step after the one before. */
  predicate Stepwise(t: seq<Date>, monthly: bool)
  {
    forall i :: 0 <= i < |t| - 1 ==> ValidDate(t[i]) && t[i + 1] == Step(t[i], monthly)
  }

  /** Every visited date is a valid date no later than today. */
  lemma {:induction false} TimelineBounded(cursor: Date, today: Date, monthly: bool)
    requires ValidDate(cursor) && ValidDate(today)
    ensures NoLaterThan(Timeline(cursor, today, monthly), today)
    decreases Ord(today) - Ord(cursor) + 1
  {
    if !Before(today, cursor) {
      var next := Step(cursor, monthly);
      OrdMonotone(cursor, next);
      OrdMonotone(cursor, today);
      TimelineBounded(next, today, monthly);
      var t := Timeline(cursor, today, monthly);
      var rest := Timeline(next, today, monthly);
      assert t == [cursor] + rest;
      forall i | 0 <= i < |t| ensures ValidDate(t[i]) && !Before(today, t[i])
      {
        if i > 0 {
          assert t[i] == rest[i - 1];
        }
      }
    }
  }

  /** Each visited date is the step after the one before. */
  lemma {:induction false} TimelineSteps(cursor: Date, today: Date, monthly: bool)
    requires ValidDate(cursor) && ValidDate(today)
    ensures Stepwise(Timeline(cursor, today, monthly), monthly)
    decreases Ord(today) - Ord(cursor) + 1
  {
    if !Before(today, cursor) {
      var next := Step(cursor, monthly);
      OrdMonotone(cursor, next);
      OrdMonotone(cursor, today);
      TimelineSteps(next, today, monthly);
      TimelineEnds(next, today, monthly);
      var t := Timeline(cursor, today, monthly);
      var rest := Timeline(next, today, monthly);
      assert t == [cursor] + rest;
      forall i | 0 <= i < |t| - 1 ensures ValidDate(t[i]) && t[i + 1] == Step(t[i], monthly)
      {
        if i > 0 {
          assert t[i] == rest[i - 1] && t[i + 1] == rest[i];
        }
      }
    }
  }

  /** A window that starts by today is not empty, begins at its start, and
      stops at the last date whose successor is after today. */
  lemma {:induction false} TimelineEnds(cursor: Date, today: Date, monthly: bool)
    requires ValidDate(cursor) && ValidDate(today)
    ensures var t := Timeline(cursor, today, monthly);
            (t != [] <==> !Before(today, cursor))
            && (t != [] ==> t[0] == cursor && ValidDate(t[|t| - 1]) && Before(today, Step(t[|t| - 1], monthly)))
    decreases Ord(today) - Ord(cursor) + 1
  {
    if !Before(today, cursor) {
      var next := Step(cursor, monthly);
      OrdMonotone(cursor, next);
      OrdMonotone(cursor, today);
      TimelineEnds(next, today, monthly);
    }
  }

  /** A daily walk that starts on or before today ends exactly on today. */
  lemma DailyTimelineEndsToday(cursor: Date, today: Date)
    requires ValidDate(cursor) && ValidDate(today) && !Before(today, cursor)
    ensures var t := Timeline(cursor, today, false);
            t != [] && t[|t| - 1] == today
  {
    TimelineEnds(cursor, today, false);
    TimelineBounded(cursor, today, false);
    var t := Timeline(cursor, today, false);
    var last := t[|t| - 1];
    OrdMonotone(last, today);
    if Before(last, today) {
      NextDayIsImmediate(last, today);
    }
  }

  /** A monthly walk that starts on or before today ends in today's month;
      every date after the first is the first of its month. */
  lemma MonthlyTimelineEndsThisMonth(cursor: Date, today: Date)
    requires ValidDate(cursor) && ValidDate(today) && !Before(today, cursor)
    ensures var t := Timeline(cursor, today, true);
            t != [] && t[|t| - 1].year == today.year && t[|t| - 1].month == today.month
            && forall i :: 0 < i < |t| ==> t[i].day == 1
  {
    TimelineEnds(cursor, today, true);
    TimelineSteps(cursor, today, true);
    TimelineBounded(cursor, today, true);
    var t := Timeline(cursor, today, true);
    var last := t[|t| - 1];
    assert ValidDate(last) && !Before(today, last);
    assert Before(today, NextMonthStart(last));
    forall i | 0 < i < |t| ensures t[i].day == 1
    {
      assert t[(i - 1) + 1] == Step(t[i - 1], true);
    }
  }

  /** A daily window of `k + 1` days ending today visits exactly `k + 1`
      dates: the chart of `days` days has `days` labels. */
  lemma {:induction false} DailyWindowLength(today: Date, k: nat)
    requires ValidDate(today)
    ensures |Timeline(DaysBefore(today, k), today, false)| == k + 1
  {
    var d := DaysBefore(today, k);
    if k == 0 {
      assert Timeline(d, today, false) == [today];
    } else {
      var next := DaysBefore(today, k - 1);
      NextOfPrev(next);
      assert NextDay(d) == next;
      DailyWindowLength(today, k - 1);
      if k - 1 > 0 {
        assert Before(next, today);
      }
      OrdMonotone(d, next);
      if k - 1 > 0 {
        OrdMonotone(next, today);
      }
      assert Timeline(d, today, false) == [d] + Timeline(next, today, false);
    }
  }

  /** A month or day rendered with two digits, as `%m` and `%d` do. */
  function TwoDigits(n: nat): (s: string)
    requires n < 100
    ensures |s| == 2 && IsDigit(s[0]) && IsDigit(s[1])
    ensures DigitValue(s[0]) * 10 + DigitValue(s[1]) == n
  {
    [DigitChar(n / 10), DigitChar(n % 10)]
  }

  /** A year rendered with four digits, as `%Y` does. */
  function FourDigits(n: nat): (s: string)
    requires n < 10000
    ensures |s| == 4 && IsDigit(s[0]) && IsDigit(s[1]) && IsDigit(s[2]) && IsDigit(s[3])
    ensures DigitValue(s[0]) * 1000 + DigitValue(s[1]) * 100 + DigitValue(s[2]) * 10 + DigitValue(s[3]) == n
  {
    TwoDigits(n / 100) + TwoDigits(n % 100)
  }

  /** The label of a visited date: `%Y-%m` for monthly charts,
      `%Y-%m-%d` for daily ones.  `datetime` years run from 1 to 9999. */
  function Label(d: Date, monthly: bool): (s: string)
    requires ValidDate(d) && 1 <= d.year <= 9999
    ensures |s| == (if monthly then 7 else 10) && s[4] == '-'
  {
    var ym := FourDigits(d.year) + "-" + TwoDigits(d.month);
    if monthly then ym else ym + "-" + TwoDigits(d.day)
  }

  /** Different months get different monthly labels, and different dates
      different daily labels. */
  lemma LabelsDistinguish(a: Date, b: Date, monthly: bool)
    requires ValidDate(a) && 1 <= a.year <= 9999 && ValidDate(b) && 1 <= b.year <= 9999
    requires Label(a, monthly) == Label(b, monthly)
    ensures a.year == b.year && a.month == b.month
    ensures !monthly ==> a == b
  {
    var la, lb := Label(a, monthly), Label(b, monthly);
    var ya, yb := FourDigits(a.year), FourDigits(b.year);
    assert ya == la[..4] && yb == lb[..4];
    assert TwoDigits(a.month) == la[5..7] && TwoDigits(b.month) == lb[5..7];
    if !monthly {
      assert TwoDigits(a.day) == la[8..10] && TwoDigits(b.day) == lb[8..10];
    }
  }

  datatype Axis = Axis(days: int, monthly: bool, dates: seq<Date>)

  /** `analytics_data`'s axis: the clamped `days`, the grouping (`month`
      or, for anything else, `day`) and the dates visited from `days - 1`
      days before `today` up to `later`.  The view reads the clock twice:
      `today` is the date of the first `now()`, which fixes the start, and
      `later` that of the second, which ends the walk. */
  method AnalyticsAxis(query: map<string, string>, today: Date, later: Date) returns (axis: Axis)
    requires ValidDate(today) && ValidDate(later)
    ensures axis.days == DaysParam(query)
    ensures axis.monthly <==> "group" in query && query["group"] == "month"
    ensures axis.dates == Timeline(DaysBefore(today, axis.days - 1), later, axis.monthly)
    ensures !axis.monthly && later == today ==> |axis.dates| == axis.days
    ensures !axis.monthly && later == NextDay(today) ==> |axis.dates| == axis.days + 1
  {
    var days := DaysParam(query);
    var monthly := "group" in query && query["group"] == "month";
    var start := DaysBefore(today, days - 1);
    var dates := Walk(start, later, monthly);
    if !monthly {
      DailyWindowLength(today, days - 1);
      if later == NextDay(today) {
        DaysBeforeNotAfter(today, days - 1);
        TimelineExtends(start, today);
      }
    }
    axis := Axis(days, monthly, dates);
  }

  /** The window's first day is not after its last. */
  lemma DaysBeforeNotAfter(today: Date, k: nat)
    requires ValidDate(today)
    ensures !Before(today, DaysBefore(today, k))
  {
    if k > 0 {
      OrdMonotone(DaysBefore(today, k), today);
      OrdMonotone(today, DaysBefore(today, k));
    }
  }

  /** Ending a daily walk one day later visits that one extra day: a
      request that crosses midnight between its two clock reads draws one
      more day than asked. */
  lemma {:induction false} TimelineExtends(d: Date, t: Date)
    requires ValidDate(d) && ValidDate(t) && !Before(t, d)
    ensures Timeline(d, NextDay(t), false) == Timeline(d, t, false) + [NextDay(t)]
    decreases Ord(t) - Ord(d)
  {
    var n := NextDay(d);
    OrdMonotone(d, t);
    OrdMonotone(t, NextDay(t));
    assert !Before(NextDay(t), d) by {
      if Before(NextDay(t), d) {
        OrdMonotone(NextDay(t), d);
      }
    }
    if d == t {
      assert Timeline(n, n, false) == [n] + Timeline(NextDay(n), n, false);
      assert Timeline(NextDay(n), n, false) == [];
      assert Timeline(d, t, false) == [d] + Timeline(n, t, false);
      assert Timeline(n, t, false) == [];
    } else {
      assert Before(d, t);
      NextDayIsImmediate(d, t);
      OrdMonotone(n, t);
      TimelineExtends(n, t);
      assert Timeline(d, NextDay(t), false) == [d] + Timeline(n, NextDay(t), false);
      assert Timeline(d, t, false) == [d] + Timeline(n, t, false);
    }
  }
}

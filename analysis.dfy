/** The analysis page: the date range of the selected interval, the day and
    month buckets of a category's transactions, the series of points the
    chart draws, one series per category, and the chart's normalisation.

    The calendar is abstract: a date is a day number together with the index
    of the month it falls in (twelve times the year plus the month), so the
    walk over days adds one to a day number and the walk over months adds
    one to a month index. */
module AnalysisPage {
  import opened Common
  import Seqs
  import Tally
  import Arith
  import Scale

  datatype Interval = OneMonth | ThreeMonths | SixMonths | OneYear

  /** How far back each interval starts: `getMonth() - 1`, `- 3`, `- 6`, or
      `getFullYear() - 1`. */
  function MonthsBack(iv: Interval): (r: nat)
    ensures r == 1 || r == 3 || r == 6 || r == 12
    ensures iv == OneYear <==> r == 12
  {
    match iv
    case OneMonth => 1
    case ThreeMonths => 3
    case SixMonths => 6
    case OneYear => 12
  }

  /** A calendar date: its day number and the index of its month. */
  datatype Stamp = Stamp(day: int, month: int)

  /** A moment: a day number and the milliseconds since that day's midnight. */
  datatype Instant = Instant(day: int, ms: nat)

  const DAY_MS: nat := 86_400_000

  datatype Range = Range(start: Instant, startMonth: int, end: Instant)

  /** `getDateRangeForInterval`, where `shiftedDay` is the day number of the
      date with today's day of the month, `MonthsBack(iv)` months back. The
      start is that day at 00:00, the end today at 23:59:59.999. */
  function DateRange(iv: Interval, now: Stamp, shiftedDay: int): (r: Range)
    ensures r.start == Instant(shiftedDay, 0)
    ensures r.startMonth == now.month - MonthsBack(iv)
    ensures r.end.day == now.day && r.end.ms == DAY_MS - 1
  {
    Range(Instant(shiftedDay, 0), now.month - MonthsBack(iv), Instant(now.day, 23 * 3_600_000 + 59 * 60_000 + 59 * 1000 + 999))
  }

  /** A transaction of one category; `date` is `None` when it is missing or
      not a valid date. */
  datatype Txn = Txn(categoryId: string, date: Option<Stamp>, amount: real)

  predicate HasDate(t: Txn) { t.date.Some? }

  function DayKey(t: Txn): int { if t.date.Some? then t.date.value.day else 0 }

  function MonthKey(t: Txn): int { if t.date.Some? then t.date.value.month else 0 }

  function TxnAmount(t: Txn): real { t.amount }

  /** The transactions the `forEach` does not skip, in their order. */
  function Dated(txns: seq<Txn>): seq<Txn> {
    Seqs.Filter(txns, HasDate)
  }

  lemma DatedSnoc(s: seq<Txn>, t: Txn)
    ensures Dated(s + [t]) == Dated(s) + (if HasDate(t) then [t] else [])
  {
    Seqs.FilterConcat(s, [t], HasDate);
    assert [t][1..] == [];
  }

  // ---------------------------------------------------------------- buckets

  /** The `forEach` of `getDataPointsForInterval`: a transaction without a
      valid date is skipped; every other one adds its amount to its day's
      and its month's entry of two insertion-ordered maps. */
  method Bucket(txns: seq<Txn>) returns (byDay: Tally.Table<int>, byMonth: Tally.Table<int>)
    ensures byDay == Tally.TallyOf(Dated(txns), DayKey, TxnAmount)
    ensures byMonth == Tally.TallyOf(Dated(txns), MonthKey, TxnAmount)
  {
    byDay, byMonth := [], [];
    ghost var d: seq<Txn> := [];
    var i := 0;
    while i < |txns|
      invariant 0 <= i <= |txns|
      invariant d == Dated(txns[..i])
      invariant byDay == Tally.TallyOf(d, DayKey, TxnAmount)
      invariant byMonth == Tally.TallyOf(d, MonthKey, TxnAmount)
    {
      var t := txns[i];
      assert txns[..i + 1] == txns[..i] + [t];
      DatedSnoc(txns[..i], t);
      if t.date.Some? {
        Tally.TallySnoc(d, t, DayKey, TxnAmount);
        Tally.TallySnoc(d, t, MonthKey, TxnAmount);
        byDay := Tally.Add(byDay, t.date.value.day, t.amount);
        byMonth := Tally.Add(byMonth, t.date.value.month, t.amount);
        d := d + [t];
      }
      i := i + 1;
    }
    assert txns[..i] == txns;
  }

  /** The day buckets and the month buckets hold the same total, the total
      of the transactions with a valid date. */
  lemma BucketTotals(txns: seq<Txn>)
    ensures Tally.SumValues(Tally.TallyOf(Dated(txns), DayKey, TxnAmount)) == Seqs.SumBy(Dated(txns), TxnAmount)
    ensures Tally.SumValues(Tally.TallyOf(Dated(txns), MonthKey, TxnAmount)) == Seqs.SumBy(Dated(txns), TxnAmount)
  {
    Tally.SumValuesTallyOf(Dated(txns), DayKey, TxnAmount);
    Tally.SumValuesTallyOf(Dated(txns), MonthKey, TxnAmount);
  }

  /** A transaction without a valid date counts in no bucket at all: adding
      it changes neither table. */
  lemma UndatedSkipped(txns: seq<Txn>, t: Txn)
    requires t.date.None?
    ensures Dated(txns + [t]) == Dated(txns)
  {
    DatedSnoc(txns, t);
  }

  /** Every dated transaction lands in exactly one day bucket, its own day's,
      and one month bucket, its own month's; a day's bucket holds the amounts
      of that day's transactions. */
  lemma OneBucketEach(txns: seq<Txn>, i: nat, day: int)
    requires i < |txns| && txns[i].date.Some?
    ensures var byDay := Tally.TallyOf(Dated(txns), DayKey, TxnAmount);
            Tally.DistinctKeys(byDay) && Tally.HasKey(byDay, txns[i].date.value.day)
    ensures var byMonth := Tally.TallyOf(Dated(txns), MonthKey, TxnAmount);
            Tally.DistinctKeys(byMonth) && Tally.HasKey(byMonth, txns[i].date.value.month)
    ensures Tally.Get(Tally.TallyOf(Dated(txns), DayKey, TxnAmount), day) ==
            Seqs.SumBy(Dated(txns), Tally.Masked(DayKey, TxnAmount, day))
  {
    var d := Dated(txns);
    assert txns[i] in d;
    var j :| 0 <= j < |d| && d[j] == txns[i];
    assert DayKey(d[j]) == txns[i].date.value.day && MonthKey(d[j]) == txns[i].date.value.month;
    Tally.TallyOfKeys(d, DayKey, TxnAmount, txns[i].date.value.day);
    Tally.TallyOfKeys(d, MonthKey, TxnAmount, txns[i].date.value.month);
    Tally.TallyOfDistinct(d, DayKey, TxnAmount);
    Tally.TallyOfDistinct(d, MonthKey, TxnAmount);
    Tally.GetTallyOf(d, DayKey, TxnAmount, day);
  }

  // ---------------------------------------------------------------- series

  /** One point of a series: the day number or month index and its amount. */
  datatype Point = Point(key: int, amount: real)

  /** One point per key from `first` to `last` inclusive, each with its
      bucket's amount, or 0 when it has none (`byDay.get(dayKey) || 0`). */
  function Series(buckets: Tally.Table<int>, first: int, last: int): (r: seq<Point>)
    ensures |r| == (if first <= last then last - first + 1 else 0)
    ensures forall i :: 0 <= i < |r| ==> r[i] == Point(first + i, Tally.Get(buckets, first + i))
    decreases last - first
  {
    if first > last then [] else [Point(first, Tally.Get(buckets, first))] + Series(buckets, first + 1, last)
  }

  /** The `while (current <= now)` loops: `current` starts at midnight of the
      range start, which is at or before `now` exactly while its day (or
      month) is at most today's; every step pushes one point and moves on by
      one day (or one month). */
  method Walk(buckets: Tally.Table<int>, first: int, last: int) returns (points: seq<Point>)
    ensures points == Series(buckets, first, last)
  {
    points := [];
    var current := first;
    while current <= last
      invariant first <= current
      invariant points + Series(buckets, current, last) == Series(buckets, first, last)
      decreases last - current
    {
      points := points + [Point(current, Tally.Get(buckets, current))];
      current := current + 1;
    }
  }

  /** What `getDataPointsForInterval` returns. */
  function PointsFor(iv: Interval, txns: seq<Txn>, now: Stamp, shiftedDay: int): seq<Point> {
    if iv == OneMonth then Series(Tally.TallyOf(Dated(txns), DayKey, TxnAmount), shiftedDay, now.day)
    else Series(Tally.TallyOf(Dated(txns), MonthKey, TxnAmount), now.month - MonthsBack(iv), now.month)
  }

  /** `getDataPointsForInterval`: bucket, then walk days for one month and
      months for the longer intervals. */
  method DataPoints(iv: Interval, txns: seq<Txn>, now: Stamp, shiftedDay: int) returns (points: seq<Point>)
    ensures points == PointsFor(iv, txns, now, shiftedDay)
  {
    var byDay, byMonth := Bucket(txns);
    var range := DateRange(iv, now, shiftedDay);
    if iv == OneMonth {
      points := Walk(byDay, range.start.day, now.day);
    } else {
      points := Walk(byMonth, range.startMonth, now.month);
    }
  }

  /** Each point of a walk over a tally carries the total of the items filed
      under its key. */
  lemma {:induction false} SeriesOfTally(d: seq<Txn>, key: Txn -> int, first: int, last: int)
    ensures var r := Series(Tally.TallyOf(d, key, TxnAmount), first, last);
            forall i :: 0 <= i < |r| ==>
              r[i].key == first + i && r[i].amount == Seqs.SumBy(d, Tally.Masked(key, TxnAmount, r[i].key))
  {
    forall k: int
      ensures Tally.Get(Tally.TallyOf(d, key, TxnAmount), k) == Seqs.SumBy(d, Tally.Masked(key, TxnAmount, k))
    {
      Tally.GetTallyOf(d, key, TxnAmount, k);
    }
    SeriesOfSums(Tally.TallyOf(d, key, TxnAmount), d, key, first, last);
  }

  /** A walk over buckets that each hold their items' total. */
  lemma {:induction false} SeriesOfSums(t: Tally.Table<int>, d: seq<Txn>, key: Txn -> int, first: int, last: int)
    requires forall k: int :: Tally.Get(t, k) == Seqs.SumBy(d, Tally.Masked(key, TxnAmount, k))
    ensures var r := Series(t, first, last);
            forall i :: 0 <= i < |r| ==>
              r[i].key == first + i && r[i].amount == Seqs.SumBy(d, Tally.Masked(key, TxnAmount, r[i].key))
  {
  }

  /** For one month: a point for every day from the range start to today,
      each with that day's total. */
  lemma DaySeries(txns: seq<Txn>, now: Stamp, shiftedDay: int)
    requires shiftedDay <= now.day
    ensures var r := PointsFor(OneMonth, txns, now, shiftedDay);
            |r| == now.day - shiftedDay + 1 &&
            forall i :: 0 <= i < |r| ==>
              r[i].key == shiftedDay + i &&
              r[i].amount == Seqs.SumBy(Dated(txns), Tally.Masked(DayKey, TxnAmount, r[i].key))
  {
    var d := Dated(txns);
    SeriesOfTally(d, DayKey, shiftedDay, now.day);
    assert var r := Series(Tally.TallyOf(d, DayKey, TxnAmount), shiftedDay, now.day);
           forall i :: 0 <= i < |r| ==>
             r[i].key == shiftedDay + i && r[i].amount == Seqs.SumBy(d, Tally.Masked(DayKey, TxnAmount, r[i].key));
    assert PointsFor(OneMonth, txns, now, shiftedDay) == Series(Tally.TallyOf(d, DayKey, TxnAmount), shiftedDay, now.day);
  }

  /** The points of the longer intervals: the walk over the month buckets
      from `MonthsBack(iv)` months ago to this month. */
  lemma LongerWalk(iv: Interval, txns: seq<Txn>, now: Stamp, shiftedDay: int)
    requires iv != OneMonth
    ensures PointsFor(iv, txns, now, shiftedDay) ==
            Series(Tally.TallyOf(Dated(txns), MonthKey, TxnAmount), now.month - MonthsBack(iv), now.month)
  {
  }

  /** For the longer intervals: one point per month from the start month to
      this month, so 4, 7 and 13 points, each with that month's total. */
  lemma MonthSeries(iv: Interval, txns: seq<Txn>, now: Stamp, shiftedDay: int)
    requires iv != OneMonth
    ensures var r := PointsFor(iv, txns, now, shiftedDay);
            |r| == MonthsBack(iv) + 1 && r[|r| - 1].key == now.month &&
            forall i :: 0 <= i < |r| ==>
              r[i].key == now.month - MonthsBack(iv) + i &&
              r[i].amount == Seqs.SumBy(Dated(txns), Tally.Masked(MonthKey, TxnAmount, r[i].key))
  {
    LongerWalk(iv, txns, now, shiftedDay);
    SeriesOfTally(Dated(txns), MonthKey, now.month - MonthsBack(iv), now.month);
  }

  // ---------------------------------------------------------------- per category

  datatype Category = Category(id: string, name: string)

  datatype CategorySeries = CategorySeries(category: Category, data: seq<Point>)

  function InCategory(id: string): Txn -> bool {
    (t: Txn) => t.categoryId == id
  }

  /** The series of one category, from the transactions the query returned. */
  function SeriesOf(c: Category, iv: Interval, txns: seq<Txn>, now: Stamp, shiftedDay: int): CategorySeries {
    CategorySeries(c, PointsFor(iv, Seqs.Filter(txns, InCategory(c.id)), now, shiftedDay))
  }

  /** `categories.map(...)` of `fetchCategorySpendingData`, with `null` rows
      read as none. */
  method SplitByCategory(categories: seq<Category>, rows: Option<seq<Txn>>, iv: Interval, now: Stamp, shiftedDay: int)
    returns (data: seq<CategorySeries>)
    ensures |data| == |categories|
    ensures forall i :: 0 <= i < |categories| ==> data[i] == SeriesOf(categories[i], iv, rows.GetOr([]), now, shiftedDay)
  {
    var txns := rows.GetOr([]);
    data := [];
    var i := 0;
    while i < |categories|
      invariant 0 <= i <= |categories| && |data| == i
      invariant forall j :: 0 <= j < i ==> data[j] == SeriesOf(categories[j], iv, txns, now, shiftedDay)
    {
      var own := Seqs.Filter(txns, InCategory(categories[i].id));
      var points := DataPoints(iv, own, now, shiftedDay);
      data := data + [CategorySeries(categories[i], points)];
      i := i + 1;
    }
  }

  /** A category's series is built only from that category's transactions:
      adding transactions of other categories does not change it. */
  lemma SeriesIgnoresOthers(c: Category, iv: Interval, txns: seq<Txn>, others: seq<Txn>, now: Stamp, shiftedDay: int)
    requires forall i :: 0 <= i < |others| ==> others[i].categoryId != c.id
    ensures SeriesOf(c, iv, txns + others, now, shiftedDay) == SeriesOf(c, iv, txns, now, shiftedDay)
  {
    OwnUnchanged(c.id, txns, others);
  }

  lemma OwnUnchanged(id: string, txns: seq<Txn>, others: seq<Txn>)
    requires forall i :: 0 <= i < |others| ==> others[i].categoryId != id
    ensures Seqs.Filter(txns + others, InCategory(id)) == Seqs.Filter(txns, InCategory(id))
  {
    Seqs.FilterConcat(txns, others, InCategory(id));
    Seqs.FilterDropsAll(others, InCategory(id));
    assert Seqs.Filter(txns, InCategory(id)) + [] == Seqs.Filter(txns, InCategory(id));
  }

  /** The analysis screen's chart state. */
  class Screen {
    var series: seq<CategorySeries>
    var chartLoading: bool

    constructor ()
      ensures series == [] && !chartLoading
    {
      series := [];
      chartLoading := false;
    }

    /** `fetchCategorySpendingData`: nothing without a user or without
        categories; a failed query leaves the series as they were; the
        loading flag is cleared in the end. */
    method FetchCategorySpending(signedIn: bool, categories: seq<Category>, reply: Outcome<Option<seq<Txn>>>,
                                 iv: Interval, now: Stamp, shiftedDay: int)
      modifies this
      ensures !signedIn || categories == [] ==> series == old(series) && chartLoading == old(chartLoading)
      ensures signedIn && categories != [] ==> !chartLoading
      ensures signedIn && categories != [] && reply.Threw? ==> series == old(series)
      ensures signedIn && categories != [] && reply.Returned? ==>
                |series| == |categories| &&
                forall i :: 0 <= i < |categories| ==>
                  series[i] == SeriesOf(categories[i], iv, reply.value.GetOr([]), now, shiftedDay)
    {
      if !signedIn || categories == [] {
        return;
      }
      chartLoading := true;
      if reply.Returned? {
        series := SplitByCategory(categories, reply.value, iv, now, shiftedDay);
      }
      chartLoading := false;
    }
  }

  // ---------------------------------------------------------------- chart

  const CHART_WIDTH: real := 400.0
  const CHART_HEIGHT: real := 180.0
  const PADDING: real := 30.0

  /** `range > 0 ? (amount - minAmount) / range : 0.5`. */
  function Normalized(v: real, lo: real, hi: real): real {
    var range := Scale.Spread(lo, hi);
    if range > 0.0 then (v - lo) / range else 0.5
  }

  datatype ChartPoint = ChartPoint(x: real, y: real, value: real)

  function PointX(i: nat, n: nat): real {
    i as real / Scale.XDivisor(n) * (CHART_WIDTH - PADDING * 2.0) + PADDING
  }

  function PointY(norm: real): real {
    CHART_HEIGHT - PADDING - norm * (CHART_HEIGHT - PADDING * 2.0)
  }

  /** The chart's points, or `None` for the "No spending data" placeholder. */
  function Layout(s: seq<real>): (r: Option<seq<ChartPoint>>)
    ensures r.None? <==> s == []
    ensures r.Some? ==> |r.value| == |s| && forall i :: 0 <= i < |s| ==>
              r.value[i] == ChartPoint(PointX(i, |s|), PointY(Normalized(s[i], Scale.MinOf(s), Scale.MaxOf(s))), s[i])
  {
    if s == [] then None
    else
      var lo, hi := Scale.MinOf(s), Scale.MaxOf(s);
      Some(seq(|s|, i requires 0 <= i < |s| => ChartPoint(PointX(i, |s|), PointY(Normalized(s[i], lo, hi)), s[i])))
  }

  /** An amount between the minimum and the maximum normalises into [0, 1]:
      by the spread when the amounts differ, to 0 when they are all one
      positive amount, and to the middle when they are all zero or negative. */
  lemma NormalizedInUnit(v: real, lo: real, hi: real)
    requires lo <= v <= hi
    ensures 0.0 <= Normalized(v, lo, hi) <= 1.0
    ensures lo == hi && hi <= 0.0 ==> Normalized(v, lo, hi) == 0.5
    ensures lo == hi && hi > 0.0 ==> Normalized(v, lo, hi) == 0.0
  {
    if hi != lo {
      Arith.UnitQuotient(v - lo, hi - lo);
    } else if hi > 0.0 {
      assert v - lo == 0.0;
    }
  }

  /** A point's height lies between the padded top and bottom when its
      normalised amount is in [0, 1], the largest amount at the top. */
  lemma YInside(norm: real)
    requires 0.0 <= norm <= 1.0
    ensures PADDING <= PointY(norm) <= CHART_HEIGHT - PADDING
    ensures norm == 1.0 ==> PointY(norm) == PADDING
  {
  }

  /** Points are spread from the left padding to the right padding: the
      first at the left edge and, with two or more, the last at the right. */
  lemma XInside(i: nat, n: nat)
    requires i < n
    ensures PADDING <= PointX(i, n) <= CHART_WIDTH - PADDING
    ensures i == 0 ==> PointX(i, n) == PADDING
    ensures n >= 2 && i == n - 1 ==> PointX(i, n) == CHART_WIDTH - PADDING
  {
    Arith.UnitQuotient(i as real, Scale.XDivisor(n));
    if n >= 2 && i == n - 1 {
      assert i as real / Scale.XDivisor(n) == 1.0;
    }
  }

  /** Every point of a non-empty series lies inside the padded chart area. */
  lemma PointsInsideChart(s: seq<real>, i: nat)
    requires i < |s|
    ensures var p := Layout(s).value[i];
            PADDING <= p.x <= CHART_WIDTH - PADDING && PADDING <= p.y <= CHART_HEIGHT - PADDING
  {
    NormalizedInUnit(s[i], Scale.MinOf(s), Scale.MaxOf(s));
    YInside(Normalized(s[i], Scale.MinOf(s), Scale.MaxOf(s)));
    XInside(i, |s|);
  }

  /** `totalSpending`: the sum of the series' amounts. */
  function Total(s: seq<real>): real {
    Seqs.SumBy(s, (v: real) => v)
  }

  /** The total is additive: a series cut in two totals the sum of the
      two parts' totals. */
  lemma TotalConcat(a: seq<real>, b: seq<real>)
    ensures Total(a + b) == Total(a) + Total(b)
  {
    Seqs.SumByConcat(a, b, (v: real) => v);
  }
}

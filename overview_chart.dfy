/** The spending overview chart: the interval buttons, the placeholder for
    no data, the points and bars scaled between the smallest and largest
    amount, the y-axis values and the thinning of the x-axis labels. */
module MonthlyOverviewChart {
  import opened Common
  import JsNum
  import Scale
  import Arith

  datatype Interval = SevenDays | OneMonth | ThreeMonths | SixMonths | OneYear

  /** The interval buttons. `localInterval` is the chart's own state, used
      when the parent passes no interval; `notified` lists the calls made
      to the parent's `onIntervalChange`. */
  class IntervalControl {
    var localInterval: Interval
    var notified: seq<Interval>

    constructor ()
      ensures localInterval == SevenDays && notified == []
    {
      localInterval := SevenDays;
      notified := [];
    }

    /** `propSelectedInterval ?? localInterval`. */
    function Selected(prop: Option<Interval>): Interval
      reads this
    {
      prop.GetOr(localInterval)
    }

    /** `handleIntervalChange`: the chart's own state follows the click only
        when the parent passes no interval; the parent is told of every
        click when it gave a callback. */
    method HandleIntervalChange(prop: Option<Interval>, hasCallback: bool, iv: Interval)
      modifies this
      ensures localInterval == (if prop.None? then iv else old(localInterval))
      ensures notified == old(notified) + (if hasCallback then [iv] else [])
      ensures Selected(prop) == (if prop.Some? then prop.value else iv)
    {
      if prop.None? {
        localInterval := iv;
      }
      if hasCallback {
        notified := notified + [iv];
      }
    }
  }

  // ---------------------------------------------------------------- scaling

  const PADDING: real := 40.0
  const CHART_HEIGHT: real := 300.0
  const CHART_WIDTH: real := 800.0

  /** `range || 1`. */
  function Divisor(range: real): (r: real)
    ensures r != 0.0
    ensures range != 0.0 ==> r == range
  {
    if range != 0.0 then range else 1.0
  }

  /** `(item.amount - minAmount) / (range || 1)`. */
  function NormalizedValue(v: real, lo: real, hi: real): real {
    (v - lo) / Divisor(Scale.Spread(lo, hi))
  }

  /** An amount between the smallest and the largest normalises into
      [0, 1], the smallest to 0 and, when they differ, the largest to 1;
      when all amounts are equal every one normalises to 0. */
  lemma NormalizedInUnit(v: real, lo: real, hi: real)
    requires lo <= v <= hi
    ensures 0.0 <= NormalizedValue(v, lo, hi) <= 1.0
    ensures v == lo ==> NormalizedValue(v, lo, hi) == 0.0
    ensures lo < hi && v == hi ==> NormalizedValue(v, lo, hi) == 1.0
  {
    if lo < hi {
      Arith.UnitQuotient(v - lo, hi - lo);
    } else {
      assert v - lo == 0.0;
    }
  }

  /** The bar height: the normalised amount times the plotting height. */
  function BarHeight(v: real, lo: real, hi: real): real {
    NormalizedValue(v, lo, hi) * (CHART_HEIGHT - PADDING * 2.0)
  }

  /** The point height: the larger the amount, the nearer the top. */
  function PointY(v: real, lo: real, hi: real): real {
    CHART_HEIGHT - PADDING - NormalizedValue(v, lo, hi) * (CHART_HEIGHT - PADDING * 2.0)
  }

  /** Bars are never negative and never taller than the plotting area; the
      point sits on top of its bar. */
  lemma BarInsideChart(v: real, lo: real, hi: real)
    requires lo <= v <= hi
    ensures 0.0 <= BarHeight(v, lo, hi) <= CHART_HEIGHT - PADDING * 2.0
    ensures PADDING <= PointY(v, lo, hi) <= CHART_HEIGHT - PADDING
    ensures PointY(v, lo, hi) == CHART_HEIGHT - PADDING - BarHeight(v, lo, hi)
  {
    NormalizedInUnit(v, lo, hi);
  }

  /** The five y-axis values `maxAmount - (range * i) / 4`. */
  function YLabels(lo: real, hi: real): (r: seq<real>)
    ensures |r| == 5
    ensures forall i :: 0 <= i < 5 ==> r[i] == hi - Scale.Spread(lo, hi) * (i as real) / 4.0
  {
    seq(5, i requires 0 <= i < 5 => hi - Scale.Spread(lo, hi) * (i as real) / 4.0)
  }

  /** The y-axis starts at the largest amount and, when the amounts differ,
      steps down evenly to the smallest; it never goes up unless all
      amounts are one negative value. */
  lemma YLabelsDescend(lo: real, hi: real)
    requires lo <= hi
    ensures YLabels(lo, hi)[0] == hi
    ensures lo < hi ==> YLabels(lo, hi)[4] == lo
    ensures lo < hi || hi >= 0.0 ==> forall i, j :: 0 <= i <= j < 5 ==> YLabels(lo, hi)[j] <= YLabels(lo, hi)[i]
  {
    var r := YLabels(lo, hi);
    var d := Scale.Spread(lo, hi);
    if lo < hi || hi >= 0.0 {
      assert d >= 0.0;
      forall i, j | 0 <= i <= j < 5
        ensures r[j] <= r[i]
      {
        assert d * (j as real) - d * (i as real) == d * ((j - i) as real);
        Arith.MulSign((j - i) as real, 1.0);
        assert d * ((j - i) as real) >= 0.0;
      }
    }
  }

  // ---------------------------------------------------------------- x axis

  /** `(index / (data.length - 1)) * (chartWidth - padding * 2) + padding`,
      as written: with a single point the division is `0 / 0`. */
  function XAsWritten(index: nat, n: nat): JsNum.Num {
    var f := JsNum.Scale(JsNum.Div(index as real, (n - 1) as real), CHART_WIDTH - PADDING * 2.0);
    if f.Finite? then JsNum.Finite(f.v + PADDING) else f
  }

  /** A chart of one point places it, and the bar beneath it, at NaN. */
  lemma SinglePointIsNaN()
    ensures XAsWritten(0, 1) == JsNum.NaN
  {
  }

  /** With two or more points the as-written position is finite. */
  lemma XAsWrittenFinite(index: nat, n: nat)
    requires n >= 2
    ensures XAsWritten(index, n) == JsNum.Finite(PointX(index, n))
  {
  }

  /** The position with the divisor guarded as the analysis chart guards
      it (`data.length - 1 || 1`). */
  function PointX(index: nat, n: nat): real {
    index as real / Scale.XDivisor(n) * (CHART_WIDTH - PADDING * 2.0) + PADDING
  }

  /** Every point lies between the side paddings, the first at the left
      and, with two or more, the last at the right. */
  lemma XInside(index: nat, n: nat)
    requires index < n
    ensures PADDING <= PointX(index, n) <= CHART_WIDTH - PADDING
    ensures index == 0 ==> PointX(index, n) == PADDING
    ensures n >= 2 && index == n - 1 ==> PointX(index, n) == CHART_WIDTH - PADDING
  {
    Arith.UnitQuotient(index as real, Scale.XDivisor(n));
    if n >= 2 && index == n - 1 {
      assert index as real / Scale.XDivisor(n) == 1.0;
    }
  }

  datatype ChartPoint = ChartPoint(x: real, y: real, barHeight: real, value: real)

  /** The points with their bars, or `None` for "No data available". */
  function Layout(amounts: seq<real>): (r: Option<seq<ChartPoint>>)
    ensures r.None? <==> amounts == []
    ensures r.Some? ==> |r.value| == |amounts|
    ensures r.Some? ==> forall i :: 0 <= i < |amounts| ==>
              r.value[i].value == amounts[i] && r.value[i].x == PointX(i, |amounts|) &&
              r.value[i].y == PointY(amounts[i], Scale.MinOf(amounts), Scale.MaxOf(amounts)) &&
              r.value[i].barHeight == BarHeight(amounts[i], Scale.MinOf(amounts), Scale.MaxOf(amounts))
  {
    if amounts == [] then None
    else
      var lo, hi := Scale.MinOf(amounts), Scale.MaxOf(amounts);
      Some(seq(|amounts|, i requires 0 <= i < |amounts| =>
        ChartPoint(PointX(i, |amounts|), PointY(amounts[i], lo, hi), BarHeight(amounts[i], lo, hi), amounts[i])))
  }

  /** Every point and bar of a non-empty chart lies inside the plotting
      area. */
  lemma LayoutInsideChart(amounts: seq<real>, i: nat)
    requires i < |amounts|
    ensures var p := Layout(amounts).value[i];
            PADDING <= p.x <= CHART_WIDTH - PADDING && PADDING <= p.y <= CHART_HEIGHT - PADDING &&
            0.0 <= p.barHeight <= CHART_HEIGHT - PADDING * 2.0
  {
    BarInsideChart(amounts[i], Scale.MinOf(amounts), Scale.MaxOf(amounts));
    XInside(i, |amounts|);
  }

  // ---------------------------------------------------------------- labels

  const MAX_LABELS: nat := 8

  /** `Math.max(1, Math.ceil(data.length / maxLabels))`. */
  function Step(n: nat): (r: nat)
    ensures r >= 1 && n <= MAX_LABELS * r
    ensures n > MAX_LABELS ==> MAX_LABELS * (r - 1) < n
  {
    var c := (n + MAX_LABELS - 1) / MAX_LABELS;
    Arith.DivUnique(n + MAX_LABELS - 1, MAX_LABELS, c, (n + MAX_LABELS - 1) % MAX_LABELS);
    if c >= 1 then c else 1
  }

  /** `index % step === 0 ? item.month : ''`. */
  function XLabels(months: seq<string>): (r: seq<string>)
    ensures |r| == |months|
    ensures forall i :: 0 <= i < |months| ==> r[i] == (if i % Step(|months|) == 0 then months[i] else "")
  {
    var step := Step(|months|);
    seq(|months|, i requires 0 <= i < |months| => if i % step == 0 then months[i] else "")
  }

  /** How many of the indices below `n` are labelled with steps of `step`. */
  function CountLabelled(n: nat, step: nat): nat
    requires step >= 1
  {
    if n == 0 then 0 else CountLabelled(n - 1, step) + (if (n - 1) % step == 0 then 1 else 0)
  }

  /** The labelled indices below `n` are the multiples of `step`, so there
      are `ceil(n / step)` of them. */
  lemma {:induction false} CountIsCeiling(n: nat, step: nat)
    requires step >= 1
    ensures CountLabelled(n, step) == (n + step - 1) / step
  {
    if n > 0 {
      CountIsCeiling(n - 1, step);
      CeilingStep(n - 1, step);
    }
  }

  /** One more index adds one to the ceiling exactly at a multiple. */
  lemma CeilingStep(m: nat, step: nat)
    requires step >= 1
    ensures (m + step) / step == (m + step - 1) / step + (if m % step == 0 then 1 else 0)
  {
    var q, r := m / step, m % step;
    if r == 0 {
      Arith.DivUnique(m + step - 1, step, q, step - 1);
      Arith.DivUnique(m + step, step, q + 1, 0);
    } else {
      Arith.DivUnique(m + step - 1, step, q + 1, r - 1);
      Arith.DivUnique(m + step, step, q + 1, r);
    }
  }

  /** The first item is always labelled, and at most eight are. */
  lemma AtMostEightLabels(months: seq<string>)
    ensures months != [] ==> XLabels(months)[0] == months[0]
    ensures CountLabelled(|months|, Step(|months|)) <= MAX_LABELS
  {
    LabelCountBound(|months|, Step(|months|));
  }

  /** With a step that eight strides cover, at most eight indices are labelled. */
  lemma LabelCountBound(n: nat, step: nat)
    requires step >= 1 && n <= MAX_LABELS * step
    ensures CountLabelled(n, step) <= MAX_LABELS
  {
    CountIsCeiling(n, step);
    Arith.QuotientBelow(n + step - 1, step, MAX_LABELS);
  }
}

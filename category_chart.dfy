/** The "Budget by Categories" card: the pie slices chained around the
    circle and the legend rows with their progress bars. Angles are
    measured in units of pi, so the pie starts at -1/2 and a full turn
    is 2; the cosine and sine of the slice ends are not modelled. */
module CategoryBudgetChart {
  import Seqs
  import Arith

  datatype CategorySpending = CategorySpending(
    categoryId: string, categoryName: string, spending: real, budget: real, percentage: real)

  /** `-Math.PI / 2`, in units of pi. */
  const START: real := -0.5

  /** `(item.percentage / 100) * 2 * Math.PI`, in units of pi. */
  function SliceAngle(item: CategorySpending): real {
    item.percentage / 100.0 * 2.0
  }

  function Percentage(item: CategorySpending): real { item.percentage }

  datatype Slice = Slice(item: CategorySpending, startAngle: real, endAngle: real, largeArc: bool)

  /** `sliceAngle > Math.PI ? 1 : 0`. */
  function MakeSlice(item: CategorySpending, start: real): (r: Slice)
    ensures r.item == item && r.startAngle == start && r.endAngle == start + SliceAngle(item)
    ensures r.largeArc <==> r.endAngle - r.startAngle > 1.0
  {
    Slice(item, start, start + SliceAngle(item), SliceAngle(item) > 1.0)
  }

  /** The slices of `items` when the first one starts at `start`. */
  function Slices(items: seq<CategorySpending>, start: real): (r: seq<Slice>)
    ensures |r| == |items|
    decreases |items|
  {
    if items == [] then []
    else [MakeSlice(items[0], start)] + Slices(items[1..], start + SliceAngle(items[0]))
  }

  /** The slice `map` with its running `currentAngle`. */
  method BuildSlices(pieData: seq<CategorySpending>) returns (slices: seq<Slice>)
    ensures slices == Slices(pieData, START)
  {
    slices := [];
    var currentAngle := START;
    var i := 0;
    while i < |pieData|
      invariant 0 <= i <= |pieData|
      invariant slices + Slices(pieData[i..], currentAngle) == Slices(pieData, START)
    {
      var item := pieData[i];
      var slice := MakeSlice(item, currentAngle);
      assert pieData[i..][1..] == pieData[i + 1..];
      slices := slices + [slice];
      currentAngle := slice.endAngle;
      i := i + 1;
    }
  }

  /** The slices are chained: the first starts where the pie starts, each
      one starts where the one before ends, and each carries its item. */
  lemma {:induction false} SlicesChained(items: seq<CategorySpending>, start: real)
    ensures var r := Slices(items, start);
            (items != [] ==> r[0].startAngle == start) &&
            (forall i :: 0 <= i < |r| ==> r[i].item == items[i]) &&
            (forall i :: 0 <= i < |r| - 1 ==> r[i + 1].startAngle == r[i].endAngle)
    decreases |items|
  {
    if items != [] {
      var rest := Slices(items[1..], start + SliceAngle(items[0]));
      SlicesChained(items[1..], start + SliceAngle(items[0]));
      var r := Slices(items, start);
      assert r == [MakeSlice(items[0], start)] + rest;
      forall i | 0 <= i < |r| - 1
        ensures r[i + 1].startAngle == r[i].endAngle
      {
        if i > 0 {
          assert r[i] == rest[i - 1] && r[i + 1] == rest[i];
        }
      }
    }
  }

  /** The last slice ends `2 * (sum of percentages) / 100` of pi after the
      start, so percentages adding up to 100 close the circle. */
  lemma {:induction false} SlicesEnd(items: seq<CategorySpending>, start: real)
    requires items != []
    ensures Slices(items, start)[|items| - 1].endAngle == start + Seqs.SumBy(items, Percentage) / 50.0
    decreases |items|
  {
    var next := start + SliceAngle(items[0]);
    if |items| > 1 {
      SlicesEnd(items[1..], next);
      assert Slices(items, start)[|items| - 1] == Slices(items[1..], next)[|items| - 2];
    }
    assert items == [items[0]] + items[1..];
    Seqs.SumByConcat([items[0]], items[1..], Percentage);
    Seqs.SumBySingle(items[0], Percentage);
  }

  /** A full pie: when the percentages add up to 100 the slices go once
      around, from -1/2 to 3/2. */
  lemma FullCircle(items: seq<CategorySpending>)
    requires items != [] && Seqs.SumBy(items, Percentage) == 100.0
    ensures Slices(items, START)[|items| - 1].endAngle == START + 2.0
  {
    SlicesEnd(items, START);
  }

  /** Only a slice above half of the total is drawn with the large arc. */
  lemma LargeArcIff(item: CategorySpending, start: real)
    ensures MakeSlice(item, start).largeArc <==> item.percentage > 50.0
  {
  }

  /** No items, no slices: the card shows its placeholder instead. */
  predicate ShowsPlaceholder(categorySpending: seq<CategorySpending>) {
    |categorySpending| == 0
  }

  lemma EmptyHasNoSlices(categorySpending: seq<CategorySpending>)
    requires ShowsPlaceholder(categorySpending)
    ensures Slices(categorySpending, START) == []
  {
  }

  // ---------------------------------------------------------------- legend

  /** One legend row: its percentage of the category budget, what is left,
      whether the progress bar is drawn (only with a positive budget), its
      colour and width, and whether the "remaining" line shows. */
  datatype LegendRow = LegendRow(spendingPercentage: real, remaining: real, barShown: bool,
                                 red: bool, width: real, remainingShown: bool)

  function Legend(item: CategorySpending): (r: LegendRow)
    ensures item.budget <= 0.0 ==> r.spendingPercentage == 0.0 && !r.barShown
    ensures r.remaining >= 0.0 && (r.remaining == 0.0 || r.remaining == item.budget - item.spending)
    ensures r.width <= 100.0 && (r.width == 100.0 || r.width == r.spendingPercentage)
  {
    var pct := if item.budget > 0.0 then item.spending / item.budget * 100.0 else 0.0;
    var remaining := if 0.0 >= item.budget - item.spending then 0.0 else item.budget - item.spending;
    LegendRow(pct, remaining, item.budget > 0.0, pct > 100.0, if 100.0 <= pct then 100.0 else pct,
              item.budget > 0.0 && remaining > 0.0)
  }

  /** The bar is red exactly when the spending is above a positive budget,
      and the "remaining" line, drawn with the bar, shows exactly when the
      spending is below a positive budget. */
  lemma LegendColours(item: CategorySpending)
    ensures Legend(item).red <==> item.budget > 0.0 && item.spending > item.budget
    ensures Legend(item).remainingShown <==> 0.0 < item.budget && item.spending < item.budget
  {
    if item.budget > 0.0 {
      Arith.QuotientCompare(item.spending, item.budget, 1.0);
    }
  }

  /** With no negative spending the bar width lies in [0, 100]. */
  lemma LegendWidthInRange(item: CategorySpending)
    requires item.spending >= 0.0
    ensures 0.0 <= Legend(item).width <= 100.0
  {
    if item.budget > 0.0 {
      Arith.QuotientCompare(item.spending, item.budget, 0.0);
    }
  }
}

/**
 * The category breakdown panel (src/components/CategoryBreakdown.tsx): the total
 * of the entries' values and each entry's unrounded percentage of it. Unlike the
 * report, the source has no zero guard here: a zero total gives NaN, so every
 * member that divides requires a non-zero total.
 */
module CategoryBreakdown {
  import opened Types
  import opened Dashboard

  /** An entry of the `categories` prop (colour and icon are rendering only). */
  datatype Entry = Entry(name: string, value: real)

  /** One rendered row: the entry with its percentage. */
  datatype Row = Row(name: string, value: real, percentage: real)

  /** `categories.reduce((sum, cat) => sum + cat.value, 0)`. */
  function Total(es: seq<Entry>): real
  {
    if es == [] then 0.0 else Total(es[..|es| - 1]) + es[|es| - 1].value
  }

  /** Non-negative values give a non-negative total. */
  lemma {:induction false} TotalNonNegative(es: seq<Entry>)
    requires forall i :: 0 <= i < |es| ==> es[i].value >= 0.0
    ensures Total(es) >= 0.0
  {
    if es != [] {
      var p := es[..|es| - 1];
      assert forall i :: 0 <= i < |p| ==> p[i].value >= 0.0;
      TotalNonNegative(p);
    }
  }

  /** `(category.value / total) * 100`. */
  function Percentage(value: real, total: real): real
    requires total != 0.0
  {
    (value / total) * 100.0
  }

  /** The rows for `es` against a given total, one per entry, in order. */
  function RowsWith(es: seq<Entry>, total: real): (r: seq<Row>)
    requires total != 0.0
    ensures |r| == |es|
  {
    if es == [] then []
    else RowsWith(es[..|es| - 1], total) + [Row(es[|es| - 1].name, es[|es| - 1].value, Percentage(es[|es| - 1].value, total))]
  }

  /** Row `i` shows entry `i` with its percentage of `total`. */
  lemma {:induction false} RowsWithAt(es: seq<Entry>, total: real, i: int)
    requires total != 0.0 && 0 <= i < |es|
    ensures RowsWith(es, total)[i] == Row(es[i].name, es[i].value, Percentage(es[i].value, total))
  {
    var p := es[..|es| - 1];
    if i < |p| {
      RowsWithAt(p, total, i);
      assert es[i] == p[i];
    }
  }

  /** `categories.map(...)`: one row per entry, in input order, each carrying its share of the total. */
  function Rows(es: seq<Entry>): (r: seq<Row>)
    requires Total(es) != 0.0
    ensures |r| == |es|
    ensures forall i :: 0 <= i < |es| ==> r[i].name == es[i].name && r[i].value == es[i].value
  {
    var r := RowsWith(es, Total(es));
    assert forall i :: 0 <= i < |es| ==> r[i].name == es[i].name && r[i].value == es[i].value by {
      forall i | 0 <= i < |es| ensures r[i].name == es[i].name && r[i].value == es[i].value {
        RowsWithAt(es, Total(es), i);
      }
    }
    r
  }

  /** Each row's percentage is its value's share of the total, times 100. */
  lemma {:induction false} RowIsShareOfTotal(es: seq<Entry>, i: int)
    requires Total(es) != 0.0
    requires 0 <= i < |es|
    ensures Rows(es)[i].percentage * Total(es) == es[i].value * 100.0
  {
    var t := Total(es);
    RowsWithAt(es, t, i);
    assert (es[i].value / t) * t == es[i].value;
  }

  /** The sum of the rows' percentages. */
  function SumPercentages(rows: seq<Row>): real
  {
    if rows == [] then 0.0 else SumPercentages(rows[..|rows| - 1]) + rows[|rows| - 1].percentage
  }

  /** Percentages of two parts add up to the percentage of their sum. */
  lemma PercentageAdds(a: real, b: real, total: real)
    requires total != 0.0
    ensures Percentage(a, total) + Percentage(b, total) == Percentage(a + b, total)
  {
    assert a / total + b / total == (a + b) / total;
  }

  /** Appending a row adds its percentage to the sum. */
  lemma SumPercentagesSnoc(rows: seq<Row>, last: Row)
    ensures SumPercentages(rows + [last]) == SumPercentages(rows) + last.percentage
  {
    assert (rows + [last])[..|rows|] == rows;
  }

  /** The rows' percentages against `total` add up to the percentage of the entries' total. */
  lemma {:induction false} SumPercentagesWith(es: seq<Entry>, total: real)
    requires total != 0.0
    ensures SumPercentages(RowsWith(es, total)) == Percentage(Total(es), total)
  {
    if es != [] {
      var p, e := es[..|es| - 1], es[|es| - 1];
      var prows := RowsWith(p, total);
      var last := Row(e.name, e.value, Percentage(e.value, total));
      assert RowsWith(es, total) == prows + [last];
      SumPercentagesSnoc(prows, last);
      SumPercentagesWith(p, total);
      PercentageAdds(Total(p), e.value, total);
    }
  }

  /** With a non-zero total the percentages add up to exactly 100 (in real arithmetic). */
  lemma PercentagesSumTo100(es: seq<Entry>)
    requires Total(es) != 0.0
    ensures SumPercentages(Rows(es)) == 100.0
  {
    SumPercentagesWith(es, Total(es));
    WholeIsHundredPercent(Total(es));
  }

  /** The total is 100% of itself. */
  lemma WholeIsHundredPercent(total: real)
    requires total != 0.0
    ensures Percentage(total, total) == 100.0
  {
    assert total / total == 1.0;
  }

  /** With non-negative values, no entry exceeds the total. */
  lemma {:induction false} EntryAtMostTotal(es: seq<Entry>, i: int)
    requires forall k :: 0 <= k < |es| ==> es[k].value >= 0.0
    requires 0 <= i < |es|
    ensures es[i].value <= Total(es)
  {
    var p := es[..|es| - 1];
    assert forall k :: 0 <= k < |p| ==> p[k].value >= 0.0;
    if i < |es| - 1 {
      EntryAtMostTotal(p, i);
    }
    TotalNonNegative(p);
  }

  /** A value between zero and the (positive) total is between 0 and 100 percent of it. */
  lemma PercentageWithinRange(value: real, total: real)
    requires total > 0.0 && 0.0 <= value <= total
    ensures 0.0 <= Percentage(value, total) <= 100.0
  {
    assert value / total <= 1.0;
  }

  /** Against a positive total, percentages keep the order of the values. */
  lemma PercentageMonotone(a: real, b: real, total: real)
    requires total > 0.0 && a <= b
    ensures Percentage(a, total) <= Percentage(b, total)
  {
    assert a / total <= b / total;
  }

  /** With non-negative values and a positive total every percentage lies in [0, 100]. */
  lemma {:induction false} PercentageBounds(es: seq<Entry>, i: int)
    requires forall k :: 0 <= k < |es| ==> es[k].value >= 0.0
    requires Total(es) > 0.0
    requires 0 <= i < |es|
    ensures 0.0 <= Rows(es)[i].percentage <= 100.0
  {
    EntryAtMostTotal(es, i);
    RowsWithAt(es, Total(es), i);
    PercentageWithinRange(es[i].value, Total(es));
  }

  /** With a positive total a larger value never gets a smaller percentage. */
  lemma {:induction false} PercentagePreservesOrder(es: seq<Entry>, i: int, j: int)
    requires Total(es) > 0.0
    requires 0 <= i < |es| && 0 <= j < |es|
    requires es[i].value <= es[j].value
    ensures Rows(es)[i].percentage <= Rows(es)[j].percentage
  {
    RowsWithAt(es, Total(es), i);
    RowsWithAt(es, Total(es), j);
    PercentageMonotone(es[i].value, es[j].value, Total(es));
  }

  /** The entries the dashboard passes in: its five category cards. */
  function DashboardEntries(cards: seq<CategoryCard>): (es: seq<Entry>)
    ensures |es| == |cards|
    ensures forall i :: 0 <= i < |cards| ==> es[i] == Entry(cards[i].name, cards[i].value)
  {
    if cards == [] then []
    else DashboardEntries(cards[..|cards| - 1]) + [Entry(cards[|cards| - 1].name, cards[|cards| - 1].value)]
  }

  /** The breakdown's total is the dashboard's `totalEmissions`. */
  lemma {:induction false} BreakdownTotalIsDashboardTotal(cards: seq<CategoryCard>)
    ensures Total(DashboardEntries(cards)) == SumCardValues(cards)
  {
    if cards != [] {
      var es := DashboardEntries(cards);
      assert es[..|es| - 1] == DashboardEntries(cards[..|cards| - 1]);
      BreakdownTotalIsDashboardTotal(cards[..|cards| - 1]);
    }
  }

  /** The panel fed with the dashboard's cards totals to the dashboard's `totalEmissions`. */
  lemma DashboardBreakdownTotal(s: seq<Activity>)
    ensures Total(DashboardEntries(Categories(s))) == TotalEmissions(s)
  {
    BreakdownTotalIsDashboardTotal(Categories(s));
  }
}

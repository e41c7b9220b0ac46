/**
 * The report view's data (src/components/Reports.tsx): the five-slot category
 * accumulator, the `categoryData` entries, the insights (whose second entry sorts
 * `categoryData` in place), the yearly figures and the exported report record.
 */
module Reports {
  import opened Types
  import opened Numbers
  import opened Dashboard

  /** The mutable `categoryTotals` object: a slot per category key. */
  type CategoryTotals = map<Category, real>

  /** Every category has its slot. */
  predicate HasAllSlots(t: CategoryTotals)
  {
    forall c: Category :: c in t
  }

  /** The object literal the accumulation starts from. */
  const ZeroTotals: CategoryTotals :=
    map[Transportation := 0.0, Energy := 0.0, Food := 0.0, Waste := 0.0, Digital := 0.0]

  /** `categoryTotals[c] += x`. */
  function AddTo(t: CategoryTotals, c: Category, x: real): (r: CategoryTotals)
    requires HasAllSlots(t)
    ensures HasAllSlots(r)
    ensures r[c] == t[c] + x
    ensures forall d :: d != c ==> r[d] == t[d]
  {
    t[c := t[c] + x]
  }

  /** One entry of `categoryData`. */
  datatype CategoryDatum = CategoryDatum(name: string, value: real, percentage: int)

  /** `toUpperCase` on one character, for the ASCII letters the keys use. */
  function UpperChar(ch: char): char
  {
    if 'a' <= ch <= 'z' then (ch as int - 32) as char else ch
  }

  /** `name.charAt(0).toUpperCase() + name.slice(1)`. */
  function Capitalize(s: string): (r: string)
    ensures |r| == |s|
    ensures s != [] ==> r[0] == UpperChar(s[0]) && r[1..] == s[1..]
  {
    if s == [] then [] else [UpperChar(s[0])] + s[1..]
  }

  /** The entry name of a category: its key with the first letter upper-cased. */
  function DisplayName(c: Category): (name: string)
    ensures |name| == |CategoryKey(c)| > 0
  {
    Capitalize(CategoryKey(c))
  }

  /** The report names each category exactly as the dashboard captions its card. */
  lemma DisplayNameIsCardName(c: Category)
    ensures DisplayName(c) == CardName(c)
  {
    match c
    case Transportation => assert CategoryKey(c)[1..] == "ransportation";
    case Energy => assert CategoryKey(c)[1..] == "nergy";
    case Food => assert CategoryKey(c)[1..] == "ood";
    case Waste => assert CategoryKey(c)[1..] == "aste";
    case Digital => assert CategoryKey(c)[1..] == "igital";
  }

  /** The entry for category `c` with unrounded emissions `value` out of a grand total `total`. */
  function CategoryEntry(c: Category, value: real, total: real): CategoryDatum
  {
    CategoryDatum(
      DisplayName(c),
      RoundTenth(value),
      if total > 0.0 then SharePercent(value, total) else 0)
  }

  /** A share of a positive total as a whole percentage. */
  function SharePercent(value: real, total: real): int
    requires total > 0.0
  {
    Round((value / total) * 100.0)
  }

  /** The slots after adding up `s`: each holds the emissions of its category. */
  function TotalsOf(s: seq<Activity>): (t: CategoryTotals)
    ensures HasAllSlots(t)
    ensures forall c :: t[c] == CalculateCategoryEmissions(s, c)
  {
    assert forall c: Category :: c in AllCategories by {
      forall c: Category
        ensures c in AllCategories
      {
        CategoryKeysRoundTrip(c);
      }
    }
    map c | c in AllCategories :: CalculateCategoryEmissions(s, c)
  }

  /** `Object.values(categoryTotals).reduce((sum, val) => sum + val, 0)`, in key order. */
  function SlotSum(t: CategoryTotals): real
    requires HasAllSlots(t)
  {
    t[Transportation] + t[Energy] + t[Food] + t[Waste] + t[Digital]
  }

  /** The entries built from the slots: one per slot, in key order, shared out of the slots' sum. */
  function EntriesFrom(t: CategoryTotals): seq<CategoryDatum>
    requires HasAllSlots(t)
  {
    var total := SlotSum(t);
    seq(5, k requires 0 <= k < 5 => CategoryEntry(AllCategories[k], t[AllCategories[k]], total))
  }

  /** `calculateCategoryData()` as a value. */
  function CategoryData(s: seq<Activity>): seq<CategoryDatum>
  {
    EntriesFrom(TotalsOf(s))
  }

  /** No activities leave every slot at zero. */
  lemma TotalsOfEmpty()
    ensures TotalsOf([]) == ZeroTotals
  {
  }

  /** One more activity adds its emissions into its own slot and nowhere else. */
  lemma TotalsOfSnoc(s: seq<Activity>, a: Activity)
    ensures TotalsOf(s + [a]) == AddTo(TotalsOf(s), a.category, a.emissions)
  {
    var after, added := TotalsOf(s + [a]), AddTo(TotalsOf(s), a.category, a.emissions);
    forall c
      ensures after[c] == added[c]
    {
      CategoryEmissionsSnoc(s, a, c);
    }
    assert after.Keys == added.Keys;
  }

  /**
   * `calculateCategoryData`: adds every activity's emissions into its slot with
   * `forEach`, then sums the slots and builds one entry per slot.
   */
  method CalculateCategoryData(activities: seq<Activity>) returns (data: seq<CategoryDatum>)
    ensures data == CategoryData(activities)
  {
    var totals := ZeroTotals;
    var i := 0;
    assert activities[..0] == [];
    TotalsOfEmpty();
    while i < |activities|
      invariant 0 <= i <= |activities|
      invariant totals == TotalsOf(activities[..i])
    {
      var a := activities[i];
      assert activities[..i + 1] == activities[..i] + [a];
      TotalsOfSnoc(activities[..i], a);
      totals := AddTo(totals, a.category, a.emissions);
      i := i + 1;
    }
    assert activities[..i] == activities;
    data := EntriesFrom(totals);
  }

  /** The sum of the slots is the sum over the categories. */
  lemma SlotSumOfTotals(s: seq<Activity>)
    ensures SlotSum(TotalsOf(s)) == SumOverCategories(s)
  {
  }

  /** Entry `i` of the category data, without unfolding the other four. */
  lemma CategoryDataAt(s: seq<Activity>, i: int)
    requires 0 <= i < 5
    ensures |CategoryData(s)| == 5
    ensures CategoryData(s)[i]
         == CategoryEntry(AllCategories[i], CalculateCategoryEmissions(s, AllCategories[i]), SumEmissions(s))
  {
    SlotSumOfTotals(s);
    GrandTotalIsAllEmissions(s);
  }

  /**
   * Five entries in the order of `AllCategories`, none omitted: each is named like
   * the dashboard's card and carries the same one-decimal value.
   */
  lemma CategoryDataShape(s: seq<Activity>, i: int)
    requires 0 <= i < 5
    ensures |CategoryData(s)| == 5
    ensures CategoryData(s)[i].name == Categories(s)[i].name
    ensures CategoryData(s)[i].value == Categories(s)[i].value
    ensures CategoryData(s)[i].value == RoundTenth(CalculateCategoryEmissions(s, AllCategories[i]))
  {
    CategoryDataAt(s, i);
    CategoriesShape(s, i);
    DisplayNameIsCardName(AllCategories[i]);
  }

  /** No entry has an empty name, so the largest-source fallback never applies. */
  lemma CategoryNamesNonEmpty(s: seq<Activity>)
    ensures |CategoryData(s)| == 5
    ensures forall d :: d in CategoryData(s) ==> d.name != ""
  {
  }

  /** The grand total used for the percentages is the sum of all emissions. */
  lemma GrandTotalIsAllEmissions(s: seq<Activity>)
    ensures SumOverCategories(s) == SumEmissions(s)
  {
    CategoryEmissionsConserve(s);
  }

  /** A zero (or negative) grand total gives every entry 0%: there is no division by zero. */
  lemma ZeroTotalPercentages(s: seq<Activity>)
    requires SumEmissions(s) <= 0.0
    ensures forall i :: 0 <= i < |CategoryData(s)| ==> CategoryData(s)[i].percentage == 0
  {
    CategoryEmissionsConserve(s);
  }

  /** No activities: every category is present with value 0 and 0%. */
  lemma EmptyCategoryData()
    ensures |CategoryData([])| == 5
    ensures forall i :: 0 <= i < 5 ==> CategoryData([])[i].value == 0.0 && CategoryData([])[i].percentage == 0
  {
  }

  /**
   * An entry's percentage is its rounded share of a positive total, and 0 when
   * the total is not positive: the guard keeps the division away from zero.
   */
  lemma EntryPercentage(c: Category, value: real, total: real)
    ensures total > 0.0 ==> CategoryEntry(c, value, total).percentage == Round(value / total * 100.0)
    ensures total <= 0.0 ==> CategoryEntry(c, value, total).percentage == 0
  {
  }

  /** A share of a positive total rounds to a percentage in 0..100. */
  lemma EntryPercentageBounds(c: Category, value: real, total: real)
    requires 0.0 <= value <= total
    ensures 0 <= CategoryEntry(c, value, total).percentage <= 100
  {
    if total > 0.0 {
      var q := value / total;
      assert q * total == value;
      RoundPercentBounds(q * 100.0);
    }
  }

  /** With non-negative emissions every percentage lies in 0..100. */
  lemma PercentageBounds(s: seq<Activity>, i: int)
    requires NonNegativeEmissions(s)
    requires 0 <= i < 5
    ensures 0 <= CategoryData(s)[i].percentage <= 100
  {
    var c := AllCategories[i];
    CategoryDataAt(s, i);
    CategoryAtMostTotal(s, c);
    EntryPercentageBounds(c, CalculateCategoryEmissions(s, c), SumEmissions(s));
  }

  /** For the ordering below: a sequence of entries with non-increasing values. */
  ghost predicate SortedByValueDesc(s: seq<CategoryDatum>)
  {
    forall i, j :: 0 <= i < j < |s| ==> s[i].value >= s[j].value
  }

  /** Inserts `x` in front of the first entry whose value it reaches. */
  function InsertByValue(x: CategoryDatum, s: seq<CategoryDatum>): (r: seq<CategoryDatum>)
    ensures |r| == |s| + 1
    ensures multiset(r) == multiset(s) + multiset{x}
  {
    if s == [] || x.value >= s[0].value then [x] + s
    else
      assert s == [s[0]] + s[1..];
      [s[0]] + InsertByValue(x, s[1..])
  }

  /** Inserting into a sorted sequence keeps it sorted. */
  lemma {:induction false} InsertByValueSorted(x: CategoryDatum, s: seq<CategoryDatum>)
    requires SortedByValueDesc(s)
    ensures SortedByValueDesc(InsertByValue(x, s))
  {
    if s != [] && x.value < s[0].value {
      var rest := InsertByValue(x, s[1..]);
      InsertByValueSorted(x, s[1..]);
      forall k | 0 <= k < |rest|
        ensures rest[k].value <= s[0].value
      {
        assert rest[k] in multiset(rest);
        if rest[k] != x {
          assert rest[k] in multiset(s[1..]);
        }
      }
      var r := [s[0]] + rest;
      assert r == InsertByValue(x, s);
      forall i, j | 0 <= i < j < |r|
        ensures r[i].value >= r[j].value
      {
        assert r[j] == rest[j - 1];
        if i > 0 {
          assert r[i] == rest[i - 1];
        }
      }
    }
  }

  /**
   * `categoryData.sort((a, b) => b.value - a.value)`: descending by value. The
   * sort is stable, so equal values keep their original order (see
   * `SortByValueDescStable`).
   */
  function SortByValueDesc(s: seq<CategoryDatum>): (r: seq<CategoryDatum>)
    ensures |r| == |s|
    ensures multiset(r) == multiset(s)
    ensures SortedByValueDesc(r)
  {
    if s == [] then []
    else
      assert s == [s[0]] + s[1..];
      var sortedRest := SortByValueDesc(s[1..]);
      InsertByValueSorted(s[0], sortedRest);
      InsertByValue(s[0], sortedRest)
  }

  /** The entries with value `v`, in order. */
  function WithValue(s: seq<CategoryDatum>, v: real): seq<CategoryDatum>
  {
    if s == [] then [] else (if s[0].value == v then [s[0]] else []) + WithValue(s[1..], v)
  }

  lemma {:induction false} InsertByValueStable(x: CategoryDatum, s: seq<CategoryDatum>, v: real)
    requires SortedByValueDesc(s)
    ensures WithValue(InsertByValue(x, s), v) == (if x.value == v then [x] else []) + WithValue(s, v)
  {
    if s == [] || x.value >= s[0].value {
      assert ([x] + s)[1..] == s;
    } else {
      var rest := InsertByValue(x, s[1..]);
      assert SortedByValueDesc(s[1..]);
      InsertByValueStable(x, s[1..], v);
      assert ([s[0]] + rest)[1..] == rest;
    }
  }

  /** Stability: for every value, the entries carrying it appear in their original order. */
  lemma {:induction false} SortByValueDescStable(s: seq<CategoryDatum>, v: real)
    ensures WithValue(SortByValueDesc(s), v) == WithValue(s, v)
  {
    if s != [] {
      SortByValueDescStable(s[1..], v);
      InsertByValueStable(s[0], SortByValueDesc(s[1..]), v);
    }
  }

  /** The in-place effect of `Array.prototype.sort` on `categoryData`. */
  method SortInPlace(a: array<CategoryDatum>)
    modifies a
    ensures a[..] == SortByValueDesc(old(a[..]))
  {
    var sorted := SortByValueDesc(a[..]);
    forall i | 0 <= i < a.Length {
      a[i] := sorted[i];
    }
    assert a[..] == sorted;
  }

  /** `categoryData.reduce((sum, cat) => sum + cat.value, 0)`. */
  function SumValues(d: seq<CategoryDatum>): real
  {
    if d == [] then 0.0 else SumValues(d[..|d| - 1]) + d[|d| - 1].value
  }

  lemma SumOfFiveValues(d: seq<CategoryDatum>)
    requires |d| == 5
    ensures SumValues(d) == d[0].value + d[1].value + d[2].value + d[3].value + d[4].value
  {
    assert d[..4][..3] == d[..3];
    assert d[..3][..2] == d[..2];
    assert d[..2][..1] == d[..1];
    assert d[..1][..0] == [];
    assert SumValues(d[..1]) == d[0].value;
    assert SumValues(d[..2]) == SumValues(d[..1]) + d[1].value;
    assert SumValues(d[..3]) == SumValues(d[..2]) + d[2].value;
    assert SumValues(d[..4]) == SumValues(d[..3]) + d[3].value;
  }

  /** The report's `totalEmissions` is the dashboard's `totalEmissions`: both add the same rounded values. */
  lemma ReportTotalMatchesDashboard(s: seq<Activity>)
    ensures SumValues(CategoryData(s)) == TotalEmissions(s)
  {
    SumOfFiveValues(CategoryData(s));
    SumOfFiveCards(Categories(s));
  }

  /** A report line; the source formats each as text. */
  datatype Insight =
    | ActivitiesLogged(count: nat)
    | LargestSource(name: string)
    | TotalEmissionsKg(kg: real)
    | MostRecentActivity(activityType: string)
    | NoActivitiesYet

  /** `sorted[0]?.name || 'Transportation'`. */
  function LargestSourceName(sorted: seq<CategoryDatum>): (name: string)
    ensures |sorted| > 0 && sorted[0].name != "" ==> name == sorted[0].name
    ensures (|sorted| == 0 || sorted[0].name == "") ==> name == "Transportation"
  {
    if |sorted| > 0 && sorted[0].name != "" then sorted[0].name else "Transportation"
  }

  /** The fourth insight: reads `activities[0]` only when there is one. */
  function MostRecentInsight(s: seq<Activity>): (i: Insight)
    ensures i.MostRecentActivity? <==> |s| > 0
    ensures |s| > 0 ==> i == MostRecentActivity(s[0].activityType)
    ensures |s| == 0 ==> i == NoActivitiesYet
  {
    if |s| > 0 then MostRecentActivity(s[0].activityType) else NoActivitiesYet
  }

  /** `yearlyStats` minus its hard-coded months. */
  datatype YearlyStats = YearlyStats(totalEmissions: int, averageMonthly: real)

  function YearlyStatsOf(totalEmissions: real): (y: YearlyStats)
    ensures totalEmissions * 12.0 - 0.5 < y.totalEmissions as real <= totalEmissions * 12.0 + 0.5
    ensures totalEmissions - 0.05 < y.averageMonthly <= totalEmissions + 0.05
    ensures (y.averageMonthly * 10.0).Floor as real == y.averageMonthly * 10.0
  {
    RoundTenthIsNear(totalEmissions);
    RoundTenthIsTenths(totalEmissions);
    YearlyStats(Round(totalEmissions * 12.0), RoundTenth(totalEmissions))
  }

  /** The `reportData` record built by `exportReport`. */
  datatype ReportData = ReportData(
    user: string,
    period: string,
    totalEmissions: real,
    categories: seq<CategoryDatum>,
    activities: nat,
    insights: seq<Insight>)

  /**
   * Computes the report state in the source's order: the category data, the
   * total of its values, the insights (the second one sorts `categoryData` in
   * place), and the exported record, which therefore carries the sorted entries.
   */
  method ExportReport(activities: seq<Activity>, user: User) returns (report: ReportData)
    ensures report.user == user.name && report.period == "January 2025"
    ensures report.activities == |activities|
    ensures report.categories == SortByValueDesc(CategoryData(activities))
    ensures report.totalEmissions == RoundTenth(TotalEmissions(activities))
    ensures report.insights == [
      ActivitiesLogged(|activities|),
      LargestSource(report.categories[0].name),
      TotalEmissionsKg(report.totalEmissions),
      MostRecentInsight(activities)]
  {
    var data := CalculateCategoryData(activities);
    var totalEmissions := SumValues(data);
    ReportTotalMatchesDashboard(activities);
    var categoryData := ToArray(data);
    var first := ActivitiesLogged(|activities|);
    SortInPlace(categoryData);
    var sorted := categoryData[..];
    CategoryNamesNonEmpty(activities);
    assert sorted[0] in multiset(data);
    var second := LargestSource(LargestSourceName(sorted));
    var third := TotalEmissionsKg(RoundTenth(totalEmissions));
    var fourth := MostRecentInsight(activities);
    report := ReportData(user.name, "January 2025", RoundTenth(totalEmissions), sorted, |activities|,
                         [first, second, third, fourth]);
  }

  /** A fresh array holding `s`. */
  method ToArray(s: seq<CategoryDatum>) returns (a: array<CategoryDatum>)
    ensures fresh(a) && a[..] == s
  {
    a := new CategoryDatum[|s|](i requires 0 <= i < |s| => s[i]);
  }

  /** The largest source named in the report is an entry with the greatest value. */
  lemma LargestSourceIsMaximal(s: seq<Activity>)
    ensures |SortByValueDesc(CategoryData(s))| == 5
    ensures SortByValueDesc(CategoryData(s))[0] in CategoryData(s)
    ensures forall d :: d in CategoryData(s) ==> d.value <= SortByValueDesc(CategoryData(s))[0].value
  {
    var data := CategoryData(s);
    var sorted := SortByValueDesc(data);
    assert sorted[0] in multiset(data);
    forall d | d in data ensures d.value <= sorted[0].value {
      assert d in multiset(sorted);
      var k :| 0 <= k < |sorted| && sorted[k] == d;
      if k > 0 {
        assert sorted[0].value >= sorted[k].value;
      }
    }
  }
}

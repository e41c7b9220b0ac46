/**
 * The dashboard's arithmetic (src/components/Dashboard.tsx): per-category sums by
 * filter and reduce, the five category cards, the monthly budget and its bar.
 */
module Dashboard {
  import opened Types
  import opened Numbers

  /** Every activity carries non-negative emissions. */
  ghost predicate NonNegativeEmissions(s: seq<Activity>)
  {
    forall i :: 0 <= i < |s| ==> s[i].emissions >= 0.0
  }

  /** `s.reduce((sum, a) => sum + a.emissions, 0)`: a left fold, so it peels the last activity. */
  function SumEmissions(s: seq<Activity>): real
  {
    if s == [] then 0.0 else SumEmissions(s[..|s| - 1]) + s[|s| - 1].emissions
  }

  /** Non-negative emissions add up to a non-negative sum. */
  lemma {:induction false} SumEmissionsNonNegative(s: seq<Activity>)
    requires NonNegativeEmissions(s)
    ensures SumEmissions(s) >= 0.0
  {
    if s != [] {
      var p := s[..|s| - 1];
      assert NonNegativeEmissions(p) by {
        forall i | 0 <= i < |p| ensures p[i].emissions >= 0.0 {
          assert p[i] == s[i];
        }
      }
      SumEmissionsNonNegative(p);
    }
  }

  /** `s.filter(a => a.category === c)`: the activities of category `c`, in order. */
  function FilterByCategory(s: seq<Activity>, c: Category): (r: seq<Activity>)
    ensures |r| <= |s|
  {
    if s == [] then []
    else
      var rest := FilterByCategory(s[..|s| - 1], c);
      var last := s[|s| - 1];
      if last.category == c then rest + [last] else rest
  }

  /** The filter keeps exactly the activities of category `c`: it invents none and drops none. */
  lemma {:induction false} FilterByCategoryMembers(s: seq<Activity>, c: Category)
    ensures forall i :: 0 <= i < |FilterByCategory(s, c)| ==> FilterByCategory(s, c)[i].category == c
    ensures forall i :: 0 <= i < |FilterByCategory(s, c)| ==> FilterByCategory(s, c)[i] in s
    ensures forall i :: 0 <= i < |s| && s[i].category == c ==> s[i] in FilterByCategory(s, c)
  {
    if s != [] {
      var p, last := s[..|s| - 1], s[|s| - 1];
      FilterByCategoryMembers(p, c);
      var rest, f := FilterByCategory(p, c), FilterByCategory(s, c);
      forall i | 0 <= i < |f|
        ensures f[i] in s
      {
        if i < |rest| {
          assert f[i] == rest[i];
          var j :| 0 <= j < |p| && p[j] == rest[i];
          assert s[j] == p[j];
        } else {
          assert f[i] == s[|s| - 1];
        }
      }
      forall i | 0 <= i < |f|
        ensures f[i].category == c
      {
        if i < |rest| {
          assert f[i] == rest[i];
        }
      }
      forall i | 0 <= i < |s| && s[i].category == c
        ensures s[i] in f
      {
        if i < |p| {
          assert s[i] == p[i];
          var j :| 0 <= j < |rest| && rest[j] == p[i];
          assert f[j] == rest[j];
        } else {
          assert f[|f| - 1] == s[i];
        }
      }
    }
  }

  /** `calculateCategoryEmissions(c)`: the unrounded emissions of category `c`. */
  function CalculateCategoryEmissions(s: seq<Activity>, c: Category): real
  {
    SumEmissions(FilterByCategory(s, c))
  }

  /** With non-negative emissions every category's emissions are non-negative. */
  lemma CategoryEmissionsNonNegative(s: seq<Activity>, c: Category)
    requires NonNegativeEmissions(s)
    ensures CalculateCategoryEmissions(s, c) >= 0.0
  {
    var f := FilterByCategory(s, c);
    FilterByCategoryMembers(s, c);
    forall i | 0 <= i < |f| ensures f[i].emissions >= 0.0 {
      var j :| 0 <= j < |s| && s[j] == f[i];
    }
    SumEmissionsNonNegative(f);
  }

  /**
   * The filter keeps order and multiplicity: filtering a list extended by one
   * activity extends the filtered list by that activity exactly when it has the category.
   */
  lemma FilterByCategorySnoc(s: seq<Activity>, a: Activity, c: Category)
    ensures FilterByCategory(s + [a], c) == FilterByCategory(s, c) + (if a.category == c then [a] else [])
  {
    assert (s + [a])[..|s + [a]| - 1] == s;
  }

  /** The category emissions of a list extended by one activity. */
  lemma CategoryEmissionsSnoc(s: seq<Activity>, a: Activity, c: Category)
    ensures CalculateCategoryEmissions(s + [a], c)
         == CalculateCategoryEmissions(s, c) + (if a.category == c then a.emissions else 0.0)
  {
    FilterByCategorySnoc(s, a, c);
    var f := FilterByCategory(s, c);
    if a.category == c {
      assert (f + [a])[..|f + [a]| - 1] == f;
    } else {
      assert f + [] == f;
    }
  }

  /** The sum of the five category emissions, in the source's order. */
  function SumOverCategories(s: seq<Activity>): real
  {
    CalculateCategoryEmissions(s, Transportation) + CalculateCategoryEmissions(s, Energy)
      + CalculateCategoryEmissions(s, Food) + CalculateCategoryEmissions(s, Waste)
      + CalculateCategoryEmissions(s, Digital)
  }

  /** Conservation: splitting by category loses and duplicates no emissions. */
  lemma {:induction false} CategoryEmissionsConserve(s: seq<Activity>)
    ensures SumOverCategories(s) == SumEmissions(s)
  {
    if s != [] {
      var p, a := s[..|s| - 1], s[|s| - 1];
      assert s == p + [a];
      CategoryEmissionsConserve(p);
      CategoryEmissionsSnoc(p, a, Transportation);
      CategoryEmissionsSnoc(p, a, Energy);
      CategoryEmissionsSnoc(p, a, Food);
      CategoryEmissionsSnoc(p, a, Waste);
      CategoryEmissionsSnoc(p, a, Digital);
    }
  }

  /** With non-negative emissions no category exceeds the grand total. */
  lemma CategoryAtMostTotal(s: seq<Activity>, c: Category)
    requires NonNegativeEmissions(s)
    ensures 0.0 <= CalculateCategoryEmissions(s, c) <= SumEmissions(s)
  {
    CategoryEmissionsConserve(s);
    CategoryEmissionsNonNegative(s, Transportation);
    CategoryEmissionsNonNegative(s, Energy);
    CategoryEmissionsNonNegative(s, Food);
    CategoryEmissionsNonNegative(s, Waste);
    CategoryEmissionsNonNegative(s, Digital);
  }

  /** One category card: its rounded value and the fixed month-on-month change. */
  datatype CategoryCard = CategoryCard(name: string, category: Category, value: real, change: int)

  /** The caption of a category's card. */
  function CardName(c: Category): string
  {
    match c
    case Transportation => "Transportation"
    case Energy => "Energy"
    case Food => "Food"
    case Waste => "Waste"
    case Digital => "Digital"
  }

  /** The hard-coded month-on-month change of a category's card, in percent. */
  function CardChange(c: Category): int
  {
    match c
    case Transportation => -8
    case Energy => -12
    case Food => 5
    case Waste => -15
    case Digital => 2
  }

  /** The `categories` array: always five cards, one per category in the order of `AllCategories`. */
  function Categories(s: seq<Activity>): seq<CategoryCard>
  {
    seq(5, i requires 0 <= i < 5 =>
      var c := AllCategories[i];
      CategoryCard(CardName(c), c, RoundTenth(CalculateCategoryEmissions(s, c)), CardChange(c)))
  }

  /** Each card shows its category's emissions to one decimal, in the order of `AllCategories`. */
  lemma CategoriesShape(s: seq<Activity>, i: int)
    requires 0 <= i < 5
    ensures |Categories(s)| == 5
    ensures Categories(s)[i].category == AllCategories[i]
    ensures Categories(s)[i].name == CardName(AllCategories[i]) && Categories(s)[i].change == CardChange(AllCategories[i])
    ensures Categories(s)[i].value == RoundTenth(CalculateCategoryEmissions(s, AllCategories[i]))
    ensures CalculateCategoryEmissions(s, AllCategories[i]) - 0.05 < Categories(s)[i].value
         <= CalculateCategoryEmissions(s, AllCategories[i]) + 0.05
  {
    RoundTenthIsNear(CalculateCategoryEmissions(s, AllCategories[i]));
  }

  /** `categories.reduce((sum, cat) => sum + cat.value, 0)`. */
  function SumCardValues(cards: seq<CategoryCard>): real
  {
    if cards == [] then 0.0 else SumCardValues(cards[..|cards| - 1]) + cards[|cards| - 1].value
  }

  /** Five cards add up card by card. */
  lemma SumOfFiveCards(cards: seq<CategoryCard>)
    requires |cards| == 5
    ensures SumCardValues(cards)
         == cards[0].value + cards[1].value + cards[2].value + cards[3].value + cards[4].value
  {
    assert cards[..4][..3] == cards[..3];
    assert cards[..3][..2] == cards[..2];
    assert cards[..2][..1] == cards[..1];
    assert cards[..1][..0] == [];
    assert SumCardValues(cards[..1]) == cards[0].value;
    assert SumCardValues(cards[..2]) == SumCardValues(cards[..1]) + cards[1].value;
    assert SumCardValues(cards[..3]) == SumCardValues(cards[..2]) + cards[2].value;
    assert SumCardValues(cards[..4]) == SumCardValues(cards[..3]) + cards[3].value;
  }

  /** `totalEmissions`: the sum of the five rounded card values. */
  function TotalEmissions(s: seq<Activity>): (r: real)
    ensures SumOverCategories(s) - 0.25 < r <= SumOverCategories(s) + 0.25
  {
    var cards := Categories(s);
    SumOfFiveCards(cards);
    SumCardValues(cards)
  }

  /** Rounding each card moves the dashboard total at most 0.25 kg from the true total. */
  lemma TotalEmissionsNearExact(s: seq<Activity>)
    ensures SumEmissions(s) - 0.25 < TotalEmissions(s) <= SumEmissions(s) + 0.25
  {
    CategoryEmissionsConserve(s);
  }

  /** `monthlyProgress`; with a zero goal the source divides by zero. */
  function MonthlyProgress(u: User): (p: real)
    requires u.monthlyGoal != 0.0
    ensures p * u.monthlyGoal == u.currentEmissions * 100.0
  {
    (u.currentEmissions / u.monthlyGoal) * 100.0
  }

  /** `remainingBudget`. */
  function RemainingBudget(u: User): (r: real)
    ensures r + u.currentEmissions == u.monthlyGoal
  {
    u.monthlyGoal - u.currentEmissions
  }

  /** The budget caption: the kilograms left, or "Over budget". */
  datatype BudgetCaption = KgLeft(kg: real) | OverBudget

  function BudgetCaptionOf(u: User): (c: BudgetCaption)
    ensures c == OverBudget <==> u.currentEmissions >= u.monthlyGoal
    ensures c.KgLeft? ==> c.kg + u.currentEmissions == u.monthlyGoal && c.kg > 0.0
  {
    var remaining := RemainingBudget(u);
    if remaining > 0.0 then KgLeft(remaining) else OverBudget
  }

  /** The progress bar's width in percent: `Math.min(monthlyProgress, 100)`. */
  function ProgressBarWidth(progress: real): (w: real)
    ensures w <= 100.0
    ensures progress <= 100.0 ==> w == progress
    ensures progress > 100.0 ==> w == 100.0
  {
    Min(progress, 100.0)
  }

  datatype BarColour = RedBar | BlueBar

  function ProgressBarColour(progress: real): (c: BarColour)
    ensures c == RedBar <==> progress > 100.0
  {
    if progress > 100.0 then RedBar else BlueBar
  }

  /**
   * With a positive goal the caption says "Over budget" exactly when progress
   * reaches 100%, while the bar turns red only above 100%: at exactly 100%
   * the caption is over budget and the bar is still blue.
   */
  lemma BudgetCaptionAgreesWithProgress(u: User)
    requires u.monthlyGoal > 0.0
    ensures BudgetCaptionOf(u) == OverBudget <==> MonthlyProgress(u) >= 100.0
    ensures ProgressBarColour(MonthlyProgress(u)) == RedBar ==> BudgetCaptionOf(u) == OverBudget
  {
    var p := MonthlyProgress(u);
    assert p * u.monthlyGoal == u.currentEmissions * 100.0;
    if p >= 100.0 {
      assert p * u.monthlyGoal >= 100.0 * u.monthlyGoal;
    } else {
      assert p * u.monthlyGoal < 100.0 * u.monthlyGoal;
    }
  }

  /** The seeded user, 320 kg against a 500 kg goal, is at 64% with 180 kg left. */
  lemma SeededUserProgress(u: User)
    requires u.monthlyGoal == 500.0 && u.currentEmissions == 320.0
    ensures MonthlyProgress(u) == 64.0
    ensures BudgetCaptionOf(u) == KgLeft(180.0)
    ensures ProgressBarWidth(MonthlyProgress(u)) == 64.0
    ensures ProgressBarColour(MonthlyProgress(u)) == BlueBar
  {
  }

  /** `isReduction`: a negative change is shown as a reduction. */
  function IsReduction(card: CategoryCard): bool
  {
    card.change < 0
  }

  /** Transportation, energy and waste show reductions; food and digital do not. */
  lemma ReductionCards(s: seq<Activity>)
    ensures forall i :: 0 <= i < 5 ==>
      (IsReduction(Categories(s)[i]) <==> Categories(s)[i].category in {Transportation, Energy, Waste})
  {
  }
}

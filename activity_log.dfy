/**
 * The activity log page (src/components/ActivityLog.tsx): the category picker,
 * the transport options of its form, and the list of recent activities, which
 * skips any activity whose category the picker does not know.
 */
module ActivityLog {
  import opened Types
  import opened Calculations

  /** An entry of the `categories` list (icon and colour are rendering only). */
  datatype CategoryOption = CategoryOption(id: string, name: string)

  const CategoryOptions: seq<CategoryOption> := [
    CategoryOption("transportation", "Transportation"),
    CategoryOption("energy", "Energy"),
    CategoryOption("food", "Food"),
    CategoryOption("waste", "Waste"),
    CategoryOption("digital", "Digital")]

  /** `options.find(cat => cat.id === id)`: the first option with that id, if any. */
  function FindCategory(options: seq<CategoryOption>, id: string): (r: Option<CategoryOption>)
    ensures r.Some? <==> exists i :: 0 <= i < |options| && options[i].id == id
    ensures r.Some? ==> exists i :: 0 <= i < |options| && options[i] == r.value && r.value.id == id
                                    && forall j :: 0 <= j < i ==> options[j].id != id
  {
    if options == [] then None
    else if options[0].id == id then Some(options[0])
    else
      var r := FindCategory(options[1..], id);
      assert forall i :: 0 <= i < |options| - 1 ==> options[1..][i] == options[i + 1];
      r
  }

  /** `getCurrentCategory()`. */
  function GetCurrentCategory(selectedCategory: string): Option<CategoryOption>
  {
    FindCategory(CategoryOptions, selectedCategory)
  }

  /** The picker offers the five categories, in order, each id being the category's key, and no id twice. */
  lemma CategoryOptionsAreTheCategories()
    ensures |CategoryOptions| == |AllCategories|
    ensures forall i :: 0 <= i < |CategoryOptions| ==> CategoryOptions[i].id == CategoryKey(AllCategories[i])
    ensures forall i, j :: 0 <= i < j < |CategoryOptions| ==> CategoryOptions[i].id != CategoryOptions[j].id
  {
  }

  /** A selection is found exactly when it is the key of a category, and then it is that category's option. */
  lemma {:induction false} CurrentCategoryIffKey(selectedCategory: string)
    ensures GetCurrentCategory(selectedCategory).Some? <==> ParseCategory(selectedCategory).Some?
    ensures GetCurrentCategory(selectedCategory).Some? ==>
      GetCurrentCategory(selectedCategory).value.id == CategoryKey(ParseCategory(selectedCategory).value)
  {
    CategoryOptionsAreTheCategories();
    var r := GetCurrentCategory(selectedCategory);
    if ParseCategory(selectedCategory).Some? {
      var c := ParseCategory(selectedCategory).value;
      CategoryKeysRoundTrip(c);
      var i :| 0 <= i < 5 && AllCategories[i] == c;
      assert CategoryOptions[i].id == selectedCategory;
    } else if r.Some? {
      var i :| 0 <= i < |CategoryOptions| && CategoryOptions[i].id == selectedCategory;
      CategoryKeysRoundTrip(AllCategories[i]);
    }
  }

  /** How many picker buttons are highlighted: those whose id is the selection. */
  function SelectedCount(options: seq<CategoryOption>, selectedCategory: string): nat
  {
    if options == [] then 0
    else
      var here := if options[|options| - 1].id == selectedCategory then 1 else 0;
      SelectedCount(options[..|options| - 1], selectedCategory) + here
  }

  /** With distinct ids at most one button is highlighted, and exactly one when the selection is an id. */
  lemma {:induction false} SelectedCountAtMostOne(options: seq<CategoryOption>, selectedCategory: string)
    requires forall i, j :: 0 <= i < j < |options| ==> options[i].id != options[j].id
    ensures SelectedCount(options, selectedCategory) <= 1
    ensures SelectedCount(options, selectedCategory) == 1
        <==> exists i :: 0 <= i < |options| && options[i].id == selectedCategory
  {
    if options != [] {
      var p := options[..|options| - 1];
      SelectedCountAtMostOne(p, selectedCategory);
      if exists i :: 0 <= i < |options| && options[i].id == selectedCategory {
        var i :| 0 <= i < |options| && options[i].id == selectedCategory;
        if i < |p| {
          assert p[i].id == selectedCategory;
        }
      }
    }
  }

  /** An option of the transport `<select>`. */
  datatype TransportOption = TransportOption(name: string, factor: real)

  const TransportOptions: seq<TransportOption> := [
    TransportOption("Car (Petrol)", 0.21),
    TransportOption("Car (Diesel)", 0.17),
    TransportOption("Public Transport", 0.05),
    TransportOption("Cycling", 0.0),
    TransportOption("Walking", 0.0),
    TransportOption("Flight (Domestic)", 0.25),
    TransportOption("Flight (International)", 0.30)]

  /** Every transport option states the factor the emission table uses for it. */
  lemma TransportOptionsAgreeWithFactors()
    ensures forall i :: 0 <= i < |TransportOptions| ==>
      TransportOptions[i].name in TransportationFactors
      && TransportationFactors[TransportOptions[i].name] == TransportOptions[i].factor
  {
  }

  /** The converse fails: the table prices three modes the form does not offer. */
  lemma FactorTableHasUnofferedModes()
    ensures forall name :: name in {"Car (Electric)", "Motorcycle", "Taxi/Uber"} ==>
      name in TransportationFactors && forall i :: 0 <= i < |TransportOptions| ==> TransportOptions[i].name != name
  {
  }

  /** An entry of the page's own `activities` state. */
  datatype LoggedActivity = LoggedActivity(
    id: int,
    category: string,
    activityType: string,
    emissions: real,
    timestamp: string,
    location: string,
    distance: Option<string>,
    amount: Option<string>,
    details: Option<string>)

  const SeededActivities: seq<LoggedActivity> := [
    LoggedActivity(1, "transportation", "Car Drive", 5.2, "2 hours ago", "Home to Office", Some("25 km"), None, None),
    LoggedActivity(2, "energy", "Electricity Usage", 3.8, "4 hours ago", "Home", None, Some("12 kWh"), None),
    LoggedActivity(3, "food", "Restaurant Meal", 2.1, "6 hours ago", "Downtown Restaurant", None, None, Some("Beef burger with fries"))]

  /** A drawn row: the activity and the picker option it is shown with. */
  datatype RenderedRow = RenderedRow(activity: LoggedActivity, category: CategoryOption)

  /** `activities.map(...)` returning `null` for an unknown category: the rows actually drawn, in order. */
  function RenderedRows(acts: seq<LoggedActivity>): (r: seq<RenderedRow>)
    ensures |r| <= |acts|
    ensures forall k :: 0 <= k < |r| ==>
      r[k].activity in acts && GetCurrentCategory(r[k].activity.category) == Some(r[k].category)
  {
    if acts == [] then []
    else
      var rest := RenderedRows(acts[..|acts| - 1]);
      var a := acts[|acts| - 1];
      match GetCurrentCategory(a.category)
      case None => rest
      case Some(option) => rest + [RenderedRow(a, option)]
  }

  /** A row is drawn for an activity exactly when its category is known. */
  lemma {:induction false} RenderedRowsComplete(acts: seq<LoggedActivity>, i: int)
    requires 0 <= i < |acts|
    ensures GetCurrentCategory(acts[i].category).Some? <==>
      exists k :: 0 <= k < |RenderedRows(acts)| && RenderedRows(acts)[k].activity == acts[i]
  {
    var p, a := acts[..|acts| - 1], acts[|acts| - 1];
    var rest := RenderedRows(p);
    if i < |acts| - 1 {
      assert acts[i] == p[i];
      RenderedRowsComplete(p, i);
      if GetCurrentCategory(acts[i].category).Some? {
        var k :| 0 <= k < |rest| && rest[k].activity == acts[i];
        assert RenderedRows(acts)[k] == rest[k];
      }
    } else if GetCurrentCategory(a.category).Some? {
      assert RenderedRows(acts)[|rest|].activity == a;
    }
  }

  /** Appending an activity appends its row (if any) and leaves the earlier rows in order. */
  lemma RenderedRowsAppend(acts: seq<LoggedActivity>, a: LoggedActivity)
    ensures RenderedRows(acts + [a]) == RenderedRows(acts)
      + (if GetCurrentCategory(a.category).Some? then [RenderedRow(a, GetCurrentCategory(a.category).value)] else [])
  {
    assert (acts + [a])[..|acts + [a]| - 1] == acts;
  }

  /** All three seeded activities are drawn. */
  lemma SeededActivitiesAllRendered()
    ensures |RenderedRows(SeededActivities)| == 3
  {
    var s := SeededActivities;
    assert s[..1] == [s[0]] && s[..2] == s[..1] + [s[1]] && s == s[..2] + [s[2]];
    RenderedRowsAppend([], s[0]);
    RenderedRowsAppend(s[..1], s[1]);
    RenderedRowsAppend(s[..2], s[2]);
  }

  /** The seeded activity types are not keys of the factor table, so the calculator prices them at zero. */
  lemma SeededTypesNotPriced()
    ensures CalculateEmissions(Transportation, "Car Drive", 25.0) == 0.0
    ensures CalculateEmissions(Energy, "Electricity Usage", 12.0) == 0.0
    ensures CalculateEmissions(Food, "Restaurant Meal", 1.0) == 0.0
  {
  }

  /** The page's state: the selected category and its activity list. */
  class ActivityLogState {
    var selectedCategory: string
    var activities: seq<LoggedActivity>

    /** Transportation is selected at first, with the seeded activities. */
    constructor()
      ensures selectedCategory == "transportation" && activities == SeededActivities
    {
      selectedCategory := "transportation";
      activities := SeededActivities;
    }

    /** A picker button's `onClick`. */
    method SelectCategory(id: string)
      modifies this
      ensures selectedCategory == id && activities == old(activities)
    {
      selectedCategory := id;
    }

    /**
     * Whether the transportation form is shown: exactly when the picker's
     * current category is the Transportation option.
     */
    method ShowsTransportationForm() returns (shown: bool)
      ensures shown <==> ParseCategory(selectedCategory) == Some(Transportation)
      ensures shown <==> GetCurrentCategory(selectedCategory) == Some(CategoryOptions[0])
    {
      shown := selectedCategory == "transportation";
      CurrentCategoryIffKey(selectedCategory);
      CategoryOptionsAreTheCategories();
    }
  }
}

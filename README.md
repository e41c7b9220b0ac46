# EcoTrack core in Dafny

EcoTrack is a React front end for tracking a personal carbon footprint. Users log
activities in five categories: transportation, energy, food, waste and digital.
Each activity is priced with a static table of emission factors. The app then
shows per-category totals on a dashboard, a breakdown panel, a chart and a report.
Users can also join community challenges, like posts, scan products against a
small database and edit their profile.

This project models the logic behind those screens. Rendering is left out. One
Dafny module stands for each source file:

| module | source file | what it holds |
|---|---|---|
| `Types` | src/types/index.ts | the records and their string-literal enumerations as datatypes |
| `Numbers` | (shared) | `Math.round`, its one-decimal use, `Math.min` and `Math.max` on `real` |
| `Calculations` | src/utils/calculations.ts | the factor table, `calculateEmissions`, the branches of `getTimeAgo` |
| `Dashboard` | src/components/Dashboard.tsx | per-category sums by filter and reduce, the five cards, budget and progress bar |
| `Reports` | src/components/Reports.tsx | the five-slot accumulation loop, percentages, the in-place sort, insights, yearly figures, the exported record |
| `CategoryBreakdown` | src/components/CategoryBreakdown.tsx | the panel's total and unguarded percentages |
| `EmissionChart` | src/components/EmissionChart.tsx | the maximum and the bar-height scaling |
| `Community` | src/components/Community.tsx | join/leave and like toggles as a class over two lists, the difficulty badge, the button caption |
| `ProductResult` | src/components/ProductResult.tsx | score bands for colour and icon, the certifications fallback |
| `BarcodeScanner` | src/components/BarcodeScanner.tsx | the product database and the manual scan with its fallback, as a class |
| `ActivityLog` | src/components/ActivityLog.tsx | the category picker, transport options, the recent-activity filter, the picker state |
| `Header` | src/components/Header.tsx | the navigation tabs, the active-tab highlight, the initials |
| `Profile` | src/components/Profile.tsx | the edit form, the edit toggle, cancel and save, as a class |

## Modelling choices

- **Numbers.** JavaScript numbers are `real`. `Math.round(x)` is `(x + 0.5).Floor`, which rounds halves towards plus infinity as JavaScript does. `Math.round(x * 10) / 10` is `Numbers.RoundTenth`.
- **Sums.** `reduce` is a left fold, so every sum is defined by peeling off the *last* element. This lets the `forEach` accumulation in `Reports` advance by one definition step per loop iteration.
- **Two ways to sum a category.** The per-category sum is defined once, in `Dashboard.CalculateCategoryEmissions`, as filter then reduce. The report's mutable `categoryTotals` object is a `map<Category, real>`, and `Reports.CalculateCategoryData` is a `while` loop over it. Its invariant ties the map to that definition.
- **The in-place sort.** `categoryData.sort((a, b) => b.value - a.value)` is a stable descending sort. `Reports.SortByValueDesc` specifies it and is proved sorted, a permutation and stable. `Reports.SortInPlace` is the in-place effect on an array. `Reports.ExportReport` runs the steps in the source's order, so the exported record carries the sorted entries.
- **Stateful components.** Community, BarcodeScanner, ActivityLog and Profile hold their state in classes with `modifies` clauses. React setters become field assignments. The `onScanResult` callback becomes the return value of `HandleManualScan`.
- **Text.** Texts the source builds by formatting numbers (insights, time-ago strings, class names, icons) become datatypes with one constructor per case.
- **Truthiness.** `calculateEmissions` keeps its `factor ? factor * amount : 0` test, so a type missing from the table and a zero factor both give 0.
- **Functions that only compute.** Several functions are the source's expressions and carry no contract of their own. Their properties are stated by the lemmas named in the table:
  - `Dashboard.CalculateCategoryEmissions` is the filter and reduce of Dashboard.tsx lines 25-29;
  - `Dashboard.Categories` is the five-entry array of lines 31-67;
  - `Dashboard.IsReduction` is the arrow-direction test of line 178;
  - `ActivityLog.GetCurrentCategory` is the `find` of ActivityLog.tsx lines 64-66;
  - `CategoryBreakdown.Total` and `CategoryBreakdown.Percentage` are lines 13 and 18 of CategoryBreakdown.tsx;
  - `Numbers.Round` and `Numbers.RoundTenth` are `Math.round` and its one-decimal use;
  - `EmissionChart.BarHeight` is the bar scaling of EmissionChart.tsx line 24.
- **Division by zero.** The report guards its percentages with `total > 0`. The breakdown panel does not guard (a zero total gives NaN), and neither do the dashboard's monthly progress and the chart's scaling. Those members require a non-zero divisor.

## Model

| member | source | states |
|---|---|---|
| Types.ParseCategory | src/types/index.ts:16 | a parsed key is the key of the category it returns |
| Types.CategoryKeysRoundTrip | src/types/index.ts:16 | every category is listed exactly once among the five and its key parses back to it |
| Numbers.RoundIsNearest | src/components/Reports.tsx:42 | `Math.round` gives an integer within half a unit of its argument |
| Numbers.RoundTenthIsNear | src/components/Reports.tsx:41 | rounding to one decimal moves a value by at most 0.05 |
| Numbers.Min | src/components/Dashboard.tsx:133 | `Math.min` is a lower bound of both arguments and equal to one of them |
| Numbers.Max | src/components/EmissionChart.tsx:13 | `Math.max` is an upper bound of both arguments and equal to one of them |
| Numbers.RoundMonotone | src/components/Reports.tsx:42 | rounding preserves order |
| Numbers.RoundPercentBounds | src/components/Reports.tsx:42 | a share in 0..100 rounds to a whole percentage in 0..100 |
| Numbers.RoundTenthIsTenths | src/components/Reports.tsx:41 | rounding to one decimal gives a whole number of tenths |
| Calculations.CalculateEmissions | src/utils/calculations.ts:54-55 | a listed type gives factor times amount; an unlisted type gives 0 without error |
| Calculations.FactorsNonNegative | src/utils/calculations.ts:1-47 | every factor in every category's table is non-negative |
| Calculations.EmissionsNonNegative | src/utils/calculations.ts:1-55 | a non-negative amount never gives negative emissions |
| Calculations.ZeroFactorTypes | src/utils/calculations.ts:7-8 | Cycling and Walking give 0 for every distance |
| Calculations.WorkedExamples | src/utils/calculations.ts:3-55 | 25 km by petrol car gives 5.25; 12 kWh of electricity gives 3.84 |
| Calculations.DiffInMinutes | src/utils/calculations.ts:73 | the minute difference is the floor of the millisecond difference over 60000 |
| Calculations.GetTimeAgo | src/utils/calculations.ts:75-80 | minutes below 60, hours in 1..23 for 60..1439, days of at least 1 from 1440; the branches are exhaustive and disjoint, and each count is the floor of the difference |
| Dashboard.SumEmissionsNonNegative | src/components/Dashboard.tsx:28 | non-negative emissions give a non-negative sum |
| Dashboard.FilterByCategory | src/components/Dashboard.tsx:27 | the filter never grows the list |
| Dashboard.FilterByCategoryMembers | src/components/Dashboard.tsx:27 | the filter keeps exactly the activities of the category: every kept activity has it and comes from the list, and every activity with it is kept |
| Dashboard.FilterByCategorySnoc | src/components/Dashboard.tsx:27 | the filter keeps order and multiplicity: one more activity is appended to the filtered list exactly when it has the category |
| Dashboard.CategoryEmissionsNonNegative | src/components/Dashboard.tsx:25-29 | with non-negative emissions each category's sum is non-negative |
| Dashboard.CategoryEmissionsSnoc | src/components/Dashboard.tsx:25-29 | one more activity adds its emissions to its own category and to no other |
| Dashboard.CategoryEmissionsConserve | src/components/Dashboard.tsx:25-29 | the five category sums add up to the sum of all emissions |
| Dashboard.CategoryAtMostTotal | src/components/Dashboard.tsx:25-29 | with non-negative emissions each category lies between 0 and the grand total |
| Dashboard.CategoriesShape | src/components/Dashboard.tsx:31-67 | always five cards in fixed order, each with its caption, its fixed change and its category's sum rounded to one decimal |
| Dashboard.SumOfFiveCards | src/components/Dashboard.tsx:69 | the fold over five cards is the sum of their five values |
| Dashboard.TotalEmissions | src/components/Dashboard.tsx:69 | the total of the rounded cards lies within 0.25 of the unrounded category sum |
| Dashboard.TotalEmissionsNearExact | src/components/Dashboard.tsx:69 | the dashboard total lies within 0.25 of the sum of all emissions |
| Dashboard.MonthlyProgress | src/components/Dashboard.tsx:70 | progress times goal is 100 times current emissions |
| Dashboard.RemainingBudget | src/components/Dashboard.tsx:71 | remaining budget plus current emissions is the monthly goal |
| Dashboard.BudgetCaptionOf | src/components/Dashboard.tsx:121 | "Over budget" exactly when emissions reach the goal; otherwise the positive kilograms left |
| Dashboard.ProgressBarWidth | src/components/Dashboard.tsx:133 | the width never exceeds 100 and equals the progress up to 100 |
| Dashboard.ProgressBarColour | src/components/Dashboard.tsx:132 | the bar is red exactly when progress exceeds 100 |
| Dashboard.BudgetCaptionAgreesWithProgress | src/components/Dashboard.tsx:121-133 | with a positive goal, "Over budget" exactly when progress reaches 100%; a red bar always comes with "Over budget" |
| Dashboard.SeededUserProgress | src/components/Dashboard.tsx:70-133 | the seeded user at 320 of 500 kg has 64% progress, 180 kg left and a blue bar of width 64 |
| Dashboard.ReductionCards | src/components/Dashboard.tsx:178 | exactly the transportation, energy and waste cards are reductions, the ones with a negative change |
| Reports.AddTo | src/components/Reports.tsx:34 | `+=` on a slot adds to that slot and leaves the other four unchanged |
| Reports.Capitalize | src/components/Reports.tsx:40 | keeps the length; the first letter becomes its upper-case form and everything after it is unchanged |
| Reports.DisplayName | src/components/Reports.tsx:40 | an entry name is non-empty and as long as its key |
| Reports.DisplayNameIsCardName | src/components/Reports.tsx:40 | the capitalised key is the caption the dashboard gives the category |
| Reports.TotalsOf | src/components/Reports.tsx:25-35 | after the accumulation every slot exists and holds the sum of its category's emissions |
| Reports.TotalsOfEmpty | src/components/Reports.tsx:25-31 | with no activities every slot holds its initial 0 |
| Reports.TotalsOfSnoc | src/components/Reports.tsx:33-35 | one step of the `forEach` adds the activity's emissions into its own slot only |
| Reports.CalculateCategoryData | src/components/Reports.tsx:24-44 | the loop's result is the entries built from the true category sums |
| Reports.SlotSumOfTotals | src/components/Reports.tsx:37 | the sum of the slots is the sum of the five category totals |
| Reports.CategoryDataAt | src/components/Reports.tsx:39-43 | entry i is category i's entry against a grand total equal to the sum of all emissions |
| Reports.CategoryDataShape | src/components/Reports.tsx:39-41 | five entries in key order, none omitted, each named and valued like the dashboard's card |
| Reports.CategoryNamesNonEmpty | src/components/Reports.tsx:40 | no entry has an empty name |
| Reports.GrandTotalIsAllEmissions | src/components/Reports.tsx:37 | the grand total of the slots is the sum of all emissions |
| Reports.ZeroTotalPercentages | src/components/Reports.tsx:42 | a grand total that is not positive gives every entry 0%, with no division |
| Reports.EmptyCategoryData | src/components/Reports.tsx:25-43 | with no activities all five categories appear, with value 0 and 0% |
| Reports.EntryPercentage | src/components/Reports.tsx:42 | the percentage is the rounded share when the total is positive and 0 otherwise |
| Reports.EntryPercentageBounds | src/components/Reports.tsx:42 | a value between 0 and the total gets a percentage in 0..100 |
| Reports.PercentageBounds | src/components/Reports.tsx:42 | with non-negative emissions every entry's percentage is in 0..100 |
| Reports.InsertByValue | src/components/Reports.tsx:51 | inserting adds exactly the one entry |
| Reports.InsertByValueSorted | src/components/Reports.tsx:51 | inserting into a descending sequence keeps it descending |
| Reports.SortByValueDesc | src/components/Reports.tsx:51 | the sort is a permutation of its input in descending order of value |
| Reports.InsertByValueStable | src/components/Reports.tsx:51 | insertion keeps the relative order of the entries with any given value |
| Reports.SortByValueDescStable | src/components/Reports.tsx:51 | the sort is stable: entries with equal values keep their original order |
| Reports.SortInPlace | src/components/Reports.tsx:51 | the array afterwards holds the sorted version of its old contents |
| Reports.SumOfFiveValues | src/components/Reports.tsx:47 | the fold over five entries is the sum of their five values |
| Reports.ReportTotalMatchesDashboard | src/components/Reports.tsx:47 | the report's total equals the dashboard's for the same activities |
| Reports.LargestSourceName | src/components/Reports.tsx:51 | the first entry's name when there is a first entry with a non-empty name; "Transportation" when the list is empty or the first name is empty |
| Reports.MostRecentInsight | src/components/Reports.tsx:53 | reads the first activity only when there is one; otherwise the fixed fallback |
| Reports.YearlyStatsOf | src/components/Reports.tsx:57-58 | the yearly total is twelve times the total rounded to a whole number; the monthly average is a whole number of tenths within half a tenth of the total (rounding half up), so it is the total rounded to one decimal |
| Reports.ExportReport | src/components/Reports.tsx:46-78 | the record has the user's name, the fixed period, the activity count, the entries sorted by the insights, the rounded total and the four insights |
| Reports.ToArray | src/components/Reports.tsx:39 | a fresh array holding the entries |
| Reports.LargestSourceIsMaximal | src/components/Reports.tsx:51 | the largest source is an entry with the greatest value |
| CategoryBreakdown.TotalNonNegative | src/components/CategoryBreakdown.tsx:13 | non-negative values give a non-negative total |
| CategoryBreakdown.RowsWith | src/components/CategoryBreakdown.tsx:17 | one row per entry |
| CategoryBreakdown.RowsWithAt | src/components/CategoryBreakdown.tsx:17-18 | row i shows entry i with its share of the total |
| CategoryBreakdown.Rows | src/components/CategoryBreakdown.tsx:17 | one row per entry, in input order, with the entry's name and value |
| CategoryBreakdown.RowIsShareOfTotal | src/components/CategoryBreakdown.tsx:18 | percentage times total is 100 times the value |
| CategoryBreakdown.PercentageAdds | src/components/CategoryBreakdown.tsx:18 | percentages of two parts add to the percentage of their sum |
| CategoryBreakdown.SumPercentagesSnoc | src/components/CategoryBreakdown.tsx:17 | one more row adds its percentage to the sum |
| CategoryBreakdown.SumPercentagesWith | src/components/CategoryBreakdown.tsx:13-18 | the rows' percentages add up to the percentage of the entries' total |
| CategoryBreakdown.PercentagesSumTo100 | src/components/CategoryBreakdown.tsx:13-18 | with a non-zero total the percentages add up to exactly 100 |
| CategoryBreakdown.WholeIsHundredPercent | src/components/CategoryBreakdown.tsx:18 | the total is 100% of itself |
| CategoryBreakdown.EntryAtMostTotal | src/components/CategoryBreakdown.tsx:13 | with non-negative values no entry exceeds the total |
| CategoryBreakdown.PercentageWithinRange | src/components/CategoryBreakdown.tsx:18 | a value between 0 and a positive total is between 0 and 100 percent of it |
| CategoryBreakdown.PercentageMonotone | src/components/CategoryBreakdown.tsx:18 | against a positive total, percentages keep the order of values |
| CategoryBreakdown.PercentageBounds | src/components/CategoryBreakdown.tsx:13-18 | with non-negative values and a positive total every percentage is in [0, 100] |
| CategoryBreakdown.PercentagePreservesOrder | src/components/CategoryBreakdown.tsx:18 | a larger value never gets a smaller percentage |
| CategoryBreakdown.DashboardEntries | src/components/Dashboard.tsx:31-67 | the panel gets one entry per dashboard card, with its name and value |
| CategoryBreakdown.BreakdownTotalIsDashboardTotal | src/components/CategoryBreakdown.tsx:13 | the panel's total over the cards is the dashboard's fold over them |
| CategoryBreakdown.DashboardBreakdownTotal | src/components/CategoryBreakdown.tsx:13 | fed the dashboard's cards, the panel totals to the dashboard's `totalEmissions` |
| EmissionChart.MaxEmissions | src/components/EmissionChart.tsx:13 | the maximum is at least every month's emissions and equal to one of them |
| EmissionChart.Bars | src/components/EmissionChart.tsx:19-25 | one bar per month in order, each with its month, its emissions, its scaled height and a delay of 100 ms per position |
| EmissionChart.FullHeight | src/components/EmissionChart.tsx:14-24 | the maximum scales to the full chart height |
| EmissionChart.TallestBarFillsChart | src/components/EmissionChart.tsx:13-24 | some bar is exactly the chart's height of 200 |
| EmissionChart.BarHeightsWithinChart | src/components/EmissionChart.tsx:24 | with positive data every bar is taller than 0 and at most 200 |
| EmissionChart.BarHeightMonotone | src/components/EmissionChart.tsx:24 | scaling against a positive maximum preserves order |
| EmissionChart.BarHeightsPreserveOrder | src/components/EmissionChart.tsx:24 | a month with more emissions never gets a shorter bar |
| EmissionChart.DefaultChart | src/components/EmissionChart.tsx:4-24 | the hard-coded data peaks at 420 in January at full height, and June is 320/420 of it |
| Community.ToggleParticipation | src/components/Community.tsx:117-123 | the flag flips, the count moves down on leaving and up on joining, and no other field changes |
| Community.WithChallengeToggled | src/components/Community.tsx:115-125 | same length and order; matching challenges toggled, all others unchanged |
| Community.ToggleParticipationProperties | src/components/Community.tsx:119-122 | toggling twice restores the challenge; the id and the other participants are kept |
| Community.WithChallengeToggledTwice | src/components/Community.tsx:114-125 | joining twice with the same id restores the list |
| Community.WithChallengeToggledNoMatch | src/components/Community.tsx:116 | an id no challenge has leaves the list unchanged |
| Community.WithChallengeToggledKeepsOthers | src/components/Community.tsx:119-122 | every id and every count of other participants are kept |
| Community.WithChallengeToggledPreservesCounts | src/components/Community.tsx:119-122 | counts that agree with the flags still agree after a toggle |
| Community.ToggleLiked | src/components/Community.tsx:131-135 | the flag flips, the likes move down on unliking and up on liking, and no other field changes |
| Community.WithLikeToggled | src/components/Community.tsx:129-137 | same length and order; matching posts toggled, all others unchanged |
| Community.ToggleLikedProperties | src/components/Community.tsx:133-134 | liking twice restores the post; the id and the other users' likes are kept |
| Community.WithLikeToggledTwice | src/components/Community.tsx:128-137 | toggling a like twice restores the feed |
| Community.WithLikeToggledNoMatch | src/components/Community.tsx:130 | an id no post has leaves the feed unchanged |
| Community.WithLikeToggledKeepsOthers | src/components/Community.tsx:133-134 | every id and every count of other users' likes are kept |
| Community.WithLikeToggledPreservesCounts | src/components/Community.tsx:133-134 | counts that agree with the flags still agree after a toggle |
| Community.GetDifficultyColor | src/components/Community.tsx:105-111 | green exactly for Easy, yellow for Medium, red for Hard, gray for anything else |
| Community.DifficultyNeverGray | src/components/Community.tsx:105-111 | a difficulty the type allows never falls through to gray |
| Community.ButtonLabel | src/components/Community.tsx:277-278 | "Leave Challenge" exactly when participating; otherwise "Join Challenge" exactly when active, "Register Interest" when not |
| Community.ButtonStyleOf | src/components/Community.tsx:271-275 | the button is red exactly while the user takes part |
| Community.PressingJoinOffersLeave | src/components/Community.tsx:270-278 | after joining the caption is "Leave Challenge", after leaving it is not |
| Community.CommunityState.constructor | src/components/Community.tsx:22-93 | starts on the leaderboard with the seeded lists, counts consistent with flags |
| Community.CommunityState.SelectTab | src/components/Community.tsx:176 | only the tab changes |
| Community.CommunityState.JoinChallenge | src/components/Community.tsx:114-125 | only the challenge list changes, to its toggled version, and consistency is kept |
| Community.CommunityState.ToggleLike | src/components/Community.tsx:128-137 | only the post list changes, to its toggled version, and consistency is kept |
| ProductResult.GetScoreColor | src/components/ProductResult.tsx:17-21 | green exactly from 80, yellow exactly from 60 below 80, red exactly below 60 |
| ProductResult.GetScoreIcon | src/components/ProductResult.tsx:23-27 | a check exactly from 80, a leaf exactly from 60 below 80, a warning exactly below 60 |
| ProductResult.ScoreIconMatchesColour | src/components/ProductResult.tsx:17-27 | colour and icon always pick the same band |
| ProductResult.ScoreColourMonotone | src/components/ProductResult.tsx:17-21 | a higher score never gets a worse band |
| ProductResult.CertificationsViewOf | src/components/ProductResult.tsx:64-75 | the fallback line exactly when there are no certifications, otherwise all of them in order |
| BarcodeScanner.LookupProduct | src/components/BarcodeScanner.tsx:13-54 | a known barcode yields its record, any other the fixed unknown product; every result has a non-negative footprint and a score in 0..100 |
| BarcodeScanner.KnownBarcodes | src/components/BarcodeScanner.tsx:13-54 | the three advertised barcodes find their products; the empty code falls back |
| BarcodeScanner.ProductBadges | src/components/BarcodeScanner.tsx:19-52 | bananas and the bulb score green, the burger and the unknown product red, and the burger lists no certification |
| BarcodeScanner.Scanner.constructor | src/components/BarcodeScanner.tsx:10 | the field starts empty |
| BarcodeScanner.Scanner.SetManualBarcode | src/components/BarcodeScanner.tsx:112 | the field holds the typed text |
| BarcodeScanner.Scanner.HandleManualScan | src/components/BarcodeScanner.tsx:40-57 | emits exactly one product, the lookup of the typed code, and clears the field in both branches |
| ActivityLog.FindCategory | src/components/ActivityLog.tsx:65 | found exactly when some option has the id, and then it is the first such option |
| ActivityLog.CategoryOptionsAreTheCategories | src/components/ActivityLog.tsx:46-52 | the picker lists the five category keys in order, none twice |
| ActivityLog.CurrentCategoryIffKey | src/components/ActivityLog.tsx:64-66 | a selection is found exactly when it is a category key, and then it is that key's option |
| ActivityLog.SelectedCountAtMostOne | src/components/ActivityLog.tsx:89 | with distinct ids at most one button is highlighted, exactly one when the selection is an id |
| ActivityLog.TransportOptionsAgreeWithFactors | src/components/ActivityLog.tsx:54-62 | every transport option is priced in the factor table with the same factor |
| ActivityLog.FactorTableHasUnofferedModes | src/utils/calculations.ts:5-12 | Car (Electric), Motorcycle and Taxi/Uber are priced but not offered |
| ActivityLog.RenderedRows | src/components/ActivityLog.tsx:171-173 | each drawn row is an activity of the list together with the option its category finds |
| ActivityLog.RenderedRowsComplete | src/components/ActivityLog.tsx:171-173 | an activity is drawn exactly when its category is known |
| ActivityLog.RenderedRowsAppend | src/components/ActivityLog.tsx:171-173 | rows keep the list's order: a new activity adds its row at the end, if at all |
| ActivityLog.SeededActivitiesAllRendered | src/components/ActivityLog.tsx:16-44 | all three seeded activities are drawn |
| ActivityLog.SeededTypesNotPriced | src/components/ActivityLog.tsx:20-38 | the seeded activity types are not in the factor table, so they price at 0 |
| ActivityLog.ActivityLogState.constructor | src/components/ActivityLog.tsx:15-44 | transportation is selected, with the seeded activities |
| ActivityLog.ActivityLogState.SelectCategory | src/components/ActivityLog.tsx:93 | only the selection changes |
| ActivityLog.ActivityLogState.ShowsTransportationForm | src/components/ActivityLog.tsx:64-111 | the form is shown exactly when the selection parses to Transportation, that is when the picker's current category is the Transportation option |
| Header.MobileNavItems | src/components/Header.tsx:94 | the mobile bar is exactly the first four tabs, in order |
| Header.HighlightCountDistinct | src/components/Header.tsx:60 | with distinct ids at most one button is highlighted, exactly one when the active tab is among them |
| Header.ActiveTabHighlight | src/components/Header.tsx:25-101 | the desktop bar highlights exactly one tab; the mobile bar one, or none for Reports and Profile |
| Header.Split | src/components/Header.tsx:85 | splitting on spaces gives at least one piece and no piece holds a space |
| Header.JoinSplit | src/components/Header.tsx:85 | joining the pieces with spaces gives back the name |
| Header.SplitCount | src/components/Header.tsx:85 | there is one more piece than there are spaces |
| Header.FirstLetters | src/components/Header.tsx:85 | at most one letter per piece, exactly one when no piece is empty |
| Header.Initials | src/components/Header.tsx:85 | at most one more letter than the name has spaces |
| Header.FirstLettersAppend | src/components/Header.tsx:85 | the initials of two runs of pieces are the initials of the first run followed by those of the second, so `map` keeps the pieces' order |
| Header.FirstLettersInOrder | src/components/Header.tsx:85 | when no piece is empty, letter k of the initials is the first letter of piece k |
| Header.InitialsInOrder | src/components/Header.tsx:85 | for a name whose pieces are all non-empty, the initials have one letter per piece and letter k begins piece k |
| Header.FirstLettersAreHeads | src/components/Header.tsx:85 | every letter of the initials begins some non-empty piece |
| Header.InitialsHaveNoSpace | src/components/Header.tsx:85 | the initials never hold a space |
| Header.SplitWord | src/components/Header.tsx:85 | a word without spaces is its own single piece |
| Header.SplitLeadingWord | src/components/Header.tsx:85 | a leading word and its space split off as the first piece |
| Header.SeededUserInitials | src/components/Header.tsx:85 | "Alex Green" gives "AG" |
| Profile.InitialForm | src/components/Profile.tsx:30-35 | the form starts with the user's name and goal and the fixed email and location |
| Profile.SavedUser | src/components/Profile.tsx:52-56 | save replaces the name and goal and keeps every other field |
| Profile.SaveProperties | src/components/Profile.tsx:52-56 | saving an untouched form changes nothing, saving twice is saving once, and email and location are kept |
| Profile.SaveIgnoresEmailAndLocation | src/components/Profile.tsx:52-56 | the form's email and location never reach the user |
| Profile.ProfileView.constructor | src/components/Profile.tsx:28-35 | opens on the profile section, not editing, with the initial form and the caption "Edit Profile" |
| Profile.ProfileView.ToggleEditMode | src/components/Profile.tsx:84 | the edit flag is negated and nothing else changes, so two presses restore it; the caption changes, from "Edit Profile" to "Cancel" |
| Profile.ProfileView.EditButtonCaption | src/components/Profile.tsx:88 | "Cancel" exactly while editing, "Edit Profile" exactly when not |
| Profile.ProfileView.Cancel | src/components/Profile.tsx:170 | leaves edit mode, so the caption is "Edit Profile", and keeps the typed values |
| Profile.ProfileView.HandleSave | src/components/Profile.tsx:51-58 | the user becomes the saved user and edit mode ends, so the caption is "Edit Profile" |
| Profile.ProfileView.EditName | src/components/Profile.tsx:130 | only the form's name changes |
| Profile.ProfileView.EditEmail | src/components/Profile.tsx:139 | only the form's email changes |
| Profile.ProfileView.EditLocation | src/components/Profile.tsx:148 | only the form's location changes |
| Profile.ProfileView.EditMonthlyGoal | src/components/Profile.tsx:157 | only the form's goal changes, to the parsed integer |
| Profile.ProfileView.SelectSection | src/components/Profile.tsx:105 | only the section changes |

## Left out

- Rendering: JSX, CSS class strings and icons. Only the choice a branch makes (colour band, caption, icon) is modelled, as a datatype.
- App routing and prop wiring in src/App.tsx: navigation plumbing. Its props also do not match the components' declared props.
- src/components/Goals.tsx: display only, with no logic of its own.
- `generateId` and `formatDate`: clock, randomness and locale formatting. The Date parsing inside `getTimeAgo` is left out too; the model starts from the minute difference (`Calculations.DiffInMinutes` takes two instants in milliseconds).
- Number-to-text formatting of the insights and the time-ago strings: the model keeps the numbers they print.
- `startCamera` in the barcode scanner, with its `isScanning` flag: a timer and `Math.random` choose the product.
- The download steps of `exportReport` (JSON text, Blob, object URL, link click): I/O. The `reportData` record itself is modelled.
- `useLocalStorage` persistence of challenges and posts: the hook's code is not part of this model. The lists are plain state.
- `Profile.ProfileView.EditMonthlyGoal`: takes the integer `parseInt` produced. A field that does not parse gives NaN in the source, which the model does not represent.
- Header.FirstLetters: takes the first character of each piece, whereas `n[0]` in the source takes the first UTF-16 code unit. The two differ when a piece starts with a character outside the Basic Multilingual Plane, where the source yields a lone surrogate. Dafny strings are sequences of characters, not of code units.
- Reports.Capitalize: upper-cases only the ASCII letters a to z, whereas `toUpperCase` applies full Unicode case mapping, which can change the length ('ß' becomes "SS"). The report only capitalises the five ASCII category keys, so its names are unaffected. "Keeps the length" holds for the model's upper-casing, not for `toUpperCase` on arbitrary strings.
- IEEE-754 binary rounding and `toFixed` output: numbers are exact `real`s, so results agree with the source up to floating-point error.
- Hard-coded display data: stats, comparisons, achievements, the leaderboard, the welcome text and the yearly best and worst months.
- Lookups through inherited object keys (such as a barcode or activity type spelt like an `Object.prototype` member): not modelled.
- `UserInput` as the exported name of the user record, while components import `User`: one `User` record with the `UserInput` fields is used throughout.
- `CategoryBreakdown.Rows`: requires a non-zero total, because the source gives NaN or Infinity there.
- `Dashboard.MonthlyProgress`: requires a non-zero goal, for the same reason.
- `EmissionChart.MaxEmissions`: requires at least one point, because `Math.max()` of nothing is -Infinity in the source.
- `EmissionChart.Bars`: requires a non-zero maximum, because a zero maximum gives NaN heights.
- The detail lines of each recent activity (distance, amount, location) are rendering only. They are kept as fields of `ActivityLog.LoggedActivity`.
- The "active" badge and time-left text of a challenge: rendering only.

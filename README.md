# Recipe cost calculator — a Dafny model

This project models the core of a browser app that works out what a
recipe costs. Each ingredient records how much the recipe uses, in one
unit. It also records what a package costs and how big the package is,
in a possibly different unit of the same kind. The app converts between
units inside volume, weight and count. From that it derives the cost of
each ingredient, the recipe total and the cost per serving.

Around that arithmetic the model also covers:
- the page that adds, edits, duplicates and deletes ingredients;
- the enhanced ingredient card that reacts to unit edits;
- local storage of saved recipes;
- the CSV, Excel and Google Sheets exports;
- the animated cost summary;
- the onboarding tour;
- the analytics logger;
- the A/B test hook and its results page.

Modules follow the program's files:

| file | module | source |
|---|---|---|
| wrappers.dfy | `Wrappers` | shared `Option`, `Result`, JavaScript numbers (`Num`), `join` |
| units.dfy | `Units` | client/src/lib/unitConversions.ts |
| ingredient.dfy | `Ingredients` | client/src/lib/types.ts, client/src/components/IngredientCard.tsx |
| ingredient_card.dfy | `EnhancedCard` | client/src/components/EnhancedIngredientCard.tsx |
| home.dfy | `Home` | client/src/pages/Home.tsx |
| recipe_storage.dfy | `RecipeStorage` | client/src/lib/recipeStorage.ts |
| export_recipe.dfy | `ExportRecipe` | client/src/lib/exportRecipe.ts |
| export_to_sheets.dfy | `ExportToSheets` | client/src/lib/exportToSheets.ts |
| cost_summary.dfy | `CostSummary` | client/src/components/CostSummary.tsx |
| onboarding.dfy | `Onboarding` | client/src/components/OnboardingTutorial.tsx |
| event_logger.dfy | `EventLogger` | client/src/hooks/useEnhancedEventLogger.ts |
| ab_test.dfy | `ABTest` | client/src/hooks/useABTest.ts |
| ab_results.dfy | `ABTestResults` | client/src/pages/ABTestResults.tsx |

Modelling choices:

- **Numbers.** JavaScript numbers are `real`. A division the program may
  do by zero returns `Num`, which is `Finite(v)` or `NonFinite`
  (Infinity or NaN). So no precondition excludes a zero package size or
  zero servings.
- **Throws.** `convertUnit`'s throw is a `Result` failure. The page's
  `catch` is modelled explicitly as a fallback to a cost of 0.
- **State.** The React state of the page, the tour, the analytics logger,
  the A/B hook and the cost summary are classes. Their handlers are
  methods, and each method states the new state in terms of a function of
  the old one.
- **Storage and JSON.** `localStorage` and `sessionStorage` are values
  passed in and returned. JSON is a `Codec` (parse and stringify) given as a
  parameter. A write-then-read asks only that the one list being written
  round-trips (`RoundTrips`).
- **Other inputs.** `Date.now`, `Math.random`, `nanoid` and
  `toFixed`/`toString` are parameters.

Where the written design and the code differ, the model follows the code:
- the page has no "clear all" operation;
- a new ingredient's default unit is `cup` for both units.

## Model

| member | source | states |
|---|---|---|
| Wrappers.Div | client/src/lib/unitConversions.ts:74-75 | the quotient is finite exactly when the divisor is non-zero, and then times the divisor gives the dividend |
| Wrappers.Join | client/src/lib/exportRecipe.ts:54-56 | `Array.join`: an empty list gives "", one part gives that part |
| Units.FactorsPositive | client/src/lib/unitConversions.ts:29-43 | every conversion factor is positive; ml, g and unit have factor 1 |
| Units.TableAgreesWithCategory | client/src/lib/unitConversions.ts:13-26 | every unit is listed in exactly one category of the table, and `getUnitCategory` returns that category |
| Units.CategoryOfEachUnit | client/src/lib/unitConversions.ts:13-26 | tsp, tbsp, cup, ml and L are volume; oz, lb, g and kg are weight; unit is count |
| Units.CanConvertIsEquivalence | client/src/lib/unitConversions.ts:51-54 | convertibility is reflexive, symmetric and transitive, and means "same category" |
| Units.ConvertUnit | client/src/lib/unitConversions.ts:56-66 | fails with "different unit types", naming both units, exactly when they are not convertible; otherwise result × factor(to) = value × factor(from) |
| Units.ConvertIdentity | client/src/lib/unitConversions.ts:56-66 | converting a unit to itself returns the value |
| Units.ConvertRoundTrip | client/src/lib/unitConversions.ts:56-66 | converting there and back returns the original value |
| Units.ConvertComposes | client/src/lib/unitConversions.ts:56-66 | converting u→v→w equals converting u→w |
| Units.CalculateCostPerUnit | client/src/lib/unitConversions.ts:68-76 | finite exactly when the package size is non-zero; then cost per base unit × base size = package cost |
| Units.CalculateIngredientCost | client/src/lib/unitConversions.ts:78-97 | fails with "incompatible units", naming both units, exactly when they are not convertible; a success is finite exactly when the package size is non-zero |
| Units.IngredientCostIsShareOfPackage | client/src/lib/unitConversions.ts:78-97 | cost × package size in base units = used amount in base units × package cost |
| Units.IngredientCostViaCostPerUnit | client/src/lib/unitConversions.ts:68-97 | the ingredient cost is the used amount in base units times `calculateCostPerUnit` |
| Units.PastaExamples | client/src/lib/unitConversions.ts:78-97 | 8 oz of a 16 oz $1.49 package costs 0.745; 1 lb of it costs 1.49 |
| Units.FormatUnit | client/src/lib/unitConversions.ts:99-113 | every label is non-empty |
| Units.FormatUnitInjective | client/src/lib/unitConversions.ts:99-113 | no two units share a label |
| Units.DefaultUnit | client/src/components/EnhancedIngredientCard.tsx:132 | the default package unit of a category (cup, lb, unit) belongs to that category |
| Ingredients.Merge | client/src/pages/Home.tsx:41 | `{...ing, ...updates}`: each field is the patch's value when present, else the old one |
| Ingredients.MergeLaws | client/src/pages/Home.tsx:41 | merging a patch twice is merging it once; the empty patch changes nothing |
| Ingredients.RawPatch | client/src/components/IngredientCard.tsx:35-37 | a plain card edit never sets id, calculated cost or the manual flag |
| Ingredients.RawPatchSetsOnlyItsField | client/src/components/IngredientCard.tsx:35-37 | a plain card edit changes its own field and leaves every other field as it was |
| EnhancedCard.HandleChange | client/src/components/EnhancedIngredientCard.tsx:110-172 | sends the ingredient's id and the reaction patch; shows the category or incompatibility notice; logs completion exactly for truthy values, and a conversion error exactly for an incompatible package unit |
| EnhancedCard.PackageSizeEditMarksManual | client/src/components/EnhancedIngredientCard.tsx:119-121 | editing the package size stores it and marks it manually set |
| EnhancedCard.UsedUnitEditResets | client/src/components/EnhancedIngredientCard.tsx:124-148 | across categories the package unit becomes the new category's default, size 0 and flag cleared; within a category the package unit follows the used unit and the flag is cleared |
| EnhancedCard.QuantityEditAutoSyncs | client/src/components/EnhancedIngredientCard.tsx:151-153 | a quantity edit copies into the package size exactly when the size was not set manually |
| EnhancedCard.PackageUnitEditGuards | client/src/components/EnhancedIngredientCard.tsx:156-169 | an incompatible package unit is replaced by the used unit's category default; a compatible one is kept and marks the size manual |
| EnhancedCard.UnitEditsLeaveUnitsCompatible | client/src/components/EnhancedIngredientCard.tsx:124-169 | after any unit edit the two units are convertible |
| EnhancedCard.EditPatchKeepsIdentity | client/src/components/EnhancedIngredientCard.tsx:110-171 | the patch never touches the id or the calculated cost |
| EnhancedCard.EditPreservesCompatibility | client/src/components/EnhancedIngredientCard.tsx:110-171 | every card edit keeps convertible units convertible |
| EnhancedCard.TrimEmptyIff | client/src/components/EnhancedIngredientCard.tsx:52 | `trim()` gives "" exactly when every character is whitespace |
| EnhancedCard.ValidateFields | client/src/components/EnhancedIngredientCard.tsx:48-108 | name valid iff it has a non-whitespace character, each number valid iff > 0, and an error message iff invalid |
| EnhancedCard.CountValidBounds | client/src/components/EnhancedIngredientCard.tsx:191-192 | the valid count is at most the field count, and equal to it exactly when all are valid |
| EnhancedCard.CompletionPercentageMeaning | client/src/components/EnhancedIngredientCard.tsx:191-192 | completion is 25 per valid field, lies in [0, 100], and is 100 exactly when all fields are complete |
| Home.RecomputeCost | client/src/pages/Home.tsx:44-71 | the mismatch toast fires exactly when the inputs are positive and the units incompatible; the cost is 0 whenever an input is not positive or the units are incompatible |
| Home.RecomputeCostMeaning | client/src/pages/Home.tsx:44-71 | the cost is never negative; positive exactly when the inputs are positive and convertible, and then it is `calculateIngredientCost`'s value |
| Home.PositiveShare | client/src/pages/Home.tsx:45-63 | with positive inputs and convertible units the cost is finite, positive and satisfies the share equation |
| Home.GuardedCostReadsInputs | client/src/pages/Home.tsx:45-67 | the recomputed cost depends only on the five input fields |
| Home.UpdateAll | client/src/pages/Home.tsx:36-76 | same length; the ingredients with the id are merged and recomputed, the rest are unchanged |
| Home.UpdateOneIsConsistent | client/src/pages/Home.tsx:41-73 | an updated ingredient's cost is the recomputed cost of its own merged fields |
| Home.UpdatePreservesConsistency | client/src/pages/Home.tsx:36-76 | if every cost was up to date, it still is after an update |
| Home.SumCostsAppend | client/src/pages/Home.tsx:20 | the total of two lists is the sum of their totals |
| Home.TotalExample | client/src/pages/Home.tsx:20 | 0.75 + 0.28 + 1.20 totals 2.23 |
| Home.ConsistentTotalNonNegative | client/src/pages/Home.tsx:20 | a list of up-to-date costs never totals below 0 |
| Home.RemoveId | client/src/pages/Home.tsx:79 | the kept ingredients are exactly those with another id, and the list does not grow |
| Home.RemoveIdOrder | client/src/pages/Home.tsx:79 | `filter` keeps the survivors' relative order: any two kept ingredients come from positions of the old list in the same order |
| Home.RemoveIdPartition | client/src/pages/Home.tsx:79 | the kept and the removed ingredients together are the old list as a multiset: nothing is lost or duplicated |
| Home.RemoveIdTotal | client/src/pages/Home.tsx:78-81 | deleting lowers the total by the cost of the removed ingredients |
| Home.FindIndex | client/src/pages/Home.tsx:91 | the first index holding the id, or -1 when none does |
| Home.DuplicateAfterMeaning | client/src/pages/Home.tsx:83-96 | a found ingredient is copied with the fresh id right after the first match, and everything else keeps its place; with no match the list is unchanged |
| Home.DuplicatePreservesConsistency | client/src/pages/Home.tsx:83-96 | duplicating keeps every cost up to date |
| Home.UpdateAllTotal | client/src/pages/Home.tsx:36-76 | for any patch, even one that changes the id, the new total is the old total minus the matched ingredients' costs plus the costs recomputed for them |
| Home.EnhancedEditsNeverMismatch | client/src/components/EnhancedIngredientCard.tsx:124-171 | edits from the enhanced card never trigger the page's mismatch toast, and keep every ingredient's units compatible |
| Home.EnhancedEditCost | client/src/pages/Home.tsx:45-63 | after an enhanced-card edit, the cost is the unit-converted share whenever the inputs are positive |
| Home.RawEditCanMismatch | client/src/pages/Home.tsx:51-55 | a plain card edit of the package unit to lb on a cup ingredient does raise the toast and zeroes the cost |
| Home.HomePage.constructor | client/src/pages/Home.tsx:15-17 | no ingredients, 4 servings, 1 batch |
| Home.HomePage.AddIngredient | client/src/pages/Home.tsx:22-34 | appends the blank cup/cup ingredient; the total and cost consistency are kept |
| Home.HomePage.UpdateIngredient | client/src/pages/Home.tsx:36-76 | the list becomes `UpdateAll`; the toast shows exactly when an updated ingredient mismatches; consistency is kept |
| Home.HomePage.DeleteIngredient | client/src/pages/Home.tsx:78-81 | the list becomes the filter, and the total drops by the removed costs |
| Home.HomePage.DuplicateIngredient | client/src/pages/Home.tsx:83-96 | duplicates exactly when the id exists, inserting the copy after the first match |
| Home.HomePage.SeedOnMount | client/src/pages/Home.tsx:98-103 | an empty list gets one blank ingredient; a non-empty one is unchanged |
| RecipeStorage.GetSavedRecipes | client/src/lib/recipeStorage.ts:5-14 | nothing stored, an empty string or unparsable text give []; otherwise the parsed list |
| RecipeStorage.WriteThenRead | client/src/lib/recipeStorage.ts:5-27 | reading back a written list gives that list, whenever that list's JSON round-trips |
| RecipeStorage.IndexOfId | client/src/lib/recipeStorage.ts:19 | the first index with the id, or -1 when there is none |
| RecipeStorage.FindById | client/src/lib/recipeStorage.ts:47 | finds a recipe exactly when one has the id, and returns the first |
| RecipeStorage.RemoveById | client/src/lib/recipeStorage.ts:37 | keeps exactly the recipes with another id |
| RecipeStorage.UpsertShape | client/src/lib/recipeStorage.ts:19-25 | an existing id is replaced in place with the length and all other entries kept; a new id is appended |
| RecipeStorage.UpsertThenFind | client/src/lib/recipeStorage.ts:16-48 | after an upsert the id finds the saved recipe, and upserting again changes nothing |
| RecipeStorage.UpsertKeepsOthers | client/src/lib/recipeStorage.ts:16-32 | saving does not change what other ids find |
| RecipeStorage.RemoveByIdOrder | client/src/lib/recipeStorage.ts:37 | the kept recipes keep their relative order |
| RecipeStorage.RemoveThenFind | client/src/lib/recipeStorage.ts:34-43 | after a delete the id is not found |
| RecipeStorage.SaveRecipe | client/src/lib/recipeStorage.ts:16-32 | the stored list becomes the upsert of the old one, and the recipe can be found |
| RecipeStorage.DeleteRecipe | client/src/lib/recipeStorage.ts:34-43 | the stored list becomes the filtered old one, and the id is gone |
| RecipeStorage.GetRecipeById | client/src/lib/recipeStorage.ts:45-48 | returns a stored recipe with the id, and nothing exactly when no stored recipe has it |
| ExportRecipe.Title | client/src/lib/exportRecipe.ts:15 | the recipe name when non-empty, else "Recipe Cost Breakdown" |
| ExportRecipe.IngredientRows | client/src/lib/exportRecipe.ts:30-40 | one row per ingredient, in order |
| ExportRecipe.CsvRowsLayout | client/src/lib/exportRecipe.ts:15-51 | n + 10 rows: title, blank, 7-cell header, the ingredient rows (7 cells each) in order, blank, then the summary |
| ExportRecipe.SummaryFigures | client/src/lib/exportRecipe.ts:46-51 | the per-serving figure is total/servings when servings × batches ≠ 0 (batches cancel) and non-finite when either is 0 |
| ExportRecipe.BatchExample | client/src/lib/exportRecipe.ts:49-51 | 2.23 for 4 servings in 2 batches: 4.46 in all, 8 servings, 0.5575 each |
| ExportRecipe.QuoteAll | client/src/lib/exportRecipe.ts:55 | every cell of a row is wrapped in double quotes |
| ExportRecipe.CsvLines | client/src/lib/exportRecipe.ts:54-56 | one line per row |
| ExportRecipe.CsvLineShape | client/src/lib/exportRecipe.ts:54-56 | an empty row is an empty line; cells are quoted and joined by commas |
| ExportRecipe.QuotingIsAmbiguous | client/src/lib/exportRecipe.ts:55 | since quotes are not doubled, the cell `a","b` and the cells `a`, `b` give the same line |
| ExportRecipe.Sanitize | client/src/lib/exportRecipe.ts:65 | same length; letters and digits kept, every other character becomes '_' |
| ExportRecipe.SanitizeIdempotent | client/src/lib/exportRecipe.ts:65 | a sanitised name is all letters, digits and '_', and sanitising again changes nothing |
| ExportRecipe.ExportToCsv | client/src/lib/exportRecipe.ts:4-74 | the CSV text is the joined, quoted row layout, and the file name is the sanitised base plus "_cost_breakdown.csv" |
| ExportRecipe.CurrencyCells | client/src/lib/exportRecipe.ts:139-162 | formats exactly the existing cells in columns 3 and 6 of rows 3 .. n+2 and the numeric column-1 cells of rows n+4 .. n+9 |
| ExportRecipe.ExcelCurrencyCellsOfExport | client/src/lib/exportRecipe.ts:90-162 | on the export's own grid of n + 10 rows every targeted cell exists and every summary value is numeric |
| ExportRecipe.ExportToExcel | client/src/lib/exportRecipe.ts:76-169 | the grid mirrors the CSV layout with numbers kept; currency lands on both cost columns and all six summary values, servings and batches included; the file name ends in "_cost_breakdown.xlsx" |
| ExportToSheets.ExportToGoogleSheets | client/src/lib/exportToSheets.ts:3-81 | its own row loop yields exactly the CSV export's text and file name; it opens the Sheets creation page and returns true |
| CostSummary.CostPerServing | client/src/components/CostSummary.tsx:20-24 | total/servings when servings > 0, else 0 |
| CostSummary.Animate | client/src/components/CostSummary.tsx:27-46 | 20 frames; frame k is start + (k+1)/20 of the gap, and the last frame is exactly the target |
| CostSummary.FramesMonotone | client/src/components/CostSummary.tsx:28-41 | the frames move steadily from start towards target and never overshoot, in both directions |
| CostSummary.Display.constructor | client/src/components/CostSummary.tsx:19-22 | both figures start at their targets, with the per-serving guard |
| CostSummary.Display.OnTotalChange | client/src/components/CostSummary.tsx:27-46 | animates from the shown total to the new one, ends on it, and leaves the per-serving figure alone |
| CostSummary.Display.OnPerServingChange | client/src/components/CostSummary.tsx:48-67 | animates the per-serving figure to the guarded new value, and leaves the total alone |
| CostSummary.ServingsFromInput | client/src/components/CostSummary.tsx:105 | never 0: an unparsable entry or 0 becomes 1, any other integer passes through |
| Onboarding.Progress | client/src/components/OnboardingTutorial.tsx:110 | progress × 7 = (step + 1) × 100 |
| Onboarding.ProgressBounds | client/src/components/OnboardingTutorial.tsx:110 | progress is positive, strictly growing, at most 100, and 100 only on the last step |
| Onboarding.Next | client/src/components/OnboardingTutorial.tsx:92-98 | the next step below the last step; on the last step, completion |
| Onboarding.Previous | client/src/components/OnboardingTutorial.tsx:100-104 | one step back, staying on step 0 |
| Onboarding.NextPreviousInverse | client/src/components/OnboardingTutorial.tsx:92-104 | Previous undoes Next except on the last step; Next undoes Previous except on the first |
| Onboarding.TargetedSteps | client/src/components/OnboardingTutorial.tsx:25-73 | only the welcome and closing steps highlight nothing, and only they are centred |
| Onboarding.Tutorial.constructor | client/src/components/OnboardingTutorial.tsx:22 | the tour starts on step 0 |
| Onboarding.Tutorial.HandleNext | client/src/components/OnboardingTutorial.tsx:92-98 | advances below the last step; on it, signals completion and stays; the step stays within 0 .. 6 |
| Onboarding.Tutorial.HandlePrevious | client/src/components/OnboardingTutorial.tsx:100-104 | moves to `Previous` of the step |
| Onboarding.Tutorial.HandleSkip | client/src/components/OnboardingTutorial.tsx:106-108 | only signals the skip |
| Onboarding.Tutorial.ProgressNow | client/src/components/OnboardingTutorial.tsx:110 | in (0, 100], and 100 exactly on the last step |
| EventLogger.GetDeviceInfo | client/src/hooks/useEnhancedEventLogger.ts:19-36 | mobile below 768, tablet below 1024, desktop otherwise; touch iff a touch API exists; landscape iff width > height |
| EventLogger.DeviceClassMonotone | client/src/hooks/useEnhancedEventLogger.ts:24-34 | a wider viewport never gets a smaller device class, and swapping the sides of a landscape viewport makes it portrait |
| EventLogger.ClickUpdate | client/src/hooks/useEnhancedEventLogger.ts:300-313 | within 2000 ms of the first click the count grows and the window start is kept; otherwise the entry restarts at 1 and now |
| EventLogger.ClicksInOneWindow | client/src/hooks/useEnhancedEventLogger.ts:297-316 | clicks all landing within 2 s of the first are counted in one window that the first click opened |
| EventLogger.WindowExpires | client/src/hooks/useEnhancedEventLogger.ts:302-313 | a click 2 s or more after the window opened starts a new one |
| EventLogger.RapidClickReport | client/src/hooks/useEnhancedEventLogger.ts:264-316 | a report comes exactly when the click is in the window and the new count is at least 3; it carries that count, the window length in seconds, and frustration iff the count is at least 4 |
| EventLogger.BurstReports | client/src/hooks/useEnhancedEventLogger.ts:297-316 | in one burst the first two clicks report nothing, and the k-th click (k ≥ 3) reports k clicks, with frustration from the fourth |
| EventLogger.DiscoveryLogOnce | client/src/hooks/useEnhancedEventLogger.ts:159-172 | each feature is reported at most once, exactly when it was not already discovered |
| EventLogger.PreviousStep | client/src/hooks/useEnhancedEventLogger.ts:120 | the last step when there is one and it is non-empty, else "start" |
| EventLogger.JourneyStepExtends | client/src/hooks/useEnhancedEventLogger.ts:120-132 | a new step extends the path by " → " and the step, and becomes the next previous step |
| EventLogger.NewSessionId | client/src/hooks/useEnhancedEventLogger.ts:44 | a generated session id starts with "session_" and so is non-empty |
| EventLogger.Logger.constructor | client/src/hooks/useEnhancedEventLogger.ts:11-15 | no session, no steps, no discovered features, no click records, nothing sent |
| EventLogger.Logger.InitSession | client/src/hooks/useEnhancedEventLogger.ts:39-49 | a non-empty stored id is reused without writing; otherwise a new id is made and written; either way a session exists afterwards |
| EventLogger.Logger.BaseLog | client/src/hooks/useEnhancedEventLogger.ts:51-66 | sends exactly one event when a session exists, and nothing otherwise |
| EventLogger.Logger.LogRapidClicks | client/src/hooks/useEnhancedEventLogger.ts:264-276 | reports only counts of at least 3, with frustration iff at least 4 |
| EventLogger.Logger.TrackButtonClick | client/src/hooks/useEnhancedEventLogger.ts:297-316 | the button's record becomes `ClickUpdate`, and a rapid-click event is sent exactly when `RapidClickReport` gives one |
| EventLogger.Logger.LogFeatureDiscovered | client/src/hooks/useEnhancedEventLogger.ts:159-172 | remembers the feature; sends an event only the first time |
| EventLogger.FeatureUsedFields | client/src/hooks/useEnhancedEventLogger.ts:176-180 | the payload holds the feature name and every data entry; a `featureName` entry overrides the name and a `wasDiscovered` entry is overridden |
| EventLogger.Logger.LogFeatureUsed | client/src/hooks/useEnhancedEventLogger.ts:174-183 | sends the feature name with the caller's data, and whether the feature was discovered |
| EventLogger.Logger.LogFieldHesitation | client/src/hooks/useEnhancedEventLogger.ts:249-261 | hovers shorter than 3 s send nothing |
| EventLogger.Logger.LogJourneyStep | client/src/hooks/useEnhancedEventLogger.ts:118-136 | appends the step and reports the previous step and the whole path |
| EventLogger.Logger.LogDeviceInfo | client/src/hooks/useEnhancedEventLogger.ts:291-294 | reports the device classification |
| ABTest.ParseGroup | client/src/hooks/useABTest.ts:28-31 | only the exact strings "control" and "treatment" name a group |
| ABTest.Draw | client/src/hooks/useABTest.ts:34-35 | control exactly when the draw is below 0.5 |
| ABTest.Hook.constructor | client/src/hooks/useABTest.ts:20 | the hook reports control before its effect runs |
| ABTest.Hook.AssignGroup | client/src/hooks/useABTest.ts:22-48 | a stored group is adopted with no write and no tracking; otherwise the draw decides, the group is stored, and `ab_test_assigned` with the test name and the group is tracked iff the tracker exists |
| ABTest.Assign | client/src/hooks/useABTest.ts:26-38 | the written storage names the chosen group, and other keys are untouched |
| ABTest.AssignmentIsSticky | client/src/hooks/useABTest.ts:28-38 | once assigned, every later run gets the same group, whatever it draws, and writes nothing new |
| ABTest.EventName | client/src/hooks/useABTest.ts:58 | "ab_" + test name + "_" + event name |
| ABTest.ConversionPayload | client/src/hooks/useABTest.ts:58-61 | the payload has the group and every property; a `group` property overrides the test group |
| ABTest.TrackABTestEvent | client/src/hooks/useABTest.ts:56-62 | one call with that name and the `{group, ...properties}` payload when the tracker exists, none otherwise; the test name is only in the event name |
| ABTest.GroupCanBeOverridden | client/src/hooks/useABTest.ts:58-61 | a `group` property replaces the caller's group in the conversion payload |
| ABTest.EventNamesCanCollide | client/src/hooks/useABTest.ts:58 | different test and event names can give the same event name |
| ABTestResults.CalculateLift | client/src/pages/ABTestResults.tsx:86-89 | 0 when control is 0; otherwise lift × control = (treatment − control) × 100 |
| ABTestResults.LiftSign | client/src/pages/ABTestResults.tsx:86-89 | equal values give 0; for a positive control the lift is positive iff treatment is higher, negative iff lower |
| ABTestResults.LiftExamples | client/src/pages/ABTestResults.tsx:86-89 | doubling gives +100, halving gives −50, a zero control gives 0 |
| ABTestResults.LiftColour | client/src/pages/ABTestResults.tsx:144-168 | rate metrics are green iff lift > 0; the time metric is green iff lift < 0 |
| ABTestResults.LiftPrefix | client/src/pages/ABTestResults.tsx:145-169 | '+' exactly for a positive lift |
| ABTestResults.ColourMeaning | client/src/pages/ABTestResults.tsx:144-169 | for a positive control: green means treatment is higher (rates) or lower (time); no change is red; a '+' on the time metric is red |

## Left out

- Rendering, styling, the spotlight geometry, toasts' wording and the i18n layer: they are presentation, not logic.
- IEEE-754 rounding: arithmetic is over the reals. So 1 lb is exactly 16 oz, and the animation's repeated `prev + step` lands exactly on the closed form.
- `toFixed(2)` and `toString()`: they are parameters of the exports rather than defined. The model states the layout, not the digits.
- Infinity and NaN are one `NonFinite` value. The model does not tell them apart, nor follow them into later arithmetic.
- `EnhancedCard.CompletionPercentage`: modelled for the four-field record the validation effect always fills. The first render's empty record divides 0 by 0 (NaN), and that case is not modelled.
- `parseFloat(e.target.value) || 0` in the card's inputs: the model receives already-parsed numbers.
- `RecipeStorage.SaveRecipe`: a failing `setItem` (quota) is rethrown by the source; the model assumes the write succeeds. The same holds for `DeleteRecipe`.
- `RecipeStorage.GetSavedRecipes`: JSON that parses to something other than an array of recipes is outside the codec's domain.
- Timestamps: `sessionAge`, durations, `new Date().toISOString()` and the language fields of analytics events come from the clock and the page. The modelled events leave them out.
- The logger methods that only forward to `baseLog` are not modelled one by one, since they follow from `BaseLog`'s contract. These are field focus, blur, complete and error, journey complete and abandon, feature abandoned, the conversion events, the time events, form reset and the back button.
- ExportRecipe.Sanitize: the file-name regular expression works on UTF-16 code units, while Dafny's `char` is a Unicode scalar value. So a character outside the Basic Multilingual Plane becomes one '_' here, where the source writes two.
- `ExportRecipe.ExportToExcel`: the column widths, the workbook and sheet names, and the XLSX library's cell encoding are not modelled. A non-finite per-serving value counts as a numeric cell, since `typeof NaN` is "number".
- Downloads by Blob, object URL and a temporary link; `window.open`; the 500 ms `setTimeout`; and `setInterval` timing: these are browser effects. The model keeps the data, the opened address and the tick count.
- `CostSummary.Display.OnTotalChange`: an animation cut short by a newer change (its interval is cleared) is not modelled; each animation runs to completion.
- Analytics payload values (`Record<string, any>`) are strings in the model. The `properties` of `trackABTestEvent` and the `featureData` of `logFeatureUsed` are maps of strings, and an absent argument is the empty map.
- The analytics tracker (`umami`) and the server's log mutation are the `tracked` and `sent` sequences.
- ExportInstructionsDialog.tsx, the dialogs, the other pages, the server and the database schema are not part of this model.

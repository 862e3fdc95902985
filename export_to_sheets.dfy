/** `exportToGoogleSheets` of client/src/lib/exportToSheets.ts: its own
    copy of the CSV builder, followed by opening the Sheets page. */
module ExportToSheets {
  import opened Wrappers
  import opened Units
  import opened Ingredients
  import ExportRecipe

  /** The address opened after the download. */
  const SheetsCreateUrl := "https://docs.google.com/spreadsheets/create"

  /** Builds the rows exactly as the CSV export does, so the downloaded
      text and file name are the CSV export's; the Sheets page is opened
      (after a delay, not modelled) and the result is always true. */
  method ExportToGoogleSheets(fmt: ExportRecipe.Formatter, ings: seq<Ingredient>, totalCost: real,
                              servings: real, batchMultiplier: real, recipeName: Option<string>)
    returns (csv: string, fileName: string, openedUrl: string, ok: bool)
    ensures csv == ExportRecipe.CsvText(ExportRecipe.CsvRows(fmt, ings, totalCost, servings, batchMultiplier, recipeName))
    ensures fileName == ExportRecipe.CsvFileName(recipeName)
    ensures openedUrl == SheetsCreateUrl && ok
  {
    var rows: seq<seq<string>> := [];
    rows := rows + [[ExportRecipe.Title(recipeName)]];
    rows := rows + [[]];
    rows := rows + [ExportRecipe.Header];
    var i := 0;
    while i < |ings|
      invariant 0 <= i <= |ings|
      invariant |rows| == 3 + i
      invariant rows[..3] == [[ExportRecipe.Title(recipeName)], [], ExportRecipe.Header]
      invariant forall k :: 0 <= k < i ==> rows[3 + k] == ExportRecipe.IngredientRow(fmt, ings[k])
    {
      var ing := ings[i];
      rows := rows + [[ing.name, fmt.toString(ing.usedQuantity), FormatUnit(ing.usedUnit),
                       "$" + fmt.toFixed2(Finite(ing.packageCost)), fmt.toString(ing.packageSize),
                       FormatUnit(ing.packageUnit), "$" + fmt.toFixed2(Finite(ing.calculatedCost))]];
      i := i + 1;
    }
    assert rows == [[ExportRecipe.Title(recipeName)], [], ExportRecipe.Header] + ExportRecipe.IngredientRows(fmt, ings);
    rows := rows + [[]];
    rows := rows + [["Total Cost", "$" + fmt.toFixed2(Finite(totalCost))]];
    rows := rows + [["Servings Per Recipe", fmt.toString(servings)]];
    rows := rows + [["Batches to Make", fmt.toString(batchMultiplier)]];
    rows := rows + [["Total Servings", fmt.toString(servings * batchMultiplier)]];
    rows := rows + [["Total Cost (All Batches)", "$" + fmt.toFixed2(Finite(totalCost * batchMultiplier))]];
    rows := rows + [["Cost Per Serving", "$" + fmt.toFixed2(Div(totalCost * batchMultiplier, servings * batchMultiplier))]];
    assert rows == ExportRecipe.CsvRows(fmt, ings, totalCost, servings, batchMultiplier, recipeName);
    csv := ExportRecipe.CsvText(rows);
    var base := if recipeName.Some? && recipeName.value != "" then recipeName.value else "recipe";
    fileName := ExportRecipe.Sanitize(base) + "_cost_breakdown.csv";
    openedUrl := SheetsCreateUrl;
    ok := true;
  }
}

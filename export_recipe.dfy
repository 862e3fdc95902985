/** The row layouts of client/src/lib/exportRecipe.ts: the CSV export
    (rows, quoting and joining, file name) and the Excel export (the cell
    grid and which cells get the currency format). Number formatting is a
    parameter; the download itself is not modelled. */
module ExportRecipe {
  import opened Wrappers
  import opened Units
  import opened Ingredients

  /** `Number.prototype.toString` and `toFixed(2)`. */
  datatype Formatter = Formatter(toString: real -> string, toFixed2: Num -> string)

  const DefaultTitle := "Recipe Cost Breakdown"

  const Header: seq<string> := ["Ingredient Name", "Quantity Used", "Unit", "Package Cost",
                                "Package Size", "Package Unit", "Cost for Recipe"]

  /** `recipeName || 'Recipe Cost Breakdown'`: an absent or empty name gives
      the default. */
  function Title(recipeName: Option<string>): (t: string)
    ensures recipeName.Some? && recipeName.value != "" ==> t == recipeName.value
    ensures recipeName.None? || recipeName.value == "" ==> t == DefaultTitle
  {
    if recipeName.Some? && recipeName.value != "" then recipeName.value else DefaultTitle
  }

  function Money(fmt: Formatter, x: Num): string
  {
    "$" + fmt.toFixed2(x)
  }

  /** One CSV row per ingredient: name, quantity, unit, $cost, size,
      package unit, $calculated cost. */
  function IngredientRow(fmt: Formatter, ing: Ingredient): seq<string>
  {
    [ing.name, fmt.toString(ing.usedQuantity), FormatUnit(ing.usedUnit),
     Money(fmt, Finite(ing.packageCost)), fmt.toString(ing.packageSize),
     FormatUnit(ing.packageUnit), Money(fmt, Finite(ing.calculatedCost))]
  }

  /** The per-serving figure of the exports: scaled total over total
      servings, with no guard against zero servings. */
  function PerServing(totalCost: real, servings: real, batchMultiplier: real): Num
  {
    Div(totalCost * batchMultiplier, servings * batchMultiplier)
  }

  /** The six summary rows. */
  function SummaryRows(fmt: Formatter, totalCost: real, servings: real, batchMultiplier: real): seq<seq<string>>
  {
    [["Total Cost", Money(fmt, Finite(totalCost))],
     ["Servings Per Recipe", fmt.toString(servings)],
     ["Batches to Make", fmt.toString(batchMultiplier)],
     ["Total Servings", fmt.toString(servings * batchMultiplier)],
     ["Total Cost (All Batches)", Money(fmt, Finite(totalCost * batchMultiplier))],
     ["Cost Per Serving", Money(fmt, PerServing(totalCost, servings, batchMultiplier))]]
  }

  function IngredientRows(fmt: Formatter, ings: seq<Ingredient>): (rows: seq<seq<string>>)
    ensures |rows| == |ings|
    ensures forall i :: 0 <= i < |ings| ==> rows[i] == IngredientRow(fmt, ings[i])
  {
    seq(|ings|, i requires 0 <= i < |ings| => IngredientRow(fmt, ings[i]))
  }

  /** The CSV layout: title, empty row, header, one row per ingredient,
      empty row, six summary rows. */
  function CsvRows(fmt: Formatter, ings: seq<Ingredient>, totalCost: real, servings: real,
                   batchMultiplier: real, recipeName: Option<string>): seq<seq<string>>
  {
    [[Title(recipeName)], [], Header] + IngredientRows(fmt, ings) + [[]]
      + SummaryRows(fmt, totalCost, servings, batchMultiplier)
  }

  /** The layout has n + 10 rows, with the ingredients at rows 3 .. n+2 in
      order, 7 cells each, and the summary after one empty row. */
  lemma CsvRowsLayout(fmt: Formatter, ings: seq<Ingredient>, totalCost: real, servings: real,
                      batchMultiplier: real, recipeName: Option<string>)
    ensures var rows := CsvRows(fmt, ings, totalCost, servings, batchMultiplier, recipeName);
            var n := |ings|;
            |rows| == n + 10
            && rows[0] == [Title(recipeName)] && rows[1] == [] && rows[2] == Header && |Header| == 7
            && (forall i :: 0 <= i < n ==> rows[3 + i] == IngredientRow(fmt, ings[i]) && |rows[3 + i]| == 7)
            && rows[n + 3] == []
            && rows[n + 4..] == SummaryRows(fmt, totalCost, servings, batchMultiplier)
  {
  }

  /** Total Servings is servings times batches, the scaled total is total
      times batches, and the per-serving figure is their quotient: the
      batches cancel, and zero servings give a non-finite figure. */
  lemma SummaryFigures(totalCost: real, servings: real, batchMultiplier: real)
    ensures servings * batchMultiplier != 0.0 ==>
              PerServing(totalCost, servings, batchMultiplier) == Finite(totalCost / servings)
    ensures servings == 0.0 || batchMultiplier == 0.0 ==>
              PerServing(totalCost, servings, batchMultiplier) == NonFinite
  {
    if servings * batchMultiplier != 0.0 {
      var q := (totalCost * batchMultiplier) / (servings * batchMultiplier);
      assert q * (servings * batchMultiplier) == totalCost * batchMultiplier;
      assert batchMultiplier != 0.0 && servings != 0.0;
      assert (q * servings) * batchMultiplier == totalCost * batchMultiplier;
      assert q * servings == totalCost;
    }
  }

  /** Scaling the example recipe: a total of 2.23 for 4 servings in 2
      batches costs 4.46 in all, for 8 servings, at 0.5575 each. */
  lemma BatchExample()
    ensures 2.23 * 2.0 == 4.46 && 4.0 * 2.0 == 8.0
    ensures PerServing(2.23, 4.0, 2.0) == Finite(0.5575)
  {
  }

  /** `"${cell}"`: the cell between double quotes, embedded quotes kept as
      they are. */
  function Quote(cell: string): string
  {
    "\"" + cell + "\""
  }

  function QuoteAll(row: seq<string>): (q: seq<string>)
    ensures |q| == |row| && forall i :: 0 <= i < |row| ==> q[i] == Quote(row[i])
  {
    seq(|row|, i requires 0 <= i < |row| => Quote(row[i]))
  }

  function CsvLine(row: seq<string>): string
  {
    Join(QuoteAll(row), ",")
  }

  function CsvLines(rows: seq<seq<string>>): (ls: seq<string>)
    ensures |ls| == |rows| && forall i :: 0 <= i < |rows| ==> ls[i] == CsvLine(rows[i])
  {
    seq(|rows|, i requires 0 <= i < |rows| => CsvLine(rows[i]))
  }

  /** Cells joined with ',' and rows with a line feed. */
  function CsvText(rows: seq<seq<string>>): string
  {
    Join(CsvLines(rows), "\n")
  }

  /** Every cell is wrapped in quotes: a one-cell row is the quoted cell,
      and an empty row is an empty line. */
  lemma CsvLineShape(cell: string, more: seq<string>)
    ensures CsvLine([]) == ""
    ensures CsvLine([cell]) == "\"" + cell + "\""
    ensures CsvLine(more + [cell]) == if more == [] then Quote(cell) else CsvLine(more) + ",\"" + cell + "\""
  {
    assert QuoteAll(more + [cell])[..|more|] == QuoteAll(more);
  }

  /** Embedded quotes are not doubled, so two different rows can give the
      same line: the one cell `a","b` and the two cells `a` and `b`. */
  lemma QuotingIsAmbiguous()
    ensures CsvLine(["a\",\"b"]) == CsvLine(["a", "b"])
  {
    CsvLineShape("b", ["a"]);
    CsvLineShape("a", []);
    CsvLineShape("a\",\"b", []);
  }

  predicate IsAsciiAlphanumeric(c: char)
  {
    ('a' <= c <= 'z') || ('A' <= c <= 'Z') || ('0' <= c <= '9')
  }

  /** `.replace(/[^a-z0-9]/gi, '_')`. */
  function Sanitize(s: string): (t: string)
    ensures |t| == |s|
    ensures forall i :: 0 <= i < |s| ==> t[i] == if IsAsciiAlphanumeric(s[i]) then s[i] else '_'
  {
    if s == [] then [] else Sanitize(s[..|s| - 1]) + [if IsAsciiAlphanumeric(s[|s| - 1]) then s[|s| - 1] else '_']
  }

  /** A sanitised name is all letters, digits and '_', and sanitising it
      again changes nothing. */
  lemma SanitizeIdempotent(s: string)
    ensures forall i :: 0 <= i < |Sanitize(s)| ==> IsAsciiAlphanumeric(Sanitize(s)[i]) || Sanitize(s)[i] == '_'
    ensures Sanitize(Sanitize(s)) == Sanitize(s)
  {
  }

  function BaseName(recipeName: Option<string>): string
  {
    Sanitize(if recipeName.Some? && recipeName.value != "" then recipeName.value else "recipe")
  }

  function CsvFileName(recipeName: Option<string>): string
  {
    BaseName(recipeName) + "_cost_breakdown.csv"
  }

  /** `exportToCSV`: fills `rows` by pushes and a loop over the ingredients,
      then joins them; returns the CSV text and the download file name. */
  method ExportToCsv(fmt: Formatter, ings: seq<Ingredient>, totalCost: real, servings: real,
                     batchMultiplier: real, recipeName: Option<string>)
    returns (csv: string, fileName: string)
    ensures csv == CsvText(CsvRows(fmt, ings, totalCost, servings, batchMultiplier, recipeName))
    ensures |fileName| == |BaseName(recipeName)| + |"_cost_breakdown.csv"|
    ensures fileName == CsvFileName(recipeName)
  {
    var rows: seq<seq<string>> := [];
    rows := rows + [[Title(recipeName)]];
    rows := rows + [[]];
    rows := rows + [Header];
    for i := 0 to |ings|
      invariant rows == [[Title(recipeName)], [], Header] + IngredientRows(fmt, ings[..i])
    {
      assert IngredientRows(fmt, ings[..i + 1]) == IngredientRows(fmt, ings[..i]) + [IngredientRow(fmt, ings[i])];
      rows := rows + [IngredientRow(fmt, ings[i])];
    }
    assert ings[..|ings|] == ings;
    rows := rows + [[]];
    rows := rows + SummaryRows(fmt, totalCost, servings, batchMultiplier);
    csv := CsvText(rows);
    fileName := CsvFileName(recipeName);
  }

  // ----- Excel -----

  /** A cell of the array-of-arrays given to the sheet: text or a number. */
  datatype Cell = StrCell(s: string) | NumCell(n: Num)

  function ExcelIngredientRow(ing: Ingredient): seq<Cell>
  {
    [StrCell(ing.name), NumCell(Finite(ing.usedQuantity)), StrCell(FormatUnit(ing.usedUnit)),
     NumCell(Finite(ing.packageCost)), NumCell(Finite(ing.packageSize)),
     StrCell(FormatUnit(ing.packageUnit)), NumCell(Finite(ing.calculatedCost))]
  }

  /** The `data` grid of `exportToExcel`: the CSV layout with numbers kept
      as numbers. */
  function ExcelData(ings: seq<Ingredient>, totalCost: real, servings: real, batchMultiplier: real,
                     recipeName: Option<string>): seq<seq<Cell>>
  {
    [[StrCell(Title(recipeName))], [], seq(7, i requires 0 <= i < 7 => StrCell(Header[i]))]
      + seq(|ings|, i requires 0 <= i < |ings| => ExcelIngredientRow(ings[i]))
      + [[]]
      + [[StrCell("Total Cost"), NumCell(Finite(totalCost))],
         [StrCell("Servings Per Recipe"), NumCell(Finite(servings))],
         [StrCell("Batches to Make"), NumCell(Finite(batchMultiplier))],
         [StrCell("Total Servings"), NumCell(Finite(servings * batchMultiplier))],
         [StrCell("Total Cost (All Batches)"), NumCell(Finite(totalCost * batchMultiplier))],
         [StrCell("Cost Per Serving"), NumCell(PerServing(totalCost, servings, batchMultiplier))]]
  }

  /** `ws[cell]` exists: `aoa_to_sheet` makes a cell for every entry. */
  predicate HasCell(data: seq<seq<Cell>>, r: int, c: int)
  {
    0 <= r < |data| && 0 <= c < |data[r]|
  }

  /** The formatting loops: columns 3 and 6 of the ingredient rows, then
      every numeric column-1 cell of the six rows after the empty row. */
  method CurrencyCells(data: seq<seq<Cell>>, n: nat) returns (formatted: set<(int, int)>)
    ensures forall r, c :: (r, c) in formatted <==>
              HasCell(data, r, c) &&
              ((3 <= r < 3 + n && (c == 3 || c == 6))
               || (n + 4 <= r < n + 10 && c == 1 && data[r][c].NumCell?))
  {
    formatted := {};
    var startRow := 3;
    var endRow := startRow + n;
    for i := startRow to endRow
      invariant forall r, c :: (r, c) in formatted <==>
                  HasCell(data, r, c) && 3 <= r < i && (c == 3 || c == 6)
    {
      if HasCell(data, i, 3) {
        formatted := formatted + {(i, 3)};
      }
      if HasCell(data, i, 6) {
        formatted := formatted + {(i, 6)};
      }
    }
    var summaryStartRow := endRow + 1;
    for i := 0 to 6
      invariant forall r, c :: (r, c) in formatted <==>
                  HasCell(data, r, c) &&
                  ((3 <= r < 3 + n && (c == 3 || c == 6))
                   || (n + 4 <= r < n + 4 + i && c == 1 && data[r][c].NumCell?))
    {
      if HasCell(data, summaryStartRow + i, 1) && data[summaryStartRow + i][1].NumCell? {
        formatted := formatted + {(summaryStartRow + i, 1)};
      }
    }
  }

  /** On the export's own grid every targeted cell exists, so the currency
      format lands on both cost columns of every ingredient row and on all
      six summary values, servings and batch counts included. */
  lemma ExcelCurrencyCellsOfExport(ings: seq<Ingredient>, totalCost: real, servings: real,
                                   batchMultiplier: real, recipeName: Option<string>, r: int, c: int)
    ensures var data := ExcelData(ings, totalCost, servings, batchMultiplier, recipeName);
            var n := |ings|;
            |data| == n + 10
            && (HasCell(data, r, c) &&
                ((3 <= r < 3 + n && (c == 3 || c == 6)) || (n + 4 <= r < n + 10 && c == 1 && data[r][c].NumCell?))
                <==>
                (3 <= r < 3 + n && (c == 3 || c == 6)) || (n + 4 <= r < n + 10 && c == 1))
  {
  }

  /** `exportToExcel`: the grid, the formatted cells and the file name. */
  method ExportToExcel(ings: seq<Ingredient>, totalCost: real, servings: real, batchMultiplier: real,
                       recipeName: Option<string>)
    returns (data: seq<seq<Cell>>, formatted: set<(int, int)>, fileName: string)
    ensures data == ExcelData(ings, totalCost, servings, batchMultiplier, recipeName)
    ensures forall r, c :: (r, c) in formatted <==>
              (3 <= r < 3 + |ings| && (c == 3 || c == 6)) || (|ings| + 4 <= r < |ings| + 10 && c == 1)
    ensures fileName == BaseName(recipeName) + "_cost_breakdown.xlsx"
  {
    data := ExcelData(ings, totalCost, servings, batchMultiplier, recipeName);
    formatted := CurrencyCells(data, |ings|);
    forall r, c ensures (r, c) in formatted <==>
        (3 <= r < 3 + |ings| && (c == 3 || c == 6)) || (|ings| + 4 <= r < |ings| + 10 && c == 1)
    {
      ExcelCurrencyCellsOfExport(ings, totalCost, servings, batchMultiplier, recipeName, r, c);
    }
    fileName := BaseName(recipeName) + "_cost_breakdown.xlsx";
  }
}

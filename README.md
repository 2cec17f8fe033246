# Fuel consumption reconciliation, modelled in Dafny

`process_file` in `Fuel_Error_finder_OVD.py` reconciles a vessel's fuel readings with a
bunker report. The readings are a table, one row per noon or event report. Each row has
Date_UTC, Time_UTC, remaining-on-board (ROB) soundings and equipment consumption figures.
The report lists the bunker deliveries: fuel type, delivery date and time, and mass.

The engine does four things:

1. It combines each reading's date and time into a timestamp. A parse failure gives no timestamp.
2. It discovers the fuel codes that the column names announce. A code gets a sheet only if
   the table has a `<code>_ROB` column.
3. It matches deliveries to readings with two greedy passes over one shared bunker table.
   Each match removes the delivery from that table.
   - Per fuel: a delivery of that fuel, the first with the minimal gap, only if the gap is
     at most 12 hours. Its mass is written into the row's Bunkers.
   - The BDN pass, after all fuel sheets: the blend fuels HVO, FAME and Bio within
     12 hours. The mass is added with `+=` to the row's Bunkers.
4. Every sheet gets a spreadsheet ledger beside its data:
   - a ROB_Difference formula column;
   - a TOTALS block with one SUM per consumption column, then TOTAL CONSUMPTION,
     TOTAL BUNKERED, TOTAL CONSUMED (ROB) and MISSING.

The model is organised in modules:

- `Timestamps`: the combination of a date and a time.
- `Strings`, `Sequences`: Python's `split`, `endswith` and `in`, and filtering.
- `FuelColumns`: fuel-code detection and column selection.
- `Cells`, `Tables`: cells and the readings table.
- `Matching`: the two passes as specification functions over an immutable pool;
  `MatchingProofs` and `MatchingPassProofs` hold the lemmas about them.
- `DeliveryPools`: the class whose loops run the passes, dropping deliveries in place.
- `Ledger`, `LedgerProofs`: the formulas and the values Excel gives them.
- `ColumnLetters`: the `chr(65 + idx)` column names.
- `Reconcile`: sheets and the plan of sheets, as functions.
- `EngineSteps` and `Engine`: the imperative engine and the steps of its proof.

Units: a timestamp is a count of seconds, delivery timestamps may carry seconds, and the
12-hour window is 43200 s. Masses are integers, because the engine only adds and subtracts
them; the comparisons at lines 101 and 254 are on time differences.

Behaviour a reader may not expect (the model follows the code):

- The comment at line 151 shows `=IFERROR(C2 - C3 + D3, 0)`, which suggests spreadsheet
  row 2. But `write_formula` at lines 152-156 takes a zero-based row, so that formula lands
  on spreadsheet row 3, and every ROB_Difference formula sits one row lower than its
  references suggest:
  - data row 0 has no formula;
  - data row j ≥ 1 gets ROB[j−1] − ROB[j] + Bunkers[j];
  - one more formula below the data reads the last ROB and the empty cells under it, so
    it holds the last ROB (0 only when that ROB is 0, empty, or text through IFERROR).

  That extra formula lies outside the summed range, so TOTAL CONSUMED (ROB) telescopes to
  ROB[0] − ROB[n−1] + Σ_{j≥1} Bunkers[j].
- The sheets written before an exception stay in the workbook: the `with` block at line 60
  closes the writer on the way out, and the exception is caught at lines 395-396. The model
  returns those sheets as `Raised(saved)`.
- Two pandas corner cases are modelled as what happens, not excluded by preconditions:
  - `idxmin` over deliveries of a fuel that all lack a timestamp raises;
  - TOTAL CONSUMPTION over no consumption columns sums a range that holds its own cell,
    which is a circular reference.

## Model

| member | source | states |
|---|---|---|
| Timestamps.Combine | Fuel_Error_finder_OVD.py:41-46 | a key exists iff both the date and the time parsed; the key then lies on that day, at that minute of the day, on a whole minute |
| Timestamps.Stamps | Fuel_Error_finder_OVD.py:41-46 | the Timestamp column has one key per row, and each row's key exists iff that row's date and time parsed, and then denotes them |
| Timestamps.CombineIsChronological | Fuel_Error_finder_OVD.py:41-46 | keys order readings by day, then by time of day (both directions), so gaps between keys are real time differences |
| Strings.Split | Fuel_Error_finder_OVD.py:52 | Python's split on one character: one part more than there are separators, no part contains the separator, and joining the parts gives back the name |
| FuelColumns.DetectedCodeIsAnnounced | Fuel_Error_finder_OVD.py:51-54 | a column contributes a code iff the code is one of the nine and the name has at least three `_`-separated parts, the last being the code (both directions) |
| FuelColumns.DetectFuelTypes | Fuel_Error_finder_OVD.py:49-54 | the detection loop yields exactly the vocabulary codes that some column announces |
| FuelColumns.DetectedSetAppend | Fuel_Error_finder_OVD.py:51-54 | one more column adds its own code and nothing else |
| FuelColumns.DetectedSet | Fuel_Error_finder_OVD.py:49-54 | only the nine vocabulary codes are ever detected |
| FuelColumns.FuelDataColumns | Fuel_Error_finder_OVD.py:72 | the fuel's columns are exactly those whose raw name ends with the code string (a suffix test, not a part test), in column order |
| FuelColumns.FuelSheetShape | Fuel_Error_finder_OVD.py:72-80 | the date, time, ROB and Bunkers columns are never among the fuel's own columns, so each occurs once; the sheet's consumption columns are the fuel's own columns containing `_Consumption_`; distinct input columns give distinct sheet columns |
| FuelColumns.AddedColumnsDoNotEndWithCode | Fuel_Error_finder_OVD.py:72-80 | no code is a suffix of Date_UTC, Time_UTC, `<code>_ROB` or Bunkers, which is why the ROB column is appended rather than selected |
| FuelColumns.Marked | Fuel_Error_finder_OVD.py:171 | the consumption columns are exactly the columns containing the marker, in sheet order |
| FuelColumns.BdnConsumptionColumns | Fuel_Error_finder_OVD.py:339 | the BDN sheet sums exactly its six equipment columns, in order |
| FuelColumns.BdnMarkedColumnsAreTheSix | Fuel_Error_finder_OVD.py:269-339 | of the nine BDN columns, the six equipment columns contain "Consumption" and BDN_ROB, Bunkers and ROB_Fuel_BDN do not |
| FuelColumns.BlendFuelsAreNotFuelCodes | Fuel_Error_finder_OVD.py:49 | the blend vocabulary shares no code with the fuel vocabulary, so no delivery is eligible for both kinds of pass |
| Tables.EnsureColumns | Fuel_Error_finder_OVD.py:240-277 | every required column exists afterwards; existing columns keep their place and cells; added ones follow in the given order and hold 0 on every row |
| Matching.ClosestIndexSpec | Fuel_Error_finder_OVD.py:98 | idxmin finds a position iff there is a candidate; it holds a candidate whose gap is minimal, strictly smaller than that of every earlier candidate (first on ties) |
| Matching.FuelChoiceSpec | Fuel_Error_finder_OVD.py:87-102 | per-fuel choice: it raises iff the row is timed and every remaining delivery of the fuel is untimed; otherwise a match happens iff some delivery of the fuel is within 12 h (exactly 12 h matches), and the match is the first such delivery with minimal gap |
| Matching.WithinTheClosest | Fuel_Error_finder_OVD.py:98-102 | when the closest delivery of a fuel is beyond 12 h, so is every other, so skipping loses no match |
| Matching.BlendChoiceSpec | Fuel_Error_finder_OVD.py:248-260 | BDN choice: a delivery is chosen iff the row is timed and a blend delivery is within 12 h; the choice is the first such with minimal gap |
| Matching.Drop | Fuel_Error_finder_OVD.py:105 | drop by label removes exactly the deliveries with that label |
| Matching.OfFuels | Fuel_Error_finder_OVD.py:91 | the restriction keeps exactly the deliveries of the given fuels |
| MatchingProofs.DropRemovesOne | Fuel_Error_finder_OVD.py:105 | with unique labels, dropping a matched delivery removes exactly that one delivery (as a multiset) |
| MatchingProofs.DropOtherFuel | Fuel_Error_finder_OVD.py:105 | dropping a delivery leaves the deliveries of every other fuel unchanged |
| MatchingProofs.FuelChoiceIsWindowedClosest | Fuel_Error_finder_OVD.py:91-102 | when it does not raise, the per-fuel choice matches iff the windowed closest delivery exists, and is that delivery |
| MatchingProofs.FuelChoiceOfFuels | Fuel_Error_finder_OVD.py:91 | the per-fuel choice depends only on the deliveries of that fuel |
| MatchingProofs.BlendChoiceOfFuels | Fuel_Error_finder_OVD.py:252-255 | the BDN choice depends only on the blend deliveries |
| MatchingPassProofs.FuelPassConserves | Fuel_Error_finder_OVD.py:86-105 | the deliveries left plus the deliveries attributed are exactly the pool the pass started with |
| MatchingPassProofs.FuelPassAttributes | Fuel_Error_finder_OVD.py:86-105 | each attribution is to a timed row, of the fuel, within 12 h; rows strictly increase, so each row gets at most one delivery; each row's Bunkers is the mass attributed to it, 0 when none |
| MatchingPassProofs.FuelPassSum | Fuel_Error_finder_OVD.py:80-104 | the Bunkers column of a fuel sums to the total mass of the deliveries its pass removed |
| MatchingPassProofs.FuelPassSkipsUntimedRows | Fuel_Error_finder_OVD.py:87-89 | a row without a timestamp gets no delivery and keeps Bunkers 0 |
| MatchingPassProofs.FuelPassKeepsOtherFuels | Fuel_Error_finder_OVD.py:91-105 | a per-fuel pass never changes the deliveries of any other fuel |
| MatchingPassProofs.FuelPassOnOwnFuel | Fuel_Error_finder_OVD.py:64-105 | two pools with the same deliveries of a fuel give the same outcome, Bunkers, attributions and remaining deliveries of that fuel, so the order of the fuel loop cannot change a sheet |
| MatchingPassProofs.FuelPassStaysRaised | Fuel_Error_finder_OVD.py:98 | once idxmin has raised, the pass has raised |
| MatchingPassProofs.BlendPassConserves | Fuel_Error_finder_OVD.py:247-266 | the BDN pass conserves the pool: left plus attributed is the pool it started with |
| MatchingPassProofs.BlendPassAttributes | Fuel_Error_finder_OVD.py:247-266 | each BDN attribution is to a timed row, of a blend fuel, within 12 h, at most one per row; a row's Bunkers is its starting cell plus the attributed mass, and is unchanged otherwise |
| MatchingPassProofs.BlendPassSum | Fuel_Error_finder_OVD.py:241-266 | over an all-number Bunkers column the BDN pass never raises, and the column's sum grows by exactly the mass removed |
| MatchingPassProofs.BlendPassKeepsOtherFuels | Fuel_Error_finder_OVD.py:253-266 | the BDN pass never changes the deliveries of a non-blend fuel |
| MatchingPassProofs.BlendPassOnBlendFuels | Fuel_Error_finder_OVD.py:252-266 | the BDN pass depends only on the blend deliveries of its pool |
| MatchingPassProofs.UniqueIdsHaveNoRepeats | Fuel_Error_finder_OVD.py:105 | with unique labels, no delivery occurs twice in the pool |
| DeliveryPools.DeliveryPool.constructor | Fuel_Error_finder_OVD.py:17 | the table starts as the report read, with nothing used |
| DeliveryPools.DeliveryPool.MatchFuel | Fuel_Error_finder_OVD.py:86-105 | the loop succeeds iff the specified per-fuel pass does not raise; it then returns exactly that pass's Bunkers column, leaves exactly that pass's pool, and the matched deliveries join the used ones, keeping nothing lost and nothing used twice |
| DeliveryPools.DeliveryPool.MatchBlend | Fuel_Error_finder_OVD.py:247-266 | the same for the BDN loop, starting from the given Bunkers column |
| Ledger.SumOfDataRange | Fuel_Error_finder_OVD.py:185 | SUM over rows 2 .. n+1 of a column is the sum of its n data cells, also for n = 0 |
| Ledger.IfErrorDifference | Fuel_Error_finder_OVD.py:155 | IFERROR(x−y+z, 0) is the difference with empty cells as 0, and 0 when any operand is text |
| Ledger.DifferenceColumnRows | Fuel_Error_finder_OVD.py:150-156 | ROB_Difference holds nothing on data row 0, ROB[j−1] − ROB[j] + Bunkers[j] on data row j ≥ 1, and one more formula below the data that holds the last ROB, read against the empty cells under it |
| Ledger.WriteDifferences | Fuel_Error_finder_OVD.py:150-156 | the write_formula loop produces the ROB_Difference column |
| Ledger.RobTelescopes | Fuel_Error_finder_OVD.py:204-210 | over numeric ROB and Bunkers, TOTAL CONSUMED (ROB) equals the first ROB less the last, plus the Bunkers after the first row |
| Ledger.DifferencesTelescope | Fuel_Error_finder_OVD.py:150-156 | the ROB_Difference cells of the first k data rows telescope |
| Ledger.NoRowsConsumeNothing | Fuel_Error_finder_OVD.py:204-210 | a sheet without data rows consumes nothing by ROB |
| Ledger.WriteConsumptionSums | Fuel_Error_finder_OVD.py:177-187 | one label and one SUM per consumption column on rows 2 .. m+1, after which row_index is m + 2 |
| Ledger.WriteFuelTotals | Fuel_Error_finder_OVD.py:170-222 | the row arithmetic of the fuel block gives the block laid out at m+2, m+4, m+6 and m+8 |
| Ledger.WriteBdnTotals | Fuel_Error_finder_OVD.py:338-391 | the row arithmetic of the BDN block gives the block laid out at m+2, m+4, m+6 and, last, m+3 |
| LedgerProofs.ConsumptionValues | Fuel_Error_finder_OVD.py:177-187 | each consumption row evaluates to the sum of its column's data |
| LedgerProofs.ConsumptionTotal | Fuel_Error_finder_OVD.py:189-194 | the SUM over the consumption rows is the sum of all consumption columns |
| LedgerProofs.BlockTotalConsumption | Fuel_Error_finder_OVD.py:189-194 | TOTAL CONSUMPTION is the sum of the column sums, or a circular reference when there are no consumption columns |
| LedgerProofs.FuelTotalsValues | Fuel_Error_finder_OVD.py:170-222 | fuel sheet values: each consumption SUM, TOTAL CONSUMPTION, TOTAL BUNKERED = Σ Bunkers, TOTAL CONSUMED (ROB) = Σ ROB_Difference over the data, and MISSING = TOTAL CONSUMPTION − TOTAL CONSUMED (ROB), circular without consumption columns |
| LedgerProofs.FuelMissingValue | Fuel_Error_finder_OVD.py:212-222 | fuel MISSING is the difference of the cells of TOTAL CONSUMPTION and TOTAL CONSUMED (ROB) |
| LedgerProofs.BdnTotalsValues | Fuel_Error_finder_OVD.py:338-391 | the same values on the BDN block, with TOTAL BUNKERED written last |
| LedgerProofs.BdnMissingValue | Fuel_Error_finder_OVD.py:369-380 | BDN MISSING is the difference of the cells of TOTAL CONSUMPTION and TOTAL CONSUMED (ROB) |
| LedgerProofs.FuelTotalsLayout | Fuel_Error_finder_OVD.py:170-222 | the fuel block writes labels on rows 2 .. m+1, then m+2, m+4, m+6, m+8; every row once; no formula reads a later cell; only an empty consumption list makes a formula read its own cell |
| LedgerProofs.BdnTotalsLayout | Fuel_Error_finder_OVD.py:338-391 | the BDN block writes rows 2 .. m+1, m+2, m+4, m+6 and last m+3; every row once; TOTAL BUNKERED, though written last, is read by nothing before it |
| LedgerProofs.FuelMissingTelescopes | Fuel_Error_finder_OVD.py:204-222 | over a numeric ledger, fuel MISSING is the reported consumption less (first ROB − last ROB + Bunkers after the first row) |
| LedgerProofs.BdnMissingTelescopes | Fuel_Error_finder_OVD.py:361-380 | the same on the BDN sheet |
| ColumnLetters.ColumnName | Fuel_Error_finder_OVD.py:139 | Excel's name of a column is made of letters A–Z, with one letter exactly for the first 26 columns |
| ColumnLetters.ColumnNameRoundTrip | Fuel_Error_finder_OVD.py:139 | a column name denotes the column it names |
| ColumnLetters.ColumnIndexRoundTrip | Fuel_Error_finder_OVD.py:139 | every column name is the name of the column it denotes |
| ColumnLetters.ColumnNamesAreDistinct | Fuel_Error_finder_OVD.py:139 | distinct columns get distinct names |
| ColumnLetters.AsWrittenAgreesBeforeZ | Fuel_Error_finder_OVD.py:134 | up to column Z the source's naming is Excel's |
| ColumnLetters.AsWrittenBreaksAfterZ | Fuel_Error_finder_OVD.py:134-143 | column 26 is AA, but the source names it "[" |
| ColumnLetters.AsWrittenIsNoNamePastZ | Fuel_Error_finder_OVD.py:134-143 | past Z, the source's names are never column names |
| ColumnLetters.ManyFuelColumnsOutgrowLetters | Fuel_Error_finder_OVD.py:134-193 | with 19 or more columns of one fuel, the TOTALS value column is column f + 7 ≥ 26, and the source addresses it by a name that is no column |
| Reconcile.Processed | Fuel_Error_finder_OVD.py:64-69 | the fuels of the loop that get a sheet are exactly those with a ROB column |
| Reconcile.ProcessedIsSubsequence | Fuel_Error_finder_OVD.py:64-69 | they come in loop order |
| Reconcile.PlanSheets | Fuel_Error_finder_OVD.py:63-290 | the planned sheets are one per detected fuel with a ROB column, each once, in the loop's order, named after the fuel, followed by the BDN sheet |
| Reconcile.WriteFuelSheet | Fuel_Error_finder_OVD.py:108-222 | writing a fuel sheet yields its specified columns, ROB_Difference and TOTALS block |
| Reconcile.FuelSheetParts | Fuel_Error_finder_OVD.py:71-222 | a fuel sheet ends with its Bunkers column, and its TOTALS block is over the fuel's `_Consumption_` columns, its ROB column and Bunkers |
| Reconcile.FuelSheetBunkers | Fuel_Error_finder_OVD.py:80-202 | in a fuel sheet, each row's Bunkers is the mass of the delivery attributed to it (0 when none); every attribution is of that fuel, to a timed row, within 12 h; TOTAL BUNKERED evaluates to the sum of the attributed masses |
| Reconcile.WriteBdnSheet | Fuel_Error_finder_OVD.py:279-391 | writing the BDN sheet yields its specified ROB_Difference and TOTALS block |
| Reconcile.BdnStartsFromZeros | Fuel_Error_finder_OVD.py:240-242 | without a Bunkers column the BDN pass starts from zeros summing to 0 |
| Reconcile.BdnSheetBunkers | Fuel_Error_finder_OVD.py:240-280 | the BDN sheet's Bunkers column is the starting column with each attributed blend mass added to its row; every attribution is a blend delivery within 12 h of a timed row; the block has ten values |
| Reconcile.BdnTotalBunkered | Fuel_Error_finder_OVD.py:382-391 | over a numeric starting column, BDN TOTAL BUNKERED evaluates to the starting sum plus the attributed masses |
| Reconcile.BdnSheetValues | Fuel_Error_finder_OVD.py:338-391 | the ten BDN values end with TOTAL BUNKERED, which equals the sum of the BDN Bunkers column |
| EngineSteps.OwnPassAgrees | Fuel_Error_finder_OVD.py:64-105 | the pass of a fuel on the table that earlier passes left is its pass on the whole report |
| EngineSteps.BdnPassAgrees | Fuel_Error_finder_OVD.py:240-266 | the BDN pass on what the fuel passes left is the pass on the whole report, starting from the input's Bunkers column or zeros |
| EngineSteps.BdnColumnsAsEnsured | Fuel_Error_finder_OVD.py:241-280 | after lines 241-277 the BDN sheet's nine columns are the pass's Bunkers, the input's columns, or zeros for missing ones |
| Engine.ProcessFile | Fuel_Error_finder_OVD.py:7-396 | fails with MissingDateOrTime iff Date_UTC or Time_UTC is missing; otherwise succeeds iff every planned sheet's pass succeeds, and then returns exactly the planned sheets; on a raise it keeps the sheets before the first failing one; no delivery is attributed twice across all sheets |
| Engine.RunFuelSheets | Fuel_Error_finder_OVD.py:63-222 | the fuel loop writes the planned fuel sheets, or stops at the first raise; the dropped deliveries are those the passes attribute; the blend deliveries remain untouched |
| Engine.FuelSheetStep | Fuel_Error_finder_OVD.py:64-222 | one round keeps the loop's invariant: the sheets so far, and the deliveries of every later fuel and of the blends unchanged |
| Engine.RunBdnSheet | Fuel_Error_finder_OVD.py:224-391 | the BDN part completes the plan unless its pass raises, and keeps the attributions within the report |

## Left out

- The Tkinter GUI, the file dialogs and the message boxes (lines 31-32, 393-396, 398 onwards). The two `Failure` values say which message the user sees.
- File reading (lines 10-17) and the output workbook's path and writer (lines 59-60).
- The pandas parses of Date_UTC, Time_UTC and the delivery timestamp (lines 20-24, 35, 38). Each is an oracle: `Readings.dates`, `Readings.times` and `Delivery.time` hold their results.
- Re-formatting dates with `strftime` (lines 112, 283): `Sheet` keeps the header but not the date and time cells. The temporary Timestamp column is likewise not part of the table, since it is dropped before writing.
- Column widths, bold, yellow and red formats, and the conditional format that highlights negative ROB_Difference (lines 122-130, 158-168, 214, 293-301, 326-336). This is styling.
- The debug print (line 56).
- The iteration order of the `fuel_types` set (line 64) is hash-dependent. `Engine.ProcessFile` takes it as a parameter `order` that enumerates `DetectedSet` once each. `FuelColumns.DetectFuelTypes` models the detection loop itself, and the engine's proof does not call it. `MatchingPassProofs.FuelPassOnOwnFuel` shows that the order does not change any sheet.
- `fuel_df[rob_column] = df.get(rob_column, 0)` (line 77): the default 0 is never used, since line 68 has already checked that the column exists.
- Masses and cell values are integers. Floating point, numeric text, and the other Excel errors beyond text in arithmetic are not modelled.
- DeliveryPools.DeliveryPool.MatchFuel: the sheet's Bunkers column is returned as a sequence rather than written into a column in place. The bunker table, which the passes do change in place, is the class's field.
- Ledger formulas are evaluated as if every A1 reference named the column it is meant to. `ColumnLetters` shows where the source's letters break.
- Reconcile.BdnSheetBunkers: TOTAL BUNKERED is stated only for a numeric starting column (in `Reconcile.BdnTotalBunkered`). With empty cells the sum skips them, and with text the pass raises.

## Findings

| source | as written | input that shows it | evidently intended | confidence | as-written member | corrected member |
|---|---|---|---|---|---|---|
| Fuel_Error_finder_OVD.py:133-193 | columns are named `chr(65 + idx)`, which is a letter only up to Z | a readings table with 19 columns whose names end in `HFO` (besides `HFO_ROB`): the TOTALS values fall in column 26, which the source names "[" | Excel's names A .. Z, AA, AB, ... (bijective base 26) | not executed | ColumnLetters.AsWrittenBreaksAfterZ | ColumnLetters.ColumnIndexRoundTrip |

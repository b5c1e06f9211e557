# ELISA Tool: calibration bookkeeping and plate-layout parsing in Dafny

ELISA Tool reads two spreadsheets: the plate reader's raw measurement export and a configuration workbook. The workbook holds the plate map, the calibration standards, the sample specification and the report legend. The tool fits a calibration curve (logarithmic, 4PL or 5PL) to the standards and converts the mean absorbance of every sample into a concentration.

This project models the decision and bookkeeping logic around the curve fits, from two files:
- `core/elisa_tool_repo/et_parse_func.py`: the marker checks and their messages, the legend, and the tables under each marker (measurements, plate map, standards, specification). It also covers label normalisation, the plate-map check and the well-position strings.
- `core/elisa_tool_repo/et_calc.py`: grouping wells by label, means, the zero-concentration clean-up, the fit-quality flag and the parameter report. It also covers the acceptance gate for every sample, the error bars, and how rows are split into accepted samples, rejected samples and standards.

Modules, one per file:
- `Basics` (`basics.dfy`): Option/Result, substring containment (Python's `in`), sums, means, and `Apply`, a map that stops at the first failure.
- `Plate` (`plate.dfy`): wells, scan orders, labels in order of first appearance, and the replicate groups.
- `Calibration` (`calibration.dfy`): `max_concentration`, `min_concentration`, `remove_abs_smaller_0`, `data_std_format` and `data_st_to_print`.
- `Fitting` (`fitting.dfy`): the shared tail of the six fitters, that is the error flag and the positional parameter list.
- `Sheets` (`sheet.dfy`): the cell grid, marker search, the three checks, `check_function` and `extract_pdf_legend`.
- `LabelText` (`labeltext.dfy`): the label lambdas, digit stripping, and `str(int(x))`.
- `Layout` (`layout.dfy`): the table extraction functions of `et_parse_func.py`.
- `Samples` (`samples.dfy`): the sample table (the `df_local` frame) as a class, plus `samples_concenration`, `samples_concenration_new` and `recognition_experiment`.

Imperative source code is modelled as imperative Dafny: the grouping loops, the zero-removal `while` loop, the `iterrows` passes, the block-reading and standards-reading loops, and the map check. Each such method is proved equal to a specification function, and the properties are proved about that function. The per-label table is class `Samples.SampleTable`. Its fields are the label order and a map from label to row, and its methods rewrite them.

Conventions:
- A spreadsheet is a rectangular grid of cells: `Empty` (NaN), `Text` or `Number`. It holds the sheet body below the header row that `read_excel` consumes.
- Python exceptions are `Failure` values named after the exception: `KeyError`, `IndexError`, `ValueError`, `TypeError`, `AttributeError`, `ZeroDivisionError`.
- Each non-numeric library call is a parameter:
  - the inverse calibration curve is `inv: real -> real`;
  - `np.std` is `spread: seq<real> -> real`;
  - the fitted vector, the residual sum and the statistics (R², AIC, BIC, Pearson r) are inputs.

## Model

| member | source | states |
|---|---|---|
| Basics.Apply | core/elisa_tool_repo/et_parse_func.py:276 | applying a raising function over a list succeeds iff it succeeds on every element; the values come elementwise; a failure carries the error of some failing element |
| Basics.ApplyFailsAt | core/elisa_tool_repo/et_parse_func.py:276 | the error raised is the one of the first failing element |
| Basics.ContainsAt | core/elisa_tool_repo/et_calc.py:512 | `sub in s` holds iff `sub` occurs at some index of `s` |
| Plate.LabelsAreTheDistinctLabels | core/elisa_tool_repo/et_calc.py:492-505 | the table's index (labels in order of first appearance) has no repeats and holds exactly the labels of the scanned wells |
| Plate.GroupSizeIsLabelCount | core/elisa_tool_repo/et_calc.py:496-504 | a label's replicate list is as long as the number of wells carrying the label |
| Plate.WellInItsGroup | core/elisa_tool_repo/et_calc.py:496-504 | every well's absorbance sits in its label's list, at the position given by the earlier wells with that label (scan order) |
| Plate.GroupsPartitionWells | core/elisa_tool_repo/et_calc.py:492-505 | the group sizes over all labels add up to the number of wells: every well is in exactly one group |
| Plate.AbsentLabelHasNoGroup | core/elisa_tool_repo/et_calc.py:496-504 | a label carried by no well has an empty group |
| Plate.GroupsAreTheLabelGroups | core/elisa_tool_repo/et_calc.py:445-447 | the label-to-list map built by the `vars()` loop has a key iff some well carries it, and its list is that label's absorbances in scan order |
| Plate.Column | core/elisa_tool_repo/et_calc.py:445-447 | column `j` of the plate holds the `j`-th cell of each row, in row order |
| Plate.LabelSeq | core/elisa_tool_repo/et_calc.py:494 | the labels of a well sequence, position by position |
| Calibration.SeqMax | core/elisa_tool_repo/et_calc.py:37-38 | `max` of a non-empty list is a member of it and at least every element |
| Calibration.SeqMin | core/elisa_tool_repo/et_calc.py:56-57 | `min` of a non-empty list is a member of it and at most every element |
| Calibration.MaxConcentration | core/elisa_tool_repo/et_calc.py:27-46 | defined iff both lists are non-empty (`max` of an empty list raises); then it is a member of one of them and the largest value of both |
| Calibration.MinConcentration | core/elisa_tool_repo/et_calc.py:48-68 | defined iff both lists are non-empty; then it is a member of one of them and the smallest value of both |
| Calibration.Zip | core/elisa_tool_repo/et_calc.py:201-203 | the frame of two equal-length columns pairs them position by position |
| Calibration.FilterIsExactly | core/elisa_tool_repo/et_calc.py:204 | a boolean-mask selection keeps only passing rows, in order, and each passing row as often as it occurs |
| Calibration.FilterKeepsPassing | core/elisa_tool_repo/et_calc.py:204 | every passing row survives the selection |
| Calibration.RemoveAbsSmaller0 | core/elisa_tool_repo/et_calc.py:197-206 | defined iff the two columns have equal length (pandas rejects a mismatched column); then it is exactly the `(X, Y)` pairs with `Y > 0`, in order |
| Calibration.RemoveAbsSmaller0KeepsPositive | core/elisa_tool_repo/et_calc.py:204 | every kept pair has a positive absorbance, the result is a subsequence of the input pairs, and every pair with a positive absorbance is kept |
| Calibration.RemoveZeroConcentrations | core/elisa_tool_repo/et_calc.py:463-477 | the deleting `while` loop with its shifting index `N - N_of_del` leaves exactly the pairs with a non-zero concentration, in order, in two equal-length lists |
| Calibration.RemoveZeroConcentrationsSpec | core/elisa_tool_repo/et_calc.py:463-479 | after the loop no concentration is zero, the pairs are a subsequence of the input, and every non-zero pair is kept |
| Calibration.PresentLabelHasGroup | core/elisa_tool_repo/et_calc.py:453 | a label on the plate has a non-empty list, so its mean divides by a positive length |
| Calibration.GroupMeanFromGroups | core/elisa_tool_repo/et_calc.py:453 | the mean computed from the grouping map is the mean of that label's wells |
| Calibration.GroupByLabel | core/elisa_tool_repo/et_calc.py:437-447 | the column-by-column loop builds the label-to-absorbances map of the wells in column-major order |
| Calibration.DataStdFormat | core/elisa_tool_repo/et_calc.py:433-479 | raises KeyError iff some `std` label has no known concentration; otherwise returns equal-length lists whose pairs are the (concentration, mean absorbance) of each `std` label in visiting order, with zero concentrations removed |
| Calibration.NameLessTransitive | core/elisa_tool_repo/et_calc.py:117 | the string order used by `sort_values` is transitive |
| Calibration.NameLessTotal | core/elisa_tool_repo/et_calc.py:117 | any two different names are ordered one way or the other |
| Calibration.NameLessAsymmetric | core/elisa_tool_repo/et_calc.py:117 | the name order is asymmetric |
| Calibration.NameLessIrreflexive | core/elisa_tool_repo/et_calc.py:117 | no name sorts before itself |
| Calibration.RowNames | core/elisa_tool_repo/et_calc.py:113 | the name column of the standards table, row by row |
| Calibration.SortByNameSortsAndPermutes | core/elisa_tool_repo/et_calc.py:117 | sorting rows with distinct names yields rows in strictly increasing name order that are a permutation of the input |
| Calibration.SortByNamePermutes | core/elisa_tool_repo/et_calc.py:117 | sorting by name keeps the multiset of rows |
| Calibration.SortByNameSorts | core/elisa_tool_repo/et_calc.py:117 | sorting rows with distinct names yields strictly increasing names |
| Calibration.StandardRowsMembers | core/elisa_tool_repo/et_calc.py:102-107 | a row is listed iff its name is a visited label containing `std`, with that label's known concentration and mean absorbance |
| Calibration.StandardRowNamesDistinct | core/elisa_tool_repo/et_calc.py:102-107 | the listed standards have distinct names |
| Calibration.DataStToPrint | core/elisa_tool_repo/et_calc.py:83-120 | raises KeyError iff some `std` label has no known concentration; otherwise returns the standard rows (name, concentration, mean absorbance) with distinct names, sorted by name |
| Fitting.ParamNames | core/elisa_tool_repo/et_calc.py:140 | the search ranges of LN are A, B; of 4PL D, A, B, C; of 5PL D, A, B, C, E |
| Fitting.ParamKeysNameParams | core/elisa_tool_repo/et_calc.py:366-367 | each parameter is reported under its range's name followed by `_par1` |
| Fitting.RangesOf | core/elisa_tool_repo/et_calc.py:233-243 | reading the ranges succeeds iff every parameter has one; each range is the one under the parameter's name; a missing one raises KeyError for a missing name |
| Fitting.ErrorFlag | core/elisa_tool_repo/et_calc.py:357-370 | `error_bound` is 0 or 1, and 1 iff some fitted parameter equals one of its bounds, or RSS/n > 0.3, or R² < 0.6 (the later R² test only ever raises it) |
| Fitting.CleanFitIsInterior | core/elisa_tool_repo/et_calc.py:146-156 | with each parameter within its range, flag 0 means every parameter is strictly inside its range, RSS/n ≤ 0.3 and R² ≥ 0.6 |
| Fitting.ReportLayout | core/elisa_tool_repo/et_calc.py:153-166 | the report lists the parameters under their keys in range order, then RSS, R_squ, AIC_crit, BIC_crit, R_corre and Error at fixed positions |
| Fitting.FitReport | core/elisa_tool_repo/et_calc.py:249-273 | a fitter's tail succeeds iff every range exists and the standards list is non-empty; the report holds the fitted values, RSS = residual/n, the statistics and the flag of `ErrorFlag` |
| Fitting.Lookup | core/elisa_tool_repo/et_calc.py:153 | looking a key up in a report finds a value iff some entry has that key, and the value is that entry's |
| Fitting.ReportKeysDistinct | core/elisa_tool_repo/et_calc.py:259-260 | the keys of every report are distinct |
| Fitting.ReportLookup | core/elisa_tool_repo/et_calc.py:259-273 | looking up a parameter key yields its fitted value, and `RSS` and `Error` yield the residual and the flag |
| Fitting.CurveFitRolesMismatch | core/elisa_tool_repo/et_calc.py:858-879 | as written, the 4PL and 5PL `curve_fit` calls search the model's A within D's range, while the report calls position 0 D (finding 1) |
| Fitting.CorrectedRolesAgree | core/elisa_tool_repo/et_calc.py:871-887 | with the model signature in range order, every parameter is searched within its own range and reported under its own name |
| Fitting.CurveFitRoles | core/elisa_tool_repo/et_calc.py:858 | one role per fitted position |
| Fitting.CorrectedCurveFitRoles | core/elisa_tool_repo/et_calc.py:871 | one role per fitted position |
| Sheets.FirstMatch | core/elisa_tool_repo/et_parse_func.py:107-108 | `pos[0]` of the stacked equality mask: defined iff some cell holds the value; then it is such a cell, before every other one in row-major order |
| Sheets.RowMatchesSpec | core/elisa_tool_repo/et_parse_func.py:107 | the matches in a row are exactly the cells holding the value, left to right |
| Sheets.MatchesSpec | core/elisa_tool_repo/et_parse_func.py:301 | `stack().index.tolist()` lists exactly the cells holding the value, in row-major order |
| Sheets.TekanDataCheck | core/elisa_tool_repo/et_parse_func.py:23-35 | true iff the path does not end in `.xlsx` or no cell holds `<>` |
| Sheets.ConfigDataCheck0 | core/elisa_tool_repo/et_parse_func.py:37-51 | true iff the path does not end in `.xlsx` or one of the plate-map, specification and standards markers is missing |
| Sheets.AnyMissing | core/elisa_tool_repo/et_parse_func.py:72 | true iff one of the keys is absent from the sheet |
| Sheets.ConfigDataCheck1 | core/elisa_tool_repo/et_parse_func.py:53-75 | true iff one of the nine legend keys is absent from the sheet |
| Sheets.CheckFunction | core/elisa_tool_repo/et_parse_func.py:320-339 | the message of the first failing check in the order raw data, config markers, legend; "Appropriate data set" iff none fails |
| Sheets.LegendValue | core/elisa_tool_repo/et_parse_func.py:91-96 | a legend value is never `nan`; it is a single space iff the cell prints as `nan` (or as a space), and otherwise it is the printed cell |
| Sheets.ExtractPdfLegend | core/elisa_tool_repo/et_parse_func.py:77-99 | succeeds iff every legend key has a cell to its right (IndexError otherwise); then the dictionary has exactly the nine keys, each mapped to the legend value of the cell right of its first occurrence |
| LabelText.Lower | core/elisa_tool_repo/et_parse_func.py:153 | `lower()` keeps the length and lower-cases each character |
| LabelText.WordCharsAreWordChars | core/elisa_tool_repo/et_parse_func.py:157 | `re.sub(r'[^\w]', '', x)` leaves only word characters |
| LabelText.WordCharsKeepsWords | core/elisa_tool_repo/et_parse_func.py:157 | a string of word characters is left unchanged |
| LabelText.RemoveSpacesKeepsSpaceless | core/elisa_tool_repo/et_parse_func.py:161 | a string without spaces is left unchanged by `replace(' ', '')` |
| LabelText.LoweredWords | core/elisa_tool_repo/et_parse_func.py:163-166 | after the first two lambdas only lower-case word characters remain, so removing spaces changes nothing |
| LabelText.NormaliseIsLabel | core/elisa_tool_repo/et_parse_func.py:163-166 | a normalised label consists of lower-case word characters only |
| LabelText.NormaliseIdempotent | core/elisa_tool_repo/et_parse_func.py:163-166 | normalising twice is normalising once |
| LabelText.NatToString | core/elisa_tool_repo/et_parse_func.py:116 | `str` of a natural number is a non-empty digit string without a leading zero |
| LabelText.NatToStringRoundTrip | core/elisa_tool_repo/et_parse_func.py:116 | reading back the decimal digits of `str(n)` gives `n` |
| LabelText.Trunc | core/elisa_tool_repo/et_parse_func.py:116 | `int(x)` truncates toward zero |
| Layout.HeaderTextMatchesNumber | core/elisa_tool_repo/et_parse_func.py:116 | a header written as a digit text names the same column as the number it spells |
| Layout.HeaderNameRoundTrip | core/elisa_tool_repo/et_parse_func.py:116 | a header printed from a number reads back unchanged |
| Layout.Headers | core/elisa_tool_repo/et_parse_func.py:116 | the headers of a block, column by column |
| Layout.SetColumnHeaders | core/elisa_tool_repo/et_parse_func.py:116 | assigning a frame column keeps the headers unique, keeps the old ones and adds the new one |
| Layout.ColumnSlice | core/elisa_tool_repo/et_parse_func.py:113 | `iloc[r+1:r+9, c]` is the (at most) eight cells below row `r` in column `c` |
| Layout.BlockColumnsFailureSticks | core/elisa_tool_repo/et_parse_func.py:111-117 | once a header fails to convert, the whole extraction fails with that error |
| Layout.BlockColumnsDistinct | core/elisa_tool_repo/et_parse_func.py:111-117 | a block has fewer data columns than cells read, with distinct headers |
| Layout.BlockColumnsComplete | core/elisa_tool_repo/et_parse_func.py:111-117 | every header read converts and names a column of the block |
| Layout.BlockColumnsSourced | core/elisa_tool_repo/et_parse_func.py:111-117 | every column of the block is the slice under the last header cell naming it |
| Layout.BlockShape | core/elisa_tool_repo/et_parse_func.py:107-119 | the loop reads 1 to 13 cells of the marker row, stopping at the sheet's edge or the first empty cell; the row names are the slice under the marker, and the columns are those of the headers read |
| Layout.ReadBlock | core/elisa_tool_repo/et_parse_func.py:109-118 | the `while N < 13` loop builds the block specified by `BlockAt` |
| Layout.ExtractBlock | core/elisa_tool_repo/et_parse_func.py:127-143 | the block under the first occurrence of a marker; IndexError when the marker is absent |
| Layout.ExtractMeasRes | core/elisa_tool_repo/et_parse_func.py:101-120 | `extract_meas_res` is the block under `<>` |
| Layout.LabelOfSpec | core/elisa_tool_repo/et_parse_func.py:149-166 | a cell normalises iff it is not a number; an empty cell becomes `empty`; the result is a fixed point of normalisation made of lower-case word characters |
| Layout.DataMapLabels | core/elisa_tool_repo/et_parse_func.py:123-170 | the plate map has the block's row names and columns, each label being the normalisation of the cell read |
| Layout.ExtractDataMap | core/elisa_tool_repo/et_parse_func.py:123-170 | the method builds the plate map specified by `DataMapOf` |
| Layout.DataMapCheck | core/elisa_tool_repo/et_parse_func.py:172-191 | true iff some label, with its digits removed, is neither `sam` nor `std` |
| Layout.EmptyWellFailsCheck | core/elisa_tool_repo/et_parse_func.py:149-188 | a plate map with an empty well fails the check |
| Layout.CountStandards | core/elisa_tool_repo/et_parse_func.py:204-212 | the counting loop counts the distinct map labels containing `std` |
| Layout.ReadStandards | core/elisa_tool_repo/et_parse_func.py:223-243 | reading `n` standards succeeds iff `n` rows and a value column exist below the marker and every name is text; then standard `k` is row `k+1`'s name, lower-cased and without spaces, with the value to its right, a zero replaced by 0.0001 |
| Layout.ExtractDataStandards | core/elisa_tool_repo/et_parse_func.py:194-248 | a map failure propagates, a missing standards marker raises IndexError, otherwise exactly as many standards are read below the marker as there are distinct `std` labels |
| Layout.SpecificationRows | core/elisa_tool_repo/et_parse_func.py:256-279 | the specification is read down the specification marker's column until an empty cell or the sheet's end; each row pairs the normalised abbreviation with the description to its right |
| Layout.ExtractSpecification | core/elisa_tool_repo/et_parse_func.py:250-284 | the method returns the specification of `SpecificationOf` |
| Layout.ReadSpecification | core/elisa_tool_repo/et_parse_func.py:266-279 | the `while` loop below the marker, with the normalising of the abbreviations, yields the specification of `SpecificationAt` for that marker |
| Layout.PositionsOfLabel | core/elisa_tool_repo/et_parse_func.py:301-311 | the wells listed for a label are exactly the map cells holding it, in row-major order, each written `row-column` |
| Layout.FullSpecificationRows | core/elisa_tool_repo/et_parse_func.py:295-315 | one full row per specification row, with the abbreviation kept, an empty description shown as `-`, and the positions joined with `, ` |
| Layout.GetFullSpecification | core/elisa_tool_repo/et_parse_func.py:286-317 | the nested loops return the full specification of `FullSpecificationOf` |
| Layout.WritePositions | core/elisa_tool_repo/et_parse_func.py:303-310 | the inner loop writes every found well as `row-column`, in the order found, failing as the first unwritable one does |
| Samples.TableRowsAreGroups | core/elisa_tool_repo/et_calc.py:492-505 | the table built row by row has one row per group, holding that group's absorbances |
| Samples.TableRowsSpec | core/elisa_tool_repo/et_calc.py:492-505 | a label has a row iff some well carries it; the row holds that label's absorbances in scan order and `samples_nb` equals the number of wells with the label |
| Samples.SampleTable.constructor | core/elisa_tool_repo/et_calc.py:489-491 | the empty table, indexed by label |
| Samples.SampleTable.AddWell | core/elisa_tool_repo/et_calc.py:494-504 | a known label gets the absorbance appended and its count incremented; a new label gets a row with a one-element list and count 1 |
| Samples.BuildTable | core/elisa_tool_repo/et_calc.py:492-505 | the nested loops over the plate leave the labels in order of first appearance, and the rows of `TableRows` |
| Samples.SampleTable.FillStatistics | core/elisa_tool_repo/et_calc.py:509-514 | raises KeyError iff some `std` label has no known concentration; otherwise every row gets its mean and spread, and `std` rows get their concentration and Errors = 100 |
| Samples.WithStatistics | core/elisa_tool_repo/et_calc.py:510-514 | filling a row keeps its absorbances and count |
| Samples.StatRows | core/elisa_tool_repo/et_calc.py:509-514 | the first pass keeps the table's labels and averages every row |
| Samples.StatisticsOfGroup | core/elisa_tool_repo/et_calc.py:509-514 | a row's mean is sum/`samples_nb` of its label's absorbances; its spread is `np.std` of them; a `std` row gets its known concentration and Errors = 100 (KeyError when unknown) |
| Samples.TableReady | core/elisa_tool_repo/et_calc.py:509-514 | when every standard is known, every row of the table is filled |
| Samples.FirstMax | core/elisa_tool_repo/et_calc.py:516 | `idxmax` picks a position whose value is the largest, and no earlier position holds that value |
| Samples.MeanColumn | core/elisa_tool_repo/et_calc.py:516 | the `Y_ave_abs` column in table order |
| Samples.TopLabel | core/elisa_tool_repo/et_calc.py:516 | the label `idxmax` picks is in the table |
| Samples.TopLabelIsFirstLargest | core/elisa_tool_repo/et_calc.py:516-518 | its mean is the largest, and every earlier label has a strictly smaller mean |
| Samples.BandMeetsInterval | core/elisa_tool_repo/et_calc.py:535 | the two closed comparisons of the gate admit a sample iff the interval mean ± spread meets the band |
| Samples.ClassifiedRows | core/elisa_tool_repo/et_calc.py:522-559 | the second pass keeps the table's labels |
| Samples.ClassifiedVerdict | core/elisa_tool_repo/et_calc.py:522-559 | a judged `sam` row gets Errors = 0 iff it passes the gate and Errors = 1 iff it fails; mean, spread and absorbances are kept; other rows are unchanged |
| Samples.SampleTable.Classify | core/elisa_tool_repo/et_calc.py:522-559 | raises the gate's error (IndexError on a short parameter list) iff there is one and some `sam` row exists; otherwise every row becomes `ClassifiedRows` of the old table |
| Samples.SampleTable.Collect | core/elisa_tool_repo/et_calc.py:595-611 | the output loop returns `Collected` of the table, without changing it |
| Samples.SampleTable.JudgeAndCollect | core/elisa_tool_repo/et_calc.py:522-611 | the second pass followed by the output loop returns `ClassifyAndCollect` of the old table; the table stays valid with the same labels, and on success its rows are the classified rows |
| Samples.FcNamesUnrecognised | core/elisa_tool_repo/et_calc.py:524-547 | of the six model names the UI offers, the dispatch as written recognises exactly those not starting with `fc` (finding 2) |
| Samples.KindOfRecognisesModelNames | core/elisa_tool_repo/et_calc.py:524-547 | the corrected dispatch recognises every offered name, agrees with the written one where that one recognises a name, and reads `fcX` as `X` |
| Samples.GatesReadReport | core/elisa_tool_repo/et_calc.py:624-647 | on a fit report, the logistic gates of both variants compare with the report's A (`params[1]`) and D (`params[0]`); the new LN gate compares with B (`params[1]`) |
| Samples.Kept | core/elisa_tool_repo/et_calc.py:596-605 | the labels kept for a list are labels of the table |
| Samples.KeptMembers | core/elisa_tool_repo/et_calc.py:596-605 | a label is kept iff it contains the tag and has the given Errors code; the kept labels keep the table's order |
| Samples.CollectedSamples | core/elisa_tool_repo/et_calc.py:595-604 | accepted names are the `sam` labels with Errors = 0 and the six accepted lists are index-aligned with them; rejected names are the `sam` labels with Errors = 1 |
| Samples.CollectedStandards | core/elisa_tool_repo/et_calc.py:605-608 | the three standards lists are index-aligned with the `std` rows with Errors = 100 |
| Samples.Statistics | core/elisa_tool_repo/et_calc.py:492-514 | after grouping and the first pass, the table has a filled row exactly for every label |
| Samples.SamplesConcentration | core/elisa_tool_repo/et_calc.py:482-611 | `samples_concenration` returns `Concentrations` for the curve `KindAsWritten(ordered)`, the code's own dispatch: KeyError for an unknown standard, ValueError for an empty plate, the gate's IndexError, else the collected lists; an `fc` name selects no curve, so no sample is judged |
| Samples.SamplesConcentrationNew | core/elisa_tool_repo/et_calc.py:614-710 | `samples_concenration_new` on a filled table returns `NewConcentrations` for the curve `KindAsWritten(ordered)`, the code's own dispatch; on success the caller's table keeps its labels and holds the rows classified by that curve's gate |
| Samples.RecognitionExperiment | core/elisa_tool_repo/et_calc.py:714-800 | builds the table; raises KeyError iff a standard is unknown; otherwise the rows are the first pass's and the flag is `ControlFlag` of the labels |
| Samples.ControlFlagOfPlate | core/elisa_tool_repo/et_calc.py:737-746 | the flag is `SPC` iff some well's label contains both `nc` and `pc`, and `STD` otherwise |
| Samples.ScanControls | core/elisa_tool_repo/et_calc.py:737-746 | scanning the labels sets the flag to `ControlFlag` of the labels: `SPC` iff one of them contains both `nc` and `pc` |
| Samples.LimitIsLargestGroupMean | core/elisa_tool_repo/et_calc.py:516-518 | the LN limit is the mean plus spread of a label on the plate whose group mean is the largest |
| Samples.SampleVerdicts | core/elisa_tool_repo/et_calc.py:522-604 | for a recognised curve, a `sam` label is listed as accepted iff its mean and spread pass the gate, and as rejected iff they fail it |
| Samples.JudgedAccepted | core/elisa_tool_repo/et_calc.py:539-543 | an accepted row gets concentration inv(mean), upper delta inv(mean+sd) − inv(mean) and bottom delta inv(mean) − inv(mean−sd) |
| Samples.AcceptedConcentrations | core/elisa_tool_repo/et_calc.py:596-602 | the `k`-th accepted sample is listed with inv of its group mean, that mean, its spread and the two error-bar deltas |
| Samples.UnjudgedListsNoSamples | core/elisa_tool_repo/et_calc.py:522-604 | when no gate applies, no sample is listed as accepted or rejected |
| Samples.KeptNone | core/elisa_tool_repo/et_calc.py:596-605 | a list whose code no row carries is empty |
| Samples.FcNamesListNoSamples | core/elisa_tool_repo/et_calc.py:524-547 | as written, a run with the UI's `fc4PL`, `fc5PL` or `fcLN` lists no sample, accepted or rejected (finding 2) |
| Samples.StandardsListed | core/elisa_tool_repo/et_calc.py:605-608 | the standards lists hold, for the `std` labels in table order, the known concentration, the group mean and the spread; a label containing both `std` and `sam` is judged as a sample under a recognised curve and then is not listed |
| Samples.NewSampleVerdicts | core/elisa_tool_repo/et_calc.py:621-703 | in the new variant, a `sam` label is accepted iff it passes `GateOfNew` (LN: mean ≥ `params[1]`) and rejected iff it fails |
| Samples.FcNamesJudgeSamples | core/elisa_tool_repo/et_calc.py:524-559 | with the corrected dispatch, an `fc` model name selects a curve and its run judges samples as the plain name does |

## Left out

- Reading files (`pd.read_excel`), `print`, and the file-type test beyond the path suffix. A sheet is an in-memory grid whose first row is the row after the header `read_excel` consumes.
- Floating point: every number is a `real`. NaN is modelled as an empty cell or `None`; rounding is not modelled.
- The curve formulas, `np.log`, powers, `np.arange` in `theor_X`, and the curve inverses (`ln_func_concentration`, `logit_4PL_concentration`, `logit_5PL_concentration`). The model takes the inverse as a total parameter `inv`, so failures raised inside an inverse (its own indexing of `param`, the 4PL and 5PL division by `Y - D`) are not modelled.
- `np.std`: the model takes it as a parameter `spread`; nothing is assumed about it beyond being a function of the absorbances.
- `differential_evolution`, `curve_fit`, `r2_score`, AIC, BIC and `pearsonr`: library numerics. The fitted vector, the residual sum and the statistics are inputs of `Fitting.FitReport`.
- The `vars()` accumulators of `data_std_format` and `data_st_to_print` are a map from label to list. Python iterates `set(g1)` in hash order, which the caller supplies as `order`.
- The measurement and plate-map frames of `samples_concenration`, `recognition_experiment`, `data_std_format` (Calibration.DataStdFormat) and `data_st_to_print` (Calibration.DataStToPrint) are one grid of wells pairing each label with its absorbance. A shape mismatch between the two frames is not modelled.
- `\w` is ASCII letters, digits and `_`; Unicode word characters and Unicode case mapping are not modelled.
- Layout.HeaderName: `int()` of a header text accepts only plain digit strings. Surrounding spaces, signs and underscores, which Python also accepts, are not modelled.
- Samples.SampleTable.FillStatistics, Samples.SampleTable.Classify, Samples.RecognitionExperiment: every `row[...] = ...` write inside `for index, row in df_local.iterrows()` is taken to update `df_local` in place. Pandas does so only when the frame is a single block of one dtype, and otherwise hands out a copy whose writes are lost. Which case holds depends on the pandas version and on the column dtypes, so the model assumes the writes land.
- Samples.SampleTable.FillStatistics: the table's state after a raised KeyError is left unspecified (the source has already filled earlier rows).
- Samples.SampleTable.Classify: the state after a raised IndexError is left unspecified.
- Samples.RecognitionExperiment: the table is returned, but the text rendering of the frame is not modelled.
- Layout.GetFullSpecification: both reads of the configuration file are taken to yield the same sheet.
- `extract_specification` calls `sort_values` without `inplace` and discards the result, so the model keeps the rows in sheet order.
- An `ordered` value that no branch recognises, the interface's `fc4PL`, `fc5PL` and `fcLN` among them, leaves the `sam` rows as the first pass left them, so no sample is listed; Samples.SamplesConcentration and Samples.SamplesConcentrationNew model this, and the corrected dispatch `KindOf` appears only in finding 2.
- `recognition_experiment` reads `d_st.conc`; the model takes a map from standard name to concentration, as for the other functions.
- `high_lev_func.py`, `pdf_creator.py`, `et_plot_func.py`, `validation_func.py` and `elisa_tool_plug.py` (orchestration, reports, plots, synthetic validation data and the user interface) are not part of this model; only the list of model names offered by the interface is used, in finding 2.

## Findings

| source | as written | input that shows it | evidently intended | confidence | as-written member | corrected member |
|---|---|---|---|---|---|---|
| core/elisa_tool_repo/et_calc.py:858-887 | the 4PL model function handed to `curve_fit` takes `(X, A, B, C, D)` while the bounds and the report use the order D, A, B, C (5PL likewise at 910-943) | fitted vector [1, 2, 3, 4]: the fitted curve has A = 1 and D = 4, but the report says D = 1 and A = 2, and A was searched within D's range | the model function's parameters in the bounds' order, `(X, D, A, B, C[, E])` | not executed | Fitting.CurveFitRolesMismatch | Fitting.CorrectedRolesAgree |
| core/elisa_tool_repo/et_calc.py:524-547 | the dispatch tests `ordered` against `LN`/`cfLN`, `4PL`/`cf4PL`, `5PL`/`cf5PL`, while the interface offers `fc4PL`, `fc5PL`, `fcLN` (core/elisa_tool_plug.py:161) | `ordered = "fc4PL"`: no branch matches, so no sample is judged and both the accepted and rejected lists are empty | `fcX` handled as `X` | not executed | Samples.FcNamesListNoSamples | Samples.FcNamesJudgeSamples |

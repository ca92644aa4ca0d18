# Student-assessment sheet validator, modelled in Dafny

The engine reads a spreadsheet of student test results. Each row carries a date of
birth, a test date and six scores: abacus and mental arithmetic, each tested on
multiplication, division and addition/subtraction. It annotates every row with ten
derived columns and writes the sheet out under a new name. In the written sheet it
paints red every source cell whose check failed.

The three checks:

- `DOB_Format_Correct` and `Test_Date_Format_Correct` hold when the date cell is
  exactly eight digits `YYYYMMDD` that `datetime.strptime` accepts as a real day.
- `<column>_Valid` holds, for each of the six score columns, when the score lies
  between 0 and the column's ceiling and is a multiple of 5. The ceiling is 150 for
  the addition/subtraction columns and 100 for the others.
- `abacus_pass` and `mental_pass` read `"pass"` when all three scores of the group
  are at least 70, and `"did not pass"` otherwise.

The same engine appears twice. `main.py` runs it as a script on a fixed path.
`version1.py` runs it inside `process_file`, behind a file picker. The decision logic
is identical line for line, so there is one model. The table cites `main.py`, except
for the output name (which only `version1.py` composes as modelled) and for the
whole-run and zero-argument rows, which cite `version1.py`'s `process_file` and
`check_pass`. Line correspondences:

| concern | main.py | version1.py |
|---|---|---|
| `is_valid_date` | 24-33 | 10-18 |
| `check_scores` | 54 | 22 |
| `check_pass` | 81 | 25 |
| `score_columns` | 57-64 | 35-42 |
| column assignments | 38-39, 66-67, 83-84 | 31-32, 44-45, 48-49 |
| highlight loops | 98-127 | 62-89 |

Modules:

- `Validators` (validators.dfy) holds the three pure checks. `is_valid_date` is
  modelled the way the library evaluates it. First comes the `^\d{8}$` guard, where
  `$` also accepts a final newline. Then comes `strptime` with `'%Y%m%d'`: the
  directives become their regular-expression alternatives, the regex engine's
  backtracking picks the first match, the "unconverted data remains" check follows,
  and `datetime`'s range check comes last. That the function accepts exactly the real
  eight-digit dates is then a theorem, not a definition.
- `Annotation` (annotation.dfy) holds the score table, the typed rows and the
  ten-value row annotation.
- `Frame` (frame.dfy) models the DataFrame as a class. Its header list and its
  assigned columns change in place under `df[name] = ...`, in the order the script
  assigns them.
- `Highlight` (highlight.dfy) models the fill loops as methods over a boolean mask
  `array2<bool>`. `fill[i, j]` is sheet cell (row `i + 1`, column `j + 1`), and sheet
  row `r >= 2` shows data row `r - 2`. It also holds the end-to-end `ProcessFile`.
- `Naming` (naming.dfy) holds the output file name.
- `Scenarios` (scenarios.dfy) holds worked examples.

## Model

| member | source | states |
|---|---|---|
| Validators.DaysInMonth | main.py:30 | Every month has 28 to 31 days. February has 29 exactly in leap years. Other months follow the fixed table. |
| Validators.IsCalendarDate | main.py:30 | `datetime` accepts a year 1 to 9999, a month 1 to 12 and a day up to the month's length. Days 1 to 28 always fit, and 29 February fits exactly in leap years. |
| Validators.YearLength | main.py:30 | The month lengths add up to 366 in leap years and 365 otherwise. |
| Validators.GregorianCycle | main.py:30 | Month lengths repeat every 400 years. |
| Validators.MonthCandidates | main.py:30 | Every way `%m` can match reads one or two digits and yields a month from 1 to 12. |
| Validators.FirstDay | main.py:30 | The reading `%d` settles on, if any, reads one or two characters and yields a day from 1 to 31. |
| Validators.FirstMatch | main.py:30 | The month/day split the regex engine settles on uses one of the month readings, followed by the day reading at the next position. |
| Validators.Strptime | main.py:30 | Whatever `strptime` accepts is a real date in years 1 to 9999. The string was 6 to 8 characters long and its year is its first four digits. |
| Validators.MatchesEightDigits | main.py:24-27 | On eight characters the pattern matches exactly when they are all digits. The only longer match is eight digits followed by one final newline. |
| Validators.IsValidDate | main.py:26-33 | `is_valid_date` returns true only on exactly eight ASCII digits. |
| Validators.Num | main.py:30 | `int()` of a run of `w` digits is below `10^w`. |
| Validators.TwoDigitsNum | main.py:30 | Two adjacent digits read as a two-digit number. |
| Validators.YearDigits | main.py:30 | The four year digits read as their decimal value. |
| Validators.FieldDigits | main.py:30 | Year, month and day of an eight-digit string are read digit by digit. |
| Validators.StrptimeOnEightDigits | main.py:30 | On eight digits, `strptime` succeeds exactly when `YYYY`/`MM`/`DD` name a real date, and it returns that date. |
| Validators.TrailingNewlineRejected | main.py:24-33 | Eight digits plus a newline get past the pattern but are rejected by `strptime`. |
| Validators.IsValidDateIff | main.py:24-33 | `is_valid_date(s)` holds exactly when `s` is eight digits naming a real date with year at least 1. Every other string gives false. |
| Validators.Format | main.py:30 | The `YYYYMMDD` rendering of a real date is eight digits. |
| Validators.FormatRoundTrip | main.py:24-33 | The rendering of every real date is accepted and parses back to that date. |
| Validators.ParseRoundTrip | main.py:24-33 | Every accepted string is the rendering of the date it parses to. |
| Validators.NumPad | main.py:30 | Reading back a zero-padded number that fits its width gives the number. |
| Validators.PadNum | main.py:30 | Rendering a digit string's value at its own width gives the string back. |
| Validators.CheckScores | main.py:54 | A valid score lies between 0 and the ceiling. A negative score or a negative ceiling is never valid. |
| Validators.CheckScoresEnumerated | main.py:54 | A score is valid exactly when it is one of 0, 5, 10, ... up to the ceiling. |
| Validators.CheckScoresMonotone | main.py:54 | Raising the ceiling never invalidates a score. |
| Validators.AllAtLeast | main.py:81 | `all(score >= bound ...)` holds exactly when every score reaches the bound. |
| Validators.CheckPass | main.py:81 | The result is `"pass"` or `"did not pass"`. It is `"pass"` exactly when every score is at least 70. |
| Validators.CheckPassMonotone | main.py:81 | Raising scores never turns a pass into a fail. |
| Validators.CheckPassVacuous | version1.py:25 | With no scores, the result is `"pass"`. |
| Annotation.ScoreColumnsTable | main.py:57-64 | Every table entry's ceiling is 150 for addition/subtraction and 100 otherwise. No column is listed twice. |
| Annotation.TableIndex | main.py:57-64 | Every score column has an entry in the table. |
| Annotation.DerivedColumnsOrder | main.py:38-84 | The ten derived columns come in assignment order: two date flags, then the six `_Valid` flags in table order, then the two pass columns. None repeats. |
| Annotation.AnnotateRow | main.py:66-67 | A row gets one `_Valid` flag per table entry. |
| Annotation.AnnotateRows | main.py:35-84 | Each input row gets exactly one annotation, in order, computed from that row alone. |
| Annotation.AnnotateRowsAppend | main.py:35-84 | Annotating two runs of rows separately and concatenating equals annotating them together, so no row depends on its neighbours or its position. |
| Annotation.ScoreValidAgainstCeiling | main.py:66-67 | Each `_Valid` flag holds exactly when its score is a multiple of 5 between 0 and that column's own ceiling. |
| Annotation.DateFlagsMeanCalendarDates | main.py:38-39 | A date flag holds exactly when its cell is eight digits naming a real day. |
| Annotation.PassUsesOnlyItsGroup | main.py:83-84 | A group passes exactly when its own three scores are all at least 70. Rows with equal group scores get equal results, whatever their other cells. |
| Annotation.InvalidScoresCanPass | main.py:83-84 | A group whose scores all fail `check_scores` can still pass, because pass/fail ignores the validity flags. |
| Frame.WithColumn | main.py:38-39 | `df[name] = ...` keeps every header in place and makes `name` a header. An existing name leaves the list unchanged; a new one goes at the end. |
| Frame.WithColumns | main.py:38-84 | A run of assignments adds at most one header per name and never removes one, and the last name assigned is a header. |
| Frame.WithColumnsKeepsHeaders | main.py:38-84 | Assigning columns never moves or drops a header. Every assigned name becomes a header, no other header appears, and headers stay distinct. |
| Frame.WithColumnsAppends | main.py:38-84 | New names are appended after the existing headers, in assignment order. |
| Frame.WithColumnsPresent | main.py:38-84 | Re-assigning columns that already exist leaves the header list unchanged. |
| Frame.WithColumnsIdempotent | main.py:38-84 | Assigning the same names a second time changes no header. |
| Frame.CheckDateFormat | main.py:35 | `check_date_format` gives one flag per cell. |
| Frame.CheckScoreColumn | main.py:67 | The score check gives one flag per cell. |
| Frame.CheckPassColumn | main.py:83-84 | The pass check gives one result per row. |
| Frame.AnnotationColumn | main.py:38-84 | Each derived column has one cell per row. |
| Frame.AssignedContents | main.py:38-84 | After `j` steps, exactly the first `j` derived columns are assigned, each to its annotation column. |
| Frame.EveryDerivedColumnAssigned | main.py:38-84 | After annotation, every derived column is present and holds its annotation column. |
| Frame.AnnotatedCell | main.py:38-84 | Row `r` of an assigned column is the cell of row `r`'s own annotation. |
| Frame.DateColumnsMatchAnnotations | main.py:38-39 | The two date-flag assignments equal the annotation's date flags. |
| Frame.ValidColumnMatchesAnnotations | main.py:66-67 | Each `_Valid` assignment equals the annotation's flag for that table entry. |
| Frame.PassColumnsMatchAnnotations | main.py:83-84 | The two pass assignments equal the annotation's pass results. |
| Frame.NamesDiffer | main.py:38-84 | Two different derived columns never share a header. |
| Frame.DerivedNamesDistinct | main.py:38-84 | The ten derived headers are pairwise different. |
| Frame.AnnotatedHeaders | main.py:38-84 | On a sheet without derived headers, the output headers are the input headers followed by the ten derived ones, in order. |
| Frame.DataFrame.constructor | main.py:10 | The frame read from the sheet has its headers and rows and no assigned columns. |
| Frame.DataFrame.SetColumn | main.py:38 | `df[name] = values` keeps an existing column's place or appends a new one, and stores the values under that column. |
| Frame.DataFrame.AssignNext | main.py:38-84 | Assigning the next derived column as the annotations give it advances the annotation by one column. |
| Frame.DataFrame.AddDateFlags | main.py:38-39 | The two date-flag assignments advance the annotation past the first two derived columns. |
| Frame.DataFrame.AddScoreFlags | main.py:66-67 | The loop over `score_columns` advances the annotation past the six `_Valid` columns. |
| Frame.DataFrame.AddPassColumns | main.py:83-84 | The two pass assignments complete the annotation. |
| Frame.DataFrame.Annotate | main.py:38-84 | Afterwards the headers are the old ones with the ten derived names assigned in order, and the assigned columns are exactly the row annotations. |
| Highlight.IndexOf | main.py:98-99 | `get_loc` finds the first, and in a distinct header list the only, position of the name. |
| Highlight.Falsy | main.py:104-114 | `not cell` holds exactly for `False` and the empty string. The two pass strings are never falsy. |
| Highlight.HighlightDates | main.py:101-107 | The date loop paints a date cell of a data row exactly when its format flag is false, and changes no other cell. |
| Highlight.HighlightColumn | main.py:112-115 | The inner score loop paints a score cell exactly when its `_Valid` flag is false, and changes no other cell. |
| Highlight.HighlightScores | main.py:110-115 | The loop over `score_columns` paints exactly the cells some score column marks as invalid. |
| Highlight.HighlightPass | main.py:118-127 | The pass loop paints a pass cell exactly when it reads `"did not pass"`, and changes no other cell. |
| Highlight.HighlightFrame | main.py:98-127 | The three loops together add exactly the marked cells to the fill and keep every other cell's fill. |
| Highlight.HighlightTwice | main.py:98-127 | Running the loops twice leaves the fill as one run does. |
| Highlight.ScoreMarkBeforeIff | main.py:110-115 | After `n` table entries, a cell is painted exactly when one of those entries paints it. |
| Highlight.DateMarkMeansBadDate | main.py:101-107 | On the annotated frame, the date loop paints a date cell exactly when the date is not eight digits naming a real day. |
| Highlight.ScoreFlagMeansBadScore | main.py:114 | A row's `_Valid` cell is falsy exactly when its score breaks that column's ceiling or the step of 5. |
| Highlight.ScoreColumnFailsOnBadScore | main.py:112-115 | On annotated data, `not df.at[r, col + '_Valid']` holds exactly when row `r` exists and its score in `col` is bad. |
| Highlight.PassCellsMeanLowScores | main.py:124-127 | A row's pass cell reads `"did not pass"` exactly when its group has a score below 70. |
| Highlight.PassColumnsFailOnLowScores | main.py:121-127 | On annotated data, row `r` of `abacus_pass` or `mental_pass` reads `"did not pass"` exactly when the row exists and that group has a score below 70. |
| Highlight.ScoreMarkMeansBadScore | main.py:110-115 | On the annotated frame, the score loop paints a score cell exactly when the score breaks its column's ceiling or the step of 5. |
| Highlight.PassMarkMeansLowScore | main.py:121-127 | On the annotated frame, the pass loop paints a pass cell exactly when its group has a score below 70. |
| Highlight.MarkedMeansFailure | main.py:98-127 | On the annotated frame, the painted cells are exactly the failing source cells. |
| Highlight.MarkedOnlyCheckedCells | main.py:101-127 | Only data rows are painted. Only the two date columns, the six score columns and the two pass columns are painted. The header row and the derived flag columns never are. |
| Highlight.ProcessFile | version1.py:27-89 | One run on a sheet: the output headers are the input headers with the derived ones appended or kept in place, and the derived columns are the row annotations. A fresh fill is painted exactly on the failing source cells. |
| Naming.OutputFileName | version1.py:52-54 | The output name is the input base, then `_verified`, then the input extension. |
| Naming.OutputDiffersFromInput | version1.py:52-54 | The output name never equals the input name. |
| Naming.OutputFileNameInjective | version1.py:52-54 | Inputs with the same extension but different bases get different output names. |
| Scenarios.EndOfFebruaryAccepted | main.py:24-33 | `"20230228"` is accepted. |
| Scenarios.ThirtiethOfFebruaryRejected | main.py:24-33 | `"20230230"` is rejected. |
| Scenarios.SevenDigitsRejected | main.py:24-33 | `strptime` alone reads `"2024229"` as 29 February 2024, yet `is_valid_date` rejects it because of the eight-digit guard. |
| Scenarios.LettersRejected | main.py:24-33 | `"abcdefgh"` is rejected. |
| Scenarios.ScoreExamples | main.py:54 | 95 is valid under ceiling 100. 97 and 150 are not. |
| Scenarios.PassExamples | main.py:81 | Scores 70, 70, 70 pass. Scores 69, 100, 100 do not. |
| Scenarios.ExampleDates | main.py:38-39 | `"20000101"` is accepted. `"20231301"`, with month 13, is rejected. |
| Scenarios.ExampleScores | main.py:66-84 | Scores 100, 100, 150 / 60, 100, 150 are all valid. The abacus group passes and the mental group does not. |

## Left out

- Spreadsheet I/O is not modelled: `read_excel`, `to_excel`, `load_workbook`, `save` and the fill style. The input arrives as typed rows plus a header list, and the fill is a boolean mask.
- The mask has one row per data row below the header (`ws.max_row` is the number of rows plus one) and one column per frame column. That is the layout `to_excel` writes.
- `df.at[row - 2, ...]` is read by position. `read_excel` gives the default index 0, 1, 2, ..., so label and position agree.
- The file picker, the success pop-up and the window loop are not modelled (version1.py:92-112).
- The fixed input path and the `_error.xlsx` output name of the script form are configuration (main.py:9, 87). Only the `_verified` name is modelled.
- Directory handling is not modelled: `os.path.split`, `splitext` and `join`. `Naming.OutputFileName` takes the base name and the extension as given.
- Cells come typed. The `str(x)` coercion of a date cell is not modelled (a float such as `20230101.0`, `NaN` or a timestamp would become some other string), so dates are strings from the start. Scores are integers; float and missing scores are not modelled.
- Only ASCII digits are modelled. Python's `\d` and `strptime` also accept other Unicode decimal digits.
- A sheet missing one of the eight input columns makes the script raise `KeyError`. The model requires the columns to be present (`HasRequiredColumns`) instead of modelling that failure. `Highlight.HighlightFrame` likewise requires all ten derived columns to be present.
- With zero data rows, pandas' row-wise `apply` tries the lambda on an all-missing row, gets the plain string `"did not pass"` back, and so returns an empty series; the assignment then adds an empty column. The model gives the pass columns no cells on zero rows, as for every other derived column. The stand-in values are not modelled, because they never reach a cell.
- `strptime` is modelled only as far as `'%Y%m%d'` uses it. Other directives and locale handling are not modelled.
- Concrete whole-sheet examples are stated per row and per date (`Scenarios`) rather than over a literal sheet, to keep their proofs small.

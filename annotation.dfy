/** The row-wise annotation: what the script adds to every row of the
    sheet. Rows are typed records of the eight input columns the engine
    reads; each gets ten derived values. */
module Annotation {
  import opened Validators

  /** The six score columns. */
  datatype ScoreColumn =
    | AbacusMultiplication | AbacusDivision | AbacusAdditionSubtraction
    | MentalMultiplication | MentalDivision | MentalAdditionSubtraction
  {
    /** The column's header in the sheet. */
    function Name(): string {
      match this
      case AbacusMultiplication => "abacus_multiplication"
      case AbacusDivision => "abacus_division"
      case AbacusAdditionSubtraction => "abacus_addition_subtraction"
      case MentalMultiplication => "mental_multiplication"
      case MentalDivision => "mental_division"
      case MentalAdditionSubtraction => "mental_addition_subtraction"
    }

    /** The header of the derived `<col>_Valid` column. */
    function ValidName(): string {
      Name() + "_Valid"
    }

    predicate IsAdditionSubtraction() {
      this == AbacusAdditionSubtraction || this == MentalAdditionSubtraction
    }
  }

  /** The `score_columns` table: every score column with its ceiling, in the
      order the script walks it. */
  const SCORE_COLUMNS: seq<(ScoreColumn, int)> := [
    (AbacusMultiplication, 100),
    (AbacusDivision, 100),
    (AbacusAdditionSubtraction, 150),
    (MentalMultiplication, 100),
    (MentalDivision, 100),
    (MentalAdditionSubtraction, 150)
  ]

  /** The ceiling a score column is documented to have: 150 for the
      addition/subtraction tests, 100 for the others. */
  function Ceiling(c: ScoreColumn): int {
    if c.IsAdditionSubtraction() then 150 else 100
  }

  /** The table lists each column once (`TableIndex` finds every column in
      it), with that column's own ceiling. */
  lemma ScoreColumnsTable()
    ensures forall k :: 0 <= k < |SCORE_COLUMNS| ==> SCORE_COLUMNS[k].1 == Ceiling(SCORE_COLUMNS[k].0)
    ensures forall k, l :: 0 <= k < l < |SCORE_COLUMNS| ==> SCORE_COLUMNS[k].0 != SCORE_COLUMNS[l].0
  {
  }

  /** Where a score column sits in the table. */
  function TableIndex(c: ScoreColumn): (k: nat)
    ensures k < |SCORE_COLUMNS| && SCORE_COLUMNS[k].0 == c
  {
    match c
    case AbacusMultiplication => 0
    case AbacusDivision => 1
    case AbacusAdditionSubtraction => 2
    case MentalMultiplication => 3
    case MentalDivision => 4
    case MentalAdditionSubtraction => 5
  }

  /** Headers of the input columns the engine reads. */
  const DATE_OF_BIRTH := "date_of_birth"
  const TEST_DATE := "test_date"

  /** The input headers the engine needs; a sheet without one of them fails
      with `KeyError`. */
  function RequiredColumns(): seq<string> {
    [DATE_OF_BIRTH, TEST_DATE] + seq(|SCORE_COLUMNS|, k requires 0 <= k < |SCORE_COLUMNS| => SCORE_COLUMNS[k].0.Name())
  }

  /** The ten columns the script adds. */
  datatype DerivedColumn =
    | DobFormatCorrect
    | TestDateFormatCorrect
    | ScoreValid(column: ScoreColumn)
    | AbacusPass
    | MentalPass
  {
    /** The column's header in the output sheet. */
    function Name(): string {
      match this
      case DobFormatCorrect => "DOB_Format_Correct"
      case TestDateFormatCorrect => "Test_Date_Format_Correct"
      case ScoreValid(c) => c.ValidName()
      case AbacusPass => "abacus_pass"
      case MentalPass => "mental_pass"
    }
  }

  /** The derived columns, in the order the script adds them. */
  const DERIVED_COLUMNS: seq<DerivedColumn> := [
    DobFormatCorrect,
    TestDateFormatCorrect,
    ScoreValid(AbacusMultiplication),
    ScoreValid(AbacusDivision),
    ScoreValid(AbacusAdditionSubtraction),
    ScoreValid(MentalMultiplication),
    ScoreValid(MentalDivision),
    ScoreValid(MentalAdditionSubtraction),
    AbacusPass,
    MentalPass
  ]

  /** The `_Valid` columns come between the date flags and the pass columns,
      in the order of the `score_columns` table, and no column is added twice. */
  lemma DerivedColumnsOrder()
    ensures |DERIVED_COLUMNS| == 2 + |SCORE_COLUMNS| + 2
    ensures DERIVED_COLUMNS[0] == DobFormatCorrect && DERIVED_COLUMNS[1] == TestDateFormatCorrect
    ensures forall k :: 0 <= k < |SCORE_COLUMNS| ==> DERIVED_COLUMNS[2 + k] == ScoreValid(SCORE_COLUMNS[k].0)
    ensures DERIVED_COLUMNS[8] == AbacusPass && DERIVED_COLUMNS[9] == MentalPass
    ensures forall j, l :: 0 <= j < l < |DERIVED_COLUMNS| ==> DERIVED_COLUMNS[j] != DERIVED_COLUMNS[l]
  {
  }

  /** Their headers, in the same order. */
  function DerivedNames(): seq<string> {
    seq(|DERIVED_COLUMNS|, j requires 0 <= j < |DERIVED_COLUMNS| => DERIVED_COLUMNS[j].Name())
  }

  /** One data row: its two dates (as the strings `str(x)` yields) and its six scores. */
  datatype Row = Row(
    dateOfBirth: string,
    testDate: string,
    abacusMultiplication: int,
    abacusDivision: int,
    abacusAdditionSubtraction: int,
    mentalMultiplication: int,
    mentalDivision: int,
    mentalAdditionSubtraction: int)
  {
    function Score(c: ScoreColumn): int {
      match c
      case AbacusMultiplication => abacusMultiplication
      case AbacusDivision => abacusDivision
      case AbacusAdditionSubtraction => abacusAdditionSubtraction
      case MentalMultiplication => mentalMultiplication
      case MentalDivision => mentalDivision
      case MentalAdditionSubtraction => mentalAdditionSubtraction
    }

    /** The arguments of `check_pass` for the abacus group. */
    function AbacusScores(): seq<int> {
      [abacusMultiplication, abacusDivision, abacusAdditionSubtraction]
    }

    /** The arguments of `check_pass` for the mental group. */
    function MentalScores(): seq<int> {
      [mentalMultiplication, mentalDivision, mentalAdditionSubtraction]
    }
  }

  /** The ten derived values of one row; `scoreValid[k]` belongs to
      `SCORE_COLUMNS[k]`. */
  datatype Annotation = Annotation(
    dobFormatCorrect: bool,
    testDateFormatCorrect: bool,
    scoreValid: seq<bool>,
    abacusPass: string,
    mentalPass: string)

  function AnnotateRow(row: Row): (a: Annotation)
    ensures |a.scoreValid| == |SCORE_COLUMNS|
  {
    Annotation(
      IsValidDate(row.dateOfBirth),
      IsValidDate(row.testDate),
      seq(|SCORE_COLUMNS|, k requires 0 <= k < |SCORE_COLUMNS| => CheckScores(row.Score(SCORE_COLUMNS[k].0), SCORE_COLUMNS[k].1)),
      CheckPass(row.AbacusScores()),
      CheckPass(row.MentalScores()))
  }

  /** The annotation of a whole sheet: one annotation per row, in row order,
      each computed from its own row alone. */
  function AnnotateRows(rows: seq<Row>): (anns: seq<Annotation>)
    ensures |anns| == |rows|
    ensures forall i :: 0 <= i < |rows| ==> anns[i] == AnnotateRow(rows[i])
  {
    if rows == [] then [] else AnnotateRows(rows[..|rows| - 1]) + [AnnotateRow(rows[|rows| - 1])]
  }

  /** Annotating two runs of rows one after the other is annotating them
      together: nothing depends on a row's neighbours or its position. */
  lemma AnnotateRowsAppend(first: seq<Row>, second: seq<Row>)
    ensures AnnotateRows(first + second) == AnnotateRows(first) + AnnotateRows(second)
  {
    var all, a, b := AnnotateRows(first + second), AnnotateRows(first), AnnotateRows(second);
    assert forall i :: 0 <= i < |all| ==> all[i] == (a + b)[i] by {
      forall i | 0 <= i < |all| ensures all[i] == (a + b)[i] {
        if i >= |first| {
          assert (first + second)[i] == second[i - |first|];
        }
      }
    }
  }

  /** Each score column is judged against its own ceiling: 100 for
      multiplication and division, 150 for addition/subtraction. */
  lemma ScoreValidAgainstCeiling(row: Row, c: ScoreColumn)
    ensures AnnotateRow(row).scoreValid[TableIndex(c)]
      <==> 0 <= row.Score(c) <= Ceiling(c) && row.Score(c) % 5 == 0
  {
    ScoreColumnsTable();
  }

  /** The dates are judged by the calendar: a flag is set exactly when the
      cell is eight digits naming a real day. */
  lemma DateFlagsMeanCalendarDates(row: Row)
    ensures AnnotateRow(row).dobFormatCorrect <==> IsRealDate(row.dateOfBirth)
    ensures AnnotateRow(row).testDateFormatCorrect <==> IsRealDate(row.testDate)
  {
    IsValidDateIff(row.dateOfBirth);
    IsValidDateIff(row.testDate);
  }

  /** A group passes exactly when its own three scores are all at least 70;
      the other group and the validity flags play no part. */
  lemma PassUsesOnlyItsGroup(row: Row, other: Row)
    ensures AnnotateRow(row).abacusPass == PASS
      <==> row.abacusMultiplication >= 70 && row.abacusDivision >= 70 && row.abacusAdditionSubtraction >= 70
    ensures AnnotateRow(row).mentalPass == PASS
      <==> row.mentalMultiplication >= 70 && row.mentalDivision >= 70 && row.mentalAdditionSubtraction >= 70
    ensures row.AbacusScores() == other.AbacusScores() ==> AnnotateRow(row).abacusPass == AnnotateRow(other).abacusPass
    ensures row.MentalScores() == other.MentalScores() ==> AnnotateRow(row).mentalPass == AnnotateRow(other).mentalPass
  {
    var a, m := row.AbacusScores(), row.MentalScores();
    assert (forall i :: 0 <= i < |a| ==> a[i] >= PASS_MARK) <==> a[0] >= 70 && a[1] >= 70 && a[2] >= 70;
    assert (forall i :: 0 <= i < |m| ==> m[i] >= PASS_MARK) <==> m[0] >= 70 && m[1] >= 70 && m[2] >= 70;
  }

  /** An out-of-range or non-multiple-of-5 score still counts towards a pass:
      a row whose abacus scores are all invalid can pass the abacus group. */
  lemma InvalidScoresCanPass(dateOfBirth: string, testDate: string)
    ensures var row := Row(dateOfBirth, testDate, 71, 200, 151, 70, 70, 70);
      var a := AnnotateRow(row);
      !a.scoreValid[0] && !a.scoreValid[1] && !a.scoreValid[2] && a.abacusPass == PASS
  {
    var row := Row(dateOfBirth, testDate, 71, 200, 151, 70, 70, 70);
    assert row.AbacusScores()[0] >= 70 && row.AbacusScores()[1] >= 70 && row.AbacusScores()[2] >= 70;
  }
}

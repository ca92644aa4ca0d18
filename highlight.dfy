/** The highlighting pass: after the annotated frame is written out, the
    script paints red the source cells whose check failed. The sheet's fill
    is a boolean mask `fill`; `fill[i, j]` is the cell in sheet row `i + 1`
    and sheet column `j + 1`. Row 0 is the header row, and sheet row `r >= 2`
    (array row `r - 1`) holds data row `r - 2`. */
module Highlight {
  import opened Validators
  import opened Annotation
  import opened Frame

  /** `df.columns.get_loc(name)`: the position of `name` among the headers. */
  function IndexOf(columns: seq<string>, name: string): (k: nat)
    requires name in columns
    ensures k < |columns| && columns[k] == name
    ensures forall l :: 0 <= l < k ==> columns[l] != name
  {
    if columns[0] == name then 0 else 1 + IndexOf(columns[1..], name)
  }

  /** Array column `j` is the column headed `name`. */
  predicate At(columns: seq<string>, name: string, j: int) {
    name in columns && j == IndexOf(columns, name)
  }

  /** Python truthiness of a cell: `not cell` holds for `False` and `""`. */
  predicate Falsy(c: Cell): (f: bool)
    ensures f <==> c == Flag(false) || c == Text("")
    ensures c == Text(PASS) || c == Text(DID_NOT_PASS) ==> !f
  {
    match c
    case Flag(b) => !b
    case Text(s) => s == ""
  }

  /** `not df.at[r, name]` for the column `cells`. */
  predicate FlagFails(cells: seq<Cell>, r: int) {
    0 <= r < |cells| && Falsy(cells[r])
  }

  /** `df.at[r, name] == 'did not pass'` for the column `cells`. */
  predicate ReadsDidNotPass(cells: seq<Cell>, r: int) {
    0 <= r < |cells| && cells[r] == Text(DID_NOT_PASS)
  }

  /** The assigned column `d`, or no cells when it is missing. */
  function Column(derived: map<DerivedColumn, seq<Cell>>, d: DerivedColumn): seq<Cell> {
    if d in derived then derived[d] else []
  }

  /** Cells the date loop paints. */
  predicate DateMark(columns: seq<string>, derived: map<DerivedColumn, seq<Cell>>, i: int, j: int) {
    || (At(columns, DATE_OF_BIRTH, j) && FlagFails(Column(derived, DobFormatCorrect), i - 1))
    || (At(columns, TEST_DATE, j) && FlagFails(Column(derived, TestDateFormatCorrect), i - 1))
  }

  /** Cells the loop over `score_columns` paints for the `k`-th entry. */
  predicate ScoreMark(columns: seq<string>, derived: map<DerivedColumn, seq<Cell>>, k: nat, i: int, j: int)
    requires k < |SCORE_COLUMNS|
  {
    At(columns, SCORE_COLUMNS[k].0.Name(), j) && FlagFails(Column(derived, ScoreValid(SCORE_COLUMNS[k].0)), i - 1)
  }

  /** Cells the loop over `score_columns` paints for its first `n` entries. */
  predicate ScoreMarkBefore(columns: seq<string>, derived: map<DerivedColumn, seq<Cell>>, n: nat, i: int, j: int)
    requires n <= |SCORE_COLUMNS|
  {
    n > 0 && (ScoreMarkBefore(columns, derived, n - 1, i, j) || ScoreMark(columns, derived, n - 1, i, j))
  }

  /** Cells the pass loop paints. */
  predicate PassMark(columns: seq<string>, derived: map<DerivedColumn, seq<Cell>>, i: int, j: int) {
    || (At(columns, AbacusPass.Name(), j) && ReadsDidNotPass(Column(derived, AbacusPass), i - 1))
    || (At(columns, MentalPass.Name(), j) && ReadsDidNotPass(Column(derived, MentalPass), i - 1))
  }

  /** Cells any of the three loops paints. */
  predicate Marked(columns: seq<string>, derived: map<DerivedColumn, seq<Cell>>, i: int, j: int) {
    || DateMark(columns, derived, i, j)
    || ScoreMarkBefore(columns, derived, |SCORE_COLUMNS|, i, j)
    || PassMark(columns, derived, i, j)
  }

  /** The date loop: for every data row, paint the date of birth and the
      test date when their format flags are false. */
  method HighlightDates(fill: array2<bool>, dob: nat, test: nat, dobFlags: seq<Cell>, testFlags: seq<Cell>)
    requires dob < fill.Length1 && test < fill.Length1
    requires |dobFlags| == fill.Length0 - 1 && |testFlags| == fill.Length0 - 1
    modifies fill
    ensures forall i, j :: 0 <= i < fill.Length0 && 0 <= j < fill.Length1 ==>
      fill[i, j] == (old(fill[i, j]) || (j == dob && FlagFails(dobFlags, i - 1)) || (j == test && FlagFails(testFlags, i - 1)))
  {
    for row := 2 to fill.Length0 + 1
      invariant forall i, j :: 0 <= i < fill.Length0 && 0 <= j < fill.Length1 ==>
        fill[i, j] == (old(fill[i, j]) || (i < row - 1 &&
          ((j == dob && FlagFails(dobFlags, i - 1)) || (j == test && FlagFails(testFlags, i - 1)))))
    {
      if Falsy(dobFlags[row - 2]) {
        fill[row - 1, dob] := true;
      }
      if Falsy(testFlags[row - 2]) {
        fill[row - 1, test] := true;
      }
    }
  }

  /** The inner loop for one score column: paint the cells whose `_Valid`
      flag is false. */
  method HighlightColumn(fill: array2<bool>, col: nat, flags: seq<Cell>)
    requires col < fill.Length1 && |flags| == fill.Length0 - 1
    modifies fill
    ensures forall i, j :: 0 <= i < fill.Length0 && 0 <= j < fill.Length1 ==>
      fill[i, j] == (old(fill[i, j]) || (j == col && FlagFails(flags, i - 1)))
  {
    for row := 2 to fill.Length0 + 1
      invariant forall i, j :: 0 <= i < fill.Length0 && 0 <= j < fill.Length1 ==>
        fill[i, j] == (old(fill[i, j]) || (i < row - 1 && j == col && FlagFails(flags, i - 1)))
    {
      if Falsy(flags[row - 2]) {
        fill[row - 1, col] := true;
      }
    }
  }

  /** The loop over `score_columns`. */
  method HighlightScores(fill: array2<bool>, columns: seq<string>, derived: map<DerivedColumn, seq<Cell>>)
    requires fill.Length1 == |columns|
    requires forall k :: 0 <= k < |SCORE_COLUMNS| ==> SCORE_COLUMNS[k].0.Name() in columns
    requires forall c :: ScoreValid(c) in derived && |derived[ScoreValid(c)]| == fill.Length0 - 1
    modifies fill
    ensures forall i, j :: 0 <= i < fill.Length0 && 0 <= j < fill.Length1 ==>
      fill[i, j] == (old(fill[i, j]) || ScoreMarkBefore(columns, derived, |SCORE_COLUMNS|, i, j))
  {
    for k := 0 to |SCORE_COLUMNS|
      invariant forall i, j :: 0 <= i < fill.Length0 && 0 <= j < fill.Length1 ==>
        fill[i, j] == (old(fill[i, j]) || ScoreMarkBefore(columns, derived, k, i, j))
    {
      var (col, maxValue) := SCORE_COLUMNS[k];
      var colIndex := IndexOf(columns, col.Name());
      HighlightColumn(fill, colIndex, derived[ScoreValid(col)]);
    }
  }

  /** The pass loop: paint the pass cells that read "did not pass". */
  method HighlightPass(fill: array2<bool>, abacus: nat, mental: nat, abacusCells: seq<Cell>, mentalCells: seq<Cell>)
    requires abacus < fill.Length1 && mental < fill.Length1
    requires |abacusCells| == fill.Length0 - 1 && |mentalCells| == fill.Length0 - 1
    modifies fill
    ensures forall i, j :: 0 <= i < fill.Length0 && 0 <= j < fill.Length1 ==>
      fill[i, j] == (old(fill[i, j])
        || (j == abacus && ReadsDidNotPass(abacusCells, i - 1)) || (j == mental && ReadsDidNotPass(mentalCells, i - 1)))
  {
    for row := 2 to fill.Length0 + 1
      invariant forall i, j :: 0 <= i < fill.Length0 && 0 <= j < fill.Length1 ==>
        fill[i, j] == (old(fill[i, j]) || (i < row - 1 &&
          ((j == abacus && ReadsDidNotPass(abacusCells, i - 1)) || (j == mental && ReadsDidNotPass(mentalCells, i - 1)))))
    {
      if abacusCells[row - 2] == Text(DID_NOT_PASS) {
        fill[row - 1, abacus] := true;
      }
      if mentalCells[row - 2] == Text(DID_NOT_PASS) {
        fill[row - 1, mental] := true;
      }
    }
  }

  /** The three loops in order, over the annotated frame. Every derived
      column must be present (the script's `df.at` lookups raise `KeyError`
      otherwise), and the sheet has one row per data row below its header. */
  method HighlightFrame(df: DataFrame, fill: array2<bool>)
    requires df.Valid()
    requires forall d: DerivedColumn :: d in df.derived
    requires fill.Length0 == |df.rows| + 1 && fill.Length1 == |df.columns|
    modifies fill
    ensures forall i, j :: 0 <= i < fill.Length0 && 0 <= j < fill.Length1 ==>
      fill[i, j] == (old(fill[i, j]) || Marked(df.columns, df.derived, i, j))
  {
    var columns, derived := df.columns, df.derived;
    assert RequiredColumns()[0] == DATE_OF_BIRTH && RequiredColumns()[1] == TEST_DATE;
    assert forall k :: 0 <= k < |SCORE_COLUMNS| ==> RequiredColumns()[2 + k] == SCORE_COLUMNS[k].0.Name();
    assert AbacusPass in derived && MentalPass in derived;

    var dob := IndexOf(columns, DATE_OF_BIRTH);
    var test := IndexOf(columns, TEST_DATE);
    HighlightDates(fill, dob, test, derived[DobFormatCorrect], derived[TestDateFormatCorrect]);
    assert forall i, j :: 0 <= i < fill.Length0 && 0 <= j < fill.Length1 ==>
      fill[i, j] == (old(fill[i, j]) || DateMark(columns, derived, i, j));
    label dates:
    HighlightScores(fill, columns, derived);
    assert forall i, j :: 0 <= i < fill.Length0 && 0 <= j < fill.Length1 ==>
      fill[i, j] == (old@dates(fill[i, j]) || ScoreMarkBefore(columns, derived, |SCORE_COLUMNS|, i, j));
    label scores:
    var abacus := IndexOf(columns, AbacusPass.Name());
    var mental := IndexOf(columns, MentalPass.Name());
    HighlightPass(fill, abacus, mental, derived[AbacusPass], derived[MentalPass]);
    assert forall i, j :: 0 <= i < fill.Length0 && 0 <= j < fill.Length1 ==>
      fill[i, j] == (old@scores(fill[i, j]) || PassMark(columns, derived, i, j));
  }

  /** Running the loops a second time paints nothing new. */
  method HighlightTwice(df: DataFrame, fill: array2<bool>)
    requires df.Valid()
    requires forall d: DerivedColumn :: d in df.derived
    requires fill.Length0 == |df.rows| + 1 && fill.Length1 == |df.columns|
    modifies fill
    ensures forall i, j :: 0 <= i < fill.Length0 && 0 <= j < fill.Length1 ==>
      fill[i, j] == (old(fill[i, j]) || Marked(df.columns, df.derived, i, j))
  {
    HighlightFrame(df, fill);
    HighlightFrame(df, fill);
  }

  /** A score outside 0..ceiling or not a multiple of 5. */
  predicate BadScore(score: int, ceiling: int) {
    !(0 <= score <= ceiling && score % 5 == 0)
  }

  /** A group with a score below the pass mark. */
  predicate SomeBelowPassMark(a: int, b: int, c: int) {
    a < PASS_MARK || b < PASS_MARK || c < PASS_MARK
  }

  /** The highlighting policy read straight off the input rows: a cell of a
      data row is red exactly when it is a date that is not a real day, a
      score that breaks its column's documented ceiling or step, or the pass
      cell of a group with a score below the pass mark. */
  predicate ExpectedFill(rows: seq<Row>, columns: seq<string>, i: int, j: int) {
    1 <= i <= |rows| &&
    var row := rows[i - 1];
    || (At(columns, DATE_OF_BIRTH, j) && !IsRealDate(row.dateOfBirth))
    || (At(columns, TEST_DATE, j) && !IsRealDate(row.testDate))
    || (exists k :: 0 <= k < |SCORE_COLUMNS| && At(columns, SCORE_COLUMNS[k].0.Name(), j)
          && BadScore(row.Score(SCORE_COLUMNS[k].0), Ceiling(SCORE_COLUMNS[k].0)))
    || (At(columns, AbacusPass.Name(), j)
          && SomeBelowPassMark(row.abacusMultiplication, row.abacusDivision, row.abacusAdditionSubtraction))
    || (At(columns, MentalPass.Name(), j)
          && SomeBelowPassMark(row.mentalMultiplication, row.mentalDivision, row.mentalAdditionSubtraction))
  }

  /** The score loop paints a cell exactly when one of the first `n` score
      columns does. */
  lemma {:induction false} ScoreMarkBeforeIff(columns: seq<string>, derived: map<DerivedColumn, seq<Cell>>, n: nat, i: int, j: int)
    requires n <= |SCORE_COLUMNS|
    ensures ScoreMarkBefore(columns, derived, n, i, j) <==> exists k :: 0 <= k < n && ScoreMark(columns, derived, k, i, j)
  {
    if n > 0 {
      ScoreMarkBeforeIff(columns, derived, n - 1, i, j);
    }
  }

  /** Column `d` of `derived` is the one annotating `rows` would assign. */
  predicate AssignedAsAnnotated(rows: seq<Row>, derived: map<DerivedColumn, seq<Cell>>, d: DerivedColumn) {
    Column(derived, d) == AnnotationColumn(AnnotateRows(rows), d)
  }

  lemma DateMarkMeansBadDate(rows: seq<Row>, derived: map<DerivedColumn, seq<Cell>>, columns: seq<string>, i: int, j: int)
    requires AssignedAsAnnotated(rows, derived, DobFormatCorrect)
    requires AssignedAsAnnotated(rows, derived, TestDateFormatCorrect)
    ensures DateMark(columns, derived, i, j) <==> (1 <= i <= |rows| && (
      || (At(columns, DATE_OF_BIRTH, j) && !IsRealDate(rows[i - 1].dateOfBirth))
      || (At(columns, TEST_DATE, j) && !IsRealDate(rows[i - 1].testDate))))
  {
    var dob, test := Column(derived, DobFormatCorrect), Column(derived, TestDateFormatCorrect);
    assert |dob| == |rows| && |test| == |rows|;
    if 1 <= i <= |rows| {
      AnnotatedCell(rows, i - 1, DobFormatCorrect);
      AnnotatedCell(rows, i - 1, TestDateFormatCorrect);
      DateFlagsMeanCalendarDates(rows[i - 1]);
      assert FlagFails(dob, i - 1) <==> !IsRealDate(rows[i - 1].dateOfBirth);
      assert FlagFails(test, i - 1) <==> !IsRealDate(rows[i - 1].testDate);
    }
  }

  /** A row's `_Valid` cell is falsy exactly when its score breaks its
      column's rule. */
  lemma ScoreFlagMeansBadScore(row: Row, cell: Cell, c: ScoreColumn)
    requires cell == CellOf(AnnotateRow(row), ScoreValid(c))
    ensures Falsy(cell) <==> BadScore(row.Score(c), Ceiling(c))
  {
    ScoreValidAgainstCeiling(row, c);
  }

  lemma ScoreMarkMeansBadScore(rows: seq<Row>, derived: map<DerivedColumn, seq<Cell>>, columns: seq<string>, k: nat, i: int, j: int)
    requires k < |SCORE_COLUMNS|
    requires AssignedAsAnnotated(rows, derived, ScoreValid(SCORE_COLUMNS[k].0))
    ensures ScoreMark(columns, derived, k, i, j) <==> (1 <= i <= |rows| && At(columns, SCORE_COLUMNS[k].0.Name(), j)
      && BadScore(rows[i - 1].Score(SCORE_COLUMNS[k].0), Ceiling(SCORE_COLUMNS[k].0)))
  {
    ScoreColumnFailsOnBadScore(rows, derived, SCORE_COLUMNS[k].0, i - 1);
  }

  /** Row `r` of the assigned `_Valid` column of `c` fails exactly when
      there is such a row and its score breaks the column's rule. */
  lemma ScoreColumnFailsOnBadScore(rows: seq<Row>, derived: map<DerivedColumn, seq<Cell>>, c: ScoreColumn, r: int)
    requires AssignedAsAnnotated(rows, derived, ScoreValid(c))
    ensures FlagFails(Column(derived, ScoreValid(c)), r) <==> 0 <= r < |rows| && BadScore(rows[r].Score(c), Ceiling(c))
  {
    var flags := Column(derived, ScoreValid(c));
    assert |flags| == |rows|;
    if 0 <= r < |rows| {
      AnnotatedCell(rows, r, ScoreValid(c));
      ScoreFlagMeansBadScore(rows[r], flags[r], c);
    }
  }

  /** A row's pass cells read "did not pass" exactly when their group has a
      score below the pass mark. */
  lemma PassCellsMeanLowScores(row: Row, abacus: Cell, mental: Cell)
    requires abacus == CellOf(AnnotateRow(row), AbacusPass)
    requires mental == CellOf(AnnotateRow(row), MentalPass)
    ensures abacus == Text(DID_NOT_PASS) <==> SomeBelowPassMark(
      row.abacusMultiplication, row.abacusDivision, row.abacusAdditionSubtraction)
    ensures mental == Text(DID_NOT_PASS) <==> SomeBelowPassMark(
      row.mentalMultiplication, row.mentalDivision, row.mentalAdditionSubtraction)
  {
    PassUsesOnlyItsGroup(row, row);
    assert PASS != DID_NOT_PASS by { assert |PASS| != |DID_NOT_PASS|; }
  }

  lemma PassMarkMeansLowScore(rows: seq<Row>, derived: map<DerivedColumn, seq<Cell>>, columns: seq<string>, i: int, j: int)
    requires AssignedAsAnnotated(rows, derived, AbacusPass)
    requires AssignedAsAnnotated(rows, derived, MentalPass)
    ensures PassMark(columns, derived, i, j) <==> (1 <= i <= |rows| && (
      || (At(columns, AbacusPass.Name(), j) && SomeBelowPassMark(
            rows[i - 1].abacusMultiplication, rows[i - 1].abacusDivision, rows[i - 1].abacusAdditionSubtraction))
      || (At(columns, MentalPass.Name(), j) && SomeBelowPassMark(
            rows[i - 1].mentalMultiplication, rows[i - 1].mentalDivision, rows[i - 1].mentalAdditionSubtraction))))
  {
    PassColumnsFailOnLowScores(rows, derived, i - 1);
  }

  /** Row `r` of the assigned pass columns reads "did not pass" exactly when
      there is such a row and its group has a score below the pass mark. */
  lemma PassColumnsFailOnLowScores(rows: seq<Row>, derived: map<DerivedColumn, seq<Cell>>, r: int)
    requires AssignedAsAnnotated(rows, derived, AbacusPass)
    requires AssignedAsAnnotated(rows, derived, MentalPass)
    ensures ReadsDidNotPass(Column(derived, AbacusPass), r) <==> 0 <= r < |rows| && SomeBelowPassMark(
      rows[r].abacusMultiplication, rows[r].abacusDivision, rows[r].abacusAdditionSubtraction)
    ensures ReadsDidNotPass(Column(derived, MentalPass), r) <==> 0 <= r < |rows| && SomeBelowPassMark(
      rows[r].mentalMultiplication, rows[r].mentalDivision, rows[r].mentalAdditionSubtraction)
  {
    var abacus, mental := Column(derived, AbacusPass), Column(derived, MentalPass);
    assert |abacus| == |rows| && |mental| == |rows|;
    if 0 <= r < |rows| {
      AnnotatedCell(rows, r, AbacusPass);
      AnnotatedCell(rows, r, MentalPass);
      PassCellsMeanLowScores(rows[r], abacus[r], mental[r]);
    }
  }

  /** On the annotated frame, the loops paint exactly the cells the policy
      names. */
  lemma MarkedMeansFailure(rows: seq<Row>, columns: seq<string>, i: int, j: int)
    ensures Marked(columns, AnnotationColumns(AnnotateRows(rows)), i, j) <==> ExpectedFill(rows, columns, i, j)
  {
    var anns := AnnotateRows(rows);
    var derived := AnnotationColumns(anns);
    forall d ensures AssignedAsAnnotated(rows, derived, d) {
      EveryDerivedColumnAssigned(anns, d);
    }
    DateMarkMeansBadDate(rows, derived, columns, i, j);
    PassMarkMeansLowScore(rows, derived, columns, i, j);
    ScoreMarkBeforeIff(columns, derived, |SCORE_COLUMNS|, i, j);
    forall k | 0 <= k < |SCORE_COLUMNS|
      ensures ScoreMark(columns, derived, k, i, j) <==> (1 <= i <= |rows| && At(columns, SCORE_COLUMNS[k].0.Name(), j)
        && BadScore(rows[i - 1].Score(SCORE_COLUMNS[k].0), Ceiling(SCORE_COLUMNS[k].0)))
    {
      ScoreMarkMeansBadScore(rows, derived, columns, k, i, j);
    }
  }

  /** The headers of the cells the loops may paint. */
  function CheckedHeaders(): seq<string> {
    RequiredColumns() + [AbacusPass.Name(), MentalPass.Name()]
  }

  /** Only data rows and the checked columns are ever painted: the header
      row, the derived flag columns and any other column keep their fill. */
  lemma MarkedOnlyCheckedCells(columns: seq<string>, derived: map<DerivedColumn, seq<Cell>>, i: int, j: int)
    requires Marked(columns, derived, i, j)
    ensures 1 <= i && 0 <= j < |columns| && columns[j] in CheckedHeaders()
  {
    var names := CheckedHeaders();
    assert names[0] == DATE_OF_BIRTH && names[1] == TEST_DATE;
    assert names[8] == AbacusPass.Name() && names[9] == MentalPass.Name();
    ScoreMarkBeforeIff(columns, derived, |SCORE_COLUMNS|, i, j);
    if ScoreMarkBefore(columns, derived, |SCORE_COLUMNS|, i, j) {
      var k :| 0 <= k < |SCORE_COLUMNS| && ScoreMark(columns, derived, k, i, j);
      assert names[2 + k] == SCORE_COLUMNS[k].0.Name();
    }
  }

  /** The whole run on one sheet: read the frame, annotate it, and paint a
      fresh fill mask. The new headers are the old ones followed by the
      derived ones, and the painted cells are exactly those the policy names. */
  method ProcessFile(rows: seq<Row>, columns: seq<string>) returns (df: DataFrame, fill: array2<bool>)
    requires Distinct(columns) && HasRequiredColumns(columns)
    ensures df.rows == rows
    ensures df.columns == WithColumns(columns, DerivedNames())
    ensures df.derived == AnnotationColumns(AnnotateRows(rows))
    ensures fill.Length0 == |rows| + 1 && fill.Length1 == |df.columns|
    ensures forall i, j :: 0 <= i < fill.Length0 && 0 <= j < fill.Length1 ==>
      fill[i, j] == ExpectedFill(rows, df.columns, i, j)
  {
    df := new DataFrame(rows, columns);
    df.Annotate();
    assert df.derived == AnnotationColumns(AnnotateRows(rows));
    forall d: DerivedColumn
      ensures d in df.derived
    {
      EveryDerivedColumnAssigned(AnnotateRows(rows), d);
    }
    fill := new bool[|rows| + 1, |df.columns|]((i, j) => false);
    HighlightFrame(df, fill);
    forall i, j | 0 <= i < fill.Length0 && 0 <= j < fill.Length1
      ensures fill[i, j] == ExpectedFill(rows, df.columns, i, j)
    {
      MarkedMeansFailure(rows, df.columns, i, j);
    }
  }
}

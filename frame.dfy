/** The DataFrame the script annotates in place: its header list and the
    columns it assigns. The input columns' values are the typed rows; the
    assigned columns are kept by name, as `df[name] = ...` stores them. */
module Frame {
  import opened Validators
  import opened Annotation

  /** A value of an assigned column: a flag of the boolean columns or a
      string of the pass columns. */
  datatype Cell = Flag(b: bool) | Text(s: string)

  predicate Distinct(s: seq<string>) {
    forall i, j :: 0 <= i < j < |s| ==> s[i] != s[j]
  }

  predicate HasRequiredColumns(columns: seq<string>) {
    forall n :: n in RequiredColumns() ==> n in columns
  }

  /** What `df[name] = ...` does to the header list: an existing column
      keeps its place, a new one is appended. */
  function WithColumn(columns: seq<string>, name: string): (r: seq<string>)
    ensures columns <= r && name in r
    ensures name in columns ==> r == columns
    ensures name !in columns ==> |r| == |columns| + 1 && r[|columns|] == name
  {
    if name in columns then columns else columns + [name]
  }

  /** The header list after assigning `names` one after another. */
  function WithColumns(columns: seq<string>, names: seq<string>): (r: seq<string>)
    ensures |columns| <= |r| <= |columns| + |names|
    ensures names != [] ==> names[|names| - 1] in r
  {
    if names == [] then columns
    else WithColumn(WithColumns(columns, names[..|names| - 1]), names[|names| - 1])
  }

  /** Assigning columns never moves or drops a header, adds every assigned
      name, and never creates a duplicate. */
  lemma {:induction false} WithColumnsKeepsHeaders(columns: seq<string>, names: seq<string>)
    ensures columns <= WithColumns(columns, names)
    ensures forall n :: n in names ==> n in WithColumns(columns, names)
    ensures Distinct(columns) ==> Distinct(WithColumns(columns, names))
    ensures forall n :: n in WithColumns(columns, names) ==> n in columns || n in names
  {
    if names != [] {
      var init := names[..|names| - 1];
      WithColumnsKeepsHeaders(columns, init);
      assert names == init + [names[|names| - 1]];
    }
  }

  /** When none of the names is present yet, they are appended in order
      after the original headers. */
  lemma {:induction false} WithColumnsAppends(columns: seq<string>, names: seq<string>)
    requires forall n :: n in names ==> n !in columns
    requires Distinct(names)
    ensures WithColumns(columns, names) == columns + names
  {
    if names != [] {
      var init := names[..|names| - 1];
      var last := names[|names| - 1];
      WithColumnsAppends(columns, init);
      assert last !in init;
      assert names == init + [last];
    }
  }

  /** Assigning names that are all present already leaves the headers as they
      are; in particular assigning the same names twice is assigning them once. */
  lemma {:induction false} WithColumnsPresent(columns: seq<string>, names: seq<string>)
    requires forall n :: n in names ==> n in columns
    ensures WithColumns(columns, names) == columns
  {
    if names != [] {
      WithColumnsPresent(columns, names[..|names| - 1]);
    }
  }

  lemma WithColumnsIdempotent(columns: seq<string>, names: seq<string>)
    ensures WithColumns(WithColumns(columns, names), names) == WithColumns(columns, names)
  {
    WithColumnsKeepsHeaders(columns, names);
    WithColumnsPresent(WithColumns(columns, names), names);
  }

  function Flags(bs: seq<bool>): (cells: seq<Cell>)
    ensures |cells| == |bs|
  {
    seq(|bs|, i requires 0 <= i < |bs| => Flag(bs[i]))
  }

  function Texts(ss: seq<string>): (cells: seq<Cell>)
    ensures |cells| == |ss|
  {
    seq(|ss|, i requires 0 <= i < |ss| => Text(ss[i]))
  }

  /** `check_date_format(series)`: `is_valid_date` applied to every cell. */
  function CheckDateFormat(dates: seq<string>): (flags: seq<bool>)
    ensures |flags| == |dates|
  {
    seq(|dates|, i requires 0 <= i < |dates| => IsValidDate(dates[i]))
  }

  /** `df[col].apply(lambda x: check_scores(x, max_val))`. */
  function CheckScoreColumn(scores: seq<int>, maxValue: int): (flags: seq<bool>)
    ensures |flags| == |scores|
  {
    seq(|scores|, i requires 0 <= i < |scores| => CheckScores(scores[i], maxValue))
  }

  /** `df.apply(lambda row: check_pass(...), axis=1)` over the groups of scores. */
  function CheckPassColumn(groups: seq<seq<int>>): (results: seq<string>)
    ensures |results| == |groups|
  {
    seq(|groups|, i requires 0 <= i < |groups| => CheckPass(groups[i]))
  }

  function DatesOfBirth(rows: seq<Row>): seq<string> {
    seq(|rows|, i requires 0 <= i < |rows| => rows[i].dateOfBirth)
  }

  function TestDates(rows: seq<Row>): seq<string> {
    seq(|rows|, i requires 0 <= i < |rows| => rows[i].testDate)
  }

  function ScoresOf(rows: seq<Row>, c: ScoreColumn): seq<int> {
    seq(|rows|, i requires 0 <= i < |rows| => rows[i].Score(c))
  }

  function AbacusGroups(rows: seq<Row>): seq<seq<int>> {
    seq(|rows|, i requires 0 <= i < |rows| => rows[i].AbacusScores())
  }

  function MentalGroups(rows: seq<Row>): seq<seq<int>> {
    seq(|rows|, i requires 0 <= i < |rows| => rows[i].MentalScores())
  }

  /** The value of derived column `d` in a row with annotation `a`. */
  function CellOf(a: Annotation, d: DerivedColumn): Cell
    requires |a.scoreValid| == |SCORE_COLUMNS|
  {
    match d
    case DobFormatCorrect => Flag(a.dobFormatCorrect)
    case TestDateFormatCorrect => Flag(a.testDateFormatCorrect)
    case ScoreValid(c) => Flag(a.scoreValid[TableIndex(c)])
    case AbacusPass => Text(a.abacusPass)
    case MentalPass => Text(a.mentalPass)
  }

  /** The derived column `d`, read off the row annotations. */
  function AnnotationColumn(anns: seq<Annotation>, d: DerivedColumn): (cells: seq<Cell>)
    requires forall i :: 0 <= i < |anns| ==> |anns[i].scoreValid| == |SCORE_COLUMNS|
    ensures |cells| == |anns|
  {
    seq(|anns|, i requires 0 <= i < |anns| => CellOf(anns[i], d))
  }

  /** The first `j` derived columns, read off the row annotations. */
  function Assigned(anns: seq<Annotation>, j: nat): map<DerivedColumn, seq<Cell>>
    requires j <= |DERIVED_COLUMNS|
    requires forall i :: 0 <= i < |anns| ==> |anns[i].scoreValid| == |SCORE_COLUMNS|
  {
    if j == 0 then map[]
    else Assigned(anns, j - 1)[DERIVED_COLUMNS[j - 1] := AnnotationColumn(anns, DERIVED_COLUMNS[j - 1])]
  }

  /** All ten derived columns, read off the row annotations. */
  function AnnotationColumns(anns: seq<Annotation>): map<DerivedColumn, seq<Cell>>
    requires forall i :: 0 <= i < |anns| ==> |anns[i].scoreValid| == |SCORE_COLUMNS|
  {
    Assigned(anns, |DERIVED_COLUMNS|)
  }

  /** The first `j` derived columns are assigned, each to the column the
      annotations give for it, and nothing else is. */
  lemma {:induction false} AssignedContents(anns: seq<Annotation>, j: nat)
    requires j <= |DERIVED_COLUMNS|
    requires forall i :: 0 <= i < |anns| ==> |anns[i].scoreValid| == |SCORE_COLUMNS|
    ensures forall d :: d in Assigned(anns, j) <==> d in DERIVED_COLUMNS[..j]
    ensures forall d :: d in Assigned(anns, j) ==> Assigned(anns, j)[d] == AnnotationColumn(anns, d)
  {
    if j > 0 {
      AssignedContents(anns, j - 1);
      assert DERIVED_COLUMNS[..j] == DERIVED_COLUMNS[..j - 1] + [DERIVED_COLUMNS[j - 1]];
    }
  }

  /** Every derived column is among those the script assigns. */
  lemma EveryDerivedColumnAssigned(anns: seq<Annotation>, d: DerivedColumn)
    requires forall i :: 0 <= i < |anns| ==> |anns[i].scoreValid| == |SCORE_COLUMNS|
    ensures d in AnnotationColumns(anns) && AnnotationColumns(anns)[d] == AnnotationColumn(anns, d)
  {
    AssignedContents(anns, |DERIVED_COLUMNS|);
    assert DERIVED_COLUMNS[..|DERIVED_COLUMNS|] == DERIVED_COLUMNS;
    match d
    case DobFormatCorrect => assert DERIVED_COLUMNS[0] == d;
    case TestDateFormatCorrect => assert DERIVED_COLUMNS[1] == d;
    case ScoreValid(c) => assert DERIVED_COLUMNS[2 + TableIndex(c)] == d;
    case AbacusPass => assert DERIVED_COLUMNS[8] == d;
    case MentalPass => assert DERIVED_COLUMNS[9] == d;
  }

  /** Assigning the next derived column extends what is assigned by one column. */
  lemma AssignedStep(m: map<DerivedColumn, seq<Cell>>, anns: seq<Annotation>, j: nat)
    requires j < |DERIVED_COLUMNS|
    requires forall i :: 0 <= i < |anns| ==> |anns[i].scoreValid| == |SCORE_COLUMNS|
    ensures (m + Assigned(anns, j))[DERIVED_COLUMNS[j] := AnnotationColumn(anns, DERIVED_COLUMNS[j])]
      == m + Assigned(anns, j + 1)
  {
  }

  /** Row `r` of each annotated column holds that row's own annotation. */
  lemma AnnotatedCell(rows: seq<Row>, r: nat, d: DerivedColumn)
    requires r < |rows|
    ensures AnnotationColumn(AnnotateRows(rows), d)[r] == CellOf(AnnotateRow(rows[r]), d)
  {
  }

  /** Assigning one more name extends the header list of a prefix of the names. */
  lemma WithColumnsStep(columns: seq<string>, names: seq<string>, j: nat)
    requires j < |names|
    ensures WithColumn(WithColumns(columns, names[..j]), names[j]) == WithColumns(columns, names[..j + 1])
  {
    assert names[..j + 1][..j] == names[..j];
  }

  /** What the script assigns to each derived column is the column the row
      annotations give for it. */
  lemma DateColumnsMatchAnnotations(rows: seq<Row>)
    ensures AnnotationColumn(AnnotateRows(rows), DobFormatCorrect) == Flags(CheckDateFormat(DatesOfBirth(rows)))
    ensures AnnotationColumn(AnnotateRows(rows), TestDateFormatCorrect) == Flags(CheckDateFormat(TestDates(rows)))
  {
  }

  lemma PassColumnsMatchAnnotations(rows: seq<Row>)
    ensures AnnotationColumn(AnnotateRows(rows), AbacusPass) == Texts(CheckPassColumn(AbacusGroups(rows)))
    ensures AnnotationColumn(AnnotateRows(rows), MentalPass) == Texts(CheckPassColumn(MentalGroups(rows)))
  {
  }

  lemma ValidColumnMatchesAnnotations(rows: seq<Row>, k: nat)
    requires k < |SCORE_COLUMNS|
    ensures AnnotationColumn(AnnotateRows(rows), ScoreValid(SCORE_COLUMNS[k].0))
      == Flags(CheckScoreColumn(ScoresOf(rows, SCORE_COLUMNS[k].0), SCORE_COLUMNS[k].1))
  {
    assert TableIndex(SCORE_COLUMNS[k].0) == k;
  }

  /** The length and first letter of a derived header. */
  function NameShape(d: DerivedColumn): (int, char) {
    match d
    case DobFormatCorrect => (18, 'D')
    case TestDateFormatCorrect => (24, 'T')
    case ScoreValid(AbacusMultiplication) => (27, 'a')
    case ScoreValid(AbacusDivision) => (21, 'a')
    case ScoreValid(AbacusAdditionSubtraction) => (33, 'a')
    case ScoreValid(MentalMultiplication) => (27, 'm')
    case ScoreValid(MentalDivision) => (21, 'm')
    case ScoreValid(MentalAdditionSubtraction) => (33, 'm')
    case AbacusPass => (11, 'a')
    case MentalPass => (11, 'm')
  }

  lemma NameHasShape(d: DerivedColumn)
    ensures |d.Name()| > 0 && (|d.Name()|, d.Name()[0]) == NameShape(d)
  {
    match d
    case ScoreValid(c) =>
      assert d.Name() == c.Name() + "_Valid";
    case _ =>
  }

  /** Different derived columns have different headers. */
  lemma NamesDiffer(d1: DerivedColumn, d2: DerivedColumn)
    requires d1 != d2
    ensures d1.Name() != d2.Name()
  {
    NameHasShape(d1);
    NameHasShape(d2);
    assert NameShape(d1) != NameShape(d2);
  }

  /** The ten derived headers are pairwise different. */
  lemma DerivedNamesDistinct()
    ensures Distinct(DerivedNames())
  {
    var names := DerivedNames();
    DerivedColumnsOrder();
    forall i, j | 0 <= i < j < |names|
      ensures names[i] != names[j]
    {
      NamesDiffer(DERIVED_COLUMNS[i], DERIVED_COLUMNS[j]);
    }
  }

  /** On a sheet that has none of the derived headers yet, annotating keeps
      every input column where it was and appends the ten derived columns
      after them, in order. */
  lemma AnnotatedHeaders(columns: seq<string>)
    requires forall n :: n in DerivedNames() ==> n !in columns
    ensures WithColumns(columns, DerivedNames()) == columns + DerivedNames()
  {
    DerivedNamesDistinct();
    WithColumnsAppends(columns, DerivedNames());
  }

  class DataFrame {
    /** The typed input cells, one row per data row of the sheet. */
    const rows: seq<Row>
    /** `df.columns`, in order. */
    var columns: seq<string>
    /** The columns assigned so far. */
    var derived: map<DerivedColumn, seq<Cell>>

    ghost predicate Valid()
      reads this
    {
      Distinct(columns) && HasRequiredColumns(columns)
      && forall d :: d in derived ==> d.Name() in columns && |derived[d]| == |rows|
    }

    /** The frame `pd.read_excel` yields: the sheet's headers and rows. */
    constructor (rows: seq<Row>, columns: seq<string>)
      requires Distinct(columns) && HasRequiredColumns(columns)
      ensures Valid()
      ensures this.rows == rows && this.columns == columns && derived == map[]
    {
      this.rows := rows;
      this.columns := columns;
      derived := map[];
    }

    /** `df[d.Name()] = values`. */
    method SetColumn(d: DerivedColumn, values: seq<Cell>)
      requires Valid() && |values| == |rows|
      modifies this
      ensures Valid()
      ensures columns == WithColumn(old(columns), d.Name())
      ensures derived == old(derived)[d := values]
    {
      if d.Name() !in columns {
        columns := columns + [d.Name()];
      }
      derived := derived[d := values];
    }

    /** After the first `j` derived columns are assigned to the frame that had
        headers `columns0` and assigned columns `derived0`. */
    ghost predicate AssignedUpTo(columns0: seq<string>, derived0: map<DerivedColumn, seq<Cell>>, j: nat)
      reads this
    {
      j <= |DERIVED_COLUMNS|
      && columns == WithColumns(columns0, DerivedNames()[..j])
      && derived == derived0 + Assigned(AnnotateRows(rows), j)
    }

    /** The annotation steps of the script: the two date flags, one
        `_Valid` column per entry of `score_columns`, and the two pass
        columns, in that order. */
    method Annotate()
      requires Valid()
      modifies this
      ensures Valid()
      ensures columns == WithColumns(old(columns), DerivedNames())
      ensures derived == old(derived) + AnnotationColumns(AnnotateRows(rows))
    {
      assert DerivedNames()[..0] == [];
      AddDateFlags(columns, derived);
      AddScoreFlags(old(columns), old(derived));
      AddPassColumns(old(columns), old(derived));
      assert DerivedNames()[..10] == DerivedNames();
    }

    /** Assigning the `j`-th derived column, computed as the annotations say,
        advances the annotation by one column. */
    method AssignNext(d: DerivedColumn, values: seq<Cell>,
                      ghost columns0: seq<string>, ghost derived0: map<DerivedColumn, seq<Cell>>, ghost j: nat)
      requires Valid() && AssignedUpTo(columns0, derived0, j)
      requires j < |DERIVED_COLUMNS| && d == DERIVED_COLUMNS[j]
      requires values == AnnotationColumn(AnnotateRows(rows), d)
      modifies this
      ensures Valid() && AssignedUpTo(columns0, derived0, j + 1)
    {
      SetColumn(d, values);
      WithColumnsStep(columns0, DerivedNames(), j);
      AssignedStep(derived0, AnnotateRows(rows), j);
    }

    /** `df['DOB_Format_Correct'] = check_date_format(df['date_of_birth'])`
        and the same for `test_date`. */
    method AddDateFlags(ghost columns0: seq<string>, ghost derived0: map<DerivedColumn, seq<Cell>>)
      requires Valid() && AssignedUpTo(columns0, derived0, 0)
      modifies this
      ensures Valid() && AssignedUpTo(columns0, derived0, 2)
    {
      DateColumnsMatchAnnotations(rows);
      AssignNext(DobFormatCorrect, Flags(CheckDateFormat(DatesOfBirth(rows))), columns0, derived0, 0);
      AssignNext(TestDateFormatCorrect, Flags(CheckDateFormat(TestDates(rows))), columns0, derived0, 1);
    }

    /** The loop over `score_columns`: `df[col + '_Valid']` for each column. */
    method AddScoreFlags(ghost columns0: seq<string>, ghost derived0: map<DerivedColumn, seq<Cell>>)
      requires Valid() && AssignedUpTo(columns0, derived0, 2)
      modifies this
      ensures Valid() && AssignedUpTo(columns0, derived0, 2 + |SCORE_COLUMNS|)
    {
      DerivedColumnsOrder();
      for k := 0 to |SCORE_COLUMNS|
        invariant Valid() && AssignedUpTo(columns0, derived0, 2 + k)
      {
        var (col, maxValue) := SCORE_COLUMNS[k];
        ValidColumnMatchesAnnotations(rows, k);
        AssignNext(ScoreValid(col), Flags(CheckScoreColumn(ScoresOf(rows, col), maxValue)), columns0, derived0, 2 + k);
      }
    }

    /** `df['abacus_pass']` and `df['mental_pass']`, row by row. */
    method AddPassColumns(ghost columns0: seq<string>, ghost derived0: map<DerivedColumn, seq<Cell>>)
      requires Valid() && AssignedUpTo(columns0, derived0, 8)
      modifies this
      ensures Valid() && AssignedUpTo(columns0, derived0, 10)
    {
      PassColumnsMatchAnnotations(rows);
      AssignNext(AbacusPass, Texts(CheckPassColumn(AbacusGroups(rows))), columns0, derived0, 8);
      AssignNext(MentalPass, Texts(CheckPassColumn(MentalGroups(rows))), columns0, derived0, 9);
    }
  }
}

/** Worked examples: concrete inputs and what the engine makes of them. */
module Scenarios {
  import opened Validators
  import opened Annotation

  /** 28 February 2023 is a real day. */
  lemma EndOfFebruaryAccepted()
    ensures IsValidDate("20230228")
  {
    var s := "20230228";
    IsValidDateIff(s);
    assert AllDigits(s);
    FieldDigits(s);
  }

  /** 30 February 2023 is not. */
  lemma ThirtiethOfFebruaryRejected()
    ensures !IsValidDate("20230230")
  {
    var s := "20230230";
    IsValidDateIff(s);
    assert AllDigits(s);
    FieldDigits(s);
  }

  /** A seven-character string is rejected even though `strptime` alone
      reads it as 29 February 2024: the eight-digit guard is what stops it. */
  lemma SevenDigitsRejected()
    ensures Strptime("2024229") == Some(Date(2024, 2, 29))
    ensures !IsValidDate("2024229")
  {
    var s := "2024229";
    assert YearMatches(s);
    YearDigits(s);
    assert MonthCandidates(s, 4) == [Token(2, 1)];
    assert FirstDay(s, 5) == Some(Token(29, 2));
    assert FirstMatch(s, MonthCandidates(s, 4)) == Some((Token(2, 1), Token(29, 2)));
  }

  /** Letters are never a date. */
  lemma LettersRejected()
    ensures !IsValidDate("abcdefgh")
  {
    assert !IsDigit("abcdefgh"[0]);
  }

  /** Scores: 95 fits a ceiling of 100; 97 is not a multiple of 5; 150
      exceeds 100. */
  lemma ScoreExamples()
    ensures CheckScores(95, 100)
    ensures !CheckScores(97, 100)
    ensures !CheckScores(150, 100)
  {
  }

  /** Three scores of 70 pass; a 69 fails the group. */
  lemma PassExamples()
    ensures CheckPass([70, 70, 70]) == PASS
    ensures CheckPass([69, 100, 100]) == DID_NOT_PASS
  {
    assert !([69, 100, 100][0] >= PASS_MARK);
  }

  /** The worked one-row sheet: born on 1 January 2000, tested in the
      non-existent month 13, every score valid, and a mental multiplication
      score of 60. Its dates: the first is accepted, the second rejected. */
  lemma ExampleDates()
    ensures IsValidDate("20000101")
    ensures !IsValidDate("20231301")
  {
    var dob, test := "20000101", "20231301";
    IsValidDateIff(dob);
    IsValidDateIff(test);
    assert AllDigits(dob) && AllDigits(test);
    FieldDigits(dob);
    FieldDigits(test);
  }

  /** Its scores: all six are valid, the abacus group passes and the mental
      group does not (the dates play no part in either). */
  lemma ExampleScores(dateOfBirth: string, testDate: string)
    ensures var a := AnnotateRow(Row(dateOfBirth, testDate, 100, 100, 150, 60, 100, 150));
      && (forall k :: 0 <= k < |SCORE_COLUMNS| ==> a.scoreValid[k])
      && a.abacusPass == PASS && a.mentalPass == DID_NOT_PASS
  {
    var row := Row(dateOfBirth, testDate, 100, 100, 150, 60, 100, 150);
    PassUsesOnlyItsGroup(row, row);
    assert PASS != DID_NOT_PASS by { assert |PASS| != |DID_NOT_PASS|; }
  }
}

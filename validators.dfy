/** The three pure validators of the engine: `is_valid_date` (inside
    `check_date_format`), `check_scores` and `check_pass`.

    `is_valid_date` first matches the regular expression `^\d{8}$` and then
    calls `datetime.strptime(s, '%Y%m%d')`; both steps are modelled as the
    library performs them on ASCII input, so that the characterisation
    "exactly the eight-digit strings that name a real Gregorian date" is a
    theorem here rather than a definition. */
module Validators {

  datatype Option<T> = None | Some(value: T)

  // ---------------------------------------------------------------------
  // Digits and decimal numbers
  // ---------------------------------------------------------------------

  /** An ASCII decimal digit (the model does not cover non-ASCII `\d`). */
  predicate IsDigit(c: char) {
    '0' <= c <= '9'
  }

  predicate AllDigits(s: string) {
    forall i :: 0 <= i < |s| ==> IsDigit(s[i])
  }

  function DigitValue(c: char): (v: nat)
    requires IsDigit(c)
    ensures v < 10
  {
    (c as int) - ('0' as int)
  }

  function DigitChar(v: nat): (c: char)
    requires v < 10
    ensures IsDigit(c) && DigitValue(c) == v
  {
    (('0' as int) + v) as char
  }

  /** Python's `int(s)` on a string of decimal digits. */
  function Num(s: string): (n: nat)
    requires AllDigits(s)
    ensures n < Pow10(|s|)
  {
    if |s| == 0 then 0 else 10 * Num(s[..|s| - 1]) + DigitValue(s[|s| - 1])
  }

  function Pow10(n: nat): (p: nat)
    ensures p >= 1
  {
    if n == 0 then 1 else 10 * Pow10(n - 1)
  }

  /** The `w`-digit, zero-padded decimal rendering of `n` (its last `w` digits). */
  function Pad(n: nat, w: nat): (r: string)
    ensures |r| == w && AllDigits(r)
  {
    if w == 0 then [] else Pad(n / 10, w - 1) + [DigitChar(n % 10)]
  }

  /** Reading back a padded rendering gives the number, when it fits. */
  lemma {:induction false} NumPad(n: nat, w: nat)
    requires n < Pow10(w)
    ensures Num(Pad(n, w)) == n
  {
    if w > 0 {
      var init, last := Pad(n / 10, w - 1), DigitChar(n % 10);
      NumPad(n / 10, w - 1);
      NumSnoc(init, last);
    }
  }

  /** Appending a digit multiplies the value read so far by ten and adds the digit. */
  lemma NumSnoc(s: string, c: char)
    requires AllDigits(s) && IsDigit(c)
    ensures Num(s + [c]) == 10 * Num(s) + DigitValue(c)
  {
    assert (s + [c])[..|s|] == s;
  }

  /** Rendering the value of a digit string at its own width gives the string back. */
  lemma {:induction false} PadNum(s: string)
    requires AllDigits(s)
    ensures Pad(Num(s), |s|) == s
  {
    if |s| > 0 {
      var init := s[..|s| - 1];
      var d := DigitValue(s[|s| - 1]);
      assert Num(s) / 10 == Num(init) && Num(s) % 10 == d;
      PadNum(init);
      assert DigitChar(d) == s[|s| - 1];
      assert s == init + [s[|s| - 1]];
    }
  }

  /** The value of two digits at `i` and `i + 1`. */
  function TwoDigits(s: string, i: nat): nat
    requires i + 1 < |s| && IsDigit(s[i]) && IsDigit(s[i + 1])
  {
    10 * DigitValue(s[i]) + DigitValue(s[i + 1])
  }

  lemma TwoDigitsNum(s: string, i: nat)
    requires i + 1 < |s| && IsDigit(s[i]) && IsDigit(s[i + 1])
    ensures TwoDigits(s, i) == Num(s[i..i + 2])
  {
    var t := s[i..i + 2];
    assert AllDigits(t);
    assert t[..1] == [s[i]] && t[..1][..0] == [];
    assert Num(t[..1]) == DigitValue(s[i]);
  }

  // ---------------------------------------------------------------------
  // The proleptic Gregorian calendar of Python's `datetime`
  // ---------------------------------------------------------------------

  const MIN_YEAR := 1
  const MAX_YEAR := 9999

  /** Days of each month in a common year, January first. */
  const MONTH_LENGTHS: seq<nat> := [31, 28, 31, 30, 31, 30, 31, 31, 30, 31, 30, 31]

  /** Divisible by 4, and not by 100 unless by 400. */
  predicate IsLeapYear(y: int) {
    y % 4 == 0 && (y % 100 != 0 || y % 400 == 0)
  }

  function DaysInMonth(y: int, m: int): (n: nat)
    requires 1 <= m <= 12
    ensures 28 <= n <= 31
    ensures m == 2 ==> (n == 29 <==> IsLeapYear(y))
    ensures m != 2 ==> n == MONTH_LENGTHS[m - 1]
  {
    if m == 2 && IsLeapYear(y) then 29 else MONTH_LENGTHS[m - 1]
  }

  /** `datetime.date(y, m, d)` constructs without raising `ValueError`. */
  predicate IsCalendarDate(y: int, m: int, d: int): (ok: bool)
    ensures ok ==> 1 <= y <= 9999 && 1 <= m <= 12 && 1 <= d <= 31
    ensures 1 <= y <= 9999 && 1 <= m <= 12 && 1 <= d <= 28 ==> ok
    ensures m == 2 && d == 29 ==> (ok <==> 1 <= y <= 9999 && IsLeapYear(y))
  {
    MIN_YEAR <= y <= MAX_YEAR && 1 <= m <= 12 && 1 <= d <= DaysInMonth(y, m)
  }

  datatype Date = Date(year: int, month: int, day: int)

  /** Days in the months before month `m` of year `y`. */
  function DaysBeforeMonth(y: int, m: int): nat
    requires 1 <= m <= 13
  {
    if m == 1 then 0 else DaysBeforeMonth(y, m - 1) + DaysInMonth(y, m - 1)
  }

  /** The month lengths add up to the length of the year. */
  lemma YearLength(y: int)
    ensures DaysBeforeMonth(y, 13) == if IsLeapYear(y) then 366 else 365
  {
    var feb := DaysInMonth(y, 2);
    assert DaysBeforeMonth(y, 2) == 31;
    assert DaysBeforeMonth(y, 3) == 31 + feb;
    assert DaysBeforeMonth(y, 4) == 62 + feb;
    assert DaysBeforeMonth(y, 5) == 92 + feb;
    assert DaysBeforeMonth(y, 6) == 123 + feb;
    assert DaysBeforeMonth(y, 7) == 153 + feb;
    assert DaysBeforeMonth(y, 8) == 184 + feb;
    assert DaysBeforeMonth(y, 9) == 215 + feb;
    assert DaysBeforeMonth(y, 10) == 245 + feb;
    assert DaysBeforeMonth(y, 11) == 276 + feb;
    assert DaysBeforeMonth(y, 12) == 306 + feb;
  }

  /** The leap rule repeats every 400 years, so every month length does. */
  lemma GregorianCycle(y: int, m: int)
    requires 1 <= m <= 12
    ensures DaysInMonth(y + 400, m) == DaysInMonth(y, m)
  {
    assert y + 400 == 4 * (y / 4 + 100) + y % 4;
    assert y + 400 == 100 * (y / 100 + 4) + y % 100;
    assert y + 400 == 400 * (y / 400 + 1) + y % 400;
    assert IsLeapYear(y + 400) == IsLeapYear(y);
  }

  // ---------------------------------------------------------------------
  // datetime.strptime(s, '%Y%m%d')
  // ---------------------------------------------------------------------

  /** One way a strptime directive can match at a position: the number it
      reads and how many characters it consumes. */
  datatype Token = Token(value: nat, len: nat)

  /** `%Y` is `\d\d\d\d`. */
  predicate YearMatches(s: string) {
    |s| >= 4 && AllDigits(s[..4])
  }

  /** What any reading of a month or day at `i` guarantees: the token is
      one or two characters inside `s`, and on digits it is their value. */
  predicate ReadsDigits(s: string, i: nat, t: Token) {
    1 <= t.len <= 2 && i + t.len <= |s|
    && (t.len == 1 ==> IsDigit(s[i]) && t.value == DigitValue(s[i]))
    && (t.len == 2 && IsDigit(s[i]) ==> IsDigit(s[i + 1]) && t.value == TwoDigits(s, i))
  }

  /** `%m` is the alternation `1[0-2]|0[1-9]|[1-9]`: the alternatives that
      match at position `i`, in the order the regex engine tries them. */
  function MonthCandidates(s: string, i: nat): (ts: seq<Token>)
    ensures forall t :: t in ts ==> 1 <= t.value <= 12 && ReadsDigits(s, i, t)
  {
    (if i + 1 < |s| && s[i] == '1' && '0' <= s[i + 1] <= '2' then [Token(10 + DigitValue(s[i + 1]), 2)] else [])
    + (if i + 1 < |s| && s[i] == '0' && '1' <= s[i + 1] <= '9' then [Token(DigitValue(s[i + 1]), 2)] else [])
    + (if i < |s| && '1' <= s[i] <= '9' then [Token(DigitValue(s[i]), 1)] else [])
  }

  /** `%d` is the alternation `3[01]|[12]\d|0[1-9]|[1-9]| [1-9]`. Nothing
      follows it in the format, so the first alternative that matches at
      `i` is the one the regex engine keeps. */
  function FirstDay(s: string, i: nat): (r: Option<Token>)
    ensures r.Some? ==> 1 <= r.value.value <= 31 && ReadsDigits(s, i, r.value)
  {
    if i + 1 < |s| && s[i] == '3' && '0' <= s[i + 1] <= '1' then Some(Token(30 + DigitValue(s[i + 1]), 2))
    else if i + 1 < |s| && '1' <= s[i] <= '2' && IsDigit(s[i + 1]) then Some(Token(TwoDigits(s, i), 2))
    else if i + 1 < |s| && s[i] == '0' && '1' <= s[i + 1] <= '9' then Some(Token(DigitValue(s[i + 1]), 2))
    else if i < |s| && '1' <= s[i] <= '9' then Some(Token(DigitValue(s[i]), 1))
    else if i + 1 < |s| && s[i] == ' ' && '1' <= s[i + 1] <= '9' then Some(Token(DigitValue(s[i + 1]), 2))
    else None
  }

  /** The month and day `re.match` settles on after the four year digits:
      backtracking tries the month alternatives in turn until a day follows. */
  function FirstMatch(s: string, months: seq<Token>): (r: Option<(Token, Token)>)
    ensures r.Some? ==> r.value.0 in months && FirstDay(s, 4 + r.value.0.len) == Some(r.value.1)
  {
    if months == [] then None
    else if FirstDay(s, 4 + months[0].len).Some? then Some((months[0], FirstDay(s, 4 + months[0].len).value))
    else FirstMatch(s, months[1..])
  }

  /** `datetime.strptime(s, '%Y%m%d')`: `None` where it raises `ValueError`
      ("does not match format", "unconverted data remains", or a day or
      year out of range). */
  function Strptime(s: string): (r: Option<Date>)
    ensures r.Some? ==> IsCalendarDate(r.value.year, r.value.month, r.value.day)
    ensures r.Some? ==> 6 <= |s| <= 8 && YearMatches(s) && r.value.year == Num(s[..4])
  {
    if !YearMatches(s) then None
    else
      match FirstMatch(s, MonthCandidates(s, 4))
      case None => None
      case Some((m, d)) =>
        if 4 + m.len + d.len != |s| then None
        else if !IsCalendarDate(Num(s[..4]), m.value, d.value) then None
        else Some(Date(Num(s[..4]), m.value, d.value))
  }

  /** `re.compile(r'^\d{8}$').match(s)`: Python's `$` also matches just
      before a final newline. */
  predicate MatchesEightDigits(s: string): (m: bool)
    ensures |s| == 8 ==> (m <==> AllDigits(s))
    ensures m && |s| != 8 ==> |s| == 9 && s == s[..8] + "\n"
    ensures m ==> |s| >= 8 && AllDigits(s[..8])
  {
    (|s| == 8 || (|s| == 9 && s[8] == '\n')) && AllDigits(s[..8])
  }

  /** `is_valid_date`: the pattern guard, then strptime inside `try`. */
  function IsValidDate(s: string): (ok: bool)
    ensures ok ==> |s| == 8 && AllDigits(s)
  {
    assert |s| == 8 ==> s[..8] == s;
    MatchesEightDigits(s) && Strptime(s).Some?
  }

  /** The year, month and day fields of an eight-character string. */
  function Year(s: string): nat requires |s| == 8 && AllDigits(s) { Num(s[..4]) }
  function Month(s: string): nat requires |s| == 8 && AllDigits(s) { Num(s[4..6]) }
  function Day(s: string): nat requires |s| == 8 && AllDigits(s) { Num(s[6..]) }

  /** The four year digits, digit by digit. */
  lemma YearDigits(s: string)
    requires YearMatches(s)
    ensures Num(s[..4]) == 1000 * DigitValue(s[0]) + 100 * DigitValue(s[1]) + 10 * DigitValue(s[2]) + DigitValue(s[3])
  {
    var y := s[..4];
    assert y[..3] == s[..3] && s[..3][..2] == s[..2] && s[..2][..1] == s[..1] && s[..1][..0] == [];
    assert Num(s[..1]) == DigitValue(s[0]);
    assert Num(s[..2]) == 10 * DigitValue(s[0]) + DigitValue(s[1]);
    assert Num(s[..3]) == 100 * DigitValue(s[0]) + 10 * DigitValue(s[1]) + DigitValue(s[2]);
  }

  /** The fields of an eight-digit string, digit by digit. */
  lemma FieldDigits(s: string)
    requires |s| == 8 && AllDigits(s)
    ensures Year(s) == 1000 * DigitValue(s[0]) + 100 * DigitValue(s[1]) + 10 * DigitValue(s[2]) + DigitValue(s[3])
    ensures Month(s) == TwoDigits(s, 4) && Day(s) == TwoDigits(s, 6)
  {
    YearDigits(s);
    TwoDigitsNum(s, 4);
    TwoDigitsNum(s, 6);
    assert s[6..] == s[6..8];
  }

  lemma MonthFirstCandidate(s: string)
    requires |s| == 8 && AllDigits(s) && 1 <= TwoDigits(s, 4) <= 12
    ensures MonthCandidates(s, 4) != [] && MonthCandidates(s, 4)[0] == Token(TwoDigits(s, 4), 2)
  {
  }

  lemma DayFirstCandidate(s: string)
    requires |s| == 8 && AllDigits(s) && 1 <= TwoDigits(s, 6) <= 31
    ensures FirstDay(s, 6) == Some(Token(TwoDigits(s, 6), 2))
  {
  }

  /** What strptime accepts on eight digits: the match must use two digits
      for the month and two for the day, so it reads `YYYY`, `MM`, `DD`. */
  lemma {:induction false} StrptimeOnEightDigits(s: string)
    requires |s| == 8 && AllDigits(s)
    ensures Strptime(s).Some? <==> IsCalendarDate(Year(s), Month(s), Day(s))
    ensures Strptime(s).Some? ==> Strptime(s).value == Date(Year(s), Month(s), Day(s))
  {
    assert s[..8][6..] == s[6..];
    var months := MonthCandidates(s, 4);
    var mm, dd := TwoDigits(s, 4), TwoDigits(s, 6);
    TwoDigitsNum(s, 4);
    TwoDigitsNum(s, 6);
    assert mm == Month(s) && dd == Day(s);
    assert YearMatches(s);
    if IsCalendarDate(Year(s), mm, dd) {
      MonthFirstCandidate(s);
      DayFirstCandidate(s);
      assert FirstMatch(s, months) == Some((Token(mm, 2), Token(dd, 2)));
    }
    match FirstMatch(s, months)
    case None =>
    case Some((m, d)) =>
      if 4 + m.len + d.len == 8 {
        assert m.len == 2 && d.len == 2;
        assert m.value == mm;
        assert d.value == dd;
      }
  }

  /** A final newline gets past the pattern but never past strptime. */
  lemma TrailingNewlineRejected(s: string)
    requires |s| == 9 && s[8] == '\n'
    ensures !IsValidDate(s)
  {
    match FirstMatch(s, MonthCandidates(s, 4))
    case None =>
    case Some((m, d)) =>
      assert 4 + m.len + d.len <= 8;
  }

  /** An eight-character digit string naming a real day `YYYYMMDD`. */
  predicate IsRealDate(s: string) {
    |s| == 8 && AllDigits(s) && IsCalendarDate(Year(s), Month(s), Day(s))
  }

  /** `is_valid_date(s)` holds exactly for eight ASCII digits that spell a
      real date `YYYYMMDD` of years 1 to 9999; everything else gives `False`. */
  lemma IsValidDateIff(s: string)
    ensures IsValidDate(s) <==> IsRealDate(s)
  {
    if |s| == 9 && s[8] == '\n' {
      TrailingNewlineRejected(s);
    } else if |s| == 8 && AllDigits(s) {
      assert s[..8] == s;
      StrptimeOnEightDigits(s);
    }
  }

  /** The `YYYYMMDD` rendering of a date. */
  function Format(d: Date): (s: string)
    requires IsCalendarDate(d.year, d.month, d.day)
    ensures |s| == 8 && AllDigits(s)
  {
    Pad(d.year, 4) + Pad(d.month, 2) + Pad(d.day, 2)
  }

  /** Every real date of years 1 to 9999 has exactly one accepted spelling:
      its `YYYYMMDD` rendering is accepted and parses back to it. */
  lemma FormatRoundTrip(d: Date)
    requires IsCalendarDate(d.year, d.month, d.day)
    ensures IsValidDate(Format(d)) && Strptime(Format(d)) == Some(d)
  {
    var s := Format(d);
    assert s[..4] == Pad(d.year, 4) && s[4..6] == Pad(d.month, 2) && s[6..] == Pad(d.day, 2);
    NumPad(d.year, 4);
    NumPad(d.month, 2);
    NumPad(d.day, 2);
    IsValidDateIff(s);
    StrptimeOnEightDigits(s);
  }

  /** ... and every accepted string is the rendering of the date it parses to. */
  lemma ParseRoundTrip(s: string)
    requires IsValidDate(s)
    ensures Strptime(s).Some? && Format(Strptime(s).value) == s
  {
    IsValidDateIff(s);
    StrptimeOnEightDigits(s);
    var d := Strptime(s).value;
    assert d == Date(Year(s), Month(s), Day(s));
    assert Pad(d.year, 4) == s[..4] by { PadNum(s[..4]); }
    assert Pad(d.month, 2) == s[4..6] by { PadNum(s[4..6]); }
    assert Pad(d.day, 2) == s[6..] by { PadNum(s[6..]); }
    assert s == s[..4] + s[4..6] + s[6..];
  }

  // ---------------------------------------------------------------------
  // check_scores
  // ---------------------------------------------------------------------

  /** `check_scores(score, max_value)`: in range and a multiple of 5. Python's
      `%` floors, which for the positive divisor 5 agrees with Dafny's. */
  function CheckScores(score: int, maxValue: int): (ok: bool)
    ensures ok ==> 0 <= score <= maxValue
    ensures score < 0 || maxValue < 0 ==> !ok
  {
    0 <= score <= maxValue && score % 5 == 0
  }

  /** The scores a column with ceiling `maxValue` accepts: 0, 5, 10, ... up to the ceiling. */
  function ValidScores(maxValue: int): (r: seq<int>)
    ensures maxValue >= 0 ==> |r| == maxValue / 5 + 1
  {
    if maxValue < 0 then [] else seq(maxValue / 5 + 1, k => 5 * k)
  }

  lemma CheckScoresEnumerated(score: int, maxValue: int)
    ensures CheckScores(score, maxValue) <==> score in ValidScores(maxValue)
  {
    if CheckScores(score, maxValue) {
      var k := score / 5;
      assert score == 5 * k;
      assert k <= maxValue / 5;
      assert ValidScores(maxValue)[k] == score;
    }
    if score in ValidScores(maxValue) {
      var k :| 0 <= k < |ValidScores(maxValue)| && ValidScores(maxValue)[k] == score;
      assert score == 5 * k && k <= maxValue / 5;
      assert 5 * (maxValue / 5) <= maxValue;
    }
  }

  /** Raising a ceiling never invalidates a score. */
  lemma CheckScoresMonotone(score: int, lower: int, higher: int)
    requires lower <= higher && CheckScores(score, lower)
    ensures CheckScores(score, higher)
  {
  }

  // ---------------------------------------------------------------------
  // check_pass
  // ---------------------------------------------------------------------

  const PASS := "pass"
  const DID_NOT_PASS := "did not pass"
  const PASS_MARK := 70

  /** `all(score >= bound for score in scores)`. */
  function AllAtLeast(scores: seq<int>, bound: int): (r: bool)
    ensures r <==> forall i :: 0 <= i < |scores| ==> scores[i] >= bound
  {
    |scores| == 0 || (scores[0] >= bound && AllAtLeast(scores[1..], bound))
  }

  /** `check_pass(*scores)`. */
  function CheckPass(scores: seq<int>): (r: string)
    ensures r == PASS || r == DID_NOT_PASS
    ensures r == PASS <==> forall i :: 0 <= i < |scores| ==> scores[i] >= PASS_MARK
  {
    if AllAtLeast(scores, PASS_MARK) then PASS else DID_NOT_PASS
  }

  /** Raising scores never turns a pass into a fail. */
  lemma CheckPassMonotone(lower: seq<int>, higher: seq<int>)
    requires |lower| == |higher|
    requires forall i :: 0 <= i < |lower| ==> lower[i] <= higher[i]
    requires CheckPass(lower) == PASS
    ensures CheckPass(higher) == PASS
  {
  }

  /** With no scores at all, `all` of nothing holds and the result is a pass. */
  lemma CheckPassVacuous()
    ensures CheckPass([]) == PASS
  {
  }
}

/** The constants of src/lib/constants.js: the Camelot wheel, one table per
    mode from pitch class (0 = C … 11 = B) to a wheel code such as "8B", and
    the two similarity tolerances. */
module Constants {
  import opened Text

  /** CAMELOT_WHEEL.major, indexed by pitch class. */
  const CamelotMajor: seq<string> :=
    ["8B", "3B", "10B", "5B", "12B", "7B", "2B", "9B", "4B", "11B", "6B", "1B"]

  /** CAMELOT_WHEEL.minor, indexed by pitch class. */
  const CamelotMinor: seq<string> :=
    ["5A", "12A", "7A", "2A", "9A", "4A", "11A", "6A", "1A", "8A", "3A", "10A"]

  /** BPM_TOLERANCE: beats per minute. */
  const BpmTolerance: nat := 5

  /** KEY_TOLERANCE: semitones. */
  const KeyTolerance: nat := 2

  /** A wheel code: one or two digits followed by the mode letter. */
  predicate WellFormedCode(code: string) {
    2 <= |code| <= 3 && AllDigits(code[..|code| - 1]) && code[0] != '0'
  }

  /** The number part of a wheel code. */
  function CodeNumber(code: string): nat
    requires WellFormedCode(code)
  {
    DigitsValue(code[..|code| - 1])
  }

  /** The letter part of a wheel code: 'B' for major, 'A' for minor. */
  function CodeLetter(code: string): char
    requires |code| >= 1
  {
    code[|code| - 1]
  }

  /** The wheel numbers of the major table, position by position. */
  const MajorNumbers: seq<nat> := [8, 3, 10, 5, 12, 7, 2, 9, 4, 11, 6, 1]
  /** The wheel numbers of the minor table, position by position. */
  const MinorNumbers: seq<nat> := [5, 12, 7, 2, 9, 4, 11, 6, 1, 8, 3, 10]

  lemma OneDigit(c: char)
    requires IsDigit(c)
    ensures DigitsValue([c]) == DigitValue(c)
  {
    assert [c][..0] == [];
  }

  lemma TwoDigits(c: char, d: char)
    requires IsDigit(c) && IsDigit(d)
    ensures DigitsValue([c, d]) == DigitValue(c) * 10 + DigitValue(d)
  {
    assert [c, d][..1] == [c];
    OneDigit(c);
  }

  lemma CodeOfOneDigit(c: char, letter: char)
    requires '1' <= c <= '9'
    ensures WellFormedCode([c, letter]) && CodeNumber([c, letter]) == DigitValue(c)
    ensures CodeLetter([c, letter]) == letter
  {
    assert [c, letter][..1] == [c];
    OneDigit(c);
  }

  lemma CodeOfTwoDigits(c: char, d: char, letter: char)
    requires '1' <= c <= '9' && IsDigit(d)
    ensures WellFormedCode([c, d, letter]) && CodeNumber([c, d, letter]) == DigitValue(c) * 10 + DigitValue(d)
    ensures CodeLetter([c, d, letter]) == letter
  {
    assert [c, d, letter][..2] == [c, d];
    TwoDigits(c, d);
  }

  /** Every entry of the major table is a well-formed code ending in 'B'
      whose number is the one listed in MajorNumbers. */
  lemma {:induction false} MajorCodes(k: nat)
    requires k < 12
    ensures |CamelotMajor| == 12
    ensures WellFormedCode(CamelotMajor[k]) && CodeLetter(CamelotMajor[k]) == 'B'
    ensures CodeNumber(CamelotMajor[k]) == MajorNumbers[k]
  {
    var code := CamelotMajor[k];
    if |code| == 2 {
      CodeOfOneDigit(code[0], 'B');
      assert code == [code[0], 'B'];
    } else {
      CodeOfTwoDigits(code[0], code[1], 'B');
      assert code == [code[0], code[1], 'B'];
    }
  }

  /** Every entry of the minor table is a well-formed code ending in 'A'
      whose number is the one listed in MinorNumbers. */
  lemma {:induction false} MinorCodes(k: nat)
    requires k < 12
    ensures |CamelotMinor| == 12
    ensures WellFormedCode(CamelotMinor[k]) && CodeLetter(CamelotMinor[k]) == 'A'
    ensures CodeNumber(CamelotMinor[k]) == MinorNumbers[k]
  {
    var code := CamelotMinor[k];
    if |code| == 2 {
      CodeOfOneDigit(code[0], 'A');
      assert code == [code[0], 'A'];
    } else {
      CodeOfTwoDigits(code[0], code[1], 'A');
      assert code == [code[0], code[1], 'A'];
    }
  }

  /** The numbers of each table are exactly 1..12, one per pitch class, so
      each table is a bijection from pitch classes onto the wheel positions
      of its mode. */
  lemma NumbersAreBijective()
    ensures forall k, j :: 0 <= k < j < 12 ==> MajorNumbers[k] != MajorNumbers[j] && MinorNumbers[k] != MinorNumbers[j]
    ensures forall n :: 1 <= n <= 12 ==> n in MajorNumbers && n in MinorNumbers
    ensures forall k :: 0 <= k < 12 ==> 1 <= MajorNumbers[k] <= 12 && 1 <= MinorNumbers[k] <= 12
  {
  }

  /** Two pitch classes never share a wheel number within a mode, so the codes
      of each table are pairwise distinct; and no major code equals a minor
      code. */
  lemma CodesAreDistinct(k: nat, j: nat)
    requires k < 12 && j < 12
    ensures WellFormedCode(CamelotMajor[k]) && WellFormedCode(CamelotMajor[j])
    ensures WellFormedCode(CamelotMinor[k]) && WellFormedCode(CamelotMinor[j])
    ensures k != j ==> CodeNumber(CamelotMajor[k]) != CodeNumber(CamelotMajor[j])
    ensures k != j ==> CodeNumber(CamelotMinor[k]) != CodeNumber(CamelotMinor[j])
    ensures k != j ==> CamelotMajor[k] != CamelotMajor[j] && CamelotMinor[k] != CamelotMinor[j]
    ensures CamelotMajor[k] != CamelotMinor[j]
  {
    MajorCodes(k);
    MajorCodes(j);
    MinorCodes(k);
    MinorCodes(j);
    NumbersAreBijective();
  }

  /** Every wheel number 1..12 is the number of some pitch class in each
      table: with CodesAreDistinct, each table is a bijection from the twelve
      pitch classes onto the twelve wheel positions. */
  lemma CodesCoverWheel(n: nat)
    requires 1 <= n <= 12
    ensures exists k :: 0 <= k < 12 && WellFormedCode(CamelotMajor[k]) && CodeNumber(CamelotMajor[k]) == n
    ensures exists k :: 0 <= k < 12 && WellFormedCode(CamelotMinor[k]) && CodeNumber(CamelotMinor[k]) == n
  {
    NumbersAreBijective();
    assert n in MajorNumbers && n in MinorNumbers;
    var k :| 0 <= k < |MajorNumbers| && MajorNumbers[k] == n;
    MajorCodes(k);
    var j :| 0 <= j < |MinorNumbers| && MinorNumbers[j] == n;
    MinorCodes(j);
  }

  /** A relative minor lies three semitones below its major (nine above):
      C major "8B" and A minor "8A" share the number, and so does every
      major key with its relative minor. */
  lemma RelativeKeysShareNumber(k: nat)
    requires k < 12
    ensures CodeNumber(CamelotMajor[k]) == CodeNumber(CamelotMinor[(k + 9) % 12])
  {
    MajorCodes(k);
    MinorCodes((k + 9) % 12);
  }

  /** A perfect fifth up (seven semitones) moves one step round the wheel,
      from number n to n + 1, with 12 followed by 1, in both tables. */
  lemma FifthUpIsNextNumber(k: nat)
    requires k < 12
    ensures CodeNumber(CamelotMajor[(k + 7) % 12]) == CodeNumber(CamelotMajor[k]) % 12 + 1
    ensures CodeNumber(CamelotMinor[(k + 7) % 12]) == CodeNumber(CamelotMinor[k]) % 12 + 1
  {
    var up := (k + 7) % 12;
    assert MajorNumbers[up] == MajorNumbers[k] % 12 + 1 && MinorNumbers[up] == MinorNumbers[k] % 12 + 1 by {
      assert k in {0, 1, 2, 3, 4, 5, 6, 7, 8, 9, 10, 11};
    }
    MajorCodes(k);
    MajorCodes(up);
    MinorCodes(k);
    MinorCodes(up);
  }
}

/**
 * Calibration by digits and digit words (puzzle-2): at every position of a
 * line a digit character or one of the words "zero" .. "nine" may start; the
 * line's value is the first such digit times ten plus the last one, so words
 * that overlap ("twone") each count.
 */
module SpelledCalibration {
  import opened Wrappers
  import opened Text
  import opened Calibration
  import DigitCalibration

  /** The digit words, each at the index of the digit it names. */
  const Words: seq<string> := ["zero", "one", "two", "three", "four", "five", "six", "seven", "eight", "nine"]

  /** The input starts with the word for digit w. */
  predicate StartsWith(input: string, w: nat)
    requires w < |Words|
  {
    Words[w] <= input
  }

  /** The first word, from index k on, that the input starts with. */
  function WordFrom(input: string, k: nat): (r: Option<nat>)
    requires k <= |Words|
    ensures r.Some? ==> k <= r.value < |Words| && StartsWith(input, r.value)
    ensures r.None? ==> forall w :: k <= w < |Words| ==> !StartsWith(input, w)
    decreases |Words| - k
  {
    if k == |Words| then None
    else if StartsWith(input, k) then Some(k)
    else WordFrom(input, k + 1)
  }

  /**
   * `get_digit`: the digit the input starts with, as a character or else as a
   * word; None when it starts with neither.
   */
  function GetDigit(input: string): (r: Option<nat>)
    ensures r.Some? ==> r.value <= 9
  {
    if |input| > 0 && IsDigit(input[0]) then Some(DigitOf(input[0]))
    else WordFrom(input, 0)
  }

  /**
   * A leading digit character wins; otherwise the result is the word the
   * input starts with, and None when there is none, as for the empty input.
   */
  lemma GetDigitCases(input: string)
    ensures |input| > 0 && IsDigit(input[0]) ==> GetDigit(input) == Some(DigitOf(input[0]))
    ensures !(|input| > 0 && IsDigit(input[0])) ==>
              (GetDigit(input).Some? <==> exists w :: 0 <= w < |Words| && StartsWith(input, w))
    ensures !(|input| > 0 && IsDigit(input[0])) && GetDigit(input).Some? ==>
              GetDigit(input).value < |Words| && StartsWith(input, GetDigit(input).value)
    ensures input == [] ==> GetDigit(input).None?
  {
    if input == [] {
      forall w | 0 <= w < |Words|
        ensures !StartsWith(input, w)
      {
        assert |Words[w]| > 0;
      }
    }
  }

  /** The word index a word's first two letters select. */
  function KeyIndex(c0: char, c1: char): nat {
    if c0 == 'z' then 0
    else if c0 == 'o' then 1
    else if c0 == 't' then (if c1 == 'w' then 2 else 3)
    else if c0 == 'f' then (if c1 == 'o' then 4 else 5)
    else if c0 == 's' then (if c1 == 'i' then 6 else 7)
    else if c0 == 'e' then 8
    else 9
  }

  lemma WordKey(input: string, w: nat)
    requires w < |Words| && StartsWith(input, w)
    ensures |input| >= 2 && KeyIndex(input[0], input[1]) == w
  {
    var word := Words[w];
    assert |word| >= 3;
    assert input[0] == word[0] && input[1] == word[1];
    if w == 0 { assert word == "zero"; }
    else if w == 1 { assert word == "one"; }
    else if w == 2 { assert word == "two"; }
    else if w == 3 { assert word == "three"; }
    else if w == 4 { assert word == "four"; }
    else if w == 5 { assert word == "five"; }
    else if w == 6 { assert word == "six"; }
    else if w == 7 { assert word == "seven"; }
    else if w == 8 { assert word == "eight"; }
    else { assert word == "nine"; }
  }

  /** No two digit words can both start the same input: the index found is the only one. */
  lemma WordsUnambiguous(input: string, a: nat, b: nat)
    requires a < |Words| && b < |Words|
    requires StartsWith(input, a) && StartsWith(input, b)
    ensures a == b
  {
    WordKey(input, a);
    WordKey(input, b);
  }

  /** Position i yields the digit that the rest of the line starts with, if any. */
  function WordMarks(line: string): seq<Option<nat>> {
    seq(|line|, i requires 0 <= i < |line| => GetDigit(line[i..]))
  }

  /** The calibration value of one line. */
  function SpelledValue(line: string): Result<nat, string> {
    Combine(Found(WordMarks(line), |line|), "expected first digit")
  }

  /** `get_digits`: tries every start index, remembering the first digit found and the latest. */
  method GetDigits(line: string) returns (r: Result<nat, string>)
    ensures r == SpelledValue(line)
  {
    ghost var marks := WordMarks(line);
    var len := |line|;
    var first: Option<nat> := None;
    var last: Option<nat> := None;
    for i := 0 to len
      invariant Ends(first, last, Found(marks, i))
    {
      var found := GetDigit(line[i..len]);
      assert line[i..len] == line[i..];
      EndsStep(marks, i, first, last);
      if found.Some? {
        if first.None? {
          first := Some(found.value);
        }
        last := Some(found.value);
      }
    }
    EndsCombine(Found(marks, |marks|), first, last, "expected first digit");
    match (first, last)
    case (Some(f), Some(l)) =>
      r := Ok(f * 10 + l);
    case _ =>
      r := Err("expected first digit");
  }

  /** Some digit or digit word starts at position i. */
  predicate MatchAt(line: string, i: nat)
    requires i < |line|
  {
    GetDigit(line[i..]).Some?
  }

  /** A line fails iff no digit and no digit word starts anywhere in it. */
  lemma NoMatchIsError(line: string)
    ensures SpelledValue(line).Err? <==> forall i :: 0 <= i < |line| ==> !MatchAt(line, i)
  {
    var marks := WordMarks(line);
    CombineError(marks, "expected first digit");
    assert forall i :: 0 <= i < |line| ==> (marks[i].None? <==> !MatchAt(line, i));
  }

  /** The value is built from the earliest match and the latest one, overlapping or not. */
  lemma FirstAndLastMatch(line: string, i: nat, j: nat)
    requires i <= j < |line| && MatchAt(line, i) && MatchAt(line, j)
    requires forall m :: 0 <= m < i ==> !MatchAt(line, m)
    requires forall m :: j < m < |line| ==> !MatchAt(line, m)
    ensures SpelledValue(line) == Ok(GetDigit(line[i..]).value * 10 + GetDigit(line[j..]).value)
  {
    var marks := WordMarks(line);
    forall m | 0 <= m < |line| && !MatchAt(line, m)
      ensures marks[m].None?
    {
    }
    CombineFirstLast(marks, "expected first digit", i, j);
  }

  /** A line is worth at most 99. */
  lemma AtMost99(line: string)
    ensures SpelledValue(line).Ok? ==> SpelledValue(line).value <= 99
  {
    CombineAtMost99(WordMarks(line), "expected first digit");
  }

  /** Lines without digit words are valued as by digits alone (only the error message differs). */
  lemma WithoutWordsAsDigitsAlone(line: string)
    requires forall i, w :: 0 <= i < |line| && 0 <= w < |Words| ==> !StartsWith(line[i..], w)
    ensures SpelledValue(line).Ok? <==> DigitCalibration.CalibrationValue(line).Ok?
    ensures SpelledValue(line).Ok? ==> SpelledValue(line) == DigitCalibration.CalibrationValue(line)
  {
    var marks, digitMarks := WordMarks(line), DigitCalibration.DigitMarks(line);
    forall i | 0 <= i < |line|
      ensures marks[i] == digitMarks[i]
    {
      assert line[i..][0] == line[i];
      GetDigitCases(line[i..]);
    }
    assert marks == digitMarks;
  }

  /** The value of each line, in order. */
  function LineValues(lines: seq<string>): seq<Result<nat, string>> {
    seq(|lines|, i requires 0 <= i < |lines| => SpelledValue(lines[i]))
  }

  /** The value of the document: the sum of its lines' values, or the first line's error. */
  function DocumentValue(lines: seq<string>): Result<nat, string> {
    SumResults(LineValues(lines), |lines|)
  }

  /** `sum_lines`: adds the lines' values, returning the first error. */
  method SumLines(lines: seq<string>) returns (r: Result<nat, string>)
    ensures r == DocumentValue(lines)
  {
    ghost var results := LineValues(lines);
    var sum := 0;
    for i := 0 to |lines|
      invariant SumResults(results, i) == Ok(sum)
    {
      var value := GetDigits(lines[i]);
      if value.Err? {
        SumResultsOk(results, i);
        SumResultsFirstError(results, |lines|, i);
        return value;
      }
      sum := sum + value.value;
    }
    r := Ok(sum);
  }
}

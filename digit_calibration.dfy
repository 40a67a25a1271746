/**
 * Calibration by decimal digits (puzzle-1): each line's value is its first
 * digit character times ten plus its last, and the document's value is the
 * sum over its lines.
 */
module DigitCalibration {
  import opened Wrappers
  import opened Text
  import opened Calibration

  /** Position i yields the digit written there, if any. */
  function DigitMarks(line: string): seq<Option<nat>> {
    seq(|line|, i requires 0 <= i < |line| => if IsDigit(line[i]) then Some(DigitOf(line[i])) else None)
  }

  /** The calibration value of one line. */
  function CalibrationValue(line: string): Result<nat, string> {
    Combine(Found(DigitMarks(line), |line|), "expected digit")
  }

  /** `get_digits`: one pass remembering the first digit seen and the latest one. */
  method GetDigits(line: string) returns (r: Result<nat, string>)
    ensures r == CalibrationValue(line)
  {
    ghost var marks := DigitMarks(line);
    var first: Option<nat> := None;
    var last: Option<nat> := None;
    for i := 0 to |line|
      invariant Ends(first, last, Found(marks, i))
    {
      EndsStep(marks, i, first, last);
      var c := line[i];
      if IsDigit(c) {
        var digit := DigitOf(c);
        if first.None? {
          first := Some(digit);
        }
        last := Some(digit);
      }
    }
    EndsCombine(Found(marks, |marks|), first, last, "expected digit");
    match (first, last)
    case (Some(f), Some(l)) =>
      r := Ok(f * 10 + l);
    case _ =>
      r := Err("expected digit");
  }

  /** A line fails iff it has no digit character. */
  lemma NoDigitIsError(line: string)
    ensures CalibrationValue(line).Err? <==> forall i :: 0 <= i < |line| ==> !IsDigit(line[i])
  {
    var marks := DigitMarks(line);
    CombineError(marks, "expected digit");
    assert forall i :: 0 <= i < |line| ==> (marks[i].None? <==> !IsDigit(line[i]));
  }

  /** The value is built from the first digit character and the last one. */
  lemma FirstAndLastDigit(line: string, i: nat, j: nat)
    requires i <= j < |line| && IsDigit(line[i]) && IsDigit(line[j])
    requires forall m :: 0 <= m < i ==> !IsDigit(line[m])
    requires forall m :: j < m < |line| ==> !IsDigit(line[m])
    ensures CalibrationValue(line) == Ok(DigitOf(line[i]) * 10 + DigitOf(line[j]))
  {
    var marks := DigitMarks(line);
    assert forall m :: 0 <= m < i ==> marks[m].None?;
    assert forall m :: j < m < |marks| ==> marks[m].None?;
    assert marks[i] == Some(DigitOf(line[i])) && marks[j] == Some(DigitOf(line[j]));
    CombineFirstLast(marks, "expected digit", i, j);
  }

  /** A line with a single digit d is worth 11*d. */
  lemma SingleDigit(line: string, i: nat)
    requires i < |line| && IsDigit(line[i])
    requires forall m :: 0 <= m < |line| && m != i ==> !IsDigit(line[m])
    ensures CalibrationValue(line) == Ok(11 * DigitOf(line[i]))
  {
    FirstAndLastDigit(line, i, i);
  }

  /** A line is worth at most 99. */
  lemma AtMost99(line: string)
    ensures CalibrationValue(line).Ok? ==> CalibrationValue(line).value <= 99
  {
    CombineAtMost99(DigitMarks(line), "expected digit");
  }

  /** Removing a non-digit character changes nothing. */
  lemma NonDigitIrrelevant(a: string, c: char, b: string)
    requires !IsDigit(c)
    ensures CalibrationValue(a + [c] + b) == CalibrationValue(a + b)
  {
    assert DigitMarks(a + [c] + b) == DigitMarks(a) + [None] + DigitMarks(b);
    assert DigitMarks(a + b) == DigitMarks(a) + DigitMarks(b);
    FoundAppend(DigitMarks(a) + [None], DigitMarks(b));
    FoundAppend(DigitMarks(a), [None]);
    FoundAppend(DigitMarks(a), DigitMarks(b));
  }

  /** The value of each line, in order. */
  function LineValues(lines: seq<string>): seq<Result<nat, string>> {
    seq(|lines|, i requires 0 <= i < |lines| => CalibrationValue(lines[i]))
  }

  /** The value of the document: the sum of its lines' values, or the first line's error. */
  function DocumentValue(lines: seq<string>): Result<nat, string> {
    SumResults(LineValues(lines), |lines|)
  }

  /** `sum_lines`: adds the lines' values, returning the first error. */
  method SumLines(lines: seq<string>) returns (r: Result<nat, string>)
    ensures r == DocumentValue(lines)
  {
    ghost var results := LineValues(lines);
    var sum := 0;
    for i := 0 to |lines|
      invariant SumResults(results, i) == Ok(sum)
    {
      var value := GetDigits(lines[i]);
      if value.Err? {
        SumResultsOk(results, i);
        SumResultsFirstError(results, |lines|, i);
        return value;
      }
      sum := sum + value.value;
    }
    r := Ok(sum);
  }

  predicate HasDigit(line: string) {
    exists c :: 0 <= c < |line| && IsDigit(line[c])
  }

  /** The document has a value iff every line has a digit. */
  lemma DocumentValueOk(lines: seq<string>)
    ensures DocumentValue(lines).Ok? <==> forall i :: 0 <= i < |lines| ==> HasDigit(lines[i])
  {
    var results := LineValues(lines);
    SumResultsOk(results, |lines|);
    forall i | 0 <= i < |lines|
      ensures results[i].Ok? <==> HasDigit(lines[i])
    {
      NoDigitIsError(lines[i]);
    }
  }
}

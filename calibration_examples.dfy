/**
 * Calibration lines evaluated on the model.
 */
module CalibrationExamples {
  import opened Wrappers
  import opened Text
  import opened Calibration
  import DigitCalibration
  import opened SpelledCalibration

  /** Letters around the digits are skipped. */
  lemma DigitLines()
    ensures DigitCalibration.CalibrationValue("pqr3stu8vwx") == Ok(38)
    ensures DigitCalibration.CalibrationValue("treb7uchet") == Ok(77)
  {
    DigitCalibration.FirstAndLastDigit("pqr3stu8vwx", 3, 7);
    DigitCalibration.SingleDigit("treb7uchet", 4);
  }

  /** A line without digits is an error. */
  lemma DigitLineWithoutDigits()
    ensures DigitCalibration.CalibrationValue("abc") == Err("expected digit")
  {
    DigitCalibration.NoDigitIsError("abc");
  }

  /** Overlapping words both count: "twone" is two then one. */
  lemma OverlappingWords()
    ensures SpelledValue("twone") == Ok(21)
  {
    var line := "twone";
    assert line[0..] == "twone" && line[4..] == "e" && line[2..] == "one";
    assert StartsWith(line[0..], 2) && StartsWith(line[2..], 1);
    assert GetDigit(line[0..]) == Some(2);
    assert GetDigit(line[2..]) == Some(1);
    forall m | 2 < m < 5
      ensures !MatchAt(line, m)
    {
      GetDigitCases(line[m..]);
      if m == 3 { assert line[m..] == "ne"; } else { assert line[m..] == "e"; }
      forall w | 0 <= w < |Words|
        ensures !StartsWith(line[m..], w)
      {
        assert |Words[w]| >= 3;
      }
    }
    FirstAndLastMatch(line, 0, 2);
  }

  /** An empty line has no match. */
  lemma EmptyLine()
    ensures SpelledValue("") == Err("expected first digit")
  {
  }
}

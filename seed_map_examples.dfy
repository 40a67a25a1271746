/**
 * The worked examples of day 5, part 1, evaluated on the model.
 */
module SeedMapExamples {
  import opened Wrappers
  import opened Text
  import opened Scanning
  import opened SeedMaps

  /** The seeds line of the sample, with the blank line after it. */
  const SeedsText: string := "seeds: 79 14 55 13\n\n"

  lemma SeedGroups()
    ensures AllRuns(["79", "14", "55", "13"], Digit) && AllRuns([" ", " ", " "], Space)
    ensures Spaced(["79", "14", "55", "13"], [" ", " ", " "]) == "79 14 55 13"
  {
    var seeds, gaps := ["79", "14", "55", "13"], [" ", " ", " "];
    assert IsRun(seeds[0], Digit) && IsRun(seeds[1], Digit) && IsRun(seeds[2], Digit) && IsRun(seeds[3], Digit);
    assert IsRun(gaps[0], Space) && IsRun(gaps[1], Space) && IsRun(gaps[2], Space);
    assert seeds[1..][1..][1..] == ["13"] && gaps[1..][1..] == [" "];
  }

  lemma SeedValues()
    ensures AllRuns(["79", "14", "55", "13"], Digit) && Values(["79", "14", "55", "13"]) == [79, 14, 55, 13]
  {
    SeedGroups();
    var seeds := ["79", "14", "55", "13"];
    assert ValueBetween(seeds[0], 0, 1) == 7;
    assert DecimalValue(seeds[0]) == 79;
    assert ValueBetween(seeds[1], 0, 1) == 1;
    assert DecimalValue(seeds[1]) == 14;
    assert DecimalValue(seeds[2]) == 55;
    assert DecimalValue(seeds[3]) == 13;
    assert seeds[1..][1..][1..][1..] == [];
  }

  lemma SeedsTextLayout()
    ensures "seeds: " + Spaced(["79", "14", "55", "13"], [" ", " ", " "]) + "\n\n" == SeedsText
    ensures ReadsAt(SeedsText, 0, SeedsText)
  {
    SeedGroups();
    assert "seeds: " + "79 14 55 13" + "\n\n" == SeedsText;
    forall k | 0 <= k < |SeedsText| ensures SeedsText[0 + k] == SeedsText[k] {
    }
  }

  /** `parse_seeds` on the sample's seeds line returns the four seeds and leaves nothing unread. */
  lemma SeedsSample()
    ensures ParseSeeds(SeedsText) == Some(([79, 14, 55, 13], |SeedsText|))
  {
    SeedGroups();
    SeedValues();
    SeedsTextLayout();
    assert IsRun("\n\n", Multispace);
    SeedsLayout(SeedsText, ["79", "14", "55", "13"], [" ", " ", " "], "\n\n");
  }

  /** The first row of the sample's seed-to-soil block. */
  const RowLine: string := "50 98 2\n"

  lemma RowLineLayout()
    ensures RowDigits(Row("50", "98", "2"))
    ensures RowText(Row("50", "98", "2")) == "50 98 2"
    ensures ReadsAt(RowLine, 0, "50 98 2")
    ensures RowValue(Row("50", "98", "2")) == Thruple(50, 98, 2)
  {
    var row := Row("50", "98", "2");
    assert IsRun(row.dest, Digit) && IsRun(row.src, Digit) && IsRun(row.range, Digit);
    assert RowText(row) == "50 98 2";
    assert ValueBetween(row.dest, 0, 1) == 5;
    assert DecimalValue(row.dest) == 50;
    assert ValueBetween(row.src, 0, 1) == 9;
    assert DecimalValue(row.src) == 98;
    assert DecimalValue(row.range) == 2;
  }

  /** `parse_thruple` reads the row as destination 50, source 98, range 2, in that order. */
  lemma ThrupleSample()
    ensures ParseThruple(RowLine, 0) == Some((Thruple(50, 98, 2), 7))
  {
    var row := Row("50", "98", "2");
    RowLineLayout();
    RowRead(RowLine, 0, row);
  }

  /** The sample's seed-to-soil block: its header line and its two rows. */
  const BlockLines: string := "seed-to-soil map:\n50 98 2\n52 50 48"

  /** Where the pieces of the block sit: the header at 0, the rows at 18 and 26, the end at 34. */
  lemma BlockLinesLayout()
    ensures |BlockLines| == 34
    ensures ReadsAt(BlockLines, 0, "seed-to-soil") && BlockLines[12] == ' '
    ensures ReadsAt(BlockLines, 12, " map:") && BlockLines[17] == '\n'
    ensures ReadsAt(BlockLines, 18, "50 98 2") && BlockLines[25] == '\n'
    ensures ReadsAt(BlockLines, 26, "52 50 48")
  {
    var s := BlockLines;
    assert s == "seed-to-soil" + " map:" + "\n" + "50 98 2" + "\n" + "52 50 48";
    forall k | 0 <= k < 12 ensures s[0 + k] == "seed-to-soil"[k] {}
    forall k | 0 <= k < 5 ensures s[12 + k] == " map:"[k] {}
    forall k | 0 <= k < 7 ensures s[18 + k] == "50 98 2"[k] {}
    forall k | 0 <= k < 8 ensures s[26 + k] == "52 50 48"[k] {}
  }

  lemma SecondRowLayout()
    ensures RowDigits(Row("52", "50", "48"))
    ensures RowText(Row("52", "50", "48")) == "52 50 48"
    ensures RowValue(Row("52", "50", "48")) == Thruple(52, 50, 48)
  {
    var row := Row("52", "50", "48");
    assert IsRun(row.dest, Digit) && IsRun(row.src, Digit) && IsRun(row.range, Digit);
    assert RowText(row) == "52 50 48";
    assert ValueBetween(row.dest, 0, 1) == 5;
    assert DecimalValue(row.dest) == 52;
    assert ValueBetween(row.src, 0, 1) == 5;
    assert DecimalValue(row.src) == 50;
    assert ValueBetween(row.range, 0, 1) == 4;
    assert DecimalValue(row.range) == 48;
  }

  lemma FirstRowSample()
    ensures ParseThruple(BlockLines, 18) == Some((Thruple(50, 98, 2), 25))
  {
    BlockLinesLayout();
    RowLineLayout();
    RowRead(BlockLines, 18, Row("50", "98", "2"));
  }

  lemma SecondRowSample()
    ensures ParseThruple(BlockLines, 26) == Some((Thruple(52, 50, 48), 34))
  {
    BlockLinesLayout();
    SecondRowLayout();
    RowRead(BlockLines, 26, Row("52", "50", "48"));
  }

  /** The two rows under the header are read in order, and the list ends with the text. */
  lemma BlockRowsSample()
    ensures ThrupleList(BlockLines, 18) == Some(([Thruple(50, 98, 2), Thruple(52, 50, 48)], 34))
  {
    assert |BlockLines| == 34 && BlockLines[25] == '\n';
    FirstRowSample();
    SecondRowSample();
    ThrupleListTwo(BlockLines, 18, Thruple(50, 98, 2), 25, Thruple(52, 50, 48), 34);
  }

  /** `parse_block` reads the header as the seed-to-soil block and keeps its rows. */
  lemma BlockSample()
    ensures ParseBlock(BlockLines, 0) == Success(((SeedToSoil, [Thruple(50, 98, 2), Thruple(52, 50, 48)]), 34))
  {
    var s := BlockLines;
    BlockLinesLayout();
    assert Span1(s, 0, AlphaOrHyphen) == Some(12) && s[0..12] == "seed-to-soil" by {
      assert IsRun("seed-to-soil", AlphaOrHyphen);
      SpanOver(s, 0, "seed-to-soil", AlphaOrHyphen);
      ReadsAtSlice(s, 0, "seed-to-soil");
    }
    assert Tag(s, 12, " map:") == Some(17) by {
      ReadsAtSlice(s, 12, " map:");
    }
    assert LineEnding(s, 17) == Some(18);
    BlockNameRoundTrip(SeedToSoil);
    BlockRowsSample();
  }

  /** A block whose header names no known map makes `parse_block` panic with "eh". */
  lemma UnknownHeaderPanics()
    ensures ParseBlock("ab map:\n1 2 3", 0) == Panic("eh")
  {
    var s := "ab map:\n1 2 3";
    assert Span1(s, 0, AlphaOrHyphen) == Some(2) && s[0..2] == "ab" by {
      assert IsRun("ab", AlphaOrHyphen) && !InClass(s[2], AlphaOrHyphen);
      SpanOver(s, 0, "ab", AlphaOrHyphen);
      ReadsAtSlice(s, 0, "ab");
    }
    assert Tag(s, 2, " map:") == Some(7) by {
      ReadsAtSlice(s, 2, " map:");
    }
    assert LineEnding(s, 7) == Some(8);
    assert BlockFromName("ab").Err?;
  }
}

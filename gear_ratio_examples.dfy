/**
 * The worked example of the gear-ratio puzzle, and two small grids showing
 * that values, not runs, are counted.
 */
module GearRatioExamples {
  import opened Text
  import opened Schematic
  import opened GearRatios
  import opened PartNumberExamples

  lemma SampleGearRowsTop()
    ensures RowGears(Sample[0], 0, |Sample[0]|) == []
    ensures RowGears(Sample[1], 1, |Sample[1]|) == [Point(1, 3)]
    ensures RowGears(Sample[2], 2, |Sample[2]|) == []
    ensures RowGears(Sample[3], 3, |Sample[3]|) == []
    ensures RowGears(Sample[4], 4, |Sample[4]|) == [Point(4, 3)]
  {
    assert Sample[0] == "467..114.." && |"467..114.."| == 10;
    assert Sample[1] == "...*......" && |"...*......"| == 10;
    assert Sample[2] == "..35..633." && |"..35..633."| == 10;
    assert Sample[3] == "......#..." && |"......#..."| == 10;
    assert Sample[4] == "617*......" && |"617*......"| == 10;
  }

  lemma SampleGearRowsBottom()
    ensures RowGears(Sample[5], 5, |Sample[5]|) == []
    ensures RowGears(Sample[6], 6, |Sample[6]|) == []
    ensures RowGears(Sample[7], 7, |Sample[7]|) == []
    ensures RowGears(Sample[8], 8, |Sample[8]|) == [Point(8, 5)]
    ensures RowGears(Sample[9], 9, |Sample[9]|) == []
  {
    assert Sample[5] == ".....+.58." && |".....+.58."| == 10;
    assert Sample[6] == "..592....." && |"..592....."| == 10;
    assert Sample[7] == "......755." && |"......755."| == 10;
    assert Sample[8] == "...$.*...." && |"...$.*...."| == 10;
    assert Sample[9] == ".664.598.." && |".664.598.."| == 10;
  }

  /** The `*` cells of the sample's first five rows. */
  lemma SampleGearsTop()
    ensures GearsOfRows(Sample, 5) == [Point(1, 3), Point(4, 3)]
  {
    SampleGearRowsTop();
    assert GearsOfRows(Sample, 1) == [];
    assert GearsOfRows(Sample, 2) == [Point(1, 3)];
    assert GearsOfRows(Sample, 3) == [Point(1, 3)];
    assert GearsOfRows(Sample, 4) == [Point(1, 3)];
  }

  /** The `*` cells of the sample, in row-major order. */
  lemma SampleGearCells()
    ensures GridGears(Sample) == [Point(1, 3), Point(4, 3), Point(8, 5)]
  {
    SampleGearsTop();
    SampleGearRowsBottom();
    assert GearsOfRows(Sample, 6) == [Point(1, 3), Point(4, 3)];
    assert GearsOfRows(Sample, 7) == [Point(1, 3), Point(4, 3)];
    assert GearsOfRows(Sample, 8) == [Point(1, 3), Point(4, 3)];
    assert GearsOfRows(Sample, 9) == [Point(1, 3), Point(4, 3), Point(8, 5)];
    assert GearsOfRows(Sample, 10) == [Point(1, 3), Point(4, 3), Point(8, 5)];
  }

  /** The first gear touches 467 and 35. */
  lemma SampleGearOne()
    ensures HaloValues(SampleNumbers, Point(1, 3)) == {467, 35}
  {
    assert SampleNumbers == [Number(467, 0, 3), Number(114, 0, 8), Number(35, 2, 4), Number(633, 2, 9), Number(617, 4, 3), Number(58, 5, 9), Number(592, 6, 5), Number(755, 7, 9), Number(664, 9, 4), Number(598, 9, 8)];
    assert HaloValuesTo([Number(467, 0, 3), Number(114, 0, 8), Number(35, 2, 4), Number(633, 2, 9), Number(617, 4, 3), Number(58, 5, 9), Number(592, 6, 5), Number(755, 7, 9), Number(664, 9, 4), Number(598, 9, 8)], 10, Point(1, 3)) == {467, 35};
  }

  /** The second gear touches only 617, so it has no ratio. */
  lemma SampleGearTwo()
    ensures HaloValues(SampleNumbers, Point(4, 3)) == {617}
  {
    assert SampleNumbers == [Number(467, 0, 3), Number(114, 0, 8), Number(35, 2, 4), Number(633, 2, 9), Number(617, 4, 3), Number(58, 5, 9), Number(592, 6, 5), Number(755, 7, 9), Number(664, 9, 4), Number(598, 9, 8)];
    assert HaloValuesTo([Number(467, 0, 3), Number(114, 0, 8), Number(35, 2, 4), Number(633, 2, 9), Number(617, 4, 3), Number(58, 5, 9), Number(592, 6, 5), Number(755, 7, 9), Number(664, 9, 4), Number(598, 9, 8)], 10, Point(4, 3)) == {617};
  }

  /** The third gear touches 755 and 598. */
  lemma SampleGearThree()
    ensures HaloValues(SampleNumbers, Point(8, 5)) == {755, 598}
  {
    assert SampleNumbers == [Number(467, 0, 3), Number(114, 0, 8), Number(35, 2, 4), Number(633, 2, 9), Number(617, 4, 3), Number(58, 5, 9), Number(592, 6, 5), Number(755, 7, 9), Number(664, 9, 4), Number(598, 9, 8)];
    assert HaloValuesTo([Number(467, 0, 3), Number(114, 0, 8), Number(35, 2, 4), Number(633, 2, 9), Number(617, 4, 3), Number(58, 5, 9), Number(592, 6, 5), Number(755, 7, 9), Number(664, 9, 4), Number(598, 9, 8)], 10, Point(8, 5)) == {755, 598};
  }

  /** The sample's gear ratios add up to 16345 + 451490 = 467835. */
  lemma SampleGearSum()
    ensures GearSum(Sample) == 467835
  {
    SampleGearCells();
    SampleRuns();
    SampleGearOne();
    SampleGearTwo();
    SampleGearThree();
    PairProductOf(467, 35);
    PairProductOf(755, 598);
    assert |{617}| == 1;
  }


  /** Two different numbers with the same value collapse into one: "5*5" has no gear ratio. */
  lemma EqualValuesCollapse()
    ensures GearSum(["5*5"]) == 0
  {
    assert |"5*5"| == 3;
    assert RunsBefore("5*5", 0, 4) == [Number(5, 0, 1), Number(5, 0, 3)];
    assert GridRuns(["5*5"]) == [Number(5, 0, 1), Number(5, 0, 3)];
    assert GridGears(["5*5"]) == [Point(0, 1)];
    assert HaloValuesTo([Number(5, 0, 1), Number(5, 0, 3)], 2, Point(0, 1)) == {5};
  }

  /** Two distinct values around one `*`: "2*3" has ratio 6. */
  lemma DistinctValuesMultiply()
    ensures GearSum(["2*3"]) == 6
  {
    assert |"2*3"| == 3;
    assert RunsBefore("2*3", 0, 4) == [Number(2, 0, 1), Number(3, 0, 3)];
    assert GridRuns(["2*3"]) == [Number(2, 0, 1), Number(3, 0, 3)];
    assert GridGears(["2*3"]) == [Point(0, 1)];
    assert HaloValuesTo([Number(2, 0, 1), Number(3, 0, 3)], 2, Point(0, 1)) == {2, 3};
    PairProductOf(2, 3);
  }
}

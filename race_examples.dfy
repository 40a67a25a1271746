/**
 * The worked examples of day 6, both parts, evaluated on the model.
 */
module RaceExamples {
  import opened Wrappers
  import opened Text
  import opened Scanning
  import opened Races
  import opened BoatRaces
  import opened LongRace

  /** The two lines of the sample sheet. */
  const SampleText: string := "Time:      7  15   30" + "\n" + "Distance:  9  40  200"

  lemma SampleTimes()
    ensures AllRuns(["7", "15", "30"], Digit) && AllRuns(["  ", "   "], Space)
    ensures Spaced(["7", "15", "30"], ["  ", "   "]) == "7  15   30"
  {
    var times, gaps := ["7", "15", "30"], ["  ", "   "];
    assert IsRun(times[0], Digit) && IsRun(times[1], Digit) && IsRun(times[2], Digit);
    assert IsRun(gaps[0], Space) && IsRun(gaps[1], Space);
    assert times[1..][1..] == ["30"] && gaps[1..] == ["   "];
  }

  lemma SampleDistances()
    ensures AllRuns(["9", "40", "200"], Digit) && AllRuns(["  ", "  "], Space)
    ensures Spaced(["9", "40", "200"], ["  ", "  "]) == "9  40  200"
  {
    var distances, gaps := ["9", "40", "200"], ["  ", "  "];
    assert IsRun(distances[0], Digit) && IsRun(distances[1], Digit) && IsRun(distances[2], Digit);
    assert IsRun(gaps[0], Space) && IsRun(gaps[1], Space);
    assert distances[1..][1..] == ["200"] && gaps[1..] == ["  "];
  }

  /** The sample numbers are digit groups and its padding is spaces. */
  lemma SampleShape()
    ensures SheetShape(["7", "15", "30"], ["  ", "   "], ["9", "40", "200"], ["  ", "  "], "      ", "  ")
  {
    SampleTimes();
    SampleDistances();
    assert IsRun("      ", Space) && IsRun("  ", Space);
  }

  lemma SampleTimeLine()
    ensures "Time:" + "      " + Spaced(["7", "15", "30"], ["  ", "   "]) == "Time:      7  15   30"
  {
    SampleTimes();
  }

  lemma SampleDistanceLine()
    ensures "Distance:" + "  " + Spaced(["9", "40", "200"], ["  ", "  "]) == "Distance:  9  40  200"
  {
    SampleDistances();
  }

  /** The sample sheet is the printed layout of its numbers, padded as shown. */
  lemma SampleLayout()
    ensures Sheet(["7", "15", "30"], ["  ", "   "], ["9", "40", "200"], ["  ", "  "], "      ", "  ") == SampleText
  {
    SampleTimeLine();
    SampleDistanceLine();
  }

  /** The three sample races of the first part. */
  const SampleRaces: seq<Race> := [Race(7, 9), Race(15, 40), Race(30, 200)]

  /** The values of the sample's digit groups. */
  lemma SampleValues()
    ensures AllRuns(["7", "15", "30"], Digit) && Values(["7", "15", "30"]) == [7, 15, 30]
    ensures AllRuns(["9", "40", "200"], Digit) && Values(["9", "40", "200"]) == [9, 40, 200]
  {
    SampleTimes();
    SampleDistances();
    var times, distances := ["7", "15", "30"], ["9", "40", "200"];
    assert DecimalValue(times[0]) == 7 && DecimalValue(times[1]) == 15 && DecimalValue(times[2]) == 30;
    assert DecimalValue(distances[0]) == 9 && DecimalValue(distances[1]) == 40 && DecimalValue(distances[2]) == 200;
    assert times[1..][1..][1..] == [] && distances[1..][1..][1..] == [];
  }

  /** Each sample time is paired with the distance at the same place. */
  lemma SamplePairs()
    ensures PairRaces([7, 15, 30], [9, 40, 200]) == Success(SampleRaces)
  {
    var times, distances := [7, 15, 30], [9, 40, 200];
    var r := PairRaces(times, distances);
    assert r.Success? && |r.value| == 3;
    assert r.value[0].time == times[0] && r.value[0].distance == distances[0];
    assert r.value[1].time == times[1] && r.value[1].distance == distances[1];
    assert r.value[2].time == times[2] && r.value[2].distance == distances[2];
    assert r.value == SampleRaces;
  }

  /** Reading the sample sheet pairs each time with the distance below it. */
  lemma SampleParse()
    ensures ParseRaces(SampleText) == Success(SampleRaces)
  {
    SampleShape();
    SampleLayout();
    SampleValues();
    SamplePairs();
    BoatRaces.ParseSheet(["7", "15", "30"], ["  ", "   "], ["9", "40", "200"], ["  ", "  "], "      ", "  ");
  }

  /** A sheet with two times and one distance reads, then panics on the missing distance. */
  lemma MissingDistancePanics()
    ensures ParseRaces(Sheet(["1", "2"], [" "], ["3"], [], " ", " ")) == Panic(IndexOutOfBounds)
  {
    assert IsRun("1", Digit) && IsRun("2", Digit) && IsRun("3", Digit) && IsRun(" ", Space);
    assert SheetShape(["1", "2"], [" "], ["3"], [], " ", " ");
    BoatRaces.ParseSheet(["1", "2"], [" "], ["3"], [], " ", " ");
    assert |Values(["1", "2"])| == 2 && |Values(["3"])| == 1;
  }

  /** The sample races are won by 4, 8 and 9 holds: 2..5, 4..11 and 11..19. */
  lemma SampleWinCounts()
    ensures WinCount(SampleRaces[0]) == 4
    ensures WinCount(SampleRaces[1]) == 8
    ensures WinCount(SampleRaces[2]) == 9
  {
    WinCountFromFirstWin(Race(7, 9), 2);
    WinCountFromFirstWin(Race(15, 40), 4);
    WinCountFromFirstWin(Race(30, 200), 11);
  }

  /** The first part's answer for the sample: 4 * 8 * 9. */
  lemma SampleProduct()
    ensures Product(SampleRaces) == 288
  {
    SampleWinCounts();
    assert ProductTo(SampleRaces, 1) == 4;
    assert ProductTo(SampleRaces, 2) == 32;
  }

  /** The sample's times, joined: "71530". */
  lemma SampleJoinedTime()
    ensures AllRuns(["7", "15", "30"], Digit) && DecimalValue(Concat(["7", "15", "30"])) == 71530
  {
    SampleValues();
    var times := ["7", "15", "30"];
    ValuesAt(times, 0);
    ValuesAt(times, 1);
    ValuesAt(times, 2);
    ConcatThree(times[0], times[1], times[2]);
    assert Pow10(2) == 100;
  }

  /** The sample's distances, joined: "940200". */
  lemma SampleJoinedDistance()
    ensures AllRuns(["9", "40", "200"], Digit) && DecimalValue(Concat(["9", "40", "200"])) == 940200
  {
    SampleValues();
    var distances := ["9", "40", "200"];
    ValuesAt(distances, 0);
    ValuesAt(distances, 1);
    ValuesAt(distances, 2);
    ConcatThree(distances[0], distances[1], distances[2]);
    assert Pow10(2) == 100 && Pow10(3) == 1000;
  }

  /** Read as one race, the sample sheet holds 71530 ms and 940200 mm. */
  lemma SampleLongParse()
    ensures ParseRace(SampleText) == Some(Race(71530, 940200))
  {
    SampleShape();
    SampleLayout();
    SampleJoinedTime();
    SampleJoinedDistance();
    LongRace.ParseSheet(["7", "15", "30"], ["  ", "   "], ["9", "40", "200"], ["  ", "  "], "      ", "  ");
  }

  /** The long race is won exactly by the holds 14 ..= 71516: 71503 of them. */
  lemma SampleLongWinCount()
    ensures WinCount(Race(71530, 940200)) == 71503
  {
    WinCountFromFirstWin(Race(71530, 940200), 14);
  }
}

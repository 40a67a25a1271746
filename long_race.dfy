/**
 * Day 6, part 2: the numbers on each line of the sheet are one number whose
 * digits were split by spaces; the answer is that single race's ways to win.
 */
module LongRace {
  import opened Wrappers
  import opened Text
  import opened Scanning
  import opened Races

  /** The digit groups written behind each other (`join("")`). */
  function Concat(groups: seq<string>): (s: string)
    requires AllRuns(groups, Digit)
    ensures AllDigits(s)
  {
    if groups == [] then ""
    else
      RunDigits(groups[|groups| - 1]);
      var front := Concat(groups[..|groups| - 1]);
      DecimalValueAppendDigits(front, groups[|groups| - 1]);
      front + groups[|groups| - 1]
  }

  lemma DecimalValueAppendDigits(a: string, b: string)
    requires AllDigits(a) && AllDigits(b)
    ensures AllDigits(a + b)
  {
    DecimalValueAppend(a, b);
  }

  /**
   * The joined number: each further group shifts what was read so far by its
   * own number of digits.
   */
  lemma ConcatValue(groups: seq<string>, g: string)
    requires AllRuns(groups, Digit) && IsRun(g, Digit)
    ensures AllRuns(groups + [g], Digit)
    ensures DecimalValue(Concat(groups + [g])) == DecimalValue(Concat(groups)) * Pow10(|g|) + DecimalValue(g)
  {
    var all := groups + [g];
    assert AllRuns(all, Digit) by {
      assert forall n :: 0 <= n < |all| ==> all[n] == (if n < |groups| then groups[n] else g);
    }
    assert all[..|all| - 1] == groups;
    RunDigits(g);
    DecimalValueAppend(Concat(groups), g);
  }

  /** Three groups joined are the three texts behind each other. */
  lemma ConcatThreeText(a: string, b: string, c: string)
    requires IsRun(a, Digit) && IsRun(b, Digit) && IsRun(c, Digit)
    ensures AllRuns([a, b, c], Digit) && Concat([a, b, c]) == a + b + c
  {
    assert Concat([a]) == a by {
      assert [a][..0] == [] && "" + a == a;
    }
    assert Concat([a, b]) == a + b by {
      assert [a, b][..1] == [a];
    }
    assert [a, b, c][..2] == [a, b];
  }

  /** Three groups joined: the first two shifted past the digits of the ones after them. */
  lemma ConcatThree(a: string, b: string, c: string)
    requires IsRun(a, Digit) && IsRun(b, Digit) && IsRun(c, Digit)
    ensures AllRuns([a, b, c], Digit) && AllDigits(a + b)
    ensures DecimalValue(a + b) == DecimalValue(a) * Pow10(|b|) + DecimalValue(b)
    ensures DecimalValue(Concat([a, b, c])) == DecimalValue(a + b) * Pow10(|c|) + DecimalValue(c)
  {
    ConcatThreeText(a, b, c);
    RunDigits(a);
    RunDigits(b);
    RunDigits(c);
    DecimalValueAppend(a, b);
    DecimalValueAppend(a + b, c);
  }

  /** `parse_time` and `parse_distance`: the labelled list, read as one number. */
  function ParseJoined(input: string, i: nat, prefix: string): (r: Option<(nat, nat)>)
    requires i <= |input|
    ensures r.Some? ==> i < r.value.1 <= |input|
  {
    match Labelled(input, i, prefix)
    case None => None
    case Some(groups) =>
      LabelledDigits(input, i, prefix);
      Some((DecimalValue(Concat(groups.0)), groups.1))
  }

  /** `parse_race`: the time line, a line ending, then the distance line. */
  function ParseRace(input: string): (r: Option<Race>)
    ensures ParseJoined(input, 0, "Time:").None? ==> r.None?
    ensures r.Some? ==> ParseJoined(input, 0, "Time:").Some? && r.value.time == ParseJoined(input, 0, "Time:").value.0
    ensures r.Some? ==> exists c: nat :: c <= |input| && ParseJoined(input, c, "Distance:").Some? &&
                                   r.value.distance == ParseJoined(input, c, "Distance:").value.0
  {
    match ParseJoined(input, 0, "Time:")
    case None => None
    case Some(time) =>
      match LineEnding(input, time.1)
      case None => None
      case Some(c) =>
        match ParseJoined(input, c, "Distance:")
        case None => None
        case Some(distance) => Some(Race(time.0, distance.0))
  }

  /** Reading a printed sheet gives the race whose numbers are the joined groups. */
  lemma ParseSheet(times: seq<string>, timeGaps: seq<string>, distances: seq<string>, distanceGaps: seq<string>,
                   pad1: string, pad2: string)
    requires SheetShape(times, timeGaps, distances, distanceGaps, pad1, pad2)
    ensures ParseRace(Sheet(times, timeGaps, distances, distanceGaps, pad1, pad2)) ==
            Some(Race(DecimalValue(Concat(times)), DecimalValue(Concat(distances))))
  {
    SheetLines(times, timeGaps, distances, distanceGaps, pad1, pad2);
  }

  /** `process_race`: counts the holds that beat the record. */
  method ProcessRace(race: Race) returns (waysToWin: nat)
    ensures waysToWin == WinCount(race)
  {
    waysToWin := 0;
    for hold := 0 to race.time
      invariant waysToWin == WinsBelow(race, hold)
    {
      var remaining := race.time - hold;
      var distance := hold * remaining;
      if distance > race.distance {
        waysToWin := waysToWin + 1;
      }
    }
  }

  /** `process`: the ways to win the sheet's race, or None when the sheet cannot be read. */
  method Process(input: string) returns (r: Option<nat>)
    ensures r == match ParseRace(input) case Some(race) => Some(WinCount(race)) case None => None
  {
    match ParseRace(input)
    case None =>
      r := None;
    case Some(race) =>
      var ways := ProcessRace(race);
      r := Some(ways);
  }
}

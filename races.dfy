/**
 * The boat race arithmetic shared by both parts of day 6: holding the button
 * for h of the race's milliseconds leaves time - h milliseconds at speed h,
 * and a hold wins when that covers more than the record distance.
 */
module Races {
  import opened Wrappers
  import opened Scanning

  /** A race: its duration and the record distance to beat. */
  datatype Race = Race(time: nat, distance: nat)

  /** Holding for `hold` milliseconds (one of 0 .. time - 1) beats the record. */
  predicate Wins(race: Race, hold: nat) {
    hold < race.time && hold * (race.time - hold) > race.distance
  }

  /** The number of winning holds below k. */
  function WinsBelow(race: Race, k: nat): nat
    requires k <= race.time
  {
    if k == 0 then 0 else WinsBelow(race, k - 1) + (if Wins(race, k - 1) then 1 else 0)
  }

  /** The number of ways to win the race. */
  function WinCount(race: Race): nat {
    WinsBelow(race, race.time)
  }

  /** The count is the size of the set of winning holds. */
  lemma {:induction false} WinsBelowCounts(race: Race, k: nat)
    requires k <= race.time
    ensures WinsBelow(race, k) == |set h | 0 <= h < k && Wins(race, h)|
  {
    if k > 0 {
      WinsBelowCounts(race, k - 1);
      var below := set h | 0 <= h < k - 1 && Wins(race, h);
      var upTo := set h | 0 <= h < k && Wins(race, h);
      if Wins(race, k - 1) {
        assert upTo == below + {k - 1};
      } else {
        assert upTo == below;
      }
    }
  }

  /** The ways to win are exactly the winning holds. */
  lemma WinCountIsNumberOfWinningHolds(race: Race)
    ensures WinCount(race) == |set h | 0 <= h < race.time && Wins(race, h)|
  {
    WinsBelowCounts(race, race.time);
  }

  lemma {:induction false} WinsBelowBound(race: Race, k: nat)
    requires k <= race.time
    ensures WinsBelow(race, k) <= k
    ensures k > 0 ==> WinsBelow(race, k) <= k - 1
  {
    if k > 1 {
      WinsBelowBound(race, k - 1);
    }
  }

  /** Hold 0 covers no distance, so a race has fewer ways to win than milliseconds. */
  lemma WinCountBound(race: Race)
    ensures !Wins(race, 0)
    ensures WinCount(race) <= race.time
    ensures race.time > 0 ==> WinCount(race) < race.time
  {
    WinsBelowBound(race, race.time);
  }

  /** Holding h and holding time - h cover the same distance. */
  lemma WinsSymmetric(race: Race, h: nat)
    requires 0 < h < race.time
    ensures Wins(race, h) <==> Wins(race, race.time - h)
  {
    assert (race.time - h) * (race.time - (race.time - h)) == h * (race.time - h);
  }

  /** Moving the hold towards the middle never loses distance. */
  lemma TowardsMiddle(time: nat, a: nat, h: nat)
    requires a <= h && h + a <= time
    ensures a * (time - a) <= h * (time - h)
  {
    var d := h - a;
    assert h * (time - h) == a * (time - a) + d * (time - a - h);
  }

  /** When exactly the holds lo .. hi win, the count below k is their part below k. */
  lemma {:induction false} IntervalBelow(race: Race, lo: nat, hi: nat, k: nat)
    requires lo <= hi < race.time && k <= race.time
    requires forall h :: 0 <= h < race.time ==> (Wins(race, h) <==> lo <= h <= hi)
    ensures WinsBelow(race, k) == if k <= lo then 0 else if k <= hi + 1 then k - lo else hi + 1 - lo
  {
    if k > 0 {
      IntervalBelow(race, lo, hi, k - 1);
    }
  }

  /** When exactly the holds lo .. hi win, there are hi - lo + 1 ways to win. */
  lemma IntervalCount(race: Race, lo: nat, hi: nat)
    requires lo <= hi < race.time
    requires forall h :: 0 <= h < race.time ==> (Wins(race, h) <==> lo <= h <= hi)
    ensures WinCount(race) == hi - lo + 1
  {
    IntervalBelow(race, lo, hi, race.time);
  }

  /**
   * The winning holds form one interval around the middle: if holds a and b
   * win, so does every hold between them.
   */
  lemma WinsConvex(race: Race, a: nat, h: nat, b: nat)
    requires a <= h <= b && Wins(race, a) && Wins(race, b)
    ensures Wins(race, h)
  {
    if h + h <= race.time {
      TowardsMiddle(race.time, a, h);
    } else {
      TowardsMiddle(race.time, race.time - b, race.time - h);
      assert (race.time - b) * (race.time - (race.time - b)) == b * (race.time - b);
      assert (race.time - h) * (race.time - (race.time - h)) == h * (race.time - h);
    }
  }

  /**
   * The closed form of the count: when lo is the first winning hold, the
   * winners are exactly lo ..= time - lo.
   */
  lemma WinCountFromFirstWin(race: Race, lo: nat)
    requires 0 < lo && 2 * lo <= race.time
    requires Wins(race, lo) && !Wins(race, lo - 1)
    ensures WinCount(race) == race.time - 2 * lo + 1
  {
    var t := race.time;
    forall h | 0 <= h < t
      ensures Wins(race, h) <==> lo <= h <= t - lo
    {
      if h < lo {
        TowardsMiddle(t, h, lo - 1);
      } else if h <= t - lo {
        if h <= t - h {
          TowardsMiddle(t, lo, h);
        } else {
          TowardsMiddle(t, lo, t - h);
          assert (t - h) * (t - (t - h)) == h * (t - h);
        }
      } else {
        TowardsMiddle(t, t - h, lo - 1);
        assert (t - h) * (t - (t - h)) == h * (t - h);
      }
    }
    IntervalCount(race, lo, t - lo);
  }

  /** The numbers of a sheet are digit groups; the padding after the labels and between numbers is spaces. */
  predicate SheetShape(times: seq<string>, timeGaps: seq<string>, distances: seq<string>, distanceGaps: seq<string>,
                       pad1: string, pad2: string)
  {
    |times| == |timeGaps| + 1 && |distances| == |distanceGaps| + 1 &&
    AllRuns(times, Digit) && AllRuns(timeGaps, Space) &&
    AllRuns(distances, Digit) && AllRuns(distanceGaps, Space) &&
    IsRun(pad1, Space) && IsRun(pad2, Space)
  }

  /** A race sheet as it is printed: a "Time:" line and a "Distance:" line. */
  function Sheet(times: seq<string>, timeGaps: seq<string>, distances: seq<string>, distanceGaps: seq<string>,
                 pad1: string, pad2: string): string
    requires |times| == |timeGaps| + 1 && |distances| == |distanceGaps| + 1
  {
    ("Time:" + pad1 + Spaced(times, timeGaps)) + "\n" + ("Distance:" + pad2 + Spaced(distances, distanceGaps))
  }

  /** One labelled line, ended by a newline or by the end of the text, reads back as its groups. */
  lemma LabelledLine(s: string, i: nat, prefix: string, pad: string, groups: seq<string>, gaps: seq<string>, line: string)
    requires |groups| == |gaps| + 1 && AllRuns(groups, Digit) && AllRuns(gaps, Space) && IsRun(pad, Space)
    requires line == prefix + pad + Spaced(groups, gaps)
    requires i + |line| <= |s| && s[i..i + |line|] == line
    requires i + |line| == |s| || s[i + |line|] == '\n'
    ensures Labelled(s, i, prefix) == Some((groups, i + |line|))
  {
    assert ReadsAt(s, i, line) by {
      forall k | 0 <= k < |line| ensures s[i + k] == line[k] {
        assert s[i..i + |line|][k] == s[i + k];
      }
    }
    LabelledLayout(s, i, prefix, pad, groups, gaps);
  }

  /** The time line at the start of a two-line text reads back as its groups, up to the line ending. */
  lemma TimeLine(s: string, times: seq<string>, timeGaps: seq<string>, distances: seq<string>,
                 distanceGaps: seq<string>, pad1: string, pad2: string)
    requires SheetShape(times, timeGaps, distances, distanceGaps, pad1, pad2)
    requires var line1, line2 := "Time:" + pad1 + Spaced(times, timeGaps), "Distance:" + pad2 + Spaced(distances, distanceGaps);
      s == line1 + "\n" + line2
    ensures var c := |"Time:" + pad1 + Spaced(times, timeGaps)| + 1;
      Labelled(s, 0, "Time:") == Some((times, c - 1)) &&
      LineEnding(s, c - 1) == Some(c)
  {
    var line1 := "Time:" + pad1 + Spaced(times, timeGaps);
    assert s[0..|line1|] == line1 && s[|line1|] == '\n';
    LabelledLine(s, 0, "Time:", pad1, times, timeGaps, line1);
  }

  /** The distance line after the line ending reads back as its groups, up to the end of the text. */
  lemma DistanceLine(s: string, times: seq<string>, timeGaps: seq<string>, distances: seq<string>,
                     distanceGaps: seq<string>, pad1: string, pad2: string)
    requires SheetShape(times, timeGaps, distances, distanceGaps, pad1, pad2)
    requires var line1, line2 := "Time:" + pad1 + Spaced(times, timeGaps), "Distance:" + pad2 + Spaced(distances, distanceGaps);
      s == line1 + "\n" + line2
    ensures var c := |"Time:" + pad1 + Spaced(times, timeGaps)| + 1;
      Labelled(s, c, "Distance:") == Some((distances, |s|))
  {
    var line1 := "Time:" + pad1 + Spaced(times, timeGaps);
    var line2 := "Distance:" + pad2 + Spaced(distances, distanceGaps);
    var c := |line1| + 1;
    assert |s| == c + |line2| && s[c..|s|] == line2;
    LabelledLine(s, c, "Distance:", pad2, distances, distanceGaps, line2);
    assert Labelled(s, c, "Distance:") == Some((distances, |s|));
  }

  /** A text holding the two labelled lines of a sheet, one after the other, reads as both lists. */
  lemma LabelledLines(s: string, times: seq<string>, timeGaps: seq<string>, distances: seq<string>,
                      distanceGaps: seq<string>, pad1: string, pad2: string)
    requires SheetShape(times, timeGaps, distances, distanceGaps, pad1, pad2)
    requires var line1, line2 := "Time:" + pad1 + Spaced(times, timeGaps), "Distance:" + pad2 + Spaced(distances, distanceGaps);
      s == line1 + "\n" + line2
    ensures var c := |"Time:" + pad1 + Spaced(times, timeGaps)| + 1;
      Labelled(s, 0, "Time:") == Some((times, c - 1)) &&
      LineEnding(s, c - 1) == Some(c) &&
      Labelled(s, c, "Distance:") == Some((distances, |s|))
  {
    TimeLine(s, times, timeGaps, distances, distanceGaps, pad1, pad2);
    DistanceLine(s, times, timeGaps, distances, distanceGaps, pad1, pad2);
  }

  /** Both labelled lists of a printed sheet read back as printed, with a line ending between them. */
  lemma SheetLines(times: seq<string>, timeGaps: seq<string>, distances: seq<string>, distanceGaps: seq<string>,
                   pad1: string, pad2: string)
    requires SheetShape(times, timeGaps, distances, distanceGaps, pad1, pad2)
    ensures var s := Sheet(times, timeGaps, distances, distanceGaps, pad1, pad2);
      var c := |"Time:" + pad1 + Spaced(times, timeGaps)| + 1;
      Labelled(s, 0, "Time:") == Some((times, c - 1)) &&
      LineEnding(s, c - 1) == Some(c) &&
      Labelled(s, c, "Distance:") == Some((distances, |s|))
  {
    var s := Sheet(times, timeGaps, distances, distanceGaps, pad1, pad2);
    LabelledLines(s, times, timeGaps, distances, distanceGaps, pad1, pad2);
  }
}

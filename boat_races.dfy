/**
 * Day 6, part 1: several races on one sheet; the answer is the product of
 * the ways to win each race, where a race that cannot be won is skipped.
 */
module BoatRaces {
  import opened Wrappers
  import opened Text
  import opened Scanning
  import opened Races

  /** What a race contributes to the product: its ways to win, or 1 when there are none. */
  function Factor(race: Race): (f: nat)
    ensures f >= 1
  {
    if WinCount(race) == 0 then 1 else WinCount(race)
  }

  /** The product of the factors of the first k races. */
  function ProductTo(races: seq<Race>, k: nat): (p: nat)
    requires k <= |races|
    ensures p >= 1
  {
    if k == 0 then 1 else ProductTo(races, k - 1) * Factor(races[k - 1])
  }

  function Product(races: seq<Race>): nat {
    ProductTo(races, |races|)
  }

  /** The inner loop of `process_races`: counting the winning holds, None when there are none. */
  method CountWays(race: Race) returns (ways: Option<nat>)
    ensures ways == if WinCount(race) == 0 then None else Some(WinCount(race))
  {
    ways := None;
    for hold := 0 to race.time
      invariant ways == if WinsBelow(race, hold) == 0 then None else Some(WinsBelow(race, hold))
    {
      var remaining := race.time - hold;
      var distance := hold * remaining;
      if distance > race.distance {
        match ways
        case Some(count) =>
          ways := Some(count + 1);
        case None =>
          ways := Some(1);
      }
    }
  }

  /** `process_races`: multiplies the ways to win, leaving out races that cannot be won. */
  method ProcessRaces(races: seq<Race>) returns (totalWays: nat)
    ensures totalWays == Product(races)
  {
    totalWays := 1;
    for i := 0 to |races|
      invariant totalWays == ProductTo(races, i)
    {
      var ways := CountWays(races[i]);
      if ways.Some? {
        totalWays := totalWays * ways.value;
      }
    }
  }

  lemma {:induction false} ProductToSame(a: seq<Race>, b: seq<Race>, k: nat)
    requires k <= |a| && k <= |b| && a[..k] == b[..k]
    ensures ProductTo(a, k) == ProductTo(b, k)
  {
    if k > 0 {
      assert a[..k - 1] == a[..k][..k - 1] == b[..k][..k - 1] == b[..k - 1];
      assert a[k - 1] == a[..k][k - 1] == b[..k][k - 1] == b[k - 1];
      ProductToSame(a, b, k - 1);
    }
  }

  /** The product is multiplicative over sheets put together, so the order of races does not matter. */
  lemma {:induction false} ProductAppend(a: seq<Race>, b: seq<Race>)
    ensures Product(a + b) == Product(a) * Product(b)
    decreases |b|
  {
    if b == [] {
      assert a + b == a;
    } else {
      var front := b[..|b| - 1];
      assert (a + b)[..|a + front|] == (a + front)[..|a + front|];
      ProductToSame(a + b, a + front, |a + front|);
      assert b[..|front|] == front[..|front|];
      ProductToSame(b, front, |front|);
      ProductAppend(a, front);
      assert (a + b)[|a + b| - 1] == b[|b| - 1];
      MulAssoc(Product(a), Product(front), Factor(b[|b| - 1]));
    }
  }

  lemma MulAssoc(x: nat, y: nat, z: nat)
    ensures x * y * z == x * (y * z)
  {
  }

  /** A race that cannot be won leaves the product as it is. */
  lemma UnwinnableRaceIsSkipped(races: seq<Race>, race: Race)
    requires WinCount(race) == 0
    ensures Product(races + [race]) == Product(races)
  {
    ProductAppend(races, [race]);
    assert [race][0] == race && ProductTo([race], 0) == 1;
    assert Product([race]) == 1 * Factor(race) == 1;
  }

  /** An empty sheet yields 1, and a sheet of unwinnable races too. */
  lemma {:induction false} NoWinnableRaces(races: seq<Race>, k: nat)
    requires k <= |races|
    requires forall i :: 0 <= i < k ==> WinCount(races[i]) == 0
    ensures ProductTo(races, k) == 1
  {
    if k > 0 {
      NoWinnableRaces(races, k - 1);
    }
  }

  /** The message of the panic on indexing past the end of a vector. */
  const IndexOutOfBounds: string := "index out of bounds"

  /**
   * The i-th time with the i-th distance, in order; distances beyond the
   * times are ignored, and a time without a distance panics (`distances_ms[index]`).
   */
  function PairRaces(times: seq<nat>, distances: seq<nat>): (r: Outcome<seq<Race>>)
    ensures r.Success? <==> |times| <= |distances|
    ensures !r.Failure?
    ensures r.Panic? ==> r.message == IndexOutOfBounds
    ensures r.Success? ==> |r.value| == |times| &&
                           forall i :: 0 <= i < |times| ==> r.value[i].time == times[i] && r.value[i].distance == distances[i]
  {
    if |times| <= |distances| then Success(seq(|times|, i requires 0 <= i < |times| => Race(times[i], distances[i])))
    else Panic(IndexOutOfBounds)
  }

  /**
   * `parse_races`: the "Time:" list, a line ending, then the "Distance:"
   * list; a nom error is a Failure. A sheet that reads has at least one race.
   */
  function ParseRaces(input: string): (r: Outcome<seq<Race>>)
    ensures Labelled(input, 0, "Time:").None? ==> r.Failure?
    ensures r.Success? ==> |r.value| >= 1
    ensures r.Panic? ==> r.message == IndexOutOfBounds
  {
    match Labelled(input, 0, "Time:")
    case None => Failure
    case Some(times) =>
      match LineEnding(input, times.1)
      case None => Failure
      case Some(c) =>
        match Labelled(input, c, "Distance:")
        case None => Failure
        case Some(distances) =>
          LabelledDigits(input, 0, "Time:");
          LabelledDigits(input, c, "Distance:");
          PairRaces(Values(times.0), Values(distances.0))
  }

  /** Whatever the padding, reading a printed sheet pairs its numbers as printed. */
  lemma ParseSheet(times: seq<string>, timeGaps: seq<string>, distances: seq<string>, distanceGaps: seq<string>,
                   pad1: string, pad2: string)
    requires SheetShape(times, timeGaps, distances, distanceGaps, pad1, pad2)
    ensures ParseRaces(Sheet(times, timeGaps, distances, distanceGaps, pad1, pad2)) ==
            PairRaces(Values(times), Values(distances))
  {
    SheetLines(times, timeGaps, distances, distanceGaps, pad1, pad2);
  }

  /** `process`: the product for a sheet that can be read; a parse error or the panic is passed on. */
  method Process(input: string) returns (r: Outcome<nat>)
    ensures r == match ParseRaces(input)
                 case Success(races) => Success(Product(races))
                 case Failure => Failure
                 case Panic(message) => Panic(message)
  {
    match ParseRaces(input)
    case Failure =>
      r := Failure;
    case Panic(message) =>
      r := Panic(message);
    case Success(races) =>
      var total := ProcessRaces(races);
      r := Success(total);
  }
}

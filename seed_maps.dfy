/**
 * Day 5, part 1: the almanac. A "seeds:" line, then blocks of number rows
 * under a "<source>-to-<destination> map:" header; each row is a
 * destination start, a source start and a range length. The answer is a
 * constant: the mapping fold is not implemented.
 */
module SeedMaps {
  import opened Wrappers
  import opened Text
  import opened Scanning

  /** One row of a block: destination start, source start, range length. */
  datatype Thruple = Thruple(dest: nat, src: nat, range: nat)

  /** The seven blocks of the almanac. */
  datatype Block =
    | SeedToSoil
    | SoilToFertilizer
    | FertilizerToWater
    | WaterToLight
    | LightToTemperature
    | TemperatureToHumidity
    | HumidityToLocation

  /** The header name of each block. */
  function BlockName(b: Block): string {
    match b
    case SeedToSoil => "seed-to-soil"
    case SoilToFertilizer => "soil-to-fertilizer"
    case FertilizerToWater => "fertilizer-to-water"
    case WaterToLight => "water-to-light"
    case LightToTemperature => "light-to-temperature"
    case TemperatureToHumidity => "temperature-to-humidity"
    case HumidityToLocation => "humidity-to-location"
  }

  /** `Block::from_str`: the block a header names, or the error "eh". */
  function BlockFromName(name: string): (r: Result<Block, string>)
    ensures r.Ok? ==> BlockName(r.value) == name
    ensures r.Err? ==> r.error == "eh"
  {
    if name == "seed-to-soil" then Ok(SeedToSoil)
    else if name == "soil-to-fertilizer" then Ok(SoilToFertilizer)
    else if name == "fertilizer-to-water" then Ok(FertilizerToWater)
    else if name == "water-to-light" then Ok(WaterToLight)
    else if name == "light-to-temperature" then Ok(LightToTemperature)
    else if name == "temperature-to-humidity" then Ok(TemperatureToHumidity)
    else if name == "humidity-to-location" then Ok(HumidityToLocation)
    else Err("eh")
  }

  /** Every block's own name reads back as that block. */
  lemma BlockNameRoundTrip(b: Block)
    ensures BlockFromName(BlockName(b)) == Ok(b)
  {
    match b
    case SeedToSoil =>
    case SoilToFertilizer =>
      assert "soil-to-fertilizer" != "seed-to-soil";
    case FertilizerToWater =>
      assert "fertilizer-to-water"[0] == 'f';
    case WaterToLight =>
      assert "water-to-light"[0] == 'w';
    case LightToTemperature =>
      assert "light-to-temperature"[0] == 'l';
    case TemperatureToHumidity =>
      assert "temperature-to-humidity"[0] == 't';
    case HumidityToLocation =>
      assert "humidity-to-location"[0] == 'h';
  }

  /** A name is accepted exactly when it is one of the seven block names; every other name is the error. */
  lemma BlockFromNameExactly(name: string)
    ensures BlockFromName(name).Ok? <==> exists b :: BlockName(b) == name
    ensures BlockFromName(name).Err? ==> BlockFromName(name) == Err("eh")
  {
    if b :| BlockName(b) == name {
      BlockNameRoundTrip(b);
    }
  }

  /** No two blocks share a name. */
  lemma BlockNamesDistinct(a: Block, b: Block)
    requires BlockName(a) == BlockName(b)
    ensures a == b
  {
    BlockNameRoundTrip(a);
    BlockNameRoundTrip(b);
  }

  /**
   * `offset_seed` as written: the seed is tested against the DESTINATION
   * range, and a seed inside it is moved by dest - src. The source's
   * unsigned subtraction panics below zero, which the requires excludes.
   */
  function OffsetSeed(seed: nat, entry: Thruple): (r: nat)
    requires entry.dest <= seed < entry.dest + entry.range ==> entry.src <= seed + entry.dest
    ensures entry.dest <= seed < entry.dest + entry.range ==> r + entry.src == seed + entry.dest
    ensures !(entry.dest <= seed < entry.dest + entry.range) ==> r == seed
    ensures entry.dest == entry.src ==> r == seed
  {
    if entry.dest <= seed < entry.dest + entry.range then seed + entry.dest - entry.src else seed
  }

  /**
   * The destination test leaves a seed of the source range where it is:
   * with the row "50 98 2", seed 98 stays 98 and seed 50 becomes 2.
   */
  lemma OffsetSeedTestsDestination()
    ensures 98 <= 98 < 98 + 2 && OffsetSeed(98, Thruple(50, 98, 2)) == 98
    ensures !(98 <= 50 < 98 + 2) && OffsetSeed(50, Thruple(50, 98, 2)) == 2
  {
  }

  /** A mapping row applied as the almanac means it: a seed in the source range moves to the destination range. */
  function MapSeed(seed: nat, entry: Thruple): (r: nat) {
    if entry.src <= seed < entry.src + entry.range then seed - entry.src + entry.dest else seed
  }

  /** The corrected map sends the source range onto the destination range, offset for offset, and fixes everything else. */
  lemma MapSeedRanges(seed: nat, entry: Thruple)
    ensures entry.src <= seed < entry.src + entry.range ==>
              entry.dest <= MapSeed(seed, entry) < entry.dest + entry.range &&
              MapSeed(seed, entry) - entry.dest == seed - entry.src
    ensures !(entry.src <= seed < entry.src + entry.range) ==> MapSeed(seed, entry) == seed
  {
  }

  /** Mapping back from the destination range undoes the corrected map. */
  lemma MapSeedInverse(seed: nat, entry: Thruple)
    requires entry.src <= seed < entry.src + entry.range
    ensures MapSeed(MapSeed(seed, entry), Thruple(entry.src, entry.dest, entry.range)) == seed
  {
  }

  /** On the row "50 98 2" the corrected map sends 98 to 50 and leaves 50 alone. */
  lemma MapSeedSample()
    ensures MapSeed(98, Thruple(50, 98, 2)) == 50 && MapSeed(99, Thruple(50, 98, 2)) == 51
    ensures MapSeed(50, Thruple(50, 98, 2)) == 50
  {
  }

  /** `digit1` followed by `parse()`: a digit run and its value. */
  function ParseNumber(s: string, i: nat): (r: Option<(nat, nat)>)
    requires i <= |s|
    ensures r.Some? ==> i < r.value.1 <= |s|
  {
    match Span1(s, i, Digit)
    case None => None
    case Some(j) =>
      SpanAll(s, i, Digit);
      DecimalValueSlice(s, i, j);
      Some((DecimalValue(s[i..j]), j))
  }

  /** A digit run laid out at i is read whole, with its value. */
  lemma ParseNumberAt(s: string, i: nat, t: string)
    requires IsRun(t, Digit) && ReadsAt(s, i, t)
    requires i + |t| == |s| || !IsDigit(s[i + |t|])
    ensures AllDigits(t) && ParseNumber(s, i) == Some((DecimalValue(t), i + |t|))
  {
    RunDigits(t);
    assert s[i + 0] == t[0];
    SpanOver(s, i, t, Digit);
    ReadsAtSlice(s, i, t);
  }

  /** `parse_seeds`: "seeds: ", digit groups separated by spaces, then at least one whitespace character. */
  function ParseSeeds(s: string): (r: Option<(seq<nat>, nat)>)
    ensures r.Some? ==> r.value.1 <= |s|
  {
    match Tag(s, 0, "seeds: ")
    case None => None
    case Some(a) =>
      match DigitGroups(s, a)
      case None => None
      case Some(list) =>
        match Span1(s, list.1, Multispace)
        case None => None
        case Some(e) =>
          DigitGroupsDigits(s, a);
          Some((Values(list.0), e))
  }

  /** The seeds line laid out: the prefix, the spaced groups and a run of whitespace. */
  lemma SeedsLayout(s: string, groups: seq<string>, gaps: seq<string>, tail: string)
    requires |groups| == |gaps| + 1 && AllRuns(groups, Digit) && AllRuns(gaps, Space)
    requires IsRun(tail, Multispace) && !InClass(tail[0], Space)
    requires ReadsAt(s, 0, "seeds: " + Spaced(groups, gaps) + tail)
    requires var e := |"seeds: " + Spaced(groups, gaps) + tail|; e == |s| || !InClass(s[e], Multispace)
    ensures ParseSeeds(s) == Some((Values(groups), |"seeds: " + Spaced(groups, gaps) + tail|))
  {
    var line := Spaced(groups, gaps);
    var a := |"seeds: "|;
    var b := a + |line|;
    assert ReadsAt(s, 0, "seeds: ") && ReadsAt(s, a, line) && ReadsAt(s, b, tail) by {
      ReadsAtSplit(s, 0, "seeds: " + line, tail);
      ReadsAtSplit(s, 0, "seeds: ", line);
    }
    assert Tag(s, 0, "seeds: ") == Some(a) by {
      ReadsAtSlice(s, 0, "seeds: ");
    }
    assert DigitGroups(s, a) == Some((groups, b)) by {
      assert s[b + 0] == tail[0];
      DigitGroupsSpaced(s, a, groups, gaps);
    }
    SpanOver(s, b, tail, Multispace);
  }

  /** `preceded(space1, digit1)` followed by `parse()`: spaces, then a digit run and its value. */
  function SpacedNumber(s: string, j: nat): (r: Option<(nat, nat)>)
    requires j <= |s|
    ensures r.Some? ==> j < r.value.1 <= |s|
  {
    match Span1(s, j, Space)
    case None => None
    case Some(k) => ParseNumber(s, k)
  }

  /** `parse_thruple`: three numbers, the second and third each after a run of spaces, read as dest, src and range. */
  function ParseThruple(s: string, i: nat): (r: Option<(Thruple, nat)>)
    requires i <= |s|
    ensures r.Some? ==> i < r.value.1 <= |s|
  {
    match ParseNumber(s, i)
    case None => None
    case Some(dest) =>
      match SpacedNumber(s, dest.1)
      case None => None
      case Some(src) =>
        match SpacedNumber(s, src.1)
        case None => None
        case Some(range) => Some((Thruple(dest.0, src.0, range.0), range.1))
  }

  /** A printed row: three digit runs. */
  datatype Row = Row(dest: string, src: string, range: string)

  predicate RowDigits(row: Row) {
    IsRun(row.dest, Digit) && IsRun(row.src, Digit) && IsRun(row.range, Digit)
  }

  /** A row as it is printed, one space between the numbers. */
  function RowText(row: Row): string {
    row.dest + (" " + row.src) + (" " + row.range)
  }

  /** The numbers a printed row stands for. */
  function RowValue(row: Row): Thruple
    requires RowDigits(row)
  {
    RunDigits(row.dest);
    RunDigits(row.src);
    RunDigits(row.range);
    Thruple(DecimalValue(row.dest), DecimalValue(row.src), DecimalValue(row.range))
  }

  /** A space at j, then a digit run: the space is skipped and the run read. */
  lemma SpaceThenNumber(s: string, j: nat, t: string)
    requires IsRun(t, Digit) && ReadsAt(s, j, " " + t)
    requires j + 1 + |t| == |s| || !IsDigit(s[j + 1 + |t|])
    ensures AllDigits(t) && SpacedNumber(s, j) == Some((DecimalValue(t), j + 1 + |t|))
  {
    ReadsAtSplit(s, j, " ", t);
    ReadsChar(s, j, " ", 0);
    ReadsChar(s, j + 1, t, 0);
    SpanOver(s, j, " ", Space);
    ParseNumberAt(s, j + 1, t);
  }

  /** The three numbers of a printed row and the spaces before the second and the third. */
  lemma RowPieces(s: string, i: nat, row: Row)
    requires ReadsAt(s, i, RowText(row))
    ensures var a := i + |row.dest|; var c := a + 1 + |row.src|;
      ReadsAt(s, i, row.dest) && ReadsAt(s, a, " " + row.src) && ReadsAt(s, c, " " + row.range) &&
      s[a] == ' ' && s[c] == ' '
  {
    var a := i + |row.dest|;
    var c := a + 1 + |row.src|;
    ReadsAtSplit(s, i, row.dest + (" " + row.src), " " + row.range);
    ReadsAtSplit(s, i, row.dest, " " + row.src);
    ReadsChar(s, a, " " + row.src, 0);
    ReadsChar(s, c, " " + row.range, 0);
  }

  /** `parse_thruple` is its three numbers read one after the other. */
  lemma ThrupleParts(s: string, i: nat, a: nat, c: nat, e: nat, t: Thruple)
    requires i <= |s| && a <= |s| && c <= |s|
    requires ParseNumber(s, i) == Some((t.dest, a))
    requires SpacedNumber(s, a) == Some((t.src, c))
    requires SpacedNumber(s, c) == Some((t.range, e))
    ensures ParseThruple(s, i) == Some((t, e))
  {
  }

  /** A printed row is read back as its numbers. */
  lemma RowRead(s: string, i: nat, row: Row)
    requires RowDigits(row) && ReadsAt(s, i, RowText(row))
    requires i + |RowText(row)| == |s| || !IsDigit(s[i + |RowText(row)|])
    ensures ParseThruple(s, i) == Some((RowValue(row), i + |RowText(row)|))
  {
    var a := i + |row.dest|;
    var c := a + 1 + |row.src|;
    RowPieces(s, i, row);
    ParseNumberAt(s, i, row.dest);
    SpaceThenNumber(s, a, row.src);
    SpaceThenNumber(s, c, row.range);
    ThrupleParts(s, i, a, c, i + |RowText(row)|, RowValue(row));
  }

  /**
   * The rows after the first of `separated_list1(line_ending, parse_thruple)`:
   * a line ending and a row each; when the row is missing the list ends
   * before the line ending.
   */
  function MoreThruples(s: string, j: nat): (r: (seq<Thruple>, nat))
    requires j <= |s|
    ensures j <= r.1 <= |s|
    decreases |s| - j
  {
    match LineEnding(s, j)
    case None => ([], j)
    case Some(k) =>
      match ParseThruple(s, k)
      case None => ([], j)
      case Some(row) =>
        var (rows, e) := MoreThruples(s, row.1);
        ([row.0] + rows, e)
  }

  /** `separated_list1(line_ending, parse_thruple)`: one or more rows, one per line. */
  function ThrupleList(s: string, i: nat): (r: Option<(seq<Thruple>, nat)>)
    requires i <= |s|
    ensures r.Some? ==> i < r.value.1 <= |s| && |r.value.0| >= 1
  {
    match ParseThruple(s, i)
    case None => None
    case Some(row) =>
      var (rows, e) := MoreThruples(s, row.1);
      Some(([row.0] + rows, e))
  }

  /** After the last row: the end of the text, or a blank line. */
  predicate RowsEnd(s: string, e: nat) {
    e == |s| || (e + 1 < |s| && s[e] == '\n' && s[e + 1] == '\n')
  }

  /** At a blank line or the end of the text the row list stops. */
  lemma RowsStop(s: string, j: nat)
    requires RowsEnd(s, j)
    ensures MoreThruples(s, j) == ([], j)
  {
    if j < |s| {
      assert LineEnding(s, j) == Some(j + 1);
      assert ParseNumber(s, j + 1) == None;
    }
  }

  /** One more row: a newline, then a row that reads back. */
  lemma MoreThruplesStep(s: string, j: nat, t: Thruple, m: nat)
    requires j < |s| && s[j] == '\n' && j + 1 <= |s|
    requires ParseThruple(s, j + 1) == Some((t, m))
    ensures MoreThruples(s, j) == ([t] + MoreThruples(s, m).0, MoreThruples(s, m).1)
  {
    assert LineEnding(s, j) == Some(j + 1);
  }

  /** Two rows, one per line, then a blank line or the end: the list holds both, in order. */
  lemma ThrupleListTwo(s: string, i: nat, first: Thruple, m: nat, second: Thruple, e: nat)
    requires i <= |s| && m < |s| && s[m] == '\n'
    requires ParseThruple(s, i) == Some((first, m))
    requires ParseThruple(s, m + 1) == Some((second, e))
    requires RowsEnd(s, e)
    ensures ThrupleList(s, i) == Some(([first, second], e))
  {
    RowsStop(s, e);
    MoreThruplesStep(s, m, second, e);
    var rest: seq<Thruple> := [];
    assert [second] + rest == [second];
    assert [first] + [second] == [first, second];
  }

  /**
   * The header line of a block: a run of letters and hyphens, " map:" and a
   * line ending. Gives the header's name and where the rows start.
   */
  function BlockHeader(s: string, i: nat): (r: Option<(string, nat)>)
    requires i <= |s|
    ensures r.Some? ==> i < r.value.1 <= |s| && IsRun(r.value.0, AlphaOrHyphen)
    ensures r.Some? ==> i + |r.value.0| <= |s| && r.value.0 == s[i..i + |r.value.0|] &&
                        Span1(s, i, AlphaOrHyphen) == Some(i + |r.value.0|)
    ensures r.Some? ==> var h := i + |r.value.0|;
                        Tag(s, h, " map:") == Some(h + 5) && LineEnding(s, h + 5) == Some(r.value.1)
  {
    match Span1(s, i, AlphaOrHyphen)
    case None => None
    case Some(h) =>
      match Tag(s, h, " map:")
      case None => None
      case Some(m) =>
        match LineEnding(s, m)
        case None => None
        case Some(b) =>
          SpanAll(s, i, AlphaOrHyphen);
          assert forall k :: 0 <= k < h - i ==> s[i..h][k] == s[i + k];
          Some((s[i..h], b))
  }

  /**
   * `parse_block`: the header, then the rows. A header that names no block
   * panics with "eh" (`unwrap` on the error of `Block::from_str`); a block
   * that parses is the one the header names, with at least one row.
   */
  function ParseBlock(s: string, i: nat): (r: Outcome<((Block, seq<Thruple>), nat)>)
    requires i <= |s|
    ensures r.Panic? <==> BlockHeader(s, i).Some? && BlockFromName(BlockHeader(s, i).value.0).Err?
    ensures r.Panic? ==> r.message == "eh"
    ensures r.Success? ==> BlockHeader(s, i).Some? && BlockName(r.value.0.0) == BlockHeader(s, i).value.0
    ensures r.Success? ==> ThrupleList(s, BlockHeader(s, i).value.1) == Some((r.value.0.1, r.value.1))
    ensures r.Success? ==> i < r.value.1 <= |s| && |r.value.0.1| >= 1
  {
    match BlockHeader(s, i)
    case None => Failure
    case Some(header) =>
      match BlockFromName(header.0)
      case Err(message) => Panic(message)
      case Ok(block) =>
        match ThrupleList(s, header.1)
        case None => Failure
        case Some(rows) => Success(((block, rows.0), rows.1))
  }

  /**
   * The blocks after the first of `separated_list1(multispace1, parse_block)`:
   * whitespace and a block each. When the block does not parse the list ends
   * before the whitespace; a panic in a block ends the whole parse.
   */
  function MoreBlocks(s: string, j: nat): (r: Outcome<(seq<(Block, seq<Thruple>)>, nat)>)
    requires j <= |s|
    ensures r.Failure? == false
    ensures r.Panic? ==> r.message == "eh"
    ensures r.Success? ==> j <= r.value.1 <= |s|
    decreases |s| - j
  {
    match Span1(s, j, Multispace)
    case None => Success(([], j))
    case Some(k) =>
      match ParseBlock(s, k)
      case Failure => Success(([], j))
      case Panic(message) => Panic(message)
      case Success(block) =>
        match MoreBlocks(s, block.1)
        case Success(rest) => Success(([block.0] + rest.0, rest.1))
        case Panic(message) => Panic(message)
  }

  /** The blocks in order into a map: a block that appears again replaces the earlier one (`collect` into a `HashMap`). */
  function Collect(blocks: seq<(Block, seq<Thruple>)>): (m: map<Block, seq<Thruple>>)
    ensures forall n :: 0 <= n < |blocks| ==> blocks[n].0 in m
    ensures |blocks| > 0 ==> m[blocks[|blocks| - 1].0] == blocks[|blocks| - 1].1
    decreases |blocks|
  {
    if blocks == [] then map[]
    else Collect(blocks[..|blocks| - 1])[blocks[|blocks| - 1].0 := blocks[|blocks| - 1].1]
  }

  /** The map holds the blocks named in the list, each with the rows of its last occurrence. */
  lemma {:induction false} CollectLastWins(blocks: seq<(Block, seq<Thruple>)>, b: Block)
    ensures b in Collect(blocks) <==> exists n :: 0 <= n < |blocks| && blocks[n].0 == b
    ensures forall n :: 0 <= n < |blocks| && blocks[n].0 == b &&
                        (forall later :: n < later < |blocks| ==> blocks[later].0 != b) ==>
                        b in Collect(blocks) && Collect(blocks)[b] == blocks[n].1
    decreases |blocks|
  {
    if blocks != [] {
      var front := blocks[..|blocks| - 1];
      CollectLastWins(front, b);
      assert forall n :: 0 <= n < |front| ==> front[n] == blocks[n];
      if blocks[|blocks| - 1].0 != b {
        if n :| 0 <= n < |blocks| && blocks[n].0 == b {
          assert n < |front| && front[n].0 == b;
        }
      }
    }
  }

  /**
   * `parse_blocks`: one or more blocks separated by whitespace, collected
   * into a map. It fails exactly when the first block does not parse, and a
   * panic is the unknown-header one.
   */
  function ParseBlocks(s: string, i: nat): (r: Outcome<map<Block, seq<Thruple>>>)
    requires i <= |s|
    ensures r.Failure? <==> ParseBlock(s, i).Failure?
    ensures r.Panic? ==> r.message == "eh"
    ensures r.Success? ==> ParseBlock(s, i).Success? && ParseBlock(s, i).value.0.0 in r.value
  {
    match ParseBlock(s, i)
    case Failure => Failure
    case Panic(message) => Panic(message)
    case Success(first) =>
      match MoreBlocks(s, first.1)
      case Success(rest) =>
        var blocks := [first.0] + rest.0;
        assert blocks[0] == first.0;
        Success(Collect(blocks))
      case Panic(message) => Panic(message)
  }

  /**
   * `parse`: the seeds, then the blocks from where the seeds line ends; what
   * is left after the blocks is dropped. A success holds the seeds of the
   * seeds line and at least one block.
   */
  function Parse(input: string): (r: Outcome<(seq<nat>, map<Block, seq<Thruple>>)>)
    ensures r.Success? ==> ParseSeeds(input).Some? && r.value.0 == ParseSeeds(input).value.0 && |r.value.1| >= 1
    ensures r.Failure? <==> ParseSeeds(input).None? || ParseBlocks(input, ParseSeeds(input).value.1).Failure?
    ensures r.Panic? ==> r.message == "eh"
  {
    match ParseSeeds(input)
    case None => Failure
    case Some(seeds) =>
      match ParseBlocks(input, seeds.1)
      case Failure => Failure
      case Panic(message) => Panic(message)
      case Success(blocks) => Success((seeds.0, blocks))
  }

  /** At the end of the block list (no whitespace, or no block after it) the list stops where it is. */
  lemma MoreBlocksStop(s: string, j: nat)
    requires j <= |s|
    requires Span1(s, j, Multispace).None? || ParseBlock(s, Span1(s, j, Multispace).value).Failure?
    ensures MoreBlocks(s, j) == Success(([], j))
  {
  }

  /** A block after whitespace that panics makes the whole list panic, with its message. */
  lemma MoreBlocksPanic(s: string, j: nat, k: nat)
    requires j <= |s| && Span1(s, j, Multispace) == Some(k)
    requires ParseBlock(s, k).Panic?
    ensures MoreBlocks(s, j) == Panic(ParseBlock(s, k).message)
  {
  }

  /**
   * A panic anywhere in the list of blocks is the outcome of the whole list:
   * every block before it parses, and the one after the last of them panics.
   */
  lemma {:induction false} MoreBlocksPanicsLater(s: string, j: nat, k: nat, e: nat, k2: nat)
    requires j <= |s| && Span1(s, j, Multispace) == Some(k)
    requires ParseBlock(s, k).Success? && ParseBlock(s, k).value.1 == e
    requires Span1(s, e, Multispace) == Some(k2) && ParseBlock(s, k2).Panic?
    ensures MoreBlocks(s, j) == Panic("eh")
  {
    MoreBlocksPanic(s, e, k2);
  }

  /** `process`: the parse, then the constant answer 35 (the mapping fold is not implemented). */
  function Process(input: string): (r: Outcome<nat>)
    ensures r.Success? <==> Parse(input).Success?
    ensures r.Failure? <==> Parse(input).Failure?
    ensures r.Panic? <==> Parse(input).Panic?
    ensures r.Success? ==> r.value == 35
    ensures r.Panic? ==> r.message == Parse(input).message
  {
    match Parse(input)
    case Failure => Failure
    case Panic(message) => Panic(message)
    case Success(_) => Success(35)
  }
}

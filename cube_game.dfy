/**
 * The cube game (puzzle-4): a game is a list of sets of red, green and blue
 * cubes. A game is possible when no set exceeds 12 red, 13 green and 14 blue;
 * its power is the product of the component-wise maximum of its sets, each
 * component starting from 1; and a set is built by adding every count to the
 * colour named right after it.
 */
module CubeGame {
  import opened Wrappers
  import opened Text

  /** One handful of cubes. */
  datatype CubeSet = CubeSet(red: nat, green: nat, blue: nat)

  /** A game: its id and the sets shown, in order. */
  datatype Game = Game(id: nat, sets: seq<CubeSet>)

  /** The bag holds 12 red, 13 green and 14 blue cubes. */
  predicate WithinLimits(s: CubeSet) {
    s.red <= 12 && s.green <= 13 && s.blue <= 14
  }

  /** Every set of the list fits in the bag. */
  function AllWithinLimits(sets: seq<CubeSet>): (r: bool)
    ensures r <==> forall i :: 0 <= i < |sets| ==> WithinLimits(sets[i])
  {
    if sets == [] then true else WithinLimits(sets[0]) && AllWithinLimits(sets[1..])
  }

  /** A game is possible iff every one of its sets fits in the bag (so a game without sets is). */
  function GameOk(g: Game): (r: bool)
    ensures r <==> forall i :: 0 <= i < |g.sets| ==> WithinLimits(g.sets[i])
    ensures g.sets == [] ==> r
  {
    AllWithinLimits(g.sets)
  }

  /** c has at least as many cubes of each colour as s. */
  predicate Dominates(c: CubeSet, s: CubeSet) {
    c.red >= s.red && c.green >= s.green && c.blue >= s.blue
  }

  /** The fold step: raise each component of acc to curr's when curr's is larger. */
  function Raise(acc: CubeSet, curr: CubeSet): CubeSet {
    CubeSet(if curr.red > acc.red then curr.red else acc.red,
            if curr.green > acc.green then curr.green else acc.green,
            if curr.blue > acc.blue then curr.blue else acc.blue)
  }

  /** The fold of the first k sets, starting from one cube of each colour. */
  function CoverTo(sets: seq<CubeSet>, k: nat): CubeSet
    requires k <= |sets|
  {
    if k == 0 then CubeSet(1, 1, 1) else Raise(CoverTo(sets, k - 1), sets[k - 1])
  }

  /** The fewest cubes of each colour (at least one) that could have produced every set. */
  function Cover(sets: seq<CubeSet>): CubeSet {
    CoverTo(sets, |sets|)
  }

  /** The fold is an upper bound of its sets, and no component drops below 1. */
  lemma {:induction false} CoverToDominates(sets: seq<CubeSet>, k: nat)
    requires k <= |sets|
    ensures Dominates(CoverTo(sets, k), CubeSet(1, 1, 1))
    ensures forall i :: 0 <= i < k ==> Dominates(CoverTo(sets, k), sets[i])
  {
    if k > 0 {
      CoverToDominates(sets, k - 1);
    }
  }

  /** Every bound of (1, 1, 1) and of the sets bounds the fold: it is the least such bound. */
  lemma {:induction false} CoverToLeast(sets: seq<CubeSet>, k: nat, d: CubeSet)
    requires k <= |sets|
    requires Dominates(d, CubeSet(1, 1, 1))
    requires forall i :: 0 <= i < k ==> Dominates(d, sets[i])
    ensures Dominates(d, CoverTo(sets, k))
  {
    if k > 0 {
      CoverToLeast(sets, k - 1, d);
    }
  }

  /** Each component of the fold is 1 or the matching component of one of the sets. */
  lemma {:induction false} CoverToAttained(sets: seq<CubeSet>, k: nat)
    requires k <= |sets|
    ensures CoverTo(sets, k).red == 1 || exists i :: 0 <= i < k && CoverTo(sets, k).red == sets[i].red
    ensures CoverTo(sets, k).green == 1 || exists i :: 0 <= i < k && CoverTo(sets, k).green == sets[i].green
    ensures CoverTo(sets, k).blue == 1 || exists i :: 0 <= i < k && CoverTo(sets, k).blue == sets[i].blue
  {
    if k > 0 {
      CoverToAttained(sets, k - 1);
    }
  }

  /** The component-wise maximum of the sets, each component at least 1. */
  lemma CoverIsMaximum(sets: seq<CubeSet>)
    ensures Dominates(Cover(sets), CubeSet(1, 1, 1))
    ensures forall s :: s in sets ==> Dominates(Cover(sets), s)
    ensures forall d :: Dominates(d, CubeSet(1, 1, 1)) && (forall s :: s in sets ==> Dominates(d, s)) ==>
              Dominates(d, Cover(sets))
  {
    CoverToDominates(sets, |sets|);
    forall d | Dominates(d, CubeSet(1, 1, 1)) && (forall s :: s in sets ==> Dominates(d, s))
      ensures Dominates(d, Cover(sets))
    {
      CoverToLeast(sets, |sets|, d);
    }
  }

  /** A game is possible exactly when the bag covers the game's minimal cover. */
  lemma GameOkIffCoverWithinLimits(g: Game)
    ensures GameOk(g) <==> WithinLimits(Cover(g.sets))
  {
    CoverToDominates(g.sets, |g.sets|);
    if GameOk(g) {
      CoverToLeast(g.sets, |g.sets|, CubeSet(12, 13, 14));
    }
  }

  /** The power of a game: the product of its minimal cover's components. */
  function Power(g: Game): nat {
    var c := Cover(g.sets);
    c.red * c.green * c.blue
  }

  /** Each factor is at least 1, so the power is too. */
  lemma PowerAtLeastOne(g: Game)
    ensures Power(g) >= 1
  {
    var c := Cover(g.sets);
    CoverToDominates(g.sets, |g.sets|);
    MulAtLeast(c.red, c.green);
    MulAtLeast(c.red * c.green, c.blue);
  }

  /** The sum of the powers of the first k games. */
  function SumOfPowersTo(games: seq<Game>, k: nat): nat
    requires k <= |games|
  {
    if k == 0 then 0 else SumOfPowersTo(games, k - 1) + Power(games[k - 1])
  }

  function SumOfPowers(games: seq<Game>): nat {
    SumOfPowersTo(games, |games|)
  }

  /** Every game adds at least 1, so the total is at least the number of games. */
  lemma {:induction false} SumOfPowersAtLeastCount(games: seq<Game>, k: nat)
    requires k <= |games|
    ensures SumOfPowersTo(games, k) >= k
  {
    if k > 0 {
      SumOfPowersAtLeastCount(games, k - 1);
      PowerAtLeastOne(games[k - 1]);
    }
  }

  /** The fold over one game's sets and the product of its components. */
  method GamePower(g: Game) returns (power: nat)
    ensures power == Power(g)
  {
    var acc := CubeSet(1, 1, 1);
    for j := 0 to |g.sets|
      invariant acc == CoverTo(g.sets, j)
    {
      var curr := g.sets[j];
      if curr.red > acc.red {
        acc := acc.(red := curr.red);
      }
      if curr.green > acc.green {
        acc := acc.(green := curr.green);
      }
      if curr.blue > acc.blue {
        acc := acc.(blue := curr.blue);
      }
      assert acc == Raise(CoverTo(g.sets, j), g.sets[j]);
    }
    assert acc == Cover(g.sets);
    power := acc.red * acc.green * acc.blue;
  }

  /** The answer: the sum over all games of their powers. */
  method Sum(games: seq<Game>) returns (total: nat)
    ensures total == SumOfPowers(games)
  {
    total := 0;
    for i := 0 to |games|
      invariant total == SumOfPowersTo(games, i)
    {
      var power := GamePower(games[i]);
      total := total + power;
    }
  }

  /**
   * The parts of one colour block of a set, as the grammar yields them: counts
   * and colour names, in order.
   */
  datatype Token = Int(value: nat) | Colour(name: string)

  /** Why a set cannot be built: a colour with no count before it (a panic), or a name that is no colour. */
  datatype SetError = MissingValue | UnknownColour(name: string)

  predicate IsColourName(name: string) {
    name == "red" || name == "green" || name == "blue"
  }

  /** The count waiting at position i of a block: the token just before, when it is a count. */
  function Pending(block: seq<Token>, i: nat): Option<nat>
    requires i <= |block|
  {
    if i > 0 && block[i - 1].Int? then Some(block[i - 1].value) else None
  }

  /** What goes wrong at token i, if anything. */
  function TokenError(block: seq<Token>, i: nat): Option<SetError>
    requires i < |block|
  {
    if !block[i].Colour? then None
    else if Pending(block, i).None? then Some(MissingValue)
    else if !IsColourName(block[i].name) then Some(UnknownColour(block[i].name))
    else None
  }

  /** The first error among the first k tokens of a block. */
  function BlockError(block: seq<Token>, k: nat): Option<SetError>
    requires k <= |block|
  {
    if k == 0 then None
    else if BlockError(block, k - 1).Some? then BlockError(block, k - 1)
    else TokenError(block, k - 1)
  }

  /** The first error among the first k blocks. */
  function BlocksError(blocks: seq<seq<Token>>, k: nat): Option<SetError>
    requires k <= |blocks|
  {
    if k == 0 then None
    else if BlocksError(blocks, k - 1).Some? then BlocksError(blocks, k - 1)
    else BlockError(blocks[k - 1], |blocks[k - 1]|)
  }

  /** The counts standing before `colour` among the first k tokens of a block. */
  function BlockTotal(block: seq<Token>, k: nat, colour: string): nat
    requires k <= |block|
  {
    if k == 0 then 0
    else BlockTotal(block, k - 1, colour) +
         (if block[k - 1] == Colour(colour) then Pending(block, k - 1).GetOr(0) else 0)
  }

  /** The counts standing before `colour` in the first k blocks. */
  function BlocksTotal(blocks: seq<seq<Token>>, k: nat, colour: string): nat
    requires k <= |blocks|
  {
    if k == 0 then 0 else BlocksTotal(blocks, k - 1, colour) + BlockTotal(blocks[k - 1], |blocks[k - 1]|, colour)
  }

  /** The set the blocks describe, or the first error. */
  function SetOf(blocks: seq<seq<Token>>): Result<CubeSet, SetError> {
    var e := BlocksError(blocks, |blocks|);
    if e.Some? then Err(e.value)
    else Ok(CubeSet(BlocksTotal(blocks, |blocks|, "red"),
                    BlocksTotal(blocks, |blocks|, "green"),
                    BlocksTotal(blocks, |blocks|, "blue")))
  }

  /**
   * The accumulation of one set: a count is remembered until the next colour,
   * which adds it to that colour's total; every block starts with nothing
   * remembered. A colour without a count, or an unknown name, stops the build.
   */
  method BuildSet(blocks: seq<seq<Token>>) returns (r: Result<CubeSet, SetError>)
    ensures r == SetOf(blocks)
  {
    var cubes := CubeSet(0, 0, 0);
    for b := 0 to |blocks|
      invariant BlocksError(blocks, b).None?
      invariant cubes == CubeSet(BlocksTotal(blocks, b, "red"), BlocksTotal(blocks, b, "green"), BlocksTotal(blocks, b, "blue"))
    {
      var block := blocks[b];
      var seenValue: Option<nat> := None;
      for t := 0 to |block|
        invariant BlockError(block, t).None?
        invariant seenValue == Pending(block, t)
        invariant cubes == CubeSet(BlocksTotal(blocks, b, "red") + BlockTotal(block, t, "red"),
                                 BlocksTotal(blocks, b, "green") + BlockTotal(block, t, "green"),
                                 BlocksTotal(blocks, b, "blue") + BlockTotal(block, t, "blue"))
      {
        match block[t]
        case Colour(name) =>
          if seenValue.None? {
            ErrorPersists(blocks, b, block, t, MissingValue);
            return Err(MissingValue);
          }
          var value := seenValue.value;
          if name == "red" {
            cubes := cubes.(red := cubes.red + value);
          } else if name == "green" {
            cubes := cubes.(green := cubes.green + value);
          } else if name == "blue" {
            cubes := cubes.(blue := cubes.blue + value);
          } else {
            ErrorPersists(blocks, b, block, t, UnknownColour(name));
            return Err(UnknownColour(name));
          }
          seenValue := None;
        case Int(n) =>
          seenValue := Some(n);
      }
    }
    return Ok(cubes);
  }

  /** Once a token fails, that error is the first one of its block and of all the blocks. */
  lemma ErrorPersists(blocks: seq<seq<Token>>, b: nat, block: seq<Token>, t: nat, e: SetError)
    requires b < |blocks| && block == blocks[b] && t < |block|
    requires BlocksError(blocks, b).None? && BlockError(block, t).None? && TokenError(block, t) == Some(e)
    ensures SetOf(blocks) == Err(e)
  {
    BlockErrorPersists(block, t + 1, |block|);
    BlocksErrorPersists(blocks, b + 1, |blocks|);
  }

  lemma {:induction false} BlockErrorPersists(block: seq<Token>, j: nat, k: nat)
    requires j <= k <= |block| && BlockError(block, j).Some?
    ensures BlockError(block, k) == BlockError(block, j)
    decreases k
  {
    if k > j {
      BlockErrorPersists(block, j, k - 1);
    }
  }

  lemma {:induction false} BlocksErrorPersists(blocks: seq<seq<Token>>, j: nat, k: nat)
    requires j <= k <= |blocks| && BlocksError(blocks, j).Some?
    ensures BlocksError(blocks, k) == BlocksError(blocks, j)
    decreases k
  {
    if k > j {
      BlocksErrorPersists(blocks, j, k - 1);
    }
  }

  /** A block fails iff one of its tokens does, and then with the error of the first failing token. */
  lemma {:induction false} BlockErrorIsFirst(block: seq<Token>, k: nat)
    requires k <= |block|
    ensures BlockError(block, k).None? <==> forall i :: 0 <= i < k ==> TokenError(block, i).None?
    ensures BlockError(block, k).Some? ==>
              exists i :: 0 <= i < k && TokenError(block, i) == BlockError(block, k) &&
                          forall j :: 0 <= j < i ==> TokenError(block, j).None?
  {
    if k > 0 {
      BlockErrorIsFirst(block, k - 1);
    }
  }

  /** A colour that no colour token names collects nothing. */
  lemma {:induction false} BlockTotalUnmentioned(block: seq<Token>, k: nat, colour: string)
    requires k <= |block|
    requires forall i :: 0 <= i < k ==> block[i] != Colour(colour)
    ensures BlockTotal(block, k, colour) == 0
  {
    if k > 0 {
      BlockTotalUnmentioned(block, k - 1, colour);
    }
  }

  lemma {:induction false} BlocksTotalUnmentioned(blocks: seq<seq<Token>>, k: nat, colour: string)
    requires k <= |blocks|
    requires forall b, i :: 0 <= b < k && 0 <= i < |blocks[b]| ==> blocks[b][i] != Colour(colour)
    ensures BlocksTotal(blocks, k, colour) == 0
  {
    if k > 0 {
      BlocksTotalUnmentioned(blocks, k - 1, colour);
      BlockTotalUnmentioned(blocks[k - 1], |blocks[k - 1]|, colour);
    }
  }

  /** Colours never mentioned in a set stay 0. */
  lemma UnmentionedColourIsZero(blocks: seq<seq<Token>>, colour: string)
    requires forall b, i :: 0 <= b < |blocks| && 0 <= i < |blocks[b]| ==> blocks[b][i] != Colour(colour)
    ensures BlocksTotal(blocks, |blocks|, colour) == 0
  {
    BlocksTotalUnmentioned(blocks, |blocks|, colour);
  }
}

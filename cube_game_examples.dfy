/**
 * The worked example of the cube game, evaluated on the model.
 */
module CubeGameExamples {
  import opened Wrappers
  import opened CubeGame

  /** The five sample games, as the parser builds them. */
  const SampleGames: seq<Game> := [
    Game(1, [CubeSet(4, 0, 3), CubeSet(1, 2, 6), CubeSet(0, 2, 0)]),
    Game(2, [CubeSet(0, 2, 1), CubeSet(1, 3, 4), CubeSet(0, 1, 1)]),
    Game(3, [CubeSet(20, 8, 6), CubeSet(4, 13, 5), CubeSet(1, 5, 0)]),
    Game(4, [CubeSet(3, 1, 6), CubeSet(6, 3, 0), CubeSet(14, 3, 15)]),
    Game(5, [CubeSet(6, 3, 1), CubeSet(1, 2, 2)])
  ]

  /** Each sample game's fewest cubes: 4*2*6, 1*3*4, 20*13*6, 14*3*15 and 6*3*2. */
  lemma SampleCovers()
    ensures Cover(SampleGames[0].sets) == CubeSet(4, 2, 6)
    ensures Cover(SampleGames[1].sets) == CubeSet(1, 3, 4)
    ensures Cover(SampleGames[2].sets) == CubeSet(20, 13, 6)
    ensures Cover(SampleGames[3].sets) == CubeSet(14, 3, 15)
    ensures Cover(SampleGames[4].sets) == CubeSet(6, 3, 2)
  {
  }

  /** The powers of the sample games add up to 2286. */
  lemma SampleSum()
    ensures SumOfPowers(SampleGames) == 2286
  {
    SampleCovers();
    assert Power(SampleGames[0]) == 48;
    assert Power(SampleGames[1]) == 12;
    assert Power(SampleGames[2]) == 1560;
    assert Power(SampleGames[3]) == 630;
    assert Power(SampleGames[4]) == 36;
  }

  /** Games 1, 2 and 5 fit in the bag; game 3 shows 20 red and game 4 shows 15 blue. */
  lemma SamplePossible()
    ensures GameOk(SampleGames[0]) && GameOk(SampleGames[1]) && GameOk(SampleGames[4])
    ensures !GameOk(SampleGames[2]) && !GameOk(SampleGames[3])
  {
    assert !WithinLimits(SampleGames[2].sets[0]);
    assert !WithinLimits(SampleGames[3].sets[2]);
  }

  /** The first set of game 1, "3 blue, 4 red": green is never named and stays 0. */
  lemma FirstSampleSet()
    ensures SetOf([[Int(3), Colour("blue")], [Int(4), Colour("red")]]) == Ok(CubeSet(4, 0, 3))
  {
    var blocks := [[Int(3), Colour("blue")], [Int(4), Colour("red")]];
    assert "blue" != "red" && "blue" != "green" && "red" != "green";
    assert BlocksError(blocks, 2).None?;
    assert BlocksTotal(blocks, 2, "red") == 4;
    assert BlocksTotal(blocks, 2, "green") == 0;
    assert BlocksTotal(blocks, 2, "blue") == 3;
  }

  /** A colour with no count before it stops the build. */
  lemma MissingCount()
    ensures SetOf([[Int(3), Colour("blue")], [Colour("red")]]) == Err(MissingValue)
  {
    var blocks := [[Int(3), Colour("blue")], [Colour("red")]];
    assert IsColourName("blue");
    assert TokenError(blocks[0], 1).None?;
    assert BlockError(blocks[0], 2).None?;
    assert BlocksError(blocks, 1).None?;
    assert TokenError(blocks[1], 0) == Some(MissingValue);
  }

  /** A name other than red, green or blue stops the build. */
  lemma UnknownName()
    ensures SetOf([[Int(3), Colour("pink")]]) == Err(UnknownColour("pink"))
  {
    var blocks := [[Int(3), Colour("pink")]];
    assert "pink" != "red" && "pink" != "green" && "pink" != "blue";
    assert TokenError(blocks[0], 0).None?;
    assert TokenError(blocks[0], 1) == Some(UnknownColour("pink"));
    assert BlockError(blocks[0], 2) == Some(UnknownColour("pink"));
    assert BlocksError(blocks, 1) == Some(UnknownColour("pink"));
  }

  /** The count waiting for a colour is the last one before it: "3 4 red" adds 4. */
  lemma LastCountWins()
    ensures SetOf([[Int(3), Int(4), Colour("red")]]) == Ok(CubeSet(4, 0, 0))
  {
    var blocks := [[Int(3), Int(4), Colour("red")]];
    assert "red" != "green" && "red" != "blue";
    assert BlockError(blocks[0], 3).None?;
    assert BlocksTotal(blocks, 1, "red") == 4;
    assert BlocksTotal(blocks, 1, "green") == 0;
    assert BlocksTotal(blocks, 1, "blue") == 0;
  }
}

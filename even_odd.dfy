/**
 * The even/odd game rule: a number is drawn, each player has named a parity,
 * and the players who named the drawn number's parity are "correct". One
 * correct player wins; two or none make a draw.
 */
module EvenOdd {
  import opened Wrappers

  /** `MatchOutcome`; the choices and results are the plain strings the code passes around. */
  datatype MatchOutcome = MatchOutcome(
    drawnNumber: int,
    numberParity: string,
    playerAChoice: string,
    playerBChoice: string,
    playerAResult: string,
    playerBResult: string,
    winnerId: Option<string>)

  /** `EvenOddGame(min_number, max_number)`; the defaults are 1 and 10. */
  datatype Game = Game(minNumber: int, maxNumber: int)

  const DefaultGame := Game(1, 10)

  /**
   * `draw_number`: `random.randint(min, max)`. The random source is the
   * parameter `offset`; an empty range is the `ValueError` randint raises.
   */
  function DrawNumber(g: Game, offset: nat): (r: Result<int, string>)
    ensures r.Ok? <==> g.minNumber <= g.maxNumber
    ensures r.Ok? ==> g.minNumber <= r.value <= g.maxNumber
  {
    if g.minNumber > g.maxNumber then Err("empty range for randrange")
    else Ok(g.minNumber + offset % (g.maxNumber - g.minNumber + 1))
  }

  /** Every number of the range can be drawn. */
  lemma EveryNumberDrawable(g: Game, n: int)
    requires g.minNumber <= n <= g.maxNumber
    ensures DrawNumber(g, n - g.minNumber) == Ok(n)
  {
    var span := g.maxNumber - g.minNumber + 1;
    var offset := n - g.minNumber;
    assert 0 <= offset < span;
    assert offset % span == offset;
  }

  /** `get_parity`: Python's `n % 2` is 0 or 1 for every int, as Dafny's is. */
  function GetParity(n: int): (p: string)
    ensures p == "even" <==> n % 2 == 0
    ensures p == "odd" <==> n % 2 != 0
  {
    if n % 2 == 0 then "even" else "odd"
  }

  /** The if/elif chain of `determine_match_outcome` once the number is known. */
  function Decide(playerAId: string, playerAChoice: string, playerBId: string, playerBChoice: string, drawnNumber: int)
    : (o: MatchOutcome)
    ensures o.drawnNumber == drawnNumber && o.numberParity == GetParity(drawnNumber)
    ensures o.playerAChoice == playerAChoice && o.playerBChoice == playerBChoice
  {
    var numberParity := GetParity(drawnNumber);
    var aCorrect := playerAChoice == numberParity;
    var bCorrect := playerBChoice == numberParity;
    if aCorrect && bCorrect then
      MatchOutcome(drawnNumber, numberParity, playerAChoice, playerBChoice, "DRAW", "DRAW", None)
    else if aCorrect then
      MatchOutcome(drawnNumber, numberParity, playerAChoice, playerBChoice, "WIN", "LOSS", Some(playerAId))
    else if bCorrect then
      MatchOutcome(drawnNumber, numberParity, playerAChoice, playerBChoice, "LOSS", "WIN", Some(playerBId))
    else
      MatchOutcome(drawnNumber, numberParity, playerAChoice, playerBChoice, "DRAW", "DRAW", None)
  }

  /** `determine_match_outcome`: a supplied number is used as is, otherwise one is drawn. */
  function DetermineMatchOutcome(g: Game, playerAId: string, playerAChoice: string, playerBId: string,
                                 playerBChoice: string, drawnNumber: Option<int>, offset: nat)
    : (r: Result<MatchOutcome, string>)
    ensures drawnNumber.Some? ==> r == Ok(Decide(playerAId, playerAChoice, playerBId, playerBChoice, drawnNumber.value))
    ensures drawnNumber.None? && r.Ok? ==> g.minNumber <= r.value.drawnNumber <= g.maxNumber
  {
    if drawnNumber.Some? then Ok(Decide(playerAId, playerAChoice, playerBId, playerBChoice, drawnNumber.value))
    else
      match DrawNumber(g, offset)
      case Err(e) => Err(e)
      case Ok(n) => Ok(Decide(playerAId, playerAChoice, playerBId, playerBChoice, n))
  }

  /** A player is correct when the choice equals the drawn number's parity name. */
  predicate Correct(choice: string, drawnNumber: int)
  {
    choice == GetParity(drawnNumber)
  }

  /** A draw exactly when both or neither player is correct. */
  lemma DrawIffSameCorrectness(aId: string, aChoice: string, bId: string, bChoice: string, n: int)
    ensures var o := Decide(aId, aChoice, bId, bChoice, n);
      (o.playerAResult == "DRAW") <==> (Correct(aChoice, n) == Correct(bChoice, n))
  {
  }

  /**
   * Exactly one of "A wins", "B wins", "draw", with complementary results,
   * and the winner is the one correct player.
   */
  lemma OutcomeCases(aId: string, aChoice: string, bId: string, bChoice: string, n: int)
    ensures var o := Decide(aId, aChoice, bId, bChoice, n);
      || (o.playerAResult == "WIN" && o.playerBResult == "LOSS" && o.winnerId == Some(aId)
          && Correct(aChoice, n) && !Correct(bChoice, n))
      || (o.playerAResult == "LOSS" && o.playerBResult == "WIN" && o.winnerId == Some(bId)
          && !Correct(aChoice, n) && Correct(bChoice, n))
      || (o.playerAResult == "DRAW" && o.playerBResult == "DRAW" && o.winnerId == None
          && Correct(aChoice, n) == Correct(bChoice, n))
  {
  }

  /** No outcome is a technical loss: that result only comes from timeouts. */
  lemma NeverTechnicalLoss(aId: string, aChoice: string, bId: string, bChoice: string, n: int)
    ensures var o := Decide(aId, aChoice, bId, bChoice, n);
      o.playerAResult in {"WIN", "LOSS", "DRAW"} && o.playerBResult in {"WIN", "LOSS", "DRAW"}
  {
  }

  /** Swapping the players swaps their results and keeps the winner. */
  lemma SwapPlayers(aId: string, aChoice: string, bId: string, bChoice: string, n: int)
    ensures var o, s := Decide(aId, aChoice, bId, bChoice, n), Decide(bId, bChoice, aId, aChoice, n);
      s.playerAResult == o.playerBResult && s.playerBResult == o.playerAResult && s.winnerId == o.winnerId
  {
  }

  /**
   * `determine_winner`: the outcome for players named "A" and "B", with the
   * winner reported as "player_a" or "player_b".
   */
  function DetermineWinner(aChoice: string, bChoice: string, drawnNumber: int): (r: (string, string, Option<string>))
    ensures var o := Decide("A", aChoice, "B", bChoice, drawnNumber);
      r.0 == o.playerAResult && r.1 == o.playerBResult
      && (r.2 == Some("player_a") <==> o.playerAResult == "WIN")
      && (r.2 == Some("player_b") <==> o.playerBResult == "WIN")
      && (r.2 == None <==> o.playerAResult == "DRAW")
  {
    var o := Decide("A", aChoice, "B", bChoice, drawnNumber);
    var winner := if o.winnerId == Some("A") then Some("player_a")
                  else if o.winnerId == Some("B") then Some("player_b")
                  else None;
    (o.playerAResult, o.playerBResult, winner)
  }
}

/**
 * A simulated league player: its strategy name decides each parity choice,
 * and its tally keeps points equal to three per win plus one per draw.
 * The random pick `random.choice(["even", "odd"])` is the boolean `coin`.
 */
module SimPlayer {
  import opened Parity

  /** The choice the alternating strategy makes on its k-th call (counting from 0). */
  function Alternation(k: nat): string
  {
    if k % 2 == 0 then "even" else "odd"
  }

  /** `self._opponent_history.get(opponent_id, [])`. */
  function HistoryOf(history: map<string, seq<string>>, opponentId: string): seq<string>
  {
    if opponentId in history then history[opponentId] else []
  }

  /**
   * `_adaptive_choice`: a random pick while fewer than two of the opponent's
   * choices are known, then the opponent's majority, ties going to "even".
   */
  function AdaptiveChoice(hist: seq<string>, coin: bool): (c: string)
    ensures c == "even" || c == "odd"
    ensures |hist| < 2 ==> c == CoinChoice(coin)
  {
    if |hist| < 2 then CoinChoice(coin)
    else if Count(hist, "even") >= Count(hist, "odd") then "even"
    else "odd"
  }

  /** With two or more known choices, the majority is followed and a tie goes to "even". */
  lemma AdaptiveMajority(hist: seq<string>, coin: bool)
    requires |hist| >= 2
    ensures Count(hist, "even") > Count(hist, "odd") ==> AdaptiveChoice(hist, coin) == "even"
    ensures Count(hist, "odd") > Count(hist, "even") ==> AdaptiveChoice(hist, coin) == "odd"
    ensures Count(hist, "even") == Count(hist, "odd") ==> AdaptiveChoice(hist, coin) == "even"
  {
  }

  /** Against an opponent who always chose the same parity (twice or more), adaptive copies it. */
  lemma AdaptiveCopiesConstantOpponent(hist: seq<string>, coin: bool, x: string)
    requires x == "even" || x == "odd"
    requires |hist| >= 2 && forall i | 0 <= i < |hist| :: hist[i] == x
    ensures AdaptiveChoice(hist, coin) == x
  {
    CountUniform(hist, x, if x == "even" then "odd" else "even");
  }

  /** The part of a player that playing a match changes: the tally, the alternation and the histories. */
  datatype Tally = Tally(wins: nat, draws: nat, losses: nat, points: nat, lastChoice: string,
                         opponentHistory: map<string, seq<string>>)
  {
    function Games(): nat
    {
      wins + draws + losses
    }
  }

  function Flip(choice: string): string
  {
    if choice == "even" then "odd" else "even"
  }

  /** The alternating strategy's last choice is always a parity name. */
  predicate Alternates(t: Tally)
  {
    t.lastChoice == "even" || t.lastChoice == "odd"
  }

  /**
   * `choose_parity` on a player's tally: the choice made and the tally after
   * it. Only the alternating strategy changes anything, its last choice.
   */
  function Chosen(strategy: string, t: Tally, opponentId: string, coin: bool): (c: (string, Tally))
    ensures Alternates(t) ==> (c.0 == "even" || c.0 == "odd") && Alternates(c.1)
    ensures strategy == "deterministic_even" ==> c.0 == "even"
    ensures strategy == "deterministic_odd" ==> c.0 == "odd"
    ensures strategy == "adaptive" ==> c.0 == AdaptiveChoice(HistoryOf(t.opponentHistory, opponentId), coin)
    ensures strategy == "alternating" ==> c.0 == t.lastChoice && c.1.lastChoice == Flip(t.lastChoice)
    ensures strategy != "alternating" ==> c.1 == t
    ensures c.1 == t.(lastChoice := c.1.lastChoice)
  {
    if strategy == "random" then (CoinChoice(coin), t)
    else if strategy == "deterministic_even" then ("even", t)
    else if strategy == "deterministic_odd" then ("odd", t)
    else if strategy == "alternating" then (t.lastChoice, t.(lastChoice := Flip(t.lastChoice)))
    else if strategy == "adaptive" then (AdaptiveChoice(HistoryOf(t.opponentHistory, opponentId), coin), t)
    else (CoinChoice(coin), t)
  }

  /**
   * `record_result` on a player's tally: one more game, counted as a win, a
   * draw or a loss, and the opponent's choice appended to its history.
   */
  function Recorded(t: Tally, result: string, opponentId: string, opponentChoice: string): (r: Tally)
    ensures r.Games() == t.Games() + 1
    ensures r.wins == t.wins + (if result == "WIN" then 1 else 0)
    ensures r.draws == t.draws + (if result == "DRAW" then 1 else 0)
    ensures r.losses == t.losses + (if result != "WIN" && result != "DRAW" then 1 else 0)
    ensures t.points == 3 * t.wins + t.draws ==> r.points == 3 * r.wins + r.draws
    ensures r.opponentHistory == t.opponentHistory[opponentId := HistoryOf(t.opponentHistory, opponentId) + [opponentChoice]]
    ensures r.lastChoice == t.lastChoice
  {
    var counted :=
      if result == "WIN" then t.(wins := t.wins + 1, points := t.points + 3)
      else if result == "DRAW" then t.(draws := t.draws + 1, points := t.points + 1)
      else t.(losses := t.losses + 1);
    counted.(opponentHistory := t.opponentHistory[opponentId := HistoryOf(t.opponentHistory, opponentId) + [opponentChoice]])
  }

  class Player {
    const playerId: string
    const displayName: string
    const strategy: string
    const authToken: string
    var wins: nat
    var draws: nat
    var losses: nat
    var points: nat
    var lastChoice: string
    var opponentHistory: map<string, seq<string>>
    /** How many alternating choices have been made so far. */
    ghost var alternations: nat

    /** Points follow the tally, and the alternating choice follows the call count. */
    ghost predicate Valid()
      reads this
    {
      points == 3 * wins + draws && lastChoice == Alternation(alternations)
    }

    /** The player's tally as a value. */
    function Snap(): (t: Tally)
      reads this
      ensures t.wins == wins && t.draws == draws && t.losses == losses && t.points == points
      ensures t.lastChoice == lastChoice && t.opponentHistory == opponentHistory
    {
      Tally(wins, draws, losses, points, lastChoice, opponentHistory)
    }

    /** A new player: no games, last choice "even", no opponent seen; the token is an input. */
    constructor(playerId: string, displayName: string, strategy: string, authToken: string)
      ensures Valid()
      ensures this.playerId == playerId && this.displayName == displayName
      ensures this.strategy == strategy && this.authToken == authToken
      ensures wins == 0 && draws == 0 && losses == 0 && points == 0
      ensures lastChoice == "even" && opponentHistory == map[] && alternations == 0
    {
      this.playerId := playerId;
      this.displayName := displayName;
      this.strategy := strategy;
      this.authToken := authToken;
      wins, draws, losses, points := 0, 0, 0, 0;
      lastChoice := "even";
      opponentHistory := map[];
      alternations := 0;
    }

    /**
     * `choose_parity`: the deterministic strategies return their constant,
     * "alternating" returns even, odd, even, ... from its first call on,
     * "adaptive" follows the opponent's history, and "random" or any other
     * name takes the coin.
     */
    method ChooseParity(opponentId: string, coin: bool) returns (choice: string)
      requires Valid()
      modifies this
      ensures Valid()
      ensures choice == "even" || choice == "odd"
      ensures strategy == "deterministic_even" ==> choice == "even"
      ensures strategy == "deterministic_odd" ==> choice == "odd"
      ensures strategy == "alternating" ==>
        choice == Alternation(old(alternations)) && alternations == old(alternations) + 1
      ensures strategy != "alternating" ==> lastChoice == old(lastChoice) && alternations == old(alternations)
      ensures strategy == "adaptive" ==> choice == AdaptiveChoice(HistoryOf(opponentHistory, opponentId), coin)
      ensures strategy !in {"deterministic_even", "deterministic_odd", "alternating", "adaptive"} ==>
        choice == CoinChoice(coin)
      ensures wins == old(wins) && draws == old(draws) && losses == old(losses) && points == old(points)
      ensures opponentHistory == old(opponentHistory)
      ensures (choice, Snap()) == Chosen(strategy, old(Snap()), opponentId, coin)
    {
      if strategy == "random" {
        choice := CoinChoice(coin);
      } else if strategy == "deterministic_even" {
        choice := "even";
      } else if strategy == "deterministic_odd" {
        choice := "odd";
      } else if strategy == "alternating" {
        choice := lastChoice;
        lastChoice := if choice == "even" then "odd" else "even";
        alternations := alternations + 1;
      } else if strategy == "adaptive" {
        choice := AdaptiveChoice(HistoryOf(opponentHistory, opponentId), coin);
      } else {
        choice := CoinChoice(coin);
      }
    }

    /**
     * `record_result`: WIN adds a win and 3 points, DRAW a draw and 1 point,
     * anything else a loss; the opponent's choice is appended to that
     * opponent's history only.
     */
    method RecordResult(result: string, opponentId: string, opponentChoice: string)
      requires Valid()
      modifies this
      ensures Valid()
      ensures result == "WIN" ==> wins == old(wins) + 1 && draws == old(draws) && losses == old(losses)
      ensures result == "DRAW" ==> draws == old(draws) + 1 && wins == old(wins) && losses == old(losses)
      ensures result != "WIN" && result != "DRAW" ==>
        losses == old(losses) + 1 && wins == old(wins) && draws == old(draws) && points == old(points)
      ensures opponentHistory ==
        old(opponentHistory)[opponentId := HistoryOf(old(opponentHistory), opponentId) + [opponentChoice]]
      ensures lastChoice == old(lastChoice) && alternations == old(alternations)
      ensures Snap() == Recorded(old(Snap()), result, opponentId, opponentChoice)
    {
      if result == "WIN" {
        wins := wins + 1;
        points := points + 3;
      } else if result == "DRAW" {
        draws := draws + 1;
        points := points + 1;
      } else {
        losses := losses + 1;
      }
      if opponentId !in opponentHistory {
        opponentHistory := opponentHistory[opponentId := []];
      }
      opponentHistory := opponentHistory[opponentId := opponentHistory[opponentId] + [opponentChoice]];
    }
  }

  /** Recording a result leaves every other opponent's history as it was. */
  lemma OtherHistoriesKept(before: map<string, seq<string>>, opponentId: string, choice: string, other: string)
    requires other != opponentId
    ensures HistoryOf(before[opponentId := HistoryOf(before, opponentId) + [choice]], other) == HistoryOf(before, other)
  {
  }

  /** Successive alternating choices differ, starting from "even". */
  lemma AlternationFlips(k: nat)
    ensures Alternation(0) == "even"
    ensures Alternation(k + 1) != Alternation(k)
    ensures Alternation(k + 2) == Alternation(k)
  {
  }
}

/**
 * The player template's parity strategies: two constant ones, one that
 * alternates after every game, one that mirrors an opponent's majority over
 * the last ten recorded choices, and the name lookup that builds one.
 * Each `random.choice(["even", "odd"])` is the boolean `coin`.
 */
module Strategies {
  import opened Wrappers
  import opened JsonValue
  import opened Parity

  /** `DeterministicEvenStrategy.choose` and `DeterministicOddStrategy.choose`: a constant. */
  function DeterministicChoose(even: bool): (c: string)
    ensures even <==> c == "even"
    ensures !even <==> c == "odd"
  {
    if even then "even" else "odd"
  }

  // ---------------------------------------------------------------- alternating

  /** The alternating flip: "even" becomes "odd" and anything else becomes "even". */
  function Flip(c: string): (f: string)
    ensures f == "even" || f == "odd"
    ensures c == "even" ==> f == "odd"
    ensures c == "odd" ==> f == "even"
  {
    if c == "even" then "odd" else "even"
  }

  /** The current choice of an alternating strategy begun with `start` after `k` updates. */
  function AfterUpdates(start: string, k: nat): string
  {
    if k == 0 then start else Flip(AfterUpdates(start, k - 1))
  }

  /** From "even", the choices run even, odd, even, ... by the parity of the game count. */
  lemma {:induction false} AlternatesFromEven(k: nat)
    ensures AfterUpdates("even", k) == (if k % 2 == 0 then "even" else "odd")
  {
    if k > 0 {
      AlternatesFromEven(k - 1);
    }
  }

  /** After at least one update, every choice is a parity and consecutive choices differ. */
  lemma AlternatesAfterFirstUpdate(start: string, k: nat)
    requires k >= 1
    ensures AfterUpdates(start, k) == "even" || AfterUpdates(start, k) == "odd"
    ensures AfterUpdates(start, k + 1) != AfterUpdates(start, k)
    ensures AfterUpdates(start, k + 2) == AfterUpdates(start, k)
  {
  }

  class AlternatingStrategy {
    const startWith: string
    var current: string
    var gameCount: nat

    /** The current choice is the start flipped once per game counted. */
    ghost predicate Valid()
      reads this
    {
      current == AfterUpdates(startWith, gameCount)
    }

    constructor(startWith: string)
      ensures Valid() && this.startWith == startWith && current == startWith && gameCount == 0
    {
      this.startWith := startWith;
      current := startWith;
      gameCount := 0;
    }

    /** `choose`: the current choice, whatever the match or opponent. */
    function Choose(): (c: string)
      reads this
      requires Valid()
      ensures c == AfterUpdates(startWith, gameCount)
    {
      current
    }

    /** `update`: count the game and flip the choice, whatever the result says. */
    method Update(result: map<string, Json>)
      requires Valid()
      modifies this
      ensures Valid() && gameCount == old(gameCount) + 1
      ensures current == Flip(old(current))
    {
      gameCount := gameCount + 1;
      current := if current == "even" then "odd" else "even";
    }
  }

  // ---------------------------------------------------------------- adaptive

  /** The opponent's choices kept per opponent: the last ten. */
  const Window: nat := 10

  /** `s[-10:]`: the last ten items, or all of them. */
  function LastWindow(s: seq<Json>): (t: seq<Json>)
    ensures |t| <= Window && |t| == if |s| <= Window then |s| else Window
    ensures t == s[|s| - |t|..]
  {
    if |s| > Window then s[|s| - Window..] else s
  }

  /**
   * `AdaptiveStrategy.choose` on the opponent's recorded choices: a coin
   * below three, then the strict majority of "even" against "odd", the coin
   * again on a tie.
   */
  function AdaptiveChoose(hist: seq<Json>, coin: bool): (c: string)
    ensures c == "even" || c == "odd"
    ensures |hist| < 3 ==> c == CoinChoice(coin)
  {
    if |hist| < 3 then CoinChoice(coin)
    else
      var evens := Count(hist, JStr("even"));
      var odds := Count(hist, JStr("odd"));
      if evens > odds then "even" else if odds > evens then "odd" else CoinChoice(coin)
  }

  /** With three or more records the majority is mirrored, and only a tie is left to the coin. */
  lemma AdaptiveMirrorsMajority(hist: seq<Json>, coin: bool)
    requires |hist| >= 3
    ensures Count(hist, JStr("even")) > Count(hist, JStr("odd")) ==> AdaptiveChoose(hist, coin) == "even"
    ensures Count(hist, JStr("odd")) > Count(hist, JStr("even")) ==> AdaptiveChoose(hist, coin) == "odd"
    ensures AdaptiveChoose(hist, true) != AdaptiveChoose(hist, false) <==>
      Count(hist, JStr("even")) == Count(hist, JStr("odd"))
  {
  }

  /** Against an opponent that always recorded the same parity (three times or more), adaptive copies it. */
  lemma AdaptiveCopiesConstantOpponent(hist: seq<Json>, coin: bool, x: string)
    requires x == "even" || x == "odd"
    requires |hist| >= 3 && forall i | 0 <= i < |hist| :: hist[i] == JStr(x)
    ensures AdaptiveChoose(hist, coin) == x
  {
    CountUniform(hist, JStr(x), JStr(if x == "even" then "odd" else "even"));
  }

  /** `self._opponent_history.get(opponent_id, [])`. */
  function HistoryFor(history: map<Json, seq<Json>>, opponentId: Json): seq<Json>
  {
    if opponentId in history then history[opponentId] else []
  }

  class AdaptiveStrategy {
    var opponentHistory: map<Json, seq<Json>>

    /** Every opponent's record holds at most ten choices, under a hashable key. */
    ghost predicate Valid()
      reads this
    {
      forall k | k in opponentHistory :: Hashable(k) && !k.JBool? && |opponentHistory[k]| <= Window
    }

    constructor()
      ensures Valid() && opponentHistory == map[]
    {
      opponentHistory := map[];
    }

    /** `choose`: mirror the recorded majority of this opponent's choices. */
    function Choose(opponentId: string, coin: bool): (c: string)
      reads this
      ensures c == AdaptiveChoose(HistoryFor(opponentHistory, JStr(opponentId)), coin)
      ensures c == "even" || c == "odd"
    {
      AdaptiveChoose(HistoryFor(opponentHistory, JStr(opponentId)), coin)
    }

    /**
     * `update`: when both `opponent_id` and `opponent_choice` are truthy the
     * choice is appended to that opponent's record, which is cut back to its
     * last ten; a list or dict id cannot be a key and raises TypeError.
     * Otherwise nothing changes.
     */
    method Update(result: map<string, Json>) returns (r: Result<(), string>)
      requires Valid()
      modifies this
      ensures Valid()
      ensures !(Truthy(Get(result, "opponent_id", JNull)) && Truthy(Get(result, "opponent_choice", JNull))) ==>
        r == Ok(()) && opponentHistory == old(opponentHistory)
      ensures Truthy(Get(result, "opponent_id", JNull)) && Truthy(Get(result, "opponent_choice", JNull)) ==>
        var id := result["opponent_id"];
        (!Hashable(id) ==> r == Err("TypeError") && opponentHistory == old(opponentHistory))
        && (Hashable(id) ==>
              r == Ok(()) && opponentHistory == old(opponentHistory)[HashKey(id) :=
                LastWindow(HistoryFor(old(opponentHistory), HashKey(id)) + [result["opponent_choice"]])])
    {
      var id := Get(result, "opponent_id", JNull);
      var choice := Get(result, "opponent_choice", JNull);
      if !(Truthy(id) && Truthy(choice)) {
        return Ok(());
      }
      if !Hashable(id) {
        return Err("TypeError");
      }
      var key := HashKey(id);
      opponentHistory := opponentHistory[key := HistoryFor(opponentHistory, key) + [choice]];
      if |opponentHistory[key]| > Window {
        opponentHistory := opponentHistory[key := opponentHistory[key][|opponentHistory[key]| - Window..]];
      }
      r := Ok(());
    }
  }

  /** Recording one opponent's choice leaves every other opponent's record as it was. */
  lemma OtherRecordsKept(before: map<Json, seq<Json>>, key: Json, choice: Json, other: Json)
    requires other != key
    ensures HistoryFor(before[key := LastWindow(HistoryFor(before, key) + [choice])], other) == HistoryFor(before, other)
  {
  }

  /** The window keeps the newest choice last and drops only the oldest. */
  lemma WindowKeepsNewest(hist: seq<Json>, choice: Json)
    requires |hist| <= Window
    ensures var t := LastWindow(hist + [choice]);
      t[|t| - 1] == choice && (|hist| < Window ==> t == hist + [choice])
      && (|hist| == Window ==> t == hist[1..] + [choice])
  {
  }

  // ---------------------------------------------------------------- lookup

  datatype StrategyKind = Random | DeterministicEven | DeterministicOdd | Alternating | Adaptive | Llm

  /**
   * Each strategy's `name` property: the class name, or `llm-` and the model
   * for the LLM strategy (`get_strategy` builds it with "gpt-4o-mini"); never
   * one of the names `get_strategy` looks up.
   */
  function KindName(k: StrategyKind, llmModel: string): (n: string)
    ensures n !in Registry()
  {
    match k
    case Random => "RandomStrategy"
    case DeterministicEven => "DeterministicEven"
    case DeterministicOdd => "DeterministicOdd"
    case Alternating => "AlternatingStrategy"
    case Adaptive => "AdaptiveStrategy"
    case Llm =>
      var n := "llm-" + llmModel;
      assert n[0] == 'l' && n[3] == '-' && |n| > 3;
      n
  }

  /** The six registered names. */
  function Registry(): map<string, StrategyKind>
  {
    map["random" := Random, "deterministic_even" := DeterministicEven, "deterministic_odd" := DeterministicOdd,
        "alternating" := Alternating, "adaptive" := Adaptive, "llm" := Llm]
  }

  /** `strategies.get(name, RandomStrategy)`: an unknown name falls back to the random strategy. */
  function KindFor(name: string): (k: StrategyKind)
    ensures name in Registry() ==> k == Registry()[name]
    ensures name !in Registry() ==> k == Random
  {
    if name in Registry() then Registry()[name] else Random
  }

  /** Different strategies report different names. */
  lemma KindNamesDistinct(a: StrategyKind, b: StrategyKind, llmModel: string)
    ensures KindName(a, llmModel) == KindName(b, llmModel) <==> a == b
  {
    if a != b && (a == Llm || b == Llm) {
      var (n, m) := (KindName(a, llmModel), KindName(b, llmModel));
      assert n[0] != m[0];
    }
  }

  /** A strategy's own name handed back to `get_strategy` gives the random strategy. */
  lemma NameGivesRandom(k: StrategyKind, llmModel: string)
    ensures KindFor(KindName(k, llmModel)) == Random
  {
  }

  /** Every kind is reachable by exactly one registered name, and unknown names give Random. */
  lemma KindForNames(name: string)
    ensures KindFor("random") == Random && KindFor("deterministic_even") == DeterministicEven
    ensures KindFor("deterministic_odd") == DeterministicOdd && KindFor("alternating") == Alternating
    ensures KindFor("adaptive") == Adaptive && KindFor("llm") == Llm
    ensures name !in {"random", "deterministic_even", "deterministic_odd", "alternating", "adaptive", "llm"} ==>
      KindFor(name) == Random
  {
  }

  /** A built strategy: the two stateful ones carry their own new object. */
  datatype Strategy =
    | RandomStrategy
    | EvenStrategy
    | OddStrategy
    | AlternatingOf(alternating: AlternatingStrategy)
    | AdaptiveOf(adaptive: AdaptiveStrategy)
    | LlmStrategy

  /** `get_strategy`: a new instance of the looked-up class; the alternating one starts with "even". */
  method GetStrategy(name: string) returns (s: Strategy)
    ensures KindFor(name) == Random <==> s == RandomStrategy
    ensures KindFor(name) == DeterministicEven <==> s == EvenStrategy
    ensures KindFor(name) == DeterministicOdd <==> s == OddStrategy
    ensures KindFor(name) == Llm <==> s == LlmStrategy
    ensures KindFor(name) == Alternating <==> s.AlternatingOf?
    ensures s.AlternatingOf? ==>
      fresh(s.alternating) && s.alternating.Valid() && s.alternating.startWith == "even" && s.alternating.gameCount == 0
    ensures KindFor(name) == Adaptive <==> s.AdaptiveOf?
    ensures s.AdaptiveOf? ==> fresh(s.adaptive) && s.adaptive.Valid() && s.adaptive.opponentHistory == map[]
  {
    match KindFor(name) {
      case Random => s := RandomStrategy;
      case DeterministicEven => s := EvenStrategy;
      case DeterministicOdd => s := OddStrategy;
      case Alternating =>
        var a := new AlternatingStrategy("even");
        s := AlternatingOf(a);
      case Adaptive =>
        var a := new AdaptiveStrategy();
        s := AdaptiveOf(a);
      case Llm => s := LlmStrategy;
    }
  }
}

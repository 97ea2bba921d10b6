/** The two-valued parity choice ("even" / "odd") shared by every agent. */
module Parity {
  import opened Wrappers

  datatype Parity = Even | Odd

  function Name(p: Parity): string
  {
    match p
    case Even => "even"
    case Odd => "odd"
  }

  /** The enum constructor `ParityChoice(v)`: only the two exact values name a member. */
  function FromName(s: string): Option<Parity>
  {
    if s == "even" then Some(Even) else if s == "odd" then Some(Odd) else None
  }

  lemma NameRoundTrip(p: Parity, s: string)
    ensures FromName(Name(p)) == Some(p)
    ensures FromName(s).Some? ==> Name(FromName(s).value) == s
    ensures FromName(s).Some? <==> (s == "even" || s == "odd")
  {
  }

  /** `random.choice(["even", "odd"])`, with the draw given as `coin`. */
  function CoinChoice(coin: bool): (c: string)
    ensures c == "even" || c == "odd"
  {
    if coin then "even" else "odd"
  }

  /** `list.count(x)`: how often `x` occurs in a history of choices. */
  function Count<T(==)>(s: seq<T>, x: T): (n: nat)
    ensures n <= |s|
  {
    if s == [] then 0 else (if s[0] == x then 1 else 0) + Count(s[1..], x)
  }

  /** Every element is x: it is counted |s| times and any other value never. */
  lemma {:induction false} CountUniform<T>(s: seq<T>, x: T, y: T)
    requires forall i | 0 <= i < |s| :: s[i] == x
    requires y != x
    ensures Count(s, x) == |s| && Count(s, y) == 0
  {
    if s != [] {
      CountUniform(s[1..], x, y);
    }
  }

  /** The parity of a number: Python's `n % 2` floors, which for divisor 2 agrees with Dafny's `%`. */
  function OfNumber(n: int): (p: Parity)
    ensures p == Even <==> n % 2 == 0
    ensures p == Odd <==> n % 2 == 1
  {
    if n % 2 == 0 then Even else Odd
  }
}

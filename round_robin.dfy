/**
 * The greedy round-robin packing both league schedulers use: all pairs of
 * players in `combinations` order, then rounds filled first-fit, each round
 * scanning the remaining pairs in order and taking every pair whose two
 * players are still free in that round.
 */
module RoundRobin {
  import opened Ranking

  /** One pairing, in the order `combinations` yields it. */
  datatype Pairing = Pairing(a: string, b: string)

  /** `(x, y)` for every `y` of `rest`, in order. */
  function PairsWith(x: string, rest: seq<string>): (r: seq<Pairing>)
    ensures |r| == |rest|
    ensures forall k | 0 <= k < |rest| :: r[k] == Pairing(x, rest[k])
  {
    if rest == [] then [] else [Pairing(x, rest[0])] + PairsWith(x, rest[1..])
  }

  /** `combinations(ids, 2)`. */
  function Combinations(ids: seq<string>): (r: seq<Pairing>)
  {
    if ids == [] then [] else PairsWith(ids[0], ids[1..]) + Combinations(ids[1..])
  }

  /** There are n(n-1)/2 pairs of n players. */
  lemma {:induction false} CombinationsLength(ids: seq<string>)
    ensures 2 * |Combinations(ids)| == |ids| * (|ids| - 1)
  {
    if ids != [] {
      CombinationsLength(ids[1..]);
    }
  }

  /** The pairs are exactly the `(ids[i], ids[j])` with `i < j`. */
  lemma {:induction false} CombinationsMembers(ids: seq<string>, p: Pairing)
    ensures p in Combinations(ids) <==> exists i, j :: 0 <= i < j < |ids| && p == Pairing(ids[i], ids[j])
  {
    if ids != [] {
      CombinationsMembers(ids[1..], p);
      if p in Combinations(ids) {
        if p in PairsWith(ids[0], ids[1..]) {
          var k :| 0 <= k < |ids| - 1 && PairsWith(ids[0], ids[1..])[k] == p;
          assert p == Pairing(ids[0], ids[k + 1]);
        } else {
          assert p in Combinations(ids[1..]);
          var i, j :| 0 <= i < j < |ids| - 1 && p == Pairing(ids[1..][i], ids[1..][j]);
          assert p == Pairing(ids[i + 1], ids[j + 1]);
        }
      }
      if exists i, j :: 0 <= i < j < |ids| && p == Pairing(ids[i], ids[j]) {
        var i, j :| 0 <= i < j < |ids| && p == Pairing(ids[i], ids[j]);
        if i == 0 {
          assert PairsWith(ids[0], ids[1..])[j - 1] == p;
        } else {
          assert p == Pairing(ids[1..][i - 1], ids[1..][j - 1]);
        }
      }
    }
  }

  lemma DistinctTail(ids: seq<string>)
    requires Distinct(ids) && ids != []
    ensures Distinct(ids[1..])
    ensures ids[0] !in ids[1..]
  {
    forall i, j | 0 <= i < j < |ids| - 1 ensures ids[1..][i] != ids[1..][j] { assert ids[1..][i] == ids[i + 1]; }
  }

  /** With distinct players every pair appears at most once... */
  lemma {:induction false} CombinationsOnce(ids: seq<string>, p: Pairing)
    requires Distinct(ids)
    ensures multiset(Combinations(ids))[p] <= 1
  {
    if ids != [] {
      var head := PairsWith(ids[0], ids[1..]);
      var tail := Combinations(ids[1..]);
      DistinctTail(ids);
      CombinationsOnce(ids[1..], p);
      HeadPairsOnce(ids, p.a, p.b);
      if p in head {
        CombinationsMembers(ids[1..], p);
        assert p !in tail;
        assert multiset(tail)[p] == 0;
      } else {
        assert multiset(head)[p] == 0;
      }
      assert Combinations(ids) == head + tail;
      assert multiset(Combinations(ids))[p] == multiset(head)[p] + multiset(tail)[p];
    }
  }

  /** ...and never also reversed. */
  lemma NeverReversed(ids: seq<string>, x: string, y: string)
    requires Distinct(ids)
    ensures Pairing(x, y) in Combinations(ids) ==> Pairing(y, x) !in Combinations(ids)
  {
    CombinationsMembers(ids, Pairing(x, y));
    CombinationsMembers(ids, Pairing(y, x));
  }

  lemma HeadPairsOnce(ids: seq<string>, x: string, y: string)
    requires Distinct(ids) && ids != []
    ensures multiset(PairsWith(ids[0], ids[1..]))[Pairing(x, y)] <= 1
    ensures Pairing(x, y) in PairsWith(ids[0], ids[1..]) ==> x == ids[0] && y != ids[0]
  {
    var rest := ids[1..];
    assert forall k | 0 <= k < |rest| :: rest[k] != ids[0] by {
      forall k | 0 <= k < |rest| ensures rest[k] != ids[0] { assert ids[k + 1] == rest[k]; }
    }
    assert Distinct(rest) by {
      forall i, j | 0 <= i < j < |rest| ensures rest[i] != rest[j] { assert ids[i + 1] == rest[i]; }
    }
    DistinctPairsWith(ids[0], rest, Pairing(x, y));
  }

  lemma {:induction false} DistinctPairsWith(x0: string, rest: seq<string>, p: Pairing)
    requires Distinct(rest)
    ensures multiset(PairsWith(x0, rest))[p] <= 1
  {
    if rest != [] {
      assert Distinct(rest[1..]) by {
        forall i, j | 0 <= i < j < |rest| - 1 ensures rest[1..][i] != rest[1..][j] { }
      }
      DistinctPairsWith(x0, rest[1..], p);
      assert Pairing(x0, rest[0]) !in PairsWith(x0, rest[1..]);
      assert PairsWith(x0, rest) == [Pairing(x0, rest[0])] + PairsWith(x0, rest[1..]);
    }
  }

  /** The set of players a round already holds. */
  function Players(round: seq<Pairing>): (r: set<string>)
    ensures forall p | p in round :: p.a in r && p.b in r
  {
    if round == [] then {} else Players(round[..|round| - 1]) + {round[|round| - 1].a, round[|round| - 1].b}
  }

  predicate Free(p: Pairing, used: set<string>)
  {
    p.a !in used && p.b !in used
  }

  /** One pass over the remaining pairs: those taken into the round and those kept for later. */
  datatype Scanned = Scanned(taken: seq<Pairing>, kept: seq<Pairing>)

  /** The pass over a prefix of the remaining pairs, scanning left to right. */
  function Scan(s: seq<Pairing>): (r: Scanned)
    ensures |r.taken| + |r.kept| == |s|
  {
    if s == [] then Scanned([], [])
    else
      var before := Scan(s[..|s| - 1]);
      var p := s[|s| - 1];
      if Free(p, Players(before.taken)) then Scanned(before.taken + [p], before.kept)
      else Scanned(before.taken, before.kept + [p])
  }

  /** No player in two matches of one round. */
  predicate Disjoint(round: seq<Pairing>)
  {
    forall i, j | 0 <= i < j < |round| ::
      round[i].a != round[j].a && round[i].a != round[j].b && round[i].b != round[j].a && round[i].b != round[j].b
  }

  lemma {:induction false} PlayersMembers(round: seq<Pairing>, x: string)
    ensures x in Players(round) <==> exists k :: 0 <= k < |round| && (round[k].a == x || round[k].b == x)
  {
    if round != [] {
      PlayersMembers(round[..|round| - 1], x);
    }
  }

  /** The taken pairs of a pass are disjoint, and the players they hold are the `used` set. */
  lemma {:induction false} ScanDisjoint(s: seq<Pairing>)
    ensures Disjoint(Scan(s).taken)
  {
    if s != [] {
      var init := s[..|s| - 1];
      ScanDisjoint(init);
      var before := Scan(init);
      var p := s[|s| - 1];
      if Free(p, Players(before.taken)) {
        var t := before.taken + [p];
        forall k | 0 <= k < |before.taken|
          ensures t[k].a != p.a && t[k].a != p.b && t[k].b != p.a && t[k].b != p.b
        {
          assert t[k] == before.taken[k];
        }
      }
    }
  }

  /** Every kept pair clashes with a taken one. */
  lemma {:induction false} ScanKeptClash(s: seq<Pairing>)
    ensures forall q | q in Scan(s).kept :: !Free(q, Players(Scan(s).taken))
  {
    if s != [] {
      var init := s[..|s| - 1];
      ScanKeptClash(init);
      var before := Scan(init);
      var p := s[|s| - 1];
      if Free(p, Players(before.taken)) {
        assert Players(before.taken + [p]) == Players(before.taken) + {p.a, p.b} by {
          assert (before.taken + [p])[..|before.taken|] == before.taken;
        }
      }
    }
  }

  /** A pass loses and duplicates nothing. */
  lemma {:induction false} ScanMultiset(s: seq<Pairing>)
    ensures multiset(Scan(s).taken) + multiset(Scan(s).kept) == multiset(s)
  {
    if s != [] {
      var init := s[..|s| - 1];
      ScanMultiset(init);
      assert s == init + [s[|s| - 1]];
    }
  }

  /** The first remaining pair always fits the empty round. */
  lemma {:induction false} ScanTakesFirst(s: seq<Pairing>)
    requires s != []
    ensures Scan(s).taken != [] && Scan(s).taken[0] == s[0]
  {
    var init := s[..|s| - 1];
    if init != [] {
      ScanTakesFirst(init);
      assert init[0] == s[0];
    }
  }

  /** The rounds, packed until no pair remains. */
  function Pack(remaining: seq<Pairing>): (rounds: seq<seq<Pairing>>)
    decreases |remaining|
  {
    if remaining == [] then []
    else
      var sc := Scan(remaining);
      ScanTakesFirst(remaining);
      [sc.taken] + Pack(sc.kept)
  }

  function Flatten(rounds: seq<seq<Pairing>>): seq<Pairing>
  {
    if rounds == [] then [] else rounds[0] + Flatten(rounds[1..])
  }

  /** Every round of the packing is non-empty and disjoint, and together they hold each pair once. */
  lemma {:induction false} PackFacts(remaining: seq<Pairing>)
    ensures forall r | r in Pack(remaining) :: r != [] && Disjoint(r)
    ensures multiset(Flatten(Pack(remaining))) == multiset(remaining)
    decreases |remaining|
  {
    if remaining != [] {
      ScanTakesFirst(remaining);
      ScanDisjoint(remaining);
      ScanMultiset(remaining);
      var sc := Scan(remaining);
      PackFacts(sc.kept);
      assert Pack(remaining)[1..] == Pack(sc.kept);
    }
  }

  /**
   * Over the whole packing of `combinations(ids, 2)` with distinct players,
   * every unordered pair meets exactly once, in `combinations` orientation,
   * and nothing else is scheduled.
   */
  lemma EveryPairOnce(ids: seq<string>, i: nat, j: nat)
    requires Distinct(ids) && i < j < |ids|
    ensures var m := multiset(Flatten(Pack(Combinations(ids))));
      m[Pairing(ids[i], ids[j])] == 1 && m[Pairing(ids[j], ids[i])] == 0
  {
    var all := Combinations(ids);
    PackFacts(all);
    CombinationsMembers(ids, Pairing(ids[i], ids[j]));
    CombinationsOnce(ids, Pairing(ids[i], ids[j]));
    NeverReversed(ids, ids[i], ids[j]);
  }

  /** A pair of any packed round is one of the flattened pairs. */
  lemma {:induction false} InFlatten(rounds: seq<seq<Pairing>>, i: nat, k: nat)
    requires i < |rounds| && k < |rounds[i]|
    ensures rounds[i][k] in Flatten(rounds)
  {
    if i > 0 {
      InFlatten(rounds[1..], i - 1, k);
      assert rounds[1..][i - 1] == rounds[i];
    }
  }

  lemma OnlyPairsOfPlayers(ids: seq<string>, p: Pairing)
    requires p in Flatten(Pack(Combinations(ids)))
    ensures exists i, j :: 0 <= i < j < |ids| && p == Pairing(ids[i], ids[j])
  {
    PackFacts(Combinations(ids));
    assert p in multiset(Flatten(Pack(Combinations(ids))));
    CombinationsMembers(ids, p);
  }

  lemma ScanSnoc(s: seq<Pairing>, p: Pairing)
    ensures Scan(s + [p]) == if Free(p, Players(Scan(s).taken)) then Scanned(Scan(s).taken + [p], Scan(s).kept)
                             else Scanned(Scan(s).taken, Scan(s).kept + [p])
  {
    assert (s + [p])[..|s|] == s;
  }

  lemma PlayersSnoc(round: seq<Pairing>, p: Pairing)
    ensures Players(round + [p]) == Players(round) + {p.a, p.b}
  {
    assert (round + [p])[..|round|] == round;
  }

  /** Four players: three rounds of two matches. */
  lemma FourPlayers(a: string, b: string, c: string, d: string)
    requires Distinct([a, b, c, d])
    ensures Pack(Combinations([a, b, c, d]))
            == [[Pairing(a, b), Pairing(c, d)], [Pairing(a, c), Pairing(b, d)], [Pairing(a, d), Pairing(b, c)]]
  {
    assert a != b && a != c && a != d && b != c && b != d && c != d by {
      assert [a, b, c, d][0] != [a, b, c, d][1] && [a, b, c, d][0] != [a, b, c, d][2];
      assert [a, b, c, d][0] != [a, b, c, d][3] && [a, b, c, d][1] != [a, b, c, d][2];
      assert [a, b, c, d][1] != [a, b, c, d][3] && [a, b, c, d][2] != [a, b, c, d][3];
    }
    var ab, ac, ad, bc, bd, cd := Pairing(a, b), Pairing(a, c), Pairing(a, d), Pairing(b, c), Pairing(b, d), Pairing(c, d);
    FourPairs(a, b, c, d);
    FourRoundOne(a, b, c, d);
    FourRoundTwo(a, b, c, d);
    FourRoundThree(a, b, c, d);
    PackStep([ad, bc], [ad, bc], []);
    PackStep([ac, ad, bc, bd], [ac, bd], [ad, bc]);
    PackStep([ab, ac, ad, bc, bd, cd], [ab, cd], [ac, ad, bc, bd]);
  }

  /** A packing whose first pass is known. */
  lemma PackStep(remaining: seq<Pairing>, taken: seq<Pairing>, kept: seq<Pairing>)
    requires remaining != [] && Scan(remaining) == Scanned(taken, kept)
    ensures Pack(remaining) == [taken] + Pack(kept)
  {
  }

  lemma FourPairs(a: string, b: string, c: string, d: string)
    ensures Combinations([a, b, c, d])
            == [Pairing(a, b), Pairing(a, c), Pairing(a, d), Pairing(b, c), Pairing(b, d), Pairing(c, d)]
  {
    assert [a, b, c, d][1..] == [b, c, d] && [b, c, d][1..] == [c, d] && [c, d][1..] == [d];
    assert Combinations([d]) == [];
    assert Combinations([c, d]) == [Pairing(c, d)];
    assert Combinations([b, c, d]) == [Pairing(b, c), Pairing(b, d), Pairing(c, d)];
  }

  /** One step of a pass whose state so far is known. */
  lemma ScanStep(s: seq<Pairing>, p: Pairing, taken: seq<Pairing>, kept: seq<Pairing>, used: set<string>)
    requires Scan(s) == Scanned(taken, kept) && Players(taken) == used
    ensures Free(p, used) ==> Scan(s + [p]) == Scanned(taken + [p], kept)
    ensures !Free(p, used) ==> Scan(s + [p]) == Scanned(taken, kept + [p])
  {
    ScanSnoc(s, p);
  }

  lemma PlayersOne(p: Pairing)
    ensures Players([p]) == {p.a, p.b}
  {
    PlayersSnoc([], p);
    assert [] + [p] == [p];
  }

  lemma FourRoundOne(a: string, b: string, c: string, d: string)
    requires a != b && a != c && a != d && b != c && b != d && c != d
    ensures Scan([Pairing(a, b), Pairing(a, c), Pairing(a, d), Pairing(b, c), Pairing(b, d), Pairing(c, d)])
            == Scanned([Pairing(a, b), Pairing(c, d)], [Pairing(a, c), Pairing(a, d), Pairing(b, c), Pairing(b, d)])
  {
    var ab, ac, ad, bc, bd, cd := Pairing(a, b), Pairing(a, c), Pairing(a, d), Pairing(b, c), Pairing(b, d), Pairing(c, d);
    FourRoundOneFive(a, b, c, d);
    PlayersOne(ab);
    ScanStep([ab, ac, ad, bc, bd], cd, [ab], [ac, ad, bc, bd], {a, b});
    assert [ab, ac, ad, bc, bd] + [cd] == [ab, ac, ad, bc, bd, cd];
    assert [ab] + [cd] == [ab, cd];
  }

  lemma FourRoundOneFive(a: string, b: string, c: string, d: string)
    requires a != b && a != c && a != d && b != c && b != d && c != d
    ensures Scan([Pairing(a, b), Pairing(a, c), Pairing(a, d), Pairing(b, c), Pairing(b, d)])
            == Scanned([Pairing(a, b)], [Pairing(a, c), Pairing(a, d), Pairing(b, c), Pairing(b, d)])
  {
    var ab, ac, ad, bc, bd := Pairing(a, b), Pairing(a, c), Pairing(a, d), Pairing(b, c), Pairing(b, d);
    FourRoundOnePrefix(a, b, c, d);
    PlayersOne(ab);
    ScanStep([ab, ac, ad, bc], bd, [ab], [ac, ad, bc], {a, b});
    assert [ab, ac, ad, bc] + [bd] == [ab, ac, ad, bc, bd];
    assert [ac, ad, bc] + [bd] == [ac, ad, bc, bd];
  }

  lemma FourRoundOnePrefix(a: string, b: string, c: string, d: string)
    requires a != b && a != c && a != d && b != c && b != d && c != d
    ensures Scan([Pairing(a, b), Pairing(a, c), Pairing(a, d), Pairing(b, c)])
            == Scanned([Pairing(a, b)], [Pairing(a, c), Pairing(a, d), Pairing(b, c)])
  {
    var ab, ac, ad, bc := Pairing(a, b), Pairing(a, c), Pairing(a, d), Pairing(b, c);
    FourRoundOneTwo(a, b, c, d);
    PlayersOne(ab);
    ScanStep([ab, ac], ad, [ab], [ac], {a, b});
    assert [ab, ac] + [ad] == [ab, ac, ad];
    ScanStep([ab, ac, ad], bc, [ab], [ac, ad], {a, b});
    assert [ab, ac, ad] + [bc] == [ab, ac, ad, bc];
    assert [ac] + [ad] == [ac, ad];
    assert [ac, ad] + [bc] == [ac, ad, bc];
  }

  lemma FourRoundOneTwo(a: string, b: string, c: string, d: string)
    requires a != b && a != c && a != d && b != c && b != d && c != d
    ensures Scan([Pairing(a, b), Pairing(a, c)]) == Scanned([Pairing(a, b)], [Pairing(a, c)])
  {
    var ab, ac := Pairing(a, b), Pairing(a, c);
    ScanStep([], ab, [], [], {});
    assert [] + [ab] == [ab];
    PlayersOne(ab);
    ScanStep([ab], ac, [ab], [], {a, b});
    assert [] + [ac] == [ac];
  }

  lemma FourRoundTwo(a: string, b: string, c: string, d: string)
    requires a != b && a != c && a != d && b != c && b != d && c != d
    ensures Scan([Pairing(a, c), Pairing(a, d), Pairing(b, c), Pairing(b, d)])
            == Scanned([Pairing(a, c), Pairing(b, d)], [Pairing(a, d), Pairing(b, c)])
  {
    var ac, ad, bc, bd := Pairing(a, c), Pairing(a, d), Pairing(b, c), Pairing(b, d);
    FourRoundTwoPrefix(a, b, c, d);
    PlayersOne(ac);
    ScanStep([ac, ad, bc], bd, [ac], [ad, bc], {a, c});
    assert [ac, ad, bc] + [bd] == [ac, ad, bc, bd];
    assert [ac] + [bd] == [ac, bd];
  }

  lemma FourRoundTwoPrefix(a: string, b: string, c: string, d: string)
    requires a != b && a != c && a != d && b != c && b != d && c != d
    ensures Scan([Pairing(a, c), Pairing(a, d), Pairing(b, c)]) == Scanned([Pairing(a, c)], [Pairing(a, d), Pairing(b, c)])
  {
    var ac, ad, bc := Pairing(a, c), Pairing(a, d), Pairing(b, c);
    ScanStep([], ac, [], [], {});
    assert [] + [ac] == [ac];
    PlayersOne(ac);
    ScanStep([ac], ad, [ac], [], {a, c});
    assert [] + [ad] == [ad];
    ScanStep([ac, ad], bc, [ac], [ad], {a, c});
    assert [ac, ad] + [bc] == [ac, ad, bc];
    assert [ad] + [bc] == [ad, bc];
  }

  lemma FourRoundThree(a: string, b: string, c: string, d: string)
    requires a != b && a != c && a != d && b != c && b != d && c != d
    ensures Scan([Pairing(a, d), Pairing(b, c)]) == Scanned([Pairing(a, d), Pairing(b, c)], [])
  {
    var ad, bc := Pairing(a, d), Pairing(b, c);
    ScanStep([], ad, [], [], {});
    assert [] + [ad] == [ad];
    PlayersOne(ad);
    ScanStep([ad], bc, [ad], [], {a, d});
    assert [ad] + [bc] == [ad, bc];
  }
}

/**
 * The league table order: Python's stable `sorted(..., key=lambda x:
 * (-points, -wins))`. Entries with more points come first, then more wins;
 * entries equal on both keep the order they had.
 */
module Ranking {
  /** No id is listed twice: the shape of a dictionary's key order. */
  predicate Distinct(ids: seq<string>)
  {
    forall i, j | 0 <= i < j < |ids| :: ids[i] != ids[j]
  }

  /**
   * A dictionary's values in insertion order (`d.values()`), the keys listed
   * in `order`: what every table hands to `sorted`.
   */
  function InOrder<T>(order: seq<string>, table: map<string, T>): (vs: seq<T>)
    requires forall id | id in order :: id in table
    ensures |vs| == |order| && forall i | 0 <= i < |order| :: vs[i] == table[order[i]]
  {
    if order == [] then [] else [table[order[0]]] + InOrder(order[1..], table)
  }

  /** The sort key of an entry: its points and its wins. */
  datatype Key = Key(points: int, wins: int)

  /** `x` sorts strictly before `y`. */
  predicate Ahead(x: Key, y: Key)
  {
    x.points > y.points || (x.points == y.points && x.wins > y.wins)
  }

  /** Place `x` after every entry it is not strictly ahead of. */
  function Insert<T>(x: T, sorted: seq<T>, key: T -> Key): (r: seq<T>)
    ensures |r| == |sorted| + 1
    ensures multiset(r) == multiset(sorted) + multiset{x}
  {
    if sorted == [] then [x]
    else if Ahead(key(x), key(sorted[0])) then [x] + sorted
    else
      assert sorted == [sorted[0]] + sorted[1..];
      [sorted[0]] + Insert(x, sorted[1..], key)
  }

  /** Insertion sort, feeding the entries in their original order. */
  function Sort<T>(s: seq<T>, key: T -> Key): (r: seq<T>)
    ensures |r| == |s|
    ensures multiset(r) == multiset(s)
  {
    if s == [] then []
    else
      assert s == s[..|s| - 1] + [s[|s| - 1]];
      Insert(s[|s| - 1], Sort(s[..|s| - 1], key), key)
  }

  /** No entry is strictly ahead of one listed before it. */
  predicate Ranked<T>(s: seq<T>, key: T -> Key)
  {
    forall i, j | 0 <= i < j < |s| :: !Ahead(key(s[j]), key(s[i]))
  }

  /** The entries that share key `k`, in their order. */
  function WithKey<T>(s: seq<T>, key: T -> Key, k: Key): (r: seq<T>)
  {
    if s == [] then []
    else Keep(s[0], key, k) + WithKey(s[1..], key, k)
  }

  /** `[x]` when `x` carries key `k`, else nothing. */
  function Keep<T>(x: T, key: T -> Key, k: Key): (r: seq<T>)
    ensures |r| <= 1
  {
    if key(x) == k then [x] else []
  }

  lemma {:induction false} InsertRanked<T>(x: T, sorted: seq<T>, key: T -> Key)
    requires Ranked(sorted, key)
    ensures Ranked(Insert(x, sorted, key), key)
  {
    if sorted != [] && !Ahead(key(x), key(sorted[0])) {
      var tail := sorted[1..];
      RankedTail(sorted, key);
      InsertRanked(x, tail, key);
      var rest := Insert(x, tail, key);
      forall i | 0 <= i < |rest| ensures !Ahead(key(rest[i]), key(sorted[0])) {
        assert rest[i] in multiset(rest);
        if rest[i] != x {
          assert rest[i] in multiset(tail);
          var j :| 0 <= j < |tail| && tail[j] == rest[i];
          assert sorted[j + 1] == rest[i];
        }
      }
      RankedCons(sorted[0], rest, key);
    }
  }

  lemma RankedCons<T>(h: T, rest: seq<T>, key: T -> Key)
    requires Ranked(rest, key)
    requires forall i | 0 <= i < |rest| :: !Ahead(key(rest[i]), key(h))
    ensures Ranked([h] + rest, key)
  {
    var s := [h] + rest;
    forall i, j | 0 <= i < j < |s| ensures !Ahead(key(s[j]), key(s[i])) {
      assert s[j] == rest[j - 1];
      if i > 0 {
        assert s[i] == rest[i - 1];
      }
    }
  }

  /** The sort's output is ordered by (points desc, wins desc). */
  lemma {:induction false} SortRanked<T>(s: seq<T>, key: T -> Key)
    ensures Ranked(Sort(s, key), key)
  {
    if s != [] {
      SortRanked(s[..|s| - 1], key);
      InsertRanked(s[|s| - 1], Sort(s[..|s| - 1], key), key);
    }
  }

  lemma {:induction false} WithKeyAppend<T>(a: seq<T>, b: seq<T>, key: T -> Key, k: Key)
    ensures WithKey(a + b, key, k) == WithKey(a, key, k) + WithKey(b, key, k)
  {
    if a == [] {
      assert a + b == b;
    } else {
      var ab := a + b;
      assert ab[0] == a[0] && ab[1..] == a[1..] + b;
      WithKeyAppend(a[1..], b, key, k);
      calc {
        WithKey(ab, key, k);
        Keep(a[0], key, k) + WithKey(a[1..] + b, key, k);
        Keep(a[0], key, k) + (WithKey(a[1..], key, k) + WithKey(b, key, k));
        (Keep(a[0], key, k) + WithKey(a[1..], key, k)) + WithKey(b, key, k);
      }
    }
  }

  lemma WithKeySingle<T>(x: T, key: T -> Key, k: Key)
    ensures WithKey([x], key, k) == Keep(x, key, k)
  {
    assert [x][1..] == [];
  }

  /** Inserting `x` after its equals adds it at the end of its key class. */
  lemma {:induction false} InsertStable<T>(x: T, sorted: seq<T>, key: T -> Key, k: Key)
    requires Ranked(sorted, key)
    ensures WithKey(Insert(x, sorted, key), key, k) == WithKey(sorted, key, k) + Keep(x, key, k)
  {
    if sorted == [] {
      WithKeySingle(x, key, k);
    } else if Ahead(key(x), key(sorted[0])) {
      var r := [x] + sorted;
      assert r[0] == x && r[1..] == sorted;
      if key(x) == k {
        WithKeyBehind(sorted, key, k);
      }
    } else {
      var tail := sorted[1..];
      RankedTail(sorted, key);
      InsertStable(x, tail, key, k);
      var r := [sorted[0]] + Insert(x, tail, key);
      assert r[0] == sorted[0] && r[1..] == Insert(x, tail, key);
    }
  }

  lemma RankedTail<T>(s: seq<T>, key: T -> Key)
    requires Ranked(s, key) && s != []
    ensures Ranked(s[1..], key)
  {
    var tail := s[1..];
    forall i, j | 0 <= i < j < |tail| ensures !Ahead(key(tail[j]), key(tail[i])) {
      assert tail[j] == s[j + 1] && tail[i] == s[i + 1];
    }
  }

  /** A ranked list holds no entry with a key strictly ahead of its head's. */
  lemma WithKeyBehind<T>(sorted: seq<T>, key: T -> Key, k: Key)
    requires Ranked(sorted, key) && sorted != [] && Ahead(k, key(sorted[0]))
    ensures WithKey(sorted, key, k) == []
  {
    forall i | 0 <= i < |sorted| ensures key(sorted[i]) != k {
      if i > 0 {
        assert !Ahead(key(sorted[i]), key(sorted[0]));
      }
    }
    WithKeyNone(sorted, key, k);
  }

  lemma {:induction false} WithKeyNone<T>(s: seq<T>, key: T -> Key, k: Key)
    requires forall i | 0 <= i < |s| :: key(s[i]) != k
    ensures WithKey(s, key, k) == []
  {
    if s != [] {
      assert forall i | 0 <= i < |s[1..]| :: s[1..][i] == s[i + 1];
      WithKeyNone(s[1..], key, k);
    }
  }

  /**
   * Stability: for every key, the entries carrying it appear in the sorted
   * list in the order they had before.
   */
  lemma {:induction false} SortStable<T>(s: seq<T>, key: T -> Key, k: Key)
    ensures WithKey(Sort(s, key), key, k) == WithKey(s, key, k)
  {
    if s != [] {
      SortStable(s[..|s| - 1], key, k);
      SortStableStep(s, key, k);
    }
  }

  /** One insertion step of `SortStable`: inserting the last entry keeps the property. */
  lemma SortStableStep<T>(s: seq<T>, key: T -> Key, k: Key)
    requires s != []
    requires WithKey(Sort(s[..|s| - 1], key), key, k) == WithKey(s[..|s| - 1], key, k)
    ensures WithKey(Sort(s, key), key, k) == WithKey(s, key, k)
  {
    var init, x := s[..|s| - 1], s[|s| - 1];
    assert Sort(s, key) == Insert(x, Sort(init, key), key);
    SortInsertStable(init, x, key, k);
    WithKeyLast(s, key, k);
  }

  lemma SortInsertStable<T>(init: seq<T>, x: T, key: T -> Key, k: Key)
    ensures WithKey(Insert(x, Sort(init, key), key), key, k) == WithKey(Sort(init, key), key, k) + Keep(x, key, k)
  {
    SortRanked(init, key);
    InsertStable(x, Sort(init, key), key, k);
  }

  lemma WithKeyLast<T>(s: seq<T>, key: T -> Key, k: Key)
    requires s != []
    ensures WithKey(s, key, k) == WithKey(s[..|s| - 1], key, k) + Keep(s[|s| - 1], key, k)
  {
    var init, x := s[..|s| - 1], s[|s| - 1];
    assert s == init + [x];
    WithKeyAppend(init, [x], key, k);
    WithKeySingle(x, key, k);
  }

}

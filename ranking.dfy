/** Python's `sorted(xs, key=k, reverse=True)` on a list of scores, as a
    ranking of positions: the result lists the positions 0..n-1 from the
    highest key to the lowest, and positions with equal keys keep their
    input order (Python's sort is stable, also in reverse). */
module Ranking {

  /** Position i is ranked ahead of position j: a higher key, or an equal
      key and an earlier position. */
  predicate Before(keys: seq<real>, i: nat, j: nat) {
    i < |keys| && j < |keys| && (keys[i] > keys[j] || (keys[i] == keys[j] && i < j))
  }

  /** Every position of the ranking is ranked ahead of every later one. */
  predicate Ordered(keys: seq<real>, ranking: seq<nat>) {
    forall a, b :: 0 <= a < b < |ranking| ==> Before(keys, ranking[a], ranking[b])
  }

  /** Inserts position i, which is later than every position already
      ranked, ahead of the first one with a strictly lower key. */
  function Insert(keys: seq<real>, ranking: seq<nat>, i: nat): (r: seq<nat>)
    requires i < |keys|
    requires forall x :: x in ranking ==> x < i
    requires Ordered(keys, ranking)
    ensures |r| == |ranking| + 1
    ensures forall x :: x in r <==> x in ranking || x == i
    ensures Ordered(keys, r)
  {
    if ranking == [] then [i]
    else
      assert ranking[0] in ranking;
      if keys[i] > keys[ranking[0]] then
        assert forall b :: 0 <= b < |ranking| ==> ranking[b] in ranking;
        [i] + ranking
      else
        assert forall x :: x in ranking[1..] ==> x in ranking;
        var rest := Insert(keys, ranking[1..], i);
        assert forall b :: 0 <= b < |rest| ==> Before(keys, ranking[0], rest[b]) by {
          forall b | 0 <= b < |rest| ensures Before(keys, ranking[0], rest[b]) {
            assert rest[b] in rest;
            if rest[b] != i {
              var c :| 0 <= c < |ranking[1..]| && ranking[1..][c] == rest[b];
              assert ranking[c + 1] == rest[b];
            }
          }
        }
        [ranking[0]] + rest
  }

  /** The ranking of the first n positions. */
  function RankIndices(keys: seq<real>, n: nat): (r: seq<nat>)
    requires n <= |keys|
    ensures |r| == n
    ensures forall x: nat :: x in r <==> x < n
    ensures Ordered(keys, r)
  {
    if n == 0 then []
    else
      var r := Insert(keys, RankIndices(keys, n - 1), n - 1);
      assert forall x: nat :: x in r <==> x < n;
      r
  }

  /** The ranking of all positions. */
  function Rank(keys: seq<real>): seq<nat> {
    RankIndices(keys, |keys|)
  }

  /** The ranking is a permutation of the positions, sorted by descending
      key, with ties in input order; a position appears once. */
  lemma RankIsStableDescending(keys: seq<real>)
    ensures |Rank(keys)| == |keys|
    ensures forall x: nat :: x in Rank(keys) <==> x < |keys|
    ensures forall a :: 0 <= a < |keys| ==> Rank(keys)[a] < |keys|
    ensures forall a, b :: 0 <= a < b < |keys| ==>
      keys[Rank(keys)[a]] > keys[Rank(keys)[b]] ||
      (keys[Rank(keys)[a]] == keys[Rank(keys)[b]] && Rank(keys)[a] < Rank(keys)[b])
    ensures forall a, b :: 0 <= a < b < |keys| ==> Rank(keys)[a] != Rank(keys)[b]
  {
    var r := Rank(keys);
    assert forall a :: 0 <= a < |keys| ==> r[a] in r;
  }

  /** A ranking of this kind is unique: any ordering of all positions by
      descending key with ties in input order is the one `Rank` gives. */
  lemma {:induction false} RankIsUnique(keys: seq<real>, other: seq<nat>)
    requires |other| == |keys|
    requires forall x: nat :: x in other <==> x < |keys|
    requires Ordered(keys, other)
    ensures other == Rank(keys)
  {
    var r := Rank(keys);
    OrderedUnique(keys, other, r);
  }

  lemma {:induction false} OrderedUnique(keys: seq<real>, s: seq<nat>, t: seq<nat>)
    requires |s| == |t|
    requires forall x :: x in s <==> x in t
    requires Ordered(keys, s) && Ordered(keys, t)
    ensures s == t
    decreases |s|
  {
    if |s| > 0 {
      // The head of each is ranked ahead of everything else in it, so the
      // two heads coincide.
      assert s[0] in s && t[0] in t;
      assert s[0] == t[0];
      forall x ensures x in s[1..] <==> x in t[1..] {
        if x in s[1..] {
          var a :| 1 <= a < |s| && s[a] == x;
          assert x != s[0] by { assert Before(keys, s[0], s[a]); }
          assert x in t;
        }
        if x in t[1..] {
          var a :| 1 <= a < |t| && t[a] == x;
          assert x != t[0] by { assert Before(keys, t[0], t[a]); }
          assert x in s;
        }
      }
      OrderedUnique(keys, s[1..], t[1..]);
    }
  }
}

/**
 * `table.sort_values(col, ascending=False)[[key..., col]].head(n)`: the
 * rows with the n largest scores, largest first. pandas' default sort is
 * not stable, so nothing is promised about the order of equal scores.
 */
module Ranking {

  /** A projected row of a ranked table: its group key and the score sorted on. */
  datatype Scored<K> = Scored(key: K, value: real)

  ghost predicate NonIncreasing<K>(s: seq<Scored<K>>) {
    forall i, j :: 0 <= i < j < |s| ==> s[i].value >= s[j].value
  }

  function Min(a: int, b: int): int { if a <= b then a else b }

  /** Puts `x` into a non-increasing sequence, keeping it non-increasing. */
  function Insert<K(==)>(x: Scored<K>, s: seq<Scored<K>>): (r: seq<Scored<K>>)
    requires NonIncreasing(s)
    ensures NonIncreasing(r)
    ensures multiset(r) == multiset(s) + multiset{x}
  {
    if s == [] || x.value >= s[0].value then
      Prepend(x, s);
      [x] + s
    else
      var rest := Insert(x, s[1..]);
      assert s == [s[0]] + s[1..];
      assert rest != [] ==> s[0].value >= rest[0].value by {
        if rest != [] {
          assert rest[0] in multiset(rest);
          assert rest[0] == x || rest[0] in multiset(s[1..]);
        }
      }
      Prepend(s[0], rest);
      [s[0]] + rest
  }

  /** A score no smaller than the head of a non-increasing sequence may go in front of it. */
  lemma Prepend<K>(x: Scored<K>, s: seq<Scored<K>>)
    requires NonIncreasing(s)
    requires s != [] ==> x.value >= s[0].value
    ensures NonIncreasing([x] + s)
  {
    var r := [x] + s;
    forall i, j | 0 <= i < j < |r| ensures r[i].value >= r[j].value {
      if i == 0 {
        assert r[j] == s[j - 1];
      }
    }
  }

  /** A descending reordering of `xs`. */
  function SortDescending<K(==)>(xs: seq<Scored<K>>): (s: seq<Scored<K>>)
    ensures NonIncreasing(s)
    ensures multiset(s) == multiset(xs)
  {
    if xs == [] then []
    else
      assert xs == [xs[0]] + xs[1..];
      Insert(xs[0], SortDescending(xs[1..]))
  }

  /**
   * The first `n` rows after sorting descending: as many rows as there are,
   * up to `n`, taken from `xs`, largest first, and no row left out scores
   * above any row shown.
   */
  function TopN<K(==)>(xs: seq<Scored<K>>, n: nat): (top: seq<Scored<K>>)
    ensures |top| == Min(n, |xs|)
    ensures NonIncreasing(top)
    ensures multiset(top) <= multiset(xs)
    ensures forall i, y :: 0 <= i < |top| && y in multiset(xs) - multiset(top) ==> y.value <= top[i].value
  {
    var s := SortDescending(xs);
    var m := Min(n, |xs|);
    assert |s| == |xs| by {
      assert |multiset(s)| == |multiset(xs)|;
    }
    TakeSorted(xs, s, m);
    s[..m]
  }

  /** The first `m` entries of a descending reordering of `xs` have every property TopN promises. */
  lemma TakeSorted<K>(xs: seq<Scored<K>>, s: seq<Scored<K>>, m: nat)
    requires NonIncreasing(s) && multiset(s) == multiset(xs) && m <= |s|
    ensures NonIncreasing(s[..m])
    ensures multiset(s[..m]) <= multiset(xs)
    ensures forall i, y :: 0 <= i < m && y in multiset(xs) - multiset(s[..m]) ==> y.value <= s[..m][i].value
  {
    TopNSplit(s, m);
    assert s == s[..m] + s[m..];
    forall i, y | 0 <= i < m && y in multiset(xs) - multiset(s[..m]) ensures y.value <= s[..m][i].value {
      assert y in multiset(s[m..]);
    }
  }

  /** Cutting a sorted sequence: what is left out scores no more than what is kept. */
  lemma TopNSplit<K>(s: seq<Scored<K>>, m: nat)
    requires NonIncreasing(s) && m <= |s|
    ensures multiset(s) - multiset(s[..m]) == multiset(s[m..])
    ensures forall i, y :: 0 <= i < m && y in multiset(s[m..]) ==> y.value <= s[i].value
  {
    assert s == s[..m] + s[m..];
    forall i, y | 0 <= i < m && y in multiset(s[m..]) ensures y.value <= s[i].value {
      var j :| 0 <= j < |s[m..]| && s[m..][j] == y;
      assert s[m + j] == y;
    }
  }
}

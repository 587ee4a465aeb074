/** Sums of the values of finite maps: SQL's sum(), and the totals the invariants speak of. */
module Sums {

  ghost function Sum<K>(m: map<K, int>): int {
    if m == map[] then 0
    else
      var k :| k in m;
      m[k] + Sum(m - {k})
  }

  /** Any key may be taken out first. */
  lemma {:induction false} SumRemove<K>(m: map<K, int>, k: K)
    requires k in m
    ensures Sum(m) == m[k] + Sum(m - {k})
    decreases |m|
  {
    var j :| j in m && Sum(m) == m[j] + Sum(m - {j});
    if j == k {
    } else {
      SumRemove(m - {j}, k);
      SumRemove(m - {k}, j);
      assert m - {j} - {k} == m - {k} - {j};
    }
  }

  lemma SumUpdate<K>(m: map<K, int>, k: K, v: int)
    ensures Sum(m[k := v]) == Sum(m) - (if k in m then m[k] else 0) + v
  {
    SumRemove(m[k := v], k);
    if k in m {
      SumRemove(m, k);
      assert m[k := v] - {k} == m - {k};
    } else {
      assert m[k := v] - {k} == m;
    }
  }

  lemma {:induction false} SumAdd<K>(a: map<K, int>, b: map<K, int>, c: map<K, int>)
    requires a.Keys == b.Keys == c.Keys && forall k :: k in c ==> c[k] == a[k] + b[k]
    ensures Sum(c) == Sum(a) + Sum(b)
    decreases |c|
  {
    if c != map[] {
      var k :| k in c;
      SumRemove(a, k);
      SumRemove(b, k);
      SumRemove(c, k);
      SumAdd(a - {k}, b - {k}, c - {k});
    } else {
      assert a == map[] && b == map[];
    }
  }

  lemma {:induction false} SumNegate<K>(m: map<K, int>)
    ensures Sum(map k | k in m :: -m[k]) == -Sum(m)
    decreases |m|
  {
    var negated := map k | k in m :: -m[k];
    if m != map[] {
      var k :| k in m;
      SumRemove(m, k);
      SumRemove(negated, k);
      SumNegate(m - {k});
      assert negated - {k} == map j | j in m - {k} :: -(m - {k})[j];
    } else {
      assert negated == map[];
    }
  }

  lemma SumOfOne<K>(m: map<K, int>, k: K)
    requires m.Keys == {k}
    ensures Sum(m) == m[k]
  {
    SumRemove(m, k);
    assert m - {k} == map[];
  }

  /** Keys whose value is zero may be left out. */
  lemma {:induction false} SumOfPart<K>(whole: map<K, int>, part: map<K, int>)
    requires forall k :: k in part ==> k in whole && part[k] == whole[k]
    requires forall k :: k in whole && k !in part ==> whole[k] == 0
    ensures Sum(whole) == Sum(part)
    decreases |whole|
  {
    if whole == map[] {
      assert part == map[];
    } else {
      var k :| k in whole;
      SumRemove(whole, k);
      if k in part {
        SumRemove(part, k);
      } else {
        assert part - {k} == part;
      }
      SumOfPart(whole - {k}, part - {k});
    }
  }

  lemma {:induction false} SumBound<K>(m: map<K, int>)
    requires forall k :: k in m ==> m[k] >= 0
    ensures Sum(m) >= 0
    ensures forall k :: k in m ==> m[k] <= Sum(m)
    decreases |m|
  {
    forall k | k in m ensures m[k] <= Sum(m) {
      SumRemove(m, k);
      SumBound(m - {k});
    }
    if m != map[] {
      var k :| k in m;
    }
  }

  ghost function SumSeq(xs: seq<int>): int {
    if xs == [] then 0 else SumSeq(xs[..|xs| - 1]) + xs[|xs| - 1]
  }

  lemma {:induction false} SumSeqUpdate(xs: seq<int>, i: nat, v: int)
    requires i < |xs|
    ensures SumSeq(xs[i := v]) == SumSeq(xs) - xs[i] + v
  {
    if i < |xs| - 1 {
      SumSeqUpdate(xs[..|xs| - 1], i, v);
      assert xs[i := v][..|xs| - 1] == xs[..|xs| - 1][i := v];
    } else {
      assert xs[i := v][..|xs| - 1] == xs[..|xs| - 1];
    }
  }

  lemma {:induction false} SumSeqZero(xs: seq<int>)
    requires forall i :: 0 <= i < |xs| ==> xs[i] == 0
    ensures SumSeq(xs) == 0
  {
    if xs == [] {
    } else {
      SumSeqZero(xs[..|xs| - 1]);
    }
  }

  /** A sum of non-negative terms is at least each of them. */
  lemma {:induction false} SumSeqBound(xs: seq<int>)
    requires forall i :: 0 <= i < |xs| ==> xs[i] >= 0
    ensures SumSeq(xs) >= 0 && forall i :: 0 <= i < |xs| ==> xs[i] <= SumSeq(xs)
  {
    if xs == [] {
    } else {
      SumSeqBound(xs[..|xs| - 1]);
      forall i | 0 <= i < |xs| ensures xs[i] <= SumSeq(xs) {
        if i < |xs| - 1 {
          assert xs[i] == xs[..|xs| - 1][i];
        }
      }
    }
  }

  /** The database's sum(column), coalesced to 0 on no rows. */
  method SumQuery<K>(m: map<K, int>) returns (total: int)
    ensures total == Sum(m)
  {
    total := 0;
    var rest := m;
    while rest != map[]
      invariant total + Sum(rest) == Sum(m)
      decreases |rest|
    {
      var k :| k in rest;
      SumRemove(rest, k);
      total := total + rest[k];
      rest := rest - {k};
    }
  }
}

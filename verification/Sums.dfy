module Options {
  datatype Option<+T> = None | Some(value: T)
}

module ByteStrings {
  type Byte = b: int | 0 <= b < 256 witness 0

  type Bytes = seq<Byte>
}

/** Sums over the values of a finite map, and the sequence operations the models share. */
module Sums {

  lemma KeyOf<K, V>(m: map<K, V>) returns (k: K)
    requires m != map[]
    ensures k in m
  {
    k :| k in m;
  }

  ghost function Sum<K>(m: map<K, int>): int
    decreases |m|
  {
    if m == map[] then 0
    else
      var k :| k in m;
      m[k] + Sum(m - {k})
  }

  lemma {:induction false} SumRemove<K>(m: map<K, int>, k: K)
    requires k in m
    ensures Sum(m) == m[k] + Sum(m - {k})
    decreases |m|
  {
    var j :| j in m && Sum(m) == m[j] + Sum(m - {j});
    if j != k {
      SumRemove(m - {j}, k);
      SumRemove(m - {k}, j);
      assert m - {j} - {k} == m - {k} - {j};
    }
  }

  lemma SumUpdate<K>(m: map<K, int>, k: K, v: int)
    ensures Sum(m[k := v]) == Sum(m) + v - (if k in m then m[k] else 0)
  {
    var m' := m[k := v];
    SumRemove(m', k);
    assert m' - {k} == m - {k};
    if k in m {
      SumRemove(m, k);
    } else {
      assert m - {k} == m;
    }
  }

  /** A sum of small summands is bounded by the number of keys. */
  lemma {:induction false} SumBounds<K>(m: map<K, int>)
    requires forall k :: k in m ==> 0 <= m[k] <= 1
    ensures 0 <= Sum(m) <= |m|
    decreases |m|
  {
    if m != map[] {
      var k :| k in m && Sum(m) == m[k] + Sum(m - {k});
      SumBounds(m - {k});
      assert |m - {k}| == |m| - 1 by { assert m == (m - {k})[k := m[k]]; }
    }
  }

  /** Each summand of a non-negative sum is at most the sum. */
  lemma SummandLeSum<K>(m: map<K, int>, k: K)
    requires k in m && forall j :: j in m ==> 0 <= m[j]
    ensures m[k] <= Sum(m)
  {
    SumRemove(m, k);
    SumNonNegative(m - {k});
  }

  lemma {:induction false} SumNonNegative<K>(m: map<K, int>)
    requires forall k :: k in m ==> 0 <= m[k]
    ensures 0 <= Sum(m)
    decreases |m|
  {
    if m != map[] {
      var k :| k in m && Sum(m) == m[k] + Sum(m - {k});
      SumNonNegative(m - {k});
    }
  }
}

module Seqs {

  ghost predicate NoDup<T>(s: seq<T>) {
    forall i, j :: 0 <= i < j < |s| ==> s[i] != s[j]
  }

  method AnyOf<T>(s: set<T>) returns (x: T)
    requires s != {}
    ensures x in s
  {
    x :| x in s;
  }

  /** The first position of `x`. */
  function IndexOf<T(==)>(s: seq<T>, x: T): (i: nat)
    requires x in s
    ensures i < |s| && s[i] == x && x !in s[..i]
  {
    if s[0] == x then 0 else
      var i := 1 + IndexOf(s[1..], x);
      assert s[..i] == [s[0]] + s[1..][..i - 1];
      i
  }

  /** `s` without the first `x`, everything else in order. */
  function RemoveFirst<T(==)>(s: seq<T>, x: T): (r: seq<T>)
    requires x in s
    ensures |r| == |s| - 1
  {
    var i := IndexOf(s, x);
    s[..i] + s[i + 1..]
  }

  /** In a list without repetitions, removing `x` removes exactly `x`. */
  lemma RemoveFirstElements<T>(s: seq<T>, x: T)
    requires x in s && NoDup(s)
    ensures NoDup(RemoveFirst(s, x))
    ensures forall y :: y in RemoveFirst(s, x) <==> y in s && y != x
  {
    var i, r := IndexOf(s, x), RemoveFirst(s, x);
    forall y | y in s && y != x ensures y in r {
      var j :| 0 <= j < |s| && s[j] == y;
      assert y == if j < i then r[j] else r[j - 1];
    }
    forall y | y in r ensures y in s && y != x {
      var j :| 0 <= j < |r| && r[j] == y;
      assert y == if j < i then s[j] else s[j + 1];
    }
  }
}

/** Shared vocabulary: addresses, optional results, and sums over sequences and maps. */
module Vocabulary {

  /** 2^160: addresses are 20 bytes. */
  const ADDRESS_LIMIT: nat := 0x1_0000000000_0000000000_0000000000_0000000000

  /** An address in canonical form, that is after checksumming, as its number. */
  type Address = n: nat | n < ADDRESS_LIMIT

  datatype Option<+T> = None | Some(value: T) {
    predicate IsFailure() {
      None?
    }

    function PropagateFailure<U>(): Option<U>
      requires None?
    {
      None
    }

    function Extract(): T
      requires Some?
    {
      value
    }
  }

  /** The sum of g over the elements of s. */
  ghost function Sum<T>(s: seq<T>, g: T -> int): int {
    if s == [] then 0 else Sum(s[..|s| - 1], g) + g(s[|s| - 1])
  }

  lemma {:induction false} SumSnoc<T>(s: seq<T>, x: T, g: T -> int)
    ensures Sum(s + [x], g) == Sum(s, g) + g(x)
  {
    assert (s + [x])[..|s|] == s;
  }

  lemma {:induction false} SumUpdate<T>(s: seq<T>, i: nat, x: T, g: T -> int)
    requires i < |s|
    ensures Sum(s[i := x], g) == Sum(s, g) - g(s[i]) + g(x)
  {
    var init := s[..|s| - 1];
    if i == |s| - 1 {
      assert s[i := x][..|s| - 1] == init;
    } else {
      assert s[i := x][..|s| - 1] == init[i := x];
      SumUpdate(init, i, x, g);
    }
  }

  /** Summing is linear: if g is h plus c times k everywhere on s, so are the sums. */
  lemma {:induction false} SumLinear<T>(s: seq<T>, g: T -> int, h: T -> int, k: T -> int, c: int)
    requires forall i :: 0 <= i < |s| ==> g(s[i]) == h(s[i]) + c * k(s[i])
    ensures Sum(s, g) == Sum(s, h) + c * Sum(s, k)
  {
    if s != [] {
      var init, x := s[..|s| - 1], s[|s| - 1];
      SumLinear(init, g, h, k, c);
      assert c * (Sum(init, k) + k(x)) == c * Sum(init, k) + c * k(x);
    }
  }

  /** The sum of g over the entries of m. */
  ghost function MapSum<K, V>(m: map<K, V>, g: (K, V) -> int): int {
    if m == map[] then 0
    else
      var k :| k in m;
      g(k, m[k]) + MapSum(m - {k}, g)
  }

  lemma {:induction false} MapSumRemove<K, V>(m: map<K, V>, k: K, g: (K, V) -> int)
    requires k in m
    ensures MapSum(m, g) == g(k, m[k]) + MapSum(m - {k}, g)
    decreases |m|
  {
    var j :| j in m && MapSum(m, g) == g(j, m[j]) + MapSum(m - {j}, g);
    if j != k {
      var a, b := m - {j}, m - {k};
      MapSumRemove(a, k, g);
      MapSumRemove(b, j, g);
      assert a - {k} == b - {j};
    }
  }

  lemma {:induction false} MapSumPut<K, V>(m: map<K, V>, k: K, v: V, g: (K, V) -> int)
    ensures MapSum(m[k := v], g) == MapSum(m - {k}, g) + g(k, v)
  {
    MapSumRemove(m[k := v], k, g);
    assert m[k := v] - {k} == m - {k};
  }

  lemma {:induction false} MapSumZero<K, V>(m: map<K, V>, g: (K, V) -> int)
    requires forall k :: k in m ==> g(k, m[k]) == 0
    ensures MapSum(m, g) == 0
    decreases |m|
  {
    if m != map[] {
      var k :| k in m && MapSum(m, g) == g(k, m[k]) + MapSum(m - {k}, g);
      MapSumZero(m - {k}, g);
    }
  }
}

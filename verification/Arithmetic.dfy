/** Arithmetic on reals that several components share: products, keyed sums, and sums over a list
    in any order. */
module Arithmetic {
  import opened Ordering

  function Abs(x: real): real {
    if x < 0.0 then -x else x
  }

  lemma Product(x: real, y: real)
    requires x >= 0.0 && y >= 0.0
    ensures x * y >= 0.0
  {
  }

  // ---------------------------------------------------------------- keyed sums

  function Get<K(==)>(m: map<K, real>, k: K): real {
    if k in m then m[k] else 0.0
  }

  /** `m[k] += x`, where a missing key counts as zero. */
  function AddTo<K(==)>(m: map<K, real>, k: K, x: real): map<K, real> {
    m[k := Get(m, k) + x]
  }

  // ---------------------------------------------------------------- sums over a list

  ghost function SumOf<T>(f: T -> real, s: seq<T>): real {
    if s == [] then 0.0 else SumOf(f, s[..|s| - 1]) + f(s[|s| - 1])
  }

  lemma {:induction false} SumOfRemove<T>(f: T -> real, s: seq<T>, i: nat)
    requires i < |s|
    ensures SumOf(f, s) == SumOf(f, s[..i] + s[i + 1..]) + f(s[i])
  {
    var last, init := |s| - 1, s[..|s| - 1];
    if i == last {
      assert s[..i] + s[i + 1..] == init;
    } else {
      SumOfRemove(f, init, i);
      var rest := s[..i] + s[i + 1..];
      assert rest[..|rest| - 1] == init[..i] + init[i + 1..];
      assert rest[|rest| - 1] == s[last];
    }
  }

  lemma SumOfFirst<T>(f: T -> real, s: seq<T>)
    requires s != []
    ensures SumOf(f, s) == f(s[0]) + SumOf(f, s[1..])
  {
    SumOfRemove(f, s, 0);
    assert s[..0] + s[1..] == s[1..];
  }

  /** A sum is the same for every order of its terms. */
  lemma {:induction false} SumOfIgnoresOrder<T>(f: T -> real, a: seq<T>, b: seq<T>)
    requires multiset(a) == multiset(b)
    ensures SumOf(f, a) == SumOf(f, b)
    decreases |a|
  {
    if a == [] {
      assert |multiset(b)| == 0;
    } else {
      var i := PermutationStep(a, b);
      SumOfIgnoresOrder(f, a[..|a| - 1], b[..i] + b[i + 1..]);
      SumOfRemove(f, b, i);
    }
  }
}

/** Lists as the source uses them: bounded deques, lists without repetitions, and dictionaries that
    index a list by a key of its elements. */
module Sequences {

  // ---------------------------------------------------------------- bounded deques

  /** A deque with a maximal length keeps the last elements. */
  function Keep<T>(s: seq<T>, n: nat): seq<T> {
    if |s| <= n then s else s[|s| - n..]
  }

  lemma KeepPush<T>(s: seq<T>, n: nat, x: T)
    ensures Keep(Keep(s, n) + [x], n) == Keep(s + [x], n)
  {
    if n > 0 && |s| > n {
      assert Keep(s, n) + [x] == (s + [x])[|s| - n..];
    }
  }

  // ---------------------------------------------------------------- repetitions

  predicate NoRepeats<T(==)>(s: seq<T>) {
    forall i, j :: 0 <= i < j < |s| ==> s[i] != s[j]
  }

  function Elements<T>(s: seq<T>): set<T> {
    if s == [] then {} else Elements(s[..|s| - 1]) + {s[|s| - 1]}
  }

  lemma {:induction false} ElementsHold<T>(s: seq<T>, x: T)
    ensures x in Elements(s) <==> x in s
  {
    if s != [] {
      ElementsHold(s[..|s| - 1], x);
      assert s == s[..|s| - 1] + [s[|s| - 1]];
    }
  }

  /** A list has as many elements as entries exactly when none repeats. */
  lemma {:induction false} RepeatsShrink<T>(s: seq<T>)
    ensures |Elements(s)| <= |s|
    ensures |Elements(s)| == |s| <==> NoRepeats(s)
  {
    if s != [] {
      var init, last := s[..|s| - 1], s[|s| - 1];
      RepeatsShrink(init);
      ElementsHold(init, last);
      if last in init {
        assert Elements(s) == Elements(init);
        var i :| 0 <= i < |init| && init[i] == last;
        assert s[i] == s[|s| - 1];
      } else {
        assert |Elements(s)| == |Elements(init)| + 1;
        assert NoRepeats(s) <==> NoRepeats(init) by {
          assert forall i, j :: 0 <= i < j < |init| ==> s[i] == init[i] && s[j] == init[j];
        }
      }
    }
  }

  // ---------------------------------------------------------------- indexing by a key

  function KeysOf<T, K>(list: seq<T>, key: T -> K): seq<K> {
    seq(|list|, i requires 0 <= i < |list| => key(list[i]))
  }

  /** Whether keys repeat does not depend on the order of the list. */
  lemma RepeatsIgnoreOrder<T, K(!new)>(a: seq<T>, b: seq<T>, key: T -> K)
    requires multiset(a) == multiset(b)
    ensures NoRepeats(KeysOf(a, key)) <==> NoRepeats(KeysOf(b, key))
  {
    RepeatsShrink(KeysOf(a, key));
    RepeatsShrink(KeysOf(b, key));
    assert |a| == |multiset(a)| == |b|;
    forall k ensures k in Elements(KeysOf(a, key)) <==> k in Elements(KeysOf(b, key)) {
      ElementsHold(KeysOf(a, key), k);
      ElementsHold(KeysOf(b, key), k);
      KeyOfMember(a, key, k);
      KeyOfMember(b, key, k);
      assert forall x :: x in a <==> x in multiset(a);
      assert forall x :: x in b <==> x in multiset(b);
    }
    assert Elements(KeysOf(a, key)) == Elements(KeysOf(b, key));
  }

  lemma KeyOfMember<T, K>(list: seq<T>, key: T -> K, k: K)
    ensures k in KeysOf(list, key) <==> exists x :: x in list && key(x) == k
  {
    if k in KeysOf(list, key) {
      var i :| 0 <= i < |list| && KeysOf(list, key)[i] == k;
      assert list[i] in list;
    }
    if x :| x in list && key(x) == k {
      var i :| 0 <= i < |list| && list[i] == x;
      assert KeysOf(list, key)[i] == k;
    }
  }

  /** The dictionary agrees with the list: each key names its one entry. */
  ghost predicate Indexes<T, K>(byKey: map<K, T>, list: seq<T>, key: T -> K) {
    && (forall i :: 0 <= i < |list| ==> key(list[i]) in byKey && byKey[key(list[i])] == list[i])
    && (forall k :: k in byKey ==> byKey[k] in list && key(byKey[k]) == k)
  }

  /** `{key(item): item for item in list}`, and whether its size shows that no key repeats. */
  method IndexByKey<T, K(==)>(list: seq<T>, key: T -> K) returns (byKey: map<K, T>, unique: bool)
    ensures unique <==> NoRepeats(KeysOf(list, key))
    ensures unique ==> Indexes(byKey, list, key)
  {
    byKey := map[];
    ghost var keys := KeysOf(list, key);
    for i := 0 to |list|
      invariant byKey.Keys == Elements(keys[..i])
      invariant forall k :: k in byKey ==> byKey[k] in list && key(byKey[k]) == k
    {
      assert keys[..i + 1][..i] == keys[..i];
      byKey := byKey[key(list[i]) := list[i]];
    }
    assert keys[..|list|] == keys;
    RepeatsShrink(keys);
    assert |byKey.Keys| == |byKey|;
    unique := |byKey| == |list|;
    if unique {
      UniqueKeysIndex(byKey, list, key);
    }
  }

  lemma UniqueKeysIndex<T, K>(byKey: map<K, T>, list: seq<T>, key: T -> K)
    requires NoRepeats(KeysOf(list, key)) && byKey.Keys == Elements(KeysOf(list, key))
    requires forall k :: k in byKey ==> byKey[k] in list && key(byKey[k]) == k
    ensures Indexes(byKey, list, key)
  {
    var keys := KeysOf(list, key);
    forall i | 0 <= i < |list| ensures key(list[i]) in byKey && byKey[key(list[i])] == list[i] {
      assert keys[i] == key(list[i]);
      ElementsHold(keys, keys[i]);
      var j :| 0 <= j < |list| && list[j] == byKey[keys[i]];
      assert keys[j] == keys[i];
    }
  }
}

/** The stable sort that Python's `sorted` and `list.sort` perform, as a function, and the
    facts about it that the other modules use. */
module Ordering {

  /** `le` is a total preorder: the order induced by a sort key. */
  ghost predicate Preorder<T(!new)>(le: (T, T) -> bool) {
    && (forall x, y :: le(x, y) || le(y, x))
    && (forall x, y, z :: le(x, y) && le(y, z) ==> le(x, z))
  }

  ghost predicate Sorted<T>(le: (T, T) -> bool, s: seq<T>) {
    forall i, j :: 0 <= i < j < |s| ==> le(s[i], s[j])
  }

  /** Places `x` behind every element it does not precede, so equal keys keep arrival order. */
  function Insert<T>(le: (T, T) -> bool, s: seq<T>, x: T): (r: seq<T>)
    ensures |r| == |s| + 1
  {
    if s == [] then [x]
    else if le(s[|s| - 1], x) then s + [x]
    else Insert(le, s[..|s| - 1], x) + [s[|s| - 1]]
  }

  function StableSort<T>(le: (T, T) -> bool, s: seq<T>): (r: seq<T>)
    ensures |r| == |s|
  {
    if s == [] then []
    else Insert(le, StableSort(le, s[..|s| - 1]), s[|s| - 1])
  }

  lemma {:induction false} InsertKeepsElements<T>(le: (T, T) -> bool, s: seq<T>, x: T)
    ensures multiset(Insert(le, s, x)) == multiset(s) + multiset{x}
  {
    if s != [] {
      assert s == s[..|s| - 1] + [s[|s| - 1]];
      InsertKeepsElements(le, s[..|s| - 1], x);
    }
  }

  lemma {:induction false} InsertKeepsOrder<T(!new)>(le: (T, T) -> bool, s: seq<T>, x: T)
    requires Preorder(le) && Sorted(le, s)
    ensures Sorted(le, Insert(le, s, x))
  {
    if s != [] && !le(s[|s| - 1], x) {
      var init, last := s[..|s| - 1], s[|s| - 1];
      var r := Insert(le, init, x);
      InsertKeepsOrder(le, init, x);
      InsertKeepsElements(le, init, x);
      forall i | 0 <= i < |r| ensures le(r[i], last) {
        assert r[i] in multiset(r);
        if r[i] != x {
          assert r[i] in multiset(init);
        }
      }
    }
  }

  /** Sorting returns the same elements, in order. */
  lemma {:induction false} StableSortSorts<T(!new)>(le: (T, T) -> bool, s: seq<T>)
    requires Preorder(le)
    ensures Sorted(le, StableSort(le, s))
    ensures multiset(StableSort(le, s)) == multiset(s)
  {
    if s != [] {
      var init := s[..|s| - 1];
      assert s == init + [s[|s| - 1]];
      StableSortSorts(le, init);
      InsertKeepsOrder(le, StableSort(le, init), s[|s| - 1]);
      InsertKeepsElements(le, StableSort(le, init), s[|s| - 1]);
    }
  }

  /** A sorted list is left alone, ties included. */
  lemma {:induction false} SortedIsFixed<T>(le: (T, T) -> bool, s: seq<T>)
    requires Sorted(le, s)
    ensures StableSort(le, s) == s
  {
    if s != [] {
      var init := s[..|s| - 1];
      SortedIsFixed(le, init);
      assert s == init + [s[|s| - 1]];
      assert init != [] ==> le(s[|s| - 2], s[|s| - 1]);
    }
  }

  /** Appending to a sorted list and sorting again is one insertion. */
  lemma AppendThenSort<T>(le: (T, T) -> bool, s: seq<T>, x: T)
    requires Sorted(le, s)
    ensures StableSort(le, s + [x]) == Insert(le, s, x)
  {
    assert (s + [x])[..|s|] == s;
    SortedIsFixed(le, s);
  }

  lemma MemberOfSort<T(!new)>(le: (T, T) -> bool, s: seq<T>, x: T)
    requires Preorder(le)
    ensures x in StableSort(le, s) <==> x in s
  {
    StableSortSorts(le, s);
    assert x in StableSort(le, s) <==> x in multiset(StableSort(le, s));
    assert x in s <==> x in multiset(s);
  }

  lemma SameMembers<T>(a: seq<T>, b: seq<T>)
    requires multiset(a) == multiset(b)
    ensures forall o :: o in a <==> o in b
  {
    forall o ensures o in a <==> o in b {
      assert o in a <==> o in multiset(a);
      assert o in b <==> o in multiset(b);
    }
  }

  lemma WithoutOne<T>(s: seq<T>, i: nat)
    requires i < |s|
    ensures multiset(s) == multiset(s[..i] + s[i + 1..]) + multiset{s[i]}
  {
    assert s == s[..i] + [s[i]] + s[i + 1..];
  }

  /** Removing the last element of a list from a permutation of it leaves a permutation. */
  lemma PermutationStep<T>(a: seq<T>, b: seq<T>) returns (i: nat)
    requires a != [] && multiset(a) == multiset(b)
    ensures i < |b| && b[i] == a[|a| - 1]
    ensures multiset(a[..|a| - 1]) == multiset(b[..i] + b[i + 1..])
  {
    var n := |a| - 1;
    assert a[n] in multiset(a);
    assert a[n] in b;
    i :| 0 <= i < |b| && b[i] == a[n];
    WithoutOne(a, n);
    WithoutOne(b, i);
    assert a[..n] + a[n + 1..] == a[..n];
    SameAfterRemoval(multiset(a[..n]), multiset(b[..i] + b[i + 1..]), a[n]);
  }

  lemma SameAfterRemoval<T>(a: multiset<T>, b: multiset<T>, x: T)
    requires a + multiset{x} == b + multiset{x}
    ensures a == b
  {
    assert a == (a + multiset{x}) - multiset{x};
    assert b == (b + multiset{x}) - multiset{x};
  }
}

/** The Latin hypercube sampler: every column is stratified, then shuffled in place. The random
    source is a parameter. */
module LatinHypercube {

  /** Parameter names matter only for equality. */
  type Name = nat

  datatype Range = Range(name: Name, minimum: real, maximum: real)

  // ---------------------------------------------------------------- strata

  /** The lower edge of a stratum. */
  function Edge(r: Range, n: nat, s: real): real
    requires n > 0
  {
    r.minimum + (r.maximum - r.minimum) * (s / n as real)
  }

  ghost predicate InStratum(r: Range, n: nat, s: nat, v: real)
    requires n > 0
  {
    Edge(r, n, s as real) <= v < Edge(r, n, (s + 1) as real)
  }

  lemma EdgeRises(r: Range, n: nat, s: real, t: real)
    requires n > 0 && r.minimum < r.maximum && s < t
    ensures Edge(r, n, s) < Edge(r, n, t)
  {
    var u, v := s / n as real, t / n as real;
    assert u * n as real == s && v * n as real == t;
    assert (v - u) * n as real > 0.0;
    assert v - u > 0.0;
    assert (r.maximum - r.minimum) * (v - u) > 0.0;
  }

  lemma EdgeEnds(r: Range, n: nat)
    requires n > 0
    ensures Edge(r, n, 0.0) == r.minimum && Edge(r, n, n as real) == r.maximum
  {
    assert 0.0 / n as real == 0.0 && n as real / n as real == 1.0;
    assert (r.maximum - r.minimum) * 0.0 == 0.0 && (r.maximum - r.minimum) * 1.0 == r.maximum - r.minimum;
  }

  /** All strata of a range are equally wide, and a draw lies as far into its stratum as it is large. */
  lemma StrataAreEqual(r: Range, n: nat, s: real, draw: real)
    requires n > 0
    ensures (Edge(r, n, s + draw) - Edge(r, n, s)) * n as real == (r.maximum - r.minimum) * draw
  {
    var u, v, w := s / n as real, (s + draw) / n as real, r.maximum - r.minimum;
    assert u * n as real == s && v * n as real == s + draw;
    assert (w * v - w * u) * n as real == w * (v * n as real) - w * (u * n as real);
  }

  /** A draw in [0, 1) from a stratum stays in it. */
  lemma DrawInStratum(r: Range, n: nat, s: nat, draw: real)
    requires n > 0 && r.minimum < r.maximum && 0.0 <= draw < 1.0
    ensures InStratum(r, n, s, Edge(r, n, s as real + draw))
  {
    if draw > 0.0 {
      EdgeRises(r, n, s as real, s as real + draw);
    }
    EdgeRises(r, n, s as real + draw, (s + 1) as real);
  }

  /** No value lies in two strata. */
  lemma StrataDisjoint(r: Range, n: nat, s: nat, t: nat, v: real)
    requires n > 0 && r.minimum < r.maximum && InStratum(r, n, s, v) && InStratum(r, n, t, v)
    ensures s == t
  {
    if s + 1 < t {
      EdgeRises(r, n, (s + 1) as real, t as real);
    } else if t + 1 < s {
      EdgeRises(r, n, (t + 1) as real, s as real);
    }
  }

  lemma InRange(r: Range, n: nat, s: nat, v: real)
    requires n > 0 && r.minimum < r.maximum && s < n && InStratum(r, n, s, v)
    ensures r.minimum <= v < r.maximum
  {
    EdgeEnds(r, n);
    if s > 0 {
      EdgeRises(r, n, 0.0, s as real);
    }
    if s + 1 < n {
      EdgeRises(r, n, (s + 1) as real, n as real);
    }
  }

  // ---------------------------------------------------------------- shuffling

  /** Two lists of indices that invert each other. */
  ghost predicate Inverse(perm: seq<nat>, inv: seq<nat>) {
    && |perm| == |inv|
    && (forall i :: 0 <= i < |perm| ==> perm[i] < |perm| && inv[perm[i]] == i)
    && (forall s :: 0 <= s < |inv| ==> inv[s] < |inv| && perm[inv[s]] == s)
  }

  lemma SwapKeepsInverse(perm: seq<nat>, inv: seq<nat>, i: nat, j: nat)
    requires Inverse(perm, inv) && i < |perm| && j < |perm|
    ensures perm[i] < |inv| && perm[j] < |inv|
    ensures Inverse(perm[i := perm[j]][j := perm[i]], inv[perm[j] := i][perm[i] := j])
  {
    var p, q := perm[i], perm[j];
    var perm', inv' := perm[i := q][j := p], inv[q := i][p := j];
    forall k | 0 <= k < |perm| ensures perm'[k] < |perm| && inv'[perm'[k]] == k {
      assert k != i && k != j ==> perm[k] != p && perm[k] != q;
    }
    forall s | 0 <= s < |inv| ensures inv'[s] < |inv| && perm'[inv'[s]] == s {
      assert s != p && s != q ==> inv[s] != i && inv[s] != j;
    }
  }

  /** The in-place shuffle: from the last position down, swap with a drawn earlier one. */
  method Shuffle(a: array<real>, pick: nat -> nat) returns (ghost perm: seq<nat>, ghost inv: seq<nat>)
    requires forall i :: pick(i) <= i
    modifies a
    ensures |perm| == a.Length && Inverse(perm, inv)
    ensures forall i :: 0 <= i < a.Length ==> a[i] == old(a[..])[perm[i]]
  {
    perm := seq(a.Length, i => i);
    inv := seq(a.Length, i => i);
    ghost var before := a[..];
    var i := a.Length;
    while i > 1
      invariant 0 <= i <= a.Length && |perm| == a.Length && Inverse(perm, inv)
      invariant forall k :: 0 <= k < a.Length ==> a[k] == before[perm[k]]
    {
      i := i - 1;
      var j := pick(i);
      a[i], a[j] := a[j], a[i];
      ghost var p, q := perm[i], perm[j];
      SwapKeepsInverse(perm, inv, i, j);
      perm := perm[i := q][j := p];
      inv := inv[q := i][p := j];
    }
  }

  // ---------------------------------------------------------------- the sampler

  /** Exactly one entry of the column lies in the stratum. */
  ghost predicate HitOnce(column: seq<real>, r: Range, s: nat)
    requires column != []
  {
    exists i :: 0 <= i < |column| && InStratum(r, |column|, s, column[i])
                && forall k :: 0 <= k < |column| && InStratum(r, |column|, s, column[k]) ==> k == i
  }

  ghost predicate Stratified(column: seq<real>, r: Range)
    requires column != []
  {
    && (forall s :: 0 <= s < |column| ==> HitOnce(column, r, s))
    && forall i :: 0 <= i < |column| ==> r.minimum <= column[i] < r.maximum
  }

  lemma ShuffledIsStratified(column: seq<real>, r: Range, perm: seq<nat>, inv: seq<nat>, draw: nat -> real)
    requires column != [] && |perm| == |column| && Inverse(perm, inv) && r.minimum < r.maximum
    requires forall k :: 0.0 <= draw(k) < 1.0
    requires forall i :: 0 <= i < |column| ==> column[i] == Edge(r, |column|, perm[i] as real + draw(perm[i]))
    ensures Stratified(column, r)
  {
    var n := |column|;
    forall i | 0 <= i < n
      ensures InStratum(r, n, perm[i], column[i]) && r.minimum <= column[i] < r.maximum
    {
      DrawInStratum(r, n, perm[i], draw(perm[i]));
      InRange(r, n, perm[i], column[i]);
    }
    forall s | 0 <= s < n ensures HitOnce(column, r, s) {
      assert InStratum(r, n, s, column[inv[s]]);
      forall k | 0 <= k < n && InStratum(r, n, s, column[k]) ensures k == inv[s] {
        StrataDisjoint(r, n, s, perm[k], column[k]);
      }
    }
  }

  method Column(r: Range, n: nat, draw: nat -> real, pick: nat -> nat) returns (column: seq<real>)
    requires n > 0 && r.minimum < r.maximum
    requires forall k :: 0.0 <= draw(k) < 1.0
    requires forall i :: pick(i) <= i
    ensures |column| == n && Stratified(column, r)
  {
    var values := new real[n];
    for i := 0 to n
      invariant forall k :: 0 <= k < i ==> values[k] == Edge(r, n, k as real + draw(k))
    {
      values[i] := r.minimum + (r.maximum - r.minimum) * ((i as real + draw(i)) / n as real);
    }
    ghost var before := values[..];
    ghost var perm, inv := Shuffle(values, pick);
    column := values[..];
    forall i | 0 <= i < n ensures column[i] == Edge(r, n, perm[i] as real + draw(perm[i])) {
      assert column[i] == before[perm[i]];
    }
    ShuffledIsStratified(column, r, perm, inv, draw);
  }

  ghost predicate Named(ranges: seq<Range>, name: Name) {
    exists i :: 0 <= i < |ranges| && ranges[i].name == name
  }

  /** The range that decides a name: the last one listed under it. */
  ghost function RangeOf(ranges: seq<Range>, name: Name): Range
    requires Named(ranges, name)
  {
    var last := ranges[|ranges| - 1];
    if last.name == name then last
    else
      var k :| 0 <= k < |ranges| && ranges[k].name == name;
      assert ranges[..|ranges| - 1][k].name == name;
      RangeOf(ranges[..|ranges| - 1], name)
  }

  /** The column belongs to the range that decides its name. */
  ghost predicate Fits(columns: map<Name, seq<real>>, ranges: seq<Range>, n: nat, name: Name) {
    && (name in columns <==> Named(ranges, name))
    && (name in columns ==>
          |columns[name]| == n && n > 0 && Stratified(columns[name], RangeOf(ranges, name)))
  }

  /** The values of one name over all rows. */
  ghost function ColumnOf(rows: seq<map<Name, real>>, name: Name): seq<real>
    requires forall i :: 0 <= i < |rows| ==> name in rows[i]
  {
    seq(|rows|, i requires 0 <= i < |rows| => rows[i][name])
  }

  /** Every row values every named range, and every column is stratified in its range. */
  method Sample(ranges: seq<Range>, n: nat, draw: nat -> nat -> real, pick: nat -> nat -> nat)
    returns (rows: seq<map<Name, real>>)
    requires n > 0
    requires forall i :: 0 <= i < |ranges| ==> ranges[i].minimum < ranges[i].maximum
    requires forall i, k :: 0.0 <= draw(i)(k) < 1.0
    requires forall i, k :: pick(i)(k) <= k
    ensures |rows| == n
    ensures forall i, name :: 0 <= i < n ==> (name in rows[i] <==> Named(ranges, name))
    ensures forall name :: Named(ranges, name) ==> Stratified(ColumnOf(rows, name), RangeOf(ranges, name))
  {
    var columns := Columns(ranges, n, draw, pick);
    rows := [];
    forall name | name in columns ensures |columns[name]| == n {
      assert Fits(columns, ranges, n, name);
    }
    for i := 0 to n
      invariant |rows| == i
      invariant forall k, name :: 0 <= k < i ==> (name in rows[k] <==> name in columns)
      invariant forall k, name :: 0 <= k < i && name in columns ==> rows[k][name] == columns[name][k]
    {
      rows := rows + [map name | name in columns :: columns[name][i]];
    }
    forall name ensures name in columns <==> Named(ranges, name) {
      assert Fits(columns, ranges, n, name);
    }
    forall name | Named(ranges, name) ensures Stratified(ColumnOf(rows, name), RangeOf(ranges, name)) {
      assert Fits(columns, ranges, n, name);
      assert ColumnOf(rows, name) == columns[name];
    }
  }

  method Columns(ranges: seq<Range>, n: nat, draw: nat -> nat -> real, pick: nat -> nat -> nat)
    returns (columns: map<Name, seq<real>>)
    requires n > 0
    requires forall i :: 0 <= i < |ranges| ==> ranges[i].minimum < ranges[i].maximum
    requires forall i, k :: 0.0 <= draw(i)(k) < 1.0
    requires forall i, k :: pick(i)(k) <= k
    ensures forall name :: Fits(columns, ranges, n, name)
  {
    columns := map[];
    for i := 0 to |ranges|
      invariant forall name :: Fits(columns, ranges[..i], n, name)
    {
      var r := ranges[i];
      var column := Column(r, n, draw(i), pick(i));
      assert ranges[..i + 1] == ranges[..i] + [r];
      ghost var before, next := columns, ranges[..i + 1];
      columns := columns[r.name := column];
      forall name ensures Fits(columns, next, n, name) {
        assert Fits(before, ranges[..i], n, name);
        NamedPush(ranges[..i], r, name);
        assert next[..i] == ranges[..i];
      }
    }
    assert ranges[..|ranges|] == ranges;
  }

  lemma NamedPush(ranges: seq<Range>, r: Range, name: Name)
    ensures Named(ranges + [r], name) <==> Named(ranges, name) || name == r.name
  {
    var longer := ranges + [r];
    assert longer[|ranges|] == r;
    if i :| 0 <= i < |ranges| && ranges[i].name == name {
      assert longer[i].name == name;
    }
  }
}

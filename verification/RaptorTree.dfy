/** What a RAPTOR run leaves behind: layers that tile the chunk list, each built from a partition of the one
    below.  `origin[i]` is the set of chunks that chunk i summarises; it is empty for the input chunks. */
module RaptorTree {
  type Interval = (nat, nat)

  function Width(l: Interval): int { l.1 - l.0 }

  /** Contiguous intervals from 0 to n. */
  predicate Tiles(layers: seq<Interval>, n: nat) {
    && layers != [] && layers[0].0 == 0 && layers[|layers| - 1].1 == n
    && (forall k | 0 <= k < |layers| :: layers[k].0 <= layers[k].1)
    && (forall k | 0 <= k < |layers| - 1 :: layers[k].1 == layers[k + 1].0)
  }

  /** Non-empty, pairwise disjoint, and covering lo..hi. */
  predicate Partition(parts: seq<set<nat>>, lo: nat, hi: nat) {
    && (forall k | 0 <= k < |parts| :: parts[k] != {} && forall x | x in parts[k] :: lo <= x < hi)
    && (forall j, k | 0 <= j < k < |parts| :: parts[j] !! parts[k])
    && (forall x: nat | lo <= x < hi :: InSome(parts, x))
  }

  predicate InSome(parts: seq<set<nat>>, x: nat) { exists k | 0 <= k < |parts| :: x in parts[k] }

  /** The first layer is the input; every later layer is empty or summarises a partition of the one below. */
  predicate Built(layers: seq<Interval>, origin: seq<set<nat>>) {
    && Tiles(layers, |origin|)
    && (forall i | 0 <= i < |origin| && i < layers[0].1 :: origin[i] == {})
    && (forall k | 1 <= k < |layers| :: BuiltLayer(layers, origin, k))
  }

  predicate BuiltLayer(layers: seq<Interval>, origin: seq<set<nat>>, k: nat)
    requires 1 <= k < |layers|
  {
    var (a, b) := layers[k];
    a <= b <= |origin| && (a < b ==> Partition(origin[a..b], layers[k - 1].0, layers[k - 1].1))
  }

  /** A summary only summarises chunks before it. */
  predicate Grounded(origin: seq<set<nat>>) { forall i | 0 <= i < |origin| :: forall x | x in origin[i] :: x < i }

  /** The input chunks a chunk stands for. */
  ghost function Leaves(origin: seq<set<nat>>, i: nat): set<nat>
    requires Grounded(origin) && i < |origin|
    decreases i
  {
    if origin[i] == {} then {i} else set j, x | j in origin[i] && x in Leaves(origin, j) :: x
  }

  /** The leaf sets of the chunks lo..hi partition the n input chunks. */
  ghost predicate LeavesPartition(origin: seq<set<nat>>, lo: nat, hi: nat, n: nat)
    requires Grounded(origin) && lo <= hi <= |origin|
  {
    && (forall i | lo <= i < hi :: forall x | x in Leaves(origin, i) :: x < n)
    && (forall i, j | lo <= i < j < hi :: Leaves(origin, i) !! Leaves(origin, j))
    && (forall x: nat | x < n :: LeafOfSome(origin, lo, hi, x))
  }

  ghost predicate LeafOfSome(origin: seq<set<nat>>, lo: nat, hi: nat, x: nat)
    requires Grounded(origin) && lo <= hi <= |origin|
  {
    exists i | lo <= i < hi :: x in Leaves(origin, i)
  }

  lemma {:induction false} LeavesAbove(origin: seq<set<nat>>, i: nat, x: nat)
    requires Grounded(origin) && i < |origin| && origin[i] != {}
    ensures x in Leaves(origin, i) <==> exists j | j in origin[i] :: x in Leaves(origin, j)
  {
  }

  lemma {:induction false} TilesBounds(layers: seq<Interval>, n: nat, k: nat)
    requires Tiles(layers, n) && k < |layers|
    ensures layers[k].1 <= n
    decreases |layers| - k
  {
    if k + 1 < |layers| { TilesBounds(layers, n, k + 1); }
  }

  lemma {:induction false} FirstBelow(layers: seq<Interval>, n: nat, k: nat)
    requires Tiles(layers, n) && k < |layers|
    ensures layers[0].1 <= layers[k].1
    decreases k
  {
    if k > 0 { FirstBelow(layers, n, k - 1); }
  }

  /** Only the first and the non-empty layers before a non-empty layer are non-empty: a layer over an empty
      one is empty. */
  lemma {:induction false} BelowNonEmpty(layers: seq<Interval>, origin: seq<set<nat>>, k: nat)
    requires Built(layers, origin) && 1 <= k < |layers| && layers[k].0 < layers[k].1
    ensures layers[k - 1].0 < layers[k - 1].1
  {
    var (a, b) := layers[k];
    assert BuiltLayer(layers, origin, k);
    var p := origin[a..b][0];
    assert p != {};
    var x :| x in p;
  }

  /** Every non-empty layer stands for the whole input: the leaf sets of its chunks partition it. */
  lemma {:induction false} LayersCoverInput(layers: seq<Interval>, origin: seq<set<nat>>, k: nat)
    requires Built(layers, origin) && Grounded(origin) && k < |layers| && (k > 0 ==> layers[k].0 < layers[k].1)
    ensures layers[k].0 <= layers[k].1 <= |origin|
    ensures LeavesPartition(origin, layers[k].0, layers[k].1, layers[0].1)
    decreases k
  {
    TilesBounds(layers, |origin|, k);
    if k > 0 {
      var (a, b) := layers[k];
      var (p, q) := layers[k - 1];
      var n := layers[0].1;
      BelowNonEmpty(layers, origin, k);
      LayersCoverInput(layers, origin, k - 1);
      assert BuiltLayer(layers, origin, k);
      UpperPartition(origin, a, b, p, q, n);
    } else {
      var n := layers[0].1;
      forall x: nat | x < n ensures LeafOfSome(origin, 0, n, x) { assert x in Leaves(origin, x); }
    }
  }

  lemma {:induction false} UpperPartition(origin: seq<set<nat>>, a: nat, b: nat, p: nat, q: nat, n: nat)
    requires Grounded(origin) && a <= b <= |origin| && p <= q <= |origin|
    requires Partition(origin[a..b], p, q) && LeavesPartition(origin, p, q, n)
    ensures LeavesPartition(origin, a, b, n)
  {
    hide Leaves;
    var parts := origin[a..b];
    forall i, x | a <= i < b && x in Leaves(origin, i) ensures x < n {
      assert parts[i - a] == origin[i];
      LeavesAbove(origin, i, x);
    }
    forall i, j | a <= i < j < b ensures Leaves(origin, i) !! Leaves(origin, j) {
      assert parts[i - a] == origin[i] && parts[j - a] == origin[j];
      DisjointLeaves(origin, i, j, p, q, n);
    }
    forall x: nat | x < n ensures LeafOfSome(origin, a, b, x) {
      assert LeafOfSome(origin, p, q, x);
      var y :| p <= y < q && x in Leaves(origin, y);
      assert InSome(parts, y);
      var m :| 0 <= m < |parts| && y in parts[m];
      assert origin[a + m] == parts[m];
      LeavesAbove(origin, a + m, x);
    }
  }

  lemma {:induction false} DisjointLeaves(origin: seq<set<nat>>, i: nat, j: nat, p: nat, q: nat, n: nat)
    requires Grounded(origin) && i < |origin| && j < |origin| && p <= q <= |origin| && LeavesPartition(origin, p, q, n)
    requires origin[i] != {} && origin[j] != {} && origin[i] !! origin[j]
    requires (forall x | x in origin[i] :: p <= x < q) && (forall x | x in origin[j] :: p <= x < q)
    ensures Leaves(origin, i) !! Leaves(origin, j)
  {
    hide Leaves;
    forall x | x in Leaves(origin, i) ensures x !in Leaves(origin, j) {
      LeavesAbove(origin, i, x);
      LeavesAbove(origin, j, x);
      var y :| y in origin[i] && x in Leaves(origin, y);
      forall z | z in origin[j] ensures x !in Leaves(origin, z) {
        if y < z { assert Leaves(origin, y) !! Leaves(origin, z); } else { assert Leaves(origin, z) !! Leaves(origin, y); }
      }
    }
  }

  // ---------------------------------------------------------------- sizes

  /** The most chunks k layers above the input can add when at most m-1 clusters are formed. */
  function Summaries(m: nat, k: nat): nat
    requires k <= m
  {
    if k == 0 then 0 else Summaries(m, k - 1) + (m - k)
  }

  lemma {:induction false} SummariesGrow(m: nat, j: nat, k: nat)
    requires j <= k <= m
    ensures Summaries(m, j) <= Summaries(m, k)
    decreases k - j
  {
    if j < k { SummariesGrow(m, j, k - 1); }
  }

  lemma {:induction false} SummariesClosedForm(m: nat, k: nat)
    requires k <= m
    ensures 2 * Summaries(m, k) == k * (2 * m - k - 1)
    decreases k
  {
    if k > 0 {
      SummariesClosedForm(m, k - 1);
      assert (k - 1) * (2 * m - k) + 2 * (m - k) == k * (2 * m - k - 1);
    }
  }

  /** Widths of the layers above the input: below m, and strictly falling. */
  predicate Narrowing(layers: seq<Interval>, m: nat) {
    forall k | 1 <= k < |layers| :: Narrows(layers, m, k)
  }

  predicate Narrows(layers: seq<Interval>, m: nat, k: nat)
    requires 1 <= k < |layers|
  {
    Width(layers[k]) < m && Width(layers[k]) < Width(layers[k - 1]) && Width(layers[k - 1]) > 1
  }

  lemma {:induction false} NarrowingBounds(layers: seq<Interval>, n: nat, m: nat, k: nat)
    requires m >= 2 && Tiles(layers, n) && Narrowing(layers, m) && 1 <= k < |layers|
    ensures k < m && Width(layers[k]) <= m - k && layers[k].1 - layers[0].1 <= Summaries(m, k)
    decreases k
  {
    assert Narrows(layers, m, k);
    if k > 1 { NarrowingBounds(layers, n, m, k - 1); }
  }

  /** A run over n chunks with at most m-1 clusters a layer ends with at most m layers and n + m(m-1)/2 chunks. */
  lemma {:induction false} SizeBound(layers: seq<Interval>, total: nat, m: nat)
    requires m >= 2 && Tiles(layers, total) && Narrowing(layers, m)
    ensures |layers| <= m && 2 * (total - layers[0].1) <= m * (m - 1)
  {
    var k := |layers| - 1;
    if k > 0 {
      NarrowingBounds(layers, total, m, k);
      SummariesGrow(m, k, m - 1);
      TopSum(m);
    }
  }

  lemma {:induction false} TopSum(m: nat)
    requires m >= 1
    ensures 2 * Summaries(m, m - 1) == m * (m - 1)
  {
    SummariesClosedForm(m, m - 1);
    assert 2 * m - (m - 1) - 1 == m;
  }
}

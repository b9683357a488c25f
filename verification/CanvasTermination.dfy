/** A canvas whose successor relation has no cycle halts within as many batches as it has components. */
module CanvasTermination {
  import opened CanvasModel
  import opened CanvasInvariants

  predicate IsChain(g: Graph, c: seq<Id>) {
    InGraph(g, c) && forall i | 0 <= i < |c| - 1 :: Steps(g, c[i], c[i + 1])
  }

  ghost predicate Acyclic(g: Graph) {
    forall c: seq<Id> | |c| >= 2 && IsChain(g, c) :: c[0] != c[|c| - 1]
  }

  /** x is the end of a chain of n edges. */
  ghost predicate AtDepth(g: Graph, x: Id, n: nat) {
    exists c: seq<Id> :: |c| == n + 1 && IsChain(g, c) && c[n] == x
  }

  ghost predicate AllAtDepth(g: Graph, path: seq<Id>, from: nat, n: nat)
    requires from <= |path|
  {
    forall k | from <= k < |path| :: AtDepth(g, path[k], n)
  }

  lemma {:induction false} Repeats(c: seq<Id>, s: set<Id>)
    requires |c| > |s| && forall x | x in c :: x in s
    ensures exists i, j :: 0 <= i < j < |c| && c[i] == c[j]
    decreases |c|
  {
    var n := |c| - 1;
    if c[n] in c[..n] {
      var i :| 0 <= i < n && c[i] == c[n];
    } else {
      forall x | x in c[..n] ensures x in s - {c[n]} {}
      Repeats(c[..n], s - {c[n]});
      var i, j :| 0 <= i < j < n && c[..n][i] == c[..n][j];
      assert c[i] == c[j];
    }
  }

  lemma {:induction false} LongChainsCycle(g: Graph, c: seq<Id>)
    requires IsChain(g, c) && |c| > |g.comps|
    ensures !Acyclic(g)
  {
    hide Steps;
    assert |g.comps.Keys| == |g.comps|;
    Repeats(c, g.comps.Keys);
    var i, j :| 0 <= i < j < |c| && c[i] == c[j];
    var d := c[i..j + 1];
    assert IsChain(g, d) by {
      forall k | 0 <= k < |d| - 1 ensures Steps(g, d[k], d[k + 1]) {
        assert d[k] == c[i + k] && d[k + 1] == c[i + k + 1];
      }
    }
    assert |d| >= 2 && d[0] == d[|d| - 1];
  }

  lemma {:induction false} DepthBound(g: Graph, x: Id, n: nat)
    requires Acyclic(g) && AtDepth(g, x, n)
    ensures n < |g.comps|
  {
    var c: seq<Id> :| |c| == n + 1 && IsChain(g, c) && c[n] == x;
    if n >= |g.comps| { LongChainsCycle(g, c); }
  }

  lemma {:induction false} Deeper(g: Graph, y: Id, x: Id, n: nat)
    requires AtDepth(g, y, n) && Steps(g, y, x) && x in g.comps
    ensures AtDepth(g, x, n + 1)
  {
    var c: seq<Id> :| |c| == n + 1 && IsChain(g, c) && c[n] == y;
    var d := c + [x];
    assert IsChain(g, d) by {
      forall i | 0 <= i < |d| - 1 ensures Steps(g, d[i], d[i + 1]) {
        if i < n { assert d[i] == c[i] && d[i + 1] == c[i + 1]; }
      }
    }
  }

  lemma {:induction false} BatchDeepens(g: Graph, w: World, s: State, n: nat)
    requires WellFormed(g) && WorldOk(g, w) && NextOk(g, s.outs) && InGraph(g, s.path) && s.idx <= |s.path|
    requires AllAtDepth(g, s.path, s.idx, n)
    ensures AllAtDepth(g, Batch(g, w, s).path, Batch(g, w, s).to, n + 1)
  {
    hide WellFormed, WorldOk, NextOk, Batch, Steps, AtDepth;
    BatchKeeps(g, w, s);
    var t := Batch(g, w, s);
    forall k | t.to <= k < |t.path| ensures AtDepth(g, t.path[k], n + 1) {
      assert HasSource(g, s.path[s.idx..], t.path[k]);
      var y :| y in s.path[s.idx..] && Steps(g, y, t.path[k]);
      var m :| s.idx <= m < |s.path| && s.path[m] == y;
      Deeper(g, y, t.path[k], n);
    }
  }

  /** Termination: whatever the components, streams and the cancel flag do, an acyclic canvas never needs
      more batches than it has components. */
  lemma {:induction false} Halts(g: Graph, w: World, s: State, fuel: nat, n: nat)
    requires WellFormed(g) && WorldOk(g, w) && NextOk(g, s.outs) && InGraph(g, s.path) && s.idx <= |s.path|
    requires Acyclic(g) && AllAtDepth(g, s.path, s.idx, n) && fuel + n >= |g.comps|
    ensures !RunLoop(g, w, s, fuel).1.OutOfFuel?
    decreases fuel
  {
    hide WellFormed, WorldOk, NextOk, Batch, Steps, AtDepth, Acyclic, FillUps;
    if s.idx < |s.path| {
      DepthBound(g, s.path[s.idx], n);
      if !w.canceled(s.clock) {
        BatchKeeps(g, w, s);
        BatchDeepens(g, w, s, n);
        var t := Batch(g, w, s);
        if t.error == "" && FillUps(g, t.path[t.to..]) == [] {
          Halts(g, w, t.(idx := t.to), fuel - 1, n + 1);
        }
      }
    }
  }

  lemma {:induction false} ResetNextOk(g: Graph, outs: Outs)
    requires "" !in g.comps
    ensures NextOk(g, Reset(outs))
  {
  }

  lemma {:induction false} RunHalts(g: Graph, w: World, s: State, fuel: nat)
    requires WellFormed(g) && WorldOk(g, w) && InGraph(g, s.path)
    requires Acyclic(g) && fuel >= |g.comps|
    ensures !Run(g, w, s, fuel).1.OutOfFuel?
  {
    hide Acyclic, NamedFillUp, Steps, RunLoop, WellFormedComponent;
    var s0 := Start(s);
    ResetNextOk(g, s.outs);
    var last := s0.path[s0.idx];
    assert AtDepth(g, last, 0) by { assert IsChain(g, [last]); }
    Halts(g, w, s0, fuel, 0);
  }
}

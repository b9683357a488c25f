/** Successive runs that carry the path, and what a cancelled run leaves behind. */
module CanvasSessions {
  import opened Options
  import opened CanvasModel
  import opened CanvasInvariants
  import opened CanvasAccounting

  lemma {:induction false} ScanKeepsOnlySupplied(g: Graph, done: seq<Id>, pending: seq<Id>)
    requires Supplied(g, done, |done|)
    requires if done != [] then !NamedFillUp(done[0]) else pending != [] && IsInput(Comp(g, pending[0]).kind) && !NamedFillUp(pending[0])
    ensures |Scan(g, done, pending)| <= |done| + |pending|
    ensures Supplied(g, done + pending, |done + pending|) <==> Scan(g, done, pending) == done + pending
    decreases |pending|
  {
    hide NamedFillUp;
    var all := done + pending;
    if pending == [] {
      assert all == done;
    } else {
      var done1 := done + [pending[0]];
      assert done1 + pending[1..] == all;
      assert all[..|done|] == done == done1[..|done|];
      if Ready(g, done, pending) {
        SuppliedPrefix(g, done, done1, |done|);
        assert Met(g, done1, |done|);
        ScanKeepsOnlySupplied(g, done1, pending[1..]);
      } else {
        assert !Met(g, all, |done|);
        ScanKeepsOnlySupplied(g, done, pending[1..]);
      }
    }
  }

  /** The scan of the pending entries would drop none of them. */
  predicate NothingToDrop(g: Graph, path: seq<Id>, idx: nat)
    requires idx <= |path|
  {
    Scan(g, path[..idx], path[idx..]) == path
  }

  /** A path with pending entries can be trusted exactly when the scan would drop none of them. */
  lemma {:induction false} PendingTrusted(g: Graph, path: seq<Id>, idx: nat)
    requires idx <= |path| && Settled(g, path, idx) && Supplied(g, path, idx)
    ensures Resumable(g, path) <==> NothingToDrop(g, path, idx)
  {
    hide NamedFillUp, Met;
    assert path[..idx] + path[idx..] == path;
    SuppliedPrefix(g, path, path[..idx], idx);
    ScanKeepsOnlySupplied(g, path[..idx], path[idx..]);
  }

  /** Cancellation leaves the pending entries on the path.  The next run may trust that path exactly when the
      cancelled batch would have dropped none of them. */
  lemma {:induction false} CanceledPath(g: Graph, w: World, s: State, fuel: nat)
    requires s.idx < |s.path| && Settled(g, s.path, s.idx) && Supplied(g, s.path, s.idx)
    requires fuel > 0 && w.canceled(s.clock)
    ensures var (r, h) := RunLoop(g, w, s, fuel);
      && h.Canceled? && r.path == s.path && r.idx == s.idx
      && (Resumable(g, r.path) <==> NothingToDrop(g, s.path, s.idx))
  {
    hide NamedFillUp, Met, Resumable, NothingToDrop, Settled, Supplied;
    PendingTrusted(g, s.path, s.idx);
  }

  /** Does a run hand on a path the next one may trust? */
  predicate HandsOn(g: Graph, r: State, h: Halt)
    requires !h.Suspended? ==> r.idx <= |r.path|
  {
    match h
    case Finished => true
    case Errored => true
    case Suspended => false
    case Canceled => NothingToDrop(g, r.path, r.idx)
    case OutOfFuel => NothingToDrop(g, r.path, r.idx)
  }

  lemma {:induction false} RunIndex(g: Graph, w: World, s: State, fuel: nat)
    ensures var (r, h) := Run(g, w, s, fuel); !h.Suspended? ==> r.idx <= |r.path|
  {
  }

  /** Exactly which ways of ending a run keep the closure for the next: a stop for user input does not, for the saved
      path begins at a fill-up, in front of which nothing is required any more; a cancellation does when the
      cancelled batch would have dropped nothing. */
  lemma {:induction false} HandsOnExactly(g: Graph, w: World, s: State, fuel: nat)
    requires WellFormed(g) && Conventional(g) && Resumable(g, s.path)
    ensures var (r, h) := Run(g, w, s, fuel);
      (!h.Suspended? ==> r.idx <= |r.path|) && (Resumable(g, r.path) <==> HandsOn(g, r, h))
  {
    hide WellFormed, Conventional, NamedFillUp, Met, Start, Resumable, NothingToDrop, Settled, Supplied, AlwaysSupplied, RunLoop, Suspend;
    RunSupplied(g, w, s, fuel);
    var (r, h) := Run(g, w, s, fuel);
    if h.Suspended? {
      SavedHead(g, w, Start(s), fuel);
      NotResumable(g, r.path);
    } else if h.Canceled? || h.OutOfFuel? {
      PendingTrusted(g, r.path, r.idx);
    }
  }

  lemma {:induction false} NotResumable(g: Graph, path: seq<Id>)
    requires path != [] && NamedFillUp(path[0])
    ensures !Resumable(g, path)
  {
  }

  /** The path saved for user input begins at a fill-up. */
  lemma {:induction false} SavedHead(g: Graph, w: World, s: State, fuel: nat)
    requires Conventional(g) && s.idx <= |s.path|
    ensures var (r, h) := RunLoop(g, w, s, fuel); h.Suspended? ==> r.path != [] && NamedFillUp(r.path[0])
    decreases fuel
  {
    hide Conventional, NamedFillUp, Batch, FillUps;
    if s.idx < |s.path| && fuel > 0 && !w.canceled(s.clock) {
      var t := Batch(g, w, s);
      if t.error == "" {
        var u := t.(idx := t.to);
        var asked := FillUps(g, u.path[u.idx..]);
        if asked == [] {
          SavedHead(g, w, u, fuel - 1);
        } else {
          FillUpHead(g, u.path[u.idx..]);
          assert Suspend(g, w, u).path[0] == asked[0];
        }
      }
    }
  }

  lemma {:induction false} FillUpHead(g: Graph, ids: seq<Id>)
    requires Conventional(g) && FillUps(g, ids) != []
    ensures NamedFillUp(FillUps(g, ids)[0])
    decreases |ids|
  {
    hide NamedFillUp;
    if Comp(g, ids[0]).kind.UserFillUp? { ByConvention(g, ids[0]); } else { FillUpHead(g, ids[1..]); }
  }

  /** The canvas after a series of runs, as long as each hands on a path to trust. */
  function RunMany(g: Graph, s: State, jobs: seq<(World, nat)>): State
    decreases |jobs|
  {
    if jobs == [] then s
    else
      RunIndex(g, jobs[0].0, s, jobs[0].1);
      var (r, h) := Run(g, jobs[0].0, s, jobs[0].1);
      if HandsOn(g, r, h) then RunMany(g, r, jobs[1..]) else s
  }

  /** Every run of a series keeps the closure at every batch. */
  ghost predicate SeriesSupplied(g: Graph, s: State, jobs: seq<(World, nat)>)
    decreases |jobs|
  {
    if jobs == [] then true
    else
      RunIndex(g, jobs[0].0, s, jobs[0].1);
      var (r, h) := Run(g, jobs[0].0, s, jobs[0].1);
      && AlwaysSupplied(g, jobs[0].0, Start(s), jobs[0].1)
      && (HandsOn(g, r, h) ==> SeriesSupplied(g, r, jobs[1..]))
  }

  /** Dependency closure holds in and across any number of successive runs, whichever way they end, up to the first
      that does not hand on a path to trust. */
  lemma {:induction false} RunManySupplied(g: Graph, s: State, jobs: seq<(World, nat)>)
    requires WellFormed(g) && Conventional(g) && Resumable(g, s.path)
    ensures SeriesSupplied(g, s, jobs) && Resumable(g, RunMany(g, s, jobs).path)
    decreases |jobs|
  {
    hide WellFormed, Conventional, Run, Resumable, AlwaysSupplied, HandsOn, Start;
    if jobs != [] {
      RunSupplied(g, jobs[0].0, s, jobs[0].1);
      HandsOnExactly(g, jobs[0].0, s, jobs[0].1);
      var (r, h) := Run(g, jobs[0].0, s, jobs[0].1);
      if HandsOn(g, r, h) { RunManySupplied(g, r, jobs[1..]); }
    }
  }

  /** begin feeds "a", which reads an output of "x", which nothing reaches. */
  const STRANDED := Graph(["begin", "a", "x"], map[
    "begin" := NO_COMPONENT.(kind := Begin, downstream := ["a"]), "a" := NO_COMPONENT.(refs := ["x"]), "x" := NO_COMPONENT])

  const FRESH := State([], 0, 0, [], "", map[], map[], [], 0, [], [])

  /** Bodies that do nothing, and a cancel flag raised after the first invocation. */
  const IDLE := World((n, id, outs) => (outs, None), (n, id, outs) => (outs, ""), (n, id, outs) => false, n => n == 2)

  lemma {:induction false} StrandedWellFormed()
    ensures WellFormed(STRANDED)
  {
    hide GetStart;
    assert WellFormedComponent(STRANDED, "begin");
    assert WellFormedComponent(STRANDED, "a");
    assert WellFormedComponent(STRANDED, "x");
    assert forall id | id in STRANDED.comps :: id in STRANDED.order;
  }

  lemma {:induction false} FirstBatch(s: State)
    requires s.path == ["begin"] && s.idx == 0 && s.clock == 1 && s.error == "" && s.outs == map[] && s.turn == map[]
    ensures var t := Batch(STRANDED, IDLE, s);
      t.path == ["begin", "a"] && t.to == 1 && t.clock == 2 && t.error == ""
  {
    hide NamedFillUp, WellFormed, Started;
    var g := STRANDED;
    assert s.path[..0] == [] && s.path[0..] == ["begin"];
    assert Scan(g, [], ["begin"]) == ["begin"] by { assert [] + ["begin"] == ["begin"]; }
    var s1 := RunBatch(g, IDLE, s);
    assert s1.path[0] == "begin" && s1.path[0..] == ["begin"];
    assert s1.outs == map[] && s1.clock == 2;
    assert Extend(["begin"], ["a"]) == ["begin", "a"];
    assert PostRange(g, IDLE, s1, 0, 1) == PostOne(g, IDLE, s1, 0);
  }

  /** Dependency closure does fail after a cancelled run: "a" stays on the path without "x" before it, and
      the next run takes it for executed. */
  lemma {:induction false} CanceledRunBreaksClosure()
    ensures WellFormed(STRANDED) && Resumable(STRANDED, FRESH.path)
    ensures var (r, h) := Run(STRANDED, IDLE, FRESH, 3);
      h.Canceled? && r.path == ["begin", "a"] && !Resumable(STRANDED, r.path)
  {
    hide WellFormed, Batch, NamedFillUp, Started;
    StrandedWellFormed();
    var s0 := Start(FRESH);
    FirstBatch(s0);
    var t := Batch(STRANDED, IDLE, s0);
    assert t.path[1..] == ["a"];
    assert FillUps(STRANDED, ["a"]) == [];
    var u := t.(idx := 1);
    assert RunLoop(STRANDED, IDLE, u, 2).1 == Canceled;
    assert !Met(STRANDED, ["begin", "a"], 1) by { assert Comp(STRANDED, "a").refs == ["x"]; assert "x" in ["x"]; }
  }
}

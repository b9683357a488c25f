/** Runs after a stop for user input: while the head of the path names a fill-up nothing is required of what runs. */
module CanvasStops {
  import opened Options
  import opened CanvasModel
  import opened CanvasInvariants
  import opened CanvasSessions

  predicate Waived(path: seq<Id>) { path != [] && NamedFillUp(path[0]) }

  /** Behind a fill-up the scan drops nothing. */
  lemma {:induction false} WaivedScan(g: Graph, done: seq<Id>, pending: seq<Id>)
    requires Waived(done + pending)
    ensures Scan(g, done, pending) == done + pending
    decreases |pending|
  {
    hide NamedFillUp;
    if pending == [] {
      assert done + pending == done;
    } else {
      assert done + [pending[0]] + pending[1..] == done + pending;
      WaivedScan(g, done + [pending[0]], pending[1..]);
    }
  }

  /** At every batch of a run: everything pending is executed, and what was on the path stays in place. */
  ghost predicate AlwaysTaken(g: Graph, w: World, s: State, fuel: nat)
    requires s.idx <= |s.path|
    decreases fuel
  {
    && Waived(s.path)
    && (s.idx < |s.path| && fuel > 0 && !w.canceled(s.clock) ==>
          var t := Batch(g, w, s);
          && s.path <= t.path && t.to == |s.path|
          && (t.error == "" && FillUps(g, t.path[t.to..]) == [] ==> AlwaysTaken(g, w, t.(idx := t.to), fuel - 1)))
  }

  lemma {:induction false} RunLoopTakes(g: Graph, w: World, s: State, fuel: nat)
    requires s.idx <= |s.path| && Waived(s.path)
    ensures AlwaysTaken(g, w, s, fuel)
    decreases fuel
  {
    hide NamedFillUp, FillUps;
    if s.idx < |s.path| && fuel > 0 && !w.canceled(s.clock) {
      WaivedBatch(g, w, s);
      var t := Batch(g, w, s);
      if t.error == "" && FillUps(g, t.path[t.to..]) == [] { RunLoopTakes(g, w, t.(idx := t.to), fuel - 1); }
    }
  }

  lemma {:induction false} WaivedBatch(g: Graph, w: World, s: State)
    requires s.idx <= |s.path| && Waived(s.path)
    ensures var t := Batch(g, w, s); s.path <= t.path && t.to == |s.path| && Waived(t.path)
  {
    hide NamedFillUp;
    assert s.path[..s.idx] + s.path[s.idx..] == s.path;
    WaivedScan(g, s.path[..s.idx], s.path[s.idx..]);
  }

  /** A run handed a path that begins at a fill-up drops nothing, and keeps what was on the path, to its end. */
  lemma {:induction false} RunTakes(g: Graph, w: World, s: State, fuel: nat)
    requires Waived(s.path)
    ensures AlwaysTaken(g, w, Start(s), fuel)
  {
    hide NamedFillUp, Reset;
    RunLoopTakes(g, w, Start(s), fuel);
  }

  // ---------------------------------------------------------------- the closure may fail then

  const FILL_UP := "userfillup:u"

  /** begin feeds a fill-up, which feeds "a", which reads an output of "x", which nothing reaches. */
  const ASKING := Graph(["begin", FILL_UP, "a", "x"], map[
    "begin" := NO_COMPONENT.(kind := Begin, downstream := [FILL_UP]),
    FILL_UP := NO_COMPONENT.(kind := UserFillUp, downstream := ["a"]),
    "a" := NO_COMPONENT.(refs := ["x"]), "x" := NO_COMPONENT])

  /** Bodies that do nothing, and nobody cancels. */
  const QUIET := World((n, id, outs) => (outs, None), (n, id, outs) => (outs, ""), (n, id, outs) => false, n => false)

  lemma {:induction false} AskingWellFormed()
    ensures WellFormed(ASKING)
  {
    hide GetStart, WellFormedComponent;
    forall id | id in ASKING.comps ensures WellFormedComponent(ASKING, id) { EachWellFormed(id); }
    assert forall id | id in ASKING.comps :: id in ASKING.order;
  }

  lemma {:induction false} EachWellFormed(id: Id)
    requires id in ASKING.comps
    ensures WellFormedComponent(ASKING, id)
  {
    hide GetStart;
  }

  lemma {:induction false} FillUpNamed()
    ensures NamedFillUp(FILL_UP) && !NamedFillUp("begin")
  {
    assert OccursAt("userfillup", Lower(FILL_UP), 0) by { assert Lower(FILL_UP) == FILL_UP && FILL_UP[..10] == "userfillup"; }
  }

  predicate Blank(s: State) { s.error == "" && s.outs == map[] && s.turn == map[] && s.partials == [] }

  /** One batch with one entry that may run. */
  lemma {:induction false} OneEntry(s: State, q: seq<Id>, x: Id)
    requires s.path == q + [x] && s.idx == |q| && Blank(s) && x in ["begin", FILL_UP, "a"]
    requires Scan(ASKING, q, [x]) == q + [x]
    ensures var t := Batch(ASKING, QUIET, s);
      Blank(t) && t.path == Extend(s.path, Comp(ASKING, x).downstream) && t.to == |q| + 1
  {
    hide NamedFillUp, Started, Extend, Scan, PostOne, Invoke;
    var g := ASKING;
    assert s.path[..|q|] == q && s.path[|q|..] == [x];
    var s1 := RunBatch(g, QUIET, s);
    assert s1.path[|q|] == x && s1.path[|q|..] == [x];
    var s0 := s.(events := s.events + Started([x]), path := q + [x], to := |q| + 1);
    assert [x][1..] == [];
    assert InvokeAll(g, QUIET, s0, [x]) == Invoke(g, QUIET, s0, x);
    assert s1 == Invoke(g, QUIET, s0, x);
    InvokeNothing(s0, x);
    PostNothing(s1, |q|, x);
    assert PostRange(g, QUIET, s1, |q|, |q| + 1) == PostOne(g, QUIET, s1, |q|);
  }

  lemma {:induction false} InvokeNothing(s: State, x: Id)
    requires Blank(s) && x in ["begin", FILL_UP, "a"]
    ensures Blank(Invoke(ASKING, QUIET, s, x))
  {
  }

  lemma {:induction false} PostNothing(s: State, i: nat, x: Id)
    requires Blank(s) && x in ["begin", FILL_UP, "a"] && i < |s.path| && s.path[i] == x
    ensures var r := PostOne(ASKING, QUIET, s, i); Blank(r) && r.path == Extend(s.path, Comp(ASKING, x).downstream)
  {
    hide Extend;
  }

  /** Dependency closure does fail after a stop: the first run stops at the fill-up, and the second executes "a" although
      "x" never ran. */
  lemma {:induction false} StopBreaksClosure()
    ensures WellFormed(ASKING) && Resumable(ASKING, FRESH.path)
    ensures var (r1, h1) := Run(ASKING, QUIET, FRESH, 3);
      && h1.Suspended? && r1.path == [FILL_UP]
      && var (r2, h2) := Run(ASKING, QUIET, r1, 3);
        h2.Finished? && r2.path == [FILL_UP, "a"] && r2.idx == 2 && !Supplied(ASKING, r2.path, 2)
  {
    hide WellFormed, Batch, NamedFillUp, Scan, Reset;
    AskingWellFormed();
    var r1 := FirstRun();
    SecondRun(r1);
  }

  lemma {:induction false} FirstRun() returns (r1: State)
    ensures Run(ASKING, QUIET, FRESH, 3) == (r1, Suspended) && r1.path == [FILL_UP] && Blank(r1)
  {
    hide Batch, NamedFillUp, Started, Extend;
    var s := Start(FRESH);
    assert s.path == ["begin"] && Blank(s);
    assert [] + ["begin"] == ["begin"];
    assert Scan(ASKING, [], ["begin"]) == ["begin"];
    OneEntry(s, [], "begin");
    ExtendOne(["begin"], FILL_UP);
    var t := Batch(ASKING, QUIET, s);
    assert t.path == ["begin", FILL_UP] && t.path[1..] == [FILL_UP];
    assert FillUps(ASKING, [FILL_UP]) == [FILL_UP] && Others(ASKING, [FILL_UP]) == [];
    var u := t.(idx := 1);
    r1 := Suspend(ASKING, QUIET, u);
    SuspendsBlank(u);
    assert Run(ASKING, QUIET, FRESH, 3) == (r1, Suspended);
  }

  lemma {:induction false} SuspendsBlank(u: State)
    requires Blank(u) && u.idx <= |u.path| && FillUps(ASKING, u.path[u.idx..]) == [FILL_UP] && Others(ASKING, u.path[u.idx..]) == []
    ensures var r := Suspend(ASKING, QUIET, u); Blank(r) && r.path == [FILL_UP]
  {
    hide FillUps, Others;
    assert [FILL_UP] + [] == [FILL_UP] && [FILL_UP][1..] == [];
    assert InvokeAll(ASKING, QUIET, u, [FILL_UP]) == Invoke(ASKING, QUIET, u, FILL_UP);
  }

  lemma {:induction false} SecondRun(r1: State)
    requires r1.path == [FILL_UP] && Blank(r1)
    ensures var (r2, h2) := Run(ASKING, QUIET, r1, 3);
      h2.Finished? && r2.path == [FILL_UP, "a"] && r2.idx == 2 && !Supplied(ASKING, r2.path, 2)
  {
    hide Batch, NamedFillUp, Started, Extend, Scan, Supplied, FillUps;
    FillUpNamed();
    var s := Start(r1);
    assert s.path == [FILL_UP] && Blank(s);
    var t := TakesFillUp(s);
    var u := t.(idx := 1);
    var v := TakesUnmet(u);
    var e := v.(idx := 2);
    assert u.path[1..] == ["a"] && e.path[2..] == [];
    assert FillUps(ASKING, ["a"]) == [] && FillUps(ASKING, []) == [] by { NoneAsked(); }
    LoopStep(s, t, 3);
    LoopStep(u, v, 2);
    assert RunLoop(ASKING, QUIET, e, 1) == (e, Finished);
    assert e.path[..2] == e.path;
    UnmetA();
  }

  lemma {:induction false} LoopStep(s: State, t: State, fuel: nat)
    requires s.idx < |s.path| && fuel > 0 && t == Batch(ASKING, QUIET, s) && t.error == ""
    requires FillUps(ASKING, t.path[t.to..]) == []
    ensures RunLoop(ASKING, QUIET, s, fuel) == RunLoop(ASKING, QUIET, t.(idx := t.to), fuel - 1)
  {
    hide Batch, FillUps;
  }

  lemma {:induction false} NoneAsked()
    ensures FillUps(ASKING, ["a"]) == [] && FillUps(ASKING, []) == []
  {
  }

  lemma {:induction false} UnmetA()
    ensures !Supplied(ASKING, [FILL_UP, "a"], 2)
  {
    assert [FILL_UP, "a"][..1] == [FILL_UP];
    assert "x" in Comp(ASKING, "a").refs;
    assert !Met(ASKING, [FILL_UP, "a"], 1);
  }

  lemma {:induction false} TakesFillUp(s: State) returns (t: State)
    requires s.path == [FILL_UP] && s.idx == 0 && Blank(s)
    ensures t == Batch(ASKING, QUIET, s) && Blank(t) && t.path == [FILL_UP, "a"] && t.to == 1
  {
    hide Batch, NamedFillUp, Extend, Scan;
    FillUpNamed();
    assert [] + [FILL_UP] == [FILL_UP];
    WaivedScan(ASKING, [], [FILL_UP]);
    OneEntry(s, [], FILL_UP);
    ExtendOne([FILL_UP], "a");
    t := Batch(ASKING, QUIET, s);
  }

  /** "a" is executed behind the fill-up, although nothing of "x" is there. */
  lemma {:induction false} TakesUnmet(u: State) returns (v: State)
    requires u.path == [FILL_UP, "a"] && u.idx == 1 && Blank(u)
    ensures v == Batch(ASKING, QUIET, u) && Blank(v) && v.path == [FILL_UP, "a"] && v.to == 2
  {
    hide Batch, NamedFillUp, Extend, Scan;
    FillUpNamed();
    assert [FILL_UP] + ["a"] == u.path;
    WaivedScan(ASKING, [FILL_UP], ["a"]);
    OneEntry(u, [FILL_UP], "a");
    ExtendNone(u.path);
    v := Batch(ASKING, QUIET, u);
  }

  lemma {:induction false} ExtendNone(path: seq<Id>)
    ensures Extend(path, []) == path
  {
  }
}

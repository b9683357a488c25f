/** The scheduler runs an iteration as the reference loop of CanvasIteration does. */
module CanvasIterationRun {
  import opened Options
  import opened CanvasModel
  import opened CanvasIteration

  /** The run from a state between two batches. */
  function Continue(g: Graph, w: World, u: State, fuel: nat): (State, Halt)
    requires u.idx <= |u.path|
  {
    if FillUps(g, u.path[u.idx..]) != [] then (Suspend(g, w, u), Suspended) else RunLoop(g, w, u, fuel)
  }

  predicate Calm(k: Kind) { k.Other? || k.Iteration? || k.IterationItem? }

  lemma {:induction false} CalmPost(g: Graph, w: World, s: State, i: nat)
    requires i < |s.path| && Calm(Comp(g, s.path[i]).kind) && !Failed(s.outs, s.path[i]) && s.error == ""
    ensures var r, id := PostOne(g, w, s, i), s.path[i];
      var ended := Comp(g, id).kind.IterationItem? && TurnOf(s.turn, id) == -1;
      && r.path == Extend(s.path, Successors(g, s, id, ended))
      && r.outs == s.outs && r.turn == s.turn && r.clock == s.clock && r.error == ""
  {
    hide Extend, Failed, Streaming;
    var id := s.path[i];
    var s3 := if IsContainer(Comp(g, id).kind) then s else Finish(s, id);
    var (s1, ended) := ItemEnded(g, w, s3, id);
    assert Successors(g, s1, id, ended) == Successors(g, s, id, ended);
  }

  /** A batch of one ready component. */
  lemma {:induction false} SingleBatch(g: Graph, w: World, s: State, q: seq<Id>, x: Id)
    requires s.path == q + [x] && s.idx == |q| && q != [] && Ready(g, q, [x])
    ensures var s0 := s.(events := s.events + Started(s.path[s.idx..]), to := |s.path|);
      Batch(g, w, s) == PostOne(g, w, Invoke(g, w, s0, x), |q|)
  {
    hide Ready, PostOne, Invoke, Started;
    assert s.path[..|q|] == q && s.path[|q|..] == [x];
    assert Scan(g, q, [x]) == q + [x];
    var s0 := s.(events := s.events + Started(s.path[s.idx..]), to := |s.path|);
    assert InvokeAll(g, w, s0, [x]) == Invoke(g, w, s0, x);
    var s1 := RunBatch(g, w, s);
    assert s1 == Invoke(g, w, s0, x);
    var t := PostOne(g, w, s1, |q|);
    assert PostRange(g, w, s1, |q|, |q| + 1) == PostRange(g, w, t, |q| + 1, |q| + 1);
  }

  /** Where the canvas stands between two batches with one pending entry. */
  predicate Stands(s: State, path: seq<Id>, outs: Outs, clock: nat) {
    s.path == path && path != [] && s.idx == |path| - 1 && s.outs == outs && s.error == "" && s.clock == clock
  }

  /** One batch of a calm component that does not fail. */
  lemma {:induction false} CalmStep(g: Graph, w: World, s: State, q: seq<Id>, x: Id, fuel: nat) returns (t: State)
    requires s.path == q + [x] && s.idx == |q| && q != [] && Ready(g, q, [x]) && s.error == ""
    requires Calm(Comp(g, x).kind) && !Failed(Invoke(g, w, s, x).outs, x) && !w.canceled(s.clock) && fuel > 0
    ensures var s1 := Invoke(g, w, s, x);
      var ended := Comp(g, x).kind.IterationItem? && TurnOf(s1.turn, x) == -1;
      && t.path == Extend(s.path, Successors(g, s1, x, ended)) && t.idx == |s.path| <= |t.path|
      && t.outs == s1.outs && t.turn == s1.turn && t.clock == s1.clock && t.error == ""
    ensures RunLoop(g, w, s, fuel) == Continue(g, w, t, fuel - 1)
  {
    hide Ready, PostOne, Failed, Extend, Successors, Batch, ItemInvoke, IterationInvoke, LoopItemInvoke;
    SingleBatch(g, w, s, q, x);
    var s0 := s.(events := s.events + Started(s.path[s.idx..]), to := |s.path|);
    var s1 := Invoke(g, w, s0, x);
    assert s1.path[|q|] == x;
    CalmPost(g, w, s1, |q|);
    var r := PostOne(g, w, s1, |q|);
    t := r.(idx := r.to);
    SuccessorsOnlyOuts(g, s1, Invoke(g, w, s, x), x, Comp(g, x).kind.IterationItem? && TurnOf(s1.turn, x) == -1);
  }

  lemma {:induction false} BodyPost(g: Graph, w: World, s: State, i: nat)
    requires i < |s.path| && IsBodyKind(Comp(g, s.path[i]).kind) && s.error == ""
    requires !Failed(Spoken(g, w, s, s.path[i]).outs, s.path[i])
    ensures var r, id := PostOne(g, w, s, i), s.path[i];
      && r.path == Extend(s.path, Successors(g, r, id, false))
      && r.outs == Spoken(g, w, s, id).outs && r.turn == s.turn && r.clock == Spoken(g, w, s, id).clock && r.error == ""
  {
    hide Extend, Failed, Streaming, Flush, Successors;
    var id := s.path[i];
    var s1 := Spoken(g, w, s, id);
    var s3 := Finish(s1, id);
    var (s4, ended) := ItemEnded(g, w, s3, id);
    SuccessorsOnlyOuts(g, s4, PostOne(g, w, s, i), id, ended);
  }

  /** After the message branch of post-processing. */
  function Spoken(g: Graph, w: World, s: State, id: Id): State {
    if Comp(g, id).kind.Message? then Speak(w, s, id) else s
  }

  lemma {:induction false} VisitIsSpoken(g: Graph, w: World, s: State, s0: State, id: Id)
    requires IsBodyKind(Comp(g, id).kind) && s0.outs == s.outs && s0.clock == s.clock
    ensures var t := Spoken(g, w, Invoke(g, w, s0, id), id);
      (t.outs, t.clock) == Visit(g, w, id, s.clock, s.outs)
  {
    hide Perform, Streaming, Flush;
  }

  /** One batch of a body component that does not fail. */
  lemma {:induction false} BodyBatch(g: Graph, w: World, s: State, q: seq<Id>, x: Id, fuel: nat) returns (t: State)
    requires s.path == q + [x] && s.idx == |q| && q != [] && Ready(g, q, [x]) && s.error == ""
    requires IsBodyKind(Comp(g, x).kind) && !Failed(Visit(g, w, x, s.clock, s.outs).0, x) && !w.canceled(s.clock) && fuel > 0
    ensures t.path == Extend(s.path, Successors(g, t, x, false)) && t.idx == |s.path| <= |t.path|
    ensures (t.outs, t.clock) == Visit(g, w, x, s.clock, s.outs) && t.turn == s.turn && t.error == ""
    ensures RunLoop(g, w, s, fuel) == Continue(g, w, t, fuel - 1)
  {
    hide Ready, PostOne, Failed, Extend, Successors, Batch, Visit, Spoken, ItemInvoke, IterationInvoke, LoopItemInvoke;
    SingleBatch(g, w, s, q, x);
    var s0 := s.(events := s.events + Started(s.path[s.idx..]), to := |s.path|);
    var s1 := Invoke(g, w, s0, x);
    assert s1.path[|q|] == x;
    VisitIsSpoken(g, w, s, s0, x);
    BodyPost(g, w, s1, |q|);
    var r := PostOne(g, w, s1, |q|);
    t := r.(idx := r.to);
    SuccessorsOnlyOuts(g, r, t, x, false);
  }

  lemma {:induction false} SuccessorsOnlyOuts(g: Graph, s: State, s': State, id: Id, ended: bool)
    requires s.outs == s'.outs
    ensures Successors(g, s, id, ended) == Successors(g, s', id, ended)
  {
  }

  lemma {:induction false} ContinueOne(g: Graph, w: World, t: State, fuel: nat, y: Id)
    requires t.idx <= |t.path| && t.path[t.idx..] == [y] && !Comp(g, y).kind.UserFillUp?
    ensures Continue(g, w, t, fuel) == RunLoop(g, w, t, fuel)
  {
    assert FillUps(g, [y]) == [];
  }

  // ---------------------------------------------------------------- one step of the iteration

  /** The path after `before` when k passes are done and the item is due again. */
  function Trail(c: Setting, before: seq<Id>, k: nat): seq<Id> {
    if k == 0 then before + [c.it, c.im] else Trail(c, before, k - 1) + c.chain + [c.im]
  }

  lemma {:induction false} TrailHas(c: Setting, before: seq<Id>, k: nat)
    ensures before + [c.it, c.im] <= Trail(c, before, k)
    ensures var p := Trail(c, before, k); p[|p| - 1] == c.im
    decreases k
  {
    if k > 0 { TrailHas(c, before, k - 1); }
  }

  lemma {:induction false} ReadyBy(g: Graph, have: seq<Id>, done: seq<Id>, x: Id)
    requires (forall r | r in Comp(g, x).refs :: r in have) && (forall r | r in have :: r in done)
    ensures Ready(g, done, [x])
  {
  }

  /** The path has the item once more than there were passes, and every member of the body once a pass. */
  lemma {:induction false} TrailCounts(c: Setting, before: seq<Id>, k: nat, x: Id)
    requires Applies(c)
    ensures multiset(Trail(c, before, k))[x] == multiset(before)[x] +
            if x == c.it then 1 else if x == c.im then k + 1 else if x in c.chain then k else 0
    decreases k
  {
    hide Applies, Trail;
    Disjoint(c);
    TrailStep(c, before, k);
    CountOne(c.im, x);
    if k > 0 {
      TrailCounts(c, before, k - 1, x);
      DistinctBody(c);
      OnceEach(c.chain, x);
      CountThree(Trail(c, before, k - 1), c.chain, [c.im], x);
    } else {
      CountOne(c.it, x);
      CountThree(before, [c.it], [c.im], x);
    }
  }

  lemma {:induction false} TrailStep(c: Setting, before: seq<Id>, k: nat)
    ensures Trail(c, before, k) == if k == 0 then before + [c.it] + [c.im] else Trail(c, before, k - 1) + c.chain + [c.im]
  {
    assert before + [c.it] + [c.im] == before + [c.it, c.im];
  }

  lemma {:induction false} CountThree(a: seq<Id>, b: seq<Id>, d: seq<Id>, x: Id)
    ensures multiset(a + b + d)[x] == multiset(a)[x] + multiset(b)[x] + multiset(d)[x]
  {
  }

  lemma {:induction false} CountOne(y: Id, x: Id)
    ensures multiset([y])[x] == if x == y then 1 else 0
  {
  }

  lemma {:induction false} DistinctBody(c: Setting)
    requires Applies(c)
    ensures forall i, j | 0 <= i < j < |c.chain| :: c.chain[i] != c.chain[j]
  {
  }

  lemma {:induction false} OnceEach(chain: seq<Id>, x: Id)
    requires forall i, j | 0 <= i < j < |chain| :: chain[i] != chain[j]
    ensures multiset(chain)[x] == if x in chain then 1 else 0
    decreases |chain|
  {
    if chain != [] {
      OnceEach(chain[1..], x);
      assert chain == [chain[0]] + chain[1..];
      forall j | 0 <= j < |chain[1..]| ensures chain[1..][j] != chain[0] { assert chain[j + 1] != chain[0]; }
    }
  }

  predicate Placed(c: Setting, before: seq<Id>) {
    before != [] && InputsReady(c.g, before, c.it, c.im, c.chain)
  }

  /** Passing the item before element k. */
  lemma {:induction false} ItemOffers(c: Setting, before: seq<Id>, s: State, k: nat, outs: Outs, fuel: nat) returns (t: State)
    requires Applies(c) && Placed(c, before) && k < |c.arr| && fuel > 0
    requires Stands(s, Trail(c, before, k), outs, ItemClock(c, k)) && TurnOf(s.turn, c.im) == k
    requires outs == if k == 0 then c.outs else AfterPass(c, k - 1)
    ensures Stands(t, Trail(c, before, k) + [c.chain[0]], Offered(c, k), ItemClock(c, k) + 4)
    ensures TurnOf(t.turn, c.im) == k + 1
    ensures RunLoop(c.g, c.w, s, fuel) == RunLoop(c.g, c.w, t, fuel - 1)
  {
    hide Applies, Placed, AfterPass, Collected, Offer, Extend, Trail, RunLoop, Ready, Failed, Successors, Invoke, Continue;
    var p := Trail(c, before, k);
    TrailHas(c, before, k);
    var q := p[..|p| - 1];
    assert p == q + [c.im];
    ItemReady(c, before, k);
    ItemFacts(c);
    Quiet(c, k);
    ItemStepOuts(c, s, k, outs);
    t := CalmStep(c.g, c.w, s, q, c.im, fuel);
    assert Successors(c.g, Invoke(c.g, c.w, s, c.im), c.im, false) == [c.chain[0]];
    ExtendOne(p, c.chain[0]);
    assert t.path[t.idx..] == [c.chain[0]];
    ContinueOne(c.g, c.w, t, fuel - 1, c.chain[0]);
  }

  lemma {:induction false} ItemFacts(c: Setting)
    requires Applies(c)
    ensures Comp(c.g, c.im).kind.IterationItem? && c.chain != []
    ensures c.chain[0] != c.im && !Comp(c.g, c.chain[0]).kind.UserFillUp?
    ensures forall s: State :: Successors(c.g, s, c.im, false) == [c.chain[0]]
    ensures forall s: State :: Successors(c.g, s, c.im, true) == Comp(c.g, c.it).downstream
  {
    hide Collectable, QuietBody, Resolve, GetStart;
    assert InBody(c.g, c.it, c.chain, 0);
    assert c.chain[0] in c.chain;
  }

  lemma {:induction false} ItemReady(c: Setting, before: seq<Id>, k: nat)
    requires Placed(c, before)
    ensures var p := Trail(c, before, k); |p| > |before| + 1 && Ready(c.g, p[..|p| - 1], [c.im])
  {
    hide Ready, Trail;
    TrailHas(c, before, k);
    var p := Trail(c, before, k);
    forall r | r in before + [c.it] ensures r in p[..|p| - 1] {
      var i :| 0 <= i < |before| + 1 && (before + [c.it])[i] == r;
      assert p[..|p| - 1][i] == r;
    }
    ReadyBy(c.g, before + [c.it], p[..|p| - 1], c.im);
  }

  /** What the item finds when it is invoked at turn k. */
  lemma {:induction false} ItemFinds(c: Setting, outs: Outs, k: nat)
    requires Applies(c) && k <= |c.arr| && outs == if k == 0 then c.outs else AfterPass(c, k - 1)
    ensures Comp(c.g, c.im).kind.IterationItem? && Comp(c.g, c.im).parent == Some(c.it)
    ensures Resolve(c.g, outs, Comp(c.g, c.it).itemsRef) == Some(List(c.arr))
    ensures Collected(c, k) == if k > 0 then Collate(outs, c.it, Targets(c.g, c.it, c.g.order)).0 else outs
    ensures k > 0 ==> Collate(outs, c.it, Targets(c.g, c.it, c.g.order)).1
    ensures !Failed(Collected(c, k), c.im)
  {
    hide Applies, Intact, Appendable, DistinctKeys, AfterPass, Resolve, Collate, Targets, Failed;
    ReferenceIntact(c, k);
    ItemKind(c);
    NotFailed(c, Collected(c, k), k);
    if k == 0 {
      IntactList(c, outs, 0);
    } else {
      ReferenceIntact(c, k - 1);
      IntactList(c, outs, k - 1);
      IntactAppendable(c, outs, k - 1);
      CollateElsewhere(outs, c.it, Targets(c.g, c.it, c.g.order), "");
    }
  }

  lemma {:induction false} ItemKind(c: Setting)
    requires Applies(c)
    ensures Comp(c.g, c.im).kind.IterationItem? && Comp(c.g, c.im).parent == Some(c.it)
  {
  }

  lemma {:induction false} NotFailed(c: Setting, outs: Outs, k: nat)
    requires k <= |c.arr| && Intact(c, outs, k)
    ensures !Failed(outs, c.im)
  {
  }

  /** What the item does at turn k, before the list is exhausted. */
  lemma {:induction false} ItemStepOuts(c: Setting, s: State, k: nat, outs: Outs)
    requires Applies(c) && k < |c.arr| && s.outs == outs && s.clock == ItemClock(c, k) && TurnOf(s.turn, c.im) == k
    requires outs == if k == 0 then c.outs else AfterPass(c, k - 1)
    ensures var s1 := Invoke(c.g, c.w, s, c.im);
      && s1.outs == Offer(Collected(c, k), c.im, c.arr[k], k) && TurnOf(s1.turn, c.im) == k + 1
      && s1.clock == s.clock + 4 && !Failed(s1.outs, c.im)
  {
    hide Applies, AfterPass, Collected, Resolve, Collate, Targets, ItemClock, PassRuns, Failed, Offer;
    Quiet(c, k);
    ItemFinds(c, outs, k);
    OfferKeepsError(Collected(c, k), c.im, c.arr[k], k);
    OfferIs(Collected(c, k), c.im, c.arr[k], k);
  }

  lemma {:induction false} OfferKeepsError(outs: Outs, im: Id, v: Value, k: int)
    ensures Failed(Offer(outs, im, v, k), im) == Failed(outs, im)
  {
  }

  lemma {:induction false} OfferIs(outs: Outs, im: Id, v: Value, k: int)
    ensures Offer(outs, im, v, k) == SetOutput(SetOutput(outs, im, "item", v), im, "index", Num(k))
  {
  }

  /** At the end of the list the item collects once more and ends the iteration. */
  lemma {:induction false} ItemEnds(c: Setting, before: seq<Id>, s: State, outs: Outs, fuel: nat) returns (t: State)
    requires Applies(c) && Placed(c, before) && fuel > 0
    requires var n := |c.arr|;
      && Stands(s, Trail(c, before, n), outs, ItemClock(c, n)) && TurnOf(s.turn, c.im) == n
      && outs == if n == 0 then c.outs else AfterPass(c, n - 1)
    ensures var n := |c.arr|; var p := Trail(c, before, n);
      && t.path == Extend(p, Comp(c.g, c.it).downstream) && t.idx == |p| <= |t.path| && t.error == ""
      && t.outs == Collected(c, n) && TurnOf(t.turn, c.im) == -1 && t.clock == ItemClock(c, n) + 4
    ensures RunLoop(c.g, c.w, s, fuel) == Continue(c.g, c.w, t, fuel - 1)
  {
    hide Applies, Placed, AfterPass, Collected, Extend, Trail, RunLoop, Ready, Failed, Successors, Invoke, Continue;
    var n := |c.arr|;
    var p := Trail(c, before, n);
    TrailHas(c, before, n);
    var q := p[..|p| - 1];
    assert p == q + [c.im];
    ItemReady(c, before, n);
    ItemFacts(c);
    Quiet(c, n);
    ItemEndOuts(c, s, outs);
    t := CalmStep(c.g, c.w, s, q, c.im, fuel);
  }

  lemma {:induction false} ItemEndOuts(c: Setting, s: State, outs: Outs)
    requires Applies(c) && s.outs == outs && s.clock == ItemClock(c, |c.arr|) && TurnOf(s.turn, c.im) == |c.arr|
    requires outs == if |c.arr| == 0 then c.outs else AfterPass(c, |c.arr| - 1)
    ensures var s1 := Invoke(c.g, c.w, s, c.im);
      && s1.outs == Collected(c, |c.arr|) && TurnOf(s1.turn, c.im) == -1
      && s1.clock == s.clock + 4 && !Failed(s1.outs, c.im)
  {
    hide Applies, AfterPass, Collected, Resolve, Collate, Targets, ItemClock;
    Quiet(c, |c.arr|);
    ItemFinds(c, outs, |c.arr|);
  }

  /** One component of the chain, in whatever pass; after the last one the item is due again. */
  lemma {:induction false} BodyStep(c: Setting, before: seq<Id>, s: State, k: nat, j: nat, clock: nat, outs: Outs, fuel: nat) returns (t: State)
    requires Applies(c) && Placed(c, before) && j < |c.chain| && fuel > 0
    requires Stands(s, Trail(c, before, k) + c.chain[..j + 1], outs, clock) && PassRuns(c.g, c.w, c.chain[j..], clock, outs)
    ensures var next := if j + 1 < |c.chain| then c.chain[j + 1] else c.im;
      var (o, after) := Visit(c.g, c.w, c.chain[j], clock, outs);
      && Stands(t, s.path + [next], o, after) && t.turn == s.turn && PassRuns(c.g, c.w, c.chain[j + 1..], after, o)
    ensures RunLoop(c.g, c.w, s, fuel) == RunLoop(c.g, c.w, t, fuel - 1)
  {
    hide Applies, Placed, Extend, Trail, RunLoop, Ready, Failed, Successors, Continue, Visit, PassRuns;
    var b := c.chain[j];
    var q := Trail(c, before, k) + c.chain[..j];
    assert s.path == q + [b];
    BodyReady(c, before, k, j);
    BodyFacts(c, j);
    RunsOn(c, j, clock, outs);
    t := BodyBatch(c.g, c.w, s, q, b, fuel);
    var next := if j + 1 < |c.chain| then c.chain[j + 1] else c.im;
    assert Successors(c.g, t, b, false) == [next];
    ExtendOne(s.path, next);
    assert t.path[t.idx..] == [next];
    ContinueOne(c.g, c.w, t, fuel - 1, next);
  }

  lemma {:induction false} RunsOn(c: Setting, j: nat, clock: nat, outs: Outs)
    requires j < |c.chain| && PassRuns(c.g, c.w, c.chain[j..], clock, outs)
    ensures var (o, after) := Visit(c.g, c.w, c.chain[j], clock, outs);
      && !c.w.canceled(clock) && !Failed(o, c.chain[j]) && PassRuns(c.g, c.w, c.chain[j + 1..], after, o)
  {
    hide Visit, Failed, SameOutside;
    assert c.chain[j..][0] == c.chain[j] && c.chain[j..][1..] == c.chain[j + 1..];
  }

  lemma {:induction false} BodyFacts(c: Setting, j: nat)
    requires Applies(c) && j < |c.chain|
    ensures var b, next := c.chain[j], if j + 1 < |c.chain| then c.chain[j + 1] else c.im;
      && IsBodyKind(Comp(c.g, b).kind) && b != next && !Comp(c.g, next).kind.UserFillUp?
      && forall s: State :: Successors(c.g, s, b, false) == [next]
  {
    hide Collectable, QuietBody, Failed, Resolve, GetStart;
    assert InBody(c.g, c.it, c.chain, j);
    if j + 1 < |c.chain| { assert InBody(c.g, c.it, c.chain, j + 1); }
    assert c.chain[j] in c.chain;
  }

  lemma {:induction false} BodyReady(c: Setting, before: seq<Id>, k: nat, j: nat)
    requires Placed(c, before) && j < |c.chain|
    ensures var q := Trail(c, before, k) + c.chain[..j]; q != [] && Ready(c.g, q, [c.chain[j]])
  {
    hide Ready, Trail;
    TrailHas(c, before, k);
    var p := Trail(c, before, k);
    var have := before + [c.it, c.im];
    forall r | r in have + c.chain[..j] ensures r in p + c.chain[..j] {
      if r in have {
        var i :| 0 <= i < |have| && have[i] == r;
        assert p[i] == r;
      }
    }
    ReadyBy(c.g, have + c.chain[..j], p + c.chain[..j], c.chain[j]);
  }

  /** The rest of pass k from its j-th component on. */
  lemma {:induction false} RestOfPass(c: Setting, before: seq<Id>, s: State, k: nat, j: nat, fuel: nat) returns (t: State)
    requires Applies(c) && Placed(c, before) && k < |c.arr| && j < |c.chain| && fuel >= |c.chain| - j
    requires Stands(s, Trail(c, before, k) + c.chain[..j + 1], s.outs, s.clock) && PassRuns(c.g, c.w, c.chain[j..], s.clock, s.outs)
    requires Pass(c.g, c.w, c.chain[j..], s.clock, s.outs) == PassEnd(c, k)
    ensures Stands(t, Trail(c, before, k + 1), AfterPass(c, k), ItemClock(c, k + 1)) && t.turn == s.turn
    ensures RunLoop(c.g, c.w, s, fuel) == RunLoop(c.g, c.w, t, fuel - (|c.chain| - j))
    decreases |c.chain| - j
  {
    hide Applies, Placed, RunLoop, Visit, PassRuns, PassEnd, Pass;
    var u := BodyStep(c, before, s, k, j, s.clock, s.outs, fuel);
    PassFrom(c, j, s.clock, s.outs);
    if j + 1 < |c.chain| {
      assert c.chain[..j + 2] == c.chain[..j + 1] + [c.chain[j + 1]];
      assert s.path + [c.chain[j + 1]] == Trail(c, before, k) + c.chain[..j + 2];
      t := RestOfPass(c, before, u, k, j + 1, fuel - 1);
    } else {
      assert c.chain[..j + 1] == c.chain;
      t := u;
    }
  }

  lemma {:induction false} PassFrom(c: Setting, j: nat, clock: nat, outs: Outs)
    requires j < |c.chain|
    ensures var (o, after) := Visit(c.g, c.w, c.chain[j], clock, outs);
      && Pass(c.g, c.w, c.chain[j..], clock, outs) == Pass(c.g, c.w, c.chain[j + 1..], after, o)
      && (j + 1 == |c.chain| ==> Pass(c.g, c.w, c.chain[j..], clock, outs) == (o, after))
  {
    hide Visit;
    assert c.chain[j..][0] == c.chain[j] && c.chain[j..][1..] == c.chain[j + 1..];
  }

  /** The rest of the iteration when k passes are done. */
  lemma {:induction false} RestOfIteration(c: Setting, before: seq<Id>, s: State, k: nat, outs: Outs, fuel: nat) returns (t: State)
    requires Applies(c) && Placed(c, before) && k <= |c.arr| && fuel > Visits(|c.arr| - k, |c.chain|)
    requires Stands(s, Trail(c, before, k), outs, ItemClock(c, k)) && TurnOf(s.turn, c.im) == k
    requires outs == if k == 0 then c.outs else AfterPass(c, k - 1)
    ensures var n := |c.arr|; var p := Trail(c, before, n);
      && t.path == Extend(p, Comp(c.g, c.it).downstream) && t.idx == |p| <= |t.path| && t.error == ""
      && t.outs == Collected(c, n) && TurnOf(t.turn, c.im) == -1 && t.clock == ItemClock(c, n) + 4
    ensures RunLoop(c.g, c.w, s, fuel) == Continue(c.g, c.w, t, fuel - Visits(|c.arr| - k, |c.chain|) - 1)
    decreases |c.arr| - k
  {
    hide Placed, Collected, RunLoop, AfterPass, Trail, Continue, ChainBody, Collectable, QuietBody, Resolve, Offered, Pass, PassEnd, PassRuns;
    if k == |c.arr| {
      t := ItemEnds(c, before, s, outs, fuel);
    } else {
      var m := |c.chain|;
      ChainNonEmpty(c);
      var u := ItemOffers(c, before, s, k, outs, fuel);
      assert c.chain[..1] == [c.chain[0]] && c.chain[0..] == c.chain;
      Quiet(c, k);
      assert Pass(c.g, c.w, c.chain, u.clock, u.outs) == PassEnd(c, k) by { EndOfPass(c, k); }
      var v := RestOfPass(c, before, u, k, 0, fuel - 1);
      t := RestOfIteration(c, before, v, k + 1, AfterPass(c, k), fuel - 1 - m);
    }
  }

  lemma {:induction false} EndOfPass(c: Setting, k: nat)
    requires k < |c.arr|
    ensures PassEnd(c, k) == Pass(c.g, c.w, c.chain, ItemClock(c, k) + 4, Offered(c, k))
  {
  }

  lemma {:induction false} ChainNonEmpty(c: Setting)
    requires Applies(c)
    ensures c.chain != []
  {
  }

  /** The batches an iteration over n elements with a body of m components takes. */
  function Cost(n: nat, m: nat): nat { Visits(n, m) + 2 }

  /** Iteration is a map.  From a batch holding just the iteration, at its first entry, the run visits the item
      n+1 times and the chain n times, in alternation; pass i sees element i and index i; the collected
      outputs end as the lists of the passes' results in order (untouched when n is 0); and the iteration's
      successors are scheduled. */
  lemma {:induction false} IterationIsMap(g: Graph, w: World, s: State, it: Id, im: Id, chain: seq<Id>, arr: seq<Value>,
                       before: seq<Id>, fuel: nat) returns (t: State)
    requires var c := Setting(g, w, it, im, chain, arr, s.clock + 2, s.outs);
      && Applies(c) && Placed(c, before) && !Failed(s.outs, it) && !w.canceled(s.clock) && !w.canceled(s.clock + 1)
    requires Stands(s, before + [it], s.outs, s.clock) && TurnOf(s.turn, im) == 0 && fuel >= Cost(|arr|, |chain|)
    ensures var c := Setting(g, w, it, im, chain, arr, s.clock + 2, s.outs);
      var p := Trail(c, before, |arr|);
      && t.path == Extend(p, g.comps[it].downstream) && t.idx == |p| <= |t.path| && t.error == ""
      && (forall x | x in g.comps[it].collects ::
            if arr == [] then Output(t.outs, it, x.key) == Output(s.outs, it, x.key)
            else Output(t.outs, it, x.key) == List(Results(c, x.ref, |arr|)))
      && (forall x :: multiset(p)[x] == multiset(before)[x] +
            if x == it then 1 else if x == im then |arr| + 1 else if x in chain then |arr| else 0)
      && RunLoop(g, w, s, fuel) == Continue(g, w, t, fuel - Cost(|arr|, |chain|))
  {
    hide Applies, Placed, RunLoop, Continue, Trail, Results, Failed, Extend, Visits;
    var c := Setting(g, w, it, im, chain, arr, s.clock + 2, s.outs);
    assert it in g.comps by { IterationInGraph(c); }
    var u := EnterIteration(c, before, s, fuel);
    t := RestOfIteration(c, before, u, 0, c.outs, fuel - 1);
    ReferenceIntact(c, |arr|);
    forall x ensures multiset(Trail(c, before, |arr|))[x] == multiset(before)[x] +
        if x == it then 1 else if x == im then |arr| + 1 else if x in chain then |arr| else 0
    {
      TrailCounts(c, before, |arr|, x);
    }
  }

  lemma {:induction false} IterationInGraph(c: Setting)
    requires Applies(c)
    ensures c.it in c.g.comps
  {
  }

  /** Invoking the iteration finds a list and changes nothing. */
  lemma {:induction false} EntryOuts(c: Setting, s: State)
    requires Applies(c) && s.outs == c.outs && !c.w.canceled(s.clock + 1)
    ensures Invoke(c.g, c.w, s, c.it).outs == c.outs
  {
    hide QuietBody, Collectable;
  }

  lemma {:induction false} EntryFacts(c: Setting)
    requires Applies(c)
    ensures Comp(c.g, c.it).kind.Iteration? && c.it != c.im && !Comp(c.g, c.im).kind.UserFillUp?
    ensures forall s: State :: Successors(c.g, s, c.it, false) == [c.im]
  {
    hide QuietBody, Collectable, Resolve, Failed, GetStart;
  }

  lemma {:induction false} EnterIteration(c: Setting, before: seq<Id>, s: State, fuel: nat) returns (t: State)
    requires Applies(c) && Placed(c, before) && !Failed(s.outs, c.it) && !c.w.canceled(s.clock) && !c.w.canceled(s.clock + 1) && fuel > 0
    requires c.outs == s.outs && c.clock == s.clock + 2
    requires Stands(s, before + [c.it], s.outs, s.clock)
    ensures Stands(t, Trail(c, before, 0), c.outs, ItemClock(c, 0)) && t.turn == s.turn
    ensures RunLoop(c.g, c.w, s, fuel) == RunLoop(c.g, c.w, t, fuel - 1)
  {
    hide Applies, Extend, RunLoop, Ready, Failed, Continue, Successors, IterationInvoke;
    EntryOuts(c, s);
    EntryFacts(c);
    assert Ready(c.g, before, [c.it]) by { ReadyBy(c.g, before, before, c.it); }
    t := CalmStep(c.g, c.w, s, before, c.it, fuel);
    ExtendOne(s.path, c.im);
    assert t.path == before + [c.it, c.im];
    assert t.path[t.idx..] == [c.im];
    ContinueOne(c.g, c.w, t, fuel - 1, c.im);
  }
}

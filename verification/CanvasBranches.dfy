/** Branches of a canvas that run side by side: what one of them cannot touch of another, batch by batch. */
module CanvasBranches {
  import opened Options
  import opened CanvasModel
  import opened CanvasInvariants
  import opened CanvasIteration
  import opened CanvasIterationRun

  /** The outputs of the components in `keep` are the same. */
  ghost predicate Agree(a: Outs, b: Outs, keep: set<Id>) {
    forall x | x in keep :: (x in a <==> x in b) && (x in a ==> a[x] == b[x])
  }

  /** A component body and a message stream write outputs of their own component only. */
  ghost predicate OwnOutputs(w: World, ids: set<Id>) {
    forall n, id, outs | id in ids :: SameOutside(outs, w.invoke(n, id, outs).0, [id]) && SameOutside(outs, w.drain(n, id, outs).0, [id])
  }

  /** The branches made of `others` lead nowhere else, and have nothing to do with `keep`. */
  ghost predicate Foreign(g: Graph, w: World, others: set<Id>, keep: set<Id>) {
    && WellFormed(g) && WorldOk(g, w) && others !! keep && OwnOutputs(w, others)
    && (forall y | y in others :: y in g.comps && (g.comps[y].parent.Some? ==> g.comps[y].parent.value in others))
    && (forall y, z | y in others && Steps(g, y, z) :: z in others)
  }

  predicate AllIn(ids: seq<Id>, others: set<Id>) { forall x | x in ids :: x in others }

  /** What a branch leaves alone of a state: the outputs in `keep`, and the turns of items there. */
  ghost predicate Kept(s: State, t: State, keep: set<Id>) {
    Agree(s.outs, t.outs, keep) && forall x | x in keep :: TurnOf(s.turn, x) == TurnOf(t.turn, x)
  }

  lemma {:induction false} KeptTrans(a: State, b: State, c: State, keep: set<Id>)
    requires Kept(a, b, keep) && Kept(b, c, keep)
    ensures Kept(a, c, keep)
  {
  }

  lemma {:induction false} AgreeOutput(a: Outs, b: Outs, keep: set<Id>, id: Id)
    requires Agree(a, b, keep) && id in keep
    ensures forall name :: Output(a, id, name) == Output(b, id, name)
    ensures Failed(a, id) == Failed(b, id) && Streaming(a, id) == Streaming(b, id)
  {
  }

  lemma {:induction false} AgreeSet(outs: Outs, id: Id, name: string, v: Value, keep: set<Id>)
    requires id !in keep
    ensures Agree(outs, SetOutput(outs, id, name, v), keep)
  {
  }

  lemma {:induction false} AgreeOwn(a: Outs, b: Outs, id: Id, keep: set<Id>)
    requires SameOutside(a, b, [id]) && id !in keep
    ensures Agree(a, b, keep)
  {
  }

  lemma {:induction false} RaiseAgrees(c: Component, outs: Outs, id: Id, msg: string, keep: set<Id>)
    requires id !in keep
    ensures Agree(outs, Raise(c, outs, id, msg), keep)
  {
  }

  lemma {:induction false} CollateAgrees(outs: Outs, pid: Id, ts: seq<Collect>, keep: set<Id>)
    requires pid !in keep
    ensures Agree(outs, Collate(outs, pid, ts).0, keep)
    decreases |ts|
  {
    if ts != [] {
      var res := Output(outs, pid, ts[0].key);
      var v := List((if res.List? then res.items else []) + [Output(outs, ts[0].ref.cid, ts[0].ref.name)]);
      AgreeSet(outs, pid, ts[0].key, v, keep);
      CollateAgrees(SetOutput(outs, pid, ts[0].key, v), pid, ts[1..], keep);
    }
  }

  // ---------------------------------------------------------------- invocations of another branch

  lemma {:induction false} ParentApart(g: Graph, w: World, others: set<Id>, keep: set<Id>, y: Id)
    requires Foreign(g, w, others, keep) && y in others
    ensures y in g.comps && y !in keep && Comp(g, y) == g.comps[y]
    ensures g.comps[y].kind.IterationItem? ==> g.comps[y].parent.Some? && g.comps[y].parent.value !in keep
  {
    hide WorldOk, OwnOutputs, Steps;
    assert WellFormedComponent(g, y);
  }

  lemma {:induction false} ForeignItem(g: Graph, w: World, others: set<Id>, keep: set<Id>, clock: nat, outs: Outs, turn: map<Id, int>, y: Id)
    requires Foreign(g, w, others, keep) && y in others && Comp(g, y).kind.IterationItem?
    ensures var (o, t) := ItemInvoke(g, w, clock, outs, turn, y);
      Agree(outs, o, keep) && forall x | x in keep :: TurnOf(turn, x) == TurnOf(t, x)
  {
    hide Foreign, Raise, Collate, Targets, Resolve, SetOutput, Agree, Notice;
    ParentApart(g, w, others, keep, y);
    var c := Comp(g, y);
    var pid := c.parent.value;
    var ts := Targets(g, pid, g.order);
    CollateAgrees(outs, pid, ts, keep);
    var k := TurnOf(turn, y);
    var outs1 := if k > 0 then Collate(outs, pid, ts).0 else outs;
    assert Agree(outs, outs1, keep) by { SelfAgree(outs, keep); }
    forall o, msg ensures Agree(o, Raise(c, o, y, msg), keep) { RaiseAgrees(c, o, y, msg, keep); }
    forall o ensures Agree(o, Notice(o, y), keep) { NoticeAgrees(o, y, keep); }
    forall v: Value ensures Agree(outs1, SetOutput(SetOutput(outs1, y, "item", v), y, "index", Num(k)), keep) {
      AgreeSet(outs1, y, "item", v, keep);
      AgreeSet(SetOutput(outs1, y, "item", v), y, "index", Num(k), keep);
      AgreeTrans(outs1, SetOutput(outs1, y, "item", v), SetOutput(SetOutput(outs1, y, "item", v), y, "index", Num(k)), keep);
    }
    forall o | Agree(outs1, o, keep) ensures Agree(outs, o, keep) { AgreeTrans(outs, outs1, o, keep); }
  }

  lemma {:induction false} NoticeAgrees(outs: Outs, id: Id, keep: set<Id>)
    requires id !in keep
    ensures Agree(outs, Notice(outs, id), keep)
  {
  }

  lemma {:induction false} SelfAgree(a: Outs, keep: set<Id>)
    ensures Agree(a, a, keep)
  {
  }

  lemma {:induction false} AgreeTrans(a: Outs, b: Outs, c: Outs, keep: set<Id>)
    requires Agree(a, b, keep) && Agree(b, c, keep)
    ensures Agree(a, c, keep)
  {
  }

  lemma {:induction false} ForeignInvoke(g: Graph, w: World, others: set<Id>, keep: set<Id>, s: State, y: Id)
    requires Foreign(g, w, others, keep) && y in others
    ensures Kept(s, Invoke(g, w, s, y), keep)
  {
    hide Raise, ItemInvoke, Resolve, Agree, SetOutput, WellFormed, WorldOk, Steps;
    var k := Comp(g, y).kind;
    var o := s.outs;
    SelfAgree(o, keep);
    ParentApart(g, w, others, keep, y);
    if k.IterationItem? {
      ForeignItem(g, w, others, keep, s.clock, o, s.turn, y);
    } else if k.LoopItem? || k.Iteration? {
      AgreeSet(o, y, "_ERROR", Str(CANCELED_TEXT), keep);
      AgreeSet(o, y, "_ERROR", Str("must be an array"), keep);
      RaiseAgrees(Comp(g, y), o, y, "cannot find variable", keep);
    } else {
      var (p, raised) := w.invoke(s.clock, y, o);
      AgreeOwn(o, p, y, keep);
      if raised.Some? {
        RaiseAgrees(Comp(g, y), p, y, raised.value, keep);
        AgreeTrans(o, p, Raise(Comp(g, y), p, y, raised.value), keep);
      }
    }
  }

  lemma {:induction false} ForeignInvokeAll(g: Graph, w: World, others: set<Id>, keep: set<Id>, s: State, ids: seq<Id>)
    requires Foreign(g, w, others, keep) && AllIn(ids, others)
    ensures Kept(s, InvokeAll(g, w, s, ids), keep)
    decreases |ids|
  {
    hide Foreign, Invoke, Kept;
    if ids == [] {
      assert Kept(s, s, keep) by { SelfKept(s, keep); }
    } else {
      ForeignInvoke(g, w, others, keep, s, ids[0]);
      var t := Invoke(g, w, s, ids[0]);
      ForeignInvokeAll(g, w, others, keep, t, ids[1..]);
      KeptTrans(s, t, InvokeAll(g, w, s, ids), keep);
    }
  }

  lemma {:induction false} SelfKept(s: State, keep: set<Id>)
    ensures Kept(s, s, keep)
  {
  }

  // ---------------------------------------------------------------- post-processing of another branch

  lemma {:induction false} SpeakKeeps(w: World, s: State, y: Id, others: set<Id>, keep: set<Id>)
    requires OwnOutputs(w, others) && y in others && y !in keep
    ensures Kept(s, Speak(w, s, y), keep) && Speak(w, s, y).error == s.error
  {
    hide Streaming, Agree, SetOutput;
    SelfAgree(s.outs, keep);
    if Streaming(s.outs, y) {
      var (o, text) := w.drain(s.clock, y, s.outs);
      AgreeOwn(s.outs, o, y, keep);
      AgreeSet(o, y, "content", Str(text), keep);
      AgreeTrans(s.outs, o, SetOutput(o, y, "content", Str(text)), keep);
    }
  }

  lemma {:induction false} HandleShape(c: Component, s: State, id: Id)
    ensures var r := HandleError(c, s, id).0; r.outs == s.outs && r.turn == s.turn && (r.error == "" ==> s.error == "")
  {
  }

  lemma {:induction false} FinishShape(s: State, id: Id)
    ensures var r := Finish(s, id);
      && (r.outs == s.outs || (s.error != "" && r.outs == SetOutput(s.outs, id, "content", Null)))
      && r.turn == s.turn && r.error == s.error
  {
    hide SetOutput, Streaming;
  }

  lemma {:induction false} RouteShape(g: Graph, w: World, s: State, id: Id, diverted: bool)
    ensures var r := Route(g, w, s, id, diverted);
      r.outs == s.outs && r.error == s.error && (r.turn == s.turn || r.turn == s.turn[id := -1])
  {
    hide Extend, Successors;
  }

  lemma {:induction false} SpokenShape(g: Graph, w: World, s: State, id: Id)
    ensures Spoken(g, w, s, id).error == s.error && Spoken(g, w, s, id).turn == s.turn
  {
    hide Streaming, SetOutput;
  }

  /** All that post-processing does to outputs and turns, after the message branch; and an error stays to the end of
      the batch. */
  lemma {:induction false} PostShape(g: Graph, w: World, s: State, i: nat)
    requires i < |s.path|
    ensures var y, r := s.path[i], PostOne(g, w, s, i);
      var o := Spoken(g, w, s, y).outs;
      && (r.outs == o || r.outs == SetOutput(o, y, "content", Null))
      && (r.turn == s.turn || r.turn == s.turn[y := -1])
      && (r.error == "" ==> r.outs == o && s.error == "")
  {
    hide Speak, HandleError, Finish, Route, SetOutput;
    var y := s.path[i];
    var c := Comp(g, y);
    var s1 := Spoken(g, w, s, y);
    SpokenShape(g, w, s, y);
    HandleShape(c, s1, y);
    var (s2, diverted) := HandleError(c, s1, y);
    FinishShape(s2, y);
    var s3 := if IsContainer(c.kind) then s2 else Finish(s2, y);
    RouteShape(g, w, s3, y, diverted);
    assert PostOne(g, w, s, i) == Route(g, w, s3, y, diverted);
  }

  lemma {:induction false} ForeignPost(g: Graph, w: World, others: set<Id>, keep: set<Id>, s: State, i: nat)
    requires Foreign(g, w, others, keep) && i < |s.path| && s.path[i] in others && NextOk(g, s.outs)
    ensures var r := PostOne(g, w, s, i);
      Kept(s, r, keep) && AllIn(r.path[|s.path|..], others) && NextOk(g, r.outs) && (r.error == "" ==> s.error == "")
  {
    hide Agree, SetOutput, WellFormed, WorldOk, Steps, Speak, NextOk, PostOne;
    var y := s.path[i];
    ParentApart(g, w, others, keep, y);
    PostOneNextOk(g, w, s, i);
    PostOneAppends(g, w, s, i);
    SpeakKeeps(w, s, y, others, keep);
    SelfAgree(s.outs, keep);
    PostShape(g, w, s, i);
    var s1 := Spoken(g, w, s, y);
    AgreeSet(s1.outs, y, "content", Null, keep);
    AgreeTrans2(s.outs, s1.outs, SetOutput(s1.outs, y, "content", Null), keep);
  }

  lemma {:induction false} AgreeTrans2(a: Outs, b: Outs, c: Outs, keep: set<Id>)
    ensures Agree(a, b, keep) && Agree(b, c, keep) ==> Agree(a, c, keep)
  {
  }

  lemma {:induction false} ForeignPostRange(g: Graph, w: World, others: set<Id>, keep: set<Id>, s: State, i: nat, j: nat)
    requires Foreign(g, w, others, keep) && i <= j <= |s.path| && AllIn(s.path[i..j], others) && NextOk(g, s.outs)
    ensures var r := PostRange(g, w, s, i, j);
      Kept(s, r, keep) && AllIn(r.path[|s.path|..], others) && NextOk(g, r.outs) && (r.error == "" ==> s.error == "")
    decreases j - i
  {
    hide Foreign, Kept, PostOne, NextOk;
    if i == j {
      SelfKept(s, keep);
    } else {
      assert s.path[i..j][0] == s.path[i];
      ForeignPost(g, w, others, keep, s, i);
      var t := PostOne(g, w, s, i);
      assert t.path[i + 1..j] == s.path[i..j][1..];
      ForeignPostRange(g, w, others, keep, t, i + 1, j);
      var r := PostRange(g, w, t, i + 1, j);
      KeptTrans(s, t, r, keep);
      assert r.path[|s.path|..] == t.path[|s.path|..] + r.path[|t.path|..];
    }
  }

  // ---------------------------------------------------------------- one batch

  lemma {:induction false} ScanConcat(g: Graph, done: seq<Id>, a: seq<Id>, b: seq<Id>)
    requires done != []
    ensures Scan(g, done, a + b) == Scan(g, Scan(g, done, a), b)
    decreases |a|
  {
    hide NamedFillUp;
    if a == [] {
      assert a + b == b;
    } else {
      assert (a + b)[0] == a[0] && (a + b)[1..] == a[1..] + b;
      assert (done + (a + b))[0] == done[0] == (done + a)[0];
      ScanConcat(g, done + [a[0]], a[1..], b);
      ScanConcat(g, done, a[1..], b);
    }
  }

  /** The scan keeps a ready entry, whatever it drops around it. */
  lemma {:induction false} ScanThread(g: Graph, q: seq<Id>, a: seq<Id>, x: Id, b: seq<Id>) returns (a1: seq<Id>, b1: seq<Id>)
    requires q != [] && forall r | r in Comp(g, x).refs :: r in q
    ensures Scan(g, q, a + [x] + b) == q + a1 + [x] + b1
    ensures (forall y | y in a1 :: y in a) && (forall y | y in b1 :: y in b)
  {
    hide Scan, NamedFillUp;
    var p := Scan(g, q, a);
    ScanMembers(g, q, a);
    a1 := p[|q|..];
    assert p == q + a1;
    assert a + [x] + b == a + ([x] + b);
    ScanConcat(g, q, a, [x] + b);
    TakesReady(g, p, x, b);
    ScanMembers(g, p + [x], b);
    b1 := Scan(g, p + [x], b)[|p + [x]|..];
  }

  lemma {:induction false} TakesReady(g: Graph, p: seq<Id>, x: Id, b: seq<Id>)
    requires forall r | r in Comp(g, x).refs :: r in p
    ensures Scan(g, p, [x] + b) == Scan(g, p + [x], b)
  {
    hide NamedFillUp;
    assert ([x] + b)[1..] == b;
  }

  lemma {:induction false} InvokeConcat(g: Graph, w: World, s: State, a: seq<Id>, b: seq<Id>)
    ensures InvokeAll(g, w, s, a + b) == InvokeAll(g, w, InvokeAll(g, w, s, a), b)
    decreases |a|
  {
    hide Invoke;
    if a == [] {
      assert a + b == b;
    } else {
      assert (a + b)[0] == a[0] && (a + b)[1..] == a[1..] + b;
      InvokeConcat(g, w, Invoke(g, w, s, a[0]), a[1..], b);
    }
  }

  lemma {:induction false} PostConcat(g: Graph, w: World, s: State, i: nat, j: nat, k: nat)
    requires i <= j <= k <= |s.path|
    ensures PostRange(g, w, s, i, k) == PostRange(g, w, PostRange(g, w, s, i, j), j, k)
    decreases j - i
  {
    hide PostOne;
    if i < j { PostConcat(g, w, PostOne(g, w, s, i), i + 1, j, k); }
  }

  /** What a batch does around one of its entries: `sa` is the state before the entry is invoked, `pa` the one before
      it is post-processed, at place `ix`. */
  ghost predicate Around(g: Graph, w: World, others: set<Id>, keep: set<Id>, u: State, x: Id, sa: State, pa: State, ix: nat)
    requires u.idx <= |u.path|
  {
    var t := Batch(g, w, u);
    && Kept(u, sa, keep) && Kept(Invoke(g, w, sa, x), pa, keep)
    && ix < t.to <= |pa.path| && pa.path[ix] == x && u.idx <= ix
    && (pa.path[|pa.path| - 1] == x || pa.path[|pa.path| - 1] in others)
    && AllIn(pa.path[t.to..], others) && u.path[..u.idx] <= pa.path
    && var px := PostOne(g, w, pa, ix);
      && Kept(px, t, keep) && px.path <= t.path && AllIn(t.path[|px.path|..], others)
      && NextOk(g, t.outs) && (t.error == "" ==> px.error == "" && pa.error == "")
  }

  /** Scanning and invoking. */
  lemma {:induction false} InvokePhase(g: Graph, w: World, others: set<Id>, keep: set<Id>, u: State, a: seq<Id>, x: Id, b: seq<Id>)
      returns (sa: State, a1: seq<Id>, b1: seq<Id>)
    requires Foreign(g, w, others, keep) && NextOk(g, u.outs) && AllIn(a, others) && AllIn(b, others)
    requires 0 < u.idx <= |u.path| && u.path[u.idx..] == a + [x] + b && forall r | r in Comp(g, x).refs :: r in u.path[..u.idx]
    ensures AllIn(a1, others) && AllIn(b1, others) && Kept(u, sa, keep)
    ensures var s1 := RunBatch(g, w, u);
      s1.path == u.path[..u.idx] + a1 + [x] + b1 && s1.to == |s1.path| && Kept(Invoke(g, w, sa, x), s1, keep) && NextOk(g, s1.outs)
  {
    hide Foreign, NextOk, Invoke, Scan, Kept, Started;
    var q := u.path[..u.idx];
    a1, b1 := ScanThread(g, q, a, x, b);
    var p := q + a1 + [x] + b1;
    var s0 := u.(events := u.events + Started(u.path[u.idx..]), path := p, to := |p|);
    assert p[u.idx..] == a1 + [x] + b1;
    sa := InvokeAll(g, w, s0, a1);
    InvokeAround(g, w, s0, a1, x, b1);
    SameKept(u, s0, keep);
    ForeignInvokeAll(g, w, others, keep, s0, a1);
    KeptTrans(u, s0, sa, keep);
    ForeignInvokeAll(g, w, others, keep, Invoke(g, w, sa, x), b1);
    BatchNextOk(g, w, others, keep, u);
  }

  /** Post-processing, from the state after the invocations. */
  lemma {:induction false} PostPhase(g: Graph, w: World, others: set<Id>, keep: set<Id>, s: State, q: seq<Id>, a: seq<Id>, x: Id, b: seq<Id>)
      returns (pa: State)
    requires Foreign(g, w, others, keep) && NextOk(g, s.outs) && AllIn(a, others) && AllIn(b, others)
    requires s.path == q + a + [x] + b && s.to == |s.path|
    ensures Kept(s, pa, keep) && s.path <= pa.path && AllIn(pa.path[s.to..], others)
    ensures var ix := |q| + |a|; var px := PostOne(g, w, pa, ix); var t := PostRange(g, w, s, |q|, s.to);
      && Kept(px, t, keep) && px.path <= t.path && AllIn(t.path[|px.path|..], others)
      && NextOk(g, t.outs) && (t.error == "" ==> px.error == "" && pa.error == "")
  {
    hide Foreign, NextOk, PostOne, Kept, PostRange;
    var p, ix := s.path, |q| + |a|;
    assert p[|q|..ix] == a && p[ix] == x && p[ix + 1..] == b;
    pa := PostRange(g, w, s, |q|, ix);
    ForeignPostRange(g, w, others, keep, s, |q|, ix);
    var px := PostOne(g, w, pa, ix);
    PostAround(g, w, s, |q|, ix);
    PxNextOk(g, w, others, keep, pa, ix);
    assert px.path[ix + 1..|p|] == b by { assert px.path[..|p|] == p; }
    ForeignPostRange(g, w, others, keep, px, ix + 1, |p|);
  }

  lemma {:induction false} BesideBatch(g: Graph, w: World, others: set<Id>, keep: set<Id>, u: State, a: seq<Id>, x: Id, b: seq<Id>)
      returns (sa: State, pa: State, ix: nat)
    requires Foreign(g, w, others, keep) && NextOk(g, u.outs) && AllIn(a, others) && AllIn(b, others)
    requires 0 < u.idx <= |u.path| && u.path[u.idx..] == a + [x] + b && forall r | r in Comp(g, x).refs :: r in u.path[..u.idx]
    ensures Around(g, w, others, keep, u, x, sa, pa, ix)
  {
    hide Foreign, NextOk, Invoke, PostOne, Kept, RunBatch, AllIn, PostRange;
    var q := u.path[..u.idx];
    var a1, b1;
    sa, a1, b1 := InvokePhase(g, w, others, keep, u, a, x, b);
    var s1 := RunBatch(g, w, u);
    var p := s1.path;
    pa := PostPhase(g, w, others, keep, s1, q, a1, x, b1);
    ix := |q| + |a1|;
    KeptTrans(Invoke(g, w, sa, x), s1, pa, keep);
    assert pa.path == p + pa.path[|p|..];
    assert q <= p && p[ix] == x;
    LastAround(p, pa.path[|p|..], x, b1, others);
  }

  lemma {:induction false} LastAround(p: seq<Id>, more: seq<Id>, x: Id, b: seq<Id>, others: set<Id>)
    requires p != [] && AllIn(more, others) && AllIn(b, others) && (if b == [] then p[|p| - 1] == x else p[|p| - 1] == b[|b| - 1])
    ensures var r := p + more; r[|r| - 1] == x || r[|r| - 1] in others
  {
    if more != [] { assert more[|more| - 1] in more; } else if b != [] { assert b[|b| - 1] in b; }
  }

  lemma {:induction false} SameKept(s: State, t: State, keep: set<Id>)
    requires s.outs == t.outs && s.turn == t.turn
    ensures Kept(s, t, keep)
  {
  }

  lemma {:induction false} InvokeAround(g: Graph, w: World, s: State, a: seq<Id>, x: Id, b: seq<Id>)
    ensures InvokeAll(g, w, s, a + [x] + b) == InvokeAll(g, w, Invoke(g, w, InvokeAll(g, w, s, a), x), b)
  {
    hide Invoke;
    InvokeConcat(g, w, s, a + [x], b);
    InvokeConcat(g, w, s, a, [x]);
    var t := InvokeAll(g, w, s, a);
    assert [x][1..] == [] && InvokeAll(g, w, t, [x]) == Invoke(g, w, t, x);
  }

  lemma {:induction false} PostAround(g: Graph, w: World, s: State, i: nat, j: nat)
    requires i <= j < s.to == |s.path|
    ensures PostRange(g, w, s, i, s.to) == PostRange(g, w, PostOne(g, w, PostRange(g, w, s, i, j), j), j + 1, s.to)
  {
    hide PostOne;
    PostConcat(g, w, s, i, j, s.to);
  }

  lemma {:induction false} BatchNextOk(g: Graph, w: World, others: set<Id>, keep: set<Id>, u: State)
    requires Foreign(g, w, others, keep) && NextOk(g, u.outs) && u.idx <= |u.path|
    ensures NextOk(g, RunBatch(g, w, u).outs)
  {
    hide WellFormed, WorldOk, NextOk, OwnOutputs, Steps;
    var path := Scan(g, u.path[..u.idx], u.path[u.idx..]);
    InvokeAllNextOk(g, w, u.(events := u.events + Started(u.path[u.idx..]), path := path, to := |path|), path[u.idx..]);
  }

  lemma {:induction false} PxNextOk(g: Graph, w: World, others: set<Id>, keep: set<Id>, s: State, i: nat)
    requires Foreign(g, w, others, keep) && NextOk(g, s.outs) && i < |s.path|
    ensures NextOk(g, PostOne(g, w, s, i).outs) && (PostOne(g, w, s, i).error == "" ==> s.error == "")
  {
    hide WellFormed, WorldOk, NextOk, OwnOutputs, Steps, PostOne;
    PostOneNextOk(g, w, s, i);
    PostShape(g, w, s, i);
  }
}

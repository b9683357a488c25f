/** What every step of the scheduler keeps: paths stay inside the graph, executed components have their
    inputs before them, and finished events and deferred components balance. */
module CanvasInvariants {
  import opened Options
  import opened CanvasModel

  // ---------------------------------------------------------------- paths stay inside the graph

  /** The successor relation a run follows. */
  predicate Steps(g: Graph, a: Id, b: Id) {
    var c := Comp(g, a);
    || b in c.downstream || b in c.choices || b in GotoOf(c)
    || (IsContainer(c.kind) && GetStart(g, a) == Some(b))
    || (c.parent.Some? && (IsItem(c.kind) || c.kind.ExitLoop?) && b in Comp(g, c.parent.value).downstream)
    || (c.parent.Some? && c.downstream == [] && GetStart(g, c.parent.value) == Some(b))
  }

  lemma {:induction false} StepsInGraph(g: Graph, a: Id, b: Id)
    requires WellFormed(g) && a in g.comps && Steps(g, a, b)
    ensures b in g.comps
  {
    assert WellFormedComponent(g, a);
    var c := g.comps[a];
    if b in c.downstream + c.choices + GotoOf(c) {
    } else if c.parent.Some? {
      assert WellFormedComponent(g, c.parent.value);
      var p := g.comps[c.parent.value];
      if b in p.downstream { assert b in p.downstream + p.choices + GotoOf(p); }
    }
  }

  lemma {:induction false} SetOutputNextOk(g: Graph, outs: Outs, id: Id, name: string, v: Value)
    requires NextOk(g, outs) && (name != "_next" || !v.Ids?)
    ensures NextOk(g, SetOutput(outs, id, name, v))
  {
    var outs' := SetOutput(outs, id, name, v);
    forall x | x in g.comps ensures forall y | y in NextOf(outs', x) :: y in g.comps[x].choices {
      assert NextOf(outs', x) == NextOf(outs, x) || NextOf(outs', x) == [];
    }
  }

  lemma {:induction false} CollateNextOk(g: Graph, outs: Outs, pid: Id, ts: seq<Collect>)
    requires NextOk(g, outs)
    ensures NextOk(g, Collate(outs, pid, ts).0)
    decreases |ts|
  {
    if ts != [] {
      var res := Output(outs, pid, ts[0].key);
      if !res.Truthy() || res.List? {
        var v := List((if res.List? then res.items else []) + [Output(outs, ts[0].ref.cid, ts[0].ref.name)]);
        SetOutputNextOk(g, outs, pid, ts[0].key, v);
        CollateNextOk(g, SetOutput(outs, pid, ts[0].key, v), pid, ts[1..]);
      }
    }
  }

  lemma {:induction false} RaiseNextOk(g: Graph, c: Component, outs: Outs, id: Id, msg: string)
    requires NextOk(g, outs)
    ensures NextOk(g, Raise(c, outs, id, msg))
  {
    SetOutputNextOk(g, outs, id, "_ERROR", Str(msg));
    if c.handler.Some? { SetOutputNextOk(g, outs, id, "result", c.handler.value.fallback); }
  }

  lemma {:induction false} ItemInvokeNextOk(g: Graph, w: World, clock: nat, outs: Outs, turn: map<Id, int>, id: Id)
    requires NextOk(g, outs)
    ensures NextOk(g, ItemInvoke(g, w, clock, outs, turn, id).0)
  {
    hide NextOk, Raise, Collate, Targets, SetOutput, Resolve;
    var c := Comp(g, id);
    var pid := if c.parent.Some? then c.parent.value else "";
    var k := TurnOf(turn, id);
    RaiseNextOk(g, c, outs, id, "cannot find variable");
    RaiseNextOk(g, c, outs, id, "must be an array");
    var ts := Targets(g, pid, g.order);
    CollateNextOk(g, outs, pid, ts);
    var outs1 := if k > 0 then Collate(outs, pid, ts).0 else outs;
    SetOutputNextOk(g, outs, id, "_ERROR", Str(CANCELED_TEXT));
    SetOutputNextOk(g, outs1, id, "_ERROR", Str(CANCELED_TEXT));
    RaiseNextOk(g, c, outs1, id, "cannot append");
    RaiseNextOk(g, c, outs1, id, "list index out of range");
    forall v: Value ensures NextOk(g, SetOutput(SetOutput(outs1, id, "item", v), id, "index", Num(k))) {
      SetOutputNextOk(g, outs1, id, "item", v);
      SetOutputNextOk(g, SetOutput(outs1, id, "item", v), id, "index", Num(k));
    }
  }

  lemma {:induction false} InvokeNextOk(g: Graph, w: World, s: State, id: Id)
    requires WorldOk(g, w) && NextOk(g, s.outs)
    ensures NextOk(g, Invoke(g, w, s, id).outs)
  {
    hide NextOk, Raise, Perform, ItemInvoke;
    ItemInvokeNextOk(g, w, s.clock, s.outs, s.turn, id);
    SetOutputNextOk(g, s.outs, id, "_ERROR", Str(CANCELED_TEXT));
    RaiseNextOk(g, Comp(g, id), s.outs, id, "cannot find variable");
    SetOutputNextOk(g, s.outs, id, "_ERROR", Str("must be an array"));
    PerformNextOk(g, w, s.clock, id, s.outs);
  }

  lemma {:induction false} PerformNextOk(g: Graph, w: World, clock: nat, id: Id, outs: Outs)
    requires WorldOk(g, w) && NextOk(g, outs)
    ensures NextOk(g, Perform(g, w, clock, id, outs))
  {
    hide NextOk, Raise;
    var (o, raised) := w.invoke(clock, id, outs);
    if raised.Some? { RaiseNextOk(g, Comp(g, id), o, id, raised.value); }
  }

  lemma {:induction false} InvokeAllNextOk(g: Graph, w: World, s: State, ids: seq<Id>)
    requires WorldOk(g, w) && NextOk(g, s.outs)
    ensures NextOk(g, InvokeAll(g, w, s, ids).outs)
    decreases |ids|
  {
    if ids != [] {
      InvokeNextOk(g, w, s, ids[0]);
      InvokeAllNextOk(g, w, Invoke(g, w, s, ids[0]), ids[1..]);
    }
  }

  lemma {:induction false} ScanMembers(g: Graph, done: seq<Id>, pending: seq<Id>)
    ensures forall x | x in Scan(g, done, pending)[|done|..] :: x in pending
    decreases |pending|
  {
    if pending != [] {
      if Ready(g, done, pending) {
        var done1 := done + [pending[0]];
        var r := Scan(g, done1, pending[1..]);
        ScanMembers(g, done1, pending[1..]);
        assert r[|done|..] == [r[|done|]] + r[|done1|..] && r[|done|] == done1[|done|];
      } else {
        ScanMembers(g, done, pending[1..]);
      }
    }
  }

  lemma {:induction false} ExtendMembers(path: seq<Id>, ids: seq<Id>)
    ensures forall x | x in Extend(path, ids)[|path|..] :: x in ids
    decreases |ids|
  {
    if ids != [] {
      var p1 := Append(path, ids[0]);
      assert p1[|path|..] <= [ids[0]];
      hide Append;
      var r := Extend(p1, ids[1..]);
      ExtendMembers(p1, ids[1..]);
      assert r[|path|..] == p1[|path|..] + r[|p1|..];
    }
  }

  lemma {:induction false} SpeakNextOk(g: Graph, w: World, s: State, id: Id)
    requires WorldOk(g, w) && NextOk(g, s.outs)
    ensures NextOk(g, Speak(w, s, id).outs)
  {
    var (outs, text) := w.drain(s.clock, id, s.outs);
    assert NextOk(g, outs) by { assert NextOk(g, w.drain(s.clock, id, s.outs).0); }
    SetOutputNextOk(g, outs, id, "content", Str(text));
  }

  lemma {:induction false} PostOneNextOk(g: Graph, w: World, s: State, i: nat)
    requires WorldOk(g, w) && NextOk(g, s.outs) && i < |s.path|
    ensures NextOk(g, PostOne(g, w, s, i).outs)
  {
    hide NextOk, Speak, SetOutput, WorldOk, Extend, Successors, ItemEnded;
    var id := s.path[i];
    var c := Comp(g, id);
    if c.kind.Message? { SpeakNextOk(g, w, s, id); }
    var s1 := if c.kind.Message? then Speak(w, s, id) else s;
    SetOutputNextOk(g, s1.outs, id, "content", Null);
  }

  lemma {:induction false} SuccessorsAreSteps(g: Graph, s: State, id: Id, ended: bool)
    requires NextOk(g, s.outs) && id in g.comps && (ended ==> IsItem(Comp(g, id).kind))
    ensures forall x | x in Successors(g, s, id, ended) :: Steps(g, id, x)
  {
  }

  lemma {:induction false} RouteAppends(g: Graph, w: World, s: State, id: Id, diverted: bool)
    requires NextOk(g, s.outs) && id in g.comps
    ensures forall x | x in Route(g, w, s, id, diverted).path[|s.path|..] :: Steps(g, id, x)
  {
    var (s1, ended) := ItemEnded(g, w, s, id);
    var c := Comp(g, id);
    var s2 := if ended && c.parent.Some? then s1.(events := s1.events + [NodeFinished(c.parent.value)]) else s1;
    SuccessorsAreSteps(g, s2, id, ended);
    ExtendMembers(s2.path, Successors(g, s2, id, ended));
  }

  /** A post-processed component appends only its own successors. */
  lemma {:induction false} PostOneAppends(g: Graph, w: World, s: State, i: nat)
    requires WorldOk(g, w) && NextOk(g, s.outs) && i < |s.path| && s.path[i] in g.comps
    ensures forall x | x in PostOne(g, w, s, i).path[|s.path|..] :: Steps(g, s.path[i], x)
  {
    hide NextOk, WorldOk, Speak, Route, SetOutput;
    var id := s.path[i];
    var c := Comp(g, id);
    if c.kind.Message? { SpeakNextOk(g, w, s, id); }
    var s1 := if c.kind.Message? then Speak(w, s, id) else s;
    SetOutputNextOk(g, s1.outs, id, "content", Null);
    var (s2, diverted) := HandleError(c, s1, id);
    var s3 := if IsContainer(c.kind) then s2 else Finish(s2, id);
    RouteAppends(g, w, s3, id, diverted);
    var r := Route(g, w, s3, id, diverted);
    assert r.path[|s.path|..] == s3.path[|s.path|..] + r.path[|s3.path|..];
    assert forall x | x in s3.path[|s.path|..] :: x in GotoOf(c);
  }

  lemma {:induction false} AppendedInGraph(g: Graph, path: seq<Id>, path': seq<Id>, a: Id)
    requires WellFormed(g) && InGraph(g, path) && a in g.comps && path <= path'
    requires forall x | x in path'[|path|..] :: Steps(g, a, x)
    ensures InGraph(g, path')
  {
    forall x | x in path' ensures x in g.comps {
      assert path' == path + path'[|path|..];
      if x in path'[|path|..] { StepsInGraph(g, a, x); }
    }
  }

  /** Is every entry of `path` from n on a successor of a member of `from`? */
  ghost predicate FollowsFrom(g: Graph, from: seq<Id>, path: seq<Id>, n: nat)
    requires n <= |path|
  {
    forall k | n <= k < |path| :: HasSource(g, from, path[k])
  }

  ghost predicate HasSource(g: Graph, from: seq<Id>, x: Id) { exists y | y in from :: Steps(g, y, x) }

  /** Every entry a range of post-processing appends is a successor of an entry of that range. */
  lemma {:induction false} PostRangeAppends(g: Graph, w: World, s: State, i: nat, j: nat)
    requires WellFormed(g) && WorldOk(g, w) && NextOk(g, s.outs) && i <= j <= |s.path| && InGraph(g, s.path)
    ensures NextOk(g, PostRange(g, w, s, i, j).outs) && InGraph(g, PostRange(g, w, s, i, j).path)
    ensures FollowsFrom(g, s.path[i..j], PostRange(g, w, s, i, j).path, |s.path|)
    decreases j - i
  {
    hide PostOne, WellFormed, WorldOk, NextOk, Steps;
    if i < j {
      assert s.path[i] in g.comps;
      var t := PostOne(g, w, s, i);
      PostOneNextOk(g, w, s, i);
      PostOneAppends(g, w, s, i);
      AppendedInGraph(g, s.path, t.path, s.path[i]);
      PostRangeAppends(g, w, t, i + 1, j);
      var r := PostRange(g, w, t, i + 1, j);
      RangeFollows(g, s.path, t.path, r.path, i, j);
    }
  }

  lemma {:induction false} RangeFollows(g: Graph, p: seq<Id>, p1: seq<Id>, p2: seq<Id>, i: nat, j: nat)
    requires i < j <= |p| && p <= p1 <= p2
    requires forall x | x in p1[|p|..] :: Steps(g, p[i], x)
    requires FollowsFrom(g, p1[i + 1..j], p2, |p1|)
    ensures FollowsFrom(g, p[i..j], p2, |p|)
  {
    assert p[i..j][0] == p[i];
    forall k | |p| <= k < |p2| ensures HasSource(g, p[i..j], p2[k]) {
      if k < |p1| {
        assert p1[|p|..][k - |p|] == p2[k];
        assert Steps(g, p[i], p2[k]);
      } else {
        assert HasSource(g, p1[i + 1..j], p2[k]);
        var y :| y in p1[i + 1..j] && Steps(g, y, p2[k]);
        assert y in p[i..j] by {
          var m :| i + 1 <= m < j && p1[m] == y;
          assert p[i..j][m - i] == y;
        }
      }
    }
  }

  lemma {:induction false} RunBatchKeeps(g: Graph, w: World, s: State)
    requires WorldOk(g, w) && NextOk(g, s.outs) && InGraph(g, s.path) && s.idx <= |s.path|
    ensures NextOk(g, RunBatch(g, w, s).outs) && InGraph(g, RunBatch(g, w, s).path)
    ensures forall x | x in RunBatch(g, w, s).path[s.idx..] :: x in s.path[s.idx..]
  {
    var done, pending := s.path[..s.idx], s.path[s.idx..];
    var path := Scan(g, done, pending);
    ScanMembers(g, done, pending);
    assert path == done + path[s.idx..];
    assert forall x | x in path :: x in done || x in pending;
    InvokeAllNextOk(g, w, s.(events := s.events + Started(pending), path := path, to := |path|), path[s.idx..]);
  }

  lemma {:induction false} FollowsFromMore(g: Graph, from: seq<Id>, more: seq<Id>, path: seq<Id>, n: nat)
    requires n <= |path| && FollowsFrom(g, from, path, n) && forall x | x in from :: x in more
    ensures FollowsFrom(g, more, path, n)
  {
    forall k | n <= k < |path| ensures HasSource(g, more, path[k]) {
      assert HasSource(g, from, path[k]);
    }
  }

  lemma {:induction false} BatchKeeps(g: Graph, w: World, s: State)
    requires WellFormed(g) && WorldOk(g, w) && NextOk(g, s.outs) && InGraph(g, s.path) && s.idx <= |s.path|
    ensures NextOk(g, Batch(g, w, s).outs) && InGraph(g, Batch(g, w, s).path)
    ensures FollowsFrom(g, s.path[s.idx..], Batch(g, w, s).path, Batch(g, w, s).to)
  {
    hide NextOk, WorldOk, WellFormed, RunBatch, PostRange;
    RunBatchKeeps(g, w, s);
    var s1 := RunBatch(g, w, s);
    PostRangeAppends(g, w, s1, s.idx, s1.to);
    assert s1.path[s.idx..s1.to] == s1.path[s.idx..];
    var t := Batch(g, w, s);
    FollowsFromMore(g, s1.path[s.idx..], s.path[s.idx..], t.path, t.to);
  }

  // ---------------------------------------------------------------- dependency closure

  /** Is the entry at position i an input component, or is everything it references before it? */
  predicate Met(g: Graph, path: seq<Id>, i: nat)
    requires i < |path|
  {
    IsInput(Comp(g, path[i]).kind) || forall r | r in Comp(g, path[i]).refs :: r in path[..i]
  }

  predicate Supplied(g: Graph, path: seq<Id>, n: nat)
    requires n <= |path|
  {
    forall i | 0 <= i < n :: Met(g, path, i)
  }

  lemma {:induction false} SuppliedPrefix(g: Graph, path: seq<Id>, path': seq<Id>, n: nat)
    requires n <= |path| && n <= |path'| && path[..n] == path'[..n] && Supplied(g, path, n)
    ensures Supplied(g, path', n)
  {
    forall i | 0 <= i < n ensures Met(g, path', i) {
      assert Met(g, path, i) && path[..n][i] == path'[..n][i] && path[..i] == path[..n][..i] == path'[..i];
    }
  }

  /** The head of a path is settled: it does not name a fill-up, and alone it is an input component. */
  predicate Settled(g: Graph, path: seq<Id>, idx: nat) {
    path != [] && !NamedFillUp(path[0]) && (idx == 0 ==> IsInput(Comp(g, path[0]).kind))
  }

  lemma {:induction false} ScanSupplied(g: Graph, done: seq<Id>, pending: seq<Id>)
    requires Supplied(g, done, |done|) && (pending == [] || Settled(g, done + pending, |done|))
    ensures var r := Scan(g, done, pending); Supplied(g, r, |r|)
    decreases |pending|
  {
    if pending != [] {
      var done1 := done + [pending[0]];
      if Ready(g, done, pending) {
        SuppliedPrefix(g, done, done1, |done|);
        assert done1[..|done|] == done;
        assert Met(g, done1, |done|);
        assert done1 + pending[1..] == done + pending;
        ScanSupplied(g, done1, pending[1..]);
      } else {
        assert done != [];
        assert (done + pending)[0] == (done + pending[1..])[0];
        ScanSupplied(g, done, pending[1..]);
      }
    }
  }

  /** One batch leaves what was executed alone, and what it executes has its inputs before it. */
  lemma {:induction false} BatchSupplied(g: Graph, w: World, s: State)
    requires s.idx <= |s.path| && Settled(g, s.path, s.idx) && Supplied(g, s.path, s.idx)
    ensures var t := Batch(g, w, s);
      t.path[..s.idx] == s.path[..s.idx] && Supplied(g, t.path, t.to) &&
      (s.idx < |s.path| ==> Settled(g, t.path, t.to))
  {
    var done, pending := s.path[..s.idx], s.path[s.idx..];
    assert done + pending == s.path;
    SuppliedPrefix(g, s.path, done, s.idx);
    ScanSupplied(g, done, pending);
    var s1 := RunBatch(g, w, s);
    var t := Batch(g, w, s);
    assert s1.path == Scan(g, done, pending) && s1.path <= t.path;
    SuppliedPrefix(g, s1.path, t.path, s1.to);
    if s.idx == 0 && pending != [] {
      assert Ready(g, done, pending);
      assert Scan(g, done + [pending[0]], pending[1..])[0] == pending[0];
    }
  }

  /** At every batch of a run, the last one before a stop included: what was executed stays in place, and what is
      executed has its inputs before it. */
  ghost predicate AlwaysSupplied(g: Graph, w: World, s: State, fuel: nat)
    requires s.idx <= |s.path|
    decreases fuel
  {
    && Supplied(g, s.path, s.idx)
    && (s.idx < |s.path| && fuel > 0 && !w.canceled(s.clock) ==>
          var t := Batch(g, w, s);
          && t.path[..s.idx] == s.path[..s.idx] && Supplied(g, t.path, t.to)
          && (t.error == "" && FillUps(g, t.path[t.to..]) == [] ==> AlwaysSupplied(g, w, t.(idx := t.to), fuel - 1)))
  }

  lemma {:induction false} RunLoopSupplied(g: Graph, w: World, s: State, fuel: nat)
    requires s.idx <= |s.path| && Settled(g, s.path, s.idx) && Supplied(g, s.path, s.idx)
    ensures AlwaysSupplied(g, w, s, fuel)
    ensures var (r, h) := RunLoop(g, w, s, fuel);
      !h.Suspended? ==>
        (&& s.idx <= r.idx && s.path[..s.idx] <= r.path && Supplied(g, r.path, r.idx)
         && (r.idx > 0 ==> !NamedFillUp(r.path[0])) && (h.Canceled? || h.OutOfFuel? ==> Settled(g, r.path, r.idx)))
    decreases fuel
  {
    hide Met, NamedFillUp, Batch, FillUps, Suspend;
    if s.idx < |s.path| && fuel > 0 && !w.canceled(s.clock) {
      BatchSupplied(g, w, s);
      var t := Batch(g, w, s);
      if t.error != "" {
        SuppliedPrefix(g, t.path, t.path, s.idx);
      } else {
        var u := t.(idx := t.to);
        if FillUps(g, u.path[u.idx..]) == [] {
          RunLoopSupplied(g, w, u, fuel - 1);
        }
      }
    }
  }

  /** A path that a run may be handed: nothing, or an executed one that does not start at a fill-up. */
  predicate Resumable(g: Graph, path: seq<Id>) {
    path == [] || (!NamedFillUp(path[0]) && Supplied(g, path, |path|))
  }

  lemma {:induction false} BeginIsNoFillUp()
    ensures !NamedFillUp("begin")
  {
  }

  lemma {:induction false} BeginIsInput(g: Graph)
    requires WellFormed(g)
    ensures IsInput(Comp(g, "begin").kind)
  {
  }

  lemma {:induction false} StartSettled(g: Graph, s: State)
    requires WellFormed(g) && Resumable(g, s.path)
    ensures var t := Start(s); t.idx <= |t.path| && Settled(g, t.path, t.idx) && Supplied(g, t.path, t.idx)
    ensures s.path <= Start(s).path
  {
    hide NamedFillUp, Met, Reset, WellFormed;
    var t := Start(s);
    BeginIsNoFillUp();
    BeginIsInput(g);
    if s.path != [] { SuppliedPrefix(g, s.path, t.path, t.idx); }
  }

  lemma {:induction false} ConcludeSupplied(g: Graph, r: State, h: Halt)
    requires r.idx <= |r.path| && Supplied(g, r.path, r.idx) && (r.idx > 0 ==> !NamedFillUp(r.path[0]))
    ensures var c := Conclude((r, h)).0;
      c.idx == r.idx <= |c.path| && c.path[..c.idx] == r.path[..r.idx] && Supplied(g, c.path, c.idx)
    ensures h.Finished? || h.Errored? ==> Resumable(g, Conclude((r, h)).0.path)
    ensures h.Canceled? || h.OutOfFuel? ==> Conclude((r, h)).0 == r
  {
    var c := Conclude((r, h)).0;
    SuppliedPrefix(g, r.path, c.path, r.idx);
  }

  /** Dependency closure over a run: at every batch what was executed stays in place, every executed component has
      its inputs before it, and a run that ends by itself or at an error hands on a path of that kind. */
  lemma {:induction false} RunSupplied(g: Graph, w: World, s: State, fuel: nat)
    requires WellFormed(g) && Resumable(g, s.path)
    ensures AlwaysSupplied(g, w, Start(s), fuel)
    ensures var (r, h) := Run(g, w, s, fuel);
      && (h.Finished? || h.Errored? ==> Resumable(g, r.path))
      && (!h.Suspended? ==> r.idx <= |r.path| && Supplied(g, r.path, r.idx) && Start(s).path[..Start(s).idx] <= r.path)
      && (h.Canceled? || h.OutOfFuel? ==> Settled(g, r.path, r.idx))
  {
    hide AlwaysSupplied, WellFormed, Met, NamedFillUp, RunLoop, Supplied, Settled, Reset, Resumable, Conclude;
    StartSettled(g, s);
    var s0 := Start(s);
    RunLoopSupplied(g, w, s0, fuel);
    if !w.canceled(s.clock) {
      var (r, h) := RunLoop(g, w, s0, fuel);
      if !h.Suspended? {
        ConcludeSupplied(g, r, h);
        assert s0.path[..s0.idx] <= r.path[..r.idx];
      }
    }
  }
}

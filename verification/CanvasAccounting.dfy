/** Event accounting and suspension. */
module CanvasAccounting {
  import opened Options
  import opened CanvasModel
  import opened CanvasInvariants

  // ---------------------------------------------------------------- node_finished events

  /** The entries of a stretch of the path that get a node_finished event of their own. */
  function Counted(g: Graph, ids: seq<Id>): multiset<Id> {
    if ids == [] then multiset{}
    else Counted(g, ids[..|ids| - 1])
         + (if IsContainer(Comp(g, ids[|ids| - 1]).kind) then multiset{} else multiset{ids[|ids| - 1]})
  }

  function Reported(g: Graph, e: Event): multiset<Id> {
    if e.NodeFinished? && !IsContainer(Comp(g, e.id).kind) then multiset{e.id} else multiset{}
  }

  function FinishedOf(g: Graph, events: seq<Event>): multiset<Id> {
    if events == [] then multiset{}
    else FinishedOf(g, events[..|events| - 1]) + Reported(g, events[|events| - 1])
  }

  lemma {:induction false} Emit(g: Graph, events: seq<Event>, e: Event)
    ensures FinishedOf(g, events + [e]) == FinishedOf(g, events) + Reported(g, e)
  {
    assert (events + [e])[..|events|] == events;
  }

  lemma {:induction false} EmitTwo(g: Graph, events: seq<Event>, e: Event, f: Event)
    ensures FinishedOf(g, events + [e, f]) == FinishedOf(g, events) + Reported(g, e) + Reported(g, f)
  {
    assert events + [e, f] == events + [e] + [f];
    Emit(g, events, e);
    Emit(g, events + [e], f);
  }

  lemma {:induction false} EmitStarted(g: Graph, events: seq<Event>, ids: seq<Id>)
    ensures FinishedOf(g, events + Started(ids)) == FinishedOf(g, events)
    decreases |ids|
  {
    if ids == [] {
      assert events + Started(ids) == events;
    } else {
      var n := |ids| - 1;
      assert events + Started(ids) == events + Started(ids[..n]) + [NodeStarted(ids[n])];
      EmitStarted(g, events, ids[..n]);
      Emit(g, events + Started(ids[..n]), NodeStarted(ids[n]));
    }
  }

  /** The books: events emitted plus components deferred. */
  function Ledger(g: Graph, s: State): multiset<Id> { FinishedOf(g, s.events) + multiset(s.partials) }

  /** First in, first out: `partials` is what was deferred less what was released from its front, and the released
      were reported in the order they were deferred. */
  predicate Fifo(g: Graph, s: State) {
    && s.deferred == s.released + s.partials && Emitted(s.released, s.events)
    && forall x | x in s.partials :: !IsContainer(Comp(g, x).kind)
  }

  /** The node_finished events have one for each of `ids`, in that order. */
  predicate Emitted(ids: seq<Id>, events: seq<Event>)
    decreases |events|
  {
    ids == [] ||
    (events != [] &&
     var m, n := |ids| - 1, |events| - 1;
     Emitted(ids, events[..n]) || (events[n] == NodeFinished(ids[m]) && Emitted(ids[..m], events[..n])))
  }

  lemma {:induction false} EmittedMore(ids: seq<Id>, events: seq<Event>, e: Event)
    requires Emitted(ids, events)
    ensures Emitted(ids, events + [e])
  {
    assert (events + [e])[..|events|] == events;
  }

  lemma {:induction false} EmittedSnoc(ids: seq<Id>, events: seq<Event>, x: Id)
    requires Emitted(ids, events)
    ensures Emitted(ids + [x], events + [NodeFinished(x)])
  {
    assert (events + [NodeFinished(x)])[..|events|] == events && (ids + [x])[..|ids|] == ids;
  }

  lemma {:induction false} EmittedConcat(ids: seq<Id>, events: seq<Event>, more: seq<Event>)
    requires Emitted(ids, events)
    ensures Emitted(ids, events + more)
    decreases |more|
  {
    hide Emitted;
    if more == [] {
      assert events + more == events;
    } else {
      var n := |more| - 1;
      EmittedConcat(ids, events, more[..n]);
      EmittedMore(ids, events + more[..n], more[n]);
      assert events + more[..n] + [more[n]] == events + more;
    }
  }

  /** Every component executed since `start` and post-processed before `i` is accounted for, once. */
  predicate Balanced(g: Graph, s: State, start: nat, i: nat) {
    start <= i <= |s.path| && Counted(g, s.path[start..i]) == Ledger(g, s) && Fifo(g, s)
  }

  lemma {:induction false} FlushKeeps(g: Graph, s: State)
    requires Fifo(g, s)
    ensures Fifo(g, Flush(s)) && Ledger(g, Flush(s)) == Ledger(g, s)
    decreases |s.partials|
  {
    hide FinishedOf, Streaming, Emitted;
    if s.partials != [] && !Streaming(s.outs, s.partials[0]) {
      var x := s.partials[0];
      var t := s.(partials := s.partials[1..], events := s.events + [NodeFinished(x)], released := s.released + [x]);
      assert s.partials == [x] + t.partials;
      Emit(g, s.events, NodeFinished(x));
      EmittedSnoc(s.released, s.events, x);
      assert t.released + t.partials == s.released + s.partials;
      FlushKeeps(g, t);
    }
  }

  lemma {:induction false} SpeakKeeps(g: Graph, w: World, s: State, id: Id)
    requires Fifo(g, s)
    ensures Fifo(g, Speak(w, s, id)) && Ledger(g, Speak(w, s, id)) == Ledger(g, s)
  {
    hide FinishedOf, Emitted;
    EmitTwo(g, s.events, MessageSent(id), MessageEnd(id));
    EmittedConcat(s.released, s.events, [MessageSent(id), MessageEnd(id)]);
    var s1 :=
      if Streaming(s.outs, id) then
        var (outs, text) := w.drain(s.clock, id, s.outs);
        s.(outs := SetOutput(outs, id, "content", Str(text)), clock := s.clock + 1)
      else s;
    FlushKeeps(g, s1.(events := s1.events + [MessageSent(id), MessageEnd(id)]));
  }

  lemma {:induction false} HandleErrorKeeps(g: Graph, s: State, id: Id)
    requires Fifo(g, s)
    ensures var t := HandleError(Comp(g, id), s, id).0; Fifo(g, t) && Ledger(g, t) == Ledger(g, s)
  {
    hide FinishedOf, Emitted;
    EmitTwo(g, s.events, MessageSent(id), MessageEnd(id));
    EmittedConcat(s.released, s.events, [MessageSent(id), MessageEnd(id)]);
  }

  lemma {:induction false} FinishCounts(g: Graph, s: State, id: Id)
    requires Fifo(g, s) && !IsContainer(Comp(g, id).kind)
    ensures Fifo(g, Finish(s, id)) && Ledger(g, Finish(s, id)) == Ledger(g, s) + multiset{id}
  {
    hide FinishedOf, Emitted, Streaming, SetOutput;
    if Streaming(s.outs, id) && s.error == "" {
      assert s.released + (s.partials + [id]) == s.released + s.partials + [id];
    } else {
      Emit(g, s.events, NodeFinished(id));
      EmittedMore(s.released, s.events, NodeFinished(id));
    }
  }

  lemma {:induction false} RouteKeeps(g: Graph, w: World, s: State, id: Id, diverted: bool)
    requires Fifo(g, s) && WellFormed(g) && id in g.comps
    ensures var t := Route(g, w, s, id, diverted); Fifo(g, t) && Ledger(g, t) == Ledger(g, s)
  {
    hide FinishedOf, Extend, Successors, WellFormed, Emitted;
    if Comp(g, id).parent.Some? {
      ParentIsContainer(g, id);
      Emit(g, s.events, NodeFinished(Comp(g, id).parent.value));
      EmittedMore(s.released, s.events, NodeFinished(Comp(g, id).parent.value));
    }
  }

  lemma {:induction false} ParentIsContainer(g: Graph, id: Id)
    requires WellFormed(g) && id in g.comps && g.comps[id].parent.Some?
    ensures IsContainer(Comp(g, g.comps[id].parent.value).kind)
  {
    assert WellFormedComponent(g, id);
  }

  lemma {:induction false} PostOneBalanced(g: Graph, w: World, s: State, start: nat, i: nat)
    requires WellFormed(g) && i < |s.path| && s.path[i] in g.comps && Balanced(g, s, start, i)
    ensures Balanced(g, PostOne(g, w, s, i), start, i + 1)
  {
    hide WellFormed, FinishedOf, Counted, Speak, HandleError, Finish, Route, Ledger, Fifo;
    var id := s.path[i];
    var c := Comp(g, id);
    if c.kind.Message? { SpeakKeeps(g, w, s, id); }
    var s1 := if c.kind.Message? then Speak(w, s, id) else s;
    HandleErrorKeeps(g, s1, id);
    var (s2, diverted) := HandleError(c, s1, id);
    if !IsContainer(c.kind) { FinishCounts(g, s2, id); }
    var s3 := if IsContainer(c.kind) then s2 else Finish(s2, id);
    RouteKeeps(g, w, s3, id, diverted);
    var r := PostOne(g, w, s, i);
    CountedSnoc(g, s.path, r.path, start, i);
  }

  lemma {:induction false} CountedSnoc(g: Graph, p: seq<Id>, q: seq<Id>, start: nat, i: nat)
    requires start <= i < |p| && p <= q
    ensures Counted(g, q[start..i + 1]) ==
            Counted(g, p[start..i]) + (if IsContainer(Comp(g, p[i]).kind) then multiset{} else multiset{p[i]})
  {
    hide Counted, IsContainer;
    var ids := q[start..i + 1];
    assert ids[..|ids| - 1] == p[start..i] by { assert q[..i] == p[..i]; }
    CountedLast(g, ids);
  }

  lemma {:induction false} CountedLast(g: Graph, ids: seq<Id>)
    requires ids != []
    ensures var x := ids[|ids| - 1];
      Counted(g, ids) == Counted(g, ids[..|ids| - 1]) + if IsContainer(Comp(g, x).kind) then multiset{} else multiset{x}
  {
  }

  lemma {:induction false} PostRangeBalanced(g: Graph, w: World, s: State, start: nat, i: nat, j: nat)
    requires WellFormed(g) && i <= j <= |s.path| && InGraph(g, s.path[i..j]) && Balanced(g, s, start, i)
    ensures Balanced(g, PostRange(g, w, s, i, j), start, j)
    decreases j - i
  {
    hide WellFormed, Balanced, PostOne;
    if i < j {
      assert s.path[i..j][0] == s.path[i];
      PostOneBalanced(g, w, s, start, i);
      var t := PostOne(g, w, s, i);
      assert t.path[i + 1..j] == s.path[i..j][1..];
      PostRangeBalanced(g, w, t, start, i + 1, j);
    }
  }

  lemma {:induction false} RunBatchBalanced(g: Graph, w: World, s: State, start: nat)
    requires s.idx <= |s.path| && Balanced(g, s, start, s.idx)
    ensures Balanced(g, RunBatch(g, w, s), start, s.idx)
  {
    hide Counted, FinishedOf, Fifo, Scan;
    EmitStarted(g, s.events, s.path[s.idx..]);
    var r := RunBatch(g, w, s);
    assert r.path[start..s.idx] == s.path[start..s.idx] by { assert r.path[..s.idx] == s.path[..s.idx]; }
    assert Fifo(g, s) ==> Fifo(g, r) by { FifoSame(g, s, r, Started(s.path[s.idx..])); }
  }

  lemma {:induction false} FifoSame(g: Graph, s: State, r: State, more: seq<Event>)
    requires r.partials == s.partials && r.deferred == s.deferred && r.released == s.released && r.events == s.events + more
    ensures Fifo(g, s) ==> Fifo(g, r)
  {
    hide Emitted;
    if Emitted(s.released, s.events) { EmittedConcat(s.released, s.events, more); }
  }

  /** The books balance at every point of a run between two post-processed components. */
  ghost predicate AlwaysBalanced(g: Graph, w: World, s: State, fuel: nat, start: nat)
    requires s.idx <= |s.path|
    decreases fuel
  {
    && Balanced(g, s, start, s.idx)
    && (s.idx < |s.path| && fuel > 0 && !w.canceled(s.clock) ==>
          var s1 := RunBatch(g, w, s);
          var t := Batch(g, w, s);
          && (forall j | s.idx <= j <= s1.to :: Balanced(g, PostRange(g, w, s1, s.idx, j), start, j))
          && (t.error == "" && FillUps(g, t.path[t.to..]) == [] ==>
                AlwaysBalanced(g, w, t.(idx := t.to), fuel - 1, start)))
  }

  lemma {:induction false} RunLoopBalanced(g: Graph, w: World, s: State, fuel: nat, start: nat)
    requires WellFormed(g) && WorldOk(g, w) && NextOk(g, s.outs) && InGraph(g, s.path) && s.idx <= |s.path|
    requires Balanced(g, s, start, s.idx)
    ensures AlwaysBalanced(g, w, s, fuel, start)
    decreases fuel
  {
    hide WellFormed, WorldOk, NextOk, Balanced, RunBatch, PostRange, FillUps;
    if s.idx < |s.path| && fuel > 0 && !w.canceled(s.clock) {
      var s1 := RunBatch(g, w, s);
      var t := Batch(g, w, s);
      RunBatchBalanced(g, w, s, start);
      RunBatchKeeps(g, w, s);
      forall j | s.idx <= j <= s1.to ensures Balanced(g, PostRange(g, w, s1, s.idx, j), start, j) {
        PostRangeBalanced(g, w, s1, start, s.idx, j);
      }
      BatchKeeps(g, w, s);
      if t.error == "" && FillUps(g, t.path[t.to..]) == [] {
        var u := t.(idx := t.to);
        assert Balanced(g, u, start, u.idx) by { BalancedMoves(g, t, start, t.to); }
        RunLoopBalanced(g, w, u, fuel - 1, start);
      }
    }
  }

  lemma {:induction false} BalancedMoves(g: Graph, t: State, start: nat, i: nat)
    requires Balanced(g, t, start, i)
    ensures Balanced(g, t.(idx := i), start, i)
  {
  }

  /** Event accounting over a whole run, from any state a run may be started in. */
  lemma {:induction false} RunBalanced(g: Graph, w: World, s: State, fuel: nat)
    requires WellFormed(g) && WorldOk(g, w) && InGraph(g, s.path)
    ensures AlwaysBalanced(g, w, Start(s), fuel, Start(s).idx)
  {
    hide WellFormedComponent, NamedFillUp, AlwaysBalanced;
    var s0 := Start(s);
    assert NextOk(g, s0.outs);
    assert s0.path[s0.idx..s0.idx] == [];
    Emit(g, [], WorkflowStarted);
    assert [] + [WorkflowStarted] == [WorkflowStarted];
    RunLoopBalanced(g, w, s0, fuel, s0.idx);
  }

  // ---------------------------------------------------------------- suspension

  /** Fill-ups first, everything else after. */
  predicate FillUpsFirst(g: Graph, ids: seq<Id>) {
    forall i, j | 0 <= i < j < |ids| :: Comp(g, ids[j]).kind.UserFillUp? ==> Comp(g, ids[i]).kind.UserFillUp?
  }

  lemma {:induction false} PartitionMembers(g: Graph, ids: seq<Id>)
    ensures multiset(FillUps(g, ids)) + multiset(Others(g, ids)) == multiset(ids)
    decreases |ids|
  {
    if ids != [] {
      assert ids == [ids[0]] + ids[1..];
      PartitionMembers(g, ids[1..]);
    }
  }

  lemma {:induction false} PartitionAgain(g: Graph, ids: seq<Id>)
    ensures FillUps(g, FillUps(g, ids)) == FillUps(g, ids) && Others(g, FillUps(g, ids)) == []
    ensures Others(g, Others(g, ids)) == Others(g, ids) && FillUps(g, Others(g, ids)) == []
    decreases |ids|
  {
    if ids != [] {
      var a, b := FillUps(g, ids[1..]), Others(g, ids[1..]);
      PartitionAgain(g, ids[1..]);
      assert ([ids[0]] + a)[1..] == a && ([ids[0]] + b)[1..] == b && [] + a == a && [] + b == b;
    }
  }

  lemma {:induction false} SplitConcat(g: Graph, a: seq<Id>, b: seq<Id>)
    ensures FillUps(g, a + b) == FillUps(g, a) + FillUps(g, b) && Others(g, a + b) == Others(g, a) + Others(g, b)
    decreases |a|
  {
    if a == [] {
      assert a + b == b;
    } else {
      assert (a + b)[1..] == a[1..] + b;
      SplitConcat(g, a[1..], b);
    }
  }

  lemma {:induction false} AllOfAKind(g: Graph, ids: seq<Id>)
    ensures Others(g, ids) == [] ==> ids == FillUps(g, ids) && forall x | x in ids :: Comp(g, x).kind.UserFillUp?
    ensures FillUps(g, ids) == [] ==> ids == Others(g, ids) && forall x | x in ids :: !Comp(g, x).kind.UserFillUp?
    decreases |ids|
  {
    if ids != [] {
      AllOfAKind(g, ids[1..]);
      assert ids == [ids[0]] + ids[1..];
    }
  }

  /** Fill-ups first together with the order inside both groups leaves only one arrangement. */
  lemma {:induction false} Arranged(g: Graph, ids: seq<Id>)
    requires FillUpsFirst(g, ids)
    ensures ids == FillUps(g, ids) + Others(g, ids)
    decreases |ids|
  {
    if ids != [] {
      var rest := ids[1..];
      assert ids == [ids[0]] + rest;
      assert FillUpsFirst(g, rest) by {
        forall i, j | 0 <= i < j < |rest| && Comp(g, rest[j]).kind.UserFillUp?
          ensures Comp(g, rest[i]).kind.UserFillUp?
        {
          assert ids[i + 1] == rest[i] && ids[j + 1] == rest[j];
        }
      }
      Arranged(g, rest);
      if !Comp(g, ids[0]).kind.UserFillUp? {
        forall x | x in rest ensures !Comp(g, x).kind.UserFillUp? {
          var k :| 0 <= k < |rest| && rest[k] == x;
          assert ids[k + 1] == x;
        }
        NoFillUps(g, rest);
      }
    }
  }

  lemma {:induction false} NoFillUps(g: Graph, ids: seq<Id>)
    requires forall x | x in ids :: !Comp(g, x).kind.UserFillUp?
    ensures FillUps(g, ids) == []
    decreases |ids|
  {
    if ids != [] { NoFillUps(g, ids[1..]); }
  }

  lemma {:induction false} ConcatArranged(g: Graph, a: seq<Id>, b: seq<Id>)
    requires (forall x | x in a :: Comp(g, x).kind.UserFillUp?) && (forall x | x in b :: !Comp(g, x).kind.UserFillUp?)
    ensures FillUpsFirst(g, a + b)
  {
    var saved := a + b;
    forall i, j | 0 <= i < j < |saved|
      ensures Comp(g, saved[j]).kind.UserFillUp? ==> Comp(g, saved[i]).kind.UserFillUp?
    {
      if j < |a| { assert saved[i] in a; } else { assert saved[j] == b[j - |a|]; assert saved[j] in b; }
    }
  }

  /** Suspending conserves the pending work: the saved path is the one rearrangement of the pending suffix
      with the fill-ups first and both groups in their original order. */
  lemma {:induction false} SuspendConserves(g: Graph, w: World, s: State, q: seq<Id>)
    requires s.idx <= |s.path|
    ensures var pending, saved := s.path[s.idx..], Suspend(g, w, s).path;
      && multiset(saved) == multiset(pending)
      && (q == saved <==>
            FillUpsFirst(g, q) && FillUps(g, q) == FillUps(g, pending) && Others(g, q) == Others(g, pending))
  {
    hide FillUps, Others, FillUpsFirst, InvokeAll, Comp;
    var pending := s.path[s.idx..];
    var a, b := FillUps(g, pending), Others(g, pending);
    PartitionMembers(g, pending);
    PartitionAgain(g, pending);
    SplitConcat(g, a, b);
    AllOfAKind(g, a);
    AllOfAKind(g, b);
    ConcatArranged(g, a, b);
    assert Suspend(g, w, s).path == a + b;
    assert a + [] == a && [] + b == b;
    if FillUpsFirst(g, q) { Arranged(g, q); }
  }

  /** The ids follow the front end's convention when the name and the kind agree on what a fill-up is. */
  predicate Conventional(g: Graph) {
    forall x | x in g.comps :: NamedFillUp(x) == g.comps[x].kind.UserFillUp?
  }

  /** What the run after a suspension starts with: the last saved entry if its id names a fill-up, a new Begin
      otherwise.  Under the convention it resumes at a fill-up exactly when only fill-ups were pending, and then only
      the last of them is executed; the saved entries before it count as executed. */
  lemma {:induction false} ResumeAfterSuspend(g: Graph, w: World, s: State)
    requires s.idx <= |s.path| && FillUps(g, s.path[s.idx..]) != []
    ensures var pending, saved := s.path[s.idx..], Suspend(g, w, s).path;
      var t := Start(Suspend(g, w, s));
      && saved != [] && saved[|saved| - 1] in pending
      && (t.path == saved <==> NamedFillUp(saved[|saved| - 1]))
      && (t.path == saved ==> t.path[t.idx..] == [saved[|saved| - 1]])
      && (t.path != saved ==> t.path == saved + ["begin"] && t.path[t.idx..] == ["begin"])
      && (Others(g, pending) == [] ==> saved == pending)
      && (Conventional(g) && InGraph(g, pending) ==> (t.path == saved <==> Others(g, pending) == []))
  {
    hide NamedFillUp, Reset, InvokeAll, Conventional;
    var pending, saved := s.path[s.idx..], Suspend(g, w, s).path;
    AllOfAKind(g, pending);
    LastSaved(g, pending);
    assert saved == FillUps(g, pending) + Others(g, pending);
    var last := saved[|saved| - 1];
    if Conventional(g) && InGraph(g, pending) { ByConvention(g, last); }
  }

  lemma {:induction false} ByConvention(g: Graph, x: Id)
    requires Conventional(g) && x in g.comps
    ensures NamedFillUp(x) == Comp(g, x).kind.UserFillUp?
  {
  }

  lemma {:induction false} LastSaved(g: Graph, pending: seq<Id>)
    requires FillUps(g, pending) != []
    ensures var saved := FillUps(g, pending) + Others(g, pending);
      var last := saved[|saved| - 1];
      last in pending && (Comp(g, last).kind.UserFillUp? <==> Others(g, pending) == [])
  {
    hide FillUps, Others, Comp;
    var a, b := FillUps(g, pending), Others(g, pending);
    PartitionMembers(g, pending);
    PartitionAgain(g, pending);
    AllOfAKind(g, a);
    AllOfAKind(g, b);
    var saved := a + b;
    var last := saved[|saved| - 1];
    if b == [] { assert last in a; } else { assert last == b[|b| - 1]; assert last in b; }
    assert last in multiset(pending);
  }
}

/** The canvas object: the fields the scheduler updates in place, and methods that update them step by step.
    Every method is proved to compute the function of CanvasModel named in its contract. */
module CanvasObject {
  import opened Options
  import opened CanvasModel
  import opened CanvasInvariants
  import opened CanvasRouting

  class Canvas {
    const g: Graph
    const w: World
    var path: seq<Id>
    var idx: nat
    var to: nat
    var partials: seq<Id>
    var error: string
    var outs: Outs
    var turn: map<Id, int>
    var events: seq<Event>
    var clock: nat
    ghost var deferred: seq<Id>
    ghost var released: seq<Id>

    ghost function View(): State
      reads this
    {
      State(path, idx, to, partials, error, outs, turn, events, clock, deferred, released)
    }

    constructor (graph: Graph, world: World, savedPath: seq<Id>, globals: map<string, Value>)
      ensures g == graph && w == world && path == savedPath
      ensures View() == State(savedPath, 0, 0, [], "", map["" := globals], map[], [], 0, [], [])
    {
      g, w, path := graph, world, savedPath;
      idx, to, partials, error := 0, 0, [], "";
      outs, turn, events, clock := map["" := globals], map[], [], 0;
      deferred, released := [], [];
    }

    // -------------------------------------------------------------- component lookups

    /** `get_start`: the first item in dictionary order whose parent is the component. */
    method FindStart(id: Id) returns (r: Option<Id>)
      ensures r == GetStart(g, id)
      ensures r.Some? ==> r.value in g.order && StartsContainer(g, id, r.value)
      ensures r.None? ==> forall cid | cid in g.order :: !StartsContainer(g, id, cid)
    {
      for i := 0 to |g.order|
        invariant GetStart(g, id) == FirstStart(g, id, g.order[i..])
        invariant forall k | 0 <= k < i :: !StartsContainer(g, id, g.order[k])
      {
        if StartsContainer(g, id, g.order[i]) {
          return Some(g.order[i]);
        }
        assert g.order[i..][1..] == g.order[i + 1..];
      }
      return None;
    }

    /** The inner loop of `output_collation`, for one body component. */
    method CollateFrom(pid: Id, cid: Id) returns (ok: bool)
      modifies this`outs
      ensures (outs, ok) == Collate(old(outs), pid, TargetsOf(Comp(g, pid).collects, cid))
    {
      ok := true;
      var collects := Comp(g, pid).collects;
      for j := 0 to |collects|
        invariant Collate(old(outs), pid, TargetsOf(collects, cid)) == Collate(outs, pid, TargetsOf(collects[j..], cid))
      {
        assert collects[j..][1..] == collects[j + 1..];
        ghost var rest := TargetsOf(collects[j + 1..], cid);
        if collects[j].ref.cid != cid {
          assert TargetsOf(collects[j..], cid) == rest;
          continue;
        }
        assert TargetsOf(collects[j..], cid) == [collects[j]] + rest;
        assert ([collects[j]] + rest)[1..] == rest;
        var res := Output(outs, pid, collects[j].key);
        if res.Truthy() && !res.List? {
          ok := false;
          return;
        }
        var v := Output(outs, cid, collects[j].ref.name);
        outs := SetOutput(outs, pid, collects[j].key, List((if res.List? then res.items else []) + [v]));
      }
    }

    lemma {:induction false} CollateConcat(o: Outs, pid: Id, a: seq<Collect>, b: seq<Collect>)
      ensures var (r, ok) := Collate(o, pid, a);
        Collate(o, pid, a + b) == if ok then Collate(r, pid, b) else (r, false)
      decreases |a|
    {
      if a == [] {
        assert a + b == b;
      } else {
        assert (a + b)[0] == a[0] && (a + b)[1..] == a[1..] + b;
        var res := Output(o, pid, a[0].key);
        var v := List((if res.List? then res.items else []) + [Output(o, a[0].ref.cid, a[0].ref.name)]);
        CollateConcat(SetOutput(o, pid, a[0].key, v), pid, a[1..], b);
      }
    }

    /** `output_collation`: append what the finished pass left in the outputs the iteration collects. */
    method OutputCollation(pid: Id) returns (ok: bool)
      modifies this`outs
      ensures (outs, ok) == Collate(old(outs), pid, Targets(g, pid, g.order))
    {
      hide TargetsOf, Collate;
      ok := true;
      for i := 0 to |g.order|
        invariant ok && Collate(old(outs), pid, Targets(g, pid, g.order)) == Collate(outs, pid, Targets(g, pid, g.order[i..]))
      {
        var cid := g.order[i];
        ghost var later := Targets(g, pid, g.order[i + 1..]);
        assert g.order[i..][1..] == g.order[i + 1..];
        if Comp(g, cid).parent != Some(pid) {
          assert [] + later == later;
          continue;
        }
        CollateConcat(outs, pid, TargetsOf(Comp(g, pid).collects, cid), later);
        ok := CollateFrom(pid, cid);
        if !ok { return; }
      }
      assert Targets(g, pid, g.order[|g.order|..]) == [];
      assert Collate(outs, pid, []) == (outs, true) by { CollateNothing(outs, pid); }
    }

    lemma {:induction false} CollateNothing(o: Outs, pid: Id)
      ensures Collate(o, pid, []) == (o, true)
    {
    }

    /** `IterationItem._invoke`. */
    method InvokeItem(id: Id)
      modifies this`outs, this`turn
      ensures (outs, turn) == ItemInvoke(g, w, clock, old(outs), old(turn), id)
    {
      hide Raise, Collate, Targets, Resolve, SetOutput, Notice, Comp;
      if w.canceled(clock + 1) {
        outs := Notice(outs, id);
        return;
      }
      var c := Comp(g, id);
      var pid := if c.parent.Some? then c.parent.value else "";
      var arr := Resolve(g, outs, Comp(g, pid).itemsRef);
      if arr.None? {
        outs := Raise(c, outs, id, "cannot find variable");
        return;
      }
      if !arr.value.List? {
        turn := turn[id := -1];
        outs := Raise(c, outs, id, "must be an array");
        return;
      }
      var items := arr.value.items;
      var k := TurnOf(turn, id);
      if k > 0 {
        if w.canceled(clock + 2) {
          outs := Notice(outs, id);
          return;
        }
        var ok := OutputCollation(pid);
        if !ok {
          outs := Raise(c, outs, id, "cannot append");
          return;
        }
      }
      if k >= |items| {
        turn := turn[id := -1];
        return;
      }
      if w.canceled(clock + 3) {
        outs := Notice(outs, id);
        return;
      }
      if k < 0 && |items| + k < 0 {
        outs := Raise(c, outs, id, "list index out of range");
        return;
      }
      outs := SetOutput(outs, id, "item", if k < 0 then items[|items| + k] else items[k]);
      outs := SetOutput(outs, id, "index", Num(k));
      turn := turn[id := k + 1];
    }

    /** `LoopItem._invoke`. */
    method InvokeLoopItem(id: Id)
      modifies this`outs, this`turn
      ensures (outs, turn) == LoopItemInvoke(g, w, clock, old(outs), old(turn), id)
    {
      if w.canceled(clock + 1) {
        outs := Notice(outs, id);
        return;
      }
      var c := Comp(g, id);
      var limit := if c.parent.Some? then Comp(g, c.parent.value).maxLoops else 0;
      var k := TurnOf(turn, id);
      if k >= limit {
        turn := turn[id := -1];
        return;
      }
      if k > 0 && w.canceled(clock + 2) {
        outs := Notice(outs, id);
        return;
      }
      turn := turn[id := k + 1];
    }

    /** `Iteration._invoke`. */
    method InvokeIteration(id: Id)
      modifies this`outs
      ensures outs == IterationInvoke(g, w, clock, old(outs), id)
    {
      if w.canceled(clock + 1) {
        outs := Notice(outs, id);
        return;
      }
      var c := Comp(g, id);
      var arr := Resolve(g, outs, c.itemsRef);
      if arr.None? {
        outs := Raise(c, outs, id, "cannot find variable");
      } else if !arr.value.List? {
        outs := SetOutput(outs, id, "_ERROR", Str("must be an array"));
      }
    }

    /** `invoke` with its try and except. */
    method InvokeBody(id: Id)
      modifies this`outs
      ensures outs == Perform(g, w, clock, id, old(outs))
    {
      var (o, raised) := w.invoke(clock, id, outs);
      outs := o;
      if raised.Some? {
        var handler := Comp(g, id).handler;
        if handler.Some? && handler.value.method_ == "comment" && handler.value.fallback.Truthy() {
          outs := SetOutput(outs, id, "result", handler.value.fallback);
        } else {
          outs := SetOutput(outs, id, "_ERROR", Str(raised.value));
        }
      }
    }

    method InvokeOne(id: Id)
      modifies this`outs, this`turn, this`clock
      ensures View() == Invoke(g, w, old(View()), id)
    {
      var k := Comp(g, id).kind;
      if k.IterationItem? {
        InvokeItem(id);
      } else if k.LoopItem? {
        InvokeLoopItem(id);
      } else if k.Iteration? {
        InvokeIteration(id);
      } else {
        InvokeBody(id);
      }
      clock := clock + Ticks(k);
    }

    method InvokeMany(ids: seq<Id>)
      modifies this`outs, this`turn, this`clock
      ensures View() == InvokeAll(g, w, old(View()), ids)
    {
      for i := 0 to |ids|
        invariant InvokeAll(g, w, old(View()), ids) == InvokeAll(g, w, View(), ids[i..])
      {
        assert ids[i..][1..] == ids[i + 1..];
        InvokeOne(ids[i]);
      }
    }

    // -------------------------------------------------------------- one batch

    /** The scan of `_run_batch`: walk the pending entries and pop those whose inputs are not ready.  The
        entries that stay are the tasks of the batch. */
    method DropUnready(f: nat) returns (tasks: seq<Id>)
      requires f <= |path|
      modifies this`path
      ensures path == Scan(g, old(path)[..f], old(path)[f..])
      ensures f <= |path| && path[..f] == old(path)[..f] && tasks == path[f..]
    {
      var i, t := f, |path|;
      tasks := [];
      while i < t
        invariant f <= i <= t == |path|
        invariant Scan(g, path[..i], path[i..]) == Scan(g, old(path)[..f], old(path)[f..])
        invariant path[..f] == old(path)[..f] && tasks == path[f..i]
        decreases t - i
      {
        var c := Comp(g, path[i]);
        var done, pending := path[..i], path[i..];
        assert (done + pending)[0] == path[0] && pending[1..] == path[i + 1..];
        if IsInput(c.kind) {
          assert path[..i + 1] == done + [path[i]];
          tasks := tasks + [path[i]];
          i := i + 1;
        } else {
          var waived := NamedFillUp(path[0]);
          var drop := false;
          for k := 0 to |c.refs|
            invariant !drop && (waived || forall m | 0 <= m < k :: c.refs[m] in done)
          {
            if c.refs[k] !in path[..i] && !waived {
              drop := true;
              break;
            }
          }
          assert drop <==> !Ready(g, done, pending);
          if drop {
            path := path[..i] + path[i + 1..];
            t := t - 1;
            assert path[..i] == done && path[i..] == pending[1..];
          } else {
            assert path[..i + 1] == done + [path[i]];
            tasks := tasks + [path[i]];
            i := i + 1;
          }
        }
      }
      assert path[..i] == path && path[i..] == [];
    }

    method ExecuteTasks()
      requires idx <= |path|
      modifies this
      ensures View() == RunBatch(g, w, old(View()))
    {
      events := events + Started(path[idx..]);
      var tasks := DropUnready(idx);
      to := |path|;
      InvokeMany(tasks);
    }

    // -------------------------------------------------------------- post-processing

    method AppendSuccessor(id: Id)
      modifies this`path
      ensures path == Append(old(path), id)
    {
      if path != [] && path[|path| - 1] == id { return; }
      path := path + [id];
    }

    method ExtendSuccessors(ids: seq<Id>)
      modifies this`path
      ensures path == Extend(old(path), ids)
    {
      for i := 0 to |ids|
        invariant Extend(old(path), ids) == Extend(path, ids[i..])
      {
        assert ids[i..][1..] == ids[i + 1..];
        AppendSuccessor(ids[i]);
      }
    }

    /** After a message: emit what was deferred until something still streams. */
    method FlushPartials()
      modifies this
      ensures View() == Flush(old(View()))
      ensures partials != [] ==> Streaming(outs, partials[0])
      ensures exists n :: 0 <= n <= |old(partials)| && partials == old(partials)[n..] && released == old(released) + old(partials)[..n]
    {
      ghost var n := 0;
      while partials != []
        invariant 0 <= n <= |old(partials)| && partials == old(partials)[n..] && released == old(released) + old(partials)[..n]
        invariant Flush(View()) == Flush(old(View()))
        decreases |partials|
      {
        if Streaming(outs, partials[0]) { break; }
        events := events + [NodeFinished(partials[0])];
        released := released + [partials[0]];
        partials := partials[1..];
        n := n + 1;
        assert old(partials)[..n] == old(partials)[..n - 1] + [old(partials)[n - 1]];
      }
    }

    method SendMessage(id: Id)
      modifies this
      ensures View() == Speak(w, old(View()), id)
    {
      hide Flush, Streaming;
      if Streaming(outs, id) {
        var (o, text) := w.drain(clock, id, outs);
        outs := SetOutput(o, id, "content", Str(text));
        clock := clock + 1;
      }
      events := events + [MessageSent(id), MessageEnd(id)];
      FlushPartials();
    }

    method HandleFailure(id: Id) returns (diverted: bool)
      modifies this`path, this`events, this`error
      ensures (View(), diverted) == HandleError(Comp(g, id), old(View()), id)
    {
      diverted := false;
      if Failed(outs, id) {
        var h := Comp(g, id).handler;
        if h.Some? && h.value.goto_ != [] {
          path := path + h.value.goto_;
          diverted := true;
        } else if h.Some? && h.value.fallback.Truthy() {
          events := events + [MessageSent(id), MessageEnd(id)];
        } else {
          error := ErrorOf(outs, id);
        }
      }
    }

    method FinishNode(id: Id)
      modifies this
      ensures View() == Finish(old(View()), id)
    {
      if Streaming(outs, id) {
        if error != "" {
          outs := SetOutput(outs, id, "content", Null);
          events := events + [NodeFinished(id)];
        } else {
          partials := partials + [id];
          deferred := deferred + [id];
        }
      } else {
        events := events + [NodeFinished(id)];
      }
    }

    /** `end` of an iteration or loop item. */
    method CheckEnd(id: Id) returns (ended: bool)
      requires IsItem(Comp(g, id).kind)
      modifies this`turn, this`clock
      ensures (View(), ended) == ItemEnded(g, w, old(View()), id)
    {
      if TurnOf(turn, id) == -1 { return true; }
      if Comp(g, id).kind.IterationItem? { return false; }
      ended := w.loopDone(clock, id, outs);
      clock := clock + 1;
      if ended { turn := turn[id := -1]; }
    }

    method AppendStart(id: Id)
      requires GetStart(g, id).Some?
      modifies this`path
      ensures path == Extend(old(path), [GetStart(g, id).value])
    {
      var start := FindStart(id);
      ExtendOne(path, start.value);
      AppendSuccessor(start.value);
    }

    method AddSuccessors(id: Id, ended: bool)
      requires WellFormed(g) && id in g.comps && (ended ==> IsItem(Comp(g, id).kind))
      modifies this`path
      ensures path == Extend(old(path), Successors(g, old(View()), id, ended))
    {
      hide WellFormed, Extend, GetStart;
      var c := Comp(g, id);
      Lookups(g, id);
      if ended {
        ExtendSuccessors(Comp(g, c.parent.value).downstream);
      } else if c.kind.Categorize? || c.kind.Switch? {
        ExtendSuccessors(NextOf(outs, id));
      } else if IsContainer(c.kind) {
        AppendStart(id);
      } else if c.kind.ExitLoop? && Comp(g, c.parent.value).kind.Loop? {
        ExtendSuccessors(Comp(g, c.parent.value).downstream);
      } else if c.downstream == [] && c.parent.Some? {
        AppendStart(c.parent.value);
      } else {
        ExtendSuccessors(c.downstream);
      }
    }

    method Dispatch(id: Id, diverted: bool)
      requires WellFormed(g) && id in g.comps
      modifies this
      ensures View() == Route(g, w, old(View()), id, diverted)
      ensures diverted ==> path == old(path)
      ensures !diverted ==> exists ids, at :: HandsOn(g, View(), id, ids) && Takes(old(path), path, ids, at)
    {
      hide WellFormed, Extend, Successors, HandsOn, Takes;
      RouteHandsOn(g, w, View(), id);
      Lookups(g, id);
      var c := Comp(g, id);
      var ended := false;
      if IsItem(c.kind) {
        ended := CheckEnd(id);
      }
      if ended {
        events := events + [NodeFinished(c.parent.value)];
      }
      if !diverted {
        AddSuccessors(id, ended);
      }
    }

    method PostProcess(i: nat)
      requires WellFormed(g) && i < |path| && path[i] in g.comps
      modifies this
      ensures View() == PostOne(g, w, old(View()), i)
      ensures Routed(g, old(path), old(path)[i], View())
    {
      hide WellFormed, Extend, Successors, ItemEnded, Routed, HandsOn, Takes;
      PostOneRouted(g, w, View(), i);
      var id := path[i];
      var c := Comp(g, id);
      if c.kind.Message? {
        SendMessage(id);
      }
      var diverted := HandleFailure(id);
      if !IsContainer(c.kind) {
        FinishNode(id);
      }
      Dispatch(id, diverted);
    }

    method ExecuteBatch()
      requires WellFormed(g) && idx <= |path| && InGraph(g, path)
      modifies this
      ensures View() == Batch(g, w, old(View()))
    {
      hide WellFormed, PostOne, RunBatch;
      ghost var s := View();
      ExecuteTasks();
      assert forall k | idx <= k < to :: path[k] in g.comps by { BatchInGraph(s); }
      ghost var s1 := View();
      for i := idx to to
        invariant idx == s.idx && to == s1.to && i <= to && s1.path <= path
        invariant PostRange(g, w, s1, idx, s1.to) == PostRange(g, w, View(), i, s1.to)
      {
        PostProcess(i);
      }
    }

    lemma {:induction false} BatchInGraph(s: State)
      requires s.idx <= |s.path| && InGraph(g, s.path)
      ensures InGraph(g, RunBatch(g, w, s).path)
    {
      var done, pending := s.path[..s.idx], s.path[s.idx..];
      ScanInGraph(done, pending);
    }

    lemma {:induction false} ScanInGraph(done: seq<Id>, pending: seq<Id>)
      requires InGraph(g, done) && InGraph(g, pending)
      ensures InGraph(g, Scan(g, done, pending))
      decreases |pending|
    {
      if pending != [] {
        ScanInGraph(done + [pending[0]], pending[1..]);
        ScanInGraph(done, pending[1..]);
      }
    }

    // -------------------------------------------------------------- a run

    /** What a canvas keeps between runs. */
    ghost predicate Valid()
      reads this
    {
      WellFormed(g) && WorldOk(g, w) && InGraph(g, path) && NextOk(g, outs)
    }

    lemma {:induction false} SplitStep(ids: seq<Id>, i: nat, asked: seq<Id>, rest: seq<Id>)
      requires i < |ids|
      ensures Comp(g, ids[i]).kind.UserFillUp? ==>
                asked + FillUps(g, ids[i..]) == asked + [ids[i]] + FillUps(g, ids[i + 1..]) &&
                Others(g, ids[i..]) == Others(g, ids[i + 1..])
      ensures !Comp(g, ids[i]).kind.UserFillUp? ==>
                rest + Others(g, ids[i..]) == rest + [ids[i]] + Others(g, ids[i + 1..]) &&
                FillUps(g, ids[i..]) == FillUps(g, ids[i + 1..])
    {
      assert ids[i..][1..] == ids[i + 1..];
    }

    method SplitPending(pending: seq<Id>) returns (asked: seq<Id>, rest: seq<Id>)
      ensures asked == FillUps(g, pending) && rest == Others(g, pending)
    {
      asked, rest := [], [];
      assert pending[0..] == pending;
      for i := 0 to |pending|
        invariant asked + FillUps(g, pending[i..]) == FillUps(g, pending)
        invariant rest + Others(g, pending[i..]) == Others(g, pending)
      {
        hide FillUps, Others;
        SplitStep(pending, i, asked, rest);
        if Comp(g, pending[i]).kind.UserFillUp? {
          asked := asked + [pending[i]];
        } else {
          rest := rest + [pending[i]];
        }
      }
      assert pending[|pending|..] == [];
      assert asked + [] == asked && rest + [] == rest;
    }

    /** Stop for user input: run the fill-ups and put them first on the path. */
    method SuspendForInput()
      requires idx <= |path|
      modifies this
      ensures View() == Suspend(g, w, old(View()))
    {
      hide InvokeAll, FillUps, Others;
      var asked, rest := SplitPending(path[idx..]);
      InvokeMany(asked);
      path := asked + rest;
      events := events + [UserInputs(asked)];
    }

    /** The batch loop of `run`. */
    method ExecuteBatches(fuel: nat) returns (h: Halt)
      requires Valid() && idx <= |path|
      modifies this
      ensures (View(), h) == RunLoop(g, w, old(View()), fuel)
      ensures !h.Suspended? ==> idx <= |path|
    {
      hide WellFormed, WorldOk, NextOk, Batch, Suspend, FillUps;
      var left := fuel;
      while idx < |path|
        invariant Valid() && idx <= |path|
        invariant RunLoop(g, w, View(), left) == RunLoop(g, w, old(View()), fuel)
        decreases left
      {
        if left == 0 { return OutOfFuel; }
        if w.canceled(clock) {
          events := events + Started(path[idx..]);
          return Canceled;
        }
        BatchKeeps(g, w, View());
        ExecuteBatch();
        if error != "" { return Errored; }
        idx := to;
        if FillUps(g, path[idx..]) != [] {
          SuspendForInput();
          return Suspended;
        }
        left := left - 1;
      }
      return Finished;
    }

    lemma {:induction false} ResetOk(o: Outs)
      requires WellFormed(g)
      ensures NextOk(g, Reset(o)) && "begin" in g.comps
    {
    }

    lemma {:induction false} StartInGraph(s: State)
      requires InGraph(g, s.path) && "begin" in g.comps
      ensures InGraph(g, Start(s).path)
    {
      hide NamedFillUp, Reset;
    }

    /** `reset` of every component, and "begin" on the path unless the run resumes at a fill-up. */
    method Prepare()
      modifies this`outs, this`path
      ensures outs == Reset(old(outs)) && path == Start(old(View())).path
    {
      hide NamedFillUp, Reset;
      outs := Reset(outs);
      if path == [] || !NamedFillUp(path[|path| - 1]) {
        path := path + ["begin"];
      }
    }

    method StartRun()
      requires Valid()
      modifies this
      ensures View() == Start(old(View())) && Valid() && idx < |path|
    {
      hide WellFormed, WorldOk, NamedFillUp, NextOk, Reset, InGraph;
      ResetOk(outs);
      StartInGraph(View());
      Prepare();
      error, partials, events := "", [], [WorkflowStarted];
      idx, to, clock := |path| - 1, |path| - 1, clock + 1;
      deferred, released := [], [];
    }

    /** `Canvas.run`. */
    method ExecuteRun(fuel: nat) returns (h: Halt)
      requires Valid()
      modifies this
      ensures (View(), h) == Run(g, w, old(View()), fuel)
      ensures !w.canceled(old(clock)) ==> AlwaysRouted(g, w, Start(old(View())), fuel)
    {
      hide WellFormed, WorldOk, NextOk, RunLoop, Start, TellsOfCancel, AlwaysRouted;
      var now := clock;
      StartRun();
      if w.canceled(now) {
        events := [];
        return Canceled;
      }
      RunRouted(g, w, View(), fuel);
      h := ExecuteBatches(fuel);
      if h.Finished? {
        path := path[..idx];
        events := events + [WorkflowFinished];
      } else if h.Errored? {
        path := path[..idx];
        assert events + [] == events;
        if TellsOfCancel(error) {
          events := events + [WorkflowFinished];
        }
      }
    }
  }
}

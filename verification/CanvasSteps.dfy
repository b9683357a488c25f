/** What single steps of a run do, said of the values they leave: which entries a scan keeps, exceptions, the passes of
    a loop, the stop for user input, and what a run announces. */
module CanvasSteps {
  import opened Options
  import opened CanvasModel

  // ---------------------------------------------------------------- the scan

  /** The entries of `ids` that are marked. */
  function Marked(ids: seq<Id>, keep: seq<bool>): seq<Id>
    requires |ids| == |keep|
  {
    if ids == [] then [] else (if keep[0] then [ids[0]] else []) + Marked(ids[1..], keep[1..])
  }

  /** May a pending entry run when the path is `path` and it stands at place i of it? */
  predicate MayRun(g: Graph, path: seq<Id>, i: nat)
    requires i < |path|
  {
    var c := Comp(g, path[i]);
    c.kind.Begin? || c.kind.UserFillUp? || NamedFillUp(path[0]) || forall r | r in c.refs :: r in path[..i]
  }

  /** Entry i of `pending` is kept exactly when it may run behind what was kept before it. */
  predicate KeptExactly(g: Graph, done: seq<Id>, pending: seq<Id>, keep: seq<bool>)
    requires |keep| == |pending|
  {
    forall i | 0 <= i < |pending| ::
      var before := done + Marked(pending[..i], keep[..i]);
      keep[i] <==> MayRun(g, before + pending[i..], |before|)
  }

  lemma {:induction false} ReadyIs(g: Graph, done: seq<Id>, pending: seq<Id>)
    requires pending != []
    ensures Ready(g, done, pending) <==> MayRun(g, done + pending, |done|)
  {
    hide NamedFillUp;
    assert (done + pending)[|done|] == pending[0] && (done + pending)[..|done|] == done;
  }

  /** The scan keeps, in order, exactly the entries that may run behind those kept before them. */
  lemma {:induction false} ScanKeeps(g: Graph, done: seq<Id>, pending: seq<Id>) returns (keep: seq<bool>)
    ensures |keep| == |pending| && KeptExactly(g, done, pending, keep)
    ensures Scan(g, done, pending) == done + Marked(pending, keep)
    decreases |pending|
  {
    hide MayRun, Ready, KeptExactly;
    keep := [];
    if pending == [] {
      NothingPending(g, done);
    } else {
      var first := Ready(g, done, pending);
      var done1 := if first then done + [pending[0]] else done;
      var later := ScanKeeps(g, done1, pending[1..]);
      keep := [first] + later;
      assert keep[1..] == later;
      KeptCons(g, done, pending, later);
      assert first ==> done1 + Marked(pending[1..], later) == done + ([pending[0]] + Marked(pending[1..], later));
      assert [] + Marked(pending[1..], later) == Marked(pending[1..], later);
    }
  }

  lemma {:induction false} NothingPending(g: Graph, done: seq<Id>)
    ensures KeptExactly(g, done, [], []) && Scan(g, done, []) == done + Marked([], [])
  {
  }

  lemma {:induction false} KeptCons(g: Graph, done: seq<Id>, pending: seq<Id>, later: seq<bool>)
    requires pending != [] && |later| == |pending| - 1
    requires KeptExactly(g, if Ready(g, done, pending) then done + [pending[0]] else done, pending[1..], later)
    ensures KeptExactly(g, done, pending, [Ready(g, done, pending)] + later)
  {
    hide MayRun, Ready, Marked;
    var first := Ready(g, done, pending);
    var done1 := if first then done + [pending[0]] else done;
    var keep := [first] + later;
    forall i | 0 <= i < |pending|
      ensures var before := done + Marked(pending[..i], keep[..i]); keep[i] <==> MayRun(g, before + pending[i..], |before|)
    {
      if i == 0 {
        ReadyIs(g, done, pending);
        assert pending[..0] == [] && keep[..0] == [] && pending[0..] == pending;
        assert done + Marked([], []) == done by { NothingMarked(); }
      } else {
        MarkedCons(pending[..i], keep[..i]);
        assert pending[..i][1..] == pending[1..][..i - 1] && keep[..i][1..] == later[..i - 1] && pending[i..] == pending[1..][i - 1..];
        var rest := Marked(pending[1..][..i - 1], later[..i - 1]);
        assert done1 + rest == done + ((if first then [pending[0]] else []) + rest);
      }
    }
  }

  lemma {:induction false} NothingMarked()
    ensures Marked([], []) == []
  {
  }

  lemma {:induction false} MarkedCons(ids: seq<Id>, keep: seq<bool>)
    requires |ids| == |keep| && ids != []
    ensures Marked(ids, keep) == (if keep[0] then [ids[0]] else []) + Marked(ids[1..], keep[1..])
  {
  }

  // ---------------------------------------------------------------- exceptions

  predicate Ordinary(k: Kind) { !IsItem(k) && !k.Iteration? }

  /** The default a component puts in place of an exception. */
  predicate Comments(g: Graph, id: Id) {
    var h := Comp(g, id).handler;
    h.Some? && h.value.method_ == "comment" && h.value.fallback.Truthy()
  }

  /** All outputs other than the one named are the same. */
  ghost predicate OnlyOutput(o: Outs, o': Outs, id: Id, name: string) {
    forall x, n :: x != id || n != name ==> Output(o', x, n) == Output(o, x, n)
  }

  /** An exception in a component body leaves what the body had written, and becomes the `result` where a default is
      configured for it and the `_ERROR` where none is; a body that raises nothing is left alone. */
  lemma {:induction false} BodyRaises(g: Graph, w: World, s: State, id: Id)
    requires Ordinary(Comp(g, id).kind)
    ensures var (o, raised) := w.invoke(s.clock, id, s.outs);
      var r := Invoke(g, w, s, id);
      && r.turn == s.turn
      && (raised.None? ==> r.outs == o)
      && (raised.Some? && Comments(g, id) ==>
            Output(r.outs, id, "result") == Comp(g, id).handler.value.fallback && OnlyOutput(o, r.outs, id, "result"))
      && (raised.Some? && !Comments(g, id) ==>
            Output(r.outs, id, "_ERROR") == Str(raised.value) && OnlyOutput(o, r.outs, id, "_ERROR"))
  {
    var (o, raised) := w.invoke(s.clock, id, s.outs);
  }

  /** A container, or the item of one, that notices a cancellation does nothing but report it. */
  lemma {:induction false} CancelNoticed(g: Graph, w: World, s: State, id: Id)
    requires !Ordinary(Comp(g, id).kind) && w.canceled(s.clock + 1)
    ensures var r := Invoke(g, w, s, id);
      r.turn == s.turn && Output(r.outs, id, "_ERROR") == Str("Task has been canceled") && OnlyOutput(s.outs, r.outs, id, "_ERROR")
  {
  }

  /** An exception where there is no body: the default, or an error. */
  ghost predicate Fell(g: Graph, o: Outs, o': Outs, id: Id) {
    if Comments(g, id) then Output(o', id, "result") == Comp(g, id).handler.value.fallback && OnlyOutput(o, o', id, "result")
    else Failed(o', id) && OnlyOutput(o, o', id, "_ERROR")
  }

  lemma {:induction false} RaiseFalls(g: Graph, o: Outs, id: Id, msg: string)
    requires msg != ""
    ensures Fell(g, o, Raise(Comp(g, id), o, id, msg), id)
  {
  }

  /** An iteration passes over a list without a change, and reports anything else. */
  lemma {:induction false} IterationChecks(g: Graph, w: World, s: State, id: Id)
    requires Comp(g, id).kind.Iteration? && !w.canceled(s.clock + 1)
    ensures var arr, r := Resolve(g, s.outs, Comp(g, id).itemsRef), Invoke(g, w, s, id);
      && r.turn == s.turn
      && (arr.Some? && arr.value.List? ==> r.outs == s.outs)
      && (arr.Some? && !arr.value.List? ==> Failed(r.outs, id) && OnlyOutput(s.outs, r.outs, id, "_ERROR"))
      && (arr.None? ==> Fell(g, s.outs, r.outs, id))
  {
    hide Resolve, Raise, Fell;
    RaiseFalls(g, s.outs, id, "cannot find variable");
  }

  /** An item whose iteration has no list raises; it has ended if there is a value that is no list, and keeps its turn if
      there is none. */
  lemma {:induction false} ItemRaises(g: Graph, w: World, s: State, id: Id)
    requires Comp(g, id).kind.IterationItem? && Comp(g, id).parent.Some? && !w.canceled(s.clock + 1)
    ensures var arr, r := Resolve(g, s.outs, Comp(g, Comp(g, id).parent.value).itemsRef), Invoke(g, w, s, id);
      && (arr.None? ==> Fell(g, s.outs, r.outs, id) && r.turn == s.turn)
      && (arr.Some? && !arr.value.List? ==> Fell(g, s.outs, r.outs, id) && TurnOf(r.turn, id) == -1)
  {
    hide Resolve, Collate, Targets, Raise, Fell;
    RaiseFalls(g, s.outs, id, "cannot find variable");
    RaiseFalls(g, s.outs, id, "must be an array");
  }

  // ---------------------------------------------------------------- streams

  /** What becomes of the content of a component: a message is read to its end and keeps its text, a stream left when
      the run has an error is dropped, and anything else stays as it is. */
  lemma {:induction false} ContentAfter(g: Graph, w: World, s: State, i: nat)
    requires i < |s.path|
    ensures var id, r := s.path[i], PostOne(g, w, s, i);
      var c := Comp(g, id);
      Output(r.outs, id, "content") ==
        if !Output(s.outs, id, "content").Stream? then Output(s.outs, id, "content")
        else if c.kind.Message? then Str(w.drain(s.clock, id, s.outs).1)
        else if !IsContainer(c.kind) && r.error != "" then Null
        else Output(s.outs, id, "content")
  {
    hide Failed, ErrorOf, Successors, Extend, ItemEnded, Flush;
    var id := s.path[i];
    if Comp(g, id).kind.Message? { MessageSays(w, s, id); }
  }

  lemma {:induction false} MessageSays(w: World, s: State, id: Id)
    ensures Output(Speak(w, s, id).outs, id, "content") ==
            if Streaming(s.outs, id) then Str(w.drain(s.clock, id, s.outs).1) else Output(s.outs, id, "content")
  {
    hide Flush;
  }

  /** The first n of `partials` do not stream, and the next one, if there is one, does. */
  predicate Clear(outs: Outs, partials: seq<Id>, n: nat) {
    n <= |partials| && (forall k | 0 <= k < n :: !Streaming(outs, partials[k])) && (n < |partials| ==> Streaming(outs, partials[n]))
  }

  /** The first n of the deferred entries are let go, because the first that still streams is behind them; then the
      component itself is deferred if it still streams. */
  ghost predicate LetsGo(g: Graph, s: State, id: Id, r: State, n: nat) {
    && n <= |s.partials| && (if Comp(g, id).kind.Message? then Clear(r.outs, s.partials, n) else n == 0)
    && r.released == s.released + s.partials[..n]
    && r.partials == s.partials[n..] + (if !IsContainer(Comp(g, id).kind) && Streaming(r.outs, id) then [id] else [])
  }

  lemma {:induction false} ClearCons(outs: Outs, partials: seq<Id>, n: nat)
    requires partials != [] && !Streaming(outs, partials[0]) && Clear(outs, partials[1..], n)
    ensures Clear(outs, partials, n + 1)
    ensures partials[1..][n..] == partials[n + 1..] && [partials[0]] + partials[1..][..n] == partials[..n + 1]
  {
    hide Streaming;
    forall k | 0 <= k < n + 1 ensures !Streaming(outs, partials[k]) { if k > 0 { assert partials[k] == partials[1..][k - 1]; } }
  }

  lemma {:induction false} FlushLetsGo(s: State) returns (n: nat)
    ensures Clear(s.outs, s.partials, n)
    ensures Flush(s).released == s.released + s.partials[..n] && Flush(s).partials == s.partials[n..]
    decreases |s.partials|
  {
    hide Output, Clear;
    n := 0;
    if s.partials == [] || Streaming(s.outs, s.partials[0]) {
      NothingClear(s.outs, s.partials);
    } else {
      var x, rest := s.partials[0], s.partials[1..];
      var t := s.(partials := rest, events := s.events + [NodeFinished(x)], released := s.released + [x]);
      assert Flush(s) == Flush(t);
      hide Flush;
      n := FlushLetsGo(t);
      ClearBound(t.outs, rest, n);
      ClearCons(s.outs, s.partials, n);
      assert t.released + rest[..n] == s.released + ([x] + rest[..n]);
      n := n + 1;
    }
  }

  lemma {:induction false} NothingClear(outs: Outs, partials: seq<Id>)
    requires partials == [] || Streaming(outs, partials[0])
    ensures Clear(outs, partials, 0)
  {
  }

  lemma {:induction false} ClearBound(outs: Outs, partials: seq<Id>, n: nat)
    requires Clear(outs, partials, n)
    ensures n <= |partials|
  {
  }

  lemma {:induction false} SpeakLetsGo(w: World, s: State, id: Id) returns (n: nat)
    ensures var r := Speak(w, s, id);
      && Clear(r.outs, s.partials, n) && n <= |s.partials|
      && r.released == s.released + s.partials[..n] && r.partials == s.partials[n..]
  {
    hide Output, SetOutput, Flush, Clear;
    var (outs, text) := w.drain(s.clock, id, s.outs);
    var s1 := if Streaming(s.outs, id) then s.(outs := SetOutput(outs, id, "content", Str(text)), clock := s.clock + 1) else s;
    n := FlushLetsGo(s1.(events := s1.events + [MessageSent(id), MessageEnd(id)]));
    ClearBound(s1.outs, s.partials, n);
  }

  lemma {:induction false} FinishDefers(s: State, id: Id)
    ensures var r := Finish(s, id);
      && r.released == s.released && r.partials == s.partials + (if Streaming(r.outs, id) then [id] else [])
      && (!Streaming(s.outs, id) ==> r.outs == s.outs)
  {
    assert Output(SetOutput(s.outs, id, "content", Null), id, "content") == Null;
    assert s.partials + [] == s.partials;
  }

  lemma {:induction false} RouteKeepsPartials(g: Graph, w: World, s: State, id: Id, diverted: bool)
    ensures var r := Route(g, w, s, id, diverted); r.partials == s.partials && r.released == s.released && r.outs == s.outs
  {
    hide Successors, Extend;
  }

  /** Exactly when a deferred entry is let go, and a component deferred. */
  lemma {:induction false} Defers(g: Graph, w: World, s: State, i: nat) returns (n: nat)
    requires i < |s.path|
    ensures LetsGo(g, s, s.path[i], PostOne(g, w, s, i), n)
  {
    hide Speak, Finish, Route, Streaming, Clear, Failed, ErrorOf;
    var id := s.path[i];
    var c := Comp(g, id);
    var s1 := if c.kind.Message? then Speak(w, s, id) else s;
    n := 0;
    if c.kind.Message? {
      n := SpeakLetsGo(w, s, id);
      Spoken(w, s, id);
    } else {
      assert s.partials[0..] == s.partials && s.partials[..0] == [] && s.released + [] == s.released;
    }
    var (s2, diverted) := HandleError(c, s1, id);
    assert s2.partials == s1.partials && s2.released == s1.released;
    FinishDefers(s2, id);
    var s3 := if IsContainer(c.kind) then s2 else Finish(s2, id);
    assert s3.released == s1.released;
    RouteKeepsPartials(g, w, s3, id, diverted);
    assert s2.partials + [] == s2.partials;
  }

  lemma {:induction false} Spoken(w: World, s: State, id: Id)
    ensures !Streaming(Speak(w, s, id).outs, id)
  {
    hide Output, Flush;
    MessageSays(w, s, id);
  }

  // ---------------------------------------------------------------- loops

  function LimitOf(g: Graph, id: Id): nat {
    if Comp(g, id).parent.Some? then Comp(g, Comp(g, id).parent.value).maxLoops else 0
  }

  predicate Uncanceled(w: World, s: State) { !w.canceled(s.clock + 1) && !w.canceled(s.clock + 2) }

  predicate EndsIn(g: Graph, w: World, u: State, id: Id) { ItemEnded(g, w, u, id).1 }

  /** The visits of a loop item: it is invoked in the states `ss` and looked at in the states `us`; what happens in
      between and from one visit to the next leaves its turn alone. */
  ghost predicate Visits(g: Graph, w: World, id: Id, ss: seq<State>, us: seq<State>) {
    && |ss| == |us|
    && (forall j | 0 <= j < |ss| :: TurnOf(us[j].turn, id) == TurnOf(Invoke(g, w, ss[j], id).turn, id))
    && (forall j | 0 < j < |ss| :: TurnOf(ss[j].turn, id) == TurnOf(ItemEnded(g, w, us[j - 1], id).0.turn, id))
  }

  lemma {:induction false} LoopVisit(g: Graph, w: World, s: State, u: State, id: Id)
    requires Comp(g, id).kind.LoopItem? && Uncanceled(w, s) && TurnOf(s.turn, id) >= -1
    requires TurnOf(u.turn, id) == TurnOf(Invoke(g, w, s, id).turn, id)
    ensures var k, ended := TurnOf(s.turn, id), EndsIn(g, w, u, id);
      && Invoke(g, w, s, id).outs == s.outs
      && (ended <==> k >= LimitOf(g, id) || w.loopDone(u.clock, id, u.outs))
      && TurnOf(ItemEnded(g, w, u, id).0.turn, id) == if ended then -1 else k + 1
  {
  }

  /** A loop that has not ended in its first n visits has its turn n further on, and no further than its maximum; the
      next visit ends it if and only if the maximum is reached or its condition holds.  Entered for the first time, at
      turn 0, it makes at most as many passes as its maximum says; entered again after it has ended, at turn -1, at
      most one more. */
  lemma {:induction false} LoopPasses(g: Graph, w: World, id: Id, ss: seq<State>, us: seq<State>, n: nat)
    requires Comp(g, id).kind.LoopItem? && Visits(g, w, id, ss, us) && n < |ss|
    requires forall j | 0 <= j <= n :: Uncanceled(w, ss[j])
    requires -1 <= TurnOf(ss[0].turn, id) <= 0
    requires forall j | 0 <= j < n :: !EndsIn(g, w, us[j], id)
    ensures var k := TurnOf(ss[0].turn, id) + n;
      && TurnOf(ss[n].turn, id) == k <= LimitOf(g, id)
      && (EndsIn(g, w, us[n], id) <==> k == LimitOf(g, id) || w.loopDone(us[n].clock, id, us[n].outs))
    decreases n
  {
    hide Invoke, ItemEnded, EndsIn, TurnOf, Uncanceled;
    if n > 0 {
      LoopPasses(g, w, id, ss, us, n - 1);
      LoopVisit(g, w, ss[n - 1], us[n - 1], id);
    }
    assert Uncanceled(w, ss[n]);
    LoopVisit(g, w, ss[n], us[n], id);
  }

  // ---------------------------------------------------------------- the stop for user input

  predicate Place(at: seq<nat>, i: nat) { i in at }

  /** `asked` are the fill-ups among `ids`, all of them, in order. */
  ghost predicate AreFillUps(g: Graph, ids: seq<Id>, asked: seq<Id>, at: seq<nat>) {
    && |at| == |asked|
    && (forall j | 0 <= j < |at| :: at[j] < |ids| && asked[j] == ids[at[j]] && Comp(g, asked[j]).kind.UserFillUp?)
    && (forall j, k | 0 <= j < k < |at| :: at[j] < at[k])
    && (forall i: nat | i < |ids| && Comp(g, ids[i]).kind.UserFillUp? :: Place(at, i))
  }

  /** `ids` are invoked one after the other, in the states `ss`. */
  ghost predicate Invoked(g: Graph, w: World, ids: seq<Id>, ss: seq<State>) {
    |ss| == |ids| + 1 && forall j | 0 <= j < |ids| :: ss[j + 1] == Invoke(g, w, ss[j], ids[j])
  }

  function Shifted(at: seq<nat>): (r: seq<nat>)
    ensures |r| == |at|
  {
    seq(|at|, j requires 0 <= j < |at| => at[j] + 1)
  }

  lemma {:induction false} ShiftedPlace(at: seq<nat>, i: nat)
    requires Place(at, i)
    ensures Place(Shifted(at), i + 1) && Place([0] + Shifted(at), i + 1)
  {
    var j :| 0 <= j < |at| && at[j] == i;
    assert Shifted(at)[j] == i + 1;
  }

  lemma {:induction false} FirstPlace(at: seq<nat>)
    ensures Place([0] + at, 0)
  {
    assert ([0] + at)[0] == 0;
  }

  lemma {:induction false} FillUpsCons(g: Graph, ids: seq<Id>, asked: seq<Id>, at: seq<nat>)
    requires ids != [] && AreFillUps(g, ids[1..], asked, at)
    ensures if Comp(g, ids[0]).kind.UserFillUp? then AreFillUps(g, ids, [ids[0]] + asked, [0] + Shifted(at))
            else AreFillUps(g, ids, asked, Shifted(at))
  {
    hide Comp, Place;
    assert Place([0] + Shifted(at), 0) by { FirstPlace(Shifted(at)); }
    forall i: nat | 0 < i < |ids| && Comp(g, ids[i]).kind.UserFillUp?
      ensures Place(Shifted(at), i) && Place([0] + Shifted(at), i)
    {
      assert ids[1..][i - 1] == ids[i];
      ShiftedPlace(at, i - 1);
    }
  }

  lemma {:induction false} FillUpsAt(g: Graph, ids: seq<Id>) returns (at: seq<nat>)
    ensures AreFillUps(g, ids, FillUps(g, ids), at)
    decreases |ids|
  {
    at := [];
    if ids != [] {
      hide AreFillUps;
      var later := FillUpsAt(g, ids[1..]);
      FillUpsCons(g, ids, FillUps(g, ids[1..]), later);
      at := (if Comp(g, ids[0]).kind.UserFillUp? then [0] else []) + Shifted(later);
      assert [] + Shifted(later) == Shifted(later) && [] + FillUps(g, ids[1..]) == FillUps(g, ids[1..]);
    }
  }

  lemma {:induction false} InvokedAll(g: Graph, w: World, s: State, ids: seq<Id>) returns (ss: seq<State>)
    ensures Invoked(g, w, ids, ss) && ss[0] == s && ss[|ids|] == InvokeAll(g, w, s, ids)
    decreases |ids|
  {
    hide Invoke;
    ss := [s];
    if ids != [] {
      var later := InvokedAll(g, w, Invoke(g, w, s, ids[0]), ids[1..]);
      ss := [s] + later;
      forall j | 0 <= j < |ids| ensures ss[j + 1] == Invoke(g, w, ss[j], ids[j]) {
        if j > 0 { assert ids[1..][j - 1] == ids[j]; }
      }
    }
  }

  ghost predicate Asks(g: Graph, w: World, s: State, t: State, asked: seq<Id>, at: seq<nat>, ss: seq<State>)
    requires s.idx <= |s.path|
  {
    && AreFillUps(g, s.path[s.idx..], asked, at) && Invoked(g, w, asked, ss) && ss[0] == s
    && t.events == s.events + [UserInputs(asked)]
    && t.outs == ss[|asked|].outs && t.turn == ss[|asked|].turn && t.clock == ss[|asked|].clock
  }

  /** A stop for user input invokes the pending fill-ups, all of them, one after the other in their order, and then
      asks for the inputs of just these. */
  lemma {:induction false} SuspendAsks(g: Graph, w: World, s: State)
    requires s.idx <= |s.path|
    ensures exists asked, at, ss :: Asks(g, w, s, Suspend(g, w, s), asked, at, ss)
  {
    hide FillUps, Others, AreFillUps, Invoked;
    var asked := FillUps(g, s.path[s.idx..]);
    var at := FillUpsAt(g, s.path[s.idx..]);
    var ss := InvokedAll(g, w, s, asked);
    InvokedLength(g, w, asked, ss);
    assert Asks(g, w, s, Suspend(g, w, s), asked, at, ss);
  }

  lemma {:induction false} InvokedLength(g: Graph, w: World, ids: seq<Id>, ss: seq<State>)
    requires Invoked(g, w, ids, ss)
    ensures |ss| == |ids| + 1
  {
  }

  // ---------------------------------------------------------------- what a run announces

  predicate OfARun(e: Event) { e.WorkflowStarted? || e.WorkflowFinished? }

  /** Events were added, and none of them is about the run as a whole. */
  predicate Adds(before: seq<Event>, after: seq<Event>) {
    before <= after && forall i | |before| <= i < |after| :: !OfARun(after[i])
  }

  lemma {:induction false} FlushAdds(s: State)
    ensures Adds(s.events, Flush(s).events)
    decreases |s.partials|
  {
    hide Streaming;
    if s.partials != [] && !Streaming(s.outs, s.partials[0]) {
      FlushAdds(s.(partials := s.partials[1..],
                   events := s.events + [NodeFinished(s.partials[0])],
                   released := s.released + [s.partials[0]]));
    }
  }

  lemma {:induction false} SpeakAdds(w: World, s: State, id: Id)
    ensures Adds(s.events, Speak(w, s, id).events)
  {
    hide Flush, Streaming, SetOutput;
    var (outs, text) := w.drain(s.clock, id, s.outs);
    var said := s.events + [MessageSent(id), MessageEnd(id)];
    FlushAdds(s.(events := said));
    FlushAdds(s.(outs := SetOutput(outs, id, "content", Str(text)), clock := s.clock + 1, events := said));
  }

  lemma {:induction false} HandleErrorAdds(c: Component, s: State, id: Id)
    ensures Adds(s.events, HandleError(c, s, id).0.events)
  {
    hide Failed, ErrorOf;
  }

  lemma {:induction false} FinishAdds(s: State, id: Id)
    ensures Adds(s.events, Finish(s, id).events)
  {
    hide Streaming, SetOutput;
  }

  lemma {:induction false} RouteAdds(g: Graph, w: World, s: State, id: Id, diverted: bool)
    ensures Adds(s.events, Route(g, w, s, id, diverted).events)
  {
    hide Successors, Extend;
  }

  lemma {:induction false} AddsMore(a: seq<Event>, b: seq<Event>, c: seq<Event>)
    requires Adds(a, b) && Adds(b, c)
    ensures Adds(a, c)
  {
  }

  lemma {:induction false} PostOneAdds(g: Graph, w: World, s: State, i: nat)
    requires i < |s.path|
    ensures Adds(s.events, PostOne(g, w, s, i).events)
  {
    hide Speak, HandleError, Finish, Route, Adds, Comp;
    var id := s.path[i];
    var c := Comp(g, id);
    SpeakAdds(w, s, id);
    var s1 := if c.kind.Message? then Speak(w, s, id) else s;
    var (s2, diverted) := HandleError(c, s1, id);
    HandleErrorAdds(c, s1, id);
    FinishAdds(s2, id);
    var s3 := if IsContainer(c.kind) then s2 else Finish(s2, id);
    RouteAdds(g, w, s3, id, diverted);
    var r := Route(g, w, s3, id, diverted);
    AddsNothing(s.events);
    AddsNothing(s2.events);
    AddsMore(s.events, s1.events, s2.events);
    AddsMore(s.events, s2.events, s3.events);
    AddsMore(s.events, s3.events, r.events);
  }

  lemma {:induction false} AddsNothing(a: seq<Event>)
    ensures Adds(a, a)
  {
  }

  lemma {:induction false} PostRangeAdds(g: Graph, w: World, s: State, i: nat, j: nat)
    requires i <= j <= |s.path|
    ensures Adds(s.events, PostRange(g, w, s, i, j).events)
    decreases j - i
  {
    hide PostOne;
    if i < j {
      PostOneAdds(g, w, s, i);
      PostRangeAdds(g, w, PostOne(g, w, s, i), i + 1, j);
    }
  }

  lemma {:induction false} BatchAdds(g: Graph, w: World, s: State)
    requires s.idx <= |s.path|
    ensures Adds(s.events, Batch(g, w, s).events)
  {
    hide PostRange, Scan;
    var s1 := RunBatch(g, w, s);
    assert Adds(s.events, s1.events);
    PostRangeAdds(g, w, s1, s.idx, s1.to);
  }

  lemma {:induction false} RunLoopAdds(g: Graph, w: World, s: State, fuel: nat)
    requires s.idx <= |s.path|
    ensures Adds(s.events, RunLoop(g, w, s, fuel).0.events)
    decreases fuel
  {
    hide Batch, FillUps, Others, InvokeAll;
    if s.idx < |s.path| && fuel > 0 && !w.canceled(s.clock) {
      var t := Batch(g, w, s);
      BatchAdds(g, w, s);
      if t.error == "" && FillUps(g, t.path[t.to..]) == [] { RunLoopAdds(g, w, t.(idx := t.to), fuel - 1); }
    }
  }

  /** A run that is not canceled at once announces its start first, and never again; it announces its end if and only
      if it finishes, or stops with an error that tells of a cancellation, and then last. */
  lemma {:induction false} RunAnnounces(g: Graph, w: World, s: State, fuel: nat)
    ensures var (t, h) := Run(g, w, s, fuel);
      if w.canceled(s.clock) then t.events == []
      else
        var ends := h.Finished? || (h.Errored? && TellsOfCancel(t.error));
        var n := if ends then |t.events| - 1 else |t.events|;
        && t.events != [] && t.events[0] == WorkflowStarted
        && (ends ==> n > 0 && t.events[n] == WorkflowFinished)
        && forall i | 0 < i < n :: !OfARun(t.events[i])
  {
    hide RunLoop, TellsOfCancel, NamedFillUp, Reset;
    RunLoopAdds(g, w, Start(s), fuel);
  }

  // ---------------------------------------------------------------- from run to run

  /** The two states agree on the saved path, the globals, the turns, the clock, and on which outputs there are. */
  predicate SameSaved(s: State, t: State) {
    && s.path == t.path && s.turn == t.turn && s.clock == t.clock && s.outs.Keys == t.outs.Keys
    && forall id | id in s.outs :: if id == "" then s.outs[id] == t.outs[id] else s.outs[id].Keys == t.outs[id].Keys
  }

  /** Nothing else is carried from one run to the next: neither the values of outputs, nor an error, nor what was
      deferred or announced. */
  lemma {:induction false} RunForgets(g: Graph, w: World, s: State, t: State, fuel: nat)
    requires SameSaved(s, t)
    ensures Run(g, w, s, fuel) == Run(g, w, t, fuel)
    ensures forall id, k | id in s.outs && id != "" && k in s.outs[id] :: Output(Start(s).outs, id, k) == Null
  {
    hide NamedFillUp, RunLoop, TellsOfCancel;
    assert Reset(s.outs) == Reset(t.outs);
  }

  // ---------------------------------------------------------------- batches

  /** A batch has been run: the pending entries are announced, those that may run are kept and invoked one after the
      other in the states `ss`. */
  ghost predicate Ran(g: Graph, s: State, r: State, w: World, keep: seq<bool>, ss: seq<State>)
    requires s.idx <= |s.path|
  {
    var done, pending := s.path[..s.idx], s.path[s.idx..];
    && |keep| == |pending| && KeptExactly(g, done, pending, keep)
    && r.path == done + Marked(pending, keep) && r.to == |r.path|
    && Invoked(g, w, Marked(pending, keep), ss) && ss[|ss| - 1] == r
    && ss[0] == s.(path := r.path, to := r.to, events := s.events + seq(|pending|, i requires 0 <= i < |pending| => NodeStarted(pending[i])))
  }

  lemma {:induction false} BatchRuns(g: Graph, w: World, s: State)
    requires s.idx <= |s.path|
    ensures exists keep, ss :: Ran(g, s, RunBatch(g, w, s), w, keep, ss)
  {
    hide KeptExactly, Marked, Scan, Invoked;
    var done, pending := s.path[..s.idx], s.path[s.idx..];
    var keep := ScanKeeps(g, done, pending);
    var path := Scan(g, done, pending);
    assert path[s.idx..] == Marked(pending, keep);
    var s0 := s.(events := s.events + Started(pending), path := path, to := |path|);
    var ss := InvokedAll(g, w, s0, path[s.idx..]);
    InvokedLength(g, w, path[s.idx..], ss);
    assert Ran(g, s, RunBatch(g, w, s), w, keep, ss);
  }

  // ---------------------------------------------------------------- the batches of a run

  predicate Asked(g: Graph, t: State)
    requires t.to <= |t.path|
  {
    exists i :: t.to <= i < |t.path| && Comp(g, t.path[i]).kind.UserFillUp?
  }

  /** May a batch be run in this state? */
  predicate Goes(w: World, u: State) { u.idx < |u.path| && !w.canceled(u.clock) }

  /** After the batch run in state `u` the run goes on, in state `v`. */
  predicate GoesOn(g: Graph, w: World, u: State, v: State) {
    Goes(w, u) && var t := Batch(g, w, u); t.error == "" && !Asked(g, t) && v == t.(idx := t.to)
  }

  /** A run in state `u`, after all but `left` of its batches, ends in state `r`. */
  predicate EndsAs(g: Graph, w: World, u: State, left: nat, r: State, h: Halt) {
    match h
    case Finished => u.idx == |u.path| && r == u
    case OutOfFuel => u.idx < |u.path| && left == 0 && r == u
    case Canceled =>
      u.idx < |u.path| && left > 0 && w.canceled(u.clock) && r == u.(events := u.events + Started(u.path[u.idx..]))
    case Errored => Goes(w, u) && left > 0 && r == Batch(g, w, u) && r.error != ""
    case Suspended =>
      Goes(w, u) && left > 0 && var t := Batch(g, w, u); t.error == "" && Asked(g, t) && r == Suspend(g, w, t.(idx := t.to))
  }

  ghost predicate IsChain(g: Graph, w: World, us: seq<State>, s: State, fuel: nat, r: State, h: Halt) {
    && us != [] && us[0] == s && |us| - 1 <= fuel
    && (forall k | 0 <= k < |us| - 1 :: GoesOn(g, w, us[k], us[k + 1]))
    && EndsAs(g, w, us[|us| - 1], fuel - (|us| - 1), r, h)
  }

  lemma {:induction false} AskedIs(g: Graph, t: State)
    requires t.to <= |t.path|
    ensures FillUps(g, t.path[t.to..]) != [] <==> Asked(g, t)
  {
    hide FillUps, Comp;
    var at := FillUpsAt(g, t.path[t.to..]);
    var asked := FillUps(g, t.path[t.to..]);
    if asked != [] { assert t.path[t.to + at[0]] == asked[0]; }
    if i :| t.to <= i < |t.path| && Comp(g, t.path[i]).kind.UserFillUp? {
      assert t.path[t.to..][i - t.to] == t.path[i];
      assert Place(at, i - t.to);
    }
  }

  /** A run is a chain of batches: it goes on as long as no error stands and no fill-up is pending, and how it ends is
      decided by the state after the last of them. */
  lemma {:induction false} RunIsChain(g: Graph, w: World, s: State, fuel: nat) returns (us: seq<State>)
    requires s.idx <= |s.path|
    ensures var (r, h) := RunLoop(g, w, s, fuel); IsChain(g, w, us, s, fuel, r, h)
    decreases fuel
  {
    hide Batch, FillUps, Suspend, Asked;
    us := [s];
    if Goes(w, s) && fuel > 0 {
      var t := Batch(g, w, s);
      AskedIs(g, t);
      if t.error == "" && !Asked(g, t) {
        var later := RunIsChain(g, w, t.(idx := t.to), fuel - 1);
        us := [s] + later;
        var (r, h) := RunLoop(g, w, s, fuel);
        ChainCons(g, w, s, later, fuel, r, h);
      }
    }
  }

  lemma {:induction false} ChainCons(g: Graph, w: World, s: State, later: seq<State>, fuel: nat, r: State, h: Halt)
    requires fuel > 0 && later != [] && GoesOn(g, w, s, later[0]) && IsChain(g, w, later, later[0], fuel - 1, r, h)
    ensures IsChain(g, w, [s] + later, s, fuel, r, h)
  {
    hide GoesOn, EndsAs;
    var us := [s] + later;
    forall k | 0 <= k < |us| - 1 ensures GoesOn(g, w, us[k], us[k + 1]) {
      if k > 0 { assert GoesOn(g, w, later[k - 1], later[k]); }
    }
  }
}

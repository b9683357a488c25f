/** Where a run goes after a component, said of the path itself: which ids each kind of component hands on, how they
    are put on the path, and what becomes of an error. */
module CanvasRouting {
  import opened Options
  import opened CanvasModel
  import opened CanvasInvariants

  // ---------------------------------------------------------------- how ids are put on a path

  /** `ids` have been handed on: each is found on the new path, in order, from the old last entry on; there is no
      new entry that is not one of them, and none equals the entry before it. */
  ghost predicate Takes(before: seq<Id>, after: seq<Id>, ids: seq<Id>, at: seq<nat>) {
    && before <= after && |at| == |ids|
    && (forall j | 0 <= j < |ids| :: |before| - 1 <= at[j] < |after| && after[at[j]] == ids[j])
    && (forall j, k | 0 <= j < k < |ids| :: at[j] <= at[k])
    && (forall m: nat | |before| <= m < |after| :: m in at)
    && (forall m | |before| <= m < |after| && m > 0 :: after[m] != after[m - 1])
  }

  lemma {:induction false} ExtendTakes(path: seq<Id>, ids: seq<Id>) returns (at: seq<nat>)
    ensures Takes(path, Extend(path, ids), ids, at)
    decreases |ids|
  {
    if ids == [] {
      at := [];
    } else {
      var p1 := Append(path, ids[0]);
      var later := ExtendTakes(p1, ids[1..]);
      at := [|p1| - 1] + later;
      TakesCons(path, p1, Extend(path, ids), ids, later);
    }
  }

  lemma {:induction false} TakesCons(path: seq<Id>, p1: seq<Id>, after: seq<Id>, ids: seq<Id>, later: seq<nat>)
    requires ids != [] && p1 == Append(path, ids[0]) && Takes(p1, after, ids[1..], later)
    ensures Takes(path, after, ids, [|p1| - 1] + later)
  {
    var at := [|p1| - 1] + later;
    assert p1[|p1| - 1] == ids[0];
    forall j | 0 <= j < |ids| ensures |path| - 1 <= at[j] < |after| && after[at[j]] == ids[j] {
      if j > 0 { assert ids[1..][j - 1] == ids[j]; }
    }
    forall m: nat | |path| <= m < |after| ensures m in at {
      if m < |p1| { assert at[0] == m; } else { assert m in later; }
    }
  }

  /** There is only one such path. */
  lemma {:induction false} TakesOnly(before: seq<Id>, after: seq<Id>, ids: seq<Id>, at: seq<nat>)
    requires Takes(before, after, ids, at)
    ensures after == Extend(before, ids)
    decreases |ids|
  {
    if ids == [] {
      assert |before| < |after| ==> |before| in at;
    } else {
      FirstTaken(before, after, ids, at);
      TakesOnly(Append(before, ids[0]), after, ids[1..], at[1..]);
    }
  }

  lemma {:induction false} FirstTaken(before: seq<Id>, after: seq<Id>, ids: seq<Id>, at: seq<nat>)
    requires Takes(before, after, ids, at) && ids != []
    ensures Takes(Append(before, ids[0]), after, ids[1..], at[1..])
  {
    var p1 := Append(before, ids[0]);
    var n := |before|;
    if n < |after| { assert n in at; }
    if p1 == before {
      assert at[0] == n - 1;
    } else {
      assert at[0] == n;
      assert p1 <= after;
    }
    forall m: nat | |p1| <= m < |after| ensures m in at[1..] {
      assert m in at && m != at[0];
      assert at == [at[0]] + at[1..];
    }
  }

  // ---------------------------------------------------------------- what is handed on

  /** The item of a container, the first in the order of the components. */
  ghost predicate IsStart(g: Graph, id: Id, ids: seq<Id>) {
    |ids| == 1 &&
    exists n :: 0 <= n < |g.order| && g.order[n] == ids[0] && StartsContainer(g, id, ids[0]) &&
      forall m | 0 <= m < n :: !StartsContainer(g, id, g.order[m])
  }

  lemma {:induction false} FirstStartIs(g: Graph, id: Id, n: nat)
    requires n <= |g.order| && FirstStart(g, id, g.order[n..]).Some?
    requires forall m | 0 <= m < n :: !StartsContainer(g, id, g.order[m])
    ensures IsStart(g, id, [FirstStart(g, id, g.order[n..]).value])
    decreases |g.order| - n
  {
    hide StartsContainer;
    if !StartsContainer(g, id, g.order[n]) {
      assert g.order[n..][1..] == g.order[n + 1..];
      FirstStartIs(g, id, n + 1);
    }
  }

  predicate Reported(outs: Outs, id: Id) { Output(outs, id, "_ERROR").Str? && Output(outs, id, "_ERROR").text != "" }

  /** An error sends the run to the targets configured for it. */
  predicate Diverts(g: Graph, outs: Outs, id: Id) { Reported(outs, id) && GotoOf(Comp(g, id)) != [] }

  /** What a component that was post-processed hands on; `r` is the state after it. */
  ghost predicate HandsOn(g: Graph, r: State, id: Id, ids: seq<Id>) {
    var c := Comp(g, id);
    var parent := if c.parent.Some? then c.parent.value else "";
    if c.kind.Categorize? || c.kind.Switch? then
      // the branches it chose
      Output(r.outs, id, "_next") == Ids(ids) || (!Output(r.outs, id, "_next").Ids? && ids == [])
    else if c.kind.Iteration? || c.kind.Loop? then
      IsStart(g, id, ids)
    else if IsItem(c.kind) && TurnOf(r.turn, id) == -1 then
      // the container has run out
      ids == Comp(g, parent).downstream
    else if c.kind.ExitLoop? && Comp(g, parent).kind.Loop? then
      ids == Comp(g, parent).downstream
    else if c.parent.Some? && c.downstream == [] then
      // the end of a pass
      IsStart(g, parent, ids)
    else
      ids == c.downstream
  }

  /** From `before`, a post-processed component goes to its error targets, all of them and nothing else, or it hands
      on what its kind says. */
  ghost predicate Routed(g: Graph, before: seq<Id>, id: Id, r: State) {
    if Diverts(g, r.outs, id) then r.path == before + GotoOf(Comp(g, id))
    else exists ids, at :: HandsOn(g, r, id, ids) && Takes(before, r.path, ids, at)
  }

  /** The lookups routing makes all succeed on a well-formed graph. */
  lemma {:induction false} Lookups(g: Graph, id: Id)
    requires WellFormed(g) && id in g.comps
    ensures var c := Comp(g, id);
      && (IsItem(c.kind) || c.kind.ExitLoop? ==> c.parent.Some?)
      && (IsContainer(c.kind) ==> GetStart(g, id).Some?)
      && (c.parent.Some? ==> GetStart(g, c.parent.value).Some?)
  {
    assert WellFormedComponent(g, id);
    if Comp(g, id).parent.Some? { assert WellFormedComponent(g, Comp(g, id).parent.value); }
  }

  lemma {:induction false} StartHandedOn(g: Graph, id: Id)
    requires GetStart(g, id).Some?
    ensures IsStart(g, id, [GetStart(g, id).value])
  {
    assert g.order[0..] == g.order;
    FirstStartIs(g, id, 0);
  }

  lemma {:induction false} RouteHandsOn(g: Graph, w: World, s: State, id: Id)
    requires WellFormed(g) && id in g.comps
    ensures exists ids, at :: HandsOn(g, Route(g, w, s, id, false), id, ids) && Takes(s.path, Route(g, w, s, id, false).path, ids, at)
  {
    hide WellFormed, Takes, GetStart, IsStart, Extend;
    Lookups(g, id);
    var c := Comp(g, id);
    var (s1, ended) := ItemEnded(g, w, s, id);
    var s2 := if ended && c.parent.Some? then s1.(events := s1.events + [NodeFinished(c.parent.value)]) else s1;
    var ids := Successors(g, s2, id, ended);
    var at := ExtendTakes(s2.path, ids);
    if IsContainer(c.kind) { StartHandedOn(g, id); }
    if c.parent.Some? { StartHandedOn(g, c.parent.value); }
    assert HandsOn(g, Route(g, w, s, id, false), id, ids);
  }

  lemma {:induction false} OtherOutput(outs: Outs, id: Id, name: string, v: Value, other: string)
    requires other != name
    ensures Output(SetOutput(outs, id, name, v), id, other) == Output(outs, id, other)
  {
  }

  /** The routing law of one component. */
  lemma {:induction false} PostOneRouted(g: Graph, w: World, s: State, i: nat)
    requires WellFormed(g) && i < |s.path| && s.path[i] in g.comps
    ensures Routed(g, s.path, s.path[i], PostOne(g, w, s, i))
  {
    hide WellFormed, HandsOn, Takes, Speak, SetOutput, ItemEnded, Successors, Extend, Output;
    var id := s.path[i];
    var c := Comp(g, id);
    var s1 := if c.kind.Message? then Speak(w, s, id) else s;
    var (s2, diverted) := HandleError(c, s1, id);
    var s3 := if IsContainer(c.kind) then s2 else Finish(s2, id);
    OtherOutput(s2.outs, id, "content", Null, "_ERROR");
    assert Diverts(g, s3.outs, id) <==> diverted;
    if !diverted { RouteHandsOn(g, w, s3, id); }
  }

  lemma {:induction false} PostRangeRouted(g: Graph, w: World, s: State, i: nat, j: nat, k: nat)
    requires WellFormed(g) && i <= k < j <= |s.path| && InGraph(g, s.path[i..j])
    ensures Routed(g, PostRange(g, w, s, i, k).path, s.path[k], PostRange(g, w, s, i, k + 1))
    decreases k - i
  {
    hide WellFormed, PostOne, Routed;
    assert s.path[i..j][k - i] == s.path[k];
    var t := PostOne(g, w, s, i);
    if i == k {
      PostOneRouted(g, w, s, i);
      assert PostRange(g, w, s, i, k + 1) == PostRange(g, w, t, k + 1, k + 1);
    } else {
      assert t.path[i + 1..j] == s.path[i..j][1..];
      PostRangeRouted(g, w, t, i + 1, j, k);
    }
  }

  /** Every component of every batch of a run is routed by the law. */
  ghost predicate AlwaysRouted(g: Graph, w: World, s: State, fuel: nat)
    requires s.idx <= |s.path|
    decreases fuel
  {
    s.idx < |s.path| && fuel > 0 && !w.canceled(s.clock) ==>
      var s1 := RunBatch(g, w, s);
      var t := Batch(g, w, s);
      && (forall k | s.idx <= k < s1.to ::
            Routed(g, PostRange(g, w, s1, s.idx, k).path, s1.path[k], PostRange(g, w, s1, s.idx, k + 1)))
      && (t.error == "" && FillUps(g, t.path[t.to..]) == [] ==> AlwaysRouted(g, w, t.(idx := t.to), fuel - 1))
  }

  lemma {:induction false} RunRouted(g: Graph, w: World, s: State, fuel: nat)
    requires WellFormed(g) && WorldOk(g, w) && NextOk(g, s.outs) && InGraph(g, s.path) && s.idx <= |s.path|
    ensures AlwaysRouted(g, w, s, fuel)
    decreases fuel
  {
    hide WellFormed, WorldOk, NextOk, RunBatch, PostRange, FillUps, Routed;
    if s.idx < |s.path| && fuel > 0 && !w.canceled(s.clock) {
      var s1 := RunBatch(g, w, s);
      RunBatchKeeps(g, w, s);
      forall k | s.idx <= k < s1.to
        ensures Routed(g, PostRange(g, w, s1, s.idx, k).path, s1.path[k], PostRange(g, w, s1, s.idx, k + 1))
      {
        PostRangeRouted(g, w, s1, s.idx, s1.to, k);
      }
      BatchKeeps(g, w, s);
      var t := Batch(g, w, s);
      if t.error == "" && FillUps(g, t.path[t.to..]) == [] { RunRouted(g, w, t.(idx := t.to), fuel - 1); }
    }
  }

  // ---------------------------------------------------------------- errors

  predicate HasDefault(g: Graph, id: Id) {
    Comp(g, id).handler.Some? && Comp(g, id).handler.value.fallback.Truthy()
  }

  /** An error for which neither a target nor a default is configured. */
  predicate Unhandled(g: Graph, outs: Outs, id: Id) {
    Reported(outs, id) && GotoOf(Comp(g, id)) == [] && !HasDefault(g, id)
  }

  /** An error that is answered by the default, as a message. */
  predicate Defaulted(g: Graph, outs: Outs, id: Id) {
    Reported(outs, id) && GotoOf(Comp(g, id)) == [] && HasDefault(g, id)
  }

  function Sent(s: State, id: Id): nat { multiset(s.events)[MessageSent(id)] }

  lemma {:induction false} FlushSendsNothing(s: State, id: Id)
    ensures Sent(Flush(s), id) == Sent(s, id)
    decreases |s.partials|
  {
    hide Streaming;
    if s.partials != [] && !Streaming(s.outs, s.partials[0]) {
      FlushSendsNothing(s.(partials := s.partials[1..],
                           events := s.events + [NodeFinished(s.partials[0])],
                           released := s.released + [s.partials[0]]), id);
    }
  }

  lemma {:induction false} SpeakSends(w: World, s: State, id: Id)
    ensures Sent(Speak(w, s, id), id) == Sent(s, id) + 1
  {
    hide Flush, Streaming, SetOutput;
    var (outs, text) := w.drain(s.clock, id, s.outs);
    var said := s.events + [MessageSent(id), MessageEnd(id)];
    FlushSendsNothing(s.(events := said), id);
    FlushSendsNothing(s.(outs := SetOutput(outs, id, "content", Str(text)), clock := s.clock + 1, events := said), id);
  }

  lemma {:induction false} HandledOnce(g: Graph, s: State, id: Id)
    ensures var t := HandleError(Comp(g, id), s, id).0;
      && t.error == (if Unhandled(g, t.outs, id) then Output(t.outs, id, "_ERROR").text else s.error)
      && Sent(t, id) == Sent(s, id) + if Defaulted(g, t.outs, id) then 1 else 0
  {
    hide Output;
  }

  lemma {:induction false} FinishSendsNothing(s: State, id: Id)
    ensures Finish(s, id).error == s.error && Sent(Finish(s, id), id) == Sent(s, id)
    ensures Output(Finish(s, id).outs, id, "_ERROR") == Output(s.outs, id, "_ERROR")
  {
    hide SetOutput, Output, Streaming;
    OtherOutput(s.outs, id, "content", Null, "_ERROR");
  }

  lemma {:induction false} RouteSendsNothing(g: Graph, w: World, s: State, id: Id, diverted: bool)
    ensures Route(g, w, s, id, diverted).error == s.error && Sent(Route(g, w, s, id, diverted), id) == Sent(s, id)
  {
    hide Extend, Successors;
  }

  /** What becomes of an error: the run's error is set by an unhandled one and by nothing else, and a message is sent
      by a message component and for a default, and otherwise not. */
  lemma {:induction false} PostOneErrors(g: Graph, w: World, s: State, i: nat)
    requires i < |s.path|
    ensures var r, id := PostOne(g, w, s, i), s.path[i];
      && r.error == (if Unhandled(g, r.outs, id) then Output(r.outs, id, "_ERROR").text else s.error)
      && Sent(r, id) == Sent(s, id) + (if Comp(g, id).kind.Message? then 1 else 0)
                        + (if Defaulted(g, r.outs, id) then 1 else 0)
  {
    hide Speak, Output, HandleError, Finish, Route, Sent;
    var id := s.path[i];
    var c := Comp(g, id);
    SpeakSends(w, s, id);
    var s1 := if c.kind.Message? then Speak(w, s, id) else s;
    HandledOnce(g, s1, id);
    var (s2, diverted) := HandleError(c, s1, id);
    FinishSendsNothing(s2, id);
    var s3 := if IsContainer(c.kind) then s2 else Finish(s2, id);
    RouteSendsNothing(g, w, s3, id, diverted);
  }

  /** Is an error of the entries i..j unhandled, each looked at right after it was post-processed? */
  ghost predicate Erred(g: Graph, w: World, s: State, i: nat, j: nat)
    requires i <= j <= |s.path|
  {
    exists k :: i <= k < j && Unhandled(g, PostRange(g, w, s, i, k + 1).outs, s.path[k])
  }

  lemma {:induction false} PostRangeErrors(g: Graph, w: World, s: State, i: nat, j: nat)
    requires i <= j <= |s.path|
    ensures PostRange(g, w, s, i, j).error != "" <==> s.error != "" || Erred(g, w, s, i, j)
    decreases j - i
  {
    hide PostOne, Unhandled, Erred;
    if i == j {
      assert !Erred(g, w, s, i, j) by { NothingErred(g, w, s, i); }
    } else {
      var t := PostOne(g, w, s, i);
      PostOneErrors(g, w, s, i);
      PostRangeErrors(g, w, t, i + 1, j);
      ErredCons(g, w, s, i, j);
      if Unhandled(g, t.outs, s.path[i]) { ErrorText(g, t.outs, s.path[i]); }
    }
  }

  lemma {:induction false} NothingErred(g: Graph, w: World, s: State, i: nat)
    requires i <= |s.path|
    ensures !Erred(g, w, s, i, i)
  {
  }

  lemma {:induction false} ErredCons(g: Graph, w: World, s: State, i: nat, j: nat)
    requires i < j <= |s.path|
    ensures var t := PostOne(g, w, s, i); Erred(g, w, s, i, j) <==> Unhandled(g, t.outs, s.path[i]) || Erred(g, w, t, i + 1, j)
  {
    hide PostOne, Unhandled;
    var t := PostOne(g, w, s, i);
    assert PostRange(g, w, s, i, i + 1) == PostRange(g, w, t, i + 1, i + 1) == t;
    forall k | i < k < j
      ensures PostRange(g, w, s, i, k + 1) == PostRange(g, w, t, i + 1, k + 1) && t.path[k] == s.path[k]
    {
    }
  }

  lemma {:induction false} ErrorText(g: Graph, outs: Outs, id: Id)
    requires Unhandled(g, outs, id)
    ensures Output(outs, id, "_ERROR").Str? && Output(outs, id, "_ERROR").text != ""
  {
  }

  /** Does an error go unhandled in some batch of the run? */
  ghost predicate RunErred(g: Graph, w: World, s: State, fuel: nat)
    requires s.idx <= |s.path|
    decreases fuel
  {
    && s.idx < |s.path| && fuel > 0 && !w.canceled(s.clock)
    && var s1 := RunBatch(g, w, s);
       var t := Batch(g, w, s);
       || Erred(g, w, s1, s.idx, s1.to)
       || (FillUps(g, t.path[t.to..]) == [] && RunErred(g, w, t.(idx := t.to), fuel - 1))
  }

  /** A run ends with an error if and only if some error goes unhandled, and then after the batch in which it does. */
  lemma {:induction false} RunErrs(g: Graph, w: World, s: State, fuel: nat)
    requires s.idx <= |s.path| && s.error == ""
    ensures RunLoop(g, w, s, fuel).1.Errored? <==> RunErred(g, w, s, fuel)
    ensures RunLoop(g, w, s, fuel).1.Errored? <==> RunLoop(g, w, s, fuel).0.error != ""
    decreases fuel
  {
    hide RunBatch, PostRange, FillUps, Erred, InvokeAll;
    if s.idx < |s.path| && fuel > 0 && !w.canceled(s.clock) {
      var s1 := RunBatch(g, w, s);
      var t := Batch(g, w, s);
      assert s1.error == "" by { BatchStarts(g, w, s); }
      PostRangeErrors(g, w, s1, s.idx, s1.to);
      if t.error == "" && FillUps(g, t.path[t.to..]) == [] { RunErrs(g, w, t.(idx := t.to), fuel - 1); }
    }
  }

  lemma {:induction false} BatchStarts(g: Graph, w: World, s: State)
    requires s.idx <= |s.path|
    ensures RunBatch(g, w, s).error == s.error
  {
  }
}

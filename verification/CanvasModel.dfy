/** The agent canvas scheduler as a state machine on values.

    A canvas is a graph of components.  `path` is the list of component ids that have been or are about
    to be executed; a run repeatedly executes the suffix of `path` from `idx` on as one batch,
    post-processes the members in order and lets each append its successors.  What component bodies,
    streams, loop conditions and the cancel flag do is not decided here: a `World` answers for them, and
    every result holds for every world.  The class in Canvas.dfy is proved to compute these functions. */
module CanvasModel {
  import opened Options

  type Id = string

  datatype Kind =
    | Begin | UserFillUp | Message | Categorize | Switch
    | Iteration | IterationItem | Loop | LoopItem | ExitLoop | Other

  /** A Python value stored in a component output; Stream is a `functools.partial` not yet consumed. */
  datatype Value =
    | Null | Str(text: string) | Num(n: int) | List(items: seq<Value>) | Ids(ids: seq<Id>) | Stream(handle: nat)
  {
    predicate Truthy() {
      match this
      case Null => false
      case Str(t) => t != ""
      case Num(k) => k != 0
      case List(vs) => vs != []
      case Ids(xs) => xs != []
      case Stream(_) => true
    }
  }

  type Outs = map<Id, map<string, Value>>

  /** `cid@name`; the empty cid stands for the canvas globals. */
  datatype Ref = Ref(cid: Id, name: string)

  /** An output of an iteration declared with a `ref` to an output of a body component. */
  datatype Collect = Collect(key: string, ref: Ref)

  datatype Handler = Handler(method_: string, goto_: seq<Id>, fallback: Value)

  datatype Component = Component(
    kind: Kind,
    downstream: seq<Id>,
    refs: seq<Id>,             // the non-empty _cpn_id of the input elements
    choices: seq<Id>,          // what a categorize or switch may put in _next
    parent: Option<Id>,
    handler: Option<Handler>,  // None when exception_method is unset
    itemsRef: Ref,             // iteration only
    collects: seq<Collect>,    // iteration only
    maxLoops: nat)             // loop only

  /** `order` is the iteration order of the components dictionary. */
  datatype Graph = Graph(order: seq<Id>, comps: map<Id, Component>)

  datatype World = World(
    invoke: (nat, Id, Outs) -> (Outs, Option<string>),  // all outputs after a component body ran, and what it raised
    drain: (nat, Id, Outs) -> (Outs, string),           // all outputs after a message stream was read, and its text
    loopDone: (nat, Id, Outs) -> bool,                  // the termination condition of a loop
    canceled: nat -> bool)

  datatype Event =
    | WorkflowStarted | NodeStarted(id: Id) | MessageSent(id: Id) | MessageEnd(id: Id)
    | NodeFinished(id: Id) | UserInputs(ids: seq<Id>) | WorkflowFinished

  /** `to` is the end of the batch in hand.  `deferred` and `released` are history: everything ever put on
      `partials` and everything ever taken off it, in order. */
  datatype State = State(
    path: seq<Id>, idx: nat, to: nat, partials: seq<Id>, error: string,
    outs: Outs, turn: map<Id, int>, events: seq<Event>, clock: nat,
    deferred: seq<Id>, released: seq<Id>)

  datatype Halt = Finished | Errored | Suspended | Canceled | OutOfFuel

  // ---------------------------------------------------------------- the graph

  const NO_COMPONENT := Component(Other, [], [], [], None, None, Ref("", ""), [], 0)

  /** Component lookup; ids on a path are components whenever the graph is well formed. */
  function Comp(g: Graph, id: Id): Component {
    if id in g.comps then g.comps[id] else NO_COMPONENT
  }

  predicate IsContainer(k: Kind) { k.Iteration? || k.Loop? }

  predicate IsItem(k: Kind) { k.IterationItem? || k.LoopItem? }

  predicate IsInput(k: Kind) { k.Begin? || k.UserFillUp? }

  function Lower(s: string): (r: string)
    ensures |r| == |s|
  {
    seq(|s|, i requires 0 <= i < |s| => if 'A' <= s[i] <= 'Z' then s[i] - 'A' + 'a' else s[i])
  }

  predicate Occurs(part: string, text: string) { exists i | 0 <= i <= |text| :: OccursAt(part, text, i) }

  predicate OccursAt(part: string, text: string, i: nat) { i + |part| <= |text| && text[i..i + |part|] == part }

  /** The scheduler looks for "userfillup" in the id at the two ends of the path, not at the kind. */
  predicate NamedFillUp(id: Id) { Occurs("userfillup", Lower(id)) }

  predicate StartsContainer(g: Graph, id: Id, cid: Id) {
    var k := Comp(g, id).kind;
    var ck := Comp(g, cid).kind;
    && ((k.Iteration? && ck.IterationItem?) || (k.Loop? && ck.LoopItem?))
    && Comp(g, cid).parent == Some(id)
  }

  function FirstStart(g: Graph, id: Id, order: seq<Id>): Option<Id> {
    if order == [] then None
    else if StartsContainer(g, id, order[0]) then Some(order[0])
    else FirstStart(g, id, order[1..])
  }

  /** The item of an iteration or loop: the first one in dictionary order whose parent it is. */
  function GetStart(g: Graph, id: Id): Option<Id> { FirstStart(g, id, g.order) }

  function GotoOf(c: Component): seq<Id> { if c.handler.Some? then c.handler.value.goto_ else [] }

  predicate WellFormedComponent(g: Graph, id: Id)
    requires id in g.comps
  {
    var c := g.comps[id];
    && (forall x | x in c.downstream + c.choices + GotoOf(c) :: x in g.comps)
    && (c.parent.Some? ==> c.parent.value in g.comps && IsContainer(g.comps[c.parent.value].kind))
    && (IsItem(c.kind) || c.kind.ExitLoop? ==> c.parent.Some?)
    && (c.kind.IterationItem? ==> g.comps[c.parent.value].kind.Iteration?)
    && (IsContainer(c.kind) ==> GetStart(g, id).Some? && GetStart(g, id).value in g.comps)
    && (forall i, j | 0 <= i < j < |c.collects| :: c.collects[i].key != c.collects[j].key)
  }

  /** What the scheduler takes for granted of a canvas: every id it follows names a component. */
  predicate WellFormed(g: Graph) {
    && (forall id | id in g.order :: id in g.comps)
    && (forall id | id in g.comps :: id in g.order)
    && (forall i, j | 0 <= i < j < |g.order| :: g.order[i] != g.order[j])
    && "" !in g.comps
    && "begin" in g.comps && g.comps["begin"].kind.Begin?
    && (forall id {:trigger WellFormedComponent(g, id)} | id in g.comps :: WellFormedComponent(g, id))
  }

  predicate InGraph(g: Graph, ids: seq<Id>) { forall x | x in ids :: x in g.comps }

  // ---------------------------------------------------------------- outputs

  function Output(outs: Outs, id: Id, name: string): Value {
    if id in outs && name in outs[id] then outs[id][name] else Str("")
  }

  function SetOutput(outs: Outs, id: Id, name: string, v: Value): Outs {
    outs[id := (if id in outs then outs[id] else map[])[name := v]]
  }

  function ErrorOf(outs: Outs, id: Id): string {
    var v := Output(outs, id, "_ERROR");
    if v.Str? then v.text else ""
  }

  predicate Failed(outs: Outs, id: Id) { ErrorOf(outs, id) != "" }

  predicate Streaming(outs: Outs, id: Id) { Output(outs, id, "content").Stream? }

  function NextOf(outs: Outs, id: Id): seq<Id> {
    var v := Output(outs, id, "_next");
    if v.Ids? then v.ids else []
  }

  /** Branching components only name the targets they were configured with. */
  predicate NextOk(g: Graph, outs: Outs) {
    forall id | id in g.comps :: forall x | x in NextOf(outs, id) :: x in g.comps[id].choices
  }

  ghost predicate WorldOk(g: Graph, w: World) {
    && (forall n, id, outs | NextOk(g, outs) :: NextOk(g, w.invoke(n, id, outs).0))
    && (forall n, id, outs | NextOk(g, outs) :: NextOk(g, w.drain(n, id, outs).0))
  }

  /** Every component output becomes None; the globals stay. */
  function Reset(outs: Outs): Outs {
    map id | id in outs :: if id == "" then outs[id] else map k | k in outs[id] :: Null
  }

  // ---------------------------------------------------------------- executing a batch

  /** May the component at the head of `pending` run when `done` is everything before it? */
  predicate Ready(g: Graph, done: seq<Id>, pending: seq<Id>)
    requires pending != []
  {
    var c := Comp(g, pending[0]);
    IsInput(c.kind) || (forall r | r in c.refs :: r in done) || NamedFillUp((done + pending)[0])
  }

  /** The path after the scan that drops members whose inputs are not ready. */
  function Scan(g: Graph, done: seq<Id>, pending: seq<Id>): (r: seq<Id>)
    ensures done <= r
    decreases |pending|
  {
    if pending == [] then done
    else if Ready(g, done, pending) then Scan(g, done + [pending[0]], pending[1..])
    else Scan(g, done, pending[1..])
  }

  /** An exception inside a component body. */
  function Raise(c: Component, outs: Outs, id: Id, msg: string): Outs {
    if c.handler.Some? && c.handler.value.method_ == "comment" && c.handler.value.fallback.Truthy()
    then SetOutput(outs, id, "result", c.handler.value.fallback)
    else SetOutput(outs, id, "_ERROR", Str(msg))
  }

  /** Variable lookup; None where the source raises. */
  function Resolve(g: Graph, outs: Outs, r: Ref): Option<Value> {
    if r.cid == "" then (if "" in outs && r.name in outs[""] then Some(outs[""][r.name]) else None)
    else if r.cid in g.comps then Some(Output(outs, r.cid, r.name))
    else None
  }

  /** The (output, source) pairs one collation appends, in the order it visits them. */
  function Targets(g: Graph, pid: Id, order: seq<Id>): seq<Collect> {
    if order == [] then []
    else (if Comp(g, order[0]).parent == Some(pid) then TargetsOf(Comp(g, pid).collects, order[0]) else [])
         + Targets(g, pid, order[1..])
  }

  function TargetsOf(cs: seq<Collect>, cid: Id): seq<Collect> {
    if cs == [] then []
    else (if cs[0].ref.cid == cid then [cs[0]] else []) + TargetsOf(cs[1..], cid)
  }

  /** Appends the value of each target; false when an output holds something that cannot be appended to. */
  function Collate(outs: Outs, pid: Id, ts: seq<Collect>): (Outs, bool)
    decreases |ts|
  {
    if ts == [] then (outs, true)
    else
      var res := Output(outs, pid, ts[0].key);
      if res.Truthy() && !res.List? then (outs, false)
      else
        var before := if res.List? then res.items else [];
        var v := Output(outs, ts[0].ref.cid, ts[0].ref.name);
        Collate(SetOutput(outs, pid, ts[0].key, List(before + [v])), pid, ts[1..])
  }

  function TurnOf(turn: map<Id, int>, id: Id): int { if id in turn then turn[id] else 0 }

  /** What a component reports when it notices a cancellation. */
  const CANCELED_TEXT := "Task has been canceled"

  /** `check_if_canceled` has noticed one. */
  function Notice(outs: Outs, id: Id): Outs { SetOutput(outs, id, "_ERROR", Str(CANCELED_TEXT)) }

  /** One invocation of an iteration item: collect the finished pass, then offer the next element.  It looks for a
      cancellation at three points. */
  function ItemInvoke(g: Graph, w: World, clock: nat, outs: Outs, turn: map<Id, int>, id: Id): (Outs, map<Id, int>) {
    var c := Comp(g, id);
    var pid := if c.parent.Some? then c.parent.value else "";
    var arr := Resolve(g, outs, Comp(g, pid).itemsRef);
    var k := TurnOf(turn, id);
    if w.canceled(clock + 1) then (Notice(outs, id), turn)
    else if arr.None? then (Raise(c, outs, id, "cannot find variable"), turn)
    else if !arr.value.List? then (Raise(c, outs, id, "must be an array"), turn[id := -1])
    else if k > 0 && w.canceled(clock + 2) then (Notice(outs, id), turn)
    else
      var items := arr.value.items;
      var (outs1, ok) := if k > 0 then Collate(outs, pid, Targets(g, pid, g.order)) else (outs, true);
      if !ok then (Raise(c, outs1, id, "cannot append"), turn)
      else if k >= |items| then (outs1, turn[id := -1])
      else if w.canceled(clock + 3) then (Notice(outs1, id), turn)
      else if k < 0 && |items| + k < 0 then (Raise(c, outs1, id, "list index out of range"), turn)
      else
        var v := if k < 0 then items[|items| + k] else items[k];
        (SetOutput(SetOutput(outs1, id, "item", v), id, "index", Num(k)), turn[id := k + 1])
  }

  /** One invocation of a loop item, which looks for a cancellation at two points. */
  function LoopItemInvoke(g: Graph, w: World, clock: nat, outs: Outs, turn: map<Id, int>, id: Id): (Outs, map<Id, int>) {
    var c := Comp(g, id);
    var limit := if c.parent.Some? then Comp(g, c.parent.value).maxLoops else 0;
    var k := TurnOf(turn, id);
    if w.canceled(clock + 1) then (Notice(outs, id), turn)
    else if k >= limit then (outs, turn[id := -1])
    else if k > 0 && w.canceled(clock + 2) then (Notice(outs, id), turn)
    else (outs, turn[id := k + 1])
  }

  /** One invocation of an iteration, which looks for a cancellation once. */
  function IterationInvoke(g: Graph, w: World, clock: nat, outs: Outs, id: Id): Outs {
    var c := Comp(g, id);
    var arr := Resolve(g, outs, c.itemsRef);
    if w.canceled(clock + 1) then Notice(outs, id)
    else if arr.None? then Raise(c, outs, id, "cannot find variable")
    else if !arr.value.List? then SetOutput(outs, id, "_ERROR", Str("must be an array"))
    else outs
  }

  /** How far the clock moves while a component runs: past every point where it may look at the cancel flag. */
  function Ticks(k: Kind): nat { if k.IterationItem? then 4 else if k.LoopItem? then 3 else if k.Iteration? then 2 else 1 }

  /** `invoke` of a component with a body of its own: an exception becomes the default value or an error. */
  function Perform(g: Graph, w: World, clock: nat, id: Id, outs: Outs): Outs {
    var (o, raised) := w.invoke(clock, id, outs);
    if raised.Some? then Raise(Comp(g, id), o, id, raised.value) else o
  }

  function Invoke(g: Graph, w: World, s: State, id: Id): (r: State)
    ensures r.path == s.path && r.idx == s.idx && r.to == s.to && r.error == s.error
    ensures r.partials == s.partials && r.events == s.events && r.deferred == s.deferred && r.released == s.released
  {
    var k := Comp(g, id).kind;
    var (outs, turn) :=
      if k.IterationItem? then ItemInvoke(g, w, s.clock, s.outs, s.turn, id)
      else if k.LoopItem? then LoopItemInvoke(g, w, s.clock, s.outs, s.turn, id)
      else if k.Iteration? then (IterationInvoke(g, w, s.clock, s.outs, id), s.turn)
      else (Perform(g, w, s.clock, id, s.outs), s.turn);
    s.(outs := outs, turn := turn, clock := s.clock + Ticks(k))
  }

  function InvokeAll(g: Graph, w: World, s: State, ids: seq<Id>): (r: State)
    ensures r.path == s.path && r.idx == s.idx && r.to == s.to && r.error == s.error
    ensures r.partials == s.partials && r.events == s.events && r.deferred == s.deferred && r.released == s.released
    decreases |ids|
  {
    if ids == [] then s else InvokeAll(g, w, Invoke(g, w, s, ids[0]), ids[1..])
  }

  // ---------------------------------------------------------------- post-processing

  /** A successor is not appended when it is already last. */
  function Append(path: seq<Id>, id: Id): (r: seq<Id>)
    ensures path <= r
  {
    if path != [] && path[|path| - 1] == id then path else path + [id]
  }

  function Extend(path: seq<Id>, ids: seq<Id>): (r: seq<Id>)
    ensures path <= r
    decreases |ids|
  {
    if ids == [] then path else Extend(Append(path, ids[0]), ids[1..])
  }

  lemma {:induction false} ExtendOne(path: seq<Id>, id: Id)
    ensures Extend(path, [id]) == Append(path, id)
  {
    assert Extend(Append(path, id), []) == Append(path, id);
  }

  /** After a message: emit the deferred node_finished events up to the first that still streams. */
  function Flush(s: State): (r: State)
    ensures r.path == s.path && r.to == s.to && r.idx == s.idx && r.error == s.error && r.outs == s.outs
    ensures r.turn == s.turn && r.clock == s.clock
    decreases |s.partials|
  {
    if s.partials == [] || Streaming(s.outs, s.partials[0]) then s
    else Flush(s.(partials := s.partials[1..],
                  events := s.events + [NodeFinished(s.partials[0])],
                  released := s.released + [s.partials[0]]))
  }

  function Speak(w: World, s: State, id: Id): (r: State)
    ensures r.path == s.path && r.to == s.to && r.idx == s.idx && r.error == s.error
  {
    var s1 :=
      if Streaming(s.outs, id) then
        var (outs, text) := w.drain(s.clock, id, s.outs);
        s.(outs := SetOutput(outs, id, "content", Str(text)), clock := s.clock + 1)
      else s;
    Flush(s1.(events := s1.events + [MessageSent(id), MessageEnd(id)]))
  }

  /** The state after error handling, and whether the component's own successors are skipped. */
  function HandleError(c: Component, s: State, id: Id): (r: (State, bool))
    ensures s.path <= r.0.path && r.0.to == s.to && r.0.idx == s.idx && r.0.outs == s.outs
  {
    if !Failed(s.outs, id) then (s, false)
    else if c.handler.Some? && c.handler.value.goto_ != [] then (s.(path := s.path + c.handler.value.goto_), true)
    else if c.handler.Some? && c.handler.value.fallback.Truthy() then
      (s.(events := s.events + [MessageSent(id), MessageEnd(id)]), false)
    else (s.(error := ErrorOf(s.outs, id)), false)
  }

  function Finish(s: State, id: Id): (r: State)
    ensures r.path == s.path && r.to == s.to && r.idx == s.idx
  {
    if Streaming(s.outs, id) then
      if s.error != "" then
        s.(outs := SetOutput(s.outs, id, "content", Null), events := s.events + [NodeFinished(id)])
      else s.(partials := s.partials + [id], deferred := s.deferred + [id])
    else s.(events := s.events + [NodeFinished(id)])
  }

  /** Has the item run out?  A loop item also stops, for good, when its condition holds. */
  function ItemEnded(g: Graph, w: World, s: State, id: Id): (r: (State, bool))
    ensures r.0.path == s.path && r.0.to == s.to && r.0.idx == s.idx && r.0.outs == s.outs && r.0.error == s.error
  {
    var k := Comp(g, id).kind;
    if TurnOf(s.turn, id) == -1 then (s, IsItem(k))
    else if k.LoopItem? then
      var stop := w.loopDone(s.clock, id, s.outs);
      (s.(clock := s.clock + 1, turn := if stop then s.turn[id := -1] else s.turn), stop)
    else (s, false)
  }

  /** The ids a component hands to the scheduler when nothing diverted it. */
  function Successors(g: Graph, s: State, id: Id, ended: bool): seq<Id> {
    var c := Comp(g, id);
    var start := if c.parent.Some? then GetStart(g, c.parent.value) else None;
    if ended then (if c.parent.Some? then Comp(g, c.parent.value).downstream else [])
    else if c.kind.Categorize? || c.kind.Switch? then NextOf(s.outs, id)
    else if IsContainer(c.kind) then (if GetStart(g, id).Some? then [GetStart(g, id).value] else [])
    else if c.kind.ExitLoop? && c.parent.Some? && Comp(g, c.parent.value).kind.Loop? then
      Comp(g, c.parent.value).downstream
    else if c.downstream == [] && start.Some? then [start.value]
    else c.downstream
  }

  function Route(g: Graph, w: World, s: State, id: Id, diverted: bool): (r: State)
    ensures s.path <= r.path && r.to == s.to && r.idx == s.idx && r.outs == s.outs && r.error == s.error
  {
    var (s1, ended) := ItemEnded(g, w, s, id);
    var c := Comp(g, id);
    var s2 := if ended && c.parent.Some? then s1.(events := s1.events + [NodeFinished(c.parent.value)]) else s1;
    if diverted then s2 else s2.(path := Extend(s2.path, Successors(g, s2, id, ended)))
  }

  function PostOne(g: Graph, w: World, s: State, i: nat): (r: State)
    requires i < |s.path|
    ensures s.path <= r.path && r.to == s.to && r.idx == s.idx
  {
    var id := s.path[i];
    var c := Comp(g, id);
    var s1 := if c.kind.Message? then Speak(w, s, id) else s;
    var (s2, diverted) := HandleError(c, s1, id);
    var s3 := if IsContainer(c.kind) then s2 else Finish(s2, id);
    Route(g, w, s3, id, diverted)
  }

  /** Post-processing of the entries i..j, in order. */
  function PostRange(g: Graph, w: World, s: State, i: nat, j: nat): (r: State)
    requires i <= j <= |s.path|
    ensures s.path <= r.path && r.to == s.to && r.idx == s.idx
    decreases j - i
  {
    if i == j then s else PostRange(g, w, PostOne(g, w, s, i), i + 1, j)
  }

  function Started(ids: seq<Id>): seq<Event> {
    seq(|ids|, i requires 0 <= i < |ids| => NodeStarted(ids[i]))
  }

  /** Everything of a batch up to post-processing. */
  function RunBatch(g: Graph, w: World, s: State): (r: State)
    requires s.idx <= |s.path|
    ensures s.path[..s.idx] <= r.path && r.to == |r.path| && r.idx == s.idx
  {
    var path := Scan(g, s.path[..s.idx], s.path[s.idx..]);
    InvokeAll(g, w, s.(events := s.events + Started(s.path[s.idx..]), path := path, to := |path|), path[s.idx..])
  }

  function Batch(g: Graph, w: World, s: State): (r: State)
    requires s.idx <= |s.path|
    ensures s.path[..s.idx] <= r.path && r.idx == s.idx && r.idx <= r.to <= |r.path|
  {
    var s1 := RunBatch(g, w, s);
    PostRange(g, w, s1, s.idx, s1.to)
  }

  // ---------------------------------------------------------------- a run

  function FillUps(g: Graph, ids: seq<Id>): seq<Id> {
    if ids == [] then [] else (if Comp(g, ids[0]).kind.UserFillUp? then [ids[0]] else []) + FillUps(g, ids[1..])
  }

  function Others(g: Graph, ids: seq<Id>): seq<Id> {
    if ids == [] then [] else (if Comp(g, ids[0]).kind.UserFillUp? then [] else [ids[0]]) + Others(g, ids[1..])
  }

  function Suspend(g: Graph, w: World, s: State): State
    requires s.idx <= |s.path|
  {
    var pending := s.path[s.idx..];
    var asked := FillUps(g, pending);
    var s1 := InvokeAll(g, w, s, asked);
    s1.(path := asked + Others(g, pending), events := s1.events + [UserInputs(asked)])
  }

  /** The batch loop.  `fuel` bounds the number of batches, for a canvas with cycles may run forever. */
  function RunLoop(g: Graph, w: World, s: State, fuel: nat): (r: (State, Halt))
    requires s.idx <= |s.path|
    ensures !r.1.Suspended? ==> r.0.idx <= |r.0.path|
    decreases fuel
  {
    if s.idx == |s.path| then (s, Finished)
    else if fuel == 0 then (s, OutOfFuel)
    else if w.canceled(s.clock) then
      (s.(events := s.events + Started(s.path[s.idx..])), Canceled)
    else
      var t := Batch(g, w, s);
      if t.error != "" then (t, Errored)
      else
        var u := t.(idx := t.to);
        if FillUps(g, u.path[u.idx..]) != [] then (Suspend(g, w, u), Suspended)
        else RunLoop(g, w, u, fuel - 1)
  }

  /** What a run does before its first batch; it looks at the cancel flag once. */
  function Start(s: State): (r: State)
    ensures r.idx == |r.path| - 1
  {
    var path := if s.path == [] || !NamedFillUp(s.path[|s.path| - 1]) then s.path + ["begin"] else s.path;
    s.(path := path, idx := |path| - 1, to := |path| - 1, partials := [], error := "",
       outs := Reset(s.outs), events := [WorkflowStarted], clock := s.clock + 1, deferred := [], released := [])
  }

  /** The error a component reports when it notices a cancellation. */
  predicate TellsOfCancel(error: string) { Occurs(CANCELED_TEXT, error) }

  function Conclude(r: (State, Halt)): (c: (State, Halt))
    requires !r.1.Suspended? ==> r.0.idx <= |r.0.path|
    ensures c.1 == r.1 && (r.1.Suspended? ==> c == r)
  {
    var (s, h) := r;
    if h.Finished? then (s.(path := s.path[..s.idx], events := s.events + [WorkflowFinished]), h)
    else if h.Errored? then
      (s.(path := s.path[..s.idx], events := s.events + if TellsOfCancel(s.error) then [WorkflowFinished] else []), h)
    else (s, h)
  }

  function Run(g: Graph, w: World, s: State, fuel: nat): (State, Halt) {
    var s0 := Start(s);
    if w.canceled(s.clock) then (s0.(events := []), Canceled)
    else Conclude(RunLoop(g, w, s0, fuel))
  }
}

/** The MCP tool-call session: callers put requests on a queue, one worker serves them, `close` drains it.

    Every coroutine is cut at its awaits into steps that run without interruption on the session's loop; a
    run is any sequence of steps, and a step that is not enabled does nothing.  `close` may run on the session's
    own loop, in one step, or on another loop, where it interleaves with everything else. */
module McpSession {
  import opened Options

  type Task = string

  /** A queue entry: what to do, and which of the result queues is the caller's own. */
  datatype Request = Request(task: Task, box: nat)

  datatype Answer = Reply(task: Task) | SessionError | Closing

  /** Where the worker stands.  Connecting is before its first loop; Head is the test of the close flag. */
  datatype Worker = Connecting | Head | Waiting | Holding(r: Request) | Stopped

  datatype Closer = Open | Draining | DrainedHere | DrainedElsewhere

  datatype State = State(
    closed: bool,
    closer: Closer,
    passing: Option<Task>,  // a caller between its test of the close flag and its put
    queue: seq<Request>,
    worker: Worker,
    failing: bool,        // the worker runs without a client session and answers with an error
    accepted: seq<Request>,
    boxes: seq<seq<Answer>>,
    served: seq<nat>,     // history: the boxes the worker answered, in order
    refused: seq<nat>,    // history: those of them it answered while it had no client session
    lost: seq<nat>)       // history: the boxes of requests dropped by a cancelled worker

  datatype Step =
    | CallerTests(task: Task) | CallerPuts
    | Connects | ConnectFails | WorkerTests | WorkerTakes | WorkerAnswers | WorkerTimesOut | WorkerCanceled | WorkerRestarts
    | CloseHere | CloseElsewhere | DrainOne | DrainEnds

  const INIT := State(false, Open, None, [], Connecting, false, [], [], [], [], [])

  function Delivered(s: State, box: nat, a: Answer): seq<seq<Answer>>
    requires box < |s.boxes|
  {
    s.boxes[box := s.boxes[box] + [a]]
  }

  function DrainAll(s: State): State
    decreases |s.queue|
  {
    if s.queue == [] then s else DrainAll(Drain(s))
  }

  /** `get_nowait` and the put of a cancellation. */
  function Drain(s: State): (t: State)
    ensures s.queue != [] ==> t.queue == s.queue[1..]
  {
    if s.queue == [] then s
    else
      var r := s.queue[0];
      s.(queue := s.queue[1..], boxes := if r.box < |s.boxes| then Delivered(s, r.box, Closing) else s.boxes)
  }

  /** Does the session's loop have a coroutine in the middle of a step? */
  predicate Busy(s: State) { s.passing.Some? }

  function Next(s: State, step: Step): State {
    match step
    // callers, on the session's loop
    case CallerTests(task) => if !Busy(s) && !s.closed then s.(passing := Some(task)) else s
    case CallerPuts =>
      if !Busy(s) then s
      else
        var r := Request(s.passing.value, |s.accepted|);
        s.(passing := None, queue := s.queue + [r], accepted := s.accepted + [r], boxes := s.boxes + [[]])
    // the worker, on the session's loop
    case Connects => if !Busy(s) && s.worker.Connecting? then s.(worker := Head) else s
    case ConnectFails => if !Busy(s) && s.worker.Connecting? then s.(worker := Head, failing := true) else s
    case WorkerTests => if !Busy(s) && s.worker.Head? then s.(worker := if s.closed then Stopped else Waiting) else s
    case WorkerTakes =>
      if Busy(s) || !s.worker.Waiting? || s.queue == [] then s
      else
        var r := s.queue[0];
        if s.failing then
          s.(worker := Head, queue := s.queue[1..], served := s.served + [r.box], refused := s.refused + [r.box],
             boxes := if r.box < |s.boxes| then Delivered(s, r.box, SessionError) else s.boxes)
        else s.(worker := Holding(r), queue := s.queue[1..])
    case WorkerAnswers =>
      if Busy(s) || !s.worker.Holding? then s
      else
        var r := s.worker.r;
        s.(worker := Head, served := s.served + [r.box],
           boxes := if r.box < |s.boxes| then Delivered(s, r.box, Reply(r.task)) else s.boxes)
    case WorkerTimesOut => if !Busy(s) && s.worker.Waiting? then s.(worker := Head) else s
    case WorkerCanceled =>
      if Busy(s) || !(s.worker.Waiting? || s.worker.Holding?) then s
      else s.(worker := Stopped, lost := if s.worker.Holding? then s.lost + [s.worker.r.box] else s.lost)
    case WorkerRestarts => if !Busy(s) && s.worker.Stopped? then s.(worker := Head, failing := true) else s
    // close
    case CloseHere => if Busy(s) || s.closed then s else DrainAll(s.(closed := true)).(closer := DrainedHere)
    case CloseElsewhere => if s.closed then s else s.(closed := true, closer := Draining)
    case DrainOne => if s.closer.Draining? && s.queue != [] then Drain(s) else s
    case DrainEnds => if s.closer.Draining? && s.queue == [] then s.(closer := DrainedElsewhere) else s
  }

  function Run(s: State, steps: seq<Step>): State
    decreases |steps|
  {
    if steps == [] then s else Run(Next(s, steps[0]), steps[1..])
  }

  // ---------------------------------------------------------------- the invariant

  predicate Increasing(xs: seq<nat>) { forall i, j | 0 <= i < j < |xs| :: xs[i] < xs[j] }

  function BoxesOf(q: seq<Request>): seq<nat> { seq(|q|, i requires 0 <= i < |q| => q[i].box) }

  /** The requests taken from the queue and not answered: the one in the worker's hands, and those dropped. */
  function InHand(s: State): seq<nat> { s.lost + if s.worker.Holding? then [s.worker.r.box] else [] }

  /** The worker's answers, what it holds, and what is queued come in enqueue order. */
  function Line(s: State): seq<nat> {
    s.served + (if s.worker.Holding? then [s.worker.r.box] else []) + BoxesOf(s.queue)
  }

  predicate Genuine(s: State, r: Request) { r.box < |s.accepted| && s.accepted[r.box] == r }

  predicate Pending(s: State, b: nat) { b in BoxesOf(s.queue) || b in InHand(s) }

  /** What a caller finds in its result queue once it was answered: the connection error from a worker without a client
      session, the outcome of its own task from a worker with one, the cancellation from the drain. */
  function AnswerOf(s: State, b: nat): Answer
    requires b < |s.accepted|
  {
    if b in s.refused then SessionError else if b in s.served then Reply(s.accepted[b].task) else Closing
  }

  /** What every step keeps, draining included. */
  predicate Core(s: State) {
    && |s.boxes| == |s.accepted| && Increasing(Line(s))
    && (forall b | 0 <= b < |s.accepted| :: s.accepted[b].box == b)
    && (forall i | 0 <= i < |s.queue| :: Genuine(s, s.queue[i]))
    && (s.worker.Holding? ==> Genuine(s, s.worker.r) && !s.failing && s.lost == [])
    && (forall b | b in s.lost :: b < |s.accepted| && b !in Line(s))
    && |s.lost| <= 1 && (s.lost != [] ==> s.worker.Stopped? || s.failing)
    && (s.worker.Connecting? ==> !s.failing && s.lost == [])
    && (forall b | b in Line(s) :: b < |s.accepted|)
    && (forall b | b in s.refused :: b in s.served)
    && (forall b | 0 <= b < |s.accepted| :: Settled(s, b))
  }

  /** A pending request has no answer, every other accepted request exactly one, the one that is its due. */
  predicate Settled(s: State, b: nat)
    requires b < |s.accepted| == |s.boxes|
  {
    s.boxes[b] == if Pending(s, b) then [] else [AnswerOf(s, b)]
  }

  predicate Inv(s: State) {
    && Core(s)
    && (s.closer.Open? <==> !s.closed)
    && (s.closer.DrainedHere? ==> s.queue == [] && !Busy(s))
    && (s.closer.DrainedElsewhere? ==> |s.queue| + (if Busy(s) then 1 else 0) <= 1)
  }

  lemma {:induction false} IncreasingHead(a: seq<nat>, b: nat, c: seq<nat>)
    requires Increasing(a + [b] + c)
    ensures Increasing(a + c) && b !in a && b !in c
  {
    var l := a + [b] + c;
    forall i, j | 0 <= i < j < |a + c| ensures (a + c)[i] < (a + c)[j] {
      var i', j' := if i < |a| then i else i + 1, if j < |a| then j else j + 1;
      assert l[i'] == (a + c)[i] && l[j'] == (a + c)[j];
    }
    forall i | 0 <= i < |a| ensures a[i] != b { assert l[i] < l[|a|]; }
    forall i | 0 <= i < |c| ensures c[i] != b { assert l[|a|] < l[|a| + 1 + i]; }
  }

  lemma {:induction false} QueueHead(q: seq<Request>)
    requires q != []
    ensures BoxesOf(q) == [q[0].box] + BoxesOf(q[1..])
  {
  }

  /** Settling the head of the queue with an answer of its own. */
  lemma {:induction false} DrainCore(s: State)
    requires Core(s)
    ensures Core(Drain(s))
  {
    if s.queue != [] {
      var r, t := s.queue[0], Drain(s);
      var held := s.served + if s.worker.Holding? then [s.worker.r.box] else [];
      QueueHead(s.queue);
      assert Line(s) == held + [r.box] + BoxesOf(t.queue) && Line(t) == held + BoxesOf(t.queue);
      IncreasingHead(held, r.box, BoxesOf(t.queue));
      assert forall b | b in Line(t) :: b in Line(s);
      assert Genuine(s, r);
      forall i | 0 <= i < |t.queue| ensures Genuine(t, t.queue[i]) { assert t.queue[i] == s.queue[i + 1]; }
      forall b | 0 <= b < |t.accepted| ensures Settled(t, b) {
        assert Settled(s, b);
      }
    }
  }

  lemma {:induction false} DrainAllCore(s: State)
    requires Core(s)
    ensures Core(DrainAll(s)) && DrainAll(s).queue == []
    ensures var t := DrainAll(s);
      t.closed == s.closed && t.closer == s.closer && t.passing == s.passing && t.worker == s.worker && t.lost == s.lost &&
      t.accepted == s.accepted && t.served == s.served && t.refused == s.refused
    decreases |s.queue|
  {
    hide Core;
    if s.queue != [] {
      DrainCore(s);
      DrainAllCore(Drain(s));
    }
  }

  lemma {:induction false} PutCore(s: State)
    requires Core(s) && Busy(s)
    ensures Core(Next(s, CallerPuts))
  {
    var t := Next(s, CallerPuts);
    var r := Request(s.passing.value, |s.accepted|);
    assert BoxesOf(t.queue) == BoxesOf(s.queue) + [r.box];
    assert Line(t) == Line(s) + [r.box];
    forall i, j | 0 <= i < j < |Line(t)| ensures Line(t)[i] < Line(t)[j] {
      if j == |Line(s)| { assert Line(s)[i] in Line(s); }
    }
    forall i | 0 <= i < |t.queue| ensures Genuine(t, t.queue[i]) { if i < |s.queue| { assert Genuine(s, s.queue[i]); } }
    forall b | 0 <= b < |t.accepted| ensures Settled(t, b) {
      if b < |s.accepted| {
        assert Settled(s, b);
      } else {
        assert BoxesOf(t.queue)[|s.queue|] == b;
      }
    }
  }

  lemma {:induction false} TakeCore(s: State)
    requires Core(s) && !Busy(s) && s.worker.Waiting? && s.queue != []
    ensures Core(Next(s, WorkerTakes))
  {
    var r, t := s.queue[0], Next(s, WorkerTakes);
    QueueHead(s.queue);
    assert Line(s) == s.served + [r.box] + BoxesOf(t.queue);
    assert Line(t) == Line(s);
    IncreasingHead(s.served, r.box, BoxesOf(t.queue));
    assert Genuine(s, r);
    forall i | 0 <= i < |t.queue| ensures Genuine(t, t.queue[i]) { assert t.queue[i] == s.queue[i + 1]; }
    forall b | 0 <= b < |t.accepted| ensures Settled(t, b) {
      assert Settled(s, b);
    }
  }

  lemma {:induction false} AnswerCore(s: State)
    requires Core(s) && !Busy(s) && s.worker.Holding?
    ensures Core(Next(s, WorkerAnswers))
  {
    var r, t := s.worker.r, Next(s, WorkerAnswers);
    assert Line(t) == Line(s);
    IncreasingHead(s.served, r.box, BoxesOf(s.queue));
    forall i | 0 <= i < |t.queue| ensures Genuine(t, t.queue[i]) { assert Genuine(s, s.queue[i]); }
    forall b | 0 <= b < |t.accepted| ensures Settled(t, b) {
      assert Settled(s, b);
    }
  }

  lemma {:induction false} CancelCore(s: State)
    requires Core(s)
    ensures Core(Next(s, WorkerCanceled))
  {
    var t := Next(s, WorkerCanceled);
    if s.worker.Holding? && !Busy(s) {
      assert Line(s) == s.served + [s.worker.r.box] + BoxesOf(s.queue) && Line(t) == s.served + BoxesOf(s.queue);
      IncreasingHead(s.served, s.worker.r.box, BoxesOf(s.queue));
      assert forall b | b in Line(t) :: b in Line(s);
      forall i | 0 <= i < |t.queue| ensures Genuine(t, t.queue[i]) { assert Genuine(s, s.queue[i]); }
    } else {
      assert Line(t) == Line(s);
    }
    forall b | 0 <= b < |t.accepted| ensures Settled(t, b) {
      assert Settled(s, b);
      assert Pending(t, b) <==> Pending(s, b);
    }
  }

  /** The steps that only move the worker or open a caller's passage. */
  lemma {:induction false} QuietCore(s: State, step: Step)
    requires Core(s)
    requires step.CallerTests? || step.Connects? || step.ConnectFails? || step.WorkerTests? || step.WorkerTimesOut? ||
             step.WorkerRestarts? || step.CloseElsewhere? || step.DrainEnds?
    ensures Core(Next(s, step))
  {
    var t := Next(s, step);
    assert Line(t) == Line(s) && InHand(t) == InHand(s);
    forall i | 0 <= i < |t.queue| ensures Genuine(t, t.queue[i]) { assert Genuine(s, s.queue[i]); }
    forall b | 0 <= b < |t.accepted| ensures Settled(t, b) { assert Settled(s, b); }
  }

  lemma {:induction false} CloserIrrelevant(s: State, closed: bool, closer: Closer)
    requires Core(s)
    ensures Core(s.(closed := closed, closer := closer))
  {
    var t := s.(closed := closed, closer := closer);
    assert Line(t) == Line(s) && InHand(t) == InHand(s);
    forall i | 0 <= i < |t.queue| ensures Genuine(t, t.queue[i]) { assert Genuine(s, s.queue[i]); }
    forall b | 0 <= b < |t.accepted| ensures Settled(t, b) { assert Settled(s, b); }
  }

  /** Every step keeps the invariant. */
  lemma {:induction false} NextInv(s: State, step: Step)
    requires Inv(s)
    ensures Inv(Next(s, step))
  {
    hide Core;
    match step {
      case CallerPuts => if Busy(s) { PutCore(s); }
      case WorkerTakes => if !Busy(s) && s.worker.Waiting? && s.queue != [] { TakeCore(s); }
      case WorkerAnswers => if !Busy(s) && s.worker.Holding? { AnswerCore(s); }
      case WorkerCanceled => CancelCore(s);
      case CloseHere =>
        CloserIrrelevant(s, true, s.closer);
        DrainAllCore(s.(closed := true));
        CloserIrrelevant(DrainAll(s.(closed := true)), true, DrainedHere);
      case DrainOne => DrainCore(s);
      case _ => QuietCore(s, step);
    }
  }

  lemma {:induction false} RunInv(s: State, steps: seq<Step>)
    requires Inv(s)
    ensures Inv(Run(s, steps))
    decreases |steps|
  {
    hide Inv, Next;
    if steps != [] {
      NextInv(s, steps[0]);
      RunInv(Next(s, steps[0]), steps[1..]);
    }
  }

  lemma {:induction false} InitInv()
    ensures Inv(INIT)
  {
  }

  // ---------------------------------------------------------------- what callers get

  /** In every interleaving a result queue receives at most one answer, exactly the one that is due to its own request,
      and the worker answers in enqueue order. */
  lemma {:induction false} Delivery(steps: seq<Step>)
    ensures var s := Run(INIT, steps);
      && |s.boxes| == |s.accepted|
      && (forall b | 0 <= b < |s.accepted| :: s.boxes[b] == [] || s.boxes[b] == [AnswerOf(s, b)])
      && (forall b | b in s.served :: b < |s.accepted| && s.boxes[b] == [AnswerOf(s, b)])
      && (forall b | b in s.refused :: b in s.served)
      && Increasing(s.served)
  {
    hide Core, Next, AnswerOf;
    InitInv();
    RunInv(INIT, steps);
    var s := Run(INIT, steps);
    BoxCount(s);
    forall b | 0 <= b < |s.accepted| ensures s.boxes[b] == [] || s.boxes[b] == [AnswerOf(s, b)] { AtMostOne(s, b); }
    forall b | b in s.served ensures b < |s.accepted| && s.boxes[b] == [AnswerOf(s, b)] { ServedAnswered(s, b); }
    ServedInOrder(s);
  }

  /** What the worker answered is not pending. */
  lemma {:induction false} ServedAnswered(s: State, b: nat)
    requires Core(s) && b in s.served
    ensures b < |s.accepted| && b < |s.boxes| && s.boxes[b] == [AnswerOf(s, b)]
  {
    var i :| 0 <= i < |s.served| && s.served[i] == b;
    assert Line(s)[i] == b && b in Line(s);
    forall j | |s.served| <= j < |Line(s)| ensures Line(s)[j] != b { assert Line(s)[i] < Line(s)[j]; }
    NotBehind(s, b);
    LostUnserved(s, b);
    assert Settled(s, b);
  }

  lemma {:induction false} NotBehind(s: State, b: nat)
    requires forall j | |s.served| <= j < |Line(s)| :: Line(s)[j] != b
    ensures b !in BoxesOf(s.queue) && !(s.worker.Holding? && s.worker.r.box == b)
  {
    var h := if s.worker.Holding? then 1 else 0;
    forall i | 0 <= i < |s.queue| ensures BoxesOf(s.queue)[i] != b { assert Line(s)[|s.served| + h + i] == BoxesOf(s.queue)[i]; }
    if s.worker.Holding? { assert Line(s)[|s.served|] == s.worker.r.box; }
  }

  lemma {:induction false} LostUnserved(s: State, b: nat)
    requires Core(s) && b in s.served
    ensures b !in s.lost
  {
    var i :| 0 <= i < |s.served| && s.served[i] == b;
    assert Line(s)[i] == b;
  }

  /** Step by step: a worker with a client session gives the outcome of the task it holds, one without the connection
      error, and nobody else's result queue changes. */
  lemma {:induction false} AnswersWhom(s: State)
    requires Inv(s) && !Busy(s)
    ensures s.worker.Holding? ==>
              var t := Next(s, WorkerAnswers); var b := s.worker.r.box;
              && b < |s.boxes| && t.boxes == s.boxes[b := [Reply(s.accepted[b].task)]] && s.boxes[b] == []
    ensures s.worker.Waiting? && s.queue != [] && s.failing ==>
              var t := Next(s, WorkerTakes); var b := s.queue[0].box;
              && b < |s.boxes| && t.boxes == s.boxes[b := [SessionError]] && s.boxes[b] == []
  {
    if s.worker.Holding? {
      var b := s.worker.r.box;
      assert InHand(s)[|s.lost|] == b;
      assert Genuine(s, s.worker.r) && Settled(s, b);
      assert [] + [Reply(s.worker.r.task)] == [Reply(s.accepted[b].task)];
    } else if s.worker.Waiting? && s.queue != [] && s.failing {
      assert Genuine(s, s.queue[0]) && BoxesOf(s.queue)[0] == s.queue[0].box;
      assert Settled(s, s.queue[0].box);
      assert [] + [SessionError] == [SessionError];
    }
  }

  predicate Connected(steps: seq<Step>) { forall i | 0 <= i < |steps| :: !steps[i].ConnectFails? && !steps[i].WorkerRestarts? }

  predicate NoError(s: State) { !s.failing && forall b | 0 <= b < |s.boxes| :: SessionError !in s.boxes[b] }

  /** As long as the connection stands no caller gets the connection error. */
  lemma {:induction false} NoErrorWhileConnected(s: State, steps: seq<Step>)
    requires NoError(s) && Connected(steps)
    ensures NoError(Run(s, steps))
    decreases |steps|
  {
    hide Next;
    if steps != [] {
      assert !steps[0].ConnectFails? && !steps[0].WorkerRestarts?;
      NoErrorStep(s, steps[0]);
      NoErrorWhileConnected(Next(s, steps[0]), steps[1..]);
    }
  }

  lemma {:induction false} NoErrorStep(s: State, step: Step)
    requires NoError(s) && !step.ConnectFails? && !step.WorkerRestarts?
    ensures NoError(Next(s, step))
  {
    if step.CloseHere? { NoErrorDrain(s.(closed := true)); }
  }

  lemma {:induction false} NoErrorDrain(s: State)
    requires NoError(s)
    ensures NoError(DrainAll(s))
    decreases |s.queue|
  {
    if s.queue != [] { NoErrorDrain(Drain(s)); }
  }

  lemma {:induction false} BoxCount(s: State)
    requires Core(s)
    ensures |s.boxes| == |s.accepted| && forall b | b in s.refused :: b in s.served
  {
  }

  lemma {:induction false} AtMostOne(s: State, b: nat)
    requires Core(s) && b < |s.accepted|
    ensures b < |s.boxes| && (s.boxes[b] == [] || s.boxes[b] == [AnswerOf(s, b)])
  {
    hide AnswerOf;
    assert Settled(s, b);
  }

  lemma {:induction false} ServedInOrder(s: State)
    requires Core(s)
    ensures Increasing(s.served)
  {
    forall i, j | 0 <= i < j < |s.served| ensures s.served[i] < s.served[j] {
      assert Line(s)[i] == s.served[i] && Line(s)[j] == s.served[j];
    }
  }

  predicate Unanswered(s: State, b: nat) { b < |s.accepted| && b < |s.boxes| && s.boxes[b] == [] }

  lemma {:induction false} UnansweredIs(s: State, b: nat)
    requires Inv(s)
    ensures Unanswered(s, b) <==> b < |s.accepted| && Pending(s, b)
  {
    if b < |s.accepted| { assert Settled(s, b); }
  }

  /** Once drained on the session's loop, nothing is accepted and nothing more comes into the worker's hands. */
  lemma {:induction false} DrainedStep(s: State, step: Step)
    requires Inv(s) && s.closer.DrainedHere?
    ensures var t := Next(s, step);
      t.closer.DrainedHere? && t.accepted == s.accepted && forall b | b in InHand(t) :: b in InHand(s)
  {
    hide Core;
  }

  lemma {:induction false} StaysDrained(s: State, steps: seq<Step>)
    requires Inv(s) && s.closer.DrainedHere?
    ensures var t := Run(s, steps);
      Inv(t) && t.closer.DrainedHere? && t.accepted == s.accepted && forall b | b in InHand(t) :: b in InHand(s)
    decreases |steps|
  {
    hide Core, Next, InHand;
    if steps != [] {
      NextInv(s, steps[0]);
      DrainedStep(s, steps[0]);
      StaysDrained(Next(s, steps[0]), steps[1..]);
    }
  }

  lemma {:induction false} InHandShort(s: State)
    requires Inv(s)
    ensures |InHand(s)| <= 1
  {
  }

  /** When the session is closed on its own loop, from then on the queue is empty, nothing more is accepted,
      and no accepted request is without an answer but the one the worker had in its hands, if any. */
  lemma {:induction false} CloseOnOwnLoop(before: seq<Step>, after: seq<Step>)
    requires !Run(INIT, before).closed && !Busy(Run(INIT, before))
    ensures var s0 := Next(Run(INIT, before), CloseHere); var s := Run(s0, after);
      && s.queue == [] && s.accepted == s0.accepted && |InHand(s0)| <= 1
      && (forall b | Unanswered(s, b) :: b in InHand(s0))
  {
    hide Core, Next, InHand;
    InitInv();
    RunInv(INIT, before);
    var s := Run(INIT, before);
    NextInv(s, CloseHere);
    var s0 := Next(s, CloseHere);
    ClosesHere(s);
    InHandShort(s0);
    StaysDrained(s0, after);
    var t := Run(s0, after);
    assert t.queue == [];
    forall b | Unanswered(t, b) ensures b in InHand(s0) {
      UnansweredIs(t, b);
      assert BoxesOf(t.queue) == [];
    }
  }

  lemma {:induction false} ClosesHere(s: State)
    requires !s.closed && !Busy(s)
    ensures Next(s, CloseHere).closer == DrainedHere
  {
  }

  lemma {:induction false} HeadBox(s: State)
    requires Core(s) && s.queue != []
    ensures s.queue[0].box < |s.boxes|
  {
    assert Genuine(s, s.queue[0]);
  }

  lemma {:induction false} QueuedNotInHand(s: State, b: nat)
    requires Core(s) && b in BoxesOf(s.queue)
    ensures b < |s.accepted| && b !in InHand(s)
  {
    var i :| 0 <= i < |s.queue| && BoxesOf(s.queue)[i] == b;
    assert Genuine(s, s.queue[i]);
    if s.worker.Holding? {
      assert Line(s)[|s.served|] == s.worker.r.box && Line(s)[|s.served| + 1 + i] == b;
    }
  }

  /** Closing answers every request that was waiting, with the cancellation. */
  lemma {:induction false} CloseAnswersWaiting(s: State, b: nat)
    requires Inv(s) && !s.closed && !Busy(s) && b in BoxesOf(s.queue)
    ensures var t := Next(s, CloseHere); b < |t.boxes| && t.boxes[b] == [Closing]
  {
    hide Core, AnswerOf;
    QueuedNotInHand(s, b);
    NextInv(s, CloseHere);
    var t := Next(s, CloseHere);
    CloserIrrelevant(s, true, s.closer);
    DrainAllCore(s.(closed := true));
    assert InHand(t) == InHand(s) && BoxesOf(t.queue) == [];
    OneAnswer(t, b);
    QueuedUnserved(s, b);
    assert t.served == s.served && t.refused == s.refused;
    UnservedClosing(t, b);
  }

  lemma {:induction false} UnservedClosing(s: State, b: nat)
    requires b < |s.accepted| && b !in s.served && b !in s.refused
    ensures AnswerOf(s, b) == Closing
  {
  }

  lemma {:induction false} QueuedUnserved(s: State, b: nat)
    requires Core(s) && b in BoxesOf(s.queue)
    ensures b !in s.served && b !in s.refused
  {
    var i :| 0 <= i < |s.queue| && BoxesOf(s.queue)[i] == b;
    var h := if s.worker.Holding? then 1 else 0;
    assert Line(s)[|s.served| + h + i] == b;
    forall j | 0 <= j < |s.served| ensures s.served[j] != b { assert Line(s)[j] == s.served[j]; }
  }

  lemma {:induction false} DrainedGetClosing(s: State)
    requires Inv(s) && s.passing == None
    ensures !s.closed ==> forall b | b in BoxesOf(s.queue) :: var t := Next(s, CloseHere); b < |t.boxes| && t.boxes[b] == [Closing]
  {
    hide Inv, Next;
    if !s.closed {
      forall b | b in BoxesOf(s.queue) ensures var t := Next(s, CloseHere); b < |t.boxes| && t.boxes[b] == [Closing] {
        CloseAnswersWaiting(s, b);
      }
    }
  }

  lemma {:induction false} OneAnswer(s: State, b: nat)
    requires Core(s) && b < |s.accepted| && !Pending(s, b)
    ensures b < |s.boxes| && s.boxes[b] == [AnswerOf(s, b)]
  {
    assert Settled(s, b);
  }

  /** Closed from another loop, the session may keep one more request, which was let in before the flag was set
      and put after the drain ended; no more than that one. */
  lemma {:induction false} CloseOnOtherLoop(steps: seq<Step>)
    requires Run(INIT, steps).closer.DrainedElsewhere?
    ensures var s := Run(INIT, steps);
      && |s.queue| <= 1 && |InHand(s)| <= 1
      && (forall b | Unanswered(s, b) :: b in InHand(s) || b in BoxesOf(s.queue))
  {
    hide Core, Next, InHand;
    InitInv();
    RunInv(INIT, steps);
    var s := Run(INIT, steps);
    InHandShort(s);
    forall b | Unanswered(s, b) ensures b in InHand(s) || b in BoxesOf(s.queue) { UnansweredIs(s, b); }
  }

  /** Nothing can still happen to a request: drained elsewhere, and the worker has stopped. */
  predicate Over(s: State) { s.closer.DrainedElsewhere? && s.closed && !Busy(s) && (s.worker.Stopped? || s.worker.Head?) }

  lemma {:induction false} OverForever(s: State, steps: seq<Step>)
    requires Over(s)
    ensures Over(Run(s, steps)) && Run(s, steps).boxes == s.boxes
    decreases |steps|
  {
    if steps != [] { OverForever(Next(s, steps[0]), steps[1..]); }
  }

  /** Two accepted requests are without an answer after the drain on another loop. */
  ghost predicate TwoLeft(s: State) {
    s.closer.DrainedElsewhere? && exists a, b :: a != b && Unanswered(s, a) && Unanswered(s, b)
  }

  /** At most one request will be left: no caller is in passage while another request is in hand. */
  predicate OneAtMost(s: State) {
    && s.closed && (Busy(s) ==> InHand(s) == [])
    && (s.closer.DrainedElsewhere? ==> |s.queue| + |InHand(s)| + (if Busy(s) then 1 else 0) <= 1)
  }

  lemma {:induction false} OneAtMostStep(s: State, step: Step)
    requires Inv(s) && OneAtMost(s)
    ensures OneAtMost(Next(s, step))
  {
    hide Settled, AnswerOf, Pending, Genuine, Line, Increasing, DrainAll;
  }

  lemma {:induction false} OneAtMostRun(s: State, steps: seq<Step>)
    requires Inv(s) && OneAtMost(s)
    ensures Inv(Run(s, steps)) && OneAtMost(Run(s, steps))
    decreases |steps|
  {
    hide Inv, OneAtMost, Next;
    if steps != [] {
      NextInv(s, steps[0]);
      OneAtMostStep(s, steps[0]);
      OneAtMostRun(Next(s, steps[0]), steps[1..]);
    }
  }

  lemma {:induction false} NotTwo(s: State)
    requires Inv(s) && OneAtMost(s)
    ensures !TwoLeft(s)
  {
    hide Core;
    if s.closer.DrainedElsewhere? {
      forall a, b | Unanswered(s, a) && Unanswered(s, b) ensures a == b { SameUnanswered(s, a, b); }
    }
  }

  lemma {:induction false} SameUnanswered(s: State, a: nat, b: nat)
    requires Inv(s) && OneAtMost(s) && s.closer.DrainedElsewhere? && Unanswered(s, a) && Unanswered(s, b)
    ensures a == b
  {
    hide Core;
    UnansweredIs(s, a);
    UnansweredIs(s, b);
    var l := BoxesOf(s.queue) + InHand(s);
    assert a in l && b in l && |l| <= 1;
  }

  /** Without a caller in passage when the flag is set, closing on another loop leaves no more than closing on the
      session's own: the queue is empty and only the request in hand can be without an answer. */
  lemma {:induction false} ClosedIdle(s: State, steps: seq<Step>)
    requires Inv(s) && s.closed && !Busy(s) && (s.closer.DrainedElsewhere? ==> s.queue == [])
    ensures var t := Run(s, steps);
      t.closer.DrainedElsewhere? ==> t.queue == [] && |InHand(t)| <= 1 && forall b | Unanswered(t, b) :: b in InHand(t)
    decreases |steps|
  {
    hide Core;
    if steps == [] {
      InHandShort(s);
      forall b | Unanswered(s, b) && s.closer.DrainedElsewhere? ensures b in InHand(s) { UnansweredIs(s, b); }
    } else {
      NextInv(s, steps[0]);
      ClosedIdle(Next(s, steps[0]), steps[1..]);
    }
  }

  function Drains(n: nat): seq<Step> { seq(n, i => DrainOne) }

  lemma {:induction false} RunDrains(s: State)
    requires s.closer.Draining?
    ensures var t := Run(s, Drains(|s.queue|)); t == s.(queue := [], boxes := t.boxes)
    decreases |s.queue|
  {
    if s.queue != [] {
      assert Drains(|s.queue|)[1..] == Drains(|s.queue| - 1);
      RunDrains(Next(s, DrainOne));
    }
  }

  lemma {:induction false} RunConcat(s: State, a: seq<Step>, b: seq<Step>)
    ensures Run(s, a + b) == Run(Run(s, a), b)
    decreases |a|
  {
    hide Next;
    if a == [] {
      assert a + b == b;
    } else {
      assert (a + b)[1..] == a[1..] + b;
      RunConcat(Next(s, a[0]), a[1..], b);
    }
  }

  /** The drain ends, the caller in passage puts, and the worker is cancelled. */
  const LATE_PUT := [DrainEnds, CallerPuts, WorkerCanceled, WorkerTests]

  lemma {:induction false} LatePut(s: State)
    requires s.closer.Draining? && s.closed && Busy(s) && s.queue == [] && InHand(s) != [] && !s.worker.Connecting?
    ensures var t := Run(s, LATE_PUT);
      Over(t) && InHand(t) == InHand(s) && t.queue == [Request(s.passing.value, |s.accepted|)] && |t.accepted| == |s.accepted| + 1
  {
    hide InHand, Next, Run;
    var s2 := Next(Next(s, DrainEnds), CallerPuts);
    PutsLate(s);
    StopsWorker(s2);
    RunFour(s, DrainEnds, CallerPuts, WorkerCanceled, WorkerTests);
  }

  lemma {:induction false} PutsLate(s: State)
    requires s.closer.Draining? && Busy(s) && s.queue == []
    ensures var r := Request(s.passing.value, |s.accepted|);
      var t := Next(Next(s, DrainEnds), CallerPuts);
      && t == s.(closer := DrainedElsewhere, passing := None, queue := [r], accepted := s.accepted + [r], boxes := t.boxes)
      && InHand(t) == InHand(s)
  {
    assert [] + [Request(s.passing.value, |s.accepted|)] == [Request(s.passing.value, |s.accepted|)];
  }

  lemma {:induction false} StopsWorker(s: State)
    requires s.closed && !Busy(s) && !s.worker.Connecting?
    ensures var t := Next(Next(s, WorkerCanceled), WorkerTests);
      && t == s.(worker := Stopped, lost := t.lost) && InHand(t) == InHand(s)
  {
    hide Drain, DrainAll;
  }

  lemma {:induction false} RunFour(s: State, a: Step, b: Step, c: Step, d: Step)
    ensures Run(s, [a, b, c, d]) == Next(Next(Next(Next(s, a), b), c), d)
  {
    hide Next;
    RunCons(s, a, [b, c, d]);
    RunCons(Next(s, a), b, [c, d]);
    RunCons(Next(Next(s, a), b), c, [d]);
    RunCons(Next(Next(Next(s, a), b), c), d, []);
    assert [a] + [b, c, d] == [a, b, c, d] && [b] + [c, d] == [b, c, d] && [c] + [d] == [c, d] && [d] + [] == [d];
  }

  lemma {:induction false} InHandFacts(s: State)
    requires Core(s) && InHand(s) != []
    ensures !s.worker.Connecting? && InHand(s)[0] < |s.accepted|
  {
    if s.worker.Holding? {
      assert Genuine(s, s.worker.r);
    } else {
      assert InHand(s) == s.lost && s.lost[0] in s.lost;
    }
  }

  /** A caller in passage and a request in hand when the flag is set: the run that leaves both, for good. */
  lemma {:induction false} LeavesTwo(s: State) returns (steps: seq<Step>)
    requires Inv(s) && !s.closed && Busy(s) && InHand(s) != []
    ensures var t := Run(Next(s, CloseElsewhere), steps); TwoLeft(t) && Over(t)
  {
    hide Core, Over, InHand;
    var s1 := Next(s, CloseElsewhere);
    assert InHand(s1) == InHand(s) by { SameInHand(s); }
    NextInv(s, CloseElsewhere);
    RunDrains(s1);
    var s2 := Run(s1, Drains(|s1.queue|));
    assert InHand(s2) == InHand(s1) by { SameHands(s2, s1); }
    RunInv(s1, Drains(|s1.queue|));
    InHandFacts(s2);
    LatePut(s2);
    steps := Drains(|s1.queue|) + LATE_PUT;
    RunConcat(s1, Drains(|s1.queue|), LATE_PUT);
    RunInv(s1, steps);
    var t := Run(s1, steps);
    var a, b := InHand(t)[0], |s2.accepted|;
    assert BoxesOf(t.queue)[0] == b;
    UnansweredIs(t, a);
    UnansweredIs(t, b);
    assert t.closer.DrainedElsewhere? by { assert Over(t); IsDrained(t); }
  }

  lemma {:induction false} IsDrained(s: State)
    requires Over(s)
    ensures s.closer.DrainedElsewhere?
  {
  }

  lemma {:induction false} SameInHand(s: State)
    ensures InHand(Next(s, CloseElsewhere)) == InHand(s)
  {
  }

  lemma {:induction false} SameHands(s: State, t: State)
    requires s.worker == t.worker && s.lost == t.lost
    ensures InHand(s) == InHand(t)
  {
  }

  /** Closing from another loop can leave two accepted requests without an answer exactly when a caller is in passage
      and a request is in hand, held or lost, at the moment the flag is set. */
  lemma {:induction false} CloseOnOtherLoopExactly(s: State)
    requires Inv(s) && !s.closed
    ensures (exists steps :: TwoLeft(Run(Next(s, CloseElsewhere), steps))) <==> Busy(s) && InHand(s) != []
  {
    hide Core, InHand, TwoLeft;
    var s1 := Next(s, CloseElsewhere);
    NextInv(s, CloseElsewhere);
    SameInHand(s);
    if Busy(s) && InHand(s) != [] {
      var steps := LeavesTwo(s);
    } else {
      forall steps ensures !TwoLeft(Run(s1, steps)) {
        OneAtMostRun(s1, steps);
        NotTwo(Run(s1, steps));
      }
    }
  }

  /** And it does: both requests of this run are accepted and neither is ever answered. */
  lemma {:induction false} CloseOnOtherLoopLeavesTwo(task: Task)
    ensures var steps := [Connects, WorkerTests, CallerTests(task), CallerPuts, WorkerTakes,
                          CallerTests(task), CloseElsewhere, DrainEnds, CallerPuts, WorkerCanceled];
      var s := Run(INIT, steps);
      s.closer.DrainedElsewhere? && s.worker.Stopped? && s.boxes == [[], []]
  {
    hide Next, Drain;
    var r := Request(task, 0);
    var s2 := INIT.(worker := Waiting);
    var s5 := s2.(worker := Holding(r), accepted := [r], boxes := [[]]);
    var s8 := s5.(passing := Some(task), closed := true, closer := DrainedElsewhere);
    Opening(task);
    Stray(task, s5);
    RunCons(INIT, Connects, [WorkerTests, CallerTests(task), CallerPuts, WorkerTakes, CallerTests(task), CloseElsewhere, DrainEnds, CallerPuts, WorkerCanceled]);
    RunCons(Next(INIT, Connects), WorkerTests, [CallerTests(task), CallerPuts, WorkerTakes, CallerTests(task), CloseElsewhere, DrainEnds, CallerPuts, WorkerCanceled]);
    var s3 := Next(s2, CallerTests(task));
    RunCons(s2, CallerTests(task), [CallerPuts, WorkerTakes, CallerTests(task), CloseElsewhere, DrainEnds, CallerPuts, WorkerCanceled]);
    RunCons(s3, CallerPuts, [WorkerTakes, CallerTests(task), CloseElsewhere, DrainEnds, CallerPuts, WorkerCanceled]);
    RunCons(Next(s3, CallerPuts), WorkerTakes, [CallerTests(task), CloseElsewhere, DrainEnds, CallerPuts, WorkerCanceled]);
    var s6 := Next(s5, CallerTests(task));
    RunCons(s5, CallerTests(task), [CloseElsewhere, DrainEnds, CallerPuts, WorkerCanceled]);
    RunCons(s6, CloseElsewhere, [DrainEnds, CallerPuts, WorkerCanceled]);
    RunCons(Next(s6, CloseElsewhere), DrainEnds, [CallerPuts, WorkerCanceled]);
    RunCons(s8, CallerPuts, [WorkerCanceled]);
    RunCons(Next(s8, CallerPuts), WorkerCanceled, []);
  }

  /** The first request is taken and stays in the worker's hands. */
  lemma {:induction false} Opening(task: Task)
    ensures var s2 := Next(Next(INIT, Connects), WorkerTests);
      && s2 == INIT.(worker := Waiting)
      && Next(Next(Next(s2, CallerTests(task)), CallerPuts), WorkerTakes) ==
         s2.(worker := Holding(Request(task, 0)), accepted := [Request(task, 0)], boxes := [[]])
  {
    var r := Request(task, 0);
    var s4 := Next(Next(INIT.(worker := Waiting), CallerTests(task)), CallerPuts);
    assert s4.queue == [r] && s4.accepted == [r] && s4.boxes == [[]];
  }

  /** A caller that passed the test puts its request after the other loop has closed and drained. */
  lemma {:induction false} Stray(task: Task, s: State)
    requires !Busy(s) && !s.closed && s.queue == [] && s.worker.Holding? && s.boxes == [[]] && |s.accepted| == 1
    ensures var s8 := Next(Next(Next(s, CallerTests(task)), CloseElsewhere), DrainEnds);
      var t := Next(Next(s8, CallerPuts), WorkerCanceled);
      && s8 == s.(passing := Some(task), closed := true, closer := DrainedElsewhere)
      && t.closer.DrainedElsewhere? && t.worker.Stopped? && t.boxes == [[], []]
  {
    var s6 := s.(passing := Some(task));
    assert Next(s, CallerTests(task)) == s6;
    assert Next(s6, CloseElsewhere) == s6.(closed := true, closer := Draining);
  }

  lemma {:induction false} RunCons(s: State, step: Step, rest: seq<Step>)
    ensures Run(s, [step] + rest) == Run(Next(s, step), rest)
    ensures rest == [] ==> Run(s, [step] + rest) == Next(s, step)
  {
    hide Next;
    assert ([step] + rest)[1..] == rest;
  }
}

/** The session object.  Each method is one stretch of code between two awaits; it is proved to be the step of
    McpSession it stands for. */
module McpSessionObject {
  import opened Options
  import opened McpSession

  class McpToolCallSession {
    var closed: bool
    var closer: Closer
    var passing: Option<Task>
    var queue: seq<Request>
    var worker: Worker
    var failing: bool
    var accepted: seq<Request>
    var boxes: seq<seq<Answer>>
    ghost var served: seq<nat>
    ghost var refused: seq<nat>
    ghost var lost: seq<nat>

    ghost function View(): State
      reads this
    {
      State(closed, closer, passing, queue, worker, failing, accepted, boxes, served, refused, lost)
    }

    constructor ()
      ensures View() == INIT && Inv(View())
    {
      closed, closer, passing, queue, worker, failing := false, Open, None, [], Connecting, false;
      accepted, boxes, served, refused, lost := [], [], [], [], [];
      new;
      InitInv();
    }

    /** `_call_mcp_server` up to its put: refuse when closed. */
    method TestClosed(task: Task) returns (refused: bool)
      requires Inv(View()) && passing == None
      modifies this`passing
      ensures View() == Next(old(View()), CallerTests(task)) && Inv(View()) && refused == closed
    {
      NextInv(View(), CallerTests(task));
      if closed { return true; }
      passing := Some(task);
      return false;
    }

    /** The put, with a new result queue of the caller's own. */
    method Enqueue() returns (box: nat)
      requires Inv(View()) && passing.Some?
      modifies this`passing, this`queue, this`accepted, this`boxes
      ensures View() == Next(old(View()), CallerPuts) && Inv(View())
      ensures box < |accepted| && accepted[box] == Request(old(passing).value, box) && boxes[box] == []
    {
      NextInv(View(), CallerPuts);
      box := |accepted|;
      var r := Request(passing.value, box);
      accepted, boxes := accepted + [r], boxes + [[]];
      queue := queue + [r];
      passing := None;
    }

    /** The head of the worker loop. */
    method TestLoop() returns (go: bool)
      requires Inv(View()) && passing == None && worker.Head?
      modifies this`worker
      ensures View() == Next(old(View()), WorkerTests) && Inv(View()) && go == !closed
    {
      NextInv(View(), WorkerTests);
      go := !closed;
      worker := if go then Waiting else Stopped;
    }

    /** `get`, and for a session without a client the error answer, which needs no further await. */
    method Take() returns (r: Request)
      requires Inv(View()) && passing == None && worker.Waiting? && queue != []
      modifies this`worker, this`queue, this`boxes, this`served, this`refused
      ensures View() == Next(old(View()), WorkerTakes) && Inv(View())
      ensures r == old(queue)[0] && r.box < |accepted| && accepted[r.box] == r
      ensures boxes == if failing then old(boxes)[r.box := [SessionError]] else old(boxes)
    {
      NextInv(View(), WorkerTakes);
      r := queue[0];
      assert Genuine(View(), r);
      AnswersWhom(View());
      queue := queue[1..];
      if failing {
        boxes := boxes[r.box := boxes[r.box] + [SessionError]];
        served, refused := served + [r.box], refused + [r.box];
        worker := Head;
      } else {
        worker := Holding(r);
      }
    }

    /** The put of what the client session returned or raised. */
    method AnswerHeld()
      requires Inv(View()) && passing == None && worker.Holding?
      modifies this`worker, this`boxes, this`served
      ensures View() == Next(old(View()), WorkerAnswers) && Inv(View())
      ensures var r := old(worker).r; boxes == old(boxes)[r.box := [Reply(r.task)]]
    {
      NextInv(View(), WorkerAnswers);
      AnswersWhom(View());
      assert Genuine(View(), worker.r);
      var r := worker.r;
      boxes := boxes[r.box := boxes[r.box] + [Reply(r.task)]];
      served := served + [r.box];
      worker := Head;
    }

    /** `close` on the session's own loop: the drain loop runs without interruption. */
    method CloseOnLoop()
      requires Inv(View()) && passing == None
      modifies this`closed, this`closer, this`queue, this`boxes
      ensures View() == Next(old(View()), CloseHere) && Inv(View())
      ensures !old(closed) ==> forall b | b in BoxesOf(old(queue)) :: b < |boxes| && boxes[b] == [Closing]
    {
      hide Core, Next;
      NextInv(View(), CloseHere);
      ClosesBy(View());
      DrainedGetClosing(View());
      if closed { return; }
      ghost var s := View();
      closed := true;
      CloserIrrelevant(s, true, closer);
      while queue != []
        invariant Core(View()) && closed && DrainAll(s.(closed := true)) == DrainAll(View())
        decreases |queue|
      {
        DrainCore(View());
        HeadBox(View());
        DrainNext();
      }
      closer := DrainedHere;
    }

    lemma {:induction false} ClosesBy(s: State)
      requires s.passing == None
      ensures Next(s, CloseHere) == if s.closed then s else DrainAll(s.(closed := true)).(closer := DrainedHere)
    {
    }

    /** One turn of the drain loop. */
    method DrainNext()
      requires queue != [] && queue[0].box < |boxes|
      modifies this`queue, this`boxes
      ensures View() == Drain(old(View()))
    {
      var r := queue[0];
      queue := queue[1..];
      boxes := boxes[r.box := boxes[r.box] + [Closing]];
    }
  }
}

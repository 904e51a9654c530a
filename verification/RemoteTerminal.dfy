/**
 * The client's handle and the runner's event queue as the objects they are, each method tied to
 * its step of TerminalProtocol (control-plane/src/terminal/remote-terminal.ts:107-404,
 * runner/terminal/terminal.go:260-294).
 */
module RemoteTerminal {
  import opened Prelude
  import Q = MessageQueue
  import P = TerminalProtocol

  class RemoteTerminal {
    const requests: Q.MessageQueue<P.Control>
    var waiting: seq<P.Control>
    var replies: seq<P.Control>
    var closed: bool
    var quiescent: bool
    var startSettled: bool
    var completion: P.Completion
    var finished: bool
    var written: P.Bytes
    var ended: bool
    var over: bool
    var calls: nat
    ghost var lateWrite: bool
    ghost var consumed: nat
    ghost var settled: seq<P.Settlement>

    ghost function State(): P.Client
      reads this, requests
    {
      P.Client(Promised(), requests.State(), Raised(), Output())
    }

    ghost function Promised(): P.Promises
      reads this
    {
      P.Promises(waiting, replies, calls, settled)
    }

    ghost function Raised(): P.Flags
      reads this
    {
      P.Flags(closed, quiescent, startSettled, completion, finished, over)
    }

    ghost function Output(): P.Sink
      reads this
    {
      P.Sink(written, ended, lateWrite, consumed)
    }

    constructor ()
      ensures State() == P.NewClient() && fresh(requests)
    {
      requests := new Q.MessageQueue<P.Control>();
      waiting, replies, calls, settled := [], [], 0, [];
      closed, quiescent, startSettled, completion, finished, over := false, false, false, P.Pending, false, false;
      written, ended, lateWrite, consumed := [], false, false, 0;
      new;
      var ok, resumed := requests.Push(P.Start);
    }

    /** A public call joins the `control` chain, or answers at once on a quiescent terminal. */
    method Call(call: P.Call)
      modifies this
      ensures State() == old(State()).(promises := P.CallControl(old(State()).promises, call, old(quiescent)))
    {
      match call
      case Write(data) => waiting := waiting + [P.Input(data)];
      case ResizeTo(cols, rows) =>
        if cols >= 1 && rows >= 1 {
          waiting := waiting + [P.Resize(cols, rows)];
        }
      case AskFor(kind) =>
        if quiescent && kind != P.Signaled {
          settled := settled + [P.Settlement(calls, kind, P.Local)];
        } else {
          waiting := waiting + [P.Ask(calls, kind)];
        }
        calls := calls + 1;
    }

    /** `serialized`: the next operation of the chain, once its predecessor settled. */
    method RunNext(ghost s: P.Server)
      requires waiting != [] && replies == []
      modifies this, requests
      ensures State() == P.ClientStep(old(State()), s, P.DoRunNext)
    {
      var next := waiting[0];
      waiting := waiting[1..];
      if closed {
        Reject(next);
        return;
      }
      if next.Ask? {
        replies := replies + [next];
      }
      var ok, resumed := requests.Push(next);
      if !ok {
        replies := if next.Ask? then replies[..|replies| - 1] else replies;
        Reject(next);
      }
    }

    method Reject(control: P.Control)
      modifies this`settled
      ensures settled == old(settled) + if control.Ask? then [P.Settling(control, P.Rejected)] else []
    {
      settled := settled + if control.Ask? then [P.Settling(control, P.Rejected)] else [];
    }

    method Terminate(ghost s: P.Server)
      modifies this, requests
      ensures State() == P.ClientStep(old(State()), s, P.DoTerminate)
    {
      if !closed {
        closed := true;
        var resumed := requests.End();
      }
    }

    /** `replies.shift()?.resolve(response)`. */
    method ResolveOldest(event: P.Event)
      requires event.Answer?
      modifies this`replies, this`settled
      ensures Promised() == P.ConsumeAnswer(old(Promised()), event)
    {
      if replies != [] {
        settled := settled + [P.Settling(replies[0], P.Answered(event))];
        replies := replies[1..];
      }
    }

    method WriteOutput(chunk: P.Bytes)
      modifies this`written, this`lateWrite
      ensures lateWrite == (old(lateWrite) || ended)
      ensures written == if ended then old(written) else old(written) + chunk
    {
      if ended {
        lateWrite := true;
      } else {
        written := written + chunk;
      }
    }

    /** The `closed` event: output is complete and the request half ends. */
    method OnClosed()
      modifies this`ended, this`quiescent, this`closed, this`finished, requests
      ensures ended && quiescent && closed && finished
      ensures requests.State() == Q.End(old(requests.State()))
    {
      ended, quiescent, closed, finished := true, true, true, true;
      var resumed := requests.End();
    }

    /** One response of the `consume` loop. */
    method OnResponse(event: P.Event)
      modifies this, requests
      ensures Promised() == P.ConsumeAnswer(old(Promised()), event)
      ensures Raised() == P.ConsumeFlags(old(Raised()), event)
      ensures Output() == P.ConsumeOutput(old(Output()), event)
      ensures requests.State() == if event.Closed? then Q.End(old(requests.State())) else old(requests.State())
    {
      consumed := consumed + 1;
      match event
      case Started => startSettled := true;
      case Output(chunk) => WriteOutput(chunk);
      case Exited(code) =>
        if completion.Pending? {
          completion := P.Exit(code);
        }
      case Closed => OnClosed();
      case Answer(_, _) => ResolveOldest(event);
    }

    /** The loop ended: cleanly, or with an error. */
    method OnStreamEnd(clean: bool)
      modifies this, requests
      ensures State() == if clean then P.CleanEnd(old(State())) else P.Fail(old(State()))
    {
      if clean && !completion.Pending? {
        ended, finished, over := true, true, true;
      } else {
        Fail();
      }
    }

    method RejectReplies()
      modifies this`replies, this`settled
      ensures Promised() == P.RejectAll(old(Promised()))
    {
      while replies != []
        invariant P.RejectAll(Promised()) == P.RejectAll(old(Promised()))
        decreases |replies|
      {
        settled := settled + [P.Settling(replies[0], P.Rejected)];
        replies := replies[1..];
      }
    }

    method Fail()
      modifies this, requests
      ensures Promised() == P.RejectAll(old(Promised()))
      ensures Raised() == P.Flags(true, old(quiescent), true,
                                  if old(completion).Pending? then P.Lost else old(completion), true, true)
      ensures Output() == old(Output()) && requests.State() == Q.End(old(requests.State()))
    {
      LoseTerminal();
      RejectReplies();
      finished, over := true, true;
    }

    method LoseTerminal()
      modifies this`closed, this`startSettled, this`completion, requests
      ensures closed && startSettled && completion == if old(completion).Pending? then P.Lost else old(completion)
      ensures requests.State() == Q.End(old(requests.State()))
    {
      closed, startSettled := true, true;
      var resumed := requests.End();
      if completion.Pending? {
        completion := P.Lost;
      }
    }
  }

  /** The runner's shared response queue. Its mutex makes each method one step; `Send` waits for room first. */
  class TerminalEvents {
    var events: seq<P.Event>
    var closed: bool
    ghost var dropped: bool
    ghost var sent: seq<P.Event>
    ghost var exitedAt: Option<nat>
    ghost var closedAt: Option<nat>

    ghost function State(): P.Channel
      reads this
    {
      P.Channel(events, closed, dropped, sent, exitedAt, closedAt)
    }

    constructor ()
      ensures State() == P.NewServer.channel
    {
      events, closed, dropped, sent, exitedAt, closedAt := [], false, false, [], None, None;
    }

    method Send(event: P.Event)
      requires P.HasRoom(State())
      modifies this
      ensures State() == P.Send(old(State()), event)
      ensures |events| <= P.EVENT_BUFFER || closed || |old(events)| > P.EVENT_BUFFER
    {
      if closed {
        dropped := true;
        return;
      }
      if event.Exited? {
        exitedAt := Some(|sent|);
      }
      if event.Closed? {
        closedAt := Some(|sent|);
      }
      events, sent := events + [event], sent + [event];
    }

    method Close()
      modifies this
      ensures State() == old(State()).(closed := true)
    {
      closed := true;
    }
  }
}

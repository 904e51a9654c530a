/**
 * The terminal stream between the control plane and the runner: one client, a request stream,
 * four producers on one event queue, a sender and a response stream
 * (control-plane/src/terminal/remote-terminal.ts, runner/terminal/terminal.go).
 *
 * The wire carries no correlation ids. `asker` below is a proof-only label of the promise a
 * control belongs to; no step of either side looks at it.
 */
module TerminalProtocol {
  import opened Prelude
  import Q = MessageQueue

  type Bytes = seq<byte>

  datatype Kind = Foreground | Activity | Signaled

  /** Query and signal controls ask for one answer; the answer's kind follows from the control. */
  datatype Control = Start | Input(data: Bytes) | Resize(cols: int, rows: int) | Ask(asker: nat, kind: Kind)

  datatype Event = Started | Output(chunk: Bytes) | Exited(code: int) | Closed | Answer(asker: nat, kind: Kind)

  // ---- The client -------------------------------------------------------------------------

  /** How a query or signal promise settles. A quiescent terminal answers queries by itself. */
  datatype Outcome = Answered(event: Event) | Rejected | Local

  datatype Settlement = Settlement(id: nat, kind: Kind, outcome: Outcome)

  datatype Completion = Pending | Exit(code: int) | Lost

  /**
   * The reply promises: `waiting` is the `control` promise chain behind the call in progress,
   * `replies` the pending ones, `settled` the log of settlements.
   */
  datatype Promises = Promises(waiting: seq<Control>, replies: seq<Control>, calls: nat, settled: seq<Settlement>)

  datatype Flags = Flags(
    closed: bool, quiescent: bool, startSettled: bool, completion: Completion, finished: bool, over: bool)

  /** The output pipe, and how many responses went into it or past it. */
  datatype Sink = Sink(written: Bytes, ended: bool, lateWrite: bool, consumed: nat)

  /** RemoteTerminal. `over` is set once the consume loop has returned. */
  datatype Client = Client(promises: Promises, requests: Q.Queue<Control>, flags: Flags, sink: Sink)

  function NewClient(): Client
  {
    Client(Promises([], [], 0, []), Q.Push(Q.Empty(), Start),
           Flags(false, false, false, Pending, false, false), Sink([], false, false, 0))
  }

  function Settle(p: Promises, x: Settlement): Promises
  {
    p.(settled := p.settled + [x])
  }

  /** A pending or chained ask settles. */
  function Settling(ask: Control, outcome: Outcome): Settlement
  {
    if ask.Ask? then Settlement(ask.asker, ask.kind, outcome) else Settlement(0, Signaled, outcome)
  }

  /** write, resize, inspectForeground, inspectActivity or signalForeground is called. */
  datatype Call = Write(data: Bytes) | ResizeTo(cols: int, rows: int) | AskFor(kind: Kind)

  /** A call joins the chain; a size that is not positive is refused, and a quiescent terminal answers by itself. */
  function CallControl(p: Promises, call: Call, quiescent: bool): Promises
  {
    match call
    case Write(data) => p.(waiting := p.waiting + [Input(data)])
    case ResizeTo(cols, rows) =>
      if cols < 1 || rows < 1 then p else p.(waiting := p.waiting + [Resize(cols, rows)])
    case AskFor(kind) =>
      if quiescent && kind != Signaled then Settle(p, Settlement(p.calls, kind, Local)).(calls := p.calls + 1)
      else p.(waiting := p.waiting + [Ask(p.calls, kind)], calls := p.calls + 1)
  }

  /** Whether the next link of the chain sends its control; on a closed terminal or stream it throws. */
  predicate CanSend(c: Client)
  {
    !c.flags.closed && Q.Open(c.requests)
  }

  function RunNext(p: Promises, sends: bool): Promises
    requires p.waiting != []
  {
    var next := p.waiting[0];
    var rest := p.(waiting := p.waiting[1..]);
    if !next.Ask? then rest
    else if sends then rest.(replies := p.replies + [next])
    else Settle(rest, Settling(next, Rejected))
  }

  /** The answer goes to the oldest pending reply, whoever asked. */
  function ConsumeAnswer(p: Promises, event: Event): Promises
  {
    if event.Answer? && p.replies != []
    then Settle(p.(replies := p.replies[1..]), Settling(p.replies[0], Answered(event)))
    else p
  }

  function ConsumeFlags(f: Flags, event: Event): Flags
  {
    match event
    case Started => f.(startSettled := true)
    case Exited(code) => if f.completion.Pending? then f.(completion := Exit(code)) else f
    case Closed => f.(quiescent := true, closed := true, finished := true)
    case _ => f
  }

  function ConsumeOutput(k: Sink, event: Event): Sink
  {
    var next := k.(consumed := k.consumed + 1);
    match event
    case Output(chunk) => if k.ended then next.(lateWrite := true) else next.(written := k.written + chunk)
    case Closed => next.(ended := true)
    case _ => next
  }

  /** One response, as `consume` handles it. */
  function Consume(c: Client, event: Event): Client
  {
    Client(ConsumeAnswer(c.promises, event),
           if event.Closed? then Q.End(c.requests) else c.requests,
           ConsumeFlags(c.flags, event),
           ConsumeOutput(c.sink, event))
  }

  /** The pending replies of a lost terminal reject, oldest first. */
  function RejectAll(p: Promises): Promises
    decreases |p.replies|
  {
    if p.replies == [] then p
    else RejectAll(Settle(p.(replies := p.replies[1..]), Settling(p.replies[0], Rejected)))
  }

  /** `fail`: settle everything a lost terminal can no longer answer. */
  function Fail(c: Client): Client
  {
    Client(RejectAll(c.promises), Q.End(c.requests),
           c.flags.(closed := true, startSettled := true, finished := true, over := true,
                    completion := if c.flags.completion.Pending? then Lost else c.flags.completion),
           c.sink)
  }

  /** The response stream ended without an error. */
  function CleanEnd(c: Client): Client
  {
    if c.flags.completion.Pending? then Fail(c)
    else c.(flags := c.flags.(finished := true, over := true), sink := c.sink.(ended := true))
  }

  // ---- The server -------------------------------------------------------------------------

  datatype Pump = Reading | Holding(chunk: Bytes, eof: bool) | PumpDone
  datatype Exiter = Waiting | Reaped(code: int) | ExitSent
  datatype Controls = Receiving | Answering(answer: Event) | ControlsDone(failed: bool)
  datatype Handler = AwaitStart | Refused | AwaitControls | Terminating | Draining | Returned(ok: bool)

  /** The control loop: how many requests it received, and what it is doing. */
  datatype Loop = Loop(received: nat, controls: Controls)

  /** The output pump with every byte it read, the exit watcher, and the closed watcher. */
  datatype Producers = Producers(pump: Pump, pty: Bytes, exiter: Exiter, closerDone: bool)

  /** terminalEvents, with every event put on it and where the exited and closed events are. */
  datatype Channel = Channel(
    events: seq<Event>, closed: bool, dropped: bool, sent: seq<Event>, exitedAt: Option<nat>, closedAt: Option<nat>)

  /** The goroutine that owns the response half. */
  datatype Sender = Sender(failed: bool, responses: seq<Event>)

  datatype Server = Server(handler: Handler, loop: Loop, producers: Producers, channel: Channel, sender: Sender)

  const NewServer := Server(
    AwaitStart, Loop(0, Receiving), Producers(Reading, [], Waiting, false),
    Channel([], false, false, [], None, None), Sender(false, []))

  const EVENT_BUFFER := 64

  /** Goroutines run from the accepted start until the handler returns. */
  predicate Live(s: Server)
  {
    s.handler.AwaitControls? || s.handler.Terminating? || s.handler.Draining?
  }

  /** A full channel blocks its senders. */
  predicate HasRoom(k: Channel)
  {
    k.closed || |k.events| < EVENT_BUFFER
  }

  /** terminalEvents.send. A send after close would be dropped. */
  function Send(k: Channel, event: Event): Channel
  {
    if k.closed then k.(dropped := true)
    else Channel(k.events + [event], false, k.dropped, k.sent + [event],
                 if event.Exited? then Some(|k.sent|) else k.exitedAt,
                 if event.Closed? then Some(|k.sent|) else k.closedAt)
  }

  /** Anything before the start is skipped; a start the runner cannot run refuses the terminal. */
  function ReceiveStart(s: Server, control: Control, accepted: bool): Server
  {
    var next := s.(loop := s.loop.(received := s.loop.received + 1));
    if control != Start then next
    else if accepted then next.(handler := AwaitControls, channel := Send(s.channel, Started))
    else next.(handler := Refused)
  }

  function PumpRead(p: Producers, chunk: Bytes, eof: bool): Producers
  {
    p.(pty := p.pty + chunk, pump := if chunk != [] then Holding(chunk, eof) else if eof then PumpDone else Reading)
  }

  /** One received control; input and resize may fail, which ends the loop with an error. */
  function Receive(l: Loop, control: Control, fails: bool): Loop
  {
    match control
    case Ask(asker, kind) => Loop(l.received + 1, Answering(Answer(asker, kind)))
    case Start => l.(received := l.received + 1)
    case _ => Loop(l.received + 1, if fails then ControlsDone(true) else l.controls)
  }

  /** The sender drains the channel; after its first failure it only drops. */
  function Transmit(s: Server, lost: bool): Server
    requires s.channel.events != []
  {
    var events := s.channel.events;
    s.(channel := s.channel.(events := events[1..]),
       sender := if s.sender.failed then s.sender
                 else if lost then s.sender.(failed := true)
                 else s.sender.(responses := s.sender.responses + [events[0]]))
  }

  function Return(s: Server, contextFailed: bool): Handler
  {
    Returned(!s.sender.failed && s.loop.controls == ControlsDone(false) && !contextFailed)
  }

  // ---- The system -------------------------------------------------------------------------

  datatype System = System(client: Client, server: Server)

  function Initial(): System
  {
    System(NewClient(), NewServer)
  }

  datatype ClientAction =
    | DoCall(call: Call) | DoRunNext | DoTerminate | DoPull | DoAbort | DoConsume | DoEnd | DoTransportFailure

  datatype ServerAction =
    | DoReceiveStart(accepted: bool) | DoPumpRead(chunk: Bytes, eof: bool) | DoPumpSend
    | DoReap(code: int) | DoSendExit | DoSendClosed
    | DoReceive(fails: bool) | DoReceiveEnd | DoReceiveError | DoSendAnswer
    | DoTerminating | DoCloseEvents | DoTransmit(lost: bool) | DoReturn(contextFailed: bool)

  datatype Action = ByClient(client: ClientAction) | ByServer(server: ServerAction)

  /** What connect has pulled for the wire. */
  function Wire(c: Client): seq<Control>
  {
    Q.Delivered(c.requests.answers)
  }

  predicate ClientEnabled(c: Client, s: Server, a: ClientAction)
  {
    match a
    case DoCall(_) | DoTerminate | DoAbort => true
    case DoRunNext => c.promises.waiting != [] && c.promises.replies == []
    case DoPull => !c.requests.waiting
    case DoConsume => !c.flags.over && c.sink.consumed < |s.sender.responses|
    case DoEnd => !c.flags.over
        && ((s.handler.Returned? && c.sink.consumed == |s.sender.responses|) || s.handler.Refused?)
    case DoTransportFailure => !c.flags.over
  }

  function ClientStep(c: Client, s: Server, a: ClientAction): Client
    requires ClientEnabled(c, s, a)
  {
    match a
    case DoCall(call) => c.(promises := CallControl(c.promises, call, c.flags.quiescent))
    case DoRunNext =>
      c.(promises := RunNext(c.promises, CanSend(c)),
         requests := if CanSend(c) then Q.Push(c.requests, c.promises.waiting[0]) else c.requests)
    case DoTerminate =>
      c.(flags := c.flags.(closed := true), requests := if c.flags.closed then c.requests else Q.End(c.requests))
    case DoPull => c.(requests := Q.Next(c.requests))
    case DoAbort => c.(requests := Q.Throw(c.requests))
    case DoConsume => Consume(c, s.sender.responses[c.sink.consumed])
    case DoEnd => if s.handler == Returned(true) then CleanEnd(c) else Fail(c)
    case DoTransportFailure => Fail(c)
  }

  /** `done` says that the request half ended after everything on the wire. */
  predicate ServerEnabled(s: Server, wire: seq<Control>, done: bool, a: ServerAction)
  {
    match a
    case DoReceiveStart(_) => s.handler.AwaitStart? && s.loop.received < |wire|
    case DoPumpRead(_, _) => Live(s) && s.producers.pump.Reading?
    case DoPumpSend => Live(s) && s.producers.pump.Holding? && HasRoom(s.channel)
    case DoReap(_) => Live(s) && s.producers.exiter.Waiting?
    case DoSendExit => Live(s) && s.producers.exiter.Reaped? && HasRoom(s.channel)
    case DoSendClosed => Live(s) && !s.producers.closerDone && s.producers.exiter.ExitSent?
        && s.producers.pump.PumpDone? && HasRoom(s.channel)
    case DoReceive(_) => Live(s) && s.loop.controls.Receiving? && s.loop.received < |wire|
    case DoReceiveEnd => Live(s) && s.loop.controls.Receiving? && s.loop.received == |wire| && done
    case DoReceiveError => Live(s) && s.loop.controls.Receiving?
    case DoSendAnswer => Live(s) && s.loop.controls.Answering? && HasRoom(s.channel)
    case DoTerminating => s.handler.AwaitControls? && s.loop.controls.ControlsDone?
    case DoCloseEvents => s.handler.Terminating? && s.producers.exiter.ExitSent? && s.producers.pump.PumpDone?
        && s.producers.closerDone
    case DoTransmit(_) => Live(s) && s.channel.events != []
    case DoReturn(_) => s.handler.Draining? && s.channel.events == []
  }

  function ServerStep(s: Server, wire: seq<Control>, done: bool, a: ServerAction): Server
    requires ServerEnabled(s, wire, done, a)
  {
    var p, k := s.producers, s.channel;
    match a
    case DoReceiveStart(accepted) => ReceiveStart(s, wire[s.loop.received], accepted)
    case DoPumpRead(chunk, eof) => s.(producers := PumpRead(p, chunk, eof))
    case DoPumpSend =>
      s.(channel := Send(k, Output(p.pump.chunk)), producers := p.(pump := if p.pump.eof then PumpDone else Reading))
    case DoReap(code) => s.(producers := p.(exiter := Reaped(code)))
    case DoSendExit => s.(channel := Send(k, Exited(p.exiter.code)), producers := p.(exiter := ExitSent))
    case DoSendClosed => s.(channel := Send(k, Closed), producers := p.(closerDone := true))
    case DoReceive(fails) => s.(loop := Receive(s.loop, wire[s.loop.received], fails))
    case DoReceiveEnd => s.(loop := s.loop.(controls := ControlsDone(false)))
    case DoReceiveError => s.(loop := s.loop.(controls := ControlsDone(true)))
    case DoSendAnswer => s.(channel := Send(k, s.loop.controls.answer), loop := s.loop.(controls := Receiving))
    case DoTerminating => s.(handler := Terminating)
    case DoCloseEvents => s.(handler := Draining, channel := k.(closed := true))
    case DoTransmit(lost) => Transmit(s, lost)
    case DoReturn(contextFailed) => s.(handler := Return(s, contextFailed))
  }

  predicate Enabled(y: System, a: Action)
  {
    match a
    case ByClient(b) => ClientEnabled(y.client, y.server, b)
    case ByServer(b) => ServerEnabled(y.server, Wire(y.client), y.client.requests.done, b)
  }

  function Step(y: System, a: Action): System
    requires Enabled(y, a)
  {
    match a
    case ByClient(b) => y.(client := ClientStep(y.client, y.server, b))
    case ByServer(b) => y.(server := ServerStep(y.server, Wire(y.client), y.client.requests.done, b))
  }

  predicate IsRun(y: System, actions: seq<Action>)
    decreases |actions|
  {
    actions == [] || (Enabled(y, actions[0]) && IsRun(Step(y, actions[0]), actions[1..]))
  }

  function Run(y: System, actions: seq<Action>): System
    requires IsRun(y, actions)
    decreases |actions|
  {
    if actions == [] then y else Run(Step(y, actions[0]), actions[1..])
  }
}

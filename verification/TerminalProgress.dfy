/**
 * Progress of the runner's terminal handler (runner/terminal/terminal.go:124-206, 230-258). Its goroutines
 * never wait for each other for good: where none of them can go on, the handler waits for its client, the
 * child or the PTY, and once the client has ended its half and the terminal is over, it returns. That one
 * read, write or send of a stream or the PTY completes is a step, not something proved here.
 */
module TerminalProgress {
  import opened Prelude
  import opened TerminalProtocol
  import TerminalTheorems

  /** The child still runs, or the PTY is still open. */
  predicate TerminalOpen(s: Server)
  {
    s.producers.exiter.Waiting? || s.producers.pump.Reading?
  }

  /** Every goroutine has handed on what it had, and the closed event is sent once the terminal is over. */
  predicate AllForwarded(s: Server)
  {
    && s.channel.events == [] && !s.producers.pump.Holding? && !s.producers.exiter.Reaped?
    && (s.producers.closerDone <==> !TerminalOpen(s))
  }

  /** The control loop has received everything the client sent, and the client has not ended its half. */
  predicate RequestsOpen(s: Server, wire: seq<Control>, done: bool)
  {
    s.handler.AwaitControls? && s.loop.controls.Receiving? && s.loop.received == |wire| && !done
  }

  /** The handler can only wait: for its client, or after the client's end for the child or the PTY. */
  predicate Waits(s: Server, wire: seq<Control>, done: bool)
  {
    AllForwarded(s) && (RequestsOpen(s, wire, done) || (s.handler.Terminating? && TerminalOpen(s)))
  }

  /** It waits for its client alone: the terminal is over and the closed event has been sent off. */
  predicate AwaitsClient(s: Server, wire: seq<Control>, done: bool)
  {
    AllForwarded(s) && RequestsOpen(s, wire, done) && !TerminalOpen(s)
  }

  /** A step that no failure causes: the PTY may be read and the child reaped, but no stream breaks. */
  predicate Proper(a: ServerAction)
  {
    match a
    case DoReceiveError => false
    case DoReceive(fails) => !fails
    case DoTransmit(lost) => !lost
    case DoReturn(contextFailed) => !contextFailed
    case _ => true
  }

  /** A proper step that takes neither the child's exit nor something to read on the PTY. */
  predicate Own(a: ServerAction)
  {
    Proper(a) && !a.DoReap? && !a.DoPumpRead?
  }

  /** A step of the handler's own, where there is one. */
  function OwnStep(s: Server, wire: seq<Control>): ServerAction
    requires Live(s)
  {
    if s.channel.events != [] then DoTransmit(false)
    else if s.producers.exiter.Reaped? then DoSendExit
    else if s.producers.pump.Holding? then DoPumpSend
    else if !s.producers.closerDone && !TerminalOpen(s) then DoSendClosed
    else if s.handler.Draining? then DoReturn(false)
    else if s.handler.Terminating? then DoCloseEvents
    else
      match s.loop.controls
      case ControlsDone(_) => DoTerminating
      case Answering(_) => DoSendAnswer
      case Receiving => if s.loop.received < |wire| then DoReceive(false) else DoReceiveEnd
  }

  /** Or else a step of the environment's, which the handler waits for. */
  function NextStep(s: Server, wire: seq<Control>, done: bool): ServerAction
    requires Live(s)
  {
    if !Waits(s, wire, done) then OwnStep(s, wire)
    else if s.producers.exiter.Waiting? then DoReap(0)
    else DoPumpRead([], true)
  }

  /** What every reachable state of a running handler has. */
  predicate Orderly(s: Server, wire: seq<Control>)
  {
    && Live(s) && s.loop.received <= |wire|
    && (s.producers.closerDone ==> !TerminalOpen(s) && !s.producers.pump.Holding? && !s.producers.exiter.Reaped?)
    && (!s.handler.AwaitControls? ==> s.loop.controls.ControlsDone?)
  }

  lemma OwnStepIsEnabled(s: Server, wire: seq<Control>, done: bool)
    requires Orderly(s, wire) && !Waits(s, wire, done)
    ensures Own(OwnStep(s, wire)) && ServerEnabled(s, wire, done, OwnStep(s, wire))
  {
  }

  lemma NextStepIsEnabled(s: Server, wire: seq<Control>, done: bool)
    requires Orderly(s, wire) && !AwaitsClient(s, wire, done)
    ensures Proper(NextStep(s, wire, done)) && ServerEnabled(s, wire, done, NextStep(s, wire, done))
  {
    if !Waits(s, wire, done) {
      OwnStepIsEnabled(s, wire, done);
    }
  }

  lemma CountersAreOrderly(s: Server, wire: seq<Control>)
    requires TerminalTheorems.Counters(s) && Live(s) && s.loop.received <= |wire|
    ensures Orderly(s, wire)
  {
  }

  lemma ReachedIsOrderly(actions: seq<Action>)
    requires IsRun(Initial(), actions) && Live(Run(Initial(), actions).server)
    ensures var y := Run(Initial(), actions); Orderly(y.server, Wire(y.client))
  {
    TerminalTheorems.InitialInv();
    TerminalTheorems.RunKeepsInv(Initial(), actions);
    CountersAreOrderly(Run(Initial(), actions).server, Wire(Run(Initial(), actions).client));
  }

  /**
   * In every reachable state of a running handler, dead response stream or not, one of its goroutines
   * can go on by itself, except exactly where everything was handed on and it waits for its client, or
   * after the client's end for the child or the PTY; and counting the child's exit and reads of the
   * PTY, except exactly where only the client's end of the request half is missing.
   */
  lemma NeverStuck(actions: seq<Action>)
    requires IsRun(Initial(), actions) && Live(Run(Initial(), actions).server)
    ensures var y := Run(Initial(), actions);
            ((exists a :: Own(a) && ServerEnabled(y.server, Wire(y.client), y.client.requests.done, a))
             <==> !Waits(y.server, Wire(y.client), y.client.requests.done))
    ensures var y := Run(Initial(), actions);
            ((exists a :: Proper(a) && ServerEnabled(y.server, Wire(y.client), y.client.requests.done, a))
             <==> !AwaitsClient(y.server, Wire(y.client), y.client.requests.done))
  {
    var y := Run(Initial(), actions);
    ReachedIsOrderly(actions);
    if !Waits(y.server, Wire(y.client), y.client.requests.done) {
      OwnStepIsEnabled(y.server, Wire(y.client), y.client.requests.done);
    }
    if !AwaitsClient(y.server, Wire(y.client), y.client.requests.done) {
      NextStepIsEnabled(y.server, Wire(y.client), y.client.requests.done);
    }
  }

  // ---- The handler returns ---------------------------------------------------------------------

  function PumpWork(p: Pump): nat
  {
    if p.Holding? then 2 else 0
  }

  function ExiterWork(e: Exiter): nat
  {
    match e case Waiting => 3 case Reaped(_) => 2 case ExitSent => 0
  }

  function ControlsWork(l: Loop, wire: nat): nat
    requires l.received <= wire
  {
    match l.controls
    case Receiving => 3 * (wire - l.received) + 1
    case Answering(_) => 3 * (wire - l.received) + 3
    case ControlsDone(_) => 0
  }

  function HandlerWork(h: Handler): nat
  {
    match h case AwaitControls => 3 case Terminating => 2 case Draining => 1 case _ => 0
  }

  /** How many steps the handler and its goroutines have left, reads of the PTY aside. */
  function Work(s: Server, wire: nat): nat
    requires s.loop.received <= wire
  {
    |s.channel.events| + PumpWork(s.producers.pump) + ExiterWork(s.producers.exiter)
    + (if s.producers.closerDone then 0 else 2) + ControlsWork(s.loop, wire) + HandlerWork(s.handler)
  }

  /** Every step uses work up, and a read of the PTY adds what its chunk costs to send. */
  lemma StepUsesWork(s: Server, wire: seq<Control>, a: ServerAction)
    requires Orderly(s, wire) && ServerEnabled(s, wire, true, a)
    ensures var s' := ServerStep(s, wire, true, a);
            && s'.loop.received <= |wire| && (Orderly(s', wire) || s'.handler.Returned?)
            && Work(s', |wire|) + 1 <= Work(s, |wire|) + if a.DoPumpRead? then 3 else 0
  {
  }

  /** Steps of the server alone, once the request half has ended. */
  predicate IsServerRun(s: Server, wire: seq<Control>, actions: seq<ServerAction>)
    decreases |actions|
  {
    actions == [] ||
    (ServerEnabled(s, wire, true, actions[0]) && IsServerRun(ServerStep(s, wire, true, actions[0]), wire, actions[1..]))
  }

  function ServerRun(s: Server, wire: seq<Control>, actions: seq<ServerAction>): Server
    requires IsServerRun(s, wire, actions)
    decreases |actions|
  {
    if actions == [] then s else ServerRun(ServerStep(s, wire, true, actions[0]), wire, actions[1..])
  }

  function Reads(actions: seq<ServerAction>): nat
  {
    if actions == [] then 0 else (if actions[0].DoPumpRead? then 1 else 0) + Reads(actions[1..])
  }

  lemma {:induction false} RunUsesWork(s: Server, wire: seq<Control>, actions: seq<ServerAction>)
    requires s.loop.received <= |wire| && (Orderly(s, wire) || s.handler.Returned?) && IsServerRun(s, wire, actions)
    ensures var t := ServerRun(s, wire, actions);
            && t.loop.received <= |wire| && (Orderly(t, wire) || t.handler.Returned?)
            && Work(t, |wire|) + |actions| <= Work(s, |wire|) + 3 * Reads(actions)
    decreases |actions|
  {
    if actions != [] {
      StepUsesWork(s, wire, actions[0]);
      RunUsesWork(ServerStep(s, wire, true, actions[0]), wire, actions[1..]);
    }
  }

  /**
   * From every reachable state in which the request half has ended, whatever steps the goroutines
   * take and whatever fails: their number is bounded but for reads of the PTY, and where none is
   * left to take the handler has returned.
   */
  lemma EveryHandlerReturns(before: seq<Action>, actions: seq<ServerAction>)
    requires IsRun(Initial(), before)
    requires var y := Run(Initial(), before);
             Live(y.server) && y.client.requests.done && IsServerRun(y.server, Wire(y.client), actions)
    ensures var y := Run(Initial(), before);
            var t := ServerRun(y.server, Wire(y.client), actions);
            && y.server.loop.received <= |Wire(y.client)|
            && |actions| <= Work(y.server, |Wire(y.client)|) + 3 * Reads(actions)
            && ((forall a :: !ServerEnabled(t, Wire(y.client), true, a)) <==> t.handler.Returned?)
  {
    var y := Run(Initial(), before);
    var wire := Wire(y.client);
    ReachedIsOrderly(before);
    RunUsesWork(y.server, wire, actions);
    var t := ServerRun(y.server, wire, actions);
    if Live(t) {
      NextStepIsEnabled(t, wire, true);
    }
  }
}

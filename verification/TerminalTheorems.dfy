/**
 * What every interleaving of the terminal stream keeps (control-plane/src/terminal/
 * remote-terminal.ts:287-397, runner/terminal/terminal.go:143-294).
 */
module TerminalTheorems {
  import opened Prelude
  import Q = MessageQueue
  import opened TerminalProtocol

  // ---- Projections of the logs ------------------------------------------------------------

  function Answers(events: seq<Event>): seq<Event>
  {
    if events == [] then []
    else
      var last := events[|events| - 1];
      Answers(events[..|events| - 1]) + (if last.Answer? then [last] else [])
  }

  function Outputs(events: seq<Event>): Bytes
  {
    if events == [] then []
    else
      var last := events[|events| - 1];
      Outputs(events[..|events| - 1]) + (if last.Output? then last.chunk else [])
  }

  /** The answers a list of controls asks for, in order. */
  function Asked(controls: seq<Control>): seq<Event>
  {
    if controls == [] then []
    else
      var last := controls[|controls| - 1];
      Asked(controls[..|controls| - 1]) + (if last.Ask? then [Answer(last.asker, last.kind)] else [])
  }

  function Resolved(settled: seq<Settlement>): seq<Event>
  {
    if settled == [] then []
    else
      var last := settled[|settled| - 1];
      Resolved(settled[..|settled| - 1]) + (if last.outcome.Answered? then [last.outcome.event] else [])
  }

  lemma EventsExtend(events: seq<Event>, e: Event)
    ensures Answers(events + [e]) == Answers(events) + (if e.Answer? then [e] else [])
    ensures Outputs(events + [e]) == Outputs(events) + (if e.Output? then e.chunk else [])
  {
    assert (events + [e])[..|events|] == events;
  }

  lemma AskedExtends(controls: seq<Control>, c: Control)
    ensures Asked(controls + [c]) == Asked(controls) + (if c.Ask? then [Answer(c.asker, c.kind)] else [])
  {
    assert (controls + [c])[..|controls|] == controls;
  }

  lemma ResolvedExtends(settled: seq<Settlement>, x: Settlement)
    ensures Resolved(settled + [x]) == Resolved(settled) + (if x.outcome.Answered? then [x.outcome.event] else [])
  {
    assert (settled + [x])[..|settled|] == settled;
  }

  lemma {:induction false} EventsPrefix(a: seq<Event>, b: seq<Event>)
    requires a <= b
    ensures Answers(a) <= Answers(b) && Outputs(a) <= Outputs(b)
    decreases |b|
  {
    if a != b {
      EventsPrefix(a, b[..|b| - 1]);
    }
  }

  lemma {:induction false} AskedPrefix(a: seq<Control>, b: seq<Control>)
    requires a <= b
    ensures Asked(a) <= Asked(b)
    decreases |b|
  {
    if a != b {
      AskedPrefix(a, b[..|b| - 1]);
    }
  }

  /** The stretch after the prefix holds no output. */
  lemma {:induction false} NoOutputAfter(events: seq<Event>, k: nat)
    requires k <= |events| && forall i | k <= i < |events| :: !events[i].Output?
    ensures Outputs(events) == Outputs(events[..k])
    decreases |events|
  {
    if k == |events| {
      assert events[..k] == events;
    } else {
      NoOutputAfter(events[..|events| - 1], k);
      assert events[..|events| - 1][..k] == events[..k];
    }
  }

  // ---- The server's trace -----------------------------------------------------------------

  /** Started first, at most one exited and one closed, closed after exited and followed by answers only. */
  ghost predicate Shape(sent: seq<Event>, exitedAt: Option<nat>, closedAt: Option<nat>)
  {
    && (forall i | 0 <= i < |sent| :: sent[i].Started? <==> i == 0)
    && (forall i | 0 <= i < |sent| :: sent[i].Exited? <==> exitedAt == Some(i))
    && (forall i | 0 <= i < |sent| :: sent[i].Closed? <==> closedAt == Some(i))
    && (exitedAt.Some? ==> exitedAt.value < |sent|)
    && (closedAt.Some? ==> exitedAt.Some? && exitedAt.value < closedAt.value < |sent|)
    && (closedAt.Some? ==> forall i | closedAt.value < i < |sent| :: sent[i].Answer?)
  }

  /** The channel's shape, output bytes in PTY order, and no send on a closed channel. */
  ghost predicate Trace(k: Channel, p: Producers)
  {
    && Shape(k.sent, k.exitedAt, k.closedAt)
    && Outputs(k.sent) + Held(p.pump) == p.pty
    && !k.dropped
  }

  /** What the output pump has read but not sent. */
  function Held(pump: Pump): Bytes
  {
    if pump.Holding? then pump.chunk else []
  }

  /** How the program counters and the log fit together. */
  ghost predicate Counters(s: Server)
  {
    var p, k, h := s.producers, s.channel, s.handler;
    && (k.exitedAt.Some? <==> p.exiter.ExitSent?)
    && (k.closedAt.Some? <==> p.closerDone)
    && (p.closerDone ==> p.exiter.ExitSent? && p.pump.PumpDone?)
    && (h.Terminating? ==> s.loop.controls.ControlsDone?)
    && (h.Draining? || h.Returned? <==> k.closed)
    && (k.closed ==> s.loop.controls.ControlsDone? && p.exiter.ExitSent? && p.pump.PumpDone? && p.closerDone)
    && (h.AwaitStart? ==> s == NewServer.(loop := s.loop) && s.loop.controls.Receiving?)
    && (Live(s) || h.Returned? ==> k.sent != [])
    && (s.loop.controls.Answering? ==> s.loop.controls.answer.Answer?)
  }

  /** The sender forwards in order, and loses events exactly when it failed. */
  ghost predicate Forwarding(k: Channel, o: Sender)
  {
    && o.responses <= k.sent
    && (if o.failed then |o.responses| + |k.events| < |k.sent| else o.responses + k.events == k.sent)
  }

  /** A handler returns on a drained channel, and cleanly only if nothing failed. */
  ghost predicate Returning(s: Server)
  {
    && (s.handler.Returned? ==> s.channel.events == [])
    && (s.handler == Returned(true) ==> !s.sender.failed && s.loop.controls == ControlsDone(false))
  }

  ghost predicate ServerInv(s: Server)
  {
    Trace(s.channel, s.producers) && Counters(s) && Forwarding(s.channel, s.sender) && Returning(s)
  }

  // ---- The pipeline of asks ---------------------------------------------------------------

  /** Every ask the server received has been answered, in order, or is being answered. */
  ghost predicate Answering(q: Q.Queue<Control>, l: Loop, answers: seq<Event>, awaiting: bool)
  {
    && Q.Inv(q)
    && l.received <= |Q.Delivered(q.answers)|
    && Asked(q.accepted[..l.received]) == answers + InAnswer(l.controls)
    && (l.controls == ControlsDone(false) ==> l.received == |q.accepted| && q.ended)
    && q.accepted != [] && q.accepted[0] == Start && Sendable(q.accepted[1..])
    && (awaiting <==> l.received == 0)
  }

  ghost predicate Serving(q: Q.Queue<Control>, s: Server)
  {
    Answering(q, s.loop, Answers(s.channel.sent), s.handler.AwaitStart?)
  }

  function InAnswer(controls: Controls): seq<Event>
  {
    if controls.Answering? then [controls.answer] else []
  }

  ghost predicate Resolving(settled: seq<Settlement>, responses: seq<Event>, consumed: nat)
  {
    consumed <= |responses| && Resolved(settled) == Answers(responses[..consumed])
  }

  ghost predicate Outstanding(accepted: seq<Control>, settled: seq<Settlement>, replies: seq<Control>)
  {
    Asked(accepted) == Resolved(settled) + Asked(replies)
  }

  /** Every answer a promise got is the one to its own control, of the kind that control asked for. */
  ghost predicate Matched(settled: seq<Settlement>)
  {
    forall i | 0 <= i < |settled| && settled[i].outcome.Answered? ::
      settled[i].outcome.event == Answer(settled[i].id, settled[i].kind)
  }

  ghost predicate Pending(replies: seq<Control>)
  {
    |replies| <= 1 && (|replies| == 1 ==> replies[0].Ask?)
  }

  ghost predicate Sendable(waiting: seq<Control>)
  {
    forall i | 0 <= i < |waiting| :: waiting[i] != Start
  }

  /** The client has consumed a prefix of the responses, and resolved exactly its answers, each for its asker. */
  ghost predicate Replying(p: Promises, over: bool, consumed: nat, accepted: seq<Control>, responses: seq<Event>)
  {
    && Sendable(p.waiting) && Pending(p.replies) && Matched(p.settled)
    && Resolving(p.settled, responses, consumed)
    && (!over ==> Outstanding(accepted, p.settled, p.replies))
    && (over ==> p.replies == [])
  }

  /** The status the exit watcher reported. */
  function ExitCode(s: Server): int
  {
    if s.channel.exitedAt.Some? && s.channel.exitedAt.value < |s.channel.sent|
        && s.channel.sent[s.channel.exitedAt.value].Exited?
    then s.channel.sent[s.channel.exitedAt.value].code else 0
  }

  ghost predicate Written(k: Sink, s: Server)
  {
    && k.consumed <= |s.sender.responses|
    && k.written == Outputs(s.sender.responses[..k.consumed])
    && (k.ended ==> s.producers.pump.PumpDone? && k.written == s.producers.pty)
    && (k.ended <==> Past(s.channel.closedAt, k.consumed))
    && !k.lateWrite
  }

  predicate Past(at: Option<nat>, consumed: nat)
  {
    at.Some? && at.value < consumed
  }

  /** Which flags the consumed events have raised. */
  ghost predicate Raised(f: Flags, requestsEnded: bool, consumed: nat, s: Server)
  {
    && (f.quiescent <==> Past(s.channel.closedAt, consumed))
    && (f.startSettled <==> consumed > 0 || f.over)
    && (f.finished <==> Past(s.channel.closedAt, consumed) || f.over)
    && (Past(s.channel.closedAt, consumed) ==> f.closed)
    && (f.completion.Exit? <==> Past(s.channel.exitedAt, consumed))
    && (f.completion.Exit? ==> f.completion.code == ExitCode(s))
    && (f.completion.Lost? ==> f.over)
    && (f.over ==> f.closed && !f.completion.Pending?)
    && (f.closed ==> requestsEnded)
  }

  /** How often a promise appears among controls, and among settlements. */
  function Asks(controls: seq<Control>, id: nat): nat
  {
    if controls == [] then 0
    else Asks(controls[..|controls| - 1], id) + One(controls[|controls| - 1], id)
  }

  function One(x: Control, id: nat): nat
  {
    if x.Ask? && x.asker == id then 1 else 0
  }

  function Settled(settled: seq<Settlement>, id: nat): nat
  {
    if settled == [] then 0
    else Settled(settled[..|settled| - 1], id) + (if settled[|settled| - 1].id == id then 1 else 0)
  }

  function Places(p: Promises, id: nat): nat
  {
    Settled(p.settled, id) + Asks(p.replies, id) + Asks(p.waiting, id)
  }

  /** Each promise is in exactly one place: settled once, pending, or chained. */
  ghost predicate Conserved(p: Promises)
  {
    forall id: nat :: Places(p, id) == if id < p.calls then 1 else 0
  }

  ghost predicate ClientInv(c: Client, s: Server)
  {
    && Serving(c.requests, s)
    && Replying(c.promises, c.flags.over, c.sink.consumed, c.requests.accepted, s.sender.responses)
    && Written(c.sink, s)
    && Raised(c.flags, c.requests.ended, c.sink.consumed, s)
    && Conserved(c.promises)
  }

  ghost predicate Inv(y: System)
  {
    ServerInv(y.server) && ClientInv(y.client, y.server)
  }

  // ---- Preservation: the server alone -----------------------------------------------------

  /** The event a step puts on the channel, if any. */
  function Emitted(s: Server, wire: seq<Control>, a: ServerAction): seq<Event>
  {
    match a
    case DoReceiveStart(accepted) =>
      if s.loop.received < |wire| && wire[s.loop.received] == Start && accepted then [Started] else []
    case DoPumpSend => if s.producers.pump.Holding? then [Output(s.producers.pump.chunk)] else []
    case DoSendExit => if s.producers.exiter.Reaped? then [Exited(s.producers.exiter.code)] else []
    case DoSendClosed => [Closed]
    case DoSendAnswer => if s.loop.controls.Answering? then [s.loop.controls.answer] else []
    case _ => []
  }

  /** Every send finds the channel open, and only the sender takes events away. */
  lemma StepEmits(s: Server, wire: seq<Control>, done: bool, a: ServerAction)
    requires Counters(s) && ServerEnabled(s, wire, done, a)
    ensures var k', e := ServerStep(s, wire, done, a).channel, Emitted(s, wire, a);
            && |e| <= 1
            && (e != [] ==> !s.channel.closed && k' == Send(s.channel, e[0]))
            && (e == [] ==> k'.sent == s.channel.sent && k'.dropped == s.channel.dropped
                            && k'.exitedAt == s.channel.exitedAt && k'.closedAt == s.channel.closedAt)
            && (e == [] && !a.DoTransmit? ==> k'.events == s.channel.events)
  {
  }

  lemma StepSent(s: Server, wire: seq<Control>, done: bool, a: ServerAction)
    requires Counters(s) && ServerEnabled(s, wire, done, a)
    ensures ServerStep(s, wire, done, a).channel.sent == s.channel.sent + Emitted(s, wire, a)
  {
    StepEmits(s, wire, done, a);
    var e := Emitted(s, wire, a);
    if e != [] {
      assert e == [e[0]];
    }
  }

  lemma CountersKept(s: Server, wire: seq<Control>, done: bool, a: ServerAction)
    requires Counters(s) && ServerEnabled(s, wire, done, a)
    ensures Counters(ServerStep(s, wire, done, a))
  {
  }

  lemma ReturningKept(s: Server, wire: seq<Control>, done: bool, a: ServerAction)
    requires Counters(s) && Returning(s) && ServerEnabled(s, wire, done, a)
    ensures Returning(ServerStep(s, wire, done, a))
  {
  }

  lemma TransmitForwards(s: Server, lost: bool)
    requires Forwarding(s.channel, s.sender) && s.channel.events != []
    ensures var s' := Transmit(s, lost); Forwarding(s'.channel, s'.sender)
  {
    var o, k := s.sender, s.channel;
    if !o.failed {
      assert o.responses + k.events == (o.responses + [k.events[0]]) + k.events[1..];
      assert k.sent[|o.responses|] == k.events[0];
    }
  }

  lemma ForwardingKept(s: Server, wire: seq<Control>, done: bool, a: ServerAction)
    requires Counters(s) && Forwarding(s.channel, s.sender) && ServerEnabled(s, wire, done, a)
    ensures var s' := ServerStep(s, wire, done, a); Forwarding(s'.channel, s'.sender)
  {
    var o, k := s.sender, s.channel;
    if a.DoTransmit? {
      TransmitForwards(s, a.lost);
    } else {
      StepEmits(s, wire, done, a);
      assert ServerStep(s, wire, done, a).sender == o;
      assert o.responses + (k.events + Emitted(s, wire, a)) == (o.responses + k.events) + Emitted(s, wire, a);
    }
  }

  lemma ShapeExtends(sent: seq<Event>, exitedAt: Option<nat>, closedAt: Option<nat>, e: Event)
    requires Shape(sent, exitedAt, closedAt)
    requires e.Started? <==> sent == []
    requires e.Exited? ==> exitedAt.None? && closedAt.None?
    requires e.Closed? ==> exitedAt.Some? && closedAt.None?
    requires e.Output? ==> closedAt.None?
    ensures Shape(sent + [e], if e.Exited? then Some(|sent|) else exitedAt,
                  if e.Closed? then Some(|sent|) else closedAt)
  {
  }

  /** What a step may emit, given what was sent before. */
  lemma EmittedFits(s: Server, wire: seq<Control>, done: bool, a: ServerAction)
    requires Counters(s) && ServerEnabled(s, wire, done, a) && Emitted(s, wire, a) != []
    ensures var e, k := Emitted(s, wire, a)[0], s.channel;
            && (e.Started? <==> k.sent == [])
            && (e.Exited? ==> k.exitedAt.None? && k.closedAt.None?)
            && (e.Closed? ==> k.exitedAt.Some? && k.closedAt.None?)
            && (e.Output? ==> k.closedAt.None?)
  {
  }

  lemma ShapeKept(s: Server, wire: seq<Control>, done: bool, a: ServerAction)
    requires Counters(s) && Shape(s.channel.sent, s.channel.exitedAt, s.channel.closedAt)
    requires ServerEnabled(s, wire, done, a)
    ensures var k' := ServerStep(s, wire, done, a).channel; Shape(k'.sent, k'.exitedAt, k'.closedAt)
  {
    StepEmits(s, wire, done, a);
    if Emitted(s, wire, a) != [] {
      EmittedFits(s, wire, done, a);
      ShapeExtends(s.channel.sent, s.channel.exitedAt, s.channel.closedAt, Emitted(s, wire, a)[0]);
    }
  }

  lemma OutputsAndAnswers(s: Server, wire: seq<Control>, done: bool, a: ServerAction)
    requires Counters(s) && ServerEnabled(s, wire, done, a)
    ensures var sent, sent' := s.channel.sent, ServerStep(s, wire, done, a).channel.sent;
            && Outputs(sent') == Outputs(sent) + (if a.DoPumpSend? then s.producers.pump.chunk else [])
            && Answers(sent') == Answers(sent) + (if a.DoSendAnswer? then [s.loop.controls.answer] else [])
  {
    StepEmits(s, wire, done, a);
    var e := Emitted(s, wire, a);
    if e != [] {
      EventsExtend(s.channel.sent, e[0]);
    }
  }

  lemma PumpStep(s: Server, wire: seq<Control>, done: bool, a: ServerAction)
    requires Counters(s) && ServerEnabled(s, wire, done, a)
    ensures var p, p' := s.producers, ServerStep(s, wire, done, a).producers;
            && p'.pty == p.pty + (if a.DoPumpRead? then a.chunk else [])
            && Held(p'.pump) == (if a.DoPumpRead? then a.chunk else if a.DoPumpSend? then [] else Held(p.pump))
            && (a.DoPumpRead? ==> Held(p.pump) == [])
            && (a.DoPumpSend? ==> Held(p.pump) == p.pump.chunk)
            && (p.pump.PumpDone? ==> p' == p.(exiter := p'.exiter, closerDone := p'.closerDone))
  {
  }

  lemma TraceKept(s: Server, wire: seq<Control>, done: bool, a: ServerAction)
    requires Counters(s) && Trace(s.channel, s.producers) && ServerEnabled(s, wire, done, a)
    ensures var s' := ServerStep(s, wire, done, a); Trace(s'.channel, s'.producers)
  {
    StepEmits(s, wire, done, a);
    ShapeKept(s, wire, done, a);
    OutputsAndAnswers(s, wire, done, a);
    PumpStep(s, wire, done, a);
  }

  lemma ServerKeepsServer(s: Server, wire: seq<Control>, done: bool, a: ServerAction)
    requires ServerInv(s) && ServerEnabled(s, wire, done, a)
    ensures ServerInv(ServerStep(s, wire, done, a))
  {
    CountersKept(s, wire, done, a);
    ReturningKept(s, wire, done, a);
    ForwardingKept(s, wire, done, a);
    TraceKept(s, wire, done, a);
  }

  // ---- Preservation: server steps and the pipeline ----------------------------------------

  /** What a step does to the control loop. */
  lemma LoopStep(s: Server, wire: seq<Control>, done: bool, a: ServerAction)
    requires Counters(s) && ServerEnabled(s, wire, done, a)
    ensures var l, l' := s.loop, ServerStep(s, wire, done, a).loop;
            && (a.DoReceive? || a.DoReceiveStart? ==>
                  l.controls.Receiving? && l.received < |wire| && l'.received == l.received + 1
                  && l'.controls != ControlsDone(false)
                  && InAnswer(l'.controls) == if a.DoReceive? then Asked([wire[l.received]]) else [])
            && (a.DoReceiveEnd? ==>
                  && done && l.received == |wire| && l.controls.Receiving?
                  && l' == l.(controls := ControlsDone(false)))
            && (a.DoReceiveError? ==> l.controls.Receiving? && l' == l.(controls := ControlsDone(true)))
            && (a.DoSendAnswer? ==> l.controls.Answering? && l' == l.(controls := Receiving))
            && (!a.DoReceive? && !a.DoReceiveStart? && !a.DoReceiveEnd? && !a.DoReceiveError? && !a.DoSendAnswer? ==>
                  l' == l)
  {
    if a.DoReceive? {
      AskedExtends([], wire[s.loop.received]);
      assert [wire[s.loop.received]] == [] + [wire[s.loop.received]];
    }
  }

  /** Receiving one more accepted control. */
  lemma ReceiveKeeps(q: Q.Queue<Control>, l: Loop, l': Loop, answers: seq<Event>, awaiting: bool)
    requires Answering(q, l, answers, awaiting) && l.controls.Receiving?
    requires l.received < |Q.Delivered(q.answers)| && l'.received == l.received + 1
    requires l'.controls != ControlsDone(false)
    requires InAnswer(l'.controls) == Asked([Q.Delivered(q.answers)[l.received]])
    ensures Answering(q, l', answers, false)
  {
    var next := Q.Delivered(q.answers)[l.received];
    assert q.accepted[l.received] == next;
    assert q.accepted[..l.received + 1] == q.accepted[..l.received] + [next];
    AskedExtends(q.accepted[..l.received], next);
    AskedExtends([], next);
    assert [next] == [] + [next];
  }

  lemma ServerKeepsServing(q: Q.Queue<Control>, s: Server, a: ServerAction)
    requires Counters(s) && Serving(q, s) && ServerEnabled(s, Q.Delivered(q.answers), q.done, a)
    ensures Serving(q, ServerStep(s, Q.Delivered(q.answers), q.done, a))
  {
    var wire := Q.Delivered(q.answers);
    var s' := ServerStep(s, wire, q.done, a);
    OutputsAndAnswers(s, wire, q.done, a);
    LoopStep(s, wire, q.done, a);
    AwaitingStep(q, s, a);
    if a.DoReceive? || a.DoReceiveStart? {
      ReceiveKeeps(q, s.loop, s'.loop, Answers(s.channel.sent), s.handler.AwaitStart?);
    }
  }

  /** The first request is the start, so the handler never skips a control. */
  lemma AwaitingStep(q: Q.Queue<Control>, s: Server, a: ServerAction)
    requires Counters(s) && Serving(q, s) && ServerEnabled(s, Q.Delivered(q.answers), q.done, a)
    ensures var s' := ServerStep(s, Q.Delivered(q.answers), q.done, a);
            && (s'.handler.AwaitStart? <==> s.handler.AwaitStart? && !a.DoReceiveStart?)
            && (a.DoReceiveStart? ==> Asked([Q.Delivered(q.answers)[s.loop.received]]) == [])
            && (a.DoReceive? ==> !s.handler.AwaitStart?)
  {
    if a.DoReceiveStart? {
      assert Q.Delivered(q.answers)[0] == q.accepted[0];
      AskedExtends([], Start);
      assert [Start] == [] + [Start];
    }
  }

  lemma ServerGrows(s: Server, wire: seq<Control>, done: bool, a: ServerAction)
    requires Counters(s) && ServerEnabled(s, wire, done, a)
    ensures var s' := ServerStep(s, wire, done, a);
            && s.channel.sent <= s'.channel.sent && s.sender.responses <= s'.sender.responses
            && (s.producers.pump.PumpDone? ==> s'.producers.pump.PumpDone? && s'.producers.pty == s.producers.pty)
            && (s.channel.exitedAt.Some? ==> s'.channel.exitedAt == s.channel.exitedAt)
            && (s.channel.closedAt.Some? ==> s'.channel.closedAt == s.channel.closedAt)
            && (s'.channel.exitedAt != s.channel.exitedAt ==> s'.channel.exitedAt == Some(|s.channel.sent|))
            && (s'.channel.closedAt != s.channel.closedAt ==> s'.channel.closedAt == Some(|s.channel.sent|))
  {
    StepEmits(s, wire, done, a);
    StepSent(s, wire, done, a);
    PumpStep(s, wire, done, a);
    if Emitted(s, wire, a) != [] {
      EmittedFits(s, wire, done, a);
    }
  }

  lemma ServerKeepsClientSide(c: Client, s: Server, wire: seq<Control>, done: bool, a: ServerAction)
    requires ServerInv(s) && ServerEnabled(s, wire, done, a)
    requires Written(c.sink, s) && Raised(c.flags, c.requests.ended, c.sink.consumed, s)
    requires Replying(c.promises, c.flags.over, c.sink.consumed, c.requests.accepted, s.sender.responses)
    ensures var s' := ServerStep(s, wire, done, a);
            && Written(c.sink, s') && Raised(c.flags, c.requests.ended, c.sink.consumed, s')
            && Replying(c.promises, c.flags.over, c.sink.consumed, c.requests.accepted, s'.sender.responses)
  {
    var s' := ServerStep(s, wire, done, a);
    ServerGrows(s, wire, done, a);
    assert s'.sender.responses[..c.sink.consumed] == s.sender.responses[..c.sink.consumed];
  }

  // ---- Preservation: client steps ---------------------------------------------------------

  lemma QueueKeepsServing(q: Q.Queue<Control>, s: Server, op: Q.Op<Control>)
    requires Serving(q, s) && Q.Enabled(q, op) && (op.DoPush? ==> op.message != Start)
    ensures Serving(Q.Step(q, op), s)
  {
    Q.StepKeepsInv(q, op);
    Q.StepGrows(q, op);
    GrowthKeepsServing(q, Q.Step(q, op), s, if op.DoPush? && Q.Open(q) then [op.message] else []);
  }

  lemma GrowthKeepsServing(q: Q.Queue<Control>, q': Q.Queue<Control>, s: Server, more: seq<Control>)
    requires Serving(q, s) && Q.Inv(q') && Q.Delivered(q.answers) <= Q.Delivered(q'.answers)
    requires q'.accepted == q.accepted + more && Sendable(more)
    requires q.ended ==> q'.ended && more == []
    ensures Serving(q', s)
  {
    assert q'.accepted[..s.loop.received] == q.accepted[..s.loop.received];
    assert q'.accepted[1..] == q.accepted[1..] + more;
  }

  /** A settlement that is not an answer resolves nothing. */
  lemma SettlingKeeps(settled: seq<Settlement>, x: Settlement, responses: seq<Event>, consumed: nat,
                      accepted: seq<Control>, replies: seq<Control>)
    requires Resolving(settled, responses, consumed) && Matched(settled) && !x.outcome.Answered?
    ensures Resolving(settled + [x], responses, consumed) && Matched(settled + [x])
    ensures Outstanding(accepted, settled, replies) ==> Outstanding(accepted, settled + [x], replies)
  {
    ResolvedExtends(settled, x);
  }

  lemma CallKeepsReplying(p: Promises, call: Call, quiescent: bool, over: bool, consumed: nat,
                          accepted: seq<Control>, responses: seq<Event>)
    requires Replying(p, over, consumed, accepted, responses)
    ensures Replying(CallControl(p, call, quiescent), over, consumed, accepted, responses)
  {
    if call.AskFor? && quiescent && call.kind != Signaled {
      SettlingKeeps(p.settled, Settlement(p.calls, call.kind, Local), responses, consumed, accepted, p.replies);
    }
  }

  lemma SendingKeeps(accepted: seq<Control>, settled: seq<Settlement>, next: Control)
    requires Outstanding(accepted, settled, [])
    ensures Outstanding(accepted + [next], settled, if next.Ask? then [next] else [])
  {
    AskedExtends(accepted, next);
    AskedExtends([], next);
    assert [next] == [] + [next];
  }

  lemma RunNextKeepsReplying(p: Promises, sends: bool, over: bool, consumed: nat,
                             accepted: seq<Control>, responses: seq<Event>)
    requires Replying(p, over, consumed, accepted, responses) && p.waiting != [] && p.replies == []
    requires sends ==> !over
    ensures Replying(RunNext(p, sends), over, consumed,
                     if sends then accepted + [p.waiting[0]] else accepted, responses)
  {
    var next := p.waiting[0];
    if sends {
      SendingKeeps(accepted, p.settled, next);
      assert RunNext(p, sends).replies == if next.Ask? then [next] else [];
    } else {
      SettlingKeeps(p.settled, Settling(next, Rejected), responses, consumed, accepted, p.replies);
    }
  }

  /** The answer at the head of the responses is the one the pending reply asked for. */
  lemma HeadAnswer(accepted: seq<Control>, received: nat, sent: seq<Event>, inAnswer: seq<Event>,
                   responses: seq<Event>, consumed: nat, settled: seq<Settlement>, replies: seq<Control>)
    requires received <= |accepted| && Asked(accepted[..received]) == Answers(sent) + inAnswer
    requires responses <= sent && consumed < |responses| && responses[consumed].Answer?
    requires Resolving(settled, responses, consumed) && Outstanding(accepted, settled, replies)
    ensures |Asked(replies)| > 0 && Asked(replies)[0] == responses[consumed]
  {
    var e := responses[consumed];
    assert responses[..consumed + 1] == responses[..consumed] + [e];
    EventsExtend(responses[..consumed], e);
    EventsPrefix(responses[..consumed + 1], sent);
    AskedPrefix(accepted[..received], accepted);
    assert Resolved(settled) + [e] <= Asked(accepted);
    assert Asked(accepted)[|Resolved(settled)|] == e;
  }

  lemma AskedOne(r: Control)
    requires r.Ask?
    ensures Asked([r]) == [Answer(r.asker, r.kind)]
  {
    AskedExtends([], r);
    assert [r] == [] + [r];
  }

  lemma AnswerMeetsAsker(p: Promises, q: Q.Queue<Control>, consumed: nat, s: Server)
    requires Serving(q, s) && s.sender.responses <= s.channel.sent
    requires Replying(p, false, consumed, q.accepted, s.sender.responses)
    requires consumed < |s.sender.responses| && s.sender.responses[consumed].Answer?
    ensures |p.replies| == 1 && p.replies[0].Ask?
            && s.sender.responses[consumed] == Answer(p.replies[0].asker, p.replies[0].kind)
  {
    HeadAnswer(q.accepted, s.loop.received, s.channel.sent, InAnswer(s.loop.controls), s.sender.responses,
               consumed, p.settled, p.replies);
    assert p.replies != [] && p.replies == [p.replies[0]];
    AskedOne(p.replies[0]);
  }

  lemma ConsumingKeeps(settled: seq<Settlement>, responses: seq<Event>, consumed: nat)
    requires Resolving(settled, responses, consumed) && consumed < |responses|
    ensures !responses[consumed].Answer? ==> Resolving(settled, responses, consumed + 1)
    ensures responses[consumed].Answer? ==>
              forall r :: Resolving(settled + [Settling(r, Answered(responses[consumed]))], responses, consumed + 1)
  {
    var e := responses[consumed];
    assert responses[..consumed + 1] == responses[..consumed] + [e];
    EventsExtend(responses[..consumed], e);
    forall r ensures Resolved(settled + [Settling(r, Answered(e))]) == Resolved(settled) + [e] {
      ResolvedExtends(settled, Settling(r, Answered(e)));
    }
  }

  lemma AnswerSettles(accepted: seq<Control>, settled: seq<Settlement>, reply: Control)
    requires Outstanding(accepted, settled, [reply]) && reply.Ask?
    ensures Outstanding(accepted, settled + [Settling(reply, Answered(Answer(reply.asker, reply.kind)))], [])
  {
    ResolvedExtends(settled, Settling(reply, Answered(Answer(reply.asker, reply.kind))));
    AskedExtends([], reply);
    assert [reply] == [] + [reply];
  }

  lemma ConsumeKeepsReplying(p: Promises, q: Q.Queue<Control>, consumed: nat, s: Server)
    requires Serving(q, s) && s.sender.responses <= s.channel.sent && consumed < |s.sender.responses|
    requires Replying(p, false, consumed, q.accepted, s.sender.responses)
    ensures Replying(ConsumeAnswer(p, s.sender.responses[consumed]), false, consumed + 1,
                     q.accepted, s.sender.responses)
  {
    var e := s.sender.responses[consumed];
    ConsumingKeeps(p.settled, s.sender.responses, consumed);
    if e.Answer? {
      AnswerMeetsAsker(p, q, consumed, s);
      var r := p.replies[0];
      assert p.replies == [r];
      AnswerSettles(q.accepted, p.settled, r);
    }
  }

  /** Everything before the closed event is in the client's hands when it consumes that event. */
  lemma OutputCompleteAtClosed(s: Server)
    requires Trace(s.channel, s.producers) && Counters(s) && s.sender.responses <= s.channel.sent
    requires s.channel.closedAt.Some? && s.channel.closedAt.value <= |s.sender.responses|
    ensures Outputs(s.sender.responses[..s.channel.closedAt.value]) == s.producers.pty && s.producers.pump.PumpDone?
  {
    var at := s.channel.closedAt.value;
    NoOutputAfter(s.channel.sent, at);
    assert s.channel.sent[..at] == s.sender.responses[..at];
  }

  lemma ConsumeKeepsWritten(k: Sink, s: Server)
    requires ServerInv(s) && Written(k, s) && k.consumed < |s.sender.responses|
    ensures Written(ConsumeOutput(k, s.sender.responses[k.consumed]), s)
  {
    var e := s.sender.responses[k.consumed];
    assert e == s.channel.sent[k.consumed];
    assert s.sender.responses[..k.consumed + 1] == s.sender.responses[..k.consumed] + [e];
    EventsExtend(s.sender.responses[..k.consumed], e);
    if e.Closed? {
      OutputCompleteAtClosed(s);
    }
  }

  lemma ConsumeKeepsRaised(f: Flags, requestsEnded: bool, consumed: nat, s: Server)
    requires Shape(s.channel.sent, s.channel.exitedAt, s.channel.closedAt) && s.sender.responses <= s.channel.sent
    requires Raised(f, requestsEnded, consumed, s) && !f.over && consumed < |s.sender.responses|
    ensures var e := s.sender.responses[consumed];
            Raised(ConsumeFlags(f, e), e.Closed? || requestsEnded, consumed + 1, s)
  {
    assert s.sender.responses[consumed] == s.channel.sent[consumed];
  }

  lemma RejectAllKeepsReplying(p: Promises, over: bool, consumed: nat, accepted: seq<Control>, responses: seq<Event>)
    requires Replying(p, over, consumed, accepted, responses)
    ensures Replying(RejectAll(p), true, consumed, accepted, responses)
  {
    if p.replies != [] {
      SettlingKeeps(p.settled, Settling(p.replies[0], Rejected), responses, consumed, accepted, p.replies);
      assert p.replies[1..] == [];
    }
  }

  /** A handler that returned cleanly has answered everything, and its last events are consumed. */
  lemma CleanEndIsComplete(c: Client, s: Server)
    requires ServerInv(s) && ClientInv(c, s) && !c.flags.over
    requires s.handler == Returned(true) && c.sink.consumed == |s.sender.responses|
    ensures c.promises.replies == [] && c.sink.ended && c.flags.closed
    ensures c.flags.completion == Exit(ExitCode(s)) && c.sink.written == s.producers.pty
  {
    assert s.sender.responses == s.channel.sent && s.sender.responses[..c.sink.consumed] == s.channel.sent;
    assert c.requests.accepted[..s.loop.received] == c.requests.accepted;
    assert |Asked(c.promises.replies)| == 0;
  }

  /** What a client step does to its request queue. */
  lemma ClientRequests(c: Client, s: Server, a: ClientAction)
    requires ClientEnabled(c, s, a)
    ensures var q' := ClientStep(c, s, a).requests;
            match a
            case DoRunNext =>
              q' == if CanSend(c) then Q.Step(c.requests, Q.DoPush(c.promises.waiting[0])) else c.requests
            case DoPull => q' == Q.Step(c.requests, Q.DoNext)
            case DoAbort => q' == Q.Step(c.requests, Q.DoThrow)
            case _ => q' == c.requests || q' == Q.Step(c.requests, Q.DoEnd)
  {
  }

  lemma ClientKeepsServing(c: Client, s: Server, a: ClientAction)
    requires Serving(c.requests, s) && Sendable(c.promises.waiting) && ClientEnabled(c, s, a)
    ensures var q' := ClientStep(c, s, a).requests;
            && Serving(q', s)
            && (c.requests.ended ==> q'.ended)
            && q'.accepted == (if a.DoRunNext? && CanSend(c) then c.requests.accepted + [c.promises.waiting[0]]
                               else c.requests.accepted)
  {
    ClientRequests(c, s, a);
    match a
    case DoRunNext => QueueKeepsServing(c.requests, s, Q.DoPush(c.promises.waiting[0]));
    case DoPull => QueueKeepsServing(c.requests, s, Q.DoNext);
    case DoAbort => QueueKeepsServing(c.requests, s, Q.DoThrow);
    case _ => QueueKeepsServing(c.requests, s, Q.DoEnd);
  }

  lemma EndKeepsReplying(c: Client, s: Server)
    requires ServerInv(s) && ClientInv(c, s) && ClientEnabled(c, s, DoEnd)
    ensures var c' := ClientStep(c, s, DoEnd);
            Replying(c'.promises, c'.flags.over, c'.sink.consumed, c.requests.accepted, s.sender.responses)
  {
    RejectAllKeepsReplying(c.promises, false, c.sink.consumed, c.requests.accepted, s.sender.responses);
    if s.handler == Returned(true) {
      CleanEndIsComplete(c, s);
    }
  }

  lemma RunKeepsReplying(c: Client, s: Server)
    requires ServerInv(s) && ClientInv(c, s) && ClientEnabled(c, s, DoRunNext)
    ensures var c' := ClientStep(c, s, DoRunNext);
            Replying(c'.promises, c'.flags.over, c'.sink.consumed, c'.requests.accepted, s.sender.responses)
  {
    ClientKeepsServing(c, s, DoRunNext);
    assert CanSend(c) ==> !c.flags.over;
    RunNextKeepsReplying(c.promises, CanSend(c), c.flags.over, c.sink.consumed, c.requests.accepted,
        s.sender.responses);
  }

  lemma ClientKeepsReplying(c: Client, s: Server, a: ClientAction)
    requires ServerInv(s) && ClientInv(c, s) && ClientEnabled(c, s, a)
    ensures var c' := ClientStep(c, s, a);
            Replying(c'.promises, c'.flags.over, c'.sink.consumed, c'.requests.accepted, s.sender.responses)
  {
    var p, over, consumed, accepted := c.promises, c.flags.over, c.sink.consumed, c.requests.accepted;
    if a.DoRunNext? {
      RunKeepsReplying(c, s);
      return;
    }
    ClientKeepsServing(c, s, a);
    match a
    case DoCall(call) =>
      CallKeepsReplying(p, call, c.flags.quiescent, over, consumed, accepted, s.sender.responses);
    case DoConsume => ConsumeKeepsReplying(p, c.requests, consumed, s);
    case DoEnd => EndKeepsReplying(c, s);
    case DoTransportFailure => RejectAllKeepsReplying(p, over, consumed, accepted, s.sender.responses);
    case _ =>
  }

  lemma ClientKeepsRest(c: Client, s: Server, a: ClientAction)
    requires ServerInv(s) && ClientInv(c, s) && ClientEnabled(c, s, a)
    ensures var c' := ClientStep(c, s, a);
            Written(c'.sink, s) && Raised(c'.flags, c'.requests.ended, c'.sink.consumed, s)
  {
    ClientKeepsServing(c, s, a);
    match a
    case DoConsume =>
      ConsumeKeepsWritten(c.sink, s);
      ConsumeKeepsRaised(c.flags, c.requests.ended, c.sink.consumed, s);
    case DoEnd =>
      if s.handler == Returned(true) {
        CleanEndIsComplete(c, s);
      }
    case _ =>
  }

  // ---- Conservation of promises -----------------------------------------------------------

  lemma AsksExtends(controls: seq<Control>, x: Control, id: nat)
    ensures Asks(controls + [x], id) == Asks(controls, id) + One(x, id)
  {
    assert (controls + [x])[..|controls|] == controls;
  }

  lemma {:induction false} AsksHead(x: Control, rest: seq<Control>, id: nat)
    ensures Asks([x] + rest, id) == One(x, id) + Asks(rest, id)
    decreases |rest|
  {
    if rest == [] {
      assert [x] + rest == [] + [x];
      AsksExtends([], x, id);
    } else {
      var last := |rest| - 1;
      AsksHead(x, rest[..last], id);
      AsksExtends([x] + rest[..last], rest[last], id);
      assert [x] + rest == ([x] + rest[..last]) + [rest[last]];
    }
  }

  lemma SettledExtends(settled: seq<Settlement>, x: Settlement, id: nat)
    ensures Settled(settled + [x], id) == Settled(settled, id) + (if x.id == id then 1 else 0)
  {
    assert (settled + [x])[..|settled|] == settled;
  }

  lemma CallPlaces(p: Promises, call: Call, quiescent: bool, id: nat)
    ensures Places(CallControl(p, call, quiescent), id)
            == Places(p, id) + (if call.AskFor? && id == p.calls then 1 else 0)
  {
    match call
    case Write(data) => AsksExtends(p.waiting, Input(data), id);
    case ResizeTo(cols, rows) => AsksExtends(p.waiting, Resize(cols, rows), id);
    case AskFor(kind) =>
      SettledExtends(p.settled, Settlement(p.calls, kind, Local), id);
      AsksExtends(p.waiting, Ask(p.calls, kind), id);
  }

  lemma RunNextPlaces(p: Promises, sends: bool, id: nat)
    requires p.waiting != []
    ensures Places(RunNext(p, sends), id) == Places(p, id)
  {
    var next := p.waiting[0];
    assert p.waiting == [next] + p.waiting[1..];
    AsksHead(next, p.waiting[1..], id);
    SettledExtends(p.settled, Settling(next, Rejected), id);
    AsksExtends(p.replies, next, id);
  }

  /** Settling the pending reply moves its promise from pending to settled. */
  lemma SettlingPlaces(p: Promises, outcome: Outcome, id: nat)
    requires p.replies != [] && p.replies[0].Ask?
    ensures Places(Settle(p.(replies := p.replies[1..]), Settling(p.replies[0], outcome)), id) == Places(p, id)
  {
    assert p.replies == [p.replies[0]] + p.replies[1..];
    AsksHead(p.replies[0], p.replies[1..], id);
    SettledExtends(p.settled, Settling(p.replies[0], outcome), id);
  }

  lemma RejectAllPlaces(p: Promises, id: nat)
    requires Pending(p.replies)
    ensures Places(RejectAll(p), id) == Places(p, id) && RejectAll(p).calls == p.calls
  {
    if p.replies != [] {
      SettlingPlaces(p, Rejected, id);
      assert p.replies[1..] == [];
    }
  }

  lemma ClientPlaces(c: Client, s: Server, a: ClientAction, id: nat)
    requires Pending(c.promises.replies) && ClientEnabled(c, s, a)
    ensures var p' := ClientStep(c, s, a).promises;
            var made := if a.DoCall? && a.call.AskFor? then 1 else 0;
            && Places(p', id) == Places(c.promises, id) + (if id == c.promises.calls then made else 0)
            && p'.calls == c.promises.calls + made
  {
    match a
    case DoCall(call) => CallPlaces(c.promises, call, c.flags.quiescent, id);
    case DoRunNext => RunNextPlaces(c.promises, CanSend(c), id);
    case DoConsume =>
      if c.promises.replies != [] {
        SettlingPlaces(c.promises, Answered(s.sender.responses[c.sink.consumed]), id);
      }
    case DoEnd => RejectAllPlaces(c.promises, id);
    case DoTransportFailure => RejectAllPlaces(c.promises, id);
    case _ =>
  }

  lemma ClientConserves(c: Client, s: Server, a: ClientAction)
    requires Conserved(c.promises) && Pending(c.promises.replies) && ClientEnabled(c, s, a)
    ensures Conserved(ClientStep(c, s, a).promises)
  {
    var p' := ClientStep(c, s, a).promises;
    forall id: nat ensures Places(p', id) == if id < p'.calls then 1 else 0 {
      ClientPlaces(c, s, a, id);
    }
  }

  // ---- Every run --------------------------------------------------------------------------

  lemma InitialInv()
    ensures Inv(Initial())
  {
    var c, s := NewClient(), NewServer;
    Q.StepKeepsInv(Q.Empty(), Q.DoPush(Start));
    assert c.requests.accepted == [] + [Start];
    AskedExtends([], Start);
    assert c.requests.accepted[..s.loop.received] == [];
  }

  lemma StepKeepsInv(y: System, a: Action)
    requires Inv(y) && Enabled(y, a)
    ensures Inv(Step(y, a))
  {
    match a
    case ByServer(b) =>
      ServerKeepsServer(y.server, Wire(y.client), y.client.requests.done, b);
      ServerKeepsServing(y.client.requests, y.server, b);
      ServerKeepsClientSide(y.client, y.server, Wire(y.client), y.client.requests.done, b);
    case ByClient(b) =>
      ClientKeepsServing(y.client, y.server, b);
      ClientKeepsReplying(y.client, y.server, b);
      ClientKeepsRest(y.client, y.server, b);
      ClientConserves(y.client, y.server, b);
  }

  lemma {:induction false} RunKeepsInv(y: System, actions: seq<Action>)
    requires Inv(y) && IsRun(y, actions)
    ensures Inv(Run(y, actions))
    decreases |actions|
  {
    if actions != [] {
      StepKeepsInv(y, actions[0]);
      RunKeepsInv(Step(y, actions[0]), actions[1..]);
    }
  }

  /**
   * In every interleaving of the client, its transport and the runner's goroutines: at most one
   * reply is outstanding, every answered promise got the answer to its own control, no promise is
   * settled twice, and the client has written the PTY's bytes in order.
   */
  lemma EveryRunMatchesReplies(actions: seq<Action>)
    requires IsRun(Initial(), actions)
    ensures var y := Run(Initial(), actions);
            && |y.client.promises.replies| <= 1
            && Matched(y.client.promises.settled)
            && (forall id: nat ::
                  Settled(y.client.promises.settled, id) <= if id < y.client.promises.calls then 1 else 0)
            && y.client.sink.written <= y.server.producers.pty
            && (y.client.sink.ended ==>
                  y.client.sink.written == y.server.producers.pty && y.server.producers.pump.PumpDone?)
            && !y.client.sink.lateWrite
  {
    InitialInv();
    RunKeepsInv(Initial(), actions);
    var y := Run(Initial(), actions);
    forall id: nat
      ensures Settled(y.client.promises.settled, id) <= if id < y.client.promises.calls then 1 else 0
    {
      assert Places(y.client.promises, id) == if id < y.client.promises.calls then 1 else 0;
    }
    var seen := y.server.sender.responses[..y.client.sink.consumed];
    EventsPrefix(seen, y.server.channel.sent);
  }

  /** Running the rest of the chain once the response stream is over. */
  function Drain(p: Promises): Promises
    decreases |p.waiting|
  {
    if p.waiting == [] then p else Drain(RunNext(p, false))
  }

  lemma {:induction false} DrainSettles(p: Promises)
    requires Conserved(p) && p.replies == []
    ensures var d := Drain(p);
            && d.waiting == [] && d.replies == [] && d.calls == p.calls
            && (forall id: nat :: Settled(d.settled, id) == if id < p.calls then 1 else 0)
    decreases |p.waiting|
  {
    if p.waiting != [] {
      var p' := RunNext(p, false);
      forall id: nat ensures Places(p', id) == if id < p'.calls then 1 else 0 {
        RunNextPlaces(p, false, id);
      }
      DrainSettles(p');
    } else {
      forall id: nat ensures Settled(p.settled, id) == if id < p.calls then 1 else 0 {
        assert Places(p, id) == if id < p.calls then 1 else 0;
      }
    }
  }

  /**
   * Whenever the response stream is over, cleanly or by error, no reply is pending, the chain can
   * only reject what is left, and then every query and signal promise is settled exactly once.
   */
  lemma EveryEndSettlesAll(actions: seq<Action>)
    requires IsRun(Initial(), actions) && Run(Initial(), actions).client.flags.over
    ensures var c := Run(Initial(), actions).client;
            && c.promises.replies == [] && c.flags.finished && !c.flags.completion.Pending? && !CanSend(c)
            && (var d := Drain(c.promises);
                d.waiting == [] && forall id: nat :: Settled(d.settled, id) == if id < c.promises.calls then 1 else 0)
  {
    InitialInv();
    RunKeepsInv(Initial(), actions);
    DrainSettles(Run(Initial(), actions).client.promises);
  }

  /**
   * In every run the promises and flags follow the events handled: the start settles with the first
   * response or the end, the terminal is quiescent once the closed event was handled and finished
   * then or at the end, and the status is the exit event's, or lost at an end without one.
   */
  lemma FlagsFollowEvents(actions: seq<Action>)
    requires IsRun(Initial(), actions)
    ensures var y := Run(Initial(), actions);
            var f, consumed, k := y.client.flags, y.client.sink.consumed, y.server.channel;
            && (f.startSettled <==> consumed > 0 || f.over)
            && (f.quiescent <==> Past(k.closedAt, consumed)) && (f.quiescent ==> f.closed)
            && (f.finished <==> Past(k.closedAt, consumed) || f.over)
            && f.completion == (if Past(k.exitedAt, consumed) then Exit(ExitCode(y.server))
                                else if f.over then Completion.Lost else Completion.Pending)
  {
    InitialInv();
    RunKeepsInv(Initial(), actions);
  }

  /**
   * In every run the handler returns cleanly exactly when every response went out, the control loop
   * ended with the client's half, and the context held.
   */
  lemma ReturnsCleanlyExactly(actions: seq<Action>, contextFailed: bool)
    requires IsRun(Initial(), actions)
    requires var y := Run(Initial(), actions);
             ServerEnabled(y.server, Wire(y.client), y.client.requests.done, DoReturn(contextFailed))
    ensures var y := Run(Initial(), actions);
            var s' := ServerStep(y.server, Wire(y.client), y.client.requests.done, DoReturn(contextFailed));
            s'.handler == Returned(&& !contextFailed && y.server.sender.responses == y.server.channel.sent
                                   && y.server.loop.controls == ControlsDone(false))
  {
    InitialInv();
    RunKeepsInv(Initial(), actions);
  }

  /** In every run the end of the response stream, clean or not, ends the consume loop and settles what it can. */
  lemma EveryEndIsOver(actions: seq<Action>, a: ClientAction)
    requires IsRun(Initial(), actions) && Enabled(Run(Initial(), actions), ByClient(a))
    requires a.DoEnd? || a.DoTransportFailure?
    ensures var c := ClientStep(Run(Initial(), actions).client, Run(Initial(), actions).server, a);
            && c.flags.over && c.flags.finished && c.flags.startSettled && !c.flags.completion.Pending?
            && c.promises.replies == [] && !CanSend(c)
  {
    InitialInv();
    RunKeepsInv(Initial(), actions);
    StepKeepsInv(Run(Initial(), actions), ByClient(a));
  }

  /** All the PTY's bytes are on the channel before the closed event. */
  lemma ClosedIsLast(s: Server)
    requires ServerInv(s) && s.channel.closedAt.Some?
    ensures Outputs(s.channel.sent[..s.channel.closedAt.value]) == s.producers.pty && s.producers.pump.PumpDone?
  {
    NoOutputAfter(s.channel.sent, s.channel.closedAt.value);
  }

  /**
   * Every trace the runner puts on its event channel: started first, at most one exited and one
   * closed, closed after exited and after every output, answers alone behind it, nothing sent on
   * the closed channel; and exactly one of each once the handler has finished.
   */
  lemma EveryServerTrace(actions: seq<Action>)
    requires IsRun(Initial(), actions)
    ensures var s := Run(Initial(), actions).server;
            var k := s.channel;
            && Shape(k.sent, k.exitedAt, k.closedAt) && !k.dropped
            && s.sender.responses <= k.sent && Outputs(k.sent) <= s.producers.pty
            && (k.closedAt.Some? ==>
                  Outputs(k.sent[..k.closedAt.value]) == s.producers.pty && s.producers.pump.PumpDone?)
            && (s.handler.Draining? || s.handler.Returned? ==> k.exitedAt.Some? && k.closedAt.Some?)
  {
    InitialInv();
    RunKeepsInv(Initial(), actions);
    var s := Run(Initial(), actions).server;
    assert ServerInv(s);
    if s.channel.closedAt.Some? {
      ClosedIsLast(s);
    }
  }

  lemma CleanEndStep(c: Client, s: Server)
    requires ServerInv(s) && ClientInv(c, s) && !c.flags.over
    requires s.handler == Returned(true) && c.sink.consumed == |s.sender.responses|
    ensures var c' := ClientStep(c, s, DoEnd);
            && c'.promises == c.promises && c'.promises.replies == []
            && c'.flags.completion == Exit(ExitCode(s)) && s.channel.exitedAt.Some?
            && c'.sink.ended && c'.sink.written == s.producers.pty
  {
    CleanEndIsComplete(c, s);
  }

  /** A clean end of the stream: all answers delivered, the exit status known, all output written. */
  lemma EveryCleanEndIsComplete(actions: seq<Action>)
    requires IsRun(Initial(), actions)
    requires var y := Run(Initial(), actions);
             && !y.client.flags.over && y.server.handler == Returned(true)
             && y.client.sink.consumed == |y.server.sender.responses|
    ensures var y := Run(Initial(), actions);
            var c := ClientStep(y.client, y.server, DoEnd);
            && c.promises == y.client.promises && c.promises.replies == []
            && c.flags.completion == Exit(ExitCode(y.server)) && y.server.channel.exitedAt.Some?
            && c.sink.ended && c.sink.written == y.server.producers.pty
  {
    InitialInv();
    RunKeepsInv(Initial(), actions);
    CleanEndStep(Run(Initial(), actions).client, Run(Initial(), actions).server);
  }
}

/**
 * What the runner reports of its shell, against what the PTY and the child gave in the run: every byte
 * read, the status reaped, and every received control handled
 * (runner/terminal/terminal.go:146-180, 230-258; control-plane/src/terminal/remote-terminal.ts:327-404).
 */
module TerminalShell {
  import opened Prelude
  import Q = MessageQueue
  import opened TerminalProtocol
  import opened TerminalTheorems

  // ---- What the shell gave ----------------------------------------------------------------------

  function BytesOf(a: Action): Bytes
  {
    if a.ByServer? && a.server.DoPumpRead? then a.server.chunk else []
  }

  function CodesOf(a: Action): seq<int>
  {
    if a.ByServer? && a.server.DoReap? then [a.server.code] else []
  }

  /** The bytes read from the PTY in a run, in order. */
  function BytesRead(actions: seq<Action>): Bytes
    decreases |actions|
  {
    if actions == [] then [] else BytesOf(actions[0]) + BytesRead(actions[1..])
  }

  /** The statuses reaped in a run. */
  function CodesReaped(actions: seq<Action>): seq<int>
    decreases |actions|
  {
    if actions == [] then [] else CodesOf(actions[0]) + CodesReaped(actions[1..])
  }

  /** Some read of the run reported the end of the PTY. */
  function EofRead(actions: seq<Action>): bool
    decreases |actions|
  {
    actions != [] && (IsEof(actions[0]) || EofRead(actions[1..]))
  }

  predicate IsEof(a: Action)
  {
    a.ByServer? && a.server.DoPumpRead? && a.server.eof
  }

  /** The pump has seen the end: it sends what it holds and stops. */
  predicate AtEof(pump: Pump)
  {
    pump.PumpDone? || (pump.Holding? && pump.eof)
  }

  lemma StepKeepsEof(s: Server, wire: seq<Control>, done: bool, a: ServerAction)
    requires Counters(s) && ServerEnabled(s, wire, done, a)
    ensures AtEof(ServerStep(s, wire, done, a).producers.pump) <==> AtEof(s.producers.pump) || IsEof(ByServer(a))
  {
  }

  lemma {:induction false} RunKeepsEof(y: System, actions: seq<Action>, eof: bool)
    requires Inv(y) && IsRun(y, actions) && (AtEof(y.server.producers.pump) <==> eof)
    ensures AtEof(Run(y, actions).server.producers.pump) <==> eof || EofRead(actions)
    decreases |actions|
  {
    if actions != [] {
      StepKeepsInv(y, actions[0]);
      if actions[0].ByServer? {
        StepKeepsEof(y.server, Wire(y.client), y.client.requests.done, actions[0].server);
      }
      RunKeepsEof(Step(y, actions[0]), actions[1..], eof || IsEof(actions[0]));
    }
  }

  /** The producers have kept what the shell gave so far. */
  ghost predicate Keeps(s: Server, bytes: Bytes, codes: seq<int>)
  {
    && s.producers.pty == bytes
    && match s.producers.exiter
       case Waiting => codes == []
       case Reaped(code) => codes == [code]
       case ExitSent => codes == [ExitCode(s)]
  }

  lemma ExitCodeStays(s: Server, wire: seq<Control>, done: bool, a: ServerAction)
    requires ServerInv(s) && ServerEnabled(s, wire, done, a) && s.producers.exiter.ExitSent?
    ensures var s' := ServerStep(s, wire, done, a); s'.producers.exiter.ExitSent? && ExitCode(s') == ExitCode(s)
  {
    ServerGrows(s, wire, done, a);
    assert s.channel.exitedAt.Some?;
  }

  lemma ServerStepKeeps(s: Server, wire: seq<Control>, done: bool, a: ServerAction, bytes: Bytes, codes: seq<int>)
    requires ServerInv(s) && ServerEnabled(s, wire, done, a) && Keeps(s, bytes, codes)
    ensures Keeps(ServerStep(s, wire, done, a), bytes + BytesOf(ByServer(a)), codes + CodesOf(ByServer(a)))
  {
    PumpStep(s, wire, done, a);
    assert codes + [] == codes && bytes + [] == bytes;
    if s.producers.exiter.ExitSent? {
      ExitCodeStays(s, wire, done, a);
    }
  }

  lemma StepKeeps(y: System, a: Action, bytes: Bytes, codes: seq<int>)
    requires Inv(y) && Enabled(y, a) && Keeps(y.server, bytes, codes)
    ensures Keeps(Step(y, a).server, bytes + BytesOf(a), codes + CodesOf(a))
  {
    match a
    case ByServer(b) => ServerStepKeeps(y.server, Wire(y.client), y.client.requests.done, b, bytes, codes);
    case ByClient(b) => assert codes + [] == codes && bytes + [] == bytes;
  }

  lemma BytesJoin(bytes: Bytes, actions: seq<Action>)
    requires actions != []
    ensures (bytes + BytesOf(actions[0])) + BytesRead(actions[1..]) == bytes + BytesRead(actions)
  {
  }

  lemma CodesJoin(codes: seq<int>, actions: seq<Action>)
    requires actions != []
    ensures (codes + CodesOf(actions[0])) + CodesReaped(actions[1..]) == codes + CodesReaped(actions)
  {
  }

  lemma {:induction false} RunKeeps(y: System, actions: seq<Action>, bytes: Bytes, codes: seq<int>)
    requires Inv(y) && IsRun(y, actions) && Keeps(y.server, bytes, codes)
    ensures Keeps(Run(y, actions).server, bytes + BytesRead(actions), codes + CodesReaped(actions))
    decreases |actions|
  {
    if actions == [] {
      assert bytes + BytesRead(actions) == bytes && codes + CodesReaped(actions) == codes;
    } else {
      StepKeepsInv(y, actions[0]);
      StepKeeps(y, actions[0], bytes, codes);
      RunKeeps(Step(y, actions[0]), actions[1..], bytes + BytesOf(actions[0]), codes + CodesOf(actions[0]));
      BytesJoin(bytes, actions);
      CodesJoin(codes, actions);
    }
  }

  /**
   * In every run the client has written a prefix of the bytes read from the PTY, and all of them once
   * the output ended, which it does only after the end of the PTY was read; the pump stops exactly there;
   * and the status the client reports is the one status reaped.
   */
  lemma EveryRunReportsTheShell(actions: seq<Action>)
    requires IsRun(Initial(), actions)
    ensures var c := Run(Initial(), actions).client;
            && c.sink.written <= BytesRead(actions)
            && (c.sink.ended ==> c.sink.written == BytesRead(actions) && EofRead(actions))
            && (AtEof(Run(Initial(), actions).server.producers.pump) <==> EofRead(actions))
            && (c.flags.completion.Exit? ==> CodesReaped(actions) == [c.flags.completion.code])
  {
    InitialInv();
    RunKeeps(Initial(), actions, [], []);
    RunKeepsEof(Initial(), actions, false);
    assert [] + BytesRead(actions) == BytesRead(actions) && [] + CodesReaped(actions) == CodesReaped(actions);
    RunKeepsInv(Initial(), actions);
    EveryRunMatchesReplies(actions);
    var y := Run(Initial(), actions);
    if y.client.flags.completion.Exit? {
      assert y.server.channel.exitedAt.Some? && y.server.producers.exiter.ExitSent?;
    }
  }

  /** No output event is empty, sent or held. */
  predicate NoEmptyOutput(s: Server)
  {
    && (s.producers.pump.Holding? ==> s.producers.pump.chunk != [])
    && forall i | 0 <= i < |s.channel.sent| && s.channel.sent[i].Output? :: s.channel.sent[i].chunk != []
  }

  lemma ServerSendsNoEmptyOutput(s: Server, wire: seq<Control>, done: bool, a: ServerAction)
    requires Counters(s) && ServerEnabled(s, wire, done, a) && NoEmptyOutput(s)
    ensures NoEmptyOutput(ServerStep(s, wire, done, a))
  {
    StepSent(s, wire, done, a);
  }

  lemma {:induction false} RunSendsNoEmptyOutput(y: System, actions: seq<Action>)
    requires Inv(y) && IsRun(y, actions) && NoEmptyOutput(y.server)
    ensures NoEmptyOutput(Run(y, actions).server)
    decreases |actions|
  {
    if actions != [] {
      StepKeepsInv(y, actions[0]);
      if actions[0].ByServer? {
        ServerSendsNoEmptyOutput(y.server, Wire(y.client), y.client.requests.done, actions[0].server);
      }
      RunSendsNoEmptyOutput(Step(y, actions[0]), actions[1..]);
    }
  }

  /** In every run a read that gives no bytes puts no event on the channel. */
  lemma EveryOutputHasBytes(actions: seq<Action>)
    requires IsRun(Initial(), actions)
    ensures NoEmptyOutput(Run(Initial(), actions).server)
  {
    InitialInv();
    RunSendsNoEmptyOutput(Initial(), actions);
  }

  // ---- What the handler does with a control -----------------------------------------------------

  /**
   * In every run the control loop takes the next request sent: a query or signal is answered with its
   * own answer next, an input or size that fails ends the loop with an error, and any other is done.
   */
  lemma ReceivedIsHandled(actions: seq<Action>, fails: bool)
    requires IsRun(Initial(), actions) && Enabled(Run(Initial(), actions), ByServer(DoReceive(fails)))
    ensures var y := Run(Initial(), actions);
            var l, l' := y.server.loop, Step(y, ByServer(DoReceive(fails))).server.loop;
            && 0 < l.received < |y.client.requests.accepted| && l'.received == l.received + 1
            && match y.client.requests.accepted[l.received]
               case Ask(asker, kind) => l'.controls == Answering(Answer(asker, kind))
               case _ => l'.controls == if fails then ControlsDone(true) else Receiving
  {
    InitialInv();
    RunKeepsInv(Initial(), actions);
    var y := Run(Initial(), actions);
    var accepted := y.client.requests.accepted;
    assert Wire(y.client)[y.server.loop.received] == accepted[y.server.loop.received];
    assert accepted[1..][y.server.loop.received - 1] == accepted[y.server.loop.received];
  }

  // ---- The event channel and its sender ---------------------------------------------------------

  /**
   * In every run the sender takes the oldest event; it goes out, behind those before it, exactly when
   * the stream takes it and has not failed before, and a failure is for good.
   */
  lemma OldestGoesOut(actions: seq<Action>, lost: bool)
    requires IsRun(Initial(), actions) && Enabled(Run(Initial(), actions), ByServer(DoTransmit(lost)))
    ensures var y := Run(Initial(), actions);
            var s, s' := y.server, Step(y, ByServer(DoTransmit(lost))).server;
            && s.channel.events != [] && s'.channel.events == s.channel.events[1..]
            && s'.sender.responses == s.sender.responses
                 + (if lost || s.sender.failed then [] else [s.channel.events[0]])
            && (s'.sender.failed <==> s.sender.failed || lost)
  {
  }

  lemma {:induction false} RunKeepsBound(y: System, actions: seq<Action>)
    requires Inv(y) && IsRun(y, actions) && |y.server.channel.events| <= EVENT_BUFFER
    ensures |Run(y, actions).server.channel.events| <= EVENT_BUFFER
    decreases |actions|
  {
    if actions != [] {
      StepKeepsInv(y, actions[0]);
      if actions[0].ByServer? {
        BoundStep(y.server, Wire(y.client), y.client.requests.done, actions[0].server);
      }
      RunKeepsBound(Step(y, actions[0]), actions[1..]);
    }
  }

  lemma BoundStep(s: Server, wire: seq<Control>, done: bool, a: ServerAction)
    requires Counters(s) && ServerEnabled(s, wire, done, a) && |s.channel.events| <= EVENT_BUFFER
    ensures |ServerStep(s, wire, done, a).channel.events| <= EVENT_BUFFER
  {
    StepEmits(s, wire, done, a);
    if a.DoReceiveStart? {
      assert s.channel.events == [];
    } else if Emitted(s, wire, a) != [] {
      assert HasRoom(s.channel);
    }
  }

  /** In every run at most 64 events wait for the sender. */
  lemma EventsAreBounded(actions: seq<Action>)
    requires IsRun(Initial(), actions)
    ensures |Run(Initial(), actions).server.channel.events| <= 64
  {
    InitialInv();
    RunKeepsBound(Initial(), actions);
  }
}

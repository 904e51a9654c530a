/**
 * What reaches the runner of the calls made on a remote terminal: input, sizes, queries and signals,
 * in call order (control-plane/src/terminal/remote-terminal.ts:184-250, 287-320).
 */
module TerminalCalls {
  import opened Prelude
  import Q = MessageQueue
  import opened TerminalProtocol
  import opened TerminalTheorems

  // ---- The calls of a run -------------------------------------------------------------------

  /** How many queries and signals there are among the calls; each makes one promise. */
  function Promised(calls: seq<Call>): nat
  {
    if calls == [] then 0
    else Promised(calls[..|calls| - 1]) + if calls[|calls| - 1].AskFor? then 1 else 0
  }

  /** What one call says to the runner, when `id` promises were made before it; a size must be positive. */
  function Said(call: Call, id: nat): seq<Control>
  {
    match call
    case Write(data) => [Input(data)]
    case ResizeTo(cols, rows) => if cols > 0 && rows > 0 then [Resize(cols, rows)] else []
    case AskFor(kind) => [Ask(id, kind)]
  }

  /** What the calls say, each in its place. */
  function AllSaid(calls: seq<Call>): seq<Control>
  {
    if calls == [] then []
    else
      var before := calls[..|calls| - 1];
      AllSaid(before) + Said(calls[|calls| - 1], Promised(before))
  }

  function CallOf(a: Action): seq<Call>
  {
    if a.ByClient? && a.client.DoCall? then [a.client.call] else []
  }

  /** The calls made in a run, in order. */
  function CallsOf(actions: seq<Action>): seq<Call>
    decreases |actions|
  {
    if actions == [] then [] else CallOf(actions[0]) + CallsOf(actions[1..])
  }

  lemma CallExtends(calls: seq<Call>, call: Call)
    ensures Promised(calls + [call]) == Promised(calls) + if call.AskFor? then 1 else 0
    ensures AllSaid(calls + [call]) == AllSaid(calls) + Said(call, Promised(calls))
  {
    assert (calls + [call])[..|calls|] == calls;
  }

  // ---- What is sent ---------------------------------------------------------------------------

  /** What was sent is a prefix of what is said, and while the terminal can send the chain is the rest. */
  predicate InOrder(sent: seq<Control>, chain: seq<Control>, open: bool, said: seq<Control>)
  {
    sent <= said && (open ==> sent + chain == said)
  }

  lemma SayingKeepsOrder(sent: seq<Control>, chain: seq<Control>, open: bool, said: seq<Control>,
                         more: seq<Control>)
    requires InOrder(sent, chain, open, said)
    ensures InOrder(sent, chain + more, open, said + more)
    ensures !open || more == [] ==> InOrder(sent, chain, open, said + more)
  {
    assert sent + (chain + more) == (sent + chain) + more;
    assert more == [] ==> said + more == said;
  }

  lemma SendingKeepsOrder(sent: seq<Control>, chain: seq<Control>, said: seq<Control>, open: bool)
    requires InOrder(sent, chain, true, said) && chain != []
    ensures InOrder(sent + [chain[0]], chain[1..], open, said)
  {
    assert (sent + [chain[0]]) + chain[1..] == sent + chain;
  }

  /** Behind the start come the calls. */
  function SaidBy(calls: seq<Call>): seq<Control>
  {
    [Start] + AllSaid(calls)
  }

  lemma SaidExtends(calls: seq<Call>, call: Call)
    ensures SaidBy(calls + [call]) == SaidBy(calls) + Said(call, Promised(calls))
  {
    CallExtends(calls, call);
  }

  ghost predicate Sending(c: Client, calls: seq<Call>)
  {
    && c.promises.calls == Promised(calls)
    && InOrder(c.requests.accepted, c.promises.waiting, CanSend(c), SaidBy(calls))
  }

  lemma CallKeepsSending(c: Client, s: Server, call: Call, calls: seq<Call>)
    requires Sending(c, calls) && (c.flags.quiescent ==> c.flags.closed)
    ensures Sending(ClientStep(c, s, DoCall(call)), calls + [call])
  {
    CallExtends(calls, call);
    SaidExtends(calls, call);
    SayingKeepsOrder(c.requests.accepted, c.promises.waiting, CanSend(c), SaidBy(calls), Said(call, Promised(calls)));
  }

  lemma NextKeepsSending(c: Client, s: Server, calls: seq<Call>)
    requires Sending(c, calls) && ClientEnabled(c, s, DoRunNext)
    requires Serving(c.requests, s) && Sendable(c.promises.waiting)
    ensures Sending(ClientStep(c, s, DoRunNext), calls)
  {
    ClientKeepsServing(c, s, DoRunNext);
    if CanSend(c) {
      SendingKeepsOrder(c.requests.accepted, c.promises.waiting, SaidBy(calls), CanSend(ClientStep(c, s, DoRunNext)));
    }
  }

  /** Only a call adds to the chain, and only the chain's next link sends. */
  lemma OtherStepsSendNothing(c: Client, s: Server, a: ClientAction)
    requires ClientEnabled(c, s, a) && !a.DoCall? && !a.DoRunNext?
    requires Serving(c.requests, s) && Sendable(c.promises.waiting)
    ensures var c' := ClientStep(c, s, a);
            && c'.requests.accepted == c.requests.accepted && c'.promises.waiting == c.promises.waiting
            && c'.promises.calls == c.promises.calls && (CanSend(c') ==> CanSend(c))
  {
    ClientKeepsServing(c, s, a);
    RejectingChains(c.promises);
  }

  lemma {:induction false} RejectingChains(p: Promises)
    ensures RejectAll(p).waiting == p.waiting && RejectAll(p).calls == p.calls
    decreases |p.replies|
  {
    if p.replies != [] {
      RejectingChains(Settle(p.(replies := p.replies[1..]), Settling(p.replies[0], Rejected)));
    }
  }

  lemma ClientKeepsSending(c: Client, s: Server, a: ClientAction, calls: seq<Call>)
    requires Sending(c, calls) && ClientEnabled(c, s, a) && (c.flags.quiescent ==> c.flags.closed)
    requires Serving(c.requests, s) && Sendable(c.promises.waiting)
    ensures Sending(ClientStep(c, s, a), calls + CallOf(ByClient(a)))
  {
    match a
    case DoCall(call) => CallKeepsSending(c, s, call, calls);
    case DoRunNext =>
      NextKeepsSending(c, s, calls);
      assert calls + [] == calls;
    case _ =>
      OtherStepsSendNothing(c, s, a);
      assert calls + [] == calls;
  }

  lemma StepKeepsSending(y: System, a: Action, calls: seq<Call>)
    requires Inv(y) && Enabled(y, a) && Sending(y.client, calls)
    ensures Sending(Step(y, a).client, calls + CallOf(a))
  {
    match a
    case ByClient(b) => ClientKeepsSending(y.client, y.server, b, calls);
    case ByServer(b) => assert calls + [] == calls;
  }

  lemma {:induction false} RunKeepsSending(y: System, actions: seq<Action>, calls: seq<Call>)
    requires Inv(y) && IsRun(y, actions) && Sending(y.client, calls)
    ensures Sending(Run(y, actions).client, calls + CallsOf(actions))
    decreases |actions|
  {
    if actions == [] {
      assert calls + CallsOf(actions) == calls;
    } else {
      StepKeepsInv(y, actions[0]);
      StepKeepsSending(y, actions[0], calls);
      RunKeepsSending(Step(y, actions[0]), actions[1..], calls + CallOf(actions[0]));
      CallsJoin(calls, actions);
    }
  }

  lemma CallsJoin(calls: seq<Call>, actions: seq<Action>)
    requires actions != []
    ensures (calls + CallOf(actions[0])) + CallsOf(actions[1..]) == calls + CallsOf(actions)
  {
  }

  lemma RunSends(actions: seq<Action>)
    requires IsRun(Initial(), actions)
    ensures Inv(Run(Initial(), actions)) && Sending(Run(Initial(), actions).client, CallsOf(actions))
  {
    InitialInv();
    assert Initial().client.requests.accepted == [Start] && SaidBy([]) == [Start];
    RunKeepsInv(Initial(), actions);
    RunKeepsSending(Initial(), actions, []);
    assert [] + CallsOf(actions) == CallsOf(actions);
  }

  /**
   * In every run, what the terminal sent behind its start is a prefix of what the calls said, in call
   * order with each call's own data; while it is open that prefix and the chain are all of it; and what
   * the handler received is a prefix of what was sent.
   */
  lemma EveryRunSendsItsCalls(actions: seq<Action>)
    requires IsRun(Initial(), actions)
    ensures var y := Run(Initial(), actions);
            var c, said, received := y.client, SaidBy(CallsOf(actions)), y.server.loop.received;
            && c.requests.accepted <= said
            && (CanSend(c) ==> c.requests.accepted + c.promises.waiting == said)
            && received <= |Wire(c)| && Wire(c)[..received] <= Wire(c) <= c.requests.accepted
  {
    RunSends(actions);
  }

  // ---- The typed bytes ------------------------------------------------------------------------

  /** The bytes a list of controls types into the terminal. */
  function Typed(controls: seq<Control>): Bytes
  {
    if controls == [] then []
    else
      var last := controls[|controls| - 1];
      Typed(controls[..|controls| - 1]) + if last.Input? then last.data else []
  }

  function WrittenBytes(calls: seq<Call>): Bytes
  {
    if calls == [] then []
    else
      var last := calls[|calls| - 1];
      WrittenBytes(calls[..|calls| - 1]) + if last.Write? then last.data else []
  }

  lemma {:induction false} TypedSum(a: seq<Control>, b: seq<Control>)
    ensures Typed(a + b) == Typed(a) + Typed(b)
    decreases |b|
  {
    if b == [] {
      assert a + b == a && Typed(b) == [];
    } else {
      var init, last := b[..|b| - 1], b[|b| - 1];
      assert b == init + [last];
      TypedSum(a, init);
      TypedExtends(a + init, last);
      TypedExtends(init, last);
      assert a + b == (a + init) + [last];
      var typed := if last.Input? then last.data else [];
      assert (Typed(a) + Typed(init)) + typed == Typed(a) + (Typed(init) + typed);
    }
  }

  lemma {:induction false} SaidIsTyped(calls: seq<Call>)
    ensures Typed(SaidBy(calls)) == WrittenBytes(calls)
  {
    if calls == [] {
      assert SaidBy(calls) == [Start];
      assert [Start][..0] == [];
    } else {
      var before, last := calls[..|calls| - 1], calls[|calls| - 1];
      SaidIsTyped(before);
      assert calls == before + [last];
      SaidExtends(before, last);
      TypedSum(SaidBy(before), Said(last, Promised(before)));
      TypedOne(last, Promised(before));
    }
  }

  lemma TypedOne(call: Call, id: nat)
    ensures Typed(Said(call, id)) == if call.Write? then call.data else []
  {
    if Said(call, id) != [] {
      TypedExtends([], Said(call, id)[0]);
      assert Said(call, id) == [] + [Said(call, id)[0]];
    }
  }

  lemma TypedExtends(controls: seq<Control>, last: Control)
    ensures Typed(controls + [last]) == Typed(controls) + if last.Input? then last.data else []
  {
    assert (controls + [last])[..|controls|] == controls;
  }

  /**
   * In every run, the input the handler received is a prefix of the bytes written by the calls, in
   * order; and all of them once nothing is chained or on its way and the terminal is open.
   */
  lemma EveryRunTypesItsInput(actions: seq<Action>)
    requires IsRun(Initial(), actions)
    ensures var y := Run(Initial(), actions);
            var c, written := y.client, WrittenBytes(CallsOf(actions));
            && y.server.loop.received <= |Wire(c)|
            && var received := Wire(c)[..y.server.loop.received];
               && Typed(received) <= written
               && (CanSend(c) && c.promises.waiting == [] && |received| == |c.requests.accepted| ==>
                     Typed(received) == written)
  {
    EveryRunSendsItsCalls(actions);
    var y := Run(Initial(), actions);
    var received := Wire(y.client)[..y.server.loop.received];
    var said := SaidBy(CallsOf(actions));
    SaidIsTyped(CallsOf(actions));
    assert said == received + said[|received|..];
    TypedSum(received, said[|received|..]);
    if CanSend(y.client) && y.client.promises.waiting == [] && |received| == |y.client.requests.accepted| {
      assert received == said;
    }
  }

  // ---- Closing --------------------------------------------------------------------------------

  /** The client's own ways to end a terminal, and the stream's. */
  predicate Closes(a: ClientAction)
  {
    a.DoTerminate? || a.DoAbort? || a.DoEnd? || a.DoTransportFailure?
  }

  lemma ClosedClientStep(c: Client, s: Server, a: ClientAction)
    requires ClientEnabled(c, s, a) && Serving(c.requests, s) && Sendable(c.promises.waiting)
    requires Raised(c.flags, c.requests.ended, c.sink.consumed, s)
    requires s.handler == Returned(true) && a.DoEnd? ==> c.flags.closed
    requires !CanSend(c) || Closes(a)
    ensures !CanSend(ClientStep(c, s, a)) && ClientStep(c, s, a).requests.accepted == c.requests.accepted
  {
    ClientKeepsServing(c, s, a);
  }

  lemma ClosedStep(y: System, a: Action)
    requires Inv(y) && Enabled(y, a)
    requires !CanSend(y.client) || (a.ByClient? && Closes(a.client))
    ensures !CanSend(Step(y, a).client) && Step(y, a).client.requests.accepted == y.client.requests.accepted
  {
    if a.ByClient? {
      if a.client.DoEnd? && y.server.handler == Returned(true) {
        CleanEndIsComplete(y.client, y.server);
      }
      ClosedClientStep(y.client, y.server, a.client);
    }
  }

  lemma {:induction false} ClosedStays(y: System, later: seq<Action>)
    requires Inv(y) && !CanSend(y.client) && IsRun(y, later)
    ensures !CanSend(Run(y, later).client) && Run(y, later).client.requests.accepted == y.client.requests.accepted
    decreases |later|
  {
    if later != [] {
      ClosedStep(y, later[0]);
      StepKeepsInv(y, later[0]);
      ClosedStays(Step(y, later[0]), later[1..]);
    }
  }

  /** In every run, once the terminal is terminated, aborted, ended or lost, nothing more is ever sent on it. */
  lemma NothingIsSentAfterwards(actions: seq<Action>, a: ClientAction, later: seq<Action>)
    requires IsRun(Initial(), actions) && Enabled(Run(Initial(), actions), ByClient(a)) && Closes(a)
    requires IsRun(Step(Run(Initial(), actions), ByClient(a)), later)
    ensures var y := Run(Initial(), actions);
            var z := Run(Step(y, ByClient(a)), later);
            && !CanSend(z.client) && z.client.requests.accepted == y.client.requests.accepted
            && (!a.DoAbort? ==> Step(y, ByClient(a)).client.flags.closed && Step(y, ByClient(a)).client.requests.ended)
  {
    var y := Run(Initial(), actions);
    RunSends(actions);
    ClosedStep(y, ByClient(a));
    StepKeepsInv(y, ByClient(a));
    ClosedStays(Step(y, ByClient(a)), later);
  }

  function ClosedBy(actions: seq<Action>): bool
    decreases |actions|
  {
    actions != [] && ((actions[0].ByClient? && Closes(actions[0].client)) || ClosedBy(actions[1..]))
  }

  /** The terminal can send exactly while nobody ended it and the closed event was not handled. */
  ghost predicate OpenExactly(y: System, closed: bool)
  {
    CanSend(y.client) <==> !closed && !Past(y.server.channel.closedAt, y.client.sink.consumed)
  }

  lemma ServerKeepsOpen(y: System, b: ServerAction, closed: bool)
    requires Inv(y) && Enabled(y, ByServer(b)) && OpenExactly(y, closed)
    ensures OpenExactly(Step(y, ByServer(b)), closed)
  {
    ServerGrows(y.server, Wire(y.client), y.client.requests.done, b);
  }

  lemma ClientKeepsOpen(y: System, a: ClientAction, closed: bool)
    requires Inv(y) && Enabled(y, ByClient(a)) && OpenExactly(y, closed)
    ensures OpenExactly(Step(y, ByClient(a)), closed || Closes(a))
  {
    if a.DoConsume? {
      assert y.server.sender.responses[y.client.sink.consumed] == y.server.channel.sent[y.client.sink.consumed];
    } else if Closes(a) {
      ClosedStep(y, ByClient(a));
    }
  }

  lemma {:induction false} RunKeepsOpen(y: System, actions: seq<Action>, closed: bool)
    requires Inv(y) && IsRun(y, actions) && OpenExactly(y, closed)
    ensures OpenExactly(Run(y, actions), closed || ClosedBy(actions))
    decreases |actions|
  {
    if actions != [] {
      StepKeepsInv(y, actions[0]);
      match actions[0] {
        case ByServer(b) =>
          ServerKeepsOpen(y, b, closed);
          RunKeepsOpen(Step(y, actions[0]), actions[1..], closed);
        case ByClient(b) =>
          ClientKeepsOpen(y, b, closed);
          RunKeepsOpen(Step(y, actions[0]), actions[1..], closed || Closes(b));
      }
    }
  }

  /**
   * In every run the terminal can send exactly as long as it was not terminated, aborted, ended or
   * lost, and the closed event was not handled.
   */
  lemma OpenUntilClosed(actions: seq<Action>)
    requires IsRun(Initial(), actions)
    ensures var y := Run(Initial(), actions);
            CanSend(y.client) <==>
              !ClosedBy(actions) && !Past(y.server.channel.closedAt, y.client.sink.consumed)
  {
    InitialInv();
    RunKeepsOpen(Initial(), actions, false);
  }

  // ---- Queries on a quiescent terminal --------------------------------------------------------

  /**
   * In every run, a query made after the closed event was handled is answered at once by the terminal
   * itself and never chained; every other query and signal joins the chain and settles nothing yet.
   */
  lemma QuiescentAnswersItself(actions: seq<Action>, kind: Kind)
    requires IsRun(Initial(), actions)
    ensures var y := Run(Initial(), actions);
            var p, p' := y.client.promises, Step(y, ByClient(DoCall(AskFor(kind)))).client.promises;
            var id := Promised(CallsOf(actions));
            if Past(y.server.channel.closedAt, y.client.sink.consumed) && kind != Signaled
            then p'.settled == p.settled + [Settlement(id, kind, Local)] && p'.waiting == p.waiting
            else p'.settled == p.settled && p'.waiting == p.waiting + [Ask(id, kind)]
  {
    RunSends(actions);
  }
}

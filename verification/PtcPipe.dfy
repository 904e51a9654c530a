/**
 * The control plane's end of a PTC run: writes before and after the start message, on one
 * request stream (control-plane/src/ptc/pipe.ts).
 */
module PtcPipe {
  import opened Prelude
  import Q = MessageQueue

  type Bytes = seq<byte>

  datatype Request = Start(command: string) | Control(bytes: Bytes)

  /** The channel's fields, and the writes whose callback reported no error. */
  datatype Channel = Channel(requests: Q.Queue<Request>, earlyWrites: seq<Bytes>, started: bool, written: seq<Bytes>)

  const Fresh := Channel(Q.Empty(), [], false, [])

  function Write(c: Channel, chunk: Bytes): Channel
  {
    if !c.started then
      c.(earlyWrites := c.earlyWrites + [chunk], written := c.written + [chunk])
    else if Q.Open(c.requests) then
      c.(requests := Q.Push(c.requests, Control(chunk)), written := c.written + [chunk])
    else c
  }

  function PushAll(q: Q.Queue<Request>, chunks: seq<Bytes>): Q.Queue<Request>
    decreases |chunks|
  {
    if chunks == [] then q else PushAll(Q.Push(q, Control(chunks[0])), chunks[1..])
  }

  /** A channel closed first starts nothing. */
  function Begin(c: Channel, command: string): Channel
  {
    if !Q.Open(c.requests) then c else
    c.(requests := PushAll(Q.Push(c.requests, Start(command)), c.earlyWrites), started := true, earlyWrites := [])
  }

  /** `_final`, `_destroy` and `finish` all end the request half. */
  datatype Op = DoWrite(chunk: Bytes) | DoBegin(command: string) | DoEnd | DoPull

  /** The start message is queued once; the consumer gets the stream from it and pulls one at a time. */
  predicate Enabled(c: Channel, op: Op)
  {
    && (op.DoBegin? ==> !c.started)
    && (op.DoPull? ==> c.started && !c.requests.waiting)
  }

  function Step(c: Channel, op: Op): Channel
  {
    match op
    case DoWrite(chunk) => Write(c, chunk)
    case DoBegin(command) => Begin(c, command)
    case DoEnd => c.(requests := Q.End(c.requests))
    case DoPull => c.(requests := Q.Next(c.requests))
  }

  predicate IsRun(c: Channel, ops: seq<Op>)
    decreases |ops|
  {
    ops == [] || (Enabled(c, ops[0]) && IsRun(Step(c, ops[0]), ops[1..]))
  }

  function Run(c: Channel, ops: seq<Op>): Channel
    decreases |ops|
  {
    if ops == [] then c else Run(Step(c, ops[0]), ops[1..])
  }

  function Controls(chunks: seq<Bytes>): (r: seq<Request>)
    ensures |r| == |chunks|
  {
    seq(|chunks|, i requires 0 <= i < |chunks| => Control(chunks[i]))
  }

  /** The request stream a run should carry. */
  predicate IsStream(messages: seq<Request>, written: seq<Bytes>)
  {
    |messages| > 0 && messages[0].Start? && messages[1..] == Controls(written)
  }

  ghost predicate Inv(c: Channel)
  {
    && Q.Inv(c.requests)
    && !c.requests.failed
    && (c.started ==> c.earlyWrites == [] && IsStream(c.requests.accepted, c.written))
    && (!c.started ==> c.earlyWrites == c.written && c.requests.accepted == [] && c.requests.answers == []
                       && !c.requests.waiting)
  }

  lemma {:induction false} PushAllAccepts(q: Q.Queue<Request>, chunks: seq<Bytes>)
    requires Q.Inv(q) && Q.Open(q)
    ensures var q' := PushAll(q, chunks);
            Q.Inv(q') && Q.Open(q') && q'.accepted == q.accepted + Controls(chunks)
    decreases |chunks|
  {
    if chunks != [] {
      Q.StepKeepsInv(q, Q.DoPush(Control(chunks[0])));
      PushAllAccepts(Q.Push(q, Control(chunks[0])), chunks[1..]);
      assert Controls(chunks) == [Control(chunks[0])] + Controls(chunks[1..]);
    }
  }

  lemma StepKeepsInv(c: Channel, op: Op)
    requires Inv(c) && Enabled(c, op)
    ensures Inv(Step(c, op))
  {
    match op
    case DoWrite(chunk) =>
      if c.started && Q.Open(c.requests) {
        Q.StepKeepsInv(c.requests, Q.DoPush(Control(chunk)));
        assert (c.requests.accepted + [Control(chunk)])[1..] == c.requests.accepted[1..] + [Control(chunk)];
        assert Controls(c.written + [chunk]) == Controls(c.written) + [Control(chunk)];
      }
    case DoBegin(command) =>
      if Q.Open(c.requests) {
        Q.StepKeepsInv(c.requests, Q.DoPush(Start(command)));
        PushAllAccepts(Q.Push(c.requests, Start(command)), c.earlyWrites);
      }
    case DoEnd =>
      Q.StepKeepsInv(c.requests, Q.DoEnd);
    case DoPull =>
      Q.StepKeepsInv(c.requests, Q.DoNext);
  }

  lemma {:induction false} RunKeepsInv(c: Channel, ops: seq<Op>)
    requires Inv(c) && IsRun(c, ops)
    ensures Inv(Run(c, ops))
    decreases |ops|
  {
    if ops != [] {
      StepKeepsInv(c, ops[0]);
      RunKeepsInv(Step(c, ops[0]), ops[1..]);
    }
  }

  /**
   * For every interleaving of early writes, begin, later writes, ends and pulls: what the runner
   * has pulled is a prefix of the start message followed by the accepted writes in order, and is
   * all of it once the stream reports done.
   */
  lemma EveryRunStreams(ops: seq<Op>)
    requires IsRun(Fresh, ops)
    ensures var c := Run(Fresh, ops);
            var pulled := Q.Delivered(c.requests.answers);
            && (c.started ==> exists stream :: IsStream(stream, c.written) && pulled <= stream
                                            && (c.requests.done ==> pulled == stream))
            && (!c.started ==> pulled == [] && c.requests.answers == [])
  {
    RunKeepsInv(Fresh, ops);
    var c := Run(Fresh, ops);
    if c.started {
      assert IsStream(c.requests.accepted, c.written);
    }
  }

  /** A channel ended before begin starts no run and yields no message, whatever follows. */
  lemma {:induction false} EndedFirstYieldsNothing(c: Channel, ops: seq<Op>)
    requires Inv(c) && !c.started && c.requests.ended && IsRun(c, ops)
    ensures var c' := Run(c, ops);
            !c'.started && c'.requests.accepted == [] && c'.requests.answers == []
    decreases |ops|
  {
    if ops != [] {
      StepKeepsInv(c, ops[0]);
      EndedFirstYieldsNothing(Step(c, ops[0]), ops[1..]);
    }
  }

  // ---- The calls behind the stream --------------------------------------------------------------

  /** The chunks written and the commands begun, in order. */
  function ChunksOf(ops: seq<Op>): seq<Bytes>
    decreases |ops|
  {
    if ops == [] then [] else ChunkOf(ops[0]) + ChunksOf(ops[1..])
  }

  function ChunkOf(op: Op): seq<Bytes>
  {
    if op.DoWrite? then [op.chunk] else []
  }

  function CommandsOf(ops: seq<Op>): seq<string>
    decreases |ops|
  {
    if ops == [] then [] else CommandOf(ops[0]) + CommandsOf(ops[1..])
  }

  function CommandOf(op: Op): seq<string>
  {
    if op.DoBegin? then [op.command] else []
  }

  /** What the channel accepted of the calls so far. */
  ghost predicate Carries(c: Channel, chunks: seq<Bytes>, commands: seq<string>)
  {
    && c.written <= chunks && (Q.Open(c.requests) || !c.started ==> c.written == chunks)
    && (c.started ==> |commands| == 1 && [Start(commands[0])] <= c.requests.accepted)
    && (!c.started && Q.Open(c.requests) ==> commands == [])
  }

  lemma BeginCarries(c: Channel, command: string, chunks: seq<Bytes>, commands: seq<string>)
    requires Inv(c) && !c.started && Carries(c, chunks, commands)
    ensures Carries(Begin(c, command), chunks, commands + [command])
  {
    if Q.Open(c.requests) {
      Q.StepKeepsInv(c.requests, Q.DoPush(Start(command)));
      PushAllAccepts(Q.Push(c.requests, Start(command)), c.earlyWrites);
    }
  }

  lemma StepCarries(c: Channel, op: Op, chunks: seq<Bytes>, commands: seq<string>)
    requires Inv(c) && Enabled(c, op) && Carries(c, chunks, commands)
    ensures Carries(Step(c, op), chunks + ChunkOf(op), commands + CommandOf(op))
  {
    assert chunks + [] == chunks && commands + [] == commands;
    StepKeepsInv(c, op);
    match op
    case DoBegin(command) => BeginCarries(c, command, chunks, commands);
    case DoWrite(chunk) => assert c.written <= chunks + [chunk];
    case _ =>
  }

  lemma ChunksJoin(chunks: seq<Bytes>, ops: seq<Op>)
    requires ops != []
    ensures (chunks + ChunkOf(ops[0])) + ChunksOf(ops[1..]) == chunks + ChunksOf(ops)
  {
    assert ChunksOf(ops) == ChunkOf(ops[0]) + ChunksOf(ops[1..]);
  }

  lemma CommandsJoin(commands: seq<string>, ops: seq<Op>)
    requires ops != []
    ensures (commands + CommandOf(ops[0])) + CommandsOf(ops[1..]) == commands + CommandsOf(ops)
  {
    assert CommandsOf(ops) == CommandOf(ops[0]) + CommandsOf(ops[1..]);
  }

  lemma {:induction false} RunCarries(c: Channel, ops: seq<Op>, chunks: seq<Bytes>, commands: seq<string>)
    requires Inv(c) && IsRun(c, ops) && Carries(c, chunks, commands)
    ensures Carries(Run(c, ops), chunks + ChunksOf(ops), commands + CommandsOf(ops))
    decreases |ops|
  {
    if ops == [] {
      assert chunks + ChunksOf(ops) == chunks && commands + CommandsOf(ops) == commands;
    } else {
      StepKeepsInv(c, ops[0]);
      StepCarries(c, ops[0], chunks, commands);
      RunCarries(Step(c, ops[0]), ops[1..], chunks + ChunkOf(ops[0]), commands + CommandOf(ops[0]));
      ChunksJoin(chunks, ops);
      CommandsJoin(commands, ops);
    }
  }

  /**
   * In every run the accepted writes are the caller's, in order from the first, and all of them until
   * the begun stream ends; and a begun stream starts with the command it was begun with.
   */
  lemma EveryRunCarriesItsCalls(ops: seq<Op>)
    requires IsRun(Fresh, ops)
    ensures var c := Run(Fresh, ops);
            && c.written <= ChunksOf(ops)
            && (Q.Open(c.requests) || !c.started ==> c.written == ChunksOf(ops))
            && (c.started ==> |CommandsOf(ops)| == 1 && [Start(CommandsOf(ops)[0])] <= c.requests.accepted)
            && (!c.started && Q.Open(c.requests) ==> CommandsOf(ops) == [])
  {
    RunCarries(Fresh, ops, [], []);
    assert [] + ChunksOf(ops) == ChunksOf(ops) && [] + CommandsOf(ops) == CommandsOf(ops);
  }

  function EndedBy(ops: seq<Op>): bool
    decreases |ops|
  {
    ops != [] && (ops[0].DoEnd? || EndedBy(ops[1..]))
  }

  lemma OpenStep(c: Channel, op: Op)
    requires Inv(c) && Enabled(c, op)
    ensures Q.Open(Step(c, op).requests) <==> Q.Open(c.requests) && !op.DoEnd?
  {
    StepKeepsInv(c, op);
    if op.DoBegin? && Q.Open(c.requests) {
      Q.StepKeepsInv(c.requests, Q.DoPush(Start(op.command)));
      PushAllAccepts(Q.Push(c.requests, Start(op.command)), c.earlyWrites);
    }
  }

  /** Over every run the channel takes writes until its first end. */
  lemma {:induction false} OpenUntilEnded(c: Channel, ops: seq<Op>)
    requires Inv(c) && IsRun(c, ops)
    ensures Q.Open(Run(c, ops).requests) <==> Q.Open(c.requests) && !EndedBy(ops)
    decreases |ops|
  {
    if ops != [] {
      OpenStep(c, ops[0]);
      StepKeepsInv(c, ops[0]);
      OpenUntilEnded(Step(c, ops[0]), ops[1..]);
    }
  }

  /** In every run a pull gets the next message of the stream, or its end, or waits for one or the other. */
  lemma PullGetsTheNext(ops: seq<Op>)
    requires IsRun(Fresh, ops) && Enabled(Run(Fresh, ops), DoPull)
    ensures var q, q' := Run(Fresh, ops).requests, Step(Run(Fresh, ops), DoPull).requests;
            var n := |Q.Delivered(q.answers)|;
            && n <= |q.accepted| && q'.accepted == q.accepted
            && (if n < |q.accepted| then Q.Delivered(q'.answers) == q.accepted[..n + 1]
                else Q.Delivered(q'.answers) == q.accepted && (q'.done <==> q.done || q.ended)
                     && (q'.waiting <==> !q.ended))
  {
    RunKeepsInv(Fresh, ops);
    var q := Run(Fresh, ops).requests;
    Q.DeliveredExtends(q.answers, Q.Done);
    if q.buffered != [] {
      Q.DeliveredExtends(q.answers, Q.Message(q.buffered[0]));
    }
  }

  lemma EndedChannelStep(c: Channel, op: Op)
    requires Inv(c) && Enabled(c, op) && (!Q.Open(c.requests) || op.DoEnd?)
    ensures !Q.Open(Step(c, op).requests) && Step(c, op).requests.accepted == c.requests.accepted
  {
  }

  lemma {:induction false} EndedChannelStays(c: Channel, ops: seq<Op>)
    requires Inv(c) && !Q.Open(c.requests) && IsRun(c, ops)
    ensures !Q.Open(Run(c, ops).requests) && Run(c, ops).requests.accepted == c.requests.accepted
    decreases |ops|
  {
    if ops != [] {
      EndedChannelStep(c, ops[0]);
      StepKeepsInv(c, ops[0]);
      EndedChannelStays(Step(c, ops[0]), ops[1..]);
    }
  }

  /** In every run, once the request half has ended nothing more goes to the runner, whatever follows. */
  lemma EndIsFinal(ops: seq<Op>, later: seq<Op>)
    requires IsRun(Fresh, ops) && IsRun(Step(Run(Fresh, ops), DoEnd), later)
    ensures var c, c' := Run(Fresh, ops), Run(Step(Run(Fresh, ops), DoEnd), later);
            !Q.Open(c'.requests) && c'.requests.accepted == c.requests.accepted
  {
    RunKeepsInv(Fresh, ops);
    EndedChannelStep(Run(Fresh, ops), DoEnd);
    StepKeepsInv(Run(Fresh, ops), DoEnd);
    EndedChannelStays(Step(Run(Fresh, ops), DoEnd), later);
  }

  class PtcChannel {
    const requests: Q.MessageQueue<Request>
    var earlyWrites: seq<Bytes>
    var started: bool
    ghost var written: seq<Bytes>

    ghost function State(): Channel
      reads this, requests
    {
      Channel(requests.State(), earlyWrites, started, written)
    }

    constructor ()
      ensures State() == Fresh && fresh(requests)
    {
      requests := new Q.MessageQueue<Request>();
      earlyWrites, started, written := [], false, [];
    }

    /** `_write`; `ok` is false when the callback reports an error. */
    method Write(chunk: Bytes) returns (ok: bool)
      modifies this, requests
      ensures State() == Step(old(State()), DoWrite(chunk))
      ensures ok <==> written == old(written) + [chunk]
      ensures !ok ==> State() == old(State())
    {
      if !started {
        earlyWrites, written := earlyWrites + [chunk], written + [chunk];
        return true;
      }
      var settled;
      ok, settled := requests.Push(Control(chunk));
      if ok {
        written := written + [chunk];
      }
    }

    method Final()
      modifies requests
      ensures State() == Step(old(State()), DoEnd)
    {
      var settled := requests.End();
    }

    method Begin(command: string) returns (ok: bool)
      modifies this, requests
      ensures State() == Step(old(State()), DoBegin(command))
      ensures ok <==> Q.Open(old(requests.State()))
    {
      var settled;
      ok, settled := requests.Push(Start(command));
      if !ok {
        return;
      }
      started := true;
      var early := earlyWrites;
      earlyWrites := [];
      ghost var target := PushAll(requests.State(), early);
      var i := 0;
      while i < |early|
        invariant 0 <= i <= |early|
        invariant PushAll(requests.State(), early[i..]) == target && Q.Open(requests.State())
        invariant started && earlyWrites == [] && written == old(written)
        modifies requests
      {
        assert early[i..][1..] == early[i + 1..];
        var pushed;
        pushed, settled := requests.Push(Control(early[i]));
        i := i + 1;
      }
    }
  }
}

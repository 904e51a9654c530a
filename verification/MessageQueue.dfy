/**
 * The pull-based source behind a request stream: producers push, one consumer pulls
 * (control-plane/src/core/message-queue.ts).
 */
module MessageQueue {
  import opened Prelude

  /** How one `next()` promise settles. */
  datatype Pull<+T> = Message(value: T) | Done | Failed

  /**
   * The queue's fields, and its history: every message a push accepted, and every settled pull in
   * the order the consumer asked, and whether one of them reported the end.
   */
  datatype Queue<T> = Queue(
    buffered: seq<T>, waiting: bool, ended: bool, failed: bool,
    accepted: seq<T>, answers: seq<Pull<T>>, done: bool)

  function Empty<T>(): Queue<T>
  {
    Queue([], false, false, false, [], [], false)
  }

  predicate Open<T>(q: Queue<T>)
  {
    !q.ended && !q.failed
  }

  /** A push into a closed queue throws and changes nothing. */
  function Push<T>(q: Queue<T>, m: T): Queue<T>
  {
    if !Open(q) then q
    else if q.waiting then
      q.(waiting := false, accepted := q.accepted + [m], answers := q.answers + [Message(m)])
    else
      q.(buffered := q.buffered + [m], accepted := q.accepted + [m])
  }

  function End<T>(q: Queue<T>): Queue<T>
  {
    if q.ended then q
    else if q.waiting then q.(ended := true, waiting := false, answers := q.answers + [Done], done := true)
    else q.(ended := true)
  }

  function Next<T>(q: Queue<T>): Queue<T>
  {
    if q.failed then q.(answers := q.answers + [Failed])
    else if q.buffered != [] then
      q.(buffered := q.buffered[1..], answers := q.answers + [Message(q.buffered[0])])
    else if q.ended then q.(answers := q.answers + [Done], done := true)
    else q.(waiting := true)
  }

  function Throw<T>(q: Queue<T>): Queue<T>
  {
    var closed := q.(ended := true, failed := true);
    if q.waiting then closed.(waiting := false, answers := q.answers + [Failed]) else closed
  }

  datatype Op<T> = DoPush(message: T) | DoEnd | DoNext | DoThrow | DoReturn

  /** There is one consumer: it asks again only once its last pull settled. */
  predicate Enabled<T>(q: Queue<T>, op: Op<T>)
  {
    op.DoNext? ==> !q.waiting
  }

  function Step<T>(q: Queue<T>, op: Op<T>): Queue<T>
  {
    match op
    case DoPush(m) => Push(q, m)
    case DoEnd => End(q)
    case DoNext => Next(q)
    case DoThrow => Throw(q)
    case DoReturn => End(q)
  }

  predicate IsRun<T>(q: Queue<T>, ops: seq<Op<T>>)
    decreases |ops|
  {
    ops == [] || (Enabled(q, ops[0]) && IsRun(Step(q, ops[0]), ops[1..]))
  }

  function Run<T>(q: Queue<T>, ops: seq<Op<T>>): Queue<T>
    decreases |ops|
  {
    if ops == [] then q else Run(Step(q, ops[0]), ops[1..])
  }

  /** The messages among the settled pulls. */
  function Delivered<T>(answers: seq<Pull<T>>): seq<T>
  {
    if answers == [] then []
    else
      var rest := Delivered(answers[..|answers| - 1]);
      match answers[|answers| - 1]
      case Message(m) => rest + [m]
      case _ => rest
  }

  lemma DeliveredExtends<T>(answers: seq<Pull<T>>, p: Pull<T>)
    ensures Delivered(answers + [p]) == Delivered(answers) + (if p.Message? then [p.value] else [])
  {
    assert (answers + [p])[..|answers|] == answers;
  }

  /** Nothing is lost, duplicated or reordered, and a waiting consumer never sits beside a message. */
  ghost predicate Inv<T>(q: Queue<T>)
  {
    && q.accepted == Delivered(q.answers) + q.buffered
    && (q.waiting ==> q.buffered == [] && Open(q))
    && (q.failed ==> q.ended)
    && (q.done ==> q.ended && q.buffered == [])
  }

  lemma PushKeepsInv<T>(q: Queue<T>, m: T)
    requires Inv(q)
    ensures Inv(Push(q, m))
  {
    DeliveredExtends(q.answers, Message(m));
  }

  lemma EndKeepsInv<T>(q: Queue<T>)
    requires Inv(q)
    ensures Inv(End(q)) && Inv(Throw(q))
  {
    DeliveredExtends(q.answers, Done);
    DeliveredExtends(q.answers, Failed);
  }

  lemma NextKeepsInv<T>(q: Queue<T>)
    requires Inv(q) && !q.waiting
    ensures Inv(Next(q))
  {
    DeliveredExtends(q.answers, Done);
    DeliveredExtends(q.answers, Failed);
    if q.buffered != [] {
      var head, rest := q.buffered[0], q.buffered[1..];
      DeliveredExtends(q.answers, Message(head));
      assert Delivered(q.answers) + q.buffered == (Delivered(q.answers) + [head]) + rest;
    }
  }

  lemma StepKeepsInv<T>(q: Queue<T>, op: Op<T>)
    requires Inv(q) && Enabled(q, op)
    ensures Inv(Step(q, op))
  {
    match op
    case DoPush(m) => PushKeepsInv(q, m);
    case DoNext => NextKeepsInv(q);
    case _ => EndKeepsInv(q);
  }

  /** What a step may change: one more accepted message, delivered messages only grow. */
  lemma StepGrows<T>(q: Queue<T>, op: Op<T>)
    requires Inv(q) && Enabled(q, op)
    ensures var q' := Step(q, op);
            && q'.accepted == q.accepted + (if op.DoPush? && Open(q) then [op.message] else [])
            && Delivered(q.answers) <= Delivered(q'.answers)
            && (q.ended ==> q'.ended) && (q.done ==> q'.done)
  {
    StepKeepsInv(q, op);
    var q' := Step(q, op);
    if |q'.answers| > |q.answers| {
      DeliveredExtends(q.answers, q'.answers[|q.answers|]);
    }
  }

  /**
   * Over every interleaving of pushes, ends, pulls, aborts and returns: the delivered messages
   * are a prefix of the accepted ones, and all of them once a pull reported done.
   */
  lemma {:induction false} EveryRunInOrder<T>(q: Queue<T>, ops: seq<Op<T>>)
    requires Inv(q) && IsRun(q, ops)
    ensures var q' := Run(q, ops);
            && Inv(q')
            && Delivered(q'.answers) <= q'.accepted
            && (q'.done ==> Delivered(q'.answers) == q'.accepted)
    decreases |ops|
  {
    if ops != [] {
      StepKeepsInv(q, ops[0]);
      EveryRunInOrder(Step(q, ops[0]), ops[1..]);
    }
  }

  lemma AbortStep<T>(q: Queue<T>, op: Op<T>)
    requires Inv(q) && q.failed && Enabled(q, op)
    ensures var q' := Step(q, op);
            && Inv(q') && q'.failed && q'.accepted == q.accepted && Delivered(q'.answers) == Delivered(q.answers)
            && (q'.answers == q.answers || q'.answers == q.answers + [Failed])
  {
    StepKeepsInv(q, op);
    DeliveredExtends(q.answers, Failed);
  }

  /** After an abort nothing more is accepted or delivered, and every later pull fails. */
  lemma {:induction false} AbortStops<T>(q: Queue<T>, ops: seq<Op<T>>)
    requires Inv(q) && q.failed && IsRun(q, ops)
    ensures var q' := Run(q, ops);
            && q'.failed && q'.accepted == q.accepted && Delivered(q'.answers) == Delivered(q.answers)
            && q.answers <= q'.answers
            && forall i | |q.answers| <= i < |q'.answers| :: q'.answers[i].Failed?
    decreases |ops|
  {
    if ops != [] {
      AbortStep(q, ops[0]);
      AbortStops(Step(q, ops[0]), ops[1..]);
    }
  }

  // ---- How a pull settles, in every run ---------------------------------------------------------

  /**
   * In every run a pull fails after an abort, else gets the oldest accepted message not delivered yet,
   * else reports done on an ended queue, else waits.
   */
  lemma PullIsExact<T>(ops: seq<Op<T>>)
    requires IsRun(Empty<T>(), ops) && !Run(Empty<T>(), ops).waiting
    ensures var q, q' := Run(Empty<T>(), ops), Step(Run(Empty<T>(), ops), DoNext);
            var n := |Delivered(q.answers)|;
            && n <= |q.accepted|
            && q'.accepted == q.accepted && q'.ended == q.ended && q'.failed == q.failed
            && (if q.failed then q'.answers == q.answers + [Failed] && !q'.waiting
                else if n < |q.accepted| then q'.answers == q.answers + [Message(q.accepted[n])] && !q'.waiting
                else if q.ended then q'.answers == q.answers + [Done] && q'.done && !q'.waiting
                else q'.answers == q.answers && q'.waiting)
  {
    EveryRunInOrder(Empty<T>(), ops);
  }

  /** In every run a waiting pull settles with the first push, end or abort; without one they settle nothing. */
  lemma WaitingPullSettles<T>(ops: seq<Op<T>>, op: Op<T>)
    requires IsRun(Empty<T>(), ops) && !op.DoNext?
    ensures var q, q' := Run(Empty<T>(), ops), Step(Run(Empty<T>(), ops), op);
            && !q'.waiting
            && (!q.waiting ==> q'.answers == q.answers && q'.done == q.done)
            && (q.waiting ==>
                  && (q'.done <==> q.done || op.DoEnd? || op.DoReturn?)
                  && q'.answers ==
                       match op
                       case DoPush(m) => q.answers + [Message(m)]
                       case DoThrow => q.answers + [Failed]
                       case _ => q.answers + [Done])
  {
    EveryRunInOrder(Empty<T>(), ops);
  }

  predicate EndsQueue<T>(op: Op<T>)
  {
    op.DoEnd? || op.DoThrow? || op.DoReturn?
  }

  lemma EndedStep<T>(q: Queue<T>, op: Op<T>)
    requires q.ended || EndsQueue(op)
    ensures Step(q, op).ended && Step(q, op).accepted == q.accepted
    ensures Step(q, op).failed <==> q.failed || op.DoThrow?
  {
  }

  lemma {:induction false} EndedStays<T>(q: Queue<T>, ops: seq<Op<T>>)
    requires q.ended && IsRun(q, ops)
    ensures Run(q, ops).ended && Run(q, ops).accepted == q.accepted
    ensures q.failed ==> Run(q, ops).failed
    decreases |ops|
  {
    if ops != [] {
      EndedStep(q, ops[0]);
      EndedStays(Step(q, ops[0]), ops[1..]);
    }
  }

  /**
   * In every run, after an end, a return or an abort nothing is accepted any more, whatever follows;
   * and after an abort the queue has failed for good.
   */
  lemma EndIsFinal<T>(ops: seq<Op<T>>, op: Op<T>, later: seq<Op<T>>)
    requires IsRun(Empty<T>(), ops) && EndsQueue(op) && IsRun(Step(Run(Empty<T>(), ops), op), later)
    ensures var q, q' := Run(Empty<T>(), ops), Run(Step(Run(Empty<T>(), ops), op), later);
            q'.ended && q'.accepted == q.accepted && (op.DoThrow? ==> q'.failed)
  {
    EndedStep(Run(Empty<T>(), ops), op);
    EndedStays(Step(Run(Empty<T>(), ops), op), later);
  }

  function EndedBy<T>(ops: seq<Op<T>>): bool
    decreases |ops|
  {
    ops != [] && (EndsQueue(ops[0]) || EndedBy(ops[1..]))
  }

  /** Over every run an open queue stays open until the first end, return or abort. */
  lemma {:induction false} OpenUntilEnded<T>(q: Queue<T>, ops: seq<Op<T>>)
    requires Inv(q) && IsRun(q, ops)
    ensures Open(Run(q, ops)) <==> Open(q) && !EndedBy(ops)
    decreases |ops|
  {
    if ops != [] {
      StepKeepsInv(q, ops[0]);
      OpenUntilEnded(Step(q, ops[0]), ops[1..]);
    }
  }

  /** The queue itself. `settled` in a result is the consumer's waiting promise, settled by that call. */
  class MessageQueue<T> {
    var buffered: seq<T>
    var waiting: bool
    var ended: bool
    var failed: bool
    ghost var accepted: seq<T>
    ghost var answers: seq<Pull<T>>
    ghost var done: bool

    ghost function State(): Queue<T>
      reads this
    {
      Queue(buffered, waiting, ended, failed, accepted, answers, done)
    }

    constructor ()
      ensures State() == Empty()
    {
      buffered, waiting, ended, failed := [], false, false, false;
      accepted, answers, done := [], [], false;
    }

    /** `ok` is false when the source throws "the request stream is closed". */
    method Push(message: T) returns (ok: bool, settled: Option<Pull<T>>)
      modifies this
      ensures ok <==> Open(old(State()))
      ensures State() == Step(old(State()), DoPush(message))
      ensures settled == if ok && old(waiting) then Some(Message(message)) else None
    {
      settled := None;
      if ended || failed {
        return false, None;
      }
      ok := true;
      accepted := accepted + [message];
      if !waiting {
        buffered := buffered + [message];
      } else {
        waiting := false;
        settled := Some(Message(message));
        answers := answers + [Message(message)];
      }
    }

    method End() returns (settled: Option<Pull<T>>)
      modifies this
      ensures State() == Step(old(State()), DoEnd)
      ensures settled == if !old(ended) && old(waiting) then Some(Done) else None
    {
      settled := None;
      if ended {
        return;
      }
      ended := true;
      if waiting {
        waiting := false;
        settled := Some(Done);
        answers, done := answers + [Done], true;
      }
    }

    /** An absent result is a promise still pending. */
    method Next() returns (result: Option<Pull<T>>)
      requires !waiting
      modifies this
      ensures State() == Step(old(State()), DoNext)
      ensures result.None? <==> waiting
      ensures result.Some? ==> answers == old(answers) + [result.value]
    {
      if failed {
        result := Some(Failed);
      } else if buffered != [] {
        result := Some(Message(buffered[0]));
        buffered := buffered[1..];
      } else if ended {
        result := Some(Done);
        done := true;
      } else {
        waiting := true;
        return None;
      }
      answers := answers + [result.value];
    }

    method Throw() returns (settled: Option<Pull<T>>)
      modifies this
      ensures State() == Step(old(State()), DoThrow)
      ensures settled == if old(waiting) then Some(Failed) else None
    {
      settled := None;
      ended, failed := true, true;
      if waiting {
        waiting := false;
        settled := Some(Failed);
        answers := answers + [Failed];
      }
    }
  }
}

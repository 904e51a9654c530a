/**
 * The registry of runner tunnels: registrations, close events, drops, waiters and their timers
 * (control-plane/src/core/tunnel.ts).
 *
 * A stream, a waiter and a waiter set have identity in the source; here each is a handle. A timer
 * keeps the set its waiter was put in, which need not be the set mapped when it fires.
 */
module Tunnel {
  import opened Prelude

  type Stream = nat
  type Waiter = nat
  type SetRef = nat

  /** `owner` is the id each stream registered under, `closed` the streams whose close event fired. */
  datatype Registrations = Registrations(
    mapped: map<string, Stream>, owner: map<Stream, string>, destroyed: set<Stream>, closed: set<Stream>, next: Stream)

  datatype Outcome = Resolved(stream: Stream) | TimedOut

  datatype Timer = Timer(captured: SetRef, id: string)

  /** `settledTwice` records any waiter settled a second time; `next` also names fresh sets. */
  datatype Waiters = Waiters(
    mapped: map<string, SetRef>, sets: map<SetRef, set<Waiter>>, timers: map<Waiter, Timer>,
    settled: map<Waiter, Outcome>, settledTwice: bool, next: Waiter)

  datatype Registry = Registry(regs: Registrations, waits: Waiters)

  const Empty := Registry(Registrations(map[], map[], {}, {}, 0), Waiters(map[], map[], map[], map[], false, 0))

  // ---- Registrations ----------------------------------------------------------------------

  /** `existing !== undefined && !existing.stream.destroyed` */
  predicate HasLive(g: Registrations, id: string)
  {
    id in g.mapped && g.mapped[id] !in g.destroyed
  }

  function Register(g: Registrations, id: string): Registrations
  {
    g.(mapped := g.mapped[id := g.next], owner := g.owner[g.next := id], next := g.next + 1)
  }

  function Drop(g: Registrations, id: string): Registrations
  {
    if id !in g.mapped then g
    else g.(mapped := g.mapped - {id}, destroyed := g.destroyed + {g.mapped[id]})
  }

  function CloseEvent(g: Registrations, s: Stream): Registrations
    requires s in g.owner
  {
    var id := g.owner[s];
    if id in g.mapped && g.mapped[id] == s
    then g.(mapped := g.mapped - {id}, closed := g.closed + {s})
    else g.(closed := g.closed + {s})
  }

  // ---- Waiters ----------------------------------------------------------------------------

  function Members(v: Waiters, ref: SetRef): set<Waiter>
  {
    if ref in v.sets then v.sets[ref] else {}
  }

  function Settle(v: Waiters, ws: set<Waiter>, outcome: Outcome): Waiters
  {
    v.(settled := v.settled + map w | w in ws :: outcome,
       settledTwice := v.settledTwice || exists w :: w in ws && w in v.settled)
  }

  function SettleOne(v: Waiters, w: Waiter, outcome: Outcome): Waiters
  {
    v.(settled := v.settled[w := outcome], settledTwice := v.settledTwice || w in v.settled)
  }

  /** A new waiter joins the set mapped under its id, or a new set. */
  function Enqueue(v: Waiters, id: string): Waiters
  {
    var ref := if id in v.mapped then v.mapped[id] else v.next;
    v.(mapped := v.mapped[id := ref],
       sets := v.sets[ref := (if id in v.mapped then Members(v, ref) else {}) + {v.next}],
       timers := v.timers[v.next := Timer(ref, id)],
       next := v.next + 1)
  }

  /** The timer callback works on the set it captured, and on whatever is mapped now. */
  function Timeout(v: Waiters, w: Waiter): Waiters
    requires w in v.timers
  {
    var t := v.timers[w];
    var members := Members(v, t.captured) - {w};
    SettleOne(v.(timers := v.timers - {w},
                 sets := v.sets[t.captured := members],
                 mapped := if members == {} then v.mapped - {t.id} else v.mapped),
              w, TimedOut)
  }

  /** `register` unmaps the set, stops its timers and resolves its waiters. */
  function Wake(v: Waiters, id: string, s: Stream): Waiters
  {
    if id !in v.mapped then v
    else
      var members := Members(v, v.mapped[id]);
      Settle(v.(mapped := v.mapped - {id}, timers := v.timers - members), members, Resolved(s))
  }

  // ---- The server -------------------------------------------------------------------------

  function WaitFor(r: Registry, id: string): Registry
  {
    if HasLive(r.regs, id)
    then r.(waits := SettleOne(r.waits.(next := r.waits.next + 1), r.waits.next, Resolved(r.regs.mapped[id])))
    else r.(waits := Enqueue(r.waits, id))
  }

  /** An authenticated upgrade: refused over a live registration, else it registers and wakes the waiters. */
  function Upgrade(r: Registry, id: string): Registry
  {
    if HasLive(r.regs, id) then r
    else Registry(Register(r.regs, id), Wake(r.waits, id, r.regs.next))
  }

  /** What can happen before shutdown; a stream is destroyed by its peer or by a failed health probe. */
  datatype Event = DoWait(id: string) | DoTimeout(w: Waiter) | DoDrop(id: string) | DoUpgrade(id: string)
                 | DoDestroy(s: Stream) | DoClose(s: Stream)

  predicate Enabled(r: Registry, e: Event)
  {
    match e
    case DoTimeout(w) => w in r.waits.timers
    case DoDestroy(s) => s in r.regs.owner
    case DoClose(s) => s in r.regs.owner && s in r.regs.destroyed && s !in r.regs.closed
    case _ => true
  }

  function Step(r: Registry, e: Event): Registry
    requires Enabled(r, e)
  {
    match e
    case DoWait(id) => WaitFor(r, id)
    case DoTimeout(w) => r.(waits := Timeout(r.waits, w))
    case DoDrop(id) => r.(regs := Drop(r.regs, id))
    case DoUpgrade(id) => Upgrade(r, id)
    case DoDestroy(s) => r.(regs := r.regs.(destroyed := r.regs.destroyed + {s}))
    case DoClose(s) => r.(regs := CloseEvent(r.regs, s))
  }

  predicate IsRun(r: Registry, events: seq<Event>)
    decreases |events|
  {
    events == [] || (Enabled(r, events[0]) && IsRun(Step(r, events[0]), events[1..]))
  }

  function Run(r: Registry, events: seq<Event>): Registry
    requires IsRun(r, events)
    decreases |events|
  {
    if events == [] then r else Run(Step(r, events[0]), events[1..])
  }

  // ---- Invariants -------------------------------------------------------------------------

  /** Every live stream is the one mapped under its id, and every mapped stream registered there. */
  ghost predicate StreamsMapped(g: Registrations)
  {
    && (forall s | s in g.owner :: s < g.next)
    && g.destroyed <= g.owner.Keys
    && (forall s | s in g.owner && s !in g.destroyed :: g.owner[s] in g.mapped && g.mapped[g.owner[s]] == s)
    && (forall id | id in g.mapped :: g.mapped[id] in g.owner && g.owner[g.mapped[id]] == id)
  }

  /** No two ids share a set, and no mapped set is empty. */
  ghost predicate SetsMapped(v: Waiters)
  {
    && (forall id | id in v.mapped :: v.mapped[id] < v.next && v.mapped[id] in v.sets && v.sets[v.mapped[id]] != {})
    && (forall a, b | a in v.mapped && b in v.mapped && v.mapped[a] == v.mapped[b] :: a == b)
  }

  ghost predicate AllFiled(v: Waiters)
  {
    forall w | w in v.timers :: Filed(v, w)
  }

  ghost predicate MembersArmed(v: Waiters)
  {
    forall id, w | id in v.mapped && w in Members(v, v.mapped[id]) :: w in v.timers && v.timers[w].id == id
  }

  /** The mapped sets are distinct, non-empty, and hold exactly the waiters whose timers are armed. */
  ghost predicate WaitersMapped(v: Waiters)
  {
    SetsMapped(v) && AllFiled(v) && MembersArmed(v)
  }

  /** An armed waiter is in the set it captured, and that set is the one mapped under its id. */
  ghost predicate Filed(v: Waiters, w: Waiter)
    requires w in v.timers
  {
    var t := v.timers[w];
    t.id in v.mapped && v.mapped[t.id] == t.captured && w in Members(v, t.captured)
  }

  /** Every call is pending or settled, never both, and settled once. */
  ghost predicate SettledOnce(v: Waiters)
  {
    && !v.settledTwice
    && (forall w: Waiter :: w < v.next <==> w in v.timers || w in v.settled)
    && (forall w | w in v.timers :: w !in v.settled)
  }

  /** A pending waiter never coexists with a live registration for its id. */
  ghost predicate NoLostWakeup(r: Registry)
  {
    forall w | w in r.waits.timers :: !HasLive(r.regs, r.waits.timers[w].id)
  }

  ghost predicate Inv(r: Registry)
  {
    StreamsMapped(r.regs) && WaitersMapped(r.waits) && SettledOnce(r.waits) && NoLostWakeup(r)
  }

  lemma RegisterKeeps(g: Registrations, id: string)
    requires StreamsMapped(g) && !HasLive(g, id)
    ensures StreamsMapped(Register(g, id)) && HasLive(Register(g, id), id)
    ensures forall other | other != id :: HasLive(Register(g, id), other) <==> HasLive(g, other)
  {
  }

  lemma RemovalKeeps(g: Registrations, id: string, s: Stream)
    requires StreamsMapped(g)
    ensures StreamsMapped(Drop(g, id))
    ensures s in g.owner && s in g.destroyed ==> StreamsMapped(CloseEvent(g, s))
    ensures s in g.owner ==> StreamsMapped(g.(destroyed := g.destroyed + {s}))
  {
  }

  lemma EnqueueFiles(v: Waiters, id: string)
    requires WaitersMapped(v) && v.next !in v.timers
    ensures WaitersMapped(Enqueue(v, id))
  {
    var v' := Enqueue(v, id);
    var ref := v'.mapped[id];
    forall other, w | other in v'.mapped && w in Members(v', v'.mapped[other])
      ensures w in v'.timers && v'.timers[w].id == other {
      if other != id {
        assert v'.mapped[other] != ref && Members(v', v'.mapped[other]) == Members(v, v.mapped[other]);
      }
    }
    forall w | w in v'.timers ensures Filed(v', w) {
      if w != v.next {
        assert Filed(v, w);
      }
    }
  }

  lemma EnqueueKeeps(v: Waiters, id: string)
    requires WaitersMapped(v) && SettledOnce(v)
    ensures WaitersMapped(Enqueue(v, id)) && SettledOnce(Enqueue(v, id))
  {
    assert v.next !in v.timers;
    EnqueueFiles(v, id);
  }

  lemma TimeoutFiles(v: Waiters, w: Waiter)
    requires WaitersMapped(v) && w in v.timers
    ensures AllFiled(Timeout(v, w))
  {
    var v' := Timeout(v, w);
    assert Filed(v, w);
    forall x | x in v'.timers ensures Filed(v', x) {
      assert Filed(v, x);
      assert v.timers[x].id != v.timers[w].id || x in Members(v, v.timers[w].captured) - {w};
    }
  }

  lemma TimeoutMaps(v: Waiters, w: Waiter)
    requires WaitersMapped(v) && w in v.timers
    ensures SetsMapped(Timeout(v, w))
  {
    assert Filed(v, w);
  }

  lemma TimeoutArms(v: Waiters, w: Waiter)
    requires WaitersMapped(v) && w in v.timers
    ensures MembersArmed(Timeout(v, w))
  {
    assert Filed(v, w);
    var v' := Timeout(v, w);
    forall id, x | id in v'.mapped && x in Members(v', v'.mapped[id]) ensures x in v'.timers && v'.timers[x].id == id {
      assert x in Members(v, v.mapped[id]);
    }
  }

  lemma TimeoutKeeps(v: Waiters, w: Waiter)
    requires WaitersMapped(v) && SettledOnce(v) && w in v.timers
    ensures WaitersMapped(Timeout(v, w)) && SettledOnce(Timeout(v, w))
  {
    TimeoutFiles(v, w);
    TimeoutMaps(v, w);
    TimeoutArms(v, w);
  }

  lemma WokenAreTheId(v: Waiters, id: string, w: Waiter)
    requires WaitersMapped(v) && id in v.mapped && w in v.timers
    ensures w in Members(v, v.mapped[id]) <==> v.timers[w].id == id
  {
    assert Filed(v, w);
  }

  lemma WakeFiles(v: Waiters, id: string, s: Stream)
    requires WaitersMapped(v) && id in v.mapped
    ensures AllFiled(Wake(v, id, s))
  {
    var v' := Wake(v, id, s);
    forall w | w in v'.timers ensures Filed(v', w) {
      WokenAreTheId(v, id, w);
      assert Filed(v, w);
    }
  }

  lemma WakeArms(v: Waiters, id: string, s: Stream)
    requires WaitersMapped(v) && id in v.mapped
    ensures MembersArmed(Wake(v, id, s))
  {
    var v' := Wake(v, id, s);
    forall other, w | other in v'.mapped && w in Members(v', v'.mapped[other])
      ensures w in v'.timers && v'.timers[w].id == other
    {
      assert w in Members(v, v.mapped[other]);
      WokenAreTheId(v, id, w);
    }
  }

  lemma WakeKeepsMapped(v: Waiters, id: string, s: Stream)
    requires WaitersMapped(v)
    ensures WaitersMapped(Wake(v, id, s))
  {
    if id in v.mapped {
      WakeFiles(v, id, s);
      WakeArms(v, id, s);
      assert SetsMapped(Wake(v, id, s));
    }
  }

  lemma WakeSettles(v: Waiters, id: string, s: Stream, w: Waiter)
    requires WaitersMapped(v) && w in v.timers
    ensures var v' := Wake(v, id, s);
            && (w in v'.timers <==> v.timers[w].id != id)
            && (w in v'.timers ==> v'.timers[w] == v.timers[w])
            && (v.timers[w].id == id ==> w in v'.settled && v'.settled[w] == Resolved(s))
  {
    assert Filed(v, w);
    if id in v.mapped {
      WokenAreTheId(v, id, w);
    }
  }

  lemma WakeKeepsSettled(v: Waiters, id: string, s: Stream)
    requires WaitersMapped(v) && SettledOnce(v)
    ensures SettledOnce(Wake(v, id, s))
  {
  }

  lemma SettleKeeps(v: Waiters, outcome: Outcome)
    requires WaitersMapped(v) && SettledOnce(v)
    ensures var v' := SettleOne(v.(next := v.next + 1), v.next, outcome);
            WaitersMapped(v') && SettledOnce(v') && v'.timers == v.timers
  {
  }

  lemma UpgradeKeepsWakeup(r: Registry, id: string)
    requires Inv(r) && !HasLive(r.regs, id)
    ensures NoLostWakeup(Upgrade(r, id))
  {
    var r' := Upgrade(r, id);
    RegisterKeeps(r.regs, id);
    forall w | w in r'.waits.timers ensures !HasLive(r'.regs, r'.waits.timers[w].id) {
      WakeSettles(r.waits, id, r.regs.next, w);
    }
  }

  lemma StepKeepsInv(r: Registry, e: Event)
    requires Inv(r) && Enabled(r, e)
    ensures Inv(Step(r, e))
  {
    match e
    case DoWait(id) =>
      if HasLive(r.regs, id) {
        SettleKeeps(r.waits, Resolved(r.regs.mapped[id]));
      } else {
        EnqueueKeeps(r.waits, id);
      }
    case DoTimeout(w) => TimeoutKeeps(r.waits, w);
    case DoUpgrade(id) =>
      if !HasLive(r.regs, id) {
        RegisterKeeps(r.regs, id);
        WakeKeepsMapped(r.waits, id, r.regs.next);
        WakeKeepsSettled(r.waits, id, r.regs.next);
        UpgradeKeepsWakeup(r, id);
      }
    case DoDrop(id) => RemovalKeeps(r.regs, id, 0);
    case DoDestroy(s) => RemovalKeeps(r.regs, "", s);
    case DoClose(s) => RemovalKeeps(r.regs, "", s);
  }

  /** Over every run before shutdown, all four hold. */
  lemma {:induction false} EveryRunKeepsInv(r: Registry, events: seq<Event>)
    requires Inv(r) && IsRun(r, events)
    ensures Inv(Run(r, events))
    decreases |events|
  {
    if events != [] {
      StepKeepsInv(r, events[0]);
      EveryRunKeepsInv(Step(r, events[0]), events[1..]);
    }
  }

  lemma CloseRemovesOnlyItself(g: Registrations, s: Stream, id: string)
    requires StreamsMapped(g) && s in g.owner && s in g.destroyed
    ensures var g' := CloseEvent(g, s);
            && (id in g'.mapped <==> id in g.mapped && g.mapped[id] != s)
            && (id in g'.mapped ==> g'.mapped[id] == g.mapped[id])
            && (HasLive(g', id) <==> HasLive(g, id))
  {
  }

  /** In every run, a close event fires once and removes at most its own stream: a newer registration stays live. */
  lemma StaleCloseIsHarmless(events: seq<Event>, s: Stream, id: string)
    requires IsRun(Empty, events) && Enabled(Run(Empty, events), DoClose(s))
    ensures var r, r' := Run(Empty, events), Step(Run(Empty, events), DoClose(s));
            && r'.waits == r.waits && !Enabled(r', DoClose(s))
            && (id in r'.regs.mapped <==> id in r.regs.mapped && r.regs.mapped[id] != s)
            && (id in r'.regs.mapped ==> r'.regs.mapped[id] == r.regs.mapped[id])
            && (HasLive(r'.regs, id) <==> HasLive(r.regs, id))
  {
    EveryRunKeepsInv(Empty, events);
    CloseRemovesOnlyItself(Run(Empty, events).regs, s, id);
  }

  /** In every run, a registration wakes exactly the waiters pending for its id, with its own live stream. */
  lemma RegistrationWakesAll(events: seq<Event>, id: string, w: Waiter)
    requires IsRun(Empty, events) && !HasLive(Run(Empty, events).regs, id) && w in Run(Empty, events).waits.timers
    ensures var r, r' := Run(Empty, events), Upgrade(Run(Empty, events), id);
            && HasLive(r'.regs, id)
            && (w in r'.waits.timers <==> r.waits.timers[w].id != id)
            && (r.waits.timers[w].id == id ==>
                  w in r'.waits.settled && r'.waits.settled[w] == Resolved(r'.regs.mapped[id]))
  {
    EveryRunKeepsInv(Empty, events);
    RegisterKeeps(Run(Empty, events).regs, id);
    WakeSettles(Run(Empty, events).waits, id, Run(Empty, events).regs.next, w);
  }

  // ---- What each event does to ids and waiters, in every run ------------------------------------

  /**
   * In every run, an id has a live registration after an event exactly when it had one that the event
   * neither dropped nor destroyed, or the event registered it; and it keeps its stream meanwhile.
   */
  lemma LiveExactly(events: seq<Event>, e: Event, id: string)
    requires IsRun(Empty, events) && Enabled(Run(Empty, events), e)
    ensures var r, r' := Run(Empty, events), Step(Run(Empty, events), e);
            && (HasLive(r'.regs, id) <==>
                  || e == DoUpgrade(id)
                  || (HasLive(r.regs, id) && e != DoDrop(id) && e != DoDestroy(r.regs.mapped[id])))
            && (HasLive(r.regs, id) && HasLive(r'.regs, id) ==> r'.regs.mapped[id] == r.regs.mapped[id])
            && (!HasLive(r.regs, id) && HasLive(r'.regs, id) ==> r'.regs.mapped[id] !in r.regs.owner)
  {
    EveryRunKeepsInv(Empty, events);
    if e.DoClose? {
      CloseRemovesOnlyItself(Run(Empty, events).regs, e.s, id);
    }
  }

  /**
   * In every run, a drop unmaps its id and destroys the stream it had, leaves every other id and all
   * waiters alone, and lets the next upgrade of that id in, on a stream of its own.
   */
  lemma DropForgets(events: seq<Event>, id: string)
    requires IsRun(Empty, events)
    ensures var r, r' := Run(Empty, events), Step(Run(Empty, events), DoDrop(id));
            && id !in r'.regs.mapped && r'.waits == r.waits && r'.regs.mapped == r.regs.mapped - {id}
            && r'.regs.destroyed == r.regs.destroyed + (if id in r.regs.mapped then {r.regs.mapped[id]} else {})
            && var next := Step(r', DoUpgrade(id)).regs;
               HasLive(next, id) && next.mapped[id] !in r.regs.owner
  {
    EveryRunKeepsInv(Empty, events);
  }

  /**
   * In every run, a call for a live id gets that id's stream at once, and any other call waits under
   * its id; no other waiter notices.
   */
  lemma WaitIsAnsweredOrFiled(events: seq<Event>, id: string, other: Waiter)
    requires IsRun(Empty, events)
    ensures var r, r' := Run(Empty, events), Step(Run(Empty, events), DoWait(id));
            var w := r.waits.next;
            && w !in r.waits.timers && w !in r.waits.settled && r'.regs == r.regs
            && (HasLive(r.regs, id) ==>
                  && w in r'.waits.settled && r'.waits.settled[w] == Resolved(r.regs.mapped[id])
                  && w !in r'.waits.timers)
            && (!HasLive(r.regs, id) ==>
                  w in r'.waits.timers && r'.waits.timers[w].id == id && w !in r'.waits.settled)
            && (other != w ==> SameWaiter(r.waits, r'.waits, other))
  {
    EveryRunKeepsInv(Empty, events);
    StepKeepsInv(Run(Empty, events), DoWait(id));
  }

  /** The waiter is as it was: armed for the same id, settled with the same outcome, or unknown. */
  predicate SameWaiter(v: Waiters, v': Waiters, w: Waiter)
  {
    && (w in v.timers <==> w in v'.timers) && (w in v.timers ==> v'.timers[w] == v.timers[w])
    && (w in v.settled <==> w in v'.settled) && (w in v.settled ==> v'.settled[w] == v.settled[w])
  }

  lemma WakeLeavesSettled(v: Waiters, id: string, s: Stream, w: Waiter)
    requires WaitersMapped(v) && SettledOnce(v) && w in v.settled
    ensures var v' := Wake(v, id, s);
            w in v'.settled && v'.settled[w] == v.settled[w] && w !in v'.timers
  {
    if id in v.mapped {
      assert w !in Members(v, v.mapped[id]);
    }
  }

  lemma SettledStep(r: Registry, e: Event, w: Waiter)
    requires Inv(r) && Enabled(r, e) && w in r.waits.settled
    ensures var r' := Step(r, e);
            w in r'.waits.settled && r'.waits.settled[w] == r.waits.settled[w] && w !in r'.waits.timers
  {
    assert w !in r.waits.timers && w < r.waits.next;
    if e.DoUpgrade? {
      WakeLeavesSettled(r.waits, e.id, r.regs.next, w);
    }
  }

  /** In every run, once a call has settled, no event changes its outcome or arms it again. */
  lemma SettledStays(events: seq<Event>, e: Event, w: Waiter)
    requires IsRun(Empty, events) && Enabled(Run(Empty, events), e) && w in Run(Empty, events).waits.settled
    ensures var r, r' := Run(Empty, events), Step(Run(Empty, events), e);
            w in r'.waits.settled && r'.waits.settled[w] == r.waits.settled[w] && w !in r'.waits.timers
  {
    EveryRunKeepsInv(Empty, events);
    SettledStep(Run(Empty, events), e, w);
  }

  /** In every run, a timer that fires times its own waiter out, and touches no other waiter or registration. */
  lemma TimeoutSettlesItsOwn(events: seq<Event>, w: Waiter, other: Waiter)
    requires IsRun(Empty, events) && Enabled(Run(Empty, events), DoTimeout(w)) && other != w
    ensures var r, r' := Run(Empty, events), Step(Run(Empty, events), DoTimeout(w));
            && w in r'.waits.settled && r'.waits.settled[w] == TimedOut && w !in r'.waits.timers
            && SameWaiter(r.waits, r'.waits, other) && r'.regs == r.regs
  {
  }

  // ---- The object -------------------------------------------------------------------------

  class TunnelServer {
    var registrations: map<string, Stream>
    var destroyed: set<Stream>
    var waiters: map<string, SetRef>
    var sets: map<SetRef, set<Waiter>>
    var timers: map<Waiter, Timer>
    var nextStream: Stream
    var nextWaiter: Waiter
    ghost var owner: map<Stream, string>
    ghost var closed: set<Stream>
    ghost var settled: map<Waiter, Outcome>
    ghost var settledTwice: bool

    ghost function Regs(): Registrations
      reads this
    {
      Registrations(registrations, owner, destroyed, closed, nextStream)
    }

    ghost function Waits(): Waiters
      reads this
    {
      Waiters(waiters, sets, timers, settled, settledTwice, nextWaiter)
    }

    ghost function State(): Registry
      reads this
    {
      Registry(Regs(), Waits())
    }

    constructor ()
      ensures State() == Empty
    {
      registrations, destroyed, waiters, sets, timers := map[], {}, map[], map[], map[];
      nextStream, nextWaiter := 0, 0;
      owner, closed, settled, settledTwice := map[], {}, map[], false;
    }

    /** An absent result is a promise still pending. */
    method WaitFor(id: string) returns (result: Option<Stream>)
      modifies this
      ensures State() == Step(old(State()), DoWait(id))
      ensures result.Some? <==> HasLive(old(Regs()), id)
      ensures result.Some? ==> result.value == registrations[id] && registrations[id] !in destroyed
    {
      var w := nextWaiter;
      nextWaiter := nextWaiter + 1;
      if id in registrations && registrations[id] !in destroyed {
        settledTwice := settledTwice || w in settled;
        settled := settled[w := Resolved(registrations[id])];
        return Some(registrations[id]);
      }
      var ref := if id in waiters then waiters[id] else w;
      sets := sets[ref := (if id in waiters && ref in sets then sets[ref] else {}) + {w}];
      waiters := waiters[id := ref];
      timers := timers[w := Timer(ref, id)];
      result := None;
    }

    method OnTimeout(w: Waiter)
      requires w in timers
      modifies this
      ensures State() == Step(old(State()), DoTimeout(w))
    {
      var t := timers[w];
      timers := timers - {w};
      var members := (if t.captured in sets then sets[t.captured] else {}) - {w};
      sets := sets[t.captured := members];
      if members == {} {
        waiters := waiters - {t.id};
      }
      settledTwice := settledTwice || w in settled;
      settled := settled[w := TimedOut];
    }

    method Drop(id: string)
      modifies this
      ensures State() == Step(old(State()), DoDrop(id))
    {
      if id !in registrations {
        return;
      }
      var s := registrations[id];
      registrations := registrations - {id};
      destroyed := destroyed + {s};
    }

    /** The duplicate check and `register` are one step: the upgrade callback runs synchronously. */
    method OnUpgrade(id: string) returns (admitted: bool)
      modifies this
      ensures State() == Step(old(State()), DoUpgrade(id))
      ensures admitted <==> !HasLive(old(Regs()), id)
    {
      if id in registrations && registrations[id] !in destroyed {
        return false;
      }
      admitted := true;
      var s := nextStream;
      nextStream := nextStream + 1;
      registrations, owner := registrations[id := s], owner[s := id];
      WakeWaiters(id, s);
    }

    method WakeWaiters(id: string, s: Stream)
      modifies this`waiters, this`timers, this`settled, this`settledTwice
      ensures Waits() == Wake(old(Waits()), id, s)
    {
      if id in waiters {
        var members := if waiters[id] in sets then sets[waiters[id]] else {};
        waiters := waiters - {id};
        timers := timers - members;
        settledTwice := settledTwice || exists w :: w in members && w in settled;
        settled := settled + map w | w in members :: Resolved(s);
      }
    }

    method OnClose(s: Stream, id: string)
      requires Enabled(State(), DoClose(s)) && owner[s] == id
      modifies this
      ensures State() == Step(old(State()), DoClose(s))
    {
      if id in registrations && registrations[id] == s {
        registrations := registrations - {id};
      }
      closed := closed + {s};
    }
  }
}

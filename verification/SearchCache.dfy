/**
 * The "@" search cache: snapshots, single-flight fetches and invalidation counters
 * (control-plane/src/workspaces/file-reference.ts:160-191, 228-292).
 *
 * A fetch is a promise; the model numbers them. One step is one synchronous stretch of the code: a
 * query up to its await, a tool result, a fetch settling, an agent or the service going away.
 */
module SearchCache {
  import opened Prelude

  // ---- The cache fields --------------------------------------------------------------------

  /** A settled tree. `fetch` names the fetch that produced it; the code does not keep it. */
  datatype Snapshot<+E> = Snapshot(entries: seq<E>, startedAt: nat, fetch: nat)

  datatype Cache<!A, +E> = Cache(
    snapshots: map<A, Snapshot<E>>,
    refreshes: map<A, nat>,
    invalidations: map<A, nat>,
    disposed: bool)

  /** What a query gets: nothing after disposal, a settled snapshot, or the promise of a fetch. */
  datatype Answer<+E> = Nothing | Settled(snapshot: Snapshot<E>, stale: bool) | Waits(fetch: nat)

  function Count<A>(counters: map<A, nat>, agent: A): nat
  {
    if agent in counters then counters[agent] else 0
  }

  /** invalidate */
  function Invalidate<A, E>(cache: Cache<A, E>, agent: A): Cache<A, E>
  {
    cache.(invalidations := cache.invalidations[agent := Count(cache.invalidations, agent) + 1])
  }

  /** refresh up to its return: the fetch to wait for, `next` when it starts one. */
  function Refresh<A, E>(cache: Cache<A, E>, agent: A, next: nat): (Cache<A, E>, nat)
  {
    if agent in cache.refreshes then (cache, cache.refreshes[agent])
    else (cache.(refreshes := cache.refreshes[agent := next]), next)
  }

  predicate Stale<A, E>(cache: Cache<A, E>, agent: A)
  {
    agent !in cache.snapshots || cache.snapshots[agent].startedAt < Count(cache.invalidations, agent)
  }

  /** list's disposed check, then snapshot up to its first await. */
  function Query<A, E>(cache: Cache<A, E>, agent: A, preferFresh: bool, next: nat): (Cache<A, E>, Answer<E>)
  {
    if cache.disposed then (cache, Nothing)
    else if !Stale(cache, agent) then (cache, Settled(cache.snapshots[agent], false))
    else
      var (refreshed, fetch) := Refresh(cache, agent, next);
      if preferFresh || agent !in cache.snapshots then (refreshed, Waits(fetch))
      else (refreshed, Settled(cache.snapshots[agent], true))
  }

  /** The fetch's `then`: `index` is undefined when the session has no sandbox. */
  function Fetched<A, E>(cache: Cache<A, E>, agent: A, startedAt: nat, fetch: nat, index: Option<seq<E>>): Cache<A, E>
  {
    var settled := cache.(refreshes := cache.refreshes - {agent});
    if cache.disposed || index.None? then settled
    else settled.(snapshots := settled.snapshots[agent := Snapshot(index.value, startedAt, fetch)])
  }

  /** What the fetch's promise settles with, for every query that waits for it. */
  function SettledWith<A, E>(cache: Cache<A, E>, startedAt: nat, fetch: nat, index: Option<seq<E>>): Snapshot<E>
  {
    Snapshot(if cache.disposed || index.None? then [] else index.value, startedAt, fetch)
  }

  function Failed<A, E>(cache: Cache<A, E>, agent: A): Cache<A, E>
  {
    cache.(refreshes := cache.refreshes - {agent})
  }

  function AgentDisposed<A, E>(cache: Cache<A, E>, agent: A): Cache<A, E>
  {
    Cache(cache.snapshots - {agent}, cache.refreshes - {agent}, cache.invalidations - {agent}, cache.disposed)
  }

  function Disposed<A, E>(cache: Cache<A, E>): Cache<A, E>
  {
    Cache(map[], map[], map[], true)
  }

  // ---- Whole runs --------------------------------------------------------------------------

  /** What happened, in order. */
  datatype Note<+A> = Began(fetch: nat, agent: A) | Changed(agent: A) | Answered(agent: A, fetch: nat)

  datatype Fetch<+A> = Fetch(agent: A, startedAt: nat)

  /** The cache, the fetches still in flight, the agents that were disposed and the log so far. */
  datatype System<!A, +E> = System(
    cache: Cache<A, E>, fetches: map<nat, Fetch<A>>, next: nat, gone: set<A>, log: seq<Note<A>>)

  datatype Event<+A, +E> =
    | Asked(agent: A, preferFresh: bool)
    | ToolResult(agent: A)
    | FetchDone(fetch: nat, index: Option<seq<E>>)
    | FetchFailed(fetch: nat)
    | AgentGone(agent: A)
    | ServiceGone

  function Initial<A, E>(): System<A, E>
  {
    System(Cache(map[], map[], map[], false), map[], 0, {}, [])
  }

  /** A query: a fetch it starts captures the counter, and a snapshot it gets as fresh is logged. */
  function Ask<A, E>(s: System<A, E>, agent: A, preferFresh: bool): System<A, E>
  {
    var (cache, answer) := Query(s.cache, agent, preferFresh, s.next);
    var started := agent !in s.cache.refreshes && agent in cache.refreshes;
    System(
      cache,
      if started then s.fetches[s.next := Fetch(agent, Count(cache.invalidations, agent))] else s.fetches,
      if started then s.next + 1 else s.next,
      s.gone,
      s.log + (if started then [Began(s.next, agent)]
               else if answer.Settled? && !answer.stale then [Answered(agent, answer.snapshot.fetch)]
               else []))
  }

  function Step<A, E>(s: System<A, E>, event: Event<A, E>): System<A, E>
  {
    match event
    case Asked(agent, preferFresh) => Ask(s, agent, preferFresh)
    case ToolResult(agent) => s.(cache := Invalidate(s.cache, agent), log := s.log + [Changed(agent)])
    case FetchDone(fetch, index) =>
      if fetch !in s.fetches then s else
      var task := s.fetches[fetch];
      s.(cache := Fetched(s.cache, task.agent, task.startedAt, fetch, index), fetches := s.fetches - {fetch})
    case FetchFailed(fetch) =>
      if fetch !in s.fetches then s else
      s.(cache := Failed(s.cache, s.fetches[fetch].agent), fetches := s.fetches - {fetch})
    case AgentGone(agent) => s.(cache := AgentDisposed(s.cache, agent), gone := s.gone + {agent})
    case ServiceGone => s.(cache := Disposed(s.cache))
  }

  function Run<A, E>(s: System<A, E>, events: seq<Event<A, E>>): System<A, E>
  {
    if events == [] then s else Step(Run(s, events[..|events| - 1]), events[|events| - 1])
  }

  // ---- Reading the log ---------------------------------------------------------------------

  /** Tool results of one agent in a stretch of the log. */
  ghost function Changes<A>(log: seq<Note<A>>, agent: A): nat
  {
    if log == [] then 0 else
    Changes(log[..|log| - 1], agent) + if log[|log| - 1] == Changed(agent) then 1 else 0
  }

  /** The fetch began for the agent when it had seen exactly `startedAt` tool results. */
  ghost predicate BeganWith<A>(log: seq<Note<A>>, fetch: nat, agent: A, startedAt: nat)
  {
    exists p | 0 <= p < |log| :: log[p] == Began(fetch, agent) && Changes(log[..p], agent) == startedAt
  }

  /** Every fresh answer came from a fetch that began earlier, with no tool result since. */
  ghost predicate FreshAnswers<A>(log: seq<Note<A>>, gone: set<A>)
  {
    forall k | 0 <= k < |log| && log[k].Answered? && log[k].agent !in gone ::
        NothingSince(log[..k], log[k].fetch, log[k].agent)
  }

  ghost predicate NothingSince<A>(log: seq<Note<A>>, fetch: nat, agent: A)
  {
    exists p | 0 <= p < |log| :: log[p] == Began(fetch, agent) && forall q | p < q < |log| :: log[q] != Changed(agent)
  }

  lemma ChangesExtends<A>(log: seq<Note<A>>, note: Note<A>, agent: A)
    ensures Changes(log + [note], agent) == Changes(log, agent) + if note == Changed(agent) then 1 else 0
  {
    assert (log + [note])[..|log|] == log;
  }

  lemma {:induction false} ChangesMonotone<A>(log: seq<Note<A>>, p: nat, agent: A)
    requires p <= |log|
    ensures Changes(log[..p], agent) <= Changes(log, agent)
    ensures Changes(log[..p], agent) == Changes(log, agent) ==> forall q | p <= q < |log| :: log[q] != Changed(agent)
    decreases |log|
  {
    if p < |log| {
      var init := log[..|log| - 1];
      assert init[..p] == log[..p];
      ChangesMonotone(init, p, agent);
    } else {
      assert log[..p] == log;
    }
  }

  lemma BeganWithExtends<A>(log: seq<Note<A>>, note: Note<A>, fetch: nat, agent: A, startedAt: nat)
    requires BeganWith(log, fetch, agent, startedAt)
    ensures BeganWith(log + [note], fetch, agent, startedAt)
  {
    var p :| 0 <= p < |log| && log[p] == Began(fetch, agent) && Changes(log[..p], agent) == startedAt;
    assert (log + [note])[..p] == log[..p];
    assert (log + [note])[p] == Began(fetch, agent);
  }

  // ---- The invariant -----------------------------------------------------------------------

  /** Live agents' counters count their tool results. */
  ghost predicate CountersTrue<A(!new), E>(cache: Cache<A, E>, gone: set<A>, log: seq<Note<A>>)
  {
    !cache.disposed ==> forall a | a !in gone :: Count(cache.invalidations, a) == Changes(log, a)
  }

  /** A live agent's fetch in flight is the one its refresh entry names, and the other way round. */
  ghost predicate SingleFlight<A(!new), E>(cache: Cache<A, E>, fetches: map<nat, Fetch<A>>, gone: set<A>)
  {
    && (forall a | a in cache.refreshes && a !in gone ::
          cache.refreshes[a] in fetches && fetches[cache.refreshes[a]].agent == a)
    && (!cache.disposed ==> forall f | f in fetches && fetches[f].agent !in gone ::
          fetches[f].agent in cache.refreshes && cache.refreshes[fetches[f].agent] == f)
  }

  ghost predicate FetchesTrue<A>(fetches: map<nat, Fetch<A>>, next: nat, gone: set<A>, log: seq<Note<A>>)
  {
    && (forall f | f in fetches :: f < next)
    && (forall f | f in fetches && fetches[f].agent !in gone ::
          BeganWith(log, f, fetches[f].agent, fetches[f].startedAt))
  }

  ghost predicate SnapshotsTrue<A(!new), E>(cache: Cache<A, E>, gone: set<A>, log: seq<Note<A>>)
  {
    forall a | a in cache.snapshots && a !in gone ::
      BeganWith(log, cache.snapshots[a].fetch, a, cache.snapshots[a].startedAt)
  }

  /** A fetch in flight started no earlier than the snapshot it will replace, and not in the future. */
  ghost predicate StartsOrdered<A(!new), E>(cache: Cache<A, E>, fetches: map<nat, Fetch<A>>, gone: set<A>)
  {
    && (forall a | a in cache.snapshots && a !in gone && !cache.disposed ::
          cache.snapshots[a].startedAt <= Count(cache.invalidations, a))
    && (forall f | f in fetches && fetches[f].agent !in gone && !cache.disposed ::
          && fetches[f].startedAt <= Count(cache.invalidations, fetches[f].agent)
          && (fetches[f].agent in cache.snapshots ==>
                cache.snapshots[fetches[f].agent].startedAt <= fetches[f].startedAt))
  }

  /** No number is given to two fetches. */
  ghost predicate BegunOnce<A>(log: seq<Note<A>>, next: nat)
  {
    && (forall p | 0 <= p < |log| && log[p].Began? :: log[p].fetch < next)
    && (forall p, q | 0 <= p < q < |log| && log[p].Began? && log[q].Began? :: log[p].fetch != log[q].fetch)
  }

  ghost predicate Inv<A(!new), E>(s: System<A, E>)
  {
    && BegunOnce(s.log, s.next)
    && CountersTrue(s.cache, s.gone, s.log)
    && SingleFlight(s.cache, s.fetches, s.gone)
    && FetchesTrue(s.fetches, s.next, s.gone, s.log)
    && SnapshotsTrue(s.cache, s.gone, s.log)
    && StartsOrdered(s.cache, s.fetches, s.gone)
    && FreshAnswers(s.log, s.gone)
  }

  /** One more note keeps what the log says of fetches and snapshots. */
  lemma NoteKeeps<A(!new), E>(s: System<A, E>, note: Note<A>)
    requires Inv(s)
    requires note.Answered? && note.agent !in s.gone ==> NothingSince(s.log, note.fetch, note.agent)
    ensures FetchesTrue(s.fetches, s.next, s.gone, s.log + [note])
    ensures SnapshotsTrue(s.cache, s.gone, s.log + [note])
    ensures FreshAnswers(s.log + [note], s.gone)
  {
    forall f | f in s.fetches && s.fetches[f].agent !in s.gone
      ensures BeganWith(s.log + [note], f, s.fetches[f].agent, s.fetches[f].startedAt)
    {
      BeganWithExtends(s.log, note, f, s.fetches[f].agent, s.fetches[f].startedAt);
    }
    forall a | a in s.cache.snapshots && a !in s.gone
      ensures BeganWith(s.log + [note], s.cache.snapshots[a].fetch, a, s.cache.snapshots[a].startedAt)
    {
      BeganWithExtends(s.log, note, s.cache.snapshots[a].fetch, a, s.cache.snapshots[a].startedAt);
    }
    var log := s.log + [note];
    forall k | 0 <= k < |log| && log[k].Answered? && log[k].agent !in s.gone
      ensures NothingSince(log[..k], log[k].fetch, log[k].agent)
    {
      if k < |s.log| {
        assert log[..k] == s.log[..k] && log[k] == s.log[k];
      } else {
        assert log[..k] == s.log;
      }
    }
  }

  lemma CountsExtend<A(!new)>(log: seq<Note<A>>, note: Note<A>)
    ensures forall a :: Changes(log + [note], a) == Changes(log, a) + if note == Changed(a) then 1 else 0
  {
    forall a ensures Changes(log + [note], a) == Changes(log, a) + if note == Changed(a) then 1 else 0 {
      ChangesExtends(log, note, a);
    }
  }

  /** A snapshot whose counter is current comes from a fetch with no tool result since. */
  lemma CurrentMeansNothingSince<A(!new), E>(s: System<A, E>, agent: A)
    requires Inv(s) && !s.cache.disposed && agent !in s.gone && !Stale(s.cache, agent)
    ensures NothingSince(s.log, s.cache.snapshots[agent].fetch, agent)
  {
    var snapshot := s.cache.snapshots[agent];
    var p :| 0 <= p < |s.log| && s.log[p] == Began(snapshot.fetch, agent)
        && Changes(s.log[..p], agent) == snapshot.startedAt;
    ChangesMonotone(s.log, p, agent);
  }

  /** A query that hits only adds its answer to the log. */
  lemma HitKeepsInv<A(!new), E>(s: System<A, E>, agent: A, preferFresh: bool)
    requires Inv(s) && !s.cache.disposed && !Stale(s.cache, agent)
    ensures Inv(Ask(s, agent, preferFresh))
  {
    var note := Answered(agent, s.cache.snapshots[agent].fetch);
    assert Ask(s, agent, preferFresh) == s.(log := s.log + [note]);
    if agent !in s.gone {
      CurrentMeansNothingSince(s, agent);
    }
    NoteKeeps(s, note);
    CountsExtend(s.log, note);
  }

  /** A stale query with no fetch in flight starts one and adds that to the log. */
  function Started<A, E>(s: System<A, E>, agent: A): System<A, E>
  {
    System(s.cache.(refreshes := s.cache.refreshes[agent := s.next]),
           s.fetches[s.next := Fetch(agent, Count(s.cache.invalidations, agent))],
           s.next + 1, s.gone, s.log + [Began(s.next, agent)])
  }

  lemma StartedTask<A(!new), E>(s: System<A, E>, agent: A)
    requires Inv(s) && !s.cache.disposed
    ensures FetchesTrue(Started(s, agent).fetches, s.next + 1, s.gone, Started(s, agent).log)
  {
    var note := Began(s.next, agent);
    NoteKeeps(s, note);
    assert Started(s, agent).log[..|s.log|] == s.log && Started(s, agent).log[|s.log|] == note;
    assert agent !in s.gone ==> BeganWith(Started(s, agent).log, s.next, agent, Count(s.cache.invalidations, agent));
  }

  lemma StartedFlight<A(!new), E>(s: System<A, E>, agent: A)
    requires Inv(s) && !s.cache.disposed && Stale(s.cache, agent) && agent !in s.cache.refreshes
    ensures SingleFlight(Started(s, agent).cache, Started(s, agent).fetches, s.gone)
    ensures StartsOrdered(Started(s, agent).cache, Started(s, agent).fetches, s.gone)
  {
    assert s.next !in s.fetches;
  }

  lemma StartKeepsInv<A(!new), E>(s: System<A, E>, agent: A)
    requires Inv(s) && !s.cache.disposed && Stale(s.cache, agent) && agent !in s.cache.refreshes
    ensures Inv(Started(s, agent))
  {
    NoteKeeps(s, Began(s.next, agent));
    CountsExtend(s.log, Began(s.next, agent));
    StartedTask(s, agent);
    StartedFlight(s, agent);
    assert BegunOnce(Started(s, agent).log, s.next + 1);
  }

  lemma AskKeepsInv<A(!new), E>(s: System<A, E>, agent: A, preferFresh: bool)
    requires Inv(s)
    ensures Inv(Ask(s, agent, preferFresh))
  {
    var next := Ask(s, agent, preferFresh);
    if s.cache.disposed {
      assert next == s;
    } else if !Stale(s.cache, agent) {
      HitKeepsInv(s, agent, preferFresh);
    } else if agent in s.cache.refreshes {
      assert next == s;
    } else {
      assert next == Started(s, agent);
      StartKeepsInv(s, agent);
    }
  }

  lemma ToolResultKeepsInv<A(!new), E>(s: System<A, E>, agent: A)
    requires Inv(s)
    ensures Inv(Step(s, ToolResult(agent)))
  {
    NoteKeeps(s, Changed(agent));
    CountsExtend(s.log, Changed(agent));
  }

  lemma FetchDoneKeepsInv<A(!new), E>(s: System<A, E>, fetch: nat, index: Option<seq<E>>)
    requires Inv(s)
    ensures Inv(Step(s, FetchDone(fetch, index)))
  {
  }

  lemma FetchFailedKeepsInv<A(!new), E>(s: System<A, E>, fetch: nat)
    requires Inv(s)
    ensures Inv(Step(s, FetchFailed(fetch)))
  {
  }

  lemma AgentGoneKeepsInv<A(!new), E>(s: System<A, E>, agent: A)
    requires Inv(s)
    ensures Inv(Step(s, AgentGone(agent)))
  {
  }

  lemma StepKeepsInv<A(!new), E>(s: System<A, E>, event: Event<A, E>)
    requires Inv(s)
    ensures Inv(Step(s, event))
  {
    match event
    case Asked(agent, preferFresh) => AskKeepsInv(s, agent, preferFresh);
    case ToolResult(agent) => ToolResultKeepsInv(s, agent);
    case FetchDone(fetch, index) => FetchDoneKeepsInv(s, fetch, index);
    case FetchFailed(fetch) => FetchFailedKeepsInv(s, fetch);
    case AgentGone(agent) => AgentGoneKeepsInv(s, agent);
    case ServiceGone =>
  }

  lemma {:induction false} RunKeepsInv<A(!new), E>(events: seq<Event<A, E>>)
    ensures Inv(Run(Initial<A, E>(), events))
  {
    if events != [] {
      RunKeepsInv(events[..|events| - 1]);
      StepKeepsInv(Run(Initial(), events[..|events| - 1]), events[|events| - 1]);
    }
  }

  // ---- Main results ------------------------------------------------------------------------

  /**
   * In every run, a snapshot a query got as not stale was fetched after the agent's last tool
   * result, and a live agent never has two fetches in flight.
   */
  lemma EveryRunIsCoherent<A(!new), E>(events: seq<Event<A, E>>)
    ensures var s := Run(Initial<A, E>(), events);
            && FreshAnswers(s.log, s.gone)
            && forall f, g | f in s.fetches && g in s.fetches && s.fetches[f].agent == s.fetches[g].agent
                             && s.fetches[f].agent !in s.gone && !s.cache.disposed :: f == g
  {
    RunKeepsInv(events);
  }

  /** The cached start counter of a live agent never goes backwards. */
  lemma StartNeverGoesBack<A(!new), E>(s: System<A, E>, event: Event<A, E>, agent: A)
    requires Inv(s) && agent in s.cache.snapshots
    requires !Step(s, event).cache.disposed && agent !in Step(s, event).gone
    ensures agent in Step(s, event).cache.snapshots
    ensures s.cache.snapshots[agent].startedAt <= Step(s, event).cache.snapshots[agent].startedAt
  {
  }

  /** Anything but the agent's own tool results, its disposal and the service's. */
  predicate LeavesAlone<A(==), E>(event: Event<A, E>, agent: A)
  {
    event != ToolResult(agent) && event != AgentGone(agent) && event != ServiceGone
  }

  /** The agent's snapshot is current and nothing has been disposed. */
  ghost predicate Current<A(!new), E>(s: System<A, E>, agent: A)
  {
    Inv(s) && !s.cache.disposed && agent !in s.gone && !Stale(s.cache, agent)
  }

  lemma CurrentStep<A(!new), E>(s: System<A, E>, event: Event<A, E>, agent: A)
    requires Current(s, agent) && LeavesAlone(event, agent)
    ensures Current(Step(s, event), agent)
  {
    StepKeepsInv(s, event);
    StartNeverGoesBack(s, event, agent);
  }

  /** A current snapshot stays current until the agent's next tool result. */
  lemma {:induction false} CurrentStays<A(!new), E>(s: System<A, E>, events: seq<Event<A, E>>, agent: A)
    requires Current(s, agent)
    requires forall i | 0 <= i < |events| :: LeavesAlone(events[i], agent)
    ensures Current(Run(s, events), agent)
  {
    if events != [] {
      var init, last := events[..|events| - 1], events[|events| - 1];
      CurrentStays(s, init, agent);
      CurrentStep(Run(s, init), last, agent);
    }
  }

  /**
   * A query that asks for fresh never gets a stale snapshot; any other query with a snapshot never
   * waits; and whoever gets a stale one leaves its replacement in flight.
   */
  lemma StaleAnswersRefresh<A(!new), E>(s: System<A, E>, agent: A, preferFresh: bool)
    requires Inv(s) && !s.cache.disposed && agent !in s.gone
    ensures var (cache, answer) := Query(s.cache, agent, preferFresh, s.next);
            && !answer.Nothing?
            && (preferFresh && answer.Settled? ==> !answer.stale)
            && (!preferFresh && agent in s.cache.snapshots ==>
                  answer == Settled(s.cache.snapshots[agent], Stale(s.cache, agent)))
            && (Stale(s.cache, agent) ==>
                  agent in cache.refreshes && cache.refreshes[agent] in Ask(s, agent, preferFresh).fetches)
            && (answer.Waits? ==> answer.fetch == cache.refreshes[agent])
  {
    if Stale(s.cache, agent) && agent !in s.cache.refreshes {
      assert Ask(s, agent, preferFresh) == Started(s, agent);
    }
  }

  /** A fetch saw everything exactly when it captured the current count. */
  lemma SawEverything<A>(log: seq<Note<A>>, next: nat, fetch: nat, agent: A, startedAt: nat)
    requires BegunOnce(log, next) && BeganWith(log, fetch, agent, startedAt)
    ensures NothingSince(log, fetch, agent) <==> startedAt == Changes(log, agent)
  {
    var p :| 0 <= p < |log| && log[p] == Began(fetch, agent) && Changes(log[..p], agent) == startedAt;
    ChangesMonotone(log, p, agent);
    if NothingSince(log, fetch, agent) {
      var q :| 0 <= q < |log| && log[q] == Began(fetch, agent) && forall r | q < r < |log| :: log[r] != Changed(agent);
      assert p == q;
      ChangesFlat(log, p, agent);
    }
  }

  /**
   * A query that waits gets a fetch which began after every tool result so far exactly when it
   * starts that fetch, or the fetch it joins captured the current counter.
   */
  lemma WaitSeesEverything<A(!new), E>(s: System<A, E>, agent: A, preferFresh: bool)
    requires Inv(s) && !s.cache.disposed && agent !in s.gone
    requires Query(s.cache, agent, preferFresh, s.next).1.Waits?
    ensures Query(s.cache, agent, preferFresh, s.next).1.fetch in Ask(s, agent, preferFresh).fetches
    ensures NothingSince(Ask(s, agent, preferFresh).log, Query(s.cache, agent, preferFresh, s.next).1.fetch, agent)
       <==> agent !in s.cache.refreshes
            || s.fetches[s.cache.refreshes[agent]].startedAt == Count(s.cache.invalidations, agent)
  {
    if agent in s.cache.refreshes {
      assert Ask(s, agent, preferFresh) == s;
      var fetch := s.cache.refreshes[agent];
      SawEverything(s.log, s.next, fetch, agent, s.fetches[fetch].startedAt);
    } else {
      assert Ask(s, agent, preferFresh) == Started(s, agent);
      assert Started(s, agent).log[|s.log|] == Began(s.next, agent);
    }
  }

  lemma {:induction false} ChangesFlat<A>(log: seq<Note<A>>, p: nat, agent: A)
    requires p <= |log| && forall q | p <= q < |log| :: log[q] != Changed(agent)
    ensures Changes(log[..p], agent) == Changes(log, agent)
    decreases |log|
  {
    if p < |log| {
      var init := log[..|log| - 1];
      assert init[..p] == log[..p];
      ChangesFlat(init, p, agent);
    } else {
      assert log[..p] == log;
    }
  }

  /** A directory listing can join a fetch older than the write it was asked to show. */
  lemma ListingCanMissAWrite<E>()
    ensures var s := Step(Step(Initial<int, E>(), Asked(0, true)), ToolResult(0));
            && Query(s.cache, 0, true, s.next).1 == Waits(0)
            && !NothingSince(Ask(s, 0, true).log, 0, 0)
  {
    var first := Step(Initial<int, E>(), Asked(0, true));
    assert first == Started(Initial<int, E>(), 0);
    var s := Step(first, ToolResult(0));
    assert Ask(s, 0, true) == s;
    assert s.log == [Began(0, 0), Changed(0)];
    assert s.log[1] == Changed(0);
  }
}

/**
 * Whose tree a snapshot is, and what disposal leaves behind
 * (control-plane/src/workspaces/file-reference.ts:160-191, 228-292).
 */
module SearchEntries {
  import opened Prelude
  import opened SearchCache

  /** At this event the agent's fetch in flight returned these entries. */
  ghost predicate ReturnedAt<A, E>(events: seq<Event<A, E>>, k: nat, fetch: nat, agent: A, entries: seq<E>)
  {
    && k < |events| && events[k] == FetchDone(fetch, Some(entries))
    && fetch in Run(Initial<A, E>(), events[..k]).fetches
    && Run(Initial<A, E>(), events[..k]).fetches[fetch].agent == agent
  }

  /** The snapshot is what the agent's fetch returned, and no later fetch of the agent returned a tree. */
  ghost predicate IsLatest<A(!new), E(!new)>(events: seq<Event<A, E>>, agent: A, snapshot: Snapshot<E>)
  {
    exists k: nat :: ReturnedAt(events, k, snapshot.fetch, agent, snapshot.entries)
      && forall later: nat, fetch, entries :: later > k ==> !ReturnedAt(events, later, fetch, agent, entries)
  }

  lemma ReturnedExtends<A, E>(events: seq<Event<A, E>>, last: Event<A, E>, k: nat, fetch: nat, agent: A,
                              entries: seq<E>)
    requires k < |events|
    ensures ReturnedAt(events + [last], k, fetch, agent, entries) <==> ReturnedAt(events, k, fetch, agent, entries)
  {
    assert (events + [last])[..k] == events[..k] && (events + [last])[k] == events[k];
  }

  /** One more event that returns no tree for the agent. */
  lemma LatestExtends<A(!new), E(!new)>(events: seq<Event<A, E>>, last: Event<A, E>, agent: A, snapshot: Snapshot<E>)
    requires IsLatest(events, agent, snapshot)
    requires forall fetch, entries :: !ReturnedAt(events + [last], |events|, fetch, agent, entries)
    ensures IsLatest(events + [last], agent, snapshot)
  {
    var k: nat :| ReturnedAt(events, k, snapshot.fetch, agent, snapshot.entries)
      && forall later: nat, fetch, entries :: later > k ==> !ReturnedAt(events, later, fetch, agent, entries);
    ReturnedExtends(events, last, k, snapshot.fetch, agent, snapshot.entries);
    forall later: nat, fetch, entries | later > k ensures !ReturnedAt(events + [last], later, fetch, agent, entries) {
      if later < |events| {
        ReturnedExtends(events, last, later, fetch, agent, entries);
      }
    }
  }

  /** The event is the agent's fetch returning a tree. */
  predicate Returns<A(==), E>(s: System<A, E>, event: Event<A, E>, agent: A)
  {
    event.FetchDone? && event.index.Some? && event.fetch in s.fetches && s.fetches[event.fetch].agent == agent
  }

  lemma SnapshotStep<A, E>(s: System<A, E>, event: Event<A, E>, agent: A)
    requires agent in Step(s, event).cache.snapshots && (s.cache.disposed ==> s.cache.snapshots == map[])
    ensures var snapshot := Step(s, event).cache.snapshots[agent];
            if Returns(s, event, agent)
            then snapshot == Snapshot(event.index.value, s.fetches[event.fetch].startedAt, event.fetch)
            else agent in s.cache.snapshots && snapshot == s.cache.snapshots[agent]
  {
  }

  /** The agent's snapshot, if it has one, is the last tree a fetch of the agent returned. */
  ghost predicate HoldsLatest<A(!new), E(!new)>(events: seq<Event<A, E>>, agent: A)
  {
    var cache := Run(Initial<A, E>(), events).cache;
    agent in cache.snapshots ==> IsLatest(events, agent, cache.snapshots[agent])
  }

  lemma LatestStep<A(!new), E(!new)>(events: seq<Event<A, E>>, last: Event<A, E>, agent: A)
    requires HoldsLatest(events, agent)
    requires var cache := Run(Initial<A, E>(), events).cache; cache.disposed ==> cache.snapshots == map[]
    ensures HoldsLatest(events + [last], agent)
  {
    var s := Run(Initial<A, E>(), events);
    var all := events + [last];
    assert all[..|events|] == events;
    if agent in Step(s, last).cache.snapshots {
      SnapshotStep(s, last, agent);
      if Returns(s, last, agent) {
        assert ReturnedAt(all, |events|, last.fetch, agent, last.index.value);
      } else {
        assert forall fetch, entries :: !ReturnedAt(all, |events|, fetch, agent, entries);
        LatestExtends(events, last, agent, s.cache.snapshots[agent]);
      }
    }
  }

  lemma EmptyStep<A, E>(s: System<A, E>, event: Event<A, E>)
    requires s.cache.disposed ==> s.cache.snapshots == map[]
    ensures Step(s, event).cache.disposed ==> Step(s, event).cache.snapshots == map[]
  {
  }

  lemma {:induction false} DisposedIsEmpty<A, E>(events: seq<Event<A, E>>)
    ensures var cache := Run(Initial<A, E>(), events).cache; cache.disposed ==> cache.snapshots == map[]
  {
    if events != [] {
      DisposedIsEmpty(events[..|events| - 1]);
      EmptyStep(Run(Initial<A, E>(), events[..|events| - 1]), events[|events| - 1]);
    }
  }

  /**
   * In every run, an agent's snapshot holds the entries its own fetch returned, and is the last
   * tree that any fetch of the agent returned.
   */
  lemma {:induction false} SnapshotIsFetched<A(!new), E(!new)>(events: seq<Event<A, E>>, agent: A)
    ensures HoldsLatest(events, agent)
  {
    if events == [] {
      assert Run(Initial<A, E>(), events) == Initial<A, E>();
    } else {
      var init, last := events[..|events| - 1], events[|events| - 1];
      SnapshotIsFetched(init, agent);
      DisposedIsEmpty(init);
      assert events == init + [last];
      LatestStep(init, last, agent);
    }
  }

  // ---- A finished fetch is what queries get ----------------------------------------------------

  /** The agent's snapshot is current, and no fetch that could replace it is in flight. */
  ghost predicate Rests<A(!new), E>(s: System<A, E>, agent: A, snapshot: Snapshot<E>)
  {
    Current(s, agent) && agent !in s.cache.refreshes && s.cache.snapshots[agent] == snapshot
  }

  lemma RestsStep<A(!new), E>(s: System<A, E>, event: Event<A, E>, agent: A, snapshot: Snapshot<E>)
    requires Rests(s, agent, snapshot) && LeavesAlone(event, agent)
    ensures Rests(Step(s, event), agent, snapshot)
  {
    CurrentStep(s, event, agent);
  }

  lemma {:induction false} RestStays<A(!new), E>(s: System<A, E>, events: seq<Event<A, E>>, agent: A,
                                                 snapshot: Snapshot<E>)
    requires Rests(s, agent, snapshot)
    requires forall i | 0 <= i < |events| :: LeavesAlone(events[i], agent)
    ensures Rests(Run(s, events), agent, snapshot)
  {
    if events != [] {
      var init, last := events[..|events| - 1], events[|events| - 1];
      RestStays(s, init, agent, snapshot);
      RestsStep(Run(s, init), last, agent, snapshot);
    }
  }

  /**
   * A finished fetch of an existing sandbox, with no tool result since it began, makes every query
   * a hit on exactly the tree it returned, without a new fetch, until the agent's next tool result.
   */
  lemma FinishedFetchIsHit<A(!new), E>(s: System<A, E>, fetch: nat, index: seq<E>, later: seq<Event<A, E>>,
                                       preferFresh: bool)
    requires Inv(s) && !s.cache.disposed && fetch in s.fetches
    requires var agent := s.fetches[fetch].agent;
             agent !in s.gone && s.fetches[fetch].startedAt == Changes(s.log, agent)
    requires forall i | 0 <= i < |later| :: LeavesAlone(later[i], s.fetches[fetch].agent)
    ensures var agent := s.fetches[fetch].agent;
            var t := Run(Step(s, FetchDone(fetch, Some(index))), later);
            && Query(t.cache, agent, preferFresh, t.next).1
                 == Settled(Snapshot(index, s.fetches[fetch].startedAt, fetch), false)
            && Ask(t, agent, preferFresh).fetches == t.fetches
  {
    var agent := s.fetches[fetch].agent;
    var done := Step(s, FetchDone(fetch, Some(index)));
    StepKeepsInv(s, FetchDone(fetch, Some(index)));
    RestStays(done, later, agent, Snapshot(index, s.fetches[fetch].startedAt, fetch));
  }

  /** The queries that wait for a fetch get the tree it leaves in the cache, or an empty one when it leaves none. */
  lemma WaitersGetWhatIsCached<A(!new), E>(s: System<A, E>, fetch: nat, index: Option<seq<E>>)
    requires Inv(s) && fetch in s.fetches
    ensures var agent, t := s.fetches[fetch].agent, Step(s, FetchDone(fetch, index));
            var result := SettledWith(s.cache, s.fetches[fetch].startedAt, fetch, index);
            if !s.cache.disposed && index.Some?
            then agent in t.cache.snapshots && result == t.cache.snapshots[agent] && result.entries == index.value
            else result.entries == [] && t.cache.snapshots == s.cache.snapshots
  {
  }

  /** A fetch that fails keeps every snapshot, and lets the agent's next stale query start another one. */
  lemma FailedFetchIsRetried<A(!new), E>(s: System<A, E>, fetch: nat, preferFresh: bool)
    requires Inv(s) && !s.cache.disposed && fetch in s.fetches && s.fetches[fetch].agent !in s.gone
    ensures var agent, t := s.fetches[fetch].agent, Step(s, FetchFailed(fetch));
            && t.cache.snapshots == s.cache.snapshots && t.fetches == s.fetches - {fetch}
            && agent !in t.cache.refreshes
            && (Stale(t.cache, agent) ==>
                  && t.next !in t.fetches && t.next in Ask(t, agent, preferFresh).fetches
                  && Ask(t, agent, preferFresh).fetches[t.next] == Fetch(agent, Count(t.cache.invalidations, agent)))
  {
  }

  // ---- Disposal --------------------------------------------------------------------------------

  /** A disposed agent is in none of the maps, and no other agent's entries change. */
  lemma AgentIsForgotten<A, E>(s: System<A, E>, agent: A)
    ensures var cache := Step(s, AgentGone(agent)).cache;
            && agent !in cache.snapshots && agent !in cache.refreshes && agent !in cache.invalidations
            && forall other | other != agent ::
                 && (other in cache.snapshots <==> other in s.cache.snapshots)
                 && (other in cache.snapshots ==> cache.snapshots[other] == s.cache.snapshots[other])
                 && (other in cache.refreshes <==> other in s.cache.refreshes)
                 && (other in cache.refreshes ==> cache.refreshes[other] == s.cache.refreshes[other])
                 && Count(cache.invalidations, other) == Count(s.cache.invalidations, other)
  {
  }

  lemma GoneStep<A, E>(s: System<A, E>, event: Event<A, E>)
    requires s.cache.disposed && s.cache.snapshots == map[] && s.cache.refreshes == map[]
    ensures var t := Step(s, event); t.cache.disposed && t.cache.snapshots == map[] && t.cache.refreshes == map[]
  {
  }

  /** After the service's disposal every query gets nothing and starts nothing, whatever still settles. */
  lemma {:induction false} ServiceStaysGone<A(!new), E>(s: System<A, E>, later: seq<Event<A, E>>, agent: A,
                                                        preferFresh: bool)
    ensures var t := Run(Step(s, ServiceGone), later);
            && t.cache.disposed && t.cache.snapshots == map[] && t.cache.refreshes == map[]
            && Query(t.cache, agent, preferFresh, t.next).1.Nothing?
            && Ask(t, agent, preferFresh).fetches == t.fetches
  {
    if later != [] {
      ServiceStaysGone(s, later[..|later| - 1], agent, preferFresh);
      GoneStep(Run(Step(s, ServiceGone), later[..|later| - 1]), later[|later| - 1]);
    }
  }
}

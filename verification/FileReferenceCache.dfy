/**
 * The cache maps of SandboxFileReference, updated in place
 * (control-plane/src/workspaces/file-reference.ts:93-95, 160-191, 228-292).
 */
module FileReferenceCache {
  import opened Prelude
  import P = SearchCache

  class FileReferenceCache<A(==), E> {
    var snapshots: map<A, P.Snapshot<E>>
    var refreshes: map<A, nat>
    var invalidations: map<A, nat>
    var disposed: bool

    /** The fields as one value: what the step functions work on. */
    function State(): P.Cache<A, E>
      reads this
    {
      P.Cache(snapshots, refreshes, invalidations, disposed)
    }

    constructor ()
      ensures State() == P.Initial<A, E>().cache
    {
      snapshots, refreshes, invalidations, disposed := map[], map[], map[], false;
    }

    method Invalidate(agent: A)
      modifies this`invalidations
      ensures State() == P.Invalidate(old(State()), agent)
    {
      var before := if agent in invalidations then invalidations[agent] else 0;
      invalidations := invalidations[agent := before + 1];
    }

    /** refresh: the fetch in flight, or `next` as a new one that captures the counter. */
    method Refresh(agent: A, next: nat) returns (fetch: nat, startedAt: Option<nat>)
      modifies this`refreshes
      ensures (State(), fetch) == P.Refresh(old(State()), agent, next)
      ensures startedAt == if agent in old(refreshes) then None else Some(P.Count(invalidations, agent))
    {
      if agent in refreshes {
        return refreshes[agent], None;
      }
      startedAt := Some(if agent in invalidations then invalidations[agent] else 0);
      refreshes := refreshes[agent := next];
      fetch := next;
    }

    /** list and snapshot up to the first await. */
    method Query(agent: A, preferFresh: bool, next: nat) returns (answer: P.Answer<E>, startedAt: Option<nat>)
      modifies this`refreshes
      ensures (State(), answer) == P.Query(old(State()), agent, preferFresh, next)
      ensures startedAt.Some? <==> agent !in old(refreshes) && agent in refreshes
      ensures startedAt.Some? ==> startedAt.value == P.Count(invalidations, agent)
    {
      startedAt := None;
      if disposed {
        return P.Nothing, None;
      }
      var current := if agent in invalidations then invalidations[agent] else 0;
      if agent in snapshots && snapshots[agent].startedAt >= current {
        return P.Settled(snapshots[agent], false), None;
      }
      var fetch;
      fetch, startedAt := Refresh(agent, next);
      if preferFresh || agent !in snapshots {
        answer := P.Waits(fetch);
      } else {
        answer := P.Settled(snapshots[agent], true);
      }
    }

    /** The fetch's success continuation; `agent` and `startedAt` are what its closure captured. */
    method OnFetched(agent: A, startedAt: nat, fetch: nat, index: Option<seq<E>>) returns (result: P.Snapshot<E>)
      modifies this`refreshes, this`snapshots
      ensures State() == P.Fetched(old(State()), agent, startedAt, fetch, index)
      ensures result == P.SettledWith(old(State()), startedAt, fetch, index)
    {
      refreshes := refreshes - {agent};
      if disposed {
        return P.Snapshot([], startedAt, fetch);
      }
      if index.None? {
        return P.Snapshot([], startedAt, fetch);
      }
      result := P.Snapshot(index.value, startedAt, fetch);
      snapshots := snapshots[agent := result];
    }

    method OnFailed(agent: A)
      modifies this`refreshes
      ensures State() == P.Failed(old(State()), agent)
    {
      refreshes := refreshes - {agent};
    }

    method OnAgentDisposed(agent: A)
      modifies this
      ensures State() == P.AgentDisposed(old(State()), agent)
    {
      snapshots := snapshots - {agent};
      refreshes := refreshes - {agent};
      invalidations := invalidations - {agent};
    }

    method Dispose()
      modifies this
      ensures State() == P.Disposed(old(State()))
    {
      disposed := true;
      snapshots := map[];
      refreshes := map[];
      invalidations := map[];
    }
  }
}

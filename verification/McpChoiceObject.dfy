/**
 * The McpChoice object, its store, the open-turn counter and the turn handlers, updated in place
 * (control-plane/src/mcp/mcp-choice.ts:35-191; control-plane/src/core/state-store.ts:76-91;
 * control-plane/src/sandbox/manager/idle.ts:77-97; sandbox-manager.ts:484-506).
 */
module McpChoiceObject {
  import opened SortedNames
  import P = McpChoice

  class McpChoice<S(==)> {
    /** The session store's disabledMcpServers. */
    var store: map<S, seq<string>>
    /** The list each open turn runs with. */
    var live: map<S, seq<string>>
    /** The idle tracker's liveTurns. */
    var turns: map<S, nat>
    /** What the `servers` option reads. */
    var servers: seq<P.Server>

    function State(): P.State<S>
      reads this
    {
      P.State(store, live, turns, servers)
    }

    constructor (saved: map<S, seq<string>>, configured: seq<P.Server>)
      ensures State() == P.State(saved, map[], map[], configured)
    {
      store, live, turns, servers := saved, map[], map[], configured;
    }

    function TurnLive(session: S): bool
      reads this`turns
    {
      session in turns && turns[session] > 0
    }

    /** defaults: a filter and a map over the configured servers. */
    method Defaults() returns (names: seq<string>)
      ensures names == P.Defaults(servers)
    {
      names := [];
      for i := 0 to |servers|
        invariant names == P.Defaults(servers[..i])
      {
        assert servers[..i + 1][..i] == servers[..i];
        if servers[i].enabled && servers[i].offByDefault {
          names := names + [servers[i].name];
        }
      }
      assert servers[..|servers|] == servers;
    }

    method Chosen(session: S) returns (names: seq<string>)
      ensures names == P.Chosen(State(), session)
    {
      if session in store {
        names := store[session];
      } else {
        names := Defaults();
      }
    }

    /** hidden: the list, and the every-loop over the configured servers. */
    method Hidden(session: S) returns (hidden: P.SessionHiddenServers)
      ensures hidden == P.Hidden(State(), session)
    {
      var names := HiddenList(session);
      var every := names != [];
      for i := 0 to |servers|
        invariant every <==> names != [] && P.Covers(names, servers[..i])
      {
        assert forall j | 0 <= j < i :: servers[..i + 1][j] == servers[..i][j];
        every := every && (!servers[i].enabled || servers[i].name in names);
      }
      assert servers[..|servers|] == servers;
      hidden := P.SessionHiddenServers(names, every);
    }

    method HiddenList(session: S) returns (names: seq<string>)
      ensures names == P.HiddenList(State(), session)
    {
      if TurnLive(session) && session in live {
        names := live[session];
      } else {
        names := Chosen(session);
      }
    }

    /** set up to its await; `known` is false where the code throws. */
    method Set(session: S, disabled: seq<string>) returns (known: bool, notice: bool)
      modifies this`store, this`live
      ensures (State(), notice) == P.SetChoice(old(State()), session, disabled)
      ensures known <==> forall i | 0 <= i < |disabled| :: disabled[i] in P.NamesOf(servers)
    {
      var names := P.NamesOf(servers);
      for i := 0 to |disabled|
        invariant forall j | 0 <= j < i :: disabled[j] in names
        invariant store == old(store) && live == old(live)
      {
        if disabled[i] !in names {
          return false, false;
        }
      }
      known := true;
      store := store[session := Sort(Deduplicated(disabled))];
      notice := !TurnLive(session);
      if notice {
        live := live - {session};
      }
    }

    method Freeze(session: S, turn: nat) returns (notice: bool)
      modifies this`store
      ensures (State(), notice) == P.Freeze(old(State()), session, turn)
    {
      if session in store {
        return false;
      }
      var names: seq<string> := [];
      if turn <= 1 {
        names := Defaults();
      }
      store := store[session := names];
      notice := true;
    }

    method BeginTurn(session: S)
      modifies this`live
      ensures State() == P.Snapshot(old(State()), session)
    {
      if session !in live {
        var names := Chosen(session);
        live := live[session := names];
      }
    }

    method OnTurnStart(session: S, turn: nat) returns (notice: bool)
      modifies this
      ensures (State(), notice) == P.TurnStart(old(State()), session, turn)
    {
      turns := turns[session := (if session in turns then turns[session] else 0) + 1];
      notice := Freeze(session, turn);
      BeginTurn(session);
    }

    /** sameServers */
    method SameServers(left: seq<string>, right: seq<string>) returns (same: bool)
      ensures same == P.SameServers(left, right)
      ensures NoDuplicates(left) && NoDuplicates(right) ==> (same <==> ToSet(left) == ToSet(right))
    {
      if NoDuplicates(left) && NoDuplicates(right) {
        P.SameServersIsSetEquality(left, right);
      }
      if |left| != |right| {
        return false;
      }
      for i := 0 to |right|
        invariant forall j | 0 <= j < i :: right[j] in left
      {
        if right[i] !in left {
          return false;
        }
      }
      same := true;
    }

    method EndTurn(session: S) returns (changed: bool)
      modifies this`live
      ensures store == old(store) && turns == old(turns) && servers == old(servers)
      ensures live == if TurnLive(session) then old(live) else old(live) - {session}
      ensures changed <==> !TurnLive(session) && session in old(live)
                           && !P.SameServers(old(live)[session], P.Chosen(State(), session))
    {
      if TurnLive(session) {
        return false;
      }
      if session !in live {
        return false;
      }
      var open := live[session];
      live := live - {session};
      var names := Chosen(session);
      var same := SameServers(open, names);
      changed := !same;
    }

    method OnTurnEnd(session: S) returns (changed: bool)
      modifies this
      ensures (State(), changed) == P.TurnEnd(old(State()), session)
    {
      var open: int := if session in turns then turns[session] else 0;
      var remaining := open - 1;
      if remaining <= 0 {
        turns := turns - {session};
      } else {
        turns := turns[session := remaining];
      }
      changed := EndTurn(session);
    }
  }
}

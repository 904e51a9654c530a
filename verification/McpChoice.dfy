/**
 * The MCP servers a session hides, across overlapping turns
 * (control-plane/src/mcp/mcp-choice.ts:60-191; the turn handlers in
 * control-plane/src/sandbox/manager/sandbox-manager.ts:484-506 and idle.ts:77-97).
 *
 * Each step is one synchronous stretch: `set` up to its await, a turn starting or ending.
 */
module McpChoice {
  import opened Prelude
  import opened SortedNames

  datatype Server = Server(name: string, enabled: bool, offByDefault: bool)

  /** The stored choices, the open turns' snapshots, the open-turn counts and the configured servers. */
  datatype State<!S> = State(
    store: map<S, seq<string>>, live: map<S, seq<string>>, turns: map<S, nat>, servers: seq<Server>)

  // ---- The code's functions ------------------------------------------------------------------

  /** isTurnLive */
  predicate TurnLive<S>(st: State<S>, session: S)
  {
    session in st.turns && st.turns[session] > 0
  }

  function NamesOf(servers: seq<Server>): (r: seq<string>)
    ensures |r| == |servers| && forall i | 0 <= i < |r| :: r[i] == servers[i].name
  {
    seq(|servers|, i requires 0 <= i < |servers| => servers[i].name)
  }

  function Defaults(servers: seq<Server>): seq<string>
  {
    if servers == [] then [] else
    var last := servers[|servers| - 1];
    Defaults(servers[..|servers| - 1]) + if last.enabled && last.offByDefault then [last.name] else []
  }

  function Chosen<S>(st: State<S>, session: S): seq<string>
  {
    if session in st.store then st.store[session] else Defaults(st.servers)
  }

  /** What one session hides: the servers, and whether they are every enabled one. */
  datatype SessionHiddenServers = SessionHiddenServers(servers: seq<string>, everyServer: bool)

  function HiddenList<S>(st: State<S>, session: S): seq<string>
  {
    if TurnLive(st, session) && session in st.live then st.live[session] else Chosen(st, session)
  }

  /** Every enabled server is on the list. */
  predicate Covers(list: seq<string>, servers: seq<Server>)
  {
    forall i | 0 <= i < |servers| :: !servers[i].enabled || servers[i].name in list
  }

  /** hidden: the list may be an open turn's snapshot, the configured servers are always today's. */
  function Hidden<S>(st: State<S>, session: S): SessionHiddenServers
  {
    var list := HiddenList(st, session);
    SessionHiddenServers(list, list != [] && Covers(list, st.servers))
  }

  predicate SameServers(left: seq<string>, right: seq<string>)
  {
    |left| == |right| && forall i | 0 <= i < |right| :: right[i] in left
  }

  /** `set` up to its await. The flag says the change notice went out; an unknown name changes nothing. */
  function SetChoice<S>(st: State<S>, session: S, disabled: seq<string>): (State<S>, bool)
  {
    if exists i | 0 <= i < |disabled| :: disabled[i] !in NamesOf(st.servers) then (st, false) else
    var stored := st.(store := st.store[session := Sort(Deduplicated(disabled))]);
    if TurnLive(st, session) then (stored, false) else (stored.(live := stored.live - {session}), true)
  }

  /** freeze */
  function Freeze<S>(st: State<S>, session: S, turn: nat): (State<S>, bool)
  {
    if session in st.store then (st, false)
    else (st.(store := st.store[session := if turn > 1 then [] else Defaults(st.servers)]), true)
  }

  /** The choice's beginTurn. */
  function Snapshot<S>(st: State<S>, session: S): State<S>
  {
    if session in st.live then st else st.(live := st.live[session := Chosen(st, session)])
  }

  /** The `turn/start` handler: the idle tracker counts the turn, then freeze, then the snapshot. */
  function TurnStart<S>(st: State<S>, session: S, turn: nat): (State<S>, bool)
  {
    var open := if session in st.turns then st.turns[session] else 0;
    var (frozen, notice) := Freeze(st.(turns := st.turns[session := open + 1]), session, turn);
    (Snapshot(frozen, session), notice)
  }

  /** The `turn/end` handler: the idle tracker first, then the choice's endTurn, whose result is the flag. */
  function TurnEnd<S>(st: State<S>, session: S): (State<S>, bool)
  {
    var open := if session in st.turns then st.turns[session] else 0;
    var counted := st.(turns := if open <= 1 then st.turns - {session} else st.turns[session := open - 1]);
    if TurnLive(counted, session) then (counted, false) else
    (counted.(live := counted.live - {session}),
     session in counted.live && !SameServers(counted.live[session], Chosen(counted, session)))
  }

  // ---- Runs ----------------------------------------------------------------------------------

  datatype Event<+S> =
    | Started(session: S, turn: nat)
    | Ended(session: S)
    | Set(session: S, disabled: seq<string>)
    | ServersEdited(servers: seq<Server>)

  function Step<S>(st: State<S>, event: Event<S>): (State<S>, bool)
  {
    match event
    case Started(session, turn) => TurnStart(st, session, turn)
    case Ended(session) => TurnEnd(st, session)
    case Set(session, disabled) => SetChoice(st, session, disabled)
    case ServersEdited(servers) => (st.(servers := servers), false)
  }

  function Run<S>(st: State<S>, events: seq<Event<S>>): State<S>
  {
    if events == [] then st else Step(Run(st, events[..|events| - 1]), events[|events| - 1]).0
  }

  /** No list has a name twice, and a session has a snapshot exactly while it has an open turn. */
  ghost predicate Inv<S(!new)>(st: State<S>)
  {
    && (forall s | s in st.store :: NoDuplicates(st.store[s]))
    && (forall s | s in st.live :: NoDuplicates(st.live[s]))
    && (forall s :: s in st.live <==> TurnLive(st, s))
    && (forall s | s in st.live :: s in st.store)
    && NoDuplicates(NamesOf(st.servers))
  }

  /** Server names are unique wherever the configuration is edited. */
  predicate NamesUnique<S>(event: Event<S>)
  {
    event.ServersEdited? ==> NoDuplicates(NamesOf(event.servers))
  }

  // ---- Lists as sets -------------------------------------------------------------------------

  /** sameServers decides set equality on duplicate-free lists. */
  lemma SameServersIsSetEquality(left: seq<string>, right: seq<string>)
    requires NoDuplicates(left) && NoDuplicates(right)
    ensures SameServers(left, right) <==> ToSet(left) == ToSet(right)
  {
    DistinctSize(left);
    DistinctSize(right);
    if SameServers(left, right) {
      assert ToSet(right) <= ToSet(left);
      SubsetOfSameSize(ToSet(right), ToSet(left));
    } else if ToSet(left) == ToSet(right) {
      forall i | 0 <= i < |right| ensures right[i] in left {
        assert right[i] in ToSet(left);
      }
    }
  }

  lemma {:induction false} SubsetOfSameSize<T>(a: set<T>, b: set<T>)
    requires a <= b && |a| == |b|
    ensures a == b
  {
    assert |b - a| == |b| - |a|;
  }

  /** On lists with duplicates it does not: these two pass and differ as sets. */
  lemma DuplicatesFoolSameServers()
    ensures SameServers(["a", "b"], ["a", "a"]) && ToSet(["a", "b"]) != ToSet(["a", "a"])
  {
    assert ["a", "b"][1] in ToSet(["a", "b"]);
    assert "b" !in ToSet(["a", "a"]);
  }

  lemma {:induction false} DefaultsDistinct(servers: seq<Server>)
    requires NoDuplicates(NamesOf(servers))
    ensures NoDuplicates(Defaults(servers))
    ensures forall i | 0 <= i < |Defaults(servers)| :: Defaults(servers)[i] in NamesOf(servers)
  {
    if servers != [] {
      var init := servers[..|servers| - 1];
      assert forall i | 0 <= i < |init| :: NamesOf(init)[i] == NamesOf(servers)[i];
      DefaultsDistinct(init);
      forall i | 0 <= i < |Defaults(init)|
        ensures Defaults(init)[i] in NamesOf(servers) && Defaults(init)[i] != servers[|servers| - 1].name
      {
        var k :| 0 <= k < |init| && NamesOf(init)[k] == Defaults(init)[i];
        assert NamesOf(servers)[k] == Defaults(init)[i];
      }
      assert NamesOf(servers)[|servers| - 1] == servers[|servers| - 1].name;
    }
  }

  /** The defaults are the names of the enabled servers that start off, and no others. */
  lemma {:induction false} DefaultsAreTheOffServers(servers: seq<Server>, name: string)
    ensures name in Defaults(servers)
       <==> exists i | 0 <= i < |servers| :: servers[i].name == name && servers[i].enabled && servers[i].offByDefault
  {
    if servers != [] {
      var init, last := servers[..|servers| - 1], servers[|servers| - 1];
      DefaultsAreTheOffServers(init, name);
      if i :| 0 <= i < |servers| && servers[i].name == name && servers[i].enabled && servers[i].offByDefault {
        assert i == |init| || init[i] == servers[i];
      }
      if i :| 0 <= i < |init| && init[i].name == name && init[i].enabled && init[i].offByDefault {
        assert servers[i] == init[i];
      }
      assert servers[|init|] == last;
    }
  }

  // ---- The invariant -------------------------------------------------------------------------

  lemma SetKeepsInv<S(!new)>(st: State<S>, session: S, disabled: seq<string>)
    requires Inv(st)
    ensures Inv(SetChoice(st, session, disabled).0)
  {
    SortKeeps(Deduplicated(disabled));
  }

  lemma StartKeepsInv<S(!new)>(st: State<S>, session: S, turn: nat)
    requires Inv(st)
    ensures Inv(TurnStart(st, session, turn).0)
  {
    DefaultsDistinct(st.servers);
  }

  lemma EndKeepsInv<S(!new)>(st: State<S>, session: S)
    requires Inv(st)
    ensures Inv(TurnEnd(st, session).0)
  {
  }

  lemma StepKeepsInv<S(!new)>(st: State<S>, event: Event<S>)
    requires Inv(st) && NamesUnique(event)
    ensures Inv(Step(st, event).0)
  {
    match event
    case Started(session, turn) => StartKeepsInv(st, session, turn);
    case Ended(session) => EndKeepsInv(st, session);
    case Set(session, disabled) => SetKeepsInv(st, session, disabled);
    case ServersEdited(servers) =>
  }

  // ---- Snapshot isolation --------------------------------------------------------------------

  /** While a turn stays open, no step changes what its session hides. */
  lemma OpenTurnKeepsList<S(!new)>(st: State<S>, event: Event<S>, session: S)
    requires Inv(st) && TurnLive(st, session) && TurnLive(Step(st, event).0, session)
    ensures HiddenList(Step(st, event).0, session) == HiddenList(st, session)
  {
  }

  /** Some turn of the session is open after every step. */
  ghost predicate StaysOpen<S(!new)>(st: State<S>, events: seq<Event<S>>, session: S)
  {
    forall k | 0 <= k <= |events| :: TurnLive(Run(st, events[..k]), session)
  }

  /** The list is the same after any run that keeps a turn open, whatever is set or configured meanwhile. */
  lemma {:induction false} OpenTurnsKeepList<S(!new)>(st: State<S>, events: seq<Event<S>>, session: S)
    requires Inv(st) && StaysOpen(st, events, session)
    requires forall i | 0 <= i < |events| :: NamesUnique(events[i])
    ensures Inv(Run(st, events)) && TurnLive(Run(st, events), session)
    ensures HiddenList(Run(st, events), session) == HiddenList(st, session)
  {
    assert events[..|events|] == events;
    if events != [] {
      var init, last := events[..|events| - 1], events[|events| - 1];
      assert NamesUnique(last);
      forall k | 0 <= k <= |init| ensures TurnLive(Run(st, init[..k]), session) {
        assert init[..k] == events[..k];
      }
      OpenTurnsKeepList(st, init, session);
      StepKeepsInv(Run(st, init), last);
      OpenTurnKeepsList(Run(st, init), last, session);
    }
  }

  /**
   * From a session's first open turn to the end of its last overlapping one: every open turn runs
   * on the list the first one froze, and the last end applies the stored choice and answers true
   * exactly when that choice differs, as a set, from the list the turns ran with.
   */
  lemma WholeTurn<S(!new)>(st: State<S>, session: S, turn: nat, events: seq<Event<S>>)
    requires Inv(st) && !TurnLive(st, session)
    requires StaysOpen(TurnStart(st, session, turn).0, events, session)
    requires forall i | 0 <= i < |events| :: NamesUnique(events[i])
    requires !TurnLive(TurnEnd(Run(TurnStart(st, session, turn).0, events), session).0, session)
    ensures var begun := TurnStart(st, session, turn).0;
            var open := Run(begun, events);
            var (closed, changed) := TurnEnd(open, session);
            && HiddenList(begun, session) == Chosen(begun, session)
            && HiddenList(begun, session) == (if session in st.store then st.store[session]
                                          else if turn > 1 then [] else Defaults(st.servers))
            && HiddenList(open, session) == HiddenList(begun, session)
            && session in open.store && HiddenList(closed, session) == open.store[session]
            && (changed <==> ToSet(open.store[session]) != ToSet(HiddenList(begun, session)))
  {
    var begun := TurnStart(st, session, turn).0;
    StartKeepsInv(st, session, turn);
    OpenTurnsKeepList(begun, events, session);
    var open := Run(begun, events);
    assert open.live[session] == HiddenList(begun, session);
    SameServersIsSetEquality(open.live[session], open.store[session]);
  }

  // ---- Frozen defaults and change notices ----------------------------------------------------

  /** Once a session has a record, only `set` on that session changes its choice. */
  lemma {:induction false} RecordOutlivesDefaults<S(!new)>(st: State<S>, events: seq<Event<S>>, session: S)
    requires session in st.store
    requires forall i | 0 <= i < |events| :: !(events[i].Set? && events[i].session == session)
    ensures session in Run(st, events).store && Run(st, events).store[session] == st.store[session]
  {
    if events != [] {
      RecordOutlivesDefaults(st, events[..|events| - 1], session);
    }
  }

  /** Turns between which nobody calls `set` end without a change, however the defaults are edited. */
  lemma QuietTurnsEndQuietly<S(!new)>(st: State<S>, session: S, turn: nat, events: seq<Event<S>>)
    requires Inv(st) && !TurnLive(st, session)
    requires StaysOpen(TurnStart(st, session, turn).0, events, session)
    requires forall i | 0 <= i < |events| :: NamesUnique(events[i]) && !(events[i].Set? && events[i].session == session)
    requires !TurnLive(TurnEnd(Run(TurnStart(st, session, turn).0, events), session).0, session)
    ensures !TurnEnd(Run(TurnStart(st, session, turn).0, events), session).1
  {
    WholeTurn(st, session, turn, events);
    RecordOutlivesDefaults(TurnStart(st, session, turn).0, events, session);
  }

  /**
   * No step but an edit of the configured servers changes what any session hides, servers (as a
   * set) or flag, without the change notice.
   */
  lemma ChangesAreNoticed<S(!new)>(st: State<S>, event: Event<S>, session: S)
    requires Inv(st) && !event.ServersEdited?
    requires
      || ToSet(HiddenList(Step(st, event).0, session)) != ToSet(HiddenList(st, session))
      || Hidden(Step(st, event).0, session).everyServer != Hidden(st, session).everyServer
    ensures Step(st, event).1
  {
    if event.Ended? && session in st.live && event.session == session {
      SameServersIsSetEquality(st.live[session], Chosen(st, session));
    }
    SameSetSameFlag(HiddenList(Step(st, event).0, session), HiddenList(st, session), st.servers);
  }

  lemma SameSetSameFlag(a: seq<string>, b: seq<string>, servers: seq<Server>)
    ensures ToSet(a) == ToSet(b) ==> (a != [] && Covers(a, servers) <==> b != [] && Covers(b, servers))
  {
    if ToSet(a) == ToSet(b) {
      forall name ensures name in a <==> name in b {
        assert name in a <==> name in ToSet(a);
        assert name in b <==> name in ToSet(b);
      }
      if a != [] {
        assert a[0] in b;
      }
      if b != [] {
        assert b[0] in a;
      }
    }
  }

  // ---- The flag over a turn ------------------------------------------------------------------

  /**
   * The flag is not part of the snapshot: over a run that keeps a turn open it follows today's
   * servers, and is what it was exactly when the list is empty or some enabled server is off the
   * list today as it was then.
   */
  lemma FlagFollowsServers<S(!new)>(st: State<S>, events: seq<Event<S>>, session: S)
    requires Inv(st) && StaysOpen(st, events, session)
    requires forall i | 0 <= i < |events| :: NamesUnique(events[i])
    ensures var list, now := HiddenList(st, session), Run(st, events);
            && Hidden(now, session) == SessionHiddenServers(list, list != [] && Covers(list, now.servers))
            && (Hidden(now, session) == Hidden(st, session)
                <==> list == [] || (LeavesOne(list, now.servers) <==> LeavesOne(list, st.servers)))
  {
    OpenTurnsKeepList(st, events, session);
  }

  /** Some enabled server is not on the list. */
  predicate LeavesOne(list: seq<string>, servers: seq<Server>)
  {
    exists i | 0 <= i < |servers| :: servers[i].enabled && servers[i].name !in list
  }

  /** Without an edit of the configured servers an open turn keeps list and flag. */
  lemma {:induction false} UneditedServersStay<S(!new)>(st: State<S>, events: seq<Event<S>>)
    requires forall i | 0 <= i < |events| :: !events[i].ServersEdited?
    ensures Run(st, events).servers == st.servers
  {
    if events != [] {
      UneditedServersStay(st, events[..|events| - 1]);
    }
  }

  lemma QuietConfigurationKeepsFlag<S(!new)>(st: State<S>, events: seq<Event<S>>, session: S)
    requires Inv(st) && StaysOpen(st, events, session)
    requires forall i | 0 <= i < |events| :: !events[i].ServersEdited?
    ensures Hidden(Run(st, events), session) == Hidden(st, session)
  {
    UneditedServersStay(st, events);
    FlagFollowsServers(st, events, session);
  }

  /** Adding a server in the middle of a turn flips the flag under it. */
  lemma EditFlipsFlagMidTurn<S(!new)>(session: S)
    ensures var one, two := [Server("a", true, true)], [Server("a", true, true), Server("b", true, false)];
            var open := TurnStart(State(map[], map[], map[], one), session, 1).0;
            var edited := Step(open, ServersEdited(two)).0;
            && Inv(open) && NoDuplicates(NamesOf(two)) && TurnLive(open, session) && TurnLive(edited, session)
            && Hidden(open, session) == SessionHiddenServers(["a"], true)
            && Hidden(edited, session) == SessionHiddenServers(["a"], false)
  {
    var one, two := [Server("a", true, true)], [Server("a", true, true), Server("b", true, false)];
    var st: State<S> := State(map[], map[], map[], one);
    assert one[..0] == [];
    assert Defaults(one) == ["a"];
    StartKeepsInv(st, session, 1);
    assert NamesOf(two)[0] == "a" && NamesOf(two)[1] == "b";
    assert two[1].name !in ["a"];
  }

  /** The list `set` stores: the given names, once each, in order. */
  lemma SetStoresTheSet<S(!new)>(st: State<S>, session: S, disabled: seq<string>)
    requires forall i | 0 <= i < |disabled| :: disabled[i] in NamesOf(st.servers)
    ensures var stored := SetChoice(st, session, disabled).0.store[session];
            ToSet(stored) == ToSet(disabled) && NoDuplicates(stored) && Sorted(stored)
    ensures !TurnLive(st, session) ==>
              HiddenList(SetChoice(st, session, disabled).0, session)
                  == SetChoice(st, session, disabled).0.store[session]
  {
    SortKeeps(Deduplicated(disabled));
  }
}

/**
 * What each step of the per-session MCP choice changes, and when a turn counts as open
 * (control-plane/src/mcp/mcp-choice.ts:60-191, control-plane/src/sandbox/manager/idle.ts:77-97).
 */
module McpChoiceSteps {
  import opened Prelude
  import opened SortedNames
  import opened McpChoice

  // ---- Open turns -----------------------------------------------------------------------------

  /** How many turns of the session are open after these events; an end without a start is ignored. */
  function OpenTurns<S(==)>(events: seq<Event<S>>, session: S): nat
  {
    if events == [] then 0
    else
      var before := OpenTurns(events[..|events| - 1], session);
      match events[|events| - 1]
      case Started(s, _) => if s == session then before + 1 else before
      case Ended(s) => if s == session && before > 0 then before - 1 else before
      case _ => before
  }

  function Turns<S>(st: State<S>, session: S): nat
  {
    if session in st.turns then st.turns[session] else 0
  }

  function NewHost<S>(store: map<S, seq<string>>, servers: seq<Server>): State<S>
  {
    State(store, map[], map[], servers)
  }

  lemma TurnsStep<S>(st: State<S>, event: Event<S>, session: S)
    ensures Turns(Step(st, event).0, session) ==
            match event
            case Started(s, _) => if s == session then Turns(st, session) + 1 else Turns(st, session)
            case Ended(s) => if s == session && Turns(st, session) > 0 then Turns(st, session) - 1
                             else Turns(st, session)
            case _ => Turns(st, session)
  {
  }

  /** In every run, a session is in a turn exactly when more of its turns have started than ended. */
  lemma {:induction false} LiveWhileTurnsAreOpen<S>(store: map<S, seq<string>>, servers: seq<Server>,
                                                    events: seq<Event<S>>, session: S)
    ensures Turns(Run(NewHost(store, servers), events), session) == OpenTurns(events, session)
    ensures TurnLive(Run(NewHost(store, servers), events), session) <==> OpenTurns(events, session) > 0
  {
    if events != [] {
      var init, last := events[..|events| - 1], events[|events| - 1];
      LiveWhileTurnsAreOpen(store, servers, init, session);
      TurnsStep(Run(NewHost(store, servers), init), last, session);
    }
  }

  // ---- What a step changes --------------------------------------------------------------------

  /** The session is as it was: its record, its snapshot and its open turns. */
  predicate Same<S>(st: State<S>, st': State<S>, session: S)
  {
    && (session in st.store <==> session in st'.store)
    && (session in st.store ==> st'.store[session] == st.store[session])
    && (session in st.live <==> session in st'.live)
    && (session in st.live ==> st'.live[session] == st.live[session])
    && Turns(st, session) == Turns(st', session)
  }

  predicate Concerns<S(==)>(event: Event<S>, session: S)
  {
    match event
    case Started(s, _) => s == session
    case Ended(s) => s == session
    case Set(s, _) => s == session
    case ServersEdited(_) => false
  }

  /** A step leaves every other session alone, and only an edit changes the configured servers. */
  lemma OthersStay<S>(st: State<S>, event: Event<S>, other: S)
    requires !Concerns(event, other)
    ensures Same(st, Step(st, event).0, other)
    ensures Step(st, event).0.servers == if event.ServersEdited? then event.servers else st.servers
  {
  }

  /**
   * A choice that names an unknown server changes nothing and gives no notice. Any other is recorded,
   * as a sorted list without duplicates; an open turn keeps its snapshot, and otherwise the notice goes out.
   */
  lemma SetIsExact<S(!new)>(st: State<S>, session: S, disabled: seq<string>)
    requires Inv(st)
    ensures var (st', notice) := SetChoice(st, session, disabled);
            var known := forall i | 0 <= i < |disabled| :: disabled[i] in NamesOf(st.servers);
            && (notice <==> known && !TurnLive(st, session))
            && (!known ==> st' == st)
            && (known ==>
                  && session in st'.store && ToSet(st'.store[session]) == ToSet(disabled)
                  && NoDuplicates(st'.store[session]) && Sorted(st'.store[session])
                  && st'.turns == st.turns && st'.live == st.live)
  {
    SortKeeps(Deduplicated(disabled));
    if !TurnLive(st, session) {
      assert session !in st.live;
      assert st.live - {session} == st.live;
    }
  }

  /**
   * A turn that starts records the session's choice if it has none, with a notice exactly then: nothing
   * off past the first turn, else today's defaults; and a snapshot is taken only by the first open turn.
   */
  lemma StartIsExact<S(!new)>(st: State<S>, session: S, turn: nat)
    requires Inv(st)
    ensures var (st', notice) := TurnStart(st, session, turn);
            && (notice <==> session !in st.store)
            && session in st'.store
            && st'.store[session] == (if session in st.store then st.store[session]
                                      else if turn > 1 then [] else Defaults(st.servers))
            && session in st'.live
            && st'.live[session] == (if TurnLive(st, session) then st.live[session] else st'.store[session])
  {
  }

  /** An end that leaves a turn open changes neither record nor snapshot; the last one drops the snapshot. */
  lemma EndIsExact<S(!new)>(st: State<S>, session: S)
    requires Inv(st)
    ensures var (st', changed) := TurnEnd(st, session);
            && st'.store == st.store
            && (Turns(st, session) > 1 ==> st'.live == st.live && !changed)
            && (Turns(st, session) <= 1 ==> session !in st'.live)
            && (changed <==>
                  Turns(st, session) == 1 && ToSet(st.live[session]) != ToSet(st.store[session]))
  {
    if Turns(st, session) == 1 {
      SameServersIsSetEquality(st.live[session], st.store[session]);
    }
  }
}

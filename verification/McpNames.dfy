/**
 * MCP tool names and the tools a session does not see (control-plane/src/mcp/mcp-store.ts:71-104;
 * control-plane/src/mcp/mcp-tool-exclusion.ts:77-144).
 */
module McpNames {
  import opened Prelude
  import opened Decimal
  import McpChoice
  import opened SortedNames
  import opened Text

  // ---- Server names --------------------------------------------------------------------------

  datatype NameError = BadCharacters | ReservedSeparator | TrailingUnderscore

  predicate NameCharacter(c: char)
  {
    'A' <= c <= 'Z' || 'a' <= c <= 'z' || IsDigit(c) || c == '_' || c == '-'
  }

  /** The name checks of validateMcpServerEntry, in order. */
  function ValidateName(name: string): Option<NameError>
  {
    if !(1 <= |name| <= 32 && forall i | 0 <= i < |name| :: NameCharacter(name[i])) then Some(BadCharacters)
    else if Includes(name, "__") then Some(ReservedSeparator)
    else if EndsWith(name, "_") then Some(TrailingUnderscore)
    else None
  }

  function Prefix(server: string): string
  {
    "mcp__" + server + "__"
  }

  predicate IsToolOfServer(tool: string, server: string)
  {
    StartsWith(tool, Prefix(server))
  }

  /** The public name of a server's tool. */
  function ToolName(server: string, tool: string): string
  {
    Prefix(server) + tool
  }

  // ---- No name carries another server's prefix -------------------------------------------------

  /** A name the two last checks pass has no "__" in it, nor across its end and a following "_". */
  predicate SeparatorFree(name: string)
  {
    !Includes(name, "__") && !EndsWith(name, "_")
  }

  lemma SeparatorAt(s: string, at: nat)
    requires at + 2 <= |s| && s[at] == '_' && s[at + 1] == '_'
    ensures Includes(s, "__")
  {
    assert s[at..at + 2] == "__";
    assert OccursAt(s, "__", at);
  }

  lemma TrailingAt(s: string)
    requires |s| > 0 && s[|s| - 1] == '_'
    ensures EndsWith(s, "_")
  {
    assert s[|s| - 1..|s|] == "_";
  }

  /** After a separator-free name, the first "__" is the one that ends it. */
  lemma FirstSeparator(name: string, rest: string, at: nat)
    requires SeparatorFree(name)
    requires var s := name + "__" + rest; at + 2 <= |s| && s[at] == '_' && s[at + 1] == '_'
    ensures at >= |name|
  {
    if at + 1 < |name| {
      SeparatorAt(name, at);
    } else if at + 1 == |name| {
      TrailingAt(name);
    }
  }

  /** So the server and the tool can be read back from a tool name. */
  lemma ReadsBack(a: string, b: string, tool: string, other: string)
    requires SeparatorFree(a) && SeparatorFree(b)
    requires a + "__" + tool == b + "__" + other
    ensures a == b && tool == other
  {
    var s, t := a + "__" + tool, b + "__" + other;
    assert s[|a|] == '_' && s[|a| + 1] == '_' && t[|b|] == '_' && t[|b| + 1] == '_';
    FirstSeparator(a, tool, |b|);
    FirstSeparator(b, other, |a|);
    assert s[..|a|] == a && t[..|b|] == b;
    assert s[|a| + 2..] == tool && t[|b| + 2..] == other;
  }

  /** The server a name is taken for: what stands before the first "__" of the name and the separator after it. */
  function Namesake(name: string): string
  {
    if name == "" || (name[0] == '_' && (|name| == 1 || name[1] == '_')) then ""
    else [name[0]] + Namesake(name[1..])
  }

  lemma {:induction false} NamesakeEnds(name: string, tool: string)
    ensures var s, n := name + "__" + tool, |Namesake(name)|;
            && n <= |name| && Namesake(name) == name[..n]
            && s[n] == '_' && s[n + 1] == '_'
            && forall k | 0 <= k < n :: !(s[k] == '_' && s[k + 1] == '_')
  {
    if !(name == "" || (name[0] == '_' && (|name| == 1 || name[1] == '_'))) {
      NamesakeEnds(name[1..], tool);
      var s, t := name + "__" + tool, name[1..] + "__" + tool;
      assert s == [name[0]] + t;
      assert forall k | 0 < k < |s| :: s[k] == t[k - 1];
    }
  }

  /** A tool carries a prefix when its name, past "mcp__", continues the server's name and the separator. */
  lemma PrefixSplits(name: string, server: string, tool: string)
    ensures IsToolOfServer(ToolName(name, tool), server) <==> server + "__" <= name + "__" + tool
  {
    var full, s := ToolName(name, tool), name + "__" + tool;
    assert full == "mcp__" + s;
    assert Prefix(server) == "mcp__" + (server + "__");
    assert full[5..] == s;
    if server + "__" <= s {
      assert full[..|Prefix(server)|] == "mcp__" + s[..|server| + 2];
    }
    if IsToolOfServer(full, server) {
      assert s[..|server| + 2] == full[..|Prefix(server)|][5..] == server + "__";
    }
  }

  lemma NamesakeIsCarried(name: string, tool: string)
    ensures IsToolOfServer(ToolName(name, tool), Namesake(name))
  {
    var s, n := name + "__" + tool, |Namesake(name)|;
    NamesakeEnds(name, tool);
    PrefixSplits(name, Namesake(name), tool);
    assert s[..n + 2] == Namesake(name) + "__";
  }

  lemma OnlyNamesakeIsCarried(name: string, server: string, tool: string)
    requires SeparatorFree(server) && IsToolOfServer(ToolName(name, tool), server)
    ensures server == Namesake(name)
  {
    var s, n := name + "__" + tool, |Namesake(name)|;
    NamesakeEnds(name, tool);
    PrefixSplits(name, server, tool);
    var rest := s[|server| + 2..];
    assert s == server + "__" + rest;
    FirstSeparator(server, rest, n);
    assert s[|server|] == '_' && s[|server| + 1] == '_';
    assert s[..n] == name[..n];
  }

  /** Whatever a tool is registered under, the one valid server whose prefix it carries is its namesake. */
  lemma CarriesNamesakesPrefix(name: string, server: string, tool: string)
    requires ValidateName(server).None?
    ensures IsToolOfServer(ToolName(name, tool), server) <==> server == Namesake(name)
  {
    NamesakeIsCarried(name, tool);
    if IsToolOfServer(ToolName(name, tool), server) {
      OnlyNamesakeIsCarried(name, server, tool);
    }
  }

  /** A separator-free name is taken for itself. */
  lemma NamesakeOfSeparatorFree(name: string)
    requires SeparatorFree(name)
    ensures Namesake(name) == name
  {
    NamesakeEnds(name, "");
    FirstSeparator(name, "", |Namesake(name)|);
  }

  /** A tool of one valid server carries another's prefix only when they are the same server. */
  lemma PrefixIsUnambiguous(a: string, b: string, tool: string)
    requires ValidateName(a).None? && ValidateName(b).None?
    ensures IsToolOfServer(ToolName(a, tool), b) <==> a == b
  {
    CarriesNamesakesPrefix(a, b, tool);
    NamesakeOfSeparatorFree(a);
  }

  // ---- Connection tests ------------------------------------------------------------------------

  /** The name a connection test mounts a server under, when it is free (control-plane/src/mcp/mcp-pool.ts:366-367). */
  function ProbeName(server: string): (r: string)
    ensures |r| <= 32 && r <= "probe_" + server && (|server| <= 26 ==> r == "probe_" + server)
  {
    var name := "probe_" + server;
    if |name| > 32 then name[..32] else name
  }

  /**
   * A test's tools are taken for a server of the test's own name, except that a leading "_" of the
   * tested name makes them those of "probe", and a cut right after a "_" those of the name without it.
   */
  lemma ProbeNamesake(server: string)
    requires ValidateName(server).None?
    ensures Namesake(ProbeName(server)) ==
            if server[0] == '_' then "probe"
            else if EndsWith(ProbeName(server), "_") then ProbeName(server)[..|ProbeName(server)| - 1]
            else ProbeName(server)
  {
    var name := ProbeName(server);
    NamesakeEnds(name, "");
    var s, n := name + "__" + "", |Namesake(name)|;
    assert name[..6] == "probe_" && name[6] == server[0];
    assert forall k | 6 <= k < |name| :: name[k] == server[k - 6];
    assert forall k | 0 <= k < 5 :: name[k] != '_' by {
      assert name[0] == 'p' && name[1] == 'r' && name[2] == 'o' && name[3] == 'b' && name[4] == 'e';
    }
    if server[0] == '_' {
      assert s[5] == '_' && s[6] == '_';
      assert n == 5 && name[..5] == "probe"[..];
    } else {
      forall k | 6 <= k < |name| - 1 ensures !(s[k] == '_' && s[k + 1] == '_') {
        if s[k] == '_' && s[k + 1] == '_' {
          SeparatorAt(server, k - 6);
        }
      }
      if EndsWith(name, "_") {
        assert name[|name| - 1..|name|] == "_";
        assert s[|name| - 1] == '_' && s[|name|] == '_';
      } else if name[|name| - 1] == '_' {
        TrailingAt(name);
      }
    }
  }

  /** The name a test takes otherwise: a count in base 36 (control-plane/src/mcp/mcp-pool.ts:368-369). */
  predicate IsNumbered(name: string)
  {
    "probe_" <= name && |name| > 6 && forall i | 6 <= i < |name| :: IsDigit(name[i]) || 'a' <= name[i] <= 'z'
  }

  /** Any name a test of the server may run under. */
  predicate IsTestName(name: string, server: string)
  {
    name == ProbeName(server) || IsNumbered(name)
  }

  /** The server a test's tools are taken for. */
  function TakenFor(name: string, server: string): string
  {
    if name != ProbeName(server) then name
    else if StartsWith(server, "_") then "probe"
    else if EndsWith(name, "_") then name[..|name| - 1]
    else name
  }

  lemma NumberedIsSeparatorFree(name: string)
    requires IsNumbered(name)
    ensures SeparatorFree(name)
  {
    assert name[..6] == "probe_";
    assert name[0] == 'p' && name[1] == 'r' && name[2] == 'o' && name[3] == 'b' && name[4] == 'e';
    NotThere(name);
    assert name[|name| - 1..][0] != "_"[0];
  }

  /**
   * The tools of a connection test belong to none of the configured servers, mounted or not, exactly
   * when the one server its name is taken for is not configured.
   */
  lemma TestsCollideExactly(server: string, name: string, tool: string, configured: set<string>)
    requires ValidateName(server).None? && IsTestName(name, server)
    requires forall s | s in configured :: ValidateName(s).None?
    ensures (forall s | s in configured :: !IsToolOfServer(ToolName(name, tool), s))
       <==> TakenFor(name, server) !in configured
  {
    TakenForIsNamesake(name, server);
    forall s | s in configured ensures IsToolOfServer(ToolName(name, tool), s) <==> s == Namesake(name) {
      CarriesNamesakesPrefix(name, s, tool);
    }
  }

  lemma TakenForIsNamesake(name: string, server: string)
    requires ValidateName(server).None? && IsTestName(name, server)
    ensures Namesake(name) == TakenFor(name, server)
  {
    if name == ProbeName(server) {
      ProbeNamesake(server);
      assert StartsWith(server, "_") <==> server[0] == '_';
    } else {
      NumberedIsSeparatorFree(name);
      NamesakeOfSeparatorFree(name);
    }
  }

  /** Testing "_x" registers tools that carry the prefix of a server called "probe". */
  lemma ProbeToolsLookLikeAnothers(tool: string)
    ensures ValidateName("_x").None? && ValidateName("probe").None?
    ensures IsToolOfServer(ToolName(ProbeName("_x"), tool), "probe")
  {
    assert "_x"[1..2][0] != "_"[0];
    NotThere("probe");
    forall at | 0 <= at <= 2 ensures !OccursAt("_x", "__", at) {
      if at == 0 {
        assert "_x"[0..2][1] != "__"[1];
      }
    }
    assert "probe"[4..5][0] != "_"[0];
    ProbeNamesake("_x");
    CarriesNamesakesPrefix(ProbeName("_x"), "probe", tool);
  }

  /** Name characters without two underscores in a row, nor one at the end, are a valid name. */
  lemma SpacedIsValid(name: string)
    requires 1 <= |name| <= 32 && forall i | 0 <= i < |name| :: NameCharacter(name[i])
    requires name[|name| - 1] != '_' && forall i | 0 <= i < |name| - 1 :: !(name[i] == '_' && name[i + 1] == '_')
    ensures ValidateName(name).None?
  {
    NotThere(name);
    assert name[|name| - 1..][0] != "_"[0];
  }

  /** A name with no "_" but the one of "probe_" is valid. */
  lemma ProbeOfPlainIsValid(server: string)
    requires 1 <= |server| <= 26 && forall i | 0 <= i < |server| :: NameCharacter(server[i]) && server[i] != '_'
    ensures ValidateName(server).None? && ValidateName("probe_" + server).None?
            && ProbeName(server) == "probe_" + server
  {
    var name := "probe_" + server;
    assert name[..6] == "probe_";
    assert name[0] == 'p' && name[1] == 'r' && name[2] == 'o' && name[3] == 'b' && name[4] == 'e' && name[5] == '_';
    forall k | 0 <= k < |name| ensures NameCharacter(name[k]) && (name[k] == '_' ==> k == 5) {
      if k >= 6 {
        assert name[k] == server[k - 6];
      }
    }
    SpacedIsValid(server);
    SpacedIsValid(name);
  }

  /** Testing a server "x" registers tools that carry the prefix of a server called "probe_x", whichever is mounted. */
  lemma ProbeToolsLookLikeAConfiguredServers(server: string, tool: string)
    requires 1 <= |server| <= 26 && forall i | 0 <= i < |server| :: NameCharacter(server[i]) && server[i] != '_'
    ensures ValidateName(server).None? && ValidateName("probe_" + server).None?
    ensures IsToolOfServer(ToolName(ProbeName(server), tool), "probe_" + server)
  {
    ProbeOfPlainIsValid(server);
    PrefixIsUnambiguous("probe_" + server, "probe_" + server, tool);
  }

  lemma NotThere(s: string)
    requires forall i | 0 <= i < |s| - 1 :: !(s[i] == '_' && s[i + 1] == '_')
    ensures !Includes(s, "__")
  {
    forall at | 0 <= at <= |s| ensures !OccursAt(s, "__", at) {
      if at + 2 <= |s| {
        var k := if s[at] == '_' then 1 else 0;
        assert s[at..at + 2][k] != "__"[k];
      }
    }
  }

  /** Without the last check the prefixes collide: a tool of "gh_" also carries the prefix of "gh". */
  lemma TrailingUnderscoreCollides()
    ensures ValidateName("gh_") == Some(TrailingUnderscore) && ValidateName("gh").None?
    ensures IsToolOfServer(ToolName("gh_", "x"), "gh")
  {
    NotThere("gh_");
    NotThere("gh");
    TrailingAt("gh_");
    assert "gh"[1..2][0] != "_"[0];
    assert ToolName("gh_", "x") == "mcp__gh___x";
    assert Prefix("gh") == "mcp__gh__";
    assert "mcp__gh___x"[..9] == "mcp__gh__";
  }

  /** Nor may a name hold the separator: a tool of "gh__x" also carries the prefix of "gh". */
  lemma InnerSeparatorCollides(tool: string)
    ensures ValidateName("gh__x") == Some(ReservedSeparator)
    ensures IsToolOfServer(ToolName("gh__x", tool), "gh")
  {
    SeparatorAt("gh__x", 2);
    assert ToolName("gh__x", tool)[..9] == "mcp__gh__";
  }

  // ---- Hidden tools --------------------------------------------------------------------------

  const RESOURCE_TOOLS: set<string> :=
    {"list_mcp_resources", "list_mcp_resource_templates", "read_mcp_resource"}

  predicate IsMcpToolName(name: string)
  {
    StartsWith(name, "mcp__") || name in RESOURCE_TOOLS
  }

  datatype HiddenServers = All | Listed(servers: set<string>, everyServer: bool)

  predicate HidesName(name: string, hidden: HiddenServers)
  {
    match hidden
    case All => true
    case Listed(servers, everyServer) =>
      if name in RESOURCE_TOOLS then everyServer else exists server | server in servers :: IsToolOfServer(name, server)
  }

  function Filter(names: seq<string>, keep: string -> bool): (r: seq<string>)
    ensures forall i | 0 <= i < |r| :: r[i] in names && keep(r[i])
  {
    if names == [] then [] else
    var last := names[|names| - 1];
    Filter(names[..|names| - 1], keep) + if keep(last) then [last] else []
  }

  function McpToolNames(names: seq<string>): seq<string>
  {
    Sort(Filter(names, IsMcpToolName))
  }

  function HiddenMcpToolNames(names: seq<string>, hidden: HiddenServers): seq<string>
  {
    if hidden.All? then McpToolNames(names) else Filter(McpToolNames(names), name => HidesName(name, hidden))
  }

  lemma {:induction false} FilterKeeps(names: seq<string>, keep: string -> bool, name: string)
    ensures multiset(Filter(names, keep))[name] == if keep(name) then multiset(names)[name] else 0
  {
    if names != [] {
      assert names == names[..|names| - 1] + [names[|names| - 1]];
      FilterKeeps(names[..|names| - 1], keep, name);
    }
  }

  lemma {:induction false} FilterSorted(names: seq<string>, keep: string -> bool)
    requires Sorted(names)
    ensures Sorted(Filter(names, keep))
  {
    if names != [] {
      var init := names[..|names| - 1];
      FilterSorted(init, keep);
      forall i | 0 <= i < |Filter(init, keep)|
        ensures CompareText(Filter(init, keep)[i], names[|names| - 1]) <= 0
      {
        var k :| 0 <= k < |init| && init[k] == Filter(init, keep)[i];
      }
    }
  }

  /** Who registered a tool name: a mounted server or a connection test, the shared resource tools, or another row. */
  datatype Owner = ServerTool(server: string, tool: string) | ResourceTool(name: string) | Other(name: string)

  function RegisteredName(owner: Owner): string
  {
    match owner
    case ServerTool(server, tool) => ToolName(server, tool)
    case ResourceTool(name) => name
    case Other(name) => name
  }

  /** What the two other kinds mean; a server tool may be registered under any name, a test's included. */
  predicate ValidOwner(owner: Owner)
  {
    match owner
    case ServerTool(_, _) => true
    case ResourceTool(name) => name in RESOURCE_TOOLS
    case Other(name) => !IsMcpToolName(name)
  }

  /** What a session should not see: the tools taken for a hidden server's, and the resource tools by the flag. */
  predicate OwnerHidden(owner: Owner, hidden: HiddenServers)
  {
    match owner
    case ServerTool(server, _) => hidden.All? || Namesake(server) in hidden.servers
    case ResourceTool(_) => hidden.All? || hidden.everyServer
    case Other(_) => false
  }

  /**
   * hiddenMcpToolNames lists, sorted and as often as registered, exactly the tools whose owner is
   * hidden, for every registered tool.
   */
  lemma HidesExactlyTheHiddenOwners(names: seq<string>, hidden: HiddenServers, owner: Owner)
    requires ValidOwner(owner)
    requires hidden.Listed? ==> forall server | server in hidden.servers :: ValidateName(server).None?
    ensures Sorted(HiddenMcpToolNames(names, hidden))
    ensures multiset(HiddenMcpToolNames(names, hidden))[RegisteredName(owner)] ==
            if OwnerHidden(owner, hidden) then multiset(names)[RegisteredName(owner)] else 0
  {
    var name := RegisteredName(owner);
    SortKeeps(Filter(names, IsMcpToolName));
    FilterKeeps(names, IsMcpToolName, name);
    OwnerDecides(owner, hidden);
    if hidden.Listed? {
      var keep := (n: string) => HidesName(n, hidden);
      assert HiddenMcpToolNames(names, hidden) == Filter(McpToolNames(names), keep);
      FilterKeeps(McpToolNames(names), keep, name);
      FilterSorted(McpToolNames(names), keep);
    }
  }

  /** The two name tests decide by owner. */
  lemma OwnerDecides(owner: Owner, hidden: HiddenServers)
    requires ValidOwner(owner)
    requires hidden.Listed? ==> forall server | server in hidden.servers :: ValidateName(server).None?
    ensures IsMcpToolName(RegisteredName(owner)) && HidesName(RegisteredName(owner), hidden)
            <==> OwnerHidden(owner, hidden)
  {
    if owner.ServerTool? {
      var name := RegisteredName(owner);
      assert name[..5] == "mcp__";
      ToolIsNoResource(name);
      if hidden.Listed? {
        forall server | server in hidden.servers
          ensures IsToolOfServer(name, server) <==> server == Namesake(owner.server)
        {
          CarriesNamesakesPrefix(owner.server, server, owner.tool);
        }
      }
    }
  }

  lemma ToolIsNoResource(name: string)
    requires |name| >= 5 && name[..5] == "mcp__"
    ensures name !in RESOURCE_TOOLS
  {
    assert name[0] == 'm';
    assert "list_mcp_resources"[0] == 'l';
    assert "list_mcp_resource_templates"[0] == 'l';
    assert "read_mcp_resource"[0] == 'r';
  }

  // ---- What a session's tools come to ----------------------------------------------------------

  /** The deny list works on a set of what `hidden` returns. */
  function OfSession(hidden: McpChoice.SessionHiddenServers): HiddenServers
  {
    Listed(ToSet(hidden.servers), hidden.everyServer)
  }

  /** The tool is denied to the session: its server is on the list, or the list covers every enabled server. */
  predicate Denied<S>(st: McpChoice.State<S>, session: S, owner: Owner)
  {
    var list := McpChoice.HiddenList(st, session);
    match owner
    case ServerTool(server, _) => Namesake(server) in list
    case ResourceTool(_) => list != [] && !McpChoice.LeavesOne(list, st.servers)
    case Other(_) => false
  }

  /**
   * For every session and every registered tool: a valid server's tools are denied exactly when the
   * server is on the session's list, and the resource tools exactly when the list is not empty and
   * no enabled server is missing from it.
   */
  lemma SessionDeniesExactly<S>(st: McpChoice.State<S>, session: S, names: seq<string>, owner: Owner)
    requires ValidOwner(owner)
    requires var list := McpChoice.HiddenList(st, session);
             forall i | 0 <= i < |list| :: ValidateName(list[i]).None?
    ensures multiset(HiddenMcpToolNames(names, OfSession(McpChoice.Hidden(st, session))))[RegisteredName(owner)] ==
            if Denied(st, session, owner) then multiset(names)[RegisteredName(owner)] else 0
    ensures owner.ServerTool? && ValidateName(owner.server).None? ==>
              (Denied(st, session, owner) <==> owner.server in McpChoice.HiddenList(st, session))
  {
    var hidden := OfSession(McpChoice.Hidden(st, session));
    HidesExactlyTheHiddenOwners(names, hidden, owner);
    if owner.ServerTool? {
      assert Namesake(owner.server) in hidden.servers <==> Namesake(owner.server) in McpChoice.HiddenList(st, session);
      if ValidateName(owner.server).None? {
        NamesakeOfSeparatorFree(owner.server);
      }
    }
  }
}

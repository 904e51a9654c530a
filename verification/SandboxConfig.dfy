/**
 * The settings resolvers (control-plane/src/sandbox/config.ts:300-384, 434-495, 548-662).
 *
 * A JavaScript record is a list of own entries in insertion order plus the names its prototype
 * chain answers, because the code reads records by bracket lookup, which sees both.
 */
module SandboxConfig {
  import opened Prelude
  import Decimal

  // ---- JavaScript records ----------------------------------------------------------------

  datatype Entry<+V> = Entry(name: string, value: V)

  /** A record: its own entries and every name its prototype chain answers. */
  datatype Dict<+V> = Dict(entries: seq<Entry<V>>, inherited: set<string>)

  /** What Object.prototype answers. */
  const OBJECT_PROTOTYPE: set<string> := {
    "constructor", "toString", "toLocaleString", "valueOf", "hasOwnProperty", "isPrototypeOf",
    "propertyIsEnumerable", "__proto__", "__defineGetter__", "__defineSetter__",
    "__lookupGetter__", "__lookupSetter__"
  }

  function Names<V>(entries: seq<Entry<V>>): (names: set<string>)
    ensures forall i | 0 <= i < |entries| :: entries[i].name in names
  {
    set i | 0 <= i < |entries| :: entries[i].name
  }

  /** No two own entries share a name. */
  predicate UniqueNames<V>(entries: seq<Entry<V>>)
  {
    forall i, j | 0 <= i < j < |entries| :: entries[i].name != entries[j].name
  }

  /** An own property. */
  function Own<V>(entries: seq<Entry<V>>, name: string): (r: Option<V>)
    ensures r.Some? <==> name in Names(entries)
  {
    if entries == [] then None
    else if entries[|entries| - 1].name == name then Some(entries[|entries| - 1].value)
    else Own(entries[..|entries| - 1], name)
  }

  /** `record[name] !== undefined` */
  predicate Answers<V>(record: Dict<V>, name: string)
  {
    name in Names(record.entries) || name in record.inherited
  }

  // ---- Settings --------------------------------------------------------------------------

  /** A JavaScript number: NotFinite is NaN or an infinity. */
  datatype Num = Finite(value: real) | NotFinite

  /** Number.isFinite(n) && n > 0 */
  predicate Positive(n: Num)
  {
    n.Finite? && n.value > 0.0
  }

  predicate PositiveIfSet(n: Option<Num>)
  {
    n.Some? ==> Positive(n.value)
  }

  const TEN_MINUTES := Finite(600000.0)
  const THREE_MINUTES := Finite(180000.0)
  const SEVEN_DAYS := Finite(604800000.0)

  datatype ProfileConfig =
    | DockerConfig(image: Option<string>, binary: Option<string>, dockerUrl: Option<string>, idleMs: Option<Num>)
    | KasConfig(namespace: Option<string>, warmPool: Option<string>, readyTimeoutMs: Option<Num>,
                kubeconfig: Option<string>, idleMs: Option<Num>)
    | BuildkiteConfig(organization: string, pipeline: string, buildkiteUrl: string, image: Option<string>,
                      readyTimeoutMs: Option<Num>, idleMs: Option<Num>, secretKey: Option<string>)

  datatype SandboxProfile =
    | Docker(name: string, image: string, binary: Option<string>, controlPlaneUrl: string, idleMs: Option<Num>)
    | Kas(name: string, namespace: string, warmPool: string, readyTimeoutMs: Num, kubeconfig: Option<string>,
          idleMs: Option<Num>)
    | Buildkite(name: string, organization: string, pipeline: string, image: string, controlPlaneUrl: string,
                readyTimeoutMs: Num, idleMs: Option<Num>, secretKey: Option<string>)

  datatype RuntimeConfig = RuntimeConfig(
    profiles: Option<Dict<ProfileConfig>>,
    defaultProfile: Option<string>,
    idleMs: Option<Num>,
    expiresAfterMs: Option<Num>,
    readyTimeoutMs: Option<Num>)

  datatype Raw = Raw(
    profiles: seq<Entry<ProfileConfig>>,
    defaultProfile: Option<string>,
    idleMs: Option<Num>,
    expiresAfterMs: Option<Num>,
    readyTimeoutMs: Option<Num>)

  datatype Runtime = Runtime(
    profiles: Dict<SandboxProfile>,
    defaultProfile: Option<string>,
    idleMs: Num,
    expiresAfterMs: Num,
    readyTimeoutMs: Option<Num>)

  datatype UrlKind = NotAUrl | OtherScheme | WebSocket

  /** What resolution reads besides the settings: the port, the package's image and the URL parser. */
  datatype Host = Host(tunnelPort: nat, runnerImage: string, urls: string -> UrlKind)

  datatype Error =
    | ReadyTimeoutNotPositive
    | ProfileIdleNotPositive(profile: string)
    | UrlInvalid(profile: string, url: string)
    | UrlScheme(profile: string)
    | DefaultNotConfigured(defaultProfile: string)
    | IdleNotPositive
    | ExpiresNotPositive

  /** One warning, with the problem the strict resolver would have thrown for. */
  datatype Warning = Warning(problem: Error, used: Option<string>)

  // ---- The deployment base ---------------------------------------------------------------

  function OrElse<T>(first: Option<T>, second: Option<T>): Option<T>
  {
    if first.Some? then first else second
  }

  function EntriesOf(profiles: Option<Dict<ProfileConfig>>): seq<Entry<ProfileConfig>>
  {
    if profiles.Some? then profiles.value.entries else []
  }

  /** The loop `profiles[name] ??= profile`, over a copy of the base that inherits from Object.prototype. */
  function AddPage(base: seq<Entry<ProfileConfig>>, page: seq<Entry<ProfileConfig>>): seq<Entry<ProfileConfig>>
  {
    if page == [] then base else
    var sofar := AddPage(base, page[..|page| - 1]);
    var last := page[|page| - 1];
    if Answers(Dict(sofar, OBJECT_PROTOTYPE), last.name) then sofar else sofar + [last]
  }

  function WithDeploymentBase(config: RuntimeConfig, base: RuntimeConfig): Raw
  {
    Raw(AddPage(EntriesOf(base.profiles), EntriesOf(config.profiles)),
        OrElse(config.defaultProfile, base.defaultProfile),
        OrElse(config.idleMs, base.idleMs),
        OrElse(config.expiresAfterMs, base.expiresAfterMs),
        OrElse(config.readyTimeoutMs, base.readyTimeoutMs))
  }

  /** Own names of a record are distinct, as every JavaScript record's are. */
  predicate IsRecord(profiles: Option<Dict<ProfileConfig>>)
  {
    UniqueNames(EntriesOf(profiles))
  }

  lemma {:induction false} AddPageDistinct(base: seq<Entry<ProfileConfig>>, page: seq<Entry<ProfileConfig>>)
    requires UniqueNames(base)
    ensures UniqueNames(AddPage(base, page))
  {
    if page != [] {
      AddPageDistinct(base, page[..|page| - 1]);
    }
  }

  lemma {:induction false} OwnOfAppend<V>(entries: seq<Entry<V>>, last: Entry<V>, name: string)
    ensures Own(entries + [last], name) == if last.name == name then Some(last.value) else Own(entries, name)
  {
    assert (entries + [last])[..|entries|] == entries;
  }

  /**
   * The merge by names: a deployment profile always wins, a page profile is an addition unless
   * every object already answers its name.
   */
  lemma {:induction false} MergedByName(base: seq<Entry<ProfileConfig>>, page: seq<Entry<ProfileConfig>>, name: string)
    requires UniqueNames(page)
    ensures Own(AddPage(base, page), name) ==
            if Own(base, name).Some? then Own(base, name)
            else if name in OBJECT_PROTOTYPE then None
            else Own(page, name)
  {
    if page != [] {
      var init, last := page[..|page| - 1], page[|page| - 1];
      assert UniqueNames(init);
      MergedByName(base, init, name);
      MergedByName(base, init, last.name);
      OwnOfAppend(AddPage(base, init), last, name);
      assert Own(init, last.name).None?;
    }
  }

  // ---- One profile -----------------------------------------------------------------------

  function CheckUrl(host: Host, profile: string, url: string): Option<Error>
  {
    match host.urls(url)
    case NotAUrl => Some(UrlInvalid(profile, url))
    case OtherScheme => Some(UrlScheme(profile))
    case WebSocket => None
  }

  function DefaultTo<T>(value: Option<T>, fallback: T): T
  {
    if value.Some? then value.value else fallback
  }

  function DockerUrl(host: Host, profile: ProfileConfig): string
    requires profile.DockerConfig?
  {
    DefaultTo(profile.dockerUrl, "ws://host.docker.internal:" + Decimal.Print(host.tunnelPort) + "/tunnel")
  }

  /** The runner can dial the profile's tunnel address, if its backend has one. */
  predicate UrlUsable(host: Host, profile: ProfileConfig)
  {
    match profile
    case DockerConfig(_, _, _, _) => host.urls(DockerUrl(host, profile)).WebSocket?
    case BuildkiteConfig(_, _, url, _, _, _, _) => host.urls(url).WebSocket?
    case KasConfig(_, _, _, _, _) => true
  }

  /** The checks a profile has to pass. */
  predicate Resolvable(host: Host, profile: ProfileConfig)
  {
    PositiveIfSet(profile.idleMs) && UrlUsable(host, profile)
  }

  predicate IfSet<T(==)>(setting: Option<T>, resolved: T)
  {
    setting.Some? ==> resolved == setting.value
  }

  /** Every setting a profile makes is what its resolved form has, on the same backend. */
  predicate KeepsSettings(profile: ProfileConfig, resolved: SandboxProfile)
  {
    && resolved.idleMs == profile.idleMs
    && match profile
       case DockerConfig(image, binary, url, _) =>
         && resolved.Docker? && resolved.binary == binary
         && IfSet(image, resolved.image) && IfSet(url, resolved.controlPlaneUrl)
       case KasConfig(namespace, warmPool, ready, kubeconfig, _) =>
         && resolved.Kas? && resolved.kubeconfig == kubeconfig
         && IfSet(namespace, resolved.namespace) && IfSet(warmPool, resolved.warmPool)
              && IfSet(ready, resolved.readyTimeoutMs)
       case BuildkiteConfig(organization, pipeline, url, image, ready, _, secretKey) =>
         && resolved.Buildkite? && resolved.organization == organization && resolved.pipeline == pipeline
         && resolved.controlPlaneUrl == url && resolved.secretKey == secretKey
         && IfSet(image, resolved.image) && IfSet(ready, resolved.readyTimeoutMs)
  }

  predicate IfUnset<S, T(==)>(setting: Option<S>, fallback: T, resolved: T)
  {
    setting.None? ==> resolved == fallback
  }

  /** What every setting a profile leaves unset becomes: the shared ready timeout before the backend's own default. */
  predicate FillsSettings(host: Host, profile: ProfileConfig, ready: Option<Num>, resolved: SandboxProfile)
    requires KeepsSettings(profile, resolved)
  {
    match profile
    case DockerConfig(image, _, url, _) =>
      && IfUnset(image, host.runnerImage, resolved.image)
      && IfUnset(url, "ws://host.docker.internal:" + Decimal.Print(host.tunnelPort) + "/tunnel",
           resolved.controlPlaneUrl)
    case KasConfig(namespace, warmPool, own, _, _) =>
      && IfUnset(namespace, "dsh-yawn", resolved.namespace)
      && IfUnset(warmPool, "dsh-yawn-universal", resolved.warmPool)
      && IfUnset(own, DefaultTo(ready, THREE_MINUTES), resolved.readyTimeoutMs)
    case BuildkiteConfig(_, _, _, image, own, _, _) =>
      && IfUnset(image, host.runnerImage, resolved.image)
      && IfUnset(own, DefaultTo(ready, TEN_MINUTES), resolved.readyTimeoutMs)
  }

  function ResolveProfile(host: Host, name: string, profile: ProfileConfig, ready: Option<Num>)
    : (r: Result<SandboxProfile, Error>)
    ensures r.Ok? <==> Resolvable(host, profile)
    ensures r.Ok? ==>
              r.value.name == name && KeepsSettings(profile, r.value) && FillsSettings(host, profile, ready, r.value)
  {
    if !PositiveIfSet(profile.idleMs) then Err(ProfileIdleNotPositive(name)) else
    match profile
    case DockerConfig(image, binary, _, idleMs) =>
      var url := DockerUrl(host, profile);
      var problem := CheckUrl(host, name, url);
      if problem.Some? then Err(problem.value)
      else Ok(Docker(name, DefaultTo(image, host.runnerImage), binary, url, idleMs))
    case BuildkiteConfig(organization, pipeline, url, image, readyTimeoutMs, idleMs, secretKey) =>
      var problem := CheckUrl(host, name, url);
      if problem.Some? then Err(problem.value)
      else Ok(Buildkite(name, organization, pipeline, DefaultTo(image, host.runnerImage), url,
                        DefaultTo(OrElse(readyTimeoutMs, ready), TEN_MINUTES), idleMs, secretKey))
    case KasConfig(namespace, warmPool, readyTimeoutMs, kubeconfig, idleMs) =>
      Ok(Kas(name, DefaultTo(namespace, "dsh-yawn"), DefaultTo(warmPool, "dsh-yawn-universal"),
             DefaultTo(OrElse(readyTimeoutMs, ready), THREE_MINUTES), kubeconfig, idleMs))
  }

  /** The field names of a resolved profile object: what a record answers once one is its prototype. */
  function Fields(profile: SandboxProfile): set<string>
  {
    {"name", "backend"}
    + (if profile.idleMs.Some? then {"idleMs"} else {})
    + match profile
      case Docker(_, _, binary, _, _) =>
        {"image", "controlPlaneUrl"} + if binary.Some? then {"binary"} else {}
      case Kas(_, _, _, _, kubeconfig, _) =>
        {"namespace", "warmPool", "readyTimeoutMs"} + if kubeconfig.Some? then {"kubeconfig"} else {}
      case Buildkite(_, _, _, _, _, _, _, secretKey) =>
        {"organization", "pipeline", "image", "controlPlaneUrl", "readyTimeoutMs"}
        + if secretKey.Some? then {"secretKey"} else {}
  }

  /** `record[name] = value`: assigning "__proto__" to a record without its own swaps the prototype instead. */
  function Assign(record: Dict<SandboxProfile>, name: string, value: SandboxProfile): Dict<SandboxProfile>
  {
    if name in Names(record.entries) then
      Dict(seq(|record.entries|, i requires 0 <= i < |record.entries| =>
                 if record.entries[i].name == name then Entry(name, value) else record.entries[i]),
           record.inherited)
    else if name == "__proto__" then
      record.(inherited := OBJECT_PROTOTYPE + Fields(value))
    else
      record.(entries := record.entries + [Entry(name, value)])
  }

  // ---- The strict resolver ---------------------------------------------------------------

  /** `Object.fromEntries(Object.entries(profiles).map(resolve))`: the first bad profile throws. */
  function ResolveAll(host: Host, profiles: seq<Entry<ProfileConfig>>, ready: Option<Num>)
    : (r: Result<seq<Entry<SandboxProfile>>, Error>)
    ensures r.Ok? ==> |r.value| == |profiles| && forall i | 0 <= i < |profiles| :: r.value[i].name == profiles[i].name
  {
    if profiles == [] then Ok([]) else
    var sofar := ResolveAll(host, profiles[..|profiles| - 1], ready);
    if sofar.Err? then sofar else
    var last := profiles[|profiles| - 1];
    var resolved := ResolveProfile(host, last.name, last.value, ready);
    if resolved.Err? then Err(resolved.error) else Ok(sofar.value + [Entry(last.name, resolved.value)])
  }

  function ChosenDefault(entries: seq<Entry<SandboxProfile>>, raw: Option<string>): Option<string>
  {
    if entries == [] then None else Some(DefaultTo(raw, entries[0].name))
  }

  function ResolveRuntime(host: Host, config: RuntimeConfig, base: RuntimeConfig): Result<Runtime, Error>
  {
    var raw := WithDeploymentBase(config, base);
    if !PositiveIfSet(raw.readyTimeoutMs) then Err(ReadyTimeoutNotPositive) else
    var all := ResolveAll(host, raw.profiles, raw.readyTimeoutMs);
    if all.Err? then Err(all.error) else
    var profiles := Dict(all.value, OBJECT_PROTOTYPE);
    var chosen := ChosenDefault(all.value, raw.defaultProfile);
    if chosen.Some? && !Answers(profiles, chosen.value) then Err(DefaultNotConfigured(chosen.value)) else
    var idle := DefaultTo(raw.idleMs, TEN_MINUTES);
    var expires := DefaultTo(raw.expiresAfterMs, SEVEN_DAYS);
    if !Positive(idle) then Err(IdleNotPositive)
    else if !Positive(expires) then Err(ExpiresNotPositive)
    else Ok(Runtime(profiles, chosen, idle, expires, raw.readyTimeoutMs))
  }

  // ---- The degrading resolver ------------------------------------------------------------

  /** The profile loop: what it has assigned and warned about after the given entries. */
  function AssignAll(host: Host, profiles: seq<Entry<ProfileConfig>>, ready: Option<Num>)
    : (Dict<SandboxProfile>, seq<Warning>)
  {
    if profiles == [] then (Dict([], OBJECT_PROTOTYPE), []) else
    var (record, warnings) := AssignAll(host, profiles[..|profiles| - 1], ready);
    var last := profiles[|profiles| - 1];
    match ResolveProfile(host, last.name, last.value, ready)
    case Ok(resolved) => (Assign(record, last.name, resolved), warnings)
    case Err(problem) => (record, warnings + [Warning(problem, None)])
  }

  /** bootTimer: the value, or the fallback and one warning. */
  function BootTimer(value: Option<Num>, fallback: Num, problem: Error): (r: (Num, seq<Warning>))
    ensures Positive(fallback) ==> Positive(r.0)
    ensures r.1 == [] <==> PositiveIfSet(value)
  {
    if value.None? then (fallback, [])
    else if !Positive(value.value) then (fallback, [Warning(problem, None)])
    else (value.value, [])
  }

  datatype Degraded = Degraded(runtime: Runtime, warnings: seq<Warning>)

  function UsableReady(raw: Raw): Option<Num>
  {
    if PositiveIfSet(raw.readyTimeoutMs) then raw.readyTimeoutMs else None
  }

  function ReadyWarnings(raw: Raw): seq<Warning>
  {
    if PositiveIfSet(raw.readyTimeoutMs) then [] else [Warning(ReadyTimeoutNotPositive, None)]
  }

  /** The default and its warning: a name the record does not answer falls back to the first profile. */
  function DegradedDefault(record: Dict<SandboxProfile>, raw: Option<string>): (Option<string>, seq<Warning>)
  {
    var chosen := ChosenDefault(record.entries, raw);
    if chosen.Some? && !Answers(record, chosen.value) then
      (Some(record.entries[0].name), [Warning(DefaultNotConfigured(chosen.value), Some(record.entries[0].name))])
    else (chosen, [])
  }

  function DegradingRuntime(host: Host, config: RuntimeConfig, base: RuntimeConfig): Degraded
  {
    var raw := WithDeploymentBase(config, base);
    var (record, profileWarnings) := AssignAll(host, raw.profiles, UsableReady(raw));
    var (chosen, defaultWarnings) := DegradedDefault(record, raw.defaultProfile);
    var (idle, idleWarnings) := BootTimer(raw.idleMs, TEN_MINUTES, IdleNotPositive);
    var (expires, expiresWarnings) := BootTimer(raw.expiresAfterMs, SEVEN_DAYS, ExpiresNotPositive);
    Degraded(Runtime(record, chosen, idle, expires, UsableReady(raw)),
             ReadyWarnings(raw) + profileWarnings + defaultWarnings + idleWarnings + expiresWarnings)
  }

  /** The merge loop of withDeploymentBase. */
  method MergePage(base: seq<Entry<ProfileConfig>>, page: seq<Entry<ProfileConfig>>)
    returns (merged: seq<Entry<ProfileConfig>>)
    ensures merged == AddPage(base, page)
  {
    merged := base;
    for i := 0 to |page|
      invariant merged == AddPage(base, page[..i])
    {
      assert page[..i + 1][..i] == page[..i];
      if !Answers(Dict(merged, OBJECT_PROTOTYPE), page[i].name) {
        merged := merged + [page[i]];
      }
    }
    assert page[..|page|] == page;
  }

  /** The profile loop of resolveDegradingRuntime, adding to the warnings so far. */
  method AssignProfiles(host: Host, profiles: seq<Entry<ProfileConfig>>, ready: Option<Num>, sofar: seq<Warning>)
    returns (record: Dict<SandboxProfile>, warnings: seq<Warning>)
    ensures record == AssignAll(host, profiles, ready).0
    ensures warnings == sofar + AssignAll(host, profiles, ready).1
  {
    record, warnings := Dict([], OBJECT_PROTOTYPE), sofar;
    for i := 0 to |profiles|
      invariant record == AssignAll(host, profiles[..i], ready).0
      invariant warnings == sofar + AssignAll(host, profiles[..i], ready).1
    {
      assert profiles[..i + 1][..i] == profiles[..i];
      match ResolveProfile(host, profiles[i].name, profiles[i].value, ready)
      case Ok(resolved) => record := Assign(record, profiles[i].name, resolved);
      case Err(problem) => warnings := warnings + [Warning(problem, None)];
    }
    assert profiles[..|profiles|] == profiles;
  }

  /** resolveDegradingRuntime, as the code writes it: one growing list of warnings. */
  method ResolveDegradingRuntime(host: Host, config: RuntimeConfig, base: RuntimeConfig) returns (r: Degraded)
    ensures r == DegradingRuntime(host, config, base)
  {
    var merged := MergePage(EntriesOf(base.profiles), EntriesOf(config.profiles));
    var raw := WithDeploymentBase(config, base);
    var warnings := ReadyWarnings(raw);
    var profiles;
    profiles, warnings := AssignProfiles(host, merged, UsableReady(raw), warnings);
    var (chosen, defaultWarnings) := DegradedDefault(profiles, raw.defaultProfile);
    warnings := warnings + defaultWarnings;
    var (idle, idleWarnings) := BootTimer(raw.idleMs, TEN_MINUTES, IdleNotPositive);
    warnings := warnings + idleWarnings;
    var (expires, expiresWarnings) := BootTimer(raw.expiresAfterMs, SEVEN_DAYS, ExpiresNotPositive);
    warnings := warnings + expiresWarnings;
    r := Degraded(Runtime(profiles, chosen, idle, expires, UsableReady(raw)), warnings);
  }

  // ---- Strict against degrading ----------------------------------------------------------

  /** A name that reaches the degrading record by assignment stays an own name, unless it is "__proto__". */
  lemma OwnOfAssign(record: Dict<SandboxProfile>, name: string, value: SandboxProfile, q: string)
    requires name !in Names(record.entries)
    ensures Own(Assign(record, name, value).entries, q) ==
            if q == name && name != "__proto__" then Some(value) else Own(record.entries, q)
  {
    OwnOfAppend(record.entries, Entry(name, value), q);
  }

  lemma LastIsNew<V>(entries: seq<Entry<V>>)
    requires UniqueNames(entries) && entries != []
    ensures var init, last := entries[..|entries| - 1], entries[|entries| - 1];
            && UniqueNames(init) && Own(init, last.name).None? && last.name !in Names(init)
            && entries == init + [last]
  {
  }

  lemma AssignLast(host: Host, profiles: seq<Entry<ProfileConfig>>, last: Entry<ProfileConfig>,
                   ready: Option<Num>, q: string)
    requires last.name !in Names(AssignAll(host, profiles, ready).0.entries)
    ensures Own(AssignAll(host, profiles + [last], ready).0.entries, q) ==
            match ResolveProfile(host, last.name, last.value, ready)
            case Err(_) => Own(AssignAll(host, profiles, ready).0.entries, q)
            case Ok(resolved) =>
              if q == last.name && last.name != "__proto__" then Some(resolved)
              else Own(AssignAll(host, profiles, ready).0.entries, q)
  {
    assert (profiles + [last])[..|profiles|] == profiles;
    var resolved := ResolveProfile(host, last.name, last.value, ready);
    if resolved.Ok? {
      OwnOfAssign(AssignAll(host, profiles, ready).0, last.name, resolved.value, q);
    }
  }

  /** What the degrading record owns under one name depends on that name's settings alone. */
  lemma {:induction false} AssignedByName(host: Host, profiles: seq<Entry<ProfileConfig>>,
                                          ready: Option<Num>, q: string)
    requires UniqueNames(profiles)
    ensures Own(AssignAll(host, profiles, ready).0.entries, q) == ResolvedOwn(host, profiles, ready, q)
  {
    if profiles != [] {
      var init, last := profiles[..|profiles| - 1], profiles[|profiles| - 1];
      LastIsNew(profiles);
      AssignedByName(host, init, ready, q);
      AssignedByName(host, init, ready, last.name);
      AssignLast(host, init, last, ready, q);
    }
  }

  /** What one name resolves to on its own: nothing else in the settings is read. */
  function ResolvedOwn(host: Host, profiles: seq<Entry<ProfileConfig>>, ready: Option<Num>, q: string)
    : Option<SandboxProfile>
  {
    var own := Own(profiles, q);
    if own.None? || q == "__proto__" then None else
    match ResolveProfile(host, q, own.value, ready)
    case Ok(resolved) => Some(resolved)
    case Err(_) => None
  }

  /** One broken profile does not change how any other is resolved: only the name's own entry counts. */
  lemma OthersUnaffected(host: Host, config: RuntimeConfig, base: RuntimeConfig,
                         config': RuntimeConfig, base': RuntimeConfig, q: string)
    requires IsRecord(config.profiles) && IsRecord(base.profiles)
    requires IsRecord(config'.profiles) && IsRecord(base'.profiles)
    requires Own(EntriesOf(config.profiles), q) == Own(EntriesOf(config'.profiles), q)
    requires Own(EntriesOf(base.profiles), q) == Own(EntriesOf(base'.profiles), q)
    requires UsableReady(WithDeploymentBase(config, base)) == UsableReady(WithDeploymentBase(config', base'))
    ensures Own(DegradingRuntime(host, config, base).runtime.profiles.entries, q)
         == Own(DegradingRuntime(host, config', base').runtime.profiles.entries, q)
  {
    MergedRecord(config, base);
    MergedRecord(config', base');
    MergedByName(EntriesOf(base.profiles), EntriesOf(config.profiles), q);
    MergedByName(EntriesOf(base'.profiles), EntriesOf(config'.profiles), q);
    AssignedByName(host, WithDeploymentBase(config, base).profiles, UsableReady(WithDeploymentBase(config, base)), q);
    AssignedByName(host, WithDeploymentBase(config', base').profiles,
                   UsableReady(WithDeploymentBase(config', base')), q);
  }

  lemma MergedRecord(config: RuntimeConfig, base: RuntimeConfig)
    requires IsRecord(config.profiles) && IsRecord(base.profiles)
    ensures UniqueNames(WithDeploymentBase(config, base).profiles)
    ensures "__proto__" in Names(WithDeploymentBase(config, base).profiles)
       <==> "__proto__" in Names(EntriesOf(base.profiles))
  {
    AddPageDistinct(EntriesOf(base.profiles), EntriesOf(config.profiles));
    MergedByName(EntriesOf(base.profiles), EntriesOf(config.profiles), "__proto__");
  }

  /** The two profile loops agree, and the strict error is the first one the degrading loop warns about. */
  lemma {:induction false} ProfileLoopsAgree(host: Host, profiles: seq<Entry<ProfileConfig>>, ready: Option<Num>)
    requires UniqueNames(profiles)
    ensures var all := ResolveAll(host, profiles, ready);
            var (record, warnings) := AssignAll(host, profiles, ready);
            && (all.Ok? <==> warnings == [])
            && (all.Err? ==> warnings[0].problem == all.error)
            && (all.Ok? && "__proto__" !in Names(profiles) ==> record == Dict(all.value, OBJECT_PROTOTYPE))
  {
    if profiles != [] {
      var init, last := profiles[..|profiles| - 1], profiles[|profiles| - 1];
      assert UniqueNames(init);
      ProfileLoopsAgree(host, init, ready);
      AssignedByName(host, init, ready, last.name);
      assert Own(init, last.name).None?;
      assert "__proto__" in Names(init) ==> "__proto__" in Names(profiles);
      assert last.name in Names(profiles);
    }
  }

  /**
   * The deployment owns no profile called "__proto__", the one name whose assignment is not a property.
   * Only a caller that passes `base` itself can pass such a record; see README.md.
   */
  predicate NoProtoProfile(base: RuntimeConfig)
  {
    "__proto__" !in Names(EntriesOf(base.profiles))
  }

  // ---- What the settings decide ------------------------------------------------------------

  predicate AllResolvable(host: Host, profiles: seq<Entry<ProfileConfig>>)
  {
    forall i | 0 <= i < |profiles| :: Resolvable(host, profiles[i].value)
  }

  /** The name has a profile that resolves and that a bracket assignment makes an own name. */
  predicate Working(host: Host, profiles: seq<Entry<ProfileConfig>>, name: string)
  {
    name != "__proto__" && Own(profiles, name).Some? && Resolvable(host, Own(profiles, name).value)
  }

  predicate SomeWorking(host: Host, profiles: seq<Entry<ProfileConfig>>)
  {
    exists i | 0 <= i < |profiles| :: profiles[i].name != "__proto__" && Resolvable(host, profiles[i].value)
  }

  /** The field names of the object a profile resolves to. */
  function SettingFields(profile: ProfileConfig): set<string>
  {
    {"name", "backend"}
    + (if profile.idleMs.Some? then {"idleMs"} else {})
    + match profile
      case DockerConfig(_, binary, _, _) =>
        {"image", "controlPlaneUrl"} + if binary.Some? then {"binary"} else {}
      case KasConfig(_, _, _, kubeconfig, _) =>
        {"namespace", "warmPool", "readyTimeoutMs"} + if kubeconfig.Some? then {"kubeconfig"} else {}
      case BuildkiteConfig(_, _, _, _, _, _, secretKey) =>
        {"organization", "pipeline", "image", "controlPlaneUrl", "readyTimeoutMs"}
        + if secretKey.Some? then {"secretKey"} else {}
  }

  /** The names the degrading record answers without owning: Object.prototype's, and a "__proto__" profile's fields. */
  function InheritedNames(host: Host, profiles: seq<Entry<ProfileConfig>>): set<string>
  {
    var proto := Own(profiles, "__proto__");
    OBJECT_PROTOTYPE + if proto.Some? && Resolvable(host, proto.value) then SettingFields(proto.value) else {}
  }

  /** The default setting names nothing the degrading record answers, though there is a profile to fall back to. */
  predicate DefaultUnanswered(host: Host, raw: Raw)
  {
    && SomeWorking(host, raw.profiles) && raw.defaultProfile.Some?
    && !Working(host, raw.profiles, raw.defaultProfile.value)
    && raw.defaultProfile.value !in InheritedNames(host, raw.profiles)
  }

  predicate TimersSound(raw: Raw)
  {
    PositiveIfSet(raw.readyTimeoutMs) && PositiveIfSet(raw.idleMs) && PositiveIfSet(raw.expiresAfterMs)
  }

  /** The default setting names a profile or something every object answers, or there is nothing to choose from. */
  predicate DefaultAccepted(raw: Raw)
  {
    raw.profiles != [] && raw.defaultProfile.Some? ==>
      raw.defaultProfile.value in Names(raw.profiles) || raw.defaultProfile.value in OBJECT_PROTOTYPE
  }

  /** The settings the strict resolver accepts. */
  predicate StrictAccepts(host: Host, raw: Raw)
  {
    TimersSound(raw) && AllResolvable(host, raw.profiles) && DefaultAccepted(raw)
  }

  /** The settings the degrading resolver has nothing to say about. */
  predicate NothingDegraded(host: Host, raw: Raw)
  {
    TimersSound(raw) && AllResolvable(host, raw.profiles) && !DefaultUnanswered(host, raw)
  }

  lemma {:induction false} OwnAt<V>(entries: seq<Entry<V>>, i: nat)
    requires UniqueNames(entries) && i < |entries|
    ensures Own(entries, entries[i].name) == Some(entries[i].value)
  {
    if i < |entries| - 1 {
      OwnAt(entries[..|entries| - 1], i);
    }
  }

  lemma {:induction false} OwnIndex<V>(entries: seq<Entry<V>>, name: string) returns (i: nat)
    requires name in Names(entries)
    ensures i < |entries| && entries[i].name == name && Own(entries, name) == Some(entries[i].value)
  {
    var last := |entries| - 1;
    if entries[last].name == name {
      i := last;
    } else {
      assert Own(entries[..last], name).Some?;
      i := OwnIndex(entries[..last], name);
    }
  }

  /** The degrading record owns exactly the working names and answers exactly the inherited ones besides. */
  lemma RecordNames(host: Host, profiles: seq<Entry<ProfileConfig>>, ready: Option<Num>, q: string)
    requires UniqueNames(profiles)
    ensures q in Names(AssignAll(host, profiles, ready).0.entries) <==> Working(host, profiles, q)
  {
    AssignedByName(host, profiles, ready, q);
  }

  lemma RecordEmpty(host: Host, profiles: seq<Entry<ProfileConfig>>, ready: Option<Num>)
    requires UniqueNames(profiles)
    ensures AssignAll(host, profiles, ready).0.entries != [] <==> SomeWorking(host, profiles)
  {
    var entries := AssignAll(host, profiles, ready).0.entries;
    if entries != [] {
      assert entries[0].name in Names(entries);
      RecordNames(host, profiles, ready, entries[0].name);
      var i := OwnIndex(profiles, entries[0].name);
    }
    if SomeWorking(host, profiles) {
      var i :| 0 <= i < |profiles| && profiles[i].name != "__proto__" && Resolvable(host, profiles[i].value);
      OwnAt(profiles, i);
      RecordNames(host, profiles, ready, profiles[i].name);
    }
  }

  lemma AssignInherits(host: Host, init: seq<Entry<ProfileConfig>>, last: Entry<ProfileConfig>, ready: Option<Num>)
    requires last.name !in Names(AssignAll(host, init, ready).0.entries)
    ensures AssignAll(host, init + [last], ready).0.inherited ==
            if last.name == "__proto__" && Resolvable(host, last.value)
            then OBJECT_PROTOTYPE + SettingFields(last.value)
            else AssignAll(host, init, ready).0.inherited
  {
    assert (init + [last])[..|init|] == init;
  }

  lemma InheritsLast(host: Host, init: seq<Entry<ProfileConfig>>, last: Entry<ProfileConfig>, ready: Option<Num>)
    requires AssignAll(host, init, ready).0.inherited == InheritedNames(host, init)
    requires last.name !in Names(AssignAll(host, init, ready).0.entries) && Own(init, last.name).None?
    ensures AssignAll(host, init + [last], ready).0.inherited == InheritedNames(host, init + [last])
  {
    AssignInherits(host, init, last, ready);
    OwnOfAppend(init, last, "__proto__");
  }

  lemma {:induction false} RecordInherits(host: Host, profiles: seq<Entry<ProfileConfig>>, ready: Option<Num>)
    requires UniqueNames(profiles)
    ensures AssignAll(host, profiles, ready).0.inherited == InheritedNames(host, profiles)
  {
    if profiles != [] {
      var init, last := profiles[..|profiles| - 1], profiles[|profiles| - 1];
      LastIsNew(profiles);
      RecordInherits(host, init, ready);
      AssignedByName(host, init, ready, last.name);
      InheritsLast(host, init, last, ready);
    }
  }

  lemma {:induction false} QuietProfiles(host: Host, profiles: seq<Entry<ProfileConfig>>, ready: Option<Num>)
    ensures AssignAll(host, profiles, ready).1 == [] <==> AllResolvable(host, profiles)
    ensures ResolveAll(host, profiles, ready).Ok? <==> AllResolvable(host, profiles)
  {
    if profiles != [] {
      var init := profiles[..|profiles| - 1];
      QuietProfiles(host, init, ready);
      assert forall i | 0 <= i < |init| :: init[i] == profiles[i];
      assert AllResolvable(host, profiles) <==> AllResolvable(host, init) && Resolvable(host, profiles[|init|].value);
    }
  }

  lemma DefaultWarns(host: Host, raw: Raw, ready: Option<Num>)
    requires UniqueNames(raw.profiles)
    ensures var warnings := DegradedDefault(AssignAll(host, raw.profiles, ready).0, raw.defaultProfile).1;
            if DefaultUnanswered(host, raw)
            then |warnings| == 1 && warnings[0].problem == DefaultNotConfigured(raw.defaultProfile.value)
            else warnings == []
  {
    var record := AssignAll(host, raw.profiles, ready).0;
    RecordEmpty(host, raw.profiles, ready);
    RecordInherits(host, raw.profiles, ready);
    if record.entries != [] {
      assert record.entries[0].name in Names(record.entries);
    }
    if raw.defaultProfile.Some? {
      RecordNames(host, raw.profiles, ready, raw.defaultProfile.value);
    }
  }

  /** The degrading resolver has no warning exactly for settings with nothing to degrade. */
  lemma WarnsExactly(host: Host, config: RuntimeConfig, base: RuntimeConfig)
    requires IsRecord(config.profiles) && IsRecord(base.profiles)
    ensures DegradingRuntime(host, config, base).warnings == []
            <==> NothingDegraded(host, WithDeploymentBase(config, base))
  {
    var raw := WithDeploymentBase(config, base);
    MergedRecord(config, base);
    QuietProfiles(host, raw.profiles, UsableReady(raw));
    DefaultWarns(host, raw, UsableReady(raw));
  }

  /** The strict resolver's default check, once every profile resolved. */
  lemma StrictDefault(host: Host, raw: Raw)
    requires ResolveAll(host, raw.profiles, raw.readyTimeoutMs).Ok?
    ensures var all := ResolveAll(host, raw.profiles, raw.readyTimeoutMs).value;
            var chosen := ChosenDefault(all, raw.defaultProfile);
            && (chosen.Some? && !Answers(Dict(all, OBJECT_PROTOTYPE), chosen.value) <==> !DefaultAccepted(raw))
            && (!DefaultAccepted(raw) ==> chosen == raw.defaultProfile)
  {
    var all := ResolveAll(host, raw.profiles, raw.readyTimeoutMs).value;
    SameNames(all, raw.profiles);
    if all != [] {
      assert all[0].name in Names(all);
    }
  }

  /** What the strict resolver throws, check by check; None where it succeeds. */
  function StrictProblem(host: Host, raw: Raw): Option<Error>
  {
    if !PositiveIfSet(raw.readyTimeoutMs) then Some(ReadyTimeoutNotPositive)
    else if !AllResolvable(host, raw.profiles) then
      var all := ResolveAll(host, raw.profiles, raw.readyTimeoutMs);
      if all.Err? then Some(all.error) else None
    else if !DefaultAccepted(raw) then Some(DefaultNotConfigured(raw.defaultProfile.value))
    else if !PositiveIfSet(raw.idleMs) then Some(IdleNotPositive)
    else if !PositiveIfSet(raw.expiresAfterMs) then Some(ExpiresNotPositive)
    else None
  }

  lemma StrictThrows(host: Host, config: RuntimeConfig, base: RuntimeConfig)
    ensures var problem := StrictProblem(host, WithDeploymentBase(config, base));
            match ResolveRuntime(host, config, base)
            case Ok(_) => problem.None?
            case Err(e) => problem == Some(e)
  {
    var raw := WithDeploymentBase(config, base);
    QuietProfiles(host, raw.profiles, raw.readyTimeoutMs);
    if ResolveAll(host, raw.profiles, raw.readyTimeoutMs).Ok? {
      StrictDefault(host, raw);
    }
  }

  /** The strict resolver succeeds exactly for the settings it accepts. */
  lemma SucceedsExactly(host: Host, config: RuntimeConfig, base: RuntimeConfig)
    ensures ResolveRuntime(host, config, base).Ok? <==> StrictAccepts(host, WithDeploymentBase(config, base))
  {
    var raw := WithDeploymentBase(config, base);
    StrictThrows(host, config, base);
    QuietProfiles(host, raw.profiles, raw.readyTimeoutMs);
  }

  lemma SameNames<V, W>(a: seq<Entry<V>>, b: seq<Entry<W>>)
    requires |a| == |b| && forall i | 0 <= i < |a| :: a[i].name == b[i].name
    ensures Names(a) == Names(b)
  {
    forall name ensures name in Names(a) <==> name in Names(b) {
      if i :| 0 <= i < |a| && a[i].name == name {
        assert b[i].name in Names(b);
      }
      if i :| 0 <= i < |b| && b[i].name == name {
        assert a[i].name in Names(a);
      }
    }
  }

  /** What strict accepts, degrading has nothing to say about; without a "__proto__" profile also the other way. */
  lemma AcceptedIsQuiet(host: Host, raw: Raw)
    requires UniqueNames(raw.profiles)
    ensures StrictAccepts(host, raw) ==> NothingDegraded(host, raw)
    ensures "__proto__" !in Names(raw.profiles) && NothingDegraded(host, raw) ==> StrictAccepts(host, raw)
  {
    if raw.defaultProfile.Some? && raw.defaultProfile.value in Names(raw.profiles) {
      var i := OwnIndex(raw.profiles, raw.defaultProfile.value);
    }
    if "__proto__" !in Names(raw.profiles) && raw.profiles != [] {
      assert raw.profiles[0].name in Names(raw.profiles);
      assert AllResolvable(host, raw.profiles) ==> Resolvable(host, raw.profiles[0].value);
    }
  }

  // ---- When the two resolvers agree ----------------------------------------------------------

  /** Where strict succeeds, degrading returns the same exactly when there is no "__proto__" profile. */
  lemma ProtoProfileDisagrees(host: Host, config: RuntimeConfig, base: RuntimeConfig)
    requires IsRecord(config.profiles) && IsRecord(base.profiles)
    requires ResolveRuntime(host, config, base).Ok?
    ensures DegradingRuntime(host, config, base).runtime == ResolveRuntime(host, config, base).value
       <==> NoProtoProfile(base)
  {
    var raw := WithDeploymentBase(config, base);
    var all := ResolveAll(host, raw.profiles, raw.readyTimeoutMs);
    MergedRecord(config, base);
    ProfileLoopsAgree(host, raw.profiles, raw.readyTimeoutMs);
    AssignedByName(host, raw.profiles, raw.readyTimeoutMs, "__proto__");
    if !NoProtoProfile(base) {
      var i :| 0 <= i < |raw.profiles| && raw.profiles[i].name == "__proto__";
      assert all.value[i].name in Names(all.value);
    }
  }

  /** The strict resolver succeeds with `r` exactly when the degrading one returns `r` without a warning. */
  ghost predicate ResolversAgree(host: Host, config: RuntimeConfig, base: RuntimeConfig)
  {
    forall r :: ResolveRuntime(host, config, base) == Ok(r) <==> DegradingRuntime(host, config, base) == Degraded(r, [])
  }

  /**
   * For all settings: the resolvers agree exactly when the deployment has no profile called
   * "__proto__", or something in the settings makes both complain.
   */
  lemma ResolversAgreeExactly(host: Host, config: RuntimeConfig, base: RuntimeConfig)
    requires IsRecord(config.profiles) && IsRecord(base.profiles)
    ensures ResolversAgree(host, config, base) <==>
              || NoProtoProfile(base)
              || !TimersSound(WithDeploymentBase(config, base))
              || !AllResolvable(host, WithDeploymentBase(config, base).profiles)
              || DefaultUnanswered(host, WithDeploymentBase(config, base))
  {
    var raw := WithDeploymentBase(config, base);
    var strict, degraded := ResolveRuntime(host, config, base), DegradingRuntime(host, config, base);
    MergedRecord(config, base);
    WarnsExactly(host, config, base);
    SucceedsExactly(host, config, base);
    AcceptedIsQuiet(host, raw);
    if strict.Ok? {
      ProtoProfileDisagrees(host, config, base);
      assert strict == Ok(strict.value);
    }
    if degraded.warnings == [] {
      assert degraded == Degraded(degraded.runtime, []);
    }
  }

  /**
   * A strict success is a degrading result without warnings; a strict error is the first warning's
   * problem, except that a "__proto__" profile can make degrading overlook a bad default.
   */
  lemma StrictAgainstDegrading(host: Host, config: RuntimeConfig, base: RuntimeConfig)
    requires IsRecord(config.profiles) && IsRecord(base.profiles)
    ensures var warnings := DegradingRuntime(host, config, base).warnings;
            match ResolveRuntime(host, config, base)
            case Ok(r) => warnings == [] && (NoProtoProfile(base) ==> DegradingRuntime(host, config, base).runtime == r)
            case Err(e) =>
              || (warnings != [] && warnings[0].problem == e)
              || (!NoProtoProfile(base) && e.DefaultNotConfigured?)
  {
    var raw := WithDeploymentBase(config, base);
    MergedRecord(config, base);
    if ResolveRuntime(host, config, base).Ok? {
      SucceedsExactly(host, config, base);
      AcceptedIsQuiet(host, raw);
      WarnsExactly(host, config, base);
      ProtoProfileDisagrees(host, config, base);
    } else {
      StrictErrorComesFirst(host, config, base);
    }
  }

  /** The first warning, list by list. */
  function FirstOf(a: seq<Warning>, rest: Option<Warning>): Option<Warning>
  {
    if a != [] then Some(a[0]) else rest
  }

  lemma FirstWarning(host: Host, config: RuntimeConfig, base: RuntimeConfig)
    ensures var raw := WithDeploymentBase(config, base);
            var (record, profileWarnings) := AssignAll(host, raw.profiles, UsableReady(raw));
            FirstOf(DegradingRuntime(host, config, base).warnings, None) ==
            FirstOf(ReadyWarnings(raw),
              FirstOf(profileWarnings,
                FirstOf(DegradedDefault(record, raw.defaultProfile).1,
                  FirstOf(BootTimer(raw.idleMs, TEN_MINUTES, IdleNotPositive).1,
                    FirstOf(BootTimer(raw.expiresAfterMs, SEVEN_DAYS, ExpiresNotPositive).1, None)))))
  {
  }

  /** What the degrading resolver warns about first. */
  function FirstProblem(host: Host, raw: Raw): Option<Error>
  {
    if !PositiveIfSet(raw.readyTimeoutMs) then Some(ReadyTimeoutNotPositive)
    else if !AllResolvable(host, raw.profiles) then
      var all := ResolveAll(host, raw.profiles, raw.readyTimeoutMs);
      if all.Err? then Some(all.error) else None
    else if DefaultUnanswered(host, raw) then Some(DefaultNotConfigured(raw.defaultProfile.value))
    else if !PositiveIfSet(raw.idleMs) then Some(IdleNotPositive)
    else if !PositiveIfSet(raw.expiresAfterMs) then Some(ExpiresNotPositive)
    else None
  }

  predicate IsProblem(warning: Option<Warning>, problem: Option<Error>)
  {
    match warning
    case None => problem.None?
    case Some(w) => problem == Some(w.problem)
  }

  lemma TailWarnsFirst(host: Host, raw: Raw)
    requires UniqueNames(raw.profiles) && PositiveIfSet(raw.readyTimeoutMs) && AllResolvable(host, raw.profiles)
    ensures var record := AssignAll(host, raw.profiles, raw.readyTimeoutMs).0;
            IsProblem(FirstOf(DegradedDefault(record, raw.defaultProfile).1,
                        FirstOf(BootTimer(raw.idleMs, TEN_MINUTES, IdleNotPositive).1,
                          FirstOf(BootTimer(raw.expiresAfterMs, SEVEN_DAYS, ExpiresNotPositive).1, None))),
                      FirstProblem(host, raw))
  {
    DefaultWarns(host, raw, raw.readyTimeoutMs);
  }

  lemma WarnsFirst(host: Host, config: RuntimeConfig, base: RuntimeConfig)
    requires UniqueNames(WithDeploymentBase(config, base).profiles)
    ensures IsProblem(FirstOf(DegradingRuntime(host, config, base).warnings, None),
                      FirstProblem(host, WithDeploymentBase(config, base)))
  {
    var raw := WithDeploymentBase(config, base);
    FirstWarning(host, config, base);
    if PositiveIfSet(raw.readyTimeoutMs) {
      ProfileLoopsAgree(host, raw.profiles, raw.readyTimeoutMs);
      QuietProfiles(host, raw.profiles, raw.readyTimeoutMs);
      if AllResolvable(host, raw.profiles) {
        TailWarnsFirst(host, raw);
      }
    }
  }

  lemma StrictErrorComesFirst(host: Host, config: RuntimeConfig, base: RuntimeConfig)
    requires UniqueNames(WithDeploymentBase(config, base).profiles) && ResolveRuntime(host, config, base).Err?
    requires "__proto__" in Names(WithDeploymentBase(config, base).profiles) ==> !NoProtoProfile(base)
    ensures var warnings, e := DegradingRuntime(host, config, base).warnings, ResolveRuntime(host, config, base).error;
            || (warnings != [] && warnings[0].problem == e)
            || (!NoProtoProfile(base) && e.DefaultNotConfigured?)
  {
    WarnsFirst(host, config, base);
    StrictThrows(host, config, base);
    SameProblem(host, WithDeploymentBase(config, base));
  }

  /** The two resolvers find the same problem first, but for a default a "__proto__" profile answers. */
  lemma SameProblem(host: Host, raw: Raw)
    requires UniqueNames(raw.profiles)
    ensures || FirstProblem(host, raw) == StrictProblem(host, raw)
            || ("__proto__" in Names(raw.profiles)
                && StrictProblem(host, raw) == Some(DefaultNotConfigured(DefaultTo(raw.defaultProfile, ""))))
  {
    AcceptedIsQuiet(host, raw.(readyTimeoutMs := None, idleMs := None, expiresAfterMs := None));
  }

  // ---- Well-formed results ---------------------------------------------------------------

  /** The default names a profile of the record, or there is no profile and no default. */
  predicate DefaultPresent(runtime: Runtime)
  {
    if runtime.profiles.entries == [] then runtime.defaultProfile.None?
    else runtime.defaultProfile.Some? && runtime.defaultProfile.value in Names(runtime.profiles.entries)
  }

  /**
   * The degrading default is a profile of the result, or there is none, exactly when no profile
   * works, the setting is absent or names a working profile, or nothing inherited answers to it.
   */
  lemma DegradedDefaultPresent(host: Host, config: RuntimeConfig, base: RuntimeConfig)
    requires IsRecord(config.profiles) && IsRecord(base.profiles)
    ensures var raw := WithDeploymentBase(config, base);
            (DefaultPresent(DegradingRuntime(host, config, base).runtime) <==>
              || !SomeWorking(host, raw.profiles)
              || raw.defaultProfile.None?
              || Working(host, raw.profiles, raw.defaultProfile.value)
              || raw.defaultProfile.value !in InheritedNames(host, raw.profiles))
  {
    var raw := WithDeploymentBase(config, base);
    var record := DegradingRuntime(host, config, base).runtime.profiles;
    MergedRecord(config, base);
    RecordEmpty(host, raw.profiles, UsableReady(raw));
    RecordInherits(host, raw.profiles, UsableReady(raw));
    if record.entries != [] {
      assert record.entries[0].name in Names(record.entries);
    }
    if raw.defaultProfile.Some? {
      RecordNames(host, raw.profiles, UsableReady(raw), raw.defaultProfile.value);
    }
  }

  // ---- Inputs that show the exceptions -------------------------------------------------------

  const PLAIN_KAS := KasConfig(None, None, None, None, None)

  function OneProfile(name: string, profile: ProfileConfig, defaultProfile: Option<string>): RuntimeConfig
  {
    RuntimeConfig(Some(Dict([Entry(name, profile)], OBJECT_PROTOTYPE)), defaultProfile, None, None, None)
  }

  const NO_SETTINGS := RuntimeConfig(None, None, None, None, None)

  lemma OneDeployed(name: string, profile: ProfileConfig, defaultProfile: Option<string>)
    ensures WithDeploymentBase(NO_SETTINGS, OneProfile(name, profile, defaultProfile))
         == Raw([Entry(name, profile)], defaultProfile, None, None, None)
  {
  }

  lemma OneOnPage(name: string, profile: ProfileConfig, defaultProfile: Option<string>)
    requires name !in OBJECT_PROTOTYPE
    ensures WithDeploymentBase(OneProfile(name, profile, defaultProfile), NO_SETTINGS)
         == Raw([Entry(name, profile)], defaultProfile, None, None, None)
  {
    var page := [Entry(name, profile)];
    assert page[..0] == [];
    assert AddPage([], page) == page;
  }

  lemma OneName(name: string, profile: ProfileConfig)
    ensures Own([Entry(name, profile)], name) == Some(profile)
    ensures forall other | other != name :: Own([Entry(name, profile)], other) == None
    ensures Names([Entry(name, profile)]) == {name}
  {
    var entries := [Entry(name, profile)];
    assert entries[0].name == name;
    assert forall other :: other in Names(entries) ==> other == name;
  }

  lemma MainIsNoInheritedName()
    ensures "main" !in OBJECT_PROTOTYPE && "main" != "__proto__" && "main" != "toString"
  {
    var name := "main";
    assert |"toString"| == 8;
    forall other | other in OBJECT_PROTOTYPE ensures other != name {
      assert |other| > |name|;
    }
  }

  /** A default, "toString", that passes the check and names no profile. */
  lemma InheritedDefaultPasses(host: Host)
    ensures DegradingRuntime(host, OneProfile("main", PLAIN_KAS, Some("toString")), NO_SETTINGS).warnings == []
    ensures var config := OneProfile("main", PLAIN_KAS, Some("toString"));
            !DefaultPresent(DegradingRuntime(host, config, NO_SETTINGS).runtime)
  {
    var page := OneProfile("main", PLAIN_KAS, Some("toString"));
    MainIsNoInheritedName();
    OneOnPage("main", PLAIN_KAS, Some("toString"));
    OneName("main", PLAIN_KAS);
    assert "toString" in OBJECT_PROTOTYPE;
    assert [Entry("main", PLAIN_KAS)][0].name == "main";
    WarnsExactly(host, page, NO_SETTINGS);
    DegradedDefaultPresent(host, page, NO_SETTINGS);
  }

  /** A "__proto__" profile that strict accepts and degrading loses without a warning. */
  lemma ProtoProfileIsLost(host: Host)
    ensures var base := OneProfile("__proto__", PLAIN_KAS, None);
            && ResolveRuntime(host, NO_SETTINGS, base).Ok?
            && DegradingRuntime(host, NO_SETTINGS, base).warnings == []
            && DegradingRuntime(host, NO_SETTINGS, base).runtime != ResolveRuntime(host, NO_SETTINGS, base).value
  {
    var base := OneProfile("__proto__", PLAIN_KAS, None);
    OneDeployed("__proto__", PLAIN_KAS, None);
    OneName("__proto__", PLAIN_KAS);
    SucceedsExactly(host, NO_SETTINGS, base);
    WarnsExactly(host, NO_SETTINGS, base);
    ProtoProfileDisagrees(host, NO_SETTINGS, base);
  }

  /** A "__proto__" profile that makes degrading overlook a default strict throws for. */
  lemma ProtoProfileHidesABadDefault(host: Host)
    ensures var base := OneProfile("__proto__", PLAIN_KAS, Some("nosuch"));
            && ResolveRuntime(host, NO_SETTINGS, base) == Err(DefaultNotConfigured("nosuch"))
            && DegradingRuntime(host, NO_SETTINGS, base).warnings == []
  {
    var base := OneProfile("__proto__", PLAIN_KAS, Some("nosuch"));
    var raw := Raw([Entry("__proto__", PLAIN_KAS)], Some("nosuch"), None, None, None);
    OneDeployed("__proto__", PLAIN_KAS, Some("nosuch"));
    OneName("__proto__", PLAIN_KAS);
    NoSuchName();
    SucceedsExactly(host, NO_SETTINGS, base);
    WarnsExactly(host, NO_SETTINGS, base);
    QuietProfiles(host, raw.profiles, None);
  }

  lemma NoSuchName()
    ensures "nosuch" !in OBJECT_PROTOTYPE && "nosuch" != "__proto__"
  {
    var name := "nosuch";
    forall other | other in OBJECT_PROTOTYPE ensures other != name {
      assert |other| > |name|;
    }
    assert |"__proto__"| == 9;
  }

  /** A profile whose ready timeout is not a number, which resolves without a warning and keeps it. */
  lemma ProfileReadyTimeoutIsUnchecked(host: Host)
    ensures var page := OneProfile("main", KasConfig(None, None, Some(NotFinite), None, None), None);
            var degraded := DegradingRuntime(host, page, NO_SETTINGS);
            && degraded.warnings == []
            && Own(degraded.runtime.profiles.entries, "main").Some?
            && ReadyOf(Own(degraded.runtime.profiles.entries, "main").value) == Some(NotFinite)
  {
    var profile := KasConfig(None, None, Some(NotFinite), None, None);
    var page := OneProfile("main", profile, None);
    var raw := Raw([Entry("main", profile)], None, None, None, None);
    MainIsNoInheritedName();
    OneOnPage("main", profile, None);
    OneName("main", profile);
    WarnsExactly(host, page, NO_SETTINGS);
    AssignedByName(host, raw.profiles, None, "main");
  }

  /** Each profile's ready timeout, where its backend has one. */
  function ReadyOf(profile: SandboxProfile): Option<Num>
  {
    if profile.Docker? then None else Some(profile.readyTimeoutMs)
  }

  function OwnReady(profile: ProfileConfig): Option<Num>
  {
    if profile.DockerConfig? then None else profile.readyTimeoutMs
  }

  /** The shared timers of the degrading result are positive, whatever the settings hold. */
  lemma DegradedTimersPositive(host: Host, config: RuntimeConfig, base: RuntimeConfig)
    ensures Positive(DegradingRuntime(host, config, base).runtime.idleMs)
    ensures Positive(DegradingRuntime(host, config, base).runtime.expiresAfterMs)
    ensures PositiveIfSet(DegradingRuntime(host, config, base).runtime.readyTimeoutMs)
  {
  }

  /** One shared timer: the page's value wins over the deployment's, and a bad or missing one is the fallback. */
  predicate TimerChosen(page: Option<Num>, deployed: Option<Num>, fallback: Num, resolved: Num)
  {
    && (page.Some? && Positive(page.value) ==> resolved == page.value)
    && (page.None? && deployed.Some? && Positive(deployed.value) ==> resolved == deployed.value)
    && (page.None? && deployed.None? ==> resolved == fallback)
    && (page.Some? && !Positive(page.value) ==> resolved == fallback)
    && (page.None? && deployed.Some? && !Positive(deployed.value) ==> resolved == fallback)
  }

  /** The page's scalars win over the deployment's, and a default that names a working profile is kept. */
  lemma PageScalarsWin(host: Host, config: RuntimeConfig, base: RuntimeConfig)
    ensures var r := DegradingRuntime(host, config, base).runtime;
            && TimerChosen(config.idleMs, base.idleMs, TEN_MINUTES, r.idleMs)
            && TimerChosen(config.expiresAfterMs, base.expiresAfterMs, SEVEN_DAYS, r.expiresAfterMs)
            && (config.defaultProfile.Some? && config.defaultProfile.value in Names(r.profiles.entries) ==>
                  r.defaultProfile == config.defaultProfile)
            && (config.defaultProfile.None? && base.defaultProfile.Some? ==>
                  (base.defaultProfile.value in Names(r.profiles.entries) ==> r.defaultProfile == base.defaultProfile))
  {
    var record := DegradingRuntime(host, config, base).runtime.profiles;
    if record.entries == [] {
      assert Names(record.entries) == {};
    }
  }

  lemma ProfileTimers(host: Host, name: string, profile: ProfileConfig, ready: Option<Num>)
    requires PositiveIfSet(ready) && ResolveProfile(host, name, profile, ready).Ok?
    ensures var resolved := ResolveProfile(host, name, profile, ready).value;
            PositiveIfSet(ReadyOf(resolved)) <==> PositiveIfSet(OwnReady(profile))
  {
  }

  /**
   * A resolved profile's idle delay is positive, but its own readyTimeoutMs is passed on unchecked:
   * it is positive exactly when the profile left it unset or positive.
   */
  lemma DegradedProfileTimers(host: Host, config: RuntimeConfig, base: RuntimeConfig, q: string)
    requires IsRecord(config.profiles) && IsRecord(base.profiles)
    requires Own(DegradingRuntime(host, config, base).runtime.profiles.entries, q).Some?
    ensures var own := Own(DegradingRuntime(host, config, base).runtime.profiles.entries, q).value;
            var setting := Own(WithDeploymentBase(config, base).profiles, q);
            && own.name == q && PositiveIfSet(own.idleMs) && setting.Some?
            && (PositiveIfSet(ReadyOf(own)) <==> PositiveIfSet(OwnReady(setting.value)))
  {
    var raw := WithDeploymentBase(config, base);
    MergedRecord(config, base);
    AssignedByName(host, raw.profiles, UsableReady(raw), q);
    ProfileTimers(host, q, Own(raw.profiles, q).value, UsableReady(raw));
  }
}

/**
 * Which profiles the resolvers end with, in which order, and which one is the default
 * (control-plane/src/sandbox/config.ts:306-384, 434-495).
 */
module SandboxDefaults {
  import opened Prelude
  import opened SandboxConfig

  // ---- The merge in order ---------------------------------------------------------------------

  /** The page's additions, in page order: names the deployment does not own and no object inherits. */
  function Additions(base: seq<Entry<ProfileConfig>>, page: seq<Entry<ProfileConfig>>): seq<Entry<ProfileConfig>>
  {
    if page == [] then [] else
    var last := page[|page| - 1];
    Additions(base, page[..|page| - 1])
    + if last.name in Names(base) || last.name in OBJECT_PROTOTYPE then [] else [last]
  }

  lemma {:induction false} AdditionsAreThePages(base: seq<Entry<ProfileConfig>>, page: seq<Entry<ProfileConfig>>)
    ensures Names(Additions(base, page)) <= Names(page)
  {
    if page != [] {
      AdditionsAreThePages(base, page[..|page| - 1]);
      var added := Additions(base, page);
      forall i | 0 <= i < |added| ensures added[i].name in Names(page) {
        if i < |Additions(base, page[..|page| - 1])| {
          assert added[i].name in Names(Additions(base, page[..|page| - 1]));
        }
      }
    }
  }

  /** The deployment's profiles come first, in their order, and then the page's additions in theirs. */
  lemma {:induction false} MergedInOrder(base: seq<Entry<ProfileConfig>>, page: seq<Entry<ProfileConfig>>)
    requires UniqueNames(page)
    ensures AddPage(base, page) == base + Additions(base, page)
  {
    if page != [] {
      var init, last := page[..|page| - 1], page[|page| - 1];
      MergedInOrder(base, init);
      AdditionsAreThePages(base, init);
      assert last.name !in Names(init);
      NamesOfSum(base, Additions(base, init));
      var sofar := base + Additions(base, init);
      assert last.name in Names(sofar) <==> last.name in Names(base);
      assert sofar + [last] == base + (Additions(base, init) + [last]);
    }
  }

  lemma NamesOfSum<V>(a: seq<Entry<V>>, b: seq<Entry<V>>)
    ensures Names(a + b) == Names(a) + Names(b)
  {
    forall name ensures name in Names(a + b) <==> name in Names(a) + Names(b) {
      if i :| 0 <= i < |a| && a[i].name == name {
        assert (a + b)[i].name == name;
      }
      if i :| 0 <= i < |b| && b[i].name == name {
        assert (a + b)[|a| + i].name == name;
      }
    }
  }

  // ---- The default ----------------------------------------------------------------------------

  /** The profile at a place resolves, and a bracket assignment keeps its name. */
  predicate WorksAt(host: Host, profiles: seq<Entry<ProfileConfig>>, i: nat)
    requires i < |profiles|
  {
    profiles[i].name != "__proto__" && Resolvable(host, profiles[i].value)
  }

  /** The name of the first profile that works. */
  ghost predicate IsFirstWorking(host: Host, profiles: seq<Entry<ProfileConfig>>, name: Option<string>)
  {
    match name
    case None => forall i: nat | i < |profiles| :: !WorksAt(host, profiles, i)
    case Some(n) =>
      exists i: nat | i < |profiles| ::
        && profiles[i].name == n && WorksAt(host, profiles, i)
        && forall j: nat | j < i :: !WorksAt(host, profiles, j)
  }

  function FirstName(record: Dict<SandboxProfile>): Option<string>
  {
    if record.entries == [] then None else Some(record.entries[0].name)
  }

  lemma {:induction false} FirstAssigned(host: Host, profiles: seq<Entry<ProfileConfig>>, ready: Option<Num>)
    requires UniqueNames(profiles)
    ensures IsFirstWorking(host, profiles, FirstName(AssignAll(host, profiles, ready).0))
  {
    if profiles != [] {
      var init, last := profiles[..|profiles| - 1], profiles[|profiles| - 1];
      LastIsNew(profiles);
      FirstAssigned(host, init, ready);
      RecordNames(host, init, ready, last.name);
      FirstExtends(host, init, last, FirstName(AssignAll(host, init, ready).0));
    }
  }

  lemma FirstExtends(host: Host, init: seq<Entry<ProfileConfig>>, last: Entry<ProfileConfig>, name: Option<string>)
    requires IsFirstWorking(host, init, name)
    ensures var works := last.name != "__proto__" && Resolvable(host, last.value);
            IsFirstWorking(host, init + [last], if name.None? && works then Some(last.name) else name)
  {
    var all := init + [last];
    forall i: nat | i < |init| ensures WorksAt(host, all, i) <==> WorksAt(host, init, i) {
      assert all[i] == init[i];
    }
    assert all[|init|] == last;
    if name.Some? {
      var i: nat :| i < |init| && init[i].name == name.value && WorksAt(host, init, i)
        && forall j: nat | j < i :: !WorksAt(host, init, j);
      assert all[i].name == name.value && WorksAt(host, all, i);
    } else if last.name != "__proto__" && Resolvable(host, last.value) {
      assert WorksAt(host, all, |init|);
    }
  }

  /** The default setting: the page's, before the deployment's. */
  predicate DefaultSet(config: RuntimeConfig, base: RuntimeConfig, name: string)
  {
    config.defaultProfile == Some(name) || (config.defaultProfile.None? && base.defaultProfile == Some(name))
  }

  /** Every profile of both, the deployment's first. */
  function Merged(config: RuntimeConfig, base: RuntimeConfig): seq<Entry<ProfileConfig>>
  {
    EntriesOf(base.profiles) + Additions(EntriesOf(base.profiles), EntriesOf(config.profiles))
  }

  /**
   * The degrading default, for all settings. Where none is set, or the one set answers to nothing, it
   * is the first merged profile that works; any other is kept; and without a working profile there is none.
   */
  lemma DegradedDefaultIsFirst(host: Host, config: RuntimeConfig, base: RuntimeConfig)
    requires IsRecord(config.profiles) && IsRecord(base.profiles)
    ensures var r, merged := DegradingRuntime(host, config, base).runtime, Merged(config, base);
            && (config.defaultProfile.None? && base.defaultProfile.None? ==>
                  IsFirstWorking(host, merged, r.defaultProfile))
            && (forall name | DefaultSet(config, base, name) ::
                  if SomeWorking(host, merged) && (Working(host, merged, name) || name in InheritedNames(host, merged))
                  then r.defaultProfile == Some(name)
                  else IsFirstWorking(host, merged, r.defaultProfile))
  {
    var raw := WithDeploymentBase(config, base);
    MergedRecord(config, base);
    MergedInOrder(EntriesOf(base.profiles), EntriesOf(config.profiles));
    var record := AssignAll(host, raw.profiles, UsableReady(raw)).0;
    FirstAssigned(host, raw.profiles, UsableReady(raw));
    RecordEmpty(host, raw.profiles, UsableReady(raw));
    RecordInherits(host, raw.profiles, UsableReady(raw));
    if raw.defaultProfile.Some? {
      RecordNames(host, raw.profiles, UsableReady(raw), raw.defaultProfile.value);
    }
    if record.entries != [] {
      assert record.entries[0].name in Names(record.entries);
    }
  }

  /** The strict resolver returns every merged profile, resolved on its own, in order and no other. */
  lemma StrictKeepsOrder(host: Host, config: RuntimeConfig, base: RuntimeConfig)
    requires IsRecord(config.profiles) && IsRecord(base.profiles) && ResolveRuntime(host, config, base).Ok?
    ensures var r, merged := ResolveRuntime(host, config, base).value, Merged(config, base);
            ResolvedEach(host, r.profiles.entries, merged, r.readyTimeoutMs) && r.profiles.inherited == OBJECT_PROTOTYPE
  {
    var raw := WithDeploymentBase(config, base);
    MergedInOrder(EntriesOf(base.profiles), EntriesOf(config.profiles));
    ResolvedInOrder(host, raw.profiles, raw.readyTimeoutMs);
    StrictProfiles(host, config, base);
  }

  lemma StrictProfiles(host: Host, config: RuntimeConfig, base: RuntimeConfig)
    requires ResolveRuntime(host, config, base).Ok?
    ensures var r, raw := ResolveRuntime(host, config, base).value, WithDeploymentBase(config, base);
            && ResolveAll(host, raw.profiles, raw.readyTimeoutMs) == Ok(r.profiles.entries)
            && r.profiles.inherited == OBJECT_PROTOTYPE && r.readyTimeoutMs == raw.readyTimeoutMs
  {
  }

  /** One resolved profile per entry, in order, under the entry's name. */
  ghost predicate ResolvedEach(host: Host, all: seq<Entry<SandboxProfile>>, profiles: seq<Entry<ProfileConfig>>,
                               ready: Option<Num>)
  {
    && |all| == |profiles|
    && forall i | 0 <= i < |all| ::
         && all[i].name == profiles[i].name
         && Ok(all[i].value) == ResolveProfile(host, profiles[i].name, profiles[i].value, ready)
  }

  /** Its default is the one that is set, or else the first merged profile, and none without profiles. */
  lemma StrictDefaultIsFirst(host: Host, config: RuntimeConfig, base: RuntimeConfig)
    requires IsRecord(config.profiles) && IsRecord(base.profiles) && ResolveRuntime(host, config, base).Ok?
    ensures var chosen, merged := ResolveRuntime(host, config, base).value.defaultProfile, Merged(config, base);
            if merged == [] then chosen.None?
            else if config.defaultProfile.None? && base.defaultProfile.None? then chosen == Some(merged[0].name)
            else forall name | DefaultSet(config, base, name) :: chosen == Some(name)
  {
    MergedInOrder(EntriesOf(base.profiles), EntriesOf(config.profiles));
    StrictKeepsOrder(host, config, base);
  }

  /** Its timers are the page's, else the deployment's, else the fallbacks. */
  lemma StrictScalars(host: Host, config: RuntimeConfig, base: RuntimeConfig)
    requires ResolveRuntime(host, config, base).Ok?
    ensures var r := ResolveRuntime(host, config, base).value;
            && TimerChosen(config.idleMs, base.idleMs, TEN_MINUTES, r.idleMs)
            && TimerChosen(config.expiresAfterMs, base.expiresAfterMs, SEVEN_DAYS, r.expiresAfterMs)
            && r.readyTimeoutMs == (if config.readyTimeoutMs.Some? then config.readyTimeoutMs else base.readyTimeoutMs)
  {
  }

  lemma {:induction false} ResolvedInOrder(host: Host, profiles: seq<Entry<ProfileConfig>>, ready: Option<Num>)
    requires ResolveAll(host, profiles, ready).Ok?
    ensures ResolvedEach(host, ResolveAll(host, profiles, ready).value, profiles, ready)
  {
    if profiles != [] {
      ResolvedInOrder(host, profiles[..|profiles| - 1], ready);
    }
  }
}

/**
 * What the steps of the MCP pool start, keep and end: settlements and their reconnect mounts, new
 * mounts, retries, a pass over servers that need no change, and disposal
 * (control-plane/src/mcp/mcp-pool.ts:55-119, 164-183, 280-358).
 */
module McpRecovery {
  import opened Prelude
  import opened McpPool

  /** A mount keeps everything but what its first handshake may change. */
  predicate SameMount(live: Live, live': Live)
  {
    live'.entry == live.entry && live'.token == live.token && live'.retired == live.retired
  }

  /** Nothing about the other mounts changes. */
  predicate OnlyMount(m: Mounts, m': Mounts, l: LiveRef)
  {
    && m'.mounts == m.mounts && m'.disposed == m.disposed && m'.lives.Keys == m.lives.Keys
    && forall k | k in m.lives && k != l :: m'.lives[k] == m.lives[k]
  }

  /** One more fiber than before, in the mount's list and not disposed. */
  predicate StartsOne(m: Mounts, m': Mounts, l: LiveRef)
    requires l in m.lives && l in m'.lives
  {
    exists f | f in m'.owner ::
      && f !in m.owner && m'.owner == m.owner[f := l]
      && m'.lives[l].fibers == m.lives[l].fibers + {f} && f !in m'.disposed
  }

  /**
   * In every run, a first handshake that fails marks its mount failed and, if the mount is still its
   * server's and mounting does not throw, starts exactly one more fiber for it; one that succeeds
   * marks it connected and starts none; and no other mount changes.
   */
  lemma FailureReconnects(st: Store, actions: seq<Action>, l: LiveRef, connected: bool, starts: bool)
    requires WellKeyed(st) && IsRun(Pool(NoMounts, Idle, st), actions)
    requires Enabled(Run(Pool(NoMounts, Idle, st), actions), Settle(l, connected, starts))
    ensures var p := Run(Pool(NoMounts, Idle, st), actions);
            var m, m' := p.mounts, Step(p, Settle(l, connected, starts)).mounts;
            && OnlyMount(m, m', l) && SameMount(m.lives[l], m'.lives[l])
            && l !in m'.awaiting && m'.lives[l].status == (if connected then Connected else Failed)
            && (!connected && starts && IsCurrent(m, l) ==> StartsOne(m, m', l))
            && (connected || !starts || !IsCurrent(m, l) ==>
                  m'.owner == m.owner && m'.lives[l].fibers == m.lives[l].fibers)
  {
    RunKeepsInv(Pool(NoMounts, Idle, st), actions);
    var p := Run(Pool(NoMounts, Idle, st), actions);
    SettlingIsExact(p.mounts, l, connected, starts);
  }

  lemma SettlingIsExact(m: Mounts, l: LiveRef, connected: bool, starts: bool)
    requires Owned(m) && l in m.awaiting && l in m.lives
    ensures var m' := FirstSettles(m, l, connected, starts);
            && OnlyMount(m, m', l) && SameMount(m.lives[l], m'.lives[l])
            && l !in m'.awaiting && m'.lives[l].status == (if connected then Connected else Failed)
            && (!connected && starts && IsCurrent(m, l) ==> StartsOne(m, m', l))
            && (connected || !starts || !IsCurrent(m, l) ==>
                  m'.owner == m.owner && m'.lives[l].fibers == m.lives[l].fibers)
  {
    assert m.lives[l].retired <==> !IsCurrent(m, l);
    assert m.nextFiber !in m.owner;
    if !connected && starts && IsCurrent(m, l) {
      assert m.nextFiber in FirstSettles(m, l, connected, starts).owner;
    }
  }

  // ---- New mounts ---------------------------------------------------------------------------

  /** A mount as it begins: for the stored entry and token, with one fiber awaiting its handshake, or its error. */
  predicate Begins(p: Pool, m': Mounts, name: string, starts: bool)
  {
    && name in m'.mounts && m'.mounts[name] in m'.lives && m'.mounts[name] !in p.mounts.lives
    && var live := m'.lives[m'.mounts[name]];
       && live.entry.name == name && live.token == TokenFor(p.store, name) && !live.retired
       && live.status == (if starts then Starting else Failed)
       && |live.fibers| == (if starts then 1 else 0)
       && (starts <==> m'.mounts[name] in m'.awaiting)
       && live.fibers !! p.mounts.owner.Keys && live.fibers !! m'.disposed
  }

  /** Every other server keeps its mount as it is. */
  predicate OthersStay(m: Mounts, m': Mounts, name: string)
  {
    && m'.mounts - {name} == m.mounts - {name}
    && forall other | other in m.mounts && other != name && m.mounts[other] in m.lives ::
         m.mounts[other] in m'.lives && m'.lives[m.mounts[other]] == m.lives[m.mounts[other]]
  }

  lemma MountBegins(p: Pool, e: Entry, starts: bool)
    requires Owned(p.mounts)
    ensures Begins(p, MountEntry(p.mounts, p.store, e, starts), e.name, starts)
    ensures OthersStay(p.mounts, MountEntry(p.mounts, p.store, e, starts), e.name)
    ensures var m' := MountEntry(p.mounts, p.store, e, starts); m'.lives[m'.mounts[e.name]].entry == e
  {
    var m, m' := p.mounts, MountEntry(p.mounts, p.store, e, starts);
    assert m.nextLive !in m.lives && m.nextFiber !in m.owner && m.nextFiber !in m.disposed;
    assert m'.lives[m.nextLive].fibers == if starts then {m.nextFiber} else {};
    assert m'.mounts - {e.name} == m.mounts - {e.name};
  }

  /**
   * In every run, the end of a retry mounts its server anew for the stored entry and token exactly
   * when it is still stored and mountable; no other server notices.
   */
  lemma RetryMountsAgain(st: Store, actions: seq<Action>, starts: bool)
    requires WellKeyed(st) && IsRun(Pool(NoMounts, Idle, st), actions)
    requires Run(Pool(NoMounts, Idle, st), actions).op.Retrying?
    ensures var p := Run(Pool(NoMounts, Idle, st), actions);
            var p', name := Step(p, EndRetry(starts)), p.op.name;
            && p'.op.Idle? && OthersStay(p.mounts, p'.mounts, name)
            && (name in p'.mounts.mounts <==> MayMount(p.store, name))
            && (name in p'.mounts.mounts ==>
                  Begins(p, p'.mounts, name, starts)
                  && p'.mounts.lives[p'.mounts.mounts[name]].entry == p.store.entries[name])
  {
    RunKeepsInv(Pool(NoMounts, Idle, st), actions);
    var p := Run(Pool(NoMounts, Idle, st), actions);
    if p.op.name in p.store.entries {
      MountBegins(p, p.store.entries[p.op.name], starts);
    }
  }

  lemma UnmountTakes(m: Mounts, name: string)
    requires Mapped(m)
    ensures name !in Unmount(m, name).mounts && OthersStay(m, Unmount(m, name), name)
    ensures Unmount(m, name).disposed
         == m.disposed + if name in m.mounts && m.mounts[name] in m.lives then m.lives[m.mounts[name]].fibers else {}
  {
    if name in m.mounts {
      assert m.lives[m.mounts[name]].entry.name == name;
      assert Unmount(m, name).mounts - {name} == m.mounts - {name};
    }
  }

  /** In every run, the begin of a retry takes its server's mount away, disposing its fibers, and no other's. */
  lemma RetryUnmounts(st: Store, actions: seq<Action>, name: string)
    requires WellKeyed(st) && IsRun(Pool(NoMounts, Idle, st), actions)
    requires Run(Pool(NoMounts, Idle, st), actions).op.Idle?
    ensures var p := Run(Pool(NoMounts, Idle, st), actions);
            var p' := Step(p, BeginRetry(name));
            && p'.op == Retrying(name) && name !in p'.mounts.mounts && OthersStay(p.mounts, p'.mounts, name)
            && p'.mounts.disposed == p.mounts.disposed
                 + (if name in p.mounts.mounts && p.mounts.mounts[name] in p.mounts.lives
                    then p.mounts.lives[p.mounts.mounts[name]].fibers else {})
  {
    RunKeepsInv(Pool(NoMounts, Idle, st), actions);
    UnmountTakes(Run(Pool(NoMounts, Idle, st), actions).mounts, name);
  }

  /**
   * In every run, a reconcile step that mounts a wanted server begins it properly; it mounts exactly
   * a mountable one that has no mount.
   */
  lemma WantedIsMounted(st: Store, actions: seq<Action>, name: string, starts: bool)
    requires WellKeyed(st) && IsRun(Pool(NoMounts, Idle, st), actions)
    requires Enabled(Run(Pool(NoMounts, Idle, st), actions), MountWanted(name, starts))
    ensures var p := Run(Pool(NoMounts, Idle, st), actions);
            var p' := Step(p, MountWanted(name, starts));
            var e := p.op.wanted[name];
            if e.enabled && (e.oauth ==> name in p.store.tokens) && name !in p.mounts.mounts
            then Begins(p, p'.mounts, name, starts) && OthersStay(p.mounts, p'.mounts, name)
            else p'.mounts == p.mounts
  {
    RunKeepsInv(Pool(NoMounts, Idle, st), actions);
    var p := Run(Pool(NoMounts, Idle, st), actions);
    MountBegins(p, p.op.wanted[name], starts);
  }

  /** The server is switched on, and has a usable token if it needs one. */
  predicate MayMount(st: Store, name: string)
  {
    && name in st.entries && st.entries[name].enabled
    && (st.entries[name].oauth ==> name in st.tokens)
  }

  /**
   * After a reconcile pass over a stable store and clock, a server is mounted exactly when it is stored,
   * enabled, and signed in if it uses OAuth; and then at the stored URL with the token it would send now.
   */
  lemma MountedExactly(p: Pool, actions: seq<Action>, name: string)
    requires Inv(p) && p.op.Idle?
    requires IsPass(Step(p, BeginReconcile), actions) && Enabled(Run(Step(p, BeginReconcile), actions), EndReconcile)
    ensures var done := Step(Run(Step(p, BeginReconcile), actions), EndReconcile);
            && (name in done.mounts.mounts <==> MayMount(p.store, name))
            && (name in done.mounts.mounts ==>
                  && done.mounts.mounts[name] in done.mounts.lives
                  && done.mounts.lives[done.mounts.mounts[name]].entry.url == p.store.entries[name].url
                  && done.mounts.lives[done.mounts.mounts[name]].token
                       == if name in p.store.tokens then Some(p.store.tokens[name]) else None)
  {
    ReconcileIsExact(p, actions);
    var done := Step(Run(Step(p, BeginReconcile), actions), EndReconcile);
    if name in p.store.entries {
      assert p.store.entries[name].name == name;
      assert MayMount(p.store, name) <==> Mountable(p.store, p.store.entries[name]);
    }
  }

  // ---- A pass ends ----------------------------------------------------------------------------

  /** What a pass has left to visit; a wanted server is visited under its own name. */
  predicate InPass(op: Op)
  {
    op.Unmounting? || (op.Mounting? && op.left <= op.wanted.Keys)
  }

  function PassWork(op: Op): nat
  {
    match op
    case Unmounting(wanted, left) => |left| + |wanted.Keys| + 1
    case Mounting(_, left) => |left|
    case _ => 0
  }

  /**
   * Every step of a pass but a settling handshake leaves less of it, in no more steps than there are
   * mounts and wanted servers and one; while something is left some step can be taken, and then its end.
   */
  lemma PassEnds(p: Pool, a: Action)
    requires InPass(p.op)
    ensures DuringPass(a) && Enabled(p, a) ==>
              && InPass(Step(p, a).op) && Step(p, a).store == p.store
              && PassWork(Step(p, a).op) == PassWork(p.op) - if a.Settle? then 0 else 1
    ensures PassWork(p.op) > 0 ==> exists b :: DuringPass(b) && !b.Settle? && Enabled(p, b)
    ensures PassWork(p.op) == 0 ==> Enabled(p, EndReconcile) && Step(p, EndReconcile).op.Idle?
  {
    if p.op.left != {} {
      var name :| name in p.op.left;
      var b := if p.op.Unmounting? then CheckMount(name) else MountWanted(name, true);
      assert DuringPass(b) && Enabled(p, b);
    } else if p.op.Unmounting? {
      assert Enabled(p, BeginMounting);
    }
  }

  /** A pass begins with every mount and every stored server to visit, and reads the store as it is then. */
  lemma PassBegins(p: Pool, st: Store)
    requires p.op.Idle? && WellKeyed(st)
    ensures var begun := Step(Step(p, ChangeStore(st)), BeginReconcile);
            && InPass(begun.op) && begun.op.wanted == st.entries && begun.mounts == p.mounts
            && PassWork(begun.op) == |p.mounts.mounts.Keys| + |st.entries.Keys| + 1
  {
  }

  // ---- Servers that need no change ----------------------------------------------------------

  /** The server's mount is the same one, still running every fiber it had. */
  predicate Untouched(m: Mounts, m': Mounts, name: string)
  {
    && name in m.mounts && m.mounts[name] in m.lives
    && name in m'.mounts && m'.mounts[name] == m.mounts[name] && m.mounts[name] in m'.lives
    && m.lives[m.mounts[name]].fibers <= m'.lives[m.mounts[name]].fibers
  }

  lemma MountLeaves(p: Pool, e: Entry, starts: bool, name: string)
    requires Mapped(p.mounts) && name in p.mounts.mounts && name != e.name
    ensures Untouched(p.mounts, MountEntry(p.mounts, p.store, e, starts), name)
  {
    assert p.mounts.mounts[name] != p.mounts.nextLive;
  }

  lemma CheckLeaves(p: Pool, name: string, other: string)
    requires Inv(p) && Progress(p) && Enabled(p, CheckMount(other)) && Fits(p, name)
    ensures Untouched(p.mounts, Step(p, CheckMount(other)).mounts, name)
  {
    if other == name {
      assert p.store.entries[name].name == name;
      assert !Stale(p, p.op.wanted, name);
    } else if other in p.mounts.mounts {
      assert p.mounts.lives[p.mounts.mounts[other]].entry.name == other;
      assert p.mounts.lives[p.mounts.mounts[name]].entry.name == name;
    }
  }

  lemma PassStepLeaves(p: Pool, a: Action, name: string)
    requires Inv(p) && Progress(p) && Enabled(p, a) && DuringPass(a) && Fits(p, name)
    ensures Fits(Step(p, a), name) && Untouched(p.mounts, Step(p, a).mounts, name)
  {
    match a {
      case CheckMount(other) => CheckLeaves(p, name, other);
      case MountWanted(other, starts) =>
        if p.op.wanted[other].name != name {
          MountLeaves(p, p.op.wanted[other], starts, name);
        }
      case _ =>
    }
    PassStepFits(p, a, name);
  }

  lemma {:induction false} PassLeaves(p: Pool, actions: seq<Action>, name: string)
    requires Inv(p) && Progress(p) && IsPass(p, actions) && Fits(p, name)
    ensures Fits(Run(p, actions), name) && Untouched(p.mounts, Run(p, actions).mounts, name)
    decreases |actions|
  {
    if actions != [] {
      assert DuringPass(actions[0]);
      StepKeepsInv(p, actions[0]);
      PassStepKeeps(p, actions[0]);
      PassStepLeaves(p, actions[0], name);
      assert forall i | 0 <= i < |actions| - 1 :: actions[1..][i] == actions[i + 1];
      PassLeaves(Step(p, actions[0]), actions[1..], name);
    }
  }

  /**
   * A reconcile pass over a stable store and clock leaves every server alone whose mount already is
   * what the store asks for: the same mount, and none of its fibers disposed.
   */
  lemma ReconcileLeavesFitting(p: Pool, actions: seq<Action>, name: string)
    requires Inv(p) && p.op.Idle? && Fits(p, name)
    requires IsPass(Step(p, BeginReconcile), actions) && Enabled(Run(Step(p, BeginReconcile), actions), EndReconcile)
    ensures var done := Step(Run(Step(p, BeginReconcile), actions), EndReconcile);
            && Untouched(p.mounts, done.mounts, name)
            && done.mounts.lives[done.mounts.mounts[name]].fibers !! done.mounts.disposed
  {
    var begun := Step(p, BeginReconcile);
    StepKeepsInv(p, BeginReconcile);
    PassKeeps(begun, actions);
    PassLeaves(begun, actions, name);
    var m := Run(begun, actions).mounts;
    forall f | f in m.lives[m.mounts[name]].fibers ensures f !in m.disposed {
      assert f in m.owner && m.owner[f] == m.mounts[name];
      assert IsCurrent(m, m.mounts[name]);
    }
  }

  /** In every run, disposal leaves no server mounted and has called dispose on every fiber ever started. */
  lemma DisposalEndsAll(st: Store, actions: seq<Action>)
    requires WellKeyed(st) && IsRun(Pool(NoMounts, Idle, st), actions)
    ensures var m' := Step(Run(Pool(NoMounts, Idle, st), actions), DisposeAll).mounts;
            m'.mounts == map[] && m'.disposed == m'.owner.Keys
            && (forall f: Fiber :: f < m'.nextFiber <==> f in m'.owner)
  {
    var p := Run(Pool(NoMounts, Idle, st), actions);
    RunKeepsInv(Pool(NoMounts, Idle, st), actions);
    StepKeepsInv(p, DisposeAll);
    var m' := Step(p, DisposeAll).mounts;
    forall f | f in m'.owner ensures f in m'.disposed {
      assert m'.owner[f] in m'.lives;
      assert m'.lives[m'.owner[f]].retired <==> !IsCurrent(m', m'.owner[f]);
    }
  }
}

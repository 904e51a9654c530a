/**
 * The pool of live MCP mounts: who owns each started fiber, and what one reconcile pass leaves
 * mounted (control-plane/src/mcp/mcp-pool.ts).
 *
 * A live mount and a fiber have identity in the source; here each is a handle. Mounting may throw,
 * handshakes may settle, and the store may change at any await.
 */
module McpPool {
  import opened Prelude

  type LiveRef = nat
  type Fiber = nat

  datatype Entry = Entry(name: string, url: string, oauth: bool, enabled: bool)

  /** The stored servers and the token each would send now. */
  datatype Store = Store(entries: map<string, Entry>, tokens: map<string, string>)

  function TokenFor(st: Store, name: string): Option<string>
  {
    if name in st.tokens then Some(st.tokens[name]) else None
  }

  /** An OAuth server without a usable token stays unmounted. */
  predicate Mountable(st: Store, e: Entry)
  {
    e.enabled && (!e.oauth || TokenFor(st, e.name).Some?)
  }

  datatype Status = Starting | Connected | Failed

  datatype Live = Live(entry: Entry, token: Option<string>, fibers: set<Fiber>, status: Status, retired: bool)

  /** `owner` is the mount each fiber was started for, `disposed` the fibers whose dispose was called. */
  datatype Mounts = Mounts(
    mounts: map<string, LiveRef>, lives: map<LiveRef, Live>, owner: map<Fiber, LiveRef>,
    disposed: set<Fiber>, awaiting: set<LiveRef>, nextLive: LiveRef, nextFiber: Fiber)

  const NoMounts := Mounts(map[], map[], map[], {}, {}, 0, 0)

  // ---- The synchronous parts --------------------------------------------------------------

  function Unmount(m: Mounts, name: string): Mounts
  {
    if name !in m.mounts || m.mounts[name] !in m.lives then m else
    var l := m.mounts[name];
    m.(mounts := m.mounts - {name},
       lives := m.lives[l := m.lives[l].(retired := true)],
       disposed := m.disposed + m.lives[l].fibers)
  }

  function StartMount(m: Mounts, l: LiveRef): Mounts
    requires l in m.lives
  {
    m.(lives := m.lives[l := m.lives[l].(fibers := m.lives[l].fibers + {m.nextFiber})],
       owner := m.owner[m.nextFiber := l],
       nextFiber := m.nextFiber + 1)
  }

  /** `starts` is false when mounting throws; the entry is kept with its error. */
  function MountEntry(m: Mounts, st: Store, e: Entry, starts: bool): Mounts
  {
    var l := m.nextLive;
    var made := m.(lives := m.lives[l := Live(e, TokenFor(st, e.name), {}, if starts then Starting else Failed, false)],
                    nextLive := l + 1);
    var started := if starts then StartMount(made, l).(awaiting := m.awaiting + {l}) else made;
    started.(mounts := m.mounts[e.name := l])
  }

  /** The first fiber's handshake settles; a failure starts one reconnect mount unless retired. */
  function FirstSettles(m: Mounts, l: LiveRef, connected: bool, starts: bool): Mounts
    requires l in m.lives
  {
    var live := m.lives[l];
    var m' := m.(awaiting := m.awaiting - {l},
                 lives := m.lives[l := live.(status := if connected then Connected else Failed)]);
    var current := !live.retired && live.entry.name in m.mounts && m.mounts[live.entry.name] == l;
    if connected || !current || !starts then m' else StartMount(m', l)
  }

  // ---- The serialized operations ----------------------------------------------------------

  /** At most one mount-changing operation runs; each constructor is where it may be suspended. */
  datatype Op =
    | Idle
    | Unmounting(wanted: map<string, Entry>, left: set<string>)
    | Mounting(wanted: map<string, Entry>, left: set<string>)
    | Retrying(name: string)

  datatype Pool = Pool(mounts: Mounts, op: Op, store: Store)

  datatype Action =
    | BeginReconcile
    | CheckMount(name: string)
    | BeginMounting
    | MountWanted(name: string, starts: bool)
    | EndReconcile
    | BeginRetry(name: string)
    | EndRetry(starts: bool)
    | Settle(l: LiveRef, connected: bool, reconnectStarts: bool)
    | ChangeStore(store: Store)
    | DisposeAll

  predicate Enabled(p: Pool, a: Action)
  {
    match a
    case BeginReconcile | BeginRetry(_) => p.op.Idle?
    case CheckMount(name) => p.op.Unmounting? && name in p.op.left
    case BeginMounting => p.op.Unmounting? && p.op.left == {}
    case MountWanted(name, _) => p.op.Mounting? && name in p.op.left && name in p.op.wanted
    case EndReconcile => p.op.Mounting? && p.op.left == {}
    case EndRetry(_) => p.op.Retrying?
    case Settle(l, _, _) => l in p.mounts.awaiting && l in p.mounts.lives
    case ChangeStore(st) => WellKeyed(st)
    case DisposeAll => true
  }

  /** The store files every entry under its own name. */
  predicate WellKeyed(st: Store)
  {
    forall name | name in st.entries :: st.entries[name].name == name
  }

  /** The first loop of reconcile: should this mount go? */
  predicate Stale(p: Pool, wanted: map<string, Entry>, name: string)
  {
    name in p.mounts.mounts && p.mounts.mounts[name] in p.mounts.lives &&
    var live := p.mounts.lives[p.mounts.mounts[name]];
    || name !in wanted
    || !Mountable(p.store, wanted[name])
    || live.entry.url != wanted[name].url
    || live.token != TokenFor(p.store, name)
  }

  function UnmountAll(m: Mounts): Mounts
  {
    m.(mounts := map[],
       lives := map l | l in m.lives :: if l in m.mounts.Values then m.lives[l].(retired := true) else m.lives[l],
       disposed := m.disposed + set l, f | l in m.mounts.Values && l in m.lives && f in m.lives[l].fibers :: f)
  }

  function Step(p: Pool, a: Action): Pool
    requires Enabled(p, a)
  {
    match a
    case BeginReconcile => p.(op := Unmounting(p.store.entries, p.mounts.mounts.Keys))
    case CheckMount(name) =>
      p.(mounts := if Stale(p, p.op.wanted, name) then Unmount(p.mounts, name) else p.mounts,
         op := Unmounting(p.op.wanted, p.op.left - {name}))
    case BeginMounting => p.(op := Mounting(p.op.wanted, p.op.wanted.Keys))
    case MountWanted(name, starts) =>
      var e := p.op.wanted[name];
      p.(mounts := if !Mountable(p.store, e) || e.name in p.mounts.mounts then p.mounts
                   else MountEntry(p.mounts, p.store, e, starts),
         op := Mounting(p.op.wanted, p.op.left - {name}))
    case EndReconcile => p.(op := Idle)
    case BeginRetry(name) => p.(mounts := Unmount(p.mounts, name), op := Retrying(name))
    case EndRetry(starts) =>
      var name := p.op.name;
      p.(mounts := if name in p.store.entries && Mountable(p.store, p.store.entries[name])
                   then MountEntry(p.mounts, p.store, p.store.entries[name], starts) else p.mounts,
         op := Idle)
    case Settle(l, connected, reconnectStarts) => p.(mounts := FirstSettles(p.mounts, l, connected, reconnectStarts))
    case ChangeStore(st) => p.(store := st)
    case DisposeAll => p.(mounts := UnmountAll(p.mounts))
  }

  predicate IsRun(p: Pool, actions: seq<Action>)
    decreases |actions|
  {
    actions == [] || (Enabled(p, actions[0]) && IsRun(Step(p, actions[0]), actions[1..]))
  }

  function Run(p: Pool, actions: seq<Action>): Pool
    requires IsRun(p, actions)
    decreases |actions|
  {
    if actions == [] then p else Run(Step(p, actions[0]), actions[1..])
  }

  // ---- Ownership --------------------------------------------------------------------------

  predicate IsCurrent(m: Mounts, l: LiveRef)
  {
    l in m.lives && m.lives[l].entry.name in m.mounts && m.mounts[m.lives[l].entry.name] == l
  }

  /** A mount is retired exactly when it is no longer the one mapped under its server's name. */
  ghost predicate Mapped(m: Mounts)
  {
    && (forall l | l in m.lives :: l < m.nextLive && (m.lives[l].retired <==> !IsCurrent(m, l)))
    && (forall name | name in m.mounts :: m.mounts[name] in m.lives && m.lives[m.mounts[name]].entry.name == name)
    && m.awaiting <= m.lives.Keys
  }

  /** Every fiber is in the list of the one mount it was started for. */
  ghost predicate Listed(m: Mounts)
  {
    && (forall f | f in m.owner :: f < m.nextFiber && m.owner[f] in m.lives && f in m.lives[m.owner[f]].fibers)
    && (forall l, f | l in m.lives && f in m.lives[l].fibers :: f in m.owner && m.owner[f] == l)
    && (forall f: Fiber | f < m.nextFiber :: f in m.owner)
  }

  /** Dispose was called on exactly the fibers of retired mounts. */
  ghost predicate Disposed(m: Mounts)
  {
    && m.disposed <= m.owner.Keys
    && (forall f | f in m.owner && m.owner[f] in m.lives :: f in m.disposed <==> m.lives[m.owner[f]].retired)
  }

  /** A mount starts at most two fibers: the first, and one reconnect after its failure. */
  ghost predicate Counted(m: Mounts)
  {
    forall l | l in m.lives :: |m.lives[l].fibers| <= if l in m.awaiting then 1 else 2
  }

  ghost predicate Inv(p: Pool)
  {
    && Mapped(p.mounts) && Listed(p.mounts) && Disposed(p.mounts) && Counted(p.mounts)
    && WellKeyed(p.store)
    && (p.op.Retrying? ==> p.op.name !in p.mounts.mounts)
    && (p.op.Unmounting? || p.op.Mounting? ==> forall name | name in p.op.wanted :: p.op.wanted[name].name == name)
  }

  ghost predicate Owned(m: Mounts)
  {
    Mapped(m) && Listed(m) && Disposed(m) && Counted(m)
  }

  /** Retiring a set of current mounts with all their fibers keeps the books. */
  lemma RetiringKeeps(m: Mounts, m': Mounts, gone: set<string>)
    requires Owned(m) && m'.owner == m.owner && m'.nextFiber == m.nextFiber && m'.nextLive == m.nextLive
    requires m'.awaiting == m.awaiting && m'.lives.Keys == m.lives.Keys
    requires forall name | name in m.mounts && name !in gone :: name in m'.mounts && m'.mounts[name] == m.mounts[name]
    requires forall name | name in m'.mounts :: name in m.mounts && name !in gone
    requires forall l | l in m.lives ::
               m'.lives[l] == m.lives[l].(retired := m.lives[l].retired || m.lives[l].entry.name in gone)
    requires forall f | f in m.owner && m.owner[f] in m.lives :: f in m'.disposed <==> m'.lives[m.owner[f]].retired
    requires m'.disposed <= m.owner.Keys
    ensures Owned(m')
  {
    forall l | l in m'.lives ensures m'.lives[l].retired <==> !IsCurrent(m', l) {
      assert m.lives[l].retired <==> !IsCurrent(m, l);
    }
  }

  lemma UnmountRetires(m: Mounts, name: string, k: LiveRef)
    requires Mapped(m) && name in m.mounts && k in m.lives
    ensures Unmount(m, name).lives[k] == m.lives[k].(retired := m.lives[k].retired || m.lives[k].entry.name == name)
  {
    assert m.lives[k].retired <==> !IsCurrent(m, k);
  }

  lemma UnmountDisposes(m: Mounts, name: string, f: Fiber)
    requires Owned(m) && name in m.mounts && f in m.owner
    ensures m.owner[f] in m.lives
    ensures f in Unmount(m, name).disposed <==> Unmount(m, name).lives[m.owner[f]].retired
  {
    UnmountRetires(m, name, m.owner[f]);
    assert IsCurrent(m, m.owner[f]) <==> !m.lives[m.owner[f]].retired;
    assert f in m.lives[m.owner[f]].fibers;
  }

  lemma UnmountRetiresOnly(m: Mounts, name: string)
    requires Owned(m) && name in m.mounts
    ensures forall l | l in m.lives :: Unmount(m, name).lives[l]
              == m.lives[l].(retired := m.lives[l].retired || m.lives[l].entry.name in {name})
  {
    forall l | l in m.lives
      ensures Unmount(m, name).lives[l] == m.lives[l].(retired := m.lives[l].retired || m.lives[l].entry.name in {name})
    {
      UnmountRetires(m, name, l);
    }
  }

  lemma UnmountDisposesOnly(m: Mounts, name: string)
    requires Owned(m) && name in m.mounts
    ensures Unmount(m, name).disposed <= m.owner.Keys
    ensures forall f | f in m.owner && m.owner[f] in m.lives ::
              f in Unmount(m, name).disposed <==> Unmount(m, name).lives[m.owner[f]].retired
  {
    forall f | f in m.owner && m.owner[f] in m.lives
      ensures f in Unmount(m, name).disposed <==> Unmount(m, name).lives[m.owner[f]].retired
    {
      UnmountDisposes(m, name, f);
    }
  }

  lemma UnmountKeeps(m: Mounts, name: string)
    requires Owned(m)
    ensures Owned(Unmount(m, name)) && name !in Unmount(m, name).mounts
  {
    if name in m.mounts {
      UnmountRetiresOnly(m, name);
      UnmountDisposesOnly(m, name);
      RetiringKeeps(m, Unmount(m, name), {name});
    }
  }

  lemma UnmountAllKeeps(m: Mounts)
    requires Owned(m)
    ensures Owned(UnmountAll(m))
  {
    var m' := UnmountAll(m);
    forall l | l in m.lives
      ensures l in m.mounts.Values <==> IsCurrent(m, l)
      ensures m'.lives[l] == m.lives[l].(retired := m.lives[l].retired || m.lives[l].entry.name in m.mounts.Keys) {
      assert m.lives[l].retired <==> !IsCurrent(m, l);
      if l in m.mounts.Values {
        var name :| name in m.mounts && m.mounts[name] == l;
      }
    }
    forall f | f in m.owner ensures f in m'.disposed <==> m'.lives[m.owner[f]].retired {
      assert m.owner[f] in m.lives && f in m.lives[m.owner[f]].fibers;
    }
    RetiringKeeps(m, m', m.mounts.Keys);
  }

  lemma StartMountMapped(m: Mounts, l: LiveRef)
    requires Mapped(m) && l in m.lives
    ensures Mapped(StartMount(m, l))
  {
    var m' := StartMount(m, l);
    forall k | k in m'.lives ensures m'.lives[k].retired <==> !IsCurrent(m', k) {
      assert IsCurrent(m', k) <==> IsCurrent(m, k);
    }
  }

  lemma StartMountListed(m: Mounts, l: LiveRef)
    requires Listed(m) && l in m.lives
    ensures Listed(StartMount(m, l))
  {
    var m' := StartMount(m, l);
    assert m.nextFiber !in m.owner;
    forall g | g in m.owner ensures g in m'.lives[m'.owner[g]].fibers {
      assert g in m.lives[m.owner[g]].fibers;
    }
  }

  lemma StartMountKeeps(m: Mounts, l: LiveRef)
    requires Owned(m) && l in m.lives && !m.lives[l].retired && l !in m.awaiting && |m.lives[l].fibers| < 2
    ensures Owned(StartMount(m, l))
  {
    StartMountMapped(m, l);
    StartMountListed(m, l);
    assert m.nextFiber !in m.owner && m.nextFiber !in m.disposed;
    assert Disposed(StartMount(m, l));
  }

  /** Mapping a new mount without fibers under a free name. */
  lemma AddingKeeps(m: Mounts, live: Live)
    requires Owned(m) && live.entry.name !in m.mounts && live.fibers == {} && !live.retired
    ensures Owned(m.(lives := m.lives[m.nextLive := live], nextLive := m.nextLive + 1,
                     mounts := m.mounts[live.entry.name := m.nextLive]))
  {
    var m' := m.(lives := m.lives[m.nextLive := live], nextLive := m.nextLive + 1,
                 mounts := m.mounts[live.entry.name := m.nextLive]);
    assert m.nextLive !in m.lives;
    forall l | l in m'.lives ensures m'.lives[l].retired <==> !IsCurrent(m', l) {
      if l != m.nextLive {
        assert m.lives[l].retired <==> !IsCurrent(m, l);
      }
    }
    assert Listed(m') && Disposed(m');
  }

  lemma AwaitingKeeps(m: Mounts, l: LiveRef)
    requires Owned(m) && l in m.lives && |m.lives[l].fibers| <= 1
    ensures Owned(m.(awaiting := m.awaiting + {l}))
  {
  }

  /** Mounting an entry is mapping it without fibers, then starting one and awaiting it. */
  lemma MountEntryIs(m: Mounts, st: Store, e: Entry)
    ensures var live := Live(e, TokenFor(st, e.name), {}, Starting, false);
            var added := m.(lives := m.lives[m.nextLive := live], nextLive := m.nextLive + 1,
                            mounts := m.mounts[e.name := m.nextLive]);
            MountEntry(m, st, e, true) == StartMount(added, m.nextLive).(awaiting := m.awaiting + {m.nextLive})
  {
  }

  lemma MountEntryKeeps(m: Mounts, st: Store, e: Entry, starts: bool)
    requires Owned(m) && e.name !in m.mounts
    ensures Owned(MountEntry(m, st, e, starts))
  {
    var l := m.nextLive;
    var live := Live(e, TokenFor(st, e.name), {}, if starts then Starting else Failed, false);
    AddingKeeps(m, live);
    if starts {
      MountEntryIs(m, st, e);
      var added := m.(lives := m.lives[l := live], nextLive := l + 1, mounts := m.mounts[e.name := l]);
      assert l !in m.lives && l !in m.awaiting;
      StartMountKeeps(added, l);
      AwaitingKeeps(StartMount(added, l), l);
    }
  }

  function Settled(m: Mounts, l: LiveRef, status: Status): Mounts
    requires l in m.lives
  {
    m.(awaiting := m.awaiting - {l}, lives := m.lives[l := m.lives[l].(status := status)])
  }

  lemma SettlingMapped(m: Mounts, l: LiveRef, status: Status)
    requires Mapped(m) && l in m.lives
    ensures Mapped(Settled(m, l, status))
  {
    var m' := Settled(m, l, status);
    forall k | k in m'.lives ensures m'.lives[k].retired <==> !IsCurrent(m', k) {
      assert IsCurrent(m', k) <==> IsCurrent(m, k);
    }
  }

  lemma SettlingKeeps(m: Mounts, l: LiveRef, status: Status)
    requires Owned(m) && l in m.awaiting
    ensures Owned(Settled(m, l, status))
  {
    SettlingMapped(m, l, status);
    assert Listed(Settled(m, l, status));
    assert Disposed(Settled(m, l, status));
  }

  lemma FirstSettlesKeeps(m: Mounts, l: LiveRef, connected: bool, starts: bool)
    requires Owned(m) && l in m.awaiting
    ensures Owned(FirstSettles(m, l, connected, starts))
  {
    var status := if connected then Connected else Failed;
    SettlingKeeps(m, l, status);
    if !m.lives[l].retired {
      StartMountKeeps(Settled(m, l, status), l);
    }
  }

  lemma StepKeepsInv(p: Pool, a: Action)
    requires Inv(p) && Enabled(p, a)
    ensures Inv(Step(p, a))
  {
    match a
    case CheckMount(name) => UnmountKeeps(p.mounts, name);
    case MountWanted(name, starts) =>
      if p.op.wanted[name].name !in p.mounts.mounts {
        MountEntryKeeps(p.mounts, p.store, p.op.wanted[name], starts);
      }
    case BeginRetry(name) => UnmountKeeps(p.mounts, name);
    case EndRetry(starts) =>
      if p.op.name in p.store.entries {
        MountEntryKeeps(p.mounts, p.store, p.store.entries[p.op.name], starts);
      }
    case Settle(l, connected, starts) => FirstSettlesKeeps(p.mounts, l, connected, starts);
    case DisposeAll => UnmountAllKeeps(p.mounts);
    case _ =>
  }

  lemma {:induction false} RunKeepsInv(p: Pool, actions: seq<Action>)
    requires Inv(p) && IsRun(p, actions)
    ensures Inv(Run(p, actions))
    decreases |actions|
  {
    if actions != [] {
      StepKeepsInv(p, actions[0]);
      RunKeepsInv(Step(p, actions[0]), actions[1..]);
    }
  }

  /**
   * Under every interleaving of handshakes, reconnect mounts, retries, reconciles, store changes
   * and disposal: a started fiber has had dispose called exactly when it does not belong to the
   * mount its server has now, and a mount never holds more than two fibers.
   */
  lemma EveryFiberOwnedOrDisposed(st: Store, actions: seq<Action>, f: Fiber)
    requires WellKeyed(st) && IsRun(Pool(NoMounts, Idle, st), actions)
    requires f < Run(Pool(NoMounts, Idle, st), actions).mounts.nextFiber
    ensures var m := Run(Pool(NoMounts, Idle, st), actions).mounts;
            && f in m.owner && m.owner[f] in m.lives
            && (f !in m.disposed <==> IsCurrent(m, m.owner[f]))
            && f in m.lives[m.owner[f]].fibers && |m.lives[m.owner[f]].fibers| <= 2
  {
    RunKeepsInv(Pool(NoMounts, Idle, st), actions);
    var m := Run(Pool(NoMounts, Idle, st), actions).mounts;
    assert f in m.owner;
  }

  /** No step starts a fiber for a retired mount: whatever it starts belongs to a current one. */
  lemma NothingStartsForRetired(st: Store, actions: seq<Action>, a: Action, f: Fiber)
    requires WellKeyed(st) && IsRun(Pool(NoMounts, Idle, st), actions)
    requires Enabled(Run(Pool(NoMounts, Idle, st), actions), a)
    requires var p := Run(Pool(NoMounts, Idle, st), actions); p.mounts.nextFiber <= f < Step(p, a).mounts.nextFiber
    ensures var p := Run(Pool(NoMounts, Idle, st), actions);
            var m := Step(p, a).mounts;
            && f in m.owner && IsCurrent(m, m.owner[f]) && f !in m.disposed
            && (m.owner[f] in p.mounts.lives ==> !p.mounts.lives[m.owner[f]].retired)
  {
    RunKeepsInv(Pool(NoMounts, Idle, st), actions);
    var p := Run(Pool(NoMounts, Idle, st), actions);
    StepKeepsInv(p, a);
    StartedIsCurrent(p, a, f);
  }

  lemma StartedIsCurrent(p: Pool, a: Action, f: Fiber)
    requires Inv(p) && Enabled(p, a) && Inv(Step(p, a))
    requires p.mounts.nextFiber <= f < Step(p, a).mounts.nextFiber
    ensures var m := Step(p, a).mounts;
            && f in m.owner && IsCurrent(m, m.owner[f]) && f !in m.disposed
            && (m.owner[f] in p.mounts.lives ==> !p.mounts.lives[m.owner[f]].retired)
  {
    var m := Step(p, a).mounts;
    assert f in m.owner && f !in p.mounts.disposed;
  }

  // ---- One reconcile pass -----------------------------------------------------------------

  /** What can happen during a pass while store and clock stand still and the pool is not disposed. */
  predicate DuringPass(a: Action)
  {
    a.CheckMount? || a.BeginMounting? || a.MountWanted? || a.Settle?
  }

  /** The mount is the one the stored entry asks for. */
  predicate Fits(p: Pool, name: string)
  {
    && name in p.store.entries && Mountable(p.store, p.store.entries[name])
    && name in p.mounts.mounts && p.mounts.mounts[name] in p.mounts.lives
    && p.mounts.lives[p.mounts.mounts[name]].entry.url == p.store.entries[name].url
    && p.mounts.lives[p.mounts.mounts[name]].token == TokenFor(p.store, name)
  }

  /** Exactly the mountable servers are mounted, each with the stored URL and token. */
  ghost predicate Exact(p: Pool)
  {
    && (forall name | name in p.mounts.mounts :: Fits(p, name))
    && (forall name | name in p.store.entries && Mountable(p.store, p.store.entries[name]) :: name in p.mounts.mounts)
  }

  /** How far the pass is: what it has visited is settled, what is left is not. */
  ghost predicate Progress(p: Pool)
  {
    && (p.op.Unmounting? || p.op.Mounting?) && p.op.wanted == p.store.entries
    && (p.op.Unmounting? ==> forall name | name in p.mounts.mounts :: name in p.op.left || Fits(p, name))
    && (p.op.Mounting? ==> forall name | name in p.mounts.mounts :: Fits(p, name))
    && (p.op.Mounting? ==> forall name | name in p.store.entries && Mountable(p.store, p.store.entries[name]) ::
          name in p.op.left || name in p.mounts.mounts)
  }

  /** The mount under `name` is still there, for the same entry and token. */
  predicate Kept(m: Mounts, m': Mounts, name: string)
  {
    && name in m.mounts && m.mounts[name] in m.lives
    && name in m'.mounts && m'.mounts[name] == m.mounts[name] && m'.mounts[name] in m'.lives
    && m'.lives[m'.mounts[name]].entry == m.lives[m.mounts[name]].entry
    && m'.lives[m'.mounts[name]].token == m.lives[m.mounts[name]].token
  }

  lemma OthersKept(m: Mounts, name: string, st: Store, e: Entry, starts: bool)
    requires Mapped(m) && name in m.mounts
    ensures e.name != name ==> Kept(m, MountEntry(m, st, e, starts), name)
    ensures name in Unmount(m, e.name).mounts ==> Kept(m, Unmount(m, e.name), name)
  {
    assert m.mounts[name] != m.nextLive;
  }

  lemma SettlingKept(m: Mounts, name: string, l: LiveRef, connected: bool, starts: bool)
    requires Mapped(m) && name in m.mounts && l in m.lives
    ensures Kept(m, FirstSettles(m, l, connected, starts), name)
  {
  }

  /** The steps of a pass leave every other mount as it was. */
  lemma PassStepFits(p: Pool, a: Action, name: string)
    requires Mapped(p.mounts) && Enabled(p, a) && DuringPass(a)
    requires name in p.mounts.mounts && name in Step(p, a).mounts.mounts && Fits(p, name)
    ensures Fits(Step(p, a), name)
  {
    match a
    case CheckMount(other) => OthersKept(p.mounts, name, p.store, Entry(other, "", false, false), false);
    case MountWanted(other, starts) => OthersKept(p.mounts, name, p.store, p.op.wanted[other], starts);
    case Settle(l, connected, starts) => SettlingKept(p.mounts, name, l, connected, starts);
    case _ =>
  }

  lemma CheckKeeps(p: Pool, name: string)
    requires Inv(p) && Progress(p) && Enabled(p, CheckMount(name))
    ensures Progress(Step(p, CheckMount(name)))
  {
    var p' := Step(p, CheckMount(name));
    forall other | other in p'.mounts.mounts ensures other in p'.op.left || Fits(p', other) {
      if other != name && other !in p.op.left {
        PassStepFits(p, CheckMount(name), other);
      }
    }
  }

  lemma MountedFits(p: Pool, name: string, starts: bool)
    requires Inv(p) && Progress(p) && Enabled(p, MountWanted(name, starts))
    requires Mountable(p.store, p.op.wanted[name]) && name !in p.mounts.mounts
    ensures Fits(Step(p, MountWanted(name, starts)), name)
  {
  }

  lemma MountKeeps(p: Pool, name: string, starts: bool)
    requires Inv(p) && Progress(p) && Enabled(p, MountWanted(name, starts))
    ensures Progress(Step(p, MountWanted(name, starts)))
  {
    var p' := Step(p, MountWanted(name, starts));
    assert p.op.wanted[name].name == name;
    forall other | other in p'.mounts.mounts ensures Fits(p', other) {
      if other in p.mounts.mounts {
        PassStepFits(p, MountWanted(name, starts), other);
      } else {
        MountedFits(p, name, starts);
      }
    }
  }

  lemma PassStepKeeps(p: Pool, a: Action)
    requires Inv(p) && Progress(p) && Enabled(p, a) && DuringPass(a)
    ensures Progress(Step(p, a)) && Step(p, a).store == p.store
  {
    match a
    case CheckMount(name) => CheckKeeps(p, name);
    case MountWanted(name, starts) => MountKeeps(p, name, starts);
    case Settle(_, _, _) =>
      forall name | name in p.mounts.mounts && Fits(p, name) ensures Fits(Step(p, a), name) {
        PassStepFits(p, a, name);
      }
    case _ =>
  }

  ghost predicate IsPass(p: Pool, actions: seq<Action>)
  {
    IsRun(p, actions) && forall i | 0 <= i < |actions| :: DuringPass(actions[i])
  }

  lemma {:induction false} PassKeeps(p: Pool, actions: seq<Action>)
    requires Inv(p) && Progress(p) && IsPass(p, actions)
    ensures Inv(Run(p, actions)) && Progress(Run(p, actions)) && Run(p, actions).store == p.store
    decreases |actions|
  {
    if actions != [] {
      assert DuringPass(actions[0]);
      StepKeepsInv(p, actions[0]);
      PassStepKeeps(p, actions[0]);
      assert forall i | 0 <= i < |actions| - 1 :: actions[1..][i] == actions[i + 1];
      PassKeeps(Step(p, actions[0]), actions[1..]);
    }
  }

  /**
   * From every pool, whatever handshakes settle meanwhile: a reconcile pass over a stable store
   * and clock ends with exactly the mountable servers mounted, with matching URL and token.
   */
  lemma ReconcileIsExact(p: Pool, actions: seq<Action>)
    requires Inv(p) && p.op.Idle?
    requires IsPass(Step(p, BeginReconcile), actions) && Enabled(Run(Step(p, BeginReconcile), actions), EndReconcile)
    ensures var done := Step(Run(Step(p, BeginReconcile), actions), EndReconcile);
            Exact(done) && done.store == p.store && Inv(done)
  {
    StepKeepsInv(p, BeginReconcile);
    PassKeeps(Step(p, BeginReconcile), actions);
    StepKeepsInv(Run(Step(p, BeginReconcile), actions), EndReconcile);
  }

  // ---- Awaits inside a pass ---------------------------------------------------------------

  /** Handshakes delivered during an await leave the map and every mounted entry as they were. */
  lemma AwaitKeepsProgress(p: Pool, m': Mounts)
    requires Mapped(p.mounts) && Progress(p) && m'.mounts == p.mounts.mounts
    requires forall name | name in p.mounts.mounts :: Kept(p.mounts, m', name)
    ensures Progress(p.(mounts := m'))
  {
    forall name | name in p.mounts.mounts && Fits(p, name) ensures Fits(p.(mounts := m'), name) {
      assert Kept(p.mounts, m', name);
    }
  }
}

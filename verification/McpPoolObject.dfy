/**
 * The pool as the object it is: the synchronous parts of mounting and unmounting, and a reconcile
 * pass whose awaits deliver arbitrary handshakes (control-plane/src/mcp/mcp-pool.ts:55-119, 280-358).
 */
module McpPoolObject {
  import opened Prelude
  import P = McpPool

  /** A handshake of a first fiber, delivered while a disposal is awaited. */
  datatype Handshake = Handshake(l: P.LiveRef, connected: bool, reconnectStarts: bool)

  class McpPool {
    var mounts: map<string, P.LiveRef>
    var lives: map<P.LiveRef, P.Live>
    var awaiting: set<P.LiveRef>
    var nextLive: P.LiveRef
    var nextFiber: P.Fiber
    ghost var owner: map<P.Fiber, P.LiveRef>
    ghost var disposed: set<P.Fiber>

    ghost function State(): P.Mounts
      reads this
    {
      P.Mounts(mounts, lives, owner, disposed, awaiting, nextLive, nextFiber)
    }

    constructor ()
      ensures State() == P.NoMounts
    {
      mounts, lives, nextLive, nextFiber, awaiting := map[], map[], 0, 0, {};
      owner, disposed := map[], {};
    }

    /** Retire and clear before the await; every fiber's dispose is called before it too. */
    method Unmount(name: string)
      requires P.Mapped(State())
      modifies this
      ensures State() == P.Unmount(old(State()), name)
    {
      if name !in mounts {
        return;
      }
      var l := mounts[name];
      lives := lives[l := lives[l].(retired := true)];
      mounts := mounts - {name};
      disposed := disposed + lives[l].fibers;
    }

    method StartMount(l: P.LiveRef)
      requires l in lives
      modifies this`lives, this`owner, this`nextFiber
      ensures State() == P.StartMount(old(State()), l)
    {
      var fiber := nextFiber;
      nextFiber := nextFiber + 1;
      lives := lives[l := lives[l].(fibers := lives[l].fibers + {fiber})];
      owner := owner[fiber := l];
    }

    method MountEntry(st: P.Store, e: P.Entry, starts: bool)
      modifies this
      ensures State() == P.MountEntry(old(State()), st, e, starts)
    {
      var l := nextLive;
      nextLive := nextLive + 1;
      lives := lives[l := P.Live(e, P.TokenFor(st, e.name), {}, if starts then P.Starting else P.Failed, false)];
      if starts {
        StartMount(l);
        awaiting := awaiting + {l};
      }
      mounts := mounts[e.name := l];
    }

    /** The settlement callbacks of the first fiber, `retryAfterFailure` included. */
    method OnFirstSettled(l: P.LiveRef, connected: bool, reconnectStarts: bool)
      requires l in lives
      modifies this
      ensures State() == P.FirstSettles(old(State()), l, connected, reconnectStarts)
    {
      awaiting := awaiting - {l};
      lives := lives[l := lives[l].(status := if connected then P.Connected else P.Failed)];
      if connected || lives[l].retired || lives[l].entry.name !in mounts || mounts[lives[l].entry.name] != l {
        return;
      }
      if reconnectStarts {
        StartMount(l);
      }
    }

    /** One await: whichever handshakes settle meanwhile run their callbacks. */
    method Await(handshakes: seq<Handshake>)
      requires P.Owned(State())
      modifies this
      ensures P.Owned(State()) && mounts == old(mounts)
      ensures forall name | name in mounts :: P.Kept(old(State()), State(), name)
    {
      var i := 0;
      while i < |handshakes|
        invariant P.Owned(State()) && mounts == old(mounts)
        invariant forall name | name in mounts :: P.Kept(old(State()), State(), name)
      {
        var h := handshakes[i];
        if h.l in awaiting {
          ghost var before := State();
          P.FirstSettlesKeeps(before, h.l, h.connected, h.reconnectStarts);
          OnFirstSettled(h.l, h.connected, h.reconnectStarts);
          forall name | name in mounts ensures P.Kept(old(State()), State(), name) {
            assert P.Kept(old(State()), before, name);
            P.SettlingKept(before, name, h.l, h.connected, h.reconnectStarts);
          }
        }
        i := i + 1;
      }
    }

    /** `reconcile` over a store and clock that stand still, awaiting every disposal. */
    method Reconcile(st: P.Store, schedule: seq<seq<Handshake>>, throwing: set<string>)
      requires P.Owned(State()) && P.WellKeyed(st)
      modifies this
      ensures P.Owned(State()) && P.Exact(P.Pool(State(), P.Idle, st))
    {
      var left := mounts.Keys;
      var turn := 0;
      while left != {}
        invariant P.Owned(State()) && P.Progress(P.Pool(State(), P.Unmounting(st.entries, left), st))
        decreases left
      {
        var name :| name in left;
        ghost var p := P.Pool(State(), P.Unmounting(st.entries, left), st);
        P.CheckKeeps(p, name);
        P.StepKeepsInv(p, P.CheckMount(name));
        left := left - {name};
        if IsStale(st, name) {
          Unmount(name);
          ghost var unmounted := State();
          Await(if turn < |schedule| then schedule[turn] else []);
          turn := turn + 1;
          P.AwaitKeepsProgress(P.Pool(unmounted, P.Unmounting(st.entries, left), st), State());
        }
      }
      left := st.entries.Keys;
      while left != {}
        invariant left <= st.entries.Keys
        invariant P.Owned(State()) && P.Progress(P.Pool(State(), P.Mounting(st.entries, left), st))
        decreases left
      {
        var name :| name in left;
        ghost var p := P.Pool(State(), P.Mounting(st.entries, left), st);
        P.MountKeeps(p, name, name !in throwing);
        P.StepKeepsInv(p, P.MountWanted(name, name !in throwing));
        if P.Mountable(st, st.entries[name]) && name !in mounts {
          MountEntry(st, st.entries[name], name !in throwing);
        }
        left := left - {name};
      }
    }

    predicate IsStale(st: P.Store, name: string)
      reads this
      ensures IsStale(st, name) == P.Stale(P.Pool(State(), P.Idle, st), st.entries, name)
    {
      name in mounts && mounts[name] in lives &&
      (|| name !in st.entries
       || !P.Mountable(st, st.entries[name])
       || lives[mounts[name]].entry.url != st.entries[name].url
       || lives[mounts[name]].token != P.TokenFor(st, name))
    }
  }
}

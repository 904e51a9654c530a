/**
 * Retried saves and whole runs of a sandbox repository (control-plane/src/sandbox/checkpoint.ts:54-139).
 */
module CheckpointRuns {
  import opened Prelude
  import opened Git
  import opened Checkpoint

  // ---- Retries ------------------------------------------------------------------------------

  /** A save whose output was lost, any number of times over. */
  function Retried(r: Repo, stamps: seq<nat>): Repo
    decreases |stamps|
  {
    if stamps == [] then r else Retried(Prepare(r, stamps[0]).repo, stamps[1..])
  }

  /** A later save sees through a lost one: it can undo its commit, and makes its own under the fixed identity. */
  predicate Resavable(r: Repo)
  {
    && Recoverable(r) && Undoable(r)
    && (Changed(r) ==> SaveAuthor(r) == Dsh && r.identity == Dsh && !OnDisk(r, "HEAD~1"))
  }

  /** The later state is the same session: branch, work tree, own commit, and what there is to save. */
  predicate SameSession(r: Repo, q: Repo)
  {
    && q.branch == r.branch && q.work == r.work && q.ignored == r.ignored && q.identity == r.identity
    && LogicalHead(q) == LogicalHead(r)
  }

  lemma ResavableKeeps(r: Repo, stamp: nat)
    requires Good(r) && Resavable(r)
    ensures var q := Prepare(r, stamp).repo;
            Good(q) && Resavable(q) && SameSession(r, q)
  {
    PrepareKeeps(r, stamp);
    PrepareCommits(r, stamp);
  }

  /** Any number of lost saves leaves the session as it was, and a printable branch printable. */
  lemma {:induction false} RetriedKeeps(r: Repo, stamps: seq<nat>)
    requires Good(r) && Resavable(r)
    ensures var q := Retried(r, stamps);
            && Good(q) && Resavable(q) && SameSession(r, q)
            && r.refs.Keys <= q.refs.Keys <= r.refs.Keys + OwnRefs(r)
            && (r.branch != Some("ORIG_HEAD") ==> BranchName(q) == BranchName(r))
    decreases |stamps|
  {
    if stamps != [] {
      var next := Prepare(r, stamps[0]).repo;
      ResavableKeeps(r, stamps[0]);
      PrepareKeeps(r, stamps[0]);
      RetriedKeeps(next, stamps[1..]);
    }
    if r.branch.Some? && r.branch != Some("ORIG_HEAD") {
      OwnRefsDoNotHide(r.refs, Retried(r, stamps).refs, r.branch.value);
    }
  }

  /** Restored refs, all but the ORIG_HEAD a reset leaves. */
  lemma RestoredRefs(clone: Repo, store: set<Commit>, saved: Saved)
    requires IsCheckpoint(saved.commit) ==> saved.commit.parents != []
    ensures var restored := Restored(clone, store, saved);
            var expected := WithBranch(clone.refs, saved.branch, restored.head.value);
            restored.refs - {"ORIG_HEAD"} == expected - {"ORIG_HEAD"}
  {
    if saved.branch.Some? {
      assert ("refs/heads/" + saved.branch.value)[0] == 'r';
    }
  }

  /** What a save of the same session restores. */
  lemma SameSessionRestoresSame(r: Repo, q: Repo, stamp: nat, base: Option<Commit>, clone: Repo)
    requires Good(q) && SameSession(r, q) && Recoverable(r) && FreshClone(clone) && BaseOfSave(q, stamp, base)
    requires Restorable(q, clone) && Transferable(q, base, clone)
    ensures var restored := RoundTrip(q, stamp, base, clone).repo;
            && RoundTrip(q, stamp, base, clone).ok && WorkBack(r, restored)
            && restored.branch == BranchName(q)
            && restored.ignored == clone.ignored && restored.identity == clone.identity && restored.picking.None?
            && var expected := WithBranch(clone.refs, BranchName(q), LogicalHead(r).value);
            restored.refs - {"ORIG_HEAD"} == expected - {"ORIG_HEAD"}
  {
    RoundTripRestores(q, stamp, base, clone);
    RoundTripSucceeds(q, stamp, base, clone);
    var saved := Save(q, stamp, base).value;
    RestoredRefs(clone, Unbundle(clone, saved.bundle).repo.store, saved);
  }

  /**
   * Retrying a save any number of times restores what a single save restores, all but the ORIG_HEAD
   * a reset leaves; a branch itself called ORIG_HEAD may come back under another name.
   */
  lemma RetriesDoNotMatter(r: Repo, stamps: seq<nat>, stamp: nat, base: Option<Commit>,
                           once: nat, onceBase: Option<Commit>, clone: Repo)
    requires Good(r) && Resavable(r) && Restorable(r, clone) && FreshClone(clone)
    requires BaseOfSave(Retried(r, stamps), stamp, base) && Transferable(Retried(r, stamps), base, clone)
    requires BaseOfSave(r, once, onceBase) && Transferable(r, onceBase, clone)
    ensures var many := RoundTrip(Retried(r, stamps), stamp, base, clone);
            var single := RoundTrip(r, once, onceBase, clone);
            && many.ok && single.ok
            && many.repo.(store := {}, refs := map[], branch := None)
                 == single.repo.(store := {}, refs := map[], branch := None)
            && (r.branch != Some("ORIG_HEAD") ==>
                  many.repo.branch == single.repo.branch
                  && many.repo.refs - {"ORIG_HEAD"} == single.repo.refs - {"ORIG_HEAD"})
  {
    RetriedKeeps(r, stamps);
    SameSessionRestoresSame(r, Retried(r, stamps), stamp, base, clone);
    SameSessionRestoresSame(r, r, once, onceBase, clone);
  }

  // ---- Exactly when a retried save still brings the session back -----------------------------

  /** HEAD cannot be undone, so every further save fails. */
  predicate Stuck(q: Repo)
  {
    IsCheckpointHead(q) && (q.head.value.parents == [] || OnDisk(q, "HEAD~1"))
  }

  /** HEAD is some commit besides the session's own, and nothing is left to save. */
  predicate Strayed(r: Repo, q: Repo)
  {
    q.head.Some? && !IsCheckpointHead(q) && q.head != LogicalHead(r) && !Changed(q)
  }

  /** HEAD is a checkpoint that the next save replaces by a commit no restore recognizes. */
  predicate Wavering(r: Repo, q: Repo)
  {
    && IsCheckpointHead(q) && SaveRuns(q) && Changed(q) && q.identity == Someone
    && SameSession(r, q)
  }

  ghost predicate Lost(r: Repo, q: Repo)
  {
    Good(q) && (Stuck(q) || Strayed(r, q) || Wavering(r, q))
  }

  /** One lost save already loses a session a later save cannot see through. */
  lemma FirstLoses(r: Repo, stamp: nat)
    requires Good(r) && r.head.Some? && !Resavable(r)
    ensures Lost(r, Prepare(r, stamp).repo)
  {
    PrepareKeeps(r, stamp);
    if SaveRuns(r) {
      PrepareCommits(r, stamp);
      ParentDiffers(Prepare(r, stamp).repo.head.value);
    }
  }

  lemma LostStays(r: Repo, q: Repo, stamp: nat)
    requires Lost(r, q)
    ensures Lost(r, Prepare(q, stamp).repo)
  {
    PrepareKeeps(q, stamp);
    if SaveRuns(q) {
      PrepareCommits(q, stamp);
      if Wavering(r, q) {
        ParentDiffers(Prepare(q, stamp).repo.head.value);
      }
    }
  }

  lemma {:induction false} LostForGood(r: Repo, q: Repo, stamps: seq<nat>)
    requires Lost(r, q)
    ensures Lost(r, Retried(q, stamps))
    decreases |stamps|
  {
    if stamps != [] {
      LostStays(r, q, stamps[0]);
      LostForGood(r, Prepare(q, stamps[0]).repo, stamps[1..]);
    }
  }

  lemma LostIsNotBack(r: Repo, q: Repo, stamp: nat, base: Option<Commit>, clone: Repo)
    requires Lost(r, q) && FreshClone(clone) && BaseOfSave(q, stamp, base)
    ensures !(RoundTrip(q, stamp, base, clone).ok && WorkBack(r, RoundTrip(q, stamp, base, clone).repo))
  {
    RoundTripSucceeds(q, stamp, base, clone);
    if RoundTrip(q, stamp, base, clone).ok {
      RestoredIsBackExactly(q, stamp, base, clone);
    }
  }

  /**
   * After at least one lost save, a save brings the session back exactly when the later saves see
   * through the lost ones, the restore can undo its commit, and the printout can be transferred.
   */
  lemma RetriesRestoreExactly(r: Repo, stamps: seq<nat>, stamp: nat, base: Option<Commit>, clone: Repo)
    requires Good(r) && FreshClone(clone) && stamps != [] && BaseOfSave(Retried(r, stamps), stamp, base)
    ensures var many := RoundTrip(Retried(r, stamps), stamp, base, clone);
            && (many.ok && WorkBack(r, many.repo) <==>
                  Resavable(r) && Restorable(r, clone) && Transferable(Retried(r, stamps), base, clone))
            && (many.ok && Back(r, many.repo) <==>
                  && Resavable(r) && Restorable(r, clone) && Transferable(Retried(r, stamps), base, clone)
                  && BranchReadable(Retried(r, stamps)))
  {
    var q := Retried(r, stamps);
    if Resavable(r) {
      RetriedKeeps(r, stamps);
      RoundTripRestores(q, stamp, base, clone);
    } else if r.head.Some? {
      FirstLoses(r, stamps[0]);
      LostForGood(r, Prepare(r, stamps[0]).repo, stamps[1..]);
      LostIsNotBack(r, q, stamp, base, clone);
    }
  }

  // ---- Whole runs ---------------------------------------------------------------------------

  /** What can happen to a sandbox repository; only `LoseSave` makes commits with the save script's subject. */
  datatype Action =
    | LoseSave(stamp: nat)
    | Edit(work: Tree, ignored: set<string>)
    | Stage(index: Tree)
    | SessionCommit(author: Author, stamp: nat)
    | Move(branch: Option<string>, commit: Commit)
    | Orphan(name: string)
    | StartMerge(other: Commit)
    | StartPick(author: Author)
    | SetIdentity(author: Author)
    | Fetch(origin: Commit, commits: set<Commit>)
    | ChangeRefs(refs: Refs)

  /** Commits arrive whole, other sessions' pushed checkpoints obey the same rule, and HEAD's branch stays at HEAD. */
  ghost predicate Enabled(r: Repo, a: Action)
  {
    match a
    case Move(_, commit) => commit in r.store
    case StartMerge(other) => other in r.store && r.head.Some?
    case Fetch(origin, commits) =>
      && Closed(r.store + commits) && NoStack(commits) && origin in commits
    case ChangeRefs(refs) =>
      && (forall ref | ref in refs && refs[ref].Some? :: refs[ref].value in r.store)
      && BranchAtHead(r.(refs := refs))
    case _ => true
  }

  function Act(r: Repo, a: Action): Repo
  {
    match a
    case LoseSave(stamp) => Prepare(r, stamp).repo
    case Edit(work, ignored) => r.(work := work, ignored := ignored)
    case Stage(index) => r.(index := index)
    case SessionCommit(author, stamp) =>
      var c := Commit((if r.head.Some? then [r.head.value] else []) + r.merging, r.index, author, false, stamp);
      r.(head := Some(c), merging := [], picking := None, store := r.store + {c},
         refs := WithBranch(r.refs, r.branch, c))
    case Move(branch, commit) =>
      r.(branch := branch, head := Some(commit), index := commit.tree, work := commit.tree, merging := [],
         picking := None, refs := WithBranch(r.refs, branch, commit))
    case Orphan(name) => r.(branch := Some(name), head := None, merging := [], picking := None)
    case StartMerge(other) => r.(merging := [other])
    case StartPick(author) => r.(picking := Some(author))
    case SetIdentity(author) => r.(identity := author)
    case Fetch(origin, commits) => r.(store := r.store + commits, refs := r.refs[REMOTE_HEAD := Some(origin)])
    case ChangeRefs(refs) => r.(refs := refs)
  }

  ghost predicate IsRun(r: Repo, actions: seq<Action>)
    decreases |actions|
  {
    actions == [] || (Enabled(r, actions[0]) && IsRun(Act(r, actions[0]), actions[1..]))
  }

  function Run(r: Repo, actions: seq<Action>): Repo
    decreases |actions|
  {
    if actions == [] then r else Run(Act(r, actions[0]), actions[1..])
  }

  lemma RefsDiffer(branch: string)
    ensures "refs/heads/" + branch != REMOTE_HEAD
  {
    assert ("refs/heads/" + branch)[5] == 'h';
    assert REMOTE_HEAD[5] == 'r';
  }

  lemma ActKeepsGood(r: Repo, a: Action)
    requires Good(r) && Enabled(r, a)
    ensures Good(Act(r, a))
  {
    if a.LoseSave? {
      PrepareKeeps(r, a.stamp);
    } else if a.SessionCommit? {
      var c := Act(r, a).head.value;
      forall p | p in c.parents ensures p in r.store {
      }
    } else if a.Fetch? && r.branch.Some? {
      RefsDiffer(r.branch.value);
    }
  }

  lemma {:induction false} RunKeepsGood(r: Repo, actions: seq<Action>)
    requires Good(r) && IsRun(r, actions)
    ensures Good(Run(r, actions))
    decreases |actions|
  {
    if actions != [] {
      ActKeepsGood(r, actions[0]);
      RunKeepsGood(Act(r, actions[0]), actions[1..]);
    }
  }

  /**
   * Over every run of a sandbox (edits, session commits, merges, cherry-picks, configuration, ref
   * changes, fetches and lost saves in any order), no checkpoint commit ever sits on another one,
   * and a save at that point brings the session back exactly when it is restorable, transferable
   * and its branch's name readable.
   */
  lemma EveryRunRoundTrips(start: Repo, actions: seq<Action>, stamp: nat, base: Option<Commit>, clone: Repo)
    requires Good(start) && IsRun(start, actions) && FreshClone(clone) && BaseOfSave(Run(start, actions), stamp, base)
    ensures NoStack(Run(start, actions).store) && NoStack(Prepare(Run(start, actions), stamp).repo.store)
    ensures var r := Run(start, actions);
            && (RoundTrip(r, stamp, base, clone).ok && WorkBack(r, RoundTrip(r, stamp, base, clone).repo)
                <==> Restorable(r, clone) && Transferable(r, base, clone))
            && (RoundTrip(r, stamp, base, clone).ok && Back(r, RoundTrip(r, stamp, base, clone).repo)
                <==> Restorable(r, clone) && Transferable(r, base, clone) && BranchReadable(r))
  {
    RunKeepsGood(start, actions);
    PrepareKeeps(Run(start, actions), stamp);
    RoundTripRestores(Run(start, actions), stamp, base, clone);
  }

  // ---- Stacked saves ------------------------------------------------------------------------

  /** A save puts its commit on another save's exactly when it commits on one it does not recognize. */
  lemma StacksExactly(r: Repo, stamp: nat)
    requires Good(r) && SaveRuns(r)
    ensures var head := Prepare(r, stamp).repo.head.value;
            ((Some(head) != LogicalHead(r) && head.saving && head.parents != [] && head.parents[0].saving)
             <==> (Changed(r) && LogicalHead(r).Some? && LogicalHead(r).value.saving))
  {
    PrepareCommits(r, stamp);
    var head := Prepare(r, stamp).repo.head.value;
    if head.parents != [] {
      ParentDiffers(head);
    }
  }

  /** Every commit with the save script's subject was made under its identity. */
  ghost predicate AllMarked(store: set<Commit>)
  {
    forall c | c in store && c.saving :: c.author == Dsh
  }

  /** Every save of the run commits under the fixed identity, and so did the sessions whose commits it fetches. */
  ghost predicate SignedRun(r: Repo, actions: seq<Action>)
    decreases |actions|
  {
    actions == [] || (
      && (actions[0].LoseSave? && SaveRuns(r) && Changed(r) ==> SaveAuthor(r) == Dsh)
      && (actions[0].Fetch? ==> AllMarked(actions[0].commits))
      && SignedRun(Act(r, actions[0]), actions[1..]))
  }

  lemma SaveMarks(r: Repo, stamp: nat)
    requires Good(r) && AllMarked(r.store) && (SaveRuns(r) && Changed(r) ==> SaveAuthor(r) == Dsh)
    ensures AllMarked(Prepare(r, stamp).repo.store)
  {
    if SaveRuns(r) {
      UndoKeeps(r);
    } else {
      assert Prepare(r, stamp).repo.store == r.store;
    }
  }

  /** Then over the whole run no save's commit ever sits on another save's. */
  lemma {:induction false} SignedRunNeverStacks(r: Repo, actions: seq<Action>)
    requires Good(r) && AllMarked(r.store) && IsRun(r, actions) && SignedRun(r, actions)
    ensures AllMarked(Run(r, actions).store)
    ensures forall c | c in Run(r, actions).store && c.saving && c.parents != [] :: !c.parents[0].saving
    decreases |actions|
  {
    if actions == [] {
      forall c | c in r.store && c.saving && c.parents != [] ensures !c.parents[0].saving {
        assert c.parents[0] in c.parents;
      }
    } else {
      ActKeepsGood(r, actions[0]);
      if actions[0].LoseSave? {
        SaveMarks(r, actions[0].stamp);
      }
      SignedRunNeverStacks(Act(r, actions[0]), actions[1..]);
    }
  }
}

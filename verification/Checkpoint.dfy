/**
 * The save and restore scripts of a checkpoint, line by line, and the round trip through a fresh
 * clone (control-plane/src/sandbox/checkpoint.ts).
 */
module Checkpoint {
  import opened Prelude
  import opened Git

  // ---- The script lines -------------------------------------------------------------------

  /** `is_checkpoint_commit`: HEAD is born and carries the save script's author and subject. */
  predicate IsCheckpointHead(r: Repo)
  {
    r.head.Some? && IsCheckpoint(r.head.value)
  }

  /** A script stops at its first failing line, keeping what the earlier lines did. */
  datatype Outcome = Outcome(repo: Repo, ok: bool)

  /**
   * `git reset -q HEAD~1`: moves HEAD, branch and index to the first parent, ends a merge or a
   * cherry-pick, notes ORIG_HEAD and keeps the work tree. It is refused where a path is called
   * HEAD~1, because git cannot tell it from the revision.
   */
  function ResetToParent(r: Repo): Outcome
  {
    if r.head.None? || r.head.value.parents == [] || OnDisk(r, "HEAD~1") then Outcome(r, false) else
    var parent := r.head.value.parents[0];
    Outcome(r.(head := Some(parent), index := parent.tree, merging := [], picking := None,
               refs := WithBranch(r.refs["ORIG_HEAD" := r.head], r.branch, parent)), true)
  }

  /** `git add --all`. */
  function AddAll(r: Repo): Repo
  {
    r.(index := r.work)
  }

  /** Whom `git commit` makes the author: a cherry-pick in progress keeps the picked commit's, unless a merge is. */
  function CommitAuthor(r: Repo): Author
  {
    if r.merging == [] && r.picking.Some? then r.picking.value else r.identity
  }

  /** Line 80; a merge in progress supplies the further parents. */
  function CommitCheckpoint(r: Repo, stamp: nat): Repo
  {
    var parents := (if r.head.Some? then [r.head.value] else []) + r.merging;
    var c := Commit(parents, r.index, CommitAuthor(r), true, stamp);
    r.(head := Some(c), merging := [], picking := None, store := r.store + {c}, refs := WithBranch(r.refs, r.branch, c))
  }

  /** Line 74: the branch as git prints it, before anything else runs. */
  function BranchName(r: Repo): Option<string>
  {
    if r.branch.Some? then Some(ShortName(r.refs, r.branch.value)) else None
  }

  /** Lines 75-77: a previous save's commit is undone. */
  function Undo(r: Repo): Outcome
  {
    if IsCheckpointHead(r) then ResetToParent(r) else Outcome(r, true)
  }

  /** Lines 75-82: everything up to and including `git rev-parse HEAD`. */
  function Prepare(r: Repo, stamp: nat): Outcome
  {
    var undone := Undo(r);
    if !undone.ok then undone else
    var added := AddAll(undone.repo);
    var committed := if added.index != HeadTree(added) then CommitCheckpoint(added, stamp) else added;
    Outcome(committed, committed.head.Some?)
  }

  /** What the save prints. No bundle bytes means the remote already has the commit. */
  datatype Saved = Saved(branch: Option<string>, commit: Commit, bundle: Option<Bundle>)

  /**
   * Lines 85-89. git refuses to write an empty bundle, and takes no revision HEAD where a path is
   * called so; either fails the script.
   */
  function Print(r: Repo, name: Option<string>, base: Option<Commit>): Option<Saved>
    requires r.head.Some?
  {
    var head := r.head.value;
    if base.None? then
      if OnDisk(r, "HEAD") then None else Some(Saved(name, head, Some(Bundle(Ancestors(head), {}))))
    else if base.value == head then
      Some(Saved(name, head, None))
    else if RangeBundle(base.value, head).commits == {} then
      None
    else
      Some(Saved(name, head, Some(RangeBundle(base.value, head))))
  }

  /** The save's printout, for the merge base git picked. */
  function Save(r: Repo, stamp: nat, base: Option<Commit>): Option<Saved>
  {
    var p := Prepare(r, stamp);
    if p.ok then Print(p.repo, BranchName(r), base) else None
  }

  /** `base` is one of the merge bases line 83 may pick in this save. */
  ghost predicate BaseOfSave(r: Repo, stamp: nat, base: Option<Commit>)
  {
    var p := Prepare(r, stamp);
    p.ok ==> IsMergeBase(base, p.repo.head.value, Origin(p.repo))
  }

  /** Line 127: refused unless the receiver has the whole boundary. */
  function Unbundle(c: Repo, bundle: Option<Bundle>): Outcome
  {
    match bundle
    case None => Outcome(c, true)
    case Some(b) =>
      if b.prerequisites <= c.store then Outcome(c.(store := c.store + b.commits), true)
      else Outcome(c, false)
  }

  /**
   * Lines 130-135: `checkout -B branch commit` or `checkout --detach commit`, refused over local
   * changes and for a branch git cannot create here.
   */
  function Checkout(c: Repo, branch: Option<string>, commit: Commit): Outcome
  {
    if Clean(c) && (branch.Some? ==> Creatable(c.refs, branch.value)) then
      Outcome(c.(branch := branch, head := Some(commit), index := commit.tree, work := commit.tree,
                 picking := None, refs := WithBranch(c.refs, branch, commit)), true)
    else
      Outcome(c, false)
  }

  /** RESTORE_SCRIPT in a clone. */
  function Restore(c: Repo, saved: Saved): Outcome
  {
    var unbundled := Unbundle(c, saved.bundle);
    if !unbundled.ok || saved.commit !in unbundled.repo.store then Outcome(unbundled.repo, false) else
    var moved := Checkout(unbundled.repo, saved.branch, saved.commit);
    if moved.ok then Undo(moved.repo) else moved
  }

  /** Save, then restore in a clone. */
  function RoundTrip(r: Repo, stamp: nat, base: Option<Commit>, clone: Repo): Outcome
  {
    match Save(r, stamp, base)
    case None => Outcome(clone, false)
    case Some(saved) => Restore(clone, saved)
  }

  // ---- Hypotheses -------------------------------------------------------------------------

  /** No checkpoint commit sits directly on another. */
  ghost predicate NoStack(store: set<Commit>)
  {
    forall c | c in store && IsCheckpoint(c) && c.parents != [] :: !IsCheckpoint(c.parents[0])
  }

  ghost predicate Good(r: Repo)
  {
    WellFormed(r) && NoStack(r.store)
  }

  ghost predicate FreshClone(clone: Repo)
  {
    WellFormed(clone) && Clean(clone)
  }

  // ---- What a caller can check before the save ----------------------------------------------

  /** The commit the session itself is on: a checkpoint commit stands for uncommitted changes. */
  function LogicalHead(r: Repo): Option<Commit>
  {
    if IsCheckpointHead(r) && r.head.value.parents != [] then Some(r.head.value.parents[0]) else r.head
  }

  /** HEAD is born, and a checkpoint HEAD has a parent. */
  predicate Recoverable(r: Repo)
  {
    r.head.Some? && (IsCheckpoint(r.head.value) ==> r.head.value.parents != [])
  }

  /** A checkpoint HEAD can be undone: no path is called HEAD~1. */
  predicate Undoable(r: Repo)
  {
    IsCheckpointHead(r) ==> !OnDisk(r, "HEAD~1")
  }

  /** There is something to save: the work tree differs from the session's own commit, or from nothing. */
  predicate Changed(r: Repo)
  {
    r.work != if LogicalHead(r).Some? then LogicalHead(r).value.tree else map[]
  }

  /** Whose commit this save would make: undoing a checkpoint HEAD first ends a merge or a pick. */
  function SaveAuthor(r: Repo): Author
  {
    if IsCheckpointHead(r) then r.identity else CommitAuthor(r)
  }

  /** The restore can undo this save's commit in the clone: no path there will be called HEAD~1. */
  predicate UndoableThere(r: Repo, clone: Repo)
  {
    !Among(r.work.Keys + clone.ignored, "HEAD~1")
  }

  /** The clone has the merge base; without one the bundle is complete, if no path is called HEAD. */
  predicate BaseArrives(r: Repo, base: Option<Commit>, clone: Repo)
  {
    match base
    case None => !OnDisk(r, "HEAD")
    case Some(b) => b in clone.store
  }

  /** HEAD is detached, or the clone can create a branch of the printed name. */
  predicate BranchFits(r: Repo, clone: Repo)
  {
    r.branch.Some? ==> Creatable(clone.refs, ShortName(r.refs, r.branch.value))
  }

  /** HEAD is detached, or no tag or other ref hides its branch's name. */
  predicate BranchReadable(r: Repo)
  {
    r.branch.Some? ==> Plain(r.refs, r.branch.value)
  }

  /** What was saved can reach the clone and be checked out there. */
  predicate Transferable(r: Repo, base: Option<Commit>, clone: Repo)
  {
    BaseArrives(r, base, clone) && BranchFits(r, clone)
  }

  /** The save runs to its printout, but for the bundle. */
  predicate SaveRuns(r: Repo)
  {
    && (IsCheckpointHead(r) ==> r.head.value.parents != [] && Undoable(r))
    && (r.head.Some? || Changed(r))
  }

  /** The session is on a commit, and what is uncommitted comes back as such. */
  predicate Restorable(r: Repo, clone: Repo)
  {
    && Recoverable(r) && Undoable(r)
    && (Changed(r) ==> SaveAuthor(r) == Dsh && UndoableThere(r, clone))
  }

  // ---- What the save does -----------------------------------------------------------------

  lemma UndoKeeps(r: Repo)
    requires Good(r) && SaveRuns(r)
    ensures var undone := Undo(r);
            && undone.ok && Good(undone.repo) && undone.repo.head == LogicalHead(r) && !IsCheckpointHead(undone.repo)
            && undone.repo.store == r.store && CommitAuthor(undone.repo) == SaveAuthor(r)
  {
    if IsCheckpointHead(r) {
      assert r.head.value.parents[0] in r.head.value.parents;
    }
  }

  lemma CommitKeeps(r: Repo, stamp: nat)
    requires Good(r) && !IsCheckpointHead(r)
    ensures Good(CommitCheckpoint(r, stamp))
  {
    var c := CommitCheckpoint(r, stamp).head.value;
    forall p | p in c.parents ensures p in r.store {
    }
    assert Closed(r.store + {c});
  }

  /** Where the save gets to its printout. */
  lemma PrepareRunsExactly(r: Repo, stamp: nat)
    requires Good(r)
    ensures Prepare(r, stamp).ok <==> SaveRuns(r)
  {
    if SaveRuns(r) {
      UndoKeeps(r);
    }
  }

  /** The refs a save may write: its branch's, and the ORIG_HEAD of a reset. */
  function OwnRefs(r: Repo): set<string>
  {
    {"ORIG_HEAD"} + if r.branch.Some? then {"refs/heads/" + r.branch.value} else {}
  }

  /** Whatever happens, the save keeps branch, work tree, remote and every object, and never stacks checkpoints. */
  lemma PrepareKeeps(r: Repo, stamp: nat)
    requires Good(r)
    ensures var r' := Prepare(r, stamp).repo;
            && Good(r')
            && r'.branch == r.branch && r'.work == r.work && r'.ignored == r.ignored && r'.identity == r.identity
            && r.store <= r'.store
            && r.refs.Keys <= r'.refs.Keys
            && r'.refs.Keys <= r.refs.Keys + OwnRefs(r)
            && (forall ref | ref in r.refs && ref !in OwnRefs(r) :: r'.refs[ref] == r.refs[ref])
  {
    if SaveRuns(r) {
      UndoKeeps(r);
      CommitKeeps(AddAll(Undo(r).repo), stamp);
    } else {
      UndoWellFormed(r);
    }
  }

  lemma UndoWellFormed(r: Repo)
    requires Good(r)
    ensures Good(Undo(r).repo)
  {
    if IsCheckpointHead(r) && r.head.value.parents != [] {
      assert r.head.value.parents[0] in r.head.value.parents;
    }
  }

  /**
   * The printed commit has the work tree; it is the save's own exactly when that changed. Then it sits
   * on the session's commit and the heads of a merge in progress, and its author is the configuration's,
   * but for a cherry-pick in progress without a merge; undoing a checkpoint first ends both.
   */
  lemma PrepareCommits(r: Repo, stamp: nat)
    requires Good(r) && SaveRuns(r)
    ensures var r' := Prepare(r, stamp).repo;
            && r'.head.Some? && r'.head.value.tree == r.work
            && (!Changed(r) ==> r'.head == LogicalHead(r) && !IsCheckpointHead(r'))
            && (Changed(r) ==>
                  && r'.head.value.saving && r'.head.value.author == SaveAuthor(r)
                  && r'.merging == [] && r'.picking.None?
                  && (r.head.None? ==> r'.head.value.parents == [])
                  && (r.head.Some? ==> r'.head.value.parents != [] && Some(r'.head.value.parents[0]) == LogicalHead(r))
                  && r'.head.value.parents == (if LogicalHead(r).Some? then [LogicalHead(r).value] else [])
                                            + (if IsCheckpointHead(r) then [] else r.merging))
    ensures SaveAuthor(r) == if !IsCheckpointHead(r) && r.merging == [] && r.picking.Some? then r.picking.value
                             else r.identity
  {
    UndoKeeps(r);
  }

  // ---- The bundle -------------------------------------------------------------------------

  /** A range over an ancestor arrives exactly where that ancestor is, and then with all of HEAD's history. */
  lemma RangeArrives(base: Commit, head: Commit, clone: Repo)
    requires WellFormed(clone) && base in Ancestors(head) && base != head
    ensures RangeBundle(base, head).commits != {}
    ensures var u := Unbundle(clone, Some(RangeBundle(base, head)));
            && (u.ok <==> base in clone.store)
            && (u.ok ==> Closed(u.repo.store) && Ancestors(head) <= u.repo.store)
  {
    RangeExpectsBase(base, head);
    if base in clone.store {
      UnbundleRange(base, head, clone.store);
      RangePrerequisites(base, head);
      ClosedHoldsAncestors(clone.store, base);
    }
  }

  /** A bundle of the whole history arrives anywhere. */
  lemma WholeArrives(head: Commit, clone: Repo)
    requires WellFormed(clone)
    ensures var u := Unbundle(clone, Some(Bundle(Ancestors(head), {})));
            u.ok && Closed(u.repo.store) && Ancestors(head) <= u.repo.store
  {
    AncestorsClosed(head);
  }

  /** What the printed commit needs of a store that received it. */
  ghost predicate Arrived(clone: Repo, saved: Saved)
  {
    var u := Unbundle(clone, saved.bundle);
    && u.ok && u.repo == clone.(store := u.repo.store) && clone.store <= u.repo.store
    && Closed(u.repo.store) && Ancestors(saved.commit) <= u.repo.store && saved.commit in u.repo.store
  }

  /** The printed commit reaches the clone exactly when the merge base is there, and then with all its history. */
  lemma BundleCompletes(r: Repo, name: Option<string>, base: Option<Commit>, clone: Repo)
    requires r.head.Some? && WellFormed(clone) && IsMergeBase(base, r.head.value, Origin(r))
    ensures BaseArrives(r, base, clone) <==>
              Print(r, name, base).Some? && Arrived(clone, Print(r, name, base).value)
    ensures Print(r, name, base).Some? ==>
              var saved := Print(r, name, base).value;
              && saved.branch == name && saved.commit == r.head.value
              && (!BaseArrives(r, base, clone) ==>
                    var u := Unbundle(clone, saved.bundle); !u.ok || saved.commit !in u.repo.store)
  {
    var head := r.head.value;
    assert head in Ancestors(head);
    if base.None? {
      WholeArrives(head, clone);
    } else if base.value == head {
      if head in clone.store {
        ClosedHoldsAncestors(clone.store, head);
      }
    } else {
      RangeArrives(base.value, head, clone);
    }
  }

  /** The remote default branch only moved forward, and nothing here hides what `origin/HEAD` means. */
  ghost predicate Follows(r: Repo, clone: Repo)
  {
    && Origin(r) == RemoteHead(r)
    && (RemoteHead(r).Some? ==> RemoteHead(clone).Some? && RemoteHead(r).value in Ancestors(RemoteHead(clone).value))
  }

  /** Then whatever merge base git picks is in a later clone. */
  lemma FollowedBaseIsThere(r: Repo, head: Commit, base: Option<Commit>, clone: Repo)
    requires WellFormed(clone) && Follows(r, clone) && IsMergeBase(base, head, Origin(r))
    ensures base.Some? ==> base.value in clone.store
  {
    if base.Some? {
      ClosedHoldsAncestors(clone.store, RemoteHead(clone).value);
      AncestorsTransitive(base.value, RemoteHead(r).value, RemoteHead(clone).value);
    }
  }

  /** Only a branch itself called origin/HEAD can change what a save takes for the remote's. */
  lemma OwnRefsAreNotOrigin(r: Repo, refs': Refs)
    requires r.branch != Some("origin/HEAD")
    requires r.refs.Keys <= refs'.Keys <= r.refs.Keys + OwnRefs(r)
    requires forall ref | ref in r.refs && ref !in OwnRefs(r) :: refs'[ref] == r.refs[ref]
    ensures Lookup(refs', "origin/HEAD") == Lookup(r.refs, "origin/HEAD")
    ensures REMOTE_HEAD in refs' <==> REMOTE_HEAD in r.refs
    ensures REMOTE_HEAD in refs' ==> refs'[REMOTE_HEAD] == r.refs[REMOTE_HEAD]
  {
    var origin := "origin/HEAD";
    assert origin[0] == 'o' && ("refs/" + origin)[5] == 'o' && ("refs/tags/" + origin)[5] == 't';
    assert ("refs/remotes/" + origin)[5] == 'r' && ("refs/remotes/" + origin + "/HEAD")[5] == 'r'
        && REMOTE_HEAD[5] == 'r';
    assert ("refs/heads/" + origin)[11..] == origin;
    if r.branch.Some? {
      var own := "refs/heads/" + r.branch.value;
      assert own[5] == 'h' && own[11..] == r.branch.value;
    }
  }

  /** The save's merge base is in every later clone of a remote that only moved forward. */
  lemma FollowedBaseArrives(r: Repo, stamp: nat, base: Option<Commit>, clone: Repo)
    requires Good(r) && SaveRuns(r) && FreshClone(clone) && Follows(r, clone) && BaseOfSave(r, stamp, base)
    requires r.branch != Some("origin/HEAD")
    ensures BaseArrives(r, base, clone) <==> base.Some? || !OnDisk(r, "HEAD")
  {
    var r' := Prepare(r, stamp).repo;
    PrepareRunsExactly(r, stamp);
    PrepareKeeps(r, stamp);
    OwnRefsAreNotOrigin(r, r'.refs);
    FollowedBaseIsThere(r', r'.head.value, base, clone);
  }

  // ---- The round trip ---------------------------------------------------------------------

  /** The session is back: same branch or detachment, same logical HEAD, same work tree, nothing staged. */
  ghost predicate Back(r: Repo, restored: Repo)
  {
    restored.branch == r.branch && WorkBack(r, restored)
  }

  /** The same but for the branch's name. */
  ghost predicate WorkBack(r: Repo, restored: Repo)
  {
    && (restored.branch.Some? <==> r.branch.Some?)
    && restored.head == LogicalHead(r)
    && restored.work == r.work
    && restored.index == HeadTree(restored)
    && restored.merging == []
    && WellFormed(restored)
    && restored.head.Some?
    && Ancestors(restored.head.value) <= restored.store
  }

  /** The state a restore ends in, once the commit is there. */
  function Restored(clone: Repo, store: set<Commit>, saved: Saved): Repo
    requires IsCheckpoint(saved.commit) ==> saved.commit.parents != []
  {
    var checkpoint := IsCheckpoint(saved.commit);
    var head := if checkpoint then saved.commit.parents[0] else saved.commit;
    var refs := if checkpoint then clone.refs["ORIG_HEAD" := Some(saved.commit)] else clone.refs;
    clone.(branch := saved.branch, head := Some(head), index := head.tree, work := saved.commit.tree,
           picking := None, store := store, refs := WithBranch(refs, saved.branch, head))
  }

  /** The restore, step by step, in a clean clone that has the commit. */
  lemma RestoreEndsIn(clone: Repo, saved: Saved)
    requires Clean(clone)
    requires var u := Unbundle(clone, saved.bundle); u.ok && saved.commit in u.repo.store
    ensures Restore(clone, saved).ok <==>
              && (saved.branch.Some? ==> Creatable(clone.refs, saved.branch.value))
              && (IsCheckpoint(saved.commit) ==>
                    saved.commit.parents != [] && !Among(saved.commit.tree.Keys + clone.ignored, "HEAD~1"))
    ensures Restore(clone, saved).ok ==>
              Restore(clone, saved).repo == Restored(clone, Unbundle(clone, saved.bundle).repo.store, saved)
  {
    var unbundled := Unbundle(clone, saved.bundle).repo;
    var moved := Checkout(unbundled, saved.branch, saved.commit);
    if moved.ok {
      assert moved.repo.work.Keys + moved.repo.ignored == saved.commit.tree.Keys + clone.ignored;
      if IsCheckpoint(saved.commit) && saved.commit.parents != [] {
        var head := saved.commit.parents[0];
        var once := WithBranch(clone.refs, saved.branch, saved.commit)["ORIG_HEAD" := Some(saved.commit)];
        if saved.branch.Some? {
          assert ("refs/heads/" + saved.branch.value)[0] == 'r';
        }
        assert WithBranch(once, saved.branch, head)
            == WithBranch(clone.refs["ORIG_HEAD" := Some(saved.commit)], saved.branch, head);
      }
    }
  }

  /** The printout and its way into the clone. */
  lemma SavedArrives(r: Repo, stamp: nat, base: Option<Commit>, clone: Repo)
    requires Good(r) && SaveRuns(r) && FreshClone(clone) && BaseOfSave(r, stamp, base)
    ensures BaseArrives(r, base, clone) <==>
              Save(r, stamp, base).Some? && Arrived(clone, Save(r, stamp, base).value)
    ensures Save(r, stamp, base).Some? ==>
              var saved := Save(r, stamp, base).value;
              && saved.commit == Prepare(r, stamp).repo.head.value && saved.branch == BranchName(r)
              && (!BaseArrives(r, base, clone) ==>
                    var u := Unbundle(clone, saved.bundle); !u.ok || saved.commit !in u.repo.store)
  {
    PrepareRunsExactly(r, stamp);
    PrepareKeeps(r, stamp);
    BundleCompletes(Prepare(r, stamp).repo, BranchName(r), base, clone);
  }

  /**
   * For every repository, merge base and clean clone, the two scripts run to the end exactly when
   * the save gets to its printout, the commit reaches the clone, its branch can be made there, and
   * a commit the restore recognizes as its own has a parent to go back to.
   */
  lemma RoundTripSucceeds(r: Repo, stamp: nat, base: Option<Commit>, clone: Repo)
    requires Good(r) && FreshClone(clone) && BaseOfSave(r, stamp, base)
    ensures RoundTrip(r, stamp, base, clone).ok <==>
              && SaveRuns(r) && Transferable(r, base, clone)
              && (Changed(r) && SaveAuthor(r) == Dsh ==> r.head.Some? && UndoableThere(r, clone))
    ensures RoundTrip(r, stamp, base, clone).ok ==>
              var saved := Save(r, stamp, base).value;
              && saved.branch == BranchName(r) && saved.commit == Prepare(r, stamp).repo.head.value
              && (IsCheckpoint(saved.commit) ==> saved.commit.parents != [])
              && RoundTrip(r, stamp, base, clone).repo
                   == Restored(clone, Unbundle(clone, saved.bundle).repo.store, saved)
  {
    PrepareRunsExactly(r, stamp);
    if SaveRuns(r) {
      SavedArrives(r, stamp, base, clone);
      PrepareCommits(r, stamp);
      if Save(r, stamp, base).Some? && BaseArrives(r, base, clone) {
        RestoreEndsIn(clone, Save(r, stamp, base).value);
      }
    }
  }

  /** A commit is never its own parent, so a restore that steps back ends elsewhere. */
  lemma ParentDiffers(c: Commit)
    requires c.parents != []
    ensures c.parents[0] != c
  {
    assert c.parents[0] in c.parents && c.parents[0] < c;
  }

  /**
   * For every repository, merge base and clean clone: the session comes back, but perhaps for its
   * branch's name, exactly when it is restorable and transferable; with the name exactly when git
   * could also print it in short.
   */
  lemma RoundTripRestores(r: Repo, stamp: nat, base: Option<Commit>, clone: Repo)
    requires Good(r) && FreshClone(clone) && BaseOfSave(r, stamp, base)
    ensures RoundTrip(r, stamp, base, clone).ok && WorkBack(r, RoundTrip(r, stamp, base, clone).repo)
       <==> Restorable(r, clone) && Transferable(r, base, clone)
    ensures RoundTrip(r, stamp, base, clone).ok && Back(r, RoundTrip(r, stamp, base, clone).repo)
       <==> Restorable(r, clone) && Transferable(r, base, clone) && BranchReadable(r)
  {
    RoundTripSucceeds(r, stamp, base, clone);
    if RoundTrip(r, stamp, base, clone).ok {
      PrepareCommits(r, stamp);
      SavedArrives(r, stamp, base, clone);
      RestoredIsBackExactly(r, stamp, base, clone);
      if r.branch.Some? {
        ShortNameIsPlain(r.refs, r.branch.value);
      }
    }
  }

  /** git can make the branch in the clone: the name is no option or HEAD, and no ref's path is above or below it. */
  predicate PathIsFree(refs: Refs, branch: string)
  {
    && branch != "HEAD" && (branch == "" || branch[0] != '-')
    && forall ref | ref in refs :: !("refs/heads/" + branch + "/" <= ref) && !(ref + "/" <= "refs/heads/" + branch)
  }

  lemma PathDecides(refs: Refs, branch: string)
    ensures Creatable(refs, branch) <==> PathIsFree(refs, branch)
  {
    assert "-" <= branch <==> branch != "" && branch[0] == '-';
  }

  /**
   * The same for the session's own branch, by its path in the clone alone: whether or not the clone has
   * that branch, and wherever it is there, the session comes back on it.
   */
  lemma RestoresByPath(r: Repo, stamp: nat, base: Option<Commit>, clone: Repo)
    requires Good(r) && FreshClone(clone) && BaseOfSave(r, stamp, base)
    requires r.branch.Some? && Plain(r.refs, r.branch.value)
    ensures RoundTrip(r, stamp, base, clone).ok && Back(r, RoundTrip(r, stamp, base, clone).repo)
       <==> Restorable(r, clone) && BaseArrives(r, base, clone) && PathIsFree(clone.refs, r.branch.value)
    ensures RoundTrip(r, stamp, base, clone).ok && Back(r, RoundTrip(r, stamp, base, clone).repo) ==>
              var refs := RoundTrip(r, stamp, base, clone).repo.refs;
              "refs/heads/" + r.branch.value in refs && refs["refs/heads/" + r.branch.value] == LogicalHead(r)
  {
    RoundTripRestores(r, stamp, base, clone);
    PathDecides(clone.refs, r.branch.value);
  }

  /** Where the scripts run to the end, what comes back is the session exactly when it was restorable. */
  lemma RestoredIsBackExactly(r: Repo, stamp: nat, base: Option<Commit>, clone: Repo)
    requires Good(r) && FreshClone(clone) && BaseOfSave(r, stamp, base)
    requires RoundTrip(r, stamp, base, clone).ok
    ensures WorkBack(r, RoundTrip(r, stamp, base, clone).repo) <==> Restorable(r, clone)
  {
    RoundTripSucceeds(r, stamp, base, clone);
    PrepareCommits(r, stamp);
    SavedArrives(r, stamp, base, clone);
    var saved := Save(r, stamp, base).value;
    var store := Unbundle(clone, saved.bundle).repo.store;
    assert saved.commit in Ancestors(saved.commit);
    if r.head.Some? && Changed(r) {
      ParentDiffers(saved.commit);
    }
    if Restorable(r, clone) {
      var head := LogicalHead(r).value;
      if Changed(r) {
        assert head in saved.commit.parents;
      }
      ClosedHoldsAncestors(store, head);
      RestoredIsWellFormed(clone, store, saved);
    }
  }

  lemma RestoredIsWellFormed(clone: Repo, store: set<Commit>, saved: Saved)
    requires FreshClone(clone) && Closed(store) && clone.store <= store && saved.commit in store
    requires IsCheckpoint(saved.commit) ==> saved.commit.parents != [] && saved.commit.parents[0] in store
    ensures WellFormed(Restored(clone, store, saved))
  {
  }

  /**
   * The restore steps back over the printed commit exactly when this save made it under the fixed
   * identity, and never over one of the session's own.
   */
  lemma RestoreUndoesOnlyItsOwn(r: Repo, stamp: nat, base: Option<Commit>, clone: Repo)
    requires Good(r) && FreshClone(clone) && BaseOfSave(r, stamp, base)
    requires RoundTrip(r, stamp, base, clone).ok
    ensures var printed := Save(r, stamp, base).value.commit;
            && (RoundTrip(r, stamp, base, clone).repo.head != Some(printed) <==> Changed(r) && SaveAuthor(r) == Dsh)
            && (!Changed(r) ==> Some(printed) == LogicalHead(r))
  {
    RoundTripSucceeds(r, stamp, base, clone);
    PrepareCommits(r, stamp);
    var printed := Save(r, stamp, base).value.commit;
    if printed.parents != [] {
      ParentDiffers(printed);
    }
  }

  /** A clone with local changes, staged or not, or amid a merge, is left as it is but for the unpacked commits. */
  lemma DirtyCloneIsLeftAlone(clone: Repo, saved: Saved)
    requires clone.index != HeadTree(clone) || clone.work != HeadTree(clone) || clone.merging != []
    ensures var o := Restore(clone, saved);
            !o.ok && o.repo == clone.(store := o.repo.store) && clone.store <= o.repo.store
  {
  }

  /** A restore whose commit neither bundle nor clone holds stops before it moves anything. */
  lemma MissingCommitMovesNothing(clone: Repo, saved: Saved)
    requires saved.commit !in Unbundle(clone, saved.bundle).repo.store
    ensures var o := Restore(clone, saved);
            !o.ok && o.repo == clone.(store := o.repo.store) && clone.store <= o.repo.store
  {
  }
}

/**
 * Repositories on which the two scripts do not do what they promise, one for each condition of the
 * round trip (control-plane/src/sandbox/checkpoint.ts:54-139).
 */
module CheckpointWitnesses {
  import opened Prelude
  import opened Git
  import opened Checkpoint
  import opened CheckpointRuns

  const START := Commit([], map["file" := "old"], Someone, false, 0)

  /** A detached session on one commit, without remote. */
  function Session(work: Tree): Repo
  {
    Repo(None, Some(START), START.tree, work, {}, [], None, Dsh, {START}, map[])
  }

  function OnBranch(work: Tree, name: string): Repo
  {
    Session(work).(branch := Some(name), refs := map["refs/heads/" + name := Some(START)])
  }

  /** The session is sound, and without remote it has no merge base. */
  lemma SessionIsGood(r: Repo, stamp: nat)
    requires r == Session(r.work).(picking := r.picking, identity := r.identity)
    ensures Good(r) && BaseOfSave(r, stamp, None)
  {
    PrepareKeeps(r, stamp);
  }

  lemma StartIsIn(c: Commit)
    requires c == START || (c.parents != [] && c.parents[0] == START)
    ensures START in Ancestors(c)
  {
    assert START in Ancestors(START);
    assert c != START ==> c.parents[0] in c.parents;
  }

  lemma SaveIsOverStart(r: Repo, stamp: nat)
    requires Good(r) && r.head == Some(START)
    ensures Prepare(r, stamp).repo.head.Some? && START in Ancestors(Prepare(r, stamp).repo.head.value)
  {
    PrepareCommits(r, stamp);
    StartIsIn(Prepare(r, stamp).repo.head.value);
  }

  /** A branch, or a tag, of another name is not the remote's. */
  lemma NoOrigin(refs: Refs, name: string)
    requires name != "origin/HEAD" && refs.Keys <= {"ORIG_HEAD", "refs/heads/" + name, "refs/tags/" + name}
    ensures Lookup(refs, "origin/HEAD").None?
  {
    var origin, own, tag := "origin/HEAD", "refs/heads/" + name, "refs/tags/" + name;
    assert own[0] == 'r' && own[5] == 'h' && own[11..] == name && tag[0] == 'r' && tag[5] == 't' && tag[10..] == name;
    assert origin[0] == 'o' && "ORIG_HEAD"[0] == 'O';
    assert ("refs/" + origin)[0] == 'r' && ("refs/" + origin)[5] == 'o';
    assert ("refs/tags/" + origin)[5] == 't' && ("refs/tags/" + origin)[10..] == origin;
    assert ("refs/heads/" + origin)[5] == 'h' && ("refs/heads/" + origin)[11..] == origin;
    assert ("refs/remotes/" + origin)[5] == 'r' && ("refs/remotes/" + origin + "/HEAD")[5] == 'r';
  }

  /** A session on a branch that is at the commit has no merge base either. */
  lemma BranchSessionIsGood(r: Repo, name: string, stamp: nat)
    requires name != "origin/HEAD" && r == Session(r.work).(branch := Some(name), refs := r.refs)
    requires {"refs/heads/" + name} <= r.refs.Keys <= {"refs/heads/" + name, "refs/tags/" + name}
    requires forall ref | ref in r.refs :: r.refs[ref] == Some(START)
    ensures Good(r) && BaseOfSave(r, stamp, None)
  {
    PrepareKeeps(r, stamp);
    NoOrigin(Prepare(r, stamp).repo.refs, name);
  }

  /** A save before the first commit prints a checkpoint no clone can restore, and cannot be repeated. */
  lemma UnbornHeadIsLost(work: Tree, stamp: nat, again: nat, clone: Repo)
    requires work != map[] && !Among(work.Keys, "HEAD") && FreshClone(clone)
    ensures var r := Repo(Some("main"), None, map[], work, {}, [], None, Dsh, {}, map[]);
            && Good(r) && BaseOfSave(r, stamp, None) && Save(r, stamp, None).Some?
            && !RoundTrip(r, stamp, None, clone).ok
            && !Prepare(Prepare(r, stamp).repo, again).ok
  {
    var r := Repo(Some("main"), None, map[], work, {}, [], None, Dsh, {}, map[]);
    PrepareKeeps(r, stamp);
    PrepareCommits(r, stamp);
    NoOrigin(Prepare(r, stamp).repo.refs, "main");
    SavedArrives(r, stamp, None, clone);
    RoundTripSucceeds(r, stamp, None, clone);
  }

  /** A session on wip beside a tag of the name. */
  function Tagged(work: Tree): Repo
  {
    OnBranch(work, "wip").(refs := OnBranch(work, "wip").refs["refs/tags/" + "wip" := Some(START)])
  }

  lemma TaggedPrints(work: Tree)
    ensures BranchName(Tagged(work)) == Some("heads/wip")
  {
    assert "refs/tags/" + "wip" in Tagged(work).refs && "heads/" + "wip" !in Tagged(work).refs;
    assert "heads/" + "wip" == "heads/wip";
  }

  /** A tag of the branch's name: the session comes back on another branch. */
  lemma TagHidesTheBranch(work: Tree, stamp: nat, clone: Repo)
    requires FreshClone(clone) && !Among(work.Keys + clone.ignored, "HEAD~1") && !Among(work.Keys, "HEAD")
    requires PathIsFree(clone.refs, "heads/wip")
    ensures var r := Tagged(work);
            var trip := RoundTrip(r, stamp, None, clone);
            && Good(r) && BaseOfSave(r, stamp, None)
            && trip.ok && WorkBack(r, trip.repo) && trip.repo.branch == Some("heads/wip")
  {
    var r := Tagged(work);
    BranchSessionIsGood(r, "wip", stamp);
    TaggedPrints(work);
    PathDecides(clone.refs, "heads/wip");
    RoundTripRestores(r, stamp, None, clone);
    RoundTripSucceeds(r, stamp, None, clone);
  }

  /**
   * A commit by anyone else, because a cherry-pick of theirs is in progress or the configuration
   * names another author: the restore leaves it, with everything committed.
   */
  lemma ForeignAuthorStaysCommitted(r: Repo, stamp: nat, clone: Repo)
    requires r == Session(r.work).(picking := Some(Someone)) || r == Session(r.work).(identity := Someone)
    requires FreshClone(clone) && r.work != START.tree && !Among(r.work.Keys, "HEAD")
    ensures Good(r) && BaseOfSave(r, stamp, None)
    ensures var trip := RoundTrip(r, stamp, None, clone);
            && trip.ok && !WorkBack(r, trip.repo)
            && trip.repo.head == Prepare(r, stamp).repo.head && trip.repo.head != r.head
            && trip.repo.index == r.work
  {
    SessionIsGood(r, stamp);
    PrepareCommits(r, stamp);
    RoundTripRestores(r, stamp, None, clone);
    RoundTripSucceeds(r, stamp, None, clone);
  }

  /** A save retried during that cherry-pick, after an edit, puts its commit on the first one's. */
  lemma PickStacksSaves(work: Tree, edited: Tree, stamp: nat, again: nat)
    requires work != START.tree && edited != work
    ensures var r := Session(work).(picking := Some(Someone));
            var head := Prepare(Prepare(r, stamp).repo.(work := edited), again).repo.head;
            head.Some? && head.value.saving && head.value.parents != [] && head.value.parents[0].saving
  {
    var r := Session(work).(picking := Some(Someone));
    PrepareKeeps(r, stamp);
    PrepareCommits(r, stamp);
    var next := Prepare(r, stamp).repo.(work := edited);
    PrepareCommits(next, again);
  }

  lemma PathIsTaken(refs: Refs)
    requires "refs/heads/main" in refs
    ensures !Creatable(refs, "main/wip")
  {
    assert Under("refs/heads/" + "main/wip", "refs/heads/main");
  }

  lemma BranchPrintsPlain(work: Tree, name: string)
    requires name != "HEAD"
    ensures Plain(OnBranch(work, name).refs, name) && BranchName(OnBranch(work, name)) == Some(name)
  {
    assert ("refs/heads/" + name)[5] == 'h' && ("refs/tags/" + name)[5] == 't';
    assert |"refs/heads/" + name| == 11 + |name| && |"refs/" + name| == 5 + |name|;
  }

  /** The clone has a branch whose path lies above the session's: the branch cannot be made there. */
  lemma BranchPathCollides(work: Tree, stamp: nat, clone: Repo)
    requires FreshClone(clone) && !Among(work.Keys + clone.ignored, "HEAD~1") && !Among(work.Keys, "HEAD")
    requires "refs/heads/main" in clone.refs
    ensures var r := OnBranch(work, "main/wip");
            && Good(r) && BaseOfSave(r, stamp, None) && Restorable(r, clone) && BaseArrives(r, None, clone)
            && BranchReadable(r) && !RoundTrip(r, stamp, None, clone).ok
  {
    var r := OnBranch(work, "main/wip");
    BranchSessionIsGood(r, "main/wip", stamp);
    BranchPrintsPlain(work, "main/wip");
    PathIsTaken(clone.refs);
    RoundTripSucceeds(r, stamp, None, clone);
  }

  /** What git reads as origin/HEAD then. */
  lemma LookalikeIsFound(refs: Refs)
    requires {"refs/heads/" + "origin/HEAD"} <= refs.Keys <= {"ORIG_HEAD", "refs/heads/" + "origin/HEAD"}
    ensures Lookup(refs, "origin/HEAD") == refs["refs/heads/" + "origin/HEAD"] && REMOTE_HEAD !in refs
  {
    var name := "origin/HEAD";
    assert name[0] == 'o' && ("refs/" + name)[5] == 'o' && ("refs/tags/" + name)[5] == 't';
    assert ("refs/heads/" + name)[5] == 'h' && REMOTE_HEAD[5] == 'r';
  }

  /** A session on the commit has it as its merge base. */
  lemma HiddenBase(work: Tree, stamp: nat)
    ensures var r := OnRemoteLookalike(work);
            Good(r) && RemoteHead(r).None? && BaseOfSave(r, stamp, Some(START))
  {
    var r := OnRemoteLookalike(work);
    PrepareKeeps(r, stamp);
    LookalikeIsFound(r.refs);
    LookalikeIsFound(Prepare(r, stamp).repo.refs);
    SaveIsOverStart(r, stamp);
    assert Ancestors(START) == {START};
  }

  /** A detached session beside a local branch called origin/HEAD. */
  function OnRemoteLookalike(work: Tree): Repo
  {
    Session(work).(refs := map["refs/heads/" + "origin/HEAD" := Some(START)])
  }

  /** A local branch called origin/HEAD: the save takes its commit for one the remote has. */
  lemma LocalBranchHidesTheRemote(work: Tree, stamp: nat, clone: Repo)
    requires FreshClone(clone) && START !in clone.store
    requires !Among(work.Keys + clone.ignored, "HEAD~1")
    ensures var r := OnRemoteLookalike(work);
            && Good(r) && RemoteHead(r).None? && BaseOfSave(r, stamp, Some(START))
            && Restorable(r, clone) && BranchFits(r, clone) && !RoundTrip(r, stamp, Some(START), clone).ok
  {
    HiddenBase(work, stamp);
    RoundTripSucceeds(OnRemoteLookalike(work), stamp, Some(START), clone);
  }

  /** A path called HEAD~1: the save prints its commit, but nothing can undo it, here or in the clone. */
  lemma PathHidesTheParent(work: Tree, path: string, stamp: nat, again: nat, clone: Repo)
    requires FreshClone(clone) && path in work && (path == "HEAD~1" || "HEAD~1/" <= path) && !Among(work.Keys, "HEAD")
    ensures var r := Session(work);
            && Good(r) && BaseOfSave(r, stamp, None) && Save(r, stamp, None).Some?
            && !RoundTrip(r, stamp, None, clone).ok
            && !Prepare(Prepare(r, stamp).repo, again).ok
  {
    var r := Session(work);
    SessionIsGood(Session(work), stamp);
    PrepareKeeps(r, stamp);
    PrepareCommits(r, stamp);
    assert path in work.Keys + clone.ignored && "HEAD~1" + "/" == "HEAD~1/";
    SavedArrives(r, stamp, None, clone);
    RoundTripSucceeds(r, stamp, None, clone);
    assert path in work.Keys + r.ignored;
  }

  /** A path called HEAD: without a merge base the save cannot write its bundle. */
  lemma PathHidesHead(work: Tree, path: string, stamp: nat)
    requires path in work && (path == "HEAD" || "HEAD/" <= path)
    ensures var r := Session(work);
            && Good(r) && Recoverable(r) && SaveRuns(r) && BaseOfSave(r, stamp, None) && Save(r, stamp, None).None?
  {
    SessionIsGood(Session(work), stamp);
    PrepareKeeps(Session(work), stamp);
    PrepareRunsExactly(Session(work), stamp);
    assert path in work.Keys + Prepare(Session(work), stamp).repo.ignored && "HEAD" + "/" == "HEAD/";
  }

  // ---- The ordinary case ----------------------------------------------------------------------

  /** A clone of a remote whose default branch is at one commit, on its own main. */
  function Cloned(work: Tree): Repo
  {
    Repo(Some("main"), Some(START), START.tree, work, {}, [], None, Dsh, {START},
         map["refs/heads/" + "main" := Some(START), REMOTE_HEAD := Some(START)])
  }

  lemma RemoteIsFound(refs: Refs)
    requires {"refs/heads/" + "main", REMOTE_HEAD} <= refs.Keys <= {"ORIG_HEAD", "refs/heads/" + "main", REMOTE_HEAD}
    ensures Lookup(refs, "origin/HEAD") == refs[REMOTE_HEAD]
  {
    var name := "origin/HEAD";
    assert REMOTE_HEAD == "refs/remotes/" + name;
    assert name[0] == 'o' && ("refs/" + name)[5] == 'o' && ("refs/tags/" + name)[5] == 't';
    assert ("refs/heads/" + name)[5] == 'h' && ("refs/heads/" + name)[11] == 'o' && ("refs/heads/" + "main")[11] == 'm';
    assert REMOTE_HEAD[5] == 'r' && ("refs/heads/" + "main")[5] == 'h';
  }

  lemma ClonedIsGood(work: Tree)
    ensures Good(Cloned(work))
  {
  }

  lemma SaveFindsRemote(r: Repo, stamp: nat)
    requires Good(r) && r.branch == Some("main") && r.refs == Cloned(r.work).refs
    ensures Origin(Prepare(r, stamp).repo) == Some(START)
  {
    PrepareKeeps(r, stamp);
    assert ("refs/heads/" + "main")[5] == 'h' && REMOTE_HEAD[5] == 'r';
    RemoteIsFound(Prepare(r, stamp).repo.refs);
  }

  /** The remote has the session's commit, so that is the merge base of its save. */
  lemma ClonedBase(r: Repo, stamp: nat)
    requires Good(r) && r.branch == Some("main") && r.head == Some(START) && r.refs == Cloned(r.work).refs
    ensures BaseOfSave(r, stamp, Some(START))
  {
    SaveFindsRemote(r, stamp);
    SaveIsOverStart(r, stamp);
    assert Ancestors(START) == {START};
  }

  lemma MainIsFree(work: Tree)
    ensures Plain(Cloned(work).refs, "main") && PathIsFree(Cloned(work).refs, "main")
  {
    assert "main"[0] == 'm' && "HEAD"[0] == 'H';
    assert ("refs/heads/" + "main")[5] == 'h' && REMOTE_HEAD[5] == 'r';
    assert |"refs/heads/" + "main"| == 15 && |REMOTE_HEAD| == 24;
    assert ("refs/tags/" + "main")[5] == 't' && ("refs/" + "main")[5] == 'm';
  }

  /** What such a session needs of such a clone. */
  lemma ClonedFits(r: Repo)
    requires r.branch == Some("main") && r.head == Some(START) && r.refs == Cloned(r.work).refs
    requires r.identity == Dsh && r.ignored == {} && (r.merging == [] ==> r.picking.None?)
    requires !Among(r.work.Keys, "HEAD~1")
    ensures var clone := Cloned(START.tree);
            && FreshClone(clone) && Restorable(r, clone) && BaseArrives(r, Some(START), clone)
            && Plain(r.refs, "main") && PathIsFree(clone.refs, "main")
  {
    MainIsFree(r.work);
    MainIsFree(START.tree);
    assert r.work.Keys + Cloned(START.tree).ignored == r.work.Keys;
  }

  /** A session on main comes back on main in a clone that is on its own main, whatever was changed. */
  lemma MainComesBack(work: Tree, stamp: nat)
    requires !Among(work.Keys, "HEAD~1")
    ensures var trip := RoundTrip(Cloned(work), stamp, Some(START), Cloned(START.tree));
            && Good(Cloned(work)) && BaseOfSave(Cloned(work), stamp, Some(START))
            && trip.ok && Back(Cloned(work), trip.repo)
            && trip.repo.branch == Some("main") && trip.repo.head == Some(START) && trip.repo.work == work
  {
    ClonedIsGood(work);
    ClonedBase(Cloned(work), stamp);
    ClonedFits(Cloned(work));
    RestoresByPath(Cloned(work), stamp, Some(START), Cloned(START.tree));
  }

  /** The session amid a merge, with someone's cherry-pick left beside it. */
  function Merging(work: Tree, other: Commit): Repo
  {
    Cloned(work).(merging := [other], picking := Some(Someone), store := {START, other})
  }

  lemma MergingIsGood(work: Tree, other: Commit)
    requires other.parents == [] && !IsCheckpoint(other)
    ensures Good(Merging(work, other))
  {
  }

  /** A merge in progress beside someone's cherry-pick: the save is dsh's, keeps both parents, and comes back. */
  lemma MergeComesBack(work: Tree, other: Commit, stamp: nat)
    requires !Among(work.Keys, "HEAD~1") && work != START.tree && other.parents == [] && !IsCheckpoint(other)
    ensures var r := Merging(work, other);
            var trip := RoundTrip(r, stamp, Some(START), Cloned(START.tree));
            && Good(r) && BaseOfSave(r, stamp, Some(START))
            && Prepare(r, stamp).repo.head.value.parents == [START, other]
            && trip.ok && Back(r, trip.repo)
  {
    MergingIsGood(work, other);
    ClonedBase(Merging(work, other), stamp);
    ClonedFits(Merging(work, other));
    PrepareCommits(Merging(work, other), stamp);
    RestoresByPath(Merging(work, other), stamp, Some(START), Cloned(START.tree));
  }
}

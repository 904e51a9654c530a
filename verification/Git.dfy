/**
 * Git as the checkpoint scripts see it: a content-addressed commit graph, and one sandbox's
 * repository (HEAD, index, work tree of non-ignored paths, object store) with the commands the
 * scripts run.
 */
module Git {
  import opened Prelude

  type Tree = map<string, string>

  /** Whose commit it is: the save script's fixed identity, or anyone's. */
  datatype Author = Dsh | Someone

  /**
   * A commit is its content, so two commits are the same object exactly when they agree on
   * parents, tree, author, message and time. `saving` says the message is the save script's.
   */
  datatype Commit = Commit(parents: seq<Commit>, tree: Tree, author: Author, saving: bool, stamp: nat)

  /** What `is_checkpoint_commit` recognizes: the fixed author and the fixed subject. */
  predicate IsCheckpoint(c: Commit)
  {
    c.author == Dsh && c.saving
  }

  /** Everything reachable from a commit, the commit included. */
  function Ancestors(c: Commit): set<Commit>
  {
    {c} + set p, a | p in c.parents && a in Ancestors(p) :: a
  }

  lemma {:induction false} AncestorsTransitive(a: Commit, b: Commit, c: Commit)
    requires a in Ancestors(b) && b in Ancestors(c)
    ensures a in Ancestors(c)
    decreases c
  {
    if b != c {
      var p :| p in c.parents && b in Ancestors(p);
      AncestorsTransitive(a, b, p);
    }
  }

  /** A proper ancestor is structurally smaller, so history has no cycles. */
  lemma {:induction false} ProperAncestorIsSmaller(a: Commit, c: Commit)
    requires a in Ancestors(c) && a != c
    ensures a < c
    decreases c
  {
    var p :| p in c.parents && a in Ancestors(p);
    if a != p {
      ProperAncestorIsSmaller(a, p);
    }
  }

  lemma AncestorsAntisymmetric(a: Commit, b: Commit)
    requires a in Ancestors(b) && b in Ancestors(a)
    ensures a == b
  {
    if a != b {
      ProperAncestorIsSmaller(a, b);
      ProperAncestorIsSmaller(b, a);
    }
  }

  /** An object store that holds the parents of every commit it holds. */
  ghost predicate Closed(store: set<Commit>)
  {
    forall c, p | c in store && p in c.parents :: p in store
  }

  lemma {:induction false} ClosedHoldsAncestors(store: set<Commit>, c: Commit)
    requires Closed(store) && c in store
    ensures Ancestors(c) <= store
    decreases c
  {
    forall a | a in Ancestors(c) ensures a in store {
      if a != c {
        var p :| p in c.parents && a in Ancestors(p);
        ClosedHoldsAncestors(store, p);
      }
    }
  }

  lemma AncestorsClosed(c: Commit)
    ensures Closed(Ancestors(c))
  {
    forall a, p | a in Ancestors(c) && p in a.parents ensures p in Ancestors(c) {
      assert p in Ancestors(p);
      AncestorsTransitive(p, a, c);
    }
  }

  /** What `git merge-base` may print: any best common ancestor, or nothing when there is none. */
  ghost predicate IsMergeBase(base: Option<Commit>, head: Commit, origin: Option<Commit>)
  {
    var common := if origin.Some? then Ancestors(head) * Ancestors(origin.value) else {};
    match base
    case None => common == {}
    case Some(b) => b in common && forall c | c in common && b in Ancestors(c) :: c == b
  }

  lemma {:induction false} BestAbove(candidates: set<Commit>, start: Commit) returns (best: Commit)
    requires start in candidates
    ensures best in candidates && start in Ancestors(best)
    ensures forall c | c in candidates && best in Ancestors(c) :: c == best
    decreases candidates
  {
    best := start;
    if c :| c in candidates && start in Ancestors(c) && c != start {
      best := BestAbove(candidates - {start}, c);
      AncestorsTransitive(start, c, best);
      if start in candidates && best in Ancestors(start) {
        AncestorsAntisymmetric(best, start);
      }
    }
  }

  /** `git merge-base` always has an answer. */
  lemma MergeBaseExists(head: Commit, origin: Option<Commit>)
    ensures exists base :: IsMergeBase(base, head, origin)
  {
    var common := if origin.Some? then Ancestors(head) * Ancestors(origin.value) else {};
    if common == {} {
      assert IsMergeBase(None, head, origin);
    } else {
      var start :| start in common;
      var best := BestAbove(common, start);
      assert IsMergeBase(Some(best), head, origin);
    }
  }

  // ---- Refs ----------------------------------------------------------------------------------

  /**
   * Full ref names, with the files of the git directory that git reads as refs, such as ORIG_HEAD,
   * and the commit each leads to; a ref to something else leads to none. HEAD itself is kept apart.
   */
  type Refs = map<string, Option<Commit>>

  /** How git reads a short name: the first of these that exists decides. */
  function Lookup(refs: Refs, name: string): Option<Commit>
  {
    if name in refs then refs[name]
    else if "refs/" + name in refs then refs["refs/" + name]
    else if "refs/tags/" + name in refs then refs["refs/tags/" + name]
    else if "refs/heads/" + name in refs then refs["refs/heads/" + name]
    else if "refs/remotes/" + name in refs then refs["refs/remotes/" + name]
    else if "refs/remotes/" + name + "/HEAD" in refs then refs["refs/remotes/" + name + "/HEAD"]
    else None
  }

  /** The places git looks a short name up in, first to last. */
  function Places(name: string): seq<string>
  {
    [name, "refs/" + name, "refs/tags/" + name, "refs/heads/" + name, "refs/remotes/" + name,
     "refs/remotes/" + name + "/HEAD"]
  }

  /** The first of them that exists. */
  function FirstPlace(existing: set<string>, name: string, from: nat): Option<string>
    requires from <= 6
    decreases 6 - from
  {
    if from == 6 then None
    else if Places(name)[from] in existing then Some(Places(name)[from])
    else FirstPlace(existing, name, from + 1)
  }

  lemma FirstPlaceUnfolds(existing: set<string>, name: string)
    ensures FirstPlace(existing, name, 0) ==
            if name in existing then Some(name)
            else if "refs/" + name in existing then Some("refs/" + name)
            else if "refs/tags/" + name in existing then Some("refs/tags/" + name)
            else FirstPlace(existing, name, 3)
    ensures FirstPlace(existing, name, 3) ==
            if "refs/heads/" + name in existing then Some("refs/heads/" + name)
            else if "refs/remotes/" + name in existing then Some("refs/remotes/" + name)
            else if "refs/remotes/" + name + "/HEAD" in existing then Some("refs/remotes/" + name + "/HEAD")
            else None
  {
    assert FirstPlace(existing, name, 5) == if Places(name)[5] in existing then Some(Places(name)[5]) else None;
    assert FirstPlace(existing, name, 2) == if Places(name)[2] in existing then Some(Places(name)[2])
                                            else FirstPlace(existing, name, 3);
  }

  /** A short name means the ref at its first place, and nothing when it has none. */
  lemma LookupIsFirst(refs: Refs, name: string)
    ensures match FirstPlace(refs.Keys, name, 0)
            case None => Lookup(refs, name).None?
            case Some(place) => place in refs && Lookup(refs, name) == refs[place]
  {
    FirstPlaceUnfolds(refs.Keys, name);
  }

  /** No ref that git looks up before refs/heads answers to the branch's name. */
  predicate Plain(refs: Refs, branch: string)
  {
    branch != "HEAD" && branch !in refs && "refs/" + branch !in refs && "refs/tags/" + branch !in refs
  }

  /** `git symbolic-ref --short`: the shortest name that git still reads as the branch. */
  function ShortName(refs: Refs, branch: string): string
  {
    if Plain(refs, branch) then branch
    else if "heads/" + branch !in refs then "heads/" + branch
    else "refs/heads/" + branch
  }

  /** What exists for a repository on the branch: its refs, HEAD, and the branch itself. */
  function Existing(refs: Refs, branch: string): set<string>
  {
    refs.Keys + {"HEAD", "refs/heads/" + branch}
  }

  lemma PlainReadsBack(refs: Refs, branch: string)
    ensures FirstPlace(Existing(refs, branch), branch, 0) == Some("refs/heads/" + branch) <==> Plain(refs, branch)
  {
    var existing, own := Existing(refs, branch), "refs/heads/" + branch;
    FirstPlaceUnfolds(existing, branch);
    assert |own| == 11 + |branch| && |"refs/" + branch| == 5 + |branch| && |"refs/tags/" + branch| == 10 + |branch|;
    assert own[0] == 'r' && "HEAD"[0] == 'H' && ("refs/" + branch)[0] == 'r' && ("refs/tags/" + branch)[0] == 'r';
  }

  lemma HeadsDiffers(branch: string)
    ensures "heads/" + branch != "refs/heads/" + branch && "heads/" + branch != "HEAD"
    ensures "refs/" + ("heads/" + branch) == "refs/heads/" + branch
  {
    assert |"refs/heads/" + branch| == 11 + |branch| && |"heads/" + branch| == 6 + |branch|;
    assert ("heads/" + branch)[0] == 'h';
  }

  /** The first place of a name whose second one exists. */
  lemma SecondPlace(existing: set<string>, name: string)
    requires "refs/" + name in existing
    ensures FirstPlace(existing, name, 0) == if name in existing then Some(name) else Some("refs/" + name)
  {
    assert FirstPlace(existing, name, 1) == Some(Places(name)[1]);
  }

  lemma HeadsReadsBack(refs: Refs, branch: string)
    ensures FirstPlace(Existing(refs, branch), "heads/" + branch, 0) == Some("refs/heads/" + branch)
       <==> "heads/" + branch !in refs
  {
    HeadsDiffers(branch);
    SecondPlace(Existing(refs, branch), "heads/" + branch);
  }

  /** The printed name is read back as the branch, and is the shortest form of it that is. */
  lemma ShortNameReadsBack(refs: Refs, branch: string)
    ensures var existing, own, name := Existing(refs, branch), "refs/heads/" + branch, ShortName(refs, branch);
            && FirstPlace(existing, name, 0) == Some(own)
            && (name == branch <==> FirstPlace(existing, branch, 0) == Some(own))
            && (name != branch && FirstPlace(existing, "heads/" + branch, 0) == Some(own) ==> name == "heads/" + branch)
  {
    PlainReadsBack(refs, branch);
    HeadsReadsBack(refs, branch);
    ShortNameIsPlain(refs, branch);
    FirstPlaceUnfolds(Existing(refs, branch), "refs/heads/" + branch);
  }

  lemma ShortNameIsPlain(refs: Refs, branch: string)
    ensures ShortName(refs, branch) == branch <==> Plain(refs, branch)
  {
    assert |"heads/" + branch| > |branch| && |"refs/heads/" + branch| > |branch|;
  }

  /** The refs once the current branch, if any, is at a commit. */
  function WithBranch(refs: Refs, branch: Option<string>, commit: Commit): Refs
  {
    if branch.Some? then refs["refs/heads/" + branch.value := Some(commit)] else refs
  }

  /** One ref's path lies under another's. */
  predicate Under(ref: string, other: string)
  {
    other + "/" <= ref
  }

  /** `git checkout -B` accepts the name: git allows it for a branch, and no ref's path collides with the branch's. */
  predicate Creatable(refs: Refs, branch: string)
  {
    && branch != "HEAD" && !("-" <= branch)
    && forall ref | ref in refs :: !Under(ref, "refs/heads/" + branch) && !Under("refs/heads/" + branch, ref)
  }

  /** Neither the branch's own ref nor the ORIG_HEAD a reset leaves changes how the branch is printed. */
  lemma OwnRefsDoNotHide(refs: Refs, refs': Refs, branch: string)
    requires branch != "ORIG_HEAD"
    requires refs.Keys <= refs'.Keys <= refs.Keys + {"ORIG_HEAD", "refs/heads/" + branch}
    ensures ShortName(refs', branch) == ShortName(refs, branch)
    ensures Plain(refs', branch) <==> Plain(refs, branch)
  {
    var own := "refs/heads/" + branch;
    assert |own| == 11 + |branch|;
    assert ("refs/" + branch)[0] == 'r' && ("heads/" + branch)[0] == 'h' && ("refs/tags/" + branch)[0] == 'r';
    assert |"refs/" + branch| == 5 + |branch| && |"heads/" + branch| == 6 + |branch|;
    assert |"refs/tags/" + branch| == 10 + |branch|;
  }

  // ---- One sandbox's repository --------------------------------------------------------------

  /**
   * One sandbox's checkout. `head` is absent on an unborn branch; `branch` is absent when detached.
   * `merging` are the parents a merge in progress adds, `picking` the author of the commit a
   * cherry-pick in progress stands at, and `identity` who the configuration and the environment
   * make the author of a commit under the script's `user.email`. `ignored` are the other
   * paths on disk: ignored files and empty directories.
   */
  datatype Repo = Repo(
    branch: Option<string>,
    head: Option<Commit>,
    index: Tree,
    work: Tree,
    ignored: set<string>,
    merging: seq<Commit>,
    picking: Option<Author>,
    identity: Author,
    store: set<Commit>,
    refs: Refs)

  /** What `origin/HEAD` means to git here. */
  function Origin(r: Repo): Option<Commit>
  {
    Lookup(r.refs, "origin/HEAD")
  }

  const REMOTE_HEAD := "refs/remotes/origin/HEAD"

  /** The remote's default branch as last fetched. */
  function RemoteHead(r: Repo): Option<Commit>
  {
    if REMOTE_HEAD in r.refs then r.refs[REMOTE_HEAD] else None
  }

  /** A path of the name, file or directory, is in the work tree. */
  predicate OnDisk(r: Repo, name: string)
  {
    Among(r.work.Keys + r.ignored, name)
  }

  predicate Among(paths: set<string>, name: string)
  {
    exists path | path in paths :: path == name || name + "/" <= path
  }

  ghost predicate WellFormed(r: Repo)
  {
    && Closed(r.store)
    && (r.head.Some? ==> r.head.value in r.store)
    && (forall ref | ref in r.refs && r.refs[ref].Some? :: r.refs[ref].value in r.store)
    && (forall c | c in r.merging :: c in r.store)
    && (r.head.None? ==> r.branch.Some? && r.merging == [])
    && BranchAtHead(r)
  }

  /** The current branch's ref is HEAD. */
  predicate BranchAtHead(r: Repo)
  {
    r.branch.Some? && r.head.Some? ==>
      "refs/heads/" + r.branch.value in r.refs && r.refs["refs/heads/" + r.branch.value] == r.head
  }

  function HeadTree(r: Repo): Tree
  {
    if r.head.Some? then r.head.value.tree else map[]
  }

  predicate Clean(r: Repo)
  {
    r.index == HeadTree(r) && r.work == HeadTree(r) && r.merging == []
  }

  // ---- Bundles -------------------------------------------------------------------------------

  /** The commits of a bundle, and the commits the receiver must already have. */
  datatype Bundle = Bundle(commits: set<Commit>, prerequisites: set<Commit>)

  /** `git bundle create base..head`: what head reaches and base does not, over its boundary. */
  function RangeBundle(base: Commit, head: Commit): Bundle
  {
    var commits := Ancestors(head) - Ancestors(base);
    Bundle(commits, set c, p | c in commits && p in c.parents && p !in commits :: p)
  }

  /** The boundary of a range bundle lies in the history of its base. */
  lemma RangePrerequisites(base: Commit, head: Commit)
    ensures RangeBundle(base, head).prerequisites <= Ancestors(base)
  {
    var b := RangeBundle(base, head);
    forall p | p in b.prerequisites ensures p in Ancestors(base) {
      var c :| c in b.commits && p in c.parents && p !in b.commits;
      AncestorsClosed(head);
    }
  }

  /** Unbundling into a closed store that has the boundary keeps it closed and brings all of head's history. */
  lemma UnbundleRange(base: Commit, head: Commit, store: set<Commit>)
    requires Closed(store) && base in store
    ensures Closed(store + RangeBundle(base, head).commits)
    ensures Ancestors(head) <= store + RangeBundle(base, head).commits
  {
    ClosedHoldsAncestors(store, base);
    RangePrerequisites(base, head);
    var b := RangeBundle(base, head);
    forall c, p | c in store + b.commits && p in c.parents ensures p in store + b.commits {
      if c in b.commits && p !in b.commits {
        assert p in b.prerequisites;
      }
    }
  }

  /** A non-empty range bundle over an ancestor expects that ancestor of its receiver. */
  lemma {:induction false} RangeExpectsBase(base: Commit, head: Commit)
    requires base in Ancestors(head) && base != head
    ensures base in RangeBundle(base, head).prerequisites && head in RangeBundle(base, head).commits
    decreases head
  {
    if head in Ancestors(base) {
      AncestorsAntisymmetric(base, head);
    }
    var p :| p in head.parents && base in Ancestors(p);
    if p == base {
      assert base !in RangeBundle(base, head).commits;
    } else {
      RangeExpectsBase(base, p);
      var c :| c in RangeBundle(base, p).commits && base in c.parents && base !in RangeBundle(base, p).commits;
      assert c in Ancestors(head);
      assert c in RangeBundle(base, head).commits;
    }
  }
}

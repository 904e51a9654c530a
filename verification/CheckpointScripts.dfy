/**
 * The two scripts as they run: a sandbox's repository changed line by line, tied to the step
 * functions of Checkpoint (control-plane/src/sandbox/checkpoint.ts:72-139).
 */
module CheckpointScripts {
  import opened Prelude
  import opened Git
  import opened Checkpoint

  /** The common ancestors better than `best`. */
  function Above(common: set<Commit>, best: Commit): set<Commit>
  {
    set c | c in common && best in Ancestors(c) && c != best
  }

  lemma AboveShrinks(common: set<Commit>, best: Commit, next: Commit)
    requires next in Above(common, best)
    ensures Above(common, next) < Above(common, best)
  {
    forall c | c in Above(common, next) ensures c in Above(common, best) {
      AncestorsTransitive(best, next, c);
      if c == best {
        AncestorsAntisymmetric(best, next);
      }
    }
    assert next !in Above(common, next);
  }

  class Repository {
    var branch: Option<string>
    var head: Option<Commit>
    var index: Tree
    var work: Tree
    var ignored: set<string>
    var merging: seq<Commit>
    var picking: Option<Author>
    var identity: Author
    var store: set<Commit>
    var refs: Refs

    function State(): Repo
      reads this
    {
      Repo(branch, head, index, work, ignored, merging, picking, identity, store, refs)
    }

    constructor (r: Repo)
      ensures State() == r
    {
      branch, head, index, work, ignored := r.branch, r.head, r.index, r.work, r.ignored;
      merging, picking, identity, store, refs := r.merging, r.picking, r.identity, r.store, r.refs;
    }

    predicate OnCheckpoint()
      reads this
      ensures OnCheckpoint() == IsCheckpointHead(State())
    {
      head.Some? && head.value.author == Dsh && head.value.saving
    }

    /** `git reset -q HEAD~1`. */
    method ResetToParent() returns (ok: bool)
      modifies this
      ensures Outcome(State(), ok) == Checkpoint.ResetToParent(old(State()))
    {
      if head.None? || head.value.parents == [] || Among(work.Keys + ignored, "HEAD~1") {
        return false;
      }
      refs := refs["ORIG_HEAD" := head];
      head := Some(head.value.parents[0]);
      index := head.value.tree;
      merging, picking := [], None;
      refs := WithBranch(refs, branch, head.value);
      ok := true;
    }

    /** `git commit` under the script's `user.email`. */
    method CommitCheckpoint(stamp: nat)
      modifies this
      ensures State() == Checkpoint.CommitCheckpoint(old(State()), stamp)
    {
      var author := identity;
      if merging == [] && picking.Some? {
        author := picking.value;
      }
      var parents := merging;
      if head.Some? {
        parents := [head.value] + merging;
      }
      assert parents == (if head.Some? then [head.value] else []) + merging;
      var c := Commit(parents, index, author, true, stamp);
      head, merging, picking, store := Some(c), [], None, store + {c};
      refs := WithBranch(refs, branch, c);
    }

    /** `git merge-base HEAD origin/HEAD`: climbs from any common ancestor to a best one. */
    method MergeBase() returns (base: Option<Commit>)
      requires head.Some?
      ensures IsMergeBase(base, head.value, Origin(State()))
    {
      var origin := Lookup(refs, "origin/HEAD");
      if origin.None? {
        return None;
      }
      var common := Ancestors(head.value) * Ancestors(origin.value);
      if common == {} {
        return None;
      }
      var best :| best in common;
      var above := Above(common, best);
      while above != {}
        invariant best in common
        invariant above == Above(common, best)
        decreases above
      {
        var next :| next in above;
        AboveShrinks(common, best, next);
        best := next;
        above := Above(common, best);
      }
      base := Some(best);
    }

    /** Lines 83-89, past `git rev-parse HEAD`. */
    method PrintBundle(name: Option<string>) returns (saved: Option<Saved>, ghost base: Option<Commit>)
      requires head.Some?
      ensures IsMergeBase(base, head.value, Origin(State())) && saved == Print(State(), name, base)
    {
      var mergeBase := MergeBase();
      base := mergeBase;
      saved := None;
      if mergeBase.None? {
        if !Among(work.Keys + ignored, "HEAD") {
          saved := Some(Saved(name, head.value, Some(Bundle(Ancestors(head.value), {}))));
        }
      } else if mergeBase.value != head.value {
        var range := RangeBundle(mergeBase.value, head.value);
        if range.commits != {} {
          saved := Some(Saved(name, head.value, Some(range)));
        }
      } else {
        saved := Some(Saved(name, head.value, None));
      }
    }

    /** SAVE_SCRIPT. An absent result is a failed script; what the earlier lines did stays. */
    method SaveScript(stamp: nat) returns (saved: Option<Saved>, ghost base: Option<Commit>)
      modifies this
      ensures State() == Prepare(old(State()), stamp).repo
      ensures saved == Save(old(State()), stamp, base)
      ensures BaseOfSave(old(State()), stamp, base)
    {
      var name := if branch.Some? then Some(ShortName(refs, branch.value)) else None;
      if OnCheckpoint() {
        var ok := ResetToParent();
        if !ok {
          return None, None;
        }
      }
      index := work;
      if index != (if head.Some? then head.value.tree else map[]) {
        CommitCheckpoint(stamp);
      }
      if head.None? {
        return None, None;
      }
      saved, base := PrintBundle(name);
    }

    /** RESTORE_SCRIPT. */
    method RestoreScript(saved: Saved) returns (ok: bool)
      modifies this
      ensures Outcome(State(), ok) == Restore(old(State()), saved)
    {
      if saved.bundle.Some? {
        if !(saved.bundle.value.prerequisites <= store) {
          return false;
        }
        store := store + saved.bundle.value.commits;
      }
      if saved.commit !in store {
        return false;
      }
      if !Clean(State()) || (saved.branch.Some? && !Creatable(refs, saved.branch.value)) {
        return false;
      }
      branch, head := saved.branch, Some(saved.commit);
      index, work, picking := saved.commit.tree, saved.commit.tree, None;
      refs := WithBranch(refs, saved.branch, saved.commit);
      ok := true;
      if OnCheckpoint() {
        ok := ResetToParent();
      }
    }
  }

  /** A session carried from its sandbox to a fresh clone: the two scripts end to end. */
  method Carry(sandbox: Repository, clone: Repository, stamp: nat) returns (ok: bool, ghost base: Option<Commit>)
    requires sandbox != clone
    requires Good(sandbox.State()) && FreshClone(clone.State())
    modifies sandbox, clone
    ensures BaseOfSave(old(sandbox.State()), stamp, base)
    ensures ok && WorkBack(old(sandbox.State()), clone.State())
       <==> Restorable(old(sandbox.State()), old(clone.State()))
            && Transferable(old(sandbox.State()), base, old(clone.State()))
    ensures ok && Back(old(sandbox.State()), clone.State())
       <==> Restorable(old(sandbox.State()), old(clone.State()))
            && Transferable(old(sandbox.State()), base, old(clone.State())) && BranchReadable(old(sandbox.State()))
  {
    ghost var before, target := sandbox.State(), clone.State();
    var saved, picked := sandbox.SaveScript(stamp);
    base := picked;
    RoundTripRestores(before, stamp, base, target);
    if saved.None? {
      return false, base;
    }
    ok := clone.RestoreScript(saved.value);
  }
}

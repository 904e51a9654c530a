/**
 * The host's half of a checkpoint: the save script's stdout is parsed, and the parts become the
 * restore script's environment and stdin (control-plane/src/sandbox/checkpoint.ts:37-43, 164-189, 251-341,
 * 428-472).
 */
module CheckpointTransfer {
  import opened Prelude
  import opened Git
  import opened Checkpoint
  import opened CheckpointOutput

  /** How git writes commit ids and bundles, and reads them back. */
  datatype Encoding = Encoding(
    id: Commit -> string, bytes: Bundle -> string,
    commitOf: string -> Option<Commit>, bundleOf: string -> Option<Bundle>)

  /** The id is 40 hexadecimal digits, the bundle carries git's header, and both read back as what was written. */
  predicate ReadsBack(e: Encoding, saved: Saved)
  {
    && IsCommitId(e.id(saved.commit)) && e.commitOf(e.id(saved.commit)) == Some(saved.commit)
    && (saved.bundle.Some? ==>
          && e.bytes(saved.bundle.value) != "" && BundleAccepted(e.bytes(saved.bundle.value))
          && e.bundleOf(e.bytes(saved.bundle.value)) == saved.bundle)
  }

  /** No bundle is no bytes. */
  function BundleBytes(e: Encoding, bundle: Option<Bundle>): string
  {
    if bundle.Some? then e.bytes(bundle.value) else ""
  }

  /** Lines 84-89: what the save script puts on stdout. */
  function Stdout(e: Encoding, saved: Saved): string
  {
    Printout(BranchText(saved.branch), e.id(saved.commit), BundleBytes(e, saved.bundle))
  }

  /** The restore script's three variables and its stdin. */
  datatype Input = Input(commit: string, branch: string, hasBundle: bool, stdin: string)

  /** restoreEnvironment, and the bundle as stdin. */
  function RestoreInput(parsed: GitCheckpoint): Input
  {
    Input(parsed.commit, BranchText(parsed.branch), |parsed.bundle| > 0, parsed.bundle)
  }

  /** RESTORE_SCRIPT as it reads its input. */
  function RunRestore(e: Encoding, clone: Repo, input: Input): Outcome
  {
    var bundle := if input.hasBundle then e.bundleOf(input.stdin) else None;
    if input.hasBundle && bundle.None? then Outcome(clone, false) else
    var unbundled := Unbundle(clone, bundle);
    var commit := e.commitOf(input.commit);
    if !unbundled.ok || commit.None? then Outcome(unbundled.repo, false)
    else Restore(unbundled.repo, Saved(BranchOf(input.branch), commit.value, None))
  }

  const MAX_BUNDLE_BYTES := 64 * 1024 * 1024

  lemma {:induction false} FlattenGrows(chunks: seq<string>, k: nat)
    requires k <= |chunks|
    ensures |Flatten(chunks[..k])| <= |Flatten(chunks)|
    decreases |chunks|
  {
    if k < |chunks| {
      var front := chunks[..|chunks| - 1];
      assert front[..k] == chunks[..k];
      FlattenGrows(front, k);
    } else {
      assert chunks[..k] == chunks;
    }
  }

  /** The loop of runScript over stdout: nothing comes back of an output over the bound, however it is cut up. */
  method Collect(chunks: seq<string>, maxBytes: nat) returns (output: Option<string>)
    ensures output == if |Flatten(chunks)| <= maxBytes then Some(Flatten(chunks)) else None
  {
    var stdout := "";
    var stdoutBytes := 0;
    var i := 0;
    while i < |chunks|
      invariant i <= |chunks|
      invariant stdout == Flatten(chunks[..i]) && stdoutBytes == |stdout| <= maxBytes
    {
      assert chunks[..i + 1][..i] == chunks[..i];
      stdoutBytes := stdoutBytes + |chunks[i]|;
      if stdoutBytes > maxBytes {
        FlattenGrows(chunks, i + 1);
        return None;
      }
      stdout := stdout + chunks[i];
      i := i + 1;
    }
    assert chunks[..i] == chunks;
    output := Some(stdout);
  }

  /** saveCheckpoint, then restoreCheckpoint in a clone: an output too long or unreadable stops before the clone. */
  function Transfer(e: Encoding, r: Repo, stamp: nat, base: Option<Commit>, clone: Repo): Outcome
  {
    match Save(r, stamp, base)
    case None => Outcome(clone, false)
    case Some(saved) =>
      var output := Stdout(e, saved);
      var parsed := if |output| <= MAX_BUNDLE_BYTES then ParseSaveOutput(output) else None;
      if parsed.None? then Outcome(clone, false) else RunRestore(e, clone, RestoreInput(parsed.value))
  }

  /** The printout, if there is one, is within the bound on a save's output. */
  predicate Fits(e: Encoding, r: Repo, stamp: nat, base: Option<Commit>)
  {
    var saved := Save(r, stamp, base);
    saved.Some? ==> |Stdout(e, saved.value)| <= MAX_BUNDLE_BYTES
  }

  /** The encoding reads back what this save prints. */
  predicate Readable(e: Encoding, r: Repo, stamp: nat, base: Option<Commit>)
  {
    var saved := Save(r, stamp, base);
    saved.Some? ==> ReadsBack(e, saved.value)
  }

  /** Bundle bytes that are no bundle stop the restore before the clone changes. */
  lemma UnreadableBundleStops(e: Encoding, clone: Repo, input: Input)
    requires input.hasBundle && e.bundleOf(input.stdin).None?
    ensures RunRestore(e, clone, input) == Outcome(clone, false)
  {
  }

  /** A ref name: git allows neither an empty one nor a newline in it. */
  predicate BranchIsName(branch: Option<string>)
  {
    branch.Some? ==> branch.value != "" && OneLine(branch.value)
  }

  /** The parsed output gives back the parts that were printed. */
  lemma ParsedIsSaved(e: Encoding, saved: Saved)
    requires ReadsBack(e, saved) && BranchIsName(saved.branch)
    ensures ParseSaveOutput(Stdout(e, saved)) == Some(
              GitCheckpoint(saved.branch, e.id(saved.commit), BundleBytes(e, saved.bundle)))
  {
    ParseInvertsPrintout(Stdout(e, saved), BranchText(saved.branch), e.id(saved.commit), BundleBytes(e, saved.bundle));
  }

  /** The restore is the unbundling, then the restore of a commit that needs no bundle. */
  lemma RestoreInSteps(clone: Repo, saved: Saved)
    ensures var unbundled := Unbundle(clone, saved.bundle);
            Restore(clone, saved) ==
            if unbundled.ok then Restore(unbundled.repo, saved.(bundle := None)) else Outcome(unbundled.repo, false)
  {
  }

  lemma InputReadsBack(e: Encoding, saved: Saved)
    requires ReadsBack(e, saved) && BranchIsName(saved.branch)
    ensures ParseSaveOutput(Stdout(e, saved)).Some?
    ensures var input := RestoreInput(ParseSaveOutput(Stdout(e, saved)).value);
            && BranchOf(input.branch) == saved.branch && e.commitOf(input.commit) == Some(saved.commit)
            && (input.hasBundle <==> saved.bundle.Some?)
            && (input.hasBundle ==> e.bundleOf(input.stdin) == saved.bundle)
  {
    ParsedIsSaved(e, saved);
  }

  /** The restore script, fed from the parsed output, restores exactly what the save script saved. */
  lemma TransferredIsSaved(e: Encoding, saved: Saved, clone: Repo)
    requires ReadsBack(e, saved) && BranchIsName(saved.branch)
    ensures ParseSaveOutput(Stdout(e, saved)).Some?
    ensures RunRestore(e, clone, RestoreInput(ParseSaveOutput(Stdout(e, saved)).value)) == Restore(clone, saved)
  {
    InputReadsBack(e, saved);
    RestoreInSteps(clone, saved);
  }

  lemma ShortNameIsName(r: Repo)
    requires BranchIsName(r.branch)
    ensures BranchIsName(BranchName(r))
  {
  }

  /** So the way through the host is the round trip, or stops before the clone. */
  lemma TransferIsRoundTrip(e: Encoding, r: Repo, stamp: nat, base: Option<Commit>, clone: Repo)
    requires BranchIsName(r.branch) && Readable(e, r, stamp, base)
    ensures Transfer(e, r, stamp, base, clone)
         == if Fits(e, r, stamp, base) then RoundTrip(r, stamp, base, clone) else Outcome(clone, false)
  {
    ShortNameIsName(r);
    match Save(r, stamp, base)
    case None =>
    case Some(saved) => TransferredIsSaved(e, saved, clone);
  }

  /** The session comes back through the host exactly when its printout fits and the round trip restores it. */
  lemma TransferRestoresExactly(e: Encoding, r: Repo, stamp: nat, base: Option<Commit>, clone: Repo)
    requires Good(r) && FreshClone(clone) && BaseOfSave(r, stamp, base)
    requires BranchIsName(r.branch) && Readable(e, r, stamp, base)
    ensures var trip := Transfer(e, r, stamp, base, clone);
            && (trip.ok && WorkBack(r, trip.repo) <==>
                  Fits(e, r, stamp, base) && Restorable(r, clone) && Transferable(r, base, clone))
            && (trip.ok && Back(r, trip.repo) <==>
                  && Fits(e, r, stamp, base) && Restorable(r, clone) && Transferable(r, base, clone)
                  && BranchReadable(r))
  {
    TransferIsRoundTrip(e, r, stamp, base, clone);
    RoundTripRestores(r, stamp, base, clone);
  }
}

/**
 * The save script's stdout and its parser (control-plane/src/sandbox/checkpoint.ts:84, 141-189).
 * A byte is modelled as one character.
 */
module CheckpointOutput {
  import opened Prelude
  import opened Decimal
  import opened Text

  datatype GitCheckpoint = GitCheckpoint(branch: Option<string>, commit: string, bundle: string)

  /** /^[0-9a-f]{40}$/ */
  predicate IsCommitId(s: string)
  {
    |s| == 40 && forall i | 0 <= i < |s| :: IsDigit(s[i]) || 'a' <= s[i] <= 'f'
  }

  /** /^# v\d+ git bundle\n/ */
  predicate HasBundleHeader(s: string)
  {
    && |s| > 3 && s[..3] == "# v" && IsDigit(s[3])
    && exists k | 4 <= k <= |s| :: (forall i | 3 <= i < k :: IsDigit(s[i])) && " git bundle\n" <= s[k..]
  }

  predicate BundleAccepted(bundle: string)
  {
    bundle == "" || HasBundleHeader(if |bundle| > 32 then bundle[..32] else bundle)
  }

  /** What `printf '%s\n%s\n' "$branch" "$head"` and the bundle after it put on stdout. */
  function Printout(branch: string, commit: string, bundle: string): string
  {
    branch + "\n" + commit + "\n" + bundle
  }

  function ParseSaveOutput(output: string): Option<GitCheckpoint>
  {
    var first := IndexOf(output, '\n', 0);
    var second := if first.None? then None else IndexOf(output, '\n', first.value + 1);
    var branch := if second.None? then "" else output[..first.value];
    var commit := if second.None? then "" else output[first.value + 1..second.value];
    var bundle := if second.None? then output else output[second.value + 1..];
    if !IsCommitId(commit) || (|bundle| > 0 && !BundleAccepted(bundle)) then
      None
    else
      Some(GitCheckpoint(BranchOf(branch), commit, bundle))
  }

  predicate OneLine(s: string)
  {
    forall i | 0 <= i < |s| :: s[i] != '\n'
  }

  /** Where the parts of a printout lie. */
  lemma PrintoutPositions(branch: string, commit: string, bundle: string)
    ensures var output, end := Printout(branch, commit, bundle), |branch| + 1 + |commit|;
            && |output| == end + 1 + |bundle|
            && output[0..|branch|] == branch && output[|branch|] == '\n'
            && output[|branch| + 1..end] == commit && output[end] == '\n'
            && output[end + 1..] == bundle
  {
  }

  lemma LineEnds(s: string, from: nat, end: nat)
    requires from <= end < |s| && OneLine(s[from..end]) && s[end] == '\n'
    ensures IndexOf(s, '\n', from) == Some(end)
  {
    forall i | from <= i < end ensures s[i] != '\n' {
      assert s[i] == s[from..end][i - from];
    }
    IndexOfIs(s, '\n', from, end);
  }

  lemma SplitsAt(output: string, branch: string, commit: string)
    requires OneLine(branch) && OneLine(commit) && |branch| + 1 + |commit| < |output|
    requires output[0..|branch|] == branch && output[|branch|] == '\n'
    requires output[|branch| + 1..|branch| + 1 + |commit|] == commit && output[|branch| + 1 + |commit|] == '\n'
    ensures IndexOf(output, '\n', 0) == Some(|branch|)
    ensures IndexOf(output, '\n', |branch| + 1) == Some(|branch| + 1 + |commit|)
  {
    LineEnds(output, 0, |branch|);
    LineEnds(output, |branch| + 1, |branch| + 1 + |commit|);
  }

  /** A printout splits at its first two newlines. */
  lemma PrintoutSplits(branch: string, commit: string, bundle: string)
    requires OneLine(branch) && OneLine(commit)
    ensures IndexOf(Printout(branch, commit, bundle), '\n', 0) == Some(|branch|)
    ensures IndexOf(Printout(branch, commit, bundle), '\n', |branch| + 1) == Some(|branch| + 1 + |commit|)
  {
    PrintoutPositions(branch, commit, bundle);
    SplitsAt(Printout(branch, commit, bundle), branch, commit);
  }

  lemma Rejoins(s: string, first: nat, second: nat)
    requires first < second < |s| && s[first] == '\n' && s[second] == '\n'
    ensures s == Printout(s[..first], s[first + 1..second], s[second + 1..])
  {
  }

  /** What the parser accepts is the printout of what it returns. */
  lemma ParsedIsPrintout(output: string)
    requires ParseSaveOutput(output).Some?
    ensures var parsed := ParseSaveOutput(output).value;
            && output == Printout(BranchText(parsed.branch), parsed.commit, parsed.bundle)
            && OneLine(BranchText(parsed.branch)) && parsed.branch != Some("")
            && IsCommitId(parsed.commit) && BundleAccepted(parsed.bundle)
  {
    var first := IndexOf(output, '\n', 0);
    if first.Some? {
      var second := IndexOf(output, '\n', first.value + 1);
      if second.Some? {
        Rejoins(output, first.value, second.value);
      }
    }
  }

  function BranchText(branch: Option<string>): string
  {
    if branch.Some? then branch.value else ""
  }

  function BranchOf(text: string): Option<string>
  {
    if text == "" then None else Some(text)
  }

  /**
   * The parser accepts exactly the printouts: a branch without newlines, a 40-digit commit and
   * no bundle or one with a git bundle header, and it returns the parts that were printed.
   */
  lemma ParseInvertsPrintout(output: string, branch: string, commit: string, bundle: string)
    ensures (output == Printout(branch, commit, bundle)
             && OneLine(branch) && IsCommitId(commit) && BundleAccepted(bundle))
       <==> ParseSaveOutput(output) == Some(GitCheckpoint(BranchOf(branch), commit, bundle))
  {
    if output == Printout(branch, commit, bundle) && OneLine(branch) && IsCommitId(commit) {
      PrintoutPositions(branch, commit, bundle);
      PrintoutSplits(branch, commit, bundle);
    }
    if ParseSaveOutput(output).Some? {
      ParsedIsPrintout(output);
    }
  }

  // ---- The two patterns ------------------------------------------------------------------------

  /** An accepted commit id is 40 of these characters. */
  lemma CommitIdExactly(s: string)
    ensures IsCommitId(s) <==> |s| == 40 && forall i | 0 <= i < |s| :: s[i] in "0123456789abcdef"
  {
    forall c: char ensures IsDigit(c) || 'a' <= c <= 'f' <==> c in "0123456789abcdef" {
      HexDigits(c);
    }
  }

  lemma HexDigits(c: char)
    ensures IsDigit(c) || 'a' <= c <= 'f' <==> c in "0123456789abcdef"
  {
    var hex := "0123456789abcdef";
    assert hex[0] == '0' && hex[1] == '1' && hex[2] == '2' && hex[3] == '3' && hex[4] == '4' && hex[5] == '5';
    assert hex[6] == '6' && hex[7] == '7' && hex[8] == '8' && hex[9] == '9' && hex[10] == 'a' && hex[11] == 'b';
    assert hex[12] == 'c' && hex[13] == 'd' && hex[14] == 'e' && hex[15] == 'f';
  }

  /** git's header of one to seventeen version digits, and anything behind it. */
  predicate StartsWithHeader(bundle: string, version: string, rest: string)
  {
    1 <= |version| <= 17 && AllDigits(version) && bundle == "# v" + version + " git bundle\n" + rest
  }

  lemma Rejoined(s: string, i: nat, j: nat, k: nat)
    requires i <= j <= k <= |s|
    ensures s == s[..i] + s[i..j] + s[j..k] + s[k..]
  {
  }

  lemma HeaderIsRead(bundle: string) returns (version: string, rest: string)
    requires HasBundleHeader(if |bundle| > 32 then bundle[..32] else bundle)
    ensures StartsWithHeader(bundle, version, rest)
  {
    var tail := " git bundle\n";
    var head := if |bundle| > 32 then bundle[..32] else bundle;
    var k :| 4 <= k <= |head| && (forall i | 3 <= i < k :: IsDigit(head[i])) && tail <= head[k..];
    assert |tail| == 12 && k + 12 <= |head|;
    version, rest := bundle[3..k], bundle[k + 12..];
    assert bundle[..3] == "# v" by {
      assert bundle[..3] == head[..3];
    }
    assert bundle[k..k + 12] == tail by {
      assert bundle[k..k + 12] == head[k..][..12];
    }
    assert AllDigits(version) by {
      assert forall i | 0 <= i < |version| :: version[i] == head[i + 3];
    }
    Rejoined(bundle, 3, k, k + 12);
  }

  lemma HeaderIsFound(bundle: string, version: string, rest: string)
    requires StartsWithHeader(bundle, version, rest)
    ensures HasBundleHeader(if |bundle| > 32 then bundle[..32] else bundle)
  {
    var tail, k := " git bundle\n", 3 + |version|;
    var head := if |bundle| > 32 then bundle[..32] else bundle;
    assert |tail| == 12 && |bundle| == k + 12 + |rest| && k + 12 <= |head|;
    assert head[..3] == "# v" && head[3] == version[0];
    assert forall i | 3 <= i < k :: head[i] == version[i - 3];
    assert head[k..][..12] == bundle[k..k + 12] == tail;
  }

  /** An accepted bundle is empty, or starts with git's header, whose version has at most seventeen digits. */
  lemma BundleAcceptedExactly(bundle: string)
    ensures BundleAccepted(bundle) <==>
              bundle == "" || exists version: string, rest: string :: StartsWithHeader(bundle, version, rest)
  {
    if bundle != "" && BundleAccepted(bundle) {
      var version, rest := HeaderIsRead(bundle);
    }
    forall version: string, rest: string | StartsWithHeader(bundle, version, rest) ensures BundleAccepted(bundle) {
      HeaderIsFound(bundle, version, rest);
    }
  }
}

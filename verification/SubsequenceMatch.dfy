/** The greedy subsequence matcher (control-plane/src/workspaces/file-reference.ts:443-455). */
module SubsequenceMatch {
  import opened Prelude
  import opened Text

  // ---- What a match is ---------------------------------------------------------------------

  /** `at` places the query's characters in the target, in order, at or after `from`. */
  ghost predicate Embeds(at: seq<nat>, query: string, target: string, from: nat)
  {
    && |at| == |query|
    && (forall i | 0 <= i < |at| :: from <= at[i] < |target| && target[at[i]] == query[i])
    && (forall i, j | 0 <= i < j < |at| :: at[i] < at[j])
  }

  /** The characters an embedding skips: before its first place and between its places. */
  function Skipped(at: seq<nat>, from: nat): int
  {
    if at == [] then 0 else at[0] - from + Skipped(at[1..], at[0] + 1)
  }

  ghost predicate IsSubsequence(query: string, target: string)
  {
    exists at: seq<nat> :: Embeds(at, query, target, 0)
  }

  /** Skipped characters are all those before the last place that no character of the query took. */
  lemma {:induction false} SkippedTelescopes(at: seq<nat>, from: nat)
    ensures Skipped(at, from) == if at == [] then 0 else at[|at| - 1] + 1 - from - |at|
  {
    if at != [] {
      SkippedTelescopes(at[1..], at[0] + 1);
    }
  }

  // ---- The greedy matcher ------------------------------------------------------------------

  /** The gap the loop adds for the rest of the query, searching at or after `from`. */
  function GreedyGap(target: string, from: nat, query: string): Option<nat>
    requires from <= |target|
    decreases |query|
  {
    if query == "" then Some(0) else
    var found := IndexOf(target, query[0], from);
    if found.None? then None else
    var rest := GreedyGap(target, found.value + 1, query[1..]);
    if rest.None? then None else Some(found.value - from + rest.value)
  }

  /** Math.max(0, 100 - gap) */
  function ScoreOfGap(gap: int): nat
  {
    if gap < 100 then 100 - gap else 0
  }

  method SubsequenceScore(target: string, query: string) returns (score: Option<nat>)
    ensures score.None? <==> !IsSubsequence(query, target)
    ensures score.Some? ==> exists at: seq<nat> ::
            Embeds(at, query, target, 0) && score.value == ScoreOfGap(Skipped(at, 0))
    ensures forall at: seq<nat> ::
              score.Some? && Embeds(at, query, target, 0) ==> ScoreOfGap(Skipped(at, 0)) <= score.value
    ensures score == Score(target, query)
  {
    GreedyDecides(target, query);
    var targetIndex: nat, gap: nat := 0, 0;
    for i := 0 to |query|
      invariant targetIndex <= |target|
      invariant var rest := GreedyGap(target, targetIndex, query[i..]);
                GreedyGap(target, 0, query) == if rest.None? then None else Some(gap + rest.value)
    {
      var found := IndexOf(target, query[i], targetIndex);
      assert query[i..][1..] == query[i + 1..];
      if found.None? {
        return None;
      }
      gap := gap + (found.value - targetIndex);
      targetIndex := found.value + 1;
    }
    score := Some(if gap < 100 then 100 - gap else 0);
  }

  /** subsequenceScore as a function of its arguments. */
  function Score(target: string, query: string): (score: Option<nat>)
    ensures score.Some? ==> score.value <= 100
  {
    var gap := GreedyGap(target, 0, query);
    if gap.None? then None else Some(ScoreOfGap(gap.value))
  }

  // ---- The greedy matcher is optimal -------------------------------------------------------

  /** The greedy places, when there are any. */
  lemma {:induction false} GreedyEmbeds(target: string, from: nat, query: string) returns (at: seq<nat>)
    requires from <= |target| && GreedyGap(target, from, query).Some?
    ensures Embeds(at, query, target, from) && Skipped(at, from) == GreedyGap(target, from, query).value
    decreases |query|
  {
    if query == "" {
      at := [];
    } else {
      var found := IndexOf(target, query[0], from).value;
      var rest := GreedyEmbeds(target, found + 1, query[1..]);
      at := [found] + rest;
      assert at[1..] == rest;
      assert forall i | 0 < i < |at| :: at[i] == rest[i - 1] && query[i] == query[1..][i - 1];
    }
  }

  /** No embedding skips fewer characters than the greedy one, which exists whenever any does. */
  lemma {:induction false} GreedyIsMinimal(target: string, from: nat, query: string, at: seq<nat>)
    requires from <= |target| && Embeds(at, query, target, from)
    ensures GreedyGap(target, from, query).Some? && GreedyGap(target, from, query).value <= Skipped(at, from)
    decreases |query|
  {
    if query != "" {
      var found := IndexOf(target, query[0], from);
      assert found.Some? && found.value <= at[0];
      assert forall i | 0 <= i < |at| - 1 :: at[1..][i] == at[i + 1] && query[1..][i] == query[i + 1];
      assert Embeds(at[1..], query[1..], target, found.value + 1);
      GreedyIsMinimal(target, found.value + 1, query[1..], at[1..]);
      SkippedTelescopes(at[1..], found.value + 1);
      SkippedTelescopes(at[1..], at[0] + 1);
    }
  }

  /** The score is undefined exactly off the subsequences, and otherwise the best of any embedding. */
  lemma GreedyDecides(target: string, query: string)
    ensures Score(target, query).Some? <==> IsSubsequence(query, target)
    ensures Score(target, query).Some? ==>
              exists at: seq<nat> :: Embeds(at, query, target, 0)
                  && Score(target, query).value == ScoreOfGap(Skipped(at, 0))
    ensures forall at: seq<nat> :: Embeds(at, query, target, 0) ==>
              Score(target, query).Some? && ScoreOfGap(Skipped(at, 0)) <= Score(target, query).value
  {
    if Score(target, query).Some? {
      var at := GreedyEmbeds(target, 0, query);
    }
    forall at: seq<nat> | Embeds(at, query, target, 0)
      ensures Score(target, query).Some? && ScoreOfGap(Skipped(at, 0)) <= Score(target, query).value
    {
      GreedyIsMinimal(target, 0, query, at);
    }
  }

  /** A text that occurs in the target is a subsequence of it. */
  lemma OccurrenceIsSubsequence(query: string, target: string)
    requires Includes(target, query)
    ensures IsSubsequence(query, target)
  {
    var start :| 0 <= start <= |target| && OccursAt(target, query, start);
    var at: seq<nat> := seq(|query|, i => start + i);
    assert forall i | 0 <= i < |query| :: target[at[i]] == target[start..start + |query|][i];
    assert Embeds(at, query, target, 0);
  }
}

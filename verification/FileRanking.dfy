/** Scoring and ranking of "@" file candidates (control-plane/src/workspaces/file-reference.ts:390-441, 457-463). */
module FileRanking {
  import opened Prelude
  import opened Text
  import Sorting
  import SubsequenceMatch

  datatype Kind = Directory | File

  datatype Candidate = Candidate(path: string, kind: Kind)

  datatype Ranked = Ranked(candidate: Candidate, score: nat)

  // ---- Scores ------------------------------------------------------------------------------

  /** `path.slice(path.lastIndexOf("/") + 1)` */
  function NameOf(path: string): string
  {
    var slash := LastIndexOf(path, "/", |path|);
    if slash.Some? then path[slash.value + 1..] else path
  }

  /** The name is what follows the path's last slash. */
  lemma NameIsLastPart(path: string)
    ensures forall i | 0 <= i < |NameOf(path)| :: NameOf(path)[i] != '/'
    ensures NameOf(path) == path || exists parent: string :: path == parent + "/" + NameOf(path)
  {
    var slash := LastIndexOf(path, "/", |path|);
    var from := if slash.Some? then slash.value + 1 else 0;
    forall i | from <= i < |path| ensures path[i] != '/' {
      assert !OccursAt(path, "/", i);
      assert path[i..i + 1] == [path[i]];
    }
    if slash.Some? {
      assert path[slash.value..slash.value + 1] == "/";
      assert path == path[..slash.value] + "/" + NameOf(path);
    }
  }

  function DirectoryBonus(kind: Kind): nat
  {
    if kind == Directory then 25 else 0
  }

  function ScoreCandidate(candidate: Candidate, query: string): Option<nat>
  {
    if query == "" then Some(0) else
    var path, needle := Lower(candidate.path), Lower(query);
    var name, bonus := NameOf(path), DirectoryBonus(candidate.kind);
    if name == needle then Some(1000 + bonus)
    else if StartsWith(name, needle) then Some(900 + bonus)
    else if Includes(name, needle) then Some(700 + bonus)
    else if Includes(path, needle) then Some(500 + bonus)
    else
      var subsequence := SubsequenceMatch.Score(path, needle);
      if subsequence.None? then None else Some(300 + subsequence.value + bonus)
  }

  /** How well a candidate matches, best first; each kind of match includes the ones above it. */
  ghost function Band(candidate: Candidate, query: string): nat
  {
    var path, needle := Lower(candidate.path), Lower(query);
    if NameOf(path) == needle then 0
    else if StartsWith(NameOf(path), needle) then 1
    else if Includes(NameOf(path), needle) then 2
    else if Includes(path, needle) then 3
    else 4
  }

  /** A candidate is offered exactly when the query is a subsequence of its path, case aside. */
  lemma OfferedExactlySubsequences(candidate: Candidate, query: string)
    ensures ScoreCandidate(candidate, query).Some?
       <==> SubsequenceMatch.IsSubsequence(Lower(query), Lower(candidate.path))
  {
    var path, needle := Lower(candidate.path), Lower(query);
    SubsequenceMatch.GreedyDecides(path, needle);
    if query == "" {
      assert SubsequenceMatch.Embeds([], needle, path, 0);
    } else if NameOf(path) == needle || StartsWith(NameOf(path), needle) || Includes(NameOf(path), needle) {
      NameIncluded(path, needle);
      SubsequenceMatch.OccurrenceIsSubsequence(needle, path);
    } else if Includes(path, needle) {
      SubsequenceMatch.OccurrenceIsSubsequence(needle, path);
    }
  }

  lemma SuffixSlice(s: string, from: nat, a: nat, b: nat)
    requires from <= |s| && a <= b <= |s| - from
    ensures s[from..][a..b] == s[from + a..from + b]
  {
  }

  lemma NameIncluded(path: string, needle: string)
    requires NameOf(path) == needle || StartsWith(NameOf(path), needle) || Includes(NameOf(path), needle)
    ensures Includes(path, needle)
  {
    var name := NameOf(path);
    var from: nat := |path| - |name|;
    assert path[from..] == name;
    if name == needle || StartsWith(name, needle) {
      assert name[0..|needle|] == needle;
      SuffixSlice(path, from, 0, |needle|);
      assert OccursAt(path, needle, from);
    } else {
      var at: nat :| at <= |name| && OccursAt(name, needle, at);
      SuffixSlice(path, from, at, at + |needle|);
      assert OccursAt(path, needle, from + at);
    }
  }

  /** A better band outscores a worse one whatever the kinds; in one band of literal matches a directory wins. */
  lemma BandsNeverOverlap(better: Candidate, worse: Candidate, query: string)
    requires query != ""
    requires ScoreCandidate(better, query).Some? && ScoreCandidate(worse, query).Some?
    ensures Band(better, query) < Band(worse, query) ==>
              ScoreCandidate(better, query).value > ScoreCandidate(worse, query).value
    ensures Band(better, query) == Band(worse, query) < 4 ==>
              (ScoreCandidate(better, query).value > ScoreCandidate(worse, query).value
               <==> better.kind == Directory && worse.kind == File)
  {
  }

  /** Among candidates of one kind that only match as subsequences, the one that skips less scores higher. */
  lemma CloserMatchesWin(closer: Candidate, other: Candidate, query: string)
    requires query != "" && closer.kind == other.kind && Band(closer, query) == Band(other, query) == 4
    requires var needle := Lower(query);
             var near, far := SubsequenceMatch.GreedyGap(Lower(closer.path), 0, needle),
                              SubsequenceMatch.GreedyGap(Lower(other.path), 0, needle);
             near.Some? && far.Some? && 0 <= near.value < far.value && near.value < 100
    ensures ScoreCandidate(closer, query).Some? && ScoreCandidate(other, query).Some?
    ensures ScoreCandidate(closer, query).value > ScoreCandidate(other, query).value
  {
  }

  // ---- The order ---------------------------------------------------------------------------

  function KindRank(kind: Kind): nat
  {
    if kind == Directory then 0 else 1
  }

  /** The comparator rankCandidates sorts with. */
  function Compare(query: string, left: Ranked, right: Ranked): int
  {
    var byScore := right.score - left.score;
    if byScore != 0 then byScore else
    var byKind := KindRank(left.candidate.kind) - KindRank(right.candidate.kind);
    if byKind != 0 then byKind else
    var byLength := if query == "" then 0 else |left.candidate.path| - |right.candidate.path|;
    if byLength != 0 then byLength else
    CompareText(left.candidate.path, right.candidate.path)
  }

  /** What should come first: the higher score, then directories, then shorter paths, then text order. */
  predicate Better(query: string, x: Ranked, y: Ranked)
  {
    || x.score > y.score
    || (x.score == y.score && x.candidate.kind == Directory && y.candidate.kind == File)
    || (x.score == y.score && x.candidate.kind == y.candidate.kind
        && query != "" && |x.candidate.path| < |y.candidate.path|)
    || (x.score == y.score && x.candidate.kind == y.candidate.kind
        && (query == "" || |x.candidate.path| == |y.candidate.path|)
        && ComesBefore(x.candidate.path, y.candidate.path))
  }

  lemma ComparePutsTheBetterFirst(query: string, x: Ranked, y: Ranked)
    ensures Compare(query, x, y) < 0 <==> Better(query, x, y)
  {
    TextOrderIsFirstDifference(x.candidate.path, y.candidate.path);
  }

  function Order(query: string): Sorting.Comparator<Ranked>
  {
    (left, right) => Compare(query, left, right)
  }

  /** The comparator is a total order: ties are the same candidate, so no sort has a choice to make. */
  lemma CompareIsTotalOrder(query: string)
    ensures Sorting.TotalOrder(Order(query))
  {
    var order := Order(query);
    forall x, y, z
      ensures order(x, y) == -order(y, x)
      ensures order(x, y) == 0 <==> x == y
      ensures order(x, y) <= 0 && order(y, z) <= 0 ==> order(x, z) <= 0
    {
      CompareOrders(query, x, y, z);
    }
  }

  lemma CompareOrders(query: string, x: Ranked, y: Ranked, z: Ranked)
    ensures Compare(query, x, y) == -Compare(query, y, x)
    ensures Compare(query, x, y) == 0 <==> x == y
    ensures Compare(query, x, y) <= 0 && Compare(query, y, z) <= 0 ==> Compare(query, x, z) <= 0
  {
    TextOrder(x.candidate.path, y.candidate.path, z.candidate.path);
    TextOrder(y.candidate.path, x.candidate.path, z.candidate.path);
  }

  // ---- The result ----------------------------------------------------------------------------

  function Sort(query: string, s: seq<Ranked>): (r: seq<Ranked>)
    ensures multiset(r) == multiset(s)
  {
    Sorting.Sort(Order(query), s)
  }

  function Scored(candidates: seq<Candidate>, query: string): seq<Ranked>
  {
    if candidates == [] then [] else
    var last := candidates[|candidates| - 1];
    var score := ScoreCandidate(last, query);
    Scored(candidates[..|candidates| - 1], query) + if score.Some? then [Ranked(last, score.value)] else []
  }

  function CandidatesOf(ranked: seq<Ranked>): (r: seq<Candidate>)
    ensures |r| == |ranked| && forall i | 0 <= i < |r| :: r[i] == ranked[i].candidate
  {
    seq(|ranked|, i requires 0 <= i < |ranked| => ranked[i].candidate)
  }

  function Take<T>(s: seq<T>, limit: nat): seq<T>
  {
    if |s| <= limit then s else s[..limit]
  }

  function RankCandidates(candidates: seq<Candidate>, query: string, limit: nat): seq<Candidate>
  {
    CandidatesOf(Take(Sort(query, Scored(candidates, query)), limit))
  }

  /** rankCandidates: the scoring loop, the sort and the cut. */
  method Rank(candidates: seq<Candidate>, query: string, limit: nat) returns (r: seq<Candidate>)
    ensures r == RankCandidates(candidates, query, limit)
  {
    var ranked: seq<Ranked> := [];
    for i := 0 to |candidates|
      invariant ranked == Scored(candidates[..i], query)
    {
      assert candidates[..i + 1][..i] == candidates[..i];
      var score := ScoreCandidate(candidates[i], query);
      if score.Some? {
        ranked := ranked + [Ranked(candidates[i], score.value)];
      }
    }
    assert candidates[..|candidates|] == candidates;
    ranked := Sort(query, ranked);
    r := CandidatesOf(Take(ranked, limit));
  }

  // ---- The result is the unique best -------------------------------------------------------

  /** How often a scored candidate appears among the scored: as often as the candidate, if it matches. */
  lemma {:induction false} ScoredCount(candidates: seq<Candidate>, query: string, x: Ranked)
    ensures multiset(Scored(candidates, query))[x] ==
            if ScoreCandidate(x.candidate, query) == Some(x.score) then multiset(candidates)[x.candidate] else 0
  {
    if candidates != [] {
      var init := candidates[..|candidates| - 1];
      assert candidates == init + [candidates[|candidates| - 1]];
      ScoredCount(init, query, x);
    }
  }

  /** The same candidates in any order rank the same. */
  lemma RankIgnoresOrder(candidates: seq<Candidate>, shuffled: seq<Candidate>, query: string, limit: nat)
    requires multiset(candidates) == multiset(shuffled)
    ensures RankCandidates(candidates, query, limit) == RankCandidates(shuffled, query, limit)
  {
    var s, t := Scored(candidates, query), Scored(shuffled, query);
    forall x: Ranked ensures multiset(s)[x] == multiset(t)[x] {
      ScoredCount(candidates, query, x);
      ScoredCount(shuffled, query, x);
    }
    assert multiset(s) == multiset(t);
    CompareIsTotalOrder(query);
    Sorting.SortSorts(Order(query), s);
    Sorting.SortSorts(Order(query), t);
    Sorting.SortIsUnique(Order(query), Sort(query, s), Sort(query, t));
  }

  /** `x` is at least as good as `y` for this query; both match. */
  predicate AtLeastAsGood(query: string, x: Candidate, y: Candidate)
    requires ScoreCandidate(x, query).Some? && ScoreCandidate(y, query).Some?
  {
    Compare(query, Ranked(x, ScoreCandidate(x, query).value), Ranked(y, ScoreCandidate(y, query).value)) <= 0
  }

  lemma ScoresAreReal(candidates: seq<Candidate>, query: string, sorted: seq<Ranked>)
    requires multiset(sorted) == multiset(Scored(candidates, query))
    ensures forall i | 0 <= i < |sorted| :: ScoreCandidate(sorted[i].candidate, query) == Some(sorted[i].score)
  {
    forall i | 0 <= i < |sorted| ensures ScoreCandidate(sorted[i].candidate, query) == Some(sorted[i].score) {
      assert sorted[i] in multiset(sorted);
      ScoredCount(candidates, query, sorted[i]);
    }
  }

  lemma {:induction false} CandidateCount(query: string, ranked: seq<Ranked>, c: Candidate)
    requires forall i | 0 <= i < |ranked| :: ScoreCandidate(ranked[i].candidate, query) == Some(ranked[i].score)
    ensures multiset(CandidatesOf(ranked))[c] ==
            match ScoreCandidate(c, query)
            case None => 0
            case Some(score) => multiset(ranked)[Ranked(c, score)]
  {
    if ranked != [] {
      var init, last := ranked[..|ranked| - 1], ranked[|ranked| - 1];
      CandidateCount(query, init, c);
      assert ranked == init + [last];
      assert CandidatesOf(ranked) == CandidatesOf(init) + [last.candidate];
    }
  }

  /** Everything ranked, best first; the result is its first `limit` elements. */
  function FullRanking(candidates: seq<Candidate>, query: string): seq<Candidate>
  {
    CandidatesOf(Sort(query, Scored(candidates, query)))
  }

  /** `r` holds exactly the matching candidates, as often as they were given. */
  ghost predicate IsTheMatches(r: seq<Candidate>, candidates: seq<Candidate>, query: string)
  {
    forall c :: multiset(r)[c] == if ScoreCandidate(c, query).Some? then multiset(candidates)[c] else 0
  }

  ghost predicate BestFirst(r: seq<Candidate>, query: string)
  {
    forall i, j | 0 <= i < j < |r| ::
      && ScoreCandidate(r[i], query).Some? && ScoreCandidate(r[j], query).Some?
      && AtLeastAsGood(query, r[i], r[j])
  }

  lemma FullRankingIsTheMatches(candidates: seq<Candidate>, query: string)
    ensures IsTheMatches(FullRanking(candidates, query), candidates, query)
  {
    var sorted := Sort(query, Scored(candidates, query));
    ScoresAreReal(candidates, query, sorted);
    forall c
      ensures multiset(CandidatesOf(sorted))[c] == if ScoreCandidate(c, query).Some? then multiset(candidates)[c] else 0
    {
      CandidateCount(query, sorted, c);
      if ScoreCandidate(c, query).Some? {
        ScoredCount(candidates, query, Ranked(c, ScoreCandidate(c, query).value));
      }
    }
  }

  lemma FullRankingIsSorted(candidates: seq<Candidate>, query: string)
    ensures BestFirst(FullRanking(candidates, query), query)
  {
    var sorted := Sort(query, Scored(candidates, query));
    CompareIsTotalOrder(query);
    Sorting.SortSorts(Order(query), Scored(candidates, query));
    ScoresAreReal(candidates, query, sorted);
    var r := CandidatesOf(sorted);
    forall i, j | 0 <= i < j < |r|
      ensures ScoreCandidate(r[i], query).Some? && ScoreCandidate(r[j], query).Some?
      ensures AtLeastAsGood(query, r[i], r[j])
    {
      assert Order(query)(sorted[i], sorted[j]) <= 0;
    }
  }

  lemma RankIsPrefix(candidates: seq<Candidate>, query: string, limit: nat)
    ensures RankCandidates(candidates, query, limit) == Take(FullRanking(candidates, query), limit)
  {
  }

  /**
   * The result is the best `limit` matches, best first: it is cut from an ordering of all the
   * matches, holds every one when they fit, and leaves out only what is no better than what it holds.
   */
  lemma RankIsBest(candidates: seq<Candidate>, query: string, limit: nat) returns (left: seq<Candidate>)
    ensures IsTheMatches(RankCandidates(candidates, query, limit) + left, candidates, query)
    ensures BestFirst(RankCandidates(candidates, query, limit) + left, query)
    ensures |RankCandidates(candidates, query, limit)| <= limit
    ensures |RankCandidates(candidates, query, limit)| < limit ==> left == []
  {
    left := LeftOut(candidates, query, limit);
    FullRankingIsTheMatches(candidates, query);
    FullRankingIsSorted(candidates, query);
  }

  lemma LeftOut(candidates: seq<Candidate>, query: string, limit: nat) returns (left: seq<Candidate>)
    ensures RankCandidates(candidates, query, limit) + left == FullRanking(candidates, query)
    ensures |RankCandidates(candidates, query, limit)| <= limit
    ensures |RankCandidates(candidates, query, limit)| < limit ==> left == []
  {
    RankIsPrefix(candidates, query, limit);
    left := FullRanking(candidates, query)[|RankCandidates(candidates, query, limit)|..];
  }

  /** In every result a better kind of match comes before a worse one. */
  lemma RankOrdersBands(candidates: seq<Candidate>, query: string, limit: nat, i: nat, j: nat)
    requires query != "" && i < j < |RankCandidates(candidates, query, limit)|
    ensures Band(RankCandidates(candidates, query, limit)[i], query)
         <= Band(RankCandidates(candidates, query, limit)[j], query)
  {
    RankIsPrefix(candidates, query, limit);
    FullRankingIsSorted(candidates, query);
    var full := FullRanking(candidates, query);
    assert AtLeastAsGood(query, full[i], full[j]);
    BandsNeverOverlap(full[j], full[i], query);
  }
}

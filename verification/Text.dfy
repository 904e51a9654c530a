/** JavaScript string operations, on one code unit per character and ASCII case. */
module Text {
  import opened Prelude

  /** `s.indexOf(c, from)`: the first position of `c` at or after `from`. */
  function IndexOf(s: string, c: char, from: nat): (r: Option<nat>)
    requires from <= |s|
    ensures r.Some? ==> from <= r.value < |s| && s[r.value] == c && forall i | from <= i < r.value :: s[i] != c
    ensures r.None? ==> forall i | from <= i < |s| :: s[i] != c
    decreases |s| - from
  {
    if from == |s| then None
    else if s[from] == c then Some(from)
    else IndexOf(s, c, from + 1)
  }

  lemma IndexOfIs(s: string, c: char, from: nat, at: nat)
    requires from <= at < |s| && s[at] == c && forall i | from <= i < at :: s[i] != c
    ensures IndexOf(s, c, from) == Some(at)
  {
    var found := IndexOf(s, c, from);
    assert found.Some?;
  }

  function LowerChar(c: char): char
  {
    if 'A' <= c <= 'Z' then c + ('a' - 'A') else c
  }

  /** `s.toLowerCase()` */
  function Lower(s: string): (r: string)
    ensures |r| == |s|
  {
    seq(|s|, i requires 0 <= i < |s| => LowerChar(s[i]))
  }

  /** `part` occurs in `s` at `at`. */
  predicate OccursAt(s: string, part: string, at: nat)
  {
    at + |part| <= |s| && s[at..at + |part|] == part
  }

  /** `s.includes(part)` */
  predicate Includes(s: string, part: string)
  {
    exists at | 0 <= at <= |s| :: OccursAt(s, part, at)
  }

  predicate StartsWith(s: string, part: string)
  {
    OccursAt(s, part, 0)
  }

  predicate EndsWith(s: string, part: string)
  {
    |part| <= |s| && OccursAt(s, part, |s| - |part|)
  }

  /** `s.lastIndexOf(part)` among the positions before `below`. */
  function LastIndexOf(s: string, part: string, below: nat): (r: Option<nat>)
    requires below <= |s| + 1
    ensures r.Some? ==> r.value < below && OccursAt(s, part, r.value)
                        && forall i | r.value < i < below :: !OccursAt(s, part, i)
    ensures r.None? ==> forall i | 0 <= i < below :: !OccursAt(s, part, i)
  {
    if below == 0 then None
    else if OccursAt(s, part, below - 1) then Some(below - 1)
    else LastIndexOf(s, part, below - 1)
  }

  predicate IsSpace(c: char)
  {
    c in {' ', '\t', '\n', '\r'}
  }

  /** `s.trim()` on ASCII white space. */
  function Trim(s: string): string
  {
    if s == "" then ""
    else if IsSpace(s[0]) then Trim(s[1..])
    else if IsSpace(s[|s| - 1]) then Trim(s[..|s| - 1])
    else s
  }

  predicate AllSpace(s: string)
  {
    forall i | 0 <= i < |s| :: IsSpace(s[i])
  }

  lemma JoinsFour(a: string, b: string, c: string, d: string)
    ensures a + (b + c + d) == (a + b) + c + d
    ensures (a + b + c) + d == a + b + (c + d)
  {
  }

  /** Trimming takes the white space off both ends, and nothing else. */
  lemma {:induction false} TrimTakesTheEnds(s: string) returns (before: string, after: string)
    ensures s == before + Trim(s) + after && AllSpace(before) && AllSpace(after)
    ensures Trim(s) != "" ==> !IsSpace(Trim(s)[0]) && !IsSpace(Trim(s)[|Trim(s)| - 1])
    decreases |s|
  {
    if s == "" || !(IsSpace(s[0]) || IsSpace(s[|s| - 1])) {
      before, after := "", "";
      assert s == before + s + after;
    } else if IsSpace(s[0]) {
      var first, rest := [s[0]], s[1..];
      before, after := TrimTakesTheEnds(rest);
      JoinsFour(first, before, Trim(rest), after);
      assert s == first + rest;
      before := first + before;
    } else {
      var front, last := s[..|s| - 1], [s[|s| - 1]];
      before, after := TrimTakesTheEnds(front);
      JoinsFour(before, Trim(front), after, last);
      assert s == front + last;
      after := after + last;
    }
  }

  /** Order of JavaScript string comparison: by code units, a prefix first. */
  function CompareText(left: string, right: string): int
  {
    if left == right then 0
    else if left == "" then -1
    else if right == "" then 1
    else if left[0] != right[0] then (if left[0] < right[0] then -1 else 1)
    else CompareText(left[1..], right[1..])
  }

  /** The usual reading: at the first difference the smaller unit comes first, and a prefix comes first. */
  predicate ComesBefore(left: string, right: string)
  {
    exists k | 0 <= k <= |left| :: DiffersAt(left, right, k)
  }

  predicate DiffersAt(left: string, right: string, k: nat)
  {
    && k <= |left| && k < |right| && left[..k] == right[..k]
    && (k == |left| || left[k] < right[k])
  }

  lemma {:induction false} TextOrderIsFirstDifference(left: string, right: string)
    ensures CompareText(left, right) < 0 <==> ComesBefore(left, right)
  {
    if left == right {
      forall k | 0 <= k <= |left| ensures !DiffersAt(left, right, k) {
      }
    } else if left == "" {
      assert DiffersAt(left, right, 0);
    } else if right != "" {
      if left[0] != right[0] {
        forall k | 0 < k <= |left| ensures !DiffersAt(left, right, k) {
          if k < |right| {
            assert left[..k][0] != right[..k][0];
          }
        }
        assert DiffersAt(left, right, 0) <==> left[0] < right[0];
      } else {
        TailsDiffer(left, right);
        TextOrderIsFirstDifference(left[1..], right[1..]);
      }
    }
  }

  lemma TailsDiffer(left: string, right: string)
    requires left != "" && right != "" && left[0] == right[0]
    ensures ComesBefore(left, right) <==> ComesBefore(left[1..], right[1..])
  {
    var l, r := left[1..], right[1..];
    if ComesBefore(left, right) {
      var k :| 0 <= k <= |left| && DiffersAt(left, right, k);
      assert k > 0;
      assert l[..k - 1] == left[..k][1..] && r[..k - 1] == right[..k][1..];
      assert DiffersAt(l, r, k - 1);
    }
    if ComesBefore(l, r) {
      var k :| 0 <= k <= |l| && DiffersAt(l, r, k);
      assert left[..k + 1] == [left[0]] + l[..k] && right[..k + 1] == [right[0]] + r[..k];
      assert DiffersAt(left, right, k + 1);
    }
  }

  lemma {:induction false} TextOrder(x: string, y: string, z: string)
    ensures CompareText(x, y) == -CompareText(y, x)
    ensures CompareText(x, y) == 0 <==> x == y
    ensures CompareText(x, y) <= 0 && CompareText(y, z) <= 0 ==> CompareText(x, z) <= 0
  {
    if x != "" && y != "" && z != "" {
      assert x == [x[0]] + x[1..];
      assert y == [y[0]] + y[1..];
      assert z == [z[0]] + z[1..];
      TextOrder(x[1..], y[1..], z[1..]);
    } else if x != "" && y != "" {
      assert x == [x[0]] + x[1..];
      assert y == [y[0]] + y[1..];
      TextOrder(x[1..], y[1..], "");
    }
  }
}

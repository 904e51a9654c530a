/** Lists of names: `sort()` with no comparator, `new Set(...)` and duplicate-freeness. */
module SortedNames {
  import opened Text
  import Sorting

  predicate NoDuplicates<T(==)>(s: seq<T>)
  {
    forall i, j | 0 <= i < j < |s| :: s[i] != s[j]
  }

  function ToSet<T>(s: seq<T>): set<T>
  {
    set i | 0 <= i < |s| :: s[i]
  }

  lemma ToSetAppend<T>(s: seq<T>, x: T)
    ensures ToSet(s + [x]) == ToSet(s) + {x}
  {
    forall y ensures y in ToSet(s + [x]) <==> y in ToSet(s) + {x} {
      if y in ToSet(s) {
        var i :| 0 <= i < |s| && s[i] == y;
        assert (s + [x])[i] == y;
      }
      assert (s + [x])[|s|] == x;
    }
  }

  /** `[...new Set(s)]`: first occurrences, in order. */
  function Deduplicated<T(==)>(s: seq<T>): (r: seq<T>)
    ensures NoDuplicates(r) && ToSet(r) == ToSet(s)
  {
    if s == [] then [] else
    var init, last := s[..|s| - 1], s[|s| - 1];
    var sofar := Deduplicated(init);
    assert s == init + [last];
    ToSetAppend(init, last);
    ToSetAppend(sofar, last);
    if last in sofar then sofar else sofar + [last]
  }

  /** `s.sort()` */
  function Sort(s: seq<string>): seq<string>
  {
    Sorting.Sort(CompareText, s)
  }

  ghost predicate Sorted(s: seq<string>)
  {
    Sorting.Sorted(CompareText, s)
  }

  lemma TextIsTotalOrder()
    ensures Sorting.TotalOrder(CompareText)
  {
    forall x, y, z
      ensures CompareText(x, y) == -CompareText(y, x)
      ensures CompareText(x, y) == 0 <==> x == y
      ensures CompareText(x, y) <= 0 && CompareText(y, z) <= 0 ==> CompareText(x, z) <= 0
    {
      TextOrder(x, y, z);
    }
  }

  lemma {:induction false} CountOfDistinct<T>(s: seq<T>)
    ensures NoDuplicates(s) <==> forall x :: multiset(s)[x] <= 1
  {
    if s != [] {
      var init, last := s[..|s| - 1], s[|s| - 1];
      assert s == init + [last];
      CountOfDistinct(init);
      if NoDuplicates(s) {
        assert NoDuplicates(init);
        assert last !in init;
      } else if NoDuplicates(init) {
        var i :| 0 <= i < |init| && init[i] == last;
        assert init[i] in multiset(init);
        assert multiset(s)[last] == multiset(init)[last] + 1;
      } else {
        var x :| multiset(init)[x] > 1;
        assert multiset(s)[x] > 1;
      }
    }
  }

  /** Sorting orders the names, keeps them, and keeps them distinct. */
  lemma SortKeeps(s: seq<string>)
    ensures Sorted(Sort(s))
    ensures ToSet(Sort(s)) == ToSet(s)
    ensures NoDuplicates(s) ==> NoDuplicates(Sort(s))
  {
    TextIsTotalOrder();
    Sorting.SortSorts(CompareText, s);
    forall x ensures x in ToSet(Sort(s)) <==> x in ToSet(s) {
      assert x in Sort(s) <==> x in multiset(Sort(s));
      assert x in s <==> x in multiset(s);
    }
    CountOfDistinct(s);
    CountOfDistinct(Sort(s));
  }

  lemma {:induction false} DistinctSize<T>(s: seq<T>)
    ensures |ToSet(s)| <= |s|
    ensures NoDuplicates(s) <==> |ToSet(s)| == |s|
  {
    if s != [] {
      var init, last := s[..|s| - 1], s[|s| - 1];
      assert s == init + [last];
      ToSetAppend(init, last);
      DistinctSize(init);
      if NoDuplicates(s) {
        assert NoDuplicates(init);
        assert last !in ToSet(init);
      } else if NoDuplicates(init) {
        var i :| 0 <= i < |init| && init[i] == last;
        assert last in ToSet(init);
        assert ToSet(s) == ToSet(init);
      }
    }
  }
}

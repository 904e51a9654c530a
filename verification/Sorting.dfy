/**
 * `Array.prototype.sort` under a comparator that is a total order. The model sorts by insertion;
 * `SortIsUnique` says any other sort gives the same list.
 */
module Sorting {
  type Comparator<!T> = (T, T) -> int

  /** Ties are equal values, so a sort has no choice to make. */
  ghost predicate TotalOrder<T(!new)>(compare: Comparator<T>)
  {
    && (forall x, y :: compare(x, y) == -compare(y, x))
    && (forall x, y :: compare(x, y) == 0 <==> x == y)
    && (forall x, y, z :: compare(x, y) <= 0 && compare(y, z) <= 0 ==> compare(x, z) <= 0)
  }

  ghost predicate Sorted<T>(compare: Comparator<T>, s: seq<T>)
  {
    forall i, j | 0 <= i < j < |s| :: compare(s[i], s[j]) <= 0
  }

  function Insert<T>(compare: Comparator<T>, x: T, s: seq<T>): (r: seq<T>)
    ensures multiset(r) == multiset(s) + multiset{x}
  {
    if s == [] || compare(x, s[0]) < 0 then [x] + s
    else
      assert s == [s[0]] + s[1..];
      [s[0]] + Insert(compare, x, s[1..])
  }

  function Sort<T>(compare: Comparator<T>, s: seq<T>): (r: seq<T>)
    ensures multiset(r) == multiset(s)
  {
    if s == [] then [] else
    assert s == [s[0]] + s[1..];
    Insert(compare, s[0], Sort(compare, s[1..]))
  }

  /** `x` comes no later than anything in `s`. */
  ghost predicate Leads<T>(compare: Comparator<T>, x: T, s: seq<T>)
  {
    forall i | 0 <= i < |s| :: compare(x, s[i]) <= 0
  }

  lemma {:induction false} LeadsInsert<T(!new)>(compare: Comparator<T>, head: T, x: T, s: seq<T>)
    requires TotalOrder(compare) && Leads(compare, head, s) && compare(head, x) <= 0
    ensures Leads(compare, head, Insert(compare, x, s))
  {
    if s != [] && compare(x, s[0]) >= 0 {
      LeadsInsert(compare, head, x, s[1..]);
    }
  }

  lemma {:induction false} InsertSorts<T(!new)>(compare: Comparator<T>, x: T, s: seq<T>)
    requires TotalOrder(compare) && Sorted(compare, s)
    ensures Sorted(compare, Insert(compare, x, s))
  {
    if s != [] {
      if compare(x, s[0]) < 0 {
        forall j | 0 <= j < |s| ensures compare(x, s[j]) <= 0 {
          assert compare(s[0], s[j]) <= 0;
        }
      } else {
        InsertSorts(compare, x, s[1..]);
        assert compare(s[0], x) <= 0;
        LeadsInsert(compare, s[0], x, s[1..]);
      }
    }
  }

  lemma {:induction false} SortSorts<T(!new)>(compare: Comparator<T>, s: seq<T>)
    requires TotalOrder(compare)
    ensures Sorted(compare, Sort(compare, s))
  {
    if s != [] {
      SortSorts(compare, s[1..]);
      InsertSorts(compare, s[0], Sort(compare, s[1..]));
    }
  }

  lemma SplitHead<T(!new)>(compare: Comparator<T>, s: seq<T>)
    requires Sorted(compare, s) && s != []
    ensures Sorted(compare, s[1..]) && multiset(s[1..]) == multiset(s) - multiset{s[0]}
  {
    assert s == [s[0]] + s[1..];
  }

  lemma SortedHead<T(!new)>(compare: Comparator<T>, s: seq<T>, x: T)
    requires TotalOrder(compare) && Sorted(compare, s) && x in multiset(s)
    ensures compare(s[0], x) <= 0
  {
    var i :| 0 <= i < |s| && s[i] == x;
    assert compare(x, x) == 0;
  }

  lemma SameLength<T>(s: seq<T>, t: seq<T>)
    requires multiset(s) == multiset(t)
    ensures |s| == |t|
  {
    assert |s| == |multiset(s)| == |multiset(t)| == |t|;
  }

  lemma SameCons<T>(s: seq<T>, t: seq<T>)
    requires s != [] && t != [] && s[0] == t[0] && s[1..] == t[1..]
    ensures s == t
  {
    assert s == [s[0]] + s[1..];
    assert t == [t[0]] + t[1..];
  }

  lemma SameHead<T(!new)>(compare: Comparator<T>, s: seq<T>, t: seq<T>)
    requires TotalOrder(compare) && Sorted(compare, s) && Sorted(compare, t)
    requires multiset(s) == multiset(t) && s != [] && t != []
    ensures s[0] == t[0]
  {
    assert s[0] in multiset(s) && t[0] in multiset(t);
    SortedHead(compare, s, t[0]);
    SortedHead(compare, t, s[0]);
  }

  /** Two sorted lists of the same elements are the same list. */
  lemma {:induction false} SortIsUnique<T(!new)>(compare: Comparator<T>, s: seq<T>, t: seq<T>)
    requires TotalOrder(compare) && Sorted(compare, s) && Sorted(compare, t) && multiset(s) == multiset(t)
    ensures s == t
  {
    SameLength(s, t);
    if s != [] {
      SameHead(compare, s, t);
      SplitHead(compare, s);
      SplitHead(compare, t);
      SortIsUnique(compare, s[1..], t[1..]);
      SameCons(s, t);
    }
  }
}

/** The stable sort of Python's `sorted`, over any order, and the order of strings. */
module Sorting {
  import opened Sequences

  /** Inserts after every element that does not come later. */
  function Insert<T>(s: seq<T>, e: T, leq: (T, T) -> bool): seq<T> {
    if s == [] || leq(s[|s| - 1], e) then s + [e]
    else Insert(s[..|s| - 1], e, leq) + [s[|s| - 1]]
  }

  function Sort<T>(s: seq<T>, leq: (T, T) -> bool): seq<T> {
    if s == [] then [] else Insert(Sort(s[..|s| - 1], leq), s[|s| - 1], leq)
  }

  ghost predicate Sorted<T>(s: seq<T>, leq: (T, T) -> bool) {
    forall i, j :: 0 <= i < j < |s| ==> leq(s[i], s[j])
  }

  ghost predicate Ordering<T(!new)>(leq: (T, T) -> bool) {
    && (forall a: T, b: T :: leq(a, b) || leq(b, a))
    && (forall a: T, b: T, c: T :: leq(a, b) && leq(b, c) ==> leq(a, c))
  }

  // ---- the same elements ----

  lemma {:induction false} InsertAdds<T>(s: seq<T>, e: T, leq: (T, T) -> bool)
    ensures multiset(Insert(s, e, leq)) == multiset(s) + multiset{e}
  {
    if s != [] && !leq(s[|s| - 1], e) {
      InsertAdds(s[..|s| - 1], e, leq);
      assert s == s[..|s| - 1] + [s[|s| - 1]];
    }
  }

  lemma InsertMember<T>(s: seq<T>, e: T, leq: (T, T) -> bool, x: T)
    ensures x in Insert(s, e, leq) <==> x in s || x == e
  {
    InsertAdds(s, e, leq);
    assert x in multiset(Insert(s, e, leq)) <==> x in multiset(s) + multiset{e};
  }

  lemma {:induction false} SortPermutes<T>(s: seq<T>, leq: (T, T) -> bool)
    ensures multiset(Sort(s, leq)) == multiset(s)
  {
    if s != [] {
      SortPermutes(s[..|s| - 1], leq);
      InsertAdds(Sort(s[..|s| - 1], leq), s[|s| - 1], leq);
      assert s == s[..|s| - 1] + [s[|s| - 1]];
    }
  }

  lemma SortMember<T>(s: seq<T>, leq: (T, T) -> bool, x: T)
    ensures x in Sort(s, leq) <==> x in s
  {
    SortPermutes(s, leq);
    assert x in multiset(Sort(s, leq)) <==> x in multiset(s);
  }

  // ---- in order ----

  lemma SortedSnoc<T>(s: seq<T>, last: T, leq: (T, T) -> bool)
    requires Sorted(s, leq) && forall x <- s :: leq(x, last)
    ensures Sorted(s + [last], leq)
  {
    assert forall i :: 0 <= i < |s| ==> s[i] in s;
  }

  lemma {:induction false} InsertSorted<T(!new)>(s: seq<T>, e: T, leq: (T, T) -> bool)
    requires Ordering(leq) && Sorted(s, leq)
    ensures Sorted(Insert(s, e, leq), leq)
  {
    if s == [] || leq(s[|s| - 1], e) {
      forall x <- s ensures leq(x, e) {
        var i :| 0 <= i < |s| && s[i] == x;
        assert i == |s| - 1 || leq(s[i], s[|s| - 1]);
      }
      SortedSnoc(s, e, leq);
    } else {
      var init, last := s[..|s| - 1], s[|s| - 1];
      InsertSorted(init, e, leq);
      forall x <- Insert(init, e, leq) ensures leq(x, last) {
        InsertMember(init, e, leq, x);
      }
      SortedSnoc(Insert(init, e, leq), last, leq);
    }
  }

  lemma {:induction false} SortSorts<T(!new)>(s: seq<T>, leq: (T, T) -> bool)
    requires Ordering(leq)
    ensures Sorted(Sort(s, leq), leq)
  {
    if s != [] {
      SortSorts(s[..|s| - 1], leq);
      InsertSorted(Sort(s[..|s| - 1], leq), s[|s| - 1], leq);
    }
  }

  lemma {:induction false} SortIdentity<T>(s: seq<T>, leq: (T, T) -> bool)
    requires Sorted(s, leq)
    ensures Sort(s, leq) == s
  {
    if s != [] {
      var init, last := s[..|s| - 1], s[|s| - 1];
      SortIdentity(init, leq);
      assert s == init + [last];
      assert init == [] || leq(init[|init| - 1], last);
    }
  }

  // ---- stably ----

  lemma SwapOne<T>(a: seq<T>, x: seq<T>, y: seq<T>)
    requires x == [] || y == []
    ensures a + x + y == a + y + x
  {
  }

  lemma {:induction false} InsertStable<T>(s: seq<T>, e: T, leq: (T, T) -> bool, p: T -> bool)
    requires forall a: T, b: T :: p(a) && p(b) ==> leq(a, b)
    ensures Select(Insert(s, e, leq), p) == Select(s, p) + Select([e], p)
  {
    SelectAppend(s, [e], p);
    if s != [] && !leq(s[|s| - 1], e) {
      var init, last := s[..|s| - 1], s[|s| - 1];
      InsertStable(init, e, leq, p);
      SelectAppend(Insert(init, e, leq), [last], p);
      SelectAppend(init, [last], p);
      assert s == init + [last];
      SwapOne(Select(init, p), Select([e], p), Select([last], p));
    }
  }

  /** Elements of equal rank keep their order. */
  lemma {:induction false} SortStable<T>(s: seq<T>, leq: (T, T) -> bool, p: T -> bool)
    requires forall a: T, b: T :: p(a) && p(b) ==> leq(a, b)
    ensures Select(Sort(s, leq), p) == Select(s, p)
  {
    if s != [] {
      var init, last := s[..|s| - 1], s[|s| - 1];
      SortStable(init, leq, p);
      InsertStable(Sort(init, leq), last, leq, p);
      SelectAppend(init, [last], p);
      assert s == init + [last];
    }
  }

  // ---- distinct elements ----

  ghost predicate DistinctBy<T, K>(s: seq<T>, key: T -> K) {
    forall i, j :: 0 <= i < j < |s| ==> key(s[i]) != key(s[j])
  }

  lemma DistinctBySnoc<T, K>(s: seq<T>, last: T, key: T -> K)
    requires DistinctBy(s, key) && forall x <- s :: key(x) != key(last)
    ensures DistinctBy(s + [last], key)
  {
    assert forall i :: 0 <= i < |s| ==> s[i] in s;
  }

  lemma {:induction false} InsertKeepsDistinct<T, K>(s: seq<T>, e: T, leq: (T, T) -> bool, key: T -> K)
    requires DistinctBy(s, key) && forall x <- s :: key(x) != key(e)
    ensures DistinctBy(Insert(s, e, leq), key)
  {
    if s == [] || leq(s[|s| - 1], e) {
      DistinctBySnoc(s, e, key);
    } else {
      var init, last := s[..|s| - 1], s[|s| - 1];
      assert forall x <- init :: x in s;
      InsertKeepsDistinct(init, e, leq, key);
      forall x <- Insert(init, e, leq) ensures key(x) != key(last) {
        InsertMember(init, e, leq, x);
        assert last in s;
      }
      DistinctBySnoc(Insert(init, e, leq), last, key);
    }
  }

  lemma {:induction false} SortKeepsDistinct<T, K>(s: seq<T>, leq: (T, T) -> bool, key: T -> K)
    requires DistinctBy(s, key)
    ensures DistinctBy(Sort(s, leq), key)
  {
    if s != [] {
      var init, last := s[..|s| - 1], s[|s| - 1];
      SortKeepsDistinct(init, leq, key);
      forall x <- Sort(init, leq) ensures key(x) != key(last) {
        SortMember(init, leq, x);
        var i :| 0 <= i < |init| && init[i] == x;
        assert s[i] == x;
      }
      InsertKeepsDistinct(Sort(init, leq), last, leq, key);
    }
  }

  ghost predicate SameMembers<T(!new)>(a: seq<T>, b: seq<T>) {
    forall x :: x in a <==> x in b
  }

  lemma SameLast<T(!new)>(a: seq<T>, b: seq<T>, leq: (T, T) -> bool)
    requires Sorted(a, leq) && Sorted(b, leq) && SameMembers(a, b) && a != [] && b != []
    requires forall x: T, y: T :: leq(x, y) && leq(y, x) ==> x == y
    ensures a[|a| - 1] == b[|b| - 1]
  {
    assert a[|a| - 1] in a && b[|b| - 1] in b;
    LastIsLargest(a, leq, b[|b| - 1]);
    LastIsLargest(b, leq, a[|a| - 1]);
  }

  lemma SameInit<T(!new)>(a: seq<T>, b: seq<T>)
    requires SameMembers(a, b) && Distinct(a) && Distinct(b) && a != [] && b != [] && a[|a| - 1] == b[|b| - 1]
    ensures SameMembers(a[..|a| - 1], b[..|b| - 1])
  {
    var a', b' := a[..|a| - 1], b[..|b| - 1];
    forall x
      ensures x in a' <==> x in b'
    {
      InitMember(a, x);
      InitMember(b, x);
    }
  }

  /** Under an antisymmetric order, a set has one sorted list. */
  lemma {:induction false} SortedUnique<T(!new)>(a: seq<T>, b: seq<T>, leq: (T, T) -> bool)
    requires Sorted(a, leq) && Sorted(b, leq) && Distinct(a) && Distinct(b) && SameMembers(a, b)
    requires forall x: T, y: T :: leq(x, y) && leq(y, x) ==> x == y
    ensures a == b
    decreases |a|
  {
    assert a != [] ==> a[0] in b;
    assert b != [] ==> b[0] in a;
    if a != [] {
      SameLast(a, b, leq);
      SameInit(a, b);
      SortedUnique(a[..|a| - 1], b[..|b| - 1], leq);
      assert a == a[..|a| - 1] + [a[|a| - 1]];
    }
  }

  lemma LastIsLargest<T>(s: seq<T>, leq: (T, T) -> bool, x: T)
    requires Sorted(s, leq) && x in s
    ensures x == s[|s| - 1] || leq(x, s[|s| - 1])
  {
    var i :| 0 <= i < |s| && s[i] == x;
  }

  lemma InitMember<T>(s: seq<T>, x: T)
    requires s != [] && Distinct(s)
    ensures x in s[..|s| - 1] <==> x in s && x != s[|s| - 1]
  {
  }

  // ---- strings ----

  /** The order of strings by code points. */
  predicate StringLeq(a: string, b: string) {
    a == "" || (b != "" && (a[0] < b[0] || (a[0] == b[0] && StringLeq(a[1..], b[1..]))))
  }

  const BY_STRING := (a: string, b: string) => StringLeq(a, b)

  lemma {:induction false} StringTotal(a: string, b: string)
    ensures StringLeq(a, b) || StringLeq(b, a)
    ensures StringLeq(a, b) && StringLeq(b, a) ==> a == b
  {
    if a != "" && b != "" && a[0] == b[0] {
      StringTotal(a[1..], b[1..]);
      assert a == [a[0]] + a[1..] && b == [b[0]] + b[1..];
    }
  }

  lemma {:induction false} StringTransitive(a: string, b: string, c: string)
    requires StringLeq(a, b) && StringLeq(b, c)
    ensures StringLeq(a, c)
  {
    if a != "" && a[0] == b[0] == c[0] {
      StringTransitive(a[1..], b[1..], c[1..]);
    }
  }

  lemma StringsOrdered()
    ensures Ordering(BY_STRING)
  {
    forall a: string, b: string ensures BY_STRING(a, b) || BY_STRING(b, a) {
      StringTotal(a, b);
    }
    forall a: string, b: string, c: string | BY_STRING(a, b) && BY_STRING(b, c) ensures BY_STRING(a, c) {
      StringTransitive(a, b, c);
    }
  }
}

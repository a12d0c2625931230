/** Filters, concatenations and subsequences, as the collectors and builders use them. */
module Sequences {
  /** The elements of `s` that satisfy `p`, in order. */
  function Select<T>(s: seq<T>, p: T -> bool): seq<T> {
    if s == [] then [] else (if p(s[0]) then [s[0]] else []) + Select(s[1..], p)
  }

  /** The concatenation of f(x) over `s`. */
  function Flat<T, U>(s: seq<T>, f: T -> seq<U>): seq<U> {
    if s == [] then [] else f(s[0]) + Flat(s[1..], f)
  }

  ghost predicate Distinct<T>(s: seq<T>) {
    forall i, j :: 0 <= i < j < |s| ==> s[i] != s[j]
  }

  ghost predicate Subsequence<T>(a: seq<T>, b: seq<T>)
    decreases |b|
  {
    || a == []
    || (b != [] && (Subsequence(a, b[1..]) || (a[0] == b[0] && Subsequence(a[1..], b[1..]))))
  }

  lemma Assoc<T>(a: seq<T>, b: seq<T>, c: seq<T>)
    ensures a + b + c == a + (b + c)
  {}

  lemma {:induction false} SelectAppend<T>(a: seq<T>, b: seq<T>, p: T -> bool)
    ensures Select(a + b, p) == Select(a, p) + Select(b, p)
  {
    if a == [] {
      assert a + b == b;
    } else {
      assert (a + b)[1..] == a[1..] + b;
      SelectAppend(a[1..], b, p);
      Assoc(if p(a[0]) then [a[0]] else [], Select(a[1..], p), Select(b, p));
    }
  }

  lemma {:induction false} FlatAppend<T, U>(a: seq<T>, b: seq<T>, f: T -> seq<U>)
    ensures Flat(a + b, f) == Flat(a, f) + Flat(b, f)
  {
    if a == [] {
      assert a + b == b;
    } else {
      assert (a + b)[1..] == a[1..] + b;
      FlatAppend(a[1..], b, f);
      Assoc(f(a[0]), Flat(a[1..], f), Flat(b, f));
    }
  }

  lemma FlatSnoc<T, U>(s: seq<T>, k: nat, f: T -> seq<U>)
    requires k < |s|
    ensures Flat(s[..k + 1], f) == Flat(s[..k], f) + f(s[k])
  {
    assert s[..k + 1] == s[..k] + [s[k]];
    FlatAppend(s[..k], [s[k]], f);
    assert Flat([s[k]], f) == f(s[k]);
  }

  lemma {:induction false} SelectMembers<T>(s: seq<T>, p: T -> bool)
    ensures forall x :: x in Select(s, p) <==> x in s && p(x)
  {
    if s != [] {
      SelectMembers(s[1..], p);
      assert s == [s[0]] + s[1..];
    }
  }

  lemma {:induction false} SelectDistinct<T>(s: seq<T>, p: T -> bool)
    requires Distinct(s)
    ensures Distinct(Select(s, p))
  {
    if s != [] {
      SelectDistinct(s[1..], p);
      SelectMembers(s[1..], p);
      assert s[0] !in s[1..];
    }
  }

  lemma {:induction false} SelectAll<T>(s: seq<T>, p: T -> bool)
    requires forall x <- s :: p(x)
    ensures Select(s, p) == s
  {
    if s != [] {
      SelectAll(s[1..], p);
    }
  }

  lemma DistinctAppend<T>(a: seq<T>, b: seq<T>)
    requires Distinct(a) && Distinct(b) && forall x <- a :: x !in b
    ensures Distinct(a + b)
  {
    forall i, j | 0 <= i < j < |a + b| ensures (a + b)[i] != (a + b)[j] {
      if i < |a| && |a| <= j {
        assert (a + b)[i] in a && (a + b)[j] in b;
      }
    }
  }

  lemma {:induction false} SubsequenceDrop<T>(a: seq<T>, x: seq<T>, b: seq<T>)
    requires Subsequence(a, b)
    ensures Subsequence(a, x + b)
    decreases |x|
  {
    if x == [] {
      assert x + b == b;
    } else {
      assert (x + b)[1..] == x[1..] + b;
      SubsequenceDrop(a, x[1..], b);
    }
  }

  lemma {:induction false} SubsequenceKeep<T>(x: seq<T>, a: seq<T>, b: seq<T>)
    requires Subsequence(a, b)
    ensures Subsequence(x + a, x + b)
    decreases |x|
  {
    if x == [] {
      assert x + a == a && x + b == b;
    } else {
      assert (x + a)[1..] == x[1..] + a && (x + b)[1..] == x[1..] + b;
      SubsequenceKeep(x[1..], a, b);
    }
  }

  lemma {:induction false} SubsequenceShorter<T>(a: seq<T>, b: seq<T>)
    requires Subsequence(a, b)
    ensures |a| <= |b|
    decreases |b|
  {
    if a != [] {
      if Subsequence(a, b[1..]) {
        SubsequenceShorter(a, b[1..]);
      } else {
        SubsequenceShorter(a[1..], b[1..]);
      }
    }
  }

  /** Selecting before concatenating yields a subsequence. */
  lemma {:induction false} FlatSelect<T, U>(s: seq<T>, p: T -> bool, f: T -> seq<U>)
    ensures Subsequence(Flat(Select(s, p), f), Flat(s, f))
  {
    if s != [] {
      var here := if p(s[0]) then [s[0]] else [];
      FlatSelect(s[1..], p, f);
      FlatAppend(here, Select(s[1..], p), f);
      if p(s[0]) {
        assert Flat([s[0]], f) == f(s[0]) + Flat([], f) == f(s[0]);
        SubsequenceKeep(f(s[0]), Flat(Select(s[1..], p), f), Flat(s[1..], f));
      } else {
        assert Flat([], f) + Flat(Select(s[1..], p), f) == Flat(Select(s[1..], p), f);
        SubsequenceDrop(Flat(Select(s[1..], p), f), f(s[0]), Flat(s[1..], f));
      }
    }
  }

  /** Elements that contribute nothing can be filtered out. */
  lemma {:induction false} FlatSelectSame<T, U>(s: seq<T>, p: T -> bool, f: T -> seq<U>)
    requires forall x <- s :: p(x) || f(x) == []
    ensures Flat(Select(s, p), f) == Flat(s, f)
  {
    if s != [] {
      FlatSelectSame(s[1..], p, f);
      var here := if p(s[0]) then [s[0]] else [];
      FlatAppend(here, Select(s[1..], p), f);
      assert Flat(here, f) == f(s[0]);
    }
  }

  /** A filter and its complement share out the contributions. */
  lemma {:induction false} FlatPartition<T, U>(s: seq<T>, p: T -> bool, q: T -> bool, f: T -> seq<U>)
    requires forall x <- s :: q(x) <==> !p(x)
    ensures multiset(Flat(Select(s, p), f)) + multiset(Flat(Select(s, q), f)) == multiset(Flat(s, f))
  {
    if s != [] {
      FlatPartition(s[1..], p, q, f);
      var yes := if p(s[0]) then [s[0]] else [];
      var no := if q(s[0]) then [s[0]] else [];
      FlatAppend(yes, Select(s[1..], p), f);
      FlatAppend(no, Select(s[1..], q), f);
      assert Flat([s[0]], f) == f(s[0]);
    }
  }

  function Image<T, U>(s: seq<T>, f: T -> U): seq<U> {
    seq(|s|, k requires 0 <= k < |s| => f(s[k]))
  }

  lemma {:induction false} FlatImage<T, U, V>(s: seq<T>, g: T -> U, f: U -> seq<V>, fg: T -> seq<V>)
    requires forall x :: fg(x) == f(g(x))
    ensures Flat(Image(s, g), f) == Flat(s, fg)
  {
    if s != [] {
      FlatImage(s[1..], g, f, fg);
      assert Image(s, g)[1..] == Image(s[1..], g);
    }
  }

  lemma {:induction false} DistinctSize<T>(s: seq<T>)
    requires Distinct(s)
    ensures |set x | x in s| == |s|
  {
    if s != [] {
      DistinctSize(s[1..]);
      assert s[0] !in s[1..];
      assert (set x | x in s) == {s[0]} + (set x | x in s[1..]);
    } else {
      assert (set x | x in s) == {};
    }
  }

  lemma SameMembersSameLength<T>(a: seq<T>, b: seq<T>)
    requires Distinct(a) && Distinct(b) && forall x :: x in a <==> x in b
    ensures |a| == |b|
  {
    DistinctSize(a);
    DistinctSize(b);
    assert (set x | x in a) == (set x | x in b);
  }

  lemma {:induction false} FlatMembers<T, U>(s: seq<T>, f: T -> seq<U>, x: U)
    ensures x in Flat(s, f) <==> exists e :: e in s && x in f(e)
  {
    if s != [] {
      FlatMembers(s[1..], f, x);
      assert forall e :: e in s <==> e == s[0] || e in s[1..];
    }
  }

  // ---- keeping the first element for each id ----

  /** What an insertion-ordered dict holds after inserting each element whose id is new. */
  function FirstBy<T, I(==)>(s: seq<T>, id: T -> I): seq<T> {
    if s == [] then []
    else
      var before, last := FirstBy(s[..|s| - 1], id), s[|s| - 1];
      if id(last) in Image(before, id) then before else before + [last]
  }

  lemma {:induction false} FirstByIds<T, I>(s: seq<T>, id: T -> I)
    ensures forall x :: x in Image(FirstBy(s, id), id) <==> x in Image(s, id)
    ensures Distinct(Image(FirstBy(s, id), id))
    ensures forall x :: x in FirstBy(s, id) ==> x in s
  {
    if s != [] {
      var init, last := s[..|s| - 1], s[|s| - 1];
      FirstByIds(init, id);
      assert s == init + [last];
      assert Image(s, id) == Image(init, id) + [id(last)];
      assert Image(FirstBy(init, id) + [last], id) == Image(FirstBy(init, id), id) + [id(last)];
    }
  }

  lemma {:induction false} FirstByHas<T, I>(s: seq<T>, id: T -> I, y: I)
    ensures y in Image(FirstBy(s, id), id) <==> y in Image(s, id)
  {
    if s != [] {
      var init, last := s[..|s| - 1], s[|s| - 1];
      FirstByHas(init, id, y);
      assert Image(s, id) == Image(init, id) + [id(last)];
      assert Image(FirstBy(init, id) + [last], id) == Image(FirstBy(init, id), id) + [id(last)];
    }
  }

  /** No two different elements share an id. */
  ghost predicate ToldApart<T, I>(s: seq<T>, id: T -> I) {
    forall x <- s, y <- s :: id(x) == id(y) ==> x == y
  }

  /** Then every element is the first with its id. */
  lemma FirstByKeeps<T, I>(s: seq<T>, id: T -> I, x: T)
    requires ToldApart(s, id)
    ensures x in FirstBy(s, id) <==> x in s
  {
    FirstByIds(s, id);
    if x in s {
      FirstByHas(s, id, id(x));
      ImageMembers(s, id, id(x));
      ImageMembers(FirstBy(s, id), id, id(x));
      var y :| y in FirstBy(s, id) && id(y) == id(x);
      assert y in s;
    }
  }

  lemma {:induction false} FirstByPrefix<T, I>(a: seq<T>, b: seq<T>, id: T -> I)
    ensures FirstBy(a, id) <= FirstBy(a + b, id)
    decreases |b|
  {
    if b == [] {
      assert a + b == a;
    } else {
      FirstByPrefix(a, b[..|b| - 1], id);
      assert (a + b)[..|a + b| - 1] == a + b[..|b| - 1];
    }
  }

  lemma {:induction false} FirstByAbsorbs<T, I>(a: seq<T>, b: seq<T>, id: T -> I)
    requires forall x <- b :: id(x) in Image(a, id)
    ensures FirstBy(a + b, id) == FirstBy(a, id)
    decreases |b|
  {
    if b == [] {
      assert a + b == a;
    } else {
      var last := b[|b| - 1];
      FirstByAbsorbs(a, b[..|b| - 1], id);
      assert (a + b)[..|a + b| - 1] == a + b[..|b| - 1] && (a + b)[|a + b| - 1] == last;
      assert last in b;
      FirstByHas(a, id, id(last));
    }
  }

  lemma ImageSnoc<T, U>(s: seq<T>, k: nat, f: T -> U)
    requires k < |s|
    ensures Image(s[..k + 1], f) == Image(s[..k], f) + [f(s[k])]
  {}

  lemma ImageMembers<T, U>(s: seq<T>, f: T -> U, y: U)
    ensures y in Image(s, f) <==> exists x :: x in s && f(x) == y
  {
    if y in Image(s, f) {
      var k :| 0 <= k < |s| && Image(s, f)[k] == y;
      assert s[k] in s && f(s[k]) == y;
    }
    if exists x :: x in s && f(x) == y {
      var x :| x in s && f(x) == y;
      var k :| 0 <= k < |s| && s[k] == x;
      assert Image(s, f)[k] == y;
    }
  }

  lemma SameBag<T>(a: seq<T>, b: seq<T>)
    requires multiset(a) == multiset(b)
    ensures |a| == |b| && forall x :: x in a <==> x in b
  {
    assert |multiset(a)| == |multiset(b)|;
    forall x ensures x in a <==> x in b {
      assert x in multiset(a) <==> x in multiset(b);
    }
  }

  // ---- sums ----

  function Sum<T>(s: seq<T>, w: T -> nat): nat {
    if s == [] then 0 else w(s[0]) + Sum(s[1..], w)
  }

  lemma {:induction false} SumAppend<T>(a: seq<T>, b: seq<T>, w: T -> nat)
    ensures Sum(a + b, w) == Sum(a, w) + Sum(b, w)
  {
    if a == [] {
      assert a + b == b;
    } else {
      assert (a + b)[1..] == a[1..] + b;
      SumAppend(a[1..], b, w);
    }
  }

  lemma RemoveAt<T>(s: seq<T>, i: nat)
    requires i < |s|
    ensures multiset(s[..i] + s[i + 1..]) == multiset(s) - multiset{s[i]}
  {
    assert s == s[..i] + [s[i]] + s[i + 1..];
  }

  lemma TailMatches<T>(a: seq<T>, b: seq<T>, i: nat)
    requires multiset(a) == multiset(b) && a != [] && i < |b| && b[i] == a[0]
    ensures multiset(a[1..]) == multiset(b[..i] + b[i + 1..])
  {
    RemoveAt(b, i);
    RemoveAt(a, 0);
    assert a[..0] + a[1..] == a[1..];
  }

  lemma SumRemove<T>(s: seq<T>, i: nat, w: T -> nat)
    requires i < |s|
    ensures Sum(s, w) == Sum(s[..i] + s[i + 1..], w) + w(s[i])
  {
    assert s == s[..i] + ([s[i]] + s[i + 1..]);
    SumAppend(s[..i], [s[i]] + s[i + 1..], w);
    SumAppend([s[i]], s[i + 1..], w);
    SumAppend(s[..i], s[i + 1..], w);
  }

  lemma {:induction false} SumPermutes<T>(a: seq<T>, b: seq<T>, w: T -> nat)
    requires multiset(a) == multiset(b)
    ensures Sum(a, w) == Sum(b, w)
    decreases |a|
  {
    if a == [] {
      assert |multiset(b)| == 0;
    } else {
      assert a[0] in multiset(b);
      var i :| 0 <= i < |b| && b[i] == a[0];
      SumRemove(b, i, w);
      TailMatches(a, b, i);
      SumPermutes(a[1..], b[..i] + b[i + 1..], w);
    }
  }

  lemma {:induction false} SumZero<T>(s: seq<T>, w: T -> nat)
    ensures Sum(s, w) == 0 <==> forall x <- s :: w(x) == 0
  {
    if s != [] {
      SumZero(s[1..], w);
      assert s == [s[0]] + s[1..];
    }
  }

  // ---- filters that keep nothing, filters of filters, and the loop that filters ----

  lemma {:induction false} FlatEmpty<T, U>(s: seq<T>, f: T -> seq<U>)
    ensures Flat(s, f) == [] <==> forall x <- s :: f(x) == []
  {
    if s != [] {
      FlatEmpty(s[1..], f);
      assert s == [s[0]] + s[1..];
    }
  }

  lemma {:induction false} SelectNone<T>(s: seq<T>, p: T -> bool)
    requires forall x <- s :: !p(x)
    ensures Select(s, p) == []
  {
    if s != [] {
      SelectNone(s[1..], p);
    }
  }

  lemma {:induction false} SelectSelect<T>(s: seq<T>, p: T -> bool, q: T -> bool, both: T -> bool)
    requires forall x <- s :: both(x) <==> p(x) && q(x)
    ensures Select(Select(s, p), q) == Select(s, both)
  {
    if s != [] {
      SelectSelect(s[1..], p, q, both);
      SelectAppend(if p(s[0]) then [s[0]] else [], Select(s[1..], p), q);
    }
  }

  lemma {:induction false} SameSelect<T>(s: seq<T>, p: T -> bool, q: T -> bool)
    requires forall x <- s :: p(x) <==> q(x)
    ensures Select(s, p) == Select(s, q)
  {
    if s != [] {
      SameSelect(s[1..], p, q);
    }
  }

  method Keep<T>(s: seq<T>, p: T -> bool) returns (kept: seq<T>)
    ensures kept == Select(s, p)
  {
    kept := [];
    for i := 0 to |s|
      invariant kept == Select(s[..i], p)
    {
      SelectAppend(s[..i], [s[i]], p);
      assert s[..i + 1] == s[..i] + [s[i]];
      if p(s[i]) {
        kept := kept + [s[i]];
      }
    }
    assert s[..|s|] == s;
  }
}

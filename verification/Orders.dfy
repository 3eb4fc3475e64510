/** Visiting a finite set in some order, as iterating a hash map does, and what does not
    depend on the order. */
module Orders {

  datatype Option<+T> = None | Some(value: T)

  ghost predicate NoDuplicates<T>(s: seq<T>)
  {
    forall i, j :: 0 <= i < j < |s| ==> s[i] != s[j]
  }

  lemma NoDuplicatesSnoc<T>(s: seq<T>, x: T)
    requires NoDuplicates(s) && x !in s
    ensures NoDuplicates(s + [x])
  {
  }

  lemma SplitLast<T>(s: seq<T>)
    requires s != []
    ensures s == s[..|s| - 1] + [s[|s| - 1]]
  {
  }

  lemma PrefixSnoc<T>(s: seq<T>, k: nat)
    requires k < |s|
    ensures s[..k + 1] == s[..k] + [s[k]]
  {
  }

  /** `order` visits every element of `elements` exactly once. */
  ghost predicate Enumerates<T>(order: seq<T>, elements: set<T>)
  {
    NoDuplicates(order) && (set x | x in order) == elements
  }

  lemma EnumeratesMembers<T(!new)>(order: seq<T>, elements: set<T>)
    requires Enumerates(order, elements)
    ensures forall x :: x in order <==> x in elements
  {
    var s := set x | x in order;
    assert s == elements;
    assert forall x :: x in order <==> x in s;
  }

  /** The values `f` gives along `order`, without the elements it gives nothing for. */
  function Collect<T, U>(order: seq<T>, f: T -> Option<U>): seq<U>
  {
    if order == [] then []
    else
      var rest := Collect(order[..|order| - 1], f);
      match f(order[|order| - 1])
      case None => rest
      case Some(u) => rest + [u]
  }

  /** The elements of `order` for which `f` gives something. */
  function Given<T, U>(order: seq<T>, f: T -> Option<U>): set<T>
  {
    set x | x in order && f(x).Some?
  }

  lemma {:induction false} CollectConcat<T, U>(a: seq<T>, b: seq<T>, f: T -> Option<U>)
    ensures Collect(a + b, f) == Collect(a, f) + Collect(b, f)
    decreases |b|
  {
    if b == [] {
      assert a + b == a;
    } else {
      var b' := b[..|b| - 1];
      CollectConcat(a, b', f);
      assert (a + b)[..|a + b| - 1] == a + b';
    }
  }

  lemma CollectOne<T, U>(x: T, f: T -> Option<U>)
    ensures Collect([x], f) == if f(x).Some? then [f(x).value] else []
  {
    assert [x][..0] == [];
  }

  /** The collected values do not depend on the order, as a multiset. */
  lemma {:induction false} CollectOrder<T, U>(a: seq<T>, b: seq<T>, f: T -> Option<U>)
    requires multiset(a) == multiset(b)
    ensures multiset(Collect(a, f)) == multiset(Collect(b, f))
    decreases |a|
  {
    if a == [] {
      assert |multiset(b)| == |b| == 0;
    } else {
      var n := |a| - 1;
      var x := a[n];
      assert a == a[..n] + [x];
      assert x in multiset(b);
      var i :| 0 <= i < |b| && b[i] == x;
      var rest := b[..i] + b[i + 1..];
      assert b == b[..i] + [x] + b[i + 1..];
      assert multiset(rest) == multiset(b) - multiset{x};
      CollectOrder(a[..n], rest, f);
      CollectConcat(a[..n], [x], f);
      CollectConcat(b[..i] + [x], b[i + 1..], f);
      CollectConcat(b[..i], [x], f);
      CollectConcat(b[..i], b[i + 1..], f);
    }
  }

  /** Two visits of one set are permutations of each other. */
  lemma EnumerationsPermute<T>(a: seq<T>, b: seq<T>, elements: set<T>)
    requires Enumerates(a, elements) && Enumerates(b, elements)
    ensures multiset(a) == multiset(b)
  {
    var sa := set x | x in a;
    var sb := set x | x in b;
    assert sa == sb;
    forall x: T ensures multiset(a)[x] == multiset(b)[x] {
      assert (x in a <==> x in sa) && (x in b <==> x in sb);
      NoDuplicatesCount(a, x);
      NoDuplicatesCount(b, x);
    }
  }

  lemma {:induction false} NoDuplicatesCount<T>(s: seq<T>, x: T)
    requires NoDuplicates(s)
    ensures multiset(s)[x] == if x in s then 1 else 0
  {
    if s != [] {
      var n := |s| - 1;
      NoDuplicatesCount(s[..n], x);
      assert s == s[..n] + [s[n]];
    }
  }

  /** How many values a duplicate-free visit collects. */
  lemma {:induction false} CollectSize<T, U>(order: seq<T>, f: T -> Option<U>)
    requires NoDuplicates(order)
    ensures |Collect(order, f)| == |Given(order, f)|
  {
    if order != [] {
      var n := |order| - 1;
      var x, rest := order[n], order[..n];
      CollectSize(rest, f);
      assert order == rest + [x];
      if f(x).Some? {
        assert Given(order, f) == Given(rest, f) + {x};
      } else {
        assert Given(order, f) == Given(rest, f);
      }
    }
  }

  /** A value collected from somewhere in the visit. */
  lemma {:induction false} CollectMember<T, U>(order: seq<T>, f: T -> Option<U>, u: U)
    ensures u in Collect(order, f) <==> exists x :: x in order && f(x) == Some(u)
  {
    if order != [] {
      var n := |order| - 1;
      var x, rest := order[n], order[..n];
      CollectMember(rest, f, u);
      assert order == rest + [x];
    }
  }

  lemma {:induction false} CollectSame<T, U>(order: seq<T>, f: T -> Option<U>, g: T -> Option<U>)
    requires forall x :: x in order ==> f(x) == g(x)
    ensures Collect(order, f) == Collect(order, g)
  {
    if order != [] {
      var n := |order| - 1;
      assert order == order[..n] + [order[n]];
      CollectSame(order[..n], f, g);
    }
  }
}

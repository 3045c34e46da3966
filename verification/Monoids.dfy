/**
 Totals over sequences in a commutative monoid: what is added up does not
 depend on the arrangement.
 */
module Monoids {

  ghost predicate CommutativeMonoid<M(!new)>(op: (M, M) -> M, e: M) {
    && (forall a :: op(e, a) == a)
    && (forall a, b :: op(a, b) == op(b, a))
    && (forall a, b, c :: op(op(a, b), c) == op(a, op(b, c)))
  }

  lemma Associate<M(!new)>(op: (M, M) -> M, e: M, a: M, b: M, c: M)
    requires CommutativeMonoid(op, e)
    ensures op(op(a, b), c) == op(a, op(b, c))
  {
  }

  lemma Commute<M(!new)>(op: (M, M) -> M, e: M, a: M, b: M)
    requires CommutativeMonoid(op, e)
    ensures op(a, b) == op(b, a) && op(e, a) == a && op(a, e) == a
  {
    assert op(a, e) == op(e, a);
  }

  lemma Exchange<M(!new)>(op: (M, M) -> M, e: M, a: M, b: M, c: M, d: M)
    requires CommutativeMonoid(op, e)
    ensures op(op(a, b), op(c, d)) == op(op(a, c), op(b, d))
  {
    hide CommutativeMonoid;
    Associate(op, e, a, b, op(c, d));
    Associate(op, e, b, c, d);
    Commute(op, e, b, c);
    Associate(op, e, c, b, d);
    Associate(op, e, a, c, op(b, d));
  }

  ghost function Total<T, M>(op: (M, M) -> M, e: M, f: T -> M, s: seq<T>): M {
    if s == [] then e else op(Total(op, e, f, s[..|s| - 1]), f(s[|s| - 1]))
  }

  lemma {:induction false} TotalConcat<T, M(!new)>(op: (M, M) -> M, e: M, f: T -> M, a: seq<T>, b: seq<T>)
    requires CommutativeMonoid(op, e)
    ensures Total(op, e, f, a + b) == op(Total(op, e, f, a), Total(op, e, f, b))
  {
    if b == [] {
      assert a + b == a;
      assert op(e, Total(op, e, f, a)) == op(Total(op, e, f, a), e);
    } else {
      var b' := b[..|b| - 1];
      assert (a + b)[..|a + b| - 1] == a + b';
      TotalConcat(op, e, f, a, b');
    }
  }

  lemma TotalOne<T, M(!new)>(op: (M, M) -> M, e: M, f: T -> M, x: T)
    requires CommutativeMonoid(op, e)
    ensures Total(op, e, f, [x]) == f(x)
  {
    assert [x][..0] == [];
  }

  lemma TotalAppend<T, M(!new)>(op: (M, M) -> M, e: M, f: T -> M, s: seq<T>, x: T)
    ensures Total(op, e, f, s + [x]) == op(Total(op, e, f, s), f(x))
  {
    assert (s + [x])[..|s|] == s;
  }

  /** Taking out the element at position j. */
  lemma TotalWithout<T, M(!new)>(op: (M, M) -> M, e: M, f: T -> M, s: seq<T>, j: nat)
    requires CommutativeMonoid(op, e) && j < |s|
    ensures Total(op, e, f, s) == op(Total(op, e, f, s[..j] + s[j + 1..]), f(s[j]))
  {
    hide Total;
    assert s == s[..j] + ([s[j]] + s[j + 1..]);
    TotalConcat(op, e, f, s[..j], [s[j]] + s[j + 1..]);
    TotalConcat(op, e, f, [s[j]], s[j + 1..]);
    TotalConcat(op, e, f, s[..j], s[j + 1..]);
    TotalOne(op, e, f, s[j]);
  }

  /** The last element of one arrangement, found in another one. */
  lemma MatchLast<T>(a: seq<T>, b: seq<T>) returns (j: nat)
    requires a != [] && multiset(a) == multiset(b)
    ensures j < |b| && b[j] == a[|a| - 1]
    ensures multiset(a[..|a| - 1]) == multiset(b[..j] + b[j + 1..])
  {
    var last := |a| - 1;
    assert a == a[..last] + [a[last]];
    assert a[last] in multiset(a);
    assert a[last] in multiset(b);
    j :| 0 <= j < |b| && b[j] == a[last];
    assert b == b[..j] + [b[j]] + b[j + 1..];
    assert multiset(a[..last]) == multiset(a) - multiset{a[last]};
    assert multiset(b[..j] + b[j + 1..]) == multiset(b) - multiset{b[j]};
  }

  lemma EmptyBoth<T>(a: seq<T>, b: seq<T>)
    requires multiset(a) == multiset(b) && a == []
    ensures b == []
  {
    assert |b| == |multiset(b)| && |a| == |multiset(a)|;
  }

  /** A total does not depend on the arrangement. */
  lemma {:induction false} TotalPermuted<T, M(!new)>(op: (M, M) -> M, e: M, f: T -> M, a: seq<T>, b: seq<T>)
    requires CommutativeMonoid(op, e) && multiset(a) == multiset(b)
    ensures Total(op, e, f, a) == Total(op, e, f, b)
    decreases |a|
  {
    if a == [] {
      EmptyBoth(a, b);
    } else {
      var j := MatchLast(a, b);
      TotalWithout(op, e, f, b, j);
      TotalPermuted(op, e, f, a[..|a| - 1], b[..j] + b[j + 1..]);
    }
  }

  function Plus<R>(a: multiset<R>, b: multiset<R>): multiset<R> {
    a + b
  }

  lemma PlusIsMonoid<R(!new)>()
    ensures CommutativeMonoid<multiset<R>>(Plus, multiset{})
  {
    forall a: multiset<R>
      ensures Plus(multiset{}, a) == a
    {
    }
    forall a: multiset<R>, b: multiset<R>
      ensures Plus(a, b) == Plus(b, a)
    {
      assert a + b == b + a;
    }
    forall a: multiset<R>, b: multiset<R>, c: multiset<R>
      ensures Plus(Plus(a, b), c) == Plus(a, Plus(b, c))
    {
      assert (a + b) + c == a + (b + c);
    }
  }
}

/** Insertion sort by a relation: `later(x, y)` says that `x` belongs behind `y`. */
module Sorting {
  function Insert<T>(s: seq<T>, x: T, later: (T, T) -> bool): seq<T> {
    if s != [] && later(s[|s| - 1], x) then Insert(s[..|s| - 1], x, later) + [s[|s| - 1]] else s + [x]
  }

  function Sort<T>(s: seq<T>, later: (T, T) -> bool): seq<T> {
    if s == [] then [] else Insert(Sort(s[..|s| - 1], later), s[|s| - 1], later)
  }

  lemma SortSingle<T>(x: T, later: (T, T) -> bool)
    ensures Sort([x], later) == [x]
  {
    assert [x][..0] == [];
  }

  lemma SortPair<T>(x: T, y: T, later: (T, T) -> bool)
    requires !later(x, y)
    ensures Sort([x, y], later) == [x, y]
  {
    SortSingle(x, later);
    assert [x, y][..1] == [x];
  }

  predicate Ordered<T>(s: seq<T>, later: (T, T) -> bool) {
    forall i, j :: 0 <= i < j < |s| ==> !later(s[i], s[j])
  }

  /** No two elements belong behind each other, and not belonging behind is transitive. */
  ghost predicate Ranks<T(!new)>(later: (T, T) -> bool) {
    && (forall x, y :: later(x, y) ==> !later(y, x))
    && (forall x, y, z :: !later(x, y) && !later(y, z) ==> !later(x, z))
  }

  lemma LastOut<T>(s: seq<T>)
    requires s != []
    ensures multiset(s) == multiset(s[..|s| - 1]) + multiset{s[|s| - 1]}
  {
    assert s == s[..|s| - 1] + [s[|s| - 1]];
  }

  lemma {:induction false} InsertPermutes<T>(s: seq<T>, x: T, later: (T, T) -> bool)
    ensures multiset(Insert(s, x, later)) == multiset(s) + multiset{x}
  {
    if s != [] && later(s[|s| - 1], x) {
      InsertPermutes(s[..|s| - 1], x, later);
      LastOut(s);
    } else {
    }
  }

  lemma {:induction false} InsertOrders<T(!new)>(s: seq<T>, x: T, later: (T, T) -> bool)
    requires Ranks(later) && Ordered(s, later)
    ensures Ordered(Insert(s, x, later), later)
  {
    if s != [] && later(s[|s| - 1], x) {
      var front, last := s[..|s| - 1], s[|s| - 1];
      InsertOrders(front, x, later);
      InsertPermutes(front, x, later);
      var t := Insert(front, x, later);
      forall i | 0 <= i < |t| ensures !later(t[i], last) {
        assert t[i] in multiset(t);
        assert t[i] in multiset(front) + multiset{x};
      }
    } else {
      forall i | 0 <= i < |s| ensures !later(s[i], x) {
        assert i < |s| - 1 ==> !later(s[i], s[|s| - 1]);
      }
    }
  }

  lemma {:induction false} SortOrders<T(!new)>(s: seq<T>, later: (T, T) -> bool)
    requires Ranks(later)
    ensures Ordered(Sort(s, later), later) && multiset(Sort(s, later)) == multiset(s)
  {
    if s == [] {
    } else {
      var sorted, last := Sort(s[..|s| - 1], later), s[|s| - 1];
      SortOrders(s[..|s| - 1], later);
      InsertOrders(sorted, last, later);
      InsertPermutes(sorted, last, later);
      LastOut(s);
      hide Insert, Ordered;
    }
  }

  /** The loop of an insertion sort may pass over elements that belong behind. */
  lemma {:induction false} InsertSkips<T>(s: seq<T>, x: T, n: nat, later: (T, T) -> bool)
    requires n <= |s| && forall k :: n <= k < |s| ==> later(s[k], x)
    ensures Insert(s, x, later) == Insert(s[..n], x, later) + s[n..]
  {
    if n == |s| {
      assert s[..n] == s;
    } else {
      InsertSkips(s[..|s| - 1], x, n, later);
      assert s[..|s| - 1][..n] == s[..n];
      assert s[n..] == s[..|s| - 1][n..] + [s[|s| - 1]];
    }
  }

  // ---------------------------------------------------------------- permutations

  lemma TakenOut<T>(s: seq<T>, k: nat)
    requires k < |s|
    ensures multiset(s) == multiset(s[..k] + s[k + 1..]) + multiset{s[k]}
  {
    assert s == s[..k] + [s[k]] + s[k + 1..];
  }

  /** Taking one occurrence of the same element out of two permutations leaves permutations. */
  lemma SameWithout<T>(s: seq<T>, k: nat, t: seq<T>, l: nat)
    requires multiset(s) == multiset(t) && k < |s| && l < |t| && s[k] == t[l]
    ensures multiset(s[..k] + s[k + 1..]) == multiset(t[..l] + t[l + 1..])
  {
    TakenOut(s, k);
    TakenOut(t, l);
    var x := s[k];
    var a, b := multiset(s[..k] + s[k + 1..]), multiset(t[..l] + t[l + 1..]);
    assert a == (a + multiset{x}) - multiset{x} && b == (b + multiset{x}) - multiset{x};
  }

  lemma Middle<T>(s: seq<T>, k: nat)
    requires k < |s|
    ensures s == s[..k] + ([s[k]] + s[k + 1..])
  {
  }

  lemma MiddleOut<T>(a: seq<T>, x: T, b: seq<T>)
    ensures multiset(a + ([x] + b)) == multiset(a + b) + multiset{x}
  {
  }

  lemma Front<T>(s: seq<T>)
    requires s != []
    ensures s[..|s| - 1] + s[|s| - 1 + 1..] == s[..|s| - 1]
    ensures s == s[..|s| - 1] + [s[|s| - 1]]
  {
  }

  lemma SameMembers<T>(s: seq<T>, t: seq<T>)
    requires multiset(s) == multiset(t)
    ensures |s| == |t| && forall x :: x in s <==> x in t
  {
    assert |s| == |multiset(s)| && |t| == |multiset(t)|;
    forall x ensures x in s <==> x in t {
      assert x in multiset(s) <==> x in multiset(t);
    }
  }

  function Mapped<S, T>(s: seq<S>, f: S -> T): seq<T> {
    seq(|s|, i requires 0 <= i < |s| => f(s[i]))
  }

  lemma MappedParts<S, T>(a: seq<S>, x: S, b: seq<S>, f: S -> T)
    ensures Mapped(a + ([x] + b), f) == Mapped(a, f) + ([f(x)] + Mapped(b, f))
    ensures Mapped(a + b, f) == Mapped(a, f) + Mapped(b, f)
  {
  }

  /** Permutations are mapped to permutations. */
  lemma {:induction false} MappedPermutes<S, T>(s: seq<S>, t: seq<S>, f: S -> T)
    requires multiset(s) == multiset(t)
    ensures multiset(Mapped(s, f)) == multiset(Mapped(t, f))
  {
    hide Mapped;
    SameMembers(s, t);
    if s == [] {
      assert s == t;
    } else {
      var n, x := |s| - 1, s[|s| - 1];
      assert x in t;
      var k :| 0 <= k < |t| && t[k] == x;
      SameWithout(s, n, t, k);
      MappedPermutes(s[..n] + s[n + 1..], t[..k] + t[k + 1..], f);
      Middle(s, n);
      Middle(t, k);
      MappedParts(s[..n], x, s[n + 1..], f);
      MappedParts(t[..k], x, t[k + 1..], f);
      MiddleOut(Mapped(s[..n], f), f(x), Mapped(s[n + 1..], f));
      MiddleOut(Mapped(t[..k], f), f(x), Mapped(t[k + 1..], f));
    }
  }
}

/** Hybrid search over memories: cosine similarity, normalised BM25, and the stable in-place sort that
    ranks them (orchestrator/memory.go). Scores are reals. */
module Ranking {
  import opened Sorting
  import opened Text

  type Id = string
  type Vector = seq<real>

  // ---------------------------------------------------------------- cosine similarity

  function Common(a: Vector, b: Vector): nat {
    if |b| < |a| then |b| else |a|
  }

  function Dot(a: Vector, b: Vector, n: nat): real
    requires n <= |a| && n <= |b|
  {
    if n == 0 then 0.0 else Dot(a, b, n - 1) + a[n - 1] * b[n - 1]
  }

  predicate Root(r: real, x: real) {
    r >= 0.0 && r * r == x
  }

  ghost predicate IsSqrt(sqrt: real -> real) {
    forall x :: x >= 0.0 ==> Root(sqrt(x), x)
  }

  function Lengths(sqrt: real -> real, normA: real, normB: real): real {
    sqrt(normA) * sqrt(normB)
  }

  lemma LengthsOfNonZero(sqrt: real -> real, x: real, y: real)
    requires IsSqrt(sqrt) && x > 0.0 && y > 0.0
    ensures var m := Lengths(sqrt, x, y); m > 0.0 && m * m == x * y
  {
    var r, q := sqrt(x), sqrt(y);
    assert Root(r, x) && Root(q, y);
    assert r == 0.0 ==> r * r == 0.0;
    assert q == 0.0 ==> q * q == 0.0;
    PositiveProduct(r, q);
    calc {
      (r * q) * (r * q);
      (r * r) * (q * q);
      x * y;
    }
  }

  ghost function Cosine(a: Vector, b: Vector, sqrt: real -> real): real
    requires IsSqrt(sqrt)
  {
    var n := Common(a, b);
    var normA, normB := Dot(a, a, n), Dot(b, b, n);
    if normA == 0.0 || normB == 0.0 then 0.0
    else
      NormNotNegative(a, n);
      NormNotNegative(b, n);
      LengthsOfNonZero(sqrt, normA, normB);
      Dot(a, b, n) / Lengths(sqrt, normA, normB)
  }

  lemma PositiveProduct(x: real, y: real)
    ensures x > 0.0 && y > 0.0 ==> x * y > 0.0
  {
  }

  lemma SquareNotNegative(x: real)
    ensures x * x >= 0.0
  {
  }

  lemma {:induction false} NormNotNegative(a: Vector, n: nat)
    requires n <= |a|
    ensures Dot(a, a, n) >= 0.0
  {
    if n == 0 {
    } else {
      NormNotNegative(a, n - 1);
      SquareNotNegative(a[n - 1]);
    }
  }

  function Form(p: real, d: real, r: real, t: real, s: real): real {
    t * t * p - 2.0 * t * s * d + s * s * r
  }

  /** One more coordinate adds a square. */
  lemma FormGrows(p: real, d: real, r: real, t: real, s: real, x: real, y: real)
    ensures Form(p + x * x, d + x * y, r + y * y, t, s) >= Form(p, d, r, t, s)
  {
    var z := t * x - s * y;
    assert z * z == t * t * (x * x) - 2.0 * t * s * (x * y) + s * s * (y * y);
    assert t * t * (p + x * x) == t * t * p + t * t * (x * x);
    assert 2.0 * t * s * (d + x * y) == 2.0 * t * s * d + 2.0 * t * s * (x * y);
    assert s * s * (r + y * y) == s * s * r + s * s * (y * y);
    SquareNotNegative(z);
  }

  lemma FormOfZero(t: real, s: real)
    ensures Form(0.0, 0.0, 0.0, t, s) == 0.0
  {
  }

  /** The sum of the squares of `t * a[i] - s * b[i]`, multiplied out. */
  lemma {:induction false} SumOfSquares(a: Vector, b: Vector, t: real, s: real, n: nat)
    requires n <= |a| && n <= |b|
    ensures Form(Dot(a, a, n), Dot(a, b, n), Dot(b, b, n), t, s) >= 0.0
  {
    hide Form;
    if n == 0 {
      FormOfZero(t, s);
    } else {
      SumOfSquares(a, b, t, s, n - 1);
      var x, y := a[n - 1], b[n - 1];
      FormGrows(Dot(a, a, n - 1), Dot(a, b, n - 1), Dot(b, b, n - 1), t, s, x, y);
      assert Dot(a, a, n) == Dot(a, a, n - 1) + x * x;
      assert Dot(a, b, n) == Dot(a, b, n - 1) + x * y;
      assert Dot(b, b, n) == Dot(b, b, n - 1) + y * y;
    }
  }

  /** The discriminant of a form that is never negative. */
  lemma FormBoundsProduct(p: real, d: real, r: real)
    requires r > 0.0 && Form(p, d, r, r, d) >= 0.0
    ensures d * d <= p * r
  {
    var gap := d * d - p * r;
    assert r * gap == -Form(p, d, r, r, d);
    PositiveProduct(r, gap);
  }

  lemma ZeroBoundsProduct(p: real, d: real, r: real)
    requires r == 0.0 && d == 0.0
    ensures d * d <= p * r
  {
  }

  lemma CauchySchwarz(a: Vector, b: Vector, n: nat)
    requires n <= |a| && n <= |b|
    ensures Dot(a, b, n) * Dot(a, b, n) <= Dot(a, a, n) * Dot(b, b, n)
  {
    hide Dot, Form;
    var p, d, r := Dot(a, a, n), Dot(a, b, n), Dot(b, b, n);
    NormNotNegative(b, n);
    if r == 0.0 {
      ZeroNorm(b, a, n);
      ZeroBoundsProduct(p, d, r);
    } else {
      SumOfSquares(a, b, r, d, n);
      FormBoundsProduct(p, d, r);
    }
  }

  /** A vector of norm zero is orthogonal to every other. */
  lemma {:induction false} ZeroNorm(b: Vector, a: Vector, n: nat)
    requires n <= |a| && n <= |b| && Dot(b, b, n) == 0.0
    ensures Dot(a, b, n) == 0.0
  {
    if n == 0 {
    } else {
      NormNotNegative(b, n - 1);
      SquareNotNegative(b[n - 1]);
      if b[n - 1] != 0.0 {
        NonZeroSquare(b[n - 1]);
      }
      ZeroNorm(b, a, n - 1);
    }
  }

  lemma NonZeroSquare(x: real)
    requires x != 0.0
    ensures x * x > 0.0
  {
    if x > 0.0 {
      PositiveProduct(x, x);
    } else {
      PositiveProduct(-x, -x);
    }
  }

  /** Cosine similarity lies between -1 and 1. */
  lemma CosineInRange(a: Vector, b: Vector, sqrt: real -> real)
    requires IsSqrt(sqrt)
    ensures -1.0 <= Cosine(a, b, sqrt) <= 1.0
  {
    var n := Common(a, b);
    var p, d, r := Dot(a, a, n), Dot(a, b, n), Dot(b, b, n);
    NormNotNegative(a, n);
    NormNotNegative(b, n);
    if p != 0.0 && r != 0.0 {
      LengthsOfNonZero(sqrt, p, r);
      CauchySchwarz(a, b, n);
      QuotientInRange(d, Lengths(sqrt, p, r));
    }
  }

  lemma QuotientInRange(d: real, m: real)
    requires m > 0.0 && d * d <= m * m
    ensures -1.0 <= d / m <= 1.0
  {
    PositiveProduct(d - m, d + m);
    PositiveProduct(-d - m, -d + m);
    assert (d - m) * (d + m) == d * d - m * m == (-d - m) * (-d + m);
    var q := d / m;
    assert q * m == d;
    PositiveProduct(q - 1.0, m);
    PositiveProduct(-1.0 - q, m);
    assert (q - 1.0) * m == d - m && (-1.0 - q) * m == -m - d;
  }

  /** A vector is most similar to itself: exactly 1, unless it is zero. */
  lemma CosineOfItself(a: Vector, sqrt: real -> real)
    requires IsSqrt(sqrt)
    ensures Cosine(a, a, sqrt) == if Dot(a, a, |a|) == 0.0 then 0.0 else 1.0
  {
    var p := Dot(a, a, |a|);
    NormNotNegative(a, |a|);
    if p != 0.0 {
      LengthsOfNonZero(sqrt, p, p);
      assert Root(sqrt(p), p);
      assert Lengths(sqrt, p, p) == p;
      assert Cosine(a, a, sqrt) == p / Lengths(sqrt, p, p) == p / p;
    }
  }

  method CosineSimilarity(a: Vector, b: Vector, sqrt: real -> real) returns (r: real)
    requires IsSqrt(sqrt)
    ensures r == Cosine(a, b, sqrt) && -1.0 <= r <= 1.0
  {
    CosineInRange(a, b, sqrt);
    hide IsSqrt;
    if |a| == 0 || |b| == 0 {
      return 0.0;
    }
    var n := |a|;
    if |b| < n {
      n := |b|;
    }
    var dot, normA, normB := 0.0, 0.0, 0.0;
    for i := 0 to n
      invariant dot == Dot(a, b, i) && normA == Dot(a, a, i) && normB == Dot(b, b, i)
    {
      dot := dot + a[i] * b[i];
      normA := normA + a[i] * a[i];
      normB := normB + b[i] * b[i];
    }
    if normA == 0.0 || normB == 0.0 {
      return 0.0;
    }
    NormNotNegative(a, n);
    NormNotNegative(b, n);
    LengthsOfNonZero(sqrt, normA, normB);
    hide Lengths;
    r := dot / Lengths(sqrt, normA, normB);
  }

  // ---------------------------------------------------------------- BM25, normalised

  datatype Raw = Raw(id: Id, score: real)

  predicate Bounds(rows: seq<Raw>, lo: real, hi: real) {
    && (exists k :: 0 <= k < |rows| && rows[k].score == lo)
    && (exists k :: 0 <= k < |rows| && rows[k].score == hi)
    && (forall k :: 0 <= k < |rows| ==> lo <= rows[k].score <= hi)
  }

  function Normal(score: real, lo: real, hi: real): real {
    if hi - lo != 0.0 then 1.0 - (score - lo) / (hi - lo) else 0.5
  }

  /** A later row of the same id overwrites an earlier one. */
  function Normalised(rows: seq<Raw>, lo: real, hi: real): map<Id, real> {
    if rows == [] then map[]
    else
      var last := rows[|rows| - 1];
      Normalised(rows[..|rows| - 1], lo, hi)[last.id := Normal(last.score, lo, hi)]
  }

  /** Normalising reverses the order, strictly unless all scores are equal, and stays within [0, 1]. */
  lemma NormalReversesOrder(s: real, t: real, lo: real, hi: real)
    requires lo <= s <= t <= hi
    ensures 0.0 <= Normal(t, lo, hi) <= Normal(s, lo, hi) <= 1.0
    ensures lo < hi ==> Normal(lo, lo, hi) == 1.0 && Normal(hi, lo, hi) == 0.0
    ensures s < t ==> Normal(t, lo, hi) < Normal(s, lo, hi)
  {
    if lo < hi {
      var m := hi - lo;
      assert 0.0 / m == 0.0 && m / m == 1.0;
      QuotientMonotone(0.0, s - lo, m);
      QuotientMonotone(s - lo, t - lo, m);
      QuotientMonotone(t - lo, m, m);
    }
  }

  lemma QuotientMonotone(x: real, y: real, m: real)
    requires m > 0.0
    ensures x <= y ==> x / m <= y / m
    ensures x < y ==> x / m < y / m
  {
    var p, q := x / m, y / m;
    assert p * m == x && q * m == y;
    PositiveProduct(p - q, m);
    assert (p - q) * m == x - y;
    assert p == q ==> x == y;
  }

  lemma {:induction false} NormalisedWithin(rows: seq<Raw>, lo: real, hi: real)
    requires forall k :: 0 <= k < |rows| ==> lo <= rows[k].score <= hi
    ensures forall id :: id in Normalised(rows, lo, hi) ==> 0.0 <= Normalised(rows, lo, hi)[id] <= 1.0
    ensures forall id :: id in Normalised(rows, lo, hi) <==> exists k :: 0 <= k < |rows| && rows[k].id == id
  {
    if rows == [] {
    } else {
      var before, last := rows[..|rows| - 1], rows[|rows| - 1];
      NormalisedWithin(before, lo, hi);
      NormalReversesOrder(last.score, last.score, lo, hi);
      forall id ensures id in Normalised(rows, lo, hi) <==> exists k :: 0 <= k < |rows| && rows[k].id == id {
        if k :| 0 <= k < |before| && before[k].id == id {
          assert rows[k].id == id;
        }
        if k :| 0 <= k < |rows| && rows[k].id == id && k < |rows| - 1 {
          assert before[k].id == id;
        }
      }
    }
  }

  method Range(rows: seq<Raw>) returns (minS: real, maxS: real)
    requires rows != []
    ensures Bounds(rows, minS, maxS)
  {
    minS, maxS := rows[0].score, rows[0].score;
    for i := 0 to |rows|
      invariant if i == 0 then minS == maxS == rows[0].score else Bounds(rows[..i], minS, maxS)
    {
      BoundsGrow(rows[..i], rows[i]);
      assert rows[..i + 1] == rows[..i] + [rows[i]];
      hide Bounds;
      if rows[i].score < minS {
        minS := rows[i].score;
      }
      if rows[i].score > maxS {
        maxS := rows[i].score;
      }
    }
    assert rows[..|rows|] == rows;
  }

  /** The scores of the full-text rows, best 1 and worst 0; `lo` and `hi` are the extreme raw scores. */
  method NormaliseScores(rows: seq<Raw>) returns (scores: map<Id, real>, ghost lo: real, ghost hi: real)
    ensures scores == Normalised(rows, lo, hi) && (rows != [] ==> Bounds(rows, lo, hi))
    ensures Normal01(scores)
  {
    scores, lo, hi := map[], 0.0, 0.0;
    if |rows| == 0 {
      return;
    }
    var minS, maxS := Range(rows);
    lo, hi := minS, maxS;
    var rng := maxS - minS;
    for i := 0 to |rows|
      invariant scores == Normalised(rows[..i], lo, hi)
    {
      var normalized := 0.5;
      if rng != 0.0 {
        normalized := 1.0 - (rows[i].score - minS) / rng;
      }
      scores := scores[rows[i].id := normalized];
      assert rows[..i + 1][..i] == rows[..i];
    }
    assert rows[..|rows|] == rows;
    NormalisedWithin(rows, lo, hi);
  }

  lemma BoundsGrow(rows: seq<Raw>, last: Raw)
    ensures Bounds([last], last.score, last.score)
    ensures forall lo, hi :: Bounds(rows, lo, hi) ==>
      Bounds(rows + [last], if last.score < lo then last.score else lo, if last.score > hi then last.score else hi)
  {
    var all := rows + [last];
    assert [last][0].score == last.score;
    assert all[|rows|] == last;
    forall lo, hi | Bounds(rows, lo, hi)
      ensures Bounds(all, if last.score < lo then last.score else lo, if last.score > hi then last.score else hi)
    {
      var k :| 0 <= k < |rows| && rows[k].score == lo;
      var l :| 0 <= l < |rows| && rows[l].score == hi;
      assert all[k].score == lo && all[l].score == hi;
    }
  }

  // ---------------------------------------------------------------- the sort

  datatype Entry = Entry(id: Id, content: string, embedding: Vector)
  datatype Scored = Scored(entry: Entry, score: real)

  predicate ScoresLess(x: Scored, y: Scored) {
    x.score < y.score
  }

  function SortDesc(s: seq<Scored>): seq<Scored> {
    Sort(s, ScoresLess)
  }

  predicate Descending(s: seq<Scored>) {
    forall i, j :: 0 <= i < j < |s| ==> s[i].score >= s[j].score
  }

  /** The elements of one score, in order. */
  function OfScore(s: seq<Scored>, v: real): seq<Scored> {
    if s == [] then []
    else OfScore(s[..|s| - 1], v) + if s[|s| - 1].score == v then [s[|s| - 1]] else []
  }

  /** The elements of each score stand in the same order in both. */
  ghost predicate KeepsOrder(s: seq<Scored>, t: seq<Scored>) {
    forall v :: OfScore(s, v) == OfScore(t, v)
  }

  lemma OfScoreThen(s: seq<Scored>, last: Scored, v: real)
    ensures OfScore(s + [last], v) == OfScore(s, v) + if last.score == v then [last] else []
  {
    assert (s + [last])[..|s|] == s;
  }

  lemma {:induction false} InsertIsStable(s: seq<Scored>, key: Scored, v: real)
    ensures OfScore(Insert(s, key, ScoresLess), v) == OfScore(s, v) + if key.score == v then [key] else []
  {
    hide OfScore;
    if s != [] && s[|s| - 1].score < key.score {
      var before, last := s[..|s| - 1], s[|s| - 1];
      InsertIsStable(before, key, v);
      OfScoreThen(Insert(before, key, ScoresLess), last, v);
      OfScoreThen(before, last, v);
      assert s == before + [last];
    } else {
      OfScoreThen(s, key, v);
    }
  }

  lemma {:induction false} SortIsStable(s: seq<Scored>, v: real)
    ensures OfScore(SortDesc(s), v) == OfScore(s, v)
  {
    if s == [] {
    } else {
      SortIsStable(s[..|s| - 1], v);
      InsertIsStable(SortDesc(s[..|s| - 1]), s[|s| - 1], v);
    }
  }

  /** Sorting is a stable descending permutation. */
  lemma SortDescSorts(s: seq<Scored>)
    ensures Descending(SortDesc(s)) && |SortDesc(s)| == |s|
    ensures multiset(SortDesc(s)) == multiset(s)
    ensures KeepsOrder(SortDesc(s), s)
  {
    SortOrders(s, ScoresLess);
    assert |SortDesc(s)| == |multiset(SortDesc(s))|;
    forall v ensures OfScore(SortDesc(s), v) == OfScore(s, v) {
      SortIsStable(s, v);
    }
  }

  lemma {:induction false} OfScoreIn(s: seq<Scored>, v: real)
    ensures OfScore(s, v) != [] ==> exists k :: 0 <= k < |s| && s[k].score == v
  {
    if s == [] {
    } else {
      OfScoreIn(s[..|s| - 1], v);
    }
  }

  lemma SameEnd<T>(a: seq<T>, x: T, b: seq<T>, y: T)
    requires a + [x] == b + [y]
    ensures a == b && x == y
  {
    assert |a| == |b| && (a + [x])[|a|] == x && (b + [y])[|b|] == y;
    assert (a + [x])[..|a|] == a && (b + [y])[..|b|] == b;
  }

  lemma LastShows(s: seq<Scored>)
    ensures s != [] ==> OfScore(s, s[|s| - 1].score) != []
  {
  }

  lemma LastScoreIn(s: seq<Scored>, t: seq<Scored>, v: real)
    requires s != [] && s[|s| - 1].score == v && OfScore(s, v) == OfScore(t, v)
    ensures exists k :: 0 <= k < |t| && t[k].score == v
  {
    assert OfScore(s, v) != [];
    OfScoreIn(t, v);
  }

  lemma SameLastScore(s: seq<Scored>, t: seq<Scored>)
    requires Descending(s) && Descending(t) && s != []
    requires KeepsOrder(s, t)
    ensures t != [] && t[|t| - 1].score == s[|s| - 1].score
  {
    hide OfScore;
    LastScoreIn(s, t, s[|s| - 1].score);
    LastScoreIn(t, s, t[|t| - 1].score);
  }

  /** Being descending and keeping each score's elements in order leaves no freedom. */
  lemma {:induction false} StableSortIsUnique(s: seq<Scored>, t: seq<Scored>)
    requires Descending(s) && Descending(t)
    requires KeepsOrder(s, t)
    ensures s == t
  {
    if s == [] {
      LastShows(t);
    } else {
      SameLastScore(s, t);
      var x, y := s[|s| - 1], t[|t| - 1];
      var r, q := s[..|s| - 1], t[..|t| - 1];
      assert OfScore(s, x.score) == OfScore(t, x.score);
      SameEnd(OfScore(r, x.score), x, OfScore(q, x.score), y);
      forall v ensures OfScore(r, v) == OfScore(q, v) {
        if v != x.score {
          assert OfScore(s, v) == OfScore(r, v) + [] == OfScore(r, v);
          assert OfScore(t, v) == OfScore(q, v) + [] == OfScore(q, v);
          assert OfScore(s, v) == OfScore(t, v);
        }
      }
      StableSortIsUnique(r, q);
      assert s == r + [x] && t == q + [y];
    }
  }

  lemma Moved(s: seq<Scored>, r: seq<Scored>, i: nat, n: nat)
    requires n <= i < |s| == |r|
    requires forall k :: 0 <= k < n || i < k < |s| ==> r[k] == s[k]
    requires forall k :: n < k <= i ==> r[k] == s[k - 1]
    requires r[n] == s[i] && (forall k :: n <= k < i ==> s[k].score < s[i].score)
    requires n > 0 ==> s[n - 1].score >= s[i].score
    ensures r[..i + 1] == Insert(s[..i], s[i], ScoresLess) && r[i + 1..] == s[i + 1..]
  {
    InsertSkips(s[..i], s[i], n, ScoresLess);
    assert s[..i][..n] == s[..n];
    assert Insert(s[..n], s[i], ScoresLess) == s[..n] + [s[i]];
    hide Insert;
    assert r[..i + 1] == (s[..n] + [s[i]]) + s[..i][n..];
  }

  /** The inner loop of the sort: moves `a[i]` down past the elements that score less. */
  method MoveDown(a: array<Scored>, i: nat)
    requires i < a.Length
    modifies a
    ensures a[..i + 1] == Insert(old(a[..i]), old(a[i]), ScoresLess) && a[i + 1..] == old(a[i + 1..])
  {
    ghost var s := a[..];
    var key := a[i];
    var j := i - 1;
    while j >= 0 && a[j].score < key.score
      invariant -1 <= j < i
      invariant forall k :: 0 <= k <= j || i < k < a.Length ==> a[k] == s[k]
      invariant forall k :: j + 1 < k <= i ==> a[k] == s[k - 1]
      invariant forall k :: j < k < i ==> s[k].score < key.score
    {
      a[j + 1] := a[j];
      j := j - 1;
    }
    a[j + 1] := key;
    Moved(s, a[..], i, j + 1);
    assert a[..][..i + 1] == a[..i + 1] && a[..][i + 1..] == a[i + 1..] && s[..i] == old(a[..i]);
  }

  /** Insertion sort in place. */
  method SortScoredEntries(a: array<Scored>)
    modifies a
    ensures a[..] == SortDesc(old(a[..]))
  {
    ghost var s := a[..];
    if a.Length == 0 {
      return;
    }
    SortSingle(s[0], ScoresLess);
    assert a[..1] == s[..1] == [s[0]];
    for i := 1 to a.Length
      invariant a[..i] == SortDesc(s[..i]) && a[i..] == s[i..]
    {
      assert a[i] == a[i..][0] && a[i + 1..] == a[i..][1..];
      MoveDown(a, i);
      assert s[..i + 1][..i] == s[..i];
    }
    assert a[..] == a[..a.Length] && s[..a.Length] == s;
  }

  // ---------------------------------------------------------------- hybrid search

  ghost function CosineScored(query: Vector, rows: seq<Entry>, sqrt: real -> real): seq<Scored>
    requires IsSqrt(sqrt)
  {
    if rows == [] then []
    else
      var last := rows[|rows| - 1];
      CosineScored(query, rows[..|rows| - 1], sqrt)
      + if last.embedding == [] then [] else [Scored(last, Cosine(query, last.embedding, sqrt))]
  }

  function Combined(c: Scored, scores: map<Id, real>): Scored {
    c.(score := 0.7 * c.score + 0.3 * if c.entry.id in scores then scores[c.entry.id] else 0.0)
  }

  function Entries(s: seq<Scored>): seq<Entry> {
    seq(|s|, i requires 0 <= i < |s| => s[i].entry)
  }

  function Limit(limit: int): nat {
    if limit <= 0 then 5 else limit
  }

  /** The candidates in the order fetched, with their combined scores. */
  ghost function Candidates(query: Vector, rows: seq<Entry>, scores: map<Id, real>, sqrt: real -> real): seq<Scored>
    requires IsSqrt(sqrt)
  {
    var c := CosineScored(query, rows, sqrt);
    seq(|c|, i requires 0 <= i < |c| => Combined(c[i], scores))
  }

  /** The first `limit` of a stable descending order: a prefix that no omitted candidate outscores. */
  lemma TopIsBest(c: seq<Scored>, limit: nat)
    ensures var s := SortDesc(c);
      && multiset(s) == multiset(c) && Descending(s)
      && KeepsOrder(s, c) && (forall t :: Descending(t) && KeepsOrder(t, c) ==> t == s)
      && (forall i, j :: 0 <= i < limit <= j < |s| ==> s[i].score >= s[j].score)
  {
    SortDescSorts(c);
    hide OfScore, SortDesc;
    forall t | Descending(t) && KeepsOrder(t, c) ensures t == SortDesc(c) {
      StableSortIsUnique(t, SortDesc(c));
    }
  }

  predicate Normal01(scores: map<Id, real>) {
    forall id :: id in scores ==> 0.0 <= scores[id] <= 1.0
  }

  function TextScore(c: Scored, scores: map<Id, real>): real {
    if c.entry.id in scores then scores[c.entry.id] else 0.0
  }

  predicate Between01(x: real) {
    0.0 <= x <= 1.0
  }

  /** How the two scores are weighed. */
  function Blend(cosine: real, text: real): real {
    0.7 * cosine + 0.3 * text
  }

  /** One candidate ranks above another by the text exactly when seven times its cosine lead exceeds three
      times the other's text lead; so it does whatever the text says exactly when its cosine lead is more
      than three sevenths. */
  lemma CosineOutweighs(a: Scored, b: Scored, scores: map<Id, real>)
    requires Normal01(scores)
    ensures Combined(a, scores).score == Blend(a.score, TextScore(a, scores))
    ensures Combined(a, scores).score > Combined(b, scores).score <==>
              7.0 * (a.score - b.score) > 3.0 * (TextScore(b, scores) - TextScore(a, scores))
    ensures (forall x, y :: Between01(x) && Between01(y) ==> Blend(a.score, x) > Blend(b.score, y))
       <==> 7.0 * (a.score - b.score) > 3.0
  {
    assert Between01(0.0) && Between01(1.0);
    if forall x, y :: Between01(x) && Between01(y) ==> Blend(a.score, x) > Blend(b.score, y) {
      assert Blend(a.score, 0.0) > Blend(b.score, 1.0);
    }
  }

  /** Every combined score lies between -0.7 and 1. */
  lemma {:induction false} ScoresInRange(query: Vector, rows: seq<Entry>, scores: map<Id, real>, sqrt: real -> real)
    requires IsSqrt(sqrt) && Normal01(scores)
    ensures forall k :: 0 <= k < |Candidates(query, rows, scores, sqrt)| ==>
                          -0.7 <= Candidates(query, rows, scores, sqrt)[k].score <= 1.0
  {
    CosinesInRange(query, rows, sqrt);
  }

  lemma {:induction false} CosinesInRange(query: Vector, rows: seq<Entry>, sqrt: real -> real)
    requires IsSqrt(sqrt)
    ensures forall k :: 0 <= k < |CosineScored(query, rows, sqrt)| ==>
                          -1.0 <= CosineScored(query, rows, sqrt)[k].score <= 1.0
  {
    if rows == [] {
    } else {
      CosinesInRange(query, rows[..|rows| - 1], sqrt);
      CosineInRange(query, rows[|rows| - 1].embedding, sqrt);
    }
  }

  method Similarities(query: Vector, rows: seq<Entry>, sqrt: real -> real) returns (candidates: seq<Scored>)
    requires IsSqrt(sqrt)
    ensures candidates == CosineScored(query, rows, sqrt)
  {
    candidates := [];
    for i := 0 to |rows|
      invariant candidates == CosineScored(query, rows[..i], sqrt)
    {
      assert rows[..i + 1][..i] == rows[..i];
      if |rows[i].embedding| > 0 {
        var sim := CosineSimilarity(query, rows[i].embedding, sqrt);
        candidates := candidates + [Scored(rows[i], sim)];
      }
    }
    assert rows[..|rows|] == rows;
  }

  method Combine(a: array<Scored>, bm25: map<Id, real>)
    modifies a
    ensures a[..] == seq(|old(a[..])|, i requires 0 <= i < |old(a[..])| => Combined(old(a[..])[i], bm25))
  {
    for i := 0 to a.Length
      invariant forall k :: 0 <= k < i ==> a[k] == Combined(old(a[..])[k], bm25)
      invariant forall k :: i <= k < a.Length ==> a[k] == old(a[..])[k]
    {
      var bm25Score := if a[i].entry.id in bm25 then bm25[a[i].entry.id] else 0.0;
      a[i] := a[i].(score := 0.7 * a[i].score + 0.3 * bm25Score);
    }
  }

  method Top(a: array<Scored>, limit: nat) returns (results: seq<Entry>)
    ensures results == if a.Length <= limit then Entries(a[..]) else Entries(a[..])[..limit]
  {
    results := [];
    for i := 0 to a.Length
      invariant i <= limit && results == Entries(a[..])[..i]
    {
      if i >= limit {
        break;
      }
      results := results + [a[i].entry];
    }
  }

  /** `rows` are the agent's entries with an embedding, `full` the full-text rows if that query
      succeeded, and `search` the search without a query embedding. */
  method SearchHybrid(query: Vector, rows: seq<Entry>, full: Option<seq<Raw>>, search: nat -> seq<Entry>,
                      sqrt: real -> real, limit: int)
    returns (results: seq<Entry>, ghost scores: map<Id, real>, ghost lo: real, ghost hi: real)
    requires IsSqrt(sqrt)
    ensures query == [] ==> results == search(Limit(limit))
    ensures scores == if full.None? || query == [] then map[] else Normalised(full.value, lo, hi)
    ensures query != [] && full.Some? && full.value != [] ==> Bounds(full.value, lo, hi)
    ensures query != [] ==>
              var ranked := Entries(SortDesc(Candidates(query, rows, scores, sqrt)));
              results == if |ranked| <= Limit(limit) then ranked else ranked[..Limit(limit)]
  {
    hide CosineScored, SortDesc, Normalised, Bounds, IsSqrt;
    var top := Limit(limit);
    scores, lo, hi := map[], 0.0, 0.0;
    if |query| == 0 {
      return search(top), map[], lo, hi;
    }
    var candidates := Similarities(query, rows, sqrt);
    var bm25: map<Id, real> := map[];
    if full.Some? {
      bm25, lo, hi := NormaliseScores(full.value);
    }
    scores := bm25;
    var a := new Scored[|candidates|](i requires 0 <= i < |candidates| => candidates[i]);
    assert a[..] == candidates;
    Combine(a, bm25);
    assert a[..] == Candidates(query, rows, bm25, sqrt);
    SortScoredEntries(a);
    results := Top(a, top);
  }
}

/** What hybrid search returns, told entry by entry. */
module SearchResults {
  import opened Ranking
  import opened Sorting
  import opened Text

  // ---------------------------------------------------------------- similarity

  /** The dot product grows by the product of the next components. */
  lemma DotAppends(a: Vector, b: Vector, x: real, y: real)
    requires |a| == |b|
    ensures Dot([], [], 0) == 0.0 && Dot(a + [x], b + [y], |a| + 1) == Dot(a, b, |a|) + x * y
  {
    DotOfPrefix(a + [x], b + [y], |a|);
    assert (a + [x])[..|a|] == a && (b + [y])[..|b|] == b;
  }

  lemma {:induction false} DotOfPrefix(a: Vector, b: Vector, n: nat)
    requires n <= |a| && n <= |b|
    ensures Dot(a, b, n) == Dot(a[..n], b[..n], n)
    decreases n
  {
    if n == 0 {
    } else {
      DotOfPrefix(a, b, n - 1);
      DotOfPrefix(a[..n], b[..n], n - 1);
      assert a[..n][..n - 1] == a[..n - 1] && b[..n][..n - 1] == b[..n - 1];
    }
  }

  function Negated(a: Vector): Vector {
    seq(|a|, i requires 0 <= i < |a| => -a[i])
  }

  lemma {:induction false} DotNegated(a: Vector, b: Vector, n: nat)
    requires n <= |a| && n <= |b|
    ensures Dot(Negated(a), b, n) == -Dot(a, b, n)
    ensures Dot(Negated(a), Negated(a), n) == Dot(a, a, n)
    decreases n
  {
    if n == 0 {
    } else {
      DotNegated(a, b, n - 1);
      var x, y := a[n - 1], b[n - 1];
      assert (-x) * y == -(x * y) && (-x) * (-x) == x * x;
    }
  }

  /** The similarity, times the lengths of both vectors, is their dot product; it is 0 if one is zero. */
  lemma CosineMeans(a: Vector, b: Vector, sqrt: real -> real)
    requires IsSqrt(sqrt)
    ensures var n := if |a| <= |b| then |a| else |b|;
      var p, q := Dot(a, a, n), Dot(b, b, n);
      && p >= 0.0 && q >= 0.0
      && Cosine(a, b, sqrt) * (sqrt(p) * sqrt(q)) == Dot(a, b, n)
      && (p == 0.0 || q == 0.0 ==> Cosine(a, b, sqrt) == 0.0)
  {
    var n := Common(a, b);
    var p, q := Dot(a, a, n), Dot(b, b, n);
    NormNotNegative(a, n);
    NormNotNegative(b, n);
    if p == 0.0 {
      ZeroNorm(a, b, n);
      DotCommutes(a, b, n);
    } else if q == 0.0 {
      ZeroNorm(b, a, n);
    } else {
      LengthsOfNonZero(sqrt, p, q);
      QuotientTimes(Dot(a, b, n), Lengths(sqrt, p, q));
    }
  }

  lemma QuotientTimes(d: real, m: real)
    requires m != 0.0
    ensures d / m * m == d && (-d) / m == -(d / m)
  {
    assert (-(d / m)) * m == -d;
    assert ((-d) / m) * m == -d;
    assert (-d) / m - -(d / m) == ((-d) / m) + d / m;
    assert ((-d) / m + d / m) * m == 0.0;
  }

  lemma {:induction false} DotCommutes(a: Vector, b: Vector, n: nat)
    requires n <= |a| && n <= |b|
    ensures Dot(a, b, n) == Dot(b, a, n)
  {
    if n == 0 {
    } else {
      DotCommutes(a, b, n - 1);
    }
  }

  /** Turning one vector round turns the similarity round, and exchanging the two does nothing to it. */
  lemma CosineOpposed(a: Vector, b: Vector, sqrt: real -> real)
    requires IsSqrt(sqrt)
    ensures Cosine(Negated(a), b, sqrt) == -Cosine(a, b, sqrt)
    ensures Cosine(b, a, sqrt) == Cosine(a, b, sqrt)
  {
    var n := Common(a, b);
    var p, q := Dot(a, a, n), Dot(b, b, n);
    NormNotNegative(a, n);
    NormNotNegative(b, n);
    DotNegated(a, b, n);
    DotCommutes(a, b, n);
    if p != 0.0 && q != 0.0 {
      LengthsOfNonZero(sqrt, p, q);
      QuotientTimes(Dot(a, b, n), Lengths(sqrt, p, q));
      assert Lengths(sqrt, p, q) == Lengths(sqrt, q, p);
    }
  }

  // ---------------------------------------------------------------- text scores

  /** The normalised score falls linearly from the least raw score to the greatest. */
  lemma NormalMeans(score: real, lo: real, hi: real)
    ensures lo == hi ==> Normal(score, lo, hi) == 0.5
    ensures lo != hi ==> (1.0 - Normal(score, lo, hi)) * (hi - lo) == score - lo
  {
    if lo != hi {
      QuotientTimes(score - lo, hi - lo);
    }
  }

  /** Each id has the normalised score of its last row. */
  lemma {:induction false} TextScoreOf(rows: seq<Raw>, lo: real, hi: real, k: nat)
    requires k < |rows| && forall j :: k < j < |rows| ==> rows[j].id != rows[k].id
    ensures rows[k].id in Normalised(rows, lo, hi)
    ensures Normalised(rows, lo, hi)[rows[k].id] == Normal(rows[k].score, lo, hi)
    decreases |rows|
  {
    if k == |rows| - 1 {
    } else {
      TextScoreOf(rows[..|rows| - 1], lo, hi, k);
    }
  }

  // ---------------------------------------------------------------- results

  /** The entries that can be compared with a query. */
  function Embedded(rows: seq<Entry>): seq<Entry> {
    if rows == [] then []
    else Embedded(rows[..|rows| - 1]) + if rows[|rows| - 1].embedding == [] then [] else [rows[|rows| - 1]]
  }

  lemma {:induction false} EmbeddedMembers(rows: seq<Entry>, e: Entry)
    ensures e in Embedded(rows) <==> e in rows && e.embedding != []
  {
    if rows == [] {
    } else {
      EmbeddedMembers(rows[..|rows| - 1], e);
      assert rows == rows[..|rows| - 1] + [rows[|rows| - 1]];
    }
  }

  /** Seven parts similarity, three parts text. */
  ghost function ScoreOf(query: Vector, e: Entry, scores: map<Id, real>, sqrt: real -> real): real
    requires IsSqrt(sqrt)
  {
    0.7 * Cosine(query, e.embedding, sqrt) + 0.3 * if e.id in scores then scores[e.id] else 0.0
  }

  lemma {:induction false} SimilaritiesAre(query: Vector, rows: seq<Entry>, sqrt: real -> real)
    requires IsSqrt(sqrt)
    ensures var c, es := CosineScored(query, rows, sqrt), Embedded(rows);
      |c| == |es| && forall k :: 0 <= k < |c| ==> c[k] == Scored(es[k], Cosine(query, es[k].embedding, sqrt))
  {
    hide Cosine, IsSqrt;
    if rows == [] {
    } else {
      SimilaritiesAre(query, rows[..|rows| - 1], sqrt);
    }
  }

  lemma CandidatesAre(query: Vector, rows: seq<Entry>, scores: map<Id, real>, sqrt: real -> real)
    requires IsSqrt(sqrt)
    ensures var c, es := Candidates(query, rows, scores, sqrt), Embedded(rows);
      |c| == |es| && forall k :: 0 <= k < |c| ==> c[k] == Scored(es[k], ScoreOf(query, es[k], scores, sqrt))
  {
    hide Cosine, IsSqrt, CosineScored;
    SimilaritiesAre(query, rows, sqrt);
  }

  /** What the search returns is the best: as many embedded entries as there are, up to the limit, in
      descending order of score, and none left out outscores one returned. */
  lemma ResultsAreBest(query: Vector, rows: seq<Entry>, scores: map<Id, real>, sqrt: real -> real, limit: int,
                       results: seq<Entry>)
    requires IsSqrt(sqrt)
    requires var ranked := Entries(SortDesc(Candidates(query, rows, scores, sqrt)));
      results == if |ranked| <= Limit(limit) then ranked else ranked[..Limit(limit)]
    ensures var top, es := if limit > 0 then limit else 5, Embedded(rows);
      && |results| == (if |es| < top then |es| else top)
      && multiset(results) <= multiset(es)
      && (forall i, j :: 0 <= i < j < |results| ==>
            ScoreOf(query, results[i], scores, sqrt) >= ScoreOf(query, results[j], scores, sqrt))
      && (forall i, e :: 0 <= i < |results| && e in es && e !in results ==>
            ScoreOf(query, results[i], scores, sqrt) >= ScoreOf(query, e, scores, sqrt))
  {
    hide ScoreOf, Candidates, SortDesc, IsSqrt, Descending, Entries, Embedded;
    var s, score := SortDesc(Candidates(query, rows, scores, sqrt)), (e: Entry) => ScoreOf(query, e, scores, sqrt);
    RankedAre(query, rows, scores, sqrt);
    FirstAreBest(s, Embedded(rows), score, Limit(limit), results);
  }

  lemma EntriesPermute(s: seq<Scored>, t: seq<Scored>)
    requires multiset(s) == multiset(t)
    ensures multiset(Entries(s)) == multiset(Entries(t)) && |s| == |t|
    ensures forall i :: 0 <= i < |s| ==> s[i] in t
  {
    var f := (x: Scored) => x.entry;
    MappedPermutes(s, t, f);
    SameMembers(s, t);
    assert Mapped(s, f) == Entries(s) && Mapped(t, f) == Entries(t);
  }

  lemma RankedAre(query: Vector, rows: seq<Entry>, scores: map<Id, real>, sqrt: real -> real)
    requires IsSqrt(sqrt)
    ensures var s := SortDesc(Candidates(query, rows, scores, sqrt));
      && Descending(s) && multiset(Entries(s)) == multiset(Embedded(rows))
      && forall i :: 0 <= i < |s| ==> s[i].score == ScoreOf(query, s[i].entry, scores, sqrt)
  {
    hide ScoreOf, Candidates, SortDesc, IsSqrt, Embedded;
    var c := Candidates(query, rows, scores, sqrt);
    CandidatesAre(query, rows, scores, sqrt);
    SortDescSorts(c);
    EntriesPermute(SortDesc(c), c);
    assert Entries(c) == Embedded(rows);
  }

  lemma FirstAreBest(s: seq<Scored>, es: seq<Entry>, score: Entry -> real, top: nat, results: seq<Entry>)
    requires Descending(s) && multiset(Entries(s)) == multiset(es)
    requires forall i :: 0 <= i < |s| ==> s[i].score == score(s[i].entry)
    requires var ranked := Entries(s); results == if |ranked| <= top then ranked else ranked[..top]
    ensures |results| == (if |es| < top then |es| else top) && multiset(results) <= multiset(es)
    ensures forall i, j :: 0 <= i < j < |results| ==> score(results[i]) >= score(results[j])
    ensures forall i, e :: 0 <= i < |results| && e in es && e !in results ==> score(results[i]) >= score(e)
  {
    var ranked := Entries(s);
    SameMembers(ranked, es);
    var rest := ranked[|results|..];
    assert ranked == results + rest;
    forall i, e | 0 <= i < |results| && e in es && e !in results ensures score(results[i]) >= score(e) {
      assert e in ranked && e in rest;
      var j :| 0 <= j < |rest| && rest[j] == e;
      assert s[i].score >= s[|results| + j].score;
    }
  }
}

/** Large tool results served page by page from a cache (orchestrator/response_paginator.go). */
module Paginator {
  import opened Sorting
  import opened Text

  // ---------------------------------------------------------------- machine integers

  const MAX: int := 0x7FFF_FFFF_FFFF_FFFF
  const MIN: int := -0x8000_0000_0000_0000

  type Int = x: int | MIN <= x <= MAX

  function Wrap(x: int): Int {
    (x + 0x8000_0000_0000_0000) % 0x1_0000_0000_0000_0000 - 0x8000_0000_0000_0000
  }

  /** Division that truncates towards zero. */
  function Quotient(x: int, y: nat): int
    requires y > 0
  {
    if x >= 0 then x / y else -(-x / y)
  }

  /** No slice of strings is longer: each takes sixteen bytes. */
  const MOST_LINES: nat := MAX / 16

  // ---------------------------------------------------------------- one page

  datatype View =
    | Invalid
    | OutOfRange(page: int, total: int)
    | Shown(page: int, total: int, first: int, last: int, count: int, lines: seq<string>, next: bool, previous: bool)
    | Panic

  function TotalPages(count: nat, size: nat): nat
    requires size > 0
  {
    (count + size - 1) / size
  }

  /** The page whose lines begin at `start`; a negative start panics. */
  function PageFrom(lines: seq<string>, size: nat, page: int, start: int): View
    requires size > 0
  {
    var total := TotalPages(|lines|, size);
    if start >= |lines| then OutOfRange(page, total)
    else if start < 0 then Panic
    else
      var end := if start + size > |lines| then |lines| else start + size;
      Shown(page, total, start + 1, end, |lines|, lines[start..end], page < total, page > 1)
  }

  /** The code multiplies in machine integers, so the start may wrap round. */
  function PageOf(lines: seq<string>, size: nat, page: Int): View
    requires size > 0
  {
    if page < 1 then Invalid else PageFrom(lines, size, page, Wrap((page - 1) * size))
  }

  lemma WrapFits(x: int)
    ensures MIN <= x <= MAX ==> Wrap(x) == x
  {
  }

  lemma ProductGrows(x: int, y: int, z: nat)
    ensures x <= y ==> x * z <= y * z
  {
  }

  /** The number of pages, without division. */
  lemma TotalMeans(count: nat, size: nat)
    requires 0 < size
    ensures var total := TotalPages(count, size);
      && count <= total * size && (total > 0 ==> (total - 1) * size < count)
      && (total == 0 <==> count == 0)
  {
    var total := TotalPages(count, size);
    assert count + size - 1 == total * size + (count + size - 1) % size;
    assert (total - 1) * size == total * size - size;
    ProductGrows(1, total, size);
  }

  /** The product of a page within range fits, and lies within the lines. */
  lemma StartOfPage(count: nat, size: nat, page: int)
    requires 0 < size && count <= MOST_LINES && 1 <= page <= TotalPages(count, size)
    ensures 0 <= (page - 1) * size < count && Wrap((page - 1) * size) == (page - 1) * size
    ensures page == TotalPages(count, size) ==> count <= page * size
    ensures page < TotalPages(count, size) ==> page * size < count
  {
    TotalMeans(count, size);
    WrapFits((page - 1) * size);
    hide TotalPages, Wrap;
    var total := TotalPages(count, size);
    ProductGrows(page - 1, total - 1, size);
    ProductGrows(0, page - 1, size);
    ProductGrows(page, total - 1, size);
  }

  lemma EndOfPages(count: nat, size: nat, page: int)
    requires 0 < size && page > TotalPages(count, size)
    ensures (page - 1) * size >= count
  {
    TotalMeans(count, size);
    hide TotalPages;
    ProductGrows(TotalPages(count, size), page - 1, size);
  }

  lemma FewerPagesThanLines(count: nat, size: nat)
    requires 0 < size
    ensures TotalPages(count, size) <= count
  {
    TotalMeans(count, size);
    hide TotalPages;
    var total := TotalPages(count, size);
    if total > 0 {
      assert (total - 1) * 1 <= (total - 1) * size by {
        ProductGrows(1, size, total - 1);
        assert 1 * (total - 1) <= size * (total - 1);
      }
    }
  }

  predicate Refused(v: View) {
    v.Invalid? || v.OutOfRange?
  }

  /** What a page in range shows: its lines, its place and whether it has neighbours. */
  ghost predicate ShowsPage(v: View, lines: seq<string>, size: nat, page: int, start: int)
    requires 0 < size
  {
    && v.Shown? && v.page == page && v.total == TotalPages(|lines|, size) && v.count == |lines|
    && 0 <= start && v.first == start + 1 && v.last == start + |v.lines| <= |lines|
    && v.lines == lines[start..v.last] && 1 <= |v.lines| <= size
    && (v.next <==> v.last < |lines|) && (v.next ==> |v.lines| == size) && (v.previous <==> v.first > 1)
  }

  lemma PageFromShows(lines: seq<string>, size: nat, page: int, start: int)
    requires 0 < size && 0 <= start < |lines| && 1 <= page <= TotalPages(|lines|, size)
    requires page < TotalPages(|lines|, size) <==> start + size < |lines|
    requires page > 1 <==> start > 0
    ensures ShowsPage(PageFrom(lines, size, page, start), lines, size, page, start)
  {
  }

  lemma PagesInRangeAreShown(lines: seq<string>, size: nat, page: Int)
    requires 0 < size && |lines| <= MOST_LINES && 1 <= page <= TotalPages(|lines|, size)
    ensures ShowsPage(PageOf(lines, size, page), lines, size, page, (page - 1) * size)
  {
    StartOfPage(|lines|, size, page);
    hide TotalPages, Wrap, PageFrom, ShowsPage;
    assert page * size == (page - 1) * size + size;
    ProductGrows(1, page - 1, size);
    PageFromShows(lines, size, page, (page - 1) * size);
  }

  lemma RefusedIfItFits(lines: seq<string>, size: nat, page: Int)
    requires 0 < size && |lines| <= MOST_LINES && (page < 1 || page > TotalPages(|lines|, size))
    ensures Refused(PageOf(lines, size, page)) <==>
              (page - 1) * size <= MAX || Wrap((page - 1) * size) >= |lines|
  {
    if page < 1 {
      ProductGrows(page - 1, 0, size);
    } else {
      EndOfPages(|lines|, size, page);
      WrapFits((page - 1) * size);
      hide TotalPages, Wrap;
    }
  }

  /** A page is refused exactly when it is outside the range, provided its offset fits a machine integer
      or wraps round to one past the lines; otherwise a page far outside is served, or panics. */
  lemma RefusedOutsideRange(lines: seq<string>, size: nat, page: Int)
    requires 0 < size && |lines| <= MOST_LINES
    ensures var outside := page < 1 || page > TotalPages(|lines|, size);
      var v := PageOf(lines, size, page);
      && (!outside ==> ShowsPage(v, lines, size, page, (page - 1) * size))
      && (outside ==> (Refused(v) <==> (page - 1) * size <= MAX || Wrap((page - 1) * size) >= |lines|))
  {
    hide ShowsPage, PageOf, TotalPages, Wrap;
    if 1 <= page <= TotalPages(|lines|, size) {
      PagesInRangeAreShown(lines, size, page);
    } else {
      RefusedIfItFits(lines, size, page);
    }
  }

  /** Two pages far beyond the second of two: one is served all the same, the other panics. */
  lemma FarPagesAreServed(lines: seq<string>)
    requires |lines| == 20
    ensures TotalPages(20, 10) == 2
    ensures PageOf(lines, 10, 1844674407370955163) ==
            Shown(1844674407370955163, 2, 5, 14, 20, lines[4..14], false, true)
    ensures PageOf(lines, 10, 922337203685477582) == Panic
  {
  }

  /** The lines of pages 1 to `n`, one page after the other. */
  function FirstPages(lines: seq<string>, size: nat, n: nat): seq<string>
    requires 0 < size && n <= MAX
  {
    if n == 0 then []
    else
      var v := PageOf(lines, size, n);
      FirstPages(lines, size, n - 1) + if v.Shown? then v.lines else []
  }

  /** How many lines the first `n` pages hold. */
  function Reach(count: nat, size: nat, n: nat): nat {
    if n * size <= count then n * size else count
  }

  lemma PageReaches(lines: seq<string>, size: nat, n: nat)
    requires 0 < size && |lines| <= MOST_LINES && 1 <= n <= TotalPages(|lines|, size) <= MAX
    ensures var lo, hi := Reach(|lines|, size, n - 1), Reach(|lines|, size, n);
      var v := PageOf(lines, size, n);
      lo <= hi <= |lines| && v.Shown? && v.lines == lines[lo..hi]
  {
    StartOfPage(|lines|, size, n);
    hide TotalPages, Wrap;
    assert n * size == (n - 1) * size + size;
  }

  lemma ReachEnds(count: nat, size: nat)
    requires 0 < size
    ensures Reach(count, size, 0) == 0 && Reach(count, size, TotalPages(count, size)) == count
  {
    TotalMeans(count, size);
  }

  lemma {:induction false} FirstPagesArePrefix(lines: seq<string>, size: nat, n: nat)
    requires 0 < size && |lines| <= MOST_LINES && n <= TotalPages(|lines|, size) <= MAX
    ensures Reach(|lines|, size, n) <= |lines| && FirstPages(lines, size, n) == lines[..Reach(|lines|, size, n)]
  {
    hide PageOf, TotalPages, Reach;
    if n == 0 {
      ReachEnds(|lines|, size);
    } else {
      FirstPagesArePrefix(lines, size, n - 1);
      PageReaches(lines, size, n);
      var lo, hi := Reach(|lines|, size, n - 1), Reach(|lines|, size, n);
      assert lines[..lo] + lines[lo..hi] == lines[..hi];
    }
  }

  // ---------------------------------------------------------------- lines

  const NEWLINE := '\n'

  /** The string cut at its newlines. */
  function Lines(s: string): (r: seq<string>)
    ensures r != []
    decreases |s|
  {
    if s == "" then [""]
    else
      var before := Lines(s[..|s| - 1]);
      var c := s[|s| - 1];
      if c == NEWLINE then before + [""] else before[|before| - 1 := before[|before| - 1] + [c]]
  }

  function JoinWith(sep: string, parts: seq<string>): string {
    if parts == [] then ""
    else if |parts| == 1 then parts[0]
    else JoinWith(sep, parts[..|parts| - 1]) + sep + parts[|parts| - 1]
  }

  /** Growing the last part grows the joined string. */
  lemma JoinGrows(sep: string, parts: seq<string>, more: string)
    requires parts != []
    ensures var n := |parts| - 1;
      JoinWith(sep, parts[n := parts[n] + more]) == JoinWith(sep, parts) + more
  {
    var n := |parts| - 1;
    assert parts[n := parts[n] + more][..n] == parts[..n];
    if n > 0 {
      var front := JoinWith(sep, parts[..n]) + sep;
      assert front + (parts[n] + more) == (front + parts[n]) + more;
    }
  }

  /** Cutting loses nothing, and no line holds a newline. */
  lemma {:induction false} LinesJoin(s: string)
    ensures JoinWith("\n", Lines(s)) == s
    ensures forall k :: 0 <= k < |Lines(s)| ==> '\n' !in Lines(s)[k]
    ensures |Lines(s)| <= |s| + 1
  {
    if s == "" {
    } else {
      var before, c := Lines(s[..|s| - 1]), s[|s| - 1];
      LinesJoin(s[..|s| - 1]);
      assert s == s[..|s| - 1] + [c];
      if c == NEWLINE {
        assert (before + [""])[..|before|] == before;
        assert s[..|s| - 1] + [NEWLINE] + "" == s;
      } else {
        JoinGrows([NEWLINE], before, [c]);
        hide JoinWith;
      }
    }
  }

  // ---------------------------------------------------------------- cache keys

  datatype Value = IntValue(n: Int) | FloatValue(x: real) | OtherValue(text: string)

  type Args = map<string, Value>

  predicate Paging(name: string) {
    name == "page" || name == "query"
  }

  /** Byte-wise order of strings. */
  predicate AtMost(s: string, t: string) {
    s == "" || (t != "" && (s[0] < t[0] || (s[0] == t[0] && AtMost(s[1..], t[1..]))))
  }

  lemma {:induction false} AtMostTotal(s: string, t: string)
    ensures AtMost(s, t) || AtMost(t, s)
    ensures AtMost(s, t) && AtMost(t, s) ==> s == t
  {
    if s != "" && t != "" && s[0] == t[0] {
      AtMostTotal(s[1..], t[1..]);
      assert s == [s[0]] + s[1..] && t == [t[0]] + t[1..];
    } else {
    }
  }

  lemma {:induction false} AtMostTransitive(s: string, t: string, u: string)
    requires AtMost(s, t) && AtMost(t, u)
    ensures AtMost(s, u)
  {
    if s != "" && s[0] == t[0] == u[0] {
      AtMostTransitive(s[1..], t[1..], u[1..]);
    } else {
    }
  }

  predicate Exceeds(x: string, y: string) {
    !AtMost(x, y)
  }

  /** What `sort.Strings` leaves. */
  function SortStrings(s: seq<string>): seq<string> {
    Sort(s, Exceeds)
  }

  predicate Ascending(s: seq<string>) {
    Ordered(s, Exceeds)
  }

  lemma AscendingFront(s: seq<string>)
    requires Ascending(s) && s != []
    ensures Ascending(s[..|s| - 1])
    ensures forall k :: 0 <= k < |s| - 1 ==> AtMost(s[k], s[|s| - 1])
  {
    hide AtMost;
    forall k | 0 <= k < |s| - 1 ensures AtMost(s[k], s[|s| - 1]) {
      assert !Exceeds(s[k], s[|s| - 1]);
    }
  }

  lemma SortStringsOrders(s: seq<string>)
    ensures Ascending(SortStrings(s)) && multiset(SortStrings(s)) == multiset(s)
  {
    forall x, y | Exceeds(x, y) ensures !Exceeds(y, x) {
      AtMostTotal(x, y);
    }
    forall x, y, z | !Exceeds(x, y) && !Exceeds(y, z) ensures !Exceeds(x, z) {
      AtMostTransitive(x, y, z);
    }
    hide AtMost;
    SortOrders(s, Exceeds);
  }

  lemma LastIsGreatest(s: seq<string>, x: string)
    requires Ascending(s) && x in s
    ensures AtMost(x, s[|s| - 1])
  {
    AscendingFront(s);
    AtMostTotal(x, x);
    var k :| 0 <= k < |s| && s[k] == x;
    assert k < |s| - 1 ==> s[..|s| - 1][k] == x;
  }

  lemma {:induction false} OrderedIsUnique(s: seq<string>, t: seq<string>)
    requires Ascending(s) && Ascending(t) && multiset(s) == multiset(t)
    ensures s == t
  {
    SameMembers(s, t);
    if s == [] {
    } else {
      SameGreatest(s, t);
      AscendingFront(s);
      AscendingFront(t);
      hide *;
      SameWithout(s, |s| - 1, t, |t| - 1);
      Front(s);
      Front(t);
      OrderedIsUnique(s[..|s| - 1], t[..|t| - 1]);
    }
  }

  lemma SameGreatest(s: seq<string>, t: seq<string>)
    requires Ascending(s) && Ascending(t) && s != [] && |s| == |t| && forall x :: x in s <==> x in t
    ensures s[|s| - 1] == t[|t| - 1]
  {
    hide *;
    var x, y := s[|s| - 1], t[|t| - 1];
    assert x in s && y in t;
    LastIsGreatest(s, y);
    LastIsGreatest(t, x);
    AtMostTotal(x, y);
  }

  /** The order in which a range over the arguments visits them: each name once. */
  ghost predicate Visits(order: seq<string>, args: Args) {
    multiset(order) == multiset(args.Keys)
  }

  function Part(args: Args, show: Value -> string, name: string): string
    requires name in args
  {
    name + "=" + show(args[name])
  }

  function Parts(order: seq<string>, args: Args, show: Value -> string): seq<string>
    requires forall k :: 0 <= k < |order| ==> order[k] in args
  {
    if order == [] then []
    else
      var name := order[|order| - 1];
      Parts(order[..|order| - 1], args, show) + if Paging(name) then [] else [Part(args, show, name)]
  }

  function Key(tool: string, order: seq<string>, args: Args, show: Value -> string): string
    requires forall k :: 0 <= k < |order| ==> order[k] in args
  {
    tool + "|" + JoinWith(",", SortStrings(Parts(order, args, show)))
  }

  /** What counts towards the key: each argument but the page and the query, as it is shown. */
  function Shows(args: Args, show: Value -> string): map<string, string> {
    map name | name in args && !Paging(name) :: show(args[name])
  }

  lemma VisitsIn(order: seq<string>, args: Args)
    requires Visits(order, args)
    ensures forall k :: 0 <= k < |order| ==> order[k] in args
  {
    forall k | 0 <= k < |order| ensures order[k] in args {
      assert order[k] in multiset(order);
    }
  }

  /** The names that count towards the key. */
  function Named(order: seq<string>): seq<string> {
    if order == [] then []
    else
      var name := order[|order| - 1];
      Named(order[..|order| - 1]) + if Paging(name) then [] else [name]
  }

  lemma {:induction false} NamedCounts(order: seq<string>)
    ensures forall name :: multiset(Named(order))[name] == if Paging(name) then 0 else multiset(order)[name]
  {
    if order == [] {
    } else {
      NamedCounts(order[..|order| - 1]);
      assert order == order[..|order| - 1] + [order[|order| - 1]];
    }
  }

  lemma {:induction false} PartsOfNamed(order: seq<string>, args: Args, show: Value -> string)
    requires forall k :: 0 <= k < |order| ==> order[k] in args
    ensures forall k :: 0 <= k < |Named(order)| ==> Named(order)[k] in args && !Paging(Named(order)[k])
    ensures Parts(Named(order), args, show) == Parts(order, args, show)
  {
    if order == [] {
    } else {
      PartsOfNamed(order[..|order| - 1], args, show);
      var rest, name := Named(order[..|order| - 1]), order[|order| - 1];
      assert Named(order) == if Paging(name) then rest else rest + [name];
      assert (rest + [name])[..|rest|] == rest && (rest + [name])[|rest|] == name;
    }
  }

  lemma {:induction false} PartsPermute(p: seq<string>, q: seq<string>, a: Args, b: Args, show: Value -> string)
    requires multiset(p) == multiset(q) && Shows(a, show) == Shows(b, show)
    requires forall k :: 0 <= k < |p| ==> p[k] in a && !Paging(p[k])
    requires forall k :: 0 <= k < |q| ==> q[k] in b && !Paging(q[k])
    ensures multiset(Parts(p, a, show)) == multiset(Parts(q, b, show))
  {
    SameMembers(p, q);
    if p == [] {
    } else {
      var name, r := p[|p| - 1], p[..|p| - 1];
      assert name in p && name in q;
      var k :| 0 <= k < |q| && q[k] == name;
      SameWithout(p, |p| - 1, q, k);
      Front(p);
      SplitParts(q, k, b, show);
      PartsPermute(r, q[..k] + q[k + 1..], a, b, show);
      assert show(a[name]) == Shows(a, show)[name] == Shows(b, show)[name] == show(b[name]);
      hide Parts, Shows;
      PartsOfLast(p, a, show);
    }
  }

  lemma PartsOfLast(p: seq<string>, a: Args, show: Value -> string)
    requires p != [] && forall k :: 0 <= k < |p| ==> p[k] in a && !Paging(p[k])
    ensures multiset(Parts(p, a, show))
            == multiset(Parts(p[..|p| - 1], a, show)) + multiset{Part(a, show, p[|p| - 1])}
  {
  }

  lemma SplitParts(q: seq<string>, k: nat, a: Args, show: Value -> string)
    requires k < |q| && forall i :: 0 <= i < |q| ==> q[i] in a && !Paging(q[i])
    ensures var t := q[..k] + q[k + 1..];
      && (forall i :: 0 <= i < |t| ==> t[i] in a && !Paging(t[i]))
      && multiset(Parts(q, a, show)) == multiset(Parts(t, a, show)) + multiset{Part(a, show, q[k])}
  {
    hide *;
    var front, back := q[..k], q[k + 1..];
    SinglePart(q[k], a, show);
    PartsConcat(front, [q[k]] + back, a, show);
    PartsConcat([q[k]], back, a, show);
    PartsConcat(front, back, a, show);
    Middle(q, k);
    MiddleOut(Parts(front, a, show), Part(a, show, q[k]), Parts(back, a, show));
  }

  lemma {:induction false} PartsConcat(p: seq<string>, q: seq<string>, a: Args, show: Value -> string)
    requires forall k :: 0 <= k < |p| ==> p[k] in a
    requires forall k :: 0 <= k < |q| ==> q[k] in a
    ensures Parts(p + q, a, show) == Parts(p, a, show) + Parts(q, a, show)
  {
    if q == [] {
      assert p + q == p;
    } else {
      PartsConcat(p, q[..|q| - 1], a, show);
      assert (p + q)[..|p + q| - 1] == p + q[..|q| - 1];
    }
  }

  lemma NamesOf(order: seq<string>, args: Args, show: Value -> string)
    requires Visits(order, args)
    ensures multiset(Named(order)) == multiset(Shows(args, show).Keys)
  {
    NamedCounts(order);
    hide Named;
    forall name ensures multiset(Named(order))[name] == multiset(Shows(args, show).Keys)[name] {
      assert multiset(order)[name] == multiset(args.Keys)[name];
      assert name in Shows(args, show).Keys <==> name in args.Keys && !Paging(name);
    }
  }

  /** Whatever order the arguments are visited in, calls that show the same but for page and query have
      one key. */
  lemma SameShownSameKey(tool: string, p: seq<string>, a: Args, q: seq<string>, b: Args, show: Value -> string)
    requires Visits(p, a) && Visits(q, b) && Shows(a, show) == Shows(b, show)
    ensures (forall k :: 0 <= k < |p| ==> p[k] in a) && (forall k :: 0 <= k < |q| ==> q[k] in b)
    ensures Key(tool, p, a, show) == Key(tool, q, b, show)
  {
    VisitsIn(p, a);
    VisitsIn(q, b);
    hide Visits, Shows, Parts, Named, SortStrings, Ascending;
    NamesOf(p, a, show);
    NamesOf(q, b, show);
    PartsOfNamed(p, a, show);
    PartsOfNamed(q, b, show);
    PartsPermute(Named(p), Named(q), a, b, show);
    SortStringsOrders(Parts(p, a, show));
    SortStringsOrders(Parts(q, b, show));
    OrderedIsUnique(SortStrings(Parts(p, a, show)), SortStrings(Parts(q, b, show)));
  }

  // ---------------------------------------------------------------- when keys tell calls apart

  const BAR := '|'
  const COMMA := ','
  const EQUALS := '='

  /** A tool and arguments that use none of the key's punctuation, but for bars and equals in values. */
  ghost predicate Clean(tool: string, args: Args, show: Value -> string) {
    && BAR !in tool
    && forall name :: name in Shows(args, show) ==>
         EQUALS !in name && COMMA !in name && COMMA !in Shows(args, show)[name]
  }

  /** A string without `c` in front of the first `c` is determined, and so is the rest. */
  lemma FirstSplits(x: string, y: string, u: string, v: string, c: char)
    requires c !in x && c !in u && x + [c] + y == u + [c] + v
    ensures x == u && y == v
  {
    var s := x + [c] + y;
    assert s[|x|] == c && s[|u|] == c;
    assert forall i :: 0 <= i < |x| ==> s[i] == x[i] != c;
    assert forall i :: 0 <= i < |u| ==> s[i] == u[i] != c;
    assert s[..|x|] == x && s[..|u|] == u && s[|x| + 1..] == y && s[|u| + 1..] == v;
  }

  lemma LastSplits(x: string, y: string, u: string, v: string, c: char)
    requires c !in y && c !in v && x + [c] + y == u + [c] + v
    ensures x == u && y == v
  {
    var s := x + [c] + y;
    assert s[|x|] == c && s[|u|] == c;
    assert forall i :: |x| < i < |s| ==> s[i] == y[i - |x| - 1] != c;
    assert forall i :: |u| < i < |s| ==> s[i] == v[i - |u| - 1] != c;
    assert s[..|x|] == x && s[..|u|] == u && s[|x| + 1..] == y && s[|u| + 1..] == v;
  }

  ghost predicate Plain(parts: seq<string>) {
    forall k :: 0 <= k < |parts| ==> parts[k] != "" && COMMA !in parts[k]
  }

  lemma JoinOfMany(parts: seq<string>)
    requires |parts| >= 2
    ensures JoinWith(",", parts) == JoinWith(",", parts[..|parts| - 1]) + [COMMA] + parts[|parts| - 1]
    ensures COMMA in JoinWith(",", parts)
  {
    var front := JoinWith(",", parts[..|parts| - 1]);
    assert (front + [COMMA] + parts[|parts| - 1])[|front|] == COMMA;
  }

  /** Joining parts that hold no comma, none of them empty, loses nothing. */
  lemma {:induction false} JoinIsInjective(p: seq<string>, q: seq<string>)
    requires Plain(p) && Plain(q) && JoinWith(",", p) == JoinWith(",", q)
    ensures p == q
  {
    if |p| >= 2 {
      JoinOfMany(p);
    }
    if |q| >= 2 {
      JoinOfMany(q);
    }
    if |p| <= 1 || |q| <= 1 {
      assert |p| == |q| && p == q;
    } else {
      var r, t := p[..|p| - 1], q[..|q| - 1];
      LastSplits(JoinWith(",", r), p[|p| - 1], JoinWith(",", t), q[|q| - 1], COMMA);
      JoinIsInjective(r, t);
      Front(p);
      Front(q);
    }
  }

  lemma {:induction false} PartsMembers(order: seq<string>, args: Args, show: Value -> string, text: string)
    requires forall k :: 0 <= k < |order| ==> order[k] in args
    ensures text in Parts(order, args, show) <==>
              exists k :: 0 <= k < |order| && !Paging(order[k]) && text == Part(args, show, order[k])
  {
    if order == [] {
    } else {
      var front, last := order[..|order| - 1], order[|order| - 1];
      PartsMembers(front, args, show, text);
      assert text in Parts(order, args, show) <==>
        text in Parts(front, args, show) || (!Paging(last) && text == Part(args, show, last));
      if k :| 0 <= k < |front| && !Paging(front[k]) && text == Part(args, show, front[k]) {
        assert order[k] == front[k];
      }
      if k :| 0 <= k < |order| && !Paging(order[k]) && text == Part(args, show, order[k]) && k < |front| {
        assert front[k] == order[k];
      }
    }
  }

  /** Some entry of the map reads `text`. */
  ghost predicate HasPart(a: map<string, string>, text: string) {
    exists name :: name in a && text == name + "=" + a[name]
  }

  lemma PartsOfVisited(order: seq<string>, args: Args, show: Value -> string, text: string)
    requires Visits(order, args)
    ensures forall k :: 0 <= k < |order| ==> order[k] in args
    ensures text in Parts(order, args, show) <==> HasPart(Shows(args, show), text)
  {
    VisitsIn(order, args);
    PartsMembers(order, args, show, text);
    if k :| 0 <= k < |order| && !Paging(order[k]) && text == Part(args, show, order[k]) {
      assert order[k] in Shows(args, show);
    }
    if name :| name in Shows(args, show) && text == name + "=" + Shows(args, show)[name] {
      assert multiset(args.Keys)[name] == 1 && name in multiset(order);
      var k :| 0 <= k < |order| && order[k] == name;
      assert text == Part(args, show, order[k]);
    }
  }

  lemma CleanPart(tool: string, args: Args, show: Value -> string, text: string)
    requires Clean(tool, args, show) && HasPart(Shows(args, show), text)
    ensures text != "" && COMMA !in text
  {
    hide Shows;
    var name :| name in Shows(args, show) && text == name + "=" + Shows(args, show)[name];
    assert text[|name|] == EQUALS;
  }

  lemma CleanPartsArePlain(tool: string, order: seq<string>, args: Args, show: Value -> string)
    requires Visits(order, args) && Clean(tool, args, show)
    ensures forall k :: 0 <= k < |order| ==> order[k] in args
    ensures Plain(SortStrings(Parts(order, args, show)))
  {
    hide Visits, Clean, Parts, SortStrings, Ascending, HasPart, Shows;
    VisitsIn(order, args);
    var sorted := SortStrings(Parts(order, args, show));
    SortStringsOrders(Parts(order, args, show));
    SameMembers(sorted, Parts(order, args, show));
    forall k | 0 <= k < |sorted| ensures sorted[k] != "" && COMMA !in sorted[k] {
      assert sorted[k] in sorted;
      PartsOfVisited(order, args, show, sorted[k]);
      CleanPart(tool, args, show, sorted[k]);
    }
  }

  /** A part names its argument and shows its value. */
  lemma PartTells(name: string, a: map<string, string>, twin: string, b: map<string, string>)
    requires name in a && twin in b && EQUALS !in name && EQUALS !in twin
    requires name + "=" + a[name] == twin + "=" + b[twin]
    ensures name in b && a[name] == b[name]
  {
    FirstSplits(name, a[name], twin, b[twin], EQUALS);
  }

  /** Maps with the same parts are the same, if their names hold no equals sign. */
  lemma SamePartsSameMap(a: map<string, string>, b: map<string, string>)
    requires forall name :: name in a || name in b ==> EQUALS !in name
    requires forall text :: HasPart(a, text) <==> HasPart(b, text)
    ensures a == b
  {
    forall name | name in a ensures name in b && a[name] == b[name] {
      assert HasPart(a, name + "=" + a[name]);
      assert HasPart(b, name + "=" + a[name]);
      var twin :| twin in b && name + "=" + a[name] == twin + "=" + b[twin];
      PartTells(name, a, twin, b);
    }
    forall name | name in b ensures name in a && b[name] == a[name] {
      assert HasPart(b, name + "=" + b[name]);
      assert HasPart(a, name + "=" + b[name]);
      var twin :| twin in a && name + "=" + b[name] == twin + "=" + a[twin];
      PartTells(name, b, twin, a);
    }
  }

  lemma SamePartsShowTheSame(p: seq<string>, a: Args, q: seq<string>, b: Args, show: Value -> string)
    requires Visits(p, a) && Visits(q, b)
    requires (forall k :: 0 <= k < |p| ==> p[k] in a) && (forall k :: 0 <= k < |q| ==> q[k] in b)
    requires multiset(Parts(p, a, show)) == multiset(Parts(q, b, show))
    requires forall name :: name in Shows(a, show) || name in Shows(b, show) ==> EQUALS !in name
    ensures Shows(a, show) == Shows(b, show)
  {
    SameMembers(Parts(p, a, show), Parts(q, b, show));
    hide Parts, Visits, Shows;
    forall text ensures HasPart(Shows(a, show), text) <==> HasPart(Shows(b, show), text) {
      PartsOfVisited(p, a, show, text);
      PartsOfVisited(q, b, show, text);
    }
    SamePartsSameMap(Shows(a, show), Shows(b, show));
  }

  lemma CleanKeySplits(tool: string, x: seq<string>, other: string, y: seq<string>)
    requires BAR !in tool && BAR !in other && Plain(x) && Plain(y)
    requires tool + "|" + JoinWith(",", x) == other + "|" + JoinWith(",", y)
    ensures tool == other && x == y
  {
    FirstSplits(tool, JoinWith(",", x), other, JoinWith(",", y), BAR);
    JoinIsInjective(x, y);
  }

  lemma OneKeyShowsTheSame(tool: string, p: seq<string>, a: Args, other: string, q: seq<string>, b: Args,
                           show: Value -> string)
    requires Visits(p, a) && Visits(q, b) && Clean(tool, a, show) && Clean(other, b, show)
    requires (forall k :: 0 <= k < |p| ==> p[k] in a) && (forall k :: 0 <= k < |q| ==> q[k] in b)
    requires Key(tool, p, a, show) == Key(other, q, b, show)
    ensures tool == other && Shows(a, show) == Shows(b, show)
  {
    CleanPartsArePlain(tool, p, a, show);
    CleanPartsArePlain(other, q, b, show);
    SortStringsOrders(Parts(p, a, show));
    SortStringsOrders(Parts(q, b, show));
    hide Parts, SortStrings, JoinWith, Visits, Plain, Ascending, Shows;
    CleanKeySplits(tool, SortStrings(Parts(p, a, show)), other, SortStrings(Parts(q, b, show)));
    SamePartsShowTheSame(p, a, q, b, show);
  }

  /** Calls that keep off the key's punctuation have one key exactly when they use one tool and show the
      same arguments, page and query aside, in whatever order these are visited. */
  lemma KeysTellCallsApart(tool: string, p: seq<string>, a: Args, other: string, q: seq<string>, b: Args,
                           show: Value -> string)
    requires Visits(p, a) && Visits(q, b) && Clean(tool, a, show) && Clean(other, b, show)
    ensures (forall k :: 0 <= k < |p| ==> p[k] in a) && (forall k :: 0 <= k < |q| ==> q[k] in b)
    ensures Key(tool, p, a, show) == Key(other, q, b, show) <==> tool == other && Shows(a, show) == Shows(b, show)
  {
    VisitsIn(p, a);
    VisitsIn(q, b);
    hide Key, Shows, Clean, Visits;
    if Key(tool, p, a, show) == Key(other, q, b, show) {
      OneKeyShowsTheSame(tool, p, a, other, q, b, show);
    }
    if tool == other && Shows(a, show) == Shows(b, show) {
      SameShownSameKey(tool, p, a, q, b, show);
    }
  }

  /** A comma inside a value reads like a further argument, so keys of unclean calls can be one. */
  lemma KeysCollide(tool: string, a: string, b: string, v: Value, x: Value, y: Value, show: Value -> string)
    requires a != b && !Paging(a) && !Paging(b)
    requires show(v) == show(x) + "," + b + "=" + show(y)
    requires AtMost(a + "=" + show(x), b + "=" + show(y))
    ensures Shows(map[a := v], show) != Shows(map[a := x, b := y], show)
    ensures Key(tool, [a], map[a := v], show) == Key(tool, [a, b], map[a := x, b := y], show)
  {
    var one, two := map[a := v], map[a := x, b := y];
    assert b !in Shows(one, show) && b in Shows(two, show);
    SinglePart(a, one, show);
    PairParts(a, b, two, show);
    JoinedPair(a + "=" + show(x), b + "=" + show(y));
    Regrouped(a, show(x), b, show(y));
    hide Parts, SortStrings, JoinWith, Shows, Paging, AtMost;
  }

  /** Such as a file named "1,b=2" passed as `a`, against "1" as `a` and "2" as `b`. */
  lemma TwoCallsOneKey(tool: string, show: Value -> string)
    requires forall text :: show(OtherValue(text)) == text
    ensures var one, two := map["a" := OtherValue("1,b=2")], map["a" := OtherValue("1"), "b" := OtherValue("2")];
      Shows(one, show) != Shows(two, show) && Key(tool, ["a"], one, show) == Key(tool, ["a", "b"], two, show)
  {
    assert "1" + "," + "b" + "=" + "2" == "1,b=2";
    hide Shows, Key;
    KeysCollide(tool, "a", "b", OtherValue("1,b=2"), OtherValue("1"), OtherValue("2"), show);
  }

  lemma JoinedPair(p: string, q: string)
    requires AtMost(p, q)
    ensures JoinWith(",", SortStrings([p, q])) == p + "," + q
    ensures forall r :: JoinWith(",", SortStrings([r])) == r
  {
    forall r ensures SortStrings([r]) == [r] {
      SortSingle(r, Exceeds);
    }
    SortPair(p, q, Exceeds);
    hide SortStrings;
    assert [p, q][..1] == [p];
  }

  lemma Regrouped(a: string, x: string, b: string, y: string)
    ensures a + "=" + (x + "," + b + "=" + y) == (a + "=" + x) + "," + (b + "=" + y)
  {
  }

  lemma PairParts(a: string, b: string, args: Args, show: Value -> string)
    requires a in args && b in args && !Paging(a) && !Paging(b)
    ensures Parts([a, b], args, show) == [Part(args, show, a), Part(args, show, b)]
  {
    assert [a, b][..1] == [a];
    SinglePart(a, args, show);
  }

  lemma SinglePart(name: string, args: Args, show: Value -> string)
    requires name in args && !Paging(name)
    ensures Parts([name], args, show) == [Part(args, show, name)]
  {
    assert [name][..0] == [];
  }

  // ---------------------------------------------------------------- calls

  type Cache = map<string, seq<string>>

  datatype Config = Config(size: nat, maxResponseSize: int, show: Value -> string)

  /** One use of a tool: `order` is the order in which a range over the arguments visits them. */
  datatype Call = Call(tool: string, args: Args, order: seq<string>, result: string) {
    ghost predicate Valid() {
      Visits(order, args)
    }
  }

  datatype Answer = Whole(result: string) | BadPage | NotCached | Served(view: View)

  function Truncated(x: real): int {
    if x >= 0.0 then x.Floor else -(-x).Floor
  }

  /** A float beyond the integers converts to the least one, as on common hardware. */
  function PageNumber(v: Value): Option<Int> {
    match v
    case IntValue(n) => Some(n)
    case FloatValue(x) => if MIN <= Truncated(x) <= MAX then Some(Truncated(x)) else Some(MIN)
    case OtherValue(_) => None
  }

  /** The call puts its result into the cache. */
  predicate Stores(cfg: Config, c: Call) {
    "page" !in c.args && |c.result| > cfg.maxResponseSize
  }

  ghost function KeyOf(cfg: Config, c: Call): string
    requires c.Valid()
  {
    VisitsIn(c.order, c.args);
    Key(c.tool, c.order, c.args, cfg.show)
  }

  ghost function Stored(cfg: Config, cache: Cache, c: Call): Cache
    requires c.Valid()
  {
    if Stores(cfg, c) then cache[KeyOf(cfg, c) := Lines(c.result)] else cache
  }

  ghost function Answered(cfg: Config, cache: Cache, c: Call): Answer
    requires c.Valid() && cfg.size > 0
  {
    if "page" in c.args then
      match PageNumber(c.args["page"])
      case None => BadPage
      case Some(page) =>
        if KeyOf(cfg, c) in cache then Served(PageOf(cache[KeyOf(cfg, c)], cfg.size, page)) else NotCached
    else if |c.result| <= cfg.maxResponseSize then Whole(c.result)
    else Served(PageOf(Lines(c.result), cfg.size, 1))
  }

  class ResponsePaginator {
    const size: nat
    const maxResponseSize: int
    const show: Value -> string
    var cache: Cache

    function Settings(): Config {
      Config(size, maxResponseSize, show)
    }

    constructor (contextWindow: Int, show: Value -> string)
      ensures cache == map[] && size >= 10 && Settings().show == show
      ensures size == if contextWindow >= 8000 then contextWindow / 800 else 10
      ensures contextWindow >= 0 ==> maxResponseSize == contextWindow / 5
      ensures contextWindow < 0 ==> maxResponseSize == -(-(contextWindow as int) / 5)
    {
      var pageSize := Quotient(Quotient(contextWindow, 10), 80);
      this.size := if pageSize < 10 then 10 else pageSize;
      this.maxResponseSize := Quotient(contextWindow, 5);
      this.show := show;
      this.cache := map[];
    }

    method CacheKey(c: Call) returns (key: string)
      requires c.Valid()
      ensures key == KeyOf(Settings(), c)
    {
      VisitsIn(c.order, c.args);
      var parts: seq<string> := [];
      for i := 0 to |c.order|
        invariant parts == Parts(c.order[..i], c.args, show)
      {
        var k := c.order[i];
        assert c.order[..i + 1][..i] == c.order[..i];
        if k != "page" && k != "query" {
          parts := parts + [k + "=" + show(c.args[k])];
        }
      }
      assert c.order[..|c.order|] == c.order;
      key := c.tool + "|" + JoinWith(",", SortStrings(parts));
    }

    method Paginate(c: Call) returns (answer: Answer)
      requires c.Valid() && size > 0
      modifies this
      ensures cache == Stored(Settings(), old(cache), c)
      ensures answer == Answered(Settings(), old(cache), c)
    {
      if "page" in c.args {
        answer := GetPage(c);
        return;
      }
      if |c.result| <= maxResponseSize {
        return Whole(c.result);
      }
      var key := CacheKey(c);
      cache := cache[key := Lines(c.result)];
      answer := Served(PageOf(Lines(c.result), size, 1));
    }

    method GetPage(c: Call) returns (answer: Answer)
      requires c.Valid() && size > 0 && "page" in c.args
      ensures answer == Answered(Settings(), cache, c)
    {
      var page := PageNumber(c.args["page"]);
      if page.None? {
        return BadPage;
      }
      var key := CacheKey(c);
      if key !in cache {
        return NotCached;
      }
      answer := Served(PageOf(cache[key], size, page.value));
    }
  }

  // ---------------------------------------------------------------- runs of calls

  /** The cache after a run of calls. */
  ghost function After(cfg: Config, cache: Cache, calls: seq<Call>): Cache
    requires forall k :: 0 <= k < |calls| ==> calls[k].Valid()
  {
    if calls == [] then cache else Stored(cfg, After(cfg, cache, calls[..|calls| - 1]), calls[|calls| - 1])
  }

  lemma {:induction false} EntryStays(cfg: Config, cache: Cache, calls: seq<Call>, key: string)
    requires forall k :: 0 <= k < |calls| ==> calls[k].Valid() && (Stores(cfg, calls[k]) ==> KeyOf(cfg, calls[k]) != key)
    ensures key in After(cfg, cache, calls) <==> key in cache
    ensures key in cache ==> After(cfg, cache, calls)[key] == cache[key]
  {
    if calls == [] {
    } else {
      EntryStays(cfg, cache, calls[..|calls| - 1], key);
    }
  }

  /** The calls use one tool and show the same arguments, page and query aside. */
  predicate Alike(cfg: Config, c: Call, d: Call) {
    c.tool == d.tool && Shows(c.args, cfg.show) == Shows(d.args, cfg.show)
  }

  ghost predicate CleanCall(cfg: Config, c: Call) {
    Clean(c.tool, c.args, cfg.show)
  }

  /** Until its entry is stored anew, a large result is read back page by page by every like call. */
  lemma PagesReadOneEntry(cfg: Config, cache: Cache, first: Call, calls: seq<Call>, later: Call)
    requires cfg.size > 0 && first.Valid() && later.Valid() && Stores(cfg, first) && Alike(cfg, first, later)
    requires forall k :: 0 <= k < |calls| ==>
      calls[k].Valid() && (Stores(cfg, calls[k]) ==> KeyOf(cfg, calls[k]) != KeyOf(cfg, first))
    requires "page" in later.args && PageNumber(later.args["page"]).Some?
    ensures Answered(cfg, After(cfg, Stored(cfg, cache, first), calls), later)
         == Served(PageOf(Lines(first.result), cfg.size, PageNumber(later.args["page"]).value))
  {
    SameShownSameKey(first.tool, first.order, first.args, later.order, later.args, cfg.show);
    EntryStays(cfg, Stored(cfg, cache, first), calls, KeyOf(cfg, first));
  }

  /** Among clean calls a large result stays readable page by page, by every call that differs from the
      original only in page and query, whatever other calls store: only a like call replaces it. */
  lemma PagesReadOneSnapshot(cfg: Config, cache: Cache, first: Call, calls: seq<Call>, later: Call)
    requires cfg.size > 0 && first.Valid() && CleanCall(cfg, first) && Stores(cfg, first)
    requires later.Valid() && Alike(cfg, first, later)
    requires forall k :: 0 <= k < |calls| ==>
      calls[k].Valid() && CleanCall(cfg, calls[k]) && (Stores(cfg, calls[k]) ==> !Alike(cfg, calls[k], first))
    requires "page" in later.args && PageNumber(later.args["page"]).Some?
    ensures Answered(cfg, After(cfg, Stored(cfg, cache, first), calls), later)
         == Served(PageOf(Lines(first.result), cfg.size, PageNumber(later.args["page"]).value))
  {
    forall k | 0 <= k < |calls| && Stores(cfg, calls[k]) ensures KeyOf(cfg, calls[k]) != KeyOf(cfg, first) {
      KeysTellCallsApart(calls[k].tool, calls[k].order, calls[k].args, first.tool, first.order, first.args, cfg.show);
    }
    hide Key, Shows, Clean, Visits;
    PagesReadOneEntry(cfg, cache, first, calls, later);
  }

  /** The pages, one after the other, are the lines of the result, and joining these gives it back. */
  lemma PagesPartitionTheResult(result: string, size: nat)
    requires 0 < size && |Lines(result)| <= MOST_LINES
    ensures TotalPages(|Lines(result)|, size) <= |Lines(result)|
    ensures FirstPages(Lines(result), size, TotalPages(|Lines(result)|, size)) == Lines(result)
    ensures JoinWith([NEWLINE], FirstPages(Lines(result), size, TotalPages(|Lines(result)|, size))) == result
  {
    var lines := Lines(result);
    FewerPagesThanLines(|lines|, size);
    FirstPagesArePrefix(lines, size, TotalPages(|lines|, size));
    ReachEnds(|lines|, size);
    assert lines[..|lines|] == lines;
    LinesJoin(result);
  }

  /** A page number as it comes out of JSON: 1e18 at ten lines a page panics, 20 lines being cached. */
  lemma FarFloatPagePanics(cfg: Config, cache: Cache, c: Call)
    requires cfg.size == 10 && c.Valid() && "page" in c.args && c.args["page"] == FloatValue(1.0e18)
    requires KeyOf(cfg, c) in cache && |cache[KeyOf(cfg, c)]| == 20
    ensures Answered(cfg, cache, c) == Served(Panic)
  {
  }
}

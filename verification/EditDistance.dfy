/** Edit distance between tool names and the suggestion built on it
    (orchestrator/tool_fuzzy_match.go). */
module EditDistance {
  import opened Text

  // ---------------------------------------------------------------- edit scripts

  /** One single-character edit, at a position of the string it is applied to. */
  datatype Edit =
    | Insert(at: nat, c: char)
    | Delete(at: nat)
    | Substitute(at: nat, c: char)

  predicate Applicable(s: string, e: Edit) {
    match e
    case Insert(at, _) => at <= |s|
    case Delete(at) => at < |s|
    case Substitute(at, _) => at < |s|
  }

  function ApplyEdit(s: string, e: Edit): string
    requires Applicable(s, e)
  {
    match e
    case Insert(at, c) => s[..at] + [c] + s[at..]
    case Delete(at) => s[..at] + s[at + 1..]
    case Substitute(at, c) => s[at := c]
  }

  /** Applying the edits of `script` one after the other takes `a` to `b`. */
  predicate Transforms(a: string, script: seq<Edit>, b: string)
    decreases |script|
  {
    if script == [] then a == b
    else Applicable(a, script[0]) && Transforms(ApplyEdit(a, script[0]), script[1..], b)
  }

  // ---------------------------------------------------------------- the recurrence

  function Min3(a: int, b: int, c: int): (m: int)
    ensures m <= a && m <= b && m <= c
    ensures m == a || m == b || m == c
  {
    if a < b then
      if a < c then a else c
    else if b < c then b
    else c
  }

  function Init(s: string): string
    requires s != []
  {
    s[..|s| - 1]
  }

  function Last(s: string): char
    requires s != []
  {
    s[|s| - 1]
  }

  /** The dynamic program's recurrence, on the last characters. */
  function Distance(a: string, b: string): nat
    decreases |a| + |b|
  {
    if a == [] then |b|
    else if b == [] then |a|
    else if Last(a) == Last(b) then Distance(Init(a), Init(b))
    else 1 + Min3(Distance(Init(a), Init(b)), Distance(Init(a), b), Distance(a, Init(b)))
  }

  // ---------------------------------------------------------------- some script is that short

  lemma {:induction false} TransformsThen(a: string, s: seq<Edit>, b: string, t: seq<Edit>, c: string)
    requires Transforms(a, s, b) && Transforms(b, t, c)
    ensures Transforms(a, s + t, c)
    decreases |s|
  {
    if s == [] {
      assert s + t == t;
    } else {
      assert (s + t)[1..] == s[1..] + t;
      TransformsThen(ApplyEdit(a, s[0]), s[1..], b, t, c);
    }
  }

  lemma {:induction false} EditFront(a: string, e: Edit, tail: string)
    requires Applicable(a, e)
    ensures Applicable(a + tail, e) && ApplyEdit(a + tail, e) == ApplyEdit(a, e) + tail
  {
  }

  /** A script does the same to the front of a longer string. */
  lemma {:induction false} TransformsFront(a: string, s: seq<Edit>, b: string, tail: string)
    requires Transforms(a, s, b)
    ensures Transforms(a + tail, s, b + tail)
    decreases |s|
  {
    if s == [] {
    } else {
      EditFront(a, s[0], tail);
      TransformsFront(ApplyEdit(a, s[0]), s[1..], b, tail);
    }
  }

  lemma TransformsThenEdit(a: string, s: seq<Edit>, b: string, e: Edit)
    requires Transforms(a, s, b) && Applicable(b, e)
    ensures Transforms(a, s + [e], ApplyEdit(b, e))
  {
    assert [e][1..] == [];
    assert Transforms(ApplyEdit(b, e), [], ApplyEdit(b, e));
    TransformsThen(a, s, b, [e], ApplyEdit(b, e));
  }

  function Inserts(b: string): (s: seq<Edit>) {
    if b == [] then [] else Inserts(Init(b)) + [Insert(|b| - 1, Last(b))]
  }

  function Deletes(a: string): (s: seq<Edit>) {
    if a == [] then [] else [Delete(|a| - 1)] + Deletes(Init(a))
  }

  /** A script that does the fronts of two strings needs one more edit for their last characters. */
  lemma ThenEdits(a: string, s: seq<Edit>, b: string, x: char, y: char)
    requires Transforms(a, s, b)
    ensures Transforms(a + [x], s + [Substitute(|b|, y)], b + [y])
    ensures Transforms(a + [x], s + [Delete(|b|)], b)
    ensures Transforms(a, s + [Insert(|b|, y)], b + [y])
  {
    LastEdits(b, x, y);
    TransformsFront(a, s, b, [x]);
    TransformsThenEdit(a + [x], s, b + [x], Substitute(|b|, y));
    TransformsThenEdit(a + [x], s, b + [x], Delete(|b|));
    TransformsThenEdit(a, s, b, Insert(|b|, y));
    hide Transforms, ApplyEdit, Applicable;
  }

  lemma LastEdits(b: string, x: char, y: char)
    ensures Applicable(b + [x], Substitute(|b|, y)) && ApplyEdit(b + [x], Substitute(|b|, y)) == b + [y]
    ensures Applicable(b + [x], Delete(|b|)) && ApplyEdit(b + [x], Delete(|b|)) == b
    ensures Applicable(b, Insert(|b|, y)) && ApplyEdit(b, Insert(|b|, y)) == b + [y]
  {
  }

  lemma {:induction false} InsertsWork(b: string)
    ensures |Inserts(b)| == |b| && Transforms([], Inserts(b), b)
  {
    hide Transforms, Inserts;
    if b == [] {
      NoInserts();
    } else {
      var front, c := Init(b), Last(b);
      InsertsWork(front);
      ThenEdits([], Inserts(front), front, c, c);
      InsertsMore(front, c);
      assert b == front + [c];
    }
  }

  lemma NoInserts()
    ensures Inserts([]) == [] && Transforms([], [], [])
  {
  }

  lemma InsertsMore(b: string, c: char)
    ensures Inserts(b + [c]) == Inserts(b) + [Insert(|b|, c)]
  {
    assert Init(b + [c]) == b;
  }

  lemma {:induction false} DeletesWork(a: string)
    ensures |Deletes(a)| == |a| && Transforms(a, Deletes(a), [])
  {
    if a == [] {
    } else {
      DeletesWork(Init(a));
      assert ApplyEdit(a, Delete(|a| - 1)) == Init(a);
      assert Deletes(a)[1..] == Deletes(Init(a));
    }
  }

  /** A script of length `Distance(a, b)` turns `a` into `b`. */
  lemma {:induction false} ShortestScript(a: string, b: string) returns (script: seq<Edit>)
    ensures |script| == Distance(a, b) && Transforms(a, script, b)
    decreases |a| + |b|
  {
    if a == [] {
      InsertsWork(b);
      return Inserts(b);
    }
    if b == [] {
      DeletesWork(a);
      return Deletes(a);
    }
    hide Transforms;
    var x, y := Last(a), Last(b);
    assert a == Init(a) + [x] && b == Init(b) + [y];
    if x == y {
      script := ShortestScript(Init(a), Init(b));
      TransformsFront(Init(a), script, Init(b), [x]);
      return;
    }
    var both, onlyA, onlyB := Distance(Init(a), Init(b)), Distance(Init(a), b), Distance(a, Init(b));
    if Distance(a, b) == 1 + both {
      var front := ShortestScript(Init(a), Init(b));
      ThenEdits(Init(a), front, Init(b), x, y);
      script := front + [Substitute(|b| - 1, y)];
    } else if Distance(a, b) == 1 + onlyA {
      var front := ShortestScript(Init(a), b);
      ThenEdits(Init(a), front, b, x, y);
      script := front + [Delete(|b|)];
    } else {
      var front := ShortestScript(a, Init(b));
      ThenEdits(a, front, Init(b), x, y);
      script := front + [Insert(|b| - 1, y)];
    }
  }

  // ---------------------------------------------------------------- no script is shorter

  predicate Close(x: int, y: int) {
    x - 1 <= y <= x + 1
  }

  /** Dropping the last character of either side moves the distance by at most one. */
  lemma {:induction false} DropLast(a: string, b: string)
    ensures a != [] ==> Close(Distance(a, b), Distance(Init(a), b))
    ensures b != [] ==> Close(Distance(a, b), Distance(a, Init(b)))
    decreases |a| + |b|
  {
    if a != [] && b != [] {
      DropLast(Init(a), b);
      DropLast(a, Init(b));
      DropLast(Init(a), Init(b));
    } else {
    }
  }

  /** Dropping any character of the left side moves the distance by at most one. */
  lemma {:induction false} DropAt(a: string, i: nat, b: string)
    requires i < |a|
    ensures Close(Distance(a, b), Distance(a[..i] + a[i + 1..], b))
    decreases |a| + |b|
  {
    var a' := a[..i] + a[i + 1..];
    if i == |a| - 1 {
      assert a' == Init(a);
      DropLast(a, b);
    } else if b != [] {
      assert Last(a') == Last(a);
      assert Init(a') == Init(a)[..i] + Init(a)[i + 1..];
      DropAt(Init(a), i, Init(b));
      DropAt(Init(a), i, b);
      DropAt(a, i, Init(b));
    }
  }

  /** Overwriting any character of the left side moves the distance by at most one. */
  lemma {:induction false} OverwriteAt(a: string, i: nat, c: char, b: string)
    requires i < |a|
    ensures Close(Distance(a, b), Distance(a[i := c], b))
    decreases |a| + |b|
  {
    var a' := a[i := c];
    if b == [] {
    } else {
      if i == |a| - 1 {
        assert Init(a') == Init(a);
        DropLast(Init(a), b);
        DropLast(a, Init(b));
        DropLast(a', Init(b));
        OverwriteAt(a, i, c, Init(b));
      } else {
        assert Last(a') == Last(a) && Init(a') == Init(a)[i := c];
        OverwriteAt(Init(a), i, c, Init(b));
        OverwriteAt(Init(a), i, c, b);
        OverwriteAt(a, i, c, Init(b));
      }
    }
  }

  lemma EditMovesByOne(a: string, e: Edit, b: string)
    requires Applicable(a, e)
    ensures Distance(a, b) <= 1 + Distance(ApplyEdit(a, e), b)
  {
    match e
    case Insert(at, c) =>
      var a' := ApplyEdit(a, e);
      assert a'[..at] + a'[at + 1..] == a;
      DropAt(a', at, b);
    case Delete(at) => DropAt(a, at, b);
    case Substitute(at, c) => OverwriteAt(a, at, c, b);
  }

  lemma {:induction false} DistanceToSelf(a: string)
    ensures Distance(a, a) == 0
  {
    if a == [] {
    } else {
      DistanceToSelf(Init(a));
    }
  }

  /** No script that turns `a` into `b` has fewer edits than `Distance(a, b)`. */
  lemma {:induction false} NoShorterScript(a: string, script: seq<Edit>, b: string)
    requires Transforms(a, script, b)
    ensures Distance(a, b) <= |script|
    decreases |script|
  {
    if script == [] {
      DistanceToSelf(a);
    } else {
      EditMovesByOne(a, script[0], b);
      NoShorterScript(ApplyEdit(a, script[0]), script[1..], b);
    }
  }

  /** `d` is the least number of edits that turns `a` into `b`. */
  ghost predicate IsEditDistance(a: string, b: string, d: int) {
    && (exists script :: Transforms(a, script, b) && |script| == d)
    && (forall script :: Transforms(a, script, b) ==> d <= |script|)
  }

  lemma DistanceIsLeast(a: string, b: string)
    ensures IsEditDistance(a, b, Distance(a, b))
  {
    var s := ShortestScript(a, b);
    forall script | Transforms(a, script, b) ensures Distance(a, b) <= |script| {
      NoShorterScript(a, script, b);
    }
  }

  // ---------------------------------------------------------------- a metric

  lemma {:induction false} Symmetric(a: string, b: string)
    ensures Distance(a, b) == Distance(b, a)
    decreases |a| + |b|
  {
    if a != [] && b != [] {
      Symmetric(Init(a), Init(b));
      Symmetric(Init(a), b);
      Symmetric(a, Init(b));
    } else {
    }
  }

  lemma Triangle(a: string, b: string, c: string)
    ensures Distance(a, c) <= Distance(a, b) + Distance(b, c)
  {
    var s := ShortestScript(a, b);
    var t := ShortestScript(b, c);
    TransformsThen(a, s, b, t, c);
    NoShorterScript(a, s + t, c);
  }

  lemma {:induction false} ZeroExactlyOnEqual(a: string, b: string)
    ensures Distance(a, b) == 0 <==> a == b
  {
    DistanceToSelf(a);
    var s := ShortestScript(a, b);
  }

  lemma {:induction false} LengthBounds(a: string, b: string)
    ensures |a| - |b| <= Distance(a, b) && |b| - |a| <= Distance(a, b)
    ensures Distance(a, b) <= |a| || Distance(a, b) <= |b|
    decreases |a| + |b|
  {
    if a != [] && b != [] {
      LengthBounds(Init(a), Init(b));
      LengthBounds(Init(a), b);
      LengthBounds(a, Init(b));
    } else {
    }
  }

  // ---------------------------------------------------------------- the in-place algorithm

  /** The value the table holds at row `i`, column `j`. */
  ghost function Cell(a: string, b: string, i: nat, j: nat): nat
    requires i <= |a| && j <= |b|
  {
    Distance(a[..i], b[..j])
  }

  lemma CellBorder(a: string, b: string)
    ensures forall j :: 0 <= j <= |b| ==> Cell(a, b, 0, j) == j
    ensures forall i :: 0 <= i <= |a| ==> Cell(a, b, i, 0) == i
    ensures Cell(a, b, |a|, |b|) == Distance(a, b)
  {
    assert a[..|a|] == a && b[..|b|] == b;
  }

  lemma CellStep(a: string, b: string, i: nat, j: nat)
    requires 1 <= i <= |a| && 1 <= j <= |b|
    ensures Cell(a, b, i, j) ==
            if a[i - 1] == b[j - 1] then Cell(a, b, i - 1, j - 1)
            else 1 + Min3(Cell(a, b, i - 1, j - 1), Cell(a, b, i - 1, j), Cell(a, b, i, j - 1))
  {
    assert Init(a[..i]) == a[..i - 1] && Init(b[..j]) == b[..j - 1];
  }

  /** One row of the table, overwritten from left to right: cell `k` holds row `i` once the
      inner loop has passed it, and row `i - 1` before. */
  method Levenshtein(a: string, b: string) returns (d: int)
    ensures d == Distance(a, b) && IsEditDistance(a, b, d)
  {
    hide Distance, Cell, IsEditDistance;
    DistanceIsLeast(a, b);
    CellBorder(a, b);
    assert |a| == 0 ==> Distance(a, b) == Cell(a, b, 0, |b|);
    assert |b| == 0 ==> Distance(a, b) == Cell(a, b, |a|, 0);
    if |a| == 0 {
      return |b|;
    }
    if |b| == 0 {
      return |a|;
    }
    var row := new int[|b| + 1];
    for j := 0 to |b| + 1
      invariant forall k :: 0 <= k < j ==> row[k] == k
    {
      row[j] := j;
    }
    for i := 1 to |a| + 1
      invariant forall k :: 0 <= k <= |b| ==> row[k] == Cell(a, b, i - 1, k)
    {
      FillRow(a, b, i, row);
    }
    d := row[|b|];
  }

  method FillRow(a: string, b: string, i: nat, row: array<int>)
    requires 1 <= i <= |a| && row.Length == |b| + 1
    requires forall k :: 0 <= k <= |b| ==> row[k] == Cell(a, b, i - 1, k)
    modifies row
    ensures forall k :: 0 <= k <= |b| ==> row[k] == Cell(a, b, i, k)
  {
    hide Distance, Cell;
    CellBorder(a, b);
    var prev := row[0];
    row[0] := i;
    for j := 1 to |b| + 1
      invariant prev == Cell(a, b, i - 1, j - 1)
      invariant forall k :: 0 <= k < j ==> row[k] == Cell(a, b, i, k)
      invariant forall k :: j <= k <= |b| ==> row[k] == Cell(a, b, i - 1, k)
    {
      CellStep(a, b, i, j);
      var tmp := row[j];
      if a[i - 1] == b[j - 1] {
        row[j] := prev;
      } else {
        row[j] := 1 + Min3(prev, row[j], row[j - 1]);
      }
      prev := tmp;
    }
  }

  // ---------------------------------------------------------------- suggesting a tool

  /** `strings.ReplaceAll(s, "__", "_")`. */
  function Collapse(s: string): string {
    if |s| < 2 then s
    else if s[..2] == "__" then "_" + Collapse(s[2..])
    else [s[0]] + Collapse(s[1..])
  }

  lemma OccursLater(s: string, sep: string, k: nat)
    requires s != ""
    ensures OccursAt(s, sep, k + 1) <==> OccursAt(s[1..], sep, k)
  {
    assert k + 1 <= |s| - |sep| ==> s[k + 1..k + 1 + |sep|] == s[1..][k..k + |sep|];
  }

  /** Names without "__" stay as they are; otherwise the first "__" becomes "_", and the same is done to
      what follows it. */
  lemma {:induction false} CollapseMeans(front: string, rest: string)
    requires forall k :: 0 <= k < |front| ==> !OccursAt(front + "__" + rest, "__", k)
    ensures Collapse(front + "__" + rest) == front + "_" + Collapse(rest)
  {
    var s := front + "__" + rest;
    if front == "" {
      assert s[..2] == "__" && s[2..] == rest;
    } else {
      assert !OccursAt(s, "__", 0) && s[..2] == s[0..2];
      assert s[1..] == front[1..] + "__" + rest && front == [s[0]] + front[1..];
      hide OccursAt;
      forall k | 0 <= k < |front[1..]| ensures !OccursAt(front[1..] + "__" + rest, "__", k) {
        OccursLater(s, "__", k);
      }
      CollapseMeans(front[1..], rest);
      assert [s[0]] + (front[1..] + "_" + Collapse(rest)) == front + "_" + Collapse(rest);
    }
  }

  lemma {:induction false} CollapseNothing(s: string)
    requires forall k :: 0 <= k ==> !OccursAt(s, "__", k)
    ensures Collapse(s) == s
    decreases |s|
  {
    if |s| < 2 {
    } else {
      assert !OccursAt(s, "__", 0) && s[..2] == s[0..2];
      forall k | 0 <= k ensures !OccursAt(s[1..], "__", k) {
        OccursLater(s, "__", k);
      }
      CollapseNothing(s[1..]);
    }
  }

  /** The part after the last ":", or failing that after the last "__". */
  function ExtractBaseName(name: string): (base: string)
    ensures Contains(name, ":") ==> HasSuffix(name, ":" + base) && !Contains(base, ":")
    ensures !Contains(name, ":") && Contains(name, "__") ==>
              HasSuffix(name, "__" + base) && !Contains("_" + base, "__") && !Contains(base, ":")
    ensures !Contains(name, ":") && !Contains(name, "__") ==> base == name
  {
    match LastIndex(name, ":")
    case Some(i) =>
      AfterLast(name, ":", i);
      assert ":" + name[i + 1..] == name[i..];
      name[i + 1..]
    case None =>
      match LastIndex(name, "__")
      case Some(i) =>
        AfterLast(name, "__", i);
        AfterAbsent(name, ":", i + 2);
        assert "__" + name[i + 2..] == name[i..] && "_" + name[i + 2..] == name[i + 1..];
        name[i + 2..]
      case None => name
  }

  lemma AfterLast(name: string, sep: string, i: nat)
    requires sep != "" && LastIndex(name, sep) == Some(i)
    ensures !Contains(name[i + 1..], sep)
  {
    var rest := name[i + 1..];
    forall k: nat ensures !OccursAt(rest, sep, k) {
      assert !OccursAt(name, sep, i + 1 + k);
      assert k + |sep| <= |rest| ==> name[i + 1 + k..i + 1 + k + |sep|] == rest[k..k + |sep|];
    }
  }

  lemma AfterAbsent(name: string, sep: string, i: nat)
    requires i <= |name| && !Contains(name, sep)
    ensures !Contains(name[i..], sep)
  {
    var rest := name[i..];
    forall k: nat ensures !OccursAt(rest, sep, k) {
      assert !OccursAt(name, sep, i + k);
      assert k + |sep| <= |rest| ==> name[i + k..i + k + |sep|] == rest[k..k + |sep|];
    }
  }

  /** The prefix and base-name tests of the first pass. */
  predicate QuickMatch(name: string, regName: string) {
    || HasPrefix(Collapse(regName), Collapse(name))
    || HasPrefix(Collapse(name), Collapse(regName))
    || Contains(regName, ExtractBaseName(name))
    || Contains(name, ExtractBaseName(regName))
  }

  /** A registered name matches at once if one of the two collapsed names begins with the other, or the
      last part of one name occurs in the other name. */
  lemma QuickMatchMeans(name: string, regName: string)
    ensures QuickMatch(name, regName) <==>
      || Collapse(name) <= Collapse(regName) || Collapse(regName) <= Collapse(name)
      || (exists i :: OccursAt(regName, ExtractBaseName(name), i))
      || (exists i :: OccursAt(name, ExtractBaseName(regName), i))
  {
    hide Collapse, OccursAt, ExtractBaseName;
    var a, b := Collapse(name), Collapse(regName);
    assert HasPrefix(b, a) == (a <= b) && HasPrefix(a, b) == (b <= a);
  }

  const NEAR := 5

  ghost predicate Near(name: string, registry: set<string>) {
    exists r :: r in registry && Distance(name, r) <= 5
  }

  ghost predicate Nearest(name: string, registry: set<string>, r: string) {
    && r in registry && Distance(name, r) <= 5
    && forall other :: other in registry ==> Distance(name, r) <= Distance(name, other)
  }

  ghost predicate AnyQuick(name: string, registry: set<string>) {
    exists r :: r in registry && QuickMatch(name, r)
  }

  /** Go ranges over a map in an unspecified order, freshly chosen for each loop:
      `first` and `second` are those two orders. */
  method SuggestTool(name: string, registry: set<string>, first: seq<string>, second: seq<string>)
    returns (suggestion: string)
    requires forall r :: r in registry <==> r in first
    requires forall r :: r in registry <==> r in second
    ensures if AnyQuick(name, registry) then suggestion in registry && QuickMatch(name, suggestion)
            else if Near(name, registry) then Nearest(name, registry, suggestion)
            else suggestion == ""
  {
    var quick := QuickTool(name, registry, first);
    if quick.Some? {
      return quick.value;
    }
    suggestion := NearestTool(name, registry, second);
  }

  method QuickTool(name: string, registry: set<string>, order: seq<string>) returns (tool: Option<string>)
    requires forall r :: r in registry <==> r in order
    ensures tool.Some? <==> AnyQuick(name, registry)
    ensures tool.Some? ==> tool.value in registry && QuickMatch(name, tool.value)
  {
    for i := 0 to |order|
      invariant forall k :: 0 <= k < i ==> !QuickMatch(name, order[k])
    {
      if QuickMatch(name, order[i]) {
        return Some(order[i]);
      }
    }
    tool := None;
  }

  method NearestTool(name: string, registry: set<string>, order: seq<string>) returns (bestMatch: string)
    requires forall r :: r in registry <==> r in order
    ensures if Near(name, registry) then Nearest(name, registry, bestMatch) else bestMatch == ""
  {
    hide Distance, IsEditDistance;
    bestMatch := "";
    var bestDist := 999;
    ghost var found := false;
    for i := 0 to |order|
      invariant if found then bestMatch in registry && bestDist == Distance(name, bestMatch) && bestDist <= NEAR
                else bestMatch == "" && bestDist == 999
      invariant forall k :: 0 <= k < i ==> NotNearer(name, order[k], found, bestDist)
    {
      var dist := Levenshtein(name, order[i]);
      if dist < bestDist && dist <= NEAR {
        bestDist := dist;
        bestMatch := order[i];
        found := true;
      }
    }
    forall r | r in registry ensures NotNearer(name, r, found, bestDist) {
    }
  }

  ghost predicate NotNearer(name: string, r: string, found: bool, bestDist: int) {
    if found then bestDist <= Distance(name, r) else Distance(name, r) > NEAR
  }
}

/** The stream parser loses nothing, and agrees with the batch parser exactly when stated
    (provider/local.go). */
module ThinkingBatch {
  import opened Text
  import opened ThinkingStream

  // ---------------------------------------------------------------- conservation

  /** The stretches between the tags the parser removes, up to the text it still holds back. */
  function Segments(tags: Tags, x: string, inThink: bool): (segs: seq<string>)
    ensures segs != []
    decreases |x|
  {
    var tag := tags.End(inThink);
    match Index(x, tag)
    case Some(i) => [x[..i]] + Segments(tags, x[i + |tag|..], !inThink)
    case None => [x[..|x| - HeldLength(x, tag)]]
  }

  /** The segments with alternating tags put back between them. */
  function Weave(tags: Tags, segs: seq<string>, inThink: bool): string
    requires segs != []
  {
    if |segs| == 1 then segs[0]
    else segs[0] + tags.End(inThink) + Weave(tags, segs[1..], !inThink)
  }

  function MarkSegments(segs: seq<string>, inThink: bool): seq<Mark> {
    if segs == [] then [] else Marks(inThink, segs[0]) + MarkSegments(segs[1..], !inThink)
  }

  /** Mode of segment `i`. */
  predicate ModeOf(inThink: bool, i: nat) {
    if i % 2 == 0 then inThink else !inThink
  }

  /** `s` runs to the first end tag of its mode. */
  ghost predicate EndsAtFirstTag(tags: Tags, s: string, inThink: bool) {
    Index(s + tags.End(inThink), tags.End(inThink)) == Some(|s|)
  }

  /** Each segment runs to the first end tag of its mode; the last one, with the held-back text,
      has none. */
  ghost predicate CutAtFirstTags(tags: Tags, segs: seq<string>, inThink: bool, held: string)
    requires segs != []
  {
    && (forall i :: 0 <= i < |segs| - 1 ==> EndsAtFirstTag(tags, segs[i], ModeOf(inThink, i)))
    && Index(segs[|segs| - 1] + held, tags.End(ModeOf(inThink, |segs| - 1))).None?
  }

  /** `segs` accounts for all of the input `x`, given what was emitted and what is held back. */
  ghost predicate Accounts(tags: Tags, segs: seq<string>, x: string, inThink: bool, out: Output)
    requires segs != []
  {
    && x == Weave(tags, segs, inThink) + out.buf
    && Flatten(out.events) == MarkSegments(segs, inThink)
    && out.inThink == ModeOf(inThink, |segs| - 1)
    && CutAtFirstTags(tags, segs, inThink, out.buf)
  }

  lemma FirstTagAlone(x: string, tag: string, i: nat)
    requires tag != "" && Index(x, tag) == Some(i)
    ensures Index(x[..i] + tag, tag) == Some(i) && |x[..i]| == i
  {
    var y := x[..i] + tag;
    assert y == x[..i + |tag|];
    assert OccursAt(y, tag, i);
    forall k | 0 <= k < i ensures !OccursAt(y, tag, k) {
      assert !OccursAt(x, tag, k);
      assert y[k..k + |tag|] == x[k..k + |tag|];
    }
  }

  lemma FirstTagEnds(tags: Tags, x: string, inThink: bool, i: nat)
    requires Index(x, tags.End(inThink)) == Some(i)
    ensures EndsAtFirstTag(tags, x[..i], inThink)
  {
    FirstTagAlone(x, tags.End(inThink), i);
  }

  lemma AccountFound(tags: Tags, x: string, inThink: bool, i: nat, later: seq<string>)
    requires Index(x, tags.End(inThink)) == Some(i) && later != []
    requires var y := x[i + |tags.End(inThink)|..];
             Accounts(tags, later, y, !inThink, Drain(tags, y, !inThink))
    ensures Accounts(tags, [x[..i]] + later, x, inThink, Drain(tags, x, inThink))
  {
    hide IndexFrom, HeldUpTo, Drain, Flatten, Emit, Marks, CutAtFirstTags, EndsAtFirstTag, ModeOf;
    var tag := tags.End(inThink);
    var y := x[i + |tag|..];
    var rest := Drain(tags, y, !inThink);
    DrainFound(tags, x, inThink, i);
    FlattenEmit(inThink, x[..i], rest.events);
    FirstTagEnds(tags, x, inThink, i);
    ShiftCut(tags, x[..i], later, inThink, rest.buf);
    assert ([x[..i]] + later)[1..] == later;
    assert x == x[..i] + tag + y;
    var w := Weave(tags, later, !inThink);
    assert Weave(tags, [x[..i]] + later, inThink) == x[..i] + tag + w;
    assert (x[..i] + tag + w) + rest.buf == x[..i] + tag + (w + rest.buf);
  }

  lemma AccountHeld(tags: Tags, x: string, inThink: bool, safe: nat)
    requires Index(x, tags.End(inThink)).None? && safe == |x| - HeldLength(x, tags.End(inThink))
    ensures Accounts(tags, [x[..safe]], x, inThink, Drain(tags, x, inThink))
  {
    hide IndexFrom, HeldUpTo, Drain, Flatten, Emit, Marks, CutAtFirstTags, ModeOf;
    DrainHeld(tags, x, inThink, safe);
    FlattenEmit(inThink, x[..safe], []);
    assert x[..safe] + x[safe..] == x;
    CutAlone(tags, x[..safe], inThink, x[safe..]);
    MarkOne(x[..safe], inThink);
    FlattenConcat(Emit(inThink, x[..safe]), []);
  }

  lemma MarkOne(s: string, inThink: bool)
    ensures MarkSegments([s], inThink) == Marks(inThink, s)
  {
    assert MarkSegments([], !inThink) == [];
  }

  lemma {:induction false} SegmentsAccount(tags: Tags, x: string, inThink: bool)
    ensures Accounts(tags, Segments(tags, x, inThink), x, inThink, Drain(tags, x, inThink))
    decreases |x|
  {
    hide IndexFrom, HeldUpTo, Drain, Accounts;
    var tag := tags.End(inThink);
    match Index(x, tag)
    case Some(i) =>
      SegmentsAccount(tags, x[i + |tag|..], !inThink);
      AccountFound(tags, x, inThink, i, Segments(tags, x[i + |tag|..], !inThink));
    case None => AccountHeld(tags, x, inThink, |x| - HeldLength(x, tag));
  }

  lemma CutAlone(tags: Tags, s: string, inThink: bool, held: string)
    requires Index(s + held, tags.End(inThink)).None?
    ensures CutAtFirstTags(tags, [s], inThink, held) && ModeOf(inThink, 0) == inThink
  {
  }

  lemma ShiftCut(tags: Tags, s: string, later: seq<string>, inThink: bool, held: string)
    requires later != [] && CutAtFirstTags(tags, later, !inThink, held)
    requires EndsAtFirstTag(tags, s, inThink)
    ensures CutAtFirstTags(tags, [s] + later, inThink, held)
    ensures ModeOf(inThink, |later|) == ModeOf(!inThink, |later| - 1)
  {
    hide Index, IndexFrom, EndsAtFirstTag;
    var segs := [s] + later;
    forall i | 0 <= i < |segs| - 1 ensures EndsAtFirstTag(tags, segs[i], ModeOf(inThink, i)) {
      if i > 0 {
        assert segs[i] == later[i - 1] && ModeOf(inThink, i) == ModeOf(!inThink, i - 1);
      }
    }
    assert segs[|segs| - 1] == later[|later| - 1];
  }

  /** However the input is cut, putting the removed tags back between what was emitted, and the
      held-back text at the end, rebuilds the input. */
  lemma RunConserves(tags: Tags, buf: string, inThink: bool, chunks: seq<string>) returns (segs: seq<string>)
    requires Settled(tags, buf, inThink)
    ensures segs != [] && Accounts(tags, segs, buf + Concat(chunks), inThink, Run(tags, buf, inThink, chunks))
  {
    hide Drain, Run, Segments, CutAtFirstTags, Weave;
    SegmentsAccount(tags, buf + Concat(chunks), inThink);
    RunAsOne(tags, buf, inThink, chunks);
    segs := Segments(tags, buf + Concat(chunks), inThink);
  }

  // ---------------------------------------------------------------- the batch parser

  datatype Parsed = Parsed(thinking: string, content: string)

  lemma CloseAfterOpen(s: string, k: nat)
    requires HasPrefix(s, THINK.open) && OccursAt(s, THINK.close, k)
    ensures k >= |THINK.open|
  {
    assert s[k] == THINK.close[0] && s[k + 1] == THINK.close[1];
    assert forall j :: 0 <= j < 7 ==> s[j] == THINK.open[j];
  }

  /** `ParseThinking`. */
  function ParseThinking(raw: string): Parsed {
    match Index(raw, THINK.open)
    case None => Parsed("", raw)
    case Some(start) =>
      match Index(raw[start..], THINK.close)
      case None => Parsed(TrimSpace(raw[start + |THINK.open|..]), "")
      case Some(offset) =>
        CloseAfterOpen(raw[start..], offset);
        var end := start + offset;
        Parsed(TrimSpace(raw[start + |THINK.open|..end]), TrimSpace(raw[end + |THINK.close|..]))
  }

  /** Without an opening tag everything is content, as it is. With one, what follows the first is thinking
      up to the first closing tag after it, and content is what follows that, both without outer blanks;
      what precedes the opening tag is gone. */
  lemma ParseThinkingMeans(before: string, inner: string, rest: string)
    ensures Index(inner, "<think>").None? ==> ParseThinking(inner) == Parsed("", inner)
    ensures Index(before + "<think>" + rest, "<think>") == Some(|before|) && Index(rest, "</think>").None? ==>
      ParseThinking(before + "<think>" + rest) == Parsed(TrimSpace(rest), "")
    ensures var closed := inner + "</think>" + rest;
      Index(before + "<think>" + closed, "<think>") == Some(|before|) && Index(closed, "</think>") == Some(|inner|) ==>
        ParseThinking(before + "<think>" + closed) == Parsed(TrimSpace(inner), TrimSpace(rest))
  {
    hide TrimSpace, IndexFrom;
    OpenBlock(before, rest);
    OpenBlock(before, inner + "</think>" + rest);
    var raw := before + "<think>" + (inner + "</think>" + rest);
    assert raw[|before| + 7 + |inner| + 8..] == rest && raw[|before| + 7..|before| + 7 + |inner|] == inner;
  }

  /** The closing tag after an opening one is the first in what follows it. */
  lemma OpenBlock(before: string, rest: string)
    ensures var raw := before + "<think>" + rest;
      && raw[|before| + 7..] == rest
      && (Index(rest, "</think>").None? ==> Index(raw[|before|..], "</think>").None?)
      && (Index(rest, "</think>").Some? ==>
            Index(raw[|before|..], "</think>") == Some(7 + Index(rest, "</think>").value))
  {
    hide IndexFrom;
    var tail := "<think>" + rest;
    assert (before + "<think>" + rest)[|before|..] == tail;
    assert forall j :: 1 <= j < 7 ==> "<think>"[j] != '<';
    forall k: int ensures OccursAt(tail, "</think>", k) <==> k >= 7 && OccursAt(rest, "</think>", k - 7) {
      if 0 <= k && k + 8 <= |tail| {
        assert k >= 7 ==> tail[k..k + 8] == rest[k - 7..k + 1];
        assert tail[k..k + 8][0] == tail[k] && tail[k..k + 8][1] == tail[k + 1];
        assert k < 7 ==> tail[k] == "<think>"[k];
      }
    }
    var shifted := Index(rest, "</think>");
    assert shifted.Some? ==> OccursAt(tail, "</think>", 7 + shifted.value);
    assert forall k: int :: OccursAt(tail, "</think>", k) ==> OccursAt(rest, "</think>", k - 7);
  }

  /** The emitted characters of one mode, in order. */
  function Pick(thinking: bool, marks: seq<Mark>): string {
    if marks == [] then ""
    else (if marks[0].thinking == thinking then [marks[0].c] else "") + Pick(thinking, marks[1..])
  }

  /** Everything received in one mode: what was emitted, and the held-back text if it is that mode's. */
  function Shown(thinking: bool, out: Output): string {
    Pick(thinking, Flatten(out.events)) + (if out.inThink == thinking then out.buf else "")
  }

  /** A fresh parser fed these chunks shows what the batch parser returns, up to outer blanks. */
  ghost predicate Agrees(chunks: seq<string>) {
    var out, whole := Run(THINK, "", false, chunks), ParseThinking(Concat(chunks));
    && TrimSpace(Shown(true, out)) == whole.thinking
    && TrimSpace(Shown(false, out)) == TrimSpace(whole.content)
  }

  // ---------------------------------------------------------------- what is shown in each mode

  lemma {:induction false} PickConcat(thinking: bool, a: seq<Mark>, b: seq<Mark>)
    ensures Pick(thinking, a + b) == Pick(thinking, a) + Pick(thinking, b)
    decreases |a|
  {
    if a == [] {
      assert a + b == b;
    } else {
      PickConcat(thinking, a[1..], b);
      assert (a + b)[1..] == a[1..] + b;
      var first := if a[0].thinking == thinking then [a[0].c] else "";
      assert (first + Pick(thinking, a[1..])) + Pick(thinking, b) == first + (Pick(thinking, a[1..]) + Pick(thinking, b));
    }
  }

  lemma {:induction false} PickMarks(thinking: bool, mode: bool, s: string)
    ensures Pick(thinking, Marks(mode, s)) == if mode == thinking then s else ""
    decreases |s|
  {
    if s == "" {
    } else {
      PickMarks(thinking, mode, s[1..]);
      MarksTail(mode, s);
      assert s == [s[0]] + s[1..];
    }
  }

  /** After a tag at `i`: what came before it belongs to the current mode, the rest is shown later. */
  lemma ShownFound(thinking: bool, x: string, inThink: bool, i: nat)
    requires Index(x, THINK.End(inThink)) == Some(i)
    ensures Shown(thinking, Drain(THINK, x, inThink))
         == (if inThink == thinking then x[..i] else "")
            + Shown(thinking, Drain(THINK, x[i + |THINK.End(inThink)|..], !inThink))
  {
    hide IndexFrom, HeldUpTo, Drain, Marks, Flatten, Emit, Pick;
    DrainFound(THINK, x, inThink, i);
    var rest := Drain(THINK, x[i + |THINK.End(inThink)|..], !inThink);
    FlattenEmit(inThink, x[..i], rest.events);
    PickConcat(thinking, Marks(inThink, x[..i]), Flatten(rest.events));
    PickMarks(thinking, inThink, x[..i]);
  }

  lemma ShownHeld(thinking: bool, x: string, inThink: bool)
    requires Index(x, THINK.End(inThink)).None?
    ensures Shown(thinking, Drain(THINK, x, inThink)) == if inThink == thinking then x else ""
  {
    hide IndexFrom, HeldUpTo, Drain, Marks, Flatten, Emit, Pick;
    var safe := |x| - HeldLength(x, THINK.End(inThink));
    DrainHeld(THINK, x, inThink, safe);
    FlattenEmit(inThink, x[..safe], []);
    PickMarks(thinking, inThink, x[..safe]);
    assert x == x[..safe] + x[safe..];
  }

  // ---------------------------------------------------------------- counting visible characters

  function Visible(s: string): nat {
    if s == "" then 0 else (if IsSpace(s[0]) then 0 else 1) + Visible(s[1..])
  }

  lemma {:induction false} VisibleConcat(a: string, b: string)
    ensures Visible(a + b) == Visible(a) + Visible(b)
    decreases |a|
  {
    if a == "" {
      assert a + b == b;
    } else {
      VisibleConcat(a[1..], b);
      assert (a + b)[1..] == a[1..] + b;
    }
  }

  lemma {:induction false} VisibleBlank(s: string)
    ensures Visible(s) == 0 <==> Blank(s)
    decreases |s|
  {
    if s == "" {
    } else {
      VisibleBlank(s[1..]);
      assert Blank(s) ==> Blank(s[1..]);
      assert IsSpace(s[0]) && Blank(s[1..]) ==> Blank(s) by {
        assert s == [s[0]] + s[1..];
      }
    }
  }

  lemma {:induction false} VisibleTrimLeft(s: string)
    ensures Visible(TrimLeft(s)) == Visible(s)
  {
    if s != "" && IsSpace(s[0]) {
      VisibleTrimLeft(s[1..]);
    } else {
    }
  }

  lemma {:induction false} VisibleTrimRight(s: string)
    ensures Visible(TrimRight(s)) == Visible(s)
  {
    if s != "" && IsSpace(s[|s| - 1]) {
      VisibleTrimRight(s[..|s| - 1]);
      VisibleConcat(s[..|s| - 1], [s[|s| - 1]]);
      assert s == s[..|s| - 1] + [s[|s| - 1]];
    } else {
    }
  }

  lemma VisibleTrim(s: string)
    ensures Visible(TrimSpace(s)) == Visible(s)
  {
    VisibleTrimLeft(s);
    VisibleTrimRight(TrimLeft(s));
  }

  lemma {:induction false} TrimBlankFront(b: string, s: string)
    requires Blank(b)
    ensures TrimSpace(b + s) == TrimSpace(s)
    decreases |b|
  {
    if b == "" {
      assert b + s == s;
    } else {
      assert (b + s)[1..] == b[1..] + s;
      TrimBlankFront(b[1..], s);
    }
  }

  lemma {:induction false} TrimRightEnds(s: string)
    ensures TrimRight(s) <= s
    ensures TrimRight(s) == "" || !IsSpace(TrimRight(s)[|TrimRight(s)| - 1])
  {
    if s != "" && IsSpace(s[|s| - 1]) {
      TrimRightEnds(s[..|s| - 1]);
    } else {
    }
  }

  lemma {:induction false} TrimLeftEnds(s: string)
    ensures TrimLeft(s) == "" || !IsSpace(TrimLeft(s)[0])
  {
    if s != "" && IsSpace(s[0]) {
      TrimLeftEnds(s[1..]);
    } else {
    }
  }

  lemma TrimTwice(s: string)
    ensures TrimSpace(TrimSpace(s)) == TrimSpace(s)
  {
    TrimLeftEnds(s);
    TrimRightEnds(TrimLeft(s));
  }

  lemma {:induction false} TrimLeftCuts(s: string) returns (blanks: string)
    ensures s == blanks + TrimLeft(s) && Blank(blanks)
  {
    if s != "" && IsSpace(s[0]) {
      var more := TrimLeftCuts(s[1..]);
      blanks := [s[0]] + more;
    } else {
      blanks := "";
    }
  }

  lemma {:induction false} TrimRightCuts(s: string) returns (blanks: string)
    ensures s == TrimRight(s) + blanks && Blank(blanks)
  {
    if s != "" && IsSpace(s[|s| - 1]) {
      var more := TrimRightCuts(s[..|s| - 1]);
      blanks := more + [s[|s| - 1]];
      assert s == s[..|s| - 1] + [s[|s| - 1]];
    } else {
      blanks := "";
    }
  }

  /** Trimming cuts off blanks, at both ends, as far as there are any. */
  lemma TrimSpaceMeans(s: string) returns (front: string, back: string)
    ensures s == front + TrimSpace(s) + back && Blank(front) && Blank(back)
    ensures TrimSpace(s) != "" ==> !IsSpace(TrimSpace(s)[0]) && !IsSpace(TrimSpace(s)[|TrimSpace(s)| - 1])
  {
    front := TrimLeftCuts(s);
    back := TrimRightCuts(TrimLeft(s));
    TrimLeftEnds(s);
    TrimRightEnds(TrimLeft(s));
    assert front + TrimSpace(s) + back == front + (TrimSpace(s) + back);
  }

  /** Text mode never shows more visible characters than it received, and fewer if a block opens. */
  lemma {:induction false} TextShrinks(x: string, inThink: bool)
    ensures Visible(Shown(false, Drain(THINK, x, inThink))) <= Visible(x)
    ensures !inThink && Contains(x, THINK.open) ==> Visible(Shown(false, Drain(THINK, x, inThink))) < Visible(x)
    decreases |x|
  {
    hide IndexFrom, Drain, Shown, Visible;
    VisibleBlank("");
    var tag := THINK.End(inThink);
    match Index(x, tag)
    case None => ShownHeld(false, x, inThink);
    case Some(i) =>
      var y := x[i + |tag|..];
      ShownFound(false, x, inThink, i);
      TextShrinks(y, !inThink);
      VisibleAround(x, inThink, i);
      VisibleConcat(if inThink then "" else x[..i], Shown(false, Drain(THINK, y, !inThink)));
  }

  lemma VisibleAround(x: string, inThink: bool, i: nat)
    requires OccursAt(x, THINK.End(inThink), i)
    ensures Visible(x[..i]) + Visible(x[i + |THINK.End(inThink)|..]) < Visible(x)
  {
    hide Visible;
    var tag := THINK.End(inThink);
    var y := x[i + |tag|..];
    assert x == x[..i] + (tag + y);
    VisibleConcat(x[..i], tag + y);
    VisibleConcat(tag, y);
    TagVisible(inThink);
  }

  lemma TagVisible(inThink: bool)
    ensures Visible(THINK.End(inThink)) > 0
  {
    VisibleBlank(THINK.End(inThink));
    assert !IsSpace(THINK.End(inThink)[0]);
  }

  // ---------------------------------------------------------------- when the two agree

  /** The two sides of the comparison, with the run replaced by draining the whole input. */
  lemma AgreesWhole(chunks: seq<string>)
    ensures var raw := Concat(chunks);
            var out, whole := Drain(THINK, raw, false), ParseThinking(raw);
            Agrees(chunks) <==> && TrimSpace(Shown(true, out)) == whole.thinking
                                && TrimSpace(Shown(false, out)) == TrimSpace(whole.content)
  {
    hide IndexFrom, Drain, Run, TrimSpace, ParseThinking;
    StartOfTagSettles(THINK, "", false);
    RunAsOne(THINK, "", false, chunks);
    assert "" + Concat(chunks) == Concat(chunks);
  }

  /** No opening tag: everything is text for both. */
  lemma AgreeWithoutBlock(chunks: seq<string>)
    requires !Contains(Concat(chunks), THINK.open)
    ensures Agrees(chunks)
  {
    hide IndexFrom, Drain, Run, Shown;
    AgreesWhole(chunks);
    ShownHeld(true, Concat(chunks), false);
    ShownHeld(false, Concat(chunks), false);
  }

  /** The text before the first opening tag. */
  function Before(raw: string): string
    requires Contains(raw, THINK.open)
  {
    raw[..Index(raw, THINK.open).value]
  }

  /** The text after the first opening tag. */
  function Inside(raw: string): string
    requires Contains(raw, THINK.open)
  {
    raw[|Before(raw)| + |THINK.open|..]
  }

  /** The text after the tag that closes the first block. */
  function Rest(raw: string): string
    requires Contains(raw, THINK.open) && Contains(Inside(raw), THINK.close)
  {
    Inside(raw)[Index(Inside(raw), THINK.close).value + |THINK.close|..]
  }

  /** The closing tag is found at the same place whether the search starts at the opening tag or after it. */
  lemma CloseFoundInside(raw: string)
    requires Contains(raw, THINK.open)
    ensures var s := raw[|Before(raw)|..];
            match Index(Inside(raw), THINK.close)
            case Some(j) => Index(s, THINK.close) == Some(|THINK.open| + j)
            case None => Index(s, THINK.close).None?
  {
    var s, n := raw[|Before(raw)|..], |THINK.open|;
    assert Inside(raw) == s[n..] && HasPrefix(s, THINK.open);
    forall k: nat | OccursAt(s, THINK.close, k) ensures k >= n {
      CloseAfterOpen(s, k);
    }
    IndexAfter(s, THINK.close, n);
  }

  /** Skipping a front in which no match starts shifts the first match. */
  lemma IndexAfter(s: string, t: string, n: nat)
    requires n <= |s| && forall k: nat :: OccursAt(s, t, k) ==> k >= n
    ensures match Index(s[n..], t)
            case Some(j) => Index(s, t) == Some(n + j)
            case None => Index(s, t).None?
  {
    hide IndexFrom;
    forall k: nat ensures OccursAt(s, t, n + k) <==> OccursAt(s[n..], t, k) {
      if n + k + |t| <= |s| {
        assert s[n + k..n + k + |t|] == s[n..][k..k + |t|];
      }
    }
    match Index(s[n..], t)
    case Some(j) =>
      assert OccursAt(s, t, n + j);
      forall k | 0 <= k < n + j ensures !OccursAt(s, t, k) {
        assert k >= n ==> !OccursAt(s[n..], t, k - n);
      }
    case None =>
      forall k: nat ensures !OccursAt(s, t, k) {
        assert k >= n ==> !OccursAt(s[n..], t, k - n);
      }
  }

  /** A block that is never closed: they agree exactly when only blanks come before it. */
  lemma AgreeOnOpenBlock(chunks: seq<string>)
    requires var raw := Concat(chunks);
             Contains(raw, THINK.open) && !Contains(Inside(raw), THINK.close)
    ensures Agrees(chunks) <==> Blank(Before(Concat(chunks)))
  {
    hide IndexFrom, Drain, Run, Shown;
    var raw := Concat(chunks);
    AgreesWhole(chunks);
    CloseFoundInside(raw);
    ShownFound(true, raw, false, |Before(raw)|);
    ShownFound(false, raw, false, |Before(raw)|);
    ShownHeld(true, Inside(raw), true);
    ShownHeld(false, Inside(raw), true);
    assert Before(raw) + "" == Before(raw) && "" + Inside(raw) == Inside(raw);
    BlankTrims(Before(raw));
  }

  lemma BlankTrims(s: string)
    ensures TrimSpace(s) == TrimSpace("") <==> Blank(s)
  {
    VisibleBlank(s);
    VisibleTrim(s);
    if Blank(s) {
      TrimBlankFront(s, "");
      assert s + "" == s;
    }
  }

  /** A closed block: they agree when only blanks come before it and no other block opens after it,
      and whenever one of these two holds, only then. */
  lemma AgreeOnClosedBlock(chunks: seq<string>)
    requires var raw := Concat(chunks);
             Contains(raw, THINK.open) && Contains(Inside(raw), THINK.close)
    requires var raw := Concat(chunks);
             Blank(Before(raw)) || !Contains(Rest(raw), THINK.open)
    ensures var raw := Concat(chunks);
            Agrees(chunks) <==> Blank(Before(raw)) && !Contains(Rest(raw), THINK.open)
  {
    hide IndexFrom, Drain, Run, Shown, TrimSpace, Visible;
    var raw := Concat(chunks);
    AgreesWhole(chunks);
    ClosedBlockShown(raw);
    var later := Drain(THINK, Rest(raw), false);
    var text := Shown(false, later);
    ClosedBlockParsed(raw);
    TrimTwice(Rest(raw));
    if Contains(Rest(raw), THINK.open) {
      TextShrinks(Rest(raw), false);
      TrimBlankFront(Before(raw), text);
      VisibleTrim(text);
      VisibleTrim(Rest(raw));
    } else {
      ShownHeld(true, Rest(raw), false);
      ShownHeld(false, Rest(raw), false);
      var inside := Inside(raw)[..Index(Inside(raw), THINK.close).value];
      assert inside + "" == inside;
      if Blank(Before(raw)) {
        TrimBlankFront(Before(raw), Rest(raw));
      } else {
        VisibleBlank(Before(raw));
        VisibleConcat(Before(raw), Rest(raw));
        VisibleTrim(Before(raw) + Rest(raw));
        VisibleTrim(Rest(raw));
      }
    }
  }

  lemma ClosedBlockShown(raw: string)
    requires Contains(raw, THINK.open) && Contains(Inside(raw), THINK.close)
    ensures var out, later := Drain(THINK, raw, false), Drain(THINK, Rest(raw), false);
            var j := Index(Inside(raw), THINK.close).value;
            && Shown(true, out) == Inside(raw)[..j] + Shown(true, later)
            && Shown(false, out) == Before(raw) + Shown(false, later)
  {
    hide IndexFrom, Drain, Shown;
    var j := Index(Inside(raw), THINK.close).value;
    ShownFound(true, raw, false, |Before(raw)|);
    ShownFound(false, raw, false, |Before(raw)|);
    ShownFound(true, Inside(raw), true, j);
    ShownFound(false, Inside(raw), true, j);
    assert forall s: string :: "" + s == s;
  }

  lemma ClosedBlockParsed(raw: string)
    requires Contains(raw, THINK.open) && Contains(Inside(raw), THINK.close)
    ensures var j := Index(Inside(raw), THINK.close).value;
            ParseThinking(raw) == Parsed(TrimSpace(Inside(raw)[..j]), TrimSpace(Rest(raw)))
  {
    hide IndexFrom, TrimSpace;
    CloseFoundInside(raw);
    var n, j := |Before(raw)| + |THINK.open|, Index(Inside(raw), THINK.close).value;
    assert Inside(raw)[..j] == raw[n..n + j];
    assert Rest(raw) == raw[n + j + |THINK.close|..];
  }

  // ---------------------------------------------------------------- both conditions failing

  const STRAY := "hink></think><t"
  const LEFT := "hink></think>"
  const TWO_BLOCKS := LEFT + THINK.open + THINK.close
  const COLLIDING := STRAY + THINK.open + (THINK.close + TWO_BLOCKS)

  /** A tag right after text in which no three characters look like its start is the first one. */
  lemma FoundAfter(front: string, tag: string, tail: string)
    requires |tag| >= 3
    requires var s := front + tag;
             forall k | 0 <= k < |front| :: s[k] != tag[0] || s[k + 1] != tag[1] || s[k + 2] != tag[2]
    ensures Index(front + tag + tail, tag) == Some(|front|)
    ensures (front + tag + tail)[..|front|] == front && (front + tag + tail)[|front| + |tag|..] == tail
  {
    hide IndexFrom;
    var s := front + tag + tail;
    assert s[|front|..|front| + |tag|] == tag;
    forall k | 0 <= k < |front| ensures !OccursAt(s, tag, k) {
      if k + |tag| <= |s| {
        var t := s[k..k + |tag|];
        assert t[0] == (front + tag)[k] && t[1] == (front + tag)[k + 1] && t[2] == (front + tag)[k + 2];
      }
    }
    assert OccursAt(s, tag, |front|);
  }

  lemma CollidingShape()
    ensures Contains(COLLIDING, THINK.open) && Before(COLLIDING) == STRAY
    ensures Index(Inside(COLLIDING), THINK.close) == Some(0) && Rest(COLLIDING) == TWO_BLOCKS
  {
    hide IndexFrom;
    assert forall k | 0 <= k < 15 :: STRAY[k] == '<' ==> k == 5 || k == 13;
    assert STRAY[6] == '/' && (STRAY + THINK.open)[15] == '<';
    FoundAfter(STRAY, THINK.open, THINK.close + TWO_BLOCKS);
    FoundAfter("", THINK.close, TWO_BLOCKS);
    assert "" + THINK.close + TWO_BLOCKS == THINK.close + TWO_BLOCKS;
  }

  lemma SecondBlockShape()
    ensures Index(TWO_BLOCKS, THINK.open) == Some(13)
    ensures TWO_BLOCKS[..13] == LEFT && TWO_BLOCKS[20..] == THINK.close
    ensures Index(THINK.close, THINK.close) == Some(0)
  {
    hide IndexFrom;
    assert forall k | 0 <= k < 13 :: LEFT[k] == '<' ==> k == 5;
    assert LEFT[6] == '/';
    FoundAfter(LEFT, THINK.open, THINK.close);
    assert OccursAt(THINK.close, THINK.close, 0);
  }

  lemma SameText()
    ensures STRAY + LEFT == TWO_BLOCKS
  {
    assert STRAY == LEFT + "<t" && THINK.open + THINK.close == "<t" + LEFT;
  }

  lemma SecondBlockShown()
    ensures var later := Drain(THINK, TWO_BLOCKS, false);
            Shown(true, later) == "" && Shown(false, later) == LEFT
  {
    hide IndexFrom, Drain, Shown;
    SecondBlockShape();
    assert THINK.close[8..] == "";
    ShownFound(true, TWO_BLOCKS, false, 13);
    ShownFound(false, TWO_BLOCKS, false, 13);
    ShownFound(true, THINK.close, true, 0);
    ShownFound(false, THINK.close, true, 0);
    assert Index("", THINK.open).None?;
    ShownHeld(true, "", false);
    ShownHeld(false, "", false);
  }

  /** Text before the first block and a second block after it can cancel out: when both conditions
      fail the two parsers may still agree. */
  lemma BothFailingCanAgree()
    ensures && Contains(COLLIDING, THINK.open) && Contains(Inside(COLLIDING), THINK.close)
            && !Blank(Before(COLLIDING)) && Contains(Rest(COLLIDING), THINK.open)
            && Agrees([COLLIDING])
  {
    hide IndexFrom, Drain, Run, Shown, TrimSpace, ParseThinking;
    CollidingShape();
    SecondBlockShape();
    SecondBlockShown();
    SameText();
    assert Concat([COLLIDING]) == COLLIDING + Concat([]) == COLLIDING;
    AgreesWhole([COLLIDING]);
    ClosedBlockShown(COLLIDING);
    ClosedBlockParsed(COLLIDING);
    TrimTwice(TWO_BLOCKS);
    assert !IsSpace(STRAY[0]);
  }
}

/** Splitting model output into thinking and text, whole or chunk by chunk (provider/local.go). */
module ThinkingStream {
  import opened Text

  /** The tags that open and close a thinking block. Cutting the stream is studied for any pair. */
  datatype TagPair = TagPair(open: string, close: string) {
    /** The tag that ends the current mode. */
    function End(inThink: bool): string {
      if inThink then close else open
    }
  }

  type Tags = t: TagPair | t.open != "" && t.close != "" witness TagPair("<", ">")

  const THINK: Tags := TagPair("<think>", "</think>")

  /** A stream event; its text is never empty when the parser emits it. */
  datatype Event = Event(thinking: bool, text: string)

  function Emit(inThink: bool, text: string): seq<Event> {
    if text == "" then [] else [Event(inThink, text)]
  }

  // ---------------------------------------------------------------- holding back a partial tag

  /** The last `n` characters of `s` may be the start of `tag`. */
  predicate MayStart(s: string, tag: string, n: nat) {
    n < |tag| && n <= |s| && s[|s| - n..] == tag[..n]
  }

  function HeldUpTo(s: string, tag: string, n: nat): (h: nat)
    requires n < |tag|
    ensures h <= n && MayStart(s, tag, h)
    ensures forall k :: h < k <= n ==> !MayStart(s, tag, k)
  {
    if n == 0 || HasSuffix(s, tag[..n]) then n else HeldUpTo(s, tag, n - 1)
  }

  /** Length of the longest suffix of `s` that is a proper prefix of `tag`. */
  function HeldLength(s: string, tag: string): (h: nat)
    requires tag != ""
    ensures MayStart(s, tag, h)
    ensures forall k: nat :: MayStart(s, tag, k) ==> k <= h
  {
    HeldUpTo(s, tag, |tag| - 1)
  }

  /** `partialSuffix`. */
  method PartialSuffix(s: string, tag: string) returns (partial: string)
    requires tag != ""
    ensures partial == s[|s| - HeldLength(s, tag)..]
  {
    var i := |tag| - 1;
    while i > 0
      invariant 0 <= i < |tag|
      invariant forall k :: i < k ==> !MayStart(s, tag, k)
    {
      if HasSuffix(s, tag[..i]) {
        assert MayStart(s, tag, i);
        return tag[..i];
      }
      i := i - 1;
    }
    partial := "";
  }

  // ---------------------------------------------------------------- the parser

  datatype Output = Output(events: seq<Event>, buf: string, inThink: bool)

  function After(events: seq<Event>, later: Output): Output {
    later.(events := events + later.events)
  }

  /** What is emitted from a buffer, and what is left of it. */
  function Drain(tags: Tags, buf: string, inThink: bool): Output
    decreases |buf|
  {
    var tag := tags.End(inThink);
    match Index(buf, tag)
    case Some(i) =>
      var rest := Drain(tags, buf[i + |tag|..], !inThink);
      After(Emit(inThink, buf[..i]), rest)
    case None =>
      var safe := |buf| - HeldLength(buf, tag);
      Output(Emit(inThink, buf[..safe]), buf[safe..], inThink)
  }

  lemma DrainFound(tags: Tags, buf: string, inThink: bool, i: nat)
    requires Index(buf, tags.End(inThink)) == Some(i)
    ensures Drain(tags, buf, inThink)
         == After(Emit(inThink, buf[..i]), Drain(tags, buf[i + |tags.End(inThink)|..], !inThink))
  {
  }

  lemma DrainHeld(tags: Tags, buf: string, inThink: bool, safe: nat)
    requires Index(buf, tags.End(inThink)).None? && safe == |buf| - HeldLength(buf, tags.End(inThink))
    ensures Drain(tags, buf, inThink) == Output(Emit(inThink, buf[..safe]), buf[safe..], inThink)
  {
  }

  lemma AfterNothing(o: Output)
    ensures After([], o) == o
  {
  }

  lemma EmitFound(tags: Tags, events: seq<Event>, buf: string, inThink: bool, i: nat)
    requires Index(buf, tags.End(inThink)) == Some(i)
    ensures After(events, Drain(tags, buf, inThink))
         == After(if i > 0 then events + [Event(inThink, buf[..i])] else events,
                  Drain(tags, buf[i + |tags.End(inThink)|..], !inThink))
  {
    hide IndexFrom, HeldUpTo, Drain;
    DrainFound(tags, buf, inThink, i);
    var rest := Drain(tags, buf[i + |tags.End(inThink)|..], !inThink);
    assert events + (Emit(inThink, buf[..i]) + rest.events) == (events + Emit(inThink, buf[..i])) + rest.events;
    assert events + [] == events;
  }

  lemma EmitHeld(tags: Tags, events: seq<Event>, buf: string, inThink: bool, safe: nat)
    requires Index(buf, tags.End(inThink)).None? && safe == |buf| - HeldLength(buf, tags.End(inThink))
    ensures After(events, Drain(tags, buf, inThink))
         == Output(if safe > 0 then events + [Event(inThink, buf[..safe])] else events, buf[safe..], inThink)
  {
    hide IndexFrom, HeldUpTo, Drain;
    DrainHeld(tags, buf, inThink, safe);
    assert events + [] == events;
  }

  class ThinkingStreamParser {
    var buf: string
    var inThink: bool

    constructor ()
      ensures buf == "" && !inThink
    {
      buf, inThink := "", false;
    }

    method Feed(chunk: string) returns (events: seq<Event>)
      modifies this
      ensures Output(events, buf, inThink) == Drain(THINK, old(buf) + chunk, old(inThink))
    {
      hide IndexFrom, HeldUpTo, Drain, After;
      events := [];
      assert After([], Drain(THINK, buf + chunk, inThink)) == Drain(THINK, buf + chunk, inThink) by {
        AfterNothing(Drain(THINK, buf + chunk, inThink));
      }
      buf := buf + chunk;
      ghost var all := Drain(THINK, buf, inThink);
      while true
        invariant After(events, Drain(THINK, buf, inThink)) == all
        decreases |buf|
      {
        var tag := THINK.End(inThink);
        var idx := Index(buf, tag);
        if idx.Some? {
          EmitFound(THINK, events, buf, inThink, idx.value);
          if idx.value > 0 {
            events := events + [Event(inThink, buf[..idx.value])];
          }
          buf := buf[idx.value + |tag|..];
          inThink := !inThink;
          continue;
        }
        EmitHeld(THINK, events, buf, inThink, |buf| - HeldLength(buf, tag));
        var partial := PartialSuffix(buf, tag);
        var safe := buf[..|buf| - |partial|];
        if safe != "" {
          events := events + [Event(inThink, safe)];
        }
        buf := partial;
        break;
      }
    }
  }

  /** Feeding the chunks one by one, from a parser holding `buf`. */
  function Run(tags: Tags, buf: string, inThink: bool, chunks: seq<string>): Output
    decreases |chunks|
  {
    if chunks == [] then Output([], buf, inThink)
    else
      var first := Drain(tags, buf + chunks[0], inThink);
      var rest := Run(tags, first.buf, first.inThink, chunks[1..]);
      After(first.events, rest)
  }

  function Concat(chunks: seq<string>): string {
    if chunks == [] then "" else chunks[0] + Concat(chunks[1..])
  }

  /** What `Feed` leaves behind: nothing in the buffer can be emitted yet. */
  ghost predicate Settled(tags: Tags, buf: string, inThink: bool) {
    Drain(tags, buf, inThink) == Output([], buf, inThink)
  }

  lemma StartOfTagSettles(tags: Tags, buf: string, inThink: bool)
    requires MayStart(buf, tags.End(inThink), |buf|)
    ensures Settled(tags, buf, inThink)
  {
    assert buf[..0] == "" && buf[0..] == buf;
  }

  lemma {:induction false} DrainSettles(tags: Tags, x: string, inThink: bool)
    ensures Settled(tags, Drain(tags, x, inThink).buf, Drain(tags, x, inThink).inThink)
    decreases |x|
  {
    hide IndexFrom, HeldUpTo, Drain, Settled, Emit;
    var tag := tags.End(inThink);
    match Index(x, tag)
    case Some(i) =>
      DrainFound(tags, x, inThink, i);
      DrainSettles(tags, x[i + |tag|..], !inThink);
    case None =>
      DrainHeld(tags, x, inThink, |x| - HeldLength(x, tag));
      StartOfTagSettles(tags, x[|x| - HeldLength(x, tag)..], inThink);
  }

  // ---------------------------------------------------------------- marked characters

  /** An emitted character with the mode it was emitted in. */
  datatype Mark = Mark(thinking: bool, c: char)

  function Marks(thinking: bool, s: string): seq<Mark> {
    seq(|s|, i requires 0 <= i < |s| => Mark(thinking, s[i]))
  }

  lemma {:induction false} MarksConcat(thinking: bool, s: string, t: string)
    ensures Marks(thinking, s + t) == Marks(thinking, s) + Marks(thinking, t)
  {
  }

  lemma MarksTail(thinking: bool, s: string)
    requires s != ""
    ensures Marks(thinking, s)[0] == Mark(thinking, s[0]) && Marks(thinking, s)[1..] == Marks(thinking, s[1..])
  {
  }

  function Flatten(events: seq<Event>): seq<Mark> {
    if events == [] then [] else Marks(events[0].thinking, events[0].text) + Flatten(events[1..])
  }

  lemma {:induction false} FlattenConcat(xs: seq<Event>, ys: seq<Event>)
    ensures Flatten(xs + ys) == Flatten(xs) + Flatten(ys)
    decreases |xs|
  {
    if xs == [] {
      assert xs + ys == ys;
    } else {
      FlattenConcat(xs[1..], ys);
      assert (xs + ys)[1..] == xs[1..] + ys;
    }
  }

  lemma FlattenEmit(inThink: bool, s: string, rest: seq<Event>)
    ensures Flatten(Emit(inThink, s)) == Marks(inThink, s)
    ensures Flatten(Emit(inThink, s) + rest) == Marks(inThink, s) + Flatten(rest)
  {
    FlattenConcat(Emit(inThink, s), rest);
  }

  /** Same characters in the same modes, and the same parser state. */
  ghost predicate SameOutput(a: Output, b: Output) {
    Flatten(a.events) == Flatten(b.events) && a.buf == b.buf && a.inThink == b.inThink
  }

  // ---------------------------------------------------------------- cutting the input

  lemma NothingStartsAt(x: string, y: string, tag: string, k: nat)
    requires tag != "" && Index(x, tag).None? && k < |x| - HeldLength(x, tag)
    ensures !OccursAt(x + y, tag, k) && !MayStart(x + y, tag, |x + y| - k)
  {
    var n := |x| - k;
    assert !OccursAt(x, tag, k) && !MayStart(x, tag, n);
    assert |tag| <= n ==> x[k..k + |tag|] == (x + y)[k..k + |tag|];
    assert x[k..] == (x + y)[k..][..n];
    assert |tag| > n && k + |tag| <= |x + y| ==> (x + y)[k..][..n] == (x + y)[k..k + |tag|][..n];
  }

  /** No tag can begin before the held-back suffix, whatever arrives later. */
  lemma NothingStartsEarlier(x: string, y: string, tag: string)
    requires tag != "" && Index(x, tag).None?
    ensures var safe := |x| - HeldLength(x, tag);
            && (forall k | 0 <= k < safe :: !OccursAt(x + y, tag, k))
            && (forall h: nat :: MayStart(x + y, tag, h) ==> h <= |x + y| - safe)
  {
    var safe := |x| - HeldLength(x, tag);
    forall k | 0 <= k < safe ensures !OccursAt(x + y, tag, k) {
      NothingStartsAt(x, y, tag, k);
    }
    forall h: nat | MayStart(x + y, tag, h) ensures h <= |x + y| - safe {
      if h > |x + y| - safe {
        NothingStartsAt(x, y, tag, |x + y| - h);
      }
    }
  }

  /** With no tag in `x`, the tag and the held-back suffix of `x + y` are those of what follows
      the safe part of `x`. */
  lemma SearchAfterSafe(x: string, y: string, tag: string, safe: nat)
    requires tag != "" && Index(x, tag).None? && safe == |x| - HeldLength(x, tag)
    ensures Index(x[safe..] + y, tag).None? ==>
              Index(x + y, tag).None? && HeldLength(x + y, tag) == HeldLength(x[safe..] + y, tag)
    ensures Index(x[safe..] + y, tag).Some? ==>
              Index(x + y, tag) == Some(safe + Index(x[safe..] + y, tag).value)
  {
    hide IndexFrom, HeldUpTo;
    var z, w := x + y, x[safe..] + y;
    assert w == z[safe..];
    NothingStartsEarlier(x, y, tag);
    forall k: nat ensures OccursAt(w, tag, k) <==> OccursAt(z, tag, safe + k) {
      if k + |tag| <= |w| {
        assert w[k..k + |tag|] == z[safe + k..safe + k + |tag|];
      }
    }
    match Index(w, tag) {
      case Some(i) =>
        forall k | 0 <= k < safe + i ensures !OccursAt(z, tag, k) {
          assert k >= safe ==> !OccursAt(w, tag, k - safe);
        }
        assert OccursAt(z, tag, safe + i);
      case None =>
        forall k ensures !OccursAt(z, tag, k) {
          assert k >= safe ==> !OccursAt(w, tag, k - safe);
        }
        var hz, hw := HeldLength(z, tag), HeldLength(w, tag);
        assert MayStart(w, tag, hz) && MayStart(z, tag, hw);
    }
  }

  lemma SplitPrefix(x: string, y: string, safe: nat, n: nat)
    requires safe <= |x| && n <= |x[safe..] + y|
    ensures (x + y)[..safe + n] == x[..safe] + (x[safe..] + y)[..n]
  {
    assert x + y == x[..safe] + (x[safe..] + y);
  }

  /** With no tag in `x`, draining `x + y` is emitting the safe part of `x` and draining the rest. */
  lemma DrainAfterSafe(tags: Tags, x: string, y: string, inThink: bool, safe: nat)
    requires Index(x, tags.End(inThink)).None? && safe == |x| - HeldLength(x, tags.End(inThink))
    ensures var whole, later := Drain(tags, x + y, inThink), Drain(tags, x[safe..] + y, inThink);
            && Flatten(whole.events) == Marks(inThink, x[..safe]) + Flatten(later.events)
            && whole.buf == later.buf && whole.inThink == later.inThink
  {
    hide IndexFrom, HeldUpTo, Drain, Marks, Flatten, Emit;
    var tag := tags.End(inThink);
    var z, w := x + y, x[safe..] + y;
    assert w == z[safe..];
    SearchAfterSafe(x, y, tag, safe);
    match Index(w, tag)
    case Some(i) => FoundAfterSafe(tags, x, y, inThink, safe, i);
    case None => HeldAfterSafe(tags, x, y, inThink, safe, HeldLength(w, tag));
  }

  lemma FoundAfterSafe(tags: Tags, x: string, y: string, inThink: bool, safe: nat, i: nat)
    requires safe <= |x| && Index(x[safe..] + y, tags.End(inThink)) == Some(i)
    requires Index(x + y, tags.End(inThink)) == Some(safe + i)
    ensures var whole, later := Drain(tags, x + y, inThink), Drain(tags, x[safe..] + y, inThink);
            && Flatten(whole.events) == Marks(inThink, x[..safe]) + Flatten(later.events)
            && whole.buf == later.buf && whole.inThink == later.inThink
  {
    hide IndexFrom, HeldUpTo, Drain, Marks, Flatten, Emit;
    var tag := tags.End(inThink);
    var z, w := x + y, x[safe..] + y;
    assert w == z[safe..];
    DrainFound(tags, w, inThink, i);
    DrainFound(tags, z, inThink, safe + i);
    assert w[i + |tag|..] == z[safe + i + |tag|..];
    var rest := Drain(tags, w[i + |tag|..], !inThink);
    FlattenEmit(inThink, z[..safe + i], rest.events);
    FlattenEmit(inThink, w[..i], rest.events);
    SplitPrefix(x, y, safe, i);
    MarksConcat(inThink, x[..safe], w[..i]);
  }

  lemma HeldAfterSafe(tags: Tags, x: string, y: string, inThink: bool, safe: nat, h: nat)
    requires safe <= |x| && Index(x[safe..] + y, tags.End(inThink)).None? && Index(x + y, tags.End(inThink)).None?
    requires h == HeldLength(x[safe..] + y, tags.End(inThink)) == HeldLength(x + y, tags.End(inThink))
    ensures var whole, later := Drain(tags, x + y, inThink), Drain(tags, x[safe..] + y, inThink);
            && Flatten(whole.events) == Marks(inThink, x[..safe]) + Flatten(later.events)
            && whole.buf == later.buf && whole.inThink == later.inThink
  {
    hide IndexFrom, HeldUpTo, Drain, Marks, Flatten, Emit;
    var z, w := x + y, x[safe..] + y;
    assert w == z[safe..];
    DrainHeld(tags, w, inThink, |w| - h);
    DrainHeld(tags, z, inThink, |z| - h);
    FlattenEmit(inThink, z[..|z| - h], []);
    FlattenEmit(inThink, w[..|w| - h], []);
    SplitPrefix(x, y, safe, |w| - h);
    MarksConcat(inThink, x[..safe], w[..|w| - h]);
    assert z[|z| - h..] == w[|w| - h..];
  }

  /** Draining `x + y` at once is draining `x`, then what is left of it with `y`. */
  lemma {:induction false} DrainSplit(tags: Tags, x: string, y: string, inThink: bool)
    ensures var first := Drain(tags, x, inThink);
            var second := Drain(tags, first.buf + y, first.inThink);
            SameOutput(Drain(tags, x + y, inThink), After(first.events, second))
    decreases |x|
  {
    hide IndexFrom, HeldUpTo, Drain, Marks, Flatten, Emit;
    var tag := tags.End(inThink);
    var first := Drain(tags, x, inThink);
    var second := Drain(tags, first.buf + y, first.inThink);
    FlattenConcat(first.events, second.events);
    match Index(x, tag)
    case Some(i) =>
      assert (x + y)[i..i + |tag|] == x[i..i + |tag|];
      assert OccursAt(x + y, tag, i);
      forall k | 0 <= k < i ensures !OccursAt(x + y, tag, k) {
        assert !OccursAt(x, tag, k);
        assert (x + y)[k..k + |tag|] == x[k..k + |tag|];
      }
      DrainFound(tags, x, inThink, i);
      DrainFound(tags, x + y, inThink, i);
      assert (x + y)[i + |tag|..] == x[i + |tag|..] + y;
      DrainSplit(tags, x[i + |tag|..], y, !inThink);
      FlattenEmit(inThink, x[..i], Drain(tags, x[i + |tag|..] + y, !inThink).events);
      FlattenEmit(inThink, x[..i], Drain(tags, x[i + |tag|..], !inThink).events);
      FlattenConcat(Drain(tags, x[i + |tag|..], !inThink).events, second.events);
      assert (x + y)[..i] == x[..i];
    case None =>
      DrainAfterSafe(tags, x, y, inThink, |x| - HeldLength(x, tag));
      DrainHeld(tags, x, inThink, |x| - HeldLength(x, tag));
      FlattenEmit(inThink, x[..|x| - HeldLength(x, tag)], []);
  }

  lemma AfterSame(events: seq<Event>, a: Output, b: Output)
    requires SameOutput(a, b)
    ensures SameOutput(After(events, a), After(events, b))
  {
    FlattenConcat(events, a.events);
    FlattenConcat(events, b.events);
  }

  /** Any way of cutting the input gives what the uncut input gives. */
  lemma {:induction false} RunAsOne(tags: Tags, buf: string, inThink: bool, chunks: seq<string>)
    requires Settled(tags, buf, inThink)
    ensures SameOutput(Run(tags, buf, inThink, chunks), Drain(tags, buf + Concat(chunks), inThink))
    decreases |chunks|
  {
    if chunks == [] {
      assert buf + "" == buf;
    } else {
      RunAsOneStep(tags, buf, inThink, chunks);
      var first := Drain(tags, buf + chunks[0], inThink);
      RunAsOne(tags, first.buf, first.inThink, chunks[1..]);
      AfterSame(first.events, Run(tags, first.buf, first.inThink, chunks[1..]),
                Drain(tags, first.buf + Concat(chunks[1..]), first.inThink));
    }
  }

  lemma RunAsOneStep(tags: Tags, buf: string, inThink: bool, chunks: seq<string>)
    requires chunks != []
    ensures var first := Drain(tags, buf + chunks[0], inThink);
            && Settled(tags, first.buf, first.inThink)
            && SameOutput(Drain(tags, buf + Concat(chunks), inThink),
                          After(first.events, Drain(tags, first.buf + Concat(chunks[1..]), first.inThink)))
  {
    hide IndexFrom, HeldUpTo, Drain, Flatten;
    DrainSettles(tags, buf + chunks[0], inThink);
    DrainSplit(tags, buf + chunks[0], Concat(chunks[1..]), inThink);
    assert buf + chunks[0] + Concat(chunks[1..]) == buf + Concat(chunks);
  }

  // ---------------------------------------------------------------- merging adjacent events

  /** Joins adjacent events of one type. */
  function Merge(events: seq<Event>): seq<Event> {
    if events == [] then []
    else
      var e, rest := events[0], Merge(events[1..]);
      if rest != [] && rest[0].thinking == e.thinking
      then [Event(e.thinking, e.text + rest[0].text)] + rest[1..]
      else [e] + rest
  }

  predicate Proper(events: seq<Event>) {
    forall i :: 0 <= i < |events| ==> events[i].text != ""
  }

  predicate Alternating(events: seq<Event>) {
    forall i :: 0 <= i < |events| - 1 ==> events[i].thinking != events[i + 1].thinking
  }

  lemma {:induction false} MergeKeepsMarks(events: seq<Event>)
    requires Proper(events)
    ensures Flatten(Merge(events)) == Flatten(events)
    ensures Proper(Merge(events)) && Alternating(Merge(events))
    decreases |events|
  {
    hide Marks;
    if events == [] {
    } else {
      MergeKeepsMarks(events[1..]);
      var e, rest := events[0], Merge(events[1..]);
      if rest != [] && rest[0].thinking == e.thinking {
        MergeOne(e, rest);
      } else {
        FlattenCons(e, rest);
      }
    }
  }

  lemma FlattenCons(e: Event, rest: seq<Event>)
    ensures Flatten([e] + rest) == Marks(e.thinking, e.text) + Flatten(rest)
  {
    assert ([e] + rest)[1..] == rest;
  }

  lemma Associates<T>(a: seq<T>, b: seq<T>, c: seq<T>)
    ensures (a + b) + c == a + (b + c)
  {
  }

  lemma MergeOne(e: Event, rest: seq<Event>)
    requires rest != [] && rest[0].thinking == e.thinking
    ensures Flatten([Event(e.thinking, e.text + rest[0].text)] + rest[1..]) == Marks(e.thinking, e.text) + Flatten(rest)
  {
    hide *;
    var first, tail := rest[0], rest[1..];
    FlattenCons(Event(e.thinking, e.text + first.text), tail);
    FlattenCons(first, tail);
    assert rest == [first] + tail;
    MarksConcat(e.thinking, e.text, first.text);
    Associates(Marks(e.thinking, e.text), Marks(e.thinking, first.text), Flatten(tail));
  }

  lemma NextMarkDiffers(events: seq<Event>)
    requires |events| > 1 && Proper(events) && Alternating(events)
    ensures var next := Flatten(events[1..]);
            next != [] && next[0].thinking != events[0].thinking
  {
    assert events[1..][0] == events[1];
  }

  /** An alternating list of non-empty events is determined by its marked characters. */
  lemma {:induction false} MarksDetermine(xs: seq<Event>, ys: seq<Event>)
    requires Proper(xs) && Alternating(xs) && Proper(ys) && Alternating(ys)
    requires Flatten(xs) == Flatten(ys)
    ensures xs == ys
    decreases |xs|
  {
    assert xs == [] <==> ys == [];
    if xs == [] {
    } else {
      SameFirst(xs, ys);
      MarksDetermine(xs[1..], ys[1..]);
      assert xs == [xs[0]] + xs[1..] && ys == [ys[0]] + ys[1..];
    }
  }

  lemma SameFirst(xs: seq<Event>, ys: seq<Event>)
    requires xs != [] && Proper(xs) && Alternating(xs) && ys != [] && Proper(ys) && Alternating(ys)
    requires Flatten(xs) == Flatten(ys)
    ensures xs[0] == ys[0] && Flatten(xs[1..]) == Flatten(ys[1..])
  {
    var m, x, y := Flatten(xs), xs[0], ys[0];
    assert m[0] == Mark(x.thinking, x.text[0]) == Mark(y.thinking, y.text[0]);
    NotLonger(xs, ys);
    NotLonger(ys, xs);
    forall k | 0 <= k < |x.text| ensures x.text[k] == y.text[k] {
      assert m[k] == Mark(x.thinking, x.text[k]) == Mark(y.thinking, y.text[k]);
    }
    assert m[|x.text|..] == Flatten(xs[1..]) && m[|x.text|..] == Flatten(ys[1..]);
  }

  /** The first event cannot run past the end of the other list's first event. */
  lemma NotLonger(xs: seq<Event>, ys: seq<Event>)
    requires xs != [] && Proper(xs) && ys != [] && Proper(ys) && Alternating(ys)
    requires Flatten(xs) == Flatten(ys) && xs[0].thinking == ys[0].thinking
    ensures |xs[0].text| <= |ys[0].text|
  {
    var m, n := Flatten(ys), |ys[0].text|;
    assert n < |xs[0].text| ==> m[n].thinking == xs[0].thinking;
    if |ys| > 1 {
      NextMarkDiffers(ys);
      assert m[n] == Flatten(ys[1..])[0];
    }
  }

  lemma {:induction false} DrainProper(tags: Tags, x: string, inThink: bool)
    ensures Proper(Drain(tags, x, inThink).events)
    decreases |x|
  {
    hide IndexFrom, HeldUpTo, Drain;
    var tag := tags.End(inThink);
    match Index(x, tag)
    case Some(i) =>
      DrainFound(tags, x, inThink, i);
      DrainProper(tags, x[i + |tag|..], !inThink);
    case None => DrainHeld(tags, x, inThink, |x| - HeldLength(x, tag));
  }

  lemma {:induction false} RunProper(tags: Tags, buf: string, inThink: bool, chunks: seq<string>)
    ensures Proper(Run(tags, buf, inThink, chunks).events)
    decreases |chunks|
  {
    if chunks == [] {
    } else {
      var first := Drain(tags, buf + chunks[0], inThink);
      DrainProper(tags, buf + chunks[0], inThink);
      RunProper(tags, first.buf, first.inThink, chunks[1..]);
    }
  }

  /** Two ways of cutting the same input end in the same state with the same merged events. */
  lemma ChunkIndependence(tags: Tags, buf: string, inThink: bool, cut1: seq<string>, cut2: seq<string>)
    requires Settled(tags, buf, inThink) && Concat(cut1) == Concat(cut2)
    ensures var a, b := Run(tags, buf, inThink, cut1), Run(tags, buf, inThink, cut2);
            a.buf == b.buf && a.inThink == b.inThink && Merge(a.events) == Merge(b.events)
  {
    var a, b := Run(tags, buf, inThink, cut1), Run(tags, buf, inThink, cut2);
    RunAsOne(tags, buf, inThink, cut1);
    RunAsOne(tags, buf, inThink, cut2);
    RunProper(tags, buf, inThink, cut1);
    RunProper(tags, buf, inThink, cut2);
    MergeKeepsMarks(a.events);
    MergeKeepsMarks(b.events);
    MarksDetermine(Merge(a.events), Merge(b.events));
  }
}

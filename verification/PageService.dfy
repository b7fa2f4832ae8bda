/** What a caller gets when it asks for a page, told without the paginator's own arithmetic. */
module PageService {
  import opened Paginator
  import opened Text

  // ---------------------------------------------------------------- page numbers

  /** The value asks for page `n`: an integer itself, a float without its fraction. */
  predicate AsksFor(v: Value, n: Int) {
    match v
    case IntValue(m) => m == n
    case FloatValue(x) => if x >= 0.0 then n as real <= x < n as real + 1.0 else n as real - 1.0 < x <= n as real
    case OtherValue(_) => false
  }

  /** A whole number is read as itself, as an integer or as a float; a fraction is dropped towards zero;
      a float beyond the integers is the least one; anything else is refused. */
  lemma PageNumberMeans(v: Value, n: Int)
    ensures PageNumber(IntValue(n)) == PageNumber(FloatValue(n as real)) == Some(n)
    ensures AsksFor(v, n) ==> PageNumber(v) == Some(n)
    ensures v.OtherValue? <==> PageNumber(v).None?
    ensures v.FloatValue? && (v.x >= MAX as real + 1.0 || v.x <= MIN as real - 1.0) ==> PageNumber(v) == Some(MIN)
  {
  }

  // ---------------------------------------------------------------- answers

  /** What `v` shows is page `n` of the lines: those from `(n - 1) * size` on, up to `size` of them. */
  ghost predicate IsPage(v: View, lines: seq<string>, size: nat, n: int) {
    var start := (n - 1) * size;
    && v.Shown? && v.page == n && v.count == |lines|
    && 0 <= start < |lines| && v.first == start + 1
    && v.last == (if start + size < |lines| then start + size else |lines|)
    && v.lines == lines[start..v.last]
    && (v.previous <==> n > 1) && (v.next <==> v.last < |lines|)
    && (v.total - 1) * size < |lines| <= v.total * size
  }

  lemma RangeIsTotal(count: nat, size: nat, n: int)
    requires 0 < size && n >= 1 && (n - 1) * size < count
    ensures n <= TotalPages(count, size)
  {
    if n > TotalPages(count, size) {
      EndOfPages(count, size, n);
    }
  }

  lemma PageInRange(lines: seq<string>, size: nat, n: Int)
    requires 0 < size && |lines| <= MOST_LINES && n >= 1 && (n - 1) * size < |lines|
    ensures IsPage(PageOf(lines, size, n), lines, size, n)
  {
    RangeIsTotal(|lines|, size, n);
    StartOfPage(|lines|, size, n);
    TotalMeans(|lines|, size);
    hide TotalPages, Wrap;
    assert n * size == (n - 1) * size + size;
    var v := PageOf(lines, size, n);
    assert v.Shown? && v.total == TotalPages(|lines|, size);
  }

  /** The first time, a result that is not too long is passed on as it is, and a longer one is kept, and
      its first page shown. */
  lemma FirstAnswer(cfg: Config, cache: Cache, c: Call)
    requires c.Valid() && cfg.size > 0 && "page" !in c.args && |Lines(c.result)| <= MOST_LINES
    ensures |c.result| <= cfg.maxResponseSize ==>
      Answered(cfg, cache, c) == Whole(c.result) && Stored(cfg, cache, c) == cache
    ensures |c.result| > cfg.maxResponseSize ==>
      && Answered(cfg, cache, c).Served? && IsPage(Answered(cfg, cache, c).view, Lines(c.result), cfg.size, 1)
      && KeyOf(cfg, c) in Stored(cfg, cache, c) && Stored(cfg, cache, c)[KeyOf(cfg, c)] == Lines(c.result)
      && forall key :: key != KeyOf(cfg, c) ==>
           && (key in Stored(cfg, cache, c) <==> key in cache)
           && (key in cache ==> Stored(cfg, cache, c)[key] == cache[key])
  {
    hide Visits, Key, PageOf, IsPage;
    if |c.result| > cfg.maxResponseSize {
      PageInRange(Lines(c.result), cfg.size, 1);
    }
  }

  /** Asking for a page: what is no number is refused, then what is not kept, and nothing is stored. */
  lemma PageAnswer(cfg: Config, cache: Cache, c: Call)
    requires c.Valid() && cfg.size > 0 && "page" in c.args
    ensures Stored(cfg, cache, c) == cache
    ensures var v, a := c.args["page"], Answered(cfg, cache, c);
      && (a.BadPage? <==> v.OtherValue?)
      && (a.NotCached? <==> !v.OtherValue? && KeyOf(cfg, c) !in cache)
      && (a.Served? <==> !v.OtherValue? && KeyOf(cfg, c) in cache)
      && forall n: Int :: AsksFor(v, n) && a.Served? ==>
           (a.view.Invalid? <==> n < 1) && (a.view.OutOfRange? ==> a.view.page == n)
  {
    hide Visits, Key, Lines;
    forall n: Int ensures AsksFor(c.args["page"], n) ==> PageNumber(c.args["page"]) == Some(n) {
      PageNumberMeans(c.args["page"], n);
    }
  }

  /** A long result is read back page by page: among calls that keep off the key's punctuation, whatever
      the others store, a call of the same tool that shows the same arguments and asks for page `n`, as an
      integer or a float, gets the lines `(n - 1) * size` to `n * size` of the first result. */
  lemma PagesComeBack(cfg: Config, cache: Cache, first: Call, calls: seq<Call>, later: Call, n: Int)
    requires cfg.size > 0 && first.Valid() && CleanCall(cfg, first)
    requires "page" !in first.args && |first.result| > cfg.maxResponseSize
    requires later.Valid() && Alike(cfg, first, later) && "page" in later.args && AsksFor(later.args["page"], n)
    requires forall k :: 0 <= k < |calls| ==>
      calls[k].Valid() && CleanCall(cfg, calls[k])
      && ("page" !in calls[k].args && |calls[k].result| > cfg.maxResponseSize ==> !Alike(cfg, calls[k], first))
    requires |Lines(first.result)| <= MOST_LINES && n >= 1 && (n - 1) * cfg.size < |Lines(first.result)|
    ensures var a := Answered(cfg, After(cfg, Stored(cfg, cache, first), calls), later);
      a.Served? && IsPage(a.view, Lines(first.result), cfg.size, n)
  {
    hide Visits, Key, Lines, PageOf, Clean, Shows, IsPage;
    PageNumberMeans(later.args["page"], n);
    PagesReadOneSnapshot(cfg, cache, first, calls, later);
    PageInRange(Lines(first.result), cfg.size, n);
  }
}

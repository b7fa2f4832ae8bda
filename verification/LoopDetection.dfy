/** Detecting an agent that repeats itself (executor/loop_detector.go). */
module LoopDetection {

  datatype Status = OK | Warning | Break

  /** One recorded tool call. Hashes are opaque: only their equality matters. */
  datatype Entry = Entry(tool: string, argsHash: string, resultHash: string, isError: bool, errorMsg: string)

  datatype Config = Config(maxConsecutive: int, maxErrors: int, maxAlternating: int, maxNoProgress: int)

  /** A configuration after its zero values have been replaced. */
  predicate Effective(cfg: Config) {
    cfg.maxConsecutive >= 1 && cfg.maxErrors >= 1 && cfg.maxAlternating >= 1 && cfg.maxNoProgress >= 1
  }

  predicate SameCall(a: Entry, b: Entry) {
    a.tool == b.tool && a.argsHash == b.argsHash
  }

  /** What the repetition counts tell apart: a call with its error, or a call with its result. */
  datatype Key =
    | Failure(tool: string, argsHash: string, errorMsg: string)
    | Success(tool: string, argsHash: string, resultHash: string)

  function KeyOf(e: Entry): Key {
    if e.isError then Failure(e.tool, e.argsHash, e.errorMsg) else Success(e.tool, e.argsHash, e.resultHash)
  }

  function Limit(cfg: Config, key: Key): int {
    if key.Failure? then cfg.maxErrors else cfg.maxNoProgress
  }

  function Last(h: seq<Entry>): Entry
    requires h != []
  {
    h[|h| - 1]
  }

  function Occurrences(h: seq<Entry>, key: Key): nat {
    if h == [] then 0
    else Occurrences(h[..|h| - 1], key) + (if KeyOf(Last(h)) == key then 1 else 0)
  }

  /** Entries `lo..hi` are all the same call. */
  predicate AllSame(h: seq<Entry>, lo: int, hi: int) {
    0 <= lo <= hi <= |h| && forall i :: lo <= i < hi ==> SameCall(h[i], h[hi - 1])
  }

  /** Entries `lo..hi` alternate between two different calls. */
  predicate Alternates(h: seq<Entry>, lo: int, hi: int) {
    && 0 <= lo <= hi - 2 && hi <= |h|
    && !SameCall(h[hi - 1], h[hi - 2])
    && forall i :: lo <= i < hi ==> SameCall(h[i], if (hi - 1 - i) % 2 == 0 then h[hi - 1] else h[hi - 2])
  }

  // ---------------------------------------------------------------- what Check reports

  function RepeatStatus(cfg: Config, h: seq<Entry>): Status
    requires h != []
  {
    if Occurrences(h, KeyOf(Last(h))) >= Limit(cfg, KeyOf(Last(h))) then Break else OK
  }

  function ConsecutiveStatus(cfg: Config, h: seq<Entry>): Status {
    if |h| < 2 then OK
    else if AllSame(h, |h| - cfg.maxConsecutive, |h|) then Break
    else if AllSame(h, |h| - (cfg.maxConsecutive - 1), |h|) then Warning
    else OK
  }

  function AlternatingStatus(cfg: Config, h: seq<Entry>): Status {
    if |h| >= 4 && Alternates(h, |h| - 2 * cfg.maxAlternating, |h|) then Break else OK
  }

  function CheckStatus(cfg: Config, h: seq<Entry>): Status {
    if h == [] then OK
    else if RepeatStatus(cfg, h) != OK then RepeatStatus(cfg, h)
    else if ConsecutiveStatus(cfg, h) != OK then ConsecutiveStatus(cfg, h)
    else AlternatingStatus(cfg, h)
  }

  // ---------------------------------------------------------------- the detector

  class LoopDetector {
    const cfg: Config
    var history: seq<Entry>

    constructor (given: Config)
      ensures Effective(cfg) && history == []
      ensures cfg.maxConsecutive == (if given.maxConsecutive > 0 then given.maxConsecutive else 3)
      ensures cfg.maxErrors == (if given.maxErrors > 0 then given.maxErrors else 2)
      ensures cfg.maxAlternating == (if given.maxAlternating > 0 then given.maxAlternating else 3)
      ensures cfg.maxNoProgress == (if given.maxNoProgress > 0 then given.maxNoProgress else 3)
    {
      cfg := Config(if given.maxConsecutive <= 0 then 3 else given.maxConsecutive,
                    if given.maxErrors <= 0 then 2 else given.maxErrors,
                    if given.maxAlternating <= 0 then 3 else given.maxAlternating,
                    if given.maxNoProgress <= 0 then 3 else given.maxNoProgress);
      history := [];
    }

    /** The hashes of the arguments and of the result come from the caller. */
    method Record(tool: string, argsHash: string, result: string, resultHash: string, isError: bool)
      modifies this
      ensures history == old(history)
                + [Entry(tool, argsHash, resultHash, isError, if isError then result else "")]
    {
      var entry := Entry(tool, argsHash, resultHash, isError, "");
      if isError {
        entry := entry.(errorMsg := result);
      }
      history := history + [entry];
    }

    method Reset()
      modifies this
      ensures history == []
    {
      history := [];
    }

    method Check() returns (status: Status)
      requires Effective(cfg)
      ensures status == CheckStatus(cfg, history)
    {
      if |history| == 0 {
        return OK;
      }
      status := CheckRepeatedErrors();
      if status != OK {
        return;
      }
      status := CheckNoProgress();
      if status != OK {
        return;
      }
      status := CheckConsecutive();
      if status != OK {
        return;
      }
      status := CheckAlternating();
    }

    method CheckRepeatedErrors() returns (status: Status)
      requires history != []
      ensures status == if Last(history).isError then RepeatStatus(cfg, history) else OK
    {
      var last := Last(history);
      if !last.isError {
        return OK;
      }
      var count := 0;
      for i := 0 to |history|
        invariant count == Occurrences(history[..i], KeyOf(last))
      {
        assert history[..i + 1][..i] == history[..i];
        var e := history[i];
        if e.tool == last.tool && e.argsHash == last.argsHash && e.isError && e.errorMsg == last.errorMsg {
          count := count + 1;
        }
      }
      assert history[..|history|] == history;
      status := if count >= cfg.maxErrors then Break else OK;
    }

    method CheckNoProgress() returns (status: Status)
      requires history != []
      ensures status == if Last(history).isError then OK else RepeatStatus(cfg, history)
    {
      var last := Last(history);
      if last.isError {
        return OK;
      }
      var count := 0;
      for i := 0 to |history|
        invariant count == Occurrences(history[..i], KeyOf(last))
      {
        assert history[..i + 1][..i] == history[..i];
        var e := history[i];
        if e.tool == last.tool && e.argsHash == last.argsHash && e.resultHash == last.resultHash && !e.isError {
          count := count + 1;
        }
      }
      assert history[..|history|] == history;
      status := if count >= cfg.maxNoProgress then Break else OK;
    }

    method CheckConsecutive() returns (status: Status)
      requires Effective(cfg) && history != []
      ensures status == ConsecutiveStatus(cfg, history)
    {
      var n := |history|;
      if n < 2 {
        return OK;
      }
      var last := Last(history);
      var count := 1;
      var i := n - 2;
      while i >= 0
        invariant -1 <= i && count == n - 1 - i
        invariant AllSame(history, i + 1, n)
      {
        if !SameCall(history[i], last) {
          break;
        }
        count := count + 1;
        i := i - 1;
      }
      assert i >= 0 ==> !SameCall(history[i], last);
      if count >= cfg.maxConsecutive {
        return Break;
      }
      if count >= cfg.maxConsecutive - 1 {
        return Warning;
      }
      status := OK;
    }

    method CheckAlternating() returns (status: Status)
      requires Effective(cfg) && history != []
      ensures status == AlternatingStatus(cfg, history)
    {
      var n := |history|;
      if n < 4 {
        return OK;
      }
      var last, prev := history[n - 1], history[n - 2];
      if SameCall(last, prev) {
        return OK;
      }
      var cycles := 0;
      var i := n - 1;
      while i >= 1
        invariant -1 <= i && 2 * cycles == n - 1 - i
        invariant cycles > 0 ==> Alternates(history, i + 1, n)
      {
        if !(SameCall(history[i - 1], prev) && SameCall(history[i], last)) {
          break;
        }
        cycles := cycles + 1;
        i := i - 2;
      }
      assert i >= 1 ==> !(SameCall(history[i - 1], prev) && SameCall(history[i], last));
      status := if cycles >= cfg.maxAlternating then Break else OK;
    }
  }

  // ---------------------------------------------------------------- what the strategies look for

  /** The same tool called with the same arguments, and the same error, or the same result. */
  predicate SameOutcome(a: Entry, b: Entry) {
    && a.tool == b.tool && a.argsHash == b.argsHash && a.isError == b.isError
    && (if a.isError then a.errorMsg == b.errorMsg else a.resultHash == b.resultHash)
  }

  /** Where the outcome of `e` is recorded. */
  function Places(h: seq<Entry>, e: Entry): set<int> {
    set i | 0 <= i < |h| && SameOutcome(h[i], e)
  }

  lemma PlacesNext(h: seq<Entry>, last: Entry, e: Entry)
    ensures Places(h + [last], e) == Places(h, e) + if SameOutcome(last, e) then {|h|} else {}
    ensures |h| !in Places(h, e)
  {
  }

  lemma {:induction false} OccurrencesAre(h: seq<Entry>, e: Entry)
    ensures Occurrences(h, KeyOf(e)) == |Places(h, e)|
  {
    if h == [] {
    } else {
      var n := |h| - 1;
      OccurrencesAre(h[..n], e);
      PlacesNext(h[..n], h[n], e);
      assert h == h[..n] + [h[n]];
      hide Places;
    }
  }

  /** The last entry's outcome has occurred as often as its limit, as an error or as a success. */
  predicate Repeats(cfg: Config, h: seq<Entry>) {
    h != [] && |Places(h, h[|h| - 1])| >= if h[|h| - 1].isError then cfg.maxErrors else cfg.maxNoProgress
  }

  /** The last `n` entries, of at least two, make one and the same call. */
  predicate Stuck(h: seq<Entry>, n: int) {
    && |h| >= 2 && n <= |h|
    && forall i :: 0 <= i && |h| - n <= i < |h| ==> h[i].tool == h[|h| - 1].tool && h[i].argsHash == h[|h| - 1].argsHash
  }

  /** The last `2 * cycles` entries, of at least four, make two different calls in turn. */
  predicate Oscillates(h: seq<Entry>, cycles: int) {
    && |h| >= 4 && 1 <= cycles && 2 * cycles <= |h|
    && !(h[|h| - 1].tool == h[|h| - 2].tool && h[|h| - 1].argsHash == h[|h| - 2].argsHash)
    && forall i :: |h| - 2 * cycles <= i < |h| ==>
         var e := if (|h| - 1 - i) % 2 == 0 then h[|h| - 1] else h[|h| - 2];
         h[i].tool == e.tool && h[i].argsHash == e.argsHash
  }

  /** Break is reported exactly if the last outcome has occurred too often, the last maxConsecutive
      calls are the same, or the last ones alternate and one call fewer than that is not yet the same;
      a warning exactly if there is no reason to break and one call fewer is the same. */
  lemma CheckMeans(cfg: Config, h: seq<Entry>)
    requires Effective(cfg)
    ensures var status := CheckStatus(cfg, h);
      && (status == Break <==>
            || Repeats(cfg, h) || Stuck(h, cfg.maxConsecutive)
            || (Oscillates(h, cfg.maxAlternating) && !Stuck(h, cfg.maxConsecutive - 1)))
      && (status == Warning <==>
            !Repeats(cfg, h) && !Stuck(h, cfg.maxConsecutive) && Stuck(h, cfg.maxConsecutive - 1))
  {
    if h != [] {
      OccurrencesAre(h, Last(h));
      StuckMeans(h, cfg.maxConsecutive);
      StuckMeans(h, cfg.maxConsecutive - 1);
      OscillatesMeans(h, cfg.maxAlternating);
      hide Occurrences, AllSame, Alternates, Stuck, Oscillates;
    }
  }

  lemma StuckMeans(h: seq<Entry>, n: int)
    requires n >= 0
    ensures Stuck(h, n) <==> |h| >= 2 && AllSame(h, |h| - n, |h|)
  {
  }

  lemma OscillatesMeans(h: seq<Entry>, cycles: int)
    requires cycles >= 1
    ensures Oscillates(h, cycles) <==> |h| >= 4 && Alternates(h, |h| - 2 * cycles, |h|)
  {
  }

  // ---------------------------------------------------------------- runs without a break

  /** `h` was built one record at a time and no check along the way said Break. */
  ghost predicate Unbroken(cfg: Config, h: seq<Entry>) {
    forall k :: 1 <= k <= |h| ==> CheckStatus(cfg, h[..k]) != Break
  }

  /** The maxConsecutive entries before `hi` are all the same call. */
  predicate RepeatWindow(cfg: Config, h: seq<Entry>, hi: int) {
    AllSame(h, hi - cfg.maxConsecutive, hi)
  }

  /** The maxAlternating pairs of entries before `hi` alternate between two calls. */
  predicate AlternatingWindow(cfg: Config, h: seq<Entry>, hi: int) {
    Alternates(h, hi - 2 * cfg.maxAlternating, hi)
  }

  ghost predicate NoRepeatWindow(cfg: Config, h: seq<Entry>) {
    forall hi :: !RepeatWindow(cfg, h, hi)
  }

  ghost predicate NoAlternatingWindow(cfg: Config, h: seq<Entry>) {
    forall hi :: !AlternatingWindow(cfg, h, hi)
  }

  ghost predicate FewOccurrences(cfg: Config, h: seq<Entry>) {
    forall key :: Occurrences(h, key) < Limit(cfg, key)
  }

  lemma {:induction false} OccurrencesGrow(h: seq<Entry>, k: nat, key: Key)
    requires k <= |h|
    ensures Occurrences(h[..k], key) <= Occurrences(h, key)
    decreases |h|
  {
    if k < |h| {
      assert h[..|h| - 1][..k] == h[..k];
      OccurrencesGrow(h[..|h| - 1], k, key);
    } else {
      assert h[..k] == h;
    }
  }

  /** All occurrences are already there at the last one. */
  lemma {:induction false} UpToLastOccurrence(h: seq<Entry>, key: Key) returns (k: nat)
    requires Occurrences(h, key) > 0
    ensures 1 <= k <= |h| && KeyOf(h[k - 1]) == key && Occurrences(h[..k], key) == Occurrences(h, key)
    decreases |h|
  {
    if KeyOf(Last(h)) == key {
      k := |h|;
      assert h[..k] == h;
    } else {
      k := UpToLastOccurrence(h[..|h| - 1], key);
      assert h[..|h| - 1][..k] == h[..k];
    }
  }

  lemma RepeatedKeyBreaks(cfg: Config, h: seq<Entry>, key: Key) returns (k: nat)
    requires Effective(cfg) && Occurrences(h, key) >= Limit(cfg, key)
    ensures 1 <= k <= |h| && CheckStatus(cfg, h[..k]) == Break
  {
    k := UpToLastOccurrence(h, key);
    assert Last(h[..k]) == h[k - 1];
  }

  lemma RepeatWindowBreaks(cfg: Config, h: seq<Entry>, hi: int)
    requires cfg.maxConsecutive >= 2 && RepeatWindow(cfg, h, hi)
    ensures 1 <= hi <= |h| && CheckStatus(cfg, h[..hi]) == Break
  {
    assert AllSame(h[..hi], hi - cfg.maxConsecutive, hi);
  }

  lemma AlternatingWindowBreaks(cfg: Config, h: seq<Entry>, hi: int)
    requires cfg.maxConsecutive >= 3 && cfg.maxAlternating >= 2 && AlternatingWindow(cfg, h, hi)
    ensures 1 <= hi <= |h| && CheckStatus(cfg, h[..hi]) == Break
  {
    var p := h[..hi];
    assert Alternates(p, hi - 2 * cfg.maxAlternating, hi);
    assert !SameCall(p[hi - 2], p[hi - 1]);
  }

  lemma BreakShowsPattern(cfg: Config, h: seq<Entry>, k: nat)
    requires Effective(cfg) && 1 <= k <= |h| && CheckStatus(cfg, h[..k]) == Break
    ensures !(NoRepeatWindow(cfg, h) && NoAlternatingWindow(cfg, h) && FewOccurrences(cfg, h))
  {
    var p := h[..k];
    if RepeatStatus(cfg, p) == Break {
      OccurrencesGrow(h, k, KeyOf(Last(p)));
    } else if ConsecutiveStatus(cfg, p) == Break {
      assert RepeatWindow(cfg, h, k);
    } else {
      assert AlternatingWindow(cfg, h, k);
    }
  }

  lemma UnbrokenHasFew(cfg: Config, h: seq<Entry>)
    requires Effective(cfg) && Unbroken(cfg, h)
    ensures FewOccurrences(cfg, h)
  {
    forall key ensures Occurrences(h, key) < Limit(cfg, key) {
      if Occurrences(h, key) >= Limit(cfg, key) {
        var k := RepeatedKeyBreaks(cfg, h, key);
      }
    }
  }

  /** With maxConsecutive >= 3 and maxAlternating >= 2, a history passes every check on the way exactly
      when it holds none of the four patterns, anywhere. */
  lemma UnbrokenExactlyClean(cfg: Config, h: seq<Entry>)
    requires Effective(cfg) && cfg.maxConsecutive >= 3 && cfg.maxAlternating >= 2
    ensures Unbroken(cfg, h)
       <==> NoRepeatWindow(cfg, h) && NoAlternatingWindow(cfg, h) && FewOccurrences(cfg, h)
  {
    if Unbroken(cfg, h) {
      forall hi ensures !RepeatWindow(cfg, h, hi) && !AlternatingWindow(cfg, h, hi) {
        if RepeatWindow(cfg, h, hi) {
          RepeatWindowBreaks(cfg, h, hi);
        }
        if AlternatingWindow(cfg, h, hi) {
          AlternatingWindowBreaks(cfg, h, hi);
        }
      }
      UnbrokenHasFew(cfg, h);
    } else {
      var k :| 1 <= k <= |h| && CheckStatus(cfg, h[..k]) == Break;
      BreakShowsPattern(cfg, h, k);
    }
  }

  // ---------------------------------------------------------------- how long a run can be

  function Without(h: seq<Entry>, key: Key): seq<Entry> {
    if h == [] then []
    else Without(h[..|h| - 1], key) + (if KeyOf(Last(h)) == key then [] else [Last(h)])
  }

  lemma {:induction false} WithoutCounts(h: seq<Entry>, key: Key, other: Key)
    ensures |Without(h, key)| + Occurrences(h, key) == |h|
    ensures Occurrences(Without(h, key), other) == if other == key then 0 else Occurrences(h, other)
    ensures forall e :: e in Without(h, key) ==> e in h && KeyOf(e) != key
  {
    if h == [] {
    } else {
      WithoutCounts(h[..|h| - 1], key, other);
      var front := Without(h[..|h| - 1], key);
      if KeyOf(Last(h)) != key {
        assert (front + [Last(h)])[..|front|] == front;
      } else {
        assert front + [] == front;
      }
    }
  }

  /** How long a run can be with so many distinct failures and successes. */
  function Budget(cfg: Config, failures: nat, successes: nat): int {
    failures * (cfg.maxErrors - 1) + successes * (cfg.maxNoProgress - 1)
  }

  lemma BudgetSteps(cfg: Config, failures: nat, successes: nat)
    ensures Budget(cfg, failures + 1, successes) == Budget(cfg, failures, successes) + cfg.maxErrors - 1
    ensures Budget(cfg, failures, successes + 1) == Budget(cfg, failures, successes) + cfg.maxNoProgress - 1
  {
  }

  lemma BudgetNotNegative(cfg: Config, failures: nat, successes: nat)
    requires Effective(cfg)
    ensures Budget(cfg, failures, successes) >= 0
  {
  }

  /** The entries of `h` have their keys among these, and no key is at its limit. */
  ghost predicate DrawnFrom(cfg: Config, h: seq<Entry>, failures: set<Key>, successes: set<Key>) {
    && FewOccurrences(cfg, h)
    && (forall e :: e in h ==> KeyOf(e) in failures + successes)
    && (forall key :: key in failures ==> key.Failure?)
    && (forall key :: key in successes ==> key.Success?)
  }

  lemma WithoutDrawnFrom(cfg: Config, h: seq<Entry>, key: Key, failures: set<Key>, successes: set<Key>)
    requires Effective(cfg) && DrawnFrom(cfg, h, failures, successes)
    ensures DrawnFrom(cfg, Without(h, key), failures - {key}, successes - {key})
    ensures |h| <= |Without(h, key)| + Limit(cfg, key) - 1
  {
    forall other ensures Occurrences(Without(h, key), other) < Limit(cfg, other) {
      WithoutCounts(h, key, other);
    }
    WithoutCounts(h, key, key);
  }

  /** Entries drawn from so many failures and successes are few. */
  lemma {:induction false} Pigeonhole(cfg: Config, h: seq<Entry>, failures: set<Key>, successes: set<Key>)
    requires Effective(cfg) && DrawnFrom(cfg, h, failures, successes)
    ensures |h| <= Budget(cfg, |failures|, |successes|)
    decreases |failures| + |successes|
  {
    hide Budget, FewOccurrences, Without;
    if h == [] {
      BudgetNotNegative(cfg, |failures|, |successes|);
    } else {
      var key := KeyOf(Last(h));
      assert Last(h) in h;
      WithoutDrawnFrom(cfg, h, key, failures, successes);
      Pigeonhole(cfg, Without(h, key), failures - {key}, successes - {key});
      if key in failures {
        assert successes - {key} == successes && |failures - {key}| == |failures| - 1;
        BudgetSteps(cfg, |failures| - 1, |successes|);
      } else {
        assert failures - {key} == failures && |successes - {key}| == |successes| - 1;
        BudgetSteps(cfg, |failures|, |successes| - 1);
      }
    }
  }

  /** A run that is never broken is no longer than its distinct failures and successes allow,
      whatever the thresholds. */
  lemma UnbrokenIsShort(cfg: Config, h: seq<Entry>)
    requires Effective(cfg) && Unbroken(cfg, h)
    ensures var keys := set e | e in h :: KeyOf(e);
            var failures, successes := set key | key in keys && key.Failure?, set key | key in keys && key.Success?;
            |h| <= |failures| * (cfg.maxErrors - 1) + |successes| * (cfg.maxNoProgress - 1)
  {
    hide Unbroken, FewOccurrences, Occurrences, KeyOf;
    var keys := set e | e in h :: KeyOf(e);
    UnbrokenHasFew(cfg, h);
    var failures, successes := set key | key in keys && key.Failure?, set key | key in keys && key.Success?;
    assert forall e | e in h :: KeyOf(e) in keys;
    Pigeonhole(cfg, h, failures, successes);
  }

  // ---------------------------------------------------------------- thresholds too low

  /** Two calls in turn, never with the same result, or never with the same error. */
  function Flip(i: nat, fails: bool): Entry {
    var text := seq(i, _ => 'r');
    Entry(if i % 2 == 0 then "a" else "b", "", text, fails, if fails then text else "")
  }

  function FlipFlop(n: nat, fails: bool): seq<Entry> {
    seq(n, i requires 0 <= i < n => Flip(i, fails))
  }

  /** One such entry is not yet too many. */
  predicate Tolerates(cfg: Config, fails: bool) {
    if fails then cfg.maxErrors >= 2 else cfg.maxNoProgress >= 2
  }

  lemma {:induction false} FlipFlopDistinct(n: nat, fails: bool, key: Key)
    ensures Occurrences(FlipFlop(n, fails), key) <= 1
    ensures Occurrences(FlipFlop(n, fails), key) == 1 ==> exists i :: 0 <= i < n && key == KeyOf(Flip(i, fails))
  {
    if n == 0 {
    } else {
      FlipFlopDistinct(n - 1, fails, key);
      assert FlipFlop(n, fails)[..n - 1] == FlipFlop(n - 1, fails);
      if KeyOf(Flip(n - 1, fails)) == key {
        forall i | 0 <= i < n - 1 ensures key != KeyOf(Flip(i, fails)) {
          assert |Flip(i, fails).resultHash| != |Flip(n - 1, fails).resultHash|;
        }
      }
    }
  }

  lemma FlipFlopTolerated(cfg: Config, n: nat, fails: bool)
    requires Tolerates(cfg, fails) && n >= 1
    ensures RepeatStatus(cfg, FlipFlop(n, fails)) == OK
  {
    var h := FlipFlop(n, fails);
    FlipFlopDistinct(n, fails, KeyOf(Last(h)));
    hide Occurrences;
    assert Last(h) == Flip(n - 1, fails);
  }

  lemma FlipFlopChanges(n: nat, fails: bool)
    requires n >= 2
    ensures var h := FlipFlop(n, fails); !SameCall(h[n - 2], h[n - 1])
  {
    assert Flip(n - 1, fails).tool != Flip(n - 2, fails).tool;
  }

  lemma FlipFlopConsecutive(cfg: Config, n: nat, fails: bool)
    requires n >= 1 && cfg.maxConsecutive >= 2
    ensures ConsecutiveStatus(cfg, FlipFlop(n, fails)) ==
            if cfg.maxConsecutive == 2 && n >= 2 then Warning else OK
  {
    var h := FlipFlop(n, fails);
    if n >= 2 {
      FlipFlopChanges(n, fails);
      hide FlipFlop, Flip;
      assert forall lo :: AllSame(h, lo, n) ==> lo >= n - 1;
      assert SameCall(h[n - 1], h[n - 1]);
      assert AllSame(h, n - 1, n);
    }
  }

  /** With a warning at two calls, or before a fourth, no further strategy breaks. */
  lemma FlipFlopStatus(cfg: Config, n: nat, fails: bool)
    requires Effective(cfg) && Tolerates(cfg, fails) && n >= 1 && cfg.maxConsecutive >= 2
    requires cfg.maxConsecutive == 2 || n < 4
    ensures CheckStatus(cfg, FlipFlop(n, fails)) != Break
  {
    FlipFlopTolerated(cfg, n, fails);
    FlipFlopConsecutive(cfg, n, fails);
    hide RepeatStatus, ConsecutiveStatus, Alternates;
  }

  lemma FlipFlopAlternates(n: nat, fails: bool)
    requires n >= 2
    ensures Alternates(FlipFlop(n, fails), 0, n)
  {
    hide FlipFlop, Flip;
    FlipFlopChanges(n, fails);
    FlipFlopCalls(n, fails);
  }

  lemma FlipFlopCalls(n: nat, fails: bool)
    ensures |FlipFlop(n, fails)| == n
    ensures forall i :: 0 <= i < n ==>
      FlipFlop(n, fails)[i].tool == (if i % 2 == 0 then "a" else "b") && FlipFlop(n, fails)[i].argsHash == ""
  {
  }

  lemma FlipFlopUnbroken(cfg: Config, n: nat, fails: bool)
    requires Effective(cfg) && Tolerates(cfg, fails) && cfg.maxConsecutive >= 2
    requires cfg.maxConsecutive == 2 || n < 4
    ensures Unbroken(cfg, FlipFlop(n, fails))
  {
    var h := FlipFlop(n, fails);
    hide CheckStatus;
    forall k | 1 <= k <= n ensures CheckStatus(cfg, h[..k]) != Break {
      assert h[..k] == FlipFlop(k, fails);
      FlipFlopStatus(cfg, k, fails);
    }
  }

  /** The consecutive-call warning, always on at maxConsecutive == 2, hides every alternation; and a
      single alternation cycle is never looked for before the fourth call. */
  lemma AlternationMissed(cfg: Config)
    requires Effective(cfg) && (cfg.maxNoProgress >= 2 || cfg.maxErrors >= 2)
    requires cfg.maxConsecutive == 2 || (cfg.maxConsecutive >= 3 && cfg.maxAlternating == 1)
    ensures exists h :: Unbroken(cfg, h) && !NoAlternatingWindow(cfg, h)
  {
    hide Unbroken, Alternates, FlipFlop;
    var n, fails := 2 * cfg.maxAlternating, cfg.maxNoProgress < 2;
    FlipFlopUnbroken(cfg, n, fails);
    FlipFlopAlternates(n, fails);
    assert AlternatingWindow(cfg, FlipFlop(n, fails), n);
    assert Unbroken(cfg, FlipFlop(n, fails)) && !NoAlternatingWindow(cfg, FlipFlop(n, fails));
  }

  /** At maxConsecutive == 1 a lone call is already a window, but one entry is never checked for it. */
  lemma LoneCallMissed(cfg: Config)
    requires Effective(cfg) && (cfg.maxNoProgress >= 2 || cfg.maxErrors >= 2) && cfg.maxConsecutive == 1
    ensures exists h :: Unbroken(cfg, h) && !NoRepeatWindow(cfg, h)
  {
    var fails := cfg.maxNoProgress < 2;
    var h := FlipFlop(1, fails);
    FlipFlopDistinct(1, fails, KeyOf(Last(h)));
    assert h[..1] == h;
    assert RepeatWindow(cfg, h, 1);
    assert Unbroken(cfg, h) && !NoRepeatWindow(cfg, h);
  }

  lemma LastOccurs(h: seq<Entry>)
    ensures h != [] ==> Occurrences(h, KeyOf(Last(h))) >= 1
  {
  }

  /** With one entry of either kind too many, only the empty history is unbroken. */
  lemma NothingTolerated(cfg: Config, h: seq<Entry>)
    requires Effective(cfg) && cfg.maxNoProgress == 1 && cfg.maxErrors == 1 && Unbroken(cfg, h)
    ensures h == []
  {
    UnbrokenHasFew(cfg, h);
    LastOccurs(h);
    hide Occurrences, Unbroken;
  }

  /** Unbroken histories are free of repeating and alternating windows under exactly these limits. */
  lemma ReliableLimits(cfg: Config)
    requires Effective(cfg)
    ensures (forall h :: Unbroken(cfg, h) ==> NoRepeatWindow(cfg, h) && NoAlternatingWindow(cfg, h))
       <==> (cfg.maxConsecutive >= 3 && cfg.maxAlternating >= 2) || (cfg.maxNoProgress == 1 && cfg.maxErrors == 1)
  {
    if cfg.maxConsecutive >= 3 && cfg.maxAlternating >= 2 {
      forall h | Unbroken(cfg, h) ensures NoRepeatWindow(cfg, h) && NoAlternatingWindow(cfg, h) {
        UnbrokenExactlyClean(cfg, h);
      }
    } else if cfg.maxNoProgress == 1 && cfg.maxErrors == 1 {
      forall h | Unbroken(cfg, h) ensures NoRepeatWindow(cfg, h) && NoAlternatingWindow(cfg, h) {
        NothingTolerated(cfg, h);
      }
    } else {
      hide Unbroken, NoRepeatWindow, NoAlternatingWindow;
      if cfg.maxConsecutive == 1 {
        LoneCallMissed(cfg);
      } else {
        AlternationMissed(cfg);
      }
    }
  }
}

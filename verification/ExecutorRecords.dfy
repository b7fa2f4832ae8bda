/** What a run of the executor reports and records, told call by call from the answers of its surroundings. */
module ExecutorRecords {
  import opened Chat
  import opened Text
  import opened Trust
  import opened Executor
  import ExecutorRuns
  import LoopDetection

  // ---------------------------------------------------------------- the decision on a call

  const SHELLS := {"shell_exec", "bash"}
  const FILES := {"file_read", "file_write", "file_list"}

  /** The name has this decision; or it is allowed, and the command or path the call gives has it. */
  predicate Decided(ev: Evaluator, call: ToolCall, action: Action) {
    || (ev.tool(call.name) == action && action != Allow)
    || (ev.tool(call.name) == Allow
        && ((call.name in SHELLS && call.command.Some? && ev.command(call.command.value) == action)
            || (call.name in FILES && call.path.Some? && ev.path(call.path.value) == action)))
  }

  /** The composed decision is Deny, or Ask, exactly if the name has it, or the command or path of a call
      whose name is allowed. */
  lemma ComposeMeans(ev: Evaluator, call: ToolCall)
    ensures Compose(ev, call) == Deny <==> Decided(ev, call, Deny)
    ensures Compose(ev, call) == Ask <==> Decided(ev, call, Ask)
  {
    assert SHELLS !! FILES;
  }

  // ---------------------------------------------------------------- what becomes of a call

  /** Call `i` of the reply in iteration `n`. */
  datatype Place = Place(n: nat, i: nat)

  function CallsOf(env: Env, n: nat): seq<ToolCall> {
    if env.chat(n).Reply? then env.chat(n).calls else []
  }

  predicate IsCall(env: Env, p: Place) {
    p.i < |CallsOf(env, p.n)|
  }

  function CallAt(env: Env, p: Place): ToolCall
    requires IsCall(env, p)
  {
    CallsOf(env, p.n)[p.i]
  }

  /** Not denied, and approved if it had to be asked about. */
  predicate MayRun(env: Env, p: Place)
    requires IsCall(env, p)
  {
    var ev, call := env.trust(p.n, p.i), CallAt(env, p);
    && !Decided(ev, call, Deny)
    && (Decided(ev, call, Ask) ==> env.approver.Some? && env.approver.value(p.n, p.i) == Record(Approved))
  }

  /** A shell call that goes to the container. */
  predicate Contained(env: Env, p: Place)
    requires IsCall(env, p)
  {
    env.sandboxed(p.n, p.i) && CallAt(env, p).name in SHELLS
  }

  /** The tool is run: the call may run, there is a registry, and a shell call that goes to the container
      has the container and a command. */
  predicate Executed(env: Env, p: Place)
    requires IsCall(env, p)
  {
    && MayRun(env, p) && env.hasRegistry
    && (Contained(env, p) ==> env.ensured(p.n, p.i) && CallAt(env, p).command.Some?)
  }

  /** The result is an error: the tool's own, or there was no way to run it. */
  predicate Fails(env: Env, p: Place)
    requires IsCall(env, p)
  {
    if Executed(env, p) then env.execute(p.n, p.i).1
    else !(MayRun(env, p) && env.hasRegistry && env.ensured(p.n, p.i))
  }

  predicate Named(o: Option<string>) {
    o.Some? && o.value != ""
  }

  /** The tool asked for an approval that nobody gave in time. */
  predicate ApprovalMissed(env: Env, p: Place)
    requires IsCall(env, p)
  {
    && CallAt(env, p).name == "request_approval" && Executed(env, p) && !env.execute(p.n, p.i).1
    && Named(env.approvalId(env.execute(p.n, p.i).0))
    && env.approvalOutcome(p.n, p.i).ApprovalResolved? && env.approvalOutcome(p.n, p.i).status == TimedOut
  }

  /** The tool asked a human who did not answer in time. */
  predicate HumanMissed(env: Env, p: Place)
    requires IsCall(env, p)
  {
    && CallAt(env, p).name == "request_human" && Executed(env, p) && !env.execute(p.n, p.i).1
    && Named(env.blockingId(env.execute(p.n, p.i).0))
    && env.humanOutcome(p.n, p.i).HumanResolved? && env.humanOutcome(p.n, p.i).status == Expired
  }

  predicate Missed(env: Env, p: Place)
    requires IsCall(env, p)
  {
    ApprovalMissed(env, p) || HumanMissed(env, p)
  }

  /** What an executed call answers: what the tool returned, or what the waiting of a gate tool came to. */
  function ToolText(env: Env, p: Place): string
    requires IsCall(env, p)
  {
    var (out, failed) := env.execute(p.n, p.i);
    if failed then out
    else if CallAt(env, p).name == "request_approval" && Named(env.approvalId(out)) then
      match env.approvalOutcome(p.n, p.i)
      case ApprovalWaitError(msg) => "Approval wait error: " + msg
      case ApprovalResolved(status, comment) =>
        if status == Approved then "Approval granted: " + comment
        else if status == Rejected then "Approval rejected: " + comment
        else out
    else if CallAt(env, p).name == "request_human" && Named(env.blockingId(out)) then
      match env.humanOutcome(p.n, p.i)
      case HumanWaitError(msg) => "Human request wait error: " + msg
      case HumanResolved(status, message) =>
        if status == Answered then "Human responded: " + message
        else if status == Cancelled then "Human cancelled: " + message
        else out
    else out
  }

  /** The entry records the call with its outcome, and its result after redaction. */
  ghost predicate Records(env: Env, p: Place, e: LoopDetection.Entry)
    requires IsCall(env, p)
  {
    exists text: string ::
      && (Executed(env, p) ==> text == ToolText(env, p))
      && (!Executed(env, p) && !Fails(env, p) ==> text == "")
      && Recorded(env, p, e, text)
  }

  predicate Recorded(env: Env, p: Place, e: LoopDetection.Entry, text: string)
    requires IsCall(env, p)
  {
    && e.tool == CallAt(env, p).name && e.argsHash == CallAt(env, p).argsHash
    && e.isError == Fails(env, p) && e.resultHash == env.hash(env.redact(text))
    && e.errorMsg == if Fails(env, p) then env.redact(text) else ""
  }

  /** The events of one call. */
  function Report(env: Env, p: Place): seq<Event>
    requires IsCall(env, p)
  {
    var ev, call := env.trust(p.n, p.i), CallAt(env, p);
    [CallStart(p.n, call.id, call.name)]
    + (if Decided(ev, call, Deny) then [TrustDenied(p.n, call.name)] else [])
    + (if Decided(ev, call, Ask) then [TrustAsked(p.n, call.name)] else [])
    + (if MayRun(env, p) then [TrustAllowed(p.n, call.name)] else [])
    + (if Missed(env, p) then [] else [CallResult(p.n, call.id, call.name, Fails(env, p))])
  }

  // ---------------------------------------------------------------- one call

  lemma GateReports(env: Env, p: Place)
    requires IsCall(env, p)
    ensures var (gated, refusal) := Gate(env, p.n, p.i, CallAt(env, p));
      var ev, call := env.trust(p.n, p.i), CallAt(env, p);
      && gated == (if Decided(ev, call, Deny) then [TrustDenied(p.n, call.name)] else [])
                  + (if Decided(ev, call, Ask) then [TrustAsked(p.n, call.name)] else [])
      && (refusal.None? <==> MayRun(env, p))
  {
    hide Compose, Decided;
    ComposeMeans(env.trust(p.n, p.i), CallAt(env, p));
  }

  lemma DispatchedMeans(env: Env, p: Place)
    requires IsCall(env, p) && MayRun(env, p)
    ensures var (ran, result, isError) := Dispatched(env, p.n, p.i, CallAt(env, p));
      && ran == Executed(env, p) && isError == Fails(env, p)
      && (ran ==> result == env.execute(p.n, p.i).0)
      && (!ran && !isError ==> result == "")
  {
    hide MayRun;
  }

  /** A gate tool that did not give up goes on with this text. */
  lemma WaitMeans(env: Env, p: Place)
    requires IsCall(env, p) && Executed(env, p) && !env.execute(p.n, p.i).1
    ensures var out := env.execute(p.n, p.i).0;
      && (CallAt(env, p).name == "request_approval" ==>
            var w := ApprovalWait(env, p.n, p.i, out);
            (w.GiveUp? <==> ApprovalMissed(env, p)) && (w.GoOn? ==> w.output == ToolText(env, p)))
      && (CallAt(env, p).name == "request_human" ==>
            var w := HumanWait(env, p.n, p.i, out);
            (w.GiveUp? <==> HumanMissed(env, p))
            && (w.GoOn? ==> (if w.output == "" then out else w.output) == ToolText(env, p)))
      && (CallAt(env, p).name !in {"request_approval", "request_human"} ==> ToolText(env, p) == out)
  {
    hide Executed;
  }

  function StopAt(env: Env, p: Place): Option<Status>
    requires IsCall(env, p)
  {
    if ApprovalMissed(env, p) then Some(ApprovalTimeout)
    else if HumanMissed(env, p) then Some(RequestExpired)
    else None
  }

  lemma ToolNames(env: Env, p: Place)
    requires IsCall(env, p) && Missed(env, p)
    ensures Executed(env, p) && !env.execute(p.n, p.i).1 && MayRun(env, p)
    ensures CallAt(env, p).name in {"request_approval", "request_human"}
  {
  }

  /** How one call ends, its result, and whether it was run. */
  lemma CallEndsAs(env: Env, p: Place)
    requires IsCall(env, p)
    ensures var call := CallAt(env, p);
      var t := RunCall(env, p.n, p.i, call);
      && t.ran == Executed(env, p) && t.stop == StopAt(env, p)
      && (t.stop.None? ==> Records(env, p, EntryOf(env, call, t)) && t.isError == Fails(env, p))
  {
    var call := CallAt(env, p);
    var t := RunCall(env, p.n, p.i, call);
    GateReports(env, p);
    if MayRun(env, p) {
      DispatchedMeans(env, p);
      if Executed(env, p) && !env.execute(p.n, p.i).1 {
        WaitMeans(env, p);
      }
    }
    hide Gate, Dispatched, ApprovalWait, HumanWait, Decided;
    if t.stop.None? {
      var text := if !MayRun(env, p) then Gate(env, p.n, p.i, call).1.value
                  else if Executed(env, p) then ToolText(env, p)
                  else Dispatched(env, p.n, p.i, call).1;
      assert Recorded(env, p, EntryOf(env, call, t), text);
    }
  }

  lemma FinishEvents(env: Env, p: Place)
    requires IsCall(env, p)
    ensures var call := CallAt(env, p);
      var t, (gated, refusal) := RunCall(env, p.n, p.i, call), Gate(env, p.n, p.i, call);
      t.events == [CallStart(p.n, call.id, call.name)] + gated
                  + (if refusal.None? then [TrustAllowed(p.n, call.name)] else [])
                  + (if t.stop.Some? then [RunFailed(p.n)] else [CallResult(p.n, call.id, call.name, t.isError)])
  {
    ExecutorRuns.CallShape(env, p.n, p.i, CallAt(env, p));
  }

  lemma CallReports(env: Env, p: Place)
    requires IsCall(env, p)
    ensures RunCall(env, p.n, p.i, CallAt(env, p)).events
         == Report(env, p) + if Missed(env, p) then [RunFailed(p.n)] else []
  {
    hide RunCall, Gate, Decided, Executed, ApprovalMissed, HumanMissed, MayRun, Fails;
    CallEndsAs(env, p);
    FinishEvents(env, p);
    GateReports(env, p);
    if Missed(env, p) {
      ToolNames(env, p);
    }
  }

  // ---------------------------------------------------------------- lists of calls

  predicate AreCalls(env: Env, places: seq<Place>) {
    forall k :: 0 <= k < |places| ==> IsCall(env, places[k])
  }

  function Reports(env: Env, places: seq<Place>): seq<Event>
    requires AreCalls(env, places)
  {
    if places == [] then [] else Reports(env, places[..|places| - 1]) + Report(env, places[|places| - 1])
  }

  /** The tools run for these calls. */
  function Executions(env: Env, places: seq<Place>): seq<Dispatch>
    requires AreCalls(env, places)
  {
    if places == [] then []
    else
      var p := places[|places| - 1];
      Executions(env, places[..|places| - 1]) + if Executed(env, p) then [Dispatch(p.n, p.i, CallAt(env, p))] else []
  }

  /** The places of the calls of iteration `n` from index `i` on. */
  function PlacesIn(env: Env, n: nat, i: nat): seq<Place>
    requires i <= |CallsOf(env, n)|
  {
    seq(|CallsOf(env, n)| - i, k requires 0 <= k < |CallsOf(env, n)| - i => Place(n, i + k))
  }

  /** The places of all calls the model made in iterations `m` to `n`. */
  function Made(env: Env, m: nat, n: nat): seq<Place> {
    if n < m then [] else (if n == 0 then [] else Made(env, m, n - 1)) + PlacesIn(env, n, 0)
  }

  predicate OfCall(e: Event) {
    e.CallStart? || e.TrustDenied? || e.TrustAsked? || e.TrustAllowed? || e.CallResult?
  }

  function OfCalls(events: seq<Event>): seq<Event> {
    if events == [] then []
    else OfCalls(events[..|events| - 1]) + if OfCall(events[|events| - 1]) then [events[|events| - 1]] else []
  }

  lemma {:induction false} OfCallsConcat(a: seq<Event>, b: seq<Event>)
    ensures OfCalls(a + b) == OfCalls(a) + OfCalls(b)
  {
    if b == [] {
      assert a + b == a;
    } else {
      OfCallsConcat(a, b[..|b| - 1]);
      assert (a + b)[..|a + b| - 1] == a + b[..|b| - 1];
    }
  }

  lemma {:induction false} AllOfCalls(events: seq<Event>)
    requires forall k :: 0 <= k < |events| ==> OfCall(events[k])
    ensures OfCalls(events) == events
  {
    if events == [] {
    } else {
      AllOfCalls(events[..|events| - 1]);
      assert events == events[..|events| - 1] + [events[|events| - 1]];
    }
  }

  lemma {:induction false} NoneOfCalls(events: seq<Event>)
    requires forall k :: 0 <= k < |events| ==> !OfCall(events[k])
    ensures OfCalls(events) == []
  {
    if events == [] {
    } else {
      NoneOfCalls(events[..|events| - 1]);
    }
  }

  lemma ReportsThen(env: Env, places: seq<Place>, p: Place)
    requires AreCalls(env, places) && IsCall(env, p)
    ensures AreCalls(env, places + [p])
    ensures Reports(env, places + [p]) == Reports(env, places) + Report(env, p)
    ensures Executions(env, places + [p])
         == Executions(env, places) + if Executed(env, p) then [Dispatch(p.n, p.i, CallAt(env, p))] else []
  {
    hide Report, Executed, IsCall;
    assert (places + [p])[..|places|] == places && (places + [p])[|places|] == p;
  }

  lemma Associates<T>(a: seq<T>, b: seq<T>, c: seq<T>)
    ensures a + (b + c) == (a + b) + c
  {
  }

  lemma {:induction false} ReportsConcat(env: Env, a: seq<Place>, b: seq<Place>)
    requires AreCalls(env, a) && AreCalls(env, b)
    ensures AreCalls(env, a + b) && Reports(env, a + b) == Reports(env, a) + Reports(env, b)
    ensures Executions(env, a + b) == Executions(env, a) + Executions(env, b)
    decreases |b|
  {
    hide Report, Executed, IsCall;
    if b == [] {
      assert a + b == a;
    } else {
      var front, last := b[..|b| - 1], b[|b| - 1];
      hide Reports, Executions;
      ReportsConcat(env, a, front);
      ReportsThen(env, a + front, last);
      ReportsThen(env, front, last);
      assert b == front + [last] && a + b == (a + front) + [last];
      Associates(Reports(env, a), Reports(env, front), Report(env, last));
      Associates(Executions(env, a), Executions(env, front),
                 if Executed(env, last) then [Dispatch(last.n, last.i, CallAt(env, last))] else []);
    }
  }

  // ---------------------------------------------------------------- a trace of calls

  predicate Gated(stop: Option<Status>) {
    stop == Some(ApprovalTimeout) || stop == Some(RequestExpired)
  }

  /** How many of the calls were begun: all those recorded, and the one that a gate's end cut off. */
  function Begun(base: nat, t: Trace): int {
    |t.history| - base + if Gated(t.stop) then 1 else 0
  }

  /** `t` is what comes of the calls at `places`, made in this order after the history `base`: each call
      begun is reported, each but one that a gate gave up on is recorded, and tools are run exactly for
      those that may. */
  ghost predicate Faithful(env: Env, places: seq<Place>, base: seq<LoopDetection.Entry>, t: Trace) {
    && AreCalls(env, places)
    && |base| <= |t.history| && t.history[..|base|] == base
    && Begun(|base|, t) <= |places|
    && (forall k :: 0 <= k < |t.history| - |base| ==>
          Records(env, places[k], t.history[|base| + k]) && !Missed(env, places[k]))
    && OfCalls(t.events) == Reports(env, places[..Begun(|base|, t)])
    && t.dispatches == Executions(env, places[..Begun(|base|, t)])
    && (Gated(t.stop) ==> t.stop == StopAt(env, places[|t.history| - |base|]))
  }

  /** Everything was begun, or the trace has ended early. */
  predicate Complete(places: seq<Place>, base: seq<LoopDetection.Entry>, t: Trace) {
    Gated(t.stop) || t.stop == Some(LoopDetected) || |t.history| == |base| + |places|
  }

  lemma FaithfulConcat(env: Env, a: seq<Place>, b: seq<Place>, base: seq<LoopDetection.Entry>, t: Trace, u: Trace)
    requires Faithful(env, a, base, t) && t.stop.None? && |t.history| == |base| + |a|
    requires Faithful(env, b, t.history, u)
    ensures Faithful(env, a + b, base, Before(t.events, t.dispatches, u))
    ensures Complete(b, t.history, u) ==> Complete(a + b, base, Before(t.events, t.dispatches, u))
  {
    hide Records, Missed, StopAt, Reports, Executions, OfCalls;
    var n := Begun(|t.history|, u);
    var all := Before(t.events, t.dispatches, u);
    assert u.history[..|base|] == u.history[..|t.history|][..|base|];
    assert (a + b)[..|a| + n] == a + b[..n];
    assert a[..|a|] == a;
    ReportsConcat(env, a, b[..n]);
    OfCallsConcat(t.events, u.events);
    forall k | 0 <= k < |u.history| - |base|
      ensures Records(env, (a + b)[k], u.history[|base| + k]) && !Missed(env, (a + b)[k])
    {
      if k < |a| {
        assert u.history[|base| + k] == u.history[..|t.history|][|base| + k] == t.history[|base| + k];
      } else {
        assert (a + b)[k] == b[k - |a|] && u.history[|base| + k] == u.history[|t.history| + (k - |a|)];
      }
    }
  }

  predicate Aside(events: seq<Event>) {
    forall k :: 0 <= k < |events| ==> !OfCall(events[k])
  }

  /** Events that are not of calls, and a stop that no gate caused, do not matter. */
  lemma FaithfulAround(env: Env, places: seq<Place>, base: seq<LoopDetection.Entry>, t: Trace,
                       before: seq<Event>, after: seq<Event>, stop: Option<Status>, n: nat)
    requires Faithful(env, places, base, t) && Aside(before) && Aside(after)
    requires stop == t.stop || (!Gated(t.stop) && !Gated(stop))
    ensures Faithful(env, places, base, Trace(before + t.events + after, t.dispatches, t.history, stop, n))
  {
    hide Records, Missed, StopAt, Reports, Executions, OfCalls;
    NoneOfCalls(before);
    NoneOfCalls(after);
    OfCallsConcat(before, t.events);
    OfCallsConcat(before + t.events, after);
  }

  lemma ReportIsOfCalls(env: Env, p: Place)
    requires IsCall(env, p)
    ensures OfCalls(Report(env, p)) == Report(env, p)
    ensures Reports(env, [p]) == Report(env, p)
    ensures Executions(env, [p]) == if Executed(env, p) then [Dispatch(p.n, p.i, CallAt(env, p))] else []
    ensures Reports(env, []) == [] && Executions(env, []) == []
  {
    hide Decided, Executed, Missed, MayRun, Fails;
    AllOfCalls(Report(env, p));
    assert [p][..0] == [];
  }

  lemma CallFaithful(env: Env, p: Place, base: seq<LoopDetection.Entry>)
    requires IsCall(env, p)
    ensures var call := CallAt(env, p);
      var t := RunCall(env, p.n, p.i, call);
      var ds := if t.ran then [Dispatch(p.n, p.i, call)] else [];
      var history := if t.stop.Some? then base else base + [EntryOf(env, call, t)];
      Faithful(env, [p], base, Trace(t.events, ds, history, t.stop, p.n)) && (t.stop.Some? ==> Gated(t.stop))
  {
    hide RunCall, Report, Reports, Executions, OfCalls, Records, EntryOf, Executed;
    CallEndsAs(env, p);
    CallReports(env, p);
    ReportIsOfCalls(env, p);
    NoneOfCalls([RunFailed(p.n)]);
    OfCallsConcat(Report(env, p), [RunFailed(p.n)]);
    assert Report(env, p) + [] == Report(env, p);
    assert [p][..1] == [p] && [p][..0] == [];
  }

  lemma NothingFaithful(env: Env, history: seq<LoopDetection.Entry>, n: nat)
    ensures Faithful(env, [], history, Trace([], [], history, None, n))
  {
  }

  lemma PlacesNext(env: Env, n: nat, i: nat)
    requires i < |CallsOf(env, n)|
    ensures PlacesIn(env, n, i) == [Place(n, i)] + PlacesIn(env, n, i + 1) && AreCalls(env, PlacesIn(env, n, i + 1))
    ensures IsCall(env, Place(n, i)) && CallAt(env, Place(n, i)) == CallsOf(env, n)[i]
  {
  }

  lemma {:induction false} CallsFaithful(cfg: Config, env: Env, n: nat, i: nat, history: seq<LoopDetection.Entry>)
    requires i <= |CallsOf(env, n)|
    ensures var t := RunCalls(cfg, env, n, CallsOf(env, n), i, history);
      && Faithful(env, PlacesIn(env, n, i), history, t) && Complete(PlacesIn(env, n, i), history, t)
      && (t.stop == Some(LoopDetected) ==>
            |t.history| > 0 && LoopDetection.CheckStatus(cfg.loops, t.history) == LoopDetection.Break)
      && (t.stop.Some? ==> Gated(t.stop) || t.stop == Some(LoopDetected)) && t.n == n
    decreases |CallsOf(env, n)| - i
  {
    hide RunCall, LoopDetection.CheckStatus, EntryOf, Faithful, IsCall, CallAt;
    var calls := CallsOf(env, n);
    if i == |calls| {
      assert PlacesIn(env, n, i) == [];
      NothingFaithful(env, history, n);
    } else {
      var p := Place(n, i);
      var rest := PlacesIn(env, n, i + 1);
      var t := RunCall(env, n, i, calls[i]);
      var ds := if t.ran then [Dispatch(n, i, calls[i])] else [];
      PlacesNext(env, n, i);
      CallFaithful(env, p, history);
      if t.stop.Some? {
        FaithfulFront(env, p, rest, history, Trace(t.events, ds, history, t.stop, n));
      } else {
        var history' := history + [EntryOf(env, calls[i], t)];
        var one := Trace(t.events, ds, history', None, n);
        if LoopDetection.CheckStatus(cfg.loops, history') == LoopDetection.Break {
          FaithfulAround(env, [p], history, one, [], [RunFailed(n)], Some(LoopDetected), n);
          assert [] + t.events + [RunFailed(n)] == t.events + [RunFailed(n)];
          FaithfulFront(env, p, rest, history, Trace(t.events + [RunFailed(n)], ds, history', Some(LoopDetected), n));
        } else {
          CallsFaithful(cfg, env, n, i + 1, history');
          FaithfulConcat(env, [p], rest, history, one, RunCalls(cfg, env, n, calls, i + 1, history'));
        }
      }
    }
  }

  /** Calls never begun do not matter. */
  lemma FaithfulFront(env: Env, p: Place, rest: seq<Place>, base: seq<LoopDetection.Entry>, t: Trace)
    requires Faithful(env, [p], base, t) && AreCalls(env, rest) && |t.history| <= |base| + 1
    ensures Faithful(env, [p] + rest, base, t)
  {
    hide Records, Missed, StopAt, Reports, Executions, OfCalls;
    var n := Begun(|base|, t);
    assert ([p] + rest)[..n] == [p][..n];
    assert |t.history| == |base| + 1 ==> ([p] + rest)[0] == [p][0];
    assert ([p] + rest)[0] == p;
  }

  // ---------------------------------------------------------------- a whole run

  /** Why a run ended in iteration `t.n`. */
  predicate Reason(cfg: Config, env: Env, t: Trace) {
    match t.stop
    case Some(Failed) => env.chat(t.n).ChatError?
    case Some(Completed) =>
      && env.chat(t.n).Reply?
      && (CallsOf(env, t.n) == [] || env.shouldStop(t.n) || t.n == if cfg.given > 0 then cfg.given else 10)
    case Some(LoopDetected) =>
      |t.history| > 0 && LoopDetection.CheckStatus(cfg.loops, t.history) == LoopDetection.Break
    case Some(_) => true
    case None => false
  }

  /** The run goes on after iteration `m`. */
  predicate GoesOn(env: Env, m: nat) {
    CallsOf(env, m) != [] && !env.shouldStop(m)
  }

  lemma {:induction false} MadeSplits(env: Env, m: nat, n: nat)
    requires m <= n && m > 0
    ensures Made(env, m, n) == PlacesIn(env, m, 0) + Made(env, m + 1, n)
    ensures AreCalls(env, Made(env, m, n))
  {
    hide PlacesIn, IsCall;
    PlacesAreCalls(env, n);
    if n == m {
      assert Made(env, m, n - 1) == [] && Made(env, m + 1, n) == [];
    } else {
      MadeSplits(env, m, n - 1);
      Associates(PlacesIn(env, m, 0), Made(env, m + 1, n - 1), PlacesIn(env, n, 0));
    }
  }

  lemma PlacesAreCalls(env: Env, n: nat)
    ensures AreCalls(env, PlacesIn(env, n, 0))
  {
  }

  /** The run after `n` iterations is what comes of the calls made from then on. */
  ghost predicate Told(cfg: Config, env: Env, n: nat, history: seq<LoopDetection.Entry>, t: Trace) {
    && n < t.n <= IterationLimit(cfg.given)
    && Faithful(env, Made(env, n + 1, t.n), history, t) && Complete(Made(env, n + 1, t.n), history, t)
    && Reason(cfg, env, t) && (forall m :: n < m < t.n ==> GoesOn(env, m))
  }

  /** An iteration without calls is the last. */
  lemma LastIteration(cfg: Config, env: Env, n: nat, history: seq<LoopDetection.Entry>)
    requires n < IterationLimit(cfg.given) && CallsOf(env, n + 1) == []
    ensures Told(cfg, env, n, history, RunFrom(cfg, env, n, history))
  {
    hide Faithful, RunCalls, Spoken, LoopDetection.CheckStatus;
    var m := n + 1;
    MadeSplits(env, m, m);
    assert Made(env, m, m) == PlacesIn(env, m, 0) == [];
    NothingFaithful(env, history, m);
    var empty := Trace([], [], history, None, m);
    match env.chat(m)
    case ChatError =>
      FaithfulAround(env, [], history, empty, [Iteration(m)], [RunFailed(m)], Some(Failed), m);
      assert [Iteration(m)] + [] + [RunFailed(m)] == [Iteration(m), RunFailed(m)];
    case Reply(content, thinking, calls) =>
      var opening := [Iteration(m)] + Spoken(m, content, thinking);
      OpeningAside(m, content, thinking);
      FaithfulAround(env, [], history, empty, opening, [RunCompleted(m)], Some(Completed), m);
      assert opening + [] + [RunCompleted(m)] == opening + [RunCompleted(m)];
  }

  /** At the limit nothing more happens. */
  lemma Exhausted(cfg: Config, env: Env, history: seq<LoopDetection.Entry>)
    ensures Faithful(env, [], history, RunFrom(cfg, env, IterationLimit(cfg.given), history))
  {
    hide Faithful;
    var n := IterationLimit(cfg.given);
    NothingFaithful(env, history, n);
    FaithfulAround(env, [], history, Trace([], [], history, None, n), [], [RunCompleted(n)], Some(Completed), n);
    assert [] + [] + [RunCompleted(n)] == [RunCompleted(n)];
  }

  lemma {:induction false} RunFaithful(cfg: Config, env: Env, n: nat, history: seq<LoopDetection.Entry>)
    requires n < IterationLimit(cfg.given)
    ensures Told(cfg, env, n, history, RunFrom(cfg, env, n, history))
    decreases IterationLimit(cfg.given) - n
  {
    hide Faithful, RunCalls, Spoken, LoopDetection.CheckStatus;
    var m := n + 1;
    if CallsOf(env, m) == [] {
      LastIteration(cfg, env, n, history);
    } else {
      var Reply(content, thinking, calls) := env.chat(m);
      var opening, places := [Iteration(m)] + Spoken(m, content, thinking), PlacesIn(env, m, 0);
      var round := RunCalls(cfg, env, m, calls, 0, history);
      OpeningAside(m, content, thinking);
      MadeSplits(env, m, m);
      assert Made(env, m, m) == places;
      CallsFaithful(cfg, env, m, 0, history);
      assert opening + round.events + [] == opening + round.events && [] + round.dispatches == round.dispatches;
      if round.stop.Some? {
        FaithfulAround(env, places, history, round, opening, [], round.stop, m);
      } else if env.shouldStop(m) {
        FaithfulAround(env, places, history, round, opening, [RunCompleted(m)], Some(Completed), m);
      } else {
        FaithfulAround(env, places, history, round, opening, [], None, m);
        var first := Trace(opening + round.events, round.dispatches, round.history, None, m);
        var rest := RunFrom(cfg, env, m, round.history);
        if m < IterationLimit(cfg.given) {
          RunFaithful(cfg, env, m, round.history);
          MadeSplits(env, m, rest.n);
          FaithfulConcat(env, places, Made(env, m + 1, rest.n), history, first, rest);
        } else {
          Exhausted(cfg, env, round.history);
          assert places + [] == places;
          FaithfulConcat(env, places, [], history, first, rest);
        }
      }
    }
  }

  lemma OpeningAside(m: nat, content: string, thinking: string)
    ensures Aside([Iteration(m)] + Spoken(m, content, thinking))
  {
  }

  /** Every run, told call by call: the calls begun are the first ones the model made, each but one that a
      gate gave up on is recorded with its own outcome, their events and the tools run are those the
      answers around the loop call for, and the run ends where, and only where, there is a reason. */
  lemma EveryRunTold(cfg: Config, env: Env)
    requires LoopDetection.Effective(cfg.loops)
    ensures var t := RunFrom(cfg, env, 0, []);
      var places := Made(env, 1, t.n);
      && Begun(0, t) <= |places| && AreCalls(env, places)
      && 1 <= t.n <= (if cfg.given > 0 then cfg.given else 10)
      && (forall k :: 0 <= k < |t.history| ==> Records(env, places[k], t.history[k]) && !Missed(env, places[k]))
      && OfCalls(t.events) == Reports(env, places[..Begun(0, t)])
      && t.dispatches == Executions(env, places[..Begun(0, t)])
      && (Gated(t.stop) ==> t.stop == StopAt(env, places[|t.history|]))
      && (t.stop == Some(LoopDetected) <==>
            |t.history| > 0 && LoopDetection.CheckStatus(cfg.loops, t.history) == LoopDetection.Break)
      && (t.stop == Some(Completed) || t.stop == Some(Failed) ==> |t.history| == |places|)
      && Reason(cfg, env, t) && (forall m :: 1 <= m < t.n ==> GoesOn(env, m))
  {
    hide RunFrom, Reports, Executions, OfCalls, Records, Missed, StopAt, Made, LoopDetection.CheckStatus;
    RunFaithful(cfg, env, 0, []);
    ExecutorRuns.NothingUnbroken(cfg.loops);
    ExecutorRuns.RunKeepsHistory(cfg, env, 0, []);
    var t := RunFrom(cfg, env, 0, []);
    assert t.history[..|t.history|] == t.history;
  }

  /** Call `k` of a run is reported. */
  lemma {:induction false} ReportsHold(env: Env, places: seq<Place>, k: nat)
    requires AreCalls(env, places) && k < |places|
    ensures forall e :: e in Report(env, places[k]) ==> e in Reports(env, places)
    ensures var p := places[k];
      Executed(env, p) ==> Dispatch(p.n, p.i, CallAt(env, p)) in Executions(env, places)
    decreases |places|
  {
    hide Report, Executed;
    if k < |places| - 1 {
      ReportsHold(env, places[..|places| - 1], k);
    } else {
    }
  }

  lemma {:induction false} ExecutionsAreOf(env: Env, places: seq<Place>, d: Dispatch) returns (k: nat)
    requires AreCalls(env, places) && d in Executions(env, places)
    ensures k < |places| && places[k] == Place(d.n, d.index)
    ensures Executed(env, places[k]) && d.call == CallAt(env, places[k])
  {
    hide Executed;
    var front, p := places[..|places| - 1], places[|places| - 1];
    if d in Executions(env, front) {
      k := ExecutionsAreOf(env, front, d);
    } else {
      k := |places| - 1;
    }
  }

  lemma {:induction false} OfCallsIn(events: seq<Event>, e: Event)
    ensures e in OfCalls(events) <==> e in events && OfCall(e)
  {
    if events == [] {
    } else {
      OfCallsIn(events[..|events| - 1], e);
      assert events == events[..|events| - 1] + [events[|events| - 1]];
    }
  }

  /** What a tool returned is what is reported and recorded: for each tool run that is not one of the
      two gates, its own error flag and its own result, redacted. */
  lemma OutcomeReported(cfg: Config, env: Env, d: Dispatch) returns (k: nat)
    requires LoopDetection.Effective(cfg.loops) && d in RunFrom(cfg, env, 0, []).dispatches
    requires d.call.name != "request_approval" && d.call.name != "request_human"
    ensures var t, (out, failed) := RunFrom(cfg, env, 0, []), env.execute(d.n, d.index);
      && CallResult(d.n, d.call.id, d.call.name, failed) in t.events
      && k < |t.history| <= |Made(env, 1, t.n)| && Made(env, 1, t.n)[k] == Place(d.n, d.index)
      && t.history[k] == LoopDetection.Entry(d.call.name, d.call.argsHash, env.hash(env.redact(out)), failed,
                                             if failed then env.redact(out) else "")
  {
    hide RunFrom, Reports, Executions, OfCalls, Made, Executed, MayRun, Decided, LoopDetection.CheckStatus;
    var t := RunFrom(cfg, env, 0, []);
    var places := Made(env, 1, t.n);
    EveryRunTold(cfg, env);
    k := ExecutionsAreOf(env, places[..Begun(0, t)], d);
    var p := places[k];
    ReportsHold(env, places[..Begun(0, t)], k);
    var e := CallResult(d.n, d.call.id, d.call.name, env.execute(d.n, d.index).1);
    assert e in Report(env, p);
    OfCallsIn(t.events, e);
    assert Records(env, p, t.history[k]);
  }

  /** A call that was begun and may run is run. */
  lemma PermittedCallRuns(cfg: Config, env: Env, k: nat)
    requires LoopDetection.Effective(cfg.loops)
    requires var t := RunFrom(cfg, env, 0, []);
      var places := Made(env, 1, t.n);
      k < Begun(0, t) && k < |places| && IsCall(env, places[k]) && Executed(env, places[k])
    ensures var t := RunFrom(cfg, env, 0, []);
      var p := Made(env, 1, t.n)[k];
      Dispatch(p.n, p.i, CallAt(env, p)) in t.dispatches
  {
    hide RunFrom, Reports, Executions, OfCalls, Made, Executed, Records, Missed, LoopDetection.CheckStatus;
    var t := RunFrom(cfg, env, 0, []);
    var places := Made(env, 1, t.n);
    EveryRunTold(cfg, env);
    ReportsHold(env, places[..Begun(0, t)], k);
  }

  /** A gate whose wait ran out ends the run there and then, with the status of that gate. */
  lemma MissedGateEndsRun(cfg: Config, env: Env, k: nat)
    requires LoopDetection.Effective(cfg.loops)
    requires var t := RunFrom(cfg, env, 0, []);
      var places := Made(env, 1, t.n);
      k < Begun(0, t) && k < |places| && IsCall(env, places[k]) && Missed(env, places[k])
    ensures var t := RunFrom(cfg, env, 0, []);
      && k == |t.history| && k + 1 == Begun(0, t)
      && t.stop == Some(if ApprovalMissed(env, Made(env, 1, t.n)[k]) then ApprovalTimeout else RequestExpired)
  {
    hide RunFrom, Reports, Executions, OfCalls, Made, ApprovalMissed, HumanMissed, Records, LoopDetection.CheckStatus;
    EveryRunTold(cfg, env);
  }

  // ---------------------------------------------------------------- what is said

  predicate OfSpeech(e: Event) {
    e.Iteration? || e.Thinking? || e.TextOut?
  }

  lemma CallsSayNothing(cfg: Config, env: Env, n: nat, calls: seq<ToolCall>, i: nat, history: seq<LoopDetection.Entry>)
    requires i <= |calls|
    ensures forall e :: e in RunCalls(cfg, env, n, calls, i, history).events ==> !OfSpeech(e)
    decreases |calls| - i
  {
    hide RunCall, Gate, LoopDetection.CheckStatus, EntryOf;
    if i == |calls| {
    } else {
      var t := RunCall(env, n, i, calls[i]);
      ExecutorRuns.CallShape(env, n, i, calls[i]);
      GateSaysNothing(env, n, i, calls[i]);
      if t.stop.None? {
        CallsSayNothing(cfg, env, n, calls, i + 1, history + [EntryOf(env, calls[i], t)]);
      }
    }
  }

  lemma GateSaysNothing(env: Env, n: nat, i: nat, call: ToolCall)
    ensures forall e :: e in Gate(env, n, i, call).0 ==> !OfSpeech(e)
  {
    hide Compose;
  }

  lemma OpeningSays(n: nat, content: string, thinking: string, e: Event)
    ensures e in [Iteration(n)] + Spoken(n, content, thinking) <==>
      e == Iteration(n) || (e == Thinking(n) && thinking != "") || (e == TextOut(n) && content != "")
  {
  }

  /** What is said in iteration `m`, if it takes place. */
  predicate Said(env: Env, e: Event) {
    || e.Iteration?
    || (e.Thinking? && env.chat(e.n).Reply? && env.chat(e.n).thinking != "")
    || (e.TextOut? && env.chat(e.n).Reply? && env.chat(e.n).content != "")
  }

  /** A run announces each of its iterations, and the thinking and the text of each reply that has some. */
  lemma {:induction false} SpeechTold(cfg: Config, env: Env, n: nat, history: seq<LoopDetection.Entry>, e: Event)
    requires n <= IterationLimit(cfg.given) && OfSpeech(e)
    ensures var t := RunFrom(cfg, env, n, history);
      e in t.events <==> n < e.n <= t.n && Said(env, e)
    decreases IterationLimit(cfg.given) - n
  {
    hide RunCalls, Spoken;
    if n == IterationLimit(cfg.given) || env.chat(n + 1).ChatError? {
    } else {
      var m := n + 1;
      var Reply(content, thinking, calls) := env.chat(m);
      OpeningSays(m, content, thinking, e);
      if calls != [] {
        var round := RunCalls(cfg, env, m, calls, 0, history);
        CallsSayNothing(cfg, env, m, calls, 0, history);
        ExecutorRuns.CallsEnd(cfg, env, m, calls, 0, history);
        if round.stop.None? && !env.shouldStop(m) {
          SpeechTold(cfg, env, m, round.history, e);
          ExecutorRuns.RunEnds(cfg, env, m, round.history);
        }
      }
    }
  }
}

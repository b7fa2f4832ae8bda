/** What holds of every run of the executor: the grammar of its events, and which tools it runs. */
module ExecutorRuns {
  import opened Chat
  import opened Text
  import opened Trust
  import opened Executor
  import LoopDetection

  // ---------------------------------------------------------------- the grammar of events

  /** Where an observer stands after some events. */
  datatype Phase =
    | Outside                              // nothing emitted yet
    | InIteration                          // an iteration has begun
    | Spoke(text: bool)                    // thinking, or text, has been emitted
    | InCall(id: string, name: string)     // a call has started
    | Refused(id: string, name: string)    // its gate denied it
    | Asked(id: string, name: string)      // its gate asked the approver
    | Allowed(id: string, name: string)    // it may run
    | AfterCall                            // a call has its result
    | Over                                 // the run has ended
    | Wrong                                // no run goes this way

  datatype Observer = Observer(phase: Phase, n: nat)

  predicate IsGate(name: string) {
    name == "request_approval" || name == "request_human"
  }

  function Observe(o: Observer, e: Event): Observer {
    var wrong := Observer(Wrong, o.n);
    if e.Iteration? then
      if (o.phase == Outside || o.phase == AfterCall) && e.n == o.n + 1 then Observer(InIteration, e.n) else wrong
    else if e.n != o.n then wrong
    else
      var speaking := o.phase == InIteration || o.phase.Spoke?;
      match e
      case Thinking(_) => if o.phase == InIteration then o.(phase := Spoke(false)) else wrong
      case TextOut(_) => if o.phase == InIteration || o.phase == Spoke(false) then o.(phase := Spoke(true)) else wrong
      case CallStart(_, id, name) =>
        if speaking || o.phase == AfterCall then o.(phase := InCall(id, name)) else wrong
      case TrustDenied(_, name) =>
        if o.phase.InCall? && o.phase.name == name then o.(phase := Refused(o.phase.id, name)) else wrong
      case TrustAsked(_, name) =>
        if o.phase.InCall? && o.phase.name == name then o.(phase := Asked(o.phase.id, name)) else wrong
      case TrustAllowed(_, name) =>
        if (o.phase.InCall? || o.phase.Asked?) && o.phase.name == name then o.(phase := Allowed(o.phase.id, name))
        else wrong
      case CallResult(_, id, name, isError) =>
        if (o.phase.Allowed? || ((o.phase.Refused? || o.phase.Asked?) && isError))
           && o.phase.id == id && o.phase.name == name
        then o.(phase := AfterCall) else wrong
      case RunFailed(_) =>
        if o.phase == InIteration || o.phase == AfterCall || (o.phase.Allowed? && IsGate(o.phase.name))
        then o.(phase := Over) else wrong
      case RunCompleted(_) => if speaking || o.phase == AfterCall then o.(phase := Over) else wrong
      case Iteration(_) => wrong
  }

  function ObserveAll(o: Observer, events: seq<Event>): Observer {
    if events == [] then o
    else Observe(ObserveAll(o, events[..|events| - 1]), events[|events| - 1])
  }

  const BEGIN := Observer(Outside, 0)

  /** The events form one whole run. */
  predicate WellFormed(events: seq<Event>) {
    ObserveAll(BEGIN, events).phase == Over
  }

  lemma {:induction false} ObserveConcat(o: Observer, a: seq<Event>, b: seq<Event>)
    ensures ObserveAll(o, a + b) == ObserveAll(ObserveAll(o, a), b)
    decreases |b|
  {
    if b == [] {
      assert a + b == a;
    } else {
      assert (a + b)[..|a + b| - 1] == a + b[..|b| - 1];
      ObserveConcat(o, a, b[..|b| - 1]);
    }
  }

  lemma ObserveOne(o: Observer, e: Event)
    ensures ObserveAll(o, [e]) == Observe(o, e)
  {
    assert [e][..0] == [];
  }

  lemma ObserveThen(o: Observer, a: seq<Event>, e: Event)
    ensures ObserveAll(o, a + [e]) == Observe(ObserveAll(o, a), e)
  {
    ObserveConcat(o, a, [e]);
    ObserveOne(ObserveAll(o, a), e);
  }

  /** Where the gate and the permission to run leave the observer. */
  lemma GateObserved(env: Env, n: nat, i: nat, call: ToolCall)
    ensures var (gated, refusal) := Gate(env, n, i, call);
            var o := ObserveAll(Observer(InCall(call.id, call.name), n), gated);
            && o.n == n
            && (refusal.Some? ==> o.phase == Refused(call.id, call.name) || o.phase == Asked(call.id, call.name))
            && (refusal.None? ==> o.phase == InCall(call.id, call.name) || o.phase == Asked(call.id, call.name))
  {
    hide Compose;
    ObserveOne(Observer(InCall(call.id, call.name), n), TrustDenied(n, call.name));
    ObserveOne(Observer(InCall(call.id, call.name), n), TrustAsked(n, call.name));
  }

  /** The three shapes of a call's events. */
  lemma CallShape(env: Env, n: nat, i: nat, call: ToolCall)
    ensures var t := RunCall(env, n, i, call);
            var (gated, refusal) := Gate(env, n, i, call);
            var opening := [CallStart(n, call.id, call.name)] + gated;
            var allowed := opening + [TrustAllowed(n, call.name)];
            if refusal.Some? then
              t.stop.None? && !t.ran && t.isError && t.events == opening + [CallResult(n, call.id, call.name, true)]
            else if t.stop.Some? then
              IsGate(call.name) && t.events == allowed + [RunFailed(n)]
            else
              t.events == allowed + [CallResult(n, call.id, call.name, t.isError)]
  {
    hide Gate, Dispatched, ApprovalWait, HumanWait;
    var t := RunCall(env, n, i, call);
    var (ran, result, isError) := Dispatched(env, n, i, call);
    assert Gate(env, n, i, call).1.None? && t.stop.None? ==> t.isError == isError;
  }

  lemma CallObserved(env: Env, n: nat, i: nat, call: ToolCall, o: Observer)
    requires o.n == n && (o.phase == InIteration || o.phase.Spoke? || o.phase == AfterCall)
    ensures var t := RunCall(env, n, i, call);
            ObserveAll(o, t.events) == Observer(if t.stop.Some? then Over else AfterCall, n)
  {
    hide Gate, RunCall, ObserveAll;
    var t := RunCall(env, n, i, call);
    var (gated, refusal) := Gate(env, n, i, call);
    var start := CallStart(n, call.id, call.name);
    var opening := [start] + gated;
    ObserveOne(o, start);
    ObserveConcat(o, [start], gated);
    GateObserved(env, n, i, call);
    CallShape(env, n, i, call);
    if refusal.Some? {
      ObserveThen(o, opening, CallResult(n, call.id, call.name, true));
    } else {
      var allowed := opening + [TrustAllowed(n, call.name)];
      ObserveThen(o, opening, TrustAllowed(n, call.name));
      ObserveThen(o, allowed, if t.stop.Some? then RunFailed(n) else CallResult(n, call.id, call.name, t.isError));
    }
  }

  lemma {:induction false} CallsObserved(cfg: Config, env: Env, n: nat, calls: seq<ToolCall>, i: nat,
                                         history: seq<LoopDetection.Entry>, o: Observer)
    requires i <= |calls| && o.n == n
    requires o.phase == AfterCall || (i < |calls| && (o.phase == InIteration || o.phase.Spoke?))
    ensures var t := RunCalls(cfg, env, n, calls, i, history);
            ObserveAll(o, t.events) == Observer(if t.stop.Some? then Over else AfterCall, n)
    decreases |calls| - i
  {
    hide RunCall, LoopDetection.CheckStatus, ObserveAll;
    if i == |calls| {
      ObserveNothing(o);
    } else {
      var t := RunCall(env, n, i, calls[i]);
      CallObserved(env, n, i, calls[i], o);
      if t.stop.None? {
        var history' := history + [EntryOf(env, calls[i], t)];
        ObserveThen(o, t.events, RunFailed(n));
        CallsObserved(cfg, env, n, calls, i + 1, history', Observer(AfterCall, n));
        ObserveConcat(o, t.events, RunCalls(cfg, env, n, calls, i + 1, history').events);
      }
    }
  }

  lemma ObserveNothing(o: Observer)
    ensures ObserveAll(o, []) == o
  {
  }

  lemma SpokenObserved(n: nat, content: string, thinking: string, o: Observer)
    requires o == Observer(InIteration, n)
    ensures var p := ObserveAll(o, Spoken(n, content, thinking));
            p.n == n && (p.phase == InIteration || p.phase.Spoke?)
  {
    ObserveOne(o, Thinking(n));
    ObserveOne(o, TextOut(n));
    ObserveOne(Observer(Spoke(false), n), TextOut(n));
    ObserveConcat(o, [Thinking(n)], [TextOut(n)]);
    assert [] + [TextOut(n)] == [TextOut(n)] && [Thinking(n)] + [] == [Thinking(n)];
  }

  lemma OpeningObserved(n: nat, content: string, thinking: string, o: Observer)
    requires (o.phase == Outside || o.phase == AfterCall) && n == o.n + 1
    ensures var p := ObserveAll(o, [Iteration(n)] + Spoken(n, content, thinking));
            p.n == n && (p.phase == InIteration || p.phase.Spoke?)
  {
    ObserveOne(o, Iteration(n));
    ObserveConcat(o, [Iteration(n)], Spoken(n, content, thinking));
    SpokenObserved(n, content, thinking, Observer(InIteration, n));
  }

  lemma {:induction false} RunObserved(cfg: Config, env: Env, n: nat, history: seq<LoopDetection.Entry>, o: Observer)
    requires n <= IterationLimit(cfg.given) && o.n == n
    requires o.phase == AfterCall || (n == 0 && o.phase == Outside)
    ensures ObserveAll(o, RunFrom(cfg, env, n, history).events).phase == Over
    decreases IterationLimit(cfg.given) - n
  {
    hide RunCalls, ObserveAll, Spoken;
    if n == IterationLimit(cfg.given) {
      ObserveOne(o, RunCompleted(n));
    } else {
      var m := n + 1;
      match env.chat(m)
      case ChatError =>
        ObserveOne(o, Iteration(m));
        ObserveThen(o, [Iteration(m)], RunFailed(m));
        assert [Iteration(m)] + [RunFailed(m)] == [Iteration(m), RunFailed(m)];
      case Reply(content, thinking, calls) =>
        var opening := [Iteration(m)] + Spoken(m, content, thinking);
        OpeningObserved(m, content, thinking, o);
        ObserveThen(o, opening, RunCompleted(m));
        if calls != [] {
          var round := RunCalls(cfg, env, m, calls, 0, history);
          CallsObserved(cfg, env, m, calls, 0, history, ObserveAll(o, opening));
          ObserveConcat(o, opening, round.events);
          if round.stop.None? {
            ObserveThen(o, opening + round.events, RunCompleted(m));
            if !env.shouldStop(m) {
              RunObserved(cfg, env, m, round.history, Observer(AfterCall, m));
              ObserveConcat(o, opening + round.events, RunFrom(cfg, env, m, round.history).events);
            }
          }
        }
    }
  }

  /** Every run's events fit the grammar. */
  lemma EveryRunWellFormed(cfg: Config, env: Env)
    ensures WellFormed(RunFrom(cfg, env, 0, []).events)
  {
    RunObserved(cfg, env, 0, [], BEGIN);
  }

  // ---------------------------------------------------------------- what the grammar implies

  /** The observer after the first `i` events. */
  function At(events: seq<Event>, i: nat): Observer
    requires i <= |events|
  {
    ObserveAll(BEGIN, events[..i])
  }

  lemma AtNext(events: seq<Event>, i: nat)
    requires i < |events|
    ensures At(events, i + 1) == Observe(At(events, i), events[i])
  {
    assert events[..i + 1][..i] == events[..i];
  }

  /** In a whole run nothing goes wrong on the way. */
  lemma {:induction false} NeverWrong(events: seq<Event>, i: nat)
    requires WellFormed(events) && i <= |events|
    ensures At(events, i).phase != Wrong && (At(events, i).phase == Over ==> i == |events|)
    decreases |events| - i
  {
    if i == |events| {
      assert events[..i] == events;
    } else {
      NeverWrong(events, i + 1);
      AtNext(events, i);
    }
  }

  predicate Terminal(e: Event) {
    e.RunCompleted? || e.RunFailed?
  }

  /** Exactly one Completed or Failed event, and it is the last. */
  lemma OneTerminalLast(events: seq<Event>, i: nat)
    requires WellFormed(events) && i < |events|
    ensures Terminal(events[i]) <==> i == |events| - 1
  {
    hide ObserveAll;
    NeverWrong(events, i);
    NeverWrong(events, i + 1);
    AtNext(events, i);
    if i == |events| - 1 {
      assert events[..i + 1] == events;
    }
  }

  /** Between two positions no call starts. */
  predicate NoStart(events: seq<Event>, lo: nat, hi: nat)
    requires hi <= |events|
  {
    forall k :: lo <= k < hi ==> !events[k].CallStart?
  }

  /** Every start is followed by its own result before any other start, or by the failure of a gate
      tool that was allowed and ends the run; and once allowed, a call is not denied. */
  lemma StartIsAnswered(events: seq<Event>, i: nat) returns (j: nat)
    requires WellFormed(events) && i < |events| && events[i].CallStart?
    ensures i < j < |events| && NoStart(events, i + 1, j)
    ensures var s := events[i];
            || (events[j].CallResult? && events[j].n == s.n && events[j].id == s.id && events[j].name == s.name)
            || (events[j].RunFailed? && j == |events| - 1 && IsGate(s.name) && events[j - 1].TrustAllowed?)
    ensures forall k, l :: i < k < l < j && events[k].TrustAllowed? ==> !events[l].TrustDenied?
  {
    hide ObserveAll;
    AtNext(events, i);
    NeverWrong(events, i + 1);
    assert At(events, i + 1).phase.InCall?;
    j := i + 1;
    assert events[..|events|] == events;
    while !events[j].CallResult? && !events[j].RunFailed?
      invariant i < j < |events| && NoStart(events, i + 1, j)
      invariant At(events, j).n == events[i].n
      invariant var p := At(events, j).phase;
                && (p.InCall? || p.Refused? || p.Asked? || p.Allowed?)
                && p.id == events[i].id && p.name == events[i].name
                && (p.Allowed? ==> events[j - 1].TrustAllowed?)
                && (forall k :: i < k < j && events[k].TrustAllowed? ==> p.Allowed? && k == j - 1)
      decreases |events| - j
    {
      AtNext(events, j);
      NeverWrong(events, j + 1);
      j := j + 1;
    }
    AtNext(events, j);
    NeverWrong(events, j + 1);
  }

  // ---------------------------------------------------------------- which tools are run

  /** The call may run: its composed decision neither denies nor asks, or the approver approved it. */
  predicate Permitted(env: Env, n: nat, i: nat, call: ToolCall) {
    match Compose(env.trust(n, i), call)
    case Deny => false
    case Ask => env.approver.Some? && env.approver.value(n, i) == Record(Approved)
    case _ => true
  }

  /** `d` was run for a call the model made in that place, and was permitted. */
  predicate Justified(env: Env, d: Dispatch) {
    && env.chat(d.n).Reply? && d.index < |env.chat(d.n).calls| && env.chat(d.n).calls[d.index] == d.call
    && Permitted(env, d.n, d.index, d.call)
    && env.hasRegistry
  }

  predicate Earlier(a: Dispatch, b: Dispatch) {
    a.n < b.n || (a.n == b.n && a.index < b.index)
  }

  ghost predicate InOrder(ds: seq<Dispatch>) {
    forall i, j :: 0 <= i < j < |ds| ==> Earlier(ds[i], ds[j])
  }

  lemma RanOnlyIfPermitted(env: Env, n: nat, i: nat, call: ToolCall)
    ensures RunCall(env, n, i, call).ran ==> Permitted(env, n, i, call) && env.hasRegistry
  {
    hide Compose, ApprovalWait, HumanWait;
  }

  lemma {:induction false} CallsJustified(cfg: Config, env: Env, n: nat, calls: seq<ToolCall>, i: nat,
                                          history: seq<LoopDetection.Entry>)
    requires i <= |calls| && env.chat(n).Reply? && env.chat(n).calls == calls
    ensures var ds := RunCalls(cfg, env, n, calls, i, history).dispatches;
            InOrder(ds) && forall d :: d in ds ==> Justified(env, d) && d.n == n && d.index >= i
    decreases |calls| - i
  {
    hide RunCall, LoopDetection.CheckStatus, Permitted;
    if i < |calls| {
      var t := RunCall(env, n, i, calls[i]);
      RanOnlyIfPermitted(env, n, i, calls[i]);
      if t.stop.None? {
        var history' := history + [EntryOf(env, calls[i], t)];
        CallsJustified(cfg, env, n, calls, i + 1, history');
        OrderConcat(if t.ran then [Dispatch(n, i, calls[i])] else [],
                    RunCalls(cfg, env, n, calls, i + 1, history').dispatches);
      }
    } else {
    }
  }

  lemma OrderConcat(a: seq<Dispatch>, b: seq<Dispatch>)
    requires InOrder(a) && InOrder(b) && forall x, y :: x in a && y in b ==> Earlier(x, y)
    ensures InOrder(a + b)
    ensures forall d :: d in a + b <==> d in a || d in b
  {
    var c := a + b;
    forall i, j | 0 <= i < j < |c| ensures Earlier(c[i], c[j]) {
      if i < |a| <= j {
        assert c[i] in a && c[j] in b;
      }
    }
  }

  lemma {:induction false} RunJustified(cfg: Config, env: Env, n: nat, history: seq<LoopDetection.Entry>)
    requires n <= IterationLimit(cfg.given)
    ensures var ds := RunFrom(cfg, env, n, history).dispatches;
            InOrder(ds) && forall d :: d in ds ==> Justified(env, d) && d.n > n
    decreases IterationLimit(cfg.given) - n
  {
    hide RunCalls, Justified;
    if n < IterationLimit(cfg.given) && env.chat(n + 1).Reply? && env.chat(n + 1).calls != [] {
      var m, calls := n + 1, env.chat(n + 1).calls;
      var round := RunCalls(cfg, env, m, calls, 0, history);
      CallsJustified(cfg, env, m, calls, 0, history);
      OrderConcat([], round.dispatches);
      if round.stop.None? && !env.shouldStop(m) {
        RunJustified(cfg, env, m, round.history);
        OrderConcat(round.dispatches, RunFrom(cfg, env, m, round.history).dispatches);
      }
    } else {
    }
  }

  /** In every run, a tool is run at most once per call, in order, and only for a call that was permitted. */
  lemma EveryDispatchJustified(cfg: Config, env: Env)
    ensures var ds := RunFrom(cfg, env, 0, []).dispatches;
            InOrder(ds) && forall d :: d in ds ==> Justified(env, d)
  {
    RunJustified(cfg, env, 0, []);
  }

  // ---------------------------------------------------------------- with the policy engine

  /** `policyActionToExecutor`. */
  function ToExecutor(a: Action): Action {
    if a.Other? then Deny else a
  }

  /** `ev` answers as the policy bridge over engine `e`. */
  ghost predicate Bridges(ev: Evaluator, e: Engine) {
    && (forall tool :: ev.tool(tool) == ToExecutor(e.Evaluate(tool, "global")))
    && (forall cmd :: ev.command(cmd) == ToExecutor(e.EvaluateCommand(cmd)))
    && (forall path :: ev.path(path) == ToExecutor(e.EvaluatePath(path)))
  }

  lemma DeniedNameNotPermitted(env: Env, e: Engine, n: nat, i: nat, call: ToolCall)
    requires Bridges(env.trust(n, i), e) && e.Evaluate(call.name, "global") == Deny
    ensures !Permitted(env, n, i, call)
  {
    hide Engine.Evaluate;
  }

  /** A name that an explicit, global Deny rule matches is never run, whatever other rules, mode changes
      and grants come before the call, and whatever the approver says. */
  lemma DeniedNameNeverRuns(cfg: Config, env: Env, e: Engine, changes: (nat, nat) -> seq<Change>, r: Rule)
    requires forall n, i :: Bridges(env.trust(n, i), ApplyAll(e, changes(n, i)))
    requires r in e.explicit && r.action == Deny && MatchesScope(r, "global")
    ensures forall d :: d in RunFrom(cfg, env, 0, []).dispatches ==> !MatchToolPattern(r.pattern, d.call.name)
  {
    hide RunFrom, MatchToolPattern, Engine.Evaluate, ApplyAll, Bridges, Permitted;
    EveryDispatchJustified(cfg, env);
    forall d | d in RunFrom(cfg, env, 0, []).dispatches ensures !MatchToolPattern(r.pattern, d.call.name) {
      var now := ApplyAll(e, changes(d.n, d.index));
      assert Bridges(env.trust(d.n, d.index), now);
      if MatchToolPattern(r.pattern, d.call.name) {
        DenySurvives(e, changes(d.n, d.index), r, d.call.name, "global");
        DeniedNameNotPermitted(env, now, d.n, d.index, d.call);
      }
    }
  }

  /** For a shell call whose command a Deny rule matches, the composed decision is Deny exactly when the
      decision on the name is not Ask: the command is looked at only after the name was allowed. */
  lemma DeniedCommand(ev: Evaluator, e: Engine, r: Rule, call: ToolCall)
    requires Bridges(ev, e) && IsShell(call.name) && call.command.Some?
    requires r in e.Rules() && r.action == Deny && MatchCommandPattern(r.pattern, call.command.value)
    ensures Compose(ev, call) == Deny <==> e.Evaluate(call.name, "global") != Ask
  {
    DenyWins(e, r, "", "", call.command.value, "");
  }

  /** The same for a file call whose path a Deny rule matches. */
  lemma DeniedPath(ev: Evaluator, e: Engine, r: Rule, call: ToolCall)
    requires Bridges(ev, e) && IsFile(call.name) && call.path.Some?
    requires r in e.Rules() && r.action == Deny && e.paths.Match(r.pattern, call.path.value)
    ensures Compose(ev, call) == Deny <==> e.Evaluate(call.name, "global") != Ask
  {
    DenyWins(e, r, "", "", "", call.path.value);
  }

  /** A shell call that runs although a current Deny rule matches its command was asked about by name,
      and the approver approved it. */
  lemma DeniedCommandRunsOnlyIfApproved(cfg: Config, env: Env, engineAt: (nat, nat) -> Engine, d: Dispatch, r: Rule)
    requires Bridges(env.trust(d.n, d.index), engineAt(d.n, d.index))
    requires d in RunFrom(cfg, env, 0, []).dispatches && IsShell(d.call.name) && d.call.command.Some?
    requires r in engineAt(d.n, d.index).Rules() && r.action == Deny
    requires MatchCommandPattern(r.pattern, d.call.command.value)
    ensures engineAt(d.n, d.index).Evaluate(d.call.name, "global") == Ask
    ensures env.approver.Some? && env.approver.value(d.n, d.index) == Record(Approved)
  {
    EveryDispatchJustified(cfg, env);
    DeniedCommand(env.trust(d.n, d.index), engineAt(d.n, d.index), r, d.call);
  }

  lemma DeniedPathRunsOnlyIfApproved(cfg: Config, env: Env, engineAt: (nat, nat) -> Engine, d: Dispatch, r: Rule)
    requires Bridges(env.trust(d.n, d.index), engineAt(d.n, d.index))
    requires d in RunFrom(cfg, env, 0, []).dispatches && IsFile(d.call.name) && d.call.path.Some?
    requires r in engineAt(d.n, d.index).Rules() && r.action == Deny
    requires engineAt(d.n, d.index).paths.Match(r.pattern, d.call.path.value)
    ensures engineAt(d.n, d.index).Evaluate(d.call.name, "global") == Ask
    ensures env.approver.Some? && env.approver.value(d.n, d.index) == Record(Approved)
  {
    EveryDispatchJustified(cfg, env);
    DeniedPath(env.trust(d.n, d.index), engineAt(d.n, d.index), r, d.call);
  }

  /** The policy bridge over engine `e`. */
  function BridgeOver(e: Engine): (ev: Evaluator)
    ensures Bridges(ev, e)
  {
    Evaluator(tool => ToExecutor(e.Evaluate(tool, "global")), cmd => ToExecutor(e.EvaluateCommand(cmd)),
              path => ToExecutor(e.EvaluatePath(path)))
  }

  /** A model that makes one call and then stops, under engine `e` and an approver who approves. */
  function Approving(e: Engine, call: ToolCall): Env {
    Env(n => if n == 1 then Reply("", "", [call]) else Reply("done", "", []), (n, i) => BridgeOver(e),
        Some((n, i) => Record(Approved)), true, (n, i) => false, (n, i) => false, (n, i) => ("ok", false),
        result => None, (n, i) => ApprovalResolved(Pending, ""), result => None, (n, i) => HumanWaitError(""),
        text => text, text => text, n => false)
  }

  lemma AskedCallRuns(cfg: Config, e: Engine, call: ToolCall)
    requires e.Evaluate(call.name, "global") == Ask
    ensures Dispatch(1, 0, call) in RunFrom(cfg, Approving(e, call), 0, []).dispatches
  {
    hide Engine.Evaluate, Engine.EvaluateCommand, Engine.EvaluatePath, LoopDetection.CheckStatus, ApprovalWait, HumanWait;
    var env := Approving(e, call);
    assert Compose(env.trust(1, 0), call) == Ask;
    hide Compose;
    var t := RunCall(env, 1, 0, call);
    assert t.ran;
    hide RunCall;
    var round := RunCalls(cfg, env, 1, [call], 0, []);
    assert Dispatch(1, 0, call) in round.dispatches;
  }

  /** Only one way to name the home directory matters here: its glob for ssh keys. */
  const KEYS := Paths((pattern, path) => pattern == "/home/u/.ssh/*" && HasPrefix(path, "/home/u/.ssh/"), Some("/home/u"))

  const CAREFUL := Engine(CONSERVATIVE, [], "conservative", KEYS, None, None)

  const KEY_WRITE := ToolCall("1", "file_write", "", None, Some("/home/u/.ssh/config"))

  /** Patterns that cannot match a tool's name: those for commands and paths, other names, longer stems. */
  lemma OtherPattern(pattern: string, tool: string)
    requires pattern != "" && pattern != "*"
    requires HasPrefix(pattern, "bash:") || HasPrefix(pattern, "path:") || |pattern| > |tool| + 1
             || (pattern[|pattern| - 1] != '*' && pattern != tool)
    ensures !MatchToolPattern(pattern, tool)
  {
  }

  /** The decision when a rule asks about a name and all that do not ask are for something else. */
  lemma AllAsk(e: Engine, tool: string, r: Rule)
    requires r in e.Rules() && ToolRule(tool, "global")(r) && r.action == Ask
    requires forall k :: 0 <= k < |e.Rules()| && e.Rules()[k].action != Ask ==>
                           !MatchToolPattern(e.Rules()[k].pattern, tool)
    ensures e.Evaluate(tool, "global") == Ask
  {
    var matches := ToolRule(tool, "global");
    forall x | x in e.Rules() && matches(x) ensures x.action == Ask {
      var k :| 0 <= k < |e.Rules()| && e.Rules()[k] == x;
    }
    MatchedMembers(e.Rules(), matches, Ask);
    MatchedMembers(e.Rules(), matches, Allow);
    MatchedMembers(e.Rules(), matches, Deny);
    hide Matched, ToolRule;
  }

  lemma OnlyAskedPatterns(tool: string)
    requires tool == "file_write"
    ensures forall k :: 0 <= k < |CONSERVATIVE| && CONSERVATIVE[k].action != Ask ==>
                          !MatchToolPattern(CONSERVATIVE[k].pattern, tool)
  {
    assert |tool| == 10 && tool[5] == 'w' && "file_read"[5] == 'r' && tool[0] == 'f' && "send_message"[0] == 's';
    OtherPattern("file_read", tool);
    OtherPattern("blackboard_*", tool);
    OtherPattern("send_message", tool);
    OtherPattern("bash:git *", tool);
    OtherPattern("bash:go *", tool);
    OtherPattern("path:~/.ssh/*", tool);
    OtherPattern("path:~/.aws/*", tool);
    hide MatchToolPattern, HasPrefix;
  }

  lemma WritingIsAsked()
    ensures CAREFUL.Evaluate("file_write", "global") == Ask
  {
    var r := Rule("file_write", Ask, "");
    OnlyAskedPatterns("file_write");
    assert CAREFUL.Rules() == CONSERVATIVE && CONSERVATIVE[5] == r;
    assert r.pattern[..5][0] == 'f' && "path:"[0] == 'p' && "bash:"[0] == 'b';
    assert ToolRule("file_write", "global")(r);
    hide MatchToolPattern, ToolRule;
    AllAsk(CAREFUL, "file_write", r);
  }

  /** Under the conservative preset a write below ~/.ssh, which the preset denies, is asked about by name,
      and runs once approved. */
  lemma DeniedPathCanRun(cfg: Config)
    ensures Rule("path:~/.ssh/*", Deny, "") in CAREFUL.Rules()
    ensures KEYS.Match("path:~/.ssh/*", KEY_WRITE.path.value) && CAREFUL.EvaluatePath(KEY_WRITE.path.value) == Deny
    ensures Dispatch(1, 0, KEY_WRITE) in RunFrom(cfg, Approving(CAREFUL, KEY_WRITE), 0, []).dispatches
  {
    var r := Rule("path:~/.ssh/*", Deny, "");
    assert CAREFUL.Rules()[7] == r;
    assert r.pattern[5..] == "~/.ssh/*" && "/home/u" + r.pattern[5..][1..] == "/home/u/.ssh/*";
    assert HasPrefix(r.pattern, "path:") && HasPrefix(r.pattern[5..], "~/");
    assert KEYS.home.value + r.pattern[5..][1..] == "/home/u/.ssh/*";
    assert KEY_WRITE.path.value[..13] == "/home/u/.ssh/" && |"/home/u/.ssh/"| == 13;
    assert KEYS.glob("/home/u/.ssh/*", KEY_WRITE.path.value);
    assert KEYS.Match(r.pattern, KEY_WRITE.path.value);
    DenyWins(CAREFUL, r, "", "", "", KEY_WRITE.path.value);
    WritingIsAsked();
    hide RunFrom, Approving;
    AskedCallRuns(cfg, CAREFUL, KEY_WRITE);
  }

  const GUARDED := Engine(LOCKED, [Rule("bash:rm *", Deny, "")], "locked", KEYS, None, None)

  const REMOVE := ToolCall("1", "bash", "", Some("rm x"), None)

  lemma ShellIsAsked()
    ensures GUARDED.Evaluate("bash", "global") == Ask
  {
    OtherPattern("file_read", "bash");
    OtherPattern("blackboard_*", "bash");
    OtherPattern("bash:rm *", "bash");
    assert MatchToolPattern("*", "bash");
    hide MatchToolPattern;
    assert GUARDED.Rules() == LOCKED + GUARDED.explicit;
    assert GUARDED.Rules()[2] == Rule("*", Ask, "");
    AllAsk(GUARDED, "bash", Rule("*", Ask, ""));
  }

  /** Under the locked preset a command that an explicit rule denies is asked about by its tool's name,
      and runs once approved. */
  lemma DeniedCommandCanRun(cfg: Config)
    ensures Rule("bash:rm *", Deny, "") in GUARDED.explicit
    ensures MatchCommandPattern("bash:rm *", REMOVE.command.value)
    ensures GUARDED.EvaluateCommand(REMOVE.command.value) == Deny
    ensures Dispatch(1, 0, REMOVE) in RunFrom(cfg, Approving(GUARDED, REMOVE), 0, []).dispatches
  {
    var r := Rule("bash:rm *", Deny, "");
    assert GUARDED.Rules()[3] == r;
    CommandStar("rm", "rm x");
    assert "bash:" + "rm" + " *" == "bash:rm *" && HasPrefix("rm x", "rm" + " ");
    DenyWins(GUARDED, r, "", "", "rm x", "");
    ShellIsAsked();
    hide RunFrom, Approving;
    AskedCallRuns(cfg, GUARDED, REMOVE);
  }

  /** An evaluator's answer other than allow, deny or ask lets the call through; the bridge never gives one. */
  lemma UnrecognisedAnswerPermits(env: Env, n: nat, i: nat, call: ToolCall)
    requires Compose(env.trust(n, i), call).Other?
    ensures Permitted(env, n, i, call)
    ensures forall e :: !Bridges(env.trust(n, i), e)
  {
    var ev := env.trust(n, i);
    assert ev.tool(call.name).Other? || (call.command.Some? && ev.command(call.command.value).Other?);
  }

  // ---------------------------------------------------------------- how many calls a run makes

  lemma UnbrokenExtends(cfg: LoopDetection.Config, h: seq<LoopDetection.Entry>, e: LoopDetection.Entry)
    requires LoopDetection.Unbroken(cfg, h)
    requires LoopDetection.CheckStatus(cfg, h + [e]) != LoopDetection.Break
    ensures LoopDetection.Unbroken(cfg, h + [e])
  {
    hide LoopDetection.CheckStatus;
    forall k | 1 <= k <= |h| + 1 ensures LoopDetection.CheckStatus(cfg, (h + [e])[..k]) != LoopDetection.Break {
      if k <= |h| {
        assert (h + [e])[..k] == h[..k];
      } else {
        assert (h + [e])[..k] == h + [e];
      }
    }
  }

  /** The history is unbroken, up to its last entry if the loop detector ended the run. */
  ghost predicate HistoryKept(cfg: Config, t: Trace) {
    if t.stop == Some(LoopDetected)
    then t.history != [] && LoopDetection.Unbroken(cfg.loops, t.history[..|t.history| - 1])
    else LoopDetection.Unbroken(cfg.loops, t.history)
  }

  lemma {:induction false} CallsKeepHistory(cfg: Config, env: Env, n: nat, calls: seq<ToolCall>, i: nat,
                                            history: seq<LoopDetection.Entry>)
    requires i <= |calls| && LoopDetection.Unbroken(cfg.loops, history)
    ensures HistoryKept(cfg, RunCalls(cfg, env, n, calls, i, history))
    decreases |calls| - i
  {
    hide LoopDetection.CheckStatus, LoopDetection.Unbroken;
    if i < |calls| {
      var t := RunCall(env, n, i, calls[i]);
      GateStops(env, n, i, calls[i]);
      if t.stop.None? {
        var e := EntryOf(env, calls[i], t);
        assert (history + [e])[..|history|] == history;
        if LoopDetection.CheckStatus(cfg.loops, history + [e]) != LoopDetection.Break {
          UnbrokenExtends(cfg.loops, history, e);
          CallsKeepHistory(cfg, env, n, calls, i + 1, history + [e]);
        }
      }
    } else {
    }
  }

  lemma GateStops(env: Env, n: nat, i: nat, call: ToolCall)
    ensures RunCall(env, n, i, call).stop != Some(LoopDetected)
  {
    hide Gate, Dispatched, ApprovalWait, HumanWait;
  }

  lemma {:induction false} RunKeepsHistory(cfg: Config, env: Env, n: nat, history: seq<LoopDetection.Entry>)
    requires n <= IterationLimit(cfg.given) && LoopDetection.Unbroken(cfg.loops, history)
    ensures HistoryKept(cfg, RunFrom(cfg, env, n, history))
    decreases IterationLimit(cfg.given) - n
  {
    hide RunCalls, LoopDetection.Unbroken;
    if n < IterationLimit(cfg.given) && env.chat(n + 1).Reply? && env.chat(n + 1).calls != [] {
      var round := RunCalls(cfg, env, n + 1, env.chat(n + 1).calls, 0, history);
      CallsKeepHistory(cfg, env, n + 1, env.chat(n + 1).calls, 0, history);
      if round.stop.None? && !env.shouldStop(n + 1) {
        RunKeepsHistory(cfg, env, n + 1, round.history);
      }
    } else {
    }
  }

  /** Whatever the model asks for, the answered calls of a run number at most one more than its distinct
      failures and successes allow. */
  lemma CallsAreFew(cfg: Config, env: Env)
    requires LoopDetection.Effective(cfg.loops)
    ensures var h := RunFrom(cfg, env, 0, []).history;
            var keys := set e | e in h :: LoopDetection.KeyOf(e);
            var failures, successes := set k | k in keys && k.Failure?, set k | k in keys && k.Success?;
            |h| <= |failures| * (cfg.loops.maxErrors - 1) + |successes| * (cfg.loops.maxNoProgress - 1) + 1
  {
    hide LoopDetection.Unbroken, RunFrom;
    var t := RunFrom(cfg, env, 0, []);
    NothingUnbroken(cfg.loops);
    RunKeepsHistory(cfg, env, 0, []);
    var h := if t.stop == Some(LoopDetected) then t.history[..|t.history| - 1] else t.history;
    LoopDetection.UnbrokenIsShort(cfg.loops, h);
    var small, keys := set e | e in h :: LoopDetection.KeyOf(e), set e | e in t.history :: LoopDetection.KeyOf(e);
    var f0, s0 := set k | k in small && k.Failure?, set k | k in small && k.Success?;
    var f1, s1 := set k | k in keys && k.Failure?, set k | k in keys && k.Success?;
    assert forall e :: e in h ==> e in t.history;
    Smaller(f0, f1);
    Smaller(s0, s1);
    Scaled(|f0|, |f1|, cfg.loops.maxErrors - 1);
    Scaled(|s0|, |s1|, cfg.loops.maxNoProgress - 1);
  }

  lemma NothingUnbroken(cfg: LoopDetection.Config)
    ensures LoopDetection.Unbroken(cfg, [])
  {
  }

  lemma Smaller<T>(a: set<T>, b: set<T>)
    requires a <= b
    ensures |a| <= |b|
  {
    assert b == a + (b - a);
  }

  lemma Scaled(a: nat, b: nat, c: int)
    requires a <= b && c >= 0
    ensures a * c <= b * c
  {
  }

  /** A run ends with a status, within its iterations, and its last event says which kind of end it was. */
  lemma {:induction false} RunEnds(cfg: Config, env: Env, n: nat, history: seq<LoopDetection.Entry>)
    requires n <= IterationLimit(cfg.given)
    ensures var t := RunFrom(cfg, env, n, history);
            && t.stop.Some? && n <= t.n <= IterationLimit(cfg.given) && (n == 0 ==> t.n >= 1)
            && t.events != []
            && t.events[|t.events| - 1] == (if t.stop == Some(Completed) then RunCompleted(t.n) else RunFailed(t.n))
    decreases IterationLimit(cfg.given) - n
  {
    hide RunCalls, Spoken;
    if n < IterationLimit(cfg.given) && env.chat(n + 1).Reply? && env.chat(n + 1).calls != [] {
      var round := RunCalls(cfg, env, n + 1, env.chat(n + 1).calls, 0, history);
      CallsEnd(cfg, env, n + 1, env.chat(n + 1).calls, 0, history);
      if round.stop.None? && !env.shouldStop(n + 1) {
        RunEnds(cfg, env, n + 1, round.history);
      }
    } else {
    }
  }

  lemma {:induction false} CallsEnd(cfg: Config, env: Env, n: nat, calls: seq<ToolCall>, i: nat,
                                    history: seq<LoopDetection.Entry>)
    requires i <= |calls|
    ensures var t := RunCalls(cfg, env, n, calls, i, history);
            t.n == n && (t.stop.Some? ==>
              t.stop != Some(Completed) && t.events != [] && t.events[|t.events| - 1] == RunFailed(n))
    decreases |calls| - i
  {
    hide RunCall, LoopDetection.CheckStatus;
    if i < |calls| {
      var t := RunCall(env, n, i, calls[i]);
      CallShape(env, n, i, calls[i]);
      StopIsNotCompletion(env, n, i, calls[i]);
      if t.stop.None? {
        CallsEnd(cfg, env, n, calls, i + 1, history + [EntryOf(env, calls[i], t)]);
      }
    } else {
    }
  }

  lemma StopIsNotCompletion(env: Env, n: nat, i: nat, call: ToolCall)
    ensures RunCall(env, n, i, call).stop != Some(Completed)
    ensures RunCall(env, n, i, call).stop.Some? ==> Gate(env, n, i, call).1.None?
  {
    hide Gate, Dispatched, ApprovalWait, HumanWait;
  }
}

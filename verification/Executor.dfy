/** The executor's loop: the trust gate before every tool call and the events it emits
    (executor/executor.go, executor/policy_bridge.go). */
module Executor {
  import opened Chat
  import opened Text
  import opened Trust
  import LoopDetection

  // ---------------------------------------------------------------- what a run consists of

  /** A tool call; `command` and `path` are those arguments when they are strings. */
  datatype ToolCall = ToolCall(id: string, name: string, argsHash: string, command: Option<string>, path: Option<string>)

  datatype Reply = ChatError | Reply(content: string, thinking: string, calls: seq<ToolCall>)

  /** The trust evaluator as it answers at one moment. */
  datatype Evaluator = Evaluator(tool: string -> Action, command: string -> Action, path: string -> Action)

  datatype ApprovalStatus = Pending | Approved | Rejected | TimedOut

  /** What asking the approver leads to. */
  datatype ApproverAnswer = RequestError | WaitError | NoRecord | Record(status: ApprovalStatus)

  /** The end of waiting in a gate tool: go on with this output, or give up. */
  datatype Wait = GoOn(output: string) | GiveUp(output: string)

  /** What waiting for an approval, or for a human, comes back with. */
  datatype ApprovalOutcome = ApprovalWaitError(msg: string) | ApprovalResolved(status: ApprovalStatus, comment: string)

  datatype HumanStatus = StillPending | Answered | Cancelled | Expired

  datatype HumanOutcome = HumanWaitError(msg: string) | HumanResolved(status: HumanStatus, message: string)

  datatype Status = Completed | Failed | LoopDetected | ApprovalTimeout | RequestExpired

  /** The answers of everything around the loop; pairs are an iteration and a call index in it.
      `approvalId` and `blockingId` read the identifiers out of a gate tool's result. */
  datatype Env = Env(
    chat: nat -> Reply,
    trust: (nat, nat) -> Evaluator,
    approver: Option<(nat, nat) -> ApproverAnswer>,
    hasRegistry: bool,
    sandboxed: (nat, nat) -> bool,
    ensured: (nat, nat) -> bool,
    execute: (nat, nat) -> (string, bool),
    approvalId: string -> Option<string>,
    approvalOutcome: (nat, nat) -> ApprovalOutcome,
    blockingId: string -> Option<string>,
    humanOutcome: (nat, nat) -> HumanOutcome,
    redact: string -> string,
    hash: string -> string,
    shouldStop: nat -> bool)

  datatype Config = Config(given: int, loops: LoopDetection.Config)

  datatype Event =
    | Iteration(n: nat)
    | Thinking(n: nat)
    | TextOut(n: nat)
    | CallStart(n: nat, id: string, name: string)
    | TrustDenied(n: nat, name: string)
    | TrustAsked(n: nat, name: string)
    | TrustAllowed(n: nat, name: string)
    | CallResult(n: nat, id: string, name: string, isError: bool)
    | RunCompleted(n: nat)
    | RunFailed(n: nat)

  /** A tool was really run, for call `index` of iteration `n`. */
  datatype Dispatch = Dispatch(n: nat, index: nat, call: ToolCall)

  // ---------------------------------------------------------------- the gate

  predicate IsShell(name: string) {
    name == "shell_exec" || name == "bash"
  }

  predicate IsFile(name: string) {
    name == "file_read" || name == "file_write" || name == "file_list"
  }

  /** The decision on a call: on its name, then on its command or path if the name was allowed. */
  function Compose(ev: Evaluator, call: ToolCall): Action {
    var named := ev.tool(call.name);
    var shelled := if IsShell(call.name) && named == Allow && call.command.Some? then ev.command(call.command.value)
                   else named;
    if IsFile(call.name) && shelled == Allow && call.path.Some? then
      var located := ev.path(call.path.value);
      if located == Deny || located == Ask then located else shelled
    else shelled
  }

  /** The events of the gate, and the refusal if the call is blocked. */
  function Gate(env: Env, n: nat, i: nat, call: ToolCall): (seq<Event>, Option<string>) {
    match Compose(env.trust(n, i), call)
    case Deny => ([TrustDenied(n, call.name)], Some("denied by trust policy"))
    case Ask =>
      ([TrustAsked(n, call.name)],
       match env.approver
       case None => Some("no Approver is configured")
       case Some(ask) =>
         match ask(n, i)
         case RequestError => Some("could not create approval request")
         case Record(Approved) => None
         case _ => Some("not approved"))
    case _ => ([], None)
  }

  /** Whether the tool is run, its result, and whether that is an error. */
  function Dispatched(env: Env, n: nat, i: nat, call: ToolCall): (bool, string, bool) {
    if !env.hasRegistry then (false, "Tool execution not available", true)
    else if env.sandboxed(n, i) && IsShell(call.name) then
      if !env.ensured(n, i) then (false, "failed to ensure container", true)
      else if call.command.Some? then (true, env.execute(n, i).0, env.execute(n, i).1)
      else (false, "", false)
    else (true, env.execute(n, i).0, env.execute(n, i).1)
  }

  /** `handleApprovalWait`: a result without an identifier passes through; only a timeout gives up. */
  function ApprovalWait(env: Env, n: nat, i: nat, result: string): Wait {
    if env.approvalId(result).GetOr("") == "" then GoOn(result)
    else
      match env.approvalOutcome(n, i)
      case ApprovalWaitError(msg) => GoOn("Approval wait error: " + msg)
      case ApprovalResolved(Approved, comment) => GoOn("Approval granted: " + comment)
      case ApprovalResolved(Rejected, comment) => GoOn("Approval rejected: " + comment)
      case ApprovalResolved(TimedOut, _) => GiveUp("Approval request timed out")
      case ApprovalResolved(Pending, _) => GoOn(result)
  }

  /** `handleHumanRequestWait`: an empty output keeps the tool's own result. */
  function HumanWait(env: Env, n: nat, i: nat, result: string): Wait {
    if env.blockingId(result).GetOr("") == "" then GoOn("")
    else
      match env.humanOutcome(n, i)
      case HumanWaitError(msg) => GoOn("Human request wait error: " + msg)
      case HumanResolved(Answered, message) => GoOn("Human responded: " + message)
      case HumanResolved(Cancelled, message) => GoOn("Human cancelled: " + message)
      case HumanResolved(Expired, _) => GiveUp("Human request timed out")
      case HumanResolved(StillPending, _) => GoOn("")
  }

  datatype CallTrace = CallTrace(events: seq<Event>, ran: bool, result: string, isError: bool, stop: Option<Status>)

  /** One tool call, from its start event to its result or the end of the run. */
  function RunCall(env: Env, n: nat, i: nat, call: ToolCall): CallTrace {
    var (gated, refusal) := Gate(env, n, i, call);
    var opening := [CallStart(n, call.id, call.name)] + gated;
    match refusal
    case Some(text) => Finish(env, n, call, opening, false, text, true)
    case None =>
      var (ran, result, isError) := Dispatched(env, n, i, call);
      var allowed := opening + [TrustAllowed(n, call.name)];
      if call.name == "request_approval" && !isError then
        match ApprovalWait(env, n, i, result)
        case GoOn(output) => Finish(env, n, call, allowed, ran, output, false)
        case GiveUp(_) => CallTrace(allowed + [RunFailed(n)], ran, "", false, Some(ApprovalTimeout))
      else if call.name == "request_human" && !isError then
        match HumanWait(env, n, i, result)
        case GoOn(output) => Finish(env, n, call, allowed, ran, if output == "" then result else output, false)
        case GiveUp(_) => CallTrace(allowed + [RunFailed(n)], ran, "", false, Some(RequestExpired))
      else Finish(env, n, call, allowed, ran, result, isError)
  }

  function Finish(env: Env, n: nat, call: ToolCall, events: seq<Event>, ran: bool, result: string, isError: bool)
    : CallTrace
  {
    CallTrace(events + [CallResult(n, call.id, call.name, isError)], ran, env.redact(result), isError, None)
  }

  function EntryOf(env: Env, call: ToolCall, t: CallTrace): LoopDetection.Entry {
    LoopDetection.Entry(call.name, call.argsHash, env.hash(t.result), t.isError, if t.isError then t.result else "")
  }

  // ---------------------------------------------------------------- a run

  datatype Trace = Trace(
    events: seq<Event>, dispatches: seq<Dispatch>, history: seq<LoopDetection.Entry>, stop: Option<Status>, n: nat)

  function Before(events: seq<Event>, dispatches: seq<Dispatch>, later: Trace): Trace {
    later.(events := events + later.events, dispatches := dispatches + later.dispatches)
  }

  /** The calls of iteration `n` from index `i` on. */
  function RunCalls(cfg: Config, env: Env, n: nat, calls: seq<ToolCall>, i: nat, history: seq<LoopDetection.Entry>)
    : Trace
    requires i <= |calls|
    decreases |calls| - i
  {
    if i == |calls| then Trace([], [], history, None, n)
    else
      var t := RunCall(env, n, i, calls[i]);
      var dispatches := if t.ran then [Dispatch(n, i, calls[i])] else [];
      if t.stop.Some? then Trace(t.events, dispatches, history, t.stop, n)
      else
        var history' := history + [EntryOf(env, calls[i], t)];
        if LoopDetection.CheckStatus(cfg.loops, history') == LoopDetection.Break
        then Trace(t.events + [RunFailed(n)], dispatches, history', Some(LoopDetected), n)
        else Before(t.events, dispatches, RunCalls(cfg, env, n, calls, i + 1, history'))
  }

  function Spoken(n: nat, content: string, thinking: string): seq<Event> {
    (if thinking != "" then [Thinking(n)] else []) + (if content != "" then [TextOut(n)] else [])
  }

  /** The run after `n` iterations. */
  function RunFrom(cfg: Config, env: Env, n: nat, history: seq<LoopDetection.Entry>): Trace
    requires n <= IterationLimit(cfg.given)
    decreases IterationLimit(cfg.given) - n
  {
    if n == IterationLimit(cfg.given) then Trace([RunCompleted(n)], [], history, Some(Completed), n)
    else
      var m := n + 1;
      match env.chat(m)
      case ChatError => Trace([Iteration(m), RunFailed(m)], [], history, Some(Failed), m)
      case Reply(content, thinking, calls) =>
        var opening := [Iteration(m)] + Spoken(m, content, thinking);
        if calls == [] then Trace(opening + [RunCompleted(m)], [], history, Some(Completed), m)
        else
          var round := RunCalls(cfg, env, m, calls, 0, history);
          if round.stop.Some? then Before(opening, [], round)
          else if env.shouldStop(m)
          then Trace(opening + round.events + [RunCompleted(m)], round.dispatches, round.history, Some(Completed), m)
          else Before(opening + round.events, round.dispatches, RunFrom(cfg, env, m, round.history))
  }

  lemma BeforeBefore(e: seq<Event>, d: seq<Dispatch>, e': seq<Event>, d': seq<Dispatch>, t: Trace)
    ensures Before(e, d, Before(e', d', t)) == Before(e + e', d + d', t)
  {
    assert e + (e' + t.events) == (e + e') + t.events;
    assert d + (d' + t.dispatches) == (d + d') + t.dispatches;
  }

  // ---------------------------------------------------------------- the executor

  /** The trust switch: only these three actions are told apart; anything else falls through. */
  method EvaluateTrust(env: Env, n: nat, i: nat, call: ToolCall)
    returns (emitted: seq<Event>, refusal: Option<string>)
    ensures (emitted, refusal) == Gate(env, n, i, call)
  {
    emitted, refusal := [], None;
    var ev := env.trust(n, i);
    var trustAction := ev.tool(call.name);
    if IsShell(call.name) && trustAction == Allow {
      if call.command.Some? {
        trustAction := ev.command(call.command.value);
      }
    }
    if IsFile(call.name) && trustAction == Allow {
      if call.path.Some? {
        var pathAction := ev.path(call.path.value);
        if pathAction == Deny || (pathAction == Ask && trustAction != Deny) {
          trustAction := pathAction;
        }
      }
    }
    match trustAction
    case Deny =>
      emitted := [TrustDenied(n, call.name)];
      refusal := Some("denied by trust policy");
    case Ask =>
      emitted := [TrustAsked(n, call.name)];
      if env.approver.None? {
        refusal := Some("no Approver is configured");
      } else {
        var answer := env.approver.value(n, i);
        if answer.RequestError? {
          refusal := Some("could not create approval request");
        } else if answer != Record(Approved) {
          refusal := Some("not approved");
        }
      }
    case _ =>
  }

  method ExecuteCall(env: Env, n: nat, i: nat, call: ToolCall) returns (t: CallTrace)
    ensures t == RunCall(env, n, i, call)
  {
    hide ApprovalWait, HumanWait, Gate;
    var events := [CallStart(n, call.id, call.name)];
    var emitted, refusal := EvaluateTrust(env, n, i, call);
    events := events + emitted;
    var isError, ran, resultStr := refusal.Some?, false, refusal.GetOr("");
    if !isError {
      events := events + [TrustAllowed(n, call.name)];
      if env.hasRegistry {
        if env.sandboxed(n, i) && IsShell(call.name) {
          if !env.ensured(n, i) {
            resultStr, isError := "failed to ensure container", true;
          } else if call.command.Some? {
            ran := true;
            resultStr, isError := env.execute(n, i).0, env.execute(n, i).1;
          }
        } else {
          ran := true;
          resultStr, isError := env.execute(n, i).0, env.execute(n, i).1;
        }
      } else {
        resultStr, isError := "Tool execution not available", true;
      }
    }
    if call.name == "request_approval" && !isError {
      match ApprovalWait(env, n, i, resultStr)
      case GiveUp(_) =>
        return CallTrace(events + [RunFailed(n)], ran, "", false, Some(ApprovalTimeout));
      case GoOn(output) => resultStr := output;
    }
    if call.name == "request_human" && !isError {
      match HumanWait(env, n, i, resultStr)
      case GiveUp(_) =>
        return CallTrace(events + [RunFailed(n)], ran, "", false, Some(RequestExpired));
      case GoOn(output) =>
        if output != "" {
          resultStr := output;
        }
    }
    resultStr := env.redact(resultStr);
    events := events + [CallResult(n, call.id, call.name, isError)];
    t := CallTrace(events, ran, resultStr, isError, None);
  }

  /** What the run after `n` iterations does, with what came before in front of it. */
  lemma Unfold(cfg: Config, env: Env, n: nat, history: seq<LoopDetection.Entry>, e: seq<Event>, d: seq<Dispatch>)
    requires n < IterationLimit(cfg.given)
    ensures var m := n + 1;
            var all := Before(e, d, RunFrom(cfg, env, n, history));
            match env.chat(m)
            case ChatError => all == Trace(e + [Iteration(m)] + [RunFailed(m)], d, history, Some(Failed), m)
            case Reply(content, thinking, calls) =>
              var opening := e + [Iteration(m)] + Spoken(m, content, thinking);
              var round := Before(opening, d, RunCalls(cfg, env, m, calls, 0, history));
              if calls == [] then all == Trace(opening + [RunCompleted(m)], d, history, Some(Completed), m)
              else if round.stop.Some? then all == round
              else if env.shouldStop(m)
              then all == Trace(round.events + [RunCompleted(m)], round.dispatches, round.history, Some(Completed), m)
              else all == Before(round.events, round.dispatches, RunFrom(cfg, env, m, round.history))
  {
    hide RunCalls, Spoken;
    var m := n + 1;
    assert d + [] == d;
    match env.chat(m)
    case ChatError =>
      assert e + [Iteration(m), RunFailed(m)] == e + [Iteration(m)] + [RunFailed(m)];
    case Reply(content, thinking, calls) =>
      var opening := [Iteration(m)] + Spoken(m, content, thinking);
      var round := RunCalls(cfg, env, m, calls, 0, history);
      assert e + opening == e + [Iteration(m)] + Spoken(m, content, thinking);
      assert e + (opening + [RunCompleted(m)]) == (e + opening) + [RunCompleted(m)];
      assert e + (opening + round.events) == (e + opening) + round.events;
      assert e + (opening + round.events + [RunCompleted(m)]) == (e + opening + round.events) + [RunCompleted(m)];
      assert n + 1 <= IterationLimit(cfg.given);
      BeforeBefore(e, d, opening + round.events, round.dispatches, RunFrom(cfg, env, m, round.history));
  }

  lemma RunExhausted(cfg: Config, env: Env, history: seq<LoopDetection.Entry>, e: seq<Event>, d: seq<Dispatch>)
    ensures var n := IterationLimit(cfg.given);
            Before(e, d, RunFrom(cfg, env, n, history)) == Trace(e + [RunCompleted(n)], d, history, Some(Completed), n)
  {
    assert d + [] == d;
  }

  method Execute(cfg: Config, env: Env)
    returns (events: seq<Event>, dispatches: seq<Dispatch>, status: Status, iterations: nat,
             history: seq<LoopDetection.Entry>)
    requires LoopDetection.Effective(cfg.loops)
    ensures RunFrom(cfg, env, 0, []) == Trace(events, dispatches, history, Some(status), iterations)
  {
    hide RunCalls, RunFrom;
    events, dispatches := [], [];
    iterations := 0;
    var ld := new LoopDetection.LoopDetector(cfg.loops);
    ghost var whole := RunFrom(cfg, env, 0, []);
    assert whole == Before([], [], whole);
    while iterations < IterationLimit(cfg.given)
      invariant iterations <= IterationLimit(cfg.given)
      invariant ld.cfg == cfg.loops && fresh(ld)
      invariant whole == Before(events, dispatches, RunFrom(cfg, env, iterations, ld.history))
    {
      Unfold(cfg, env, iterations, ld.history, events, dispatches);
      iterations := iterations + 1;
      events := events + [Iteration(iterations)];
      var resp := env.chat(iterations);
      if resp.ChatError? {
        events := events + [RunFailed(iterations)];
        return events, dispatches, Failed, iterations, ld.history;
      }
      events := EmitSpoken(iterations, resp.content, resp.thinking, events);
      if |resp.calls| == 0 {
        events := events + [RunCompleted(iterations)];
        return events, dispatches, Completed, iterations, ld.history;
      }
      var stop;
      events, dispatches, stop := ExecuteCalls(cfg, env, iterations, resp.calls, ld, events, dispatches);
      if stop.Some? {
        return events, dispatches, stop.value, iterations, ld.history;
      }
      if env.shouldStop(iterations) {
        events := events + [RunCompleted(iterations)];
        return events, dispatches, Completed, iterations, ld.history;
      }
    }
    RunExhausted(cfg, env, ld.history, events, dispatches);
    events := events + [RunCompleted(iterations)];
    status := Completed;
    history := ld.history;
  }

  method EmitSpoken(n: nat, content: string, thinking: string, given: seq<Event>) returns (events: seq<Event>)
    ensures events == given + Spoken(n, content, thinking)
  {
    events := given;
    if thinking != "" {
      events := events + [Thinking(n)];
    }
    if content != "" {
      events := events + [TextOut(n)];
    }
  }

  method ExecuteCalls(cfg: Config, env: Env, n: nat, calls: seq<ToolCall>, ld: LoopDetection.LoopDetector,
                      given: seq<Event>, done: seq<Dispatch>)
    returns (events: seq<Event>, dispatches: seq<Dispatch>, stop: Option<Status>)
    requires ld.cfg == cfg.loops && LoopDetection.Effective(cfg.loops)
    modifies ld
    ensures Before(given, done, RunCalls(cfg, env, n, calls, 0, old(ld.history)))
         == Trace(events, dispatches, ld.history, stop, n)
  {
    hide RunCall, LoopDetection.CheckStatus;
    events, dispatches := given, done;
    ghost var whole := Before(given, done, RunCalls(cfg, env, n, calls, 0, ld.history));
    for i := 0 to |calls|
      invariant whole == Before(events, dispatches, RunCalls(cfg, env, n, calls, i, ld.history))
    {
      var t := ExecuteCall(env, n, i, calls[i]);
      ghost var before, did := events, dispatches;
      events := events + t.events;
      if t.ran {
        dispatches := dispatches + [Dispatch(n, i, calls[i])];
      }
      if t.stop.Some? {
        return events, dispatches, t.stop;
      }
      ld.Record(calls[i].name, calls[i].argsHash, t.result, env.hash(t.result), t.isError);
      var loopStatus := ld.Check();
      if loopStatus == LoopDetection.Break {
        assert before + (t.events + [RunFailed(n)]) == events + [RunFailed(n)];
        return events + [RunFailed(n)], dispatches, Some(LoopDetected);
      }
      BeforeBefore(before, did, t.events, if t.ran then [Dispatch(n, i, calls[i])] else [],
                   RunCalls(cfg, env, n, calls, i + 1, ld.history));
      assert did + [] == did;
    }
    stop := None;
  }
}

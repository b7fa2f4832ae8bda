/** The agent loop of the orchestrator step: correction turns, compaction and delta sending
    (orchestrator/step_agent_execute.go, orchestrator/context_manager.go). */
module AgentLoop {
  import opened Chat
  import opened Text
  import LoopDetection

  /** A reply, with the tool calls it asks for. */
  datatype Response = ChatError | Reply(content: string, toolCalls: seq<string>)

  /** What one tool call leads to: a gate that ends the run, or a result and what the loop
      detector said about it. */
  datatype CallOutcome =
    | GateExpired(status: Status)
    | Done(result: string, loop: LoopDetection.Status, warning: string)

  datatype Status = Completed | Failed | LoopDetected | ApprovalTimeout | RequestExpired

  /** The step's settings. `given` is the configured maximum, `contextLimit` the model's window and
      `threshold` the configured part of it at which the conversation is compacted, `stateful` whether
      the provider keeps the context itself. */
  datatype Config = Config(given: int, contextLimit: nat, threshold: real, stateful: bool, parallel: bool)

  /** Everything the loop calls out to: the reply to its `k`-th Chat call, the outcome of the `i`-th
      tool call of that reply, the prose test for a tool call, the redactor and the summariser. */
  datatype Env = Env(
    chat: nat -> Response,
    call: (nat, nat) -> CallOutcome,
    hasIntent: string -> bool,
    redact: Message -> Message,
    summarise: (nat, seq<Message>) -> Message)

  const EMPTY_NOTE := Plain(User, "[SYSTEM] Your response was empty.")
  const INTENT_NOTE := Plain(User, "[SYSTEM] You described a tool call but did not make it.")
  const SEQUENTIAL_NOTE := Plain(User, "[SYSTEM] Call ONE tool at a time.")

  // ---------------------------------------------------------------- the context manager

  function Tokens(messages: seq<Message>): nat {
    if messages == [] then 0
    else Tokens(messages[..|messages| - 1]) + 4 + |messages[|messages| - 1].content| / 4
  }

  method EstimateTokens(messages: seq<Message>) returns (total: nat)
    ensures total == Tokens(messages)
  {
    total := 0;
    for i := 0 to |messages|
      invariant total == Tokens(messages[..i])
    {
      assert messages[..i + 1][..i] == messages[..i];
      total := total + 4 + |messages[i].content| / 4;
    }
    assert messages[..|messages|] == messages;
  }

  function KeptTail(messages: seq<Message>): nat
    requires |messages| >= 5
  {
    if 4 >= |messages| - 1 then |messages| - 2 else 4
  }

  /** The system message, a summary of the middle, and the most recent messages. */
  function Compacted(env: Env, messages: seq<Message>, compactions: nat): (r: seq<Message>)
    requires |messages| >= 5
    ensures |r| == if |messages| == 5 then 5 else 6
    ensures r[0] == messages[0]
    ensures r[2..] == messages[|messages| - KeptTail(messages)..] && KeptTail(messages) >= 3
  {
    var tailStart := |messages| - KeptTail(messages);
    [messages[0], env.summarise(compactions + 1, messages[1..tailStart])] + messages[tailStart..]
  }

  const DEFAULT_THRESHOLD := 0.8

  /** The token count at which a conversation is compacted. */
  function CompactAt(contextLimit: nat, threshold: real): int {
    (contextLimit as real * (if threshold <= 0.0 then DEFAULT_THRESHOLD else threshold)).Floor
  }

  class ContextManager {
    const contextLimit: nat
    const threshold: real
    var compactions: nat

    function Limit(): int {
      (contextLimit as real * threshold).Floor
    }

    constructor (contextLimit: nat, given: real)
      ensures Limit() == CompactAt(contextLimit, given) && compactions == 0
    {
      threshold := if given <= 0.0 then DEFAULT_THRESHOLD else given;
      this.contextLimit, compactions := contextLimit, 0;
    }

    method NeedsCompaction(messages: seq<Message>) returns (needs: bool)
      ensures needs == (Tokens(messages) >= Limit())
    {
      hide Tokens;
      var estimated := EstimateTokens(messages);
      needs := estimated >= Limit();
    }

    method Compact(env: Env, messages: seq<Message>) returns (compacted: seq<Message>)
      modifies this
      ensures |messages| < 5 ==> compacted == messages && compactions == old(compactions)
      ensures |messages| >= 5 ==>
                compacted == Compacted(env, messages, old(compactions)) && compactions == old(compactions) + 1
    {
      if |messages| < 5 {
        return messages;
      }
      var keepTail := 4;
      if keepTail >= |messages| - 1 {
        keepTail := |messages| - 2;
      }
      var tailStart := |messages| - keepTail;
      var summary := env.summarise(compactions + 1, messages[1..tailStart]);
      compactions := compactions + 1;
      compacted := [messages[0], summary] + messages[tailStart..];
    }
  }

  // ---------------------------------------------------------------- one turn

  datatype Kind =
    | EmptyRetry
    | IntentRetry
    | SequentialRetry
    | Final
    | ChatFailed
    | Calls(calls: seq<string>)

  predicate Correction(kind: Kind) {
    kind.EmptyRetry? || kind.IntentRetry? || kind.SequentialRetry?
  }

  /** What the loop makes of a reply, given how often it has already corrected the model. */
  function KindOf(cfg: Config, env: Env, resp: Response, empties: nat, intents: nat, sequentials: nat): Kind {
    match resp
    case ChatError => ChatFailed
    case Reply(content, calls) =>
      if calls == [] then
        if TrimSpace(content) == "" && empties < 2 then EmptyRetry
        else if env.hasIntent(TrimSpace(content)) && intents < 2 then IntentRetry
        else Final
      else if !cfg.parallel && |calls| > 1 then
        if sequentials < 5 then SequentialRetry else Calls(calls[..1])
      else Calls(calls)
  }

  /** The result of call `id`, as the model sees it. */
  function ToolMessage(result: string, id: string): Message {
    Message(Tool, result, id, [])
  }

  /** The messages that the calls of reply `k` from index `i` on append, and the status if one ends the
      run. */
  function CallMessages(env: Env, k: nat, calls: seq<string>, i: nat): (seq<Message>, Option<Status>)
    requires i <= |calls|
    decreases |calls| - i
  {
    if i == |calls| then ([], None)
    else
      match env.call(k, i)
      case GateExpired(status) => ([], Some(status))
      case Done(result, OK, _) =>
        var (later, stop) := CallMessages(env, k, calls, i + 1);
        ([ToolMessage(result, calls[i])] + later, stop)
      case Done(result, Warning, warning) =>
        var (later, stop) := CallMessages(env, k, calls, i + 1);
        ([ToolMessage(result, calls[i]), Plain(User, warning)] + later, stop)
      case Done(result, Break, _) => ([ToolMessage(result, calls[i])], Some(LoopDetected))
  }

  /** What turn `k` appends to the conversation. */
  function Appended(env: Env, k: nat, kind: Kind): seq<Message> {
    match env.chat(k)
    case ChatError => []
    case Reply(content, calls) =>
      match kind
      case EmptyRetry => [Plain(Assistant, ""), EMPTY_NOTE]
      case IntentRetry => [Plain(Assistant, TrimSpace(content)), INTENT_NOTE]
      case SequentialRetry => [Message(Assistant, content, "", calls), SEQUENTIAL_NOTE]
      case Final => []
      case ChatFailed => []
      case Calls(taken) => [Message(Assistant, content, "", taken)] + CallMessages(env, k, taken, 0).0
  }

  /** The status turn `k` ends the run with, if it does. */
  function EndsWith(env: Env, k: nat, kind: Kind): Option<Status> {
    match kind
    case Final => Some(Completed)
    case ChatFailed => Some(Failed)
    case Calls(taken) => CallMessages(env, k, taken, 0).1
    case _ => None
  }

  function RedactAll(env: Env, messages: seq<Message>): (r: seq<Message>)
    ensures |r| == |messages|
    ensures forall i :: 0 <= i < |r| ==> r[i] == env.redact(messages[i])
  {
    seq(|messages|, i requires 0 <= i < |messages| => env.redact(messages[i]))
  }

  // ---------------------------------------------------------------- a run

  /** One Chat call: the whole redacted conversation when it was made, what was sent of it, whether
      the context had just been reset, and what became of the reply. */
  datatype Turn = Turn(history: seq<Message>, sent: seq<Message>, reset: bool, compactions: nat, kind: Kind)

  function Count(log: seq<Turn>, kind: Kind): nat {
    if log == [] then 0
    else Count(log[..|log| - 1], kind) + (if log[|log| - 1].kind == kind then 1 else 0)
  }

  /** Turns that count towards the maximum. */
  function Iterations(log: seq<Turn>): nat {
    if log == [] then 0
    else Iterations(log[..|log| - 1]) + (if Correction(log[|log| - 1].kind) then 0 else 1)
  }

  function Conversation(env: Env, start: seq<Message>, log: seq<Turn>): seq<Message> {
    if log == [] then start
    else log[|log| - 1].history + Appended(env, |log| - 1, log[|log| - 1].kind)
  }

  function Compactions(log: seq<Turn>): nat {
    if log == [] then 0 else log[|log| - 1].compactions
  }

  function LastSent(log: seq<Turn>): nat {
    if log == [] then 0 else |log[|log| - 1].history|
  }

  /** `turn` may follow the turns of `log`. */
  predicate Follows(cfg: Config, env: Env, start: seq<Message>, log: seq<Turn>, turn: Turn) {
    var before, c := Conversation(env, start, log), Compactions(log);
    && turn.reset == (Tokens(before) >= CompactAt(cfg.contextLimit, cfg.threshold))
    && turn.history == RedactAll(env, if turn.reset && |before| >= 5 then Compacted(env, before, c) else before)
    && turn.compactions == (if turn.reset && |before| >= 5 then c + 1 else c)
    && turn.sent == (if cfg.stateful && !turn.reset then turn.history[LastSent(log)..] else turn.history)
    && turn.kind == KindOf(cfg, env, env.chat(|log|), Count(log, EmptyRetry), Count(log, IntentRetry),
                           Count(log, SequentialRetry))
    && Iterations(log) < IterationLimit(cfg.given)
    && (log != [] ==> EndsWith(env, |log| - 1, log[|log| - 1].kind).None?)
  }

  /** The turns of `log` are the first turns of a run. */
  predicate Run(cfg: Config, env: Env, start: seq<Message>, log: seq<Turn>) {
    log == []
    || (Run(cfg, env, start, log[..|log| - 1]) && Follows(cfg, env, start, log[..|log| - 1], log[|log| - 1]))
  }

  /** A run that has ended: a turn ended it, or the maximum was reached. */
  predicate Ended(cfg: Config, env: Env, start: seq<Message>, log: seq<Turn>, status: Status) {
    && Run(cfg, env, start, log) && log != []
    && match EndsWith(env, |log| - 1, log[|log| - 1].kind)
       case Some(s) => status == s
       case None => status == Completed && Iterations(log) == IterationLimit(cfg.given)
  }

  /** Compacts the conversation if it is too long, redacts it and cuts off what was already sent. */
  method PrepareChat(cfg: Config, env: Env, cm: ContextManager, given: seq<Message>, lastSentIndex: nat)
    returns (messages: seq<Message>, chatMessages: seq<Message>, needs: bool)
    requires lastSentIndex <= |given|
    modifies cm
    ensures needs == (Tokens(given) >= cm.Limit())
    ensures var shrinks := needs && |given| >= 5;
            && messages == RedactAll(env, if shrinks then Compacted(env, given, old(cm.compactions)) else given)
            && cm.compactions == old(cm.compactions) + (if shrinks then 1 else 0)
    ensures needs || !cfg.stateful ==> chatMessages == messages
    ensures !needs && cfg.stateful ==> lastSentIndex <= |messages| && chatMessages == messages[lastSentIndex..]
  {
    messages := given;
    var from := lastSentIndex;
    needs := cm.NeedsCompaction(messages);
    if needs {
      messages := cm.Compact(env, messages);
      if cfg.stateful {
        from := 0;
      }
    }
    messages := RedactAll(env, messages);
    chatMessages := messages;
    if cfg.stateful {
      chatMessages := messages[from..];
    }
  }

  /** The counter goes on beyond the five rejected turns. */
  function Capped(seqRetries: nat): nat {
    if seqRetries > 5 then 5 else seqRetries
  }

  /** What is done with reply `k`: correct the model, finish, or process its calls. */
  method HandleReply(cfg: Config, env: Env, k: nat, given: seq<Message>, empties: nat, intents: nat, sequentials: nat)
    returns (messages: seq<Message>, emptyRetries: nat, intentRetries: nat, seqRetries: nat,
             corrected: bool, stop: Option<Status>)
    ensures var kind := KindOf(cfg, env, env.chat(k), empties, intents, Capped(sequentials));
            && messages == given + Appended(env, k, kind)
            && stop == EndsWith(env, k, kind)
            && corrected == Correction(kind) && (corrected ==> stop.None?)
            && emptyRetries == empties + (if kind.EmptyRetry? then 1 else 0)
            && intentRetries == intents + (if kind.IntentRetry? then 1 else 0)
            && Capped(seqRetries) == Capped(sequentials) + (if kind.SequentialRetry? then 1 else 0)
    ensures (empties <= 2 ==> emptyRetries <= 2) && (intents <= 2 ==> intentRetries <= 2)
  {
    hide TrimSpace, CallMessages;
    messages, corrected, stop := given, false, None;
    emptyRetries, intentRetries, seqRetries := empties, intents, sequentials;
    var resp := env.chat(k);
    if resp.ChatError? {
      stop := Some(Failed);
      return;
    }
    if resp.toolCalls == [] {
      var content := TrimSpace(resp.content);
      if content == "" && emptyRetries < 2 {
        messages := messages + [Plain(Assistant, ""), EMPTY_NOTE];
        emptyRetries, corrected := emptyRetries + 1, true;
        return;
      }
      if env.hasIntent(content) && intentRetries < 2 {
        messages := messages + [Plain(Assistant, content), INTENT_NOTE];
        intentRetries, corrected := intentRetries + 1, true;
        return;
      }
      stop := Some(Completed);
      return;
    }
    if !cfg.parallel && |resp.toolCalls| > 1 {
      seqRetries := seqRetries + 1;
      if seqRetries <= 5 {
        messages := messages + [Message(Assistant, resp.content, "", resp.toolCalls), SEQUENTIAL_NOTE];
        corrected := true;
        return;
      }
    }
    var toProcess := resp.toolCalls;
    if !cfg.parallel && |toProcess| > 1 {
      toProcess := toProcess[..1];
    }
    messages := messages + [Message(Assistant, resp.content, "", toProcess)];
    messages, stop := ProcessCalls(env, k, toProcess, messages);
  }

  /** What each Chat call of a run was sent. */
  function Slices(log: seq<Turn>): seq<seq<Message>> {
    if log == [] then [] else Slices(log[..|log| - 1]) + [log[|log| - 1].sent]
  }

  /** The loop; `sent` lists what it passes to Chat, call by call, `messages` is the conversation it
      ends with. */
  method Execute(cfg: Config, env: Env, system: Message, task: Message, context: Option<Message>)
    returns (status: Status, iterations: int, sent: seq<seq<Message>>, messages: seq<Message>)
    ensures var start := Opening(system, task, context);
      exists log :: && Ended(cfg, env, start, log, status) && iterations == Iterations(log)
                    && sent == Slices(log) && messages == Conversation(env, start, log)
  {
    hide Tokens, CompactAt, Compacted, KindOf, Appended, EndsWith, RedactAll, Count, Iterations, Conversation,
         Compactions, LastSent, Follows, Run, Ended, Slices, TrimSpace, CallMessages, ContextManager.Limit;
    var maxIterations := IterationLimit(cfg.given);
    messages := [system, task];
    if context.Some? {
      messages := messages + [context.value];
    }
    ghost var start := Opening(system, task, context);
    assert messages == start;
    ghost var log := [];
    sent := [];
    Begin(cfg, env, start);
    var turns := 0;
    var iterCount := 0;
    var lastSentIndex: nat := 0;
    var emptyRetries, intentRetries, seqRetries := 0, 0, 0;
    var cm := new ContextManager(cfg.contextLimit, cfg.threshold);
    status := Completed;
    while iterCount < maxIterations
      invariant cm.Limit() == CompactAt(cfg.contextLimit, cfg.threshold) && fresh(cm)
      invariant turns == |log| && Run(cfg, env, start, log) && sent == Slices(log)
      invariant iterCount == Iterations(log) && cm.compactions == Compactions(log)
      invariant messages == Conversation(env, start, log)
      invariant lastSentIndex == if cfg.stateful then LastSent(log) else 0
      invariant LastSent(log) <= |messages|
      invariant emptyRetries == Count(log, EmptyRetry) <= 2 && intentRetries == Count(log, IntentRetry) <= 2
      invariant Capped(seqRetries) == Count(log, SequentialRetry)
      invariant log != [] ==> EndsWith(env, |log| - 1, log[|log| - 1].kind).None?
      invariant log == [] ==> iterCount < maxIterations
      invariant iterCount <= maxIterations
      decreases maxIterations - iterCount + (2 - emptyRetries) + (2 - intentRetries) + (5 - Capped(seqRetries))
    {
      ghost var before, was := messages, log;
      iterCount := iterCount + 1;
      var chatMessages, needs;
      messages, chatMessages, needs := PrepareChat(cfg, env, cm, messages, lastSentIndex);
      var k := turns;
      if cfg.stateful {
        lastSentIndex := |messages|;
      }
      sent := sent + [chatMessages];
      turns := turns + 1;
      ghost var kind := KindOf(cfg, env, env.chat(k), emptyRetries, intentRetries, Capped(seqRetries));
      ghost var turn := Turn(messages, chatMessages, needs, cm.compactions, kind);
      log := was + [turn];
      AddTurn(cfg, env, start, was, turn, before);
      assert log[|log| - 1] == turn;
      var corrected, stop;
      messages, emptyRetries, intentRetries, seqRetries, corrected, stop :=
        HandleReply(cfg, env, k, messages, emptyRetries, intentRetries, seqRetries);
      if stop.Some? {
        End(cfg, env, start, log, stop);
        return stop.value, iterCount, sent, messages;
      }
      if corrected {
        iterCount := iterCount - 1;
      }
    }
    End(cfg, env, start, log, None);
    iterations := iterCount;
  }

  method ProcessCalls(env: Env, k: nat, calls: seq<string>, given: seq<Message>)
    returns (messages: seq<Message>, stop: Option<Status>)
    ensures var (appended, ends) := CallMessages(env, k, calls, 0);
            messages == given + appended && stop == ends
  {
    messages := given;
    ghost var all := CallMessages(env, k, calls, 0);
    for i := 0 to |calls|
      invariant var (later, ends) := CallMessages(env, k, calls, i);
                given + all.0 == messages + later && all.1 == ends
    {
      match env.call(k, i)
      case GateExpired(status) =>
        return messages, Some(status);
      case Done(result, loop, warning) =>
        messages := messages + [Message(Tool, result, calls[i], [])];
        match loop {
          case OK =>
          case Warning => messages := messages + [Plain(User, warning)];
          case Break => return messages, Some(LoopDetected);
        }
    }
    stop := None;
  }

  function Opening(system: Message, task: Message, context: Option<Message>): seq<Message> {
    [system, task] + (if context.Some? then [context.value] else [])
  }

  lemma Begin(cfg: Config, env: Env, start: seq<Message>)
    ensures Run(cfg, env, start, []) && Conversation(env, start, []) == start && Slices([]) == []
    ensures Iterations([]) == 0 && LastSent([]) == 0 && Compactions([]) == 0
    ensures forall kind :: Count([], kind) == 0
  {
  }

  lemma AddTurn(cfg: Config, env: Env, start: seq<Message>, log: seq<Turn>, turn: Turn, before: seq<Message>)
    requires Run(cfg, env, start, log) && before == Conversation(env, start, log) && LastSent(log) <= |before|
    requires turn.reset == (Tokens(before) >= CompactAt(cfg.contextLimit, cfg.threshold))
    requires var shrinks := turn.reset && |before| >= 5;
             && turn.history == RedactAll(env, if shrinks then Compacted(env, before, Compactions(log)) else before)
             && turn.compactions == Compactions(log) + (if shrinks then 1 else 0)
    requires turn.reset || !cfg.stateful ==> turn.sent == turn.history
    requires !turn.reset && cfg.stateful ==> turn.sent == turn.history[LastSent(log)..]
    requires turn.kind == KindOf(cfg, env, env.chat(|log|), Count(log, EmptyRetry), Count(log, IntentRetry),
                                 Count(log, SequentialRetry))
    requires Iterations(log) < IterationLimit(cfg.given)
    requires log != [] ==> EndsWith(env, |log| - 1, log[|log| - 1].kind).None?
    ensures var grown := log + [turn];
            && Run(cfg, env, start, grown) && Slices(grown) == Slices(log) + [turn.sent]
            && Iterations(grown) == Iterations(log) + (if Correction(turn.kind) then 0 else 1)
            && LastSent(grown) == |turn.history| && Compactions(grown) == turn.compactions
            && Count(grown, EmptyRetry) == Count(log, EmptyRetry) + (if turn.kind.EmptyRetry? then 1 else 0)
            && Count(grown, IntentRetry) == Count(log, IntentRetry) + (if turn.kind.IntentRetry? then 1 else 0)
            && Count(grown, SequentialRetry)
               == Count(log, SequentialRetry) + (if turn.kind.SequentialRetry? then 1 else 0)
            && Conversation(env, start, grown) == turn.history + Appended(env, |log|, turn.kind)
  {
    hide Run, Follows, Slices, Iterations, LastSent, Compactions, Count, Conversation, Correction;
    MayFollow(cfg, env, start, log, turn, before);
    Grown(cfg, env, start, log, turn);
  }

  lemma MayFollow(cfg: Config, env: Env, start: seq<Message>, log: seq<Turn>, turn: Turn, before: seq<Message>)
    requires before == Conversation(env, start, log) && LastSent(log) <= |before|
    requires turn.reset == (Tokens(before) >= CompactAt(cfg.contextLimit, cfg.threshold))
    requires var shrinks := turn.reset && |before| >= 5;
             && turn.history == RedactAll(env, if shrinks then Compacted(env, before, Compactions(log)) else before)
             && turn.compactions == Compactions(log) + (if shrinks then 1 else 0)
    requires turn.reset || !cfg.stateful ==> turn.sent == turn.history
    requires !turn.reset && cfg.stateful ==> turn.sent == turn.history[LastSent(log)..]
    requires turn.kind == KindOf(cfg, env, env.chat(|log|), Count(log, EmptyRetry), Count(log, IntentRetry),
                                 Count(log, SequentialRetry))
    requires Iterations(log) < IterationLimit(cfg.given)
    requires log != [] ==> EndsWith(env, |log| - 1, log[|log| - 1].kind).None?
    ensures Follows(cfg, env, start, log, turn)
  {
    hide Tokens, CompactAt, Compacted, KindOf, EndsWith, RedactAll, IterationLimit, Iterations, Count, Conversation;
  }

  lemma Grown(cfg: Config, env: Env, start: seq<Message>, log: seq<Turn>, turn: Turn)
    requires Run(cfg, env, start, log) && Follows(cfg, env, start, log, turn)
    ensures var grown := log + [turn];
            && Run(cfg, env, start, grown) && Slices(grown) == Slices(log) + [turn.sent]
            && Iterations(grown) == Iterations(log) + (if Correction(turn.kind) then 0 else 1)
            && LastSent(grown) == |turn.history| && Compactions(grown) == turn.compactions
            && Conversation(env, start, grown) == turn.history + Appended(env, |log|, turn.kind)
            && forall kind :: Count(grown, kind) == Count(log, kind) + (if turn.kind == kind then 1 else 0)
  {
    hide Follows, Appended, Correction;
    assert (log + [turn])[..|log|] == log;
  }

  lemma End(cfg: Config, env: Env, start: seq<Message>, log: seq<Turn>, stop: Option<Status>)
    requires Run(cfg, env, start, log) && log != []
    requires EndsWith(env, |log| - 1, log[|log| - 1].kind) == stop
    requires stop.None? ==> Iterations(log) == IterationLimit(cfg.given)
    ensures Ended(cfg, env, start, log, if stop.Some? then stop.value else Completed)
  {
  }

  // ---------------------------------------------------------------- how many Chat calls

  lemma CorrectsInBudget(cfg: Config, env: Env, start: seq<Message>, log: seq<Turn>, turn: Turn)
    requires Follows(cfg, env, start, log, turn)
    ensures turn.kind == EmptyRetry ==> Count(log, EmptyRetry) < 2
    ensures turn.kind == IntentRetry ==> Count(log, IntentRetry) < 2
    ensures turn.kind == SequentialRetry ==> Count(log, SequentialRetry) < 5
    ensures Correction(turn.kind) == (turn.kind in {EmptyRetry, IntentRetry, SequentialRetry})
    ensures Iterations(log) < IterationLimit(cfg.given)
  {
    hide Tokens, CompactAt, Compacted, RedactAll, Count, Iterations, Conversation, EndsWith, TrimSpace, IterationLimit;
  }

  lemma {:induction false} BudgetKept(cfg: Config, env: Env, start: seq<Message>, log: seq<Turn>)
    requires Run(cfg, env, start, log)
    ensures Count(log, EmptyRetry) <= 2 && Count(log, IntentRetry) <= 2 && Count(log, SequentialRetry) <= 5
    ensures |log| == Iterations(log)
                   + Count(log, EmptyRetry) + Count(log, IntentRetry) + Count(log, SequentialRetry)
    ensures Iterations(log) <= IterationLimit(cfg.given)
    decreases |log|
  {
    hide Follows, Correction, IterationLimit;
    if log == [] {
    } else {
      var before, turn := log[..|log| - 1], log[|log| - 1];
      BudgetKept(cfg, env, start, before);
      CorrectsInBudget(cfg, env, start, before, turn);
    }
  }

  /** Whatever the model answers, a run makes at most nine Chat calls beyond the maximum, each of them
      a correction turn, and reports between one and the maximum. */
  lemma ChatBudget(cfg: Config, env: Env, start: seq<Message>, log: seq<Turn>, status: Status)
    requires Ended(cfg, env, start, log, status)
    ensures var limit := if cfg.given > 0 then cfg.given else 10;
      |log| <= limit + 9 && 1 <= Iterations(log) <= limit
    ensures !Correction(log[|log| - 1].kind)
  {
    BudgetKept(cfg, env, start, log);
  }

  lemma FollowsUnique(cfg: Config, env: Env, start: seq<Message>, log: seq<Turn>, x: Turn, y: Turn)
    requires Follows(cfg, env, start, log, x) && Follows(cfg, env, start, log, y)
    ensures x == y
  {
  }

  /** The conversation, the replies and the outcomes leave no choice in how a run goes. */
  lemma {:induction false} RunUnique(cfg: Config, env: Env, start: seq<Message>, a: seq<Turn>, b: seq<Turn>)
    requires Run(cfg, env, start, a) && Run(cfg, env, start, b) && |a| <= |b|
    ensures a == b[..|a|]
    ensures |a| < |b| ==> Follows(cfg, env, start, a, b[|a|])
    decreases |b|
  {
    hide Follows;
    if |a| < |b| {
      assert b[..|b| - 1][..|a|] == b[..|a|];
      RunUnique(cfg, env, start, a, b[..|b| - 1]);
      if |a| == |b| - 1 {
        assert b[..|b| - 1] == a;
      }
    } else if a == [] {
      assert b == [];
    } else {
      var front := a[..|a| - 1];
      RunUnique(cfg, env, start, front, b[..|b| - 1]);
      assert front == b[..|b| - 1][..|front|] == b[..|b| - 1];
      FollowsUnique(cfg, env, start, front, a[|a| - 1], b[|b| - 1]);
      assert a == front + [a[|a| - 1]] && b == front + [b[|b| - 1]];
    }
  }

  /** An ended run has no following turn. */
  lemma EndedIsOver(cfg: Config, env: Env, start: seq<Message>, log: seq<Turn>, status: Status, turn: Turn)
    requires Ended(cfg, env, start, log, status)
    ensures !Follows(cfg, env, start, log, turn)
  {
    hide Run, Tokens, CompactAt, Compacted, RedactAll, Count, Iterations, Conversation, EndsWith, KindOf, LastSent,
         Compactions, IterationLimit;
  }

  lemma NotLonger(cfg: Config, env: Env, start: seq<Message>, a: seq<Turn>, s: Status, b: seq<Turn>)
    requires Ended(cfg, env, start, a, s) && Run(cfg, env, start, b) && |a| <= |b|
    ensures a == b
  {
    hide Run, Follows;
    RunUnique(cfg, env, start, a, b);
    if |a| < |b| {
      EndedIsOver(cfg, env, start, a, s, b[|a|]);
    }
  }

  lemma EndedUnique(cfg: Config, env: Env, start: seq<Message>, a: seq<Turn>, s: Status, b: seq<Turn>, t: Status)
    requires Ended(cfg, env, start, a, s) && Ended(cfg, env, start, b, t)
    ensures a == b && s == t
  {
    hide Run, Follows, KindOf, CallMessages;
    if |a| <= |b| {
      NotLonger(cfg, env, start, a, s, b);
    } else {
      NotLonger(cfg, env, start, b, t, a);
    }
  }

  // ---------------------------------------------------------------- delta sending

  /** What the provider has been sent since its context was last reset, up to turn `k`. */
  function SentSinceReset(log: seq<Turn>, k: nat): seq<Message>
    requires k < |log|
  {
    if k == 0 || log[k].reset then log[k].sent else SentSinceReset(log, k - 1) + log[k].sent
  }

  ghost predicate Idempotent(env: Env) {
    forall m :: env.redact(env.redact(m)) == env.redact(m)
  }

  lemma {:induction false} RunPrefix(cfg: Config, env: Env, start: seq<Message>, log: seq<Turn>, k: nat)
    requires Run(cfg, env, start, log) && k < |log|
    ensures Run(cfg, env, start, log[..k]) && Follows(cfg, env, start, log[..k], log[k])
    decreases |log|
  {
    hide Follows;
    if k < |log| - 1 {
      RunPrefix(cfg, env, start, log[..|log| - 1], k);
      assert log[..|log| - 1][..k] == log[..k];
    } else {
    }
  }

  /** A turn that does not end the run appends something. */
  lemma SomethingAppended(cfg: Config, env: Env, k: nat, empties: nat, intents: nat, sequentials: nat)
    ensures var kind := KindOf(cfg, env, env.chat(k), empties, intents, sequentials);
            EndsWith(env, k, kind).None? ==> Appended(env, k, kind) != []
  {
    hide CallMessages, TrimSpace;
  }

  /** The conversation as turn `k` finds it. */
  function Before(env: Env, start: seq<Message>, log: seq<Turn>, k: nat): seq<Message>
    requires k <= |log|
  {
    if k == 0 then start else log[k - 1].history + Appended(env, k - 1, log[k - 1].kind)
  }

  lemma SentAt(cfg: Config, env: Env, start: seq<Message>, log: seq<Turn>, k: nat)
    requires Run(cfg, env, start, log) && k < |log|
    ensures k == 0 || log[k].reset || !cfg.stateful ==> log[k].sent == log[k].history
    ensures k > 0 && !log[k].reset && cfg.stateful ==>
              && log[k].history == RedactAll(env, Before(env, start, log, k))
              && log[k].sent == log[k].history[|log[k - 1].history|..]
    ensures Before(env, start, log, k) != [] ==> log[k].history != []
  {
    hide Run, Tokens, CompactAt, Compacted, RedactAll, Count, Iterations, EndsWith, KindOf, Appended, IterationLimit;
    RunPrefix(cfg, env, start, log, k);
    assert k > 0 ==> log[..k][k - 1] == log[k - 1];
    assert Conversation(env, start, log[..k]) == Before(env, start, log, k);
  }

  lemma HistoryIsRedacted(cfg: Config, env: Env, start: seq<Message>, log: seq<Turn>, k: nat)
    requires Run(cfg, env, start, log) && Idempotent(env) && k < |log|
    ensures RedactAll(env, log[k].history) == log[k].history
  {
    hide Run, Tokens, CompactAt, Compacted, RedactAll, Count, Iterations, Conversation, EndsWith, KindOf, IterationLimit;
    RunPrefix(cfg, env, start, log, k);
  }

  lemma GoesOn(cfg: Config, env: Env, start: seq<Message>, log: seq<Turn>, k: nat)
    requires Run(cfg, env, start, log) && 0 < k < |log|
    ensures Appended(env, k - 1, log[k - 1].kind) != []
  {
    hide Run, Tokens, CompactAt, Compacted, RedactAll, Count, Iterations, Conversation, EndsWith, KindOf, Appended,
         IterationLimit;
    RunPrefix(cfg, env, start, log, k);
    RunPrefix(cfg, env, start, log, k - 1);
    assert log[..k][k - 1] == log[k - 1];
    SomethingAppended(cfg, env, k - 1, Count(log[..k - 1], EmptyRetry), Count(log[..k - 1], IntentRetry),
                      Count(log[..k - 1], SequentialRetry));
  }

  /** No Chat call is made with an empty slice. */
  lemma SliceNotEmpty(cfg: Config, env: Env, start: seq<Message>, log: seq<Turn>, k: nat)
    requires Run(cfg, env, start, log) && start != [] && k < |log|
    ensures log[k].sent != []
  {
    hide Run, Appended;
    SentAt(cfg, env, start, log, k);
    if k > 0 {
      GoesOn(cfg, env, start, log, k);
    }
  }

  /** With a stateful provider and a redactor that changes nothing twice, what was sent since the last
      reset is always the whole current conversation, compactions included. */
  lemma {:induction false} DeltasAddUp(cfg: Config, env: Env, start: seq<Message>, log: seq<Turn>, k: nat)
    requires Run(cfg, env, start, log) && cfg.stateful && Idempotent(env) && k < |log|
    ensures SentSinceReset(log, k) == log[k].history
  {
    hide Run, Idempotent, Appended, RedactAll;
    SentAt(cfg, env, start, log, k);
    if k == 0 || log[k].reset {
    } else {
      DeltasAddUp(cfg, env, start, log, k - 1);
      HistoryIsRedacted(cfg, env, start, log, k - 1);
      DeltaCompletes(env, log[k - 1].history, Appended(env, k - 1, log[k - 1].kind), log[k]);
    }
  }

  lemma DeltaCompletes(env: Env, front: seq<Message>, more: seq<Message>, turn: Turn)
    requires RedactAll(env, front) == front && turn.history == RedactAll(env, front + more)
    requires turn.sent == turn.history[|front|..]
    ensures front + turn.sent == turn.history
  {
    forall i | 0 <= i < |front| ensures turn.history[i] == front[i] {
      assert RedactAll(env, front)[i] == env.redact(front[i]);
    }
  }

  /** A provider that keeps no context is always sent the whole conversation. */
  lemma StatelessSendsAll(cfg: Config, env: Env, start: seq<Message>, log: seq<Turn>, k: nat)
    requires Run(cfg, env, start, log) && !cfg.stateful && k < |log|
    ensures log[k].sent == log[k].history
  {
    RunPrefix(cfg, env, start, log, k);
  }
}

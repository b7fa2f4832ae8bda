/** What every run of the orchestrator's loop does with the replies it gets, told from the replies alone. */
module AgentRuns {
  import opened AgentLoop
  import opened Chat
  import opened Text

  // ---------------------------------------------------------------- what a reply calls for

  /** The `k`-th reply has no tool calls. */
  predicate Silent(env: Env, k: nat) {
    env.chat(k).Reply? && env.chat(k).toolCalls == []
  }

  predicate SaysNothing(env: Env, k: nat) {
    Silent(env, k) && TrimSpace(env.chat(k).content) == ""
  }

  /** How many replies before the `k`-th said nothing. */
  function Nothings(env: Env, k: nat): nat {
    if k == 0 then 0 else Nothings(env, k - 1) + if SaysNothing(env, k - 1) then 1 else 0
  }

  /** The model is told that its reply was empty, twice at most. */
  predicate EmptyCorrected(env: Env, k: nat) {
    SaysNothing(env, k) && Nothings(env, k) < 2
  }

  /** A reply that talks of a tool call without making one. */
  predicate OnlyTalks(env: Env, k: nat) {
    Silent(env, k) && env.hasIntent(TrimSpace(env.chat(k).content)) && !EmptyCorrected(env, k)
  }

  function Talks(env: Env, k: nat): nat {
    if k == 0 then 0 else Talks(env, k - 1) + if OnlyTalks(env, k - 1) then 1 else 0
  }

  /** The model is told to make the call it described, twice at most. */
  predicate IntentCorrected(env: Env, k: nat) {
    OnlyTalks(env, k) && Talks(env, k) < 2
  }

  /** Several calls at once, for an agent that works sequentially. */
  predicate Crowded(cfg: Config, env: Env, k: nat) {
    !cfg.parallel && env.chat(k).Reply? && |env.chat(k).toolCalls| > 1
  }

  function Crowds(cfg: Config, env: Env, k: nat): nat {
    if k == 0 then 0 else Crowds(cfg, env, k - 1) + if Crowded(cfg, env, k - 1) then 1 else 0
  }

  /** The model is told to make one call at a time, five times at most. */
  predicate CrowdCorrected(cfg: Config, env: Env, k: nat) {
    Crowded(cfg, env, k) && Crowds(cfg, env, k) < 5
  }

  // ---------------------------------------------------------------- how calls are answered

  /** The status with which call `i` of reply `k` ends the run, if it does. */
  function Stopper(env: Env, k: nat, i: nat): Option<Status> {
    match env.call(k, i)
    case GateExpired(status) => Some(status)
    case Done(_, Break, _) => Some(LoopDetected)
    case Done(_, _, _) => None
  }

  /** What call `i` of reply `k`, made under this id, adds to the conversation. */
  function Answer(env: Env, k: nat, id: string, i: nat): seq<Message> {
    var out := env.call(k, i);
    if out.GateExpired? then []
    else [Message(Tool, out.result, id, [])] + if out.loop.Warning? then [Message(User, out.warning, "", [])] else []
  }

  /** What the first `n` calls add. */
  function Answers(env: Env, k: nat, calls: seq<string>, n: nat): seq<Message>
    requires n <= |calls|
  {
    if n == 0 then [] else Answers(env, k, calls, n - 1) + Answer(env, k, calls[n - 1], n - 1)
  }

  /** The calls are made up to the first that ends the run, `n` of them. */
  predicate MadeUpTo(env: Env, k: nat, calls: seq<string>, n: nat) {
    && n <= |calls|
    && (forall i :: 0 <= i < n - 1 ==> Stopper(env, k, i).None?)
    && (n < |calls| ==> n > 0 && Stopper(env, k, n - 1).Some?)
  }

  lemma Regrouped<T>(a: seq<T>, b: seq<T>, c: seq<T>)
    ensures a + (b + c) == (a + b) + c
  {
  }

  /** What one call contributes to the messages of a reply. */
  lemma OneCall(env: Env, k: nat, calls: seq<string>, i: nat)
    requires i < |calls|
    ensures Stopper(env, k, i).Some? ==>
      CallMessages(env, k, calls, i) == (Answer(env, k, calls[i], i), Stopper(env, k, i))
    ensures Stopper(env, k, i).None? ==>
      var (later, stop) := CallMessages(env, k, calls, i + 1);
      CallMessages(env, k, calls, i) == (Answer(env, k, calls[i], i) + later, stop)
  {
    var out := env.call(k, i);
    if out.Done? {
      var result, warning := ToolMessage(out.result, calls[i]), Plain(User, out.warning);
      assert [result] + [] == [result] && [result] + [warning] == [result, warning];
    }
  }

  lemma {:induction false} CallsMade(env: Env, k: nat, calls: seq<string>, i: nat) returns (n: nat)
    requires i <= |calls| && forall j :: 0 <= j < i ==> Stopper(env, k, j).None?
    ensures MadeUpTo(env, k, calls, n) && (i < |calls| ==> i < n) && (i == |calls| ==> n == i)
    ensures var (later, stop) := CallMessages(env, k, calls, i);
      && Answers(env, k, calls, i) + later == Answers(env, k, calls, n)
      && stop == if n > i then Stopper(env, k, n - 1) else None
    decreases |calls| - i
  {
    hide Stopper, Answer;
    if i == |calls| {
      n := i;
    } else {
      OneCall(env, k, calls, i);
      if Stopper(env, k, i).Some? {
        n := i + 1;
      } else {
        n := CallsMade(env, k, calls, i + 1);
        Regrouped(Answers(env, k, calls, i), Answer(env, k, calls[i], i), CallMessages(env, k, calls, i + 1).0);
      }
    }
  }

  /** If no call ends the run or draws a warning, the results stand one after the other, each under the
      id of its call. */
  lemma {:induction false} PlainAnswers(env: Env, k: nat, calls: seq<string>, n: nat)
    requires n <= |calls| && forall i :: 0 <= i < n ==> env.call(k, i).Done? && env.call(k, i).loop.OK?
    ensures |Answers(env, k, calls, n)| == n
    ensures forall i :: 0 <= i < n ==> Answers(env, k, calls, n)[i] == Message(Tool, env.call(k, i).result, calls[i], [])
  {
    if n == 0 {
    } else {
      PlainAnswers(env, k, calls, n - 1);
      assert Answer(env, k, calls[n - 1], n - 1) == [Message(Tool, env.call(k, n - 1).result, calls[n - 1], [])];
      hide Answer;
    }
  }

  // ---------------------------------------------------------------- the turns of a run

  /** The run is over after these turns exactly with the status of the last one, or, if that has none,
      as completed once the maximum is reached. */
  ghost predicate EndsExactly(cfg: Config, env: Env, start: seq<Message>, log: seq<Turn>, stop: Option<Status>) {
    forall status :: Ended(cfg, env, start, log, status) <==>
      || stop == Some(status)
      || (stop.None? && status == Completed && Iterations(log) == if cfg.given > 0 then cfg.given else 10)
  }

  ghost predicate StillRunning(cfg: Config, env: Env, start: seq<Message>, log: seq<Turn>) {
    forall status :: !Ended(cfg, env, start, log, status)
  }

  function AtMost(limit: nat, n: nat): nat {
    if n < limit then n else limit
  }

  /** How often each correction has been made, told from how often there was occasion for it. */
  predicate Counted(cfg: Config, env: Env, log: seq<Turn>) {
    && Count(log, EmptyRetry) == AtMost(2, Nothings(env, |log|))
    && Count(log, IntentRetry) == AtMost(2, Talks(env, |log|))
    && Count(log, SequentialRetry) == AtMost(5, Crowds(cfg, env, |log|))
  }

  lemma CountedNext(cfg: Config, env: Env, log: seq<Turn>, turn: Turn)
    requires Counted(cfg, env, log)
    requires turn.kind == KindOf(cfg, env, env.chat(|log|), Count(log, EmptyRetry), Count(log, IntentRetry),
                                 Count(log, SequentialRetry))
    ensures Counted(cfg, env, log + [turn])
  {
    hide TrimSpace;
    hide KindOf;
    KindMeans(cfg, env, |log|, Count(log, EmptyRetry), Count(log, IntentRetry), Count(log, SequentialRetry));
    assert (log + [turn])[..|log|] == log;
  }

  lemma KindMeans(cfg: Config, env: Env, k: nat, empties: nat, intents: nat, sequentials: nat)
    ensures var kind := KindOf(cfg, env, env.chat(k), empties, intents, sequentials);
      && (kind.EmptyRetry? <==> SaysNothing(env, k) && empties < 2)
      && (kind.IntentRetry? <==>
            Silent(env, k) && env.hasIntent(TrimSpace(env.chat(k).content)) && !kind.EmptyRetry? && intents < 2)
      && (kind.SequentialRetry? <==> Crowded(cfg, env, k) && sequentials < 5)
  {
    hide TrimSpace;
  }

  lemma NoneCounted(cfg: Config, env: Env)
    ensures Counted(cfg, env, [])
  {
  }

  lemma KindNext(cfg: Config, env: Env, start: seq<Message>, log: seq<Turn>, turn: Turn)
    requires Follows(cfg, env, start, log, turn)
    ensures turn.kind == KindOf(cfg, env, env.chat(|log|), Count(log, EmptyRetry), Count(log, IntentRetry),
                                Count(log, SequentialRetry))
  {
    hide Tokens, CompactAt, Compacted, RedactAll, Iterations, Conversation, Compactions, LastSent, EndsWith, KindOf,
         IterationLimit, Count;
  }

  lemma {:induction false} Corrections(cfg: Config, env: Env, start: seq<Message>, log: seq<Turn>)
    requires Run(cfg, env, start, log)
    ensures Counted(cfg, env, log)
    decreases |log|
  {
    hide Follows, Counted;
    if log == [] {
      NoneCounted(cfg, env);
    } else {
      var front, turn := log[..|log| - 1], log[|log| - 1];
      Corrections(cfg, env, start, front);
      KindNext(cfg, env, start, front, turn);
      CountedNext(cfg, env, front, turn);
      assert log == front + [turn];
    }
  }

  /** The kind of a turn, told from the replies. */
  lemma KindAt(cfg: Config, env: Env, start: seq<Message>, log: seq<Turn>, k: nat)
    requires Run(cfg, env, start, log) && k < |log|
    ensures var kind, reply := log[k].kind, env.chat(k);
      && (reply.ChatError? ==> kind == ChatFailed)
      && (EmptyCorrected(env, k) ==> kind == EmptyRetry)
      && (IntentCorrected(env, k) ==> kind == IntentRetry)
      && (Silent(env, k) && !EmptyCorrected(env, k) && !IntentCorrected(env, k) ==> kind == Final)
      && (CrowdCorrected(cfg, env, k) ==> kind == SequentialRetry)
      && (Crowded(cfg, env, k) && !CrowdCorrected(cfg, env, k) ==> kind == Calls(reply.toolCalls[..1]))
      && (reply.Reply? && reply.toolCalls != [] && !Crowded(cfg, env, k) ==> kind == Calls(reply.toolCalls))
  {
    hide Run, Tokens, CompactAt, Compacted, RedactAll, Iterations, Conversation, Compactions, LastSent, EndsWith,
         TrimSpace,
         IterationLimit, Count, Nothings, Talks, Crowds;
    RunPrefix(cfg, env, start, log, k);
    Corrections(cfg, env, start, log[..k]);
  }

  /** The run up to and including turn `k`. */
  lemma TurnTaken(cfg: Config, env: Env, start: seq<Message>, log: seq<Turn>, k: nat)
    requires Run(cfg, env, start, log) && k < |log|
    ensures Run(cfg, env, start, log[..k + 1]) && |log[..k + 1]| == k + 1 && log[..k + 1][k] == log[k]
    ensures Conversation(env, start, log[..k + 1]) == log[k].history + Appended(env, k, log[k].kind)
    ensures EndsExactly(cfg, env, start, log[..k + 1], EndsWith(env, k, log[k].kind))
    ensures Iterations(log[..k + 1]) == Iterations(log[..k]) + if Correction(log[k].kind) then 0 else 1
    ensures Iterations(log[..k]) < IterationLimit(cfg.given)
  {
    hide Follows, Ended, EndsExactly, EndsWith, Appended, Correction, IterationLimit;
    RunPrefix(cfg, env, start, log, k);
    var grown := log[..k + 1];
    assert grown[..k] == log[..k] && grown[k] == log[k];
    EndsAsItsLast(cfg, env, start, grown);
    WithinLimit(cfg, env, start, log[..k], log[k]);
  }

  lemma EndsAsItsLast(cfg: Config, env: Env, start: seq<Message>, log: seq<Turn>)
    requires Run(cfg, env, start, log) && log != []
    ensures EndsExactly(cfg, env, start, log, EndsWith(env, |log| - 1, log[|log| - 1].kind))
  {
    hide Run, EndsWith, Iterations;
  }

  lemma WithinLimit(cfg: Config, env: Env, start: seq<Message>, log: seq<Turn>, turn: Turn)
    requires Follows(cfg, env, start, log, turn)
    ensures Iterations(log) < IterationLimit(cfg.given)
  {
    hide Iterations, IterationLimit, Tokens, CompactAt, Compacted, RedactAll, Count, Conversation, Compactions, LastSent,
         EndsWith, KindOf;
  }

  /** A correction turn: the reply, or nothing, and a note. It is not counted, and the run goes on. */
  lemma CorrectionTurn(cfg: Config, env: Env, start: seq<Message>, log: seq<Turn>, k: nat)
    requires Run(cfg, env, start, log) && k < |log|
    ensures var h, after := log[k].history, Conversation(env, start, log[..k + 1]);
      && (EmptyCorrected(env, k) ==> after == h + [Message(Assistant, "", "", []), EMPTY_NOTE])
      && (IntentCorrected(env, k) ==>
            after == h + [Message(Assistant, TrimSpace(env.chat(k).content), "", []), INTENT_NOTE])
      && (CrowdCorrected(cfg, env, k) ==>
            after == h + [Message(Assistant, env.chat(k).content, "", env.chat(k).toolCalls), SEQUENTIAL_NOTE])
    ensures EmptyCorrected(env, k) || IntentCorrected(env, k) || CrowdCorrected(cfg, env, k) ==>
      && Iterations(log[..k + 1]) == Iterations(log[..k])
      && StillRunning(cfg, env, start, log[..k + 1])
  {
    hide Run, Ended, Iterations, Conversation, TrimSpace, CallMessages, Nothings, Talks, Crowds;
    KindAt(cfg, env, start, log, k);
    TurnTaken(cfg, env, start, log, k);
  }

  /** A failed Chat call, and a reply without calls that is not corrected, end the run and add nothing. */
  lemma LastTurn(cfg: Config, env: Env, start: seq<Message>, log: seq<Turn>, k: nat)
    requires Run(cfg, env, start, log) && k < |log|
    requires env.chat(k).ChatError? || (Silent(env, k) && !EmptyCorrected(env, k) && !IntentCorrected(env, k))
    ensures Conversation(env, start, log[..k + 1]) == log[k].history
    ensures Iterations(log[..k + 1]) == Iterations(log[..k]) + 1
    ensures EndsExactly(cfg, env, start, log[..k + 1], Some(if env.chat(k).ChatError? then Failed else Completed))
  {
    hide Run, Ended, Iterations, Conversation, TrimSpace, CallMessages, Nothings, Talks, Crowds,
         EmptyCorrected, IntentCorrected, EndsExactly;
    KindAt(cfg, env, start, log, k);
    TurnTaken(cfg, env, start, log, k);
  }

  /** A reply with tool calls is answered, unless it is corrected: the model's message is kept with
      exactly the calls that are made, all of them, or the first if it sent several to an agent that
      works sequentially; after it stands what each of these answered, in order, up to the first that
      ends the run. */
  lemma CallsTurn(cfg: Config, env: Env, start: seq<Message>, log: seq<Turn>, k: nat) returns (n: nat)
    requires Run(cfg, env, start, log) && k < |log|
    requires env.chat(k).Reply? && env.chat(k).toolCalls != [] && !CrowdCorrected(cfg, env, k)
    ensures var reply, grown := env.chat(k), log[..k + 1];
      var calls := if cfg.parallel then reply.toolCalls else reply.toolCalls[..1];
      && MadeUpTo(env, k, calls, n) && 0 < n
      && Conversation(env, start, grown)
         == log[k].history + [Message(Assistant, reply.content, "", calls)] + Answers(env, k, calls, n)
      && Iterations(grown) == Iterations(log[..k]) + 1
      && EndsExactly(cfg, env, start, grown, Stopper(env, k, n - 1))
  {
    hide Run, Ended, Iterations, Conversation, TrimSpace, CallMessages, Nothings, Talks, Crowds,
         CrowdCorrected, EndsExactly, Stopper, Answer,
         IterationLimit;
    var reply := env.chat(k);
    var calls := if cfg.parallel then reply.toolCalls else reply.toolCalls[..1];
    assert |reply.toolCalls| == 1 ==> reply.toolCalls[..1] == reply.toolCalls;
    KindAt(cfg, env, start, log, k);
    TurnTaken(cfg, env, start, log, k);
    n := CallsMade(env, k, calls, 0);
  }

  /** With calls that just succeed the turn is the model's message and one result for each call it
      made, under that call's id. */
  lemma EveryCallIsAnswered(cfg: Config, env: Env, start: seq<Message>, log: seq<Turn>, k: nat)
    requires Run(cfg, env, start, log) && k < |log|
    requires env.chat(k).Reply? && env.chat(k).toolCalls != [] && (cfg.parallel || |env.chat(k).toolCalls| == 1)
    requires forall i :: 0 <= i < |env.chat(k).toolCalls| ==> env.call(k, i).Done? && env.call(k, i).loop.OK?
    ensures var reply, calls, grown := env.chat(k), env.chat(k).toolCalls, log[..k + 1];
      && Conversation(env, start, grown)
         == log[k].history + [Message(Assistant, reply.content, "", calls)]
            + seq(|calls|, i requires 0 <= i < |calls| => Message(Tool, env.call(k, i).result, calls[i], []))
      && EndsExactly(cfg, env, start, grown, None)
  {
    hide Run, Conversation, EndsExactly, Answers, Iterations, Crowds, IterationLimit, CallMessages;
    var calls := env.chat(k).toolCalls;
    NoneStops(env, k, |calls|);
    assert |calls| == 1 ==> calls[..1] == calls;
    var n := CallsTurn(cfg, env, start, log, k);
    assert n == |calls|;
    PlainAnswers(env, k, calls, n);
    assert Answers(env, k, calls, n)
        == seq(|calls|, i requires 0 <= i < |calls| => Message(Tool, env.call(k, i).result, calls[i], []));
  }

  lemma NoneStops(env: Env, k: nat, n: nat)
    requires forall i :: 0 <= i < n ==> env.call(k, i).Done? && env.call(k, i).loop.OK?
    ensures forall i :: 0 <= i < n ==> Stopper(env, k, i).None?
  {
  }

  // ---------------------------------------------------------------- what is sent

  /** Token estimates add up message by message. */
  lemma {:induction false} TokensAddUp(a: seq<Message>, b: seq<Message>)
    ensures Tokens(a + b) == Tokens(a) + Tokens(b)
    ensures forall m: Message :: Tokens([m]) == 4 + |m.content| / 4
  {
    forall m: Message ensures Tokens([m]) == 4 + |m.content| / 4 {
      assert [m][..0] == [];
    }
    if b == [] {
      assert a + b == a;
    } else {
      TokensAddUp(a, b[..|b| - 1]);
      assert (a + b)[..|a + b| - 1] == a + b[..|b| - 1];
    }
  }

  /** The part of the window at which a conversation is compacted, four fifths unless configured. */
  lemma CompactAtMeans(window: nat, threshold: real)
    ensures var part := window as real * (if threshold > 0.0 then threshold else 0.8);
      var limit := CompactAt(window, threshold);
      limit as real <= part < limit as real + 1.0
  {
  }

  /** The conversation is about to be compacted before turn `k`. */
  predicate TooLong(cfg: Config, env: Env, start: seq<Message>, log: seq<Turn>, k: nat)
    requires k <= |log|
  {
    Tokens(Conversation(env, start, log[..k])) >= CompactAt(cfg.contextLimit, cfg.threshold)
  }

  predicate Shrinks(cfg: Config, env: Env, start: seq<Message>, log: seq<Turn>, k: nat)
    requires k <= |log|
  {
    TooLong(cfg, env, start, log, k) && |Conversation(env, start, log[..k])| >= 5
  }

  /** How often the conversation has been compacted before turn `k`. */
  function Shrunk(cfg: Config, env: Env, start: seq<Message>, log: seq<Turn>, k: nat): nat
    requires k <= |log|
  {
    if k == 0 then 0
    else Shrunk(cfg, env, start, log, k - 1) + if Shrinks(cfg, env, start, log, k - 1) then 1 else 0
  }

  lemma {:induction false} CompactionsAre(cfg: Config, env: Env, start: seq<Message>, log: seq<Turn>, k: nat)
    requires Run(cfg, env, start, log) && k <= |log|
    ensures Compactions(log[..k]) == Shrunk(cfg, env, start, log, k)
  {
    hide Run, Tokens, CompactAt, Compacted, RedactAll, Count, Iterations, Conversation, LastSent, EndsWith, KindOf,
         IterationLimit;
    if k == 0 {
    } else {
      RunPrefix(cfg, env, start, log, k - 1);
      CompactionsAre(cfg, env, start, log, k - 1);
      assert log[..k][k - 1] == log[k - 1];
    }
  }

  /** Each message redacted. */
  function Redacted(env: Env, messages: seq<Message>): seq<Message> {
    seq(|messages|, i requires 0 <= i < |messages| => env.redact(messages[i]))
  }

  lemma RedactedIs(env: Env, messages: seq<Message>)
    ensures RedactAll(env, messages) == Redacted(env, messages)
  {
  }

  /** What the model is shown at turn `k`: the conversation so far, redacted message by message; where it
      is too long, its first message, one summary and its last messages. */
  lemma HistoryAt(cfg: Config, env: Env, start: seq<Message>, log: seq<Turn>, k: nat)
    requires Run(cfg, env, start, log) && k < |log|
    ensures var before := Conversation(env, start, log[..k]);
      && log[k].reset == TooLong(cfg, env, start, log, k)
      && (!Shrinks(cfg, env, start, log, k) ==> log[k].history == Redacted(env, before))
      && (Shrinks(cfg, env, start, log, k) ==>
            var keep := if |before| == 5 then 3 else 4;
            var summary := env.summarise(Shrunk(cfg, env, start, log, k) + 1, before[1..|before| - keep]);
            log[k].history == Redacted(env, [before[0], summary] + before[|before| - keep..]))
  {
    hide Run, Follows, Conversation, Tokens, CompactAt, Shrunk, Compacted, RedactAll, Redacted, Compactions;
    RunPrefix(cfg, env, start, log, k);
    CompactionsAre(cfg, env, start, log, k);
    ShownNext(cfg, env, start, log[..k], log[k]);
    var before := Conversation(env, start, log[..k]);
    RedactedIs(env, before);
    if Shrinks(cfg, env, start, log, k) {
      CompactedIs(env, before, Shrunk(cfg, env, start, log, k));
      RedactedIs(env, Compacted(env, before, Shrunk(cfg, env, start, log, k)));
    }
  }

  lemma ShownNext(cfg: Config, env: Env, start: seq<Message>, log: seq<Turn>, turn: Turn)
    requires Follows(cfg, env, start, log, turn)
    ensures var before := Conversation(env, start, log);
      && turn.reset == (Tokens(before) >= CompactAt(cfg.contextLimit, cfg.threshold))
      && turn.history
         == RedactAll(env, if turn.reset && |before| >= 5 then Compacted(env, before, Compactions(log)) else before)
  {
    hide Run, Tokens, CompactAt, Count, Iterations, Conversation, LastSent, EndsWith, KindOf, IterationLimit, Compacted,
         RedactAll;
  }

  lemma CompactedIs(env: Env, before: seq<Message>, c: nat)
    requires |before| >= 5
    ensures var keep := if |before| == 5 then 3 else 4;
      Compacted(env, before, c)
      == [before[0], env.summarise(c + 1, before[1..|before| - keep])] + before[|before| - keep..]
  {
  }
}

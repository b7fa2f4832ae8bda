/** Fan-out to subscribers over bounded channels: the daemon's subscribers (sdk/daemon.go), the
    blackboard's (orchestrator/blackboard.go) and the SSE hub's clients (orchestrator/module_sse_hub.go). */
module FanOut {
  import opened Text
  import Runs

  type ChanId = nat
  type Sender = nat
  type Phase = string

  datatype Msg = Msg(phase: Phase, body: string)

  const CAPACITY := 64

  /** Message number `n`, offered to a channel that held `depth` messages at that moment. */
  datatype Offer = Offer(n: nat, depth: nat)

  /** What the offers left in the channel: those that found it full are gone. */
  function Kept(offers: seq<Offer>): seq<nat> {
    if offers == [] then []
    else
      var last := offers[|offers| - 1];
      Kept(offers[..|offers| - 1]) + if last.depth < CAPACITY then [last.n] else []
  }

  predicate Wants(phase: Phase, m: Msg) {
    phase == "" || phase == m.phase
  }

  /** A subscriber's channel and its history: subscribed after `from` messages were sent and removed
      after `until`; the messages it holds and those its receiver took, by number; what it was offered;
      how often it was closed, and how often a message was sent to it when closed. */
  datatype Chan = Chan(
    phase: Phase, from: nat, until: Option<nat>, buffer: seq<nat>,
    taken: seq<nat>, offers: seq<Offer>, closes: nat, late: nat)
  {
    /** A send that does not block: dropped when the buffer is full. */
    function Send(n: nat): Chan {
      this.(buffer := if |buffer| < CAPACITY then buffer + [n] else buffer,
            offers := offers + [Offer(n, |buffer|)], late := if closes > 0 then late + 1 else late)
    }

    function Take(): Chan
      requires buffer != []
    {
      this.(buffer := buffer[1..], taken := taken + [buffer[0]])
    }

    function Close(): Chan {
      this.(closes := closes + 1)
    }

    function Remove(now: nat): Chan {
      this.(until := if until.None? then Some(now) else until)
    }
  }

  type Chans = map<ChanId, Chan>

  function NewChan(phase: Phase, now: nat): Chan {
    Chan(phase, now, None, [], [], [], 0, 0)
  }

  predicate Registered(chans: Chans, ch: ChanId) {
    ch in chans && chans[ch].until.None?
  }

  // ---------------------------------------------------------------- senders and lock sections

  datatype Kind = Daemon | Board | Hub

  /** A message, and the numbers of those that were still being sent when its sending began. */
  datatype Sent = Sent(msg: Msg, during: set<nat>)

  /** A sender inside its lock: the number of its message and the channels it has yet to serve. */
  datatype Sending = Sending(n: nat, todo: set<ChanId>)

  /** `cancelled` are the channels whose owner has begun to leave, `leaving` those it has yet to close. */
  datatype State = State(
    kind: Kind, chans: Chans, cancelled: set<ChanId>, leaving: set<ChanId>,
    log: seq<Sent>, senders: map<Sender, Sending>)

  function Init(kind: Kind): State {
    State(kind, map[], {}, {}, [], map[])
  }

  datatype Step =
    | Subscribe(ch: ChanId, phase: Phase)
    | BeginSend(t: Sender, m: Msg)
    | SendOne(t: Sender, ch: ChanId)
    | EndSend(t: Sender)
    | Take(ch: ChanId)
    | Unsubscribe(ch: ChanId)
    | Cancel(ch: ChanId)
    | CloseOwn(ch: ChanId)
    | CloseAll

  /** The daemon's senders hold its lock alone; the board's and the hub's share theirs with each other,
      but not with anyone who changes the list. Receiving, and closing one's own channel, need no lock. */
  predicate Enabled(s: State, step: Step) {
    match step
    case Subscribe(ch, phase) => s.senders == map[] && ch !in s.chans && (s.kind.Board? || phase == "")
    case BeginSend(t, _) => t !in s.senders && (s.kind.Daemon? ==> s.senders == map[])
    case SendOne(t, ch) => t in s.senders && ch in s.senders[t].todo && ch in s.chans
    case EndSend(t) => t in s.senders && s.senders[t].todo == {}
    case Take(ch) => ch in s.chans && s.chans[ch].buffer != []
    case Unsubscribe(ch) => s.senders == map[] && s.kind.Daemon?
    case Cancel(ch) => s.senders == map[] && !s.kind.Daemon? && ch in s.chans && ch !in s.cancelled
    case CloseOwn(ch) => ch in s.leaving && ch in s.chans
    case CloseAll => s.senders == map[] && !s.kind.Board?
  }

  function Listeners(chans: Chans, m: Msg): set<ChanId> {
    set ch | ch in chans && chans[ch].until.None? && Wants(chans[ch].phase, m)
  }

  /** The numbers of the messages being sent. */
  function InFlight(senders: map<Sender, Sending>): set<nat> {
    set t | t in senders :: senders[t].n
  }

  function ClosedAll(chans: Chans, now: nat): Chans {
    map ch | ch in chans :: if chans[ch].until.None? then chans[ch].Remove(now).Close() else chans[ch]
  }

  function Removed(chans: Chans, ch: ChanId, now: nat): Chans {
    if ch in chans then chans[ch := chans[ch].Remove(now)] else chans
  }

  function Next(s: State, step: Step): State
    requires Enabled(s, step)
  {
    match step
    case Subscribe(ch, phase) => s.(chans := s.chans[ch := NewChan(phase, |s.log|)])
    case BeginSend(t, m) =>
      s.(log := s.log + [Sent(m, InFlight(s.senders))],
         senders := s.senders[t := Sending(|s.log|, Listeners(s.chans, m))])
    case SendOne(t, ch) =>
      var Sending(n, todo) := s.senders[t];
      s.(chans := s.chans[ch := s.chans[ch].Send(n)], senders := s.senders[t := Sending(n, todo - {ch})])
    case EndSend(t) => s.(senders := s.senders - {t})
    case Take(ch) => s.(chans := s.chans[ch := s.chans[ch].Take()])
    case Unsubscribe(ch) => s.(chans := Removed(s.chans, ch, |s.log|))
    case Cancel(ch) =>
      s.(chans := Removed(s.chans, ch, |s.log|), cancelled := s.cancelled + {ch},
         leaving := if s.kind.Board? || Registered(s.chans, ch) then s.leaving + {ch} else s.leaving)
    case CloseOwn(ch) => s.(chans := s.chans[ch := s.chans[ch].Close()], leaving := s.leaving - {ch})
    case CloseAll => s.(chans := ClosedAll(s.chans, |s.log|))
  }

  function Try(s: State, step: Step): Option<State> {
    if Enabled(s, step) then Some(Next(s, step)) else None
  }

  /** The state after a run, if each of its steps was enabled in turn. */
  function After(s: State, run: seq<Step>): Option<State> {
    Runs.After(Try, s, run)
  }

  // ---------------------------------------------------------------- one sender, undisturbed

  function SentTo(chans: Chans, list: seq<ChanId>, n: nat): Chans {
    map ch | ch in chans :: if ch in list then chans[ch].Send(n) else chans[ch]
  }

  function Serves(t: Sender, list: seq<ChanId>): seq<Step> {
    seq(|list|, i requires 0 <= i < |list| => SendOne(t, list[i]))
  }

  /** A message sent to the channels of `list`, in this order. */
  function SendRun(t: Sender, m: Msg, list: seq<ChanId>): seq<Step> {
    [BeginSend(t, m)] + Serves(t, list) + [EndSend(t)]
  }

  /** The channels that want a message, each once. */
  ghost predicate Lists(list: seq<ChanId>, chans: Chans, m: Msg) {
    Distinct(list) && (forall ch :: ch in list <==> ch in Listeners(chans, m))
  }

  /** What a sender does if no one comes between its steps; others may be in the middle of theirs. */
  function Dispatched(s: State, m: Msg, list: seq<ChanId>): State {
    s.(chans := SentTo(s.chans, list, |s.log|), log := s.log + [Sent(m, InFlight(s.senders))])
  }

  /** The state once `t` has served the channels of `list`. */
  function WithServed(s: State, t: Sender, list: seq<ChanId>): State
    requires t in s.senders
  {
    var Sending(n, todo) := s.senders[t];
    s.(chans := SentTo(s.chans, list, n), senders := s.senders[t := Sending(n, todo - (set ch | ch in list))])
  }

  lemma ServedNone(s: State, t: Sender)
    requires t in s.senders
    ensures WithServed(s, t, []) == s
  {
    var Sending(n, todo) := s.senders[t];
    assert todo - (set ch | ch in []) == todo && s.senders[t := Sending(n, todo)] == s.senders;
    assert SentTo(s.chans, [], n) == s.chans;
  }

  lemma ServedOneMore(s: State, t: Sender, list: seq<ChanId>, ch: ChanId)
    requires t in s.senders && ch !in list && ch in s.senders[t].todo && ch in s.chans
    ensures Try(WithServed(s, t, list), SendOne(t, ch)) == Some(WithServed(s, t, list + [ch]))
  {
    var Sending(n, todo) := s.senders[t];
    var mid, left := WithServed(s, t, list), Sending(n, todo - (set x | x in list + [ch]));
    assert mid.chans[ch] == s.chans[ch] && mid.senders[t := left] == s.senders[t := left];
    assert SentTo(s.chans, list, n)[ch := s.chans[ch].Send(n)] == SentTo(s.chans, list + [ch], n);
    assert (todo - (set x | x in list)) - {ch} == todo - (set x | x in list + [ch]);
  }

  lemma {:induction false} ServesSend(s: State, t: Sender, list: seq<ChanId>)
    requires t in s.senders && Distinct(list) && forall ch :: ch in list ==> ch in s.senders[t].todo && ch in s.chans
    ensures After(s, Serves(t, list)) == Some(WithServed(s, t, list))
  {
    hide Try, WithServed;
    if list == [] {
      ServedNone(s, t);
    } else {
      var front, ch := list[..|list| - 1], list[|list| - 1];
      assert list == front + [ch] && ch !in front;
      ServesSend(s, t, front);
      assert Serves(t, list) == Serves(t, front) + [SendOne(t, ch)];
      Runs.AfterThen(Try, s, Serves(t, front), SendOne(t, ch));
      ServedOneMore(s, t, front, ch);
    }
  }

  lemma EndsDispatch(s: State, t: Sender, m: Msg, list: seq<ChanId>)
    requires Enabled(s, BeginSend(t, m)) && Lists(list, s.chans, m)
    ensures Try(WithServed(Next(s, BeginSend(t, m)), t, list), EndSend(t)) == Some(Dispatched(s, m, list))
  {
    var begun := Next(s, BeginSend(t, m));
    assert Listeners(s.chans, m) - (set ch | ch in list) == {};
    assert begun.senders[t := Sending(|s.log|, {})] - {t} == s.senders;
  }

  lemma SendRunDispatches(s: State, t: Sender, m: Msg, list: seq<ChanId>)
    requires Enabled(s, BeginSend(t, m)) && Lists(list, s.chans, m)
    ensures After(s, SendRun(t, m, list)) == Some(Dispatched(s, m, list))
  {
    var begun := Next(s, BeginSend(t, m));
    assert Try(s, BeginSend(t, m)) == Some(begun);
    ServesSend(begun, t, list);
    EndsDispatch(s, t, m, list);
    hide Try, Next, WithServed, Dispatched, Serves;
    Runs.AfterOne(Try, s, BeginSend(t, m));
    Runs.AfterConcat(Try, s, [BeginSend(t, m)], Serves(t, list));
    Runs.AfterThen(Try, s, [BeginSend(t, m)] + Serves(t, list), EndSend(t));
  }

  // ---------------------------------------------------------------- the daemon

  predicate Distinct(s: seq<ChanId>) {
    forall i, j :: 0 <= i < j < |s| ==> s[i] != s[j]
  }

  /** The list without the first occurrence of `ch`. */
  function Spliced(s: seq<ChanId>, ch: ChanId): seq<ChanId> {
    if s == [] then [] else if s[0] == ch then s[1..] else [s[0]] + Spliced(s[1..], ch)
  }

  lemma {:induction false} SplicedRemoves(s: seq<ChanId>, ch: ChanId)
    requires Distinct(s)
    ensures Distinct(Spliced(s, ch)) && forall x :: x in Spliced(s, ch) <==> x in s && x != ch
  {
    if s == [] {
    } else {
      assert s == [s[0]] + s[1..] && s[0] !in s[1..];
      assert forall i, j :: 0 <= i < j < |s[1..]| ==> s[1..][i] == s[i + 1] && s[1..][j] == s[j + 1];
      SplicedRemoves(s[1..], ch);
      assert s[0] == ch ==> forall x :: x in s[1..] <==> x in s && x != ch;
    }
  }

  lemma {:induction false} SplicedAt(s: seq<ChanId>, i: nat)
    requires i < |s| && s[i] !in s[..i]
    ensures Spliced(s, s[i]) == s[..i] + s[i + 1..]
  {
    if i == 0 {
    } else {
      assert s[0] in s[..i];
      assert s[1..][..i - 1] == s[..i][1..];
      SplicedAt(s[1..], i - 1);
    }
  }

  lemma {:induction false} SplicedAbsent(s: seq<ChanId>, ch: ChanId)
    requires ch !in s
    ensures Spliced(s, ch) == s
  {
    if s == [] {
    } else {
      SplicedAbsent(s[1..], ch);
    }
  }

  /** The loop of Unsubscribe, and of the blackboard's cancellation. */
  method Splice(s: seq<ChanId>, ch: ChanId) returns (r: seq<ChanId>)
    ensures r == Spliced(s, ch)
  {
    for i := 0 to |s|
      invariant ch !in s[..i]
    {
      if s[i] == ch {
        SplicedAt(s, i);
        return s[..i] + s[i + 1..];
      }
    }
    SplicedAbsent(s, ch);
    return s;
  }

  /** The send in a select with a default branch. */
  method TrySend(c: Chan, n: nat) returns (r: Chan)
    ensures r == c.Send(n)
  {
    r := c.(offers := c.offers + [Offer(n, |c.buffer|)]);
    if |c.buffer| < CAPACITY {
      r := r.(buffer := r.buffer + [n]);
    }
    if c.closes > 0 {
      r := r.(late := r.late + 1);
    }
  }

  /** Sends to the channels of a list in turn; each has its own buffer. */
  method SendTo(chans: Chans, list: seq<ChanId>, n: nat) returns (r: Chans)
    requires Distinct(list) && forall ch: ChanId :: ch in list ==> ch in chans
    ensures r == SentTo(chans, list, n)
  {
    r := chans;
    for i := 0 to |list|
      invariant r.Keys == chans.Keys
      invariant forall ch :: ch in chans ==> r[ch] == if ch in list[..i] then chans[ch].Send(n) else chans[ch]
    {
      assert list[i] !in list[..i];
      var c := TrySend(r[list[i]], n);
      r := r[list[i] := c];
    }
    assert list[..|list|] == list;
  }

  class DaemonClient {
    var subs: seq<ChanId>
    var chans: Chans
    var next: ChanId
    var count: nat
    ghost var log: seq<Sent>

    ghost predicate Valid()
      reads this
    {
      && count == |log|
      && Distinct(subs) && (forall ch :: ch in subs <==> Registered(chans, ch))
      && (forall ch :: ch in chans ==> ch < next && chans[ch].phase == "")
    }

    ghost function View(): State
      reads this
    {
      State(Daemon, chans, {}, {}, log, map[])
    }

    constructor ()
      ensures Valid() && View() == Init(Daemon)
    {
      subs, chans, next, count, log := [], map[], 0, 0, [];
    }

    method Subscribe() returns (ch: ChanId)
      requires Valid()
      modifies this
      ensures Valid() && ch !in old(chans) && View() == Next(old(View()), Step.Subscribe(ch, ""))
    {
      ch := next;
      assert !Registered(chans, ch);
      next := next + 1;
      chans := chans[ch := NewChan("", count)];
      subs := subs + [ch];
    }

    method Unsubscribe(ch: ChanId)
      requires Valid()
      modifies this
      ensures Valid() && View() == Next(old(View()), Step.Unsubscribe(ch))
    {
      SplicedRemoves(subs, ch);
      subs := Splice(subs, ch);
      chans := Removed(chans, ch, count);
    }

    method FanOut(m: Msg)
      requires Valid()
      modifies this
      ensures Valid() && After(old(View()), SendRun(0, m, old(subs))) == Some(View())
    {
      SendRunDispatches(View(), 0, m, subs);
      assert InFlight(map[]) == {};
      chans := SendTo(chans, subs, count);
      log, count := log + [Sent(m, {})], count + 1;
    }

    /** The dispatcher's last act. */
    method Shutdown()
      requires Valid()
      modifies this
      ensures Valid() && View() == Next(old(View()), CloseAll)
    {
      ghost var was := chans;
      for i := 0 to |subs|
        invariant unchanged(`subs) && unchanged(`log) && unchanged(`count) && unchanged(`next)
        invariant chans.Keys == was.Keys
        invariant forall ch :: ch in was ==>
                    chans[ch] == if ch in subs[..i] then was[ch].Remove(count).Close() else was[ch]
      {
        assert subs[i] !in subs[..i] && Registered(was, subs[i]);
        chans := chans[subs[i] := chans[subs[i]].Remove(count).Close()];
      }
      assert subs[..|subs|] == subs;
      subs := [];
      assert chans == ClosedAll(was, count);
    }
  }

  // ---------------------------------------------------------------- the blackboard

  /** A missing entry reads as the empty list. */
  function ListOf(subscribers: map<Phase, seq<ChanId>>, phase: Phase): seq<ChanId> {
    if phase in subscribers then subscribers[phase] else []
  }

  predicate Listed(subscribers: map<Phase, seq<ChanId>>, phase: Phase, ch: ChanId) {
    ch in ListOf(subscribers, phase)
  }

  /** Each listed channel is registered, once, under the phase it was subscribed to. */
  ghost predicate Indexed(subscribers: map<Phase, seq<ChanId>>, chans: Chans) {
    && (forall phase :: Distinct(ListOf(subscribers, phase)))
    && (forall phase, ch :: Listed(subscribers, phase, ch) <==> Registered(chans, ch) && chans[ch].phase == phase)
  }

  lemma IndexedWith(subscribers: map<Phase, seq<ChanId>>, chans: Chans, phase: Phase, ch: ChanId, now: nat)
    requires Indexed(subscribers, chans) && ch !in chans
    ensures Indexed(subscribers[phase := ListOf(subscribers, phase) + [ch]], chans[ch := NewChan(phase, now)])
  {
    var list := ListOf(subscribers, phase) + [ch];
    var after, chans' := subscribers[phase := list], chans[ch := NewChan(phase, now)];
    assert !Listed(subscribers, phase, ch);
    assert Distinct(ListOf(subscribers, phase));
    assert Distinct(list);
    hide Distinct;
    forall q ensures ListOf(after, q) == if q == phase then list else ListOf(subscribers, q) {
    }
    forall q ensures Distinct(ListOf(after, q)) {
      assert Distinct(ListOf(subscribers, q));
    }
    forall q, x ensures Listed(after, q, x) <==> Registered(chans', x) && chans'[x].phase == q {
      assert Listed(subscribers, q, x) <==> Registered(chans, x) && chans[x].phase == q;
      if q == phase {
        assert x in list <==> x == ch || Listed(subscribers, phase, x);
      }
    }
  }

  lemma IndexedWithout(subscribers: map<Phase, seq<ChanId>>, chans: Chans, ch: ChanId, now: nat)
    requires Indexed(subscribers, chans) && ch in chans
    ensures var phase := chans[ch].phase;
      Indexed(subscribers[phase := Spliced(ListOf(subscribers, phase), ch)], Removed(chans, ch, now))
  {
    var phase, chans' := chans[ch].phase, Removed(chans, ch, now);
    var list := Spliced(ListOf(subscribers, phase), ch);
    var after := subscribers[phase := list];
    forall q ensures ListOf(after, q) == if q == phase then list else ListOf(subscribers, q) {
    }
    assert Distinct(ListOf(subscribers, phase));
    SplicedRemoves(ListOf(subscribers, phase), ch);
    hide Distinct, Spliced;
    forall q ensures Distinct(ListOf(after, q)) {
      assert Distinct(ListOf(subscribers, q));
    }
    forall q, x ensures Listed(after, q, x) <==> Registered(chans', x) && chans'[x].phase == q {
      assert Listed(subscribers, q, x) <==> Registered(chans, x) && chans[x].phase == q;
      if q == phase {
        assert x in list <==> x != ch && Listed(subscribers, phase, x);
      }
    }
  }

  /** Those an artifact goes to: the subscribers of its phase, then those of every phase. */
  function Recipients(subscribers: map<Phase, seq<ChanId>>, m: Msg): seq<ChanId> {
    ListOf(subscribers, m.phase) + if m.phase == "" then [] else ListOf(subscribers, "")
  }

  /** The two lists together hold each channel that wants the message, once. */
  lemma RecipientsAreListeners(subscribers: map<Phase, seq<ChanId>>, chans: Chans, m: Msg)
    requires Indexed(subscribers, chans)
    ensures Lists(Recipients(subscribers, m), chans, m)
    ensures Distinct(ListOf(subscribers, m.phase)) && Distinct(ListOf(subscribers, ""))
    ensures forall ch: ChanId :: ch in ListOf(subscribers, m.phase) || ch in ListOf(subscribers, "") ==> ch in chans
  {
    var own, all := ListOf(subscribers, m.phase), ListOf(subscribers, "");
    forall ch: ChanId
      ensures ch in own <==> Registered(chans, ch) && chans[ch].phase == m.phase
      ensures ch in all <==> Registered(chans, ch) && chans[ch].phase == ""
    {
      assert Listed(subscribers, m.phase, ch) <==> Registered(chans, ch) && chans[ch].phase == m.phase;
      assert Listed(subscribers, "", ch) <==> Registered(chans, ch) && chans[ch].phase == "";
    }
    if m.phase != "" {
      DistinctConcat(own, all);
    } else {
      assert own + [] == own;
    }
  }

  lemma DistinctConcat(a: seq<ChanId>, b: seq<ChanId>)
    requires Distinct(a) && Distinct(b) && forall x :: x in a ==> x !in b
    ensures Distinct(a + b)
  {
    var s := a + b;
    forall i, j | 0 <= i < j < |s| ensures s[i] != s[j] {
      if i < |a| <= j {
        assert s[i] in a && s[j] in b;
      }
    }
  }

  lemma SentToBoth(chans: Chans, a: seq<ChanId>, b: seq<ChanId>, n: nat)
    requires Distinct(a + b)
    ensures SentTo(SentTo(chans, a, n), b, n) == SentTo(chans, a + b, n)
  {
    forall i, j | 0 <= i < |a| && 0 <= j < |b| ensures a[i] != b[j] {
      assert (a + b)[i] == a[i] && (a + b)[|a| + j] == b[j];
    }
  }

  lemma IndexedStill(subscribers: map<Phase, seq<ChanId>>, chans: Chans, list: seq<ChanId>, n: nat)
    requires Indexed(subscribers, chans)
    ensures Indexed(subscribers, SentTo(chans, list, n))
  {
    assert forall ch :: Registered(SentTo(chans, list, n), ch) == Registered(chans, ch);
  }

  class Blackboard {
    var subscribers: map<Phase, seq<ChanId>>
    var chans: Chans
    var next: ChanId
    var count: nat
    ghost var cancelled: set<ChanId>
    ghost var leaving: set<ChanId>
    ghost var log: seq<Sent>
    ghost var senders: map<Sender, Sending>

    ghost predicate Valid()
      reads this
    {
      && count == |log| && Indexed(subscribers, chans)
      && (forall ch :: ch in chans ==> ch < next)
    }

    ghost function View(): State
      reads this
    {
      State(Board, chans, cancelled, leaving, log, senders)
    }

    constructor ()
      ensures Valid() && View() == Init(Board)
    {
      subscribers, chans, next, count := map[], map[], 0, 0;
      cancelled, leaving, log, senders := {}, {}, [], map[];
    }

    method Subscribe(phase: Phase) returns (ch: ChanId)
      requires Valid() && senders == map[]
      modifies this
      ensures Valid() && ch !in old(chans) && View() == Next(old(View()), Step.Subscribe(ch, phase))
    {
      ch := next;
      IndexedWith(subscribers, chans, phase, ch, count);
      next := next + 1;
      chans := chans[ch := NewChan(phase, count)];
      subscribers := subscribers[phase := ListOf(subscribers, phase) + [ch]];
    }

    /** The lock section run when the subscriber's context is done; the channel is closed after it. */
    method Cancel(ch: ChanId)
      requires Valid() && senders == map[] && ch in chans && ch !in cancelled
      modifies this
      ensures Valid() && View() == Next(old(View()), Step.Cancel(ch))
    {
      var phase := chans[ch].phase;
      IndexedWithout(subscribers, chans, ch, count);
      var rest := Splice(ListOf(subscribers, phase), ch);
      chans := Removed(chans, ch, count);
      subscribers := subscribers[phase := rest];
      cancelled, leaving := cancelled + {ch}, leaving + {ch};
    }

    method Close(ch: ChanId)
      requires Valid() && ch in chans && ch in leaving
      modifies this
      ensures Valid() && View() == Next(old(View()), CloseOwn(ch))
    {
      chans := chans[ch := chans[ch].Close()];
      leaving := leaving - {ch};
    }

    /** Other senders may be in the middle of theirs: the read lock lets them in. */
    method Notify(ghost t: Sender, m: Msg)
      requires Valid() && t !in senders
      modifies this
      ensures Valid() && After(old(View()), SendRun(t, m, Recipients(old(subscribers), m))) == Some(View())
    {
      RecipientsAreListeners(subscribers, chans, m);
      SendRunDispatches(View(), t, m, Recipients(subscribers, m));
      IndexedStill(subscribers, chans, Recipients(subscribers, m), count);
      ghost var was := chans;
      chans := SendTo(chans, ListOf(subscribers, m.phase), count);
      if m.phase != "" {
        SentToBoth(was, ListOf(subscribers, m.phase), ListOf(subscribers, ""), count);
        chans := SendTo(chans, ListOf(subscribers, ""), count);
      }
      assert m.phase == "" ==> ListOf(subscribers, m.phase) + [] == ListOf(subscribers, m.phase);
      log, count := log + [Sent(m, InFlight(senders))], count + 1;
    }
  }

  // ---------------------------------------------------------------- the SSE hub

  class SSEHub {
    var clients: set<ChanId>
    var chans: Chans
    var next: ChanId
    var count: nat
    ghost var cancelled: set<ChanId>
    ghost var leaving: set<ChanId>
    ghost var log: seq<Sent>
    ghost var senders: map<Sender, Sending>

    ghost predicate Valid()
      reads this
    {
      && count == |log| && (forall ch :: ch in clients <==> Registered(chans, ch))
      && (forall ch :: ch in chans ==> ch < next && chans[ch].phase == "")
    }

    ghost function View(): State
      reads this
    {
      State(Hub, chans, cancelled, leaving, log, senders)
    }

    constructor ()
      ensures Valid() && View() == Init(Hub)
    {
      clients, chans, next, count := {}, map[], 0, 0;
      cancelled, leaving, log, senders := {}, {}, [], map[];
    }

    method Register() returns (ch: ChanId)
      requires Valid() && senders == map[]
      modifies this
      ensures Valid() && ch !in old(chans) && View() == Next(old(View()), Step.Subscribe(ch, ""))
    {
      ch := next;
      next := next + 1;
      chans := chans[ch := NewChan("", count)];
      clients := clients + {ch};
    }

    /** The handler's deferred lock section; the handler closes the channel only if it was listed. */
    method Unregister(ch: ChanId) returns (listed: bool)
      requires Valid() && senders == map[] && ch in chans && ch !in cancelled
      modifies this
      ensures Valid() && View() == Next(old(View()), Step.Cancel(ch))
      ensures listed == Registered(old(chans), ch)
    {
      listed := ch in clients;
      clients := clients - {ch};
      chans := Removed(chans, ch, count);
      cancelled := cancelled + {ch};
      leaving := if listed then leaving + {ch} else leaving;
    }

    method Close(ch: ChanId)
      requires Valid() && ch in chans && ch in leaving
      modifies this
      ensures Valid() && View() == Next(old(View()), CloseOwn(ch))
    {
      chans := chans[ch := chans[ch].Close()];
      leaving := leaving - {ch};
    }

    method Stop()
      requires Valid() && senders == map[]
      modifies this
      ensures Valid() && View() == Next(old(View()), CloseAll)
    {
      ghost var was := chans;
      assert forall ch :: ch in clients <==> Registered(was, ch);
      while clients != {}
        invariant unchanged(`log) && unchanged(`count) && unchanged(`next) && unchanged(`senders)
        invariant unchanged(`cancelled) && unchanged(`leaving)
        invariant clients <= old(clients) && chans.Keys == was.Keys
        invariant forall ch :: ch in was ==>
                    chans[ch] == if ch in old(clients) - clients then was[ch].Remove(count).Close() else was[ch]
      {
        var ch :| ch in clients;
        chans := chans[ch := chans[ch].Remove(count).Close()];
        clients := clients - {ch};
      }
      assert old(clients) - clients == old(clients);
      assert chans == ClosedAll(was, count);
    }

    /** Ranges over the clients in some order; other senders may be in the middle of theirs. */
    method Broadcast(ghost t: Sender, m: Msg) returns (ghost order: seq<ChanId>)
      requires Valid() && t !in senders
      modifies this
      ensures Valid() && Lists(order, old(chans), m)
      ensures After(old(View()), SendRun(t, m, order)) == Some(View())
    {
      ghost var was := chans;
      assert forall ch :: ch in clients ==> Registered(was, ch);
      order := [];
      var todo := clients;
      while todo != {}
        invariant unchanged(`log) && unchanged(`count) && unchanged(`next) && unchanged(`senders)
        invariant unchanged(`clients) && unchanged(`cancelled) && unchanged(`leaving)
        invariant Distinct(order) && (forall ch :: ch in order <==> ch in clients - todo)
        invariant todo <= clients && chans == SentTo(was, order, count)
      {
        var ch :| ch in todo;
        var c := TrySend(chans[ch], count);
        assert ch !in order;
        chans := chans[ch := c];
        todo := todo - {ch};
        order := order + [ch];
      }
      SendRunDispatches(old(View()), t, m, order);
      log, count := log + [Sent(m, InFlight(senders))], count + 1;
    }
  }

  // ---------------------------------------------------------------- every interleaving

  predicate Among(offers: seq<Offer>, n: nat) {
    exists k :: 0 <= k < |offers| && offers[k].n == n
  }

  predicate WasOffered(c: Chan, n: nat) {
    Among(c.offers, n)
  }

  /** A sender has yet to offer message `n` to the channel. */
  predicate Pending(senders: map<Sender, Sending>, ch: ChanId, n: nat) {
    exists t :: t in senders && senders[t].n == n && ch in senders[t].todo
  }

  /** The channel wants message `n`, which was sent while it was subscribed. */
  predicate Due(s: State, c: Chan, n: nat) {
    c.from <= n < c.until.GetOr(|s.log|) && n < |s.log| && Wants(c.phase, s.log[n].msg)
  }

  /** Never sent to when closed, never closed twice, and holding what was offered, in this order, less
      what found the buffer full. */
  predicate Intact(s: State, c: Chan) {
    && c.closes <= 1 && c.late == 0
    && |c.buffer| <= CAPACITY
    && c.taken + c.buffer == Kept(c.offers)
    && c.from <= c.until.GetOr(|s.log|) <= |s.log|
    && (forall k :: 0 <= k < |c.offers| ==> c.offers[k].depth <= CAPACITY)
  }

  /** Offer `i` came before offer `j`: different messages, and the later one is the older only if it was
      still being sent when the other began. */
  predicate InOrder(log: seq<Sent>, i: nat, j: nat) {
    && i != j && i < |log|
    && (j < i ==> j in log[i].during)
  }

  /** Each message due is offered once, or some sender still has it for the channel. */
  ghost predicate Served(s: State, ch: ChanId)
    requires ch in s.chans
  {
    var c := s.chans[ch];
    && (forall i, j :: 0 <= i < j < |c.offers| ==> InOrder(s.log, c.offers[i].n, c.offers[j].n))
    && (forall n :: Due(s, c, n) <==> WasOffered(c, n) || Pending(s.senders, ch, n))
    && (forall n :: !(WasOffered(c, n) && Pending(s.senders, ch, n)))
  }

  /** A listed channel is open; one that its owner is about to close is open and no longer listed.
      Away from the daemon, a removed channel is closed or about to be. */
  ghost predicate Owned(s: State, ch: ChanId) {
    && (!s.kind.Board? && ch in s.chans ==> s.chans[ch].phase == "")
    && (!s.kind.Daemon? && ch in s.chans && s.chans[ch].until.Some? ==> s.chans[ch].closes == 1 || ch in s.leaving)
    && (Registered(s.chans, ch) ==> s.chans[ch].closes == 0)
    && (ch in s.leaving ==> ch in s.chans && s.chans[ch].until.Some? && s.chans[ch].closes == 0)
    && (s.kind.Board? && ch in s.chans && ch !in s.cancelled ==> s.chans[ch].until.None?)
  }

  ghost predicate Good(s: State, ch: ChanId) {
    Owned(s, ch) && (ch in s.chans ==> Intact(s, s.chans[ch]) && Served(s, ch))
  }

  /** Senders have different messages, known to all who began after them. */
  ghost predicate SendersNumbered(s: State) {
    && (forall t :: t in s.senders ==> s.senders[t].n < |s.log|)
    && (forall t, u :: t in s.senders && u in s.senders && s.senders[t].n == s.senders[u].n ==> t == u)
    && (forall t, k :: t in s.senders && s.senders[t].n < k < |s.log| ==> s.senders[t].n in s.log[k].during)
  }

  predicate Serving(senders: map<Sender, Sending>, t: Sender, ch: ChanId) {
    t in senders && ch in senders[t].todo
  }

  /** Senders serve listed channels only. */
  ghost predicate SendersHeard(s: State) {
    forall t, ch :: Serving(s.senders, t, ch) ==> Registered(s.chans, ch)
  }

  /** The daemon has at most one sender, and never had two. */
  ghost predicate DaemonAlone(s: State) {
    s.kind.Daemon? ==>
      && (forall t, u :: t in s.senders && u in s.senders ==> t == u)
      && (forall k :: 0 <= k < |s.log| ==> s.log[k].during == {})
  }

  ghost predicate SendersKnown(s: State) {
    SendersNumbered(s) && SendersHeard(s) && DaemonAlone(s)
  }

  ghost predicate Inv(s: State) {
    SendersKnown(s) && forall ch :: Good(s, ch)
  }

  lemma BeginNumbers(s: State, t: Sender, m: Msg)
    requires SendersNumbered(s) && Enabled(s, BeginSend(t, m))
    ensures SendersNumbered(Next(s, BeginSend(t, m)))
  {
    assert forall u :: u in s.senders ==> s.senders[u].n in InFlight(s.senders);
  }

  lemma NumberedNext(s: State, step: Step)
    requires SendersNumbered(s) && Enabled(s, step)
    ensures SendersNumbered(Next(s, step))
  {
    if step.BeginSend? {
      BeginNumbers(s, step.t, step.m);
    } else {
      var s' := Next(s, step);
      assert s'.log == s.log;
      assert forall t :: t in s'.senders ==> t in s.senders && s'.senders[t].n == s.senders[t].n;
      hide Next, Enabled;
    }
  }

  lemma HeardNext(s: State, step: Step)
    requires SendersHeard(s) && Enabled(s, step)
    ensures SendersHeard(Next(s, step))
  {
    var s' := Next(s, step);
    forall t, ch | Serving(s'.senders, t, ch) ensures Registered(s'.chans, ch) {
      assert Serving(s.senders, t, ch) || (step.BeginSend? && ch in Listeners(s.chans, step.m));
    }
  }

  lemma AloneNext(s: State, step: Step)
    requires DaemonAlone(s) && Enabled(s, step)
    ensures DaemonAlone(Next(s, step))
  {
    assert s.senders == map[] ==> InFlight(s.senders) == {};
  }

  lemma SendersKnownNext(s: State, step: Step)
    requires SendersKnown(s) && Enabled(s, step)
    ensures SendersKnown(Next(s, step))
  {
    NumberedNext(s, step);
    HeardNext(s, step);
    AloneNext(s, step);
  }

  lemma OwnedNext(s: State, step: Step, ch: ChanId)
    requires Owned(s, ch) && Enabled(s, step)
    ensures Owned(Next(s, step), ch)
  {
  }

  // ---------------------------------------------------------------- each channel stays intact

  lemma SendIsIntact(s: State, c: Chan, n: nat)
    requires Intact(s, c) && c.closes == 0
    ensures Intact(s, c.Send(n))
  {
    assert (c.offers + [Offer(n, |c.buffer|)])[..|c.offers|] == c.offers;
    assert c.taken + (c.buffer + [n]) == (c.taken + c.buffer) + [n];
  }

  lemma TakeIsIntact(s: State, c: Chan)
    requires Intact(s, c) && c.buffer != []
    ensures Intact(s, c.Take())
  {
    assert (c.taken + [c.buffer[0]]) + c.buffer[1..] == c.taken + c.buffer;
  }

  lemma IntactNext(s: State, step: Step, ch: ChanId)
    requires Enabled(s, step) && SendersKnown(s) && Owned(s, ch)
    requires ch in s.chans && Intact(s, s.chans[ch])
    ensures Intact(Next(s, step), Next(s, step).chans[ch])
  {
    var c := s.chans[ch];
    match step
    case SendOne(t, x) =>
      assert Serving(s.senders, t, x) && Registered(s.chans, x);
      if x == ch {
        SendIsIntact(s, c, s.senders[t].n);
      }
    case Take(x) =>
      if x == ch {
        TakeIsIntact(s, c);
      }
    case CloseAll => assert Registered(s.chans, ch) ==> c.closes == 0;
    case _ => hide Kept;
  }

  // ---------------------------------------------------------------- each channel is served

  lemma PendingBegin(s: State, t: Sender, m: Msg, ch: ChanId, n: nat)
    requires Enabled(s, BeginSend(t, m)) && SendersKnown(s)
    ensures Pending(Next(s, BeginSend(t, m)).senders, ch, n) <==>
              Pending(s.senders, ch, n) || (n == |s.log| && ch in Listeners(s.chans, m))
  {
    var after := Next(s, BeginSend(t, m)).senders;
    if u :| u in s.senders && s.senders[u].n == n && ch in s.senders[u].todo {
      assert u in after && after[u] == s.senders[u];
    }
    if n == |s.log| && ch in Listeners(s.chans, m) {
      assert t in after && after[t].n == n && ch in after[t].todo;
    }
  }

  lemma BeginServes(s: State, t: Sender, m: Msg, ch: ChanId)
    requires Enabled(s, BeginSend(t, m)) && SendersKnown(s) && ch in s.chans && Served(s, ch)
    requires Intact(s, s.chans[ch])
    ensures Served(Next(s, BeginSend(t, m)), ch)
  {
    var s', c := Next(s, BeginSend(t, m)), s.chans[ch];
    forall n {
      PendingBegin(s, t, m, ch, n);
    }
    hide Pending;
    forall n ensures Due(s', c, n) <==> Due(s, c, n) || (n == |s.log| && ch in Listeners(s.chans, m)) {
    }
    assert forall n :: WasOffered(c, n) ==> Due(s, c, n);
    forall i, j | 0 <= i < j < |c.offers| ensures InOrder(s'.log, c.offers[i].n, c.offers[j].n) {
      assert InOrder(s.log, c.offers[i].n, c.offers[j].n);
    }
  }

  lemma PendingSend(s: State, t: Sender, x: ChanId, ch: ChanId, n: nat)
    requires Enabled(s, SendOne(t, x)) && SendersKnown(s)
    ensures Pending(Next(s, SendOne(t, x)).senders, ch, n) <==>
              Pending(s.senders, ch, n) && !(ch == x && n == s.senders[t].n)
  {
    var after := Next(s, SendOne(t, x)).senders;
    if u :| u in s.senders && s.senders[u].n == n && ch in s.senders[u].todo && !(ch == x && n == s.senders[t].n) {
      assert u in after && after[u].n == n && ch in after[u].todo;
    }
  }

  lemma SendServes(s: State, t: Sender, x: ChanId, ch: ChanId)
    requires Enabled(s, SendOne(t, x)) && SendersKnown(s) && ch in s.chans && Served(s, ch)
    ensures Served(Next(s, SendOne(t, x)), ch)
  {
    var s', c, m := Next(s, SendOne(t, x)), s.chans[ch], s.senders[t].n;
    var c' := s'.chans[ch];
    assert Pending(s.senders, x, m);
    forall n {
      PendingSend(s, t, x, ch, n);
    }
    forall n ensures WasOffered(c', n) <==> WasOffered(c, n) || (ch == x && n == m) {
      OfferedAfterSend(c, m, n);
    }
    hide Pending, WasOffered;
    assert forall n :: Due(s', c', n) == Due(s, c, n);
    forall i, j | 0 <= i < j < |c'.offers| ensures InOrder(s'.log, c'.offers[i].n, c'.offers[j].n) {
      if j < |c.offers| {
        assert InOrder(s.log, c.offers[i].n, c.offers[j].n);
      } else {
        OfferedAt(c, i);
        assert Due(s, c, c.offers[i].n);
      }
    }
  }

  lemma OfferedAt(c: Chan, i: nat)
    requires i < |c.offers|
    ensures WasOffered(c, c.offers[i].n)
  {
  }

  lemma OfferedAfterSend(c: Chan, m: nat, n: nat)
    ensures WasOffered(c.Send(m), n) <==> WasOffered(c, n) || n == m
  {
    var after := c.Send(m).offers;
    assert after[|c.offers|].n == m;
    if k :| 0 <= k < |c.offers| && c.offers[k].n == n {
      assert after[k].n == n;
    }
  }

  lemma EndServes(s: State, t: Sender, ch: ChanId)
    requires Enabled(s, EndSend(t)) && ch in s.chans && Served(s, ch)
    ensures Served(Next(s, EndSend(t)), ch)
  {
    var s', c := Next(s, EndSend(t)), s.chans[ch];
    forall n ensures Pending(s'.senders, ch, n) <==> Pending(s.senders, ch, n) {
      if u :| u in s.senders && s.senders[u].n == n && ch in s.senders[u].todo {
        assert u in s'.senders && s'.senders[u] == s.senders[u];
      }
    }
    hide Pending, WasOffered;
    assert forall n :: Due(s', c, n) == Due(s, c, n);
  }

  /** A step that sends nothing: the channel may be received from, removed or closed. */
  lemma QuietServes(s: State, step: Step, ch: ChanId)
    requires Enabled(s, step) && ch in s.chans && Intact(s, s.chans[ch]) && Served(s, ch)
    requires !step.BeginSend? && !step.SendOne? && !step.EndSend?
    ensures Served(Next(s, step), ch)
  {
    var s', c := Next(s, step), s.chans[ch];
    var c' := s'.chans[ch];
    assert s'.log == s.log && s'.senders == s.senders && c'.offers == c.offers;
    assert forall n :: WasOffered(c', n) == WasOffered(c, n);
    assert forall n :: Due(s', c', n) == Due(s, c, n);
    hide Pending, WasOffered, Due, Next;
  }

  lemma FreshIsGood(s: State, ch: ChanId, phase: Phase)
    requires Enabled(s, Subscribe(ch, phase)) && Owned(s, ch)
    ensures Good(Next(s, Subscribe(ch, phase)), ch)
  {
    var s' := Next(s, Subscribe(ch, phase));
    assert forall n :: !WasOffered(s'.chans[ch], n) && !Pending(s'.senders, ch, n) && !Due(s', s'.chans[ch], n);
  }

  /** Every step keeps every channel good. */
  lemma GoodNext(s: State, step: Step, ch: ChanId)
    requires SendersKnown(s) && Good(s, ch) && Enabled(s, step)
    ensures Good(Next(s, step), ch)
  {
    OwnedNext(s, step, ch);
    if ch in s.chans {
      IntactNext(s, step, ch);
      hide Intact, Served, Owned, SendersKnown;
      match step
      case BeginSend(t, m) => BeginServes(s, t, m, ch);
      case SendOne(t, x) => SendServes(s, t, x, ch);
      case EndSend(t) => EndServes(s, t, ch);
      case _ => QuietServes(s, step, ch);
    } else if step.Subscribe? && step.ch == ch {
      FreshIsGood(s, ch, step.phase);
    }
  }

  lemma InvNext(s: State, step: Step)
    requires Inv(s) && Enabled(s, step)
    ensures Inv(Next(s, step))
  {
    hide Good, SendersKnown;
    SendersKnownNext(s, step);
    forall ch ensures Good(Next(s, step), ch) {
      GoodNext(s, step, ch);
    }
  }

  lemma EveryRunKeeps(kind: Kind, run: seq<Step>)
    requires After(Init(kind), run).Some?
    ensures Inv(After(Init(kind), run).value)
  {
    forall u, step | Inv(u) && Try(u, step).Some? ensures Inv(Try(u, step).value) {
      InvNext(u, step);
    }
    Runs.Keeps(Try, Inv, Init(kind), run);
  }

  // ---------------------------------------------------------------- what subscribers are promised

  lemma {:induction false} KeptWithoutDrops(offers: seq<Offer>)
    requires forall k :: 0 <= k < |offers| ==> offers[k].depth < CAPACITY
    ensures |Kept(offers)| == |offers| && forall k :: 0 <= k < |offers| ==> Kept(offers)[k] == offers[k].n
  {
    if offers == [] {
    } else {
      KeptWithoutDrops(offers[..|offers| - 1]);
    }
  }

  /** Message `n` was sent while the channel was subscribed, to all phases or to that of the channel. */
  predicate Owed(s: State, c: Chan, n: nat) {
    && c.from <= n < |s.log| && (c.until.Some? ==> n < c.until.value)
    && (c.phase == "" || c.phase == s.log[n].msg.phase)
  }

  /** Whatever the interleaving of senders, receivers, departures and shutdown: a channel is never sent to
      once closed and never closed twice. It is offered each message it wants that was sent while it was
      subscribed, once, unless that is still being sent, and nothing else. An older message comes after a
      newer one only if it was still being sent when that began. What is received, and what waits to be,
      is what was offered, less the messages that found 64 others waiting. */
  lemma SafeAndFaithful(kind: Kind, run: seq<Step>, ch: ChanId)
    requires After(Init(kind), run).Some? && ch in After(Init(kind), run).value.chans
    ensures var s := After(Init(kind), run).value;
      var c := s.chans[ch];
      && c.late == 0 && c.closes <= 1
      && (!s.kind.Daemon? ==> (c.closes == 1 <==> c.until.Some? && ch !in s.leaving))
      && (forall n :: WasOffered(c, n) ==> Owed(s, c, n))
      && (forall n :: Owed(s, c, n) && n !in InFlight(s.senders) ==> WasOffered(c, n))
      && (forall i, j :: 0 <= i < j < |c.offers| ==> InOrder(s.log, c.offers[i].n, c.offers[j].n))
      && c.taken + c.buffer == Kept(c.offers)
      && ((forall k :: 0 <= k < |c.offers| ==> c.offers[k].depth < 64) ==>
            c.taken + c.buffer == seq(|c.offers|, k requires 0 <= k < |c.offers| => c.offers[k].n))
  {
    EveryRunKeeps(kind, run);
    var s := After(Init(kind), run).value;
    assert Good(s, ch);
    var c := s.chans[ch];
    forall n | Pending(s.senders, ch, n) ensures n in InFlight(s.senders) {
    }
    if forall k :: 0 <= k < |c.offers| ==> c.offers[k].depth < 64 {
      KeptWithoutDrops(c.offers);
    }
  }

  /** A strictly increasing list of exactly the numbers from `lo` to `hi` runs through them. */
  lemma {:induction false} RunsThrough(offers: seq<Offer>, lo: nat, hi: nat)
    requires lo <= hi && forall i, j :: 0 <= i < j < |offers| ==> offers[i].n < offers[j].n
    requires forall n: nat :: Among(offers, n) <==> lo <= n < hi
    ensures |offers| == hi - lo && forall k :: 0 <= k < |offers| ==> offers[k].n == lo + k
  {
    if offers == [] {
      assert !Among(offers, lo);
    } else {
      var front, last := offers[..|offers| - 1], offers[|offers| - 1].n;
      assert Among(offers, last) && Among(offers, hi - 1);
      var p :| 0 <= p < |offers| && offers[p].n == hi - 1;
      assert last == hi - 1;
      forall n: nat ensures Among(front, n) <==> lo <= n < hi - 1 {
        if Among(offers, n) && n < hi - 1 {
          var k :| 0 <= k < |offers| && offers[k].n == n;
          assert front[k].n == n;
        }
        if k :| 0 <= k < |front| && front[k].n == n {
          assert offers[k].n == n < last;
        }
      }
      RunsThrough(front, lo, hi - 1);
    }
  }

  /** Between the daemon's sends a subscriber has been offered exactly the messages since it subscribed,
      each in its place. */
  lemma DaemonDeliversInOrder(run: seq<Step>, ch: ChanId)
    requires After(Init(Daemon), run).Some? && ch in After(Init(Daemon), run).value.chans
    requires After(Init(Daemon), run).value.senders == map[]
    ensures var s := After(Init(Daemon), run).value;
      var c := s.chans[ch];
      && c.from <= c.until.GetOr(|s.log|) <= |s.log|
      && |c.offers| == c.until.GetOr(|s.log|) - c.from
      && forall k :: 0 <= k < |c.offers| ==> c.offers[k].n == c.from + k
  {
    EveryRunKeeps(Daemon, run);
    KindStays(Daemon, run);
    var s := After(Init(Daemon), run).value;
    assert Good(s, ch);
    var c := s.chans[ch];
    forall i, j | 0 <= i < j < |c.offers| ensures c.offers[i].n < c.offers[j].n {
      assert InOrder(s.log, c.offers[i].n, c.offers[j].n);
    }
    forall n: nat ensures Among(c.offers, n) <==> c.from <= n < c.until.GetOr(|s.log|) {
      assert Due(s, c, n) <==> WasOffered(c, n) || Pending(s.senders, ch, n);
    }
    RunsThrough(c.offers, c.from, c.until.GetOr(|s.log|));
  }

  lemma KindStays(kind: Kind, run: seq<Step>)
    requires After(Init(kind), run).Some?
    ensures After(Init(kind), run).value.kind == kind
  {
    Runs.Keeps(Try, (s: State) => s.kind == kind, Init(kind), run);
  }

  function TwoBegin(a: Msg, b: Msg): seq<Step> {
    [Subscribe(0, ""), Subscribe(1, ""), BeginSend(0, a), BeginSend(1, b)]
  }

  const CROSSWISE := [SendOne(0, 0), SendOne(1, 0), SendOne(1, 1), SendOne(0, 1), EndSend(0), EndSend(1)]

  function TwoClients(a: Msg, b: Msg, c0: Chan, c1: Chan, senders: map<Sender, Sending>): State {
    State(Hub, map[0 := c0, 1 := c1], {}, {}, [Sent(a, {}), Sent(b, {0})], senders)
  }

  function Holding(offers: seq<Offer>): Chan {
    var held := seq(|offers|, k requires 0 <= k < |offers| => offers[k].n);
    Chan("", 0, None, held, [], offers, 0, 0)
  }

  function Both(x: set<ChanId>, y: set<ChanId>): map<Sender, Sending> {
    map[0 := Sending(0, x), 1 := Sending(1, y)]
  }

  lemma TwoHaveBegun(a: Msg, b: Msg)
    ensures After(Init(Hub), TwoBegin(a, b))
         == Some(TwoClients(a, b, NewChan("", 0), NewChan("", 0), Both({0, 1}, {0, 1})))
  {
    var c := NewChan("", 0);
    var s0 := Init(Hub);
    var s1 := Next(s0, Subscribe(0, ""));
    var s2 := Next(s1, Subscribe(1, ""));
    assert s2.chans == map[0 := c, 1 := c];
    assert Listeners(s2.chans, a) == {0, 1} == Listeners(s2.chans, b) && InFlight(s2.senders) == {};
    var s3 := Next(s2, BeginSend(0, a));
    assert InFlight(s3.senders) == {0};
    var s4 := Next(s3, BeginSend(1, b));
    assert s4.senders == Both({0, 1}, {0, 1}) && s4.log == [Sent(a, {}), Sent(b, {0})];
    Runs.Through(Try, [s0, s1, s2, s3, s4], TwoBegin(a, b));
  }

  lemma ServeFirst(a: Msg, b: Msg, c0: Chan, c1: Chan, senders: map<Sender, Sending>, t: Sender)
    requires t in senders && 0 in senders[t].todo
    ensures var Sending(n, todo) := senders[t];
      Try(TwoClients(a, b, c0, c1, senders), SendOne(t, 0))
      == Some(TwoClients(a, b, c0.Send(n), c1, senders[t := Sending(n, todo - {0})]))
  {
    assert map[0 := c0, 1 := c1][0 := c0.Send(senders[t].n)] == map[0 := c0.Send(senders[t].n), 1 := c1];
  }

  lemma ServeSecond(a: Msg, b: Msg, c0: Chan, c1: Chan, senders: map<Sender, Sending>, t: Sender)
    requires t in senders && 1 in senders[t].todo
    ensures var Sending(n, todo) := senders[t];
      Try(TwoClients(a, b, c0, c1, senders), SendOne(t, 1))
      == Some(TwoClients(a, b, c0, c1.Send(n), senders[t := Sending(n, todo - {1})]))
  {
    assert map[0 := c0, 1 := c1][1 := c1.Send(senders[t].n)] == map[0 := c0, 1 := c1.Send(senders[t].n)];
  }

  lemma HoldingMore()
    ensures NewChan("", 0).Send(0) == Holding([Offer(0, 0)]) && NewChan("", 0).Send(1) == Holding([Offer(1, 0)])
    ensures Holding([Offer(0, 0)]).Send(1) == Holding([Offer(0, 0), Offer(1, 1)])
    ensures Holding([Offer(1, 0)]).Send(0) == Holding([Offer(1, 0), Offer(0, 1)])
  {
  }

  lemma TheyCross(a: Msg, b: Msg)
    ensures After(TwoClients(a, b, NewChan("", 0), NewChan("", 0), Both({0, 1}, {0, 1})), CROSSWISE)
         == Some(TwoClients(a, b, Holding([Offer(0, 0), Offer(1, 1)]), Holding([Offer(1, 0), Offer(0, 1)]), map[]))
  {
    hide Holding, NewChan, Chan.Send, Try, TwoClients;
    var c, x, y := NewChan("", 0), Holding([Offer(0, 0)]), Holding([Offer(1, 0)]);
    var xy, yx := Holding([Offer(0, 0), Offer(1, 1)]), Holding([Offer(1, 0), Offer(0, 1)]);
    HoldingMore();
    var none: set<ChanId> := {};
    assert {0, 1} - {0} == {1} && {1} - {1} == none;
    ServeFirst(a, b, c, c, Both({0, 1}, {0, 1}), 0);
    assert Both({0, 1}, {0, 1})[0 := Sending(0, {1})] == Both({1}, {0, 1});
    ServeFirst(a, b, x, c, Both({1}, {0, 1}), 1);
    assert Both({1}, {0, 1})[1 := Sending(1, {1})] == Both({1}, {1});
    ServeSecond(a, b, xy, c, Both({1}, {1}), 1);
    assert Both({1}, {1})[1 := Sending(1, {})] == Both({1}, {});
    ServeSecond(a, b, xy, y, Both({1}, {}), 0);
    assert Both({1}, {})[0 := Sending(0, {})] == Both({}, {});
    BothEnd(a, b, xy, yx);
    Runs.Through(Try, [TwoClients(a, b, c, c, Both({0, 1}, {0, 1})), TwoClients(a, b, x, c, Both({1}, {0, 1})),
                       TwoClients(a, b, xy, c, Both({1}, {1})), TwoClients(a, b, xy, y, Both({1}, {})),
                       TwoClients(a, b, xy, yx, Both({}, {})), TwoClients(a, b, xy, yx, map[1 := Sending(1, {})]),
                       TwoClients(a, b, xy, yx, map[])], CROSSWISE);
  }

  lemma BothEnd(a: Msg, b: Msg, c0: Chan, c1: Chan)
    ensures Try(TwoClients(a, b, c0, c1, Both({}, {})), EndSend(0))
         == Some(TwoClients(a, b, c0, c1, map[1 := Sending(1, {})]))
    ensures Try(TwoClients(a, b, c0, c1, map[1 := Sending(1, {})]), EndSend(1)) == Some(TwoClients(a, b, c0, c1, map[]))
  {
    assert Both({}, {}) - {0} == map[1 := Sending(1, {})];
    assert map[1 := Sending(1, {})] - {1} == map[];
  }

  /** Two broadcasts under the shared lock can overtake each other: one client gets the second first. */
  lemma ClientsCanDisagree(a: Msg, b: Msg)
    ensures var end := After(Init(Hub), TwoBegin(a, b) + CROSSWISE);
      && end.Some? && end.value.senders == map[] && 0 in end.value.chans && 1 in end.value.chans
      && end.value.chans[0].buffer == [0, 1] && end.value.chans[1].buffer == [1, 0]
  {
    TwoHaveBegun(a, b);
    TheyCross(a, b);
    Runs.AfterConcat(Try, Init(Hub), TwoBegin(a, b), CROSSWISE);
  }
}

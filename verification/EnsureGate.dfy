/** One container per project: the in-flight gate around EnsureContainer
    (orchestrator/container_manager.go). */
module EnsureGate {
  import opened Text
  import Runs

  type Project = string
  type Container = string

  /** A channel is named by the order of its creation. */
  type Channel = nat
  type Caller = nat

  // ---------------------------------------------------------------- what the mutex protects

  /** `closed` counts how often each channel was closed. */
  datatype Shared = Shared(
    containers: map<Project, Container>, inFlight: map<Project, Channel>, closed: multiset<Channel>, next: Channel)

  /** The first lock section of `beginEnsure`: register a channel unless one is there. */
  function Register(s: Shared, p: Project): Shared {
    if p in s.inFlight then s else s.(inFlight := s.inFlight[p := s.next], next := s.next + 1)
  }

  /** The lock section of `done`. */
  function Release(s: Shared, p: Project, ch: Channel): Shared {
    if p in s.inFlight && s.inFlight[p] == ch
    then s.(inFlight := s.inFlight - {p}, closed := s.closed + multiset{ch})
    else s
  }

  /** Drop a container that is gone, unless another one has taken its place. */
  function Evict(s: Shared, p: Project, cid: Container): Shared {
    if p in s.containers && s.containers[p] == cid then s.(containers := s.containers - {p}) else s
  }

  class ContainerManager {
    var containers: map<Project, Container>
    var ensureInFlight: map<Project, Channel>
    ghost var closed: multiset<Channel>
    var nextChannel: Channel

    ghost function State(): Shared
      reads this
    {
      Shared(containers, ensureInFlight, closed, nextChannel)
    }

    constructor (running: map<Project, Container>)
      ensures State() == Shared(running, map[], multiset{}, 0)
    {
      containers, ensureInFlight, closed, nextChannel := running, map[], multiset{}, 0;
    }

    /** The channel to wait on, or the caller's own. */
    method TryBegin(p: Project) returns (mine: bool, ch: Channel)
      modifies this
      ensures State() == Register(old(State()), p)
      ensures mine == (p !in old(ensureInFlight)) && p in ensureInFlight && ch == ensureInFlight[p]
    {
      if p in ensureInFlight {
        return false, ensureInFlight[p];
      }
      ch := nextChannel;
      nextChannel := nextChannel + 1;
      ensureInFlight := ensureInFlight[p := ch];
      mine := true;
    }

    method Done(p: Project, ch: Channel)
      modifies this
      ensures State() == Release(old(State()), p, ch)
    {
      if p in ensureInFlight && ensureInFlight[p] == ch {
        ensureInFlight := ensureInFlight - {p};
        closed := closed + multiset{ch};
      }
    }

    method Forget(p: Project, cid: Container)
      modifies this
      ensures State() == Evict(old(State()), p, cid)
    {
      if p in containers && containers[p] == cid {
        containers := containers - {p};
      }
    }

    method Remember(p: Project, cid: Container)
      modifies this
      ensures State() == old(State()).(containers := old(containers)[p := cid])
    {
      containers := containers[p := cid];
    }

    /** The lock section of StopContainer and RemoveContainer. */
    method Take(p: Project) returns (cid: Option<Container>)
      modifies this
      ensures State() == old(State()).(containers := old(containers) - {p})
      ensures cid == if p in old(containers) then Some(old(containers)[p]) else None
    {
      if p in containers {
        cid := Some(containers[p]);
        containers := containers - {p};
      } else {
        cid := None;
      }
    }
  }

  // ---------------------------------------------------------------- callers

  datatype Result = Id(cid: Container) | Error

  /** Where a caller of EnsureContainer stands; from Checking to Leaving it is inside the section. */
  datatype Local =
    | Idle
    | Trying(p: Project)
    | Waiting(p: Project, ch: Channel)
    | Checking(p: Project, ch: Channel)
    | Inspecting(p: Project, ch: Channel, cid: Container)
    | Evicting(p: Project, ch: Channel, cid: Container)
    | Creating(p: Project, ch: Channel)
    | Storing(p: Project, ch: Channel, cid: Container)
    | Leaving(p: Project, ch: Channel, result: Result)

  predicate Inside(l: Local) {
    l.Checking? || l.Inspecting? || l.Evicting? || l.Creating? || l.Storing? || l.Leaving?
  }

  /** `up` are the containers that really run; `created` and `results` record, per project, the
      successful creations and the results returned. */
  datatype State = State(
    shared: Shared, up: set<Container>, locals: map<Caller, Local>,
    created: seq<(Project, Container)>, results: seq<(Project, Result)>)
  {
    function At(t: Caller): Local {
      if t in locals then locals[t] else Idle
    }

    function Go(t: Caller, l: Local): State {
      this.(locals := locals[t := l])
    }
  }

  /** A manager that starts with these containers cached, while those of `up` run. */
  function Init(running: map<Project, Container>, up: set<Container>): State {
    State(Shared(running, map[], multiset{}, 0), up, map[], [], [])
  }

  /** What an inspection comes back with; one that errs says nothing about the container. */
  datatype Finding = Up | Down | Erred

  /** One atomic step: of a caller, or of someone who drops a container from the cache or stops one. */
  datatype Step =
    | Call(t: Caller, p: Project)
    | Begin(t: Caller)
    | Wake(t: Caller)
    | Cancel(t: Caller)
    | ReadCache(t: Caller)
    | Inspect(t: Caller, finding: Finding)
    | Drop(t: Caller)
    | Create(t: Caller, outcome: Result)
    | Store(t: Caller)
    | Leave(t: Caller)
    | Remove(p: Project)
    | Stop(cid: Container)

  /** No caller's step. */
  predicate External(step: Step) {
    step.Remove? || step.Stop?
  }

  predicate Enabled(s: State, step: Step) {
    match step
    case Call(t, _) => s.At(t).Idle?
    case Begin(t) => s.At(t).Trying?
    case Wake(t) => s.At(t).Waiting? && s.At(t).ch in s.shared.closed
    case Cancel(t) => s.At(t).Waiting?
    case ReadCache(t) => s.At(t).Checking?
    case Inspect(t, finding) =>
      s.At(t).Inspecting? && (finding.Up? ==> s.At(t).cid in s.up) && (finding.Down? ==> s.At(t).cid !in s.up)
    case Drop(t) => s.At(t).Evicting?
    case Create(t, _) => s.At(t).Creating?
    case Store(t) => s.At(t).Storing?
    case Leave(t) => s.At(t).Leaving?
    case Remove(_) => true
    case Stop(_) => true
  }

  function Next(s: State, step: Step): State
    requires Enabled(s, step)
  {
    match step
    case Call(t, p) => s.Go(t, Trying(p))
    case Begin(t) =>
      var p := s.At(t).p;
      var s' := s.(shared := Register(s.shared, p));
      if p in s.shared.inFlight then s'.Go(t, Waiting(p, s.shared.inFlight[p]))
      else s'.Go(t, Checking(p, s.shared.next))
    case Wake(t) => s.Go(t, Trying(s.At(t).p))
    case Cancel(t) => s.(results := s.results + [(s.At(t).p, Error)]).Go(t, Idle)
    case ReadCache(t) =>
      var Checking(p, ch) := s.At(t);
      s.Go(t, if p in s.shared.containers then Inspecting(p, ch, s.shared.containers[p]) else Creating(p, ch))
    case Inspect(t, finding) =>
      var Inspecting(p, ch, cid) := s.At(t);
      s.Go(t, if finding.Up? then Leaving(p, ch, Id(cid)) else Evicting(p, ch, cid))
    case Drop(t) =>
      var Evicting(p, ch, cid) := s.At(t);
      s.(shared := Evict(s.shared, p, cid)).Go(t, Creating(p, ch))
    case Create(t, outcome) =>
      var Creating(p, ch) := s.At(t);
      if outcome.Id?
      then s.(up := s.up + {outcome.cid}, created := s.created + [(p, outcome.cid)]).Go(t, Storing(p, ch, outcome.cid))
      else s.Go(t, Leaving(p, ch, Error))
    case Store(t) =>
      var Storing(p, ch, cid) := s.At(t);
      s.(shared := s.shared.(containers := s.shared.containers[p := cid])).Go(t, Leaving(p, ch, Id(cid)))
    case Leave(t) =>
      var Leaving(p, ch, result) := s.At(t);
      s.(shared := Release(s.shared, p, ch), results := s.results + [(p, result)]).Go(t, Idle)
    case Remove(p) => s.(shared := s.shared.(containers := s.shared.containers - {p}))
    case Stop(cid) => s.(up := s.up - {cid})
  }

  function Try(s: State, step: Step): Option<State> {
    if Enabled(s, step) then Some(Next(s, step)) else None
  }

  /** The state after a run, if each of its steps was enabled in turn. */
  function After(s: State, run: seq<Step>): Option<State> {
    Runs.After(Try, s, run)
  }

  // ---------------------------------------------------------------- what every interleaving keeps

  /** The registered channel of a caller inside is its own, and no one else's. */
  ghost predicate SectionsOwned(s: State) {
    && (forall t :: Inside(s.At(t)) ==> Registered(s.shared, s.At(t).p, s.At(t).ch))
    && (forall t, u :: Inside(s.At(t)) && Inside(s.At(u)) && s.At(t).p == s.At(u).p ==> t == u)
  }

  predicate Registered(s: Shared, p: Project, ch: Channel) {
    p in s.inFlight && s.inFlight[p] == ch
  }

  predicate Holds(s: State, t: Caller, p: Project) {
    Inside(s.At(t)) && s.At(t).p == p
  }

  ghost predicate Held(s: State, p: Project) {
    exists t :: Holds(s, t, p)
  }

  /** A registered channel is open, belongs to one project, and some caller inside holds it. */
  ghost predicate ChannelsHeld(s: State) {
    && (forall p, ch: Channel :: Registered(s.shared, p, ch) ==>
          ch < s.shared.next && ch !in s.shared.closed && Held(s, p))
    && (forall p, q, ch: Channel :: Registered(s.shared, p, ch) && Registered(s.shared, q, ch) ==> p == q)
  }

  /** Channels close at most once, and a waiter's channel is closed or registered for its project. */
  ghost predicate WaitersCovered(s: State) {
    && (forall ch :: s.shared.closed[ch] <= 1)
    && (forall ch :: ch in s.shared.closed ==> ch < s.shared.next)
    && (forall t :: s.At(t).Waiting? ==>
          s.At(t).ch in s.shared.closed || Registered(s.shared, s.At(t).p, s.At(t).ch))
  }

  ghost predicate Inv(s: State) {
    SectionsOwned(s) && ChannelsHeld(s) && WaitersCovered(s)
  }

  /** A step that neither enters nor leaves a section and touches no channel. */
  ghost predicate Quiet(s: State, s': State, t: Caller) {
    && s'.shared.inFlight == s.shared.inFlight && s'.shared.closed == s.shared.closed
    && s'.shared.next == s.shared.next
    && (forall u :: u != t ==> s'.At(u) == s.At(u))
    && Inside(s'.At(t)) == Inside(s.At(t))
    && (s'.At(t).Waiting? ==> Registered(s.shared, s'.At(t).p, s'.At(t).ch))
    && (Inside(s.At(t)) ==> s'.At(t).p == s.At(t).p && s'.At(t).ch == s.At(t).ch)
  }

  lemma QuietKeeps(s: State, s': State, t: Caller)
    requires Inv(s) && Quiet(s, s', t)
    ensures Inv(s')
  {
    assert forall p, ch: Channel :: Registered(s'.shared, p, ch) == Registered(s.shared, p, ch);
    assert forall u :: Inside(s'.At(u)) == Inside(s.At(u));
    assert forall u :: Inside(s.At(u)) ==> s'.At(u).p == s.At(u).p && s'.At(u).ch == s.At(u).ch;
    forall p | Held(s, p) ensures Held(s', p) {
      var u :| Holds(s, u, p);
      assert Holds(s', u, p);
    }
  }

  lemma EnterKeeps(s: State, t: Caller)
    requires Inv(s) && Enabled(s, Begin(t)) && s.At(t).p !in s.shared.inFlight
    ensures Inv(Next(s, Begin(t)))
  {
    var p, ch := s.At(t).p, s.shared.next;
    var s' := Next(s, Begin(t));
    assert s'.At(t) == Checking(p, ch) && s'.shared.closed == s.shared.closed && s'.shared.next == ch + 1;
    assert forall u :: u != t ==> s'.At(u) == s.At(u);
    assert forall q, c: Channel ::
        Registered(s'.shared, q, c) == (Registered(s.shared, q, c) || (q == p && c == ch));
    hide Next, Enabled, State.At, Registered;
    forall q | Held(s, q) ensures Held(s', q) {
      var u :| Holds(s, u, q);
      assert Holds(s', u, q);
    }
    assert Holds(s', t, p);
  }

  lemma LeaveKeeps(s: State, t: Caller)
    requires Inv(s) && Enabled(s, Leave(t))
    ensures Inv(Next(s, Leave(t)))
  {
    var Leaving(p, ch, _) := s.At(t);
    var s' := Next(s, Leave(t));
    assert Inside(s.At(t)) && Registered(s.shared, p, ch);
    assert forall u :: u != t ==> s'.At(u) == s.At(u);
    assert forall q, c: Channel :: Registered(s'.shared, q, c) == (q != p && Registered(s.shared, q, c));
    assert forall c :: s'.shared.closed[c] == s.shared.closed[c] + (if c == ch then 1 else 0);
    forall q | q != p && Held(s, q) ensures Held(s', q) {
      var u :| Holds(s, u, q);
      assert Holds(s', u, q);
    }
  }

  lemma InvNext(s: State, step: Step)
    requires Inv(s) && Enabled(s, step)
    ensures Inv(Next(s, step))
  {
    hide Inv;
    match step
    case Begin(t) =>
      if s.At(t).p in s.shared.inFlight {
        QuietKeeps(s, Next(s, step), t);
      } else {
        EnterKeeps(s, t);
      }
    case Leave(t) => LeaveKeeps(s, t);
    case Remove(_) => ExternalKeeps(s, step);
    case Stop(_) => ExternalKeeps(s, step);
    case _ => QuietKeeps(s, Next(s, step), step.t);
  }

  lemma ExternalKeeps(s: State, step: Step)
    requires Inv(s) && External(step)
    ensures Inv(Next(s, step))
  {
    var s' := Next(s, step);
    assert forall u :: s'.At(u) == s.At(u);
    assert forall q, ch: Channel :: Registered(s'.shared, q, ch) == Registered(s.shared, q, ch);
    forall q | Held(s, q) ensures Held(s', q) {
      var u :| Holds(s, u, q);
      assert Holds(s', u, q);
    }
  }

  /** Every state a run reaches from a fresh manager keeps the invariant. */
  lemma EveryRunKeeps(running: map<Project, Container>, up: set<Container>, run: seq<Step>)
    requires After(Init(running, up), run).Some?
    ensures Inv(After(Init(running, up), run).value)
  {
    forall u, step | Inv(u) && Try(u, step).Some? ensures Inv(Try(u, step).value) {
      InvNext(u, step);
    }
    Runs.Keeps(Try, Inv, Init(running, up), run);
  }

  ghost predicate Reachable(s: State) {
    exists running, up, run :: After(Init(running, up), run) == Some(s)
  }

  lemma ReachableKeeps(s: State)
    requires Reachable(s)
    ensures Inv(s)
  {
    var running, up, run :| After(Init(running, up), run) == Some(s);
    EveryRunKeeps(running, up, run);
  }

  // ---------------------------------------------------------------- the gate's promises

  /** In every reachable state: one caller inside per project, no channel closed twice, none lost. */
  lemma GateIsSafe(s: State)
    requires Reachable(s)
    ensures forall t, u :: Inside(s.At(t)) && Inside(s.At(u)) && s.At(t).p == s.At(u).p ==> t == u
    ensures forall ch :: s.shared.closed[ch] <= 1
    ensures forall t :: s.At(t).Waiting? && s.At(t).ch !in s.shared.closed ==>
                          Registered(s.shared, s.At(t).p, s.At(t).ch)
  {
    ReachableKeeps(s);
  }

  /** How many more of its own steps a caller inside may take before it leaves. */
  function StepsLeft(l: Local): nat
    requires Inside(l)
  {
    match l
    case Checking(_, _) => 5
    case Inspecting(_, _, _) => 4
    case Evicting(_, _, _) => 3
    case Creating(_, _) => 2
    case Storing(_, _, _) => 1
    case Leaving(_, _, _) => 0
  }

  /** A step that a caller inside can take, whatever the container service answers. */
  function Advance(t: Caller, l: Local): (step: Step)
    requires Inside(l)
  {
    match l
    case Checking(_, _) => ReadCache(t)
    case Inspecting(_, _, _) => Inspect(t, Erred)
    case Evicting(_, _, _) => Drop(t)
    case Creating(_, _) => Create(t, Error)
    case Storing(_, _, _) => Store(t)
    case Leaving(_, _, _) => Leave(t)
  }

  /** A caller inside is never stuck; each of its own steps brings it nearer to leaving, and leaving
      closes its channel. Nobody else's step moves it. */
  lemma HolderMovesOn(s: State, t: Caller, step: Step)
    requires Inv(s) && Inside(s.At(t)) && Enabled(s, step)
    ensures Enabled(s, Advance(t, s.At(t)))
    ensures External(step) || step.t != t ==> Next(s, step).At(t) == s.At(t)
    ensures step == Leave(t) ==> s.At(t).ch in Next(s, step).shared.closed
    ensures !External(step) && step.t == t && !step.Leave? ==>
              && Inside(Next(s, step).At(t)) && StepsLeft(Next(s, step).At(t)) < StepsLeft(s.At(t))
              && Next(s, step).At(t).ch == s.At(t).ch
  {
    assert Registered(s.shared, s.At(t).p, s.At(t).ch);
  }

  /** No deadlock: from any reachable state a waiter is freed by at most six steps of one other caller. */
  lemma WaiterIsFreed(s: State, t: Caller) returns (holder: Caller, run: seq<Step>)
    requires Reachable(s) && s.At(t).Waiting?
    ensures |run| <= 6 && forall k :: 0 <= k < |run| ==> !External(run[k]) && run[k].t == holder != t
    ensures After(s, run).Some? && Enabled(After(s, run).value, Wake(t))
  {
    ReachableKeeps(s);
    var p, ch := s.At(t).p, s.At(t).ch;
    if ch in s.shared.closed {
      return t + 1, [];
    }
    assert Registered(s.shared, p, ch);
    holder :| Holds(s, holder, p);
    run := HolderLeaves(s, holder, t);
  }

  lemma {:induction false} HolderLeaves(s: State, u: Caller, t: Caller) returns (run: seq<Step>)
    requires Inv(s) && Inside(s.At(u)) && s.At(t).Waiting? && s.At(t).ch == s.At(u).ch
    ensures |run| <= StepsLeft(s.At(u)) + 1 && forall k :: 0 <= k < |run| ==> !External(run[k]) && run[k].t == u != t
    ensures After(s, run).Some? && Enabled(After(s, run).value, Wake(t))
    decreases StepsLeft(s.At(u))
  {
    var step := Advance(u, s.At(u));
    HolderMovesOn(s, u, step);
    var s' := Next(s, step);
    assert s'.At(t) == s.At(t);
    var rest := [];
    if step.Leave? {
    } else {
      InvNext(s, step);
      rest := HolderLeaves(s', u, t);
    }
    run := [step] + rest;
    Runs.AfterOne(Try, s, step);
    Runs.AfterConcat(Try, s, [step], rest);
  }

  // ---------------------------------------------------------------- one container per project

  function CreatedFor(created: seq<(Project, Container)>, p: Project): seq<Container> {
    if created == [] then []
    else
      var rest := CreatedFor(created[..|created| - 1], p);
      if created[|created| - 1].0 == p then rest + [created[|created| - 1].1] else rest
  }

  /** The container that `p` is entitled to: the one running at first, or else the one created since. */
  function Home(running: map<Project, Container>, s: State, p: Project): Option<Container> {
    if p in running then Some(running[p])
    else if CreatedFor(s.created, p) != [] then Some(CreatedFor(s.created, p)[0])
    else None
  }

  /** Nothing happens to the container of `p`: no one drops it from the cache or stops it, and no
      inspection of it errs. */
  predicate Steady(running: map<Project, Container>, s: State, step: Step, p: Project) {
    match step
    case Remove(q) => q != p
    case Stop(cid) => Home(running, s, p) != Some(cid)
    case Inspect(t, finding) => !finding.Erred? || !Inside(s.At(t)) || s.At(t).p != p
    case _ => true
  }

  predicate SteadyRun(running: map<Project, Container>, s: State, run: seq<Step>, p: Project) {
    run == [] || (
      && SteadyRun(running, s, run[..|run| - 1], p)
      && (After(s, run[..|run| - 1]).Some? ==> Steady(running, After(s, run[..|run| - 1]).value, run[|run| - 1], p)))
  }

  /** What a caller inside knows about the container of its project. */
  predicate Knows(l: Local, home: Option<Container>, cached: Option<Container>) {
    match l
    case Inspecting(_, _, cid) => cached == Some(cid)
    case Evicting(_, _, _) => false
    case Creating(_, _) => home == None
    case Storing(_, _, cid) => home == Some(cid)
    case Leaving(_, _, Id(cid)) => home == Some(cid)
    case Leaving(_, _, Error) => home == None
    case _ => true
  }

  function Cached(s: State, p: Project): Option<Container> {
    if p in s.shared.containers then Some(s.shared.containers[p]) else None
  }

  predicate Storer(s: State, t: Caller, p: Project) {
    s.At(t).Storing? && s.At(t).p == p
  }

  ghost predicate Single(running: map<Project, Container>, s: State, p: Project) {
    var home := Home(running, s, p);
    && |CreatedFor(s.created, p)| <= (if p in running then 0 else 1)
    && (forall t :: Holds(s, t, p) ==> Knows(s.At(t), home, Cached(s, p)))
    && (home.Some? ==> home.value in s.up)
    && (Cached(s, p).Some? ==> Cached(s, p) == home)
    && (home.Some? && Cached(s, p).None? ==> exists t :: Storer(s, t, p))
    && (forall k :: 0 <= k < |s.results| && s.results[k].0 == p && s.results[k].1.Id? ==>
          home == Some(s.results[k].1.cid))
  }

  lemma CreatedApart(s: State, step: Step, p: Project)
    requires Enabled(s, step)
    requires !External(step) ==> !Holds(s, step.t, p)
    ensures CreatedFor(Next(s, step).created, p) == CreatedFor(s.created, p)
  {
    var s' := Next(s, step);
    assert s'.created != s.created ==> s'.created[..|s'.created| - 1] == s.created;
  }

  lemma OthersApart(s: State, step: Step, p: Project)
    requires SectionsOwned(s) && Enabled(s, step)
    requires step.Remove? ==> step.p != p
    requires !External(step) ==> !Holds(s, step.t, p)
    ensures CreatedFor(Next(s, step).created, p) == CreatedFor(s.created, p)
    ensures Cached(Next(s, step), p) == Cached(s, p)
    ensures forall t :: Holds(Next(s, step), t, p) ==> Next(s, step).At(t) == s.At(t) || Next(s, step).At(t).Checking?
    ensures forall t :: Storer(s, t, p) ==> Storer(Next(s, step), t, p)
    ensures forall cid :: cid in s.up && step != Stop(cid) ==> cid in Next(s, step).up
    ensures s.results <= Next(s, step).results
    ensures forall k :: |s.results| <= k < |Next(s, step).results| && Next(s, step).results[k].0 == p ==>
                          Next(s, step).results[k].1.Error?
  {
    hide CreatedFor, SectionsOwned;
    CreatedApart(s, step, p);
    var s' := Next(s, step);
    forall t | Storer(s, t, p) ensures Storer(s', t, p) {
      assert Holds(s, t, p);
    }
  }

  /** A step of a caller that is not inside for `p` leaves the container of `p` alone. */
  lemma OthersLeaveAlone(running: map<Project, Container>, s: State, step: Step, p: Project)
    requires SectionsOwned(s) && Single(running, s, p) && Enabled(s, step) && Steady(running, s, step, p)
    requires !External(step) ==> !Holds(s, step.t, p)
    ensures Single(running, Next(s, step), p)
  {
    hide SectionsOwned, CreatedFor, Next, Enabled, Cached, Storer, State.At;
    OthersApart(s, step, p);
    var s' := Next(s, step);
    forall t | Holds(s', t, p) ensures Knows(s'.At(t), Home(running, s', p), Cached(s', p)) {
      assert s'.At(t).Checking? || Holds(s, t, p);
    }
  }

  /** A step of the one caller inside for `p`. */
  lemma HolderStaysSingle(running: map<Project, Container>, s: State, step: Step, p: Project)
    requires Inv(s) && Single(running, s, p) && Enabled(s, step) && Steady(running, s, step, p)
    requires !External(step) && Holds(s, step.t, p)
    ensures Single(running, Next(s, step), p)
  {
    hide CreatedFor;
    var t, s' := step.t, Next(s, step);
    forall u | Holds(s', u, p) ensures u == t {
      assert u != t ==> Holds(s, u, p);
    }
    forall u | Storer(s, u, p) ensures u == t {
      assert Holds(s, u, p);
    }
    hide Inv;
    if step.Create? && step.outcome.Id? {
      CreatedHere(s, step);
    }
    if s'.At(t).Storing? {
      assert Storer(s', t, p);
    }
  }

  lemma CreatedHere(s: State, step: Step)
    requires Enabled(s, step) && step.Create? && step.outcome.Id?
    ensures var p := s.At(step.t).p;
      CreatedFor(Next(s, step).created, p) == CreatedFor(s.created, p) + [step.outcome.cid]
  {
    var s' := Next(s, step);
    assert s'.created[..|s'.created| - 1] == s.created;
  }

  lemma SingleNext(running: map<Project, Container>, s: State, step: Step, p: Project)
    requires Inv(s) && Single(running, s, p) && Enabled(s, step) && Steady(running, s, step, p)
    ensures Single(running, Next(s, step), p)
  {
    hide Single;
    if !External(step) && Holds(s, step.t, p) {
      HolderStaysSingle(running, s, step, p);
    } else {
      OthersLeaveAlone(running, s, step, p);
    }
  }

  lemma {:induction false} SteadyKeeps(running: map<Project, Container>, up: set<Container>, run: seq<Step>, p: Project)
    requires After(Init(running, up), run).Some? && SteadyRun(running, Init(running, up), run, p)
    requires p in running ==> running[p] in up
    ensures Single(running, After(Init(running, up), run).value, p)
  {
    if run == [] {
    } else {
      var before := run[..|run| - 1];
      SteadyKeeps(running, up, before, p);
      EveryRunKeeps(running, up, before);
      SingleNext(running, After(Init(running, up), before).value, run[|run| - 1], p);
    }
  }

  /** While nothing happens to a project's container and every inspection of it gets an answer,
      overlapping calls create at most one, none if one was running, and every call that succeeds
      returns that container, which is still up. */
  lemma OneContainer(running: map<Project, Container>, up: set<Container>, run: seq<Step>, p: Project)
    requires After(Init(running, up), run).Some? && SteadyRun(running, Init(running, up), run, p)
    requires p in running ==> running[p] in up
    ensures var s := After(Init(running, up), run).value;
      && |CreatedFor(s.created, p)| <= (if p in running then 0 else 1)
      && forall k :: 0 <= k < |s.results| && s.results[k].0 == p && s.results[k].1.Id? ==>
           && s.results[k].1.cid in s.up
           && if p in running then s.results[k].1.cid == running[p]
              else CreatedFor(s.created, p) == [s.results[k].1.cid]
  {
    SteadyKeeps(running, up, run, p);
  }

  /** One caller, inside for `p` on channel 0. */
  function Lone(containers: map<Project, Container>, up: set<Container>, p: Project, l: Local,
                created: seq<(Project, Container)>): State {
    State(Shared(containers, map[p := 0], multiset{}, 1), up, map[0 := l], created, [])
  }

  const ENTERS := [Begin(0), ReadCache(0), Inspect(0, Erred)]

  lemma InspectionErrs(p: Project, c: Container)
    ensures After(Init(map[p := c], {c}), [Call(0, p)] + ENTERS)
         == Some(Lone(map[p := c], {c}, p, Evicting(p, 0, c), []))
  {
    var s0 := Init(map[p := c], {c});
    var s1 := Next(s0, Call(0, p));
    assert s1.locals == map[0 := Trying(p)];
    var s2 := Lone(map[p := c], {c}, p, Checking(p, 0), []);
    assert Next(s1, Begin(0)).locals == s2.locals;
    var s3 := Lone(map[p := c], {c}, p, Inspecting(p, 0, c), []);
    assert Next(s2, ReadCache(0)).locals == s3.locals;
    var s4 := Lone(map[p := c], {c}, p, Evicting(p, 0, c), []);
    assert Next(s3, Inspect(0, Erred)).locals == s4.locals;
    Runs.Through(Try, [s0, s1, s2, s3, s4], [Call(0, p)] + ENTERS);
  }

  function Replaces(d: Container): seq<Step> {
    [Drop(0), Create(0, Id(d)), Store(0), Leave(0)]
  }

  lemma AnotherIsCreated(p: Project, c: Container, d: Container)
    ensures Try(Lone(map[p := c], {c}, p, Evicting(p, 0, c), []), Drop(0))
         == Some(Lone(map[], {c}, p, Creating(p, 0), []))
    ensures Try(Lone(map[], {c}, p, Creating(p, 0), []), Create(0, Id(d)))
         == Some(Lone(map[], {c, d}, p, Storing(p, 0, d), [(p, d)]))
  {
    var dropped := Next(Lone(map[p := c], {c}, p, Evicting(p, 0, c), []), Drop(0));
    assert dropped.locals == map[0 := Creating(p, 0)] && dropped.shared.containers == map[];
    var created := Next(Lone(map[], {c}, p, Creating(p, 0), []), Create(0, Id(d)));
    assert created.locals == map[0 := Storing(p, 0, d)] && created.up == {c, d} && created.created == [(p, d)];
  }

  /** What is left when `d` has been stored in place of `c`. */
  function Replaced(p: Project, c: Container, d: Container): State {
    State(Shared(map[p := d], map[], multiset{0}, 1), {c, d}, map[0 := Idle], [(p, d)], [(p, Id(d))])
  }

  lemma AnotherIsStored(p: Project, c: Container, d: Container)
    ensures Try(Lone(map[], {c, d}, p, Storing(p, 0, d), [(p, d)]), Store(0))
         == Some(Lone(map[p := d], {c, d}, p, Leaving(p, 0, Id(d)), [(p, d)]))
    ensures Try(Lone(map[p := d], {c, d}, p, Leaving(p, 0, Id(d)), [(p, d)]), Leave(0)) == Some(Replaced(p, c, d))
  {
    var stored := Next(Lone(map[], {c, d}, p, Storing(p, 0, d), [(p, d)]), Store(0));
    assert stored.locals == map[0 := Leaving(p, 0, Id(d))] && stored.shared.containers == map[p := d];
    var left := Next(Lone(map[p := d], {c, d}, p, Leaving(p, 0, Id(d)), [(p, d)]), Leave(0));
    assert left.locals == map[0 := Idle] && left.shared.inFlight == map[] && left.results == [(p, Id(d))];
    assert left.shared.closed == multiset{0};
  }

  lemma ContainerIsReplaced(p: Project, c: Container, d: Container)
    ensures After(Lone(map[p := c], {c}, p, Evicting(p, 0, c), []), Replaces(d)) == Some(Replaced(p, c, d))
  {
    AnotherIsCreated(p, c, d);
    AnotherIsStored(p, c, d);
    hide Try, Lone, Replaced;
    Runs.Through(Try, [Lone(map[p := c], {c}, p, Evicting(p, 0, c), []), Lone(map[], {c}, p, Creating(p, 0), []),
                       Lone(map[], {c, d}, p, Storing(p, 0, d), [(p, d)]),
                       Lone(map[p := d], {c, d}, p, Leaving(p, 0, Id(d)), [(p, d)]), Replaced(p, c, d)], Replaces(d));
  }

  /** An inspection that errs, on a cancelled context say, is taken for a container that is gone: the
      cached one, though up, is replaced by another. */
  lemma ErringInspectionEvicts(p: Project, c: Container, d: Container)
    ensures var end := After(Init(map[p := c], {c}), [Call(0, p)] + ENTERS + Replaces(d));
      && end.Some? && c in end.value.up && d in end.value.up
      && end.value.shared.containers == map[p := d] && end.value.results == [(p, Id(d))]
  {
    InspectionErrs(p, c);
    ContainerIsReplaced(p, c, d);
    Runs.AfterConcat(Try, Init(map[p := c], {c}), [Call(0, p)] + ENTERS, Replaces(d));
  }
}

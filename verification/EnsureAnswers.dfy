/** What a call of EnsureContainer answers, and why. */
module EnsureAnswers {
  import opened EnsureGate
  import opened Text
  import Runs

  // ---------------------------------------------------------------- why an answer is given

  /** The steps of `t` since it was last called, that call included. */
  function Trail(run: seq<Step>, t: Caller): seq<Step> {
    if run == [] then []
    else
      var before, step := Trail(run[..|run| - 1], t), run[|run| - 1];
      if External(step) || step.t != t then before
      else if step.Call? then [step]
      else before + [step]
  }

  function LastOf(trail: seq<Step>): Step
    requires trail != []
  {
    trail[|trail| - 1]
  }

  /** The last thing `t` did is a creation that failed. */
  predicate JustFailed(trail: seq<Step>, t: Caller) {
    trail != [] && LastOf(trail) == Create(t, Error)
  }

  /** The last thing `t` did is to store `cid`, which it had created. */
  predicate JustStored(trail: seq<Step>, t: Caller, cid: Container) {
    |trail| >= 2 && LastOf(trail) == Store(t) && trail[|trail| - 2] == Create(t, Id(cid))
  }

  predicate JustFound(trail: seq<Step>, t: Caller) {
    trail != [] && LastOf(trail) == Inspect(t, Up)
  }

  /** How the place of a caller goes with what it has done. */
  predicate Explained(l: Local, trail: seq<Step>, t: Caller) {
    && (!l.Idle? ==> trail != [] && trail[0] == Call(t, l.p))
    && (l.Storing? ==> LastOf(trail) == Create(t, Id(l.cid)))
    && (l.Leaving? && l.result.Error? ==> JustFailed(trail, t))
    && (l.Leaving? && l.result.Id? ==> JustFound(trail, t) || JustStored(trail, t, l.result.cid))
  }

  ghost predicate AllExplained(s: State, run: seq<Step>) {
    forall t :: Explained(s.At(t), Trail(run, t), t)
  }

  lemma TrailNext(run: seq<Step>, step: Step, t: Caller)
    ensures Trail(run + [step], t) ==
      if External(step) || step.t != t then Trail(run, t)
      else if step.Call? then [step]
      else Trail(run, t) + [step]
  {
    assert (run + [step])[..|run|] == run;
  }

  lemma ExplainedNext(s: State, run: seq<Step>, step: Step, t: Caller)
    requires Enabled(s, step) && Explained(s.At(t), Trail(run, t), t)
    ensures Explained(Next(s, step).At(t), Trail(run + [step], t), t)
  {
    hide Trail;
    TrailNext(run, step, t);
  }

  lemma {:induction false} EveryRunExplained(running: map<Project, Container>, up: set<Container>, run: seq<Step>)
    requires After(Init(running, up), run).Some?
    ensures AllExplained(After(Init(running, up), run).value, run)
  {
    hide Explained, Next, Enabled;
    if run == [] {
      NoneExplained(running, up);
    } else {
      var before, step := run[..|run| - 1], run[|run| - 1];
      EveryRunExplained(running, up, before);
      var s := After(Init(running, up), before).value;
      assert run == before + [step];
      forall t ensures Explained(After(Init(running, up), run).value.At(t), Trail(run, t), t) {
        ExplainedNext(s, before, step, t);
      }
    }
  }

  lemma NoneExplained(running: map<Project, Container>, up: set<Container>)
    ensures AllExplained(Init(running, up), [])
  {
  }

  /** In every interleaving, an answer is given where a waiter is cancelled, and that is an error, or
      where a caller leaves: with an error exactly if its own creation has just failed, and with a
      container if it has just found that one up, or has just created and stored it. It is an answer
      for the project the caller was called for. */
  lemma AnswersExplained(running: map<Project, Container>, up: set<Container>, run: seq<Step>, step: Step)
    requires After(Init(running, up), run).Some? && Enabled(After(Init(running, up), run).value, step)
    ensures var s := After(Init(running, up), run).value;
      var results := Next(s, step).results;
      if step.Cancel? then
        var trail := Trail(run, step.t);
        trail != [] && trail[0].Call? && results == s.results + [(trail[0].p, Error)]
      else if step.Leave? then
        var trail := Trail(run, step.t);
        && trail != [] && trail[0].Call? && |results| == |s.results| + 1 && results[..|s.results|] == s.results
        && results[|s.results|].0 == trail[0].p
        && var answer := results[|s.results|].1;
           && (answer.Error? <==> JustFailed(trail, step.t))
           && (answer.Id? ==> JustFound(trail, step.t) || JustStored(trail, step.t, answer.cid))
      else results == s.results
  {
    hide Trail;
    EveryRunExplained(running, up, run);
    var s := After(Init(running, up), run).value;
    if step.Leave? || step.Cancel? {
      assert Explained(s.At(step.t), Trail(run, step.t), step.t);
    }
  }

  // ---------------------------------------------------------------- a container that is well

  /** While nothing happens to a container that is cached and up, and its inspections get answers, every
      caller that leaves answers with it, and none is created. */
  lemma HealthyIsReturned(running: map<Project, Container>, up: set<Container>, run: seq<Step>, t: Caller, p: Project)
    requires After(Init(running, up), run).Some? && SteadyRun(running, Init(running, up), run, p)
    requires p in running && running[p] in up
    requires var s := After(Init(running, up), run).value;
      Enabled(s, Leave(t)) && s.At(t).p == p
    ensures var s := After(Init(running, up), run).value;
      && Next(s, Leave(t)).results == s.results + [(p, Id(running[p]))]
      && CreatedFor(s.created, p) == []
      && p in s.shared.containers && s.shared.containers[p] == running[p] && running[p] in s.up
  {
    SteadyKeeps(running, up, run, p);
    var s := After(Init(running, up), run).value;
    assert Holds(s, t, p);
    if Cached(s, p).None? {
      var u :| Storer(s, u, p);
      EveryRunKeeps(running, up, run);
      assert Holds(s, u, p);
    }
  }

  // ---------------------------------------------------------------- a call that runs alone

  /** The caller stands at `l`, inside on a new channel. */
  function InsideAt(s: State, t: Caller, p: Project, l: Local): State {
    s.(shared := s.shared.(inFlight := s.shared.inFlight[p := s.shared.next], next := s.shared.next + 1),
       locals := s.locals[t := l])
  }

  /** No one is inside for the project, and the caller is free. */
  predicate Free(s: State, t: Caller, p: Project) {
    s.At(t).Idle? && p !in s.shared.inFlight
  }

  /** The call has answered; its channel is closed and no longer registered. */
  function Answered(s: State, t: Caller, p: Project, answer: Result): State {
    s.(shared := s.shared.(next := s.shared.next + 1, closed := s.shared.closed + multiset{s.shared.next}),
       locals := s.locals[t := Idle], results := s.results + [(p, answer)])
  }

  lemma Enters(s: State, t: Caller, p: Project)
    requires Free(s, t, p)
    ensures After(s, [Call(t, p), Begin(t), ReadCache(t)]) ==
      Some(InsideAt(s, t, p, if p in s.shared.containers
                             then Inspecting(p, s.shared.next, s.shared.containers[p])
                             else Creating(p, s.shared.next)))
  {
    var s1 := Next(s, Call(t, p));
    var s2 := Next(s1, Begin(t));
    var s3 := Next(s2, ReadCache(t));
    assert s.locals[t := Trying(p)][t := s2.At(t)][t := s3.At(t)] == s.locals[t := s3.At(t)];
    Runs.Through(Try, [s, s1, s2, s3], [Call(t, p), Begin(t), ReadCache(t)]);
  }

  lemma Leaves(s: State, t: Caller, p: Project, answer: Result)
    requires Free(s, t, p)
    ensures Try(InsideAt(s, t, p, Leaving(p, s.shared.next, answer)), Leave(t)) == Some(Answered(s, t, p, answer))
  {
    var left := Next(InsideAt(s, t, p, Leaving(p, s.shared.next, answer)), Leave(t));
    assert s.shared.inFlight[p := s.shared.next] - {p} == s.shared.inFlight;
    assert s.locals[t := Leaving(p, s.shared.next, answer)][t := Idle] == s.locals[t := Idle];
  }

  /** A call that finds its project's container up answers with it and changes nothing else. */
  lemma FoundUp(s: State, t: Caller, p: Project)
    requires Free(s, t, p) && p in s.shared.containers && s.shared.containers[p] in s.up
    ensures After(s, [Call(t, p), Begin(t), ReadCache(t), Inspect(t, Up), Leave(t)])
         == Some(Answered(s, t, p, Id(s.shared.containers[p])))
  {
    hide Answered;
    var ch, cid := s.shared.next, s.shared.containers[p];
    var read, found := InsideAt(s, t, p, Inspecting(p, ch, cid)), InsideAt(s, t, p, Leaving(p, ch, Id(cid)));
    Enters(s, t, p);
    assert Try(read, Inspect(t, Up)) == Some(found) by {
      assert read.locals[t := Leaving(p, ch, Id(cid))] == found.locals;
    }
    Leaves(s, t, p, Id(cid));
    hide Try, InsideAt, Free;
    Runs.AfterThen(Try, s, [Call(t, p), Begin(t), ReadCache(t)], Inspect(t, Up));
    Runs.AfterThen(Try, s, [Call(t, p), Begin(t), ReadCache(t)] + [Inspect(t, Up)], Leave(t));
    assert [Call(t, p), Begin(t), ReadCache(t)] + [Inspect(t, Up)] + [Leave(t)]
        == [Call(t, p), Begin(t), ReadCache(t), Inspect(t, Up), Leave(t)];
  }

  /** The state with nothing cached for the project. */
  function Without(s: State, p: Project): State {
    s.(shared := s.shared.(containers := s.shared.containers - {p}))
  }

  /** The state once `cid` has been created and cached for the project. */
  function With(s: State, p: Project, cid: Container): State {
    s.(shared := s.shared.(containers := s.shared.containers[p := cid]), up := s.up + {cid},
       created := s.created + [(p, cid)])
  }

  /** How a call gets to the point of creating a container: it finds none, or one that is not up. */
  function Finds(s: State, t: Caller, p: Project, finding: Finding): seq<Step> {
    [Call(t, p), Begin(t), ReadCache(t)] + if p in s.shared.containers then [Inspect(t, finding), Drop(t)] else []
  }

  lemma Creates(s: State, t: Caller, p: Project, finding: Finding)
    requires Free(s, t, p) && !finding.Up?
    requires finding.Down? && p in s.shared.containers ==> s.shared.containers[p] !in s.up
    ensures After(s, Finds(s, t, p, finding)) == Some(InsideAt(Without(s, p), t, p, Creating(p, s.shared.next)))
  {
    Enters(s, t, p);
    var ch := s.shared.next;
    var start := [Call(t, p), Begin(t), ReadCache(t)];
    if p in s.shared.containers {
      var cid := s.shared.containers[p];
      var read, gone := InsideAt(s, t, p, Inspecting(p, ch, cid)), InsideAt(s, t, p, Evicting(p, ch, cid));
      var bare := InsideAt(Without(s, p), t, p, Creating(p, ch));
      assert Try(read, Inspect(t, finding)) == Some(gone) by {
        assert read.locals[t := Evicting(p, ch, cid)] == gone.locals;
      }
      assert Try(gone, Drop(t)) == Some(bare) by {
        assert gone.locals[t := Creating(p, ch)] == bare.locals;
      }
      hide Try, InsideAt, Without;
      Runs.AfterThen(Try, s, start, Inspect(t, finding));
      Runs.AfterThen(Try, s, start + [Inspect(t, finding)], Drop(t));
      assert start + [Inspect(t, finding)] + [Drop(t)] == Finds(s, t, p, finding);
    } else {
      assert s.shared.containers - {p} == s.shared.containers;
      assert start + [] == start;
    }
  }

  /** A call that finds none, or one that is not up or whose inspection errs, creates one: if that works,
      it is cached and is the answer; if not, the answer is an error, and nothing is cached. */
  lemma FoundNone(s: State, t: Caller, p: Project, finding: Finding, cid: Container)
    requires Free(s, t, p) && !finding.Up?
    requires finding.Down? && p in s.shared.containers ==> s.shared.containers[p] !in s.up
    ensures After(s, Finds(s, t, p, finding) + [Create(t, Error), Leave(t)])
         == Some(Answered(Without(s, p), t, p, Error))
    ensures After(s, Finds(s, t, p, finding) + [Create(t, Id(cid)), Store(t), Leave(t)])
         == Some(Answered(With(s, p, cid), t, p, Id(cid)))
  {
    Creates(s, t, p, finding);
    CreationFails(Without(s, p), t, p);
    CreationWorks(Without(s, p), t, p, cid);
    assert With(Without(s, p), p, cid) == With(s, p, cid) by {
      assert (s.shared.containers - {p})[p := cid] == s.shared.containers[p := cid];
    }
    hide Try, InsideAt, Without, With, Answered, Free;
    Runs.AfterConcat(Try, s, Finds(s, t, p, finding), [Create(t, Error), Leave(t)]);
    Runs.AfterConcat(Try, s, Finds(s, t, p, finding), [Create(t, Id(cid)), Store(t), Leave(t)]);
  }

  lemma CreationFails(s: State, t: Caller, p: Project)
    requires Free(s, t, p)
    ensures After(InsideAt(s, t, p, Creating(p, s.shared.next)), [Create(t, Error), Leave(t)])
         == Some(Answered(s, t, p, Error))
  {
    var ch := s.shared.next;
    var bare, failed := InsideAt(s, t, p, Creating(p, ch)), InsideAt(s, t, p, Leaving(p, ch, Error));
    assert Try(bare, Create(t, Error)) == Some(failed) by {
      assert bare.locals[t := Leaving(p, ch, Error)] == failed.locals;
    }
    Leaves(s, t, p, Error);
    hide Try, InsideAt, Answered;
    Runs.Through(Try, [bare, failed, Answered(s, t, p, Error)], [Create(t, Error), Leave(t)]);
  }

  lemma CreationWorks(s: State, t: Caller, p: Project, cid: Container)
    requires Free(s, t, p)
    ensures After(InsideAt(s, t, p, Creating(p, s.shared.next)), [Create(t, Id(cid)), Store(t), Leave(t)])
         == Some(Answered(With(s, p, cid), t, p, Id(cid)))
  {
    var ch := s.shared.next;
    var bare := InsideAt(s, t, p, Creating(p, ch));
    var made := Next(bare, Create(t, Id(cid)));
    var done := InsideAt(With(s, p, cid), t, p, Leaving(p, ch, Id(cid)));
    assert Try(made, Store(t)) == Some(done) by {
      assert Next(made, Store(t)).locals == done.locals;
    }
    Leaves(With(s, p, cid), t, p, Id(cid));
    var answered := Answered(With(s, p, cid), t, p, Id(cid));
    assert Try(bare, Create(t, Id(cid))) == Some(made);
    hide Try, InsideAt, Answered, With, Next;
    Runs.Through(Try, [bare, made, done, answered], [Create(t, Id(cid)), Store(t), Leave(t)]);
  }

  /** A caller that has begun has no choice but the answers of the container service. */
  lemma StepsAreForced(s: State, a: Step, b: Step)
    requires Enabled(s, a) && Enabled(s, b) && !External(a) && !External(b) && a.t == b.t
    requires !s.At(a.t).Idle? && !s.At(a.t).Waiting?
    ensures a == b || (a.Create? && b.Create?)
            || (a.Inspect? && b.Inspect? && (a.finding.Erred? || b.finding.Erred?))
  {
  }
}

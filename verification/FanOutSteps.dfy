/** What the single steps of a fan-out do to a channel. */
module FanOutSteps {
  import opened FanOut
  import opened Text
  import Runs

  /** The channel is subscribed and holds nothing yet. */
  predicate IsNew(chans: Chans, ch: ChanId, phase: Phase, now: nat) {
    && ch in chans && chans[ch].until.None? && chans[ch].phase == phase && chans[ch].from == now
    && chans[ch].buffer == [] && chans[ch].taken == [] && chans[ch].offers == [] && chans[ch].closes == 0
  }

  /** The same channel, but for being subscribed, and for how often it was closed. */
  predicate SameContents(c: Chan, d: Chan) {
    && c.phase == d.phase && c.from == d.from && c.late == d.late
    && c.buffer == d.buffer && c.taken == d.taken && c.offers == d.offers
  }

  ghost predicate OthersSame(a: Chans, b: Chans, ch: ChanId) {
    forall x :: x != ch ==> (x in a <==> x in b) && (x in a ==> a[x] == b[x])
  }

  /** Joining, leaving and closing. */
  lemma ListStepsMean(s: State, step: Step)
    requires Enabled(s, step)
    ensures var chans, after := s.chans, Next(s, step).chans;
      && (step.Subscribe? ==> IsNew(after, step.ch, step.phase, |s.log|) && OthersSame(chans, after, step.ch))
      && (step.Unsubscribe? || step.Cancel? ==>
            && OthersSame(chans, after, step.ch) && !Registered(after, step.ch)
            && (step.ch in chans ==>
                  step.ch in after && SameContents(chans[step.ch], after[step.ch])
                  && after[step.ch].closes == chans[step.ch].closes))
      && (step.CloseOwn? ==>
            && OthersSame(chans, after, step.ch) && step.ch in after && SameContents(chans[step.ch], after[step.ch])
            && after[step.ch].closes == chans[step.ch].closes + 1)
  {
  }

  /** Shutting down closes, and removes, exactly the channels still subscribed. */
  lemma CloseAllMeans(s: State, ch: ChanId)
    requires Enabled(s, CloseAll)
    ensures var chans, after := s.chans, Next(s, CloseAll).chans;
      && (ch in after <==> ch in chans) && !Registered(after, ch)
      && (ch in chans ==>
            && SameContents(chans[ch], after[ch])
            && after[ch].closes == chans[ch].closes + if Registered(chans, ch) then 1 else 0)
  {
  }

  /** A send begins with a new number, for the channels then subscribed to its phase or to all; a channel
      that is served gets the message unless 64 wait in it; a receiver takes what has waited longest. */
  lemma MessageStepsMean(s: State, step: Step)
    requires Enabled(s, step)
    ensures var chans, next := s.chans, Next(s, step);
      && (step.BeginSend? ==>
            && next.chans == chans && |next.log| == |s.log| + 1 && next.log[..|s.log|] == s.log
            && next.log[|s.log|].msg == step.m && step.t in next.senders && next.senders[step.t].n == |s.log|
            && forall ch :: ch in next.senders[step.t].todo <==>
                 ch in chans && chans[ch].until.None? && (chans[ch].phase == "" || chans[ch].phase == step.m.phase))
      && (step.SendOne? ==>
            && OthersSame(chans, next.chans, step.ch) && step.ch in next.chans
            && var c, d, n := chans[step.ch], next.chans[step.ch], s.senders[step.t].n;
               && d.taken == c.taken && d.buffer == c.buffer + (if |c.buffer| < 64 then [n] else [])
               && d.offers == c.offers + [Offer(n, |c.buffer|)] && d.closes == c.closes && d.until == c.until)
      && (step.Take? ==>
            && OthersSame(chans, next.chans, step.ch) && step.ch in next.chans
            && var c, d := chans[step.ch], next.chans[step.ch];
               && c.buffer != [] && d.buffer == c.buffer[1..] && d.taken == c.taken + [c.buffer[0]]
               && d.offers == c.offers && d.closes == c.closes && d.until == c.until)
  {
  }

  /** A channel once removed is never offered anything again, whatever comes later. */
  lemma {:induction false} RemovedIsSilent(kind: Kind, run: seq<Step>, later: seq<Step>, ch: ChanId)
    requires After(Init(kind), run).Some? && After(After(Init(kind), run).value, later).Some?
    requires var s := After(Init(kind), run).value; ch in s.chans && !Registered(s.chans, ch)
    ensures var c, end := After(Init(kind), run).value.chans[ch], After(After(Init(kind), run).value, later).value;
      ch in end.chans && !Registered(end.chans, ch) && end.chans[ch].offers == c.offers
    decreases |later|
  {
    if later == [] {
    } else {
      var before, step := later[..|later| - 1], later[|later| - 1];
      RemovedIsSilent(kind, run, before, ch);
      Runs.AfterConcat(Try, Init(kind), run, before);
      EveryRunKeeps(kind, run + before);
      StaysSilent(After(After(Init(kind), run).value, before).value, step, ch);
    }
  }

  lemma StaysSilent(s: State, step: Step, ch: ChanId)
    requires Inv(s) && Enabled(s, step) && ch in s.chans && !Registered(s.chans, ch)
    ensures var next := Next(s, step);
      ch in next.chans && !Registered(next.chans, ch) && next.chans[ch].offers == s.chans[ch].offers
  {
    if step.SendOne? && step.ch == ch {
      assert Serving(s.senders, step.t, ch);
    }
  }
}

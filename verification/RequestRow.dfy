/** Requests that wait for a person: one shared row each, racing resolvers, sweepers and waiters
    (orchestrator/human_request.go, orchestrator/approval.go). Each SQL statement is one atomic step. */
module RequestRow {
  import opened Text
  import Runs

  type Id = string
  /** In seconds. */
  type Time = int
  type Waiter = nat

  datatype Verdict = Resolved | Cancelled | Expired | Approved | Rejected | TimedOut

  /** `status` is None while the row is pending. */
  datatype Row = Row(
    status: Option<Verdict>, response: string, comment: string, author: string,
    timeoutMinutes: int, createdAt: Time, resolvedAt: Option<Time>)

  type Table = map<Id, Row>

  predicate Pending(rows: Table, id: Id) {
    id in rows && rows[id].status.None?
  }

  /** What an UPDATE sets; a column it does not mention is None. */
  datatype Write = Write(
    verdict: Verdict, response: Option<string>, comment: Option<string>, author: Option<string>, at: Time)
  {
    function Set(row: Row): Row {
      row.(status := Some(verdict), response := response.GetOr(row.response),
           comment := comment.GetOr(row.comment), author := author.GetOr(row.author), resolvedAt := Some(at))
    }

    /** The row shows this write: its verdict and every column it set. */
    predicate Shows(row: Row) {
      && row.status == Some(verdict) && row.resolvedAt == Some(at)
      && (response.Some? ==> row.response == response.value)
      && (comment.Some? ==> row.comment == comment.value)
      && (author.Some? ==> row.author == author.value)
    }
  }

  /** UPDATE … WHERE id = ? AND status = 'pending'. */
  function Update(rows: Table, id: Id, w: Write): Table {
    if Pending(rows, id) then rows[id := w.Set(rows[id])] else rows
  }

  /** The two desks differ in their overdue verdict, in which rows a sweep takes, and in whether a
      caller hears that its update touched no row. */
  datatype Desk = HumanRequests | Approvals {
    function Overdue(at: Time): Write {
      Write(if HumanRequests? then Expired else TimedOut, None, None, None, at)
    }

    /** The database reads no time span out of a negative number of minutes. */
    predicate Due(row: Row, now: Time) {
      && row.status.None?
      && (if HumanRequests? then row.timeoutMinutes > 0 else row.timeoutMinutes >= 0)
      && row.createdAt + 60 * row.timeoutMinutes < now
    }

    function Sweep(rows: Table, now: Time): Table {
      map id | id in rows :: if Due(rows[id], now) then Overdue(now).Set(rows[id]) else rows[id]
    }

    /** Whether the caller gets a nil error. */
    predicate Accepts(affected: bool) {
      Approvals? || affected
    }
  }

  class HumanRequestManager {
    var rows: Table

    constructor ()
      ensures rows == map[]
    {
      rows := map[];
    }

    method UpdatePending(id: Id, w: Write) returns (affected: bool)
      modifies this
      ensures rows == Update(old(rows), id, w) && affected == Pending(old(rows), id)
    {
      affected := id in rows && rows[id].status.None?;
      if affected {
        rows := rows[id := w.Set(rows[id])];
      }
    }

    method Resolve(id: Id, response: string, comment: string, author: string, now: Time) returns (ok: bool)
      modifies this
      ensures rows == Update(old(rows), id, Write(Resolved, Some(response), Some(comment), Some(author), now))
      ensures ok == HumanRequests.Accepts(Pending(old(rows), id))
    {
      ok := UpdatePending(id, Write(Resolved, Some(response), Some(comment), Some(author), now));
    }

    method Cancel(id: Id, comment: string, now: Time) returns (ok: bool)
      modifies this
      ensures rows == Update(old(rows), id, Write(Cancelled, None, Some(comment), None, now))
      ensures ok == HumanRequests.Accepts(Pending(old(rows), id))
    {
      ok := UpdatePending(id, Write(Cancelled, None, Some(comment), None, now));
    }

    method CheckExpired(now: Time)
      modifies this
      ensures rows == HumanRequests.Sweep(old(rows), now)
    {
      rows := map id | id in rows ::
        if rows[id].status.None? && rows[id].timeoutMinutes > 0
           && rows[id].createdAt + 60 * rows[id].timeoutMinutes < now
        then rows[id].(status := Some(Expired), resolvedAt := Some(now)) else rows[id];
    }

    /** One round of the polling loop of WaitForResolution, as far as it runs without a pause. */
    method Poll(id: Id, late: bool) returns (next: Local)
      ensures next == Polled(rows, id, late)
    {
      if id !in rows {
        return Done(id, None);
      }
      var row := rows[id];
      if row.status.Some? {
        return Done(id, Some(row));
      }
      if late {
        return Giving(id, row);
      }
      return Polling(id);
    }

    /** What the loop does once its deadline has passed: the update's row count is ignored. */
    method GiveUp(id: Id, seen: Row, now: Time) returns (next: Local)
      modifies this
      ensures rows == Update(old(rows), id, HumanRequests.Overdue(now))
      ensures next == Done(id, Some(seen.(status := Some(Expired))))
    {
      var _ := UpdatePending(id, Write(Expired, None, None, None, now));
      return Done(id, Some(seen.(status := Some(Expired))));
    }
  }

  class ApprovalManager {
    var rows: Table

    constructor ()
      ensures rows == map[]
    {
      rows := map[];
    }

    method UpdatePending(id: Id, w: Write)
      modifies this
      ensures rows == Update(old(rows), id, w)
    {
      if id in rows && rows[id].status.None? {
        rows := rows[id := w.Set(rows[id])];
      }
    }

    method Approve(id: Id, comment: string, now: Time) returns (ok: bool)
      modifies this
      ensures rows == Update(old(rows), id, Write(Approved, None, Some(comment), None, now))
      ensures ok == Approvals.Accepts(Pending(old(rows), id))
    {
      UpdatePending(id, Write(Approved, None, Some(comment), None, now));
      ok := true;
    }

    method Reject(id: Id, comment: string, now: Time) returns (ok: bool)
      modifies this
      ensures rows == Update(old(rows), id, Write(Rejected, None, Some(comment), None, now))
      ensures ok == Approvals.Accepts(Pending(old(rows), id))
    {
      UpdatePending(id, Write(Rejected, None, Some(comment), None, now));
      ok := true;
    }

    method CheckTimeout(now: Time)
      modifies this
      ensures rows == Approvals.Sweep(old(rows), now)
    {
      rows := map id | id in rows ::
        if rows[id].status.None? && rows[id].timeoutMinutes >= 0
           && rows[id].createdAt + 60 * rows[id].timeoutMinutes < now
        then rows[id].(status := Some(TimedOut), resolvedAt := Some(now)) else rows[id];
    }

    /** One round of the polling loop of WaitForResolution. */
    method Poll(id: Id, late: bool) returns (next: Local)
      ensures next == Polled(rows, id, late)
    {
      if id !in rows {
        return Done(id, None);
      }
      var approval := rows[id];
      if approval.status.Some? {
        return Done(id, Some(approval));
      }
      if late {
        return Giving(id, approval);
      }
      return Polling(id);
    }

    method GiveUp(id: Id, seen: Row, now: Time) returns (next: Local)
      modifies this
      ensures rows == Update(old(rows), id, Approvals.Overdue(now))
      ensures next == Done(id, Some(seen.(status := Some(TimedOut))))
    {
      UpdatePending(id, Write(TimedOut, None, None, None, now));
      return Done(id, Some(seen.(status := Some(TimedOut))));
    }
  }

  // ---------------------------------------------------------------- interleavings

  /** Where a caller of WaitForResolution stands: between polls, about to give up on the pending row
      it saw, or back with a row or an error. */
  datatype Local = Polling(id: Id) | Giving(id: Id, seen: Row) | Done(id: Id, answer: Option<Row>)

  function Polled(rows: Table, id: Id, late: bool): Local {
    if id !in rows then Done(id, None)
    else if rows[id].status.Some? then Done(id, Some(rows[id]))
    else if late then Giving(id, rows[id])
    else Polling(id)
  }

  /** A finished Resolve, Cancel, Approve or Reject, and whether its update touched the row. */
  datatype Call = Call(id: Id, w: Write, affected: bool)

  datatype State = State(desk: Desk, rows: Table, waiters: map<Waiter, Local>, calls: seq<Call>)

  datatype Step =
    | Insert(id: Id, timeoutMinutes: int, now: Time)
    | Settle(id: Id, w: Write)
    | Check(now: Time)
    | Wait(t: Waiter, id: Id)
    | Poll(t: Waiter, late: bool)
    | GiveUp(t: Waiter, now: Time)
    | Quit(t: Waiter)

  predicate Enabled(s: State, step: Step) {
    match step
    case Insert(id, _, _) => id !in s.rows
    case Settle(_, w) =>
      if s.desk.HumanRequests? then w.verdict in {Resolved, Cancelled} else w.verdict in {Approved, Rejected}
    case Check(_) => true
    case Wait(t, _) => t !in s.waiters
    case Poll(t, _) => t in s.waiters && s.waiters[t].Polling?
    case GiveUp(t, _) => t in s.waiters && s.waiters[t].Giving?
    case Quit(t) => t in s.waiters && s.waiters[t].Polling?
  }

  function Next(s: State, step: Step): State
    requires Enabled(s, step)
  {
    match step
    case Insert(id, minutes, now) => s.(rows := s.rows[id := Row(None, "", "", "", minutes, now, None)])
    case Settle(id, w) =>
      s.(rows := Update(s.rows, id, w), calls := s.calls + [Call(id, w, Pending(s.rows, id))])
    case Check(now) => s.(rows := s.desk.Sweep(s.rows, now))
    case Wait(t, id) => s.(waiters := s.waiters[t := Polling(id)])
    case Poll(t, late) => s.(waiters := s.waiters[t := Polled(s.rows, s.waiters[t].id, late)])
    case GiveUp(t, now) =>
      var Giving(id, seen) := s.waiters[t];
      var w := s.desk.Overdue(now);
      s.(rows := Update(s.rows, id, w),
         waiters := s.waiters[t := Done(id, Some(seen.(status := Some(w.verdict))))])
    case Quit(t) => s.(waiters := s.waiters[t := Done(s.waiters[t].id, None)])
  }

  function Try(s: State, step: Step): Option<State> {
    if Enabled(s, step) then Some(Next(s, step)) else None
  }

  /** The state after a run, if each of its steps was enabled in turn. */
  function After(s: State, run: seq<Step>): Option<State> {
    Runs.After(Try, s, run)
  }

  // ---------------------------------------------------------------- a row leaves pending at most once

  /** No row disappears, and a row that is no longer pending stays exactly as it is. */
  ghost predicate Frozen(before: Table, after: Table) {
    forall id :: id in before ==> id in after && (before[id].status.Some? ==> after[id] == before[id])
  }

  lemma SettledRowsAreFrozen(s: State, run: seq<Step>)
    requires After(s, run).Some?
    ensures Frozen(s.rows, After(s, run).value.rows)
  {
    var frozen := (u: State) => Frozen(s.rows, u.rows);
    forall u, step | frozen(u) && Try(u, step).Some? ensures frozen(Try(u, step).value) {
      assert Frozen(u.rows, Next(u, step).rows);
    }
    Runs.Keeps(Try, frozen, s, run);
  }

  /** Of the calls for one request at most one touched the row, and the row shows that call's write. */
  ghost predicate OneWinner(s: State) {
    && (forall k, l :: 0 <= k < l < |s.calls| && s.calls[k].affected && s.calls[l].affected ==>
          s.calls[k].id != s.calls[l].id)
    && (forall k :: 0 <= k < |s.calls| && s.calls[k].affected ==>
          s.calls[k].id in s.rows && s.calls[k].w.Shows(s.rows[s.calls[k].id]))
  }

  lemma OneWinnerNext(s: State, step: Step)
    requires OneWinner(s) && Enabled(s, step)
    ensures OneWinner(Next(s, step))
  {
    assert Frozen(s.rows, Next(s, step).rows);
  }

  lemma OneWinnerEver(s: State, run: seq<Step>)
    requires s.calls == [] && After(s, run).Some?
    ensures OneWinner(After(s, run).value)
  {
    forall u, step | OneWinner(u) && Try(u, step).Some? ensures OneWinner(Try(u, step).value) {
      OneWinnerNext(u, step);
    }
    Runs.Keeps(Try, OneWinner, s, run);
  }

  // ---------------------------------------------------------------- what waiters report

  /** A waiter that reports anything but overdue reports the stored row; none reports a pending one. */
  ghost predicate Truthful(s: State) {
    forall t :: t in s.waiters ==>
      match s.waiters[t]
      case Polling(_) => true
      case Giving(id, seen) => seen.status.None?
      case Done(id, None) => true
      case Done(id, Some(row)) =>
        row.status.Some? && (row.status != Some(s.desk.Overdue(0).verdict) ==> id in s.rows && s.rows[id] == row)
  }

  lemma TruthfulNext(s: State, step: Step)
    requires Truthful(s) && Enabled(s, step)
    ensures Truthful(Next(s, step))
  {
    assert Frozen(s.rows, Next(s, step).rows);
  }

  lemma WaitersAreTruthful(s: State, run: seq<Step>)
    requires s.waiters == map[] && After(s, run).Some?
    ensures Truthful(After(s, run).value) && After(s, run).value.desk == s.desk
  {
    var truthful := (u: State) => Truthful(u) && u.desk == s.desk;
    forall u, step | truthful(u) && Try(u, step).Some? ensures truthful(Try(u, step).value) {
      TruthfulNext(u, step);
    }
    Runs.Keeps(Try, truthful, s, run);
  }

  /** A waiter told that a request was approved can rely on it: the row says so, then and ever after. */
  lemma ApprovedForEver(s: State, run: seq<Step>, later: seq<Step>, t: Waiter)
    requires s.waiters == map[] && s.desk.Approvals? && After(s, run).Some?
    requires var u := After(s, run).value;
      && t in u.waiters && u.waiters[t].Done? && u.waiters[t].answer.Some?
      && u.waiters[t].answer.value.status == Some(Approved)
      && After(u, later).Some?
    ensures var u := After(s, run).value;
      && u.waiters[t].id in After(u, later).value.rows
      && After(u, later).value.rows[u.waiters[t].id] == u.waiters[t].answer.value
  {
    WaitersAreTruthful(s, run);
    SettledRowsAreFrozen(After(s, run).value, later);
  }

  /** A waiter that gives up reports overdue. The row says the same, then and ever after, exactly when
      it was still pending, or already overdue, at the waiter's update. */
  lemma GivingUpAgrees(s: State, t: Waiter, now: Time, later: seq<Step>)
    requires Enabled(s, GiveUp(t, now)) && s.waiters[t].id in s.rows
    requires After(Next(s, GiveUp(t, now)), later).Some?
    ensures var id, verdict := s.waiters[t].id, s.desk.Overdue(now).verdict;
      var end := After(Next(s, GiveUp(t, now)), later).value;
      && Next(s, GiveUp(t, now)).waiters[t].answer.value.status == Some(verdict)
      && id in end.rows
      && (end.rows[id].status == Some(verdict) <==> s.rows[id].status in {None, Some(verdict)})
  {
    SettledRowsAreFrozen(Next(s, GiveUp(t, now)), later);
  }

  /** The two can disagree: a reply arriving between the last poll and the update is stored, yet the
      waiter reports that the request expired. */
  lemma ExpiredThoughResolved(row: Row, w: Write)
    requires row.status.None? && w.verdict.Resolved?
    ensures var s := State(HumanRequests, map["r" := row], map[], []);
      var run := [Wait(0, "r"), Poll(0, true), Settle("r", w), GiveUp(0, 9)];
      && After(s, run).Some?
      && After(s, run).value.waiters[0].answer.value.status == Some(Expired)
      && "r" in After(s, run).value.rows && After(s, run).value.rows["r"].status == Some(Resolved)
      && After(s, run).value.calls == [Call("r", w, true)]
  {
    var run := [Wait(0, "r"), Poll(0, true), Settle("r", w), GiveUp(0, 9)];
    var s0 := State(HumanRequests, map["r" := row], map[], []);
    var s1 := Next(s0, run[0]);
    var s2 := Next(s1, run[1]);
    var s3 := Next(s2, run[2]);
    var s4 := Next(s3, run[3]);
    Runs.Through(Try, [s0, s1, s2, s3, s4], run);
  }

  /** Approve and Reject report success even when they lost. The row carries their verdict, then and
      ever after, exactly when it was pending or carried that verdict already. */
  lemma AcceptedIsNotWon(s: State, id: Id, w: Write, later: seq<Step>)
    requires s.desk.Approvals? && Enabled(s, Settle(id, w)) && id in s.rows
    requires After(Next(s, Settle(id, w)), later).Some?
    ensures s.desk.Accepts(Pending(s.rows, id))
    ensures var end := After(Next(s, Settle(id, w)), later).value;
      id in end.rows && (end.rows[id].status == Some(w.verdict) <==> s.rows[id].status in {None, Some(w.verdict)})
  {
    SettledRowsAreFrozen(Next(s, Settle(id, w)), later);
  }

  /** An approval given after a rejection: it is reported as given, and the row stays rejected. */
  lemma ApprovedThoughRejected(row: Row, reject: Write, approve: Write)
    requires row.status.None? && reject.verdict.Rejected? && approve.verdict.Approved?
    ensures var end := After(State(Approvals, map["r" := row], map[], []), [Settle("r", reject), Settle("r", approve)]);
      && end.Some? && end.value.calls == [Call("r", reject, true), Call("r", approve, false)]
      && end.value.desk.Accepts(end.value.calls[1].affected)
      && "r" in end.value.rows && end.value.rows["r"].status == Some(Rejected)
  {
    var s0 := State(Approvals, map["r" := row], map[], []);
    var s1 := Next(s0, Settle("r", reject));
    var s2 := Next(s1, Settle("r", approve));
    Runs.Through(Try, [s0, s1, s2], [Settle("r", reject), Settle("r", approve)]);
  }

  /** At the human-request desk a caller hears success exactly when the request was pending; then its
      reply is what the row shows ever after, and otherwise its call changed nothing. */
  lemma AcceptedIsWon(s: State, id: Id, w: Write, later: seq<Step>)
    requires s.desk.HumanRequests? && Enabled(s, Settle(id, w))
    requires After(Next(s, Settle(id, w)), later).Some?
    ensures var end := After(Next(s, Settle(id, w)), later).value;
      if s.desk.Accepts(Pending(s.rows, id)) then id in end.rows && w.Shows(end.rows[id])
      else Next(s, Settle(id, w)).rows == s.rows && (id in s.rows ==> id in end.rows && end.rows[id] == s.rows[id])
  {
    SettledRowsAreFrozen(Next(s, Settle(id, w)), later);
  }

  /** A human request without a timeout is never swept; only a waiter can expire it. */
  lemma {:induction false} NoTimeoutNoSweep(s: State, run: seq<Step>, id: Id)
    requires s.desk.HumanRequests? && Pending(s.rows, id) && s.rows[id].timeoutMinutes <= 0
    requires After(s, run).Some?
    requires forall k :: 0 <= k < |run| ==> !run[k].GiveUp? && (run[k].Settle? ==> run[k].id != id)
    ensures var end := After(s, run).value; end.desk == s.desk && id in end.rows && end.rows[id] == s.rows[id]
  {
    if run == [] {
    } else {
      NoTimeoutNoSweep(s, run[..|run| - 1], id);
    }
  }

  // ---------------------------------------------------------------- what one statement does

  /** An update settles the one row it names, if that is pending, and sets in it what it mentions. */
  lemma UpdateMeans(rows: Table, id: Id, w: Write, other: Id)
    ensures Update(rows, id, w).Keys == rows.Keys
    ensures other in rows && (other != id || rows[other].status.Some?) ==> Update(rows, id, w)[other] == rows[other]
    ensures id in rows && rows[id].status.None? ==>
      var was, row := rows[id], Update(rows, id, w)[id];
      && w.Shows(row) && (w.response.None? ==> row.response == was.response)
      && (w.comment.None? ==> row.comment == was.comment) && (w.author.None? ==> row.author == was.author)
      && row.timeoutMinutes == was.timeoutMinutes && row.createdAt == was.createdAt
  {
  }

  /** A sweep changes a row exactly if it is pending and its minutes have run out, where there are some
      at the human-request desk, and are not negative at the other; and then into an overdue one. */
  lemma SweepMeans(desk: Desk, rows: Table, now: Time, id: Id)
    requires id in rows
    ensures desk.Sweep(rows, now).Keys == rows.Keys
    ensures var was, row := rows[id], desk.Sweep(rows, now)[id];
      var minutes := was.timeoutMinutes;
      var overdue := was.status.None? && was.createdAt + minutes * 60 < now
                     && (minutes > 0 || (minutes == 0 && desk.Approvals?));
      && (row != was <==> overdue)
      && (overdue ==>
            row == Row(Some(if desk.HumanRequests? then Expired else TimedOut), was.response, was.comment, was.author,
                       minutes, was.createdAt, Some(now)))
  {
  }

  /** A request created at `start` is pending, and swept at `now` it is overdue exactly if its minutes have
      passed in between. */
  lemma CreatedThenSwept(s: State, id: Id, minutes: nat, start: Time, now: Time)
    requires id !in s.rows && minutes > 0
    ensures var end := After(s, [Insert(id, minutes, start), Check(now)]);
      && end.Some? && id in end.value.rows && end.value.rows[id].createdAt == start
      && end.value.rows[id].timeoutMinutes == minutes
      && end.value.rows[id].status ==
           if start + 60 * minutes < now then Some(if s.desk.HumanRequests? then Expired else TimedOut) else None
  {
    var s1 := Next(s, Insert(id, minutes, start));
    Runs.Through(Try, [s, s1, Next(s1, Check(now))], [Insert(id, minutes, start), Check(now)]);
  }

  /** An overdue row was settled after its time. */
  ghost predicate NoneEarly(s: State) {
    forall id :: id in s.rows && s.rows[id].status == Some(s.desk.Overdue(0).verdict) ==>
      var row := s.rows[id];
      row.resolvedAt.Some? && row.createdAt + 60 * row.timeoutMinutes < row.resolvedAt.value
  }

  /** Unless a waiter gives up on it, no request is overdue before its time. */
  lemma {:induction false} NeverOverdueEarly(s: State, run: seq<Step>)
    requires s.rows == map[] && After(s, run).Some? && forall k :: 0 <= k < |run| ==> !run[k].GiveUp?
    ensures NoneEarly(After(s, run).value) && After(s, run).value.desk == s.desk
  {
    if run == [] {
    } else {
      NeverOverdueEarly(s, run[..|run| - 1]);
    }
  }

  /** A waiter asks again while its row is pending and its time has not passed. It comes back with the
      row once that is settled, and without one if there is none; when its time has passed it settles a
      row that is still pending as overdue and comes back with it. */
  lemma WaiterComesBack(s: State, t: Waiter, late: bool, now: Time)
    requires t in s.waiters && s.waiters[t].Polling?
    ensures var id, polled := s.waiters[t].id, Next(s, Poll(t, late));
      && polled.rows == s.rows
      && (id !in s.rows ==> polled.waiters[t] == Done(id, None))
      && (id in s.rows && s.rows[id].status.Some? ==> polled.waiters[t] == Done(id, Some(s.rows[id])))
      && (id in s.rows && s.rows[id].status.None? && !late ==> polled.waiters[t] == Polling(id))
      && (id in s.rows && s.rows[id].status.None? && late ==>
            && Enabled(polled, GiveUp(t, now))
            && var end, verdict := Next(polled, GiveUp(t, now)), if s.desk.HumanRequests? then Expired else TimedOut;
               && id in end.rows && end.rows[id] == s.rows[id].(status := Some(verdict), resolvedAt := Some(now))
               && end.waiters[t] == Done(id, Some(s.rows[id].(status := Some(verdict)))))
  {
  }
}

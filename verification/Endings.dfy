/**
 Why a call has ended as it has: the answer of the provider behind each final status, step by step and over
 whole runs.
 */
module Endings {
  import opened Types
  import opened Tables
  import opened Columns
  import opened Protocol
  import opened Shape
  import opened CallInvariant
  import opened Attempts
  import opened CampaignLife
  import opened Reach

  /** The four statuses in which a call has ended. */
  predicate Final(st: CallStatus) {
    st == Completed || st == Failed || st == NoAnswer || st == Busy
  }

  /** The event behind a webhook transaction, and how many retries its lookup saw, end the call as `st`. */
  predicate EventEnds(event: CallStatus, retries: int, st: CallStatus) {
    || (event == st && (st == Completed || st == Failed))
    || (st == Failed && (event == NoAnswer || event == Busy) && retries <= 0)
  }

  /** The answer to a dial ends the call as `st`. */
  predicate AnswerEnds(result: DialResult, retries: int, st: CallStatus) {
    st == Failed && (result == Rejected || (result == Unavailable && retries <= 0))
  }

  /** What the step has heard about call `c` ends it as `st`. */
  predicate Ends(s: State, step: Step, c: CallId, st: CallStatus) {
    match step
    case Settle(i, _, _) =>
      && At(s, i) && s.replicas[i].Placed? && s.replicas[i].claim.call == c
      && AnswerEnds(s.replicas[i].result, s.replicas[i].claim.retries, st)
    case Finish(p, _) =>
      && p in s.lookups && s.lookups[p].target.Some? && s.lookups[p].inboxId in s.db.inbox
      && s.lookups[p].target.value.call == c
      && EventEnds(s.db.inbox[s.lookups[p].inboxId].event.status, s.lookups[p].target.value.row.retries, st)
    case Reclaim(r) =>
      && r in s.reclaims && s.reclaims[r].Asked? && s.reclaims[r].target.call == c
      && s.reclaims[r].target.row.handle.Some? && s.reclaims[r].answer == Some(st)
    case _ => false
  }

  // ---- one step --------------------------------------------------------------------------------

  lemma EventWrites(db: Db, event: Event, t: Found, wait: Time, now: Time, st: CallStatus)
    requires var r := Respond(db, event, Some(t), wait, now); r.Attempted? && r.outcome.Applied?
    requires Final(st)
    ensures var m := Respond(db, event, Some(t), wait, now).outcome.move;
            m.call == t.call && (m.row.status == st <==> EventEnds(event.status, t.row.retries, st))
  {
  }

  /** A move ends its call as `st` if and only if what the step has heard does. */
  lemma MoveEndsExactlyWhen(s: State, step: Step, st: CallStatus)
    requires Enabled(s, step) && MoveOf(s, step).Some? && Final(st)
    ensures var m := MoveOf(s, step).value; m.row.status == st <==> Ends(s, step, m.call, st)
  {
    match step
    case Settle(i, wait, _) => AnswerWrites(s.db, s.replicas[i].claim, s.replicas[i].result, wait, s.now);
    case Finish(p, wait) =>
      EventWrites(s.db, s.db.inbox[s.lookups[p].inboxId].event, s.lookups[p].target.value, wait, s.now, st);
    case Reclaim(r) => ReclaimWrites(s.db, s.reclaims[r].target, ReclaimAnswer(s.reclaims[r]), s.now);
    case _ =>
  }

  /** A dial that is answered by "unavailable" is retried exactly while the claimed call had retries; no dial completes a call. */
  lemma SettleWrites(s: State, step: Step)
    requires Enabled(s, step) && step.Settle? && MoveOf(s, step).Some?
    ensures var r, status := s.replicas[step.i], MoveOf(s, step).value.row.status;
            && (status == Dialing <==> r.result.Accepted?)
            && (status == RetryPending <==> r.result.Unavailable? && r.claim.retries > 0)
            && (status == Failed <==> r.result.Rejected? || (r.result.Unavailable? && r.claim.retries <= 0))
            && (status == Dialing || status == RetryPending || status == Failed)
  {
    AnswerWrites(s.db, s.replicas[step.i].claim, s.replicas[step.i].result, step.wait, s.now);
  }

  // ---- runs ------------------------------------------------------------------------------------

  predicate IsAt(s: State, c: CallId, st: CallStatus) {
    c in s.db.calls && s.db.calls[c].status == st
  }

  /** The step writes call `c`, and what it has heard ends the call as `st`. */
  ghost predicate EndsBy(s: State, step: Step, c: CallId, st: CallStatus)
    requires Enabled(s, step)
  {
    MoveOf(s, step).Some? && MoveOf(s, step).value.call == c && Ends(s, step, c, st)
  }

  ghost predicate EndedBy(p: Premises, s: State, steps: seq<Step>, c: CallId, st: CallStatus)
    requires IsRun(p, s, steps)
    decreases |steps|
  {
    steps != [] && (EndsBy(s, steps[0], c, st) || EndedBy(p, Apply(s, steps[0]), steps[1..], c, st))
  }

  lemma UnmovedStatus(s: State, s': State, step: Step, m: Option<Move>, c: CallId, st: CallStatus)
    requires Effect(s, s', step, m) && Final(st) && !(m.Some? && m.value.call == c)
    ensures IsAt(s', c, st) <==> IsAt(s, c, st)
  {
  }

  lemma MovedStatus(s: State, s': State, step: Step, m: Move)
    requires Effect(s, s', step, Some(m))
    ensures m.call in s'.db.calls && s'.db.calls[m.call] == m.row
  {
  }

  lemma EndsStep(s: State, step: Step, c: CallId, st: CallStatus)
    requires Enabled(s, step) && Final(st)
    ensures IsAt(Apply(s, step), c, st) <==> IsAt(s, c, st) || EndsBy(s, step, c, st)
  {
    StepEffect(s, step);
    var m := MoveOf(s, step);
    if m.Some? && m.value.call == c {
      MoveEndsExactlyWhen(s, step, st);
      MovedStatus(s, Apply(s, step), step, m.value);
      if IsAt(s, c, st) {
        TerminalStays(s, step, c);
      }
    } else {
      UnmovedStatus(s, Apply(s, step), step, m, c, st);
    }
  }

  lemma {:induction false} EndsAlong(p: Premises, s: State, steps: seq<Step>, c: CallId, st: CallStatus)
    requires IsRun(p, s, steps) && Final(st)
    ensures IsAt(Run(p, s, steps), c, st) <==> IsAt(s, c, st) || EndedBy(p, s, steps, c, st)
    decreases |steps|
  {
    if steps != [] {
      EndsStep(s, steps[0], c, st);
      EndsAlong(p, Apply(s, steps[0]), steps[1..], c, st);
    }
  }

  /**
   At the end of any run a call is COMPLETED if and only if some transaction of the run applied to it a provider
   report COMPLETED: an event, or the answer to a reclaim's question. Likewise it is NO_ANSWER or BUSY only by such
   an answer, and FAILED only by a report FAILED, a rejected dial, or a failure that found no retry left.
   */
  lemma EndedExactlyWhen(p: Premises, n: nat, init: State, steps: seq<Step>, c: CallId, st: CallStatus)
    requires Init(init, n) && IsRun(p, init, steps) && Final(st)
    ensures IsAt(Run(p, init, steps), c, st) <==> EndedBy(p, init, steps, c, st)
  {
    EndsAlong(p, init, steps, c, st);
  }

  /** A concluded campaign is COMPLETED if and only if the provider reported COMPLETED for one of its calls. */
  lemma CampaignCompletedExactlyWhen(p: Premises, n: nat, init: State, steps: seq<Step>, k: CampaignId)
    requires Init(init, n) && IsRun(p, init, steps) && k in Run(p, init, steps).db.campaigns
    requires Concluded(Run(p, init, steps).db.campaigns[k].status)
    ensures var s := Run(p, init, steps);
            s.db.campaigns[k].status == CompletedCampaign
            <==> exists c :: c in s.db.calls && s.db.calls[c].campaign == k && EndedBy(p, init, steps, c, Completed)
  {
    var s := Run(p, init, steps);
    VerdictIsRight(p, n, s, k);
    forall c | c in s.db.calls ensures EndedBy(p, init, steps, c, Completed) <==> s.db.calls[c].status == Completed {
      EndedExactlyWhen(p, n, init, steps, c, Completed);
    }
  }
}

/** What a step can do to the call rows: at most one row changes, in one of six ways, with one audit row. */
module Shape {
  import opened Types
  import opened AuditLog
  import opened Tables
  import opened Protocol

  /** The ways a call row changes, by the type of the audit row that records it. */
  ghost predicate LocalStep(was: Call, row: Call, event: EventType) {
    && row == was.(status := row.status, epoch := row.epoch, retries := row.retries,
                     nextAttempt := row.nextAttempt, handle := row.handle, updatedAt := row.updatedAt)
    && match event
       case CallClaimed =>
         was.status.Queued? && row == was.(status := Dialing, epoch := was.epoch + 1, handle := None, updatedAt := row.updatedAt)
       case CallDispatch =>
         was.status.Dialing? && row.handle.Some? && row == was.(handle := row.handle, updatedAt := row.updatedAt)
       case CallRetryDue =>
         was.status.RetryPending? && row == was.(status := Queued, updatedAt := row.updatedAt)
       case ReclaimExecuted =>
         was.status.Dialing? && row == was.(status := Queued, epoch := was.epoch + 1, handle := None, updatedAt := row.updatedAt)
       case ReclaimSkippedTerminal =>
         was.status.Dialing? && Terminal(row.status) && row == was.(status := row.status, updatedAt := row.updatedAt)
       case CallTransition =>
         && row.epoch == was.epoch && row.handle == was.handle
         && !row.status.NoAnswer? && !row.status.Busy?
         && (!row.status.RetryPending? ==> row.retries == was.retries && row.nextAttempt == was.nextAttempt)
         && (Terminal(was.status) ==> row == was.(updatedAt := row.updatedAt))
       case _ => false
  }

  /** Which actor's transaction a move comes from, and which version of the row it was compared with. */
  ghost predicate Origin(s: State, step: Step, m: Move)
    requires m.call in s.db.calls
  {
    var was := s.db.calls[m.call];
    match step
    case Requeue(i, choice, _) =>
      && At(s, i) && s.replicas[i].Picked? && choice == Some(m.call) && m.event.CallRetryDue?
      && was.campaign == s.replicas[i].view.id && RequeueDue(was, s.now)
    case ClaimNext(i, choice, _) =>
      && At(s, i) && s.replicas[i].Ready? && choice == Some(m.call) && m.event.CallClaimed?
      && was.campaign == s.replicas[i].view.id && ClaimDue(was, s.now)
    case Settle(i, _, _) =>
      && At(s, i) && s.replicas[i].Placed?
      && var r := s.replicas[i];
      && m.call == r.claim.call && was.epoch == r.claim.epoch && was.status.Dialing?
      && (m.event.CallTransition? || m.event.CallDispatch?)
      && (m.event.CallDispatch? ==> r.result.Accepted? && m.row.handle == Some(r.result.handle) && m.extra == m.row.handle)
      && (m.row.status.RetryPending? ==> r.claim.retries > 0 && m.row.retries == r.claim.retries - 1 && m.row.nextAttempt.Some?)
      && !m.row.status.InProgress? && !m.row.status.Queued?
      && (m.row.status.Dialing? ==> m.event.CallDispatch?)
    case Finish(p, _) =>
      && p in s.lookups && s.lookups[p].target.Some? && s.lookups[p].inboxId in s.db.inbox
      && var t, event := s.lookups[p].target.value, s.db.inbox[s.lookups[p].inboxId].event;
      && m.call == t.call && was.epoch == t.row.epoch && was.status == t.row.status
      && m.event.CallTransition?
      && event.status != was.status
      && (if Terminal(event.status) then
            if event.status.Completed? || event.status.Failed? then m.row.status == event.status
            else if t.row.retries > 0 then
              m.row.status.RetryPending? && m.row.retries == t.row.retries - 1 && m.row.nextAttempt.Some?
            else m.row.status.Failed?
          else m.row.status == event.status && m.row.retries == was.retries && m.row.nextAttempt == was.nextAttempt)
    case Reclaim(r) =>
      && r in s.reclaims
      && var t := s.reclaims[r].target;
      && m.call == t.call && was.epoch == t.row.epoch && was.status.Dialing?
      && (m.event.ReclaimExecuted? || (m.event.ReclaimSkippedTerminal? && t.row.handle.Some?))
    case _ => false
  }

  /** A move from `db`: an allowed change of one existing row that respects the phone index. */
  ghost predicate Moves(db: Db, m: Move) {
    && m.call in db.calls
    && LocalStep(db.calls[m.call], m.row, m.event)
    && !PhoneClash(db, m.call, m.row)
  }

  lemma SettleMoves(s: State, i: nat, wait: Time, stamp: Time)
    requires Enabled(s, Settle(i, wait, stamp)) && SettleOutcome(s, i, wait).Applied?
    ensures var m := SettleOutcome(s, i, wait).move; Moves(s.db, m) && Origin(s, Settle(i, wait, stamp), m)
  {
  }

  lemma FinishMoves(s: State, p: nat, wait: Time)
    requires Enabled(s, Finish(p, wait))
    requires FinishResponse(s, p, wait).Attempted? && FinishResponse(s, p, wait).outcome.Applied?
    ensures var m := FinishResponse(s, p, wait).outcome.move; Moves(s.db, m) && Origin(s, Finish(p, wait), m)
  {
  }

  lemma ReclaimMoves(s: State, r: nat)
    requires Enabled(s, Reclaim(r)) && ReclaimResult(s, r).Applied?
    ensures var m := ReclaimResult(s, r).move; Moves(s.db, m) && Origin(s, Reclaim(r), m)
  {
  }

  lemma MoveOrigin(s: State, step: Step)
    requires Enabled(s, step) && MoveOf(s, step).Some?
    ensures Moves(s.db, MoveOf(s, step).value) && Origin(s, step, MoveOf(s, step).value)
  {
    match step
    case Settle(i, wait, stamp) => SettleMoves(s, i, wait, stamp);
    case Finish(p, wait) => FinishMoves(s, p, wait);
    case Reclaim(r) => ReclaimMoves(s, r);
    case _ =>
  }

  ghost function HistoryOf(s: State, c: CallId): seq<AuditRow> {
    History(s.db.audit, c)
  }

  lemma RollUpKeepsCalls(db: Db, k: CampaignId, c: CallId)
    ensures RollUp(db, k).calls == db.calls && History(RollUp(db, k).audit, c) == History(db.audit, c)
    ensures Promote(db, k).calls == db.calls && History(Promote(db, k).audit, c) == History(db.audit, c)
  {
    HistoryAppend(db.audit, CampaignCompleted(k, Verdict(db.calls, k)), c);
    HistoryAppend(db.audit, CampaignPromoted(k), c);
  }

  lemma CommitHistory(db: Db, m: Move, c: CallId)
    requires m.call in db.calls
    ensures Commit(db, m).calls == db.calls[m.call := m.row]
    ensures History(Commit(db, m).audit, c)
         == History(db.audit, c) + if c == m.call then [ChangeRow(db, m)] else []
  {
    HistoryAppend(db.audit, ChangeRow(db, m), c);
    RollUpKeepsCalls(Written(db, m), m.row.campaign, c);
  }

  lemma ClaimHistory(db: Db, v: CampaignView, d: CallId, now: Time, c: CallId)
    requires d in db.calls
    ensures ClaimTx(db, v, d, now).calls == db.calls[d := ClaimMove(db, d, now).row]
    ensures History(ClaimTx(db, v, d, now).audit, c)
         == History(db.audit, c) + if c == d then [ChangeRow(db, ClaimMove(db, d, now))] else []
  {
    var m := ClaimMove(db, d, now);
    CommitHistory(db, m, c);
    RollUpKeepsCalls(Commit(db, m), v.id, c);
  }

  lemma IgnoredHistory(db: Db, x: EventId, target: Option<Found>, wait: Time, now: Time, c: CallId)
    requires x in db.inbox
    requires var r := Respond(db, db.inbox[x].event, target, wait, now); !(r.Attempted? && r.outcome.Applied?)
    ensures WebhookTx(db, x, target, wait, now).calls == db.calls
    ensures History(WebhookTx(db, x, target, wait, now).audit, c) == History(db.audit, c)
  {
    HistoryAppend(db.audit, WebhookIgnored(None, false), c);
    if target.Some? {
      HistoryAppend(db.audit, WebhookIgnored(Some(target.value.call), true), c);
      HistoryAppend(db.audit, WebhookIgnored(Some(target.value.call), false), c);
    }
  }

  lemma AppliedHistory(db: Db, x: EventId, target: Option<Found>, wait: Time, now: Time, c: CallId)
    requires x in db.inbox
    requires var r := Respond(db, db.inbox[x].event, target, wait, now); r.Attempted? && r.outcome.Applied?
    ensures var m := Respond(db, db.inbox[x].event, target, wait, now).outcome.move;
            var d := WebhookTx(db, x, target, wait, now);
            && m.call in db.calls && d.calls == db.calls[m.call := m.row]
            && History(d.audit, c) == History(db.audit, c) + if c == m.call then [ChangeRow(db, m)] else []
  {
    CommitHistory(db, Respond(db, db.inbox[x].event, target, wait, now).outcome.move, c);
  }

  lemma GateHistory(db: Db, views: seq<CampaignView>, open: set<CampaignId>, c: CallId)
    ensures History(db.audit + HourSkips(views, open) + CapSkips(db, InHours(views, open)), c) == History(db.audit, c)
  {
    var hours, caps := HourSkips(views, open), CapSkips(db, InHours(views, open));
    InertAppend(db.audit, hours, c, 0);
    InertAppend(db.audit + hours, caps, c, 0);
  }

  lemma AfterHistory(db: Db, o: Outcome, c: CallId)
    requires o.Applied? ==> o.move.call in db.calls
    ensures After(db, o).calls == if o.Applied? then db.calls[o.move.call := o.move.row] else db.calls
    ensures History(After(db, o).audit, c)
         == History(db.audit, c) + if o.Applied? && c == o.move.call then [ChangeRow(db, o.move)] else []
  {
    if o.Applied? {
      CommitHistory(db, o.move, c);
    }
  }

  /** The call table after move `m`, if there is one, and the creation of `batch`. */
  function CallsThen(calls: map<CallId, Call>, batch: map<CallId, Call>, m: Option<Move>): map<CallId, Call> {
    if m.Some? then calls[m.value.call := m.value.row] else calls + batch
  }

  function RowsThen(db: Db, m: Option<Move>, c: CallId): seq<AuditRow> {
    if m.Some? && m.value.call in db.calls && m.value.call == c then [ChangeRow(db, m.value)] else []
  }

  function Batch(step: Step): map<CallId, Call> {
    if step.Create? then step.batch else map[]
  }

  lemma MoveNextCalls(s: State, step: Step, c: CallId)
    requires Enabled(s, step) && MoveOf(s, step).Some?
    ensures NextDb(s, step).calls == CallsThen(s.db.calls, Batch(step), MoveOf(s, step))
    ensures History(NextDb(s, step).audit, c) == HistoryOf(s, c) + RowsThen(s.db, MoveOf(s, step), c)
  {
    match step
    case Requeue(_, Some(d), _) => AfterHistory(s.db, RequeueOutcome(s.db, d, s.now), c);
    case ClaimNext(i, Some(d), _) => ClaimHistory(s.db, s.replicas[i].view, d, s.now, c);
    case Settle(i, wait, _) => AfterHistory(s.db, SettleOutcome(s, i, wait), c);
    case Finish(p, wait) => AppliedHistory(s.db, s.lookups[p].inboxId, s.lookups[p].target, wait, s.now, c);
    case Reclaim(r) => AfterHistory(s.db, ReclaimResult(s, r), c);
    case _ =>
  }

  lemma PlainNextCalls(s: State, step: Step, c: CallId)
    requires Enabled(s, step) && MoveOf(s, step).None? && !step.Gate? && !step.Finish?
    ensures NextDb(s, step).calls == s.db.calls + Batch(step)
    ensures NextDb(s, step).audit == s.db.audit
  {
  }

  lemma IgnoredNextCalls(s: State, p: nat, wait: Time, c: CallId)
    requires Enabled(s, Finish(p, wait)) && MoveOf(s, Finish(p, wait)).None?
    ensures NextDb(s, Finish(p, wait)).calls == s.db.calls
    ensures History(NextDb(s, Finish(p, wait)).audit, c) == HistoryOf(s, c)
  {
    IgnoredHistory(s.db, s.lookups[p].inboxId, s.lookups[p].target, wait, s.now, c);
  }

  lemma GateNextCalls(s: State, i: nat, open: set<CampaignId>, c: CallId)
    requires Enabled(s, Gate(i, open))
    ensures NextDb(s, Gate(i, open)).calls == s.db.calls
    ensures History(NextDb(s, Gate(i, open)).audit, c) == HistoryOf(s, c)
  {
    GateHistory(s.db, s.replicas[i].views, open, c);
  }

  lemma QuietNextCalls(s: State, step: Step, c: CallId)
    requires Enabled(s, step) && MoveOf(s, step).None?
    ensures NextDb(s, step).calls == s.db.calls + Batch(step)
    ensures History(NextDb(s, step).audit, c) == HistoryOf(s, c)
  {
    if step.Gate? {
      GateNextCalls(s, step.i, step.open, c);
      assert step == Gate(step.i, step.open);
    } else if step.Finish? {
      IgnoredNextCalls(s, step.p, step.wait, c);
      assert step == Finish(step.p, step.wait);
    } else {
      PlainNextCalls(s, step, c);
    }
  }

  lemma NextCalls(s: State, step: Step, c: CallId)
    requires Enabled(s, step)
    ensures NextDb(s, step).calls == CallsThen(s.db.calls, Batch(step), MoveOf(s, step))
    ensures History(NextDb(s, step).audit, c) == HistoryOf(s, c) + RowsThen(s.db, MoveOf(s, step), c)
  {
    if MoveOf(s, step).Some? {
      MoveNextCalls(s, step, c);
    } else {
      QuietNextCalls(s, step, c);
    }
  }

  /** Everything a step does to the call rows, their histories and the provider's table. */
  ghost predicate Effect(s: State, s': State, step: Step, m: Option<Move>) {
    && (m.Some? ==> Moves(s.db, m.value) && Origin(s, step, m.value))
    && (m.Some? ==> Batch(step) == map[])
    && s'.db.calls == CallsThen(s.db.calls, Batch(step), m)
    && (forall c :: HistoryOf(s', c) == HistoryOf(s, c) + RowsThen(s.db, m, c))
    && (forall key :: key in s.issued ==> key in s'.issued && s'.issued[key] == s.issued[key])
    && (forall k :: k in s.db.campaigns ==> k in s'.db.campaigns)
    && (step.Create? ==> FreshBatch(s.db, step.k, step.campaign, step.batch, s.now) && step.k in s'.db.campaigns)
  }

  lemma CommitKeepsCampaigns(db: Db, m: Move)
    requires m.call in db.calls
    ensures Commit(db, m).campaigns.Keys == db.campaigns.Keys
  {
  }

  lemma MoveKeepsCampaigns(s: State, step: Step)
    requires Enabled(s, step) && MoveOf(s, step).Some? && MoveOf(s, step).value.call in s.db.calls
    ensures forall k :: k in s.db.campaigns ==> k in NextDb(s, step).campaigns
  {
    CommitKeepsCampaigns(s.db, MoveOf(s, step).value);
  }

  lemma QuietKeepsCampaigns(s: State, step: Step)
    requires Enabled(s, step) && MoveOf(s, step).None?
    ensures forall k :: k in s.db.campaigns ==> k in NextDb(s, step).campaigns
    ensures step.Create? ==> step.k in NextDb(s, step).campaigns
  {
  }

  lemma HandlesStay(s: State, step: Step)
    requires Enabled(s, step)
    ensures forall key :: key in s.issued ==> key in NextIssued(s, step) && NextIssued(s, step)[key] == s.issued[key]
  {
  }

  lemma StepEffect(s: State, step: Step)
    requires Enabled(s, step)
    ensures Effect(s, Apply(s, step), step, MoveOf(s, step))
  {
    if MoveOf(s, step).Some? {
      MoveOrigin(s, step);
    }
    NextCalls(s, step, 0);
    forall c ensures HistoryOf(Apply(s, step), c) == HistoryOf(s, c) + RowsThen(s.db, MoveOf(s, step), c) {
      NextCalls(s, step, c);
    }
    HandlesStay(s, step);
    if MoveOf(s, step).Some? {
      MoveKeepsCampaigns(s, step);
    } else {
      QuietKeepsCampaigns(s, step);
    }
  }

  // ---- actors ----------------------------------------------------------------------------------

  /** Lookups and the inbox: a lookup appears by Look; its row is processed exactly when it finishes. */
  ghost predicate InboxEffect(s: State, s': State, step: Step) {
    && (forall p :: p in s'.lookups ==>
          || (p in s.lookups && s'.lookups[p] == s.lookups[p] && !(step.Finish? && step.p == p))
          || (step.Look? && p == step.p && s'.lookups[p] == Lookup(step.x, step.target)))
    && (step.Look? ==>
          && step.x in s.db.inbox && !s.db.inbox[step.x].processed
          && (forall q :: q in s.lookups ==> s.lookups[q].inboxId != step.x)
          && LooksUp(s.db.calls, s.db.inbox[step.x].event.handle, step.target))
    && (forall x :: x in s.db.inbox ==>
          && x in s'.db.inbox && s'.db.inbox[x].event == s.db.inbox[x].event
          && s'.db.inbox[x].processed
             == (s.db.inbox[x].processed || (step.Finish? && step.p in s.lookups && s.lookups[step.p].inboxId == x)))
    && (forall x :: x in s'.db.inbox && x !in s.db.inbox ==>
          step.Deliver? && step.x == x && s'.db.inbox[x] == InboxRow(step.event, false))
    && (step.Finish? ==> step.p in s.lookups && s.lookups[step.p].inboxId in s.db.inbox)
  }

  lemma CommitKeepsOthers(db: Db, m: Move)
    requires m.call in db.calls
    ensures Commit(db, m).inbox == db.inbox && Commit(db, m).cursors == db.cursors
  {
  }

  lemma WebhookInbox(db: Db, x: EventId, target: Option<Found>, wait: Time, now: Time)
    requires x in db.inbox
    requires var r := Respond(db, db.inbox[x].event, target, wait, now); r.Attempted? ==> !Raises(r.outcome)
    ensures WebhookTx(db, x, target, wait, now).inbox == db.inbox[x := db.inbox[x].(processed := true)]
    ensures WebhookTx(db, x, target, wait, now).cursors == db.cursors
  {
    var r := Respond(db, db.inbox[x].event, target, wait, now);
    if r.Attempted? && r.outcome.Applied? {
      CommitKeepsOthers(db, r.outcome.move);
    }
  }

  lemma NextInbox(s: State, step: Step)
    requires Enabled(s, step)
    ensures NextDb(s, step).inbox
         == match step
            case Deliver(x, event) => InsertEvent(s.db, x, event).inbox
            case Finish(p, _) =>
              var x := s.lookups[p].inboxId; s.db.inbox[x := s.db.inbox[x].(processed := true)]
            case _ => s.db.inbox
  {
    if step.Finish? {
      WebhookInbox(s.db, s.lookups[step.p].inboxId, s.lookups[step.p].target, step.wait, s.now);
    }
  }

  lemma StepInbox(s: State, step: Step)
    requires Enabled(s, step)
    ensures InboxEffect(s, Apply(s, step), step)
  {
    NextInbox(s, step);
  }

  ghost predicate ReclaimEffect(s: State, s': State, step: Step) {
    forall r :: r in s'.reclaims ==>
      || (r in s.reclaims && s'.reclaims[r].target == s.reclaims[r].target)
      || (var t := s'.reclaims[r].target; t.call in s.db.calls && t.row == s.db.calls[t.call] && t.row.status.Dialing?)
  }

  lemma StepReclaims(s: State, step: Step)
    requires Enabled(s, step)
    ensures ReclaimEffect(s, Apply(s, step), step)
  {
  }

  function Held(r: Replica): Option<Claim> {
    if r.HasClaim? || r.Placed? then Some(r.claim) else None
  }

  /** Replicas: a claim appears by ClaimNext, is carried unchanged, and is gone after Settle. */
  ghost predicate ReplicaEffect(s: State, s': State, step: Step, m: Option<Move>) {
    && |s'.replicas| == |s.replicas|
    && (step.ClaimNext? ==> m.Some? == step.choice.Some?)
    && forall i :: 0 <= i < |s.replicas| && Held(s'.replicas[i]).Some? ==>
         if step.ClaimNext? && step.i == i then
           && s.replicas[i].Ready? && m.Some? && m.value.event.CallClaimed?
           && s'.replicas[i] == HasClaim(s.replicas[i].view, s.replicas[i].isRetry,
                                         Claim(m.value.call, m.value.row.epoch, m.value.row.retries))
         else
           && !(step.Settle? && step.i == i)
           && Held(s'.replicas[i]) == Held(s.replicas[i])
           && s'.replicas[i].view == s.replicas[i].view
           && (s'.replicas[i].Placed? && s'.replicas[i].result.Accepted? ==>
                 || s.replicas[i] == s'.replicas[i]
                 || (var key := (s.replicas[i].claim.call, s.replicas[i].claim.epoch);
                     key in s'.issued && s'.issued[key] == s'.replicas[i].result.handle))
  }

  lemma StepReplicas(s: State, step: Step)
    requires Enabled(s, step)
    ensures ReplicaEffect(s, Apply(s, step), step, MoveOf(s, step))
  {
  }
}

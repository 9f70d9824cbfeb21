/** What every reachable state promises about the attempts of one call. */
module Attempts {
  import opened Types
  import opened AuditLog
  import opened Tables
  import opened Protocol
  import opened Shape
  import opened CallInvariant
  import opened LogInvariant
  import opened DrainInvariant
  import opened StepBound
  import opened RetryTick
  import opened Reach

  // ---- one transition --------------------------------------------------------------------------

  /** The campaign of a call that reached a terminal status: rolled up if that was its last, and else as it was. */
  predicate RolledUp(was: Campaign, now: Campaign, k: CampaignId, calls: map<CallId, Call>, ended: bool) {
    now == if ended && AllTerminal(calls, k) && was.status.ActiveCampaign? then was.(status := Verdict(calls, k)) else was
  }

  /**
   What a transition leaves behind: nothing unless it was applied; then one audit row from the expected to the
   new status, the row with that status, the given epoch and columns, its campaign rolled up if its calls have
   all ended, and every other call, its history, every other campaign, the inbox and the cursors as they were.
   */
  lemma TransitionEffect(db: Db, c: CallId, expected: CallStatus, epoch: int, target: CallStatus,
                         newEpoch: Option<int>, upd: Updates, event: EventType, extra: Option<Handle>, now: Time)
    ensures var o := Cas(db, c, expected, epoch, target, newEpoch, upd, event, extra, now);
            && (!o.Applied? ==> After(db, o) == db)
            && (o.Applied? ==>
                  var after := After(db, o);
                  && after.calls.Keys == db.calls.Keys && c in db.calls
                  && (forall d :: d in db.calls && d != c ==> after.calls[d] == db.calls[d])
                  && (forall d :: d != c ==> History(after.audit, d) == History(db.audit, d))
                  && var was, row := db.calls[c], after.calls[c];
                  && row.status == target && row.updatedAt == now
                  && row.epoch == (if newEpoch.Some? then newEpoch.value else epoch)
                  && row.handle == (if upd.handle.Some? then upd.handle.value else was.handle)
                  && row.retries == (if upd.retries.Some? then upd.retries.value else was.retries)
                  && row.nextAttempt == (if upd.nextAttempt.Some? then upd.nextAttempt else was.nextAttempt)
                  && (row.campaign, row.phone, row.createdAt) == (was.campaign, was.phone, was.createdAt)
                  && History(after.audit, c)
                     == History(db.audit, c) + [CallChange(event, was.campaign, c, row.epoch, expected, target, extra)]
                  && after.campaigns.Keys == db.campaigns.Keys
                  && (forall k :: k in db.campaigns && k != was.campaign ==> after.campaigns[k] == db.campaigns[k])
                  && (was.campaign in db.campaigns ==>
                        RolledUp(db.campaigns[was.campaign], after.campaigns[was.campaign], was.campaign, after.calls, Terminal(target)))
                  && after.inbox == db.inbox && after.cursors == db.cursors)
  {
    var o := Cas(db, c, expected, epoch, target, newEpoch, upd, event, extra, now);
    if o.Applied? {
      forall d
        ensures History(After(db, o).audit, d)
             == History(db.audit, d) + if d == c then [ChangeRow(db, o.move)] else []
      {
        CommitHistory(db, o.move, d);
      }
      CommitTables(db, o.move);
    }
  }

  /** A commit writes one call row, may roll up that call's campaign, and touches nothing else but the log. */
  lemma CommitTables(db: Db, m: Move)
    requires m.call in db.calls
    ensures var after, k := Commit(db, m), m.row.campaign;
            && after.calls == db.calls[m.call := m.row] && after.inbox == db.inbox && after.cursors == db.cursors
            && after.campaigns.Keys == db.campaigns.Keys
            && (forall j :: j in db.campaigns && j != k ==> after.campaigns[j] == db.campaigns[j])
            && (k in db.campaigns ==> RolledUp(db.campaigns[k], after.campaigns[k], k, after.calls, Terminal(m.row.status)))
  {
  }

  // ---- what the compare-and-set is worth ---------------------------------------------------------

  /**
   H2: although a webhook compares only status and epoch, the row it overwrites is in every column the row it
   read, however long ago. Limits.BudgetNeedsOrder shows a write to a changed row when draining is out of order.
   */
  lemma WebhookActsOnWhatItRead(p: Premises, n: nat, s: State, step: Step)
    requires Reachable(p, n, s) && p.h2 && Enabled(s, step) && Meets(p, s, step) && step.Finish? && MoveOf(s, step).Some?
    ensures var m := MoveOf(s, step).value;
            m.call in s.db.calls && s.db.calls[m.call] == s.lookups[step.p].target.value.row
  {
    ReachableHolds(p, n, s);
    StepsOf(s, step);
    WritesWhatItRead(s, Apply(s, step), step, MoveOf(s, step).value);
  }

  // ---- the log ---------------------------------------------------------------------------------

  /** Folding a call's audit rows gives its status and epoch. */
  lemma LogReplaysToState(p: Premises, n: nat, s: State, c: CallId)
    requires Reachable(p, n, s) && c in s.db.calls
    ensures Replay(HistoryOf(s, c)) == (s.db.calls[c].status, s.db.calls[c].epoch)
  {
    ReachableHolds(p, n, s);
    assert CallOK(s, c);
  }

  /** Each row of a call's history starts where the one before it ended, and the first at QUEUED, epoch 0. */
  lemma LogIsLinked(p: Premises, n: nat, s: State, c: CallId, i: nat)
    requires Reachable(p, n, s) && c in s.db.calls && i < |HistoryOf(s, c)|
    ensures var h := HistoryOf(s, c);
            && h[i].CallChange? && (i > 0 ==> h[i-1].CallChange?)
            && StartOf(h[i]) == if i == 0 then (Queued, 0) else EndOf(h[i-1])
  {
    ReachableHolds(p, n, s);
    assert CallOK(s, c);
    ChainedLinks(HistoryOf(s, c), i);
  }

  // ---- handles ---------------------------------------------------------------------------------

  /** The handle the row carries, or None, is the one and only handle of the attempt the row is on. */
  ghost predicate OnlyFor(s: State, c: CallId, epoch: int, h: Handle) {
    IssuedFor(s, c, epoch, h) && forall key :: key in s.issued && s.issued[key] == h ==> key == (c, epoch)
  }

  /** H3: a stored handle was issued for this call's current epoch, and for nothing else. */
  lemma HandleIsCurrent(p: Premises, n: nat, s: State, c: CallId)
    requires Reachable(p, n, s) && p.h3 && c in s.db.calls && s.db.calls[c].handle.Some?
    ensures OnlyFor(s, c, s.db.calls[c].epoch, s.db.calls[c].handle.value)
  {
    ReachableHolds(p, n, s);
    assert CallOK(s, c);
  }

  /** A call has its handle stored exactly when phase 3 has recorded the dial of its current attempt. */
  lemma HandleStoredExactlyWhen(p: Premises, n: nat, s: State, c: CallId)
    requires Reachable(p, n, s) && c in s.db.calls
    ensures s.db.calls[c].handle.Some? <==> Dispatched(HistoryOf(s, c), s.db.calls[c].epoch)
  {
    ReachableHolds(p, n, s);
    assert CallLogOK(s, c);
  }

  lemma HolderIsUnique(s: State, c: CallId, epoch: int, h: Handle, d: CallId)
    requires Inv(s) && Injective(s.issued) && IssuedFor(s, c, epoch, h) && d in s.db.calls && s.db.calls[d].handle == Some(h)
    ensures d == c && s.db.calls[d].epoch == epoch
  {
    assert CallOK(s, d);
  }

  /**
   H3: a lookup of handle `h`, which the provider issued for one attempt of call `c`, finds a call exactly
   while `c` is on that attempt and phase 3 has recorded its dial. InboxOnce.EventLostExactlyWhen says what
   becomes of an event that is drained earlier or later.
   */
  lemma EventFindsCallExactlyWhen(p: Premises, n: nat, s: State, c: CallId, epoch: int, h: Handle)
    requires Reachable(p, n, s) && p.h3 && IssuedFor(s, c, epoch, h) && c in s.db.calls
    ensures (exists d :: d in s.db.calls && s.db.calls[d].handle == Some(h))
       <==> s.db.calls[c].epoch == epoch && Dispatched(HistoryOf(s, c), epoch)
  {
    ReachableHolds(p, n, s);
    HandleStoredExactlyWhen(p, n, s, c);
    if d :| d in s.db.calls && s.db.calls[d].handle == Some(h) {
      HolderIsUnique(s, c, epoch, h, d);
    }
    if s.db.calls[c].epoch == epoch && Dispatched(HistoryOf(s, c), epoch) {
      assert CallOK(s, c);
    }
  }

  lemma DispatchEpochsRise(h: seq<AuditRow>, row: Call, i: nat, j: nat)
    requires Chained(h) && DispatchesOK(h, row) && i < j < |h|
    requires h[i].CallChange? && h[j].CallChange? && h[i].event.CallDispatch? && h[j].event.CallDispatch?
    ensures h[i].epoch < h[j].epoch
  {
    EpochsRise(h, i, j);
    assert DispatchedAt(h, i, h[i].epoch) && DispatchedAt(h, j, h[j].epoch);
  }

  /** A call's handle is written at most once per epoch: two DISPATCH rows never share one. */
  lemma HandleWrittenOncePerEpoch(p: Premises, n: nat, s: State, c: CallId, i: nat, j: nat)
    requires Reachable(p, n, s) && c in s.db.calls && i < j < |HistoryOf(s, c)|
    requires HistoryOf(s, c)[i].CallChange? && HistoryOf(s, c)[j].CallChange?
    requires HistoryOf(s, c)[i].event.CallDispatch? && HistoryOf(s, c)[j].event.CallDispatch?
    ensures HistoryOf(s, c)[i].epoch < HistoryOf(s, c)[j].epoch
  {
    ReachableHolds(p, n, s);
    assert CallOK(s, c) && CallLogOK(s, c);
    DispatchEpochsRise(HistoryOf(s, c), s.db.calls[c], i, j);
  }

  /** H3: a webhook that changes a row reports on the attempt the row is on, and on no other. */
  lemma AppliedWebhookIsCurrent(p: Premises, n: nat, s: State, step: Step)
    requires Reachable(p, n, s) && p.h3 && Enabled(s, step) && step.Finish? && MoveOf(s, step).Some?
    ensures var m := MoveOf(s, step).value;
            m.call in s.db.calls && OnlyFor(s, m.call, s.db.calls[m.call].epoch, EventOf(s, step).handle)
  {
    ReachableHolds(p, n, s);
    StepsOf(s, step);
    var m := MoveOf(s, step).value;
    WebhookHitsItsAttempt(s, Apply(s, step), step, m);
    HandleIsCurrent(p, n, s, m.call);
  }

  lemma ConfirmHitsItsAttempt(s: State, s': State, step: Step, m: Move)
    requires Inv(s) && Steps(s, s', step, Some(m)) && step.Reclaim? && m.event.ReclaimSkippedTerminal?
    ensures step.r in s.reclaims && s.reclaims[step.r].target.row.handle.Some?
    ensures s.db.calls[m.call].handle == s.reclaims[step.r].target.row.handle
  {
    assert SnapshotOK(s, s.reclaims[step.r].target);
  }

  /** H3: a terminal status confirmed by the provider was asked about the attempt the row is on. */
  lemma ConfirmedTerminalIsCurrent(p: Premises, n: nat, s: State, step: Step)
    requires Reachable(p, n, s) && p.h3 && Enabled(s, step) && step.Reclaim?
    requires MoveOf(s, step).Some? && MoveOf(s, step).value.event.ReclaimSkippedTerminal?
    ensures var m := MoveOf(s, step).value;
            && m.call in s.db.calls && s.reclaims[step.r].target.row.handle.Some?
            && OnlyFor(s, m.call, s.db.calls[m.call].epoch, s.reclaims[step.r].target.row.handle.value)
  {
    ReachableHolds(p, n, s);
    StepsOf(s, step);
    var m := MoveOf(s, step).value;
    ConfirmHitsItsAttempt(s, Apply(s, step), step, m);
    HandleIsCurrent(p, n, s, m.call);
  }

  // ---- terminal calls --------------------------------------------------------------------------

  /** Everything of a row but its updated_at. */
  predicate SameRow(a: Call, b: Call) {
    a == b.(updatedAt := a.updatedAt)
  }

  lemma TerminalRowStays(s: State, s': State, step: Step, m: Option<Move>, c: CallId)
    requires Effect(s, s', step, m) && c in s.db.calls && Terminal(s.db.calls[c].status)
    ensures c in s'.db.calls && SameRow(s.db.calls[c], s'.db.calls[c])
  {
  }

  lemma TerminalStays(s: State, step: Step, c: CallId)
    requires Enabled(s, step) && c in s.db.calls && Terminal(s.db.calls[c].status)
    ensures c in Apply(s, step).db.calls && SameRow(s.db.calls[c], Apply(s, step).db.calls[c])
  {
    StepEffect(s, step);
    TerminalRowStays(s, Apply(s, step), step, MoveOf(s, step), c);
  }

  /** However webhooks, replays, reclaims and phase 3 interleave, a terminal row never changes again. */
  lemma {:induction false} TerminalIsFinal(p: Premises, s: State, steps: seq<Step>, c: CallId)
    requires IsRun(p, s, steps) && c in s.db.calls && s.db.calls[c].status in {Completed, Failed, NoAnswer, Busy}
    ensures c in Run(p, s, steps).db.calls && SameRow(s.db.calls[c], Run(p, s, steps).db.calls[c])
    decreases |steps|
  {
    if steps != [] {
      TerminalStays(s, steps[0], c);
      TerminalIsFinal(p, Apply(s, steps[0]), steps[1..], c);
    }
  }

  /** Of the calls that are QUEUED, DIALING or IN_PROGRESS, no two have the same phone. */
  lemma PhoneInUseOnce(p: Premises, n: nat, s: State, c: CallId, d: CallId)
    requires Reachable(p, n, s) && c in s.db.calls && d in s.db.calls && c != d
    requires s.db.calls[c].status in {Queued, Dialing, InProgress} && s.db.calls[d].status in {Queued, Dialing, InProgress}
    ensures s.db.calls[c].phone != s.db.calls[d].phone
  {
    ReachableHolds(p, n, s);
  }

  /** A call ends as NO_ANSWER or BUSY only when the reclaim sweep heard so from the provider. */
  lemma NoAnswerOnlyByReclaim(p: Premises, n: nat, s: State, c: CallId)
    requires Reachable(p, n, s) && c in s.db.calls
    requires s.db.calls[c].status.NoAnswer? || s.db.calls[c].status.Busy?
    ensures var h := HistoryOf(s, c); h != [] && h[|h|-1].CallChange? && h[|h|-1].event.ReclaimSkippedTerminal?
  {
    ReachableHolds(p, n, s);
    assert CallOK(s, c) && CallLogOK(s, c);
    var h := HistoryOf(s, c);
    ReplayIsLast(h);
    assert RowOK(s, c, h[|h|-1]);
  }

  /**
   Exactly when an event that found a call is applied, whatever happened since the lookup. Being out of order
   is not among the reasons for ignoring it: a late DIALING takes an IN_PROGRESS row back, and a late event of
   the same attempt still moves a RETRY_PENDING or QUEUED row. A terminal row is written again in one case,
   FAILED without retries when NO_ANSWER or BUSY arrives; it keeps its status and gets another audit row.
   */
  lemma EventAppliesExactlyWhen(db: Db, event: Event, t: Found, wait: Time, now: Time)
    ensures var r := Respond(db, event, Some(t), wait, now);
            (r.Attempted? && r.outcome.Applied?)
            <==> (&& event.status != t.row.status
                  && t.call in db.calls && db.calls[t.call].status == t.row.status && db.calls[t.call].epoch == t.row.epoch
                  && (Terminal(t.row.status) ==>
                        t.row.status.Failed? && (event.status.NoAnswer? || event.status.Busy?) && t.row.retries <= 0)
                  && (t.row.status.RetryPending? && HoldsPhone(event.status) ==>
                        forall d :: d in db.calls && d != t.call && db.calls[d].phone == db.calls[t.call].phone ==>
                          !HoldsPhone(db.calls[d].status)))
  {
  }

  // ---- dials -----------------------------------------------------------------------------------

  /** attempt_epoch counts the claims and the reclaims of the call. */
  lemma EpochIsClaimsPlusReclaims(p: Premises, n: nat, s: State, c: CallId)
    requires Reachable(p, n, s) && c in s.db.calls
    ensures s.db.calls[c].epoch == Rows(HistoryOf(s, c), CallClaimed) + Rows(HistoryOf(s, c), ReclaimExecuted)
  {
    ReachableHolds(p, n, s);
    assert CallOK(s, c);
    EpochCountsDials(HistoryOf(s, c));
  }

  /** Two claims of a run never use the same idempotency key. */
  lemma IdempotencyKeysDistinct(p: Premises, n: nat, s: State, c: CallId, i: nat, j: nat)
    requires Reachable(p, n, s) && c in s.db.calls && i < j < |HistoryOf(s, c)|
    requires HistoryOf(s, c)[i].CallChange? && HistoryOf(s, c)[j].CallChange?
    requires HistoryOf(s, c)[i].event.CallClaimed? && HistoryOf(s, c)[j].event.CallClaimed?
    ensures HistoryOf(s, c)[i].epoch < HistoryOf(s, c)[j].epoch
  {
    ReachableHolds(p, n, s);
    assert CallOK(s, c);
    EpochsRise(HistoryOf(s, c), i, j);
  }

  /** H1: every claim after the first was paid for by a retry or a reclaim. */
  lemma ClaimsBounded(p: Premises, n: nat, s: State, c: CallId)
    requires Reachable(p, n, s) && p.h1 && c in s.db.calls
    ensures var h := HistoryOf(s, c); Rows(h, CallClaimed) <= 1 + RetryMoves(h) + Rows(h, ReclaimExecuted)
  {
    ReachableHolds(p, n, s);
    assert DialsBounded(HistoryOf(s, c), s.db.calls[c].status);
  }

  // ---- retries ---------------------------------------------------------------------------------

  /**
   Initial retries = retries left + moves into RETRY_PENDING. This needs provider statuses only, and either
   in-order draining or no two webhook transactions on the same call at once.
   */
  lemma BudgetConserved(p: Premises, n: nat, s: State, c: CallId)
    requires Reachable(p, n, s) && c in s.db.calls && (p.h2 || (p.h1 && p.serial))
    ensures s.db.calls[c].retries >= 0 && s.db.calls[c].campaign in s.db.campaigns
    ensures s.db.campaigns[s.db.calls[c].campaign].maxAttempts == s.db.calls[c].retries + RetryMoves(HistoryOf(s, c))
  {
    ReachableHolds(p, n, s);
    assert CallOK(s, c) && BudgetOK(s, c);
  }

  /** The count read at claim time is the stored one for as long as the row is on the claimed attempt. */
  lemma ClaimedRetriesNotStale(p: Premises, n: nat, s: State, i: nat)
    requires Reachable(p, n, s) && At(s, i) && Held(s.replicas[i]).Some?
    ensures var claim := s.replicas[i].claim;
            claim.call in s.db.calls && (s.db.calls[claim.call].epoch == claim.epoch ==>
              s.db.calls[claim.call].retries == claim.retries && s.db.calls[claim.call].status.Dialing?)
  {
    ReachableHolds(p, n, s);
    assert HeldOK(s, s.replicas[i]);
  }

  /** H2: with R initial retries and K reclaims a call is moved at most 5R + 4 + 3K times. */
  lemma MovesBounded(p: Premises, n: nat, s: State, c: CallId)
    requires Reachable(p, n, s) && p.h2 && c in s.db.calls
    ensures s.db.calls[c].campaign in s.db.campaigns
    ensures |HistoryOf(s, c)|
         <= 5 * s.db.campaigns[s.db.calls[c].campaign].maxAttempts + 4 + 3 * Rows(HistoryOf(s, c), ReclaimExecuted)
  {
    ReachableHolds(p, n, s);
    assert MeasureOK(s, c) && CallOK(s, c);
  }

  /** H1: the sweep's "null or elapsed" and the requeue's "not null and elapsed" select the same rows. */
  lemma DueTestsAgree(p: Premises, n: nat, s: State, c: CallId, t: Time)
    requires Reachable(p, n, s) && p.h1 && c in s.db.calls
    ensures SweepDue(s.db.calls[c], t) <==> RequeueDue(s.db.calls[c], t)
  {
    ReachableHolds(p, n, s);
  }

  lemma RequeuedIsReady(s: State, choice: Option<CallId>, locked: set<CallId>)
    requires Enabled(s, Requeue(0, choice, locked)) && choice.Some? && RequeueOutcome(s.db, choice.value, s.now).Applied?
    ensures NextReplica(s, Requeue(0, choice, locked)) == Ready(s.replicas[0].view, true)
  {
  }

  /** One scheduler, H2, distinct phones: a tick that picked a due retry requeues a call. */
  lemma RetryTickRequeues(p: Premises, s: State, choice: Option<CallId>, locked: set<CallId>)
    requires Reachable(p, 1, s) && p.h2 && p.phones && Enabled(s, Requeue(0, choice, locked))
    ensures choice.Some? && RequeueOutcome(s.db, choice.value, s.now).Applied?
    ensures NextReplica(s, Requeue(0, choice, locked)) == Ready(s.replicas[0].view, true)
  {
    ReachableHolds(p, 1, s);
    RequeueSucceeds(s, choice, locked);
    RequeuedIsReady(s, choice, locked);
  }

  /** And then, whatever ran in between, it claims one. */
  lemma RetryTickClaims(p: Premises, s: State, choice: Option<CallId>, locked: set<CallId>)
    requires Reachable(p, 1, s) && p.h2 && p.phones && Enabled(s, ClaimNext(0, choice, locked))
    requires s.replicas[0].Ready? && s.replicas[0].isRetry
    ensures choice.Some?
  {
    ReachableHolds(p, 1, s);
    ClaimSucceeds(s, choice, locked);
  }
}

/**
 What the premises on the environment add: provider statuses only (H1), in-order draining (H2), injective
 handles (H3), or webhook transactions that never overlap on one call (serial).
 */
module DrainInvariant {
  import opened Types
  import opened AuditLog
  import opened Tables
  import opened Protocol
  import opened Shape
  import opened CallInvariant

  // ---- H3 --------------------------------------------------------------------------------------

  predicate Injective(issued: map<(CallId, int), Handle>) {
    forall a, b :: a in issued && b in issued && a != b ==> issued[a] != issued[b]
  }

  lemma KeepsInjective(s: State, step: Step)
    requires Enabled(s, step) && H3(s, step) && Injective(s.issued)
    ensures Injective(Apply(s, step).issued)
  {
    if step.Place? && step.minted.Some? {
      var key := (s.replicas[step.i].claim.call, s.replicas[step.i].claim.epoch);
      forall a | a in s.issued ensures s.issued[a] != step.minted.value {
        assert s.issued[a] in s.issued.Values;
      }
    }
  }

  // ---- the inbox -------------------------------------------------------------------------------

  lemma ProcessedStays(s: State, s': State, step: Step, h: Handle)
    requires InboxEffect(s, s', step)
    ensures Done(s.db.inbox, h) ==> Done(s'.db.inbox, h)
    ensures Started(s.db.inbox, h) ==> Started(s'.db.inbox, h)
  {
    if Done(s.db.inbox, h) {
      var x :| x in s.db.inbox && s.db.inbox[x].processed && s.db.inbox[x].event.handle == h && Terminal(s.db.inbox[x].event.status);
      assert x in s'.db.inbox && s'.db.inbox[x] == s.db.inbox[x];
    }
    if Started(s.db.inbox, h) {
      var x :| x in s.db.inbox && s.db.inbox[x].processed && s.db.inbox[x].event.handle == h && Rank(s.db.inbox[x].event.status) >= 1;
      assert x in s'.db.inbox && s'.db.inbox[x] == s.db.inbox[x];
    }
  }

  /** The event a Finish step handles. */
  function EventOf(s: State, step: Step): Event
    requires step.Finish? && step.p in s.lookups && s.lookups[step.p].inboxId in s.db.inbox
  {
    s.db.inbox[s.lookups[step.p].inboxId].event
  }

  lemma FinishProcesses(s: State, s': State, step: Step)
    requires InboxEffect(s, s', step) && step.Finish?
    ensures Terminal(EventOf(s, step).status) ==> Done(s'.db.inbox, EventOf(s, step).handle)
    ensures Rank(EventOf(s, step).status) >= 1 ==> Started(s'.db.inbox, EventOf(s, step).handle)
  {
    var x := s.lookups[step.p].inboxId;
    assert x in s'.db.inbox && s'.db.inbox[x].processed && s'.db.inbox[x].event == EventOf(s, step);
  }

  /** A webhook's move hits the attempt whose handle its event names. */
  lemma WebhookHitsItsAttempt(s: State, s': State, step: Step, m: Move)
    requires Inv(s) && Steps(s, s', step, Some(m)) && step.Finish?
    ensures s.db.calls[m.call].handle == Some(EventOf(s, step).handle)
    ensures m.row.handle == s.db.calls[m.call].handle && m.row.epoch == s.db.calls[m.call].epoch
  {
    assert LookupOK(s, step.p);
  }

  // ---- H1 --------------------------------------------------------------------------------------

  predicate DialsBounded(h: seq<AuditRow>, status: CallStatus) {
    && Rows(h, CallClaimed) + (if status.Queued? then 1 else 0) <= 1 + Rows(h, CallRetryDue) + Rows(h, ReclaimExecuted)
    && Rows(h, CallRetryDue) + (if status.RetryPending? then 1 else 0) <= RetryMoves(h)
  }

  ghost predicate H1Inv(s: State) {
    && (forall x :: x in s.db.inbox ==> ProviderStatus(s.db.inbox[x].event.status))
    && (forall c :: c in s.db.calls ==>
          && (s.db.calls[c].status.RetryPending? ==> s.db.calls[c].nextAttempt.Some?)
          && DialsBounded(HistoryOf(s, c), s.db.calls[c].status))
  }

  /** Under H1 a webhook neither queues a call nor parks it without a time. */
  lemma H1Move(s: State, s': State, step: Step, m: Move)
    requires H1Inv(s) && Steps(s, s', step, Some(m))
    ensures m.event.CallTransition? ==> !m.row.status.Queued?
    ensures m.event.CallTransition? && m.row.status.RetryPending? ==> m.row.nextAttempt.Some?
  {
  }

  lemma DialsAfter(h: seq<AuditRow>, was: Call, m: Move, row: AuditRow)
    requires DialsBounded(h, was.status) && LocalStep(was, m.row, m.event)
    requires row.CallChange? && row.event == m.event && row.after == m.row.status
    requires m.event.CallTransition? ==> !m.row.status.Queued?
    ensures DialsBounded(h + [row], m.row.status)
  {
    CountsAppend(h, row);
  }

  lemma KeepsProviderStatuses(s: State, s': State, step: Step)
    requires H1Inv(s) && InboxEffect(s, s', step) && H1(step)
    ensures forall x :: x in s'.db.inbox ==> ProviderStatus(s'.db.inbox[x].event.status)
  {
    forall x | x in s'.db.inbox ensures ProviderStatus(s'.db.inbox[x].event.status) {
      assert x in s.db.inbox || s'.db.inbox[x].event == step.event;
    }
  }

  lemma KeepsH1Call(s: State, s': State, step: Step, m: Option<Move>, c: CallId)
    requires Inv(s) && H1Inv(s) && Steps(s, s', step, m) && c in s'.db.calls
    ensures s'.db.calls[c].status.RetryPending? ==> s'.db.calls[c].nextAttempt.Some?
    ensures DialsBounded(HistoryOf(s', c), s'.db.calls[c].status)
  {
    assert HistoryOf(s', c) == HistoryOf(s, c) + RowsThen(s.db, m, c);
    if m.Some? && m.value.call == c {
      H1Move(s, s', step, m.value);
      DialsAfter(HistoryOf(s, c), s.db.calls[c], m.value, ChangeRow(s.db, m.value));
    } else {
      assert HistoryOf(s', c) == HistoryOf(s, c);
    }
  }

  lemma KeepsH1(s: State, s': State, step: Step, m: Option<Move>)
    requires Inv(s) && H1Inv(s) && Steps(s, s', step, m) && H1(step)
    ensures H1Inv(s')
  {
    KeepsProviderStatuses(s, s', step);
    forall c | c in s'.db.calls
      ensures s'.db.calls[c].status.RetryPending? ==> s'.db.calls[c].nextAttempt.Some?
      ensures DialsBounded(HistoryOf(s', c), s'.db.calls[c].status)
    {
      KeepsH1Call(s, s', step, m, c);
    }
  }

  // ---- serial ----------------------------------------------------------------------------------

  ghost predicate SerialInv(s: State) {
    && (forall p, q :: p in s.lookups && q in s.lookups && p != q && s.lookups[p].target.Some? && s.lookups[q].target.Some?
          ==> s.lookups[p].target.value.call != s.lookups[q].target.value.call)
    && (forall p :: p in s.lookups && s.lookups[p].target.Some? ==> RetriesFresh(s, s.lookups[p].target.value))
  }

  /** The remembered retry count is still the stored one, as long as the attempt is the same. */
  ghost predicate RetriesFresh(s: State, t: Found) {
    t.call in s.db.calls && (s.db.calls[t.call].epoch == t.row.epoch ==> s.db.calls[t.call].retries == t.row.retries)
  }

  lemma RetriesChangeByRetry(s: State, s': State, step: Step, m: Move, t: Found)
    requires Inv(s) && Steps(s, s', step, Some(m)) && SnapshotOK(s, t) && t.row.handle.Some?
    requires m.call == t.call && m.row.epoch == t.row.epoch && m.row.retries != s.db.calls[m.call].retries
    ensures step.Finish? && m.row.status.RetryPending? && Terminal(EventOf(s, step).status)
    ensures s.db.calls[m.call].handle == t.row.handle
  {
  }

  /** Without an overlapping webhook transaction on its call, a remembered retry count stays fresh. */
  lemma KeepsRetriesFresh(s: State, s': State, step: Step, m: Option<Move>, p: nat)
    requires Inv(s) && SerialInv(s) && Steps(s, s', step, m)
    requires p in s.lookups && s.lookups[p].target.Some? && !(step.Finish? && step.p == p)
    ensures RetriesFresh(s', s.lookups[p].target.value)
  {
    var t := s.lookups[p].target.value;
    assert LookupOK(s, p) && RetriesFresh(s, t);
    CallsEvolve(s, s', step, m, t.call);
    if m.Some? && m.value.call == t.call && m.value.row.epoch == t.row.epoch && m.value.row.retries != s.db.calls[t.call].retries {
      RetriesChangeByRetry(s, s', step, m.value, t);
    }
  }

  lemma KeepsSerial(s: State, s': State, step: Step, m: Option<Move>)
    requires Inv(s) && SerialInv(s) && Steps(s, s', step, m) && Serial(s, step)
    ensures SerialInv(s')
  {
    forall p | p in s'.lookups && s'.lookups[p].target.Some? ensures RetriesFresh(s', s'.lookups[p].target.value) {
      if p in s.lookups && s'.lookups[p] == s.lookups[p] && !(step.Finish? && step.p == p) {
        KeepsRetriesFresh(s, s', step, m, p);
      } else {
        assert m.None?;
      }
    }
  }

  // ---- budget ----------------------------------------------------------------------------------

  ghost predicate BudgetOK(s: State, c: CallId)
    requires c in s.db.calls
  {
    && s.db.calls[c].campaign in s.db.campaigns
    && s.db.campaigns[s.db.calls[c].campaign].maxAttempts == s.db.calls[c].retries + RetryMoves(HistoryOf(s, c))
  }

  ghost predicate BudgetInv(s: State) {
    forall c :: c in s.db.calls ==> BudgetOK(s, c)
  }

  /** A NO_ANSWER or BUSY transaction is about to retry on a count that has changed since it looked the row up. */
  ghost predicate StaleRetry(s: State, step: Step) {
    && step.Finish? && step.p in s.lookups && s.lookups[step.p].target.Some? && s.lookups[step.p].inboxId in s.db.inbox
    && var t := s.lookups[step.p].target.value;
    && (EventOf(s, step).status.NoAnswer? || EventOf(s, step).status.Busy?)
    && t.row.retries > 0 && t.call in s.db.calls && t.row.retries != s.db.calls[t.call].retries
  }

  /** The retries a stale transaction gives away: the count it read less the stored one. */
  ghost function Excess(s: State, step: Step): int {
    if StaleRetry(s, step) then
      var t := s.lookups[step.p].target.value;
      t.row.retries - s.db.calls[t.call].retries
    else 0
  }

  ghost predicate SameConfig(s: State, s': State) {
    forall k :: k in s.db.campaigns ==>
      && k in s'.db.campaigns
      && s'.db.campaigns[k] == s.db.campaigns[k].(status := s'.db.campaigns[k].status)
  }

  /** A move into RETRY_PENDING spends one retry, and every other move none, but for what a stale count adds. */
  lemma MoveSpends(s: State, step: Step, m: Move)
    requires ClaimsOK(s) && H1Inv(s) && Moves(s.db, m) && Origin(s, step, m)
    ensures m.row.retries
         == s.db.calls[m.call].retries - (if m.row.status.RetryPending? then 1 else 0) + Excess(s, step)
  {
    if step.Settle? {
      assert HeldOK(s, s.replicas[step.i]);
    }
  }

  /** By how much the retries left and used exceed the initial ones. */
  ghost function Drift(s: State, c: CallId): int
    requires c in s.db.calls && s.db.calls[c].campaign in s.db.campaigns
  {
    s.db.calls[c].retries + RetryMoves(HistoryOf(s, c)) - s.db.campaigns[s.db.calls[c].campaign].maxAttempts
  }

  /** H1: a move changes the drift of its call by exactly what a stale count adds. */
  lemma BudgetStep(s: State, s': State, step: Step, m: Move)
    requires Inv(s) && H1Inv(s) && Steps(s, s', step, Some(m)) && SameConfig(s, s')
    ensures s.db.calls[m.call].campaign in s.db.campaigns
    ensures m.call in s'.db.calls && s'.db.calls[m.call].campaign in s'.db.campaigns
    ensures Drift(s', m.call) == Drift(s, m.call) + Excess(s, step)
  {
    assert CallOK(s, m.call);
    MoveSpends(s, step, m);
    CountsAppend(HistoryOf(s, m.call), ChangeRow(s.db, m));
    assert HistoryOf(s', m.call) == HistoryOf(s, m.call) + [ChangeRow(s.db, m)];
  }

  lemma KeepsBudget(s: State, s': State, step: Step, m: Option<Move>)
    requires Inv(s) && H1Inv(s) && Steps(s, s', step, m) && SameConfig(s, s') && BudgetInv(s)
    requires m.Some? ==> !StaleRetry(s, step)
    requires step.Create? ==> s'.db.campaigns[step.k] == step.campaign
    ensures BudgetInv(s')
  {
    forall c | c in s'.db.calls ensures BudgetOK(s', c) {
      if m.Some? && m.value.call == c {
        BudgetStep(s, s', step, m.value);
        assert BudgetOK(s, c);
      } else {
        assert HistoryOf(s', c) == HistoryOf(s, c) + RowsThen(s.db, m, c);
        assert HistoryOf(s', c) == HistoryOf(s, c);
        assert c in s.db.calls ==> BudgetOK(s, c);
      }
    }
  }

  lemma SerialNotStale(s: State, s': State, step: Step, m: Move)
    requires Inv(s) && SerialInv(s) && Steps(s, s', step, Some(m))
    ensures !StaleRetry(s, step)
  {
  }

  // ---- H2 --------------------------------------------------------------------------------------

  /** The next attempt of a call that is queued or dialled is not in the future. */
  predicate DueBy(row: Call, now: Time) {
    HoldsPhone(row.status) ==> row.nextAttempt.None? || row.nextAttempt.value <= now
  }

  ghost predicate DrainOK(s: State, c: CallId)
    requires c in s.db.calls
  {
    var row := s.db.calls[c];
    && (row.handle.Some? && (row.status.Queued? || row.status.RetryPending?) ==> Done(s.db.inbox, row.handle.value))
    && (row.status.InProgress? ==> row.handle.Some? && Started(s.db.inbox, row.handle.value))
    && DueBy(row, s.now)
  }

  ghost predicate LookupFresh(s: State, t: Found) {
    && !t.row.status.Queued? && !t.row.status.RetryPending?
    && (t.row.handle.Some? && !Done(s.db.inbox, t.row.handle.value) ==> RetriesFresh(s, t))
  }

  ghost predicate H2Inv(s: State) {
    && (forall c :: c in s.db.calls ==> DrainOK(s, c))
    && (forall p :: p in s.lookups && s.lookups[p].target.Some? ==> LookupFresh(s, s.lookups[p].target.value))
  }

  /** Under H2 webhooks only ever push a dialled call forward. */
  lemma H2Move(s: State, s': State, step: Step, m: Move)
    requires Inv(s) && H1Inv(s) && H2Inv(s) && Steps(s, s', step, Some(m)) && H2(s, step) && step.Finish?
    ensures var was := s.db.calls[m.call].status;
            && !was.Queued? && !was.RetryPending?
            && !m.row.status.Dialing? && !m.row.status.Queued?
            && (m.row.status.InProgress? ==> was.Dialing?)
            && !Done(s.db.inbox, EventOf(s, step).handle)
  {
    WebhookHitsItsAttempt(s, s', step, m);
    assert DrainOK(s, m.call);
    assert LookupFresh(s, s.lookups[step.p].target.value);
  }

  lemma H2NotStale(s: State, s': State, step: Step, m: Move)
    requires Inv(s) && H1Inv(s) && H2Inv(s) && Steps(s, s', step, Some(m)) && H2(s, step)
    ensures !StaleRetry(s, step)
  {
    if step.Finish? {
      assert LookupOK(s, step.p);
      assert LookupFresh(s, s.lookups[step.p].target.value);
    }
  }

  lemma KeepsDrainFinish(s: State, s': State, step: Step, m: Move)
    requires Inv(s) && H1Inv(s) && H2Inv(s) && Steps(s, s', step, Some(m)) && H2(s, step) && step.Finish?
    ensures var h := s.db.calls[m.call].handle;
            && h.Some? && m.row.handle == h
            && !m.row.status.Queued?
            && (m.row.status.RetryPending? ==> Done(s'.db.inbox, h.value))
            && (m.row.status.InProgress? ==> Started(s'.db.inbox, h.value))
            && (HoldsPhone(m.row.status) ==> s.db.calls[m.call].status.Dialing? && m.row.nextAttempt == s.db.calls[m.call].nextAttempt)
  {
    H2Move(s, s', step, m);
    WebhookHitsItsAttempt(s, s', step, m);
    FinishProcesses(s, s', step);
  }

  /** A settled claim: the row had no handle, and only a dispatch gives it one. */
  lemma SettledRow(s: State, step: Step, m: Move)
    requires ClaimsOK(s) && Moves(s.db, m) && Origin(s, step, m) && step.Settle?
    ensures s.db.calls[m.call].handle.None?
    ensures s.db.calls[m.call].retries == s.replicas[step.i].claim.retries
    ensures m.row.handle.Some? ==> m.event.CallDispatch?
  {
    assert HeldOK(s, s.replicas[step.i]);
  }

  lemma KeepsDrainOther(s: State, step: Step, m: Move)
    requires Inv(s) && Moves(s.db, m) && Origin(s, step, m) && !step.Finish?
    requires DueBy(s.db.calls[m.call], s.now)
    ensures m.row.status.Queued? && m.row.handle.Some? ==>
              s.db.calls[m.call].status.RetryPending? && m.row.handle == s.db.calls[m.call].handle
    ensures m.row.status.RetryPending? ==> m.row.handle.None?
    ensures !m.row.status.InProgress?
    ensures HoldsPhone(m.row.status) ==> DueBy(m.row, s.now)
  {
    if step.Settle? {
      SettledRow(s, step, m);
    }
  }

  lemma KeepsDrainMoved(s: State, s': State, step: Step, m: Move)
    requires Inv(s) && H1Inv(s) && H2Inv(s) && Steps(s, s', step, Some(m)) && H2(s, step) && s.now <= s'.now
    ensures DrainOK(s', m.call)
  {
    assert DrainOK(s, m.call);
    assert s'.db.calls[m.call] == m.row;
    if m.row.handle.Some? {
      ProcessedStays(s, s', step, m.row.handle.value);
    }
    if step.Finish? {
      KeepsDrainFinish(s, s', step, m);
    } else {
      KeepsDrainOther(s, step, m);
    }
  }

  lemma KeepsDrain(s: State, s': State, step: Step, m: Option<Move>, c: CallId)
    requires Inv(s) && H1Inv(s) && H2Inv(s) && Steps(s, s', step, m) && H2(s, step) && s.now <= s'.now
    requires c in s'.db.calls
    ensures DrainOK(s', c)
  {
    if m.Some? && m.value.call == c {
      KeepsDrainMoved(s, s', step, m.value);
    } else if c in s.db.calls {
      assert DrainOK(s, c);
      if s.db.calls[c].handle.Some? {
        ProcessedStays(s, s', step, s.db.calls[c].handle.value);
      }
    }
  }

  lemma KeepsOldLookup(s: State, s': State, step: Step, m: Option<Move>, p: nat)
    requires Inv(s) && H2Inv(s) && Steps(s, s', step, m)
    requires p in s.lookups && s.lookups[p].target.Some?
    ensures LookupFresh(s', s.lookups[p].target.value)
  {
    var t := s.lookups[p].target.value;
    assert LookupFresh(s, t) && LookupOK(s, p);
    ProcessedStays(s, s', step, t.row.handle.value);
    CallsEvolve(s, s', step, m, t.call);
    if m.Some? && m.value.call == t.call && m.value.row.epoch == t.row.epoch && m.value.row.retries != s.db.calls[t.call].retries {
      RetriesChangeByRetry(s, s', step, m.value, t);
      WebhookHitsItsAttempt(s, s', step, m.value);
      FinishProcesses(s, s', step);
    }
  }

  lemma KeepsLookupFresh(s: State, s': State, step: Step, m: Option<Move>, p: nat)
    requires Inv(s) && H2Inv(s) && Steps(s, s', step, m) && H2(s, step)
    requires p in s'.lookups && s'.lookups[p].target.Some?
    ensures LookupFresh(s', s'.lookups[p].target.value)
  {
    var t := s'.lookups[p].target.value;
    if p in s.lookups && s'.lookups[p] == s.lookups[p] {
      KeepsOldLookup(s, s', step, m, p);
    } else {
      assert DrainOK(s, t.call);
    }
  }

  lemma KeepsH2(s: State, s': State, step: Step, m: Option<Move>)
    requires Inv(s) && H1Inv(s) && H2Inv(s) && Steps(s, s', step, m) && H2(s, step) && s.now <= s'.now
    ensures H2Inv(s')
  {
    forall c | c in s'.db.calls ensures DrainOK(s', c) {
      KeepsDrain(s, s', step, m, c);
    }
    forall p | p in s'.lookups && s'.lookups[p].target.Some? ensures LookupFresh(s', s'.lookups[p].target.value) {
      KeepsLookupFresh(s, s', step, m, p);
    }
  }

  // ---- what a webhook has read -------------------------------------------------------------------

  /**
   Until the terminal event of its handle is processed, a row that a webhook looked up is still exactly the
   row it read, or it has moved forward to a status that it cannot come back from on the same attempt.
   */
  ghost predicate Pinned(s: State, t: Found) {
    t.call in s.db.calls && t.row.handle.Some? && s.db.calls[t.call].epoch == t.row.epoch
      && !Done(s.db.inbox, t.row.handle.value) ==>
      s.db.calls[t.call] == t.row || Rank(s.db.calls[t.call].status) > Rank(t.row.status)
  }

  ghost predicate PinnedInv(s: State) {
    forall p :: p in s.lookups && s.lookups[p].target.Some? ==> Pinned(s, s.lookups[p].target.value)
  }

  lemma PinnedMoves(s: State, s': State, step: Step, m: Move, t: Found)
    requires Inv(s) && H1Inv(s) && H2Inv(s) && Steps(s, s', step, Some(m)) && H2(s, step)
    requires SnapshotOK(s, t) && t.row.handle.Some? && m.call == t.call && m.row.epoch == t.row.epoch
    requires !Done(s'.db.inbox, t.row.handle.value)
    ensures Rank(m.row.status) > Rank(s.db.calls[m.call].status)
  {
    ProcessedStays(s, s', step, t.row.handle.value);
    assert DrainOK(s, m.call);
    if step.Finish? {
      H2Move(s, s', step, m);
      WebhookHitsItsAttempt(s, s', step, m);
      FinishProcesses(s, s', step);
    } else if step.Settle? {
      SettledRow(s, step, m);
    }
  }

  lemma PinnedStays(s: State, s': State, step: Step, m: Option<Move>, t: Found)
    requires Inv(s) && H1Inv(s) && H2Inv(s) && Steps(s, s', step, m) && H2(s, step)
    requires SnapshotOK(s, t) && t.row.handle.Some? && Pinned(s, t)
    ensures Pinned(s', t)
  {
    CallsEvolve(s, s', step, m, t.call);
    ProcessedStays(s, s', step, t.row.handle.value);
    if m.Some? && m.value.call == t.call && m.value.row.epoch == t.row.epoch && !Done(s'.db.inbox, t.row.handle.value) {
      PinnedMoves(s, s', step, m.value, t);
    }
  }

  lemma KeepsPinned(s: State, s': State, step: Step, m: Option<Move>, p: nat)
    requires Inv(s) && H1Inv(s) && H2Inv(s) && PinnedInv(s) && Steps(s, s', step, m) && H2(s, step)
    requires p in s'.lookups && s'.lookups[p].target.Some?
    ensures Pinned(s', s'.lookups[p].target.value)
  {
    if p in s.lookups && s'.lookups[p] == s.lookups[p] {
      assert LookupOK(s, p);
      PinnedStays(s, s', step, m, s.lookups[p].target.value);
    }
  }

  lemma KeepsPinnedInv(s: State, s': State, step: Step, m: Option<Move>)
    requires Inv(s) && H1Inv(s) && H2Inv(s) && PinnedInv(s) && Steps(s, s', step, m) && H2(s, step)
    ensures PinnedInv(s')
  {
    forall p | p in s'.lookups && s'.lookups[p].target.Some? ensures Pinned(s', s'.lookups[p].target.value) {
      KeepsPinned(s, s', step, m, p);
    }
  }

  /** H2: the row a webhook writes is, column by column, the row it read. */
  lemma WritesWhatItRead(s: State, s': State, step: Step, m: Move)
    requires Inv(s) && H2Inv(s) && PinnedInv(s) && Steps(s, s', step, Some(m)) && H2(s, step) && step.Finish?
    ensures s.db.calls[m.call] == s.lookups[step.p].target.value.row
  {
    assert LookupOK(s, step.p) && Pinned(s, s.lookups[step.p].target.value);
  }
}

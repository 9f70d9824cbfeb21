/** Under in-order draining (H2) claims, requeues and retries balance exactly. */
module ExactDials {
  import opened Types
  import opened AuditLog
  import opened Tables
  import opened Protocol
  import opened Shape
  import opened CallInvariant
  import opened DrainInvariant

  predicate DialsExact(h: seq<AuditRow>, status: CallStatus) {
    && Rows(h, CallClaimed) + (if status.Queued? then 1 else 0) == 1 + Rows(h, CallRetryDue) + Rows(h, ReclaimExecuted)
    && Rows(h, CallRetryDue) + (if status.RetryPending? then 1 else 0) == RetryMoves(h)
  }

  ghost predicate ExactInv(s: State) {
    forall c :: c in s.db.calls ==> DialsExact(HistoryOf(s, c), s.db.calls[c].status)
  }

  lemma ExactAfter(h: seq<AuditRow>, was: Call, m: Move, row: AuditRow)
    requires DialsExact(h, was.status) && LocalStep(was, m.row, m.event)
    requires row.CallChange? && row.event == m.event && row.after == m.row.status
    requires m.event.CallTransition? ==> !was.status.Queued? && !was.status.RetryPending? && !m.row.status.Queued?
    ensures DialsExact(h + [row], m.row.status)
  {
    CountsAppend(h, row);
  }

  /** Under H2 a transition never starts from a waiting row and never queues one. */
  lemma TransitionsAreInFlight(s: State, s': State, step: Step, m: Move)
    requires Inv(s) && H1Inv(s) && H2Inv(s) && Steps(s, s', step, Some(m)) && H2(s, step) && m.event.CallTransition?
    ensures !s.db.calls[m.call].status.Queued? && !s.db.calls[m.call].status.RetryPending? && !m.row.status.Queued?
  {
    if step.Finish? {
      H2Move(s, s', step, m);
    }
  }

  lemma KeepsExactCall(s: State, s': State, step: Step, m: Option<Move>, c: CallId)
    requires Inv(s) && H1Inv(s) && H2Inv(s) && ExactInv(s) && Steps(s, s', step, m) && H2(s, step) && c in s'.db.calls
    ensures DialsExact(HistoryOf(s', c), s'.db.calls[c].status)
  {
    assert HistoryOf(s', c) == HistoryOf(s, c) + RowsThen(s.db, m, c);
    if m.Some? && m.value.call == c {
      if m.value.event.CallTransition? {
        TransitionsAreInFlight(s, s', step, m.value);
      }
      ExactAfter(HistoryOf(s, c), s.db.calls[c], m.value, ChangeRow(s.db, m.value));
    } else {
      assert HistoryOf(s', c) == HistoryOf(s, c);
    }
  }

  lemma KeepsExact(s: State, s': State, step: Step, m: Option<Move>)
    requires Inv(s) && H1Inv(s) && H2Inv(s) && ExactInv(s) && Steps(s, s', step, m) && H2(s, step)
    ensures ExactInv(s')
  {
    forall c | c in s'.db.calls ensures DialsExact(HistoryOf(s', c), s'.db.calls[c].status) {
      KeepsExactCall(s, s', step, m, c);
    }
  }
}

/** Under in-order draining (H2) a call makes at most 5R + 4 + 3K moves, for R retries and K reclaims. */
module StepBound {
  import opened Types
  import opened AuditLog
  import opened Tables
  import opened Protocol
  import opened Shape
  import opened CallInvariant
  import opened DrainInvariant

  /**
   How far a call is from its end. DIALING counts more before the handle is written than after; a terminal
   row whose provider has not reported a terminal event may still make one move onto itself.
   */
  ghost function RankOf(inbox: map<EventId, InboxRow>, row: Call): int {
    match row.status
    case RetryPending => 5
    case Queued => 4
    case Dialing => if row.handle.None? then 3 else 2
    case InProgress => 1
    case _ => if row.handle.Some? && !Done(inbox, row.handle.value) then 1 else 0
  }

  ghost function Measure(inbox: map<EventId, InboxRow>, row: Call): int {
    5 * row.retries + RankOf(inbox, row)
  }

  ghost predicate MeasureOK(s: State, c: CallId)
    requires c in s.db.calls
  {
    && s.db.calls[c].campaign in s.db.campaigns
    && |HistoryOf(s, c)| + Measure(s.db.inbox, s.db.calls[c])
       <= 5 * s.db.campaigns[s.db.calls[c].campaign].maxAttempts + 4 + 3 * Rows(HistoryOf(s, c), ReclaimExecuted)
  }

  ghost predicate MeasureInv(s: State) {
    forall c :: c in s.db.calls ==> MeasureOK(s, c)
  }

  lemma WebhookDescends(s: State, s': State, step: Step, m: Move)
    requires Inv(s) && H1Inv(s) && H2Inv(s) && Steps(s, s', step, Some(m)) && H2(s, step) && step.Finish?
    ensures Measure(s'.db.inbox, m.row) < Measure(s.db.inbox, s.db.calls[m.call])
  {
    H2Move(s, s', step, m);
    WebhookHitsItsAttempt(s, s', step, m);
    FinishProcesses(s, s', step);
    H2NotStale(s, s', step, m);
    MoveSpends(s, step, m);
    ForwardDescends(s.db.inbox, s'.db.inbox, s.db.calls[m.call], m.row, EventOf(s, step).handle);
  }

  /** Whatever a webhook writes under H2, it uses up a rank, a retry or the terminal event. */
  lemma ForwardDescends(inbox: map<EventId, InboxRow>, inbox': map<EventId, InboxRow>, was: Call, row: Call, h: Handle)
    requires was.handle == Some(h) && row.handle == Some(h) && !Done(inbox, h)
    requires !was.status.Queued? && !was.status.RetryPending? && !row.status.Dialing? && !row.status.Queued?
    requires row.status.InProgress? ==> was.status.Dialing?
    requires Terminal(row.status) ==> Done(inbox', h)
    requires row.retries == was.retries - if row.status.RetryPending? then 1 else 0
    ensures Measure(inbox', row) < Measure(inbox, was)
  {
  }

  lemma OwnDescends(s: State, step: Step, m: Move, inbox: map<EventId, InboxRow>)
    requires Inv(s) && Moves(s.db, m) && Origin(s, step, m) && !step.Finish?
    ensures Measure(inbox, m.row) <= Measure(s.db.inbox, s.db.calls[m.call]) + if m.event.ReclaimExecuted? then 2 else -1
  {
    if step.Settle? {
      SettledRow(s, step, m);
    } else if step.Reclaim? {
      assert SnapshotOK(s, s.reclaims[step.r].target);
    }
  }

  lemma MoveDescends(s: State, s': State, step: Step, m: Move)
    requires Inv(s) && H1Inv(s) && H2Inv(s) && Steps(s, s', step, Some(m)) && H2(s, step)
    ensures Measure(s'.db.inbox, m.row)
         <= Measure(s.db.inbox, s.db.calls[m.call]) + if m.event.ReclaimExecuted? then 2 else -1
  {
    if step.Finish? {
      WebhookDescends(s, s', step, m);
    } else {
      OwnDescends(s, step, m, s'.db.inbox);
    }
  }

  lemma KeepsMeasureMoved(s: State, s': State, step: Step, m: Move)
    requires Inv(s) && H1Inv(s) && H2Inv(s) && Steps(s, s', step, Some(m)) && H2(s, step) && SameConfig(s, s')
    requires MeasureOK(s, m.call)
    ensures m.call in s'.db.calls && MeasureOK(s', m.call)
  {
    MoveDescends(s, s', step, m);
    assert HistoryOf(s', m.call) == HistoryOf(s, m.call) + [ChangeRow(s.db, m)];
    CountsAppend(HistoryOf(s, m.call), ChangeRow(s.db, m));
  }

  lemma MeasureStill(s: State, s': State, step: Step, row: Call)
    requires InboxEffect(s, s', step)
    ensures Measure(s'.db.inbox, row) <= Measure(s.db.inbox, row)
  {
    if row.handle.Some? {
      ProcessedStays(s, s', step, row.handle.value);
    }
  }

  lemma KeepsMeasureStill(s: State, s': State, step: Step, m: Option<Move>, c: CallId)
    requires Effect(s, s', step, m) && InboxEffect(s, s', step) && SameConfig(s, s')
    requires c in s.db.calls && MeasureOK(s, c) && !(m.Some? && m.value.call == c)
    ensures c in s'.db.calls && MeasureOK(s', c)
  {
    assert HistoryOf(s', c) == HistoryOf(s, c) + RowsThen(s.db, m, c);
    assert HistoryOf(s', c) == HistoryOf(s, c);
    MeasureStill(s, s', step, s.db.calls[c]);
  }

  lemma KeepsMeasureNew(s: State, s': State, step: Step, m: Option<Move>, c: CallId)
    requires Inv(s) && Steps(s, s', step, m) && c in s'.db.calls && c !in s.db.calls
    requires step.Create? ==> step.k in s'.db.campaigns && s'.db.campaigns[step.k] == step.campaign
    ensures MeasureOK(s', c)
  {
    assert HistoryOf(s', c) == HistoryOf(s, c) + RowsThen(s.db, m, c);
    assert HistoryOf(s', c) == [];
  }

  lemma KeepsMeasure(s: State, s': State, step: Step, m: Option<Move>)
    requires Inv(s) && H1Inv(s) && H2Inv(s) && Steps(s, s', step, m) && H2(s, step) && SameConfig(s, s')
    requires MeasureInv(s)
    requires step.Create? ==> step.k in s'.db.campaigns && s'.db.campaigns[step.k] == step.campaign
    ensures MeasureInv(s')
  {
    forall c | c in s'.db.calls ensures MeasureOK(s', c) {
      if m.Some? && m.value.call == c {
        KeepsMeasureMoved(s, s', step, m.value);
      } else if c in s.db.calls {
        KeepsMeasureStill(s, s', step, m, c);
      } else {
        KeepsMeasureNew(s, s', step, m, c);
      }
    }
  }
}

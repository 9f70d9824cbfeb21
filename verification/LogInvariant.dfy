/** What the audit log of one call says about its handles and its final status. */
module LogInvariant {
  import opened Types
  import opened AuditLog
  import opened Tables
  import opened Protocol
  import opened Shape
  import opened CallInvariant
  import opened CampaignInvariant

  /** A DISPATCH row names the handle issued for its epoch; only reclaim writes NO_ANSWER or BUSY. */
  ghost predicate RowOK(s: State, c: CallId, row: AuditRow) {
    row.CallChange? ==>
      && (row.event.CallDispatch? ==> row.handle.Some? && IssuedFor(s, c, row.epoch, row.handle.value))
      && (row.after.NoAnswer? || row.after.Busy? ==> row.event.ReclaimSkippedTerminal?)
  }

  predicate DispatchedAt(h: seq<AuditRow>, i: nat, epoch: int)
    requires i < |h|
  {
    h[i].CallChange? && h[i].event.CallDispatch? && h[i].epoch == epoch
  }

  /** One DISPATCH row per epoch, and none for an epoch whose handle column is still null. */
  ghost predicate DispatchesOK(h: seq<AuditRow>, row: Call) {
    && (forall i :: 0 <= i < |h| && DispatchedAt(h, i, row.epoch) ==> row.handle.Some?)
    && (forall i, j, e :: 0 <= i < j < |h| && DispatchedAt(h, i, e) ==> !DispatchedAt(h, j, e))
  }

  /** Phase 3 has recorded the dial of this attempt. */
  predicate Dispatched(h: seq<AuditRow>, epoch: int) {
    exists i: nat :: i < |h| && DispatchedAt(h, i, epoch)
  }

  ghost predicate CallLogOK(s: State, c: CallId)
    requires c in s.db.calls
  {
    && (forall i :: 0 <= i < |HistoryOf(s, c)| ==> RowOK(s, c, HistoryOf(s, c)[i]))
    && DispatchesOK(HistoryOf(s, c), s.db.calls[c])
    && (s.db.calls[c].handle.Some? ==> Dispatched(HistoryOf(s, c), s.db.calls[c].epoch))
    && (s.db.calls[c].epoch > 0 ==> Rows(HistoryOf(s, c), CallClaimed) >= 1)
  }

  ghost predicate LogInv(s: State) {
    forall c :: c in s.db.calls ==> CallLogOK(s, c)
  }

  lemma NewRowOK(s: State, s': State, step: Step, m: Move)
    requires Inv(s) && Effect(s, s', step, Some(m))
    ensures RowOK(s', m.call, ChangeRow(s.db, m))
  {
    if m.event.CallDispatch? {
      DispatchWritesOnce(s, s', step, m);
    }
  }

  /** No row of a chained history has a later epoch than the one it replays to. */
  lemma {:induction false} EpochsBelow(h: seq<AuditRow>, i: nat)
    requires Chained(h) && i < |h|
    ensures h[i].CallChange? && h[i].epoch <= Replay(h).1
  {
    ChainedLinks(h, i);
    ReplayIsLast(h);
    if i < |h| - 1 {
      EpochsRise(h, i, |h| - 1);
    }
  }

  lemma DispatchesAfter(h: seq<AuditRow>, was: Call, m: Move, row: AuditRow)
    requires DispatchesOK(h, was) && LocalStep(was, m.row, m.event)
    requires Chained(h) && Replay(h).1 == was.epoch
    requires row.CallChange? && row.event == m.event && row.epoch == m.row.epoch
    requires m.event.CallDispatch? ==> was.handle.None?
    ensures DispatchesOK(h + [row], m.row)
  {
    forall i | 0 <= i < |h| ensures h[i].CallChange? && h[i].epoch <= was.epoch {
      EpochsBelow(h, i);
    }
    assert forall i, e :: 0 <= i < |h| ==> DispatchedAt(h + [row], i, e) == DispatchedAt(h, i, e);
  }

  lemma StoredAfter(h: seq<AuditRow>, was: Call, m: Move, row: AuditRow)
    requires was.handle.Some? ==> Dispatched(h, was.epoch)
    requires LocalStep(was, m.row, m.event) && row.CallChange? && row.event == m.event && row.epoch == m.row.epoch
    ensures m.row.handle.Some? ==> Dispatched(h + [row], m.row.epoch)
  {
    if m.event.CallDispatch? {
      assert DispatchedAt(h + [row], |h|, m.row.epoch);
    } else if m.row.handle.Some? {
      var i: nat :| i < |h| && DispatchedAt(h, i, was.epoch);
      assert DispatchedAt(h + [row], i, m.row.epoch);
    }
  }

  lemma KeepsLogMoved(s: State, s': State, step: Step, m: Move)
    requires Inv(s) && CampaignInv(s) && LogInv(s) && Effect(s, s', step, Some(m))
    ensures m.call in s'.db.calls && DispatchesOK(HistoryOf(s', m.call), s'.db.calls[m.call])
    ensures s'.db.calls[m.call].handle.Some? ==> Dispatched(HistoryOf(s', m.call), s'.db.calls[m.call].epoch)
    ensures Rows(HistoryOf(s', m.call), CallClaimed) >= 1
  {
    FirstMoveIsClaim(s, step, m);
    CountsAppend(HistoryOf(s, m.call), ChangeRow(s.db, m));
    assert CallLogOK(s, m.call) && CallOK(s, m.call);
    assert HistoryOf(s', m.call) == HistoryOf(s, m.call) + [ChangeRow(s.db, m)];
    if m.event.CallDispatch? {
      DispatchWritesOnce(s, s', step, m);
    }
    DispatchesAfter(HistoryOf(s, m.call), s.db.calls[m.call], m, ChangeRow(s.db, m));
    StoredAfter(HistoryOf(s, m.call), s.db.calls[m.call], m, ChangeRow(s.db, m));
  }

  lemma KeepsRows(s: State, s': State, step: Step, m: Option<Move>, c: CallId, i: nat)
    requires Inv(s) && LogInv(s) && Effect(s, s', step, m) && c in s'.db.calls && i < |HistoryOf(s', c)|
    ensures RowOK(s', c, HistoryOf(s', c)[i])
  {
    assert HistoryOf(s', c) == HistoryOf(s, c) + RowsThen(s.db, m, c);
    if i < |HistoryOf(s, c)| {
      assert c in s.db.calls;
      assert RowOK(s, c, HistoryOf(s, c)[i]);
    } else {
      NewRowOK(s, s', step, m.value);
    }
  }

  lemma KeepsLog(s: State, s': State, step: Step, m: Option<Move>)
    requires Inv(s) && CampaignInv(s) && LogInv(s) && Effect(s, s', step, m)
    ensures LogInv(s')
  {
    forall c | c in s'.db.calls ensures CallLogOK(s', c) {
      forall i | 0 <= i < |HistoryOf(s', c)| ensures RowOK(s', c, HistoryOf(s', c)[i]) {
        KeepsRows(s, s', step, m, c, i);
      }
      if m.Some? && m.value.call == c {
        KeepsLogMoved(s, s', step, m.value);
      } else {
        assert HistoryOf(s', c) == HistoryOf(s, c) + RowsThen(s.db, m, c);
        assert HistoryOf(s', c) == HistoryOf(s, c);
        assert c in s.db.calls ==> CallLogOK(s, c);
      }
    }
  }
}

/**
 What holds of the call rows in every reachable state, with no premise on the environment: the audit log
 replays to the row, the stored handle belongs to the current attempt, and what an actor remembers from an
 earlier transaction is still true of the row for as long as the row is on the same attempt.
 */
module CallInvariant {
  import opened Types
  import opened AuditLog
  import opened Tables
  import opened Protocol
  import opened Shape

  // ---- the invariant ---------------------------------------------------------------------------

  ghost predicate IssuedFor(s: State, c: CallId, epoch: int, h: Handle) {
    (c, epoch) in s.issued && s.issued[(c, epoch)] == h
  }

  ghost predicate CallOK(s: State, c: CallId)
    requires c in s.db.calls
  {
    var row := s.db.calls[c];
    && row.campaign in s.db.campaigns
    && Chained(HistoryOf(s, c))
    && Replay(HistoryOf(s, c)) == (row.status, row.epoch)
    && row.epoch >= 0 && row.retries >= 0
    && (row.handle.Some? ==> IssuedFor(s, c, row.epoch, row.handle.value))
  }

  ghost predicate CallsOK(s: State) {
    && (forall c :: c in s.db.calls ==> CallOK(s, c))
    && (forall c :: c !in s.db.calls ==> HistoryOf(s, c) == [])
  }

  /** What a remembered row still says about the stored one. */
  ghost predicate SnapshotOK(s: State, t: Found) {
    && t.call in s.db.calls
    && var row := s.db.calls[t.call];
    && t.row.campaign == row.campaign
    && t.row.epoch <= row.epoch
    && t.row.retries >= 0
    && (t.row.handle.Some? ==> IssuedFor(s, t.call, t.row.epoch, t.row.handle.value))
    && (t.row.handle.Some? && t.row.epoch == row.epoch ==> row.handle == t.row.handle)
  }

  ghost predicate LookupOK(s: State, p: nat)
    requires p in s.lookups
  {
    var l := s.lookups[p];
    && l.inboxId in s.db.inbox && !s.db.inbox[l.inboxId].processed
    && (l.target.Some? ==>
          SnapshotOK(s, l.target.value) && l.target.value.row.handle == Some(s.db.inbox[l.inboxId].event.handle))
  }

  ghost predicate LookupsOK(s: State) {
    && (forall p :: p in s.lookups ==> LookupOK(s, p))
    && (forall p, q :: p in s.lookups && q in s.lookups && p != q ==> s.lookups[p].inboxId != s.lookups[q].inboxId)
  }

  ghost predicate ReclaimsOK(s: State) {
    forall r :: r in s.reclaims ==> SnapshotOK(s, s.reclaims[r].target) && s.reclaims[r].target.row.status.Dialing?
  }

  /** A claim still in a replica's hands: if the row is on that attempt, it is exactly as claimed. */
  ghost predicate HeldOK(s: State, r: Replica)
    requires Held(r).Some?
  {
    var claim := r.claim;
    && claim.call in s.db.calls
    && var row := s.db.calls[claim.call];
    && row.campaign == r.view.id
    && claim.epoch <= row.epoch
    && (claim.epoch == row.epoch ==> row.status.Dialing? && row.handle.None? && row.retries == claim.retries)
    && (r.Placed? && r.result.Accepted? ==> IssuedFor(s, claim.call, claim.epoch, r.result.handle))
  }

  ghost predicate ClaimsOK(s: State) {
    && (forall i :: 0 <= i < |s.replicas| && Held(s.replicas[i]).Some? ==> HeldOK(s, s.replicas[i]))
    && (forall i, j :: 0 <= i < j < |s.replicas| && Held(s.replicas[i]).Some? && Held(s.replicas[j]).Some?
          && s.replicas[i].claim.call == s.replicas[j].claim.call
          ==> s.replicas[i].claim.epoch != s.replicas[j].claim.epoch)
  }

  /** The partial unique index on phone. */
  ghost predicate PhoneIndexOK(calls: map<CallId, Call>) {
    forall c, d :: c in calls && d in calls && c != d && HoldsPhone(calls[c].status) && HoldsPhone(calls[d].status)
      ==> calls[c].phone != calls[d].phone
  }

  ghost predicate Inv(s: State) {
    CallsOK(s) && LookupsOK(s) && ReclaimsOK(s) && ClaimsOK(s) && PhoneIndexOK(s.db.calls)
  }

  // ---- one step --------------------------------------------------------------------------------

  /** Everything the proofs below need to know about a step from `s` to `s'` that makes move `m`. */
  ghost predicate Steps(s: State, s': State, step: Step, m: Option<Move>) {
    && Effect(s, s', step, m) && InboxEffect(s, s', step) && ReclaimEffect(s, s', step)
    && ReplicaEffect(s, s', step, m)
  }

  lemma StepsOf(s: State, step: Step)
    requires Enabled(s, step)
    ensures Steps(s, Apply(s, step), step, MoveOf(s, step))
  {
    StepEffect(s, step);
    StepInbox(s, step);
    StepReclaims(s, step);
    StepReplicas(s, step);
  }

  /** Only the replica that claimed the current attempt can write its handle, and it writes the issued one. */
  lemma DispatchWritesOnce(s: State, s': State, step: Step, m: Move)
    requires Inv(s) && Effect(s, s', step, Some(m)) && m.event.CallDispatch?
    ensures s.db.calls[m.call].handle.None?
    ensures m.row.handle.Some? && IssuedFor(s, m.call, m.row.epoch, m.row.handle.value)
  {
    assert HeldOK(s, s.replicas[step.i]);
  }

  ghost predicate Evolves(was: Call, row: Call) {
    && row.campaign == was.campaign && row.phone == was.phone && row.createdAt == was.createdAt
    && was.epoch <= row.epoch
    && (was.handle.Some? && was.epoch == row.epoch ==> row.handle == was.handle)
  }

  lemma MoveEvolves(s: State, s': State, step: Step, m: Move)
    requires Inv(s) && Effect(s, s', step, Some(m))
    ensures Evolves(s.db.calls[m.call], m.row)
  {
    if m.event.CallDispatch? {
      DispatchWritesOnce(s, s', step, m);
    }
  }

  /** No call row is ever lost, and each keeps its identity. */
  lemma CallsEvolve(s: State, s': State, step: Step, m: Option<Move>, c: CallId)
    requires Inv(s) && Effect(s, s', step, m) && c in s.db.calls
    ensures c in s'.db.calls && Evolves(s.db.calls[c], s'.db.calls[c])
  {
    if m.Some? {
      MoveEvolves(s, s', step, m.value);
    }
  }

  lemma RetriesStayNatural(s: State, step: Step, m: Move)
    requires Moves(s.db, m) && Origin(s, step, m) && s.db.calls[m.call].retries >= 0
    ensures m.row.retries >= 0
  {
  }

  /** A local step recorded by its audit row extends the chain to the new row. */
  lemma ChainGrows(h: seq<AuditRow>, was: Call, m: Move, row: AuditRow)
    requires Chained(h) && Replay(h) == (was.status, was.epoch) && LocalStep(was, m.row, m.event)
    requires row.CallChange? && row.event == m.event && row.epoch == m.row.epoch
    requires row.before == was.status && row.after == m.row.status
    ensures Chained(h + [row]) && Replay(h + [row]) == (m.row.status, m.row.epoch)
  {
    assert (h + [row])[..|h|] == h;
  }

  lemma MovedHandle(s: State, s': State, step: Step, m: Move)
    requires Inv(s) && Effect(s, s', step, Some(m))
    ensures m.row.handle.Some? ==> IssuedFor(s', m.call, m.row.epoch, m.row.handle.value)
  {
    assert CallOK(s, m.call);
    if m.event.CallDispatch? {
      DispatchWritesOnce(s, s', step, m);
    }
  }

  lemma KeepsMoved(s: State, s': State, step: Step, m: Move)
    requires Inv(s) && Effect(s, s', step, Some(m))
    ensures CallOK(s', m.call)
  {
    assert CallOK(s, m.call);
    MoveEvolves(s, s', step, m);
    RetriesStayNatural(s, step, m);
    MovedHandle(s, s', step, m);
    ChainGrows(HistoryOf(s, m.call), s.db.calls[m.call], m, ChangeRow(s.db, m));
    assert HistoryOf(s', m.call) == HistoryOf(s, m.call) + [ChangeRow(s.db, m)];
  }

  lemma KeepsCallOK(s: State, s': State, step: Step, m: Option<Move>, c: CallId)
    requires Inv(s) && Effect(s, s', step, m)
    ensures if c in s'.db.calls then CallOK(s', c) else HistoryOf(s', c) == []
  {
    if m.Some? && m.value.call == c {
      KeepsMoved(s, s', step, m.value);
    } else {
      assert HistoryOf(s', c) == HistoryOf(s, c);
      if c in s.db.calls {
        assert CallOK(s, c);
      }
    }
  }

  lemma KeepsSnapshot(s: State, s': State, step: Step, m: Option<Move>, t: Found)
    requires Inv(s) && Effect(s, s', step, m) && SnapshotOK(s, t)
    ensures SnapshotOK(s', t)
  {
    CallsEvolve(s, s', step, m, t.call);
  }

  lemma NewSnapshot(s: State, t: Found)
    requires Inv(s) && t.call in s.db.calls && s.db.calls[t.call] == t.row
    ensures SnapshotOK(s, t)
  {
    assert CallOK(s, t.call);
  }

  lemma KeepsLookups(s: State, s': State, step: Step, m: Option<Move>)
    requires Inv(s) && Steps(s, s', step, m)
    ensures LookupsOK(s')
  {
    forall p | p in s'.lookups ensures LookupOK(s', p) {
      var l := s'.lookups[p];
      if p in s.lookups && s.lookups[p] == l {
        assert LookupOK(s, p);
      } else if l.target.Some? {
        NewSnapshot(s, l.target.value);
      }
      if l.target.Some? {
        KeepsSnapshot(s, s', step, m, l.target.value);
      }
    }
  }

  lemma KeepsReclaims(s: State, s': State, step: Step, m: Option<Move>)
    requires Inv(s) && Steps(s, s', step, m)
    ensures ReclaimsOK(s')
  {
    forall r | r in s'.reclaims ensures SnapshotOK(s', s'.reclaims[r].target) && s'.reclaims[r].target.row.status.Dialing? {
      var t := s'.reclaims[r].target;
      if !(r in s.reclaims && s.reclaims[r].target == t) {
        NewSnapshot(s, t);
      }
      KeepsSnapshot(s, s', step, m, t);
    }
  }

  /** While a replica holds the claim of the current attempt, nobody else can write the row on that attempt. */
  lemma HeldUntouched(s: State, s': State, step: Step, m: Move, i: nat)
    requires Inv(s) && Effect(s, s', step, Some(m))
    requires At(s, i) && Held(s.replicas[i]).Some? && m.call == s.replicas[i].claim.call
    requires s.replicas[i].claim.epoch == s.db.calls[m.call].epoch
    requires !(step.Settle? && step.i == i)
    ensures m.row.epoch > s.replicas[i].claim.epoch
  {
  }

  lemma KeepsHeld(s: State, s': State, step: Step, m: Option<Move>, i: nat)
    requires Inv(s) && Steps(s, s', step, m)
    requires At(s, i) && Held(s'.replicas[i]).Some?
    ensures HeldOK(s', s'.replicas[i])
  {
    if !(step.ClaimNext? && step.i == i) {
      var claim := s.replicas[i].claim;
      assert HeldOK(s, s.replicas[i]);
      CallsEvolve(s, s', step, m, claim.call);
      if m.Some? && m.value.call == claim.call && claim.epoch == s.db.calls[claim.call].epoch {
        HeldUntouched(s, s', step, m.value, i);
      }
    }
  }

  lemma KeepsDistinct(s: State, s': State, step: Step, m: Option<Move>, i: nat, j: nat)
    requires Inv(s) && Steps(s, s', step, m)
    requires i < j < |s'.replicas| && Held(s'.replicas[i]).Some? && Held(s'.replicas[j]).Some?
    requires s'.replicas[i].claim.call == s'.replicas[j].claim.call
    ensures s'.replicas[i].claim.epoch != s'.replicas[j].claim.epoch
  {
    if step.ClaimNext? && step.i == i {
      assert HeldOK(s, s.replicas[j]);
    } else if step.ClaimNext? && step.i == j {
      assert HeldOK(s, s.replicas[i]);
    }
  }

  lemma KeepsClaims(s: State, s': State, step: Step, m: Option<Move>)
    requires Inv(s) && Steps(s, s', step, m)
    ensures ClaimsOK(s')
  {
    forall i | 0 <= i < |s'.replicas| && Held(s'.replicas[i]).Some? ensures HeldOK(s', s'.replicas[i]) {
      KeepsHeld(s, s', step, m, i);
    }
    forall i, j | 0 <= i < j < |s'.replicas| && Held(s'.replicas[i]).Some? && Held(s'.replicas[j]).Some?
      && s'.replicas[i].claim.call == s'.replicas[j].claim.call
      ensures s'.replicas[i].claim.epoch != s'.replicas[j].claim.epoch
    {
      KeepsDistinct(s, s', step, m, i, j);
    }
  }

  lemma KeepsPhoneIndex(s: State, s': State, step: Step, m: Option<Move>)
    requires Inv(s) && Effect(s, s', step, m)
    ensures PhoneIndexOK(s'.db.calls)
  {
    if m.Some? {
      MoveEvolves(s, s', step, m.value);
    }
  }

  lemma KeepsInvStep(s: State, s': State, step: Step, m: Option<Move>)
    requires Inv(s) && Steps(s, s', step, m)
    ensures Inv(s')
  {
    forall c ensures if c in s'.db.calls then CallOK(s', c) else HistoryOf(s', c) == [] {
      KeepsCallOK(s, s', step, m, c);
    }
    KeepsLookups(s, s', step, m);
    KeepsReclaims(s, s', step, m);
    KeepsClaims(s, s', step, m);
    KeepsPhoneIndex(s, s', step, m);
  }

  /** Every step of every actor keeps the invariant. */
  lemma KeepsInv(s: State, step: Step)
    requires Inv(s) && Enabled(s, step)
    ensures Inv(Apply(s, step))
  {
    StepsOf(s, step);
    KeepsInvStep(s, Apply(s, step), step, MoveOf(s, step));
  }

  lemma InitInv(s: State, n: nat)
    requires Init(s, n)
    ensures Inv(s)
  {
  }

  /** The invariant holds after any run. */
  lemma {:induction false} RunKeepsInv(p: Premises, s: State, steps: seq<Step>)
    requires Inv(s) && IsRun(p, s, steps)
    ensures Inv(Run(p, s, steps))
    decreases |steps|
  {
    if steps != [] {
      KeepsInv(s, steps[0]);
      RunKeepsInv(p, Apply(s, steps[0]), steps[1..]);
    }
  }
}

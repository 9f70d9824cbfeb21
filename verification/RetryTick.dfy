/** One scheduler, in-order draining and distinct phones: a retry tick always finds its row twice. */
module RetryTick {
  import opened Types
  import opened Tables
  import opened Protocol
  import opened Shape
  import opened CallInvariant
  import opened DrainInvariant

  predicate DistinctPhones(calls: map<CallId, Call>) {
    forall c, d :: c in calls && d in calls && c != d ==> calls[c].phone != calls[d].phone
  }

  ghost predicate HasRequeueable(s: State, k: CampaignId) {
    exists c :: c in s.db.calls && s.db.calls[c].campaign == k && RequeueDue(s.db.calls[c], s.now)
  }

  ghost predicate HasClaimable(s: State, k: CampaignId) {
    exists c :: c in s.db.calls && s.db.calls[c].campaign == k && ClaimDue(s.db.calls[c], s.now)
  }

  ghost predicate RetryReady(s: State) {
    && |s.replicas| == 1
    && (s.replicas[0].Picked? ==> HasRequeueable(s, s.replicas[0].view.id))
    && (s.replicas[0].Ready? && s.replicas[0].isRetry ==> HasClaimable(s, s.replicas[0].view.id))
  }

  lemma KeepsDistinctPhones(s: State, s': State, step: Step, m: Option<Move>)
    requires Inv(s) && Effect(s, s', step, m) && DistinctPhones(s.db.calls) && NewPhones(s, step)
    ensures DistinctPhones(s'.db.calls)
  {
  }

  /** H2, one replica: no other transaction can hold the lock of a waiting row. */
  lemma WaitingRowsUnlocked(s: State, c: CallId)
    requires Inv(s) && H2Inv(s) && |s.replicas| == 1 && c in s.db.calls
    requires s.db.calls[c].status.Queued? || s.db.calls[c].status.RetryPending?
    ensures !MayBeLocked(s, 0, c)
  {
    forall p | p in s.lookups && s.lookups[p].target.Some? && s.lookups[p].target.value.call == c
      ensures !SameVersion(s.lookups[p].target.value.row, s.db.calls[c])
    {
      assert LookupFresh(s, s.lookups[p].target.value);
    }
  }

  /** The row the sweep saw due is there to be requeued, and the requeue applies. */
  lemma RequeueSucceeds(s: State, choice: Option<CallId>, locked: set<CallId>)
    requires Inv(s) && H2Inv(s) && RetryReady(s) && DistinctPhones(s.db.calls)
    requires Enabled(s, Requeue(0, choice, locked))
    ensures choice.Some? && RequeueOutcome(s.db, choice.value, s.now).Applied?
  {
    var k := s.replicas[0].view.id;
    var c :| c in s.db.calls && s.db.calls[c].campaign == k && RequeueDue(s.db.calls[c], s.now);
    WaitingRowsUnlocked(s, c);
    assert c in Requeueable(s.db.calls, k, locked, s.now);
  }

  lemma ClaimSucceeds(s: State, choice: Option<CallId>, locked: set<CallId>)
    requires Inv(s) && H2Inv(s) && RetryReady(s) && s.replicas[0].Ready? && s.replicas[0].isRetry
    requires Enabled(s, ClaimNext(0, choice, locked))
    ensures choice.Some?
  {
    var k := s.replicas[0].view.id;
    var c :| c in s.db.calls && s.db.calls[c].campaign == k && ClaimDue(s.db.calls[c], s.now);
    WaitingRowsUnlocked(s, c);
    assert c in Claimable(s.db.calls, k, locked, s.now);
  }

  /** H2: a waiting row is moved by a requeue or a claim only. */
  lemma WaitingRowStays(s: State, s': State, step: Step, m: Option<Move>, c: CallId)
    requires Inv(s) && H1Inv(s) && H2Inv(s) && Steps(s, s', step, m) && H2(s, step)
    requires c in s.db.calls && (s.db.calls[c].status.Queued? || s.db.calls[c].status.RetryPending?)
    requires !step.Requeue? && !step.ClaimNext?
    ensures c in s'.db.calls && s'.db.calls[c] == s.db.calls[c]
  {
    if m.Some? && m.value.call == c && step.Finish? {
      H2Move(s, s', step, m.value);
    }
  }

  lemma StillRequeueable(s: State, s': State, step: Step, m: Option<Move>, k: CampaignId)
    requires Inv(s) && H1Inv(s) && H2Inv(s) && Steps(s, s', step, m) && H2(s, step) && s.now <= s'.now
    requires !step.Requeue? && !step.ClaimNext?
    ensures HasRequeueable(s, k) ==> HasRequeueable(s', k)
    ensures HasClaimable(s, k) ==> HasClaimable(s', k)
  {
    if HasRequeueable(s, k) {
      var c :| c in s.db.calls && s.db.calls[c].campaign == k && RequeueDue(s.db.calls[c], s.now);
      WaitingRowStays(s, s', step, m, c);
      assert RequeueDue(s'.db.calls[c], s'.now);
    }
    if HasClaimable(s, k) {
      var c :| c in s.db.calls && s.db.calls[c].campaign == k && ClaimDue(s.db.calls[c], s.now);
      WaitingRowStays(s, s', step, m, c);
      assert ClaimDue(s'.db.calls[c], s'.now);
    }
  }

  lemma SweepFindsDue(s: State, step: Step)
    requires H1Inv(s) && Enabled(s, step) && step.Sweep? && step.isRetry
    ensures HasRequeueable(s, step.view.id)
  {
    var candidates := WithRetryDue(s.replicas[step.i].capped, DueCampaigns(s.db, s.now));
    assert candidates != [];
    assert step.view in candidates && step.view.id in DueCampaigns(s.db, s.now);
    var c :| c in s.db.calls && SweepDue(s.db.calls[c], s.now) && s.db.calls[c].campaign == step.view.id;
    assert RequeueDue(s.db.calls[c], s.now);
  }

  lemma RequeueMakesClaimable(s: State, step: Step)
    requires Inv(s) && H2Inv(s) && RetryReady(s) && DistinctPhones(s.db.calls)
    requires Enabled(s, step) && step.Requeue? && step.i == 0
    ensures HasClaimable(Apply(s, step), s.replicas[0].view.id)
  {
    RequeueSucceeds(s, step.choice, step.locked);
    var c := step.choice.value;
    NextCalls(s, step, c);
    var row := Apply(s, step).db.calls[c];
    assert row == Patched(s.db.calls[c], Queued, None, NO_UPDATES, s.now);
    assert ClaimDue(row, s.now);
  }

  lemma NextReplicaZero(s: State, step: Step)
    requires Enabled(s, step) && |s.replicas| == 1
    ensures |Apply(s, step).replicas| == 1
    ensures var r := Apply(s, step).replicas[0];
            && (r.Picked? ==>
                  || (s.replicas[0] == r && !step.Requeue? && !step.ClaimNext?)
                  || (step.Sweep? && step.isRetry && step.view == r.view))
            && (r.Ready? && r.isRetry ==>
                  || (s.replicas[0] == r && !step.Requeue? && !step.ClaimNext?)
                  || (step.Requeue? && step.i == 0 && r.view == s.replicas[0].view))
  {
  }

  lemma KeepsRetryReady(s: State, step: Step)
    requires Inv(s) && H1Inv(s) && H2Inv(s) && RetryReady(s) && DistinctPhones(s.db.calls)
    requires Enabled(s, step) && H2(s, step)
    ensures RetryReady(Apply(s, step))
  {
    var s', m := Apply(s, step), MoveOf(s, step);
    StepsOf(s, step);
    NextReplicaZero(s, step);
    var r := s'.replicas[0];
    if step.Requeue? {
      RequeueMakesClaimable(s, step);
    } else if !step.ClaimNext? {
      if r.Picked? || r.Ready? {
        StillRequeueable(s, s', step, m, r.view.id);
      }
      if step.Sweep? && step.isRetry {
        SweepFindsDue(s, step);
        StillRequeueable(s, s', step, m, step.view.id);
      }
    }
  }
}

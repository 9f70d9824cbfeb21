/** What every reachable state promises about campaigns. */
module CampaignLife {
  import opened Types
  import opened AuditLog
  import opened Tables
  import opened Columns
  import opened Protocol
  import opened Shape
  import opened CallInvariant
  import opened CampaignInvariant
  import opened LogInvariant
  import opened ConcurrencyCap
  import opened Reach

  /** A campaign is concluded exactly when its calls all are, and COMPLETED exactly when one call completed. */
  lemma VerdictIsRight(p: Premises, n: nat, s: State, k: CampaignId)
    requires Reachable(p, n, s) && k in s.db.campaigns
    ensures var status := s.db.campaigns[k].status;
            && (status in {CompletedCampaign, FailedCampaign} <==>
                  forall c :: c in s.db.calls && s.db.calls[c].campaign == k ==>
                    s.db.calls[c].status in {Completed, Failed, NoAnswer, Busy})
            && (status.CompletedCampaign? <==>
                  status in {CompletedCampaign, FailedCampaign} && exists c :: c in s.db.calls && s.db.calls[c].campaign == k && s.db.calls[c].status.Completed?)
  {
    ReachableHolds(p, n, s);
    ConcludedMeans(s, k);
  }

  lemma ConcludedMeans(s: State, k: CampaignId)
    requires k in s.db.campaigns && CampaignInv(s)
    ensures var status := s.db.campaigns[k].status;
            && (status in {CompletedCampaign, FailedCampaign} <==>
                  forall c :: c in s.db.calls && s.db.calls[c].campaign == k ==>
                    s.db.calls[c].status in {Completed, Failed, NoAnswer, Busy})
            && (status.CompletedCampaign? <==>
                  status in {CompletedCampaign, FailedCampaign} && exists c :: c in s.db.calls && s.db.calls[c].campaign == k && s.db.calls[c].status.Completed?)
  {
    assert CampaignOK(s, k);
    EndedMeans(s.db.calls, k);
  }

  lemma EndedMeans(calls: map<CallId, Call>, k: CampaignId)
    ensures AllTerminal(calls, k) <==> forall c :: c in calls && calls[c].campaign == k ==> calls[c].status in {Completed, Failed, NoAnswer, Busy}
  {
    forall c | c in calls ensures Terminal(calls[c].status) <==> calls[c].status in {Completed, Failed, NoAnswer, Busy} {
    }
  }

  lemma RowsTellStatus(s: State, k: CampaignId)
    requires k in s.db.campaigns && CampaignOK(s, k)
    ensures var status, rows := s.db.campaigns[k].status, CampaignRows(s, k);
            && ReplayCampaign(rows) == status
            && rows == (if status.PendingCampaign? then []
                        else if status.ActiveCampaign? then [CampaignPromoted(k)]
                        else [CampaignPromoted(k), CampaignCompleted(k, status)])
  {
  }

  /** The campaign's audit rows fold to its status: one promotion once it is active, one completion once it is concluded. */
  lemma CampaignLogReplays(p: Premises, n: nat, s: State, k: CampaignId)
    requires Reachable(p, n, s) && k in s.db.campaigns
    ensures var status, rows := s.db.campaigns[k].status, CampaignRows(s, k);
            && ReplayCampaign(rows) == status
            && rows == (if status.PendingCampaign? then []
                        else if status.ActiveCampaign? then [CampaignPromoted(k)]
                        else [CampaignPromoted(k), CampaignCompleted(k, status)])
  {
    ReachableHolds(p, n, s);
    assert CampaignOK(s, k);
    RowsTellStatus(s, k);
  }

  lemma VerdictStays(s: State, step: Step, k: CampaignId)
    requires Always(s) && Enabled(s, step) && k in s.db.campaigns && Concluded(s.db.campaigns[k].status)
    ensures k in Apply(s, step).db.campaigns && Apply(s, step).db.campaigns[k] == s.db.campaigns[k]
  {
    StepEffect(s, step);
    StepCampaigns(s, step);
    var s', m := Apply(s, step), MoveOf(s, step);
    assert CampaignStep(s.db, s'.db, k, m.Some? && Promotes(s, step, m.value, k),
                        m.Some? && m.value.call in s.db.calls && Rolls(s.db, m.value, k));
  }

  lemma {:induction false} VerdictKept(p: Premises, s: State, steps: seq<Step>, k: CampaignId)
    requires Always(s) && IsRun(p, s, steps) && k in s.db.campaigns && Concluded(s.db.campaigns[k].status)
    ensures k in Run(p, s, steps).db.campaigns && Run(p, s, steps).db.campaigns[k] == s.db.campaigns[k]
    ensures CampaignRows(Run(p, s, steps), k) == CampaignRows(s, k)
    decreases |steps|
  {
    assert CampaignOK(s, k);
    if steps != [] {
      VerdictStays(s, steps[0], k);
      KeepsAlways(s, steps[0]);
      assert CampaignOK(Apply(s, steps[0]), k);
      VerdictKept(p, Apply(s, steps[0]), steps[1..], k);
    }
  }

  /** A verdict never changes afterwards, whatever events still arrive, and nothing is added to the campaign's log. */
  lemma VerdictIsFinal(p: Premises, n: nat, s: State, steps: seq<Step>, k: CampaignId)
    requires Reachable(p, n, s) && IsRun(p, s, steps) && k in s.db.campaigns && Concluded(s.db.campaigns[k].status)
    ensures k in Run(p, s, steps).db.campaigns && Run(p, s, steps).db.campaigns[k] == s.db.campaigns[k]
    ensures CampaignRows(Run(p, s, steps), k) == CampaignRows(s, k)
  {
    ReachableHolds(p, n, s);
    VerdictKept(p, s, steps, k);
  }

  /** Epoch 0 means never claimed: a call has to be claimed before it can be reclaimed. */
  lemma EpochZeroMeansUnclaimed(s: State, c: CallId)
    requires Always(s) && c in s.db.calls
    ensures s.db.calls[c].epoch == 0 <==> Rows(HistoryOf(s, c), CallClaimed) == 0
  {
    assert CallOK(s, c) && CallLogOK(s, c);
    EpochCountsDials(HistoryOf(s, c));
  }

  predicate Unclaimed(log: seq<AuditRow>, c: CallId) {
    Rows(History(log, c), CallClaimed) == 0
  }

  lemma PendingMeansUnclaimed(s: State, k: CampaignId)
    requires k in s.db.campaigns && CampaignOK(s, k)
    requires forall c :: c in s.db.calls ==> (s.db.calls[c].epoch == 0 <==> Unclaimed(s.db.audit, c))
    ensures s.db.campaigns[k].status.PendingCampaign?
       <==> forall c :: c in s.db.calls && s.db.calls[c].campaign == k ==> Unclaimed(s.db.audit, c)
  {
  }

  /**
   A campaign is PENDING exactly while none of its calls was ever claimed, although the tick that claims
   decides about promotion on a status it read before the claim.
   */
  lemma PromotionNeverMissed(p: Premises, n: nat, s: State, k: CampaignId)
    requires Reachable(p, n, s) && k in s.db.campaigns
    ensures s.db.campaigns[k].status.PendingCampaign?
       <==> forall c :: c in s.db.calls && s.db.calls[c].campaign == k ==> Unclaimed(s.db.audit, c)
  {
    ReachableHolds(p, n, s);
    assert CampaignOK(s, k);
    forall c | c in s.db.calls
      ensures s.db.calls[c].epoch == 0 <==> Unclaimed(s.db.audit, c)
    {
      EpochZeroMeansUnclaimed(s, c);
    }
    PendingMeansUnclaimed(s, k);
  }

  /**
   H2, N replicas: in-flight calls plus the ticks past the gate that have not claimed yet stay within
   max_concurrent + N - 1. With one replica this is the cap itself.
   */
  lemma CapHolds(p: Premises, n: nat, s: State, k: CampaignId)
    requires Reachable(p, n, s) && p.h2 && n >= 1 && k in s.db.campaigns
    ensures |InFlightCalls(s.db.calls, k)| + |Holders(s.replicas, k)| <= s.db.campaigns[k].maxConcurrent + n - 1
    ensures n == 1 ==> |InFlightCalls(s.db.calls, k)| <= s.db.campaigns[k].maxConcurrent
    ensures InFlightCalls(s.db.calls, k)
         == set c | c in s.db.calls && s.db.calls[c].campaign == k && s.db.calls[c].status in {Dialing, InProgress}
  {
    ReachableHolds(p, n, s);
    assert CapOK(s, k);
    InFlightMeans(s.db.calls, k);
  }

  // ---- uploads ---------------------------------------------------------------------------------

  /** What an upload inserts: one QUEUED call for each phone, never claimed, with the campaign's retries, created now. */
  lemma UploadInserts(s: State, step: Step, c: CallId)
    requires Enabled(s, step) && step.Create? && c in step.batch
    ensures var row := Apply(s, step).db.calls[c];
            && c !in s.db.calls && c in Apply(s, step).db.calls
            && row.campaign == step.k && row.status == Queued && row.epoch == 0 && row.retries == step.campaign.maxAttempts
            && row.nextAttempt == None && row.handle == None && row.createdAt == s.now && row.updatedAt == s.now
  {
  }

  predicate CreatedTogetherInv(calls: map<CallId, Call>) {
    forall c, d :: c in calls && d in calls && calls[c].campaign == calls[d].campaign ==> calls[c].createdAt == calls[d].createdAt
  }

  lemma KeepsCreated(s: State, s': State, step: Step, m: Option<Move>)
    requires Inv(s) && Effect(s, s', step, m) && CreatedTogetherInv(s.db.calls)
    ensures CreatedTogetherInv(s'.db.calls)
  {
    forall c | c in s.db.calls ensures s.db.calls[c].campaign in s.db.campaigns {
      assert CallOK(s, c);
    }
  }

  lemma {:induction false} RunKeepsCreated(p: Premises, s: State, steps: seq<Step>)
    requires Inv(s) && IsRun(p, s, steps) && CreatedTogetherInv(s.db.calls)
    ensures CreatedTogetherInv(Run(p, s, steps).db.calls)
    decreases |steps|
  {
    if steps != [] {
      StepEffect(s, steps[0]);
      KeepsCreated(s, Apply(s, steps[0]), steps[0], MoveOf(s, steps[0]));
      KeepsInv(s, steps[0]);
      RunKeepsCreated(p, Apply(s, steps[0]), steps[1..]);
    }
  }

  /**
   The calls of a campaign all have the same created_at, so the claim's order by created_at leaves the choice among
   them open: the model takes any.
   */
  lemma CreatedTogether(p: Premises, n: nat, s: State, c: CallId, d: CallId)
    requires Reachable(p, n, s) && c in s.db.calls && d in s.db.calls && s.db.calls[c].campaign == s.db.calls[d].campaign
    ensures s.db.calls[c].createdAt == s.db.calls[d].createdAt
  {
    var init, steps :| Init(init, n) && IsRun(p, init, steps) && Run(p, init, steps) == s;
    InitInv(init, n);
    RunKeepsCreated(p, init, steps);
  }
}

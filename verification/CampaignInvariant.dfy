/** Promotion, rollup and verdict of campaigns in every reachable state, with no premise on the environment. */
module CampaignInvariant {
  import opened Types
  import opened AuditLog
  import opened Tables
  import opened Protocol
  import opened Shape
  import opened CallInvariant

  // ---- what a step does to campaigns -----------------------------------------------------------

  function CampaignRows(s: State, k: CampaignId): seq<AuditRow> {
    CampaignHistory(s.db.audit, k)
  }

  /** The status of campaign `k` is left alone, or set by promotion, or set by rollup; one row in each case. */
  ghost predicate CampaignStep(was: Db, now: Db, k: CampaignId, promotes: bool, rolls: bool)
    requires k in was.campaigns
  {
    && k in now.campaigns
    && (if promotes then
          && was.campaigns[k].status.PendingCampaign?
          && now.campaigns[k] == was.campaigns[k].(status := ActiveCampaign)
          && CampaignHistory(now.audit, k) == CampaignHistory(was.audit, k) + [CampaignPromoted(k)]
        else if rolls then
          && was.campaigns[k].status.ActiveCampaign?
          && now.campaigns[k] == was.campaigns[k].(status := Verdict(now.calls, k))
          && CampaignHistory(now.audit, k) == CampaignHistory(was.audit, k) + [CampaignCompleted(k, Verdict(now.calls, k))]
        else
          now.campaigns[k] == was.campaigns[k] && CampaignHistory(now.audit, k) == CampaignHistory(was.audit, k))
  }

  predicate Rolls(was: Db, m: Move, k: CampaignId)
    requires m.call in was.calls && k in was.campaigns
  {
    && Terminal(m.row.status) && m.row.campaign == k && was.campaigns[k].status.ActiveCampaign?
    && AllTerminal(was.calls[m.call := m.row], k)
  }

  lemma RollUpCampaign(db: Db, j: CampaignId, k: CampaignId)
    ensures k in db.campaigns ==>
              CampaignStep(db, RollUp(db, j), k, false, j == k && db.campaigns[k].status.ActiveCampaign? && AllTerminal(db.calls, k))
    ensures k !in db.campaigns ==>
              k !in RollUp(db, j).campaigns && CampaignHistory(RollUp(db, j).audit, k) == CampaignHistory(db.audit, k)
  {
    CampaignHistoryAppend(db.audit, CampaignCompleted(j, Verdict(db.calls, j)), k);
  }

  lemma WrittenCampaign(db: Db, m: Move, k: CampaignId)
    requires m.call in db.calls
    ensures Written(db, m).campaigns == db.campaigns
    ensures CampaignHistory(Written(db, m).audit, k) == CampaignHistory(db.audit, k)
  {
    CampaignHistoryAppend(db.audit, ChangeRow(db, m), k);
  }

  lemma RollAfterWrite(db: Db, m: Move, k: CampaignId)
    requires m.call in db.calls && Terminal(m.row.status)
    ensures k in db.campaigns ==> CampaignStep(db, RollUp(Written(db, m), m.row.campaign), k, false, Rolls(db, m, k))
    ensures k !in db.campaigns ==>
              var after := RollUp(Written(db, m), m.row.campaign);
              k !in after.campaigns && CampaignHistory(after.audit, k) == CampaignHistory(db.audit, k)
  {
    WrittenCampaign(db, m, k);
    RollUpCampaign(Written(db, m), m.row.campaign, k);
  }

  lemma CommitCampaign(db: Db, m: Move, k: CampaignId)
    requires m.call in db.calls
    ensures k in db.campaigns ==> CampaignStep(db, Commit(db, m), k, false, Rolls(db, m, k))
    ensures k !in db.campaigns ==>
              k !in Commit(db, m).campaigns && CampaignHistory(Commit(db, m).audit, k) == CampaignHistory(db.audit, k)
  {
    if Terminal(m.row.status) {
      assert Commit(db, m) == RollUp(Written(db, m), m.row.campaign);
      RollAfterWrite(db, m, k);
    } else {
      assert Commit(db, m) == Written(db, m);
      WrittenCampaign(db, m, k);
    }
  }

  lemma PromoteCampaign(db: Db, v: CampaignId, k: CampaignId)
    ensures k in db.campaigns ==>
              CampaignStep(db, Promote(db, v), k, v == k && db.campaigns[k].status.PendingCampaign?, false)
    ensures k !in db.campaigns ==>
              k !in Promote(db, v).campaigns && CampaignHistory(Promote(db, v).audit, k) == CampaignHistory(db.audit, k)
  {
    CampaignHistoryAppend(db.audit, CampaignPromoted(v), k);
  }

  lemma ClaimCampaign(db: Db, v: CampaignView, c: CallId, now: Time, k: CampaignId)
    requires c in db.calls
    ensures k in db.campaigns ==>
              CampaignStep(db, ClaimTx(db, v, c, now), k,
                           v.status.PendingCampaign? && v.id == k && db.campaigns[k].status.PendingCampaign?, false)
    ensures k !in db.campaigns ==>
              && k !in ClaimTx(db, v, c, now).campaigns
              && CampaignHistory(ClaimTx(db, v, c, now).audit, k) == CampaignHistory(db.audit, k)
  {
    CommitCampaign(db, ClaimMove(db, c, now), k);
    PromoteCampaign(Commit(db, ClaimMove(db, c, now)), v.id, k);
  }

  lemma GateCampaign(db: Db, views: seq<CampaignView>, open: set<CampaignId>, k: CampaignId)
    ensures CampaignHistory(db.audit + HourSkips(views, open) + CapSkips(db, InHours(views, open)), k)
         == CampaignHistory(db.audit, k)
  {
    var hours, caps := HourSkips(views, open), CapSkips(db, InHours(views, open));
    InertAppend(db.audit, hours, 0, k);
    InertAppend(db.audit + hours, caps, 0, k);
  }

  lemma IgnoredRows(log: seq<AuditRow>, subject: Option<CallId>, terminalWins: bool, k: CampaignId)
    ensures CampaignHistory(log + [WebhookIgnored(subject, terminalWins)], k) == CampaignHistory(log, k)
  {
    CampaignHistoryAppend(log, WebhookIgnored(subject, terminalWins), k);
  }

  lemma IgnoredCampaign(db: Db, x: EventId, target: Option<Found>, wait: Time, now: Time, k: CampaignId)
    requires x in db.inbox
    requires var r := Respond(db, db.inbox[x].event, target, wait, now); !(r.Attempted? && r.outcome.Applied?)
    ensures WebhookTx(db, x, target, wait, now).campaigns == db.campaigns
    ensures CampaignHistory(WebhookTx(db, x, target, wait, now).audit, k) == CampaignHistory(db.audit, k)
  {
    match Respond(db, db.inbox[x].event, target, wait, now)
    case UnknownHandle => IgnoredRows(db.audit, None, false, k);
    case SameState =>
    case Attempted(Regression) => IgnoredRows(db.audit, Some(target.value.call), true, k);
    case Attempted(NoOp) => IgnoredRows(db.audit, Some(target.value.call), false, k);
    case Attempted(_) =>
  }

  lemma QuietCampaign(s: State, step: Step, k: CampaignId)
    requires Enabled(s, step) && MoveOf(s, step).None?
    ensures NextDb(s, step).campaigns == if step.Create? then s.db.campaigns[step.k := step.campaign] else s.db.campaigns
    ensures CampaignHistory(NextDb(s, step).audit, k) == CampaignRows(s, k)
  {
    match step
    case Gate(i, open) => GateCampaign(s.db, s.replicas[i].views, open, k);
    case Finish(p, wait) => IgnoredCampaign(s.db, s.lookups[p].inboxId, s.lookups[p].target, wait, s.now, k);
    case _ =>
  }

  predicate Promotes(s: State, step: Step, m: Move, k: CampaignId)
    requires k in s.db.campaigns
  {
    && m.event.CallClaimed? && step.ClaimNext? && At(s, step.i) && s.replicas[step.i].Ready?
    && s.replicas[step.i].view.status.PendingCampaign? && s.replicas[step.i].view.id == k
    && s.db.campaigns[k].status.PendingCampaign?
  }

  /** Campaign `k` after a step that moves a call. */
  lemma MoveCampaign(s: State, step: Step, k: CampaignId)
    requires Enabled(s, step) && MoveOf(s, step).Some?
    requires Moves(s.db, MoveOf(s, step).value) && Origin(s, step, MoveOf(s, step).value)
    ensures var m := MoveOf(s, step).value;
            if k in s.db.campaigns then CampaignStep(s.db, NextDb(s, step), k, Promotes(s, step, m, k), Rolls(s.db, m, k))
            else k !in NextDb(s, step).campaigns && CampaignHistory(NextDb(s, step).audit, k) == CampaignRows(s, k)
  {
    var m := MoveOf(s, step).value;
    if step.ClaimNext? {
      ClaimCampaign(s.db, s.replicas[step.i].view, m.call, s.now, k);
    } else {
      CommitCampaign(s.db, m, k);
    }
  }

  /** What a step from `s` to `s'` with move `m` does to every campaign. */
  ghost predicate CampaignEffect(s: State, s': State, step: Step, m: Option<Move>) {
    && (forall k :: k in s.db.campaigns ==>
          CampaignStep(s.db, s'.db, k, m.Some? && Promotes(s, step, m.value, k),
                       m.Some? && m.value.call in s.db.calls && Rolls(s.db, m.value, k)))
    && (forall k :: k !in s.db.campaigns ==> CampaignRows(s', k) == CampaignRows(s, k))
    && (forall k :: k in s'.db.campaigns && k !in s.db.campaigns ==>
          step.Create? && step.k == k && s'.db.campaigns[k] == step.campaign)
  }

  lemma StepCampaigns(s: State, step: Step)
    requires Enabled(s, step)
    requires Effect(s, Apply(s, step), step, MoveOf(s, step))
    ensures CampaignEffect(s, Apply(s, step), step, MoveOf(s, step))
  {
    forall k {
      OneCampaign(s, step, k);
    }
  }

  lemma OneCampaign(s: State, step: Step, k: CampaignId)
    requires Enabled(s, step)
    requires Effect(s, Apply(s, step), step, MoveOf(s, step))
    ensures var s', m := Apply(s, step), MoveOf(s, step);
            if k in s.db.campaigns then
              CampaignStep(s.db, s'.db, k, m.Some? && Promotes(s, step, m.value, k),
                           m.Some? && m.value.call in s.db.calls && Rolls(s.db, m.value, k))
            else
              && CampaignRows(s', k) == CampaignRows(s, k)
              && (k in s'.db.campaigns ==> step.Create? && step.k == k && s'.db.campaigns[k] == step.campaign)
  {
    if MoveOf(s, step).Some? {
      MoveCampaign(s, step, k);
    } else {
      QuietCampaign(s, step, k);
    }
  }

  // ---- the invariant ---------------------------------------------------------------------------

  /** A call at epoch 0 has not been touched. */
  ghost predicate UntouchedOK(s: State) {
    forall c :: c in s.db.calls && s.db.calls[c].epoch == 0 ==>
      s.db.calls[c].status.Queued? && s.db.calls[c].handle.None?
  }

  predicate NeverClaimed(calls: map<CallId, Call>, k: CampaignId) {
    forall c :: c in calls && calls[c].campaign == k ==> calls[c].epoch == 0
  }

  predicate HasCalls(calls: map<CallId, Call>, k: CampaignId) {
    exists c :: c in calls && calls[c].campaign == k
  }

  /** The campaign's own part of the log, which its status determines. */
  function ExpectedRows(k: CampaignId, status: CampaignStatus): seq<AuditRow> {
    match status
    case PendingCampaign => []
    case ActiveCampaign => [CampaignPromoted(k)]
    case _ => [CampaignPromoted(k), CampaignCompleted(k, status)]
  }

  /** What the status of campaign `k` says about its calls. */
  ghost predicate StatusFits(calls: map<CallId, Call>, k: CampaignId, status: CampaignStatus) {
    && HasCalls(calls, k)
    && (status.PendingCampaign? <==> NeverClaimed(calls, k))
    && (Concluded(status) <==> AllTerminal(calls, k))
    && (Concluded(status) ==> status == Verdict(calls, k))
  }

  ghost predicate CampaignOK(s: State, k: CampaignId)
    requires k in s.db.campaigns
  {
    && StatusFits(s.db.calls, k, s.db.campaigns[k].status)
    && CampaignRows(s, k) == ExpectedRows(k, s.db.campaigns[k].status)
  }

  ghost predicate CampaignsOK(s: State) {
    && UntouchedOK(s)
    && (forall k :: k in s.db.campaigns ==> CampaignOK(s, k))
    && (forall k :: k !in s.db.campaigns ==> CampaignRows(s, k) == [])
  }

  /** A tick's copy of a campaign row: the configuration is right, and a status other than PENDING is not undone. */
  ghost predicate ViewOK(db: Db, v: CampaignView) {
    && v.id in db.campaigns
    && v.maxConcurrent == db.campaigns[v.id].maxConcurrent && v.base == db.campaigns[v.id].base
    && (!v.status.PendingCampaign? ==> !db.campaigns[v.id].status.PendingCampaign?)
  }

  function ViewsOf(r: Replica): seq<CampaignView> {
    match r
    case Idle => []
    case Listed(views) => views
    case Gated(capped) => capped
    case Picked(v) => [v]
    case Ready(v, _) => [v]
    case HasClaim(v, _, _) => [v]
    case Placed(v, _, _, _) => [v]
  }

  ghost predicate ViewsOK(s: State) {
    forall i, v :: 0 <= i < |s.replicas| && v in ViewsOf(s.replicas[i]) ==> ViewOK(s.db, v)
  }

  ghost predicate CampaignInv(s: State) {
    CampaignsOK(s) && ViewsOK(s)
  }

  // ---- preservation ----------------------------------------------------------------------------

  lemma FirstMoveIsClaim(s: State, step: Step, m: Move)
    requires ClaimsOK(s) && LookupsOK(s) && UntouchedOK(s) && Moves(s.db, m) && Origin(s, step, m)
    ensures s.db.calls[m.call].epoch == 0 ==> m.event.CallClaimed?
    ensures m.event.CallClaimed? || m.event.ReclaimExecuted? || m.row.epoch == s.db.calls[m.call].epoch
  {
    if step.Finish? {
      assert LookupOK(s, step.p);
    }
  }

  lemma KeepsUntouched(s: State, s': State, step: Step, m: Option<Move>)
    requires CallsOK(s) && ClaimsOK(s) && LookupsOK(s) && UntouchedOK(s) && Effect(s, s', step, m)
    ensures UntouchedOK(s')
  {
    if m.Some? {
      FirstMoveIsClaim(s, step, m.value);
      assert CallOK(s, m.value.call);
    }
  }

  /** A row that keeps its status, or belongs to another campaign, leaves the verdict alone. */
  lemma StableVerdict(calls: map<CallId, Call>, m: Move, k: CampaignId)
    requires m.call in calls && m.row.campaign == calls[m.call].campaign
    requires m.row.status == calls[m.call].status || m.row.campaign != k
    ensures Verdict(calls[m.call := m.row], k) == Verdict(calls, k)
    ensures AllTerminal(calls[m.call := m.row], k) == AllTerminal(calls, k)
  {
    var after := calls[m.call := m.row];
    if AnyCompleted(calls, k) {
      var c :| c in calls && calls[c].campaign == k && calls[c].status.Completed?;
      assert after[c].campaign == k && after[c].status.Completed?;
    }
    assert forall c :: c in after <==> c in calls;
    assert m.call in after;
  }

  lemma OtherCampaignFits(calls: map<CallId, Call>, m: Move, k: CampaignId, status: CampaignStatus)
    requires m.call in calls && m.row.campaign == calls[m.call].campaign && m.row.campaign != k
    requires StatusFits(calls, k, status)
    ensures StatusFits(calls[m.call := m.row], k, status)
  {
    StableVerdict(calls, m, k);
    var after := calls[m.call := m.row];
    var c0 :| c0 in calls && calls[c0].campaign == k;
    assert c0 in after && after[c0].campaign == k;
    assert forall c :: c in calls && calls[c].campaign == k ==> c in after && after[c] == calls[c];
    assert forall c :: c in after && after[c].campaign == k ==> c in calls && after[c] == calls[c];
  }

  /** The campaign of the call that moves: PENDING ends with the first claim, and rollup ends ACTIVE. */
  lemma OwnCampaignFits(calls: map<CallId, Call>, m: Move, k: CampaignId, was: CampaignStatus, now: CampaignStatus)
    requires m.call in calls && m.row.campaign == calls[m.call].campaign == k && m.row.epoch > 0
    requires StatusFits(calls, k, was)
    requires Terminal(calls[m.call].status) ==> m.row.status == calls[m.call].status
    requires calls[m.call].epoch > 0 || !Terminal(m.row.status)
    requires var after := calls[m.call := m.row];
             now == if was.PendingCampaign? then ActiveCampaign
                    else if Terminal(m.row.status) && was.ActiveCampaign? && AllTerminal(after, k) then Verdict(after, k)
                    else was
    ensures StatusFits(calls[m.call := m.row], k, now)
  {
    var after := calls[m.call := m.row];
    assert m.call in after;
    assert !NeverClaimed(after, k);
    if Terminal(calls[m.call].status) {
      StableVerdict(calls, m, k);
    } else {
      assert !AllTerminal(calls, k);
      if !Terminal(m.row.status) {
        assert !AllTerminal(after, k);
      } else {
        assert was.ActiveCampaign?;
      }
    }
  }

  lemma ClaimView(s: State, s': State, step: Step, m: Move)
    requires CampaignInv(s) && Effect(s, s', step, Some(m)) && m.event.CallClaimed?
    ensures step.ClaimNext? && At(s, step.i) && s.replicas[step.i].Ready?
    ensures ViewOK(s.db, s.replicas[step.i].view) && s.replicas[step.i].view.id == m.row.campaign
  {
    var v := s.replicas[step.i].view;
    assert v in ViewsOf(s.replicas[step.i]);
  }

  /** After its first move a call's epoch is positive, and only a claim can be that move. */
  lemma MovedEpoch(s: State, s': State, step: Step, m: Move)
    requires Inv(s) && CampaignInv(s) && Effect(s, s', step, Some(m))
    ensures m.row.campaign in s.db.campaigns && m.row.epoch > 0
    ensures s.db.calls[m.call].epoch > 0 || (m.event.CallClaimed? && !Terminal(m.row.status))
  {
    assert CallOK(s, m.call);
    FirstMoveIsClaim(s, step, m);
  }

  lemma PendingMeansClaim(s: State, m: Move)
    requires CampaignInv(s) && Moves(s.db, m) && m.row.campaign in s.db.campaigns && s.db.calls[m.call].epoch > 0
    ensures !s.db.campaigns[m.row.campaign].status.PendingCampaign?
  {
    assert CampaignOK(s, m.row.campaign);
  }

  /** The status of the moving call's campaign after the step. */
  lemma OwnStatus(s: State, s': State, step: Step, m: Move)
    requires Inv(s) && CampaignInv(s) && Effect(s, s', step, Some(m)) && CampaignEffect(s, s', step, Some(m))
    ensures var k := m.row.campaign;
            && k in s.db.campaigns && k in s'.db.campaigns
            && var was := s.db.campaigns[k].status;
            && s'.db.campaigns[k].status
               == (if was.PendingCampaign? then ActiveCampaign
                   else if Terminal(m.row.status) && was.ActiveCampaign? && AllTerminal(s'.db.calls, k) then Verdict(s'.db.calls, k)
                   else was)
  {
    var k := m.row.campaign;
    MovedEpoch(s, s', step, m);
    assert CampaignStep(s.db, s'.db, k, Promotes(s, step, m, k), Rolls(s.db, m, k));
    if m.event.CallClaimed? {
      ClaimView(s, s', step, m);
    } else {
      PendingMeansClaim(s, m);
    }
  }

  lemma RowsFit(s: State, s': State, step: Step, m: Option<Move>, k: CampaignId)
    requires CampaignsOK(s) && CampaignEffect(s, s', step, m) && k in s.db.campaigns
    ensures CampaignRows(s', k) == ExpectedRows(k, s'.db.campaigns[k].status)
  {
    assert CampaignOK(s, k);
    assert CampaignStep(s.db, s'.db, k, m.Some? && Promotes(s, step, m.value, k),
                        m.Some? && m.value.call in s.db.calls && Rolls(s.db, m.value, k));
  }

  lemma OtherStatus(s: State, s': State, step: Step, m: Move, k: CampaignId)
    requires Inv(s) && CampaignInv(s) && Effect(s, s', step, Some(m)) && CampaignEffect(s, s', step, Some(m))
    requires k in s.db.campaigns && m.row.campaign != k
    ensures s'.db.campaigns[k].status == s.db.campaigns[k].status
  {
    if m.event.CallClaimed? {
      ClaimView(s, s', step, m);
    }
    assert CampaignStep(s.db, s'.db, k, Promotes(s, step, m, k), Rolls(s.db, m, k));
  }

  lemma OwnFacts(s: State, s': State, step: Step, m: Move)
    requires CallsOK(s) && CampaignsOK(s) && Effect(s, s', step, Some(m))
    ensures s'.db.calls == s.db.calls[m.call := m.row]
    ensures m.row.campaign == s.db.calls[m.call].campaign && m.row.campaign in s.db.campaigns
    ensures StatusFits(s.db.calls, m.row.campaign, s.db.campaigns[m.row.campaign].status)
    ensures Terminal(s.db.calls[m.call].status) ==> m.row.status == s.db.calls[m.call].status
  {
    MoveKeepsIdentity(s, m);
    assert CampaignOK(s, m.row.campaign);
  }

  lemma MoveKeepsIdentity(s: State, m: Move)
    requires CallsOK(s) && Moves(s.db, m)
    ensures m.row.campaign == s.db.calls[m.call].campaign && m.row.campaign in s.db.campaigns
    ensures Terminal(s.db.calls[m.call].status) ==> m.row.status == s.db.calls[m.call].status
  {
    assert CallOK(s, m.call);
  }

  lemma KeepsOwnCampaign(s: State, s': State, step: Step, m: Move)
    requires Inv(s) && CampaignInv(s) && Effect(s, s', step, Some(m)) && CampaignEffect(s, s', step, Some(m))
    ensures m.row.campaign in s.db.campaigns && m.row.campaign in s'.db.campaigns
    ensures StatusFits(s'.db.calls, m.row.campaign, s'.db.campaigns[m.row.campaign].status)
  {
    var k := m.row.campaign;
    OwnFacts(s, s', step, m);
    MovedEpoch(s, s', step, m);
    OwnStatus(s, s', step, m);
    OwnCampaignFits(s.db.calls, m, k, s.db.campaigns[k].status, s'.db.campaigns[k].status);
  }

  lemma KeepsOtherCampaign(s: State, s': State, step: Step, m: Move, k: CampaignId)
    requires Inv(s) && CampaignInv(s) && Effect(s, s', step, Some(m)) && CampaignEffect(s, s', step, Some(m))
    requires k in s.db.campaigns && m.row.campaign != k
    ensures k in s'.db.campaigns && StatusFits(s'.db.calls, k, s'.db.campaigns[k].status)
  {
    OtherStatus(s, s', step, m, k);
    assert CampaignOK(s, k);
    OtherCampaignFits(s.db.calls, m, k, s.db.campaigns[k].status);
  }

  lemma KeepsCampaignByMove(s: State, s': State, step: Step, m: Move, k: CampaignId)
    requires Inv(s) && CampaignInv(s) && Effect(s, s', step, Some(m)) && CampaignEffect(s, s', step, Some(m))
    requires k in s.db.campaigns
    ensures k in s'.db.campaigns && CampaignOK(s', k)
  {
    RowsFit(s, s', step, Some(m), k);
    if m.row.campaign == k {
      KeepsOwnCampaign(s, s', step, m);
    } else {
      KeepsOtherCampaign(s, s', step, m, k);
    }
  }

  lemma KeepsCampaignQuietly(s: State, s': State, step: Step, k: CampaignId)
    requires Inv(s) && CampaignInv(s) && Effect(s, s', step, None) && CampaignEffect(s, s', step, None)
    requires k in s'.db.campaigns
    ensures CampaignOK(s', k)
  {
    if k in s.db.campaigns {
      assert CampaignOK(s, k);
      RowsFit(s, s', step, None, k);
      SameCalls(s, s', step, k);
    } else {
      NewCampaign(s, s', step);
    }
  }

  lemma NewCampaign(s: State, s': State, step: Step)
    requires Inv(s) && Effect(s, s', step, None) && step.Create?
    ensures StatusFits(s'.db.calls, step.k, PendingCampaign)
  {
    var c :| c in step.batch;
    assert c in s'.db.calls && s'.db.calls[c].campaign == step.k;
    forall d | d in s.db.calls ensures s.db.calls[d].campaign != step.k {
      assert CallOK(s, d);
    }
  }

  lemma SameCalls(s: State, s': State, step: Step, k: CampaignId)
    requires Inv(s) && Effect(s, s', step, None) && k in s.db.campaigns
    ensures AllTerminal(s'.db.calls, k) == AllTerminal(s.db.calls, k)
    ensures AnyCompleted(s'.db.calls, k) == AnyCompleted(s.db.calls, k)
    ensures NeverClaimed(s'.db.calls, k) == NeverClaimed(s.db.calls, k)
    ensures HasCalls(s'.db.calls, k) == HasCalls(s.db.calls, k)
  {
    assert forall c :: c in s'.db.calls && s'.db.calls[c].campaign == k ==> c in s.db.calls;
    assert forall c :: c in s.db.calls ==> c in s'.db.calls && s'.db.calls[c] == s.db.calls[c];
  }

  lemma KeepsCampaigns(s: State, s': State, step: Step, m: Option<Move>)
    requires Inv(s) && CampaignInv(s) && Effect(s, s', step, m) && CampaignEffect(s, s', step, m)
    ensures CampaignsOK(s')
  {
    KeepsUntouched(s, s', step, m);
    forall k | k in s'.db.campaigns ensures CampaignOK(s', k) {
      if m.Some? && k in s.db.campaigns {
        KeepsCampaignByMove(s, s', step, m.value, k);
      } else {
        KeepsCampaignQuietly(s, s', step, k);
      }
    }
  }

  lemma KeepsView(s: State, s': State, step: Step, m: Option<Move>, v: CampaignView)
    requires CampaignEffect(s, s', step, m) && ViewOK(s.db, v)
    ensures ViewOK(s'.db, v)
  {
    assert CampaignStep(s.db, s'.db, v.id, m.Some? && Promotes(s, step, m.value, v.id),
                        m.Some? && m.value.call in s.db.calls && Rolls(s.db, m.value, v.id));
  }

  /** A replica's views come from its earlier views, or from a fresh listing. */
  lemma ViewsCarried(s: State, step: Step, i: nat, v: CampaignView)
    requires Enabled(s, step) && At(s, i) && v in ViewsOf(Apply(s, step).replicas[i])
    ensures v in ViewsOf(s.replicas[i]) || (v.id in s.db.campaigns && v == ViewOf(s.db, v.id))
  {
  }

  lemma KeepsViews(s: State, step: Step, i: nat, v: CampaignView)
    requires ViewsOK(s) && Enabled(s, step) && CampaignEffect(s, Apply(s, step), step, MoveOf(s, step))
    requires At(s, i) && v in ViewsOf(Apply(s, step).replicas[i])
    ensures ViewOK(Apply(s, step).db, v)
  {
    ViewsCarried(s, step, i, v);
    assert ViewOK(s.db, v);
    KeepsView(s, Apply(s, step), step, MoveOf(s, step), v);
  }

  lemma KeepsCampaignInv(s: State, step: Step)
    requires Inv(s) && CampaignInv(s) && Enabled(s, step)
    ensures CampaignInv(Apply(s, step))
  {
    var s', m := Apply(s, step), MoveOf(s, step);
    StepEffect(s, step);
    StepCampaigns(s, step);
    KeepsCampaigns(s, s', step, m);
    forall i, v | 0 <= i < |s'.replicas| && v in ViewsOf(s'.replicas[i]) ensures ViewOK(s'.db, v) {
      KeepsViews(s, step, i, v);
    }
  }

  lemma InitCampaignInv(s: State, n: nat)
    requires Init(s, n)
    ensures CampaignInv(s)
  {
  }
}

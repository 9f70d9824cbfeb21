/**
 The three loops that drive the service, as one process executes them on its tables: a scheduler tick, the
 inbox drain and the reclaim sweep. Each is proved to be a run of the protocol model, so what holds in every
 reachable state of the model holds of the tables between any two of them.
 */
module Daemons {
  import opened Types
  import opened Backoff
  import opened Tables
  import opened Columns
  import opened Protocol
  import opened Shape
  import opened CallInvariant
  import opened Reach
  import opened Store
  import Provider
  import Wake

  // ---- scheduler tick --------------------------------------------------------------------------

  /** `s` after replica `i` alone has worked: the tables, the provider's table and its program counter. */
  function Turn(s: State, i: nat, db: Db, issued: map<(CallId, int), Handle>, r: Replica): State
    requires At(s, i)
  {
    s.(db := db, issued := issued, replicas := s.replicas[i := r])
  }

  /** A run of replica `i` from `s` has got this far. */
  ghost predicate Got(s: State, i: nat, db: Db, issued: map<(CallId, int), Handle>, r: Replica) {
    At(s, i) && Leads(s, Turn(s, i, db, issued, r))
  }

  lemma GotNext(s: State, i: nat, db: Db, issued: map<(CallId, int), Handle>, r: Replica, step: Step)
    requires Got(s, i, db, issued, r) && Enabled(Turn(s, i, db, issued, r), step) && ActingReplica(step) == Some(i)
    ensures var t := Turn(s, i, db, issued, r); Got(s, i, NextDb(t, step), NextIssued(t, step), NextReplica(t, step))
  {
    var t := Turn(s, i, db, issued, r);
    LeadsNext(s, t, step);
    assert t.replicas[i := NextReplica(t, step)] == s.replicas[i := NextReplica(t, step)];
  }

  lemma GotNowhere(s: State, i: nat)
    requires At(s, i)
    ensures Got(s, i, s.db, s.issued, s.replicas[i])
  {
    LeadsNowhere(s);
    assert s.replicas[i := s.replicas[i]] == s.replicas;
  }

  lemma ListStep(s: State, i: nat, db: Db, views: seq<CampaignView>)
    requires Got(s, i, db, s.issued, Idle) && EligibleList(db, views)
    ensures Got(s, i, db, s.issued, if views == [] then Idle else Listed(views))
  {
    GotNext(s, i, db, s.issued, Idle, List(i, views));
  }

  lemma GateStep(s: State, i: nat, db: Db, views: seq<CampaignView>, open: set<CampaignId>)
    requires Got(s, i, db, s.issued, Listed(views))
    ensures var capped := UnderCap(db, InHours(views, open));
            Got(s, i, db.(audit := db.audit + HourSkips(views, open) + CapSkips(db, InHours(views, open))), s.issued,
                if capped == [] then Idle else Gated(capped))
  {
    GotNext(s, i, db, s.issued, Listed(views), Gate(i, open));
  }

  lemma SweepStep(s: State, i: nat, db: Db, capped: seq<CampaignView>, v: CampaignView, isRetry: bool)
    requires Got(s, i, db, s.issued, Gated(capped)) && IsPick(capped, DueCampaigns(db, s.now), v, isRetry)
    ensures Got(s, i, db, s.issued, if isRetry then Picked(v) else Ready(v, false))
  {
    GotNext(s, i, db, s.issued, Gated(capped), Sweep(i, v, isRetry));
  }

  lemma RequeueStep(s: State, i: nat, db: Db, v: CampaignView, choice: Option<CallId>, o: Outcome)
    requires Got(s, i, db, s.issued, Picked(v))
    requires OldestOf(db.calls, Requeueable(db.calls, v.id, {}, s.now), choice)
    requires choice.Some? ==> choice.value in db.calls && o == RequeueOutcome(db, choice.value, s.now)
    requires choice.None? ==> o.NoOp?
    ensures o.Applied? ==> o.move.call in db.calls
    ensures Got(s, i, After(db, o), s.issued, if Raises(o) then Idle else Ready(v, true))
  {
    GotNext(s, i, db, s.issued, Picked(v), Requeue(i, choice, {}));
  }

  lemma ClaimStep(s: State, i: nat, db: Db, v: CampaignView, isRetry: bool, choice: Option<CallId>)
    requires Got(s, i, db, s.issued, Ready(v, isRetry))
    requires OldestOf(db.calls, Claimable(db.calls, v.id, {}, s.now), choice)
    requires choice.Some? ==> choice.value in db.calls
    ensures choice.None? ==> Got(s, i, db, s.issued, Idle)
    ensures choice.Some? ==>
              Got(s, i, ClaimTx(db, v, choice.value, s.now), s.issued, HasClaim(v, isRetry, ClaimOf(db, choice.value)))
  {
    GotNext(s, i, db, s.issued, Ready(v, isRetry), ClaimNext(i, choice, {}));
  }

  /** The provider's table after a dial: unchanged, or with a handle for a key it did not know. */
  predicate Dialled(issued: map<(CallId, int), Handle>, issued': map<(CallId, int), Handle>, claim: Claim, result: DialResult) {
    var key := (claim.call, claim.epoch);
    && (issued' == issued || (key !in issued && key in issued' && issued' == issued[key := issued'[key]]))
    && (result.Accepted? ==> key in issued' && issued'[key] == result.handle)
  }

  lemma PlaceStep(s: State, i: nat, db: Db, v: CampaignView, isRetry: bool, claim: Claim, result: DialResult,
                  issued: map<(CallId, int), Handle>)
    requires Got(s, i, db, s.issued, HasClaim(v, isRetry, claim)) && Dialled(s.issued, issued, claim, result)
    ensures Got(s, i, db, issued, Placed(v, isRetry, claim, result))
  {
    var minted := if issued == s.issued then None else Some(issued[(claim.call, claim.epoch)]);
    GotNext(s, i, db, s.issued, HasClaim(v, isRetry, claim), Place(i, result, minted));
  }

  lemma SettleStep(s: State, i: nat, db: Db, v: CampaignView, isRetry: bool, claim: Claim, result: DialResult,
                   issued: map<(CallId, int), Handle>, wait: Time, stamp: Time)
    requires Got(s, i, db, issued, Placed(v, isRetry, claim, result)) && IsBackoff(wait, claim.epoch, v.base)
    ensures !Raises(DispatchOutcome(db, claim, result, wait, s.now))
    ensures Got(s, i, DispatchTx(db, v, claim, result, wait, s.now, stamp), issued, Idle)
  {
    GotNext(s, i, db, issued, Placed(v, isRetry, claim, result), Settle(i, wait, stamp));
  }

  /** What one tick meets outside the database. */
  datatype Outside = Outside(
    open: set<CampaignId>,        // the campaigns inside their window
    fault: Option<DialResult>,    // ProviderRejected or ProviderUnavailable, if the dial raises
    reached: bool,                // whether a dial that raises had reached the provider
    token: Handle,                // the provider's random handle and outcome
    outcome: CallStatus,
    jitter: real,
    stamp: Time)

  predicate Possible(w: Outside) {
    (w.fault.Some? ==> !w.fault.value.Accepted?) && Provider.Drawable(w.outcome) && Jitter(w.jitter)
  }

  /** Phase 2 of the dispatch: a dial that raises may or may not have reached the provider. */
  method Dial(provider: Provider.MockProvider, claim: Claim, phone: Phone, w: Outside) returns (result: DialResult)
    requires Possible(w)
    modifies provider
    ensures Dialled(old(provider.byIdem), provider.byIdem, claim, result)
    ensures result.Accepted? <==> w.fault.None?
    ensures w.fault.Some? ==> result == w.fault.value
  {
    if w.fault.None? || w.reached {
      var handle := provider.PlaceCall((claim.call, claim.epoch), phone, w.token, w.outcome);
      result := Accepted(handle);
    }
    if w.fault.Some? {
      result := w.fault.value;
    }
  }

  /** A claim that the provider rejects ends as FAILED. */
  lemma RejectedFails(db: Db, v: CampaignView, c: CallId, now: Time, wait: Time, stamp: Time)
    requires c in db.calls
    ensures var claimed, claim := ClaimTx(db, v, c, now), ClaimOf(db, c);
            && !DispatchOutcome(claimed, claim, Rejected, wait, now).Violation?
            && var after := DispatchTx(claimed, v, claim, Rejected, wait, now, stamp);
               c in after.calls && after.calls[c].status.Failed?
  {
  }

  /** The campaign is no longer PENDING. */
  predicate Promoted(campaigns: map<CampaignId, Campaign>, k: CampaignId) {
    k in campaigns && !campaigns[k].status.PendingCampaign?
  }

  lemma SettlingStaysPromoted(db: Db, v: CampaignView, claim: Claim, result: DialResult, wait: Time, now: Time, stamp: Time)
    requires !DispatchOutcome(db, claim, result, wait, now).Violation? && Promoted(db.campaigns, v.id)
    ensures Promoted(DispatchTx(db, v, claim, result, wait, now, stamp).campaigns, v.id)
  {
  }

  /** _dispatch_one: claim and commit, dial outside any transaction, apply the result. */
  method DispatchOne(db: Database, provider: Provider.MockProvider, v: CampaignView, now: Time, w: Outside,
                     ghost s: State, ghost i: nat, ghost isRetry: bool)
    returns (dispatched: Option<CampaignId>)
    requires Got(s, i, db.State(), s.issued, Ready(v, isRetry))
    requires s.issued == provider.byIdem && s.now == now && v.base > 0.0 && Possible(w)
    modifies db, provider
    ensures Got(s, i, db.State(), provider.byIdem, Idle)
    ensures dispatched.Some? <==> Claimable(old(db.calls), v.id, {}, now) != {}
    ensures dispatched.Some? ==> dispatched.value == v.id && v.id in db.cursors && db.cursors[v.id] == w.stamp
    ensures dispatched.Some? && w.fault == Some(Rejected) ==>
              exists c :: c in Claimable(old(db.calls), v.id, {}, now) && c in db.calls && db.calls[c].status.Failed?
    ensures dispatched.None? ==> db.State() == old(db.State())
    ensures dispatched.Some? && v.id in old(db.campaigns) && v.status == old(db.campaigns)[v.id].status ==>
              Promoted(db.campaigns, v.id)
  {
    var claimed := db.ClaimForDispatch(v, {}, now);
    ghost var choice := if claimed.Some? then Some(claimed.value.call) else None;
    ClaimStep(s, i, old(db.State()), v, isRetry, choice);
    if claimed.None? {
      return None;
    }
    var claim := claimed.value;
    ghost var promoted := Promoted(db.campaigns, v.id);
    var result := Dial(provider, claim, db.calls[claim.call].phone, w);
    PlaceStep(s, i, db.State(), v, isRetry, claim, result, provider.byIdem);
    var wait := ComputeBackoff(claim.epoch, v.base, w.jitter);
    DrawIsInBand(claim.epoch, v.base, w.jitter);
    SettleStep(s, i, db.State(), v, isRetry, claim, result, provider.byIdem, wait, w.stamp);
    RejectedFails(old(db.State()), v, claim.call, now, wait, w.stamp);
    if promoted {
      SettlingStaysPromoted(db.State(), v, claim, result, wait, now, w.stamp);
    }
    var o := db.SettleDispatch(v, claim, result, wait, now, w.stamp);
    dispatched := Some(v.id);
  }

  lemma ViewsKeep(views: seq<CampaignView>, open: set<CampaignId>, db: Db)
    requires EligibleList(db, views)
    ensures DistinctIds(UnderCap(db, InHours(views, open)))
    ensures forall v :: v in UnderCap(db, InHours(views, open)) ==> v.id in db.campaigns && v == ViewOf(db, v.id)
  {
  }

  predicate PositiveBases(campaigns: map<CampaignId, Campaign>) {
    forall k :: k in campaigns ==> campaigns[k].base > 0.0
  }

  /** Steps 1 and 2 of the tick: the eligible campaigns that pass both gates. */
  method PassGates(db: Database, open: set<CampaignId>, ghost s: State, ghost i: nat)
    returns (capped: seq<CampaignView>, ghost views: seq<CampaignView>)
    requires Got(s, i, db.State(), s.issued, Idle)
    modifies db
    ensures EligibleList(old(db.State()), views)
    ensures Got(s, i, db.State(), s.issued, if capped == [] then Idle else Gated(capped))
    ensures capped == UnderCap(old(db.State()), InHours(views, open))
    ensures db.State() == old(db.State()).(audit := db.audit)
  {
    var listed := db.ListEligible();
    views := listed;
    ListStep(s, i, db.State(), listed);
    if listed == [] {
      return [], [];
    }
    GateStep(s, i, db.State(), listed, open);
    capped := db.Gate(listed, open);
  }

  /** A due retry that is requeued can be claimed at once. */
  lemma RequeuedIsClaimable(db: Db, v: CampaignView, c: CallId, now: Time)
    requires c in Requeueable(db.calls, v.id, {}, now)
    ensures var o := RequeueOutcome(db, c, now);
            && !o.NoOp? && (o.Applied? ==> o.move.call == c)
            && (o.Applied? ==> After(db, o).calls == db.calls[c := db.calls[c].(status := Queued, updatedAt := now)])
            && (o.Applied? ==> c in Claimable(After(db, o).calls, v.id, {}, now))
  {
  }

  /** Step 5 for a retry: requeue the oldest due call; hitting the phone index raises. */
  method RequeueDueCall(db: Database, v: CampaignView, now: Time, ghost s: State, ghost i: nat) returns (raised: bool)
    requires Got(s, i, db.State(), s.issued, Picked(v)) && s.now == now
    modifies db
    ensures Got(s, i, db.State(), s.issued, if raised then Idle else Ready(v, true))
    ensures db.cursors == old(db.cursors) && db.campaigns == old(db.campaigns) && db.calls.Keys == old(db.calls).Keys
    ensures forall c :: c in db.calls && db.calls[c].status.Queued? ==> !Terminal(old(db.calls)[c].status)
    ensures !raised && Requeueable(old(db.calls), v.id, {}, now) != {} ==> Claimable(db.calls, v.id, {}, now) != {}
  {
    var choice, o := db.RequeueOldestRetryDue(v.id, {}, now);
    RequeueStep(s, i, old(db.State()), v, choice, o);
    if choice.Some? {
      RequeuedIsClaimable(old(db.State()), v, choice.value, now);
    }
    raised := Raises(o);
  }

  /** The campaign has a RETRY_PENDING call whose time is null or has come. */
  predicate HasDueRetry(calls: map<CallId, Call>, k: CampaignId, now: Time) {
    exists c :: c in calls && calls[c].campaign == k && calls[c].status == RetryPending
      && (calls[c].nextAttempt == None || calls[c].nextAttempt.value <= now)
  }

  lemma PickedForRetry(db: Db, capped: seq<CampaignView>, now: Time, v: CampaignView, isRetry: bool)
    requires IsPick(capped, DueCampaigns(db, now), v, isRetry)
    ensures isRetry <==> exists w :: w in capped && HasDueRetry(db.calls, w.id, now)
  {
    var candidates := WithRetryDue(capped, DueCampaigns(db, now));
    forall w | w in capped ensures w.id in DueCampaigns(db, now) <==> HasDueRetry(db.calls, w.id, now) {
      DueMeans(db, now, w.id);
    }
    if candidates != [] {
      assert candidates[0] in candidates;
    }
  }

  /** Step 5: a picked retry is requeued first; then the campaign is dispatched if it has a call to claim. */
  method DispatchPicked(db: Database, provider: Provider.MockProvider, v: CampaignView, isRetry: bool, now: Time, w: Outside,
                        ghost s: State, ghost i: nat)
    returns (decision: Option<CampaignId>, raised: bool)
    requires Got(s, i, db.State(), s.issued, if isRetry then Picked(v) else Ready(v, false))
    requires s.issued == provider.byIdem && s.now == now && v.base > 0.0 && Possible(w)
    modifies db, provider
    ensures Got(s, i, db.State(), provider.byIdem, Idle)
    ensures decision.Some? ==> decision.value == v.id && v.id in db.cursors && db.cursors[v.id] == w.stamp
    ensures !isRetry ==> !raised && (decision.Some? <==> Claimable(old(db.calls), v.id, {}, now) != {})
    ensures isRetry && decision.None? ==> raised || Requeueable(old(db.calls), v.id, {}, now) == {}
    ensures decision.None? ==> db.cursors == old(db.cursors)
    ensures decision.Some? && w.fault == Some(Rejected) ==>
              exists c :: c in old(db.calls) && !Terminal(old(db.calls)[c].status) && c in db.calls && db.calls[c].status.Failed?
    ensures decision.Some? && v.id in old(db.campaigns) && v.status == old(db.campaigns)[v.id].status ==>
              Promoted(db.campaigns, v.id)
  {
    raised := false;
    if isRetry {
      raised := RequeueDueCall(db, v, now, s, i);
      if raised {
        return None, true;
      }
    }
    decision := DispatchOne(db, provider, v, now, w, s, i, isRetry);
  }

  /**
   tick: what one tick does is a run of the protocol by its replica, from Idle back to Idle. It lists the eligible
   campaigns, picks among those that pass both gates, if there are any, and dispatches exactly when its pick has
   a call that can be claimed; a tick that picked a due retry fails to dispatch only if its requeue raises or
   finds nothing. No campaign is PENDING once a tick has dispatched it.
   */
  method Tick(db: Database, provider: Provider.MockProvider, now: Time, w: Outside, ghost s: State, ghost i: nat)
    returns (decision: Option<CampaignId>, isRetry: bool, raised: bool,
             ghost views: seq<CampaignView>, ghost picked: Option<CampaignView>)
    requires At(s, i) && s.replicas[i].Idle? && s.db == db.State() && s.issued == provider.byIdem && s.now == now
    requires PositiveBases(db.campaigns) && Possible(w)
    modifies db, provider
    ensures EligibleList(old(db.State()), views)
    ensures Leads(s, s.(db := db.State(), issued := provider.byIdem))
    ensures var capped := UnderCap(old(db.State()), InHours(views, w.open));
            && (picked.None? <==> capped == [])
            && (picked.Some? ==> IsPick(capped, DueCampaigns(old(db.State()), now), picked.value, isRetry))
            && (picked.Some? ==> (isRetry <==> exists v :: v in capped && HasDueRetry(old(db.calls), v.id, now)))
    ensures decision.Some? ==>
              && picked.Some? && decision.value == picked.value.id
              && decision.value in db.cursors && db.cursors[decision.value] == w.stamp
              && Promoted(db.campaigns, decision.value)
    ensures picked.Some? && !isRetry ==>
              !raised && (decision.Some? <==> Claimable(old(db.calls), picked.value.id, {}, now) != {})
    ensures picked.Some? && isRetry && decision.None? ==>
              raised || Requeueable(old(db.calls), picked.value.id, {}, now) == {}
    ensures decision.None? ==> db.cursors == old(db.cursors)
    ensures decision.Some? && w.fault == Some(Rejected) ==>
              exists c :: c in old(db.calls) && !Terminal(old(db.calls)[c].status) && c in db.calls && db.calls[c].status.Failed?
  {
    GotNowhere(s, i);
    assert s.replicas[i := Idle] == s.replicas;
    var capped;
    capped, views := PassGates(db, w.open, s, i);
    decision, isRetry, raised, picked := None, false, false, None;
    if capped == [] {
      return;
    }
    ViewsKeep(views, w.open, s.db);
    var v: CampaignView;
    var due := db.FindRetryDueCampaignIds(now);
    v, isRetry := Pick(capped, due);
    SweepStep(s, i, db.State(), capped, v, isRetry);
    PickedForRetry(db.State(), capped, now, v, isRetry);
    assert v in capped;
    picked := Some(v);
    decision, raised := DispatchPicked(db, provider, v, isRetry, now, w, s, i);
    assert s.replicas[i := Idle] == s.replicas;
  }

  /**
   One round of scheduler_loop: wait, lower the flag, tick. It is a turn of module Wake's loop, which the timer
   begins only if the flag was down. The tick itself never raises the flag, so a call that it ends at once,
   because the provider rejects the dial, frees a slot that nobody is told about.
   */
  method LoopRound(db: Database, provider: Provider.MockProvider, wake: Wake.SchedulerWake, timerFired: bool,
                   now: Time, w: Outside, ghost s: State, ghost i: nat, ghost pending: bool)
    returns (decision: Option<CampaignId>, signalled: bool, raised: bool)
    requires wake.flag || timerFired
    requires At(s, i) && s.replicas[i].Idle? && s.db == db.State() && s.issued == provider.byIdem && s.now == now
    requires PositiveBases(db.campaigns) && Possible(w)
    modifies db, provider, wake
    ensures Leads(s, s.(db := db.State(), issued := provider.byIdem))
    ensures decision.Some? && w.fault == Some(Rejected) ==>
              exists c :: c in old(db.calls) && !Terminal(old(db.calls)[c].status) && c in db.calls && db.calls[c].status.Failed?
    ensures !wake.flag && (!signalled ==> timerFired && !old(wake.flag))
    ensures var before, turn := Wake.Loop(old(wake.flag), Wake.Waiting, pending), Wake.TurnOf(signalled, raised);
            Wake.IsRun(before, turn) && Wake.RunOf(before, turn) == Wake.Loop(wake.flag, Wake.Waiting, false)
  {
    signalled := wake.Wait(timerFired);
    wake.Clear();
    var isRetry;
    ghost var views, picked;
    decision, isRetry, raised, views, picked := Tick(db, provider, now, w, s, i);
    Wake.TurnRuns(old(wake.flag), pending, signalled, raised);
  }

  // ---- inbox drain -----------------------------------------------------------------------------

  /** Some actors have run from `s` and changed only the tables. */
  ghost predicate Ran(s: State, db: Db) {
    Leads(s, s.(db := db))
  }

  lemma RanNowhere(s: State)
    ensures Ran(s, s.db)
  {
    LeadsNowhere(s);
  }

  /** Calls name existing campaigns in every state that a run ends in. */
  lemma RanKeepsCampaigns(s: State, db: Db, n: nat)
    requires Reachable(NO_PREMISES, n, s) && Ran(s, db)
    ensures forall c :: c in db.calls ==> db.calls[c].campaign in db.campaigns
  {
    LeadsToReachable(n, s, s.(db := db));
    ReachableHolds(NO_PREMISES, n, s.(db := db));
    forall c | c in db.calls ensures db.calls[c].campaign in db.campaigns {
      assert CallOK(s.(db := db), c);
    }
  }

  lemma RowStep(s: State, db: Db, x: EventId, target: Option<Found>, wait: Time)
    requires Ran(s, db) && s.lookups == map[] && x in db.inbox && !db.inbox[x].processed
    requires LooksUp(db.calls, db.inbox[x].event.handle, target)
    requires target.Some? ==> target.value.row.campaign in db.campaigns
    requires target.Some? ==> IsBackoff(wait, target.value.row.epoch, db.campaigns[target.value.row.campaign].base)
    ensures Ran(s, WebhookTx(db, x, target, wait, s.now))
  {
    var before := s.(db := db);
    LeadsNext(s, before, Look(0, x, target));
    var looked := Apply(before, Look(0, x, target));
    assert looked.lookups - {0} == map[];
    var r := FinishResponse(looked, 0, wait);
    if r.Attempted? && Raises(r.outcome) {
      LeadsNext(s, looked, AbortWebhook(0));
    } else {
      LeadsNext(s, looked, Finish(0, wait));
    }
  }

  lemma NoneLeft(inbox: map<EventId, InboxRow>)
    ensures Pending(inbox) == {} ==> forall x :: x in inbox ==> inbox[x].processed
  {
    assert forall x :: x in inbox && !inbox[x].processed ==> x in Pending(inbox);
  }

  /** How many rows of the log record a change of a call. */
  function Changes(log: seq<AuditRow>): nat {
    if log == [] then 0 else Changes(log[..|log|-1]) + if log[|log|-1].CallChange? then 1 else 0
  }

  lemma ChangesAppend(log: seq<AuditRow>, row: AuditRow)
    ensures Changes(log + [row]) == Changes(log) + if row.CallChange? then 1 else 0
  {
    assert (log + [row])[..|log|] == log;
  }

  function Pending(inbox: map<EventId, InboxRow>): set<EventId> {
    set x | x in inbox && !inbox[x].processed
  }

  /** No event is added, dropped or changed. */
  predicate SameEvents(before: map<EventId, InboxRow>, after: map<EventId, InboxRow>) {
    after.Keys == before.Keys && forall x :: x in before ==> after[x].event == before[x].event
  }

  lemma CommitEffect(db: Db, m: Move)
    requires m.call in db.calls && PositiveBases(db.campaigns)
    ensures Changes(Commit(db, m).audit) == Changes(db.audit) + 1
    ensures PositiveBases(Commit(db, m).campaigns) && Commit(db, m).inbox == db.inbox
  {
    var written := Written(db, m);
    ChangesAppend(db.audit, ChangeRow(db, m));
    ChangesAppend(written.audit, CampaignCompleted(m.row.campaign, Verdict(written.calls, m.row.campaign)));
  }

  lemma MarkingUnqueues(db: Db, x: EventId)
    requires x in db.inbox
    ensures Pending(Marked(db, x).inbox) == Pending(db.inbox) - {x}
  {
  }

  lemma IgnoredEffect(db: Db, subject: Option<CallId>, terminalWins: bool, x: EventId)
    requires x in db.inbox
    ensures var after := Marked(db.(audit := db.audit + [WebhookIgnored(subject, terminalWins)]), x);
            && Changes(after.audit) == Changes(db.audit) && Pending(after.inbox) == Pending(db.inbox) - {x}
            && after.campaigns == db.campaigns
  {
    ChangesAppend(db.audit, WebhookIgnored(subject, terminalWins));
  }

  lemma RowKeepsEvents(db: Db, x: EventId, target: Option<Found>, wait: Time, now: Time)
    requires x in db.inbox
    ensures SameEvents(db.inbox, WebhookTx(db, x, target, wait, now).inbox)
  {
    var r := Respond(db, db.inbox[x].event, target, wait, now);
    if !(r.Attempted? && Raises(r.outcome)) {
      WebhookInbox(db, x, target, wait, now);
    }
  }

  /** An applied row adds exactly one change to the log; an error leaves the row pending; any other row is done. */
  lemma RowEffect(db: Db, x: EventId, target: Option<Found>, wait: Time, now: Time)
    requires x in db.inbox && !db.inbox[x].processed && PositiveBases(db.campaigns)
    ensures var after, o := WebhookTx(db, x, target, wait, now), OutcomeOf(Respond(db, db.inbox[x].event, target, wait, now));
            && Changes(after.audit) == Changes(db.audit) + (if o.AppliedRow? then 1 else 0)
            && Pending(after.inbox) == Pending(db.inbox) - (if o.ErrorRow? then {} else {x})
            && PositiveBases(after.campaigns)
  {
    match Respond(db, db.inbox[x].event, target, wait, now)
    case UnknownHandle => IgnoredEffect(db, None, false, x);
    case SameState => MarkingUnqueues(db, x);
    case Attempted(Applied(m)) =>
      CommitEffect(db, m);
      MarkingUnqueues(Commit(db, m), x);
    case Attempted(Regression) => IgnoredEffect(db, Some(target.value.call), true, x);
    case Attempted(NoOp) => IgnoredEffect(db, Some(target.value.call), false, x);
    case Attempted(_) =>
  }

  /**
   process_pending_inbox: a drain is a run of the protocol. It handles at most as many rows as it may (one random
   draw for each) and stops early only when none is left, each row it handles without an error leaves the queue,
   and it wakes the scheduler exactly when a call changed. Without a row to handle it changes nothing.
   */
  method ProcessPendingInbox(db: Database, wake: Wake.SchedulerWake, jitters: seq<real>, now: Time,
                             ghost s: State, ghost n: nat)
    returns (processed: nat, ghost errors: nat)
    requires Reachable(NO_PREMISES, n, s) && s.db == db.State() && s.lookups == map[] && s.now == now
    requires PositiveBases(db.campaigns) && forall i :: 0 <= i < |jitters| ==> Jitter(jitters[i])
    modifies db, wake
    ensures Ran(s, db.State())
    ensures processed <= |jitters| && (processed < |jitters| ==> Pending(db.inbox) == {})
    ensures processed < |jitters| ==> forall x :: x in db.inbox ==> db.inbox[x].processed
    ensures errors <= processed && |Pending(db.inbox)| + processed == |Pending(old(db.inbox))| + errors
    ensures wake.flag == (old(wake.flag) || Changes(db.audit) > Changes(old(db.audit)))
    ensures SameEvents(old(db.inbox), db.inbox)
    ensures Pending(old(db.inbox)) == {} ==> db.State() == old(db.State())
  {
    RanNowhere(s);
    processed, errors := 0, 0;
    var cap, appliedAny := |jitters|, false;
    while processed < cap
      invariant Ran(s, db.State()) && PositiveBases(db.campaigns)
      invariant processed <= cap && errors <= processed
      invariant |Pending(db.inbox)| + processed == |Pending(old(db.inbox))| + errors
      invariant Changes(db.audit) >= Changes(old(db.audit))
      invariant appliedAny <==> Changes(db.audit) > Changes(old(db.audit))
      invariant wake.flag == old(wake.flag)
      invariant SameEvents(old(db.inbox), db.inbox)
      invariant Pending(old(db.inbox)) == {} ==> db.State() == old(db.State())
    {
      if Pending(db.inbox) == {} {
        break;
      }
      var x :| x in Pending(db.inbox);
      var outcome := ProcessOneRow(db, x, jitters[processed], now, s, n);
      if outcome.AppliedRow? {
        appliedAny := true;
      }
      if outcome.ErrorRow? {
        errors := errors + 1;
      }
      processed := processed + 1;
    }
    NoneLeft(db.inbox);
    if appliedAny {
      wake.Notify();
    }
  }

  /** _process_one_row for the inbox row that was claimed. */
  method ProcessOneRow(db: Database, x: EventId, jitter: real, now: Time, ghost s: State, ghost n: nat)
    returns (outcome: RowOutcome)
    requires Reachable(NO_PREMISES, n, s) && Ran(s, db.State()) && s.lookups == map[] && s.now == now
    requires x in Pending(db.inbox) && PositiveBases(db.campaigns) && Jitter(jitter)
    modifies db
    ensures Ran(s, db.State()) && PositiveBases(db.campaigns)
    ensures Changes(db.audit) == Changes(old(db.audit)) + (if outcome.AppliedRow? then 1 else 0)
    ensures Pending(db.inbox) == Pending(old(db.inbox)) - (if outcome.ErrorRow? then {} else {x})
    ensures SameEvents(old(db.inbox), db.inbox)
  {
    RanKeepsCampaigns(s, db.State(), n);
    var target := db.GetByProviderCallId(db.inbox[x].event.handle);
    var wait := 0.0;
    if target.Some? {
      var row := target.value.row;
      wait := ComputeBackoff(row.epoch, db.campaigns[row.campaign].base, jitter);
      DrawIsInBand(row.epoch, db.campaigns[row.campaign].base, jitter);
    }
    RowStep(s, db.State(), x, target, wait);
    RowEffect(db.State(), x, target, wait, now);
    RowKeepsEvents(db.State(), x, target, wait, now);
    outcome := db.HandleRow(x, target, wait, now);
  }

  // ---- reclaim sweep ---------------------------------------------------------------------------

  predicate StuckAt(row: Call, now: Time, stuckAfter: Time) {
    row.status.Dialing? && row.updatedAt < now - stuckAfter
  }

  function StuckCalls(calls: map<CallId, Call>, now: Time, stuckAfter: Time): set<CallId> {
    set c | c in calls && StuckAt(calls[c], now, stuckAfter)
  }

  /** A stuck row after the sweep: the confirmed terminal status on the same attempt, or back in the queue on the next. */
  function Reclaimed(row: Call, answer: Option<CallStatus>, now: Time): Call {
    if row.handle.Some? && answer.Some? && Terminal(answer.value) then row.(status := answer.value, updatedAt := now)
    else row.(status := Queued, epoch := row.epoch + 1, handle := None, updatedAt := now)
  }

  lemma ReclaimApplies(db: Db, t: Found, answer: Option<CallStatus>, now: Time)
    requires t.call in db.calls && db.calls[t.call] == t.row && t.row.status.Dialing?
    ensures var o := ReclaimOutcome(db, t, answer, now);
            && o.Applied? && o.move.call == t.call
            && After(db, o).calls == db.calls[t.call := Reclaimed(t.row, answer, now)]
            && o.move.event == (if t.row.handle.Some? && answer.Some? && Terminal(answer.value)
                                then ReclaimSkippedTerminal else ReclaimExecuted)
  {
  }

  lemma FindStep(s: State, db: Db, t: Found)
    requires Ran(s, db) && s.reclaims == map[] && t.call in db.calls && db.calls[t.call] == t.row
    requires StuckAt(t.row, s.now, s.stuckAfter)
    ensures Leads(s, s.(db := db, reclaims := map[0 := Stuck(t)]))
  {
    LeadsNext(s, s.(db := db), FindStuck(0, t.call));
  }

  lemma AskApplies(s: State, db: Db, t: Found, answer: Option<CallStatus>)
    requires t.row.handle.Some?
    ensures var before := s.(db := db, reclaims := map[0 := Stuck(t)]);
            && Enabled(before, Ask(0, answer))
            && Apply(before, Ask(0, answer)) == s.(db := db, reclaims := map[0 := Asked(t, answer)])
  {
    assert map[0 := Stuck(t)][0 := Asked(t, answer)] == map[0 := Asked(t, answer)];
  }

  lemma AskStep(s: State, db: Db, t: Found, answer: Option<CallStatus>)
    requires Leads(s, s.(db := db, reclaims := map[0 := Stuck(t)])) && t.row.handle.Some?
    ensures Leads(s, s.(db := db, reclaims := map[0 := Asked(t, answer)]))
  {
    AskApplies(s, db, t, answer);
    LeadsNext(s, s.(db := db, reclaims := map[0 := Stuck(t)]), Ask(0, answer));
  }

  lemma FinishStep(s: State, db: Db, r: Reclaimer, o: Outcome)
    requires Leads(s, s.(db := db, reclaims := map[0 := r])) && s.reclaims == map[]
    requires r.Asked? || r.target.row.handle.None?
    requires o == ReclaimOutcome(db, r.target, ReclaimAnswer(r), s.now) && o.Applied? && o.move.call in db.calls
    ensures Ran(s, After(db, o))
  {
    var before := s.(db := db, reclaims := map[0 := r]);
    LeadsNext(s, before, Reclaim(0));
    assert before.reclaims - {0} == map[];
  }

  /** What a confirm with the provider yields for a stuck row; those in `lost` time out or fail. */
  function AnswerTo(states: map<Handle, Provider.CallState>, lost: set<CallId>, c: CallId, row: Call): Option<CallStatus> {
    if row.handle.Some? && c !in lost && row.handle.value in states then Some(states[row.handle.value].status) else None
  }

  /** The rows of `calls` once those in `done` are reclaimed. */
  function Swept(calls: map<CallId, Call>, done: set<CallId>, states: map<Handle, Provider.CallState>, lost: set<CallId>,
                 now: Time): map<CallId, Call>
  {
    map c | c in calls :: if c in done then Reclaimed(calls[c], AnswerTo(states, lost, c, calls[c]), now) else calls[c]
  }

  /** The provider's simulation of the row's attempt has sent its whole trajectory, down to `status`. */
  predicate Ended(provider: Provider.Mock, row: Call, status: CallStatus) {
    row.handle.Some? && Provider.Whole(Provider.StatusesOf(provider.sent, row.handle.value), status)
  }

  /** The rows of `done` are reclaimed, and those that were ended had ended at the provider. */
  ghost predicate SweptSoFar(provider: Provider.Mock, rows: map<CallId, Call>, calls: map<CallId, Call>, done: set<CallId>,
                             lost: set<CallId>, now: Time)
    requires done <= rows.Keys
  {
    && calls == Swept(rows, done, provider.states, lost, now)
    && (Provider.MockInv(provider) ==>
          forall c :: c in done && !calls[c].status.Queued? ==> Ended(provider, rows[c], calls[c].status))
  }

  /** The outcomes name the rows that were reclaimed, and say which of them went back to the queue. */
  ghost predicate Reported(outcomes: map<CallId, EventType>, calls: map<CallId, Call>, done: set<CallId>) {
    outcomes.Keys == done && forall c :: c in done ==> c in calls && (outcomes[c].ReclaimExecuted? <==> calls[c].status.Queued?)
  }

  lemma SweptNext(provider: Provider.Mock, rows: map<CallId, Call>, calls: map<CallId, Call>, done: set<CallId>,
                  lost: set<CallId>, now: Time, c: CallId)
    requires done <= rows.Keys && SweptSoFar(provider, rows, calls, done, lost, now) && c in rows && c !in done
    requires var row := Reclaimed(rows[c], AnswerTo(provider.states, lost, c, rows[c]), now);
             Provider.MockInv(provider) && !row.status.Queued? ==> Ended(provider, rows[c], row.status)
    ensures var row := Reclaimed(rows[c], AnswerTo(provider.states, lost, c, rows[c]), now);
            SweptSoFar(provider, rows, calls[c := row], done + {c}, lost, now)
  {
  }

  /** _best_effort_get_status: None if the row has no handle, or the confirm fails. */
  method Confirm(provider: Provider.MockProvider, t: Found, lost: set<CallId>) returns (answer: Option<CallStatus>)
    ensures answer == AnswerTo(provider.states, lost, t.call, t.row)
    ensures Provider.MockInv(provider.State()) && answer.Some? && Terminal(answer.value) ==>
              Ended(provider.State(), t.row, answer.value)
  {
    answer := None;
    if t.row.handle.Some? && t.call !in lost {
      answer := provider.GetStatus(t.row.handle.value);
    }
  }

  /** _reclaim_one for one stuck row: ask about its handle if it has one, then write. */
  method SweepOne(db: Database, provider: Provider.MockProvider, t: Found, lost: set<CallId>, now: Time,
                  ghost s: State, ghost rows: map<CallId, Call>, ghost done: set<CallId>)
    returns (event: EventType)
    requires Ran(s, db.State()) && s.reclaims == map[] && s.now == now
    requires t.call in rows && t.call !in done && rows[t.call] == t.row && StuckAt(t.row, now, s.stuckAfter)
    requires done <= rows.Keys && SweptSoFar(provider.State(), rows, db.calls, done, lost, now)
    modifies db
    ensures Ran(s, db.State())
    ensures SweptSoFar(provider.State(), rows, db.calls, done + {t.call}, lost, now)
    ensures db.calls == old(db.calls)[t.call := db.calls[t.call]]
    ensures event.ReclaimExecuted? <==> db.calls[t.call].status.Queued?
  {
    ghost var before := db.State();
    var answer := Confirm(provider, t, lost);
    FindStep(s, before, t);
    if t.row.handle.Some? {
      AskStep(s, before, t, answer);
    }
    ReclaimApplies(before, t, answer, now);
    FinishStep(s, before, if t.row.handle.Some? then Asked(t, answer) else Stuck(t), ReclaimOutcome(before, t, answer, now));
    SweptNext(provider.State(), rows, before.calls, done, lost, now, t.call);
    var o := db.ReclaimOne(t, answer, now);
    event := o.move.event;
  }

  /** A call as the sweep leaves it, by the status that the provider's table holds for its handle. */
  lemma SweptMeans(provider: Provider.Mock, rows: map<CallId, Call>, calls: map<CallId, Call>, lost: set<CallId>,
                   now: Time, stuckAfter: Time)
    requires SweptSoFar(provider, rows, calls, StuckCalls(rows, now, stuckAfter), lost, now)
    ensures calls.Keys == rows.Keys
    ensures forall c :: c in rows && !(rows[c].status == Dialing && rows[c].updatedAt < now - stuckAfter) ==> calls[c] == rows[c]
    ensures forall c :: c in rows && rows[c].status == Dialing && rows[c].updatedAt < now - stuckAfter ==>
              var was, h := rows[c], rows[c].handle;
              if h != None && c !in lost && h.value in provider.states
                 && provider.states[h.value].status in {Completed, Failed, NoAnswer, Busy}
              then calls[c] == was.(status := provider.states[h.value].status, updatedAt := now)
              else calls[c] == was.(status := Queued, epoch := was.epoch + 1, handle := None, updatedAt := now)
  {
  }

  lemma NothingSwept(provider: Provider.Mock, rows: map<CallId, Call>, lost: set<CallId>, now: Time)
    ensures SweptSoFar(provider, rows, rows, {}, lost, now)
  {
  }

  lemma ReportedNext(outcomes: map<CallId, EventType>, before: map<CallId, Call>, calls: map<CallId, Call>,
                     done: set<CallId>, c: CallId, event: EventType)
    requires Reported(outcomes, before, done) && c in calls && calls == before[c := calls[c]]
    requires event.ReclaimExecuted? <==> calls[c].status.Queued?
    ensures Reported(outcomes[c := event], calls, done + {c})
  {
  }

  /** The tasks of one sweep, one for each stuck row. */
  method SweepAll(db: Database, provider: Provider.MockProvider, stuck: set<CallId>, lost: set<CallId>, now: Time, ghost s: State)
    returns (outcomes: map<CallId, EventType>)
    requires Ran(s, db.State()) && s.reclaims == map[] && s.now == now
    requires forall c :: c in stuck ==> c in db.calls && StuckAt(db.calls[c], now, s.stuckAfter)
    modifies db
    ensures Ran(s, db.State())
    ensures stuck <= old(db.calls).Keys && SweptSoFar(provider.State(), old(db.calls), db.calls, stuck, lost, now)
    ensures Reported(outcomes, db.calls, stuck)
  {
    var rows := db.calls;
    var rest := stuck;
    ghost var done: set<CallId> := {};
    outcomes := map[];
    NothingSwept(provider.State(), rows, lost, now);
    while rest != {}
      invariant Ran(s, db.State())
      invariant rest !! done && rest + done == stuck
      invariant SweptSoFar(provider.State(), rows, db.calls, done, lost, now) && Reported(outcomes, db.calls, done)
    {
      var c :| c in rest;
      ghost var before := db.calls;
      var event := SweepOne(db, provider, Found(c, rows[c]), lost, now, s, rows, done);
      ReportedNext(outcomes, before, db.calls, done, c, event);
      outcomes := outcomes[c := event];
      rest, done := rest - {c}, done + {c};
    }
    assert done == stuck;
  }

  /**
   stuck_reclaim_sweep: a sweep is a run of the protocol. It moves every call that was stuck when it started,
   each to where the provider's answer says, touches no other call, and wakes the scheduler exactly when it
   moved one. A call that it ends has its whole trajectory behind it at the provider.
   */
  method StuckReclaimSweep(db: Database, provider: Provider.MockProvider, wake: Wake.SchedulerWake, lost: set<CallId>,
                           now: Time, stuckAfter: Time, ghost s: State)
    returns (outcomes: map<CallId, EventType>)
    requires s.db == db.State() && s.reclaims == map[] && s.now == now && s.stuckAfter == stuckAfter
    modifies db, wake
    ensures Ran(s, db.State())
    ensures SweptSoFar(provider.State(), old(db.calls), db.calls, StuckCalls(old(db.calls), now, stuckAfter), lost, now)
    ensures Reported(outcomes, db.calls, StuckCalls(old(db.calls), now, stuckAfter))
    ensures db.calls.Keys == old(db.calls).Keys
    ensures forall c :: c in old(db.calls) && !(old(db.calls)[c].status == Dialing && old(db.calls)[c].updatedAt < now - stuckAfter) ==>
              c !in outcomes && db.calls[c] == old(db.calls)[c]
    ensures forall c :: c in old(db.calls) && old(db.calls)[c].status == Dialing && old(db.calls)[c].updatedAt < now - stuckAfter ==>
              var was, h := old(db.calls)[c], old(db.calls)[c].handle;
              if h != None && c !in lost && h.value in provider.states
                 && provider.states[h.value].status in {Completed, Failed, NoAnswer, Busy}
              then db.calls[c] == was.(status := provider.states[h.value].status, updatedAt := now)
              else db.calls[c] == was.(status := Queued, epoch := was.epoch + 1, handle := None, updatedAt := now)
    ensures wake.flag == (old(wake.flag) || outcomes != map[])
  {
    ghost var rows := db.calls;
    RanNowhere(s);
    outcomes := SweepAll(db, provider, StuckCalls(db.calls, now, stuckAfter), lost, now, s);
    SweptMeans(provider.State(), rows, db.calls, lost, now, stuckAfter);
    if outcomes != map[] {
      wake.Notify();
    }
  }
}

/**
 When one scheduler uses free capacity: exactly when a tick that passed the gates claims a call, and how long a
 campaign whose only work is a retry in the future keeps every other campaign from being dialled.
 */
module WorkConservation {
  import opened Types
  import opened Tables
  import opened Protocol
  import opened Shape
  import opened CallInvariant
  import opened CampaignInvariant
  import opened DrainInvariant
  import opened RetryTick
  import opened Reach
  import opened Attempts
  import opened CampaignLife
  import opened Fairness

  // ---- exactly when a tick claims ----------------------------------------------------------------

  ghost predicate HasQueued(db: Db, k: CampaignId) {
    exists c :: c in db.calls && db.calls[c].campaign == k && db.calls[c].status.Queued?
  }

  /** H2, one replica: the claim finds a call exactly when the campaign has a QUEUED one. */
  lemma ClaimFinds(s: State, choice: Option<CallId>, locked: set<CallId>)
    requires Inv(s) && H2Inv(s) && |s.replicas| == 1 && Enabled(s, ClaimNext(0, choice, locked))
    ensures choice.Some? <==> HasQueued(s.db, s.replicas[0].view.id)
  {
    var k := s.replicas[0].view.id;
    if c :| c in s.db.calls && s.db.calls[c].campaign == k && s.db.calls[c].status.Queued? {
      assert DrainOK(s, c);
      WaitingRowsUnlocked(s, c);
      assert c in Claimable(s.db.calls, k, locked, s.now);
    }
  }

  /** The step is a reclaim that puts a call of campaign `k` back in the queue. */
  ghost predicate Requeues(s: State, step: Step, k: CampaignId)
    requires Enabled(s, step)
  {
    step.Reclaim? && MoveOf(s, step).Some? && MoveOf(s, step).value.row.campaign == k
      && MoveOf(s, step).value.event.ReclaimExecuted?
  }

  lemma QueuedStays(s: State, s': State, step: Step, m: Option<Move>, k: CampaignId)
    requires Inv(s) && H1Inv(s) && H2Inv(s) && Steps(s, s', step, m) && H2(s, step) && HasQueued(s.db, k)
    requires !step.Requeue? && !step.ClaimNext?
    ensures HasQueued(s'.db, k)
  {
    var c :| c in s.db.calls && s.db.calls[c].campaign == k && s.db.calls[c].status.Queued?;
    WaitingRowStays(s, s', step, m, c);
  }

  lemma QueuedComes(s: State, s': State, step: Step, m: Option<Move>, k: CampaignId)
    requires Inv(s) && H1Inv(s) && H2Inv(s) && Steps(s, s', step, m) && H2(s, step) && k in s.db.campaigns
    requires !step.Requeue? && !step.ClaimNext? && HasQueued(s'.db, k) && !HasQueued(s.db, k)
    ensures m.Some? && m.value.row.campaign == k && m.value.event.ReclaimExecuted?
  {
    var c :| c in s'.db.calls && s'.db.calls[c].campaign == k && s'.db.calls[c].status.Queued?;
    assert m.Some? && m.value.call == c;
    OnlyReclaimsQueue(s, s', step, m.value);
  }

  lemma RequeueMakesQueued(s: State, s': State, step: Step, m: Move)
    requires Effect(s, s', step, Some(m)) && m.event.ReclaimExecuted?
    ensures HasQueued(s'.db, m.row.campaign)
  {
    assert s'.db.calls[m.call].status.Queued?;
  }

  lemma OnlyReclaimsQueue(s: State, s': State, step: Step, m: Move)
    requires Inv(s) && H1Inv(s) && H2Inv(s) && Steps(s, s', step, Some(m)) && H2(s, step)
    requires !step.Requeue? && !step.ClaimNext? && m.row.status.Queued?
    ensures m.event.ReclaimExecuted?
  {
    if step.Finish? {
      H2Move(s, s', step, m);
    }
  }

  /** Between the pick and the claim the replica takes no step but a requeue; everybody else may act. */
  ghost predicate Between(p: Premises, s: State, steps: seq<Step>)
    requires IsRun(p, s, steps)
    decreases |steps|
  {
    steps != [] ==>
      && (ActingReplica(steps[0]) == Some(0) ==> steps[0].Requeue?)
      && Between(p, Apply(s, steps[0]), steps[1..])
  }

  ghost predicate RequeuedMeanwhile(p: Premises, s: State, steps: seq<Step>, k: CampaignId)
    requires IsRun(p, s, steps)
    decreases |steps|
  {
    steps != [] && (Requeues(s, steps[0], k) || RequeuedMeanwhile(p, Apply(s, steps[0]), steps[1..], k))
  }

  lemma ReplicaWaits(s: State, step: Step)
    requires |s.replicas| == 1 && Enabled(s, step) && (ActingReplica(step) == Some(0) ==> step.Requeue?)
    ensures |Apply(s, step).replicas| == 1
    ensures var r, r' := s.replicas[0], Apply(s, step).replicas[0];
            && (r.Ready? ==> r' == r && !step.Requeue? && !step.ClaimNext?)
            && (r.Picked? ==> r' == r || r'.Idle? || r' == Ready(r.view, true))
            && (r.Idle? ==> r'.Idle?)
  {
  }

  lemma {:induction false} QueuedMeanwhile(p: Premises, s: State, steps: seq<Step>, v: CampaignView)
    requires p.h2 && Reachable(p, 1, s) && |s.replicas| == 1 && s.replicas[0] == Ready(v, false)
    requires IsRun(p, s, steps) && Between(p, s, steps) && v.id in s.db.campaigns
    ensures Run(p, s, steps).replicas == [Ready(v, false)]
    ensures HasQueued(Run(p, s, steps).db, v.id) <==> HasQueued(s.db, v.id) || RequeuedMeanwhile(p, s, steps, v.id)
    decreases |steps|
  {
    if steps != [] {
      QueuedNext(p, s, steps[0], v);
      QueuedMeanwhile(p, Apply(s, steps[0]), steps[1..], v);
    }
  }

  lemma QueuedStep(s: State, step: Step, k: CampaignId)
    requires Inv(s) && H1Inv(s) && H2Inv(s) && Enabled(s, step) && H2(s, step) && k in s.db.campaigns
    requires !step.Requeue? && !step.ClaimNext?
    ensures k in Apply(s, step).db.campaigns
    ensures HasQueued(Apply(s, step).db, k) <==> HasQueued(s.db, k) || Requeues(s, step, k)
  {
    var s', m := Apply(s, step), MoveOf(s, step);
    StepsOf(s, step);
    if HasQueued(s.db, k) {
      QueuedStays(s, s', step, m, k);
    } else if HasQueued(s'.db, k) {
      QueuedComes(s, s', step, m, k);
    }
    if Requeues(s, step, k) {
      RequeueMakesQueued(s, s', step, m.value);
    }
  }

  lemma QueuedNext(p: Premises, s: State, step: Step, v: CampaignView)
    requires p.h2 && Reachable(p, 1, s) && |s.replicas| == 1 && s.replicas[0] == Ready(v, false)
    requires Enabled(s, step) && Meets(p, s, step) && (ActingReplica(step) == Some(0) ==> step.Requeue?) && v.id in s.db.campaigns
    ensures var s' := Apply(s, step);
            && Reachable(p, 1, s') && |s'.replicas| == 1 && s'.replicas[0] == Ready(v, false)
            && v.id in s'.db.campaigns
            && (HasQueued(s'.db, v.id) <==> HasQueued(s.db, v.id) || Requeues(s, step, v.id))
  {
    ReachableHolds(p, 1, s);
    ReachNext(p, 1, s, step);
    ReplicaWaits(s, step);
    QueuedStep(s, step, v.id);
  }

  lemma {:induction false} StaysRetry(p: Premises, s: State, steps: seq<Step>, v: CampaignView)
    requires |s.replicas| == 1 && (s.replicas[0] == Picked(v) || s.replicas[0].Idle? || s.replicas[0] == Ready(v, true))
    requires IsRun(p, s, steps) && Between(p, s, steps)
    ensures var r := Run(p, s, steps).replicas; |r| == 1 && (r[0].Ready? ==> r[0] == Ready(v, true))
    decreases |steps|
  {
    if steps != [] {
      ReplicaWaits(s, steps[0]);
      StaysRetry(p, Apply(s, steps[0]), steps[1..], v);
    }
  }

  /**
   One scheduler, H2, distinct phones: a tick that picks from `capped` and later claims, with anything running
   in between, claims a call if and only if a campaign that passed the gates had a due retry, or the earliest
   of them had a QUEUED call at the pick, or a reclaim has queued one for it since. What any other campaign
   has to dial does not matter.
   */
  lemma TickClaimsExactlyWhen(p: Premises, s: State, v: CampaignView, isRetry: bool, steps: seq<Step>,
                              choice: Option<CallId>, locked: set<CallId>)
    requires Reachable(p, 1, s) && p.h2 && p.phones && Enabled(s, Sweep(0, v, isRetry))
    requires var picked := Apply(s, Sweep(0, v, isRetry));
             && IsRun(p, picked, steps) && Between(p, picked, steps)
             && Enabled(Run(p, picked, steps), ClaimNext(0, choice, locked))
    ensures var picked, capped := Apply(s, Sweep(0, v, isRetry)), s.replicas[0].capped;
            choice.Some? <==>
              || (exists w :: w in capped && w.id in DueCampaigns(s.db, s.now))
              || (exists w :: IsEarliest(capped, w) && (HasQueued(s.db, w.id) || RequeuedMeanwhile(p, picked, steps, w.id)))
  {
    ReachableHolds(p, 1, s);
    PickedFrom(s, v, isRetry);
    ReachNext(p, 1, s, Sweep(0, v, isRetry));
    if isRetry {
      RetryTickFinds(p, Apply(s, Sweep(0, v, isRetry)), v, steps, choice, locked);
    } else {
      OrdinaryTickFinds(p, Apply(s, Sweep(0, v, isRetry)), v, steps, choice, locked);
    }
  }

  lemma RetryTickFinds(p: Premises, picked: State, v: CampaignView, steps: seq<Step>, choice: Option<CallId>, locked: set<CallId>)
    requires Reachable(p, 1, picked) && p.h2 && p.phones && picked.replicas == [Picked(v)]
    requires IsRun(p, picked, steps) && Between(p, picked, steps)
    requires Enabled(Run(p, picked, steps), ClaimNext(0, choice, locked))
    ensures choice.Some?
  {
    RunReachable(p, 1, picked, steps);
    StaysRetry(p, picked, steps, v);
    RetryTickClaims(p, Run(p, picked, steps), choice, locked);
  }

  lemma PickedExists(p: Premises, s: State, v: CampaignView)
    requires Reachable(p, 1, s) && s.replicas == [Ready(v, false)]
    ensures v.id in s.db.campaigns
  {
    ReachableHolds(p, 1, s);
    assert v in ViewsOf(s.replicas[0]) && ViewOK(s.db, v);
  }

  lemma OrdinaryTickFinds(p: Premises, picked: State, v: CampaignView, steps: seq<Step>, choice: Option<CallId>, locked: set<CallId>)
    requires Reachable(p, 1, picked) && p.h2 && picked.replicas == [Ready(v, false)]
    requires IsRun(p, picked, steps) && Between(p, picked, steps)
    requires Enabled(Run(p, picked, steps), ClaimNext(0, choice, locked))
    ensures choice.Some? <==> HasQueued(picked.db, v.id) || RequeuedMeanwhile(p, picked, steps, v.id)
  {
    PickedExists(p, picked, v);
    QueuedMeanwhile(p, picked, steps, v);
    RunReachable(p, 1, picked, steps);
    ReachableHolds(p, 1, Run(p, picked, steps));
    ClaimFinds(Run(p, picked, steps), choice, locked);
  }

  lemma RunReachable(p: Premises, n: nat, s: State, steps: seq<Step>)
    requires Reachable(p, n, s) && IsRun(p, s, steps)
    ensures Reachable(p, n, Run(p, s, steps))
  {
    var init, front :| Init(init, n) && IsRun(p, init, front) && Run(p, init, front) == s;
    RunConcat(p, init, front, steps);
  }

  /** What the pick says about the campaigns that passed the gates. */
  lemma PickedFrom(s: State, v: CampaignView, isRetry: bool)
    requires Enabled(s, Sweep(0, v, isRetry)) && |s.replicas| == 1
    ensures var picked, capped := Apply(s, Sweep(0, v, isRetry)), s.replicas[0].capped;
            && picked == s.(replicas := [if isRetry then Picked(v) else Ready(v, false)])
            && (isRetry <==> exists w :: w in capped && w.id in DueCampaigns(s.db, s.now))
            && (!isRetry ==> v in capped && forall w :: IsEarliest(capped, w) <==> w == v)
  {
    var capped, due := s.replicas[0].capped, DueCampaigns(s.db, s.now);
    var candidates := WithRetryDue(capped, due);
    if candidates != [] {
      assert candidates[0] in candidates;
    }
    if w :| w in capped && w.id in due {
      assert w in candidates;
    }
  }

  // ---- idling while others wait --------------------------------------------------------------------

  /** What a lone tick lists keeps its cursors until the tick has dispatched. */
  ghost predicate CursorsFresh(s: State) {
    && |s.replicas| == 1
    && forall v :: v in ViewsIn(s.replicas[0]) ==> v.cursor == CursorOf(s.db, v.id)
  }

  /** A view in the tick's hands was there before, or has just been listed. */
  lemma ViewsCarriedOn(s: State, step: Step, v: CampaignView)
    requires |s.replicas| == 1 && Enabled(s, step) && v in ViewsIn(Apply(s, step).replicas[0])
    ensures (v in ViewsIn(s.replicas[0]) && !step.Settle?) || (step.List? && v in step.views)
  {
    if step.Gate? {
      assert v in UnderCap(s.db, InHours(s.replicas[0].views, step.open));
    }
  }

  lemma ListedFresh(s: State, i: nat, views: seq<CampaignView>, v: CampaignView)
    requires Enabled(s, List(i, views)) && v in views
    ensures v.cursor == CursorOf(s.db, v.id)
  {
  }

  lemma KeepsCursorsFresh(s: State, step: Step)
    requires CursorsFresh(s) && Enabled(s, step)
    ensures CursorsFresh(Apply(s, step))
  {
    CursorsAfter(s, step);
    forall v | v in ViewsIn(Apply(s, step).replicas[0]) ensures v.cursor == CursorOf(Apply(s, step).db, v.id) {
      ViewsCarriedOn(s, step, v);
      if step.List? && v in step.views {
        ListedFresh(s, step.i, step.views, v);
      }
    }
  }

  lemma {:induction false} RunKeepsCursorsFresh(p: Premises, s: State, steps: seq<Step>)
    requires CursorsFresh(s) && IsRun(p, s, steps)
    ensures CursorsFresh(Run(p, s, steps))
    decreases |steps|
  {
    if steps != [] {
      KeepsCursorsFresh(s, steps[0]);
      RunKeepsCursorsFresh(p, Apply(s, steps[0]), steps[1..]);
    }
  }

  /** With one scheduler, a tick's list of cursors is never out of date. */
  lemma ReachableCursorsFresh(p: Premises, s: State)
    requires Reachable(p, 1, s)
    ensures CursorsFresh(s)
  {
    var init, steps :| Init(init, 1) && IsRun(p, init, steps) && Run(p, init, steps) == s;
    RunKeepsCursorsFresh(p, init, steps);
  }

  /** All that campaign `a` still has to do is to retry calls, none of them before `due`. */
  ghost predicate OnlyRetriesLater(db: Db, a: CampaignId, due: Time) {
    && (exists c :: c in db.calls && db.calls[c].campaign == a && db.calls[c].status.RetryPending?)
    && (forall c :: c in db.calls && db.calls[c].campaign == a ==> Terminal(db.calls[c].status) || RetriesFrom(db.calls[c], due))
  }

  predicate RetriesFrom(row: Call, due: Time) {
    row.status.RetryPending? && row.nextAttempt.Some? && row.nextAttempt.value >= due
  }

  /** In the round-robin order `a` comes before every other campaign that is not concluded. */
  predicate First(db: Db, a: CampaignId) {
    forall k :: k in db.campaigns && k != a && !Concluded(db.campaigns[k].status) ==> Before(db.cursors, a, k)
  }

  /** `a` is among the views, and the others come after it. */
  ghost predicate LeadsViews(db: Db, views: seq<CampaignView>, a: CampaignId) {
    && (exists v :: v in views && v.id == a)
    && (forall v :: v in views && v.id != a ==> Before(db.cursors, a, v.id))
  }

  /** What the tick has in its hands as long as only `a` can be picked. */
  ghost predicate TickOn(db: Db, r: Replica, a: CampaignId) {
    match r
    case Idle => true
    case Listed(views) => LeadsViews(db, views, a)
    case Gated(capped) => LeadsViews(db, capped, a)
    case Ready(v, isRetry) => v.id == a && !isRetry
    case _ => false
  }

  /** Campaign `a` comes first and has nothing to dial before `due`. */
  ghost predicate Blocked(s: State, a: CampaignId, due: Time) {
    && |s.replicas| == 1 && TickOn(s.db, s.replicas[0], a) && s.now < due
    && a in s.db.campaigns && s.db.campaigns[a].maxConcurrent >= 1
    && OnlyRetriesLater(s.db, a, due) && First(s.db, a)
  }

  /** `a` stays in its window, nothing new is uploaded, `due` has not come, and no other retry is due at a pick. */
  ghost predicate Undisturbed(s: State, step: Step, a: CampaignId, due: Time)
    requires |s.replicas| == 1 && Enabled(s, step)
  {
    match step
    case Advance(t) => t < due
    case Create(_, _, _) => false
    case Gate(_, open) => a in open
    case Sweep(_, _, _) => WithRetryDue(s.replicas[0].capped, DueCampaigns(s.db, s.now)) == []
    case _ => true
  }

  /** A pick takes `a`, a claim finds nothing, and nothing is dialled. */
  predicate Idles(step: Step, a: CampaignId) {
    match step
    case Sweep(_, view, isRetry) => view.id == a && !isRetry
    case Requeue(_, _, _) => false
    case ClaimNext(_, choice, _) => choice.None?
    case Place(_, _, _) => false
    case Settle(_, _, _) => false
    case _ => true
  }

  lemma RetriesLaterStay(s: State, s': State, step: Step, m: Option<Move>, a: CampaignId, due: Time)
    requires Inv(s) && H1Inv(s) && H2Inv(s) && Steps(s, s', step, m) && H2(s, step)
    requires !step.Requeue? && !step.Create? && (step.ClaimNext? ==> m.None?)
    requires OnlyRetriesLater(s.db, a, due)
    ensures OnlyRetriesLater(s'.db, a, due)
  {
    var d :| d in s.db.calls && s.db.calls[d].campaign == a && s.db.calls[d].status.RetryPending?;
    forall c | c in s.db.calls && s.db.calls[c].status.RetryPending?
      ensures c in s'.db.calls && s'.db.calls[c] == s.db.calls[c]
    {
      WaitingRowHeld(s, s', step, m, c);
    }
    forall c | c in s'.db.calls && s'.db.calls[c].campaign == a
      ensures Terminal(s'.db.calls[c].status) || RetriesFrom(s'.db.calls[c], due)
    {
      CallsEvolve(s, s', step, m, c);
      if Terminal(s.db.calls[c].status) {
        TerminalRowStays(s, s', step, m, c);
      }
    }
  }

  lemma WaitingRowHeld(s: State, s': State, step: Step, m: Option<Move>, c: CallId)
    requires Inv(s) && H1Inv(s) && H2Inv(s) && Steps(s, s', step, m) && H2(s, step)
    requires c in s.db.calls && s.db.calls[c].status.RetryPending?
    requires !step.Requeue? && (step.ClaimNext? ==> m.None?)
    ensures c in s'.db.calls && s'.db.calls[c] == s.db.calls[c]
  {
    if !step.ClaimNext? {
      WaitingRowStays(s, s', step, m, c);
    }
  }

  /** With only retries left the campaign is listed and has no call in flight. */
  lemma WaitsForWork(db: Db, a: CampaignId, due: Time)
    requires OnlyRetriesLater(db, a, due)
    ensures HasWork(db, a) && InFlightCalls(db.calls, a) == {} && !HasQueued(db, a) && !AllTerminal(db.calls, a)
  {
  }

  lemma NotConcluded(s: State, a: CampaignId, due: Time)
    requires CampaignInv(s) && a in s.db.campaigns && OnlyRetriesLater(s.db, a, due)
    ensures Eligible(s.db, a)
  {
    WaitsForWork(s.db, a, due);
    assert CampaignOK(s, a);
  }

  lemma ListedFirst(s: State, a: CampaignId, due: Time, views: seq<CampaignView>)
    requires CampaignInv(s) && a in s.db.campaigns && OnlyRetriesLater(s.db, a, due) && First(s.db, a)
    requires EligibleList(s.db, views)
    ensures LeadsViews(s.db, views, a)
  {
    NotConcluded(s, a, due);
    var i :| 0 <= i < |views| && views[i].id == a;
    assert views[i] in views;
    forall v | v in views && v.id != a ensures Before(s.db.cursors, a, v.id) {
      assert Eligible(s.db, v.id);
    }
  }

  lemma GatedFirst(s: State, a: CampaignId, due: Time, open: set<CampaignId>, capped: seq<CampaignView>)
    requires ViewsOK(s) && |s.replicas| == 1 && s.replicas[0].Listed? && a in open
    requires a in s.db.campaigns && s.db.campaigns[a].maxConcurrent >= 1 && OnlyRetriesLater(s.db, a, due)
    requires LeadsViews(s.db, s.replicas[0].views, a)
    requires capped == UnderCap(s.db, InHours(s.replicas[0].views, open))
    ensures LeadsViews(s.db, capped, a)
  {
    var views := s.replicas[0].views;
    var v :| v in views && v.id == a;
    assert v in ViewsOf(s.replicas[0]) && ViewOK(s.db, v);
    WaitsForWork(s.db, a, due);
    assert v in InHours(views, open) && BelowCap(s.db, v);
    assert v in capped;
  }

  lemma PicksFirst(s: State, a: CampaignId, view: CampaignView, isRetry: bool)
    requires CursorsFresh(s) && Enabled(s, Sweep(0, view, isRetry)) && LeadsViews(s.db, s.replicas[0].capped, a)
    requires WithRetryDue(s.replicas[0].capped, DueCampaigns(s.db, s.now)) == []
    ensures view.id == a && !isRetry
  {
    var w :| w in s.replicas[0].capped && w.id == a;
    assert view == w || Precedes(view, w);
    assert w.cursor == CursorOf(s.db, a) && view.cursor == CursorOf(s.db, view.id);
  }

  lemma NothingToClaim(s: State, a: CampaignId, due: Time, choice: Option<CallId>, locked: set<CallId>)
    requires Inv(s) && H2Inv(s) && |s.replicas| == 1 && OnlyRetriesLater(s.db, a, due)
    requires Enabled(s, ClaimNext(0, choice, locked)) && s.replicas[0].view.id == a
    ensures choice.None?
  {
    WaitsForWork(s.db, a, due);
    ClaimFinds(s, choice, locked);
  }

  lemma TickIdles(s: State, step: Step, a: CampaignId, due: Time)
    requires Inv(s) && H2Inv(s) && CursorsFresh(s) && Blocked(s, a, due) && Enabled(s, step) && Undisturbed(s, step, a, due)
    ensures Idles(step, a)
  {
    if step.Sweep? {
      PicksFirst(s, a, step.view, step.isRetry);
    } else if step.ClaimNext? {
      NothingToClaim(s, a, due, step.choice, step.locked);
    }
  }

  lemma ListStays(s: State, i: nat, views: seq<CampaignView>, a: CampaignId, due: Time)
    requires CampaignInv(s) && Blocked(s, a, due) && Enabled(s, List(i, views))
    ensures TickOn(s.db, NextReplica(s, List(i, views)), a)
  {
    ListedFirst(s, a, due, views);
  }

  lemma GateCarries(s: State, i: nat, open: set<CampaignId>, a: CampaignId, capped: seq<CampaignView>)
    requires Enabled(s, Gate(i, open)) && capped == UnderCap(s.db, InHours(s.replicas[i].views, open))
    requires LeadsViews(s.db, capped, a)
    ensures TickOn(s.db, NextReplica(s, Gate(i, open)), a)
  {
  }

  lemma GateStays(s: State, i: nat, open: set<CampaignId>, a: CampaignId, due: Time)
    requires ViewsOK(s) && |s.replicas| == 1 && Enabled(s, Gate(i, open)) && a in open
    requires a in s.db.campaigns && s.db.campaigns[a].maxConcurrent >= 1 && OnlyRetriesLater(s.db, a, due)
    requires LeadsViews(s.db, s.replicas[0].views, a)
    ensures TickOn(s.db, NextReplica(s, Gate(i, open)), a)
  {
    var capped := UnderCap(s.db, InHours(s.replicas[0].views, open));
    GatedFirst(s, a, due, open, capped);
    GateCarries(s, i, open, a, capped);
  }

  lemma OtherStays(s: State, step: Step, a: CampaignId, due: Time)
    requires Blocked(s, a, due) && Enabled(s, step) && Idles(step, a) && !step.List? && !step.Gate?
    ensures |Apply(s, step).replicas| == 1 && TickOn(s.db, Apply(s, step).replicas[0], a)
  {
  }

  lemma TickStays(s: State, step: Step, a: CampaignId, due: Time)
    requires CampaignInv(s) && Blocked(s, a, due) && Enabled(s, step) && Undisturbed(s, step, a, due) && Idles(step, a)
    ensures |Apply(s, step).replicas| == 1 && TickOn(s.db, Apply(s, step).replicas[0], a)
  {
    if step.List? {
      ListStays(s, step.i, step.views, a, due);
    } else if step.Gate? {
      GateStays(s, step.i, step.open, a, due);
    } else {
      OtherStays(s, step, a, due);
    }
  }

  lemma FirstStays(s: State, step: Step, a: CampaignId)
    requires Always(s) && Enabled(s, step) && First(s.db, a) && !step.Create? && !step.Settle? && a in s.db.campaigns
    ensures First(Apply(s, step).db, a) && Apply(s, step).db.cursors == s.db.cursors
  {
    CursorsAfter(s, step);
    StepEffect(s, step);
    StepCampaigns(s, step);
    forall k | k in Apply(s, step).db.campaigns && k != a && !Concluded(Apply(s, step).db.campaigns[k].status)
      ensures Before(s.db.cursors, a, k)
    {
      if k in s.db.campaigns && Concluded(s.db.campaigns[k].status) {
        VerdictStays(s, step, k);
      }
    }
  }

  lemma BlockedStays(s: State, step: Step, a: CampaignId, due: Time)
    requires Always(s) && H1Inv(s) && H2Inv(s) && CursorsFresh(s) && Blocked(s, a, due)
    requires Enabled(s, step) && H2(s, step) && Undisturbed(s, step, a, due)
    ensures Blocked(Apply(s, step), a, due) && Idles(step, a)
  {
    TickIdles(s, step, a, due);
    TickStays(s, step, a, due);
    FirstStays(s, step, a);
    ConfigStays(s, step);
    StepsOf(s, step);
    RetriesLaterStay(s, Apply(s, step), step, MoveOf(s, step), a, due);
  }

  ghost predicate UndisturbedAlong(p: Premises, s: State, steps: seq<Step>, a: CampaignId, due: Time)
    requires |s.replicas| == 1 && IsRun(p, s, steps)
    decreases |steps|
  {
    steps != [] ==>
      Undisturbed(s, steps[0], a, due) && UndisturbedAlong(p, Apply(s, steps[0]), steps[1..], a, due)
  }

  ghost predicate AllIdle(steps: seq<Step>, a: CampaignId) {
    forall i :: 0 <= i < |steps| ==> Idles(steps[i], a)
  }

  lemma IdleCons(steps: seq<Step>, a: CampaignId)
    requires steps != [] && Idles(steps[0], a) && AllIdle(steps[1..], a)
    ensures AllIdle(steps, a)
  {
    forall i | 0 <= i < |steps| ensures Idles(steps[i], a) {
      assert i > 0 ==> steps[i] == steps[1..][i-1];
    }
  }

  lemma BlockedNext(p: Premises, s: State, step: Step, a: CampaignId, due: Time)
    requires p.h2 && Reachable(p, 1, s) && Blocked(s, a, due)
    requires Enabled(s, step) && Meets(p, s, step) && Undisturbed(s, step, a, due)
    ensures Reachable(p, 1, Apply(s, step)) && Blocked(Apply(s, step), a, due) && Idles(step, a)
  {
    ReachableHolds(p, 1, s);
    ReachableCursorsFresh(p, s);
    BlockedStays(s, step, a, due);
    ReachNext(p, 1, s, step);
  }

  /**
   Free capacity goes unused. One scheduler, H2: once the campaign that comes first in the round robin has
   nothing left but retries that are due at `due` or later, every tick before `due` picks it, its claim finds
   nothing, and no call of any campaign is requeued, claimed or dialled, whatever webhooks and reclaims do and
   whatever the others have queued. IdleRun.IdleWhileAnotherWaits is such a run from the empty database.
   */
  lemma {:induction false} NothingDialledUntilDue(p: Premises, s: State, steps: seq<Step>, a: CampaignId, due: Time)
    requires Reachable(p, 1, s) && p.h2 && Blocked(s, a, due)
    requires IsRun(p, s, steps) && UndisturbedAlong(p, s, steps, a, due)
    ensures Blocked(Run(p, s, steps), a, due) && AllIdle(steps, a)
    decreases |steps|
  {
    if steps != [] {
      BlockedNext(p, s, steps[0], a, due);
      NothingDialledUntilDue(p, Apply(s, steps[0]), steps[1..], a, due);
      IdleCons(steps, a);
    }
  }
}

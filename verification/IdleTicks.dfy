/**
 Why a tick can come away with nothing: with one scheduler and in-order draining, the campaign it picked held a
 retry that was not yet due when it was listed.
 */
module IdleTicks {
  import opened Types
  import opened Tables
  import opened Columns
  import opened Protocol
  import opened Shape
  import opened CallInvariant
  import opened DrainInvariant
  import opened RetryTick
  import opened Reach
  import opened Attempts
  import opened WorkConservation

  /** Call `c` of campaign `k` was waiting when the tick listed, and nobody has touched it since. */
  predicate WaitedSince(was: Db, db: Db, k: CampaignId, c: CallId) {
    && c in was.calls && c in db.calls && db.calls[c] == was.calls[c]
    && was.calls[c].campaign == k && was.calls[c].status in {Queued, RetryPending}
  }

  ghost predicate WorkSince(was: Db, db: Db, k: CampaignId) {
    exists c :: WaitedSince(was, db, k, c)
  }

  /** The call can be claimed, or its retry was still to come at `listed`. */
  predicate ReadyOrLater(row: Call, listed: Time) {
    row.status == Queued || (row.nextAttempt.Some? && row.nextAttempt.value > listed)
  }

  ghost predicate PickedSince(was: State, db: Db, k: CampaignId) {
    exists c :: WaitedSince(was.db, db, k, c) && ReadyOrLater(db.calls[c], was.now)
  }

  /** What the tick that listed in state `was` has in its hands. */
  ghost predicate OnTick(was: State, s: State) {
    && |s.replicas| == 1 && was.now <= s.now
    && match s.replicas[0]
       case Listed(views) => forall v :: v in views ==> WorkSince(was.db, s.db, v.id)
       case Gated(capped) => forall v :: v in capped ==> WorkSince(was.db, s.db, v.id)
       case Ready(v, isRetry) => isRetry || PickedSince(was, s.db, v.id)
       case _ => true
  }

  lemma ListedHasWork(was: State, views: seq<CampaignView>)
    requires |was.replicas| == 1 && Enabled(was, List(0, views))
    ensures OnTick(was, Apply(was, List(0, views)))
  {
    forall v | v in views ensures WorkSince(was.db, was.db, v.id) {
      EligibleMeans(was.db, views, v.id);
      assert ListsCampaign(views, v.id);
      var c :| c in was.db.calls && was.db.calls[c].campaign == v.id && was.db.calls[c].status in {Queued, RetryPending};
      assert WaitedSince(was.db, was.db, v.id, c);
    }
  }

  lemma StillWaits(was: Db, s: State, s': State, step: Step, m: Option<Move>, k: CampaignId, c: CallId)
    requires Inv(s) && H1Inv(s) && H2Inv(s) && Steps(s, s', step, m) && H2(s, step)
    requires WaitedSince(was, s.db, k, c) && !step.Requeue? && !step.ClaimNext?
    ensures WaitedSince(was, s'.db, k, c)
  {
    WaitingRowStays(s, s', step, m, c);
  }

  /** What waited still waits after a step that neither requeues nor claims. */
  lemma WorkStays(was: State, s: State, s': State, step: Step, m: Option<Move>)
    requires Inv(s) && H1Inv(s) && H2Inv(s) && Steps(s, s', step, m) && H2(s, step) && !step.Requeue? && !step.ClaimNext?
    ensures forall k :: WorkSince(was.db, s.db, k) ==> WorkSince(was.db, s'.db, k)
    ensures forall k :: PickedSince(was, s.db, k) ==> PickedSince(was, s'.db, k)
  {
    forall k | WorkSince(was.db, s.db, k) ensures WorkSince(was.db, s'.db, k) {
      var c :| WaitedSince(was.db, s.db, k, c);
      StillWaits(was.db, s, s', step, m, k, c);
    }
    forall k | PickedSince(was, s.db, k) ensures PickedSince(was, s'.db, k) {
      var c :| WaitedSince(was.db, s.db, k, c) && ReadyOrLater(s.db.calls[c], was.now);
      StillWaits(was.db, s, s', step, m, k, c);
    }
  }

  /** A pick that is no retry leaves no due retry behind among the campaigns it could have taken. */
  lemma PickIsReady(was: State, s: State, view: CampaignView)
    requires OnTick(was, s) && Enabled(s, Sweep(0, view, false))
    ensures PickedSince(was, s.db, view.id)
  {
    var capped, due := s.replicas[0].capped, DueCampaigns(s.db, s.now);
    assert view in capped && WithRetryDue(capped, due) == [];
    assert view.id !in due;
    var c :| WaitedSince(was.db, s.db, view.id, c);
    DueMeans(s.db, s.now, view.id);
    assert s.db.calls[c].status == RetryPending ==> s.db.calls[c].nextAttempt.Some? && s.db.calls[c].nextAttempt.value > s.now;
    assert ReadyOrLater(s.db.calls[c], was.now);
  }

  /** The next program counter of the one replica. */
  lemma NextOnTick(was: State, s: State, step: Step)
    requires OnTick(was, s) && Enabled(s, step) && !step.List?
    requires step.Sweep? && !step.isRetry ==> PickedSince(was, s.db, step.view.id)
    ensures OnTick(was, Apply(s, step).(db := s.db))
  {
    if step.Gate? {
      assert forall v :: v in UnderCap(s.db, InHours(s.replicas[0].views, step.open)) ==> v in s.replicas[0].views;
    }
  }

  lemma OnTickWith(was: State, s: State, db: Db)
    requires OnTick(was, s)
    requires forall k :: WorkSince(was.db, s.db, k) ==> WorkSince(was.db, db, k)
    requires forall k :: PickedSince(was, s.db, k) ==> PickedSince(was, db, k)
    ensures OnTick(was, s.(db := db))
  {
  }

  lemma NoTickAfterClaim(was: State, s: State, step: Step)
    requires OnTick(was, s) && Enabled(s, step) && (step.Requeue? || step.ClaimNext?)
    ensures OnTick(was, Apply(s, step))
  {
  }

  lemma OnTickStep(p: Premises, was: State, s: State, step: Step)
    requires p.h2 && Reachable(p, 1, s) && OnTick(was, s) && Enabled(s, step) && Meets(p, s, step) && !step.List?
    ensures OnTick(was, Apply(s, step))
  {
    if step.Requeue? || step.ClaimNext? {
      NoTickAfterClaim(was, s, step);
    } else {
      ReachableHolds(p, 1, s);
      StepsOf(s, step);
      WorkStays(was, s, Apply(s, step), step, MoveOf(s, step));
      if step.Sweep? && !step.isRetry {
        PickIsReady(was, s, step.view);
      }
      NextOnTick(was, s, step);
      OnTickWith(was, Apply(s, step).(db := s.db), Apply(s, step).db);
    }
  }

  predicate NoNewTick(steps: seq<Step>) {
    forall i :: 0 <= i < |steps| ==> !steps[i].List?
  }

  lemma {:induction false} OnTickAlong(p: Premises, was: State, s: State, steps: seq<Step>)
    requires p.h2 && Reachable(p, 1, s) && OnTick(was, s) && IsRun(p, s, steps) && NoNewTick(steps)
    ensures Reachable(p, 1, Run(p, s, steps)) && OnTick(was, Run(p, s, steps))
    decreases |steps|
  {
    if steps != [] {
      OnTickStep(p, was, s, steps[0]);
      ReachNext(p, 1, s, steps[0]);
      OnTickAlong(p, was, Apply(s, steps[0]), steps[1..]);
    }
  }

  lemma PickedHoldsRetry(p: Premises, was: State, s: State, locked: set<CallId>)
    requires Reachable(p, 1, s) && p.h2 && p.phones && OnTick(was, s) && Enabled(s, ClaimNext(0, None, locked))
    ensures !s.replicas[0].isRetry
    ensures exists c :: WaitedSince(was.db, s.db, s.replicas[0].view.id, c) && s.db.calls[c].status == RetryPending
              && s.db.calls[c].nextAttempt.Some? && s.db.calls[c].nextAttempt.value > was.now
  {
    var k := s.replicas[0].view.id;
    if s.replicas[0].isRetry {
      RetryTickClaims(p, s, None, locked);
    } else {
      ReachableHolds(p, 1, s);
      ClaimFinds(s, None, locked);
      var c :| WaitedSince(was.db, s.db, k, c) && ReadyOrLater(s.db.calls[c], was.now);
      assert !HasQueued(s.db, k);
    }
  }

  /**
   One scheduler, H2, distinct phones: a tick that lists, passes the gates and then claims nothing, whatever runs in
   between, has picked a campaign that held a RETRY_PENDING call when it was listed, not due then; the call
   waits still. A campaign whose calls are all with the provider, or have ended, never costs a tick.
   */
  lemma IdleTickHeldRetry(p: Premises, was: State, views: seq<CampaignView>, steps: seq<Step>, locked: set<CallId>)
    requires Reachable(p, 1, was) && p.h2 && p.phones && Enabled(was, List(0, views)) && Meets(p, was, List(0, views))
    requires IsRun(p, Apply(was, List(0, views)), steps) && NoNewTick(steps)
    requires Enabled(Run(p, Apply(was, List(0, views)), steps), ClaimNext(0, None, locked))
    ensures var s := Run(p, Apply(was, List(0, views)), steps);
            && !s.replicas[0].isRetry
            && exists c :: c in was.db.calls && c in s.db.calls && s.db.calls[c] == was.db.calls[c]
                 && was.db.calls[c].campaign == s.replicas[0].view.id && was.db.calls[c].status == RetryPending
                 && was.db.calls[c].nextAttempt.Some? && was.db.calls[c].nextAttempt.value > was.now
  {
    ReachableHolds(p, 1, was);
    ListedHasWork(was, views);
    ReachNext(p, 1, was, List(0, views));
    OnTickAlong(p, was, Apply(was, List(0, views)), steps);
    var s := Run(p, Apply(was, List(0, views)), steps);
    PickedHoldsRetry(p, was, s, locked);
    var c :| WaitedSince(was.db, s.db, s.replicas[0].view.id, c) && s.db.calls[c].status == RetryPending
      && s.db.calls[c].nextAttempt.Some? && s.db.calls[c].nextAttempt.value > was.now;
  }
}

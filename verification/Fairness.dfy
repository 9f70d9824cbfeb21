/**
 Round robin with N schedulers and a strictly increasing cursor clock (H4): how many calls of another campaign can be
 claimed before a campaign that keeps passing the gate is dispatched.
 */
module Fairness {
  import opened Types
  import opened Tables
  import opened Protocol

  // ---- cursors ---------------------------------------------------------------------------------

  lemma CommitCursors(db: Db, o: Outcome)
    requires o.Applied? ==> o.move.call in db.calls
    ensures After(db, o).cursors == db.cursors
  {
  }

  lemma WebhookCursors(db: Db, x: EventId, target: Option<Found>, wait: Time, now: Time)
    requires x in db.inbox
    ensures WebhookTx(db, x, target, wait, now).cursors == db.cursors
  {
  }

  lemma ClaimCursors(db: Db, v: CampaignView, c: CallId, now: Time)
    requires c in db.calls
    ensures ClaimTx(db, v, c, now).cursors == db.cursors
  {
  }

  lemma OtherCursors(s: State, step: Step)
    requires Enabled(s, step) && !step.Requeue? && !step.ClaimNext? && !step.Settle? && !step.Finish? && !step.Reclaim?
    ensures NextDb(s, step).cursors == s.db.cursors
  {
  }

  /** Only phase 3 writes a cursor: that of the campaign it dispatched. */
  lemma CursorsAfter(s: State, step: Step)
    requires Enabled(s, step)
    ensures NextDb(s, step).cursors
         == if step.Settle? then s.db.cursors[s.replicas[step.i].view.id := step.stamp] else s.db.cursors
  {
    match step
    case Requeue(_, None, _) =>
    case ClaimNext(_, None, _) =>
    case Requeue(_, Some(d), _) => CommitCursors(s.db, RequeueOutcome(s.db, d, s.now));
    case ClaimNext(i, Some(d), _) => ClaimCursors(s.db, s.replicas[i].view, d, s.now);
    case Settle(i, wait, _) => CommitCursors(s.db, SettleOutcome(s, i, wait));
    case Finish(p, wait) => WebhookCursors(s.db, s.lookups[p].inboxId, s.lookups[p].target, wait, s.now);
    case Reclaim(r) => CommitCursors(s.db, ReclaimResult(s, r));
    case _ => OtherCursors(s, step);
  }

  /** Campaign `k` comes before campaign `j` in the round-robin order. */
  predicate Before(cursors: map<CampaignId, Time>, k: CampaignId, j: CampaignId) {
    && j in cursors
    && (k in cursors ==> cursors[k] < cursors[j] || (cursors[k] == cursors[j] && k < j))
  }

  // ---- waiting and bypassing -------------------------------------------------------------------

  /** `k` is gate-surviving at each pick (and has a due retry, if `due`), and is not dispatched. */
  ghost predicate WaitsAt(s: State, step: Step, k: CampaignId, due: bool)
    requires Enabled(s, step)
  {
    && (step.Sweep? ==>
          && (exists v :: v in s.replicas[step.i].capped && v.id == k)
          && (due ==> k in DueCampaigns(s.db, s.now)))
    && (step.Settle? ==> s.replicas[step.i].view.id != k)
  }

  ghost predicate WaitsThrough(p: Premises, s: State, steps: seq<Step>, k: CampaignId, due: bool)
    requires IsRun(p, s, steps)
    decreases |steps|
  {
    steps == []
    || (WaitsAt(s, steps[0], k, due) && WaitsThrough(p, Apply(s, steps[0]), steps[1..], k, due))
  }

  /** The step claims a call of campaign `j`; retry ticks count only if `all`. */
  predicate Claims(s: State, step: Step, j: CampaignId, all: bool) {
    && step.ClaimNext? && step.choice.Some? && At(s, step.i) && s.replicas[step.i].Ready?
    && s.replicas[step.i].view.id == j && (all || !s.replicas[step.i].isRetry)
  }

  /** The tick holds a claim of campaign `j` whose cursor stamp is still to come. */
  predicate Unstamped(r: Replica, j: CampaignId, all: bool) {
    match r
    case HasClaim(v, isRetry, _) => v.id == j && (all || !isRetry)
    case Placed(v, isRetry, _, _) => v.id == j && (all || !isRetry)
    case _ => false
  }

  /** The tick crashes between its claim of campaign `j` and the stamp of `j`'s cursor. */
  predicate LosesStamp(s: State, step: Step, j: CampaignId, all: bool) {
    step.Crash? && At(s, step.i) && Unstamped(s.replicas[step.i], j, all)
  }

  ghost function CountClaims(p: Premises, s: State, steps: seq<Step>, j: CampaignId, all: bool): nat
    requires IsRun(p, s, steps)
    decreases |steps|
  {
    if steps == [] then 0
    else (if Claims(s, steps[0], j, all) then 1 else 0) + CountClaims(p, Apply(s, steps[0]), steps[1..], j, all)
  }

  ghost function CountLost(p: Premises, s: State, steps: seq<Step>, j: CampaignId, all: bool): nat
    requires IsRun(p, s, steps)
    decreases |steps|
  {
    if steps == [] then 0
    else (if LosesStamp(s, steps[0], j, all) then 1 else 0) + CountLost(p, Apply(s, steps[0]), steps[1..], j, all)
  }

  /** The tick has picked `j` and not claimed yet. */
  predicate Chosen(r: Replica, j: CampaignId, all: bool) {
    match r
    case Picked(v) => v.id == j && all
    case Ready(v, isRetry) => v.id == j && (all || !isRetry)
    case _ => false
  }

  /** What a tick has listed, however long ago, puts `k` before `j`. */
  predicate ViewsFavor(views: seq<CampaignView>, k: CampaignId, j: CampaignId) {
    forall v, w :: v in views && w in views && v.id == k && w.id == j ==> Precedes(v, w)
  }

  function ViewsIn(r: Replica): seq<CampaignView> {
    match r
    case Listed(views) => views
    case Gated(capped) => capped
    case _ => []
  }

  /**
   How many claims `j` can still get from one replica before the waiting campaign `k`, as long as no stamp is
   lost; `behind` says that `j` now comes after `k`. A replica can still pick `j` on a list from before that.
   */
  function Share(r: Replica, behind: bool, k: CampaignId, j: CampaignId, all: bool): nat {
    if Chosen(r, j, all) then 1
    else if Unstamped(r, j, all) || (behind && ViewsFavor(ViewsIn(r), k, j)) then 0
    else 1
  }

  function Shares(rs: seq<Replica>, behind: bool, k: CampaignId, j: CampaignId, all: bool): nat {
    if rs == [] then 0 else Shares(rs[..|rs|-1], behind, k, j, all) + Share(rs[|rs|-1], behind, k, j, all)
  }

  lemma {:induction false} SharesAfter(rs: seq<Replica>, i: nat, r: Replica, behind: bool, k: CampaignId, j: CampaignId, all: bool)
    requires i < |rs|
    ensures Shares(rs[i := r], behind, k, j, all)
         == Shares(rs, behind, k, j, all) - Share(rs[i], behind, k, j, all) + Share(r, behind, k, j, all)
    decreases |rs|
  {
    var front := rs[..|rs|-1];
    if i == |rs| - 1 {
      assert rs[i := r][..|rs|-1] == front;
    } else {
      assert rs[i := r][..|rs|-1] == front[i := r];
      SharesAfter(front, i, r, behind, k, j, all);
    }
  }

  /** Putting `k` first lowers every share, and there is at most one for each replica. */
  lemma {:induction false} SharesFall(rs: seq<Replica>, k: CampaignId, j: CampaignId, all: bool)
    ensures Shares(rs, true, k, j, all) <= Shares(rs, false, k, j, all) <= |rs|
  {
    if rs != [] {
      SharesFall(rs[..|rs|-1], k, j, all);
    }
  }

  lemma ListFavors(s: State, i: nat, views: seq<CampaignView>, k: CampaignId, j: CampaignId)
    requires Enabled(s, List(i, views)) && Before(s.db.cursors, k, j)
    ensures ViewsFavor(views, k, j)
  {
  }

  lemma GateFavors(db: Db, views: seq<CampaignView>, open: set<CampaignId>, k: CampaignId, j: CampaignId)
    requires ViewsFavor(views, k, j)
    ensures ViewsFavor(UnderCap(db, InHours(views, open)), k, j)
  {
    var capped := UnderCap(db, InHours(views, open));
    forall v | v in capped ensures v in views {
      assert v in InHours(views, open);
    }
  }

  /** A pick that could have taken `k` instead takes `j` only if the list did not put `k` first. */
  lemma PickRespectsOrder(s: State, step: Step, k: CampaignId, j: CampaignId, all: bool)
    requires Enabled(s, step) && step.Sweep? && WaitsAt(s, step, k, all) && j != k
    requires step.view.id == j && (all || !step.isRetry)
    ensures !ViewsFavor(s.replicas[step.i].capped, k, j)
  {
    var capped, due := s.replicas[step.i].capped, DueCampaigns(s.db, s.now);
    var w :| w in capped && w.id == k;
    var candidates := WithRetryDue(capped, due);
    assert all ==> w in candidates;
    assert step.view in capped && Precedes(step.view, w);
  }

  /** A step of replica `i` lowers its share by the claim it makes, unless it loses a stamp. */
  lemma ShareFalls(s: State, step: Step, i: nat, k: CampaignId, j: CampaignId, all: bool)
    requires Enabled(s, step) && ActingReplica(step) == Some(i) && At(s, i) && WaitsAt(s, step, k, all) && j != k
    requires !(step.Settle? && s.replicas[i].view.id == j)
    ensures var behind := Before(s.db.cursors, k, j);
            Share(NextReplica(s, step), behind, k, j, all) + (if Claims(s, step, j, all) then 1 else 0)
            <= Share(s.replicas[i], behind, k, j, all) + if LosesStamp(s, step, j, all) then 1 else 0
  {
    match step
    case List(_, views) =>
      if Before(s.db.cursors, k, j) {
        ListFavors(s, i, views, k, j);
      }
    case Gate(_, open) =>
      if ViewsFavor(s.replicas[i].views, k, j) {
        GateFavors(s.db, s.replicas[i].views, open, k, j);
      }
    case Sweep(_, view, isRetry) =>
      if view.id == j && (all || !isRetry) {
        PickRespectsOrder(s, step, k, j, all);
      }
    case _ =>
  }

  /** Once `j` comes after `k` it stays so while `k` is not dispatched, and phase 3 for `j` puts it there. */
  lemma StaysBehind(p: Premises, s: State, step: Step, k: CampaignId, j: CampaignId, due: bool)
    requires p.h4 && Enabled(s, step) && Meets(p, s, step) && WaitsAt(s, step, k, due) && j != k
    ensures Before(s.db.cursors, k, j) || (step.Settle? && s.replicas[step.i].view.id == j)
            ==> Before(NextDb(s, step).cursors, k, j)
    ensures !step.Settle? ==> Before(NextDb(s, step).cursors, k, j) == Before(s.db.cursors, k, j)
  {
    CursorsAfter(s, step);
  }

  function Potential(s: State, k: CampaignId, j: CampaignId, all: bool): nat {
    Shares(s.replicas, Before(s.db.cursors, k, j), k, j, all)
  }

  lemma SharesOf(s: State, step: Step, k: CampaignId, j: CampaignId, all: bool)
    requires Enabled(s, step) && WaitsAt(s, step, k, all) && j != k
    ensures var behind := Before(s.db.cursors, k, j);
            !(step.Settle? && s.replicas[step.i].view.id == j) ==>
              Shares(NextReplicas(s, step), behind, k, j, all) + (if Claims(s, step, j, all) then 1 else 0)
              <= Shares(s.replicas, behind, k, j, all) + if LosesStamp(s, step, j, all) then 1 else 0
    ensures step.Settle? ==> Shares(NextReplicas(s, step), true, k, j, all) <= Shares(s.replicas, true, k, j, all)
  {
    match ActingReplica(step)
    case None =>
    case Some(i) =>
      SharesAfter(s.replicas, i, NextReplica(s, step), Before(s.db.cursors, k, j), k, j, all);
      SharesAfter(s.replicas, i, NextReplica(s, step), true, k, j, all);
      if !(step.Settle? && s.replicas[i].view.id == j) {
        ShareFalls(s, step, i, k, j, all);
      }
  }

  lemma PotentialFalls(p: Premises, s: State, step: Step, k: CampaignId, j: CampaignId, all: bool)
    requires p.h4 && Enabled(s, step) && Meets(p, s, step) && WaitsAt(s, step, k, all) && j != k
    ensures Potential(Apply(s, step), k, j, all) + (if Claims(s, step, j, all) then 1 else 0)
         <= Potential(s, k, j, all) + if LosesStamp(s, step, j, all) then 1 else 0
  {
    StaysBehind(p, s, step, k, j, all);
    SharesOf(s, step, k, j, all);
    SharesFall(s.replicas, k, j, all);
    SharesFall(NextReplicas(s, step), k, j, all);
  }

  lemma {:induction false} ClaimsBounded(p: Premises, s: State, steps: seq<Step>, k: CampaignId, j: CampaignId, all: bool)
    requires p.h4 && IsRun(p, s, steps) && WaitsThrough(p, s, steps, k, all) && j != k
    ensures CountClaims(p, s, steps, j, all) <= Potential(s, k, j, all) + CountLost(p, s, steps, j, all)
    decreases |steps|
  {
    if steps != [] {
      PotentialFalls(p, s, steps[0], k, j, all);
      ClaimsBounded(p, Apply(s, steps[0]), steps[1..], k, j, all);
    }
  }

  /**
   While `k` passes the gate undispatched, every other campaign has at most one call for each scheduler claimed by
   a non-retry tick, and one more for each such tick that crashes before it stamps the cursor.
   */
  lemma BypassedOnce(p: Premises, s: State, steps: seq<Step>, k: CampaignId, j: CampaignId)
    requires p.h4 && IsRun(p, s, steps) && WaitsThrough(p, s, steps, k, false) && j != k
    ensures CountClaims(p, s, steps, j, false) <= |s.replicas| + CountLost(p, s, steps, j, false)
  {
    ClaimsBounded(p, s, steps, k, j, false);
    SharesFall(s.replicas, k, j, false);
  }

  /** While `k` also has a due retry, the same bound holds for the claims of every kind of tick. */
  lemma DueRetryBypassedOnce(p: Premises, s: State, steps: seq<Step>, k: CampaignId, j: CampaignId)
    requires p.h4 && IsRun(p, s, steps) && WaitsThrough(p, s, steps, k, true) && j != k
    ensures CountClaims(p, s, steps, j, true) <= |s.replicas| + CountLost(p, s, steps, j, true)
  {
    ClaimsBounded(p, s, steps, k, j, true);
    SharesFall(s.replicas, k, j, true);
  }
}

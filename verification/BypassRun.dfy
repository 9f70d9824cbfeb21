/**
 The round-robin bound of module Fairness is met for every number of schedulers: each picks the same campaign
 before any of them has stamped its cursor.
 */
module BypassRun {
  import opened Types
  import opened Tables
  import opened Protocol
  import opened Runs
  import opened CapLimits
  import opened Fairness

  // ---- runs in which a campaign waits ------------------------------------------------------------

  /** `steps` lead from `s` to `s'` while campaign 1 waits, with `count` claims of campaign 0 and no lost stamp. */
  ghost predicate Bypasses(s: State, steps: seq<Step>, s': State, count: nat) {
    && IsRun(EVERY, s, steps) && Run(EVERY, s, steps) == s' && WaitsThrough(EVERY, s, steps, 1, false)
    && CountClaims(EVERY, s, steps, 0, false) == count && CountLost(EVERY, s, steps, 0, false) == 0
  }

  lemma {:induction false} BypassesNext(s: State, steps: seq<Step>, s': State, count: nat, step: Step)
    requires Bypasses(s, steps, s', count) && Enabled(s', step) && Meets(EVERY, s', step)
    requires WaitsAt(s', step, 1, false) && !step.Crash?
    ensures Bypasses(s, steps + [step], Apply(s', step), count + if Claims(s', step, 0, false) then 1 else 0)
    decreases |steps|
  {
    RunSnoc(EVERY, s, steps, step);
    if steps == [] {
      assert [step][1..] == [] && steps + [step] == [step];
    } else {
      assert (steps + [step])[1..] == steps[1..] + [step];
      var rest := count - if Claims(s, steps[0], 0, false) then 1 else 0;
      BypassesNext(Apply(s, steps[0]), steps[1..], s', rest, step);
    }
  }

  // ---- two campaigns -----------------------------------------------------------------------------

  function Waiting(n: nat): Campaign {
    Campaign(PendingCampaign, n, 2, 1.0)
  }

  /** Campaign 0 has calls 0 to n - 1, campaign 1 has call n, and either may have n calls in flight. */
  function Both(n: nat): Db {
    Db(map[0 := Waiting(n), 1 := Waiting(n)], Upload(n)[n := UploadedCall(n).(campaign := 1)], [], map[], map[])
  }

  lemma SecondFits(n: nat)
    requires n >= 1
    ensures var one := Db(map[0 := Waiting(n)], Upload(n), [], map[], map[]);
            var batch := map[n := UploadedCall(n).(campaign := 1)];
            FreshBatch(one, 1, Waiting(n), batch, 0.0) && CreateTx(one, 1, Waiting(n), batch) == Both(n)
  {
    assert n in map[n := UploadedCall(n).(campaign := 1)];
  }

  lemma BothUploaded(n: nat) returns (s: State)
    requires n >= 1
    ensures Reachable(EVERY, n, s) && s.db == Both(n) && s.replicas == seq(n, _ => Idle) && s.now == 0.0
  {
    var before := Uploads(n, n, n);
    SecondFits(n);
    var step := Create(1, Waiting(n), map[n := UploadedCall(n).(campaign := 1)]);
    ReachNext(EVERY, n, before, step);
    s := Apply(before, step);
  }

  // ---- everyone picks campaign 0 -----------------------------------------------------------------

  function ViewsOfBoth(n: nat): seq<CampaignView> {
    [CampaignView(0, PendingCampaign, n, 1.0, None), CampaignView(1, PendingCampaign, n, 1.0, None)]
  }

  lemma BothEligible(n: nat)
    requires n >= 1
    ensures EligibleList(Both(n), ViewsOfBoth(n)) && DueCampaigns(Both(n), 0.0) == {}
    ensures forall v :: v in ViewsOfBoth(n) ==> BelowCap(Both(n), v)
    ensures IsEarliest(ViewsOfBoth(n), ViewsOfBoth(n)[0])
  {
    var db, views := Both(n), ViewsOfBoth(n);
    forall c | c in db.calls ensures db.calls[c].status.Queued? {
      assert c != n ==> db.calls[c] == UploadedCall(c);
    }
    assert db.calls[0].campaign == 0 || n == 0;
    assert db.calls[n].campaign == 1;
    assert Eligible(db, 0) && Eligible(db, 1) && views[0].id == 0 && views[1].id == 1;
    assert InFlightCalls(db.calls, 0) == {} && InFlightCalls(db.calls, 1) == {};
  }

  lemma GateMovesTo(s: State, i: nat, views: seq<CampaignView>, open: set<CampaignId>,
                    inHours: seq<CampaignView>, capped: seq<CampaignView>)
    requires At(s, i) && s.replicas[i] == Listed(views) && capped != []
    requires inHours == InHours(views, open) && HourSkips(views, open) == []
    requires capped == UnderCap(s.db, inHours) && CapSkips(s.db, inHours) == []
    ensures Enabled(s, Gate(i, open)) && Apply(s, Gate(i, open)) == With(s, i, Gated(capped))
  {
    assert s.db.audit + [] + [] == s.db.audit;
  }

  lemma PicksFirst(s: State, i: nat, n: nat)
    requires n >= 1 && At(s, i) && s.replicas[i] == Gated(ViewsOfBoth(n)) && s.db == Both(n) && s.now == 0.0
    ensures var step := Sweep(i, ViewsOfBoth(n)[0], false);
            && Enabled(s, step) && Apply(s, step) == With(s, i, Ready(ViewsOfBoth(n)[0], false))
            && WaitsAt(s, step, 1, false)
  {
    BothEligible(n);
    NoneDue(ViewsOfBoth(n), DueCampaigns(Both(n), 0.0));
    assert ViewsOfBoth(n)[1] in s.replicas[i].capped;
  }

  /** A step of the local program that claims nothing. */
  lemma MovesOn(s: State, steps: seq<Step>, s': State, i: nat, step: Step, r: Replica)
    requires Bypasses(s, steps, s', 0) && At(s', i) && Enabled(s', step) && Apply(s', step) == With(s', i, r)
    requires step.List? || step.Gate? || (step.Sweep? && WaitsAt(s', step, 1, false))
    ensures Bypasses(s, steps + [step], With(s', i, r), 0)
  {
    BypassesNext(s, steps, s', 0, step);
  }

  lemma ListsAndGates(s: State, steps: seq<Step>, s': State, i: nat, n: nat)
    requires n >= 1 && Bypasses(s, steps, s', 0) && At(s', i) && s'.replicas[i].Idle? && s'.db == Both(n)
    ensures Bypasses(s, steps + [List(i, ViewsOfBoth(n))] + [Gate(i, {0, 1})],
                     With(With(s', i, Listed(ViewsOfBoth(n))), i, Gated(ViewsOfBoth(n))), 0)
  {
    var views := ViewsOfBoth(n);
    BothEligible(n);
    MovesOn(s, steps, s', i, List(i, views), Listed(views));
    var listed := With(s', i, Listed(views));
    NoSkips(Both(n), views, {0, 1});
    GateMovesTo(listed, i, views, {0, 1}, views, views);
    MovesOn(s, steps + [List(i, views)], listed, i, Gate(i, {0, 1}), Gated(views));
  }

  /** Replica `i` lists both campaigns, passes both and picks campaign 0. */
  lemma OneMorePicks(s: State, steps: seq<Step>, s': State, i: nat, n: nat) returns (longer: seq<Step>)
    requires n >= 1 && Bypasses(s, steps, s', 0) && At(s', i) && s'.replicas[i].Idle? && s'.db == Both(n) && s'.now == 0.0
    ensures Bypasses(s, longer, With(s', i, Ready(ViewsOfBoth(n)[0], false)), 0)
  {
    ListsAndGates(s, steps, s', i, n);
    var gated := With(With(s', i, Listed(ViewsOfBoth(n))), i, Gated(ViewsOfBoth(n)));
    var front := steps + [List(i, ViewsOfBoth(n))] + [Gate(i, {0, 1})];
    PicksFirst(gated, i, n);
    var step, r := Sweep(i, ViewsOfBoth(n)[0], false), Ready(ViewsOfBoth(n)[0], false);
    MovesOn(s, front, gated, i, step, r);
    longer := front + [step];
    assert gated.replicas[i := r] == s'.replicas[i := r];
  }

  lemma {:induction false} AllPick(n: nat, g: nat) returns (s: State, steps: seq<Step>, s': State)
    requires n >= 1 && g <= n
    ensures Reachable(EVERY, n, s) && s.db == Both(n) && |s.replicas| == n && Bypasses(s, steps, s', 0)
    ensures s' == s.(replicas := seq(n, i => if i < g then Ready(ViewsOfBoth(n)[0], false) else Idle)) && s.now == 0.0
  {
    if g == 0 {
      s := BothUploaded(n);
      steps, s' := [], s;
    } else {
      s, steps, s' := AllPick(n, g - 1);
      steps := OneMorePicks(s, steps, s', g - 1, n);
      s' := With(s', g - 1, Ready(ViewsOfBoth(n)[0], false));
    }
  }

  // ---- and claims --------------------------------------------------------------------------------

  /** Replicas from `q` on are ready, and calls 0 to q - 1 of campaign 0 are claimed. */
  ghost predicate TakenUpTo(s: State, n: nat, q: nat) {
    && q <= n && |s.replicas| == n && s.now == 0.0
    && (forall i :: q <= i < n ==> s.replicas[i] == Ready(ViewsOfBoth(n)[0], false))
    && (forall c: CallId :: c in s.db.calls <==> c <= n)
    && (forall c: CallId :: c < q ==> s.db.calls[c].status.Dialing?)
    && (forall c: CallId :: q <= c < n ==> s.db.calls[c] == UploadedCall(c))
    && s.db.calls[n].campaign == 1
  }

  lemma NextClaimable(s: State, n: nat, q: nat)
    requires TakenUpTo(s, n, q) && q < n
    ensures OldestOf(s.db.calls, Claimable(s.db.calls, 0, {}, 0.0), Some(q)) && s.db.calls[q] == UploadedCall(q)
  {
    assert s.db.calls[q] == UploadedCall(q);
    forall c | c in Claimable(s.db.calls, 0, {}, 0.0) ensures s.db.calls[c].createdAt == 0.0 {
      assert q <= c < n && s.db.calls[c] == UploadedCall(c);
    }
  }

  lemma ClaimsOne(s: State, n: nat, q: nat) returns (step: Step)
    requires TakenUpTo(s, n, q) && q < n
    ensures step == ClaimNext(q, Some(q), {}) && Enabled(s, step) && TakenUpTo(Apply(s, step), n, q + 1)
  {
    step := ClaimNext(q, Some(q), {});
    NextClaimable(s, n, q);
    TakenTables(s.db, ViewsOfBoth(n)[0], q, 0.0);
  }

  lemma {:induction false} AllTake(n: nat, q: nat) returns (s: State, steps: seq<Step>, s': State)
    requires n >= 1 && q <= n
    ensures Reachable(EVERY, n, s) && s.db == Both(n) && Bypasses(s, steps, s', q) && TakenUpTo(s', n, q)
  {
    if q == 0 {
      s, steps, s' := AllPick(n, n);
    } else {
      s, steps, s' := AllTake(n, q - 1);
      var step := ClaimsOne(s', n, q - 1);
      BypassesNext(s, steps, s', q - 1, step);
      steps, s' := steps + [step], Apply(s', step);
    }
  }

  /**
   The bound is met: for every number N of schedulers, a reachable state and a run under every premise in which
   campaign 1 passes every gate undispatched, N calls of campaign 0 are claimed and no stamp is lost.
   */
  lemma BypassBoundIsMet(n: nat) returns (s: State, steps: seq<Step>)
    requires n >= 1
    ensures Reachable(EVERY, n, s) && s.db.campaigns.Keys == {0, 1} && IsRun(EVERY, s, steps)
    ensures WaitsThrough(EVERY, s, steps, 1, false) && CountLost(EVERY, s, steps, 0, false) == 0
    ensures CountClaims(EVERY, s, steps, 0, false) == n
  {
    var s';
    s, steps, s' := AllTake(n, n);
  }
}

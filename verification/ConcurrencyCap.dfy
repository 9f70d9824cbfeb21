/**
 The concurrency gate with N replicas: in-flight calls plus the ticks that passed the gate for a campaign and
 have not claimed yet never exceed max_concurrent + N - 1.
 */
module ConcurrencyCap {
  import opened Types
  import opened Tables
  import opened Protocol
  import opened Shape
  import opened CallInvariant
  import opened CampaignInvariant
  import opened DrainInvariant

  /** The tick has passed the gate for campaign `k` and may still claim one of its calls. */
  predicate Holds(r: Replica, k: CampaignId) {
    match r
    case Gated(capped) => exists v :: v in capped && v.id == k
    case Picked(v) => v.id == k
    case Ready(v, _) => v.id == k
    case _ => false
  }

  function Holders(replicas: seq<Replica>, k: CampaignId): set<int> {
    set i | 0 <= i < |replicas| && Holds(replicas[i], k)
  }

  ghost predicate CapOK(s: State, k: CampaignId)
    requires k in s.db.campaigns
  {
    |InFlightCalls(s.db.calls, k)| + |Holders(s.replicas, k)| <= s.db.campaigns[k].maxConcurrent + |s.replicas| - 1
  }

  ghost predicate CapInv(s: State) {
    forall k :: k in s.db.campaigns ==> CapOK(s, k)
  }

  lemma {:induction false} SubsetSize<T>(a: set<T>, b: set<T>)
    requires a <= b
    ensures |a| <= |b|
  {
    if a != {} {
      var x :| x in a;
      SubsetSize(a - {x}, b - {x});
    }
  }

  lemma {:induction false} IndexSetSize(a: set<int>, n: nat)
    requires forall i :: i in a ==> 0 <= i < n
    ensures |a| <= n
    decreases n
  {
    if n == 0 {
      assert forall i :: i !in a;
      assert a == {};
    } else {
      IndexSetSize(a - {n - 1}, n - 1);
      SubsetSize(a, (a - {n - 1}) + {n - 1});
    }
  }

  /** Under H2 only a claim brings a call in flight. */
  lemma InFlightGrowsByClaim(s: State, s': State, step: Step, m: Option<Move>, k: CampaignId)
    requires Inv(s) && H1Inv(s) && H2Inv(s) && Steps(s, s', step, m) && H2(s, step) && k in s.db.campaigns
    ensures InFlightCalls(s'.db.calls, k)
         <= InFlightCalls(s.db.calls, k)
          + if ClaimsOf(m, k) then {m.value.call} else {}
  {
    if m.Some? && step.Finish? {
      H2Move(s, s', step, m.value);
    }
  }

  /** A step adds the acting replica to the holders of `k` only at the gate, and only below the cap. */
  lemma HoldersOf(s: State, step: Step, k: CampaignId, i: nat)
    requires Enabled(s, step) && CampaignInv(s) && At(s, i) && Holds(Apply(s, step).replicas[i], k)
    ensures Holds(s.replicas[i], k)
      || (step.Gate? && step.i == i && k in s.db.campaigns && |InFlightCalls(s.db.calls, k)| < s.db.campaigns[k].maxConcurrent)
    ensures !(step.ClaimNext? && step.i == i)
  {
    if step.Gate? && step.i == i {
      var capped := UnderCap(s.db, InHours(s.replicas[i].views, step.open));
      var v :| v in capped && v.id == k;
      assert v in ViewsOf(s.replicas[i]);
      assert ViewOK(s.db, v) && BelowCap(s.db, v);
    }
  }

  lemma KeepsCap(s: State, step: Step, k: CampaignId)
    requires Inv(s) && CampaignInv(s) && H1Inv(s) && H2Inv(s) && Enabled(s, step) && H2(s, step)
    requires k in s.db.campaigns && CapOK(s, k) && |s.replicas| >= 1
    requires SameConfig(s, Apply(s, step))
    ensures k in Apply(s, step).db.campaigns && CapOK(Apply(s, step), k)
  {
    var s', m := Apply(s, step), MoveOf(s, step);
    StepsOf(s, step);
    InFlightGrowsByClaim(s, s', step, m, k);
    var before, after := InFlightCalls(s.db.calls, k), InFlightCalls(s'.db.calls, k);
    forall i | i in Holders(s'.replicas, k)
      ensures i in Holders(s.replicas, k) || (step.Gate? && step.i == i && |before| < s.db.campaigns[k].maxConcurrent)
      ensures !(step.ClaimNext? && step.i == i)
    {
      HoldersOf(s, step, k, i);
    }
    CapArithmetic(s, s', step, m, k);
  }

  /** A claim moves one unit from the holders to the calls in flight. */
  lemma ClaimArithmetic(before: set<CallId>, after: set<CallId>, had: set<int>, has: set<int>, c: CallId, i: int)
    requires after <= before + {c} && has <= had && i in had && i !in has
    ensures |after| + |has| <= |before| + |had|
  {
    SubsetSize(after, before + {c});
    SubsetSize(has, had - {i});
  }

  /** Any other step adds holders only at the gate, where the calls in flight are below the cap. */
  lemma OtherArithmetic(before: set<CallId>, after: set<CallId>, had: set<int>, has: set<int>, cap: int, n: nat)
    requires after <= before && |before| + |had| <= cap + n - 1
    requires has <= had || |before| < cap
    requires forall i :: i in has ==> 0 <= i < n
    ensures |after| + |has| <= cap + n - 1
  {
    SubsetSize(after, before);
    if has <= had {
      SubsetSize(has, had);
    } else {
      IndexSetSize(has, n);
    }
  }

  predicate ClaimsOf(m: Option<Move>, k: CampaignId) {
    m.Some? && m.value.event.CallClaimed? && m.value.row.campaign == k
  }

  lemma CapArithmetic(s: State, s': State, step: Step, m: Option<Move>, k: CampaignId)
    requires Effect(s, s', step, m) && |s'.replicas| == |s.replicas| >= 1 && k in s.db.campaigns && k in s'.db.campaigns
    requires CapOK(s, k) && s'.db.campaigns[k].maxConcurrent == s.db.campaigns[k].maxConcurrent
    requires InFlightCalls(s'.db.calls, k)
          <= InFlightCalls(s.db.calls, k) + if ClaimsOf(m, k) then {m.value.call} else {}
    requires forall i :: i in Holders(s'.replicas, k) ==>
               || i in Holders(s.replicas, k)
               || (step.Gate? && step.i == i && |InFlightCalls(s.db.calls, k)| < s.db.campaigns[k].maxConcurrent)
    requires forall i :: i in Holders(s'.replicas, k) ==> !(step.ClaimNext? && step.i == i)
    ensures CapOK(s', k)
  {
    var before, after := InFlightCalls(s.db.calls, k), InFlightCalls(s'.db.calls, k);
    var had, has := Holders(s.replicas, k), Holders(s'.replicas, k);
    if ClaimsOf(m, k) {
      ClaimerHolds(s, step, m.value, k);
      ClaimArithmetic(before, after, had, has, m.value.call, step.i);
    } else {
      OtherArithmetic(before, after, had, has, s.db.campaigns[k].maxConcurrent, |s.replicas|);
    }
  }

  lemma ClaimerHolds(s: State, step: Step, m: Move, k: CampaignId)
    requires Moves(s.db, m) && Origin(s, step, m) && m.event.CallClaimed? && m.row.campaign == k
    ensures step.ClaimNext? && step.i in Holders(s.replicas, k)
  {
  }

  lemma NewCampaignCap(s: State, s': State, step: Step, m: Option<Move>)
    requires Inv(s) && CampaignInv(s) && Effect(s, s', step, m) && step.Create? && s'.replicas == s.replicas && |s.replicas| >= 1
    requires step.k in s'.db.campaigns && s'.db.campaigns[step.k] == step.campaign
    ensures CapOK(s', step.k)
  {
    assert InFlightCalls(s'.db.calls, step.k) == {} by {
      assert forall c :: c in s.db.calls ==> CallOK(s, c);
    }
    forall i | 0 <= i < |s.replicas| ensures !Holds(s.replicas[i], step.k) {
      forall v | v in ViewsOf(s.replicas[i]) ensures v.id != step.k {
        assert ViewOK(s.db, v);
      }
    }
    assert Holders(s'.replicas, step.k) == {};
  }
}

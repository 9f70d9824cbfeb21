/** All invariants together, and their induction over runs. */
module Reach {
  import opened Types
  import opened Protocol
  import opened Shape
  import opened CallInvariant
  import opened CampaignInvariant
  import opened LogInvariant
  import opened DrainInvariant
  import opened ExactDials
  import opened StepBound
  import opened ConcurrencyCap
  import opened RetryTick

  /** What holds whatever the environment does. */
  ghost predicate Always(s: State) {
    Inv(s) && CampaignInv(s) && LogInv(s)
  }

  predicate OneScheduler(p: Premises, s: State) {
    p.h2 && p.phones && |s.replicas| == 1
  }

  /** What holds in addition, by premise. */
  ghost predicate GivenPremises(p: Premises, s: State) {
    && (p.h3 ==> Injective(s.issued))
    && (p.h1 || p.h2 ==> H1Inv(s))
    && (p.h1 && p.serial ==> SerialInv(s))
    && (p.h2 ==> H2Inv(s) && PinnedInv(s) && MeasureInv(s) && ExactInv(s))
    && (p.h2 || (p.h1 && p.serial) ==> BudgetInv(s))
    && (p.h2 && |s.replicas| >= 1 ==> CapInv(s))
    && (p.phones ==> DistinctPhones(s.db.calls))
    && (OneScheduler(p, s) ==> RetryReady(s))
  }

  lemma ConfigStays(s: State, step: Step)
    requires Always(s) && Enabled(s, step)
    ensures SameConfig(s, Apply(s, step))
    ensures step.Create? ==> step.k in Apply(s, step).db.campaigns && Apply(s, step).db.campaigns[step.k] == step.campaign
  {
    StepEffect(s, step);
    StepCampaigns(s, step);
    var s', m := Apply(s, step), MoveOf(s, step);
    forall k | k in s.db.campaigns
      ensures k in s'.db.campaigns && s'.db.campaigns[k] == s.db.campaigns[k].(status := s'.db.campaigns[k].status)
    {
      assert CampaignStep(s.db, s'.db, k, m.Some? && Promotes(s, step, m.value, k),
                          m.Some? && m.value.call in s.db.calls && Rolls(s.db, m.value, k));
    }
  }

  lemma KeepsAlways(s: State, step: Step)
    requires Always(s) && Enabled(s, step)
    ensures Always(Apply(s, step))
  {
    KeepsInv(s, step);
    KeepsCampaignInv(s, step);
    StepEffect(s, step);
    KeepsLog(s, Apply(s, step), step, MoveOf(s, step));
  }

  lemma KeepsCapInv(s: State, step: Step)
    requires Always(s) && H1Inv(s) && H2Inv(s) && Enabled(s, step) && H2(s, step) && CapInv(s) && |s.replicas| >= 1
    ensures CapInv(Apply(s, step))
  {
    var s', m := Apply(s, step), MoveOf(s, step);
    ConfigStays(s, step);
    StepEffect(s, step);
    StepCampaigns(s, step);
    forall k | k in s'.db.campaigns ensures CapOK(s', k) {
      if k in s.db.campaigns {
        KeepsCap(s, step, k);
      } else {
        NewCampaignCap(s, s', step, m);
      }
    }
  }

  lemma KeepsDrained(p: Premises, s: State, step: Step)
    requires Always(s) && GivenPremises(p, s) && Enabled(s, step) && Meets(p, s, step)
    ensures var s' := Apply(s, step);
            && (p.h1 || p.h2 ==> H1Inv(s'))
            && (p.h1 && p.serial ==> SerialInv(s'))
            && (p.h2 ==> H2Inv(s') && PinnedInv(s') && MeasureInv(s') && ExactInv(s'))
            && (p.h2 || (p.h1 && p.serial) ==> BudgetInv(s'))
  {
    var s', m := Apply(s, step), MoveOf(s, step);
    StepsOf(s, step);
    ConfigStays(s, step);
    if p.h1 || p.h2 {
      KeepsH1(s, s', step, m);
    }
    if p.h1 && p.serial {
      KeepsSerial(s, s', step, m);
      if m.Some? {
        SerialNotStale(s, s', step, m.value);
      }
    }
    if p.h2 {
      KeepsH2(s, s', step, m);
      KeepsPinnedInv(s, s', step, m);
      KeepsMeasure(s, s', step, m);
      KeepsExact(s, s', step, m);
      if m.Some? {
        H2NotStale(s, s', step, m.value);
      }
    }
    if p.h2 || (p.h1 && p.serial) {
      KeepsBudget(s, s', step, m);
    }
  }

  lemma KeepsUnique(p: Premises, s: State, step: Step)
    requires Always(s) && GivenPremises(p, s) && Enabled(s, step) && Meets(p, s, step)
    ensures p.h3 ==> Injective(Apply(s, step).issued)
    ensures p.phones ==> DistinctPhones(Apply(s, step).db.calls)
  {
    if p.h3 {
      KeepsInjective(s, step);
    }
    if p.phones {
      StepEffect(s, step);
      KeepsDistinctPhones(s, Apply(s, step), step, MoveOf(s, step));
    }
  }

  lemma KeepsGiven(p: Premises, s: State, step: Step)
    requires Always(s) && GivenPremises(p, s) && Enabled(s, step) && Meets(p, s, step)
    ensures GivenPremises(p, Apply(s, step))
  {
    KeepsDrained(p, s, step);
    KeepsUnique(p, s, step);
    if p.h2 && |s.replicas| >= 1 {
      KeepsCapInv(s, step);
    }
    if OneScheduler(p, s) {
      KeepsRetryReady(s, step);
    }
  }

  lemma InitHolds(p: Premises, s: State, n: nat)
    requires Init(s, n)
    ensures Always(s) && GivenPremises(p, s)
  {
    InitInv(s, n);
    InitCampaignInv(s, n);
  }

  /** Every run keeps every invariant. */
  lemma {:induction false} RunKeeps(p: Premises, s: State, steps: seq<Step>)
    requires Always(s) && GivenPremises(p, s) && IsRun(p, s, steps)
    ensures Always(Run(p, s, steps)) && GivenPremises(p, Run(p, s, steps))
    ensures |Run(p, s, steps).replicas| == |s.replicas|
    decreases |steps|
  {
    if steps != [] {
      KeepsAlways(s, steps[0]);
      KeepsGiven(p, s, steps[0]);
      RunKeeps(p, Apply(s, steps[0]), steps[1..]);
    }
  }

  /** Every reachable state satisfies every invariant. */
  lemma ReachableHolds(p: Premises, n: nat, s: State)
    requires Reachable(p, n, s)
    ensures Always(s) && GivenPremises(p, s) && |s.replicas| == n
  {
    var init, steps :| Init(init, n) && IsRun(p, init, steps) && Run(p, init, steps) == s;
    InitHolds(p, init, n);
    RunKeeps(p, init, steps);
  }
}

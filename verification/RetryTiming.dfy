/** How long a call waits before its k-th retry, in a run without reclaims. */
module RetryTiming {
  import opened Types
  import opened AuditLog
  import opened Backoff
  import opened Tables
  import opened Protocol
  import opened Shape
  import opened CallInvariant
  import opened CampaignInvariant
  import opened DrainInvariant
  import opened ExactDials
  import opened Reach

  /** The time a retry move writes, in terms of what its actor read. */
  ghost predicate Timed(s: State, step: Step, m: Move) {
    match step
    case Settle(i, wait, _) =>
      && At(s, i) && s.replicas[i].Placed? && IsBackoff(wait, s.replicas[i].claim.epoch, s.replicas[i].view.base)
      && (m.row.status.RetryPending? ==> m.row.nextAttempt == Some(s.now + wait))
    case Finish(p, wait) =>
      && p in s.lookups && s.lookups[p].target.Some? && s.lookups[p].target.value.row.campaign in s.db.campaigns
      && var t := s.lookups[p].target.value;
      && IsBackoff(wait, t.row.epoch, s.db.campaigns[t.row.campaign].base)
      && (m.row.status.RetryPending? ==> m.row.nextAttempt == Some(s.now + wait))
    case _ => true
  }

  lemma SettleTimed(s: State, step: Step)
    requires Enabled(s, step) && step.Settle? && SettleOutcome(s, step.i, step.wait).Applied?
    ensures Timed(s, step, SettleOutcome(s, step.i, step.wait).move)
  {
  }

  lemma FinishTimed(s: State, step: Step)
    requires Enabled(s, step) && step.Finish? && ProviderStatus(EventOf(s, step).status)
    requires FinishResponse(s, step.p, step.wait).Attempted? && FinishResponse(s, step.p, step.wait).outcome.Applied?
    ensures Timed(s, step, FinishResponse(s, step.p, step.wait).outcome.move)
  {
  }

  lemma StepTimed(s: State, step: Step)
    requires Enabled(s, step) && H1Inv(s) && MoveOf(s, step).Some?
    ensures Timed(s, step, MoveOf(s, step).value)
  {
    if step.Settle? {
      SettleTimed(s, step);
    } else if step.Finish? {
      FinishTimed(s, step);
    }
  }

  lemma MoveIntoRetry(s: State, step: Step, m: Move)
    requires Moves(s.db, m) && Origin(s, step, m) && m.row.status.RetryPending?
    ensures m.event.CallTransition? && (step.Settle? || step.Finish?)
  {
  }

  lemma SettledBase(s: State, step: Step, m: Move)
    requires ClaimsOK(s) && ViewsOK(s) && Moves(s.db, m) && Origin(s, step, m) && step.Settle?
    ensures m.row.campaign in s.db.campaigns && s.db.campaigns[m.row.campaign].base == s.replicas[step.i].view.base
  {
    var r := s.replicas[step.i];
    assert HeldOK(s, r);
    assert r.view in ViewsOf(r);
    assert ViewOK(s.db, r.view);
  }

  lemma LookedUpCampaign(s: State, step: Step, m: Move)
    requires LookupsOK(s) && Moves(s.db, m) && Origin(s, step, m) && step.Finish?
    ensures s.lookups[step.p].target.value.row.campaign == m.row.campaign
  {
    assert LookupOK(s, step.p);
  }

  /** A retry waits a backoff of the row's own epoch and campaign, whichever actor scheduled it. */
  lemma RetryTime(s: State, step: Step, m: Move)
    requires Inv(s) && ViewsOK(s) && Moves(s.db, m) && Origin(s, step, m) && Timed(s, step, m) && m.row.status.RetryPending?
    ensures m.row.campaign in s.db.campaigns && m.row.nextAttempt.Some?
    ensures IsBackoff(m.row.nextAttempt.value - s.now, s.db.calls[m.call].epoch, s.db.campaigns[m.row.campaign].base)
  {
    MoveIntoRetry(s, step, m);
    if step.Settle? {
      SettledBase(s, step, m);
      assert m.row.nextAttempt.value - s.now == step.wait;
    } else {
      LookedUpCampaign(s, step, m);
      assert m.row.nextAttempt.value - s.now == step.wait;
    }
  }

  /** H2, no reclaim so far: the retry after k earlier ones happens at epoch k + 1. */
  lemma EpochOfRetry(s: State, s': State, step: Step, m: Move)
    requires Inv(s) && H1Inv(s) && H2Inv(s) && ExactInv(s) && Steps(s, s', step, Some(m)) && H2(s, step)
    requires m.row.status.RetryPending? && Rows(HistoryOf(s, m.call), ReclaimExecuted) == 0
    ensures s.db.calls[m.call].epoch == 1 + RetryMoves(HistoryOf(s, m.call))
  {
    MoveIntoRetry(s, step, m);
    TransitionsAreInFlight(s, s', step, m);
    assert CallOK(s, m.call) && DialsExact(HistoryOf(s, m.call), s.db.calls[m.call].status);
    EpochCountsDials(HistoryOf(s, m.call));
  }

  lemma BandOfEpoch(wait: real, epoch: int, base: real, k: nat)
    requires IsBackoff(wait, epoch, base) && epoch == 1 + k
    ensures InBand(wait, base, k)
  {
  }

  /** H2, no reclaim so far: the retry after k earlier ones waits base * 2^k, give or take a fifth. */
  lemma KthWaitInBand(s: State, s': State, step: Step, m: Move)
    requires Inv(s) && ViewsOK(s) && H1Inv(s) && H2Inv(s) && ExactInv(s) && Steps(s, s', step, Some(m)) && H2(s, step)
    requires Timed(s, step, m) && m.row.status.RetryPending? && Rows(HistoryOf(s, m.call), ReclaimExecuted) == 0
    ensures m.row.campaign in s.db.campaigns && m.row.nextAttempt.Some?
    ensures InBand(m.row.nextAttempt.value - s.now, s.db.campaigns[m.row.campaign].base, RetryMoves(HistoryOf(s, m.call)))
  {
    RetryTime(s, step, m);
    EpochOfRetry(s, s', step, m);
    BandOfEpoch(m.row.nextAttempt.value - s.now, s.db.calls[m.call].epoch, s.db.campaigns[m.row.campaign].base,
                RetryMoves(HistoryOf(s, m.call)));
  }

  /** H2, on reachable states: in a run without reclaims the k-th retry of a call uses exponent k - 1. */
  lemma KthRetryExponent(p: Premises, n: nat, s: State, step: Step, m: Move)
    requires Reachable(p, n, s) && p.h2 && Enabled(s, step) && Meets(p, s, step)
    requires MoveOf(s, step) == Some(m) && m.row.status.RetryPending? && Rows(HistoryOf(s, m.call), ReclaimExecuted) == 0
    ensures m.row.campaign in s.db.campaigns && m.row.nextAttempt.Some?
    ensures InBand(m.row.nextAttempt.value - s.now, s.db.campaigns[m.row.campaign].base, RetryMoves(HistoryOf(s, m.call)))
  {
    ReachableHolds(p, n, s);
    StepsOf(s, step);
    StepTimed(s, step);
    KthWaitInBand(s, Apply(s, step), step, m);
  }

  /** The wait that move `m` schedules for call `c`, if it is a retry of `c`. */
  function WaitOf(m: Option<Move>, c: CallId, now: Time): seq<real> {
    if m.Some? && m.value.call == c && m.value.row.status.RetryPending? && m.value.row.nextAttempt.Some? then
      [m.value.row.nextAttempt.value - now]
    else []
  }

  /** The waits a run schedules for call `c`, in order. */
  ghost function Waits(p: Premises, s: State, steps: seq<Step>, c: CallId): seq<real>
    requires IsRun(p, s, steps)
    decreases |steps|
  {
    if steps == [] then []
    else WaitOf(MoveOf(s, steps[0]), c, s.now) + Waits(p, Apply(s, steps[0]), steps[1..], c)
  }

  /** The waits lie in the bands k, k + 1, and so on. */
  predicate ClimbsFrom(waits: seq<real>, base: real, k: nat) {
    waits == [] || (InBand(waits[0], base, k) && ClimbsFrom(waits[1..], base, k + 1))
  }

  /** What a step adds to the reclaims, retries and waits of call `c`, when retries carry a time. */
  lemma RowsGrow(s: State, s': State, step: Step, m: Option<Move>, c: CallId)
    requires H1Inv(s) && Steps(s, s', step, m)
    ensures Rows(HistoryOf(s', c), ReclaimExecuted) >= Rows(HistoryOf(s, c), ReclaimExecuted)
    ensures RetryMoves(HistoryOf(s', c)) == RetryMoves(HistoryOf(s, c)) + |WaitOf(m, c, s.now)|
  {
    assert HistoryOf(s', c) == HistoryOf(s, c) + RowsThen(s.db, m, c);
    if m.Some? && m.value.call == c {
      CountsAppend(HistoryOf(s, c), ChangeRow(s.db, m.value));
      H1Move(s, s', step, m.value);
      if m.value.row.status.RetryPending? {
        MoveIntoRetry(s, step, m.value);
      }
    } else {
      assert HistoryOf(s', c) == HistoryOf(s, c);
    }
  }

  /** What the induction over runs carries along. */
  ghost predicate Good(s: State) {
    Always(s) && H1Inv(s) && H2Inv(s) && ExactInv(s)
  }

  lemma GoodNext(p: Premises, s: State, step: Step)
    requires Always(s) && GivenPremises(p, s) && p.h2 && Enabled(s, step) && Meets(p, s, step)
    ensures Good(s) && H2(s, step) && Steps(s, Apply(s, step), step, MoveOf(s, step)) && SameConfig(s, Apply(s, step))
    ensures MoveOf(s, step).Some? ==> Timed(s, step, MoveOf(s, step).value)
    ensures Always(Apply(s, step)) && GivenPremises(p, Apply(s, step))
  {
    StepsOf(s, step);
    ConfigStays(s, step);
    if MoveOf(s, step).Some? {
      StepTimed(s, step);
    }
    KeepsAlways(s, step);
    KeepsGiven(p, s, step);
  }

  /** Call `c`, if it exists yet, backs off with `base`. */
  ghost predicate HasBase(s: State, c: CallId, base: real) {
    c in s.db.calls ==> s.db.calls[c].campaign in s.db.campaigns && s.db.campaigns[s.db.calls[c].campaign].base == base
  }

  lemma BaseStays(s: State, s': State, step: Step, m: Option<Move>, c: CallId, base: real)
    requires Good(s) && Steps(s, s', step, m) && SameConfig(s, s') && HasBase(s', c, base)
    ensures HasBase(s, c, base)
  {
    if c in s.db.calls {
      CallsEvolve(s, s', step, m, c);
      assert CallOK(s, c);
    }
  }

  lemma FirstWait(s: State, s': State, step: Step, m: Option<Move>, c: CallId, base: real)
    requires Good(s) && Steps(s, s', step, m) && H2(s, step) && (m.Some? ==> Timed(s, step, m.value))
    requires HasBase(s, c, base) && Rows(HistoryOf(s, c), ReclaimExecuted) == 0
    ensures WaitOf(m, c, s.now) != [] ==>
              InBand(m.value.row.nextAttempt.value - s.now, base, RetryMoves(HistoryOf(s, c)))
  {
    if WaitOf(m, c, s.now) != [] {
      WaitInBand(s, s', step, m.value, base);
    }
  }

  lemma WaitInBand(s: State, s': State, step: Step, m: Move, base: real)
    requires Good(s) && Steps(s, s', step, Some(m)) && H2(s, step) && Timed(s, step, m) && m.row.status.RetryPending?
    requires HasBase(s, m.call, base) && Rows(HistoryOf(s, m.call), ReclaimExecuted) == 0
    ensures m.row.nextAttempt.Some?
    ensures InBand(m.row.nextAttempt.value - s.now, base, RetryMoves(HistoryOf(s, m.call)))
  {
    KthWaitInBand(s, s', step, m);
  }

  lemma PrependWait(m: Option<Move>, c: CallId, now: Time, rest: seq<real>, base: real, k: nat, next: nat)
    requires WaitOf(m, c, now) != [] ==> InBand(m.value.row.nextAttempt.value - now, base, k)
    requires next == k + |WaitOf(m, c, now)| && ClimbsFrom(rest, base, next)
    ensures ClimbsFrom(WaitOf(m, c, now) + rest, base, k)
  {
    var first := WaitOf(m, c, now);
    if first == [] {
      assert first + rest == rest;
    } else {
      assert (first + rest)[1..] == rest;
    }
  }

  lemma {:induction false} WaitsClimbFrom(p: Premises, s: State, steps: seq<Step>, c: CallId, base: real)
    requires Always(s) && GivenPremises(p, s) && p.h2 && IsRun(p, s, steps)
    requires HasBase(Run(p, s, steps), c, base) && Rows(HistoryOf(Run(p, s, steps), c), ReclaimExecuted) == 0
    ensures HasBase(s, c, base) && Rows(HistoryOf(s, c), ReclaimExecuted) == 0
    ensures ClimbsFrom(Waits(p, s, steps, c), base, RetryMoves(HistoryOf(s, c)))
    ensures RetryMoves(HistoryOf(Run(p, s, steps), c)) == RetryMoves(HistoryOf(s, c)) + |Waits(p, s, steps, c)|
    decreases |steps|
  {
    if steps != [] {
      var step, s', m := steps[0], Apply(s, steps[0]), MoveOf(s, steps[0]);
      GoodNext(p, s, step);
      WaitsClimbFrom(p, s', steps[1..], c, base);
      BeforeStep(s, s', step, m, c, base);
      FirstWait(s, s', step, m, c, base);
      PrependWait(m, c, s.now, Waits(p, s', steps[1..], c), base, RetryMoves(HistoryOf(s, c)), RetryMoves(HistoryOf(s', c)));
    }
  }

  lemma BeforeStep(s: State, s': State, step: Step, m: Option<Move>, c: CallId, base: real)
    requires Good(s) && Steps(s, s', step, m) && SameConfig(s, s')
    requires HasBase(s', c, base) && Rows(HistoryOf(s', c), ReclaimExecuted) == 0
    ensures HasBase(s, c, base) && Rows(HistoryOf(s, c), ReclaimExecuted) == 0
    ensures RetryMoves(HistoryOf(s', c)) == RetryMoves(HistoryOf(s, c)) + |WaitOf(m, c, s.now)|
  {
    RowsGrow(s, s', step, m, c);
    BaseStays(s, s', step, m, c, base);
  }

  lemma ClimbFromStart(p: Premises, n: nat, init: State, steps: seq<Step>, c: CallId, base: real)
    requires Init(init, n) && p.h2 && IsRun(p, init, steps)
    requires HasBase(Run(p, init, steps), c, base)
    requires Rows(HistoryOf(Run(p, init, steps), c), ReclaimExecuted) == 0
    ensures ClimbsFrom(Waits(p, init, steps, c), base, 0)
    ensures RetryMoves(HistoryOf(Run(p, init, steps), c)) == |Waits(p, init, steps, c)|
  {
    InitHolds(p, init, n);
    assert HistoryOf(init, c) == [];
    WaitsClimbFrom(p, init, steps, c, base);
  }

  /**
   H2: over a whole run in which call `c` is never reclaimed, its k-th wait has exponent k - 1, and its R
   retries wait base * 2^R - base in total, give or take a fifth.
   */
  lemma RetriesWaitInTotal(p: Premises, n: nat, init: State, steps: seq<Step>, c: CallId, base: real)
    requires Init(init, n) && p.h2 && IsRun(p, init, steps)
    requires HasBase(Run(p, init, steps), c, base)
    requires Rows(HistoryOf(Run(p, init, steps), c), ReclaimExecuted) == 0
    ensures var waits := Waits(p, init, steps, c);
            && |waits| == RetryMoves(HistoryOf(Run(p, init, steps), c)) && Climbs(waits, base)
            && 0.8 * (Doubled(base, |waits|) - base) <= Total(waits) <= 1.2 * (Doubled(base, |waits|) - base)
  {
    ClimbFromStart(p, n, init, steps, c, base);
    FromTheStart(Waits(p, init, steps, c), base);
  }

  lemma {:induction false} ClimbAt(waits: seq<real>, base: real, k: nat, i: nat)
    requires ClimbsFrom(waits, base, k) && i < |waits|
    ensures InBand(waits[i], base, k + i)
    decreases i
  {
    if i > 0 {
      ClimbAt(waits[1..], base, k + 1, i - 1);
    }
  }

  lemma FromTheStart(waits: seq<real>, base: real)
    requires ClimbsFrom(waits, base, 0)
    ensures Climbs(waits, base)
    ensures 0.8 * (Doubled(base, |waits|) - base) <= Total(waits) <= 1.2 * (Doubled(base, |waits|) - base)
  {
    forall k | 0 <= k < |waits| ensures InBand(waits[k], base, k) {
      ClimbAt(waits, base, 0, k);
    }
    TotalDoubled(waits, base);
  }
}

/**
 The retry budget over whole runs, with provider statuses as the only premise: by how much it can be
 overdrawn, and exactly when it is not.
 */
module Budget {
  import opened Types
  import opened AuditLog
  import opened Tables
  import opened Protocol
  import opened Shape
  import opened CallInvariant
  import opened DrainInvariant
  import opened Reach

  /** What this step gives away of the budget of call `c`. */
  ghost function Given(s: State, step: Step, c: CallId): int
    requires Enabled(s, step)
  {
    if MoveOf(s, step).Some? && MoveOf(s, step).value.call == c then Excess(s, step) else 0
  }

  ghost function TotalGiven(p: Premises, s: State, steps: seq<Step>, c: CallId): int
    requires IsRun(p, s, steps)
    decreases |steps|
  {
    if steps == [] then 0 else Given(s, steps[0], c) + TotalGiven(p, Apply(s, steps[0]), steps[1..], c)
  }

  ghost predicate Accounted(s: State, c: CallId) {
    c in s.db.calls && s.db.calls[c].campaign in s.db.campaigns
  }

  lemma CallsAreAccounted(s: State, c: CallId)
    requires Inv(s) && c in s.db.calls
    ensures Accounted(s, c)
  {
    assert CallOK(s, c);
  }

  /** The drift of a call, 0 before it exists. */
  ghost function DriftOf(s: State, c: CallId): int {
    if Accounted(s, c) then Drift(s, c) else 0
  }

  lemma UnmovedDrift(s: State, s': State, step: Step, m: Option<Move>, c: CallId)
    requires Inv(s) && Effect(s, s', step, m) && SameConfig(s, s') && !(m.Some? && m.value.call == c)
    requires step.Create? ==> step.k in s'.db.campaigns && s'.db.campaigns[step.k] == step.campaign
    ensures DriftOf(s', c) == DriftOf(s, c)
  {
    assert HistoryOf(s', c) == HistoryOf(s, c) + RowsThen(s.db, m, c);
    assert HistoryOf(s', c) == HistoryOf(s, c);
    if c in s.db.calls {
      CallsAreAccounted(s, c);
    }
  }

  lemma DriftStep(s: State, step: Step, c: CallId)
    requires Always(s) && H1Inv(s) && Enabled(s, step)
    ensures DriftOf(Apply(s, step), c) == DriftOf(s, c) + Given(s, step, c)
  {
    var s', m := Apply(s, step), MoveOf(s, step);
    StepsOf(s, step);
    ConfigStays(s, step);
    if m.Some? && m.value.call == c {
      BudgetStep(s, s', step, m.value);
    } else {
      UnmovedDrift(s, s', step, m, c);
    }
  }

  lemma {:induction false} DriftOverRun(p: Premises, s: State, steps: seq<Step>, c: CallId)
    requires p.h1 && Always(s) && GivenPremises(p, s) && IsRun(p, s, steps)
    ensures DriftOf(Run(p, s, steps), c) == DriftOf(s, c) + TotalGiven(p, s, steps, c)
    decreases |steps|
  {
    if steps != [] {
      DriftStep(s, steps[0], c);
      KeepsAlways(s, steps[0]);
      KeepsGiven(p, s, steps[0]);
      DriftOverRun(p, Apply(s, steps[0]), steps[1..], c);
    }
  }

  /**
   H1: at the end of any run, retries left + moves into RETRY_PENDING = initial retries + what the NO_ANSWER
   and BUSY transactions gave away that retried on a count they had read before it changed.
   */
  lemma BudgetAccount(p: Premises, n: nat, init: State, steps: seq<Step>, c: CallId)
    requires Init(init, n) && p.h1 && IsRun(p, init, steps) && c in Run(p, init, steps).db.calls
    ensures var s := Run(p, init, steps);
            && s.db.calls[c].campaign in s.db.campaigns
            && s.db.calls[c].retries + RetryMoves(HistoryOf(s, c))
               == s.db.campaigns[s.db.calls[c].campaign].maxAttempts + TotalGiven(p, init, steps, c)
  {
    InitHolds(p, init, n);
    RunKeeps(p, init, steps);
    DriftOverRun(p, init, steps, c);
    CallsAreAccounted(Run(p, init, steps), c);
  }

  /** The budget equation of call `c` holds in every state of the run. */
  ghost predicate BudgetThroughout(p: Premises, s: State, steps: seq<Step>, c: CallId)
    requires IsRun(p, s, steps)
    decreases |steps|
  {
    && (c in s.db.calls ==> BudgetOK(s, c))
    && (steps != [] ==> BudgetThroughout(p, Apply(s, steps[0]), steps[1..], c))
  }

  /** The step moves call `c` by a retry on a stale count. */
  ghost predicate GoesStale(s: State, step: Step, c: CallId)
    requires Enabled(s, step)
  {
    MoveOf(s, step).Some? && MoveOf(s, step).value.call == c && StaleRetry(s, step)
  }

  /** No applied transaction of the run retried call `c` on a stale count. */
  ghost predicate NeverStale(p: Premises, s: State, steps: seq<Step>, c: CallId)
    requires IsRun(p, s, steps)
    decreases |steps|
  {
    steps != [] ==> !GoesStale(s, steps[0], c) && NeverStale(p, Apply(s, steps[0]), steps[1..], c)
  }

  lemma ZeroIsOK(s: State, c: CallId)
    requires Inv(s) && c in s.db.calls
    ensures BudgetOK(s, c) <==> DriftOf(s, c) == 0
  {
    CallsAreAccounted(s, c);
  }

  /** A stale retry takes the drift away from 0, and nothing else does. */
  lemma StaleStep(s: State, step: Step, c: CallId)
    requires Always(s) && H1Inv(s) && Enabled(s, step) && DriftOf(s, c) == 0
    ensures DriftOf(Apply(s, step), c) == 0 <==> !GoesStale(s, step, c)
  {
    DriftStep(s, step, c);
    StepEffect(s, step);
  }

  lemma ThroughoutFromNext(p: Premises, s: State, steps: seq<Step>, c: CallId)
    requires Inv(s) && IsRun(p, s, steps) && steps != [] && DriftOf(s, c) == 0
    ensures BudgetThroughout(p, s, steps, c) <==> BudgetThroughout(p, Apply(s, steps[0]), steps[1..], c)
  {
    if c in s.db.calls {
      ZeroIsOK(s, c);
    }
  }

  lemma DriftIsNotOK(p: Premises, s: State, steps: seq<Step>, c: CallId)
    requires Inv(s) && IsRun(p, s, steps) && DriftOf(s, c) != 0
    ensures !BudgetThroughout(p, s, steps, c)
  {
    ZeroIsOK(s, c);
  }

  lemma {:induction false} StaleBreaks(p: Premises, s: State, steps: seq<Step>, c: CallId)
    requires p.h1 && Always(s) && GivenPremises(p, s) && IsRun(p, s, steps) && DriftOf(s, c) == 0
    ensures BudgetThroughout(p, s, steps, c) <==> NeverStale(p, s, steps, c)
    decreases |steps|
  {
    if steps == [] {
      if c in s.db.calls {
        ZeroIsOK(s, c);
      }
    } else {
      StaleStep(s, steps[0], c);
      KeepsAlways(s, steps[0]);
      ThroughoutFromNext(p, s, steps, c);
      if GoesStale(s, steps[0], c) {
        DriftIsNotOK(p, Apply(s, steps[0]), steps[1..], c);
      } else {
        KeepsGiven(p, s, steps[0]);
        StaleBreaks(p, Apply(s, steps[0]), steps[1..], c);
      }
    }
  }

  /**
   H1: a call's budget is conserved in every state of a run if and only if no NO_ANSWER or BUSY transaction of
   the run retried the call on a positive count that differed from the stored one.
   */
  lemma BudgetConservedExactlyWhen(p: Premises, n: nat, init: State, steps: seq<Step>, c: CallId)
    requires Init(init, n) && p.h1 && IsRun(p, init, steps)
    ensures BudgetThroughout(p, init, steps, c) <==> NeverStale(p, init, steps, c)
  {
    InitHolds(p, init, n);
    StaleBreaks(p, init, steps, c);
  }
}

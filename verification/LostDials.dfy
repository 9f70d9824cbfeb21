/**
 What a reclaim abandons when it requeues a call: exactly when the provider had accepted a dial of the attempt.
 The stored handle does not tell, because the answer to a dial can be with a tick, gone with one that crashed, or
 lost on its way.
 */
module LostDials {
  import opened Types
  import opened Tables
  import opened Protocol
  import opened Shape
  import opened CallInvariant

  type Key = (CallId, int)   // one attempt of a call, and its idempotency key

  // ---- what is stuck ---------------------------------------------------------------------------

  /** Every row in a reclaim task's hands had been DIALING, unwritten, for longer than the grace window. */
  ghost predicate StuckInv(s: State) {
    forall r :: r in s.reclaims ==>
      var row := s.reclaims[r].target.row; row.status == Dialing && row.updatedAt < s.now - s.stuckAfter
  }

  lemma KeepsStuck(s: State, step: Step)
    requires StuckInv(s) && Enabled(s, step)
    ensures StuckInv(Apply(s, step))
  {
  }

  lemma {:induction false} RunKeepsStuck(p: Premises, s: State, steps: seq<Step>)
    requires StuckInv(s) && IsRun(p, s, steps)
    ensures StuckInv(Run(p, s, steps))
    decreases |steps|
  {
    if steps != [] {
      KeepsStuck(s, steps[0]);
      RunKeepsStuck(p, Apply(s, steps[0]), steps[1..]);
    }
  }

  /**
   A reclaim moves a call only if the sweep saw it DIALING and last written longer ago than the grace window, on
   the attempt that the call is on still.
   */
  lemma ReclaimedWasStuck(p: Premises, n: nat, s: State, r: nat)
    requires Reachable(p, n, s) && Enabled(s, Reclaim(r)) && MoveOf(s, Reclaim(r)).Some?
    ensures var t := s.reclaims[r].target;
            && t.row.status == Dialing && t.row.updatedAt < s.now - s.stuckAfter
            && t.call in s.db.calls && s.db.calls[t.call].status == Dialing && s.db.calls[t.call].epoch == t.row.epoch
  {
    var init, steps :| Init(init, n) && IsRun(p, init, steps) && Run(p, init, steps) == s;
    RunKeepsStuck(p, init, steps);
    ReclaimMoves(s, r);
  }

  // ---- the answer to a dial --------------------------------------------------------------------

  /** The replica is between the dial of `key` and its phase 3; `any` also counts a dial that raised. */
  predicate HoldsDial(r: Replica, key: Key, any: bool) {
    r.Placed? && (r.claim.call, r.claim.epoch) == key && (any || r.result.Accepted?)
  }

  ghost predicate HeldAt(s: State, key: Key, any: bool) {
    exists i :: 0 <= i < |s.replicas| && HoldsDial(s.replicas[i], key, any)
  }

  /** The tick crashes between the dial of `key` and its phase 3. */
  predicate CrashHolding(s: State, step: Step, key: Key, any: bool) {
    step.Crash? && At(s, step.i) && HoldsDial(s.replicas[step.i], key, any)
  }

  /** The dial of `key` reaches the provider, and the tick is told that it failed. */
  predicate LosesReply(s: State, step: Step, key: Key) {
    && step.Place? && At(s, step.i) && Held(s.replicas[step.i]).Some?
    && (s.replicas[step.i].claim.call, s.replicas[step.i].claim.epoch) == key
    && step.minted.Some? && !step.result.Accepted?
  }

  ghost predicate CrashedHolding(p: Premises, s: State, steps: seq<Step>, key: Key, any: bool)
    requires IsRun(p, s, steps)
    decreases |steps|
  {
    steps != [] && (CrashHolding(s, steps[0], key, any) || CrashedHolding(p, Apply(s, steps[0]), steps[1..], key, any))
  }

  ghost predicate ReplyLost(p: Premises, s: State, steps: seq<Step>, key: Key)
    requires IsRun(p, s, steps)
    decreases |steps|
  {
    steps != [] && (LosesReply(s, steps[0], key) || ReplyLost(p, Apply(s, steps[0]), steps[1..], key))
  }

  // ---- what a step does to the provider's table --------------------------------------------------

  /** Keys are issued for attempts that were begun. */
  ghost predicate IssuedInv(s: State) {
    forall key :: key in s.issued ==> key.0 in s.db.calls && key.1 <= s.db.calls[key.0].epoch
  }

  /** A new key is that of the claim which is being dialled. */
  lemma NewKey(s: State, step: Step, key: Key)
    requires Enabled(s, step) && key in Apply(s, step).issued && key !in s.issued
    ensures step.Place? && At(s, step.i) && s.replicas[step.i].HasClaim?
    ensures (s.replicas[step.i].claim.call, s.replicas[step.i].claim.epoch) == key
    ensures HoldsDial(Apply(s, step).replicas[step.i], key, step.result.Accepted?) || LosesReply(s, step, key)
    ensures HoldsDial(Apply(s, step).replicas[step.i], key, true)
  {
  }

  lemma KeepsIssued(s: State, step: Step)
    requires Inv(s) && IssuedInv(s) && Enabled(s, step)
    ensures IssuedInv(Apply(s, step))
  {
    StepEffect(s, step);
    var s' := Apply(s, step);
    forall key | key in s'.issued ensures key.0 in s'.db.calls && key.1 <= s'.db.calls[key.0].epoch {
      if key !in s.issued {
        NewKey(s, step, key);
        assert HeldOK(s, s.replicas[step.i]);
      }
      CallsEvolve(s, s', step, MoveOf(s, step), key.0);
    }
  }

  /** A held dial leaves a replica's hands by a crash or by phase 3. */
  lemma HoldEnds(s: State, step: Step, key: Key, any: bool, i: nat)
    requires Enabled(s, step) && At(s, i) && HoldsDial(s.replicas[i], key, any)
    requires !HoldsDial(Apply(s, step).replicas[i], key, any)
    ensures CrashHolding(s, step, key, any) || (step.Settle? && step.i == i)
  {
  }

  // ---- a dial nobody knows of --------------------------------------------------------------------

  /** The call is being dialled on attempt `key`, without a handle. */
  predicate Unrecorded(calls: map<CallId, Call>, key: Key) {
    key.0 in calls && calls[key.0].status.Dialing? && calls[key.0].epoch == key.1 && calls[key.0].handle.None?
  }

  /** The provider has accepted the attempt, the row does not show it, and no tick is about to record it. */
  ghost predicate Adrift(s: State, key: Key, any: bool) {
    key in s.issued && Unrecorded(s.db.calls, key) && !HeldAt(s, key, any)
  }

  /** No move leaves an attempt as it was and without a handle. */
  lemma MovesRecord(s: State, s': State, step: Step, m: Move, key: Key)
    requires Inv(s) && Effect(s, s', step, Some(m)) && m.call == key.0 && s.db.calls[m.call].epoch == key.1
    ensures !Unrecorded(s'.db.calls, key)
  {
    if step.Finish? {
      assert LookupOK(s, step.p);
    }
  }

  lemma AnswerHits(db: Db, claim: Claim, result: DialResult, wait: Time, now: Time)
    requires claim.call in db.calls && db.calls[claim.call].status.Dialing? && db.calls[claim.call].epoch == claim.epoch
    ensures var o := DispatchOutcome(db, claim, result, wait, now); o.Applied? && o.move.call == claim.call
  {
  }

  /** Phase 3 always has its move while the row is on the attempt that was dialled. */
  lemma SettleMovesOwn(s: State, step: Step, key: Key)
    requires Enabled(s, step) && step.Settle? && HoldsDial(s.replicas[step.i], key, true) && Unrecorded(s.db.calls, key)
    ensures MoveOf(s, step).Some? && MoveOf(s, step).value.call == key.0
  {
    AnswerHits(s.db, s.replicas[step.i].claim, s.replicas[step.i].result, step.wait, s.now);
  }

  predicate Writes(m: Option<Move>, c: CallId) {
    m.Some? && m.value.call == c
  }

  lemma SameRowThen(s: State, s': State, step: Step, m: Option<Move>, key: Key)
    requires Inv(s) && IssuedInv(s) && Effect(s, s', step, m) && key in s.issued && Unrecorded(s'.db.calls, key)
    ensures Unrecorded(s.db.calls, key) && !Writes(m, key.0)
  {
    CallsEvolve(s, s', step, m, key.0);
    if Writes(m, key.0) {
      MovesRecord(s, s', step, m.value, key);
    }
  }

  lemma HeldOrLost(s: State, step: Step, key: Key, any: bool)
    requires Enabled(s, step) && HeldAt(s, key, any) && !HeldAt(Apply(s, step), key, any)
    requires Unrecorded(s.db.calls, key) && !Writes(MoveOf(s, step), key.0)
    ensures CrashHolding(s, step, key, any)
  {
    var i :| 0 <= i < |s.replicas| && HoldsDial(s.replicas[i], key, any);
    HoldEnds(s, step, key, any, i);
    if !CrashHolding(s, step, key, any) {
      SettleMovesOwn(s, step, key);
    }
  }

  lemma DriftsOnce(s: State, step: Step, key: Key, any: bool)
    requires Inv(s) && IssuedInv(s) && Enabled(s, step) && Adrift(Apply(s, step), key, any)
    ensures Adrift(s, key, any) || CrashHolding(s, step, key, any) || (!any && LosesReply(s, step, key))
  {
    if key !in s.issued {
      NewKey(s, step, key);
    } else {
      StepEffect(s, step);
      SameRowThen(s, Apply(s, step), step, MoveOf(s, step), key);
      if HeldAt(s, key, any) {
        HeldOrLost(s, step, key, any);
      }
    }
  }

  // ---- runs --------------------------------------------------------------------------------------

  lemma {:induction false} AdriftByRun(p: Premises, s: State, steps: seq<Step>, key: Key, any: bool)
    requires Inv(s) && IssuedInv(s) && IsRun(p, s, steps) && Adrift(Run(p, s, steps), key, any)
    ensures || Adrift(s, key, any) || CrashedHolding(p, s, steps, key, any) || (!any && ReplyLost(p, s, steps, key))
    decreases |steps|
  {
    if steps != [] {
      KeepsInv(s, steps[0]);
      KeepsIssued(s, steps[0]);
      AdriftByRun(p, Apply(s, steps[0]), steps[1..], key, any);
      if Adrift(Apply(s, steps[0]), key, any) {
        DriftsOnce(s, steps[0], key, any);
      }
    }
  }

  lemma {:induction false} IssuedStays(p: Premises, s: State, steps: seq<Step>, key: Key)
    requires IsRun(p, s, steps) && key in s.issued
    ensures key in Run(p, s, steps).issued
    decreases |steps|
  {
    if steps != [] {
      HandlesStay(s, steps[0]);
      IssuedStays(p, Apply(s, steps[0]), steps[1..], key);
    }
  }

  lemma LostWasIssued(s: State, step: Step, key: Key)
    requires Inv(s) && Enabled(s, step) && (CrashHolding(s, step, key, false) || LosesReply(s, step, key))
    ensures key in Apply(s, step).issued
  {
    if step.Crash? {
      assert HeldOK(s, s.replicas[step.i]);
    }
  }

  lemma {:induction false} LostInRun(p: Premises, s: State, steps: seq<Step>, key: Key)
    requires Inv(s) && IsRun(p, s, steps)
    requires CrashedHolding(p, s, steps, key, false) || ReplyLost(p, s, steps, key)
    ensures key in Run(p, s, steps).issued
    decreases |steps|
  {
    if CrashHolding(s, steps[0], key, false) || LosesReply(s, steps[0], key) {
      LostWasIssued(s, steps[0], key);
      IssuedStays(p, Apply(s, steps[0]), steps[1..], key);
    } else {
      KeepsInv(s, steps[0]);
      LostInRun(p, Apply(s, steps[0]), steps[1..], key);
    }
  }

  lemma HeldIsIssued(s: State, key: Key)
    requires Inv(s) && HeldAt(s, key, false)
    ensures key in s.issued
  {
    var i :| 0 <= i < |s.replicas| && HoldsDial(s.replicas[i], key, false);
    assert HeldOK(s, s.replicas[i]);
  }

  /** Exactly when an attempt that the row shows as being dialled has been accepted by the provider. */
  lemma DialledExactlyWhen(p: Premises, n: nat, init: State, steps: seq<Step>, key: Key)
    requires Init(init, n) && IsRun(p, init, steps)
    requires var calls := Run(p, init, steps).db.calls;
             key.0 in calls && calls[key.0].status.Dialing? && calls[key.0].epoch == key.1
    ensures var s := Run(p, init, steps);
            key in s.issued
            <==> || s.db.calls[key.0].handle.Some? || HeldAt(s, key, false)
                 || CrashedHolding(p, init, steps, key, false) || ReplyLost(p, init, steps, key)
    ensures var s := Run(p, init, steps);
            key in s.issued
            ==> s.db.calls[key.0].handle.Some? || HeldAt(s, key, true) || CrashedHolding(p, init, steps, key, true)
  {
    var s := Run(p, init, steps);
    InitInv(init, n);
    RunKeepsInv(p, init, steps);
    if key in s.issued && s.db.calls[key.0].handle.None? {
      if !HeldAt(s, key, false) {
        AdriftByRun(p, init, steps, key, false);
      }
      if !HeldAt(s, key, true) {
        AdriftByRun(p, init, steps, key, true);
      }
    }
    assert CallOK(s, key.0);
    if HeldAt(s, key, false) {
      HeldIsIssued(s, key);
    }
    if CrashedHolding(p, init, steps, key, false) || ReplyLost(p, init, steps, key) {
      LostInRun(p, init, steps, key);
    }
  }

  lemma ExecutedBranch(s: State, r: nat)
    requires Enabled(s, Reclaim(r)) && ReclaimResult(s, r).Applied? && ReclaimResult(s, r).move.event.ReclaimExecuted?
    ensures var c, t := ReclaimResult(s, r).move.call, s.reclaims[r].target;
            c == t.call && c in s.db.calls && s.db.calls[c].status.Dialing? && s.db.calls[c].epoch == t.row.epoch
    ensures s.reclaims[r].target.row.handle.Some? ==>
              s.reclaims[r].Asked? && !(s.reclaims[r].answer.Some? && Terminal(s.reclaims[r].answer.value))
  {
  }

  /**
   A reclaim that requeues a call abandons an attempt that the provider had accepted if and only if phase 3 has
   stored its handle, or a tick has the handle and has not come to phase 3, or one crashed with it, or the answer
   to the dial was lost. So without a stored handle, and if no tick sits or crashed between the dial and phase 3
   of that attempt, there was no dial. The provider was asked about the attempt, and named no terminal status,
   only if the sweep already saw the handle; that one is then still the stored one.
   */
  lemma RequeuedWasDialledExactlyWhen(p: Premises, n: nat, init: State, steps: seq<Step>, r: nat)
    requires Init(init, n) && IsRun(p, init, steps) && Enabled(Run(p, init, steps), Reclaim(r))
    requires var o := ReclaimResult(Run(p, init, steps), r); o.Applied? && o.move.event.ReclaimExecuted?
    ensures var s := Run(p, init, steps);
            var t := s.reclaims[r].target;
            var key := (t.call, t.row.epoch);
            && t.call in s.db.calls && ReclaimResult(s, r).move.call == t.call
            && (key in s.issued
                <==> || s.db.calls[t.call].handle.Some? || HeldAt(s, key, false)
                     || CrashedHolding(p, init, steps, key, false) || ReplyLost(p, init, steps, key))
            && (key in s.issued
                ==> s.db.calls[t.call].handle.Some? || HeldAt(s, key, true) || CrashedHolding(p, init, steps, key, true))
            && (t.row.handle.Some? ==>
                  && s.db.calls[t.call].handle == t.row.handle
                  && s.reclaims[r].Asked? && !(s.reclaims[r].answer.Some? && Terminal(s.reclaims[r].answer.value)))
  {
    var s := Run(p, init, steps);
    ExecutedBranch(s, r);
    InitInv(init, n);
    RunKeepsInv(p, init, steps);
    assert SnapshotOK(s, s.reclaims[r].target);
    DialledExactlyWhen(p, n, init, steps, (s.reclaims[r].target.call, s.reclaims[r].target.row.epoch));
  }
}

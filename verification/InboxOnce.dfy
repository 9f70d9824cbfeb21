/** Each provider event takes effect at most once, and replays of it leave no trace. */
module InboxOnce {
  import opened Types
  import opened Tables
  import opened Protocol
  import opened Shape
  import opened CallInvariant
  import opened LogInvariant
  import opened Attempts
  import opened Reach

  /** The step commits the transaction that handles inbox row `x`. */
  predicate Handles(s: State, step: Step, x: EventId) {
    step.Finish? && step.p in s.lookups && s.lookups[step.p].inboxId == x
  }

  /** How often inbox row `x` is handled in a run. */
  ghost function CountHandled(p: Premises, s: State, steps: seq<Step>, x: EventId): nat
    requires IsRun(p, s, steps)
    decreases |steps|
  {
    if steps == [] then 0
    else (if Handles(s, steps[0], x) then 1 else 0) + CountHandled(p, Apply(s, steps[0]), steps[1..], x)
  }

  predicate Processed(s: State, x: EventId) {
    x in s.db.inbox && s.db.inbox[x].processed
  }

  lemma {:induction false} HandledBound(p: Premises, s: State, steps: seq<Step>, x: EventId)
    requires Inv(s) && IsRun(p, s, steps)
    ensures CountHandled(p, s, steps, x) <= if Processed(s, x) then 0 else 1
    decreases |steps|
  {
    if steps != [] {
      StepInbox(s, steps[0]);
      KeepsInv(s, steps[0]);
      if Handles(s, steps[0], x) {
        assert LookupOK(s, steps[0].p);
      }
      HandledBound(p, Apply(s, steps[0]), steps[1..], x);
    }
  }

  /** Whatever is replayed, aborted or drained in parallel, an event is handled at most once in a run. */
  lemma HandledAtMostOnce(p: Premises, n: nat, init: State, steps: seq<Step>, x: EventId)
    requires Init(init, n) && IsRun(p, init, steps)
    ensures CountHandled(p, init, steps, x) <= 1
  {
    InitInv(init, n);
    HandledBound(p, init, steps, x);
  }

  /**
   The mutation and the processed mark commit together: a committed webhook transaction marks the one row it
   handles, which was not marked before, and writes its call exactly if it has a move; no other step marks one.
   */
  lemma MarkCommitsWithMove(s: State, step: Step, x: EventId)
    requires Inv(s) && Enabled(s, step)
    ensures Processed(Apply(s, step), x) <==> Processed(s, x) || Handles(s, step, x)
    ensures step.Finish? ==>
              var y := s.lookups[step.p].inboxId;
              && !Processed(s, y) && Processed(Apply(s, step), y)
              && Apply(s, step).db.calls
                 == if MoveOf(s, step).Some? then s.db.calls[MoveOf(s, step).value.call := MoveOf(s, step).value.row] else s.db.calls
  {
    StepInbox(s, step);
    if step.Finish? {
      assert LookupOK(s, step.p);
      FinishWrites(s, step);
    }
  }

  lemma FinishWrites(s: State, step: Step)
    requires Enabled(s, step) && step.Finish?
    ensures Apply(s, step).db.calls
         == if MoveOf(s, step).Some? then s.db.calls[MoveOf(s, step).value.call := MoveOf(s, step).value.row] else s.db.calls
  {
    NextCalls(s, step, 0);
  }

  /** A transaction that raises can only roll back: no table changes, and the row stays for a later drain. */
  lemma RaisingWritesNothing(s: State, p: nat, wait: Time)
    requires Inv(s) && CanRespond(s, p) && FinishResponse(s, p, wait).Attempted? && Raises(FinishResponse(s, p, wait).outcome)
    ensures !Enabled(s, Finish(p, wait)) && Enabled(s, AbortWebhook(p))
    ensures WebhookTx(s.db, s.lookups[p].inboxId, s.lookups[p].target, wait, s.now) == s.db
    ensures Apply(s, AbortWebhook(p)).db == s.db && !Processed(Apply(s, AbortWebhook(p)), s.lookups[p].inboxId)
  {
    assert LookupOK(s, p);
  }

  // ---- events that find no call ------------------------------------------------------------------

  /** Nobody ends webhook transaction `t`. */
  predicate StaysOpen(steps: seq<Step>, t: nat) {
    forall i :: 0 <= i < |steps| ==> !(steps[i].Finish? && steps[i].p == t) && !(steps[i].AbortWebhook? && steps[i].p == t)
  }

  lemma {:induction false} OpenLookupStays(p: Premises, s: State, steps: seq<Step>, t: nat)
    requires Inv(s) && IsRun(p, s, steps) && StaysOpen(steps, t) && t in s.lookups
    ensures Inv(Run(p, s, steps))
    ensures t in Run(p, s, steps).lookups && Run(p, s, steps).lookups[t] == s.lookups[t]
    decreases |steps|
  {
    if steps != [] {
      KeepsInv(s, steps[0]);
      OpenLookupStays(p, Apply(s, steps[0]), steps[1..], t);
    }
  }

  /**
   Transaction `t` commits, whatever it drew: event `x` is marked, no call and no campaign changes, and no run
   handles the event again.
   */
  ghost predicate LosesEvent(p: Premises, s: State, t: nat, x: EventId, wait: Time, rest: seq<Step>) {
    && Enabled(s, Finish(t, wait)) && MoveOf(s, Finish(t, wait)).None?
    && var after := Apply(s, Finish(t, wait));
    && after.db.calls == s.db.calls && after.db.campaigns == s.db.campaigns && after.db.cursors == s.db.cursors
    && Processed(after, x)
    && (IsRun(p, after, rest) ==> CountHandled(p, after, rest, x) == 0)
  }

  lemma NoCallNoChange(p: Premises, s: State, t: nat, x: EventId, wait: Time, rest: seq<Step>)
    requires Inv(s) && t in s.lookups && s.lookups[t] == Lookup(x, None)
    ensures LosesEvent(p, s, t, x, wait, rest)
  {
    assert LookupOK(s, t);
    assert FinishResponse(s, t, wait) == UnknownHandle;
    KeepsInv(s, Finish(t, wait));
    if IsRun(p, Apply(s, Finish(t, wait)), rest) {
      HandledBound(p, Apply(s, Finish(t, wait)), rest, x);
    }
  }

  lemma LookedUpIsLost(p: Premises, s: State, t: nat, x: EventId, steps: seq<Step>, wait: Time, rest: seq<Step>)
    requires Inv(s) && Enabled(s, Look(t, x, None)) && IsRun(p, Apply(s, Look(t, x, None)), steps) && StaysOpen(steps, t)
    ensures LosesEvent(p, Run(p, Apply(s, Look(t, x, None)), steps), t, x, wait, rest)
  {
    KeepsInv(s, Look(t, x, None));
    OpenLookupStays(p, Apply(s, Look(t, x, None)), steps, t);
    NoCallNoChange(p, Run(p, Apply(s, Look(t, x, None)), steps), t, x, wait, rest);
  }

  lemma LookFindsExactlyWhen(p: Premises, n: nat, s: State, t: nat, x: EventId, target: Option<Found>, c: CallId, epoch: int)
    requires Reachable(p, n, s) && p.h3 && Enabled(s, Look(t, x, target))
    requires c in s.db.calls && IssuedFor(s, c, epoch, s.db.inbox[x].event.handle)
    ensures target.Some? <==> s.db.calls[c].epoch == epoch && Dispatched(HistoryOf(s, c), epoch)
  {
    EventFindsCallExactlyWhen(p, n, s, c, epoch, s.db.inbox[x].event.handle);
  }

  /**
   H3: a drain that looks up the handle of attempt `epoch` of call `c` finds no call if and only if the call is
   not on that attempt or phase 3 has not recorded its dial. Then the event is lost, whatever it reports: however
   the other actors go on, the transaction marks it and changes no call and no campaign, and no later run handles
   it, not even one that stores the handle.
   */
  lemma EventLostExactlyWhen(p: Premises, n: nat, s: State, t: nat, x: EventId, target: Option<Found>, c: CallId, epoch: int,
                             steps: seq<Step>, wait: Time, rest: seq<Step>)
    requires Reachable(p, n, s) && p.h3 && Enabled(s, Look(t, x, target))
    requires c in s.db.calls && IssuedFor(s, c, epoch, s.db.inbox[x].event.handle)
    requires IsRun(p, Apply(s, Look(t, x, target)), steps) && StaysOpen(steps, t)
    ensures target.None? <==> !(s.db.calls[c].epoch == epoch && Dispatched(HistoryOf(s, c), epoch))
    ensures target.None? ==> LosesEvent(p, Run(p, Apply(s, Look(t, x, target)), steps), t, x, wait, rest)
  {
    LookFindsExactlyWhen(p, n, s, t, x, target, c, epoch);
    if target.None? {
      ReachableHolds(p, n, s);
      LookedUpIsLost(p, s, t, x, steps, wait, rest);
    }
  }

  // ---- replays ---------------------------------------------------------------------------------

  /** The step delivers an event the inbox already has. */
  predicate IsReplay(s: State, step: Step) {
    step.Deliver? && step.x in s.db.inbox
  }

  lemma ReplayChangesNothing(s: State, step: Step)
    requires Enabled(s, step) && IsReplay(s, step)
    ensures Apply(s, step) == s
  {
  }

  /** The run without its replays. */
  ghost function WithoutReplays(p: Premises, s: State, steps: seq<Step>): seq<Step>
    requires IsRun(p, s, steps)
    decreases |steps|
  {
    if steps == [] then []
    else (if IsReplay(s, steps[0]) then [] else [steps[0]]) + WithoutReplays(p, Apply(s, steps[0]), steps[1..])
  }

  /**
   Some run without the replays ends in the same state: same calls, campaigns, inbox and log. Draining takes
   unprocessed rows in any order, so the row lock that a replayed insert holds only narrows the choice of a
   drain, to one that the run without the replay can make as well.
   */
  lemma {:induction false} ReplaysLeaveNoTrace(p: Premises, s: State, steps: seq<Step>)
    requires IsRun(p, s, steps)
    ensures IsRun(p, s, WithoutReplays(p, s, steps))
    ensures Run(p, s, WithoutReplays(p, s, steps)) == Run(p, s, steps)
    ensures WithoutReplays(p, s, WithoutReplays(p, s, steps)) == WithoutReplays(p, s, steps)
    decreases |steps|
  {
    if steps != [] {
      var rest := WithoutReplays(p, Apply(s, steps[0]), steps[1..]);
      ReplaysLeaveNoTrace(p, Apply(s, steps[0]), steps[1..]);
      if IsReplay(s, steps[0]) {
        ReplayChangesNothing(s, steps[0]);
        assert WithoutReplays(p, s, steps) == rest;
      } else {
        assert ([steps[0]] + rest)[1..] == rest;
      }
    }
  }
}

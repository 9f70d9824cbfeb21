/**
 The cap with one replica, when events are drained out of order: a late DIALING event puts a call that waits for
 its retry back in flight, and no gate counts it.
 */
module UngatedRun {
  import opened Types
  import opened Tables
  import opened Protocol
  import opened CampaignLife
  import opened Runs
  import opened Limits
  import opened CapLimits

  const ANSWER := Event(0, NoAnswer)
  const LATE := Event(0, Dialing)

  function InFlightCall(): Call {
    BeingDialled(0).(handle := Some(0))
  }

  function WaitingCall(): Call {
    InFlightCall().(status := RetryPending, retries := 1, nextAttempt := Some(1.0))
  }

  /** One campaign with cap 1 and two calls, at time 0; `answered` says whether NO_ANSWER has been processed. */
  ghost predicate TwoCalls(s: State, zero: Call, one: Call, answered: bool) {
    && s.db.calls == map[0 := zero, 1 := one] && s.now == 0.0 && s.lookups == map[]
    && s.db.campaigns.Keys == {0} && s.db.campaigns[0].maxConcurrent == 1 && s.db.campaigns[0].base == 1.0
    && !Concluded(s.db.campaigns[0].status)
    && s.db.inbox == map[1 := InboxRow(ANSWER, answered), 2 := InboxRow(LATE, false)]
  }

  lemma FirstClaimed() returns (s: State, v: CampaignView, claim: Claim)
    ensures Acts(EVERY, 1, s, 0, HasClaim(v, false, claim)) && Filled(s, 1, 2, 1) && |s.replicas| == 1
    ensures v.id == 0 && v.base == 1.0 && claim.call == 0 && claim.epoch == 1
    ensures s.issued == map[] && s.db.cursors == map[] && s.lookups == map[] && s.db.inbox == map[]
    ensures s.db.calls == map[0 := BeingDialled(0), 1 := UploadedCall(1)]
  {
    var before := Uploads(1, 1, 2);
    assert Upload(2) == map[0 := UploadedCall(0), 1 := UploadedCall(1)];
    s, v, claim := OneMoreClaimed(1, before, 1, 2, 0);
  }

  lemma FirstDialled() returns (s: State)
    ensures Reachable(EVERY, 1, s) && Filled(s, 1, 2, 1) && s.replicas == [Idle] && s.lookups == map[] && s.db.inbox == map[]
    ensures s.db.calls == map[0 := BeingDialled(0), 1 := UploadedCall(1)][0 := InFlightCall()]
  {
    var claimed, v, claim := FirstClaimed();
    var placed := Answers(1, claimed, v, claim, 1, 2, 0);
    s := Finishes(1, placed, v, claim, 1, 2, 0);
  }

  /** Call 0 is in flight, and the provider has sent both events. */
  lemma BothDelivered() returns (s: State)
    ensures Reachable(UNORDERED, 1, s) && s.replicas == [Idle] && TwoCalls(s, InFlightCall(), UploadedCall(1), false)
  {
    s := FirstDialled();
    ReachableWithFewer(EVERY, UNORDERED, 1, s);
    s := Delivers(UNORDERED, s, 1, ANSWER);
    s := Delivers(UNORDERED, s, 2, LATE);
  }

  function Retried(): Move {
    Move(0, CallTransition, WaitingCall(), None)
  }

  lemma AnswerRetries(db: Db)
    requires 0 in db.calls && db.calls[0] == InFlightCall()
    ensures Respond(db, ANSWER, Some(Found(0, db.calls[0])), 1.0, 0.0) == Attempted(Applied(Retried()))
  {
  }

  /** The tables after a webhook transaction that writes call 0 and does not end it. */
  lemma WrittenTables(db: Db, x: EventId, m: Move)
    requires x in db.inbox && 0 in db.calls && m.call == 0 && !Terminal(m.row.status)
    requires Respond(db, db.inbox[x].event, Some(Found(0, db.calls[0])), 1.0, 0.0) == Attempted(Applied(m))
    ensures var after := WebhookTx(db, x, Some(Found(0, db.calls[0])), 1.0, 0.0);
            && after.calls == db.calls[0 := m.row] && after.campaigns == db.campaigns
            && after.inbox == db.inbox[x := db.inbox[x].(processed := true)]
  {
  }

  /** NO_ANSWER schedules a retry; the row keeps its handle. */
  lemma Answered() returns (s: State)
    ensures Reachable(UNORDERED, 1, s) && s.replicas == [Idle] && TwoCalls(s, WaitingCall(), UploadedCall(1), true)
  {
    var before := BothDelivered();
    AnswerRetries(before.db);
    WrittenTables(before.db, 1, Retried());
    s := Handles(before, 1, Retried());
  }

  lemma RoomForOne(s: State)
    requires TwoCalls(s, WaitingCall(), UploadedCall(1), true)
    ensures EligibleList(s.db, [ViewOf(s.db, 0)]) && BelowCap(s.db, ViewOf(s.db, 0))
    ensures DueCampaigns(s.db, s.now) == {}
    ensures Claimable(s.db.calls, 0, {}, 0.0) == {1}
  {
    assert s.db.calls[1].status.Queued?;
    assert Eligible(s.db, 0) && [ViewOf(s.db, 0)][0].id == 0;
    assert InFlightCalls(s.db.calls, 0) == {};
  }

  lemma RoomSeen() returns (before: State, v: CampaignView)
    ensures TwoCalls(before, WaitingCall(), UploadedCall(1), true) && At(before, 0) && v.id == 0
    ensures Reachable(UNORDERED, 1, With(before, 0, Ready(v, false)))
    ensures Claimable(before.db.calls, 0, {}, 0.0) == {1}
  {
    before := Answered();
    v := ViewOf(before.db, 0);
    RoomForOne(before);
    assert v in [v];
    GetsReady(UNORDERED, 1, before, 0, [v], {0}, v);
  }

  /** The freed slot goes to call 1. */
  lemma SecondClaimed() returns (s: State)
    ensures Reachable(UNORDERED, 1, s) && TwoCalls(s, WaitingCall(), BeingDialled(1), true)
  {
    var before, v := RoomSeen();
    Takes(UNORDERED, 1, With(before, 0, Ready(v, false)), 0, v, 1);
    TakenTables(before.db, v, 1, 0.0);
    s := With(before.(db := ClaimTx(before.db, v, 1, 0.0)), 0, HasClaim(v, false, ClaimOf(before.db, 1)));
  }

  function Revived(): Move {
    Move(0, CallTransition, WaitingCall().(status := Dialing), None)
  }

  lemma LateRevives(db: Db)
    requires db.calls == map[0 := WaitingCall(), 1 := BeingDialled(1)]
    ensures Respond(db, LATE, Some(Found(0, db.calls[0])), 1.0, 0.0) == Attempted(Applied(Revived()))
  {
    assert db.calls[1].phone == 1;
  }

  /** One replica, max_concurrent 1 and two calls in flight. */
  lemma OneReplicaExceedsCap() returns (s: State)
    ensures Reachable(UNORDERED, 1, s) && 0 in s.db.campaigns && s.db.campaigns[0].maxConcurrent == 1
    ensures InFlightCalls(s.db.calls, 0) == {0, 1} && |InFlightCalls(s.db.calls, 0)| == 2
  {
    var before := SecondClaimed();
    LateRevives(before.db);
    var m := Revived();
    WrittenTables(before.db, 2, m);
    s := Handles(before, 2, m);
    assert s.db.calls == map[0 := m.row, 1 := BeingDialled(1)];
  }

  // ---- exactly when the cap holds ----------------------------------------------------------------

  /** In every reachable state, every campaign is within its cap. */
  ghost predicate CapAlwaysHolds(p: Premises, n: nat) {
    forall s, k :: Reachable(p, n, s) && k in s.db.campaigns ==>
      |InFlightCalls(s.db.calls, k)| <= s.db.campaigns[k].maxConcurrent
  }

  /** The cap always holds if and only if there is one replica and each handle's events are drained in order. */
  lemma CapHoldsExactlyWhen(p: Premises, n: nat)
    requires n >= 1
    ensures CapAlwaysHolds(p, n) <==> n == 1 && p.h2
  {
    if n > 1 {
      var s := CapIsExceeded(n, 1);
      ReachableWithFewer(EVERY, p, n, s);
    } else if !p.h2 {
      var s := OneReplicaExceedsCap();
      ReachableWithFewer(UNORDERED, p, n, s);
    } else {
      forall s, k | Reachable(p, n, s) && k in s.db.campaigns
        ensures |InFlightCalls(s.db.calls, k)| <= s.db.campaigns[k].maxConcurrent
      {
        CapHolds(p, n, s, k);
      }
    }
  }
}

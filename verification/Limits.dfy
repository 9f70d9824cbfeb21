/** Runs that show what the service does not guarantee: each starts from an empty database and ends where a promise fails. */
module Limits {
  import opened Types
  import opened AuditLog
  import opened Backoff
  import opened Tables
  import opened Protocol
  import opened Shape
  import opened LogInvariant
  import opened DrainInvariant
  import opened Attempts
  import opened Runs

  // ---- one campaign with one call ----------------------------------------------------------------

  function Sample(attempts: nat): Campaign {
    Campaign(PendingCampaign, 1, attempts, 1.0)
  }

  const VIEW := CampaignView(0, PendingCampaign, 1, 1.0, None)

  function SampleCall(status: CallStatus, epoch: int, retries: int, handle: Option<Handle>): Call {
    Call(0, 0, status, epoch, retries, None, handle, 0.0, 0.0)
  }

  /** The one campaign and the one call; `row` is its row but for two time columns. */
  ghost predicate Holds(s: State, attempts: nat, row: Call, moves: nat) {
    && s.db.calls.Keys == {0}
    && s.db.calls[0] == row.(nextAttempt := s.db.calls[0].nextAttempt, updatedAt := s.db.calls[0].updatedAt)
    && s.db.campaigns.Keys == {0}
    && s.db.campaigns[0] == Sample(attempts).(status := s.db.campaigns[0].status)
    && !Concluded(s.db.campaigns[0].status)
    && RetryMoves(HistoryOf(s, 0)) == moves
  }

  /** No event, no webhook transaction, no reclaim and no cursor yet. */
  predicate Quiet(s: State) {
    s.db.inbox == map[] && s.lookups == map[] && s.reclaims == map[] && s.db.cursors == map[]
  }

  lemma Uploaded(attempts: nat) returns (s: State)
    ensures Reachable(EVERY, 1, s) && Quiet(s) && s.replicas == [Idle] && s.now == 0.0 && s.issued == map[] && s.stuckAfter == 1.0
    ensures s.db.campaigns == map[0 := Sample(attempts)] && s.db.calls == map[0 := SampleCall(Queued, 0, attempts, None)]
    ensures RetryMoves(HistoryOf(s, 0)) == 0
  {
    var init := State(Db(map[], map[], [], map[], map[]), map[], [Idle], map[], map[], 0.0, 1.0);
    ReachInit(EVERY, 1, init);
    var step := Create(0, Sample(attempts), map[0 := SampleCall(Queued, 0, attempts, None)]);
    assert FreshBatch(init.db, 0, Sample(attempts), step.batch, 0.0);
    ReachNext(EVERY, 1, init, step);
    s := Apply(init, step);
  }

  lemma ReadyToClaim(attempts: nat) returns (s: State)
    ensures Reachable(EVERY, 1, s) && Quiet(s) && s.replicas == [Ready(VIEW, false)] && s.now == 0.0 && s.issued == map[] && s.stuckAfter == 1.0
    ensures s.db.campaigns == map[0 := Sample(attempts)] && s.db.calls == map[0 := SampleCall(Queued, 0, attempts, None)]
    ensures RetryMoves(HistoryOf(s, 0)) == 0
  {
    var before := Uploaded(attempts);
    assert before.db.calls[0].status.Queued?;
    assert Eligible(before.db, 0) && [VIEW][0].id == 0 && VIEW in [VIEW];
    assert InFlightCalls(before.db.calls, 0) == {};
    assert DueCampaigns(before.db, before.now) == {};
    GetsReady(EVERY, 1, before, 0, [VIEW], {0}, VIEW);
    s := With(before, 0, Ready(VIEW, false));
  }

  lemma ClaimLogs(s: State, attempts: nat)
    requires s.db.calls == map[0 := SampleCall(Queued, 0, attempts, None)] && RetryMoves(HistoryOf(s, 0)) == 0
    ensures RetryMoves(History(ClaimTx(s.db, VIEW, 0, 0.0).audit, 0)) == 0
  {
    ClaimHistory(s.db, VIEW, 0, 0.0, 0);
    CountsAppend(HistoryOf(s, 0), ChangeRow(s.db, ClaimMove(s.db, 0, 0.0)));
  }

  lemma Claiming(attempts: nat) returns (s: State)
    ensures Reachable(EVERY, 1, s) && Quiet(s) && s.replicas == [HasClaim(VIEW, false, Claim(0, 1, attempts))]
    ensures s.now == 0.0 && s.issued == map[] && s.stuckAfter == 1.0
    ensures Holds(s, attempts, SampleCall(Dialing, 1, attempts, None), 0) && s.db.calls[0].updatedAt == 0.0
  {
    var before := ReadyToClaim(attempts);
    assert Claimable(before.db.calls, 0, {}, 0.0) == {0};
    Takes(EVERY, 1, before, 0, VIEW, 0);
    TakenTables(before.db, VIEW, 0, 0.0);
    ClaimLogs(before, attempts);
    s := With(before.(db := ClaimTx(before.db, VIEW, 0, 0.0)), 0, HasClaim(VIEW, false, ClaimOf(before.db, 0)));
  }

  /** The call is claimed and the provider has accepted it under handle 7, which is not stored yet. */
  lemma Accepting(attempts: nat) returns (s: State)
    ensures Reachable(EVERY, 1, s) && Quiet(s) && s.replicas == [Placed(VIEW, false, Claim(0, 1, attempts), Accepted(7))]
    ensures s.now == 0.0 && s.issued == map[(0, 1) := 7] && s.stuckAfter == 1.0
    ensures Holds(s, attempts, SampleCall(Dialing, 1, attempts, None), 0) && s.db.calls[0].updatedAt == 0.0
  {
    var claimed := Claiming(attempts);
    Dials(EVERY, 1, claimed, 0, VIEW, Claim(0, 1, attempts), 7);
    s := With(claimed.(issued := map[(0, 1) := 7]), 0, Placed(VIEW, false, Claim(0, 1, attempts), Accepted(7)));
  }

  lemma AnswerWrites(db: Db, attempts: nat, row: Call, now: Time) returns (m: Move)
    requires 0 in db.calls && db.calls[0] == row && row.status.Dialing? && row.epoch == 1
    ensures DispatchOutcome(db, Claim(0, 1, attempts), Accepted(7), 1.0, now) == Applied(m)
    ensures m.call == 0 && m.event.CallDispatch? && m.row == row.(handle := Some(7), updatedAt := now)
  {
    m := DispatchOutcome(db, Claim(0, 1, attempts), Accepted(7), 1.0, now).move;
  }

  /** Phase 3 stores the handle, whatever else has happened since the dial. */
  lemma Stores(before: State, attempts: nat) returns (s: State)
    requires Reachable(EVERY, 1, before) && before.db.cursors == map[]
    requires before.replicas == [Placed(VIEW, false, Claim(0, 1, attempts), Accepted(7))]
    requires Holds(before, attempts, SampleCall(Dialing, 1, attempts, None), 0)
    ensures Reachable(EVERY, 1, s) && s == before.(db := s.db, replicas := [Idle])
    ensures Holds(s, attempts, SampleCall(Dialing, 1, attempts, Some(7)), 0) && s.db.inbox == before.db.inbox
  {
    var claim := Claim(0, 1, attempts);
    var m := AnswerWrites(before.db, attempts, before.db.calls[0], before.now);
    assert IsBackoff(1.0, 1, 1.0);
    Settles(EVERY, 1, before, 0, VIEW, claim, Accepted(7), 1.0, 0.0);
    SettledTables(before.db, VIEW, claim, Accepted(7), 1.0, before.now, 0.0);
    s := With(before.(db := DispatchTx(before.db, VIEW, claim, Accepted(7), 1.0, before.now, 0.0)), 0, Idle);
    LogsOneMove(before, s, m);
  }

  /** One more row in the log of call 0. */
  lemma LogsOneMove(before: State, s: State, m: Move)
    requires m.call in before.db.calls && s.db.audit == before.db.audit + [ChangeRow(before.db, m)] && m.call == 0
    ensures HistoryOf(s, 0) == HistoryOf(before, 0) + [ChangeRow(before.db, m)]
    ensures RetryMoves(HistoryOf(s, 0)) == RetryMoves(HistoryOf(before, 0)) + if m.row.status.RetryPending? then 1 else 0
  {
    HistoryAppend(before.db.audit, ChangeRow(before.db, m), 0);
    CountsAppend(HistoryOf(before, 0), ChangeRow(before.db, m));
  }

  lemma Dialled(attempts: nat) returns (s: State)
    ensures Reachable(EVERY, 1, s) && s.db.inbox == map[] && s.lookups == map[]
    ensures Holds(s, attempts, SampleCall(Dialing, 1, attempts, Some(7)), 0)
  {
    var before := Accepting(attempts);
    s := Stores(before, attempts);
  }

  /** Delivering an event, and looking its call up, in a reachable state. */
  lemma Delivers(p: Premises, before: State, x: EventId, event: Event) returns (s: State)
    requires Reachable(p, 1, before) && x !in before.db.inbox && ProviderStatus(event.status)
    ensures Reachable(p, 1, s) && s == before.(db := before.db.(inbox := before.db.inbox[x := InboxRow(event, false)]))
  {
    ReachNext(p, 1, before, Deliver(x, event));
    s := Apply(before, Deliver(x, event));
  }

  lemma LooksUpRow(p: Premises, before: State, t: nat, x: EventId, target: Option<Found>) returns (s: State)
    requires Reachable(p, 1, before) && Enabled(before, Look(t, x, target)) && Meets(p, before, Look(t, x, target))
    ensures Reachable(p, 1, s) && s == before.(lookups := before.lookups[t := Lookup(x, target)])
  {
    ReachNext(p, 1, before, Look(t, x, target));
    s := Apply(before, Look(t, x, target));
  }

  // ---- the retry budget ------------------------------------------------------------------------

  /** Every premise but in-order draining and one webhook transaction per call at a time. */
  const ALMOST := Premises(true, false, true, true, false, true)

  function SampleInbox(second: bool, third: bool): map<EventId, InboxRow> {
    map[1 := InboxRow(Event(7, NoAnswer), false), 2 := InboxRow(Event(7, NoAnswer), second), 3 := InboxRow(Event(7, Dialing), third)]
  }

  /** The row as the two overlapping transactions looked it up. */
  predicate SeesDialing(l: Lookup) {
    && l.target.Some? && l.target.value.call == 0
    && var row := l.target.value.row;
    && row.campaign == 0 && row.status.Dialing? && row.epoch == 1 && row.retries == 2
  }

  lemma Delivered() returns (s: State)
    ensures Reachable(ALMOST, 1, s) && s.db.inbox == SampleInbox(false, false) && s.lookups == map[]
    ensures Holds(s, 2, SampleCall(Dialing, 1, 2, Some(7)), 0)
  {
    s := Dialled(2);
    ReachableWithFewer(EVERY, ALMOST, 1, s);
    s := Delivers(ALMOST, s, 1, Event(7, NoAnswer));
    s := Delivers(ALMOST, s, 2, Event(7, NoAnswer));
    s := Delivers(ALMOST, s, 3, Event(7, Dialing));
  }

  lemma LookedUp() returns (s: State)
    ensures Reachable(ALMOST, 1, s) && s.db.inbox == SampleInbox(false, false)
    ensures s.lookups.Keys == {1, 2} && s.lookups[1].inboxId == 1 && s.lookups[2].inboxId == 2
    ensures SeesDialing(s.lookups[1]) && SeesDialing(s.lookups[2])
    ensures Holds(s, 2, SampleCall(Dialing, 1, 2, Some(7)), 0)
  {
    var before := Delivered();
    var found := Some(Found(0, before.db.calls[0]));
    s := LooksUpRow(ALMOST, before, 1, 1, found);
    s := LooksUpRow(ALMOST, s, 2, 2, found);
  }

  /** A webhook transaction commits and writes call 0; the campaign stays open. */
  lemma Commits(before: State, t: nat, m: Move, was: Call, moves: nat) returns (s: State)
    requires Reachable(ALMOST, 1, before) && Enabled(before, Finish(t, 1.0)) && Meets(ALMOST, before, Finish(t, 1.0))
    requires FinishResponse(before, t, 1.0) == Attempted(Applied(m))
    requires Holds(before, 2, was, moves) && m.call == 0 && !Terminal(m.row.status)
    ensures Reachable(ALMOST, 1, s) && s.lookups == before.lookups - {t}
    ensures var x := before.lookups[t].inboxId; s.db.inbox == before.db.inbox[x := before.db.inbox[x].(processed := true)]
    ensures Holds(s, 2, m.row, moves + if m.row.status.RetryPending? then 1 else 0)
  {
    ReachNext(ALMOST, 1, before, Finish(t, 1.0));
    s := Apply(before, Finish(t, 1.0));
    LogsOneMove(before, s, m);
  }

  /** What the transaction does that looked the call up as DIALING with two retries and brings NO_ANSWER. */
  lemma NoAnswerRetries(s: State, t: nat, retries: int, moves: nat) returns (m: Move)
    requires Holds(s, 2, SampleCall(Dialing, 1, retries, Some(7)), moves)
    requires t in s.lookups && SeesDialing(s.lookups[t]) && s.lookups[t].inboxId in s.db.inbox
    requires s.db.inbox[s.lookups[t].inboxId].event.status.NoAnswer?
    ensures Enabled(s, Finish(t, 1.0)) && FinishResponse(s, t, 1.0) == Attempted(Applied(m)) && m.call == 0
    ensures m.row == SampleCall(RetryPending, 1, 1, Some(7)).(nextAttempt := m.row.nextAttempt, updatedAt := m.row.updatedAt)
  {
    assert IsBackoff(1.0, 1, 1.0);
    m := FinishResponse(s, t, 1.0).outcome.move;
  }

  lemma FirstRetry() returns (s: State)
    ensures Reachable(ALMOST, 1, s) && s.db.inbox == SampleInbox(true, false)
    ensures s.lookups.Keys == {1} && s.lookups[1].inboxId == 1 && SeesDialing(s.lookups[1])
    ensures Holds(s, 2, SampleCall(RetryPending, 1, 1, Some(7)), 1)
  {
    var before := LookedUp();
    var m := NoAnswerRetries(before, 2, 2, 0);
    s := Commits(before, 2, m, SampleCall(Dialing, 1, 2, Some(7)), 0);
  }

  lemma DialingLookedUp() returns (s: State)
    ensures Reachable(ALMOST, 1, s) && s.db.inbox == SampleInbox(true, false)
    ensures s.lookups.Keys == {1, 3} && s.lookups[1].inboxId == 1 && SeesDialing(s.lookups[1])
    ensures Holds(s, 2, SampleCall(RetryPending, 1, 1, Some(7)), 1)
    ensures s.lookups[3] == Lookup(3, Some(Found(0, s.db.calls[0])))
  {
    var before := FirstRetry();
    s := LooksUpRow(ALMOST, before, 3, 3, Some(Found(0, before.db.calls[0])));
  }

  lemma LateDialing() returns (s: State)
    ensures Reachable(ALMOST, 1, s) && s.db.inbox == SampleInbox(true, true)
    ensures s.lookups.Keys == {1} && s.lookups[1].inboxId == 1 && SeesDialing(s.lookups[1])
    ensures Holds(s, 2, SampleCall(Dialing, 1, 1, Some(7)), 1)
  {
    var before := DialingLookedUp();
    assert IsBackoff(1.0, 1, 1.0);
    var m := FinishResponse(before, 3, 1.0).outcome.move;
    s := Commits(before, 3, m, SampleCall(RetryPending, 1, 1, Some(7)), 1);
  }

  /**
   Provider statuses alone do not conserve the budget. Two NO_ANSWER transactions look the call up at epoch 1
   with two retries left; one commits, a late DIALING event puts the row back to the version the other still
   expects, and its stale count then schedules a second retry without paying for it.
   */
  lemma BudgetNeedsOrder() returns (s: State)
    ensures Reachable(ALMOST, 1, s) && 0 in s.db.calls && s.db.calls[0].campaign in s.db.campaigns
    ensures s.db.campaigns[s.db.calls[0].campaign].maxAttempts == 2
    ensures RetryMoves(HistoryOf(s, 0)) == 2 && s.db.calls[0].retries == 1 && !BudgetOK(s, 0)
  {
    var before := LateDialing();
    var m := NoAnswerRetries(before, 1, 1, 1);
    s := Commits(before, 1, m, SampleCall(Dialing, 1, 1, Some(7)), 1);
  }

  // ---- a terminal row that is written again ------------------------------------------------------

  /** Every premise but in-order draining. */
  const UNORDERED := Premises(true, false, true, true, true, true)

  lemma FailedTwiceDelivered() returns (s: State)
    ensures Reachable(UNORDERED, 1, s) && s.lookups == map[]
    ensures s.db.inbox == map[1 := InboxRow(Event(7, Failed), false), 2 := InboxRow(Event(7, NoAnswer), false)]
    ensures Holds(s, 0, SampleCall(Dialing, 1, 0, Some(7)), 0)
  {
    s := Dialled(0);
    ReachableWithFewer(EVERY, UNORDERED, 1, s);
    s := Delivers(UNORDERED, s, 1, Event(7, Failed));
    s := Delivers(UNORDERED, s, 2, Event(7, NoAnswer));
  }

  /** The transaction of lookup 1 commits with its move. */
  lemma FinishesWith(looked: State, x: EventId, target: Option<Found>, m: Move) returns (s: State)
    requires Reachable(UNORDERED, 1, looked) && looked.lookups == map[1 := Lookup(x, target)] && x in looked.db.inbox
    requires target.Some? && target.value.row.campaign in looked.db.campaigns && target.value.row.epoch == 1
    requires looked.db.campaigns[target.value.row.campaign].base == 1.0
    requires Respond(looked.db, looked.db.inbox[x].event, target, 1.0, looked.now) == Attempted(Applied(m))
    ensures Reachable(UNORDERED, 1, s) && s == looked.(db := WebhookTx(looked.db, x, target, 1.0, looked.now), lookups := map[])
  {
    assert IsBackoff(1.0, 1, 1.0);
    ReachNext(UNORDERED, 1, looked, Finish(1, 1.0));
    s := Apply(looked, Finish(1, 1.0));
    assert s.lookups == map[];
  }

  /** What the transaction that brings event `x` does to the call as it stands. */
  lemma Handles(before: State, x: EventId, m: Move) returns (s: State)
    requires Reachable(UNORDERED, 1, before) && before.lookups == map[] && x in before.db.inbox && !before.db.inbox[x].processed
    requires 0 in before.db.calls && before.db.calls[0].campaign in before.db.campaigns
    requires before.db.calls[0].epoch == 1 && before.db.campaigns[before.db.calls[0].campaign].base == 1.0
    requires before.db.calls[0].handle == Some(before.db.inbox[x].event.handle)
    requires Respond(before.db, before.db.inbox[x].event, Some(Found(0, before.db.calls[0])), 1.0, before.now) == Attempted(Applied(m))
    ensures Reachable(UNORDERED, 1, s)
    ensures s == before.(db := WebhookTx(before.db, x, Some(Found(0, before.db.calls[0])), 1.0, before.now))
  {
    var target := Some(Found(0, before.db.calls[0]));
    var looked := LooksUpRow(UNORDERED, before, 1, x, target);
    s := FinishesWith(looked, x, target, m);
  }

  function Rewrite(row: Call, now: Time): Move {
    Move(0, CallTransition, row.(status := Failed, updatedAt := now), None)
  }

  lemma EventFails(db: Db, event: Event, row: Call, now: Time)
    requires 0 in db.calls && db.calls[0] == row && row.retries == 0
    requires (row.status.Dialing? && event.status.Failed?) || (row.status.Failed? && event.status.NoAnswer?)
    ensures Respond(db, event, Some(Found(0, row)), 1.0, now) == Attempted(Applied(Rewrite(row, now)))
  {
  }

  lemma CommitKeepsBases(db: Db, m: Move)
    requires m.call in db.calls
    ensures var after := Commit(db, m);
            && after.calls == db.calls[m.call := m.row] && after.inbox == db.inbox && after.campaigns.Keys == db.campaigns.Keys
            && forall k :: k in db.campaigns ==> after.campaigns[k].base == db.campaigns[k].base
  {
  }

  lemma FailedTables(db: Db, x: EventId, row: Call, now: Time)
    requires x in db.inbox && 0 in db.calls && db.calls[0] == row
    requires Respond(db, db.inbox[x].event, Some(Found(0, row)), 1.0, now) == Attempted(Applied(Rewrite(row, now)))
    ensures var after := WebhookTx(db, x, Some(Found(0, row)), 1.0, now);
            && after.calls == db.calls[0 := Rewrite(row, now).row] && after.inbox == db.inbox[x := db.inbox[x].(processed := true)]
            && after.campaigns.Keys == db.campaigns.Keys
            && (forall k :: k in db.campaigns ==> after.campaigns[k].base == db.campaigns[k].base)
            && History(after.audit, 0) == History(db.audit, 0) + [ChangeRow(db, Rewrite(row, now))]
  {
    var m := Rewrite(row, now);
    assert WebhookTx(db, x, Some(Found(0, row)), 1.0, now) == Marked(Commit(db, m), x);
    CommitKeepsBases(db, m);
    CommitHistory(db, m, 0);
  }

  /**
   A terminal row is written again, against the comment that this never arises. A call without retries fails
   by a FAILED event; a NO_ANSWER event of the same handle then writes it once more, and the log shows a change
   from FAILED to FAILED.
   */
  lemma FailedIsWrittenAgain() returns (before: State, s: State)
    ensures Reachable(UNORDERED, 1, before) && 0 in before.db.calls && before.db.calls[0].status.Failed?
    ensures Reachable(UNORDERED, 1, s)
    ensures HistoryOf(s, 0) == HistoryOf(before, 0) + [CallChange(CallTransition, 0, 0, 1, Failed, Failed, None)]
  {
    var dialled := FailedTwiceDelivered();
    var row := dialled.db.calls[0];
    EventFails(dialled.db, Event(7, Failed), row, dialled.now);
    before := Handles(dialled, 1, Rewrite(row, dialled.now));
    FailedTables(dialled.db, 1, row, dialled.now);
    var failed := before.db.calls[0];
    EventFails(before.db, Event(7, NoAnswer), failed, before.now);
    s := Handles(before, 2, Rewrite(failed, before.now));
    FailedTables(before.db, 2, failed, before.now);
  }

  // ---- a call that is being handled and yet dialled again ----------------------------------------

  lemma StuckWithoutHandle() returns (s: State)
    ensures Reachable(EVERY, 1, s) && s.issued == map[(0, 1) := 7] && s.now == 2.0 && s.stuckAfter == 1.0
    ensures s.db.inbox == map[] && s.db.cursors == map[] && s.replicas == [Placed(VIEW, false, Claim(0, 1, 2), Accepted(7))]
    ensures Holds(s, 2, SampleCall(Dialing, 1, 2, None), 0)
    ensures s.reclaims == map[0 := Stuck(Found(0, s.db.calls[0]))]
  {
    var before := Accepting(2);
    ReachNext(EVERY, 1, before, Advance(2.0));
    var later := Apply(before, Advance(2.0));
    ReachNext(EVERY, 1, later, FindStuck(0, 0));
    s := Apply(later, FindStuck(0, 0));
  }

  lemma NullSnapshotRequeues(s: State, t: Found)
    requires 0 in s.db.calls && s.db.calls[0].status.Dialing? && s.db.calls[0].epoch == 1
    requires s.reclaims == map[0 := Stuck(t)] && t.call == 0 && t.row.epoch == 1 && t.row.handle.None?
    ensures Enabled(s, Reclaim(0))
    ensures NextDb(s, Reclaim(0)).calls
         == s.db.calls[0 := s.db.calls[0].(status := Queued, epoch := 2, handle := None, updatedAt := s.now)]
  {
  }

  /**
   A reclaim without a handle in its snapshot does not mean that no dial happened. The provider accepts the
   call, the sweep reads the row before the handle is stored, phase 3 stores it, and the reclaim still requeues
   the call for a second dial without asking the provider about the first.
   */
  lemma LiveCallIsRequeued() returns (before: State, s: State)
    ensures Reachable(EVERY, 1, before) && 0 in before.db.calls
    ensures before.db.calls[0].status.Dialing? && before.db.calls[0].epoch == 1 && before.db.calls[0].handle == Some(7)
    ensures (0, 1) in before.issued && before.issued[(0, 1)] == 7
    ensures Enabled(before, Reclaim(0)) && s == Apply(before, Reclaim(0)) && Reachable(EVERY, 1, s)
    ensures 0 in s.db.calls && s.db.calls[0].status.Queued? && s.db.calls[0].epoch == 2 && s.db.calls[0].handle.None?
  {
    var stuck := StuckWithoutHandle();
    before := Stores(stuck, 2);
    NullSnapshotRequeues(before, Found(0, stuck.db.calls[0]));
    ReachNext(EVERY, 1, before, Reclaim(0));
    s := Apply(before, Reclaim(0));
  }

  /**
   Nor does a handle that is still null when the reclaim executes: the provider has accepted the call and the
   tick has not come to phase 3, so neither the row nor its log shows the dial of the attempt that is abandoned.
   */
  lemma UnrecordedCallIsRequeued() returns (before: State, s: State)
    ensures Reachable(EVERY, 1, before) && 0 in before.db.calls && (0, 1) in before.issued
    ensures before.db.calls[0].status.Dialing? && before.db.calls[0].epoch == 1 && before.db.calls[0].handle.None?
    ensures !Dispatched(HistoryOf(before, 0), 1)
    ensures Enabled(before, Reclaim(0)) && s == Apply(before, Reclaim(0)) && Reachable(EVERY, 1, s)
    ensures 0 in s.db.calls && s.db.calls[0].status.Queued? && s.db.calls[0].epoch == 2
  {
    before := StuckWithoutHandle();
    HandleStoredExactlyWhen(EVERY, 1, before, 0);
    NullSnapshotRequeues(before, Found(0, before.db.calls[0]));
    ReachNext(EVERY, 1, before, Reclaim(0));
    s := Apply(before, Reclaim(0));
  }

  // ---- an event that comes too early -------------------------------------------------------------

  lemma UnknownHandleTables(db: Db, x: EventId, now: Time)
    requires x in db.inbox
    ensures var after := WebhookTx(db, x, None, 0.0, now);
            && after == db.(audit := after.audit, inbox := db.inbox[x := db.inbox[x].(processed := true)])
            && History(after.audit, 0) == History(db.audit, 0)
  {
    IgnoredHistory(db, x, None, 0.0, now, 0);
  }

  /** No call has the event's handle yet, so the transaction marks the event and does nothing else. */
  lemma DropsEvent(before: State, x: EventId) returns (s: State)
    requires Reachable(EVERY, 1, before) && before.lookups == map[] && x in before.db.inbox && !before.db.inbox[x].processed
    requires LooksUp(before.db.calls, before.db.inbox[x].event.handle, None) && InOrder(before.db.inbox, before.db.inbox[x].event)
    ensures Reachable(EVERY, 1, s) && s == before.(db := WebhookTx(before.db, x, None, 0.0, before.now))
  {
    var looked := LooksUpRow(EVERY, before, 0, x, None);
    ReachNext(EVERY, 1, looked, Finish(0, 0.0));
    s := Apply(looked, Finish(0, 0.0));
    assert s.lookups == map[];
  }

  lemma EarlyEventQueued() returns (s: State)
    ensures Reachable(EVERY, 1, s) && s.db.cursors == map[] && s.lookups == map[]
    ensures s.replicas == [Placed(VIEW, false, Claim(0, 1, 2), Accepted(7))]
    ensures s.db.inbox == map[1 := InboxRow(Event(7, Completed), false)] && s.issued == map[(0, 1) := 7]
    ensures Holds(s, 2, SampleCall(Dialing, 1, 2, None), 0)
  {
    s := Accepting(2);
    s := Delivers(EVERY, s, 1, Event(7, Completed));
  }

  lemma NothingProcessed(inbox: map<EventId, InboxRow>, event: Event)
    requires inbox == map[1 := InboxRow(event, false)] && ProviderStatus(event.status)
    ensures InOrder(inbox, event)
  {
  }

  lemma EarlyEventDropped() returns (s: State)
    ensures Reachable(EVERY, 1, s) && s.db.cursors == map[]
    ensures s.replicas == [Placed(VIEW, false, Claim(0, 1, 2), Accepted(7))]
    ensures s.db.inbox == map[1 := InboxRow(Event(7, Completed), true)] && s.issued == map[(0, 1) := 7]
    ensures Holds(s, 2, SampleCall(Dialing, 1, 2, None), 0)
  {
    var before := EarlyEventQueued();
    NothingProcessed(before.db.inbox, Event(7, Completed));
    s := DropsEvent(before, 1);
    UnknownHandleTables(before.db, 1, before.now);
  }

  /**
   An event that is drained between the dial and phase 3 is lost: the call has completed, the event that says
   so is processed and will not be looked at again, and the call is left DIALING with its handle stored.
   */
  lemma EarlyEventIsLost() returns (s: State)
    ensures Reachable(EVERY, 1, s) && 0 in s.db.calls
    ensures s.db.calls[0].status.Dialing? && s.db.calls[0].epoch == 1 && s.db.calls[0].handle == Some(7)
    ensures (0, 1) in s.issued && s.issued[(0, 1)] == 7
    ensures s.db.inbox == map[1 := InboxRow(Event(7, Completed), true)]
  {
    var before := EarlyEventDropped();
    s := Stores(before, 2);
  }
}

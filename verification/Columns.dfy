/**
 The statements of the service in terms of statuses and columns: what the tests and lists of module Tables select,
 without naming them.
 */
module Columns {
  import opened Types
  import opened Tables

  // ---- state.transition --------------------------------------------------------------------------

  /** Exactly when a compare-and-set is refused, is a regression, misses, or hits the phone index. */
  lemma CasMeans(db: Db, c: CallId, expected: CallStatus, epoch: int, target: CallStatus,
                 newEpoch: Option<int>, upd: Updates, event: EventType, extra: Option<Handle>, now: Time)
    ensures var o := Cas(db, c, expected, epoch, target, newEpoch, upd, event, extra, now);
            && (o.Unauthorized? <==> upd.foreign != {})
            && (o.Regression? <==>
                  !o.Unauthorized? && expected in {Completed, Failed, NoAnswer, Busy} && target != expected)
            && (o.NoOp? <==>
                  && !o.Unauthorized? && !o.Regression?
                  && (c !in db.calls || db.calls[c].status != expected || db.calls[c].epoch != epoch))
            && (o.Violation? <==>
                  && !o.Unauthorized? && !o.Regression? && !o.NoOp?
                  && target in {Queued, Dialing, InProgress} && expected !in {Queued, Dialing, InProgress}
                  && exists d :: d in db.calls && d != c && db.calls[d].phone == db.calls[c].phone
                       && db.calls[d].status in {Queued, Dialing, InProgress})
  {
    var o := Cas(db, c, expected, epoch, target, newEpoch, upd, event, extra, now);
    if !o.Unauthorized? && !o.Regression? && !o.NoOp? {
      var row := Patched(db.calls[c], target, newEpoch, upd, now);
      assert row.phone == db.calls[c].phone && row.status == target;
    }
  }

  // ---- the lists of a tick -----------------------------------------------------------------------

  lemma EligibleMeans(db: Db, views: seq<CampaignView>, k: CampaignId)
    requires EligibleList(db, views)
    ensures ListsCampaign(views, k)
       <==> && k in db.campaigns && db.campaigns[k].status in {PendingCampaign, ActiveCampaign}
            && exists c :: c in db.calls && db.calls[c].campaign == k && db.calls[c].status in {Queued, RetryPending}
  {
    if v :| v in views && v.id == k {
      assert Eligible(db, k);
    }
    if Eligible(db, k) {
      var i :| 0 <= i < |views| && views[i].id == k;
      assert views[i] in views;
    }
  }

  lemma ViewMeans(db: Db, views: seq<CampaignView>, i: nat)
    requires EligibleList(db, views) && i < |views|
    ensures var v := views[i];
            && v.id in db.campaigns && v.status == db.campaigns[v.id].status
            && v.maxConcurrent == db.campaigns[v.id].maxConcurrent && v.base == db.campaigns[v.id].base
            && v.cursor == (if v.id in db.cursors then Some(db.cursors[v.id]) else None)
    ensures i > 0 ==> views[i-1].id < views[i].id
  {
  }

  predicate ListsCampaign(views: seq<CampaignView>, k: CampaignId) {
    exists v :: v in views && v.id == k
  }

  predicate OneViewEach(views: seq<CampaignView>) {
    forall i, j :: 0 <= i < j < |views| ==> views[i].id != views[j].id
  }

  /** The number of calls of a campaign that are with the provider has reached what the view allows. */
  predicate AtCap(calls: map<CallId, Call>, v: CampaignView) {
    |set c | c in calls && calls[c].campaign == v.id && calls[c].status in {Dialing, InProgress}| >= v.maxConcurrent
  }

  /** The calls of a campaign that count against its cap. */
  lemma InFlightMeans(calls: map<CallId, Call>, k: CampaignId)
    ensures InFlightCalls(calls, k)
         == set c | c in calls && calls[c].campaign == k && calls[c].status in {Dialing, InProgress}
  {
  }

  lemma CapMeans(db: Db, v: CampaignView)
    ensures BelowCap(db, v) <==> !AtCap(db.calls, v)
  {
    InFlightMeans(db.calls, v.id);
  }

  lemma PassedMeans(db: Db, views: seq<CampaignView>, open: set<CampaignId>)
    ensures forall v :: v in UnderCap(db, InHours(views, open)) <==> v in views && v.id in open && !AtCap(db.calls, v)
  {
    forall v ensures BelowCap(db, v) <==> !AtCap(db.calls, v) {
      CapMeans(db, v);
    }
  }

  lemma ListsFront(views: seq<CampaignView>, k: CampaignId)
    requires views != [] && OneViewEach(views)
    ensures var front, last := views[..|views|-1], views[|views|-1];
            && OneViewEach(front)
            && (ListsCampaign(views, k) <==> ListsCampaign(front, k) || last.id == k)
            && (last.id == k ==> !ListsCampaign(front, k))
  {
    var front, last := views[..|views|-1], views[|views|-1];
    assert views == front + [last];
    if v :| v in front && v.id == k {
      assert v in views;
    }
  }

  /** Each listed campaign outside its hours gets one row that says so, and nothing else is logged. */
  lemma {:induction false} HourSkipsMean(views: seq<CampaignView>, open: set<CampaignId>, k: CampaignId)
    requires OneViewEach(views)
    ensures forall row :: row in HourSkips(views, open) ==> row.Skipped? && row.event == SkipBusinessHour
    ensures multiset(HourSkips(views, open))[Skipped(SkipBusinessHour, k)]
         == if k !in open && ListsCampaign(views, k) then 1 else 0
  {
    if views != [] {
      ListsFront(views, k);
      HourSkipsMean(views[..|views|-1], open, k);
    }
  }

  predicate ListsAtCap(calls: map<CallId, Call>, views: seq<CampaignView>, k: CampaignId) {
    exists v :: v in views && v.id == k && AtCap(calls, v)
  }

  lemma ListsAtCapFront(calls: map<CallId, Call>, views: seq<CampaignView>, k: CampaignId)
    requires views != []
    ensures var front, last := views[..|views|-1], views[|views|-1];
            ListsAtCap(calls, views, k) <==> ListsAtCap(calls, front, k) || (last.id == k && AtCap(calls, last))
  {
    var front, last := views[..|views|-1], views[|views|-1];
    assert views == front + [last];
    if v :| v in front && v.id == k && AtCap(calls, v) {
      assert v in views;
    }
  }

  /** Each campaign that has reached its cap gets one row that says so, and nothing else is logged. */
  lemma {:induction false} CapSkipsMean(db: Db, views: seq<CampaignView>, k: CampaignId)
    requires OneViewEach(views)
    ensures forall row :: row in CapSkips(db, views) ==> row.Skipped? && row.event == SkipConcurrency
    ensures multiset(CapSkips(db, views))[Skipped(SkipConcurrency, k)] == if ListsAtCap(db.calls, views, k) then 1 else 0
  {
    if views != [] {
      ListsFront(views, k);
      ListsAtCapFront(db.calls, views, k);
      CapMeans(db, views[|views|-1]);
      CapSkipsMean(db, views[..|views|-1], k);
    }
  }

  lemma {:induction false} InHoursKeepOne(views: seq<CampaignView>, open: set<CampaignId>)
    requires OneViewEach(views)
    ensures OneViewEach(InHours(views, open))
  {
    if views != [] {
      var front := views[..|views|-1];
      InHoursKeepOne(front, open);
      forall i | 0 <= i < |InHours(front, open)| ensures InHours(front, open)[i].id != views[|views|-1].id {
        assert InHours(front, open)[i] in front;
      }
    }
  }

  lemma AbsentRow(rows: seq<AuditRow>, event: EventType, k: CampaignId)
    requires forall row :: row in rows ==> row.Skipped? && row.event != event
    ensures multiset(rows)[Skipped(event, k)] == 0
  {
    assert Skipped(event, k) !in rows;
  }

  /** What both gates log: for a campaign outside its hours that, for one at its cap that, and nothing for one that passes. */
  lemma GateLogMeans(db: Db, views: seq<CampaignView>, open: set<CampaignId>, k: CampaignId)
    requires OneViewEach(views)
    ensures var log := HourSkips(views, open) + CapSkips(db, InHours(views, open));
            && (forall row :: row in log ==> row.Skipped? && row.event in {SkipBusinessHour, SkipConcurrency})
            && multiset(log)[Skipped(SkipBusinessHour, k)] == (if k !in open && ListsCampaign(views, k) then 1 else 0)
            && multiset(log)[Skipped(SkipConcurrency, k)] == (if k in open && ListsAtCap(db.calls, views, k) then 1 else 0)
  {
    var inHours := InHours(views, open);
    InHoursKeepOne(views, open);
    HourSkipsMean(views, open, k);
    CapSkipsMean(db, inHours, k);
    AbsentRow(HourSkips(views, open), SkipConcurrency, k);
    AbsentRow(CapSkips(db, inHours), SkipBusinessHour, k);
    assert ListsAtCap(db.calls, inHours, k) <==> k in open && ListsAtCap(db.calls, views, k);
  }

  /** What the gates log, campaign by campaign: one row for each that they hold back, and none for any other. */
  ghost predicate SkipsLogged(log: seq<AuditRow>, calls: map<CallId, Call>, views: seq<CampaignView>, open: set<CampaignId>) {
    && (forall row :: row in log ==> row.Skipped? && row.event in {SkipBusinessHour, SkipConcurrency})
    && (forall k: CampaignId ::
          && multiset(log)[Skipped(SkipBusinessHour, k)] == (if k !in open && ListsCampaign(views, k) then 1 else 0)
          && multiset(log)[Skipped(SkipConcurrency, k)] == (if k in open && ListsAtCap(calls, views, k) then 1 else 0))
  }

  lemma SkipsAreLogged(db: Db, views: seq<CampaignView>, open: set<CampaignId>)
    requires OneViewEach(views)
    ensures SkipsLogged(HourSkips(views, open) + CapSkips(db, InHours(views, open)), db.calls, views, open)
  {
    var log := HourSkips(views, open) + CapSkips(db, InHours(views, open));
    GateLogMeans(db, views, open, 0);
    forall k: CampaignId
      ensures && multiset(log)[Skipped(SkipBusinessHour, k)] == (if k !in open && ListsCampaign(views, k) then 1 else 0)
              && multiset(log)[Skipped(SkipConcurrency, k)] == (if k in open && ListsAtCap(db.calls, views, k) then 1 else 0)
    {
      GateLogMeans(db, views, open, k);
    }
  }

  lemma LogSuffix(log: seq<AuditRow>, hours: seq<AuditRow>, caps: seq<AuditRow>)
    ensures var longer := log + hours + caps; longer[..|log|] == log && longer[|log|..] == hours + caps
  {
  }

  lemma DueMeans(db: Db, now: Time, k: CampaignId)
    ensures k in DueCampaigns(db, now)
       <==> exists c :: c in db.calls && db.calls[c].campaign == k && db.calls[c].status == RetryPending
              && (db.calls[c].nextAttempt == None || db.calls[c].nextAttempt.value <= now)
  {
  }

  /** The statements that claim a call and requeue a retry see these rows. */
  lemma CandidatesMean(calls: map<CallId, Call>, k: CampaignId, locked: set<CallId>, now: Time)
    ensures Claimable(calls, k, locked, now)
         == set c | c in calls && calls[c].campaign == k && calls[c].status == Queued && c !in locked
              && (calls[c].nextAttempt == None || calls[c].nextAttempt.value <= now)
    ensures Requeueable(calls, k, locked, now)
         == set c | c in calls && calls[c].campaign == k && calls[c].status == RetryPending && c !in locked
              && calls[c].nextAttempt != None && calls[c].nextAttempt.value <= now
  {
  }

  // ---- what is written over a row -------------------------------------------------------------------

  /** The row after a retry has been scheduled. */
  function Retried(was: Call, retries: int, wait: Time, now: Time): Call {
    was.(status := RetryPending, retries := retries - 1, nextAttempt := Some(now + wait), updatedAt := now)
  }

  /** What phase 3 writes when it applies. */
  lemma AnswerWrites(db: Db, claim: Claim, result: DialResult, wait: Time, now: Time)
    requires DispatchOutcome(db, claim, result, wait, now).Applied?
    ensures var m := DispatchOutcome(db, claim, result, wait, now).move;
            && m.call == claim.call && m.call in db.calls
            && var was := db.calls[m.call];
            && was.status == Dialing && was.epoch == claim.epoch
            && match result
               case Accepted(h) => m.row == was.(handle := Some(h), updatedAt := now)
               case Rejected => m.row == was.(status := Failed, updatedAt := now)
               case Unavailable =>
                 m.row == if claim.retries > 0 then Retried(was, claim.retries, wait, now) else was.(status := Failed, updatedAt := now)
  {
  }

  /** What a terminal provider report writes when it applies. */
  lemma RetryableWrites(db: Db, c: CallId, expected: CallStatus, epoch: int, retries: int, outcome: CallStatus,
                        wait: Time, now: Time)
    requires Terminal(outcome) && RetryableOutcome(db, c, expected, epoch, retries, outcome, wait, now).Applied?
    ensures var m := RetryableOutcome(db, c, expected, epoch, retries, outcome, wait, now).move;
            && m.call == c && c in db.calls
            && m.row == if outcome in {Completed, Failed} then db.calls[c].(status := outcome, updatedAt := now)
                        else if retries > 0 then Retried(db.calls[c], retries, wait, now)
                        else db.calls[c].(status := Failed, updatedAt := now)
  {
  }

  /** What a reclaim writes when it applies, and the audit row it leaves. */
  lemma ReclaimWrites(db: Db, t: Found, answer: Option<CallStatus>, now: Time)
    requires ReclaimOutcome(db, t, answer, now).Applied?
    ensures var m := ReclaimOutcome(db, t, answer, now).move;
            && m.call == t.call && m.call in db.calls && db.calls[t.call].status == Dialing && db.calls[t.call].epoch == t.row.epoch
            && var was, confirmed := db.calls[t.call],
                                     t.row.handle != None && answer != None && answer.value in {Completed, Failed, NoAnswer, Busy};
            && m.row == (if confirmed then was.(status := answer.value, updatedAt := now)
                         else was.(status := Queued, epoch := was.epoch + 1, handle := None, updatedAt := now))
            && ChangeRow(db, m) == CallChange(if confirmed then ReclaimSkippedTerminal else ReclaimExecuted, was.campaign, t.call,
                                              m.row.epoch, Dialing, m.row.status, t.row.handle)
  {
  }

  // ---- webhooks -------------------------------------------------------------------------------------

  /** The row that was looked up is terminal, and the event does not write its own status over it. */
  predicate Wins(row: Call, event: CallStatus) {
    row.status in {Completed, Failed, NoAnswer, Busy} && !(row.status == Failed && event in {NoAnswer, Busy} && row.retries <= 0)
  }

  /** A transaction that changes no call logs why, unless the event only repeats the status that was looked up. */
  lemma IgnoredMeans(db: Db, x: EventId, t: Found, wait: Time, now: Time)
    requires x in db.inbox
    requires var o := Respond(db, db.inbox[x].event, Some(t), wait, now); !o.UnknownHandle? && (o.SameState? || o.outcome.NoOp? || o.outcome.Regression?)
    ensures var after, st := WebhookTx(db, x, Some(t), wait, now), db.inbox[x].event.status;
            && after.calls == db.calls && after.campaigns == db.campaigns
            && (st == t.row.status ==> after.audit == db.audit)
            && (st != t.row.status ==>
                  after.audit == db.audit + [WebhookIgnored(Some(t.call), Wins(t.row, st))])
  {
  }
}

/**
 The transactions as the service executes them, statement by statement on mutable tables, each proved to
 have the effect that module Tables gives it.
 */
module Store {
  import opened Types
  import opened Tables
  import opened Columns

  /** Rows of one campaign whose status satisfies a test. */
  function ActiveCalls(calls: map<CallId, Call>, k: CampaignId): set<CallId> {
    set c | c in calls && calls[c].campaign == k && !Terminal(calls[c].status)
  }

  function CompletedCalls(calls: map<CallId, Call>, k: CampaignId): set<CallId> {
    set c | c in calls && calls[c].campaign == k && calls[c].status.Completed?
  }

  lemma CountsDecide(calls: map<CallId, Call>, k: CampaignId)
    ensures |ActiveCalls(calls, k)| > 0 <==> !AllTerminal(calls, k)
    ensures |CompletedCalls(calls, k)| > 0 <==> AnyCompleted(calls, k)
  {
    if c :| c in calls && calls[c].campaign == k && !Terminal(calls[c].status) {
      assert c in ActiveCalls(calls, k);
    }
    if c :| c in calls && calls[c].campaign == k && calls[c].status.Completed? {
      assert c in CompletedCalls(calls, k);
    }
    if |ActiveCalls(calls, k)| > 0 {
      var c :| c in ActiveCalls(calls, k);
    }
    if |CompletedCalls(calls, k)| > 0 {
      var c :| c in CompletedCalls(calls, k);
    }
  }

  lemma {:induction false} SameGate(a: Db, b: Db, views: seq<CampaignView>)
    requires a == b.(audit := a.audit)
    ensures UnderCap(a, views) == UnderCap(b, views) && CapSkips(a, views) == CapSkips(b, views)
  {
    if views != [] {
      SameGate(a, b, views[..|views|-1]);
    }
  }

  lemma {:induction false} LeastExists(ids: set<CampaignId>, k: CampaignId)
    requires k in ids
    ensures exists least: CampaignId :: least in ids && forall j :: j in ids ==> least <= j
    decreases k
  {
    if j :| j in ids && j < k {
      LeastExists(ids, j);
    }
  }

  /** `views` lists the campaigns of `done` in ascending id order, all before those of `rest`. */
  ghost predicate ListedSoFar(db: Db, views: seq<CampaignView>, done: set<CampaignId>, rest: set<CampaignId>) {
    && (forall i :: 0 <= i < |views| ==> views[i].id in done && views[i].id in db.campaigns && views[i] == ViewOf(db, views[i].id))
    && (forall i, j :: 0 <= i < j < |views| ==> views[i].id < views[j].id)
    && (forall i, k :: 0 <= i < |views| && k in rest ==> views[i].id < k)
    && (forall k :: k in done ==> exists i :: 0 <= i < |views| && views[i].id == k)
  }

  lemma ListsOneMore(db: Db, views: seq<CampaignView>, done: set<CampaignId>, rest: set<CampaignId>, k: CampaignId)
    requires ListedSoFar(db, views, done, rest) && k in rest && k in db.campaigns && forall j :: j in rest ==> k <= j
    ensures ListedSoFar(db, views + [ViewOf(db, k)], done + {k}, rest - {k})
  {
    var longer := views + [ViewOf(db, k)];
    assert longer[|views|].id == k;
    forall j | j in done ensures exists i :: 0 <= i < |longer| && longer[i].id == j {
      var i :| 0 <= i < |views| && views[i].id == j;
      assert longer[i].id == j;
    }
  }

  lemma EligibleColumns(db: Db, views: seq<CampaignView>)
    requires EligibleList(db, views)
    ensures forall k :: ListsCampaign(views, k) <==>
              && k in db.campaigns && db.campaigns[k].status in {PendingCampaign, ActiveCampaign}
              && exists c :: c in db.calls && db.calls[c].campaign == k && db.calls[c].status in {Queued, RetryPending}
    ensures forall v :: v in views ==>
              && v.id in db.campaigns && v.status == db.campaigns[v.id].status
              && v.maxConcurrent == db.campaigns[v.id].maxConcurrent && v.base == db.campaigns[v.id].base
              && v.cursor == (if v.id in db.cursors then Some(db.cursors[v.id]) else None)
  {
    forall k
      ensures ListsCampaign(views, k) <==>
              && k in db.campaigns && db.campaigns[k].status in {PendingCampaign, ActiveCampaign}
              && exists c :: c in db.calls && db.calls[c].campaign == k && db.calls[c].status in {Queued, RetryPending}
    {
      EligibleMeans(db, views, k);
    }
    forall i | 0 <= i < |views|
      ensures var v := views[i];
              && v.id in db.campaigns && v.status == db.campaigns[v.id].status
              && v.maxConcurrent == db.campaigns[v.id].maxConcurrent && v.base == db.campaigns[v.id].base
              && v.cursor == (if v.id in db.cursors then Some(db.cursors[v.id]) else None)
    {
      ViewMeans(db, views, i);
    }
  }

  class Database {
    var campaigns: map<CampaignId, Campaign>
    var calls: map<CallId, Call>
    var audit: seq<AuditRow>
    var inbox: map<EventId, InboxRow>
    var cursors: map<CampaignId, Time>

    function State(): (db: Db)
      reads this
    {
      Db(campaigns, calls, audit, inbox, cursors)
    }

    constructor ()
      ensures State() == Db(map[], map[], [], map[], map[])
    {
      campaigns, calls, audit, inbox, cursors := map[], map[], [], map[], map[];
    }

    // ---- app/state/campaign_terminal.py --------------------------------------------------------

    method MaybePromoteToActive(k: CampaignId)
      modifies this
      ensures State() == Promote(old(State()), k)
      ensures k in campaigns ==> !campaigns[k].status.PendingCampaign?
    {
      if k !in campaigns || !campaigns[k].status.PendingCampaign? {
        return;
      }
      campaigns := campaigns[k := campaigns[k].(status := ActiveCampaign)];
      audit := audit + [CampaignPromoted(k)];
    }

    method MaybeTransitionCampaignTerminal(k: CampaignId)
      modifies this
      ensures State() == RollUp(old(State()), k)
    {
      CountsDecide(calls, k);
      var active := |ActiveCalls(calls, k)|;
      if active > 0 {
        return;
      }
      var completed := |CompletedCalls(calls, k)|;
      var target := if completed > 0 then CompletedCampaign else FailedCampaign;
      if k !in campaigns || !campaigns[k].status.ActiveCampaign? {
        return;
      }
      campaigns := campaigns[k := campaigns[k].(status := target)];
      audit := audit + [CampaignCompleted(k, target)];
    }

    // ---- app/state/machine.py ------------------------------------------------------------------

    /** The SET list of the update: status and updated_at always, then the columns that were given. */
    static method Patch(was: Call, target: CallStatus, newEpoch: Option<int>, upd: Updates, now: Time) returns (row: Call)
      ensures row == Patched(was, target, newEpoch, upd, now)
    {
      row := was.(status := target, updatedAt := now);
      if newEpoch.Some? {
        row := row.(epoch := newEpoch.value);
      }
      if upd.handle.Some? {
        row := row.(handle := upd.handle.value);
      }
      if upd.nextAttempt.Some? {
        row := row.(nextAttempt := upd.nextAttempt);
      }
      if upd.retries.Some? {
        row := row.(retries := upd.retries.value);
      }
    }

    /** The one function that changes a call's status: guards, compare-and-set, audit row, rollup. */
    method Transition(c: CallId, expected: CallStatus, epoch: int, target: CallStatus, newEpoch: Option<int>,
                      upd: Updates, event: EventType, extra: Option<Handle>, now: Time)
      returns (o: Outcome)
      modifies this
      ensures o == Cas(old(State()), c, expected, epoch, target, newEpoch, upd, event, extra, now)
      ensures o.Applied? ==> o.move.call in old(calls)
      ensures State() == After(old(State()), o)
      ensures o.Unauthorized? <==> upd.foreign != {}
      ensures o.Regression? <==> upd.foreign == {} && expected in {Completed, Failed, NoAnswer, Busy} && target != expected
      ensures !o.Unauthorized? && !o.Regression? ==>
                (o.NoOp? <==> c !in old(calls) || old(calls)[c].status != expected || old(calls)[c].epoch != epoch)
      ensures !o.Unauthorized? && !o.Regression? && !o.NoOp? ==>
                (o.Violation? <==>
                   && target in {Queued, Dialing, InProgress} && expected !in {Queued, Dialing, InProgress}
                   && exists d :: d in old(calls) && d != c && old(calls)[d].phone == old(calls)[c].phone
                        && old(calls)[d].status in {Queued, Dialing, InProgress})
    {
      CasMeans(State(), c, expected, epoch, target, newEpoch, upd, event, extra, now);
      if upd.foreign != {} {
        return Unauthorized;
      }
      if Terminal(expected) && target != expected {
        return Regression;
      }
      if c !in calls || calls[c].status != expected || calls[c].epoch != epoch {
        return NoOp;
      }
      var row := Patch(calls[c], target, newEpoch, upd, now);
      if PhoneClash(State(), c, row) {
        return Violation;
      }
      var before := calls[c].status;
      calls := calls[c := row];
      audit := audit + [CallChange(event, row.campaign, c, row.epoch, before, target, extra)];
      if Terminal(target) {
        MaybeTransitionCampaignTerminal(row.campaign);
      }
      o := Applied(Move(c, event, row, extra));
    }

    // ---- app/persistence/repositories.py -------------------------------------------------------

    /** ORDER BY created_at LIMIT 1 over a set of candidate rows. */
    method SelectOldest(candidates: set<CallId>) returns (choice: Option<CallId>)
      requires candidates <= calls.Keys
      ensures OldestOf(calls, candidates, choice)
    {
      choice := None;
      var rest := candidates;
      while rest != {}
        invariant rest <= candidates
        invariant choice.None? ==> rest == candidates
        invariant choice.Some? ==> choice.value in candidates
        invariant choice.Some? ==> forall d :: d in candidates - rest ==> calls[choice.value].createdAt <= calls[d].createdAt
      {
        var c :| c in rest;
        if choice.None? || calls[c].createdAt < calls[choice.value].createdAt {
          choice := Some(c);
        }
        rest := rest - {c};
      }
    }

    /** The campaigns a tick may work on, in ascending id order, each with its cursor. */
    method ListEligible() returns (views: seq<CampaignView>)
      ensures EligibleList(State(), views)
      ensures forall k :: ListsCampaign(views, k) <==>
                && k in campaigns && campaigns[k].status in {PendingCampaign, ActiveCampaign}
                && exists c :: c in calls && calls[c].campaign == k && calls[c].status in {Queued, RetryPending}
      ensures forall i, j :: 0 <= i < j < |views| ==> views[i].id < views[j].id
      ensures forall v :: v in views ==>
                && v.id in campaigns && v.status == campaigns[v.id].status
                && v.maxConcurrent == campaigns[v.id].maxConcurrent && v.base == campaigns[v.id].base
                && v.cursor == (if v.id in cursors then Some(cursors[v.id]) else None)
    {
      views := [];
      var rows := set k | k in campaigns && Eligible(State(), k);
      var rest := rows;
      while rest != {}
        invariant rest <= rows && ListedSoFar(State(), views, rows - rest, rest)
      {
        var some :| some in rest;
        LeastExists(rest, some);
        var k: CampaignId :| k in rest && forall j :: j in rest ==> k <= j;
        ListsOneMore(State(), views, rows - rest, rest, k);
        assert rows - rest + {k} == rows - (rest - {k});
        views := views + [ViewOf(State(), k)];
        rest := rest - {k};
      }
      assert rows - rest == rows;
      assert forall k :: Eligible(State(), k) ==> k in rows;
      EligibleColumns(State(), views);
    }

    /** The campaigns with a retry that is due. */
    method FindRetryDueCampaignIds(now: Time) returns (due: set<CampaignId>)
      ensures due == DueCampaigns(State(), now)
      ensures forall k :: k in due <==>
                exists c :: c in calls && calls[c].campaign == k && calls[c].status == RetryPending
                  && (calls[c].nextAttempt == None || calls[c].nextAttempt.value <= now)
    {
      due := set c | c in calls && SweepDue(calls[c], now) :: calls[c].campaign;
      forall k
        ensures k in due <==>
                exists c :: c in calls && calls[c].campaign == k && calls[c].status == RetryPending
                  && (calls[c].nextAttempt == None || calls[c].nextAttempt.value <= now)
      {
        DueMeans(State(), now, k);
      }
    }

    method ClaimNextQueued(k: CampaignId, locked: set<CallId>, now: Time) returns (choice: Option<CallId>)
      modifies this`calls
      ensures OldestOf(old(calls), Claimable(old(calls), k, locked, now), choice)
      ensures choice.Some? ==> choice.value in old(calls)
      ensures calls == if choice.None? then old(calls)
                       else old(calls)[choice.value := ClaimMove(old(State()), choice.value, now).row]
      ensures var ready := set c | c in old(calls) && old(calls)[c].campaign == k && old(calls)[c].status == Queued && c !in locked
                               && (old(calls)[c].nextAttempt == None || old(calls)[c].nextAttempt.value <= now);
              && (choice.None? <==> ready == {})
              && (choice.Some? ==>
                    && choice.value in ready
                    && (forall d :: d in ready ==> old(calls)[choice.value].createdAt <= old(calls)[d].createdAt)
                    && var was := old(calls)[choice.value];
                       calls[choice.value] == was.(status := Dialing, epoch := was.epoch + 1, handle := None, updatedAt := now))
    {
      CandidatesMean(calls, k, locked, now);
      choice := SelectOldest(Claimable(calls, k, locked, now));
      if choice.Some? {
        var row := calls[choice.value];
        calls := calls[choice.value := row.(status := Dialing, epoch := row.epoch + 1, handle := None, updatedAt := now)];
      }
    }

    method InsertInbox(x: EventId, event: Event)
      modifies this
      ensures State() == InsertEvent(old(State()), x, event)
    {
      if x !in inbox {
        inbox := inbox[x := InboxRow(event, false)];
      }
    }

    method MarkProcessed(x: EventId)
      requires x in inbox
      modifies this
      ensures State() == Marked(old(State()), x)
    {
      inbox := inbox[x := inbox[x].(processed := true)];
    }

    method UpdateLastDispatchAt(k: CampaignId, stamp: Time)
      modifies this
      ensures State() == old(State()).(cursors := old(cursors)[k := stamp])
    {
      cursors := cursors[k := stamp];
    }

    method GetByProviderCallId(h: Handle) returns (target: Option<Found>)
      ensures LooksUp(calls, h, target)
    {
      var rows := set c | c in calls && calls[c].handle == Some(h);
      if rows == {} {
        assert forall c :: c in calls && calls[c].handle == Some(h) ==> c in rows;
        return None;
      }
      var c :| c in rows;
      target := Some(Found(c, calls[c]));
    }

    // ---- app/scheduler/tick.py -----------------------------------------------------------------

    /** Step 2a: keep the campaigns that are inside their window, and log the others. */
    method GateHours(views: seq<CampaignView>, open: set<CampaignId>) returns (inHours: seq<CampaignView>)
      modifies this
      ensures inHours == InHours(views, open)
      ensures State() == old(State()).(audit := old(audit) + HourSkips(views, open))
    {
      inHours := [];
      var skips: seq<AuditRow> := [];
      for i := 0 to |views|
        invariant inHours == InHours(views[..i], open)
        invariant skips == HourSkips(views[..i], open)
      {
        assert views[..i+1][..i] == views[..i];
        if views[i].id in open {
          inHours := inHours + [views[i]];
        } else {
          skips := skips + [Skipped(SkipBusinessHour, views[i].id)];
        }
      }
      assert views[..|views|] == views;
      audit := audit + skips;
    }

    /** Step 2b: keep the campaigns that are below their cap, and log the others one by one. */
    method GateCap(inHours: seq<CampaignView>) returns (capped: seq<CampaignView>)
      modifies this
      ensures capped == UnderCap(old(State()), inHours)
      ensures State() == old(State()).(audit := old(audit) + CapSkips(old(State()), inHours))
    {
      capped := [];
      for i := 0 to |inHours|
        invariant capped == UnderCap(old(State()), inHours[..i])
        invariant State() == old(State()).(audit := old(audit) + CapSkips(old(State()), inHours[..i]))
      {
        assert inHours[..i+1][..i] == inHours[..i];
        if |InFlightCalls(calls, inHours[i].id)| < inHours[i].maxConcurrent {
          capped := capped + [inHours[i]];
        } else {
          audit := audit + [Skipped(SkipConcurrency, inHours[i].id)];
        }
      }
      assert inHours[..|inHours|] == inHours;
    }

    /** Both gates: every skip is logged, and what is left has passed both. */
    method Gate(views: seq<CampaignView>, open: set<CampaignId>) returns (capped: seq<CampaignView>)
      modifies this
      ensures capped == UnderCap(old(State()), InHours(views, open))
      ensures State()
           == old(State()).(audit := old(audit) + HourSkips(views, open) + CapSkips(old(State()), InHours(views, open)))
      ensures forall v :: v in capped <==> v in views && v.id in open && !AtCap(old(calls), v)
      ensures OneViewEach(views) ==>
                && |old(audit)| <= |audit| && audit[..|old(audit)|] == old(audit)
                && SkipsLogged(audit[|old(audit)|..], old(calls), views, open)
    {
      ghost var before := State();
      PassedMeans(before, views, open);
      if OneViewEach(views) {
        SkipsAreLogged(before, views, open);
        LogSuffix(before.audit, HourSkips(views, open), CapSkips(before, InHours(views, open)));
      }
      var inHours := GateHours(views, open);
      if inHours == [] {
        assert audit + [] == audit;
        return [];
      }
      SameGate(State(), old(State()), inHours);
      capped := GateCap(inHours);
    }

    /** The transaction that moves the oldest due retry back to QUEUED. */
    method RequeueOldestRetryDue(k: CampaignId, locked: set<CallId>, now: Time)
      returns (choice: Option<CallId>, o: Outcome)
      modifies this
      ensures OldestOf(old(calls), Requeueable(old(calls), k, locked, now), choice)
      ensures choice.Some? ==> choice.value in old(calls) && o == RequeueOutcome(old(State()), choice.value, now)
      ensures choice.None? ==> o.NoOp?
      ensures o.Applied? ==> o.move.call in old(calls)
      ensures State() == After(old(State()), o)
      ensures var due := set c | c in old(calls) && old(calls)[c].campaign == k && old(calls)[c].status == RetryPending && c !in locked
                             && old(calls)[c].nextAttempt != None && old(calls)[c].nextAttempt.value <= now;
              && (choice.None? <==> due == {})
              && (choice.Some? ==>
                    && choice.value in due
                    && (forall d :: d in due ==> old(calls)[choice.value].createdAt <= old(calls)[d].createdAt)
                    && (o.Applied? ==> calls == old(calls)[choice.value := old(calls)[choice.value].(status := Queued, updatedAt := now)]))
    {
      CandidatesMean(calls, k, locked, now);
      choice := SelectOldest(Requeueable(calls, k, locked, now));
      if choice.None? {
        return None, NoOp;
      }
      o := Transition(choice.value, RetryPending, calls[choice.value].epoch, Queued, None, NO_UPDATES, CallRetryDue, None, now);
    }

    /** Phase 1 of the dispatch. */
    method ClaimForDispatch(v: CampaignView, locked: set<CallId>, now: Time) returns (claim: Option<Claim>)
      modifies this
      ensures OldestOf(old(calls), Claimable(old(calls), v.id, locked, now), if claim.Some? then Some(claim.value.call) else None)
      ensures claim.Some? ==> claim.value.call in old(calls) && claim.value == ClaimOf(old(State()), claim.value.call)
      ensures State() == if claim.None? then old(State()) else ClaimTx(old(State()), v, claim.value.call, now)
      ensures claim.Some? && v.status.PendingCampaign? && v.id in campaigns ==> !campaigns[v.id].status.PendingCampaign?
    {
      var choice := ClaimNextQueued(v.id, locked, now);
      if choice.None? {
        return None;
      }
      var c := choice.value;
      audit := audit + [CallChange(CallClaimed, calls[c].campaign, c, calls[c].epoch, Queued, Dialing, None)];
      if v.status.PendingCampaign? {
        MaybePromoteToActive(v.id);
      }
      claim := Some(Claim(c, calls[c].epoch, calls[c].retries));
    }

    /** Phase 3 of the dispatch: apply the provider's answer, then advance the cursor. */
    method SettleDispatch(v: CampaignView, claim: Claim, result: DialResult, wait: Time, now: Time, stamp: Time)
      returns (o: Outcome)
      modifies this
      ensures o == DispatchOutcome(old(State()), claim, result, wait, now)
      ensures State() == if o.Violation? then old(State()) else DispatchTx(old(State()), v, claim, result, wait, now, stamp)
      ensures o.Applied? ==>
                && claim.call in old(calls) && claim.call in calls
                && var was, row := old(calls)[claim.call], calls[claim.call];
                && was.status == Dialing && was.epoch == claim.epoch
                && match result
                   case Accepted(h) => row == was.(handle := Some(h), updatedAt := now)
                   case Rejected => row == was.(status := Failed, updatedAt := now)
                   case Unavailable =>
                     row == if claim.retries > 0 then Retried(was, claim.retries, wait, now) else was.(status := Failed, updatedAt := now)
    {
      if DispatchOutcome(State(), claim, result, wait, now).Applied? {
        AnswerWrites(State(), claim, result, wait, now);
      }
      match result {
        case Accepted(h) =>
          o := Transition(claim.call, Dialing, claim.epoch, Dialing, None, NO_UPDATES.(handle := Some(Some(h))), CallDispatch, Some(h), now);
        case Rejected =>
          o := Transition(claim.call, Dialing, claim.epoch, Failed, None, NO_UPDATES, CallTransition, None, now);
        case Unavailable =>
          if claim.retries > 0 {
            var upd := NO_UPDATES.(nextAttempt := Some(now + wait), retries := Some(claim.retries - 1));
            o := Transition(claim.call, Dialing, claim.epoch, RetryPending, None, upd, CallTransition, None, now);
          } else {
            o := Transition(claim.call, Dialing, claim.epoch, Failed, None, NO_UPDATES, CallTransition, None, now);
          }
      }
      if !o.Violation? {
        UpdateLastDispatchAt(v.id, stamp);
      }
    }

    // ---- app/state/retry_apply.py --------------------------------------------------------------

    method ApplyRetryableOutcome(c: CallId, expected: CallStatus, epoch: int, retries: int, outcome: CallStatus,
                                 wait: Time, now: Time)
      returns (o: Outcome)
      requires Terminal(outcome)
      modifies this
      ensures o == RetryableOutcome(old(State()), c, expected, epoch, retries, outcome, wait, now)
      ensures o.Applied? ==> o.move.call in old(calls)
      ensures State() == After(old(State()), o)
      ensures o.Applied? ==>
                && c in old(calls)
                && calls == old(calls)[c := if outcome in {Completed, Failed} then old(calls)[c].(status := outcome, updatedAt := now)
                                            else if retries > 0 then Retried(old(calls)[c], retries, wait, now)
                                            else old(calls)[c].(status := Failed, updatedAt := now)]
    {
      if RetryableOutcome(State(), c, expected, epoch, retries, outcome, wait, now).Applied? {
        RetryableWrites(State(), c, expected, epoch, retries, outcome, wait, now);
      }
      if outcome.Completed? || outcome.Failed? {
        o := Transition(c, expected, epoch, outcome, None, NO_UPDATES, CallTransition, None, now);
      } else if retries > 0 {
        var upd := NO_UPDATES.(nextAttempt := Some(now + wait), retries := Some(retries - 1));
        o := Transition(c, expected, epoch, RetryPending, None, upd, CallTransition, None, now);
      } else {
        o := Transition(c, expected, epoch, Failed, None, NO_UPDATES, CallTransition, None, now);
      }
    }

    // ---- app/scheduler/webhook_processor.py ----------------------------------------------------

    /** _process_one_row after its lookup; "error" leaves the row unprocessed. */
    method HandleRow(x: EventId, target: Option<Found>, wait: Time, now: Time) returns (outcome: RowOutcome)
      requires x in inbox
      modifies this
      ensures outcome == OutcomeOf(Respond(old(State()), old(inbox)[x].event, target, wait, now))
      ensures State() == WebhookTx(old(State()), x, target, wait, now)
      ensures target.None? ==> calls == old(calls) && audit == old(audit) + [WebhookIgnored(None, false)]
      ensures target.Some? && outcome.StaleRow? ==>
                var st, row := old(inbox)[x].event.status, target.value.row;
                && calls == old(calls)
                && audit == old(audit) + if st == row.status then [] else [WebhookIgnored(Some(target.value.call), Wins(row, st))]
      ensures outcome.ErrorRow? ==> State() == old(State())
    {
      if target.Some? && OutcomeOf(Respond(State(), inbox[x].event, target, wait, now)).StaleRow? {
        IgnoredMeans(State(), x, target.value, wait, now);
      }
      var event := inbox[x].event;
      if target.None? {
        audit := audit + [WebhookIgnored(None, false)];
        MarkProcessed(x);
        return StaleRow;
      }
      var t := target.value;
      if event.status == t.row.status {
        MarkProcessed(x);
        return StaleRow;
      }
      var o;
      if Terminal(event.status) {
        o := ApplyRetryableOutcome(t.call, t.row.status, t.row.epoch, t.row.retries, event.status, wait, now);
      } else {
        o := Transition(t.call, t.row.status, t.row.epoch, event.status, None, NO_UPDATES, CallTransition, None, now);
      }
      match o {
        case Violation => return ErrorRow;
        case Unauthorized => return ErrorRow;
        case Regression =>
          audit := audit + [WebhookIgnored(Some(t.call), true)];
          MarkProcessed(x);
          return StaleRow;
        case NoOp =>
          audit := audit + [WebhookIgnored(Some(t.call), false)];
          MarkProcessed(x);
          return StaleRow;
        case Applied(_) =>
          MarkProcessed(x);
          return AppliedRow;
      }
    }

    // ---- app/scheduler/reclaim.py --------------------------------------------------------------

    /** _reclaim_one_inner after the provider was asked. */
    method ReclaimOne(t: Found, answer: Option<CallStatus>, now: Time) returns (o: Outcome)
      modifies this
      ensures o == ReclaimOutcome(old(State()), t, answer, now)
      ensures o.Applied? ==> o.move.call in old(calls)
      ensures State() == After(old(State()), o)
      ensures o.Applied? ==>
                && t.call in old(calls) && |audit| > |old(audit)|
                && var was, row := old(calls)[t.call], calls[t.call];
                && was.status == Dialing && was.epoch == t.row.epoch && calls == old(calls)[t.call := row]
                && var confirmed := t.row.handle != None && answer != None && answer.value in {Completed, Failed, NoAnswer, Busy};
                && row == (if confirmed then was.(status := answer.value, updatedAt := now)
                           else was.(status := Queued, epoch := was.epoch + 1, handle := None, updatedAt := now))
                && audit[|old(audit)|] == CallChange(if confirmed then ReclaimSkippedTerminal else ReclaimExecuted, was.campaign,
                                                     t.call, row.epoch, Dialing, row.status, t.row.handle)
    {
      if ReclaimOutcome(State(), t, answer, now).Applied? {
        ReclaimWrites(State(), t, answer, now);
      }
      var confirmed: Option<CallStatus> := None;
      if t.row.handle.Some? {
        if answer.Some? && Terminal(answer.value) {
          confirmed := answer;
        }
      }
      if confirmed.Some? {
        o := Transition(t.call, Dialing, t.row.epoch, confirmed.value, None, NO_UPDATES, ReclaimSkippedTerminal, t.row.handle, now);
      } else {
        o := Transition(t.call, Dialing, t.row.epoch, Queued, Some(t.row.epoch + 1),
                        NO_UPDATES.(handle := Some(None)), ReclaimExecuted, t.row.handle, now);
      }
    }
  }

  datatype RowOutcome = AppliedRow | StaleRow | ErrorRow

  function OutcomeOf(r: Response): RowOutcome {
    match r
    case UnknownHandle => StaleRow
    case SameState => StaleRow
    case Attempted(Applied(_)) => AppliedRow
    case Attempted(Violation) => ErrorRow
    case Attempted(Unauthorized) => ErrorRow
    case Attempted(_) => StaleRow
  }

  // ---- picking a campaign ------------------------------------------------------------------------

  predicate DistinctIds(views: seq<CampaignView>) {
    forall v, w :: v in views && w in views && v.id == w.id ==> v == w
  }

  lemma PrecedesTrans(a: CampaignView, b: CampaignView, c: CampaignView)
    requires Precedes(a, b) && Precedes(b, c)
    ensures Precedes(a, c)
  {
  }

  lemma PrecedesTotal(a: CampaignView, b: CampaignView)
    requires a.id != b.id
    ensures Precedes(a, b) <==> !Precedes(b, a)
  {
  }

  /** min(views, key=_rr_sort_key). */
  method SelectEarliest(views: seq<CampaignView>) returns (v: CampaignView)
    requires views != [] && DistinctIds(views)
    ensures IsEarliest(views, v)
  {
    v := views[0];
    for i := 1 to |views|
      invariant v in views
      invariant forall j :: 0 <= j < i ==> views[j] == v || Precedes(v, views[j])
    {
      if views[i].id != v.id {
        PrecedesTotal(views[i], v);
      }
      if Precedes(views[i], v) {
        forall j | 0 <= j < i && views[j] != v ensures Precedes(views[i], views[j]) {
          PrecedesTrans(views[i], v, views[j]);
        }
        v := views[i];
      }
    }
  }

  /** Steps 3 and 4 of the tick: retries first, then round robin. */
  method Pick(capped: seq<CampaignView>, due: set<CampaignId>) returns (v: CampaignView, isRetry: bool)
    requires capped != [] && DistinctIds(capped)
    ensures IsPick(capped, due, v, isRetry)
  {
    var candidates: seq<CampaignView> := [];
    for i := 0 to |capped|
      invariant candidates == WithRetryDue(capped[..i], due)
    {
      assert capped[..i+1][..i] == capped[..i];
      if capped[i].id in due {
        candidates := candidates + [capped[i]];
      }
    }
    assert capped[..|capped|] == capped;
    isRetry := candidates != [];
    if isRetry {
      v := SelectEarliest(candidates);
    } else {
      v := SelectEarliest(capped);
    }
  }
}

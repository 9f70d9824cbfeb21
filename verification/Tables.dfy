/**
 The database and the effect of each transaction of the service on it, as functions.
 Each function describes one transaction body; module Store has the statements that compute it.
 */
module Tables {
  import opened Types
  import opened AuditLog

  datatype Db = Db(
    campaigns: map<CampaignId, Campaign>,
    calls: map<CallId, Call>,
    audit: seq<AuditRow>,
    inbox: map<EventId, InboxRow>,
    cursors: map<CampaignId, Time>)

  // ---- state.transition ------------------------------------------------------------------------

  /** The column updates of one transition; `foreign` names columns outside the allow-list. */
  datatype Updates = Updates(
    handle: Option<Option<Handle>>,
    nextAttempt: Option<Time>,
    retries: Option<int>,
    foreign: set<string>)

  const NO_UPDATES := Updates(None, None, None, {})

  /** A call row about to be written, with the audit row that goes with it. */
  datatype Move = Move(call: CallId, event: EventType, row: Call, extra: Option<Handle>)

  /** What `transition` can do: refuse, miss, hit the phone index, or apply a move. */
  datatype Outcome = Unauthorized | Regression | NoOp | Violation | Applied(move: Move)

  function Patched(row: Call, target: CallStatus, newEpoch: Option<int>, upd: Updates, now: Time): Call {
    row.(status := target,
         updatedAt := now,
         epoch := if newEpoch.Some? then newEpoch.value else row.epoch,
         handle := if upd.handle.Some? then upd.handle.value else row.handle,
         nextAttempt := if upd.nextAttempt.Some? then upd.nextAttempt else row.nextAttempt,
         retries := if upd.retries.Some? then upd.retries.value else row.retries)
  }

  /** Writing `row` over call `c` would put a second row of its phone into the unique index. */
  predicate PhoneClash(db: Db, c: CallId, row: Call)
    requires c in db.calls
  {
    && HoldsPhone(row.status) && !HoldsPhone(db.calls[c].status)
    && exists d :: d in db.calls && d != c && db.calls[d].phone == row.phone && HoldsPhone(db.calls[d].status)
  }

  function Cas(db: Db, c: CallId, expected: CallStatus, epoch: int, target: CallStatus,
               newEpoch: Option<int>, upd: Updates, event: EventType, extra: Option<Handle>, now: Time): Outcome
  {
    if upd.foreign != {} then Unauthorized
    else if Terminal(expected) && target != expected then Regression
    else if c !in db.calls || db.calls[c].status != expected || db.calls[c].epoch != epoch then NoOp
    else
      var row := Patched(db.calls[c], target, newEpoch, upd, now);
      if PhoneClash(db, c, row) then Violation else Applied(Move(c, event, row, extra))
  }

  function ChangeRow(db: Db, m: Move): AuditRow
    requires m.call in db.calls
  {
    CallChange(m.event, m.row.campaign, m.call, m.row.epoch, db.calls[m.call].status, m.row.status, m.extra)
  }

  function Written(db: Db, m: Move): Db
    requires m.call in db.calls
  {
    db.(calls := db.calls[m.call := m.row], audit := db.audit + [ChangeRow(db, m)])
  }

  /** Write the row, append its audit row, and roll the campaign up after a terminal status. */
  function Commit(db: Db, m: Move): Db
    requires m.call in db.calls
  {
    if Terminal(m.row.status) then RollUp(Written(db, m), m.row.campaign) else Written(db, m)
  }

  /** The state after a transition: only an applied one leaves a trace. */
  function After(db: Db, o: Outcome): Db
    requires o.Applied? ==> o.move.call in db.calls
  {
    if o.Applied? then Commit(db, o.move) else db
  }

  // ---- campaign rollup and promotion -----------------------------------------------------------

  predicate AllTerminal(calls: map<CallId, Call>, k: CampaignId) {
    forall c :: c in calls && calls[c].campaign == k ==> Terminal(calls[c].status)
  }

  predicate AnyCompleted(calls: map<CallId, Call>, k: CampaignId) {
    exists c :: c in calls && calls[c].campaign == k && calls[c].status.Completed?
  }

  function Verdict(calls: map<CallId, Call>, k: CampaignId): CampaignStatus {
    if AnyCompleted(calls, k) then CompletedCampaign else FailedCampaign
  }

  function RollUp(db: Db, k: CampaignId): Db {
    if AllTerminal(db.calls, k) && k in db.campaigns && db.campaigns[k].status.ActiveCampaign? then
      var verdict := Verdict(db.calls, k);
      db.(campaigns := db.campaigns[k := db.campaigns[k].(status := verdict)],
          audit := db.audit + [CampaignCompleted(k, verdict)])
    else db
  }

  function Promote(db: Db, k: CampaignId): Db {
    if k in db.campaigns && db.campaigns[k].status.PendingCampaign? then
      db.(campaigns := db.campaigns[k := db.campaigns[k].(status := ActiveCampaign)],
          audit := db.audit + [CampaignPromoted(k)])
    else db
  }

  // ---- scheduler tick --------------------------------------------------------------------------

  /** A row of list_eligible_for_tick: the campaign columns a tick carries along, plus the cursor. */
  datatype CampaignView = CampaignView(
    id: CampaignId, status: CampaignStatus, maxConcurrent: int, base: real, cursor: Option<Time>)

  function CursorOf(db: Db, k: CampaignId): Option<Time> {
    if k in db.cursors then Some(db.cursors[k]) else None
  }

  function ViewOf(db: Db, k: CampaignId): CampaignView
    requires k in db.campaigns
  {
    var row := db.campaigns[k];
    CampaignView(k, row.status, row.maxConcurrent, row.base, CursorOf(db, k))
  }

  predicate HasWork(db: Db, k: CampaignId) {
    exists c :: c in db.calls && db.calls[c].campaign == k && (db.calls[c].status.Queued? || db.calls[c].status.RetryPending?)
  }

  predicate Eligible(db: Db, k: CampaignId) {
    && k in db.campaigns
    && (db.campaigns[k].status.PendingCampaign? || db.campaigns[k].status.ActiveCampaign?)
    && HasWork(db, k)
  }

  /** `views` is the answer of list_eligible_for_tick: the eligible campaigns in ascending id order. */
  ghost predicate EligibleList(db: Db, views: seq<CampaignView>) {
    && (forall i :: 0 <= i < |views| ==> Eligible(db, views[i].id) && views[i] == ViewOf(db, views[i].id))
    && (forall i, j :: 0 <= i < j < |views| ==> views[i].id < views[j].id)
    && (forall k :: Eligible(db, k) ==> exists i :: 0 <= i < |views| && views[i].id == k)
  }

  function InFlightCalls(calls: map<CallId, Call>, k: CampaignId): set<CallId> {
    set c | c in calls && calls[c].campaign == k && InFlight(calls[c].status)
  }

  /** The campaigns inside their window; `open` answers is_in_window at the tick's instant. */
  function InHours(views: seq<CampaignView>, open: set<CampaignId>): (r: seq<CampaignView>)
    ensures forall v :: v in r <==> v in views && v.id in open
  {
    if views == [] then []
    else InHours(views[..|views|-1], open) + if views[|views|-1].id in open then [views[|views|-1]] else []
  }

  function HourSkips(views: seq<CampaignView>, open: set<CampaignId>): (r: seq<AuditRow>)
    ensures Inert(r)
  {
    if views == [] then []
    else
      HourSkips(views[..|views|-1], open)
      + if views[|views|-1].id in open then [] else [Skipped(SkipBusinessHour, views[|views|-1].id)]
  }

  predicate BelowCap(db: Db, v: CampaignView) {
    |InFlightCalls(db.calls, v.id)| < v.maxConcurrent
  }

  function UnderCap(db: Db, views: seq<CampaignView>): (r: seq<CampaignView>)
    ensures forall v :: v in r <==> v in views && BelowCap(db, v)
  {
    if views == [] then []
    else UnderCap(db, views[..|views|-1]) + if BelowCap(db, views[|views|-1]) then [views[|views|-1]] else []
  }

  function CapSkips(db: Db, views: seq<CampaignView>): (r: seq<AuditRow>)
    ensures Inert(r)
  {
    if views == [] then []
    else
      CapSkips(db, views[..|views|-1])
      + if BelowCap(db, views[|views|-1]) then [] else [Skipped(SkipConcurrency, views[|views|-1].id)]
  }

  /** A RETRY_PENDING row counts as due for the sweep when its time is null or has come. */
  predicate SweepDue(row: Call, now: Time) {
    row.status.RetryPending? && (row.nextAttempt.None? || row.nextAttempt.value <= now)
  }

  /** The requeue statement asks for a non-null time. */
  predicate RequeueDue(row: Call, now: Time) {
    row.status.RetryPending? && row.nextAttempt.Some? && row.nextAttempt.value <= now
  }

  predicate ClaimDue(row: Call, now: Time) {
    row.status.Queued? && (row.nextAttempt.None? || row.nextAttempt.value <= now)
  }

  function DueCampaigns(db: Db, now: Time): set<CampaignId> {
    set c | c in db.calls && SweepDue(db.calls[c], now) :: db.calls[c].campaign
  }

  function WithRetryDue(views: seq<CampaignView>, due: set<CampaignId>): (r: seq<CampaignView>)
    ensures forall v :: v in r <==> v in views && v.id in due
  {
    if views == [] then []
    else WithRetryDue(views[..|views|-1], due) + if views[|views|-1].id in due then [views[|views|-1]] else []
  }

  /** _rr_sort_key as an order: never dispatched first, then the oldest cursor, then the id. */
  predicate Precedes(a: CampaignView, b: CampaignView) {
    if a.cursor.None? then b.cursor.Some? || a.id < b.id
    else b.cursor.Some? && (a.cursor.value < b.cursor.value || (a.cursor.value == b.cursor.value && a.id < b.id))
  }

  /** The element that min(views, key=_rr_sort_key) returns. */
  ghost predicate IsEarliest(views: seq<CampaignView>, v: CampaignView) {
    v in views && forall w :: w in views ==> w == v || Precedes(v, w)
  }

  /** Steps 3 and 4: the earliest campaign with a due retry, or else the earliest campaign. */
  ghost predicate IsPick(capped: seq<CampaignView>, due: set<CampaignId>, v: CampaignView, isRetry: bool) {
    var candidates := WithRetryDue(capped, due);
    if candidates != [] then isRetry && IsEarliest(candidates, v) else !isRetry && IsEarliest(capped, v)
  }

  /** ORDER BY created_at LIMIT 1 over `candidates`. */
  ghost predicate OldestOf(calls: map<CallId, Call>, candidates: set<CallId>, choice: Option<CallId>) {
    match choice
    case None => candidates == {}
    case Some(c) => c in candidates && forall d :: d in candidates && d in calls && c in calls ==> calls[c].createdAt <= calls[d].createdAt
  }

  function Requeueable(calls: map<CallId, Call>, k: CampaignId, locked: set<CallId>, now: Time): set<CallId> {
    set c | c in calls && calls[c].campaign == k && RequeueDue(calls[c], now) && c !in locked
  }

  function Claimable(calls: map<CallId, Call>, k: CampaignId, locked: set<CallId>, now: Time): set<CallId> {
    set c | c in calls && calls[c].campaign == k && ClaimDue(calls[c], now) && c !in locked
  }

  function RequeueOutcome(db: Db, c: CallId, now: Time): Outcome
    requires c in db.calls
  {
    Cas(db, c, RetryPending, db.calls[c].epoch, Queued, None, NO_UPDATES, CallRetryDue, None, now)
  }

  function ClaimMove(db: Db, c: CallId, now: Time): Move
    requires c in db.calls
  {
    var row := db.calls[c];
    Move(c, CallClaimed, row.(status := Dialing, epoch := row.epoch + 1, handle := None, updatedAt := now), None)
  }

  /** Phase 1: claim, CLAIMED row, and promotion when the tick's own copy says PENDING. */
  function ClaimTx(db: Db, v: CampaignView, c: CallId, now: Time): Db
    requires c in db.calls
  {
    var claimed := Commit(db, ClaimMove(db, c, now));
    if v.status.PendingCampaign? then Promote(claimed, v.id) else claimed
  }

  /** The columns of the claimed row that phases 2 and 3 use. */
  datatype Claim = Claim(call: CallId, epoch: int, retries: int)

  function ClaimOf(db: Db, c: CallId): Claim
    requires c in db.calls
  {
    Claim(c, db.calls[c].epoch + 1, db.calls[c].retries)
  }

  datatype DialResult = Accepted(handle: Handle) | Rejected | Unavailable

  /** Phase 3, the transition; `wait` is the delay compute_backoff drew, should a retry be scheduled. */
  function DispatchOutcome(db: Db, claim: Claim, result: DialResult, wait: Time, now: Time): Outcome {
    match result
    case Accepted(h) =>
      Cas(db, claim.call, Dialing, claim.epoch, Dialing, None, NO_UPDATES.(handle := Some(Some(h))), CallDispatch, Some(h), now)
    case Rejected =>
      Cas(db, claim.call, Dialing, claim.epoch, Failed, None, NO_UPDATES, CallTransition, None, now)
    case Unavailable =>
      if claim.retries > 0 then
        Cas(db, claim.call, Dialing, claim.epoch, RetryPending, None,
            NO_UPDATES.(nextAttempt := Some(now + wait), retries := Some(claim.retries - 1)),
            CallTransition, None, now)
      else
        Cas(db, claim.call, Dialing, claim.epoch, Failed, None, NO_UPDATES, CallTransition, None, now)
  }

  /** Phase 3: the transition, then the round-robin cursor, applied or not. */
  function DispatchTx(db: Db, v: CampaignView, claim: Claim, result: DialResult, wait: Time, now: Time, stamp: Time): Db
    requires !DispatchOutcome(db, claim, result, wait, now).Violation?
  {
    var d := After(db, DispatchOutcome(db, claim, result, wait, now));
    d.(cursors := d.cursors[v.id := stamp])
  }

  // ---- webhooks --------------------------------------------------------------------------------

  /** Inserting a known (provider, event id) changes nothing. */
  function InsertEvent(db: Db, x: EventId, event: Event): Db {
    if x in db.inbox then db else db.(inbox := db.inbox[x := InboxRow(event, false)])
  }

  function Marked(db: Db, x: EventId): Db
    requires x in db.inbox
  {
    db.(inbox := db.inbox[x := db.inbox[x].(processed := true)])
  }

  /** apply_retryable_outcome, with the delay its compute_backoff drew. */
  function RetryableOutcome(db: Db, c: CallId, expected: CallStatus, epoch: int, retries: int,
                            outcome: CallStatus, wait: Time, now: Time): Outcome
    requires Terminal(outcome)
  {
    if outcome.Completed? || outcome.Failed? then
      Cas(db, c, expected, epoch, outcome, None, NO_UPDATES, CallTransition, None, now)
    else if retries > 0 then
      Cas(db, c, expected, epoch, RetryPending, None,
          NO_UPDATES.(nextAttempt := Some(now + wait), retries := Some(retries - 1)),
          CallTransition, None, now)
    else
      Cas(db, c, expected, epoch, Failed, None, NO_UPDATES, CallTransition, None, now)
  }

  /** The row get_by_provider_call_id returned, with its id. */
  datatype Found = Found(call: CallId, row: Call)

  /** The answer of get_by_provider_call_id. */
  ghost predicate LooksUp(calls: map<CallId, Call>, h: Handle, target: Option<Found>) {
    match target
    case None => forall c :: c in calls ==> calls[c].handle != Some(h)
    case Some(t) => t.call in calls && calls[t.call] == t.row && t.row.handle == Some(h)
  }

  datatype Response = UnknownHandle | SameState | Attempted(outcome: Outcome)

  /** What _process_one_row decides, from the row it looked up earlier in its transaction. */
  function Respond(db: Db, event: Event, target: Option<Found>, wait: Time, now: Time): Response
  {
    match target
    case None => UnknownHandle
    case Some(t) =>
      if event.status == t.row.status then SameState
      else if Terminal(event.status) then
        Attempted(RetryableOutcome(db, t.call, t.row.status, t.row.epoch, t.row.retries, event.status, wait, now))
      else
        Attempted(Cas(db, t.call, t.row.status, t.row.epoch, event.status, None, NO_UPDATES, CallTransition, None, now))
  }

  /** The whole transaction that handles inbox row `x`; a violation raises and rolls back. */
  function WebhookTx(db: Db, x: EventId, target: Option<Found>, wait: Time, now: Time): Db
    requires x in db.inbox
  {
    match Respond(db, db.inbox[x].event, target, wait, now)
    case UnknownHandle => Marked(db.(audit := db.audit + [WebhookIgnored(None, false)]), x)
    case SameState => Marked(db, x)
    case Attempted(Applied(m)) => Marked(Commit(db, m), x)
    case Attempted(Regression) => Marked(db.(audit := db.audit + [WebhookIgnored(Some(target.value.call), true)]), x)
    case Attempted(NoOp) => Marked(db.(audit := db.audit + [WebhookIgnored(Some(target.value.call), false)]), x)
    case Attempted(_) => db
  }

  // ---- reclaim ---------------------------------------------------------------------------------

  /** _reclaim_one_inner after the provider was asked; `answer` is what get_status gave, if anything. */
  function ReclaimOutcome(db: Db, t: Found, answer: Option<CallStatus>, now: Time): Outcome {
    if t.row.handle.Some? && answer.Some? && Terminal(answer.value) then
      Cas(db, t.call, Dialing, t.row.epoch, answer.value, None, NO_UPDATES, ReclaimSkippedTerminal, t.row.handle, now)
    else
      Cas(db, t.call, Dialing, t.row.epoch, Queued, Some(t.row.epoch + 1),
          NO_UPDATES.(handle := Some(None)), ReclaimExecuted, t.row.handle, now)
  }

  // ---- campaign creation -----------------------------------------------------------------------

  /** The rows create_campaign inserts: one QUEUED call at epoch 0 for each phone. */
  ghost predicate FreshBatch(db: Db, k: CampaignId, campaign: Campaign, batch: map<CallId, Call>, now: Time) {
    && k !in db.campaigns
    && k !in db.cursors
    && campaign.status == PendingCampaign
    && campaign.maxConcurrent >= 1 && campaign.maxAttempts >= 0 && campaign.base >= 1.0
    && batch != map[]
    && (forall c :: c in batch ==>
          && c !in db.calls
          && batch[c] == Call(k, batch[c].phone, Queued, 0, campaign.maxAttempts, None, None, now, now))
    && (forall c, d :: c in batch && d in batch && c != d ==> batch[c].phone != batch[d].phone)
    && (forall c, d :: c in batch && d in db.calls && HoldsPhone(db.calls[d].status) ==> batch[c].phone != db.calls[d].phone)
  }

  function CreateTx(db: Db, k: CampaignId, campaign: Campaign, batch: map<CallId, Call>): Db {
    db.(campaigns := db.campaigns[k := campaign], calls := db.calls + batch)
  }
}

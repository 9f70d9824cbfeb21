/**
 The service as a transition system: any number of scheduler replicas, webhook processors and reclaim
 tasks act on one database, one transaction (or one read) at a time, in any order. An actor keeps what it
 read in an earlier transaction in its own program counter, where it may be out of date.
 */
module Protocol {
  import opened Types
  import opened Backoff
  import opened Tables

  /** Where one scheduler replica is inside `tick`. */
  datatype Replica =
    | Idle
    | Listed(views: seq<CampaignView>)
    | Gated(capped: seq<CampaignView>)
    | Picked(view: CampaignView)
    | Ready(view: CampaignView, isRetry: bool)
    | HasClaim(view: CampaignView, isRetry: bool, claim: Claim)
    | Placed(view: CampaignView, isRetry: bool, claim: Claim, result: DialResult)

  /** A webhook processor between its lookup and its commit; it holds the lock of the inbox row. */
  datatype Lookup = Lookup(inboxId: EventId, target: Option<Found>)

  /** One reclaim task: the stuck row as the sweep saw it, then the provider's answer. */
  datatype Reclaimer = Stuck(target: Found) | Asked(target: Found, answer: Option<CallStatus>)

  /** `issued` is the provider's own table from idempotency keys to handles. */
  datatype State = State(
    db: Db,
    issued: map<(CallId, int), Handle>,
    replicas: seq<Replica>,
    lookups: map<nat, Lookup>,
    reclaims: map<nat, Reclaimer>,
    now: Time,
    stuckAfter: Time)

  datatype Step =
    | Advance(t: Time)
    | Create(k: CampaignId, campaign: Campaign, batch: map<CallId, Call>)
    | List(i: nat, views: seq<CampaignView>)
    | Gate(i: nat, open: set<CampaignId>)
    | Sweep(i: nat, view: CampaignView, isRetry: bool)
    | Requeue(i: nat, choice: Option<CallId>, locked: set<CallId>)
    | ClaimNext(i: nat, choice: Option<CallId>, locked: set<CallId>)
    | Place(i: nat, result: DialResult, minted: Option<Handle>)
    | Settle(i: nat, wait: Time, stamp: Time)
    | Crash(i: nat)
    | Deliver(x: EventId, event: Event)
    | Look(p: nat, x: EventId, target: Option<Found>)
    | Finish(p: nat, wait: Time)
    | AbortWebhook(p: nat)
    | FindStuck(r: nat, c: CallId)
    | Ask(r: nat, answer: Option<CallStatus>)
    | Reclaim(r: nat)
    | AbortReclaim(r: nat)

  // ---- locks -----------------------------------------------------------------------------------

  /** The open transaction of a replica may hold the lock of call `c`. */
  predicate ReplicaMayLock(r: Replica, c: CallId, row: Call) {
    match r
    case Picked(v) => v.id == row.campaign
    case Ready(v, _) => v.id == row.campaign
    case Placed(_, _, claim, _) => claim.call == c
    case _ => false
  }

  predicate SameVersion(a: Call, b: Call) {
    a.status == b.status && a.epoch == b.epoch
  }

  /** SKIP LOCKED may pass over `c` only if some other actor's open transaction can have updated it. */
  ghost predicate MayBeLocked(s: State, i: nat, c: CallId)
    requires c in s.db.calls
  {
    || (exists j :: 0 <= j < |s.replicas| && j != i && ReplicaMayLock(s.replicas[j], c, s.db.calls[c]))
    || (exists p :: p in s.lookups && s.lookups[p].target.Some? && s.lookups[p].target.value.call == c
          && SameVersion(s.lookups[p].target.value.row, s.db.calls[c]))
    || (exists r :: r in s.reclaims && s.reclaims[r].target.call == c && s.db.calls[c].status.Dialing?)
  }

  ghost predicate LocksOK(s: State, i: nat, locked: set<CallId>) {
    forall c :: c in locked ==> c in s.db.calls && MayBeLocked(s, i, c)
  }

  // ---- steps -----------------------------------------------------------------------------------

  predicate At(s: State, i: nat) { i < |s.replicas| }

  function SettleOutcome(s: State, i: nat, wait: Time): Outcome
    requires At(s, i) && s.replicas[i].Placed?
  {
    var r := s.replicas[i];
    DispatchOutcome(s.db, r.claim, r.result, wait, s.now)
  }

  predicate CanRespond(s: State, p: nat) {
    && p in s.lookups
    && s.lookups[p].inboxId in s.db.inbox
    && (s.lookups[p].target.Some? ==> s.lookups[p].target.value.row.campaign in s.db.campaigns)
  }

  function FinishResponse(s: State, p: nat, wait: Time): Response
    requires CanRespond(s, p)
  {
    Respond(s.db, s.db.inbox[s.lookups[p].inboxId].event, s.lookups[p].target, wait, s.now)
  }

  predicate Raises(o: Outcome) { o.Violation? || o.Unauthorized? }

  predicate ReadyToReclaim(s: State, r: nat) {
    r in s.reclaims && (s.reclaims[r].Asked? || s.reclaims[r].target.row.handle.None?)
  }

  function ReclaimAnswer(r: Reclaimer): Option<CallStatus> {
    if r.Asked? then r.answer else None
  }

  function ReclaimResult(s: State, r: nat): Outcome
    requires r in s.reclaims
  {
    Tables.ReclaimOutcome(s.db, s.reclaims[r].target, ReclaimAnswer(s.reclaims[r]), s.now)
  }

  ghost predicate Enabled(s: State, step: Step) {
    match step
    case Advance(t) => s.now <= t
    case Create(k, campaign, batch) => FreshBatch(s.db, k, campaign, batch, s.now)
    case List(i, views) => At(s, i) && s.replicas[i].Idle? && EligibleList(s.db, views)
    case Gate(i, _) => At(s, i) && s.replicas[i].Listed?
    case Sweep(i, view, isRetry) =>
      && At(s, i) && s.replicas[i].Gated?
      && IsPick(s.replicas[i].capped, DueCampaigns(s.db, s.now), view, isRetry)
    case Requeue(i, choice, locked) =>
      && At(s, i) && s.replicas[i].Picked? && LocksOK(s, i, locked)
      && OldestOf(s.db.calls, Requeueable(s.db.calls, s.replicas[i].view.id, locked, s.now), choice)
    case ClaimNext(i, choice, locked) =>
      && At(s, i) && s.replicas[i].Ready? && LocksOK(s, i, locked)
      && OldestOf(s.db.calls, Claimable(s.db.calls, s.replicas[i].view.id, locked, s.now), choice)
    case Place(i, result, minted) =>
      && At(s, i) && s.replicas[i].HasClaim?
      && var key := (s.replicas[i].claim.call, s.replicas[i].claim.epoch);
      && (minted.Some? ==> key !in s.issued)
      && (result.Accepted? ==> minted == Some(result.handle) || (key in s.issued && s.issued[key] == result.handle))
    case Settle(i, wait, _) =>
      && At(s, i) && s.replicas[i].Placed? && IsBackoff(wait, s.replicas[i].claim.epoch, s.replicas[i].view.base)
      && !Raises(SettleOutcome(s, i, wait))
    case Crash(i) => At(s, i)
    case Deliver(_, _) => true
    case Look(p, x, target) =>
      && p !in s.lookups
      && x in s.db.inbox && !s.db.inbox[x].processed
      && (forall q :: q in s.lookups ==> s.lookups[q].inboxId != x)
      && LooksUp(s.db.calls, s.db.inbox[x].event.handle, target)
    case Finish(p, wait) =>
      && CanRespond(s, p)
      && (s.lookups[p].target.Some? ==>
            var row := s.lookups[p].target.value.row; IsBackoff(wait, row.epoch, s.db.campaigns[row.campaign].base))
      && (FinishResponse(s, p, wait).Attempted? ==> !Raises(FinishResponse(s, p, wait).outcome))
    case AbortWebhook(p) => p in s.lookups
    case FindStuck(r, c) =>
      && r !in s.reclaims && c in s.db.calls && s.db.calls[c].status.Dialing?
      && s.db.calls[c].updatedAt < s.now - s.stuckAfter
    case Ask(r, _) => r in s.reclaims && s.reclaims[r].Stuck? && s.reclaims[r].target.row.handle.Some?
    case Reclaim(r) => ReadyToReclaim(s, r) && !Raises(ReclaimResult(s, r))
    case AbortReclaim(r) => r in s.reclaims
  }

  /** The one call row a step writes, if it writes any. */
  function MoveOf(s: State, step: Step): Option<Move>
    requires Enabled(s, step)
  {
    match step
    case Requeue(_, Some(c), _) => MoveIn(RequeueOutcome(s.db, c, s.now))
    case ClaimNext(_, Some(c), _) => Some(ClaimMove(s.db, c, s.now))
    case Settle(i, wait, _) => MoveIn(SettleOutcome(s, i, wait))
    case Finish(p, wait) =>
      var response := FinishResponse(s, p, wait);
      if response.Attempted? then MoveIn(response.outcome) else None
    case Reclaim(r) => MoveIn(ReclaimResult(s, r))
    case _ => None
  }

  function MoveIn(o: Outcome): Option<Move> {
    if o.Applied? then Some(o.move) else None
  }

  function NextDb(s: State, step: Step): Db
    requires Enabled(s, step)
  {
    match step
    case Create(k, campaign, batch) => CreateTx(s.db, k, campaign, batch)
    case Gate(i, open) =>
      var views := s.replicas[i].views;
      s.db.(audit := s.db.audit + HourSkips(views, open) + CapSkips(s.db, InHours(views, open)))
    case Requeue(_, Some(c), _) => After(s.db, RequeueOutcome(s.db, c, s.now))
    case ClaimNext(i, Some(c), _) => ClaimTx(s.db, s.replicas[i].view, c, s.now)
    case Settle(i, wait, stamp) =>
      var r := s.replicas[i];
      DispatchTx(s.db, r.view, r.claim, r.result, wait, s.now, stamp)
    case Deliver(x, event) => InsertEvent(s.db, x, event)
    case Finish(p, wait) => WebhookTx(s.db, s.lookups[p].inboxId, s.lookups[p].target, wait, s.now)
    case Reclaim(r) => After(s.db, ReclaimResult(s, r))
    case _ => s.db
  }

  /** The program counter of the replica that takes the step. */
  function NextReplica(s: State, step: Step): Replica
    requires Enabled(s, step) && ActingReplica(step).Some?
  {
    match step
    case List(i, views) => if views == [] then Idle else Listed(views)
    case Gate(i, open) =>
      var capped := UnderCap(s.db, InHours(s.replicas[i].views, open));
      if capped == [] then Idle else Gated(capped)
    case Sweep(_, view, isRetry) => if isRetry then Picked(view) else Ready(view, false)
    case Requeue(i, choice, _) =>
      if choice.Some? && Raises(RequeueOutcome(s.db, choice.value, s.now)) then Idle
      else Ready(s.replicas[i].view, true)
    case ClaimNext(i, None, _) => Idle
    case ClaimNext(i, Some(c), _) => HasClaim(s.replicas[i].view, s.replicas[i].isRetry, ClaimOf(s.db, c))
    case Place(i, result, _) => Placed(s.replicas[i].view, s.replicas[i].isRetry, s.replicas[i].claim, result)
    case _ => Idle
  }

  function ActingReplica(step: Step): Option<nat> {
    match step
    case List(i, _) => Some(i)
    case Gate(i, _) => Some(i)
    case Sweep(i, _, _) => Some(i)
    case Requeue(i, _, _) => Some(i)
    case ClaimNext(i, _, _) => Some(i)
    case Place(i, _, _) => Some(i)
    case Settle(i, _, _) => Some(i)
    case Crash(i) => Some(i)
    case _ => None
  }

  function NextReplicas(s: State, step: Step): seq<Replica>
    requires Enabled(s, step)
  {
    match ActingReplica(step)
    case Some(i) => s.replicas[i := NextReplica(s, step)]
    case None => s.replicas
  }

  function NextLookups(s: State, step: Step): map<nat, Lookup> {
    match step
    case Look(p, x, target) => s.lookups[p := Lookup(x, target)]
    case Finish(p, _) => s.lookups - {p}
    case AbortWebhook(p) => s.lookups - {p}
    case _ => s.lookups
  }

  function NextReclaims(s: State, step: Step): map<nat, Reclaimer>
    requires Enabled(s, step)
  {
    match step
    case FindStuck(r, c) => s.reclaims[r := Stuck(Found(c, s.db.calls[c]))]
    case Ask(r, answer) => s.reclaims[r := Asked(s.reclaims[r].target, answer)]
    case Reclaim(r) => s.reclaims - {r}
    case AbortReclaim(r) => s.reclaims - {r}
    case _ => s.reclaims
  }

  function NextIssued(s: State, step: Step): map<(CallId, int), Handle>
    requires Enabled(s, step)
  {
    match step
    case Place(i, _, Some(h)) => s.issued[(s.replicas[i].claim.call, s.replicas[i].claim.epoch) := h]
    case _ => s.issued
  }

  function Apply(s: State, step: Step): State
    requires Enabled(s, step)
  {
    State(NextDb(s, step), NextIssued(s, step), NextReplicas(s, step), NextLookups(s, step),
          NextReclaims(s, step), if step.Advance? then step.t else s.now, s.stuckAfter)
  }

  ghost predicate Init(s: State, n: nat) {
    && s.db == Db(map[], map[], [], map[], map[])
    && s.issued == map[] && s.lookups == map[] && s.reclaims == map[]
    && |s.replicas| == n && forall i :: 0 <= i < n ==> s.replicas[i].Idle?
  }

  // ---- premises --------------------------------------------------------------------------------

  /** H1: the statuses a provider reports. */
  predicate ProviderStatus(st: CallStatus) {
    !st.Queued? && !st.RetryPending?
  }

  function Rank(st: CallStatus): nat {
    if Terminal(st) then 2 else if st.InProgress? then 1 else 0
  }

  /** A terminal event of handle `h` has been processed. */
  ghost predicate Done(inbox: map<EventId, InboxRow>, h: Handle) {
    exists x :: x in inbox && inbox[x].processed && inbox[x].event.handle == h && Terminal(inbox[x].event.status)
  }

  /** An IN_PROGRESS or terminal event of handle `h` has been processed. */
  ghost predicate Started(inbox: map<EventId, InboxRow>, h: Handle) {
    exists x :: x in inbox && inbox[x].processed && inbox[x].event.handle == h && Rank(inbox[x].event.status) >= 1
  }

  /** H2: per handle, events are drained as DIALING*, IN_PROGRESS*, one terminal, then nothing. */
  ghost predicate InOrder(inbox: map<EventId, InboxRow>, event: Event) {
    && ProviderStatus(event.status)
    && !Done(inbox, event.handle)
    && (event.status.Dialing? ==> !Started(inbox, event.handle))
  }

  /** Which premises on the environment a run meets. */
  datatype Premises = Premises(
    h1: bool,       // provider events carry provider statuses only
    h2: bool,       // each handle's events are drained in order, and nothing after its terminal one
    h3: bool,       // distinct idempotency keys get distinct handles
    h4: bool,       // the clock that writes cursors strictly increases
    serial: bool,   // two webhook transactions never have the same call looked up at once
    phones: bool)   // no phone number is uploaded twice

  const NO_PREMISES := Premises(false, false, false, false, false, false)

  ghost predicate Meets(p: Premises, s: State, step: Step) {
    && (p.h1 ==> H1(step))
    && (p.h2 ==> H1(step) && H2(s, step))
    && (p.h3 ==> H3(s, step))
    && (p.h4 ==> H4(s, step))
    && (p.serial ==> Serial(s, step))
    && (p.phones ==> NewPhones(s, step))
  }

  predicate H1(step: Step) {
    step.Deliver? ==> ProviderStatus(step.event.status)
  }

  ghost predicate H2(s: State, step: Step) {
    && (step.Look? && step.x in s.db.inbox ==> InOrder(s.db.inbox, s.db.inbox[step.x].event))
    && (step.Finish? && step.p in s.lookups && s.lookups[step.p].inboxId in s.db.inbox ==>
          InOrder(s.db.inbox, s.db.inbox[s.lookups[step.p].inboxId].event))
  }

  predicate H3(s: State, step: Step) {
    step.Place? && step.minted.Some? ==> step.minted.value !in s.issued.Values
  }

  predicate H4(s: State, step: Step) {
    step.Settle? ==> forall k :: k in s.db.cursors ==> s.db.cursors[k] < step.stamp
  }

  ghost predicate Serial(s: State, step: Step) {
    step.Look? && step.target.Some? ==>
      forall q :: q in s.lookups && s.lookups[q].target.Some? ==> s.lookups[q].target.value.call != step.target.value.call
  }

  ghost predicate NewPhones(s: State, step: Step) {
    step.Create? ==>
      forall c, d :: c in step.batch && d in s.db.calls ==> step.batch[c].phone != s.db.calls[d].phone
  }

  // ---- runs ------------------------------------------------------------------------------------

  /** `steps` can be taken one after the other from `s`, each meeting the premises. */
  ghost predicate IsRun(p: Premises, s: State, steps: seq<Step>)
    decreases |steps|
  {
    steps == []
    || (Enabled(s, steps[0]) && Meets(p, s, steps[0]) && IsRun(p, Apply(s, steps[0]), steps[1..]))
  }

  ghost function Run(p: Premises, s: State, steps: seq<Step>): State
    requires IsRun(p, s, steps)
    decreases |steps|
  {
    if steps == [] then s else Run(p, Apply(s, steps[0]), steps[1..])
  }

  /** Some run from the empty database with `n` idle replicas ends in `s`. */
  ghost predicate Reachable(p: Premises, n: nat, s: State) {
    exists init, steps :: Init(init, n) && IsRun(p, init, steps) && Run(p, init, steps) == s
  }

  lemma {:induction false} RunSnoc(p: Premises, s: State, steps: seq<Step>, step: Step)
    requires IsRun(p, s, steps)
    requires Enabled(Run(p, s, steps), step) && Meets(p, Run(p, s, steps), step)
    ensures IsRun(p, s, steps + [step]) && Run(p, s, steps + [step]) == Apply(Run(p, s, steps), step)
    decreases |steps|
  {
    if steps == [] {
      assert [step][1..] == [] && steps + [step] == [step];
    } else {
      assert (steps + [step])[1..] == steps[1..] + [step];
      RunSnoc(p, Apply(s, steps[0]), steps[1..], step);
    }
  }

  /** One more step from a reachable state is reachable. */
  lemma ReachNext(p: Premises, n: nat, s: State, step: Step)
    requires Reachable(p, n, s) && Enabled(s, step) && Meets(p, s, step)
    ensures Reachable(p, n, Apply(s, step))
  {
    var init, steps :| Init(init, n) && IsRun(p, init, steps) && Run(p, init, steps) == s;
    RunSnoc(p, init, steps, step);
  }

  lemma ReachInit(p: Premises, n: nat, s: State)
    requires Init(s, n)
    ensures Reachable(p, n, s)
  {
    assert IsRun(p, s, []) && Run(p, s, []) == s;
  }

  /** Every premise in `q` is in `p`. */
  predicate Covers(p: Premises, q: Premises) {
    && (q.h1 ==> p.h1) && (q.h2 ==> p.h2) && (q.h3 ==> p.h3)
    && (q.h4 ==> p.h4) && (q.serial ==> p.serial) && (q.phones ==> p.phones)
  }

  lemma {:induction false} RunWithFewer(p: Premises, q: Premises, s: State, steps: seq<Step>)
    requires Covers(p, q) && IsRun(p, s, steps)
    ensures IsRun(q, s, steps) && Run(q, s, steps) == Run(p, s, steps)
    decreases |steps|
  {
    if steps != [] {
      RunWithFewer(p, q, Apply(s, steps[0]), steps[1..]);
    }
  }

  /** What is reachable under more premises is reachable under fewer. */
  lemma ReachableWithFewer(p: Premises, q: Premises, n: nat, s: State)
    requires Covers(p, q) && Reachable(p, n, s)
    ensures Reachable(q, n, s)
  {
    var init, steps :| Init(init, n) && IsRun(p, init, steps) && Run(p, init, steps) == s;
    RunWithFewer(p, q, init, steps);
  }

  /** The actors of the model can take the system from `s` to `s'`. */
  ghost predicate Leads(s: State, s': State) {
    exists steps :: IsRun(NO_PREMISES, s, steps) && Run(NO_PREMISES, s, steps) == s'
  }

  lemma LeadsNowhere(s: State)
    ensures Leads(s, s)
  {
    assert IsRun(NO_PREMISES, s, []) && Run(NO_PREMISES, s, []) == s;
  }

  lemma LeadsNext(s: State, s': State, step: Step)
    requires Leads(s, s') && Enabled(s', step)
    ensures Leads(s, Apply(s', step))
  {
    var steps :| IsRun(NO_PREMISES, s, steps) && Run(NO_PREMISES, s, steps) == s';
    RunSnoc(NO_PREMISES, s, steps, step);
  }

  lemma {:induction false} RunConcat(p: Premises, s: State, front: seq<Step>, back: seq<Step>)
    requires IsRun(p, s, front) && IsRun(p, Run(p, s, front), back)
    ensures IsRun(p, s, front + back) && Run(p, s, front + back) == Run(p, Run(p, s, front), back)
    decreases |front|
  {
    if front == [] {
      assert front + back == back;
    } else {
      assert (front + back)[1..] == front[1..] + back;
      RunConcat(p, Apply(s, front[0]), front[1..], back);
    }
  }

  lemma LeadsOn(s: State, middle: State, s': State)
    requires Leads(s, middle) && Leads(middle, s')
    ensures Leads(s, s')
  {
    var front :| IsRun(NO_PREMISES, s, front) && Run(NO_PREMISES, s, front) == middle;
    var back :| IsRun(NO_PREMISES, middle, back) && Run(NO_PREMISES, middle, back) == s';
    RunConcat(NO_PREMISES, s, front, back);
  }

  /** Where the actors can take a reachable state is reachable. */
  lemma LeadsToReachable(n: nat, s: State, s': State)
    requires Reachable(NO_PREMISES, n, s) && Leads(s, s')
    ensures Reachable(NO_PREMISES, n, s')
  {
    var init, front :| Init(init, n) && IsRun(NO_PREMISES, init, front) && Run(NO_PREMISES, init, front) == s;
    var back :| IsRun(NO_PREMISES, s, back) && Run(NO_PREMISES, s, back) == s';
    RunConcat(NO_PREMISES, init, front, back);
  }
}

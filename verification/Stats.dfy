/** The campaign statistics: one aggregate pass over a campaign's calls, and what its numbers mean. */
module Stats {
  import opened Types
  import opened AuditLog
  import opened Protocol
  import opened Shape
  import opened Attempts

  datatype CampaignStats = CampaignStats(total: nat, completed: nat, failed: nat, retriesAttempted: int, inProgress: nat)

  /** `order` lists the calls of campaign `k`, each once; the order does not matter to the aggregates. */
  ghost predicate Lists(order: seq<CallId>, calls: map<CallId, Call>, k: CampaignId) {
    && (forall i :: 0 <= i < |order| ==> order[i] in calls && calls[order[i]].campaign == k)
    && (forall i, j :: 0 <= i < j < |order| ==> order[i] != order[j])
    && (forall c :: c in calls && calls[c].campaign == k ==> c in order)
  }

  function AtLeastZero(n: int): int {
    if n < 0 then 0 else n
  }

  /** The sum of `term` over the listed calls that it covers. */
  function Sum(order: seq<CallId>, term: map<CallId, int>): int {
    if order == [] then 0
    else Sum(order[..|order|-1], term) + if order[|order|-1] in term then term[order[|order|-1]] else 0
  }

  /** How many of the listed calls are in `group`. */
  function Count(order: seq<CallId>, group: set<CallId>): nat {
    if order == [] then 0 else Count(order[..|order|-1], group) + if order[|order|-1] in group then 1 else 0
  }

  function WithStatus(calls: map<CallId, Call>, k: CampaignId, statuses: set<CallStatus>): set<CallId> {
    set c | c in calls && calls[c].campaign == k && calls[c].status in statuses
  }

  function Redials(calls: map<CallId, Call>): map<CallId, int> {
    map c | c in calls :: AtLeastZero(calls[c].epoch - 1)
  }

  const WORKING: set<CallStatus> := {Queued, Dialing, InProgress, RetryPending}
  const MISSED: set<CallStatus> := {Failed, NoAnswer, Busy}

  lemma OneMore(order: seq<CallId>, i: nat, group: set<CallId>)
    requires i < |order|
    ensures Count(order[..i+1], group) == Count(order[..i], group) + if order[i] in group then 1 else 0
  {
    assert order[..i+1][..i] == order[..i];
  }

  lemma AddOne(order: seq<CallId>, i: nat, term: map<CallId, int>)
    requires i < |order| && order[i] in term
    ensures Sum(order[..i+1], term) == Sum(order[..i], term) + term[order[i]]
  {
    assert order[..i+1][..i] == order[..i];
  }

  lemma TallyNext(calls: map<CallId, Call>, k: CampaignId, order: seq<CallId>, i: nat)
    requires Lists(order, calls, k) && i < |order|
    ensures var row, done, next := calls[order[i]], order[..i], order[..i+1];
            && Count(next, WithStatus(calls, k, {Completed}))
               == Count(done, WithStatus(calls, k, {Completed})) + (if row.status.Completed? then 1 else 0)
            && Count(next, WithStatus(calls, k, MISSED))
               == Count(done, WithStatus(calls, k, MISSED)) + (if row.status in MISSED then 1 else 0)
            && Count(next, WithStatus(calls, k, WORKING))
               == Count(done, WithStatus(calls, k, WORKING)) + (if row.status in WORKING then 1 else 0)
            && Sum(next, Redials(calls)) == Sum(done, Redials(calls)) + (if row.epoch > 1 then row.epoch - 1 else 0)
  {
    OneMore(order, i, WithStatus(calls, k, {Completed}));
    OneMore(order, i, WithStatus(calls, k, MISSED));
    OneMore(order, i, WithStatus(calls, k, WORKING));
    AddOne(order, i, Redials(calls));
  }

  /** The aggregate query, one row at a time. */
  method Aggregate(calls: map<CallId, Call>, k: CampaignId, order: seq<CallId>) returns (stats: CampaignStats)
    requires Lists(order, calls, k)
    ensures stats.total == |order|
    ensures stats.completed == Count(order, WithStatus(calls, k, {Completed}))
    ensures stats.failed == Count(order, WithStatus(calls, k, MISSED))
    ensures stats.inProgress == Count(order, WithStatus(calls, k, WORKING))
    ensures stats.retriesAttempted == Sum(order, Redials(calls))
    ensures stats.completed + stats.failed + stats.inProgress == stats.total
  {
    var completed, failed, retriesAttempted, inProgress := 0, 0, 0, 0;
    for i := 0 to |order|
      invariant completed == Count(order[..i], WithStatus(calls, k, {Completed}))
      invariant failed == Count(order[..i], WithStatus(calls, k, MISSED))
      invariant inProgress == Count(order[..i], WithStatus(calls, k, WORKING))
      invariant retriesAttempted == Sum(order[..i], Redials(calls))
      invariant completed + failed + inProgress == i
    {
      TallyNext(calls, k, order, i);
      var row := calls[order[i]];
      if row.status.Completed? {
        completed := completed + 1;
      }
      if row.status in MISSED {
        failed := failed + 1;
      }
      if row.status in WORKING {
        inProgress := inProgress + 1;
      }
      retriesAttempted := retriesAttempted + if row.epoch > 1 then row.epoch - 1 else 0;
    }
    stats := CampaignStats(|order|, completed, failed, retriesAttempted, inProgress);
    assert order[..|order|] == order;
  }

  /**
   CampaignRepo.stats: the number of calls, of those that completed, of those that ended otherwise, of those that have
   not ended, and of all attempts after a first one.
   */
  method StatsOf(calls: map<CallId, Call>, k: CampaignId, order: seq<CallId>) returns (stats: CampaignStats)
    requires Lists(order, calls, k)
    ensures stats.total == |order|
    ensures stats.completed == Count(order, WithStatus(calls, k, {Completed}))
    ensures stats.failed == Count(order, WithStatus(calls, k, MISSED))
    ensures stats.inProgress == Count(order, WithStatus(calls, k, WORKING))
    ensures stats.retriesAttempted == Sum(order, Redials(calls))
    ensures stats.completed + stats.failed + stats.inProgress == stats.total
    ensures stats.total == |set c | c in calls && calls[c].campaign == k|
    ensures stats.completed == |set c | c in calls && calls[c].campaign == k && calls[c].status == Completed|
    ensures stats.failed == |set c | c in calls && calls[c].campaign == k && Terminal(calls[c].status) && calls[c].status != Completed|
    ensures stats.inProgress == |set c | c in calls && calls[c].campaign == k && !Terminal(calls[c].status)|
    ensures stats.retriesAttempted == |set c, e: int | c in calls && calls[c].campaign == k && 2 <= e <= calls[c].epoch :: (c, e)|
  {
    stats := Aggregate(calls, k, order);
    NumbersMean(calls, k, order);
    RedialsArePairs(calls, k, order);
  }

  /** The groups, described without a list of statuses. */
  lemma GroupsMean(calls: map<CallId, Call>, k: CampaignId)
    ensures WithStatus(calls, k, {Completed}) == set c | c in calls && calls[c].campaign == k && calls[c].status == Completed
    ensures WithStatus(calls, k, MISSED)
         == set c | c in calls && calls[c].campaign == k && Terminal(calls[c].status) && calls[c].status != Completed
    ensures WithStatus(calls, k, WORKING) == set c | c in calls && calls[c].campaign == k && !Terminal(calls[c].status)
  {
  }

  /** Each count is the number of calls of the campaign in its group. */
  lemma CountsMean(calls: map<CallId, Call>, k: CampaignId, order: seq<CallId>)
    requires Lists(order, calls, k)
    ensures |order| == |set c | c in calls && calls[c].campaign == k|
    ensures Count(order, WithStatus(calls, k, {Completed})) == |WithStatus(calls, k, {Completed})|
    ensures Count(order, WithStatus(calls, k, MISSED)) == |WithStatus(calls, k, MISSED)|
    ensures Count(order, WithStatus(calls, k, WORKING)) == |WithStatus(calls, k, WORKING)|
  {
    ListingSize(order);
    assert Members(order) == set c | c in calls && calls[c].campaign == k;
    CountsAreSizes(calls, k, order, {Completed});
    CountsAreSizes(calls, k, order, MISSED);
    CountsAreSizes(calls, k, order, WORKING);
  }

  lemma NumbersMean(calls: map<CallId, Call>, k: CampaignId, order: seq<CallId>)
    requires Lists(order, calls, k)
    ensures |order| == |set c | c in calls && calls[c].campaign == k|
    ensures Count(order, WithStatus(calls, k, {Completed}))
         == |set c | c in calls && calls[c].campaign == k && calls[c].status == Completed|
    ensures Count(order, WithStatus(calls, k, MISSED))
         == |set c | c in calls && calls[c].campaign == k && Terminal(calls[c].status) && calls[c].status != Completed|
    ensures Count(order, WithStatus(calls, k, WORKING))
         == |set c | c in calls && calls[c].campaign == k && !Terminal(calls[c].status)|
  {
    CountsMean(calls, k, order);
    GroupsMean(calls, k);
  }

  function Members(order: seq<CallId>): set<CallId> {
    set c | c in order
  }

  lemma {:induction false} ListingSize(order: seq<CallId>)
    requires forall i, j :: 0 <= i < j < |order| ==> order[i] != order[j]
    ensures |Members(order)| == |order|
  {
    if order != [] {
      var last, front := order[|order|-1], order[..|order|-1];
      ListingSize(front);
      assert order == front + [last];
      assert Members(order) == Members(front) + {last};
    }
  }

  /** The attempts of a call after its first. */
  function LaterAttempts(c: CallId, epoch: int): set<(CallId, int)> {
    set e: int | 2 <= e <= epoch :: (c, e)
  }

  lemma {:induction false} LaterAttemptsSize(c: CallId, epoch: int)
    ensures |LaterAttempts(c, epoch)| == if epoch > 1 then epoch - 1 else 0
    decreases if epoch > 1 then epoch else 0
  {
    if epoch > 1 {
      LaterAttemptsSize(c, epoch - 1);
      assert LaterAttempts(c, epoch) == LaterAttempts(c, epoch - 1) + {(c, epoch)};
    } else {
      assert LaterAttempts(c, epoch) == {};
    }
  }

  function AttemptsAfterFirst(calls: map<CallId, Call>, order: seq<CallId>): set<(CallId, int)> {
    set c, e: int | c in order && c in calls && 2 <= e <= calls[c].epoch :: (c, e)
  }

  lemma {:induction false} SumIsAttempts(calls: map<CallId, Call>, order: seq<CallId>)
    requires forall i, j :: 0 <= i < j < |order| ==> order[i] != order[j]
    requires forall c :: c in order ==> c in calls
    ensures Sum(order, Redials(calls)) == |AttemptsAfterFirst(calls, order)|
  {
    if order == [] {
      assert AttemptsAfterFirst(calls, order) == {};
    } else {
      var last, front := order[|order|-1], order[..|order|-1];
      assert order == front + [last];
      SumIsAttempts(calls, front);
      LaterAttemptsSize(last, calls[last].epoch);
      assert AttemptsAfterFirst(calls, order) == AttemptsAfterFirst(calls, front) + LaterAttempts(last, calls[last].epoch);
    }
  }

  lemma RedialsArePairs(calls: map<CallId, Call>, k: CampaignId, order: seq<CallId>)
    requires Lists(order, calls, k)
    ensures Sum(order, Redials(calls)) == |set c, e: int | c in calls && calls[c].campaign == k && 2 <= e <= calls[c].epoch :: (c, e)|
  {
    SumIsAttempts(calls, order);
    assert AttemptsAfterFirst(calls, order)
        == set c, e: int | c in calls && calls[c].campaign == k && 2 <= e <= calls[c].epoch :: (c, e);
  }

  function Listed(order: seq<CallId>, group: set<CallId>): set<CallId> {
    set c | c in group && c in order
  }

  lemma ListedAppend(front: seq<CallId>, last: CallId, group: set<CallId>)
    requires last !in front
    ensures |Listed(front + [last], group)| == |Listed(front, group)| + if last in group then 1 else 0
  {
    var was, now := Listed(front, group), Listed(front + [last], group);
    if last in group {
      assert now == was + {last};
    } else {
      assert now == was;
    }
  }

  /** Counting along a listing without repeats gives the size of the group's listed part. */
  lemma {:induction false} CountIsSize(order: seq<CallId>, group: set<CallId>)
    requires forall i, j :: 0 <= i < j < |order| ==> order[i] != order[j]
    ensures Count(order, group) == |Listed(order, group)|
  {
    if order != [] {
      var last, front := order[|order|-1], order[..|order|-1];
      assert order == front + [last];
      CountIsSize(front, group);
      ListedAppend(front, last, group);
    }
  }

  /** Every listing of a campaign gives the same numbers: the sizes of the groups of calls. */
  lemma CountsAreSizes(calls: map<CallId, Call>, k: CampaignId, order: seq<CallId>, statuses: set<CallStatus>)
    requires Lists(order, calls, k)
    ensures Count(order, WithStatus(calls, k, statuses)) == |WithStatus(calls, k, statuses)|
  {
    CountIsSize(order, WithStatus(calls, k, statuses));
    assert Listed(order, WithStatus(calls, k, statuses)) == WithStatus(calls, k, statuses);
  }

  // ---- what retries_attempted counts -----------------------------------------------------------

  /** The claims and reclaims the log shows for each call, less the first dial. */
  ghost function LoggedRedials(s: State): map<CallId, int> {
    map c | c in s.db.calls ::
      var dials := Rows(HistoryOf(s, c), CallClaimed) + Rows(HistoryOf(s, c), ReclaimExecuted);
      if dials == 0 then 0 else dials - 1
  }

  lemma SameRedials(s: State)
    requires forall c :: c in s.db.calls ==>
               s.db.calls[c].epoch == Rows(HistoryOf(s, c), CallClaimed) + Rows(HistoryOf(s, c), ReclaimExecuted)
    ensures Redials(s.db.calls) == LoggedRedials(s)
  {
  }

  /** In every reachable state, retries_attempted is the sum of max(claims + reclaims - 1, 0) over the calls. */
  lemma RetriesAttemptedCountsRedials(p: Premises, n: nat, s: State, k: CampaignId, order: seq<CallId>)
    requires Reachable(p, n, s) && Lists(order, s.db.calls, k)
    ensures Sum(order, Redials(s.db.calls)) == Sum(order, LoggedRedials(s))
  {
    forall c | c in s.db.calls
      ensures s.db.calls[c].epoch == Rows(HistoryOf(s, c), CallClaimed) + Rows(HistoryOf(s, c), ReclaimExecuted)
    {
      EpochIsClaimsPlusReclaims(p, n, s, c);
    }
    SameRedials(s);
  }
}

/**
 A run from the empty database, under every premise and with one scheduler, in which a campaign with a queued
 call and free capacity waits while the scheduler keeps picking a campaign that has nothing to dial.
 */
module IdleRun {
  import opened Types
  import opened Backoff
  import opened Tables
  import opened Protocol
  import opened WorkConservation
  import opened Runs

  const CONFIG := Campaign(PendingCampaign, 2, 2, 1.0)

  function Fresh(k: CampaignId, c: CallId): Call {
    Call(k, c, Queued, 0, 2, None, None, 0.0, 0.0)
  }

  /** Campaign 0 has call 0, campaign 1 has calls 1 and 2; call 2 was never dialled. */
  ghost predicate Two(s: State, zero: Call, one: Call) {
    && s.now == 0.0 && s.replicas == [Idle]
    && s.db.calls == map[0 := zero, 1 := one, 2 := Fresh(1, 2)]
    && Configured(s.db)
  }

  ghost predicate Configured(db: Db) {
    && db.campaigns.Keys == {0, 1}
    && forall k :: k in db.campaigns ==>
         db.campaigns[k] == CONFIG.(status := db.campaigns[k].status) && !Concluded(db.campaigns[k].status)
  }

  function Failed1(): Call {
    Fresh(0, 0).(status := RetryPending, epoch := 1, retries := 1, nextAttempt := Some(1.0))
  }

  function Dialled1(): Call {
    Fresh(1, 1).(status := Dialing, epoch := 1, handle := Some(7))
  }

  lemma Uploads(before: State, k: CampaignId, batch: map<CallId, Call>) returns (s: State)
    requires Reachable(EVERY, 1, before) && FreshBatch(before.db, k, CONFIG, batch, before.now)
    requires forall c, d :: c in batch && d in before.db.calls ==> batch[c].phone != before.db.calls[d].phone
    ensures Reachable(EVERY, 1, s)
    ensures s == before.(db := before.db.(campaigns := before.db.campaigns[k := CONFIG], calls := before.db.calls + batch))
  {
    ReachNext(EVERY, 1, before, Create(k, CONFIG, batch));
    s := Apply(before, Create(k, CONFIG, batch));
  }

  function FirstBatch(): map<CallId, Call> {
    map[0 := Fresh(0, 0)]
  }

  function SecondBatch(): map<CallId, Call> {
    map[1 := Fresh(1, 1), 2 := Fresh(1, 2)]
  }

  lemma BatchesFit(empty: Db, one: Db)
    requires empty == Db(map[], map[], [], map[], map[])
    requires one.campaigns.Keys == {0} && one.cursors == map[] && one.calls == FirstBatch()
    ensures FreshBatch(empty, 0, CONFIG, FirstBatch(), 0.0)
    ensures FreshBatch(one, 1, CONFIG, SecondBatch(), 0.0)
    ensures empty.calls + FirstBatch() == FirstBatch()
    ensures one.calls + SecondBatch() == map[0 := Fresh(0, 0), 1 := Fresh(1, 1), 2 := Fresh(1, 2)]
  {
    assert 0 in FirstBatch() && 1 in SecondBatch();
  }

  lemma Uploaded() returns (s: State)
    ensures Reachable(EVERY, 1, s) && Two(s, Fresh(0, 0), Fresh(1, 1)) && s.db.cursors == map[] && s.issued == map[]
  {
    var init := State(Db(map[], map[], [], map[], map[]), map[], [Idle], map[], map[], 0.0, 1.0);
    BatchesFit(init.db, init.db.(campaigns := map[0 := CONFIG], calls := FirstBatch()));
    ReachInit(EVERY, 1, init);
    var one := Uploads(init, 0, FirstBatch());
    BatchesFit(init.db, one.db);
    s := Uploads(one, 1, SecondBatch());
  }

  function Views(db: Db): seq<CampaignView>
    requires db.campaigns.Keys == {0, 1}
  {
    [ViewOf(db, 0), ViewOf(db, 1)]
  }

  predicate Workable(row: Call) {
    row.status.Queued? || row.status == RetryPending
  }

  predicate Waiting(zero: Call, one: Call) {
    && Workable(zero) && zero.campaign == 0 && one.campaign == 1
    && (zero.status.RetryPending? ==> zero.nextAttempt == Some(1.0))
    && (one.status.Queued? || one.status.Dialing?)
  }

  lemma BothListed(s: State, zero: Call, one: Call)
    requires Two(s, zero, one) && Waiting(zero, one)
    ensures EligibleList(s.db, Views(s.db))
  {
    assert s.db.calls[0] == zero && s.db.calls[2] == Fresh(1, 2);
    assert Eligible(s.db, 0) && Eligible(s.db, 1);
    assert Views(s.db)[0].id == 0 && Views(s.db)[1].id == 1;
  }

  /** Both campaigns are listed and pass the gate, and no retry is due. */
  lemma BothPass(s: State, zero: Call, one: Call)
    requires Two(s, zero, one) && Waiting(zero, one)
    ensures EligibleList(s.db, Views(s.db)) && DueCampaigns(s.db, s.now) == {}
    ensures BelowCap(s.db, ViewOf(s.db, 0)) && BelowCap(s.db, ViewOf(s.db, 1))
  {
    BothListed(s, zero, one);
    assert InFlightCalls(s.db.calls, 0) == {};
    assert InFlightCalls(s.db.calls, 1) == if one.status.Dialing? then {1} else {};
  }

  /** A ready tick claims call `c` of campaign `k`, the oldest that is queued. */
  lemma ReadyClaims(ready: State, zero: Call, one: Call, v: CampaignView, c: CallId) returns (s: State)
    requires Acts(EVERY, 1, ready, 0, Ready(v, false)) && Two(ready.(replicas := [Idle]), zero, one) && |ready.replicas| == 1
    requires c in ready.db.calls && ready.db.calls[c] == Fresh(v.id, c) && zero.createdAt == 0.0 && one.createdAt == 0.0
    ensures Reachable(EVERY, 1, s) && s.replicas == [HasClaim(v, false, Claim(c, 1, 2))]
    ensures s == ready.(db := s.db, replicas := s.replicas) && Configured(s.db) && s.db.cursors == ready.db.cursors
    ensures s.db.calls == ready.db.calls[c := Fresh(v.id, c).(status := Dialing, epoch := 1)]
  {
    var candidates := Claimable(ready.db.calls, v.id, {}, 0.0);
    forall d | d in candidates ensures ready.db.calls[d].createdAt == 0.0 {
      assert d in ready.db.calls && (d == 0 ==> ready.db.calls[d] == zero);
      assert d == 1 ==> ready.db.calls[d] == one;
    }
    Takes(EVERY, 1, ready, 0, v, c);
    TakenTables(ready.db, v, c, 0.0);
    s := With(ready.(db := ClaimTx(ready.db, v, c, 0.0)), 0, HasClaim(v, false, ClaimOf(ready.db, c)));
  }

  /** One tick up to its claim: it picks the earlier campaign `k` and claims call `c`. */
  lemma TickClaims(before: State, zero: Call, one: Call, k: CampaignId, c: CallId) returns (s: State)
    requires Reachable(EVERY, 1, before) && Two(before, zero, one) && Waiting(zero, one) && one == Fresh(1, 1)
    requires zero.createdAt == 0.0 && k < 2 && c in before.db.calls && before.db.calls[c] == Fresh(k, c)
    requires IsEarliest(Views(before.db), ViewOf(before.db, k))
    ensures Reachable(EVERY, 1, s) && s.replicas == [HasClaim(ViewOf(before.db, k), false, Claim(c, 1, 2))]
    ensures s == before.(db := s.db, replicas := s.replicas) && Configured(s.db) && s.db.cursors == before.db.cursors
    ensures s.db.calls == before.db.calls[c := Fresh(k, c).(status := Dialing, epoch := 1)]
  {
    var v := ViewOf(before.db, k);
    BothPass(before, zero, one);
    GetsReady(EVERY, 1, before, 0, Views(before.db), {0, 1}, v);
    s := ReadyClaims(With(before, 0, Ready(v, false)), zero, one, v, c);
  }

  lemma FailureWrites(db: Db, row: Call)
    requires 0 in db.calls && db.calls[0] == row && row.status.Dialing? && row.epoch == 1
    ensures var o := DispatchOutcome(db, Claim(0, 1, 2), Unavailable, 1.0, 0.0);
            o.Applied? && o.move.row == row.(status := RetryPending, retries := 1, nextAttempt := Some(1.0), updatedAt := 0.0)
  {
  }

  lemma SuccessWrites(db: Db, row: Call)
    requires 1 in db.calls && db.calls[1] == row && row.status.Dialing? && row.epoch == 1
    ensures var o := DispatchOutcome(db, Claim(1, 1, 2), Accepted(7), 1.0, 0.0);
            o.Applied? && o.move.row == row.(handle := Some(7), updatedAt := 0.0)
  {
  }

  lemma FailureTables(db: Db, v: CampaignView)
    requires Configured(db) && v.id == 0 && db.cursors == map[]
    requires db.calls == map[0 := Fresh(0, 0).(status := Dialing, epoch := 1), 1 := Fresh(1, 1), 2 := Fresh(1, 2)]
    ensures !DispatchOutcome(db, Claim(0, 1, 2), Unavailable, 1.0, 0.0).Violation?
    ensures var after := DispatchTx(db, v, Claim(0, 1, 2), Unavailable, 1.0, 0.0, 0.0);
            && Configured(after) && after.cursors == map[0 := 0.0]
            && after.calls == map[0 := Failed1(), 1 := Fresh(1, 1), 2 := Fresh(1, 2)]
  {
    FailureWrites(db, db.calls[0]);
    SettledTables(db, v, Claim(0, 1, 2), Unavailable, 1.0, 0.0, 0.0);
  }

  lemma SuccessTables(db: Db, v: CampaignView)
    requires Configured(db) && v.id == 1 && db.cursors == map[0 := 0.0]
    requires db.calls == map[0 := Failed1(), 1 := Fresh(1, 1).(status := Dialing, epoch := 1), 2 := Fresh(1, 2)]
    ensures !DispatchOutcome(db, Claim(1, 1, 2), Accepted(7), 1.0, 0.0).Violation?
    ensures var after := DispatchTx(db, v, Claim(1, 1, 2), Accepted(7), 1.0, 0.0, 1.0);
            && Configured(after) && after.cursors == map[0 := 0.0, 1 := 1.0]
            && after.calls == map[0 := Failed1(), 1 := Dialled1(), 2 := Fresh(1, 2)]
  {
    SuccessWrites(db, db.calls[1]);
    SettledTables(db, v, Claim(1, 1, 2), Accepted(7), 1.0, 0.0, 1.0);
  }

  /** The first tick dials campaign 0; the provider is unavailable, so its call waits for one second. */
  lemma FirstTick() returns (s: State)
    ensures Reachable(EVERY, 1, s) && Two(s, Failed1(), Fresh(1, 1)) && s.db.cursors == map[0 := 0.0] && s.issued == map[]
  {
    var before := Uploaded();
    var v, claim := ViewOf(before.db, 0), Claim(0, 1, 2);
    assert Views(before.db)[0] in Views(before.db);
    var claimed := TickClaims(before, Fresh(0, 0), Fresh(1, 1), 0, 0);
    DialFails(EVERY, 1, claimed, 0, v, claim);
    var placed := With(claimed, 0, Placed(v, false, claim, Unavailable));
    assert IsBackoff(1.0, 1, 1.0);
    Settles(EVERY, 1, placed, 0, v, claim, Unavailable, 1.0, 0.0);
    FailureTables(placed.db, v);
    s := With(placed.(db := DispatchTx(placed.db, v, claim, Unavailable, 1.0, 0.0, 0.0)), 0, Idle);
  }

  /** The provider accepts call 1, and its campaign comes after campaign 0 from then on. */
  lemma SecondDial(claimed: State, v: CampaignView) returns (s: State)
    requires Reachable(EVERY, 1, claimed) && claimed.replicas == [HasClaim(v, false, Claim(1, 1, 2))]
    requires v.id == 1 && v.base == 1.0 && claimed.now == 0.0 && claimed.issued == map[]
    requires Configured(claimed.db) && claimed.db.cursors == map[0 := 0.0]
    requires claimed.db.calls == map[0 := Failed1(), 1 := Fresh(1, 1).(status := Dialing, epoch := 1), 2 := Fresh(1, 2)]
    ensures Reachable(EVERY, 1, s) && Two(s, Failed1(), Dialled1()) && s.db.cursors == map[0 := 0.0, 1 := 1.0]
  {
    var claim := Claim(1, 1, 2);
    Dials(EVERY, 1, claimed, 0, v, claim, 7);
    var placed := With(claimed.(issued := claimed.issued[(1, 1) := 7]), 0, Placed(v, false, claim, Accepted(7)));
    assert IsBackoff(1.0, 1, 1.0);
    Settles(EVERY, 1, placed, 0, v, claim, Accepted(7), 1.0, 1.0);
    SuccessTables(placed.db, v);
    s := With(placed.(db := DispatchTx(placed.db, v, claim, Accepted(7), 1.0, 0.0, 1.0)), 0, Idle);
  }

  /** The second tick dials campaign 1. */
  lemma SecondTick() returns (s: State)
    ensures Reachable(EVERY, 1, s) && Two(s, Failed1(), Dialled1()) && s.db.cursors == map[0 := 0.0, 1 := 1.0]
  {
    var before := FirstTick();
    assert Views(before.db)[1] in Views(before.db);
    var claimed := TickClaims(before, Failed1(), Fresh(1, 1), 1, 1);
    s := SecondDial(claimed, ViewOf(before.db, 1));
  }

  function IdleTick(db: Db): seq<Step>
    requires db.campaigns.Keys == {0, 1}
  {
    [List(0, Views(db)), Gate(0, {0, 1}), Sweep(0, ViewOf(db, 0), false), ClaimNext(0, None, {})]
  }

  lemma RunCons(s: State, a: Step, t: State, rest: seq<Step>)
    requires Enabled(s, a) && Meets(EVERY, s, a) && Apply(s, a) == t && IsRun(EVERY, t, rest)
    ensures IsRun(EVERY, s, [a] + rest) && Run(EVERY, s, [a] + rest) == Run(EVERY, t, rest)
  {
    assert ([a] + rest)[1..] == rest;
  }

  lemma ListsBoth(s: State)
    requires Two(s, Failed1(), Dialled1())
    ensures Enabled(s, List(0, Views(s.db))) && Apply(s, List(0, Views(s.db))) == With(s, 0, Listed(Views(s.db)))
  {
    BothPass(s, Failed1(), Dialled1());
  }

  lemma GateMoves(s: State, inHours: seq<CampaignView>, capped: seq<CampaignView>)
    requires s.db.campaigns.Keys == {0, 1} && s.replicas == [Listed(Views(s.db))] && capped != []
    requires inHours == InHours(Views(s.db), {0, 1}) && HourSkips(Views(s.db), {0, 1}) == []
    requires capped == UnderCap(s.db, inHours) && CapSkips(s.db, inHours) == []
    ensures Enabled(s, Gate(0, {0, 1})) && Apply(s, Gate(0, {0, 1})) == With(s, 0, Gated(capped))
  {
    assert s.db.audit + [] + [] == s.db.audit;
  }

  lemma RoomForBoth(listed: State)
    requires listed.db.campaigns.Keys == {0, 1} && listed.replicas == [Listed(Views(listed.db))]
    requires BelowCap(listed.db, ViewOf(listed.db, 0)) && BelowCap(listed.db, ViewOf(listed.db, 1))
    ensures Enabled(listed, Gate(0, {0, 1})) && Apply(listed, Gate(0, {0, 1})) == With(listed, 0, Gated(Views(listed.db)))
  {
    NoSkips(listed.db, Views(listed.db), {0, 1});
    GateMoves(listed, Views(listed.db), Views(listed.db));
  }

  lemma PassesBoth(s: State)
    requires Two(s, Failed1(), Dialled1())
    ensures var listed := With(s, 0, Listed(Views(s.db)));
            Enabled(listed, Gate(0, {0, 1})) && Apply(listed, Gate(0, {0, 1})) == With(s, 0, Gated(Views(s.db)))
  {
    BothPass(s, Failed1(), Dialled1());
    RoomForBoth(With(s, 0, Listed(Views(s.db))));
  }

  lemma PicksZero(s: State)
    requires Two(s, Failed1(), Dialled1()) && s.db.cursors == map[0 := 0.0, 1 := 1.0]
    ensures var gated, sweep := With(s, 0, Gated(Views(s.db))), Sweep(0, ViewOf(s.db, 0), false);
            Enabled(gated, sweep) && Apply(gated, sweep) == With(s, 0, Ready(ViewOf(s.db, 0), false))
  {
    BothPass(s, Failed1(), Dialled1());
    NoneDue(Views(s.db), {});
    assert Views(s.db)[0] in Views(s.db);
  }

  lemma FindsNone(s: State)
    requires Two(s, Failed1(), Dialled1())
    ensures var ready, claim := With(s, 0, Ready(ViewOf(s.db, 0), false)), ClaimNext(0, None, {});
            Enabled(ready, claim) && Apply(ready, claim) == s
  {
    assert Claimable(s.db.calls, 0, {}, 0.0) == {};
    assert s.replicas[0 := Idle] == s.replicas;
  }

  lemma LastStep(s: State)
    requires Two(s, Failed1(), Dialled1())
    ensures var ready := With(s, 0, Ready(ViewOf(s.db, 0), false));
            IsRun(EVERY, ready, IdleTick(s.db)[3..]) && Run(EVERY, ready, IdleTick(s.db)[3..]) == s
  {
    FindsNone(s);
    RunCons(With(s, 0, Ready(ViewOf(s.db, 0), false)), ClaimNext(0, None, {}), s, []);
    assert [ClaimNext(0, None, {})] + [] == IdleTick(s.db)[3..];
  }

  lemma LastTwoSteps(s: State)
    requires Two(s, Failed1(), Dialled1()) && s.db.cursors == map[0 := 0.0, 1 := 1.0]
    ensures var gated := With(s, 0, Gated(Views(s.db)));
            IsRun(EVERY, gated, IdleTick(s.db)[2..]) && Run(EVERY, gated, IdleTick(s.db)[2..]) == s
  {
    PicksZero(s);
    LastStep(s);
    var sweep, rest := Sweep(0, ViewOf(s.db, 0), false), IdleTick(s.db)[3..];
    RunCons(With(s, 0, Gated(Views(s.db))), sweep, With(s, 0, Ready(ViewOf(s.db, 0), false)), rest);
    assert [sweep] + rest == IdleTick(s.db)[2..];
  }

  lemma LastThreeSteps(s: State)
    requires Two(s, Failed1(), Dialled1()) && s.db.cursors == map[0 := 0.0, 1 := 1.0]
    ensures var listed := With(s, 0, Listed(Views(s.db)));
            IsRun(EVERY, listed, IdleTick(s.db)[1..]) && Run(EVERY, listed, IdleTick(s.db)[1..]) == s
  {
    PassesBoth(s);
    LastTwoSteps(s);
    var rest := IdleTick(s.db)[2..];
    RunCons(With(s, 0, Listed(Views(s.db))), Gate(0, {0, 1}), With(s, 0, Gated(Views(s.db))), rest);
    assert [Gate(0, {0, 1})] + rest == IdleTick(s.db)[1..];
  }

  lemma TickFindsNothing(s: State)
    requires Two(s, Failed1(), Dialled1()) && s.db.cursors == map[0 := 0.0, 1 := 1.0]
    ensures IsRun(EVERY, s, IdleTick(s.db)) && Run(EVERY, s, IdleTick(s.db)) == s
  {
    ListsBoth(s);
    LastThreeSteps(s);
    var list, rest := List(0, Views(s.db)), IdleTick(s.db)[1..];
    RunCons(s, list, With(s, 0, Listed(Views(s.db))), rest);
    assert [list] + rest == IdleTick(s.db);
  }

  /**
   Free capacity goes unused: campaign 1 is open, below its cap and has a call that could be claimed at once,
   yet a whole tick leaves everything as it was, and so does every tick until campaign 0's retry is due.
   */
  lemma IdleWhileAnotherWaits() returns (s: State)
    ensures Reachable(EVERY, 1, s) && s.db.campaigns.Keys == {0, 1}
    ensures Eligible(s.db, 1) && BelowCap(s.db, ViewOf(s.db, 1))
    ensures 2 in s.db.calls && s.db.calls[2].campaign == 1 && ClaimDue(s.db.calls[2], s.now)
    ensures IsRun(EVERY, s, IdleTick(s.db)) && Run(EVERY, s, IdleTick(s.db)) == s
    ensures Blocked(s, 0, 1.0)
  {
    s := SecondTick();
    BothPass(s, Failed1(), Dialled1());
    TickFindsNothing(s);
    assert s.db.calls[0] == Failed1() && s.db.calls[2] == Fresh(1, 2);
    assert HasWork(s.db, 1);
  }
}

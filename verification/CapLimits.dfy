/** The concurrency cap with N replicas: the bound max_concurrent + N - 1 is met for every cap and every N. */
module CapLimits {
  import opened Types
  import opened Backoff
  import opened Tables
  import opened Protocol
  import opened Runs

  function UploadedCall(c: CallId): Call {
    Call(0, c, Queued, 0, 2, None, None, 0.0, 0.0)
  }

  function BeingDialled(c: CallId): Call {
    UploadedCall(c).(status := Dialing, epoch := 1)
  }

  function Upload(total: nat): map<CallId, Call> {
    map c: CallId | c < total :: UploadedCall(c)
  }

  /** A campaign of `total` calls with max_concurrent `cap`, of which the first `m` are being dialled. */
  ghost predicate Filled(s: State, cap: nat, total: nat, m: nat) {
    && m <= total && s.now == 0.0
    && s.db.campaigns.Keys == {0} && s.db.campaigns[0].maxConcurrent == cap && s.db.campaigns[0].base == 1.0
    && !Concluded(s.db.campaigns[0].status)
    && (forall c: CallId :: c in s.db.calls <==> c < total)
    && (forall c: CallId :: c < m ==> s.db.calls[c].campaign == 0 && s.db.calls[c].status.Dialing?)
    && (forall c: CallId :: m <= c < total ==> s.db.calls[c] == UploadedCall(c))
    && (forall key :: key in s.issued ==> key.0 < m && s.issued[key] < m)
    && (forall k :: k in s.db.cursors ==> s.db.cursors[k] < m as real)
  }

  lemma {:induction false} CountsUpTo(a: set<CallId>, m: nat)
    requires forall c: CallId :: c in a <==> c < m
    ensures |a| == m
  {
    if m > 0 {
      CountsUpTo(a - {m - 1}, m - 1);
    }
  }

  lemma InFlightCount(s: State, cap: nat, total: nat, m: nat)
    requires Filled(s, cap, total, m)
    ensures |InFlightCalls(s.db.calls, 0)| == m
    ensures DueCampaigns(s.db, s.now) == {}
  {
    forall c | c in s.db.calls && c >= m ensures s.db.calls[c].status.Queued? {
      assert s.db.calls[c] == UploadedCall(c);
    }
    forall c: CallId ensures c in InFlightCalls(s.db.calls, 0) <==> c < m {
      if c < m {
        assert s.db.calls[c].status.Dialing?;
      }
    }
    CountsUpTo(InFlightCalls(s.db.calls, 0), m);
  }

  lemma UploadFits(db: Db, campaign: Campaign, total: nat)
    requires db == Db(map[], map[], [], map[], map[]) && total >= 1
    requires campaign.status == PendingCampaign && campaign.maxConcurrent >= 1 && campaign.maxAttempts == 2 && campaign.base >= 1.0
    ensures FreshBatch(db, 0, campaign, Upload(total), 0.0)
    ensures CreateTx(db, 0, campaign, Upload(total)) == Db(map[0 := campaign], Upload(total), [], map[], map[])
  {
    assert 0 in Upload(total);
    assert db.calls + Upload(total) == Upload(total);
  }

  lemma Uploads(n: nat, cap: nat, total: nat) returns (s: State)
    requires cap >= 1 && total >= 1
    ensures Reachable(EVERY, n, s) && Filled(s, cap, total, 0) && s.replicas == seq(n, _ => Idle)
    ensures s.lookups == map[] && s.issued == map[] && s.now == 0.0
    ensures s.db == Db(map[0 := Campaign(PendingCampaign, cap, 2, 1.0)], Upload(total), [], map[], map[])
  {
    var campaign := Campaign(PendingCampaign, cap, 2, 1.0);
    var init := State(Db(map[], map[], [], map[], map[]), map[], seq(n, _ => Idle), map[], map[], 0.0, 1.0);
    ReachInit(EVERY, n, init);
    UploadFits(init.db, campaign, total);
    var step := Create(0, campaign, Upload(total));
    assert Enabled(init, step) && Meets(EVERY, init, step);
    ReachNext(EVERY, n, init, step);
    s := init.(db := Db(map[0 := campaign], Upload(total), [], map[], map[]));
    assert s == Apply(init, step);
  }

  /** Below the cap, replica `i` gets ready to claim. */
  lemma Readies(n: nat, before: State, i: nat, cap: nat, total: nat, m: nat)
    requires Acts(EVERY, n, before, i, Idle) && Filled(before, cap, total, m) && m < total && m < cap
    ensures Reachable(EVERY, n, With(before, i, Ready(ViewOf(before.db, 0), false)))
  {
    var view := ViewOf(before.db, 0);
    assert before.db.calls[m] == UploadedCall(m);
    assert Eligible(before.db, 0) && [view][0].id == 0 && view in [view];
    InFlightCount(before, cap, total, m);
    GetsReady(EVERY, n, before, i, [view], {0}, view);
  }

  function Claimed(before: State, i: nat, v: CampaignView, m: CallId): State
    requires At(before, i) && m in before.db.calls
  {
    With(before.(db := ClaimTx(before.db, v, m, before.now)), i, HasClaim(v, false, ClaimOf(before.db, m)))
  }

  lemma NextIsOldest(s: State, cap: nat, total: nat, m: nat)
    requires Filled(s, cap, total, m) && m < total
    ensures s.db.calls[m] == UploadedCall(m) && OldestOf(s.db.calls, Claimable(s.db.calls, 0, {}, 0.0), Some(m))
  {
    assert s.db.calls[m] == UploadedCall(m);
    forall c | c in Claimable(s.db.calls, 0, {}, 0.0) ensures s.db.calls[c].createdAt == 0.0 {
      assert c >= m && s.db.calls[c] == UploadedCall(c);
    }
  }

  lemma ClaimKeepsFilled(before: State, i: nat, v: CampaignView, cap: nat, total: nat, m: nat)
    requires At(before, i) && Filled(before, cap, total, m) && m < total && before.db.calls[m] == UploadedCall(m)
    ensures Filled(Claimed(before, i, v, m), cap, total, m + 1)
  {
    TakenTables(before.db, v, m, before.now);
  }

  /** A ready replica claims the next call, whatever was claimed since it counted. */
  lemma ClaimsNext(n: nat, before: State, i: nat, v: CampaignView, cap: nat, total: nat, m: nat)
    requires Acts(EVERY, n, before, i, Ready(v, false)) && v.id == 0 && Filled(before, cap, total, m) && m < total
    ensures Reachable(EVERY, n, Claimed(before, i, v, m)) && Filled(Claimed(before, i, v, m), cap, total, m + 1)
  {
    NextIsOldest(before, cap, total, m);
    Takes(EVERY, n, before, i, v, m);
    ClaimKeepsFilled(before, i, v, cap, total, m);
  }

  lemma AnswerStores(db: Db, claim: Claim, h: Handle)
    requires claim.call in db.calls && db.calls[claim.call].status.Dialing? && db.calls[claim.call].epoch == claim.epoch
    ensures var o := DispatchOutcome(db, claim, Accepted(h), 1.0, 0.0);
            o.Applied? && o.move.call == claim.call && o.move.row == db.calls[claim.call].(handle := Some(h), updatedAt := 0.0)
  {
  }

  lemma StoredKeepsFilled(before: State, v: CampaignView, claim: Claim, cap: nat, total: nat, m: nat)
    requires Filled(before, cap, total, m + 1) && v.id == 0 && claim.call == m && claim.epoch == 1 && before.db.calls[m] == BeingDialled(m)
    requires forall k :: k in before.db.cursors ==> before.db.cursors[k] < m as real
    ensures DispatchTx(before.db, v, claim, Accepted(m), 1.0, 0.0, m as real).calls
         == before.db.calls[m := BeingDialled(m).(handle := Some(m))]
    ensures !DispatchOutcome(before.db, claim, Accepted(m), 1.0, 0.0).Violation?
    ensures Filled(before.(db := DispatchTx(before.db, v, claim, Accepted(m), 1.0, 0.0, m as real)), cap, total, m + 1)
  {
    AnswerStores(before.db, claim, m);
    SettledTables(before.db, v, claim, Accepted(m), 1.0, 0.0, m as real);
  }

  /** The provider accepts call `m` under handle `m`. */
  lemma Answers(n: nat, before: State, v: CampaignView, claim: Claim, cap: nat, total: nat, m: nat) returns (s: State)
    requires Acts(EVERY, n, before, 0, HasClaim(v, false, claim)) && Filled(before, cap, total, m + 1)
    requires claim.call == m && claim.epoch == 1
    requires forall key :: key in before.issued ==> key.0 < m && before.issued[key] < m
    ensures Acts(EVERY, n, s, 0, Placed(v, false, claim, Accepted(m))) && Filled(s, cap, total, m + 1)
    ensures s == before.(issued := s.issued, replicas := before.replicas[0 := Placed(v, false, claim, Accepted(m))])
  {
    Dials(EVERY, n, before, 0, v, claim, m);
    s := With(before.(issued := before.issued[(m, 1) := m]), 0, Placed(v, false, claim, Accepted(m)));
  }

  /** And the handle is stored. */
  lemma Finishes(n: nat, before: State, v: CampaignView, claim: Claim, cap: nat, total: nat, m: nat) returns (s: State)
    requires Acts(EVERY, n, before, 0, Placed(v, false, claim, Accepted(m))) && Filled(before, cap, total, m + 1)
    requires v.id == 0 && v.base == 1.0 && claim.call == m && claim.epoch == 1 && before.db.calls[m] == BeingDialled(m)
    requires forall k :: k in before.db.cursors ==> before.db.cursors[k] < m as real
    ensures Reachable(EVERY, n, s) && Filled(s, cap, total, m + 1) && s == before.(db := s.db, replicas := before.replicas[0 := Idle])
    ensures s.db.calls == before.db.calls[m := BeingDialled(m).(handle := Some(m))]
    ensures s.db.inbox == before.db.inbox
  {
    assert IsBackoff(1.0, 1, 1.0);
    Settles(EVERY, n, before, 0, v, claim, Accepted(m), 1.0, m as real);
    StoredKeepsFilled(before, v, claim, cap, total, m);
    s := With(before.(db := DispatchTx(before.db, v, claim, Accepted(m), 1.0, 0.0, m as real)), 0, Idle);
  }

  lemma OneMoreClaimed(n: nat, before: State, cap: nat, total: nat, m: nat) returns (s: State, v: CampaignView, claim: Claim)
    requires n >= 1 && Acts(EVERY, n, before, 0, Idle) && Filled(before, cap, total, m) && m < total && m < cap
    ensures Acts(EVERY, n, s, 0, HasClaim(v, false, claim)) && Filled(s, cap, total, m + 1)
    ensures s == before.(db := s.db, replicas := before.replicas[0 := HasClaim(v, false, claim)])
    ensures v.id == 0 && v.base == 1.0 && claim.call == m && claim.epoch == 1
    ensures s.db.calls == before.db.calls[m := BeingDialled(m)]
    ensures s.db.cursors == before.db.cursors && s.db.inbox == before.db.inbox
  {
    v := ViewOf(before.db, 0);
    claim := ClaimOf(before.db, m);
    assert before.db.calls[m] == UploadedCall(m);
    Readies(n, before, 0, cap, total, m);
    ClaimsNext(n, With(before, 0, Ready(v, false)), 0, v, cap, total, m);
    TakenTables(before.db, v, m, before.now);
    s := Claimed(With(before, 0, Ready(v, false)), 0, v, m);
  }

  /** One whole tick of replica 0 brings one more call in flight. */
  lemma OneMore(n: nat, before: State, cap: nat, total: nat, m: nat) returns (s: State)
    requires n >= 1 && Reachable(EVERY, n, before) && before.replicas == seq(n, _ => Idle)
    requires Filled(before, cap, total, m) && m < total && m < cap
    ensures Reachable(EVERY, n, s) && s.replicas == seq(n, _ => Idle) && Filled(s, cap, total, m + 1)
  {
    var v, claim;
    s, v, claim := OneMoreClaimed(n, before, cap, total, m);
    s := Answers(n, s, v, claim, cap, total, m);
    s := Finishes(n, s, v, claim, cap, total, m);
    assert s.replicas == before.replicas;
  }

  lemma {:induction false} FillsUp(n: nat, cap: nat, total: nat, m: nat) returns (s: State)
    requires n >= 1 && 1 <= cap <= total && m < cap
    ensures Reachable(EVERY, n, s) && s.replicas == seq(n, _ => Idle) && Filled(s, cap, total, m)
  {
    if m == 0 {
      s := Uploads(n, cap, total);
    } else {
      s := FillsUp(n, cap, total, m - 1);
      s := OneMore(n, s, cap, total, m - 1);
    }
  }

  /** With one slot left, all of the first `g` replicas count it before any of them claims. */
  lemma {:induction false} AllReady(n: nat, cap: nat, total: nat, g: nat) returns (s: State, v: CampaignView)
    requires 1 <= cap && cap + n - 1 <= total && n >= 1 && g <= n
    ensures Reachable(EVERY, n, s) && Filled(s, cap, total, cap - 1) && v == ViewOf(s.db, 0)
    ensures s.replicas == seq(n, i => if i < g then Ready(v, false) else Idle)
  {
    if g == 0 {
      s := FillsUp(n, cap, total, cap - 1);
      v := ViewOf(s.db, 0);
    } else {
      var before;
      before, v := AllReady(n, cap, total, g - 1);
      Readies(n, before, g - 1, cap, total, cap - 1);
      s := With(before, g - 1, Ready(v, false));
    }
  }

  /** Replicas from `q` on are ready, and the others have claimed the last slot and those beyond it. */
  ghost predicate SomeClaimed(s: State, v: CampaignView, n: nat, cap: nat, total: nat, q: nat) {
    && Reachable(EVERY, n, s) && v.id == 0 && cap >= 1 && Filled(s, cap, total, cap - 1 + q)
    && |s.replicas| == n && forall i :: q <= i < n ==> s.replicas[i] == Ready(v, false)
  }

  lemma OneMoreClaims(before: State, v: CampaignView, n: nat, cap: nat, total: nat, q: nat) returns (s: State)
    requires SomeClaimed(before, v, n, cap, total, q) && q < n && cap - 1 + q < total
    ensures SomeClaimed(s, v, n, cap, total, q + 1)
  {
    var m := cap - 1 + q;
    ClaimsNext(n, before, q, v, cap, total, m);
    s := Claimed(before, q, v, m);
  }

  lemma {:induction false} AllClaim(n: nat, cap: nat, total: nat, q: nat) returns (s: State, v: CampaignView)
    requires 1 <= cap && cap + n - 1 <= total && n >= 1 && q <= n
    ensures SomeClaimed(s, v, n, cap, total, q)
  {
    if q == 0 {
      s, v := AllReady(n, cap, total, n);
    } else {
      s, v := AllClaim(n, cap, total, q - 1);
      s := OneMoreClaims(s, v, n, cap, total, q - 1);
    }
  }

  /**
   The bound is met: for every cap and every number of replicas, some reachable state under every premise has
   max_concurrent + N - 1 calls of a campaign in flight.
   */
  lemma CapIsExceeded(n: nat, cap: nat) returns (s: State)
    requires n >= 1 && cap >= 1
    ensures Reachable(EVERY, n, s) && 0 in s.db.campaigns && s.db.campaigns[0].maxConcurrent == cap
    ensures |InFlightCalls(s.db.calls, 0)| == cap + n - 1
  {
    var v;
    s, v := AllClaim(n, cap, cap + n - 1, n);
    InFlightCount(s, cap, cap + n - 1, cap + n - 1);
  }
}

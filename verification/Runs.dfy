/** Building blocks for concrete runs: what a tick that finds room and work does, step by step. */
module Runs {
  import opened Types
  import opened Backoff
  import opened Tables
  import opened Protocol

  /** Every premise on the environment. */
  const EVERY := Premises(true, true, true, true, true, true)

  /** Replica `i` is about to act in a reachable state. */
  ghost predicate Acts(p: Premises, n: nat, s: State, i: nat, r: Replica) {
    Reachable(p, n, s) && At(s, i) && s.replicas[i] == r
  }

  function With(s: State, i: nat, r: Replica): State
    requires At(s, i)
  {
    s.(replicas := s.replicas[i := r])
  }

  lemma Lists(p: Premises, n: nat, before: State, i: nat, views: seq<CampaignView>)
    requires Acts(p, n, before, i, Idle) && EligibleList(before.db, views) && views != []
    ensures Reachable(p, n, With(before, i, Listed(views)))
  {
    ReachNext(p, n, before, List(i, views));
  }

  lemma LastIsBack(views: seq<CampaignView>, front: seq<CampaignView>, last: CampaignView)
    requires views != [] && front == views[..|views|-1] && last == views[|views|-1]
    ensures front + [last] == views
  {
  }

  lemma {:induction false} AllOpen(views: seq<CampaignView>, open: set<CampaignId>)
    requires forall i :: 0 <= i < |views| ==> views[i].id in open
    ensures InHours(views, open) == views
  {
    if views != [] {
      AllOpen(views[..|views|-1], open);
      LastIsBack(views, views[..|views|-1], views[|views|-1]);
    }
  }

  lemma {:induction false} NoHourSkips(views: seq<CampaignView>, open: set<CampaignId>)
    requires forall i :: 0 <= i < |views| ==> views[i].id in open
    ensures HourSkips(views, open) == []
  {
    if views != [] {
      NoHourSkips(views[..|views|-1], open);
    }
  }

  lemma {:induction false} AllBelow(db: Db, views: seq<CampaignView>)
    requires forall i :: 0 <= i < |views| ==> BelowCap(db, views[i])
    ensures UnderCap(db, views) == views
  {
    if views != [] {
      AllBelow(db, views[..|views|-1]);
      LastIsBack(views, views[..|views|-1], views[|views|-1]);
    }
  }

  lemma {:induction false} NoCapSkips(db: Db, views: seq<CampaignView>)
    requires forall i :: 0 <= i < |views| ==> BelowCap(db, views[i])
    ensures CapSkips(db, views) == []
  {
    if views != [] {
      NoCapSkips(db, views[..|views|-1]);
    }
  }

  lemma NoSkips(db: Db, views: seq<CampaignView>, open: set<CampaignId>)
    requires forall v :: v in views ==> v.id in open && BelowCap(db, v)
    ensures InHours(views, open) == views && HourSkips(views, open) == []
    ensures UnderCap(db, views) == views && CapSkips(db, views) == []
  {
    AllOpen(views, open);
    NoHourSkips(views, open);
    AllBelow(db, views);
    NoCapSkips(db, views);
  }

  /** A gate that logs nothing only moves the replica on. */
  lemma GateMovesOn(p: Premises, n: nat, before: State, i: nat, views: seq<CampaignView>, open: set<CampaignId>,
                    inHours: seq<CampaignView>, capped: seq<CampaignView>)
    requires Acts(p, n, before, i, Listed(views)) && capped != []
    requires inHours == InHours(views, open) && HourSkips(views, open) == []
    requires capped == UnderCap(before.db, inHours) && CapSkips(before.db, inHours) == []
    ensures Reachable(p, n, With(before, i, Gated(capped)))
  {
    assert before.db.audit + [] + [] == before.db.audit;
    ReachNext(p, n, before, Gate(i, open));
  }

  /** All listed campaigns are open and have room, so nothing is skipped. */
  lemma PassesAll(p: Premises, n: nat, before: State, i: nat, views: seq<CampaignView>, open: set<CampaignId>)
    requires Acts(p, n, before, i, Listed(views)) && views != []
    requires forall v :: v in views ==> v.id in open && BelowCap(before.db, v)
    ensures Reachable(p, n, With(before, i, Gated(views)))
  {
    NoSkips(before.db, views, open);
    GateMovesOn(p, n, before, i, views, open, views, views);
  }

  lemma {:induction false} NoneDue(views: seq<CampaignView>, due: set<CampaignId>)
    requires forall v :: v in views ==> v.id !in due
    ensures WithRetryDue(views, due) == []
  {
    if views != [] {
      assert views[|views|-1] in views;
      NoneDue(views[..|views|-1], due);
    }
  }

  lemma PicksEarliest(p: Premises, n: nat, before: State, i: nat, capped: seq<CampaignView>, v: CampaignView)
    requires Acts(p, n, before, i, Gated(capped)) && IsEarliest(capped, v)
    requires forall w :: w in capped ==> w.id !in DueCampaigns(before.db, before.now)
    ensures Reachable(p, n, With(before, i, Ready(v, false)))
  {
    NoneDue(capped, DueCampaigns(before.db, before.now));
    ReachNext(p, n, before, Sweep(i, v, false));
  }

  /** List, gate and pick in one go. */
  lemma GetsReady(p: Premises, n: nat, before: State, i: nat, views: seq<CampaignView>, open: set<CampaignId>, v: CampaignView)
    requires Acts(p, n, before, i, Idle) && EligibleList(before.db, views) && IsEarliest(views, v)
    requires forall w :: w in views ==> w.id in open && BelowCap(before.db, w)
    requires forall w :: w in views ==> w.id !in DueCampaigns(before.db, before.now)
    ensures Reachable(p, n, With(before, i, Ready(v, false)))
  {
    Lists(p, n, before, i, views);
    PassesAll(p, n, With(before, i, Listed(views)), i, views, open);
    PicksEarliest(p, n, With(With(before, i, Listed(views)), i, Gated(views)), i, views, v);
    assert With(With(before, i, Listed(views)), i, Gated(views)).replicas[i := Ready(v, false)]
        == before.replicas[i := Ready(v, false)];
  }

  lemma Takes(p: Premises, n: nat, before: State, i: nat, v: CampaignView, c: CallId)
    requires Acts(p, n, before, i, Ready(v, false)) && c in before.db.calls
    requires OldestOf(before.db.calls, Claimable(before.db.calls, v.id, {}, before.now), Some(c))
    ensures Reachable(p, n, With(before.(db := ClaimTx(before.db, v, c, before.now)), i, HasClaim(v, false, ClaimOf(before.db, c))))
  {
    ReachNext(p, n, before, ClaimNext(i, Some(c), {}));
  }

  lemma Dials(p: Premises, n: nat, before: State, i: nat, v: CampaignView, claim: Claim, h: Handle)
    requires Acts(p, n, before, i, HasClaim(v, false, claim))
    requires (claim.call, claim.epoch) !in before.issued && h !in before.issued.Values
    ensures Reachable(p, n, With(before.(issued := before.issued[(claim.call, claim.epoch) := h]), i,
                                 Placed(v, false, claim, Accepted(h))))
  {
    ReachNext(p, n, before, Place(i, Accepted(h), Some(h)));
  }

  lemma DialFails(p: Premises, n: nat, before: State, i: nat, v: CampaignView, claim: Claim)
    requires Acts(p, n, before, i, HasClaim(v, false, claim))
    ensures Reachable(p, n, With(before, i, Placed(v, false, claim, Unavailable)))
  {
    ReachNext(p, n, before, Place(i, Unavailable, None));
  }

  lemma Settles(p: Premises, n: nat, before: State, i: nat, v: CampaignView, claim: Claim, result: DialResult,
                wait: Time, stamp: Time)
    requires Acts(p, n, before, i, Placed(v, false, claim, result)) && IsBackoff(wait, claim.epoch, v.base)
    requires forall k :: k in before.db.cursors ==> before.db.cursors[k] < stamp
    ensures !Raises(DispatchOutcome(before.db, claim, result, wait, before.now))
    ensures Reachable(p, n, With(before.(db := DispatchTx(before.db, v, claim, result, wait, before.now, stamp)), i, Idle))
  {
    ReachNext(p, n, before, Settle(i, wait, stamp));
  }

  // ---- what these steps leave in the tables ------------------------------------------------------

  /** The campaigns are as before, but for a promotion. */
  ghost predicate Promoted(before: Db, after: Db) {
    && after.campaigns.Keys == before.campaigns.Keys
    && forall k :: k in before.campaigns ==>
         && after.campaigns[k] == before.campaigns[k].(status := after.campaigns[k].status)
         && (Concluded(after.campaigns[k].status) <==> Concluded(before.campaigns[k].status))
  }

  lemma TakenTables(db: Db, v: CampaignView, c: CallId, now: Time)
    requires c in db.calls
    ensures var after := ClaimTx(db, v, c, now);
            && after.calls == db.calls[c := ClaimMove(db, c, now).row] && Promoted(db, after)
            && after.inbox == db.inbox && after.cursors == db.cursors
  {
  }

  lemma SettledTables(db: Db, v: CampaignView, claim: Claim, result: DialResult, wait: Time, now: Time, stamp: Time)
    requires var o := DispatchOutcome(db, claim, result, wait, now); o.Applied? && !Terminal(o.move.row.status)
    ensures var after, m := DispatchTx(db, v, claim, result, wait, now, stamp), DispatchOutcome(db, claim, result, wait, now).move;
            && m.call == claim.call && m.call in db.calls
            && after.calls == db.calls[m.call := m.row] && after.campaigns == db.campaigns
            && after.inbox == db.inbox && after.cursors == db.cursors[v.id := stamp]
            && after.audit == db.audit + [ChangeRow(db, m)]
  {
  }
}

/**
 Campaign rollup statement by statement: terminal transactions of one campaign run concurrently under READ
 COMMITTED, each seeing committed rows plus its own uncommitted write. With the campaign row lock every commit
 has the effect of one atomic rollup; without it two last calls can strand the campaign.
 */
module Rollup {
  import opened Types
  import opened Tables

  /** An open terminal transaction, by the statement it executed last. */
  datatype Tx =
    | Updated(call: CallId, row: Call)                               // the call row is written, not committed
    | Locked(call: CallId, row: Call)                                // SELECT ... FOR NO KEY UPDATE returned
    | Counted(call: CallId, row: Call, active: bool)                 // the COUNT returned
    | Aggregated(call: CallId, row: Call, target: CampaignStatus)    // the per-status counts returned
    | Folded(call: CallId, row: Call, verdict: Option<CampaignStatus>) // the CAS on the campaign ran

  /** Committed rows of campaign `k`, the holder of its row lock, and the open transactions. */
  datatype World = World(
    k: CampaignId,
    calls: map<CallId, Call>,
    status: CampaignStatus,
    holder: Option<nat>,
    txs: map<nat, Tx>)

  datatype Action =
    | Update(t: nat, c: CallId, row: Call)
    | TakeLock(t: nat)
    | Count(t: nat)
    | Aggregate(t: nat)
    | Fold(t: nat)
    | Commit(t: nat)
    | Abort(t: nat)
    | Other(c: CallId, row: Call)    // a whole transaction that keeps a call non-terminal

  predicate RowLocked(w: World, c: CallId) {
    exists t :: t in w.txs && w.txs[t].call == c
  }

  /** What transaction `t` sees: the latest committed rows, and its own write. */
  function Seen(w: World, t: nat): map<CallId, Call>
    requires t in w.txs
  {
    w.calls[w.txs[t].call := w.txs[t].row]
  }

  predicate CampaignFree(w: World, t: nat) {
    w.holder.None? || w.holder == Some(t)
  }

  predicate CanCommit(x: Tx) {
    (x.Counted? && x.active) || x.Folded?
  }

  /** A terminal write: of a row that is still going, or of a terminal row that keeps its status. */
  predicate Ends(was: Call, row: Call) {
    Terminal(row.status) && (Terminal(was.status) ==> row.status == was.status)
  }

  predicate Can(w: World, a: Action, locking: bool) {
    match a
    case Update(t, c, row) =>
      && t !in w.txs && c in w.calls && Ends(w.calls[c], row)
      && row.campaign == w.calls[c].campaign && !RowLocked(w, c)
    case TakeLock(t) => t in w.txs && w.txs[t].Updated? && (locking ==> CampaignFree(w, t))
    case Count(t) => t in w.txs && w.txs[t].Locked?
    case Aggregate(t) => t in w.txs && w.txs[t].Counted? && !w.txs[t].active
    case Fold(t) => t in w.txs && w.txs[t].Aggregated? && CampaignFree(w, t)
    case Commit(t) => t in w.txs && CanCommit(w.txs[t])
    case Abort(t) => t in w.txs
    case Other(c, row) =>
      && c in w.calls && !Terminal(w.calls[c].status) && !Terminal(row.status)
      && row.campaign == w.calls[c].campaign && !RowLocked(w, c)
  }

  function Released(w: World, t: nat): Option<nat> {
    if w.holder == Some(t) then None else w.holder
  }

  function Do(w: World, a: Action, locking: bool): World
    requires Can(w, a, locking)
  {
    match a
    case Update(t, c, row) => w.(txs := w.txs[t := Updated(c, row)])
    case TakeLock(t) =>
      w.(txs := w.txs[t := Locked(w.txs[t].call, w.txs[t].row)], holder := if locking then Some(t) else w.holder)
    case Count(t) =>
      w.(txs := w.txs[t := Counted(w.txs[t].call, w.txs[t].row, !AllTerminal(Seen(w, t), w.k))])
    case Aggregate(t) =>
      w.(txs := w.txs[t := Aggregated(w.txs[t].call, w.txs[t].row, Verdict(Seen(w, t), w.k))])
    case Fold(t) =>
      var verdict := if w.status.ActiveCampaign? then Some(w.txs[t].target) else None;
      w.(txs := w.txs[t := Folded(w.txs[t].call, w.txs[t].row, verdict)], holder := Some(t))
    case Commit(t) =>
      var x := w.txs[t];
      w.(calls := w.calls[x.call := x.row],
         status := if x.Folded? && x.verdict.Some? then x.verdict.value else w.status,
         holder := Released(w, t), txs := w.txs - {t})
    case Abort(t) => w.(holder := Released(w, t), txs := w.txs - {t})
    case Other(c, row) => w.(calls := w.calls[c := row])
  }

  ghost predicate IsRun(w: World, actions: seq<Action>, locking: bool)
    decreases |actions|
  {
    actions == [] || (Can(w, actions[0], locking) && IsRun(Do(w, actions[0], locking), actions[1..], locking))
  }

  ghost function RunOf(w: World, actions: seq<Action>, locking: bool): World
    requires IsRun(w, actions, locking)
    decreases |actions|
  {
    if actions == [] then w else RunOf(Do(w, actions[0], locking), actions[1..], locking)
  }

  /** The committed status is what an atomic rollup would have left: ACTIVE until every call is terminal. */
  predicate StatusRight(w: World) {
    w.status == if AllTerminal(w.calls, w.k) then Verdict(w.calls, w.k) else ActiveCampaign
  }

  /** The bug the lock prevents: an ACTIVE campaign with nothing left to end it. */
  predicate Stranded(w: World) {
    w.status.ActiveCampaign? && AllTerminal(w.calls, w.k)
  }

  // ---- with the lock ---------------------------------------------------------------------------

  predicate OwnRows(calls: map<CallId, Call>, k: CampaignId) {
    forall c :: c in calls ==> calls[c].campaign == k
  }

  /** Some call other than `c` is still going. */
  predicate OtherActive(calls: map<CallId, Call>, c: CallId) {
    exists d :: d in calls && d != c && !Terminal(calls[d].status)
  }

  predicate TxOK(w: World, t: nat)
    requires t in w.txs
  {
    var x := w.txs[t];
    && x.call in w.calls && Ends(w.calls[x.call], x.row) && x.row.campaign == w.k
    && (!x.Updated? ==> w.holder == Some(t))
    && (x.Counted? ==> x.active == OtherActive(w.calls, x.call))
    && (x.Aggregated? || x.Folded? ==> !OtherActive(w.calls, x.call))
    && (x.Aggregated? ==> x.target == Verdict(Seen(w, t), w.k))
    && (x.Folded? ==> x.verdict == if w.status.ActiveCampaign? then Some(Verdict(Seen(w, t), w.k)) else None)
  }

  predicate LockInv(w: World) {
    && OwnRows(w.calls, w.k) && StatusRight(w)
    && (forall t :: t in w.txs ==> TxOK(w, t))
    && (forall t, u :: t in w.txs && u in w.txs && t != u ==> w.txs[t].call != w.txs[u].call)
    && (w.holder.Some? ==> w.holder.value in w.txs)
  }

  /** After its own write, a transaction sees only terminal rows exactly when no other call is going. */
  lemma SeenAllTerminal(w: World, t: nat)
    requires OwnRows(w.calls, w.k) && t in w.txs && TxOK(w, t)
    ensures AllTerminal(Seen(w, t), w.k) <==> !OtherActive(w.calls, w.txs[t].call)
    ensures OwnRows(Seen(w, t), w.k)
  {
    var c := w.txs[t].call;
    if OtherActive(w.calls, c) {
      var d :| d in w.calls && d != c && !Terminal(w.calls[d].status);
      assert d in Seen(w, t) && Seen(w, t)[d] == w.calls[d];
    }
  }

  lemma VerdictIsConcluded(calls: map<CallId, Call>, k: CampaignId)
    ensures Concluded(Verdict(calls, k))
  {
  }

  /** A change of a row nobody else writes does not disturb a transaction that has already counted. */
  lemma OtherKeepsTx(w: World, c: CallId, row: Call, t: nat)
    requires LockInv(w) && Can(w, Other(c, row), true) && t in w.txs
    ensures TxOK(Do(w, Other(c, row), true), t)
  {
    var x, w' := w.txs[t], Do(w, Other(c, row), true);
    assert TxOK(w, t) && x.call != c;
    if OtherActive(w.calls, x.call) {
      var d :| d in w.calls && d != x.call && !Terminal(w.calls[d].status);
      assert d in w'.calls && !Terminal(w'.calls[d].status);
    }
    assert OtherActive(w.calls, x.call) by {
      assert c in w.calls && c != x.call && !Terminal(w.calls[c].status);
    }
  }

  /** What a committed transaction does, in one atomic step. */
  function AtomicCalls(w: World, c: CallId, row: Call): map<CallId, Call> {
    w.calls[c := row]
  }

  function AtomicStatus(w: World, c: CallId, row: Call): CampaignStatus {
    var calls := w.calls[c := row];
    if AllTerminal(calls, w.k) && w.status.ActiveCampaign? then Verdict(calls, w.k) else w.status
  }

  /** With the lock, a commit has exactly the effect of the atomic terminal transition. */
  lemma CommitIsAtomic(w: World, t: nat)
    requires LockInv(w) && Can(w, Commit(t), true)
    ensures var x, w' := w.txs[t], Do(w, Commit(t), true);
            w'.calls == AtomicCalls(w, x.call, x.row) && w'.status == AtomicStatus(w, x.call, x.row)
  {
    assert TxOK(w, t);
    SeenAllTerminal(w, t);
  }

  /**
   The atomic step is the one the protocol model takes: write the row and its audit row, then roll up; a
   CAMPAIGN_COMPLETED row is added exactly when the campaign's status changes.
   */
  lemma AtomicIsTableCommit(w: World, db: Db, m: Move)
    requires m.call in w.calls && db.calls == w.calls && m.row.campaign == w.k && Terminal(m.row.status)
    requires w.k in db.campaigns && db.campaigns[w.k].status == w.status
    ensures Tables.Commit(db, m).calls == AtomicCalls(w, m.call, m.row)
    ensures w.k in Tables.Commit(db, m).campaigns
    ensures Tables.Commit(db, m).campaigns[w.k].status == AtomicStatus(w, m.call, m.row)
    ensures Tables.Commit(db, m).audit
         == db.audit + [ChangeRow(db, m)]
          + if AtomicStatus(w, m.call, m.row) == w.status then [] else [CampaignCompleted(w.k, AtomicStatus(w, m.call, m.row))]
  {
    VerdictIsConcluded(w.calls[m.call := m.row], w.k);
  }

  /** Only the lock holder can be past its count, so no second transaction is. */
  lemma CommitKeepsTx(w: World, t: nat, u: nat)
    requires LockInv(w) && Can(w, Commit(t), true) && u in w.txs && u != t
    ensures TxOK(Do(w, Commit(t), true), u)
  {
    assert TxOK(w, t) && TxOK(w, u);
    assert w.txs[u].Updated?;
  }

  lemma CommitKeepsStatus(w: World, t: nat)
    requires LockInv(w) && Can(w, Commit(t), true)
    ensures OwnRows(Do(w, Commit(t), true).calls, w.k) && StatusRight(Do(w, Commit(t), true))
  {
    CommitIsAtomic(w, t);
    assert TxOK(w, t);
    if AllTerminal(w.calls, w.k) {
      RewriteChangesNothing(w.calls, w.txs[t].call, w.txs[t].row, w.k);
    }
  }

  /** Rewriting a terminal row with its own status leaves the verdict as it was. */
  lemma RewriteChangesNothing(calls: map<CallId, Call>, c: CallId, row: Call, k: CampaignId)
    requires c in calls && row.campaign == calls[c].campaign && row.status == calls[c].status
    ensures AllTerminal(calls[c := row], k) <==> AllTerminal(calls, k)
    ensures Verdict(calls[c := row], k) == Verdict(calls, k)
  {
    var calls' := calls[c := row];
    if d :| d in calls && calls[d].campaign == k && calls[d].status.Completed? {
      assert d in calls' && calls'[d].campaign == k && calls'[d].status.Completed?;
    }
    if d :| d in calls' && calls'[d].campaign == k && calls'[d].status.Completed? {
      assert d in calls && calls[d].campaign == k && calls[d].status.Completed?;
    }
    if d :| d in calls && calls[d].campaign == k && !Terminal(calls[d].status) {
      assert d in calls' && !Terminal(calls'[d].status);
    }
  }

  lemma KeepsLockInv(w: World, a: Action)
    requires LockInv(w) && Can(w, a, true)
    ensures LockInv(Do(w, a, true))
  {
    var w' := Do(w, a, true);
    match a
    case Other(c, row) =>
      forall t | t in w'.txs ensures TxOK(w', t) {
        OtherKeepsTx(w, c, row, t);
      }
      assert !AllTerminal(w.calls, w.k);
      assert c in w'.calls && !AllTerminal(w'.calls, w.k);
    case Commit(t) =>
      CommitKeepsStatus(w, t);
      forall u | u in w'.txs ensures TxOK(w', u) {
        CommitKeepsTx(w, t, u);
      }
    case Count(t) =>
      assert TxOK(w, t);
      SeenAllTerminal(w, t);
      KeepsOthers(w, a);
    case Fold(t) =>
      assert TxOK(w, t);
      KeepsOthers(w, a);
    case _ => KeepsOthers(w, a);
  }

  /** The transactions that do not act keep what they know, as no committed row changes. */
  lemma KeepsOthers(w: World, a: Action)
    requires LockInv(w) && Can(w, a, true) && !a.Other? && !a.Commit?
    ensures forall t :: t in Do(w, a, true).txs && t != a.t ==> TxOK(Do(w, a, true), t)
    ensures Do(w, a, true).calls == w.calls && Do(w, a, true).status == w.status
  {
    var w' := Do(w, a, true);
    forall t | t in w'.txs && t != a.t ensures TxOK(w', t) {
      assert TxOK(w, t);
      assert a.t in w.txs ==> TxOK(w, a.t);
    }
  }

  /** A campaign whose status is right, and no transaction open. */
  predicate Start(w: World) {
    OwnRows(w.calls, w.k) && StatusRight(w) && w.holder.None? && w.txs == map[]
  }

  lemma {:induction false} RunKeepsLockInv(w: World, actions: seq<Action>)
    requires LockInv(w) && IsRun(w, actions, true)
    ensures LockInv(RunOf(w, actions, true))
    decreases |actions|
  {
    if actions != [] {
      KeepsLockInv(w, actions[0]);
      RunKeepsLockInv(Do(w, actions[0], true), actions[1..]);
    }
  }

  /**
   With any number of concurrent terminal transactions, aborts and other changes, no committed state strands
   the campaign: it is ACTIVE exactly while some call is going, and otherwise carries the right verdict.
   */
  lemma NeverStranded(w: World, actions: seq<Action>)
    requires Start(w) && IsRun(w, actions, true)
    ensures !Stranded(RunOf(w, actions, true)) && StatusRight(RunOf(w, actions, true))
  {
    RunKeepsLockInv(w, actions);
    VerdictIsConcluded(RunOf(w, actions, true).calls, RunOf(w, actions, true).k);
  }

  // ---- without the lock ------------------------------------------------------------------------

  function SampleRow(status: CallStatus): Call {
    Call(0, 0, status, 1, 0, None, None, 0.0, 0.0)
  }

  function TwoLastCalls(): World {
    World(0, map[1 := SampleRow(Dialing), 2 := SampleRow(Dialing)], ActiveCampaign, None, map[])
  }

  /** Both transactions count before either commits, so each sees the other's call still going. */
  function FinishTogether(): seq<Action> {
    [Update(1, 1, SampleRow(Failed)), Update(2, 2, SampleRow(Failed)), TakeLock(1), TakeLock(2),
     Count(1), Count(2), Commit(1), Commit(2)]
  }

  /** The world once both transactions have counted: each still saw the other's call going. */
  function BothCounted(): World {
    TwoLastCalls().(txs := map[1 := Counted(1, SampleRow(Failed), true), 2 := Counted(2, SampleRow(Failed), true)])
  }

  lemma ReachBothCounted()
    ensures IsRun(TwoLastCalls(), FinishTogether(), false) <==> IsRun(BothCounted(), FinishTogether()[6..], false)
    ensures IsRun(BothCounted(), FinishTogether()[6..], false) ==>
              RunOf(TwoLastCalls(), FinishTogether(), false) == RunOf(BothCounted(), FinishTogether()[6..], false)
  {
    var w0, all := TwoLastCalls(), FinishTogether();
    var w1 := Do(w0, all[0], false);
    var w2 := Do(w1, all[1], false);
    var w3 := Do(w2, all[2], false);
    var w4 := Do(w3, all[3], false);
    assert Seen(w4, 1)[2].status.Dialing?;
    var w5 := Do(w4, all[4], false);
    assert w5.txs[1] == Counted(1, SampleRow(Failed), true);
    assert Seen(w5, 2)[1].status.Dialing?;
    var w6 := Do(w5, all[5], false);
    assert w6.txs[2] == Counted(2, SampleRow(Failed), true);
    assert w6.txs == BothCounted().txs;
    assert w6 == BothCounted();
    RunFrom(w5, all, 5);
    RunFrom(w4, all, 4);
    RunFrom(w3, all, 3);
    RunFrom(w2, all, 2);
    RunFrom(w1, all, 1);
    RunFrom(w0, all, 0);
    assert all[0..] == all;
  }

  /** Without the campaign row lock, two last calls that finish together strand the campaign. */
  lemma StrandedWithoutLock()
    ensures Start(TwoLastCalls()) && IsRun(TwoLastCalls(), FinishTogether(), false)
    ensures Stranded(RunOf(TwoLastCalls(), FinishTogether(), false))
  {
    var w0, w6, all := TwoLastCalls(), BothCounted(), FinishTogether();
    assert 1 in w0.calls && w0.calls[1].status.Dialing?;
    var w7 := Do(w6, all[6], false);
    var w8 := Do(w7, all[7], false);
    assert w8.calls == map[1 := SampleRow(Failed), 2 := SampleRow(Failed)];
    RunFrom(w7, all, 7);
    RunFrom(w6, all, 6);
    ReachBothCounted();
  }

  lemma RunFrom(w: World, all: seq<Action>, i: nat)
    requires i < |all| && Can(w, all[i], false)
    ensures IsRun(w, all[i..], false) <==> IsRun(Do(w, all[i], false), all[i+1..], false)
    ensures IsRun(w, all[i..], false) ==> RunOf(w, all[i..], false) == RunOf(Do(w, all[i], false), all[i+1..], false)
  {
    assert all[i..][1..] == all[i+1..];
  }
}

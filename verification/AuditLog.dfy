/** Reading the audit log back: the rows of one call or one campaign, and what folding them yields. */
module AuditLog {
  import opened Types

  /** The rows that record a change of call `c`, oldest first. */
  function History(log: seq<AuditRow>, c: CallId): seq<AuditRow> {
    if log == [] then []
    else
      var row := log[|log| - 1];
      History(log[..|log| - 1], c) + if row.CallChange? && row.call == c then [row] else []
  }

  /** The rows that record a change of campaign `k`, oldest first. */
  function CampaignHistory(log: seq<AuditRow>, k: CampaignId): seq<AuditRow> {
    if log == [] then []
    else
      var row := log[|log| - 1];
      CampaignHistory(log[..|log| - 1], k)
      + if (row.CampaignPromoted? || row.CampaignCompleted?) && row.campaign == k then [row] else []
  }

  lemma {:induction false} HistoryAppend(log: seq<AuditRow>, row: AuditRow, c: CallId)
    ensures History(log + [row], c)
         == History(log, c) + if row.CallChange? && row.call == c then [row] else []
  {
    assert (log + [row])[..|log|] == log;
  }

  lemma {:induction false} CampaignHistoryAppend(log: seq<AuditRow>, row: AuditRow, k: CampaignId)
    ensures CampaignHistory(log + [row], k)
         == CampaignHistory(log, k)
          + if (row.CampaignPromoted? || row.CampaignCompleted?) && row.campaign == k then [row] else []
  {
    assert (log + [row])[..|log|] == log;
  }

  /** Rows that change no call and no campaign (skips and ignored webhooks). */
  predicate Inert(rows: seq<AuditRow>) {
    forall i :: 0 <= i < |rows| ==> rows[i].Skipped? || rows[i].WebhookIgnored?
  }

  lemma {:induction false} InertAppend(log: seq<AuditRow>, rows: seq<AuditRow>, c: CallId, k: CampaignId)
    requires Inert(rows)
    ensures History(log + rows, c) == History(log, c)
    ensures CampaignHistory(log + rows, k) == CampaignHistory(log, k)
    decreases |rows|
  {
    if rows == [] {
      assert log + rows == log;
    } else {
      var front, last := rows[..|rows| - 1], rows[|rows| - 1];
      assert log + rows == (log + front) + [last];
      InertAppend(log, front, c, k);
      HistoryAppend(log + front, last, c);
      CampaignHistoryAppend(log + front, last, k);
    }
  }

  /** The two kinds of row that advance attempt_epoch. */
  predicate Bumps(event: EventType) {
    event.CallClaimed? || event.ReclaimExecuted?
  }

  /** What an auditor who knows only the log concludes about a call: its status and its epoch. */
  function Replay(h: seq<AuditRow>): (CallStatus, int) {
    if h == [] then (Queued, 0)
    else
      var row := h[|h| - 1];
      var before := Replay(h[..|h| - 1]);
      if row.CallChange? then (row.after, before.1 + if Bumps(row.event) then 1 else 0) else before
  }

  /** What the log says about a campaign. */
  function ReplayCampaign(h: seq<AuditRow>): CampaignStatus {
    if h == [] then PendingCampaign
    else
      match h[|h| - 1]
      case CampaignPromoted(_) => ActiveCampaign
      case CampaignCompleted(_, verdict) => verdict
      case _ => ReplayCampaign(h[..|h| - 1])
  }

  /** The status and epoch a row says the call had before it, and after it. */
  function StartOf(row: AuditRow): (CallStatus, int)
    requires row.CallChange?
  {
    (row.before, if Bumps(row.event) then row.epoch - 1 else row.epoch)
  }

  function EndOf(row: AuditRow): (CallStatus, int)
    requires row.CallChange?
  {
    (row.after, row.epoch)
  }

  /** Each row starts in the state the rows before it replay to, and the first at (QUEUED, 0). */
  predicate Chained(h: seq<AuditRow>) {
    h == []
    || (var last, front := h[|h| - 1], h[..|h| - 1];
        Chained(front) && last.CallChange? && StartOf(last) == Replay(front))
  }

  /** Link by link: every row starts exactly where the row before it ended. */
  lemma {:induction false} ChainedLinks(h: seq<AuditRow>, i: nat)
    requires Chained(h) && i < |h|
    ensures h[i].CallChange? && (i > 0 ==> h[i-1].CallChange?)
    ensures StartOf(h[i]) == if i == 0 then (Queued, 0) else EndOf(h[i-1])
  {
    if i < |h| - 1 {
      ChainedLinks(h[..|h| - 1], i);
    } else {
      ReplayIsLast(h[..i]);
    }
  }

  /** Number of rows of one event type. */
  function Rows(h: seq<AuditRow>, event: EventType): nat {
    if h == [] then 0
    else
      Rows(h[..|h| - 1], event) + if h[|h| - 1].CallChange? && h[|h| - 1].event == event then 1 else 0
  }

  /** Number of rows that move the call into RETRY_PENDING. */
  function RetryMoves(h: seq<AuditRow>): nat {
    if h == [] then 0
    else
      RetryMoves(h[..|h| - 1]) + if h[|h| - 1].CallChange? && h[|h| - 1].after.RetryPending? then 1 else 0
  }

  lemma {:induction false} CountsAppend(h: seq<AuditRow>, row: AuditRow)
    ensures forall e :: Rows(h + [row], e) == Rows(h, e) + if row.CallChange? && row.event == e then 1 else 0
    ensures RetryMoves(h + [row]) == RetryMoves(h) + if row.CallChange? && row.after.RetryPending? then 1 else 0
    ensures Replay(h + [row])
         == if row.CallChange? then (row.after, Replay(h).1 + if Bumps(row.event) then 1 else 0) else Replay(h)
  {
    assert (h + [row])[..|h|] == h;
  }

  /** The replayed epoch counts the claims and the reclaims. */
  lemma {:induction false} EpochCountsDials(h: seq<AuditRow>)
    requires Chained(h)
    ensures Replay(h).1 == Rows(h, CallClaimed) + Rows(h, ReclaimExecuted)
  {
    if h != [] {
      EpochCountsDials(h[..|h| - 1]);
    }
  }

  /** In a chained history the replayed state is the last row's. */
  lemma {:induction false} ReplayIsLast(h: seq<AuditRow>)
    requires Chained(h)
    ensures Replay(h) == if h == [] then (Queued, 0) else EndOf(h[|h|-1])
  {
    if h != [] {
      ReplayIsLast(h[..|h| - 1]);
    }
  }

  /** In a chained history the epochs never fall, and a claim's epoch is above every earlier one. */
  lemma {:induction false} EpochsRise(h: seq<AuditRow>, i: nat, j: nat)
    requires Chained(h) && i < j < |h|
    ensures h[i].CallChange? && h[j].CallChange?
    ensures h[i].epoch <= h[j].epoch
    ensures Bumps(h[j].event) ==> h[i].epoch < h[j].epoch
    decreases j
  {
    ChainedLinks(h, j);
    if i < j - 1 {
      EpochsRise(h, i, j - 1);
    }
  }
}

/** The values the service stores: call and campaign rows, provider events and audit rows. */
module Types {

  datatype Option<+T> = None | Some(value: T)

  type CallId = nat
  type CampaignId = nat
  type Handle = nat      // a provider_call_id
  type EventId = nat     // the pair (provider, provider_event_id) that keys the inbox
  type Phone = nat
  type Time = real       // seconds

  datatype CallStatus =
    | Queued | Dialing | InProgress | RetryPending
    | Completed | Failed | NoAnswer | Busy

  datatype CampaignStatus = PendingCampaign | ActiveCampaign | CompletedCampaign | FailedCampaign

  predicate Terminal(s: CallStatus) {
    s.Completed? || s.Failed? || s.NoAnswer? || s.Busy?
  }

  predicate InFlight(s: CallStatus) {
    s.Dialing? || s.InProgress?
  }

  /** The statuses covered by the partial unique index on `phone`. */
  predicate HoldsPhone(s: CallStatus) {
    s.Queued? || s.Dialing? || s.InProgress?
  }

  predicate Concluded(s: CampaignStatus) {
    s.CompletedCampaign? || s.FailedCampaign?
  }

  datatype Call = Call(
    campaign: CampaignId,
    phone: Phone,
    status: CallStatus,
    epoch: int,
    retries: int,
    nextAttempt: Option<Time>,
    handle: Option<Handle>,
    createdAt: Time,
    updatedAt: Time)

  /** `maxAttempts` and `base` are the two fields of the campaign's retry_config. */
  datatype Campaign = Campaign(
    status: CampaignStatus,
    maxConcurrent: int,
    maxAttempts: int,
    base: real)

  /** A parsed webhook payload. */
  datatype Event = Event(handle: Handle, status: CallStatus)

  datatype InboxRow = InboxRow(event: Event, processed: bool)

  datatype EventType =
    | CallClaimed | CallDispatch | CallRetryDue | CallTransition
    | ReclaimSkippedTerminal | ReclaimExecuted
    | SkipBusinessHour | SkipConcurrency

  /** One row of scheduler_audit. The constructors say which nullable columns are filled. */
  datatype AuditRow =
    | CallChange(event: EventType, campaign: CampaignId, call: CallId, epoch: int,
                 before: CallStatus, after: CallStatus, handle: Option<Handle>)
    | CampaignPromoted(campaign: CampaignId)
    | CampaignCompleted(campaign: CampaignId, verdict: CampaignStatus)
    | Skipped(event: EventType, campaign: CampaignId)
    | WebhookIgnored(subject: Option<CallId>, terminalWins: bool)
}

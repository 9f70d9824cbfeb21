/**
 From the provider to the tables: an event that a simulation emits is inserted into the inbox and the inbox is
 drained. No event is taken for the replay of another one.
 */
module Ingest {
  import opened Types
  import opened Backoff
  import opened Tables
  import opened Protocol
  import opened Store
  import opened Daemons
  import Provider
  import Wake

  lemma InsertStep(s: State, n: nat, x: EventId, event: Event)
    requires Reachable(NO_PREMISES, n, s)
    ensures var inserted := s.(db := InsertEvent(s.db, x, event));
            Reachable(NO_PREMISES, n, inserted) && Leads(s, inserted)
  {
    ReachNext(NO_PREMISES, n, s, Deliver(x, event));
    LeadsNowhere(s);
    LeadsNext(s, s, Deliver(x, event));
  }

  lemma InsertQueues(db: Db, x: EventId, event: Event)
    ensures Pending(InsertEvent(db, x, event).inbox) == Pending(db.inbox) + if x in db.inbox then {} else {x}
  {
  }

  /**
   handle_webhook_ingest: insert the event, then drain. It is a run of the protocol. A new event joins the queue;
   a replay adds nothing, and if nothing else is queued it changes nothing at all.
   */
  method Ingest(db: Database, wake: Wake.SchedulerWake, x: EventId, event: Event, jitters: seq<real>, now: Time,
                ghost s: State, ghost n: nat)
    returns (processed: nat, ghost errors: nat)
    requires Reachable(NO_PREMISES, n, s) && s.db == db.State() && s.lookups == map[] && s.now == now
    requires PositiveBases(db.campaigns) && forall i :: 0 <= i < |jitters| ==> Jitter(jitters[i])
    modifies db, wake
    ensures Ran(s, db.State())
    ensures SameEvents(old(InsertEvent(db.State(), x, event)).inbox, db.inbox)
    ensures processed <= |jitters| && (processed < |jitters| ==> Pending(db.inbox) == {}) && errors <= processed
    ensures processed < |jitters| ==> forall y :: y in db.inbox ==> db.inbox[y].processed
    ensures |Pending(db.inbox)| + processed
         == |Pending(old(db.inbox))| + (if x in old(db.inbox) then 0 else 1) + errors
    ensures x in old(db.inbox) && Pending(old(db.inbox)) == {} ==>
              db.State() == old(db.State()) && wake.flag == old(wake.flag)
  {
    InsertStep(s, n, x, event);
    InsertQueues(db.State(), x, event);
    db.InsertInbox(x, event);
    ghost var inserted := s.(db := db.State());
    processed, errors := ProcessPendingInbox(db, wake, jitters, now, inserted, n);
    LeadsOn(s, inserted, inserted.(db := db.State()));
  }

  // ---- the provider as the sender ----------------------------------------------------------------

  /** How the pair (provider_call_id, sequence number) is written as one event id. */
  type Naming = (Handle, nat) -> EventId

  ghost predicate Injective(name: Naming) {
    forall h, i, g, j :: name(h, i) == name(g, j) ==> h == g && i == j
  }

  /** Event `x` of the inbox is one that the provider has sent. */
  ghost predicate WasSent(sent: seq<Provider.Payload>, name: Naming, x: EventId, event: Event) {
    exists i :: 0 <= i < |sent| && sent[i].event == event && name(event.handle, sent[i].number) == x
  }

  ghost predicate AllSent(inbox: map<EventId, InboxRow>, sent: seq<Provider.Payload>, name: Naming) {
    forall x :: x in inbox ==> WasSent(sent, name, x, inbox[x].event)
  }

  /** The number of a new event makes its id one that the inbox does not have. */
  lemma NewIdIsFresh(inbox: map<EventId, InboxRow>, m: Provider.Mock, name: Naming, h: Handle)
    requires Injective(name) && Provider.Numbered(m) && AllSent(inbox, m.sent, name)
    ensures name(h, m.eventSeq + 1) !in inbox
  {
    forall x | x in inbox ensures x != name(h, m.eventSeq + 1) {
      var i :| 0 <= i < |m.sent| && m.sent[i].event == inbox[x].event && name(inbox[x].event.handle, m.sent[i].number) == x;
      assert m.sent[i].number == i + 1;
    }
  }

  lemma StillSent(sent: seq<Provider.Payload>, p: Provider.Payload, name: Naming, x: EventId, event: Event)
    requires WasSent(sent, name, x, event) || (event == p.event && x == name(event.handle, p.number))
    ensures WasSent(sent + [p], name, x, event)
  {
    if WasSent(sent, name, x, event) {
      var i :| 0 <= i < |sent| && sent[i].event == event && name(event.handle, sent[i].number) == x;
      assert (sent + [p])[i] == sent[i];
    } else {
      assert (sent + [p])[|sent|] == p;
    }
  }

  lemma InboxStaysSent(before: map<EventId, InboxRow>, after: map<EventId, InboxRow>, sent: seq<Provider.Payload>,
                       p: Provider.Payload, name: Naming)
    requires AllSent(before, sent, name)
    requires SameEvents(before[name(p.event.handle, p.number) := InboxRow(p.event, false)], after)
    ensures AllSent(after, sent + [p], name)
  {
    forall x | x in after ensures WasSent(sent + [p], name, x, after[x].event) {
      StillSent(sent, p, name, x, after[x].event);
    }
  }

  /**
   A simulation takes its next step, and the sink ingests the event. The event always joins the queue: its id
   is never one that the inbox has, so deduplication drops no event of the provider.
   */
  method EmitAndIngest(db: Database, wake: Wake.SchedulerWake, provider: Provider.MockProvider, task: nat, name: Naming,
                       jitters: seq<real>, now: Time, ghost s: State, ghost n: nat)
    returns (processed: nat, ghost errors: nat, ghost x: EventId)
    requires Provider.Can(provider.State(), Provider.Emit(task, true))
    requires Injective(name) && Provider.Numbered(provider.State()) && AllSent(db.inbox, provider.sent, name)
    requires Reachable(NO_PREMISES, n, s) && s.db == db.State() && s.lookups == map[] && s.now == now
    requires PositiveBases(db.campaigns) && forall i :: 0 <= i < |jitters| ==> Jitter(jitters[i])
    modifies db, wake, provider
    ensures Ran(s, db.State())
    ensures Provider.Numbered(provider.State()) && AllSent(db.inbox, provider.sent, name)
    ensures old(Provider.MockInv(provider.State())) ==> Provider.MockInv(provider.State())
    ensures x !in old(db.inbox) && x in db.inbox
    ensures var t := old(provider.tasks)[task]; db.inbox[x].event == Event(t.handle, t.plan[t.at])
    ensures |Pending(db.inbox)| + processed == |Pending(old(db.inbox))| + 1 + errors
  {
    NewIdIsFresh(db.inbox, provider.State(), name, provider.tasks[task].handle);
    ghost var sent := provider.sent;
    provider.Simulate(task, true);
    var payload := provider.sent[|provider.sent|-1];
    var id := name(payload.event.handle, payload.number);
    x := id;
    processed, errors := Ingest(db, wake, id, payload.event, jitters, now, s, n);
    InboxStaysSent(old(db.inbox), db.inbox, sent, payload, name);
  }
}

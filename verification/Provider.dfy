/**
 The in-process provider: idempotent dialling, one simulated call per handle, and the stream of events it
 hands to the event sink. It is the environment of the protocol model, so its promises are proved here.
 */
module Provider {
  import opened Types
  import Protocol

  type Key = (CallId, int)   // the idempotency key "call_id:attempt_epoch"

  datatype CallState = CallState(key: Key, phone: Phone, status: CallStatus)

  /** One _simulate task: `at` statuses of its plan have been emitted; a task that is not alive has ended early. */
  datatype Task = Task(handle: Handle, plan: seq<CallStatus>, at: nat, alive: bool)

  /** A payload handed to the sink; (event.handle, number) is its provider_event_id. */
  datatype Payload = Payload(event: Event, number: nat)

  datatype Mock = Mock(
    byIdem: map<Key, Handle>,
    states: map<Handle, CallState>,
    tasks: seq<Task>,
    eventSeq: nat,
    sent: seq<Payload>)

  const NEW_MOCK := Mock(map[], map[], [], 0, [])

  /** The outcomes _simulate can draw. */
  predicate Drawable(outcome: CallStatus) {
    outcome.Completed? || outcome.Failed? || outcome.NoAnswer?
  }

  function Trajectory(outcome: CallStatus): seq<CallStatus> {
    if outcome.Completed? then [Dialing, InProgress, outcome] else [Dialing, outcome]
  }

  /** `token` is the random handle and `outcome` the random outcome. */
  datatype Act =
    | Place(key: Key, phone: Phone, token: Handle, outcome: CallStatus)
    | Emit(i: nat, accepted: bool)   // task i takes its next step; the sink accepts the payload or raises
    | Close

  predicate Can(m: Mock, a: Act) {
    match a
    case Place(_, _, _, outcome) => Drawable(outcome)
    case Emit(i, _) => i < |m.tasks| && m.tasks[i].alive && m.tasks[i].at < |m.tasks[i].plan| && m.tasks[i].handle in m.states
    case Close => true
  }

  function Cancelled(tasks: seq<Task>): (r: seq<Task>)
    ensures |r| == |tasks| && forall i :: 0 <= i < |tasks| ==> r[i] == tasks[i].(alive := false)
  {
    if tasks == [] then [] else [tasks[0].(alive := false)] + Cancelled(tasks[1..])
  }

  function Do(m: Mock, a: Act): Mock
    requires Can(m, a)
  {
    match a
    case Place(key, phone, token, outcome) =>
      if key in m.byIdem then m
      else
        m.(byIdem := m.byIdem[key := token],
           states := m.states[token := CallState(key, phone, Dialing)],
           tasks := m.tasks + [Task(token, Trajectory(outcome), 0, true)])
    case Emit(i, accepted) =>
      var task := m.tasks[i];
      var status := task.plan[task.at];
      m.(states := m.states[task.handle := m.states[task.handle].(status := status)],
         tasks := m.tasks[i := task.(at := task.at + 1, alive := accepted)],
         eventSeq := m.eventSeq + 1,
         sent := m.sent + [Payload(Event(task.handle, status), m.eventSeq + 1)])
    case Close => m.(tasks := Cancelled(m.tasks))
  }

  predicate IsRun(m: Mock, acts: seq<Act>)
    decreases |acts|
  {
    acts == [] || (Can(m, acts[0]) && IsRun(Do(m, acts[0]), acts[1..]))
  }

  function RunOf(m: Mock, acts: seq<Act>): Mock
    requires IsRun(m, acts)
    decreases |acts|
  {
    if acts == [] then m else RunOf(Do(m, acts[0]), acts[1..])
  }

  /** MockProvider, statement by statement. */
  class MockProvider {
    var byIdem: map<Key, Handle>
    var states: map<Handle, CallState>
    var tasks: seq<Task>
    var eventSeq: nat
    var sent: seq<Payload>

    function State(): Mock
      reads this
    {
      Mock(byIdem, states, tasks, eventSeq, sent)
    }

    constructor ()
      ensures State() == NEW_MOCK
    {
      byIdem, states, tasks, eventSeq, sent := map[], map[], [], 0, [];
    }

    /** place_call: a known key gets its old handle and starts no second simulation. */
    method PlaceCall(key: Key, phone: Phone, token: Handle, outcome: CallStatus) returns (handle: Handle)
      requires Drawable(outcome)
      modifies this
      ensures State() == Do(old(State()), Place(key, phone, token, outcome))
      ensures key in byIdem && byIdem[key] == handle
      ensures key in old(byIdem) ==> State() == old(State()) && handle == old(byIdem)[key]
      ensures key !in old(byIdem) ==>
                && handle == token && byIdem == old(byIdem)[key := token]
                && states == old(states)[token := CallState(key, phone, Dialing)]
                && |tasks| == |old(tasks)| + 1 && tasks[..|old(tasks)|] == old(tasks)
                && var task := tasks[|old(tasks)|]; task == Task(token, task.plan, 0, true) && Whole(task.plan, outcome)
    {
      if key in byIdem {
        return byIdem[key];
      }
      handle := token;
      byIdem := byIdem[key := handle];
      states := states[handle := CallState(key, phone, Dialing)];
      tasks := tasks + [Task(handle, Trajectory(outcome), 0, true)];
    }

    /** _emit */
    method EmitStatus(h: Handle, status: CallStatus)
      modifies this`eventSeq, this`sent
      ensures eventSeq == old(eventSeq) + 1
      ensures sent == old(sent) + [Payload(Event(h, status), eventSeq)]
    {
      eventSeq := eventSeq + 1;
      sent := sent + [Payload(Event(h, status), eventSeq)];
    }

    /** One stretch of _simulate, from one sleep to the next. */
    method Simulate(i: nat, accepted: bool)
      requires Can(State(), Emit(i, accepted))
      modifies this
      ensures State() == Do(old(State()), Emit(i, accepted))
      ensures |sent| == |old(sent)| + 1 && sent[|sent|-1].number == eventSeq
      ensures EmissionOK(old(State()), State(), old(tasks)[i].handle)
    {
      ghost var before := State();
      var task := tasks[i];
      var status := task.plan[task.at];
      states := states[task.handle := states[task.handle].(status := status)];
      EmitStatus(task.handle, status);
      tasks := tasks[i := task.(at := task.at + 1, alive := accepted)];
      EmitIsOK(before, Emit(i, accepted));
    }

    /** get_status; an unknown handle raises. */
    method GetStatus(h: Handle) returns (status: Option<CallStatus>)
      ensures status == if h in states then Some(states[h].status) else None
      ensures MockInv(State()) && status.Some? && Terminal(status.value) ==> Whole(StatusesOf(sent, h), status.value)
    {
      if h !in states {
        return None;
      }
      status := Some(states[h].status);
      if MockInv(State()) && Terminal(status.value) {
        TerminalEndsPlan(State(), h);
      }
    }

    /** aclose: every running simulation is cancelled. */
    method Close()
      modifies this
      ensures State() == Do(old(State()), Act.Close)
    {
      var cancelled: seq<Task> := [];
      for i := 0 to |tasks|
        invariant tasks == old(tasks)
        invariant |cancelled| == i && forall j :: 0 <= j < i ==> cancelled[j] == tasks[j].(alive := false)
      {
        cancelled := cancelled + [tasks[i].(alive := false)];
      }
      tasks := cancelled;
      assert tasks == Cancelled(old(tasks));
    }
  }

  // ---- idempotency -----------------------------------------------------------------------------

  /** A key keeps its handle for ever, however often it is dialled again. */
  lemma {:induction false} HandleNeverChanges(m: Mock, acts: seq<Act>, key: Key)
    requires IsRun(m, acts) && key in m.byIdem
    ensures key in RunOf(m, acts).byIdem && RunOf(m, acts).byIdem[key] == m.byIdem[key]
    decreases |acts|
  {
    if acts != [] {
      HandleNeverChanges(Do(m, acts[0]), acts[1..], key);
    }
  }

  predicate Distinct(byIdem: map<Key, Handle>) {
    forall k, j :: k in byIdem && j in byIdem && byIdem[k] == byIdem[j] ==> k == j
  }

  /** The act mints a handle that is already in use. */
  predicate Collides(m: Mock, a: Act) {
    a.Place? && a.key !in m.byIdem && exists k :: k in m.byIdem && m.byIdem[k] == a.token
  }

  /** Distinct keys keep distinct handles if and only if no random token repeats. */
  lemma HandlesDistinctExactlyWhen(m: Mock, a: Act)
    requires Distinct(m.byIdem) && Can(m, a)
    ensures Distinct(Do(m, a).byIdem) <==> !Collides(m, a)
  {
    if Collides(m, a) {
      var k :| k in m.byIdem && m.byIdem[k] == a.token;
      assert Do(m, a).byIdem[k] == Do(m, a).byIdem[a.key];
    }
  }

  predicate NeverCollides(m: Mock, acts: seq<Act>)
    requires IsRun(m, acts)
    decreases |acts|
  {
    acts == [] || (!Collides(m, acts[0]) && NeverCollides(Do(m, acts[0]), acts[1..]))
  }

  /** H3: in a run without such a repeat, distinct keys have distinct handles. */
  lemma {:induction false} KeysGetDistinctHandles(m: Mock, acts: seq<Act>)
    requires Distinct(m.byIdem) && IsRun(m, acts) && NeverCollides(m, acts)
    ensures Distinct(RunOf(m, acts).byIdem)
    decreases |acts|
  {
    if acts != [] {
      HandlesDistinctExactlyWhen(m, acts[0]);
      KeysGetDistinctHandles(Do(m, acts[0]), acts[1..]);
    }
  }

  // ---- the event stream ------------------------------------------------------------------------

  /** The statuses sent for one handle, oldest first. */
  function StatusesOf(sent: seq<Payload>, h: Handle): seq<CallStatus> {
    if sent == [] then []
    else
      var last := sent[|sent|-1];
      StatusesOf(sent[..|sent|-1], h) + if last.event.handle == h then [last.event.status] else []
  }

  /** All that a call which ends as `status` sends: IN_PROGRESS only if it completes. */
  predicate Whole(plan: seq<CallStatus>, status: CallStatus) {
    match status
    case Completed => plan == [Dialing, InProgress, Completed]
    case Failed => plan == [Dialing, Failed]
    case NoAnswer => plan == [Dialing, NoAnswer]
    case _ => false
  }

  predicate PlanOK(plan: seq<CallStatus>) {
    plan == [Dialing, InProgress, Completed] || plan == [Dialing, Failed] || plan == [Dialing, NoAnswer]
  }

  /** What a call has sent so far. */
  predicate Underway(statuses: seq<CallStatus>) {
    statuses <= [Dialing, InProgress, Completed] || statuses <= [Dialing, Failed] || statuses <= [Dialing, NoAnswer]
  }

  predicate TaskOK(m: Mock, i: nat)
    requires i < |m.tasks|
  {
    var task := m.tasks[i];
    && PlanOK(task.plan) && task.at <= |task.plan|
    && task.handle in m.states
    && m.states[task.handle].status == (if task.at == 0 then Dialing else task.plan[task.at - 1])
    && StatusesOf(m.sent, task.handle) == task.plan[..task.at]
  }

  predicate Numbered(m: Mock) {
    m.eventSeq == |m.sent| && forall i :: 0 <= i < |m.sent| ==> m.sent[i].number == i + 1
  }

  ghost predicate HasTask(m: Mock, h: Handle) {
    exists i :: 0 <= i < |m.tasks| && m.tasks[i].handle == h
  }

  /** Every handle has one simulation, and what was sent for the handle is what its simulation has done so far. */
  ghost predicate Simulated(m: Mock) {
    && (forall i :: 0 <= i < |m.tasks| ==> TaskOK(m, i))
    && (forall h :: h in m.states ==> HasTask(m, h))
    && (forall i :: 0 <= i < |m.sent| ==> m.sent[i].event.handle in m.states)
  }

  predicate OneTaskEach(m: Mock) {
    forall i, j :: 0 <= i < j < |m.tasks| ==> m.tasks[i].handle != m.tasks[j].handle
  }

  /** What holds of the provider as long as no random token repeats. */
  ghost predicate MockInv(m: Mock) {
    && (forall h :: h in m.states ==> h in m.byIdem.Values)
    && Simulated(m) && OneTaskEach(m)
  }

  lemma {:induction false} NothingSent(sent: seq<Payload>, h: Handle)
    requires forall i :: 0 <= i < |sent| ==> sent[i].event.handle != h
    ensures StatusesOf(sent, h) == []
  {
    if sent != [] {
      NothingSent(sent[..|sent|-1], h);
    }
  }

  lemma {:induction false} StatusesAppend(sent: seq<Payload>, p: Payload, h: Handle)
    ensures StatusesOf(sent + [p], h) == StatusesOf(sent, h) + if p.event.handle == h then [p.event.status] else []
  {
    assert (sent + [p])[..|sent|] == sent;
  }

  lemma PlaceKeepsTasks(m: Mock, a: Act, i: nat)
    requires MockInv(m) && Can(m, a) && a.Place? && a.key !in m.byIdem && a.token !in m.states && i <= |m.tasks|
    ensures TaskOK(Do(m, a), i)
  {
    NothingSent(m.sent, a.token);
    if i < |m.tasks| {
      assert TaskOK(m, i);
    }
  }

  lemma SameHandles(m: Mock, m': Mock, h: Handle)
    requires HasTask(m, h) && |m.tasks| <= |m'.tasks|
    requires forall i :: 0 <= i < |m.tasks| ==> m'.tasks[i].handle == m.tasks[i].handle
    ensures HasTask(m', h)
  {
    var i :| 0 <= i < |m.tasks| && m.tasks[i].handle == h;
    assert m'.tasks[i].handle == h;
  }

  lemma PlaceKeepsInv(m: Mock, a: Act)
    requires MockInv(m) && Can(m, a) && a.Place? && !Collides(m, a)
    ensures MockInv(Do(m, a))
  {
    var m' := Do(m, a);
    if a.key !in m.byIdem {
      assert a.token !in m.states;
      forall i | 0 <= i < |m.tasks| ensures m.tasks[i].handle != a.token {
        assert TaskOK(m, i);
      }
      assert OneTaskEach(m');
      forall i | 0 <= i < |m'.tasks| ensures TaskOK(m', i) {
        PlaceKeepsTasks(m, a, i);
      }
      assert m'.byIdem[a.key] == a.token && m'.tasks[|m.tasks|].handle == a.token;
      forall h | h in m'.states ensures HasTask(m', h) && h in m'.byIdem.Values {
        if h != a.token {
          var k :| k in m.byIdem && m.byIdem[k] == h;
          assert m'.byIdem[k] == h;
          SameHandles(m, m', h);
        }
      }
    }
  }

  lemma EmitKeepsTask(m: Mock, a: Act, j: nat)
    requires Simulated(m) && OneTaskEach(m) && Can(m, a) && a.Emit? && j < |m.tasks|
    ensures TaskOK(Do(m, a), j) && Do(m, a).tasks[j].handle == m.tasks[j].handle
  {
    var task := m.tasks[a.i];
    StatusesAppend(m.sent, Payload(Event(task.handle, task.plan[task.at]), m.eventSeq + 1), m.tasks[j].handle);
    assert TaskOK(m, j);
    assert task.plan[..task.at + 1] == task.plan[..task.at] + [task.plan[task.at]];
  }

  lemma EmitKeepsInv(m: Mock, a: Act)
    requires MockInv(m) && Can(m, a) && a.Emit?
    ensures MockInv(Do(m, a))
  {
    var m' := Do(m, a);
    forall j | 0 <= j < |m.tasks| ensures TaskOK(m', j) && m'.tasks[j].handle == m.tasks[j].handle {
      EmitKeepsTask(m, a, j);
    }
    forall h | h in m'.states ensures HasTask(m', h) {
      SameHandles(m, m', h);
    }
  }

  /** The new status of `h` is sent as the next one of a trajectory; a terminal one completes it. */
  predicate SendsNext(m: Mock, m': Mock, h: Handle) {
    && h in m'.states && StatusesOf(m'.sent, h) == StatusesOf(m.sent, h) + [m'.states[h].status]
    && Underway(StatusesOf(m'.sent, h))
    && (Terminal(m'.states[h].status) ==> Whole(StatusesOf(m'.sent, h), m'.states[h].status))
  }

  lemma EmitSends(m: Mock, a: Act)
    requires MockInv(m) && Can(m, a) && a.Emit?
    ensures MockInv(Do(m, a)) && SendsNext(m, Do(m, a), m.tasks[a.i].handle)
  {
    var m', task := Do(m, a), m.tasks[a.i];
    EmitKeepsInv(m, a);
    StatusesAppend(m.sent, Payload(Event(task.handle, task.plan[task.at]), m.eventSeq + 1), task.handle);
    SentIsUnderway(m', task.handle);
    if Terminal(m'.states[task.handle].status) {
      TerminalEndsPlan(m', task.handle);
    }
  }

  /** An emission keeps the numbers in order; and without repeated tokens the trajectories. */
  ghost predicate EmissionOK(m: Mock, m': Mock, h: Handle) {
    (Numbered(m) ==> Numbered(m')) && (MockInv(m) ==> MockInv(m') && SendsNext(m, m', h))
  }

  lemma EmitIsOK(m: Mock, a: Act)
    requires Can(m, a) && a.Emit?
    ensures EmissionOK(m, Do(m, a), m.tasks[a.i].handle)
  {
    if MockInv(m) {
      EmitSends(m, a);
    }
  }

  lemma SentIsUnderway(m: Mock, h: Handle)
    requires Simulated(m)
    ensures Underway(StatusesOf(m.sent, h))
  {
    if HasTask(m, h) {
      var t :| 0 <= t < |m.tasks| && m.tasks[t].handle == h;
      assert TaskOK(m, t);
    } else {
      assert h !in m.states;
      NothingSent(m.sent, h);
    }
  }

  /** In every run from the start, what was sent for a handle is a prefix of one of the three trajectories. */
  lemma SendsInOrder(acts: seq<Act>, h: Handle)
    requires IsRun(NEW_MOCK, acts) && NeverCollides(NEW_MOCK, acts)
    ensures Underway(StatusesOf(RunOf(NEW_MOCK, acts).sent, h))
  {
    RunKeepsInv(NEW_MOCK, acts);
    SentIsUnderway(RunOf(NEW_MOCK, acts), h);
  }

  /** A COMPLETED call was IN_PROGRESS before, and a FAILED or unanswered one never was. */
  lemma InProgressExactlyWhenCompleted(acts: seq<Act>, h: Handle)
    requires IsRun(NEW_MOCK, acts) && NeverCollides(NEW_MOCK, acts)
    ensures var statuses := StatusesOf(RunOf(NEW_MOCK, acts).sent, h);
            && (Completed in statuses ==> statuses == [Dialing, InProgress, Completed])
            && (Failed in statuses || NoAnswer in statuses ==> InProgress !in statuses)
  {
    SendsInOrder(acts, h);
  }

  lemma EndedTaskNext(m: Mock, a: Act, i: nat)
    requires Can(m, a) && i < |m.tasks| && !m.tasks[i].alive
    ensures i < |Do(m, a).tasks| && Do(m, a).tasks[i] == m.tasks[i]
  {
  }

  lemma {:induction false} EndedTaskStays(m: Mock, acts: seq<Act>, i: nat)
    requires MockInv(m) && IsRun(m, acts) && NeverCollides(m, acts) && i < |m.tasks| && !m.tasks[i].alive
    ensures MockInv(RunOf(m, acts)) && i < |RunOf(m, acts).tasks|
    ensures RunOf(m, acts).tasks[i] == m.tasks[i]
    decreases |acts|
  {
    if acts != [] {
      ActKeepsInv(m, acts[0]);
      EndedTaskNext(m, acts[0], i);
      EndedTaskStays(Do(m, acts[0]), acts[1..], i);
    }
  }

  /** After a sink that raises, or a close, nothing more is ever sent for the handle. */
  lemma NothingFollows(m: Mock, a: Act, acts: seq<Act>, i: nat)
    requires MockInv(m) && i < |m.tasks| && (a == Emit(i, false) || a == Close) && Can(m, a)
    requires IsRun(Do(m, a), acts) && NeverCollides(Do(m, a), acts)
    ensures StatusesOf(RunOf(Do(m, a), acts).sent, m.tasks[i].handle) == StatusesOf(Do(m, a).sent, m.tasks[i].handle)
  {
    var after := Do(m, a);
    ActKeepsInv(m, a);
    EndedTaskStays(after, acts, i);
    assert TaskOK(after, i) && TaskOK(RunOf(after, acts), i);
  }

  function Emits(n: nat): seq<Act> {
    if n == 0 then [] else [Emit(0, true)] + Emits(n - 1)
  }

  /** The one simulation has taken its first `at` steps, and takes the other `n` now. */
  lemma {:induction false} EmitsAll(m: Mock, h: Handle, plan: seq<CallStatus>, at: nat, n: nat)
    requires m.tasks == [Task(h, plan, at, true)] && h in m.states && at + n == |plan|
    ensures IsRun(m, Emits(n)) && NeverCollides(m, Emits(n))
    ensures h in RunOf(m, Emits(n)).states
    ensures n > 0 ==> RunOf(m, Emits(n)).states[h].status == plan[|plan|-1]
    decreases n
  {
    if n > 0 {
      assert Emits(n)[1..] == Emits(n - 1);
      EmitsAll(Do(m, Emit(0, true)), h, plan, at + 1, n - 1);
    }
  }

  /** Each of the three outcomes can be drawn, and its call then sends exactly its trajectory: three events or two. */
  lemma EachOutcomeHappens(key: Key, phone: Phone, token: Handle, outcome: CallStatus)
    requires outcome in {Completed, Failed, NoAnswer}
    ensures var acts := [Place(key, phone, token, outcome)] + Emits(if outcome == Completed then 3 else 2);
            && IsRun(NEW_MOCK, acts) && NeverCollides(NEW_MOCK, acts)
            && Whole(StatusesOf(RunOf(NEW_MOCK, acts).sent, token), outcome)
  {
    var n := if outcome == Completed then 3 else 2;
    var acts := [Place(key, phone, token, outcome)] + Emits(n);
    var placed := Do(NEW_MOCK, acts[0]);
    assert acts[1..] == Emits(n);
    EmitsAll(placed, token, placed.tasks[0].plan, 0, n);
    RunKeepsInv(NEW_MOCK, acts);
    TerminalEndsPlan(RunOf(NEW_MOCK, acts), token);
  }

  lemma CloseKeepsInv(m: Mock)
    requires MockInv(m)
    ensures MockInv(Do(m, Close))
  {
    var m' := Do(m, Close);
    forall i | 0 <= i < |m.tasks| ensures TaskOK(m', i) {
      assert TaskOK(m, i);
    }
    forall h | h in m'.states ensures HasTask(m', h) {
      SameHandles(m, m', h);
    }
  }

  lemma ActKeepsInv(m: Mock, a: Act)
    requires MockInv(m) && Can(m, a) && !Collides(m, a)
    ensures MockInv(Do(m, a))
  {
    match a {
      case Place(_, _, _, _) => PlaceKeepsInv(m, a);
      case Emit(_, _) => EmitKeepsInv(m, a);
      case Close => CloseKeepsInv(m);
    }
  }

  lemma {:induction false} RunKeepsInv(m: Mock, acts: seq<Act>)
    requires MockInv(m) && IsRun(m, acts) && NeverCollides(m, acts)
    ensures MockInv(RunOf(m, acts))
    decreases |acts|
  {
    if acts != [] {
      ActKeepsInv(m, acts[0]);
      RunKeepsInv(Do(m, acts[0]), acts[1..]);
    }
  }

  lemma {:induction false} RunKeepsNumbered(m: Mock, acts: seq<Act>)
    requires Numbered(m) && IsRun(m, acts)
    ensures Numbered(RunOf(m, acts))
    decreases |acts|
  {
    if acts != [] {
      RunKeepsNumbered(Do(m, acts[0]), acts[1..]);
    }
  }

  /** Two events never carry the same provider_event_id, whatever the random tokens are. */
  lemma EventIdsDistinct(acts: seq<Act>, i: nat, j: nat)
    requires IsRun(NEW_MOCK, acts) && i < j < |RunOf(NEW_MOCK, acts).sent|
    ensures var sent := RunOf(NEW_MOCK, acts).sent;
            (sent[i].event.handle, sent[i].number) != (sent[j].event.handle, sent[j].number)
  {
    RunKeepsNumbered(NEW_MOCK, acts);
  }

  // ---- H1, H2 and H3 ---------------------------------------------------------------------------

  /** The earlier events of a handle are a prefix of what has been sent for it. */
  lemma {:induction false} PrefixOf(sent: seq<Payload>, i: nat, h: Handle)
    requires i <= |sent|
    ensures StatusesOf(sent[..i], h) <= StatusesOf(sent, h)
    decreases |sent|
  {
    if i == |sent| {
      assert sent[..i] == sent;
    } else {
      assert sent[..|sent|-1][..i] == sent[..i];
      PrefixOf(sent[..|sent|-1], i, h);
    }
  }

  lemma {:induction false} SentIsListed(sent: seq<Payload>, j: nat)
    requires j < |sent|
    ensures sent[j].event.status in StatusesOf(sent, sent[j].event.handle)
    decreases |sent|
  {
    if j < |sent| - 1 {
      SentIsListed(sent[..|sent|-1], j);
    }
  }

  /** `inbox` has processed nothing of handle `h` that was sent at or after position `i`. */
  ghost predicate DrainedBefore(inbox: map<EventId, InboxRow>, sent: seq<Payload>, i: nat, h: Handle)
    requires i <= |sent|
  {
    forall x :: x in inbox && inbox[x].processed && inbox[x].event.handle == h ==>
      exists j :: 0 <= j < i && sent[j].event == inbox[x].event
  }

  /** The event sent at `i` continues the plan of its handle's simulation. */
  lemma NextInTrajectory(m: Mock, i: nat) returns (plan: seq<CallStatus>)
    requires Simulated(m) && i < |m.sent|
    ensures PlanOK(plan)
    ensures StatusesOf(m.sent[..i], m.sent[i].event.handle) + [m.sent[i].event.status] <= plan
  {
    var h := m.sent[i].event.handle;
    assert HasTask(m, h);
    var t :| 0 <= t < |m.tasks| && m.tasks[t].handle == h;
    assert TaskOK(m, t);
    plan := m.tasks[t].plan;
    PrefixOf(m.sent, i + 1, h);
    StatusesAppend(m.sent[..i], m.sent[i], h);
    assert m.sent[..i+1] == m.sent[..i] + [m.sent[i]];
  }

  lemma NextIsInOrder(m: Mock, inbox: map<EventId, InboxRow>, i: nat)
    requires Simulated(m) && i < |m.sent| && DrainedBefore(inbox, m.sent, i, m.sent[i].event.handle)
    ensures Protocol.InOrder(inbox, m.sent[i].event)
  {
    var event := m.sent[i].event;
    var plan := NextInTrajectory(m, i);
    var earlier := StatusesOf(m.sent[..i], event.handle);
    assert earlier == plan[..|earlier|] && plan[|earlier|] == event.status;
    forall x | x in inbox && inbox[x].processed && inbox[x].event.handle == event.handle
      ensures inbox[x].event.status in plan[..|earlier|]
    {
      var j :| 0 <= j < i && m.sent[j].event == inbox[x].event;
      SentIsListed(m.sent[..i], j);
    }
  }

  /** Draining a handle's events in the order in which they were sent meets H2, and so H1. */
  lemma EmissionMeetsH2(acts: seq<Act>, inbox: map<EventId, InboxRow>, i: nat)
    requires IsRun(NEW_MOCK, acts) && NeverCollides(NEW_MOCK, acts) && i < |RunOf(NEW_MOCK, acts).sent|
    requires var sent := RunOf(NEW_MOCK, acts).sent; DrainedBefore(inbox, sent, i, sent[i].event.handle)
    ensures Protocol.InOrder(inbox, RunOf(NEW_MOCK, acts).sent[i].event)
  {
    RunKeepsInv(NEW_MOCK, acts);
    NextIsInOrder(RunOf(NEW_MOCK, acts), inbox, i);
  }

  lemma TerminalEndsPlan(m: Mock, h: Handle)
    requires Simulated(m) && OneTaskEach(m) && h in m.states && Terminal(m.states[h].status)
    ensures Whole(StatusesOf(m.sent, h), m.states[h].status)
    ensures forall i: nat :: i < |m.tasks| && m.tasks[i].handle == h ==> !Can(m, Emit(i, true)) && !Can(m, Emit(i, false))
  {
    assert HasTask(m, h);
    var t :| 0 <= t < |m.tasks| && m.tasks[t].handle == h;
    assert TaskOK(m, t);
    var plan, at := m.tasks[t].plan, m.tasks[t].at;
    assert at == |plan| && plan[..at] == plan;
  }

  /**
   A terminal status that get_status reports is the call's last: all of its trajectory has been sent, and its
   simulation takes no further step.
   */
  lemma ReportedTerminalIsLast(acts: seq<Act>, h: Handle)
    requires IsRun(NEW_MOCK, acts) && NeverCollides(NEW_MOCK, acts)
    requires h in RunOf(NEW_MOCK, acts).states && Terminal(RunOf(NEW_MOCK, acts).states[h].status)
    ensures var m := RunOf(NEW_MOCK, acts); Whole(StatusesOf(m.sent, h), m.states[h].status)
    ensures var m := RunOf(NEW_MOCK, acts);
            forall i: nat :: i < |m.tasks| && m.tasks[i].handle == h ==> !Can(m, Emit(i, true)) && !Can(m, Emit(i, false))
  {
    RunKeepsInv(NEW_MOCK, acts);
    TerminalEndsPlan(RunOf(NEW_MOCK, acts), h);
  }
}

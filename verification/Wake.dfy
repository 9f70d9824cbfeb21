/** The wake flag and the scheduler loop: when a notification can wait for the safety-net timer. */
module Wake {

  /** SchedulerWake: one event flag. */
  class SchedulerWake {
    var flag: bool

    constructor ()
      ensures !flag
    {
      flag := false;
    }

    method Notify()
      modifies this
      ensures flag
    {
      flag := true;
    }

    method Clear()
      modifies this
      ensures !flag
    {
      flag := false;
    }

    /** Returns once the flag is set, or when the timer fires first. It does not clear the flag. */
    method Wait(timerFired: bool) returns (signalled: bool)
      requires flag || timerFired
      ensures signalled == flag
      ensures Can(Loop(flag, Waiting, false), WayOut(signalled)) && (!signalled ==> timerFired)
    {
      signalled := flag;
    }
  }

  /** Where scheduler_loop is: in wait, past wait, past clear, past the tick's read, or sleeping after an error. */
  datatype Place = Waiting | Woken | Cleared | Ticking | Resting

  /** `pending`: some capacity was freed and notified after the latest tick's read. */
  datatype Loop = Loop(flag: bool, place: Place, pending: bool)

  /** How the wait ended. */
  function WayOut(signalled: bool): Action {
    if signalled then Signal else Timer
  }

  /** What one turn of scheduler_loop does, if nothing is notified during it. */
  function TurnOf(signalled: bool, raised: bool): seq<Action> {
    [WayOut(signalled), Clear, Read] + if raised then [Raise, Rested] else [EndTick]
  }

  datatype Action =
    | Notify        // another task frees capacity and notifies
    | Signal        // wait returns because the flag is set
    | Timer         // wait returns because the safety net elapsed
    | Clear
    | Read          // the tick reads the tables
    | EndTick
    | Raise         // the tick raises, before or after its read
    | Rested        // the error pause is over

  predicate Can(s: Loop, a: Action) {
    match a
    case Notify => true
    case Signal => s.place.Waiting? && s.flag
    case Timer => s.place.Waiting?
    case Clear => s.place.Woken?
    case Read => s.place.Cleared?
    case EndTick => s.place.Ticking?
    case Raise => s.place.Cleared? || s.place.Ticking?
    case Rested => s.place.Resting?
  }

  function Do(s: Loop, a: Action): Loop
    requires Can(s, a)
  {
    match a
    case Notify => s.(flag := true, pending := true)
    case Signal => s.(place := Woken)
    case Timer => s.(place := Woken)
    case Clear => s.(flag := false, place := Cleared)
    case Read => s.(place := Ticking, pending := false)
    case EndTick => s.(place := Waiting)
    case Raise => s.(place := Resting)
    case Rested => s.(place := Waiting)
  }

  predicate IsRun(s: Loop, actions: seq<Action>)
    decreases |actions|
  {
    actions == [] || (Can(s, actions[0]) && IsRun(Do(s, actions[0]), actions[1..]))
  }

  function RunOf(s: Loop, actions: seq<Action>): Loop
    requires IsRun(s, actions)
    decreases |actions|
  {
    if actions == [] then s else RunOf(Do(s, actions[0]), actions[1..])
  }

  /** A pending notification is held by the flag, or a tick that has not read yet will see its effect. */
  predicate NotLost(s: Loop) {
    s.pending ==> s.flag || s.place.Woken? || s.place.Cleared?
  }

  /** The tick raises after the flag was cleared and before it read anything. */
  predicate FailsUnread(s: Loop, a: Action) {
    a.Raise? && s.place.Cleared? && !s.flag && s.pending
  }

  /** The one way a wakeup gets lost: a tick that fails between the clear and its read. */
  lemma LostExactlyWhen(s: Loop, a: Action)
    requires Can(s, a) && NotLost(s)
    ensures NotLost(Do(s, a)) <==> !FailsUnread(s, a)
  {
  }

  predicate NoUnreadFailure(s: Loop, actions: seq<Action>)
    requires IsRun(s, actions)
    decreases |actions|
  {
    actions == [] || (!FailsUnread(s, actions[0]) && NoUnreadFailure(Do(s, actions[0]), actions[1..]))
  }

  const START := Loop(false, Waiting, false)

  lemma {:induction false} KeepsNotLost(s: Loop, actions: seq<Action>)
    requires IsRun(s, actions) && NotLost(s) && NoUnreadFailure(s, actions)
    ensures NotLost(RunOf(s, actions))
    decreases |actions|
  {
    if actions != [] {
      LostExactlyWhen(s, actions[0]);
      KeepsNotLost(Do(s, actions[0]), actions[1..]);
    }
  }

  /** A turn that the wait could begin like this ends waiting again, with the flag down and nothing pending. */
  lemma TurnRuns(flag: bool, pending: bool, signalled: bool, raised: bool)
    requires Can(Loop(flag, Waiting, pending), WayOut(signalled))
    ensures IsRun(Loop(flag, Waiting, pending), TurnOf(signalled, raised))
    ensures RunOf(Loop(flag, Waiting, pending), TurnOf(signalled, raised)) == START
  {
    var way, end := WayOut(signalled), if raised then [Raise, Rested] else [EndTick];
    assert TurnOf(signalled, raised) == [way] + ([Clear] + ([Read] + end));
    var woken := Loop(flag, Woken, pending);
    var ticking := Do(Do(woken, Clear), Read);
    Prepend(ticking, end[0], end[1..]);
    Prepend(Do(woken, Clear), Read, end);
    Prepend(woken, Clear, [Read] + end);
    Prepend(Loop(flag, Waiting, pending), way, [Clear] + ([Read] + end));
  }

  lemma Prepend(s: Loop, a: Action, rest: seq<Action>)
    requires Can(s, a)
    ensures IsRun(s, [a] + rest) <==> IsRun(Do(s, a), rest)
    ensures IsRun(s, [a] + rest) ==> RunOf(s, [a] + rest) == RunOf(Do(s, a), rest)
  {
    assert ([a] + rest)[1..] == rest;
  }

  // ---- in terms of what happened -----------------------------------------------------------------

  /** A notification came after the last `mark`, or after the start if there was no `mark`. */
  predicate NotifiedSince(actions: seq<Action>, mark: Action) {
    actions != [] && (actions[|actions|-1].Notify? || (actions[|actions|-1] != mark && NotifiedSince(actions[..|actions|-1], mark)))
  }

  lemma {:induction false} RunSnoc(s: Loop, actions: seq<Action>, a: Action)
    requires IsRun(s, actions + [a])
    ensures IsRun(s, actions) && Can(RunOf(s, actions), a) && RunOf(s, actions + [a]) == Do(RunOf(s, actions), a)
    decreases |actions|
  {
    if actions == [] {
      assert [] + [a] == [a] && [a][1..] == [];
    } else {
      assert (actions + [a])[1..] == actions[1..] + [a];
      RunSnoc(Do(s, actions[0]), actions[1..], a);
    }
  }

  /** The flag and the pending notification, read off the actions alone. */
  lemma {:induction false} FlagIsHistory(actions: seq<Action>)
    requires IsRun(START, actions)
    ensures RunOf(START, actions).flag <==> NotifiedSince(actions, Clear)
    ensures RunOf(START, actions).pending <==> NotifiedSince(actions, Read)
    decreases |actions|
  {
    if actions != [] {
      var front := actions[..|actions|-1];
      assert actions == front + [actions[|actions|-1]];
      RunSnoc(START, front, actions[|actions|-1]);
      FlagIsHistory(front);
    }
  }

  /**
   After `front`, the tick raises before it has read anything, a notification has come since the latest read,
   and none since the flag was cleared.
   */
  predicate LosesWakeup(front: seq<Action>, a: Action)
    requires IsRun(START, front)
  {
    a.Raise? && RunOf(START, front).place.Cleared? && NotifiedSince(front, Read) && !NotifiedSince(front, Clear)
  }

  /** No wakeup is lost at any point of the run. */
  predicate NeverLost(actions: seq<Action>)
    requires IsRun(START, actions)
    decreases |actions|
  {
    && NotLost(RunOf(START, actions))
    && (actions != [] ==>
          var front := actions[..|actions|-1];
          RunFront(actions);
          NeverLost(front))
  }

  predicate LosesNone(actions: seq<Action>)
    requires IsRun(START, actions)
    decreases |actions|
  {
    actions != [] ==>
      var front := actions[..|actions|-1];
      RunFront(actions);
      !LosesWakeup(front, actions[|actions|-1]) && LosesNone(front)
  }

  lemma RunFront(actions: seq<Action>)
    requires IsRun(START, actions) && actions != []
    ensures IsRun(START, actions[..|actions|-1])
  {
    assert actions == actions[..|actions|-1] + [actions[|actions|-1]];
    RunSnoc(START, actions[..|actions|-1], actions[|actions|-1]);
  }

  /**
   A run of the loop keeps every wakeup if and only if no tick raised between the clear and its read while the
   latest notification lay between the previous read and that clear.
   */
  lemma {:induction false} NeverLostExactlyWhen(actions: seq<Action>)
    requires IsRun(START, actions)
    ensures NeverLost(actions) <==> LosesNone(actions)
    decreases |actions|
  {
    if actions != [] {
      var front, last := actions[..|actions|-1], actions[|actions|-1];
      assert actions == front + [last];
      RunSnoc(START, front, last);
      NeverLostExactlyWhen(front);
      FlagIsHistory(front);
      if NotLost(RunOf(START, front)) {
        LostExactlyWhen(RunOf(START, front), last);
      }
    }
  }

  /** The loop's own next actions up to its next read, without the timer. */
  function PathToRead(s: Loop): seq<Action> {
    match s.place
    case Waiting => [Signal, Clear, Read]
    case Woken => [Clear, Read]
    case Cleared => [Read]
    case Ticking => [EndTick, Signal, Clear, Read]
    case Resting => [Rested, Signal, Clear, Read]
  }

  /**
   No wakeup is lost: in any run without such a failure, a notification that came after the latest read leads
   to the next tick's read without the safety-net timer, unless the loop is pausing after an error.
   */
  lemma NextReadNeedsNoTimer(actions: seq<Action>)
    requires IsRun(START, actions) && NoUnreadFailure(START, actions)
    ensures NotLost(RunOf(START, actions))
    ensures var s := RunOf(START, actions);
            s.pending ==>
              && IsRun(s, PathToRead(s)) && Timer !in PathToRead(s)
              && !RunOf(s, PathToRead(s)).pending && RunOf(s, PathToRead(s)).place.Ticking?
  {
    KeepsNotLost(START, actions);
    var s := RunOf(START, actions);
    if s.pending {
      PathWorks(s);
    }
  }

  lemma PathWorks(s: Loop)
    requires NotLost(s) && s.pending
    ensures IsRun(s, PathToRead(s))
    ensures !RunOf(s, PathToRead(s)).pending && RunOf(s, PathToRead(s)).place.Ticking?
  {
    match s.place
    case Waiting => ThreeSteps(s);
    case Woken => TwoSteps(s);
    case Cleared => OneStep(s);
    case Ticking =>
      ThreeSteps(Do(s, EndTick));
      assert PathToRead(s)[1..] == PathToRead(Do(s, EndTick));
    case Resting =>
      ThreeSteps(Do(s, Rested));
      assert PathToRead(s)[1..] == PathToRead(Do(s, Rested));
  }

  lemma OneStep(s: Loop)
    requires s.place.Cleared?
    ensures IsRun(s, [Read]) && RunOf(s, [Read]) == Do(s, Read)
  {
    assert [Read][1..] == [];
  }

  lemma TwoSteps(s: Loop)
    requires s.place.Woken?
    ensures IsRun(s, [Clear, Read]) && RunOf(s, [Clear, Read]) == Do(Do(s, Clear), Read)
  {
    OneStep(Do(s, Clear));
    assert [Clear, Read][1..] == [Read];
  }

  lemma ThreeSteps(s: Loop)
    requires s.place.Waiting? && s.flag
    ensures IsRun(s, [Signal, Clear, Read]) && RunOf(s, [Signal, Clear, Read]) == Do(Do(Do(s, Signal), Clear), Read)
  {
    TwoSteps(Do(s, Signal));
    assert [Signal, Clear, Read][1..] == [Clear, Read];
  }

  /** A concrete lost wakeup: notified, cleared, and then the tick fails before its read. */
  lemma WakeupCanBeLost()
    ensures var actions := [Notify, Signal, Clear, Raise, Rested];
            && IsRun(START, actions)
            && RunOf(START, actions) == Loop(false, Waiting, true)
            && !Can(RunOf(START, actions), Signal)
  {
    var actions := [Notify, Signal, Clear, Raise, Rested];
    assert actions[1..] == [Signal, Clear, Raise, Rested];
    assert actions[1..][1..] == [Clear, Raise, Rested];
    assert actions[1..][1..][1..] == [Raise, Rested];
    assert actions[1..][1..][1..][1..] == [Rested];
    assert actions[1..][1..][1..][1..][1..] == [];
  }
}

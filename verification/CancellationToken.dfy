/**
 The cancellation token: an atomic flag and a list of sleepers, with any number of threads that
 cancel or wait. A waiter registers with the list before it looks at the flag.
 */
module CancellationToken {
  datatype Pc =
    | Idle
    | Store | Notify | CancelDone            // cancel
    | Create | Register | Check | Sleep | Recheck | Returned   // cancelled

  /** `waiting` are the registered sleepers not yet notified, `woken` those notified. */
  datatype State = State(flag: bool, notified: bool, waiting: set<nat>, woken: set<nat>, pcs: map<nat, Pc>)

  function At(s: State, t: nat): Pc { if t in s.pcs then s.pcs[t] else Idle }

  function Goto(s: State, t: nat, pc: Pc): State { s.(pcs := s.pcs[t := pc]) }

  datatype Event = StartCancel(thread: nat) | StartWait(thread: nat) | Resume(thread: nat)

  /** `registerFirst` is the order of the source; without it the flag is read before registering. */
  function Advance(s: State, t: nat, registerFirst: bool): State
  {
    match At(s, t)
    case Idle => s
    case Store => Goto(s.(flag := true), t, Notify)
    case Notify => Goto(s.(woken := s.woken + s.waiting, waiting := {}, notified := true), t, CancelDone)
    case CancelDone => s
    case Create =>
      Goto(s.(waiting := s.waiting - {t}, woken := s.woken - {t}), t, if registerFirst then Register else Check)
    case Register => Goto(s.(waiting := s.waiting + {t}), t, if registerFirst then Check else Sleep)
    case Check => Goto(s, t, if s.flag then Returned else if registerFirst then Sleep else Register)
    case Sleep => if t in s.woken then Goto(s, t, Recheck) else s
    case Recheck => Goto(s, t, if s.flag then Returned else Create)
    case Returned => s
  }

  function Step(s: State, e: Event, registerFirst: bool): State
  {
    match e
    case StartCancel(t) => if At(s, t).Idle? then Goto(s, t, Store) else s
    case StartWait(t) => if At(s, t).Idle? then Goto(s, t, Create) else s
    case Resume(t) => Advance(s, t, registerFirst)
  }

  const INITIAL := State(false, false, {}, {}, map[])

  function Run(events: seq<Event>, registerFirst: bool): State
  {
    if events == [] then INITIAL
    else Step(Run(events[..|events| - 1], registerFirst), events[|events| - 1], registerFirst)
  }

  /** Where a thread may be, given the flag and the lists. */
  predicate ThreadInv(s: State, t: nat)
  {
    match At(s, t)
    case Notify => s.flag
    case CancelDone => s.flag && s.notified
    case Check => t in s.waiting || t in s.woken
    case Sleep => t in s.woken || (t in s.waiting && !s.notified)
    case Returned => s.flag
    case _ => true
  }

  ghost predicate Inv(s: State)
  {
    (s.notified ==> s.flag) && forall t: nat :: ThreadInv(s, t)
  }

  lemma StepKeepsInvariant(s: State, e: Event)
    requires Inv(s)
    ensures Inv(Step(s, e, true))
  {
    var n := Step(s, e, true);
    assert ThreadInv(s, e.thread);
    forall u: nat ensures ThreadInv(n, u) {
      assert ThreadInv(s, u);
    }
  }

  lemma {:induction false} RunKeepsInvariant(events: seq<Event>)
    ensures Inv(Run(events, true))
  {
    hide Inv, Step;
    if events == [] {
      InitialInvariant();
    } else {
      RunKeepsInvariant(events[..|events| - 1]);
      StepKeepsInvariant(Run(events[..|events| - 1], true), events[|events| - 1]);
    }
  }

  lemma InitialInvariant()
    ensures Inv(INITIAL)
  {
  }

  /** A thread that nothing will wake. */
  predicate Stuck(s: State, t: nat) { At(s, t).Sleep? && t !in s.woken }

  /** Once a cancel call is over no waiter sleeps un-notified, and a waiter returns only if cancelled. */
  lemma NoLostWakeUp(events: seq<Event>, canceller: nat, waiter: nat)
    ensures var s := Run(events, true);
            && (At(s, canceller).CancelDone? ==> !Stuck(s, waiter))
            && (At(s, waiter).Returned? ==> s.flag)
  {
    hide Run;
    RunKeepsInvariant(events);
    var s := Run(events, true);
    assert ThreadInv(s, canceller) && ThreadInv(s, waiter);
  }

  // ----- cancelled waiters return ----------------------------------------

  /** How many steps a waiter has left once the token is cancelled. */
  function StepsLeft(pc: Pc): nat
  {
    match pc
    case Create => 3
    case Register => 2
    case Check => 1
    case Sleep => 2
    case Recheck => 1
    case _ => 0
  }

  predicate Waits(pc: Pc) { pc.Create? || pc.Register? || pc.Check? || pc.Sleep? || pc.Recheck? || pc.Returned? }

  function Count(events: seq<Event>, e: Event): nat
  {
    if events == [] then 0 else Count(events[..|events| - 1], e) + if events[|events| - 1] == e then 1 else 0
  }

  function Left(n: nat, taken: nat): nat { if taken <= n then n - taken else 0 }

  lemma WaiterStep(s: State, e: Event, waiter: nat)
    requires Inv(s) && s.notified && Waits(At(s, waiter))
    ensures var n := Step(s, e, true);
            && n.notified && Waits(At(n, waiter))
            && StepsLeft(At(n, waiter)) == Left(StepsLeft(At(s, waiter)), if e == Resume(waiter) then 1 else 0)
            && (StepsLeft(At(n, waiter)) == 0 <==> At(n, waiter).Returned?)
  {
    assert ThreadInv(s, waiter);
  }

  lemma {:induction false} WaiterAdvances(events: seq<Event>, more: seq<Event>, waiter: nat)
    requires Run(events, true).notified && Waits(At(Run(events, true), waiter))
    ensures var (s, n) := (Run(events, true), Run(events + more, true));
            && n.notified && Waits(At(n, waiter))
            && StepsLeft(At(n, waiter)) == Left(StepsLeft(At(s, waiter)), Count(more, Resume(waiter)))
    decreases |more|
  {
    hide Step, Inv;
    if more == [] {
      assert events + more == events;
    } else {
      var front, e := more[..|more| - 1], more[|more| - 1];
      WaiterAdvances(events, front, waiter);
      assert (events + more)[..|events + more| - 1] == events + front;
      RunKeepsInvariant(events + front);
      WaiterStep(Run(events + front, true), e, waiter);
    }
  }

  /** After a finished cancel call a waiter has returned as soon as it took three steps, whatever others do. */
  lemma CancelledWaiterReturns(events: seq<Event>, more: seq<Event>, canceller: nat, waiter: nat)
    requires At(Run(events, true), canceller).CancelDone? && Waits(At(Run(events, true), waiter))
    requires Count(more, Resume(waiter)) >= 3
    ensures At(Run(events + more, true), waiter).Returned?
  {
    hide Run, Count;
    RunKeepsInvariant(events);
    assert ThreadInv(Run(events, true), canceller);
    WaiterAdvances(events, more, waiter);
  }

  /** With the flag unset a waiter comes to sleep in three steps, registered and not yet woken. */
  lemma UncancelledWaiterSleeps(s: State, t: nat)
    requires At(s, t).Create? && !s.flag
    ensures var n := Step(Step(Step(s, Resume(t), true), Resume(t), true), Resume(t), true);
            At(n, t).Sleep? && t in n.waiting && t !in n.woken && !n.flag && Step(n, Resume(t), true) == n
  {
  }

  /** A cancel call takes two steps: it sets the flag, then wakes every registered waiter. */
  lemma CancelSetsAndWakes(s: State, t: nat)
    requires At(s, t).Store?
    ensures var stored := Step(s, Resume(t), true);
            var n := Step(stored, Resume(t), true);
            && stored == s.(flag := true, pcs := s.pcs[t := Notify])
            && At(n, t).CancelDone? && n.flag && n.waiting == {} && n.woken == s.woken + s.waiting
  {
  }

  lemma Extend(events: seq<Event>, s: State, e: Event, registerFirst: bool)
    returns (longer: seq<Event>, n: State)
    requires s == Run(events, registerFirst)
    ensures n == Step(s, e, registerFirst) && n == Run(longer, registerFirst)
  {
    hide Step;
    longer, n := events + [e], Step(s, e, registerFirst);
    assert longer[..|longer| - 1] == events;
  }

  lemma NoEvents(registerFirst: bool)
    ensures Run([], registerFirst) == INITIAL
  {
  }

  /** Why the order is that way round: a waiter that looked first and registered later could sleep forever. */
  lemma LateRegistrationLosesWakeUp()
    ensures exists events :: At(Run(events, false), 1).CancelDone? && Stuck(Run(events, false), 0)
  {
    hide Run;
    NoEvents(false);
    var events, s := [], INITIAL;
    events, s := Extend(events, s, StartWait(0), false);
    events, s := Extend(events, s, Resume(0), false);
    events, s := Extend(events, s, Resume(0), false);
    events, s := Extend(events, s, StartCancel(1), false);
    events, s := Extend(events, s, Resume(1), false);
    events, s := Extend(events, s, Resume(1), false);
    events, s := Extend(events, s, Resume(0), false);
  }
}

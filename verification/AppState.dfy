/**
 The application state that transfers, connections, the updater and shutdown share, as a
 concurrent object: any number of threads, and one step for each lock operation and each
 access to an atomic. Nothing is assumed of the scheduler.
 */
module AppState {
  import opened Wrappers

  datatype Call =
    | TryBeginTransfer(id: string) | FinishTransfer(id: string)
    | BeginConnection | BeginInstall | EndInstall | Shutdown

  /** Where a thread is: what it will do next. */
  datatype Pc =
    | Idle
    // try_begin_transfer
    | BeginEarlyFlag(id: string) | BeginLockGate(id: string) | BeginInstalling(id: string)
    | BeginLockSlot(id: string) | BeginFlag(id: string) | BeginStore(id: string)
    | BeginUnlockSlot | BeginUnlockGate
    // finish_transfer
    | FinishLockSlot(id: string) | FinishStore(id: string) | FinishUnlockSlot
    // try_begin_connection_activity and the drop of its guard
    | OpenLockGate | OpenFlag | OpenInstalling | OpenAdd | OpenUnlockGate(admitted: bool) | Guarding
    // try_begin_updater_install
    | InstallLockGate | InstallFlag | InstallInstalling | InstallLockSlot | InstallReadSlot
    | InstallUnlockSlot(free: bool) | InstallCount | InstallStore | InstallUnlockGate
    // end_updater_install
    | EndLockGate | EndStore | EndUnlockGate
    // shutdown
    | ShutdownFlag | ShutdownSet | ShutdownLockSlot | ShutdownClear | ShutdownUnlockSlot

  /**
   The shared state. `gate` and `slotLock` name the lock holders; `cleared` records that a
   shutdown call which found the flag unset has emptied the slot.
   */
  datatype Shared = Shared(
    gate: Option<nat>, slotLock: Option<nat>,
    active: Option<string>, connections: nat, installing: bool, flag: bool, cleared: bool)

  datatype State = State(shared: Shared, pcs: map<nat, Pc>)

  function At(s: State, t: nat): Pc { if t in s.pcs then s.pcs[t] else Idle }

  function Enter(call: Call): Pc
  {
    match call
    case TryBeginTransfer(id) => BeginEarlyFlag(id)
    case FinishTransfer(id) => FinishLockSlot(id)
    case BeginConnection => OpenLockGate
    case BeginInstall => InstallLockGate
    case EndInstall => EndLockGate
    case Shutdown => ShutdownFlag
  }

  datatype Outcome = Outcome(shared: Shared, pc: Pc)

  /** A thread that waits for a lock stays where it is. */
  function LockGate(g: Shared, t: nat, pc: Pc, next: Pc): Outcome
  {
    if g.gate.None? then Outcome(g.(gate := Some(t)), next) else Outcome(g, pc)
  }

  function LockSlot(g: Shared, t: nat, pc: Pc, next: Pc): Outcome
  {
    if g.slotLock.None? then Outcome(g.(slotLock := Some(t)), next) else Outcome(g, pc)
  }

  function UnlockGate(g: Shared, next: Pc): Outcome { Outcome(g.(gate := None), next) }

  function UnlockSlot(g: Shared, next: Pc): Outcome { Outcome(g.(slotLock := None), next) }

  /** The next step of thread `t`. */
  function Act(g: Shared, t: nat, pc: Pc): Outcome
  {
    match pc
    case Idle => Outcome(g, pc)
    case BeginEarlyFlag(id) => Outcome(g, if g.flag then Idle else BeginLockGate(id))
    case BeginLockGate(id) => LockGate(g, t, pc, BeginInstalling(id))
    case BeginInstalling(id) => Outcome(g, if g.installing then BeginUnlockGate else BeginLockSlot(id))
    case BeginLockSlot(id) => LockSlot(g, t, pc, BeginFlag(id))
    case BeginFlag(id) => Outcome(g, if g.flag then BeginUnlockSlot else BeginStore(id))
    case BeginStore(id) => Outcome(if g.active.Some? then g else g.(active := Some(id)), BeginUnlockSlot)
    case BeginUnlockSlot => UnlockSlot(g, BeginUnlockGate)
    case BeginUnlockGate => UnlockGate(g, Idle)
    case FinishLockSlot(id) => LockSlot(g, t, pc, FinishStore(id))
    case FinishStore(id) => Outcome(if g.active == Some(id) then g.(active := None) else g, FinishUnlockSlot)
    case FinishUnlockSlot => UnlockSlot(g, Idle)
    case OpenLockGate => LockGate(g, t, pc, OpenFlag)
    case OpenFlag => Outcome(g, if g.flag then OpenUnlockGate(false) else OpenInstalling)
    case OpenInstalling => Outcome(g, if g.installing then OpenUnlockGate(false) else OpenAdd)
    case OpenAdd => Outcome(g.(connections := g.connections + 1), OpenUnlockGate(true))
    case OpenUnlockGate(admitted) => UnlockGate(g, if admitted then Guarding else Idle)
    case Guarding => Outcome(g.(connections := if g.connections > 0 then g.connections - 1 else 0), Idle)
    case InstallLockGate => LockGate(g, t, pc, InstallFlag)
    case InstallFlag => Outcome(g, if g.flag then InstallUnlockGate else InstallInstalling)
    case InstallInstalling => Outcome(g, if g.installing then InstallUnlockGate else InstallLockSlot)
    case InstallLockSlot => LockSlot(g, t, pc, InstallReadSlot)
    case InstallReadSlot => Outcome(g, InstallUnlockSlot(g.active.None?))
    case InstallUnlockSlot(free) => UnlockSlot(g, if free then InstallCount else InstallUnlockGate)
    case InstallCount => Outcome(g, if g.connections > 0 then InstallUnlockGate else InstallStore)
    case InstallStore => Outcome(g.(installing := true), InstallUnlockGate)
    case InstallUnlockGate => UnlockGate(g, Idle)
    case EndLockGate => LockGate(g, t, pc, EndStore)
    case EndStore => Outcome(g.(installing := false), EndUnlockGate)
    case EndUnlockGate => UnlockGate(g, Idle)
    case ShutdownFlag => Outcome(g, if g.flag then Idle else ShutdownSet)
    case ShutdownSet => Outcome(g.(flag := true), ShutdownLockSlot)
    case ShutdownLockSlot => LockSlot(g, t, pc, ShutdownClear)
    case ShutdownClear => Outcome(g.(active := None, cleared := true), ShutdownUnlockSlot)
    case ShutdownUnlockSlot => UnlockSlot(g, Idle)
  }

  datatype Event = Start(thread: nat, call: Call) | Resume(thread: nat)

  function Step(s: State, e: Event): State
  {
    match e
    case Start(t, call) => if At(s, t).Idle? then s.(pcs := s.pcs[t := Enter(call)]) else s
    case Resume(t) => var o := Act(s.shared, t, At(s, t)); State(o.shared, s.pcs[t := o.pc])
  }

  const INITIAL := State(Shared(None, None, None, 0, false, false, false), map[])

  function Run(start: State, events: seq<Event>): State
  {
    if events == [] then start else Step(Run(start, events[..|events| - 1]), events[|events| - 1])
  }

  // ----- the invariant ---------------------------------------------------

  predicate HoldsGate(pc: Pc)
  {
    match pc
    case BeginInstalling(_) => true
    case BeginLockSlot(_) => true
    case BeginFlag(_) => true
    case BeginStore(_) => true
    case BeginUnlockSlot => true
    case BeginUnlockGate => true
    case OpenFlag => true
    case OpenInstalling => true
    case OpenAdd => true
    case OpenUnlockGate(_) => true
    case InstallFlag => true
    case InstallInstalling => true
    case InstallLockSlot => true
    case InstallReadSlot => true
    case InstallUnlockSlot(_) => true
    case InstallCount => true
    case InstallStore => true
    case InstallUnlockGate => true
    case EndStore => true
    case EndUnlockGate => true
    case _ => false
  }

  predicate HoldsSlot(pc: Pc)
  {
    match pc
    case BeginFlag(_) => true
    case BeginStore(_) => true
    case BeginUnlockSlot => true
    case FinishStore(_) => true
    case FinishUnlockSlot => true
    case InstallReadSlot => true
    case InstallUnlockSlot(_) => true
    case ShutdownClear => true
    case ShutdownUnlockSlot => true
    case _ => false
  }

  /** The thread has been counted and has not given the count back. */
  predicate Counted(pc: Pc) { pc == OpenUnlockGate(true) || pc.Guarding? }

  function CountedThreads(pcs: map<nat, Pc>): set<nat>
  {
    set t | t in pcs && Counted(pcs[t])
  }

  /** A thread is inside a critical section exactly if it holds the lock. */
  predicate Holds(g: Shared, t: nat, pc: Pc)
  {
    (HoldsGate(pc) <==> g.gate == Some(t)) && (HoldsSlot(pc) <==> g.slotLock == Some(t))
  }

  /** What a thread inside the gate has established stays true until it leaves. */
  predicate Knows(g: Shared, pc: Pc)
  {
    match pc
    case BeginLockSlot(_) => !g.installing
    case BeginFlag(_) => !g.installing
    case BeginStore(_) => !g.installing && !g.cleared
    case OpenAdd => !g.installing
    case InstallUnlockSlot(free) => free ==> g.active.None?
    case InstallCount => g.active.None?
    case InstallStore => g.active.None? && g.connections == 0
    case ShutdownLockSlot => g.flag
    case ShutdownClear => g.flag
    case _ => true
  }

  /** What the shared state must satisfy by itself. */
  predicate Sane(g: Shared)
  {
    && (g.installing ==> g.active.None? && g.connections == 0)
    && (g.cleared ==> g.flag && g.active.None?)
  }

  ghost predicate Inv(s: State)
  {
    && Sane(s.shared)
    && (forall t: nat :: Holds(s.shared, t, At(s, t)) && Knows(s.shared, At(s, t)))
    && s.shared.connections == |CountedThreads(s.pcs)|
  }

  // ----- one thread's step ----------------------------------------------

  lemma ActKeepsSane(g: Shared, t: nat, pc: Pc)
    requires Sane(g) && Knows(g, pc)
    ensures Sane(Act(g, t, pc).shared)
  {
  }

  lemma ActKeepsLocks(g: Shared, t: nat, pc: Pc)
    requires Holds(g, t, pc)
    ensures var o := Act(g, t, pc); Holds(o.shared, t, o.pc)
  {
  }

  lemma ActKeepsKnowledge(g: Shared, t: nat, pc: Pc)
    requires Sane(g) && Knows(g, pc)
    ensures var o := Act(g, t, pc); Knows(o.shared, o.pc)
  {
  }

  lemma ActKeepsOwn(g: Shared, t: nat, pc: Pc)
    requires Sane(g) && Holds(g, t, pc) && Knows(g, pc)
    ensures var o := Act(g, t, pc); Sane(o.shared) && Holds(o.shared, t, o.pc) && Knows(o.shared, o.pc)
  {
    hide Act, Sane, Holds, Knows;
    ActKeepsSane(g, t, pc);
    ActKeepsLocks(g, t, pc);
    ActKeepsKnowledge(g, t, pc);
  }

  /** What another thread holds and knows survives: it rests on what changes only under its own lock. */
  lemma ActKeepsOthers(g: Shared, t: nat, pc: Pc, u: nat, other: Pc)
    requires Sane(g) && t != u && Holds(g, t, pc) && Knows(g, pc) && Holds(g, u, other) && Knows(g, other)
    ensures var o := Act(g, t, pc); Holds(o.shared, u, other) && Knows(o.shared, other)
  {
    assert !(HoldsGate(pc) && HoldsGate(other)) && !(HoldsSlot(pc) && HoldsSlot(other));
  }

  lemma ActLeavesCount(g: Shared, t: nat, pc: Pc)
    requires !pc.OpenAdd? && !pc.OpenUnlockGate? && !pc.Guarding?
    ensures var o := Act(g, t, pc); o.shared.connections == g.connections && !Counted(o.pc) && !Counted(pc)
  {
  }

  /** The counter and the thread agree on whether it is counted. */
  lemma ActCounts(g: Shared, t: nat, pc: Pc)
    requires pc.Guarding? ==> g.connections > 0
    ensures var o := Act(g, t, pc);
            o.shared.connections == g.connections + (if Counted(o.pc) && !Counted(pc) then 1 else 0)
                                    - (if Counted(pc) && !Counted(o.pc) then 1 else 0)
  {
    match pc {
      case OpenAdd =>
      case OpenUnlockGate(_) =>
      case Guarding =>
      case _ =>
        hide Act, Counted;
        ActLeavesCount(g, t, pc);
    }
  }

  lemma CountedAfter(pcs: map<nat, Pc>, t: nat, pc: Pc)
    ensures var was := t in pcs && Counted(pcs[t]);
            |CountedThreads(pcs[t := pc])| ==
            |CountedThreads(pcs)| + (if Counted(pc) && !was then 1 else 0) - (if was && !Counted(pc) then 1 else 0)
  {
    hide Counted;
    var before, after := CountedThreads(pcs), CountedThreads(pcs[t := pc]);
    if Counted(pc) {
      assert after == before + {t};
    } else {
      assert after == before - {t};
    }
  }

  lemma GuardIsCounted(s: State, t: nat)
    requires At(s, t).Guarding?
    ensures |CountedThreads(s.pcs)| > 0
  {
    assert t in CountedThreads(s.pcs);
  }

  lemma IdleIsNotCounted()
    ensures !Counted(Idle)
  {
  }

  // ----- every step, every run ------------------------------------------

  lemma ResumeKeeps(s: State, t: nat)
    requires Inv(s)
    ensures Inv(Step(s, Resume(t)))
  {
    hide CountedThreads, Act, Holds, Knows, Sane, Counted;
    var n, pc := Step(s, Resume(t)), At(s, t);
    ActKeepsOwn(s.shared, t, pc);
    forall u: nat ensures Holds(n.shared, u, At(n, u)) && Knows(n.shared, At(n, u)) {
      if u != t {
        ActKeepsOthers(s.shared, t, pc, u, At(s, u));
      }
    }
    if pc.Guarding? {
      GuardIsCounted(s, t);
    }
    IdleIsNotCounted();
    ActCounts(s.shared, t, pc);
    CountedAfter(s.pcs, t, At(n, t));
  }

  lemma EnterIsOutside(g: Shared, t: nat, call: Call)
    requires Holds(g, t, Idle)
    ensures Holds(g, t, Enter(call)) && Knows(g, Enter(call)) && !Counted(Enter(call)) && !Counted(Idle)
  {
  }

  lemma StartKeeps(s: State, t: nat, call: Call)
    requires Inv(s) && At(s, t).Idle?
    ensures Inv(Step(s, Start(t, call)))
  {
    hide CountedThreads, Holds, Knows, Sane, Enter, Counted;
    var n := Step(s, Start(t, call));
    EnterIsOutside(s.shared, t, call);
    CountedAfter(s.pcs, t, Enter(call));
    forall u: nat ensures Holds(n.shared, u, At(n, u)) && Knows(n.shared, At(n, u)) {
      assert u != t ==> At(n, u) == At(s, u);
    }
  }

  lemma StepKeepsInvariant(s: State, e: Event)
    requires Inv(s)
    ensures Inv(Step(s, e))
  {
    hide Inv, Act, Enter;
    match e {
      case Start(t, call) =>
        if At(s, t).Idle? {
          StartKeeps(s, t, call);
        }
      case Resume(t) => ResumeKeeps(s, t);
    }
  }

  lemma InitialInvariant()
    ensures Inv(INITIAL)
  {
    assert CountedThreads(INITIAL.pcs) == {};
  }

  lemma {:induction false} RunKeepsInvariant(events: seq<Event>)
    ensures Inv(Run(INITIAL, events))
  {
    hide Inv, Step;
    if events == [] {
      InitialInvariant();
    } else {
      RunKeepsInvariant(events[..|events| - 1]);
      StepKeepsInvariant(Run(INITIAL, events[..|events| - 1]), events[|events| - 1]);
    }
  }

  // ----- what it means ---------------------------------------------------

  /** The updater never installs while a transfer is active or a counted connection is open. */
  lemma InstallExcludesActivity(events: seq<Event>)
    ensures var s := Run(INITIAL, events);
            s.shared.installing ==>
              s.shared.active.None? && s.shared.connections == 0 && forall t: nat :: !Counted(At(s, t))
  {
    hide Run, Holds, Knows;
    RunKeepsInvariant(events);
    var s := Run(INITIAL, events);
    if s.shared.installing {
      forall t: nat ensures !Counted(At(s, t)) {
        assert CountedThreads(s.pcs) == {};
        assert t in s.pcs && Counted(s.pcs[t]) ==> t in CountedThreads(s.pcs);
      }
    }
  }

  lemma {:induction false} ClearedStays(start: State, more: seq<Event>)
    requires start.shared.cleared
    ensures Run(start, more).shared.cleared
  {
    if more != [] {
      ClearedStays(start, more[..|more| - 1]);
    }
  }

  lemma {:induction false} RunSplit(start: State, events: seq<Event>, more: seq<Event>)
    ensures Run(start, events + more) == Run(Run(start, events), more)
    decreases |more|
  {
    hide Step;
    if more == [] {
      assert events + more == events;
    } else {
      var front := more[..|more| - 1];
      RunSplit(start, events, front);
      assert (events + more)[..|events + more| - 1] == events + front;
    }
  }

  /**
   Once a shutdown call that found the flag unset has emptied the slot, hence once it has
   returned, no continuation has an active transfer, whatever began before or begins later.
   */
  lemma NoTransferAfterShutdown(events: seq<Event>, more: seq<Event>)
    requires Run(INITIAL, events).shared.cleared
    ensures Run(INITIAL, events + more).shared.active.None?
  {
    hide Run, Holds, Knows;
    RunSplit(INITIAL, events, more);
    ClearedStays(Run(INITIAL, events), more);
    RunKeepsInvariant(events + more);
  }

  lemma ClearingStep(s: State, e: Event, t: nat)
    requires At(Step(s, e), t).ShutdownUnlockSlot? && (At(s, t).ShutdownUnlockSlot? ==> s.shared.cleared)
    ensures Step(s, e).shared.cleared
  {
    assert e.thread != t ==> At(Step(s, e), t) == At(s, t);
  }

  /** The call's last step comes after its clearing step. */
  lemma {:induction false} ReturningShutdownHasCleared(events: seq<Event>, t: nat)
    requires At(Run(INITIAL, events), t).ShutdownUnlockSlot?
    ensures Run(INITIAL, events).shared.cleared
  {
    hide Step;
    if events != [] {
      var s := Run(INITIAL, events[..|events| - 1]);
      if At(s, t).ShutdownUnlockSlot? {
        ReturningShutdownHasCleared(events[..|events| - 1], t);
      }
      ClearingStep(s, events[|events| - 1], t);
    }
  }

  /** A shutdown call on its way to the slot, or past it. */
  predicate WillClear(s: State, t: nat)
  {
    s.shared.cleared || At(s, t).ShutdownSet? || At(s, t).ShutdownLockSlot? || At(s, t).ShutdownClear?
  }

  lemma WillClearStep(s: State, e: Event, t: nat)
    requires WillClear(s, t)
    ensures WillClear(Step(s, e), t)
  {
    assert e.thread != t ==> At(Step(s, e), t) == At(s, t);
  }

  lemma {:induction false} WillClearAlways(start: State, events: seq<Event>, t: nat)
    requires WillClear(start, t)
    ensures WillClear(Run(start, events), t)
  {
    hide Step, WillClear;
    if events != [] {
      WillClearAlways(start, events[..|events| - 1], t);
      WillClearStep(Run(start, events[..|events| - 1]), events[|events| - 1], t);
    }
  }

  /**
   A shutdown call that found the flag unset and has returned leaves no active transfer, at its
   return and in every continuation, whatever other threads did meanwhile.
   */
  lemma FirstShutdownEndsTransfers(before: seq<Event>, during: seq<Event>, after: seq<Event>, t: nat)
    requires At(Run(INITIAL, before), t).ShutdownSet?
    requires At(Run(INITIAL, before + during), t).Idle?
    ensures Run(INITIAL, before + during).shared.active.None?
    ensures Run(INITIAL, before + during + after).shared.active.None?
  {
    hide Run;
    RunSplit(INITIAL, before, during);
    WillClearAlways(Run(INITIAL, before), during, t);
    NoTransferAfterShutdown(before + during, []);
    assert before + during + [] == before + during;
    NoTransferAfterShutdown(before + during, after);
  }

  /**
   The flag decides between the two: found unset, the call goes on to set it; found set, it returns
   at once and touches nothing, so a transfer it leaves behind is one the first call has yet to clear.
   */
  lemma ShutdownReturnsAtOnce(events: seq<Event>, t: nat)
    requires At(Run(INITIAL, events), t).ShutdownFlag?
    ensures var s := Run(INITIAL, events);
            var n := Step(s, Resume(t));
            && n.shared == s.shared
            && (At(n, t).Idle? <==> s.shared.flag) && (At(n, t).ShutdownSet? <==> !s.shared.flag)
            && (At(n, t).Idle? && n.shared.active.Some? ==> !s.shared.cleared)
  {
    hide Run, Holds, Knows, CountedThreads;
    RunKeepsInvariant(events);
  }

  /** A slot is emptied only by finishing its own transfer or by shutdown, never by a stale finish. */
  lemma SlotIsNotStolen(s: State, e: Event)
    requires s.shared.active.Some? && Step(s, e).shared.active != s.shared.active
    ensures e.Resume? && Step(s, e).shared.active.None?
    ensures At(s, e.thread) == FinishStore(s.shared.active.value) || At(s, e.thread).ShutdownClear?
  {
  }

  /** The store of a finishing transfer frees the slot it holds and leaves any other alone. */
  lemma FinishFreesTheSlot(s: State, t: nat, id: string)
    requires At(s, t) == FinishStore(id)
    ensures var n := Step(s, Resume(t));
            && n.shared.active != Some(id) && (s.shared.active != Some(id) ==> n.shared.active == s.shared.active)
            && n.shared == s.shared.(active := n.shared.active)
  {
  }

  // ----- what an undisturbed call does ----------------------------------

  /** `n` steps of one thread, with no other thread in between. */
  function Resumed(s: State, t: nat, n: nat): State
    decreases n
  {
    if n == 0 then s else Resumed(Step(s, Resume(t)), t, n - 1)
  }

  /** A call and `n` steps of it; a call that is over takes no more. */
  function Alone(s: State, t: nat, call: Call, n: nat): State { Resumed(Step(s, Start(t, call)), t, n) }

  /** The same steps on the shared state alone. */
  function Solo(g: Shared, t: nat, pc: Pc, n: nat): Outcome
    decreases n
  {
    if n == 0 then Outcome(g, pc) else var o := Act(g, t, pc); Solo(o.shared, t, o.pc, n - 1)
  }

  lemma {:induction false} ResumedIsSolo(s: State, t: nat, n: nat)
    ensures var r := Resumed(s, t, n);
            && Outcome(r.shared, At(r, t)) == Solo(s.shared, t, At(s, t), n)
            && forall u: nat :: u != t ==> At(r, u) == At(s, u)
    decreases n
  {
    hide Act;
    if n > 0 {
      ResumedIsSolo(Step(s, Resume(t)), t, n - 1);
    }
  }

  lemma SoloThree(g: Shared, t: nat, pc: Pc, n: nat) returns (o: Outcome)
    requires n >= 3
    ensures var a := Act(g, t, pc); var b := Act(a.shared, t, a.pc); o == Act(b.shared, t, b.pc)
    ensures Solo(g, t, pc, n) == Solo(o.shared, t, o.pc, n - 3)
  {
    hide Act;
    var a := Act(g, t, pc);
    var b := Act(a.shared, t, a.pc);
    o := Act(b.shared, t, b.pc);
    assert Solo(g, t, pc, n) == Solo(a.shared, t, a.pc, n - 1);
    assert Solo(a.shared, t, a.pc, n - 1) == Solo(b.shared, t, b.pc, n - 2);
  }

  lemma SoloDone(g: Shared, t: nat, pc: Pc)
    ensures Solo(g, t, pc, 0) == Outcome(g, pc)
  {
  }

  /** The thread is free to call, and nobody is inside a critical section. */
  predicate Free(s: State, t: nat)
  {
    At(s, t).Idle? && s.shared.gate.None? && s.shared.slotLock.None?
  }

  /** Where the call has come to; the other threads have not moved. */
  ghost predicate CameTo(s: State, n: State, t: nat, pc: Pc, g: Shared)
  {
    n.shared == g && At(n, t) == pc && forall u: nat :: u != t ==> At(n, u) == At(s, u)
  }

  lemma AloneIsSolo(s: State, t: nat, call: Call, n: nat)
    requires Free(s, t)
    ensures var o := Solo(s.shared, t, Enter(call), n); CameTo(s, Alone(s, t, call, n), t, o.pc, o.shared)
  {
    hide Solo, Enter, Act, Resumed;
    ResumedIsSolo(Step(s, Start(t, call)), t, n);
  }

  /** A transfer begins exactly if nothing is active, installing or shutting down. */
  lemma UndisturbedBegin(s: State, t: nat, id: string)
    requires Free(s, t)
    ensures CameTo(s, Alone(s, t, TryBeginTransfer(id), 8), t, Idle,
                   if s.shared.flag || s.shared.installing || s.shared.active.Some? then s.shared
                   else s.shared.(active := Some(id)))
  {
    hide Alone, CameTo;
    AloneIsSolo(s, t, TryBeginTransfer(id), 8);
  }

  /** Finishing frees the slot exactly if the transfer holds it. */
  lemma UndisturbedFinish(s: State, t: nat, id: string)
    requires Free(s, t)
    ensures CameTo(s, Alone(s, t, FinishTransfer(id), 3), t, Idle,
                   if s.shared.active == Some(id) then s.shared.(active := None) else s.shared)
  {
    hide Alone, CameTo;
    AloneIsSolo(s, t, FinishTransfer(id), 3);
  }

  /** A connection is counted exactly if nothing is installing or shutting down; its guard gives the count back. */
  lemma UndisturbedConnection(s: State, t: nat)
    requires Free(s, t)
    ensures s.shared.flag || s.shared.installing ==>
              CameTo(s, Alone(s, t, BeginConnection, 5), t, Idle, s.shared)
    ensures !s.shared.flag && !s.shared.installing ==>
              && CameTo(s, Alone(s, t, BeginConnection, 5), t, Guarding,
                        s.shared.(connections := s.shared.connections + 1))
              && CameTo(s, Alone(s, t, BeginConnection, 6), t, Idle, s.shared)
  {
    hide Alone, CameTo;
    AloneIsSolo(s, t, BeginConnection, 5);
    AloneIsSolo(s, t, BeginConnection, 6);
  }

  lemma InstallLooks(g: Shared, t: nat) returns (o: Outcome)
    requires g.gate.None? && g.slotLock.None?
    ensures Solo(g, t, InstallLockGate, 9) == Solo(o.shared, t, o.pc, 6)
    ensures o == if g.flag then Outcome(g, Idle)
                 else Outcome(g.(gate := Some(t)), if g.installing then InstallUnlockGate else InstallLockSlot)
  {
    hide Solo;
    o := SoloThree(g, t, InstallLockGate, 9);
  }

  lemma InstallSolo(g: Shared, t: nat)
    requires g.gate.None? && g.slotLock.None?
    ensures Solo(g, t, InstallLockGate, 9) ==
            Outcome(if g.flag || g.active.Some? || g.connections > 0 then g else g.(installing := true), Idle)
  {
    hide Solo;
    var looked := InstallLooks(g, t);
    var read := SoloThree(looked.shared, t, looked.pc, 6);
    var done := SoloThree(read.shared, t, read.pc, 3);
    SoloDone(done.shared, t, done.pc);
  }

  /** The updater installs exactly if nothing is active, counted, installing or shutting down. */
  lemma UndisturbedInstall(s: State, t: nat)
    requires Free(s, t)
    ensures CameTo(s, Alone(s, t, BeginInstall, 9), t, Idle,
                   if s.shared.flag || s.shared.active.Some? || s.shared.connections > 0 then s.shared
                   else s.shared.(installing := true))
  {
    hide Alone, CameTo, Solo;
    AloneIsSolo(s, t, BeginInstall, 9);
    InstallSolo(s.shared, t);
  }

  lemma UndisturbedEndInstall(s: State, t: nat)
    requires Free(s, t)
    ensures CameTo(s, Alone(s, t, EndInstall, 3), t, Idle, s.shared.(installing := false))
  {
    hide Alone, CameTo;
    AloneIsSolo(s, t, EndInstall, 3);
  }

  lemma UndisturbedShutdown(s: State, t: nat)
    requires Free(s, t)
    ensures CameTo(s, Alone(s, t, Shutdown, 5), t, Idle,
                   if s.shared.flag then s.shared
                   else s.shared.(flag := true, active := None, cleared := true))
  {
    hide Alone, CameTo;
    AloneIsSolo(s, t, Shutdown, 5);
  }

  /** The slot is given on: whoever finishes makes room for the next transfer. */
  lemma SlotIsReused(events: seq<Event>, t: nat, id: string, u: nat, other: string)
    requires var s := Run(INITIAL, events);
             && Free(s, t) && Free(s, u) && s.shared.active == Some(id) && !s.shared.flag
    ensures var s := Run(INITIAL, events);
            var n := Alone(Alone(s, t, FinishTransfer(id), 3), u, TryBeginTransfer(other), 8);
            Free(n, u) && n.shared == s.shared.(active := Some(other))
  {
    hide Run, Alone, Step, Holds, Knows, CountedThreads;
    var s := Run(INITIAL, events);
    RunKeepsInvariant(events);
    UndisturbedFinish(s, t, id);
    UndisturbedBegin(Alone(s, t, FinishTransfer(id), 3), u, other);
  }

  /** Installing is possible again and again, and transfers are, once an installation ended. */
  lemma InstallingEnds(events: seq<Event>, t: nat, id: string)
    requires var s := Run(INITIAL, events);
             Free(s, t) && !s.shared.flag && s.shared.active.None? && s.shared.connections == 0
    ensures var s := Run(INITIAL, events);
            var during := Alone(s, t, BeginInstall, 9);
            && during.shared == s.shared.(installing := true)
            && Alone(during, t, TryBeginTransfer(id), 8).shared == during.shared
            && Alone(Alone(during, t, EndInstall, 3), t, TryBeginTransfer(id), 8).shared ==
               s.shared.(installing := false, active := Some(id))
  {
    hide Run, Alone, Step;
    var s := Run(INITIAL, events);
    UndisturbedInstall(s, t);
    var during := Alone(s, t, BeginInstall, 9);
    UndisturbedBegin(during, t, id);
    UndisturbedEndInstall(during, t);
    UndisturbedBegin(Alone(during, t, EndInstall, 3), t, id);
  }

  // ----- a later shutdown call ------------------------------------------

  lemma Extend(events: seq<Event>, s: State, e: Event) returns (longer: seq<Event>, n: State)
    requires s == Run(INITIAL, events)
    ensures n == Step(s, e) && n == Run(INITIAL, longer) && longer == events + [e]
  {
    hide Step;
    longer, n := events + [e], Step(s, e);
    assert longer[..|longer| - 1] == events;
  }

  lemma BeginAlone(id: string) returns (s: State, events: seq<Event>)
    ensures s == Run(INITIAL, events) && s.shared.active == Some(id) && !s.shared.flag && s.pcs.Keys <= {0}
  {
    hide Run;
    assert INITIAL == Run(INITIAL, []) by { NoEvents(); }
    events, s := [], INITIAL;
    events, s := Extend(events, s, Start(0, TryBeginTransfer(id)));
    events, s := Extend(events, s, Resume(0));
    events, s := Extend(events, s, Resume(0));
    events, s := Extend(events, s, Resume(0));
    events, s := Extend(events, s, Resume(0));
    events, s := Extend(events, s, Resume(0));
    events, s := Extend(events, s, Resume(0));
  }

  lemma NoEvents()
    ensures Run(INITIAL, []) == INITIAL
  {
  }

  /** Thread `t` is about to return from `shutdown` with its next step, and a transfer is active. */
  predicate ReturnsEarly(events: seq<Event>, t: nat)
  {
    var s := Run(INITIAL, events);
    At(s, t).ShutdownFlag? && At(Step(s, Resume(t)), t).Idle? && Step(s, Resume(t)).shared.active.Some?
  }

  /** A shutdown call that finds the flag set may return while a transfer is still active. */
  lemma LaterShutdownMayReturnEarly()
    ensures exists events, t :: ReturnsEarly(events, t)
  {
    hide Run;
    var s, events := BeginAlone("x");
    events, s := Extend(events, s, Start(1, Shutdown));
    events, s := Extend(events, s, Resume(1));
    events, s := Extend(events, s, Resume(1));
    events, s := Extend(events, s, Start(2, Shutdown));
    assert ReturnsEarly(events, 2);
  }
}

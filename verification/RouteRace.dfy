/**
 The staggered race of route attempts. A schedule lists what becomes ready, in the order in which
 it is noticed: completions of attempts, the launch timer, the deadline, the two tokens. What is
 not enabled when it comes up is passed over, and after the schedule the deadline remains.
 */
module RouteRace {
  import opened Wrappers
  import opened Order
  import opened Routing

  const MAX_ROUTE_ATTEMPTS: nat := 8
  const ROUTE_STAGGER: nat := 150           // milliseconds
  const ROUTE_CONNECT_TIMEOUT: nat := 12_000

  datatype Stop = Canceled | ShuttingDown

  /** How the task of an attempt ends. */
  datatype Completion = Connected | Failed(reason: string) | StoppedBy(stop: Stop) | TaskLost

  datatype Happening = Done(attempt: nat, completion: Completion) | LaunchTimer | DeadlineTimer | Token(stop: Stop)

  /** Time counts from the start of the race. */
  datatype Moment = Moment(at: nat, what: Happening)

  datatype End = Racing | Won(attempt: nat) | Stopped(stop: Stop) | TimedOut | GaveUp(lastError: string)

  const NO_ENDPOINT: string := "peer did not advertise a usable IPv4 endpoint"
  const NOT_CONNECTED: string := "could not connect to peer"
  const TASK_FAILED: string := "route attempt failed"

  datatype Race = Race(
    next: nat,                       // attempts 0..next were launched
    nextLaunch: nat,
    flying: set<nat>,
    failures: seq<(nat, string)>,    // recorded with the peer, in this order
    lastError: string,
    end: End)

  // ----- the race as a function of its schedule --------------------------

  predicate Enabled(limit: nat, r: Race, m: Moment)
  {
    && r.end.Racing?
    && match m.what
       case Done(a, _) => a in r.flying
       case LaunchTimer => r.next < limit && r.nextLaunch <= m.at
       case DeadlineTimer => ROUTE_CONNECT_TIMEOUT <= m.at
       case Token(_) => true
  }

  /** The test at the head of the loop. */
  function Settled(limit: nat, r: Race): Race
  {
    if r.end.Racing? && r.flying == {} && r.next >= limit then r.(end := GaveUp(r.lastError)) else r
  }

  function Complete(r: Race, a: nat, c: Completion): Race
  {
    var landed := r.(flying := r.flying - {a});
    match c
    case Connected => landed.(end := Won(a))
    case StoppedBy(stop) => landed.(end := Stopped(stop))
    case Failed(reason) => landed.(failures := r.failures + [(a, reason)], lastError := reason)
    case TaskLost => landed.(lastError := TASK_FAILED)
  }

  function Advance(limit: nat, r: Race, m: Moment): Race
  {
    if !Enabled(limit, r, m) then r
    else Settled(limit,
                 match m.what
                 case Done(a, c) => Complete(r, a, c)
                 case LaunchTimer =>
                   r.(next := r.next + 1, flying := r.flying + {r.next}, nextLaunch := m.at + ROUTE_STAGGER)
                 case DeadlineTimer => r.(end := TimedOut)
                 case Token(stop) => r.(end := Stopped(stop)))
  }

  function RunRace(limit: nat, schedule: seq<Moment>): Race
  {
    if schedule == [] then Settled(limit, Race(0, 0, {}, [], NOT_CONNECTED, Racing))
    else Advance(limit, RunRace(limit, schedule[..|schedule| - 1]), schedule[|schedule| - 1])
  }

  /** `what` was noticed while the race was on. */
  predicate Happened(limit: nat, schedule: seq<Moment>, what: Happening)
  {
    && schedule != []
    && var before, m := schedule[..|schedule| - 1], schedule[|schedule| - 1];
       Happened(limit, before, what) || (Enabled(limit, RunRace(limit, before), m) && m.what == what)
  }

  // ----- every attempt is accounted for ----------------------------------

  ghost predicate Completed(limit: nat, schedule: seq<Moment>, a: nat)
  {
    exists c :: Happened(limit, schedule, Done(a, c))
  }

  ghost predicate HasFailed(limit: nat, schedule: seq<Moment>, a: nat)
  {
    exists c :: IsFailure(c) && Happened(limit, schedule, Done(a, c))
  }

  predicate IsFailure(c: Completion) { c.Failed? || c.TaskLost? }

  /** Each launched attempt flies or has completed; each completion and each failure is counted once. */
  ghost predicate Accounted(limit: nat, schedule: seq<Moment>)
  {
    var r := RunRace(limit, schedule);
    && r.next <= limit
    && (forall a: nat, c :: Happened(limit, schedule, Done(a, c)) ==> a < r.next && a !in r.flying)
    && (forall a: nat, c, d ::
          Happened(limit, schedule, Done(a, c)) && Happened(limit, schedule, Done(a, d)) ==> c == d)
    && (forall a: nat :: a < r.next && a !in r.flying ==> Completed(limit, schedule, a))
    && (forall a :: a in r.flying ==> a < r.next)
  }

  lemma {:induction false} AttemptsAccounted(limit: nat, schedule: seq<Moment>)
    ensures Accounted(limit, schedule)
  {
    if schedule != [] {
      var before, m := schedule[..|schedule| - 1], schedule[|schedule| - 1];
      AttemptsAccounted(limit, before);
      AccountedStep(limit, before, m);
      assert before + [m] == schedule;
    }
  }

  lemma HappenedLast(limit: nat, before: seq<Moment>, m: Moment, what: Happening)
    ensures Happened(limit, before + [m], what) <==>
            Happened(limit, before, what) || (Enabled(limit, RunRace(limit, before), m) && m.what == what)
    ensures RunRace(limit, before + [m]) == Advance(limit, RunRace(limit, before), m)
  {
    hide Enabled, Advance;
    assert (before + [m])[..|before|] == before;
  }

  lemma AccountedStep(limit: nat, before: seq<Moment>, m: Moment)
    requires Accounted(limit, before)
    ensures Accounted(limit, before + [m])
  {
    hide RunRace, Happened;
    var schedule := before + [m];
    forall what ensures Happened(limit, schedule, what) <==>
                        Happened(limit, before, what) || (Enabled(limit, RunRace(limit, before), m) && m.what == what)
    {
      HappenedLast(limit, before, m, what);
    }
    HappenedLast(limit, before, m, LaunchTimer);
    var r, s := RunRace(limit, before), RunRace(limit, schedule);
    forall a: nat | a < s.next && a !in s.flying ensures Completed(limit, schedule, a) {
      if a < r.next && a !in r.flying {
        assert Completed(limit, before, a);
        var c :| Happened(limit, before, Done(a, c));
        assert Happened(limit, schedule, Done(a, c));
      } else {
        assert Happened(limit, schedule, m.what);
      }
    }
  }

  // ----- how the race ends -----------------------------------------------

  /** Each end goes back to what was noticed, and what was noticed fixes the end. */
  ghost predicate EndExplained(limit: nat, schedule: seq<Moment>)
  {
    var end := RunRace(limit, schedule).end;
    && (forall a :: end == Won(a) <==> Happened(limit, schedule, Done(a, Connected)))
    && (forall stop :: end == Stopped(stop) <==>
          Happened(limit, schedule, Token(stop)) || exists a :: Happened(limit, schedule, Done(a, StoppedBy(stop))))
    && (end == TimedOut <==> Happened(limit, schedule, DeadlineTimer))
  }

  lemma EndExplainedStep(limit: nat, before: seq<Moment>, m: Moment)
    requires EndExplained(limit, before)
    ensures EndExplained(limit, before + [m])
  {
    hide RunRace, Happened;
    var schedule := before + [m];
    forall what ensures Happened(limit, schedule, what) <==>
                        Happened(limit, before, what) || (Enabled(limit, RunRace(limit, before), m) && m.what == what)
    {
      HappenedLast(limit, before, m, what);
    }
    HappenedLast(limit, before, m, LaunchTimer);
  }

  /**
   A candidate wins exactly if its connection is noticed while the race is on; the race is stopped
   exactly by a token or an attempt that saw one; it times out exactly at the deadline.
   */
  lemma {:induction false} RaceOutcome(limit: nat, schedule: seq<Moment>)
    ensures EndExplained(limit, schedule)
  {
    if schedule != [] {
      var before, m := schedule[..|schedule| - 1], schedule[|schedule| - 1];
      RaceOutcome(limit, before);
      EndExplainedStep(limit, before, m);
      assert before + [m] == schedule;
    }
  }

  /** Every candidate the race may use was tried and failed. */
  ghost predicate AllFailed(limit: nat, schedule: seq<Moment>)
  {
    forall a: nat :: a < limit ==> HasFailed(limit, schedule, a)
  }

  /** Work remains, unless an attempt ended the race. */
  ghost predicate WorkRemains(limit: nat, schedule: seq<Moment>)
  {
    var r := RunRace(limit, schedule);
    if r.end.GaveUp? then r.flying == {} && r.next >= limit
    else r.next < limit || r.flying != {} ||
         exists a, c :: !IsFailure(c) && Happened(limit, schedule, Done(a, c))
  }

  lemma WorkRemainsStep(limit: nat, before: seq<Moment>, m: Moment)
    requires WorkRemains(limit, before)
    ensures WorkRemains(limit, before + [m])
  {
    hide RunRace, Happened;
    var schedule := before + [m];
    forall what ensures Happened(limit, schedule, what) <==>
                        Happened(limit, before, what) || (Enabled(limit, RunRace(limit, before), m) && m.what == what)
    {
      HappenedLast(limit, before, m, what);
    }
    HappenedLast(limit, before, m, LaunchTimer);
  }

  lemma {:induction false} WorkAlwaysRemains(limit: nat, schedule: seq<Moment>)
    ensures WorkRemains(limit, schedule)
  {
    if schedule != [] {
      var before, m := schedule[..|schedule| - 1], schedule[|schedule| - 1];
      WorkAlwaysRemains(limit, before);
      WorkRemainsStep(limit, before, m);
      assert before + [m] == schedule;
    }
  }

  /** The race is given up exactly when every candidate it may use was launched and failed. */
  lemma GivesUpWhenAllFailed(limit: nat, schedule: seq<Moment>)
    ensures RunRace(limit, schedule).end.GaveUp? <==> AllFailed(limit, schedule)
  {
    hide RunRace, Happened;
    AttemptsAccounted(limit, schedule);
    RaceOutcome(limit, schedule);
    WorkAlwaysRemains(limit, schedule);
    var r := RunRace(limit, schedule);
    if r.end.GaveUp? {
      forall a: nat | a < limit ensures HasFailed(limit, schedule, a) {
        assert Completed(limit, schedule, a);
        var c :| Happened(limit, schedule, Done(a, c));
        assert !c.Connected? && !c.StoppedBy?;
      }
    } else if r.next < limit {
      assert !HasFailed(limit, schedule, r.next);
    } else if r.flying != {} {
      var a :| a in r.flying;
      assert !HasFailed(limit, schedule, a);
    } else {
      var a, c :| !IsFailure(c) && Happened(limit, schedule, Done(a, c));
      assert !HasFailed(limit, schedule, a);
    }
  }

  // ----- what is recorded, and when attempts start -----------------------

  /** Exactly the attempts noticed to fail are recorded, each once and with its own reason. */
  ghost predicate FailuresKept(limit: nat, schedule: seq<Moment>)
  {
    var r := RunRace(limit, schedule);
    && (forall a: nat, reason: string ::
          (a, reason) in r.failures <==> Happened(limit, schedule, Done(a, Failed(reason))))
    && (forall i, j :: 0 <= i < j < |r.failures| ==> r.failures[i].0 != r.failures[j].0)
  }

  lemma FailuresKeptStep(limit: nat, before: seq<Moment>, m: Moment)
    requires FailuresKept(limit, before) && Accounted(limit, before)
    ensures FailuresKept(limit, before + [m])
  {
    hide RunRace, Happened;
    var schedule := before + [m];
    forall what ensures Happened(limit, schedule, what) <==>
                        Happened(limit, before, what) || (Enabled(limit, RunRace(limit, before), m) && m.what == what)
    {
      HappenedLast(limit, before, m, what);
    }
    HappenedLast(limit, before, m, LaunchTimer);
    var r := RunRace(limit, before);
    forall i | 0 <= i < |r.failures| && m.what.Done? && m.what.attempt in r.flying
      ensures r.failures[i].0 != m.what.attempt
    {
      assert (r.failures[i].0, r.failures[i].1) in r.failures;
      assert Happened(limit, before, Done(r.failures[i].0, Failed(r.failures[i].1)));
    }
  }

  lemma {:induction false} FailuresAreRecorded(limit: nat, schedule: seq<Moment>)
    ensures FailuresKept(limit, schedule)
  {
    if schedule != [] {
      var before, m := schedule[..|schedule| - 1], schedule[|schedule| - 1];
      FailuresAreRecorded(limit, before);
      AttemptsAccounted(limit, before);
      FailuresKeptStep(limit, before, m);
      assert before + [m] == schedule;
    }
  }

  /** The n-th attempt starts no earlier than n stagger intervals after the race. */
  lemma {:induction false} LaunchesAreStaggered(limit: nat, schedule: seq<Moment>, at: nat)
    ensures var r := RunRace(limit, schedule);
            && r.nextLaunch >= r.next * ROUTE_STAGGER
            && (Enabled(limit, r, Moment(at, LaunchTimer)) ==> at >= r.next * ROUTE_STAGGER)
  {
    if schedule != [] {
      var m := schedule[|schedule| - 1];
      LaunchesAreStaggered(limit, schedule[..|schedule| - 1], m.at);
    }
  }

  /** When the latest attempt was started. */
  function LastLaunch(limit: nat, schedule: seq<Moment>): Option<nat>
  {
    if schedule == [] then None
    else
      var before, m := schedule[..|schedule| - 1], schedule[|schedule| - 1];
      if Enabled(limit, RunRace(limit, before), m) && m.what.LaunchTimer? then Some(m.at)
      else LastLaunch(limit, before)
  }

  /** The next attempt is due exactly a stagger interval after the latest one, the first one at once. */
  lemma {:induction false} NextLaunchIsDue(limit: nat, schedule: seq<Moment>, at: nat)
    ensures var r := RunRace(limit, schedule);
            && (r.next == 0 <==> LastLaunch(limit, schedule).None?)
            && (Enabled(limit, r, Moment(at, LaunchTimer)) <==>
                  r.end.Racing? && r.next < limit &&
                  match LastLaunch(limit, schedule)
                  case None => true
                  case Some(last) => at >= last + ROUTE_STAGGER)
  {
    DueTime(limit, schedule);
  }

  lemma {:induction false} DueTime(limit: nat, schedule: seq<Moment>)
    ensures var r := RunRace(limit, schedule);
            && (r.next == 0 <==> LastLaunch(limit, schedule).None?)
            && r.nextLaunch == match LastLaunch(limit, schedule)
                               case None => 0
                               case Some(last) => last + ROUTE_STAGGER
  {
    if schedule != [] {
      DueTime(limit, schedule[..|schedule| - 1]);
    }
  }

  /** The launch timer alone, as often as it is due. */
  function Timers(n: nat): seq<Moment>
  {
    if n == 0 then [] else Timers(n - 1) + [Moment((n - 1) * ROUTE_STAGGER, LaunchTimer)]
  }

  /** If nothing ends the race and no attempt completes, every candidate it may use is started in turn. */
  lemma {:induction false} EveryCandidateStarts(limit: nat, n: nat)
    requires n <= limit && 0 < limit
    ensures var r := RunRace(limit, Timers(n));
            && r.next == n && r.end.Racing? && (forall a: nat :: a in r.flying <==> a < n)
            && r.nextLaunch == n * ROUTE_STAGGER && r.failures == []
  {
    if n > 0 {
      EveryCandidateStarts(limit, n - 1);
      assert Timers(n)[..|Timers(n)| - 1] == Timers(n - 1);
      assert n - 1 in RunRace(limit, Timers(n)).flying;
    }
  }

  lemma {:induction false} EndIsFinal(limit: nat, schedule: seq<Moment>, more: seq<Moment>)
    requires !RunRace(limit, schedule).end.Racing?
    ensures RunRace(limit, schedule + more) == RunRace(limit, schedule)
  {
    if more == [] {
      assert schedule + more == schedule;
    } else {
      var last := |more| - 1;
      EndIsFinal(limit, schedule, more[..last]);
      assert (schedule + more)[..|schedule + more| - 1] == schedule + more[..last];
    }
  }

  // ----- the loop --------------------------------------------------------

  /** `connect_to_peer`: attempts start one by one and the first connection wins. */
  class Connector {
    const candidates: seq<Endpoint>
    var launched: seq<Endpoint>              // in the order they were started
    var failures: seq<(nat, string)>         // attempts recorded as failed

    constructor (endpoints: seq<Endpoint>)
      ensures candidates == Ranked(endpoints) && launched == [] && failures == []
    {
      candidates, launched, failures := Ranked(endpoints), [], [];
    }

    /** The attempts this race may launch. */
    function Limit(): nat { Min(|candidates|, MAX_ROUTE_ATTEMPTS) }

    method Connect(schedule: seq<Moment>) returns (end: End)
      requires launched == [] && failures == []
      modifies this
      ensures candidates == [] ==> end == GaveUp(NO_ENDPOINT) && launched == [] && failures == []
      ensures candidates != [] ==>
                var r := RunRace(Limit(), schedule + [Moment(ROUTE_CONNECT_TIMEOUT, DeadlineTimer)]);
                && !end.Racing? && end == r.end && failures == r.failures
                && r.next <= |candidates| && launched == candidates[..r.next]
    {
      hide RunRace;
      if candidates == [] {
        return GaveUp(NO_ENDPOINT);
      }
      var limit := Min(|candidates|, MAX_ROUTE_ATTEMPTS);
      ghost var moments := schedule + [Moment(ROUTE_CONNECT_TIMEOUT, DeadlineTimer)];
      var next: nat, nextLaunch: nat, flying: set<nat>, lastError := 0, 0, {}, NOT_CONNECTED;
      var i := 0;
      RaceStart(limit);
      assert moments[..0] == [];
      while true
        invariant i <= |schedule| && next <= limit && launched == candidates[..next]
        invariant flying != {} || next < limit
        invariant RunRace(limit, moments[..i]) == Race(next, nextLaunch, flying, failures, lastError, Racing)
        decreases |schedule| - i
      {
        var moment := if i < |schedule| then schedule[i] else Moment(ROUTE_CONNECT_TIMEOUT, DeadlineTimer);
        RaceStep(limit, moments, i);
        i := i + 1;
        match moment.what {
          case Done(a, completion) =>
            if a in flying {
              flying := flying - {a};
              match completion {
                case Connected =>
                  EndedAt(limit, moments, i);
                  return Won(a);
                case StoppedBy(stop) =>
                  EndedAt(limit, moments, i);
                  return Stopped(stop);
                case Failed(reason) =>
                  failures := failures + [(a, reason)];
                  lastError := reason;
                case TaskLost => lastError := TASK_FAILED;
              }
            }
          case LaunchTimer =>
            if next < limit && nextLaunch <= moment.at {
              launched := launched + [candidates[next]];
              flying := flying + {next};
              next := next + 1;
              nextLaunch := moment.at + ROUTE_STAGGER;
            }
          case DeadlineTimer =>
            if ROUTE_CONNECT_TIMEOUT <= moment.at {
              EndedAt(limit, moments, i);
              return TimedOut;
            }
          case Token(stop) =>
            EndedAt(limit, moments, i);
            return Stopped(stop);
        }
        if flying == {} && next >= limit {
          EndedAt(limit, moments, i);
          return GaveUp(lastError);
        }
      }
    }
  }

  /** Among the candidates of a peer with a working route the first launched is one. */
  lemma WorkingRouteIsTriedFirst(endpoints: seq<Endpoint>, e: Endpoint, launched: seq<Endpoint>)
    requires e in endpoints && e.reachability == Reachable
    requires launched != [] && launched <= Ranked(endpoints)
    ensures launched[0].reachability == Reachable
  {
    hide Ranked;
    ReachableComesFirst(endpoints, e);
  }

  lemma RaceStart(limit: nat)
    requires 0 < limit
    ensures RunRace(limit, []) == Race(0, 0, {}, [], NOT_CONNECTED, Racing)
  {
  }

  lemma RaceStep(limit: nat, moments: seq<Moment>, i: nat)
    requires i < |moments|
    ensures RunRace(limit, moments[..i + 1]) == Advance(limit, RunRace(limit, moments[..i]), moments[i])
  {
    hide Advance;
    assert moments[..i + 1][..i] == moments[..i];
  }

  lemma EndedAt(limit: nat, moments: seq<Moment>, i: nat)
    requires i <= |moments| && !RunRace(limit, moments[..i]).end.Racing?
    ensures RunRace(limit, moments) == RunRace(limit, moments[..i])
  {
    hide RunRace;
    EndIsFinal(limit, moments[..i], moments[i..]);
    assert moments[..i] + moments[i..] == moments;
  }
}

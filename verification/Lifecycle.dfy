/**
 Transfer phases and the tracker that turns phase changes and byte counts into the
 snapshots sent to the user interface.
 */
module Lifecycle {
  import opened Wrappers
  import opened Wire

  datatype Phase =
    | Preparing | Requesting | WaitingForAcceptance | Accepted | Transferring
    | Verifying | Completing | Completed | Rejected | Failed | CanceledPhase

  predicate IsTerminal(p: Phase) { p == Completed || p == Rejected || p == Failed || p == CanceledPhase }

  predicate CanTransition(from: Phase, to: Phase)
  {
    from == to ||
    match from
    case Preparing => to == Requesting || to == CanceledPhase || to == Failed
    case Requesting => to == WaitingForAcceptance || to == CanceledPhase || to == Failed
    case WaitingForAcceptance => to == Accepted || to == Rejected || to == CanceledPhase || to == Failed
    case Accepted => to == Transferring || to == CanceledPhase || to == Failed
    case Transferring => to == Verifying || to == CanceledPhase || to == Failed
    case Verifying => to == Completing || to == CanceledPhase || to == Failed
    case Completing => to == Completed || to == CanceledPhase || to == Failed
    case _ => false
  }

  datatype Snapshot = Snapshot(phase: Phase, total: nat, transferred: nat, speed: nat, eta: Option<nat>)

  /** What a progress report reads from the clock: throttling and the measured speed. */
  datatype Clock = Clock(withinInterval: bool, speed: nat)

  /**
   The tracker: its current snapshot, whether a progress report was emitted before,
   everything emitted so far, and whether a phase change was ever refused.
   */
  datatype Tracker = Tracker(
    now: Snapshot, reported: bool, emitted: seq<Snapshot>, refused: bool)

  function NewTracker(phase: Phase): Tracker
  {
    Tracker(Snapshot(phase, 0, 0, 0, None), false, [], false)
  }

  function Emit(t: Tracker): Tracker { t.(emitted := t.emitted + [t.now]) }

  function SetTotal(t: Tracker, total: nat): Tracker { t.(now := t.now.(total := total)) }

  function Transition(t: Tracker, next: Phase): Tracker
  {
    if t.now.phase == next then Emit(t)
    else if !CanTransition(t.now.phase, next) then t.(refused := true)
    else Emit(t.(now := t.now.(phase := next)))
  }

  function Eta(total: nat, transferred: nat, speed: nat): Option<nat>
  {
    if speed > 0 && total > transferred then Some((total - transferred + speed - 1) / speed) else None
  }

  function Progress(t: Tracker, bytes: nat, clock: Clock, force: bool): Tracker
  {
    if !force && t.reported && clock.withinInterval then t
    else
      var transferred := Min(Max(t.now.transferred, bytes), t.now.total);
      var eta := Eta(t.now.total, transferred, clock.speed);
      if force && t.now.transferred == transferred && t.now.eta == eta then t
      else Emit(t.(now := t.now.(transferred := transferred, speed := clock.speed, eta := eta), reported := true))
  }

  function ErrorPhase(e: TransferError): Phase { if IsCancelled(e) then CanceledPhase else Failed }

  /** How an error is shown: a cancellation or a shutdown on either side is no failure. */
  function ErrorShown(e: TransferError): Phase
  {
    match e
    case Canceled => CanceledPhase
    case RemoteCanceled => CanceledPhase
    case ShuttingDown => CanceledPhase
    case _ => Failed
  }

  function FinishError(t: Tracker, e: TransferError): Tracker
  {
    if IsTerminal(t.now.phase) then t else Transition(t, ErrorPhase(e))
  }

  // ----- what a history of snapshots must look like ----------------------

  /** The same phase again, the next one, or from any that goes on to a cancellation or a failure. */
  predicate InOrder(from: Phase, to: Phase)
  {
    || from == to
    || (!IsTerminal(from) && (to == CanceledPhase || to == Failed))
    || (from == Preparing && to == Requesting)
    || (from == Requesting && to == WaitingForAcceptance)
    || (from == WaitingForAcceptance && (to == Accepted || to == Rejected))
    || (from == Accepted && to == Transferring)
    || (from == Transferring && to == Verifying)
    || (from == Verifying && to == Completing)
    || (from == Completing && to == Completed)
  }

  lemma TransitionsAreInOrder(from: Phase, to: Phase)
    ensures CanTransition(from, to) <==> InOrder(from, to)
  {
  }

  /** Phases follow their order, nothing follows a terminal one, and byte counts only grow, up to the total. */
  ghost predicate GoodHistory(h: seq<Snapshot>)
  {
    && (forall i :: 0 <= i < |h| - 1 ==> !IsTerminal(h[i].phase) && InOrder(h[i].phase, h[i + 1].phase))
    && (forall i :: 0 <= i < |h| ==> h[i].transferred <= h[i].total)
    && (forall i, j :: 0 <= i < j < |h| ==> h[i].transferred <= h[j].transferred)
  }

  /** Exactly one snapshot is terminal and it is the last one. */
  ghost predicate EndsOnce(h: seq<Snapshot>)
  {
    && h != [] && IsTerminal(h[|h| - 1].phase)
    && forall i :: 0 <= i < |h| ==> (IsTerminal(h[i].phase) <==> i == |h| - 1)
  }

  ghost predicate Sound(t: Tracker)
  {
    && !t.refused
    && GoodHistory(t.emitted)
    && t.now.transferred <= t.now.total
    && (t.emitted != [] ==> t.emitted[|t.emitted| - 1].transferred <= t.now.transferred)
    && (if IsTerminal(t.now.phase)
        then t.emitted != []
        else forall i :: 0 <= i < |t.emitted| ==> !IsTerminal(t.emitted[i].phase))
    && (t.emitted != [] ==> t.emitted[|t.emitted| - 1].phase == t.now.phase)
  }

  lemma EmitSound(t: Tracker, before: Tracker)
    requires Sound(before) && !IsTerminal(before.now.phase)
    requires t.emitted == before.emitted && !t.refused
    requires before.now.transferred <= t.now.transferred <= t.now.total
    requires CanTransition(before.now.phase, t.now.phase)
    ensures Sound(Emit(t))
  {
    TransitionsAreInOrder(before.now.phase, t.now.phase);
    HistoryGrows(before.emitted, t.now);
    hide GoodHistory;
  }

  lemma HistoryGrows(h: seq<Snapshot>, next: Snapshot)
    requires GoodHistory(h) && next.transferred <= next.total
    requires h != [] ==>
               var last := h[|h| - 1];
               !IsTerminal(last.phase) && InOrder(last.phase, next.phase) && last.transferred <= next.transferred
    ensures GoodHistory(h + [next])
  {
    hide InOrder;
    assert forall i :: 0 <= i < |h| ==> h[i].transferred <= next.transferred;
  }

  lemma TransitionSound(t: Tracker, next: Phase)
    requires Sound(t) && !IsTerminal(t.now.phase) && CanTransition(t.now.phase, next)
    ensures Sound(Transition(t, next)) && Transition(t, next).now == t.now.(phase := next)
  {
    EmitSound(t, t);
    EmitSound(t.(now := t.now.(phase := next)), t);
  }

  lemma ProgressSound(t: Tracker, bytes: nat, clock: Clock, force: bool)
    requires Sound(t) && !IsTerminal(t.now.phase)
    ensures var u := Progress(t, bytes, clock, force);
            && Sound(u) && u.now.phase == t.now.phase && u.now.total == t.now.total
            && (force ==> u.now.transferred == Min(Max(t.now.transferred, bytes), t.now.total))
  {
    var transferred := Min(Max(t.now.transferred, bytes), t.now.total);
    var eta := Eta(t.now.total, transferred, clock.speed);
    EmitSound(t.(now := t.now.(transferred := transferred, speed := clock.speed, eta := eta), reported := true), t);
  }

  lemma AcceptedSound(t: Tracker)
    requires Sound(t) && t.now.phase == WaitingForAcceptance
    ensures var u := Transition(Transition(t, Phase.Accepted), Transferring);
            Sound(u) && u.now == t.now.(phase := Transferring) && u.emitted != []
  {
    TransitionSound(t, Phase.Accepted);
    TransitionSound(Transition(t, Phase.Accepted), Transferring);
  }

  lemma ProgressEmits(t: Tracker, bytes: nat, clock: Clock, force: bool)
    requires t.emitted != []
    ensures Progress(t, bytes, clock, force).emitted != []
  {
  }

  lemma FinishErrorSound(t: Tracker, e: TransferError)
    requires Sound(t)
    ensures Sound(FinishError(t, e)) && IsTerminal(FinishError(t, e).now.phase)
    ensures !IsTerminal(t.now.phase) ==> FinishError(t, e).now.phase == ErrorPhase(e)
    ensures IsTerminal(t.now.phase) ==> FinishError(t, e) == t
  {
    if !IsTerminal(t.now.phase) {
      TransitionSound(t, ErrorPhase(e));
    }
  }

  lemma SoundEndsOnce(t: Tracker)
    requires Sound(t) && IsTerminal(t.now.phase)
    ensures EndsOnce(t.emitted)
  {
  }

  // ----- what a phase change leaves as it is -----------------------------

  /** The phases in which every byte of the batch is shown as transferred. */
  predicate WholeShown(p: Phase) { p == Verifying || p == Completing || p == Completed }

  /** The last snapshot emitted is the current one. */
  predicate Current(t: Tracker) { t.emitted != [] ==> t.emitted[|t.emitted| - 1] == t.now }

  /** The byte counts stay, and what was emitted stays current. */
  predicate Follows(t: Tracker, u: Tracker)
  {
    && u.now.transferred == t.now.transferred && u.now.total == t.now.total
    && (Current(t) ==> Current(u))
  }

  lemma TransitionFollows(t: Tracker, next: Phase)
    ensures Follows(t, Transition(t, next))
    ensures WholeShown(Transition(t, next).now.phase) ==> WholeShown(next) || WholeShown(t.now.phase)
  {
  }

  lemma FinishErrorFollows(t: Tracker, e: TransferError)
    ensures Follows(t, FinishError(t, e))
    ensures WholeShown(FinishError(t, e).now.phase) ==> WholeShown(t.now.phase)
  {
  }

  // ----- the time that is left -------------------------------------------

  /** The least number of seconds in which `rest` bytes pass, if anything passes and anything is left. */
  predicate IsEta(eta: Option<nat>, rest: nat, speed: nat)
  {
    match eta
    case None => speed == 0 || rest == 0
    case Some(n) => 0 < n && speed * (n - 1) < rest <= speed * n
  }

  lemma EtaIsLeast(total: nat, transferred: nat, speed: nat)
    requires transferred <= total
    ensures IsEta(Eta(total, transferred, speed), total - transferred, speed)
  {
  }

  // ----- the tracker object ---------------------------------------------

  /** `TransferTracker`: emits in order, refuses phase changes the lifecycle does not allow. */
  class TransferTracker {
    var now: Snapshot
    var reported: bool
    var emitted: seq<Snapshot>
    var refused: bool

    function State(): Tracker
      reads this
    {
      Tracker(now, reported, emitted, refused)
    }

    constructor (phase: Phase)
      ensures State() == NewTracker(phase)
    {
      now := Snapshot(phase, 0, 0, 0, None);
      reported := false;
      emitted := [];
      refused := false;
    }

    method EmitNow()
      modifies this`emitted
      ensures State() == Emit(old(State()))
    {
      emitted := emitted + [now];
    }

    method SetFiles(total: nat)
      modifies this`now
      ensures State() == SetTotal(old(State()), total)
    {
      now := now.(total := total);
    }

    method ChangePhase(next: Phase)
      modifies this
      ensures State() == Transition(old(State()), next)
    {
      if now.phase == next {
        EmitNow();
        return;
      }
      if !CanTransition(now.phase, next) {
        refused := true;
        return;
      }
      now := now.(phase := next);
      EmitNow();
    }

    method Report(bytes: nat, clock: Clock, force: bool)
      modifies this
      ensures State() == Progress(old(State()), bytes, clock, force)
    {
      if !force && reported && clock.withinInterval {
        return;
      }
      var transferred := Min(Max(now.transferred, bytes), now.total);
      var eta := if clock.speed > 0 && now.total > transferred
                 then Some((now.total - transferred + clock.speed - 1) / clock.speed) else None;
      if force && now.transferred == transferred && now.eta == eta {
        return;
      }
      now := now.(transferred := transferred, speed := clock.speed, eta := eta);
      reported := true;
      EmitNow();
    }

    method Finish(e: TransferError)
      modifies this
      ensures State() == FinishError(old(State()), e)
    {
      if IsTerminal(now.phase) {
        return;
      }
      ChangePhase(if IsCancelled(e) then CanceledPhase else Failed);
    }
  }
}

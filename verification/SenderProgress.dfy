/**
 The progress a sender shows: the bytes it has written as data frames while the batch is sent,
 and the whole batch from the moment its last file was closed.
 */
module SenderProgress {
  import opened Wrappers
  import opened Wire
  import opened Lifecycle
  import opened Sender
  import Safety = SenderSafety

  /** The contents carried by a list of frames, counted. */
  function DataBytes(frames: seq<Frame>): nat
  {
    if frames == [] then 0
    else DataBytes(frames[..|frames| - 1]) + Payload(frames[|frames| - 1])
  }

  function Payload(f: Frame): nat { if f.Data? then |f.bytes| else 0 }

  lemma OneMoreFrame(frames: seq<Frame>, f: Frame)
    ensures DataBytes(frames + [f]) == DataBytes(frames) + Payload(f)
  {
    assert (frames + [f])[..|frames|] == frames;
  }

  predicate Stopping(pc: Pc) { pc.Withdraw? || pc.Ended? }

  /** The counter is the bytes written; what is shown is that or less, and all of the batch once it was sent. */
  predicate ShownInv(s: Sender)
  {
    && s.transferred <= DataBytes(s.sent)
    && (!Stopping(s.pc) ==> s.transferred == DataBytes(s.sent))
    && s.tracker.now.total == s.total
    && Current(s.tracker)
    && (if WholeShown(s.tracker.now.phase) then s.tracker.now.transferred == s.total
        else s.tracker.now.transferred <= s.transferred || (Stopping(s.pc) && s.tracker.now.transferred == s.total))
  }

  /** The tracker is not touched, or an error ends the run; a frame that is sent carries no contents. */
  predicate Settled(s: Sender, t: Sender)
  {
    && t.transferred == s.transferred && t.total == s.total
    && (t.sent == s.sent || (|t.sent| == |s.sent| + 1 && s.sent <= t.sent && Payload(t.sent[|s.sent|]) == 0))
    && (!Stopping(t.pc) ==> !Stopping(s.pc))
    && (t.tracker == s.tracker ||
        (t.pc.Ended? && t.pc.outcome.Aborted? && t.tracker == FinishError(s.tracker, t.pc.outcome.error)))
  }

  lemma SettledKeepsShown(s: Sender, t: Sender)
    requires ShownInv(s) && Settled(s, t)
    ensures ShownInv(t)
  {
    if t.sent != s.sent {
      assert t.sent == s.sent + [t.sent[|s.sent|]];
      OneMoreFrame(s.sent, t.sent[|s.sent|]);
    }
    if t.pc.Ended? && t.pc.outcome.Aborted? {
      FinishErrorFollows(s.tracker, t.pc.outcome.error);
      FinishErrorNotWhole(s.tracker, t.pc.outcome.error);
    }
    hide FinishError, DataBytes;
  }

  lemma FinishErrorNotWhole(t: Tracker, e: TransferError)
    ensures FinishError(t, e) == t || FinishError(t, e).refused || !WholeShown(FinishError(t, e).now.phase)
  {
  }

  predicate Plain(e: Event)
  {
    !e.Prepared? && !e.RequestWritten? && !e.Read? && !e.Written? && !e.SignalSeen?
  }

  lemma PlainIsSettled(s: Sender, e: Event)
    requires Plain(e)
    ensures Settled(s, Step(s, e))
  {
    hide FinishError, IsWireError, SignalError;
  }

  // ----- the steps that move the tracker ---------------------------------

  lemma PreparedKeepsShown(s: Sender, files: seq<TransferFile>)
    requires Safety.Inv(s) && ShownInv(s) && s.pc.PrepareFiles?
    ensures ShownInv(OnPrepared(s, files))
  {
    hide ValidRequest, FinishError, DataBytes, Sound, TotalSize, Safety.RequestInv, Safety.SpellInv, Safety.HeardInv;
    SettledKeepsShown(s, Fail(s, Prepare));
    SettledKeepsShown(s, Fail(s, Protocol));
  }

  lemma RequestKeepsShown(s: Sender, failure: Option<TransferError>, delivered: bool)
    requires ShownInv(s) && s.pc.WriteRequest? && s.total < U64_LIMIT && !WholeShown(s.tracker.now.phase)
    ensures ShownInv(OnRequestWritten(s, failure, delivered))
  {
    hide ShownInv, FinishError, Transition, DataBytes;
    var f := Control(TransferRequest(s.id, s.files, s.total));
    if failure.Some? {
      SettledKeepsShown(s, Fail(Sent(s, f, delivered), failure.value));
    } else {
      var t := Sent(s, f, true).(pc := AwaitDecision);
      SettledKeepsShown(s, t);
      PhaseKeepsShown(t, t.(tracker := Transition(t.tracker, WaitingForAcceptance)), WaitingForAcceptance);
    }
  }

  /** A phase before the batch was sent, or a terminal one that is no success. */
  lemma PhaseKeepsShown(s: Sender, t: Sender, next: Phase)
    requires ShownInv(s) && !WholeShown(next) && t.tracker == Transition(s.tracker, next)
    requires t.transferred == s.transferred && t.total == s.total && t.sent == s.sent
    requires Stopping(s.pc) == Stopping(t.pc) || (Stopping(t.pc) && !Stopping(s.pc))
    requires !WholeShown(s.tracker.now.phase)
    ensures ShownInv(t) && !WholeShown(t.tracker.now.phase)
  {
    TransitionFollows(s.tracker, next);
    hide Transition, DataBytes;
  }

  lemma AcceptedKeepsShown(s: Sender, t: Sender)
    requires ShownInv(s) && s.pc.AwaitDecision? && !WholeShown(s.tracker.now.phase)
    requires t.transferred == s.transferred && t.total == s.total && t.sent == s.sent && !Stopping(t.pc)
    requires t.tracker == Transition(Transition(s.tracker, Phase.Accepted), Transferring)
    ensures ShownInv(t)
  {
    hide ShownInv, Transition;
    var accepted := s.(tracker := Transition(s.tracker, Phase.Accepted));
    PhaseKeepsShown(s, accepted, Phase.Accepted);
    PhaseKeepsShown(accepted, t, Transferring);
  }

  lemma DecisionKeepsShown(s: Sender, f: Frame)
    requires ShownInv(s) && s.pc.AwaitDecision? && !WholeShown(s.tracker.now.phase)
    ensures ShownInv(OnDecision(s, f))
  {
    hide ShownInv, FinishError, Transition, DataBytes;
    var t := OnDecision(s, f);
    match f {
      case Control(TransferDecision(id, accepted, reason)) =>
        if id != s.id {
          SettledKeepsShown(s, t);
        } else if accepted {
          AcceptedKeepsShown(s, t);
        } else {
          PhaseKeepsShown(s, t, if reason == Some(CancelledText) then CanceledPhase else Rejected);
        }
      case _ => SettledKeepsShown(s, t);
    }
  }

  lemma ReadKeepsShown(s: Sender, o: ReadOutcome)
    requires Safety.Inv(s) && ShownInv(s)
    ensures ShownInv(OnRead(s, o))
  {
    hide ShownInv, OnDecision, FinishError, DataBytes, SignalOf, Safety.Inv;
    if s.pc.AwaitDecision? && o.Got? {
      var heard := s.(log := s.log + [o.frame]);
      PhaseHere(s);
      SettledKeepsShown(s, heard);
      DecisionKeepsShown(heard, o.frame);
    } else {
      SettledKeepsShown(s, OnRead(s, o));
    }
  }

  lemma PhaseHere(s: Sender)
    requires Safety.Inv(s)
    ensures Safety.PhaseFits(s.pc, s.tracker.now.phase)
    ensures s.tracker.now.transferred <= s.tracker.now.total && !s.tracker.refused
    ensures s.pc.AwaitDecision? || s.pc.WriteRequest? ==> !WholeShown(s.tracker.now.phase)
  {
    hide Safety.RequestInv, Safety.SpellInv, Safety.HeardInv, GoodHistory;
  }

  // ----- the frames of the batch -----------------------------------------

  lemma ProgressShows(t: Tracker, bytes: nat, clock: Clock, force: bool)
    requires t.now.transferred <= t.now.total
    ensures var u := Progress(t, bytes, clock, force);
            && u.now.total == t.now.total && u.now.phase == t.now.phase
            && (Current(t) ==> Current(u))
            && (u.now.transferred == t.now.transferred ||
                u.now.transferred == Min(Max(t.now.transferred, bytes), t.now.total))
            && (force ==> u.now.transferred == Min(Max(t.now.transferred, bytes), t.now.total))
  {
  }

  lemma DataKeepsShown(s: Sender, clock: Clock)
    requires Safety.Inv(s) && ShownInv(s) && s.pc.Writing? && s.pc.frame.Data?
    ensures ShownInv(AfterWrite(Sent(s, s.pc.frame, true), s.pc.frame, clock))
  {
    hide Progress, DataBytes, Safety.Inv;
    PhaseHere(s);
    OneMoreFrame(s.sent, s.pc.frame);
    ProgressShows(s.tracker, s.transferred + |s.pc.frame.bytes|, clock, false);
  }

  lemma ControlKeepsShown(s: Sender, clock: Clock)
    requires Safety.Inv(s) && ShownInv(s) && s.pc.Writing? && s.pc.frame.Control?
    ensures ShownInv(AfterWrite(Sent(s, s.pc.frame, true), s.pc.frame, clock))
  {
    hide Progress, Transition, DataBytes, Safety.Inv;
    PhaseHere(s);
    OneMoreFrame(s.sent, s.pc.frame);
    FrameHere(s);
    ProgressShows(s.tracker, s.total, clock, true);
    TransitionFollows(Progress(s.tracker, s.total, clock, true), Verifying);
    TransitionFollows(s.tracker, Completing);
    NextPhase(s.tracker);
    NextPhase(Progress(s.tracker, s.total, clock, true));
  }

  lemma NextPhase(t: Tracker)
    ensures t.now.phase == Transferring ==> Transition(t, Verifying).now.phase == Verifying
    ensures t.now.phase == Verifying ==> Transition(t, Completing).now.phase == Completing
  {
  }

  lemma FrameHere(s: Sender)
    requires Safety.Inv(s) && s.pc.Writing?
    ensures Safety.NextFrame(s, s.pc.frame)
  {
    hide Safety.RequestInv, Safety.TrackInv, Safety.HeardInv, Safety.NextFrame;
  }

  lemma LostWriteKeepsShown(s: Sender, e: TransferError, delivered: bool)
    requires ShownInv(s) && s.pc.Writing?
    ensures ShownInv(GiveUp(Sent(s, s.pc.frame, delivered), e))
  {
    hide DataBytes;
    OneMoreFrame(s.sent, s.pc.frame);
  }

  lemma WrittenKeepsShown(s: Sender, failure: Option<TransferError>, delivered: bool, clock: Clock)
    requires Safety.Inv(s) && ShownInv(s) && s.pc.Writing?
    ensures ShownInv(OnWritten(s, s.pc.frame, failure, delivered, clock))
  {
    hide Safety.Inv, ShownInv, AfterWrite;
    if failure.Some? {
      LostWriteKeepsShown(s, failure.value, delivered);
    } else if s.pc.frame.Data? {
      DataKeepsShown(s, clock);
    } else {
      ControlKeepsShown(s, clock);
    }
  }

  lemma SignalKeepsShown(s: Sender, clock: Clock)
    requires Safety.Inv(s) && ShownInv(s)
    ensures ShownInv(OnSignal(s, clock))
  {
    hide Safety.Inv, Progress, Transition, DataBytes;
    PhaseHere(s);
    ProgressShows(s.tracker, s.total, clock, true);
    TransitionFollows(Progress(s.tracker, s.total, clock, true), Phase.Completed);
  }

  // ----- every run -------------------------------------------------------

  lemma StepKeepsShown(s: Sender, e: Event)
    requires Safety.Inv(s) && ShownInv(s)
    ensures ShownInv(Step(s, e))
  {
    hide Safety.Inv, ShownInv, Settled, OnPrepared, OnRequestWritten, OnRead, OnWritten, OnSignal, IsWireError,
      IsCancelled;
    if Plain(e) {
      PlainIsSettled(s, e);
      SettledKeepsShown(s, Step(s, e));
    } else {
      match e {
        case Prepared(files) => if s.pc.PrepareFiles? { PreparedKeepsShown(s, files); }
        case RequestWritten(failure, delivered) =>
          PhaseHere(s);
          if s.pc.WriteRequest? && s.total < U64_LIMIT { RequestKeepsShown(s, failure, delivered); }
        case Read(o) => ReadKeepsShown(s, o);
        case Written(failure, delivered, clock) =>
          if s.pc.Writing? { WrittenKeepsShown(s, failure, delivered, clock); }
        case SignalSeen(clock) => SignalKeepsShown(s, clock);
      }
    }
  }

  lemma {:induction false} RunKeepsShown(id: string, events: seq<Event>)
    ensures ShownInv(Run(Initial(id), events)) && Safety.Inv(Run(Initial(id), events))
  {
    hide Safety.Inv, ShownInv, Step;
    Safety.InitialInvariant(id);
    Safety.RunKeepsInvariant(Initial(id), events);
    if events == [] {
      InitialShown(id);
    } else {
      RunKeepsShown(id, events[..|events| - 1]);
      StepKeepsShown(Run(Initial(id), events[..|events| - 1]), events[|events| - 1]);
    }
  }

  lemma InitialShown(id: string)
    ensures ShownInv(Initial(id))
  {
  }

  /**
   Until the batch was sent no snapshot shows more than the bytes written as data frames; a completed
   run ends with the whole batch shown.
   */
  lemma ShowsWhatWasSent(id: string, events: seq<Event>)
    ensures var s := Run(Initial(id), events);
            && (!Stopping(s.pc) && !WholeShown(s.tracker.now.phase) ==>
                  forall i :: 0 <= i < |s.tracker.emitted| ==> s.tracker.emitted[i].transferred <= DataBytes(s.sent))
            && (s.pc == Ended(Succeeded) ==>
                  && s.tracker.emitted != []
                  && var last := s.tracker.emitted[|s.tracker.emitted| - 1];
                     last.phase == Phase.Completed && last.transferred == last.total == s.total)
  {
    hide Run, Initial, Safety.Inv, ShownInv;
    RunKeepsShown(id, events);
    ShownSoFar(Run(Initial(id), events));
  }

  lemma ShownSoFar(s: Sender)
    requires Safety.Inv(s) && ShownInv(s)
    ensures !Stopping(s.pc) && !WholeShown(s.tracker.now.phase) ==>
              forall i :: 0 <= i < |s.tracker.emitted| ==> s.tracker.emitted[i].transferred <= DataBytes(s.sent)
    ensures s.pc == Ended(Succeeded) ==>
              && s.tracker.emitted != []
              && var last := s.tracker.emitted[|s.tracker.emitted| - 1];
                 last.phase == Phase.Completed && last.transferred == last.total == s.total
  {
    hide DataBytes, Safety.RequestInv, Safety.SpellInv, Safety.HeardInv;
    assert Sound(s.tracker);
  }

  /** A chunk written is shown at once, unless a report was made within the interval. */
  lemma ChunkIsShown(id: string, events: seq<Event>, delivered: bool, clock: Clock)
    requires var s := Run(Initial(id), events);
             && s.pc.Writing? && s.pc.frame.Data? && s.transferred + |s.pc.frame.bytes| < U64_LIMIT
             && (!clock.withinInterval || !s.tracker.reported)
    ensures var s := Run(Initial(id), events);
            var t := Step(s, Written(None, delivered, clock));
            && |t.tracker.emitted| == |s.tracker.emitted| + 1 && s.tracker.emitted <= t.tracker.emitted
            && var last := t.tracker.emitted[|s.tracker.emitted|];
               && last.transferred == Min(DataBytes(t.sent), s.total) && last.total == s.total
               && last.phase == Transferring && last.speed == clock.speed
               && IsEta(last.eta, last.total - last.transferred, clock.speed)
  {
    hide Run, Initial, Safety.Inv, ShownInv, Step;
    RunKeepsShown(id, events);
    ReportOfChunk(Run(Initial(id), events), delivered, clock);
  }

  lemma ReportOfChunk(s: Sender, delivered: bool, clock: Clock)
    requires Safety.Inv(s) && ShownInv(s)
    requires s.pc.Writing? && s.pc.frame.Data? && s.transferred + |s.pc.frame.bytes| < U64_LIMIT
    requires !clock.withinInterval || !s.tracker.reported
    ensures var t := Step(s, Written(None, delivered, clock));
            && |t.tracker.emitted| == |s.tracker.emitted| + 1 && s.tracker.emitted <= t.tracker.emitted
            && var last := t.tracker.emitted[|s.tracker.emitted|];
               && last.transferred == Min(DataBytes(t.sent), s.total) && last.total == s.total
               && last.phase == Transferring && last.speed == clock.speed
               && IsEta(last.eta, last.total - last.transferred, clock.speed)
  {
    hide Safety.Inv, IsEta, Eta, DataBytes;
    PhaseHere(s);
    OneMoreFrame(s.sent, s.pc.frame);
    EtaIsLeast(s.total, Min(DataBytes(s.sent + [s.pc.frame]), s.total), clock.speed);
  }
}

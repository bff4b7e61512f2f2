/**
 What the frame read beside the sending loop does: it is at most one, it decides how the next
 test before a write ends, and no success can come of it before the batch was declared complete.
 */
module SenderMonitor {
  import opened Wrappers
  import opened Wire
  import opened Lifecycle
  import opened Sender

  /** No answer was read so far. */
  predicate Unanswered(pc: Pc)
  {
    match pc
    case PrepareFiles => true
    case CheckBeforeConnect => true
    case Connect => true
    case Trust => true
    case WriteRequest => true
    case AwaitDecision => true
    case _ => false
  }

  /** The batch was accepted and the run goes on. */
  predicate Streaming(pc: Pc) { !Unanswered(pc) && !pc.Withdraw? && !pc.Ended? }

  /** The frames of a batch. */
  predicate BatchFrame(f: Frame)
  {
    f.Data? || f.message.FileStart? || f.message.FileEnd? || f.message.Complete?
  }

  /** The monitor watches until it holds what the second frame read means, a failed read, or nothing at all. */
  predicate MonitorInv(s: Sender)
  {
    && |s.log| <= 2
    && (Unanswered(s.pc) ==> s.monitor.Off? && s.log == [])
    && (Streaming(s.pc) ==> !s.monitor.Off?)
    && (|s.log| == 2 ==> s.monitor == Holding(SignalOf(s.id, s.log[1])))
    && (s.monitor.Watching? ==> |s.log| == 1)
    && (s.monitor.Holding? && |s.log| < 2 ==> s.monitor.signal.RemoteFailed? && IsWireError(s.monitor.signal.error))
    && (s.monitor.Gone? ==> |s.log| == 1 && s.shutdown)
    && (s.pc.Ready? || s.pc.Writing? ==> BatchFrame(s.pc.frame))
  }

  lemma ReadKeepsMonitor(s: Sender, o: ReadOutcome)
    requires MonitorInv(s) && (o.ReadFailed? ==> IsWireError(o.error))
    ensures MonitorInv(OnRead(s, o))
  {
    hide IsWireError, FinishError, Transition;
  }

  lemma WrittenKeepsMonitor(s: Sender, failure: Option<TransferError>, delivered: bool, clock: Clock)
    requires MonitorInv(s) && s.pc.Writing?
    ensures MonitorInv(OnWritten(s, s.pc.frame, failure, delivered, clock))
  {
    hide IsWireError, SignalOf, Transition, Progress;
  }

  lemma PlainKeepsMonitor(s: Sender, t: Sender)
    requires MonitorInv(s) && t.log == s.log && t.id == s.id && t.monitor == s.monitor
    requires s.shutdown ==> t.shutdown
    requires Streaming(t.pc) ==> Streaming(s.pc)
    requires Unanswered(t.pc) ==> Unanswered(s.pc)
    requires t.pc.Ready? || t.pc.Writing? ==> t.pc == s.pc || BatchFrame(t.pc.frame)
    ensures MonitorInv(t)
  {
    hide IsWireError, SignalOf, BatchFrame;
  }

  /** A step that neither reads, writes nor looks at the monitor. */
  predicate Plain(e: Event) { !e.Read? && !e.Written? && !e.CheckPoint? && !e.MonitorStopped? }

  predicate InPreparation(e: Event)
  {
    e.Prepared? || e.PrepareFailed? || e.Connected? || e.TrustSettled? || e.RequestWritten?
  }

  lemma PreparationKeepsMonitor(s: Sender, e: Event)
    requires MonitorInv(s) && InPreparation(e)
    ensures MonitorInv(Step(s, e))
  {
    hide MonitorInv, IsWireError, FinishError, Transition, ValidRequest, BatchFrame;
    PlainKeepsMonitor(s, Step(s, e));
  }

  lemma PlainStepKeepsMonitor(s: Sender, e: Event)
    requires MonitorInv(s) && Plain(e) && !InPreparation(e)
    ensures MonitorInv(Step(s, e))
  {
    hide MonitorInv, IsWireError, FinishError, Transition, Progress, SignalError;
    PlainKeepsMonitor(s, Step(s, e));
  }

  lemma StepKeepsMonitor(s: Sender, e: Event)
    requires MonitorInv(s)
    ensures MonitorInv(Step(s, e))
  {
    hide MonitorInv, IsWireError, OnPrepared, OnConnected, OnTrust, OnRequestWritten, OnRead, OnWritten, OnChunkRead,
      OnSignal, OnCheckPoint, OnWithdrawn, Fail, GiveUp;
    if InPreparation(e) {
      PreparationKeepsMonitor(s, e);
    } else if Plain(e) {
      PlainStepKeepsMonitor(s, e);
    } else {
      match e {
        case Read(o) =>
          if o.Got? || IsWireError(o.error) {
            ReadKeepsMonitor(s, o);
          }
        case Written(failure, delivered, clock) =>
          if s.pc.Writing? {
            WrittenKeepsMonitor(s, failure, delivered, clock);
          }
        case MonitorStopped => MonitorGone(s);
        case CheckPoint => CheckPointKeepsMonitor(s);
      }
    }
  }

  lemma CheckPointKeepsMonitor(s: Sender)
    requires MonitorInv(s)
    ensures MonitorInv(OnCheckPoint(s))
  {
    hide IsWireError, FinishError, SignalOf;
  }

  lemma MonitorGone(s: Sender)
    requires MonitorInv(s)
    ensures s.monitor.Watching? && s.shutdown ==> MonitorInv(s.(monitor := Gone))
  {
    hide IsWireError, SignalOf;
  }

  lemma {:induction false} RunKeepsMonitor(start: Sender, events: seq<Event>)
    requires MonitorInv(start)
    ensures MonitorInv(Run(start, events))
  {
    hide MonitorInv, Step;
    if events != [] {
      RunKeepsMonitor(start, events[..|events| - 1]);
      StepKeepsMonitor(Run(start, events[..|events| - 1]), events[|events| - 1]);
    }
  }

  // ----- the answer ------------------------------------------------------

  /** The first frame read was a decision of this kind, under the own transfer id. */
  predicate Answered(s: Sender, accepted: bool)
  {
    s.log != [] && s.log[0].Control? && s.log[0].message.TransferDecision? && s.log[0].message.id == s.id &&
    s.log[0].message.accepted == accepted
  }

  /** Only an acceptance starts the monitor, and only a refusal turns the batch down. */
  predicate AnswerInv(s: Sender)
  {
    && (!s.monitor.Off? ==> Answered(s, true))
    && (s.pc == Ended(TurnedDown) ==> s.monitor.Off? && |s.log| == 1 && Answered(s, false))
    && (s.pc == Ended(Succeeded) ==> !s.monitor.Off?)
  }

  lemma DecisionKeepsAnswer(s: Sender, f: Frame)
    requires MonitorInv(s) && s.pc.AwaitDecision?
    ensures AnswerInv(OnDecision(s.(log := s.log + [f]), f))
  {
    hide FinishError, Transition;
  }

  lemma ReadKeepsAnswer(s: Sender, o: ReadOutcome)
    requires MonitorInv(s) && AnswerInv(s)
    ensures AnswerInv(OnRead(s, o))
  {
    hide OnDecision, FinishError, SignalOf;
    if s.pc.AwaitDecision? && o.Got? {
      DecisionKeepsAnswer(s, o.frame);
    }
  }

  lemma PlainKeepsAnswer(s: Sender, t: Sender)
    requires AnswerInv(s) && t.id == s.id && t.log == s.log
    requires t.monitor == s.monitor || (!s.monitor.Off? && !t.monitor.Off?)
    requires t.pc == s.pc || (t.pc != Ended(TurnedDown) && (t.pc == Ended(Succeeded) ==> !t.monitor.Off?))
    ensures AnswerInv(t)
  {
  }

  lemma PreparationKeepsAnswer(s: Sender, e: Event)
    requires AnswerInv(s) && InPreparation(e)
    ensures AnswerInv(Step(s, e))
  {
    hide AnswerInv, IsWireError, FinishError, Transition, ValidRequest;
    PlainKeepsAnswer(s, Step(s, e));
  }

  lemma WritingKeepsAnswer(s: Sender, e: Event)
    requires AnswerInv(s) && (e.Written? || e.CheckPoint?)
    ensures AnswerInv(Step(s, e))
  {
    hide AnswerInv, IsWireError, FinishError, Transition, Progress, SignalError;
    PlainKeepsAnswer(s, Step(s, e));
  }

  lemma PlainStepKeepsAnswer(s: Sender, e: Event)
    requires AnswerInv(s) && !InPreparation(e) && !e.Read? && !e.Written? && !e.CheckPoint?
    ensures AnswerInv(Step(s, e))
  {
    hide AnswerInv, IsWireError, FinishError, Transition, Progress, SignalError;
    PlainKeepsAnswer(s, Step(s, e));
  }

  lemma StepKeepsAnswer(s: Sender, e: Event)
    requires MonitorInv(s) && AnswerInv(s)
    ensures AnswerInv(Step(s, e))
  {
    hide MonitorInv, AnswerInv, IsWireError, OnPrepared, OnConnected, OnTrust, OnRequestWritten, OnRead, OnWritten,
      OnChunkRead, OnSignal, OnCheckPoint, OnWithdrawn, Fail, GiveUp;
    if InPreparation(e) {
      PreparationKeepsAnswer(s, e);
    } else if e.Written? || e.CheckPoint? {
      WritingKeepsAnswer(s, e);
    } else if e.Read? {
      if e.outcome.Got? || IsWireError(e.outcome.error) {
        ReadKeepsAnswer(s, e.outcome);
      }
    } else {
      PlainStepKeepsAnswer(s, e);
    }
  }

  lemma {:induction false} RunKeepsAnswer(start: Sender, events: seq<Event>)
    requires MonitorInv(start) && AnswerInv(start)
    ensures AnswerInv(Run(start, events))
  {
    hide MonitorInv, AnswerInv, Step;
    if events != [] {
      RunKeepsAnswer(start, events[..|events| - 1]);
      RunKeepsMonitor(start, events[..|events| - 1]);
      StepKeepsAnswer(Run(start, events[..|events| - 1]), events[|events| - 1]);
    }
  }

  /** What a frame heard while files are sent makes of the run. */
  function ErrorFor(id: string, f: Frame): TransferError
  {
    if f.Data? then InvalidPeerResponse(UnexpectedData)
    else if f.message == Cancel(id) then RemoteCanceled
    else if f.message.TransferResult? then InvalidPeerResponse(CompletedTooEarly)
    else InvalidPeerResponse(UnexpectedControl)
  }

  /** `remote_signal_error`: nothing pending is no error, and any frame heard is one. */
  lemma PendingSignal(id: string, events: seq<Event>)
    ensures var s := Run(Initial(id), events);
            && (SignalError(s.monitor).None? <==> s.monitor.Off? || s.monitor.Watching?)
            && (|s.log| == 2 ==> s.id == id && SignalError(s.monitor) == Some(ErrorFor(id, s.log[1])))
            && (s.monitor.Gone? ==> s.shutdown)
  {
    hide Run;
    RunKeepsMonitor(Initial(id), events);
    RunKeepsId(Initial(id), events);
  }

  lemma {:induction false} RunKeepsId(start: Sender, events: seq<Event>)
    ensures Run(start, events).id == start.id
  {
    hide Step;
    if events != [] {
      RunKeepsId(start, events[..|events| - 1]);
      StepKeepsId(Run(start, events[..|events| - 1]), events[|events| - 1]);
    }
  }

  lemma StepKeepsId(s: Sender, e: Event)
    ensures Step(s, e).id == s.id && s.sent <= Step(s, e).sent
  {
    hide OnPrepared, OnConnected, OnTrust, OnRequestWritten, OnRead, OnWritten, OnChunkRead, OnSignal, OnCheckPoint,
      OnWithdrawn, Fail, GiveUp, IsWireError;
  }

  /**
   Before every write: without a token, the frame is written exactly if the receiver was not heard
   of; a frame heard withdraws the batch with the error it calls for.
   */
  lemma HeardFrameStopsSending(id: string, events: seq<Event>)
    requires Run(Initial(id), events).pc.Ready?
    ensures var s := Run(Initial(id), events);
            var t := Step(s, CheckPoint);
            && (t.pc == Writing(s.pc.frame) <==> s.monitor.Watching? && !s.cancelled && !s.shutdown)
            && (|s.log| == 2 && !s.cancelled && !s.shutdown ==> t.pc == Withdraw(ErrorFor(id, s.log[1])))
  {
    hide Run;
    RunKeepsMonitor(Initial(id), events);
    RunKeepsId(Initial(id), events);
  }

  // ----- after the frame -------------------------------------------------

  /** How many more frames may still be sent once the monitor has stopped watching. */
  function Allowance(pc: Pc): nat
  {
    match pc
    case Writing(_) => 2
    case Ended(_) => 0
    case _ => 1
  }

  /** The monitor has stopped watching; the run streams, withdraws or is over. */
  predicate Warned(s: Sender)
  {
    && !Unanswered(s.pc) && (s.monitor.Holding? || s.monitor.Gone?)
    && (s.pc.Ready? || s.pc.Writing? ==> BatchFrame(s.pc.frame))
  }

  lemma WarnedWritten(s: Sender, failure: Option<TransferError>, delivered: bool, clock: Clock)
    requires Warned(s) && s.pc.Writing?
    ensures var t := OnWritten(s, s.pc.frame, failure, delivered, clock);
            Warned(t) && |t.sent| + Allowance(t.pc) <= |s.sent| + Allowance(s.pc)
  {
    hide Transition, Progress;
  }

  lemma WarnedStep(s: Sender, e: Event)
    requires Warned(s)
    ensures var t := Step(s, e); Warned(t) && |t.sent| + Allowance(t.pc) <= |s.sent| + Allowance(s.pc)
  {
    hide IsWireError, FinishError, Transition, Progress, OnPrepared, OnRequestWritten, OnWritten, SignalOf;
    if e.Written? && s.pc.Writing? {
      WarnedWritten(s, e.failure, e.delivered, e.clock);
    }
  }

  /** From then on the frame being written and the cancellation are all that is still sent. */
  lemma {:induction false} WarnedSendsNoMore(s: Sender, more: seq<Event>)
    requires Warned(s)
    ensures var t := Run(s, more); Warned(t) && |t.sent| + Allowance(t.pc) <= |s.sent| + Allowance(s.pc)
  {
    hide Warned, Step, Allowance;
    if more != [] {
      WarnedSendsNoMore(s, more[..|more| - 1]);
      WarnedStep(Run(s, more[..|more| - 1]), more[|more| - 1]);
    }
  }

  /** The batch was not declared complete, or the run failed. */
  predicate Undeclared(s: Sender)
  {
    match s.pc
    case Writing(f) => !(f.Control? && f.message.Complete?)
    case AwaitResult => false
    case Ended(outcome) => !outcome.Succeeded?
    case _ => true
  }

  lemma UndeclaredStep(s: Sender, e: Event)
    requires Warned(s) && Undeclared(s)
    ensures Undeclared(Step(s, e))
  {
    hide IsWireError, FinishError, Transition, Progress, ValidRequest;
  }

  lemma {:induction false} UndeclaredForever(s: Sender, more: seq<Event>)
    requires Warned(s) && Undeclared(s)
    ensures Undeclared(Run(s, more))
  {
    hide Warned, Undeclared, Step;
    if more != [] {
      UndeclaredForever(s, more[..|more| - 1]);
      WarnedSendsNoMore(s, more[..|more| - 1]);
      UndeclaredStep(Run(s, more[..|more| - 1]), more[|more| - 1]);
    }
  }

  /**
   Once a second frame was heard, the frame being written and a cancellation are all that any
   continuation sends, and unless the declaration was being written or is out, none succeeds.
   */
  lemma EarlyFrameEndsTheStream(id: string, events: seq<Event>, more: seq<Event>)
    requires |Run(Initial(id), events).log| == 2 && !Unanswered(Run(Initial(id), events).pc)
    ensures var s := Run(Initial(id), events);
            var t := Run(s, more);
            && s.sent <= t.sent && |t.sent| <= |s.sent| + 2
            && (!s.pc.Writing? ==> |t.sent| <= |s.sent| + 1)
            && (Undeclared(s) ==> t.pc != Ended(Succeeded))
  {
    hide Run;
    RunKeepsMonitor(Initial(id), events);
    var s := Run(Initial(id), events);
    assert Warned(s) by { hide SignalOf, Undeclared; }
    WarnedSendsNoMore(s, more);
    RunOnlySends(s, more);
    if Undeclared(s) {
      UndeclaredForever(s, more);
    }
  }

  lemma {:induction false} RunOnlySends(start: Sender, events: seq<Event>)
    ensures start.sent <= Run(start, events).sent
  {
    hide Step;
    if events != [] {
      RunOnlySends(start, events[..|events| - 1]);
      StepKeepsId(Run(start, events[..|events| - 1]), events[|events| - 1]);
    }
  }

  /** After the declaration the one frame heard decides: only a success for this transfer completes it. */
  lemma OneFrameDecides(id: string, events: seq<Event>, clock: Clock)
    requires Run(Initial(id), events).pc.AwaitResult?
    ensures var s := Run(Initial(id), events);
            var t := Step(s, SignalSeen(clock));
            && (t.pc == Ended(Succeeded) <==>
                  |s.log| == 2 && s.log[1].Control? && s.log[1].message.TransferResult? &&
                  s.log[1].message.success && s.log[1].message.id == id)
            && (t.pc.AwaitResult? <==> s.monitor.Watching?)
  {
    hide Run, Transition, Progress;
    RunKeepsMonitor(Initial(id), events);
    RunKeepsId(Initial(id), events);
  }
}

/**
 What a set token brings about: a run that is told to stop in time never completes, and it stops
 after at most one more file or one more frame and a cancellation.
 */
module Cancellation {
  import opened Wrappers
  import opened Wire
  import opened CollisionNames
  import Lifecycle
  import R = Receiver
  import S = Sender
  import RS = ReceiverSafety
  import RT = ReceiverTheorems
  import SM = SenderMonitor
  import opened Agreement
  import Consent

  // ----- the receiver ----------------------------------------------------

  /** The transfer is not bound to be reported as completed. */
  predicate Open(pc: R.Pc) { !RS.Committed(pc) && !(pc.WriteNotice? && pc.after.Succeeded?) }

  /** A token is set in time. */
  predicate ToldToStop(r: R.Receiver) { (r.cancelled || r.shutdown) && Open(r.pc) }

  /** How many files have, or are about to get, their final name. */
  function Finals(r: R.Receiver): nat { |r.finalized| + (if r.pc.Finalize? then 1 else 0) }

  /** The tokens stay set, no file more gets a final name. */
  predicate Stays(r: R.Receiver, s: R.Receiver)
  {
    (r.cancelled ==> s.cancelled) && (r.shutdown ==> s.shutdown) && Open(s.pc) && Finals(s) <= Finals(r)
  }

  lemma FirstFrameStays(r: R.Receiver, f: Frame)
    requires ToldToStop(r)
    ensures Stays(r, R.OnFirstFrame(r, f))
  {
    hide ValidRequest;
  }

  lemma DecidingFrameStays(r: R.Receiver, f: Frame)
    requires ToldToStop(r)
    ensures Stays(r, R.OnFrameWhileDeciding(r, f))
  {
    hide Lifecycle.FinishError;
  }

  lemma StartStays(r: R.Receiver, f: Frame)
    requires ToldToStop(r)
    ensures Stays(r, R.OnFileStart(r, f))
  {
  }

  lemma StreamStays(r: R.Receiver, f: Frame)
    requires ToldToStop(r) && |r.got| < |r.files|
    ensures Stays(r, R.OnStreamFrame(r, f))
  {
  }

  lemma CompleteStays(r: R.Receiver, f: Frame)
    requires ToldToStop(r)
    ensures Stays(r, R.OnComplete(r, f))
  {
  }

  lemma GotStays(r: R.Receiver, f: Frame)
    requires ToldToStop(r)
    ensures Stays(r, R.OnGot(r, f))
  {
    hide R.OnFirstFrame, R.OnFrameWhileDeciding, R.OnFileStart, R.OnStreamFrame, R.OnComplete;
    var logged := r.(log := r.log + [f]);
    FirstFrameStays(logged, f);
    DecidingFrameStays(logged, f);
    StartStays(logged, f);
    CompleteStays(logged, f);
    if |r.got| < |r.files| {
      StreamStays(logged, f);
    }
  }

  /** The steps around the request, the decision and the result. */
  predicate Talking(e: R.Event)
  {
    e.TrustSettled? || e.Admission? || e.Announced? || e.Answered? || e.DeadlinePassed? || e.DecisionWritten? ||
    e.NoticeWritten? || e.ResultWritten? || e.ResultSettled? || e.FailureReported? ||
    (e.Read? && e.outcome.ReadFailed?)
  }

  lemma RequestStays(p: R.Policy, r: R.Receiver, e: R.Event)
    requires ToldToStop(r) && (e.TrustSettled? || e.Admission? || e.Announced? || e.Answered? || e.DeadlinePassed?)
    ensures Stays(r, R.Step(p, r, e))
  {
    hide Lifecycle.FinishError, Lifecycle.Emit;
  }

  lemma FailedReadStays(r: R.Receiver, e: TransferError)
    requires ToldToStop(r)
    ensures Stays(r, R.OnReadFailed(r, e))
  {
    hide R.Fail, R.DecisionFailed, Stays;
    ErrorStays(r, e);
    Unmoved(r);
  }

  lemma ErrorStays(r: R.Receiver, e: TransferError)
    requires ToldToStop(r)
    ensures Stays(r, R.Fail(r, e)) && Stays(r, R.DecisionFailed(r, e))
    ensures Stays(r, r.(pc := R.Ended(R.NoTransfer(e))))
  {
    hide Lifecycle.FinishError;
  }

  lemma DecisionStays(r: R.Receiver, ok: bool, delivered: bool)
    requires ToldToStop(r)
    ensures r.pc.WriteDecision? ==> Stays(r, R.OnDecisionWritten(r, r.pc.verdict, ok, delivered))
    ensures r.pc.WriteNotice? ==> Stays(r, R.OnNoticeWritten(r, r.pc.notice, r.pc.after, delivered))
  {
    hide Lifecycle.FinishError, Lifecycle.Transition;
  }

  lemma ReportStays(r: R.Receiver, e: TransferError, c: bool, d: bool)
    requires ToldToStop(r)
    ensures Stays(r, R.OnFailureReported(r, e, c, d))
  {
    hide Lifecycle.FinishError;
  }

  lemma TalkingStays(p: R.Policy, r: R.Receiver, e: R.Event)
    requires ToldToStop(r) && Talking(e)
    ensures Stays(r, R.Step(p, r, e))
  {
    hide R.OnReadFailed, R.OnDecisionWritten, R.OnNoticeWritten, R.OnFailureReported, Stays, IsWireError, R.CanObserve;
    Unmoved(r);
    match e {
      case Read(ReadFailed(error)) => FailedReadStays(r, error);
      case DecisionWritten(ok, delivered) => DecisionStays(r, ok, delivered);
      case NoticeWritten(delivered) => DecisionStays(r, true, delivered);
      case ResultWritten(_) =>
      case ResultSettled =>
      case FailureReported(c, d) => if r.pc.Report? { ReportStays(r, r.pc.error, c, d); }
      case _ => RequestStays(p, r, e);
    }
  }

  /** The steps that test the tokens or move files to their names. */
  predicate Moving(e: R.Event)
  {
    e.CheckPoint? || e.FileFinalized? || e.FinalizeFailed? || e.CleanedUp? || e.RolledBack?
  }

  lemma TestStays(p: R.Policy, r: R.Receiver)
    requires ToldToStop(r)
    ensures Stays(r, R.OnCheckPoint(p, r))
  {
    hide Lifecycle.Transition, R.FinalKeys;
  }

  lemma MovingStays(p: R.Policy, r: R.Receiver, e: R.Event)
    requires ToldToStop(r) && Moving(e)
    ensures Stays(r, R.Step(p, r, e))
  {
    hide R.OnCheckPoint, R.Temporaries, R.NameSet, R.Without, R.AllowedTarget, R.Target, R.IsFileError;
    TestStays(p, r);
  }

  lemma StageCreatedStays(r: R.Receiver, path: string, failure: Option<TransferError>)
    requires ToldToStop(r) && |r.got| < |r.files|
    ensures Stays(r, R.OnStageCreated(r, path, failure))
  {
    hide R.StagingName;
  }

  lemma ChunkStays(r: R.Receiver, data: Bytes, written: nat, failure: Option<TransferError>, clock: Lifecycle.Clock)
    requires ToldToStop(r) && r.staged != []
    ensures Stays(r, R.OnChunkWritten(r, data, written, failure, clock))
  {
    hide Lifecycle.Progress, R.Appended;
  }

  lemma FlushStays(p: R.Policy, r: R.Receiver, failure: Option<TransferError>, clock: Lifecycle.Clock)
    requires ToldToStop(r)
    ensures |r.got| < |r.files| ==> Stays(r, R.OnFlushed(p, r, failure))
    ensures Stays(r, R.OnCounted(r, clock))
  {
    hide Lifecycle.Progress, DigestMatches;
  }

  lemma ReceivingStays(p: R.Policy, r: R.Receiver, e: R.Event)
    requires ToldToStop(r) && (e.StageCreated? || e.ChunkWritten? || e.Flushed? || e.Counted?)
    ensures Stays(r, R.Step(p, r, e))
  {
    hide Stays, R.OnStageCreated, R.OnChunkWritten, R.OnFlushed, R.OnCounted, R.IsFileError, R.IsFlushError;
    Unmoved(r);
    match e {
      case StageCreated(failure) =>
        if r.pc.CreateStage? && |r.got| < |r.files| { StageCreatedStays(r, r.pc.path, failure); }
      case ChunkWritten(written, failure, clock) =>
        if r.pc.WriteChunk? && r.staged != [] { ChunkStays(r, r.pc.data, written, failure, clock); }
      case Flushed(failure) => FlushStays(p, r, failure, Lifecycle.Clock(false, 0));
      case Counted(clock) => FlushStays(p, r, None, clock);
    }
  }

  lemma WorkStays(p: R.Policy, r: R.Receiver, e: R.Event)
    requires ToldToStop(r) && !Talking(e) && !e.Read?
    ensures Stays(r, R.Step(p, r, e))
  {
    if Moving(e) {
      hide R.Step;
      MovingStays(p, r, e);
    } else if e.StageCreated? || e.ChunkWritten? || e.Flushed? || e.Counted? {
      hide R.Step;
      ReceivingStays(p, r, e);
    } else {
      hide Candidate, R.Temporaries;
    }
  }

  lemma StepStays(p: R.Policy, r: R.Receiver, e: R.Event)
    requires ToldToStop(r)
    ensures Stays(r, R.Step(p, r, e))
  {
    if Talking(e) {
      TalkingStays(p, r, e);
    } else if e.Read? {
      hide Stays, R.OnGot;
      GotStays(r, e.outcome.frame);
      Unmoved(r);
    } else {
      WorkStays(p, r, e);
    }
    hide R.Step;
  }

  lemma Unmoved(r: R.Receiver)
    requires ToldToStop(r)
    ensures Stays(r, r)
  {
  }

  lemma {:induction false} RunStays(p: R.Policy, r: R.Receiver, more: seq<R.Event>)
    requires ToldToStop(r)
    ensures Stays(r, R.Run(p, r, more))
  {
    hide R.Step, Open, Finals;
    if more != [] {
      RunStays(p, r, more[..|more| - 1]);
      StepStays(p, R.Run(p, r, more[..|more| - 1]), more[|more| - 1]);
    }
  }

  /** Where the tokens are tested: after the last byte, before each file is moved and after the last one. */
  predicate Testing(pc: R.Pc) { pc.AllReceived? || pc.BeginFinalize? || pc.ConfirmAll? || pc.ConfirmLast? }

  /** A test undoes the transfer exactly if a token is set, and a shutdown is named before a cancellation. */
  lemma TestsStopTheTransfer(p: R.Policy, r: R.Receiver)
    requires Testing(r.pc)
    ensures var s := R.Step(p, r, R.CheckPoint);
            && (s.pc.CleanUp? <==> r.cancelled || r.shutdown)
            && (s.pc == R.CleanUp(ShuttingDown) <==> r.shutdown)
            && (s.pc == R.CleanUp(TransferError.Canceled) <==> r.cancelled && !r.shutdown)
  {
    hide Lifecycle.Transition, R.FinalKeys;
  }

  /**
   A cancellation or a shutdown that comes before the last test stops the transfer for good: no
   continuation completes it, and at most the file being moved still gets its final name.
   */
  lemma CancelledNeverCompletes(
    p: R.Policy, present: map<string, Bytes>, events: seq<R.Event>, more: seq<R.Event>)
    requires var r := R.Run(p, R.Initial(present), events); (r.cancelled || r.shutdown) && !RS.Committed(r.pc)
    ensures var r := R.Run(p, R.Initial(present), events);
            var s := R.Run(p, r, more);
            && !RS.Committed(s.pc) && s.pc != R.Ended(R.Succeeded)
            && |s.finalized| <= |r.finalized| + (if r.pc.Finalize? then 1 else 0)
  {
    hide R.Run, R.Initial, RS.Inv;
    RT.ReachableInvariant(p, present, events);
    NoticeIsNoSuccess(p, R.Run(p, R.Initial(present), events));
    RunStays(p, R.Run(p, R.Initial(present), events), more);
  }

  lemma NoticeIsNoSuccess(p: R.Policy, r: R.Receiver)
    requires RS.Inv(p, r)
    ensures !(r.pc.WriteNotice? && r.pc.after.Succeeded?)
  {
    hide RS.Places, RS.Books, ValidRequest;
  }

  // ----- the sender ------------------------------------------------------

  /** How many more frames a sender that was told to stop may send: the one being written and a cancellation. */
  function Rest(pc: S.Pc): nat
  {
    match pc
    case PrepareFiles => 0
    case CheckBeforeConnect => 0
    case Connect => 2
    case Trust => 2
    case WriteRequest => 2
    case Writing(_) => 2
    case Ended(_) => 0
    case _ => 1
  }

  /** The tokens stay set, the rest shrinks with every frame, and no declaration is made any more. */
  predicate Subsides(s: S.Sender, t: S.Sender)
  {
    && (s.cancelled ==> t.cancelled) && (s.shutdown ==> t.shutdown)
    && |t.sent| + Rest(t.pc) <= |s.sent| + Rest(s.pc)
    && (SM.Undeclared(s) ==> SM.Undeclared(t))
  }

  lemma WrittenSubsides(s: S.Sender, failure: Option<TransferError>, delivered: bool, clock: Lifecycle.Clock)
    requires SM.MonitorInv(s) && s.pc.Writing?
    ensures Subsides(s, S.OnWritten(s, s.pc.frame, failure, delivered, clock))
  {
    hide Lifecycle.Transition, Lifecycle.Progress, S.SignalOf, IsWireError;
  }

  lemma PreparationSubsides(s: S.Sender, e: S.Event)
    requires SM.InPreparation(e)
    ensures Subsides(s, S.Step(s, e))
  {
    hide Lifecycle.Transition, Lifecycle.FinishError, ValidRequest, IsWireError;
  }

  lemma ReadSubsides(s: S.Sender, o: ReadOutcome)
    requires s.cancelled || s.shutdown
    ensures Subsides(s, S.OnRead(s, o))
  {
    hide Lifecycle.Transition, Lifecycle.FinishError, S.SignalOf;
  }

  lemma PlainSubsides(s: S.Sender, e: S.Event)
    requires s.cancelled || s.shutdown
    requires !SM.InPreparation(e) && !e.Written? && !e.Read?
    ensures Subsides(s, S.Step(s, e))
  {
    hide Lifecycle.Transition, Lifecycle.Progress, Lifecycle.FinishError, S.SignalError, IsWireError;
  }

  lemma StepSubsides(s: S.Sender, e: S.Event)
    requires SM.MonitorInv(s) && (s.cancelled || s.shutdown)
    ensures Subsides(s, S.Step(s, e))
  {
    hide SM.MonitorInv, Subsides, S.OnRead, S.OnWritten, S.OnPrepared, S.OnConnected, S.OnTrust, S.OnRequestWritten,
      S.OnChunkRead, S.OnSignal, S.OnCheckPoint, S.OnWithdrawn, S.Fail, S.GiveUp, IsWireError, Lifecycle.Transition;
    if SM.InPreparation(e) {
      PreparationSubsides(s, e);
    } else if e.Written? && s.pc.Writing? {
      WrittenSubsides(s, e.failure, e.delivered, e.clock);
      Unchanged(s);
    } else if e.Read? {
      ReadSubsides(s, e.outcome);
      Unchanged(s);
    } else if !e.Written? {
      PlainSubsides(s, e);
    } else {
      Unchanged(s);
    }
  }

  lemma Unchanged(s: S.Sender)
    ensures Subsides(s, s)
  {
  }

  lemma {:induction false} RunSubsides(s: S.Sender, more: seq<S.Event>)
    requires SM.MonitorInv(s) && (s.cancelled || s.shutdown)
    ensures Subsides(s, S.Run(s, more))
  {
    hide SM.MonitorInv, S.Step, Rest, SM.Undeclared;
    if more != [] {
      RunSubsides(s, more[..|more| - 1]);
      SM.RunKeepsMonitor(s, more[..|more| - 1]);
      StepSubsides(S.Run(s, more[..|more| - 1]), more[|more| - 1]);
    }
  }

  /**
   Once a token is set, no continuation sends more than the frame being written and a cancellation,
   nothing at all if the connection was not opened yet, and none succeeds unless the declaration was
   being written or is out.
   */
  lemma CancelledSendsNoMore(id: string, events: seq<S.Event>, more: seq<S.Event>)
    requires var s := S.Run(S.Initial(id), events); s.cancelled || s.shutdown
    ensures var s := S.Run(S.Initial(id), events);
            var t := S.Run(s, more);
            && s.sent <= t.sent && |t.sent| <= |s.sent| + Rest(s.pc) <= |s.sent| + 2
            && (SM.Undeclared(s) ==> t.pc != S.Ended(S.Succeeded))
  {
    hide S.Run;
    SM.RunKeepsMonitor(S.Initial(id), events);
    var s := S.Run(S.Initial(id), events);
    hide SM.MonitorInv;
    RunSubsides(s, more);
    SM.RunOnlySends(s, more);
  }

  // ----- both ------------------------------------------------------------

  lemma {:induction false} JointRunStays(p: R.Policy, sys: System, more: seq<Turn>)
    requires ToldToStop(sys.receiver)
    ensures Stays(sys.receiver, Run(p, sys, more).receiver)
  {
    hide R.Step, S.Step, Open, Finals;
    if more != [] {
      JointRunStays(p, sys, more[..|more| - 1]);
      var before, t := Run(p, sys, more[..|more| - 1]), more[|more| - 1];
      if t.ReceiverTurn? {
        StepStays(p, before.receiver, t.deed);
      }
    }
  }

  /** If the receiver is told to stop before its last test, the sender never reports completion either. */
  lemma CancelledOnOneSide(
    p: R.Policy, id: string, present: map<string, Bytes>, turns: seq<Turn>, more: seq<Turn>)
    requires var r := Run(p, Start(id, present), turns).receiver; (r.cancelled || r.shutdown) && !RS.Committed(r.pc)
    ensures Run(p, Start(id, present), turns + more).sender.pc != S.Ended(S.Succeeded)
  {
    hide Run, Start, RS.Inv, Open, Finals, Agreed;
    var start := Start(id, present);
    StartInvariant(p, id, present);
    RunKeepsInvariant(p, start, turns);
    var sys := Run(p, start, turns);
    NoticeIsNoSuccess(p, sys.receiver);
    InTime(sys.receiver);
    JointRunStays(p, sys, more);
    Consent.RunSplit(p, start, turns, more);
    NotSettled(Run(p, sys, more).receiver);
    if Run(p, start, turns + more).sender.pc == S.Ended(S.Succeeded) {
      SenderCompletedMeansDelivered(p, id, present, turns + more);
      AgreedIsSettled(p, Run(p, start, turns + more));
      assert false;
    }
  }

  lemma InTime(r: R.Receiver)
    requires (r.cancelled || r.shutdown) && !RS.Committed(r.pc) && !(r.pc.WriteNotice? && r.pc.after.Succeeded?)
    ensures ToldToStop(r)
  {
  }

  lemma NotSettled(r: R.Receiver)
    ensures Open(r.pc) ==> !Settled(r)
  {
  }

  lemma AgreedIsSettled(p: R.Policy, sys: System)
    ensures Agreed(p, sys) ==> Settled(sys.receiver)
  {
    hide RT.Delivered;
  }
}

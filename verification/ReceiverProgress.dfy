/**
 The progress a receiver shows: never more than has arrived, exactly that in every report that
 is not held back, and the whole batch from the moment it was verified.
 */
module ReceiverProgress {
  import opened Wrappers
  import opened Wire
  import opened Lifecycle
  import CollisionNames
  import opened Receiver
  import Safety = ReceiverSafety
  import Theorems = ReceiverTheorems

  /** What is shown is what was counted, or less; and all of it once the whole batch was counted. */
  predicate ShownInv(r: Receiver)
  {
    && r.tracker.now.transferred <= r.transferred
    && Current(r.tracker)
    && (r.pc.AllReceived? || WholeShown(r.tracker.now.phase) ==> r.tracker.now.transferred == r.total)
  }

  /** A step that counts nothing and does not reach the point where the whole batch must be shown. */
  predicate Uncounted(r: Receiver, s: Receiver)
  {
    && s.transferred == r.transferred && s.total == r.total
    && Follows(r.tracker, s.tracker)
    && (s.pc.AllReceived? ==> r.pc.AllReceived?)
    && (WholeShown(s.tracker.now.phase) ==> WholeShown(r.tracker.now.phase) || r.pc.AllReceived?)
  }

  lemma UncountedKeepsShown(r: Receiver, s: Receiver)
    requires ShownInv(r) && Uncounted(r, s)
    ensures ShownInv(s)
  {
  }

  /** The tracker is not touched, or an error ends the run. */
  predicate Settled(r: Receiver, s: Receiver)
  {
    && s.transferred == r.transferred && s.total == r.total
    && (s.pc.AllReceived? ==> r.pc.AllReceived?)
    && (|| s.tracker == r.tracker
        || s.tracker == FinishError(r.tracker, AppUnavailable)
        || (s.pc.Ended? && s.pc.outcome.Aborted? && s.tracker == FinishError(r.tracker, s.pc.outcome.error)))
  }

  lemma SettledIsUncounted(r: Receiver, s: Receiver)
    requires Settled(r, s)
    ensures Uncounted(r, s)
  {
    FinishErrorFollows(r.tracker, AppUnavailable);
    if s.pc.Ended? && s.pc.outcome.Aborted? {
      FinishErrorFollows(r.tracker, s.pc.outcome.error);
    }
    hide FinishError;
  }

  lemma DecidingFrameIsSettled(r: Receiver, f: Frame)
    ensures Settled(r, OnFrameWhileDeciding(r, f))
  {
    hide FinishError;
  }

  lemma StartIsSettled(r: Receiver, f: Frame)
    ensures Settled(r, OnFileStart(r, f))
  {
    hide FinishError;
  }

  lemma StreamIsSettled(r: Receiver, f: Frame)
    requires |r.got| < |r.files|
    ensures Settled(r, OnStreamFrame(r, f))
  {
    hide FinishError;
  }

  lemma CompleteIsSettled(r: Receiver, f: Frame)
    ensures Settled(r, OnComplete(r, f))
  {
    hide FinishError;
  }

  lemma GotIsSettled(r: Receiver, f: Frame)
    requires !r.pc.AwaitRequest?
    ensures Settled(r, OnGot(r, f))
  {
    hide FinishError, OnFirstFrame, OnFrameWhileDeciding, OnFileStart, OnStreamFrame, OnComplete;
    var logged := r.(log := r.log + [f]);
    DecidingFrameIsSettled(logged, f);
    StartIsSettled(logged, f);
    CompleteIsSettled(logged, f);
    if |r.got| < |r.files| {
      StreamIsSettled(logged, f);
    }
  }

  lemma FirstFrameKeepsShown(p: Policy, r: Receiver, f: Frame)
    requires Safety.Inv(p, r) && ShownInv(r) && r.pc.AwaitRequest?
    ensures ShownInv(OnGot(r, f))
  {
    hide ValidRequest;
    assert r.tracker == NewTracker(WaitingForAcceptance);
  }

  /** The steps around the request and those that end the run with an error. */
  predicate Talking(e: Event)
  {
    e.TrustSettled? || e.Announced? || e.Answered? || e.DeadlinePassed? || e.NoticeWritten? || e.ResultWritten? ||
    e.FailureReported? || (e.Read? && e.outcome.ReadFailed?)
  }

  lemma TalkingIsSettled(p: Policy, r: Receiver, e: Event)
    requires Talking(e)
    ensures Settled(r, Step(p, r, e))
  {
    hide FinishError, IsWireError, OnReadFailed, OnAnswer, OnNoticeWritten, OnFailureReported, Settled;
    ErrorIsSettled(r, Connection);
    match e {
      case Read(ReadFailed(error)) => FailedReadIsSettled(r, error);
      case Answered(answer) => AnswerIsSettled(r, answer);
      case NoticeWritten(delivered) => if r.pc.WriteNotice? { NoticeIsSettled(r, delivered); }
      case FailureReported(c, d) => if r.pc.Report? { ReportIsSettled(r, r.pc.error, c, d); }
      case _ => RequestIsSettled(p, r, e);
    }
  }

  lemma RequestIsSettled(p: Policy, r: Receiver, e: Event)
    requires e.TrustSettled? || e.Announced? || e.DeadlinePassed? || e.ResultWritten?
    ensures Settled(r, Step(p, r, e))
  {
    hide FinishError;
  }

  lemma FailedReadIsSettled(r: Receiver, e: TransferError)
    ensures Settled(r, OnReadFailed(r, e))
  {
    hide Settled, Fail, DecisionFailed;
    ErrorIsSettled(r, e);
  }

  lemma ErrorIsSettled(r: Receiver, e: TransferError)
    ensures Settled(r, Fail(r, e)) && Settled(r, DecisionFailed(r, e)) && Settled(r, r)
    ensures Settled(r, r.(pc := Ended(NoTransfer(e))))
  {
    hide FinishError;
  }

  lemma AnswerIsSettled(r: Receiver, answer: Answer)
    ensures Settled(r, OnAnswer(r, answer))
  {
    hide FinishError;
  }

  lemma NoticeIsSettled(r: Receiver, delivered: bool)
    requires r.pc.WriteNotice?
    ensures Settled(r, OnNoticeWritten(r, r.pc.notice, r.pc.after, delivered))
  {
    hide FinishError;
  }

  lemma ReportIsSettled(r: Receiver, e: TransferError, c: bool, d: bool)
    ensures Settled(r, OnFailureReported(r, e, c, d))
  {
    hide FinishError;
  }

  /** The steps in the folder, apart from the chunks that are counted. */
  predicate InFolder(e: Event)
  {
    e.ForeignFiles? || e.CancelRequested? || e.ShutdownRequested? || e.FolderChecked? || e.NameChosen? ||
    e.NamesExhausted? || e.StageCreated? || e.Flushed? || e.FileFinalized? || e.FinalizeFailed? || e.CleanedUp? ||
    e.RolledBack?
  }

  lemma MovesAreSettled(p: Policy, r: Receiver, e: Event)
    requires e.FileFinalized? || e.FinalizeFailed? || e.CleanedUp? || e.RolledBack?
    ensures Settled(r, Step(p, r, e))
  {
    hide FinishError, Without, Temporaries, NameSet, AllowedTarget, Target, IsFileError;
  }

  lemma OutsideIsSettled(p: Policy, r: Receiver, e: Event)
    requires e.ForeignFiles? || e.CancelRequested? || e.ShutdownRequested?
    ensures Settled(r, Step(p, r, e))
  {
    hide Settled, OnForeignFiles;
    TokensAreSettled(r, if e.ForeignFiles? then e.added else map[]);
    ErrorIsSettled(r, Destination);
  }

  lemma FolderIsSettled(p: Policy, r: Receiver, e: Event)
    requires InFolder(e)
    ensures Settled(r, Step(p, r, e))
  {
    if e.FileFinalized? || e.FinalizeFailed? || e.CleanedUp? || e.RolledBack? {
      hide Step;
      MovesAreSettled(p, r, e);
    } else if e.ForeignFiles? || e.CancelRequested? || e.ShutdownRequested? {
      hide Step;
      OutsideIsSettled(p, r, e);
    } else {
      hide Settled, OnFolderChecked, OnNameChosen, OnStageCreated, OnFlushed, Fail, IsFileError, IsFlushError;
      ErrorIsSettled(r, Destination);
      match e {
        case FolderChecked(available) => ChosenIsSettled(p, r, 0, available);
        case NameChosen(index) => ChosenIsSettled(p, r, index, true);
        case StageCreated(failure) =>
          if r.pc.CreateStage? && |r.got| < |r.files| { StageIsSettled(r, r.pc.path, failure); }
        case Flushed(failure) => if r.pc.Flush? && |r.got| < |r.files| { FlushIsSettled(p, r, failure); }
        case _ =>
      }
    }
  }

  lemma TokensAreSettled(r: Receiver, added: map<string, Bytes>)
    ensures Settled(r, OnForeignFiles(r, added))
    ensures Settled(r, r.(cancelled := true)) && Settled(r, r.(shutdown := true))
  {
    hide Temporaries, FinishError;
  }

  lemma ChosenIsSettled(p: Policy, r: Receiver, index: nat, available: bool)
    ensures |r.got| < |r.files| ==> Settled(r, OnNameChosen(p, r, index))
    ensures Settled(r, OnFolderChecked(r, available))
  {
    hide FinishError, CollisionNames.Candidate;
  }

  lemma StageIsSettled(r: Receiver, path: string, failure: Option<TransferError>)
    requires |r.got| < |r.files|
    ensures Settled(r, OnStageCreated(r, path, failure))
  {
    hide FinishError, StagingName;
  }

  lemma FlushIsSettled(p: Policy, r: Receiver, failure: Option<TransferError>)
    requires |r.got| < |r.files|
    ensures Settled(r, OnFlushed(p, r, failure))
  {
    hide FinishError, DigestMatches;
  }

  // ----- the steps that move the tracker ---------------------------------

  lemma DecisionKeepsShown(r: Receiver, ok: bool, delivered: bool)
    requires ShownInv(r) && r.pc.WriteDecision?
    ensures ShownInv(OnDecisionWritten(r, r.pc.verdict, ok, delivered))
  {
    TransitionFollows(r.tracker, Phase.Accepted);
    TransitionFollows(Transition(r.tracker, Phase.Accepted), Transferring);
    TransitionFollows(r.tracker, Rejected);
    FinishErrorFollows(r.tracker, Connection);
    hide Transition, FinishError;
  }

  lemma AdmissionKeepsShown(p: Policy, r: Receiver, admitted: bool)
    requires Safety.Inv(p, r) && ShownInv(r) && r.pc.AwaitAdmission?
    ensures ShownInv(OnAdmission(r, admitted))
  {
    hide Safety.Shape, Safety.Places, Safety.CountInv, Safety.LogInv, Safety.SentInv;
  }

  lemma ProgressShows(t: Tracker, bytes: nat, clock: Clock, force: bool)
    requires t.now.transferred <= bytes <= t.now.total
    ensures var u := Progress(t, bytes, clock, force);
            && t.now.transferred <= u.now.transferred <= bytes && u.now.total == t.now.total
            && u.now.phase == t.now.phase
            && (Current(t) ==> Current(u))
            && (force || !t.reported || !clock.withinInterval ==> u.now.transferred == bytes)
  {
  }

  lemma ChunkKeepsShown(p: Policy, r: Receiver, written: nat, failure: Option<TransferError>, clock: Clock)
    requires Safety.Inv(p, r) && ShownInv(r) && r.pc.WriteChunk? && r.staged != []
    ensures ShownInv(OnChunkWritten(r, r.pc.data, written, failure, clock))
  {
    hide Progress, Appended, CancelledBy, Safety.Inv;
    ChunkFits(p, r);
    ProgressShows(r.tracker, r.transferred + |r.pc.data|, clock, false);
  }

  lemma ChunkFits(p: Policy, r: Receiver)
    requires Safety.Inv(p, r) && r.pc.WriteChunk?
    ensures r.transferred + |r.pc.data| <= r.total == r.tracker.now.total
    ensures r.tracker.now.phase == Transferring
  {
    hide DigestMatches, ValidTransferId, ValidFile, Safety.Places, Safety.LogInv, Safety.SentInv, Sound;
    Safety.RoomLeft(p, r);
  }

  lemma CountedKeepsShown(p: Policy, r: Receiver, clock: Clock)
    requires Safety.Inv(p, r) && ShownInv(r) && r.pc.CountAll?
    ensures ShownInv(OnCounted(r, clock))
  {
    hide Progress, Safety.Inv;
    AllCounted(p, r);
    ProgressShows(r.tracker, r.total, clock, true);
  }

  lemma AllCounted(p: Policy, r: Receiver)
    requires Safety.Inv(p, r) && r.pc.CountAll?
    ensures r.transferred == r.total == r.tracker.now.total
  {
    Theorems.Conservation(p, r);
    hide Safety.Shape, Safety.Places, Safety.CountInv, Safety.LogInv, Safety.SentInv, Sound;
  }

  lemma CheckKeepsShown(p: Policy, r: Receiver)
    requires Safety.Inv(p, r) && ShownInv(r)
    ensures ShownInv(OnCheckPoint(p, r))
  {
    hide Transition, FinalKeys, Safety.Shape, Safety.Places, Safety.CountInv, Safety.LogInv, Safety.SentInv, Sound;
    TransitionFollows(r.tracker, Verifying);
    TransitionFollows(r.tracker, Completing);
  }

  lemma SettledResultKeepsShown(p: Policy, r: Receiver)
    requires Safety.Inv(p, r) && ShownInv(r) && r.pc.SettleResult?
    ensures ShownInv(OnResultSettled(r))
  {
    hide Transition, Safety.Shape, Safety.Places, Safety.CountInv, Safety.LogInv, Safety.SentInv, Sound;
    TransitionFollows(r.tracker, Phase.Completed);
  }

  lemma StepKeepsShown(p: Policy, r: Receiver, e: Event)
    requires Safety.Inv(p, r) && ShownInv(r)
    ensures ShownInv(Step(p, r, e))
  {
    hide Safety.Inv, ShownInv, Uncounted, Settled, OnForeignFiles, OnGot, OnReadFailed, OnAnswer, OnDecisionWritten,
      OnNoticeWritten, OnFolderChecked, OnNameChosen, OnStageCreated, OnChunkWritten, OnFlushed, OnCounted,
      OnCheckPoint, OnFileFinalized, OnFinalizeFailed, OnCleanedUp, OnRolledBack, OnFailureReported, IsWireError,
      IsFlushError, IsFileError;
    if Talking(e) {
      TalkingIsSettled(p, r, e);
    } else if InFolder(e) {
      FolderIsSettled(p, r, e);
    } else {
      match e {
        case Read(Got(f)) =>
          if r.pc.AwaitRequest? {
            FirstFrameKeepsShown(p, r, f);
          } else {
            GotIsSettled(r, f);
            SettledKeepsShown(r, OnGot(r, f));
          }
        case Admission(admitted) => if r.pc.AwaitAdmission? { AdmissionKeepsShown(p, r, admitted); }
        case DecisionWritten(ok, delivered) => if r.pc.WriteDecision? { DecisionKeepsShown(r, ok, delivered); }
        case ChunkWritten(written, failure, clock) =>
          if r.pc.WriteChunk? && r.staged != [] { ChunkKeepsShown(p, r, written, failure, clock); }
        case Counted(clock) => if r.pc.CountAll? { CountedKeepsShown(p, r, clock); }
        case CheckPoint => CheckKeepsShown(p, r);
        case ResultSettled => if r.pc.SettleResult? { SettledResultKeepsShown(p, r); }
      }
    }
    if Talking(e) || InFolder(e) {
      SettledKeepsShown(r, Step(p, r, e));
    }
  }

  lemma SettledKeepsShown(r: Receiver, s: Receiver)
    requires ShownInv(r) && Settled(r, s)
    ensures ShownInv(s)
  {
    SettledIsUncounted(r, s);
    UncountedKeepsShown(r, s);
  }

  lemma {:induction false} RunKeepsShown(p: Policy, present: map<string, Bytes>, events: seq<Event>)
    ensures ShownInv(Run(p, Initial(present), events)) && Safety.Inv(p, Run(p, Initial(present), events))
  {
    hide Safety.Inv, ShownInv, Step;
    Theorems.ReachableInvariant(p, present, events);
    if events == [] {
      InitialShown(present);
    } else {
      RunKeepsShown(p, present, events[..|events| - 1]);
      StepKeepsShown(p, Run(p, Initial(present), events[..|events| - 1]), events[|events| - 1]);
    }
  }

  lemma InitialShown(present: map<string, Bytes>)
    ensures ShownInv(Initial(present))
  {
  }

  // ----- what is shown ---------------------------------------------------

  /** No snapshot of any run shows more bytes than were counted, and a completed one shows the whole batch. */
  lemma NeverShowsMore(p: Policy, present: map<string, Bytes>, events: seq<Event>)
    ensures var r := Run(p, Initial(present), events);
            && (forall i :: 0 <= i < |r.tracker.emitted| ==> r.tracker.emitted[i].transferred <= r.transferred)
            && (r.pc == Ended(Succeeded) ==>
                  && r.tracker.emitted != []
                  && var last := r.tracker.emitted[|r.tracker.emitted| - 1];
                     last.phase == Phase.Completed && last.transferred == last.total == r.total)
  {
    hide Run, Initial, Safety.Inv, ShownInv;
    RunKeepsShown(p, present, events);
    ShownSoFar(p, Run(p, Initial(present), events));
  }

  lemma ShownSoFar(p: Policy, r: Receiver)
    requires Safety.Inv(p, r) && ShownInv(r)
    ensures forall i :: 0 <= i < |r.tracker.emitted| ==> r.tracker.emitted[i].transferred <= r.transferred
    ensures r.pc == Ended(Succeeded) ==>
              && r.tracker.emitted != []
              && var last := r.tracker.emitted[|r.tracker.emitted| - 1];
                 last.phase == Phase.Completed && last.transferred == last.total == r.total
  {
    hide Safety.Shape, Safety.Places, Safety.CountInv, Safety.LogInv, Safety.SentInv;
    assert Sound(r.tracker);
  }

  /**
   A chunk on the disk is shown at once, unless a report was made within the interval: one more
   snapshot with exactly the bytes that arrived, and the least time the rest needs at the measured speed.
   */
  lemma ChunkIsShown(p: Policy, present: map<string, Bytes>, events: seq<Event>, clock: Clock)
    requires var r := Run(p, Initial(present), events);
             r.pc.WriteChunk? && (!clock.withinInterval || !r.tracker.reported)
    ensures var r := Run(p, Initial(present), events);
            var s := Step(p, r, ChunkWritten(|r.pc.data|, None, clock));
            && s.transferred == r.transferred + |r.pc.data|
            && |s.tracker.emitted| == |r.tracker.emitted| + 1 && r.tracker.emitted <= s.tracker.emitted
            && var last := s.tracker.emitted[|r.tracker.emitted|];
               && last.transferred == s.transferred <= last.total == r.total
               && last.phase == Transferring && last.speed == clock.speed
               && IsEta(last.eta, last.total - last.transferred, clock.speed)
  {
    hide Run, Initial, Safety.Inv, ShownInv;
    RunKeepsShown(p, present, events);
    ReportOfChunk(p, Run(p, Initial(present), events), clock);
  }

  lemma ReportOfChunk(p: Policy, r: Receiver, clock: Clock)
    requires Safety.Inv(p, r) && ShownInv(r) && r.pc.WriteChunk? && (!clock.withinInterval || !r.tracker.reported)
    ensures var s := Step(p, r, ChunkWritten(|r.pc.data|, None, clock));
            && s.transferred == r.transferred + |r.pc.data|
            && |s.tracker.emitted| == |r.tracker.emitted| + 1 && r.tracker.emitted <= s.tracker.emitted
            && var last := s.tracker.emitted[|r.tracker.emitted|];
               && last.transferred == s.transferred <= last.total == r.total
               && last.phase == Transferring && last.speed == clock.speed
               && IsEta(last.eta, last.total - last.transferred, clock.speed)
  {
    hide Safety.Inv, IsEta, Eta, Appended, CancelledBy;
    ChunkFits(p, r);
    FileIsStaged(p, r);
    EtaIsLeast(r.total, r.transferred + |r.pc.data|, clock.speed);
  }

  lemma FileIsStaged(p: Policy, r: Receiver)
    requires Safety.Inv(p, r) && r.pc.WriteChunk?
    ensures r.staged != [] && r.total < U64_LIMIT
  {
    hide Safety.Places, Safety.Books, ValidTransferId, ValidFile;
  }
}

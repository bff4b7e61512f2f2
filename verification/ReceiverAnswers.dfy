/**
 What a receiver says: at every point of every run its frames are exactly those the program has
 written there, and it accepts only what the recipient agreed to.
 */
module ReceiverAnswers {
  import opened Wrappers
  import opened Wire
  import opened Lifecycle
  import opened Receiver
  import opened CollisionNames

  function Acceptance(id: string): Frame { Control(TransferDecision(id, true, None)) }

  function Refusal(id: string, reason: Reason): Frame { Control(TransferDecision(id, false, Some(reason))) }

  /** A frame that may have been lost. */
  predicate Perhaps(sent: seq<Frame>, f: Frame) { sent == [] || sent == [f] }

  /** After the acceptance an error is reported at best by a cancellation and a failed result. */
  predicate Reported(sent: seq<Frame>, id: string, e: TransferError)
  {
    var result := Control(TransferResult(id, false, Some(ErrorText(e))));
    || sent == [Acceptance(id)]
    || sent == [Acceptance(id), result]
    || (e == TransferError.Canceled && sent == [Acceptance(id), Control(Cancel(id))])
    || (e == TransferError.Canceled && sent == [Acceptance(id), Control(Cancel(id)), result])
  }

  /** A verdict that was lost on the way, or a message given instead of one. */
  predicate Unaccepted(sent: seq<Frame>, id: string, e: TransferError)
  {
    || sent == []
    || (e == TransferError.Canceled && sent == [Refusal(id, CancelledText)])
    || (e == AppUnavailable && sent == [Control(ProtocolError)])
    || (e == Connection && (sent == [Refusal(id, DeclinedText)] || sent == [Refusal(id, ExpiredText)]))
  }

  /** No frame was written so far. */
  predicate Silent(pc: Pc)
  {
    pc.AwaitRequest? || pc.AwaitTrust? || pc.AwaitAdmission? || pc.AwaitAnnouncement? || pc.AwaitDecision? ||
    pc.WriteDecision? || pc.WriteNotice?
  }

  /** The notices: an answer to no request, to a second transfer, to a closed window, to a cancellation. */
  predicate NoticeFits(id: string, notice: Message, after: Outcome)
  {
    match after
    case NoTransfer(e) => notice == ProtocolError && e == InvalidPeerResponse(ExpectedRequest)
    case Busy => Control(notice) == Refusal(id, BusyText)
    case Aborted(e) =>
      || (e == TransferError.Canceled && Control(notice) == Refusal(id, CancelledText))
      || (e == AppUnavailable && notice == ProtocolError)
    case _ => false
  }

  /** What was sent at the end of a run. */
  predicate SentAtEnd(sent: seq<Frame>, id: string, outcome: Outcome)
  {
    match outcome
    case NoTransfer(e) => sent == [] || (e == InvalidPeerResponse(ExpectedRequest) && sent == [Control(ProtocolError)])
    case Busy => Perhaps(sent, Refusal(id, BusyText))
    case Declined => sent == [Refusal(id, DeclinedText)] || sent == [Refusal(id, ExpiredText)]
    case Succeeded =>
      sent == [Acceptance(id)] || sent == [Acceptance(id), Control(TransferResult(id, true, None))]
    case Aborted(e) => Unaccepted(sent, id, e) || Reported(sent, id, e)
  }

  /** What was sent, by the point the program has reached. */
  predicate SentInv(r: Receiver)
  {
    match r.pc
    case Ended(outcome) => SentAtEnd(r.sent, r.id, outcome)
    case SettleResult => SentAtEnd(r.sent, r.id, Succeeded)
    case WriteNotice(notice, after) => r.sent == [] && NoticeFits(r.id, notice, after)
    case WriteDecision(Decline(reason)) => r.sent == [] && (reason == DeclinedText || reason == ExpiredText)
    case _ => if Silent(r.pc) then r.sent == [] else r.sent == [Acceptance(r.id)]
  }

  // ----- every step ------------------------------------------------------

  /** Points between the acceptance and the result: nothing is said there. */
  predicate Working(pc: Pc) { !Silent(pc) && !pc.SettleResult? && !pc.Ended? }

  lemma QuietKeepsSent(r: Receiver, s: Receiver)
    requires SentInv(r) && s.sent == r.sent && s.id == r.id
    requires s.pc == r.pc || (Working(r.pc) && Working(s.pc))
    ensures SentInv(s)
  {
    hide SentAtEnd, NoticeFits;
  }

  lemma FileStartWorks(r: Receiver, f: Frame)
    requires Working(r.pc)
    ensures Working(OnFileStart(r, f).pc)
  {
  }

  lemma StreamFrameWorks(r: Receiver, f: Frame)
    requires Working(r.pc) && |r.got| < |r.files|
    ensures Working(OnStreamFrame(r, f).pc)
  {
  }

  lemma CompleteWorks(r: Receiver, f: Frame)
    requires Working(r.pc)
    ensures Working(OnComplete(r, f).pc)
  {
  }

  lemma FrameWhileWorking(r: Receiver, f: Frame)
    requires Working(r.pc)
    ensures Working(OnGot(r, f).pc)
  {
    hide Working, OnFileStart, OnStreamFrame, OnComplete, OnFirstFrame, OnFrameWhileDeciding;
    EarlyIsNotWorking(r.pc);
    var logged := r.(log := r.log + [f]);
    FileStartWorks(logged, f);
    CompleteWorks(logged, f);
    if |r.got| < |r.files| {
      StreamFrameWorks(logged, f);
    }
  }

  lemma EarlyIsNotWorking(pc: Pc)
    requires Working(pc)
    ensures !pc.AwaitRequest? && !pc.AwaitDecision?
  {
  }

  lemma GotKeepsSent(r: Receiver, f: Frame)
    requires SentInv(r)
    ensures SentInv(OnGot(r, f))
  {
    hide ValidRequest, FinishError, OnFileStart, OnStreamFrame, OnComplete;
    if Working(r.pc) {
      FrameWhileWorking(r, f);
      QuietKeepsSent(r, OnGot(r, f));
    }
  }

  lemma NothingSaidYet(r: Receiver, e: TransferError)
    ensures SentInv(r) && (r.pc.AwaitRequest? || r.pc.AwaitDecision?) ==> r.sent == []
    ensures SentAtEnd([], r.id, NoTransfer(e)) && SentAtEnd([], r.id, Aborted(e))
  {
  }

  lemma UndecidedKeepsSent(r: Receiver, e: TransferError)
    requires r.sent == []
    ensures SentInv(DecisionFailed(r, e))
  {
    hide FinishError;
  }

  lemma ReadFailedKeepsSent(r: Receiver, e: TransferError)
    requires SentInv(r)
    ensures SentInv(OnReadFailed(r, e))
  {
    hide FinishError, DecisionFailed, SentAtEnd, NoticeFits;
    NothingSaidYet(r, e);
    if r.pc.AwaitDecision? {
      UndecidedKeepsSent(r, e);
    }
  }

  lemma AnsweredKeepsSent(r: Receiver, answer: Answer)
    requires SentInv(r) && r.pc.AwaitDecision?
    ensures SentInv(OnAnswer(r, answer))
  {
    hide FinishError;
  }

  lemma DecisionKeepsSent(r: Receiver, ok: bool, delivered: bool)
    requires SentInv(r) && r.pc.WriteDecision?
    ensures SentInv(OnDecisionWritten(r, r.pc.verdict, ok, delivered))
  {
    hide FinishError, Transition;
  }

  lemma NoticeKeepsSent(r: Receiver, delivered: bool)
    requires SentInv(r) && r.pc.WriteNotice?
    ensures SentInv(OnNoticeWritten(r, r.pc.notice, r.pc.after, delivered))
  {
    hide FinishError;
  }

  lemma ReportKeepsSent(r: Receiver, e: TransferError, c: bool, d: bool)
    requires SentInv(r) && r.pc == Report(e)
    ensures SentInv(OnFailureReported(r, e, c, d))
  {
    hide FinishError, Unaccepted;
  }

  lemma FlushKeepsSent(p: Policy, r: Receiver, failure: Option<TransferError>)
    requires SentInv(r) && r.pc.Flush? && |r.got| < |r.files|
    ensures SentInv(OnFlushed(p, r, failure))
  {
    hide DigestMatches;
  }

  /** Either nothing moved, or the program is at work before and after. */
  predicate AtWork(r: Receiver, s: Receiver) { Mute(r, s) && (s.pc == r.pc || (Working(r.pc) && Working(s.pc))) }

  lemma WorkIsMute(r: Receiver, s: Receiver)
    requires AtWork(r, s)
    ensures s.sent == r.sent && s.id == r.id && (s.pc == r.pc || (Working(r.pc) && Working(s.pc)))
  {
  }

  lemma NamesAtWork(p: Policy, r: Receiver, index: nat, available: bool)
    requires Working(r.pc)
    ensures |r.got| < |r.files| ==> AtWork(r, OnNameChosen(p, r, index))
    ensures AtWork(r, OnFolderChecked(r, available)) && AtWork(r, Fail(r, Destination))
  {
    hide Candidate;
  }

  lemma StageAtWork(r: Receiver, path: string, failure: Option<TransferError>)
    requires Working(r.pc) && |r.got| < |r.files|
    ensures AtWork(r, OnStageCreated(r, path, failure))
  {
    hide StagingName;
  }

  lemma ChunkAtWork(r: Receiver, data: Bytes, written: nat, failure: Option<TransferError>, clock: Clock)
    requires Working(r.pc) && r.staged != []
    ensures AtWork(r, OnChunkWritten(r, data, written, failure, clock))
  {
    hide Progress, Appended, CancelledBy;
  }

  lemma CheckAtWork(p: Policy, r: Receiver, clock: Clock)
    ensures AtWork(r, OnCheckPoint(p, r))
    ensures Working(r.pc) ==> AtWork(r, OnCounted(r, clock))
  {
    hide Progress, Transition, FinalKeys;
  }

  lemma FinalizeAtWork(p: Policy, r: Receiver, variant: Option<nat>, reserved: set<string>, e: TransferError,
                       copy: Option<string>)
    requires Working(r.pc) && |r.finalized| < |r.staged|
    ensures AtWork(r, OnFileFinalized(p, r, variant, reserved)) && AtWork(r, OnFinalizeFailed(r, e, copy))
  {
    hide Without, Target, AllowedTarget;
  }

  lemma UndoAtWork(r: Receiver, e: TransferError, kept: set<string>)
    requires Working(r.pc)
    ensures AtWork(r, OnCleanedUp(r, e, kept)) && AtWork(r, OnRolledBack(r, e, kept))
  {
    hide Temporaries, NameSet, Without;
  }

  /** The events that only concern the folder, the tokens and the checks. */
  predicate Workaday(e: Event)
  {
    e.ForeignFiles? || e.CancelRequested? || e.ShutdownRequested? || e.FolderChecked? || e.NameChosen? ||
    e.NamesExhausted? || e.StageCreated? || e.ChunkWritten? || e.Counted? || e.CheckPoint? || e.FileFinalized? ||
    e.FinalizeFailed? || e.CleanedUp? || e.RolledBack?
  }

  lemma ForeignAtWork(r: Receiver, added: map<string, Bytes>)
    ensures AtWork(r, OnForeignFiles(r, added))
    ensures AtWork(r, r) && AtWork(r, r.(cancelled := true)) && AtWork(r, r.(shutdown := true))
  {
    hide Temporaries;
  }

  lemma PointsAtWork(pc: Pc)
    requires pc.CheckFolder? || pc.ChooseName? || pc.CreateStage? || pc.WriteChunk? || pc.CountAll? || pc.Finalize? ||
             pc.CleanUp? || pc.RollBack?
    ensures Working(pc)
  {
  }

  lemma MovingStep(p: Policy, r: Receiver, e: Event)
    requires e.Counted? || e.CheckPoint? || e.FileFinalized? || e.FinalizeFailed? || e.CleanedUp? || e.RolledBack?
    ensures AtWork(r, Step(p, r, e))
  {
    hide AtWork, Working, OnCounted, OnCheckPoint, OnFileFinalized, OnFinalizeFailed, OnCleanedUp, OnRolledBack,
      IsFileError;
    ForeignAtWork(r, map[]);
    if r.pc.CountAll? || r.pc.Finalize? || r.pc.CleanUp? || r.pc.RollBack? {
      PointsAtWork(r.pc);
    }
    match e {
      case Counted(clock) => CheckAtWork(p, r, clock);
      case CheckPoint => CheckAtWork(p, r, Clock(false, 0));
      case FileFinalized(variant, reserved) =>
        if r.pc.Finalize? && |r.finalized| < |r.staged| { FinalizeAtWork(p, r, variant, reserved, Destination, None); }
      case FinalizeFailed(error, copy) =>
        if r.pc.Finalize? && |r.finalized| < |r.staged| { FinalizeAtWork(p, r, None, {}, error, copy); }
      case CleanedUp(kept) => if r.pc.CleanUp? { UndoAtWork(r, r.pc.error, kept); }
      case RolledBack(kept) => if r.pc.RollBack? { UndoAtWork(r, r.pc.error, kept); }
    }
  }

  lemma WorkStep(p: Policy, r: Receiver, e: Event)
    requires Workaday(e)
    ensures AtWork(r, Step(p, r, e))
  {
    if e.Counted? || e.CheckPoint? || e.FileFinalized? || e.FinalizeFailed? || e.CleanedUp? || e.RolledBack? {
      hide AtWork, Step;
      MovingStep(p, r, e);
    } else {
      hide AtWork, Working, OnForeignFiles, OnFolderChecked, OnNameChosen, OnStageCreated, OnChunkWritten, Fail,
        IsFileError;
      ForeignAtWork(r, if e.ForeignFiles? then e.added else map[]);
      if r.pc.CheckFolder? || r.pc.ChooseName? || r.pc.CreateStage? || r.pc.WriteChunk? {
        PointsAtWork(r.pc);
      }
      match e {
        case FolderChecked(available) => if r.pc.CheckFolder? { NamesAtWork(p, r, 0, available); }
        case NameChosen(index) => if r.pc.ChooseName? { NamesAtWork(p, r, index, true); }
        case NamesExhausted => if r.pc.ChooseName? { NamesAtWork(p, r, 0, true); }
        case StageCreated(failure) =>
          if r.pc.CreateStage? && |r.got| < |r.files| { StageAtWork(r, r.pc.path, failure); }
        case ChunkWritten(written, failure, clock) =>
          if r.pc.WriteChunk? && r.staged != [] { ChunkAtWork(r, r.pc.data, written, failure, clock); }
        case _ =>
      }
    }
  }

  lemma StepKeepsSent(p: Policy, r: Receiver, e: Event)
    requires SentInv(r)
    ensures SentInv(Step(p, r, e))
  {
    hide SentInv, AtWork, OnForeignFiles, OnGot, OnReadFailed, OnAnswer, OnDecisionWritten, OnNoticeWritten,
      OnFolderChecked, OnNameChosen, OnStageCreated, OnChunkWritten, OnFlushed, OnCounted, OnCheckPoint,
      OnFileFinalized,
      OnFinalizeFailed, OnCleanedUp, OnRolledBack, OnFailureReported, IsWireError, IsFlushError, IsFileError;
    match e {
      case Read(Got(f)) => GotKeepsSent(r, f);
      case Read(ReadFailed(error)) => ReadFailedKeepsSent(r, error);
      case TrustSettled(failure) => RequestKeepsSent(p, r, e);
      case Admission(admitted) => RequestKeepsSent(p, r, e);
      case Announced(ok) => RequestKeepsSent(p, r, e);
      case Answered(answer) => if r.pc.AwaitDecision? { AnsweredKeepsSent(r, answer); }
      case DeadlinePassed => RequestKeepsSent(p, r, e);
      case DecisionWritten(ok, delivered) => if r.pc.WriteDecision? { DecisionKeepsSent(r, ok, delivered); }
      case NoticeWritten(delivered) => if r.pc.WriteNotice? { NoticeKeepsSent(r, delivered); }
      case Flushed(failure) => if r.pc.Flush? && |r.got| < |r.files| { FlushKeepsSent(p, r, failure); }
      case ResultWritten(delivered) => RequestKeepsSent(p, r, e);
      case ResultSettled => RequestKeepsSent(p, r, e);
      case FailureReported(c, d) => if r.pc.Report? { ReportKeepsSent(r, r.pc.error, c, d); }
      case _ =>
        WorkStep(p, r, e);
        WorkIsMute(r, Step(p, r, e));
        QuietKeepsSent(r, Step(p, r, e));
    }
  }

  /** The steps around the request and around the result. */
  lemma RequestKeepsSent(p: Policy, r: Receiver, e: Event)
    requires SentInv(r)
    requires e.TrustSettled? || e.Admission? || e.Announced? || e.DeadlinePassed? ||
             e.ResultWritten? || e.ResultSettled?
    ensures SentInv(Step(p, r, e))
  {
    hide FinishError, Transition, Emit, Unaccepted, Reported;
  }

  lemma {:induction false} RunKeepsSent(p: Policy, present: map<string, Bytes>, events: seq<Event>)
    ensures SentInv(Run(p, Initial(present), events))
  {
    hide SentInv, Step;
    if events == [] {
      InitialSent(present);
    } else {
      RunKeepsSent(p, present, events[..|events| - 1]);
      StepKeepsSent(p, Run(p, Initial(present), events[..|events| - 1]), events[|events| - 1]);
    }
  }

  lemma InitialSent(present: map<string, Bytes>)
    ensures SentInv(Initial(present))
  {
  }

  // ----- who decides -----------------------------------------------------

  /** The recipient's word counts: the request is pending and no token is set. */
  predicate Decides(r: Receiver, e: Event, answer: Answer)
  {
    e == Answered(answer) && r.pc.AwaitDecision? && !r.cancelled && !r.shutdown
  }

  /** At some moment of the run the recipient gave this answer and it counted. */
  predicate Decided(p: Policy, present: map<string, Bytes>, events: seq<Event>, answer: Answer)
  {
    && events != []
    && var before, e := events[..|events| - 1], events[|events| - 1];
       Decided(p, present, before, answer) || Decides(Run(p, Initial(present), before), e, answer)
  }

  /** At some moment of the run the time to decide was over. */
  predicate Expired(p: Policy, present: map<string, Bytes>, events: seq<Event>)
  {
    && events != []
    && var before, e := events[..|events| - 1], events[|events| - 1];
       Expired(p, present, before) || (e.DeadlinePassed? && Run(p, Initial(present), before).pc.AwaitDecision?)
  }

  /** What must have happened for the program to be where it is and to have said what it has. */
  predicate Justified(r: Receiver, yes: bool, no: bool, expired: bool)
  {
    && (r.pc == WriteDecision(Accept) || Working(r.pc) || r.pc.SettleResult? || r.pc == Ended(Succeeded) ==> yes)
    && (Acceptance(r.id) in r.sent ==> yes)
    && (r.pc == WriteDecision(Decline(DeclinedText)) || Refusal(r.id, DeclinedText) in r.sent ==> no)
    && (r.pc == WriteDecision(Decline(ExpiredText)) || Refusal(r.id, ExpiredText) in r.sent ==> expired)
  }

  /** A step that says nothing and does not come closer to an acceptance. */
  lemma JustifiedQuietly(r: Receiver, s: Receiver, yes: bool, no: bool, expired: bool)
    requires SentInv(r) && Justified(r, yes, no, expired) && s.sent == r.sent && (s.id == r.id || r.sent == [])
    requires s.pc == r.pc || (Working(r.pc) && (Working(s.pc) || s.pc.Ended?)) || s.pc.WriteNotice? ||
             (s.pc.Ended? && s.pc != Ended(Succeeded)) || (s.pc.Ended? && r.pc.SettleResult?) ||
             s.pc.AwaitTrust? || s.pc.AwaitAdmission? || s.pc.AwaitAnnouncement? || s.pc.AwaitDecision?
    ensures Justified(s, yes, no, expired)
  {
    hide SentInv;
  }

  lemma AnswerJustified(r: Receiver, answer: Answer, yes: bool, no: bool, expired: bool)
    requires SentInv(r) && Justified(r, yes, no, expired) && r.pc.AwaitDecision?
    ensures Justified(OnAnswer(r, answer), yes || Decides(r, Answered(answer), Yes),
                      no || Decides(r, Answered(answer), No), expired)
  {
    hide FinishError;
  }

  lemma WrittenJustified(r: Receiver, ok: bool, delivered: bool, yes: bool, no: bool, expired: bool)
    requires SentInv(r) && Justified(r, yes, no, expired) && r.pc.WriteDecision?
    ensures Justified(OnDecisionWritten(r, r.pc.verdict, ok, delivered), yes, no, expired)
  {
    hide FinishError, Transition, SentAtEnd;
  }

  lemma NoticeJustified(r: Receiver, delivered: bool, yes: bool, no: bool, expired: bool)
    requires SentInv(r) && Justified(r, yes, no, expired) && r.pc.WriteNotice?
    ensures Justified(OnNoticeWritten(r, r.pc.notice, r.pc.after, delivered), yes, no, expired)
  {
    hide FinishError, SentAtEnd;
  }

  /** After the acceptance only results and cancellations are said. */
  lemma ReportJustified(r: Receiver, e: TransferError, c: bool, d: bool, yes: bool, no: bool, expired: bool)
    requires SentInv(r) && Justified(r, yes, no, expired) && r.pc == Report(e)
    ensures Justified(OnFailureReported(r, e, c, d), yes, no, expired)
  {
    hide FinishError, SentAtEnd, NoticeFits;
  }

  lemma ResultJustified(r: Receiver, delivered: bool, yes: bool, no: bool, expired: bool)
    requires SentInv(r) && Justified(r, yes, no, expired)
    ensures r.pc.WriteResult? ==> Justified(OnResultWritten(r, delivered), yes, no, expired)
    ensures r.pc.SettleResult? ==> Justified(OnResultSettled(r), yes, no, expired)
  {
    hide Transition, SentAtEnd, NoticeFits;
  }

  lemma RequestJustified(p: Policy, r: Receiver, e: Event, yes: bool, no: bool, expired: bool)
    requires SentInv(r) && Justified(r, yes, no, expired)
    requires e.TrustSettled? || e.Admission? || e.Announced? || e.DeadlinePassed?
    ensures Justified(Step(p, r, e), yes, no, expired || (e.DeadlinePassed? && r.pc.AwaitDecision?))
  {
    if e.DeadlinePassed? {
      hide SentAtEnd, NoticeFits;
    } else {
      hide FinishError, Emit, SentInv, Justified, Working;
      JustifiedQuietly(r, Step(p, r, e), yes, no, expired);
    }
  }

  lemma GotJustified(r: Receiver, f: Frame, yes: bool, no: bool, expired: bool)
    requires SentInv(r) && Justified(r, yes, no, expired)
    ensures Justified(OnGot(r, f), yes, no, expired)
  {
    hide ValidRequest, FinishError, OnFileStart, OnStreamFrame, OnComplete, SentAtEnd, NoticeFits, Justified;
    if Working(r.pc) {
      FrameWhileWorking(r, f);
    }
    JustifiedQuietly(r, OnGot(r, f), yes, no, expired);
  }

  lemma ReadFailedJustified(r: Receiver, e: TransferError, yes: bool, no: bool, expired: bool)
    requires SentInv(r) && Justified(r, yes, no, expired)
    ensures Justified(OnReadFailed(r, e), yes, no, expired)
  {
    hide SentInv, Justified, DecisionFailed, Working;
    ReadFailedEnds(r, e);
    JustifiedQuietly(r, OnReadFailed(r, e), yes, no, expired);
  }

  lemma ReadFailedEnds(r: Receiver, e: TransferError)
    ensures var s := OnReadFailed(r, e);
            s.pc == r.pc || (Working(r.pc) && Working(s.pc)) || s.pc.WriteNotice? ||
            (s.pc.Ended? && s.pc != Ended(Succeeded))
  {
    hide FinishError;
  }

  lemma FlushJustified(p: Policy, r: Receiver, failure: Option<TransferError>, yes: bool, no: bool, expired: bool)
    requires SentInv(r) && Justified(r, yes, no, expired) && r.pc.Flush? && |r.got| < |r.files|
    ensures Justified(OnFlushed(p, r, failure), yes, no, expired)
  {
    hide DigestMatches, SentAtEnd, NoticeFits, Justified;
    JustifiedQuietly(r, OnFlushed(p, r, failure), yes, no, expired);
  }

  lemma StepJustified(p: Policy, r: Receiver, e: Event, yes: bool, no: bool, expired: bool)
    requires SentInv(r) && Justified(r, yes, no, expired)
    ensures Justified(Step(p, r, e), yes || Decides(r, e, Yes), no || Decides(r, e, No),
                      expired || (e.DeadlinePassed? && r.pc.AwaitDecision?))
  {
    hide SentInv, Justified, Working, AtWork, OnForeignFiles, OnGot, OnReadFailed, OnAnswer, OnDecisionWritten,
      OnNoticeWritten, OnFolderChecked, OnNameChosen, OnStageCreated, OnChunkWritten, OnFlushed, OnCounted,
      OnCheckPoint,
      OnFileFinalized, OnFinalizeFailed, OnCleanedUp, OnRolledBack, OnFailureReported, OnTrust, OnAdmission,
      OnAnnounced, OnResultWritten, OnResultSettled, IsWireError, IsFlushError, IsFileError;
    match e {
      case Read(Got(f)) => GotJustified(r, f, yes, no, expired);
      case Read(ReadFailed(error)) => ReadFailedJustified(r, error, yes, no, expired);
      case TrustSettled(_) => RequestJustified(p, r, e, yes, no, expired);
      case Admission(_) => RequestJustified(p, r, e, yes, no, expired);
      case Announced(_) => RequestJustified(p, r, e, yes, no, expired);
      case DeadlinePassed => RequestJustified(p, r, e, yes, no, expired);
      case Answered(answer) => if r.pc.AwaitDecision? { AnswerJustified(r, answer, yes, no, expired); }
      case DecisionWritten(ok, delivered) =>
        if r.pc.WriteDecision? { WrittenJustified(r, ok, delivered, yes, no, expired); }
      case NoticeWritten(delivered) => if r.pc.WriteNotice? { NoticeJustified(r, delivered, yes, no, expired); }
      case Flushed(failure) =>
        if r.pc.Flush? && |r.got| < |r.files| { FlushJustified(p, r, failure, yes, no, expired); }
      case ResultWritten(delivered) => ResultJustified(r, delivered, yes, no, expired);
      case ResultSettled => ResultJustified(r, false, yes, no, expired);
      case FailureReported(c, d) => if r.pc.Report? { ReportJustified(r, r.pc.error, c, d, yes, no, expired); }
      case _ =>
        WorkStep(p, r, e);
        WorkIsMute(r, Step(p, r, e));
        JustifiedQuietly(r, Step(p, r, e), yes, no, expired);
    }
  }

  lemma {:induction false} RunJustified(p: Policy, present: map<string, Bytes>, events: seq<Event>)
    ensures Justified(Run(p, Initial(present), events), Decided(p, present, events, Yes),
                      Decided(p, present, events, No), Expired(p, present, events))
  {
    hide SentInv, Justified, Step, Decides;
    if events == [] {
      NothingToJustify(present);
    } else {
      var before, e := events[..|events| - 1], events[|events| - 1];
      RunJustified(p, present, before);
      RunKeepsSent(p, present, before);
      StepJustified(p, Run(p, Initial(present), before), e, Decided(p, present, before, Yes),
                    Decided(p, present, before, No), Expired(p, present, before));
    }
  }

  lemma NothingToJustify(present: map<string, Bytes>)
    ensures Justified(Initial(present), false, false, false)
  {
  }

  // ----- what it means ---------------------------------------------------

  predicate IsDecision(f: Frame) { f.Control? && f.message.TransferDecision? }

  /** How many decisions are among the frames. */
  function Decisions(sent: seq<Frame>): nat
  {
    if sent == [] then 0
    else Decisions(sent[..|sent| - 1]) +
         if IsDecision(sent[|sent| - 1]) then 1 else 0
  }

  lemma {:induction false} OneDecision(sent: seq<Frame>)
    requires forall k :: 1 <= k < |sent| ==> !IsDecision(sent[k])
    ensures Decisions(sent) <= 1 && (|sent| > 1 ==> Decisions(sent) == Decisions(sent[..1]))
  {
    if |sent| > 1 {
      OneDecision(sent[..|sent| - 1]);
      assert sent[..|sent| - 1][..1] == sent[..1];
    } else if |sent| == 1 {
      assert sent[..0] == [];
    }
  }

  lemma FirstIsDecision(r: Receiver)
    requires SentInv(r)
    ensures Decisions(r.sent) <= 1
    ensures forall f :: f in r.sent && IsDecision(f) ==>
              f == r.sent[0] && f.message.id == r.id && (f.message.accepted ==> f == Acceptance(r.id))
  {
    hide Decisions;
    assert forall k :: 1 <= k < |r.sent| ==> !IsDecision(r.sent[k]);
    OneDecision(r.sent);
  }

  /**
   In every run at most one decision is sent, under the own id and as the first frame; an
   acceptance only after the recipient said yes while waiting with no token set.
   */
  lemma AcceptedOnlyByRecipient(p: Policy, present: map<string, Bytes>, events: seq<Event>)
    ensures var r := Run(p, Initial(present), events);
            && Decisions(r.sent) <= 1
            && (forall f :: f in r.sent && IsDecision(f) ==>
                  f == r.sent[0] && f.message.id == r.id &&
                  (f.message.accepted ==> Decided(p, present, events, Yes)))
  {
    hide Run, Decided, Expired, SentInv, Decisions;
    RunKeepsSent(p, present, events);
    RunJustified(p, present, events);
    FirstIsDecision(Run(p, Initial(present), events));
  }

  /** A run that ends declined has sent one refusal, for the reason of its verdict, and nothing else. */
  lemma DeclinedMeansRefused(p: Policy, present: map<string, Bytes>, events: seq<Event>)
    requires Run(p, Initial(present), events).pc == Ended(Declined)
    ensures var r := Run(p, Initial(present), events);
            || (r.sent == [Refusal(r.id, DeclinedText)] && Decided(p, present, events, No))
            || (r.sent == [Refusal(r.id, ExpiredText)] && Expired(p, present, events))
  {
    hide Run, Decided, Expired;
    RunKeepsSent(p, present, events);
    RunJustified(p, present, events);
  }
}

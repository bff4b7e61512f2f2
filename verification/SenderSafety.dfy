/** What every step of the sender keeps. */
module SenderSafety {
  import opened Wrappers
  import opened Wire
  import opened Lifecycle
  import opened Sender
  import opened Transcript

  // ----- the invariant ---------------------------------------------------

  predicate BeforeRequest(pc: Pc)
  {
    pc.PrepareFiles? || pc.CheckBeforeConnect? || pc.Connect? || pc.Trust? || pc.WriteRequest?
  }

  predicate AtFrame(pc: Pc) { pc.Ready? || pc.Writing? }

  predicate InSource(pc: Pc) { pc.OpenSource? || pc.CheckBeforeRead? || pc.ReadSource? }

  predicate AfterAcceptance(pc: Pc)
  {
    AtFrame(pc) || InSource(pc) || pc.AwaitResult? || pc.Withdraw? || EndedWell(pc)
  }

  predicate EndedAborted(pc: Pc) { pc.Ended? && pc.outcome.Aborted? }

  predicate EndedWell(pc: Pc) { pc.Ended? && pc.outcome.Succeeded? }

  /** The last frame of the batch. */
  predicate IsComplete(f: Frame) { f.Control? && f.message.Complete? }

  /** The frame about to be written is the one the protocol asks for next. */
  predicate NextFrame(s: Sender, f: Frame)
  {
    match f
    case Data(bytes) => bytes != [] && |s.streamed| < |s.files|
    case Control(FileStart(id, index)) => id == s.id && index == |s.streamed| < |s.files|
    case Control(FileEnd(id, index)) => id == s.id && index == |s.streamed| < |s.files|
    case Control(Complete(id)) => id == s.id && |s.streamed| == |s.files|
    case Control(_) => false
  }

  /** What the sent frames spell while `f` is still to be written. */
  function SpeltBefore(s: Sender, f: Frame): Parsed
  {
    Parsed(s.streamed, if f.Data? || f.message.FileEnd? then Some(s.current) else None, false)
  }

  predicate PhaseFits(pc: Pc, phase: Phase)
  {
    match pc
    case PrepareFiles => phase == Preparing
    case AwaitDecision => phase == WaitingForAcceptance
    case Ready(f) => phase == if IsComplete(f) then Verifying else Transferring
    case Writing(f) => phase == if IsComplete(f) then Verifying else Transferring
    case OpenSource => phase == Transferring
    case CheckBeforeRead => phase == Transferring
    case ReadSource => phase == Transferring
    case AwaitResult => phase == Completing
    case Withdraw(_) => !IsTerminal(phase)
    case Ended(Succeeded) => phase == Phase.Completed
    case Ended(TurnedDown) => phase == Rejected || phase == CanceledPhase
    case Ended(Aborted(e)) => phase == ErrorPhase(e)
    case _ => phase == Requesting
  }

  ghost predicate TrackInv(s: Sender)
  {
    && Sound(s.tracker) && s.tracker.emitted != [] && PhaseFits(s.pc, s.tracker.now.phase)
    && (s.pc.PrepareFiles? ==> s.tracker.now.transferred == 0)
  }

  ghost predicate RequestInv(s: Sender)
  {
    && (!s.pc.PrepareFiles? && !EndedAborted(s.pc) ==> ValidRequest(s.id, s.files, s.total))
    && (BeforeRequest(s.pc) ==> s.sent == [] && s.streamed == [])
    && (s.pc.AwaitDecision? || AfterAcceptance(s.pc) ==> s.sent != [])
    && (s.sent != [] ==>
          s.sent[0].Control? && s.sent[0].message.TransferRequest? && s.sent[0].message.id == s.id &&
          s.sent[0].message.files == s.files && s.sent[0].message.total == s.total)
  }

  /** The sent frames spell exactly what was read from the sources. */
  ghost predicate SpellInv(s: Sender)
  {
    && (s.pc.AwaitDecision? ==> s.streamed == [] && Parse(s.sent) == Parsed([], None, false))
    && (s.pc.Ready? ==> NextFrame(s, s.pc.frame) && Parse(s.sent) == SpeltBefore(s, s.pc.frame))
    && (s.pc.Writing? ==> NextFrame(s, s.pc.frame) && Parse(s.sent) == SpeltBefore(s, s.pc.frame))
    && (s.pc.OpenSource? ==> |s.streamed| < |s.files| && Parse(s.sent) == Parsed(s.streamed, Some([]), false))
    && (s.pc.CheckBeforeRead? || s.pc.ReadSource? ==>
          |s.streamed| < |s.files| && Parse(s.sent) == Parsed(s.streamed, Some(s.current), false))
    && (s.pc.AwaitResult? || EndedWell(s.pc) ==>
          |s.streamed| == |s.files| && Parse(s.sent) == Parsed(s.streamed, None, true))
  }

  ghost predicate HeardSuccess(log: seq<Frame>, id: string)
  {
    exists k :: 0 <= k < |log| && log[k].Control? && IsSuccess(log[k].message) && log[k].message.id == id
  }

  /** A success the sender acts on was heard from the receiver. */
  ghost predicate HeardInv(s: Sender)
  {
    && (forall id :: s.monitor == Holding(RemoteResult(id, true)) ==> HeardSuccess(s.log, id))
    && (EndedWell(s.pc) ==> HeardSuccess(s.log, s.id))
  }

  ghost predicate Inv(s: Sender) { TrackInv(s) && RequestInv(s) && SpellInv(s) && HeardInv(s) }

  // ----- ending ----------------------------------------------------------

  /** What an error path needs of the state it leaves. */
  ghost predicate FailReady(s: Sender)
  {
    && Sound(s.tracker) && s.tracker.emitted != [] && !IsTerminal(s.tracker.now.phase)
    && (s.sent != [] ==>
          s.sent[0].Control? && s.sent[0].message.TransferRequest? && s.sent[0].message.id == s.id &&
          s.sent[0].message.files == s.files && s.sent[0].message.total == s.total)
    && (forall id :: s.monitor == Holding(RemoteResult(id, true)) ==> HeardSuccess(s.log, id))
  }

  lemma CanFail(s: Sender)
    requires Inv(s) && !s.pc.Ended?
    ensures FailReady(s)
    ensures !BeforeRequest(s.pc) ==> s.sent != [] && ValidRequest(s.id, s.files, s.total)
  {
    hide ValidRequest, Sound, Parse, HeardSuccess, SpellInv;
  }

  lemma FailKeeps(s: Sender, e: TransferError)
    requires FailReady(s)
    ensures Inv(Fail(s, e))
  {
    FinishErrorSound(s.tracker, e);
    assert FinishError(s.tracker, e).emitted != [];
    hide ValidRequest, Sound, Parse, HeardSuccess, FinishError;
  }

  lemma GiveUpKeeps(s: Sender, e: TransferError)
    requires FailReady(s) && s.sent != [] && ValidRequest(s.id, s.files, s.total)
    ensures Inv(GiveUp(s, e))
  {
    hide ValidRequest, Sound, Parse, HeardSuccess;
  }

  lemma ErrorKeeps(s: Sender, e: TransferError)
    requires Inv(s) && !s.pc.Ended?
    ensures Inv(Fail(s, e))
    ensures !BeforeRequest(s.pc) ==> Inv(GiveUp(s, e))
  {
    hide FailReady, Inv, ValidRequest;
    CanFail(s);
    FailKeeps(s, e);
    if !BeforeRequest(s.pc) {
      GiveUpKeeps(s, e);
    }
  }

  /** A frame that may or may not have arrived does not disturb an error path. */
  lemma SentCanFail(s: Sender, f: Frame, delivered: bool)
    requires FailReady(s)
    requires s.sent == [] ==>
               f.Control? && f.message.TransferRequest? && f.message.id == s.id && f.message.files == s.files
               && f.message.total == s.total
    ensures FailReady(Sent(s, f, delivered))
  {
    hide Sound;
  }

  lemma LoggedCanFail(s: Sender, f: Frame)
    requires FailReady(s)
    ensures FailReady(s.(log := s.log + [f]))
  {
    hide Sound;
    forall id | s.monitor == Holding(RemoteResult(id, true)) ensures HeardSuccess(s.log + [f], id) {
      HeardMore(s.log, f, id);
    }
    hide HeardSuccess;
  }

  lemma HeardMore(log: seq<Frame>, f: Frame, id: string)
    requires HeardSuccess(log, id)
    ensures HeardSuccess(log + [f], id)
  {
    var k :| 0 <= k < |log| && log[k].Control? && IsSuccess(log[k].message) && log[k].message.id == id;
    assert (log + [f])[k] == log[k];
  }

  // ----- preparation and request ----------------------------------------

  lemma PreparedKeeps(s: Sender, files: seq<TransferFile>)
    requires Inv(s) && s.pc.PrepareFiles?
    ensures Inv(OnPrepared(s, files))
  {
    hide ValidRequest, Parse, HeardSuccess;
    if files == [] || TotalSize(files) >= U64_LIMIT || !ValidRequest(s.id, files, TotalSize(files)) {
      ErrorKeeps(s, Prepare);
      ErrorKeeps(s, Protocol);
    } else {
      var total := TotalSize(files);
      assert Sound(SetTotal(s.tracker, total));
      TransitionSound(SetTotal(s.tracker, total), Requesting);
      assert Transition(SetTotal(s.tracker, total), Requesting).emitted != [];
      hide Sound, Transition;
    }
  }

  /** Moves between points of the same phase that send and stream nothing. */
  lemma QuietKeeps(s: Sender, pc: Pc)
    requires Inv(s)
    requires (s.pc.CheckBeforeConnect? && pc.Connect?) || (s.pc.Connect? && pc.Trust?) ||
             (s.pc.Trust? && pc.WriteRequest?) || (s.pc.CheckBeforeRead? && pc.ReadSource?) ||
             (s.pc.Ready? && pc == Writing(s.pc.frame))
    ensures Inv(s.(pc := pc))
  {
    hide ValidRequest, Sound, Parse, HeardSuccess;
  }

  lemma RequestWrittenKeeps(s: Sender, failure: Option<TransferError>, delivered: bool)
    requires Inv(s) && s.pc.WriteRequest? && s.total < U64_LIMIT
    ensures Inv(OnRequestWritten(s, failure, delivered))
  {
    hide ValidRequest, HeardSuccess;
    var f := Control(TransferRequest(s.id, s.files, s.total));
    if failure.Some? {
      CanFail(s);
      SentCanFail(s, f, delivered);
      hide FailReady, Inv;
      FailKeeps(Sent(s, f, delivered), failure.value);
    } else {
      assert s.sent + [f] == [f];
      assert Parse([]) == Parsed([], None, false);
      ParseAppend([], f);
      TransitionSound(s.tracker, WaitingForAcceptance);
      assert Transition(s.tracker, WaitingForAcceptance).emitted != [];
      hide Sound, Transition, Parse;
    }
  }

  lemma SomeFileAsked(s: Sender)
    requires Inv(s) && s.pc.AwaitDecision?
    ensures |s.files| > 0
  {
    hide ValidTransferId, ValidFile, TrackInv, SpellInv, HeardInv;
  }

  lemma AcceptedKeeps(s: Sender, f: Frame)
    requires Inv(s) && s.pc.AwaitDecision?
    ensures Inv(s.(log := s.log + [f], pc := Ready(Control(FileStart(s.id, 0))), monitor := Watching,
                   tracker := Transition(Transition(s.tracker, Phase.Accepted), Transferring)))
  {
    hide ValidRequest, Sound, Parse, HeardSuccess, Transition;
    AcceptedSound(s.tracker);
    SomeFileAsked(s);
  }

  lemma TurnedDownKeeps(s: Sender, f: Frame, phase: Phase)
    requires Inv(s) && s.pc.AwaitDecision? && (phase == CanceledPhase || phase == Rejected)
    ensures Inv(s.(log := s.log + [f], pc := Ended(TurnedDown), tracker := Transition(s.tracker, phase)))
  {
    hide ValidRequest, Parse;
    TransitionSound(s.tracker, phase);
    assert Transition(s.tracker, phase).emitted != [];
    forall id | s.monitor == Holding(RemoteResult(id, true)) ensures HeardSuccess(s.log + [f], id) {
      HeardMore(s.log, f, id);
    }
    hide ValidRequest, Sound, Parse, HeardSuccess, Transition;
  }

  lemma DecisionKeeps(s: Sender, f: Frame)
    requires Inv(s) && s.pc.AwaitDecision?
    ensures Inv(OnDecision(s.(log := s.log + [f]), f))
  {
    hide Inv, FailReady, Transition;
    CanFail(s);
    LoggedCanFail(s, f);
    var logged := s.(log := s.log + [f]);
    FailKeeps(logged, InvalidPeerResponse(DecisionIdMismatch));
    FailKeeps(logged, RemoteFailure);
    FailKeeps(logged, InvalidPeerResponse(ExpectedDecision));
    FailKeeps(logged, InvalidPeerResponse(ExpectedControl));
    AcceptedKeeps(s, f);
    TurnedDownKeeps(s, f, CanceledPhase);
    TurnedDownKeeps(s, f, Rejected);
    hide Fail;
  }

  // ----- the monitor -----------------------------------------------------

  lemma MonitorHeardKeeps(s: Sender, f: Frame)
    requires Inv(s) && s.monitor.Watching? && !s.pc.Ended?
    ensures Inv(s.(log := s.log + [f], monitor := Holding(SignalOf(s.id, f))))
  {
    hide ValidRequest, Sound, Parse;
    var log := s.log + [f];
    forall id | SignalOf(s.id, f) == RemoteResult(id, true) ensures HeardSuccess(log, id) {
      assert log[|s.log|] == f;
    }
    hide HeardSuccess, SignalOf;
  }

  lemma MonitorKeeps(s: Sender, monitor: Monitor)
    requires Inv(s) && !s.pc.Ended?
    requires monitor == Gone || (monitor.Holding? && monitor.signal.RemoteFailed?)
    ensures Inv(s.(monitor := monitor))
  {
    hide ValidRequest, Sound, Parse, HeardSuccess;
  }

  lemma ReadKeeps(s: Sender, outcome: ReadOutcome)
    requires Inv(s)
    ensures Inv(OnRead(s, outcome))
  {
    hide Inv, SignalOf, OnDecision;
    match outcome {
      case Got(f) =>
        if s.pc.AwaitDecision? {
          DecisionKeeps(s, f);
        } else if s.monitor.Watching? && !s.pc.Ended? {
          MonitorHeardKeeps(s, f);
        }
      case ReadFailed(e) =>
        if s.pc.AwaitDecision? {
          ErrorKeeps(s, e);
        } else if s.monitor.Watching? && !s.pc.Ended? {
          MonitorKeeps(s, Holding(RemoteFailed(e)));
        }
    }
  }

  // ----- streaming -------------------------------------------------------

  lemma ReadyKeeps(s: Sender)
    requires Inv(s) && s.pc.Ready?
    ensures Inv(OnReady(s, s.pc.frame))
  {
    hide Inv, GiveUp, SignalError;
    if CancelledBy(s).Some? {
      ErrorKeeps(s, CancelledBy(s).value);
    } else if SignalError(s.monitor).Some? {
      ErrorKeeps(s, SignalError(s.monitor).value);
    } else {
      QuietKeeps(s, Writing(s.pc.frame));
    }
  }

  lemma SentSpells(s: Sender, f: Frame)
    requires s.sent != []
    ensures Parse(s.sent + [f]) == ParseFrame(Parse(s.sent), f)
    ensures (s.sent + [f])[0] == s.sent[0]
  {
    ParseAppend(s.sent, f);
  }

  lemma FileStartWrittenKeeps(s: Sender, clock: Clock)
    requires Inv(s) && s.pc.Writing? && s.pc.frame.Control? && s.pc.frame.message.FileStart?
    ensures Inv(AfterWrite(Sent(s, s.pc.frame, true), s.pc.frame, clock))
  {
    hide ValidRequest, Sound, HeardSuccess;
    SentSpells(s, s.pc.frame);
    hide Parse;
  }

  lemma DataWrittenKeeps(s: Sender, clock: Clock)
    requires Inv(s) && s.pc.Writing? && s.pc.frame.Data?
    requires s.transferred + |s.pc.frame.bytes| < U64_LIMIT
    ensures Inv(AfterWrite(Sent(s, s.pc.frame, true), s.pc.frame, clock))
  {
    hide ValidRequest, HeardSuccess, Parse, Sound, Progress;
    var bytes := s.transferred + |s.pc.frame.bytes|;
    SentSpells(s, s.pc.frame);
    var t := AfterWrite(Sent(s, s.pc.frame, true), s.pc.frame, clock);
    assert TrackInv(t) by {
      hide RequestInv, SpellInv, HeardInv, ParseFrame;
      ProgressSound(s.tracker, bytes, clock, false);
      ProgressEmits(s.tracker, bytes, clock, false);
    }
    hide TrackInv;
  }

  lemma FileEndWrittenKeeps(s: Sender, clock: Clock)
    requires Inv(s) && s.pc.Writing? && s.pc.frame.Control? && s.pc.frame.message.FileEnd?
    ensures Inv(AfterWrite(Sent(s, s.pc.frame, true), s.pc.frame, clock))
  {
    hide ValidRequest, HeardSuccess, Parse, Sound, Progress, Transition;
    SentSpells(s, s.pc.frame);
    var t := AfterWrite(Sent(s, s.pc.frame, true), s.pc.frame, clock);
    assert TrackInv(t) by {
      hide RequestInv, SpellInv, HeardInv, ParseFrame;
      BatchDoneSound(s.tracker, s.total, clock);
    }
    if |s.streamed| + 1 < |s.files| {
      hide TrackInv;
    } else {
      hide TrackInv;
    }
  }

  lemma BatchDoneSound(t: Tracker, total: nat, clock: Clock)
    requires Sound(t) && t.emitted != []
    ensures t.now.phase == Transferring ==>
              var u := Transition(Progress(t, total, clock, true), Verifying);
              Sound(u) && u.now.phase == Verifying && u.emitted != []
    ensures t.now.phase == Completing ==>
              var u := Transition(Progress(t, total, clock, true), Phase.Completed);
              Sound(u) && u.now.phase == Phase.Completed && u.emitted != []
  {
    if t.now.phase == Transferring {
      ProgressSound(t, total, clock, true);
      TransitionSound(Progress(t, total, clock, true), Verifying);
    } else if t.now.phase == Completing {
      ProgressSound(t, total, clock, true);
      TransitionSound(Progress(t, total, clock, true), Phase.Completed);
    }
    hide Sound;
  }

  lemma CompleteWrittenKeeps(s: Sender, clock: Clock)
    requires Inv(s) && s.pc.Writing? && s.pc.frame.Control? && s.pc.frame.message.Complete?
    ensures Inv(AfterWrite(Sent(s, s.pc.frame, true), s.pc.frame, clock))
  {
    hide ValidRequest, HeardSuccess;
    SentSpells(s, s.pc.frame);
    TransitionSound(s.tracker, Completing);
    assert Transition(s.tracker, Completing).emitted != [];
    hide Parse, Sound, Transition;
  }

  lemma SentNonEmpty(s: Sender)
    requires Inv(s) && AtFrame(s.pc)
    ensures s.sent != [] && NextFrame(s, s.pc.frame) && ValidRequest(s.id, s.files, s.total)
  {
    hide ValidRequest, TrackInv, HeardInv;
  }

  lemma WriteLostKeeps(s: Sender, e: TransferError, delivered: bool)
    requires Inv(s) && s.pc.Writing?
    ensures Inv(GiveUp(Sent(s, s.pc.frame, delivered), e))
  {
    hide Inv, FailReady, ValidRequest, NextFrame;
    SentNonEmpty(s);
    CanFail(s);
    SentCanFail(s, s.pc.frame, delivered);
    GiveUpKeeps(Sent(s, s.pc.frame, delivered), e);
  }

  lemma WrittenKeeps(s: Sender, failure: Option<TransferError>, delivered: bool, clock: Clock)
    requires Inv(s) && s.pc.Writing?
    ensures Inv(OnWritten(s, s.pc.frame, failure, delivered, clock))
  {
    hide Inv, ValidRequest;
    if failure.Some? {
      hide AfterWrite;
      WriteLostKeeps(s, failure.value, delivered);
    } else {
      SentNonEmpty(s);
      var f := s.pc.frame;
      match f {
        case Data(bytes) =>
          if s.transferred + |bytes| >= U64_LIMIT {
            WriteLostKeeps(s, Prepare, true);
          } else {
            hide AfterWrite;
            DataWrittenKeeps(s, clock);
          }
        case Control(FileStart(_, _)) => hide AfterWrite; FileStartWrittenKeeps(s, clock);
        case Control(FileEnd(_, _)) => hide AfterWrite; FileEndWrittenKeeps(s, clock);
        case Control(Complete(_)) => hide AfterWrite; CompleteWrittenKeeps(s, clock);
        case Control(_) =>
      }
    }
  }

  lemma SourceOpenedKeeps(s: Sender)
    requires Inv(s) && s.pc.OpenSource?
    ensures Inv(s.(pc := CheckBeforeRead, current := []))
  {
    hide ValidRequest, Sound, Parse, HeardSuccess;
  }

  lemma ChunkReadKeeps(s: Sender, data: Bytes)
    requires Inv(s) && s.pc.ReadSource?
    ensures Inv(OnChunkRead(s, data))
  {
    hide ValidRequest, Sound, Parse, HeardSuccess;
    if data == [] {
    } else {
    }
  }

  // ----- the result ------------------------------------------------------

  lemma ResultHeardKeeps(s: Sender, clock: Clock)
    requires Inv(s) && s.pc.AwaitResult? && s.monitor == Holding(RemoteResult(s.id, true))
    ensures Inv(s.(pc := Ended(Succeeded),
                   tracker := Transition(Progress(s.tracker, s.total, clock, true), Phase.Completed)))
  {
    hide ValidRequest, Parse, HeardSuccess;
    BatchDoneSound(s.tracker, s.total, clock);
    hide Sound, Progress, Transition;
  }

  lemma SignalKeeps(s: Sender, clock: Clock)
    requires Inv(s)
    ensures Inv(OnSignal(s, clock))
  {
    hide Inv, GiveUp, Progress, Transition;
    if s.pc.AwaitResult? || s.pc.ReadSource? {
      ErrorKeeps(s, InvalidPeerResponse(ResultIdMismatch));
      ErrorKeeps(s, RemoteFailure);
      ErrorKeeps(s, RemoteCanceled);
      ErrorKeeps(s, Connection);
      if s.monitor.Holding? && s.monitor.signal.RemoteFailed? {
        ErrorKeeps(s, s.monitor.signal.error);
      }
      if s.pc.AwaitResult? {
        if s.monitor == Holding(RemoteResult(s.id, true)) {
          ResultHeardKeeps(s, clock);
        }
      } else if SignalError(s.monitor).Some? {
        ErrorKeeps(s, SignalError(s.monitor).value);
      }
    }
  }

  lemma CheckPointKeeps(s: Sender)
    requires Inv(s)
    ensures Inv(OnCheckPoint(s))
  {
    hide Inv, GiveUp, Fail, OnReady;
    match s.pc {
      case CheckBeforeConnect =>
        ErrorKeeps(s, ShuttingDown);
        ErrorKeeps(s, TransferError.Canceled);
        QuietKeeps(s, Connect);
      case CheckBeforeRead =>
        ErrorKeeps(s, ShuttingDown);
        ErrorKeeps(s, TransferError.Canceled);
        QuietKeeps(s, ReadSource);
      case Ready(f) => ReadyKeeps(s);
      case _ =>
    }
  }

  lemma WithdrawnKeeps(s: Sender, delivered: bool)
    requires Inv(s) && s.pc.Withdraw?
    ensures Inv(OnWithdrawn(s, s.pc.error, delivered))
  {
    hide Inv, FailReady, Fail;
    CanFail(s);
    var tell := s.pc.error == TransferError.Canceled && delivered;
    if tell {
      SentCanFail(s, Control(Cancel(s.id)), true);
    }
    FailKeeps(Sent(s, Control(Cancel(s.id)), tell), s.pc.error);
  }

  // ----- every step, every run ------------------------------------------

  lemma StepKeepsInvariant(s: Sender, e: Event)
    requires Inv(s)
    ensures Inv(Step(s, e))
  {
    hide Inv, OnPrepared, OnConnected, OnTrust, OnRequestWritten, OnRead, OnWritten, OnChunkRead, OnSignal,
      OnCheckPoint, OnWithdrawn, Fail, GiveUp, IsWireError;
    match e {
      case CancelRequested => FlagsKeep(s, true, s.shutdown);
      case ShutdownRequested => FlagsKeep(s, s.cancelled, true);
      case Prepared(files) => if s.pc.PrepareFiles? { PreparedKeeps(s, files); }
      case PrepareFailed(error) => if s.pc.PrepareFiles? { ErrorKeeps(s, error); }
      case CheckPoint => CheckPointKeeps(s);
      case Connected(failure) => if s.pc.Connect? { ConnectedKeeps(s, failure); }
      case TrustSettled(failure) => if s.pc.Trust? { TrustKeeps(s, failure); }
      case RequestWritten(failure, delivered) =>
        if s.pc.WriteRequest? && s.total < U64_LIMIT { RequestWrittenKeeps(s, failure, delivered); }
      case Read(outcome) => ReadKeeps(s, outcome);
      case Written(failure, delivered, clock) =>
        if s.pc.Writing? { WrittenKeeps(s, failure, delivered, clock); }
      case SourceOpened(ok) =>
        if s.pc.OpenSource? {
          SourceOpenedKeeps(s);
          ErrorKeeps(s, FileRead);
        }
      case ChunkRead(data) => if s.pc.ReadSource? { ChunkReadKeeps(s, data); }
      case SourceFailed(error) => if s.pc.ReadSource? { ErrorKeeps(s, error); }
      case SignalSeen(clock) => SignalKeeps(s, clock);
      case WaitFailed(error) => if s.pc.AwaitResult? { ErrorKeeps(s, error); }
      case MonitorStopped => if s.monitor.Watching? && s.shutdown { MonitorStoppedKeeps(s); }
      case Withdrawn(delivered) => if s.pc.Withdraw? { WithdrawnKeeps(s, delivered); }
    }
  }

  lemma FlagsKeep(s: Sender, cancelled: bool, shutdown: bool)
    requires Inv(s)
    ensures Inv(s.(cancelled := cancelled, shutdown := shutdown))
  {
    hide ValidRequest, Sound, Parse, HeardSuccess;
    var t := s.(cancelled := cancelled, shutdown := shutdown);
    assert TrackInv(t) by { hide RequestInv, SpellInv, HeardInv; }
    assert RequestInv(t) by { hide TrackInv, SpellInv, HeardInv; }
    assert SpellInv(t) by { hide TrackInv, RequestInv, HeardInv; }
    hide TrackInv, RequestInv, SpellInv;
  }

  lemma MonitorStoppedKeeps(s: Sender)
    requires Inv(s) && s.monitor.Watching?
    ensures Inv(s.(monitor := Gone))
  {
    hide ValidRequest, Sound, Parse, HeardSuccess;
    var t := s.(monitor := Gone);
    assert TrackInv(t) by { hide RequestInv, SpellInv, HeardInv; }
    assert RequestInv(t) by { hide TrackInv, SpellInv, HeardInv; }
    assert SpellInv(t) by { hide TrackInv, RequestInv, HeardInv; }
    hide TrackInv, RequestInv, SpellInv;
  }

  lemma ConnectedKeeps(s: Sender, failure: Option<TransferError>)
    requires Inv(s) && s.pc.Connect?
    ensures Inv(OnConnected(s, failure))
  {
    hide Inv, Fail;
    if failure.Some? {
      ErrorKeeps(s, failure.value);
    } else {
      QuietKeeps(s, Trust);
    }
  }

  lemma TrustKeeps(s: Sender, failure: Option<TransferError>)
    requires Inv(s) && s.pc.Trust?
    ensures Inv(OnTrust(s, failure))
  {
    hide Inv, Fail;
    if failure.Some? {
      ErrorKeeps(s, failure.value);
    } else {
      QuietKeeps(s, WriteRequest);
    }
  }

  lemma InitialInvariant(id: string)
    ensures Inv(Initial(id))
  {
    hide ValidRequest, Parse;
  }

  /** Every state of every run satisfies the invariant. */
  lemma {:induction false} RunKeepsInvariant(start: Sender, events: seq<Event>)
    requires Inv(start)
    ensures Inv(Run(start, events))
  {
    hide Inv, Step;
    if events != [] {
      RunKeepsInvariant(start, events[..|events| - 1]);
      StepKeepsInvariant(Run(start, events[..|events| - 1]), events[|events| - 1]);
    }
  }

  // ----- what the interface sees ----------------------------------------

  /** Every outgoing run shows one terminal snapshot, last; nothing it asks for is refused. */
  lemma SnapshotsAreOrderly(id: string, events: seq<Event>)
    ensures var s := Run(Initial(id), events);
            && !s.tracker.refused && GoodHistory(s.tracker.emitted)
            && (if s.pc.Ended? then EndsOnce(s.tracker.emitted)
                else forall i :: 0 <= i < |s.tracker.emitted| ==> !IsTerminal(s.tracker.emitted[i].phase))
  {
    hide Run, Initial;
    InitialInvariant(id);
    RunKeepsInvariant(Initial(id), events);
    SnapshotsOf(Run(Initial(id), events));
  }

  /** The phase the interface is left with; a refusal for a cancellation shows as one. */
  predicate ShowsEnd(outcome: Outcome, phase: Phase)
  {
    match outcome
    case Succeeded => phase == Phase.Completed
    case TurnedDown => phase == Rejected || phase == CanceledPhase
    case Aborted(e) => phase == ErrorShown(e)
  }

  /** Every ended transfer leaves the phase of its outcome. */
  lemma EndIsShown(id: string, events: seq<Event>)
    requires Run(Initial(id), events).pc.Ended?
    ensures var s := Run(Initial(id), events);
            && s.tracker.emitted != []
            && ShowsEnd(s.pc.outcome, s.tracker.emitted[|s.tracker.emitted| - 1].phase)
  {
    hide Run, Initial;
    InitialInvariant(id);
    RunKeepsInvariant(Initial(id), events);
    EndPhase(Run(Initial(id), events));
  }

  lemma EndPhase(s: Sender)
    requires Inv(s) && s.pc.Ended?
    ensures s.tracker.emitted != [] && ShowsEnd(s.pc.outcome, s.tracker.emitted[|s.tracker.emitted| - 1].phase)
  {
    hide RequestInv, SpellInv, HeardInv, GoodHistory;
  }

  lemma SnapshotsOf(s: Sender)
    requires Inv(s)
    ensures !s.tracker.refused && GoodHistory(s.tracker.emitted)
    ensures if s.pc.Ended? then EndsOnce(s.tracker.emitted)
            else forall i :: 0 <= i < |s.tracker.emitted| ==> !IsTerminal(s.tracker.emitted[i].phase)
  {
    hide RequestInv, SpellInv, HeardInv, EndsOnce, GoodHistory;
    if IsTerminal(s.tracker.now.phase) {
      SoundEndsOnce(s.tracker);
    }
  }
}

/**
 The receiving side of one connection as a step machine: from the first control frame,
 over staging and verification of the files, to finalization or roll-back.
 A step is what runs between two suspension points of the source; the event names the
 outcome of the suspended operation. An event that is not possible in a state changes nothing.
 */
module Receiver {
  import opened Wrappers
  import opened Wire
  import opened Lifecycle
  import opened CollisionNames
  import Text

  /** The platform's path key and the file digest; nothing is assumed of either. */
  datatype Policy = Policy(key: string -> string, digest: Bytes -> string)

  /**
   The receive folder by name. `foreign` is the history of what was there before the run or
   was created by other processes since; the engine never reads it.
   */
  datatype Folder = Folder(files: map<string, Bytes>, foreign: map<string, Bytes>)

  datatype Staged = Staged(name: string, temporary: string, finalPath: string)

  datatype Outcome =
    | NoTransfer(reason: TransferError)   // ended before a transfer was admitted
    | Busy
    | Declined
    | Succeeded
    | Aborted(error: TransferError)

  datatype Verdict = Accept | Decline(reason: Reason)

  datatype Pc =
    | AwaitRequest
    | AwaitTrust
    | AwaitAdmission
    | AwaitAnnouncement
    | AwaitDecision
    | WriteDecision(verdict: Verdict)
    | WriteNotice(notice: Message, after: Outcome)   // best-effort last message
    | CheckFolder
    | AwaitFile
    | ChooseName
    | CreateStage(path: string)
    | Stream
    | WriteChunk(data: Bytes)
    | Flush
    | AwaitComplete
    | CountAll
    | AllReceived
    | BeginFinalize
    | Finalize
    | ConfirmAll
    | ConfirmLast
    | WriteResult
    | SettleResult
    | CleanUp(error: TransferError)
    | RollBack(error: TransferError)
    | Report(error: TransferError)
    | Ended(outcome: Outcome)

  datatype Receiver = Receiver(
    pc: Pc,
    id: string, files: seq<TransferFile>, total: nat,
    tracker: Tracker,
    staged: seq<Staged>, used: set<string>,
    received: nat, hashed: Bytes, transferred: nat,
    got: seq<Bytes>,                 // contents of the files verified so far
    finalized: seq<string>,
    folder: Folder,
    leftover: bool,                  // the removal of a file failed
    cancelled: bool, shutdown: bool,
    log: seq<Frame>, sent: seq<Frame>)

  datatype Answer = Yes | No | Dropped

  datatype Event =
    | ForeignFiles(added: map<string, Bytes>)
    | CancelRequested
    | ShutdownRequested
    | Read(outcome: ReadOutcome)
    | TrustSettled(failure: Option<TransferError>)
    | Admission(admitted: bool)
    | Announced(ok: bool)
    | Answered(answer: Answer)
    | DeadlinePassed
    | DecisionWritten(ok: bool, delivered: bool)
    | NoticeWritten(delivered: bool)
    | FolderChecked(available: bool)
    | NameChosen(index: nat)
    | NamesExhausted
    | StageCreated(failure: Option<TransferError>)
    | ChunkWritten(written: nat, failure: Option<TransferError>, clock: Clock)
    | Flushed(failure: Option<TransferError>)
    | Counted(clock: Clock)
    | CheckPoint
    | FileFinalized(variant: Option<nat>, reserved: set<string>)
    | FinalizeFailed(error: TransferError, copy: Option<string>)
    | ResultWritten(delivered: bool)
    | ResultSettled
    | CleanedUp(kept: set<string>)
    | RolledBack(kept: set<string>)
    | FailureReported(cancelDelivered: bool, resultDelivered: bool)

  // ----- small readings of the state ------------------------------------

  function StagingName(id: string, index: nat): string
  {
    ".dead-drop-" + (if ValidTransferId(id) then id else "invalid") + "-" + Text.Decimal(index) + ".part"
  }

  function Temporaries(staged: seq<Staged>): set<string>
  {
    set i | 0 <= i < |staged| :: staged[i].temporary
  }

  function NameSet(names: seq<string>): set<string>
  {
    set i | 0 <= i < |names| :: names[i]
  }

  function FinalKeys(p: Policy, staged: seq<Staged>): set<string>
  {
    set i | 0 <= i < |staged| :: p.key(staged[i].finalPath)
  }

  function Appended(files: map<string, Bytes>, name: string, data: Bytes): map<string, Bytes>
  {
    files[name := (if name in files then files[name] else []) + data]
  }

  function Without(files: map<string, Bytes>, names: set<string>): map<string, Bytes>
  {
    files - names
  }

  /** A cancellation seen through a token can only come from a token that was set. */
  predicate CanObserve(r: Receiver, e: TransferError)
  {
    (e == TransferError.Canceled ==> r.cancelled) && (e == ShuttingDown ==> r.shutdown)
  }

  /** What a file operation can fail with (`destination_error`). */
  predicate IsFileError(e: TransferError) { e == Destination || e == DiskFull }

  predicate IsFlushError(r: Receiver, e: TransferError)
  {
    IsFileError(e) || e == Timeout || (CanObserve(r, e) && (e == TransferError.Canceled || e == ShuttingDown))
  }

  /** The transfer has an identity and a cancellation token. */
  predicate Admitted(r: Receiver)
  {
    !(r.pc.AwaitRequest? || r.pc.AwaitTrust? || r.pc.AwaitAdmission? || r.pc.Ended?)
  }

  /** Nothing happened to the folder. */
  predicate SameFolder(r: Receiver, s: Receiver) { s.folder == r.folder && s.leftover == r.leftover }

  /** The same transfer; nothing was read, and whatever was sent before is still sent. */
  predicate SameLog(r: Receiver, s: Receiver) { s.id == r.id && s.log == r.log && r.sent <= s.sent }

  /** Nothing was read or said. */
  predicate Mute(r: Receiver, s: Receiver) { s.id == r.id && s.log == r.log && s.sent == r.sent }

  // ----- ending a run ----------------------------------------------------

  /** An error before any file was staged: report it and stop. */
  function FailEarly(r: Receiver, e: TransferError): (s: Receiver)
    ensures SameFolder(r, s)
    ensures Mute(r, s)
  {
    r.(pc := Ended(Aborted(e)), tracker := FinishError(r.tracker, e))
  }

  /** `finish_incoming_error`: clean up, roll back, report. */
  function Fail(r: Receiver, e: TransferError): (s: Receiver)
    ensures SameFolder(r, s)
    ensures Mute(r, s)
  {
    r.(pc := CleanUp(e))
  }

  function Refuse(r: Receiver, violation: Violation): (s: Receiver)
    ensures SameFolder(r, s)
    ensures Mute(r, s)
  {
    Fail(r, InvalidPeerResponse(violation))
  }

  /** `check_cancelled`. */
  function CancelledBy(r: Receiver): Option<TransferError>
  {
    if r.shutdown then Some(ShuttingDown) else if r.cancelled then Some(TransferError.Canceled) else None
  }

  function Deliver(r: Receiver, m: Message, delivered: bool): (s: Receiver)
    ensures SameFolder(r, s)
    ensures SameLog(r, s)
  {
    if delivered then r.(sent := r.sent + [Control(m)]) else r
  }

  // ----- handlers --------------------------------------------------------

  function OnFirstFrame(r: Receiver, f: Frame): (s: Receiver)
    ensures SameFolder(r, s)
    ensures s.log == r.log && s.sent == r.sent
  {
    match f
    case Control(TransferRequest(id, files, total)) =>
      if ValidRequest(id, files, total)
      then r.(pc := AwaitTrust, id := id, files := files, total := total)
      else r.(pc := Ended(NoTransfer(Protocol)))
    case Control(_) =>
      r.(pc := WriteNotice(ProtocolError, NoTransfer(InvalidPeerResponse(ExpectedRequest))))
    case Data(_) =>
      r.(pc := Ended(NoTransfer(InvalidPeerResponse(ExpectedControl))))
  }

  /** A local cancellation while the recipient is still deciding is answered with a refusal. */
  function DecisionFailed(r: Receiver, e: TransferError): (s: Receiver)
    ensures SameFolder(r, s)
    ensures Mute(r, s)
  {
    if e == TransferError.Canceled
    then r.(pc := WriteNotice(TransferDecision(r.id, false, Some(CancelledText)), Aborted(e)))
    else FailEarly(r, e)
  }

  function OnFrameWhileDeciding(r: Receiver, f: Frame): (s: Receiver)
    ensures SameFolder(r, s)
    ensures Mute(r, s)
  {
    match f
    case Control(Cancel(id)) =>
      FailEarly(r, if id == r.id then RemoteCanceled else InvalidPeerResponse(UnexpectedWhileWaiting))
    case _ => FailEarly(r, InvalidPeerResponse(UnexpectedWhileWaiting))
  }

  function OnFileStart(r: Receiver, f: Frame): (s: Receiver)
    ensures SameFolder(r, s)
    ensures Mute(r, s)
  {
    match f
    case Control(FileStart(id, index)) =>
      if id == r.id && index == |r.got| then r.(pc := ChooseName) else Refuse(r, OutOfOrder)
    case Control(Cancel(id)) => if id == r.id then Fail(r, RemoteCanceled) else Refuse(r, ExpectedNextFile)
    case Control(_) => Refuse(r, ExpectedNextFile)
    case Data(_) => Refuse(r, ExpectedControl)
  }

  function OnStreamFrame(r: Receiver, f: Frame): (s: Receiver)
    requires |r.got| < |r.files|
    ensures SameFolder(r, s)
    ensures Mute(r, s)
  {
    match f
    case Data(bytes) =>
      if r.received + |bytes| >= U64_LIMIT then Refuse(r, FileSizeOverflow)
      else if r.received + |bytes| > r.files[|r.got|].size
      then Refuse(r.(received := r.received + |bytes|), FileTooLong)
      else r.(received := r.received + |bytes|, pc := WriteChunk(bytes))
    case Control(FileEnd(id, index)) =>
      if id == r.id && index == |r.got| then r.(pc := Flush) else Refuse(r, InvalidDuringFile)
    case Control(Cancel(id)) => if id == r.id then Fail(r, RemoteCanceled) else Refuse(r, InvalidDuringFile)
    case Control(_) => Refuse(r, InvalidDuringFile)
  }

  function OnComplete(r: Receiver, f: Frame): (s: Receiver)
    ensures SameFolder(r, s)
    ensures Mute(r, s)
  {
    match f
    case Control(Complete(id)) =>
      if id != r.id then Refuse(r, NotCompleted)
      else if r.transferred != r.total then Refuse(r, TotalMismatch)
      else r.(pc := CountAll)
    case Control(Cancel(id)) => if id == r.id then Fail(r, RemoteCanceled) else Refuse(r, NotCompleted)
    case Control(_) => Refuse(r, NotCompleted)
    case Data(_) => Refuse(r, ExpectedControl)
  }

  function OnGot(r: Receiver, f: Frame): (s: Receiver)
    ensures SameFolder(r, s)
    ensures s.sent == r.sent && (s.log == r.log || s.log == r.log + [f]) && (s.id == r.id || r.pc.AwaitRequest?)
  {
    var logged := r.(log := r.log + [f]);
    match r.pc
    case AwaitRequest => OnFirstFrame(logged, f)
    case AwaitDecision => OnFrameWhileDeciding(logged, f)
    case AwaitFile => OnFileStart(logged, f)
    case Stream => if |r.got| < |r.files| then OnStreamFrame(logged, f) else r
    case AwaitComplete => OnComplete(logged, f)
    case _ => r
  }

  function OnReadFailed(r: Receiver, e: TransferError): (s: Receiver)
    ensures SameFolder(r, s)
    ensures Mute(r, s)
  {
    match r.pc
    case AwaitRequest => r.(pc := Ended(NoTransfer(e)))
    case AwaitDecision => DecisionFailed(r, e)
    case AwaitFile => Fail(r, e)
    case Stream => Fail(r, e)
    case AwaitComplete => Fail(r, e)
    case _ => r
  }

  function OnTrust(r: Receiver, failure: Option<TransferError>): (s: Receiver)
    ensures SameFolder(r, s)
    ensures Mute(r, s)
  {
    match failure
    case None => r.(pc := AwaitAdmission)
    case Some(e) => r.(pc := Ended(NoTransfer(e)))
  }

  /** `try_begin_transfer`, then the first snapshot of the incoming engine. */
  function OnAdmission(r: Receiver, admitted: bool): (s: Receiver)
    ensures SameFolder(r, s)
    ensures Mute(r, s)
  {
    if admitted
    then r.(pc := AwaitAnnouncement,
            tracker := Emit(SetTotal(NewTracker(WaitingForAcceptance), r.total)))
    else r.(pc := WriteNotice(TransferDecision(r.id, false, Some(BusyText)), Busy))
  }

  function OnAnnounced(r: Receiver, ok: bool): (s: Receiver)
    ensures SameFolder(r, s)
    ensures Mute(r, s)
  {
    if ok then r.(pc := AwaitDecision)
    else r.(pc := WriteNotice(ProtocolError, Aborted(AppUnavailable)),
            tracker := FinishError(r.tracker, AppUnavailable))
  }

  function OnAnswer(r: Receiver, answer: Answer): (s: Receiver)
    ensures SameFolder(r, s)
    ensures Mute(r, s)
  {
    if r.shutdown then DecisionFailed(r, ShuttingDown)
    else if r.cancelled then DecisionFailed(r, TransferError.Canceled)
    else match answer
      case Yes => r.(pc := WriteDecision(Accept))
      case No => r.(pc := WriteDecision(Decline(DeclinedText)))
      case Dropped => DecisionFailed(r, AppUnavailable)
  }

  function OnDecisionWritten(r: Receiver, verdict: Verdict, ok: bool, delivered: bool): (s: Receiver)
    ensures SameFolder(r, s)
    ensures SameLog(r, s)
  {
    match verdict
    case Accept =>
      var s := Deliver(r, TransferDecision(r.id, true, None), ok || delivered);
      if ok
      then s.(pc := CheckFolder, tracker := Transition(Transition(s.tracker, Phase.Accepted), Transferring))
      else FailEarly(s, Connection)
    case Decline(reason) =>
      var s := Deliver(r, TransferDecision(r.id, false, Some(reason)), ok || delivered);
      if ok then s.(pc := Ended(Declined), tracker := Transition(s.tracker, Rejected))
      else FailEarly(s, Connection)
  }

  function OnNoticeWritten(r: Receiver, notice: Message, after: Outcome, delivered: bool): (s: Receiver)
    ensures SameFolder(r, s)
    ensures SameLog(r, s)
  {
    var s := Deliver(r, notice, delivered);
    s.(pc := Ended(after),
       tracker := if after.Aborted? then FinishError(s.tracker, after.error) else s.tracker)
  }

  function OnFolderChecked(r: Receiver, available: bool): (s: Receiver)
    ensures SameFolder(r, s)
    ensures Mute(r, s)
  {
    if available then r.(pc := AwaitFile) else Fail(r, Destination)
  }

  /** `available_destination_path` returned candidate `index`. */
  function OnNameChosen(p: Policy, r: Receiver, index: nat): (s: Receiver)
    requires |r.got| < |r.files|
    ensures SameFolder(r, s)
    ensures Mute(r, s)
  {
    var path := Candidate(r.files[|r.got|].name, index);
    if index <= MAX_COLLISION_ATTEMPTS && path !in r.folder.files && p.key(path) !in r.used
    then r.(pc := CreateStage(path), used := r.used + {p.key(path)})
    else r
  }

  /** The staging file is opened with `create_new`. */
  function OnStageCreated(r: Receiver, path: string, failure: Option<TransferError>): (s: Receiver)
    requires |r.got| < |r.files|
    ensures s.folder.foreign == r.folder.foreign
    ensures Mute(r, s)
  {
    var temporary := StagingName(r.id, |r.got|);
    match failure
    case Some(e) => Fail(r, e)
    case None =>
      if temporary in r.folder.files then r
      else r.(pc := Stream,
              folder := r.folder.(files := r.folder.files[temporary := []]),
              staged := r.staged + [Staged(r.files[|r.got|].name, temporary, path)],
              received := 0, hashed := [])
  }

  /** A failed write may leave part of the chunk behind. */
  function OnChunkWritten(
    r: Receiver, data: Bytes, written: nat, failure: Option<TransferError>, clock: Clock): (s: Receiver)
    requires r.staged != []
    ensures s.folder.foreign == r.folder.foreign
    ensures Mute(r, s)
  {
    var temporary := r.staged[|r.staged| - 1].temporary;
    match failure
    case Some(e) =>
      var s := r.(folder := r.folder.(
                    files := Appended(r.folder.files, temporary, data[..Min(written, |data|)])));
      Fail(s, if CancelledBy(r).Some? then CancelledBy(r).value else e)
    case None =>
      var s := r.(folder := r.folder.(files := Appended(r.folder.files, temporary, data)),
                  hashed := r.hashed + data);
      if r.transferred + |data| >= U64_LIMIT then Refuse(s, TransferSizeOverflow)
      else s.(pc := Stream, transferred := r.transferred + |data|,
              tracker := Progress(r.tracker, r.transferred + |data|, clock, false))
  }

  function OnFlushed(p: Policy, r: Receiver, failure: Option<TransferError>): (s: Receiver)
    requires |r.got| < |r.files|
    ensures SameFolder(r, s)
    ensures Mute(r, s)
  {
    var expected := r.files[|r.got|];
    match failure
    case Some(e) => Fail(r, e)
    case None =>
      if r.received != expected.size then Refuse(r, SizeMismatch)
      else if !DigestMatches(expected.sha256, p.digest(r.hashed)) then Fail(r, Verification)
      else r.(got := r.got + [r.hashed],
              pc := if |r.got| + 1 == |r.files| then AwaitComplete else AwaitFile)
  }

  /** Every byte arrived: the last forced progress report. */
  function OnCounted(r: Receiver, clock: Clock): (s: Receiver)
    ensures SameFolder(r, s)
    ensures Mute(r, s)
  {
    r.(pc := AllReceived, tracker := Progress(r.tracker, r.total, clock, true))
  }

  function OnCheckPoint(p: Policy, r: Receiver): (s: Receiver)
    ensures SameFolder(r, s)
    ensures Mute(r, s)
  {
    match r.pc
    case AllReceived =>
      if CancelledBy(r).Some? then Fail(r, CancelledBy(r).value)
      else r.(pc := BeginFinalize, used := FinalKeys(p, r.staged), tracker := Transition(r.tracker, Verifying))
    case BeginFinalize =>
      if CancelledBy(r).Some? then Fail(r, CancelledBy(r).value) else r.(pc := Finalize)
    case ConfirmAll =>
      if CancelledBy(r).Some? then Fail(r, CancelledBy(r).value)
      else r.(pc := ConfirmLast, tracker := Transition(r.tracker, Completing))
    case ConfirmLast =>
      if CancelledBy(r).Some? then Fail(r, CancelledBy(r).value) else r.(pc := WriteResult)
    case _ => r
  }

  /** Where the next staged file may go: its reserved path, or a variant no reserved key claims. */
  predicate AllowedTarget(p: Policy, r: Receiver, variant: Option<nat>)
    requires |r.finalized| < |r.staged|
  {
    match variant
    case None => true
    case Some(k) =>
      k <= MAX_COLLISION_ATTEMPTS &&
      p.key(Candidate(r.staged[|r.finalized|].name, k)) !in r.used
  }

  function Target(r: Receiver, variant: Option<nat>): string
    requires |r.finalized| < |r.staged|
  {
    match variant
    case None => r.staged[|r.finalized|].finalPath
    case Some(k) => Candidate(r.staged[|r.finalized|].name, k)
  }

  /** The no-replace move succeeded; `reserved` are the keys of paths lost to other processes. */
  function OnFileFinalized(p: Policy, r: Receiver, variant: Option<nat>, reserved: set<string>): (s: Receiver)
    requires |r.finalized| < |r.staged|
    ensures s.folder.foreign == r.folder.foreign
    ensures Mute(r, s)
  {
    var i := |r.finalized|;
    var temporary := r.staged[i].temporary;
    var target := Target(r, variant);
    if AllowedTarget(p, r, variant) && temporary in r.folder.files && target !in r.folder.files
    then r.(folder := r.folder.(
              files := Without(r.folder.files, {temporary})[target := r.folder.files[temporary]]),
            staged := r.staged[i := r.staged[i].(finalPath := target)],
            used := r.used + reserved + {p.key(target)},
            finalized := r.finalized + [target],
            pc := if i + 1 == |r.staged| then ConfirmAll else BeginFinalize)
    else r
  }

  /** A failed move; the hard-link fallback may fail to take its second link back. */
  function OnFinalizeFailed(r: Receiver, e: TransferError, copy: Option<string>): (s: Receiver)
    requires |r.finalized| < |r.staged|
    ensures s.folder.foreign == r.folder.foreign
    ensures Mute(r, s)
  {
    var temporary := r.staged[|r.finalized|].temporary;
    match copy
    case None => Fail(r, e)
    case Some(target) =>
      if temporary in r.folder.files && target !in r.folder.files
      then Fail(r.(folder := r.folder.(files := r.folder.files[target := r.folder.files[temporary]]),
                   leftover := true), e)
      else r
  }

  function OnResultWritten(r: Receiver, delivered: bool): (s: Receiver)
    ensures SameFolder(r, s)
    ensures SameLog(r, s)
  {
    Deliver(r, TransferResult(r.id, true, None), delivered).(pc := SettleResult)
  }

  function OnResultSettled(r: Receiver): (s: Receiver)
    ensures SameFolder(r, s)
    ensures Mute(r, s)
  {
    r.(pc := Ended(Succeeded), tracker := Transition(r.tracker, Phase.Completed))
  }

  /** `cleanup_staged`; `kept` are the staging files whose removal failed for good. */
  function OnCleanedUp(r: Receiver, e: TransferError, kept: set<string>): (s: Receiver)
    ensures s.folder.foreign == r.folder.foreign
    ensures Mute(r, s)
  {
    r.(folder := r.folder.(files := Without(r.folder.files, Temporaries(r.staged) - kept)),
       leftover := r.leftover || kept != {}, pc := RollBack(e))
  }

  /** `rollback_finalized`. */
  function OnRolledBack(r: Receiver, e: TransferError, kept: set<string>): (s: Receiver)
    ensures s.folder.foreign == r.folder.foreign
    ensures Mute(r, s)
  {
    r.(folder := r.folder.(files := Without(r.folder.files, NameSet(r.finalized) - kept)),
       leftover := r.leftover || kept != {}, pc := Report(e))
  }

  function OnFailureReported(r: Receiver, e: TransferError, cancelDelivered: bool, resultDelivered: bool): (s: Receiver)
    ensures SameFolder(r, s)
    ensures SameLog(r, s)
  {
    var s := Deliver(r, Cancel(r.id), e == TransferError.Canceled && cancelDelivered);
    FailEarly(Deliver(s, TransferResult(r.id, false, Some(ErrorText(e))), resultDelivered), e)
  }

  function OnForeignFiles(r: Receiver, added: map<string, Bytes>): (s: Receiver)
    ensures Mute(r, s)
  {
    if added.Keys !! r.folder.files.Keys && added.Keys !! Temporaries(r.staged)
    then r.(folder := Folder(r.folder.files + added, r.folder.foreign + added))
    else r
  }

  function Step(p: Policy, r: Receiver, e: Event): Receiver
  {
    match e
    case ForeignFiles(added) => OnForeignFiles(r, added)
    case CancelRequested => if Admitted(r) then r.(cancelled := true) else r
    case ShutdownRequested => r.(shutdown := true)
    case Read(Got(f)) => if DeliverableFrame(f) then OnGot(r, f) else r
    case Read(ReadFailed(error)) =>
      if IsWireError(error) && CanObserve(r, error) then OnReadFailed(r, error) else r
    case TrustSettled(failure) => if r.pc.AwaitTrust? then OnTrust(r, failure) else r
    case Admission(admitted) => if r.pc.AwaitAdmission? then OnAdmission(r, admitted) else r
    case Announced(ok) => if r.pc.AwaitAnnouncement? then OnAnnounced(r, ok) else r
    case Answered(answer) => if r.pc.AwaitDecision? then OnAnswer(r, answer) else r
    case DeadlinePassed => if r.pc.AwaitDecision? then r.(pc := WriteDecision(Decline(ExpiredText))) else r
    case DecisionWritten(ok, delivered) =>
      if r.pc.WriteDecision? then OnDecisionWritten(r, r.pc.verdict, ok, delivered) else r
    case NoticeWritten(delivered) =>
      if r.pc.WriteNotice? then OnNoticeWritten(r, r.pc.notice, r.pc.after, delivered) else r
    case FolderChecked(available) => if r.pc.CheckFolder? then OnFolderChecked(r, available) else r
    case NameChosen(index) =>
      if r.pc.ChooseName? && |r.got| < |r.files| then OnNameChosen(p, r, index) else r
    case NamesExhausted => if r.pc.ChooseName? then Fail(r, Destination) else r
    case StageCreated(failure) =>
      if r.pc.CreateStage? && |r.got| < |r.files| && (failure.Some? ==> IsFileError(failure.value))
      then OnStageCreated(r, r.pc.path, failure) else r
    case ChunkWritten(written, failure, clock) =>
      if r.pc.WriteChunk? && r.staged != [] && (failure.Some? ==> IsFileError(failure.value))
      then OnChunkWritten(r, r.pc.data, written, failure, clock) else r
    case Flushed(failure) =>
      if r.pc.Flush? && |r.got| < |r.files| && (failure.Some? ==> IsFlushError(r, failure.value))
      then OnFlushed(p, r, failure) else r
    case Counted(clock) => if r.pc.CountAll? then OnCounted(r, clock) else r
    case CheckPoint => OnCheckPoint(p, r)
    case FileFinalized(variant, reserved) =>
      if r.pc.Finalize? && |r.finalized| < |r.staged| then OnFileFinalized(p, r, variant, reserved) else r
    case FinalizeFailed(error, copy) =>
      if r.pc.Finalize? && |r.finalized| < |r.staged| && IsFileError(error)
      then OnFinalizeFailed(r, error, copy) else r
    case ResultWritten(delivered) => if r.pc.WriteResult? then OnResultWritten(r, delivered) else r
    case ResultSettled => if r.pc.SettleResult? then OnResultSettled(r) else r
    case CleanedUp(kept) => if r.pc.CleanUp? then OnCleanedUp(r, r.pc.error, kept) else r
    case RolledBack(kept) => if r.pc.RollBack? then OnRolledBack(r, r.pc.error, kept) else r
    case FailureReported(c, d) => if r.pc.Report? then OnFailureReported(r, r.pc.error, c, d) else r
  }

  function Initial(present: map<string, Bytes>): Receiver
  {
    Receiver(AwaitRequest, "", [], 0, NewTracker(WaitingForAcceptance), [], {}, 0, [], 0, [], [],
             Folder(present, present), false, false, false, [], [])
  }

  /** The state after a run of events. */
  function Run(p: Policy, start: Receiver, events: seq<Event>): Receiver
  {
    if events == [] then start
    else Step(p, Run(p, start, events[..|events| - 1]), events[|events| - 1])
  }
}

/**
 The sending side as a step machine: preparation, the request and its answer, streaming with a
 monitor that reads one frame from the receiver, and the final result. As for the receiver, a
 step is what runs between two suspension points and an impossible event changes nothing.
 */
module Sender {
  import opened Wrappers
  import opened Wire
  import opened Lifecycle

  datatype Outcome = Succeeded | TurnedDown | Aborted(error: TransferError)

  datatype Signal =
    | RemoteCancelled
    | RemoteResult(id: string, success: bool)
    | RemoteFailed(error: TransferError)

  /** The monitor that reads one frame after acceptance and passes it on. */
  datatype Monitor = Off | Watching | Holding(signal: Signal) | Gone

  datatype Pc =
    | PrepareFiles
    | CheckBeforeConnect
    | Connect
    | Trust
    | WriteRequest
    | AwaitDecision
    | Ready(frame: Frame)      // about to test tokens and monitor, then write
    | Writing(frame: Frame)
    | OpenSource
    | CheckBeforeRead
    | ReadSource
    | AwaitResult
    | Withdraw(error: TransferError)
    | Ended(outcome: Outcome)

  datatype Sender = Sender(
    pc: Pc,
    id: string, files: seq<TransferFile>, total: nat,
    tracker: Tracker,
    streamed: seq<Bytes>,      // finished files, as read and written
    current: Bytes,            // the file being streamed
    transferred: nat,
    monitor: Monitor,
    cancelled: bool, shutdown: bool,
    log: seq<Frame>, sent: seq<Frame>)

  datatype Event =
    | CancelRequested
    | ShutdownRequested
    | Prepared(files: seq<TransferFile>)
    | PrepareFailed(error: TransferError)
    | CheckPoint
    | Connected(failure: Option<TransferError>)
    | TrustSettled(failure: Option<TransferError>)
    | RequestWritten(failure: Option<TransferError>, delivered: bool)
    | Read(outcome: ReadOutcome)
    | Written(failure: Option<TransferError>, delivered: bool, clock: Clock)
    | SourceOpened(ok: bool)
    | ChunkRead(data: Bytes)
    | SourceFailed(error: TransferError)
    | SignalSeen(clock: Clock)
    | WaitFailed(error: TransferError)
    | MonitorStopped
    | Withdrawn(delivered: bool)

  const CHUNK_SIZE: nat := 96 * 1024

  // ----- small readings of the state ------------------------------------

  predicate CanObserve(s: Sender, e: TransferError)
  {
    (e == TransferError.Canceled ==> s.cancelled) && (e == ShuttingDown ==> s.shutdown)
  }

  /** `check_cancelled`. */
  function CancelledBy(s: Sender): Option<TransferError>
  {
    if s.shutdown then Some(ShuttingDown) else if s.cancelled then Some(TransferError.Canceled) else None
  }

  /** `remote_signal_error`, applied to what the monitor's channel yields. */
  function SignalError(m: Monitor): Option<TransferError>
  {
    match m
    case Holding(RemoteCancelled) => Some(RemoteCanceled)
    case Holding(RemoteFailed(e)) => Some(e)
    case Holding(RemoteResult(_, _)) => Some(InvalidPeerResponse(CompletedTooEarly))
    case Gone => Some(Connection)
    case _ => None
  }

  /** The same transfer; nothing was read, and whatever was sent before is still sent. */
  predicate SameLog(s: Sender, t: Sender) { t.id == s.id && t.log == s.log && s.sent <= t.sent }

  function Fail(s: Sender, e: TransferError): (t: Sender)
    ensures SameLog(s, t)
  {
    s.(pc := Ended(Aborted(e)), tracker := FinishError(s.tracker, e))
  }

  /** After a local cancellation the receiver is told, best effort. */
  function GiveUp(s: Sender, e: TransferError): (t: Sender)
    ensures SameLog(s, t)
  {
    s.(pc := Withdraw(e))
  }

  function Sent(s: Sender, f: Frame, delivered: bool): (t: Sender)
    ensures SameLog(s, t)
  {
    if delivered then s.(sent := s.sent + [f]) else s
  }

  // ----- handlers --------------------------------------------------------

  /** The prepared files are validated with the rules the receiver will apply. */
  function OnPrepared(s: Sender, files: seq<TransferFile>): (t: Sender)
    ensures SameLog(s, t)
  {
    if files == [] then Fail(s, Prepare)
    else if TotalSize(files) >= U64_LIMIT then Fail(s, Prepare)
    else if !ValidRequest(s.id, files, TotalSize(files)) then Fail(s, Protocol)
    else s.(pc := CheckBeforeConnect, files := files, total := TotalSize(files),
            tracker := Transition(SetTotal(s.tracker, TotalSize(files)), Requesting))
  }

  function OnConnected(s: Sender, failure: Option<TransferError>): (t: Sender)
    ensures SameLog(s, t)
  {
    match failure
    case None => s.(pc := Trust)
    case Some(e) => Fail(s, e)
  }

  function OnTrust(s: Sender, failure: Option<TransferError>): (t: Sender)
    ensures SameLog(s, t)
  {
    match failure
    case None => s.(pc := WriteRequest)
    case Some(e) => Fail(s, e)
  }

  function OnRequestWritten(s: Sender, failure: Option<TransferError>, delivered: bool): (t: Sender)
    requires s.total < U64_LIMIT
    ensures SameLog(s, t)
  {
    var t := Sent(s, Control(TransferRequest(s.id, s.files, s.total)), delivered || failure.None?);
    match failure
    case None => t.(pc := AwaitDecision, tracker := Transition(t.tracker, WaitingForAcceptance))
    case Some(e) => Fail(t, e)
  }

  function OnDecision(s: Sender, f: Frame): (t: Sender)
    ensures SameLog(s, t)
  {
    match f
    case Control(TransferDecision(id, accepted, reason)) =>
      if id != s.id then Fail(s, InvalidPeerResponse(DecisionIdMismatch))
      else if accepted
      then s.(pc := Ready(Control(FileStart(s.id, 0))), monitor := Watching,
              tracker := Transition(Transition(s.tracker, Phase.Accepted), Transferring))
      else s.(pc := Ended(TurnedDown),
              tracker := Transition(s.tracker, if reason == Some(CancelledText) then CanceledPhase else Rejected))
    case Control(ProtocolError) => Fail(s, RemoteFailure)
    case Control(_) => Fail(s, InvalidPeerResponse(ExpectedDecision))
    case Data(_) => Fail(s, InvalidPeerResponse(ExpectedControl))
  }

  /** `monitor_remote`: one frame becomes one signal. */
  function SignalOf(id: string, f: Frame): Signal
  {
    match f
    case Control(Cancel(cancelId)) =>
      if cancelId == id then RemoteCancelled else RemoteFailed(InvalidPeerResponse(UnexpectedControl))
    case Control(TransferResult(resultId, success, _)) => RemoteResult(resultId, success)
    case Control(_) => RemoteFailed(InvalidPeerResponse(UnexpectedControl))
    case Data(_) => RemoteFailed(InvalidPeerResponse(UnexpectedData))
  }

  function OnRead(s: Sender, outcome: ReadOutcome): (t: Sender)
    ensures t.id == s.id && s.sent <= t.sent
    ensures t.log == s.log || (outcome.Got? && t.log == s.log + [outcome.frame])
  {
    if s.pc.AwaitDecision? then
      match outcome
      case Got(f) => OnDecision(s.(log := s.log + [f]), f)
      case ReadFailed(e) => if e == TransferError.Canceled then GiveUp(s, e) else Fail(s, e)
    else if s.monitor.Watching? && !s.pc.Ended? then
      match outcome
      case Got(f) => s.(log := s.log + [f], monitor := Holding(SignalOf(s.id, f)))
      case ReadFailed(e) => s.(monitor := Holding(RemoteFailed(e)))
    else s
  }

  /** The tests before a watched write. */
  function OnReady(s: Sender, f: Frame): (t: Sender)
    ensures SameLog(s, t)
  {
    if CancelledBy(s).Some? then GiveUp(s, CancelledBy(s).value)
    else if SignalError(s.monitor).Some? then GiveUp(s, SignalError(s.monitor).value)
    else s.(pc := Writing(f))
  }

  /** What follows a successful write. */
  function AfterWrite(s: Sender, f: Frame, clock: Clock): (t: Sender)
    ensures SameLog(s, t)
  {
    match f
    case Control(FileStart(_, _)) => s.(pc := OpenSource)
    case Data(bytes) =>
      if s.transferred + |bytes| >= U64_LIMIT then GiveUp(s, Prepare)
      else s.(pc := CheckBeforeRead, transferred := s.transferred + |bytes|, current := s.current + bytes,
              tracker := Progress(s.tracker, s.transferred + |bytes|, clock, false))
    case Control(FileEnd(_, _)) =>
      var next := s.(streamed := s.streamed + [s.current], current := []);
      if |next.streamed| < |s.files|
      then next.(pc := Ready(Control(FileStart(s.id, |next.streamed|))))
      else next.(pc := Ready(Control(Complete(s.id))),
                 tracker := Transition(Progress(s.tracker, s.total, clock, true), Verifying))
    case Control(Complete(_)) => s.(pc := AwaitResult, tracker := Transition(s.tracker, Completing))
    case Control(_) => s
  }

  function OnWritten(s: Sender, f: Frame, failure: Option<TransferError>, delivered: bool, clock: Clock): (t: Sender)
    ensures SameLog(s, t)
  {
    var t := Sent(s, f, delivered || failure.None?);
    match failure
    case None => AfterWrite(t, f, clock)
    case Some(e) => GiveUp(t, e)
  }

  function OnChunkRead(s: Sender, data: Bytes): (t: Sender)
    ensures SameLog(s, t)
  {
    if data == [] then s.(pc := Ready(Control(FileEnd(s.id, |s.streamed|))))
    else s.(pc := Ready(Data(data)))
  }

  /** The signal that ends the wait for the result, or interrupts the reading of a source. */
  function OnSignal(s: Sender, clock: Clock): (t: Sender)
    ensures SameLog(s, t)
  {
    if s.pc.AwaitResult? then
      match s.monitor
      case Holding(RemoteResult(id, success)) =>
        if id != s.id then GiveUp(s, InvalidPeerResponse(ResultIdMismatch))
        else if success
        then s.(pc := Ended(Succeeded),
                tracker := Transition(Progress(s.tracker, s.total, clock, true), Phase.Completed))
        else GiveUp(s, RemoteFailure)
      case Holding(RemoteCancelled) => GiveUp(s, RemoteCanceled)
      case Holding(RemoteFailed(e)) => GiveUp(s, e)
      case Gone => GiveUp(s, Connection)
      case _ => s
    else if s.pc.ReadSource? && SignalError(s.monitor).Some? then GiveUp(s, SignalError(s.monitor).value)
    else s
  }

  function OnCheckPoint(s: Sender): (t: Sender)
    ensures SameLog(s, t)
  {
    match s.pc
    case CheckBeforeConnect =>
      if CancelledBy(s).Some? then Fail(s, CancelledBy(s).value) else s.(pc := Connect)
    case CheckBeforeRead =>
      if CancelledBy(s).Some? then GiveUp(s, CancelledBy(s).value) else s.(pc := ReadSource)
    case Ready(f) => OnReady(s, f)
    case _ => s
  }

  function OnWithdrawn(s: Sender, e: TransferError, delivered: bool): (t: Sender)
    ensures SameLog(s, t)
  {
    Fail(Sent(s, Control(Cancel(s.id)), e == TransferError.Canceled && delivered), e)
  }

  function Step(s: Sender, e: Event): Sender
  {
    match e
    case CancelRequested => if s.pc.Ended? then s else s.(cancelled := true)
    case ShutdownRequested => s.(shutdown := true)
    case Prepared(files) => if s.pc.PrepareFiles? then OnPrepared(s, files) else s
    case PrepareFailed(error) =>
      if s.pc.PrepareFiles? && CanObserve(s, error) then Fail(s, error) else s
    case CheckPoint => OnCheckPoint(s)
    case Connected(failure) =>
      if s.pc.Connect? && (failure.Some? ==> CanObserve(s, failure.value)) then OnConnected(s, failure) else s
    case TrustSettled(failure) =>
      if s.pc.Trust? && (failure.Some? ==> CanObserve(s, failure.value)) then OnTrust(s, failure) else s
    case RequestWritten(failure, delivered) =>
      if s.pc.WriteRequest? && s.total < U64_LIMIT &&
         (failure.Some? ==> IsWireError(failure.value) && CanObserve(s, failure.value))
      then OnRequestWritten(s, failure, delivered) else s
    case Read(Got(f)) => if DeliverableFrame(f) then OnRead(s, Got(f)) else s
    case Read(ReadFailed(error)) =>
      if IsWireError(error) && CanObserve(s, error) then OnRead(s, ReadFailed(error)) else s
    case Written(failure, delivered, clock) =>
      if s.pc.Writing? && (failure.Some? ==> IsWireError(failure.value) && !IsCancelled(failure.value))
      then OnWritten(s, s.pc.frame, failure, delivered, clock) else s
    case SourceOpened(ok) =>
      if s.pc.OpenSource? then (if ok then s.(pc := CheckBeforeRead, current := []) else GiveUp(s, FileRead)) else s
    case ChunkRead(data) =>
      if s.pc.ReadSource? && |data| <= CHUNK_SIZE then OnChunkRead(s, data) else s
    case SourceFailed(error) =>
      if s.pc.ReadSource? && (error == FileRead || error == Timeout || (IsCancelled(error) && error != RemoteCanceled
                              && CanObserve(s, error))) then GiveUp(s, error) else s
    case SignalSeen(clock) => OnSignal(s, clock)
    case WaitFailed(error) =>
      if s.pc.AwaitResult? && (error == Timeout || (IsCancelled(error) && error != RemoteCanceled
                               && CanObserve(s, error))) then GiveUp(s, error) else s
    case MonitorStopped => if s.monitor.Watching? && s.shutdown then s.(monitor := Gone) else s
    case Withdrawn(delivered) => if s.pc.Withdraw? then OnWithdrawn(s, s.pc.error, delivered) else s
  }

  /** The run starts with its first snapshot shown. */
  function Initial(id: string): Sender
  {
    Sender(PrepareFiles, id, [], 0, Emit(NewTracker(Preparing)), [], [], 0, Off, false, false, [], [])
  }

  function Run(start: Sender, events: seq<Event>): Sender
  {
    if events == [] then start
    else Step(Run(start, events[..|events| - 1]), events[|events| - 1])
  }
}

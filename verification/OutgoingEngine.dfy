/**
 The sending engine as the source runs it: preparation, the request, the loop over files and
 chunks with a monitor beside it, and the result. As on the receiving side a ghost copy of the
 step machine takes one step for each outcome and the object mirrors it.
 */
module OutgoingEngine {
  import opened Wrappers
  import opened Wire
  import opened Lifecycle
  import opened Sender
  import opened SenderMonitor
  import opened SenderSafety
  import opened Transcript

  // ----- single steps of the machine ------------------------------------

  lemma TokenSteps(s: Sender)
    ensures !s.pc.Ended? ==> Step(s, CancelRequested) == s.(cancelled := true)
    ensures Step(s, ShutdownRequested) == s.(shutdown := true)
    ensures s.monitor.Watching? && s.shutdown ==> Step(s, MonitorStopped) == s.(monitor := Gone)
  {
  }

  lemma ReadStep(s: Sender, o: ReadOutcome)
    ensures o.Got? && DeliverableFrame(o.frame) ==> Step(s, Read(o)) == OnRead(s, o)
    ensures o.ReadFailed? && IsWireError(o.error) && CanObserve(s, o.error) ==> Step(s, Read(o)) == OnRead(s, o)
  {
    hide OnRead;
  }

  /** What the monitor's frame does beside the sending loop. */
  lemma MonitorStep(s: Sender, o: ReadOutcome)
    requires !s.pc.AwaitDecision? && !s.pc.Ended? && s.monitor.Watching?
    ensures OnRead(s, o) == match o
              case Got(f) => s.(log := s.log + [f], monitor := Holding(SignalOf(s.id, f)))
              case ReadFailed(e) => s.(monitor := Holding(RemoteFailed(e)))
  {
    hide SignalOf;
  }

  lemma PrepareSteps(s: Sender, files: seq<TransferFile>, e: TransferError)
    requires s.pc.PrepareFiles?
    ensures Step(s, Prepared(files)) == OnPrepared(s, files)
    ensures CanObserve(s, e) ==> Step(s, PrepareFailed(e)) == Fail(s, e)
  {
    hide OnPrepared, Fail;
  }

  lemma CheckStep(s: Sender)
    ensures Step(s, CheckPoint) == OnCheckPoint(s)
  {
    hide OnCheckPoint;
  }

  lemma ConnectSteps(s: Sender, failure: Option<TransferError>)
    requires failure.Some? ==> CanObserve(s, failure.value)
    ensures s.pc.Connect? ==> Step(s, Connected(failure)) == OnConnected(s, failure)
    ensures s.pc.Trust? ==> Step(s, TrustSettled(failure)) == OnTrust(s, failure)
  {
    hide OnConnected, OnTrust;
  }

  lemma RequestStep(s: Sender, failure: Option<TransferError>, delivered: bool)
    requires s.pc.WriteRequest? && s.total < U64_LIMIT
    requires failure.Some? ==> IsWireError(failure.value) && CanObserve(s, failure.value)
    ensures Step(s, RequestWritten(failure, delivered)) == OnRequestWritten(s, failure, delivered)
  {
    hide OnRequestWritten;
  }

  lemma WriteStep(s: Sender, failure: Option<TransferError>, delivered: bool, clock: Clock)
    requires s.pc.Writing? && (failure.Some? ==> IsWireError(failure.value) && !IsCancelled(failure.value))
    ensures Step(s, Written(failure, delivered, clock)) == OnWritten(s, s.pc.frame, failure, delivered, clock)
  {
    hide OnWritten;
  }

  lemma SourceSteps(s: Sender, data: Bytes, e: TransferError)
    ensures s.pc.OpenSource? ==> Step(s, SourceOpened(true)) == s.(pc := CheckBeforeRead, current := [])
    ensures s.pc.OpenSource? ==> Step(s, SourceOpened(false)) == GiveUp(s, FileRead)
    ensures s.pc.ReadSource? && |data| <= CHUNK_SIZE ==> Step(s, ChunkRead(data)) == OnChunkRead(s, data)
    ensures s.pc.ReadSource? &&
            (e == FileRead || e == Timeout || (IsCancelled(e) && e != RemoteCanceled && CanObserve(s, e))) ==>
              Step(s, SourceFailed(e)) == GiveUp(s, e)
  {
    hide OnChunkRead, GiveUp;
  }

  lemma SignalStep(s: Sender, clock: Clock)
    ensures Step(s, SignalSeen(clock)) == OnSignal(s, clock)
  {
    hide OnSignal;
  }

  lemma WaitStep(s: Sender, e: TransferError)
    requires s.pc.AwaitResult? && (e == Timeout || (IsCancelled(e) && e != RemoteCanceled && CanObserve(s, e)))
    ensures Step(s, WaitFailed(e)) == GiveUp(s, e)
  {
    hide GiveUp;
  }

  lemma WithdrawStep(s: Sender, e: TransferError, delivered: bool)
    requires s.pc == Withdraw(e)
    ensures Step(s, Withdrawn(delivered)) ==
            s.(sent := if e == TransferError.Canceled && delivered then s.sent + [Control(Cancel(s.id))] else s.sent,
               pc := Ended(Aborted(e)), tracker := FinishError(s.tracker, e))
  {
    hide FinishError;
  }

  /** What a suspension may change: the tokens and the monitor. */
  ghost predicate Resumed(was: Sender, now: Sender)
  {
    now == was.(cancelled := now.cancelled, shutdown := now.shutdown, monitor := now.monitor, log := now.log)
  }

  /** The monitor read a frame and holds what it means, or its read failed, or shutdown ended it. */
  predicate MonitorEnded(was: Sender, now: Sender)
  {
    if now.log == was.log then
      (now.monitor.Gone? && now.shutdown) ||
      (now.monitor.Holding? && now.monitor.signal.RemoteFailed? && IsWireError(now.monitor.signal.error))
    else
      && |now.log| == |was.log| + 1 && was.log <= now.log
      && now.monitor == Holding(SignalOf(now.id, now.log[|was.log|]))
  }

  /** The same batch at the same point of the stream. */
  ghost predicate SameStream(s: Sender, t: Sender)
  {
    && t.files == s.files && t.total == s.total && t.streamed == s.streamed && t.current == s.current
    && t.transferred == s.transferred
  }

  ghost predicate SameBatch(s: Sender, t: Sender)
  {
    t.files == s.files && t.total == s.total && t.streamed == s.streamed && t.transferred == s.transferred
  }

  lemma WhatSuccessMeans(s: Sender)
    requires Inv(s)
    ensures s.pc == Ended(Succeeded) ==>
              |s.streamed| == |s.files| && Parse(s.sent) == Parsed(s.streamed, None, true)
  {
    hide TrackInv, RequestInv, HeardInv, Parse;
  }

  // ----- the engine ------------------------------------------------------

  class OutgoingEngine {
    const tracker: TransferTracker
    var cancelled: bool
    var shutdown: bool
    var monitor: Monitor
    var sent: seq<Frame>             // what reached the connection
    const id: string
    ghost var m: Sender
    ghost var trace: seq<Event>

    ghost predicate Traced()
      reads this
    {
      m == Run(Initial(id), trace) && Inv(m) && m.id == id
    }

    /** The object is in machine state `s`, but for the program point. */
    ghost predicate Mirrors(s: Sender)
      reads this, tracker
    {
      && s.tracker == tracker.State() && s.cancelled == cancelled && s.shutdown == shutdown
      && s.monitor == monitor && s.sent == sent
    }

    ghost predicate Synced()
      reads this, tracker
    {
      Traced() && Mirrors(m)
    }

    constructor (transferId: string)
      ensures fresh(tracker)
      ensures Synced() && m == Initial(transferId) && trace == []
    {
      tracker := new TransferTracker(Preparing);
      cancelled, shutdown, monitor, sent, id := false, false, Off, [], transferId;
      m, trace := Initial(transferId), [];
      new;
      hide Inv;
      tracker.EmitNow();
      InitialInvariant(transferId);
    }

    ghost method Take(e: Event)
      requires Traced()
      modifies this`m, this`trace
      ensures Traced() && m == Step(old(m), e) && trace == old(trace) + [e]
    {
      hide Inv, Step, Initial;
      StepKeepsInvariant(m, e);
      StepKeepsId(m, e);
      assert (trace + [e])[..|trace|] == trace;
      m, trace := Step(m, e), trace + [e];
    }

    /** The tokens may be set at any time. */
    method Tokens()
      requires Synced() && !m.pc.Ended?
      modifies this`cancelled, this`shutdown, this`m, this`trace
      ensures Synced() && Resumed(old(m), m) && m.monitor == old(m).monitor
    {
      hide Inv, Run, Step;
      var cancel: bool, stop: bool := *, *;
      TokenSteps(m);
      if cancel {
        cancelled := true;
        Take(CancelRequested);
        TokenSteps(m);
      }
      if stop {
        shutdown := true;
        Take(ShutdownRequested);
      }
    }

    /** `monitor_remote`: one frame from the receiver becomes one signal, or shutdown ends the monitor. */
    method MonitorRemote()
      requires Synced() && m.monitor.Watching? && !m.pc.AwaitDecision? && !m.pc.Ended?
      modifies this`monitor, this`m, this`trace
      ensures Synced() && Resumed(old(m), m)
      ensures MonitorEnded(old(m), m)
    {
      hide Inv, Run, Step, OnRead, DeliverableFrame, IsWireError;
      var stopped: bool, f: Frame, e: TransferError, arrives: bool := *, *, *, *;
      TokenSteps(m);
      if stopped && shutdown {
        monitor := Gone;
        Take(MonitorStopped);
        return;
      }
      var read := ReadFailed(Connection);
      if arrives && DeliverableFrame(f) {
        read := Got(f);
      } else if IsWireError(e) && !IsCancelled(e) {
        read := ReadFailed(e);
      }
      ConnectionIsWireError();
      ReadStep(m, read);
      MonitorStep(m, read);
      match read {
        case ReadFailed(error) => monitor := Holding(RemoteFailed(error));
        case Got(Control(Cancel(cancelId))) =>
          monitor := Holding(if cancelId == id then RemoteCancelled
                             else RemoteFailed(InvalidPeerResponse(UnexpectedControl)));
        case Got(Control(TransferResult(resultId, success, _))) => monitor := Holding(RemoteResult(resultId, success));
        case Got(Control(_)) => monitor := Holding(RemoteFailed(InvalidPeerResponse(UnexpectedControl)));
        case Got(Data(_)) => monitor := Holding(RemoteFailed(InvalidPeerResponse(UnexpectedData)));
      }
      Take(Read(read));
    }

    /** A suspension point of the sending loop. */
    method Suspend()
      requires Synced() && !m.pc.AwaitDecision? && !m.pc.Ended?
      modifies this`cancelled, this`shutdown, this`monitor, this`m, this`trace
      ensures Synced() && Resumed(old(m), m)
    {
      hide Inv, Run, Step;
      Tokens();
      var scheduled: bool := *;
      if scheduled && monitor.Watching? {
        MonitorRemote();
      }
    }

    /** `check_cancelled`. */
    method CheckCancelled() returns (failure: Option<TransferError>)
      ensures failure == if shutdown then Some(ShuttingDown)
                         else if cancelled then Some(TransferError.Canceled) else None
    {
      if shutdown {
        return Some(ShuttingDown);
      }
      failure := if cancelled then Some(TransferError.Canceled) else None;
    }

    /** `check_remote_signal` and `remote_signal_error`. */
    method CheckRemoteSignal() returns (failure: Option<TransferError>)
      requires Synced()
      ensures failure.None? <==> monitor.Off? || monitor.Watching?
      ensures |m.log| == 2 ==> failure == Some(ErrorFor(id, m.log[1]))
      ensures failure == SignalError(monitor)
    {
      hide Run, Inv;
      PendingSignal(id, trace);
      match monitor {
        case Off => failure := None;
        case Watching => failure := None;
        case Gone => failure := Some(Connection);
        case Holding(RemoteCancelled) => failure := Some(RemoteCanceled);
        case Holding(RemoteFailed(e)) => failure := Some(e);
        case Holding(RemoteResult(_, _)) => failure := Some(InvalidPeerResponse(CompletedTooEarly));
      }
    }

    /** A frame: it may fail, and even then it may have arrived. */
    method WriteFrame(f: Frame) returns (ok: bool, ghost arrived: bool)
      modifies this`sent
      ensures ok ==> arrived
      ensures sent == if arrived then old(sent) + [f] else old(sent)
    {
      var lost: bool, failed: bool := *, *;
      if lost {
        return false, false;
      }
      sent := sent + [f];
      return !failed, true;
    }

    /** The tests before a watched write: the tokens, then the monitor. */
    method TestBeforeWriting(f: Frame) returns (failure: Option<TransferError>)
      requires Synced() && m.pc == Ready(f)
      modifies this`cancelled, this`shutdown, this`monitor, this`m, this`trace
      ensures Synced() && Resumed(old(m).(pc := m.pc), m)
      ensures m.pc == if failure.Some? then Withdraw(failure.value) else Writing(f)
    {
      hide Inv, Run, Step, IsWireError;
      Suspend();
      CheckStep(m);
      failure := CheckCancelled();
      if failure.None? {
        failure := CheckRemoteSignal();
      }
      Take(CheckPoint);
    }

    /** `write_control_watched` and `write_data_watched`: tokens, then monitor, then the write. */
    method WriteWatched(f: Frame, clock: Clock) returns (failure: Option<TransferError>, ghost was: Sender)
      requires Synced() && m.pc == Ready(f)
      modifies this`cancelled, this`shutdown, this`monitor, this`sent, this`m, this`trace
      ensures failure.Some? ==> Synced() && m.pc == Withdraw(failure.value) && SameStream(old(m), m)
      ensures failure.None? ==>
                && Traced() && Mirrors(Sent(was, f, true)) && Resumed(old(m).(pc := Writing(f)), was)
                && m == AfterWrite(Sent(was, f, true), f, clock)
    {
      hide Inv, Run, Step, AfterWrite, IsWireError;
      failure := TestBeforeWriting(f);
      was := m;
      if failure.Some? {
        return;
      }
      Suspend();
      was := m;
      var e: TransferError := *;
      var ok: bool;
      ghost var arrived;
      ok, arrived := WriteFrame(f);
      if !ok {
        ConnectionIsWireError();
        failure := Some(if IsWireError(e) && !IsCancelled(e) then e else Connection);
      }
      WriteStep(m, failure, arrived, clock);
      Take(Written(failure, arrived, clock));
    }

    // ----- the loop over files and chunks --------------------------------

    /** The test before each read of the source. */
    method CheckBeforeReading() returns (failure: Option<TransferError>)
      requires Synced() && m.pc == CheckBeforeRead
      modifies this`cancelled, this`shutdown, this`m, this`trace
      ensures Synced() && SameStream(old(m), m)
      ensures m.pc == if failure.None? then ReadSource else Withdraw(failure.value)
    {
      hide Inv, Run, Step, OnReady;
      Tokens();
      CheckStep(m);
      failure := CheckCancelled();
      Take(CheckPoint);
    }

    /** The read fails, or a signal or a token interrupts it. */
    method FailReading() returns (failure: TransferError)
      requires Synced() && m.pc == ReadSource
      modifies this`m, this`trace
      ensures Synced() && SameStream(old(m), m) && m.pc == Withdraw(failure)
    {
      hide Inv, Run, Step;
      var e: TransferError, clock: Clock, interrupted: bool := *, *, *;
      var signal := CheckRemoteSignal();
      if interrupted && signal.Some? {
        SignalStep(m, clock);
        Take(SignalSeen(clock));
        return signal.value;
      }
      var possible := e == Timeout || (e == TransferError.Canceled && cancelled) || (e == ShuttingDown && shutdown);
      failure := if possible then e else FileRead;
      SourceSteps(m, [], failure);
      Take(SourceFailed(failure));
    }

    /** The next chunk of the open source; an empty one at its end. */
    method ReadSourceChunk() returns (failure: Option<TransferError>, data: Bytes)
      requires Synced() && m.pc == CheckBeforeRead
      modifies this`cancelled, this`shutdown, this`monitor, this`m, this`trace
      ensures Synced() && SameStream(old(m), m)
      ensures failure.Some? ==> m.pc == Withdraw(failure.value)
      ensures failure.None? ==>
                m.pc == Ready(if data == [] then Control(FileEnd(id, |m.streamed|)) else Data(data))
    {
      hide Inv, Run, Step;
      data := [];
      failure := CheckBeforeReading();
      if failure.Some? {
        return;
      }
      Suspend();
      var bytes: Bytes := *;
      if |bytes| > CHUNK_SIZE {
        var e := FailReading();
        return Some(e), data;
      }
      data := bytes;
      SourceSteps(m, data, FileRead);
      Take(ChunkRead(data));
    }

    /** One chunk is written and counted. */
    method SendChunk(data: Bytes, transferred: nat) returns (failure: Option<TransferError>, counted: nat)
      requires Synced() && m.pc == Ready(Data(data)) && m.transferred == transferred
      modifies this, tracker
      ensures Synced() && m.files == old(m).files && m.total == old(m).total && m.streamed == old(m).streamed
      ensures failure.Some? ==> m.pc == Withdraw(failure.value)
      ensures failure.None? ==>
                && m.pc == CheckBeforeRead && m.current == old(m).current + data
                && m.transferred == counted == transferred + |data| < U64_LIMIT
    {
      hide Inv, Run, Step, Progress;
      var clock: Clock := *;
      ghost var was;
      counted := transferred;
      failure, was := WriteWatched(Data(data), clock);
      if failure.Some? {
        return;
      }
      if transferred + |data| >= U64_LIMIT {
        return Some(Prepare), counted;
      }
      counted := transferred + |data|;
      tracker.Report(counted, clock, false);
    }

    /** The chunks of one file. */
    method SendContents(transferred: nat) returns (failure: Option<TransferError>, counted: nat)
      requires Synced() && m.pc == CheckBeforeRead && m.transferred == transferred < U64_LIMIT
      modifies this, tracker
      ensures Synced() && m.files == old(m).files && m.total == old(m).total && m.streamed == old(m).streamed
      ensures failure.Some? ==> m.pc == Withdraw(failure.value)
      ensures failure.None? ==>
                m.pc == Ready(Control(FileEnd(id, |m.streamed|))) && m.transferred == counted < U64_LIMIT
    {
      hide Inv, Run, Step, Mirrors, Traced;
      counted := transferred;
      while true
        invariant Synced() && m.pc == CheckBeforeRead && m.transferred == counted < U64_LIMIT
        invariant m.files == old(m).files && m.total == old(m).total && m.streamed == old(m).streamed
        decreases U64_LIMIT - counted
      {
        var data: Bytes;
        failure, data := ReadSourceChunk();
        if failure.Some? || data == [] {
          return;
        }
        failure, counted := SendChunk(data, counted);
        if failure.Some? {
          return;
        }
      }
    }

    /** The point after the last file: its tracker updates are still to be made. */
    ghost predicate BatchSent(clock: Clock)
      reads this, tracker
    {
      && Traced() && Mirrors(m.(tracker := tracker.State())) && m.pc == Ready(Control(Complete(id)))
      && m.tracker == Transition(Progress(tracker.State(), m.total, clock, true), Verifying)
    }

    /** The start of a file; its source is opened. */
    method StartFile(index: nat, clock: Clock) returns (failure: Option<TransferError>)
      requires Synced() && m.pc == Ready(Control(FileStart(id, index)))
      modifies this`cancelled, this`shutdown, this`monitor, this`sent, this`m, this`trace
      ensures Synced() && m.files == old(m).files && m.total == old(m).total && m.streamed == old(m).streamed
      ensures m.transferred == old(m).transferred
      ensures m.pc == if failure.None? then CheckBeforeRead else Withdraw(failure.value)
    {
      hide Inv, Run, Step;
      ghost var was;
      failure, was := WriteWatched(Control(FileStart(id, index)), clock);
      if failure.Some? {
        return;
      }
      var found: bool := *;
      SourceSteps(m, [], FileRead);
      Take(SourceOpened(found));
      failure := if found then None else Some(FileRead);
    }

    /** One file: its start, its contents, its end. */
    method SendFile(index: nat, transferred: nat, clock: Clock) returns (failure: Option<TransferError>, counted: nat)
      requires Synced() && m.pc == Ready(Control(FileStart(id, index))) && |m.streamed| == index < |m.files|
      requires m.transferred == transferred < U64_LIMIT
      modifies this, tracker
      ensures m.files == old(m).files && m.total == old(m).total
      ensures failure.Some? ==> Synced() && m.pc == Withdraw(failure.value)
      ensures failure.None? ==>
                && |m.streamed| == index + 1 && m.transferred == counted < U64_LIMIT
                && (if index + 1 < |m.files| then Synced() && m.pc == Ready(Control(FileStart(id, index + 1)))
                    else BatchSent(clock))
    {
      hide Inv, Run, Step, Progress, Transition, Mirrors, Traced, BatchSent;
      counted := transferred;
      failure := StartFile(index, clock);
      if failure.Some? {
        return;
      }
      failure, counted := SendContents(counted);
      if failure.Some? {
        return;
      }
      failure := EndFile(index, clock);
    }

    /** The end of a file; after the last one the batch is declared next. */
    method EndFile(index: nat, clock: Clock) returns (failure: Option<TransferError>)
      requires Synced() && m.pc == Ready(Control(FileEnd(id, index))) && |m.streamed| == index < |m.files|
      modifies this`cancelled, this`shutdown, this`monitor, this`sent, this`m, this`trace
      ensures m.files == old(m).files && m.total == old(m).total && m.transferred == old(m).transferred
      ensures failure.Some? ==> Synced() && m.pc == Withdraw(failure.value)
      ensures failure.None? ==>
                && |m.streamed| == index + 1
                && (if index + 1 < |m.files| then Synced() && m.pc == Ready(Control(FileStart(id, index + 1)))
                    else BatchSent(clock))
    {
      hide Inv, Run, Step, Progress, Transition;
      ghost var was;
      failure, was := WriteWatched(Control(FileEnd(id, index)), clock);
    }

    /** `send_files` from the first file to the last byte. */
    method SendBatch(files: seq<TransferFile>, total: nat) returns (failure: Option<TransferError>)
      requires Synced() && m.pc == Ready(Control(FileStart(id, 0))) && m.streamed == [] && m.transferred == 0
      requires m.files == files && m.total == total && |files| > 0
      modifies this, tracker
      ensures Synced() && (failure.None? ==> m.total == total)
      ensures m.pc == if failure.None? then AwaitResult else Withdraw(failure.value)
    {
      hide Inv, Run, Step, Progress, Transition;
      var transferred := 0;
      var clock: Clock := *;
      for index := 0 to |files|
        invariant m.files == files && m.total == total
        invariant |m.streamed| == index && m.transferred == transferred < U64_LIMIT
        invariant index < |files| ==> Synced() && m.pc == Ready(Control(FileStart(id, index)))
        invariant index == |files| ==> BatchSent(clock)
      {
        failure, transferred := SendFile(index, transferred, clock);
        if failure.Some? {
          return;
        }
      }
      tracker.Report(total, clock, true);
      tracker.ChangePhase(Verifying);
      ghost var was;
      failure, was := WriteWatched(Control(Complete(id)), clock);
      if failure.None? {
        tracker.ChangePhase(Completing);
      }
    }

    /** `next_remote_signal` and what it means for the transfer. */
    method AwaitOutcome(total: nat) returns (failure: Option<TransferError>)
      requires Synced() && m.pc == AwaitResult && m.total == total
      modifies this, tracker
      ensures Synced()
      ensures m.pc == if failure.None? then Ended(Succeeded) else Withdraw(failure.value)
    {
      hide Inv, Run, Step, Progress, Transition;
      Suspend();
      var clock: Clock := *;
      SignalStep(m, clock);
      match monitor {
        case Holding(RemoteResult(resultId, success)) =>
          Take(SignalSeen(clock));
          if resultId != id {
            return Some(InvalidPeerResponse(ResultIdMismatch));
          }
          if !success {
            return Some(RemoteFailure);
          }
          tracker.Report(total, clock, true);
          tracker.ChangePhase(Phase.Completed);
          failure := None;
        case Holding(RemoteCancelled) =>
          Take(SignalSeen(clock));
          failure := Some(RemoteCanceled);
        case Holding(RemoteFailed(error)) =>
          Take(SignalSeen(clock));
          failure := Some(error);
        case Gone =>
          Take(SignalSeen(clock));
          failure := Some(Connection);
        case _ =>
          var e := GiveUpWaiting();
          failure := Some(e);
      }
    }

    /** No signal came: a token was set, or the time is up. */
    method GiveUpWaiting() returns (failure: TransferError)
      requires Synced() && m.pc == AwaitResult
      modifies this`m, this`trace
      ensures Synced() && m.pc == Withdraw(failure)
    {
      hide Inv, Run, Step;
      var e: TransferError := *;
      var interrupted := (e == TransferError.Canceled && cancelled) || (e == ShuttingDown && shutdown);
      failure := if interrupted then e else Timeout;
      WaitStep(m, failure);
      Take(WaitFailed(failure));
    }

    // ----- before the stream ---------------------------------------------

    /** The run has failed with `e`; the tracker has still to show it. */
    ghost predicate Failing(e: TransferError)
      reads this, tracker
    {
      && Traced() && Mirrors(m.(tracker := tracker.State()))
      && m.pc == Ended(Aborted(e)) && m.tracker == FinishError(tracker.State(), e)
    }

    /** The files as prepared, checked with the rules the receiver applies. */
    method PrepareBatch() returns (failure: Option<TransferError>, files: seq<TransferFile>, total: u64)
      requires Synced() && m.pc == PrepareFiles
      modifies this`cancelled, this`shutdown, this`m, this`trace, tracker
      ensures failure.Some? ==> Failing(failure.value)
      ensures failure.None? ==>
                && Synced() && m.pc == CheckBeforeConnect && m.files == files && m.total == total && |files| > 0
                && m.streamed == old(m).streamed && m.transferred == old(m).transferred
    {
      hide Inv, Run, Step, FinishError, Transition, ValidRequest;
      Tokens();
      total := 0;
      var prepared: bool, e: TransferError := *, *;
      files := *;
      PrepareSteps(m, files, e);
      PrepareSteps(m, files, Prepare);
      if !prepared {
        var possible := (e == TransferError.Canceled ==> cancelled) && (e == ShuttingDown ==> shutdown);
        failure := Some(if possible then e else Prepare);
        Take(PrepareFailed(failure.value));
        return;
      }
      Take(Prepared(files));
      if files == [] {
        return Some(Prepare), files, total;
      }
      var sum := SumSizes(files);
      if sum.None? {
        return Some(Prepare), files, total;
      }
      total := sum.value;
      var fault := ValidateTransferRequest(id, files, total);
      if fault.Some? {
        return Some(Protocol), files, total;
      }
      tracker.SetFiles(total);
      tracker.ChangePhase(Requesting);
      failure := None;
    }

    /** Connection and trust. */
    method ConnectAndTrust() returns (failure: Option<TransferError>)
      requires Synced() && m.pc == CheckBeforeConnect
      modifies this`cancelled, this`shutdown, this`m, this`trace
      ensures SameBatch(old(m), m)
      ensures if failure.None? then Synced() && m.pc == WriteRequest else Failing(failure.value)
    {
      hide Inv, Run, Step, FinishError;
      Tokens();
      CheckStep(m);
      failure := CheckCancelled();
      Take(CheckPoint);
      if failure.Some? {
        return;
      }
      failure := OutsideFailure();
      ConnectSteps(m, failure);
      Take(Connected(failure));
      if failure.Some? {
        return;
      }
      failure := OutsideFailure();
      ConnectSteps(m, failure);
      Take(TrustSettled(failure));
    }

    /** What code outside this model may report: any error, but a token only when it is set. */
    method OutsideFailure() returns (failure: Option<TransferError>)
      requires Synced() && !m.pc.Ended?
      modifies this`cancelled, this`shutdown, this`m, this`trace
      ensures Synced() && Resumed(old(m), m) && m.monitor == old(m).monitor
      ensures failure.Some? ==> CanObserve(m, failure.value)
    {
      hide Inv, Run, Step;
      Tokens();
      failure := *;
      match failure {
        case None =>
        case Some(e) =>
          if (e == TransferError.Canceled && !cancelled) || (e == ShuttingDown && !shutdown) {
            failure := Some(Connection);
          }
      }
    }

    /** The request is written. */
    method SendRequest(files: seq<TransferFile>, total: u64) returns (failure: Option<TransferError>)
      requires Synced() && m.pc == WriteRequest && m.files == files && m.total == total
      modifies this, tracker
      ensures SameBatch(old(m), m)
      ensures if failure.None? then Synced() && m.pc == AwaitDecision else Failing(failure.value)
    {
      hide Inv, Run, Step, FinishError, Transition, IsWireError;
      failure := OutsideFailure();
      ConnectionIsWireError();
      var ok: bool;
      ghost var arrived;
      ok, arrived := WriteFrame(Control(TransferRequest(id, files, total)));
      if ok {
        failure := None;
      } else if failure.None? || !IsWireError(failure.value) {
        failure := Some(Connection);
      }
      RequestStep(m, failure, arrived);
      Take(RequestWritten(failure, arrived));
      if failure.None? {
        tracker.ChangePhase(WaitingForAcceptance);
      }
    }

    /** One frame, or the error that took its place, while waiting for the decision. */
    method ReadDecision() returns (r: ReadOutcome, ghost was: Sender)
      requires Synced() && m.pc == AwaitDecision
      modifies this`cancelled, this`shutdown, this`m, this`trace
      ensures Traced() && Mirrors(was) && Resumed(old(m), was) && m == OnRead(was, r)
    {
      hide Inv, Run, Step, OnRead, IsWireError, DeliverableFrame;
      Tokens();
      was := m;
      var arrives: bool, f: Frame, e: TransferError := *, *, *;
      ConnectionIsWireError();
      if arrives && DeliverableFrame(f) {
        r := Got(f);
      } else {
        var possible :=
          IsWireError(e) && (e == TransferError.Canceled ==> cancelled) && (e == ShuttingDown ==> shutdown);
        r := ReadFailed(if possible then e else Timeout);
      }
      ReadStep(m, r);
      Take(Read(r));
    }

    /** The receiver's decision; an accepted transfer starts the monitor. */
    method HearDecision() returns (r: Result<bool, TransferError>)
      requires Synced() && m.pc == AwaitDecision
      modifies this, tracker
      ensures SameBatch(old(m), m)
      ensures r == Ok(true) ==> Synced() && m.pc == Ready(Control(FileStart(id, 0)))
      ensures r == Ok(false) ==> Synced() && m.pc == Ended(TurnedDown)
      ensures r.Err? ==>
                if r.error == TransferError.Canceled then Synced() && m.pc == Withdraw(r.error) else Failing(r.error)
    {
      hide Inv, Run, Step, FinishError, Transition;
      var outcome: ReadOutcome;
      ghost var was;
      outcome, was := ReadDecision();
      match outcome {
        case ReadFailed(e) => r := Err(e);
        case Got(Control(TransferDecision(decisionId, accepted, reason))) =>
          if decisionId != id {
            return Err(InvalidPeerResponse(DecisionIdMismatch));
          }
          if !accepted {
            tracker.ChangePhase(if reason == Some(CancelledText) then CanceledPhase else Rejected);
            return Ok(false);
          }
          tracker.ChangePhase(Phase.Accepted);
          tracker.ChangePhase(Transferring);
          monitor := Watching;
          r := Ok(true);
        case Got(Control(ProtocolError)) => r := Err(RemoteFailure);
        case Got(Control(_)) => r := Err(InvalidPeerResponse(ExpectedDecision));
        case Got(Data(_)) => r := Err(InvalidPeerResponse(ExpectedControl));
      }
    }

    // ----- the whole run -------------------------------------------------

    /** After a local cancellation the receiver is told. */
    method TellAndFail(e: TransferError)
      requires Synced() && m.pc == Withdraw(e)
      modifies this`sent, this`m, this`trace
      ensures Failing(e)
    {
      hide Inv, Run, Step, FinishError;
      var ok: bool;
      ghost var arrived := false;
      if e == TransferError.Canceled {
        ok, arrived := WriteFrame(Control(Cancel(id)));
      }
      WithdrawStep(m, e, arrived);
      Take(Withdrawn(arrived));
    }

    /** From the request to the decision. */
    method Negotiate() returns (r: Result<bool, TransferError>, files: seq<TransferFile>, total: u64)
      requires Synced() && m.pc == PrepareFiles && m.streamed == [] && m.transferred == 0
      modifies this, tracker
      ensures r == Ok(true) ==>
                && Synced() && m.pc == Ready(Control(FileStart(id, 0))) && m.streamed == [] && m.transferred == 0
                && m.files == files && m.total == total && |files| > 0
      ensures r == Ok(false) ==> Synced() && m.pc == Ended(TurnedDown)
      ensures r.Err? ==> Failing(r.error)
    {
      hide Inv, Run, Step, Mirrors, Traced, Failing;
      var failure: Option<TransferError>;
      failure, files, total := PrepareBatch();
      if failure.Some? {
        return Err(failure.value), files, total;
      }
      failure := ConnectAndTrust();
      if failure.Some? {
        return Err(failure.value), files, total;
      }
      failure := SendRequest(files, total);
      if failure.Some? {
        return Err(failure.value), files, total;
      }
      r := HearDecision();
      if r == Err(TransferError.Canceled) {
        TellAndFail(r.error);
      }
    }

    /** `send_files`. */
    method SendFiles() returns (outcome: Outcome)
      requires Synced() && m.pc == PrepareFiles && m.streamed == [] && m.transferred == 0
      modifies this, tracker
      ensures if outcome.Aborted? then Failing(outcome.error) else Synced() && m.pc == Ended(outcome)
    {
      hide Inv, Run, Step, Mirrors, Traced, Failing;
      var r: Result<bool, TransferError>, files: seq<TransferFile>, total: u64;
      r, files, total := Negotiate();
      match r {
        case Err(e) => return Aborted(e);
        case Ok(false) => return TurnedDown;
        case Ok(true) =>
      }
      var failure := SendBatch(files, total);
      if failure.None? {
        failure := AwaitOutcome(total);
      }
      if failure.Some? {
        TellAndFail(failure.value);
        return Aborted(failure.value);
      }
      outcome := Succeeded;
    }

    /**
     `run_outgoing`: the run ends, the interface sees exactly one end, and after a success the
     frames sent spell exactly the streamed files and their completion.
     */
    method RunOutgoing() returns (outcome: Outcome)
      requires Synced() && m == Initial(id)
      modifies this, tracker
      ensures Synced() && m.pc == Ended(outcome)
      ensures EndsOnce(tracker.emitted) && !tracker.refused
      ensures outcome == Succeeded ==>
                |m.streamed| == |m.files| && Parse(sent) == Parsed(m.streamed, None, true)
    {
      hide Inv, Run, Step, FinishError, EndsOnce, GoodHistory, Parse;
      outcome := SendFiles();
      if outcome.Aborted? {
        tracker.Finish(outcome.error);
      }
      SnapshotsOf(m);
      WhatSuccessMeans(m);
    }
  }

  /** The checked sum of the prepared sizes. */
  method SumSizes(files: seq<TransferFile>) returns (total: Option<u64>)
    ensures total == if TotalSize(files) < U64_LIMIT then Some(TotalSize(files)) else None
  {
    var sum: u64 := 0;
    for i := 0 to |files|
      invariant sum == TotalSize(files[..i])
    {
      TotalSizeStep(files, i);
      TotalSizeMonotone(files, i + 1);
      if sum + files[i].size >= U64_LIMIT {
        return None;
      }
      sum := sum + files[i].size;
    }
    assert files[..|files|] == files;
    total := Some(sum);
  }

  lemma ConnectionIsWireError()
    ensures IsWireError(Connection) && !IsCancelled(Connection) && IsWireError(Timeout)
  {
  }
}

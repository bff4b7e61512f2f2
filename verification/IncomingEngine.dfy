/**
 The receiving engine as the source runs it: one object with its staged files, its tracker and
 its directory, loops over files and frames, and early returns through the clean-up. A ghost
 copy of the step machine takes one step for each outcome; the object mirrors it, so everything
 proved of the machine's runs holds of what the engine does.
 */
module IncomingEngine {
  import opened Wrappers
  import opened Wire
  import opened Lifecycle
  import opened CollisionNames
  import opened Receiver
  import opened ReceiverSafety
  import opened ReceiveFolder
  import ReceiverAnswers
  import ReceiverTheorems

  ghost predicate Distinct(names: seq<string>)
  {
    forall i, j :: 0 <= i < j < |names| ==> names[i] != names[j]
  }

  /** What a suspension may change. */
  ghost predicate Resumed(was: Receiver, now: Receiver)
  {
    now == was.(folder := now.folder, cancelled := now.cancelled, shutdown := now.shutdown)
  }

  /** The batch and what was received of it. */
  ghost predicate SameBatch(r: Receiver, s: Receiver)
  {
    && s.id == r.id && s.files == r.files && s.total == r.total
    && s.got == r.got && s.used == r.used && s.transferred == r.transferred
  }

  lemma EnvironmentSteps(p: Policy, r: Receiver)
    ensures Admitted(r) ==> Step(p, r, CancelRequested) == r.(cancelled := true)
    ensures Step(p, r, ShutdownRequested) == r.(shutdown := true)
  {
  }

  lemma ForeignStep(p: Policy, r: Receiver, added: map<string, Bytes>)
    requires Addable(r.folder, Temporaries(r.staged), added)
    ensures Step(p, r, ForeignFiles(added)) == r.(folder := Plus(r.folder, added))
  {
  }

  lemma ReadStep(p: Policy, r: Receiver, o: ReadOutcome)
    ensures o.Got? && DeliverableFrame(o.frame) ==> Step(p, r, Read(o)) == OnGot(r, o.frame)
    ensures o.ReadFailed? && IsWireError(o.error) && CanObserve(r, o.error) ==>
              Step(p, r, Read(o)) == OnReadFailed(r, o.error)
  {
    hide OnGot, OnReadFailed;
  }

  lemma PlainWireErrors()
    ensures IsWireError(Protocol) && IsWireError(Connection)
  {
  }

  lemma NameStep(p: Policy, r: Receiver, index: nat)
    requires r.pc.ChooseName? && |r.got| < |r.files|
    ensures Step(p, r, NameChosen(index)) == OnNameChosen(p, r, index)
  {
    hide OnNameChosen;
  }

  lemma NamesStep(p: Policy, r: Receiver)
    requires r.pc.ChooseName?
    ensures Step(p, r, NamesExhausted) == r.(pc := CleanUp(Destination))
  {
  }

  lemma StageStep(p: Policy, r: Receiver, path: string, failure: Option<TransferError>)
    requires r.pc == CreateStage(path) && |r.got| < |r.files| && (failure.Some? ==> IsFileError(failure.value))
    ensures Step(p, r, StageCreated(failure)) == OnStageCreated(r, path, failure)
  {
    hide OnStageCreated;
  }

  lemma ChunkStep(
    p: Policy, r: Receiver, data: Bytes, written: nat, failure: Option<TransferError>, clock: Clock)
    requires r.pc == WriteChunk(data) && r.staged != [] && (failure.Some? ==> IsFileError(failure.value))
    ensures Step(p, r, ChunkWritten(written, failure, clock)) == OnChunkWritten(r, data, written, failure, clock)
  {
    hide OnChunkWritten;
  }

  /** What flushing a file can fail with. */
  const FLUSH_ERRORS: set<TransferError> := {Destination, DiskFull, Timeout, TransferError.Canceled, ShuttingDown}

  lemma FlushErrors(r: Receiver, e: TransferError)
    requires IsFlushError(r, e)
    ensures e in FLUSH_ERRORS
  {
  }

  lemma AcceptedDigest(expected: string, actual: string)
    ensures DigestMatches(expected, actual) <==> SameDigest(expected, actual)
  {
    hide DigestMatches;
    DigestsCompared(expected, actual);
  }

  lemma FlushStep(p: Policy, r: Receiver, failure: Option<TransferError>)
    requires r.pc.Flush? && |r.got| < |r.files| && (failure.Some? ==> IsFlushError(r, failure.value))
    ensures Step(p, r, Flushed(failure)) == OnFlushed(p, r, failure)
  {
    hide OnFlushed;
  }

  lemma CountStep(p: Policy, r: Receiver, clock: Clock)
    requires r.pc.CountAll?
    ensures Step(p, r, Counted(clock)) == OnCounted(r, clock)
  {
    hide OnCounted;
  }

  predicate AtCheck(pc: Pc) { pc.AllReceived? || pc.BeginFinalize? || pc.ConfirmAll? || pc.ConfirmLast? }

  function AfterCheck(pc: Pc): Pc
  {
    match pc
    case AllReceived => BeginFinalize
    case BeginFinalize => Finalize
    case ConfirmAll => ConfirmLast
    case _ => WriteResult
  }

  /** The phase that a passed test announces. */
  function PhaseAfterCheck(pc: Pc): Option<Phase>
  {
    match pc
    case AllReceived => Some(Verifying)
    case ConfirmAll => Some(Completing)
    case _ => None
  }

  lemma CheckStep(p: Policy, r: Receiver)
    requires AtCheck(r.pc)
    ensures CancelledBy(r).Some? ==> Step(p, r, CheckPoint) == r.(pc := CleanUp(CancelledBy(r).value))
    ensures CancelledBy(r).None? ==>
              Step(p, r, CheckPoint) == r.(
                pc := AfterCheck(r.pc),
                used := if r.pc.AllReceived? then FinalKeys(p, r.staged) else r.used,
                tracker := if PhaseAfterCheck(r.pc).Some? then Transition(r.tracker, PhaseAfterCheck(r.pc).value)
                           else r.tracker)
  {
    hide FinalKeys, Transition;
  }

  /** The next staging file is there, and its reserved path's key is claimed. */
  lemma Staging(p: Policy, r: Receiver, index: nat)
    requires Inv(p, r) && r.pc == Finalize && |r.finalized| == index < |r.staged|
    ensures r.staged[index].temporary in r.folder.files && r.staged[index].temporary in Temporaries(r.staged)
    ensures p.key(r.staged[index].finalPath) in r.used
  {
    hide Shape, Books, FolderInv, KeysDistinct;
  }

  lemma FinalizedDistinct(p: Policy, r: Receiver)
    requires Inv(p, r) && Active(r.pc)
    ensures Distinct(r.finalized)
  {
    hide Shape, Books, FolderInv, KeysInv;
  }

  lemma FinalizeFailedStep(
    p: Policy, was: Receiver, r: Receiver, e: TransferError, copy: Option<string>,
    added: map<string, Bytes>, now: Folder)
    requires r == was.(folder := Plus(was.folder, added)) && r.pc == Finalize && |r.finalized| < |r.staged|
    requires FinalizeFailure(was.folder, now, r.staged[|r.finalized|].temporary, e, copy, added)
    ensures var s := Step(p, r, FinalizeFailed(e, copy));
            && s == r.(pc := CleanUp(e), folder := now, leftover := s.leftover)
            && (s.leftover ==> r.leftover || copy.Some?)
  {
    hide Plus;
  }

  lemma FinalizedStep(
    p: Policy, was: Receiver, r: Receiver, moved: Staged, variant: Option<nat>, reserved: set<string>,
    added: map<string, Bytes>, now: Folder)
    requires Inv(p, was) && was.pc == Finalize && |was.finalized| < |was.staged|
    requires r == was.(folder := Plus(was.folder, added))
    requires FinalizedTo(p, was.folder, now, was.staged[|was.finalized|], was.used, moved, variant, reserved, added)
    ensures moved == was.staged[|was.finalized|].(finalPath := moved.finalPath)
    ensures var i := |r.finalized|;
            Step(p, r, FileFinalized(variant, reserved)) == r.(
              folder := now, staged := r.staged[i := moved], used := r.used + reserved,
              finalized := r.finalized + [moved.finalPath],
              pc := if i + 1 == |r.staged| then ConfirmAll else BeginFinalize)
  {
    hide Inv, Plus, Candidate, Without;
    Staging(p, was, |was.finalized|);
    assert r.used + reserved + {p.key(moved.finalPath)} == r.used + reserved;
  }

  lemma CleanedUpStep(p: Policy, r: Receiver, e: TransferError, kept: set<string>)
    requires r.pc == CleanUp(e)
    ensures Step(p, r, CleanedUp(kept)) ==
            r.(folder := Removed(r.folder, Temporaries(r.staged) - kept), leftover := r.leftover || kept != {},
               pc := RollBack(e))
  {
    hide Temporaries, Without;
  }

  lemma RolledBackStep(p: Policy, r: Receiver, e: TransferError, kept: set<string>)
    requires r.pc == RollBack(e)
    ensures Step(p, r, RolledBack(kept)) ==
            r.(folder := Removed(r.folder, NameSet(r.finalized) - kept), leftover := r.leftover || kept != {},
               pc := Report(e))
  {
    hide NameSet, Without;
  }

  /** What is rolled back is still there, unless clean-up took it under its staging name. */
  lemma RollBackReady(p: Policy, r: Receiver, e: TransferError)
    requires Inv(p, r) && r.pc == RollBack(e)
    ensures forall i :: 0 <= i < |r.finalized| ==>
              r.finalized[i] in r.folder.files || r.finalized[i] in Temporaries(r.staged)
  {
    hide Shape, Books, ContentInv, KeysInv, Temporaries;
    forall i | 0 <= i < |r.finalized|
      ensures r.finalized[i] in r.folder.files || r.finalized[i] in Temporaries(r.staged)
    {
      assert r.finalized[i] in NameSet(r.finalized);
    }
  }

  lemma ReportStep(p: Policy, r: Receiver, e: TransferError, c: bool, d: bool)
    requires r.pc == Report(e)
    ensures Step(p, r, FailureReported(c, d)) ==
            r.(sent := r.sent
                       + (if e == TransferError.Canceled && c then [Control(Cancel(r.id))] else [])
                       + (if d then [Control(TransferResult(r.id, false, Some(ErrorText(e))))] else []),
               pc := Ended(Aborted(e)), tracker := FinishError(r.tracker, e))
  {
    hide FinishError;
  }

  lemma AnswerStep(p: Policy, r: Receiver, answer: Answer)
    requires r.pc.AwaitDecision?
    ensures Step(p, r, Answered(answer)) == OnAnswer(r, answer)
  {
    hide OnAnswer;
  }

  /** The error that an answer comes to, if it is no verdict. */
  function AnswerError(r: Receiver, answer: Answer): Option<TransferError>
  {
    if r.shutdown then Some(ShuttingDown)
    else if r.cancelled then Some(TransferError.Canceled)
    else if answer.Dropped? then Some(AppUnavailable)
    else None
  }

  lemma AnswerOutcome(r: Receiver, answer: Answer)
    ensures match AnswerError(r, answer)
            case None => OnAnswer(r, answer) ==
                         r.(pc := WriteDecision(if answer.Yes? then Accept else Decline(DeclinedText)))
            case Some(e) =>
              OnAnswer(r, answer) ==
              if e == TransferError.Canceled
              then r.(pc := WriteNotice(TransferDecision(r.id, false, Some(CancelledText)), Aborted(e)))
              else r.(pc := Ended(Aborted(e)), tracker := FinishError(r.tracker, e))
  {
    hide FinishError;
  }

  lemma DeadlineStep(p: Policy, r: Receiver)
    requires r.pc.AwaitDecision?
    ensures Step(p, r, DeadlinePassed) == r.(pc := WriteDecision(Decline(ExpiredText)))
  {
  }

  lemma NothingShownYet(p: Policy, r: Receiver)
    requires Inv(p, r) && r.pc.AwaitAdmission?
    ensures r.tracker == NewTracker(WaitingForAcceptance)
  {
    hide Shape, Places, CountInv, LogInv, SentInv;
  }

  lemma AdmissionStep(p: Policy, r: Receiver)
    requires r.pc.AwaitAdmission?
    ensures Step(p, r, Admission(true)) ==
            r.(pc := AwaitAnnouncement, tracker := Emit(SetTotal(NewTracker(WaitingForAcceptance), r.total)))
  {
    hide Emit, SetTotal, NewTracker;
  }

  lemma AnnouncedStep(p: Policy, r: Receiver, shown: bool)
    requires r.pc.AwaitAnnouncement?
    ensures Step(p, r, Announced(shown)) ==
            if shown then r.(pc := AwaitDecision)
            else r.(pc := WriteNotice(ProtocolError, Aborted(AppUnavailable)),
                    tracker := FinishError(r.tracker, AppUnavailable))
  {
    hide FinishError;
  }

  lemma NoticeStep(p: Policy, r: Receiver, delivered: bool)
    requires r.pc.WriteNotice?
    ensures Step(p, r, NoticeWritten(delivered)) ==
            r.(sent := if delivered then r.sent + [Control(r.pc.notice)] else r.sent, pc := Ended(r.pc.after),
               tracker := if r.pc.after.Aborted? then FinishError(r.tracker, r.pc.after.error) else r.tracker)
  {
    hide FinishError;
  }

  /** A failed announcement has already shown its end. */
  lemma FinishedStays(p: Policy, r: Receiver, e: TransferError)
    requires Inv(p, r) && !NotAdmitted(r.pc)
    ensures FinishError(FinishError(r.tracker, e), e) == FinishError(r.tracker, e)
  {
    hide Shape, Places, CountInv, LogInv, SentInv;
    FinishErrorSound(r.tracker, e);
    FinishErrorSound(FinishError(r.tracker, e), e);
  }

  lemma DecisionStep(p: Policy, r: Receiver, ok: bool, delivered: bool)
    requires r.pc.WriteDecision?
    ensures var decision := Control(if r.pc.verdict.Accept? then TransferDecision(r.id, true, None)
                                    else TransferDecision(r.id, false, Some(r.pc.verdict.reason)));
            var said := r.(sent := if ok || delivered then r.sent + [decision] else r.sent);
            Step(p, r, DecisionWritten(ok, delivered)) ==
            if !ok then said.(pc := Ended(Aborted(Connection)), tracker := FinishError(r.tracker, Connection))
            else if r.pc.verdict.Accept?
            then said.(pc := CheckFolder,
                       tracker := Transition(Transition(r.tracker, Phase.Accepted), Transferring))
            else said.(pc := Ended(Declined), tracker := Transition(r.tracker, Rejected))
  {
    hide FinishError, Transition;
  }

  lemma FolderStep(p: Policy, r: Receiver, available: bool)
    requires r.pc.CheckFolder?
    ensures Step(p, r, FolderChecked(available)) == r.(pc := if available then AwaitFile else CleanUp(Destination))
  {
  }

  lemma NothingYet(p: Policy, r: Receiver)
    requires Inv(p, r) && r.pc.CheckFolder?
    ensures r.got == [] && r.used == {} && r.transferred == 0
  {
    hide ValidRequest, Places, Books;
  }

  lemma ResultSteps(p: Policy, r: Receiver, delivered: bool)
    requires r.pc.WriteResult?
    ensures Step(p, r, ResultWritten(delivered)) ==
            r.(sent := if delivered then r.sent + [Control(TransferResult(r.id, true, None))] else r.sent,
               pc := SettleResult)
  {
  }

  lemma SettledStep(p: Policy, r: Receiver)
    requires r.pc.SettleResult?
    ensures Step(p, r, ResultSettled) == r.(pc := Ended(Succeeded), tracker := Transition(r.tracker, Phase.Completed))
  {
    hide Transition;
  }

  lemma TrustStep(p: Policy, r: Receiver, refusal: Option<TransferError>)
    requires r.pc.AwaitTrust?
    ensures Step(p, r, TrustSettled(refusal)) ==
            r.(pc := if refusal.None? then AwaitAdmission else Ended(NoTransfer(refusal.value)))
  {
  }

  lemma RefusalStep(p: Policy, r: Receiver)
    requires r.pc.AwaitAdmission?
    ensures Step(p, r, Admission(false)) ==
            r.(pc := WriteNotice(TransferDecision(r.id, false, Some(BusyText)), Busy))
  {
  }

  lemma InvariantFolder(p: Policy, r: Receiver)
    requires Inv(p, r)
    ensures ForeignIntact(r.folder)
  {
    hide Shape, ContentInv, KeysInv, Books, ForeignIntact;
  }

  lemma DeliveredKeys(p: Policy, r: Receiver)
    requires ReceiverTheorems.Delivered(p, r)
    ensures r.folder.files.Keys == r.folder.foreign.Keys + NameSet(r.finalized)
  {
    hide NameSet, DigestMatches;
  }

  /** The theorems about the machine, at the end of a run. */
  lemma WhatEndMeans(p: Policy, r: Receiver, outcome: Outcome)
    requires Inv(p, r) && r.pc == Ended(outcome)
    ensures ForeignIntact(r.folder)
    ensures outcome.Succeeded? ==>
              ReceiverTheorems.Delivered(p, r) && r.folder.files.Keys == r.folder.foreign.Keys + NameSet(r.finalized)
    ensures !outcome.Succeeded? && !r.leftover ==> r.folder.files == r.folder.foreign
    ensures if outcome.NoTransfer? || outcome.Busy? then r.tracker.emitted == [] else EndsOnce(r.tracker.emitted)
  {
    hide Inv, ReceiverTheorems.Delivered, NameSet, ForeignIntact, EndsOnce, GoodHistory;
    InvariantFolder(p, r);
    ReceiverTheorems.SnapshotsOf(p, r);
    if outcome.Succeeded? {
      ReceiverTheorems.CommittedIsDelivered(p, r);
      DeliveredKeys(p, r);
    } else if !r.leftover {
      ReceiverTheorems.EndedFolder(p, r);
    }
  }

  lemma WhatWasSaid(p: Policy, found: map<string, Bytes>, events: seq<Event>, outcome: Outcome)
    requires Run(p, Initial(found), events).pc == Ended(outcome)
    ensures ReceiverAnswers.SentAtEnd(
              Run(p, Initial(found), events).sent, Run(p, Initial(found), events).id, outcome)
    ensures outcome.Succeeded? ==> ReceiverAnswers.Decided(p, found, events, Yes)
  {
    hide Run, Initial, ReceiverAnswers.SentAtEnd, ReceiverAnswers.Decided;
    ReceiverAnswers.RunKeepsSent(p, found, events);
    ReceiverAnswers.RunJustified(p, found, events);
  }

  /** The attempts of a clean-up followed by those of a roll-back. */
  ghost predicate CleanUpThenRollBack(
    staged: seq<Staged>, finalized: seq<string>, before: seq<Attempt>, after: seq<Attempt>)
  {
    exists first, second ::
      CleanupRun(staged, first) && RollbackRun(finalized, second) && after == before + first + second
  }

  lemma StillRefused(before: seq<Attempt>, after: seq<Attempt>)
    requires before <= after
    ensures Refused(before) ==> Refused(after)
  {
    hide Refused;
    assert after == before + after[|before|..];
    RefusedAppend(before, after[|before|..]);
  }

  lemma LastRefused(log: seq<Attempt>)
    requires log != [] && !log[|log| - 1].ok
    ensures Refused(log)
  {
  }

  /** One frame while a file is open: its data, its end, or a reason to stop. */
  method StreamFrame(ghost r: Receiver, f: Frame, id: string, index: nat, size: nat, received: nat)
    returns (failure: Option<TransferError>, chunk: Option<Bytes>, receivedNow: nat)
    requires DeliverableFrame(f) && r.id == id && |r.got| == index < |r.files|
    requires r.received == received && r.files[index].size == size
    ensures failure.Some? ==>
              var s := OnStreamFrame(r, f); s == r.(received := s.received, pc := CleanUp(failure.value))
    ensures failure.None? && chunk.None? ==> receivedNow == received && OnStreamFrame(r, f) == r.(pc := Flush)
    ensures failure.None? && chunk.Some? ==>
              && receivedNow == received + |chunk.value| <= size && chunk.value != []
              && OnStreamFrame(r, f) == r.(received := receivedNow, pc := WriteChunk(chunk.value))
  {
    failure, chunk, receivedNow := None, None, received;
    match f {
      case Data(data) =>
        if received + |data| >= U64_LIMIT {
          failure := Some(InvalidPeerResponse(FileSizeOverflow));
        } else if received + |data| > size {
          failure := Some(InvalidPeerResponse(FileTooLong));
        } else {
          receivedNow, chunk := received + |data|, Some(data);
        }
      case Control(FileEnd(endId, endIndex)) =>
        if endId != id || endIndex != index {
          failure := Some(InvalidPeerResponse(InvalidDuringFile));
        }
      case Control(Cancel(cancelId)) =>
        failure := Some(if cancelId == id then RemoteCanceled else InvalidPeerResponse(InvalidDuringFile));
      case Control(_) => failure := Some(InvalidPeerResponse(InvalidDuringFile));
    }
  }

  class IncomingEngine {
    const p: Policy
    const tracker: TransferTracker
    const directory: Directory
    var cancelled: bool
    var shutdown: bool
    var staged: seq<Staged>
    var finalized: seq<string>
    var sent: seq<Frame>             // what reached the connection
    ghost const present: map<string, Bytes>
    ghost var m: Receiver
    ghost var trace: seq<Event>

    /** The machine has taken exactly the steps of the trace. */
    ghost predicate Traced()
      reads this
    {
      m == Run(p, Initial(present), trace) && Inv(p, m)
    }

    /** The object is in machine state `r`, but for the program point. */
    ghost predicate Mirrors(r: Receiver)
      reads this, tracker, directory
    {
      && r.tracker == tracker.State() && r.folder == directory.Now()
      && r.cancelled == cancelled && r.shutdown == shutdown
      && r.staged == staged && r.finalized == finalized && r.sent == sent
      && directory.guarded == Temporaries(staged) && Distinct(finalized)
      && (r.leftover ==> Refused(directory.attempts))
    }

    ghost predicate Synced()
      reads this, tracker, directory
    {
      Traced() && Mirrors(m)
    }

    constructor (policy: Policy, found: map<string, Bytes>)
      ensures fresh(tracker) && fresh(directory)
      ensures Synced() && m == Initial(found) && present == found && p == policy && trace == []
    {
      p := policy;
      tracker := new TransferTracker(WaitingForAcceptance);
      directory := new Directory(found);
      cancelled, shutdown, staged, finalized, sent := false, false, [], [], [];
      present, m, trace := found, Initial(found), [];
      new;
      hide Inv, Refused;
      InitialInvariant(policy, found);
    }

    // ----- the machine beside the engine --------------------------------

    ghost method Take(e: Event)
      requires Traced()
      modifies this`m, this`trace
      ensures Traced() && m == Step(p, old(m), e) && trace == old(trace) + [e]
    {
      hide Inv, Step, Initial, Refused;
      StepKeepsInvariant(p, m, e);
      assert (trace + [e])[..|trace|] == trace;
      m, trace := Step(p, m, e), trace + [e];
    }

    /** Other processes added files. */
    ghost method Absorb(added: map<string, Bytes>)
      requires Traced() && Addable(m.folder, Temporaries(m.staged), added)
      modifies this`m, this`trace
      ensures Traced() && m == old(m).(folder := Plus(old(m).folder, added))
    {
      hide Inv, Run, Step, Addable, Plus, Temporaries, Distinct, Refused;
      ForeignStep(p, m, added);
      Take(ForeignFiles(added));
    }

    /** A suspension point: other processes run, and the tokens may be set. */
    method Suspend(registered: bool)
      requires Synced() && (registered ==> Admitted(m))
      modifies this`cancelled, this`shutdown, this`m, this`trace, directory`files, directory`foreign
      ensures Synced() && Resumed(old(m), m)
    {
      hide Inv, Run, Step, Addable, Plus, Temporaries, Distinct, Refused;
      ghost var added := directory.Interfere();
      Absorb(added);
      var cancel: bool, stop: bool := *, *;
      EnvironmentSteps(p, m);
      if cancel && registered {
        cancelled := true;
        Take(CancelRequested);
        EnvironmentSteps(p, m);
      }
      if stop {
        shutdown := true;
        Take(ShutdownRequested);
      }
    }

    /** One frame, or the error that took its place. */
    method ReadFrame(registered: bool) returns (r: ReadOutcome, ghost was: Receiver)
      requires Synced() && (registered ==> Admitted(m))
      modifies this`cancelled, this`shutdown, this`m, this`trace, directory`files, directory`foreign
      ensures Traced() && Mirrors(was) && Resumed(old(m), was)
      ensures m == if r.Got? then OnGot(was, r.frame) else OnReadFailed(was, r.error)
      ensures r.Got? ==> DeliverableFrame(r.frame)
      ensures r.ReadFailed? ==> IsWireError(r.error)
    {
      hide Inv, Run, Step, OnGot, OnReadFailed, DeliverableFrame, Temporaries, Distinct, Refused;
      Suspend(registered);
      was := m;
      var arrives: bool, f: Frame, e: TransferError := *, *, *;
      if arrives {
        r := if DeliverableFrame(f) then Got(f) else ReadFailed(Protocol);
      } else {
        var shown := IsWireError(e) && (e == TransferError.Canceled ==> cancelled) && (e == ShuttingDown ==> shutdown);
        r := ReadFailed(if shown then e else Connection);
      }
      PlainWireErrors();
      ReadStep(p, m, r);
      Take(Read(r));
    }

    /** A control message: it may fail, and even then it may have arrived. */
    method WriteControl(message: Message) returns (ok: bool, ghost arrived: bool)
      modifies this`sent
      ensures ok ==> arrived
      ensures sent == if arrived then old(sent) + [Control(message)] else old(sent)
    {
      var lost: bool, failed: bool := *, *;
      if lost {
        return false, false;
      }
      sent := sent + [Control(message)];
      return !failed, true;
    }

    // ----- receive_files -------------------------------------------------

    /** The start of the next file. */
    method AwaitFileStart(id: string, index: nat) returns (failure: Option<TransferError>)
      requires Synced() && m.pc.AwaitFile? && m.id == id && |m.got| == index
      modifies this`cancelled, this`shutdown, this`m, this`trace, directory`files, directory`foreign
      ensures Synced() && SameBatch(old(m), m)
      ensures m.pc == if failure.None? then ChooseName else CleanUp(failure.value)
    {
      hide Inv, Run, Step, DeliverableFrame, IsWireError, Temporaries, Distinct, Refused;
      var r: ReadOutcome;
      ghost var was;
      r, was := ReadFrame(true);
      match r {
        case ReadFailed(e) => failure := Some(e);
        case Got(Control(FileStart(startId, startIndex))) =>
          failure := if startId == id && startIndex == index then None else Some(InvalidPeerResponse(OutOfOrder));
        case Got(Control(Cancel(cancelId))) =>
          failure := Some(if cancelId == id then RemoteCanceled else InvalidPeerResponse(ExpectedNextFile));
        case Got(Control(_)) => failure := Some(InvalidPeerResponse(ExpectedNextFile));
        case Got(Data(_)) => failure := Some(InvalidPeerResponse(ExpectedControl));
      }
    }

    /** The destination path and its key are reserved. */
    method ReservePath(name: string, used: set<string>) returns (path: Option<string>, usedNow: set<string>)
      requires Synced() && m.pc.ChooseName? && |m.got| < |m.files|
      requires name == m.files[|m.got|].name && used == m.used
      modifies this`m, this`trace, directory`files, directory`foreign
      ensures Synced() && SameBatch(old(m).(used := usedNow), m)
      ensures m.pc == if path.Some? then CreateStage(path.value) else CleanUp(Destination)
    {
      hide Inv, Run, Step, Candidate, Addable, Plus, Temporaries, Distinct, Refused;
      ghost var index, added;
      path, usedNow, index, added := directory.AvailableDestinationPath(p, name, used);
      Absorb(added);
      if path.Some? {
        NameStep(p, m, index);
        Take(NameChosen(index));
      } else {
        NamesStep(p, m);
        Take(NamesExhausted);
      }
    }

    /** The staging file is created and remembered. */
    method OpenStage(id: string, index: nat, name: string, path: string) returns (failure: Option<TransferError>)
      requires Synced() && m.pc == CreateStage(path) && |m.got| == index < |m.files|
      requires id == m.id && name == m.files[index].name
      modifies this`cancelled, this`shutdown, this`staged, this`m, this`trace, directory
      ensures Synced() && SameBatch(old(m), m)
      ensures failure.None? ==> m.pc == Stream && m.received == 0 && m.hashed == []
      ensures failure.Some? ==> m.pc == CleanUp(failure.value)
    {
      hide Inv, Run, Step, StagingName, Addable, Plus, Temporaries, Distinct, Refused;
      Suspend(true);
      var temporary := StagingName(id, index);
      failure := directory.CreateStage(temporary);
      StageStep(p, m, path, failure);
      TemporariesAppend(staged, Staged(name, temporary, path));
      if failure.None? {
        staged := staged + [Staged(name, temporary, path)];
      }
      Take(StageCreated(failure));
    }

    /** The chunk is appended to the staging file, or a part of it. */
    method AppendChunk(data: Bytes) returns (error: Option<TransferError>, ghost written: nat)
      requires Synced() && m.pc == WriteChunk(data) && staged != []
      modifies this`cancelled, this`shutdown, this`m, this`trace, directory
      ensures Traced() && Resumed(old(m), m) && Mirrors(m.(folder := directory.Now()))
      ensures error.Some? ==> written <= |data| && IsFileError(error.value)
      ensures directory.Now() == m.folder.(files := Appended(m.folder.files, staged[|staged| - 1].temporary,
                                                             if error.Some? then data[..written] else data))
    {
      hide Inv, Run, Step, Appended, Addable, Plus, IsFileError, Temporaries, Distinct, Refused;
      Suspend(true);
      error, written := directory.Append(staged[|staged| - 1].temporary, data);
    }

    /** The stored chunk is hashed, counted and reported. */
    method CountChunk(data: Bytes, hashed: Bytes, transferred: nat)
      returns (failure: Option<TransferError>, hashedNow: Bytes, transferredNow: nat)
      requires Traced() && Mirrors(m.(folder := directory.Now())) && staged != []
      requires m.pc == WriteChunk(data) && m.hashed == hashed && m.transferred == transferred
      requires directory.Now() ==
               m.folder.(files := Appended(m.folder.files, staged[|staged| - 1].temporary, data))
      modifies this`m, this`trace, tracker
      ensures Synced()
      ensures m == old(m).(pc := m.pc, folder := directory.Now(), hashed := hashedNow, transferred := transferredNow,
                           tracker := m.tracker)
      ensures m.pc == if failure.None? then Stream else CleanUp(failure.value)
    {
      hide Inv, Run, Step, Progress, Appended, Temporaries, Distinct, Refused;
      var clock: Clock := *;
      ChunkStep(p, m, data, 0, None, clock);
      Take(ChunkWritten(0, None, clock));
      hashedNow, transferredNow := hashed + data, transferred;
      if transferred + |data| >= U64_LIMIT {
        failure := Some(InvalidPeerResponse(TransferSizeOverflow));
      } else {
        transferredNow := transferred + |data|;
        tracker.Report(transferredNow, clock, false);
        failure := None;
      }
    }

    /** A chunk is stored, hashed and counted. */
    method StoreChunk(data: Bytes, hashed: Bytes, transferred: nat)
      returns (failure: Option<TransferError>, hashedNow: Bytes, transferredNow: nat)
      requires Synced() && m.pc == WriteChunk(data) && m.hashed == hashed && m.transferred == transferred
      requires staged != []
      modifies this`cancelled, this`shutdown, this`m, this`trace, directory, tracker
      ensures Synced() && SameBatch(old(m).(transferred := transferredNow), m)
      ensures failure.None? ==> m == old(m).(pc := Stream, folder := m.folder, hashed := hashedNow,
                                  transferred := transferredNow, tracker := m.tracker, cancelled := m.cancelled,
                                  shutdown := m.shutdown)
      ensures failure.Some? ==> m.pc == CleanUp(failure.value)
    {
      hide Inv, Run, Step, Appended, IsFileError, Temporaries, Distinct, Refused;
      var error: Option<TransferError>;
      ghost var written;
      error, written := AppendChunk(data);
      if error.Some? {
        var clock: Clock := *;
        ChunkStep(p, m, data, written, error, clock);
        Take(ChunkWritten(written, error, clock));
        failure := Some(if shutdown then ShuttingDown else if cancelled then TransferError.Canceled else error.value);
        hashedNow, transferredNow := hashed, transferred;
      } else {
        failure, hashedNow, transferredNow := CountChunk(data, hashed, transferred);
      }
    }

    /** One data frame of the open file, or its end, or a reason to stop. */
    method AwaitChunk(id: string, index: nat, size: nat, received: nat)
      returns (failure: Option<TransferError>, chunk: Option<Bytes>, receivedNow: nat)
      requires Synced() && m.pc == Stream && m.id == id && |m.got| == index < |m.files|
      requires m.received == received && m.files[index].size == size
      modifies this`cancelled, this`shutdown, this`m, this`trace, directory`files, directory`foreign
      ensures Synced() && SameBatch(old(m), m) && m.hashed == old(m).hashed
      ensures failure.Some? ==> m.pc == CleanUp(failure.value)
      ensures failure.None? && chunk.None? ==> m.pc == Flush && m.received == receivedNow == received
      ensures failure.None? && chunk.Some? ==>
                && m.pc == WriteChunk(chunk.value) && chunk.value != []
                && m.received == receivedNow == received + |chunk.value| <= size
    {
      hide Inv, Run, Step, OnStreamFrame, DeliverableFrame, IsWireError, Temporaries, Distinct, Refused;
      var r: ReadOutcome;
      ghost var was;
      r, was := ReadFrame(true);
      failure, chunk, receivedNow := None, None, received;
      match r {
        case ReadFailed(e) => failure := Some(e);
        case Got(f) =>
          failure, chunk, receivedNow := StreamFrame(was.(log := was.log + [f]), f, id, index, size, received);
      }
    }

    /** The chunks of one file, until its end. */
    method StreamFile(id: string, index: nat, size: nat, counted: nat)
      returns (failure: Option<TransferError>, received: nat, hashed: Bytes, transferred: nat)
      requires Synced() && m.pc == Stream && m.id == id && |m.got| == index < |m.files| && staged != []
      requires m.received == 0 && m.hashed == [] && m.files[index].size == size && m.transferred == counted
      modifies this, directory, tracker
      ensures Synced() && SameBatch(old(m).(transferred := m.transferred), m)
      ensures failure.None? ==>
                m.pc == Flush && m.received == received && m.hashed == hashed && m.transferred == transferred
      ensures failure.Some? ==> m.pc == CleanUp(failure.value)
    {
      hide Inv, Run, Step, Mirrors, Traced;
      received, hashed, transferred := 0, [], counted;
      while true
        invariant Synced() && SameBatch(old(m).(transferred := transferred), m) && m.pc == Stream && staged != []
        invariant m.received == received <= size && m.hashed == hashed
        decreases size - received
      {
        var chunk: Option<Bytes>;
        failure, chunk, received := AwaitChunk(id, index, size, received);
        if failure.Some? {
          return;
        }
        StillStaged();
        if chunk.None? {
          return;
        }
        failure, hashed, transferred := StoreChunk(chunk.value, hashed, transferred);
        if failure.Some? {
          return;
        }
        StillStaged();
      }
    }

    /** While a file is open there is a staging file. */
    lemma StillStaged()
      requires Synced() && InFile(m.pc)
      ensures staged != []
    {
      hide ValidRequest, Places, Books, Refused;
    }

    /** `flush_file`: may fail, time out, or be interrupted by a token. */
    method FlushFile() returns (failure: Option<TransferError>)
      requires Synced() && m.pc == Flush
      modifies this`cancelled, this`shutdown, this`m, this`trace, directory`files, directory`foreign
      ensures Synced() && Resumed(old(m), m)
      ensures failure.Some? ==> IsFlushError(m, failure.value)
    {
      hide Inv, Run, Step, Temporaries, Distinct, Refused;
      Suspend(true);
      var flushed: bool, e: TransferError := *, *;
      if flushed {
        return None;
      }
      var possible := IsFileError(e) || e == Timeout || (e == TransferError.Canceled && cancelled)
                      || (e == ShuttingDown && shutdown);
      failure := Some(if possible then e else Destination);
    }

    /** Flush, size and digest of the finished file. */
    method FinishFile(expected: TransferFile, received: nat, hashed: Bytes) returns (failure: Option<TransferError>)
      requires Synced() && m.pc == Flush && |m.got| < |m.files| && expected == m.files[|m.got|]
      requires m.received == received && m.hashed == hashed
      modifies this`cancelled, this`shutdown, this`m, this`trace, directory`files, directory`foreign
      ensures Synced()
      ensures SameBatch(old(m).(got := if failure.None? then old(m).got + [hashed] else old(m).got), m)
      ensures failure.None? ==> m.pc == if |m.got| == |m.files| then AwaitComplete else AwaitFile
      ensures failure.Some? ==> m.pc == CleanUp(failure.value)
      ensures failure.None? ==> received == expected.size && SameDigest(expected.sha256, p.digest(hashed))
      ensures failure.Some? && failure.value !in FLUSH_ERRORS ==>
                if received != expected.size then failure.value == InvalidPeerResponse(SizeMismatch)
                else failure.value == Verification && !SameDigest(expected.sha256, p.digest(hashed))
    {
      hide Inv, Run, Step, IsFlushError, DigestMatches, SameDigest, Temporaries, Distinct, Refused;
      AcceptedDigest(expected.sha256, p.digest(hashed));
      failure := FlushFile();
      if failure.Some? {
        FlushErrors(m, failure.value);
        FlushStep(p, m, failure);
        Take(Flushed(failure));
        return;
      }
      FlushStep(p, m, None);
      Take(Flushed(None));
      if received != expected.size {
        return Some(InvalidPeerResponse(SizeMismatch));
      }
      if !DigestMatches(expected.sha256, p.digest(hashed)) {
        return Some(Verification);
      }
      failure := None;
    }

    /** The sender's declaration that the batch is complete. */
    method AwaitCompletion(id: string, total: nat, transferred: nat) returns (failure: Option<TransferError>)
      requires Synced() && m.pc.AwaitComplete? && m.id == id && m.total == total && m.transferred == transferred
      modifies this`cancelled, this`shutdown, this`m, this`trace, directory`files, directory`foreign, tracker
      ensures Synced() && SameBatch(old(m), m)
      ensures m.pc == if failure.None? then AllReceived else CleanUp(failure.value)
    {
      hide Inv, Run, Step, DeliverableFrame, IsWireError, Progress, Temporaries, Distinct, Refused;
      var r: ReadOutcome;
      ghost var was;
      r, was := ReadFrame(true);
      match r {
        case ReadFailed(e) => failure := Some(e);
        case Got(Control(Complete(completeId))) =>
          if completeId != id {
            return Some(InvalidPeerResponse(NotCompleted));
          }
          if transferred != total {
            return Some(InvalidPeerResponse(TotalMismatch));
          }
          var clock: Clock := *;
          tracker.Report(total, clock, true);
          CountStep(p, m, clock);
          Take(Counted(clock));
          failure := None;
        case Got(Control(Cancel(cancelId))) =>
          failure := Some(if cancelId == id then RemoteCanceled else InvalidPeerResponse(NotCompleted));
        case Got(Control(_)) => failure := Some(InvalidPeerResponse(NotCompleted));
        case Got(Data(_)) => failure := Some(InvalidPeerResponse(ExpectedControl));
      }
    }

    /** One file, from its start to its digest. */
    method ReceiveFile(id: string, index: nat, expected: TransferFile, used: set<string>, counted: nat)
      returns (failure: Option<TransferError>, usedNow: set<string>, transferred: nat)
      requires Synced() && m.pc == AwaitFile && m.id == id && |m.got| == index < |m.files|
      requires m.files[index] == expected && m.used == used && m.transferred == counted
      modifies this, directory, tracker
      ensures Synced() && m.id == id && m.files == old(m).files && m.total == old(m).total
      ensures failure.None? ==>
                && m.pc == (if index + 1 == |m.files| then AwaitComplete else AwaitFile)
                && |m.got| == index + 1 && m.used == usedNow && m.transferred == transferred
      ensures failure.Some? ==> m.pc == CleanUp(failure.value)
    {
      hide Inv, Run, Step, Mirrors, Traced;
      usedNow, transferred := used, counted;
      failure := AwaitFileStart(id, index);
      if failure.Some? {
        return;
      }
      var path: Option<string>;
      path, usedNow := ReservePath(expected.name, used);
      if path.None? {
        failure := Some(Destination);
        return;
      }
      failure := OpenStage(id, index, expected.name, path.value);
      if failure.Some? {
        return;
      }
      StillStaged();
      var received: nat, hashed: Bytes;
      failure, received, hashed, transferred := StreamFile(id, index, expected.size, counted);
      if failure.Some? {
        return;
      }
      failure := FinishFile(expected, received, hashed);
    }

    /** `receive_files`. */
    method ReceiveFiles(id: string, files: seq<TransferFile>, total: nat) returns (failure: Option<TransferError>)
      requires Synced() && m.pc == AwaitFile && m.id == id && m.files == files && m.total == total
      requires m.got == [] && m.used == {} && m.transferred == 0
      modifies this, directory, tracker
      ensures Synced() && m.id == id && m.files == files && m.total == total
      ensures m.pc == if failure.None? then AllReceived else CleanUp(failure.value)
    {
      hide Inv, Run, Step, Mirrors, Traced;
      var transferred: nat, used: set<string> := 0, {};
      SomeFile();
      for index := 0 to |files|
        invariant Synced() && m.id == id && m.files == files && m.total == total
        invariant m.pc == (if index == |files| then AwaitComplete else AwaitFile)
        invariant |m.got| == index && m.used == used && m.transferred == transferred
      {
        failure, used, transferred := ReceiveFile(id, index, files[index], used, transferred);
        if failure.Some? {
          return;
        }
      }
      failure := AwaitCompletion(id, total, transferred);
    }

    /** A batch is never empty. */
    lemma SomeFile()
      requires Synced() && m.pc == AwaitFile
      ensures |m.got| < |m.files|
    {
      hide ValidRequest, Places, Books, Refused;
    }

    // ----- finalization --------------------------------------------------

    /** `check_cancelled`; a passed test may announce the next phase. */
    method CheckCancelled(next: Option<Phase>) returns (failure: Option<TransferError>)
      requires Synced() && AtCheck(m.pc) && next == PhaseAfterCheck(m.pc)
      modifies this`cancelled, this`shutdown, this`m, this`trace, directory`files, directory`foreign, tracker
      ensures Synced() && m.files == old(m).files && m.id == old(m).id
      ensures m.pc == if failure.None? then AfterCheck(old(m).pc) else CleanUp(failure.value)
      ensures failure.None? ==> m.used == if old(m).pc.AllReceived? then FinalKeys(p, staged) else old(m).used
    {
      hide Inv, Run, Step, Transition, FinalKeys, PhaseAfterCheck, AfterCheck, Temporaries, Distinct, Refused;
      Suspend(true);
      CheckStep(p, m);
      Take(CheckPoint);
      if shutdown {
        return Some(ShuttingDown);
      }
      if cancelled {
        return Some(TransferError.Canceled);
      }
      if next.Some? {
        tracker.ChangePhase(next.value);
      }
      failure := None;
    }

    /** The move itself, and what other processes added meanwhile. */
    method MoveNext(index: nat, used: set<string>)
      returns (r: Result<Staged, TransferError>, usedNow: set<string>, ghost variant: Option<nat>,
               ghost reserved: set<string>, ghost copy: Option<string>, ghost added: map<string, Bytes>)
      requires Synced() && m.pc == Finalize && |finalized| == index < |staged|
      modifies this`m, this`trace, directory
      ensures Traced() && m == old(m).(folder := Plus(old(m).folder, added)) && usedNow == used + reserved
      ensures Mirrors(m.(folder := directory.Now(), leftover := m.leftover || copy.Some?))
      ensures r.Ok? ==>
                && copy == None
                && FinalizedTo(p, old(m).folder, directory.Now(), staged[index], used, r.value, variant, reserved,
                               added)
      ensures r.Err? ==> FinalizeFailure(old(m).folder, directory.Now(), staged[index].temporary, r.error, copy, added)
    {
      hide Inv, Run, Step, Temporaries, Distinct, Addable, Plus, MovedTo, LinkedTo, Movable, Reserved, IsFileError,
        FinalizedTo, FinalizeFailure, Refused;
      Staging(p, m, index);
      r, usedNow, variant, reserved, copy, added := directory.FinalizeStagedFile(p, staged[index], used);
      Absorb(added);
      StillRefused(old(directory.attempts), directory.attempts);
      if copy.Some? {
        LastRefused(directory.attempts);
      }
    }

    /** The next staged file moves to its final name. */
    method FinalizeNext(index: nat, used: set<string>) returns (failure: Option<TransferError>, usedNow: set<string>)
      requires Synced() && m.pc == Finalize && |finalized| == index < |staged| && m.used == used
      modifies this`staged, this`finalized, this`m, this`trace, directory
      ensures Synced() && m.id == old(m).id && |staged| == old(|staged|)
      ensures failure.None? ==>
                && m.pc == (if index + 1 == |staged| then ConfirmAll else BeginFinalize)
                && |finalized| == index + 1 && m.used == usedNow
      ensures failure.Some? ==> m.pc == CleanUp(failure.value)
    {
      hide Inv, Run, Step, Temporaries, Distinct, Addable, Plus, MovedTo, LinkedTo, Movable, OnFileFinalized,
        OnFinalizeFailed, Reserved, IsFileError, FinalizedTo, FinalizeFailure, Refused;
      var r: Result<Staged, TransferError>;
      ghost var was, variant, reserved, copy, added := m, None, {}, None, map[];
      r, usedNow, variant, reserved, copy, added := MoveNext(index, used);
      match r {
        case Err(e) =>
          FinalizeFailedStep(p, was, m, e, copy, added, directory.Now());
          Take(FinalizeFailed(e, copy));
          failure := Some(e);
        case Ok(moved) =>
          FinalizedStep(p, was, m, moved, variant, reserved, added, directory.Now());
          TemporariesMoved(staged, index, moved.finalPath);
          staged, finalized := staged[index := moved], finalized + [moved.finalPath];
          Take(FileFinalized(variant, reserved));
          FinalizedDistinct(p, m);
          failure := None;
      }
    }

    /** Every staged file in turn; the tokens are looked at before each. */
    method FinalizeAll() returns (failure: Option<TransferError>)
      requires Synced() && m.pc == BeginFinalize && finalized == [] && m.used == FinalKeys(p, staged)
      modifies this, directory, tracker
      ensures Synced() && m.id == old(m).id
      ensures m.pc == if failure.None? then ConfirmAll else CleanUp(failure.value)
    {
      hide Inv, Run, Step, Temporaries, Distinct, FinalKeys, Addable, Plus, Refused;
      var used := FinalKeys(p, staged);
      SomethingStaged();
      for index := 0 to |staged|
        invariant Synced() && m.id == old(m).id && |staged| == old(|staged|) && |finalized| == index && m.used == used
        invariant m.pc == if index == |staged| then ConfirmAll else BeginFinalize
      {
        failure := CheckCancelled(None);
        if failure.Some? {
          return;
        }
        failure, used := FinalizeNext(index, used);
        if failure.Some? {
          return;
        }
      }
      failure := None;
    }

    lemma SomethingStaged()
      requires Synced() && m.pc == BeginFinalize
      ensures |finalized| < |staged|
    {
      hide ValidRequest, Places, Books, Refused;
    }

    // ----- ending --------------------------------------------------------

    /** The staging files go first. */
    method CleanUpStaged(e: TransferError) returns (ghost log: seq<Attempt>)
      requires Synced() && m.pc == CleanUp(e)
      modifies this`m, this`trace, directory`files, directory`foreign, directory`attempts
      ensures Synced() && m.pc == RollBack(e) && m.id == old(m).id
      ensures directory.attempts == old(directory.attempts) + log && CleanupRun(staged, log)
    {
      hide Inv, Run, Step, Temporaries, Distinct, Addable, Plus, Removed, Refused, CleanupRun, Refusals, GoneIn;
      ghost var was := m;
      ghost var kept, added;
      kept, added, log := directory.CleanupStaged(staged);
      KeptOnlyIfRefused(staged, finalized, log);
      RefusedAppend(old(directory.attempts), log);
      CleanedUpStep(p, was, e, kept);
      Take(CleanedUp(kept));
      Absorb(added);
    }

    /** Then the files already finalized. */
    method RollBackAll(e: TransferError) returns (ghost log: seq<Attempt>)
      requires Synced() && m.pc == RollBack(e)
      modifies this`m, this`trace, directory`files, directory`foreign, directory`attempts
      ensures Synced() && m.pc == Report(e) && m.id == old(m).id
      ensures directory.attempts == old(directory.attempts) + log && RollbackRun(finalized, log)
    {
      hide Inv, Run, Step, Temporaries, NameSet, Addable, Plus, Removed, Refused, RollbackRun, Refusals, GoneIn;
      RollBackReady(p, m, e);
      ghost var was := m;
      ghost var kept, added;
      kept, added, log := directory.RollbackFinalized(finalized);
      KeptOnlyIfRefused(staged, finalized, log);
      RefusedAppend(old(directory.attempts), log);
      RolledBackStep(p, was, e, kept);
      Take(RolledBack(kept));
      Absorb(added);
    }

    /** The sender is told, best effort, and the interface is shown the end. */
    method ReportFailure(id: string, e: TransferError)
      requires Synced() && m.pc == Report(e) && m.id == id
      modifies this`sent, this`m, this`trace, tracker
      ensures Synced() && m == old(m).(pc := Ended(Aborted(e)), sent := m.sent, tracker := m.tracker)
    {
      hide Inv, Run, Step, Temporaries, Distinct, FinishError, Refused;
      var written: bool;
      ghost var cancelDelivered, resultDelivered := false, false;
      if e == TransferError.Canceled {
        written, cancelDelivered := WriteControl(Cancel(id));
      }
      written, resultDelivered := WriteControl(TransferResult(id, false, Some(ErrorText(e))));
      tracker.Finish(e);
      ReportStep(p, m, e, cancelDelivered, resultDelivered);
      Take(FailureReported(cancelDelivered, resultDelivered));
    }

    /**
     `finish_incoming_error`: every staging file is cleaned up, then every finalized file rolled
     back, last first; unless a removal was ever refused only other processes' files remain. The
     sender is told, and the interface shown the end.
     */
    method FinishIncomingError(id: string, e: TransferError)
      requires Synced() && m.pc == CleanUp(e) && m.id == id
      modifies this, directory, tracker
      ensures Synced() && m.pc == Ended(Aborted(e)) && m.id == id
      ensures CleanUpThenRollBack(old(staged), old(finalized), old(directory.attempts), directory.attempts)
      ensures !Refused(directory.attempts) ==> directory.files == directory.foreign
    {
      hide Inv, Run, Step, Temporaries, Distinct, FinishError, Refused, CleanupRun, RollbackRun;
      ghost var first := CleanUpStaged(e);
      ghost var second := RollBackAll(e);
      assert directory.attempts == old(directory.attempts) + first + second;
      ReportFailure(id, e);
      WhatEndMeans(p, m, Aborted(e));
    }

    // ----- the decision --------------------------------------------------

    /**
     How the wait may end: a verdict to write, a local cancellation still to be answered, or an
     error that already ended the run but for the tracker.
     */
    ghost predicate Decided(id: string, r: Result<Verdict, TransferError>)
      reads this, tracker, directory
    {
      && Traced() && m.id == id
      && match r
         case Ok(verdict) => Mirrors(m) && m.pc == WriteDecision(verdict)
         case Err(e) =>
           if e == TransferError.Canceled
           then Mirrors(m) && m.pc == WriteNotice(TransferDecision(id, false, Some(CancelledText)), Aborted(e))
           else && m.pc == Ended(Aborted(e)) && m.tracker == FinishError(tracker.State(), e)
                && Mirrors(m.(tracker := tracker.State()))
    }

    /** The recipient answered, or the window was closed. */
    method HearAnswer(id: string) returns (r: Result<Verdict, TransferError>)
      requires Synced() && m.pc == AwaitDecision && m.id == id
      modifies this`cancelled, this`shutdown, this`m, this`trace, directory`files, directory`foreign
      ensures Decided(id, r) && m.files == old(m).files && m.total == old(m).total
    {
      hide Inv, Run, Step, Temporaries, Distinct, FinishError, Refused, OnAnswer;
      Suspend(true);
      var answer: Answer := *;
      AnswerStep(p, m, answer);
      AnswerOutcome(m, answer);
      Take(Answered(answer));
      if shutdown {
        r := Err(ShuttingDown);
      } else if cancelled {
        r := Err(TransferError.Canceled);
      } else {
        match answer {
          case Yes => r := Ok(Accept);
          case No => r := Ok(Decline(DeclinedText));
          case Dropped => r := Err(AppUnavailable);
        }
      }
    }

    /** The sender spoke, or a token was set. */
    method HearSender(id: string) returns (r: Result<Verdict, TransferError>)
      requires Synced() && m.pc == AwaitDecision && m.id == id
      modifies this`cancelled, this`shutdown, this`m, this`trace, directory`files, directory`foreign
      ensures Decided(id, r) && m.files == old(m).files && m.total == old(m).total
    {
      hide Inv, Run, Step, Temporaries, Distinct, FinishError, IsWireError, DeliverableFrame, Refused;
      var frame: ReadOutcome;
      ghost var was;
      frame, was := ReadFrame(true);
      match frame {
        case ReadFailed(e) => r := Err(e);
        case Got(Control(Cancel(cancelId))) =>
          r := Err(if cancelId == id then RemoteCanceled else InvalidPeerResponse(UnexpectedWhileWaiting));
        case Got(Control(_)) => r := Err(InvalidPeerResponse(UnexpectedWhileWaiting));
        case Got(Data(_)) => r := Err(InvalidPeerResponse(UnexpectedWhileWaiting));
      }
    }

    /** `wait_for_decision`: the recipient, the sender, the deadline or a token, whichever comes first. */
    method WaitForDecision(id: string) returns (r: Result<Verdict, TransferError>)
      requires Synced() && m.pc == AwaitDecision && m.id == id
      modifies this`cancelled, this`shutdown, this`m, this`trace, directory`files, directory`foreign
      ensures Decided(id, r) && m.files == old(m).files && m.total == old(m).total
    {
      hide Inv, Run, Step, Temporaries, Distinct, FinishError, Refused;
      var answered: bool, expired: bool := *, *;
      if answered {
        r := HearAnswer(id);
      } else if expired {
        Suspend(true);
        DeadlineStep(p, m);
        Take(DeadlinePassed);
        r := Ok(Decline(ExpiredText));
      } else {
        r := HearSender(id);
      }
    }

    // ----- receive_incoming ----------------------------------------------

    /** The first snapshot, and the request shown to the recipient. */
    method Announce(total: nat) returns (shown: bool)
      requires Synced() && m.pc == AwaitAdmission && m.total == total
      modifies this, directory, tracker
      ensures Synced() && m.id == old(m).id && m.files == old(m).files && m.total == total
      ensures m.pc == if shown then AwaitDecision else Ended(Aborted(AppUnavailable))
    {
      hide Inv, Run, Step, Temporaries, Distinct, FinishError, Emit, SetTotal, NewTracker, Refused;
      NothingShownYet(p, m);
      tracker.SetFiles(total);
      tracker.EmitNow();
      AdmissionStep(p, m);
      Take(Admission(true));
      shown := *;
      FinishedStays(p, m, AppUnavailable);
      AnnouncedStep(p, m, shown);
      Take(Announced(shown));
      if !shown {
        tracker.Finish(AppUnavailable);
        var written: bool;
        ghost var delivered;
        written, delivered := WriteControl(ProtocolError);
        NoticeStep(p, m, delivered);
        Take(NoticeWritten(delivered));
      }
    }

    /** The recipient's decision, and its way to the sender. */
    method Decide(id: string) returns (outcome: Option<Outcome>)
      requires Synced() && m.pc == AwaitDecision && m.id == id
      modifies this, directory, tracker
      ensures Synced() && m.id == id && m.files == old(m).files && m.total == old(m).total
      ensures m.pc == if outcome.None? then CheckFolder else Ended(outcome.value)
    {
      hide Inv, Run, Step, Temporaries, Distinct, FinishError, Transition, Refused;
      var decision := WaitForDecision(id);
      match decision {
        case Err(e) =>
          if e == TransferError.Canceled {
            var written: bool;
            ghost var delivered;
            written, delivered := WriteControl(TransferDecision(id, false, Some(CancelledText)));
            NoticeStep(p, m, delivered);
            Take(NoticeWritten(delivered));
          }
          tracker.Finish(e);
          outcome := Some(Aborted(e));
        case Ok(verdict) =>
          outcome := WriteVerdict(id, verdict);
      }
    }

    /** `write_decision`, and what the interface is shown of it. */
    method WriteVerdict(id: string, verdict: Verdict) returns (outcome: Option<Outcome>)
      requires Synced() && m.pc == WriteDecision(verdict) && m.id == id
      modifies this, directory, tracker
      ensures Synced() && m.id == old(m).id && m.files == old(m).files && m.total == old(m).total
      ensures m.pc == if outcome.None? then CheckFolder else Ended(outcome.value)
    {
      hide Inv, Run, Step, Temporaries, Distinct, FinishError, Transition, Refused;
      var written: bool;
      ghost var delivered;
      match verdict {
        case Accept => written, delivered := WriteControl(TransferDecision(id, true, None));
        case Decline(reason) => written, delivered := WriteControl(TransferDecision(id, false, Some(reason)));
      }
      DecisionStep(p, m, written, delivered);
      Take(DecisionWritten(written, delivered));
      if !written {
        tracker.Finish(Connection);
        return Some(Aborted(Connection));
      }
      if verdict.Decline? {
        tracker.ChangePhase(Rejected);
        return Some(Declined);
      }
      tracker.ChangePhase(Phase.Accepted);
      tracker.ChangePhase(Transferring);
      outcome := None;
    }

    /** The receive folder must be there. */
    method CheckDestination() returns (failure: Option<TransferError>)
      requires Synced() && m.pc == CheckFolder
      modifies this, directory
      ensures Synced() && m.id == old(m).id && m.files == old(m).files && m.total == old(m).total
      ensures m.pc == if failure.None? then AwaitFile else CleanUp(failure.value)
      ensures m.got == [] && m.used == {} && m.transferred == 0
    {
      hide Inv, Run, Step, Temporaries, Distinct, Refused;
      Suspend(true);
      NothingYet(p, m);
      var available: bool := *;
      FolderStep(p, m, available);
      Take(FolderChecked(available));
      failure := if available then None else Some(Destination);
    }

    lemma NothingFinal()
      requires Synced() && m.pc == AllReceived
      ensures finalized == []
    {
      hide ValidRequest, Places, Books, Refused;
    }

    /** Receive, verify and finalize the batch; every failure goes through the clean-up. */
    method TransferBatch(id: string, files: seq<TransferFile>, total: nat) returns (failure: Option<TransferError>)
      requires Synced() && m.pc == CheckFolder && m.id == id && m.files == files && m.total == total
      modifies this, directory, tracker
      ensures Synced() && m.id == id
      ensures m.pc == if failure.None? then WriteResult else CleanUp(failure.value)
    {
      hide Inv, Run, Step, Mirrors, Traced, FinalKeys;
      failure := CheckDestination();
      if failure.Some? {
        return;
      }
      failure := ReceiveFiles(id, files, total);
      if failure.Some? {
        return;
      }
      NothingFinal();
      failure := CheckCancelled(Some(Verifying));
      if failure.Some? {
        return;
      }
      failure := FinalizeAll();
      if failure.Some? {
        return;
      }
      failure := CheckCancelled(Some(Completing));
      if failure.Some? {
        return;
      }
      failure := CheckCancelled(None);
    }

    /** `receive_incoming`. */
    method ReceiveIncoming(id: string, files: seq<TransferFile>, total: nat) returns (outcome: Outcome)
      requires Synced() && m.pc == AwaitAdmission && m.id == id && m.files == files && m.total == total
      modifies this, directory, tracker
      ensures Synced() && m.pc == Ended(outcome)
      ensures ReceiverAnswers.SentAtEnd(sent, m.id, outcome)
    {
      hide Inv, Run, Step, Temporaries, Distinct, Transition, Refused;
      outcome := RunIncoming(id, files, total);
      WhatWasSaid(p, present, trace, outcome);
    }

    /** The body of `receive_incoming`. */
    method RunIncoming(id: string, files: seq<TransferFile>, total: nat) returns (outcome: Outcome)
      requires Synced() && m.pc == AwaitAdmission && m.id == id && m.files == files && m.total == total
      modifies this, directory, tracker
      ensures Synced() && m.pc == Ended(outcome)
    {
      hide Inv, Run, Step, Temporaries, Distinct, Transition, Refused;
      var shown := Announce(total);
      if !shown {
        return Aborted(AppUnavailable);
      }
      var early := Decide(id);
      if early.Some? {
        return early.value;
      }
      var failure := TransferBatch(id, files, total);
      if failure.Some? {
        FinishIncomingError(id, failure.value);
        return Aborted(failure.value);
      }
      var written: bool;
      ghost var delivered;
      written, delivered := WriteControl(TransferResult(id, true, None));
      ResultSteps(p, m, delivered);
      Take(ResultWritten(delivered));
      tracker.ChangePhase(Phase.Completed);
      SettledStep(p, m);
      Take(ResultSettled);
      outcome := Succeeded;
    }

    // ----- the whole connection ------------------------------------------

    /** A last message, best effort, to a sender whose transfer was never admitted. */
    method SendNotice(message: Message)
      requires Synced() && m.pc.WriteNotice? && !m.pc.after.Aborted? && m.pc.notice == message
      modifies this`m, this`trace, this`sent
      ensures Synced() && m == old(m).(pc := Ended(old(m).pc.after), sent := m.sent)
    {
      hide Inv, Run, Step, Temporaries, Distinct, Refused;
      var written: bool;
      ghost var delivered;
      written, delivered := WriteControl(message);
      NoticeStep(p, m, delivered);
      Take(NoticeWritten(delivered));
    }

    /** The request, or how the connection ended without one. */
    method HearRequest()
      returns (ended: Option<Outcome>, id: string, files: seq<TransferFile>, total: nat)
      requires Synced() && m.pc == AwaitRequest
      modifies this`cancelled, this`shutdown, this`m, this`trace, this`sent, directory`files, directory`foreign
      ensures Synced()
      ensures ended.Some? ==> m.pc == Ended(ended.value)
      ensures ended.None? ==> m.pc == AwaitTrust && m.id == id && m.files == files && m.total == total
    {
      hide Inv, Run, Step, Temporaries, Distinct, DeliverableFrame, IsWireError, ValidRequest, Refused;
      id, files, total := "", [], 0;
      var frame: ReadOutcome;
      ghost var was;
      frame, was := ReadFrame(false);
      match frame {
        case ReadFailed(e) => ended := Some(NoTransfer(e));
        case Got(Data(_)) => ended := Some(NoTransfer(InvalidPeerResponse(ExpectedControl)));
        case Got(Control(TransferRequest(requestId, requestFiles, requestTotal))) =>
          id, files, total := requestId, requestFiles, requestTotal;
          var fault := ValidateTransferRequest(id, files, requestTotal);
          ended := if fault.Some? then Some(NoTransfer(Protocol)) else None;
        case Got(Control(_)) =>
          SendNotice(ProtocolError);
          ended := Some(NoTransfer(InvalidPeerResponse(ExpectedRequest)));
      }
    }

    /** Trust and admission of the transfer. */
    method Admit(id: string) returns (ended: Option<Outcome>)
      requires Synced() && m.pc == AwaitTrust && m.id == id
      modifies this`cancelled, this`shutdown, this`m, this`trace, this`sent, directory`files, directory`foreign
      ensures Synced() && m.id == id && m.files == old(m).files && m.total == old(m).total
      ensures m.pc == if ended.None? then AwaitAdmission else Ended(ended.value)
    {
      hide Inv, Run, Step, Temporaries, Distinct, Refused;
      Suspend(false);
      var refusal: Option<TransferError>, admitted: bool := *, *;
      TrustStep(p, m, refusal);
      Take(TrustSettled(refusal));
      match refusal {
        case Some(e) => ended := Some(NoTransfer(e));
        case None =>
          if admitted {
            return None;
          }
          RefusalStep(p, m);
          Take(Admission(false));
          SendNotice(TransferDecision(id, false, Some(BusyText)));
          ended := Some(Busy);
      }
    }

    /**
     `handle_incoming` after the handshake, with everything it promises: other processes' files
     are untouched; a completed batch is delivered; any other end leaves only their files, if no
     removal was refused; and the interface saw one end, or none if nothing was admitted.
     */
    method HandleIncoming() returns (outcome: Outcome)
      requires Synced() && m.pc == AwaitRequest
      modifies this, directory, tracker
      ensures Synced() && m.pc == Ended(outcome)
      ensures ForeignIntact(directory.Now())
      ensures outcome.Succeeded? ==>
                && ReceiverTheorems.Delivered(p, m)
                && directory.files.Keys == directory.foreign.Keys + NameSet(finalized)
      ensures !outcome.Succeeded? && !Refused(directory.attempts) ==> directory.files == directory.foreign
      ensures if outcome.NoTransfer? || outcome.Busy? then tracker.emitted == [] else EndsOnce(tracker.emitted)
      ensures ReceiverAnswers.SentAtEnd(sent, m.id, outcome)
      ensures outcome.Succeeded? ==> ReceiverAnswers.Decided(p, present, trace, Yes)
    {
      hide Inv, Run, Step, Temporaries, Distinct, ReceiverTheorems.Delivered, EndsOnce, ForeignIntact, Refused,
        ReceiverAnswers.SentAtEnd, ReceiverAnswers.Decided;
      var id: string, files: seq<TransferFile>, total: nat;
      var ended: Option<Outcome>;
      ended, id, files, total := HearRequest();
      if ended.None? {
        ended := Admit(id);
      }
      if ended.Some? {
        outcome := ended.value;
      } else {
        outcome := ReceiveIncoming(id, files, total);
      }
      WhatEndMeans(p, m, outcome);
      WhatWasSaid(p, present, trace, outcome);
    }
  }
}

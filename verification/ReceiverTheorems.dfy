/**
 What the invariant means for whole runs of the receiver: the folder is all or nothing, other
 processes' files are never touched, bytes are conserved, and the interface sees one end.
 Every statement is about every run: any frames from the other side, any interleaving with
 other processes, any failure at any step.
 */
module ReceiverTheorems {
  import opened Wrappers
  import opened Wire
  import opened Lifecycle
  import opened Receiver
  import opened ReceiverSafety

  // ----- other processes -------------------------------------------------

  predicate TouchesFolder(e: Event)
  {
    e.ForeignFiles? || e.StageCreated? || e.ChunkWritten? || e.FileFinalized? || e.FinalizeFailed? ||
    e.CleanedUp? || e.RolledBack?
  }

  /** Steps that are no file operation leave the folder alone. */
  lemma QuietStep(p: Policy, r: Receiver, e: Event)
    requires !TouchesFolder(e)
    ensures SameFolder(r, Step(p, r, e))
  {
    hide FailEarly, Fail, OnGot, OnReadFailed, OnTrust, OnAdmission, OnAnnounced, OnAnswer, OnDecisionWritten,
      OnNoticeWritten, OnFolderChecked, OnNameChosen, OnFlushed, OnCounted, OnCheckPoint, OnResultWritten,
      OnResultSettled, OnFailureReported;
  }

  /** The file operations of the run do not touch the history of other processes' files. */
  lemma OwnStepKeepsForeign(p: Policy, r: Receiver, e: Event)
    requires TouchesFolder(e) && !e.ForeignFiles?
    ensures Step(p, r, e).folder.foreign == r.folder.foreign
  {
    hide OnStageCreated, OnChunkWritten, OnFileFinalized, OnFinalizeFailed, OnCleanedUp, OnRolledBack,
      OnGot, OnCheckPoint, IsFileError, AllowedTarget;
  }

  lemma ForeignStepGrows(p: Policy, r: Receiver, e: Event)
    requires ForeignIntact(r.folder) && e.ForeignFiles?
    ensures var d := Step(p, r, e).folder.foreign;
            forall x :: x in r.folder.foreign ==> x in d && d[x] == r.folder.foreign[x]
  {
  }

  /** The history of other processes' files only grows, and only through their own events. */
  lemma StepForeign(p: Policy, r: Receiver, e: Event)
    requires ForeignIntact(r.folder)
    ensures var d := Step(p, r, e).folder.foreign;
            && (!e.ForeignFiles? ==> d == r.folder.foreign)
            && (forall x :: x in r.folder.foreign ==> x in d && d[x] == r.folder.foreign[x])
  {
    hide Step, ForeignIntact;
    if e.ForeignFiles? {
      ForeignStepGrows(p, r, e);
    } else if TouchesFolder(e) {
      OwnStepKeepsForeign(p, r, e);
    } else {
      QuietStep(p, r, e);
    }
  }

  /** Whatever the folder held before the run, and whatever others add, stays as it is. */
  lemma {:induction false} NothingForeignIsTouched(p: Policy, present: map<string, Bytes>, events: seq<Event>)
    ensures var d := Run(p, Initial(present), events).folder;
            && ForeignIntact(d)
            && forall x :: x in present ==>
                 x in d.foreign && d.foreign[x] == present[x] && x in d.files && d.files[x] == present[x]
  {
    hide Inv, Step;
    ReachableInvariant(p, present, events);
    if events != [] {
      var front := events[..|events| - 1];
      NothingForeignIsTouched(p, present, front);
      StepForeign(p, Run(p, Initial(present), front), events[|events| - 1]);
    }
  }

  lemma ReachableInvariant(p: Policy, present: map<string, Bytes>, events: seq<Event>)
    ensures Inv(p, Run(p, Initial(present), events))
    ensures ForeignIntact(Run(p, Initial(present), events).folder)
  {
    InitialInvariant(p, present);
    RunKeepsInvariant(p, Initial(present), events);
    hide Shape, Books, ContentInv, KeysInv, Run, Initial;
  }

  // ----- all or nothing --------------------------------------------------

  /** No removal in the run failed for good. */
  predicate RemovalsSucceed(events: seq<Event>)
  {
    forall i :: 0 <= i < |events| ==>
      match events[i]
      case CleanedUp(kept) => kept == {}
      case RolledBack(kept) => kept == {}
      case FinalizeFailed(_, copy) => copy == None
      case _ => true
  }

  lemma StepLeftover(p: Policy, r: Receiver, e: Event)
    requires !r.leftover && RemovalsSucceed([e])
    ensures !Step(p, r, e).leftover
  {
    assert [e][0] == e;
    if !TouchesFolder(e) {
      hide Step;
      QuietStep(p, r, e);
    } else {
      hide OnGot, OnCheckPoint, Progress, Without, Appended, AllowedTarget;
    }
  }

  lemma {:induction false} NothingLeftOver(p: Policy, present: map<string, Bytes>, events: seq<Event>)
    requires RemovalsSucceed(events)
    ensures !Run(p, Initial(present), events).leftover
  {
    hide Step;
    if events != [] {
      var front := events[..|events| - 1];
      assert RemovalsSucceed(front);
      NothingLeftOver(p, present, front);
      assert RemovalsSucceed([events[|events| - 1]]);
      StepLeftover(p, Run(p, Initial(present), front), events[|events| - 1]);
    }
  }

  /** A run that ends other than completed leaves exactly the other processes' files. */
  lemma AllOrNothing(p: Policy, present: map<string, Bytes>, events: seq<Event>)
    requires RemovalsSucceed(events)
    requires var r := Run(p, Initial(present), events); r.pc.Ended? && !r.pc.outcome.Succeeded?
    ensures var d := Run(p, Initial(present), events).folder; d.files == d.foreign
  {
    hide Run, Initial;
    ReachableInvariant(p, present, events);
    NothingLeftOver(p, present, events);
    EndedFolder(p, Run(p, Initial(present), events));
  }

  lemma EndedFolder(p: Policy, r: Receiver)
    requires Inv(p, r) && r.pc.Ended? && !r.pc.outcome.Succeeded? && !r.leftover
    ensures r.folder.files == r.folder.foreign
  {
    hide ValidRequest, Books, ContentInv, KeysInv;
    assert OwnNames(r) == {};
    assert r.folder.files.Keys == r.folder.foreign.Keys;
  }

  predicate LeftAlone(events: seq<Event>)
  {
    forall i :: 0 <= i < |events| ==> !events[i].ForeignFiles?
  }

  /** Without other processes the history of their files is what was there before. */
  lemma {:induction false} ForeignIsPresent(p: Policy, present: map<string, Bytes>, events: seq<Event>)
    requires LeftAlone(events)
    ensures Run(p, Initial(present), events).folder.foreign == present
  {
    hide Step, ForeignIntact;
    if events != [] {
      var front := events[..|events| - 1];
      assert LeftAlone(front);
      ForeignIsPresent(p, present, front);
      NothingForeignIsTouched(p, present, front);
      StepForeign(p, Run(p, Initial(present), front), events[|events| - 1]);
    }
  }

  /** Left alone, a run that ends other than completed leaves the folder exactly as it found it. */
  lemma FailureLeavesNoTrace(p: Policy, present: map<string, Bytes>, events: seq<Event>)
    requires RemovalsSucceed(events) && LeftAlone(events)
    requires var r := Run(p, Initial(present), events); r.pc.Ended? && !r.pc.outcome.Succeeded?
    ensures Run(p, Initial(present), events).folder.files == present
  {
    hide Run, Initial;
    AllOrNothing(p, present, events);
    ForeignIsPresent(p, present, events);
  }

  /** What a completed batch looks like on disk. */
  ghost predicate Delivered(p: Policy, r: Receiver)
  {
    && |r.finalized| == |r.got| == |r.files|
    && |NameSet(r.finalized)| == |r.files|
    && NameSet(r.finalized) !! r.folder.foreign.Keys
    && r.folder.files.Keys == r.folder.foreign.Keys + NameSet(r.finalized)
    && (forall i :: 0 <= i < |r.files| ==>
          && r.finalized[i] in r.folder.files
          && r.folder.files[r.finalized[i]] == r.got[i]
          && |r.got[i]| == r.files[i].size
          && SameDigest(r.files[i].sha256, p.digest(r.got[i])))
    && (forall i, j :: 0 <= i < j < |r.files| ==> p.key(r.finalized[i]) != p.key(r.finalized[j]))
  }

  lemma {:induction false} DistinctNamesCount(names: seq<string>)
    requires forall a, b :: 0 <= a < b < |names| ==> names[a] != names[b]
    ensures |NameSet(names)| == |names|
  {
    if names == [] {
      assert NameSet(names) == {};
    } else {
      var front, last := names[..|names| - 1], names[|names| - 1];
      DistinctNamesCount(front);
      NameSetAppend(front, last);
      assert front + [last] == names;
      assert last !in NameSet(front);
    }
  }

  /** Nothing else of the run is left in the folder. */
  lemma CommittedNames(p: Policy, r: Receiver)
    requires Inv(p, r) && AllFinal(r.pc)
    ensures |NameSet(r.finalized)| == |r.finalized|
    ensures NameSet(r.finalized) !! r.folder.foreign.Keys
    ensures r.folder.files.Keys == r.folder.foreign.Keys + NameSet(r.finalized)
  {
    hide KeysInv, Books, FolderInv, ContentInv;
    assert |r.staged| == |r.finalized| && !r.leftover by { hide ValidRequest, Places; }
    hide Shape;
    FinalNamesPresent(r);
    CommittedFolder(r);
  }

  lemma CommittedFolder(r: Receiver)
    requires AllFinal(r.pc) && |r.staged| == |r.finalized| && !r.leftover && FolderInv(r)
    requires NameSet(r.finalized) <= r.folder.files.Keys
    ensures NameSet(r.finalized) !! r.folder.foreign.Keys
    ensures r.folder.files.Keys == r.folder.foreign.Keys + NameSet(r.finalized)
  {
    assert r.staged[|r.finalized|..] == [];
    assert OwnNames(r) == NameSet(r.finalized);
    hide OwnNames, NameSet, Temporaries;
  }

  lemma FinalNamesPresent(r: Receiver)
    requires ContentInv(r) && AllFinal(r.pc)
    ensures |NameSet(r.finalized)| == |r.finalized|
    ensures NameSet(r.finalized) <= r.folder.files.Keys
  {
    DistinctNamesCount(r.finalized);
  }

  lemma DigestsAgree(p: Policy, files: seq<TransferFile>, got: seq<Bytes>)
    ensures forall i :: 0 <= i < |got| && i < |files| && DigestMatches(files[i].sha256, p.digest(got[i])) ==>
              SameDigest(files[i].sha256, p.digest(got[i]))
  {
    hide DigestMatches;
    forall i | 0 <= i < |got| && i < |files| && DigestMatches(files[i].sha256, p.digest(got[i]))
      ensures SameDigest(files[i].sha256, p.digest(got[i]))
    {
      DigestsCompared(files[i].sha256, p.digest(got[i]));
    }
  }

  lemma CommittedIsDelivered(p: Policy, r: Receiver)
    requires Inv(p, r) && AllFinal(r.pc)
    ensures Delivered(p, r)
  {
    hide ValidRequest, DigestMatches, SameDigest, TrackInv, LogInv, SentInv, FinalKeys, FolderInv, NameSet;
    CommittedNames(p, r);
    DigestsAgree(p, r.files, r.got);
  }

  /** A completed run adds exactly its n files, under n names with n distinct keys. */
  lemma CompletedAddsExactly(p: Policy, present: map<string, Bytes>, events: seq<Event>)
    requires Run(p, Initial(present), events).pc == Ended(Succeeded)
    ensures Delivered(p, Run(p, Initial(present), events))
  {
    hide Run, Initial, Delivered;
    ReachableInvariant(p, present, events);
    hide Inv;
    CommittedIsDelivered(p, Run(p, Initial(present), events));
  }

  /** Every character of every digest of a completed run is the announced one, but for ASCII case. */
  lemma CompletedDigests(p: Policy, present: map<string, Bytes>, events: seq<Event>, i: nat)
    requires Run(p, Initial(present), events).pc == Ended(Succeeded)
    requires i < |Run(p, Initial(present), events).files|
    ensures var r := Run(p, Initial(present), events);
            && i < |r.got| && |r.got[i]| == r.files[i].size
            && |r.files[i].sha256| == |p.digest(r.got[i])|
            && forall k :: 0 <= k < |r.files[i].sha256| ==> SameButForCase(r.files[i].sha256[k], p.digest(r.got[i])[k])
  {
    hide Run, Initial, NameSet, SameButForCase;
    CompletedAddsExactly(p, present, events);
  }

  /** A flushed file of the announced size whose digest differs in anything else is refused. */
  lemma OtherDigestIsRefused(p: Policy, r: Receiver)
    requires r.pc == Flush && |r.got| < |r.files| && r.received == r.files[|r.got|].size
    requires var (expected, actual) := (r.files[|r.got|].sha256, p.digest(r.hashed));
             |expected| != |actual| || exists k :: 0 <= k < |expected| && !SameButForCase(expected[k], actual[k])
    ensures Step(p, r, Flushed(None)) == r.(pc := CleanUp(Verification))
  {
    hide DigestMatches, SameButForCase;
    DigestsCompared(r.files[|r.got|].sha256, p.digest(r.hashed));
  }

  // ----- conservation ----------------------------------------------------

  /** Counted bytes are stored bytes, and no file or batch ever exceeds what was announced. */
  lemma BytesAreConserved(p: Policy, present: map<string, Bytes>, events: seq<Event>)
    ensures var r := Run(p, Initial(present), events);
            && (InFile(r.pc) && !r.pc.WriteChunk? ==>
                  && r.staged != [] && |r.got| < |r.files|
                  && r.staged[|r.staged| - 1].temporary in r.folder.files
                  && r.transferred == SumLen(r.got) + |r.folder.files[r.staged[|r.staged| - 1].temporary]|
                  && r.received <= r.files[|r.got|].size)
            && (InFile(r.pc) ==> r.transferred <= r.total <= MAX_TRANSFER_BYTES)
            && (FilesDone(r.pc) ==> r.transferred == r.total)
  {
    hide Run, Initial;
    ReachableInvariant(p, present, events);
    Conservation(p, Run(p, Initial(present), events));
  }

  lemma Conservation(p: Policy, r: Receiver)
    requires Inv(p, r)
    ensures InFile(r.pc) && !r.pc.WriteChunk? ==>
              && r.staged != [] && |r.got| < |r.files|
              && r.staged[|r.staged| - 1].temporary in r.folder.files
              && r.transferred == SumLen(r.got) + |r.folder.files[r.staged[|r.staged| - 1].temporary]|
              && r.received <= r.files[|r.got|].size
    ensures InFile(r.pc) ==> r.transferred <= r.total <= MAX_TRANSFER_BYTES
    ensures FilesDone(r.pc) ==> r.transferred == r.total
  {
    hide ValidTransferId, ValidFile, DigestMatches, FolderInv, KeysInv, TrackInv, LogInv, SentInv;
    if InFile(r.pc) {
      RoomLeft(p, r);
      OpenFileThere(p, r);
    } else if FilesDone(r.pc) {
      SumLenIsTotal(p, r.files, r.got);
      assert r.files[..|r.got|] == r.files;
    }
  }

  /** The overflow errors and the total mismatch of the source never happen. */
  lemma ImpossibleErrors(p: Policy, present: map<string, Bytes>, events: seq<Event>)
    ensures var r := Run(p, Initial(present), events);
            && (Undoing(r.pc) ==> !Impossible(r.pc.error))
            && (EndedAborted(r.pc) ==> !Impossible(r.pc.outcome.error))
  {
    hide Run, Initial, Shape, Places, TrackInv, LogInv, SentInv;
    ReachableInvariant(p, present, events);
  }

  // ----- what the interface sees ----------------------------------------

  /** No phase change is refused; a run shows at most one terminal snapshot, and last. */
  lemma SnapshotsAreOrderly(p: Policy, present: map<string, Bytes>, events: seq<Event>)
    ensures var r := Run(p, Initial(present), events);
            && !r.tracker.refused && GoodHistory(r.tracker.emitted)
            && (!r.pc.Ended? && !r.pc.WriteNotice? ==>
                  forall i :: 0 <= i < |r.tracker.emitted| ==> !IsTerminal(r.tracker.emitted[i].phase))
            && (r.pc.Ended? && !NotAdmitted(r.pc) ==> EndsOnce(r.tracker.emitted))
            && (r.pc.Ended? && NotAdmitted(r.pc) ==> r.tracker.emitted == [])
  {
    hide Run, Initial;
    ReachableInvariant(p, present, events);
    SnapshotsOf(p, Run(p, Initial(present), events));
  }

  /** The phase the interface is left with. */
  function ShownEnd(outcome: Outcome): Phase
  {
    match outcome
    case Succeeded => Phase.Completed
    case Declined => Rejected
    case Aborted(e) => ErrorShown(e)
    case _ => WaitingForAcceptance
  }

  /** Every ended transfer leaves the phase of its outcome: a cancellation on either side is no failure. */
  lemma EndIsShown(p: Policy, present: map<string, Bytes>, events: seq<Event>)
    requires var r := Run(p, Initial(present), events); r.pc.Ended? && !NotAdmitted(r.pc)
    ensures var r := Run(p, Initial(present), events);
            r.tracker.emitted != [] && r.tracker.emitted[|r.tracker.emitted| - 1].phase == ShownEnd(r.pc.outcome)
  {
    hide Run, Initial, Inv, GoodHistory, ShownEnd, NotAdmitted;
    ReachableInvariant(p, present, events);
    EndPhase(p, Run(p, Initial(present), events));
  }

  lemma EndPhase(p: Policy, r: Receiver)
    requires Inv(p, r) && r.pc.Ended? && !NotAdmitted(r.pc)
    ensures r.tracker.emitted != [] && r.tracker.emitted[|r.tracker.emitted| - 1].phase == ShownEnd(r.pc.outcome)
  {
    hide Shape, Places, CountInv, LogInv, SentInv, GoodHistory;
  }

  lemma SnapshotsOf(p: Policy, r: Receiver)
    requires Inv(p, r)
    ensures !r.tracker.refused && GoodHistory(r.tracker.emitted)
    ensures !r.pc.Ended? && !r.pc.WriteNotice? ==>
              forall i :: 0 <= i < |r.tracker.emitted| ==> !IsTerminal(r.tracker.emitted[i].phase)
    ensures r.pc.Ended? && !NotAdmitted(r.pc) ==> EndsOnce(r.tracker.emitted)
    ensures r.pc.Ended? && NotAdmitted(r.pc) ==> r.tracker.emitted == []
  {
    hide Shape, Places, CountInv, LogInv, SentInv, EndsOnce, GoodHistory;
    if IsTerminal(r.tracker.now.phase) {
      SoundEndsOnce(r.tracker);
    }
  }
}

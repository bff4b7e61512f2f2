/**
 What every step of the receiver keeps. The invariant is split by concern; each part has one
 lemma saying that a step keeps it, and `RunKeepsInvariant` lifts the whole to every run.
 */
module ReceiverSafety {
  import opened Wrappers
  import opened Wire
  import opened Lifecycle
  import opened CollisionNames
  import opened Receiver
  import opened Transcript

  // ----- points of the program ------------------------------------------

  /** No transfer request was accepted on this connection (yet). */
  predicate NotStarted(pc: Pc)
  {
    || pc.AwaitRequest?
    || (pc.WriteNotice? && pc.after.NoTransfer?)
    || (pc.Ended? && pc.outcome.NoTransfer?)
  }

  /** Before the incoming engine emits its first snapshot, or ended without one. */
  predicate NotAdmitted(pc: Pc)
  {
    || NotStarted(pc) || pc.AwaitTrust? || pc.AwaitAdmission?
    || (pc.WriteNotice? && pc.after.Busy?)
    || (pc.Ended? && pc.outcome.Busy?)
  }

  /** Points before the first staging file. */
  predicate Unstaged(pc: Pc)
  {
    || NotAdmitted(pc)
    || pc.AwaitAnnouncement? || pc.AwaitDecision? || pc.WriteDecision? || pc.WriteNotice? || pc.CheckFolder?
    || (pc.Ended? && pc.outcome.Declined?)
  }

  predicate BetweenFiles(pc: Pc) { pc.AwaitFile? || pc.ChooseName? || pc.CreateStage? }

  predicate InFile(pc: Pc) { pc.Stream? || pc.WriteChunk? || pc.Flush? }

  predicate FilesDone(pc: Pc) { pc.AwaitComplete? || pc.CountAll? || pc.AllReceived? }

  predicate Receiving(pc: Pc) { BetweenFiles(pc) || InFile(pc) || FilesDone(pc) }

  predicate Finalizing(pc: Pc) { pc.BeginFinalize? || pc.Finalize? }

  /** From here on no error path is left: the transfer will be reported as completed. */
  predicate Committed(pc: Pc)
  {
    pc.WriteResult? || pc.SettleResult? || (pc.Ended? && pc.outcome.Succeeded?)
  }

  /** All files are at their final names. */
  predicate AllFinal(pc: Pc) { pc.ConfirmAll? || pc.ConfirmLast? || Committed(pc) }

  predicate Undoing(pc: Pc) { pc.CleanUp? || pc.RollBack? || pc.Report? }

  predicate EndedAborted(pc: Pc) { pc.Ended? && pc.outcome.Aborted? }

  /** The staging files are meant to be there. */
  predicate Active(pc: Pc) { Receiving(pc) || Finalizing(pc) || AllFinal(pc) }

  // ----- the parts of the invariant -------------------------------------

  ghost predicate Shape(r: Receiver)
  {
    && (r.pc.WriteNotice? ==> r.pc.after.NoTransfer? || r.pc.after.Busy? || r.pc.after.Aborted?)
    && (!NotStarted(r.pc) ==> ValidRequest(r.id, r.files, r.total) && 1 <= |r.files|)
    && (Unstaged(r.pc) ==> r.staged == [] && r.got == [] && r.finalized == [] && r.used == {} && r.transferred == 0)
    && (BetweenFiles(r.pc) ==> |r.staged| == |r.got| < |r.files| && r.finalized == [])
    && (InFile(r.pc) ==> |r.staged| == |r.got| + 1 <= |r.files| && r.finalized == [])
    && (FilesDone(r.pc) ==> |r.staged| == |r.got| == |r.files| && r.finalized == [])
    && (Finalizing(r.pc) ==> |r.staged| == |r.got| == |r.files| && |r.finalized| < |r.files|)
    && (AllFinal(r.pc) ==> |r.staged| == |r.got| == |r.files| == |r.finalized|)
    && |r.finalized| <= |r.staged|
    && (Unstaged(r.pc) || Active(r.pc) ==> !r.leftover)
  }

  predicate Cleaned(pc: Pc) { pc.RollBack? || pc.Report? || EndedAborted(pc) }

  predicate RolledBackAll(pc: Pc) { pc.Report? || EndedAborted(pc) }

  /** Everything other processes put there is still there, unchanged. */
  ghost predicate ForeignIntact(d: Folder)
  {
    forall x :: x in d.foreign ==> x in d.files && d.files[x] == d.foreign[x]
  }

  /** Names that may hold a file of this run at this point. */
  function OwnNames(r: Receiver): set<string>
    requires |r.finalized| <= |r.staged|
  {
    (if Cleaned(r.pc) then {} else Temporaries(r.staged[|r.finalized|..]))
    + (if RolledBackAll(r.pc) then {} else NameSet(r.finalized))
  }

  ghost predicate FolderInv(r: Receiver)
    requires |r.finalized| <= |r.staged|
  {
    && ForeignIntact(r.folder)
    && Temporaries(r.staged) !! r.folder.foreign.Keys
    && (!RolledBackAll(r.pc) ==>
          NameSet(r.finalized) !! r.folder.foreign.Keys &&
          NameSet(r.finalized) <= r.folder.files.Keys + Temporaries(r.staged))
    && (!r.leftover ==> r.folder.files.Keys <= r.folder.foreign.Keys + OwnNames(r))
  }

  /** What the staging file of entry `j` holds. */
  function Body(r: Receiver, j: nat): Bytes { if j < |r.got| then r.got[j] else r.hashed }

  /** Where each file of the batch is, and that the names do not clash. */
  ghost predicate ContentInv(r: Receiver)
  {
    Active(r.pc) ==>
      && |r.finalized| <= |r.got| <= |r.staged|
      && (forall a, b :: 0 <= a < b < |r.staged| ==> r.staged[a].temporary != r.staged[b].temporary)
      && (forall j :: |r.finalized| <= j < |r.staged| ==>
            r.staged[j].temporary in r.folder.files && r.folder.files[r.staged[j].temporary] == Body(r, j))
      && (forall i :: 0 <= i < |r.finalized| ==>
            && r.staged[i].finalPath == r.finalized[i]
            && r.finalized[i] in r.folder.files && r.folder.files[r.finalized[i]] == r.got[i])
      && (forall i, j :: 0 <= i < |r.finalized| <= j < |r.staged| ==> r.finalized[i] != r.staged[j].temporary)
      && (forall a, b :: 0 <= a < b < |r.finalized| ==> r.finalized[a] != r.finalized[b])
  }

  ghost predicate KeysDistinct(p: Policy, staged: seq<Staged>)
  {
    forall a, b :: 0 <= a < b < |staged| ==> p.key(staged[a].finalPath) != p.key(staged[b].finalPath)
  }

  /** No two entries of the batch claim the same path key. */
  ghost predicate KeysInv(p: Policy, r: Receiver)
  {
    Active(r.pc) ==>
      && KeysDistinct(p, r.staged)
      && FinalKeys(p, r.staged) <= r.used
      && (r.pc.CreateStage? ==> p.key(r.pc.path) in r.used && p.key(r.pc.path) !in FinalKeys(p, r.staged))
  }

  function SumLen(bodies: seq<Bytes>): nat
  {
    if bodies == [] then 0 else SumLen(bodies[..|bodies| - 1]) + |bodies[|bodies| - 1]|
  }

  /** The errors a validated request rules out. */
  predicate Impossible(e: TransferError)
  {
    e == InvalidPeerResponse(FileSizeOverflow) || e == InvalidPeerResponse(TransferSizeOverflow) ||
    e == InvalidPeerResponse(TotalMismatch)
  }

  ghost predicate Verified(p: Policy, files: seq<TransferFile>, got: seq<Bytes>)
  {
    && |got| <= |files|
    && forall i :: 0 <= i < |got| ==>
         |got[i]| == files[i].size && DigestMatches(files[i].sha256, p.digest(got[i]))
  }

  /** Bytes are conserved: what was counted is what the finished files and the open one hold. */
  ghost predicate CountInv(p: Policy, r: Receiver)
  {
    && (Active(r.pc) ==> Verified(p, r.files, r.got))
    && (BetweenFiles(r.pc) || FilesDone(r.pc) ==> r.transferred == SumLen(r.got))
    && (InFile(r.pc) ==>
          && |r.got| < |r.files|
          && r.transferred == SumLen(r.got) + |r.hashed|
          && r.received == |r.hashed| + (if r.pc.WriteChunk? then |r.pc.data| else 0)
          && r.received <= r.files[|r.got|].size)
    && (Undoing(r.pc) ==> !Impossible(r.pc.error))
    && (EndedAborted(r.pc) ==> !Impossible(r.pc.outcome.error))
    && (r.pc.WriteNotice? && r.pc.after.Aborted? ==> !Impossible(r.pc.after.error))
  }

  predicate PhaseFits(pc: Pc, phase: Phase)
  {
    if NotAdmitted(pc) || pc.AwaitAnnouncement? || pc.AwaitDecision? || pc.WriteDecision?
    then phase == WaitingForAcceptance
    else if pc.WriteNotice? then phase == WaitingForAcceptance || phase == Phase.Failed
    else if pc.CheckFolder? || Receiving(pc) then phase == Transferring
    else if Finalizing(pc) || pc.ConfirmAll? then phase == Verifying
    else if pc.ConfirmLast? || pc.WriteResult? || pc.SettleResult? then phase == Completing
    else if Undoing(pc) then phase == Transferring || phase == Verifying || phase == Completing
    else if pc.Ended? && pc.outcome.Succeeded? then phase == Phase.Completed
    else if pc.Ended? && pc.outcome.Declined? then phase == Rejected
    else if pc.Ended? && pc.outcome.Aborted? then phase == ErrorPhase(pc.outcome.error)
    else false
  }

  ghost predicate TrackInv(r: Receiver)
  {
    && Sound(r.tracker)
    && PhaseFits(r.pc, r.tracker.now.phase)
    && (r.pc.WriteNotice? && r.tracker.now.phase == Phase.Failed ==> r.pc.after == Aborted(AppUnavailable))
    && (if NotAdmitted(r.pc) then r.tracker == NewTracker(WaitingForAcceptance)
        else r.tracker.emitted != [] && r.tracker.now.total == r.total)
  }

  predicate IsRequest(f: Frame, id: string, files: seq<TransferFile>, total: nat)
  {
    f.Control? && f.message.TransferRequest? &&
    f.message.id == id && f.message.files == files && f.message.total == total
  }

  /** The frames consumed so far spell out exactly the files received so far. */
  ghost predicate LogInv(r: Receiver)
  {
    && (r.pc.AwaitRequest? ==> r.log == [])
    && (!NotStarted(r.pc) ==> r.log != [] && IsRequest(r.log[0], r.id, r.files, r.total))
    && (Unstaged(r.pc) && !NotStarted(r.pc) && !r.pc.WriteNotice? && !r.pc.Ended? ==>
          Parse(r.log) == Parsed([], None, false))
    && (Active(r.pc) ==>
          Parse(r.log) == Parsed(
            if r.pc.Flush? then r.got + [r.hashed] else r.got,
            match r.pc
            case ChooseName => Some([])
            case CreateStage(_) => Some([])
            case Stream => Some(r.hashed)
            case WriteChunk(data) => Some(r.hashed + data)
            case _ => None,
            !(BetweenFiles(r.pc) || InFile(r.pc) || r.pc.AwaitComplete?)))
  }

  /** A success result is only ever sent by a receiver that is past every error path. */
  ghost predicate SentInv(r: Receiver)
  {
    && (r.pc.WriteNotice? ==> !IsSuccess(r.pc.notice))
    && (forall k :: 0 <= k < |r.sent| && r.sent[k].Control? && IsSuccess(r.sent[k].message) ==>
          r.pc.SettleResult? || (r.pc.Ended? && r.pc.outcome.Succeeded?))
  }

  /** Where the bytes are. */
  ghost predicate Places(p: Policy, r: Receiver)
  {
    && |r.finalized| <= |r.staged|
    && FolderInv(r) && ContentInv(r) && KeysInv(p, r)
  }

  /** What was counted, shown, read and written. */
  ghost predicate Books(p: Policy, r: Receiver)
  {
    CountInv(p, r) && TrackInv(r) && LogInv(r) && SentInv(r)
  }

  ghost predicate Inv(p: Policy, r: Receiver) { Shape(r) && Places(p, r) && Books(p, r) }

  // ----- steps that leave the files alone -------------------------------

  ghost predicate SamePlaces(r: Receiver, s: Receiver)
  {
    && s.folder == r.folder && s.staged == r.staged && s.finalized == r.finalized
    && s.got == r.got && s.hashed == r.hashed && s.used == r.used && s.leftover == r.leftover
    && (Active(s.pc) ==> Active(r.pc) || (r.staged == [] && r.got == []))
    && (s.pc.CreateStage? ==> s.pc == r.pc)
    && ((Cleaned(s.pc) == Cleaned(r.pc) && RolledBackAll(s.pc) == RolledBackAll(r.pc)) || r.staged == [])
  }

  /** The folder part looks at nothing else. */
  lemma FolderFrame(r: Receiver, s: Receiver)
    requires |r.finalized| <= |r.staged| && FolderInv(r)
    requires s.folder == r.folder && s.staged == r.staged && s.finalized == r.finalized && s.leftover == r.leftover
    requires Cleaned(s.pc) == Cleaned(r.pc) && RolledBackAll(s.pc) == RolledBackAll(r.pc)
    ensures FolderInv(s)
  {
    hide Temporaries, NameSet;
    assert OwnNames(s) == OwnNames(r);
  }

  /** Nor does the content part; a verified file counts as before. */
  lemma ContentFrame(r: Receiver, s: Receiver)
    requires ContentInv(r) && Active(r.pc)
    requires s.folder == r.folder && s.staged == r.staged && s.finalized == r.finalized
    requires (s.got == r.got && s.hashed == r.hashed) ||
             (s.got == r.got + [r.hashed] && |r.staged| == |r.got| + 1)
    ensures ContentInv(s)
  {
    assert forall j :: 0 <= j < |r.staged| ==> Body(s, j) == Body(r, j);
    hide Body;
  }

  lemma SamePlacesKeep(p: Policy, r: Receiver, s: Receiver)
    requires Places(p, r) && SamePlaces(r, s)
    ensures Places(p, s)
  {
    hide Candidate;
    if r.staged == [] {
      assert OwnNames(r) == {} && OwnNames(s) == {};
    }
  }

  // ----- the environment -------------------------------------------------

  /** Shape and books do not look at the folder's contents or at the tokens. */
  lemma FrameKeeps(p: Policy, r: Receiver, s: Receiver)
    requires Shape(r) && Books(p, r)
    requires s == r.(folder := s.folder, cancelled := s.cancelled, shutdown := s.shutdown)
    ensures Shape(s) && Books(p, s)
  {
    hide ValidRequest, Sound, Parse, DigestMatches;
    assert Shape(s) by { hide CountInv, TrackInv, LogInv, SentInv; }
    assert CountInv(p, s) by { hide Shape, TrackInv, LogInv, SentInv; }
    assert TrackInv(s) by { hide Shape, CountInv, LogInv, SentInv; }
    assert LogInv(s) by { hide Shape, CountInv, TrackInv, SentInv; }
    hide Shape, CountInv, TrackInv, LogInv;
  }

  lemma FlagsKeep(p: Policy, r: Receiver, cancelled: bool, shutdown: bool)
    requires Inv(p, r)
    ensures Inv(p, r.(cancelled := cancelled, shutdown := shutdown))
  {
    var s := r.(cancelled := cancelled, shutdown := shutdown);
    FrameKeeps(p, r, s);
    assert SamePlaces(r, s) by { hide Shape, Books, Places; }
    SamePlacesKeep(p, r, s);
    hide Shape, Books, Places, SamePlaces;
  }

  /** Other processes may add files: they neither touch ours nor are taken for ours. */
  lemma ForeignFilesFolder(r: Receiver, added: map<string, Bytes>)
    requires |r.finalized| <= |r.staged| && FolderInv(r)
    ensures FolderInv(OnForeignFiles(r, added))
  {
    var s := OnForeignFiles(r, added);
    assert OwnNames(s) == OwnNames(r);
    hide OwnNames, Temporaries, NameSet;
  }

  lemma ForeignFilesContent(r: Receiver, added: map<string, Bytes>)
    requires ContentInv(r)
    ensures ContentInv(OnForeignFiles(r, added))
  {
    hide Temporaries;
  }

  lemma ForeignFilesPlaces(p: Policy, r: Receiver, added: map<string, Bytes>)
    requires Places(p, r)
    ensures Places(p, OnForeignFiles(r, added))
  {
    hide FinalKeys, FolderInv, ContentInv, KeysDistinct;
    ForeignFilesFolder(r, added);
    ForeignFilesContent(r, added);
  }

  lemma ForeignFilesKeep(p: Policy, r: Receiver, added: map<string, Bytes>)
    requires Inv(p, r)
    ensures Inv(p, OnForeignFiles(r, added))
  {
    FrameKeeps(p, r, OnForeignFiles(r, added));
    ForeignFilesPlaces(p, r, added);
    hide Shape, Books, Places;
  }

  // ----- failing ---------------------------------------------------------

  /** What a state must still satisfy when an error path takes over. */
  ghost predicate FailReady(r: Receiver)
  {
    && ValidRequest(r.id, r.files, r.total) && 1 <= |r.files|
    && |r.finalized| <= |r.staged|
    && ForeignIntact(r.folder)
    && Temporaries(r.staged) !! r.folder.foreign.Keys
    && NameSet(r.finalized) !! r.folder.foreign.Keys
    && NameSet(r.finalized) <= r.folder.files.Keys + Temporaries(r.staged)
    && (!r.leftover ==>
          r.folder.files.Keys <=
          r.folder.foreign.Keys + (Temporaries(r.staged[|r.finalized|..]) + NameSet(r.finalized)))
    && Sound(r.tracker) && r.tracker.emitted != [] && r.tracker.now.total == r.total
    && (r.tracker.now.phase == Transferring || r.tracker.now.phase == Verifying ||
        r.tracker.now.phase == Completing)
    && r.log != [] && IsRequest(r.log[0], r.id, r.files, r.total)
    && (forall k :: 0 <= k < |r.sent| && r.sent[k].Control? ==> !IsSuccess(r.sent[k].message))
  }

  lemma ActiveCanFail(p: Policy, r: Receiver)
    requires Inv(p, r) && (r.pc.CheckFolder? || (Active(r.pc) && !Committed(r.pc)))
    ensures FailReady(r)
  {
    hide ValidRequest, Sound, Parse, DigestMatches, ContentInv, KeysInv, CountInv;
    if r.pc.CheckFolder? {
      assert r.staged[|r.finalized|..] == [];
    }
  }

  lemma FailPlaces(p: Policy, r: Receiver, e: TransferError)
    requires FailReady(r)
    ensures Places(p, Fail(r, e))
  {
    hide ValidRequest, Sound, IsRequest, IsSuccess;
    var s := Fail(r, e);
    assert OwnNames(s) == Temporaries(r.staged[|r.finalized|..]) + NameSet(r.finalized);
  }

  lemma FailBooks(p: Policy, r: Receiver, e: TransferError)
    requires FailReady(r) && !Impossible(e)
    ensures Shape(Fail(r, e)) && Books(p, Fail(r, e))
  {
    hide ValidRequest, Sound, Parse, DigestMatches, ForeignIntact, Temporaries, NameSet, Impossible;
  }

  lemma FailKeeps(p: Policy, r: Receiver, e: TransferError)
    requires FailReady(r) && !Impossible(e)
    ensures Inv(p, Fail(r, e))
  {
    hide FailReady, Impossible, Shape, Places, Books, Fail;
    FailPlaces(p, r, e);
    FailBooks(p, r, e);
  }

  lemma FinishErrorEmits(t: Tracker, e: TransferError)
    requires t.emitted != []
    ensures FinishError(t, e).emitted != [] && FinishError(t, e).now.total == t.now.total
  {
  }

  // ----- from the request to the decision -------------------------------

  /** The request is accepted and nothing was staged; true at every point before the first file. */
  ghost predicate EarlyFacts(r: Receiver)
  {
    && ValidRequest(r.id, r.files, r.total) && 1 <= |r.files|
    && r.staged == [] && r.got == [] && r.finalized == [] && r.used == {} && r.transferred == 0 && !r.leftover
    && ForeignIntact(r.folder) && r.folder.files.Keys <= r.folder.foreign.Keys
    && r.log != [] && IsRequest(r.log[0], r.id, r.files, r.total)
    && (forall k :: 0 <= k < |r.sent| && r.sent[k].Control? ==> !IsSuccess(r.sent[k].message))
  }

  /** Points before the first file that still go on. */
  predicate Open(pc: Pc)
  {
    pc.AwaitTrust? || pc.AwaitAdmission? || pc.AwaitAnnouncement? || pc.AwaitDecision? ||
    pc.WriteDecision? || pc.CheckFolder?
  }

  /** The last message of a run without files, or its end. */
  predicate Closing(pc: Pc)
  {
    match pc
    case WriteNotice(notice, after) =>
      !IsSuccess(notice) && (after.Busy? || (after.Aborted? && !Impossible(after.error)))
    case Ended(outcome) =>
      outcome.Busy? || outcome.Declined? || (outcome.Aborted? && !Impossible(outcome.error))
    case _ => false
  }

  ghost predicate EarlyState(r: Receiver)
  {
    && EarlyFacts(r) && TrackInv(r)
    && ((Open(r.pc) && Parse(r.log) == Parsed([], None, false)) || Closing(r.pc))
  }

  lemma EarlyFromInv(p: Policy, r: Receiver)
    requires Inv(p, r) && (Open(r.pc) || (r.pc.WriteNotice? && !r.pc.after.NoTransfer?))
    ensures EarlyState(r)
  {
    hide ValidRequest, Sound, Parse, DigestMatches, ContentInv, KeysInv;
    assert OwnNames(r) == {};
    assert EarlyFacts(r) by { hide TrackInv; }
    hide EarlyFacts, TrackInv;
  }

  lemma EarlyPlaces(p: Policy, r: Receiver)
    requires EarlyState(r)
    ensures Shape(r) && Places(p, r)
  {
    hide ValidRequest, Sound, Parse, DigestMatches, TrackInv;
    assert Shape(r) by { hide Places; }
    assert OwnNames(r) == {};
    hide Shape;
  }

  lemma EarlyToInv(p: Policy, r: Receiver)
    requires EarlyState(r)
    ensures Inv(p, r)
  {
    hide ValidRequest, Sound, Parse, DigestMatches;
    EarlyPlaces(p, r);
    assert CountInv(p, r) by { hide TrackInv, LogInv, SentInv, Places, Shape; }
    assert LogInv(r) by { hide TrackInv, CountInv, SentInv, Places, Shape; }
    assert SentInv(r) by { hide TrackInv, CountInv, LogInv, Places, Shape; }
    hide Places, Shape, CountInv, LogInv, SentInv, TrackInv;
  }

  lemma AppendLog(r: Receiver, f: Frame)
    ensures Parse(r.log + [f]) == ParseFrame(Parse(r.log), f)
    ensures r.log != [] ==> (r.log + [f])[0] == r.log[0]
  {
    ParseAppend(r.log, f);
  }

  /** Before a request nothing is known but the folder. */
  ghost predicate BlankState(r: Receiver)
  {
    && r.staged == [] && r.got == [] && r.finalized == [] && r.used == {} && r.transferred == 0 && !r.leftover
    && ForeignIntact(r.folder) && r.folder.files.Keys <= r.folder.foreign.Keys
    && NotStarted(r.pc) && (r.pc.WriteNotice? ==> !IsSuccess(r.pc.notice))
    && (r.pc.AwaitRequest? ==> r.log == [])
    && r.tracker == NewTracker(WaitingForAcceptance)
    && (forall k :: 0 <= k < |r.sent| && r.sent[k].Control? ==> !IsSuccess(r.sent[k].message))
  }

  lemma BlankToInv(p: Policy, r: Receiver)
    requires BlankState(r)
    ensures Inv(p, r)
  {
    hide ValidRequest, Parse, DigestMatches;
    assert OwnNames(r) == {};
    assert Places(p, r) by { hide Books, Shape; }
    assert Shape(r) by { hide Books, Places; }
    hide Places, Shape;
  }

  lemma BlankFromInv(p: Policy, r: Receiver)
    requires Inv(p, r) && NotStarted(r.pc)
    ensures BlankState(r)
  {
    hide ValidRequest, Sound, Parse, DigestMatches, ContentInv, KeysInv, CountInv;
    assert OwnNames(r) == {};
  }

  lemma RequestParses(f: Frame)
    requires f.Control? && f.message.TransferRequest?
    ensures Parse([f]) == Parsed([], None, false)
  {
    assert [] + [f] == [f];
    assert Parse([]) == Parsed([], None, false);
    ParseAppend([], f);
  }

  lemma RequestIsEarly(r: Receiver, f: Frame)
    requires BlankState(r) && r.pc.AwaitRequest?
    requires f.Control? && f.message.TransferRequest?
    requires ValidRequest(f.message.id, f.message.files, f.message.total)
    ensures EarlyState(OnFirstFrame(r.(log := r.log + [f]), f))
  {
    hide ValidTransferId, ValidFile, Parse, Sound, ForeignIntact;
    assert r.log + [f] == [f];
    RequestParses(f);
    FirstTrackerSound();
  }

  lemma RequestAcceptedKeeps(p: Policy, r: Receiver, f: Frame)
    requires Inv(p, r) && r.pc.AwaitRequest?
    requires f.Control? && f.message.TransferRequest?
    requires ValidRequest(f.message.id, f.message.files, f.message.total)
    ensures Inv(p, OnFirstFrame(r.(log := r.log + [f]), f))
  {
    hide Inv, BlankState, EarlyState, ValidRequest, OnFirstFrame;
    BlankFromInv(p, r);
    RequestIsEarly(r, f);
    EarlyToInv(p, OnFirstFrame(r.(log := r.log + [f]), f));
  }

  lemma FirstFrameKeeps(p: Policy, r: Receiver, f: Frame)
    requires Inv(p, r) && r.pc.AwaitRequest?
    ensures Inv(p, OnFirstFrame(r.(log := r.log + [f]), f))
  {
    hide ValidRequest;
    var s := OnFirstFrame(r.(log := r.log + [f]), f);
    if s.pc.AwaitTrust? {
      RequestAcceptedKeeps(p, r, f);
    } else {
      BlankFromInv(p, r);
      hide Inv, Sound, Parse;
      if s.pc.WriteNotice? {
        BlankToInv(p, s);
      } else {
        BlankToInv(p, s);
      }
    }
  }

  lemma FirstTrackerSound()
    ensures Sound(NewTracker(WaitingForAcceptance))
  {
  }

  lemma RequestLostKeeps(p: Policy, r: Receiver, e: TransferError)
    requires Inv(p, r) && (r.pc.AwaitRequest? || r.pc.AwaitTrust?)
    ensures Inv(p, r.(pc := Ended(NoTransfer(e))))
  {
    if r.pc.AwaitRequest? {
      BlankFromInv(p, r);
    } else {
      EarlyFromInv(p, r);
    }
    hide Inv, Sound, ValidRequest, Parse;
    BlankToInv(p, r.(pc := Ended(NoTransfer(e))));
  }

  lemma TrustKeeps(p: Policy, r: Receiver, failure: Option<TransferError>)
    requires Inv(p, r) && r.pc.AwaitTrust?
    ensures Inv(p, OnTrust(r, failure))
  {
    if failure.Some? {
      RequestLostKeeps(p, r, failure.value);
    } else {
      EarlyFromInv(p, r);
      hide Inv, Sound, ValidRequest, Parse;
      EarlyToInv(p, OnTrust(r, failure));
    }
  }

  lemma FirstSnapshotSound(total: nat)
    ensures Sound(Emit(SetTotal(NewTracker(WaitingForAcceptance), total)))
  {
  }

  lemma AdmissionKeeps(p: Policy, r: Receiver, admitted: bool)
    requires Inv(p, r) && r.pc.AwaitAdmission?
    ensures Inv(p, OnAdmission(r, admitted))
  {
    hide Inv, Sound, ValidRequest, Parse;
    EarlyFromInv(p, r);
    FirstSnapshotSound(r.total);
    if admitted {
      EarlyToInv(p, OnAdmission(r, admitted));
    } else {
      EarlyToInv(p, OnAdmission(r, admitted));
    }
  }

  /** The tracker shows the end the error calls for. */
  ghost predicate ShowsError(t: Tracker, e: TransferError, total: nat)
  {
    Sound(t) && t.emitted != [] && t.now.total == total && t.now.phase == ErrorPhase(e)
  }

  lemma FinishErrorShows(t: Tracker, e: TransferError, total: nat)
    requires Sound(t) && t.emitted != [] && t.now.total == total
    requires IsTerminal(t.now.phase) ==> t.now.phase == ErrorPhase(e)
    ensures ShowsError(FinishError(t, e), e, total)
  {
    FinishErrorSound(t, e);
    FinishErrorEmits(t, e);
  }

  lemma EndEarly(p: Policy, r: Receiver, e: TransferError, t: Tracker)
    requires EarlyFacts(r) && ShowsError(t, e, r.total) && !Impossible(e)
    ensures Inv(p, r.(pc := Ended(Aborted(e)), tracker := t))
  {
    hide Inv, Sound, ValidRequest, Parse, ErrorPhase, Impossible;
    EarlyToInv(p, r.(pc := Ended(Aborted(e)), tracker := t));
  }

  lemma EarlyFailKeeps(p: Policy, r: Receiver, e: TransferError)
    requires EarlyFacts(r) && !Impossible(e)
    requires Sound(r.tracker) && r.tracker.emitted != [] && r.tracker.now.total == r.total
    requires IsTerminal(r.tracker.now.phase) ==> r.tracker.now.phase == ErrorPhase(e)
    ensures Inv(p, FailEarly(r, e))
  {
    FinishErrorShows(r.tracker, e, r.total);
    EndEarly(p, r, e, FinishError(r.tracker, e));
  }

  lemma AnnouncementKeeps(p: Policy, r: Receiver, ok: bool)
    requires Inv(p, r) && r.pc.AwaitAnnouncement?
    ensures Inv(p, OnAnnounced(r, ok))
  {
    hide Inv, Sound, ValidRequest, Parse, FinishError, EarlyState;
    EarlyFromInv(p, r);
    AnnouncementEarly(r, ok);
    EarlyToInv(p, OnAnnounced(r, ok));
  }

  lemma AnnouncementEarly(r: Receiver, ok: bool)
    requires EarlyState(r) && r.pc.AwaitAnnouncement?
    ensures EarlyState(OnAnnounced(r, ok))
  {
    hide Sound, ValidRequest, Parse, FinishError;
    FinishErrorShows(r.tracker, AppUnavailable, r.total);
  }

  /** Waiting for the recipient ends in a written decision, a withdrawn one, or an error. */
  lemma DecisionStartsKeeps(p: Policy, r: Receiver, verdict: Verdict)
    requires Inv(p, r) && r.pc.AwaitDecision?
    ensures Inv(p, r.(pc := WriteDecision(verdict)))
  {
    hide Inv, Sound, ValidRequest, Parse;
    EarlyFromInv(p, r);
    EarlyToInv(p, r.(pc := WriteDecision(verdict)));
  }

  lemma DecisionFailedKeeps(p: Policy, r: Receiver, e: TransferError)
    requires Inv(p, r) && r.pc.AwaitDecision? && !Impossible(e)
    ensures Inv(p, DecisionFailed(r, e))
  {
    hide Inv, Sound, ValidRequest, Parse;
    EarlyFromInv(p, r);
    if e != TransferError.Canceled {
      hide EarlyFacts;
      EarlyFailKeeps(p, r, e);
    } else {
      EarlyToInv(p, DecisionFailed(r, e));
    }
  }

  lemma AnswerKeeps(p: Policy, r: Receiver, answer: Answer)
    requires Inv(p, r) && r.pc.AwaitDecision?
    ensures Inv(p, OnAnswer(r, answer))
  {
    hide Inv, DecisionFailed;
    DecisionFailedKeeps(p, r, ShuttingDown);
    if r.cancelled {
      DecisionFailedKeeps(p, r, TransferError.Canceled);
    }
    DecisionFailedKeeps(p, r, AppUnavailable);
    DecisionStartsKeeps(p, r, Accept);
    DecisionStartsKeeps(p, r, Decline(DeclinedText));
  }

  lemma FrameWhileDecidingKeeps(p: Policy, r: Receiver, f: Frame)
    requires Inv(p, r) && r.pc.AwaitDecision?
    ensures Inv(p, OnFrameWhileDeciding(r.(log := r.log + [f]), f))
  {
    hide Inv, ValidRequest, Sound, Parse, FailEarly;
    EarlyFromInv(p, r);
    var logged := r.(log := r.log + [f]);
    assert EarlyFacts(logged) by { hide TrackInv; }
    hide EarlyFacts;
    if f == Control(Cancel(r.id)) {
      EarlyFailKeeps(p, logged, RemoteCanceled);
    } else {
      EarlyFailKeeps(p, logged, InvalidPeerResponse(UnexpectedWhileWaiting));
    }
  }

  lemma DeliverKeepsEarly(r: Receiver, m: Message, delivered: bool)
    requires EarlyState(r) && !IsSuccess(m)
    ensures EarlyState(Deliver(r, m, delivered))
  {
    hide Sound, ValidRequest, Parse;
    if delivered {
      assert EarlyFacts(Deliver(r, m, delivered)) by { hide TrackInv; }
      hide EarlyFacts;
    }
  }

  lemma RejectedSound(t: Tracker)
    requires Sound(t) && t.now.phase == WaitingForAcceptance
    ensures var u := Transition(t, Rejected);
            Sound(u) && u.now == t.now.(phase := Rejected) && u.emitted != []
  {
    TransitionSound(t, Rejected);
  }

  lemma DecisionWrittenKeeps(p: Policy, r: Receiver, ok: bool, delivered: bool)
    requires Inv(p, r) && r.pc.WriteDecision?
    ensures Inv(p, OnDecisionWritten(r, r.pc.verdict, ok, delivered))
  {
    hide Inv, Sound, ValidRequest, Parse, FinishError, Transition;
    EarlyFromInv(p, r);
    var verdict := r.pc.verdict;
    var reason := if verdict.Accept? then None else Some(verdict.reason);
    var s := Deliver(r, TransferDecision(r.id, verdict.Accept?, reason), ok || delivered);
    DeliverKeepsEarly(r, TransferDecision(r.id, verdict.Accept?, reason), ok || delivered);
    if !ok {
      EarlyFailKeeps(p, s, Connection);
    } else {
      VerdictDeliveredKeeps(p, s, verdict);
    }
    hide EarlyState;
  }

  lemma VerdictDeliveredKeeps(p: Policy, s: Receiver, verdict: Verdict)
    requires EarlyState(s) && s.pc == WriteDecision(verdict)
    ensures verdict.Accept? ==>
              Inv(p, s.(pc := CheckFolder,
                        tracker := Transition(Transition(s.tracker, Phase.Accepted), Transferring)))
    ensures !verdict.Accept? ==> Inv(p, s.(pc := Ended(Declined), tracker := Transition(s.tracker, Rejected)))
  {
    hide Inv, Sound, ValidRequest, Parse, Transition;
    if verdict.Accept? {
      AcceptedSound(s.tracker);
      EarlyToInv(p, s.(pc := CheckFolder,
                       tracker := Transition(Transition(s.tracker, Phase.Accepted), Transferring)));
    } else {
      RejectedSound(s.tracker);
      EarlyToInv(p, s.(pc := Ended(Declined), tracker := Transition(s.tracker, Rejected)));
    }
  }

  lemma NoticeWrittenKeeps(p: Policy, r: Receiver, delivered: bool)
    requires Inv(p, r) && r.pc.WriteNotice?
    ensures Inv(p, OnNoticeWritten(r, r.pc.notice, r.pc.after, delivered))
  {
    var notice, after := r.pc.notice, r.pc.after;
    if after.NoTransfer? {
      BlankFromInv(p, r);
      hide Inv, Sound, ValidRequest, Parse;
      if delivered {
        BlankToInv(p, OnNoticeWritten(r, notice, after, delivered));
      } else {
        BlankToInv(p, OnNoticeWritten(r, notice, after, delivered));
      }
    } else {
      EarlyFromInv(p, r);
      hide Inv;
      DeliverKeepsEarly(r, notice, delivered);
      NoticeDoneKeeps(p, Deliver(r, notice, delivered));
      hide EarlyState;
    }
  }

  lemma FailedIsAppUnavailable()
    ensures ErrorPhase(AppUnavailable) == Phase.Failed
  {
  }

  lemma NoticeDoneKeeps(p: Policy, s: Receiver)
    requires EarlyState(s) && s.pc.WriteNotice?
    ensures Inv(p, s.(pc := Ended(s.pc.after),
                      tracker := if s.pc.after.Aborted? then FinishError(s.tracker, s.pc.after.error) else s.tracker))
  {
    hide Inv, Sound, ValidRequest, Parse;
    if s.pc.after.Aborted? {
      hide EarlyFacts, FinishError, ErrorPhase;
      assert IsTerminal(s.tracker.now.phase) ==> s.tracker.now.phase == ErrorPhase(s.pc.after.error) by {
        FailedIsAppUnavailable();
      }
      EarlyFailKeeps(p, s, s.pc.after.error);
    } else {
      EarlyToInv(p, s.(pc := Ended(s.pc.after)));
    }
  }

  lemma FolderFoundBooks(p: Policy, r: Receiver)
    requires Shape(r) && Books(p, r) && r.pc.CheckFolder?
    ensures Shape(r.(pc := AwaitFile)) && Books(p, r.(pc := AwaitFile))
  {
    hide ValidRequest, Sound, DigestMatches, Parse;
  }

  lemma FolderFoundKeeps(p: Policy, r: Receiver)
    requires Inv(p, r) && r.pc.CheckFolder?
    ensures Inv(p, r.(pc := AwaitFile))
  {
    hide ValidRequest, Books, FolderInv, ContentInv, KeysInv;
    FolderFoundBooks(p, r);
    SamePlacesKeep(p, r, r.(pc := AwaitFile));
  }

  lemma FolderCheckedKeeps(p: Policy, r: Receiver, available: bool)
    requires Inv(p, r) && r.pc.CheckFolder?
    ensures Inv(p, OnFolderChecked(r, available))
  {
    hide Inv;
    if available {
      FolderFoundKeeps(p, r);
    } else {
      ErrorKeeps(p, r, Destination);
    }
  }

  // ----- receiving the files --------------------------------------------

  lemma LoggedCanFail(r: Receiver, f: Frame)
    requires FailReady(r)
    ensures FailReady(r.(log := r.log + [f]))
  {
    hide ValidRequest, Sound;
  }

  /** An error at a point where staging files may exist. */
  lemma ErrorKeeps(p: Policy, r: Receiver, e: TransferError)
    requires Inv(p, r) && (r.pc.CheckFolder? || (Active(r.pc) && !Committed(r.pc))) && !Impossible(e)
    ensures Inv(p, Fail(r, e))
  {
    hide Inv, FailReady;
    ActiveCanFail(p, r);
    FailKeeps(p, r, e);
  }

  lemma ErrorOnFrameKeeps(p: Policy, r: Receiver, f: Frame, e: TransferError)
    requires Inv(p, r) && Receiving(r.pc) && !Impossible(e)
    ensures Inv(p, Fail(r.(log := r.log + [f]), e))
  {
    hide Inv, FailReady;
    ActiveCanFail(p, r);
    LoggedCanFail(r, f);
    FailKeeps(p, r.(log := r.log + [f]), e);
  }

  lemma FileStartAcceptedBooks(p: Policy, r: Receiver, f: Frame)
    requires Shape(r) && Books(p, r) && r.pc.AwaitFile? && f == Control(FileStart(r.id, |r.got|))
    ensures Shape(r.(log := r.log + [f], pc := ChooseName)) && Books(p, r.(log := r.log + [f], pc := ChooseName))
  {
    hide ValidRequest, Sound, DigestMatches, Parse;
    AppendLog(r, f);
  }

  lemma FileStartAcceptedKeeps(p: Policy, r: Receiver, f: Frame)
    requires Inv(p, r) && r.pc.AwaitFile? && f == Control(FileStart(r.id, |r.got|))
    ensures Inv(p, r.(log := r.log + [f], pc := ChooseName))
  {
    hide Shape, Books, FolderInv, ContentInv, KeysInv;
    FileStartAcceptedBooks(p, r, f);
    SamePlacesKeep(p, r, r.(log := r.log + [f], pc := ChooseName));
  }

  lemma FileStartKeeps(p: Policy, r: Receiver, f: Frame)
    requires Inv(p, r) && r.pc.AwaitFile?
    ensures Inv(p, OnFileStart(r.(log := r.log + [f]), f))
  {
    hide Inv;
    if f == Control(FileStart(r.id, |r.got|)) {
      FileStartAcceptedKeeps(p, r, f);
    } else {
      ErrorOnFrameKeeps(p, r, f, InvalidPeerResponse(OutOfOrder));
      ErrorOnFrameKeeps(p, r, f, RemoteCanceled);
      ErrorOnFrameKeeps(p, r, f, InvalidPeerResponse(ExpectedNextFile));
      ErrorOnFrameKeeps(p, r, f, InvalidPeerResponse(ExpectedControl));
    }
  }

  lemma NameChosenPlaces(p: Policy, r: Receiver, index: nat)
    requires Places(p, r) && r.pc.ChooseName? && |r.got| < |r.files|
    ensures Places(p, OnNameChosen(p, r, index))
  {
    hide Candidate, KeysDistinct, FolderInv, ContentInv, FinalKeys;
    var s := OnNameChosen(p, r, index);
    FolderFrame(r, s);
    ContentFrame(r, s);
  }

  lemma NameChosenKeeps(p: Policy, r: Receiver, index: nat)
    requires Inv(p, r) && r.pc.ChooseName? && |r.got| < |r.files|
    ensures Inv(p, OnNameChosen(p, r, index))
  {
    hide ValidRequest, Sound, DigestMatches, Parse, Candidate, FolderInv, ContentInv, KeysInv;
    NameChosenPlaces(p, r, index);
  }

  lemma TemporariesAppend(staged: seq<Staged>, x: Staged)
    ensures Temporaries(staged + [x]) == Temporaries(staged) + {x.temporary}
  {
    var both := staged + [x];
    assert both[|staged|] == x;
    forall t | t in Temporaries(staged) + {x.temporary} ensures t in Temporaries(both) {
      if t in Temporaries(staged) {
        var i :| 0 <= i < |staged| && staged[i].temporary == t;
        assert both[i].temporary == t;
      }
    }
  }

  lemma FinalKeysAppend(p: Policy, staged: seq<Staged>, x: Staged)
    ensures FinalKeys(p, staged + [x]) == FinalKeys(p, staged) + {p.key(x.finalPath)}
  {
    var both := staged + [x];
    assert both[|staged|] == x;
    forall t | t in FinalKeys(p, staged) + {p.key(x.finalPath)} ensures t in FinalKeys(p, both) {
      if t in FinalKeys(p, staged) {
        var i :| 0 <= i < |staged| && p.key(staged[i].finalPath) == t;
        assert p.key(both[i].finalPath) == t;
      }
    }
  }

  lemma StageCreatedFolder(p: Policy, r: Receiver, path: string)
    requires Shape(r) && FolderInv(r) && r.pc == CreateStage(path) && |r.got| < |r.files|
    ensures FolderInv(OnStageCreated(r, path, None))
  {
    hide ValidRequest, StagingName;
    var s := OnStageCreated(r, path, None);
    TemporariesAppend(r.staged, Staged(r.files[|r.got|].name, StagingName(r.id, |r.got|), path));
    assert s.staged[|s.finalized|..] == s.staged && r.staged[|r.finalized|..] == r.staged;
    hide Shape;
  }

  lemma StageCreatedContent(r: Receiver, path: string)
    requires Shape(r) && ContentInv(r) && r.pc == CreateStage(path) && |r.got| < |r.files|
    ensures ContentInv(OnStageCreated(r, path, None))
  {
    hide ValidRequest, StagingName;
  }

  lemma StageCreatedKeys(p: Policy, r: Receiver, path: string)
    requires Shape(r) && KeysInv(p, r) && r.pc == CreateStage(path) && |r.got| < |r.files|
    ensures KeysInv(p, OnStageCreated(r, path, None))
  {
    hide ValidRequest, StagingName;
    FinalKeysAppend(p, r.staged, Staged(r.files[|r.got|].name, StagingName(r.id, |r.got|), path));
    assert forall a :: 0 <= a < |r.staged| ==> p.key(r.staged[a].finalPath) in FinalKeys(p, r.staged);
    hide FinalKeys;
  }

  lemma StageCreatedPlaces(p: Policy, r: Receiver, path: string)
    requires Shape(r) && Places(p, r) && r.pc == CreateStage(path) && |r.got| < |r.files|
    ensures Places(p, OnStageCreated(r, path, None))
  {
    hide ValidRequest, StagingName, FolderInv, ContentInv, KeysInv;
    StageCreatedFolder(p, r, path);
    StageCreatedContent(r, path);
    StageCreatedKeys(p, r, path);
  }

  lemma StageCreatedBooks(p: Policy, r: Receiver, path: string)
    requires Shape(r) && Books(p, r) && r.pc == CreateStage(path) && |r.got| < |r.files|
    ensures Shape(OnStageCreated(r, path, None)) && Books(p, OnStageCreated(r, path, None))
  {
    hide ValidRequest, StagingName, Sound, DigestMatches, Parse;
    var s := OnStageCreated(r, path, None);
    assert Shape(s) by { hide Books; }
    assert CountInv(p, s) by { hide TrackInv, LogInv, SentInv; }
    hide CountInv, Shape;
  }

  lemma StageCreatedKeeps(p: Policy, r: Receiver, failure: Option<TransferError>)
    requires Inv(p, r) && r.pc.CreateStage? && |r.got| < |r.files|
    requires failure.Some? ==> IsFileError(failure.value)
    ensures Inv(p, OnStageCreated(r, r.pc.path, failure))
  {
    hide Shape, Places, Books;
    if failure.Some? {
      ErrorKeeps(p, r, failure.value);
    } else {
      StageCreatedPlaces(p, r, r.pc.path);
      StageCreatedBooks(p, r, r.pc.path);
    }
  }

  lemma {:induction false} SumLenIsTotal(p: Policy, files: seq<TransferFile>, got: seq<Bytes>)
    requires Verified(p, files, got)
    ensures SumLen(got) == TotalSize(files[..|got|])
  {
    if got != [] {
      var front := got[..|got| - 1];
      SumLenIsTotal(p, files, front);
      TotalSizeStep(files, |front|);
    }
  }

  /** The open file can hold no more than the batch has left. */
  lemma RoomLeft(p: Policy, r: Receiver)
    requires Inv(p, r) && InFile(r.pc)
    ensures |r.got| < |r.files| && r.received <= r.files[|r.got|].size <= MAX_TRANSFER_BYTES
    ensures SumLen(r.got) + r.files[|r.got|].size <= r.total <= MAX_TRANSFER_BYTES
    ensures r.transferred + (r.received - |r.hashed|) <= r.total
  {
    hide DigestMatches, ValidTransferId, ValidFile, Places, TrackInv, LogInv, SentInv;
    SumLenIsTotal(p, r.files, r.got);
    SizeWithinTotal(r.files, |r.got|);
  }

  lemma ChunkAcceptedBooks(p: Policy, r: Receiver, bytes: Bytes)
    requires Shape(r) && Books(p, r) && r.pc.Stream? && |r.got| < |r.files|
    requires r.received + |bytes| <= r.files[|r.got|].size
    ensures var s := r.(log := r.log + [Data(bytes)], received := r.received + |bytes|, pc := WriteChunk(bytes));
            Shape(s) && Books(p, s)
  {
    hide ValidRequest, Sound, DigestMatches, Parse;
    AppendLog(r, Data(bytes));
  }

  lemma ChunkAcceptedKeeps(p: Policy, r: Receiver, bytes: Bytes)
    requires Inv(p, r) && r.pc.Stream? && |r.got| < |r.files|
    requires r.received + |bytes| <= r.files[|r.got|].size
    ensures Inv(p, r.(log := r.log + [Data(bytes)], received := r.received + |bytes|, pc := WriteChunk(bytes)))
  {
    hide Shape, Books, FolderInv, ContentInv, KeysInv;
    ChunkAcceptedBooks(p, r, bytes);
    SamePlacesKeep(p, r, r.(log := r.log + [Data(bytes)], received := r.received + |bytes|, pc := WriteChunk(bytes)));
  }

  lemma FileEndAcceptedBooks(p: Policy, r: Receiver, f: Frame)
    requires Shape(r) && Books(p, r) && r.pc.Stream? && f == Control(FileEnd(r.id, |r.got|))
    ensures Shape(r.(log := r.log + [f], pc := Flush)) && Books(p, r.(log := r.log + [f], pc := Flush))
  {
    hide ValidRequest, Sound, DigestMatches, Parse;
    AppendLog(r, f);
  }

  lemma FileEndAcceptedKeeps(p: Policy, r: Receiver, f: Frame)
    requires Inv(p, r) && r.pc.Stream? && f == Control(FileEnd(r.id, |r.got|))
    ensures Inv(p, r.(log := r.log + [f], pc := Flush))
  {
    hide Shape, Books, FolderInv, ContentInv, KeysInv;
    FileEndAcceptedBooks(p, r, f);
    SamePlacesKeep(p, r, r.(log := r.log + [f], pc := Flush));
  }

  /** Too much data: the refusal also records the bytes it counted. */
  lemma TooLongKeeps(p: Policy, r: Receiver, f: Frame, received: nat)
    requires Inv(p, r) && r.pc.Stream?
    ensures Inv(p, Refuse(r.(log := r.log + [f], received := received), FileTooLong))
  {
    hide Inv, FailReady;
    ActiveCanFail(p, r);
    LoggedCanFail(r, f);
    CountDoesNotMatter(r.(log := r.log + [f]), received);
    FailKeeps(p, r.(log := r.log + [f], received := received), InvalidPeerResponse(FileTooLong));
  }

  lemma CountDoesNotMatter(r: Receiver, received: nat)
    requires FailReady(r)
    ensures FailReady(r.(received := received))
  {
    hide ValidRequest, Sound;
  }

  lemma StreamFrameKeeps(p: Policy, r: Receiver, f: Frame)
    requires Inv(p, r) && r.pc.Stream? && |r.got| < |r.files| && DeliverableFrame(f)
    ensures Inv(p, OnStreamFrame(r.(log := r.log + [f]), f))
  {
    hide Inv;
    RoomLeft(p, r);
    var logged := r.(log := r.log + [f]);
    match f {
      case Data(bytes) =>
        if r.received + |bytes| <= r.files[|r.got|].size {
          ChunkAcceptedKeeps(p, r, bytes);
        } else {
          TooLongKeeps(p, r, f, r.received + |bytes|);
        }
      case Control(m) =>
        if f == Control(FileEnd(r.id, |r.got|)) {
          FileEndAcceptedKeeps(p, r, f);
        } else {
          ErrorOnFrameKeeps(p, r, f, RemoteCanceled);
          ErrorOnFrameKeeps(p, r, f, InvalidPeerResponse(InvalidDuringFile));
        }
    }
  }

  lemma AppendedLookup(files: map<string, Bytes>, name: string, data: Bytes)
    requires name in files
    ensures var after := Appended(files, name, data);
            && after.Keys == files.Keys && after[name] == files[name] + data
            && forall x :: x in files && x != name ==> after[x] == files[x]
  {
  }

  /** Writing to the open staging file changes no other name. */
  lemma WriteFolder(r: Receiver, data: Bytes)
    requires Shape(r) && FolderInv(r) && r.pc.WriteChunk? && r.staged != []
    requires r.staged[|r.staged| - 1].temporary in r.folder.files
    ensures var s := r.(folder := r.folder.(
                          files := Appended(r.folder.files, r.staged[|r.staged| - 1].temporary, data)));
            Shape(s) && FolderInv(s)
  {
    hide ValidRequest;
    var temporary := r.staged[|r.staged| - 1].temporary;
    AppendedLookup(r.folder.files, temporary, data);
    assert temporary in Temporaries(r.staged);
    var s := r.(folder := r.folder.(files := Appended(r.folder.files, temporary, data)));
    assert OwnNames(s) == OwnNames(r);
    hide Appended, Temporaries, NameSet, OwnNames, Shape;
  }

  lemma ChunkLostKeeps(p: Policy, r: Receiver, written: nat, failure: TransferError, clock: Clock)
    requires Inv(p, r) && r.pc.WriteChunk? && r.staged != [] && IsFileError(failure)
    ensures Inv(p, OnChunkWritten(r, r.pc.data, written, Some(failure), clock))
  {
    hide Inv, Books, KeysInv, Shape, FolderInv, FailReady, Appended;
    var data := r.pc.data;
    var temporary := r.staged[|r.staged| - 1].temporary;
    var part := data[..Min(written, |data|)];
    var s := r.(folder := r.folder.(files := Appended(r.folder.files, temporary, part)));
    OpenFileThere(p, r);
    WriteFolder(r, part);
    ActiveCanFail(p, r);
    PartialWriteCanFail(r, s);
    FailKeeps(p, s, if CancelledBy(r).Some? then CancelledBy(r).value else failure);
  }

  lemma OpenFileThere(p: Policy, r: Receiver)
    requires Inv(p, r) && InFile(r.pc)
    ensures r.staged != [] && r.staged[|r.staged| - 1].temporary in r.folder.files
    ensures r.folder.files[r.staged[|r.staged| - 1].temporary] == r.hashed
    ensures Shape(r) && FolderInv(r)
  {
    hide ValidRequest, FolderInv, KeysInv, Books;
  }

  lemma PartialWriteCanFail(r: Receiver, s: Receiver)
    requires FailReady(r) && Shape(s) && FolderInv(s) && s == r.(folder := s.folder) && r.pc.WriteChunk?
    ensures FailReady(s)
  {
    hide ValidRequest, Sound;
  }

  lemma ChunkWrittenContent(r: Receiver, s: Receiver)
    requires Shape(r) && ContentInv(r) && r.pc.WriteChunk? && r.staged != []
    requires var temporary := r.staged[|r.staged| - 1].temporary;
             s == r.(folder := r.folder.(files := Appended(r.folder.files, temporary, r.pc.data)),
                     hashed := r.hashed + r.pc.data, pc := Stream, transferred := s.transferred,
                     tracker := s.tracker)
    ensures ContentInv(s)
  {
    hide ValidRequest, Appended;
    AppendedLookup(r.folder.files, r.staged[|r.staged| - 1].temporary, r.pc.data);
  }

  lemma ChunkWrittenBooks(p: Policy, r: Receiver, s: Receiver, clock: Clock)
    requires Shape(r) && Books(p, r) && r.pc.WriteChunk?
    requires s == r.(folder := s.folder, hashed := r.hashed + r.pc.data, pc := Stream,
                     transferred := r.transferred + |r.pc.data|,
                     tracker := Progress(r.tracker, r.transferred + |r.pc.data|, clock, false))
    ensures Shape(s) && Books(p, s)
  {
    hide ValidRequest, Sound, DigestMatches, Parse, Progress;
    ProgressSound(r.tracker, r.transferred + |r.pc.data|, clock, false);
    ProgressEmits(r.tracker, r.transferred + |r.pc.data|, clock, false);
    assert Shape(s) by { hide Books; }
    assert CountInv(p, s) by { hide TrackInv, LogInv, SentInv; }
    assert TrackInv(s) by { hide CountInv, LogInv, SentInv; }
    assert LogInv(s) by { hide CountInv, TrackInv, SentInv; }
    hide CountInv, TrackInv, LogInv, Shape;
  }

  lemma ChunkStoredKeeps(p: Policy, r: Receiver, clock: Clock)
    requires Inv(p, r) && r.pc.WriteChunk? && r.staged != []
    ensures Inv(p, OnChunkWritten(r, r.pc.data, 0, None, clock))
  {
    hide Shape, FolderInv, ContentInv, KeysInv, Books, Progress, Appended;
    RoomLeft(p, r);
    OpenFileThere(p, r);
    CountedOpenBytes(p, r);
    var s := OnChunkWritten(r, r.pc.data, 0, None, clock);
    WriteFolder(r, r.pc.data);
    ChunkWrittenContent(r, s);
    ChunkWrittenBooks(p, r, s, clock);
    StreamAgainPlaces(p, r, s);
  }

  lemma CountedOpenBytes(p: Policy, r: Receiver)
    requires Inv(p, r) && r.pc.WriteChunk?
    ensures r.received - |r.hashed| == |r.pc.data|
  {
    hide ValidRequest, Places, TrackInv, LogInv, SentInv;
  }

  lemma StreamAgainPlaces(p: Policy, r: Receiver, s: Receiver)
    requires Shape(r) && KeysInv(p, r) && r.pc.WriteChunk?
    requires s == r.(folder := s.folder, hashed := s.hashed, pc := Stream, transferred := s.transferred,
                     tracker := s.tracker)
    requires FolderInv(r.(folder := s.folder)) && ContentInv(s)
    ensures Places(p, s)
  {
    hide ValidRequest, ContentInv;
    assert FolderInv(s) by {
      hide KeysInv;
      assert OwnNames(s) == OwnNames(r.(folder := s.folder));
    }
    hide FolderInv;
  }

  lemma ChunkWrittenKeeps(p: Policy, r: Receiver, written: nat, failure: Option<TransferError>, clock: Clock)
    requires Inv(p, r) && r.pc.WriteChunk? && r.staged != []
    requires failure.Some? ==> IsFileError(failure.value)
    ensures Inv(p, OnChunkWritten(r, r.pc.data, written, failure, clock))
  {
    hide Inv;
    if failure.Some? {
      ChunkLostKeeps(p, r, written, failure.value, clock);
    } else {
      ChunkStoredKeeps(p, r, clock);
      assert OnChunkWritten(r, r.pc.data, written, None, clock) == OnChunkWritten(r, r.pc.data, 0, None, clock);
    }
  }

  // ----- a file is verified ---------------------------------------------

  /** The state after a file passed its size and digest tests. */
  function FileVerified(r: Receiver): Receiver
  {
    r.(got := r.got + [r.hashed], pc := if |r.got| + 1 == |r.files| then AwaitComplete else AwaitFile)
  }

  lemma FileVerifiedPlaces(p: Policy, r: Receiver)
    requires Shape(r) && Places(p, r) && r.pc.Flush?
    ensures Shape(FileVerified(r)) && Places(p, FileVerified(r))
  {
    hide ValidRequest, FinalKeys, KeysDistinct, FolderInv, ContentInv;
    FolderFrame(r, FileVerified(r));
    ContentFrame(r, FileVerified(r));
  }

  lemma SumLenAppend(bodies: seq<Bytes>, b: Bytes)
    ensures SumLen(bodies + [b]) == SumLen(bodies) + |b|
  {
    assert (bodies + [b])[..|bodies|] == bodies;
  }

  lemma FileVerifiedBooks(p: Policy, r: Receiver)
    requires Shape(r) && Books(p, r) && r.pc.Flush?
    requires r.received == r.files[|r.got|].size
    requires DigestMatches(r.files[|r.got|].sha256, p.digest(r.hashed))
    ensures Books(p, FileVerified(r))
  {
    hide ValidRequest, Sound, DigestMatches, Parse;
    var s := FileVerified(r);
    SumLenAppend(r.got, r.hashed);
    assert CountInv(p, s) by { hide TrackInv, LogInv, SentInv, SumLen; }
    assert TrackInv(s) by { hide CountInv, LogInv, SentInv; }
    assert LogInv(s) by { hide CountInv, TrackInv, SentInv; }
    hide CountInv, TrackInv, LogInv, Shape;
  }

  lemma FlushedKeeps(p: Policy, r: Receiver, failure: Option<TransferError>)
    requires Inv(p, r) && r.pc.Flush? && |r.got| < |r.files|
    requires failure.Some? ==> IsFlushError(r, failure.value)
    ensures Inv(p, OnFlushed(p, r, failure))
  {
    hide Shape, Places, Books, DigestMatches;
    if failure.Some? {
      ErrorKeeps(p, r, failure.value);
    } else if r.received != r.files[|r.got|].size {
      ErrorKeeps(p, r, InvalidPeerResponse(SizeMismatch));
    } else if !DigestMatches(r.files[|r.got|].sha256, p.digest(r.hashed)) {
      ErrorKeeps(p, r, Verification);
    } else {
      FileVerifiedPlaces(p, r);
      FileVerifiedBooks(p, r);
    }
  }

  // ----- the batch is complete ------------------------------------------

  /** When `complete` arrives the counted total is the announced one. */
  lemma TotalIsExact(p: Policy, r: Receiver)
    requires Inv(p, r) && r.pc.AwaitComplete?
    ensures r.transferred == r.total
  {
    hide DigestMatches, ValidTransferId, ValidFile, Places, TrackInv, LogInv, SentInv;
    SumLenIsTotal(p, r.files, r.got);
    assert r.files[..|r.got|] == r.files;
  }

  lemma CompleteAcceptedBooks(p: Policy, r: Receiver, f: Frame)
    requires Shape(r) && Books(p, r) && r.pc.AwaitComplete? && f == Control(Complete(r.id))
    ensures Shape(r.(log := r.log + [f], pc := CountAll)) && Books(p, r.(log := r.log + [f], pc := CountAll))
  {
    hide ValidRequest, Sound, DigestMatches, Parse;
    AppendLog(r, f);
  }

  lemma CompleteAcceptedKeeps(p: Policy, r: Receiver, f: Frame)
    requires Inv(p, r) && r.pc.AwaitComplete? && f == Control(Complete(r.id))
    ensures Inv(p, r.(log := r.log + [f], pc := CountAll))
  {
    hide Shape, Books, FolderInv, ContentInv, KeysInv;
    CompleteAcceptedBooks(p, r, f);
    SamePlacesKeep(p, r, r.(log := r.log + [f], pc := CountAll));
  }

  lemma CompleteKeeps(p: Policy, r: Receiver, f: Frame)
    requires Inv(p, r) && r.pc.AwaitComplete?
    ensures Inv(p, OnComplete(r.(log := r.log + [f]), f))
  {
    hide Inv;
    TotalIsExact(p, r);
    if f == Control(Complete(r.id)) {
      CompleteAcceptedKeeps(p, r, f);
    } else {
      ErrorOnFrameKeeps(p, r, f, RemoteCanceled);
      ErrorOnFrameKeeps(p, r, f, InvalidPeerResponse(NotCompleted));
      ErrorOnFrameKeeps(p, r, f, InvalidPeerResponse(ExpectedControl));
    }
  }

  lemma CountedBooks(p: Policy, r: Receiver, clock: Clock)
    requires Shape(r) && Books(p, r) && r.pc.CountAll?
    ensures Shape(OnCounted(r, clock)) && Books(p, OnCounted(r, clock))
  {
    hide ValidRequest, Sound, DigestMatches, Parse, Progress;
    ProgressSound(r.tracker, r.total, clock, true);
    ProgressEmits(r.tracker, r.total, clock, true);
  }

  lemma CountedKeeps(p: Policy, r: Receiver, clock: Clock)
    requires Inv(p, r) && r.pc.CountAll?
    ensures Inv(p, OnCounted(r, clock))
  {
    hide Shape, Books, FolderInv, ContentInv, KeysInv;
    CountedBooks(p, r, clock);
    SamePlacesKeep(p, r, OnCounted(r, clock));
  }

  // ----- checkpoints -----------------------------------------------------

  lemma TransitionEmits(t: Tracker, next: Phase)
    requires Sound(t) && !IsTerminal(t.now.phase) && CanTransition(t.now.phase, next)
    ensures Transition(t, next).emitted != []
  {
  }

  lemma VerifyingBooks(p: Policy, r: Receiver)
    requires Shape(r) && Books(p, r) && r.pc.AllReceived?
    ensures var s := r.(pc := BeginFinalize, used := FinalKeys(p, r.staged),
                        tracker := Transition(r.tracker, Verifying));
            Shape(s) && Books(p, s)
  {
    hide ValidRequest, Sound, DigestMatches, Parse, Transition, FinalKeys;
    TransitionSound(r.tracker, Verifying);
    TransitionEmits(r.tracker, Verifying);
  }

  lemma VerifyingKeeps(p: Policy, r: Receiver)
    requires Inv(p, r) && r.pc.AllReceived?
    ensures Inv(p, r.(pc := BeginFinalize, used := FinalKeys(p, r.staged),
                      tracker := Transition(r.tracker, Verifying)))
  {
    hide Shape, Books, FolderInv, ContentInv, KeysInv, FinalKeys, Transition;
    var s := r.(pc := BeginFinalize, used := FinalKeys(p, r.staged), tracker := Transition(r.tracker, Verifying));
    VerifyingBooks(p, r);
    SamePlacesKeep(p, r, s.(used := r.used));
    FreshKeysPlaces(p, s.(used := r.used));
  }

  /** The key set is rebuilt from the final paths before finalization. */
  lemma FreshKeysPlaces(p: Policy, r: Receiver)
    requires Places(p, r) && !r.pc.CreateStage?
    ensures Places(p, r.(used := FinalKeys(p, r.staged)))
  {
    var s := r.(used := FinalKeys(p, r.staged));
    assert FolderInv(s) by {
      hide ContentInv, KeysInv;
      assert OwnNames(s) == OwnNames(r);
      hide OwnNames, Temporaries, NameSet;
    }
    assert ContentInv(s) by { hide FolderInv, KeysInv; }
    hide FolderInv, ContentInv, FinalKeys;
  }

  lemma NextFileBooks(p: Policy, r: Receiver)
    requires Shape(r) && Books(p, r) && r.pc.BeginFinalize?
    ensures Shape(r.(pc := Finalize)) && Books(p, r.(pc := Finalize))
  {
    hide ValidRequest, Sound, DigestMatches, Parse;
  }

  lemma NextFileKeeps(p: Policy, r: Receiver)
    requires Inv(p, r) && r.pc.BeginFinalize?
    ensures Inv(p, r.(pc := Finalize))
  {
    hide Shape, Books, FolderInv, ContentInv, KeysInv;
    NextFileBooks(p, r);
    SamePlacesKeep(p, r, r.(pc := Finalize));
  }

  lemma CompletingBooks(p: Policy, r: Receiver)
    requires Shape(r) && Books(p, r) && r.pc.ConfirmAll?
    ensures var s := r.(pc := ConfirmLast, tracker := Transition(r.tracker, Completing)); Shape(s) && Books(p, s)
  {
    hide ValidRequest, Sound, DigestMatches, Parse, Transition;
    TransitionSound(r.tracker, Completing);
    TransitionEmits(r.tracker, Completing);
  }

  lemma CompletingKeeps(p: Policy, r: Receiver)
    requires Inv(p, r) && r.pc.ConfirmAll?
    ensures Inv(p, r.(pc := ConfirmLast, tracker := Transition(r.tracker, Completing)))
  {
    hide Shape, Books, FolderInv, ContentInv, KeysInv;
    CompletingBooks(p, r);
    SamePlacesKeep(p, r, r.(pc := ConfirmLast, tracker := Transition(r.tracker, Completing)));
  }

  lemma CommitBooks(p: Policy, r: Receiver)
    requires Shape(r) && Books(p, r) && r.pc.ConfirmLast?
    ensures Shape(r.(pc := WriteResult)) && Books(p, r.(pc := WriteResult))
  {
    hide ValidRequest, Sound, DigestMatches, Parse;
  }

  lemma CommitKeeps(p: Policy, r: Receiver)
    requires Inv(p, r) && r.pc.ConfirmLast?
    ensures Inv(p, r.(pc := WriteResult))
  {
    hide Shape, Books, FolderInv, ContentInv, KeysInv;
    CommitBooks(p, r);
    SamePlacesKeep(p, r, r.(pc := WriteResult));
  }

  lemma CheckPointKeeps(p: Policy, r: Receiver)
    requires Inv(p, r)
    ensures Inv(p, OnCheckPoint(p, r))
  {
    hide Inv, Fail, Transition, FinalKeys;
    if r.pc.AllReceived? || r.pc.BeginFinalize? || r.pc.ConfirmAll? || r.pc.ConfirmLast? {
      if CancelledBy(r).Some? {
        ErrorKeeps(p, r, CancelledBy(r).value);
      } else if r.pc.AllReceived? {
        VerifyingKeeps(p, r);
      } else if r.pc.BeginFinalize? {
        NextFileKeeps(p, r);
      } else if r.pc.ConfirmAll? {
        CompletingKeeps(p, r);
      } else {
        CommitKeeps(p, r);
      }
    }
  }

  // ----- finalization ----------------------------------------------------

  lemma NameSetAppend(names: seq<string>, x: string)
    ensures NameSet(names + [x]) == NameSet(names) + {x}
  {
    var both := names + [x];
    assert both[|names|] == x;
    forall t | t in NameSet(names) + {x} ensures t in NameSet(both) {
      if t in NameSet(names) {
        var i :| 0 <= i < |names| && names[i] == t;
        assert both[i] == t;
      }
    }
  }

  lemma TemporariesHead(staged: seq<Staged>, i: nat)
    requires i < |staged|
    ensures Temporaries(staged[i..]) == {staged[i].temporary} + Temporaries(staged[i + 1..])
  {
    var tail := staged[i..];
    forall t | t in {staged[i].temporary} + Temporaries(staged[i + 1..]) ensures t in Temporaries(tail) {
      if t in Temporaries(staged[i + 1..]) {
        var k :| 0 <= k < |staged[i + 1..]| && staged[i + 1..][k].temporary == t;
        assert tail[k + 1].temporary == t;
      } else {
        assert tail[0].temporary == t;
      }
    }
    forall t | t in Temporaries(tail) ensures t in {staged[i].temporary} + Temporaries(staged[i + 1..]) {
      var k :| 0 <= k < |tail| && tail[k].temporary == t;
      if k > 0 {
        assert staged[i + 1..][k - 1].temporary == t;
      }
    }
  }

  /** The place of a staged entry may change; its staging name does not. */
  lemma TemporariesMoved(staged: seq<Staged>, i: nat, path: string)
    requires i < |staged|
    ensures var moved := staged[i := staged[i].(finalPath := path)];
            Temporaries(moved) == Temporaries(staged) && moved[i + 1..] == staged[i + 1..]
  {
    var moved := staged[i := staged[i].(finalPath := path)];
    assert forall k :: 0 <= k < |staged| ==> moved[k].temporary == staged[k].temporary;
  }

  /** The folder after a no-replace move. */
  lemma MovedLookup(files: map<string, Bytes>, from: string, to: string)
    requires from in files && to !in files
    ensures var after := Without(files, {from})[to := files[from]];
            && after.Keys == files.Keys - {from} + {to}
            && after[to] == files[from]
            && forall x :: x in files && x != from ==> x in after && after[x] == files[x]
  {
  }

  lemma InTemporaries(staged: seq<Staged>, i: nat)
    requires i < |staged|
    ensures staged[i].temporary in Temporaries(staged)
  {
  }

  lemma FileFinalizedFolder(p: Policy, r: Receiver, variant: Option<nat>, reserved: set<string>)
    requires Shape(r) && FolderInv(r) && r.pc.Finalize? && |r.finalized| < |r.staged|
    ensures FolderInv(OnFileFinalized(p, r, variant, reserved))
  {
    hide Shape, Candidate, AllowedTarget, Target, Without, Temporaries, NameSet;
    var s := OnFileFinalized(p, r, variant, reserved);
    if s != r {
      var i := |r.finalized|;
      var temporary, target := r.staged[i].temporary, Target(r, variant);
      MovedLookup(r.folder.files, temporary, target);
      TemporariesMoved(r.staged, i, target);
      TemporariesHead(r.staged, i);
      NameSetAppend(r.finalized, target);
      InTemporaries(r.staged, i);
      assert s.staged[|s.finalized|..] == r.staged[i + 1..];
    }
  }

  lemma FileFinalizedContent(p: Policy, r: Receiver, variant: Option<nat>, reserved: set<string>)
    requires Shape(r) && ContentInv(r) && r.pc.Finalize? && |r.finalized| < |r.staged|
    ensures ContentInv(OnFileFinalized(p, r, variant, reserved))
  {
    hide ValidRequest, Candidate, AllowedTarget, Target;
    var s := OnFileFinalized(p, r, variant, reserved);
    if s != r {
      MovedLookup(r.folder.files, r.staged[|r.finalized|].temporary, Target(r, variant));
      hide Without;
    }
  }

  lemma FileFinalizedKeys(p: Policy, r: Receiver, variant: Option<nat>, reserved: set<string>)
    requires Shape(r) && KeysInv(p, r) && r.pc.Finalize? && |r.finalized| < |r.staged|
    ensures KeysInv(p, OnFileFinalized(p, r, variant, reserved))
  {
    hide ValidRequest, Candidate;
    var s := OnFileFinalized(p, r, variant, reserved);
    if s != r {
      var i := |r.finalized|;
      assert forall a :: 0 <= a < |r.staged| ==> p.key(r.staged[a].finalPath) in FinalKeys(p, r.staged);
      forall t | t in FinalKeys(p, s.staged) ensures t in s.used {
        var a :| 0 <= a < |s.staged| && p.key(s.staged[a].finalPath) == t;
        if a != i {
          assert s.staged[a] == r.staged[a];
        }
      }
      hide FinalKeys, Shape;
    }
  }

  lemma FileFinalizedBooks(p: Policy, r: Receiver, variant: Option<nat>, reserved: set<string>)
    requires Shape(r) && Books(p, r) && r.pc.Finalize? && |r.finalized| < |r.staged|
    ensures Shape(OnFileFinalized(p, r, variant, reserved)) && Books(p, OnFileFinalized(p, r, variant, reserved))
  {
    hide ValidRequest, Sound, DigestMatches, Parse, AllowedTarget, Target, Without;
    var s := OnFileFinalized(p, r, variant, reserved);
    if s != r {
      assert Shape(s) by { hide Books; }
      assert CountInv(p, s) by { hide TrackInv, LogInv, SentInv; }
      assert TrackInv(s) by { hide CountInv, LogInv, SentInv; }
      assert LogInv(s) by { hide CountInv, TrackInv, SentInv; }
      hide CountInv, TrackInv, LogInv, Shape;
    }
  }

  lemma FileFinalizedKeeps(p: Policy, r: Receiver, variant: Option<nat>, reserved: set<string>)
    requires Inv(p, r) && r.pc.Finalize? && |r.finalized| < |r.staged|
    ensures Inv(p, OnFileFinalized(p, r, variant, reserved))
  {
    hide Shape, FolderInv, ContentInv, KeysInv, Books, OnFileFinalized;
    FileFinalizedFolder(p, r, variant, reserved);
    FileFinalizedContent(p, r, variant, reserved);
    FileFinalizedKeys(p, r, variant, reserved);
    FileFinalizedBooks(p, r, variant, reserved);
    FinalizedNoMoreThanStaged(p, r, variant, reserved);
  }

  lemma FinalizedNoMoreThanStaged(p: Policy, r: Receiver, variant: Option<nat>, reserved: set<string>)
    requires |r.finalized| < |r.staged|
    ensures var s := OnFileFinalized(p, r, variant, reserved); |s.finalized| <= |s.staged|
  {
  }

  /** A link that could not be taken back is a leftover; the run still fails as a whole. */
  lemma CopyCanFail(r: Receiver, target: string, content: Bytes)
    requires FailReady(r) && target !in r.folder.files
    ensures FailReady(r.(folder := r.folder.(files := r.folder.files[target := content]), leftover := true))
  {
    hide ValidRequest, Sound;
  }

  lemma FinalizeFailedKeeps(p: Policy, r: Receiver, e: TransferError, copy: Option<string>)
    requires Inv(p, r) && r.pc.Finalize? && |r.finalized| < |r.staged| && IsFileError(e)
    ensures Inv(p, OnFinalizeFailed(r, e, copy))
  {
    hide Inv, FailReady;
    ActiveCanFail(p, r);
    FailKeeps(p, r, e);
    if copy.Some? && copy.value !in r.folder.files && r.staged[|r.finalized|].temporary in r.folder.files {
      var content := r.folder.files[r.staged[|r.finalized|].temporary];
      CopyCanFail(r, copy.value, content);
      FailKeeps(p, r.(folder := r.folder.(files := r.folder.files[copy.value := content]), leftover := true), e);
    }
  }

  // ----- the result ------------------------------------------------------

  lemma ResultWrittenBooks(p: Policy, r: Receiver, delivered: bool)
    requires Shape(r) && Books(p, r) && r.pc.WriteResult?
    ensures Shape(OnResultWritten(r, delivered)) && Books(p, OnResultWritten(r, delivered))
  {
    hide ValidRequest, Sound, DigestMatches, Parse;
    if delivered {
    } else {
    }
  }

  lemma ResultWrittenKeeps(p: Policy, r: Receiver, delivered: bool)
    requires Inv(p, r) && r.pc.WriteResult?
    ensures Inv(p, OnResultWritten(r, delivered))
  {
    hide Shape, Books, FolderInv, ContentInv, KeysInv;
    ResultWrittenBooks(p, r, delivered);
    SamePlacesKeep(p, r, OnResultWritten(r, delivered));
  }

  lemma ResultSettledBooks(p: Policy, r: Receiver)
    requires Shape(r) && Books(p, r) && r.pc.SettleResult?
    ensures Shape(OnResultSettled(r)) && Books(p, OnResultSettled(r))
  {
    hide ValidRequest, Sound, DigestMatches, Parse, Transition;
    TransitionSound(r.tracker, Phase.Completed);
    TransitionEmits(r.tracker, Phase.Completed);
  }

  lemma ResultSettledKeeps(p: Policy, r: Receiver)
    requires Inv(p, r) && r.pc.SettleResult?
    ensures Inv(p, OnResultSettled(r))
  {
    hide Shape, Books, FolderInv, ContentInv, KeysInv;
    ResultSettledBooks(p, r);
    SamePlacesKeep(p, r, OnResultSettled(r));
  }

  // ----- undoing ---------------------------------------------------------

  /** The three undo points carry the same facts; only the owned names shrink. */
  ghost predicate UndoFacts(r: Receiver)
  {
    && Undoing(r.pc) && !Impossible(r.pc.error)
    && ValidRequest(r.id, r.files, r.total) && 1 <= |r.files|
    && |r.finalized| <= |r.staged|
    && Sound(r.tracker) && r.tracker.emitted != [] && r.tracker.now.total == r.total
    && (r.tracker.now.phase == Transferring || r.tracker.now.phase == Verifying ||
        r.tracker.now.phase == Completing)
    && r.log != [] && IsRequest(r.log[0], r.id, r.files, r.total)
    && (forall k :: 0 <= k < |r.sent| && r.sent[k].Control? ==> !IsSuccess(r.sent[k].message))
  }

  lemma UndoFromInv(p: Policy, r: Receiver)
    requires Inv(p, r) && Undoing(r.pc)
    ensures UndoFacts(r) && |r.finalized| <= |r.staged| && FolderInv(r)
  {
    hide ValidRequest, Sound, DigestMatches, Parse, FolderInv, ContentInv, KeysInv;
  }

  lemma UndoToInv(p: Policy, r: Receiver)
    requires UndoFacts(r) && FolderInv(r)
    ensures Inv(p, r)
  {
    hide ValidRequest, Sound, DigestMatches, Parse, FolderInv;
  }

  lemma CleanedUpFolder(r: Receiver, e: TransferError, kept: set<string>)
    requires |r.finalized| <= |r.staged| && FolderInv(r) && r.pc == CleanUp(e)
    ensures FolderInv(OnCleanedUp(r, e, kept))
  {
    var s := OnCleanedUp(r, e, kept);
    assert Temporaries(r.staged[|r.finalized|..]) <= Temporaries(r.staged) by {
      forall t | t in Temporaries(r.staged[|r.finalized|..]) ensures t in Temporaries(r.staged) {
        var k :| 0 <= k < |r.staged[|r.finalized|..]| && r.staged[|r.finalized|..][k].temporary == t;
        assert r.staged[k + |r.finalized|].temporary == t;
      }
    }
    hide Temporaries, NameSet;
  }

  lemma CleanedUpKeeps(p: Policy, r: Receiver, kept: set<string>)
    requires Inv(p, r) && r.pc.CleanUp?
    ensures Inv(p, OnCleanedUp(r, r.pc.error, kept))
  {
    hide Inv, ValidRequest, Sound, FolderInv;
    UndoFromInv(p, r);
    CleanedUpFolder(r, r.pc.error, kept);
    UndoToInv(p, OnCleanedUp(r, r.pc.error, kept));
  }

  lemma RolledBackFolder(r: Receiver, e: TransferError, kept: set<string>)
    requires |r.finalized| <= |r.staged| && FolderInv(r) && r.pc == RollBack(e)
    ensures FolderInv(OnRolledBack(r, e, kept))
  {
    hide Temporaries, NameSet;
  }

  lemma RolledBackKeeps(p: Policy, r: Receiver, kept: set<string>)
    requires Inv(p, r) && r.pc.RollBack?
    ensures Inv(p, OnRolledBack(r, r.pc.error, kept))
  {
    hide Inv, ValidRequest, Sound, FolderInv;
    UndoFromInv(p, r);
    RolledBackFolder(r, r.pc.error, kept);
    UndoToInv(p, OnRolledBack(r, r.pc.error, kept));
  }

  lemma DeliverKeepsUndo(r: Receiver, m: Message, delivered: bool)
    requires UndoFacts(r) && !IsSuccess(m)
    ensures UndoFacts(Deliver(r, m, delivered))
  {
    hide ValidRequest, Sound;
  }

  lemma AbortedToInv(p: Policy, r: Receiver)
    requires UndoFacts(r) && FolderInv(r) && r.pc.Report?
    ensures Inv(p, FailEarly(r, r.pc.error))
  {
    hide ValidRequest, Sound, DigestMatches, Parse, FinishError, ErrorPhase, Impossible;
    FinishErrorShows(r.tracker, r.pc.error, r.total);
    var s := FailEarly(r, r.pc.error);
    assert FolderInv(s) by { assert OwnNames(s) == OwnNames(r); }
    hide FolderInv;
  }

  lemma FailureReportedKeeps(p: Policy, r: Receiver, cancelDelivered: bool, resultDelivered: bool)
    requires Inv(p, r) && r.pc.Report?
    ensures Inv(p, OnFailureReported(r, r.pc.error, cancelDelivered, resultDelivered))
  {
    hide Inv, UndoFacts, FolderInv, FailEarly;
    var e := r.pc.error;
    UndoFromInv(p, r);
    var s := Deliver(r, Cancel(r.id), e == TransferError.Canceled && cancelDelivered);
    DeliverKeepsUndo(r, Cancel(r.id), e == TransferError.Canceled && cancelDelivered);
    var t := Deliver(s, TransferResult(s.id, false, Some(ErrorText(e))), resultDelivered);
    DeliverKeepsUndo(s, TransferResult(s.id, false, Some(ErrorText(e))), resultDelivered);
    SentLeavesFolder(r, t);
    AbortedToInv(p, t);
  }

  lemma SentLeavesFolder(r: Receiver, t: Receiver)
    requires |r.finalized| <= |r.staged| && FolderInv(r) && t == r.(sent := t.sent)
    ensures FolderInv(t)
  {
    assert OwnNames(t) == OwnNames(r);
    hide OwnNames;
  }

  // ----- every step, every run ------------------------------------------

  lemma ReadFailedKeeps(p: Policy, r: Receiver, e: TransferError)
    requires Inv(p, r) && IsWireError(e)
    ensures Inv(p, OnReadFailed(r, e))
  {
    hide Inv, DecisionFailed;
    assert !Impossible(e);
    match r.pc {
      case AwaitRequest => RequestLostKeeps(p, r, e);
      case AwaitDecision => DecisionFailedKeeps(p, r, e);
      case AwaitFile => ErrorKeeps(p, r, e);
      case Stream => ErrorKeeps(p, r, e);
      case AwaitComplete => ErrorKeeps(p, r, e);
      case _ =>
    }
  }

  lemma GotKeeps(p: Policy, r: Receiver, f: Frame)
    requires Inv(p, r) && DeliverableFrame(f)
    ensures Inv(p, OnGot(r, f))
  {
    hide Inv, OnFirstFrame, OnFrameWhileDeciding, OnFileStart, OnStreamFrame, OnComplete;
    match r.pc {
      case AwaitRequest => FirstFrameKeeps(p, r, f);
      case AwaitDecision => FrameWhileDecidingKeeps(p, r, f);
      case AwaitFile => FileStartKeeps(p, r, f);
      case Stream =>
        if |r.got| < |r.files| {
          StreamFrameKeeps(p, r, f);
        }
      case AwaitComplete => CompleteKeeps(p, r, f);
      case _ =>
    }
  }

  predicate IsNegotiation(e: Event)
  {
    e.TrustSettled? || e.Admission? || e.Announced? || e.Answered? || e.DeadlinePassed? || e.DecisionWritten? ||
    e.NoticeWritten? || e.FolderChecked?
  }

  lemma NegotiationKeeps(p: Policy, r: Receiver, e: Event)
    requires Inv(p, r) && IsNegotiation(e)
    ensures Inv(p, Step(p, r, e))
  {
    hide Inv, OnForeignFiles, OnGot, OnReadFailed, OnTrust, OnAdmission, OnAnnounced, OnAnswer, OnDecisionWritten,
      OnNoticeWritten, OnFolderChecked, OnNameChosen, OnStageCreated, OnChunkWritten, OnFlushed, OnCounted,
      OnCheckPoint, OnFileFinalized, OnFinalizeFailed, OnResultWritten, OnResultSettled, OnCleanedUp,
      OnRolledBack, OnFailureReported, Fail, IsWireError, IsFlushError, IsFileError, CanObserve, DeliverableFrame;
    match e {
      case TrustSettled(failure) => if r.pc.AwaitTrust? { TrustKeeps(p, r, failure); }
      case Admission(admitted) => if r.pc.AwaitAdmission? { AdmissionKeeps(p, r, admitted); }
      case Announced(ok) => if r.pc.AwaitAnnouncement? { AnnouncementKeeps(p, r, ok); }
      case Answered(answer) => if r.pc.AwaitDecision? { AnswerKeeps(p, r, answer); }
      case DeadlinePassed => if r.pc.AwaitDecision? { DecisionStartsKeeps(p, r, Decline(ExpiredText)); }
      case DecisionWritten(ok, delivered) => if r.pc.WriteDecision? { DecisionWrittenKeeps(p, r, ok, delivered); }
      case NoticeWritten(delivered) => if r.pc.WriteNotice? { NoticeWrittenKeeps(p, r, delivered); }
      case FolderChecked(available) => if r.pc.CheckFolder? { FolderCheckedKeeps(p, r, available); }
    }
  }

  predicate IsReception(e: Event)
  {
    e.NameChosen? || e.NamesExhausted? || e.StageCreated? || e.ChunkWritten? || e.Flushed? || e.Counted?
  }

  lemma ReceptionKeeps(p: Policy, r: Receiver, e: Event)
    requires Inv(p, r) && IsReception(e)
    ensures Inv(p, Step(p, r, e))
  {
    hide Inv, OnForeignFiles, OnGot, OnReadFailed, OnTrust, OnAdmission, OnAnnounced, OnAnswer, OnDecisionWritten,
      OnNoticeWritten, OnFolderChecked, OnNameChosen, OnStageCreated, OnChunkWritten, OnFlushed, OnCounted,
      OnCheckPoint, OnFileFinalized, OnFinalizeFailed, OnResultWritten, OnResultSettled, OnCleanedUp,
      OnRolledBack, OnFailureReported, Fail, IsWireError, IsFlushError, IsFileError, CanObserve, DeliverableFrame;
    match e {
      case NameChosen(index) => if r.pc.ChooseName? && |r.got| < |r.files| { NameChosenKeeps(p, r, index); }
      case NamesExhausted => if r.pc.ChooseName? { ErrorKeeps(p, r, Destination); }
      case StageCreated(failure) =>
        if r.pc.CreateStage? && |r.got| < |r.files| && (failure.Some? ==> IsFileError(failure.value)) {
          StageCreatedKeeps(p, r, failure);
        }
      case ChunkWritten(written, failure, clock) =>
        if r.pc.WriteChunk? && r.staged != [] && (failure.Some? ==> IsFileError(failure.value)) {
          ChunkWrittenKeeps(p, r, written, failure, clock);
        }
      case Flushed(failure) =>
        if r.pc.Flush? && |r.got| < |r.files| && (failure.Some? ==> IsFlushError(r, failure.value)) {
          FlushedKeeps(p, r, failure);
        }
      case Counted(clock) => if r.pc.CountAll? { CountedKeeps(p, r, clock); }
    }
  }

  /** Every step keeps the invariant, whatever its event. */
  lemma StepKeepsInvariant(p: Policy, r: Receiver, e: Event)
    requires Inv(p, r)
    ensures Inv(p, Step(p, r, e))
  {
    hide Inv, Step;
    if IsNegotiation(e) {
      NegotiationKeeps(p, r, e);
    } else if IsReception(e) {
      ReceptionKeeps(p, r, e);
    } else {
      ClosingKeeps(p, r, e);
    }
  }

  lemma ClosingKeeps(p: Policy, r: Receiver, e: Event)
    requires Inv(p, r) && !IsNegotiation(e) && !IsReception(e)
    ensures Inv(p, Step(p, r, e))
  {
    hide Inv, OnForeignFiles, OnGot, OnReadFailed, OnTrust, OnAdmission, OnAnnounced, OnAnswer, OnDecisionWritten,
      OnNoticeWritten, OnFolderChecked, OnNameChosen, OnStageCreated, OnChunkWritten, OnFlushed, OnCounted,
      OnCheckPoint, OnFileFinalized, OnFinalizeFailed, OnResultWritten, OnResultSettled, OnCleanedUp,
      OnRolledBack, OnFailureReported, Fail, IsWireError, IsFlushError, IsFileError, CanObserve, DeliverableFrame;
    match e {
      case ForeignFiles(added) => ForeignFilesKeep(p, r, added);
      case CancelRequested => FlagsKeep(p, r, true, r.shutdown);
      case ShutdownRequested => FlagsKeep(p, r, r.cancelled, true);
      case Read(Got(f)) => if DeliverableFrame(f) { GotKeeps(p, r, f); }
      case Read(ReadFailed(error)) => if IsWireError(error) { ReadFailedKeeps(p, r, error); }
      case CheckPoint => CheckPointKeeps(p, r);
      case FileFinalized(variant, reserved) =>
        if r.pc.Finalize? && |r.finalized| < |r.staged| { FileFinalizedKeeps(p, r, variant, reserved); }
      case FinalizeFailed(error, copy) =>
        if r.pc.Finalize? && |r.finalized| < |r.staged| && IsFileError(error) {
          FinalizeFailedKeeps(p, r, error, copy);
        }
      case ResultWritten(delivered) => if r.pc.WriteResult? { ResultWrittenKeeps(p, r, delivered); }
      case ResultSettled => if r.pc.SettleResult? { ResultSettledKeeps(p, r); }
      case CleanedUp(kept) => if r.pc.CleanUp? { CleanedUpKeeps(p, r, kept); }
      case RolledBack(kept) => if r.pc.RollBack? { RolledBackKeeps(p, r, kept); }
      case FailureReported(c, d) => if r.pc.Report? { FailureReportedKeeps(p, r, c, d); }
      case _ =>
    }
  }

  lemma InitialInvariant(p: Policy, present: map<string, Bytes>)
    ensures Inv(p, Initial(present))
  {
    hide Inv;
    BlankToInv(p, Initial(present));
  }

  /** Every state of every run satisfies the invariant. */
  lemma {:induction false} RunKeepsInvariant(p: Policy, start: Receiver, events: seq<Event>)
    requires Inv(p, start)
    ensures Inv(p, Run(p, start, events))
  {
    hide Inv, Step;
    if events != [] {
      RunKeepsInvariant(p, start, events[..|events| - 1]);
      StepKeepsInvariant(p, Run(p, start, events[..|events| - 1]), events[|events| - 1]);
    }
  }
}

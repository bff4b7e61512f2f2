/**
 The other side of safety: every valid batch can be delivered, also under names that are taken or
 repeated. There is a run in which both parties complete; and one in which only the acknowledgement
 is lost, so that the receiver completes and the sender fails.
 */
module Delivery {
  import opened Wrappers
  import opened Wire
  import Lifecycle
  import Text
  import opened CollisionNames
  import opened FreeNames
  import R = Receiver
  import S = Sender
  import RS = ReceiverSafety
  import RT = ReceiverTheorems
  import OE = OutgoingEngine
  import IE = IncomingEngine
  import opened Agreement

  // ----- building a run turn by turn ------------------------------------

  ghost predicate Reaches(p: R.Policy, start: System, sys: System)
  {
    exists turns :: Run(p, start, turns) == sys
  }

  /** One more turn of a run. */
  lemma Then(p: R.Policy, start: System, sys: System, t: Turn) returns (next: System)
    requires Reaches(p, start, sys)
    ensures next == Next(p, sys, t) && Reaches(p, start, next)
  {
    hide Run, Next;
    var turns :| Run(p, start, turns) == sys;
    RunAppend(p, start, turns, t);
    next := Next(p, sys, t);
  }

  lemma StartReached(p: R.Policy, start: System)
    ensures Reaches(p, start, start)
  {
    assert Run(p, start, []) == start;
  }

  const CLOCK := Lifecycle.Clock(false, 0)

  // ----- the batch -------------------------------------------------------

  datatype Batch = Batch(id: string, files: seq<TransferFile>, bodies: seq<Bytes>, present: map<string, Bytes>)

  /** The batch is valid, and the sources hold what it announces. */
  ghost predicate Announced(p: R.Policy, b: Batch)
  {
    && |b.files| == |b.bodies| && ValidRequest(b.id, b.files, TotalSize(b.files)) && |b.files| > 0
    && (forall i :: 0 <= i < |b.files| ==>
          b.files[i].size == |b.bodies[i]| && DigestMatches(b.files[i].sha256, p.digest(b.bodies[i])))
  }

  /** All names are free, no two share a key, and none is that of a staging file. */
  ghost predicate AllNamesFree(p: R.Policy, b: Batch)
  {
    && (forall i, j :: 0 <= i < j < |b.files| ==> p.key(b.files[i].name) != p.key(b.files[j].name))
    && (forall i, k :: 0 <= i < |b.files| && 0 <= k < |b.files| ==> b.files[i].name != R.StagingName(b.id, k))
    && (forall i :: 0 <= i < |b.files| ==> b.files[i].name !in b.present)
  }

  /** There are fewer files than a name has variants, and the path key tells these apart. */
  ghost predicate Roomy(p: R.Policy, b: Batch)
  {
    && |b.present| + 3 * |b.files| < MAX_COLLISION_ATTEMPTS
    && forall i :: 0 <= i < |b.files| ==> Separated(p, b.files[i].name)
  }

  ghost predicate StagingNamesFree(b: Batch)
  {
    forall i :: 0 <= i < |b.files| ==> R.StagingName(b.id, i) !in b.present
  }

  ghost predicate Deliverable(p: R.Policy, b: Batch)
  {
    Announced(p, b) && StagingNamesFree(b) && (AllNamesFree(p, b) || Roomy(p, b))
  }

  /** The path is the announced name or a numbered variant, and the name itself where all are free. */
  ghost predicate NamedAs(p: R.Policy, b: Batch, name: string, path: string)
  {
    && (exists k: nat :: k <= MAX_COLLISION_ATTEMPTS && path == Candidate(name, k))
    && (AllNamesFree(p, b) ==> path == name)
  }

  function Begin(b: Batch): System { Start(b.id, b.present) }

  /** Nobody interferes, and both sides have read all there is. */
  ghost predicate Calm(b: Batch, sys: System)
  {
    var s, r := sys.sender, sys.receiver;
    && s.id == b.id && s.files == b.files && s.total == TotalSize(b.files)
    && !s.cancelled && !s.shutdown && s.monitor == S.Watching
    && r.id == b.id && r.files == b.files && r.total == TotalSize(b.files)
    && !r.cancelled && !r.shutdown && r.folder.foreign == b.present
    && r.log == s.sent && s.log == r.sent
  }

  /** The staged files so far, with the paths reserved for them. */
  ghost predicate StagedAs(p: R.Policy, b: Batch, r: R.Receiver, n: nat)
  {
    && n <= |b.files| && |r.staged| == n
    && (forall k :: 0 <= k < n ==>
          && r.staged[k].name == b.files[k].name && r.staged[k].temporary == R.StagingName(b.id, k)
          && NamedAs(p, b, b.files[k].name, r.staged[k].finalPath))
    && |r.used| <= n
    && (AllNamesFree(p, b) ==> forall x :: x in r.used ==> exists k :: 0 <= k < n && x == p.key(b.files[k].name))
  }

  /** Both are between files: `i` of them are through. */
  ghost predicate AtFile(p: R.Policy, b: Batch, sys: System, i: nat)
  {
    && i <= |b.files| == |b.bodies| && Calm(b, sys) && StagedAs(p, b, sys.receiver, i)
    && sys.sender.pc == S.Ready(if i < |b.files| then Control(FileStart(b.id, i)) else Control(Complete(b.id)))
    && sys.receiver.pc == (if i < |b.files| then R.AwaitFile else R.AwaitComplete)
    && sys.sender.streamed == sys.receiver.got == b.bodies[..i]
    && sys.sender.transferred == sys.receiver.transferred
  }

  /** Both are inside file `i`, after `off` bytes. */
  ghost predicate AtChunk(p: R.Policy, b: Batch, sys: System, i: nat, off: nat)
  {
    && i < |b.files| == |b.bodies| && off <= |b.bodies[i]| && Calm(b, sys) && StagedAs(p, b, sys.receiver, i + 1)
    && sys.sender.pc == S.CheckBeforeRead && sys.receiver.pc == R.Stream
    && sys.sender.streamed == sys.receiver.got == b.bodies[..i]
    && sys.sender.current == sys.receiver.hashed == b.bodies[i][..off] && sys.receiver.received == off
    && sys.sender.transferred == sys.receiver.transferred
  }

  // ----- turns -----------------------------------------------------------

  lemma SenderDoes(p: R.Policy, start: System, sys: System, e: S.Event) returns (next: System)
    requires Reaches(p, start, sys) && !e.Read?
    ensures Reaches(p, start, next) && next == sys.(sender := S.Step(sys.sender, e))
  {
    hide Reaches, S.Step;
    next := Then(p, start, sys, SenderTurn(e));
  }

  lemma ReceiverDoes(p: R.Policy, start: System, sys: System, e: R.Event) returns (next: System)
    requires Reaches(p, start, sys) && !e.Read?
    ensures Reaches(p, start, next) && next == sys.(receiver := R.Step(p, sys.receiver, e))
  {
    hide Reaches, R.Step;
    next := Then(p, start, sys, ReceiverTurn(e));
  }

  lemma ReceiverReads(p: R.Policy, start: System, sys: System, f: Frame) returns (next: System)
    requires Reaches(p, start, sys) && sys.sender.sent == sys.receiver.log + [f] && DeliverableFrame(f)
    ensures Reaches(p, start, next) && next == sys.(receiver := R.OnGot(sys.receiver, f))
  {
    hide Reaches, R.Step, R.OnGot, DeliverableFrame;
    IE.ReadStep(p, sys.receiver, Got(f));
    next := Then(p, start, sys, ReceiverTurn(R.Read(Got(f))));
  }

  lemma SenderReads(p: R.Policy, start: System, sys: System, f: Frame) returns (next: System)
    requires Reaches(p, start, sys) && sys.receiver.sent == sys.sender.log + [f] && DeliverableFrame(f)
    ensures Reaches(p, start, next) && next == sys.(sender := S.OnRead(sys.sender, Got(f)))
  {
    hide Reaches, S.Step, S.OnRead, DeliverableFrame;
    OE.ReadStep(sys.sender, Got(f));
    next := Then(p, start, sys, SenderTurn(S.Read(Got(f))));
  }

  lemma SendsOnce(s: S.Sender, f: Frame)
    ensures S.AfterWrite(s, f, CLOCK).sent == s.sent
  {
  }

  /** The tokens are looked at, a frame is written, and it is read. */
  lemma FramePasses(p: R.Policy, b: Batch, sys: System, f: Frame) returns (next: System)
    requires Reaches(p, Begin(b), sys) && Calm(b, sys) && sys.sender.pc == S.Ready(f) && DeliverableFrame(f)
    ensures Reaches(p, Begin(b), next)
    ensures next.receiver == R.OnGot(sys.receiver, f)
    ensures next.sender == Wrote(sys.sender, f)
  {
    hide Reaches, S.Step, R.Step, R.OnGot, S.AfterWrite, DeliverableFrame;
    OE.CheckStep(sys.sender);
    next := SenderDoes(p, Begin(b), sys, S.CheckPoint);
    OE.WriteStep(next.sender, None, true, CLOCK);
    SendsOnce(S.Sent(next.sender, f, true), f);
    next := SenderDoes(p, Begin(b), next, S.Written(None, true, CLOCK));
    next := ReceiverReads(p, Begin(b), next, f);
  }

  // ----- what writing and reading a frame of the batch does -------------

  /** The sender's side of one frame. */
  function Wrote(s: S.Sender, f: Frame): S.Sender
  {
    S.AfterWrite(S.Sent(s.(pc := S.Writing(f)), f, true), f, CLOCK)
  }

  lemma StartPasses(s: S.Sender, r: R.Receiver, i: nat)
    requires r.pc.AwaitFile? && i == |r.got|
    ensures var f := Control(FileStart(r.id, i));
            && Wrote(s, f) == s.(pc := S.OpenSource, sent := s.sent + [f])
            && R.OnGot(r, f) == r.(log := r.log + [f], pc := R.ChooseName)
  {
  }

  lemma DataPasses(s: S.Sender, r: R.Receiver, data: Bytes)
    requires r.pc.Stream? && |r.got| < |r.files| && r.received + |data| <= r.files[|r.got|].size
    requires s.transferred + |data| < U64_LIMIT
    ensures Wrote(s, Data(data)) ==
            s.(pc := S.CheckBeforeRead, sent := s.sent + [Data(data)], transferred := s.transferred + |data|,
               current := s.current + data,
               tracker := Lifecycle.Progress(s.tracker, s.transferred + |data|, CLOCK, false))
    ensures R.OnGot(r, Data(data)) ==
            r.(log := r.log + [Data(data)], received := r.received + |data|, pc := R.WriteChunk(data))
  {
    hide Lifecycle.Progress;
  }

  lemma EndPasses(s: S.Sender, r: R.Receiver, i: nat)
    requires r.pc.Stream? && i == |r.got| < |r.files| == |s.files| && |s.streamed| == i
    ensures var f := Control(FileEnd(r.id, i));
            && R.OnGot(r, f) == r.(log := r.log + [f], pc := R.Flush)
            && var n := Wrote(s, f);
               n == s.(pc := S.Ready(if i + 1 < |s.files| then Control(FileStart(s.id, i + 1))
                                     else Control(Complete(s.id))),
                       sent := s.sent + [f], streamed := s.streamed + [s.current], current := [], tracker := n.tracker)
  {
    hide Lifecycle.Progress, Lifecycle.Transition;
  }

  lemma CompletePasses(s: S.Sender, r: R.Receiver)
    requires r.pc.AwaitComplete? && r.transferred == r.total
    ensures var f := Control(Complete(r.id));
            && R.OnGot(r, f) == r.(log := r.log + [f], pc := R.CountAll)
            && var n := Wrote(s, f); n == s.(pc := S.AwaitResult, sent := s.sent + [f], tracker := n.tracker)
  {
    hide Lifecycle.Transition;
  }

  // ----- what the invariant supplies ------------------------------------

  lemma ReachedInvariant(p: R.Policy, b: Batch, sys: System)
    requires Reaches(p, Begin(b), sys)
    ensures RS.Inv(p, sys.receiver)
  {
    hide Run, RS.Inv;
    var turns :| Run(p, Begin(b), turns) == sys;
    StartInvariant(p, b.id, b.present);
    RunKeepsInvariant(p, Begin(b), turns);
  }

  lemma StagingNamesDiffer(id: string, j: nat, k: nat)
    requires R.StagingName(id, j) == R.StagingName(id, k)
    ensures j == k
  {
    var head := ".dead-drop-" + (if ValidTransferId(id) then id else "invalid") + "-";
    var a, b := R.StagingName(id, j), R.StagingName(id, k);
    assert a == head + Text.Decimal(j) + ".part" && b == head + Text.Decimal(k) + ".part";
    assert a[|head|..|a| - 5] == Text.Decimal(j) && b[|head|..|b| - 5] == Text.Decimal(k);
    Text.DecimalInjective(j, k);
  }

  lemma StagingFree(p: R.Policy, b: Batch, sys: System, i: nat)
    requires Deliverable(p, b) && Reaches(p, Begin(b), sys) && AtFile(p, b, sys, i) && i < |b.files|
    ensures R.StagingName(b.id, i) !in sys.receiver.folder.files
  {
    hide Announced, Separated, R.StagingName, RS.Inv, Reaches, NamedAs, AllNamesFree;
    ReachedInvariant(p, b, sys);
    OwnFiles(p, b, sys.receiver, i);
    forall k | 0 <= k < i ensures R.StagingName(b.id, k) != R.StagingName(b.id, i) {
      if R.StagingName(b.id, k) == R.StagingName(b.id, i) {
        StagingNamesDiffer(b.id, k, i);
      }
    }
  }

  lemma OwnNameFree(p: R.Policy, b: Batch, sys: System, i: nat)
    requires Deliverable(p, b) && Reaches(p, Begin(b), sys) && AtFile(p, b, sys, i) && i < |b.files|
    requires AllNamesFree(p, b)
    ensures b.files[i].name !in sys.receiver.folder.files && p.key(b.files[i].name) !in sys.receiver.used
  {
    hide Announced, Roomy, R.StagingName, RS.Inv, Reaches, NamedAs;
    ReachedInvariant(p, b, sys);
    OwnFiles(p, b, sys.receiver, i);
  }

  lemma FewNamesTaken(p: R.Policy, b: Batch, sys: System, i: nat)
    requires Roomy(p, b) && Reaches(p, Begin(b), sys) && AtFile(p, b, sys, i) && i < |b.files|
    ensures |sys.receiver.folder.files.Keys| + |sys.receiver.used| < MAX_COLLISION_ATTEMPTS
  {
    hide ValidRequest, R.StagingName, RS.Books, RS.Places, Reaches, NamedAs, AllNamesFree, Separated, DigestMatches;
    ReachedInvariant(p, b, sys);
    FolderCount(p, sys.receiver);
    assert |b.present| == |b.present.Keys|;
  }

  /** Between files some candidate of the next name is free: the name itself, or a variant. */
  lemma NextPathFree(p: R.Policy, b: Batch, sys: System, i: nat) returns (index: nat)
    requires Deliverable(p, b) && Reaches(p, Begin(b), sys) && AtFile(p, b, sys, i) && i < |b.files|
    ensures index <= MAX_COLLISION_ATTEMPTS && NamedAs(p, b, b.files[i].name, Candidate(b.files[i].name, index))
    ensures Candidate(b.files[i].name, index) !in sys.receiver.folder.files
    ensures p.key(Candidate(b.files[i].name, index)) !in sys.receiver.used
  {
    hide Announced, Separated, RS.Inv, Reaches, CollisionName, AtFile, AllNamesFree;
    var name, r := b.files[i].name, sys.receiver;
    assert Candidate(name, 0) == name;
    if name !in r.folder.files && p.key(name) !in r.used {
      index := 0;
    } else {
      if AllNamesFree(p, b) {
        OwnNameFree(p, b, sys, i);
        assert false;
      }
      FewNamesTaken(p, b, sys, i);
      index := FreeVariant(p, name, r.folder.files.Keys, r.used);
    }
  }

  lemma OwnFiles(p: R.Policy, b: Batch, r: R.Receiver, i: nat)
    requires RS.Inv(p, r) && r.pc == R.AwaitFile && StagedAs(p, b, r, i) && r.folder.foreign == b.present
    ensures forall x :: x in r.folder.files ==> x in b.present || exists k :: 0 <= k < i && x == R.StagingName(b.id, k)
  {
    hide ValidRequest, RS.Books, RS.ContentInv, RS.KeysInv, R.StagingName, NamedAs, AllNamesFree;
    assert r.finalized == [] && !r.leftover;
    forall x | x in r.folder.files && x !in b.present ensures exists k :: 0 <= k < i && x == R.StagingName(b.id, k) {
      assert x in RS.OwnNames(r);
      var k :| 0 <= k < |r.staged| && r.staged[k].temporary == x;
    }
  }

  // ----- one file --------------------------------------------------------

  /** The chosen path is one more reserved key. */
  lemma ReservedMore(p: R.Policy, b: Batch, used: set<string>, n: nat, path: string)
    requires n < |b.files| && |used| <= n && NamedAs(p, b, b.files[n].name, path)
    requires AllNamesFree(p, b) ==> forall x :: x in used ==> exists k :: 0 <= k < n && x == p.key(b.files[k].name)
    ensures |used + {p.key(path)}| <= n + 1
    ensures AllNamesFree(p, b) ==>
              forall x :: x in used + {p.key(path)} ==> exists k :: 0 <= k < n + 1 && x == p.key(b.files[k].name)
  {
    hide AllNamesFree, Candidate;
    UnionCount(used, {p.key(path)});
  }

  lemma StagedMore(p: R.Policy, b: Batch, r: R.Receiver, s: R.Receiver, i: nat, path: string)
    requires i < |b.files| && StagedAs(p, b, r, i) && NamedAs(p, b, b.files[i].name, path)
    requires s.staged == r.staged + [R.Staged(b.files[i].name, R.StagingName(b.id, i), path)]
    requires s.used == r.used + {p.key(path)}
    ensures StagedAs(p, b, s, i + 1)
  {
    hide NamedAs, AllNamesFree, R.StagingName;
    ReservedMore(p, b, r.used, i, path);
  }

  lemma FileOpened(p: R.Policy, b: Batch, sys: System, i: nat) returns (next: System)
    requires Deliverable(p, b) && Reaches(p, Begin(b), sys) && AtFile(p, b, sys, i) && i < |b.files|
    ensures Reaches(p, Begin(b), next) && AtChunk(p, b, next, i, 0)
  {
    hide Reaches, Deliverable, S.Step, R.Step, R.OnGot, Wrote, R.StagingName, Candidate, NamedAs, StagedAs;
    StagingFree(p, b, sys, i);
    var index := NextPathFree(p, b, sys, i);
    var path := Candidate(b.files[i].name, index);
    StartPasses(sys.sender, sys.receiver, i);
    next := FramePasses(p, b, sys, Control(FileStart(b.id, i)));
    OE.SourceSteps(next.sender, [], FileRead);
    next := SenderDoes(p, Begin(b), next, S.SourceOpened(true));
    IE.NameStep(p, next.receiver, index);
    next := ReceiverDoes(p, Begin(b), next, R.NameChosen(index));
    IE.StageStep(p, next.receiver, path, None);
    next := ReceiverDoes(p, Begin(b), next, R.StageCreated(None));
    StagedMore(p, b, sys.receiver, next.receiver, i, path);
  }

  /** How much of a body the next chunk takes. */
  function NextOffset(size: nat, off: nat): nat
    requires off <= size
  {
    off + Min(size - off, S.CHUNK_SIZE)
  }

  /** Inside a file the counters stay far from their limit. */
  lemma ChunkFits(p: R.Policy, b: Batch, sys: System, i: nat, off: nat)
    requires Deliverable(p, b) && Reaches(p, Begin(b), sys) && AtChunk(p, b, sys, i, off)
    ensures sys.receiver.transferred + (|b.bodies[i]| - off) <= MAX_TRANSFER_BYTES
    ensures b.files[i].size == |b.bodies[i]| <= MAX_TRANSFER_BYTES
  {
    hide ValidRequest, DigestMatches, R.StagingName, Reaches, Calm, StagedAs;
    ReachedInvariant(p, b, sys);
    RS.RoomLeft(p, sys.receiver);
    Counted(p, sys.receiver);
    assert sys.receiver.files == b.files by { CalmBatch(b, sys); }
  }

  lemma CalmBatch(b: Batch, sys: System)
    requires Calm(b, sys)
    ensures sys.receiver.files == b.files
  {
  }

  lemma Counted(p: R.Policy, r: R.Receiver)
    requires RS.Inv(p, r) && r.pc == R.Stream
    ensures r.transferred == RS.SumLen(r.got) + |r.hashed|
  {
    hide ValidRequest, DigestMatches, RS.Places, RS.TrackInv, RS.LogInv, RS.SentInv;
  }

  lemma SameStaging(p: R.Policy, b: Batch, r: R.Receiver, s: R.Receiver, n: nat)
    requires StagedAs(p, b, r, n) && s.staged == r.staged && s.used == r.used
    ensures StagedAs(p, b, s, n)
  {
    hide NamedAs, AllNamesFree, R.StagingName;
  }

  lemma StageOpen(p: R.Policy, b: Batch, r: R.Receiver, i: nat)
    requires StagedAs(p, b, r, i + 1)
    ensures r.staged != []
  {
  }

  /** The next chunk is read from the source, sent and received. */
  lemma ChunkSent(p: R.Policy, b: Batch, sys: System, i: nat, off: nat, data: Bytes) returns (next: System)
    requires Deliverable(p, b) && Reaches(p, Begin(b), sys) && AtChunk(p, b, sys, i, off) && off < |b.bodies[i]|
    requires data == b.bodies[i][off..NextOffset(|b.bodies[i]|, off)]
    ensures Reaches(p, Begin(b), next)
    ensures next.receiver == sys.receiver.(log := sys.receiver.log + [Data(data)], received := off + |data|,
                                           pc := R.WriteChunk(data))
    ensures var s := sys.sender;
            next.sender == s.(sent := s.sent + [Data(data)], transferred := s.transferred + |data|,
                              current := s.current + data, tracker := next.sender.tracker)
  {
    hide Reaches, Deliverable, S.Step, R.Step, R.OnGot, Wrote, StagedAs, Lifecycle.Progress;
    ChunkFits(p, b, sys, i, off);
    OE.CheckStep(sys.sender);
    next := SenderDoes(p, Begin(b), sys, S.CheckPoint);
    OE.SourceSteps(next.sender, data, FileRead);
    next := SenderDoes(p, Begin(b), next, S.ChunkRead(data));
    DataPasses(next.sender, next.receiver, data);
    next := FramePasses(p, b, next, Data(data));
  }

  lemma ChunkMoved(p: R.Policy, b: Batch, sys: System, i: nat, off: nat) returns (next: System)
    requires Deliverable(p, b) && Reaches(p, Begin(b), sys) && AtChunk(p, b, sys, i, off) && off < |b.bodies[i]|
    ensures Reaches(p, Begin(b), next) && AtChunk(p, b, next, i, NextOffset(|b.bodies[i]|, off))
  {
    hide Reaches, Deliverable, R.Step, StagedAs, Lifecycle.Progress, R.Appended;
    ChunkFits(p, b, sys, i, off);
    StageOpen(p, b, sys.receiver, i);
    var end := NextOffset(|b.bodies[i]|, off);
    var data := b.bodies[i][off..end];
    assert b.bodies[i][..off] + data == b.bodies[i][..end];
    next := ChunkSent(p, b, sys, i, off, data);
    IE.ChunkStep(p, next.receiver, data, 0, None, CLOCK);
    next := ReceiverDoes(p, Begin(b), next, R.ChunkWritten(0, None, CLOCK));
    SameStaging(p, b, sys.receiver, next.receiver, i + 1);
  }

  lemma {:induction false} ContentsMoved(p: R.Policy, b: Batch, sys: System, i: nat, off: nat) returns (next: System)
    requires Deliverable(p, b) && Reaches(p, Begin(b), sys) && AtChunk(p, b, sys, i, off)
    ensures Reaches(p, Begin(b), next) && AtChunk(p, b, next, i, |b.bodies[i]|)
    decreases |b.bodies[i]| - off
  {
    hide Reaches, Deliverable;
    if off < |b.bodies[i]| {
      next := ChunkMoved(p, b, sys, i, off);
      next := ContentsMoved(p, b, next, i, NextOffset(|b.bodies[i]|, off));
    } else {
      next := sys;
    }
  }

  lemma FileClosed(p: R.Policy, b: Batch, sys: System, i: nat) returns (next: System)
    requires Deliverable(p, b) && Reaches(p, Begin(b), sys) && i < |b.files| == |b.bodies|
    requires AtChunk(p, b, sys, i, |b.bodies[i]|)
    ensures Reaches(p, Begin(b), next) && AtFile(p, b, next, i + 1)
  {
    hide Reaches, ValidRequest, DigestMatches, Roomy, S.Step, R.Step, R.OnGot, Wrote, StagedAs;
    assert b.bodies[i][..|b.bodies[i]|] == b.bodies[i];
    assert b.bodies[..i] + [b.bodies[i]] == b.bodies[..i + 1];
    OE.CheckStep(sys.sender);
    next := SenderDoes(p, Begin(b), sys, S.CheckPoint);
    OE.SourceSteps(next.sender, [], FileRead);
    next := SenderDoes(p, Begin(b), next, S.ChunkRead([]));
    EndPasses(next.sender, next.receiver, i);
    next := FramePasses(p, b, next, Control(FileEnd(b.id, i)));
    IE.FlushStep(p, next.receiver, None);
    next := ReceiverDoes(p, Begin(b), next, R.Flushed(None));
    SameStaging(p, b, sys.receiver, next.receiver, i + 1);
  }

  lemma {:induction false} FilesMoved(p: R.Policy, b: Batch, sys: System, i: nat) returns (next: System)
    requires Deliverable(p, b) && Reaches(p, Begin(b), sys) && AtFile(p, b, sys, i)
    ensures Reaches(p, Begin(b), next) && AtFile(p, b, next, |b.files|)
    decreases |b.files| - i
  {
    hide Reaches, Deliverable, Calm, StagedAs;
    if i < |b.files| {
      next := FileOpened(p, b, sys, i);
      next := ContentsMoved(p, b, next, i, 0);
      next := FileClosed(p, b, next, i);
      next := FilesMoved(p, b, next, i + 1);
    } else {
      next := sys;
    }
  }

  // ----- before the files ------------------------------------------------

  lemma RequestInBounds(p: R.Policy, b: Batch)
    requires Deliverable(p, b)
    ensures TotalSize(b.files) <= MAX_TRANSFER_BYTES < U64_LIMIT && b.files != []
    ensures ValidRequest(b.id, b.files, TotalSize(b.files)) && |b.files| == |b.bodies|
  {
  }

  lemma RequestSent(p: R.Policy, b: Batch) returns (sys: System)
    requires Deliverable(p, b)
    ensures Reaches(p, Begin(b), sys) && sys.receiver == R.Initial(b.present)
    ensures var s := sys.sender;
            && s.pc == S.AwaitDecision && s.id == b.id && s.files == b.files && s.total == TotalSize(b.files)
            && !s.cancelled && !s.shutdown && s.streamed == [] && s.transferred == 0 && s.log == []
            && s.sent == [Control(TransferRequest(b.id, b.files, TotalSize(b.files)))]
  {
    hide Reaches, Deliverable, ValidRequest, S.Step, Lifecycle.Transition, TotalSize, S.Fail;
    RequestInBounds(p, b);
    StartReached(p, Begin(b));
    OE.PrepareSteps(Begin(b).sender, b.files, Prepare);
    sys := SenderDoes(p, Begin(b), Begin(b), S.Prepared(b.files));
    OE.CheckStep(sys.sender);
    sys := SenderDoes(p, Begin(b), sys, S.CheckPoint);
    OE.ConnectSteps(sys.sender, None);
    sys := SenderDoes(p, Begin(b), sys, S.Connected(None));
    OE.ConnectSteps(sys.sender, None);
    sys := SenderDoes(p, Begin(b), sys, S.TrustSettled(None));
    OE.RequestStep(sys.sender, None, true);
    sys := SenderDoes(p, Begin(b), sys, S.RequestWritten(None, true));
  }

  lemma AcceptanceStep(p: R.Policy, r: R.Receiver)
    requires r.pc == R.WriteDecision(R.Accept)
    ensures R.Step(p, r, R.DecisionWritten(true, true)) ==
            r.(sent := r.sent + [Control(TransferDecision(r.id, true, None))], pc := R.CheckFolder,
               tracker := Lifecycle.Transition(Lifecycle.Transition(r.tracker, Lifecycle.Phase.Accepted),
                                               Lifecycle.Transferring))
  {
    hide Lifecycle.Transition;
  }

  lemma BatchAccepted(p: R.Policy, b: Batch) returns (sys: System)
    requires Deliverable(p, b)
    ensures Reaches(p, Begin(b), sys) && AtFile(p, b, sys, 0)
  {
    hide Reaches, Deliverable, ValidRequest, R.Step, S.Step, Lifecycle.Transition, Lifecycle.Emit, TotalSize, S.Fail;
    RequestInBounds(p, b);
    sys := RequestSent(p, b);
    sys := ReceiverReads(p, Begin(b), sys, Control(TransferRequest(b.id, b.files, TotalSize(b.files))));
    IE.TrustStep(p, sys.receiver, None);
    sys := ReceiverDoes(p, Begin(b), sys, R.TrustSettled(None));
    IE.AdmissionStep(p, sys.receiver);
    sys := ReceiverDoes(p, Begin(b), sys, R.Admission(true));
    IE.AnnouncedStep(p, sys.receiver, true);
    sys := ReceiverDoes(p, Begin(b), sys, R.Announced(true));
    IE.AnswerStep(p, sys.receiver, R.Yes);
    sys := ReceiverDoes(p, Begin(b), sys, R.Answered(R.Yes));
    AcceptanceStep(p, sys.receiver);
    sys := ReceiverDoes(p, Begin(b), sys, R.DecisionWritten(true, true));
    IE.FolderStep(p, sys.receiver, true);
    sys := ReceiverDoes(p, Begin(b), sys, R.FolderChecked(true));
    sys := SenderReads(p, Begin(b), sys, Control(TransferDecision(b.id, true, None)));
  }

  // ----- after the files -------------------------------------------------

  /** Every file is staged, under its own staging name. */
  ghost predicate AllStaged(b: Batch, r: R.Receiver)
  {
    && |b.files| == |b.bodies| == |r.staged| && r.got == b.bodies
    && (forall j :: 0 <= j < |b.files| ==>
          r.staged[j].name == b.files[j].name && r.staged[j].temporary == R.StagingName(b.id, j))
  }

  /** The sender waits; `k` of the files are at their final names. */
  ghost predicate AtFinal(p: R.Policy, b: Batch, sys: System, k: nat)
  {
    var r := sys.receiver;
    && AllStaged(b, r) && |r.finalized| == k <= |b.files| && Calm(b, sys) && sys.sender.pc == S.AwaitResult
    && (forall j :: k <= j < |b.files| ==> NamedAs(p, b, b.files[j].name, r.staged[j].finalPath))
    && (forall j :: 0 <= j < k ==> NamedAs(p, b, b.files[j].name, r.finalized[j]))
    && |r.used| <= |b.files| + k
    && r.pc == (if k < |b.files| then R.BeginFinalize else R.ConfirmAll)
  }

  /** The declaration was read; the sender waits. */
  ghost predicate AtCount(p: R.Policy, b: Batch, sys: System)
  {
    var r := sys.receiver;
    && AllStaged(b, r) && |b.files| > 0 && Calm(b, sys) && sys.sender.pc == S.AwaitResult
    && (forall j :: 0 <= j < |b.files| ==> NamedAs(p, b, b.files[j].name, r.staged[j].finalPath))
    && r.finalized == [] && r.pc == R.CountAll
  }

  lemma DeclarationRead(p: R.Policy, b: Batch, sys: System) returns (next: System)
    requires Deliverable(p, b) && Reaches(p, Begin(b), sys) && AtFile(p, b, sys, |b.files|)
    ensures Reaches(p, Begin(b), next) && AtCount(p, b, next)
  {
    hide Reaches, Deliverable, S.Step, R.Step, R.OnGot, Wrote, R.StagingName, RS.Inv, NamedAs, AllNamesFree;
    RequestInBounds(p, b);
    ReachedInvariant(p, b, sys);
    RS.TotalIsExact(p, sys.receiver);
    NothingFinalYet(p, sys.receiver);
    assert b.bodies[..|b.files|] == b.bodies;
    CompletePasses(sys.sender, sys.receiver);
    next := FramePasses(p, b, sys, Control(Complete(b.id)));
  }

  lemma BatchDeclared(p: R.Policy, b: Batch, sys: System) returns (next: System)
    requires Deliverable(p, b) && Reaches(p, Begin(b), sys) && AtFile(p, b, sys, |b.files|)
    ensures Reaches(p, Begin(b), next) && AtFinal(p, b, next, 0)
  {
    hide Reaches, Deliverable, S.Step, R.Step, R.StagingName, Lifecycle.Progress, Lifecycle.Transition, R.FinalKeys,
      AtFile, NamedAs;
    next := DeclarationRead(p, b, sys);
    IE.CountStep(p, next.receiver, CLOCK);
    next := ReceiverDoes(p, Begin(b), next, R.Counted(CLOCK));
    FinalKeysCount(p, next.receiver.staged);
    IE.CheckStep(p, next.receiver);
    next := ReceiverDoes(p, Begin(b), next, R.CheckPoint);
  }

  lemma NothingFinalYet(p: R.Policy, r: R.Receiver)
    requires RS.Inv(p, r) && r.pc == R.AwaitComplete
    ensures r.finalized == []
  {
    hide ValidRequest, RS.Places, RS.Books;
  }

  /** Where all names are free, the reserved path of the next staged file still is. */
  lemma FinalPathFree(p: R.Policy, b: Batch, sys: System, k: nat)
    requires Deliverable(p, b) && Reaches(p, Begin(b), sys) && AtFinal(p, b, sys, k) && k < |b.files|
    requires AllNamesFree(p, b)
    ensures sys.receiver.staged[k].finalPath !in sys.receiver.folder.files
  {
    hide Announced, Roomy, R.StagingName, RS.Inv, Reaches, Candidate;
    ReachedInvariant(p, b, sys);
    OwnFilesAtEnd(p, b, sys.receiver, k);
  }

  lemma OwnFilesAtEnd(p: R.Policy, b: Batch, r: R.Receiver, k: nat)
    requires RS.Inv(p, r) && r.pc == R.BeginFinalize && r.folder.foreign == b.present && |r.staged| == |b.files|
    requires forall j :: 0 <= j < |b.files| ==> r.staged[j].temporary == R.StagingName(b.id, j)
    requires |r.finalized| == k < |b.files| && forall j :: 0 <= j < k ==> r.finalized[j] == b.files[j].name
    ensures forall x :: x in r.folder.files ==>
              || x in b.present || (exists j :: 0 <= j < |b.files| && x == R.StagingName(b.id, j))
              || (exists j :: 0 <= j < k && x == b.files[j].name)
  {
    hide ValidRequest, RS.Books, RS.ContentInv, RS.KeysInv, R.StagingName;
    assert !r.leftover;
    forall x | x in r.folder.files && x !in b.present
      ensures || (exists j :: 0 <= j < |b.files| && x == R.StagingName(b.id, j))
              || (exists j :: 0 <= j < k && x == b.files[j].name)
    {
      assert x in RS.OwnNames(r);
      if x in R.NameSet(r.finalized) {
        var j :| 0 <= j < |r.finalized| && r.finalized[j] == x;
        assert x == b.files[j].name;
      } else {
        var tail := r.staged[k..];
        var j :| 0 <= j < |tail| && tail[j].temporary == x;
        assert r.staged[k + j].temporary == x;
      }
    }
  }

  lemma FewNamesAtEnd(p: R.Policy, b: Batch, sys: System, k: nat)
    requires Roomy(p, b) && Reaches(p, Begin(b), sys) && AtFinal(p, b, sys, k) && k < |b.files|
    ensures |sys.receiver.folder.files.Keys| + |sys.receiver.used| < MAX_COLLISION_ATTEMPTS
  {
    hide ValidRequest, R.StagingName, RS.Books, RS.Places, Reaches, NamedAs, Separated, DigestMatches;
    ReachedInvariant(p, b, sys);
    FolderCount(p, sys.receiver);
    assert |b.present| == |b.present.Keys|;
  }

  /** The next staged file can go to its reserved path, or to a variant that is free. */
  lemma TargetFree(p: R.Policy, b: Batch, sys: System, k: nat) returns (variant: Option<nat>)
    requires Deliverable(p, b) && Reaches(p, Begin(b), sys) && AtFinal(p, b, sys, k) && k < |b.files|
    ensures var r := sys.receiver;
            && k < |r.staged| && |r.finalized| == k && R.AllowedTarget(p, r, variant)
            && R.Target(r, variant) !in r.folder.files && NamedAs(p, b, b.files[k].name, R.Target(r, variant))
  {
    hide Announced, Separated, RS.Inv, Reaches, Candidate, AllNamesFree, R.StagingName;
    var r := sys.receiver;
    if r.staged[k].finalPath !in r.folder.files {
      variant := None;
    } else {
      if AllNamesFree(p, b) {
        FinalPathFree(p, b, sys, k);
        assert false;
      }
      FewNamesAtEnd(p, b, sys, k);
      var index := FreeVariant(p, b.files[k].name, r.folder.files.Keys, r.used);
      variant := Some(index);
    }
  }

  lemma MovedStep(p: R.Policy, r: R.Receiver, i: nat, variant: Option<nat>)
    requires r.pc == R.Finalize && |r.finalized| == i < |r.staged|
    requires R.AllowedTarget(p, r, variant)
    requires r.staged[i].temporary in r.folder.files && R.Target(r, variant) !in r.folder.files
    ensures var n := R.Step(p, r, R.FileFinalized(variant, {}));
            n == r.(folder := n.folder, used := r.used + {p.key(R.Target(r, variant))},
                    staged := r.staged[i := r.staged[i].(finalPath := R.Target(r, variant))],
                    finalized := r.finalized + [R.Target(r, variant)],
                    pc := if i + 1 == |r.staged| then R.ConfirmAll else R.BeginFinalize)
            && n.folder.foreign == r.folder.foreign
  {
    hide R.Without, R.Target, R.AllowedTarget;
    assert r.used + {} == r.used;
  }

  lemma FileMoved(p: R.Policy, b: Batch, sys: System, k: nat) returns (next: System)
    requires Deliverable(p, b) && Reaches(p, Begin(b), sys) && AtFinal(p, b, sys, k) && k < |b.files|
    ensures Reaches(p, Begin(b), next) && AtFinal(p, b, next, k + 1)
  {
    hide Reaches, Deliverable, S.Step, R.Step, R.StagingName, RS.Inv, NamedAs, R.Target, R.AllowedTarget;
    var variant := TargetFree(p, b, sys, k);
    var target := R.Target(sys.receiver, variant);
    IE.CheckStep(p, sys.receiver);
    next := ReceiverDoes(p, Begin(b), sys, R.CheckPoint);
    SameTarget(p, sys.receiver, next.receiver, variant);
    ReachedInvariant(p, b, next);
    IE.Staging(p, next.receiver, k);
    MovedStep(p, next.receiver, k, variant);
    UnionCount(next.receiver.used, {p.key(target)});
    next := ReceiverDoes(p, Begin(b), next, R.FileFinalized(variant, {}));
  }

  lemma SameTarget(p: R.Policy, r: R.Receiver, s: R.Receiver, variant: Option<nat>)
    requires s.staged == r.staged && s.finalized == r.finalized && s.used == r.used && |r.finalized| < |r.staged|
    ensures R.Target(s, variant) == R.Target(r, variant)
    ensures R.AllowedTarget(p, s, variant) == R.AllowedTarget(p, r, variant)
  {
    hide Candidate;
  }

  lemma {:induction false} FilesFinalized(p: R.Policy, b: Batch, sys: System, k: nat) returns (next: System)
    requires Deliverable(p, b) && Reaches(p, Begin(b), sys) && AtFinal(p, b, sys, k)
    ensures Reaches(p, Begin(b), next) && AtFinal(p, b, next, |b.files|)
    decreases |b.files| - k
  {
    hide Reaches, Deliverable, Calm;
    if k < |b.files| {
      next := FileMoved(p, b, sys, k);
      next := FilesFinalized(p, b, next, k + 1);
    } else {
      next := sys;
    }
  }

  /** Each file is under its own name or a numbered variant of it. */
  ghost predicate NamedWell(p: R.Policy, b: Batch, finalized: seq<string>)
  {
    |finalized| == |b.files| && forall i :: 0 <= i < |b.files| ==> NamedAs(p, b, b.files[i].name, finalized[i])
  }

  /** The receiver has committed; the result is about to be written. */
  ghost predicate Committed(p: R.Policy, b: Batch, sys: System)
  {
    && Calm(b, sys) && sys.sender.pc == S.AwaitResult && sys.receiver.pc == R.WriteResult
    && sys.receiver.got == b.bodies && NamedWell(p, b, sys.receiver.finalized)
  }

  lemma BatchCommitted(p: R.Policy, b: Batch) returns (sys: System)
    requires Deliverable(p, b)
    ensures Reaches(p, Begin(b), sys) && Committed(p, b, sys)
  {
    hide Reaches, Deliverable, S.Step, R.Step, R.StagingName, Lifecycle.Transition, AtFile, NamedAs;
    sys := BatchAccepted(p, b);
    sys := FilesMoved(p, b, sys, 0);
    sys := BatchDeclared(p, b, sys);
    sys := FilesFinalized(p, b, sys, 0);
    IE.CheckStep(p, sys.receiver);
    sys := ReceiverDoes(p, Begin(b), sys, R.CheckPoint);
    IE.CheckStep(p, sys.receiver);
    sys := ReceiverDoes(p, Begin(b), sys, R.CheckPoint);
  }

  lemma ResultStep(p: R.Policy, r: R.Receiver, delivered: bool)
    requires r.pc.WriteResult?
    ensures R.Step(p, r, R.ResultWritten(delivered)) ==
            r.(pc := R.SettleResult,
               sent := if delivered then r.sent + [Control(TransferResult(r.id, true, None))] else r.sent)
  {
  }

  // ----- the two ends ----------------------------------------------------

  ghost predicate DeliveredBy(p: R.Policy, b: Batch, sys: System)
  {
    && sys.sender.pc == S.Ended(S.Succeeded) && sys.receiver.pc == R.Ended(R.Succeeded)
    && sys.receiver.got == b.bodies && NamedWell(p, b, sys.receiver.finalized) && Agreed(p, sys)
  }

  lemma BothComplete(p: R.Policy, b: Batch) returns (sys: System)
    requires Deliverable(p, b)
    ensures Reaches(p, Begin(b), sys)
    ensures sys.sender.pc == S.Ended(S.Succeeded) && sys.receiver.pc == R.Ended(R.Succeeded)
    ensures sys.receiver.got == b.bodies && NamedWell(p, b, sys.receiver.finalized)
  {
    hide Reaches, Deliverable, S.Step, R.Step, Lifecycle.Transition, Lifecycle.Progress, NamedWell;
    sys := BatchCommitted(p, b);
    ResultStep(p, sys.receiver, true);
    sys := ReceiverDoes(p, Begin(b), sys, R.ResultWritten(true));
    IE.SettledStep(p, sys.receiver);
    sys := ReceiverDoes(p, Begin(b), sys, R.ResultSettled);
    sys := SenderReads(p, Begin(b), sys, Control(TransferResult(b.id, true, None)));
    OE.SignalStep(sys.sender, CLOCK);
    sys := SenderDoes(p, Begin(b), sys, S.SignalSeen(CLOCK));
  }

  /**
   Every valid batch can be delivered, byte for byte, and both sides say so: each file under its own
   name or, where that is taken or repeated, under a numbered variant.
   */
  lemma EveryBatchCanBeDelivered(p: R.Policy, b: Batch)
    requires Deliverable(p, b)
    ensures exists turns :: DeliveredBy(p, b, Run(p, Begin(b), turns))
  {
    hide Deliverable, Run, Agreed, NamedWell;
    var sys := BothComplete(p, b);
    var turns :| Run(p, Begin(b), turns) == sys;
    SenderCompletedMeansDelivered(p, b.id, b.present, turns);
  }

  lemma AcknowledgementLost(p: R.Policy, b: Batch) returns (sys: System)
    requires Deliverable(p, b)
    ensures Reaches(p, Begin(b), sys)
    ensures sys.receiver.pc == R.Ended(R.Succeeded) && sys.sender.pc == S.Ended(S.Aborted(Timeout))
  {
    hide Reaches, Deliverable, S.Step, R.Step, Lifecycle.Transition, Lifecycle.FinishError, NamedWell;
    sys := BatchCommitted(p, b);
    ResultStep(p, sys.receiver, false);
    sys := ReceiverDoes(p, Begin(b), sys, R.ResultWritten(false));
    IE.SettledStep(p, sys.receiver);
    sys := ReceiverDoes(p, Begin(b), sys, R.ResultSettled);
    OE.WaitStep(sys.sender, Timeout);
    sys := SenderDoes(p, Begin(b), sys, S.WaitFailed(Timeout));
    OE.WithdrawStep(sys.sender, Timeout, false);
    sys := SenderDoes(p, Begin(b), sys, S.Withdrawn(false));
  }

  /** Agreement has one direction: with any such batch the receiver may complete and the sender fail. */
  lemma AgreementIsOneWay(p: R.Policy, b: Batch)
    requires Deliverable(p, b)
    ensures exists turns :: var sys := Run(p, Begin(b), turns);
              sys.receiver.pc == R.Ended(R.Succeeded) && sys.sender.pc == S.Ended(S.Aborted(Timeout))
  {
    hide Deliverable, Run;
    var sys := AcknowledgementLost(p, b);
    var turns :| Run(p, Begin(b), turns) == sys;
  }

  // ----- such batches exist ----------------------------------------------

  const EMPTY_DIGEST: string := seq(64, _ => '0')
  const SMALL_ID: string := "00000000-0000-0000-0000-000000000001"

  lemma SmallIdIsValid()
    ensures ValidTransferId(SMALL_ID)
  {
    assert SMALL_ID[35] == '1';
  }

  lemma ShortFileIsValid()
    ensures ValidFile(TransferFile("a", 0, EMPTY_DIGEST))
  {
  }

  lemma TwinsAreValid(file: TransferFile)
    requires file == TransferFile("a", 0, EMPTY_DIGEST)
    ensures ValidRequest(SMALL_ID, [file, file], TotalSize([file, file]))
  {
    hide ValidTransferId, ValidFile, SMALL_ID;
    SmallIdIsValid();
    ShortFileIsValid();
    assert [file, file][..1] == [file] && [file][..0] == [];
    assert TotalSize([file]) == 0;
    assert TotalSize([file, file]) == 0;
  }

  /** The statements above are not empty, not even for repeated names. */
  lemma SomeBatchIsDeliverable()
    ensures exists p, b :: Deliverable(p, b) && !AllNamesFree(p, b)
  {
    hide ValidTransferId, ValidFile, SMALL_ID, ValidRequest, Separated;
    var p := R.Policy((name: string) => name, (bytes: Bytes) => EMPTY_DIGEST);
    var file := TransferFile("a", 0, EMPTY_DIGEST);
    var b := Batch(SMALL_ID, [file, file], [[], []], map[]);
    TwinsAreValid(file);
    NamesSeparate(p, "a");
    assert b.files[0].name == b.files[1].name;
    assert Deliverable(p, b) && !AllNamesFree(p, b);
  }
}

/**
 Both parties together. Each side's `sent` and `log` are the history of what it put on the
 connection and of what it took from it, so the connection is in order, without duplicates, and
 may stop delivering at any time. Turns interleave freely; either side may be cancelled, cut
 off, shut down or hit by a failing file operation at any of them.
 */
module Agreement {
  import opened Wrappers
  import opened Wire
  import opened Transcript
  import Lifecycle
  import R = Receiver
  import S = Sender
  import RS = ReceiverSafety
  import SS = SenderSafety
  import RT = ReceiverTheorems

  datatype System = System(sender: S.Sender, receiver: R.Receiver)

  datatype Turn = SenderTurn(act: S.Event) | ReceiverTurn(deed: R.Event)

  /** A frame is read only as the next one the other side has sent. */
  predicate Possible(sys: System, t: Turn)
  {
    match t
    case SenderTurn(Read(Got(f))) =>
      var n := |sys.sender.log|; n < |sys.receiver.sent| && sys.receiver.sent[n] == f
    case ReceiverTurn(Read(Got(f))) =>
      var n := |sys.receiver.log|; n < |sys.sender.sent| && sys.sender.sent[n] == f
    case _ => true
  }

  function Next(p: R.Policy, sys: System, t: Turn): System
  {
    if !Possible(sys, t) then sys
    else match t
      case SenderTurn(e) => sys.(sender := S.Step(sys.sender, e))
      case ReceiverTurn(e) => sys.(receiver := R.Step(p, sys.receiver, e))
  }

  function Start(id: string, present: map<string, Bytes>): System
  {
    System(S.Initial(id), R.Initial(present))
  }

  function Run(p: R.Policy, start: System, turns: seq<Turn>): System
  {
    if turns == [] then start
    else Next(p, Run(p, start, turns[..|turns| - 1]), turns[|turns| - 1])
  }

  lemma RunAppend(p: R.Policy, start: System, turns: seq<Turn>, t: Turn)
    ensures Run(p, start, turns + [t]) == Next(p, Run(p, start, turns), t)
  {
    assert (turns + [t])[..|turns|] == turns;
  }

  // ----- the joint invariant --------------------------------------------

  /** What one side took is a prefix of what the other put. */
  ghost predicate Linked(sys: System)
  {
    sys.sender.log <= sys.receiver.sent && sys.receiver.log <= sys.sender.sent
  }

  ghost predicate Inv(p: R.Policy, sys: System)
  {
    SS.Inv(sys.sender) && RS.Inv(p, sys.receiver) && Linked(sys)
  }

  lemma SenderLogs(s: S.Sender, e: S.Event)
    ensures var t := S.Step(s, e);
            && s.sent <= t.sent
            && (t.log == s.log || (e.Read? && e.outcome.Got? && t.log == s.log + [e.outcome.frame]))
  {
    hide S.OnPrepared, S.OnConnected, S.OnTrust, S.OnRequestWritten, S.OnRead, S.OnWritten, S.OnChunkRead,
      S.OnSignal, S.OnCheckPoint, S.OnWithdrawn, S.Fail, S.GiveUp;
  }

  lemma ReceiverLogs(p: R.Policy, r: R.Receiver, e: R.Event)
    ensures var t := R.Step(p, r, e);
            && r.sent <= t.sent
            && (t.log == r.log || (e.Read? && e.outcome.Got? && t.log == r.log + [e.outcome.frame]))
  {
    hide R.OnForeignFiles, R.OnGot, R.OnReadFailed, R.OnTrust, R.OnAdmission, R.OnAnnounced, R.OnAnswer,
      R.OnDecisionWritten, R.OnNoticeWritten, R.OnFolderChecked, R.OnNameChosen, R.OnStageCreated,
      R.OnChunkWritten, R.OnFlushed, R.OnCounted, R.OnCheckPoint, R.OnFileFinalized, R.OnFinalizeFailed,
      R.OnResultWritten, R.OnResultSettled, R.OnCleanedUp, R.OnRolledBack, R.OnFailureReported, R.Fail;
  }

  lemma NextKeepsInvariant(p: R.Policy, sys: System, t: Turn)
    requires Inv(p, sys)
    ensures Inv(p, Next(p, sys, t))
  {
    hide SS.Inv, RS.Inv, S.Step, R.Step;
    if Possible(sys, t) {
      match t {
        case SenderTurn(e) =>
          SS.StepKeepsInvariant(sys.sender, e);
          SenderLogs(sys.sender, e);
        case ReceiverTurn(e) =>
          RS.StepKeepsInvariant(p, sys.receiver, e);
          ReceiverLogs(p, sys.receiver, e);
      }
    }
  }

  lemma {:induction false} RunKeepsInvariant(p: R.Policy, start: System, turns: seq<Turn>)
    requires Inv(p, start)
    ensures Inv(p, Run(p, start, turns))
  {
    hide Inv, Next;
    if turns != [] {
      RunKeepsInvariant(p, start, turns[..|turns| - 1]);
      NextKeepsInvariant(p, Run(p, start, turns[..|turns| - 1]), turns[|turns| - 1]);
    }
  }

  lemma StartInvariant(p: R.Policy, id: string, present: map<string, Bytes>)
    ensures Inv(p, Start(id, present))
  {
    hide SS.Inv, RS.Inv;
    SS.InitialInvariant(id);
    RS.InitialInvariant(p, present);
  }

  // ----- agreement -------------------------------------------------------

  /** The receiver's word is out: nothing can make it fail or roll back any more. */
  predicate Settled(r: R.Receiver) { r.pc.SettleResult? || r.pc == R.Ended(R.Succeeded) }

  /** The receiver has, under the announced names' final paths, exactly what was streamed. */
  ghost predicate Agreed(p: R.Policy, sys: System)
  {
    var s, r := sys.sender, sys.receiver;
    && Settled(r)
    && r.id == s.id && r.files == s.files && r.total == s.total
    && r.got == s.streamed
    && RT.Delivered(p, r)
  }

  lemma SuccessWasSent(p: R.Policy, sys: System)
    requires Inv(p, sys) && SS.EndedWell(sys.sender.pc)
    ensures Settled(sys.receiver)
  {
    var s, r := sys.sender, sys.receiver;
    assert SS.HeardSuccess(s.log, s.id) && RS.SentInv(r) && s.log <= r.sent by {
      hide SS.TrackInv, SS.RequestInv, SS.SpellInv, RS.Shape, RS.Places, RS.CountInv, RS.TrackInv, RS.LogInv,
        SS.HeardSuccess, RS.SentInv;
    }
    hide Inv;
    var k :| 0 <= k < |s.log| && s.log[k].Control? && IsSuccess(s.log[k].message);
    assert r.sent[k] == s.log[k];
  }

  lemma SameTranscript(p: R.Policy, sys: System)
    requires Inv(p, sys) && SS.EndedWell(sys.sender.pc) && Settled(sys.receiver)
    ensures sys.receiver.got == sys.sender.streamed
  {
    var s, r := sys.sender, sys.receiver;
    assert Parse(r.log) == Parsed(r.got, None, true) by {
      hide SS.Inv, RS.Shape, RS.Places, RS.CountInv, RS.TrackInv, RS.SentInv, Parse;
    }
    assert Parse(s.sent) == Parsed(s.streamed, None, true) by {
      hide RS.Inv, SS.TrackInv, SS.RequestInv, SS.HeardInv, Parse;
    }
    assert r.log <= s.sent by { hide SS.Inv, RS.Inv; }
    hide Inv, Parse;
    CompleteIsFinal(r.log, s.sent);
  }

  lemma SameRequest(p: R.Policy, sys: System)
    requires Inv(p, sys) && SS.EndedWell(sys.sender.pc) && Settled(sys.receiver)
    ensures sys.receiver.id == sys.sender.id && sys.receiver.files == sys.sender.files
    ensures sys.receiver.total == sys.sender.total
  {
    var s, r := sys.sender, sys.receiver;
    assert r.log != [] && RS.IsRequest(r.log[0], r.id, r.files, r.total) by {
      hide SS.Inv, RS.Shape, RS.Places, RS.CountInv, RS.TrackInv, RS.SentInv, Parse;
    }
    assert RS.IsRequest(s.sent[0], s.id, s.files, s.total) by {
      hide RS.Inv, SS.TrackInv, SS.SpellInv, SS.HeardInv, ValidRequest;
    }
    assert r.log <= s.sent by { hide SS.Inv, RS.Inv; }
    hide Inv;
    assert r.log[0] == s.sent[0];
  }

  lemma CompletedMeansAgreed(p: R.Policy, sys: System)
    requires Inv(p, sys) && SS.EndedWell(sys.sender.pc)
    ensures Agreed(p, sys)
  {
    SuccessWasSent(p, sys);
    SameTranscript(p, sys);
    SameRequest(p, sys);
    hide SS.Inv, RT.Delivered;
    RT.CommittedIsDelivered(p, sys.receiver);
    hide RS.Inv;
  }

  /**
   If the sender reports completion, the receiver has every file at its final name, with the
   bytes the sender streamed and the announced sizes and digests.
   */
  lemma SenderCompletedMeansDelivered(
    p: R.Policy, id: string, present: map<string, Bytes>, turns: seq<Turn>)
    requires Run(p, Start(id, present), turns).sender.pc == S.Ended(S.Succeeded)
    ensures Agreed(p, Run(p, Start(id, present), turns))
  {
    hide Inv, Run, Start, Agreed;
    StartInvariant(p, id, present);
    RunKeepsInvariant(p, Start(id, present), turns);
    CompletedMeansAgreed(p, Run(p, Start(id, present), turns));
  }

  // ----- and it stays so -------------------------------------------------

  lemma EndedSenderStays(s: S.Sender, e: S.Event)
    requires s.pc.Ended?
    ensures S.Step(s, e).pc == s.pc && S.Step(s, e).streamed == s.streamed
  {
  }

  lemma SettledReceiverStays(p: R.Policy, r: R.Receiver, e: R.Event)
    requires Settled(r)
    ensures var t := R.Step(p, r, e);
            && Settled(t) && t.files == r.files && t.got == r.got && t.finalized == r.finalized
            && (forall x :: x in r.folder.files ==> x in t.folder.files && t.folder.files[x] == r.folder.files[x])
  {
    hide Lifecycle.Transition, R.Temporaries;
  }

  /** Nothing that happens after the sender completed takes a delivered file away. */
  lemma {:induction false} DeliveryIsForever(
    p: R.Policy, id: string, present: map<string, Bytes>, turns: seq<Turn>, more: seq<Turn>)
    requires Run(p, Start(id, present), turns).sender.pc == S.Ended(S.Succeeded)
    ensures var early := Run(p, Start(id, present), turns);
            var late := Run(p, Start(id, present), turns + more);
            && late.sender.pc == S.Ended(S.Succeeded)
            && Agreed(p, late)
            && late.receiver.finalized == early.receiver.finalized
            && late.receiver.got == early.receiver.got
            && (forall x :: x in early.receiver.folder.files ==>
                  x in late.receiver.folder.files &&
                  late.receiver.folder.files[x] == early.receiver.folder.files[x])
    decreases |more|
  {
    hide Start, R.Step, S.Step, RT.Delivered;
    if more == [] {
      assert turns + more == turns;
      SenderCompletedMeansDelivered(p, id, present, turns);
    } else {
      var front, t := more[..|more| - 1], more[|more| - 1];
      DeliveryIsForever(p, id, present, turns, front);
      assert turns + more == (turns + front) + [t];
      RunAppend(p, Start(id, present), turns + front, t);
      var before := Run(p, Start(id, present), turns + front);
      hide Run;
      if t.SenderTurn? {
        EndedSenderStays(before.sender, t.act);
      } else {
        SettledReceiverStays(p, before.receiver, t.deed);
      }
      SenderCompletedMeansDelivered(p, id, present, turns + more);
    }
  }
}

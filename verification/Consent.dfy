/**
 Both parties and the recipient: nothing is streamed without the recipient's consent, and a
 refusal ends the sender.
 */
module Consent {
  import opened Wrappers
  import opened Wire
  import Lifecycle
  import R = Receiver
  import S = Sender
  import RA = ReceiverAnswers
  import SM = SenderMonitor
  import SS = SenderSafety
  import RS = ReceiverSafety
  import opened Agreement

  /** At some turn of the joint run the recipient gave this answer and it counted. */
  predicate Answered(p: R.Policy, start: System, turns: seq<Turn>, answer: R.Answer)
  {
    && turns != []
    && var before, t := turns[..|turns| - 1], turns[|turns| - 1];
       Answered(p, start, before, answer) ||
       (t.ReceiverTurn? && RA.Decides(Run(p, start, before).receiver, t.deed, answer))
  }

  predicate Expired(p: R.Policy, start: System, turns: seq<Turn>)
  {
    && turns != []
    && var before, t := turns[..|turns| - 1], turns[|turns| - 1];
       Expired(p, start, before) ||
       (t == ReceiverTurn(R.DeadlinePassed) && Run(p, start, before).receiver.pc.AwaitDecision?)
  }

  ghost predicate ConsentInv(sys: System, yes: bool, no: bool, expired: bool)
  {
    && SM.MonitorInv(sys.sender) && SM.AnswerInv(sys.sender)
    && RA.SentInv(sys.receiver) && RA.Justified(sys.receiver, yes, no, expired) && Linked(sys)
  }

  lemma NextKeepsConsent(p: R.Policy, sys: System, t: Turn, yes: bool, no: bool, expired: bool)
    requires ConsentInv(sys, yes, no, expired)
    ensures ConsentInv(
              Next(p, sys, t),
              yes || (t.ReceiverTurn? && RA.Decides(sys.receiver, t.deed, R.Yes)),
              no || (t.ReceiverTurn? && RA.Decides(sys.receiver, t.deed, R.No)),
              expired || (t == ReceiverTurn(R.DeadlinePassed) && sys.receiver.pc.AwaitDecision?))
  {
    hide SM.MonitorInv, SM.AnswerInv, RA.SentInv, RA.Justified, S.Step, R.Step;
    match t {
      case SenderTurn(e) =>
        SM.StepKeepsMonitor(sys.sender, e);
        SM.StepKeepsAnswer(sys.sender, e);
        SenderLogs(sys.sender, e);
      case ReceiverTurn(e) =>
        RA.StepKeepsSent(p, sys.receiver, e);
        RA.StepJustified(p, sys.receiver, e, yes, no, expired);
        ReceiverLogs(p, sys.receiver, e);
        if !Possible(sys, t) {
          NoAnswer(sys.receiver, e);
        }
    }
  }

  /** A read that is not possible is no answer. */
  lemma NoAnswer(r: R.Receiver, e: R.Event)
    requires e.Read?
    ensures !RA.Decides(r, e, R.Yes) && !RA.Decides(r, e, R.No)
  {
  }

  lemma StartConsent(id: string, present: map<string, Bytes>)
    ensures ConsentInv(Start(id, present), false, false, false)
  {
  }

  lemma {:induction false} RunKeepsConsent(p: R.Policy, id: string, present: map<string, Bytes>, turns: seq<Turn>)
    ensures var start := Start(id, present);
            ConsentInv(Run(p, start, turns), Answered(p, start, turns, R.Yes), Answered(p, start, turns, R.No),
                       Expired(p, start, turns))
  {
    hide ConsentInv, Next, RA.Decides, Start;
    var start := Start(id, present);
    if turns == [] {
      StartConsent(id, present);
    } else {
      var before, t := turns[..|turns| - 1], turns[|turns| - 1];
      RunKeepsConsent(p, id, present, before);
      NextKeepsConsent(p, Run(p, start, before), t, Answered(p, start, before, R.Yes),
                       Answered(p, start, before, R.No), Expired(p, start, before));
    }
  }

  // ----- what it means ---------------------------------------------------

  lemma AcceptanceWasSent(sys: System, yes: bool, no: bool, expired: bool)
    requires ConsentInv(sys, yes, no, expired) && !sys.sender.monitor.Off?
    ensures yes && RA.Acceptance(sys.receiver.id) in sys.receiver.sent && sys.receiver.id == sys.sender.id
  {
    hide RA.SentInv;
    RA.FirstIsDecision(sys.receiver);
    assert sys.sender.log[0] == sys.receiver.sent[0];
    assert RA.IsDecision(sys.receiver.sent[0]);
  }

  /** Whenever a sender streams or has streamed, the recipient has said yes to this very transfer. */
  lemma StreamedOnlyWithConsent(p: R.Policy, id: string, present: map<string, Bytes>, turns: seq<Turn>)
    ensures var start := Start(id, present);
            var s := Run(p, start, turns).sender;
            !s.monitor.Off? || SM.Streaming(s.pc) || s.pc == S.Ended(S.Succeeded) ==>
              Answered(p, start, turns, R.Yes) && Run(p, start, turns).receiver.id == s.id
  {
    hide Run, Start, RA.SentInv, RA.Justified, Linked;
    RunKeepsConsent(p, id, present, turns);
    var start := Start(id, present);
    var sys := Run(p, start, turns);
    if !sys.sender.monitor.Off? {
      AcceptanceWasSent(sys, Answered(p, start, turns, R.Yes), Answered(p, start, turns, R.No),
                        Expired(p, start, turns));
    }
  }

  /** A refusal that arrives ends the sender turned down, with nothing streamed. */
  lemma RefusalTurnsDown(
    p: R.Policy, id: string, present: map<string, Bytes>, turns: seq<Turn>, reason: Reason)
    requires var sys := Run(p, Start(id, present), turns);
             sys.sender.pc.AwaitDecision? && sys.receiver.sent == [RA.Refusal(sys.sender.id, reason)]
    ensures var sys := Run(p, Start(id, present), turns);
            var s := Next(p, sys, SenderTurn(S.Read(Got(RA.Refusal(sys.sender.id, reason))))).sender;
            && s.pc == S.Ended(S.TurnedDown) && s.streamed == [] && s.monitor.Off?
            && s.tracker.now.phase ==
               (if reason == CancelledText then Lifecycle.CanceledPhase else Lifecycle.Rejected)
  {
    hide Run, Start, SS.Inv, RS.Inv, RA.SentInv, RA.Justified, Lifecycle.Sound;
    StartInvariant(p, id, present);
    RunKeepsInvariant(p, Start(id, present), turns);
    RunKeepsConsent(p, id, present, turns);
    WaitingSender(Run(p, Start(id, present), turns).sender);
  }

  lemma WaitingSender(s: S.Sender)
    requires SS.Inv(s) && s.pc.AwaitDecision?
    ensures s.streamed == [] && s.tracker.now.phase == Lifecycle.WaitingForAcceptance
  {
    hide SS.RequestInv, SS.HeardInv, Lifecycle.Sound;
  }

  lemma EndedReceiverStays(p: R.Policy, r: R.Receiver, e: R.Event)
    requires r.pc.Ended?
    ensures R.Step(p, r, e).pc == r.pc && R.Step(p, r, e).sent == r.sent
  {
  }

  lemma {:induction false} DeclinedStays(p: R.Policy, sys: System, more: seq<Turn>)
    requires sys.receiver.pc.Ended?
    ensures Run(p, sys, more).receiver.pc == sys.receiver.pc
  {
    hide R.Step, S.Step;
    if more != [] {
      DeclinedStays(p, sys, more[..|more| - 1]);
      var t := more[|more| - 1];
      if t.ReceiverTurn? {
        EndedReceiverStays(p, Run(p, sys, more[..|more| - 1]).receiver, t.deed);
      }
    }
  }

  lemma {:induction false} RunSplit(p: R.Policy, start: System, turns: seq<Turn>, more: seq<Turn>)
    ensures Run(p, start, turns + more) == Run(p, Run(p, start, turns), more)
    decreases |more|
  {
    hide Next;
    if more == [] {
      assert turns + more == turns;
    } else {
      var front := more[..|more| - 1];
      RunSplit(p, start, turns, front);
      assert (turns + more)[..|turns + more| - 1] == turns + front;
    }
  }

  /** Once the receiver has ended declined, the sender streams in no continuation. */
  lemma DeclinedIsNeverStreamed(
    p: R.Policy, id: string, present: map<string, Bytes>, turns: seq<Turn>, more: seq<Turn>)
    requires Run(p, Start(id, present), turns).receiver.pc == R.Ended(R.Declined)
    ensures var s := Run(p, Start(id, present), turns + more).sender;
            s.monitor.Off? && !SM.Streaming(s.pc) && s.pc != S.Ended(S.Succeeded)
  {
    hide Run, Start, RA.Justified, Linked;
    var start := Start(id, present);
    RunSplit(p, start, turns, more);
    DeclinedStays(p, Run(p, start, turns), more);
    RunKeepsConsent(p, id, present, turns + more);
    var sys := Run(p, start, turns + more);
    if !sys.sender.monitor.Off? {
      AcceptanceWasSent(sys, Answered(p, start, turns + more, R.Yes), Answered(p, start, turns + more, R.No),
                        Expired(p, start, turns + more));
      assert false;
    }
  }
}

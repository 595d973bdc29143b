/** What holds in every state of every run of a session. */
module ProtocolRuns {
  import opened Tracker
  import opened Protocol
  import opened ProtocolInvariant
  import opened ProtocolSteps
  import opened ProtocolCalls
  import opened ProtocolSender
  import opened ProtocolWrites
  import opened ProtocolOutcome
  import opened ProtocolDeaths
  import opened ProtocolSession

  // ----- every step keeps the invariant

  lemma SessionKeepsInv(s: Sys, a: SessionStep)
    requires Inv(s) && SessionEnabled(s, a) && !a.DoClear?
    ensures Inv(SessionNext(s, a))
  {
    match a
    case DoAdmit(id, initial) => AdmitKeepsInv(s, id, initial);
    case DoBind(token, w) => BindKeepsInv(s, token, w);
    case DoRouteFail(token) => RouteFailKeepsInv(s, token);
    case DoSkip(token) => DropKeepsInv(s, token);
    case DoCancel(id, kept) => CancelKeepsInv(s, id, kept);
    case DoExpire(token, kept) => ExpireKeepsInv(s, token, kept);
    case DoForward(token, fate) => ForwardKeepsInv(s, token, fate);
    case DoEnd => EndKeepsInv(s);
  }

  lemma AttemptKeepsInv(s: Sys, w: string, a: SenderStep)
    requires Inv(s) && SenderEnabled(s, w, a)
    requires a.DoTakeCall? || a.DoTakeNote? || a.DoDropNote? || a.DoAttemptFail? || a.DoWaste?
    ensures Inv(SenderNext(s, w, a))
  {
    match a
    case DoTakeCall(token) => TakeCallKeepsInv(s, w, token);
    case DoTakeNote(initial) => TakeNoteKeepsInv(s, w, initial);
    case DoDropNote => NoteIdleKeepsInv(s, w);
    case DoAttemptFail(stop) => AttemptFailKeepsInv(s, w, stop);
    case DoWaste(conn, written, stop) => WasteKeepsInv(s, w, conn, written, stop);
  }

  lemma WriteKeepsInv(s: Sys, w: string, a: SenderStep)
    requires Inv(s) && SenderEnabled(s, w, a)
    requires a.DoBegin? || a.DoBeginFresh? || a.DoIssue? || a.DoReturn?
    ensures Inv(SenderNext(s, w, a))
  {
    match a
    case DoBegin => BeginKeepsInv(s, w);
    case DoBeginFresh(conn, written) => BeginFreshKeepsInv(s, w, conn, written);
    case DoIssue(posted, tooLarge) => IssueKeepsInv(s, w, posted, tooLarge);
    case DoReturn(ok) => ReturnKeepsInv(s, w, ok);
  }

  lemma OutcomeKeepsInv(s: Sys, w: string, a: SenderStep)
    requires Inv(s) && SenderEnabled(s, w, a)
    requires a.DoEndTooLarge? || a.DoAdopt? || a.DoRetry? || a.DoFail?
    ensures Inv(SenderNext(s, w, a))
  {
    match a
    case DoEndTooLarge => EndTooLargeKeepsInv(s, w);
    case DoAdopt(timed) => AdoptKeepsInv(s, w, timed);
    case DoRetry => RetryingKeepsInv(s, w);
    case DoFail => FailKeepsInv(s, w);
  }

  lemma ReaderKeepsInv(s: Sys, conn: Conn, a: ConnStep)
    requires Inv(s) && ConnEnabled(s, conn, a)
    requires a.DoReadFail? || a.DoAnswer? || a.DoReaderEnd?
    ensures Inv(ConnNext(s, conn, a))
  {
    match a
    case DoReadFail(closes) => ReadFailKeepsInv(s, conn, closes);
    case DoAnswer(posted) => ReplyKeepsInv(s, conn, posted);
    case DoReaderEnd => ReaderEndKeepsInv(s, conn);
  }

  lemma RootsKeepsInv(s: Sys, conn: Conn, a: ConnStep)
    requires Inv(s) && ConnEnabled(s, conn, a)
    requires a.DoReaderQuit? || a.DoRootsFail? || a.DoRootsClose? || a.DoRootsEnd?
    ensures Inv(ConnNext(s, conn, a))
  {
    match a
    case DoReaderQuit => ReaderQuitKeepsInv(s, conn);
    case DoRootsFail => RootsFailKeepsInv(s, conn);
    case DoRootsClose => RootsCloseKeepsInv(s, conn);
    case DoRootsEnd => RootsEndKeepsInv(s, conn);
  }

  lemma ControlStepKeepsInv(s: Sys, w: string, a: ControlStep)
    requires Inv(s) && ControlEnabled(s, w, a)
    ensures Inv(ControlNext(s, w, a))
  {
    match a
    case DoDiscard(control) => DropControlKeepsInv(s, w, control);
    case DoEnter(control) => EnterKeepsInv(s, w, control);
    case DoAdvise(posted) => AdviseKeepsInv(s, w, posted);
    case DoLeave => LeaveKeepsInv(s, w);
  }

  lemma NextKeepsInv(s: Sys, a: Action)
    requires Inv(s) && Enabled(s, a) && a != OfSession(DoClear)
    ensures Inv(Next(s, a))
  {
    match a
    case OfSession(step) => SessionKeepsInv(s, step);
    case OfSender(w, step) =>
      if step.DoTakeCall? || step.DoTakeNote? || step.DoDropNote? || step.DoAttemptFail? || step.DoWaste? {
        AttemptKeepsInv(s, w, step);
      } else if step.DoBegin? || step.DoBeginFresh? || step.DoIssue? || step.DoReturn? {
        WriteKeepsInv(s, w, step);
      } else {
        OutcomeKeepsInv(s, w, step);
      }
    case OfConn(conn, step) =>
      if step.DoReaderQuit? || step.DoRootsFail? || step.DoRootsClose? || step.DoRootsEnd? {
        RootsKeepsInv(s, conn, step);
      } else if step.DoReadReply? {
        ReadReplyKeepsInv(s, conn, step.at);
      } else {
        ReaderKeepsInv(s, conn, step);
      }
    case OfControl(w, step) => ControlStepKeepsInv(s, w, step);
  }
}

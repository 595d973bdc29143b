/** A call goes out as what the client sent: its initialize as the initialize, and any
    other call as any other. */
module ProtocolKinds {
  import opened Options
  import opened Tracker
  import opened Protocol
  import opened ProtocolInvariant
  import opened ProtocolCalls
  import opened ProtocolTheorems
  import opened ProtocolEffects
  import opened ProtocolAttempts

  /** Until its sender has it, the call is queued for an initialize exactly if it is one. */
  ghost predicate StageKind(s: Sys, token: Token, initial: bool) {
    token in s.stage ==>
      match s.stage[token]
      case Routing(i) => i == initial
      case Queued(_, i) => i == initial
      case _ => true
  }

  ghost predicate SenderKind(s: Sys, token: Token, initial: bool) {
    forall w :: w in s.lanes && Carries(s.lanes[w].sender, token) ==> s.lanes[w].sender.d.initial == initial
  }

  ghost predicate WrittenKind(written: seq<Entry>, token: Token, initial: bool) {
    forall k :: 0 <= k < |written| && written[k].token == Some(token) ==> (written[k].body.Initialize? <==> initial)
  }

  ghost predicate WireKind(s: Sys, token: Token, initial: bool) {
    forall conn :: conn in s.wire ==> WrittenKind(s.wire[conn], token, initial)
  }

  ghost predicate KindOk(s: Sys, token: Token, initial: bool) {
    StageKind(s, token, initial) && SenderKind(s, token, initial) && WireKind(s, token, initial)
  }

  // ----- the session

  lemma CancelStage(s: Sys, id: Id, kept: bool)
    ensures Cancels(s, id, kept).stage == s.stage
  {
  }

  lemma ExpireStage(s: Sys, token: Token, kept: bool)
    requires token in s.timers && token in s.ids
    ensures Expires(s, token, kept).stage == s.stage
  {
    var id, s1 := s.ids[token], s.(timers := s.timers - {token});
    if Owns(s.t, id, Some(token)) {
      AdviseStage(Claim(s1, id, None, Some(token), Expired), id, s.t.awaiting[id], kept);
    }
  }

  lemma AdviseStage(s: Sys, id: Id, owner: Owed, kept: bool)
    ensures Advise(s, id, owner, kept).stage == s.stage
  {
  }

  lemma BindStage(s: Sys, token: Token, w: string, k: Token, initial: bool)
    requires CanBind(s, token, w) && StageKind(s, k, initial)
    ensures StageKind(Binding(s, token, w), k, initial)
  {
  }

  lemma AdmitStage(s: Sys, id: Id, first: bool, k: Token, initial: bool)
    requires StageKind(s, k, initial) && k < s.t.nextToken
    ensures StageKind(Admitting(s, id, first), k, initial)
  {
  }

  lemma ForwardStage(s: Sys, token: Token, fate: Fate)
    requires CanForward(s, token, fate)
    ensures Forwards(s, token, fate).stage == s.stage
  {
  }

  lemma SessionStage(s: Sys, a: SessionStep, k: Token, initial: bool)
    requires StageKind(s, k, initial) && (a.DoForward? || k < s.t.nextToken) && SessionEnabled(s, a)
    ensures StageKind(SessionNext(s, a), k, initial)
  {
    match a
    case DoAdmit(id, first) => AdmitStage(s, id, first, k, initial);
    case DoBind(token, w) => BindStage(s, token, w, k, initial);
    case DoCancel(id, kept) => CancelStage(s, id, kept);
    case DoExpire(token, kept) => ExpireStage(s, token, kept);
    case DoForward(token, fate) => ForwardStage(s, token, fate);
    case _ =>
  }

  lemma SessionSenders(s: Sys, a: SessionStep)
    requires SessionEnabled(s, a)
    ensures SessionNext(s, a).wire == s.wire && NoSender(s, SessionNext(s, a))
  {
    match a
    case DoCancel(id, kept) => CancelTries(s, id, kept);
    case DoExpire(token, kept) => ExpireTries(s, token, kept);
    case DoBind(token, w) => BindTries(s, token, w);
    case _ =>
      SessionWires(s, a);
      SessionNoLane(s, a);
  }

  lemma SessionKind(s: Sys, a: SessionStep, k: Token, initial: bool)
    requires KindOk(s, k, initial) && (a.DoForward? || k < s.t.nextToken) && SessionEnabled(s, a)
    ensures KindOk(SessionNext(s, a), k, initial)
  {
    SessionStage(s, a, k, initial);
    SessionSenders(s, a);
  }

  // ----- the senders

  /** The step leaves queued calls where they are or takes them out of the queue. */
  ghost predicate Unqueues(s: Sys, s': Sys) {
    forall k :: k in s'.stage ==>
      s'.stage[k].AtLane? || s'.stage[k].Settled? || (k in s.stage && s'.stage[k] == s.stage[k])
  }

  /** Of the senders only that of one lane has moved, with the delivery it had. */
  ghost predicate KeepsDelivery(s: Sys, s': Sys, w: string) {
    && OnlySender(s, s', w)
    && (s'.lanes[w].sender.Idle? || (!s.lanes[w].sender.Idle? && s'.lanes[w].sender.d == s.lanes[w].sender.d))
  }

  lemma DeliveryKind(s: Sys, s': Sys, w: string, k: Token, initial: bool)
    requires StageKind(s, k, initial) && SenderKind(s, k, initial) && Unqueues(s, s') && KeepsDelivery(s, s', w)
    ensures StageKind(s', k, initial) && SenderKind(s', k, initial)
  {
  }

  lemma TakesKind(s: Sys, w: string, token: Token, k: Token, initial: bool)
    requires KindOk(s, k, initial) && CanTakeCall(s, w, token)
    ensures KindOk(TakesCall(s, w, token), k, initial)
  {
    TakesOwed(s, w, token);
    TakesOnlySender(s, w, token);
  }

  lemma AttemptKind(s: Sys, w: string, stop: bool)
    requires CanAttempt(s, w)
    ensures var s' := AttemptFails(s, w, stop); Unqueues(s, s') && KeepsDelivery(s, s', w) && s'.wire == s.wire
  {
    FailsAttemptOnlySender(s, w, stop);
  }

  lemma PlacingKind(s: Sys, w: string, conn: Conn)
    requires CanAttempt(s, w)
    ensures var s' := Placing(s, w, conn); Unqueues(s, s') && KeepsDelivery(s, s', w) && s'.wire == s.wire
  {
    PlacingOnlySender(s, w, conn);
    PlacingSender(s, w, conn);
    assert Placing(s, w, conn).stage == s.stage;
  }

  lemma FreshKind(s: Sys, conn: Conn, w: string, written: seq<Entry>, k: Token, initial: bool)
    requires KindOk(s, k, initial) && forall j :: 0 <= j < |written| ==> written[j].token.None?
    ensures KindOk(Fresh(s, conn, w, written), k, initial)
  {
  }

  lemma WasteKind(s: Sys, w: string, conn: Conn, written: seq<Entry>, stop: bool, k: Token, initial: bool)
    requires KindOk(s, k, initial) && CanWaste(s, w, conn, written)
    ensures KindOk(Wastes(s, w, conn, written, stop), k, initial)
  {
    FreshKind(s, conn, w, written, k, initial);
    var s1 := Shut(Fresh(s, conn, w, written), conn);
    assert KindOk(s1, k, initial);
    AttemptKind(s1, w, stop);
    DeliveryKind(s1, Wastes(s, w, conn, written, stop), w, k, initial);
  }

  lemma BeginFreshKind(s: Sys, w: string, conn: Conn, written: seq<Entry>, k: Token, initial: bool)
    requires KindOk(s, k, initial) && CanBeginFresh(s, w, conn, written)
    ensures KindOk(BeginsFresh(s, w, conn, written), k, initial)
  {
    FreshKind(s, conn, w, written, k, initial);
    var s1 := Fresh(s, conn, w, written);
    PlacingKind(s1, w, conn);
    DeliveryKind(s1, Placing(s1, w, conn), w, k, initial);
    assert KindOk(Placing(s1, w, conn), k, initial) && KindOk(Shut(Placing(s1, w, conn), conn), k, initial);
  }

  lemma BeginKind(s: Sys, w: string, k: Token, initial: bool)
    requires KindOk(s, k, initial) && CanBegin(s, w)
    ensures KindOk(Begins(s, w), k, initial)
  {
    PlacingKind(s, w, s.lanes[w].conn.value);
    DeliveryKind(s, Begins(s, w), w, k, initial);
  }

  lemma AppendKind(written: seq<Entry>, e: Entry, k: Token, initial: bool)
    requires WrittenKind(written, k, initial) && (e.token == Some(k) ==> (e.body.Initialize? <==> initial))
    ensures WrittenKind(written + [e], k, initial)
  {
  }

  /** The write of a call is an initialize exactly if the delivery is one. */
  lemma IssueKind(s: Sys, w: string, posted: bool, tooLarge: bool, k: Token, initial: bool)
    requires KindOk(s, k, initial) && CanIssue(s, w, posted, tooLarge)
    ensures KindOk(Issues(s, w, posted, tooLarge), k, initial)
  {
    var s', sender := Issues(s, w, posted, tooLarge), s.lanes[w].sender;
    AppendKind(s.wire[sender.conn], Sent(sender.d, posted, tooLarge), k, initial);
    WritesOnlySender(s, w, DoIssue(posted, tooLarge));
    DeliveryKind(s, s', w, k, initial);
  }

  lemma MarkedKind(written: seq<Entry>, at: nat, e: Entry, k: Token, initial: bool)
    requires WrittenKind(written, k, initial) && at < |written|
    requires e.token == written[at].token && e.body == written[at].body
    ensures WrittenKind(written[at := e], k, initial)
  {
  }

  lemma ReturnKind(s: Sys, w: string, ok: bool, k: Token, initial: bool)
    requires KindOk(s, k, initial) && CanReturn(s, w, ok)
    ensures KindOk(Returns(s, w, ok), k, initial)
  {
    var conn, at := s.lanes[w].sender.conn, s.lanes[w].sender.at;
    MarkedKind(s.wire[conn], at, s.wire[conn][at].(returned := true), k, initial);
    WritesOnlySender(s, w, DoReturn(ok));
    DeliveryKind(s, Returns(s, w, ok), w, k, initial);
  }

  lemma EndKind(s: Sys, w: string, a: SenderStep, k: Token, initial: bool)
    requires KindOk(s, k, initial) && SenderEnabled(s, w, a) && SenderOk(s, w) && (a.DoEndTooLarge? || a.DoRetry?)
    ensures KindOk(SenderNext(s, w, a), k, initial)
  {
    var s' := SenderNext(s, w, a);
    WritesOnlySender(s, w, a);
    if a.DoRetry? {
      RetriesOwed(s, w);
    }
    assert s'.wire == s.wire && Unqueues(s, s');
    DeliveryKind(s, s', w, k, initial);
  }

  lemma AdoptKind(s: Sys, w: string, timed: bool, k: Token, initial: bool)
    requires KindOk(s, k, initial) && CanAdopt(s, w)
    ensures KindOk(Adopts(s, w, timed), k, initial)
  {
    assert Unqueues(s, Adopts(s, w, timed));
  }

  lemma FailKind(s: Sys, w: string, k: Token, initial: bool)
    requires KindOk(s, k, initial) && CanFail(s, w)
    ensures KindOk(Fails(s, w), k, initial)
  {
    if s.lanes[w].sender.d.Note? {
      FailNoteIs(s, w);
      FailNoteStage(s, w);
    } else {
      FailCallIs(s, w);
      FailCallStage(s, w);
    }
  }

  lemma FailNoteStage(s: Sys, w: string)
    requires CanFail(s, w) && s.lanes[w].sender.d.Note?
    ensures Fails(s, w).stage == s.stage
  {
  }

  lemma FailCallStage(s: Sys, w: string)
    requires CanFail(s, w) && s.lanes[w].sender.d.Call?
    ensures Fails(s, w).stage == s.stage[s.lanes[w].sender.d.token := Settled]
  {
  }

  lemma SenderKeepsKind(s: Sys, w: string, a: SenderStep, k: Token, initial: bool)
    requires KindOk(s, k, initial) && Senders(s) && SenderEnabled(s, w, a)
    ensures KindOk(SenderNext(s, w, a), k, initial)
  {
    match a
    case DoTakeCall(token) => TakesKind(s, w, token, k, initial);
    case DoTakeNote(first) =>
    case DoDropNote =>
    case DoAttemptFail(stop) =>
      AttemptKind(s, w, stop);
      DeliveryKind(s, AttemptFails(s, w, stop), w, k, initial);
    case DoWaste(conn, written, stop) => WasteKind(s, w, conn, written, stop, k, initial);
    case DoBegin => BeginKind(s, w, k, initial);
    case DoBeginFresh(conn, written) => BeginFreshKind(s, w, conn, written, k, initial);
    case DoIssue(posted, tooLarge) => IssueKind(s, w, posted, tooLarge, k, initial);
    case DoReturn(ok) => ReturnKind(s, w, ok, k, initial);
    case DoAdopt(timed) => AdoptKind(s, w, timed, k, initial);
    case DoFail => FailKind(s, w, k, initial);
    case _ =>
      assert SenderOk(s, w);
      EndKind(s, w, a, k, initial);
  }

  // ----- the connections and the advice

  lemma StillKind(s: Sys, s': Sys, k: Token, initial: bool)
    requires KindOk(s, k, initial) && s'.stage == s.stage && NoSender(s, s') && WireKind(s', k, initial)
    ensures KindOk(s', k, initial)
  {
  }

  lemma ReadKind(s: Sys, conn: Conn, at: nat, k: Token, initial: bool)
    requires KindOk(s, k, initial) && CanReadReply(s, conn, at)
    ensures KindOk(ReadsReply(s, conn, at), k, initial)
  {
    MarkedKind(s.wire[conn], at, s.wire[conn][at].(answered := true), k, initial);
    StillKind(s, ReadsReply(s, conn, at), k, initial);
  }

  lemma ConnStages(s: Sys, conn: Conn, a: ConnStep)
    requires ConnEnabled(s, conn, a) && !a.DoReadReply? && !a.DoReadFail? && !a.DoAnswer?
    ensures ConnNext(s, conn, a).stage == s.stage && ConnNext(s, conn, a).wire == s.wire
  {
  }

  lemma ReadFailStages(s: Sys, conn: Conn, closes: bool)
    requires CanFailRead(s, conn, closes)
    ensures ReadFails(s, conn, closes).stage == s.stage && ReadFails(s, conn, closes).wire == s.wire
  {
  }

  lemma AnswerKind(s: Sys, conn: Conn, posted: bool, k: Token, initial: bool)
    requires KindOk(s, k, initial) && CanReply(s, conn, posted)
    ensures KindOk(Replies(s, conn, posted), k, initial)
  {
    AppendKind(s.wire[conn], Plain(Reply, posted), k, initial);
    StillKind(s, Replies(s, conn, posted), k, initial);
  }

  lemma SameKind(s: Sys, s': Sys, k: Token, initial: bool)
    requires KindOk(s, k, initial) && s'.stage == s.stage && s'.wire == s.wire && s'.lanes == s.lanes
    ensures KindOk(s', k, initial)
  {
  }

  lemma ConnKind(s: Sys, conn: Conn, a: ConnStep, k: Token, initial: bool)
    requires KindOk(s, k, initial) && ConnEnabled(s, conn, a)
    ensures KindOk(ConnNext(s, conn, a), k, initial)
  {
    if a.DoReadReply? {
      ReadKind(s, conn, a.at, k, initial);
    } else if a.DoAnswer? {
      AnswerKind(s, conn, a.posted, k, initial);
    } else {
      ConnNoLane(s, conn, a);
      if a.DoReadFail? {
        ReadFailStages(s, conn, a.closes);
      } else {
        ConnStages(s, conn, a);
      }
      SameKind(s, ConnNext(s, conn, a), k, initial);
    }
  }

  lemma ControlKind(s: Sys, w: string, a: ControlStep, k: Token, initial: bool)
    requires KindOk(s, k, initial) && ControlEnabled(s, w, a)
    ensures KindOk(ControlNext(s, w, a), k, initial)
  {
    if a.DoAdvise? {
      var control := s.lanes[w].worker.control;
      AppendKind(s.wire[control.conn], Plain(Cancel(control.token, control.id), a.posted), k, initial);
    }
  }

  // ----- every run

  lemma NextKind(s: Sys, a: Action, k: Token, initial: bool)
    requires KindOk(s, k, initial) && Enabled(s, a) && (s.cleared || (k < s.t.nextToken && Senders(s)))
    ensures KindOk(Next(s, a), k, initial)
  {
    match a
    case OfSession(step) => SessionKind(s, step, k, initial);
    case OfSender(w, step) => SenderKeepsKind(s, w, step, k, initial);
    case OfConn(conn, step) => ConnKind(s, conn, step, k, initial);
    case OfControl(w, step) => ControlKind(s, w, step, k, initial);
  }

  lemma TokenIsOld(s: Sys, limits: Limits, k: Token)
    requires Safe(s, limits) && !s.cleared && k in s.status
    ensures k < s.t.nextToken && Senders(s)
  {
    assert TokenOk(s, k);
  }

  lemma {:induction false} RunKind(s: Sys, actions: seq<Action>, limits: Limits, k: Token, initial: bool)
    requires KindOk(s, k, initial) && Safe(s, limits) && k in s.status && Run(s, actions).Some?
    ensures KindOk(Run(s, actions).value, k, initial)
    decreases |actions|
  {
    if actions != [] {
      if !s.cleared {
        TokenIsOld(s, limits, k);
      }
      NextKind(s, actions[0], k, initial);
      StepStays(s, actions[0], limits, k);
      RunKind(Next(s, actions[0]), actions[1..], limits, k, initial);
    }
  }

  /** A new call is in the queue of the routing, and nowhere else. */
  lemma AdmittedKind(s: Sys, id: Id, initial: bool)
    requires Inv(s) && Admit(s.t, id).1.Granted?
    ensures KindOk(Admitting(s, id, initial), s.t.nextToken, initial)
    ensures s.t.nextToken in Admitting(s, id, initial).status
  {
    var k, s' := s.t.nextToken, Admitting(s, id, initial);
    TokenIsNew(s);
    AdmitWires(s, id, initial);
    AdmitNoLane(s, id, initial);
    forall w | w in s.lanes ensures !Carries(s.lanes[w].sender, k) {
      assert SenderOk(s, w);
    }
    forall conn | conn in s.wire ensures WrittenKind(s.wire[conn], k, initial) {
      forall j | 0 <= j < |s.wire[conn]| ensures s.wire[conn][j].token != Some(k) {
        assert EntryOk(s, conn, s.wire[conn][j]);
      }
    }
  }

  /** In every run: whatever is ever written of an admission is an initialize exactly
      if the client's request was one. */
  lemma SentAsAsked(limits: Limits, s: Sys, id: Id, initial: bool, actions: seq<Action>, conn: Conn, j: nat)
    requires Reachable(limits, s) && !s.cleared && id !in s.t.awaiting && |s.t.awaiting| < limits.session
    requires Run(Next(s, OfSession(DoAdmit(id, initial))), actions).Some?
    ensures var s' := Run(Next(s, OfSession(DoAdmit(id, initial))), actions).value;
      (conn in s'.wire && j < |s'.wire[conn]| && s'.wire[conn][j].token == Some(s.t.nextToken)) ==>
        (s'.wire[conn][j].body.Initialize? <==> initial)
  {
    ReachableIsSafe(limits, s);
    var s1 := Next(s, OfSession(DoAdmit(id, initial)));
    AdmittedKind(s, id, initial);
    NextIsSafe(s, OfSession(DoAdmit(id, initial)), limits);
    RunKind(s1, actions, limits, s.t.nextToken, initial);
  }
}

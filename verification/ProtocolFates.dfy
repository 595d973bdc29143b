/** What a step does to an admission, for every step and every admission: who is
    answered by whom, and nobody else. */
module ProtocolFates {
  import opened Options
  import opened Tracker
  import opened Protocol
  import opened ProtocolInvariant
  import opened ProtocolFaces
  import ProtocolAnswers
  import opened ProtocolCalls
  import opened ProtocolTheorems

  /** The admission's call is placed on the connection. */
  predicate PlacedOn(s: Sys, conn: Conn, token: Token) {
    token in s.ids && s.ids[token] in s.t.awaiting && s.t.awaiting[s.ids[token]].conn == Some(conn)
  }

  /** The write is the call's own. */
  predicate Answers(s: Sys, conn: Conn, at: nat, token: Token) {
    conn in s.wire && at < |s.wire[conn]| && s.wire[conn][at].token == Some(token)
  }

  /** The sender is in the middle of the call's delivery. */
  predicate CarriedAt(s: Sys, w: string, token: Token) {
    w in s.lanes && Carries(s.lanes[w].sender, token)
  }

  /** For what cause, if any, a step takes an admission that is owed: a timer its
      own, a refused delivery its own, a sender the one it carries, a cancellation
      the one that holds the id, a reply the one whose write it answers, and the
      death of a connection those placed on it. */
  function CauseFor(s: Sys, a: Action, token: Token): Option<Cause> {
    match a
    case OfSession(step) =>
      (match step
       case DoRouteFail(refused) => if refused == token then Some(Undelivered) else None
       case DoExpire(timed, _) => if timed == token then Some(Expired) else None
       case DoCancel(id, _) => if token in s.ids && s.ids[token] == id then Some(Cancelled) else None
       case _ => None)
    case OfSender(w, step) => if step.DoFail? && CarriedAt(s, w, token) then Some(Undelivered) else None
    case OfConn(conn, step) =>
      (match step
       case DoReadReply(at) =>
         if Answers(s, conn, at, token) && PlacedOn(s, conn, token) then Some(Answer(conn, at)) else None
       case DoReaderEnd => if PlacedOn(s, conn, token) then Some(Died(conn)) else None
       case DoRootsEnd => if PlacedOn(s, conn, token) then Some(Died(conn)) else None
       case _ => None)
    case OfControl(_, _) => None
  }

  /** What becomes of an admission. */
  function StatusAfter(s: Sys, a: Action, token: Token): Status
    requires token in s.status
  {
    var before := s.status[token];
    if before.Owing? then
      if a == OfSession(DoClear) then Lost
      else match CauseFor(s, a, token)
        case Some(cause) => Taken(cause)
        case None => Owing
    else if before.Taken? && a.OfSession? && a.session.DoForward? && a.session.token == token then
      if a.session.fate.Delivered? then Done(before.cause) else Lost
    else before
  }

  /** The table and the tokens name the same admissions. */
  ghost predicate Tokens(s: Sys) {
    && (forall k :: k in s.status ==> k in s.ids && (s.status[k].Owing? <==> Outstanding(s, k)))
    && (forall id :: id in s.t.awaiting ==>
          && s.t.awaiting[id].token in s.ids && s.ids[s.t.awaiting[id].token] == id
          && s.t.awaiting[id].token in s.status)
  }

  lemma TokensAre(s: Sys)
    requires Admissions(s) && Books(s)
    ensures Tokens(s)
  {
    forall k | k in s.status ensures k in s.ids && (s.status[k].Owing? <==> Outstanding(s, k)) {
      assert TokenOk(s, k);
    }
    forall id | id in s.t.awaiting
      ensures s.t.awaiting[id].token in s.ids && s.ids[s.t.awaiting[id].token] == id
      ensures s.t.awaiting[id].token in s.status
    {
      assert OwnerOk(s, id) && TokenOk(s, s.t.awaiting[id].token);
    }
  }

  /** A claim takes whoever holds the id, if it is the one asked for. */
  lemma ClaimFate(s: Sys, id: Id, conn: Option<Conn>, token: Option<Token>, cause: Cause, k: Token)
    requires Tokens(s) && k in s.status
    ensures k in Claim(s, id, conn, token, cause).status
    ensures Claim(s, id, conn, token, cause).status[k] ==
      if s.status[k].Owing? && s.ids[k] == id && (token.Some? ==> token.value == k)
         && (conn.Some? ==> PlacedOn(s, conn.value, k))
      then Taken(cause) else s.status[k]
  {
  }

  lemma CancelFate(s: Sys, id: Id, kept: bool, k: Token)
    requires Tokens(s) && k in s.status
    ensures k in Cancels(s, id, kept).status
    ensures Cancels(s, id, kept).status[k] ==
      if s.status[k].Owing? && s.ids[k] == id then Taken(Cancelled) else s.status[k]
  {
    if id in s.t.awaiting {
      ClaimFate(s, id, None, None, Cancelled, k);
      AdviseQuietly(Claim(s, id, None, None, Cancelled), id, s.t.awaiting[id], kept);
    }
  }

  /** A timer that fires late, when its id is somebody else's, takes nobody. */
  lemma ExpireFate(s: Sys, timed: Token, kept: bool, k: Token)
    requires Tokens(s) && k in s.status && timed in s.timers && timed in s.ids
    ensures k in Expires(s, timed, kept).status
    ensures Expires(s, timed, kept).status[k] ==
      if s.status[k].Owing? && k == timed then Taken(Expired) else s.status[k]
  {
    var id, s1 := s.ids[timed], s.(timers := s.timers - {timed});
    if Owns(s.t, id, Some(timed)) {
      ClaimFate(s1, id, None, Some(timed), Expired, k);
      AdviseQuietly(Claim(s1, id, None, Some(timed), Expired), id, s.t.awaiting[id], kept);
    }
  }

  lemma ForwardFate(s: Sys, sent: Token, fate: Fate, k: Token)
    requires CanForward(s, sent, fate) && k in s.status
    ensures k in Forwards(s, sent, fate).status
    ensures Forwards(s, sent, fate).status[k] == StatusAfter(s, OfSession(DoForward(sent, fate)), k)
  {
  }

  lemma SessionFate(s: Sys, a: SessionStep, k: Token)
    requires Tokens(s) && k in s.status && SessionEnabled(s, a) && !a.DoForward?
    requires !a.DoAdmit? || s.t.nextToken !in s.status
    ensures k in SessionNext(s, a).status && SessionNext(s, a).status[k] == StatusAfter(s, OfSession(a), k)
  {
    match a
    case DoAdmit(id, initial) => AdmitFace(s, id, initial);
    case DoBind(token, w) => BindQuietly(s, token, w);
    case DoRouteFail(token) => ClaimFate(s, s.ids[token], None, Some(token), Undelivered, k);
    case DoSkip(token) =>
    case DoCancel(id, kept) => CancelFate(s, id, kept, k);
    case DoExpire(token, kept) => ExpireFate(s, token, kept, k);
    case DoEnd =>
    case DoClear =>
  }

  lemma FailFate(s: Sys, w: string, k: Token)
    requires Tokens(s) && Senders(s) && k in s.status && CanFail(s, w)
    ensures k in Fails(s, w).status
    ensures Fails(s, w).status[k] ==
      if s.status[k].Owing? && CarriedAt(s, w, k) then Taken(Undelivered) else s.status[k]
  {
    FailFace(s, w);
    assert SenderOk(s, w);
    var d := s.lanes[w].sender.d;
    if d.Call? {
      ClaimFate(s, d.id, None, Some(d.token), Undelivered, k);
    }
  }

  lemma SenderIsStill(s: Sys, w: string, a: SenderStep)
    requires SenderEnabled(s, w, a) && !a.DoFail?
    ensures SenderNext(s, w, a).status == s.status
  {
    match a
    case DoTakeCall(token) => TakesCallQuietly(s, w, token);
    case DoTakeNote(initial) => TakesNoteQuietly(s, w, initial);
    case DoDropNote =>
    case DoAttemptFail(stop) => AttemptFailsQuietly(s, w, stop);
    case DoWaste(conn, written, stop) => WastesQuietly(s, w, conn, written, stop);
    case DoBegin => PlacingQuietly(s, w, s.lanes[w].conn.value);
    case DoBeginFresh(conn, written) => BeginsFreshQuietly(s, w, conn, written);
    case DoIssue(posted, tooLarge) => IssuesQuietly(s, w, posted, tooLarge);
    case DoReturn(ok) => ReturnsQuietly(s, w, ok);
    case DoEndTooLarge => EndsTooLargeQuietly(s, w);
    case DoAdopt(timed) => AdoptsQuietly(s, w, timed);
    case DoRetry => RetryingQuietly(s, w);
  }

  /** What reading a reply does, as the reply's own write has it. */
  ghost predicate ReplyTakes(s: Sys, conn: Conn, at: nat)
    requires CanReadReply(s, conn, at)
  {
    && s.wire[conn][at].token.Some? && s.wire[conn][at].token.value in s.ids
    && var token := s.wire[conn][at].token.value;
       ReadsReply(s, conn, at).status ==
         if Outstanding(s, token) && s.t.awaiting[s.ids[token]].conn == Some(conn)
         then s.status[token := Taken(Answer(conn, at))] else s.status
  }

  lemma RepliesTake(s: Sys, conn: Conn, at: nat)
    requires Inv(s) && CanReadReply(s, conn, at)
    ensures ReplyTakes(s, conn, at)
  {
    ProtocolAnswers.ReplyAttribution(s, conn, at);
  }

  lemma ReplyFate(s: Sys, conn: Conn, at: nat, k: Token)
    requires Tokens(s) && k in s.status && CanReadReply(s, conn, at) && ReplyTakes(s, conn, at)
    ensures k in ReadsReply(s, conn, at).status
    ensures ReadsReply(s, conn, at).status[k] ==
      if s.status[k].Owing? && Answers(s, conn, at, k) && PlacedOn(s, conn, k)
      then Taken(Answer(conn, at)) else s.status[k]
  {
  }

  lemma ReadFate(s: Sys, conn: Conn, at: nat, k: Token)
    requires Tokens(s) && k in s.status && ConnEnabled(s, conn, DoReadReply(at)) && ReplyTakes(s, conn, at)
    ensures var s' := ConnNext(s, conn, DoReadReply(at));
      k in s'.status && s'.status[k] == StatusAfter(s, OfConn(conn, DoReadReply(at)), k)
  {
    ReplyFate(s, conn, at, k);
  }

  lemma DeathFate(s: Sys, conn: Conn, k: Token)
    requires Tokens(s) && k in s.status
    ensures k in Strand(s, conn).status
    ensures Strand(s, conn).status[k] ==
      if s.status[k].Owing? && PlacedOn(s, conn, k) then Taken(Died(conn)) else s.status[k]
  {
  }

  lemma ConnIsStill(s: Sys, conn: Conn, a: ConnStep)
    requires ConnEnabled(s, conn, a) && !a.DoReadReply? && !a.DoReaderEnd? && !a.DoRootsEnd?
    ensures ConnNext(s, conn, a).status == s.status
  {
    match a
    case DoReadFail(closes) => ReadFailsQuietly(s, conn, closes);
    case _ =>
  }

  lemma ControlIsStill(s: Sys, w: string, a: ControlStep)
    requires ControlEnabled(s, w, a)
    ensures ControlNext(s, w, a).status == s.status
  {
  }

  lemma EndFate(s: Sys, conn: Conn, a: ConnStep, k: Token)
    requires Tokens(s) && k in s.status && ConnEnabled(s, conn, a) && (a.DoReaderEnd? || a.DoRootsEnd?)
    ensures k in ConnNext(s, conn, a).status && ConnNext(s, conn, a).status[k] == StatusAfter(s, OfConn(conn, a), k)
  {
    DeathFate(s, conn, k);
    assert ConnNext(s, conn, a).status == Strand(s, conn).status;
  }

  lemma ConnFate(s: Sys, conn: Conn, a: ConnStep, k: Token)
    requires Tokens(s) && k in s.status && ConnEnabled(s, conn, a) && !a.DoReadReply?
    ensures k in ConnNext(s, conn, a).status && ConnNext(s, conn, a).status[k] == StatusAfter(s, OfConn(conn, a), k)
  {
    if a.DoReaderEnd? || a.DoRootsEnd? {
      EndFate(s, conn, a, k);
    } else {
      ConnIsStill(s, conn, a);
    }
  }

  lemma SenderFate(s: Sys, w: string, a: SenderStep, k: Token)
    requires Senders(s) && Tokens(s) && k in s.status && SenderEnabled(s, w, a)
    ensures k in SenderNext(s, w, a).status && SenderNext(s, w, a).status[k] == StatusAfter(s, OfSender(w, a), k)
  {
    if a.DoFail? {
      FailFate(s, w, k);
    } else {
      SenderIsStill(s, w, a);
    }
  }

  lemma SessionStepFate(s: Sys, a: SessionStep, k: Token)
    requires Tokens(s) && Admissions(s) && SessionEnabled(s, a) && k in s.status
    ensures k in SessionNext(s, a).status && SessionNext(s, a).status[k] == StatusAfter(s, OfSession(a), k)
  {
    if a.DoForward? {
      ForwardFate(s, a.token, a.fate, k);
    } else {
      TokenIsNew(s);
      SessionFate(s, a, k);
    }
  }

  lemma ConnStepFate(s: Sys, conn: Conn, a: ConnStep, k: Token)
    requires Tokens(s) && Inv(s) && ConnEnabled(s, conn, a) && k in s.status
    ensures k in ConnNext(s, conn, a).status && ConnNext(s, conn, a).status[k] == StatusAfter(s, OfConn(conn, a), k)
  {
    if a.DoReadReply? {
      RepliesTake(s, conn, a.at);
      ReadFate(s, conn, a.at, k);
    } else {
      ConnFate(s, conn, a, k);
    }
  }

  lemma NextFate(s: Sys, a: Action, k: Token)
    requires Inv(s) && Tokens(s) && Enabled(s, a) && k in s.status
    ensures k in Next(s, a).status && Next(s, a).status[k] == StatusAfter(s, a, k)
  {
    match a
    case OfSession(step) => SessionStepFate(s, step, k);
    case OfSender(w, step) => SenderFate(s, w, step, k);
    case OfConn(conn, step) => ConnStepFate(s, conn, step, k);
    case OfControl(w, step) => ControlIsStill(s, w, step);
  }

  lemma ClearedTokens(limits: Limits, s: Sys, token: Token)
    requires Safe(s, limits) && s.cleared && token in s.status
    ensures !s.status[token].Owing? && !Outstanding(s, token)
  {
  }

  lemma LiveTokens(limits: Limits, s: Sys)
    requires Safe(s, limits) && !s.cleared
    ensures Inv(s) && Tokens(s)
  {
    TokensAre(s);
  }

  /** In every reachable state, each step does to each admission exactly this. In
      particular an admission is answered by its own timer or delivery, by the
      sender that carries it, by a cancellation of the id it holds, by the reply
      to its own write or by the death of the connection it is placed on, and
      each of these does answer it. */
  lemma FatesAre(limits: Limits, s: Sys, a: Action, token: Token)
    requires Reachable(limits, s) && Enabled(s, a) && token in s.status
    ensures token in Next(s, a).status && Next(s, a).status[token] == StatusAfter(s, a, token)
    ensures s.status[token].Owing? <==> Outstanding(s, token)
  {
    ReachableIsSafe(limits, s);
    if s.cleared {
      ClearedTokens(limits, s, token);
      ForwardFate(s, a.session.token, a.session.fate, token);
    } else {
      LiveTokens(limits, s);
      NextFate(s, a, token);
    }
  }

  /** Who may take an admission, in so many words. */
  predicate MayAnswer(s: Sys, a: Action, token: Token) {
    || a == OfSession(DoRouteFail(token))
    || (a.OfSession? && a.session.DoExpire? && a.session.token == token)
    || (a.OfSession? && a.session.DoCancel? && token in s.ids && a.session.id == s.ids[token])
    || (a.OfSender? && a.sender.DoFail? && CarriedAt(s, a.w, token))
    || (a.OfConn? && (a.reader.DoReaderEnd? || a.reader.DoRootsEnd?) && PlacedOn(s, a.conn, token))
    || (a.OfConn? && a.reader.DoReadReply? && Answers(s, a.conn, a.reader.at, token) && PlacedOn(s, a.conn, token))
  }

  lemma CausesAre(s: Sys, a: Action, token: Token)
    ensures CauseFor(s, a, token).Some? <==> MayAnswer(s, a, token)
  {
  }

  /** An admission that is owed is taken by a step exactly when that may answer it. */
  lemma AnsweredBy(limits: Limits, s: Sys, a: Action, token: Token)
    requires Reachable(limits, s) && Enabled(s, a) && token in s.status
    ensures token in Next(s, a).status
    ensures s.status[token].Owing? && Next(s, a).status[token].Taken? <==>
      Outstanding(s, token) && MayAnswer(s, a, token)
  {
    FatesAre(limits, s, a, token);
    CausesAre(s, a, token);
  }

  /** A timer that fires takes the admission it was armed for, if that is still owed,
      and nobody else, whoever holds its id by now. */
  lemma TimerTakesItsOwn(limits: Limits, s: Sys, timed: Token, kept: bool, token: Token)
    requires Reachable(limits, s) && Enabled(s, OfSession(DoExpire(timed, kept))) && token in s.status
    ensures var s' := Next(s, OfSession(DoExpire(timed, kept)));
      token in s'.status &&
      s'.status[token] == if token == timed && Outstanding(s, timed) then Taken(Expired) else s.status[token]
  {
    FatesAre(limits, s, OfSession(DoExpire(timed, kept)), token);
  }
}

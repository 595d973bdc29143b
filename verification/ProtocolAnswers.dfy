/** Exactly one terminal answer: what becomes of an admission, in every run. */
module ProtocolAnswers {
  import opened Options
  import opened Tracker
  import opened Protocol
  import opened ProtocolInvariant
  import opened ProtocolFaces
  import opened ProtocolCalls
  import opened ProtocolDeaths

  /** An admission only moves on: owed, then taken once, then answered for that
      cause or dropped. */
  predicate Advances(before: Status, after: Status) {
    || after == before
    || (before.Owing? && !after.Done?)
    || (before.Taken? && after == Done(before.cause))
    || (before.Taken? && after.Lost?)
  }

  predicate Distinct(out: seq<Token>) {
    forall j, k :: 0 <= j < k < |out| ==> out[j] != out[k]
  }

  /** The client has been sent exactly one answer for each admission that is
      done, and none for any other; an admission is dropped only with the
      session. */
  ghost predicate Answers(s: Sys) {
    && Distinct(s.out)
    && (forall token :: token in s.out <==> token in s.status && s.status[token].Done?)
    && (forall token :: token in s.status && s.status[token].Lost? ==> s.over)
  }

  /** Admissions taken at most. */
  ghost predicate Took(before: map<Token, Status>, after: map<Token, Status>) {
    && (forall k :: k in before ==> k in after && (after[k] == before[k] || (before[k].Owing? && after[k].Taken?)))
    && (forall k :: k in after && k !in before ==> after[k].Owing?)
  }

  /** Nothing answered or dropped. */
  ghost predicate Quiet(s: Sys, s': Sys) {
    s'.out == s.out && (s.over ==> s'.over) && s'.cleared == s.cleared && Took(s.status, s'.status)
  }

  ghost predicate Progress(s: Sys, s': Sys) {
    && (forall k :: k in s.status ==> k in s'.status && Advances(s.status[k], s'.status[k]))
    && s.out <= s'.out && (s.over ==> s'.over)
  }

  lemma QuietKeepsAnswers(s: Sys, s': Sys)
    requires Answers(s) && Quiet(s, s')
    ensures Answers(s') && Progress(s, s')
  {
  }

  // ----- the steps that take an admission

  /** Whatever the table owes is owing. */
  ghost predicate OwingInTable(t: State, status: map<Token, Status>) {
    forall id :: id in t.awaiting ==> t.awaiting[id].token in status && status[t.awaiting[id].token].Owing?
  }

  lemma TableIsOwing(s: Sys)
    requires Admissions(s) && Books(s)
    ensures OwingInTable(s.t, s.status)
  {
    forall id | id in s.t.awaiting
      ensures s.t.awaiting[id].token in s.status && s.status[s.t.awaiting[id].token].Owing?
    {
      assert OwnerOk(s, id) && TokenOk(s, s.t.awaiting[id].token);
    }
  }

  lemma TakingTakes(s: Sys, id: Id, conn: Option<Conn>, token: Option<Token>, cause: Cause)
    requires OwingInTable(s.t, s.status)
    ensures Took(s.status, Taking(s, id, conn, token, cause))
  {
  }

  lemma AddingTakes(status: map<Token, Status>, token: Token)
    requires token !in status
    ensures Took(status, status[token := Owing]) && Took(status, status)
  {
  }

  lemma AdmitTakes(s: Sys, id: Id, initial: bool)
    requires s.t.nextToken !in s.status
    ensures Quiet(s, Admitting(s, id, initial))
  {
    AdmitFace(s, id, initial);
    AddingTakes(s.status, s.t.nextToken);
  }

  lemma StrandTakes(s: Sys, conn: Conn)
    requires Admissions(s)
    ensures Quiet(s, Strand(s, conn))
  {
    forall k | k in s.status && Outstanding(s, k) ensures s.status[k].Owing? {
      assert TokenOk(s, k);
    }
  }

  lemma ClaimTakes(s: Sys, id: Id, conn: Option<Conn>, token: Option<Token>, cause: Cause)
    requires OwingInTable(s.t, s.status)
    ensures Quiet(s, Claim(s, id, conn, token, cause))
  {
    TakingTakes(s, id, conn, token, cause);
  }

  lemma CancelTakes(s: Sys, id: Id, kept: bool)
    requires OwingInTable(s.t, s.status)
    ensures Quiet(s, Cancels(s, id, kept))
  {
    if id in s.t.awaiting {
      ClaimTakes(s, id, None, None, Cancelled);
      AdviseQuietly(Claim(s, id, None, None, Cancelled), id, s.t.awaiting[id], kept);
    }
  }

  lemma ExpireTakes(s: Sys, token: Token, kept: bool)
    requires token in s.timers && token in s.ids && OwingInTable(s.t, s.status)
    ensures Quiet(s, Expires(s, token, kept))
  {
    var id, s1 := s.ids[token], s.(timers := s.timers - {token});
    ClaimTakes(s1, id, None, Some(token), Expired);
    if Owns(s.t, id, Some(token)) {
      AdviseQuietly(Claim(s1, id, None, Some(token), Expired), id, s.t.awaiting[id], kept);
    }
  }

  lemma SessionIsQuiet(s: Sys, a: SessionStep)
    requires OwingInTable(s.t, s.status) && s.t.nextToken !in s.status
    requires SessionEnabled(s, a) && !a.DoClear? && !a.DoForward?
    ensures Quiet(s, SessionNext(s, a))
  {
    match a
    case DoAdmit(id, initial) => AdmitTakes(s, id, initial);
    case DoBind(token, w) => BindQuietly(s, token, w);
    case DoRouteFail(token) => ClaimTakes(s, s.ids[token], None, Some(token), Undelivered);
    case DoSkip(token) =>
    case DoCancel(id, kept) => CancelTakes(s, id, kept);
    case DoExpire(token, kept) => ExpireTakes(s, token, kept);
    case DoEnd =>
  }

  lemma FailTakes(s: Sys, w: string)
    requires CanFail(s, w) && OwingInTable(s.t, s.status)
    ensures Quiet(s, Fails(s, w))
  {
    FailFace(s, w);
    var d := s.lanes[w].sender.d;
    if d.Call? {
      ClaimTakes(s, d.id, None, Some(d.token), Undelivered);
    }
  }

  lemma SenderIsQuiet(s: Sys, w: string, a: SenderStep)
    requires OwingInTable(s.t, s.status) && SenderEnabled(s, w, a)
    ensures Quiet(s, SenderNext(s, w, a))
  {
    match a
    case DoTakeCall(token) => TakesCallQuietly(s, w, token);
    case DoTakeNote(initial) => TakesNoteQuietly(s, w, initial);
    case DoDropNote =>
    case DoAttemptFail(stop) => AttemptFailsQuietly(s, w, stop);
    case DoWaste(conn, written, stop) => WastesQuietly(s, w, conn, written, stop);
    case DoBegin => PlacingQuietly(s, w, s.lanes[w].conn.value);
    case DoBeginFresh(conn, written) => BeginsFreshQuietly(s, w, conn, written);
    case DoIssue(posted, tooLarge) => IssuesQuietly(s, w, posted, tooLarge);
    case DoReturn(ok) => ReturnsQuietly(s, w, ok);
    case DoEndTooLarge => EndsTooLargeQuietly(s, w);
    case DoAdopt(timed) => AdoptsQuietly(s, w, timed);
    case DoRetry => RetryingQuietly(s, w);
    case DoFail => FailTakes(s, w);
  }

  lemma ReadTakes(s: Sys, conn: Conn, at: nat)
    requires CanReadReply(s, conn, at) && OwingInTable(s.t, s.status)
    ensures Quiet(s, ReadsReply(s, conn, at))
  {
    var written := s.wire[conn];
    ClaimTakes(s.(wire := s.wire[conn := written[at := written[at].(answered := true)]]),
               written[at].id.value, Some(conn), None, Answer(conn, at));
  }

  lemma DeathTakes(s: Sys, conn: Conn, a: ConnStep)
    requires Admissions(s) && ConnEnabled(s, conn, a) && (a.DoReaderEnd? || a.DoRootsEnd?)
    ensures Quiet(s, ConnNext(s, conn, a))
  {
    StrandTakes(s, conn);
  }

  lemma ConnIsQuiet(s: Sys, conn: Conn, a: ConnStep)
    requires Admissions(s) && OwingInTable(s.t, s.status) && ConnEnabled(s, conn, a)
    ensures Quiet(s, ConnNext(s, conn, a))
  {
    match a
    case DoReadReply(at) => ReadTakes(s, conn, at);
    case DoReadFail(closes) => ReadFailsQuietly(s, conn, closes);
    case DoAnswer(posted) =>
    case DoReaderEnd => DeathTakes(s, conn, a);
    case DoReaderQuit =>
    case DoRootsFail =>
    case DoRootsClose =>
    case DoRootsEnd => DeathTakes(s, conn, a);
  }

  lemma ControlIsQuiet(s: Sys, w: string, a: ControlStep)
    requires ControlEnabled(s, w, a)
    ensures Quiet(s, ControlNext(s, w, a))
  {
  }

  // ----- the steps that end one

  lemma SentOnce(out: seq<Token>, token: Token)
    requires Distinct(out) && token !in out
    ensures Distinct(out + [token])
    ensures forall k :: k in out + [token] <==> k in out || k == token
  {
  }

  lemma ForwardKeepsAnswers(s: Sys, token: Token, fate: Fate)
    requires CanForward(s, token, fate) && Answers(s)
    ensures Answers(Forwards(s, token, fate)) && Progress(s, Forwards(s, token, fate))
    ensures Forwards(s, token, fate).cleared == s.cleared
  {
    SentOnce(s.out, token);
  }

  lemma ClearKeepsAnswers(s: Sys)
    requires s.over && Answers(s)
    ensures Answers(Clears(s)) && Progress(s, Clears(s))
  {
  }

  lemma NextKeepsAnswers(s: Sys, a: Action)
    requires Enabled(s, a) && Answers(s) && (s.cleared || (Admissions(s) && Books(s)))
    ensures Answers(Next(s, a)) && Progress(s, Next(s, a))
    ensures a != OfSession(DoClear) ==> Next(s, a).cleared == s.cleared
  {
    if !s.cleared {
      TableIsOwing(s);
      TokenIsNew(s);
    }
    match a
    case OfSession(step) =>
      match step {
        case DoForward(token, fate) => ForwardKeepsAnswers(s, token, fate);
        case DoClear => ClearKeepsAnswers(s);
        case _ =>
          SessionIsQuiet(s, step);
          QuietKeepsAnswers(s, SessionNext(s, step));
      }
    case OfSender(w, step) =>
      SenderIsQuiet(s, w, step);
      QuietKeepsAnswers(s, SenderNext(s, w, step));
    case OfConn(conn, step) =>
      ConnIsQuiet(s, conn, step);
      QuietKeepsAnswers(s, ConnNext(s, conn, step));
    case OfControl(w, step) =>
      ControlIsQuiet(s, w, step);
      QuietKeepsAnswers(s, ControlNext(s, w, step));
  }

  // ----- a reply goes to the call it answers

  /** The write a reply answers still holds the connection's only credit under
      its id, and an admission the connection owns under that id is that write's. */
  lemma ReplyNames(s: Sys, conn: Conn, at: nat)
    requires Wires(s) && Entries(s) && Books(s) && CanReadReply(s, conn, at)
    ensures s.wire[conn][at].token.Some? && OwnReply(s, conn, at)
    ensures var token := s.wire[conn][at].token.value;
      Claims(s.t, s.ids[token], Some(conn), None) <==>
      Outstanding(s, token) && s.t.awaiting[s.ids[token]].conn == Some(conn)
  {
    assert ConnOk(s, conn);
    ReadsTracked(s, conn, at);
    ReadsOwn(s, conn, at);
  }

  /** A reply read on a connection takes the admission whose own write it
      answers, if that is still owned by the connection, and touches no other:
      whatever ids were reused, retried or cancelled in between. */
  lemma ReplyAttribution(s: Sys, conn: Conn, at: nat)
    requires Inv(s) && CanReadReply(s, conn, at)
    ensures s.wire[conn][at].token.Some? && s.wire[conn][at].token.value in s.ids
    ensures var token, s' := s.wire[conn][at].token.value, ReadsReply(s, conn, at);
      s'.status == if Outstanding(s, token) && s.t.awaiting[s.ids[token]].conn == Some(conn)
                   then s.status[token := Taken(Answer(conn, at))] else s.status
    ensures Key(conn, s.ids[s.wire[conn][at].token.value]) !in ReadsReply(s, conn, at).t.operations
  {
    ReplyNames(s, conn, at);
    ReplyStatus(s, conn, at);
    ReplyEnds(s, conn, at);
  }

  /** Under one connection and id there is never a second write that may still
      be answered. */
  lemma OneUnanswered(s: Sys, conn: Conn, j: nat, k: nat)
    requires Inv(s) && conn in s.wire && j < |s.wire[conn]| && k < |s.wire[conn]|
    requires var e, f := s.wire[conn][j], s.wire[conn][k];
      && e.token.Some? && f.token.Some? && e.id == f.id
      && e.posted && !e.answered && f.posted && !f.answered
    ensures j == k
  {
    assert EntryOk(s, conn, s.wire[conn][j]) && EntryOk(s, conn, s.wire[conn][k]);
    assert ConnOk(s, conn);
  }
}

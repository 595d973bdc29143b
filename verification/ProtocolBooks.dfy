/** The accounting, in every run: what each step does to the tables. */
module ProtocolBooks {
  import opened Options
  import opened Tracker
  import opened Protocol
  import opened ProtocolInvariant

  lemma BindTables(s: Sys, token: Token, w: string)
    requires CanBind(s, token, w)
    ensures Binding(s, token, w).t == Bind(s.t, s.ids[token], token, w, s.lanes.Keys).0
  {
  }

  /** Routing binds a worktree once: an admission still in routing has none. */
  lemma BindKeepsBooks(s: Sys, token: Token, w: string)
    requires CanBind(s, token, w) && Stages(s) && Balanced(s.t)
    ensures Within(s.t, Binding(s, token, w).t)
  {
    BindTables(s, token, w);
    assert StageOk(s, token);
    if Owns(s.t, s.ids[token], Some(token)) {
      BindKeepsBalance(s.t, s.ids[token], token, w, s.lanes.Keys);
    }
  }

  lemma AdviseTables(s: Sys, id: Id, owner: Owed, kept: bool)
    ensures Advise(s, id, owner, kept).t == s.t
  {
  }

  lemma CancelKeepsBooks(s: Sys, id: Id, kept: bool)
    requires Balanced(s.t)
    ensures Within(s.t, Cancels(s, id, kept).t)
  {
    if id in s.t.awaiting {
      FinishKeepsBalance(s.t, id, None, None);
      AdviseTables(Claim(s, id, None, None, Cancelled), id, s.t.awaiting[id], kept);
    }
  }

  lemma ExpireKeepsBooks(s: Sys, token: Token, kept: bool)
    requires token in s.timers && token in s.ids && Balanced(s.t)
    ensures Within(s.t, Expires(s, token, kept).t)
  {
    var id, s1 := s.ids[token], s.(timers := s.timers - {token});
    FinishKeepsBalance(s.t, id, None, Some(token));
    if Owns(s.t, id, Some(token)) {
      AdviseTables(Claim(s1, id, None, Some(token), Expired), id, s.t.awaiting[id], kept);
    }
  }

  lemma AdmitTables(s: Sys, id: Id, initial: bool)
    ensures Admitting(s, id, initial).t == Admit(s.t, id).0
  {
  }

  lemma RouteFailTables(s: Sys, token: Token)
    requires Unsent(s, token)
    ensures RouteFails(s, token).t == Finish(s.t, s.ids[token], None, Some(token))
  {
  }

  lemma ForwardTables(s: Sys, token: Token, fate: Fate)
    requires CanForward(s, token, fate)
    ensures Forwards(s, token, fate).t == s.t
  {
  }

  lemma ClearTables(s: Sys)
    requires s.over
    ensures Clears(s).t == Clear(s.t)
  {
  }

  lemma SessionKeepsBooks(s: Sys, a: SessionStep)
    requires SessionEnabled(s, a) && (a.DoBind? ==> Stages(s)) && Balanced(s.t)
    ensures Within(s.t, SessionNext(s, a).t)
  {
    match a
    case DoAdmit(id, initial) =>
      AdmitTables(s, id, initial);
      AdmitKeepsBalance(s.t, id);
    case DoBind(token, w) => BindKeepsBooks(s, token, w);
    case DoRouteFail(token) =>
      RouteFailTables(s, token);
      FinishKeepsBalance(s.t, s.ids[token], None, Some(token));
    case DoSkip(token) =>
    case DoCancel(id, kept) => CancelKeepsBooks(s, id, kept);
    case DoExpire(token, kept) => ExpireKeepsBooks(s, token, kept);
    case DoForward(token, fate) => ForwardTables(s, token, fate);
    case DoEnd =>
    case DoClear =>
      ClearTables(s);
      ClearKeepsBalance(s.t);
  }

  lemma PlacingTables(s: Sys, w: string, conn: Conn)
    requires CanAttempt(s, w)
    ensures var d := s.lanes[w].sender.d;
      Placing(s, w, conn).t == if d.Call? then Begin(s.t, d.id, d.token, conn, w).0 else s.t
  {
  }

  lemma FreshTables(s: Sys, w: string, conn: Conn, written: seq<Entry>)
    requires CanBeginFresh(s, w, conn, written)
    ensures BeginsFresh(s, w, conn, written).t == Placing(Fresh(s, conn, w, written), w, conn).t
  {
  }

  lemma PlacingKeepsBooks(s: Sys, w: string, conn: Conn)
    requires CanAttempt(s, w) && Balanced(s.t)
    ensures Within(s.t, Placing(s, w, conn).t)
  {
    PlacingTables(s, w, conn);
    var d := s.lanes[w].sender.d;
    if d.Call? {
      BeginKeepsBalance(s.t, d.id, d.token, conn, w);
    }
  }

  lemma WasteTables(s: Sys, w: string, conn: Conn, written: seq<Entry>, stop: bool)
    requires CanWaste(s, w, conn, written)
    ensures Wastes(s, w, conn, written, stop).t == s.t
  {
  }

  lemma EndingTables(s: Sys, w: string)
    requires CanEndTooLarge(s, w)
    ensures var sender := s.lanes[w].sender;
      EndsTooLarge(s, w).t == if sender.d.Call? then EndOperation(s.t, Key(sender.conn, sender.d.id)) else s.t
  {
  }

  lemma RetryingTables(s: Sys, w: string)
    requires CanRetry(s, w)
    ensures var sender := s.lanes[w].sender;
      Retrying(s, w).t == if sender.d.Call? then Retry(s.t, sender.d.id, sender.conn, sender.d.token) else s.t
  {
  }

  lemma FailTables(s: Sys, w: string)
    requires CanFail(s, w)
    ensures var d := s.lanes[w].sender.d;
      Fails(s, w).t == if d.Call? then Finish(s.t, d.id, None, Some(d.token)) else s.t
  {
  }

  lemma SenderKeepsBooks(s: Sys, w: string, a: SenderStep)
    requires SenderEnabled(s, w, a) && Balanced(s.t)
    ensures Within(s.t, SenderNext(s, w, a).t)
  {
    match a
    case DoTakeCall(token) => PlaceKeepsBalance(s.t, s.ids[token], token);
    case DoTakeNote(initial) =>
    case DoDropNote =>
    case DoAttemptFail(stop) =>
    case DoWaste(conn, written, stop) => WasteTables(s, w, conn, written, stop);
    case DoBegin => PlacingKeepsBooks(s, w, s.lanes[w].conn.value);
    case DoBeginFresh(conn, written) =>
      FreshTables(s, w, conn, written);
      PlacingKeepsBooks(Fresh(s, conn, w, written), w, conn);
    case DoIssue(posted, tooLarge) =>
    case DoReturn(ok) =>
    case DoEndTooLarge =>
      EndingTables(s, w);
      var sender := s.lanes[w].sender;
      EndOperationKeepsBalance(s.t, Key(sender.conn, if sender.d.Call? then sender.d.id else Number(0)));
    case DoAdopt(timed) =>
    case DoRetry =>
      RetryingTables(s, w);
      var sender := s.lanes[w].sender;
      if sender.d.Call? {
        RetryKeepsBalance(s.t, sender.d.id, sender.conn, sender.d.token);
      }
    case DoFail =>
      FailTables(s, w);
      var d := s.lanes[w].sender.d;
      if d.Call? {
        FinishKeepsBalance(s.t, d.id, None, Some(d.token));
      }
  }

  lemma ReadTables(s: Sys, conn: Conn, at: nat)
    requires CanReadReply(s, conn, at)
    ensures ReadsReply(s, conn, at).t == Finish(s.t, s.wire[conn][at].id.value, Some(conn), None)
  {
  }

  lemma ReadFailTables(s: Sys, conn: Conn, closes: bool)
    requires CanFailRead(s, conn, closes)
    ensures ReadFails(s, conn, closes).t == s.t
  {
  }

  lemma DeathTables(s: Sys, conn: Conn, a: ConnStep)
    requires ConnEnabled(s, conn, a) && (a.DoReaderEnd? || a.DoRootsEnd?)
    ensures ConnNext(s, conn, a).t == FailInFlight(s.t, conn)
  {
  }

  lemma ConnKeepsBooks(s: Sys, conn: Conn, a: ConnStep)
    requires ConnEnabled(s, conn, a) && Balanced(s.t)
    ensures Within(s.t, ConnNext(s, conn, a).t)
  {
    match a
    case DoReadReply(at) =>
      ReadTables(s, conn, at);
      FinishKeepsBalance(s.t, s.wire[conn][at].id.value, Some(conn), None);
    case DoReadFail(closes) => ReadFailTables(s, conn, closes);
    case DoAnswer(posted) =>
    case DoReaderEnd =>
      DeathTables(s, conn, a);
      FailInFlightKeepsBalance(s.t, conn);
    case DoReaderQuit =>
    case DoRootsFail =>
    case DoRootsClose =>
    case DoRootsEnd =>
      DeathTables(s, conn, a);
      FailInFlightKeepsBalance(s.t, conn);
  }

  lemma ControlTables(s: Sys, w: string, a: ControlStep)
    requires ControlEnabled(s, w, a)
    ensures ControlNext(s, w, a).t == s.t
  {
  }

  lemma NextKeepsBooks(s: Sys, a: Action)
    requires Enabled(s, a) && Balanced(s.t) && (s.cleared || Stages(s))
    ensures Within(s.t, Next(s, a).t)
  {
    match a
    case OfSession(step) => SessionKeepsBooks(s, step);
    case OfSender(w, step) => SenderKeepsBooks(s, w, step);
    case OfConn(conn, step) => ConnKeepsBooks(s, conn, step);
    case OfControl(w, step) => ControlTables(s, w, step);
  }
}

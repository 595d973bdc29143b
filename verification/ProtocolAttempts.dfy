/** What a delivery is tried: twice at most, and a second time exactly when the first
    write failed and nobody has answered. */
module ProtocolAttempts {
  import opened Options
  import opened Tallies
  import opened Tracker
  import TrackerAnswers
  import opened Protocol
  import opened ProtocolInvariant
  import opened ProtocolTheorems
  import opened ProtocolFates
  import opened ProtocolEffects

  // ----- the steps of a delivery

  /** The lane's sender takes up a delivery exactly when its call is still owed. */
  lemma TakesOwed(s: Sys, w: string, token: Token)
    requires CanTakeCall(s, w, token)
    ensures var s' := TakesCall(s, w, token);
      s'.lanes[w].sender ==
        if Outstanding(s, token) then Attempting(Call(s.ids[token], token, s.stage[token].initial), 2) else Idle
  {
  }

  /** An attempt that got no connection, or no gate, is followed by another unless it
      was the last or the delivery's time is up. */
  lemma TriesAgain(s: Sys, w: string, stop: bool)
    requires CanAttempt(s, w)
    ensures var d, left := s.lanes[w].sender.d, s.lanes[w].sender.left;
      AttemptFails(s, w, stop).lanes[w].sender == if stop || left <= 1 then Failing(d) else Attempting(d, left - 1)
  {
  }

  lemma PlacingSender(s: Sys, w: string, conn: Conn)
    requires CanAttempt(s, w)
    ensures var d, left := s.lanes[w].sender.d, s.lanes[w].sender.left;
      Placing(s, w, conn).lanes[w].sender ==
        if d.Note? || Begin(s.t, d.id, d.token, conn, w).1.Granted? then Writing(d, left, conn) else Failing(d)
  {
  }

  /** The call is still owed, nothing runs under its connection and id, and there is
      room for one operation more. */
  ghost predicate MayRun(s: Sys, w: string, conn: Conn, d: Delivery)
    requires d.Call?
  {
    && Outstanding(s, d.token) && Key(conn, d.id) !in s.t.operations
    && |s.t.operations| < s.t.limits.session && Count(Tracker.Running(s.t.operations), w) < s.t.limits.perLane
  }

  /** A call goes on to its write exactly when it may run. */
  lemma PlacesOwed(s: Sys, w: string, conn: Conn)
    requires CanAttempt(s, w) && Bears(s, w, s.lanes[w].sender.d) && Balanced(s.t)
    ensures var d, left := s.lanes[w].sender.d, s.lanes[w].sender.left;
      Placing(s, w, conn).lanes[w].sender ==
        if d.Note? || MayRun(s, w, conn, d) then Writing(d, left, conn) else Failing(d)
  {
    var d := s.lanes[w].sender.d;
    PlacingSender(s, w, conn);
    if d.Call? {
      TrackerAnswers.BeginAnswers(s.t, d.id, d.token, conn, w);
    }
  }

  /** A connection that was dialled for a call that is refused is closed. */
  lemma RefusedIsClosed(s: Sys, w: string, conn: Conn, written: seq<Entry>)
    requires CanBeginFresh(s, w, conn, written)
    ensures BeginsFresh(s, w, conn, written).lanes[w].sender.Failing? ==>
      conn in BeginsFresh(s, w, conn, written).closed && conn in BeginsFresh(s, w, conn, written).released
  {
  }

  /** After a failed write the lane lets its connection go, and tries again exactly
      when the call is still owed to it on the connection that failed and this was
      the first attempt. */
  lemma RetriesOwed(s: Sys, w: string)
    requires CanRetry(s, w) && SenderOk(s, w)
    ensures var s', sender := Retrying(s, w), s.lanes[w].sender;
      var d, left, conn := sender.d, sender.left, sender.conn;
      && s'.lanes[w].conn.None? && conn in s'.closed && conn in s'.released
      && s'.lanes[w].sender ==
           if d.Call? && !(Outstanding(s, d.token) && PlacedOn(s, conn, d.token)) then Idle
           else if left > 1 then Attempting(d, left - 1) else Failing(d)
  {
  }

  /** A completed write makes its connection the lane's own, and a new one is read
      from then on. */
  lemma AdoptsConn(s: Sys, w: string, timed: bool)
    requires CanAdopt(s, w) && SenderOk(s, w) && LaneOk(s, w)
    ensures var s', conn := Adopts(s, w, timed), s.lanes[w].sender.conn;
      && s'.lanes[w].conn == Some(conn) && s'.lanes[w].sender.Idle?
      && (if s.lanes[w].conn.None? then s'.readers == s.readers[conn := Running] && s'.roots == s.roots[conn := Serving]
          else s'.readers == s.readers && s'.roots == s.roots && conn in s.readers)
  {
  }

  /** A message over the limit is given up, its credit is back, and a connection the
      lane has not adopted is closed. */
  lemma GivesUpTooLarge(s: Sys, w: string)
    requires CanEndTooLarge(s, w) && SenderOk(s, w)
    ensures var s', d, conn := EndsTooLarge(s, w), s.lanes[w].sender.d, s.lanes[w].sender.conn;
      && s'.lanes[w].sender == Failing(d) && s'.lanes[w].conn == s.lanes[w].conn
      && (d.Call? ==> Key(conn, d.id) !in s'.t.operations)
      && (conn in s'.closed <==> conn in s.closed || s.lanes[w].conn.None?)
  {
  }

  // ----- twice at most

  predicate Holds(written: seq<Entry>, token: Token) {
    exists k :: 0 <= k < |written| && written[k].token == Some(token)
  }

  lemma HoldsMore(written: seq<Entry>, e: Entry, token: Token)
    ensures Holds(written + [e], token) <==> Holds(written, token) || e.token == Some(token)
  {
    var more := written + [e];
    assert more[|written|] == e;
    if Holds(written, token) {
      var k :| 0 <= k < |written| && written[k].token == Some(token);
      assert more[k] == written[k];
    }
  }

  /** The call was written on the connection. */
  ghost predicate WrittenOn(s: Sys, conn: Conn, token: Token) {
    conn in s.wire && Holds(s.wire[conn], token)
  }

  ghost function Conns(s: Sys, token: Token): set<Conn> {
    set conn | conn in s.wire && WrittenOn(s, conn, token)
  }

  /** What a sender in the middle of a delivery has written of it, and may still. */
  ghost predicate Tried(sender: Sender, written: nat) {
    match sender
    case Idle => true
    case Attempting(_, left) => left >= 1 && written + left <= 2
    case Writing(_, left, _) => left >= 1 && written + left <= 2
    case Issued(_, left, _, _) => left >= 1 && written + left <= 3
    case Returned(_, left, _, _, _) => left >= 1 && written + left <= 3
    case Failing(_) => true
  }

  ghost predicate TriedOk(s: Sys) {
    && (forall w, token :: w in s.lanes && Carries(s.lanes[w].sender, token) ==>
          Tried(s.lanes[w].sender, |Conns(s, token)|))
    && forall token: Token :: |Conns(s, token)| <= 2
  }

  ghost predicate SameWrites(s: Sys, s': Sys) {
    forall conn, token: Token :: WrittenOn(s', conn, token) <==> WrittenOn(s, conn, token)
  }

  lemma SameConns(s: Sys, s': Sys, token: Token)
    requires SameWrites(s, s')
    ensures Conns(s', token) == Conns(s, token)
  {
    forall conn ensures conn in Conns(s', token) <==> conn in Conns(s, token) {
      assert WrittenOn(s', conn, token) <==> WrittenOn(s, conn, token);
    }
  }

  /** No sender moves, but one that comes to rest. */
  ghost predicate NoSender(s: Sys, s': Sys) {
    forall v :: v in s'.lanes ==>
      s'.lanes[v].sender.Idle? || (v in s.lanes && s'.lanes[v].sender == s.lanes[v].sender)
  }

  lemma StillTried(s: Sys, s': Sys)
    requires TriedOk(s) && SameWrites(s, s') && NoSender(s, s')
    ensures TriedOk(s')
  {
    forall token: Token ensures Conns(s', token) == Conns(s, token) {
      SameConns(s, s', token);
    }
  }

  /** The sender of one lane moves, and nothing of a call is written. */
  lemma MovesTried(s: Sys, s': Sys, w: string)
    requires TriedOk(s) && SameWrites(s, s') && w in s'.lanes
    requires forall v :: v in s'.lanes && v != w ==> v in s.lanes && s'.lanes[v].sender == s.lanes[v].sender
    requires forall token :: Carries(s'.lanes[w].sender, token) ==> Tried(s'.lanes[w].sender, |Conns(s, token)|)
    ensures TriedOk(s')
  {
    forall token: Token ensures Conns(s', token) == Conns(s, token) {
      SameConns(s, s', token);
    }
  }

  // ----- what each step writes

  lemma AppendWrites(s: Sys, conn: Conn, e: Entry, token: Token, c: Conn)
    requires conn in s.wire
    ensures WrittenOn(Append(s, conn, e), c, token) <==> WrittenOn(s, c, token) || (c == conn && e.token == Some(token))
  {
    HoldsMore(s.wire[conn], e, token);
  }

  lemma FreshWrites(s: Sys, conn: Conn, w: string, written: seq<Entry>)
    requires conn !in s.wire && forall k :: 0 <= k < |written| ==> written[k].token.None?
    ensures SameWrites(s, Fresh(s, conn, w, written))
  {
  }

  lemma HoldsMarked(written: seq<Entry>, at: nat, e: Entry, token: Token)
    requires at < |written| && e.token == written[at].token
    ensures Holds(written[at := e], token) <==> Holds(written, token)
  {
    var after := written[at := e];
    if Holds(written, token) {
      var k :| 0 <= k < |written| && written[k].token == Some(token);
      assert after[k].token == Some(token);
    }
  }

  /** A flag of a written message. */
  lemma FlagWrites(s: Sys, conn: Conn, at: nat, e: Entry, s': Sys)
    requires conn in s.wire && at < |s.wire[conn]| && e.token == s.wire[conn][at].token
    requires s'.wire == s.wire[conn := s.wire[conn][at := e]]
    ensures SameWrites(s, s')
  {
    forall token: Token ensures Holds(s'.wire[conn], token) <==> Holds(s.wire[conn], token) {
      HoldsMarked(s.wire[conn], at, e, token);
    }
  }

  lemma PlainWrites(s: Sys, conn: Conn, body: Body, posted: bool)
    requires conn in s.wire
    ensures SameWrites(s, Append(s, conn, Plain(body, posted)))
  {
    forall c, token: Token
      ensures WrittenOn(Append(s, conn, Plain(body, posted)), c, token) <==> WrittenOn(s, c, token)
    {
      AppendWrites(s, conn, Plain(body, posted), token, c);
    }
  }

  // ----- every step

  lemma AdmitWires(s: Sys, id: Id, initial: bool)
    ensures Admitting(s, id, initial).wire == s.wire
  {
  }

  lemma RouteFailWires(s: Sys, token: Token)
    requires Unsent(s, token)
    ensures RouteFails(s, token).wire == s.wire
  {
  }

  lemma ForwardWires(s: Sys, token: Token, fate: Fate)
    requires CanForward(s, token, fate)
    ensures Forwards(s, token, fate).wire == s.wire
  {
  }

  lemma SessionWires(s: Sys, a: SessionStep)
    requires SessionEnabled(s, a) && !a.DoCancel? && !a.DoExpire? && !a.DoBind?
    ensures SessionNext(s, a).wire == s.wire
  {
    match a
    case DoAdmit(id, initial) => AdmitWires(s, id, initial);
    case DoForward(token, fate) => ForwardWires(s, token, fate);
    case DoRouteFail(token) => RouteFailWires(s, token);
    case DoSkip(token) =>
    case DoEnd =>
    case DoClear =>
  }

  lemma AdviseTries(s: Sys, id: Id, owner: Owed, kept: bool)
    ensures Advise(s, id, owner, kept).wire == s.wire && NoSender(s, Advise(s, id, owner, kept))
  {
  }

  lemma CancelTries(s: Sys, id: Id, kept: bool)
    ensures Cancels(s, id, kept).wire == s.wire && NoSender(s, Cancels(s, id, kept))
  {
    if id in s.t.awaiting {
      AdviseTries(Claim(s, id, None, None, Cancelled), id, s.t.awaiting[id], kept);
    }
  }

  lemma ExpireTries(s: Sys, token: Token, kept: bool)
    requires token in s.timers && token in s.ids
    ensures Expires(s, token, kept).wire == s.wire && NoSender(s, Expires(s, token, kept))
  {
    var id, s1 := s.ids[token], s.(timers := s.timers - {token});
    if Owns(s.t, id, Some(token)) {
      AdviseTries(Claim(s1, id, None, Some(token), Expired), id, s.t.awaiting[id], kept);
    }
  }

  lemma BindTries(s: Sys, token: Token, w: string)
    requires CanBind(s, token, w)
    ensures Binding(s, token, w).wire == s.wire && NoSender(s, Binding(s, token, w))
  {
  }

  lemma SessionTries(s: Sys, a: SessionStep)
    requires TriedOk(s) && SessionEnabled(s, a)
    ensures TriedOk(SessionNext(s, a))
  {
    match a {
      case DoCancel(id, kept) => CancelTries(s, id, kept);
      case DoExpire(token, kept) => ExpireTries(s, token, kept);
      case DoBind(token, w) => BindTries(s, token, w);
      case _ =>
        SessionWires(s, a);
        SessionNoLane(s, a);
    }
    StillTried(s, SessionNext(s, a));
  }

  /** Nothing of a call is written before its sender takes it up. */
  lemma NothingWritten(s: Sys, token: Token)
    requires Entries(s) && token in s.stage && (s.stage[token].Queued? || s.stage[token].Routing?)
    ensures Conns(s, token) == {}
  {
    forall conn ensures !WrittenOn(s, conn, token) {
    }
  }

  lemma TakesTries(s: Sys, w: string, token: Token)
    requires TriedOk(s) && Entries(s) && CanTakeCall(s, w, token)
    ensures TriedOk(TakesCall(s, w, token))
  {
    var s' := TakesCall(s, w, token);
    assert s'.wire == s.wire;
    TakesOwed(s, w, token);
    NothingWritten(s, token);
    MovesTried(s, s', w);
  }

  lemma AttemptTries(s: Sys, w: string, stop: bool)
    requires TriedOk(s) && CanAttempt(s, w)
    ensures TriedOk(AttemptFails(s, w, stop))
  {
    MovesTried(s, AttemptFails(s, w, stop), w);
  }

  lemma PlacingTries(s: Sys, w: string, conn: Conn)
    requires TriedOk(s) && CanAttempt(s, w)
    ensures TriedOk(Placing(s, w, conn))
  {
    PlacingSender(s, w, conn);
    PlacingOnlySender(s, w, conn);
    assert Placing(s, w, conn).wire == s.wire;
    MovesTried(s, Placing(s, w, conn), w);
  }

  /** A connection nobody knew, with what its handshake wrote. */
  lemma FreshTries(s: Sys, conn: Conn, w: string, written: seq<Entry>)
    requires TriedOk(s) && conn !in s.wire && forall k :: 0 <= k < |written| ==> written[k].token.None?
    ensures TriedOk(Fresh(s, conn, w, written))
  {
    FreshWrites(s, conn, w, written);
    StillTried(s, Fresh(s, conn, w, written));
  }

  lemma ShutTries(s: Sys, conn: Conn)
    requires TriedOk(s)
    ensures TriedOk(Shut(s, conn))
  {
    StillTried(s, Shut(s, conn));
  }

  lemma WasteTries(s: Sys, w: string, conn: Conn, written: seq<Entry>, stop: bool)
    requires TriedOk(s) && Wires(s) && CanWaste(s, w, conn, written)
    ensures TriedOk(Wastes(s, w, conn, written, stop))
  {
    FreshTries(s, conn, w, written);
    ShutTries(Fresh(s, conn, w, written), conn);
    AttemptTries(Shut(Fresh(s, conn, w, written), conn), w, stop);
  }

  lemma BeginFreshTries(s: Sys, w: string, conn: Conn, written: seq<Entry>)
    requires TriedOk(s) && Wires(s) && CanBeginFresh(s, w, conn, written)
    ensures TriedOk(BeginsFresh(s, w, conn, written))
  {
    FreshTries(s, conn, w, written);
    PlacingTries(Fresh(s, conn, w, written), w, conn);
    ShutTries(Placing(Fresh(s, conn, w, written), w, conn), conn);
  }

  /** What a call's own write adds. */
  lemma IssueWrites(s: Sys, w: string, posted: bool, tooLarge: bool, token: Token)
    requires CanIssue(s, w, posted, tooLarge)
    ensures var sender := s.lanes[w].sender;
      Conns(Issues(s, w, posted, tooLarge), token) ==
        Conns(s, token) + if sender.d.Call? && sender.d.token == token then {sender.conn} else {}
  {
    var s', sender := Issues(s, w, posted, tooLarge), s.lanes[w].sender;
    var e := Sent(sender.d, posted, tooLarge);
    assert s'.wire == Append(s, sender.conn, e).wire;
    forall conn ensures conn in Conns(s', token) <==>
      conn in Conns(s, token) || (conn == sender.conn && e.token == Some(token))
    {
      AppendWrites(s, sender.conn, e, token, conn);
    }
  }

  /** A call is carried by one lane only. */
  lemma OneCarries(s: Sys, w: string, v: string, token: Token)
    requires w in s.lanes && v in s.lanes && SenderOk(s, w) && SenderOk(s, v)
    requires Carries(s.lanes[w].sender, token) && Carries(s.lanes[v].sender, token)
    ensures v == w
  {
  }

  /** The one step that writes a call: on a connection it was not written on. */
  lemma IssueTries(s: Sys, w: string, posted: bool, tooLarge: bool)
    requires TriedOk(s) && Senders(s) && CanIssue(s, w, posted, tooLarge)
    ensures TriedOk(Issues(s, w, posted, tooLarge))
  {
    var s', sender := Issues(s, w, posted, tooLarge), s.lanes[w].sender;
    assert s'.lanes[w].sender == Issued(sender.d, sender.left, sender.conn, |s.wire[sender.conn]|);
    assert s'.lanes == s.lanes[w := s'.lanes[w]];
    forall token: Token ensures |Conns(s', token)| <= 2 {
      IssueWrites(s, w, posted, tooLarge, token);
      assert Carries(sender, token) ==> Tried(sender, |Conns(s, token)|);
    }
    forall v, token: Token | v in s'.lanes && Carries(s'.lanes[v].sender, token)
      ensures Tried(s'.lanes[v].sender, |Conns(s', token)|)
    {
      IssueWrites(s, w, posted, tooLarge, token);
      assert SenderOk(s, w) && SenderOk(s, v);
      assert Carries(s.lanes[v].sender, token) && Tried(s.lanes[v].sender, |Conns(s, token)|);
      if Carries(sender, token) {
        OneCarries(s, w, v, token);
      }
    }
  }

  lemma ReturnTries(s: Sys, w: string, ok: bool)
    requires TriedOk(s) && CanReturn(s, w, ok)
    ensures TriedOk(Returns(s, w, ok))
  {
    var s', conn, at := Returns(s, w, ok), s.lanes[w].sender.conn, s.lanes[w].sender.at;
    FlagWrites(s, conn, at, s.wire[conn][at].(returned := true), s');
    MovesTried(s, s', w);
  }

  lemma TooLargeTries(s: Sys, w: string)
    requires TriedOk(s) && CanEndTooLarge(s, w)
    ensures TriedOk(EndsTooLarge(s, w))
  {
    var s' := EndsTooLarge(s, w);
    assert s'.wire == s.wire && s'.lanes[w].sender.Failing?;
    WritesOnlySender(s, w, DoEndTooLarge);
    MovesTried(s, s', w);
  }

  lemma RetryTries(s: Sys, w: string)
    requires TriedOk(s) && CanRetry(s, w) && SenderOk(s, w)
    ensures TriedOk(Retrying(s, w))
  {
    var s' := Retrying(s, w);
    assert s'.wire == s.wire;
    RetriesOwed(s, w);
    WritesOnlySender(s, w, DoRetry);
    RetryTried(s, w);
    MovesTried(s, s', w);
  }

  lemma RetryTried(s: Sys, w: string)
    requires TriedOk(s) && CanRetry(s, w) && SenderOk(s, w)
    ensures var sender := Retrying(s, w).lanes[w].sender;
      forall token :: Carries(sender, token) ==> Tried(sender, |Conns(s, token)|)
  {
    RetriesOwed(s, w);
  }

  lemma AdoptTries(s: Sys, w: string, timed: bool)
    requires TriedOk(s) && CanAdopt(s, w)
    ensures TriedOk(Adopts(s, w, timed))
  {
    StillTried(s, Adopts(s, w, timed));
  }

  lemma FailNoteIs(s: Sys, w: string)
    requires CanFail(s, w) && s.lanes[w].sender.d.Note?
    ensures Fails(s, w).wire == s.wire && Fails(s, w).lanes == s.lanes[w := s.lanes[w].(sender := Idle)]
  {
  }

  lemma FailCallIs(s: Sys, w: string)
    requires CanFail(s, w) && s.lanes[w].sender.d.Call?
    ensures Fails(s, w).wire == s.wire && Fails(s, w).lanes == s.lanes[w := s.lanes[w].(sender := Idle)]
  {
  }

  lemma FailTries(s: Sys, w: string)
    requires TriedOk(s) && CanFail(s, w)
    ensures TriedOk(Fails(s, w))
  {
    if s.lanes[w].sender.d.Note? {
      FailNoteIs(s, w);
    } else {
      FailCallIs(s, w);
    }
    StillTried(s, Fails(s, w));
  }

  lemma SenderTries(s: Sys, w: string, a: SenderStep)
    requires TriedOk(s) && Senders(s) && Wires(s) && Entries(s) && SenderEnabled(s, w, a)
    ensures TriedOk(SenderNext(s, w, a))
  {
    match a
    case DoTakeCall(token) => TakesTries(s, w, token);
    case DoTakeNote(initial) => MovesTried(s, TakesNote(s, w, initial), w);
    case DoDropNote => StillTried(s, DropsNote(s, w));
    case DoAttemptFail(stop) => AttemptTries(s, w, stop);
    case DoWaste(conn, written, stop) => WasteTries(s, w, conn, written, stop);
    case DoBegin => PlacingTries(s, w, s.lanes[w].conn.value);
    case DoBeginFresh(conn, written) => BeginFreshTries(s, w, conn, written);
    case DoIssue(posted, tooLarge) => IssueTries(s, w, posted, tooLarge);
    case DoReturn(ok) => ReturnTries(s, w, ok);
    case DoAdopt(timed) => AdoptTries(s, w, timed);
    case DoFail => FailTries(s, w);
    case DoEndTooLarge => TooLargeTries(s, w);
    case DoRetry =>
      assert SenderOk(s, w);
      RetryTries(s, w);
  }

  lemma ReadTries(s: Sys, conn: Conn, at: nat)
    requires TriedOk(s) && CanReadReply(s, conn, at)
    ensures TriedOk(ReadsReply(s, conn, at))
  {
    FlagWrites(s, conn, at, s.wire[conn][at].(answered := true), ReadsReply(s, conn, at));
    StillTried(s, ReadsReply(s, conn, at));
  }

  lemma ReadFailTries(s: Sys, conn: Conn, closes: bool)
    requires TriedOk(s) && CanFailRead(s, conn, closes)
    ensures TriedOk(ReadFails(s, conn, closes))
  {
    assert ReadFails(s, conn, closes).wire == s.wire;
    ReadFailNoLane(s, conn, closes);
    StillTried(s, ReadFails(s, conn, closes));
  }

  lemma SameTries(s: Sys, s': Sys)
    requires TriedOk(s) && s'.wire == s.wire && s'.lanes == s.lanes
    ensures TriedOk(s')
  {
    StillTried(s, s');
  }

  lemma ConnTries(s: Sys, conn: Conn, a: ConnStep)
    requires TriedOk(s) && ConnEnabled(s, conn, a)
    ensures TriedOk(ConnNext(s, conn, a))
  {
    match a
    case DoReadReply(at) => ReadTries(s, conn, at);
    case DoAnswer(posted) =>
      PlainWrites(s, conn, Reply, posted);
      StillTried(s, Replies(s, conn, posted));
    case DoReadFail(closes) => ReadFailTries(s, conn, closes);
    case DoReaderEnd => SameTries(s, ReaderEnds(s, conn));
    case DoRootsEnd => SameTries(s, RootsEnds(s, conn));
    case DoReaderQuit => SameTries(s, ReaderQuits(s, conn));
    case DoRootsFail => SameTries(s, RootsFails(s, conn));
    case DoRootsClose => SameTries(s, RootsCloses(s, conn));
  }

  lemma ControlTries(s: Sys, w: string, a: ControlStep)
    requires TriedOk(s) && ControlEnabled(s, w, a)
    ensures TriedOk(ControlNext(s, w, a))
  {
    if a.DoAdvise? {
      var control := s.lanes[w].worker.control;
      PlainWrites(s, control.conn, Cancel(control.token, control.id), a.posted);
    }
    StillTried(s, ControlNext(s, w, a));
  }

  lemma NextTries(s: Sys, a: Action)
    requires TriedOk(s) && Enabled(s, a) && (s.cleared || Inv(s))
    ensures TriedOk(Next(s, a))
  {
    match a
    case OfSession(step) => SessionTries(s, step);
    case OfSender(w, step) => SenderTries(s, w, step);
    case OfConn(conn, step) => ConnTries(s, conn, step);
    case OfControl(w, step) => ControlTries(s, w, step);
  }

  lemma {:induction false} RunTries(s: Sys, actions: seq<Action>, limits: Limits)
    requires TriedOk(s) && Safe(s, limits) && Run(s, actions).Some?
    ensures TriedOk(Run(s, actions).value)
    decreases |actions|
  {
    if actions != [] {
      NextTries(s, actions[0]);
      NextIsSafe(s, actions[0], limits);
      RunTries(Next(s, actions[0]), actions[1..], limits);
    }
  }

  /** In every reachable state a call was written on two connections at most, and
      on each of them once. */
  lemma TwiceAtMost(limits: Limits, s: Sys, token: Token, conn: Conn, j: nat, k: nat)
    requires Reachable(limits, s)
    ensures |Conns(s, token)| <= 2
    ensures (conn in s.wire && j < |s.wire[conn]| && k < |s.wire[conn]|
             && s.wire[conn][j].token == Some(token) && s.wire[conn][k].token == Some(token)) ==> j == k
  {
    var actions :| Run(Start(limits), actions) == Some(s);
    StartIsSafe(limits);
    forall t: Token ensures Conns(Start(limits), t) == {} {
    }
    RunTries(Start(limits), actions, limits);
    if conn in s.wire {
      ReachableIsSafe(limits, s);
      ReachableWire(limits, s, conn);
    }
  }
}

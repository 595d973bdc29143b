/** A run in which an advice goes out after its id has been used again on the same
    connection, and after that later use has been answered. */
module ProtocolLate {
  import opened Options
  import opened Tracker
  import opened Protocol
  import opened ProtocolTheorems

  const ONE := Limits(1, 1, 0)
  const W := "w"
  const ID := Number(1)
  const ADVICE := Control(0, ID, 0)

  /** A handshake that went through. */
  const SHAKEN := [Entry(Initialize, Some(INIT_ID), None, true, false, true, true), Plain(Payload, true)]

  function CallOf(token: Token): Delivery {
    Call(ID, token, false)
  }

  /** The write of a call, returned, and perhaps answered. */
  function Written(token: Token, answered: bool): Entry {
    Sent(CallOf(token), true, false).(returned := true, answered := answered)
  }

  /** A session with nobody in it: no call owed, no operation running. */
  predicate Quiet(s: Sys, next: Token) {
    && s.t.limits == ONE && !s.cleared && s.t.nextToken == next
    && s.t.awaiting == map[] && s.t.perWorktree == map[]
    && s.t.operations == map[] && s.t.operationsPerWorktree == map[]
  }

  /** The lane of W, if there is one. */
  predicate HasLane(s: Sys, conn: Option<Conn>, sender: Sender, controls: set<Control>) {
    W in s.lanes && s.lanes[W] == Lane(conn, sender, Rest, controls)
  }

  /** Connection 0 as it stands. */
  predicate Carries0(s: Sys, written: seq<Entry>) {
    && 0 in s.laneOf && s.laneOf[0] == W && 0 in s.wire && s.wire[0] == written && 0 !in s.closed
    && 0 in s.readers && s.readers[0].Running?
  }

  /** Admission `token` is all there is. */
  predicate Only(s: Sys, token: Token, stage: Stage, owner: Owed) {
    && s.t.limits == ONE && !s.cleared && s.t.nextToken == token + 1
    && token in s.ids && s.ids[token] == ID && token in s.stage && s.stage[token] == stage
    && token in s.status && owner.token == token && s.t.awaiting == map[ID := owner]
  }

  /** What the wire and the lane have is untouched. */
  predicate Beside(s: Sys, s': Sys) {
    s'.laneOf == s.laneOf && s'.wire == s.wire && s'.closed == s.closed && s'.readers == s.readers
  }

  lemma Admits(s: Sys, token: Token)
    requires Quiet(s, token)
    ensures var s' := Admitting(s, ID, false);
      && Only(s', token, Routing(false), Owed(None, "", token)) && Beside(s, s') && s'.lanes == s.lanes
      && s'.t.perWorktree == map[] && s'.t.operations == map[] && s'.t.operationsPerWorktree == map[]
  {
    assert Admit(s.t, ID).1 == Granted(token);
  }

  lemma Binds(s: Sys, token: Token)
    requires Only(s, token, Routing(false), Owed(None, "", token)) && s.t.perWorktree == map[]
    requires W !in s.lanes ==> s.lanes == map[]
    requires W in s.lanes ==> s.lanes[W].sender.Idle? && s.lanes[W].worker.Rest?
    ensures CanBind(s, token, W)
    ensures var s' := Binding(s, token, W);
      && Only(s', token, Queued(W, false), Owed(None, W, token)) && Beside(s, s')
      && s'.lanes == (if W in s.lanes then s.lanes else s.lanes[W := Lane(None, Idle, Rest, {})])
      && s'.t.perWorktree == map[W := 1]
      && s'.t.operations == s.t.operations && s'.t.operationsPerWorktree == s.t.operationsPerWorktree
  {
    assert Bind(s.t, ID, token, W, s.lanes.Keys).1.Granted?;
  }

  lemma Takes(s: Sys, token: Token, conn: Option<Conn>, controls: set<Control>)
    requires Only(s, token, Queued(W, false), Owed(None, W, token)) && HasLane(s, conn, Idle, controls)
    ensures CanTakeCall(s, W, token)
    ensures var s' := TakesCall(s, W, token);
      && Only(s', token, AtLane(W), Owed(None, W, token)) && Beside(s, s')
      && HasLane(s', conn, Attempting(CallOf(token), 2), controls)
      && s'.t.perWorktree == s.t.perWorktree
      && s'.t.operations == s.t.operations && s'.t.operationsPerWorktree == s.t.operationsPerWorktree
  {
  }

  lemma Places(s: Sys, token: Token, conn: Option<Conn>, controls: set<Control>)
    requires Only(s, token, AtLane(W), Owed(None, W, token)) && HasLane(s, conn, Attempting(CallOf(token), 2), controls)
    requires s.t.operations == map[] && s.t.operationsPerWorktree == map[]
    ensures var s' := Placing(s, W, 0);
      && Only(s', token, AtLane(W), Owed(Some(0), W, token)) && Beside(s, s')
      && HasLane(s', conn, Writing(CallOf(token), 2, 0), controls)
      && s'.t.perWorktree == s.t.perWorktree
      && s'.t.operations == map[Key(0, ID) := Operation(W, false, token)] && s'.t.operationsPerWorktree == map[W := 1]
  {
    assert Begin(s.t, ID, token, 0, W).1.Granted?;
  }

  lemma PlacesFresh(s: Sys)
    requires Only(s, 0, AtLane(W), Owed(None, W, 0)) && HasLane(s, None, Attempting(CallOf(0), 2), {})
    requires 0 !in s.laneOf && s.t.operations == map[] && s.t.operationsPerWorktree == map[]
    ensures CanBeginFresh(s, W, 0, SHAKEN)
    ensures BeginsFresh(s, W, 0, SHAKEN) == Placing(Fresh(s, 0, W, SHAKEN), W, 0)
  {
    Places(Fresh(s, 0, W, SHAKEN), 0, None, {});
  }

  lemma Writes(s: Sys, token: Token, conn: Option<Conn>, controls: set<Control>, written: seq<Entry>)
    requires HasLane(s, conn, Writing(CallOf(token), 2, 0), controls)
    requires 0 in s.wire && s.wire[0] == written && 0 !in s.closed
    ensures CanIssue(s, W, true, false)
    ensures var s' := Issues(s, W, true, false);
      && HasLane(s', conn, Issued(CallOf(token), 2, 0, |written|), controls)
      && 0 in s'.wire && s'.wire[0] == written + [Sent(CallOf(token), true, false)]
      && s'.t == s.t && s'.laneOf == s.laneOf && s'.closed == s.closed && s'.readers == s.readers
      && s'.ids == s.ids && s'.stage == s.stage && s'.status == s.status && s'.cleared == s.cleared
  {
  }

  lemma Comes(s: Sys, token: Token, conn: Option<Conn>, controls: set<Control>, written: seq<Entry>)
    requires HasLane(s, conn, Issued(CallOf(token), 2, 0, |written|), controls)
    requires 0 in s.wire && s.wire[0] == written + [Sent(CallOf(token), true, false)]
    ensures CanReturn(s, W, true)
    ensures var s' := Returns(s, W, true);
      && HasLane(s', conn, Returned(CallOf(token), 2, 0, |written|, true), controls)
      && 0 in s'.wire && s'.wire[0] == written + [Written(token, false)]
      && s'.t == s.t && s'.laneOf == s.laneOf && s'.closed == s.closed && s'.readers == s.readers
      && s'.ids == s.ids && s'.stage == s.stage && s'.status == s.status && s'.cleared == s.cleared
  {
    var more := written + [Sent(CallOf(token), true, false)];
    assert more[|written| := Written(token, false)] == written + [Written(token, false)];
  }

  lemma Adopted(s: Sys, token: Token, conn: Option<Conn>, controls: set<Control>, written: seq<Entry>)
    requires HasLane(s, conn, Returned(CallOf(token), 2, 0, |written|, true), controls)
    requires conn.Some? ==> conn == Some(0)
    requires Only(s, token, AtLane(W), Owed(Some(0), W, token))
    requires 0 in s.laneOf && s.laneOf[0] == W && 0 in s.wire && 0 !in s.closed
    requires conn.Some? ==> 0 in s.readers && s.readers[0].Running?
    ensures CanAdopt(s, W)
    ensures var s' := Adopts(s, W, false);
      && HasLane(s', Some(0), Idle, controls) && Carries0(s', s.wire[0])
      && Only(s', token, Settled, Owed(Some(0), W, token)) && s'.t == s.t
  {
  }

  /** The call is placed and running on connection 0, and nothing else is. */
  predicate InUse(s: Sys, token: Token, controls: set<Control>, written: seq<Entry>) {
    && Only(s, token, Settled, Owed(Some(0), W, token)) && HasLane(s, Some(0), Idle, controls) && Carries0(s, written)
    && s.t.perWorktree == map[W := 1]
    && s.t.operations == map[Key(0, ID) := Operation(W, false, token)] && s.t.operationsPerWorktree == map[W := 1]
  }

  lemma Cancelling(s: Sys, written: seq<Entry>)
    requires InUse(s, 0, {}, written)
    ensures var s' := Cancels(s, ID, true);
      && HasLane(s', Some(0), Idle, {ADVICE}) && Carries0(s', written) && s'.t.limits == ONE && !s'.cleared
      && s'.t.nextToken == 1 && s'.t.awaiting == map[] && s'.t.perWorktree == map[]
      && s'.t.operations == map[Key(0, ID) := Operation(W, true, 0)] && s'.t.operationsPerWorktree == map[W := 1]
  {
    var s1 := Claim(s, ID, None, None, Cancelled);
    assert s1.t.operations == map[Key(0, ID) := Operation(W, true, 0)];
    assert s1.t.awaiting == map[] && s1.t.perWorktree == map[];
    assert Cancels(s, ID, true) == Advise(s1, ID, Owed(Some(0), W, 0), true);
  }

  /** The reply to a call that was cancelled gives its credit back. */
  lemma ReadsLate(s: Sys, written: seq<Entry>)
    requires HasLane(s, Some(0), Idle, {ADVICE}) && Carries0(s, written + [Written(0, false)])
    requires s.t.limits == ONE && !s.cleared && s.t.nextToken == 1 && s.t.awaiting == map[] && s.t.perWorktree == map[]
    requires s.t.operations == map[Key(0, ID) := Operation(W, true, 0)] && s.t.operationsPerWorktree == map[W := 1]
    ensures CanReadReply(s, 0, |written|)
    ensures var s' := ReadsReply(s, 0, |written|);
      Quiet(s', 1) && HasLane(s', Some(0), Idle, {ADVICE}) && Carries0(s', written + [Written(0, true)])
  {
    var more := written + [Written(0, false)];
    assert more[|written| := Written(0, true)] == written + [Written(0, true)];
    assert !Claims(s.t, ID, Some(0), None);
    assert s.t.operations - {Key(0, ID)} == map[];
    assert ReadsReply(s, 0, |written|).t == Finish(s.t, ID, Some(0), None);
  }

  /** The reply to the second use answers it. */
  lemma ReadsSecond(s: Sys, written: seq<Entry>)
    requires InUse(s, 1, {ADVICE}, written + [Written(1, false)])
    ensures CanReadReply(s, 0, |written|)
    ensures var s' := ReadsReply(s, 0, |written|);
      && HasLane(s', Some(0), Idle, {ADVICE}) && Carries0(s', written + [Written(1, true)])
      && s'.t.operations == map[] && !s'.cleared
      && 1 in s'.status && s'.status[1] == Taken(Answer(0, |written|))
  {
    var more := written + [Written(1, false)];
    assert more[|written| := Written(1, true)] == written + [Written(1, true)];
    assert s.t.operations - {Key(0, ID)} == map[];
    assert ReadsReply(s, 0, |written|).t == Finish(s.t, ID, Some(0), None);
  }

  lemma EntersLate(s: Sys, written: seq<Entry>)
    requires HasLane(s, Some(0), Idle, {ADVICE}) && Carries0(s, written) && s.t.operations == map[]
    requires |written| > 2 && written[2] == Written(0, true)
    ensures CanEnter(s, W, ADVICE)
    ensures var s' := Enters(s, W, ADVICE);
      W in s'.lanes && s'.lanes[W].worker == Checked(ADVICE) && Carries0(s', written) && s'.status == s.status
  {
    assert s.wire[0][2].token == Some(0) && s.wire[0][2].returned;
  }

  lemma AdvisesLate(s: Sys, written: seq<Entry>)
    requires W in s.lanes && s.lanes[W].worker == Checked(ADVICE) && Carries0(s, written)
    ensures CanAdvise(s, W, true)
    ensures var s' := Advises(s, W, true);
      0 in s'.laneOf && 0 in s'.wire && s'.wire[0] == written + [Plain(Cancel(0, ID), true)] && s'.status == s.status
  {
  }

  // ----- the run

  lemma Nobody() returns (s: Sys)
    ensures Reachable(ONE, s) && Quiet(s, 0) && s.lanes == map[] && s.laneOf == map[] && s.closed == {}
  {
    s := Start(ONE);
    assert Run(s, []) == Some(s);
    assert s.t == Empty(ONE);
  }

  /** From admission to the sender's attempt. */
  lemma Sent1(s: Sys, token: Token, conn: Option<Conn>, controls: set<Control>) returns (s': Sys)
    requires Reachable(ONE, s) && Quiet(s, token)
    requires
      if W in s.lanes then HasLane(s, conn, Idle, controls) else s.lanes == map[] && conn == None && controls == {}
    ensures Reachable(ONE, s') && Only(s', token, AtLane(W), Owed(None, W, token)) && Beside(s, s')
    ensures HasLane(s', conn, Attempting(CallOf(token), 2), controls)
    ensures s'.t.perWorktree == map[W := 1] && s'.t.operations == map[] && s'.t.operationsPerWorktree == map[]
  {
    Admits(s, token);
    ReachNext(ONE, s, OfSession(DoAdmit(ID, false)));
    s' := Admitting(s, ID, false);
    Binds(s', token);
    ReachNext(ONE, s', OfSession(DoBind(token, W)));
    s' := Binding(s', token, W);
    Takes(s', token, conn, controls);
    ReachNext(ONE, s', OfSender(W, DoTakeCall(token)));
    s' := TakesCall(s', W, token);
  }

  /** From placement to adoption. */
  lemma Sent2(s: Sys, token: Token, conn: Option<Conn>, controls: set<Control>, written: seq<Entry>) returns (s': Sys)
    requires Reachable(ONE, s) && Only(s, token, AtLane(W), Owed(Some(0), W, token))
    requires HasLane(s, conn, Writing(CallOf(token), 2, 0), controls) && (conn.Some? ==> conn == Some(0))
    requires 0 in s.laneOf && s.laneOf[0] == W && 0 in s.wire && s.wire[0] == written && 0 !in s.closed
    requires conn.Some? ==> 0 in s.readers && s.readers[0].Running?
    requires s.t.perWorktree == map[W := 1]
    requires s.t.operations == map[Key(0, ID) := Operation(W, false, token)] && s.t.operationsPerWorktree == map[W := 1]
    ensures Reachable(ONE, s') && InUse(s', token, controls, written + [Written(token, false)])
  {
    Writes(s, token, conn, controls, written);
    ReachNext(ONE, s, OfSender(W, DoIssue(true, false)));
    s' := Issues(s, W, true, false);
    Comes(s', token, conn, controls, written);
    ReachNext(ONE, s', OfSender(W, DoReturn(true)));
    s' := Returns(s', W, true);
    Adopted(s', token, conn, controls, written);
    ReachNext(ONE, s', OfSender(W, DoAdopt(false)));
    s' := Adopts(s', W, false);
  }

  /** The first use of the id, cancelled and then answered. */
  lemma FirstUse() returns (s: Sys)
    ensures Reachable(ONE, s) && Quiet(s, 1) && HasLane(s, Some(0), Idle, {ADVICE})
    ensures Carries0(s, SHAKEN + [Written(0, true)])
  {
    s := Nobody();
    s := Sent1(s, 0, None, {});
    PlacesFresh(s);
    Places(Fresh(s, 0, W, SHAKEN), 0, None, {});
    ReachNext(ONE, s, OfSender(W, DoBeginFresh(0, SHAKEN)));
    s := BeginsFresh(s, W, 0, SHAKEN);
    s := Sent2(s, 0, None, {}, SHAKEN);
    Cancelling(s, SHAKEN + [Written(0, false)]);
    ReachNext(ONE, s, OfSession(DoCancel(ID, true)));
    s := Cancels(s, ID, true);
    ReadsLate(s, SHAKEN);
    ReachNext(ONE, s, OfConn(0, DoReadReply(|SHAKEN|)));
    s := ReadsReply(s, 0, |SHAKEN|);
  }

  /** The second use, answered while the advice for the first still waits. */
  lemma SecondUse() returns (s: Sys)
    ensures Reachable(ONE, s) && HasLane(s, Some(0), Idle, {ADVICE}) && s.t.operations == map[]
    ensures Carries0(s, SHAKEN + [Written(0, true)] + [Written(1, true)])
    ensures !s.cleared && 1 in s.status && s.status[1] == Taken(Answer(0, 3))
  {
    s := FirstUse();
    var written := SHAKEN + [Written(0, true)];
    s := Sent1(s, 1, Some(0), {ADVICE});
    Places(s, 1, Some(0), {ADVICE});
    ReachNext(ONE, s, OfSender(W, DoBegin));
    s := Placing(s, W, 0);
    s := Sent2(s, 1, Some(0), {ADVICE}, written);
    ReadsSecond(s, written);
    ReachNext(ONE, s, OfConn(0, DoReadReply(|written|)));
    s := ReadsReply(s, 0, |written|);
  }

  /** A reachable state in which the advice for a call was sent after a later call
      under the same id, on the same connection, had been written and answered:
      what LateAdviceIsHarmless allows does happen. */
  lemma AdviceAfterReuse() returns (s: Sys)
    ensures Reachable(ONE, s) && 0 in s.laneOf && 0 in s.wire && |s.wire[0]| == 5
    ensures s.wire[0][2].token == Some(0) && s.wire[0][3].token == Some(1) && s.wire[0][3].id == s.wire[0][2].id
    ensures s.wire[0][3].posted && s.wire[0][3].answered && 1 in s.status && s.status[1] == Taken(Answer(0, 3))
    ensures s.wire[0][4].body == Cancel(0, ID) && s.wire[0][4].posted && s.wire[0][2].id == Some(ID)
  {
    s := SecondUse();
    var written := SHAKEN + [Written(0, true)] + [Written(1, true)];
    EntersLate(s, written);
    ReachNext(ONE, s, OfControl(W, DoEnter(ADVICE)));
    s := Enters(s, W, ADVICE);
    AdvisesLate(s, written);
    ReachNext(ONE, s, OfControl(W, DoAdvise(true)));
    s := Advises(s, W, true);
  }
}

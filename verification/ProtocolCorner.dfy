/** A run in which the first message an upstream may act on is no initialize: the
    client's own initialize is over the size limit and cancelled meanwhile, and
    the advice reaches the connection before it is closed. */
module ProtocolCorner {
  import opened Options
  import opened Tracker
  import opened Protocol
  import opened ProtocolTheorems

  const ONE := Limits(1, 1, 0)
  const W := "w"
  const ID := Number(1)
  const FIRST := Call(ID, 0, true)
  const ADVICE := Control(0, ID, 0)

  /** The lane's side of the scene. */
  predicate Lanes1(s: Sys, sender: Sender, worker: Worker, controls: set<Control>) {
    W in s.lanes && s.lanes[W] == Lane(None, sender, worker, controls)
  }

  predicate Named(s: Sys) {
    0 in s.ids && s.ids[0] == ID && 0 in s.status && 0 in s.stage && !s.cleared && s.t.limits == ONE
  }

  predicate Open(s: Sys) {
    0 !in s.closed && 0 !in s.laneOf
  }

  lemma Scene1(s: Sys)
    requires s == Start(ONE)
    ensures var s' := Admitting(s, ID, true);
      && Named(s') && Open(s') && s'.stage[0] == Routing(true) && s'.lanes == map[]
      && s'.t.awaiting == map[ID := Owed(None, "", 0)] && s'.t.perWorktree == map[]
      && s'.t.operations == map[] && s'.t.operationsPerWorktree == map[]
  {
    assert s.t == Empty(ONE);
  }

  lemma Scene2(s: Sys)
    requires Named(s) && Open(s) && s.stage[0] == Routing(true) && s.lanes == map[]
    requires s.t.awaiting == map[ID := Owed(None, "", 0)] && s.t.perWorktree == map[]
    ensures CanBind(s, 0, W)
    ensures var s' := Binding(s, 0, W);
      && Named(s') && Open(s') && s'.stage[0] == Queued(W, true) && Lanes1(s', Idle, Rest, {})
      && s'.t.awaiting == map[ID := Owed(None, W, 0)]
      && s'.t.operations == s.t.operations && s'.t.operationsPerWorktree == s.t.operationsPerWorktree
  {
    assert Bind(s.t, ID, 0, W, s.lanes.Keys).1.Granted?;
  }

  lemma Scene3(s: Sys)
    requires Named(s) && Open(s) && s.stage[0] == Queued(W, true) && Lanes1(s, Idle, Rest, {})
    requires s.t.awaiting == map[ID := Owed(None, W, 0)]
    ensures CanTakeCall(s, W, 0)
    ensures var s' := TakesCall(s, W, 0);
      && Named(s') && Open(s') && Lanes1(s', Attempting(FIRST, 2), Rest, {})
      && s'.t.awaiting == map[ID := Owed(None, W, 0)]
      && s'.t.operations == s.t.operations && s'.t.operationsPerWorktree == s.t.operationsPerWorktree
  {
  }

  lemma Scene4(s: Sys)
    requires Named(s) && Open(s) && Lanes1(s, Attempting(FIRST, 2), Rest, {})
    requires s.t.awaiting == map[ID := Owed(None, W, 0)]
    requires s.t.operations == map[] && s.t.operationsPerWorktree == map[]
    ensures CanBeginFresh(s, W, 0, [])
    ensures var s' := BeginsFresh(s, W, 0, []);
      && Named(s') && 0 !in s'.closed && Lanes1(s', Writing(FIRST, 2, 0), Rest, {}) && 0 in s'.wire && s'.wire[0] == []
      && 0 in s'.laneOf && s'.laneOf[0] == W
      && s'.t.awaiting == map[ID := Owed(Some(0), W, 0)] && s'.t.operations == map[Key(0, ID) := Operation(W, false, 0)]
  {
    var s1 := Fresh(s, 0, W, []);
    assert Begin(s1.t, ID, 0, 0, W).1.Granted?;
    assert Placing(s1, W, 0).lanes[W].sender == Writing(FIRST, 2, 0);
  }

  lemma Scene5(s: Sys)
    requires Named(s) && 0 !in s.closed && Lanes1(s, Writing(FIRST, 2, 0), Rest, {}) && 0 in s.wire && s.wire[0] == []
    requires 0 in s.laneOf && s.laneOf[0] == W
    requires s.t.awaiting == map[ID := Owed(Some(0), W, 0)]
    requires s.t.operations == map[Key(0, ID) := Operation(W, false, 0)]
    ensures var s' := Cancels(s, ID, true);
      && Named(s') && 0 !in s'.closed && Lanes1(s', Writing(FIRST, 2, 0), Rest, {ADVICE})
      && 0 in s'.wire && s'.wire[0] == []
      && 0 in s'.laneOf && s'.laneOf[0] == W
      && s'.t.operations == map[Key(0, ID) := Operation(W, true, 0)]
  {
    var s1 := Claim(s, ID, None, None, Cancelled);
    assert s1.t.operations == map[Key(0, ID) := Operation(W, true, 0)];
    assert Cancels(s, ID, true) == Advise(s1, ID, Owed(Some(0), W, 0), true);
  }

  lemma Scene6(s: Sys)
    requires Named(s) && 0 !in s.closed && Lanes1(s, Writing(FIRST, 2, 0), Rest, {ADVICE})
    requires 0 in s.wire && s.wire[0] == []
    ensures CanIssue(s, W, false, true)
    ensures var s' := Issues(s, W, false, true);
      && Named(s') && 0 !in s'.closed && s'.laneOf == s.laneOf && s'.t == s.t
      && Lanes1(s', Issued(FIRST, 2, 0, 0), Rest, {ADVICE})
      && 0 in s'.wire && s'.wire[0] == [Sent(FIRST, false, true)]
  {
  }

  lemma Scene7(s: Sys)
    requires Named(s) && 0 !in s.closed && Lanes1(s, Issued(FIRST, 2, 0, 0), Rest, {ADVICE})
    requires 0 in s.wire && s.wire[0] == [Sent(FIRST, false, true)]
    ensures CanReturn(s, W, false)
    ensures var s' := Returns(s, W, false);
      && Named(s') && 0 !in s'.closed && s'.laneOf == s.laneOf && s'.t == s.t
      && Lanes1(s', Returned(FIRST, 2, 0, 0, false), Rest, {ADVICE})
      && 0 in s'.wire && s'.wire[0] == [Sent(FIRST, false, true).(returned := true)]
  {
  }

  lemma Scene8(s: Sys)
    requires Named(s) && 0 !in s.closed && Lanes1(s, Returned(FIRST, 2, 0, 0, false), Rest, {ADVICE})
    requires 0 in s.wire && s.wire[0] == [Sent(FIRST, false, true).(returned := true)]
    requires s.t.operations == map[Key(0, ID) := Operation(W, true, 0)]
    ensures CanEnter(s, W, ADVICE)
    ensures var s' := Enters(s, W, ADVICE);
      && Named(s') && 0 !in s'.closed && s'.laneOf == s.laneOf && s'.wire == s.wire
      && W in s'.lanes && s'.lanes[W].worker == Checked(ADVICE)
  {
    assert s.wire[0][0].token == Some(0) && s.wire[0][0].returned;
  }

  lemma Scene9(s: Sys)
    requires Named(s) && 0 !in s.closed && W in s.lanes && s.lanes[W].worker == Checked(ADVICE)
    requires 0 in s.wire && s.wire[0] == [Sent(FIRST, false, true).(returned := true)]
    ensures CanAdvise(s, W, true)
    ensures var s' := Advises(s, W, true);
      && s'.laneOf == s.laneOf && 0 in s'.wire && s'.wire[0] == s.wire[0] + [Plain(Cancel(0, ID), true)]
  {
  }

  /** The client's initialize placed on a fresh connection. */
  lemma PlacedFirst() returns (s: Sys)
    ensures Reachable(ONE, s) && Named(s) && 0 !in s.closed && Lanes1(s, Writing(FIRST, 2, 0), Rest, {})
    ensures 0 in s.wire && s.wire[0] == [] && 0 in s.laneOf && s.laneOf[0] == W
    ensures s.t.awaiting == map[ID := Owed(Some(0), W, 0)]
    ensures s.t.operations == map[Key(0, ID) := Operation(W, false, 0)]
  {
    s := Start(ONE);
    assert Run(s, []) == Some(s);
    Scene1(s);
    ReachNext(ONE, s, OfSession(DoAdmit(ID, true)));
    s := Admitting(s, ID, true);
    Scene2(s);
    ReachNext(ONE, s, OfSession(DoBind(0, W)));
    s := Binding(s, 0, W);
    Scene3(s);
    ReachNext(ONE, s, OfSender(W, DoTakeCall(0)));
    s := TakesCall(s, W, 0);
    Scene4(s);
    ReachNext(ONE, s, OfSender(W, DoBeginFresh(0, [])));
    s := BeginsFresh(s, W, 0, []);
  }

  /** Cancelled while its write is under way, and refused for its size. */
  lemma RefusedFirst() returns (s: Sys)
    ensures Reachable(ONE, s) && Named(s) && 0 !in s.closed && 0 in s.laneOf
    ensures Lanes1(s, Returned(FIRST, 2, 0, 0, false), Rest, {ADVICE})
    ensures 0 in s.wire && s.wire[0] == [Sent(FIRST, false, true).(returned := true)]
    ensures s.t.operations == map[Key(0, ID) := Operation(W, true, 0)]
  {
    s := PlacedFirst();
    Scene5(s);
    ReachNext(ONE, s, OfSession(DoCancel(ID, true)));
    s := Cancels(s, ID, true);
    Scene6(s);
    ReachNext(ONE, s, OfSender(W, DoIssue(false, true)));
    s := Issues(s, W, false, true);
    Scene7(s);
    ReachNext(ONE, s, OfSender(W, DoReturn(false)));
    s := Returns(s, W, false);
  }

  /** A reachable state in which the first accepted write of a connection is an
      advice: AcceptedFirst cannot do without its condition. */
  lemma AdviceFirst() returns (s: Sys)
    ensures Reachable(ONE, s) && 0 in s.laneOf && 0 in s.wire && |s.wire[0]| == 2
    ensures s.wire[0][0].body.Initialize? && !s.wire[0][0].posted
    ensures FirstPosted(s.wire[0], 1) && s.wire[0][1].body.Cancel?
  {
    s := RefusedFirst();
    Scene8(s);
    ReachNext(ONE, s, OfControl(W, DoEnter(ADVICE)));
    s := Enters(s, W, ADVICE);
    Scene9(s);
    ReachNext(ONE, s, OfControl(W, DoAdvise(true)));
    s := Advises(s, W, true);
  }
}

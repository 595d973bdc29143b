/** Left alone, a session comes to rest: whatever its goroutines have to do by
    themselves, they do in boundedly many steps. */
module ProtocolRest {
  import opened Options
  import opened Tracker
  import opened Protocol
  import opened ProtocolInvariant
  import opened ProtocolTheorems

  // ----- a session at rest

  /** A step that some goroutine of the router takes by itself to bring a delivery,
      or a dying connection, to its end: it waits for no message of the client, no
      reply and no timer. (A dial and its handshake are bounded in time, and so is a
      write.) An attempt fails of itself only where it can but dial, and the
      control worker is waited for only by a sender that wants the gate. */
  ghost predicate Own(s: Sys, a: Action) {
    match a
    case OfSession(step) =>
      (match step
       case DoBind(token, w) => CanBind(s, token, w) && Binds(s, token, w)
       case DoRouteFail(token) => exists w :: CanBind(s, token, w) && !Binds(s, token, w)
       case _ => false)
    case OfSender(w, step) =>
      (match step
       case DoTakeNote(_) => false
       case DoAttemptFail(_) => CanAttempt(s, w) && MustDial(s.lanes[w])
       case _ => true)
    case OfConn(_, step) => step.DoReaderEnd? || step.DoRootsClose? || step.DoRootsEnd? || step == DoReadFail(false)
    case OfControl(w, step) => step.DoLeave? && CanAttempt(s, w)
  }

  /** The worktree that routing found takes the call. */
  predicate Binds(s: Sys, token: Token, w: string)
    requires CanBind(s, token, w)
  {
    Bind(s.t, s.ids[token], token, w, s.lanes.Keys).1.Granted?
  }

  /** A call that no connection of its lane may take. */
  predicate MustDial(l: Lane) {
    !l.sender.Idle? && if l.conn.Some? then l.sender.d.initial else l.sender.d.Call?
  }

  ghost predicate Steps(s: Sys, a: Action) {
    Own(s, a) && Enabled(s, a)
  }

  /** A sender that is not idle, or the worker whose gate it waits for, has a step. */
  lemma SenderSteps(s: Sys, w: string)
    requires !s.cleared && w in s.lanes && SenderOk(s, w) && !s.lanes[w].sender.Idle?
    ensures exists a :: Steps(s, a)
  {
    var l := s.lanes[w];
    var step := match l.sender
      case Attempting(d, _) =>
        if MustDial(l) then DoAttemptFail(false) else if l.conn.Some? then DoBegin else DoDropNote
      case Writing(_, _, _) => DoIssue(false, false)
      case Issued(_, _, _, _) => DoReturn(false)
      case Returned(_, _, _, _, ok) =>
        if ok then DoAdopt(false) else if TooLarge(s, l.sender) then DoEndTooLarge else DoRetry
      case Failing(_) => DoFail
      case Idle => DoFail;
    if step.DoBegin? && !l.worker.Rest? {
      assert Steps(s, OfControl(w, DoLeave));
    } else {
      assert Steps(s, OfSender(w, step));
    }
  }

  /** So has a call that has not reached its sender, or the sender it waits for. */
  lemma UnsentSteps(s: Sys, token: Token)
    requires !s.cleared && Senders(s) && Unsent(s, token) && StageOk(s, token)
    ensures exists a :: Steps(s, a)
  {
    match s.stage[token]
    case Routing(_) =>
      assert CanBind(s, token, "w");
      assert Steps(s, OfSession(if Binds(s, token, "w") then DoBind(token, "w") else DoRouteFail(token)));
    case Queued(w, _) =>
      assert SenderOk(s, w);
      if s.lanes[w].sender.Idle? {
        assert Steps(s, OfSender(w, DoTakeCall(token)));
      } else {
        SenderSteps(s, w);
      }
    case _ =>
  }

  predicate Ending(s: Sys, conn: Conn) {
    conn in s.closed || conn in s.released
  }

  predicate IsDying(s: Sys, conn: Conn) {
    || (conn in s.readers && (s.readers[conn].Dying? || (s.readers[conn].Running? && Ending(s, conn))))
    || (conn in s.roots && (s.roots[conn].Releasing? || s.roots[conn].Closing?))
  }

  /** And a connection that is dying. */
  lemma DyingSteps(s: Sys, conn: Conn)
    requires !s.cleared && IsDying(s, conn)
    ensures exists a :: Steps(s, a)
  {
    var step :=
      if conn in s.readers && s.readers[conn].Dying? then DoReaderEnd
      else if conn in s.readers && s.readers[conn].Running? && Ending(s, conn) then DoReadFail(false)
      else if s.roots[conn].Releasing? then DoRootsClose
      else DoRootsEnd;
    assert Steps(s, OfConn(conn, step));
  }

  lemma AwakeSteps(s: Sys)
    requires !s.cleared && Senders(s) && Stages(s) && Admissions(s) && !Resting(s)
    ensures exists a :: Steps(s, a)
  {
    if w :| w in s.lanes && !s.lanes[w].sender.Idle? {
      SenderSteps(s, w);
    } else if token :| token in s.stage && !s.stage[token].AtLane? && !s.stage[token].Settled? {
      UnsentSteps(s, token);
    } else if conn :| conn in s.readers && IsDying(s, conn) {
      DyingSteps(s, conn);
    } else if conn :| conn in s.roots && IsDying(s, conn) {
      DyingSteps(s, conn);
    }
  }

  lemma RestHasNoStep(s: Sys, a: Action)
    requires Resting(s)
    ensures !Steps(s, a)
  {
  }

  /** A session is at rest exactly when nobody has a step of their own left. */
  lemma RestIsNoStep(limits: Limits, s: Sys)
    requires Reachable(limits, s) && !s.cleared
    ensures Resting(s) <==> !exists a :: Steps(s, a)
  {
    if Resting(s) {
      forall a ensures !Steps(s, a) {
        RestHasNoStep(s, a);
      }
    } else {
      ReachableIsSafe(limits, s);
      AwakeSteps(s);
    }
  }

  // ----- a weight for what is left to do

  ghost function Pick<K, V>(m: map<K, V>): (k: K)
    requires m != map[]
    ensures k in m
  {
    var k :| k in m;
    k
  }

  ghost function Weight<K(!new), V>(m: map<K, V>, rank: V -> nat): nat {
    if m == map[] then 0 else var k := Pick(m); rank(m[k]) + Weight(m - {k}, rank)
  }

  /** Whichever entry is looked at first. */
  lemma {:induction false} WeightWithout<K(!new), V>(m: map<K, V>, k: K, rank: V -> nat)
    requires k in m
    ensures Weight(m, rank) == rank(m[k]) + Weight(m - {k}, rank)
  {
    var j := Pick(m);
    if j != k {
      WeightWithout(m - {j}, k, rank);
      WeightWithout(m - {k}, j, rank);
      assert m - {j} - {k} == m - {k} - {j};
    }
  }

  lemma WeightUpdate<K(!new), V>(m: map<K, V>, k: K, v: V, rank: V -> nat)
    ensures Weight(m[k := v], rank) == Weight(m, rank) + rank(v) - if k in m then rank(m[k]) else 0
  {
    WeightWithout(m[k := v], k, rank);
    if k in m {
      WeightWithout(m, k, rank);
      assert m[k := v] - {k} == m - {k};
    } else {
      assert m[k := v] - {k} == m;
    }
  }

  function StageRank(stage: Stage): nat {
    match stage
    case Routing(_) => 60
    case Queued(_, _) => 30
    case _ => 0
  }

  /** The attempts a delivery may still make. */
  function Attempts(left: nat): nat {
    if left > 1 then left else 1
  }

  function SenderRank(sender: Sender): nat {
    match sender
    case Idle => 0
    case Attempting(_, left) => 10 * Attempts(left) + 5
    case Writing(_, left, _) => 10 * Attempts(left) + 4
    case Issued(_, left, _, _) => 10 * Attempts(left) + 3
    case Returned(_, left, _, _, _) => 10 * Attempts(left) + 2
    case Failing(_) => 1
  }

  function LaneRank(l: Lane): nat {
    SenderRank(l.sender) + if l.worker.Rest? then 0 else 1
  }

  function ReaderRank(reader: Reader): nat {
    match reader
    case Running => 2
    case Dying => 1
    case Ended => 0
  }

  function RootsRank(roots: RootsWorker): nat {
    match roots
    case Releasing => 2
    case Closing => 1
    case _ => 0
  }

  ghost function Work(s: Sys): nat {
    Weight(s.lanes, LaneRank) + Weight(s.stage, StageRank) + Weight(s.readers, ReaderRank) + Weight(s.roots, RootsRank)
  }

  /** There is less to do, and the session goes on as it did. */
  ghost predicate Eases(s: Sys, s': Sys) {
    Work(s') < Work(s) && s'.over == s.over && s'.cleared == s.cleared
  }

  /** A step that leaves the connections' goroutines alone. */
  lemma Lighter(s: Sys, s': Sys, w: string, token: Token)
    requires s'.readers == s.readers && s'.roots == s.roots && s'.over == s.over && s'.cleared == s.cleared
    requires w in s'.lanes && s'.lanes == s.lanes[w := s'.lanes[w]]
    requires s'.stage == s.stage || (token in s'.stage && s'.stage == s.stage[token := s'.stage[token]])
    requires
      (if token in s.stage then StageRank(s.stage[token]) else 0) + (if w in s.lanes then LaneRank(s.lanes[w]) else 0)
      > (if token in s'.stage then StageRank(s'.stage[token]) else 0) + LaneRank(s'.lanes[w])
    ensures Eases(s, s')
  {
    WeightUpdate(s.lanes, w, s'.lanes[w], LaneRank);
    if s'.stage != s.stage {
      WeightUpdate(s.stage, token, s'.stage[token], StageRank);
    }
  }

  lemma SessionLighter(s: Sys, a: SessionStep)
    requires Steps(s, OfSession(a))
    ensures Eases(s, SessionNext(s, a))
  {
    var s' := SessionNext(s, a);
    WeightUpdate(s.stage, a.token, s'.stage[a.token], StageRank);
    if a.DoBind? && a.w !in s.lanes {
      WeightUpdate(s.lanes, a.w, s'.lanes[a.w], LaneRank);
    }
  }

  lemma TakeLighter(s: Sys, w: string, token: Token)
    requires CanTakeCall(s, w, token)
    ensures Eases(s, TakesCall(s, w, token))
  {
    var s' := TakesCall(s, w, token);
    assert s'.lanes == s.lanes[w := s'.lanes[w]];
    Lighter(s, s', w, token);
  }

  lemma AttemptLighter(s: Sys, w: string, a: SenderStep)
    requires SenderEnabled(s, w, a) && (a.DoDropNote? || a.DoAttemptFail? || a.DoWaste?)
    ensures Eases(s, SenderNext(s, w, a))
  {
    var s' := SenderNext(s, w, a);
    WeightUpdate(s.lanes, w, s'.lanes[w], LaneRank);
  }

  lemma PlacingIs(s: Sys, w: string, conn: Conn)
    requires CanAttempt(s, w)
    ensures var s' := Placing(s, w, conn);
      && s'.readers == s.readers && s'.roots == s.roots && s'.stage == s.stage
      && s'.over == s.over && s'.cleared == s.cleared
      && w in s'.lanes && s'.lanes == s.lanes[w := s'.lanes[w]] && LaneRank(s'.lanes[w]) < LaneRank(s.lanes[w])
  {
  }

  lemma BeginLighter(s: Sys, w: string)
    requires CanBegin(s, w)
    ensures Eases(s, Begins(s, w))
  {
    var s' := Begins(s, w);
    PlacingIs(s, w, s.lanes[w].conn.value);
    WeightUpdate(s.lanes, w, s'.lanes[w], LaneRank);
  }

  lemma BeginFreshLighter(s: Sys, w: string, conn: Conn, written: seq<Entry>)
    requires CanBeginFresh(s, w, conn, written)
    ensures Eases(s, BeginsFresh(s, w, conn, written))
  {
    var s1, s' := Fresh(s, conn, w, written), Placing(Fresh(s, conn, w, written), w, conn);
    PlacingIs(s1, w, conn);
    WeightUpdate(s.lanes, w, s'.lanes[w], LaneRank);
    assert Eases(s, s') && Eases(s, Shut(s', conn));
  }

  lemma WriteLighter(s: Sys, w: string, a: SenderStep)
    requires SenderEnabled(s, w, a) && (a.DoIssue? || a.DoReturn? || a.DoEndTooLarge?)
    ensures Eases(s, SenderNext(s, w, a))
  {
    var s' := SenderNext(s, w, a);
    WeightUpdate(s.lanes, w, s'.lanes[w], LaneRank);
  }

  lemma SettleLighter(stage: map<Token, Stage>, d: Delivery)
    ensures Weight(Settle(stage, d), StageRank) <= Weight(stage, StageRank)
  {
    if d.Call? {
      WeightUpdate(stage, d.token, Settled, StageRank);
    }
  }

  lemma RetryLighter(s: Sys, w: string)
    requires CanRetry(s, w)
    ensures Eases(s, Retrying(s, w))
  {
    var s' := Retrying(s, w);
    WeightUpdate(s.lanes, w, s'.lanes[w], LaneRank);
    SettleLighter(s.stage, s.lanes[w].sender.d);
  }

  lemma FailNoteLighter(s: Sys, w: string)
    requires CanFail(s, w) && s.lanes[w].sender.d.Note?
    ensures Eases(s, Fails(s, w))
  {
    WeightUpdate(s.lanes, w, s.lanes[w].(sender := Idle), LaneRank);
  }

  lemma FailCallLighter(s: Sys, w: string)
    requires CanFail(s, w) && s.lanes[w].sender.d.Call?
    ensures Eases(s, Fails(s, w))
  {
    var s', d := Fails(s, w), s.lanes[w].sender.d;
    assert s'.lanes == s.lanes[w := s.lanes[w].(sender := Idle)];
    assert s'.stage == s.stage[d.token := Settled];
    WeightUpdate(s.lanes, w, s.lanes[w].(sender := Idle), LaneRank);
    WeightUpdate(s.stage, d.token, Settled, StageRank);
  }

  lemma FailLighter(s: Sys, w: string)
    requires CanFail(s, w)
    ensures Eases(s, Fails(s, w))
  {
    if s.lanes[w].sender.d.Note? {
      FailNoteLighter(s, w);
    } else {
      FailCallLighter(s, w);
    }
  }

  /** A connection that is adopted brings its reader, who has two steps to its end. */
  lemma AdoptLighter(s: Sys, w: string, timed: bool)
    requires CanAdopt(s, w)
    ensures Eases(s, Adopts(s, w, timed))
  {
    var s', conn := Adopts(s, w, timed), s.lanes[w].sender.conn;
    WeightUpdate(s.lanes, w, s'.lanes[w], LaneRank);
    SettleLighter(s.stage, s.lanes[w].sender.d);
    if s.lanes[w].conn.None? {
      WeightUpdate(s.readers, conn, Running, ReaderRank);
      WeightUpdate(s.roots, conn, Serving, RootsRank);
    }
  }

  lemma SenderLighter(s: Sys, w: string, a: SenderStep)
    requires SenderEnabled(s, w, a) && !a.DoTakeNote?
    ensures Eases(s, SenderNext(s, w, a))
  {
    match a
    case DoTakeCall(token) => TakeLighter(s, w, token);
    case DoBegin => BeginLighter(s, w);
    case DoBeginFresh(conn, written) => BeginFreshLighter(s, w, conn, written);
    case DoAdopt(timed) => AdoptLighter(s, w, timed);
    case DoRetry => RetryLighter(s, w);
    case DoFail => FailLighter(s, w);
    case _ =>
      if a.DoIssue? || a.DoReturn? || a.DoEndTooLarge? {
        WriteLighter(s, w, a);
      } else {
        AttemptLighter(s, w, a);
      }
  }

  lemma ReaderEndLighter(s: Sys, conn: Conn)
    requires conn in s.readers && s.readers[conn].Dying?
    ensures Eases(s, ReaderEnds(s, conn))
  {
    WeightUpdate(s.readers, conn, Ended, ReaderRank);
  }

  lemma ReadFailLighter(s: Sys, conn: Conn)
    requires CanFailRead(s, conn, false)
    ensures Eases(s, ReadFails(s, conn, false))
  {
    WeightUpdate(s.readers, conn, Dying, ReaderRank);
  }

  lemma RootsLighter(s: Sys, conn: Conn, a: ConnStep)
    requires ConnEnabled(s, conn, a) && (a.DoRootsClose? || a.DoRootsEnd?)
    ensures Eases(s, ConnNext(s, conn, a))
  {
    WeightUpdate(s.roots, conn, if a.DoRootsClose? then Closing else Drained, RootsRank);
  }

  lemma LeaveLighter(s: Sys, w: string)
    requires CanLeave(s, w)
    ensures Eases(s, Leaves(s, w))
  {
    WeightUpdate(s.lanes, w, Leaves(s, w).lanes[w], LaneRank);
  }

  /** Every such step leaves less to do. */
  lemma StepsAreLighter(s: Sys, a: Action)
    requires Steps(s, a)
    ensures Eases(s, Next(s, a))
  {
    match a
    case OfSession(step) => SessionLighter(s, step);
    case OfSender(w, step) => SenderLighter(s, w, step);
    case OfConn(conn, step) =>
      if step.DoReaderEnd? {
        ReaderEndLighter(s, conn);
      } else if step.DoReadFail? {
        ReadFailLighter(s, conn);
      } else {
        RootsLighter(s, conn, step);
      }
    case OfControl(w, step) => LeaveLighter(s, w);
  }

  // ----- coming to rest

  ghost predicate OwnRun(s: Sys, actions: seq<Action>)
    decreases |actions|
  {
    actions == [] || (Steps(s, actions[0]) && OwnRun(Next(s, actions[0]), actions[1..]))
  }

  lemma {:induction false} OwnRunIs(limits: Limits, s: Sys, actions: seq<Action>)
    requires Reachable(limits, s) && !s.cleared && OwnRun(s, actions)
    ensures Run(s, actions).Some? && |actions| + Work(Run(s, actions).value) <= Work(s)
    ensures var s' := Run(s, actions).value; Reachable(limits, s') && !s'.cleared && s'.over == s.over
    decreases |actions|
  {
    if actions != [] {
      StepsAreLighter(s, actions[0]);
      ReachNext(limits, s, actions[0]);
      OwnRunIs(limits, Next(s, actions[0]), actions[1..]);
    }
  }

  /** There is always such a way to rest. */
  lemma CanRest(limits: Limits, s: Sys) returns (actions: seq<Action>)
    requires Reachable(limits, s) && !s.cleared
    ensures OwnRun(s, actions) && Run(s, actions).Some? && Resting(Run(s, actions).value)
    decreases Work(s)
  {
    RestIsNoStep(limits, s);
    actions := [];
    if a :| Steps(s, a) {
      StepsAreLighter(s, a);
      ReachNext(limits, s, a);
      var rest := CanRest(limits, Next(s, a));
      actions := [a] + rest;
      assert actions[1..] == rest;
    }
  }

  /** However its goroutines interleave, a session that nobody sends anything comes
      to rest within a number of steps known beforehand, and then every call still
      owed waits for the answer of a live upstream. */
  lemma ComesToRest(limits: Limits, s: Sys, actions: seq<Action>, token: Token)
    requires Reachable(limits, s) && !s.cleared && OwnRun(s, actions)
    ensures Run(s, actions).Some? && |actions| <= Work(s)
    ensures var s' := Run(s, actions).value;
      && (Resting(s') <==> !exists a :: Steps(s', a))
      && (|actions| == Work(s) ==> Resting(s'))
      && (Resting(s') && !s.over && token in s'.ids && Outstanding(s', token) ==>
            var owner := s'.t.awaiting[s'.ids[token]];
            owner.conn.Some? && owner.conn.value in s'.readers && s'.readers[owner.conn.value].Running?)
  {
    OwnRunIs(limits, s, actions);
    var s' := Run(s, actions).value;
    RestIsNoStep(limits, s');
    if a :| Steps(s', a) {
      StepsAreLighter(s', a);
    }
    if Resting(s') && !s.over && token in s'.ids && Outstanding(s', token) {
      RestWaitsForAnswers(limits, s', token);
    }
  }
}

/** What a step does to the lanes, the timers and the advice, for every step: what it
    adds, what it takes away, and that it leaves the rest alone. */
module ProtocolEffects {
  import opened Options
  import opened Tracker
  import TrackerAnswers
  import opened Protocol
  import opened ProtocolInvariant
  import opened ProtocolTheorems
  import opened ProtocolFates

  // ----- what each step touches

  /** Of the lanes only the sender of one and its connection may have changed. */
  ghost predicate OnlySender(s: Sys, s': Sys, w: string) {
    w in s.lanes && w in s'.lanes && s'.timers == s.timers
    && s'.lanes == s.lanes[w := s.lanes[w].(conn := s'.lanes[w].conn, sender := s'.lanes[w].sender)]
  }

  ghost predicate NoLane(s: Sys, s': Sys) {
    s'.lanes == s.lanes && s'.timers == s.timers
  }

  lemma TakesOnlySender(s: Sys, w: string, token: Token)
    requires CanTakeCall(s, w, token)
    ensures OnlySender(s, TakesCall(s, w, token), w)
  {
    assert s.lanes[w := s.lanes[w]] == s.lanes;
  }

  lemma FailsAttemptOnlySender(s: Sys, w: string, stop: bool)
    requires CanAttempt(s, w)
    ensures OnlySender(s, AttemptFails(s, w, stop), w)
  {
  }

  lemma WastesOnlySender(s: Sys, w: string, conn: Conn, written: seq<Entry>, stop: bool)
    requires CanWaste(s, w, conn, written)
    ensures OnlySender(s, Wastes(s, w, conn, written, stop), w)
  {
    FailsAttemptOnlySender(Shut(Fresh(s, conn, w, written), conn), w, stop);
  }

  lemma PlacingOnlySender(s: Sys, w: string, conn: Conn)
    requires CanAttempt(s, w)
    ensures OnlySender(s, Placing(s, w, conn), w)
  {
  }

  lemma BeginsOnlySender(s: Sys, w: string, conn: Conn, written: seq<Entry>)
    requires CanBeginFresh(s, w, conn, written)
    ensures OnlySender(s, BeginsFresh(s, w, conn, written), w)
  {
    var s' := Placing(Fresh(s, conn, w, written), w, conn);
    PlacingOnlySender(Fresh(s, conn, w, written), w, conn);
    assert OnlySender(s, s', w) && OnlySender(s, Shut(s', conn), w);
  }

  lemma WritesOnlySender(s: Sys, w: string, a: SenderStep)
    requires SenderEnabled(s, w, a) && (a.DoIssue? || a.DoReturn? || a.DoEndTooLarge? || a.DoRetry?)
    ensures OnlySender(s, SenderNext(s, w, a), w)
  {
  }

  lemma FailsNoteOnly(s: Sys, w: string)
    requires CanFail(s, w) && s.lanes[w].sender.d.Note?
    ensures OnlySender(s, Fails(s, w), w)
  {
  }

  lemma FailsCallOnly(s: Sys, w: string)
    requires CanFail(s, w) && s.lanes[w].sender.d.Call?
    ensures OnlySender(s, Fails(s, w), w)
  {
  }

  lemma SenderOnly(s: Sys, w: string, a: SenderStep)
    requires SenderEnabled(s, w, a) && !a.DoAdopt?
    ensures OnlySender(s, SenderNext(s, w, a), w)
  {
    match a
    case DoTakeCall(token) => TakesOnlySender(s, w, token);
    case DoTakeNote(initial) =>
    case DoDropNote =>
    case DoAttemptFail(stop) => FailsAttemptOnlySender(s, w, stop);
    case DoWaste(conn, written, stop) => WastesOnlySender(s, w, conn, written, stop);
    case DoBegin => PlacingOnlySender(s, w, s.lanes[w].conn.value);
    case DoBeginFresh(conn, written) => BeginsOnlySender(s, w, conn, written);
    case DoFail =>
      if s.lanes[w].sender.d.Note? {
        FailsNoteOnly(s, w);
      } else {
        FailsCallOnly(s, w);
      }
    case _ => WritesOnlySender(s, w, a);
  }

  lemma ReadFailNoLane(s: Sys, conn: Conn, closes: bool)
    requires CanFailRead(s, conn, closes)
    ensures NoLane(s, ReadFails(s, conn, closes))
  {
  }

  lemma ConnNoLane(s: Sys, conn: Conn, a: ConnStep)
    requires ConnEnabled(s, conn, a)
    ensures NoLane(s, ConnNext(s, conn, a))
  {
    match a
    case DoReadFail(closes) => ReadFailNoLane(s, conn, closes);
    case DoReadReply(at) => assert NoLane(s, ReadsReply(s, conn, at));
    case DoReaderEnd => assert NoLane(s, Strand(s, conn));
    case DoRootsEnd => assert NoLane(s, Strand(s, conn));
    case _ =>
  }

  /** The advice a claim puts in a lane's queue. */
  function Told(id: Id, owner: Owed): Control
    requires owner.conn.Some?
  {
    Control(owner.conn.value, id, owner.token)
  }

  lemma AdviseQueues(s: Sys, id: Id, owner: Owed)
    requires owner.conn.Some? && owner.worktree in s.lanes
    ensures var s', l := Advise(s, id, owner, true), s.lanes[owner.worktree];
      s'.lanes == s.lanes[owner.worktree := l.(controls := l.controls + {Told(id, owner)})] && s'.timers == s.timers
  {
  }

  lemma AdviseDrops(s: Sys, id: Id, owner: Owed, kept: bool)
    requires owner.conn.None? || !kept || owner.worktree !in s.lanes
    ensures Advise(s, id, owner, kept) == s
  {
  }

  lemma AdviseAdds(s: Sys, id: Id, owner: Owed, kept: bool, w: string, c: Control)
    requires w in s.lanes
    ensures var s' := Advise(s, id, owner, kept);
      && s'.lanes.Keys == s.lanes.Keys && s'.timers == s.timers
      && (c in s'.lanes[w].controls <==>
            c in s.lanes[w].controls || (kept && owner.conn.Some? && owner.worktree == w && c == Told(id, owner)))
  {
    if owner.conn.Some? && kept && owner.worktree in s.lanes {
      AdviseQueues(s, id, owner);
    } else {
      AdviseDrops(s, id, owner, kept);
    }
  }

  lemma AdviseKeeps(s: Sys, id: Id, owner: Owed, kept: bool)
    ensures Advise(s, id, owner, kept).lanes.Keys == s.lanes.Keys && Advise(s, id, owner, kept).timers == s.timers
  {
    if owner.conn.Some? && kept && owner.worktree in s.lanes {
      AdviseQueues(s, id, owner);
    } else {
      AdviseDrops(s, id, owner, kept);
    }
  }

  lemma BindAdds(s: Sys, token: Token, w: string)
    requires CanBind(s, token, w)
    ensures var s' := Binding(s, token, w);
      && s'.timers == s.timers
      && s'.lanes == if Bind(s.t, s.ids[token], token, w, s.lanes.Keys).1.Granted? && w !in s.lanes
                     then s.lanes[w := Lane(None, Idle, Rest, {})] else s.lanes
  {
  }

  lemma AdmitNoLane(s: Sys, id: Id, initial: bool)
    ensures NoLane(s, Admitting(s, id, initial))
  {
  }

  lemma RouteFailNoLane(s: Sys, token: Token)
    requires Unsent(s, token)
    ensures NoLane(s, RouteFails(s, token))
  {
  }

  lemma ForwardNoLane(s: Sys, token: Token, fate: Fate)
    requires CanForward(s, token, fate)
    ensures NoLane(s, Forwards(s, token, fate))
  {
  }

  lemma SessionNoLane(s: Sys, a: SessionStep)
    requires SessionEnabled(s, a) && !a.DoBind? && !a.DoCancel? && !a.DoExpire?
    ensures NoLane(s, SessionNext(s, a))
  {
    match a
    case DoAdmit(id, initial) => AdmitNoLane(s, id, initial);
    case DoRouteFail(token) => RouteFailNoLane(s, token);
    case DoForward(token, fate) => ForwardNoLane(s, token, fate);
    case DoSkip(token) =>
    case DoEnd =>
    case DoClear =>
  }

  lemma CancelKeeps(s: Sys, id: Id, kept: bool)
    ensures Cancels(s, id, kept).lanes.Keys == s.lanes.Keys && Cancels(s, id, kept).timers == s.timers
  {
    if id in s.t.awaiting {
      AdviseKeeps(Claim(s, id, None, None, Cancelled), id, s.t.awaiting[id], kept);
    }
  }

  lemma ExpireKeeps(s: Sys, token: Token, kept: bool)
    requires token in s.timers && token in s.ids
    ensures Expires(s, token, kept).lanes.Keys == s.lanes.Keys && Expires(s, token, kept).timers == s.timers - {token}
  {
    var id, s1 := s.ids[token], s.(timers := s.timers - {token});
    if Owns(s.t, id, Some(token)) {
      AdviseKeeps(Claim(s1, id, None, Some(token), Expired), id, s.t.awaiting[id], kept);
    }
  }

  lemma ControlKeeps(s: Sys, w: string, a: ControlStep)
    requires ControlEnabled(s, w, a)
    ensures ControlNext(s, w, a).lanes.Keys == s.lanes.Keys && ControlNext(s, w, a).timers == s.timers
  {
  }

  // ----- lanes

  lemma SessionLanes(s: Sys, a: SessionStep)
    requires SessionEnabled(s, a) && !a.DoBind?
    ensures SessionNext(s, a).lanes.Keys == s.lanes.Keys
  {
    match a
    case DoCancel(id, kept) => CancelKeeps(s, id, kept);
    case DoExpire(token, kept) => ExpireKeeps(s, token, kept);
    case _ => SessionNoLane(s, a);
  }

  lemma SenderLanes(s: Sys, w: string, a: SenderStep)
    requires SenderEnabled(s, w, a)
    ensures SenderNext(s, w, a).lanes.Keys == s.lanes.Keys
  {
    if !a.DoAdopt? {
      SenderOnly(s, w, a);
    }
  }

  lemma NextLanes(s: Sys, a: Action)
    requires Enabled(s, a) && !(a.OfSession? && a.session.DoBind?)
    ensures Next(s, a).lanes.Keys == s.lanes.Keys
  {
    match a
    case OfSession(step) => SessionLanes(s, step);
    case OfSender(w, step) => SenderLanes(s, w, step);
    case OfConn(conn, step) => ConnNoLane(s, conn, step);
    case OfControl(w, step) => ControlKeeps(s, w, step);
  }

  ghost predicate LanesFit(s: Sys) {
    s.t.limits.lanes > 0 ==> |s.lanes| <= s.t.limits.lanes
  }

  lemma BindFits(s: Sys, token: Token, w: string)
    requires CanBind(s, token, w) && LanesFit(s) && Tracker.Balanced(s.t)
    ensures LanesFit(Binding(s, token, w))
  {
    BindAdds(s, token, w);
    TrackerAnswers.BindAnswers(s.t, s.ids[token], token, w, s.lanes.Keys);
    assert |s.lanes.Keys| == |s.lanes|;
    assert Binding(s, token, w).t.limits == s.t.limits;
  }

  lemma SameLanes(s: Sys, s': Sys)
    requires s'.lanes.Keys == s.lanes.Keys
    ensures |s'.lanes| == |s.lanes|
  {
    assert |s'.lanes.Keys| == |s'.lanes| && |s.lanes.Keys| == |s.lanes|;
  }

  lemma NextFits(s: Sys, a: Action, limits: Limits)
    requires Enabled(s, a) && LanesFit(s) && Safe(s, limits)
    ensures LanesFit(Next(s, a))
  {
    NextIsSafe(s, a, limits);
    if a.OfSession? && a.session.DoBind? {
      BindFits(s, a.session.token, a.session.w);
    } else {
      NextLanes(s, a);
      SameLanes(s, Next(s, a));
    }
  }

  lemma {:induction false} RunFits(s: Sys, actions: seq<Action>, limits: Limits)
    requires LanesFit(s) && Safe(s, limits) && Run(s, actions).Some?
    ensures LanesFit(Run(s, actions).value)
    decreases |actions|
  {
    if actions != [] {
      NextFits(s, actions[0], limits);
      NextIsSafe(s, actions[0], limits);
      RunFits(Next(s, actions[0]), actions[1..], limits);
    }
  }

  /** In every reachable state there are no more lanes than the session may have. */
  lemma LanesWithinLimit(limits: Limits, s: Sys)
    requires Reachable(limits, s)
    ensures limits.lanes > 0 ==> |s.lanes| <= limits.lanes
  {
    var actions :| Run(Start(limits), actions) == Some(s);
    StartIsSafe(limits);
    RunFits(Start(limits), actions, limits);
    ReachableIsSafe(limits, s);
  }

  // ----- timers

  lemma AdoptTimers(s: Sys, w: string, timed: bool, token: Token)
    requires CanAdopt(s, w) && SenderOk(s, w)
    ensures token in Adopts(s, w, timed).timers <==>
      token in s.timers || (timed && CarriedAt(s, w, token) && Outstanding(s, token))
  {
  }

  lemma SessionTimers(s: Sys, a: SessionStep)
    requires SessionEnabled(s, a)
    ensures SessionNext(s, a).timers == s.timers - if a.DoExpire? then {a.token} else {}
  {
    match a
    case DoBind(token, w) => BindAdds(s, token, w);
    case DoCancel(id, kept) => CancelKeeps(s, id, kept);
    case DoExpire(token, kept) => ExpireKeeps(s, token, kept);
    case _ => SessionNoLane(s, a);
  }

  lemma SenderTimers(s: Sys, w: string, a: SenderStep, token: Token)
    requires SenderEnabled(s, w, a) && SenderOk(s, w)
    ensures token in SenderNext(s, w, a).timers <==>
      token in s.timers || (a == DoAdopt(true) && CarriedAt(s, w, token) && Outstanding(s, token))
  {
    if a.DoAdopt? {
      AdoptTimers(s, w, a.timed, token);
    } else {
      SenderOnly(s, w, a);
    }
  }

  lemma NextTimers(s: Sys, a: Action, token: Token)
    requires Senders(s) && Enabled(s, a)
    ensures token in Next(s, a).timers <==>
      || (token in s.timers && !(a.OfSession? && a.session.DoExpire? && a.session.token == token))
      || (a.OfSender? && a.sender == DoAdopt(true) && CarriedAt(s, a.w, token) && Outstanding(s, token))
  {
    match a
    case OfSession(step) => SessionTimers(s, step);
    case OfSender(w, step) =>
      assert SenderOk(s, w);
      SenderTimers(s, w, step, token);
    case OfConn(conn, step) => ConnNoLane(s, conn, step);
    case OfControl(w, step) => ControlKeeps(s, w, step);
  }

  /** In every reachable state: a timer is armed exactly when a sender adopts the
      write of a call that is still owed, and is gone exactly when it fires. */
  lemma TimersAre(limits: Limits, s: Sys, a: Action, token: Token)
    requires Reachable(limits, s) && !s.cleared && Enabled(s, a)
    ensures token in Next(s, a).timers <==>
      || (token in s.timers && !(a.OfSession? && a.session.DoExpire? && a.session.token == token))
      || (a.OfSender? && a.sender == DoAdopt(true) && CarriedAt(s, a.w, token) && Outstanding(s, token))
  {
    ReachableIsSafe(limits, s);
    NextTimers(s, a, token);
  }

  // ----- advice

  /** The step takes this call from the connection it is placed on, and its notice
      is kept. */
  predicate Notifies(s: Sys, a: Action, w: string, c: Control) {
    && (a == OfSession(DoCancel(c.id, true)) || a == OfSession(DoExpire(c.token, true)))
    && c.token in s.ids && s.ids[c.token] == c.id && Outstanding(s, c.token)
    && s.t.awaiting[c.id].conn == Some(c.conn) && s.t.awaiting[c.id].worktree == w
  }

  lemma CancelNotifies(s: Sys, id: Id, kept: bool, w: string, c: Control)
    requires Tokens(s) && w in s.lanes
    ensures w in Cancels(s, id, kept).lanes
    ensures c in Cancels(s, id, kept).lanes[w].controls <==>
      c in s.lanes[w].controls || Notifies(s, OfSession(DoCancel(id, kept)), w, c)
  {
    if id in s.t.awaiting {
      AdviseAdds(Claim(s, id, None, None, Cancelled), id, s.t.awaiting[id], kept, w, c);
    }
  }

  lemma ExpireNotifies(s: Sys, token: Token, kept: bool, w: string, c: Control)
    requires Tokens(s) && w in s.lanes && token in s.timers && token in s.ids
    ensures w in Expires(s, token, kept).lanes
    ensures c in Expires(s, token, kept).lanes[w].controls <==>
      c in s.lanes[w].controls || Notifies(s, OfSession(DoExpire(token, kept)), w, c)
  {
    var id, s1 := s.ids[token], s.(timers := s.timers - {token});
    if Owns(s.t, id, Some(token)) {
      AdviseAdds(Claim(s1, id, None, Some(token), Expired), id, s.t.awaiting[id], kept, w, c);
    }
  }

  lemma SessionNotifies(s: Sys, a: SessionStep, w: string, c: Control)
    requires Tokens(s) && w in s.lanes && SessionEnabled(s, a)
    ensures w in SessionNext(s, a).lanes
    ensures c in SessionNext(s, a).lanes[w].controls <==>
      c in s.lanes[w].controls || Notifies(s, OfSession(a), w, c)
  {
    match a
    case DoBind(token, v) => BindAdds(s, token, v);
    case DoCancel(id, kept) => CancelNotifies(s, id, kept, w, c);
    case DoExpire(token, kept) => ExpireNotifies(s, token, kept, w, c);
    case _ => SessionNoLane(s, a);
  }

  lemma SenderNotifies(s: Sys, w: string, a: SenderStep, v: string)
    requires SenderEnabled(s, w, a) && v in s.lanes
    ensures v in SenderNext(s, w, a).lanes && SenderNext(s, w, a).lanes[v].controls == s.lanes[v].controls
  {
    if !a.DoAdopt? {
      SenderOnly(s, w, a);
    }
  }

  lemma ControlNotifies(s: Sys, v: string, a: ControlStep, w: string, c: Control)
    requires ControlEnabled(s, v, a) && w in s.lanes
    ensures w in ControlNext(s, v, a).lanes
    ensures c in ControlNext(s, v, a).lanes[w].controls <==>
      c in s.lanes[w].controls && !(v == w && (a == DoDiscard(c) || a == DoEnter(c)))
  {
  }

  lemma NextNotifies(s: Sys, a: Action, w: string, c: Control)
    requires Tokens(s) && Enabled(s, a) && w in s.lanes
    ensures w in Next(s, a).lanes
    ensures c in Next(s, a).lanes[w].controls <==>
      || (c in s.lanes[w].controls && a != OfControl(w, DoDiscard(c)) && a != OfControl(w, DoEnter(c)))
      || Notifies(s, a, w, c)
  {
    match a
    case OfSession(step) => SessionNotifies(s, step, w, c);
    case OfSender(v, step) => SenderNotifies(s, v, step, w);
    case OfConn(conn, step) => ConnNoLane(s, conn, step);
    case OfControl(v, step) => ControlNotifies(s, v, step, w, c);
  }

  /** In every reachable state: advice is queued in a lane exactly for the placed
      call that a cancellation or a timer takes, for its connection, its id and
      its generation, and stays until the lane's worker takes it up or drops it. */
  lemma AdviceIsFor(limits: Limits, s: Sys, a: Action, w: string, c: Control)
    requires Reachable(limits, s) && !s.cleared && Enabled(s, a) && w in s.lanes
    ensures w in Next(s, a).lanes
    ensures c in Next(s, a).lanes[w].controls <==>
      || (c in s.lanes[w].controls && a != OfControl(w, DoDiscard(c)) && a != OfControl(w, DoEnter(c)))
      || Notifies(s, a, w, c)
  {
    ReachableIsSafe(limits, s);
    LiveTokens(limits, s);
    NextNotifies(s, a, w, c);
  }

  /** The worker goes on with it exactly when no call placed later runs under its
      connection and id. */
  lemma WorkerChecks(s: Sys, w: string, c: Control)
    requires CanEnter(s, w, c)
    ensures var s', key := Enters(s, w, c), Key(c.conn, c.id);
      && (s'.lanes[w].worker == Checked(c) <==> (key in s.t.operations ==> s.t.operations[key].token == c.token))
      && (s'.lanes[w].worker.Rest? <==> key in s.t.operations && s.t.operations[key].token != c.token)
  {
  }

  // ----- a connection and its two goroutines

  /** What closing a connection, a failed read, a failed reply and the end of a reader
      make of the connection: and of no other. */
  ghost predicate OnlyConn(s: Sys, s': Sys, conn: Conn) {
    && s'.readers == (if conn in s'.readers then s.readers[conn := s'.readers[conn]] else s.readers)
    && s'.roots == (if conn in s'.roots then s.roots[conn := s'.roots[conn]] else s.roots)
    && (conn in s.readers <==> conn in s'.readers) && (conn in s.roots <==> conn in s'.roots)
    && s.closed <= s'.closed <= s.closed + {conn} && s.released <= s'.released <= s.released + {conn}
  }

  lemma ReadFailMeans(s: Sys, conn: Conn, closes: bool)
    requires CanFailRead(s, conn, closes)
    ensures var s' := ReadFails(s, conn, closes);
      && OnlyConn(s, s', conn) && s'.readers[conn].Dying?
      && (closes ==> conn in s'.closed && conn in s'.released)
      && (!closes ==> s'.closed == s.closed && s'.released == s.released)
      && s'.roots == s.roots
  {
  }

  /** The roots worker lets go of the connection first, so that the reader's read
      fails, then closes it, then fails its calls. */
  lemma RootsMean(s: Sys, conn: Conn, a: ConnStep)
    requires ConnEnabled(s, conn, a) && (a.DoRootsFail? || a.DoRootsClose? || a.DoRootsEnd?)
    ensures var s' := ConnNext(s, conn, a);
      && OnlyConn(s, s', conn) && s'.readers == s.readers
      && (a.DoRootsFail? ==> s'.roots[conn].Releasing? && conn in s'.released && s'.closed == s.closed)
      && (a.DoRootsClose? ==> s'.roots[conn].Closing? && conn in s'.closed)
      && (a.DoRootsEnd? ==>
            s'.roots[conn].Drained? && forall id :: id in s'.t.awaiting ==> s'.t.awaiting[id].conn != Some(conn))
  {
    if a.DoRootsEnd? {
      TrackerAnswers.FailInFlightAnswers(s.t, conn);
    }
  }

  /** A reader that ends leaves its connection no call. */
  lemma ReaderEndMeans(s: Sys, conn: Conn)
    requires conn in s.readers && s.readers[conn].Dying?
    ensures var s' := ReaderEnds(s, conn);
      && OnlyConn(s, s', conn) && s'.readers[conn].Ended? && s'.roots == s.roots
      && forall id :: id in s'.t.awaiting ==> s'.t.awaiting[id].conn != Some(conn)
  {
    TrackerAnswers.FailInFlightAnswers(s.t, conn);
  }
}

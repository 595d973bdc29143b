/** What holds of every run of a session, from its empty start. */
module ProtocolTheorems {
  import opened Options
  import opened Tracker
  import opened Protocol
  import opened ProtocolInvariant
  import opened ProtocolRuns
  import opened ProtocolAnswers
  import opened ProtocolBooks

  // ----- the session cleared

  /** After the tracker is cleared nothing is owed. */
  ghost predicate Emptied(s: Sys) {
    && s.t.awaiting == map[] && s.t.operations == map[]
    && (forall k :: k in s.status ==> !s.status[k].Owing?)
    && (forall k: Token :: k < s.t.nextToken ==> k in s.status && k in s.ids)
  }

  ghost predicate Safe(s: Sys, limits: Limits) {
    && Answers(s) && Balanced(s.t) && s.t.limits == limits && Causes(s) && Wires(s)
    && if s.cleared then Emptied(s) else Inv(s)
  }

  lemma ClearKeepsWires(s: Sys)
    requires s.over && Wires(s)
    ensures Wires(Clears(s))
  {
    var s' := Clears(s);
    forall c | c in s'.laneOf ensures ConnOk(s', c) {
      assert ConnOk(s, c);
    }
  }

  lemma ClearKeepsCauses(s: Sys)
    requires s.over && Causes(s)
    ensures Causes(Clears(s))
  {
    var s' := Clears(s);
    forall k | k in s'.ids ensures CauseOk(s', k) {
      assert CauseOk(s, k);
    }
  }

  lemma ClearEmpties(s: Sys)
    requires s.over && Admissions(s)
    ensures Emptied(Clears(s))
  {
    var s' := Clears(s);
    assert s'.t.awaiting == map[];
    forall k: Token | k < s'.t.nextToken ensures k in s'.status && k in s'.ids {
      assert k in s.ids && TokenOk(s, k);
    }
  }

  lemma ClearIsSafe(s: Sys, limits: Limits)
    requires Safe(s, limits) && !s.cleared && s.over
    ensures Safe(Clears(s), limits)
  {
    ClearKeepsAnswers(s);
    ClearEmpties(s);
    ClearKeepsBalance(s.t);
    ClearKeepsWires(s);
    ClearKeepsCauses(s);
  }

  lemma LateForwardKeepsRest(s: Sys, token: Token, fate: Fate)
    requires CanForward(s, token, fate) && Wires(s) && Causes(s) && Emptied(s)
    ensures var s' := Forwards(s, token, fate); Wires(s') && Causes(s') && Emptied(s')
  {
    var s' := Forwards(s, token, fate);
    forall c | c in s'.laneOf ensures ConnOk(s', c) {
      assert ConnOk(s, c);
    }
    forall k | k in s'.ids ensures CauseOk(s', k) {
      assert CauseOk(s, k);
    }
  }

  lemma LateIsSafe(s: Sys, token: Token, fate: Fate, limits: Limits)
    requires Safe(s, limits) && s.cleared && CanForward(s, token, fate)
    ensures Safe(Forwards(s, token, fate), limits)
  {
    ForwardKeepsAnswers(s, token, fate);
    ForwardTables(s, token, fate);
    LateForwardKeepsRest(s, token, fate);
  }

  /** A step of a session that is not cleared, and does not clear it. */
  lemma LiveIsSafe(s: Sys, a: Action, limits: Limits)
    requires !s.cleared && Enabled(s, a) && a != OfSession(DoClear)
    requires Answers(s) && Balanced(s.t) && s.t.limits == limits && Inv(s)
    ensures Answers(Next(s, a)) && Balanced(Next(s, a).t) && Next(s, a).t.limits == limits
    ensures Inv(Next(s, a)) && !Next(s, a).cleared
  {
    NextKeepsAnswers(s, a);
    NextKeepsBooks(s, a);
    NextKeepsInv(s, a);
  }

  lemma NextIsSafe(s: Sys, a: Action, limits: Limits)
    requires Safe(s, limits) && Enabled(s, a)
    ensures Safe(Next(s, a), limits)
  {
    if s.cleared {
      LateIsSafe(s, a.session.token, a.session.fate, limits);
    } else if a == OfSession(DoClear) {
      ClearIsSafe(s, limits);
    } else {
      LiveIsSafe(s, a, limits);
    }
  }

  lemma StartInv(limits: Limits)
    ensures Inv(Start(limits)) && Answers(Start(limits)) && !Start(limits).cleared
  {
    var s := Start(limits);
    assert s.t == Empty(limits) && s.t.nextToken == 0;
    assert Admissions(s) && Stages(s) && Causes(s) && Books(s);
    assert Wires(s) && Entries(s) && Lanes(s) && Senders(s) && Fences(s) && Covers(s);
  }

  lemma StartIsSafe(limits: Limits)
    requires limits.session >= 0 && limits.perLane >= 0
    ensures Safe(Start(limits), limits)
  {
    EmptyIsBalanced(limits);
    StartInv(limits);
  }

  lemma {:induction false} RunIsSafe(s: Sys, actions: seq<Action>, limits: Limits)
    requires Safe(s, limits)
    ensures Run(s, actions).Some? ==> Safe(Run(s, actions).value, limits)
    decreases |actions|
  {
    if actions != [] && Enabled(s, actions[0]) {
      NextIsSafe(s, actions[0], limits);
      RunIsSafe(Next(s, actions[0]), actions[1..], limits);
    }
  }

  ghost predicate Reachable(limits: Limits, s: Sys) {
    limits.session >= 0 && limits.perLane >= 0 && exists actions :: Run(Start(limits), actions) == Some(s)
  }

  lemma ReachableIsSafe(limits: Limits, s: Sys)
    requires Reachable(limits, s)
    ensures Safe(s, limits)
  {
    var actions :| Run(Start(limits), actions) == Some(s);
    StartIsSafe(limits);
    RunIsSafe(Start(limits), actions, limits);
  }

  lemma {:induction false} RunOneMore(s: Sys, actions: seq<Action>, a: Action)
    requires Run(s, actions).Some? && Enabled(Run(s, actions).value, a)
    ensures Run(s, actions + [a]) == Some(Next(Run(s, actions).value, a))
    decreases |actions|
  {
    if actions == [] {
      assert actions + [a] == [a];
      assert [a][1..] == [];
    } else {
      assert (actions + [a])[1..] == actions[1..] + [a];
      RunOneMore(Next(s, actions[0]), actions[1..], a);
    }
  }

  lemma ReachNext(limits: Limits, s: Sys, a: Action)
    requires Reachable(limits, s) && Enabled(s, a)
    ensures Reachable(limits, Next(s, a))
  {
    var actions :| Run(Start(limits), actions) == Some(s);
    RunOneMore(Start(limits), actions, a);
  }

  // ----- exactly one terminal answer

  /** Every admission ever made is owed in the table, or taken by one party that
      has yet to forward its answer, or was answered exactly once, or went down
      with the session; once the session is cleared none is owed. */
  lemma AnsweredOnce(limits: Limits, s: Sys, token: Token)
    requires Reachable(limits, s) && token < s.t.nextToken
    ensures token in s.status && token in s.ids && Distinct(s.out)
    ensures token in s.out <==> s.status[token].Done?
    ensures !s.cleared ==> (s.status[token].Owing? <==> Outstanding(s, token))
    ensures s.cleared ==> !s.status[token].Owing?
    ensures s.status[token].Lost? ==> s.over
  {
    ReachableIsSafe(limits, s);
    if !s.cleared {
      assert TokenOk(s, token);
    }
  }

  /** What may have become of an admission some steps later: an answered one
      stays answered, for the same cause, and nothing is owed again. */
  predicate Leads(before: Status, after: Status) {
    match before
    case Owing => true
    case Taken(cause) => after == Taken(cause) || after == Done(cause) || after.Lost?
    case Done(cause) => after == Done(cause)
    case Lost => after.Lost?
  }

  lemma StepStays(s: Sys, a: Action, limits: Limits, token: Token)
    requires Safe(s, limits) && token in s.status && Enabled(s, a)
    ensures var s' := Next(s, a);
      && Safe(s', limits) && token in s'.status && Advances(s.status[token], s'.status[token]) && s.out <= s'.out
  {
    NextIsSafe(s, a, limits);
    NextKeepsAnswers(s, a);
  }

  lemma {:induction false} AnswersStay(s: Sys, actions: seq<Action>, limits: Limits, token: Token)
    requires Safe(s, limits) && token in s.status && Run(s, actions).Some?
    ensures var s' := Run(s, actions).value;
      token in s'.status && Leads(s.status[token], s'.status[token]) && s.out <= s'.out
    decreases |actions|
  {
    if actions != [] {
      StepStays(s, actions[0], limits, token);
      AnswersStay(Next(s, actions[0]), actions[1..], limits, token);
    }
  }

  /** In every run: a token is never sent a second answer, and a stale one is
      never revived. */
  lemma NeverTwice(limits: Limits, before: seq<Action>, after: seq<Action>, token: Token)
    requires limits.session >= 0 && limits.perLane >= 0
    requires Run(Start(limits), before).Some? && Run(Run(Start(limits), before).value, after).Some?
    requires token in Run(Start(limits), before).value.out
    ensures var s, s' := Run(Start(limits), before).value, Run(Run(Start(limits), before).value, after).value;
      && token in s.status && token in s'.status && s'.status[token] == s.status[token]
      && Distinct(s'.out) && s.out <= s'.out && token in s'.out
  {
    StartIsSafe(limits);
    RunIsSafe(Start(limits), before, limits);
    var s := Run(Start(limits), before).value;
    AnswersStay(s, after, limits, token);
    RunIsSafe(s, after, limits);
  }

  // ----- reply attribution

  /** An admission answered by a reply was answered by the reply to its own
      write, and no two by the same one. */
  lemma AnsweredByOwnReply(limits: Limits, s: Sys, token: Token, other: Token)
    requires Reachable(limits, s) && token < s.t.nextToken && other < s.t.nextToken
    requires token in s.status && s.status[token].Done? && s.status[token].cause.Answer?
    ensures var cause := s.status[token].cause;
      && cause.conn in s.wire && cause.at < |s.wire[cause.conn]|
      && s.wire[cause.conn][cause.at].token == Some(token) && s.wire[cause.conn][cause.at].answered
    ensures other in s.status && s.status[other] == s.status[token] ==> other == token
  {
    ReachableIsSafe(limits, s);
    AnsweredOnce(limits, s, token);
    AnsweredOnce(limits, s, other);
    assert CauseOk(s, token) && CauseOk(s, other);
  }

  /** In every reachable state, a reply that may be read next is the answer to
      the only unresolved operation under its connection and id, and reading it
      takes that admission or nobody. */
  lemma RepliesFindTheirOwn(limits: Limits, s: Sys, conn: Conn, at: nat)
    requires Reachable(limits, s) && Enabled(s, OfConn(conn, DoReadReply(at)))
    ensures s.wire[conn][at].token.Some? && s.wire[conn][at].token.value in s.ids
    ensures var token := s.wire[conn][at].token.value;
      && Key(conn, s.ids[token]) in s.t.operations && s.t.operations[Key(conn, s.ids[token])].token == token
      && ReadsReply(s, conn, at).status ==
           if Outstanding(s, token) && s.t.awaiting[s.ids[token]].conn == Some(conn)
           then s.status[token := Taken(Answer(conn, at))] else s.status
  {
    ReachableIsSafe(limits, s);
    ReplyAttribution(s, conn, at);
    ReplyNames(s, conn, at);
  }

  // ----- no stranded call

  /** A settled delivery is in no sender's hands. */
  lemma SettledIsLeft(s: Sys, w: string, token: Token)
    requires Senders(s) && token in s.stage && s.stage[token].Settled?
    ensures !InAttempt(s, w, token)
  {
    assert w in s.lanes ==> SenderOk(s, w);
  }

  /** Somebody is still responsible for every call that is owed. */
  lemma NoStrandedCall(limits: Limits, s: Sys, token: Token)
    requires Reachable(limits, s) && !s.cleared && token in s.ids && Outstanding(s, token)
    ensures token in s.stage
    ensures match s.stage[token]
      case Routing(_) => true
      case Queued(w, _) => w in s.lanes
      case AtLane(w) => w in s.lanes && Carries(s.lanes[w].sender, token)
      case Settled =>
        s.over || (s.t.awaiting[s.ids[token]].conn.Some? && Covered(s, s.t.awaiting[s.ids[token]].conn.value))
  {
    ReachableIsSafe(limits, s);
    if token in s.stage && s.stage[token].Settled? {
      SettledIsLeft(s, s.t.awaiting[s.ids[token]].worktree, token);
    }
    assert StageOk(s, token) && CoverOk(s, s.ids[token]);
  }

  /** Nobody has a step of their own left to take. */
  ghost predicate Resting(s: Sys) {
    && (forall w :: w in s.lanes ==> s.lanes[w].sender.Idle?)
    && (forall token :: token in s.stage ==> s.stage[token].AtLane? || s.stage[token].Settled?)
    && (forall conn :: conn in s.readers ==>
          !s.readers[conn].Dying? && (s.readers[conn].Running? ==> conn !in s.closed && conn !in s.released))
    && (forall conn :: conn in s.roots ==> !s.roots[conn].Releasing? && !s.roots[conn].Closing?)
  }

  lemma RestHasNoGap(s: Sys, token: Token)
    requires Books(s) && Resting(s)
    ensures token !in s.gap
  {
    assert token in s.gap ==> GapOk(s, token);
  }

  /** What the tables and the readers say of a call whose delivery is settled, in
      a session at rest. */
  lemma RestingOwner(s: Sys, id: Id)
    requires Books(s) && Resting(s) && id in s.t.awaiting && s.t.awaiting[id].conn.Some?
    requires Covered(s, s.t.awaiting[id].conn.value) && DyingOk(s, s.t.awaiting[id].conn.value)
    ensures var owner := s.t.awaiting[id];
      && owner.conn.value in s.readers && s.readers[owner.conn.value].Running? && owner.conn.value !in s.closed
      && Key(owner.conn.value, id) in s.t.operations
      && s.t.operations[Key(owner.conn.value, id)] == Operation(owner.worktree, false, owner.token)
  {
    assert OwnerOk(s, id);
    RestHasNoGap(s, s.t.awaiting[id].token);
    assert OperationOk(s, Key(s.t.awaiting[id].conn.value, id));
  }

  lemma ReachableBooks(limits: Limits, s: Sys)
    requires Reachable(limits, s)
    ensures Balanced(s.t) && s.t.limits == limits
    ensures !s.cleared ==> Books(s) && Covers(s)
  {
    ReachableIsSafe(limits, s);
  }

  /** A session at rest waits for nothing but answers of live upstreams. */
  lemma RestWaitsForAnswers(limits: Limits, s: Sys, token: Token)
    requires Reachable(limits, s) && !s.over && !s.cleared && Resting(s)
    requires token in s.ids && Outstanding(s, token)
    ensures var owner := s.t.awaiting[s.ids[token]];
      && owner.conn.Some? && owner.conn.value in s.readers && s.readers[owner.conn.value].Running?
      && owner.conn.value !in s.closed
      && Key(owner.conn.value, s.ids[token]) in s.t.operations
      && s.t.operations[Key(owner.conn.value, s.ids[token])] == Operation(owner.worktree, false, token)
  {
    NoStrandedCall(limits, s, token);
    ReachableBooks(limits, s);
    assert OwnerOk(s, s.ids[token]);
    RestingOwner(s, s.ids[token]);
  }

  /** When both readers of a connection are gone it owns no call, but for the
      one its lane is still placing. */
  lemma DeadOwnsNothing(limits: Limits, s: Sys, conn: Conn, id: Id)
    requires Reachable(limits, s) && !s.over && !s.cleared && !Covered(s, conn)
    requires id in s.t.awaiting && s.t.awaiting[id].conn == Some(conn)
    ensures InAttempt(s, s.t.awaiting[id].worktree, s.t.awaiting[id].token)
  {
    ReachableIsSafe(limits, s);
    assert CoverOk(s, id);
  }

  // ----- the cancellation fence

  /** From its check through its write, an advice follows the completed write of
      the call it names, no operation of another generation holds its connection
      and id, and none can be placed: the lane's sender is outside the gate. */
  lemma CancellationFence(limits: Limits, s: Sys, w: string)
    requires Reachable(limits, s) && !s.cleared && w in s.lanes && !s.lanes[w].worker.Rest?
    ensures var control := s.lanes[w].worker.control;
      && Placed(s, control.conn, control.token) && control.conn in s.laneOf && s.laneOf[control.conn] == w
      && (Key(control.conn, control.id) in s.t.operations ==>
            s.t.operations[Key(control.conn, control.id)].token == control.token)
    ensures !Gated(s.lanes[w])
    ensures !CanBegin(s, w) && forall conn, written :: !CanBeginFresh(s, w, conn, written)
  {
    ReachableIsSafe(limits, s);
    assert FenceOk(s, w) && LaneOk(s, w);
  }

  // ----- what is written on a connection

  lemma ReachableWire(limits: Limits, s: Sys, conn: Conn)
    requires Reachable(limits, s) && conn in s.laneOf
    ensures conn in s.wire && WireOk(s.wire[conn])
    ensures conn in s.readers ==> Ready(s.wire[conn])
  {
    ReachableIsSafe(limits, s);
    assert ConnOk(s, conn);
  }

  /** The first message written on a connection is an initialize and no later one
      is; every advice comes after the completed write of the call it names; no
      call is written twice. */
  lemma WriteDiscipline(limits: Limits, s: Sys, conn: Conn)
    requires Reachable(limits, s) && conn in s.laneOf
    ensures conn in s.wire && Disciplined(s.wire[conn]) && Follows(s.wire[conn]) && OncePerToken(s.wire[conn])
  {
    ReachableWire(limits, s, conn);
  }

  /** No message before the `k`th got past the checks made before the POST, and
      the `k`th did. */
  predicate FirstPosted(written: seq<Entry>, k: nat) {
    k < |written| && written[k].posted && forall j :: 0 <= j < k ==> !written[j].posted
  }

  /** The first message an upstream may act on is the initialize; or the client's
      own initialize was refused, and it is the advice for that. Then advice for it
      is all the connection ever carries, and no lane has adopted it. */
  lemma AcceptedFirst(limits: Limits, s: Sys, conn: Conn, k: nat)
    requires Reachable(limits, s) && conn in s.laneOf && conn in s.wire && FirstPosted(s.wire[conn], k)
    ensures s.wire[conn][0].body.Initialize?
    ensures k == 0 ||
      (&& conn !in s.readers && s.wire[conn][0].token.Some?
       && forall j :: 0 < j < |s.wire[conn]| ==>
            && s.wire[conn][j].token.None?
            && s.wire[conn][j].body.Cancel? && s.wire[conn][j].body.named == s.wire[conn][0].token.value)
  {
    ReachableWire(limits, s, conn);
  }

  /** A connection that is read, or that any call but its own initialize was
      written on, was sent an initialize that it accepted. */
  lemma CallsAfterInitialize(limits: Limits, s: Sys, conn: Conn, k: nat)
    requires Reachable(limits, s) && conn in s.laneOf && conn in s.wire
    requires conn in s.readers || (0 < k < |s.wire[conn]| && s.wire[conn][k].token.Some?)
    ensures s.wire[conn] != [] && s.wire[conn][0].body.Initialize? && s.wire[conn][0].posted
  {
    ReachableWire(limits, s, conn);
  }

  /** An advice may go out late, when its id has been used again on the connection:
      but every accepted call of another use, written before it, was answered. */
  lemma LateAdviceIsHarmless(limits: Limits, s: Sys, conn: Conn, j: nat, k: nat)
    requires Reachable(limits, s) && conn in s.laneOf && conn in s.wire && j < k < |s.wire[conn]|
    requires s.wire[conn][k].body.Cancel? && s.wire[conn][j].posted && s.wire[conn][j].token.Some?
    requires s.wire[conn][j].id == Some(s.wire[conn][k].body.id)
    requires s.wire[conn][j].token != Some(s.wire[conn][k].body.named)
    ensures s.wire[conn][j].answered
  {
    ReachableWire(limits, s, conn);
    assert Overtaking(s.wire[conn][j], s.wire[conn][k]);
  }

  /** An advice carries the id of the admission it is meant for. */
  lemma AdviceCarriesItsId(limits: Limits, s: Sys, conn: Conn, k: nat)
    requires Reachable(limits, s) && !s.cleared && conn in s.wire && k < |s.wire[conn]|
    requires s.wire[conn][k].body.Cancel?
    ensures s.wire[conn][k].body.named in s.ids && s.ids[s.wire[conn][k].body.named] == s.wire[conn][k].body.id
  {
    ReachableIsSafe(limits, s);
    assert EntryOk(s, conn, s.wire[conn][k]);
  }

  // ----- accounting

  lemma RunningArePlaced(s: Sys, key: Key)
    requires Books(s) && key in s.t.operations && !s.t.operations[key].abandoned
    ensures key.id in s.t.awaiting && s.t.awaiting[key.id].conn == Some(key.conn)
    ensures s.t.awaiting[key.id].token == s.t.operations[key].token
    ensures s.t.awaiting[key.id].worktree == s.t.operations[key].worktree
  {
    assert OperationOk(s, key) && OwnerOk(s, key.id);
  }

  lemma PlacedAreRunning(s: Sys, id: Id)
    requires Books(s) && id in s.t.awaiting && s.t.awaiting[id].conn.Some? && s.t.awaiting[id].token !in s.gap
    ensures Held(s, id, s.t.awaiting[id])
  {
    assert OwnerOk(s, id);
  }

  /** Within the limits in every reachable state; and, but for calls whose
      refused message is being given up, the operations that are not abandoned
      are exactly the placed admissions. */
  lemma Accounting(limits: Limits, s: Sys)
    requires Reachable(limits, s)
    ensures Balanced(s.t) && s.t.limits == limits
    ensures !s.cleared ==> forall key :: key in s.t.operations && !s.t.operations[key].abandoned ==>
      && key.id in s.t.awaiting && s.t.awaiting[key.id].conn == Some(key.conn)
      && s.t.awaiting[key.id].token == s.t.operations[key].token
      && s.t.awaiting[key.id].worktree == s.t.operations[key].worktree
    ensures !s.cleared ==> forall id ::
      id in s.t.awaiting && s.t.awaiting[id].conn.Some? && s.t.awaiting[id].token !in s.gap ==>
      var key := Key(s.t.awaiting[id].conn.value, id);
      && key in s.t.operations && !s.t.operations[key].abandoned && s.t.operations[key].token == s.t.awaiting[id].token
  {
    ReachableBooks(limits, s);
    if !s.cleared {
      forall key | key in s.t.operations && !s.t.operations[key].abandoned
        ensures key.id in s.t.awaiting && s.t.awaiting[key.id].conn == Some(key.conn)
        ensures s.t.awaiting[key.id].token == s.t.operations[key].token
        ensures s.t.awaiting[key.id].worktree == s.t.operations[key].worktree
      {
        RunningArePlaced(s, key);
      }
      forall id | id in s.t.awaiting && s.t.awaiting[id].conn.Some? && s.t.awaiting[id].token !in s.gap
        ensures Held(s, id, s.t.awaiting[id])
      {
        PlacedAreRunning(s, id);
      }
    }
  }

  /** Between deliveries no message is in the gap at all. */
  lemma GapIsADelivery(limits: Limits, s: Sys, token: Token)
    requires Reachable(limits, s) && !s.cleared && token in s.gap
    ensures exists w :: w in s.lanes && s.lanes[w].sender.Failing? && Carries(s.lanes[w].sender, token)
  {
    ReachableIsSafe(limits, s);
    assert GapOk(s, token) && StageOk(s, token);
  }
}

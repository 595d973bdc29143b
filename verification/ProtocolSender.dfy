/** The steps of a lane's sender, and that each keeps the invariant. */
module ProtocolSender {
  import opened Options
  import opened Tracker
  import opened Protocol
  import opened ProtocolInvariant
  import opened ProtocolSteps
  import opened ProtocolCalls

  // ----- a delivery taken off the lane's queue

  function Taken(s: Sys, w: string, token: Token): Sys
    requires CanTakeCall(s, w, token)
  {
    WithSender(s.(stage := s.stage[token := AtLane(w)]), w,
               Attempting(Call(s.ids[token], token, s.stage[token].initial), 2))
  }

  lemma TakeKeepsAdmissions(s: Sys, w: string, token: Token)
    requires CanTakeCall(s, w, token) && Admissions(s) && Stages(s) && Causes(s)
    ensures Admissions(Taken(s, w, token)) && Stages(Taken(s, w, token)) && Causes(Taken(s, w, token))
  {
    var s' := Taken(s, w, token);
    forall k | k in s'.ids ensures TokenOk(s', k) && StageOk(s', k) && CauseOk(s', k) {
      assert TokenOk(s, k) && StageOk(s, k) && CauseOk(s, k);
    }
  }

  lemma TakeKeepsBooks(s: Sys, w: string, token: Token)
    requires CanTakeCall(s, w, token) && Books(s)
    ensures Books(Taken(s, w, token))
  {
    var s' := Taken(s, w, token);
    forall k | k in s'.gap ensures GapOk(s', k) {
      assert GapOk(s, k);
    }
  }

  lemma TakeKeepsWires(s: Sys, w: string, token: Token)
    requires CanTakeCall(s, w, token) && Wires(s) && Entries(s)
    ensures Wires(Taken(s, w, token)) && Entries(Taken(s, w, token))
  {
  }

  lemma TakeKeepsLanes(s: Sys, w: string, token: Token)
    requires CanTakeCall(s, w, token) && Lanes(s) && Fences(s)
    ensures Lanes(Taken(s, w, token)) && Fences(Taken(s, w, token))
  {
    var s' := Taken(s, w, token);
    forall v | v in s'.lanes ensures LaneOk(s', v) && FenceOk(s', v) {
      assert LaneOk(s, v) && FenceOk(s, v);
    }
  }

  lemma TakeKeepsSenders(s: Sys, w: string, token: Token)
    requires CanTakeCall(s, w, token) && StageOk(s, token) && Entries(s) && Senders(s)
    ensures Senders(Taken(s, w, token))
  {
    var s' := Taken(s, w, token);
    forall v | v in s'.lanes ensures SenderOk(s', v) {
      assert SenderOk(s, v);
      if v == w && s.lanes[w].conn.Some? && s.lanes[w].conn.value in s.wire {
        var written := s.wire[s.lanes[w].conn.value];
        forall k | 0 <= k < |written| ensures written[k].token != Some(token) {
          assert EntryOk(s, s.lanes[w].conn.value, written[k]);
        }
      }
    }
  }

  lemma TakeKeepsCovers(s: Sys, w: string, token: Token)
    requires CanTakeCall(s, w, token) && Covers(s)
    ensures Covers(Taken(s, w, token))
  {
    var s' := Taken(s, w, token);
    forall v | v in s'.lanes ensures PostCoverOk(s', v) {
      assert PostCoverOk(s, v);
    }
    forall i | i in s'.t.awaiting ensures CoverOk(s', i) {
      assert CoverOk(s, i);
    }
  }

  lemma TakenKeepsInv(s: Sys, w: string, token: Token)
    requires CanTakeCall(s, w, token) && Inv(s)
    ensures Inv(Taken(s, w, token))
  {
    TakeKeepsAdmissions(s, w, token);
    TakeKeepsBooks(s, w, token);
    TakeKeepsWires(s, w, token);
    TakeKeepsLanes(s, w, token);
    TakeKeepsSenders(s, w, token);
    TakeKeepsCovers(s, w, token);
  }

  /** `placeDelivery` finds its call as the queue left it. */
  lemma TakingIs(s: Sys, w: string, token: Token)
    requires CanTakeCall(s, w, token) && StageOk(s, token) && Outstanding(s, token)
    ensures TakesCall(s, w, token) == Taken(s, w, token).(t := TakesCall(s, w, token).t)
    ensures SameTables(s.t, TakesCall(s, w, token).t)
  {
    var id := s.ids[token];
    assert s.t.awaiting[id].(conn := None) == s.t.awaiting[id];
    assert s.t.awaiting[id := s.t.awaiting[id]] == s.t.awaiting;
  }

  lemma TakeCallKeepsInv(s: Sys, w: string, token: Token)
    requires CanTakeCall(s, w, token) && Inv(s)
    ensures Inv(TakesCall(s, w, token))
  {
    if Outstanding(s, token) {
      assert StageOk(s, token);
      TakingIs(s, w, token);
      TakenKeepsInv(s, w, token);
      CountsKeepInv(Taken(s, w, token), TakesCall(s, w, token).t);
    } else {
      DropKeepsInv(s, token);
    }
  }

  // ----- an operation placed

  /** A connection the sender may place its delivery on. */
  ghost predicate Usable(s: Sys, w: string, conn: Conn) {
    && CanAttempt(s, w) && s.lanes[w].worker.Rest? && Uses(s, w, conn)
    && var d := s.lanes[w].sender.d;
       && (if d.initial then d.Call? && s.lanes[w].conn.None? && s.wire[conn] == [] else Ready(s.wire[conn]))
       && (d.Call? ==> NotOn(s, conn, d.token))
  }

  /** The call is still owed, and its id is free on the connection. */
  ghost predicate Placeable(s: Sys, w: string, conn: Conn) {
    && Usable(s, w, conn)
    && var d := s.lanes[w].sender.d;
       d.Call? && d.id in s.t.awaiting && s.t.awaiting[d.id].token == d.token && Key(conn, d.id) !in s.t.operations
       && Bears(s, w, d) && OwnedThrough(s, d, None) && StageOk(s, d.token)
  }

  function Begun(s: Sys, w: string, conn: Conn): Sys
    requires CanAttempt(s, w) && s.lanes[w].sender.d.Call? && s.lanes[w].sender.d.id in s.t.awaiting
  {
    var d, left := s.lanes[w].sender.d, s.lanes[w].sender.left;
    WithSender(s.(t := s.t.(awaiting := s.t.awaiting[d.id := s.t.awaiting[d.id].(conn := Some(conn))],
                            operations := s.t.operations[Key(conn, d.id) := Operation(w, false, d.token)])),
               w, Writing(d, left, conn))
  }

  lemma BeginKeepsAdmissions(s: Sys, w: string, conn: Conn)
    requires Placeable(s, w, conn) && Admissions(s) && Stages(s) && Causes(s)
    ensures Admissions(Begun(s, w, conn)) && Stages(Begun(s, w, conn)) && Causes(Begun(s, w, conn))
  {
    var s' := Begun(s, w, conn);
    forall k | k in s'.ids ensures TokenOk(s', k) && StageOk(s', k) && CauseOk(s', k) {
      assert TokenOk(s, k) && StageOk(s, k) && CauseOk(s, k);
    }
  }

  lemma BeginKeepsOwners(s: Sys, w: string, conn: Conn)
    requires Placeable(s, w, conn) && Books(s)
    ensures forall i :: i in Begun(s, w, conn).t.awaiting ==> OwnerOk(Begun(s, w, conn), i)
  {
    var s' := Begun(s, w, conn);
    forall i | i in s'.t.awaiting ensures OwnerOk(s', i) {
      assert OwnerOk(s, i);
    }
  }

  lemma BeginKeepsBooks(s: Sys, w: string, conn: Conn)
    requires Placeable(s, w, conn) && Books(s)
    ensures Books(Begun(s, w, conn))
  {
    BeginKeepsOwners(s, w, conn);
    var s' := Begun(s, w, conn);
    forall key | key in s'.t.operations ensures OperationOk(s', key) {
      assert key in s.t.operations ==> OperationOk(s, key);
    }
    forall k | k in s'.gap ensures GapOk(s', k) {
      assert GapOk(s, k);
    }
  }

  lemma BeginKeepsWires(s: Sys, w: string, conn: Conn)
    requires Placeable(s, w, conn) && Wires(s) && Entries(s)
    ensures Wires(Begun(s, w, conn)) && Entries(Begun(s, w, conn))
  {
    var s' := Begun(s, w, conn);
    forall c, k | c in s'.wire && 0 <= k < |s'.wire[c]| ensures EntryOk(s', c, s'.wire[c][k]) {
      assert EntryOk(s, c, s.wire[c][k]);
    }
    forall c | c in s'.laneOf ensures ConnOk(s', c) {
      assert ConnOk(s, c);
    }
  }

  lemma BeginKeepsLanes(s: Sys, w: string, conn: Conn)
    requires Placeable(s, w, conn) && Lanes(s) && Fences(s)
    ensures Lanes(Begun(s, w, conn)) && Fences(Begun(s, w, conn))
  {
    var s' := Begun(s, w, conn);
    forall v | v in s'.lanes ensures LaneOk(s', v) && FenceOk(s', v) {
      assert LaneOk(s, v) && FenceOk(s, v);
    }
  }

  lemma BeginKeepsOthers(s: Sys, w: string, conn: Conn, v: string)
    requires Placeable(s, w, conn) && v in s.lanes && v != w && SenderOk(s, v)
    ensures SenderOk(Begun(s, w, conn), v)
  {
  }

  lemma BeginKeepsOwn(s: Sys, w: string, conn: Conn)
    requires Placeable(s, w, conn)
    ensures SenderOk(Begun(s, w, conn), w)
  {
  }

  lemma BeginKeepsSenders(s: Sys, w: string, conn: Conn)
    requires Placeable(s, w, conn) && Senders(s)
    ensures Senders(Begun(s, w, conn))
  {
    forall v | v in s.lanes ensures SenderOk(Begun(s, w, conn), v) {
      if v == w {
        BeginKeepsOwn(s, w, conn);
      } else {
        BeginKeepsOthers(s, w, conn, v);
      }
    }
  }

  lemma BeginKeepsCovers(s: Sys, w: string, conn: Conn)
    requires Placeable(s, w, conn) && Covers(s)
    ensures Covers(Begun(s, w, conn))
  {
    var s' := Begun(s, w, conn);
    forall v | v in s'.lanes ensures PostCoverOk(s', v) {
      assert PostCoverOk(s, v);
    }
    forall i | i in s'.t.awaiting ensures CoverOk(s', i) {
      assert CoverOk(s, i);
    }
  }

  lemma BegunKeepsInv(s: Sys, w: string, conn: Conn)
    requires Placeable(s, w, conn) && Inv(s)
    ensures Inv(Begun(s, w, conn))
  {
    BeginKeepsAdmissions(s, w, conn);
    BeginKeepsBooks(s, w, conn);
    BeginKeepsWires(s, w, conn);
    BeginKeepsLanes(s, w, conn);
    BeginKeepsSenders(s, w, conn);
    BeginKeepsCovers(s, w, conn);
  }

  lemma NoGap(s: Sys, w: string)
    requires CanAttempt(s, w) && SenderOk(s, w) && Books(s)
    ensures s.lanes[w].sender.d.Call? ==> s.lanes[w].sender.d.token !in s.gap
  {
    var d := s.lanes[w].sender.d;
    assert d.Call? && d.token in s.gap ==> GapOk(s, d.token);
  }

  /** A sender that has placed nothing may give up. */
  lemma FailingFits(s: Sys, w: string)
    requires CanAttempt(s, w) && SenderOk(s, w) && LaneOk(s, w) && FenceOk(s, w)
    requires s.lanes[w].sender.d.Call? ==> s.lanes[w].sender.d.token !in s.gap
    ensures var l := s.lanes[w].(sender := Failing(s.lanes[w].sender.d));
      Smooth(s, w, l) && LaneFits(WithLane(s, w, l), w)
  {
  }

  lemma FailingKeepsInv(s: Sys, w: string)
    requires Inv(s) && CanAttempt(s, w)
    ensures Inv(WithSender(s, w, Failing(s.lanes[w].sender.d)))
  {
    NoGap(s, w);
    FailingFits(s, w);
    LaneKeepsInv(s, w, s.lanes[w].(sender := Failing(s.lanes[w].sender.d)));
  }

  lemma PlacingIs(s: Sys, w: string, conn: Conn)
    requires CanAttempt(s, w) && s.lanes[w].sender.d.Call?
    ensures var d := s.lanes[w].sender.d;
      var granted := Begin(s.t, d.id, d.token, conn, w).1;
      var s' := Placing(s, w, conn);
      if granted.Granted? then
        && Owns(s.t, d.id, Some(d.token)) && Key(conn, d.id) !in s.t.operations
        && s' == Begun(s, w, conn).(t := s'.t) && SameTables(Begun(s, w, conn).t, s'.t)
      else
        s' == WithSender(s, w, Failing(d)).(t := s'.t) && SameTables(s.t, s'.t)
  {
  }

  lemma NoteFits(s: Sys, w: string, conn: Conn)
    requires Usable(s, w, conn) && s.lanes[w].sender.d.Note? && LaneOk(s, w) && FenceOk(s, w)
    ensures var l := s.lanes[w].(sender := Writing(s.lanes[w].sender.d, s.lanes[w].sender.left, conn));
      Smooth(s, w, l) && LaneFits(WithLane(s, w, l), w)
  {
  }

  lemma NotePlacingKeepsInv(s: Sys, w: string, conn: Conn)
    requires Usable(s, w, conn) && s.lanes[w].sender.d.Note? && Inv(s)
    ensures Inv(Placing(s, w, conn))
  {
    NoteFits(s, w, conn);
    LaneKeepsInv(s, w, s.lanes[w].(sender := Writing(s.lanes[w].sender.d, s.lanes[w].sender.left, conn)));
  }

  lemma GrantedIsPlaceable(s: Sys, w: string, conn: Conn)
    requires Usable(s, w, conn) && s.lanes[w].sender.d.Call? && SenderOk(s, w) && Stages(s)
    requires var d := s.lanes[w].sender.d;
      Owns(s.t, d.id, Some(d.token)) && Key(conn, d.id) !in s.t.operations
    ensures Placeable(s, w, conn)
  {
    assert StageOk(s, s.lanes[w].sender.d.token);
  }

  lemma CallPlacingKeepsInv(s: Sys, w: string, conn: Conn)
    requires Usable(s, w, conn) && s.lanes[w].sender.d.Call? && Inv(s)
    ensures Inv(Placing(s, w, conn))
  {
    var d := s.lanes[w].sender.d;
    PlacingIs(s, w, conn);
    if Begin(s.t, d.id, d.token, conn, w).1.Granted? {
      GrantedIsPlaceable(s, w, conn);
      BegunKeepsInv(s, w, conn);
      CountsKeepInv(Begun(s, w, conn), Placing(s, w, conn).t);
    } else {
      FailingKeepsInv(s, w);
      CountsKeepInv(WithSender(s, w, Failing(d)), Placing(s, w, conn).t);
    }
  }

  lemma PlacingKeepsInv(s: Sys, w: string, conn: Conn)
    requires Usable(s, w, conn) && Inv(s)
    ensures Inv(Placing(s, w, conn))
  {
    if s.lanes[w].sender.d.Note? {
      NotePlacingKeepsInv(s, w, conn);
    } else {
      CallPlacingKeepsInv(s, w, conn);
    }
  }

  lemma CachedIsUsable(s: Sys, w: string)
    requires CanBegin(s, w) && SenderOk(s, w) && LaneOk(s, w) && Wires(s)
    ensures Usable(s, w, s.lanes[w].conn.value)
  {
    assert ConnOk(s, s.lanes[w].conn.value);
  }

  lemma BeginKeepsInv(s: Sys, w: string)
    requires CanBegin(s, w) && Inv(s)
    ensures Inv(Begins(s, w))
  {
    CachedIsUsable(s, w);
    PlacingKeepsInv(s, w, s.lanes[w].conn.value);
  }

  lemma FreshIsUsable(s: Sys, w: string, conn: Conn, written: seq<Entry>)
    requires CanBeginFresh(s, w, conn, written) && Wires(s)
    ensures Usable(Fresh(s, conn, w, written), w, conn) && Handshake(written)
  {
  }

  lemma PlacingMoves(s: Sys, w: string, conn: Conn)
    requires CanAttempt(s, w)
    ensures Placing(s, w, conn).laneOf == s.laneOf
  {
  }

  /** The fresh connection is closed, or it is not. */
  lemma BeginningIs(s: Sys, w: string, conn: Conn, written: seq<Entry>)
    requires CanBeginFresh(s, w, conn, written)
    ensures var s' := Placing(Fresh(s, conn, w, written), w, conn);
      BeginsFresh(s, w, conn, written) == s' || BeginsFresh(s, w, conn, written) == Shut(s', conn)
  {
  }

  lemma FreshPlacedKeepsInv(s: Sys, w: string, conn: Conn, written: seq<Entry>)
    requires CanBeginFresh(s, w, conn, written) && Inv(s)
    ensures Inv(Placing(Fresh(s, conn, w, written), w, conn))
    ensures conn in Placing(Fresh(s, conn, w, written), w, conn).laneOf
  {
    FreshIsUsable(s, w, conn, written);
    FreshKeepsInv(s, conn, w, written);
    PlacingKeepsInv(Fresh(s, conn, w, written), w, conn);
    PlacingMoves(Fresh(s, conn, w, written), w, conn);
  }

  lemma BeginFreshKeepsInv(s: Sys, w: string, conn: Conn, written: seq<Entry>)
    requires CanBeginFresh(s, w, conn, written) && Inv(s)
    ensures Inv(BeginsFresh(s, w, conn, written))
  {
    FreshPlacedKeepsInv(s, w, conn, written);
    ShutKeepsInv(Placing(Fresh(s, conn, w, written), w, conn), conn);
    BeginningIs(s, w, conn, written);
  }

  // ----- attempts that come to nothing

  lemma AgainFits(s: Sys, w: string, left: nat)
    requires CanAttempt(s, w) && SenderOk(s, w) && LaneOk(s, w) && FenceOk(s, w)
    ensures var l := s.lanes[w].(sender := Attempting(s.lanes[w].sender.d, left));
      Smooth(s, w, l) && LaneFits(WithLane(s, w, l), w)
  {
  }

  lemma AgainKeepsInv(s: Sys, w: string, left: nat)
    requires CanAttempt(s, w) && Inv(s)
    ensures Inv(WithSender(s, w, Attempting(s.lanes[w].sender.d, left)))
  {
    AgainFits(s, w, left);
    LaneKeepsInv(s, w, s.lanes[w].(sender := Attempting(s.lanes[w].sender.d, left)));
  }

  lemma StoppedKeepsInv(s: Sys, w: string, stop: bool)
    requires CanAttempt(s, w) && Inv(s) && (stop || s.lanes[w].sender.left <= 1)
    ensures Inv(AttemptFails(s, w, stop))
  {
    FailingKeepsInv(s, w);
  }

  lemma ContinuedKeepsInv(s: Sys, w: string)
    requires CanAttempt(s, w) && Inv(s) && s.lanes[w].sender.left > 1
    ensures Inv(AttemptFails(s, w, false))
  {
    AgainKeepsInv(s, w, s.lanes[w].sender.left - 1);
  }

  lemma AttemptFailKeepsInv(s: Sys, w: string, stop: bool)
    requires CanAttempt(s, w) && Inv(s)
    ensures Inv(AttemptFails(s, w, stop))
  {
    if stop || s.lanes[w].sender.left <= 1 {
      StoppedKeepsInv(s, w, stop);
    } else {
      ContinuedKeepsInv(s, w);
    }
  }

  lemma WasteKeepsInv(s: Sys, w: string, conn: Conn, written: seq<Entry>, stop: bool)
    requires CanWaste(s, w, conn, written) && Inv(s)
    ensures Inv(Wastes(s, w, conn, written, stop))
  {
    FreshKeepsInv(s, conn, w, written);
    ShutKeepsInv(Fresh(s, conn, w, written), conn);
    AttemptFailKeepsInv(Shut(Fresh(s, conn, w, written), conn), w, stop);
  }
}

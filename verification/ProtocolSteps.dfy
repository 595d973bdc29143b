/** The parts steps are made of, and that each keeps the invariant. */
module ProtocolSteps {
  import opened Options
  import opened Tracker
  import opened Protocol
  import opened ProtocolInvariant

  /** What was written and returned stays so. */
  lemma PlacedStays(s: Sys, s': Sys, control: Control)
    requires Placed(s, control.conn, control.token) && control.conn in s'.wire
    requires |s.wire[control.conn]| <= |s'.wire[control.conn]|
    requires forall k :: 0 <= k < |s.wire[control.conn]| ==>
      && s'.wire[control.conn][k].token == s.wire[control.conn][k].token
      && (s.wire[control.conn][k].returned ==> s'.wire[control.conn][k].returned)
    ensures Placed(s', control.conn, control.token)
  {
    var k :| 0 <= k < |s.wire[control.conn]| && s.wire[control.conn][k].token == Some(control.token)
             && s.wire[control.conn][k].returned;
    assert s'.wire[control.conn][k].returned;
  }

  // ----- one lane replaced

  function WithLane(s: Sys, w: string, l: Lane): Sys {
    s.(lanes := s.lanes[w := l])
  }

  /** What the rest of the session relies on a lane for. */
  ghost predicate Smooth(s: Sys, w: string, l: Lane)
    requires w in s.lanes
  {
    && (forall token :: Carries(s.lanes[w].sender, token) ==> Carries(l.sender, token))
    && (s.lanes[w].sender.Failing? ==> l.sender.Failing?)
  }

  ghost predicate LaneFits(s: Sys, w: string)
    requires w in s.lanes
  {
    LaneOk(s, w) && SenderOk(s, w) && FenceOk(s, w) && PostCoverOk(s, w)
  }

  lemma LaneKeepsAdmissions(s: Sys, w: string, l: Lane)
    requires w in s.lanes && Admissions(s) && Causes(s) && Stages(s) && Smooth(s, w, l)
    ensures Admissions(WithLane(s, w, l)) && Causes(WithLane(s, w, l)) && Stages(WithLane(s, w, l))
  {
  }

  lemma LaneKeepsBooks(s: Sys, w: string, l: Lane)
    requires w in s.lanes && Books(s) && Smooth(s, w, l)
    ensures Books(WithLane(s, w, l))
  {
    var s' := WithLane(s, w, l);
    forall token | token in s'.gap ensures GapOk(s', token) {
      assert GapOk(s, token);
    }
  }

  lemma LaneKeepsWires(s: Sys, w: string, l: Lane)
    requires w in s.lanes && Wires(s) && Entries(s)
    ensures Wires(WithLane(s, w, l)) && Entries(WithLane(s, w, l))
  {
  }

  lemma LaneKeepsLanes(s: Sys, w: string, l: Lane)
    requires w in s.lanes && Lanes(s) && Fences(s)
    requires LaneOk(WithLane(s, w, l), w) && FenceOk(WithLane(s, w, l), w)
    ensures Lanes(WithLane(s, w, l)) && Fences(WithLane(s, w, l))
  {
    var s' := WithLane(s, w, l);
    forall v | v in s'.lanes ensures LaneOk(s', v) && FenceOk(s', v) {
      assert v != w ==> LaneOk(s, v) && FenceOk(s, v);
    }
  }

  lemma LaneKeepsSenders(s: Sys, w: string, l: Lane)
    requires w in s.lanes && Senders(s) && SenderOk(WithLane(s, w, l), w)
    ensures Senders(WithLane(s, w, l))
  {
    var s' := WithLane(s, w, l);
    forall v | v in s'.lanes ensures SenderOk(s', v) {
      assert v != w ==> SenderOk(s, v);
    }
  }

  lemma LaneKeepsCovers(s: Sys, w: string, l: Lane)
    requires w in s.lanes && Covers(s) && Smooth(s, w, l) && PostCoverOk(WithLane(s, w, l), w)
    ensures Covers(WithLane(s, w, l))
  {
    var s' := WithLane(s, w, l);
    forall v | v in s'.lanes ensures PostCoverOk(s', v) {
      assert v != w ==> PostCoverOk(s, v);
    }
  }

  lemma LaneKeepsInv(s: Sys, w: string, l: Lane)
    requires w in s.lanes && Inv(s) && Smooth(s, w, l) && LaneFits(WithLane(s, w, l), w)
    ensures Inv(WithLane(s, w, l))
  {
    LaneKeepsAdmissions(s, w, l);
    LaneKeepsBooks(s, w, l);
    LaneKeepsWires(s, w, l);
    LaneKeepsLanes(s, w, l);
    LaneKeepsSenders(s, w, l);
    LaneKeepsCovers(s, w, l);
  }

  // ----- a connection nobody uses yet

  lemma FreshKeepsAdmissions(s: Sys, conn: Conn, w: string, written: seq<Entry>)
    requires conn !in s.laneOf && Admissions(s) && Causes(s) && Stages(s) && Wires(s)
    ensures Admissions(Fresh(s, conn, w, written)) && Causes(Fresh(s, conn, w, written))
    ensures Stages(Fresh(s, conn, w, written))
  {
    var s' := Fresh(s, conn, w, written);
    forall token | token in s'.ids ensures TokenOk(s', token) {
      assert TokenOk(s, token);
    }
    forall token | token in s'.ids ensures CauseOk(s', token) {
      assert CauseOk(s, token);
    }
    forall token | token in s'.ids ensures StageOk(s', token) {
      assert StageOk(s, token);
    }
  }

  lemma FreshKeepsBooks(s: Sys, conn: Conn, w: string, written: seq<Entry>)
    requires conn !in s.laneOf && Books(s)
    ensures Books(Fresh(s, conn, w, written))
  {
    var s' := Fresh(s, conn, w, written);
    forall id | id in s'.t.awaiting ensures OwnerOk(s', id) {
      assert OwnerOk(s, id);
    }
    forall key | key in s'.t.operations ensures OperationOk(s', key) {
      assert OperationOk(s, key);
    }
    forall token | token in s'.gap ensures GapOk(s', token) {
      assert GapOk(s, token);
    }
  }

  lemma FreshKeepsWires(s: Sys, conn: Conn, w: string, written: seq<Entry>)
    requires conn !in s.laneOf && w in s.lanes && Wires(s) && Handshake(written)
    ensures Wires(Fresh(s, conn, w, written))
  {
    var s' := Fresh(s, conn, w, written);
    forall c | c in s'.laneOf ensures ConnOk(s', c) {
      assert c != conn ==> ConnOk(s, c);
    }
  }

  lemma FreshKeepsEntries(s: Sys, conn: Conn, w: string, written: seq<Entry>)
    requires conn !in s.laneOf && Entries(s) && Handshake(written)
    ensures Entries(Fresh(s, conn, w, written))
  {
    var s' := Fresh(s, conn, w, written);
    forall c, k | c in s'.wire && 0 <= k < |s'.wire[c]| ensures EntryOk(s', c, s'.wire[c][k]) {
      assert c != conn ==> EntryOk(s, c, s.wire[c][k]);
    }
  }

  lemma FreshKeepsLanes(s: Sys, conn: Conn, w: string, written: seq<Entry>)
    requires conn !in s.laneOf && Lanes(s)
    ensures Lanes(Fresh(s, conn, w, written))
  {
    var s' := Fresh(s, conn, w, written);
    forall v | v in s'.lanes ensures LaneOk(s', v) {
      assert LaneOk(s, v);
    }
  }

  lemma FreshKeepsFences(s: Sys, conn: Conn, w: string, written: seq<Entry>)
    requires conn !in s.laneOf && Wires(s) && Fences(s)
    ensures Fences(Fresh(s, conn, w, written))
  {
    var s' := Fresh(s, conn, w, written);
    forall v | v in s'.lanes ensures FenceOk(s', v) {
      assert FenceOk(s, v);
      if !s.lanes[v].worker.Rest? {
        PlacedStays(s, s', s.lanes[v].worker.control);
      }
    }
  }

  lemma FreshKeepsSender(s: Sys, conn: Conn, w: string, written: seq<Entry>, v: string)
    requires conn !in s.laneOf && v in s.lanes && LaneOk(s, v) && SenderOk(s, v)
    ensures SenderOk(Fresh(s, conn, w, written), v)
  {
  }

  lemma FreshKeepsSenders(s: Sys, conn: Conn, w: string, written: seq<Entry>)
    requires conn !in s.laneOf && Lanes(s) && Senders(s)
    ensures Senders(Fresh(s, conn, w, written))
  {
    forall v | v in s.lanes ensures SenderOk(Fresh(s, conn, w, written), v) {
      FreshKeepsSender(s, conn, w, written, v);
    }
  }

  lemma FreshKeepsCover(s: Sys, conn: Conn, w: string, written: seq<Entry>, v: string)
    requires conn !in s.laneOf && v in s.lanes && PostCoverOk(s, v) && SenderOk(s, v)
    ensures PostCoverOk(Fresh(s, conn, w, written), v)
  {
  }

  lemma FreshKeepsCovers(s: Sys, conn: Conn, w: string, written: seq<Entry>)
    requires conn !in s.laneOf && Wires(s) && Covers(s) && Senders(s)
    ensures Covers(Fresh(s, conn, w, written))
  {
    var s' := Fresh(s, conn, w, written);
    forall v | v in s'.lanes ensures PostCoverOk(s', v) {
      assert PostCoverOk(s, v) && SenderOk(s, v);
      FreshKeepsCover(s, conn, w, written, v);
    }
    forall c | c in s'.laneOf ensures DyingOk(s', c) {
      assert c != conn ==> DyingOk(s, c);
    }
  }

  lemma FreshKeepsInv(s: Sys, conn: Conn, w: string, written: seq<Entry>)
    requires conn !in s.laneOf && w in s.lanes && Inv(s) && Handshake(written)
    ensures Inv(Fresh(s, conn, w, written))
  {
    FreshKeepsAdmissions(s, conn, w, written);
    FreshKeepsBooks(s, conn, w, written);
    FreshKeepsWires(s, conn, w, written);
    FreshKeepsEntries(s, conn, w, written);
    FreshKeepsLanes(s, conn, w, written);
    FreshKeepsFences(s, conn, w, written);
    FreshKeepsSenders(s, conn, w, written);
    FreshKeepsCovers(s, conn, w, written);
  }

  // ----- a connection closed

  lemma ShutKeepsTables(s: Sys, conn: Conn)
    requires Admissions(s) && Causes(s) && Stages(s)
    ensures Admissions(Shut(s, conn)) && Causes(Shut(s, conn)) && Stages(Shut(s, conn))
  {
  }

  lemma ShutKeepsBooks(s: Sys, conn: Conn)
    requires Books(s)
    ensures Books(Shut(s, conn))
  {
    var s' := Shut(s, conn);
    forall token | token in s'.gap ensures GapOk(s', token) {
      assert GapOk(s, token);
    }
  }

  lemma ShutKeepsWires(s: Sys, conn: Conn)
    requires conn in s.laneOf && Wires(s) && Entries(s) && Lanes(s)
    ensures Wires(Shut(s, conn)) && Entries(Shut(s, conn)) && Lanes(Shut(s, conn))
  {
  }

  lemma ShutKeepsSenders(s: Sys, conn: Conn)
    requires Senders(s) && Fences(s)
    ensures Senders(Shut(s, conn)) && Fences(Shut(s, conn))
  {
    var s' := Shut(s, conn);
    forall v | v in s'.lanes ensures SenderOk(s', v) {
      assert SenderOk(s, v);
    }
    forall v | v in s'.lanes ensures FenceOk(s', v) {
      assert FenceOk(s, v);
    }
  }

  lemma ShutKeepsCovers(s: Sys, conn: Conn)
    requires Covers(s)
    ensures Covers(Shut(s, conn))
  {
    var s' := Shut(s, conn);
    forall v | v in s'.lanes ensures PostCoverOk(s', v) {
      assert PostCoverOk(s, v);
    }
  }

  lemma ShutKeepsInv(s: Sys, conn: Conn)
    requires conn in s.laneOf && Inv(s)
    ensures Inv(Shut(s, conn))
  {
    ShutKeepsTables(s, conn);
    ShutKeepsBooks(s, conn);
    ShutKeepsWires(s, conn);
    ShutKeepsSenders(s, conn);
    ShutKeepsCovers(s, conn);
  }

  // ----- an admission taken by whoever will answer it

  lemma ClaimKeepsAdmissions(s: Sys, id: Id, token: Option<Token>, cause: Cause)
    requires Admissions(s) && Books(s)
    ensures Admissions(Claim(s, id, None, token, cause))
  {
    var s' := Claim(s, id, None, token, cause);
    forall k | k in s'.ids ensures TokenOk(s', k) {
      assert TokenOk(s, k);
      if Claims(s.t, id, None, token) {
        assert OwnerOk(s, id);
      }
    }
  }

  lemma ClaimKeepsStages(s: Sys, id: Id, token: Option<Token>, cause: Cause)
    requires Stages(s)
    ensures Stages(Claim(s, id, None, token, cause))
  {
    var s' := Claim(s, id, None, token, cause);
    forall k | k in s'.ids ensures StageOk(s', k) {
      assert StageOk(s, k);
    }
  }

  lemma ClaimKeepsCauses(s: Sys, id: Id, token: Option<Token>, cause: Cause)
    requires Causes(s)
    requires cause.Answer? && Claims(s.t, id, None, token) ==>
      && cause.conn in s.wire && cause.at < |s.wire[cause.conn]|
      && s.wire[cause.conn][cause.at].token == Some(s.t.awaiting[id].token) && s.wire[cause.conn][cause.at].answered
    ensures Causes(Claim(s, id, None, token, cause))
  {
    var s' := Claim(s, id, None, token, cause);
    forall k | k in s'.ids ensures CauseOk(s', k) {
      assert CauseOk(s, k);
    }
  }

  lemma ClaimKeepsOwners(s: Sys, id: Id, token: Option<Token>, cause: Cause)
    requires Books(s)
    ensures forall i :: i in Claim(s, id, None, token, cause).t.awaiting ==>
      OwnerOk(Claim(s, id, None, token, cause), i)
  {
    var s' := Claim(s, id, None, token, cause);
    forall i | i in s'.t.awaiting ensures OwnerOk(s', i) {
      assert OwnerOk(s, i);
    }
  }

  lemma ClaimKeepsBooks(s: Sys, id: Id, token: Option<Token>, cause: Cause)
    requires Books(s)
    ensures Books(Claim(s, id, None, token, cause))
  {
    ClaimKeepsOwners(s, id, token, cause);
    var s' := Claim(s, id, None, token, cause);
    forall key | key in s'.t.operations ensures OperationOk(s', key) {
      assert OperationOk(s, key);
    }
    forall k | k in s'.gap ensures GapOk(s', k) {
      assert GapOk(s, k);
    }
  }

  lemma ClaimKeepsWires(s: Sys, id: Id, token: Option<Token>, cause: Cause)
    requires Wires(s) && Lanes(s)
    ensures Wires(Claim(s, id, None, token, cause)) && Lanes(Claim(s, id, None, token, cause))
  {
    var s' := Claim(s, id, None, token, cause);
    forall c | c in s'.laneOf ensures ConnOk(s', c) {
      assert ConnOk(s, c);
    }
    forall v | v in s'.lanes ensures LaneOk(s', v) {
      assert LaneOk(s, v);
    }
  }

  lemma ClaimKeepsEntries(s: Sys, id: Id, token: Option<Token>, cause: Cause)
    requires Entries(s)
    ensures Entries(Claim(s, id, None, token, cause))
  {
    var s' := Claim(s, id, None, token, cause);
    forall c, k | c in s'.wire && 0 <= k < |s'.wire[c]| ensures EntryOk(s', c, s'.wire[c][k]) {
      assert EntryOk(s, c, s.wire[c][k]);
    }
  }

  lemma ClaimKeepsSenders(s: Sys, id: Id, token: Option<Token>, cause: Cause)
    requires Senders(s)
    ensures Senders(Claim(s, id, None, token, cause))
  {
    var s' := Claim(s, id, None, token, cause);
    forall v | v in s'.lanes ensures SenderOk(s', v) {
      assert SenderOk(s, v);
    }
  }

  lemma ClaimKeepsFences(s: Sys, id: Id, token: Option<Token>, cause: Cause)
    requires Fences(s)
    ensures Fences(Claim(s, id, None, token, cause))
  {
    var s' := Claim(s, id, None, token, cause);
    forall v | v in s'.lanes ensures FenceOk(s', v) {
      assert FenceOk(s, v);
    }
  }

  lemma ClaimKeepsCovers(s: Sys, id: Id, token: Option<Token>, cause: Cause)
    requires Covers(s)
    ensures Covers(Claim(s, id, None, token, cause))
  {
    var s' := Claim(s, id, None, token, cause);
    forall i | i in s'.t.awaiting ensures CoverOk(s', i) {
      assert CoverOk(s, i);
    }
    forall v | v in s'.lanes ensures PostCoverOk(s', v) {
      assert PostCoverOk(s, v);
    }
    forall c | c in s'.laneOf ensures DyingOk(s', c) {
      assert DyingOk(s, c);
    }
  }

  lemma ClaimKeepsInv(s: Sys, id: Id, token: Option<Token>, cause: Cause)
    requires Inv(s)
    requires cause.Answer? && Claims(s.t, id, None, token) ==>
      && cause.conn in s.wire && cause.at < |s.wire[cause.conn]|
      && s.wire[cause.conn][cause.at].token == Some(s.t.awaiting[id].token) && s.wire[cause.conn][cause.at].answered
    ensures Inv(Claim(s, id, None, token, cause))
  {
    ClaimKeepsAdmissions(s, id, token, cause);
    ClaimKeepsStages(s, id, token, cause);
    ClaimKeepsCauses(s, id, token, cause);
    ClaimKeepsBooks(s, id, token, cause);
    ClaimKeepsWires(s, id, token, cause);
    ClaimKeepsEntries(s, id, token, cause);
    ClaimKeepsSenders(s, id, token, cause);
    ClaimKeepsFences(s, id, token, cause);
    ClaimKeepsCovers(s, id, token, cause);
  }

  // ----- a queue entry that goes no further

  function Drop(s: Sys, token: Token): Sys {
    s.(stage := s.stage[token := Settled])
  }

  lemma DropKeepsTables(s: Sys, token: Token)
    requires Unsent(s, token) && (!Outstanding(s, token) || s.over)
    requires Admissions(s) && Causes(s) && Stages(s)
    ensures Admissions(Drop(s, token)) && Causes(Drop(s, token)) && Stages(Drop(s, token))
  {
    var s' := Drop(s, token);
    forall k | k in s'.ids ensures TokenOk(s', k) && CauseOk(s', k) && StageOk(s', k) {
      assert TokenOk(s, k) && CauseOk(s, k) && StageOk(s, k);
    }
  }

  lemma DropKeepsBooks(s: Sys, token: Token)
    requires Unsent(s, token) && Books(s)
    ensures Books(Drop(s, token))
  {
    var s' := Drop(s, token);
    forall k | k in s'.gap ensures GapOk(s', k) {
      assert GapOk(s, k);
    }
  }

  lemma DropKeepsWires(s: Sys, token: Token)
    requires Unsent(s, token) && Wires(s) && Entries(s) && Lanes(s)
    ensures Wires(Drop(s, token)) && Entries(Drop(s, token)) && Lanes(Drop(s, token))
  {
  }

  lemma DropKeepsSenders(s: Sys, token: Token)
    requires Unsent(s, token) && Senders(s) && Fences(s)
    ensures Senders(Drop(s, token)) && Fences(Drop(s, token))
  {
    var s' := Drop(s, token);
    forall v | v in s'.lanes ensures SenderOk(s', v) {
      assert SenderOk(s, v);
    }
    forall v | v in s'.lanes ensures FenceOk(s', v) {
      assert FenceOk(s, v);
    }
  }

  lemma DropKeepsCovers(s: Sys, token: Token)
    requires Covers(s)
    ensures Covers(Drop(s, token))
  {
    var s' := Drop(s, token);
    forall v | v in s'.lanes ensures PostCoverOk(s', v) {
      assert PostCoverOk(s, v);
    }
  }

  lemma DropKeepsInv(s: Sys, token: Token)
    requires Unsent(s, token) && (!Outstanding(s, token) || s.over) && Inv(s)
    ensures Inv(Drop(s, token))
  {
    DropKeepsTables(s, token);
    DropKeepsBooks(s, token);
    DropKeepsWires(s, token);
    DropKeepsSenders(s, token);
    DropKeepsCovers(s, token);
  }

  // ----- a message that is nobody's call

  ghost predicate PlainFor(s: Sys, conn: Conn, e: Entry) {
    && conn in s.wire && s.wire[conn] != [] && (s.wire[conn][0].posted || e.body.Cancel?)
    && (forall j :: 0 <= j < |s.wire[conn]| && Overtaking(s.wire[conn][j], e) ==> s.wire[conn][j].answered)
    && e.token.None? && e.id.None? && !e.body.Initialize? && !e.tooLarge
    && (e.body.Cancel? ==>
          Placed(s, conn, e.body.named) && e.body.named in s.ids && s.ids[e.body.named] == e.body.id)
  }

  lemma PlainKeepsTables(s: Sys, conn: Conn, e: Entry)
    requires PlainFor(s, conn, e) && Admissions(s) && Causes(s) && Stages(s)
    ensures Admissions(Append(s, conn, e)) && Causes(Append(s, conn, e)) && Stages(Append(s, conn, e))
  {
  }

  lemma PlainKeepsBooks(s: Sys, conn: Conn, e: Entry)
    requires PlainFor(s, conn, e) && Books(s)
    ensures Books(Append(s, conn, e))
  {
    var s' := Append(s, conn, e);
    forall k | k in s'.gap ensures GapOk(s', k) {
      assert GapOk(s, k);
    }
  }

  lemma PlainKeepsWires(s: Sys, conn: Conn, e: Entry)
    requires PlainFor(s, conn, e) && Wires(s)
    ensures Wires(Append(s, conn, e))
  {
    var s' := Append(s, conn, e);
    forall c | c in s'.laneOf ensures ConnOk(s', c) {
      assert ConnOk(s, c);
      if c == conn {
        FollowsOn(s.wire[conn], e);
      }
    }
  }

  lemma FollowsOn(written: seq<Entry>, e: Entry)
    requires Follows(written)
    requires e.body.Cancel? ==>
      exists j :: 0 <= j < |written| && written[j].token == Some(e.body.named) && written[j].returned
    ensures Follows(written + [e])
  {
    var more := written + [e];
    forall k | 0 <= k < |more| && more[k].body.Cancel?
      ensures exists j :: 0 <= j < k && more[j].token == Some(more[k].body.named) && more[j].returned
    {
      var j :| 0 <= j < k && written[j].token == Some(more[k].body.named) && written[j].returned;
      assert more[j] == written[j];
    }
  }

  lemma PlainKeepsEntries(s: Sys, conn: Conn, e: Entry)
    requires PlainFor(s, conn, e) && Entries(s)
    ensures Entries(Append(s, conn, e))
  {
    var s' := Append(s, conn, e);
    forall c, k | c in s'.wire && 0 <= k < |s'.wire[c]| ensures EntryOk(s', c, s'.wire[c][k]) {
      assert c != conn || k < |s.wire[c]| ==> EntryOk(s, c, s.wire[c][k]);
    }
  }

  lemma PlainKeepsLanes(s: Sys, conn: Conn, e: Entry)
    requires PlainFor(s, conn, e) && Lanes(s) && Fences(s)
    ensures Lanes(Append(s, conn, e)) && Fences(Append(s, conn, e))
  {
    var s' := Append(s, conn, e);
    forall v | v in s'.lanes ensures FenceOk(s', v) {
      assert FenceOk(s, v);
      if !s.lanes[v].worker.Rest? {
        PlacedStays(s, s', s.lanes[v].worker.control);
      }
    }
  }

  lemma PlainKeepsSender(s: Sys, conn: Conn, e: Entry, v: string)
    requires PlainFor(s, conn, e) && v in s.lanes && SenderOk(s, v)
    ensures SenderOk(Append(s, conn, e), v)
  {
  }

  lemma PlainKeepsSenders(s: Sys, conn: Conn, e: Entry)
    requires PlainFor(s, conn, e) && Senders(s)
    ensures Senders(Append(s, conn, e))
  {
    var s' := Append(s, conn, e);
    forall v | v in s'.lanes ensures SenderOk(s', v) {
      assert SenderOk(s, v);
      PlainKeepsSender(s, conn, e, v);
    }
  }

  lemma PlainKeepsCovers(s: Sys, conn: Conn, e: Entry)
    requires PlainFor(s, conn, e) && Covers(s) && Senders(s)
    ensures Covers(Append(s, conn, e))
  {
    var s' := Append(s, conn, e);
    forall v | v in s'.lanes ensures PostCoverOk(s', v) {
      assert PostCoverOk(s, v) && SenderOk(s, v);
    }
  }

  lemma PlainKeepsInv(s: Sys, conn: Conn, e: Entry)
    requires PlainFor(s, conn, e) && Inv(s)
    ensures Inv(Append(s, conn, e))
  {
    PlainKeepsTables(s, conn, e);
    PlainKeepsBooks(s, conn, e);
    PlainKeepsWires(s, conn, e);
    PlainKeepsEntries(s, conn, e);
    PlainKeepsLanes(s, conn, e);
    PlainKeepsSenders(s, conn, e);
    PlainKeepsCovers(s, conn, e);
  }

  // ----- a credit given back for an abandoned operation

  /** No call is owned through `key`, and no answer may still come for it. */
  ghost predicate Spent(s: Sys, key: Key) {
    && (forall w :: w in s.lanes && s.lanes[w].sender.Writing? && s.lanes[w].sender.d.Call? ==>
          key != Key(s.lanes[w].sender.conn, s.lanes[w].sender.d.id))
    && (key in s.t.operations ==> s.t.operations[key].abandoned)
    && (key.conn in s.wire ==>
          forall e :: e in s.wire[key.conn] && e.posted && !e.answered && e.token.Some? ==> e.id != Some(key.id))
  }

  function Release(s: Sys, key: Key): Sys {
    s.(t := EndOperation(s.t, key))
  }

  lemma ReleaseKeepsTables(s: Sys, key: Key)
    requires Admissions(s) && Causes(s) && Stages(s)
    ensures Admissions(Release(s, key)) && Causes(Release(s, key)) && Stages(Release(s, key))
  {
  }

  lemma ReleaseKeepsBooks(s: Sys, key: Key)
    requires Spent(s, key) && Books(s)
    ensures Books(Release(s, key))
  {
    var s' := Release(s, key);
    forall i | i in s'.t.awaiting ensures OwnerOk(s', i) {
      assert OwnerOk(s, i);
    }
    forall k | k in s'.gap ensures GapOk(s', k) {
      assert GapOk(s, k);
    }
  }

  lemma ReleaseKeepsEntries(s: Sys, key: Key)
    requires Spent(s, key) && Entries(s) && Wires(s)
    ensures Entries(Release(s, key)) && Wires(Release(s, key))
  {
    var s' := Release(s, key);
    forall c, k | c in s'.wire && 0 <= k < |s'.wire[c]| ensures EntryOk(s', c, s'.wire[c][k]) {
      assert EntryOk(s, c, s.wire[c][k]) && s.wire[c][k] in s.wire[c];
    }
  }

  lemma ReleaseKeepsSenders(s: Sys, key: Key)
    requires Spent(s, key) && Senders(s)
    ensures Senders(Release(s, key))
  {
    var s' := Release(s, key);
    forall v | v in s'.lanes ensures SenderOk(s', v) {
      assert SenderOk(s, v);
    }
  }

  lemma ReleaseKeepsLanes(s: Sys, key: Key)
    requires Lanes(s) && Fences(s)
    ensures Lanes(Release(s, key)) && Fences(Release(s, key))
  {
    var s' := Release(s, key);
    forall v | v in s'.lanes ensures FenceOk(s', v) {
      assert FenceOk(s, v);
    }
  }

  lemma ReleaseKeepsCovers(s: Sys, key: Key)
    requires Covers(s)
    ensures Covers(Release(s, key))
  {
    var s' := Release(s, key);
    forall v | v in s'.lanes ensures PostCoverOk(s', v) {
      assert PostCoverOk(s, v);
    }
  }

  lemma ReleaseKeepsInv(s: Sys, key: Key)
    requires Spent(s, key) && Inv(s)
    ensures Inv(Release(s, key))
  {
    ReleaseKeepsTables(s, key);
    ReleaseKeepsBooks(s, key);
    ReleaseKeepsEntries(s, key);
    ReleaseKeepsSenders(s, key);
    ReleaseKeepsLanes(s, key);
    ReleaseKeepsCovers(s, key);
  }
}

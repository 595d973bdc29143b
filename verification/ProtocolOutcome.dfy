/** How an attempt of a lane's sender ends: the connection adopted, the call
    taken back for another attempt, or the delivery given up. */
module ProtocolOutcome {
  import opened Options
  import opened Tracker
  import opened Protocol
  import opened ProtocolInvariant
  import opened ProtocolSteps

  // ----- the sender done with its delivery

  /** The sender of `w` is idle, with connection `kept`; `newly` starts the
      readers of a connection nobody had adopted. */
  function Retired(s: Sys, w: string, kept: Option<Conn>, newly: bool): Sys
    requires w in s.lanes && !s.lanes[w].sender.Idle?
  {
    var d := s.lanes[w].sender.d;
    s.(stage := Settle(s.stage, d),
       gap := if d.Call? then s.gap - {d.token} else s.gap,
       lanes := s.lanes[w := s.lanes[w].(conn := kept, sender := Idle)],
       readers := if newly && kept.Some? then s.readers[kept.value := Running] else s.readers,
       roots := if newly && kept.Some? then s.roots[kept.value := Serving] else s.roots)
  }

  /** A connection the lane may keep. */
  ghost predicate Adoptable(s: Sys, w: string, conn: Conn, newly: bool) {
    && conn in s.laneOf && s.laneOf[conn] == w && conn in s.wire && Ready(s.wire[conn]) && Shaken(s.wire[conn])
    && (if newly then conn !in s.readers && conn !in s.roots else conn in s.readers)
  }

  /** Who still waits for the call once its sender is done. */
  ghost predicate Entrusted(s: Sys, d: Delivery, kept: Option<Conn>, newly: bool) {
    d.Call? && Outstanding(s, d.token) ==>
      && d.token !in s.gap && s.t.awaiting[s.ids[d.token]].conn.Some?
      && s.t.awaiting[s.ids[d.token]].conn == kept && (newly || s.over || Covered(s, kept.value))
  }

  ghost predicate Retirable(s: Sys, w: string, kept: Option<Conn>, newly: bool) {
    && w in s.lanes && !s.lanes[w].sender.Idle? && Bears(s, w, s.lanes[w].sender.d)
    && (kept.Some? ==> Adoptable(s, w, kept.value, newly))
    && Entrusted(s, s.lanes[w].sender.d, kept, newly)
  }

  lemma RetireKeepsAdmissions(s: Sys, w: string, kept: Option<Conn>, newly: bool)
    requires Retirable(s, w, kept, newly) && Admissions(s) && Stages(s) && Causes(s)
    ensures Admissions(Retired(s, w, kept, newly)) && Causes(Retired(s, w, kept, newly))
  {
    var s' := Retired(s, w, kept, newly);
    forall k | k in s'.ids ensures TokenOk(s', k) && CauseOk(s', k) {
      assert TokenOk(s, k) && CauseOk(s, k);
    }
  }

  lemma RetireKeepsStages(s: Sys, w: string, kept: Option<Conn>, newly: bool)
    requires Retirable(s, w, kept, newly) && Stages(s)
    ensures Stages(Retired(s, w, kept, newly))
  {
    var s' := Retired(s, w, kept, newly);
    forall k | k in s'.ids ensures StageOk(s', k) {
      assert StageOk(s, k);
    }
  }

  /** A refused message's call, still owed, is not the one the sender leaves. */
  lemma GapElsewhere(s: Sys, w: string, kept: Option<Conn>, newly: bool, i: Id)
    requires Retirable(s, w, kept, newly) && i in s.t.awaiting && OwnerOk(s, i)
    requires s.lanes[w].sender.d.Call? && s.t.awaiting[i].token in s.gap
    ensures s.t.awaiting[i].token != s.lanes[w].sender.d.token
  {
  }

  lemma RetireKeepsOwner(s: Sys, w: string, kept: Option<Conn>, newly: bool, i: Id)
    requires w in s.lanes && !s.lanes[w].sender.Idle? && i in s.t.awaiting && OwnerOk(s, i)
    requires s.lanes[w].sender.d.Call? && s.t.awaiting[i].token in s.gap ==>
      s.t.awaiting[i].token != s.lanes[w].sender.d.token
    ensures OwnerOk(Retired(s, w, kept, newly), i)
  {
  }

  lemma RetireKeepsBooks(s: Sys, w: string, kept: Option<Conn>, newly: bool)
    requires Retirable(s, w, kept, newly) && Books(s) && Stages(s) && Admissions(s)
    ensures Books(Retired(s, w, kept, newly))
  {
    var s' := Retired(s, w, kept, newly);
    forall i | i in s'.t.awaiting ensures OwnerOk(s', i) {
      assert OwnerOk(s, i);
      if s.lanes[w].sender.d.Call? && s.t.awaiting[i].token in s.gap {
        GapElsewhere(s, w, kept, newly, i);
      }
      RetireKeepsOwner(s, w, kept, newly, i);
    }
    forall key | key in s'.t.operations ensures OperationOk(s', key) {
      assert OperationOk(s, key);
    }
    forall k | k in s'.gap ensures GapOk(s', k) {
      assert GapOk(s, k) && StageOk(s, k);
    }
  }

  lemma RetireKeepsWires(s: Sys, w: string, kept: Option<Conn>, newly: bool)
    requires Retirable(s, w, kept, newly) && Wires(s)
    ensures Wires(Retired(s, w, kept, newly))
  {
    var s' := Retired(s, w, kept, newly);
    forall c | c in s'.laneOf ensures ConnOk(s', c) {
      assert ConnOk(s, c);
    }
  }

  lemma RetireKeepsEntries(s: Sys, w: string, kept: Option<Conn>, newly: bool)
    requires Retirable(s, w, kept, newly) && Entries(s)
    ensures Entries(Retired(s, w, kept, newly))
  {
    var s' := Retired(s, w, kept, newly);
    forall c, k | c in s'.wire && 0 <= k < |s'.wire[c]| ensures EntryOk(s', c, s'.wire[c][k]) {
      assert EntryOk(s, c, s.wire[c][k]);
    }
  }

  lemma RetireKeepsLanes(s: Sys, w: string, kept: Option<Conn>, newly: bool)
    requires Retirable(s, w, kept, newly) && Lanes(s) && Fences(s)
    ensures Lanes(Retired(s, w, kept, newly)) && Fences(Retired(s, w, kept, newly))
  {
    var s' := Retired(s, w, kept, newly);
    forall v | v in s'.lanes ensures LaneOk(s', v) && FenceOk(s', v) {
      assert LaneOk(s, v) && FenceOk(s, v);
    }
  }

  lemma RetireKeepsSender(s: Sys, w: string, kept: Option<Conn>, newly: bool, v: string)
    requires Retirable(s, w, kept, newly) && v in s.lanes && v != w && SenderOk(s, v)
    ensures SenderOk(Retired(s, w, kept, newly), v)
  {
  }

  lemma RetireKeepsSenders(s: Sys, w: string, kept: Option<Conn>, newly: bool)
    requires Retirable(s, w, kept, newly) && Senders(s)
    ensures Senders(Retired(s, w, kept, newly))
  {
    var s' := Retired(s, w, kept, newly);
    forall v | v in s'.lanes ensures SenderOk(s', v) {
      if v != w {
        assert SenderOk(s, v);
        RetireKeepsSender(s, w, kept, newly, v);
      }
    }
  }

  lemma RetireKeepsCovers(s: Sys, w: string, kept: Option<Conn>, newly: bool)
    requires Retirable(s, w, kept, newly) && Covers(s) && Books(s)
    ensures Covers(Retired(s, w, kept, newly))
  {
    var s' := Retired(s, w, kept, newly);
    forall c | c in s'.laneOf ensures DyingOk(s', c) {
      assert DyingOk(s, c);
    }
    forall i | i in s'.t.awaiting ensures CoverOk(s', i) {
      assert CoverOk(s, i) && OwnerOk(s, i);
    }
    forall v | v in s'.lanes ensures PostCoverOk(s', v) {
      assert PostCoverOk(s, v);
    }
  }

  lemma RetireKeepsInv(s: Sys, w: string, kept: Option<Conn>, newly: bool)
    requires Retirable(s, w, kept, newly) && Inv(s)
    ensures Inv(Retired(s, w, kept, newly))
  {
    RetireKeepsAdmissions(s, w, kept, newly);
    RetireKeepsStages(s, w, kept, newly);
    RetireKeepsBooks(s, w, kept, newly);
    RetireKeepsWires(s, w, kept, newly);
    RetireKeepsEntries(s, w, kept, newly);
    RetireKeepsLanes(s, w, kept, newly);
    RetireKeepsSenders(s, w, kept, newly);
    RetireKeepsCovers(s, w, kept, newly);
  }

  // ----- the write went through

  lemma NotInGap(s: Sys, w: string)
    requires w in s.lanes && s.lanes[w].sender.Returned? && s.lanes[w].sender.d.Call?
    requires SenderOk(s, w) && Books(s)
    ensures s.lanes[w].sender.d.token !in s.gap
  {
    var token := s.lanes[w].sender.d.token;
    assert token in s.gap ==> GapOk(s, token);
  }

  lemma AdoptRetires(s: Sys, w: string)
    requires CanAdopt(s, w) && SenderOk(s, w) && LaneOk(s, w) && PostCoverOk(s, w)
    requires s.lanes[w].sender.conn in s.laneOf && ConnOk(s, s.lanes[w].sender.conn)
    requires s.lanes[w].sender.d.Call? ==> s.lanes[w].sender.d.token !in s.gap
    ensures Retirable(s, w, Some(s.lanes[w].sender.conn), s.lanes[w].conn.None?)
  {
  }

  /** The invariant does not speak of the timers. */
  lemma TimersKeepInv(s: Sys, timers: set<Token>)
    requires Inv(s)
    ensures Inv(s.(timers := timers))
  {
    TimersKeepTables(s, timers);
    TimersKeepBooks(s, timers);
    TimersKeepSenders(s, timers);
    TimersKeepCovers(s, timers);
  }

  lemma TimersKeepTables(s: Sys, timers: set<Token>)
    requires Admissions(s) && Causes(s) && Stages(s) && Wires(s) && Entries(s) && Lanes(s)
    ensures var s' := s.(timers := timers);
      Admissions(s') && Causes(s') && Stages(s') && Wires(s') && Entries(s') && Lanes(s')
  {
  }

  lemma TimersKeepBooks(s: Sys, timers: set<Token>)
    requires Books(s)
    ensures Books(s.(timers := timers))
  {
    var s' := s.(timers := timers);
    forall k | k in s'.gap ensures GapOk(s', k) {
      assert GapOk(s, k);
    }
  }

  lemma TimersKeepSenders(s: Sys, timers: set<Token>)
    requires Senders(s) && Fences(s)
    ensures Senders(s.(timers := timers)) && Fences(s.(timers := timers))
  {
    var s' := s.(timers := timers);
    forall v | v in s'.lanes ensures SenderOk(s', v) && FenceOk(s', v) {
      assert SenderOk(s, v) && FenceOk(s, v);
    }
  }

  lemma TimersKeepCovers(s: Sys, timers: set<Token>)
    requires Covers(s)
    ensures Covers(s.(timers := timers))
  {
    var s' := s.(timers := timers);
    forall v | v in s'.lanes ensures PostCoverOk(s', v) {
      assert PostCoverOk(s, v);
    }
  }

  lemma NotThere(gap: map<Token, Conn>, token: Token)
    requires token !in gap
    ensures gap - {token} == gap
  {
  }

  lemma AdoptingIs(s: Sys, w: string, timed: bool)
    requires CanAdopt(s, w)
    requires s.lanes[w].sender.d.Call? ==> s.gap - {s.lanes[w].sender.d.token} == s.gap
    ensures Adopts(s, w, timed) ==
      Retired(s, w, Some(s.lanes[w].sender.conn), s.lanes[w].conn.None?).(timers := Adopts(s, w, timed).timers)
  {
  }

  /** A returned write's call is in no gap. */
  lemma ReturnedFacts(s: Sys, w: string)
    requires w in s.lanes && s.lanes[w].sender.Returned? && Books(s) && SenderOk(s, w)
    ensures s.lanes[w].sender.d.Call? ==>
      s.lanes[w].sender.d.token !in s.gap && s.gap - {s.lanes[w].sender.d.token} == s.gap
  {
    if s.lanes[w].sender.d.Call? {
      NotInGap(s, w);
      NotThere(s.gap, s.lanes[w].sender.d.token);
    }
  }

  lemma AdoptKeepsInv(s: Sys, w: string, timed: bool)
    requires CanAdopt(s, w) && Inv(s)
    ensures Inv(Adopts(s, w, timed))
  {
    var conn, newly := Some(s.lanes[w].sender.conn), s.lanes[w].conn.None?;
    var armed := Adopts(s, w, timed).timers;
    assert Retirable(s, w, conn, newly) && Adopts(s, w, timed) == Retired(s, w, conn, newly).(timers := armed) by {
      assert SenderOk(s, w) && LaneOk(s, w) && PostCoverOk(s, w);
      assert ConnOk(s, s.lanes[w].sender.conn);
      ReturnedFacts(s, w);
      AdoptRetires(s, w);
      AdoptingIs(s, w, timed);
    }
    RetireKeepsInv(s, w, conn, newly);
    TimersKeepInv(Retired(s, w, conn, newly), Adopts(s, w, timed).timers);
  }

  // ----- the write failed

  /** The call taken back: its operation abandoned, itself owned by nobody. */
  function Unplaced(s: Sys, w: string): Sys
    requires w in s.lanes && s.lanes[w].sender.Returned? && s.lanes[w].sender.d.Call?
    requires s.lanes[w].sender.d.id in s.t.awaiting
  {
    var d, conn := s.lanes[w].sender.d, s.lanes[w].sender.conn;
    s.(t := AbandonOperation(s.t, Key(conn, d.id))
              .(awaiting := s.t.awaiting[d.id := s.t.awaiting[d.id].(conn := None)]),
       lanes := s.lanes[w := s.lanes[w].(conn := None, sender := After(d, s.lanes[w].sender.left))])
  }

  ghost predicate Retriable(s: Sys, w: string) {
    && w in s.lanes && s.lanes[w].sender.Returned? && s.lanes[w].sender.d.Call?
    && Retries(s.t, s.lanes[w].sender.d.id, s.lanes[w].sender.conn, s.lanes[w].sender.d.token)
    && Bears(s, w, s.lanes[w].sender.d) && s.lanes[w].sender.d.token !in s.gap
  }

  lemma UnplaceKeepsAdmissions(s: Sys, w: string)
    requires Retriable(s, w) && Admissions(s) && Causes(s)
    ensures Admissions(Unplaced(s, w)) && Causes(Unplaced(s, w))
  {
    var s' := Unplaced(s, w);
    forall k | k in s'.ids ensures TokenOk(s', k) && CauseOk(s', k) {
      assert TokenOk(s, k) && CauseOk(s, k);
    }
  }

  lemma UnplaceKeepsStages(s: Sys, w: string)
    requires Retriable(s, w) && Stages(s)
    ensures Stages(Unplaced(s, w))
  {
    var s' := Unplaced(s, w);
    forall k | k in s'.ids ensures StageOk(s', k) {
      assert StageOk(s, k);
    }
  }

  lemma UnplaceKeepsBooks(s: Sys, w: string)
    requires Retriable(s, w) && Books(s)
    ensures Books(Unplaced(s, w))
  {
    var s' := Unplaced(s, w);
    forall i | i in s'.t.awaiting ensures OwnerOk(s', i) {
      assert OwnerOk(s, i);
    }
    forall key | key in s'.t.operations ensures OperationOk(s', key) {
      assert OperationOk(s, key);
    }
    forall k | k in s'.gap ensures GapOk(s', k) {
      assert GapOk(s, k);
    }
  }

  lemma UnplaceKeepsWires(s: Sys, w: string)
    requires Retriable(s, w) && Wires(s) && Entries(s)
    ensures Wires(Unplaced(s, w)) && Entries(Unplaced(s, w))
  {
    var s' := Unplaced(s, w);
    forall c | c in s'.laneOf ensures ConnOk(s', c) {
      assert ConnOk(s, c);
    }
    forall c, k | c in s'.wire && 0 <= k < |s'.wire[c]| ensures EntryOk(s', c, s'.wire[c][k]) {
      assert EntryOk(s, c, s.wire[c][k]);
    }
  }

  lemma UnplaceKeepsLanes(s: Sys, w: string)
    requires Retriable(s, w) && Lanes(s) && Fences(s)
    ensures Lanes(Unplaced(s, w)) && Fences(Unplaced(s, w))
  {
    var s' := Unplaced(s, w);
    forall v | v in s'.lanes ensures LaneOk(s', v) && FenceOk(s', v) {
      assert LaneOk(s, v) && FenceOk(s, v);
    }
  }

  lemma UnplaceKeepsSender(s: Sys, w: string, v: string)
    requires Retriable(s, w) && v in s.lanes && SenderOk(s, v)
    ensures SenderOk(Unplaced(s, w), v)
  {
  }

  lemma UnplaceKeepsCovers(s: Sys, w: string)
    requires Retriable(s, w) && Covers(s)
    ensures Covers(Unplaced(s, w))
  {
    var s' := Unplaced(s, w);
    forall i | i in s'.t.awaiting ensures CoverOk(s', i) {
      assert CoverOk(s, i);
    }
    forall v | v in s'.lanes ensures PostCoverOk(s', v) {
      assert PostCoverOk(s, v);
    }
  }

  lemma UnplaceKeepsInv(s: Sys, w: string)
    requires Retriable(s, w) && Inv(s)
    ensures Inv(Unplaced(s, w))
  {
    UnplaceKeepsAdmissions(s, w);
    UnplaceKeepsStages(s, w);
    UnplaceKeepsBooks(s, w);
    UnplaceKeepsWires(s, w);
    UnplaceKeepsLanes(s, w);
    forall v | v in s.lanes ensures SenderOk(Unplaced(s, w), v) {
      assert SenderOk(s, v);
      UnplaceKeepsSender(s, w, v);
    }
    UnplaceKeepsCovers(s, w);
  }

  lemma RetryingIs(s: Sys, w: string)
    requires CanRetry(s, w) && s.lanes[w].sender.d.Call?
    requires Retries(s.t, s.lanes[w].sender.d.id, s.lanes[w].sender.conn, s.lanes[w].sender.d.token)
    ensures Retrying(s, w) == Unplaced(Shut(s, s.lanes[w].sender.conn), w)
  {
  }

  lemma RetryKeepsInv(s: Sys, w: string)
    requires CanRetry(s, w) && s.lanes[w].sender.d.Call? && Inv(s)
    requires Retries(s.t, s.lanes[w].sender.d.id, s.lanes[w].sender.conn, s.lanes[w].sender.d.token)
    ensures Inv(Retrying(s, w))
  {
    var conn := s.lanes[w].sender.conn;
    assert SenderOk(s, w);
    ShutKeepsInv(s, conn);
    RetryingIs(s, w);
    ReturnedFacts(s, w);
    UnplaceKeepsInv(Shut(s, conn), w);
  }

  /** Whoever reads the connection answered the call first. */
  lemma ForsakenIs(s: Sys, w: string)
    requires CanRetry(s, w) && s.lanes[w].sender.d.Call? && s.gap - {s.lanes[w].sender.d.token} == s.gap
    requires !Retries(s.t, s.lanes[w].sender.d.id, s.lanes[w].sender.conn, s.lanes[w].sender.d.token)
    ensures Retrying(s, w) == Retired(Shut(s, s.lanes[w].sender.conn), w, None, false)
  {
  }

  lemma ForsakeKeepsInv(s: Sys, w: string)
    requires CanRetry(s, w) && s.lanes[w].sender.d.Call? && Inv(s)
    requires !Retries(s.t, s.lanes[w].sender.d.id, s.lanes[w].sender.conn, s.lanes[w].sender.d.token)
    ensures Inv(Retrying(s, w))
  {
    var conn := s.lanes[w].sender.conn;
    assert SenderOk(s, w);
    ShutKeepsInv(s, conn);
    ReturnedFacts(s, w);
    ForsakenIs(s, w);
    RetireKeepsInv(Shut(s, conn), w, None, false);
  }

  lemma NoteAgainIs(s: Sys, w: string)
    requires CanRetry(s, w) && s.lanes[w].sender.d.Note?
    ensures Retrying(s, w) == WithLane(Shut(s, s.lanes[w].sender.conn), w,
              s.lanes[w].(conn := None, sender := After(s.lanes[w].sender.d, s.lanes[w].sender.left)))
  {
  }

  lemma NoteAgainFits(s: Sys, w: string)
    requires w in s.lanes && s.lanes[w].sender.Returned? && s.lanes[w].sender.d.Note?
    requires SenderOk(s, w) && LaneOk(s, w) && FenceOk(s, w)
    ensures var l := s.lanes[w].(conn := None, sender := After(s.lanes[w].sender.d, s.lanes[w].sender.left));
      Smooth(s, w, l) && LaneFits(WithLane(s, w, l), w)
  {
  }

  lemma NoteAgainKeepsInv(s: Sys, w: string)
    requires CanRetry(s, w) && s.lanes[w].sender.d.Note? && Inv(s)
    ensures Inv(Retrying(s, w))
  {
    assert SenderOk(s, w);
    var s1 := Shut(s, s.lanes[w].sender.conn);
    ShutKeepsInv(s, s.lanes[w].sender.conn);
    NoteAgainIs(s, w);
    NoteAgainFits(s1, w);
    LaneKeepsInv(s1, w, s.lanes[w].(conn := None, sender := After(s.lanes[w].sender.d, s.lanes[w].sender.left)));
  }

  lemma RetryingKeepsInv(s: Sys, w: string)
    requires CanRetry(s, w) && Inv(s)
    ensures Inv(Retrying(s, w))
  {
    var sender := s.lanes[w].sender;
    if sender.d.Note? {
      NoteAgainKeepsInv(s, w);
    } else if Retries(s.t, sender.d.id, sender.conn, sender.d.token) {
      RetryKeepsInv(s, w);
    } else {
      ForsakeKeepsInv(s, w);
    }
  }

  // ----- the delivery given up

  lemma FailingIs(s: Sys, w: string)
    requires CanFail(s, w) && s.lanes[w].sender.d.Call?
    ensures var d := s.lanes[w].sender.d;
      Fails(s, w) == Retired(Claim(s, d.id, None, Some(d.token), Undelivered), w, s.lanes[w].conn, false)
  {
  }

  /** What a lane has adopted it may keep. */
  lemma KeepsOwn(s: Sys, w: string)
    requires w in s.lanes && s.lanes[w].conn.Some? && LaneOk(s, w) && ConnOk(s, s.lanes[w].conn.value)
    ensures Adoptable(s, w, s.lanes[w].conn.value, false)
  {
  }

  lemma FailRetires(s: Sys, w: string)
    requires CanFail(s, w) && s.lanes[w].sender.d.Call? && SenderOk(s, w)
    requires s.lanes[w].conn.Some? ==> Adoptable(s, w, s.lanes[w].conn.value, false)
    ensures var d := s.lanes[w].sender.d;
      Retirable(Claim(s, d.id, None, Some(d.token), Undelivered), w, s.lanes[w].conn, false)
  {
  }

  lemma MayKeep(s: Sys, w: string)
    requires w in s.lanes && Wires(s) && Lanes(s)
    ensures s.lanes[w].conn.Some? ==> Adoptable(s, w, s.lanes[w].conn.value, false)
  {
    assert LaneOk(s, w);
    if s.lanes[w].conn.Some? {
      assert ConnOk(s, s.lanes[w].conn.value);
      KeepsOwn(s, w);
    }
  }

  lemma FailKeepsInv(s: Sys, w: string)
    requires CanFail(s, w) && Inv(s)
    ensures Inv(Fails(s, w))
  {
    var d := s.lanes[w].sender.d;
    if d.Call? {
      var s1 := Claim(s, d.id, None, Some(d.token), Undelivered);
      assert Retirable(s1, w, s.lanes[w].conn, false) by {
        assert SenderOk(s, w);
        MayKeep(s, w);
        FailRetires(s, w);
      }
      FailingIs(s, w);
      ClaimKeepsInv(s, d.id, Some(d.token), Undelivered);
      RetireKeepsInv(s1, w, s.lanes[w].conn, false);
    } else {
      NoteIdleKeepsInv(s, w);
    }
  }

  // ----- notifications

  lemma NoteIdleIs(s: Sys, w: string)
    requires w in s.lanes && !s.lanes[w].sender.Idle? && s.lanes[w].sender.d.Note?
    ensures WithSender(s, w, Idle) == Retired(s, w, s.lanes[w].conn, false)
  {
  }

  lemma NoteIdleKeepsInv(s: Sys, w: string)
    requires w in s.lanes && !s.lanes[w].sender.Idle? && s.lanes[w].sender.d.Note?
    requires Inv(s)
    ensures Inv(WithSender(s, w, Idle))
  {
    MayKeep(s, w);
    RetireKeepsInv(s, w, s.lanes[w].conn, false);
    NoteIdleIs(s, w);
  }

  lemma TakeNoteFits(s: Sys, w: string, initial: bool)
    requires CanTakeNote(s, w) && LaneOk(s, w) && FenceOk(s, w)
    ensures var l := s.lanes[w].(sender := Attempting(Note(initial), 2));
      Smooth(s, w, l) && LaneFits(WithLane(s, w, l), w)
  {
  }

  lemma TakeNoteKeepsInv(s: Sys, w: string, initial: bool)
    requires CanTakeNote(s, w) && Inv(s)
    ensures Inv(TakesNote(s, w, initial))
  {
    TakeNoteFits(s, w, initial);
    LaneKeepsInv(s, w, s.lanes[w].(sender := Attempting(Note(initial), 2)));
  }
}

/** The steps from a sender's write to the end of its delivery, and that each
    keeps the invariant. */
module ProtocolWrites {
  import opened Options
  import opened Tracker
  import opened Protocol
  import opened ProtocolInvariant
  import opened ProtocolSteps
  import opened ProtocolCalls

  // ----- Write is called

  ghost predicate AtWriting(s: Sys, w: string, posted: bool, tooLarge: bool) {
    CanIssue(s, w, posted, tooLarge) && SenderOk(s, w)
  }

  lemma IssueKeepsTables(s: Sys, w: string, posted: bool, tooLarge: bool)
    requires AtWriting(s, w, posted, tooLarge) && Admissions(s) && Stages(s) && Causes(s)
    ensures var s' := Issues(s, w, posted, tooLarge); Admissions(s') && Stages(s') && Causes(s')
  {
    var s' := Issues(s, w, posted, tooLarge);
    forall k | k in s'.ids ensures TokenOk(s', k) && StageOk(s', k) && CauseOk(s', k) {
      assert TokenOk(s, k) && StageOk(s, k) && CauseOk(s, k);
    }
  }

  lemma IssueKeepsBooks(s: Sys, w: string, posted: bool, tooLarge: bool)
    requires AtWriting(s, w, posted, tooLarge) && Books(s)
    ensures Books(Issues(s, w, posted, tooLarge))
  {
    var s' := Issues(s, w, posted, tooLarge);
    forall k | k in s'.gap ensures GapOk(s', k) {
      assert GapOk(s, k);
    }
  }

  lemma SentKeepsWire(written: seq<Entry>, d: Delivery, posted: bool, tooLarge: bool)
    requires WireOk(written) && Shaken(written)
    requires if d.initial then written == [] else Ready(written)
    requires d.Call? ==> forall k :: 0 <= k < |written| ==> written[k].token != Some(d.token)
    ensures var more := written + [Sent(d, posted, tooLarge)];
      WireOk(more) && Shaken(more)
  {
    FollowsOn(written, Sent(d, posted, tooLarge));
  }

  lemma IssueKeepsWires(s: Sys, w: string, posted: bool, tooLarge: bool)
    requires AtWriting(s, w, posted, tooLarge) && Wires(s)
    ensures Wires(Issues(s, w, posted, tooLarge))
  {
    var s' := Issues(s, w, posted, tooLarge);
    var conn := s.lanes[w].sender.conn;
    assert ConnOk(s, conn);
    SentKeepsWire(s.wire[conn], s.lanes[w].sender.d, posted, tooLarge);
    forall c | c in s'.laneOf ensures ConnOk(s', c) {
      assert ConnOk(s, c);
    }
  }

  lemma IssueKeepsEntries(s: Sys, w: string, posted: bool, tooLarge: bool)
    requires AtWriting(s, w, posted, tooLarge) && Entries(s) && (tooLarge ==> !posted)
    ensures Entries(Issues(s, w, posted, tooLarge))
  {
    var s' := Issues(s, w, posted, tooLarge);
    var conn := s.lanes[w].sender.conn;
    forall c, k | c in s'.wire && 0 <= k < |s'.wire[c]| ensures EntryOk(s', c, s'.wire[c][k]) {
      if c != conn || k < |s.wire[c]| {
        assert EntryOk(s, c, s.wire[c][k]);
      }
    }
  }

  lemma IssueKeepsLanes(s: Sys, w: string, posted: bool, tooLarge: bool)
    requires AtWriting(s, w, posted, tooLarge) && Lanes(s) && Fences(s)
    ensures Lanes(Issues(s, w, posted, tooLarge)) && Fences(Issues(s, w, posted, tooLarge))
  {
    var s' := Issues(s, w, posted, tooLarge);
    forall v | v in s'.lanes ensures LaneOk(s', v) {
      assert LaneOk(s, v);
    }
    forall v | v in s'.lanes ensures FenceOk(s', v) {
      assert FenceOk(s, v);
      if !s.lanes[v].worker.Rest? {
        PlacedStays(s, s', s.lanes[v].worker.control);
      }
    }
  }

  lemma IssueKeepsSender(s: Sys, w: string, posted: bool, tooLarge: bool, v: string)
    requires AtWriting(s, w, posted, tooLarge) && v in s.lanes && SenderOk(s, v) && LaneOk(s, v)
    ensures SenderOk(Issues(s, w, posted, tooLarge), v)
  {
  }

  lemma IssueKeepsSenders(s: Sys, w: string, posted: bool, tooLarge: bool)
    requires AtWriting(s, w, posted, tooLarge) && Lanes(s) && Senders(s)
    ensures Senders(Issues(s, w, posted, tooLarge))
  {
    var s' := Issues(s, w, posted, tooLarge);
    forall v | v in s'.lanes ensures SenderOk(s', v) {
      assert SenderOk(s, v) && LaneOk(s, v);
      IssueKeepsSender(s, w, posted, tooLarge, v);
    }
  }

  lemma IssueKeepsCovers(s: Sys, w: string, posted: bool, tooLarge: bool)
    requires AtWriting(s, w, posted, tooLarge) && Lanes(s) && Covers(s) && Senders(s)
    ensures Covers(Issues(s, w, posted, tooLarge))
  {
    var s' := Issues(s, w, posted, tooLarge);
    forall v | v in s'.lanes ensures PostCoverOk(s', v) {
      assert PostCoverOk(s, v) && SenderOk(s, v);
      if v == w {
        assert LaneOk(s, w) && DyingOk(s, s.lanes[w].sender.conn);
      }
    }
    forall i | i in s'.t.awaiting ensures CoverOk(s', i) {
      assert CoverOk(s, i);
    }
  }

  lemma IssueKeepsInv(s: Sys, w: string, posted: bool, tooLarge: bool)
    requires CanIssue(s, w, posted, tooLarge) && Inv(s)
    ensures Inv(Issues(s, w, posted, tooLarge))
  {
    assert SenderOk(s, w);
    IssueKeepsTables(s, w, posted, tooLarge);
    IssueKeepsBooks(s, w, posted, tooLarge);
    IssueKeepsWires(s, w, posted, tooLarge);
    IssueKeepsEntries(s, w, posted, tooLarge);
    IssueKeepsLanes(s, w, posted, tooLarge);
    IssueKeepsSenders(s, w, posted, tooLarge);
    IssueKeepsCovers(s, w, posted, tooLarge);
  }

  // ----- a flag of a written message set

  /** The two ways a message changes after it was written: its Write returns, or
      its answer is read. */
  ghost predicate Flagged(before: Entry, after: Entry) {
    && after == before.(returned := after.returned, answered := after.answered)
    && (before.returned ==> after.returned) && (before.answered ==> after.answered)
  }

  function Mark(s: Sys, conn: Conn, at: nat, e: Entry): Sys
    requires conn in s.wire && at < |s.wire[conn]|
  {
    s.(wire := s.wire[conn := s.wire[conn][at := e]])
  }

  ghost predicate CanMark(s: Sys, conn: Conn, at: nat, e: Entry) {
    conn in s.wire && at < |s.wire[conn]| && Flagged(s.wire[conn][at], e)
  }

  lemma MarkKeepsTables(s: Sys, conn: Conn, at: nat, e: Entry)
    requires CanMark(s, conn, at, e) && Admissions(s) && Stages(s) && Causes(s)
    ensures Admissions(Mark(s, conn, at, e)) && Stages(Mark(s, conn, at, e)) && Causes(Mark(s, conn, at, e))
  {
    var s' := Mark(s, conn, at, e);
    forall k | k in s'.ids ensures TokenOk(s', k) && StageOk(s', k) && CauseOk(s', k) {
      assert TokenOk(s, k) && StageOk(s, k) && CauseOk(s, k);
    }
  }

  lemma MarkKeepsBooks(s: Sys, conn: Conn, at: nat, e: Entry)
    requires CanMark(s, conn, at, e) && Books(s)
    ensures Books(Mark(s, conn, at, e))
  {
    var s' := Mark(s, conn, at, e);
    forall k | k in s'.gap ensures GapOk(s', k) {
      assert GapOk(s, k);
    }
  }

  lemma MarkKeepsWire(written: seq<Entry>, at: nat, e: Entry)
    requires at < |written| && Flagged(written[at], e)
    requires WireOk(written)
    ensures WireOk(written[at := e]) && (Ready(written) ==> Ready(written[at := e]))
    ensures Shaken(written) ==> Shaken(written[at := e])
  {
    var marked := written[at := e];
    forall k | 0 <= k < |marked| && marked[k].body.Cancel?
      ensures exists j :: 0 <= j < k && marked[j].token == Some(marked[k].body.named) && marked[j].returned
    {
      var j :| 0 <= j < k && written[j].token == Some(written[k].body.named) && written[j].returned;
      assert marked[j].returned;
    }
  }

  lemma MarkKeepsWires(s: Sys, conn: Conn, at: nat, e: Entry)
    requires CanMark(s, conn, at, e) && Wires(s)
    ensures Wires(Mark(s, conn, at, e))
  {
    var s' := Mark(s, conn, at, e);
    forall c | c in s'.laneOf ensures ConnOk(s', c) {
      assert ConnOk(s, c);
      if c == conn {
        MarkKeepsWire(s.wire[conn], at, e);
      }
    }
  }

  lemma MarkKeepsEntries(s: Sys, conn: Conn, at: nat, e: Entry)
    requires CanMark(s, conn, at, e) && Entries(s)
    ensures Entries(Mark(s, conn, at, e))
  {
    var s' := Mark(s, conn, at, e);
    forall c, k | c in s'.wire && 0 <= k < |s'.wire[c]| ensures EntryOk(s', c, s'.wire[c][k]) {
      assert EntryOk(s, c, s.wire[c][k]);
    }
  }

  lemma MarkKeepsLanes(s: Sys, conn: Conn, at: nat, e: Entry)
    requires CanMark(s, conn, at, e) && Lanes(s) && Fences(s)
    ensures Lanes(Mark(s, conn, at, e)) && Fences(Mark(s, conn, at, e))
  {
    var s' := Mark(s, conn, at, e);
    forall v | v in s'.lanes ensures FenceOk(s', v) {
      assert FenceOk(s, v);
      if !s.lanes[v].worker.Rest? {
        PlacedStays(s, s', s.lanes[v].worker.control);
      }
    }
  }

  lemma MarkKeepsAttempting(s: Sys, conn: Conn, at: nat, e: Entry, v: string)
    requires CanMark(s, conn, at, e) && v in s.lanes && s.lanes[v].sender.Attempting? && SenderOk(s, v)
    ensures SenderOk(Mark(s, conn, at, e), v)
  {
  }

  lemma MarkKeepsWriting(s: Sys, conn: Conn, at: nat, e: Entry, v: string)
    requires CanMark(s, conn, at, e) && v in s.lanes && s.lanes[v].sender.Writing? && SenderOk(s, v)
    ensures SenderOk(Mark(s, conn, at, e), v)
  {
    assert s.wire[conn] != [];
  }

  lemma MarkKeepsUse(s: Sys, conn: Conn, at: nat, e: Entry, v: string, c: Conn)
    requires CanMark(s, conn, at, e) && v in s.lanes && Uses(s, v, c)
    ensures Uses(Mark(s, conn, at, e), v, c)
  {
  }

  lemma MarkKeepsAt(s: Sys, conn: Conn, at: nat, e: Entry, d: Delivery, c: Conn, k: nat)
    requires CanMark(s, conn, at, e) && c in s.wire && WrittenAt(s, d, c, k)
    ensures var s' := Mark(s, conn, at, e);
      && c in s'.wire && WrittenAt(s', d, c, k)
      && (s.wire[c][k].returned ==> s'.wire[c][k].returned) && s'.wire[c][k].posted == s.wire[c][k].posted
  {
  }

  lemma MarkKeepsIssued(s: Sys, conn: Conn, at: nat, e: Entry, v: string)
    requires CanMark(s, conn, at, e) && v in s.lanes && s.lanes[v].sender.Issued? && SenderOk(s, v)
    ensures SenderOk(Mark(s, conn, at, e), v)
  {
    var sender := s.lanes[v].sender;
    MarkKeepsUse(s, conn, at, e, v, sender.conn);
    MarkKeepsAt(s, conn, at, e, sender.d, sender.conn, sender.at);
  }

  lemma MarkKeepsReturned(s: Sys, conn: Conn, at: nat, e: Entry, v: string)
    requires CanMark(s, conn, at, e) && v in s.lanes && s.lanes[v].sender.Returned? && SenderOk(s, v)
    ensures SenderOk(Mark(s, conn, at, e), v)
  {
    var sender := s.lanes[v].sender;
    MarkKeepsUse(s, conn, at, e, v, sender.conn);
    MarkKeepsAt(s, conn, at, e, sender.d, sender.conn, sender.at);
  }

  lemma MarkKeepsFailing(s: Sys, conn: Conn, at: nat, e: Entry, v: string)
    requires CanMark(s, conn, at, e) && v in s.lanes && s.lanes[v].sender.Failing? && SenderOk(s, v)
    ensures SenderOk(Mark(s, conn, at, e), v)
  {
  }

  lemma MarkKeepsSender(s: Sys, conn: Conn, at: nat, e: Entry, v: string)
    requires CanMark(s, conn, at, e) && v in s.lanes && SenderOk(s, v)
    ensures SenderOk(Mark(s, conn, at, e), v)
  {
    match s.lanes[v].sender
    case Attempting(_, _) => MarkKeepsAttempting(s, conn, at, e, v);
    case Writing(_, _, _) => MarkKeepsWriting(s, conn, at, e, v);
    case Issued(_, _, _, _) => MarkKeepsIssued(s, conn, at, e, v);
    case Returned(_, _, _, _, _) => MarkKeepsReturned(s, conn, at, e, v);
    case Failing(_) => MarkKeepsFailing(s, conn, at, e, v);
    case Idle =>
  }

  lemma MarkKeepsCovers(s: Sys, conn: Conn, at: nat, e: Entry)
    requires CanMark(s, conn, at, e) && Covers(s)
    ensures Covers(Mark(s, conn, at, e))
  {
    var s' := Mark(s, conn, at, e);
    forall v | v in s'.lanes ensures PostCoverOk(s', v) {
      assert PostCoverOk(s, v);
    }
  }

  lemma MarkKeepsInv(s: Sys, conn: Conn, at: nat, e: Entry)
    requires CanMark(s, conn, at, e) && Inv(s)
    ensures Inv(Mark(s, conn, at, e))
  {
    MarkKeepsTables(s, conn, at, e);
    MarkKeepsBooks(s, conn, at, e);
    MarkKeepsWires(s, conn, at, e);
    MarkKeepsEntries(s, conn, at, e);
    MarkKeepsLanes(s, conn, at, e);
    forall v | v in s.lanes ensures SenderOk(Mark(s, conn, at, e), v) {
      assert SenderOk(s, v);
      MarkKeepsSender(s, conn, at, e, v);
    }
    MarkKeepsCovers(s, conn, at, e);
  }

  // ----- Write returns

  lemma ReturnFits(s: Sys, w: string, ok: bool)
    requires CanReturn(s, w, ok) && s.wire[s.lanes[w].sender.conn][s.lanes[w].sender.at].returned
    requires SenderOk(s, w) && LaneOk(s, w) && FenceOk(s, w) && PostCoverOk(s, w)
    ensures var sender := s.lanes[w].sender;
      var l := s.lanes[w].(sender := Returned(sender.d, sender.left, sender.conn, sender.at, ok));
      Smooth(s, w, l) && LaneFits(WithLane(s, w, l), w)
  {
  }

  /** The message of `w`'s sender, with its Write come back. */
  function Back(s: Sys, w: string): Sys
    requires w in s.lanes && s.lanes[w].sender.Issued? && s.lanes[w].sender.conn in s.wire
    requires s.lanes[w].sender.at < |s.wire[s.lanes[w].sender.conn]|
  {
    var conn, at := s.lanes[w].sender.conn, s.lanes[w].sender.at;
    Mark(s, conn, at, s.wire[conn][at].(returned := true))
  }

  lemma BackKeepsInv(s: Sys, w: string, ok: bool)
    requires CanReturn(s, w, ok) && Inv(s)
    ensures Inv(Back(s, w))
  {
    var conn, at := s.lanes[w].sender.conn, s.lanes[w].sender.at;
    MarkKeepsInv(s, conn, at, s.wire[conn][at].(returned := true));
  }

  lemma ReturningIs(s: Sys, w: string, ok: bool)
    requires CanReturn(s, w, ok)
    ensures var sender := s.lanes[w].sender;
      Returns(s, w, ok) == WithLane(Back(s, w), w,
        s.lanes[w].(sender := Returned(sender.d, sender.left, sender.conn, sender.at, ok)))
    ensures CanReturn(Back(s, w), w, ok)
    ensures Back(s, w).wire[s.lanes[w].sender.conn][s.lanes[w].sender.at].returned
    ensures Back(s, w).lanes == s.lanes
  {
  }

  lemma ReturnKeepsInv(s: Sys, w: string, ok: bool)
    requires CanReturn(s, w, ok) && Inv(s)
    ensures Inv(Returns(s, w, ok))
  {
    BackKeepsInv(s, w, ok);
    ReturningIs(s, w, ok);
    var s1, sender := Back(s, w), s.lanes[w].sender;
    assert SenderOk(s1, w) && LaneOk(s1, w) && FenceOk(s1, w) && PostCoverOk(s1, w);
    ReturnFits(s1, w, ok);
    LaneKeepsInv(s1, w, s.lanes[w].(sender := Returned(sender.d, sender.left, sender.conn, sender.at, ok)));
  }

  // ----- a message over the limit

  /** EndsTooLarge before a connection nobody adopted is closed. */
  function GapOpened(s: Sys, w: string): Sys
    requires w in s.lanes && s.lanes[w].sender.Returned? && s.lanes[w].sender.d.Call?
  {
    var d, conn := s.lanes[w].sender.d, s.lanes[w].sender.conn;
    WithSender(s.(t := s.t.(operations := s.t.operations - {Key(conn, d.id)}), gap := s.gap[d.token := conn]), w,
               Failing(d))
  }

  ghost predicate AtTooLarge(s: Sys, w: string) {
    CanEndTooLarge(s, w) && SenderOk(s, w) && s.lanes[w].sender.d.Call?
  }

  lemma GapKeepsAdmissions(s: Sys, w: string)
    requires AtTooLarge(s, w) && Admissions(s) && Stages(s) && Causes(s)
    ensures Admissions(GapOpened(s, w)) && Stages(GapOpened(s, w)) && Causes(GapOpened(s, w))
  {
    var s' := GapOpened(s, w);
    forall k | k in s'.ids ensures TokenOk(s', k) && StageOk(s', k) && CauseOk(s', k) {
      assert TokenOk(s, k) && StageOk(s, k) && CauseOk(s, k);
    }
  }

  lemma GapKeepsOwners(s: Sys, w: string)
    requires AtTooLarge(s, w) && Books(s)
    ensures forall i :: i in GapOpened(s, w).t.awaiting ==> OwnerOk(GapOpened(s, w), i)
  {
    var s' := GapOpened(s, w);
    forall i | i in s'.t.awaiting ensures OwnerOk(s', i) {
      assert OwnerOk(s, i);
      var owner := s.t.awaiting[i];
      assert owner.token in s.gap ==> GapOk(s, owner.token);
    }
  }

  lemma GapKeepsBooks(s: Sys, w: string)
    requires AtTooLarge(s, w) && Books(s)
    ensures Books(GapOpened(s, w))
  {
    GapKeepsOwners(s, w);
    var s' := GapOpened(s, w);
    forall k | k in s'.gap ensures GapOk(s', k) {
      assert k in s.gap ==> GapOk(s, k);
    }
    forall key | key in s'.t.operations ensures OperationOk(s', key) {
      assert OperationOk(s, key);
    }
  }

  lemma GapKeepsWires(s: Sys, w: string)
    requires AtTooLarge(s, w) && Wires(s)
    ensures Wires(GapOpened(s, w))
  {
    var s' := GapOpened(s, w);
    forall c | c in s'.laneOf ensures ConnOk(s', c) {
      assert ConnOk(s, c);
    }
  }

  lemma GapKeepsEntries(s: Sys, w: string)
    requires AtTooLarge(s, w) && Wires(s) && Entries(s)
    ensures Entries(GapOpened(s, w))
  {
    var s' := GapOpened(s, w);
    var conn, at := s.lanes[w].sender.conn, s.lanes[w].sender.at;
    assert ConnOk(s, conn) && EntryOk(s, conn, s.wire[conn][at]);
    forall c, k | c in s'.wire && 0 <= k < |s'.wire[c]| ensures EntryOk(s', c, s'.wire[c][k]) {
      assert EntryOk(s, c, s.wire[c][k]);
    }
  }

  lemma GapKeepsLanes(s: Sys, w: string)
    requires AtTooLarge(s, w) && Lanes(s) && Fences(s)
    ensures Lanes(GapOpened(s, w)) && Fences(GapOpened(s, w))
  {
    var s' := GapOpened(s, w);
    forall v | v in s'.lanes ensures LaneOk(s', v) && FenceOk(s', v) {
      assert LaneOk(s, v) && FenceOk(s, v);
    }
  }

  lemma GapKeepsSenders(s: Sys, w: string)
    requires AtTooLarge(s, w) && Senders(s)
    ensures Senders(GapOpened(s, w))
  {
    var s' := GapOpened(s, w);
    forall v | v in s'.lanes ensures SenderOk(s', v) {
      assert SenderOk(s, v);
    }
  }

  lemma GapKeepsCovers(s: Sys, w: string)
    requires AtTooLarge(s, w) && Covers(s)
    ensures Covers(GapOpened(s, w))
  {
    var s' := GapOpened(s, w);
    forall v | v in s'.lanes ensures PostCoverOk(s', v) {
      assert PostCoverOk(s, v);
    }
    forall i | i in s'.t.awaiting ensures CoverOk(s', i) {
      assert CoverOk(s, i);
    }
  }

  lemma GapKeepsInv(s: Sys, w: string)
    requires AtTooLarge(s, w) && Inv(s)
    ensures Inv(GapOpened(s, w))
  {
    GapKeepsAdmissions(s, w);
    GapKeepsBooks(s, w);
    GapKeepsWires(s, w);
    GapKeepsEntries(s, w);
    GapKeepsLanes(s, w);
    GapKeepsSenders(s, w);
    GapKeepsCovers(s, w);
  }

  lemma NoteFailFits(s: Sys, w: string)
    requires w in s.lanes && s.lanes[w].sender.Returned? && s.lanes[w].sender.d.Note?
    requires SenderOk(s, w) && LaneOk(s, w) && FenceOk(s, w)
    ensures var l := s.lanes[w].(sender := Failing(s.lanes[w].sender.d));
      Smooth(s, w, l) && LaneFits(WithLane(s, w, l), w)
  {
  }

  lemma CallEndingIs(s: Sys, w: string)
    requires CanEndTooLarge(s, w) && s.lanes[w].sender.d.Call?
    ensures var s1, s' := GapOpened(s, w), EndsTooLarge(s, w);
      s' == (if s.lanes[w].conn.None? then Shut(s1, s.lanes[w].sender.conn) else s1).(t := s'.t)
  {
  }

  lemma EndingTables(t: State, key: Key)
    ensures SameTables(t.(operations := t.operations - {key}), EndOperation(t, key))
  {
    assert key !in t.operations ==> t.operations - {key} == t.operations;
  }

  lemma CallEndingTables(s: Sys, w: string)
    requires CanEndTooLarge(s, w) && s.lanes[w].sender.d.Call?
    ensures SameTables(GapOpened(s, w).t, EndsTooLarge(s, w).t)
  {
    EndingTables(s.t, Key(s.lanes[w].sender.conn, s.lanes[w].sender.d.id));
  }

  lemma CallEndKeepsInv(s: Sys, w: string)
    requires CanEndTooLarge(s, w) && s.lanes[w].sender.d.Call? && Inv(s)
    ensures Inv(EndsTooLarge(s, w))
  {
    assert SenderOk(s, w);
    GapKeepsInv(s, w);
    CallEndingIs(s, w);
    CallEndingTables(s, w);
    var s1, conn := GapOpened(s, w), s.lanes[w].sender.conn;
    if s.lanes[w].conn.None? {
      ShutKeepsInv(s1, conn);
      CountsKeepInv(Shut(s1, conn), EndsTooLarge(s, w).t);
    } else {
      CountsKeepInv(s1, EndsTooLarge(s, w).t);
    }
  }

  lemma NoteEndingIs(s: Sys, w: string)
    requires CanEndTooLarge(s, w) && s.lanes[w].sender.d.Note?
    ensures var s1 := WithSender(s, w, Failing(s.lanes[w].sender.d));
      EndsTooLarge(s, w) == if s.lanes[w].conn.None? then Shut(s1, s.lanes[w].sender.conn) else s1
  {
  }

  lemma NoteEndKeepsInv(s: Sys, w: string)
    requires CanEndTooLarge(s, w) && s.lanes[w].sender.d.Note? && Inv(s)
    ensures Inv(EndsTooLarge(s, w))
  {
    assert SenderOk(s, w);
    NoteFailFits(s, w);
    LaneKeepsInv(s, w, s.lanes[w].(sender := Failing(s.lanes[w].sender.d)));
    NoteEndingIs(s, w);
    if s.lanes[w].conn.None? {
      ShutKeepsInv(WithSender(s, w, Failing(s.lanes[w].sender.d)), s.lanes[w].sender.conn);
    }
  }

  lemma EndTooLargeKeepsInv(s: Sys, w: string)
    requires CanEndTooLarge(s, w) && Inv(s)
    ensures Inv(EndsTooLarge(s, w))
  {
    if s.lanes[w].sender.d.Call? {
      CallEndKeepsInv(s, w);
    } else {
      NoteEndKeepsInv(s, w);
    }
  }
}

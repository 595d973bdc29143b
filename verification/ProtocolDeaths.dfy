/** What the readers of a connection do: replies to its server, the answers they
    read, and its death. */
module ProtocolDeaths {
  import opened Options
  import opened Tracker
  import opened Protocol
  import opened ProtocolInvariant
  import opened ProtocolSteps
  import opened ProtocolWrites

  // ----- a connection's calls failed

  lemma StrandKeepsAdmissions(s: Sys, conn: Conn)
    requires Admissions(s) && Causes(s)
    ensures Admissions(Strand(s, conn)) && Causes(Strand(s, conn))
  {
    var s' := Strand(s, conn);
    forall k | k in s'.ids ensures TokenOk(s', k) && CauseOk(s', k) {
      assert TokenOk(s, k) && CauseOk(s, k);
    }
  }

  lemma StrandKeepsStages(s: Sys, conn: Conn)
    requires Stages(s)
    ensures Stages(Strand(s, conn))
  {
    var s' := Strand(s, conn);
    forall k | k in s'.ids ensures StageOk(s', k) {
      assert StageOk(s, k);
    }
  }

  lemma StrandKeepsBooks(s: Sys, conn: Conn)
    requires Books(s)
    ensures Books(Strand(s, conn))
  {
    var s' := Strand(s, conn);
    forall i | i in s'.t.awaiting ensures OwnerOk(s', i) {
      assert OwnerOk(s, i);
    }
    forall key | key in s'.t.operations ensures OperationOk(s', key) {
      assert OperationOk(s, key);
    }
    forall k | k in s'.gap ensures GapOk(s', k) {
      assert GapOk(s, k);
    }
  }

  lemma StrandKeepsWires(s: Sys, conn: Conn)
    requires Wires(s) && Entries(s) && Lanes(s)
    ensures Wires(Strand(s, conn)) && Entries(Strand(s, conn)) && Lanes(Strand(s, conn))
  {
    var s' := Strand(s, conn);
    forall c | c in s'.laneOf ensures ConnOk(s', c) {
      assert ConnOk(s, c);
    }
    forall c, k | c in s'.wire && 0 <= k < |s'.wire[c]| ensures EntryOk(s', c, s'.wire[c][k]) {
      assert EntryOk(s, c, s.wire[c][k]);
    }
    forall v | v in s'.lanes ensures LaneOk(s', v) {
      assert LaneOk(s, v);
    }
  }

  lemma StrandKeepsSender(s: Sys, conn: Conn, v: string)
    requires v in s.lanes && SenderOk(s, v)
    ensures SenderOk(Strand(s, conn), v)
  {
  }

  lemma StrandKeepsSenders(s: Sys, conn: Conn)
    requires Senders(s)
    ensures Senders(Strand(s, conn))
  {
    var s' := Strand(s, conn);
    forall v | v in s'.lanes ensures SenderOk(s', v) {
      assert SenderOk(s, v);
      StrandKeepsSender(s, conn, v);
    }
  }

  lemma StrandKeepsFences(s: Sys, conn: Conn)
    requires Fences(s)
    ensures Fences(Strand(s, conn))
  {
    var s' := Strand(s, conn);
    forall v | v in s'.lanes ensures FenceOk(s', v) {
      assert FenceOk(s, v);
    }
  }

  lemma StrandKeepsCovers(s: Sys, conn: Conn)
    requires Covers(s)
    ensures Covers(Strand(s, conn))
  {
    var s' := Strand(s, conn);
    forall c | c in s'.laneOf ensures DyingOk(s', c) {
      assert DyingOk(s, c);
    }
    forall i | i in s'.t.awaiting ensures CoverOk(s', i) {
      assert CoverOk(s, i);
    }
    forall v | v in s'.lanes ensures PostCoverOk(s', v) {
      assert PostCoverOk(s, v);
    }
  }

  lemma StrandKeepsInv(s: Sys, conn: Conn)
    requires Inv(s)
    ensures Inv(Strand(s, conn))
  {
    StrandKeepsAdmissions(s, conn);
    StrandKeepsStages(s, conn);
    StrandKeepsBooks(s, conn);
    StrandKeepsWires(s, conn);
    StrandKeepsSenders(s, conn);
    StrandKeepsFences(s, conn);
    StrandKeepsCovers(s, conn);
  }

  // ----- the readers of one connection move on

  function Tended(s: Sys, readers: map<Conn, Reader>, roots: map<Conn, RootsWorker>, closed: set<Conn>,
                  released: set<Conn>): Sys {
    s.(readers := readers, roots := roots, closed := closed, released := released)
  }

  ghost predicate OnlyAt<T>(conn: Conn, before: map<Conn, T>, after: map<Conn, T>) {
    before.Keys == after.Keys && forall c :: c in before && c != conn ==> after[c] == before[c]
  }

  /** Only `conn` moves, and whoever it owns keeps somebody to fail it. */
  ghost predicate Tends(s: Sys, conn: Conn, s': Sys) {
    && conn in s.laneOf
    && OnlyAt(conn, s.readers, s'.readers) && OnlyAt(conn, s.roots, s'.roots)
    && s.closed <= s'.closed <= s.closed + {conn} && s.released <= s'.released <= s.released + {conn}
    && DyingOk(s', conn)
    && (Covered(s, conn) ==> Covered(s', conn) || s.over || OwnedBy(s.t, conn) == {})
  }

  lemma TendKeepsTables(s: Sys, conn: Conn, readers: map<Conn, Reader>, roots: map<Conn, RootsWorker>,
                        closed: set<Conn>, released: set<Conn>)
    requires Admissions(s) && Causes(s) && Stages(s)
    ensures var s' := Tended(s, readers, roots, closed, released);
      Admissions(s') && Causes(s') && Stages(s')
  {
    var s' := Tended(s, readers, roots, closed, released);
    forall k | k in s'.ids ensures TokenOk(s', k) && CauseOk(s', k) && StageOk(s', k) {
      assert TokenOk(s, k) && CauseOk(s, k) && StageOk(s, k);
    }
  }

  lemma TendKeepsBooks(s: Sys, conn: Conn, readers: map<Conn, Reader>, roots: map<Conn, RootsWorker>,
                       closed: set<Conn>, released: set<Conn>)
    requires Books(s)
    ensures Books(Tended(s, readers, roots, closed, released))
  {
    var s' := Tended(s, readers, roots, closed, released);
    forall k | k in s'.gap ensures GapOk(s', k) {
      assert GapOk(s, k);
    }
  }

  lemma TendKeepsWires(s: Sys, conn: Conn, readers: map<Conn, Reader>, roots: map<Conn, RootsWorker>,
                       closed: set<Conn>, released: set<Conn>)
    requires Tends(s, conn, Tended(s, readers, roots, closed, released)) && Wires(s) && Entries(s) && Lanes(s)
    ensures var s' := Tended(s, readers, roots, closed, released);
      Wires(s') && Entries(s') && Lanes(s')
  {
    var s' := Tended(s, readers, roots, closed, released);
    forall c | c in s'.laneOf ensures ConnOk(s', c) {
      assert ConnOk(s, c);
    }
    forall c, k | c in s'.wire && 0 <= k < |s'.wire[c]| ensures EntryOk(s', c, s'.wire[c][k]) {
      assert EntryOk(s, c, s.wire[c][k]);
    }
    forall v | v in s'.lanes ensures LaneOk(s', v) {
      assert LaneOk(s, v);
    }
  }

  lemma TendKeepsSenders(s: Sys, conn: Conn, readers: map<Conn, Reader>, roots: map<Conn, RootsWorker>,
                         closed: set<Conn>, released: set<Conn>)
    requires Tends(s, conn, Tended(s, readers, roots, closed, released)) && Senders(s) && Fences(s)
    ensures var s' := Tended(s, readers, roots, closed, released); Senders(s') && Fences(s')
  {
    var s' := Tended(s, readers, roots, closed, released);
    forall v | v in s'.lanes ensures SenderOk(s', v) {
      assert SenderOk(s, v);
    }
    forall v | v in s'.lanes ensures FenceOk(s', v) {
      assert FenceOk(s, v);
    }
  }

  lemma TendKeepsCover(s: Sys, conn: Conn, readers: map<Conn, Reader>, roots: map<Conn, RootsWorker>,
                       closed: set<Conn>, released: set<Conn>, v: string)
    requires Tends(s, conn, Tended(s, readers, roots, closed, released))
    requires v in s.lanes && PostCoverOk(s, v) && SenderOk(s, v)
    ensures PostCoverOk(Tended(s, readers, roots, closed, released), v)
  {
    var sender := s.lanes[v].sender;
    if (sender.Issued? || sender.Returned?) && sender.d.Call? && Outstanding(s, sender.d.token) && sender.conn == conn {
      assert sender.d.id in OwnedBy(s.t, conn);
    }
  }

  lemma TendKeepsCovers(s: Sys, conn: Conn, readers: map<Conn, Reader>, roots: map<Conn, RootsWorker>,
                        closed: set<Conn>, released: set<Conn>)
    requires Tends(s, conn, Tended(s, readers, roots, closed, released)) && Covers(s) && Senders(s)
    ensures Covers(Tended(s, readers, roots, closed, released))
  {
    var s' := Tended(s, readers, roots, closed, released);
    forall c | c in s'.laneOf ensures DyingOk(s', c) {
      assert DyingOk(s, c);
    }
    forall i | i in s'.t.awaiting ensures CoverOk(s', i) {
      assert CoverOk(s, i);
      assert s.t.awaiting[i].conn == Some(conn) ==> i in OwnedBy(s.t, conn);
    }
    forall v | v in s'.lanes ensures PostCoverOk(s', v) {
      assert PostCoverOk(s, v) && SenderOk(s, v);
      TendKeepsCover(s, conn, readers, roots, closed, released, v);
    }
  }

  lemma TendKeepsInv(s: Sys, conn: Conn, readers: map<Conn, Reader>, roots: map<Conn, RootsWorker>,
                     closed: set<Conn>, released: set<Conn>)
    requires Tends(s, conn, Tended(s, readers, roots, closed, released)) && Inv(s)
    ensures Inv(Tended(s, readers, roots, closed, released))
  {
    TendKeepsTables(s, conn, readers, roots, closed, released);
    TendKeepsBooks(s, conn, readers, roots, closed, released);
    TendKeepsWires(s, conn, readers, roots, closed, released);
    TendKeepsSenders(s, conn, readers, roots, closed, released);
    TendKeepsCovers(s, conn, readers, roots, closed, released);
  }

  lemma ReadFailTends(s: Sys, conn: Conn, closes: bool)
    requires CanFailRead(s, conn, closes) && conn in s.laneOf && DyingOk(s, conn)
    ensures var s' := ReadFails(s, conn, closes);
      Tends(s, conn, s') && s' == Tended(s, s'.readers, s'.roots, s'.closed, s'.released)
  {
  }

  lemma ReadFailKeepsInv(s: Sys, conn: Conn, closes: bool)
    requires CanFailRead(s, conn, closes) && Inv(s)
    ensures Inv(ReadFails(s, conn, closes))
  {
    var s' := ReadFails(s, conn, closes);
    assert DyingOk(s, conn);
    ReadFailTends(s, conn, closes);
    TendKeepsInv(s, conn, s'.readers, s'.roots, s'.closed, s'.released);
  }

  lemma ReaderQuitTends(s: Sys, conn: Conn)
    requires conn in s.readers && s.readers[conn].Running? && s.over && conn in s.laneOf && DyingOk(s, conn)
    ensures var s' := ReaderQuits(s, conn);
      Tends(s, conn, s') && s' == Tended(s, s'.readers, s'.roots, s'.closed, s'.released)
  {
  }

  lemma ReaderQuitKeepsInv(s: Sys, conn: Conn)
    requires conn in s.readers && s.readers[conn].Running? && s.over && Inv(s)
    ensures Inv(ReaderQuits(s, conn))
  {
    var s' := ReaderQuits(s, conn);
    assert DyingOk(s, conn);
    ReaderQuitTends(s, conn);
    TendKeepsInv(s, conn, s'.readers, s'.roots, s'.closed, s'.released);
  }

  lemma RootsFailTends(s: Sys, conn: Conn)
    requires conn in s.roots && s.roots[conn].Serving? && conn in s.laneOf && DyingOk(s, conn)
    ensures var s' := RootsFails(s, conn);
      Tends(s, conn, s') && s' == Tended(s, s'.readers, s'.roots, s'.closed, s'.released)
  {
  }

  lemma RootsFailKeepsInv(s: Sys, conn: Conn)
    requires conn in s.roots && s.roots[conn].Serving? && Inv(s)
    ensures Inv(RootsFails(s, conn))
  {
    var s' := RootsFails(s, conn);
    assert DyingOk(s, conn);
    RootsFailTends(s, conn);
    TendKeepsInv(s, conn, s'.readers, s'.roots, s'.closed, s'.released);
  }

  lemma RootsCloseTends(s: Sys, conn: Conn)
    requires conn in s.roots && s.roots[conn].Releasing? && conn in s.laneOf && DyingOk(s, conn)
    ensures var s' := RootsCloses(s, conn);
      Tends(s, conn, s') && s' == Tended(s, s'.readers, s'.roots, s'.closed, s'.released)
  {
  }

  lemma RootsCloseKeepsInv(s: Sys, conn: Conn)
    requires conn in s.roots && s.roots[conn].Releasing? && Inv(s)
    ensures Inv(RootsCloses(s, conn))
  {
    var s' := RootsCloses(s, conn);
    assert DyingOk(s, conn);
    RootsCloseTends(s, conn);
    TendKeepsInv(s, conn, s'.readers, s'.roots, s'.closed, s'.released);
  }

  /** Once failed, a connection owns no call. */
  lemma StrandEmpties(s: Sys, conn: Conn)
    ensures OwnedBy(Strand(s, conn).t, conn) == {}
  {
  }

  lemma ReaderEndTends(s: Sys, conn: Conn)
    requires conn in s.readers && s.readers[conn].Dying? && conn in s.laneOf && DyingOk(s, conn)
    ensures var s1, s' := Strand(s, conn), ReaderEnds(s, conn);
      Tends(s1, conn, s') && s' == Tended(s1, s'.readers, s'.roots, s'.closed, s'.released)
  {
    StrandEmpties(s, conn);
  }

  lemma ReaderEndKeepsInv(s: Sys, conn: Conn)
    requires conn in s.readers && s.readers[conn].Dying? && Inv(s)
    ensures Inv(ReaderEnds(s, conn))
  {
    var s1, s' := Strand(s, conn), ReaderEnds(s, conn);
    assert DyingOk(s, conn);
    StrandKeepsInv(s, conn);
    ReaderEndTends(s, conn);
    TendKeepsInv(s1, conn, s'.readers, s'.roots, s'.closed, s'.released);
  }

  lemma RootsEndTends(s: Sys, conn: Conn)
    requires conn in s.roots && s.roots[conn].Closing? && conn in s.laneOf && DyingOk(s, conn)
    ensures var s1, s' := Strand(s, conn), RootsEnds(s, conn);
      Tends(s1, conn, s') && s' == Tended(s1, s'.readers, s'.roots, s'.closed, s'.released)
  {
    StrandEmpties(s, conn);
  }

  lemma RootsEndKeepsInv(s: Sys, conn: Conn)
    requires conn in s.roots && s.roots[conn].Closing? && Inv(s)
    ensures Inv(RootsEnds(s, conn))
  {
    var s1, s' := Strand(s, conn), RootsEnds(s, conn);
    assert DyingOk(s, conn);
    StrandKeepsInv(s, conn);
    RootsEndTends(s, conn);
    TendKeepsInv(s1, conn, s'.readers, s'.roots, s'.closed, s'.released);
  }

  // ----- replies

  lemma ReplyKeepsInv(s: Sys, conn: Conn, posted: bool)
    requires CanReply(s, conn, posted) && Inv(s)
    ensures Inv(Replies(s, conn, posted))
  {
    assert ConnOk(s, conn);
    PlainKeepsInv(s, conn, Plain(Reply, posted));
  }

  /** An answered write of a call: `finish` ends its operation and takes the call
      if the connection still owns it. */
  function Answered(s: Sys, conn: Conn, at: nat): Sys
    requires conn in s.wire && at < |s.wire[conn]|
  {
    Mark(s, conn, at, s.wire[conn][at].(answered := true))
  }

  /** A tracked write is answered: the connection's operation under its id is
      that write's. */
  lemma AnswersOwn(s: Sys, conn: Conn, at: nat)
    requires CanReadReply(s, conn, at) && s.wire[conn][at].token.Some? && EntryOk(s, conn, s.wire[conn][at]) && Books(s)
    ensures var e := s.wire[conn][at];
      && e.id.value == s.ids[e.token.value]
      && Key(conn, e.id.value) in s.t.operations && s.t.operations[Key(conn, e.id.value)].token == e.token.value
      && (e.id.value in s.t.awaiting && s.t.awaiting[e.id.value].conn == Some(conn) ==>
            s.t.awaiting[e.id.value].token == e.token.value)
  {
    var id := s.wire[conn][at].id.value;
    assert id in s.t.awaiting ==> OwnerOk(s, id);
    assert OperationOk(s, Key(conn, id));
  }

  /** The write that was answered held the only credit under its key. */
  lemma AnsweredSpends(s: Sys, conn: Conn, at: nat)
    requires conn in s.wire && at < |s.wire[conn]| && s.wire[conn][at].answered && s.wire[conn][at].token.Some?
    requires s.wire[conn][at].token.value in s.ids
    requires var key := Key(conn, s.ids[s.wire[conn][at].token.value]);
      && key in s.t.operations && s.t.operations[key].token == s.wire[conn][at].token.value
      && s.t.operations[key].abandoned
    requires Entries(s) && OncePerToken(s.wire[conn]) && Senders(s)
    ensures Spent(s, Key(conn, s.ids[s.wire[conn][at].token.value]))
  {
    var written := s.wire[conn];
    var token := written[at].token.value;
    var key := Key(conn, s.ids[token]);
    forall w | w in s.lanes && s.lanes[w].sender.Writing? && s.lanes[w].sender.d.Call?
      ensures key != Key(s.lanes[w].sender.conn, s.lanes[w].sender.d.id)
    {
      assert SenderOk(s, w);
    }
    forall e | e in written && e.posted && !e.answered && e.token.Some? ensures e.id != Some(key.id) {
      var k :| 0 <= k < |written| && written[k] == e;
      assert EntryOk(s, conn, written[k]);
      assert e.token == written[at].token ==> k == at;
    }
  }

  lemma ReplyTables(t: State, id: Id, conn: Conn)
    ensures Finish(t, id, Some(conn), None) ==
      if Claims(t, id, Some(conn), None)
      then EndOperation(Finish(t, id, None, Some(t.awaiting[id].token)), Key(conn, id))
      else EndOperation(t, Key(conn, id))
  {
    if Claims(t, id, Some(conn), None) && Key(conn, id) in t.operations {
      EndAbandoned(t, Key(conn, id));
    }
  }

  lemma EndAbandoned(t: State, key: Key)
    requires key in t.operations
    ensures EndOperation(AbandonOperation(t, key), key) == EndOperation(t, key)
  {
    assert AbandonOperation(t, key).operations - {key} == t.operations - {key};
  }

  lemma ReadingIs(s: Sys, conn: Conn, at: nat)
    requires CanReadReply(s, conn, at)
    ensures var s1, id := Answered(s, conn, at), s.wire[conn][at].id.value;
      ReadsReply(s, conn, at) ==
        if Claims(s.t, id, Some(conn), None)
        then Release(Claim(s1, id, None, Some(s.t.awaiting[id].token), Answer(conn, at)), Key(conn, id))
        else Release(s1, Key(conn, id))
  {
    ReplyTables(s.t, s.wire[conn][at].id.value, conn);
  }

  /** What the reader reads is the answer to a client's own call. */
  lemma ReadsTracked(s: Sys, conn: Conn, at: nat)
    requires CanReadReply(s, conn, at) && conn in s.laneOf && ConnOk(s, conn)
    ensures s.wire[conn][at].token.Some?
  {
  }

  /** The call taken with its answer, its credit not yet given back. */
  function TakenBy(s: Sys, conn: Conn, at: nat): Sys
    requires CanReadReply(s, conn, at) && Claims(s.t, s.wire[conn][at].id.value, Some(conn), None)
  {
    var id := s.wire[conn][at].id.value;
    Claim(Answered(s, conn, at), id, None, Some(s.t.awaiting[id].token), Answer(conn, at))
  }

  ghost predicate OwnReply(s: Sys, conn: Conn, at: nat) {
    && CanReadReply(s, conn, at) && s.wire[conn][at].token.Some?
    && var token := s.wire[conn][at].token.value;
    && token in s.ids && s.wire[conn][at].id == Some(s.ids[token])
    && Key(conn, s.ids[token]) in s.t.operations && s.t.operations[Key(conn, s.ids[token])].token == token
    && (Claims(s.t, s.ids[token], Some(conn), None) ==> s.t.awaiting[s.ids[token]].token == token)
  }

  lemma ReadsOwn(s: Sys, conn: Conn, at: nat)
    requires CanReadReply(s, conn, at) && s.wire[conn][at].token.Some? && Entries(s) && Books(s)
    ensures OwnReply(s, conn, at)
  {
    assert EntryOk(s, conn, s.wire[conn][at]);
    AnswersOwn(s, conn, at);
  }

  lemma AnsweredKeepsInv(s: Sys, conn: Conn, at: nat)
    requires OwnReply(s, conn, at) && Inv(s)
    ensures Inv(Answered(s, conn, at))
  {
    MarkKeepsInv(s, conn, at, s.wire[conn][at].(answered := true));
  }

  lemma TakenByKeepsInv(s: Sys, conn: Conn, at: nat)
    requires OwnReply(s, conn, at) && Claims(s.t, s.wire[conn][at].id.value, Some(conn), None) && Inv(s)
    ensures Inv(TakenBy(s, conn, at))
  {
    var id := s.wire[conn][at].id.value;
    AnsweredKeepsInv(s, conn, at);
    ClaimKeepsInv(Answered(s, conn, at), id, Some(s.t.awaiting[id].token), Answer(conn, at));
  }

  lemma TakenBySpends(s: Sys, conn: Conn, at: nat)
    requires OwnReply(s, conn, at) && Claims(s.t, s.wire[conn][at].id.value, Some(conn), None)
    requires Entries(TakenBy(s, conn, at)) && Wires(TakenBy(s, conn, at)) && Senders(TakenBy(s, conn, at))
    ensures Spent(TakenBy(s, conn, at), Key(conn, s.wire[conn][at].id.value))
  {
    var s2 := TakenBy(s, conn, at);
    assert ConnOk(s2, conn);
    AnsweredSpends(s2, conn, at);
  }

  lemma ReadTakenKeepsInv(s: Sys, conn: Conn, at: nat)
    requires CanReadReply(s, conn, at) && s.wire[conn][at].token.Some?
    requires Claims(s.t, s.wire[conn][at].id.value, Some(conn), None) && Inv(s)
    ensures Inv(ReadsReply(s, conn, at))
  {
    ReadsOwn(s, conn, at);
    TakenByKeepsInv(s, conn, at);
    TakenBySpends(s, conn, at);
    ReleaseKeepsInv(TakenBy(s, conn, at), Key(conn, s.wire[conn][at].id.value));
    ReadingIs(s, conn, at);
  }

  lemma ReadLateKeepsInv(s: Sys, conn: Conn, at: nat)
    requires CanReadReply(s, conn, at) && s.wire[conn][at].token.Some?
    requires !Claims(s.t, s.wire[conn][at].id.value, Some(conn), None) && Inv(s)
    ensures Inv(ReadsReply(s, conn, at))
  {
    var s1, id := Answered(s, conn, at), s.wire[conn][at].id.value;
    assert EntryOk(s, conn, s.wire[conn][at]);
    AnswersOwn(s, conn, at);
    assert OperationOk(s, Key(conn, id));
    MarkKeepsInv(s, conn, at, s.wire[conn][at].(answered := true));
    assert ConnOk(s1, conn);
    AnsweredSpends(s1, conn, at);
    ReleaseKeepsInv(s1, Key(conn, id));
    ReadingIs(s, conn, at);
  }

  lemma ReadReplyKeepsInv(s: Sys, conn: Conn, at: nat)
    requires CanReadReply(s, conn, at) && Inv(s)
    ensures Inv(ReadsReply(s, conn, at))
  {
    assert ConnOk(s, conn);
    ReadsTracked(s, conn, at);
    if Claims(s.t, s.wire[conn][at].id.value, Some(conn), None) {
      ReadTakenKeepsInv(s, conn, at);
    } else {
      ReadLateKeepsInv(s, conn, at);
    }
  }
}

/** Advice to upstreams, cancellations, timers and the output queue. */
module ProtocolSession {
  import opened Options
  import opened Tracker
  import opened Protocol
  import opened ProtocolInvariant
  import opened ProtocolSteps
  import opened ProtocolOutcome

  // ----- the control worker

  function Queued(s: Sys, w: string, controls: set<Control>, worker: Worker): Lane
    requires w in s.lanes
  {
    s.lanes[w].(controls := controls, worker := worker)
  }

  lemma ControlKeepsInv(s: Sys, w: string, controls: set<Control>, worker: Worker)
    requires w in s.lanes && Inv(s)
    requires FenceOk(WithLane(s, w, Queued(s, w, controls, worker)), w)
    requires Gated(s.lanes[w]) ==> worker.Rest?
    ensures Inv(WithLane(s, w, Queued(s, w, controls, worker)))
  {
    assert LaneOk(s, w) && SenderOk(s, w) && PostCoverOk(s, w);
    ControlFits(s, w, controls, worker);
    LaneKeepsInv(s, w, Queued(s, w, controls, worker));
  }

  lemma ControlFits(s: Sys, w: string, controls: set<Control>, worker: Worker)
    requires w in s.lanes && LaneOk(s, w) && SenderOk(s, w) && PostCoverOk(s, w)
    requires FenceOk(WithLane(s, w, Queued(s, w, controls, worker)), w)
    requires Gated(s.lanes[w]) ==> worker.Rest?
    ensures Smooth(s, w, Queued(s, w, controls, worker)) && LaneFits(WithLane(s, w, Queued(s, w, controls, worker)), w)
  {
  }

  lemma DropControlKeepsInv(s: Sys, w: string, control: Control)
    requires CanDropControl(s, w, control) && Inv(s)
    ensures Inv(DropsControl(s, w, control))
  {
    var l := s.lanes[w];
    assert LaneOk(s, w) && FenceOk(s, w);
    FenceWith(s, w, l.controls - {control}, l.worker);
    ControlKeepsInv(s, w, l.controls - {control}, l.worker);
  }

  /** What the worker has checked, or may go on to check. */
  ghost predicate Fenced(s: Sys, w: string, control: Control) {
    ControlOk(s, w, control) && Placed(s, control.conn, control.token) && !Overtaken(s, control)
  }

  ghost predicate MayQueue(s: Sys, w: string, controls: set<Control>)
    requires w in s.lanes
  {
    forall c :: c in controls ==> c in s.lanes[w].controls || ControlOk(s, w, c)
  }

  lemma FenceWith(s: Sys, w: string, controls: set<Control>, worker: Worker)
    requires w in s.lanes && FenceOk(s, w) && MayQueue(s, w, controls)
    requires worker.Rest? || worker == s.lanes[w].worker || Fenced(s, w, worker.control)
    ensures FenceOk(WithLane(s, w, Queued(s, w, controls, worker)), w)
  {
  }

  lemma EnterKeepsInv(s: Sys, w: string, control: Control)
    requires CanEnter(s, w, control) && Inv(s)
    ensures Inv(Enters(s, w, control))
  {
    var l := s.lanes[w];
    var worker := if Overtaken(s, control) then Rest else Checked(control);
    assert FenceOk(s, w);
    FenceWith(s, w, l.controls - {control}, worker);
    ControlKeepsInv(s, w, l.controls - {control}, worker);
  }

  lemma LeaveKeepsInv(s: Sys, w: string)
    requires CanLeave(s, w) && Inv(s)
    ensures Inv(Leaves(s, w))
  {
    assert FenceOk(s, w);
    FenceWith(s, w, s.lanes[w].controls, Rest);
    ControlKeepsInv(s, w, s.lanes[w].controls, Rest);
  }

  lemma AdviceIsPlain(s: Sys, w: string, posted: bool)
    requires CanAdvise(s, w, posted) && FenceOk(s, w) && Entries(s)
    ensures var control := s.lanes[w].worker.control;
      PlainFor(s, control.conn, Plain(Cancel(control.token, control.id), posted))
  {
    var control := s.lanes[w].worker.control;
    var written, e := s.wire[control.conn], Plain(Cancel(control.token, control.id), posted);
    forall j | 0 <= j < |written| && Overtaking(written[j], e) ensures written[j].answered {
      assert EntryOk(s, control.conn, written[j]);
    }
  }

  lemma AdviseKeepsInv(s: Sys, w: string, posted: bool)
    requires CanAdvise(s, w, posted) && Inv(s)
    ensures Inv(Advises(s, w, posted))
  {
    var control := s.lanes[w].worker.control;
    var e := Plain(Cancel(control.token, control.id), posted);
    assert FenceOk(s, w) && LaneOk(s, w);
    AdviceIsPlain(s, w, posted);
    PlainKeepsInv(s, control.conn, e);
    var s1 := Append(s, control.conn, e);
    assert FenceOk(s1, w);
    FenceWith(s1, w, s1.lanes[w].controls, Sending(control));
    ControlKeepsInv(s1, w, s1.lanes[w].controls, Sending(control));
  }

  // ----- cancellations and timers

  lemma NoticeKeepsInv(s: Sys, id: Id, owner: Owed, kept: bool)
    requires Inv(s) && owner.token in s.ids && s.ids[owner.token] == id
    requires owner.conn.Some? ==> owner.conn.value in s.laneOf && s.laneOf[owner.conn.value] == owner.worktree
    ensures Inv(Advise(s, id, owner, kept))
  {
    if owner.conn.Some? && kept && owner.worktree in s.lanes {
      var l := s.lanes[owner.worktree];
      assert FenceOk(s, owner.worktree) && LaneOk(s, owner.worktree);
      FenceWith(s, owner.worktree, l.controls + {Control(owner.conn.value, id, owner.token)}, l.worker);
      ControlKeepsInv(s, owner.worktree, l.controls + {Control(owner.conn.value, id, owner.token)}, l.worker);
    }
  }

  lemma CancelKeepsInv(s: Sys, id: Id, kept: bool)
    requires Inv(s)
    ensures Inv(Cancels(s, id, kept))
  {
    if id in s.t.awaiting {
      assert OwnerOk(s, id);
      ClaimKeepsInv(s, id, None, Cancelled);
      NoticeKeepsInv(Claim(s, id, None, None, Cancelled), id, s.t.awaiting[id], kept);
    }
  }

  lemma ExpireKeepsInv(s: Sys, token: Token, kept: bool)
    requires token in s.timers && token in s.ids && Inv(s)
    ensures Inv(Expires(s, token, kept))
  {
    var id, s1 := s.ids[token], s.(timers := s.timers - {token});
    TimersKeepInv(s, s.timers - {token});
    if Owns(s.t, id, Some(token)) {
      assert OwnerOk(s, id);
      ClaimKeepsInv(s1, id, Some(token), Expired);
      NoticeKeepsInv(Claim(s1, id, None, Some(token), Expired), id, s.t.awaiting[id], kept);
    }
  }

  // ----- what never reaches a sender

  lemma RouteFailKeepsInv(s: Sys, token: Token)
    requires Unsent(s, token) && Inv(s)
    ensures Inv(RouteFails(s, token))
  {
    var s1 := Claim(s, s.ids[token], None, Some(token), Undelivered);
    ClaimKeepsInv(s, s.ids[token], Some(token), Undelivered);
    DropKeepsInv(s1, token);
    assert RouteFails(s, token) == Drop(s1, token);
  }

  // ----- the output queue

  function Moved(s: Sys, token: Token, status: Status, out: seq<Token>, over: bool): Sys {
    s.(status := s.status[token := status], out := out, over := over)
  }

  ghost predicate Moves(s: Sys, token: Token, status: Status, over: bool) {
    && token in s.status && s.status[token].Taken? && (s.over ==> over)
    && (status.Lost? || (status.Done? && status.cause == s.status[token].cause))
  }

  lemma MoveKeepsTables(s: Sys, token: Token, status: Status, out: seq<Token>, over: bool)
    requires Moves(s, token, status, over) && Admissions(s) && Stages(s) && Causes(s)
    ensures var s' := Moved(s, token, status, out, over); Admissions(s') && Stages(s') && Causes(s')
  {
    var s' := Moved(s, token, status, out, over);
    forall k | k in s'.ids ensures TokenOk(s', k) && StageOk(s', k) && CauseOk(s', k) {
      assert TokenOk(s, k) && StageOk(s, k) && CauseOk(s, k);
    }
  }

  lemma MoveKeepsBooks(s: Sys, token: Token, status: Status, out: seq<Token>, over: bool)
    requires Books(s)
    ensures Books(Moved(s, token, status, out, over))
  {
    var s' := Moved(s, token, status, out, over);
    forall k | k in s'.gap ensures GapOk(s', k) {
      assert GapOk(s, k);
    }
  }

  lemma MoveKeepsWires(s: Sys, token: Token, status: Status, out: seq<Token>, over: bool)
    requires Wires(s) && Entries(s) && Lanes(s)
    ensures var s' := Moved(s, token, status, out, over); Wires(s') && Entries(s') && Lanes(s')
  {
  }

  lemma MoveKeepsSenders(s: Sys, token: Token, status: Status, out: seq<Token>, over: bool)
    requires Senders(s) && Fences(s)
    ensures var s' := Moved(s, token, status, out, over); Senders(s') && Fences(s')
  {
    var s' := Moved(s, token, status, out, over);
    forall v | v in s'.lanes ensures SenderOk(s', v) && FenceOk(s', v) {
      assert SenderOk(s, v) && FenceOk(s, v);
    }
  }

  lemma MoveKeepsCovers(s: Sys, token: Token, status: Status, out: seq<Token>, over: bool)
    requires Covers(s) && (s.over ==> over)
    ensures Covers(Moved(s, token, status, out, over))
  {
    var s' := Moved(s, token, status, out, over);
    forall v | v in s'.lanes ensures PostCoverOk(s', v) {
      assert PostCoverOk(s, v);
    }
  }

  lemma ForwardKeepsInv(s: Sys, token: Token, fate: Fate)
    requires CanForward(s, token, fate) && Inv(s)
    ensures Inv(Forwards(s, token, fate))
  {
    var s' := Forwards(s, token, fate);
    assert s' == Moved(s, token, s'.status[token], s'.out, s'.over);
    MoveKeepsTables(s, token, s'.status[token], s'.out, s'.over);
    MoveKeepsBooks(s, token, s'.status[token], s'.out, s'.over);
    MoveKeepsWires(s, token, s'.status[token], s'.out, s'.over);
    MoveKeepsSenders(s, token, s'.status[token], s'.out, s'.over);
    MoveKeepsCovers(s, token, s'.status[token], s'.out, s'.over);
  }

  lemma OverKeepsTables(s: Sys)
    requires Admissions(s) && Causes(s) && Stages(s) && Wires(s) && Entries(s) && Lanes(s)
    ensures var s' := Ends(s); Admissions(s') && Causes(s') && Stages(s') && Wires(s') && Entries(s') && Lanes(s')
  {
  }

  lemma OverKeepsSenders(s: Sys)
    requires Senders(s) && Fences(s)
    ensures Senders(Ends(s)) && Fences(Ends(s))
  {
    forall v | v in s.lanes ensures SenderOk(Ends(s), v) && FenceOk(Ends(s), v) {
      assert SenderOk(s, v) && FenceOk(s, v);
    }
  }

  lemma OverKeepsBooks(s: Sys)
    requires Books(s)
    ensures Books(Ends(s))
  {
    var s' := Ends(s);
    forall k | k in s'.gap ensures GapOk(s', k) {
      assert GapOk(s, k);
    }
  }

  lemma OverKeepsCovers(s: Sys)
    requires Covers(s)
    ensures Covers(Ends(s))
  {
    var s' := Ends(s);
    forall v | v in s'.lanes ensures PostCoverOk(s', v) {
      assert PostCoverOk(s, v);
    }
  }

  lemma EndKeepsInv(s: Sys)
    requires Inv(s)
    ensures Inv(Ends(s))
  {
    OverKeepsTables(s);
    OverKeepsSenders(s);
    OverKeepsBooks(s);
    OverKeepsCovers(s);
  }
}

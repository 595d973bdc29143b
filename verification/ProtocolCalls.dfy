/** The steps that move a call along, and that each keeps the invariant. */
module ProtocolCalls {
  import opened Options
  import opened Tracker
  import opened Protocol
  import opened ProtocolInvariant

  // ----- only counts change

  ghost predicate SameTables(a: State, b: State) {
    a.awaiting == b.awaiting && a.operations == b.operations && a.nextToken == b.nextToken
  }

  lemma CountsKeepAdmissions(s: Sys, t: State)
    requires SameTables(s.t, t) && Admissions(s) && Causes(s) && Stages(s)
    ensures Admissions(s.(t := t)) && Causes(s.(t := t)) && Stages(s.(t := t))
  {
    forall k | k in s.ids ensures TokenOk(s.(t := t), k) && StageOk(s.(t := t), k) && CauseOk(s.(t := t), k) {
      assert TokenOk(s, k) && StageOk(s, k) && CauseOk(s, k);
    }
  }

  lemma CountsKeepBooks(s: Sys, t: State)
    requires SameTables(s.t, t) && Books(s)
    ensures Books(s.(t := t))
  {
    forall k | k in s.gap ensures GapOk(s.(t := t), k) {
      assert GapOk(s, k);
    }
  }

  lemma CountsKeepWires(s: Sys, t: State)
    requires SameTables(s.t, t) && Wires(s) && Entries(s) && Lanes(s)
    ensures Wires(s.(t := t)) && Entries(s.(t := t)) && Lanes(s.(t := t))
  {
  }

  lemma CountsKeepSender(s: Sys, t: State, v: string)
    requires SameTables(s.t, t) && v in s.lanes && SenderOk(s, v)
    ensures SenderOk(s.(t := t), v)
  {
  }

  lemma CountsKeepSenders(s: Sys, t: State)
    requires SameTables(s.t, t) && Senders(s)
    ensures Senders(s.(t := t))
  {
    forall v | v in s.lanes ensures SenderOk(s.(t := t), v) {
      assert SenderOk(s, v);
      CountsKeepSender(s, t, v);
    }
  }

  lemma CountsKeepFences(s: Sys, t: State)
    requires SameTables(s.t, t) && Fences(s) && Covers(s)
    ensures Fences(s.(t := t)) && Covers(s.(t := t))
  {
    forall v | v in s.lanes ensures FenceOk(s.(t := t), v) && PostCoverOk(s.(t := t), v) {
      assert FenceOk(s, v) && PostCoverOk(s, v);
    }
  }

  /** The invariant speaks of the two tables, not of the counts beside them. */
  lemma CountsKeepInv(s: Sys, t: State)
    requires SameTables(s.t, t) && Inv(s)
    ensures Inv(s.(t := t))
  {
    CountsKeepAdmissions(s, t);
    CountsKeepBooks(s, t);
    CountsKeepWires(s, t);
    CountsKeepSenders(s, t);
    CountsKeepFences(s, t);
  }

  // ----- a new admission

  function Admitted(s: Sys, id: Id, initial: bool): Sys {
    var token := s.t.nextToken;
    s.(t := s.t.(awaiting := s.t.awaiting[id := Owed(None, "", token)], nextToken := token + 1),
       ids := s.ids[token := id], status := s.status[token := Owing], stage := s.stage[token := Routing(initial)])
  }

  ghost predicate NewToken(s: Sys, id: Id) {
    id !in s.t.awaiting && s.t.nextToken !in s.ids && s.t.nextToken !in s.stage
  }

  lemma AdmitKeepsAdmissions(s: Sys, id: Id, initial: bool)
    requires NewToken(s, id) && Admissions(s) && Stages(s) && Causes(s)
    ensures Admissions(Admitted(s, id, initial)) && Stages(Admitted(s, id, initial)) && Causes(Admitted(s, id, initial))
  {
    var s' := Admitted(s, id, initial);
    forall k | k in s'.ids ensures TokenOk(s', k) && StageOk(s', k) && CauseOk(s', k) {
      if k in s.ids {
        assert TokenOk(s, k) && StageOk(s, k) && CauseOk(s, k);
      }
    }
  }

  lemma AdmitKeepsBooks(s: Sys, id: Id, initial: bool)
    requires NewToken(s, id) && Books(s)
    ensures Books(Admitted(s, id, initial))
  {
    var s' := Admitted(s, id, initial);
    forall i | i in s'.t.awaiting ensures OwnerOk(s', i) {
      assert i != id ==> OwnerOk(s, i);
    }
    forall k | k in s'.gap ensures GapOk(s', k) {
      assert GapOk(s, k);
    }
    forall key | key in s'.t.operations ensures OperationOk(s', key) {
      assert OperationOk(s, key);
    }
  }

  lemma AdmitKeepsWires(s: Sys, id: Id, initial: bool)
    requires NewToken(s, id) && Wires(s) && Entries(s) && Lanes(s)
    ensures Wires(Admitted(s, id, initial)) && Entries(Admitted(s, id, initial)) && Lanes(Admitted(s, id, initial))
  {
    var s' := Admitted(s, id, initial);
    forall c, k | c in s'.wire && 0 <= k < |s'.wire[c]| ensures EntryOk(s', c, s'.wire[c][k]) {
      assert EntryOk(s, c, s.wire[c][k]);
    }
  }

  lemma AdmitKeepsSenders(s: Sys, id: Id, initial: bool)
    requires NewToken(s, id) && Senders(s)
    ensures Senders(Admitted(s, id, initial))
  {
    var s' := Admitted(s, id, initial);
    forall v | v in s'.lanes ensures SenderOk(s', v) {
      assert SenderOk(s, v);
    }
  }

  lemma AdmitKeepsFences(s: Sys, id: Id, initial: bool)
    requires NewToken(s, id) && Fences(s)
    ensures Fences(Admitted(s, id, initial))
  {
    var s' := Admitted(s, id, initial);
    forall v | v in s'.lanes ensures FenceOk(s', v) {
      assert FenceOk(s, v);
      forall control | ControlOk(s, v, control) ensures ControlOk(s', v, control) {
      }
    }
  }

  lemma AdmitKeepsCovers(s: Sys, id: Id, initial: bool)
    requires NewToken(s, id) && Covers(s) && Senders(s)
    ensures Covers(Admitted(s, id, initial))
  {
    var s' := Admitted(s, id, initial);
    forall v | v in s'.lanes ensures PostCoverOk(s', v) {
      assert PostCoverOk(s, v) && SenderOk(s, v);
    }
    forall i | i in s'.t.awaiting ensures CoverOk(s', i) {
      assert i != id ==> CoverOk(s, i);
    }
    forall c | c in s'.laneOf ensures DyingOk(s', c) {
      assert DyingOk(s, c);
    }
  }

  lemma AdmittedKeepsInv(s: Sys, id: Id, initial: bool)
    requires NewToken(s, id) && Inv(s)
    ensures Inv(Admitted(s, id, initial))
  {
    AdmitKeepsAdmissions(s, id, initial);
    AdmitKeepsBooks(s, id, initial);
    AdmitKeepsWires(s, id, initial);
    AdmitKeepsSenders(s, id, initial);
    AdmitKeepsFences(s, id, initial);
    AdmitKeepsCovers(s, id, initial);
  }

  lemma TokenIsNew(s: Sys)
    requires Admissions(s)
    ensures s.t.nextToken !in s.ids && s.t.nextToken !in s.stage
  {
    assert s.t.nextToken in s.ids ==> TokenOk(s, s.t.nextToken);
  }

  lemma AdmittingIs(s: Sys, id: Id, initial: bool)
    requires Admit(s.t, id).1.Granted?
    ensures Admitting(s, id, initial) == Admitted(s, id, initial).(t := Admitting(s, id, initial).t)
    ensures SameTables(Admitted(s, id, initial).t, Admitting(s, id, initial).t)
  {
  }

  lemma AdmitKeepsInv(s: Sys, id: Id, initial: bool)
    requires Inv(s)
    ensures Inv(Admitting(s, id, initial))
  {
    if Admit(s.t, id).1.Refused? {
      CountsKeepInv(s, Admitting(s, id, initial).t);
    } else {
      TokenIsNew(s);
      AdmittedKeepsInv(s, id, initial);
      AdmittingIs(s, id, initial);
      CountsKeepInv(Admitted(s, id, initial), Admitting(s, id, initial).t);
    }
  }

  // ----- a worktree bound

  function BoundTo(s: Sys, token: Token, w: string): Sys
    requires CanBind(s, token, w) && s.ids[token] in s.t.awaiting
  {
    var id := s.ids[token];
    s.(t := s.t.(awaiting := s.t.awaiting[id := s.t.awaiting[id].(worktree := w)]),
       stage := s.stage[token := Queued(w, s.stage[token].initial)],
       lanes := if w in s.lanes then s.lanes else s.lanes[w := Lane(None, Idle, Rest, {})])
  }

  ghost predicate Binds(s: Sys, token: Token, w: string) {
    CanBind(s, token, w) && Outstanding(s, token)
  }

  lemma BindKeepsAdmissions(s: Sys, token: Token, w: string)
    requires Binds(s, token, w) && Admissions(s) && Causes(s)
    ensures Admissions(BoundTo(s, token, w)) && Causes(BoundTo(s, token, w))
  {
    var s' := BoundTo(s, token, w);
    forall k | k in s'.ids ensures TokenOk(s', k) && CauseOk(s', k) {
      assert TokenOk(s, k) && CauseOk(s, k);
    }
  }

  lemma BindKeepsStages(s: Sys, token: Token, w: string)
    requires Binds(s, token, w) && Stages(s)
    ensures Stages(BoundTo(s, token, w))
  {
    var s' := BoundTo(s, token, w);
    forall k | k in s'.ids ensures StageOk(s', k) {
      assert StageOk(s, k);
    }
  }

  lemma BindKeepsBooks(s: Sys, token: Token, w: string)
    requires Binds(s, token, w) && StageOk(s, token) && Books(s)
    ensures Books(BoundTo(s, token, w))
  {
    var s' := BoundTo(s, token, w);
    forall i | i in s'.t.awaiting ensures OwnerOk(s', i) {
      assert OwnerOk(s, i);
    }
    forall key | key in s'.t.operations ensures OperationOk(s', key) {
      assert OperationOk(s, key);
    }
    forall k | k in s'.gap ensures GapOk(s', k) {
      assert GapOk(s, k);
    }
  }

  lemma BindKeepsWires(s: Sys, token: Token, w: string)
    requires Binds(s, token, w) && Wires(s) && Entries(s)
    ensures Wires(BoundTo(s, token, w)) && Entries(BoundTo(s, token, w))
  {
    var s' := BoundTo(s, token, w);
    forall c | c in s'.laneOf ensures ConnOk(s', c) {
      assert ConnOk(s, c);
    }
    forall c, k | c in s'.wire && 0 <= k < |s'.wire[c]| ensures EntryOk(s', c, s'.wire[c][k]) {
      assert EntryOk(s, c, s.wire[c][k]);
    }
  }

  lemma BindKeepsSenders(s: Sys, token: Token, w: string)
    requires Binds(s, token, w) && StageOk(s, token) && Senders(s)
    ensures Senders(BoundTo(s, token, w))
  {
    var s' := BoundTo(s, token, w);
    forall v | v in s'.lanes ensures SenderOk(s', v) {
      assert v in s.lanes ==> SenderOk(s, v);
    }
  }

  lemma BindKeepsFences(s: Sys, token: Token, w: string)
    requires Binds(s, token, w) && Lanes(s) && Fences(s)
    ensures Lanes(BoundTo(s, token, w)) && Fences(BoundTo(s, token, w))
  {
    var s' := BoundTo(s, token, w);
    forall v | v in s'.lanes ensures FenceOk(s', v) {
      assert v in s.lanes ==> FenceOk(s, v);
    }
  }

  lemma BindKeepsCovers(s: Sys, token: Token, w: string)
    requires Binds(s, token, w) && StageOk(s, token) && Covers(s)
    ensures Covers(BoundTo(s, token, w))
  {
    var s' := BoundTo(s, token, w);
    forall v | v in s'.lanes ensures PostCoverOk(s', v) {
      assert v in s.lanes ==> PostCoverOk(s, v);
    }
    forall i | i in s'.t.awaiting ensures CoverOk(s', i) {
      assert CoverOk(s, i);
    }
  }

  lemma BoundKeepsInv(s: Sys, token: Token, w: string)
    requires Binds(s, token, w) && Inv(s)
    ensures Inv(BoundTo(s, token, w))
  {
    BindKeepsAdmissions(s, token, w);
    BindKeepsStages(s, token, w);
    BindKeepsBooks(s, token, w);
    BindKeepsWires(s, token, w);
    BindKeepsSenders(s, token, w);
    BindKeepsFences(s, token, w);
    BindKeepsCovers(s, token, w);
  }

  lemma BindingIs(s: Sys, token: Token, w: string)
    requires CanBind(s, token, w)
    ensures Bind(s.t, s.ids[token], token, w, s.lanes.Keys).1.Refused? ==>
      Binding(s, token, w) == s.(t := Binding(s, token, w).t) && SameTables(s.t, Binding(s, token, w).t)
    ensures Bind(s.t, s.ids[token], token, w, s.lanes.Keys).1.Granted? ==>
      && Binds(s, token, w)
      && Binding(s, token, w) == BoundTo(s, token, w).(t := Binding(s, token, w).t)
      && SameTables(BoundTo(s, token, w).t, Binding(s, token, w).t)
  {
  }

  lemma BindKeepsInv(s: Sys, token: Token, w: string)
    requires CanBind(s, token, w) && Inv(s)
    ensures Inv(Binding(s, token, w))
  {
    BindingIs(s, token, w);
    if Bind(s.t, s.ids[token], token, w, s.lanes.Keys).1.Granted? {
      BoundKeepsInv(s, token, w);
      CountsKeepInv(BoundTo(s, token, w), Binding(s, token, w).t);
    } else {
      CountsKeepInv(s, Binding(s, token, w).t);
    }
  }
}

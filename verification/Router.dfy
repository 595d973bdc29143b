/** The router's request tables as the source keeps them: fields changed in
    place. Every method is proved against the table functions of Tracker. */
module Router {
  import opened Options
  import opened Tallies
  import opened Tracker

  class Tables {
    const limits: Limits
    var awaitingUpstream: map<Id, Owed>
    var perWorktree: map<string, int>
    var operations: map<Key, Operation>
    var operationsPerWorktree: map<string, int>
    var nextToken: Token
    var admitted: nat
    var completed: nat
    var rejected: nat
    var peak: nat

    /** The tables as one value. */
    function View(): State
      reads this
    {
      State(limits, awaitingUpstream, perWorktree, operations, operationsPerWorktree,
            nextToken, admitted, completed, rejected, peak)
    }

    constructor (limits: Limits)
      requires limits.session >= 0 && limits.perLane >= 0
      ensures View() == Empty(limits) && Balanced(View())
    {
      this.limits := limits;
      awaitingUpstream, perWorktree := map[], map[];
      operations, operationsPerWorktree := map[], map[];
      nextToken, admitted, completed, rejected, peak := 0, 0, 0, 0, 0;
      EmptyIsBalanced(limits);
    }

    method Reject()
      modifies this
      ensures View() == Rejected(old(View()))
    {
      rejected := rejected + 1;
    }

    method Admit(id: Id) returns (granted: Granted<Token>)
      modifies this
      ensures (View(), granted) == Tracker.Admit(old(View()), id)
    {
      if id in awaitingUpstream {
        Reject();
        return Refused(DuplicateId);
      }
      if |awaitingUpstream| >= limits.session {
        Reject();
        return Refused(SessionFull);
      }
      var token := nextToken;
      nextToken := nextToken + 1;
      awaitingUpstream := awaitingUpstream[id := Owed(None, "", token)];
      admitted := admitted + 1;
      peak := Max(peak, |awaitingUpstream|);
      return Granted(token);
    }

    method EndOperationLocked(key: Key)
      modifies this
      ensures View() == EndOperation(old(View()), key)
    {
      if key in operations {
        var op := operations[key];
        operations := operations - {key};
        operationsPerWorktree := Release(operationsPerWorktree, op.worktree);
      }
    }

    method AbandonOperationLocked(key: Key)
      modifies this
      ensures View() == AbandonOperation(old(View()), key)
    {
      if key in operations {
        operations := operations[key := operations[key].(abandoned := true)];
      }
    }

    method RemoveLocked(id: Id, owner: Owed)
      requires id in awaitingUpstream && awaitingUpstream[id] == owner
      modifies this
      ensures View() == Remove(old(View()), id)
    {
      if owner.conn.Some? {
        AbandonOperationLocked(Key(owner.conn.value, id));
      }
      awaitingUpstream := awaitingUpstream - {id};
      if owner.worktree != "" {
        perWorktree := Release(perWorktree, owner.worktree);
      }
      completed := completed + 1;
    }

    method Finish(id: Id, conn: Option<Conn>, token: Option<Token>) returns (owner: Option<Owed>)
      modifies this
      ensures View() == Tracker.Finish(old(View()), id, conn, token)
      ensures owner.Some? <==> Claims(old(View()), id, conn, token)
      ensures owner.Some? ==> owner.value == old(awaitingUpstream)[id]
    {
      if conn.Some? {
        EndOperationLocked(Key(conn.value, id));
      }
      if id !in awaitingUpstream {
        return None;
      }
      var held := awaitingUpstream[id];
      if (token.Some? && held.token != token.value) || (conn.Some? && held.conn != conn) {
        return None;
      }
      RemoveLocked(id, held);
      return Some(held);
    }

    method Retry(id: Id, conn: Conn, token: Token) returns (claimed: bool)
      modifies this
      ensures View() == Tracker.Retry(old(View()), id, conn, token)
      ensures claimed == Retries(old(View()), id, conn, token)
    {
      if id !in awaitingUpstream || awaitingUpstream[id].token != token || awaitingUpstream[id].conn != Some(conn) {
        return false;
      }
      var owner := awaitingUpstream[id].(conn := None);
      AbandonOperationLocked(Key(conn, id));
      awaitingUpstream := awaitingUpstream[id := owner];
      return true;
    }

    /** `live` is whether the delivery's context still is, `lanes` the worktrees
        that have a lane. */
    method BindWorktree(id: Id, token: Token, worktree: string, lanes: set<string>, live: bool)
      returns (granted: Granted<()>)
      modifies this
      ensures live ==> (View(), granted) == Bind(old(View()), id, token, worktree, lanes)
      ensures !live ==> View() == old(View()) && granted == Refused(Gone)
    {
      if !live || id !in awaitingUpstream || awaitingUpstream[id].token != token {
        return Refused(Gone);
      }
      if worktree !in lanes && limits.lanes > 0 && |lanes| >= limits.lanes {
        Reject();
        return Refused(LanesFull);
      }
      if Get(perWorktree, worktree) >= limits.perLane {
        Reject();
        return Refused(LaneFull);
      }
      awaitingUpstream := awaitingUpstream[id := awaitingUpstream[id].(worktree := worktree)];
      perWorktree := Take(perWorktree, worktree);
      return Granted(());
    }

    method PlaceDelivery(id: Id, token: Token) returns (owned: bool)
      modifies this
      ensures View() == Place(old(View()), id, token)
      ensures owned == Owns(old(View()), id, Some(token))
    {
      if id !in awaitingUpstream || awaitingUpstream[id].token != token {
        return false;
      }
      awaitingUpstream := awaitingUpstream[id := awaitingUpstream[id].(conn := None)];
      return true;
    }

    method BeginOperation(id: Id, token: Token, conn: Conn, worktree: string) returns (granted: Granted<()>)
      modifies this
      ensures (View(), granted) == Begin(old(View()), id, token, conn, worktree)
    {
      if id !in awaitingUpstream || awaitingUpstream[id].token != token {
        return Refused(Gone);
      }
      var key := Key(conn, id);
      if key in operations {
        return Refused(StillRunning);
      }
      if |operations| >= limits.session || Get(operationsPerWorktree, worktree) >= limits.perLane {
        Reject();
        return Refused(OperationsFull);
      }
      operations := operations[key := Operation(worktree, false, token)];
      operationsPerWorktree := Take(operationsPerWorktree, worktree);
      awaitingUpstream := awaitingUpstream[id := awaitingUpstream[id].(conn := Some(conn))];
      return Granted(());
    }

    /** One call of the walk below. */
    method StrandNext(ghost before: State, conn: Conn, ghost todo: set<Id>, id: Id, stranded: set<Id>)
      returns (after: set<Id>)
      modifies this
      requires id in todo && todo <= before.awaiting.Keys && Walked(View(), before, conn, todo, stranded)
      ensures Walked(View(), before, conn, todo - {id}, after)
    {
      StrandsNext(before, stranded, id);
      after := stranded;
      if awaitingUpstream[id].conn == Some(conn) {
        after := stranded + {id};
        RemoveLocked(id, awaitingUpstream[id]);
      }
    }

    /** The map is walked in no particular order, one `removeLocked` at a time;
        the outcome does not depend on it. */
    method FailInFlight(conn: Conn) returns (stranded: set<Id>)
      modifies this
      ensures View() == Tracker.FailInFlight(old(View()), conn)
      ensures stranded == OwnedBy(old(View()), conn)
    {
      ghost var before := View();
      WalkBegins(before, conn);
      stranded := {};
      var todo := awaitingUpstream.Keys;
      while todo != {}
        invariant todo <= before.awaiting.Keys && Walked(View(), before, conn, todo, stranded)
        decreases todo
      {
        var id :| id in todo;
        stranded := StrandNext(before, conn, todo, id, stranded);
        todo := todo - {id};
      }
      WalkEnds(View(), before, conn, stranded);
    }

    /** The first loop of `clearRequests`. */
    method RemoveEverything()
      modifies this
      ensures View() == RemoveAll(old(View()), old(awaitingUpstream.Keys))
    {
      ghost var before := View();
      ghost var gone: set<Id> := {};
      RemoveNobody(before);
      while awaitingUpstream.Keys != {}
        invariant gone <= before.awaiting.Keys
        invariant View() == RemoveAll(before, gone)
        decreases awaitingUpstream.Keys
      {
        var id :| id in awaitingUpstream.Keys;
        RemoveLast(before, gone, id);
        gone := gone + {id};
        RemoveLocked(id, awaitingUpstream[id]);
      }
      assert gone == before.awaiting.Keys;
    }

    /** The second loop of `clearRequests`. */
    method EndEverything()
      requires Balanced(View())
      modifies this
      ensures View() == old(View()).(operations := map[], operationsPerWorktree := map[])
    {
      while operations.Keys != {}
        invariant Balanced(View())
        invariant View() == old(View()).(operations := operations, operationsPerWorktree := operationsPerWorktree)
        decreases operations.Keys
      {
        var key :| key in operations.Keys;
        EndOperationKeepsBalance(View(), key);
        EndOperationLocked(key);
      }
      NoCounts(operationsPerWorktree, Running(operations), limits.perLane);
    }

    /** The end of the session: everything goes, and nothing is answered. */
    method ClearRequests()
      requires Balanced(View())
      modifies this
      ensures View() == Clear(old(View())) && Balanced(View()) && perWorktree == map[]
    {
      ClearKeepsBalance(View());
      RemoveAllKeepsBalance(View(), awaitingUpstream.Keys);
      RemoveEverything();
      EndEverything();
      NoCounts(perWorktree, Bound(awaitingUpstream), limits.perLane);
    }
  }

  /** The calls of the connection, but for those still to be looked at, are gone. */
  ghost predicate Walked(now: State, before: State, conn: Conn, todo: set<Id>, stranded: set<Id>)
    requires todo <= before.awaiting.Keys
  {
    stranded == OwnedBy(before, conn) - todo && now == RemoveAll(before, stranded)
  }

  lemma WalkBegins(before: State, conn: Conn)
    ensures Walked(before, before, conn, before.awaiting.Keys, {})
  {
    RemoveNobody(before);
    assert OwnedBy(before, conn) - before.awaiting.Keys == {};
  }

  lemma WalkEnds(now: State, before: State, conn: Conn, stranded: set<Id>)
    requires Walked(now, before, conn, {}, stranded)
    ensures stranded == OwnedBy(before, conn) && now == Tracker.FailInFlight(before, conn)
  {
    assert OwnedBy(before, conn) - {} == OwnedBy(before, conn);
  }

  /** The next id the walk meets is still as it was when the walk began. */
  lemma StrandsNext(before: State, taken: set<Id>, id: Id)
    requires taken <= before.awaiting.Keys && id in before.awaiting && id !in taken
    ensures id in RemoveAll(before, taken).awaiting
    ensures RemoveAll(before, taken).awaiting[id] == before.awaiting[id]
    ensures Remove(RemoveAll(before, taken), id) == RemoveAll(before, taken + {id})
  {
    RemoveLast(before, taken, id);
  }

  /** With nobody left there is no key left either. */
  lemma NoCounts<K(!new)>(counts: map<string, int>, holders: map<K, string>, limit: int)
    requires Exact(counts, holders, limit) && holders == map[]
    ensures counts == map[]
  {
    forall w ensures w !in counts {
      NobodyCounts(holders, w);
      assert Get(counts, w) == 0;
    }
  }
}

/** What each critical section of the tracker answers, and to whom: in terms of who
    holds an id, where a call is placed, and how many count against a worktree. */
module TrackerAnswers {
  import opened Options
  import opened Tallies
  import opened Tracker

  // ----- who may come in

  /** The id is held by the admission `token`. */
  predicate Holds(s: State, id: Id, token: Token) {
    id in s.awaiting && s.awaiting[id].token == token
  }

  /** A refusal changes nothing but, where it is counted, the count. */
  predicate OnlyCounts(s: State, t: State, counted: bool) {
    t == s.(rejected := t.rejected) && t.rejected == s.rejected + if counted then 1 else 0
  }

  /** An id is admitted exactly when nobody holds it and the session has room. */
  lemma AdmitAnswers(s: State, id: Id)
    ensures var t, answer := Admit(s, id).0, Admit(s, id).1;
      && (answer.Granted? <==> id !in s.awaiting && |s.awaiting| < s.limits.session)
      && (answer == Refused(DuplicateId) <==> id in s.awaiting)
      && (answer == Refused(SessionFull) <==> id !in s.awaiting && |s.awaiting| >= s.limits.session)
      && (answer.Granted? ==>
            && t.awaiting == s.awaiting[id := Owed(None, "", answer.value)] && answer.value == s.nextToken
            && s.nextToken < t.nextToken && t.operations == s.operations
            && t.peak == if |t.awaiting| > s.peak then |t.awaiting| else s.peak)
      && (answer.Refused? ==> OnlyCounts(s, t, true))
  {
  }

  /** The worktree has a lane already, or there may be one lane more. */
  predicate LaneRoom(lanes: set<string>, limit: int, worktree: string) {
    worktree in lanes || limit <= 0 || |lanes| < limit
  }

  /** A worktree is bound exactly when the caller still holds the id, the lane is
      there or may be opened, and fewer calls than the lane's limit are bound to
      it; otherwise the refusal is the first of these that fails. */
  lemma BindAnswers(s: State, id: Id, token: Token, worktree: string, lanes: set<string>)
    requires Balanced(s)
    ensures var t, answer := Bind(s, id, token, worktree, lanes).0, Bind(s, id, token, worktree, lanes).1;
      var room := LaneRoom(lanes, s.limits.lanes, worktree);
      var below := Count(Bound(s.awaiting), worktree) < s.limits.perLane;
      && (answer.Granted? <==> Holds(s, id, token) && room && below)
      && (answer == Refused(Gone) <==> !Holds(s, id, token))
      && (answer == Refused(LanesFull) <==> Holds(s, id, token) && !room)
      && (answer == Refused(LaneFull) <==> Holds(s, id, token) && room && !below)
      && (answer.Granted? ==>
            t.awaiting == s.awaiting[id := Owed(s.awaiting[id].conn, worktree, token)] && t.operations == s.operations)
      && (answer.Refused? ==> OnlyCounts(s, t, answer != Refused(Gone)))
  {
    assert Get(s.perWorktree, worktree) == Count(Bound(s.awaiting), worktree);
  }

  /** A call is placed exactly when the caller still holds the id, nothing runs
      under the connection and the id, and neither the session nor the worktree
      has as many operations as it may. */
  lemma BeginAnswers(s: State, id: Id, token: Token, conn: Conn, worktree: string)
    requires Balanced(s)
    ensures var t, answer := Begin(s, id, token, conn, worktree).0, Begin(s, id, token, conn, worktree).1;
      var free := Key(conn, id) !in s.operations;
      var room := |s.operations| < s.limits.session && Count(Running(s.operations), worktree) < s.limits.perLane;
      && (answer.Granted? <==> Holds(s, id, token) && free && room)
      && (answer == Refused(Gone) <==> !Holds(s, id, token))
      && (answer == Refused(StillRunning) <==> Holds(s, id, token) && !free)
      && (answer == Refused(OperationsFull) <==> Holds(s, id, token) && free && !room)
      && (answer.Granted? ==>
            && t.awaiting == s.awaiting[id := Owed(Some(conn), s.awaiting[id].worktree, token)]
            && t.operations == s.operations[Key(conn, id) := Operation(worktree, false, token)])
      && (answer.Refused? ==> OnlyCounts(s, t, answer == Refused(OperationsFull)))
  {
    assert Get(s.operationsPerWorktree, worktree) == Count(Running(s.operations), worktree);
  }

  // ----- who leaves, and what stays running

  /** The admissions in `gone` have left, and no other has changed. */
  ghost predicate Left(s: State, t: State, gone: set<Id>) {
    && t.awaiting.Keys == s.awaiting.Keys - gone && (forall i :: i in t.awaiting ==> t.awaiting[i] == s.awaiting[i])
    && t.completed == s.completed + |gone|
  }

  /** The operations are those of before, but for `ended`; those in `abandoned` are
      marked, and no other has changed. */
  ghost predicate Ran(s: State, t: State, ended: set<Key>, abandoned: set<Key>) {
    && t.operations.Keys == s.operations.Keys - ended
    && forall k :: k in t.operations ==>
         && t.operations[k].worktree == s.operations[k].worktree && t.operations[k].token == s.operations[k].token
         && (t.operations[k].abandoned <==> s.operations[k].abandoned || k in abandoned)
  }

  /** Where the call under an id is placed. */
  function PlaceOf(s: State, id: Id): set<Key> {
    if id in s.awaiting && s.awaiting[id].conn.Some? then {Key(s.awaiting[id].conn.value, id)} else {}
  }

  /** An answer is the caller's to give exactly when the id is still held by the
      admission asked for, if one is, and placed on the connection that asks, if
      one does. A connection that asks ends its operation in any case; a call that
      is taken leaves whatever else it runs abandoned. */
  lemma FinishAnswers(s: State, id: Id, conn: Option<Conn>, token: Option<Token>)
    ensures var t := Finish(s, id, conn, token);
      var taken := id in s.awaiting && (token.Some? ==> s.awaiting[id].token == token.value)
                   && (conn.Some? ==> s.awaiting[id].conn == conn);
      && (Claims(s, id, conn, token) <==> taken)
      && Left(s, t, if taken then {id} else {})
      && Ran(s, t, if conn.Some? then {Key(conn.value, id)} else {}, if taken then PlaceOf(s, id) else {})
      && t.nextToken == s.nextToken && t.rejected == s.rejected
  {
  }

  /** A call is taken back for another attempt exactly when the admission still
      holds its id and is still placed on the connection that failed. */
  lemma RetryAnswers(s: State, id: Id, conn: Conn, token: Token)
    ensures var t, mine := Retry(s, id, conn, token), Holds(s, id, token) && s.awaiting[id].conn == Some(conn);
      && (Retries(s, id, conn, token) <==> mine)
      && t.awaiting == (if mine then s.awaiting[id := Owed(None, s.awaiting[id].worktree, token)] else s.awaiting)
      && Ran(s, t, {}, if mine then {Key(conn, id)} else {})
      && t.rejected == s.rejected && t.completed == s.completed && t.nextToken == s.nextToken
  {
  }

  /** A dying connection takes exactly the calls placed on it, and leaves what they
      run there abandoned. */
  lemma FailInFlightAnswers(s: State, conn: Conn)
    ensures var t, gone := FailInFlight(s, conn), set id | id in s.awaiting && s.awaiting[id].conn == Some(conn);
      Left(s, t, gone) && Ran(s, t, {}, set id | id in gone :: Key(conn, id)) && t.nextToken == s.nextToken
  {
    var t, gone := FailInFlight(s, conn), OwnedBy(s, conn);
    assert gone == set id | id in s.awaiting && s.awaiting[id].conn == Some(conn);
    assert t.awaiting.Keys == s.awaiting.Keys - gone;
    forall k | k in t.operations
      ensures t.operations[k].abandoned <==> s.operations[k].abandoned || (k.id in gone && k.conn == conn)
    {
    }
    forall k ensures k in (set id | id in gone :: Key(conn, id)) <==> k.id in gone && k.conn == conn {
      assert k == Key(k.conn, k.id);
    }
  }

  /** A delivery starts over exactly when its admission still holds the id. */
  lemma PlaceAnswers(s: State, id: Id, token: Token)
    ensures Place(s, id, token) ==
      if Holds(s, id, token) then s.(awaiting := s.awaiting[id := Owed(None, s.awaiting[id].worktree, token)]) else s
  {
  }
}

/** The request tracker of one router: what is owed to the client
    (`awaitingUpstream`) and what may still run upstream (`operations`).

    Every function below is one critical section under the router's mutex, as a
    function of the tables; Router.dfy proves the mutating methods against them. */
module Tracker {
  import opened Options
  import opened Tallies

  type Conn = nat
  type Token = nat

  datatype Id = Number(value: int) | Text(text: string)
  datatype Key = Key(conn: Conn, id: Id)

  /** A request in flight. `worktree` is empty until routing has bound one, and
      `conn` is None until an upstream has taken the call. `token` stands for the
      address of the admission's callState. */
  datatype Owed = Owed(conn: Option<Conn>, worktree: string, token: Token)
  datatype Operation = Operation(worktree: string, abandoned: bool, token: Token)
  datatype Limits = Limits(session: int, perLane: int, lanes: int)

  datatype State = State(
    limits: Limits,
    awaiting: map<Id, Owed>,
    perWorktree: map<string, int>,
    operations: map<Key, Operation>,
    operationsPerWorktree: map<string, int>,
    nextToken: Token,
    admitted: nat, completed: nat, rejected: nat, peak: nat)

  datatype Refusal = DuplicateId | SessionFull | Gone | LanesFull | LaneFull | StillRunning | OperationsFull
  datatype Granted<+T> = Granted(value: T) | Refused(why: Refusal)

  function Empty(limits: Limits): State {
    State(limits, map[], map[], map[], map[], 0, 0, 0, 0, 0)
  }

  function Rejected(s: State): State {
    s.(rejected := s.rejected + 1)
  }

  function Max(a: int, b: int): int { if a < b then b else a }

  /** The tables after `admit`, and the token it minted. */
  function Admit(s: State, id: Id): (State, Granted<Token>) {
    if id in s.awaiting then
      (Rejected(s), Refused(DuplicateId))
    else if |s.awaiting| >= s.limits.session then
      (Rejected(s), Refused(SessionFull))
    else
      var awaiting := s.awaiting[id := Owed(None, "", s.nextToken)];
      (s.(awaiting := awaiting, nextToken := s.nextToken + 1, admitted := s.admitted + 1,
          peak := Max(s.peak, |awaiting|)),
       Granted(s.nextToken))
  }

  /** `ownerLocked`: no token asks for whoever holds the id. */
  predicate Owns(s: State, id: Id, token: Option<Token>) {
    id in s.awaiting && (token.Some? ==> s.awaiting[id].token == token.value)
  }

  function EndOperation(s: State, key: Key): State {
    if key in s.operations then
      s.(operations := s.operations - {key},
         operationsPerWorktree := Release(s.operationsPerWorktree, s.operations[key].worktree))
    else s
  }

  function AbandonOperation(s: State, key: Key): State {
    if key in s.operations then
      s.(operations := s.operations[key := s.operations[key].(abandoned := true)])
    else s
  }

  /** `removeLocked`: the one way an admission leaves the table. */
  function Remove(s: State, id: Id): State
    requires id in s.awaiting
  {
    var owner := s.awaiting[id];
    var t := if owner.conn.Some? then AbandonOperation(s, Key(owner.conn.value, id)) else s;
    t.(awaiting := t.awaiting - {id},
       perWorktree := if owner.worktree != "" then Release(t.perWorktree, owner.worktree) else t.perWorktree,
       completed := t.completed + 1)
  }

  /** Whether `finish` takes the call away from everyone else. */
  predicate Claims(s: State, id: Id, conn: Option<Conn>, token: Option<Token>) {
    Owns(s, id, token) && (conn.Some? ==> s.awaiting[id].conn == conn)
  }

  function Finish(s: State, id: Id, conn: Option<Conn>, token: Option<Token>): State {
    var t := if conn.Some? then EndOperation(s, Key(conn.value, id)) else s;
    if Claims(t, id, conn, token) then Remove(t, id) else t
  }

  predicate Retries(s: State, id: Id, conn: Conn, token: Token) {
    Owns(s, id, Some(token)) && s.awaiting[id].conn == Some(conn)
  }

  function Retry(s: State, id: Id, conn: Conn, token: Token): State {
    if Retries(s, id, conn, token) then
      AbandonOperation(s, Key(conn, id)).(awaiting := s.awaiting[id := s.awaiting[id].(conn := None)])
    else s
  }

  /** `bindWorktree` for a live delivery context. */
  function Bind(s: State, id: Id, token: Token, worktree: string, lanes: set<string>): (State, Granted<()>) {
    if !Owns(s, id, Some(token)) then
      (s, Refused(Gone))
    else if worktree !in lanes && s.limits.lanes > 0 && |lanes| >= s.limits.lanes then
      (Rejected(s), Refused(LanesFull))
    else if Get(s.perWorktree, worktree) >= s.limits.perLane then
      (Rejected(s), Refused(LaneFull))
    else
      (s.(awaiting := s.awaiting[id := s.awaiting[id].(worktree := worktree)],
          perWorktree := Take(s.perWorktree, worktree)),
       Granted(()))
  }

  function Place(s: State, id: Id, token: Token): State {
    if Owns(s, id, Some(token)) then
      s.(awaiting := s.awaiting[id := s.awaiting[id].(conn := None)])
    else s
  }

  /** `beginOperation`: the credit is reserved and the call placed in one step. */
  function Begin(s: State, id: Id, token: Token, conn: Conn, worktree: string): (State, Granted<()>) {
    if !Owns(s, id, Some(token)) then
      (s, Refused(Gone))
    else if Key(conn, id) in s.operations then
      (s, Refused(StillRunning))
    else if |s.operations| >= s.limits.session || Get(s.operationsPerWorktree, worktree) >= s.limits.perLane then
      (Rejected(s), Refused(OperationsFull))
    else
      (s.(awaiting := s.awaiting[id := s.awaiting[id].(conn := Some(conn))],
          operations := s.operations[Key(conn, id) := Operation(worktree, false, token)],
          operationsPerWorktree := Take(s.operationsPerWorktree, worktree)),
       Granted(()))
  }

  /** The ids a dying connection strands. */
  function OwnedBy(s: State, conn: Conn): set<Id> {
    set id | id in s.awaiting && s.awaiting[id].conn == Some(conn)
  }

  /** All of `ids` removed at once. */
  ghost function RemoveAll(s: State, ids: set<Id>): State
    requires ids <= s.awaiting.Keys
  {
    s.(awaiting := s.awaiting - ids,
       operations := map k | k in s.operations ::
         if k.id in ids && s.awaiting[k.id].conn == Some(k.conn) then s.operations[k].(abandoned := true)
         else s.operations[k],
       perWorktree := ReleaseEach(s.perWorktree, Lost(Bound(s.awaiting), ids)),
       completed := s.completed + |ids|)
  }

  ghost function FailInFlight(s: State, conn: Conn): State {
    RemoveAll(s, OwnedBy(s, conn))
  }

  /** `clearRequests`: nothing is owed and nothing runs. */
  ghost function Clear(s: State): State {
    RemoveAll(s, s.awaiting.Keys).(operations := map[], operationsPerWorktree := map[])
  }

  /** The worktree each bound admission counts against. */
  ghost function Bound(awaiting: map<Id, Owed>): map<Id, string> {
    map id | id in awaiting && awaiting[id].worktree != "" :: awaiting[id].worktree
  }

  /** The worktree each operation counts against. */
  ghost function Running(operations: map<Key, Operation>): map<Key, string> {
    map k | k in operations :: operations[k].worktree
  }

  /** The accounting every critical section keeps. */
  ghost predicate Balanced(s: State) {
    && Exact(s.perWorktree, Bound(s.awaiting), s.limits.perLane)
    && Exact(s.operationsPerWorktree, Running(s.operations), s.limits.perLane)
    && s.admitted == s.completed + |s.awaiting|
    && |s.awaiting| <= s.peak <= s.limits.session
    && |s.operations| <= s.limits.session
  }

  /** Balanced under the same limits. */
  ghost predicate Within(s: State, t: State) {
    Balanced(t) && t.limits == s.limits
  }

  lemma EmptyIsBalanced(limits: Limits)
    requires limits.session >= 0 && limits.perLane >= 0
    ensures Balanced(Empty(limits))
  {
    var s := Empty(limits);
    forall w ensures Count(Bound(s.awaiting), w) == 0 && Count(Running(s.operations), w) == 0 {
      NobodyCounts(Bound(s.awaiting), w);
      NobodyCounts(Running(s.operations), w);
    }
  }

  lemma AdmitKeepsBalance(s: State, id: Id)
    requires Balanced(s)
    ensures Within(s, Admit(s, id).0)
  {
    if Admit(s, id).1.Granted? {
      BoundIgnores(s.awaiting, id, Owed(None, "", s.nextToken));
    }
  }

  /** An unbound record is in no worktree's count. */
  lemma BoundIgnores(awaiting: map<Id, Owed>, id: Id, owner: Owed)
    requires id !in awaiting && owner.worktree == ""
    ensures Bound(awaiting[id := owner]) == Bound(awaiting)
    ensures |awaiting[id := owner]| == |awaiting| + 1
  {
  }

  /** A worktree is bound once per admission: a second binding would take a
      second count that one removal never gives back. */
  lemma BindKeepsBalance(s: State, id: Id, token: Token, worktree: string, lanes: set<string>)
    requires Balanced(s) && worktree != ""
    requires id in s.awaiting ==> s.awaiting[id].worktree == ""
    ensures Within(s, Bind(s, id, token, worktree, lanes).0)
  {
    if Bind(s, id, token, worktree, lanes).1.Granted? {
      BoundGrows(s.awaiting, id, worktree);
      TakeKeepsExact(s.perWorktree, Bound(s.awaiting), s.limits.perLane, id, worktree);
    }
  }

  lemma BoundGrows(awaiting: map<Id, Owed>, id: Id, worktree: string)
    requires id in awaiting && awaiting[id].worktree == "" && worktree != ""
    ensures id !in Bound(awaiting)
    ensures Bound(awaiting[id := awaiting[id].(worktree := worktree)]) == Bound(awaiting)[id := worktree]
    ensures |awaiting[id := awaiting[id].(worktree := worktree)]| == |awaiting|
  {
    var after := awaiting[id := awaiting[id].(worktree := worktree)];
    assert after.Keys == awaiting.Keys;
  }

  lemma PlaceKeepsBalance(s: State, id: Id, token: Token)
    requires Balanced(s)
    ensures Within(s, Place(s, id, token))
  {
    if Owns(s, id, Some(token)) {
      BoundKeeps(s.awaiting, id, None);
    }
  }

  lemma BeginKeepsBalance(s: State, id: Id, token: Token, conn: Conn, worktree: string)
    requires Balanced(s)
    ensures Within(s, Begin(s, id, token, conn, worktree).0)
  {
    if Begin(s, id, token, conn, worktree).1.Granted? {
      BoundKeeps(s.awaiting, id, Some(conn));
      TakeKeepsExact(s.operationsPerWorktree, Running(s.operations), s.limits.perLane, Key(conn, id), worktree);
      RunningGrows(s.operations, Key(conn, id), Operation(worktree, false, token));
    }
  }

  lemma RunningGrows(operations: map<Key, Operation>, key: Key, op: Operation)
    requires key !in operations
    ensures Running(operations[key := op]) == Running(operations)[key := op.worktree]
    ensures |operations[key := op]| == |operations| + 1
  {
  }

  /** Changing hands between connections moves no worktree's count. */
  lemma BoundKeeps(awaiting: map<Id, Owed>, id: Id, conn: Option<Conn>)
    requires id in awaiting
    ensures Bound(awaiting[id := awaiting[id].(conn := conn)]) == Bound(awaiting)
    ensures |awaiting[id := awaiting[id].(conn := conn)]| == |awaiting|
  {
    var after := awaiting[id := awaiting[id].(conn := conn)];
    assert after.Keys == awaiting.Keys;
  }

  lemma EndOperationKeepsBalance(s: State, key: Key)
    requires Balanced(s)
    ensures Within(s, EndOperation(s, key))
  {
    if key in s.operations {
      ReleaseOne(s.operationsPerWorktree, Running(s.operations), s.limits.perLane, key);
      RunningShrinks(s.operations, key);
    }
  }

  lemma RunningShrinks(operations: map<Key, Operation>, key: Key)
    requires key in operations
    ensures Running(operations - {key}) == Running(operations) - {key}
    ensures |operations - {key}| == |operations| - 1
  {
    assert (operations - {key}).Keys == operations.Keys - {key};
  }

  lemma AbandonOperationKeepsBalance(s: State, key: Key)
    requires Balanced(s)
    ensures Within(s, AbandonOperation(s, key))
  {
    var t := AbandonOperation(s, key);
    assert Running(t.operations) == Running(s.operations);
    assert t.operations.Keys == s.operations.Keys;
  }

  lemma RetryKeepsBalance(s: State, id: Id, conn: Conn, token: Token)
    requires Balanced(s)
    ensures Within(s, Retry(s, id, conn, token))
  {
    if Retries(s, id, conn, token) {
      AbandonOperationKeepsBalance(s, Key(conn, id));
      BoundKeeps(s.awaiting, id, None);
    }
  }

  /** Removing a set and then one more is removing them together. */
  lemma RemoveLast(s: State, ids: set<Id>, id: Id)
    requires ids <= s.awaiting.Keys && id in s.awaiting && id !in ids
    ensures RemoveAll(s, ids + {id}) == Remove(RemoveAll(s, ids), id)
  {
    var before, both := RemoveAll(s, ids), RemoveAll(s, ids + {id});
    var step := Remove(before, id);
    assert both.awaiting == step.awaiting;
    AbandonLast(s, ids, id);
    assert both.perWorktree == step.perWorktree by {
      ReleasesLast(s, ids, id);
    }
  }

  lemma AbandonLast(s: State, ids: set<Id>, id: Id)
    requires ids <= s.awaiting.Keys && id in s.awaiting && id !in ids
    ensures RemoveAll(s, ids + {id}).operations == Remove(RemoveAll(s, ids), id).operations
  {
    var after, step := RemoveAll(s, ids + {id}).operations, Remove(RemoveAll(s, ids), id).operations;
    assert RemoveAll(s, ids).awaiting[id] == s.awaiting[id];
    assert after.Keys == s.operations.Keys == step.Keys;
    forall k | k in s.operations ensures after[k] == step[k] {
      if k.id == id && s.awaiting[id].conn == Some(k.conn) {
        assert after[k].abandoned && step[k].abandoned;
      }
    }
  }

  lemma ReleasesLast(s: State, ids: set<Id>, id: Id)
    requires ids <= s.awaiting.Keys && id in s.awaiting && id !in ids
    ensures RemoveAll(s, ids + {id}).perWorktree ==
      if s.awaiting[id].worktree != "" then Release(RemoveAll(s, ids).perWorktree, s.awaiting[id].worktree)
      else RemoveAll(s, ids).perWorktree
  {
    var gone, more := Lost(Bound(s.awaiting), ids), Lost(Bound(s.awaiting), ids + {id});
    if s.awaiting[id].worktree != "" {
      ReleaseLast(s.perWorktree, gone, id, s.awaiting[id].worktree);
      assert more == gone[id := s.awaiting[id].worktree];
    } else {
      assert more == gone;
    }
  }

  lemma RemoveNobody(s: State)
    ensures RemoveAll(s, {}) == s
  {
    ReleaseNone(s.perWorktree, Lost(Bound(s.awaiting), {}));
    assert s.awaiting - {} == s.awaiting;
    assert RemoveAll(s, {}).operations == s.operations;
  }

  lemma RemoveAllKeepsBalance(s: State, ids: set<Id>)
    requires Balanced(s) && ids <= s.awaiting.Keys
    ensures Within(s, RemoveAll(s, ids))
  {
    ReleaseEachKeepsExact(s.perWorktree, Bound(s.awaiting), s.limits.perLane, ids);
    BoundShrinks(s.awaiting, ids);
    RunningKeeps(s, ids);
  }

  lemma BoundShrinks(awaiting: map<Id, Owed>, ids: set<Id>)
    requires ids <= awaiting.Keys
    ensures Bound(awaiting - ids) == Bound(awaiting) - ids
    ensures |awaiting - ids| == |awaiting| - |ids|
  {
    assert (awaiting - ids).Keys == awaiting.Keys - ids;
  }

  lemma RunningKeeps(s: State, ids: set<Id>)
    requires ids <= s.awaiting.Keys
    ensures Running(RemoveAll(s, ids).operations) == Running(s.operations)
    ensures |RemoveAll(s, ids).operations| == |s.operations|
  {
    assert RemoveAll(s, ids).operations.Keys == s.operations.Keys;
  }

  lemma RemoveIsRemoveAll(s: State, id: Id)
    requires id in s.awaiting
    ensures RemoveAll(s, {id}) == Remove(s, id)
  {
    RemoveNobody(s);
    RemoveLast(s, {}, id);
    assert {} + {id} == {id};
  }

  lemma RemoveKeepsBalance(s: State, id: Id)
    requires Balanced(s) && id in s.awaiting
    ensures Within(s, Remove(s, id))
  {
    RemoveIsRemoveAll(s, id);
    RemoveAllKeepsBalance(s, {id});
  }

  lemma FinishKeepsBalance(s: State, id: Id, conn: Option<Conn>, token: Option<Token>)
    requires Balanced(s)
    ensures Within(s, Finish(s, id, conn, token))
  {
    var t := if conn.Some? then EndOperation(s, Key(conn.value, id)) else s;
    if conn.Some? {
      EndOperationKeepsBalance(s, Key(conn.value, id));
    }
    if Claims(t, id, conn, token) {
      RemoveKeepsBalance(t, id);
    }
  }

  lemma FailInFlightKeepsBalance(s: State, conn: Conn)
    requires Balanced(s)
    ensures Within(s, FailInFlight(s, conn))
  {
    RemoveAllKeepsBalance(s, OwnedBy(s, conn));
  }

  lemma ClearKeepsBalance(s: State)
    requires Balanced(s)
    ensures Within(s, Clear(s)) && Clear(s).awaiting == map[] && Clear(s).operations == map[]
  {
    RemoveAllKeepsBalance(s, s.awaiting.Keys);
    var t := Clear(s);
    forall w ensures Count(Running(t.operations), w) == 0 <= s.limits.perLane {
      NobodyCounts(Running(t.operations), w);
      assert Get(s.operationsPerWorktree, w) == Count(Running(s.operations), w) <= s.limits.perLane;
    }
  }
}

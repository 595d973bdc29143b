/** The mirror of the routers' upstream operations that other managers read: that it
    is what the routers' tables hold, and why no change to it is lost. */
module Pending {
  import opened Options
  import Tracker

  type Key = Tracker.Key

  /** `started` is a wall-clock instant after the zero time. */
  datatype Call = Call(worktree: string, started: nat)

  // ----- the newest start per worktree

  function Get(m: map<string, nat>, w: string): nat {
    if w in m then m[w] else 0
  }

  /** `newest` names exactly the worktrees with a call, each with its latest
      start; a call at the zero time names none. */
  predicate IsNewest(calls: map<Key, Call>, newest: map<string, nat>) {
    && (forall k :: k in calls && calls[k].started > 0 ==> calls[k].worktree in newest)
    && (forall k :: k in calls ==> calls[k].started <= Get(newest, calls[k].worktree))
    && (forall w :: w in newest ==> exists k :: k in calls && calls[k] == Call(w, newest[w]) && newest[w] > 0)
  }

  /** There is one such answer, in whatever order the calls are walked. */
  lemma NewestIsOne(calls: map<Key, Call>, m: map<string, nat>, n: map<string, nat>)
    requires IsNewest(calls, m) && IsNewest(calls, n)
    ensures m == n
  {
    NewestWithin(calls, m, n);
    NewestWithin(calls, n, m);
  }

  lemma NewestWithin(calls: map<Key, Call>, m: map<string, nat>, n: map<string, nat>)
    requires IsNewest(calls, m) && IsNewest(calls, n)
    ensures forall w :: w in m ==> w in n && m[w] <= n[w]
  {
    forall w | w in m ensures w in n && m[w] <= n[w] {
      var k :| k in calls && calls[k] == Call(w, m[w]) && m[w] > 0;
      assert calls[k].worktree in n;
    }
  }

  /** `newest`. */
  method Newest(calls: map<Key, Call>) returns (newest: map<string, nat>)
    ensures IsNewest(calls, newest)
  {
    newest := map[];
    var todo := calls.Keys;
    ghost var done: map<Key, Call> := map[];
    while todo != {}
      invariant todo <= calls.Keys && done.Keys == calls.Keys - todo
      invariant forall k :: k in done ==> done[k] == calls[k]
      invariant IsNewest(done, newest)
      decreases todo
    {
      var k :| k in todo;
      todo := todo - {k};
      var call := calls[k];
      NewestGrows(done, newest, k, call);
      done := done[k := call];
      if call.started > Get(newest, call.worktree) {
        newest := newest[call.worktree := call.started];
      }
    }
    assert done == calls;
  }

  lemma NewestGrows(done: map<Key, Call>, newest: map<string, nat>, k: Key, call: Call)
    requires k !in done && IsNewest(done, newest)
    ensures IsNewest(done[k := call],
      if call.started > Get(newest, call.worktree) then newest[call.worktree := call.started] else newest)
  {
    var more := done[k := call];
    var after := if call.started > Get(newest, call.worktree) then newest[call.worktree := call.started] else newest;
    forall w | w in after ensures exists j :: j in more && more[j] == Call(w, after[w]) && after[w] > 0 {
      if w in newest && after[w] == newest[w] {
        var j :| j in done && done[j] == Call(w, newest[w]) && newest[w] > 0;
        assert more[j] == Call(w, after[w]);
      } else {
        assert more[k] == Call(w, after[w]);
      }
    }
  }

  // ----- what a router's critical sections do to its operations

  /** A critical section of a router's tracker. Clearing is a Forget and one End per
      operation, as each is told to the mirror by itself. */
  datatype Section =
    | Admit(id: Tracker.Id)
    | Bind(id: Tracker.Id, token: Tracker.Token, worktree: string, lanes: set<string>)
    | Place(id: Tracker.Id, token: Tracker.Token)
    | Begin(id: Tracker.Id, token: Tracker.Token, conn: Tracker.Conn, worktree: string)
    | End(key: Key)
    | Finish(id: Tracker.Id, asker: Option<Tracker.Conn>, asked: Option<Tracker.Token>)
    | Retry(id: Tracker.Id, conn: Tracker.Conn, token: Tracker.Token)
    | FailInFlight(conn: Tracker.Conn)
    | Forget

  ghost function After(t: Tracker.State, section: Section): Tracker.State {
    match section
    case Admit(id) => Tracker.Admit(t, id).0
    case Bind(id, token, worktree, lanes) => Tracker.Bind(t, id, token, worktree, lanes).0
    case Place(id, token) => Tracker.Place(t, id, token)
    case Begin(id, token, conn, worktree) => Tracker.Begin(t, id, token, conn, worktree).0
    case End(key) => Tracker.EndOperation(t, key)
    case Finish(id, conn, token) => Tracker.Finish(t, id, conn, token)
    case Retry(id, conn, token) => Tracker.Retry(t, id, conn, token)
    case FailInFlight(conn) => Tracker.FailInFlight(t, conn)
    case Forget => Tracker.RemoveAll(t, t.awaiting.Keys)
  }

  /** What a critical section tells the mirror. */
  datatype Told = Nothing | Began(key: Key, worktree: string) | Ended(key: Key)

  /** `beginOperation` tells of a granted operation, `endOperationLocked` of one it
      has deleted, and `finish` ends the operation under its connection first. */
  function Tells(t: Tracker.State, section: Section): Told {
    match section
    case Begin(id, token, conn, worktree) =>
      if Tracker.Begin(t, id, token, conn, worktree).1.Granted? then Began(Tracker.Key(conn, id), worktree) else Nothing
    case End(key) => if key in t.operations then Ended(key) else Nothing
    case Finish(id, Some(conn), _) =>
      if Tracker.Key(conn, id) in t.operations then Ended(Tracker.Key(conn, id)) else Nothing
    case _ => Nothing
  }

  /** The operations of a router, with the worktree of each. */
  ghost function Running(t: Tracker.State): map<Key, string> {
    Tracker.Running(t.operations)
  }

  function Heard(running: map<Key, string>, told: Told): map<Key, string> {
    match told
    case Nothing => running
    case Began(key, worktree) => running[key := worktree]
    case Ended(key) => running - {key}
  }

  lemma RemoveKeepsRunning(t: Tracker.State, id: Tracker.Id)
    requires id in t.awaiting
    ensures Running(Tracker.Remove(t, id)) == Running(t)
  {
  }

  lemma EndDrops(t: Tracker.State, key: Key)
    ensures Running(Tracker.EndOperation(t, key)) == Running(t) - {key}
  {
  }

  lemma FinishTells(t: Tracker.State, id: Tracker.Id, conn: Option<Tracker.Conn>, token: Option<Tracker.Token>)
    ensures Running(Tracker.Finish(t, id, conn, token)) == Heard(Running(t), Tells(t, Finish(id, conn, token)))
  {
    var ended := if conn.Some? then Tracker.EndOperation(t, Tracker.Key(conn.value, id)) else t;
    if conn.Some? {
      EndDrops(t, Tracker.Key(conn.value, id));
    }
    if Tracker.Claims(ended, id, conn, token) {
      RemoveKeepsRunning(ended, id);
    }
    assert conn.Some? && Tracker.Key(conn.value, id) !in t.operations ==> ended == t;
  }

  lemma BeginTells(t: Tracker.State, id: Tracker.Id, token: Tracker.Token, conn: Tracker.Conn, worktree: string)
    ensures Running(Tracker.Begin(t, id, token, conn, worktree).0) ==
      Heard(Running(t), Tells(t, Begin(id, token, conn, worktree)))
  {
  }

  lemma RetryKeepsRunning(t: Tracker.State, id: Tracker.Id, conn: Tracker.Conn, token: Tracker.Token)
    ensures Running(Tracker.Retry(t, id, conn, token)) == Running(t)
  {
  }

  lemma RoutingKeepsOperations(t: Tracker.State, section: Section)
    requires section.Admit? || section.Bind? || section.Place?
    ensures After(t, section).operations == t.operations
  {
  }

  /** A router's operations change only as the mirror is told. */
  lemma SectionTells(t: Tracker.State, section: Section)
    ensures Running(After(t, section)) == Heard(Running(t), Tells(t, section))
  {
    match section
    case Begin(id, token, conn, worktree) => BeginTells(t, id, token, conn, worktree);
    case Retry(id, conn, token) => RetryKeepsRunning(t, id, conn, token);
    case End(key) =>
      EndDrops(t, key);
      assert key !in t.operations ==> Running(t) - {key} == Running(t);
    case Finish(id, conn, token) => FinishTells(t, id, conn, token);
    case FailInFlight(conn) => Tracker.RunningKeeps(t, Tracker.OwnedBy(t, conn));
    case Forget => Tracker.RunningKeeps(t, t.awaiting.Keys);
    case _ => RoutingKeepsOperations(t, section);
  }

  // ----- the mirror and its publisher

  /** The publisher waits for a token, or has taken one, or has taken its snapshot
      and has yet to write it. */
  datatype Publisher = Waiting | Awake | Writing(snapshot: map<string, nat>)

  /** The routers, whose each connection is, the mirror, the one-slot channel, how
      many updates are between their unlock and their send, and what was last
      handed to the file. */
  datatype Sys = Sys(
    routers: map<nat, Tracker.State>,
    home: map<Tracker.Conn, nat>,
    calls: map<Key, Call>,
    dirty: bool,
    updating: nat,
    publisher: Publisher,
    published: map<string, nat>)

  datatype Step =
    | Open(router: nat, limits: Tracker.Limits)
    | Dial(conn: Tracker.Conn, router: nat)
    | Work(router: nat, section: Section, now: nat)
    | Send
    | Wake
    | Take(snapshot: map<string, nat>)
    | Write

  /** A router places calls on its own connections only. */
  ghost predicate Enabled(s: Sys, step: Step) {
    match step
    case Open(router, _) => router !in s.routers
    case Dial(conn, router) => conn !in s.home && router in s.routers
    case Work(router, section, _) =>
      router in s.routers && (section.Begin? ==> section.conn in s.home && s.home[section.conn] == router)
    case Send => s.updating > 0
    case Wake => s.publisher.Waiting? && s.dirty
    case Take(snapshot) => s.publisher.Awake? && IsNewest(s.calls, snapshot)
    case Write => s.publisher.Writing?
  }

  /** `beginPending` and `endPending`. */
  function Mirrored(calls: map<Key, Call>, told: Told, now: nat): map<Key, Call> {
    match told
    case Nothing => calls
    case Began(key, worktree) => calls[key := Call(worktree, now)]
    case Ended(key) => calls - {key}
  }

  /** The mirror changes in the router's own critical section; the token is sent
      after it. */
  ghost function Next(s: Sys, step: Step): Sys
    requires Enabled(s, step)
  {
    match step
    case Open(router, limits) => s.(routers := s.routers[router := Tracker.Empty(limits)])
    case Dial(conn, router) => s.(home := s.home[conn := router])
    case Work(router, section, now) =>
      var told := Tells(s.routers[router], section);
      s.(routers := s.routers[router := After(s.routers[router], section)],
         calls := Mirrored(s.calls, told, now),
         updating := if told.Nothing? then s.updating else s.updating + 1)
    case Send => s.(dirty := true, updating := s.updating - 1)
    case Wake => s.(dirty := false, publisher := Awake)
    case Take(snapshot) => s.(publisher := Writing(snapshot))
    case Write => s.(publisher := Waiting, published := s.publisher.snapshot)
  }

  ghost function Run(s: Sys, steps: seq<Step>): Option<Sys>
    decreases |steps|
  {
    if steps == [] then Some(s)
    else if Enabled(s, steps[0]) then Run(Next(s, steps[0]), steps[1..])
    else None
  }

  const START := Sys(map[], map[], map[], false, 0, Waiting, map[])

  /** What each router runs. */
  ghost function Ran(s: Sys): map<nat, map<Key, string>> {
    map router | router in s.routers :: Running(s.routers[router])
  }

  /** The worktree that the router of the key's connection has an operation in. */
  function RunAt(ran: map<nat, map<Key, string>>, home: map<Tracker.Conn, nat>, key: Key): Option<string> {
    if key.conn in home && home[key.conn] in ran && key in ran[home[key.conn]]
    then Some(ran[home[key.conn]][key]) else None
  }

  /** The worktree that the mirror has the key in. */
  function Listed(calls: map<Key, Call>, key: Key): Option<string> {
    if key in calls then Some(calls[key].worktree) else None
  }

  /** An operation is under a connection of its own router. */
  ghost predicate AtHome(ran: map<nat, map<Key, string>>, home: map<Tracker.Conn, nat>) {
    forall router, key :: router in ran && key in ran[router] ==> key.conn in home && home[key.conn] == router
  }

  ghost predicate Mirrors(ran: map<nat, map<Key, string>>, home: map<Tracker.Conn, nat>, calls: map<Key, Call>) {
    AtHome(ran, home) && forall key :: Listed(calls, key) == RunAt(ran, home, key)
  }

  lemma HeardIsAtHome(ran: map<nat, map<Key, string>>, home: map<Tracker.Conn, nat>, router: nat, told: Told)
    requires AtHome(ran, home) && router in ran
    requires told.Began? ==> told.key.conn in home && home[told.key.conn] == router
    ensures AtHome(ran[router := Heard(ran[router], told)], home)
  {
  }

  /** A router and the mirror hear the same. */
  lemma HeardMirrors(ran: map<nat, map<Key, string>>, home: map<Tracker.Conn, nat>, calls: map<Key, Call>,
                     router: nat, told: Told, now: nat)
    requires Mirrors(ran, home, calls) && router in ran
    requires told.Began? ==> told.key.conn in home && home[told.key.conn] == router
    requires told.Ended? ==> told.key in ran[router]
    ensures Mirrors(ran[router := Heard(ran[router], told)], home, Mirrored(calls, told, now))
  {
    HeardIsAtHome(ran, home, router, told);
    var after, heard := ran[router := Heard(ran[router], told)], Mirrored(calls, told, now);
    forall key ensures Listed(heard, key) == RunAt(after, home, key) {
      assert Listed(calls, key) == RunAt(ran, home, key);
      if told.Ended? && key == told.key {
        assert home[key.conn] == router;
      }
    }
  }

  /** What a section tells of is an operation it places, or one the router has. */
  lemma ToldIsOwn(t: Tracker.State, section: Section)
    ensures var told := Tells(t, section);
      && (told.Began? ==> section.Begin? && told.key.conn == section.conn)
      && (told.Ended? ==> told.key in Running(t))
  {
  }

  lemma WorkRan(s: Sys, router: nat, section: Section, now: nat)
    requires Enabled(s, Work(router, section, now))
    ensures Ran(Next(s, Work(router, section, now))) ==
      Ran(s)[router := Heard(Ran(s)[router], Tells(s.routers[router], section))]
  {
    var s', told := Next(s, Work(router, section, now)), Tells(s.routers[router], section);
    SectionTells(s.routers[router], section);
    var running := Heard(Ran(s)[router], told);
    assert Running(s'.routers[router]) == running;
    assert Ran(s').Keys == Ran(s)[router := running].Keys;
    forall r | r in Ran(s') ensures Ran(s')[r] == Ran(s)[router := running][r] {
    }
  }

  ghost predicate SysMirrors(s: Sys) {
    Mirrors(Ran(s), s.home, s.calls)
  }

  lemma WorkMirrors(s: Sys, router: nat, section: Section, now: nat)
    requires SysMirrors(s) && Enabled(s, Work(router, section, now))
    ensures SysMirrors(Next(s, Work(router, section, now)))
  {
    var told := Tells(s.routers[router], section);
    ToldIsOwn(s.routers[router], section);
    WorkRan(s, router, section, now);
    HeardMirrors(Ran(s), s.home, s.calls, router, told, now);
  }

  lemma OpenMirrors(s: Sys, router: nat, limits: Tracker.Limits)
    requires SysMirrors(s) && Enabled(s, Open(router, limits))
    ensures SysMirrors(Next(s, Open(router, limits)))
  {
    var s' := Next(s, Open(router, limits));
    OpenRan(s, router, limits);
    forall key ensures RunAt(Ran(s'), s.home, key) == RunAt(Ran(s), s.home, key) {
    }
  }

  lemma OpenRan(s: Sys, router: nat, limits: Tracker.Limits)
    requires Enabled(s, Open(router, limits))
    ensures Ran(Next(s, Open(router, limits))) == Ran(s)[router := map[]]
  {
    assert Running(Tracker.Empty(limits)) == map[];
  }

  lemma DialMirrors(s: Sys, conn: Tracker.Conn, router: nat)
    requires SysMirrors(s) && Enabled(s, Dial(conn, router))
    ensures SysMirrors(Next(s, Dial(conn, router)))
  {
    var s' := Next(s, Dial(conn, router));
    assert Ran(s') == Ran(s);
    forall key ensures RunAt(Ran(s), s'.home, key) == RunAt(Ran(s), s.home, key) {
    }
  }

  lemma NextMirrors(s: Sys, step: Step)
    requires SysMirrors(s) && Enabled(s, step)
    ensures SysMirrors(Next(s, step))
  {
    match step
    case Work(router, section, now) => WorkMirrors(s, router, section, now);
    case Open(router, limits) => OpenMirrors(s, router, limits);
    case Dial(conn, router) => DialMirrors(s, conn, router);
    case _ => assert Ran(Next(s, step)) == Ran(s);
  }

  /** A publish is owed: a token, or somebody about to send one. */
  predicate Owed(s: Sys) {
    s.dirty || s.updating > 0
  }

  predicate InStep(s: Sys) {
    match s.publisher
    case Waiting => IsNewest(s.calls, s.published) || Owed(s)
    case Awake => true
    case Writing(snapshot) => IsNewest(s.calls, snapshot) || Owed(s)
  }

  lemma NextInStep(s: Sys, step: Step)
    requires InStep(s) && Enabled(s, step)
    ensures InStep(Next(s, step))
  {
  }

  lemma {:induction false} RunInStep(s: Sys, steps: seq<Step>)
    requires SysMirrors(s) && InStep(s) && Run(s, steps).Some?
    ensures SysMirrors(Run(s, steps).value) && InStep(Run(s, steps).value)
    decreases |steps|
  {
    if steps != [] {
      NextMirrors(s, steps[0]);
      NextInStep(s, steps[0]);
      RunInStep(Next(s, steps[0]), steps[1..]);
    }
  }

  lemma StartInStep()
    ensures SysMirrors(START) && InStep(START)
  {
    assert IsNewest(START.calls, START.published);
  }

  /** The router has an operation under the key, in that worktree. */
  predicate Runs(s: Sys, router: nat, key: Key, worktree: string) {
    router in s.routers && key in s.routers[router].operations && s.routers[router].operations[key].worktree == worktree
  }

  lemma RunsWhere(s: Sys, key: Key, worktree: string, router: nat)
    requires SysMirrors(s)
    ensures Runs(s, router, key, worktree) <==>
      Listed(s.calls, key) == Some(worktree) && key.conn in s.home && s.home[key.conn] == router
  {
    assert Listed(s.calls, key) == RunAt(Ran(s), s.home, key);
    assert router in s.routers ==> Ran(s)[router] == Running(s.routers[router]);
  }

  /** In every run the mirror holds exactly the operations of all the routers, each
      in its worktree, and no two routers share a key. */
  lemma MirrorIsUnion(steps: seq<Step>, key: Key, worktree: string)
    requires Run(START, steps).Some?
    ensures var s := Run(START, steps).value;
      && (key in s.calls && s.calls[key].worktree == worktree <==> exists r :: Runs(s, r, key, worktree))
      && forall r, q :: Runs(s, r, key, worktree) && Runs(s, q, key, worktree) ==> r == q
  {
    StartInStep();
    RunInStep(START, steps);
    var s := Run(START, steps).value;
    forall r ensures Runs(s, r, key, worktree) <==>
      Listed(s.calls, key) == Some(worktree) && key.conn in s.home && s.home[key.conn] == r
    {
      RunsWhere(s, key, worktree, r);
    }
    assert Listed(s.calls, key) == RunAt(Ran(s), s.home, key);
    if key in s.calls && s.calls[key].worktree == worktree {
      assert Runs(s, s.home[key.conn], key, worktree);
    }
  }

  /** No wakeup is lost: in every run, whenever what was last published is not what
      is pending now, somebody has yet to act on it. */
  lemma NoLostWakeup(steps: seq<Step>, newest: map<string, nat>)
    requires Run(START, steps).Some? && IsNewest(Run(START, steps).value.calls, newest)
    ensures var s := Run(START, steps).value;
      s.published != newest ==> s.dirty || s.updating > 0 || !s.publisher.Waiting?
  {
    StartInStep();
    RunInStep(START, steps);
    var s := Run(START, steps).value;
    if s.publisher.Waiting? && IsNewest(s.calls, s.published) {
      NewestIsOne(s.calls, s.published, newest);
    }
  }
}

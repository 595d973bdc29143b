/** One session as a transition system: the ingress reader, the routing owner, a
    sender and a control worker per lane, a reader and a roots worker per
    connection, execution timers, and the client's output queue.

    A step is one critical section of the router or one effect another goroutine
    can see; whatever a goroutine does between two such points is folded into the
    later one. Timeouts, cancelled contexts, full queues and failing writes are
    choices the action makes. */
module Protocol {
  import opened Options
  import opened Tracker

  // ----- what travels

  /** A delivery: a tracked call with its generation token, or a notification. */
  datatype Delivery = Call(id: Id, token: Token, initial: bool) | Note(initial: bool)

  /** An advice carries the id on the wire; which use of it is meant is known here. */
  datatype Body = Initialize | Payload | Reply | Cancel(named: Token, id: Id)

  /** One Write call on a connection. `posted` says it got past the checks made
      before the POST, so that the upstream may act on it; `answered` that its
      response has been read; `returned` that Write came back; `tooLarge` that a
      delivery was refused for its size. Only the calls of the client carry a
      token. */
  datatype Entry = Entry(body: Body, id: Option<Id>, token: Option<Token>,
                         posted: bool, tooLarge: bool, returned: bool, answered: bool)

  /** The private id every replayed initialize is sent under. */
  const INIT_ID := Text("gopls-mcp-manager-init")

  datatype Control = Control(conn: Conn, id: Id, token: Token)

  // ----- where the goroutines stand

  /** Where a call's delivery is. */
  datatype Stage =
    | Routing(initial: bool)
    | Queued(worktree: string, initial: bool)
    | AtLane(worktree: string)
    | Settled

  datatype Cause = Answer(conn: Conn, at: nat) | Died(conn: Conn) | Undelivered | Cancelled | Expired

  /** What became of an admission: still owed, taken by somebody who has yet to
      forward its answer, answered, or dropped with the session. */
  datatype Status = Owing | Taken(cause: Cause) | Done(cause: Cause) | Lost

  /** lane.send, with the attempts left. Between Writing and Returned the sender
      holds the lane's write gate. */
  datatype Sender =
    | Idle
    | Attempting(d: Delivery, left: nat)
    | Writing(d: Delivery, left: nat, conn: Conn)
    | Issued(d: Delivery, left: nat, conn: Conn, at: nat)
    | Returned(d: Delivery, left: nat, conn: Conn, at: nat, ok: bool)
    | Failing(d: Delivery)

  /** lane.runControls. Between Checked and Rest the worker holds the gate. */
  datatype Worker = Rest | Checked(control: Control) | Sending(control: Control)

  datatype Lane = Lane(conn: Option<Conn>, sender: Sender, worker: Worker, controls: set<Control>)

  datatype Reader = Running | Dying | Ended
  datatype RootsWorker = Serving | Releasing | Closing | Drained

  datatype Sys = Sys(
    t: State,
    ids: map<Token, Id>,
    status: map<Token, Status>,
    stage: map<Token, Stage>,
    laneOf: map<Conn, string>,
    wire: map<Conn, seq<Entry>>,
    lanes: map<string, Lane>,
    readers: map<Conn, Reader>,
    roots: map<Conn, RootsWorker>,
    closed: set<Conn>,
    released: set<Conn>,
    gap: map<Token, Conn>,
    timers: set<Token>,
    out: seq<Token>,
    over: bool,
    cleared: bool)

  function Start(limits: Limits): Sys {
    Sys(Empty(limits), map[], map[], map[], map[], map[], map[], map[], map[],
        {}, {}, map[], {}, [], false, false)
  }

  // ----- shorthands

  /** Admission `token` is still owed an answer. */
  predicate Outstanding(s: Sys, token: Token) {
    token in s.ids && s.ids[token] in s.t.awaiting && s.t.awaiting[s.ids[token]].token == token
  }

  /** The sender holds the lane's write gate. */
  predicate Gated(l: Lane) {
    l.sender.Writing? || l.sender.Issued?
  }

  /** The write that placed `token` on `conn` has returned: its `placed` channel
      is closed. */
  predicate Placed(s: Sys, conn: Conn, token: Token) {
    conn in s.wire && exists k ::
      0 <= k < |s.wire[conn]| && s.wire[conn][k].token == Some(token) && s.wire[conn][k].returned
  }

  function After(d: Delivery, left: nat): Sender {
    if left > 1 then Attempting(d, left - 1) else Failing(d)
  }

  function WithSender(s: Sys, w: string, sender: Sender): Sys
    requires w in s.lanes
  {
    s.(lanes := s.lanes[w := s.lanes[w].(sender := sender)])
  }

  function Settle(stage: map<Token, Stage>, d: Delivery): map<Token, Stage> {
    if d.Call? then stage[d.token := Settled] else stage
  }

  /** The statuses once whoever may claim `id` owes its answer. */
  function Taking(s: Sys, id: Id, conn: Option<Conn>, token: Option<Token>, cause: Cause): map<Token, Status> {
    if Claims(s.t, id, conn, token) then s.status[s.t.awaiting[id].token := Taken(cause)] else s.status
  }

  /** `finish`: whoever holds `id` loses it to the caller. */
  function Claim(s: Sys, id: Id, conn: Option<Conn>, token: Option<Token>, cause: Cause): Sys {
    s.(t := Finish(s.t, id, conn, token), status := Taking(s, id, conn, token, cause))
  }

  /** `queueCancellation`: only a placed call has anybody to tell, and a full
      queue drops the notice. */
  function Advise(s: Sys, id: Id, owner: Owed, kept: bool): Sys {
    if owner.conn.Some? && kept && owner.worktree in s.lanes then
      var l := s.lanes[owner.worktree];
      s.(lanes := s.lanes[owner.worktree := l.(controls := l.controls + {Control(owner.conn.value, id, owner.token)})])
    else s
  }

  /** `failInFlight`: every call the connection owns is taken. */
  ghost function Strand(s: Sys, conn: Conn): Sys {
    s.(t := FailInFlight(s.t, conn),
       status := map k | k in s.status ::
         if Outstanding(s, k) && s.t.awaiting[s.ids[k]].conn == Some(conn) then Taken(Died(conn)) else s.status[k])
  }

  function Append(s: Sys, conn: Conn, e: Entry): Sys
    requires conn in s.wire
  {
    s.(wire := s.wire[conn := s.wire[conn] + [e]])
  }

  /** What a connection's other writers send: the reader's and the roots worker's
      replies, and the control worker's advice. */
  function Plain(body: Body, posted: bool): Entry {
    Entry(body, None, None, posted, false, true, false)
  }

  /** The write of a delivery. */
  function Sent(d: Delivery, posted: bool, tooLarge: bool): Entry {
    Entry(if d.initial then Initialize else Payload,
          if d.Call? then Some(d.id) else None,
          if d.Call? then Some(d.token) else None,
          posted, tooLarge, false, false)
  }

  /** What a private handshake may have written on a fresh connection: nothing,
      or the replayed initialize and then, if that was accepted, replies and the
      initialized notice. Only what was accepted is answered. */
  predicate Handshake(written: seq<Entry>) {
    && (|written| > 1 ==> written[0].posted)
    && (forall k :: 0 <= k < |written| && written[k].answered ==> written[k].posted)
    && (written != [] ==> written[0].body == Initialize && written[0].id == Some(INIT_ID))
    && (forall k :: 0 < k < |written| ==> written[k].body.Reply? || written[k].body.Payload?)
    && (forall k :: 0 <= k < |written| ==> written[k].token == None && !written[k].tooLarge)
  }

  /** A handshake that succeeded: the private initialize has been answered. */
  predicate Shaken(written: seq<Entry>) {
    forall k :: 0 <= k < |written| && written[k].token == None && written[k].id.Some? ==> written[k].answered
  }

  function Fresh(s: Sys, conn: Conn, w: string, written: seq<Entry>): Sys {
    s.(laneOf := s.laneOf[conn := w], wire := s.wire[conn := written])
  }

  function Shut(s: Sys, conn: Conn): Sys {
    s.(closed := s.closed + {conn}, released := s.released + {conn})
  }

  // ----- ingress, routing owner and lane queue

  function Admitting(s: Sys, id: Id, initial: bool): Sys {
    var step := Admit(s.t, id);
    var token := s.t.nextToken;
    s.(t := step.0,
       ids := if step.1.Granted? then s.ids[token := id] else s.ids,
       status := if step.1.Granted? then s.status[token := Owing] else s.status,
       stage := if step.1.Granted? then s.stage[token := Routing(initial)] else s.stage)
  }

  predicate CanBind(s: Sys, token: Token, w: string) {
    token in s.stage && s.stage[token].Routing? && token in s.ids && w != ""
  }

  function Binding(s: Sys, token: Token, w: string): Sys
    requires CanBind(s, token, w)
  {
    var step := Bind(s.t, s.ids[token], token, w, s.lanes.Keys);
    s.(t := step.0,
       stage := if step.1.Granted? then s.stage[token := Queued(w, s.stage[token].initial)] else s.stage,
       lanes := if step.1.Refused? || w in s.lanes then s.lanes else s.lanes[w := Lane(None, Idle, Rest, {})])
  }

  /** The delivery has not reached its lane's sender. */
  predicate Unsent(s: Sys, token: Token) {
    token in s.ids && token in s.stage && (s.stage[token].Routing? || s.stage[token].Queued?)
  }

  /** `failIngress`, for a call that routing or a full lane queue refused. */
  function RouteFails(s: Sys, token: Token): Sys
    requires Unsent(s, token)
  {
    Claim(s, s.ids[token], None, Some(token), Undelivered).(stage := s.stage[token := Settled])
  }

  /** The session is over: what is still queued is not delivered. */
  function Skips(s: Sys, token: Token): Sys
    requires Unsent(s, token) && s.over
  {
    s.(stage := s.stage[token := Settled])
  }

  predicate CanTakeCall(s: Sys, w: string, token: Token) {
    && w in s.lanes && s.lanes[w].sender.Idle?
    && token in s.ids && token in s.stage && s.stage[token].Queued? && s.stage[token].worktree == w
  }

  function TakesCall(s: Sys, w: string, token: Token): Sys
    requires CanTakeCall(s, w, token)
  {
    var id := s.ids[token];
    var owned := Owns(s.t, id, Some(token));
    s.(t := Place(s.t, id, token),
       stage := s.stage[token := if owned then AtLane(w) else Settled],
       lanes := if owned
                then s.lanes[w := s.lanes[w].(sender := Attempting(Call(id, token, s.stage[token].initial), 2))]
                else s.lanes)
  }

  predicate CanTakeNote(s: Sys, w: string) {
    w in s.lanes && s.lanes[w].sender.Idle?
  }

  function TakesNote(s: Sys, w: string, initial: bool): Sys
    requires CanTakeNote(s, w)
  {
    WithSender(s, w, Attempting(Note(initial), 2))
  }

  // ----- the sender of a lane

  predicate CanAttempt(s: Sys, w: string) {
    w in s.lanes && s.lanes[w].sender.Attempting?
  }

  /** A notification never opens a connection. */
  predicate CanDropNote(s: Sys, w: string) {
    CanAttempt(s, w) && s.lanes[w].conn.None? && s.lanes[w].sender.d.Note?
  }

  function DropsNote(s: Sys, w: string): Sys
    requires CanDropNote(s, w)
  {
    WithSender(s, w, Idle)
  }

  /** An attempt that got no connection, or never got the gate of the one the
      lane has; `stop` when the delivery's context ended. */
  function AttemptFails(s: Sys, w: string, stop: bool): Sys
    requires CanAttempt(s, w)
  {
    WithSender(s, w, if stop then Failing(s.lanes[w].sender.d) else After(s.lanes[w].sender.d, s.lanes[w].sender.left))
  }

  predicate CanDial(s: Sys, w: string, conn: Conn) {
    CanAttempt(s, w) && s.lanes[w].conn.None? && s.lanes[w].sender.d.Call? && conn !in s.laneOf
  }

  /** A connection that was dialled and given up before a call was placed on it:
      its handshake failed, or the gate was not had in time. */
  predicate CanWaste(s: Sys, w: string, conn: Conn, written: seq<Entry>) {
    CanDial(s, w, conn) && if s.lanes[w].sender.d.initial then written == [] else Handshake(written)
  }

  function Wastes(s: Sys, w: string, conn: Conn, written: seq<Entry>, stop: bool): Sys
    requires CanWaste(s, w, conn, written)
  {
    AttemptFails(Shut(Fresh(s, conn, w, written), conn), w, stop)
  }

  /** The lane has a connection and the gate is free. An initialize is refused
      by a connection that already had one. */
  predicate CanBegin(s: Sys, w: string) {
    CanAttempt(s, w) && s.lanes[w].conn.Some? && !s.lanes[w].sender.d.initial && s.lanes[w].worker.Rest?
  }

  /** The client's own initialize goes first on its connection, so nothing is
      written before it; any other call waits for a private handshake. */
  predicate CanBeginFresh(s: Sys, w: string, conn: Conn, written: seq<Entry>) {
    && CanDial(s, w, conn) && s.lanes[w].worker.Rest?
    && if s.lanes[w].sender.d.initial then written == [] else Handshake(written) && Shaken(written) && written != []
  }

  /** `beginOperation` under the gate, on a connection the lane holds. */
  function Placing(s: Sys, w: string, conn: Conn): Sys
    requires CanAttempt(s, w)
  {
    var d, left := s.lanes[w].sender.d, s.lanes[w].sender.left;
    var begun := if d.Call? then Begin(s.t, d.id, d.token, conn, w) else (s.t, Granted(()));
    s.(t := begun.0,
       lanes := s.lanes[w := s.lanes[w].(sender := if begun.1.Granted? then Writing(d, left, conn) else Failing(d))])
  }

  function Begins(s: Sys, w: string): Sys
    requires CanBegin(s, w)
  {
    Placing(s, w, s.lanes[w].conn.value)
  }

  /** A refused placement closes the connection nobody has adopted. */
  function BeginsFresh(s: Sys, w: string, conn: Conn, written: seq<Entry>): Sys
    requires CanBeginFresh(s, w, conn, written)
  {
    var s' := Placing(Fresh(s, conn, w, written), w, conn);
    if s'.lanes[w].sender.Failing? then Shut(s', conn) else s'
  }

  predicate CanIssue(s: Sys, w: string, posted: bool, tooLarge: bool) {
    && w in s.lanes && s.lanes[w].sender.Writing? && s.lanes[w].sender.conn in s.wire
    && (posted ==> s.lanes[w].sender.conn !in s.closed && !tooLarge)
  }

  /** Write is called. A closed connection and a message over the limit are
      refused before the POST. */
  function Issues(s: Sys, w: string, posted: bool, tooLarge: bool): Sys
    requires CanIssue(s, w, posted, tooLarge)
  {
    var sender := s.lanes[w].sender;
    var d, left, conn := sender.d, sender.left, sender.conn;
    WithSender(Append(s, conn, Sent(d, posted, tooLarge)), w, Issued(d, left, conn, |s.wire[conn]|))
  }

  predicate CanReturn(s: Sys, w: string, ok: bool) {
    && w in s.lanes && s.lanes[w].sender.Issued?
    && s.lanes[w].sender.conn in s.wire && s.lanes[w].sender.at < |s.wire[s.lanes[w].sender.conn]|
    && (ok ==> s.wire[s.lanes[w].sender.conn][s.lanes[w].sender.at].posted)
  }

  /** Write comes back, `placed` is closed and the gate is free again. */
  function Returns(s: Sys, w: string, ok: bool): Sys
    requires CanReturn(s, w, ok)
  {
    var sender := s.lanes[w].sender;
    var conn, at := sender.conn, sender.at;
    var written := s.wire[conn];
    WithSender(s.(wire := s.wire[conn := written[at := written[at].(returned := true)]]), w,
               Returned(sender.d, sender.left, conn, at, ok))
  }

  predicate TooLarge(s: Sys, sender: Sender) {
    && sender.Returned? && sender.conn in s.wire && sender.at < |s.wire[sender.conn]|
    && s.wire[sender.conn][sender.at].tooLarge
  }

  predicate CanEndTooLarge(s: Sys, w: string) {
    w in s.lanes && TooLarge(s, s.lanes[w].sender)
  }

  /** The credit is given back in one critical section; the call itself is
      finished in a later one, and `gap` remembers it until then. A connection
      nobody has adopted is closed. */
  function EndsTooLarge(s: Sys, w: string): Sys
    requires CanEndTooLarge(s, w)
  {
    var l := s.lanes[w];
    var d, conn := l.sender.d, l.sender.conn;
    var shut := if l.conn.None? then {conn} else {};
    s.(t := if d.Call? then EndOperation(s.t, Key(conn, d.id)) else s.t,
       gap := if d.Call? then s.gap[d.token := conn] else s.gap,
       closed := s.closed + shut, released := s.released + shut,
       lanes := s.lanes[w := l.(sender := Failing(d))])
  }

  predicate CanAdopt(s: Sys, w: string) {
    w in s.lanes && s.lanes[w].sender.Returned? && s.lanes[w].sender.ok
  }

  /** `cache` and `startExecution`: the lane keeps the connection, its reader
      starts with it, and the timer is armed when a limit is configured. */
  function Adopts(s: Sys, w: string, timed: bool): Sys
    requires CanAdopt(s, w)
  {
    var l := s.lanes[w];
    var d, conn := l.sender.d, l.sender.conn;
    var armed := timed && d.Call? && Owns(s.t, d.id, Some(d.token));
    var newly := l.conn.None?;
    s.(lanes := s.lanes[w := l.(conn := Some(conn), sender := Idle)],
       stage := Settle(s.stage, d),
       timers := if armed then s.timers + {d.token} else s.timers,
       readers := if newly then s.readers[conn := Running] else s.readers,
       roots := if newly then s.roots[conn := Serving] else s.roots)
  }

  predicate CanRetry(s: Sys, w: string) {
    w in s.lanes && s.lanes[w].sender.Returned? && !s.lanes[w].sender.ok && !TooLarge(s, s.lanes[w].sender)
  }

  /** The write failed: the lane lets the connection go, and the call is taken
      back for another attempt if nobody has answered it. */
  function Retrying(s: Sys, w: string): Sys
    requires CanRetry(s, w)
  {
    var l := s.lanes[w];
    var d, conn := l.sender.d, l.sender.conn;
    var claimed := d.Call? ==> Retries(s.t, d.id, conn, d.token);
    Shut(s, conn).(
      t := if d.Call? then Retry(s.t, d.id, conn, d.token) else s.t,
      stage := if claimed then s.stage else Settle(s.stage, d),
      lanes := s.lanes[w := l.(conn := None, sender := if claimed then After(d, l.sender.left) else Idle)])
  }

  predicate CanFail(s: Sys, w: string) {
    w in s.lanes && s.lanes[w].sender.Failing?
  }

  /** `failDelivery`. */
  function Fails(s: Sys, w: string): Sys
    requires CanFail(s, w)
  {
    var d := s.lanes[w].sender.d;
    if d.Note? then WithSender(s, w, Idle) else
    WithSender(Claim(s, d.id, None, Some(d.token), Undelivered)
                 .(stage := s.stage[d.token := Settled], gap := s.gap - {d.token}), w, Idle)
  }

  // ----- the reader and the roots worker of a connection

  predicate CanReadReply(s: Sys, conn: Conn, at: nat) {
    && conn in s.readers && s.readers[conn].Running? && conn in s.wire && at < |s.wire[conn]|
    && s.wire[conn][at].posted && !s.wire[conn][at].answered && s.wire[conn][at].id.Some?
  }

  /** The upstream answers each accepted write at most once, in whatever order. */
  function ReadsReply(s: Sys, conn: Conn, at: nat): Sys
    requires CanReadReply(s, conn, at)
  {
    var written := s.wire[conn];
    Claim(s.(wire := s.wire[conn := written[at := written[at].(answered := true)]]),
          written[at].id.value, Some(conn), None, Answer(conn, at))
  }

  predicate CanFailRead(s: Sys, conn: Conn, closes: bool) {
    conn in s.readers && s.readers[conn].Running? && (closes || conn in s.closed || conn in s.released)
  }

  /** Read fails: on a broken stream, which closes the connection, or because
      somebody else is closing it. */
  function ReadFails(s: Sys, conn: Conn, closes: bool): Sys
    requires CanFailRead(s, conn, closes)
  {
    var s' := s.(readers := s.readers[conn := Dying]);
    if closes then Shut(s', conn) else s'
  }

  predicate CanReply(s: Sys, conn: Conn, posted: bool) {
    && conn in s.readers && conn in s.roots && conn in s.wire
    && (s.readers[conn].Running? || s.roots[conn].Serving?) && (posted ==> conn !in s.closed)
  }

  function Replies(s: Sys, conn: Conn, posted: bool): Sys
    requires CanReply(s, conn, posted)
  {
    Append(s, conn, Plain(Reply, posted))
  }

  ghost function ReaderEnds(s: Sys, conn: Conn): Sys
    requires conn in s.readers && s.readers[conn].Dying?
  {
    Strand(s, conn).(readers := s.readers[conn := Ended])
  }

  /** Handing over a question when the session is over: the reader leaves without
      failing anything. */
  function ReaderQuits(s: Sys, conn: Conn): Sys
    requires conn in s.readers && s.readers[conn].Running? && s.over
  {
    s.(readers := s.readers[conn := Ended])
  }

  function RootsFails(s: Sys, conn: Conn): Sys
    requires conn in s.roots && s.roots[conn].Serving?
  {
    s.(roots := s.roots[conn := Releasing], released := s.released + {conn})
  }

  function RootsCloses(s: Sys, conn: Conn): Sys
    requires conn in s.roots && s.roots[conn].Releasing?
  {
    s.(roots := s.roots[conn := Closing], closed := s.closed + {conn})
  }

  ghost function RootsEnds(s: Sys, conn: Conn): Sys
    requires conn in s.roots && s.roots[conn].Closing?
  {
    Strand(s, conn).(roots := s.roots[conn := Drained])
  }

  // ----- the control worker of a lane

  predicate CanDropControl(s: Sys, w: string, control: Control) {
    w in s.lanes && control in s.lanes[w].controls
  }

  function DropsControl(s: Sys, w: string, control: Control): Sys
    requires CanDropControl(s, w, control)
  {
    s.(lanes := s.lanes[w := s.lanes[w].(controls := s.lanes[w].controls - {control})])
  }

  predicate CanEnter(s: Sys, w: string, control: Control) {
    && CanDropControl(s, w, control) && s.lanes[w].worker.Rest? && !Gated(s.lanes[w])
    && Placed(s, control.conn, control.token)
  }

  /** Some operation placed later uses the connection and id `control` names. */
  predicate Overtaken(s: Sys, control: Control) {
    && Key(control.conn, control.id) in s.t.operations
    && s.t.operations[Key(control.conn, control.id)].token != control.token
  }

  /** The call was placed, the gate is taken, and the generation is checked. */
  function Enters(s: Sys, w: string, control: Control): Sys
    requires CanEnter(s, w, control)
  {
    var l := s.lanes[w];
    s.(lanes := s.lanes[w := l.(controls := l.controls - {control},
                                worker := if Overtaken(s, control) then Rest else Checked(control))])
  }

  predicate CanAdvise(s: Sys, w: string, posted: bool) {
    && w in s.lanes && s.lanes[w].worker.Checked? && s.lanes[w].worker.control.conn in s.wire
    && (posted ==> s.lanes[w].worker.control.conn !in s.closed)
  }

  function Advises(s: Sys, w: string, posted: bool): Sys
    requires CanAdvise(s, w, posted)
  {
    var control := s.lanes[w].worker.control;
    Append(s, control.conn, Plain(Cancel(control.token, control.id), posted))
      .(lanes := s.lanes[w := s.lanes[w].(worker := Sending(control))])
  }

  predicate CanLeave(s: Sys, w: string) {
    w in s.lanes && !s.lanes[w].worker.Rest?
  }

  function Leaves(s: Sys, w: string): Sys
    requires CanLeave(s, w)
  {
    s.(lanes := s.lanes[w := s.lanes[w].(worker := Rest)])
  }

  // ----- the client's cancellations, the timers, the output, the session

  function Cancels(s: Sys, id: Id, kept: bool): Sys {
    if id !in s.t.awaiting then s else
    Advise(Claim(s, id, None, None, Cancelled), id, s.t.awaiting[id], kept)
  }

  /** The callback of an execution timer, however late it runs. */
  function Expires(s: Sys, token: Token, kept: bool): Sys
    requires token in s.timers && token in s.ids
  {
    var id := s.ids[token];
    var s' := s.(timers := s.timers - {token});
    if !Owns(s.t, id, Some(token)) then s' else
    Advise(Claim(s', id, None, Some(token), Expired), id, s.t.awaiting[id], kept)
  }

  datatype Fate = Delivered | Saturated | SessionGone

  predicate CanForward(s: Sys, token: Token, fate: Fate) {
    token in s.status && s.status[token].Taken? && (fate.SessionGone? ==> s.over)
  }

  /** `forward`: the answer reaches the client, or a full queue fails the
      session, or the session is gone already. */
  function Forwards(s: Sys, token: Token, fate: Fate): Sys
    requires CanForward(s, token, fate)
  {
    if fate.Delivered? then
      s.(out := s.out + [token], status := s.status[token := Done(s.status[token].cause)])
    else
      s.(status := s.status[token := Lost], over := true)
  }

  function Ends(s: Sys): Sys {
    s.(over := true)
  }

  /** The end of shutdown: what is still owed is dropped unanswered. */
  ghost function Clears(s: Sys): Sys
    requires s.over
  {
    s.(t := Clear(s.t), cleared := true,
       status := map k | k in s.status :: if s.status[k].Owing? then Lost else s.status[k])
  }

  // ----- runs

  datatype SessionStep =
    | DoAdmit(id: Id, initial: bool) | DoBind(token: Token, w: string) | DoRouteFail(token: Token)
    | DoSkip(token: Token) | DoCancel(id: Id, kept: bool) | DoExpire(token: Token, kept: bool)
    | DoForward(token: Token, fate: Fate) | DoEnd | DoClear

  datatype SenderStep =
    | DoTakeCall(token: Token) | DoTakeNote(initial: bool) | DoDropNote | DoAttemptFail(stop: bool)
    | DoWaste(conn: Conn, written: seq<Entry>, stop: bool) | DoBegin | DoBeginFresh(conn: Conn, written: seq<Entry>)
    | DoIssue(posted: bool, tooLarge: bool) | DoReturn(ok: bool) | DoEndTooLarge | DoAdopt(timed: bool)
    | DoRetry | DoFail

  datatype ConnStep =
    | DoReadReply(at: nat) | DoReadFail(closes: bool) | DoAnswer(posted: bool) | DoReaderEnd | DoReaderQuit
    | DoRootsFail | DoRootsClose | DoRootsEnd

  datatype ControlStep =
    | DoDiscard(control: Control) | DoEnter(control: Control) | DoAdvise(posted: bool) | DoLeave

  datatype Action =
    | OfSession(session: SessionStep)
    | OfSender(w: string, sender: SenderStep)
    | OfConn(conn: Conn, reader: ConnStep)
    | OfControl(w: string, control: ControlStep)

  predicate SessionEnabled(s: Sys, a: SessionStep) {
    match a
    case DoAdmit(_, _) => true
    case DoBind(token, w) => CanBind(s, token, w)
    case DoRouteFail(token) => Unsent(s, token)
    case DoSkip(token) => Unsent(s, token) && s.over
    case DoCancel(_, _) => true
    case DoExpire(token, _) => token in s.timers && token in s.ids
    case DoForward(token, fate) => CanForward(s, token, fate)
    case DoEnd => true
    case DoClear => s.over
  }

  ghost function SessionNext(s: Sys, a: SessionStep): Sys
    requires SessionEnabled(s, a)
  {
    match a
    case DoAdmit(id, initial) => Admitting(s, id, initial)
    case DoBind(token, w) => Binding(s, token, w)
    case DoRouteFail(token) => RouteFails(s, token)
    case DoSkip(token) => Skips(s, token)
    case DoCancel(id, kept) => Cancels(s, id, kept)
    case DoExpire(token, kept) => Expires(s, token, kept)
    case DoForward(token, fate) => Forwards(s, token, fate)
    case DoEnd => Ends(s)
    case DoClear => Clears(s)
  }

  predicate SenderEnabled(s: Sys, w: string, a: SenderStep) {
    match a
    case DoTakeCall(token) => CanTakeCall(s, w, token)
    case DoTakeNote(_) => CanTakeNote(s, w)
    case DoDropNote => CanDropNote(s, w)
    case DoAttemptFail(_) => CanAttempt(s, w)
    case DoWaste(conn, written, _) => CanWaste(s, w, conn, written)
    case DoBegin => CanBegin(s, w)
    case DoBeginFresh(conn, written) => CanBeginFresh(s, w, conn, written)
    case DoIssue(posted, tooLarge) => CanIssue(s, w, posted, tooLarge)
    case DoReturn(ok) => CanReturn(s, w, ok)
    case DoEndTooLarge => CanEndTooLarge(s, w)
    case DoAdopt(_) => CanAdopt(s, w)
    case DoRetry => CanRetry(s, w)
    case DoFail => CanFail(s, w)
  }

  ghost function SenderNext(s: Sys, w: string, a: SenderStep): Sys
    requires SenderEnabled(s, w, a)
  {
    match a
    case DoTakeCall(token) => TakesCall(s, w, token)
    case DoTakeNote(initial) => TakesNote(s, w, initial)
    case DoDropNote => DropsNote(s, w)
    case DoAttemptFail(stop) => AttemptFails(s, w, stop)
    case DoWaste(conn, written, stop) => Wastes(s, w, conn, written, stop)
    case DoBegin => Begins(s, w)
    case DoBeginFresh(conn, written) => BeginsFresh(s, w, conn, written)
    case DoIssue(posted, tooLarge) => Issues(s, w, posted, tooLarge)
    case DoReturn(ok) => Returns(s, w, ok)
    case DoEndTooLarge => EndsTooLarge(s, w)
    case DoAdopt(timed) => Adopts(s, w, timed)
    case DoRetry => Retrying(s, w)
    case DoFail => Fails(s, w)
  }

  predicate ConnEnabled(s: Sys, conn: Conn, a: ConnStep) {
    match a
    case DoReadReply(at) => CanReadReply(s, conn, at)
    case DoReadFail(closes) => CanFailRead(s, conn, closes)
    case DoAnswer(posted) => CanReply(s, conn, posted)
    case DoReaderEnd => conn in s.readers && s.readers[conn].Dying?
    case DoReaderQuit => conn in s.readers && s.readers[conn].Running? && s.over
    case DoRootsFail => conn in s.roots && s.roots[conn].Serving?
    case DoRootsClose => conn in s.roots && s.roots[conn].Releasing?
    case DoRootsEnd => conn in s.roots && s.roots[conn].Closing?
  }

  ghost function ConnNext(s: Sys, conn: Conn, a: ConnStep): Sys
    requires ConnEnabled(s, conn, a)
  {
    match a
    case DoReadReply(at) => ReadsReply(s, conn, at)
    case DoReadFail(closes) => ReadFails(s, conn, closes)
    case DoAnswer(posted) => Replies(s, conn, posted)
    case DoReaderEnd => ReaderEnds(s, conn)
    case DoReaderQuit => ReaderQuits(s, conn)
    case DoRootsFail => RootsFails(s, conn)
    case DoRootsClose => RootsCloses(s, conn)
    case DoRootsEnd => RootsEnds(s, conn)
  }

  predicate ControlEnabled(s: Sys, w: string, a: ControlStep) {
    match a
    case DoDiscard(control) => CanDropControl(s, w, control)
    case DoEnter(control) => CanEnter(s, w, control)
    case DoAdvise(posted) => CanAdvise(s, w, posted)
    case DoLeave => CanLeave(s, w)
  }

  ghost function ControlNext(s: Sys, w: string, a: ControlStep): Sys
    requires ControlEnabled(s, w, a)
  {
    match a
    case DoDiscard(control) => DropsControl(s, w, control)
    case DoEnter(control) => Enters(s, w, control)
    case DoAdvise(posted) => Advises(s, w, posted)
    case DoLeave => Leaves(s, w)
  }

  /** Once the session is cleared only answers already taken are still dropped
      or delivered. */
  predicate Enabled(s: Sys, a: Action) {
    && (s.cleared ==> a.OfSession? && a.session.DoForward?)
    && match a
       case OfSession(step) => SessionEnabled(s, step)
       case OfSender(w, step) => SenderEnabled(s, w, step)
       case OfConn(conn, step) => ConnEnabled(s, conn, step)
       case OfControl(w, step) => ControlEnabled(s, w, step)
  }

  ghost function Next(s: Sys, a: Action): Sys
    requires Enabled(s, a)
  {
    match a
    case OfSession(step) => SessionNext(s, step)
    case OfSender(w, step) => SenderNext(s, w, step)
    case OfConn(conn, step) => ConnNext(s, conn, step)
    case OfControl(w, step) => ControlNext(s, w, step)
  }

  /** The state a run of actions leads to, if every one is enabled in turn. */
  ghost function Run(s: Sys, actions: seq<Action>): Option<Sys>
    decreases |actions|
  {
    if actions == [] then Some(s)
    else if Enabled(s, actions[0]) then Run(Next(s, actions[0]), actions[1..])
    else None
  }
}

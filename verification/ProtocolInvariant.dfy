/** What holds between any two steps of a session. */
module ProtocolInvariant {
  import opened Options
  import opened Tracker
  import opened Protocol

  // ----- admissions

  /** A token names one admission, and it is owing exactly while the table has it. */
  ghost predicate TokenOk(s: Sys, token: Token) {
    && token in s.ids && token in s.status && token in s.stage && token < s.t.nextToken
    && (s.status[token].Owing? <==> Outstanding(s, token))
  }

  /** The sender is somewhere inside `send` for this admission. */
  predicate Carries(sender: Sender, token: Token) {
    !sender.Idle? && sender.d.Call? && sender.d.token == token
  }

  /** A delivery is in one place, and an admission that has left every queue is
      owned by a connection. */
  ghost predicate StageOk(s: Sys, token: Token) {
    token in s.stage && token in s.ids && match s.stage[token]
    case Routing(_) =>
      Outstanding(s, token) ==> s.t.awaiting[s.ids[token]].worktree == "" && s.t.awaiting[s.ids[token]].conn.None?
    case Queued(w, _) =>
      && w in s.lanes && w != ""
      && (Outstanding(s, token) ==> s.t.awaiting[s.ids[token]].worktree == w && s.t.awaiting[s.ids[token]].conn.None?)
    case AtLane(w) =>
      && w in s.lanes && w != "" && Carries(s.lanes[w].sender, token)
      && (Outstanding(s, token) ==> s.t.awaiting[s.ids[token]].worktree == w)
    case Settled =>
      Outstanding(s, token) ==> s.t.awaiting[s.ids[token]].conn.Some? || s.over
  }

  /** Nothing was written for this admission on `conn`. */
  ghost predicate NotOn(s: Sys, conn: Conn, token: Token) {
    conn in s.wire ==> forall k :: 0 <= k < |s.wire[conn]| ==> s.wire[conn][k].token != Some(token)
  }

  /** A call is answered with a reply only if the reply is to its own write. */
  ghost predicate CauseOk(s: Sys, token: Token) {
    token in s.status && (s.status[token].Taken? || s.status[token].Done?) && s.status[token].cause.Answer? ==>
      var st := s.status[token];
      && st.cause.conn in s.wire && st.cause.at < |s.wire[st.cause.conn]|
      && s.wire[st.cause.conn][st.cause.at].token == Some(token) && s.wire[st.cause.conn][st.cause.at].answered
  }

  // ----- the two tables

  /** The operation that holds the upstream side of a placed call. */
  ghost predicate Held(s: Sys, id: Id, owner: Owed)
    requires owner.conn.Some?
  {
    var key := Key(owner.conn.value, id);
    key in s.t.operations && s.t.operations[key].token == owner.token && !s.t.operations[key].abandoned
  }

  /** The refused message whose credit is back while its call is still placed. */
  ghost predicate InGap(s: Sys, id: Id, owner: Owed)
    requires owner.conn.Some?
  {
    && owner.token in s.gap && s.gap[owner.token] == owner.conn.value
    && Key(owner.conn.value, id) !in s.t.operations
  }

  ghost predicate OwnerOk(s: Sys, id: Id)
    requires id in s.t.awaiting
  {
    var owner := s.t.awaiting[id];
    && owner.token in s.ids && s.ids[owner.token] == id
    && (owner.conn.Some? ==>
          && owner.conn.value in s.laneOf && s.laneOf[owner.conn.value] == owner.worktree
          && (Held(s, id, owner) || InGap(s, id, owner)))
  }

  ghost predicate OperationOk(s: Sys, key: Key)
    requires key in s.t.operations
  {
    var op := s.t.operations[key];
    && key.conn in s.laneOf && s.laneOf[key.conn] == op.worktree
    && op.token in s.ids && s.ids[op.token] == key.id
    && (!op.abandoned ==>
          && key.id in s.t.awaiting && s.t.awaiting[key.id].conn == Some(key.conn)
          && s.t.awaiting[key.id].token == op.token)
  }

  /** The gap belongs to a sender that is failing its call. */
  ghost predicate GapOk(s: Sys, token: Token)
    requires token in s.gap
  {
    && token in s.stage && s.stage[token].AtLane? && s.stage[token].worktree in s.lanes
    && s.lanes[s.stage[token].worktree].sender.Failing?
  }

  // ----- the wire

  /** An accepted write that has not been answered has the operation under its
      connection and id, so there is never a second one. */
  ghost predicate EntryOk(s: Sys, conn: Conn, e: Entry) {
    && (e.token.Some? ==>
          && e.token.value in s.ids && e.id == Some(s.ids[e.token.value])
          && e.token.value in s.stage && (s.stage[e.token.value].AtLane? || s.stage[e.token.value].Settled?)
          && (e.posted && !e.answered ==>
                var key := Key(conn, s.ids[e.token.value]);
                key in s.t.operations && s.t.operations[key].token == e.token.value))
    && (e.tooLarge ==> !e.posted)
    && (e.body.Cancel? ==> e.body.named in s.ids && s.ids[e.body.named] == e.body.id)
  }

  /** The first write is an initialize and no later one is. */
  ghost predicate Disciplined(written: seq<Entry>) {
    && (written != [] ==> written[0].body.Initialize?)
    && forall k :: 0 < k < |written| ==> !written[k].body.Initialize?
  }

  /** Advice follows the completed write of the call it names. */
  ghost predicate Follows(written: seq<Entry>) {
    forall k :: 0 <= k < |written| && written[k].body.Cancel? ==>
      exists j :: 0 <= j < k && written[j].token == Some(written[k].body.named) && written[j].returned
  }

  /** A call is written at most once per connection. */
  ghost predicate OncePerToken(written: seq<Entry>) {
    forall j, k :: 0 <= j < k < |written| && written[j].token.Some? ==> written[j].token != written[k].token
  }

  /** If the first write was refused, all that follows is the advice for it. */
  ghost predicate Opened(written: seq<Entry>) {
    written != [] && !written[0].posted ==> forall k :: 0 < k < |written| ==>
      && written[k].body.Cancel? && written[k].token.None? && written[0].token == Some(written[k].body.named)
  }

  /** An accepted write of another use of the id an advice carries was answered
      before the advice went out. */
  ghost predicate Resolved(written: seq<Entry>) {
    forall j, k :: 0 <= j < k < |written| && Overtaking(written[j], written[k]) ==> written[j].answered
  }

  /** `e` is an accepted call under the id that `advice` carries, but not the call
      it is meant for. */
  predicate Overtaking(e: Entry, advice: Entry) {
    && advice.body.Cancel? && e.posted && e.token.Some?
    && e.id == Some(advice.body.id) && e.token != Some(advice.body.named)
  }

  ghost predicate WireOk(written: seq<Entry>) {
    Disciplined(written) && Follows(written) && OncePerToken(written) && Opened(written) && Resolved(written)
  }

  /** The upstream has been sent an initialize it accepted. */
  predicate Ready(written: seq<Entry>) {
    written != [] && written[0].posted
  }

  ghost predicate ConnOk(s: Sys, conn: Conn)
    requires conn in s.laneOf
  {
    && conn in s.wire && s.laneOf[conn] in s.lanes && WireOk(s.wire[conn])
    && (conn in s.readers <==> conn in s.roots)
    && (conn in s.readers ==> Ready(s.wire[conn]) && Shaken(s.wire[conn]))
  }

  // ----- the lanes

  /** The sender's call is an admission whose delivery this lane has. */
  ghost predicate Bears(s: Sys, w: string, d: Delivery) {
    d.Call? ==>
      && d.token in s.ids && s.ids[d.token] == d.id
      && d.token in s.stage && s.stage[d.token] == AtLane(w)
  }

  /** The connection is the lane's own, or one that only this sender knows. */
  ghost predicate Uses(s: Sys, w: string, conn: Conn)
    requires w in s.lanes
  {
    && conn in s.laneOf && s.laneOf[conn] == w && conn in s.wire && Shaken(s.wire[conn])
    && (s.lanes[w].conn == Some(conn) || (s.lanes[w].conn.None? && conn !in s.readers && conn !in s.roots))
  }

  /** The sender's call, as far as it is still owed, is owned by `conn`. */
  ghost predicate OwnedThrough(s: Sys, d: Delivery, conn: Option<Conn>) {
    d.Call? && d.id in s.t.awaiting && s.t.awaiting[d.id].token == d.token ==> s.t.awaiting[d.id].conn == conn
  }

  /** The credit under the connection and the call's id, until it is given
      back, is that call's. */
  ghost predicate Credited(s: Sys, d: Delivery, conn: Conn) {
    d.Call? && Key(conn, d.id) in s.t.operations ==> s.t.operations[Key(conn, d.id)].token == d.token
  }

  /** Before its write is out, the call's credit cannot have been given back. */
  ghost predicate Reserved(s: Sys, d: Delivery, conn: Conn) {
    d.Call? ==> Key(conn, d.id) in s.t.operations && s.t.operations[Key(conn, d.id)].token == d.token
  }

  ghost predicate WrittenAt(s: Sys, d: Delivery, conn: Conn, at: nat)
    requires conn in s.wire
  {
    && at < |s.wire[conn]| && s.wire[conn][at].token == (if d.Call? then Some(d.token) else None)
    && !s.wire[conn][at].body.Cancel?
  }

  ghost predicate SenderOk(s: Sys, w: string)
    requires w in s.lanes
  {
    var l := s.lanes[w];
    match l.sender
    case Idle => true
    case Attempting(d, _) =>
      && Bears(s, w, d) && OwnedThrough(s, d, None)
      && (d.Call? && l.conn.Some? ==> NotOn(s, l.conn.value, d.token))
    case Writing(d, _, conn) =>
      && Bears(s, w, d) && Uses(s, w, conn) && OwnedThrough(s, d, Some(conn)) && Reserved(s, d, conn)
      && (if d.initial then d.Call? && l.conn.None? && s.wire[conn] == [] else Ready(s.wire[conn]))
      && (d.Call? ==> NotOn(s, conn, d.token))
    case Issued(d, _, conn, at) =>
      && Bears(s, w, d) && Uses(s, w, conn) && OwnedThrough(s, d, Some(conn)) && Credited(s, d, conn)
      && WrittenAt(s, d, conn, at)
    case Returned(d, _, conn, at, ok) =>
      && Bears(s, w, d) && Uses(s, w, conn) && OwnedThrough(s, d, Some(conn)) && Credited(s, d, conn)
      && WrittenAt(s, d, conn, at) && s.wire[conn][at].returned && (ok ==> s.wire[conn][at].posted)
    case Failing(d) =>
      && Bears(s, w, d)
      && (d.Call? ==> OwnedThrough(s, d, if d.token in s.gap then Some(s.gap[d.token]) else None))
  }

  ghost predicate LaneOk(s: Sys, w: string)
    requires w in s.lanes
  {
    var l := s.lanes[w];
    && w != ""
    && (l.conn.Some? ==> l.conn.value in s.laneOf && s.laneOf[l.conn.value] == w && l.conn.value in s.readers)
    && !(Gated(l) && !l.worker.Rest?)
  }

  /** An advice is for the lane that owns the connection. */
  ghost predicate ControlOk(s: Sys, w: string, control: Control) {
    && control.conn in s.laneOf && s.laneOf[control.conn] == w
    && control.token in s.ids && s.ids[control.token] == control.id
  }

  /** The cancellation fence. */
  ghost predicate FenceOk(s: Sys, w: string)
    requires w in s.lanes
  {
    var worker := s.lanes[w].worker;
    && (forall control :: control in s.lanes[w].controls ==> ControlOk(s, w, control))
    && (!worker.Rest? ==>
          && ControlOk(s, w, worker.control)
          && Placed(s, worker.control.conn, worker.control.token)
          && !Overtaken(s, worker.control))
  }

  // ----- connection death

  ghost predicate Reading(s: Sys, conn: Conn) {
    conn in s.readers && (s.readers[conn].Running? || s.readers[conn].Dying?)
  }

  /** Somebody will still run `failInFlight` for the connection. When the session is
      over nobody need. */
  ghost predicate Covered(s: Sys, conn: Conn) {
    Reading(s, conn) || (conn in s.roots && (s.roots[conn].Releasing? || s.roots[conn].Closing?))
  }

  ghost predicate DyingOk(s: Sys, conn: Conn) {
    && (conn in s.released ==> conn in s.closed || (conn in s.roots && s.roots[conn].Releasing?))
    && (conn in s.readers && !s.readers[conn].Running? ==> s.over || conn in s.closed || conn in s.released)
    && (conn in s.roots && (s.roots[conn].Closing? || s.roots[conn].Drained?) ==> conn in s.closed)
  }

  /** The lane is inside the attempt that placed this call. */
  ghost predicate InAttempt(s: Sys, w: string, token: Token) {
    w in s.lanes && Carries(s.lanes[w].sender, token)
  }

  ghost predicate CoverOk(s: Sys, id: Id)
    requires id in s.t.awaiting
  {
    var owner := s.t.awaiting[id];
    owner.conn.Some? ==> s.over || Covered(s, owner.conn.value) || InAttempt(s, owner.worktree, owner.token)
  }

  /** Once its bytes are out on the lane's own connection, the sender may stop
      looking after the call. */
  ghost predicate PostCoverOk(s: Sys, w: string)
    requires w in s.lanes
  {
    var l := s.lanes[w];
    (&& (l.sender.Issued? || l.sender.Returned?) && l.conn == Some(l.sender.conn)
     && l.sender.conn in s.wire && l.sender.at < |s.wire[l.sender.conn]| && s.wire[l.sender.conn][l.sender.at].posted
     && l.sender.d.Call? && Outstanding(s, l.sender.d.token))
    ==> s.over || Covered(s, l.sender.conn)
  }

  // ----- together

  ghost predicate Admissions(s: Sys) {
    && (forall token :: token in s.ids ==> TokenOk(s, token))
    && (forall token :: token in s.status ==> token in s.ids)
    && (forall token :: token in s.stage ==> token in s.ids)
    && (forall token: Token :: token < s.t.nextToken ==> token in s.ids)
  }

  ghost predicate Stages(s: Sys) {
    forall token :: token in s.ids ==> StageOk(s, token)
  }

  ghost predicate Causes(s: Sys) {
    forall token :: token in s.ids ==> CauseOk(s, token)
  }

  ghost predicate Books(s: Sys) {
    && (forall id :: id in s.t.awaiting ==> OwnerOk(s, id))
    && (forall key :: key in s.t.operations ==> OperationOk(s, key))
    && (forall token :: token in s.gap ==> GapOk(s, token))
  }

  ghost predicate Wires(s: Sys) {
    && s.wire.Keys == s.laneOf.Keys
    && s.readers.Keys <= s.laneOf.Keys && s.roots.Keys <= s.laneOf.Keys
    && s.closed <= s.laneOf.Keys && s.released <= s.laneOf.Keys
    && (forall conn :: conn in s.laneOf ==> ConnOk(s, conn))
  }

  ghost predicate Entries(s: Sys) {
    forall conn, k :: conn in s.wire && 0 <= k < |s.wire[conn]| ==> EntryOk(s, conn, s.wire[conn][k])
  }

  ghost predicate Lanes(s: Sys) {
    forall w :: w in s.lanes ==> LaneOk(s, w)
  }

  ghost predicate Senders(s: Sys) {
    forall w :: w in s.lanes ==> SenderOk(s, w)
  }

  ghost predicate Fences(s: Sys) {
    forall w :: w in s.lanes ==> FenceOk(s, w)
  }

  ghost predicate Covers(s: Sys) {
    && (forall conn :: conn in s.laneOf ==> DyingOk(s, conn))
    && (forall id :: id in s.t.awaiting ==> CoverOk(s, id))
    && (forall w :: w in s.lanes ==> PostCoverOk(s, w))
  }

  ghost predicate Inv(s: Sys) {
    && Admissions(s) && Stages(s) && Causes(s) && Books(s) && Wires(s) && Entries(s)
    && Lanes(s) && Senders(s) && Fences(s) && Covers(s)
  }
}

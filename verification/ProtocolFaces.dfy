/** What each step does to the statuses and to what the client has been sent. */
module ProtocolFaces {
  import opened Options
  import opened Tracker
  import opened Protocol

  /** Nothing is taken, sent, ended or cleared. */
  predicate SameFace(s: Sys, s': Sys) {
    s'.status == s.status && s'.out == s.out && s'.over == s.over && s'.cleared == s.cleared
  }

  lemma AdviseQuietly(s: Sys, id: Id, owner: Owed, kept: bool)
    ensures SameFace(s, Advise(s, id, owner, kept))
  {
  }

  lemma BindQuietly(s: Sys, token: Token, w: string)
    requires CanBind(s, token, w)
    ensures SameFace(s, Binding(s, token, w))
  {
  }

  lemma TakesCallQuietly(s: Sys, w: string, token: Token)
    requires CanTakeCall(s, w, token)
    ensures SameFace(s, TakesCall(s, w, token))
  {
  }

  lemma TakesNoteQuietly(s: Sys, w: string, initial: bool)
    requires CanTakeNote(s, w)
    ensures SameFace(s, TakesNote(s, w, initial))
  {
  }

  lemma AttemptFailsQuietly(s: Sys, w: string, stop: bool)
    requires CanAttempt(s, w)
    ensures SameFace(s, AttemptFails(s, w, stop))
  {
  }

  lemma PlacingQuietly(s: Sys, w: string, conn: Conn)
    requires CanAttempt(s, w)
    ensures SameFace(s, Placing(s, w, conn))
  {
  }

  lemma IssuesQuietly(s: Sys, w: string, posted: bool, tooLarge: bool)
    requires CanIssue(s, w, posted, tooLarge)
    ensures SameFace(s, Issues(s, w, posted, tooLarge))
  {
  }

  lemma ReturnsQuietly(s: Sys, w: string, ok: bool)
    requires CanReturn(s, w, ok)
    ensures SameFace(s, Returns(s, w, ok))
  {
  }

  lemma EndsTooLargeQuietly(s: Sys, w: string)
    requires CanEndTooLarge(s, w)
    ensures SameFace(s, EndsTooLarge(s, w))
  {
  }

  lemma AdoptsQuietly(s: Sys, w: string, timed: bool)
    requires CanAdopt(s, w)
    ensures SameFace(s, Adopts(s, w, timed))
  {
  }

  lemma RetryingQuietly(s: Sys, w: string)
    requires CanRetry(s, w)
    ensures SameFace(s, Retrying(s, w))
  {
  }

  lemma WastesQuietly(s: Sys, w: string, conn: Conn, written: seq<Entry>, stop: bool)
    requires CanWaste(s, w, conn, written)
    ensures SameFace(s, Wastes(s, w, conn, written, stop))
  {
    AttemptFailsQuietly(Shut(Fresh(s, conn, w, written), conn), w, stop);
  }

  lemma ShutQuietly(s: Sys, conn: Conn)
    ensures SameFace(s, Shut(s, conn))
  {
  }

  lemma BeginsFreshQuietly(s: Sys, w: string, conn: Conn, written: seq<Entry>)
    requires CanBeginFresh(s, w, conn, written)
    ensures SameFace(s, BeginsFresh(s, w, conn, written))
  {
    var s' := Placing(Fresh(s, conn, w, written), w, conn);
    PlacingQuietly(Fresh(s, conn, w, written), w, conn);
    ShutQuietly(s', conn);
    assert BeginsFresh(s, w, conn, written) == s' || BeginsFresh(s, w, conn, written) == Shut(s', conn);
  }

  lemma FailFace(s: Sys, w: string)
    requires CanFail(s, w)
    ensures var s', d := Fails(s, w), s.lanes[w].sender.d;
      && s'.status == (if d.Call? then Claim(s, d.id, None, Some(d.token), Undelivered).status else s.status)
      && s'.out == s.out && s'.over == s.over && s'.cleared == s.cleared
  {
  }

  lemma AdmitFace(s: Sys, id: Id, initial: bool)
    ensures var s' := Admitting(s, id, initial);
      && s'.status == (if Admit(s.t, id).1.Refused? then s.status else s.status[s.t.nextToken := Owing])
      && s'.out == s.out && s'.over == s.over && s'.cleared == s.cleared
  {
  }

  lemma ReadFailsQuietly(s: Sys, conn: Conn, closes: bool)
    requires CanFailRead(s, conn, closes)
    ensures SameFace(s, ReadFails(s, conn, closes))
  {
  }

  lemma ReplyStatus(s: Sys, conn: Conn, at: nat)
    requires CanReadReply(s, conn, at)
    ensures ReadsReply(s, conn, at).status ==
      if Claims(s.t, s.wire[conn][at].id.value, Some(conn), None)
      then s.status[s.t.awaiting[s.wire[conn][at].id.value].token := Taken(Answer(conn, at))] else s.status
  {
  }

  lemma ReplyEnds(s: Sys, conn: Conn, at: nat)
    requires CanReadReply(s, conn, at)
    ensures Key(conn, s.wire[conn][at].id.value) !in ReadsReply(s, conn, at).t.operations
  {
  }
}

/** The private handshake of a fresh connection: what it may write and what
    reaches the client, which is what the session's steps assume of it. */
module Handshakes {
  import opened Options
  import opened Tracker
  import opened Protocol

  /** How a write went: taken, refused before the POST, or taken although the
      caller was told that it failed. */
  datatype Try = Accepted | Refused | Uncertain

  /** A message of the server: an answer, a question of its own, or a
      notification. */
  datatype Message = Response(id: Id, failed: bool) | Question(id: Id) | Notice(text: string)

  /** What the connection yields next, with how answering it goes if it is a
      question (None when there is no answer to send), or the end of the stream
      or of the time allowed. */
  datatype Incoming = Got(message: Message, reply: Option<Try>) | Broken

  /** The answer to the replayed initialize, told from any other by its id. */
  predicate Private(m: Message) {
    m.Response? && m.id == INIT_ID
  }

  /** What the client may see of one message: nothing private, and no question. */
  function Shown(next: Incoming): seq<Message> {
    if next.Got? && !Private(next.message) && !next.message.Question? then [next.message] else []
  }

  /** What the client may see of the messages read. */
  function ForClient(read: seq<Incoming>): seq<Message> {
    if read == [] then [] else ForClient(read[..|read| - 1]) + Shown(read[|read| - 1])
  }

  /** The script answers the replayed initialize, and not with an error, before
      the stream ends and after questions that could all be answered. */
  predicate Succeeds(script: seq<Incoming>) {
    script != [] && script[0].Got?
    && if Private(script[0].message) then !script[0].message.failed
       else (script[0].message.Question? ==> script[0].reply == Some(Accepted)) && Succeeds(script[1..])
  }

  /** Where the handshake stops reading: the stream breaks, the replayed initialize
      is answered, or a question cannot be. */
  predicate Stops(next: Incoming) {
    next.Broken? || Private(next.message) || (next.message.Question? && next.reply != Some(Accepted))
  }

  /** How much of the script the handshake reads: up to where it stops, or all. */
  function Reads(script: seq<Incoming>): nat {
    if script == [] then 0 else if Stops(script[0]) then 1 else 1 + Reads(script[1..])
  }

  /** The handshake has been answered, and not with an error. */
  predicate Granted(read: seq<Incoming>) {
    read != [] && read[|read| - 1].Got? && Private(read[|read| - 1].message) && !read[|read| - 1].message.failed
  }

  /** The replayed initialize. */
  function Replayed(sent: Try, answered: bool): Entry {
    Entry(Initialize, Some(INIT_ID), None, !sent.Refused?, false, true, answered)
  }

  /** The reply to one message: a question's, if there is an answer to send. */
  function Replied(next: Incoming): seq<Entry> {
    if next.Got? && next.message.Question? && next.reply.Some? then [Plain(Reply, !next.reply.value.Refused?)] else []
  }

  /** The replies to the messages read. */
  function Replies(read: seq<Incoming>): seq<Entry> {
    if read == [] then [] else Replies(read[..|read| - 1]) + Replied(read[|read| - 1])
  }

  /** All that is written: the initialize, whether or not it was answered, a reply
      to every question, and the notice once the handshake is granted. */
  function Writes(sent: Try, read: seq<Incoming>, notice: Try): seq<Entry> {
    var answered := read != [] && read[|read| - 1].Got? && Private(read[|read| - 1].message);
    [Replayed(sent, answered)] + Replies(read) + if Granted(read) then [Plain(Payload, !notice.Refused?)] else []
  }

  lemma {:induction false} RepliesOnly(read: seq<Incoming>)
    ensures forall k :: 0 <= k < |Replies(read)| ==> Replies(read)[k] == Plain(Reply, Replies(read)[k].posted)
  {
    if read != [] {
      RepliesOnly(read[..|read| - 1]);
    }
  }

  /** What is written is what the session's steps take a handshake to be. */
  lemma WritesAHandshake(sent: Try, read: seq<Incoming>, notice: Try)
    requires !sent.Accepted? ==> read == []
    ensures Handshake(Writes(sent, read, notice)) && (Granted(read) ==> Shaken(Writes(sent, read, notice)))
  {
    RepliesOnly(read);
  }

  /** The handshake reads up to the first message it stops at. */
  lemma {:induction false} ReadsTo(script: seq<Incoming>, k: nat)
    requires k <= |script| && forall j :: 0 <= j < k ==> !Stops(script[j])
    ensures k < |script| && Stops(script[k]) ==> Reads(script) == k + 1
    ensures k == |script| ==> Reads(script) == k
    decreases k
  {
    if k > 0 {
      ReadsTo(script[1..], k - 1);
    }
  }

  /** A handshake succeeds exactly when its initialize and its notice go through and
      what it reads ends with the answer that grants it. */
  lemma {:induction false} SucceedsMeans(script: seq<Incoming>)
    ensures Reads(script) <= |script|
    ensures Succeeds(script) <==> Granted(script[..Reads(script)])
  {
    if script != [] {
      var n, rest := Reads(script), script[1..];
      if Stops(script[0]) {
        assert script[..n] == [script[0]];
      } else {
        SucceedsMeans(rest);
        assert script[..n] == [script[0]] + rest[..n - 1];
      }
    }
  }

  /** One message more of the script. */
  lemma OneRead(script: seq<Incoming>, k: nat)
    requires k < |script|
    ensures ForClient(script[..k + 1]) == ForClient(script[..k]) + Shown(script[k])
    ensures Replies(script[..k + 1]) == Replies(script[..k]) + Replied(script[k])
  {
    assert script[..k + 1][..k] == script[..k];
  }

  /** The loop of `lane.handshake`: reads until the replayed initialize is answered,
      or the stream ends, or a question cannot be answered. */
  method Listen(script: seq<Incoming>)
    returns (replies: seq<Entry>, forwarded: seq<Message>, read: nat, answered: bool, failed: bool)
    ensures read == Reads(script) <= |script|
    ensures replies == Replies(script[..read]) && forwarded == ForClient(script[..read])
    ensures answered <==> 0 < read && script[read - 1].Got? && Private(script[read - 1].message)
    ensures failed <==> answered && script[read - 1].message.failed
  {
    replies, forwarded, read, answered, failed := [], [], 0, false, false;
    while read < |script|
      invariant read <= |script| && forall k :: 0 <= k < read ==> !Stops(script[k])
      invariant replies == Replies(script[..read]) && forwarded == ForClient(script[..read])
      invariant !answered && !failed
    {
      var next := script[read];
      OneRead(script, read);
      ReadsTo(script, read);
      read := read + 1;
      if next.Broken? {
        return;
      }
      var m := next.message;
      if m.Response? && m.id == INIT_ID {
        answered, failed := true, m.failed;
        return;
      }
      if m.Question? {
        if next.reply.None? {
          return;
        }
        replies := replies + [Plain(Reply, !next.reply.value.Refused?)];
        if !next.reply.value.Accepted? {
          return;
        }
      } else {
        forwarded := forwarded + [m];
      }
    }
    ReadsTo(script, read);
  }

  /** `lane.handshake`: `known` says that the client's initialize has been seen. */
  method Shake(known: bool, sent: Try, script: seq<Incoming>, notice: Try)
    returns (written: seq<Entry>, forwarded: seq<Message>, read: nat, ok: bool)
    ensures read == (if known && sent.Accepted? then Reads(script) else 0) && read <= |script|
    ensures written == if known then Writes(sent, script[..read], notice) else []
    ensures forwarded == ForClient(script[..read])
    ensures ok <==> known && sent.Accepted? && Succeeds(script) && notice.Accepted?
    ensures Handshake(written) && (ok ==> written != [] && Shaken(written))
  {
    written, forwarded, read, ok := [], [], 0, false;
    if !known {
      return;
    }
    if !sent.Accepted? {
      WritesAHandshake(sent, [], notice);
      written := [Replayed(sent, false)];
      return;
    }
    var replies, answered, failed;
    replies, forwarded, read, answered, failed := Listen(script);
    written := [Replayed(sent, answered)] + replies;
    if answered && !failed {
      written := written + [Plain(Payload, !notice.Refused?)];
      ok := notice.Accepted?;
    }
    SucceedsMeans(script);
    WritesAHandshake(sent, script[..read], notice);
  }

  /** The client sees every answer and notification the handshake reads, but
      neither the answer to the replayed initialize nor a question. */
  lemma {:induction false} ClientSees(read: seq<Incoming>, m: Message)
    ensures m in ForClient(read) <==>
      !Private(m) && !m.Question? && exists k :: 0 <= k < |read| && read[k].Got? && read[k].message == m
    decreases |read|
  {
    if read != [] {
      var before, last := read[..|read| - 1], read[|read| - 1];
      ClientSees(before, m);
      if last.Got? && last.message == m {
        assert read[|read| - 1].Got?;
      }
      forall k | 0 <= k < |before| ensures before[k] == read[k] {
      }
    }
  }

  // ----- in order, and each once

  /** A notification, or an answer under any id but the private one. */
  predicate Volunteered(m: Message) {
    m.Notice? || (m.Response? && m.id != INIT_ID)
  }

  /** How many of the first `n` messages the client sees. */
  function Seen(read: seq<Incoming>, n: nat): nat
    requires n <= |read|
  {
    if n == 0 then 0
    else Seen(read, n - 1) + if read[n - 1].Got? && Volunteered(read[n - 1].message) then 1 else 0
  }

  /** How many of them were answered. */
  function Answered(read: seq<Incoming>, n: nat): nat
    requires n <= |read|
  {
    if n == 0 then 0
    else
      var next := read[n - 1];
      Answered(read, n - 1) + if next.Got? && next.message.Question? && next.reply.Some? then 1 else 0
  }

  /** What the client sees of the first `n`, and what is replied to them. */
  function SeenTo(read: seq<Incoming>, n: nat): seq<Message>
    requires n <= |read|
  {
    if n == 0 then [] else SeenTo(read, n - 1) + Shown(read[n - 1])
  }

  function RepliedTo(read: seq<Incoming>, n: nat): seq<Entry>
    requires n <= |read|
  {
    if n == 0 then [] else RepliedTo(read, n - 1) + Replied(read[n - 1])
  }

  lemma {:induction false} ReadTo(read: seq<Incoming>, n: nat)
    requires n <= |read|
    ensures SeenTo(read, n) == ForClient(read[..n]) && RepliedTo(read, n) == Replies(read[..n])
    decreases n
  {
    if n > 0 {
      ReadTo(read, n - 1);
      OneRead(read, n - 1);
    }
  }

  lemma {:induction false} ManyTo(read: seq<Incoming>, n: nat)
    requires n <= |read|
    ensures |SeenTo(read, n)| == Seen(read, n) && |RepliedTo(read, n)| == Answered(read, n)
    decreases n
  {
    if n > 0 {
      ManyTo(read, n - 1);
    }
  }

  lemma {:induction false} SeenAt(read: seq<Incoming>, n: nat, k: nat)
    requires k < n <= |read| && read[k].Got? && Volunteered(read[k].message)
    ensures Seen(read, k) < |SeenTo(read, n)| && SeenTo(read, n)[Seen(read, k)] == read[k].message
    decreases n
  {
    ManyTo(read, n - 1);
    if k < n - 1 {
      SeenAt(read, n - 1, k);
    }
  }

  lemma {:induction false} RepliedAt(read: seq<Incoming>, n: nat, k: nat)
    requires k < n <= |read| && read[k].Got? && read[k].message.Question? && read[k].reply.Some?
    ensures Answered(read, k) < |RepliedTo(read, n)|
    ensures RepliedTo(read, n)[Answered(read, k)] == Plain(Reply, !read[k].reply.value.Refused?)
    decreases n
  {
    ManyTo(read, n - 1);
    if k < n - 1 {
      RepliedAt(read, n - 1, k);
    }
  }

  /** Each message that is the client's has its place after those before it, and there
      are no others; and so has each question its reply, which got past the checks
      made before the POST unless it was refused. */
  lemma AllInOrder(read: seq<Incoming>)
    ensures |ForClient(read)| == Seen(read, |read|) && |Replies(read)| == Answered(read, |read|)
    ensures forall k :: 0 <= k < |read| && read[k].Got? && Volunteered(read[k].message) ==>
      Seen(read, k) < |ForClient(read)| && ForClient(read)[Seen(read, k)] == read[k].message
    ensures forall k :: 0 <= k < |read| && read[k].Got? && read[k].message.Question? && read[k].reply.Some? ==>
      && Answered(read, k) < |Replies(read)|
      && Replies(read)[Answered(read, k)] == Plain(Reply, !read[k].reply.value.Refused?)
  {
    ReadTo(read, |read|);
    ManyTo(read, |read|);
    assert read[..|read|] == read;
    forall k | 0 <= k < |read| && read[k].Got? && Volunteered(read[k].message)
      ensures Seen(read, k) < |SeenTo(read, |read|)| && SeenTo(read, |read|)[Seen(read, k)] == read[k].message
    {
      SeenAt(read, |read|, k);
    }
    forall k | 0 <= k < |read| && read[k].Got? && read[k].message.Question? && read[k].reply.Some?
      ensures Answered(read, k) < |RepliedTo(read, |read|)|
      ensures RepliedTo(read, |read|)[Answered(read, k)] == Plain(Reply, !read[k].reply.value.Refused?)
    {
      RepliedAt(read, |read|, k);
    }
  }
}

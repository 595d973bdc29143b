/** The shared registry file: what one reconciliation, one claim, one flush and
    one forget make of its records. */
module Records {
  import opened Options
  import opened Ports

  /** One start of a gopls: its pid together with when it started, which no other
      start shares. */
  type Process = nat

  datatype Record = Record(worktree: string, port: int, process: Process, terminating: bool, uses: nat, usedAt: int)

  datatype Verdict = Uncertain | Live | Terminate | Gone

  /** The verdict on a record; one the snapshot did not have is uncertain. */
  function VerdictOn(byRecord: map<Record, Verdict>, r: Record): Verdict {
    if r in byRecord then byRecord[r] else Uncertain
  }

  // ----- reconciliation

  /** What becomes of one record. */
  function Judged(byRecord: map<Record, Verdict>, r: Record): seq<Record> {
    match VerdictOn(byRecord, r)
    case Gone => []
    case Terminate => [r.(terminating := true)]
    case _ => [r]
  }

  function Kept(file: seq<Record>, byRecord: map<Record, Verdict>): seq<Record> {
    if file == [] then [] else Kept(file[..|file| - 1], byRecord) + Judged(byRecord, file[|file| - 1])
  }

  /** Those to be signalled. */
  function Condemned(file: seq<Record>, byRecord: map<Record, Verdict>): seq<Record> {
    if file == [] then []
    else Condemned(file[..|file| - 1], byRecord)
         + if VerdictOn(byRecord, file[|file| - 1]).Terminate? then [file[|file| - 1].(terminating := true)] else []
  }

  lemma {:induction false} KeptIsShorter(file: seq<Record>, byRecord: map<Record, Verdict>)
    ensures |Kept(file, byRecord)| <= |file|
  {
    if file != [] {
      KeptIsShorter(file[..|file| - 1], byRecord);
    }
  }

  lemma KeptStep(file: seq<Record>, byRecord: map<Record, Verdict>, i: nat)
    requires i < |file|
    ensures Kept(file[..i + 1], byRecord) == Kept(file[..i], byRecord) + Judged(byRecord, file[i])
    ensures Condemned(file[..i + 1], byRecord) ==
      Condemned(file[..i], byRecord) +
      if VerdictOn(byRecord, file[i]).Terminate? then [file[i].(terminating := true)] else []
  {
    assert file[..i + 1][..i] == file[..i];
  }

  /** A record of the file as it is written: marked if it is to be terminated. */
  function Written(byRecord: map<Record, Verdict>, q: Record): Record {
    if VerdictOn(byRecord, q) == Terminate then q.(terminating := true) else q
  }

  /** Some record of the old file that is not judged gone is written as `r`. */
  ghost predicate Survives(file: seq<Record>, byRecord: map<Record, Verdict>, r: Record) {
    exists q :: q in file && VerdictOn(byRecord, q) != Gone && r == Written(byRecord, q)
  }

  lemma KeptAre(file: seq<Record>, byRecord: map<Record, Verdict>)
    ensures forall r :: r in Kept(file, byRecord) <==> Survives(file, byRecord, r)
  {
    forall r ensures r in Kept(file, byRecord) <==> Survives(file, byRecord, r) {
      KeptFrom(file, byRecord, r);
    }
  }

  /** The reconciliation loop: the records kept are moved to the front of the very
      slice that is being read. */
  method Reconcile(current: array<Record>, byRecord: map<Record, Verdict>) returns (kept: nat, condemned: seq<Record>)
    modifies current
    ensures kept <= current.Length
    ensures current[..kept] == Kept(old(current[..]), byRecord)
    ensures condemned == Condemned(old(current[..]), byRecord)
    ensures forall r :: r in current[..kept] <==> Survives(old(current[..]), byRecord, r)
  {
    kept, condemned := 0, [];
    ghost var file := current[..];
    for i := 0 to current.Length
      invariant kept <= i
      invariant current[..kept] == Kept(file[..i], byRecord)
      invariant condemned == Condemned(file[..i], byRecord)
      invariant forall j :: i <= j < current.Length ==> current[j] == file[j]
    {
      var r := current[i];
      KeptStep(file, byRecord, i);
      if VerdictOn(byRecord, r).Gone? {
        continue;
      }
      if VerdictOn(byRecord, r).Terminate? {
        r := r.(terminating := true);
        condemned := condemned + [r];
      }
      ghost var done := current[..kept];
      current[kept] := r;
      kept := kept + 1;
      assert current[..kept] == done + [r];
    }
    assert file[..current.Length] == file;
    KeptAre(file, byRecord);
  }

  /** A record is kept exactly when one of the old file that is not judged gone is
      written as it. */
  lemma {:induction false} KeptFrom(file: seq<Record>, byRecord: map<Record, Verdict>, r: Record)
    ensures r in Kept(file, byRecord) <==> Survives(file, byRecord, r)
    decreases |file|
  {
    if file != [] {
      var last := file[|file| - 1];
      KeptFrom(file[..|file| - 1], byRecord, r);
      assert file == file[..|file| - 1] + [last];
      assert r in Judged(byRecord, last) <==> VerdictOn(byRecord, last) != Gone && r == Written(byRecord, last);
    }
  }

  /** What is kept of a record that is not judged gone. */
  lemma JudgedIs(byRecord: map<Record, Verdict>, q: Record)
    ensures Judged(byRecord, q) == if VerdictOn(byRecord, q) == Gone then [] else [Written(byRecord, q)]
  {
  }

  /** Of the first `n` records, how many are not judged gone. */
  function Remaining(file: seq<Record>, byRecord: map<Record, Verdict>, n: nat): nat
    requires n <= |file|
  {
    if n == 0 then 0 else Remaining(file, byRecord, n - 1) + if VerdictOn(byRecord, file[n - 1]).Gone? then 0 else 1
  }

  /** What is written of the first `n` records. */
  function KeptTo(file: seq<Record>, byRecord: map<Record, Verdict>, n: nat): seq<Record>
    requires n <= |file|
  {
    if n == 0 then [] else KeptTo(file, byRecord, n - 1) + Judged(byRecord, file[n - 1])
  }

  lemma {:induction false} KeptIsTo(file: seq<Record>, byRecord: map<Record, Verdict>, n: nat)
    requires n <= |file|
    ensures Kept(file[..n], byRecord) == KeptTo(file, byRecord, n)
    decreases n
  {
    if n > 0 {
      KeptIsTo(file, byRecord, n - 1);
      KeptStep(file, byRecord, n - 1);
    }
  }

  lemma {:induction false} KeptCount(file: seq<Record>, byRecord: map<Record, Verdict>, n: nat)
    requires n <= |file|
    ensures |KeptTo(file, byRecord, n)| == Remaining(file, byRecord, n)
    decreases n
  {
    if n > 0 {
      KeptCount(file, byRecord, n - 1);
      JudgedIs(byRecord, file[n - 1]);
    }
  }

  lemma {:induction false} KeptAt(file: seq<Record>, byRecord: map<Record, Verdict>, n: nat, i: nat)
    requires i < n <= |file| && !VerdictOn(byRecord, file[i]).Gone?
    ensures Remaining(file, byRecord, i) < |KeptTo(file, byRecord, n)|
    ensures KeptTo(file, byRecord, n)[Remaining(file, byRecord, i)] == Written(byRecord, file[i])
    decreases n
  {
    KeptCount(file, byRecord, n - 1);
    JudgedIs(byRecord, file[n - 1]);
    if i < n - 1 {
      KeptAt(file, byRecord, n - 1, i);
    }
  }

  /** Each record that is not judged gone has its place, after those before it, and
      there are no others. */
  lemma KeptInOrder(file: seq<Record>, byRecord: map<Record, Verdict>, i: nat)
    requires i < |file| && !VerdictOn(byRecord, file[i]).Gone?
    ensures |Kept(file, byRecord)| == Remaining(file, byRecord, |file|)
    ensures Remaining(file, byRecord, i) < |Kept(file, byRecord)|
    ensures Kept(file, byRecord)[Remaining(file, byRecord, i)] == Written(byRecord, file[i])
  {
    assert file[..|file|] == file;
    KeptIsTo(file, byRecord, |file|);
    KeptCount(file, byRecord, |file|);
    KeptAt(file, byRecord, |file|, i);
  }

  lemma {:induction false} CondemnedFrom(file: seq<Record>, byRecord: map<Record, Verdict>, r: Record)
    ensures r in Condemned(file, byRecord) <==>
      exists q :: q in file && VerdictOn(byRecord, q).Terminate? && r == q.(terminating := true)
    decreases |file|
  {
    if file != [] {
      var last := file[|file| - 1];
      CondemnedFrom(file[..|file| - 1], byRecord, r);
      assert file == file[..|file| - 1] + [last];
    }
  }

  /** Whoever is to be signalled is in the file that is written first, marked. */
  lemma CondemnedIsKept(file: seq<Record>, byRecord: map<Record, Verdict>, r: Record)
    requires r in Condemned(file, byRecord)
    ensures r in Kept(file, byRecord) && r.terminating
  {
    CondemnedFrom(file, byRecord, r);
    KeptFrom(file, byRecord, r);
  }

  // ----- claiming

  datatype Claim = Held(r: Record) | Leaving | Full | Vacant

  /** The first record of the worktree. */
  function First(file: seq<Record>, worktree: string): Option<Record> {
    if file == [] then None
    else if file[0].worktree == worktree then Some(file[0])
    else First(file[1..], worktree)
  }

  /** What the records say of a worktree that wants a server. */
  function ClaimOn(file: seq<Record>, worktree: string, cap: int): Claim {
    match First(file, worktree)
    case Some(r) => if r.terminating then Leaving else Held(r)
    case None => if |file| >= cap then Full else Vacant
  }

  lemma {:induction false} FirstMeans(file: seq<Record>, worktree: string)
    ensures First(file, worktree).None? <==> forall r :: r in file ==> r.worktree != worktree
    ensures First(file, worktree).Some? ==>
      First(file, worktree).value in file && First(file, worktree).value.worktree == worktree
  {
    if file != [] {
      FirstMeans(file[1..], worktree);
      assert file == [file[0]] + file[1..];
    }
  }

  /** The worktree's first record is the `i`th. */
  predicate FirstAt(file: seq<Record>, worktree: string, i: nat) {
    i < |file| && file[i].worktree == worktree && forall j :: 0 <= j < i ==> file[j].worktree != worktree
  }

  lemma {:induction false} FirstIsAt(file: seq<Record>, worktree: string, i: nat)
    requires FirstAt(file, worktree, i)
    ensures First(file, worktree) == Some(file[i])
  {
    if i > 0 {
      FirstIsAt(file[1..], worktree, i - 1);
    }
  }

  /** A worktree's server is handed out exactly when its first record is not leaving;
      it is to wait while that is; and with no record there is room exactly below
      the cap. */
  lemma ClaimMeans(file: seq<Record>, worktree: string, cap: int)
    ensures forall i: nat :: FirstAt(file, worktree, i) ==>
      && (!file[i].terminating <==> ClaimOn(file, worktree, cap) == Held(file[i]))
      && (file[i].terminating <==> ClaimOn(file, worktree, cap).Leaving?)
    ensures (forall r :: r in file ==> r.worktree != worktree) ==>
      && (|file| < cap <==> ClaimOn(file, worktree, cap).Vacant?)
      && (|file| >= cap <==> ClaimOn(file, worktree, cap).Full?)
  {
    FirstMeans(file, worktree);
    forall i: nat | FirstAt(file, worktree, i) ensures First(file, worktree) == Some(file[i]) && file[i] in file {
      FirstIsAt(file, worktree, i);
    }
  }

  function PortsOf(file: seq<Record>): seq<int> {
    seq(|file|, i requires 0 <= i < |file| => file[i].port)
  }

  /** `claimPort`'s body: the worktree's record, or a port for a new one. */
  method ClaimPort(file: seq<Record>, worktree: string, cap: int, base: int, busy: set<int>)
    returns (claim: Claim, port: Option<int>)
    requires InRange(base)
    ensures claim == ClaimOn(file, worktree, cap)
    ensures port.Some? ==>
      claim.Vacant? && InRange(port.value) && IsFirstFree(base, Taken(PortsOf(file)), busy, port.value)
    ensures claim.Vacant? && port.None? ==> forall p :: InRange(p) ==> !Free(Taken(PortsOf(file)), busy, p)
  {
    for i := 0 to |file|
      invariant First(file[i..], worktree) == First(file, worktree)
    {
      assert file[i..][0] == file[i] && file[i..][1..] == file[i + 1..];
      if file[i].worktree == worktree {
        if file[i].terminating {
          return Leaving, None;
        }
        return Held(file[i]), None;
      }
    }
    if |file| >= cap {
      return Full, None;
    }
    port := AllocatePort(base, PortsOf(file), busy);
    return Vacant, port;
  }

  // ----- usage and forgetting

  /** `flushUses`: usage added to every record that is not leaving. */
  function Flushed(file: seq<Record>, counts: map<string, nat>, aged: Record -> nat, now: int): seq<Record> {
    seq(|file|, i requires 0 <= i < |file| =>
      var r := file[i];
      if r.worktree in counts && counts[r.worktree] > 0 && !r.terminating
      then r.(uses := aged(r) + counts[r.worktree], usedAt := now) else r)
  }

  /** `flushUses`, over the slice it was handed. */
  method Flush(records: array<Record>, counts: map<string, nat>, aged: Record -> nat, now: int)
    modifies records
    ensures records[..] == Flushed(old(records[..]), counts, aged, now)
  {
    for i := 0 to records.Length
      invariant forall j :: 0 <= j < i ==> records[j] == Flushed(old(records[..]), counts, aged, now)[j]
      invariant forall j :: i <= j < records.Length ==> records[j] == old(records[j])
    {
      var r := records[i];
      if r.worktree in counts && counts[r.worktree] > 0 && !r.terminating {
        records[i] := r.(uses := aged(r) + counts[r.worktree], usedAt := now);
      }
    }
  }

  /** The records stay where they are; each whose worktree was used, and that is not
      leaving, gains exactly the uses counted, and nothing else changes but when it
      was last used. */
  lemma FlushMeans(file: seq<Record>, counts: map<string, nat>, aged: Record -> nat, now: int, i: nat)
    requires i < |file|
    ensures |Flushed(file, counts, aged, now)| == |file|
    ensures var r, q := file[i], Flushed(file, counts, aged, now)[i];
      var used := if r.worktree in counts then counts[r.worktree] else 0;
      && q == r.(uses := q.uses, usedAt := q.usedAt)
      && (r.terminating || used == 0 ==> q == r)
      && (!r.terminating && used > 0 ==> q.uses - aged(r) == used && q.usedAt == now)
  {
  }

  /** `forget`: exactly the record named. */
  function Forgotten(file: seq<Record>, r: Record): seq<Record> {
    if file == [] then []
    else Forgotten(file[..|file| - 1], r) + if file[|file| - 1] == r then [] else [file[|file| - 1]]
  }

  lemma {:induction false} ForgottenFrom(file: seq<Record>, r: Record, q: Record)
    ensures q in Forgotten(file, r) <==> q in file && q != r
    decreases |file|
  {
    if file != [] {
      ForgottenFrom(file[..|file| - 1], r, q);
      assert file == file[..|file| - 1] + [file[|file| - 1]];
    }
  }

  // ----- what no update adds

  /** How many records a worktree has. */
  function InWorktree(file: seq<Record>, worktree: string): nat {
    if file == [] then 0
    else InWorktree(file[..|file| - 1], worktree) + if file[|file| - 1].worktree == worktree then 1 else 0
  }

  /** How many records a port has. */
  function OnPort(file: seq<Record>, port: int): nat {
    if file == [] then 0
    else OnPort(file[..|file| - 1], port) + if file[|file| - 1].port == port then 1 else 0
  }

  /** No worktree and no port has more records than before, and there are no more
      records than before. */
  ghost predicate NoMore(file: seq<Record>, after: seq<Record>) {
    && (forall w :: InWorktree(after, w) <= InWorktree(file, w))
    && (forall p :: OnPort(after, p) <= OnPort(file, p))
    && |after| <= |file|
  }

  lemma Appended(file: seq<Record>, r: Record)
    ensures forall w :: InWorktree(file + [r], w) == InWorktree(file, w) + if r.worktree == w then 1 else 0
    ensures forall p :: OnPort(file + [r], p) == OnPort(file, p) + if r.port == p then 1 else 0
  {
    assert (file + [r])[..|file|] == file;
  }

  /** One record more on both sides, of the same worktree and port, or on the
      older side only. */
  lemma NoMoreStep(file: seq<Record>, after: seq<Record>, r: Record, q: Record)
    requires NoMore(file, after) && q.worktree == r.worktree && q.port == r.port
    ensures NoMore(file + [r], after + [q]) && NoMore(file + [r], after)
  {
    Appended(file, r);
    Appended(after, q);
  }

  lemma {:induction false} KeptAddsNothing(file: seq<Record>, byRecord: map<Record, Verdict>)
    ensures NoMore(file, Kept(file, byRecord))
    decreases |file|
  {
    if file != [] {
      var rest, last := file[..|file| - 1], file[|file| - 1];
      KeptAddsNothing(rest, byRecord);
      assert file == rest + [last];
      NoMoreStep(rest, Kept(rest, byRecord), last, last.(terminating := true));
      NoMoreStep(rest, Kept(rest, byRecord), last, last);
      assert Kept(rest, byRecord) + [] == Kept(rest, byRecord);
    }
  }

  lemma {:induction false} ForgottenAddsNothing(file: seq<Record>, r: Record)
    ensures NoMore(file, Forgotten(file, r))
    decreases |file|
  {
    if file != [] {
      var rest, last := file[..|file| - 1], file[|file| - 1];
      ForgottenAddsNothing(rest, r);
      assert file == rest + [last];
      NoMoreStep(rest, Forgotten(rest, r), last, last);
      assert Forgotten(rest, r) + [] == Forgotten(rest, r);
    }
  }

  lemma {:induction false} FlushedAddsNothing(file: seq<Record>, counts: map<string, nat>, aged: Record -> nat,
                                              now: int)
    ensures NoMore(file, Flushed(file, counts, aged, now))
    decreases |file|
  {
    if file != [] {
      var rest, last := file[..|file| - 1], file[|file| - 1];
      FlushedAddsNothing(rest, counts, aged, now);
      var after := Flushed(file, counts, aged, now);
      assert file == rest + [last];
      assert after == Flushed(rest, counts, aged, now) + [after[|file| - 1]];
      NoMoreStep(rest, Flushed(rest, counts, aged, now), last, after[|file| - 1]);
    }
  }

  lemma {:induction false} NoRecordNoCount(file: seq<Record>, worktree: string)
    requires forall r :: r in file ==> r.worktree != worktree
    ensures InWorktree(file, worktree) == 0
    decreases |file|
  {
    if file != [] {
      NoRecordNoCount(file[..|file| - 1], worktree);
      assert file[|file| - 1] in file;
    }
  }

  lemma {:induction false} FreePortNoCount(file: seq<Record>, port: int)
    requires port !in Taken(PortsOf(file))
    ensures OnPort(file, port) == 0
    decreases |file|
  {
    if file != [] {
      var rest := file[..|file| - 1];
      assert PortsOf(file)[|file| - 1] == file[|file| - 1].port;
      assert forall k :: 0 <= k < |rest| ==> PortsOf(rest)[k] == PortsOf(file)[k];
      FreePortNoCount(rest, port);
    }
  }

  lemma {:induction false} RecordCounts(file: seq<Record>, r: Record)
    requires r in file
    ensures InWorktree(file, r.worktree) >= 1
    decreases |file|
  {
    if file[|file| - 1] != r {
      assert file == file[..|file| - 1] + [file[|file| - 1]];
      RecordCounts(file[..|file| - 1], r);
    }
  }

  /** Two records of one worktree count twice. */
  lemma {:induction false} TwoCountTwice(file: seq<Record>, r: Record, q: Record)
    requires r in file && q in file && r != q && r.worktree == q.worktree
    ensures InWorktree(file, r.worktree) >= 2
    decreases |file|
  {
    var rest, last := file[..|file| - 1], file[|file| - 1];
    assert file == rest + [last];
    if last == r {
      RecordCounts(rest, q);
    } else if last == q {
      RecordCounts(rest, r);
    } else {
      TwoCountTwice(rest, r, q);
    }
  }
}

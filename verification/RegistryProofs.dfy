/** The invariant of the shared registry, and what it means over whole runs. */
module RegistryProofs {
  import opened Options
  import opened Ports
  import opened Records
  import opened Registry

  // ----- a file that drops only the dead

  /** `after` keeps the record of every live process, marked ones exactly. */
  ghost predicate Keeps(s: Sys, after: seq<Record>) {
    && (forall r :: r in s.file && r.process in s.live ==>
          exists q :: q in after && q.process == r.process && q.worktree == r.worktree)
    && (forall r :: r in s.file && r.terminating && r.process in s.live ==> r in after)
    && (forall r :: r in after ==> r.process < s.next)
    && NoMore(s.file, after)
  }

  lemma KeptKeeps(s: Sys, byRecord: map<Record, Verdict>)
    requires Known(s)
    requires forall r :: r in byRecord && byRecord[r].Gone? ==> r.process !in s.live
    ensures Keeps(s, Kept(s.file, byRecord))
  {
    var after := Kept(s.file, byRecord);
    KeptAddsNothing(s.file, byRecord);
    forall r | r in s.file && r.process in s.live
      ensures exists q :: q in after && q.process == r.process && q.worktree == r.worktree
      ensures r.terminating ==> r in after
    {
      var q := Written(byRecord, r);
      KeptFrom(s.file, byRecord, q);
      assert r.terminating ==> q == r;
    }
    forall r | r in after ensures r.process < s.next {
      KeptFrom(s.file, byRecord, r);
    }
  }

  lemma ForgottenKeeps(s: Sys, r: Record)
    requires Known(s) && r.process !in s.live
    ensures Keeps(s, Forgotten(s.file, r))
  {
    ForgottenAddsNothing(s.file, r);
    forall q ensures q in Forgotten(s.file, r) <==> q in s.file && q != r {
      ForgottenFrom(s.file, r, q);
    }
  }

  lemma FlushedKeeps(s: Sys, counts: map<string, nat>, aged: Record -> nat, now: int)
    requires Known(s)
    ensures Keeps(s, Flushed(s.file, counts, aged, now))
  {
    var after := Flushed(s.file, counts, aged, now);
    FlushedAddsNothing(s.file, counts, aged, now);
    forall r | r in s.file
      ensures exists q :: q in after && q.process == r.process && q.worktree == r.worktree
      ensures r.terminating ==> r in after
    {
      var i :| 0 <= i < |s.file| && s.file[i] == r;
      assert after[i] in after && after[i].process == r.process;
    }
  }

  lemma FileKeepsInv(s: Sys, after: seq<Record>, start: seq<Record>)
    requires Inv(s, start) && Keeps(s, after)
    ensures Inv(s.(file := after), start)
  {
    var s' := s.(file := after);
    forall p | p in s'.born && p in s'.live ensures HasRecord(s', p) {
      assert HasRecord(s, p);
    }
    forall a | a in s'.actors ensures PhaseOk(s', s'.actors[a]) {
      assert PhaseOk(s, s.actors[a]);
    }
  }

  // ----- one actor moves, or a process dies

  lemma MoveKeepsInv(s: Sys, a: Actor, phase: Phase, start: seq<Record>)
    requires Inv(s, start) && PhaseOk(s, phase)
    ensures Inv(At(s, a, phase), start)
  {
    var s' := At(s, a, phase);
    forall p | p in s'.born && p in s'.live ensures HasRecord(s', p) {
      assert HasRecord(s, p);
    }
    forall b | b in s'.actors ensures PhaseOk(s', s'.actors[b]) {
      assert b != a ==> PhaseOk(s, s.actors[b]);
    }
  }

  lemma DieKeepsInv(s: Sys, p: Process, start: seq<Record>)
    requires Inv(s, start)
    ensures Inv(s.(live := s.live - {p}), start)
  {
    var s' := s.(live := s.live - {p});
    forall q | q in s'.born && q in s'.live ensures HasRecord(s', q) {
      assert HasRecord(s, q);
    }
    forall b | b in s'.actors ensures PhaseOk(s', s'.actors[b]) {
      assert PhaseOk(s, s.actors[b]);
    }
  }

  // ----- a process is started

  /** A child whose record could not be written. */
  lemma StrayKeepsInv(s: Sys, stopped: bool, start: seq<Record>)
    requires Inv(s, start)
    ensures Inv(s.(live := if stopped then s.live else s.live + {s.next}, next := s.next + 1), start)
  {
    var s' := s.(live := if stopped then s.live else s.live + {s.next}, next := s.next + 1);
    forall q | q in s'.born && q in s'.live ensures HasRecord(s', q) {
      assert HasRecord(s, q);
    }
    forall b | b in s'.actors ensures PhaseOk(s', s'.actors[b]) {
      assert PhaseOk(s, s.actors[b]);
    }
  }

  /** A started process recorded: `file` has no record of its worktree, and its
      port is free. */
  function Started(s: Sys, file: seq<Record>, r: Record): Sys {
    s.(file := file + [r], live := s.live + {s.next}, born := s.born[s.next := r.worktree], next := s.next + 1)
  }

  lemma StartedBounded(s: Sys, file: seq<Record>, r: Record, start: seq<Record>)
    requires Bounded(s.(file := file), start) && |file| < s.cap
    requires First(file, r.worktree).None? && r.port !in Taken(PortsOf(file))
    ensures Bounded(Started(s, file, r), start)
  {
    FirstMeans(file, r.worktree);
    NoRecordNoCount(file, r.worktree);
    FreePortNoCount(file, r.port);
    Appended(file, r);
  }

  lemma StartedAccounted(s: Sys, file: seq<Record>, r: Record)
    requires Accounted(s.(file := file)) && Known(s.(file := file)) && r.process == s.next
    ensures Accounted(Started(s, file, r))
  {
    var s1, s' := s.(file := file), Started(s, file, r);
    forall q | q in s'.born && q in s'.live ensures HasRecord(s', q) {
      if q == s.next {
        assert r in s'.file;
      } else {
        assert HasRecord(s1, q);
        var k :| k in s1.file && k.process == q && k.worktree == s1.born[q];
        assert k in s'.file;
      }
    }
  }

  lemma StartedPhases(s: Sys, file: seq<Record>, r: Record)
    requires Known(s.(file := file)) && Phases(s.(file := file))
    ensures Phases(Started(s, file, r))
  {
    var s1, s' := s.(file := file), Started(s, file, r);
    forall b | b in s'.actors ensures PhaseOk(s', s'.actors[b]) {
      assert PhaseOk(s1, s1.actors[b]);
    }
  }

  lemma StartedKeepsInv(s: Sys, file: seq<Record>, r: Record, start: seq<Record>)
    requires Inv(s.(file := file), start) && |file| < s.cap && r.process == s.next
    requires First(file, r.worktree).None? && r.port !in Taken(PortsOf(file))
    ensures Inv(Started(s, file, r), start)
  {
    StartedBounded(s, file, r, start);
    StartedAccounted(s, file, r);
    StartedPhases(s, file, r);
  }

  // ----- the body

  lemma AppliedKeepsInv(s: Sys, a: Actor, file: seq<Record>, body: Body, room: Room, start: seq<Record>)
    requires Inv(s, start) && Keeps(s, file) && RoomOk(file, room)
    ensures Inv(Applied(s, a, file, body, room), start)
  {
    var s' := Applied(s, a, file, body, room);
    FileKeepsInv(s, file, start);
    if Spawns(s, file, body, room) {
      if room.Recorded? {
        var r := NewRecord(s, body.worktree, room.port);
        StartedKeepsInv(s, file, r, start);
        MoveKeepsInv(Started(s, file, r), a, Starting(r), start);
        assert s' == At(Started(s, file, r), a, Starting(r));
      } else {
        StrayKeepsInv(s, room.stopped, start);
        var s1 := s.(live := if room.stopped then s.live else s.live + {s.next}, next := s.next + 1);
        MoveKeepsInv(s1, a, Idle, start);
        assert s' == At(s1, a, Idle);
      }
    } else {
      var s1 := if Commits(s, file, body, room) then s.(file := file) else s;
      MoveKeepsInv(s1, a, Idle, start);
      assert s' == At(s1, a, Idle);
    }
  }

  lemma CondemnedMarked(s: Sys, byRecord: map<Record, Verdict>)
    requires Known(s)
    ensures forall r :: r in Condemned(s.file, byRecord) ==>
      r in Kept(s.file, byRecord) && r.terminating && r.process < s.next
  {
    forall r | r in Condemned(s.file, byRecord)
      ensures r in Kept(s.file, byRecord) && r.terminating && r.process < s.next
    {
      CondemnedIsKept(s.file, byRecord, r);
      CondemnedFrom(s.file, byRecord, r);
    }
  }

  lemma ReconcileKeepsInv(s: Sys, a: Actor, room: Room, start: seq<Record>)
    requires Inv(s, start) && CanReconcile(s, a, room)
    ensures Inv(Reconciles(s, a, room), start)
  {
    var phase := PhaseOf(s, a);
    assert PhaseOk(s, phase);
    var kept, condemned := Kept(s.file, phase.byRecord), Condemned(s.file, phase.byRecord);
    KeptKeeps(s, phase.byRecord);
    if condemned != [] {
      var s1 := s.(file := kept);
      FileKeepsInv(s, kept, start);
      CondemnedMarked(s, phase.byRecord);
      assert PhaseOk(s1, Signalling(phase.body, condemned));
      MoveKeepsInv(s1, a, Signalling(phase.body, condemned), start);
      assert Reconciles(s, a, room) == At(s1, a, Signalling(phase.body, condemned));
    } else {
      AppliedKeepsInv(s, a, kept, phase.body, room, start);
    }
  }

  lemma SameKeeps(s: Sys)
    requires Known(s)
    ensures Keeps(s, s.file)
  {
  }

  lemma ActorKeepsInv(s: Sys, step: Step, start: seq<Record>)
    requires Inv(s, start) && Enabled(s, step)
    requires step.Snapshot? || step.Probe? || step.Check? || step.Signal? || step.GiveUp?
    ensures Inv(Next(s, step), start)
  {
    var phase := PhaseOf(s, step.a);
    assert PhaseOk(s, phase);
    match step
    case Snapshot(a, body) => MoveKeepsInv(s, a, Probing(body, s.file, map[]), start);
    case Probe(a, r, verdict) => MoveKeepsInv(s, a, phase.(byRecord := phase.byRecord[r := verdict]), start);
    case Check(a) =>
      MoveKeepsInv(s, a, if phase.queue[0] in s.file then Checked(phase.body, phase.queue, s.file)
                         else Signalling(phase.body, phase.queue[1..]), start);
    case Signal(a) => MoveKeepsInv(s, a, Signalling(phase.body, phase.queue[1..]), start);
    case GiveUp(a) => MoveKeepsInv(s, a, Idle, start);
  }

  lemma NextKeepsInv(s: Sys, step: Step, start: seq<Record>)
    requires Inv(s, start) && Enabled(s, step)
    ensures Inv(Next(s, step), start)
  {
    match step
    case DoReconcile(a, room) => ReconcileKeepsInv(s, a, room, start);
    case Follow(a, room) =>
      SameKeeps(s);
      AppliedKeepsInv(s, a, s.file, PhaseOf(s, a).body, room, start);
    case Stop(a) =>
      var r := PhaseOf(s, a).r;
      assert PhaseOk(s, PhaseOf(s, a));
      DieKeepsInv(s, r.process, start);
      MoveKeepsInv(s.(live := s.live - {r.process}), a, Forgetting(r), start);
    case Forget(a) =>
      var r := PhaseOf(s, a).r;
      assert PhaseOk(s, PhaseOf(s, a));
      ForgottenKeeps(s, r);
      FileKeepsInv(s, Forgotten(s.file, r), start);
      MoveKeepsInv(s.(file := Forgotten(s.file, r)), a, Idle, start);
    case Flush(counts, aged, now) =>
      FlushedKeeps(s, counts, aged, now);
      FileKeepsInv(s, Flushed(s.file, counts, aged, now), start);
    case Die(p) => DieKeepsInv(s, p, start);
    case _ => ActorKeepsInv(s, step, start);
  }

  lemma {:induction false} RunKeepsInv(s: Sys, steps: seq<Step>, start: seq<Record>)
    requires Inv(s, start)
    ensures Run(s, steps).Some? ==> Inv(Run(s, steps).value, start)
    decreases |steps|
  {
    if steps != [] && Enabled(s, steps[0]) {
      NextKeepsInv(s, steps[0], start);
      RunKeepsInv(Next(s, steps[0]), steps[1..], start);
    }
  }

  /** A state some run leads to, from a file that held `start`. */
  ghost predicate Reachable(start: Sys, s: Sys) {
    Begins(start) && exists steps :: Run(start, steps) == Some(s)
  }

  lemma ReachableInv(start: Sys, s: Sys)
    requires Reachable(start, s)
    ensures Inv(s, start.file)
  {
    var steps :| Run(start, steps) == Some(s);
    RunKeepsInv(start, steps, start.file);
  }

  // ----- one server per worktree, no orphan

  /** Every committed process that is alive has its record, and the file is no
      worse bounded than it began. */
  lemma NoOrphan(start: Sys, s: Sys, p: Process)
    requires Reachable(start, s) && p in s.born && p in s.live
    ensures HasRecord(s, p)
    ensures |s.file| <= Max(s.cap, |start.file|)
    ensures forall port :: OnPort(s.file, port) <= Max(1, OnPort(start.file, port))
  {
    ReachableInv(start, s);
  }

  /** Where the file began with one record for a worktree at most, the worktree
      never has two live servers, whatever the managers do. */
  lemma OneServerPerWorktree(start: Sys, s: Sys, p: Process, q: Process)
    requires Reachable(start, s) && p in s.born && q in s.born && s.born[p] == s.born[q]
    requires p in s.live && q in s.live && InWorktree(start.file, s.born[p]) <= 1
    ensures p == q
  {
    ReachableInv(start, s);
    assert HasRecord(s, p) && HasRecord(s, q);
    var r :| r in s.file && r.process == p && r.worktree == s.born[p];
    var k :| k in s.file && k.process == q && k.worktree == s.born[q];
    if r != k {
      TwoCountTwice(s.file, r, k);
    }
  }

  // ----- durable termination

  /** A signal goes to a record that is marked, that was in the file its sender has
      just read, and that, if its process is still alive, is on disk with that mark
      at the very moment of the signal. */
  lemma SignalIsDurable(start: Sys, s: Sys, a: Actor)
    requires Reachable(start, s) && Enabled(s, Signal(a))
    ensures var r := PhaseOf(s, a).queue[0];
      r.terminating && r in PhaseOf(s, a).seen && (r.process in s.live ==> r in s.file)
  {
    ReachableInv(start, s);
    assert PhaseOk(s, PhaseOf(s, a));
    assert PhaseOf(s, a).queue[0] in PhaseOf(s, a).queue;
  }

  /** The mark is never cleared, and a marked record leaves only on a gone verdict
      for that exact record. */
  lemma MarkStays(start: Sys, s: Sys, step: Step, r: Record)
    requires Inv(s, start.file) && Enabled(s, step) && r in s.file && r.terminating
    ensures r in Next(s, step).file || (step.DoReconcile? && VerdictOn(PhaseOf(s, step.a).byRecord, r).Gone?)
    ensures r.process in s.live ==> r in Next(s, step).file
  {
    match step
    case DoReconcile(a, room) =>
      var byRecord := PhaseOf(s, a).byRecord;
      assert PhaseOk(s, PhaseOf(s, a));
      if !VerdictOn(byRecord, r).Gone? {
        assert r == Written(byRecord, r);
        KeptFrom(s.file, byRecord, r);
      }
    case Forget(a) =>
      assert PhaseOk(s, PhaseOf(s, a));
      ForgottenFrom(s.file, PhaseOf(s, a).r, r);
    case Flush(counts, aged, now) =>
      var i :| 0 <= i < |s.file| && s.file[i] == r;
      assert Flushed(s.file, counts, aged, now)[i] == r;
    case _ =>
  }

  /** Over any run: a marked record is on disk until its process is gone. */
  lemma {:induction false} MarkedUntilGone(start: Sys, s: Sys, steps: seq<Step>, r: Record)
    requires Inv(s, start.file) && Run(s, steps).Some? && r.terminating && r.process < s.next
    requires r.process in s.live ==> r in s.file
    ensures r.process in Run(s, steps).value.live ==> r in Run(s, steps).value.file
    decreases |steps|
  {
    if steps != [] {
      var s' := Next(s, steps[0]);
      NextKeepsInv(s, steps[0], start.file);
      NobodyRises(s, steps[0], r.process);
      if r.process in s.live {
        MarkStays(start, s, steps[0], r);
      }
      MarkedUntilGone(start, s', steps[1..], r);
    }
  }

  /** A process that is gone stays gone. */
  lemma NobodyRises(s: Sys, step: Step, p: Process)
    requires Enabled(s, step) && p < s.next
    ensures p in Next(s, step).live ==> p in s.live
    ensures p < Next(s, step).next
  {
  }

  /** A claim starts a process only where the worktree has no record at all, and
      what it hands out is recorded and not leaving. */
  lemma ClaimRespectsRecords(s: Sys, a: Actor, file: seq<Record>, worktree: string, room: Room)
    ensures ClaimOn(file, worktree, s.cap).Held? ==>
      var r := ClaimOn(file, worktree, s.cap).r; r in file && r.worktree == worktree && !r.terminating
    ensures Applied(s, a, file, ClaimFor(worktree), room).next != s.next ==>
      |file| < s.cap && forall r :: r in file ==> r.worktree != worktree
    ensures (exists r :: r in file && r.worktree == worktree) ==>
      Applied(s, a, file, ClaimFor(worktree), room).live == s.live
  {
    FirstMeans(file, worktree);
  }

  // ----- the dead leave

  /** What a reconciliation is committed for: records it has marked, or a body that
      only keeps the file in order, or a server handed out, or one recorded. */
  ghost predicate Committed(s: Sys, a: Actor, room: Room)
    requires CanReconcile(s, a, room)
  {
    var phase := PhaseOf(s, a);
    var kept := Kept(s.file, phase.byRecord);
    || (exists q :: q in s.file && VerdictOn(phase.byRecord, q).Terminate?)
    || phase.body.Keep?
    || ClaimOn(kept, phase.body.worktree, s.cap).Held?
    || (ClaimOn(kept, phase.body.worktree, s.cap).Vacant? && room.Recorded?)
  }

  /** A committed reconciliation leaves in the file the records that were not judged
      gone, marked if they are to be terminated, and at most one more, of the
      process it has just started. */
  lemma DeadLeave(s: Sys, a: Actor, room: Room, r: Record)
    requires CanReconcile(s, a, room) && Committed(s, a, room)
    ensures var after := Reconciles(s, a, room).file;
      && (Survives(s.file, PhaseOf(s, a).byRecord, r) ==> r in after)
      && (r in after ==> Survives(s.file, PhaseOf(s, a).byRecord, r) || r.process == s.next)
  {
    var phase := PhaseOf(s, a);
    var kept, condemned := Kept(s.file, phase.byRecord), Condemned(s.file, phase.byRecord);
    KeptFrom(s.file, phase.byRecord, r);
    if q :| q in s.file && VerdictOn(phase.byRecord, q).Terminate? {
      CondemnedFrom(s.file, phase.byRecord, q.(terminating := true));
    }
    if condemned != [] {
      CondemnedFrom(s.file, phase.byRecord, condemned[0]);
    }
  }

  /** Over runs: once a reconciliation is committed, no record that its manager
      judged gone is left, save one equal to a record it has just marked. */
  lemma GoneIsGone(start: Sys, s: Sys, a: Actor, room: Room, r: Record)
    requires Reachable(start, s) && CanReconcile(s, a, room) && Committed(s, a, room)
    requires r in Reconciles(s, a, room).file && VerdictOn(PhaseOf(s, a).byRecord, r).Gone?
    ensures r.terminating
    ensures exists q ::
      q in s.file && VerdictOn(PhaseOf(s, a).byRecord, q).Terminate? && r == q.(terminating := true)
  {
    ReachableInv(start, s);
    assert PhaseOk(s, PhaseOf(s, a));
    DeadLeave(s, a, room, r);
  }

  /** What a claim hands out after a reconciliation was not judged gone. */
  lemma NoDeadServer(s: Sys, a: Actor, room: Room)
    requires CanReconcile(s, a, room) && PhaseOf(s, a).body.ClaimFor?
    ensures var phase := PhaseOf(s, a);
      var claim := ClaimOn(Kept(s.file, phase.byRecord), phase.body.worktree, s.cap);
      claim.Held? ==>
        && claim.r in s.file && claim.r.worktree == phase.body.worktree && !claim.r.terminating
        && !VerdictOn(phase.byRecord, claim.r).Gone? && !VerdictOn(phase.byRecord, claim.r).Terminate?
  {
    var phase := PhaseOf(s, a);
    var kept := Kept(s.file, phase.byRecord);
    var claim := ClaimOn(kept, phase.body.worktree, s.cap);
    FirstMeans(kept, phase.body.worktree);
    if claim.Held? {
      KeptFrom(s.file, phase.byRecord, claim.r);
    }
  }

  /** A marked record still on disk is the one that goes on to be signalled; one that
      is not is passed over. */
  lemma CheckMeans(s: Sys, a: Actor)
    requires CanCheck(s, a)
    ensures var phase, after := PhaseOf(s, a), PhaseOf(Checks(s, a), a);
      && Checks(s, a).file == s.file && after.body == phase.body
      && (phase.queue[0] in s.file <==> after.Checked? && after.queue == phase.queue && after.seen == s.file)
      && (phase.queue[0] !in s.file <==> after.Signalling? && after.queue == phase.queue[1..])
  {
  }

  /** What a claim comes to: a server handed out leaves the file in order; with room,
      a process that could be recorded is, under the worktree, on its port, and not
      leaving; whoever is to wait, or finds no room, changes nothing. */
  lemma ClaimComesTo(s: Sys, a: Actor, file: seq<Record>, worktree: string, room: Room)
    ensures var s', claim := Applied(s, a, file, ClaimFor(worktree), room), ClaimOn(file, worktree, s.cap);
      && (claim.Held? ==> s'.file == file && s'.next == s.next && s'.live == s.live)
      && (claim.Leaving? || claim.Full? ==> s'.file == s.file && s'.next == s.next && s'.live == s.live)
      && (claim.Vacant? && room.Nothing? ==> s'.file == s.file && s'.next == s.next && s'.live == s.live)
      && (claim.Vacant? && room.Recorded? ==>
            && s'.file == file + [Record(worktree, room.port, s.next, false, 0, 0)] && s'.next == s.next + 1
            && s'.live == s.live + {s.next} && s.next in s'.born && s'.born[s.next] == worktree)
      && (claim.Vacant? && room.Unrecorded? ==>
            && s'.file == s.file && s'.next == s.next + 1 && s'.born == s.born
            && s'.live == s.live + if room.stopped then {} else {s.next})
  {
  }

  /** Those that a reconciliation marks, and no others, are then signalled one by one,
      before its body is tried again. */
  lemma MarkedAreQueued(s: Sys, a: Actor, room: Room, r: Record)
    requires CanReconcile(s, a, room)
    requires exists q :: q in s.file && VerdictOn(PhaseOf(s, a).byRecord, q).Terminate?
    ensures var byRecord, after := PhaseOf(s, a).byRecord, PhaseOf(Reconciles(s, a, room), a);
      && after.Signalling? && after.body == PhaseOf(s, a).body
      && (r in after.queue <==>
            exists q :: q in s.file && VerdictOn(byRecord, q).Terminate? && r == q.(terminating := true))
    ensures forall again :: !CanFollow(Reconciles(s, a, room), a, again)
  {
    var byRecord := PhaseOf(s, a).byRecord;
    CondemnedFrom(s.file, byRecord, r);
    var q :| q in s.file && VerdictOn(byRecord, q).Terminate?;
    CondemnedFrom(s.file, byRecord, q.(terminating := true));
  }

  /** After a signal the next marked record is looked at, and after the last the body
      is tried again. */
  lemma SignalMeans(s: Sys, a: Actor, room: Room)
    requires CanSignal(s, a)
    ensures var phase, after := PhaseOf(s, a), PhaseOf(Signals(s, a), a);
      && after == Signalling(phase.body, phase.queue[1..]) && Signals(s, a).file == s.file
      && (CanFollow(Signals(s, a), a, room) <==> |phase.queue| == 1 && RoomOk(s.file, room))
  {
  }
}

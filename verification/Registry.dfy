/** Any number of managers over one registry file. A step is one critical section
    under the file's lock, or one unlocked read, probe or signal; the file is
    replaced whole, so every read sees one version of it. */
module Registry {
  import opened Options
  import opened Ports
  import opened Records

  type Actor = nat

  /** What withRecords is asked to do after reconciling. */
  datatype Body = Keep | ClaimFor(worktree: string)

  /** Where a manager's call stands. `queue` holds the records it has marked and
      has yet to signal; in Checked it has just `seen` the file with the first of them in it. */
  datatype Phase =
    | Idle
    | Probing(body: Body, snapshot: seq<Record>, byRecord: map<Record, Verdict>)
    | Signalling(body: Body, queue: seq<Record>)
    | Checked(body: Body, queue: seq<Record>, seen: seq<Record>)
    | Starting(r: Record)
    | Forgetting(r: Record)

  /** `born` names the worktree of every process whose record was committed. */
  datatype Sys = Sys(
    file: seq<Record>,
    live: set<Process>,
    born: map<Process, string>,
    next: Process,
    actors: map<Actor, Phase>,
    cap: int)

  function PhaseOf(s: Sys, a: Actor): Phase {
    if a in s.actors then s.actors[a] else Idle
  }

  function At(s: Sys, a: Actor, phase: Phase): Sys {
    s.(actors := s.actors[a := phase])
  }

  // ----- probing

  predicate CanProbe(s: Sys, a: Actor, r: Record, verdict: Verdict) {
    && PhaseOf(s, a).Probing? && r in PhaseOf(s, a).snapshot
    && (PhaseOf(s, a).body.ClaimFor? ==> r.worktree == PhaseOf(s, a).body.worktree)
    && (verdict.Gone? ==> r.process !in s.live)
  }

  /** A gone verdict means the process is gone, or was never this record's. */
  function Probes(s: Sys, a: Actor, r: Record, verdict: Verdict): Sys
    requires CanProbe(s, a, r, verdict)
  {
    At(s, a, PhaseOf(s, a).(byRecord := PhaseOf(s, a).byRecord[r := verdict]))
  }

  // ----- the body, under the lock

  /** How a claim that found room went: nothing was started; or a process was
      started and recorded on `port`; or the write failed after the start, and
      the child was stopped, or could not be. */
  datatype Room = Nothing | Recorded(port: int) | Unrecorded(stopped: bool)

  /** What a process started now is recorded as. */
  function NewRecord(s: Sys, worktree: string, port: int): Record {
    Record(worktree, port, s.next, false, 0, 0)
  }

  predicate RoomOk(file: seq<Record>, room: Room) {
    room.Recorded? ==> InRange(room.port) && room.port !in Taken(PortsOf(file))
  }

  /** Whether the body starts a process over `file`. */
  predicate Spawns(s: Sys, file: seq<Record>, body: Body, room: Room) {
    body.ClaimFor? && ClaimOn(file, body.worktree, s.cap).Vacant? && !room.Nothing?
  }

  predicate Commits(s: Sys, file: seq<Record>, body: Body, room: Room) {
    || body.Keep?
    || ClaimOn(file, body.worktree, s.cap).Held?
    || (Spawns(s, file, body, room) && room.Recorded?)
  }

  /** A body that fails leaves the file as it was, without even the records it
      would have dropped. */
  function Applied(s: Sys, a: Actor, file: seq<Record>, body: Body, room: Room): Sys {
    var spawns := Spawns(s, file, body, room);
    var recorded := spawns && room.Recorded?;
    var claimed := NewRecord(s, if body.ClaimFor? then body.worktree else "", if room.Recorded? then room.port else 0);
    s.(file := if !Commits(s, file, body, room) then s.file else if recorded then file + [claimed] else file,
       live := if recorded || (spawns && room.Unrecorded? && !room.stopped) then s.live + {s.next} else s.live,
       born := if recorded then s.born[s.next := body.worktree] else s.born,
       next := if spawns then s.next + 1 else s.next,
       actors := s.actors[a := if recorded then Starting(claimed) else Idle])
  }

  predicate CanReconcile(s: Sys, a: Actor, room: Room) {
    PhaseOf(s, a).Probing? && RoomOk(Kept(s.file, PhaseOf(s, a).byRecord), room)
  }

  /** Records condemned are committed before anything else happens; otherwise the
      body shares the commit. */
  function Reconciles(s: Sys, a: Actor, room: Room): Sys
    requires CanReconcile(s, a, room)
  {
    var phase := PhaseOf(s, a);
    var kept, condemned := Kept(s.file, phase.byRecord), Condemned(s.file, phase.byRecord);
    if condemned != [] then s.(file := kept, actors := s.actors[a := Signalling(phase.body, condemned)])
    else Applied(s, a, kept, phase.body, room)
  }

  // ----- signalling

  predicate CanCheck(s: Sys, a: Actor) {
    PhaseOf(s, a).Signalling? && PhaseOf(s, a).queue != []
  }

  /** The registry is read again: only the exact record, still on disk, goes on to
      be signalled. */
  function Checks(s: Sys, a: Actor): Sys
    requires CanCheck(s, a)
  {
    var phase := PhaseOf(s, a);
    At(s, a, if phase.queue[0] in s.file then Checked(phase.body, phase.queue, s.file)
             else Signalling(phase.body, phase.queue[1..]))
  }

  predicate CanSignal(s: Sys, a: Actor) {
    PhaseOf(s, a).Checked? && PhaseOf(s, a).queue != []
  }

  /** SIGTERM to the process of the record just seen, or nothing, when it proved
      not to be ours. The process may go on living. */
  function Signals(s: Sys, a: Actor): Sys
    requires CanSignal(s, a)
  {
    var phase := PhaseOf(s, a);
    At(s, a, Signalling(phase.body, phase.queue[1..]))
  }

  predicate CanFollow(s: Sys, a: Actor, room: Room) {
    PhaseOf(s, a).Signalling? && PhaseOf(s, a).queue == [] && RoomOk(s.file, room)
  }

  /** The body once more, over whatever the file then holds. */
  function Follows(s: Sys, a: Actor, room: Room): Sys
    requires CanFollow(s, a, room)
  {
    Applied(s, a, s.file, PhaseOf(s, a).body, room)
  }

  // ----- the starter, and everybody else

  function Stops(s: Sys, a: Actor): Sys
    requires PhaseOf(s, a).Starting?
  {
    var r := PhaseOf(s, a).r;
    s.(live := s.live - {r.process}, actors := s.actors[a := Forgetting(r)])
  }

  function Forgets(s: Sys, a: Actor): Sys
    requires PhaseOf(s, a).Forgetting?
  {
    s.(file := Forgotten(s.file, PhaseOf(s, a).r), actors := s.actors[a := Idle])
  }

  datatype Step =
    | Snapshot(a: Actor, body: Body)
    | Probe(a: Actor, r: Record, verdict: Verdict)
    | DoReconcile(a: Actor, room: Room)
    | Check(a: Actor)
    | Signal(a: Actor)
    | Follow(a: Actor, room: Room)
    | GiveUp(a: Actor)
    | Stop(a: Actor)
    | Forget(a: Actor)
    | Flush(counts: map<string, nat>, aged: Record -> nat, now: int)
    | Die(p: Process)

  ghost predicate Enabled(s: Sys, step: Step) {
    match step
    case Snapshot(a, body) => PhaseOf(s, a).Idle?
    case Probe(a, r, verdict) => CanProbe(s, a, r, verdict)
    case DoReconcile(a, room) => CanReconcile(s, a, room)
    case Check(a) => CanCheck(s, a)
    case Signal(a) => CanSignal(s, a)
    case Follow(a, room) => CanFollow(s, a, room)
    case GiveUp(a) => true
    case Stop(a) => PhaseOf(s, a).Starting?
    case Forget(a) => PhaseOf(s, a).Forgetting?
    case Flush(_, _, _) => true
    case Die(p) => true
  }

  ghost function Next(s: Sys, step: Step): Sys
    requires Enabled(s, step)
  {
    match step
    case Snapshot(a, body) => At(s, a, Probing(body, s.file, map[]))
    case Probe(a, r, verdict) => Probes(s, a, r, verdict)
    case DoReconcile(a, room) => Reconciles(s, a, room)
    case Check(a) => Checks(s, a)
    case Signal(a) => Signals(s, a)
    case Follow(a, room) => Follows(s, a, room)
    case GiveUp(a) => At(s, a, Idle)
    case Stop(a) => Stops(s, a)
    case Forget(a) => Forgets(s, a)
    case Flush(counts, aged, now) => s.(file := Flushed(s.file, counts, aged, now))
    case Die(p) => s.(live := s.live - {p})
  }

  ghost function Run(s: Sys, steps: seq<Step>): Option<Sys>
    decreases |steps|
  {
    if steps == [] then Some(s)
    else if Enabled(s, steps[0]) then Run(Next(s, steps[0]), steps[1..])
    else None
  }

  // ----- the invariant

  /** Some record in the file is that of process `p` in its worktree. */
  ghost predicate HasRecord(s: Sys, p: Process)
    requires p in s.born
  {
    exists r :: r in s.file && r.process == p && r.worktree == s.born[p]
  }

  ghost predicate Known(s: Sys) {
    && (forall p :: p in s.live ==> p < s.next)
    && (forall p :: p in s.born ==> p < s.next)
    && (forall r :: r in s.file ==> r.process < s.next)
  }

  /** No orphan: a live process whose record was committed still has it. */
  ghost predicate Accounted(s: Sys) {
    forall p :: p in s.born && p in s.live ==> HasRecord(s, p)
  }

  /** Its process is gone, or it is on disk as it was marked. */
  ghost predicate Marked(s: Sys, r: Record) {
    r.terminating && r.process < s.next && (r.process in s.live ==> r in s.file)
  }

  ghost predicate PhaseOk(s: Sys, phase: Phase) {
    match phase
    case Idle => true
    case Probing(_, snapshot, byRecord) =>
      && (forall r :: r in snapshot ==> r.process < s.next)
      && (forall r :: r in byRecord && byRecord[r].Gone? ==> r.process !in s.live && r.process < s.next)
    case Signalling(_, queue) => forall r :: r in queue ==> Marked(s, r)
    case Checked(_, queue, seen) => queue != [] && queue[0] in seen && forall r :: r in queue ==> Marked(s, r)
    case Starting(r) => r.process < s.next && !r.terminating
    case Forgetting(r) => r.process < s.next && r.process !in s.live && !r.terminating
  }

  ghost predicate Phases(s: Sys) {
    forall a :: a in s.actors ==> PhaseOk(s, s.actors[a])
  }

  function Max(a: int, b: int): int { if a < b then b else a }

  /** At most one record for each worktree and port, and no more than the cap, as
      far as the file began that way. */
  ghost predicate Bounded(s: Sys, start: seq<Record>) {
    && (forall w :: InWorktree(s.file, w) <= Max(1, InWorktree(start, w)))
    && (forall p :: OnPort(s.file, p) <= Max(1, OnPort(start, p)))
    && |s.file| <= Max(s.cap, |start|)
  }

  ghost predicate Inv(s: Sys, start: seq<Record>) {
    Known(s) && Accounted(s) && Phases(s) && Bounded(s, start)
  }

  /** Managers begin with a file somebody left: nobody is in the middle of
      anything. */
  ghost predicate Begins(s: Sys) {
    Known(s) && Accounted(s) && s.actors == map[]
  }
}

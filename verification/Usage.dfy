/** Flushing tools/call counts to the registry: which deliveries are counted once,
    and the two cases in which they are not. */
module Usage {
  import opened Options

  /** Deliveries to one worktree whose record is not terminating: counted and not
      yet taken, in the batch that is being committed, and already in the
      registry. The batch is a map of its own, or, when nothing had been counted,
      still the live map itself. */
  datatype Batch = Own(count: nat) | Alias

  datatype Sys = Sys(live: nat, batch: Option<Batch>, committed: nat, delivered: nat)

  datatype Step = Deliver | Take(own: bool) | Commit | Fail

  /** The live map is replaced only if it holds anything, for any worktree at all:
      `own` is whether it did. */
  predicate Enabled(s: Sys, step: Step) {
    match step
    case Deliver => true
    case Take(own) => s.batch.None? && (s.live > 0 ==> own)
    case Commit => s.batch.Some?
    case Fail => s.batch.Some?
  }

  /** A batch that is the live map holds, when it is read, whatever has been
      delivered since; a failed commit adds what it reads to the live map. */
  function Next(s: Sys, step: Step): Sys
    requires Enabled(s, step)
  {
    match step
    case Deliver => s.(live := s.live + 1, delivered := s.delivered + 1)
    case Take(own) => if own then s.(live := 0, batch := Some(Own(s.live))) else s.(batch := Some(Alias))
    case Commit =>
      var n := if s.batch.value.Own? then s.batch.value.count else s.live;
      s.(batch := None, committed := s.committed + n)
    case Fail =>
      var n := if s.batch.value.Own? then s.batch.value.count else s.live;
      s.(batch := None, live := s.live + n)
  }

  function Run(s: Sys, steps: seq<Step>): Option<Sys>
    decreases |steps|
  {
    if steps == [] then Some(s)
    else if Enabled(s, steps[0]) then Run(Next(s, steps[0]), steps[1..])
    else None
  }

  /** Every delivery is in exactly one place. */
  predicate Conserved(s: Sys) {
    s.delivered == s.live + s.committed + if s.batch.Some? && s.batch.value.Own? then s.batch.value.count else 0
  }

  /** What is counted twice: deliveries made while the batch is the live map, both
      when it is committed, since they stay in the live map too, and when that
      fails, since they are added to the map they are in. */
  predicate Doubles(s: Sys, step: Step) {
    (step.Commit? || step.Fail?) && s.batch.Some? && s.batch.value.Alias? && s.live > 0
  }

  /** A step keeps every delivery in one place exactly when it does not end a flush
      of the live map itself after something was delivered. */
  lemma StepConserves(s: Sys, step: Step)
    requires Conserved(s) && Enabled(s, step)
    ensures Conserved(Next(s, step)) <==> !Doubles(s, step)
  {
  }

  /** Some step on the way doubles what was delivered during it. */
  ghost predicate EverDoubles(s: Sys, steps: seq<Step>)
    decreases |steps|
  {
    steps != [] && Enabled(s, steps[0]) && (Doubles(s, steps[0]) || EverDoubles(Next(s, steps[0]), steps[1..]))
  }

  /** How many deliveries have been counted more often than once. */
  function Excess(s: Sys): int {
    s.live + s.committed + (if s.batch.Some? && s.batch.value.Own? then s.batch.value.count else 0) - s.delivered
  }

  /** Nothing is ever lost: deliveries are counted too often or exactly once. */
  lemma {:induction false} ExcessGrows(s: Sys, steps: seq<Step>)
    requires Run(s, steps).Some?
    ensures Excess(Run(s, steps).value) >= Excess(s)
    ensures Excess(Run(s, steps).value) == Excess(s) <==> !EverDoubles(s, steps)
    decreases |steps|
  {
    if steps != [] {
      ExcessGrows(Next(s, steps[0]), steps[1..]);
    }
  }

  /** Over a whole run: each delivery is in one place, and so committed at most
      once, exactly when no flush of the live map ended with something in it. */
  lemma FlushedOnce(steps: seq<Step>)
    requires Run(Sys(0, None, 0, 0), steps).Some?
    ensures Conserved(Run(Sys(0, None, 0, 0), steps).value) <==> !EverDoubles(Sys(0, None, 0, 0), steps)
    ensures Excess(Run(Sys(0, None, 0, 0), steps).value) >= 0
  {
    ExcessGrows(Sys(0, None, 0, 0), steps);
  }

  /** The case exists: one call delivered during an empty flush is counted twice. */
  lemma CountedTwice()
    ensures var s := Run(Sys(0, None, 0, 0), [Take(false), Deliver, Commit, Take(true), Commit]);
      s.Some? && s.value.delivered == 1 && s.value.committed == 2
  {
    var s0 := Sys(0, None, 0, 0);
    var s1 := Next(s0, Take(false));
    var s2 := Next(s1, Deliver);
    var s3 := Next(s2, Commit);
    var s4 := Next(s3, Take(true));
    assert [Commit][1..] == [];
    assert Run(s4, [Commit]) == Some(Next(s4, Commit));
    assert [Take(true), Commit][1..] == [Commit];
    assert [Commit, Take(true), Commit][1..] == [Take(true), Commit];
    assert [Deliver, Commit, Take(true), Commit][1..] == [Commit, Take(true), Commit];
    assert [Take(false), Deliver, Commit, Take(true), Commit][1..] == [Deliver, Commit, Take(true), Commit];
  }

  /** And so does the other: when that flush fails, the call is left in the live map
      twice, and the next flush commits it twice. */
  lemma KeptTwice()
    ensures var s := Run(Sys(0, None, 0, 0), [Take(false), Deliver, Fail, Take(true), Commit]);
      s.Some? && s.value.delivered == 1 && s.value.committed == 2 && s.value.live == 0
  {
    var s0 := Sys(0, None, 0, 0);
    var s1 := Next(s0, Take(false));
    var s2 := Next(s1, Deliver);
    var s3 := Next(s2, Fail);
    var s4 := Next(s3, Take(true));
    assert s3.live == 2;
    assert [Commit][1..] == [];
    assert Run(s4, [Commit]) == Some(Next(s4, Commit));
    assert [Take(true), Commit][1..] == [Commit];
    assert [Fail, Take(true), Commit][1..] == [Take(true), Commit];
    assert [Deliver, Fail, Take(true), Commit][1..] == [Fail, Take(true), Commit];
    assert [Take(false), Deliver, Fail, Take(true), Commit][1..] == [Deliver, Fail, Take(true), Commit];
  }
}

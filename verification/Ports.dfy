/** Port allocation: the cyclic walk from a worktree's base port. */
module Ports {
  import opened Options

  const FIRST := 61100
  const LAST := 65100
  const COUNT := LAST - FIRST + 1

  predicate InRange(port: int) {
    FIRST <= port <= LAST
  }

  /** `nextPort`. */
  function NextPort(port: int): int {
    FIRST + (port - FIRST + 1) % COUNT
  }

  /** The `k`th port the walk from `base` visits. */
  function PortAt(base: int, k: nat): int {
    FIRST + (base - FIRST + k) % COUNT
  }

  lemma PortAtNext(base: int, k: nat)
    requires InRange(base)
    ensures InRange(PortAt(base, k)) && NextPort(PortAt(base, k)) == PortAt(base, k + 1)
    ensures PortAt(base, 0) == base
  {
  }

  /** The walk visits every port, and none twice. */
  lemma VisitsEachOnce(base: int, port: int) returns (k: nat)
    requires InRange(base) && InRange(port)
    ensures k < COUNT && PortAt(base, k) == port
    ensures forall j: nat :: j < COUNT && PortAt(base, j) == port ==> j == k
  {
    k := (port - base) % COUNT;
    forall j: nat | j < COUNT && PortAt(base, j) == port ensures j == k {
      assert (base - FIRST + j) % COUNT == port - FIRST;
    }
  }

  function Taken(recorded: seq<int>): set<int> {
    set p | p in recorded
  }

  predicate Free(used: set<int>, busy: set<int>, port: int) {
    port !in used && port !in busy
  }

  /** The first free port of the walk. */
  ghost predicate IsFirstFree(base: int, used: set<int>, busy: set<int>, port: int) {
    exists k: nat :: k < COUNT && port == PortAt(base, k) && Free(used, busy, port)
      && forall j: nat :: j < k ==> !Free(used, busy, PortAt(base, j))
  }

  /** `allocatePort`, over the recorded ports and those nobody can listen on. */
  method AllocatePort(base: int, recorded: seq<int>, busy: set<int>) returns (port: Option<int>)
    requires InRange(base)
    ensures port.Some? ==> InRange(port.value) && IsFirstFree(base, Taken(recorded), busy, port.value)
    ensures port.None? <==> forall p :: InRange(p) ==> !Free(Taken(recorded), busy, p)
  {
    var used: set<int> := {};
    for i := 0 to |recorded|
      invariant used == Taken(recorded[..i])
    {
      used := used + {recorded[i]};
    }
    assert recorded[..|recorded|] == recorded;
    var candidate := base;
    for k := 0 to COUNT
      invariant candidate == PortAt(base, k)
      invariant forall j: nat :: j < k ==> !Free(used, busy, PortAt(base, j))
    {
      PortAtNext(base, k);
      if candidate !in used && candidate !in busy {
        return Some(candidate);
      }
      candidate := NextPort(candidate);
    }
    forall p | InRange(p) ensures !Free(used, busy, p) {
      var k := VisitsEachOnce(base, p);
    }
    return None;
  }

  /** One answer at most: the walk's order decides. */
  lemma FirstFreeIsOne(base: int, used: set<int>, busy: set<int>, p: int, q: int)
    requires IsFirstFree(base, used, busy, p) && IsFirstFree(base, used, busy, q)
    ensures p == q
  {
    var j: nat :| j < COUNT && p == PortAt(base, j) && forall i: nat :: i < j ==> !Free(used, busy, PortAt(base, i));
    var k: nat :| k < COUNT && q == PortAt(base, k) && forall i: nat :: i < k ==> !Free(used, busy, PortAt(base, i));
    assert !(j < k) && !(k < j);
  }

  /** The walk goes up by one, and from the last port to the first. */
  lemma NextMeans(port: int)
    requires InRange(port)
    ensures NextPort(port) == if port == LAST then FIRST else port + 1
  {
  }

  /** Nobody can have the port. */
  predicate Occupied(used: set<int>, busy: set<int>, port: int) {
    port in used || port in busy
  }

  lemma BeforeIsOccupied(base: int, used: set<int>, busy: set<int>, port: int, p: int)
    requires InRange(base) && IsFirstFree(base, used, busy, port) && InRange(p) && Before(base, p, port)
    ensures Occupied(used, busy, p) && InRange(port) && !Occupied(used, busy, port)
  {
    var k: nat :| k < COUNT && port == PortAt(base, k) && Free(used, busy, port)
      && forall j: nat :: j < k ==> !Free(used, busy, PortAt(base, j));
    PortAtNext(base, k);
    var j := VisitsEachOnce(base, p);
    VisitIs(base, p, j);
    VisitIs(base, port, k);
  }

  lemma FirstIsFree(base: int, used: set<int>, busy: set<int>, port: int)
    requires InRange(base) && IsFirstFree(base, used, busy, port)
    ensures InRange(port) && !Occupied(used, busy, port)
  {
    var k: nat :| k < COUNT && port == PortAt(base, k) && Free(used, busy, port);
    PortAtNext(base, k);
  }

  lemma OccupiedBefore(base: int, used: set<int>, busy: set<int>, port: int)
    requires InRange(base) && InRange(port) && !Occupied(used, busy, port)
    requires forall p :: InRange(p) && Before(base, p, port) ==> Occupied(used, busy, p)
    ensures IsFirstFree(base, used, busy, port)
  {
    var k := VisitsEachOnce(base, port);
    VisitIs(base, port, k);
    forall j: nat | j < k ensures !Free(used, busy, PortAt(base, j)) {
      PortAtNext(base, j);
      VisitIs(base, PortAt(base, j), j);
      assert Occupied(used, busy, PortAt(base, j));
    }
  }

  /** The port allocated is free, and none is from the base up to it; or it lies below
      the base, and none is from the base to the last or from the first up to it. */
  lemma FirstFreeMeans(base: int, used: set<int>, busy: set<int>, port: int)
    requires InRange(base)
    ensures IsFirstFree(base, used, busy, port) <==>
      && InRange(port) && !Occupied(used, busy, port)
      && (port >= base ==> forall p :: base <= p < port ==> Occupied(used, busy, p))
      && (port < base ==>
            && (forall p :: base <= p <= LAST ==> Occupied(used, busy, p))
            && (forall p :: FIRST <= p < port ==> Occupied(used, busy, p)))
  {
    if IsFirstFree(base, used, busy, port) {
      FirstIsFree(base, used, busy, port);
      forall p | InRange(p) && Before(base, p, port) ensures Occupied(used, busy, p) {
        BeforeIsOccupied(base, used, busy, port, p);
      }
    } else if InRange(port) && !Occupied(used, busy, port) {
      if forall p :: InRange(p) && Before(base, p, port) ==> Occupied(used, busy, p) {
        OccupiedBefore(base, used, busy, port);
      }
    }
  }

  /** The walk from the base comes to `p` before it comes to `port`. */
  predicate Before(base: int, p: int, port: int) {
    if port >= base then base <= p < port else p >= base || p < port
  }

  lemma VisitIs(base: int, p: int, k: nat)
    requires InRange(base) && InRange(p) && k < COUNT && PortAt(base, k) == p
    ensures k == if p >= base then p - base else p - base + COUNT
  {
  }
}

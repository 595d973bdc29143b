/** One byte budget under all the event streams of a process. Each connection is
    followed through the code that fills, hands over and parses its frames, with
    the releases that stand on each path, in any interleaving. */
module SharedBudget {
  import opened Options
  import opened Sse
  import opened Frames

  /** A frame as a local variable holds it: nil, or a buffer of some capacity. */
  type Frame = Option<nat>

  /** Go's cap. */
  function Cap(frame: Frame): nat {
    if frame.Some? then frame.value else 0
  }

  /** Who fills frames: the connecting call for the first event, then a goroutine.
      Both are inside `readFrame` while Reading or Copying; then the first holds
      what it got, and the goroutine offers it to the reader or to nobody. */
  datatype Filler =
    | Reading(frame: Frame, first: bool)
    | Copying(frame: Frame, next: nat, first: bool)
    | Got(frame: Frame, failed: bool)
    | Offering(frame: Frame, failed: bool)
    | Stopped

  /** Who calls Read. */
  datatype Parser = Waiting | Parsing(frame: Frame)

  datatype Conn = Conn(filler: Filler, parser: Parser, closed: bool)

  datatype Sys = Sys(limit: int, used: int, conns: seq<Conn>)

  datatype Step =
    | Open
    | Grow(i: nat, needed: nat, maxBytes: nat)
    | Copied(i: nat)
    | Finish(i: nat)
    | Break(i: nat)
    | Skip(i: nat)
    | Settle(i: nat, ok: bool)
    | HandOver(i: nat)
    | Abandon(i: nat)
    | Parsed(i: nat, ok: bool)
    | Close(i: nat)

  predicate Enabled(s: Sys, step: Step) {
    match step
    case Open => true
    case Grow(i, needed, maxBytes) =>
      && i < |s.conns| && s.conns[i].filler.Reading?
      && Cap(s.conns[i].filler.frame) < needed <= maxBytes
    case Copied(i) => i < |s.conns| && s.conns[i].filler.Copying?
    case Finish(i) => i < |s.conns| && s.conns[i].filler.Reading? && s.conns[i].filler.frame.Some?
    case Break(i) => i < |s.conns| && s.conns[i].filler.Reading?
    case Skip(i) => i < |s.conns| && s.conns[i].filler.Got? && !s.conns[i].filler.failed
    case Settle(i, ok) => i < |s.conns| && s.conns[i].filler.Got? && (s.conns[i].filler.failed ==> !ok)
    case HandOver(i) => i < |s.conns| && s.conns[i].filler.Offering? && s.conns[i].parser.Waiting?
    case Abandon(i) => i < |s.conns| && s.conns[i].filler.Offering? && s.conns[i].closed
    case Parsed(i, ok) => i < |s.conns| && s.conns[i].parser.Parsing?
    case Close(i) => i < |s.conns|
  }

  function Put(s: Sys, i: nat, c: Conn, used: int): Sys
    requires i < |s.conns|
  {
    s.(conns := s.conns[i := c], used := used)
  }

  /** `readFrame` returning: to the connecting call, or to the goroutine. */
  function Returned(frame: Frame, failed: bool, first: bool): Filler {
    if first then Got(frame, failed) else Offering(frame, failed)
  }

  /** The larger buffer is charged before it is filled; refused, the old one is
      released and the frame fails. */
  function GrowFrom(s: Sys, i: nat, needed: nat, maxBytes: nat): Sys
    requires i < |s.conns| && s.conns[i].filler.Reading?
  {
    var c, f := s.conns[i], s.conns[i].filler;
    var size := Grown(Cap(f.frame), needed, maxBytes);
    if size <= s.limit - s.used then Put(s, i, c.(filler := Copying(f.frame, size, f.first)), s.used + size)
    else Put(s, i, c.(filler := Returned(None, true, f.first)), s.used - Cap(f.frame))
  }

  function Next(s: Sys, step: Step): Sys
    requires Enabled(s, step)
  {
    match step
    case Open => s.(conns := s.conns + [Conn(Reading(None, true), Waiting, false)])
    case Grow(i, needed, maxBytes) => GrowFrom(s, i, needed, maxBytes)
    case Copied(i) =>
      var c, f := s.conns[i], s.conns[i].filler;
      Put(s, i, c.(filler := Reading(Some(f.next), f.first)), s.used - Cap(f.frame))
    case Finish(i) =>
      var c, f := s.conns[i], s.conns[i].filler;
      Put(s, i, c.(filler := Returned(f.frame, false, f.first)), s.used)
    case Break(i) =>
      var c, f := s.conns[i], s.conns[i].filler;
      Put(s, i, c.(filler := Returned(None, true, f.first)), s.used - Cap(f.frame))
    case Skip(i) =>
      var c, f := s.conns[i], s.conns[i].filler;
      Put(s, i, c.(filler := Reading(None, true)), s.used - Cap(f.frame))
    case Settle(i, ok) =>
      var c, f := s.conns[i], s.conns[i].filler;
      var used := if f.failed then s.used else s.used - Cap(f.frame);
      Put(s, i, if ok then c.(filler := Reading(None, false)) else c.(filler := Stopped, closed := true), used)
    case HandOver(i) =>
      var c, f := s.conns[i], s.conns[i].filler;
      Put(s, i, if f.failed then c.(filler := Stopped, closed := true)
                else c.(filler := Reading(None, false), parser := Parsing(f.frame)), s.used)
    case Abandon(i) =>
      var c, f := s.conns[i], s.conns[i].filler;
      Put(s, i, c.(filler := Stopped), s.used - Cap(f.frame))
    case Parsed(i, ok) =>
      var c := s.conns[i];
      Put(s, i, c.(parser := Waiting, closed := c.closed || !ok), s.used - Cap(c.parser.frame))
    case Close(i) =>
      Put(s, i, s.conns[i].(closed := true), s.used)
  }

  function Run(s: Sys, steps: seq<Step>): Option<Sys>
    decreases |steps|
  {
    if steps == [] then Some(s)
    else if Enabled(s, steps[0]) then Run(Next(s, steps[0]), steps[1..])
    else None
  }

  // ----- what is live

  /** The buffers the variables of a connection hold. */
  function Live(c: Conn): nat {
    (match c.filler
     case Reading(frame, _) => Cap(frame)
     case Copying(frame, next, _) => Cap(frame) + next
     case Got(frame, _) => Cap(frame)
     case Offering(frame, _) => Cap(frame)
     case Stopped => 0)
    + if c.parser.Parsing? then Cap(c.parser.frame) else 0
  }

  function Total(conns: seq<Conn>): nat {
    if conns == [] then 0 else Total(conns[..|conns| - 1]) + Live(conns[|conns| - 1])
  }

  /** A frame that failed is nil. */
  predicate FailedIsNil(c: Conn) {
    (c.filler.Got? || c.filler.Offering?) && c.filler.failed ==> c.filler.frame.None?
  }

  /** What is charged is what is live, and never above the limit. */
  predicate Charged(s: Sys) {
    && s.used == Total(s.conns) && s.used <= Max(s.limit, 0)
    && forall c :: c in s.conns ==> FailedIsNil(c)
  }

  lemma {:induction false} TotalPut(conns: seq<Conn>, i: nat, c: Conn)
    requires i < |conns|
    ensures Total(conns[i := c]) == Total(conns) - Live(conns[i]) + Live(c)
    decreases |conns|
  {
    var n := |conns| - 1;
    if i < n {
      TotalPut(conns[..n], i, c);
      assert conns[i := c][..n] == conns[..n][i := c];
    } else {
      assert conns[i := c][..n] == conns[..n];
    }
  }

  lemma PutKeepsCharged(s: Sys, i: nat, c: Conn, used: int)
    requires Charged(s) && i < |s.conns| && FailedIsNil(c)
    requires used == s.used - Live(s.conns[i]) + Live(c) && used <= Max(s.limit, 0)
    ensures Charged(Put(s, i, c, used))
  {
    TotalPut(s.conns, i, c);
  }

  /** The one connection a step moves: what the code charges and releases on that
      path is what its variables gain and lose. */
  lemma StepBalances(s: Sys, step: Step)
    requires Charged(s) && Enabled(s, step) && !step.Open?
    ensures var s', i := Next(s, step), step.i;
      && |s'.conns| == |s.conns| && s' == Put(s, i, s'.conns[i], s'.used)
      && FailedIsNil(s'.conns[i]) && s'.used == s.used - Live(s.conns[i]) + Live(s'.conns[i])
      && s'.used <= Max(s.limit, 0)
  {
    assert s.conns[step.i] in s.conns && FailedIsNil(s.conns[step.i]);
  }

  lemma NextKeepsCharged(s: Sys, step: Step)
    requires Charged(s) && Enabled(s, step)
    ensures Charged(Next(s, step)) && Next(s, step).limit == s.limit
  {
    if step.Open? {
      assert (s.conns + [Conn(Reading(None, true), Waiting, false)])[..|s.conns|] == s.conns;
    } else {
      StepBalances(s, step);
      PutKeepsCharged(s, step.i, Next(s, step).conns[step.i], Next(s, step).used);
    }
  }

  /** In every run the budget holds exactly the capacity of the buffers that are
      still in use, within its limit: each is released once, on whatever path it
      goes out of use. */
  lemma {:induction false} BudgetIsLiveCapacity(s: Sys, steps: seq<Step>)
    requires Charged(s)
    ensures Run(s, steps).Some? ==> Charged(Run(s, steps).value) && Run(s, steps).value.limit == s.limit
    decreases |steps|
  {
    if steps != [] && Enabled(s, steps[0]) {
      NextKeepsCharged(s, steps[0]);
      BudgetIsLiveCapacity(Next(s, steps[0]), steps[1..]);
    }
  }

  /** Once every connection has stopped and every frame is parsed, nothing is
      charged. */
  lemma NothingLeaks(limit: int, steps: seq<Step>)
    requires Run(Sys(limit, 0, []), steps).Some?
    requires forall c :: c in Run(Sys(limit, 0, []), steps).value.conns ==> c.filler.Stopped? && c.parser.Waiting?
    ensures Run(Sys(limit, 0, []), steps).value.used == 0
  {
    BudgetIsLiveCapacity(Sys(limit, 0, []), steps);
    AllStopped(Run(Sys(limit, 0, []), steps).value.conns);
  }

  lemma {:induction false} AllStopped(conns: seq<Conn>)
    requires forall c :: c in conns ==> c.filler.Stopped? && c.parser.Waiting?
    ensures Total(conns) == 0
    decreases |conns|
  {
    if conns != [] {
      assert conns[|conns| - 1] in conns;
      assert forall c :: c in conns[..|conns| - 1] ==> c in conns;
      AllStopped(conns[..|conns| - 1]);
    }
  }

  // ----- readFrame, step by step

  /** The steps of connection `i` from the `k`th part on, until its frame is whole or
      fails. */
  function Fills(i: nat, parts: seq<Part>, k: nat, capacity: nat, read: Bytes, lineEmpty: bool, maxBytes: nat,
                 room: int): seq<Step>
    requires k <= |parts|
    decreases |parts| - k, 1
  {
    if k == |parts| then []
    else
      var more := |read| + |parts[k].text|;
      if more > maxBytes then [Break(i)]
      else if !Fits(capacity, more, maxBytes, room) then [Grow(i, more, maxBytes)]
      else Grows(i, capacity, more, maxBytes) + FillsAfter(i, parts, k, capacity, read, lineEmpty, maxBytes, room)
  }

  function Grows(i: nat, capacity: nat, needed: nat, maxBytes: nat): seq<Step> {
    if needed > capacity then [Grow(i, needed, maxBytes), Copied(i)] else []
  }

  /** The steps after the `k`th part was appended. */
  function FillsAfter(i: nat, parts: seq<Part>, k: nat, capacity: nat, read: Bytes, lineEmpty: bool, maxBytes: nat,
                      room: int): seq<Step>
    requires k < |parts|
    decreases |parts| - k, 0
  {
    var more := read + parts[k].text;
    match Comes(parts[k], more, lineEmpty, maxBytes, true)
    case None =>
      Fills(i, parts, k + 1, Capacity(capacity, |more|, maxBytes), more, BlankAfter(parts[k], lineEmpty), maxBytes,
            room)
    case Some(outcome) => if outcome.Whole? then [Finish(i)] else [Break(i)]
  }

  /** A variable that holds a buffer of `capacity`, or nil. */
  function Holding(capacity: nat): Frame {
    if capacity == 0 then None else Some(capacity)
  }

  /** Connection `i` with its filler moved on. */
  function Moved(s: Sys, i: nat, filler: Filler, used: int): Sys
    requires i < |s.conns|
  {
    Put(s, i, s.conns[i].(filler := filler), used)
  }

  /** The same connection reading into a buffer of another capacity. */
  function Refilled(s: Sys, i: nat, capacity: nat, next: nat, first: bool): Sys
    requires i < |s.conns|
  {
    Moved(s, i, Reading(Holding(next), first), s.used - capacity + next)
  }

  /** Where `readFrame` leaves the connection. */
  function Left(s: Sys, i: nat, capacity: nat, fate: Fate, first: bool): Sys
    requires i < |s.conns|
  {
    match fate
    case Kept(kept) => Moved(s, i, Returned(Holding(kept), false, first), s.used - capacity + kept)
    case _ => Moved(s, i, Returned(None, true, first), s.used - capacity)
  }

  lemma RunOne(s: Sys, step: Step, rest: seq<Step>)
    requires Enabled(s, step)
    ensures Run(s, [step] + rest) == Run(Next(s, step), rest)
  {
    assert ([step] + rest)[1..] == rest;
  }

  /** A buffer grown: charged, copied into, the old one released. */
  lemma GrowthIs(s: Sys, i: nat, capacity: nat, first: bool, needed: nat, maxBytes: nat)
    requires i < |s.conns| && s.conns[i].filler == Reading(Holding(capacity), first) && capacity < needed <= maxBytes
    requires Fits(capacity, needed, maxBytes, s.limit - s.used + capacity)
    ensures Enabled(s, Grow(i, needed, maxBytes)) && Enabled(Next(s, Grow(i, needed, maxBytes)), Copied(i))
    ensures Next(Next(s, Grow(i, needed, maxBytes)), Copied(i)) ==
      Refilled(s, i, capacity, Grown(capacity, needed, maxBytes), first)
  {
    var next := Grown(capacity, needed, maxBytes);
    assert Next(s, Grow(i, needed, maxBytes)) == Moved(s, i, Copying(Holding(capacity), next, first), s.used + next);
  }

  lemma RunTwo(s: Sys, one: Step, two: Step, rest: seq<Step>)
    requires Enabled(s, one) && Enabled(Next(s, one), two)
    ensures Run(s, [one, two] + rest) == Run(Next(Next(s, one), two), rest)
  {
    RunOne(s, one, [two] + rest);
    RunOne(Next(s, one), two, rest);
    assert [one, two] + rest == [one] + ([two] + rest);
  }

  lemma GrowsTo(s: Sys, i: nat, capacity: nat, first: bool, needed: nat, maxBytes: nat, rest: seq<Step>)
    requires i < |s.conns| && s.conns[i].filler == Reading(Holding(capacity), first) && needed <= maxBytes
    requires Fits(capacity, needed, maxBytes, s.limit - s.used + capacity)
    ensures Run(s, Grows(i, capacity, needed, maxBytes) + rest) ==
      Run(Refilled(s, i, capacity, Capacity(capacity, needed, maxBytes), first), rest)
  {
    if needed > capacity {
      GrowthIs(s, i, capacity, first, needed, maxBytes);
      RunTwo(s, Grow(i, needed, maxBytes), Copied(i), rest);
    } else {
      LeftTwice(s, i, capacity, capacity, Dropped, first);
      assert [] + rest == rest;
    }
  }

  lemma RefusesGrowth(s: Sys, i: nat, capacity: nat, first: bool, needed: nat, maxBytes: nat)
    requires i < |s.conns| && s.conns[i].filler == Reading(Holding(capacity), first) && capacity < needed <= maxBytes
    requires !Fits(capacity, needed, maxBytes, s.limit - s.used + capacity)
    ensures Run(s, [Grow(i, needed, maxBytes)]) == Some(Left(s, i, capacity, Refused, first))
  {
    RunOne(s, Grow(i, needed, maxBytes), []);
    assert [Grow(i, needed, maxBytes)] + [] == [Grow(i, needed, maxBytes)];
  }

  /** The last step: the frame is handed back, or dropped. */
  lemma Ends(s: Sys, i: nat, capacity: nat, first: bool, whole: bool)
    requires i < |s.conns| && s.conns[i].filler == Reading(Holding(capacity), first) && (whole ==> capacity > 0)
    ensures Run(s, if whole then [Finish(i)] else [Break(i)]) ==
      Some(Left(s, i, capacity, if whole then Kept(capacity) else Dropped, first))
  {
    var step := if whole then Finish(i) else Break(i);
    RunOne(s, step, []);
    assert [step] + [] == [step];
  }

  /** Moving twice is moving once. */
  lemma LeftTwice(s: Sys, i: nat, capacity: nat, next: nat, fate: Fate, first: bool)
    requires i < |s.conns|
    ensures Left(Refilled(s, i, capacity, next, first), i, next, fate, first) ==
      Left(s, i, capacity, fate, first)
    ensures s.conns[i].filler == Reading(Holding(capacity), first) && next == capacity ==>
      Refilled(s, i, capacity, next, first) == s
  {
    assert s.conns[i := s.conns[i]] == s.conns;
  }

  /** A part too many, or one the budget has no room for. */
  lemma FillsShort(s: Sys, i: nat, parts: seq<Part>, k: nat, capacity: nat, read: Bytes, lineEmpty: bool,
                   maxBytes: nat, room: int, first: bool)
    requires k < |parts| && |read| <= capacity
    requires i < |s.conns| && s.conns[i].filler == Reading(Holding(capacity), first)
    requires room == s.limit - s.used + capacity
    requires |read| + |parts[k].text| > maxBytes || !Fits(capacity, |read| + |parts[k].text|, maxBytes, room)
    ensures Run(s, Fills(i, parts, k, capacity, read, lineEmpty, maxBytes, room)) ==
      Some(Left(s, i, capacity, FateOf(parts, k, capacity, read, lineEmpty, maxBytes, room), first))
  {
    var more := |read| + |parts[k].text|;
    assert |read + parts[k].text| == more;
    if more > maxBytes {
      Ends(s, i, capacity, first, false);
    } else {
      RefusesGrowth(s, i, capacity, first, more, maxBytes);
    }
  }

  /** A part that is appended: what is left to do is done on the buffer it is in. */
  lemma FillsGrown(s: Sys, i: nat, parts: seq<Part>, k: nat, capacity: nat, read: Bytes, lineEmpty: bool,
                   maxBytes: nat, room: int, first: bool)
    requires k < |parts|
    requires i < |s.conns| && s.conns[i].filler == Reading(Holding(capacity), first)
    requires room == s.limit - s.used + capacity
    requires |read| + |parts[k].text| <= maxBytes && Fits(capacity, |read| + |parts[k].text|, maxBytes, room)
    ensures Run(s, Fills(i, parts, k, capacity, read, lineEmpty, maxBytes, room)) ==
      Run(Refilled(s, i, capacity, Capacity(capacity, |read| + |parts[k].text|, maxBytes), first),
          FillsAfter(i, parts, k, capacity, read, lineEmpty, maxBytes, room))
  {
    GrowsTo(s, i, capacity, first, |read| + |parts[k].text|, maxBytes,
            FillsAfter(i, parts, k, capacity, read, lineEmpty, maxBytes, room));
  }

  /** A call of `readFrame` is a sequence of this budget's steps, and leaves the
      connection with the buffer `Frames.ReadFrame` returns, or with none. */
  lemma {:induction false} FrameIsFilled(s: Sys, i: nat, parts: seq<Part>, k: nat, capacity: nat, read: Bytes,
                                         lineEmpty: bool, maxBytes: nat, room: int, first: bool)
    requires Stream(parts) && k < |parts| && |read| <= capacity
    requires i < |s.conns| && s.conns[i].filler == Reading(Holding(capacity), first)
    requires room == s.limit - s.used + capacity
    ensures Run(s, Fills(i, parts, k, capacity, read, lineEmpty, maxBytes, room)) ==
      Some(Left(s, i, capacity, FateOf(parts, k, capacity, read, lineEmpty, maxBytes, room), first))
    decreases |parts| - k, 1
  {
    var more := |read| + |parts[k].text|;
    if more > maxBytes || !Fits(capacity, more, maxBytes, room) {
      FillsShort(s, i, parts, k, capacity, read, lineEmpty, maxBytes, room, first);
    } else {
      var next := Capacity(capacity, more, maxBytes);
      FillsGrown(s, i, parts, k, capacity, read, lineEmpty, maxBytes, room, first);
      FillsOn(Refilled(s, i, capacity, next, first), i, parts, k, capacity, read, lineEmpty, maxBytes, room, first);
      LeftTwice(s, i, capacity, next, FateOf(parts, k, capacity, read, lineEmpty, maxBytes, room), first);
    }
  }

  /** The same, once the `k`th part is appended. */
  lemma {:induction false} FillsOn(s: Sys, i: nat, parts: seq<Part>, k: nat, capacity: nat, read: Bytes,
                                   lineEmpty: bool, maxBytes: nat, room: int, first: bool)
    requires Stream(parts) && k < |parts|
    requires |read| + |parts[k].text| <= maxBytes && Fits(capacity, |read| + |parts[k].text|, maxBytes, room)
    requires var next := Capacity(capacity, |read| + |parts[k].text|, maxBytes);
      i < |s.conns| && s.conns[i].filler == Reading(Holding(next), first) && room == s.limit - s.used + next
    ensures Run(s, FillsAfter(i, parts, k, capacity, read, lineEmpty, maxBytes, room)) ==
      Some(Left(s, i, Capacity(capacity, |read| + |parts[k].text|, maxBytes),
                FateOf(parts, k, capacity, read, lineEmpty, maxBytes, room), first))
    decreases |parts| - k, 0
  {
    var more := read + parts[k].text;
    var next := Capacity(capacity, |more|, maxBytes);
    match Comes(parts[k], more, lineEmpty, maxBytes, true)
    case None =>
      FrameIsFilled(s, i, parts, k + 1, next, more, BlankAfter(parts[k], lineEmpty), maxBytes, room, first);
    case Some(outcome) =>
      Ends(s, i, next, first, outcome.Whole?);
  }

  // ----- opening and closing

  /** Inside the call that connects: its first event has not been judged. */
  predicate Connecting(c: Conn) {
    c.filler.Got? || ((c.filler.Reading? || c.filler.Copying?) && c.filler.first)
  }

  /** A connection begins in the call that connects, leaves it only when the first
      event is judged, and hands no frame over before that. */
  lemma ConnectsFirst(s: Sys, step: Step, i: nat)
    requires Enabled(s, step) && i < |Next(s, step).conns|
    ensures i == |s.conns| ==> Connecting(Next(s, step).conns[i]) && !Next(s, step).conns[i].closed
    ensures i < |s.conns| && Connecting(s.conns[i]) ==>
      && step != HandOver(i)
      && (step != Settle(i, true) && step != Settle(i, false) ==> Connecting(Next(s, step).conns[i]))
      && (step == Settle(i, true) ==> Next(s, step).conns[i].filler == Reading(None, false))
      && (step == Settle(i, false) ==> Next(s, step).conns[i].filler.Stopped?)
  {
  }

  /** A connection is closed exactly by whoever closes it, a first event that is not
      accepted, a frame that fails and is handed over, or one that says nothing its
      reader understands; and it stays closed. */
  lemma ClosedExactly(s: Sys, step: Step, i: nat)
    requires Enabled(s, step) && i < |s.conns|
    ensures i < |Next(s, step).conns|
    ensures Next(s, step).conns[i].closed <==>
      || s.conns[i].closed || step == Close(i) || step == Settle(i, false) || step == Step.Parsed(i, false)
      || (step == HandOver(i) && s.conns[i].filler.Offering? && s.conns[i].filler.failed)
  {
  }

  /** In every run, nobody fills frames any more only where the connection is closed. */
  lemma {:induction false} StoppedIsClosed(s: Sys, steps: seq<Step>)
    requires forall c :: c in s.conns && c.filler.Stopped? ==> c.closed
    ensures Run(s, steps).Some? ==> forall c :: c in Run(s, steps).value.conns && c.filler.Stopped? ==> c.closed
    decreases |steps|
  {
    if steps != [] && Enabled(s, steps[0]) {
      StepStops(s, steps[0]);
      StoppedIsClosed(Next(s, steps[0]), steps[1..]);
    }
  }

  lemma StepStops(s: Sys, step: Step)
    requires Enabled(s, step) && forall c :: c in s.conns && c.filler.Stopped? ==> c.closed
    ensures forall c :: c in Next(s, step).conns && c.filler.Stopped? ==> c.closed
  {
    var s' := Next(s, step);
    forall k | 0 <= k < |s'.conns| && s'.conns[k].filler.Stopped? ensures s'.conns[k].closed {
      if k < |s.conns| {
        assert s.conns[k] in s.conns;
      }
    }
  }
}

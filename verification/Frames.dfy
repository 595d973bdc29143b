/** Reading one frame from a stream that arrives in parts, its buffer charged to a
    budget that all connections share. */
module Frames {
  import opened Options
  import opened Sse

  // ----- the stream

  /** What one call of the buffered reader gives: a line, or a full buffer
      without one, or what was left when the stream ended or broke. */
  datatype Part = Line(text: Bytes) | Full(text: Bytes) | Ended(text: Bytes) | Broken(text: Bytes)

  predicate PartOk(p: Part) {
    if p.Line? then p.text != [] && p.text[|p.text| - 1] == NL && NL !in p.text[..|p.text| - 1]
    else NL !in p.text && (p.Full? ==> p.text != [])
  }

  predicate Last(p: Part) {
    p.Ended? || p.Broken?
  }

  /** A stream, whichever way it was cut: only its last part says it is over. */
  predicate Stream(parts: seq<Part>) {
    && parts != [] && Last(parts[|parts| - 1])
    && forall k :: 0 <= k < |parts| ==> PartOk(parts[k]) && (k < |parts| - 1 ==> !Last(parts[k]))
  }

  function Content(parts: seq<Part>): Bytes {
    if parts == [] then [] else parts[0].text + Content(parts[1..])
  }

  // ----- the frame a stream begins with

  predicate Blank(text: Bytes) {
    forall k :: 0 <= k < |text| ==> text[k] == CR || text[k] == NL
  }

  /** Where the first line that is blank ends, looking from `i` on; `empty` says
      the line read so far is blank. */
  function BlankEnd(s: Bytes, i: nat, empty: bool): (n: Option<nat>)
    requires i <= |s|
    ensures n.Some? ==> i < n.value <= |s|
    decreases |s| - i
  {
    if i == |s| then None
    else if s[i] == NL then if empty then Some(i + 1) else BlankEnd(s, i + 1, true)
    else BlankEnd(s, i + 1, empty && s[i] == CR)
  }

  datatype Outcome = Whole(frame: Bytes) | TooLarge | Failed | Exhausted

  /** What a stream gives, in terms of its bytes alone. */
  function Yield(content: Bytes, ended: bool, maxBytes: nat): Outcome {
    match BlankEnd(content, 0, true)
    case Some(n) => if n <= maxBytes then Whole(content[..n]) else TooLarge
    case None =>
      if |content| > maxBytes then TooLarge
      else if ended && content != [] then Whole(content)
      else Failed
  }

  /** The frame is the shortest prefix that ends in a blank line. */
  ghost predicate EndsBlank(s: Bytes, n: nat)
    requires n <= |s|
  {
    exists j :: LineStart(s, j) && j < n && s[n - 1] == NL && Blank(s[j..n])
  }

  predicate LineStart(s: Bytes, j: int) {
    0 <= j <= |s| && (j == 0 || s[j - 1] == NL)
  }

  lemma {:induction false} BlankEndIsFirst(s: Bytes, start: nat, i: nat, empty: bool)
    requires start <= i <= |s| && LineStart(s, start) && (forall k :: start <= k < i ==> s[k] != NL)
    requires empty <==> forall k :: start <= k < i ==> s[k] == CR
    ensures var n := BlankEnd(s, i, empty);
      && (n.Some? ==> EndsBlank(s, n.value))
      && (forall m :: i < m <= |s| && (n.Some? ==> m < n.value) ==> !EndsBlank(s, m))
    decreases |s| - i
  {
    if i < |s| {
      var n := BlankEnd(s, i, empty);
      if s[i] == NL {
        if empty {
          assert Blank(s[start..i + 1]);
          assert EndsBlank(s, i + 1);
        } else {
          BlankEndIsFirst(s, i + 1, i + 1, true);
          assert !EndsBlank(s, i + 1) by {
            SpoiltLine(s, start, i);
          }
        }
      } else {
        BlankEndIsFirst(s, start, i + 1, empty && s[i] == CR);
        assert !EndsBlank(s, i + 1);
      }
    }
  }

  /** A line with anything else in it is not blank. */
  lemma SpoiltLine(s: Bytes, start: nat, i: nat)
    requires start <= i < |s| && LineStart(s, start) && s[i] == NL
    requires exists k :: start <= k < i && s[k] != CR
    requires forall k :: start <= k < i ==> s[k] != NL
    ensures !EndsBlank(s, i + 1)
  {
    var k :| start <= k < i && s[k] != CR;
    forall j | LineStart(s, j) && j < i + 1 ensures !Blank(s[j..i + 1]) {
      assert j <= start;
      assert s[j..i + 1][k - j] == s[k];
    }
  }

  // ----- a part at a time

  /** `text` stands at `i`. */
  ghost predicate Stands(s: Bytes, i: nat, text: Bytes) {
    i + |text| <= |s| && forall k :: 0 <= k < |text| ==> s[i + k] == text[k]
  }

  lemma {:induction false} ScanPlain(s: Bytes, i: nat, empty: bool, text: Bytes)
    requires Stands(s, i, text) && NL !in text
    ensures BlankEnd(s, i, empty) == BlankEnd(s, i + |text|, empty && Blank(text))
    decreases |text|
  {
    if text != [] {
      assert s[i] == text[0] && text[0] in text;
      forall k | 0 <= k < |text[1..]| ensures s[i + 1 + k] == text[1..][k] {
        assert s[i + (k + 1)] == text[k + 1];
      }
      ScanPlain(s, i + 1, empty && s[i] == CR, text[1..]);
      assert Blank(text) <==> text[0] == CR && Blank(text[1..]) by {
        assert text == [text[0]] + text[1..];
      }
    }
  }

  lemma ScanLine(s: Bytes, i: nat, empty: bool, text: Bytes)
    requires Stands(s, i, text) && PartOk(Line(text))
    ensures BlankEnd(s, i, empty) == if empty && Blank(text) then Some(i + |text|) else BlankEnd(s, i + |text|, true)
  {
    var plain := text[..|text| - 1];
    ScanPlain(s, i, empty, plain);
    assert s[i + |plain|] == NL;
    assert Blank(text) <==> Blank(plain) by {
      assert text == plain + [NL];
    }
  }

  lemma PartScans(s: Bytes, i: nat, empty: bool, part: Part)
    requires Stands(s, i, part.text) && PartOk(part)
    ensures BlankEnd(s, i, empty) ==
      if part.Line? then if empty && Blank(part.text) then Some(i + |part.text|) else BlankEnd(s, i + |part.text|, true)
      else BlankEnd(s, i + |part.text|, empty && Blank(part.text))
  {
    if part.Line? {
      ScanLine(s, i, empty, part.text);
    } else {
      ScanPlain(s, i, empty, part.text);
    }
  }

  // ----- the budget

  function Max(a: int, b: int): int { if a < b then b else a }
  function Min(a: int, b: int): int { if a < b then a else b }

  class Budget {
    const limit: int
    var used: int
    var peak: int

    constructor (limit: int)
      ensures this.limit == limit && used == 0 && peak == 0 && Within()
    {
      this.limit := limit;
      used, peak := 0, 0;
    }

    predicate Within()
      reads this
    {
      0 <= used <= Max(limit, 0) && used <= peak <= Max(limit, 0)
    }

    method Acquire(n: int) returns (granted: bool)
      requires Within() && n >= 0
      modifies this
      ensures Within() && granted == (n <= limit - old(used))
      ensures used == (if granted then old(used) + n else old(used))
      ensures peak == Max(old(peak), used)
    {
      if n > limit - used {
        return false;
      }
      used := used + n;
      peak := Max(peak, used);
      return true;
    }

    method Release(n: int)
      requires Within() && 0 <= n <= used
      modifies this
      ensures Within() && used == old(used) - n && peak == old(peak)
    {
      used := used - n;
    }
  }

  // ----- readFrame

  /** How large the next buffer is. */
  function Grown(capacity: nat, needed: nat, maxBytes: nat): nat {
    Min(maxBytes, Max(needed, Max(128, 2 * capacity)))
  }

  /** A buffer is never more than twice what it holds, but for the smallest. */
  predicate Tight(capacity: nat, len: nat, maxBytes: nat) {
    len <= capacity && capacity <= maxBytes && capacity <= Max(128, 2 * len)
  }

  /** The capacity a buffer has once it holds `needed` bytes. */
  function Capacity(capacity: nat, needed: nat, maxBytes: nat): nat {
    if needed > capacity then Grown(capacity, needed, maxBytes) else capacity
  }

  /** Whether it can get there with `room` bytes of the budget, the buffer's own
      included: while it grows both buffers are charged. */
  predicate Fits(capacity: nat, needed: nat, maxBytes: nat, room: int) {
    needed > capacity ==> capacity + Grown(capacity, needed, maxBytes) <= room
  }

  /** Room for `more` bytes after the first `len`: the buffer, or a larger one,
      for which the budget is charged before the old one is given back. */
  method Grow(frame: array<Byte>, len: nat, more: nat, maxBytes: nat, budget: Budget)
    returns (grown: array<Byte>, ok: bool)
    requires budget.Within() && frame.Length <= budget.used
    requires Tight(frame.Length, len, maxBytes) && len + more <= maxBytes
    modifies budget
    ensures budget.Within()
    ensures !ok ==> budget.used == old(budget.used) - frame.Length
    ensures ok ==> budget.used == old(budget.used) - frame.Length + grown.Length
    ensures ok ==> grown == frame || fresh(grown)
    ensures ok ==> len + more <= grown.Length && Tight(grown.Length, len + more, maxBytes)
    ensures ok ==> grown[..len] == frame[..len]
    ensures ok <==> Fits(frame.Length, len + more, maxBytes, budget.limit - old(budget.used) + frame.Length)
    ensures ok ==> grown.Length == Capacity(frame.Length, len + more, maxBytes)
  {
    grown, ok := frame, true;
    var needed := len + more;
    if needed > frame.Length {
      var size := Grown(frame.Length, needed, maxBytes);
      ok := budget.Acquire(size);
      if !ok {
        budget.Release(frame.Length);
        return;
      }
      grown := new Byte[size];
      forall k | 0 <= k < len {
        grown[k] := frame[k];
      }
      budget.Release(frame.Length);
    }
  }

  /** One part appended, in a larger buffer if need be. */
  method Take(frame: array<Byte>, len: nat, text: Bytes, maxBytes: nat, budget: Budget)
    returns (grown: array<Byte>, ok: bool)
    requires budget.Within() && frame.Length <= budget.used
    requires Tight(frame.Length, len, maxBytes) && len + |text| <= maxBytes
    modifies budget, frame
    ensures budget.Within()
    ensures !ok ==> budget.used == old(budget.used) - frame.Length
    ensures ok ==> budget.used == old(budget.used) - frame.Length + grown.Length
    ensures ok ==> grown == frame || fresh(grown)
    ensures ok ==> Tight(grown.Length, len + |text|, maxBytes)
    ensures ok ==> grown[..len + |text|] == old(frame[..len]) + text
    ensures ok <==> Fits(frame.Length, len + |text|, maxBytes, budget.limit - old(budget.used) + frame.Length)
    ensures ok ==> grown.Length == Capacity(frame.Length, len + |text|, maxBytes)
  {
    grown, ok := Grow(frame, len, |text|, maxBytes, budget);
    if ok {
      ghost var before := grown[..len];
      forall k | 0 <= k < |text| {
        grown[len + k] := text[k];
      }
      assert grown[..len + |text|] == before + text;
    }
  }

  /** What comes of one part. */
  datatype Took = Added | Over | Spent

  /** One part checked against the limit and appended; the buffer's charge is given
      back when it cannot be. */
  method TakePart(frame: array<Byte>, len: nat, text: Bytes, maxBytes: nat, budget: Budget)
    returns (grown: array<Byte>, took: Took)
    requires budget.Within() && frame.Length <= budget.used && Tight(frame.Length, len, maxBytes)
    modifies budget, frame
    ensures budget.Within()
    ensures took.Over? <==> len + |text| > maxBytes
    ensures !took.Added? ==> budget.used == old(budget.used) - frame.Length
    ensures took.Added? ==> budget.used == old(budget.used) - frame.Length + grown.Length
    ensures took.Added? ==> grown == frame || fresh(grown)
    ensures took.Added? ==> Tight(grown.Length, len + |text|, maxBytes)
    ensures took.Added? ==> grown[..len + |text|] == old(frame[..len]) + text
    ensures took.Spent? <==>
      && len + |text| <= maxBytes
      && !Fits(frame.Length, len + |text|, maxBytes, budget.limit - old(budget.used) + frame.Length)
    ensures took.Added? ==> grown.Length == Capacity(frame.Length, len + |text|, maxBytes)
  {
    if |text| > maxBytes - len {
      budget.Release(frame.Length);
      return frame, Over;
    }
    var ok;
    grown, ok := Take(frame, len, text, maxBytes, budget);
    took := if ok then Added else Spent;
  }

  /** `read` is the front of the stream, with no blank line in it; the line being
      read is blank so far if `lineEmpty` says so. */
  ghost predicate Reading(content: Bytes, read: Bytes, lineEmpty: bool) {
    && read <= content
    && BlankEnd(content, 0, true) == BlankEnd(content, |read|, lineEmpty)
  }

  /** What one more part makes of the frame, which is `more` with it: an outcome, or
      None when reading goes on. `fits` is what the budget says of the buffer. */
  function Comes(part: Part, more: Bytes, lineEmpty: bool, maxBytes: nat, fits: bool): Option<Outcome> {
    if |more| > maxBytes then Some(TooLarge)
    else if !fits then Some(Exhausted)
    else if part.Line? then if lineEmpty && Blank(part.text) then Some(Whole(more)) else None
    else if part.Ended? && more != [] then Some(Whole(more))
    else if Last(part) then Some(Failed)
    else None
  }

  /** Whether the line being read is blank so far, once `part` is read too. */
  predicate BlankAfter(part: Part, lineEmpty: bool) {
    part.Line? || (lineEmpty && Blank(part.text))
  }

  /** What the stream gives, once its bytes up to `more` are read. */
  lemma PartBlank(content: Bytes, read: Bytes, lineEmpty: bool, part: Part, more: Bytes)
    requires Reading(content, read, lineEmpty) && PartOk(part) && more == read + part.text && more <= content
    ensures BlankEnd(content, 0, true) ==
      if part.Line? && lineEmpty && Blank(part.text) then Some(|more|)
      else BlankEnd(content, |more|, BlankAfter(part, lineEmpty))
  {
    forall k | 0 <= k < |part.text| ensures content[|read| + k] == part.text[k] {
      assert content[|read| + k] == more[|read| + k];
    }
    PartScans(content, |read|, lineEmpty, part);
  }

  /** One more part read: the outcome is what the stream gives, or reading goes on. */
  lemma OneMore(content: Bytes, read: Bytes, lineEmpty: bool, part: Part, more: Bytes, ended: bool, maxBytes: nat)
    requires Reading(content, read, lineEmpty) && PartOk(part) && more == read + part.text && more <= content
    requires Last(part) ==> more == content && part.Ended? == ended
    ensures var comes := Comes(part, more, lineEmpty, maxBytes, true);
      if comes.Some? then comes.value == Yield(content, ended, maxBytes)
      else Reading(content, more, BlankAfter(part, lineEmpty))
  {
    PartBlank(content, read, lineEmpty, part, more);
    assert content[..|more|] == more;
  }

  /** What a buffer becomes on the way through the parts, in `room` bytes of the
      budget: a frame's, of some capacity, or refused by the budget, or dropped
      with a frame that fails. */
  datatype Fate = Kept(capacity: nat) | Refused | Dropped

  /** What an outcome means for the buffer. */
  function FateAs(outcome: Outcome, capacity: nat): Fate {
    match outcome
    case Whole(_) => Kept(capacity)
    case Exhausted => Refused
    case _ => Dropped
  }

  function FateOf(parts: seq<Part>, k: nat, capacity: nat, read: Bytes, lineEmpty: bool, maxBytes: nat,
                  room: int): Fate
    requires k <= |parts|
    decreases |parts| - k
  {
    if k == |parts| then Dropped
    else
      var more := read + parts[k].text;
      var next := Capacity(capacity, |more|, maxBytes);
      var comes := Comes(parts[k], more, lineEmpty, maxBytes, Fits(capacity, |more|, maxBytes, room));
      if comes.Some? then FateAs(comes.value, next)
      else FateOf(parts, k + 1, next, more, BlankAfter(parts[k], lineEmpty), maxBytes, room)
  }

  /** The budget refuses only a stream it has no room for twice over. */
  lemma {:induction false} RefusedMeans(parts: seq<Part>, k: nat, capacity: nat, read: Bytes, lineEmpty: bool,
                                        maxBytes: nat, room: int)
    requires k <= |parts| && capacity <= maxBytes
    requires FateOf(parts, k, capacity, read, lineEmpty, maxBytes, room).Refused?
    ensures room < 2 * maxBytes
    decreases |parts| - k
  {
    var more := read + parts[k].text;
    if Fits(capacity, |more|, maxBytes, room) {
      RefusedMeans(parts, k + 1, Capacity(capacity, |more|, maxBytes), more, BlankAfter(parts[k], lineEmpty), maxBytes,
                   room);
    }
  }

  /** The first `taken` parts are `read`, into a buffer of `capacity` on its way to
      `fate`. */
  ghost predicate Heading(parts: seq<Part>, taken: nat, read: Bytes, lineEmpty: bool, capacity: nat, maxBytes: nat,
                          room: int, fate: Fate)
  {
    && taken < |parts| && (forall k :: 0 <= k < taken ==> !Last(parts[k])) && read == Content(parts[..taken])
    && Reading(Content(parts), read, lineEmpty)
    && FateOf(parts, taken, capacity, read, lineEmpty, maxBytes, room) == fate
  }

  /** Before the first part is read. */
  lemma HeadsOut(parts: seq<Part>, maxBytes: nat, room: int)
    requires Stream(parts)
    ensures var fate := FateOf(parts, 0, 0, [], true, maxBytes, room);
      Heading(parts, 0, [], true, 0, maxBytes, room, fate) && (fate.Refused? ==> room < 2 * maxBytes)
  {
    if FateOf(parts, 0, 0, [], true, maxBytes, room).Refused? {
      RefusedMeans(parts, 0, 0, [], true, maxBytes, room);
    }
  }

  /** The parts that were read and one more. */
  lemma {:induction false} ContentMore(parts: seq<Part>, k: nat)
    requires k < |parts|
    ensures Content(parts[..k + 1]) == Content(parts[..k]) + parts[k].text
    ensures Content(parts[..k + 1]) <= Content(parts)
    ensures k + 1 == |parts| ==> Content(parts[..k + 1]) == Content(parts)
    decreases k
  {
    var rest := parts[1..];
    if k == 0 {
      assert parts[..1] == [parts[0]] && parts[..0] == [] && [parts[0]][1..] == [];
      assert Content([parts[0]]) == parts[0].text + Content([]);
    } else {
      assert parts[..k + 1][1..] == rest[..k] && parts[..k][1..] == rest[..k - 1];
      ContentMore(rest, k - 1);
      assert parts[0].text + (Content(rest[..k - 1]) + rest[k - 1].text) ==
        parts[0].text + Content(rest[..k - 1]) + rest[k - 1].text;
    }
    assert k + 1 == |parts| ==> parts[..k + 1] == parts;
  }

  lemma Turn(parts: seq<Part>, taken: nat, read: Bytes, lineEmpty: bool, capacity: nat, maxBytes: nat, room: int,
             fate: Fate)
    requires Stream(parts) && Heading(parts, taken, read, lineEmpty, capacity, maxBytes, room, fate)
    ensures var part, more := parts[taken], read + parts[taken].text;
      var next := Capacity(capacity, |more|, maxBytes);
      var comes := Comes(part, more, lineEmpty, maxBytes, Fits(capacity, |more|, maxBytes, room));
      && more == Content(parts[..taken + 1])
      && if comes.None? then Heading(parts, taken + 1, more, BlankAfter(part, lineEmpty), next, maxBytes, room, fate)
         else fate == FateAs(comes.value, next)
              && (comes.value.Exhausted? || comes.value == Yield(Content(parts), parts[|parts| - 1].Ended?, maxBytes))
  {
    ContentMore(parts, taken);
    OneMore(Content(parts), read, lineEmpty, parts[taken], read + parts[taken].text, parts[|parts| - 1].Ended?,
            maxBytes);
  }

  /** One turn of the loop of `readFrame`. */
  method ReadPart(part: Part, frame: array<Byte>, len: nat, lineEmpty: bool, maxBytes: nat, budget: Budget)
    returns (outcome: Option<Outcome>, grown: array<Byte>, more: nat, blank: bool)
    requires budget.Within() && frame.Length <= budget.used && Tight(frame.Length, len, maxBytes)
    modifies budget, frame
    ensures budget.Within() && (outcome.None? || outcome.value.Whole? ==> grown == frame || fresh(grown))
    ensures more == len + |part.text| && blank == BlankAfter(part, lineEmpty)
    ensures outcome == Comes(part, old(frame[..len]) + part.text, lineEmpty, maxBytes,
                             Fits(frame.Length, more, maxBytes, budget.limit - old(budget.used) + frame.Length))
    ensures outcome.None? || outcome.value.Whole? ==>
      && budget.used == old(budget.used) - frame.Length + grown.Length && Tight(grown.Length, more, maxBytes)
      && grown[..more] == old(frame[..len]) + part.text && grown.Length == Capacity(frame.Length, more, maxBytes)
    ensures outcome.Some? && !outcome.value.Whole? ==> budget.used == old(budget.used) - frame.Length
  {
    more, blank := len + |part.text|, part.Line? || (lineEmpty && Blank(part.text));
    var took;
    grown, took := TakePart(frame, len, part.text, maxBytes, budget);
    outcome := None;
    if took.Over? {
      outcome := Some(TooLarge);
    } else if took.Spent? {
      outcome := Some(Exhausted);
    } else if part.Line? {
      if lineEmpty && Blank(part.text) {
        outcome := Some(Whole(grown[..more]));
      }
    } else if part.Ended? && more > 0 {
      outcome := Some(Whole(grown[..more]));
    } else if Last(part) {
      budget.Release(grown.Length);
      outcome := Some(Failed);
    }
  }

  /** The frame the stream begins with, or why there is none. On success the
      budget is charged with exactly the buffer's capacity, otherwise with
      nothing. The budget refuses exactly a stream that does not fit it, and
      never one when it has room for the limit twice over. */
  method ReadFrame(parts: seq<Part>, maxBytes: nat, budget: Budget)
    returns (outcome: Outcome, frame: array<Byte>, len: nat, taken: nat)
    requires Stream(parts) && budget.Within()
    modifies budget
    ensures budget.Within()
    ensures outcome.Exhausted? || outcome == Yield(Content(parts), parts[|parts| - 1].Ended?, maxBytes)
    ensures outcome.Whole? ==>
      && budget.used == old(budget.used) + frame.Length
      && Tight(frame.Length, len, maxBytes) && frame[..len] == outcome.frame
      && taken <= |parts| && Content(parts[..taken]) == outcome.frame
    ensures !outcome.Whole? ==> budget.used == old(budget.used)
    ensures FateAs(outcome, frame.Length) == FateOf(parts, 0, 0, [], true, maxBytes, budget.limit - old(budget.used))
    ensures outcome.Exhausted? ==> old(budget.used) + 2 * maxBytes > budget.limit
  {
    frame := new Byte[0];
    len, taken := 0, 0;
    var lineEmpty := true;
    ghost var room, read: Bytes := budget.limit - budget.used, [];
    ghost var fate := FateOf(parts, 0, 0, [], true, maxBytes, room);
    HeadsOut(parts, maxBytes, room);
    while true
      invariant Tight(frame.Length, len, maxBytes) && fresh(frame) && frame[..len] == read
      invariant Heading(parts, taken, read, lineEmpty, frame.Length, maxBytes, room, fate)
      invariant budget.Within() && budget.used == old(budget.used) + frame.Length
      decreases |parts| - taken
    {
      Turn(parts, taken, read, lineEmpty, frame.Length, maxBytes, room, fate);
      read := read + parts[taken].text;
      var ended;
      ended, frame, len, lineEmpty := ReadPart(parts[taken], frame, len, lineEmpty, maxBytes, budget);
      taken := taken + 1;
      if ended.Some? {
        return ended.value, frame, len, taken;
      }
    }
  }

  /** The frame, which depends on the bytes of the stream and not on how they
      came, is the shortest prefix that ends in a blank line, or the whole of a
      stream that has none. */
  lemma FrameIsShortest(content: Bytes, ended: bool, maxBytes: nat, frame: Bytes)
    requires Yield(content, ended, maxBytes) == Whole(frame)
    ensures |frame| <= maxBytes && frame <= content
    ensures EndsBlank(content, |frame|) || (ended && frame == content)
    ensures forall m :: 0 < m < |frame| ==> !EndsBlank(content, m)
  {
    BlankEndIsFirst(content, 0, 0, true);
  }

  /** There is no frame only when no blank line comes within the limit. */
  lemma NoFrameMeans(content: Bytes, ended: bool, maxBytes: nat)
    ensures Yield(content, ended, maxBytes).TooLarge? ==>
      |content| > maxBytes && forall m :: 0 < m <= maxBytes ==> !EndsBlank(content, m)
    ensures Yield(content, ended, maxBytes).Failed? ==>
      (!ended || content == []) && forall m :: 0 < m <= |content| ==> !EndsBlank(content, m)
  {
    BlankEndIsFirst(content, 0, 0, true);
  }

  // ----- how a buffer grows

  /** Enough for what is needed, no smaller than the smallest buffer or twice the old
      one, but never above the limit. */
  predicate Ample(size: nat, capacity: nat, needed: nat, maxBytes: nat) {
    size <= maxBytes && needed <= size && (size == maxBytes || (size >= 128 && size >= 2 * capacity))
  }

  /** The next buffer is the smallest that is ample. */
  lemma GrownIsLeast(capacity: nat, needed: nat, maxBytes: nat)
    requires needed <= maxBytes
    ensures Ample(Grown(capacity, needed, maxBytes), capacity, needed, maxBytes)
    ensures forall size: nat :: Ample(size, capacity, needed, maxBytes) ==> Grown(capacity, needed, maxBytes) <= size
  {
  }
}

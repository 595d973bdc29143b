/** Frames of an event stream: the parser that compacts a frame in place. */
module Sse {
  import opened Options

  type Byte = bv8
  type Bytes = seq<Byte>

  const NL: Byte := 10
  const CR: Byte := 13
  const COLON: Byte := 58
  /** "event" and "data". */
  const EVENT: Bytes := [101, 118, 101, 110, 116]
  const DATA: Bytes := [100, 97, 116, 97]

  // ----- lines

  /** The first `b` in `s[lo..hi]`, or `hi`. */
  function Index(s: Bytes, b: Byte, lo: nat, hi: nat): (k: nat)
    requires lo <= hi <= |s|
    ensures lo <= k <= hi && (k < hi ==> s[k] == b)
    ensures forall i :: lo <= i < k ==> s[i] != b
    decreases hi - lo
  {
    if lo == hi || s[lo] == b then lo else Index(s, b, lo + 1, hi)
  }

  /** The end of the line that begins at `lo`, its newline included. */
  function LineEnd(s: Bytes, lo: nat): (k: nat)
    requires lo < |s|
    ensures lo < k <= |s|
  {
    if Index(s, NL, lo, |s|) == |s| then |s| else Index(s, NL, lo, |s|) + 1
  }

  /** `bytes.TrimRight(s[lo..hi], "\r\n")`, as where it ends. */
  function Stripped(s: Bytes, lo: nat, hi: nat): (k: nat)
    requires lo <= hi <= |s|
    ensures lo <= k <= hi
    decreases hi
  {
    if lo < hi && (s[hi - 1] == CR || s[hi - 1] == NL) then Stripped(s, lo, hi - 1) else hi
  }

  /** A trimming function gives the range of its argument that is left. */
  type Trim = Bytes -> (nat, nat)

  ghost predicate Ranges(trim: Trim) {
    forall v :: trim(v).0 <= trim(v).1 <= |v|
  }

  // ----- what a frame says

  datatype Event = Event(name: Bytes, values: seq<Bytes>)

  datatype Parsed = Malformed | Parsed(name: Bytes, data: Option<Bytes>)

  /** The range of the value after the colon at `colon`. */
  function Value(trim: Trim, s: Bytes, colon: nat, end: nat): (r: (nat, nat))
    requires Ranges(trim) && colon < end <= |s|
    ensures colon < r.0 <= r.1 <= end
  {
    (colon + 1 + trim(s[colon + 1..end]).0, colon + 1 + trim(s[colon + 1..end]).1)
  }

  /** The line from `lo` to `hi` added to the event; None for one without a
      colon. Fields other than `event` and `data` say nothing. */
  function Said(trim: Trim, e: Event, s: Bytes, lo: nat, hi: nat): Option<Event>
    requires Ranges(trim) && lo <= hi <= |s|
  {
    var end := Stripped(s, lo, hi);
    var colon := Index(s, COLON, lo, end);
    if end == lo then Some(e)
    else if colon == end then None
    else
      var r := Value(trim, s, colon, end);
      if s[lo..colon] == EVENT then Some(e.(name := s[r.0..r.1]))
      else if s[lo..colon] == DATA then Some(e.(values := e.values + [s[r.0..r.1]]))
      else Some(e)
  }

  /** All lines from `lo` on, in their order, until one has no colon. */
  function Read(trim: Trim, e: Event, s: Bytes, lo: nat): Option<Event>
    requires Ranges(trim) && lo <= |s|
    decreases |s| - lo
  {
    if lo == |s| then Some(e)
    else match Said(trim, e, s, lo, LineEnd(s, lo))
      case None => None
      case Some(next) => Read(trim, next, s, LineEnd(s, lo))
  }

  /** The values with a newline between each two. */
  function Join(values: seq<Bytes>): Bytes {
    if values == [] then []
    else if |values| == 1 then values[0]
    else Join(values[..|values| - 1]) + [NL] + values[|values| - 1]
  }

  /** The last event name and the joined data; nothing to dispatch, if both are
      empty. */
  function Parse(trim: Trim, s: Bytes): Parsed
    requires Ranges(trim)
  {
    match Read(trim, Event([], []), s, 0)
    case None => Malformed
    case Some(e) => Parsed(e.name, if e.name == [] && Join(e.values) == [] then None else Some(Join(e.values)))
  }

  // ----- reading what has not been overwritten

  /** The two agree from `lo` on. */
  ghost predicate Agree(s: Bytes, t: Bytes, lo: nat) {
    |s| == |t| && forall i :: lo <= i < |s| ==> s[i] == t[i]
  }

  lemma {:induction false} IndexAgrees(s: Bytes, t: Bytes, b: Byte, lo: nat, hi: nat)
    requires Agree(s, t, lo) && lo <= hi <= |s|
    ensures Index(s, b, lo, hi) == Index(t, b, lo, hi)
    decreases hi - lo
  {
    if lo < hi {
      IndexAgrees(s, t, b, lo + 1, hi);
    }
  }

  lemma {:induction false} StrippedAgrees(s: Bytes, t: Bytes, lo: nat, hi: nat)
    requires Agree(s, t, lo) && lo <= hi <= |s|
    ensures Stripped(s, lo, hi) == Stripped(t, lo, hi)
    decreases hi
  {
    if lo < hi {
      StrippedAgrees(s, t, lo, hi - 1);
    }
  }

  lemma SliceAgrees(s: Bytes, t: Bytes, lo: nat, j: nat, k: nat)
    requires Agree(s, t, lo) && lo <= j <= k <= |s|
    ensures s[j..k] == t[j..k]
  {
  }

  // ----- the parser

  /** Go's copy within one slice: every byte is read before any is written. */
  method Move(frame: array<Byte>, at: nat, lo: nat, hi: nat)
    requires at < lo <= hi <= frame.Length
    modifies frame
    ensures frame[..at + hi - lo] == old(frame[..at]) + old(frame[lo..hi])
    ensures forall k :: hi <= k < frame.Length ==> frame[k] == old(frame[k])
  {
    ghost var was := frame[..];
    forall k | 0 <= k < hi - lo {
      frame[at + k] := frame[lo + k];
    }
    forall k | 0 <= k < at + hi - lo ensures frame[k] == (was[..at] + was[lo..hi])[k] {
      if at <= k {
        assert frame[at + (k - at)] == was[lo + (k - at)];
      }
    }
  }

  /** One value moved down to `written`, a newline before it unless it is the
      first: the places it goes to come before those it comes from, or overlap
      them, and nothing from `limit` on, where reading goes on, is touched. */
  method Append(frame: array<Byte>, written: nat, first: bool, lo: nat, hi: nat, limit: nat) returns (end: nat)
    requires written + 1 < lo <= hi <= limit <= frame.Length
    modifies frame
    ensures end == written + (if first then 0 else 1) + (hi - lo) && end <= hi
    ensures frame[..end] == old(frame[..written]) + (if first then [] else [NL]) + old(frame[lo..hi])
    ensures Agree(frame[..], old(frame[..]), limit)
  {
    var at := written;
    if !first {
      frame[written] := NL;
      at := written + 1;
      assert frame[..at] == old(frame[..written]) + [NL];
    }
    assert frame[lo..hi] == old(frame[lo..hi]);
    Move(frame, at, lo, hi);
    end := at + (hi - lo);
  }

  lemma JoinMore(values: seq<Bytes>, v: Bytes)
    ensures Join(values + [v]) == Join(values) + (if values == [] then [] else [NL]) + v
  {
    assert (values + [v])[..|values|] == values;
  }

  lemma EndAgrees(s: Bytes, was: Bytes, lo: nat)
    requires Agree(s, was, lo) && lo < |s|
    ensures LineEnd(s, lo) == LineEnd(was, lo)
    ensures Stripped(s, lo, LineEnd(s, lo)) == Stripped(was, lo, LineEnd(was, lo))
  {
    IndexAgrees(s, was, NL, lo, |s|);
    StrippedAgrees(s, was, lo, LineEnd(s, lo));
  }

  lemma ValueAgrees(trim: Trim, s: Bytes, was: Bytes, lo: nat, colon: nat, end: nat)
    requires Ranges(trim) && Agree(s, was, lo) && lo <= colon < end <= |s|
    ensures Value(trim, s, colon, end) == Value(trim, was, colon, end)
    ensures var r := Value(trim, s, colon, end); s[r.0..r.1] == was[r.0..r.1]
  {
    SliceAgrees(s, was, lo, colon + 1, end);
    var r := Value(trim, s, colon, end);
    SliceAgrees(s, was, lo, r.0, r.1);
  }

  /** `parseSSEFrame`: the data values are moved to the front of the frame they
      are read from. */
  method ParseFrame(frame: array<Byte>, trim: Trim) returns (parsed: Parsed, written: nat)
    requires Ranges(trim)
    modifies frame
    ensures parsed == Parse(trim, old(frame[..]))
    ensures written <= frame.Length
    ensures parsed.Parsed? && parsed.data.Some? ==> frame[..written] == parsed.data.value
  {
    ghost var was := frame[..];
    var name: Bytes := [];
    ghost var values: seq<Bytes> := [];
    written := 0;
    var fields := 0;
    var start := 0;
    while start < frame.Length
      invariant written <= start <= frame.Length && |was| == frame.Length
      invariant fields == |values|
      invariant Agree(frame[..], was, start)
      invariant frame[..written] == Join(values)
      invariant Read(trim, Event([], []), was, 0) == Read(trim, Event(name, values), was, start)
      decreases frame.Length - start
    {
      var lo := start;
      EndAgrees(frame[..], was, lo);
      start := LineEnd(frame[..], lo);
      var end := Stripped(frame[..], lo, start);
      if end == lo {
        continue;
      }
      IndexAgrees(frame[..], was, COLON, lo, end);
      var colon := Index(frame[..], COLON, lo, end);
      if colon == end {
        return Malformed, written;
      }
      ValueAgrees(trim, frame[..], was, lo, colon, end);
      SliceAgrees(frame[..], was, lo, lo, colon);
      var value := Value(trim, frame[..], colon, end);
      var key := frame[lo..colon];
      if key == EVENT {
        name := frame[value.0..value.1];
      } else if key == DATA {
        JoinMore(values, frame[value.0..value.1]);
        values := values + [frame[value.0..value.1]];
        written := Append(frame, written, fields == 0, value.0, value.1, start);
        fields := fields + 1;
      }
    }
    if name == [] && written == 0 {
      return Parsed(name, None), written;
    }
    return Parsed(name, Some(frame[..written])), written;
  }

  // ----- a frame read back

  /** A field as a server writes it. */
  function Field(key: Bytes, value: Bytes): Bytes {
    key + [COLON] + value + [NL]
  }

  /** Data fields, and the blank line that ends an event. */
  function DataFields(values: seq<Bytes>): Bytes {
    if values == [] then [NL] else Field(DATA, values[0]) + DataFields(values[1..])
  }

  /** One line, whole, that trimming leaves alone. */
  ghost predicate Plain(trim: Trim, v: Bytes) {
    v != [] && NL !in v && v[|v| - 1] != CR && trim(v) == (0, |v|)
  }

  lemma IndexIs(s: Bytes, b: Byte, lo: nat, hi: nat, k: nat)
    requires lo <= k <= hi <= |s| && (k < hi ==> s[k] == b) && forall i :: lo <= i < k ==> s[i] != b
    ensures Index(s, b, lo, hi) == k
  {
  }

  /** Where the line after a field begins. */
  function After(lo: nat, key: Bytes, value: Bytes): nat {
    lo + |key| + |value| + 2
  }

  /** A field stands at `lo`, with its colon at `colon` and the next line at `next`. */
  ghost predicate FieldAt(trim: Trim, s: Bytes, lo: nat, key: Bytes, value: Bytes) {
    && (key == EVENT || key == DATA) && Plain(trim, value)
    && lo + |key| + |value| + 2 <= |s|
    && s[lo..lo + |key|] == key && s[lo + |key|] == COLON
    && s[lo + |key| + 1..lo + |key| + 1 + |value|] == value && s[lo + |key| + 1 + |value|] == NL
  }

  lemma FieldBytes(trim: Trim, s: Bytes, lo: nat, key: Bytes, value: Bytes)
    requires FieldAt(trim, s, lo, key, value)
    ensures forall i :: lo <= i < lo + |key| ==> s[i] != NL && s[i] != COLON
    ensures forall i :: lo + |key| < i < lo + |key| + 1 + |value| ==> s[i] != NL
    ensures s[lo + |key| + |value|] != CR
  {
    var colon, end := lo + |key|, lo + |key| + 1 + |value|;
    forall i | lo <= i < colon ensures s[i] != NL && s[i] != COLON {
      assert s[i] == s[lo..colon][i - lo];
    }
    forall i | colon < i < end ensures s[i] == value[i - colon - 1] {
      assert s[i] == s[colon + 1..end][i - colon - 1];
    }
  }

  lemma FieldLine(trim: Trim, s: Bytes, lo: nat, key: Bytes, value: Bytes)
    requires FieldAt(trim, s, lo, key, value)
    ensures LineEnd(s, lo) == lo + |key| + |value| + 2
    ensures Stripped(s, lo, LineEnd(s, lo)) == lo + |key| + 1 + |value|
    ensures Index(s, COLON, lo, lo + |key| + 1 + |value|) == lo + |key|
  {
    var colon, end := lo + |key|, lo + |key| + 1 + |value|;
    FieldBytes(trim, s, lo, key, value);
    IndexIs(s, NL, lo, |s|, end);
    IndexIs(s, COLON, lo, end, colon);
    assert Stripped(s, lo, end) == end;
  }

  lemma FieldSays(trim: Trim, e: Event, s: Bytes, lo: nat, key: Bytes, value: Bytes)
    requires Ranges(trim) && FieldAt(trim, s, lo, key, value)
    ensures var next := lo + |key| + |value| + 2;
      && next == LineEnd(s, lo)
      && Said(trim, e, s, lo, next) ==
           Some(if key == EVENT then e.(name := value) else e.(values := e.values + [value]))
  {
    FieldLine(trim, s, lo, key, value);
  }

  /** A field at the front of what is left of a frame stands where it should. */
  lemma FieldStands(trim: Trim, s: Bytes, lo: nat, key: Bytes, value: Bytes, rest: Bytes)
    requires (key == EVENT || key == DATA) && Plain(trim, value)
    requires lo <= |s| && s[lo..] == Field(key, value) + rest
    ensures FieldAt(trim, s, lo, key, value) && s[After(lo, key, value)..] == rest
  {
    var t := Field(key, value) + rest;
    assert t[..|key|] == key && t[|key|] == COLON;
    assert t[|key| + 1..|key| + 1 + |value|] == value && t[|key| + 1 + |value|] == NL;
    assert t[|key| + |value| + 2..] == rest;
    assert forall i :: 0 <= i < |t| ==> s[lo + i] == t[i];
    assert s[lo..lo + |key|] == t[..|key|];
    assert s[lo + |key| + 1..lo + |key| + 1 + |value|] == t[|key| + 1..|key| + 1 + |value|];
  }

  lemma ReadField(trim: Trim, e: Event, s: Bytes, lo: nat, key: Bytes, value: Bytes)
    requires Ranges(trim) && FieldAt(trim, s, lo, key, value)
    ensures Read(trim, e, s, lo) ==
      Read(trim, if key == EVENT then e.(name := value) else e.(values := e.values + [value]), s, After(lo, key, value))
  {
    FieldSays(trim, e, s, lo, key, value);
  }

  lemma ReadBlank(trim: Trim, e: Event, s: Bytes, lo: nat)
    requires Ranges(trim) && lo + 1 == |s| && s[lo] == NL
    ensures Read(trim, e, s, lo) == Some(e)
  {
    assert Index(s, NL, lo, |s|) == lo;
    assert Stripped(s, lo, lo + 1) == lo;
    assert Said(trim, e, s, lo, lo + 1) == Some(e);
  }

  lemma Shift(before: seq<Bytes>, values: seq<Bytes>)
    requires values != []
    ensures before + [values[0]] + values[1..] == before + values
  {
  }

  lemma {:induction false} DataReads(trim: Trim, name: Bytes, before: seq<Bytes>, s: Bytes, lo: nat,
                                     values: seq<Bytes>)
    requires Ranges(trim) && forall v :: v in values ==> Plain(trim, v)
    requires lo <= |s| && s[lo..] == DataFields(values)
    ensures Read(trim, Event(name, before), s, lo) == Some(Event(name, before + values))
    decreases |values|
  {
    if values == [] {
      assert s[lo] == s[lo..][0];
      ReadBlank(trim, Event(name, before), s, lo);
      assert before + [] == before;
    } else {
      var v := values[0];
      FieldStands(trim, s, lo, DATA, v, DataFields(values[1..]));
      ReadField(trim, Event(name, before), s, lo, DATA, v);
      DataReads(trim, name, before + [v], s, After(lo, DATA, v), values[1..]);
      Shift(before, values);
    }
  }

  /** An event written line by line reads back as it was. */
  lemma RoundTrip(trim: Trim, name: Bytes, values: seq<Bytes>)
    requires Ranges(trim) && Plain(trim, name) && forall v :: v in values ==> Plain(trim, v)
    ensures Parse(trim, Field(EVENT, name) + DataFields(values)) == Parsed(name, Some(Join(values)))
  {
    var s := Field(EVENT, name) + DataFields(values);
    assert s[0..] == s;
    FieldStands(trim, s, 0, EVENT, name, DataFields(values));
    ReadField(trim, Event([], []), s, 0, EVENT, name);
    DataReads(trim, name, [], s, After(0, EVENT, name), values);
    assert [] + values == values;
  }
}

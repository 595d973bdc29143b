/** What a frame says, line by line: told from the positions of its bytes. */
module SseLines {
  import opened Options
  import opened Sse

  // ----- lines and fields

  /** A line stands from `lo` to `hi`, its newline included. */
  predicate IsLine(s: Bytes, lo: nat, hi: nat) {
    && lo < hi <= |s| && (lo == 0 || s[lo - 1] == NL)
    && (forall k :: lo <= k < hi - 1 ==> s[k] != NL) && (s[hi - 1] == NL || hi == |s|)
  }

  predicate Ending(b: Byte) {
    b == CR || b == NL
  }

  /** The line is not blank. */
  predicate Says(s: Bytes, lo: nat, hi: nat)
    requires lo <= hi <= |s|
  {
    exists k :: lo <= k < hi && !Ending(s[k])
  }

  /** The line is not blank and has no colon. */
  predicate Bad(s: Bytes, lo: nat, hi: nat)
    requires lo <= hi <= |s|
  {
    Says(s, lo, hi) && forall k :: lo <= k < hi ==> s[k] != COLON
  }

  /** The first colon of the line is at `colon`, and its text ends at `end`. */
  predicate FieldOf(s: Bytes, lo: nat, hi: nat, colon: nat, end: nat) {
    && IsLine(s, lo, hi) && lo <= colon < end <= hi && s[colon] == COLON
    && (forall k :: lo <= k < colon ==> s[k] != COLON)
    && (forall k :: end <= k < hi ==> Ending(s[k])) && !Ending(s[end - 1])
  }

  // ----- the positions the parser finds

  lemma LineEndIs(s: Bytes, lo: nat, hi: nat)
    requires lo < |s| && (lo == 0 || s[lo - 1] == NL)
    ensures IsLine(s, lo, hi) <==> hi == LineEnd(s, lo)
  {
  }

  lemma {:induction false} StrippedIs(s: Bytes, lo: nat, hi: nat)
    requires lo <= hi <= |s|
    ensures var end := Stripped(s, lo, hi);
      (forall k :: end <= k < hi ==> Ending(s[k])) && (lo < end ==> !Ending(s[end - 1]))
    decreases hi
  {
    if lo < hi && (s[hi - 1] == CR || s[hi - 1] == NL) {
      StrippedIs(s, lo, hi - 1);
    }
  }

  /** A line is blank, or without a colon, or a field, and the parser tells which. */
  lemma LineKinds(s: Bytes, lo: nat)
    requires lo < |s| && (lo == 0 || s[lo - 1] == NL)
    ensures var hi := LineEnd(s, lo);
      var end := Stripped(s, lo, hi);
      var colon := Index(s, COLON, lo, end);
      && IsLine(s, lo, hi)
      && (end == lo <==> !Says(s, lo, hi))
      && (lo < end && colon == end <==> Bad(s, lo, hi))
      && (colon < end ==> FieldOf(s, lo, hi, colon, end))
  {
    var hi := LineEnd(s, lo);
    LineEndIs(s, lo, hi);
    StrippedIs(s, lo, hi);
  }

  /** A line is where the parser finds it, and so is its field. */
  lemma FieldIs(s: Bytes, lo: nat, hi: nat, colon: nat, end: nat)
    requires FieldOf(s, lo, hi, colon, end)
    ensures hi == LineEnd(s, lo) && end == Stripped(s, lo, hi) && colon == Index(s, COLON, lo, end)
  {
    LineEndIs(s, lo, hi);
    StrippedIs(s, lo, hi);
    assert end == Stripped(s, lo, hi);
    IndexIs(s, COLON, lo, end, colon);
  }

  /** The next line begins where this one ends, and there is none in between. */
  lemma LinesApart(s: Bytes, lo: nat, other: nat, hi: nat)
    requires lo < |s| && (lo == 0 || s[lo - 1] == NL) && lo < other && IsLine(s, other, hi)
    ensures LineEnd(s, lo) <= other
  {
    LineEndIs(s, lo, LineEnd(s, lo));
  }

  // ----- what is malformed

  /** Some line from `lo` on is bad. */
  ghost predicate BadFrom(s: Bytes, lo: nat) {
    exists from: nat, hi: nat :: lo <= from && IsLine(s, from, hi) && Bad(s, from, hi)
  }

  lemma {:induction false} ReadFails(trim: Trim, e: Event, s: Bytes, lo: nat)
    requires Ranges(trim) && lo <= |s| && (lo == 0 || s[lo - 1] == NL || lo == |s|)
    ensures Read(trim, e, s, lo).None? <==> BadFrom(s, lo)
    decreases |s| - lo
  {
    if lo < |s| {
      LineKinds(s, lo);
      var hi := LineEnd(s, lo);
      var said := Said(trim, e, s, lo, hi);
      if said.Some? {
        ReadFails(trim, said.value, s, hi);
        if BadFrom(s, lo) {
          var from: nat, to: nat :| lo <= from && IsLine(s, from, to) && Bad(s, from, to);
          if from == lo {
            LineEndIs(s, lo, to);
          } else {
            LinesApart(s, lo, from, to);
          }
        }
      } else {
        assert BadFrom(s, lo);
      }
    }
  }

  /** A frame is malformed exactly when one of its lines is neither blank nor a field. */
  lemma MalformedMeans(trim: Trim, s: Bytes)
    requires Ranges(trim)
    ensures Parse(trim, s).Malformed? <==> exists lo: nat, hi: nat :: IsLine(s, lo, hi) && Bad(s, lo, hi)
  {
    ReadFails(trim, Event([], []), s, 0);
  }

  // ----- what is said

  /** A field begins at `lo`. */
  ghost predicate Field(s: Bytes, lo: nat) {
    exists hi: nat, colon: nat, end: nat :: FieldOf(s, lo, hi, colon, end)
  }

  /** What stands before its colon. */
  ghost function KeyOf(s: Bytes, lo: nat): Bytes
    requires Field(s, lo)
  {
    var hi: nat, colon: nat, end: nat :| FieldOf(s, lo, hi, colon, end);
    s[lo..colon]
  }

  /** What trimming leaves of what stands after it. */
  ghost function ValueOf(trim: Trim, s: Bytes, lo: nat): Bytes
    requires Ranges(trim) && Field(s, lo)
  {
    var hi: nat, colon: nat, end: nat :| FieldOf(s, lo, hi, colon, end);
    var v := s[colon + 1..end];
    v[trim(v).0..trim(v).1]
  }

  /** A field with this key begins at `lo`. */
  ghost predicate Begins(s: Bytes, lo: nat, key: Bytes) {
    Field(s, lo) && KeyOf(s, lo) == key
  }

  lemma KnownField(trim: Trim, s: Bytes, lo: nat, hi: nat, colon: nat, end: nat)
    requires Ranges(trim) && FieldOf(s, lo, hi, colon, end)
    ensures KeyOf(s, lo) == s[lo..colon]
    ensures var v := s[colon + 1..end]; ValueOf(trim, s, lo) == v[trim(v).0..trim(v).1]
  {
    forall h: nat, c: nat, n: nat | FieldOf(s, lo, h, c, n) ensures h == hi && c == colon && n == end {
      FieldIs(s, lo, h, c, n);
      FieldIs(s, lo, hi, colon, end);
    }
  }

  /** A blank line is no field, and nothing begins inside a line. */
  lemma NoField(s: Bytes, lo: nat, other: nat)
    requires lo < |s| && (lo == 0 || s[lo - 1] == NL)
    requires (lo < other < LineEnd(s, lo)) || (other == lo && !Says(s, lo, LineEnd(s, lo)))
    ensures !Field(s, other)
  {
    if Field(s, other) {
      var hi: nat, colon: nat, end: nat :| FieldOf(s, other, hi, colon, end);
      if lo < other {
        LinesApart(s, lo, other, hi);
      } else {
        LineEndIs(s, lo, hi);
      }
    }
  }

  /** What one line adds to the event. */
  lemma LineSays(trim: Trim, e: Event, s: Bytes, lo: nat)
    requires Ranges(trim) && lo < |s| && (lo == 0 || s[lo - 1] == NL)
    requires Said(trim, e, s, lo, LineEnd(s, lo)).Some?
    ensures var next := Said(trim, e, s, lo, LineEnd(s, lo)).value;
      && next.name == (if Begins(s, lo, EVENT) then ValueOf(trim, s, lo) else e.name)
      && next.values == if Begins(s, lo, DATA) then e.values + [ValueOf(trim, s, lo)] else e.values
  {
    LineKinds(s, lo);
    var hi := LineEnd(s, lo);
    var end := Stripped(s, lo, hi);
    if lo < end {
      var colon := Index(s, COLON, lo, end);
      KnownField(trim, s, lo, hi, colon, end);
      FieldValue(trim, s, colon, end);
    } else {
      NoField(s, lo, lo);
    }
  }

  lemma FieldValue(trim: Trim, s: Bytes, colon: nat, end: nat)
    requires Ranges(trim) && colon < end <= |s|
    ensures var v, r := s[colon + 1..end], Value(trim, s, colon, end); s[r.0..r.1] == v[trim(v).0..trim(v).1]
  {
  }

  /** How many data fields begin before `lo`. */
  ghost function DataBefore(s: Bytes, lo: nat): nat {
    if lo == 0 then 0 else DataBefore(s, lo - 1) + if Begins(s, lo - 1, DATA) then 1 else 0
  }

  lemma {:induction false} NoData(s: Bytes, lo: nat, hi: nat)
    requires lo <= hi && forall k: nat :: lo <= k < hi ==> !Field(s, k)
    ensures DataBefore(s, hi) == DataBefore(s, lo)
    decreases hi
  {
    if lo < hi {
      NoData(s, lo, hi - 1);
    }
  }

  lemma DataNext(s: Bytes, lo: nat)
    requires lo < |s| && (lo == 0 || s[lo - 1] == NL)
    ensures DataBefore(s, LineEnd(s, lo)) == DataBefore(s, lo + 1)
    ensures DataBefore(s, lo + 1) == DataBefore(s, lo) + if Begins(s, lo, DATA) then 1 else 0
  {
    var hi := LineEnd(s, lo);
    forall k: nat | lo < k < hi ensures !Field(s, k) {
      NoField(s, lo, k);
    }
    NoData(s, lo + 1, hi);
  }

  /** The value of each data field from `lo` on has its place, after those of the
      fields before it. */
  ghost predicate HasValues(trim: Trim, s: Bytes, lo: nat, values: seq<Bytes>)
    requires Ranges(trim)
  {
    forall k: nat :: lo <= k && Begins(s, k, DATA) ==>
      DataBefore(s, k) < |values| && values[DataBefore(s, k)] == ValueOf(trim, s, k)
  }

  lemma ValuesStep(trim: Trim, e: Event, s: Bytes, lo: nat, values: seq<Bytes>)
    requires Ranges(trim) && lo < |s| && (lo == 0 || s[lo - 1] == NL)
    requires |e.values| == DataBefore(s, lo) && HasValues(trim, s, LineEnd(s, lo), values)
    requires Begins(s, lo, DATA) ==> e.values + [ValueOf(trim, s, lo)] <= values
    ensures HasValues(trim, s, lo, values)
  {
    forall k: nat | lo <= k && Begins(s, k, DATA)
      ensures DataBefore(s, k) < |values| && values[DataBefore(s, k)] == ValueOf(trim, s, k)
    {
      if k == lo {
        assert values[|e.values|] == (e.values + [ValueOf(trim, s, lo)])[|e.values|];
      } else if k < LineEnd(s, lo) {
        NoField(s, lo, k);
      }
    }
  }

  lemma {:induction false} ReadValues(trim: Trim, e: Event, s: Bytes, lo: nat)
    requires Ranges(trim) && lo <= |s| && (lo == 0 || s[lo - 1] == NL || lo == |s|)
    requires Read(trim, e, s, lo).Some? && |e.values| == DataBefore(s, lo)
    ensures var r := Read(trim, e, s, lo).value;
      e.values <= r.values && |r.values| == DataBefore(s, |s|) && HasValues(trim, s, lo, r.values)
    decreases |s| - lo
  {
    if lo < |s| {
      var hi := LineEnd(s, lo);
      LineEndIs(s, lo, hi);
      var next := Said(trim, e, s, lo, hi).value;
      LineSays(trim, e, s, lo);
      DataNext(s, lo);
      ReadValues(trim, next, s, hi);
      ValuesStep(trim, e, s, lo, Read(trim, e, s, lo).value.values);
    } else {
      NoFieldAfter(s, lo);
    }
  }

  lemma NoFieldAfter(s: Bytes, lo: nat)
    requires lo >= |s|
    ensures forall k: nat :: lo <= k ==> !Field(s, k)
  {
  }

  /** No event field begins from `lo` on. */
  ghost predicate NoName(s: Bytes, lo: nat) {
    forall k: nat :: lo <= k ==> !Begins(s, k, EVENT)
  }

  lemma {:induction false} ReadName(trim: Trim, e: Event, s: Bytes, lo: nat)
    requires Ranges(trim) && lo <= |s| && (lo == 0 || s[lo - 1] == NL || lo == |s|)
    requires Read(trim, e, s, lo).Some?
    ensures var r := Read(trim, e, s, lo).value;
      && (NoName(s, lo) ==> r.name == e.name)
      && forall k: nat :: lo <= k && Begins(s, k, EVENT) && NoName(s, k + 1) ==> r.name == ValueOf(trim, s, k)
    decreases |s| - lo
  {
    if lo < |s| {
      LineKinds(s, lo);
      var hi := LineEnd(s, lo);
      var next := Said(trim, e, s, lo, hi).value;
      LineSays(trim, e, s, lo);
      ReadName(trim, next, s, hi);
      var r := Read(trim, e, s, lo).value;
      forall k: nat | lo <= k && Begins(s, k, EVENT) && NoName(s, k + 1) ensures r.name == ValueOf(trim, s, k) {
        if lo < k < hi {
          NoField(s, lo, k);
        }
      }
    }
  }

  /** What a frame says that is not malformed: its name is that of the last event
      field, or empty; its data is the values of all data fields, in order, with a
      newline between each two; and there is none when name and data are empty. No
      other field says anything. */
  lemma FrameSays(trim: Trim, s: Bytes) returns (values: seq<Bytes>)
    requires Ranges(trim) && Parse(trim, s).Parsed?
    ensures |values| == DataBefore(s, |s|) && HasValues(trim, s, 0, values)
    ensures Parse(trim, s).data ==
      if Parse(trim, s).name == [] && Join(values) == [] then None else Some(Join(values))
    ensures NoName(s, 0) ==> Parse(trim, s).name == []
    ensures forall k: nat :: Begins(s, k, EVENT) && NoName(s, k + 1) ==> Parse(trim, s).name == ValueOf(trim, s, k)
  {
    ReadValues(trim, Event([], []), s, 0);
    ReadName(trim, Event([], []), s, 0);
    values := Read(trim, Event([], []), s, 0).value.values;
  }

  // ----- a line that says nothing

  /** The same bytes stand in `s` from `d + lo` on as in `t` from `lo` to `hi`. */
  ghost predicate Matches(s: Bytes, d: nat, t: Bytes, lo: nat, hi: nat) {
    lo <= hi <= |t| && d + hi <= |s| && forall k :: lo <= k < hi ==> s[d + k] == t[k]
  }

  lemma {:induction false} IndexMatches(s: Bytes, d: nat, t: Bytes, b: Byte, lo: nat, hi: nat)
    requires Matches(s, d, t, lo, hi)
    ensures Index(s, b, d + lo, d + hi) == d + Index(t, b, lo, hi)
    decreases hi - lo
  {
    if lo < hi {
      IndexMatches(s, d, t, b, lo + 1, hi);
    }
  }

  lemma {:induction false} StrippedMatches(s: Bytes, d: nat, t: Bytes, lo: nat, hi: nat)
    requires Matches(s, d, t, lo, hi)
    ensures Stripped(s, d + lo, d + hi) == d + Stripped(t, lo, hi)
    decreases hi
  {
    if lo < hi {
      StrippedMatches(s, d, t, lo, hi - 1);
    }
  }

  lemma SliceMatches(s: Bytes, d: nat, t: Bytes, lo: nat, hi: nat, j: nat, k: nat)
    requires Matches(s, d, t, lo, hi) && lo <= j <= k <= hi
    ensures s[d + j..d + k] == t[j..k]
  {
    var u, v := s[d + j..d + k], t[j..k];
    forall i | 0 <= i < k - j ensures u[i] == v[i] {
      assert u[i] == s[d + (j + i)];
    }
  }

  lemma ValueMatches(trim: Trim, s: Bytes, d: nat, t: Bytes, lo: nat, hi: nat, colon: nat, end: nat)
    requires Ranges(trim) && Matches(s, d, t, lo, hi) && lo <= colon < end <= hi
    ensures var q, r := Value(trim, s, d + colon, d + end), Value(trim, t, colon, end); s[q.0..q.1] == t[r.0..r.1]
  {
    SliceMatches(s, d, t, lo, hi, colon + 1, end);
    var r := Value(trim, t, colon, end);
    SliceMatches(s, d, t, lo, hi, r.0, r.1);
  }

  /** Where the line's text ends and its colon stands, and what its key is. */
  lemma PartsMatch(s: Bytes, d: nat, t: Bytes, lo: nat, hi: nat)
    requires Matches(s, d, t, lo, hi)
    ensures Stripped(s, d + lo, d + hi) == d + Stripped(t, lo, hi)
    ensures var end := Stripped(t, lo, hi);
      var colon := Index(t, COLON, lo, end);
      Index(s, COLON, d + lo, d + end) == d + colon && s[d + lo..d + colon] == t[lo..colon]
  {
    StrippedMatches(s, d, t, lo, hi);
    var end := Stripped(t, lo, hi);
    IndexMatches(s, d, t, COLON, lo, end);
    SliceMatches(s, d, t, lo, hi, lo, Index(t, COLON, lo, end));
  }

  /** What a line is, wherever it stands. */
  datatype Heard = Blank | Wrong | Pair(key: Bytes, value: Bytes)

  function Hears(trim: Trim, s: Bytes, lo: nat, hi: nat): Heard
    requires Ranges(trim) && lo <= hi <= |s|
  {
    var end := Stripped(s, lo, hi);
    var colon := Index(s, COLON, lo, end);
    if end == lo then Blank
    else if colon == end then Wrong
    else Pair(s[lo..colon], s[Value(trim, s, colon, end).0..Value(trim, s, colon, end).1])
  }

  function Adds(e: Event, heard: Heard): Option<Event> {
    match heard
    case Blank => Some(e)
    case Wrong => None
    case Pair(key, value) =>
      if key == EVENT then Some(e.(name := value))
      else if key == DATA then Some(e.(values := e.values + [value]))
      else Some(e)
  }

  lemma SaidIsHeard(trim: Trim, e: Event, s: Bytes, lo: nat, hi: nat)
    requires Ranges(trim) && lo <= hi <= |s|
    ensures Said(trim, e, s, lo, hi) == Adds(e, Hears(trim, s, lo, hi))
  {
  }

  lemma HearsPair(trim: Trim, s: Bytes, lo: nat, hi: nat, colon: nat, end: nat)
    requires Ranges(trim) && lo <= hi <= |s| && end == Stripped(s, lo, hi)
    requires colon == Index(s, COLON, lo, end) && colon < end
    ensures Hears(trim, s, lo, hi) == Pair(s[lo..colon], s[Value(trim, s, colon, end).0..Value(trim, s, colon, end).1])
  {
  }

  lemma PairMatches(trim: Trim, s: Bytes, d: nat, t: Bytes, lo: nat, hi: nat, colon: nat, end: nat)
    requires Ranges(trim) && Matches(s, d, t, lo, hi)
    requires end == Stripped(t, lo, hi) && colon == Index(t, COLON, lo, end) && colon < end
    requires d + end == Stripped(s, d + lo, d + hi) && d + colon == Index(s, COLON, d + lo, d + end)
    requires s[d + lo..d + colon] == t[lo..colon]
    ensures Hears(trim, s, d + lo, d + hi) == Hears(trim, t, lo, hi)
  {
    HearsPair(trim, t, lo, hi, colon, end);
    HearsPair(trim, s, d + lo, d + hi, d + colon, d + end);
    ValueMatches(trim, s, d, t, lo, hi, colon, end);
  }

  lemma HeardMatches(trim: Trim, s: Bytes, d: nat, t: Bytes, lo: nat, hi: nat)
    requires Ranges(trim) && Matches(s, d, t, lo, hi)
    ensures Hears(trim, s, d + lo, d + hi) == Hears(trim, t, lo, hi)
  {
    PartsMatch(s, d, t, lo, hi);
    var end := Stripped(t, lo, hi);
    var colon := Index(t, COLON, lo, end);
    if colon < end {
      PairMatches(trim, s, d, t, lo, hi, colon, end);
    }
  }

  lemma SaidMatches(trim: Trim, e: Event, s: Bytes, d: nat, t: Bytes, lo: nat, hi: nat)
    requires Ranges(trim) && Matches(s, d, t, lo, hi)
    ensures Said(trim, e, s, d + lo, d + hi) == Said(trim, e, t, lo, hi)
  {
    HeardMatches(trim, s, d, t, lo, hi);
    SaidIsHeard(trim, e, s, d + lo, d + hi);
    SaidIsHeard(trim, e, t, lo, hi);
  }

  /** `x` is the end of `s`, from `d` on. */
  ghost predicate EndsIn(s: Bytes, d: nat, x: Bytes) {
    |s| == d + |x| && Matches(s, d, x, 0, |x|)
  }

  lemma PartMatches(s: Bytes, d: nat, x: Bytes, lo: nat, hi: nat)
    requires EndsIn(s, d, x) && lo <= hi <= |x|
    ensures Matches(s, d, x, lo, hi)
  {
  }

  lemma EndShifts(s: Bytes, d: nat, x: Bytes, lo: nat)
    requires EndsIn(s, d, x) && lo < |x|
    ensures LineEnd(s, d + lo) == d + LineEnd(x, lo)
  {
    assert Matches(s, d, x, lo, |x|);
    IndexMatches(s, d, x, NL, lo, |x|);
  }

  /** A line is the same line wherever it stands. */
  ghost predicate SameLine(trim: Trim, e: Event, s: Bytes, d: nat, t: Bytes, lo: nat)
    requires Ranges(trim) && lo < |t| && d + lo < |s|
  {
    && LineEnd(s, d + lo) == d + LineEnd(t, lo)
    && Said(trim, e, s, d + lo, LineEnd(s, d + lo)) == Said(trim, e, t, lo, LineEnd(t, lo))
  }

  lemma LineShifts(trim: Trim, e: Event, s: Bytes, d: nat, x: Bytes, lo: nat)
    requires Ranges(trim) && EndsIn(s, d, x) && lo < |x|
    ensures SameLine(trim, e, s, d, x, lo)
  {
    EndShifts(s, d, x, lo);
    PartMatches(s, d, x, lo, LineEnd(x, lo));
    SaidMatches(trim, e, s, d, x, lo, LineEnd(x, lo));
  }

  lemma ReadStep(trim: Trim, e: Event, s: Bytes, lo: nat)
    requires Ranges(trim) && lo < |s|
    ensures Read(trim, e, s, lo) ==
      match Said(trim, e, s, lo, LineEnd(s, lo))
      case None => None
      case Some(next) => Read(trim, next, s, LineEnd(s, lo))
  {
  }

  /** What comes before does not matter. */
  lemma {:induction false} ReadShifts(trim: Trim, e: Event, s: Bytes, d: nat, x: Bytes, lo: nat)
    requires Ranges(trim) && EndsIn(s, d, x) && lo <= |x|
    ensures Read(trim, e, s, d + lo) == Read(trim, e, x, lo)
    decreases |x| - lo
  {
    if lo < |x| {
      LineShifts(trim, e, s, d, x, lo);
      var hi := LineEnd(x, lo);
      var said := Said(trim, e, x, lo, hi);
      ReadStep(trim, e, s, d + lo);
      ReadStep(trim, e, x, lo);
      assert Said(trim, e, s, d + lo, d + hi) == said;
      if said.Some? {
        ReadShifts(trim, said.value, s, d, x, hi);
      }
    }
  }

  /** Bytes that are whole lines. */
  predicate Whole(a: Bytes) {
    a != [] ==> a[|a| - 1] == NL
  }

  lemma EndWithin(a: Bytes, x: Bytes, lo: nat)
    requires lo < |a| && Whole(a)
    ensures LineEnd(a + x, lo) == LineEnd(a, lo)
  {
    var k := Index(a, NL, lo, |a|);
    IndexIs(a + x, NL, lo, |a + x|, k);
  }

  lemma FrontMatches(a: Bytes, x: Bytes, lo: nat, hi: nat)
    requires lo <= hi <= |a|
    ensures Matches(a + x, 0, a, lo, hi)
  {
  }

  lemma LineWithin(trim: Trim, e: Event, a: Bytes, x: Bytes, lo: nat)
    requires Ranges(trim) && Whole(a) && lo < |a|
    ensures SameLine(trim, e, a + x, 0, a, lo)
  {
    EndWithin(a, x, lo);
    FrontMatches(a, x, lo, LineEnd(a, lo));
    SaidMatches(trim, e, a + x, 0, a, lo, LineEnd(a, lo));
  }

  /** Whole lines, and then the rest. */
  lemma {:induction false} ReadInParts(trim: Trim, e: Event, a: Bytes, x: Bytes, lo: nat)
    requires Ranges(trim) && Whole(a) && lo <= |a|
    ensures Read(trim, e, a + x, lo) ==
      match Read(trim, e, a, lo)
      case None => None
      case Some(r) => Read(trim, r, x, 0)
    decreases |a| - lo
  {
    if lo == |a| {
      ReadShifts(trim, e, a + x, |a|, x, 0);
    } else {
      LineWithin(trim, e, a, x, lo);
      ReadStep(trim, e, a + x, lo);
      ReadStep(trim, e, a, lo);
      var said := Said(trim, e, a, lo, LineEnd(a, lo));
      if said.Some? {
        ReadInParts(trim, said.value, a, x, LineEnd(a, lo));
      }
    }
  }

  /** A line that is blank, or a field of another key. */
  ghost predicate Other(line: Bytes) {
    && Whole(line) && IsLine(line, 0, |line|) && !Bad(line, 0, |line|)
    && !Begins(line, 0, EVENT) && !Begins(line, 0, DATA)
  }

  lemma OtherSays(trim: Trim, e: Event, line: Bytes)
    requires Ranges(trim) && Other(line)
    ensures Read(trim, e, line, 0) == Some(e)
  {
    LineKinds(line, 0);
    LineEndIs(line, 0, |line|);
    LineSays(trim, e, line, 0);
    assert Said(trim, e, line, 0, |line|) == Some(e);
    assert Read(trim, e, line, |line|) == Some(e);
  }

  /** Such a line can be put anywhere between two lines without changing what the
      frame says. */
  lemma OtherLine(trim: Trim, a: Bytes, line: Bytes, b: Bytes)
    requires Ranges(trim) && Whole(a) && Other(line)
    ensures Parse(trim, a + line + b) == Parse(trim, a + b)
  {
    var e := Event([], []);
    assert a + line + b == a + (line + b);
    ReadInParts(trim, e, a, line + b, 0);
    ReadInParts(trim, e, a, b, 0);
    var r := Read(trim, e, a, 0);
    if r.Some? {
      ReadInParts(trim, r.value, line, b, 0);
      OtherSays(trim, r.value, line);
    }
  }

  // ----- the join

  /** The pieces between newlines. */
  function Pieces(s: Bytes): (r: seq<Bytes>)
    ensures r != []
    decreases |s|
  {
    var k := Index(s, NL, 0, |s|);
    if k == |s| then [s] else [s[..k]] + Pieces(s[k + 1..])
  }

  lemma OnePiece(v: Bytes)
    requires NL !in v
    ensures Pieces(v) == [v]
  {
    IndexIs(v, NL, 0, |v|, |v|);
  }

  lemma FirstPiece(v: Bytes, rest: Bytes)
    requires NL !in v
    ensures Pieces(v + [NL] + rest) == [v] + Pieces(rest)
  {
    var t := v + [NL] + rest;
    IndexIs(t, NL, 0, |t|, |v|);
    assert t[..|v|] == v && t[|v| + 1..] == rest;
  }

  lemma {:induction false} PiecesMore(s: Bytes, v: Bytes)
    requires NL !in v
    ensures Pieces(s + [NL] + v) == Pieces(s) + [v]
    decreases |s|
  {
    var k := Index(s, NL, 0, |s|);
    OnePiece(v);
    if k == |s| {
      FirstPiece(s, v);
    } else {
      var first, rest := s[..k], s[k + 1..];
      assert s == first + [NL] + rest;
      assert s + [NL] + v == first + [NL] + (rest + [NL] + v);
      FirstPiece(first, rest + [NL] + v);
      FirstPiece(first, rest);
      PiecesMore(rest, v);
    }
  }

  /** The values can be told apart again. */
  lemma {:induction false} JoinUndone(values: seq<Bytes>)
    requires values != [] && forall v :: v in values ==> NL !in v
    ensures Pieces(Join(values)) == values
    decreases |values|
  {
    var n := |values| - 1;
    assert values[n] in values;
    if n == 0 {
      OnePiece(values[0]);
      assert values == [values[0]];
    } else {
      assert values == values[..n] + [values[n]];
      JoinUndone(values[..n]);
      PiecesMore(Join(values[..n]), values[n]);
    }
  }
}

/** Directory trees as the watch-root planner sees them, and what the plan for one
    is meant to be. */
module Trees {
  import opened Options
  import opened Filter

  datatype Node = File(regular: bool) | Dir(readable: bool, entries: Entries)
  datatype Entries = End | Entry(name: string, node: Node, rest: Entries)

  /** `skippedByWatcher`. */
  predicate Skipped(name: string) {
    "." <= name || "_" <= name || name == "testdata"
  }

  /** A directory the planner looks at. */
  predicate Watched(name: string, node: Node) {
    node.Dir? && !Skipped(name)
  }

  predicate Has(es: Entries, name: string) {
    es.Entry? && (es.name == name || Has(es.rest, name))
  }

  /** A directory lists a name once. */
  predicate Listed(es: Entries) {
    es.Entry? ==> Segment(es.name) && !Has(es.rest, es.name) && WellFormed(es.node) && Listed(es.rest)
  }

  predicate WellFormed(node: Node) {
    node.Dir? ==> Listed(node.entries)
  }

  function Lookup(es: Entries, name: string): Option<Node> {
    if es.End? then None
    else if es.name == name && Watched(name, es.node) then Some(es.node)
    else Lookup(es.rest, name)
  }

  /** The watched directory at path `t` below `node`, if every directory on the
      way can be read. */
  function At(node: Node, t: Path): Option<Node>
    decreases |t|
  {
    if node.File? then None
    else if t == [] then Some(node)
    else if !node.readable || Lookup(node.entries, t[0]).None? then None
    else At(Lookup(node.entries, t[0]).value, t[1..])
  }

  // ----- what is clean

  /** Nothing below is excluded, as far as can be seen. */
  predicate Clean(f: seq<Rule>, p: Path, node: Node)
    decreases node
  {
    node.Dir? && node.readable ==> CleanIn(f, p, node.entries)
  }

  predicate CleanIn(f: seq<Rule>, p: Path, es: Entries)
    decreases es
  {
    es.Entry? ==>
      && (Watched(es.name, es.node) ==> Include(f, p + [es.name]) && Clean(f, p + [es.name], es.node))
      && CleanIn(f, p, es.rest)
  }

  lemma {:induction false} CleanChild(f: seq<Rule>, p: Path, es: Entries, name: string)
    requires CleanIn(f, p, es) && Lookup(es, name).Some?
    ensures Include(f, p + [name]) && Clean(f, p + [name], Lookup(es, name).value)
  {
    if !(es.name == name && Watched(name, es.node)) {
      CleanChild(f, p, es.rest, name);
    }
  }

  /** Everything below a clean directory is included and clean. */
  lemma {:induction false} CleanBelow(f: seq<Rule>, p: Path, node: Node, t: Path)
    requires Clean(f, p, node) && At(node, t).Some?
    ensures t != [] ==> Include(f, p + t)
    ensures Clean(f, p + t, At(node, t).value)
    decreases |t|
  {
    if t == [] {
      assert p + t == p;
    } else {
      CleanChild(f, p, node.entries, t[0]);
      CleanBelow(f, p + [t[0]], Lookup(node.entries, t[0]).value, t[1..]);
      assert p + [t[0]] + t[1..] == p + t;
      assert t[1..] == [] ==> p + [t[0]] == p + t;
    }
  }

  /** What makes a directory unclean: an excluded one below it that can be seen. */
  lemma {:induction false} Culprit(f: seq<Rule>, p: Path, node: Node) returns (t: Path)
    requires WellFormed(node) && !Clean(f, p, node)
    ensures t != [] && At(node, t).Some? && !Include(f, p + t)
    decreases node, 1
  {
    t := CulpritIn(f, p, node.entries);
  }

  lemma {:induction false} CulpritIn(f: seq<Rule>, p: Path, es: Entries) returns (t: Path)
    requires Listed(es) && !CleanIn(f, p, es)
    ensures t != [] && At(Dir(true, es), t).Some? && !Include(f, p + t)
    decreases es, 0
  {
    if Watched(es.name, es.node) && !Include(f, p + [es.name]) {
      t := [es.name];
      assert t[1..] == [];
    } else if Watched(es.name, es.node) && !Clean(f, p + [es.name], es.node) {
      var u := Culprit(f, p + [es.name], es.node);
      t := [es.name] + u;
      assert t[1..] == u && p + [es.name] + u == p + t;
    } else {
      t := CulpritIn(f, p, es.rest);
      NotInRest(es.rest, es.name, t[0]);
    }
  }

  lemma {:induction false} NotInRest(es: Entries, name: string, other: string)
    requires !Has(es, name) && Lookup(es, other).Some?
    ensures other != name
  {
    if !(es.name == other && Watched(other, es.node)) {
      NotInRest(es.rest, name, other);
    }
  }

  /** The directory at `s + t` is the one at `t` below the one at `s`. */
  lemma {:induction false} AtBelow(node: Node, s: Path, t: Path)
    ensures At(node, s + t) == if At(node, s).Some? then At(At(node, s).value, t) else None
    decreases |s|
  {
    if s == [] {
      assert s + t == t;
    } else if node.Dir? && node.readable && Lookup(node.entries, s[0]).Some? {
      assert (s + t)[1..] == s[1..] + t;
      AtBelow(Lookup(node.entries, s[0]).value, s[1..], t);
    }
  }

  // ----- what the plan is meant to be

  /** The worktree itself is never judged by the rules. */
  predicate Included(f: seq<Rule>, t: Path) {
    t == [] || Include(f, t)
  }

  predicate CleanAt(f: seq<Rule>, top: Node, t: Path) {
    At(top, t).Some? && Clean(f, t, At(top, t).value)
  }

  /** A directory with nothing excluded in it, below one of which that cannot be
      said. */
  predicate IsRoot(f: seq<Rule>, top: Node, t: Path) {
    && At(top, t).Some? && Included(f, t) && CleanAt(f, top, t)
    && (t != [] ==> !Included(f, t[..|t| - 1]) || !CleanAt(f, top, t[..|t| - 1]))
  }

  /** An included directory with something excluded below it. */
  predicate IsPartial(f: seq<Rule>, top: Node, t: Path) {
    At(top, t).Some? && Included(f, t) && !CleanAt(f, top, t)
  }

  /** An excluded directory some + rule may reach into. */
  predicate IsDoorway(f: seq<Rule>, top: Node, t: Path) {
    At(top, t).Some? && At(top, t).value.Dir? && At(top, t).value.readable && !Included(f, t) && MayInclude(f, t)
  }

  ghost predicate Under(roots: iset<Path>, t: Path) {
    exists r :: r in roots && r <= t
  }

  ghost function RootsOf(f: seq<Rule>, top: Node): iset<Path> {
    iset t | IsRoot(f, top, t)
  }

  /** No directory below `r` is excluded. */
  ghost predicate Avoids(f: seq<Rule>, top: Node, r: Path) {
    forall t :: r <= t && At(top, t).Some? ==> Included(f, t)
  }

  // ----- the theorems

  /** From an included clean directory up to the root that covers it. */
  lemma {:induction false} RootAbove(f: seq<Rule>, top: Node, t: Path) returns (r: Path)
    requires At(top, t).Some? && Included(f, t) && CleanAt(f, top, t)
    ensures r <= t && IsRoot(f, top, r)
    decreases |t|
  {
    if t == [] || !Included(f, t[..|t| - 1]) || !CleanAt(f, top, t[..|t| - 1]) {
      r := t;
    } else {
      ParentSeen(top, t);
      r := RootAbove(f, top, t[..|t| - 1]);
    }
  }

  lemma ParentSeen(top: Node, t: Path)
    requires t != [] && At(top, t).Some?
    ensures At(top, t[..|t| - 1]).Some?
  {
    AtBelow(top, t[..|t| - 1], t[|t| - 1..]);
    assert t[..|t| - 1] + t[|t| - 1..] == t;
  }

  lemma PrefixSeen(top: Node, r: Path, t: Path)
    requires r <= t && At(top, t).Some?
    ensures At(top, r).Some? && At(top, t) == At(At(top, r).value, t[|r|..])
  {
    AtBelow(top, r, t[|r|..]);
    assert r + t[|r|..] == t;
  }

  /** Below a root everything is included and clean. */
  lemma BelowRoot(f: seq<Rule>, top: Node, r: Path, t: Path)
    requires IsRoot(f, top, r) && r <= t && At(top, t).Some?
    ensures Included(f, t) && CleanAt(f, top, t)
  {
    PrefixSeen(top, r, t);
    CleanBelow(f, r, At(top, r).value, t[|r|..]);
    assert r + t[|r|..] == t;
    assert |r| == |t| ==> r == t;
  }

  /** No two roots of a plan cover each other. */
  lemma RootsApart(f: seq<Rule>, top: Node, r: Path, s: Path)
    requires IsRoot(f, top, r) && IsRoot(f, top, s) && r <= s
    ensures r == s
  {
    if r != s {
      var parent := s[..|s| - 1];
      assert r <= parent;
      ParentSeen(top, s);
      BelowRoot(f, top, r, parent);
    }
  }

  lemma PrefixesCompare(r: Path, s: Path, t: Path)
    requires r <= t && s <= t
    ensures r <= s || s <= r
  {
    if |r| <= |s| {
      assert r == t[..|r|] == s[..|r|];
    } else {
      assert s == t[..|s|] == r[..|s|];
    }
  }

  /** Partition: every directory the planner can see is excluded, or partial, or
      under exactly one root; and never two of these. */
  lemma Partition(f: seq<Rule>, top: Node, t: Path)
    requires At(top, t).Some?
    ensures !Included(f, t) ==> !IsPartial(f, top, t) && !Under(RootsOf(f, top), t)
    ensures Included(f, t) ==> (IsPartial(f, top, t) <==> !Under(RootsOf(f, top), t))
    ensures forall r, s :: r in RootsOf(f, top) && s in RootsOf(f, top) && r <= t && s <= t ==> r == s
  {
    forall r | r in RootsOf(f, top) && r <= t ensures Included(f, t) && !IsPartial(f, top, t) {
      BelowRoot(f, top, r, t);
    }
    forall r, s | r in RootsOf(f, top) && s in RootsOf(f, top) && r <= t && s <= t ensures r == s {
      PrefixesCompare(r, s, t);
      if r <= s {
        RootsApart(f, top, r, s);
      } else {
        RootsApart(f, top, s, r);
      }
    }
    if Included(f, t) && !IsPartial(f, top, t) {
      var r := RootAbove(f, top, t);
      assert r in RootsOf(f, top);
    }
  }

  /** The roots hold no excluded directory. */
  lemma RootsAvoid(f: seq<Rule>, top: Node, r: Path)
    requires IsRoot(f, top, r)
    ensures Avoids(f, top, r)
  {
    forall t | r <= t && At(top, t).Some? ensures Included(f, t) {
      BelowRoot(f, top, r, t);
    }
  }

  /** An unclean directory can be watched by nobody who avoids the excluded. */
  lemma UncleanShows(f: seq<Rule>, top: Node, t: Path)
    requires WellFormed(top) && At(top, t).Some? && !CleanAt(f, top, t)
    ensures !Avoids(f, top, t)
  {
    AtWellFormed(top, t);
    var u := Culprit(f, t, At(top, t).value);
    AtBelow(top, t, u);
    assert t <= t + u && !Included(f, t + u);
  }

  lemma {:induction false} AtWellFormed(node: Node, t: Path)
    requires WellFormed(node) && At(node, t).Some?
    ensures WellFormed(At(node, t).value)
    decreases |t|
  {
    if t != [] {
      LookupWellFormed(node.entries, t[0]);
      AtWellFormed(Lookup(node.entries, t[0]).value, t[1..]);
    }
  }

  lemma {:induction false} LookupWellFormed(es: Entries, name: string)
    requires Listed(es) && Lookup(es, name).Some?
    ensures WellFormed(Lookup(es, name).value)
  {
    if !(es.name == name && Watched(name, es.node)) {
      LookupWellFormed(es.rest, name);
    }
  }

  /** Nothing above a root avoids the excluded. */
  lemma RootIsHighest(f: seq<Rule>, top: Node, r: Path, s: Path)
    requires WellFormed(top) && IsRoot(f, top, r) && s <= r && s != r
    ensures !Avoids(f, top, s)
  {
    var parent := r[..|r| - 1];
    ParentSeen(top, r);
    var t := parent;
    if Included(f, parent) {
      UncleanShows(f, top, parent);
      t :| parent <= t && At(top, t).Some? && !Included(f, t);
    }
    assert s <= parent <= t;
  }

  /** Minimality: any set of directories that holds nothing excluded and covers
      what the plan's roots cover contains every one of those roots. */
  lemma Minimal(f: seq<Rule>, top: Node, others: iset<Path>, r: Path)
    requires WellFormed(top) && IsRoot(f, top, r)
    requires forall s :: s in others ==> Avoids(f, top, s)
    requires forall t :: At(top, t).Some? && Under(RootsOf(f, top), t) ==> Under(others, t)
    ensures r in others
  {
    assert r in RootsOf(f, top) && Under(RootsOf(f, top), r);
    var s :| s in others && s <= r;
    if s != r {
      RootIsHighest(f, top, r, s);
    }
  }
}

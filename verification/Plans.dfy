/** What the walk yields is the plan it is meant to yield, pruned or not. */
module Plans {
  import opened Options
  import opened Filter
  import opened Trees
  import opened Planner
  import PlanNames

  // ----- sound pruning

  /** Below an excluded directory no + rule reaches, a full walk finds nothing. */
  lemma {:induction false} DeadEnd(f: seq<Rule>, base: Path, below: Path, node: Node)
    requires !Include(f, base) && !MayInclude(f, base)
    ensures ExcludedRoots(f, true, base + below, node) == []
    decreases node, 1
  {
    if node.Dir? && node.readable {
      DeadEnds(f, base, below, node.entries);
    }
  }

  lemma {:induction false} DeadEnds(f: seq<Rule>, base: Path, below: Path, es: Entries)
    requires !Include(f, base) && !MayInclude(f, base)
    ensures InsideRoots(f, true, base + below, es) == []
    decreases es, 0
  {
    if es.Entry? {
      DeadEnds(f, base, below, es.rest);
      var child := below + [es.name];
      assert base + below + [es.name] == base + child;
      NothingBelow(f, base, child);
      DeadEnd(f, base, child, es.node);
    }
  }

  /** The walk that looks only where a + rule may reach finds the same roots as
      one that looks everywhere. */
  lemma {:induction false} PrunedWalk(f: seq<Rule>, p: Path, node: Node)
    ensures WalkRoots(f, false, p, node) == WalkRoots(f, true, p, node)
    ensures ExcludedRoots(f, false, p, node) == ExcludedRoots(f, true, p, node)
    decreases node, 1
  {
    if node.Dir? {
      PrunedEntries(f, p, node.entries);
    }
  }

  lemma {:induction false} PrunedEntries(f: seq<Rule>, p: Path, es: Entries)
    ensures BelowRoots(f, false, p, es) == BelowRoots(f, true, p, es)
    ensures InsideRoots(f, false, p, es) == InsideRoots(f, true, p, es)
    decreases es, 0
  {
    if es.Entry? {
      var q := p + [es.name];
      PrunedEntries(f, p, es.rest);
      PrunedWalk(f, q, es.node);
      if !Include(f, q) && !MayInclude(f, q) {
        DeadEnd(f, q, [], es.node);
        assert q + [] == q;
      }
    }
  }

  // ----- which roots

  /** IsRoot seen from the directory `node` at `p`; `inc` is whether that one is
      included. */
  predicate RootIn(f: seq<Rule>, p: Path, node: Node, inc: bool, t: Path) {
    && t != [] && At(node, t).Some? && Include(f, p + t) && Clean(f, p + t, At(node, t).value)
    && var parent := t[..|t| - 1];
       if parent == [] then !inc || !Clean(f, p, node)
       else !Include(f, p + parent) || At(node, parent).None? || !Clean(f, p + parent, At(node, parent).value)
  }

  lemma RootInStep(f: seq<Rule>, p: Path, node: Node, inc: bool, t: Path)
    requires |t| >= 2
    ensures RootIn(f, p, node, inc, t) <==>
      && node.Dir? && node.readable && Lookup(node.entries, t[0]).Some?
      && RootIn(f, p + [t[0]], Lookup(node.entries, t[0]).value, Include(f, p + [t[0]]), t[1..])
  {
    assert p + [t[0]] + t[1..] == p + t;
    var parent := t[..|t| - 1];
    assert parent[0] == t[0] && parent[1..] == t[1..][..|t| - 2];
    assert p + [t[0]] + parent[1..] == p + parent;
    assert |t| == 2 ==> parent == [t[0]];
    if node.Dir? && node.readable && Lookup(node.entries, t[0]).Some? {
      assert At(node, parent) == At(Lookup(node.entries, t[0]).value, parent[1..]);
      LookupIsDir(node.entries, t[0]);
    }
  }

  lemma {:induction false} LookupIsDir(es: Entries, name: string)
    requires Lookup(es, name).Some?
    ensures Lookup(es, name).value.Dir? && Has(es, name)
  {
    if !(es.name == name && Watched(name, es.node)) {
      LookupIsDir(es.rest, name);
    }
  }

  /** No root lies inside a clean directory. */
  lemma CleanHasNoRoot(f: seq<Rule>, p: Path, node: Node, t: Path)
    requires Clean(f, p, node)
    ensures !RootIn(f, p, node, true, t)
  {
    if t != [] && At(node, t).Some? {
      ParentSeen(node, t);
      CleanBelow(f, p, node, t[..|t| - 1]);
    }
  }

  lemma Onward(p: Path, name: string, q: Path)
    requires p + [name] <= q
    ensures p <= q
  {
    assert p == (p + [name])[..|p|] == q[..|p|];
  }

  /** Every root of a walk lies below where it began. */
  lemma {:induction false} WalkBegins(f: seq<Rule>, p: Path, node: Node, q: Path)
    ensures q in WalkRoots(f, true, p, node) ==> p <= q
    ensures q in ExcludedRoots(f, true, p, node) ==> p <= q
    decreases node, 1
  {
    if node.Dir? {
      EntriesBegin(f, p, node.entries, q);
    }
  }

  lemma {:induction false} EntriesBegin(f: seq<Rule>, p: Path, es: Entries, q: Path)
    ensures q in BelowRoots(f, true, p, es) ==> p <= q
    ensures q in CleanChildren(f, p, es) ==> p <= q
    ensures q in InsideRoots(f, true, p, es) ==> p <= q
    decreases es, 0
  {
    if es.Entry? {
      EntriesBegin(f, p, es.rest, q);
      WalkBegins(f, p + [es.name], es.node, q);
      assert q in InsideRoots(f, true, p, es) <==>
        || q in ChildRoots(f, true, p + [es.name], es.name, es.node) || q in OwnRoot(f, p + [es.name], es.name, es.node)
        || q in InsideRoots(f, true, p, es.rest);
      if p + [es.name] <= q {
        Onward(p, es.name, q);
      }
    }
  }

  lemma OneStep(f: seq<Rule>, p: Path, node: Node, t: Path)
    requires |t| == 1 && node.Dir?
    ensures At(node, t) == if node.readable then Lookup(node.entries, t[0]) else None
    ensures t[..0] == []
  {
    assert t[1..] == [];
    if node.readable && Lookup(node.entries, t[0]).Some? {
      LookupIsDir(node.entries, t[0]);
    }
  }

  lemma {:induction false} InWalk(f: seq<Rule>, p: Path, node: Node, t: Path)
    requires WellFormed(node) && node.Dir?
    ensures p + t in WalkRoots(f, true, p, node) <==> RootIn(f, p, node, true, t)
    decreases node, 3
  {
    if Clean(f, p, node) {
      CleanHasNoRoot(f, p, node, t);
    } else {
      InBelow(f, p, node.entries, t);
      InCleanChildren(f, p, node.entries, t);
      if |t| >= 2 {
        RootInStep(f, p, node, true, t);
      } else if |t| == 1 {
        OneStep(f, p, node, t);
      }
    }
  }

  lemma {:induction false} InExcluded(f: seq<Rule>, p: Path, node: Node, t: Path)
    requires WellFormed(node) && node.Dir?
    ensures p + t in ExcludedRoots(f, true, p, node) <==> RootIn(f, p, node, false, t)
    decreases node, 3
  {
    if node.readable {
      InInside(f, p, node.entries, t);
      InBelow(f, p, node.entries, t);
      InCleanChildren(f, p, node.entries, t);
      if |t| >= 2 {
        RootInStep(f, p, node, false, t);
      } else if |t| == 1 {
        OneStep(f, p, node, t);
      }
    }
  }

  /** The roots below one watched child. */
  lemma {:induction false} InChild(f: seq<Rule>, q: Path, name: string, node: Node, t: Path)
    requires WellFormed(node) && Watched(name, node)
    ensures q + t in ChildRoots(f, true, q, name, node) <==> RootIn(f, q, node, Include(f, q), t)
    decreases node, 4
  {
    if Include(f, q) {
      InWalk(f, q, node, t);
    } else {
      InExcluded(f, q, node, t);
    }
  }

  lemma {:induction false} NotHas(es: Entries, name: string)
    requires !Has(es, name)
    ensures Lookup(es, name).None?
  {
    if es.Entry? {
      NotHas(es.rest, name);
    }
  }

  lemma {:induction false} InBelow(f: seq<Rule>, p: Path, es: Entries, t: Path)
    requires Listed(es)
    ensures p + t in BelowRoots(f, true, p, es) <==>
      && |t| >= 2 && Lookup(es, t[0]).Some?
      && RootIn(f, p + [t[0]], Lookup(es, t[0]).value, Include(f, p + [t[0]]), t[1..])
    decreases es, 0
  {
    if es.Entry? {
      var child := p + [es.name];
      InBelow(f, p, es.rest, t);
      NotHas(es.rest, es.name);
      WalkBegins(f, child, es.node, p + t);
      assert p + t in BelowRoots(f, true, p, es) <==>
        p + t in ChildRoots(f, true, child, es.name, es.node) || p + t in BelowRoots(f, true, p, es.rest);
      if t != [] && t[0] == es.name {
        assert child + t[1..] == p + t;
        if Watched(es.name, es.node) {
          InChild(f, child, es.name, es.node, t[1..]);
        }
      } else {
        NotBelow(p, es.name, t);
      }
    }
  }

  lemma NotBelow(p: Path, name: string, t: Path)
    requires t == [] || t[0] != name
    ensures !(p + [name] <= p + t)
  {
    assert t != [] ==> (p + t)[|p|] == t[0];
    assert (p + [name])[|p|] == name;
  }

  lemma {:induction false} InCleanChildren(f: seq<Rule>, p: Path, es: Entries, t: Path)
    requires Listed(es)
    ensures p + t in CleanChildren(f, p, es) <==>
      && |t| == 1 && Lookup(es, t[0]).Some? && Include(f, p + t) && Clean(f, p + t, Lookup(es, t[0]).value)
    decreases es
  {
    if es.Entry? {
      var child := p + [es.name];
      InCleanChildren(f, p, es.rest, t);
      NotHas(es.rest, es.name);
      assert p + t in CleanChildren(f, p, es) <==>
        p + t in OwnRoot(f, child, es.name, es.node) || p + t in CleanChildren(f, p, es.rest);
      if t != [] && t[0] == es.name {
        assert t == [t[0]] + t[1..];
        assert |t| == 1 ==> p + t == child;
      } else {
        NotBelow(p, es.name, t);
      }
    }
  }

  lemma {:induction false} InInside(f: seq<Rule>, p: Path, es: Entries, t: Path)
    ensures p + t in InsideRoots(f, true, p, es) <==>
      p + t in BelowRoots(f, true, p, es) || p + t in CleanChildren(f, p, es)
    decreases es
  {
    if es.Entry? {
      InInside(f, p, es.rest, t);
    }
  }

  /** The walk of a whole worktree appends exactly the roots the plan should
      have. */
  lemma WalkFindsRoots(f: seq<Rule>, top: Node, t: Path)
    requires WellFormed(top) && top.Dir? && !Clean(f, [], top)
    ensures t in WalkRoots(f, false, [], top) <==> IsRoot(f, top, t)
  {
    PrunedWalk(f, [], top);
    InWalk(f, [], top, t);
    assert [] + t == t;
    if t != [] {
      assert [] + t[..|t| - 1] == t[..|t| - 1];
      if At(top, t).Some? {
        ParentSeen(top, t);
      }
    }
  }

  // ----- no root twice

  predicate Once(s: seq<Path>) {
    forall j, k :: 0 <= j < k < |s| ==> s[j] != s[k]
  }

  lemma OnceBoth(a: seq<Path>, b: seq<Path>)
    requires Once(a) && Once(b) && forall q :: q in a ==> q !in b
    ensures Once(a + b)
  {
    forall j, k | 0 <= j < k < |a + b| ensures (a + b)[j] != (a + b)[k] {
      if j < |a| <= k {
        assert a[j] in a && b[k - |a|] in b;
      }
    }
  }

  /** The roots below one child are not those of the entries after it. */
  lemma ChildApart(f: seq<Rule>, p: Path, es: Entries, q: Path)
    requires es.Entry? && Listed(es) && p + [es.name] <= q
    ensures q !in BelowRoots(f, true, p, es.rest)
    ensures q !in CleanChildren(f, p, es.rest) && q !in InsideRoots(f, true, p, es.rest)
  {
    Onward(p, es.name, q);
    var t := q[|p|..];
    assert p + t == q && t[0] == (p + [es.name])[|p|] == es.name;
    NotHas(es.rest, es.name);
    InBelow(f, p, es.rest, t);
    InCleanChildren(f, p, es.rest, t);
    InInside(f, p, es.rest, t);
  }

  lemma {:induction false} ChildOnce(f: seq<Rule>, q: Path, name: string, node: Node)
    requires WellFormed(node)
    ensures Once(ChildRoots(f, true, q, name, node))
    ensures Once(ChildRoots(f, true, q, name, node) + OwnRoot(f, q, name, node))
    decreases node, 3
  {
    if Watched(name, node) {
      WalkOnce(f, q, node);
      InChild(f, q, name, node, []);
      assert q + [] == q;
      OnceBoth(ChildRoots(f, true, q, name, node), OwnRoot(f, q, name, node));
    }
  }

  lemma {:induction false} WalkOnce(f: seq<Rule>, p: Path, node: Node)
    requires WellFormed(node) && node.Dir?
    ensures Once(WalkRoots(f, true, p, node)) && Once(ExcludedRoots(f, true, p, node))
    decreases node, 2
  {
    EntriesOnce(f, p, node.entries);
    forall q | q in BelowRoots(f, true, p, node.entries) ensures q !in CleanChildren(f, p, node.entries) {
      EntriesBegin(f, p, node.entries, q);
      var t := q[|p|..];
      assert p + t == q;
      InBelow(f, p, node.entries, t);
      InCleanChildren(f, p, node.entries, t);
    }
    OnceBoth(BelowRoots(f, true, p, node.entries), CleanChildren(f, p, node.entries));
  }

  lemma {:induction false} EntriesOnce(f: seq<Rule>, p: Path, es: Entries)
    requires Listed(es)
    ensures Once(BelowRoots(f, true, p, es)) && Once(CleanChildren(f, p, es)) && Once(InsideRoots(f, true, p, es))
    decreases es, 0
  {
    if es.Entry? {
      var child := p + [es.name];
      var below, own := ChildRoots(f, true, child, es.name, es.node), OwnRoot(f, child, es.name, es.node);
      EntriesOnce(f, p, es.rest);
      ChildOnce(f, child, es.name, es.node);
      forall q | q in below + own
        ensures q !in BelowRoots(f, true, p, es.rest)
        ensures q !in CleanChildren(f, p, es.rest) && q !in InsideRoots(f, true, p, es.rest)
      {
        WalkBegins(f, child, es.node, q);
        ChildApart(f, p, es, q);
      }
      OnceBoth(below, BelowRoots(f, true, p, es.rest));
      OnceBoth(own, CleanChildren(f, p, es.rest));
      OnceBoth(below + own, InsideRoots(f, true, p, es.rest));
    }
  }

  // ----- which partial directories

  function Get(m: map<Path, Partial>, k: Path): Option<Partial> {
    if k in m then Some(m[k]) else None
  }

  /** What is recorded for the directory at `t` below the one at `p`; `inc` is
      whether the latter is included. */
  function Recorded(f: seq<Rule>, p: Path, node: Node, inc: bool, t: Path): Option<Partial> {
    if At(node, t).None? || At(node, t).value.File? then None
    else
      var d := At(node, t).value;
      if (if t == [] then inc else Include(f, p + t)) then
        if Clean(f, p + t, d) then None else Some(Partial(RelevantNames(f, p + t, d.entries, true), true))
      else if d.readable && (t == [] || MayInclude(f, p + t)) then
        Some(Partial(RelevantNames(f, p + t, d.entries, false), false))
      else None
  }

  /** The same, one directory further down. */
  function RecordedBelow(f: seq<Rule>, q: Path, node: Node, t: Path): Option<Partial> {
    if Include(f, q) then Recorded(f, q, node, true, t)
    else if MayInclude(f, q) then Recorded(f, q, node, false, t)
    else None
  }

  lemma MayIncludeAbove(f: seq<Rule>, p: Path, t: Path)
    requires MayInclude(f, p + t)
    ensures MayInclude(f, p)
  {
    var rule :| rule in f && rule.plus && (rule.path == [] || "**" in rule.path || p + t <= rule.path);
    assert p == (p + t)[..|p|];
  }

  lemma DeadRecords(f: seq<Rule>, q: Path, t: Path)
    requires !Include(f, q) && !MayInclude(f, q)
    ensures !Include(f, q + t) && !MayInclude(f, q + t)
  {
    NothingBelow(f, q, t);
    if MayInclude(f, q + t) {
      MayIncludeAbove(f, q, t);
    }
  }

  lemma RecordedStep(f: seq<Rule>, p: Path, node: Node, inc: bool, t: Path)
    requires t != [] && node.Dir?
    ensures Recorded(f, p, node, inc, t) ==
      if node.readable && Lookup(node.entries, t[0]).Some?
      then RecordedBelow(f, p + [t[0]], Lookup(node.entries, t[0]).value, t[1..]) else None
  {
    assert p + [t[0]] + t[1..] == p + t;
    if t[1..] == [] {
      assert p + [t[0]] == p + t;
    }
    if !Include(f, p + [t[0]]) && !MayInclude(f, p + [t[0]]) {
      DeadRecords(f, p + [t[0]], t[1..]);
    }
  }

  lemma CleanRecordsNothing(f: seq<Rule>, p: Path, node: Node, t: Path)
    requires Clean(f, p, node)
    ensures Recorded(f, p, node, true, t).None?
  {
    if At(node, t).Some? {
      CleanBelow(f, p, node, t);
      assert p + [] == p;
    }
  }

  /** Everything recorded lies at or below where the walk began. */
  lemma {:induction false} RecordsBegin(f: seq<Rule>, p: Path, node: Node, q: Path)
    ensures q in WalkPartial(f, p, node) ==> p <= q
    ensures q in ExcludedPartial(f, p, node) ==> p <= q
    decreases node, 1
  {
    if node.Dir? {
      EntryRecordsBegin(f, p, node.entries, q);
    }
  }

  lemma {:induction false} EntryRecordsBegin(f: seq<Rule>, p: Path, es: Entries, q: Path)
    ensures q in BelowPartial(f, p, es) ==> p <= q && q != p
    decreases es, 0
  {
    if es.Entry? {
      EntryRecordsBegin(f, p, es.rest, q);
      RecordsBegin(f, p + [es.name], es.node, q);
      assert q in BelowPartial(f, p, es) <==>
        q in ChildPartial(f, p + [es.name], es.name, es.node) || q in BelowPartial(f, p, es.rest);
      if p + [es.name] <= q {
        Onward(p, es.name, q);
      }
    }
  }

  lemma {:induction false} WalkRecords(f: seq<Rule>, p: Path, node: Node, t: Path)
    requires WellFormed(node) && node.Dir?
    ensures Get(WalkPartial(f, p, node), p + t) == Recorded(f, p, node, true, t)
    decreases node, 3
  {
    if Clean(f, p, node) {
      CleanRecordsNothing(f, p, node, t);
    } else if t == [] {
      assert p + t == p;
    } else {
      assert p + t != p;
      EntriesRecord(f, p, node.entries, t);
      RecordedStep(f, p, node, true, t);
    }
  }

  lemma {:induction false} ExcludedRecords(f: seq<Rule>, p: Path, node: Node, t: Path)
    requires WellFormed(node) && node.Dir?
    ensures Get(ExcludedPartial(f, p, node), p + t) == Recorded(f, p, node, false, t)
    decreases node, 3
  {
    if t == [] {
      assert p + t == p;
    } else {
      assert p + t != p;
      RecordedStep(f, p, node, false, t);
      if node.readable {
        EntriesRecord(f, p, node.entries, t);
      }
    }
  }

  lemma {:induction false} ChildRecords(f: seq<Rule>, q: Path, name: string, node: Node, t: Path)
    requires WellFormed(node)
    ensures Get(ChildPartial(f, q, name, node), q + t) ==
      if Watched(name, node) then RecordedBelow(f, q, node, t) else None
    decreases node, 4
  {
    if Watched(name, node) {
      if Include(f, q) {
        WalkRecords(f, q, node, t);
      } else {
        ExcludedRecords(f, q, node, t);
      }
    }
  }

  lemma {:induction false} EntriesRecord(f: seq<Rule>, p: Path, es: Entries, t: Path)
    requires Listed(es) && t != []
    ensures Get(BelowPartial(f, p, es), p + t) ==
      if Lookup(es, t[0]).Some? then RecordedBelow(f, p + [t[0]], Lookup(es, t[0]).value, t[1..]) else None
    decreases es, 0
  {
    if es.Entry? {
      var child := p + [es.name];
      EntriesRecord(f, p, es.rest, t);
      NotHas(es.rest, es.name);
      RecordsBegin(f, child, es.node, p + t);
      if t[0] == es.name {
        assert child + t[1..] == p + t;
        ChildRecords(f, child, es.name, es.node, t[1..]);
      } else {
        NotBelow(p, es.name, t);
      }
    }
  }

  // ----- the whole plan

  lemma {:induction false} NoRulesClean(p: Path, node: Node)
    ensures Clean([], p, node)
    decreases node, 1
  {
    if node.Dir? {
      NoRulesCleanIn(p, node.entries);
    }
  }

  lemma {:induction false} NoRulesCleanIn(p: Path, es: Entries)
    ensures CleanIn([], p, es)
    decreases es, 0
  {
    if es.Entry? {
      NoRulesCleanIn(p, es.rest);
      NoRulesClean(p + [es.name], es.node);
    }
  }

  /** With nothing excluded the worktree itself is the one root. */
  lemma CleanPlan(f: seq<Rule>, top: Node, t: Path)
    requires top.Dir? && Clean(f, [], top)
    ensures IsRoot(f, top, t) <==> t == []
    ensures !IsPartial(f, top, t) && !(At(top, t).Some? && !Included(f, t))
  {
    assert [] + t == t;
    if At(top, t).Some? {
      CleanBelow(f, [], top, t);
      if t != [] {
        ParentSeen(top, t);
        var parent := t[..|t| - 1];
        assert [] + parent == parent;
        CleanBelow(f, [], top, parent);
      }
    }
  }

  /** What the plan records for the directory at `t`. */
  lemma PlanRecords(f: seq<Rule>, top: Node, t: Path)
    requires WellFormed(top) && top.Dir?
    ensures IsPartial(f, top, t) ==>
      Get(WalkPartial(f, [], top), t) == Some(Partial(RelevantNames(f, t, At(top, t).value.entries, true), true))
    ensures IsDoorway(f, top, t) ==>
      Get(WalkPartial(f, [], top), t) == Some(Partial(RelevantNames(f, t, At(top, t).value.entries, false), false))
    ensures !IsPartial(f, top, t) && !IsDoorway(f, top, t) ==> Get(WalkPartial(f, [], top), t).None?
    ensures IsPartial(f, top, t) || IsDoorway(f, top, t) ==>
      NamesAt(f, top, t, IsPartial(f, top, t), Get(WalkPartial(f, [], top), t).value.names)
  {
    assert [] + t == t;
    WalkRecords(f, [], top, t);
    if At(top, t).Some? {
      AtIsDir(top, t);
      if IsPartial(f, top, t) || IsDoorway(f, top, t) {
        NamesRecorded(f, top, t, IsPartial(f, top, t));
      }
    }
  }

  /** What is recorded for a directory that can be read: the subdirectories that are
      seen and included, or, in an excluded one, that a + rule may reach; the files
      gopls reads, unless it is excluded; nothing else, and nothing twice. */
  ghost predicate NamesAt(f: seq<Rule>, top: Node, t: Path, files: bool, names: seq<string>) {
    && At(top, t).Some? && At(top, t).value.Dir?
    && PlanNames.Names(f, t, At(top, t).value.entries, files, names)
    && forall d :: d + "/" in names <==>
         At(top, t + [d]).Some? && (Included(f, t + [d]) || (!files && MayInclude(f, t + [d])))
  }

  lemma NamesRecorded(f: seq<Rule>, top: Node, t: Path, files: bool)
    requires WellFormed(top) && At(top, t).Some? && At(top, t).value.Dir? && At(top, t).value.readable
    ensures NamesAt(f, top, t, files, RelevantNames(f, t, At(top, t).value.entries, files))
  {
    var dir := At(top, t).value;
    AtWellFormed(top, t);
    PlanNames.NamesAre(f, t, dir.entries, files);
    forall d ensures At(top, t + [d]).Some? <==> Lookup(dir.entries, d).Some? {
      AtBelow(top, t, [d]);
      assert [d][1..] == [];
      if Lookup(dir.entries, d).Some? {
        LookupIsDir(dir.entries, d);
      }
    }
  }

  lemma {:induction false} AtIsDir(node: Node, t: Path)
    requires At(node, t).Some?
    ensures At(node, t).value.Dir?
    decreases |t|
  {
    if t != [] {
      AtIsDir(Lookup(node.entries, t[0]).value, t[1..]);
    }
  }

  /** `planWatch`, without the final sorting. */
  method PlanWatch(texts: seq<string>, top: Node) returns (roots: seq<Path>, partial: map<Path, Partial>)
    requires WellFormed(top) && top.Dir?
    ensures forall t :: t in roots <==> IsRoot(Compiled(texts), top, t)
    ensures Once(roots)
    ensures forall t :: t in partial <==> IsPartial(Compiled(texts), top, t) || IsDoorway(Compiled(texts), top, t)
    ensures forall t :: t in partial ==>
      && partial[t].files == IsPartial(Compiled(texts), top, t) && At(top, t).Some? && At(top, t).value.Dir?
      && partial[t].names == RelevantNames(Compiled(texts), t, At(top, t).value.entries, partial[t].files)
      && NamesAt(Compiled(texts), top, t, partial[t].files, partial[t].names)
  {
    var f := Compiled(texts);
    roots, partial := [[]], map[];
    if texts == [] {
      NoRulesClean([], top);
    } else {
      var w := new Walker(f);
      var clean := w.Walk([], top);
      if !clean {
        roots, partial := w.roots, w.partial;
        PlanIs(f, top);
        assert map[] + WalkPartial(f, [], top) == WalkPartial(f, [], top);
        return;
      }
    }
    forall t ensures (t in [[]] <==> IsRoot(f, top, t)) && !IsPartial(f, top, t) && !IsDoorway(f, top, t) {
      CleanPlan(f, top, t);
    }
  }

  lemma PlanIs(f: seq<Rule>, top: Node)
    requires WellFormed(top) && top.Dir? && !Clean(f, [], top)
    ensures Once(WalkRoots(f, false, [], top))
    ensures forall t :: t in WalkRoots(f, false, [], top) <==> IsRoot(f, top, t)
    ensures var partial := WalkPartial(f, [], top);
      && (forall t :: t in partial <==> IsPartial(f, top, t) || IsDoorway(f, top, t))
      && (forall t :: t in partial ==>
           && partial[t].files == IsPartial(f, top, t) && At(top, t).Some? && At(top, t).value.Dir?
           && partial[t].names == RelevantNames(f, t, At(top, t).value.entries, partial[t].files)
           && NamesAt(f, top, t, partial[t].files, partial[t].names))
  {
    PrunedWalk(f, [], top);
    WalkOnce(f, [], top);
    forall t ensures t in WalkRoots(f, false, [], top) <==> IsRoot(f, top, t) {
      WalkFindsRoots(f, top, t);
    }
    var partial := WalkPartial(f, [], top);
    forall t ensures t in partial <==> IsPartial(f, top, t) || IsDoorway(f, top, t)
             ensures t in partial ==>
               && partial[t].files == IsPartial(f, top, t) && At(top, t).Some? && At(top, t).value.Dir?
               && partial[t].names == RelevantNames(f, t, At(top, t).value.entries, partial[t].files)
               && NamesAt(f, top, t, partial[t].files, partial[t].names)
    {
      PlanRecords(f, top, t);
      if At(top, t).Some? {
        AtIsDir(top, t);
      }
    }
  }

  /** A subdirectory an excluded directory does not list cannot lead to anything
      that is watched: its coming or going condemns nobody. */
  lemma UnlistedLeadsNowhere(f: seq<Rule>, p: Path, name: string, node: Node, below: Path)
    requires Watched(name, node) && Relevant(f, p, name, node, false) == []
    ensures !Include(f, p + [name] + below) && !MayInclude(f, p + [name] + below)
  {
    DeadRecords(f, p + [name], below);
  }
}

/** The walk that plans what a gopls is told to watch. */
module Planner {
  import opened Filter
  import opened Trees

  datatype Partial = Partial(names: seq<string>, files: bool)

  // ----- names

  /** `filepath.Ext` of a name: from its last dot. */
  function Ext(name: string): string {
    if name == "" then "" else if name[|name| - 1] == '.' then "." else
    var before := Ext(name[..|name| - 1]);
    if before == "" then "" else before + [name[|name| - 1]]
  }

  /** `watchedFile`. */
  predicate WatchedFile(name: string) {
    Ext(name) in {".go", ".mod", ".sum", ".work", ".s"}
  }

  /** Whether an entry's coming or going matters, and under which name. */
  function Relevant(f: seq<Rule>, p: Path, name: string, node: Node, files: bool): seq<string> {
    if Watched(name, node) then
      var child := p + [name];
      if (files && Include(f, child)) || (!files && (Include(f, child) || MayInclude(f, child)))
      then [name + "/"] else []
    else if files && node.File? && node.regular && WatchedFile(name) then [name]
    else []
  }

  function RelevantNames(f: seq<Rule>, p: Path, es: Entries, files: bool): seq<string> {
    if es.End? then [] else Relevant(f, p, es.name, es.node, files) + RelevantNames(f, p, es.rest, files)
  }

  // ----- the walk, as functions

  /** Whether to look into an excluded directory; `all` is a walk that always
      does. */
  predicate Looks(f: seq<Rule>, p: Path, all: bool) {
    all || MayInclude(f, p)
  }

  /** The roots `walk` appends. */
  function WalkRoots(f: seq<Rule>, all: bool, p: Path, node: Node): seq<Path>
    decreases node, 0
  {
    if node.File? || Clean(f, p, node) then []
    else BelowRoots(f, all, p, node.entries) + CleanChildren(f, p, node.entries)
  }

  function BelowRoots(f: seq<Rule>, all: bool, p: Path, es: Entries): seq<Path>
    decreases es, 0
  {
    if es.End? then [] else ChildRoots(f, all, p + [es.name], es.name, es.node) + BelowRoots(f, all, p, es.rest)
  }

  function ChildRoots(f: seq<Rule>, all: bool, q: Path, name: string, node: Node): seq<Path>
    decreases node, 1
  {
    if !Watched(name, node) then []
    else if Include(f, q) then WalkRoots(f, all, q, node)
    else if Looks(f, q, all) then ExcludedRoots(f, all, q, node)
    else []
  }

  /** The children of a partial directory with nothing excluded in them. */
  function CleanChildren(f: seq<Rule>, p: Path, es: Entries): seq<Path> {
    if es.End? then [] else OwnRoot(f, p + [es.name], es.name, es.node) + CleanChildren(f, p, es.rest)
  }

  function OwnRoot(f: seq<Rule>, q: Path, name: string, node: Node): seq<Path> {
    if Watched(name, node) && Include(f, q) && Clean(f, q, node) then [q] else []
  }

  /** The roots `walkExcluded` appends. */
  function ExcludedRoots(f: seq<Rule>, all: bool, p: Path, node: Node): seq<Path>
    decreases node, 0
  {
    if node.File? || !node.readable then [] else InsideRoots(f, all, p, node.entries)
  }

  /** Inside an excluded directory a child with nothing excluded is a root at
      once. */
  function InsideRoots(f: seq<Rule>, all: bool, p: Path, es: Entries): seq<Path>
    decreases es, 0
  {
    if es.End? then [] else
      ChildRoots(f, all, p + [es.name], es.name, es.node) + OwnRoot(f, p + [es.name], es.name, es.node)
      + InsideRoots(f, all, p, es.rest)
  }

  /** The partial directories `walk` records. */
  function WalkPartial(f: seq<Rule>, p: Path, node: Node): map<Path, Partial>
    decreases node, 0
  {
    if node.File? || Clean(f, p, node) then map[]
    else BelowPartial(f, p, node.entries)[p := Partial(RelevantNames(f, p, node.entries, true), true)]
  }

  function BelowPartial(f: seq<Rule>, p: Path, es: Entries): map<Path, Partial>
    decreases es, 0
  {
    if es.End? then map[] else ChildPartial(f, p + [es.name], es.name, es.node) + BelowPartial(f, p, es.rest)
  }

  function ChildPartial(f: seq<Rule>, q: Path, name: string, node: Node): map<Path, Partial>
    decreases node, 1
  {
    if !Watched(name, node) then map[]
    else if Include(f, q) then WalkPartial(f, q, node)
    else if MayInclude(f, q) then ExcludedPartial(f, q, node)
    else map[]
  }

  /** The partial directories `walkExcluded` records. */
  function ExcludedPartial(f: seq<Rule>, p: Path, node: Node): map<Path, Partial>
    decreases node, 0
  {
    if node.File? || !node.readable then map[]
    else BelowPartial(f, p, node.entries)[p := Partial(RelevantNames(f, p, node.entries, false), false)]
  }

  /** A walk through a clean directory adds nothing. */
  lemma {:induction false} CleanWalksNothing(f: seq<Rule>, all: bool, p: Path, es: Entries)
    requires CleanIn(f, p, es)
    ensures BelowRoots(f, all, p, es) == [] && BelowPartial(f, p, es) == map[]
  {
    if es.Entry? {
      CleanWalksNothing(f, all, p, es.rest);
      assert ChildRoots(f, all, p + [es.name], es.name, es.node) == [];
      assert ChildPartial(f, p + [es.name], es.name, es.node) == map[];
    }
  }

  // ----- the walk, as the source runs it

  lemma Regroup<T>(a: seq<T>, b: seq<T>, c: seq<T>)
    ensures a + b + c == a + (b + c)
  {
  }

  lemma UpdateLast<K, V>(a: map<K, V>, b: map<K, V>, k: K, v: V)
    ensures (a + b)[k := v] == a + b[k := v]
  {
  }

  /** What a loop over the entries appends to what it has. */
  function RootsAfter(f: seq<Rule>, p: Path, es: Entries, roots: seq<Path>): seq<Path> {
    if es.End? then roots
    else RootsAfter(f, p, es.rest, roots + ChildRoots(f, false, p + [es.name], es.name, es.node))
  }

  function InsideAfter(f: seq<Rule>, p: Path, es: Entries, roots: seq<Path>): seq<Path> {
    if es.End? then roots
    else InsideAfter(f, p, es.rest, roots + ChildRoots(f, false, p + [es.name], es.name, es.node)
                                          + OwnRoot(f, p + [es.name], es.name, es.node))
  }

  function ChildrenAfter(f: seq<Rule>, p: Path, es: Entries, dirs: seq<Path>): seq<Path> {
    if es.End? then dirs else ChildrenAfter(f, p, es.rest, dirs + OwnRoot(f, p + [es.name], es.name, es.node))
  }

  function PartialAfter(f: seq<Rule>, p: Path, es: Entries, partial: map<Path, Partial>): map<Path, Partial> {
    if es.End? then partial
    else PartialAfter(f, p, es.rest, partial + ChildPartial(f, p + [es.name], es.name, es.node))
  }

  lemma {:induction false} RootsGathered(f: seq<Rule>, p: Path, es: Entries, roots: seq<Path>)
    ensures RootsAfter(f, p, es, roots) == roots + BelowRoots(f, false, p, es)
  {
    if es.Entry? {
      var piece := ChildRoots(f, false, p + [es.name], es.name, es.node);
      RootsGathered(f, p, es.rest, roots + piece);
      Regroup(roots, piece, BelowRoots(f, false, p, es.rest));
    }
  }

  lemma {:induction false} InsideGathered(f: seq<Rule>, p: Path, es: Entries, roots: seq<Path>)
    ensures InsideAfter(f, p, es, roots) == roots + InsideRoots(f, false, p, es)
  {
    if es.Entry? {
      var below := ChildRoots(f, false, p + [es.name], es.name, es.node);
      var own := OwnRoot(f, p + [es.name], es.name, es.node);
      InsideGathered(f, p, es.rest, roots + below + own);
      Regroup(roots, below, own);
      Regroup(roots, below + own, InsideRoots(f, false, p, es.rest));
    }
  }

  lemma {:induction false} ChildrenGathered(f: seq<Rule>, p: Path, es: Entries, dirs: seq<Path>)
    ensures ChildrenAfter(f, p, es, dirs) == dirs + CleanChildren(f, p, es)
  {
    if es.Entry? {
      var own := OwnRoot(f, p + [es.name], es.name, es.node);
      ChildrenGathered(f, p, es.rest, dirs + own);
      Regroup(dirs, own, CleanChildren(f, p, es.rest));
    }
  }

  lemma {:induction false} PartialGathered(f: seq<Rule>, p: Path, es: Entries, partial: map<Path, Partial>)
    ensures PartialAfter(f, p, es, partial) == partial + BelowPartial(f, p, es)
  {
    if es.Entry? {
      PartialGathered(f, p, es.rest, partial + ChildPartial(f, p + [es.name], es.name, es.node));
    } else {
      assert partial + map[] == partial;
    }
  }

  class Walker {
    const rules: seq<Rule>
    var roots: seq<Path>
    var partial: map<Path, Partial>

    constructor (rules: seq<Rule>)
      ensures this.rules == rules && roots == [] && partial == map[]
    {
      this.rules := rules;
      roots, partial := [], map[];
    }

    method Relevants(es: Entries, p: Path, files: bool) returns (names: seq<string>)
      ensures names == RelevantNames(rules, p, es, files)
    {
      names := [];
      var rest := es;
      while rest.Entry?
        invariant names + RelevantNames(rules, p, rest, files) == RelevantNames(rules, p, es, files)
        decreases rest
      {
        ghost var before := names;
        ghost var piece := Relevant(rules, p, rest.name, rest.node, files);
        if rest.node.Dir? && !Skipped(rest.name) {
          var child := p + [rest.name];
          if (files && Include(rules, child)) || (!files && (Include(rules, child) || MayInclude(rules, child))) {
            names := names + [rest.name + "/"];
          }
        } else if files && rest.node.File? && rest.node.regular && WatchedFile(rest.name) {
          names := names + [rest.name];
        }
        assert names == before + piece;
        Regroup(before, piece, RelevantNames(rules, p, rest.rest, files));
        rest := rest.rest;
      }
    }

    /** One entry of a directory that is walked: whether it is a directory with
        nothing excluded in it. */
    method WalkChild(q: Path, name: string, node: Node) returns (clean: bool)
      modifies this
      ensures clean == (Watched(name, node) && Include(rules, q) && Clean(rules, q, node))
      ensures roots == old(roots) + ChildRoots(rules, false, q, name, node)
      ensures partial == old(partial) + ChildPartial(rules, q, name, node)
      decreases node, 3
    {
      clean := false;
      assert partial == partial + map[];
      if node.File? || Skipped(name) {
        return;
      }
      if !Include(rules, q) {
        if MayInclude(rules, q) {
          WalkExcluded(q, node);
        }
      } else {
        clean := Walk(q, node);
      }
    }

    /** The loop of `walk`. */
    method WalkEntries(p: Path, es: Entries) returns (dirty: bool, cleanDirs: seq<Path>)
      modifies this
      ensures dirty == !CleanIn(rules, p, es)
      ensures cleanDirs == CleanChildren(rules, p, es)
      ensures roots == old(roots) + BelowRoots(rules, false, p, es)
      ensures partial == old(partial) + BelowPartial(rules, p, es)
      decreases es, 2
    {
      cleanDirs, dirty := [], false;
      var rest := es;
      while rest.Entry?
        invariant rest == es || rest < es
        invariant CleanIn(rules, p, es) == (!dirty && CleanIn(rules, p, rest))
        invariant RootsAfter(rules, p, rest, roots) == RootsAfter(rules, p, es, old(roots))
        invariant ChildrenAfter(rules, p, rest, cleanDirs) == ChildrenAfter(rules, p, es, [])
        invariant PartialAfter(rules, p, rest, partial) == PartialAfter(rules, p, es, old(partial))
        decreases rest
      {
        var child := p + [rest.name];
        var clean := WalkChild(child, rest.name, rest.node);
        if clean {
          cleanDirs := cleanDirs + [child];
        } else if Watched(rest.name, rest.node) {
          dirty := true;
        }
        assert cleanDirs + [] == cleanDirs;
        rest := rest.rest;
      }
      RootsGathered(rules, p, es, old(roots));
      ChildrenGathered(rules, p, es, []);
      PartialGathered(rules, p, es, old(partial));
    }

    method Walk(p: Path, node: Node) returns (clean: bool)
      requires node.Dir?
      modifies this
      ensures clean == Clean(rules, p, node)
      ensures roots == old(roots) + WalkRoots(rules, false, p, node)
      ensures partial == old(partial) + WalkPartial(rules, p, node)
      decreases node, 0
    {
      assert partial == partial + map[];
      if !node.readable {
        return true;
      }
      var dirty, cleanDirs := WalkEntries(p, node.entries);
      if !dirty {
        CleanWalksNothing(rules, false, p, node.entries);
        return true;
      }
      Regroup(old(roots), BelowRoots(rules, false, p, node.entries), CleanChildren(rules, p, node.entries));
      roots := roots + cleanDirs;
      var names := Relevants(node.entries, p, true);
      UpdateLast(old(partial), BelowPartial(rules, p, node.entries), p, Partial(names, true));
      partial := partial[p := Partial(names, true)];
      return false;
    }

    method WalkExcluded(p: Path, node: Node)
      requires node.Dir?
      modifies this
      ensures roots == old(roots) + ExcludedRoots(rules, false, p, node)
      ensures partial == old(partial) + ExcludedPartial(rules, p, node)
      decreases node, 0
    {
      assert partial == partial + map[];
      if !node.readable {
        return;
      }
      var es, rest := node.entries, node.entries;
      while rest.Entry?
        invariant rest == es || rest < es
        invariant InsideAfter(rules, p, rest, roots) == InsideAfter(rules, p, es, old(roots))
        invariant PartialAfter(rules, p, rest, partial) == PartialAfter(rules, p, es, old(partial))
        decreases rest
      {
        var child := p + [rest.name];
        var clean := WalkChild(child, rest.name, rest.node);
        if clean {
          roots := roots + [child];
        }
        assert roots + [] == roots;
        rest := rest.rest;
      }
      InsideGathered(rules, p, es, old(roots));
      PartialGathered(rules, p, es, old(partial));
      var names := Relevants(node.entries, p, false);
      UpdateLast(old(partial), BelowPartial(rules, p, es), p, Partial(names, false));
      partial := partial[p := Partial(names, false)];
    }
  }
}

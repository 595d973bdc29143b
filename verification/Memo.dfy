/** The two-level path memo: what it answers, how old that is, and that a full
    set of hits answers what resolution would. */
module Memo {
  import opened Options

  datatype PathMemo = PathMemo(worktree: string, physical: string)

  datatype State = State(paths: map<string, PathMemo>, dirs: map<string, string>, expires: Option<int>,
                         generation: nat)

  datatype Limits = Limits(ttl: int, entries: int)

  /** `expireMemosLocked`: both levels go together. */
  function Expire(s: State, now: int, limits: Limits): State {
    if s.expires.Some? && now < s.expires.value then s
    else State(map[], map[], Some(now + limits.ttl), s.generation + 1)
  }

  /** `memoize`: at capacity the level is cleared first. */
  function Memoize<V>(cache: map<string, V>, key: string, value: V, limits: Limits): map<string, V> {
    if key !in cache && |cache| >= limits.entries then map[key := value] else cache[key := value]
  }

  lemma MemoizeBounds<V>(cache: map<string, V>, key: string, value: V, limits: Limits)
    requires |cache| <= Max(1, limits.entries)
    ensures |Memoize(cache, key, value, limits)| <= Max(1, limits.entries)
    ensures Memoize(cache, key, value, limits).Keys <= cache.Keys + {key}
  {
    if key in cache {
      assert cache[key := value].Keys == cache.Keys;
    } else {
      assert cache[key := value].Keys == cache.Keys + {key};
    }
  }

  function Max(a: int, b: int): int { if a < b then b else a }

  // ----- the memo as the router keeps it

  class Cache {
    const limits: Limits
    var paths: map<string, PathMemo>
    var dirs: map<string, string>
    var expires: Option<int>
    var generation: nat
    var hits: nat
    var misses: nat

    function View(): State
      reads this
    {
      State(paths, dirs, expires, generation)
    }

    constructor (limits: Limits)
      ensures View() == State(map[], map[], None, 0) && this.limits == limits
    {
      this.limits := limits;
      paths, dirs, expires, generation, hits, misses := map[], map[], None, 0, 0, 0;
    }

    method ExpireLocked(now: int)
      modifies this
      requires expires.None? ==> paths == map[] && dirs == map[]
      ensures View() == Expire(old(View()), now, limits) && expires.Some?
      ensures hits == old(hits) && misses == old(misses)
    {
      if expires.Some? && now < expires.value {
        return;
      }
      if expires.Some? {
        paths, dirs := map[], map[];
      }
      expires := Some(now + limits.ttl);
      generation := generation + 1;
    }

    /** `appendMemoizedWorktree`. */
    method AppendMemoized(found: seq<string>, path: string) returns (after: seq<string>, ok: bool)
      modifies this`hits, this`misses
      ensures (if ok then Some(after) else None) == AppendKnown(paths, found, path)
      ensures hits == old(hits) + (if Absolute(path) && path in paths then 1 else 0)
      ensures misses == old(misses) + (if Absolute(path) && path !in paths then 1 else 0)
    {
      if !Absolute(path) {
        return found, true;
      }
      if path !in paths {
        misses := misses + 1;
        return found, false;
      }
      hits := hits + 1;
      if paths[path].worktree in found {
        return found, true;
      }
      return found + [paths[path].worktree], true;
    }

    /** One of the loops of `cachedWorktrees`. */
    method AppendEach(found: seq<string>, names: seq<string>) returns (after: seq<string>, ok: bool)
      modifies this`hits, this`misses
      ensures (if ok then Some(after) else None) == Known(paths, found, names)
      ensures hits == old(hits) + Hits(paths, names)
      ensures misses == old(misses) + (if ok then 0 else 1)
    {
      after, ok := found, true;
      for i := 0 to |names|
        invariant ok && Known(paths, after, names[i..]) == Known(paths, found, names)
        invariant hits + Hits(paths, names[i..]) == old(hits) + Hits(paths, names)
        invariant misses == old(misses)
      {
        assert names[i..][1..] == names[i + 1..];
        after, ok := AppendMemoized(after, names[i]);
        if !ok {
          return;
        }
      }
    }

    /** `cachedWorktrees`. */
    method CachedWorktrees(now: int, args: Arguments) returns (found: seq<string>, complete: bool)
      modifies this
      requires expires.None? ==> paths == map[] && dirs == map[]
      ensures View() == Expire(old(View()), now, limits)
      ensures (if complete then Some(found) else None) == Known(paths, [], Named(args))
      ensures hits == old(hits) + Hits(paths, Named(args))
      ensures misses == old(misses) + (if complete then 0 else 1)
    {
      ExpireLocked(now);
      KnownInParts(paths, [], [args.file, args.dir], args.files);
      found, complete := AppendEach([], [args.file, args.dir]);
      if !complete {
        return [], false;
      }
      found, complete := AppendEach(found, args.files);
      if !complete {
        return [], false;
      }
    }

    /** The last critical section of `worktreeOf`. */
    method Keep(now: int, asked: nat, cancelled: bool, dir: string, path: string, memo: PathMemo)
      modifies this
      requires expires.None? ==> paths == map[] && dirs == map[]
      ensures View() == Kept(old(View()), now, limits, asked, cancelled, dir, path, memo)
    {
      ExpireLocked(now);
      if !cancelled && asked == generation {
        dirs := Memoize(dirs, dir, memo.worktree, limits);
        paths := Memoize(paths, path, memo, limits);
      }
    }
  }

  // ----- a full answer is the resolved answer

  datatype Arguments = Arguments(file: string, dir: string, files: seq<string>)

  function Named(args: Arguments): seq<string> {
    [args.file, args.dir] + args.files
  }

  predicate Absolute(path: string) {
    "/" <= path
  }

  function AppendKnown(paths: map<string, PathMemo>, found: seq<string>, path: string): Option<seq<string>> {
    if !Absolute(path) then Some(found)
    else if path !in paths then None
    else if paths[path].worktree in found then Some(found)
    else Some(found + [paths[path].worktree])
  }

  function Known(paths: map<string, PathMemo>, found: seq<string>, names: seq<string>): Option<seq<string>>
    decreases |names|
  {
    if names == [] then Some(found)
    else match AppendKnown(paths, found, names[0])
      case None => None
      case Some(after) => Known(paths, after, names[1..])
  }

  /** The hits counted: one for each absolute path up to the first that is not known. */
  function Hits(paths: map<string, PathMemo>, names: seq<string>): nat {
    if names == [] then 0
    else if !Absolute(names[0]) then Hits(paths, names[1..])
    else if names[0] !in paths then 0
    else 1 + Hits(paths, names[1..])
  }

  lemma {:induction false} KnownInParts(paths: map<string, PathMemo>, found: seq<string>, first: seq<string>,
                                        rest: seq<string>)
    ensures Known(paths, found, first + rest) ==
      (match Known(paths, found, first) case None => None case Some(after) => Known(paths, after, rest))
    ensures Hits(paths, first + rest) ==
      Hits(paths, first) + if Known(paths, found, first).Some? then Hits(paths, rest) else 0
    decreases |first|
  {
    if first == [] {
      assert first + rest == rest;
    } else {
      assert (first + rest)[1..] == first[1..] + rest;
      var after := AppendKnown(paths, found, first[0]);
      if after.Some? {
        KnownInParts(paths, after.value, first[1..], rest);
      }
    }
  }

  /** `appendWorktreeOf`, over whatever resolution gives; "" is no evidence. */
  function AppendResolved(resolve: string -> string, found: seq<string>, path: string): seq<string> {
    if !Absolute(path) || resolve(path) == "" || resolve(path) in found then found else found + [resolve(path)]
  }

  /** `toolCallWorktrees`. */
  function Resolved(resolve: string -> string, found: seq<string>, names: seq<string>): seq<string>
    decreases |names|
  {
    if names == [] then found else Resolved(resolve, AppendResolved(resolve, found, names[0]), names[1..])
  }

  lemma {:induction false} KnownIsResolved(paths: map<string, PathMemo>, resolve: string -> string,
                                           found: seq<string>, names: seq<string>)
    requires forall p :: p in names && p in paths ==> paths[p].worktree != "" && resolve(p) == paths[p].worktree
    requires Known(paths, found, names).Some?
    ensures Known(paths, found, names).value == Resolved(resolve, found, names)
    decreases |names|
  {
    if names != [] {
      KnownIsResolved(paths, resolve, AppendKnown(paths, found, names[0]).value, names[1..]);
    }
  }

  predicate NoRepeats(s: seq<string>) {
    forall j, k :: 0 <= j < k < |s| ==> s[j] != s[k]
  }

  /** What is found names each worktree once, in the order the arguments do. */
  lemma {:induction false} FoundOnce(resolve: string -> string, found: seq<string>, names: seq<string>)
    requires NoRepeats(found)
    ensures NoRepeats(Resolved(resolve, found, names)) && found <= Resolved(resolve, found, names)
    ensures forall w :: w in Resolved(resolve, found, names) <==>
      w in found || (w != "" && exists p :: p in names && Absolute(p) && resolve(p) == w)
    decreases |names|
  {
    if names != [] {
      var after := AppendResolved(resolve, found, names[0]);
      FoundOnce(resolve, after, names[1..]);
      assert names == [names[0]] + names[1..];
    }
  }

  /** The `k`th name is the first that resolves to this worktree. */
  predicate FirstNaming(resolve: string -> string, names: seq<string>, w: string, k: nat) {
    && k < |names| && Absolute(names[k]) && resolve(names[k]) == w
    && forall j :: 0 <= j < k && Absolute(names[j]) ==> resolve(names[j]) != w
  }

  lemma {:induction false} FirstNamingIs(resolve: string -> string, names: seq<string>, w: string) returns (k: nat)
    requires exists p :: p in names && Absolute(p) && resolve(p) == w
    ensures FirstNaming(resolve, names, w, k)
  {
    if Absolute(names[0]) && resolve(names[0]) == w {
      k := 0;
    } else {
      assert names == [names[0]] + names[1..];
      k := FirstNamingIs(resolve, names[1..], w);
      k := k + 1;
    }
  }

  lemma NewAfter(resolve: string -> string, found: seq<string>, names: seq<string>, k: nat)
    requires NoRepeats(found) && |found| <= k < |Resolved(resolve, found, names)|
    ensures Resolved(resolve, found, names)[k] !in found
  {
    FoundOnce(resolve, found, names);
  }

  lemma AppendsOnce(resolve: string -> string, found: seq<string>, name: string)
    requires NoRepeats(found)
    ensures var after := AppendResolved(resolve, found, name);
      && NoRepeats(after) && |after| <= |found| + 1
      && (|after| > |found| ==> Absolute(name) && after[|found|] == resolve(name))
      && (Absolute(name) && resolve(name) != "" ==> resolve(name) in after)
  {
  }

  lemma NotEmpty(resolve: string -> string, found: seq<string>, names: seq<string>, k: nat)
    requires NoRepeats(found) && |found| <= k < |Resolved(resolve, found, names)|
    ensures Resolved(resolve, found, names)[k] != ""
  {
    FoundOnce(resolve, found, names);
    NewAfter(resolve, found, names, k);
    assert Resolved(resolve, found, names)[k] in Resolved(resolve, found, names);
  }

  /** Worktrees come in the order in which they are first named. */
  lemma {:induction false} FoundInOrder(resolve: string -> string, found: seq<string>, names: seq<string>,
                                        j: nat, k: nat, p: nat, q: nat)
    requires NoRepeats(found) && |found| <= j < k < |Resolved(resolve, found, names)|
    requires FirstNaming(resolve, names, Resolved(resolve, found, names)[j], p)
    requires FirstNaming(resolve, names, Resolved(resolve, found, names)[k], q)
    ensures p < q
    decreases |names|
  {
    var after, rest := AppendResolved(resolve, found, names[0]), names[1..];
    AppendsOnce(resolve, found, names[0]);
    NotEmpty(resolve, found, names, k);
    NewAfter(resolve, after, rest, k);
    if p > 0 {
      if j == |found| && |after| > |found| {
        FoundOnce(resolve, after, rest);
      } else {
        FoundInOrder(resolve, after, rest, j, k, p - 1, q - 1);
      }
    }
  }

  // ----- how old an answer can be

  function Kept(s: State, now: int, limits: Limits, asked: nat, cancelled: bool, dir: string, path: string,
                memo: PathMemo): State {
    var t := Expire(s, now, limits);
    if cancelled || asked != t.generation then t
    else t.(dirs := Memoize(t.dirs, dir, memo.worktree, limits), paths := Memoize(t.paths, path, memo, limits))
  }

  /** A lookup under way: it has read the generation, and may have an answer,
      resolved at `at`. */
  datatype Lookup =
    | Asking(path: string, generation: nat)
    | Holding(path: string, generation: nat, dir: string, memo: PathMemo, at: int)

  /** What the first critical section of `worktreeOf` answers, "" if it has to ask
      further. */
  function FirstLevel(s: State, now: int, limits: Limits, path: string): string {
    var t := Expire(s, now, limits);
    if path in t.paths then t.paths[path].worktree else ""
  }

  /** The memo, when each entry it holds was resolved, when its epoch began, and
      the lookups under way. The file system may change at any time: only the
      time of a resolution is recorded, not what would be resolved now. */
  datatype Sys = Sys(s: State, limits: Limits, now: int, began: int, pathAt: map<string, int>,
                     dirAt: map<string, int>, lookups: map<nat, Lookup>)

  datatype Step =
    | Advance(later: int)
    | Sweep
    | Ask(k: nat, path: string)
    | FromDir(k: nat, dir: string, physical: string)
    | Resolve(k: nat, dir: string, memo: PathMemo)
    | Keep(k: nat, cancelled: bool)
    | GiveUp(k: nat)

  predicate Enabled(y: Sys, step: Step) {
    match step
    case Advance(later) => y.now <= later
    case Sweep => true
    case Ask(k, path) => k !in y.lookups
    case FromDir(k, dir, physical) => k in y.lookups && y.lookups[k].Asking? && dir in y.s.dirs && dir in y.dirAt
    case Resolve(k, dir, memo) => k in y.lookups && y.lookups[k].Asking? && memo.worktree != ""
    case Keep(k, cancelled) => k in y.lookups && y.lookups[k].Holding?
    case GiveUp(k) => k in y.lookups
  }

  function Swept(y: Sys): Sys {
    var s := Expire(y.s, y.now, y.limits);
    var same := s.generation == y.s.generation;
    y.(s := s, began := if same then y.began else y.now,
       pathAt := if same then y.pathAt else map[], dirAt := if same then y.dirAt else map[])
  }

  function Next(y: Sys, step: Step): Sys
    requires Enabled(y, step)
  {
    match step
    case Advance(later) => y.(now := later)
    case Sweep => Swept(y)
    case Ask(k, path) =>
      var z := Swept(y);
      if path in z.s.paths then z else z.(lookups := z.lookups[k := Asking(path, z.s.generation)])
    case FromDir(k, dir, physical) =>
      var l := y.lookups[k];
      y.(lookups := y.lookups[k := Holding(l.path, l.generation, dir, PathMemo(y.s.dirs[dir], physical), y.dirAt[dir])])
    case Resolve(k, dir, memo) =>
      var l := y.lookups[k];
      y.(lookups := y.lookups[k := Holding(l.path, l.generation, dir, memo, y.now)])
    case Keep(k, cancelled) =>
      var l := y.lookups[k];
      var z := Swept(y);
      var stored := if cancelled || l.generation != z.s.generation then z else Stored(z, l);
      stored.(lookups := y.lookups - {k})
    case GiveUp(k) => y.(lookups := y.lookups - {k})
  }

  /** An answer kept at both levels. */
  function Stored(z: Sys, l: Lookup): Sys
    requires l.Holding?
  {
    var s := z.s.(dirs := Memoize(z.s.dirs, l.dir, l.memo.worktree, z.limits),
                  paths := Memoize(z.s.paths, l.path, l.memo, z.limits));
    z.(s := s, pathAt := Restamp(z.pathAt, s.paths.Keys, l.path, l.at),
       dirAt := Restamp(z.dirAt, s.dirs.Keys, l.dir, l.at))
  }

  /** The step stores what the critical section does. */
  lemma KeepStores(y: Sys, k: nat, cancelled: bool)
    requires Enabled(y, Keep(k, cancelled))
    ensures var l := y.lookups[k];
      Next(y, Keep(k, cancelled)).s == Kept(y.s, y.now, y.limits, l.generation, cancelled, l.dir, l.path, l.memo)
  {
  }

  /** The stamps of the entries that are left, and of the new one. */
  function Restamp(stamps: map<string, int>, left: set<string>, key: string, at: int): map<string, int> {
    (map p | p in stamps && p in left :: stamps[p])[key := at]
  }

  function Run(y: Sys, steps: seq<Step>): Option<Sys>
    decreases |steps|
  {
    if steps == [] then Some(y)
    else if Enabled(y, steps[0]) then Run(Next(y, steps[0]), steps[1..])
    else None
  }

  function Start(limits: Limits, now: int): Sys {
    Sys(State(map[], map[], None, 0), limits, now, now, map[], map[], map[])
  }

  /** Every stored entry was resolved within the epoch. */
  predicate Stamped(stamps: map<string, int>, keys: set<string>, began: int, now: int) {
    stamps.Keys == keys && forall p :: p in stamps ==> began <= stamps[p] <= now
  }

  predicate LookupOk(y: Sys, l: Lookup) {
    && l.generation <= y.s.generation
    && (l.Holding? ==> l.memo.worktree != "" && l.at <= y.now && (l.generation == y.s.generation ==> y.began <= l.at))
  }

  /** A worktree that was resolved has a name; a lookup that fails keeps nothing. */
  predicate NamesAll(s: State) {
    (forall p :: p in s.paths ==> s.paths[p].worktree != "") && (forall d :: d in s.dirs ==> s.dirs[d] != "")
  }

  ghost predicate Inv(y: Sys) {
    && NamesAll(y.s)
    && Stamped(y.pathAt, y.s.paths.Keys, y.began, y.now) && Stamped(y.dirAt, y.s.dirs.Keys, y.began, y.now)
    && |y.s.paths| <= Max(1, y.limits.entries) && |y.s.dirs| <= Max(1, y.limits.entries)
    && y.began <= y.now
    && (y.s.expires.Some? ==> y.s.expires.value == y.began + y.limits.ttl)
    && (y.s.expires.None? ==> y.s.paths == map[] && y.s.dirs == map[])
    && forall k :: k in y.lookups ==> LookupOk(y, y.lookups[k])
  }

  lemma SweepKeepsInv(y: Sys)
    requires Inv(y)
    ensures Inv(Swept(y)) && Swept(y).s.expires.Some? && (y.limits.ttl > 0 ==> y.now < Swept(y).s.expires.value)
  {
  }

  lemma RestampKeeps(stamps: map<string, int>, keys: set<string>, left: set<string>, key: string, at: int,
                     began: int, now: int)
    requires Stamped(stamps, keys, began, now) && began <= at <= now && key in left && left <= keys + {key}
    ensures Stamped(Restamp(stamps, left, key, at), left, began, now)
  {
  }

  lemma MemoizeNames<V>(cache: map<string, V>, key: string, value: V, limits: Limits)
    ensures var after := Memoize(cache, key, value, limits);
      forall k :: k in after ==> after[k] == value || (k in cache && after[k] == cache[k])
  {
  }

  lemma StoreKeepsNames(z: Sys, l: Lookup)
    requires NamesAll(z.s) && l.Holding? && l.memo.worktree != ""
    ensures NamesAll(Stored(z, l).s)
  {
    MemoizeNames(z.s.dirs, l.dir, l.memo.worktree, z.limits);
    MemoizeNames(z.s.paths, l.path, l.memo, z.limits);
  }

  lemma StoreKeepsStamps(z: Sys, l: Lookup)
    requires Stamped(z.pathAt, z.s.paths.Keys, z.began, z.now) && Stamped(z.dirAt, z.s.dirs.Keys, z.began, z.now)
    requires |z.s.paths| <= Max(1, z.limits.entries) && |z.s.dirs| <= Max(1, z.limits.entries)
    requires l.Holding? && z.began <= l.at <= z.now
    ensures var y := Stored(z, l);
      && Stamped(y.pathAt, y.s.paths.Keys, z.began, z.now) && Stamped(y.dirAt, y.s.dirs.Keys, z.began, z.now)
      && |y.s.paths| <= Max(1, z.limits.entries) && |y.s.dirs| <= Max(1, z.limits.entries)
  {
    MemoizeBounds(z.s.dirs, l.dir, l.memo.worktree, z.limits);
    MemoizeBounds(z.s.paths, l.path, l.memo, z.limits);
    var y := Stored(z, l);
    RestampKeeps(z.pathAt, z.s.paths.Keys, y.s.paths.Keys, l.path, l.at, z.began, z.now);
    RestampKeeps(z.dirAt, z.s.dirs.Keys, y.s.dirs.Keys, l.dir, l.at, z.began, z.now);
  }

  lemma StoreKeepsInv(z: Sys, l: Lookup)
    requires Inv(z) && l.Holding? && z.s.expires.Some? && z.began <= l.at <= z.now && l.memo.worktree != ""
    ensures Inv(Stored(z, l))
  {
    StoreKeepsNames(z, l);
    StoreKeepsStamps(z, l);
    var y := Stored(z, l);
    forall k | k in y.lookups ensures LookupOk(y, y.lookups[k]) {
      assert LookupOk(z, z.lookups[k]);
    }
  }

  lemma DropKeepsInv(z: Sys, k: nat)
    requires Inv(z)
    ensures Inv(z.(lookups := z.lookups - {k}))
  {
    forall j | j in z.lookups - {k} ensures LookupOk(z, z.lookups[j]) {
    }
  }

  lemma KeepKeepsInv(y: Sys, k: nat, cancelled: bool)
    requires Inv(y) && Enabled(y, Keep(k, cancelled))
    ensures Inv(Next(y, Keep(k, cancelled)))
  {
    SweepKeepsInv(y);
    var l, z := y.lookups[k], Swept(y);
    assert LookupOk(z, l);
    if !cancelled && l.generation == z.s.generation {
      StoreKeepsInv(z, l);
      DropKeepsInv(Stored(z, l), k);
    } else {
      DropKeepsInv(z, k);
    }
  }

  lemma AskKeepsInv(y: Sys, k: nat, path: string)
    requires Inv(y) && Enabled(y, Ask(k, path))
    ensures Inv(Next(y, Ask(k, path)))
  {
    SweepKeepsInv(y);
  }

  lemma NextKeepsInv(y: Sys, step: Step)
    requires Inv(y) && Enabled(y, step)
    ensures Inv(Next(y, step)) && Next(y, step).limits == y.limits
  {
    match step
    case Sweep => SweepKeepsInv(y);
    case Ask(k, path) => AskKeepsInv(y, k, path);
    case Keep(k, cancelled) => KeepKeepsInv(y, k, cancelled);
    case _ =>
  }

  lemma {:induction false} RunKeepsInv(y: Sys, steps: seq<Step>)
    requires Inv(y)
    ensures Run(y, steps).Some? ==> Inv(Run(y, steps).value) && Run(y, steps).value.limits == y.limits
    decreases |steps|
  {
    if steps != [] && Enabled(y, steps[0]) {
      NextKeepsInv(y, steps[0]);
      RunKeepsInv(Next(y, steps[0]), steps[1..]);
    }
  }

  /** In every run, however lookups overlap sweeps: a first-level hit was resolved
      less than one lifetime ago, and neither level outgrows its bound. */
  lemma HitsAreFresh(limits: Limits, now: int, steps: seq<Step>, path: string)
    requires Run(Start(limits, now), steps).Some?
    ensures var y := Run(Start(limits, now), steps).value;
      && |y.s.paths| <= Max(1, limits.entries) && |y.s.dirs| <= Max(1, limits.entries)
      && (path in Expire(y.s, y.now, limits).paths ==>
            path in y.pathAt && y.pathAt[path] <= y.now < y.pathAt[path] + limits.ttl)
  {
    RunKeepsInv(Start(limits, now), steps);
  }

  // ----- what can change an answer within its epoch

  /** The memo answers for the path, and its epoch is not over. */
  predicate Answers(y: Sys, p: string, worktree: string) {
    p in y.s.paths && y.s.paths[p].worktree == worktree && y.s.expires.Some? && y.now < y.s.expires.value
  }

  /** A lookup's last step that stores. */
  predicate Stores(y: Sys, step: Step)
    requires Enabled(y, step)
  {
    step.Keep? && !step.cancelled && y.lookups[step.k].generation == Swept(y).s.generation
  }

  /** Storing this path clears the level first. */
  predicate RollsOver(s: State, path: string, limits: Limits) {
    path !in s.paths && |s.paths| >= limits.entries
  }

  /** The step stores no other worktree for the path, and clears no level that
      holds it. */
  predicate Harmless(y: Sys, step: Step, p: string, worktree: string)
    requires Enabled(y, step)
  {
    Stores(y, step) ==>
      var l := y.lookups[step.k];
      if l.path == p then l.memo.worktree == worktree else !RollsOver(Swept(y).s, l.path, y.limits)
  }

  /** The clock never goes back, and the memo is swept only when an epoch is over. */
  lemma NextAdvances(y: Sys, step: Step)
    requires Enabled(y, step)
    ensures y.now <= Next(y, step).now
    ensures y.s.expires.Some? && y.now < y.s.expires.value ==>
      Next(y, step).s.expires == y.s.expires && Next(y, step).s.generation == y.s.generation
  {
  }

  lemma {:induction false} RunAdvances(y: Sys, steps: seq<Step>)
    requires Run(y, steps).Some?
    ensures y.now <= Run(y, steps).value.now
    decreases |steps|
  {
    if steps != [] {
      NextAdvances(y, steps[0]);
      RunAdvances(Next(y, steps[0]), steps[1..]);
    }
  }

  /** Within an epoch an answer survives a step exactly when the step is harmless. */
  lemma AnswerStays(y: Sys, step: Step, p: string, worktree: string)
    requires Enabled(y, step) && Answers(y, p, worktree) && Next(y, step).now < y.s.expires.value
    ensures Answers(Next(y, step), p, worktree) <==> Harmless(y, step, p, worktree)
  {
    NextAdvances(y, step);
    if step.Keep? {
      var l := y.lookups[step.k];
      assert Swept(y) == y;
      if Stores(y, step) {
        assert Next(y, step).s.paths == Memoize(y.s.paths, l.path, l.memo, y.limits);
      }
    }
  }

  /** All the steps are harmless. */
  predicate AllHarmless(y: Sys, steps: seq<Step>, p: string, worktree: string)
    decreases |steps|
  {
    steps == [] ||
    (Enabled(y, steps[0]) && Harmless(y, steps[0], p, worktree) &&
     AllHarmless(Next(y, steps[0]), steps[1..], p, worktree))
  }

  /** The memo gives the same answer all along. */
  predicate AnswersThroughout(y: Sys, steps: seq<Step>, p: string, worktree: string)
    decreases |steps|
  {
    Answers(y, p, worktree) &&
    (steps == [] || (Enabled(y, steps[0]) && AnswersThroughout(Next(y, steps[0]), steps[1..], p, worktree)))
  }

  /** Over any stretch within one epoch, an answer stays exactly when every step is
      harmless. */
  lemma {:induction false} AnswerStaysThroughout(y: Sys, steps: seq<Step>, p: string, worktree: string)
    requires Answers(y, p, worktree)
    requires Run(y, steps).Some? && Run(y, steps).value.now < y.s.expires.value
    ensures AllHarmless(y, steps, p, worktree) <==> AnswersThroughout(y, steps, p, worktree)
    ensures AllHarmless(y, steps, p, worktree) ==> Answers(Run(y, steps).value, p, worktree)
    decreases |steps|
  {
    if steps != [] {
      var z := Next(y, steps[0]);
      NextAdvances(y, steps[0]);
      RunAdvances(z, steps[1..]);
      AnswerStays(y, steps[0], p, worktree);
      if Answers(z, p, worktree) {
        AnswerStaysThroughout(z, steps[1..], p, worktree);
      }
    }
  }

  /** What a lookup of the path answers after some steps. */
  function Later(y: Sys, steps: seq<Step>, p: string): string {
    match Run(y, steps)
    case None => ""
    case Some(z) => FirstLevel(z.s, z.now, z.limits, p)
  }

  /** An answer `cachedWorktrees` gives from the memo alone is the one that
      `toolCallWorktrees` gives, order included, when each of its lookups comes
      later in the same epoch, each in a state of its own, and no step in between
      stored another worktree for its path or cleared the level. */
  lemma CachedIsResolved(limits: Limits, start: int, before: seq<Step>, args: Arguments, at: string -> seq<Step>)
    requires Run(Start(limits, start), before).Some?
    requires var y := Swept(Run(Start(limits, start), before).value);
      && Known(y.s.paths, [], Named(args)).Some?
      && forall p :: p in Named(args) && p in y.s.paths ==>
           && Run(y, at(p)).Some? && Run(y, at(p)).value.now < y.s.expires.value
           && AllHarmless(y, at(p), p, y.s.paths[p].worktree)
    ensures var y := Swept(Run(Start(limits, start), before).value);
      Known(y.s.paths, [], Named(args)).value == Resolved(p => Later(y, at(p), p), [], Named(args))
  {
    RunKeepsInv(Start(limits, start), before);
    SweepKeepsInv(Run(Start(limits, start), before).value);
    var y := Swept(Run(Start(limits, start), before).value);
    forall p | p in Named(args) && p in y.s.paths
      ensures y.s.paths[p].worktree != "" && Later(y, at(p), p) == y.s.paths[p].worktree
    {
      RunAdvances(y, at(p));
      AnswerStaysThroughout(y, at(p), p, y.s.paths[p].worktree);
    }
    KnownIsResolved(y.s.paths, p => Later(y, at(p), p), [], Named(args));
  }

  // ----- one lookup at a time, as the resolver's worker makes them

  /** A lookup is asked when no other is under way. */
  predicate Single(y: Sys, step: Step) {
    step.Ask? ==> y.lookups == map[]
  }

  predicate AllSingle(y: Sys, steps: seq<Step>)
    decreases |steps|
  {
    steps == [] || (Enabled(y, steps[0]) && Single(y, steps[0]) && AllSingle(Next(y, steps[0]), steps[1..]))
  }

  /** At most one lookup, and of a path that its own epoch does not know. */
  predicate Apart(y: Sys) {
    && (forall j, k :: j in y.lookups && k in y.lookups ==> j == k)
    && forall k :: k in y.lookups && y.lookups[k].generation == y.s.generation ==> y.lookups[k].path !in y.s.paths
  }

  lemma {:induction false} SinglesAreApart(y: Sys, steps: seq<Step>)
    requires Apart(y) && AllSingle(y, steps)
    ensures Run(y, steps).Some? && Apart(Run(y, steps).value)
    decreases |steps|
  {
    if steps != [] {
      SinglesAreApart(Next(y, steps[0]), steps[1..]);
    }
  }

  /** With one lookup at a time only a rollover takes an answer away before its epoch
      is over. */
  lemma OnlyRolloversForget(limits: Limits, start: int, steps: seq<Step>, step: Step, p: string, worktree: string)
    requires AllSingle(Start(limits, start), steps)
    requires Run(Start(limits, start), steps).Some? ==>
      var y := Run(Start(limits, start), steps).value;
      Enabled(y, step) && Answers(y, p, worktree) && Next(y, step).now < y.s.expires.value
    ensures Run(Start(limits, start), steps).Some?
    ensures var y := Run(Start(limits, start), steps).value;
      Answers(Next(y, step), p, worktree) <==> !(Stores(y, step) && RollsOver(y.s, y.lookups[step.k].path, limits))
  {
    SinglesAreApart(Start(limits, start), steps);
    RunKeepsInv(Start(limits, start), steps);
    var y := Run(Start(limits, start), steps).value;
    AnswerStays(y, step, p, worktree);
  }

  /** A lookup of a path, from the asking to the keeping. */
  function Asked(path: string, worktree: string): seq<Step> {
    [Ask(0, path), Resolve(0, path, PathMemo(worktree, "")), Keep(0, false)]
  }

  lemma ThreeSteps(y: Sys, one: Step, two: Step, three: Step)
    requires Enabled(y, one) && Enabled(Next(y, one), two) && Enabled(Next(Next(y, one), two), three)
    ensures Run(y, [one, two, three]) == Some(Next(Next(Next(y, one), two), three))
    ensures Single(y, one) && !two.Ask? && !three.Ask? ==> AllSingle(y, [one, two, three])
  {
    var steps := [one, two, three];
    assert steps[1..][1..] == [three] && steps[1..][0] == two;
    var z := Next(Next(y, one), two);
    assert Run(z, [three]) == Run(Next(z, three), []);
    assert AllSingle(Next(z, three), []);
    assert !three.Ask? ==> AllSingle(z, [three]);
  }

  /** The memo while such a lookup holds its answer. */
  predicate HoldsAnswer(z: Sys, s: State, path: string, worktree: string) {
    z.s == s && z.lookups.Keys == {0} && s.expires.Some? && z.now < s.expires.value &&
    var l := z.lookups[0];
    l.Holding? && l.generation == s.generation && l.path == path && l.memo == PathMemo(worktree, "")
  }

  lemma AskedHolds(y: Sys, path: string, worktree: string)
    requires y.lookups == map[] && worktree != "" && path !in Swept(y).s.paths && y.limits.ttl > 0
    ensures var memo := PathMemo(worktree, "");
      && Enabled(y, Ask(0, path)) && Enabled(Next(y, Ask(0, path)), Resolve(0, path, memo))
      && var z := Next(Next(y, Ask(0, path)), Resolve(0, path, memo));
         HoldsAnswer(z, Swept(y).s, path, worktree) && z.now == y.now && z.limits == y.limits
  {
    var asking := Next(y, Ask(0, path));
    assert asking.lookups == map[0 := Asking(path, Swept(y).s.generation)];
  }

  lemma HeldIsKept(z: Sys, s: State, path: string, worktree: string)
    requires HoldsAnswer(z, s, path, worktree)
    ensures Enabled(z, Keep(0, false))
    ensures var x := Next(z, Keep(0, false));
      && x.lookups == map[] && x.now == z.now && x.limits == z.limits && x.s.expires == s.expires
      && x.s.paths == Memoize(s.paths, path, PathMemo(worktree, ""), z.limits)
  {
    KeepStores(z, 0, false);
  }

  /** The memo after such a lookup. */
  lemma AskedIsKept(y: Sys, path: string, worktree: string)
    requires y.lookups == map[] && worktree != "" && path !in Swept(y).s.paths && y.limits.ttl > 0
    ensures AllSingle(y, Asked(path, worktree)) && Run(y, Asked(path, worktree)).Some?
    ensures var z := Run(y, Asked(path, worktree)).value;
      && z.lookups == map[] && z.now == y.now && z.limits == y.limits && z.s.expires == Swept(y).s.expires
      && z.s.paths == Memoize(Swept(y).s.paths, path, PathMemo(worktree, ""), y.limits)
  {
    var ask, resolve := Ask(0, path), Resolve(0, path, PathMemo(worktree, ""));
    AskedHolds(y, path, worktree);
    HeldIsKept(Next(Next(y, ask), resolve), Swept(y).s, path, worktree);
    ThreeSteps(y, ask, resolve, Keep(0, false));
  }

  lemma {:induction false} RunInParts(y: Sys, first: seq<Step>, rest: seq<Step>)
    requires Run(y, first).Some?
    ensures Run(y, first + rest) == Run(Run(y, first).value, rest)
    ensures AllSingle(y, first + rest) <==> AllSingle(y, first) && AllSingle(Run(y, first).value, rest)
    decreases |first|
  {
    if first == [] {
      assert first + rest == rest;
    } else {
      assert (first + rest)[1..] == first[1..] + rest;
      RunInParts(Next(y, first[0]), first[1..], rest);
    }
  }

  lemma OneResolved(resolve: string -> string, p: string)
    requires Absolute(p) && resolve(p) != ""
    ensures Resolved(resolve, [], [p]) == [resolve(p)]
  {
    assert Resolved(resolve, [resolve(p)], []) == [resolve(p)];
  }

  /** A memo with room for one path, and what it knows. */
  predicate KnowsOnly(y: Sys, path: string, worktree: string) {
    && y.lookups == map[] && y.now == 0 && y.limits == Limits(10, 1) && y.s.expires == Some(10)
    && y.s.paths == map[path := PathMemo(worktree, "")]
  }

  lemma AskedForgets(y: Sys, path: string, worktree: string, former: string)
    requires y == Start(Limits(10, 1), 0) || exists w :: KnowsOnly(y, former, w) && former != path
    requires worktree != ""
    ensures AllSingle(y, Asked(path, worktree)) && Run(y, Asked(path, worktree)).Some?
    ensures KnowsOnly(Run(y, Asked(path, worktree)).value, path, worktree)
  {
    assert path !in Swept(y).s.paths;
    AskedIsKept(y, path, worktree);
  }

  lemma KnowsOnlyAnswers(y: Sys, path: string, worktree: string)
    requires KnowsOnly(y, path, worktree) && Absolute(path) && worktree != ""
    ensures Swept(y) == y && Known(y.s.paths, [], [path]) == Some([worktree])
    ensures FirstLevel(y.s, y.now, y.limits, path) == worktree
  {
    assert [] + [worktree] == [worktree];
    assert [path][1..] == [] && Known(y.s.paths, [worktree], []) == Some([worktree]);
  }

  /** The condition is needed: with room for one path, the lookup of a second clears
      the first, whose next lookup may find another worktree within the epoch. */
  lemma RolloverChangesTheAnswer()
    ensures var limits, before, after := Limits(10, 1), Asked("/a", "/w1"), Asked("/b", "/w1") + Asked("/a", "/w2");
      && AllSingle(Start(limits, 0), before + after) && Run(Start(limits, 0), before).Some?
      && var y := Run(Start(limits, 0), before).value;
         && Swept(y) == y && Known(y.s.paths, [], ["/a"]) == Some(["/w1"])
         && Run(y, after).Some? && Run(y, after).value.now < y.s.expires.value
         && Resolved(p => Later(y, after, p), [], ["/a"]) == ["/w2"]
  {
    var start, one, two, three := Start(Limits(10, 1), 0), Asked("/a", "/w1"), Asked("/b", "/w1"), Asked("/a", "/w2");
    AskedForgets(start, "/a", "/w1", "");
    var y := Run(start, one).value;
    AskedForgets(y, "/b", "/w1", "/a");
    var z := Run(y, two).value;
    AskedForgets(z, "/a", "/w2", "/b");
    RunInParts(y, two, three);
    RunInParts(start, one, two + three);
    KnowsOnlyAnswers(y, "/a", "/w1");
    KnowsOnlyAnswers(Run(z, three).value, "/a", "/w2");
    forall resolve: string -> string | resolve("/a") == "/w2" ensures Resolved(resolve, [], ["/a"]) == ["/w2"] {
      OneResolved(resolve, "/a");
    }
  }

  // ----- what is kept at either level

  /** A level that is full forgets everything for a new key, and nothing for one it
      has; otherwise it keeps what it holds. */
  lemma MemoizeMeans<V>(cache: map<string, V>, key: string, value: V, limits: Limits, k: string)
    ensures var after := Memoize(cache, key, value, limits);
      && key in after && after[key] == value
      && (k != key ==> (k in after <==> k in cache && (key in cache || |cache| < limits.entries)))
      && (k != key && k in after ==> after[k] == cache[k])
  {
  }

  /** A lookup that was not cancelled, in the epoch it was asked in, is known at both
      levels from then on; any other leaves both as they are, but for the sweep. */
  lemma KeptMeans(s: State, now: int, limits: Limits, asked: nat, cancelled: bool, dir: string, path: string,
                  memo: PathMemo)
    requires limits.ttl > 0
    ensures var t := Kept(s, now, limits, asked, cancelled, dir, path, memo);
      var live := s.expires.Some? && now < s.expires.value;
      && t.expires.Some? && now < t.expires.value
      && t.expires == (if live then s.expires else Some(now + limits.ttl))
      && t.generation == (if live then s.generation else s.generation + 1)
      && (!cancelled && asked == t.generation ==>
            path in t.paths && t.paths[path] == memo && dir in t.dirs && t.dirs[dir] == memo.worktree)
      && (cancelled || asked != t.generation ==>
            t.paths == (if live then s.paths else map[]) && t.dirs == (if live then s.dirs else map[]))
  {
  }

  /** How many of the names are absolute paths: those that begin with a slash. */
  function Absolutes(names: seq<string>): nat {
    if names == [] then 0
    else
      var last := names[|names| - 1];
      Absolutes(names[..|names| - 1]) + if last != "" && last[0] == '/' then 1 else 0
  }

  lemma {:induction false} AbsolutesFirst(names: seq<string>)
    requires names != []
    ensures Absolutes(names) == Absolutes(names[1..]) + if Absolute(names[0]) then 1 else 0
    decreases |names|
  {
    var n := |names| - 1;
    if n > 0 {
      AbsolutesFirst(names[..n]);
      assert names[..n][1..] == names[1..][..n - 1];
    } else {
      assert names[..n] == [] == names[1..];
    }
  }

  /** The first `k` names need nothing that is not known, and the next one does, if
      there is one. */
  ghost predicate KnownTo(paths: map<string, PathMemo>, names: seq<string>, k: nat) {
    && k <= |names| && (forall j :: 0 <= j < k && Absolute(names[j]) ==> names[j] in paths)
    && (k < |names| ==> Absolute(names[k]) && names[k] !in paths)
  }

  /** One hit is counted for each absolute path up to the first that is not known, and
      the answer is complete exactly when there is none such. */
  lemma {:induction false} HitsMean(paths: map<string, PathMemo>, found: seq<string>, names: seq<string>, k: nat)
    requires KnownTo(paths, names, k)
    ensures Hits(paths, names) == Absolutes(names[..k])
    ensures Known(paths, found, names).Some? <==> k == |names|
    decreases |names|
  {
    if k > 0 {
      HitsMean(paths, AppendKnown(paths, found, names[0]).value, names[1..], k - 1);
      AbsolutesFirst(names[..k]);
      assert names[..k][1..] == names[1..][..k - 1];
    }
  }
}

/** Which servers are evicted when their open files exceed the budget. */
module Eviction {
  import opened Options

  /** A registry record as the budget sees it; `frequency` is its aged use count. */
  datatype Server = Server(pid: int, worktree: string, terminating: bool, startedAt: int, frequency: real,
                           usedAt: int)

  /** What the choice depends on besides the records. `window` spares new servers. */
  datatype World = World(files: map<int, int>, busy: set<string>, budget: int, now: int, window: int)

  function Files(w: World, pid: int): int {
    if pid in w.files then w.files[pid] else 0
  }

  // ----- one process, several records

  /** The pids, each once, in the order they first come. */
  function Pids(records: seq<Server>): seq<int> {
    if records == [] then []
    else
      var before, last := Pids(records[..|records| - 1]), records[|records| - 1];
      if last.pid in before then before else before + [last.pid]
  }

  /** The record a process is ranked by: its hottest, the first of equals. */
  function Hottest(records: seq<Server>, pid: int): Option<Server> {
    if records == [] then None
    else
      var before, last := Hottest(records[..|records| - 1], pid), records[|records| - 1];
      if last.pid == pid && (before.None? || last.frequency > before.value.frequency) then Some(last) else before
  }

  predicate Spares(w: World, r: Server) {
    r.terminating || r.worktree in w.busy || Files(w, r.pid) <= 0 || 0 <= w.now - r.startedAt < w.window
  }

  /** A process is spared when any record of it is. */
  predicate Spared(w: World, records: seq<Server>, pid: int) {
    exists r :: r in records && r.pid == pid && Spares(w, r)
  }

  function SumFiles(w: World, pids: seq<int>): int {
    if pids == [] then 0 else SumFiles(w, pids[..|pids| - 1]) + Files(w, pids[|pids| - 1])
  }

  /** The processes that may go, each by its hottest record. */
  function Candidates(w: World, records: seq<Server>, pids: seq<int>): seq<Server> {
    if pids == [] then []
    else
      var before, pid := Candidates(w, records, pids[..|pids| - 1]), pids[|pids| - 1];
      if Spared(w, records, pid) || Hottest(records, pid).None? then before else before + [Hottest(records, pid).value]
  }

  lemma {:induction false} PidsAre(records: seq<Server>)
    ensures forall p :: p in Pids(records) <==> exists r :: r in records && r.pid == p
    ensures forall j, k :: 0 <= j < k < |Pids(records)| ==> Pids(records)[j] != Pids(records)[k]
    decreases |records|
  {
    if records != [] {
      var before := records[..|records| - 1];
      PidsAre(before);
      assert records == before + [records[|records| - 1]];
    }
  }

  lemma {:induction false} HottestIs(records: seq<Server>, pid: int)
    ensures Hottest(records, pid).None? <==> forall r :: r in records ==> r.pid != pid
    ensures Hottest(records, pid).Some? ==>
      var h := Hottest(records, pid).value;
      h in records && h.pid == pid && forall r :: r in records && r.pid == pid ==> r.frequency <= h.frequency
    decreases |records|
  {
    if records != [] {
      var before := records[..|records| - 1];
      HottestIs(before, pid);
      assert records == before + [records[|records| - 1]];
    }
  }

  /** A candidate is the hottest record of a process none of whose records is
      spared, and every such process has one. */
  lemma {:induction false} CandidatesAre(w: World, records: seq<Server>, pids: seq<int>)
    ensures forall c :: c in Candidates(w, records, pids) <==>
      c.pid in pids && !Spared(w, records, c.pid) && Hottest(records, c.pid) == Some(c)
    decreases |pids|
  {
    if pids != [] {
      var before, pid := pids[..|pids| - 1], pids[|pids| - 1];
      CandidatesAre(w, records, before);
      HottestIs(records, pid);
      assert pids == before + [pid];
    }
  }

  // ----- the order of eviction

  /** Less used goes first, then longer unused. */
  predicate Before(a: Server, b: Server) {
    a.frequency < b.frequency || (a.frequency == b.frequency && a.usedAt < b.usedAt)
  }

  /** The stable sort, as insertion: a record goes after all that do not come
      after it. */
  function Insert(sorted: seq<Server>, r: Server): seq<Server> {
    if sorted == [] then [r]
    else if Before(r, sorted[|sorted| - 1]) then Insert(sorted[..|sorted| - 1], r) + [sorted[|sorted| - 1]]
    else sorted + [r]
  }

  function Sorted(rs: seq<Server>): seq<Server> {
    if rs == [] then [] else Insert(Sorted(rs[..|rs| - 1]), rs[|rs| - 1])
  }

  predicate Ordered(rs: seq<Server>) {
    forall j, k :: 0 <= j < k < |rs| ==> !Before(rs[k], rs[j])
  }

  lemma {:induction false} InsertKeeps(sorted: seq<Server>, r: Server)
    ensures multiset(Insert(sorted, r)) == multiset(sorted) + multiset{r}
    decreases |sorted|
  {
    if sorted != [] {
      var before, last := sorted[..|sorted| - 1], sorted[|sorted| - 1];
      assert sorted == before + [last];
      InsertKeeps(before, r);
    }
  }

  lemma {:induction false} Inserted(sorted: seq<Server>, r: Server, q: Server)
    ensures q in Insert(sorted, r) <==> q in sorted || q == r
    decreases |sorted|
  {
    if sorted != [] {
      var before := sorted[..|sorted| - 1];
      assert sorted == before + [sorted[|sorted| - 1]];
      Inserted(before, r, q);
    }
  }

  lemma {:induction false} InsertOrders(sorted: seq<Server>, r: Server)
    requires Ordered(sorted)
    ensures Ordered(Insert(sorted, r))
    decreases |sorted|
  {
    if sorted != [] && Before(r, sorted[|sorted| - 1]) {
      var before, last := sorted[..|sorted| - 1], sorted[|sorted| - 1];
      InsertOrders(before, r);
      var front := Insert(before, r);
      forall j | 0 <= j < |front| ensures !Before(last, front[j]) {
        Inserted(before, r, front[j]);
        assert front[j] in front;
      }
    }
  }

  lemma {:induction false} SortedSorts(rs: seq<Server>)
    ensures Ordered(Sorted(rs)) && multiset(Sorted(rs)) == multiset(rs)
    decreases |rs|
  {
    if rs != [] {
      SortedSorts(rs[..|rs| - 1]);
      InsertOrders(Sorted(rs[..|rs| - 1]), rs[|rs| - 1]);
      InsertKeeps(Sorted(rs[..|rs| - 1]), rs[|rs| - 1]);
      assert rs == rs[..|rs| - 1] + [rs[|rs| - 1]];
    }
  }

  /** `x` alone, if it ranks as `r` does. */
  function Mark(x: Server, r: Server): seq<Server> {
    if x.frequency == r.frequency && x.usedAt == r.usedAt then [x] else []
  }

  /** Records that rank alike, in their order. */
  function Alike(rs: seq<Server>, r: Server): seq<Server> {
    if rs == [] then [] else Alike(rs[..|rs| - 1], r) + Mark(rs[|rs| - 1], r)
  }

  lemma AlikeLast(rs: seq<Server>, last: Server, r: Server)
    ensures Alike(rs + [last], r) == Alike(rs, r) + Mark(last, r)
  {
    assert (rs + [last])[..|rs|] == rs;
  }

  /** Of two records one of which comes before the other, at most one ranks as `r`
      does. */
  lemma OneMark(a: seq<Server>, q: Server, last: Server, r: Server)
    requires Before(q, last)
    ensures a + Mark(q, r) + Mark(last, r) == a + Mark(last, r) + Mark(q, r)
  {
    assert Mark(q, r) == [] || Mark(last, r) == [];
  }

  lemma {:induction false} InsertIsStable(sorted: seq<Server>, q: Server, r: Server)
    requires Ordered(sorted)
    ensures Alike(Insert(sorted, q), r) == Alike(sorted, r) + Mark(q, r)
    decreases |sorted|
  {
    if sorted == [] || !Before(q, sorted[|sorted| - 1]) {
      AlikeLast(sorted, q, r);
      assert sorted == [] ==> sorted + [q] == [q];
    } else {
      var before, last := sorted[..|sorted| - 1], sorted[|sorted| - 1];
      InsertIsStable(before, q, r);
      AlikeLast(Insert(before, q), last, r);
      OneMark(Alike(before, r), q, last, r);
    }
  }

  lemma {:induction false} SortIsStable(rs: seq<Server>, r: Server)
    ensures Alike(Sorted(rs), r) == Alike(rs, r)
    decreases |rs|
  {
    if rs != [] {
      SortedSorts(rs[..|rs| - 1]);
      SortIsStable(rs[..|rs| - 1], r);
      InsertIsStable(Sorted(rs[..|rs| - 1]), rs[|rs| - 1], r);
    }
  }

  // ----- the choice

  /** The files of the first `k` in line. */
  function Freed(w: World, line: seq<Server>): int {
    if line == [] then 0 else Freed(w, line[..|line| - 1]) + Files(w, line[|line| - 1].pid)
  }

  /** As few of the line as meet the budget, or all of it. */
  ghost predicate Shortest(w: World, total: int, line: seq<Server>, k: nat) {
    && k <= |line|
    && (k == |line| || total - Freed(w, line[..k]) <= w.budget)
    && forall j: nat :: j < k ==> total - Freed(w, line[..j]) > w.budget
  }

  /** `overBudget`. */
  method OverBudget(w: World, records: seq<Server>) returns (victims: seq<Server>, total: int)
    ensures var line := Sorted(Candidates(w, records, Pids(records)));
      && victims <= line && Shortest(w, SumFiles(w, Pids(records)), line, |victims|)
      && total == SumFiles(w, Pids(records)) - Freed(w, victims)
  {
    var byPID, spared;
    total, byPID, spared := Tally(w, records);
    var candidates := ListCandidates(w, records, byPID, spared);
    victims, total := TakeVictims(w, Sorted(candidates), total);
  }

  /** The last loop of `overBudget`. */
  method TakeVictims(w: World, line: seq<Server>, before: int) returns (victims: seq<Server>, total: int)
    ensures victims <= line && Shortest(w, before, line, |victims|) && total == before - Freed(w, victims)
  {
    victims, total := [], before;
    assert line[..0] == [];
    for k := 0 to |line|
      invariant victims == line[..k]
      invariant total == before - Freed(w, victims)
      invariant forall j: nat :: j < k ==> before - Freed(w, line[..j]) > w.budget
    {
      if total <= w.budget {
        return;
      }
      assert line[..k + 1][..k] == line[..k];
      victims := victims + [line[k]];
      total := total - Files(w, line[k].pid);
    }
    assert line[..|line|] == line;
  }

  /** The map holds the hottest record of every process. */
  ghost predicate Ranks(byPID: map<int, Server>, records: seq<Server>) {
    forall p :: (if p in byPID then Some(byPID[p]) else None) == Hottest(records, p)
  }

  ghost predicate Sparing(w: World, spared: set<int>, records: seq<Server>) {
    forall p :: p in spared <==> Spared(w, records, p)
  }

  function Ranked(byPID: map<int, Server>, r: Server): map<int, Server> {
    if r.pid !in byPID || r.frequency > byPID[r.pid].frequency then byPID[r.pid := r] else byPID
  }

  lemma RanksMore(byPID: map<int, Server>, records: seq<Server>, r: Server)
    requires Ranks(byPID, records)
    ensures Ranks(Ranked(byPID, r), records + [r])
  {
    var more, after := records + [r], Ranked(byPID, r);
    assert more[..|records|] == records;
    forall p ensures (if p in after then Some(after[p]) else None) == Hottest(more, p) {
      assert (if p in byPID then Some(byPID[p]) else None) == Hottest(records, p);
    }
  }

  lemma SparingMore(w: World, spared: set<int>, records: seq<Server>, r: Server)
    requires Sparing(w, spared, records)
    ensures Sparing(w, if Spares(w, r) then spared + {r.pid} else spared, records + [r])
  {
    SparedMore(w, records, r);
  }

  lemma CountedMore(w: World, records: seq<Server>, r: Server, byPID: map<int, Server>)
    requires Ranks(byPID, records)
    ensures SumFiles(w, Pids(records + [r])) ==
      SumFiles(w, Pids(records)) + if r.pid in byPID then 0 else Files(w, r.pid)
  {
    assert (records + [r])[..|records|] == records;
    PidsAre(records);
    HottestIs(records, r.pid);
    assert (if r.pid in byPID then Some(byPID[r.pid]) else None) == Hottest(records, r.pid);
    SumOneMore(w, Pids(records), r.pid);
  }

  /** The first loop of `overBudget`: every process is counted once, whatever
      number of records it has. */
  method Tally(w: World, records: seq<Server>) returns (total: int, byPID: map<int, Server>, spared: set<int>)
    ensures total == SumFiles(w, Pids(records)) && Ranks(byPID, records) && Sparing(w, spared, records)
  {
    total, byPID, spared := 0, map[], {};
    for i := 0 to |records|
      invariant total == SumFiles(w, Pids(records[..i]))
      invariant Ranks(byPID, records[..i]) && Sparing(w, spared, records[..i])
    {
      var r := records[i];
      assert records[..i + 1] == records[..i] + [r];
      CountedMore(w, records[..i], r, byPID);
      RanksMore(byPID, records[..i], r);
      SparingMore(w, spared, records[..i], r);
      if r.pid !in byPID {
        total := total + Files(w, r.pid);
      }
      if r.pid !in byPID || r.frequency > byPID[r.pid].frequency {
        byPID := byPID[r.pid := r];
      }
      if r.terminating || r.worktree in w.busy || Files(w, r.pid) <= 0 || 0 <= w.now - r.startedAt < w.window {
        spared := spared + {r.pid};
      }
    }
    assert records[..|records|] == records;
  }

  lemma SparedMore(w: World, records: seq<Server>, r: Server)
    ensures forall p :: Spared(w, records + [r], p) <==> Spared(w, records, p) || (p == r.pid && Spares(w, r))
  {
    forall p ensures Spared(w, records + [r], p) <==> Spared(w, records, p) || (p == r.pid && Spares(w, r)) {
      if Spared(w, records, p) {
        var q :| q in records && q.pid == p && Spares(w, q);
        assert q in records + [r];
      }
      if p == r.pid && Spares(w, r) {
        assert r in records + [r];
      }
    }
  }

  lemma SumOneMore(w: World, pids: seq<int>, pid: int)
    ensures SumFiles(w, pids + [pid]) == SumFiles(w, pids) + Files(w, pid)
  {
    assert (pids + [pid])[..|pids|] == pids;
  }

  /** The second loop of `overBudget`: a process leaves the map when it is listed,
      so that its other records do not list it again. */
  method ListCandidates(w: World, records: seq<Server>, hottest: map<int, Server>, spared: set<int>)
    returns (candidates: seq<Server>)
    requires Ranks(hottest, records) && Sparing(w, spared, records)
    ensures candidates == Candidates(w, records, Pids(records))
  {
    candidates := [];
    var byPID := hottest;
    for i := 0 to |records|
      invariant candidates == Candidates(w, records, Pids(records[..i]))
      invariant forall p :: p in byPID ==> p in hottest && byPID[p] == hottest[p]
      invariant forall p :: p in hottest && p !in byPID ==> p in Pids(records[..i])
      invariant forall p :: p in Pids(records[..i]) && !Spared(w, records, p) ==> p !in byPID
    {
      var r := records[i];
      var before := Pids(records[..i]);
      assert records[..i + 1][..i] == records[..i] && records[..i + 1][i] == r;
      assert (before + [r.pid])[..|before|] == before;
      assert Hottest(records, r.pid).Some? by {
        HottestIs(records, r.pid);
      }
      if r.pid in byPID && r.pid !in spared {
        candidates := candidates + [byPID[r.pid]];
        byPID := byPID - {r.pid};
      }
    }
    assert records[..|records|] == records;
  }

  /** Nobody spared is evicted, nobody twice, and each by its hottest record. */
  lemma VictimsAreFair(w: World, records: seq<Server>, victims: seq<Server>)
    requires victims <= Sorted(Candidates(w, records, Pids(records)))
    ensures forall v :: v in victims ==>
      && v in records && !Spared(w, records, v.pid)
      && forall r :: r in records && r.pid == v.pid ==> r.frequency <= v.frequency
  {
    var candidates := Candidates(w, records, Pids(records));
    SortedSorts(candidates);
    CandidatesAre(w, records, Pids(records));
    forall v | v in victims
      ensures v in records && !Spared(w, records, v.pid)
      ensures forall r :: r in records && r.pid == v.pid ==> r.frequency <= v.frequency
    {
      assert v in Sorted(candidates);
      assert v in multiset(Sorted(candidates));
      assert v in candidates;
      HottestIs(records, v.pid);
    }
  }

  // ----- what is left

  function Without(pids: seq<int>, pid: int): seq<int> {
    if pids == [] then []
    else if pids[|pids| - 1] == pid then Without(pids[..|pids| - 1], pid)
    else Without(pids[..|pids| - 1], pid) + [pids[|pids| - 1]]
  }

  /** The processes that are none of the victims. */
  function Survivors(pids: seq<int>, victims: seq<Server>): seq<int> {
    if victims == [] then pids
    else Without(Survivors(pids, victims[..|victims| - 1]), victims[|victims| - 1].pid)
  }

  predicate Once(pids: seq<int>) {
    forall j, k :: 0 <= j < k < |pids| ==> pids[j] != pids[k]
  }

  lemma {:induction false} WithoutOne(pids: seq<int>, pid: int)
    requires Once(pids)
    ensures forall p :: p in Without(pids, pid) <==> p in pids && p != pid
    ensures Once(Without(pids, pid))
    decreases |pids|
  {
    if pids != [] {
      var before, last := pids[..|pids| - 1], pids[|pids| - 1];
      WithoutOne(before, pid);
      assert pids == before + [last] && last !in before;
      assert last != pid ==> forall p :: p in Without(pids, pid) <==> p in Without(before, pid) || p == last;
    }
  }

  lemma {:induction false} WithoutSum(w: World, pids: seq<int>, pid: int)
    requires Once(pids)
    ensures SumFiles(w, Without(pids, pid)) == SumFiles(w, pids) - if pid in pids then Files(w, pid) else 0
    decreases |pids|
  {
    if pids != [] {
      var before, last := pids[..|pids| - 1], pids[|pids| - 1];
      WithoutSum(w, before, pid);
      assert pid in pids <==> pid in before || pid == last by {
        assert pids == before + [last];
      }
      assert last !in before;
      SumOneMore(w, Without(before, pid), last);
    }
  }

  lemma {:induction false} CandidatesOnce(w: World, records: seq<Server>, pids: seq<int>)
    requires Once(pids)
    ensures Apart(Candidates(w, records, pids))
    decreases |pids|
  {
    if pids != [] {
      var before := pids[..|pids| - 1];
      CandidatesOnce(w, records, before);
      CandidatesAre(w, records, before);
      HottestIs(records, pids[|pids| - 1]);
    }
  }

  predicate Apart(victims: seq<Server>) {
    forall j, k :: 0 <= j < k < |victims| ==> victims[j].pid != victims[k].pid
  }

  lemma LastIsApart(victims: seq<Server>)
    requires victims != [] && Apart(victims)
    ensures Apart(victims[..|victims| - 1])
    ensures forall v :: v in victims[..|victims| - 1] ==> v.pid != victims[|victims| - 1].pid
    ensures forall v :: v in victims <==> v in victims[..|victims| - 1] || v == victims[|victims| - 1]
  {
    assert victims == victims[..|victims| - 1] + [victims[|victims| - 1]];
  }

  /** Freed files are those of the processes that go, if each goes once. */
  lemma {:induction false} FreedIsTheirs(w: World, pids: seq<int>, victims: seq<Server>)
    requires Once(pids) && (forall v :: v in victims ==> v.pid in pids) && Apart(victims)
    ensures SumFiles(w, Survivors(pids, victims)) == SumFiles(w, pids) - Freed(w, victims)
    ensures Once(Survivors(pids, victims))
    ensures forall p :: p in Survivors(pids, victims) <==> p in pids && forall v :: v in victims ==> v.pid != p
    decreases |victims|
  {
    if victims != [] {
      LastIsApart(victims);
      var before, last := victims[..|victims| - 1], victims[|victims| - 1];
      FreedIsTheirs(w, pids, before);
      assert last.pid in Survivors(pids, before);
      WithoutOne(Survivors(pids, before), last.pid);
      WithoutSum(w, Survivors(pids, before), last.pid);
    }
  }

  /** Distinct pids stay distinct when the records are put in order. */
  lemma SortedOnce(rs: seq<Server>)
    requires Apart(rs)
    ensures Apart(Sorted(rs))
  {
    SortedSorts(rs);
    var line := Sorted(rs);
    forall j, k | 0 <= j < k < |line| ensures line[j].pid != line[k].pid {
      assert line[j] in multiset(line) && line[k] in multiset(line);
      var a, b :| 0 <= a < |rs| && 0 <= b < |rs| && rs[a] == line[j] && rs[b] == line[k];
      if a == b {
        TwiceCounts(line, j, k);
        OnceCounts(rs, a);
      }
    }
  }

  lemma TwiceCounts(s: seq<Server>, j: nat, k: nat)
    requires j < k < |s| && s[j] == s[k]
    ensures multiset(s)[s[j]] >= 2
  {
    assert s == s[..k] + s[k..];
    assert s[j] in s[..k] && s[k] in s[k..];
  }

  lemma OnceCounts(s: seq<Server>, a: nat)
    requires a < |s| && Apart(s)
    ensures multiset(s)[s[a]] == 1
  {
    assert s == s[..a] + [s[a]] + s[a + 1..];
    assert s[a] !in s[..a] && s[a] !in s[a + 1..];
  }

  /** The total left is what the surviving processes hold. */
  lemma TotalIsSurvivors(w: World, records: seq<Server>, victims: seq<Server>)
    requires victims <= Sorted(Candidates(w, records, Pids(records)))
    ensures SumFiles(w, Pids(records)) - Freed(w, victims) == SumFiles(w, Survivors(Pids(records), victims))
    ensures forall p :: p in Survivors(Pids(records), victims) <==>
      p in Pids(records) && forall v :: v in victims ==> v.pid != p
  {
    var pids := Pids(records);
    var candidates := Candidates(w, records, pids);
    PidsAre(records);
    CandidatesOnce(w, records, pids);
    SortedOnce(candidates);
    VictimsAreFair(w, records, victims);
    forall j, k | 0 <= j < k < |victims| ensures victims[j].pid != victims[k].pid {
      assert victims[j] == Sorted(candidates)[j] && victims[k] == Sorted(candidates)[k];
    }
    FreedIsTheirs(w, pids, victims);
  }

  // ----- who may go, and who goes first

  /** No record of the process is leaving, in a busy worktree or young, and it holds
      files. */
  ghost predicate MayGo(w: World, records: seq<Server>, pid: int) {
    && (exists r :: r in records && r.pid == pid)
    && pid in w.files && w.files[pid] > 0
    && forall r :: r in records && r.pid == pid ==>
         && !r.terminating && r.worktree !in w.busy && (r.startedAt > w.now || w.now - r.startedAt >= w.window)
  }

  lemma SparedMeans(w: World, records: seq<Server>, pid: int)
    requires exists r :: r in records && r.pid == pid
    ensures !Spared(w, records, pid) <==> MayGo(w, records, pid)
  {
    var r :| r in records && r.pid == pid;
    if MayGo(w, records, pid) {
      forall q | q in records && q.pid == pid ensures !Spares(w, q) {
      }
    }
    assert !Spared(w, records, pid) ==> !Spares(w, r);
  }

  /** The line from which victims are taken has each process that may go, once; one
      less used stands before one more used, and of two used alike the one longer
      unused. */
  lemma LineIs(w: World, records: seq<Server>)
    ensures var line := Sorted(Candidates(w, records, Pids(records)));
      && (forall pid :: (exists c :: c in line && c.pid == pid) <==> MayGo(w, records, pid))
      && (forall j, k :: 0 <= j < k < |line| ==> line[j].pid != line[k].pid)
      && (forall j, k :: 0 <= j < k < |line| ==>
            line[j].frequency < line[k].frequency
            || (line[j].frequency == line[k].frequency && line[j].usedAt <= line[k].usedAt))
  {
    var candidates := Candidates(w, records, Pids(records));
    var line := Sorted(candidates);
    PidsAre(records);
    CandidatesAre(w, records, Pids(records));
    CandidatesOnce(w, records, Pids(records));
    SortedOnce(candidates);
    SortedSorts(candidates);
    forall pid ensures (exists c :: c in line && c.pid == pid) <==> MayGo(w, records, pid) {
      InLine(w, records, pid);
    }
  }

  lemma InLine(w: World, records: seq<Server>, pid: int)
    ensures (exists c :: c in Sorted(Candidates(w, records, Pids(records))) && c.pid == pid) <==> MayGo(w, records, pid)
  {
    var candidates := Candidates(w, records, Pids(records));
    SortedSorts(candidates);
    forall c ensures c in Sorted(candidates) <==> c in candidates {
      assert c in multiset(Sorted(candidates)) <==> c in multiset(candidates);
    }
    PidsAre(records);
    CandidatesAre(w, records, Pids(records));
    HottestIs(records, pid);
    if exists r :: r in records && r.pid == pid {
      SparedMeans(w, records, pid);
      if MayGo(w, records, pid) {
        assert Hottest(records, pid).value in candidates;
      }
    }
  }

  /** Of several records of a process the hottest ranks it, and of equally hot ones
      the first. */
  lemma {:induction false} HottestIsFirst(records: seq<Server>, pid: int) returns (i: nat)
    requires exists r :: r in records && r.pid == pid
    ensures i < |records| && records[i].pid == pid && Hottest(records, pid) == Some(records[i])
    ensures forall j :: 0 <= j < |records| && records[j].pid == pid ==> records[j].frequency <= records[i].frequency
    ensures forall j :: 0 <= j < i && records[j].pid == pid ==> records[j].frequency < records[i].frequency
    decreases |records|
  {
    var n := |records| - 1;
    var before, last := records[..n], records[n];
    assert records == before + [last];
    HottestIs(before, pid);
    if Hottest(before, pid).None? {
      i := n;
      forall j | 0 <= j < n ensures records[j].pid != pid {
        assert before[j] in before;
      }
    } else {
      i := HottestIsFirst(before, pid);
      if last.pid == pid && last.frequency > before[i].frequency {
        i := n;
      }
    }
  }

  /** What the processes hold together, counted from the first. */
  function Held(w: World, pids: seq<int>): int {
    if pids == [] then 0 else (if pids[0] in w.files then w.files[pids[0]] else 0) + Held(w, pids[1..])
  }

  lemma {:induction false} HeldLast(w: World, pids: seq<int>, pid: int)
    ensures Held(w, pids + [pid]) == Held(w, pids) + if pid in w.files then w.files[pid] else 0
  {
    if pids == [] {
      assert [] + [pid] == [pid] && [pid][1..] == [];
      assert Held(w, [pid][1..]) == 0;
    } else {
      assert (pids + [pid])[1..] == pids[1..] + [pid];
      HeldLast(w, pids[1..], pid);
    }
  }

  lemma {:induction false} SumIsHeld(w: World, pids: seq<int>)
    ensures SumFiles(w, pids) == Held(w, pids)
    decreases |pids|
  {
    if pids != [] {
      var n := |pids| - 1;
      assert pids == pids[..n] + [pids[n]];
      SumIsHeld(w, pids[..n]);
      HeldLast(w, pids[..n], pids[n]);
    }
  }
}

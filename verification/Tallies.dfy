/** Counts kept per worktree (`perWorktree`, `operationsPerWorktree`): a map that
    holds a key only while somebody holds a count under it. */
module Tallies {

  /** How many holders are recorded under worktree `w`. */
  ghost function Count<K(!new)>(holders: map<K, string>, w: string): nat {
    |set k | k in holders && holders[k] == w|
  }

  /** A Go map read: a missing key reads as zero. */
  function Get(counts: map<string, int>, w: string): int {
    if w in counts then counts[w] else 0
  }

  function Take(counts: map<string, int>, w: string): map<string, int> {
    counts[w := Get(counts, w) + 1]
  }

  /** `release`: one count given back, the key dropped once nothing holds it. */
  function Release(counts: map<string, int>, w: string): map<string, int> {
    var left := Get(counts, w) - 1;
    if left <= 0 then counts - {w} else counts[w := left]
  }

  /** Every holder in `gone` released, in whatever order they come. */
  ghost function ReleaseEach<K(!new)>(counts: map<string, int>, gone: map<K, string>): map<string, int> {
    map w | w in counts && (Count(gone, w) == 0 || counts[w] > Count(gone, w)) :: counts[w] - Count(gone, w)
  }

  /** `counts` is exactly how many holders each worktree has, never above
      `limit`, with no key at zero. */
  ghost predicate Exact<K(!new)>(counts: map<string, int>, holders: map<K, string>, limit: int) {
    forall w :: Get(counts, w) == Count(holders, w) <= limit && (w in counts ==> counts[w] > 0)
  }

  lemma CountInsert<K(!new)>(holders: map<K, string>, k: K, w: string, v: string)
    requires k !in holders
    ensures Count(holders[k := w], v) == Count(holders, v) + if v == w then 1 else 0
  {
    var before := set j | j in holders && holders[j] == v;
    var more := holders[k := w];
    var after := set j | j in more && more[j] == v;
    if v == w {
      assert after == before + {k};
    } else {
      assert after == before;
    }
  }

  lemma CountSplit<K(!new)>(holders: map<K, string>, gone: set<K>, w: string)
    ensures Count(holders, w) == Count(holders - gone, w) + Count(Lost(holders, gone), w)
  {
    var left := set k | k in holders - gone && (holders - gone)[k] == w;
    var lost := set k | k in Lost(holders, gone) && Lost(holders, gone)[k] == w;
    assert left !! lost;
    assert (set k | k in holders && holders[k] == w) == left + lost;
  }

  /** The holders that go when the keys in `gone` go. */
  ghost function Lost<K(!new)>(holders: map<K, string>, gone: set<K>): map<K, string> {
    map k | k in holders && k in gone :: holders[k]
  }

  lemma TakeKeepsExact<K(!new)>(counts: map<string, int>, holders: map<K, string>, limit: int, k: K, w: string)
    requires Exact(counts, holders, limit) && k !in holders && Get(counts, w) < limit
    ensures Exact(Take(counts, w), holders[k := w], limit)
  {
    var after := Take(counts, w);
    forall v ensures Get(after, v) == Count(holders[k := w], v) <= limit && (v in after ==> after[v] > 0) {
      assert Get(counts, v) == Count(holders, v);
      CountInsert(holders, k, w, v);
    }
  }

  /** Releasing one holder after the others is releasing them all: the order in
      which a Go map is walked cannot show in the counts. */
  lemma ReleaseLast<K(!new)>(counts: map<string, int>, gone: map<K, string>, k: K, w: string)
    requires k !in gone
    ensures ReleaseEach(counts, gone[k := w]) == Release(ReleaseEach(counts, gone), w)
  {
    var before, after := ReleaseEach(counts, gone), ReleaseEach(counts, gone[k := w]);
    forall v ensures v in after <==> v in Release(before, w)
             ensures v in after ==> after[v] == Release(before, w)[v] {
      CountInsert(gone, k, w, v);
    }
  }

  lemma ReleaseEachKeepsExact<K(!new)>(counts: map<string, int>, holders: map<K, string>, limit: int, gone: set<K>)
    requires Exact(counts, holders, limit)
    ensures Exact(ReleaseEach(counts, Lost(holders, gone)), holders - gone, limit)
  {
    var after := ReleaseEach(counts, Lost(holders, gone));
    forall w ensures Get(after, w) == Count(holders - gone, w) <= limit && (w in after ==> after[w] > 0) {
      CountSplit(holders, gone, w);
      assert Get(counts, w) == Count(holders, w);
    }
  }

  lemma ReleaseOne<K(!new)>(counts: map<string, int>, holders: map<K, string>, limit: int, k: K)
    requires Exact(counts, holders, limit) && k in holders
    ensures Exact(Release(counts, holders[k]), holders - {k}, limit)
  {
    var w, left := holders[k], holders - {k};
    assert left[k := w] == holders;
    forall v ensures Get(Release(counts, w), v) == Count(left, v) <= limit {
      CountInsert(left, k, w, v);
      assert Get(counts, v) == Count(holders, v);
    }
  }

  lemma NobodyCounts<K(!new)>(holders: map<K, string>, w: string)
    requires holders == map[]
    ensures Count(holders, w) == 0
  {
    assert (set k | k in holders && holders[k] == w) <= holders.Keys;
  }

  /** Nobody to release, nothing released. */
  lemma ReleaseNone<K(!new)>(counts: map<string, int>, gone: map<K, string>)
    requires gone == map[]
    ensures ReleaseEach(counts, gone) == counts
  {
    forall w ensures Count(gone, w) == 0 {
      NobodyCounts(gone, w);
    }
  }
}

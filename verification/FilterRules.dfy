/** What the rules of a directory filter mean, told from their texts: which rule
    decides, what its path is, what a "**" stands for, and what a + rule may reach. */
module FilterRules {
  import opened Filter

  // ----- what a pattern takes

  /** A "**" after the first segment takes one segment or more, none with a newline. */
  lemma {:induction false} StarTakes(r: Path, p: Path)
    ensures From(["**"] + r, p) <==>
      exists k :: 1 <= k <= |p| && (forall j :: 0 <= j < k ==> OneLine(p[j])) && From(r, p[k..])
    decreases |p|
  {
    var star := ["**"] + r;
    assert star[1..] == r;
    if p != [] {
      StarTakes(r, p[1..]);
      if k :| 1 <= k <= |p| && (forall j :: 0 <= j < k ==> OneLine(p[j])) && From(r, p[k..]) {
        if k > 1 {
          assert p[1..][k - 1..] == p[k..];
          assert forall j :: 0 <= j < k - 1 ==> OneLine(p[1..][j]);
        }
      }
      if From(star, p[1..]) && OneLine(p[0]) {
        var k :| 1 <= k <= |p[1..]| && (forall j :: 0 <= j < k ==> OneLine(p[1..][j])) && From(r, p[1..][k..]);
        assert p[1..][k..] == p[k + 1..];
        assert forall j :: 0 < j < k + 1 ==> p[j] == p[1..][j - 1];
      }
    }
  }

  /** A leading "**" takes any number, none included. */
  lemma {:induction false} LeadingStarTakes(r: Path, p: Path)
    ensures Covers(["**"] + r, p) <==> exists k :: 0 <= k <= |p| && From(r, p[k..])
    decreases |p|
  {
    assert (["**"] + r)[1..] == r && p[0..] == p;
    if p != [] {
      LeadingStarTakes(r, p[1..]);
      if k :| 0 <= k <= |p| && From(r, p[k..]) {
        assert k > 0 ==> p[1..][k - 1..] == p[k..];
      }
      if k :| 0 <= k <= |p[1..]| && From(r, p[1..][k..]) {
        assert p[1..][k..] == p[k + 1..];
      }
    }
  }

  /** Any other segment takes its like, and what is below what is covered is too. */
  lemma NameTakes(s: string, r: Path, p: Path)
    requires s != "**"
    ensures Covers([s] + r, p) <==> p != [] && p[0] == s && From(r, p[1..])
    ensures From([s] + r, p) <==> p != [] && p[0] == s && From(r, p[1..])
    ensures From([], p) && Covers([], p)
  {
    assert ([s] + r)[1..] == r;
  }

  // ----- which rule decides

  /** The text is a rule, and its path covers this one. */
  predicate Applies(text: string, p: Path) {
    1 <= |text| <= 4096 && text[0] in {'+', '-'} && Covers(RulePath(text), p)
  }

  /** A path is included unless the last rule that applies to it is a - rule. */
  lemma {:induction false} IncludeMeans(texts: seq<string>, p: Path)
    ensures Include(Compiled(texts), p) <==>
      || (forall i :: 0 <= i < |texts| ==> !Applies(texts[i], p))
      || (exists i :: 0 <= i < |texts| && Applies(texts[i], p) && texts[i][0] == '+'
            && forall j :: i < j < |texts| ==> !Applies(texts[j], p))
    decreases |texts|
  {
    if texts != [] {
      var n := |texts| - 1;
      var before, last := texts[..n], texts[n];
      IncludeMeans(before, p);
      CompiledLast(texts, n);
      assert texts[..n + 1] == texts;
      if Usable(last) {
        IncludeLast(Compiled(before), Rule(last[0] == '+', RulePath(last)), p);
      }
      if i :| 0 <= i < |before| && Applies(before[i], p) && before[i][0] == '+'
              && forall j :: i < j < |before| ==> !Applies(before[j], p) {
        assert texts[i] == before[i];
        assert forall j :: i < j < |texts| && j != n ==> texts[j] == before[j];
      }
      if i :| 0 <= i < |texts| && Applies(texts[i], p) && texts[i][0] == '+'
              && forall j :: i < j < |texts| ==> !Applies(texts[j], p) {
        assert i < n ==> before[i] == texts[i];
        assert forall j :: i < j < n ==> before[j] == texts[j];
      }
    }
  }

  // ----- the path a rule names

  lemma {:induction false} CleanedThen(done: Path, a: Path, b: Path)
    requires Segments(done) && (forall s :: s in a ==> NoSlash(s)) && forall s :: s in b ==> NoSlash(s)
    ensures Cleaned(done, a + b) == Cleaned(Cleaned(done, a), b)
    decreases |a|
  {
    if a == [] {
      assert a + b == b;
    } else {
      assert (a + b)[1..] == a[1..] + b && (a + b)[0] == a[0];
      var next :=
        if a[0] == "" || a[0] == "." then done
        else if a[0] == ".." then if done == [] then [] else done[..|done| - 1]
        else done + [a[0]];
      CleanedThen(next, a[1..], b);
    }
  }

  /** Empty and "." segments go, ".." takes the segment before it along, and at the
      top there is none: with `CleanedKeeps`, these leave nothing open. */
  lemma CleanedMeans(a: Path, s: string, b: Path)
    requires (forall t :: t in a ==> NoSlash(t)) && (forall t :: t in b ==> NoSlash(t)) && NoSlash(s)
    ensures s == "" || s == "." ==> Cleaned([], a + [s] + b) == Cleaned([], a + b)
    ensures Segment(s) ==> Cleaned([], a + [s, ".."] + b) == Cleaned([], a + b)
    ensures Cleaned([], [".."] + b) == Cleaned([], b)
  {
    var done := Cleaned([], a);
    CleanedThen([], a, b);
    assert ([".."] + b)[1..] == b;
    if s == "" || s == "." {
      assert a + [s] + b == a + ([s] + b) && ([s] + b)[1..] == b;
      CleanedThen([], a, [s] + b);
    }
    if Segment(s) {
      assert a + [s, ".."] + b == a + ([s, ".."] + b);
      CleanedThen([], a, [s, ".."] + b);
      assert ([s, ".."] + b)[1..] == [".."] + b;
      assert (done + [s])[..|done|] == done;
    }
  }

  // ----- what a + rule may reach

  /** The rule may match anywhere. */
  predicate Anywhere(r: Path) {
    r == [] || "**" in r
  }

  /** The rule covers the path or something below it, but nothing above it. */
  ghost predicate Reached(r: Path, p: Path) {
    (exists below :: Covers(r, p + below)) && forall k :: 0 <= k < |p| ==> !Covers(r, p[..k])
  }

  lemma ReachedIsPrefix(r: Path, p: Path)
    requires !Anywhere(r)
    ensures Reached(r, p) <==> p <= r
  {
    if p <= r {
      assert p + r[|p|..] == r;
      PrefixCovers(r, r);
      assert Covers(r, p + r[|p|..]);
      forall k | 0 <= k < |p| ensures !Covers(r, p[..k]) {
        if Covers(r, p[..k]) {
          PlainIsPrefix(r, p[..k]);
        }
      }
    }
    if Reached(r, p) {
      var below :| Covers(r, p + below);
      PlainIsPrefix(r, p + below);
      if |r| < |p| {
        assert r == (p + below)[..|r|] == p[..|r|];
        PrefixCovers(r, p[..|r|]);
      } else {
        assert p == (p + below)[..|p|] == r[..|p|];
      }
    }
  }

  /** A directory is looked into exactly for a + rule that may match anywhere, or
      that covers it or something below it and nothing above it. */
  lemma MayIncludeMeans(rules: seq<Rule>, p: Path)
    ensures MayInclude(rules, p) <==>
      exists rule :: rule in rules && rule.plus && (Anywhere(rule.path) || Reached(rule.path, p))
  {
    forall rule | rule in rules && !Anywhere(rule.path) ensures Reached(rule.path, p) <==> p <= rule.path {
      ReachedIsPrefix(rule.path, p);
    }
  }
}

/** The directory filter of the watch-root planner: rules compiled to regular
    expressions, matched against slash-separated paths, the last match winning.

    A path is a sequence of segments; its text is what the source handles. */
module Filter {
  type Path = seq<string>

  // ----- text

  predicate NoSlash(s: string) {
    '/' !in s
  }

  /** A segment a directory entry or a cleaned rule can have. */
  predicate Segment(s: string) {
    s != "" && NoSlash(s) && s != "." && s != ".."
  }

  predicate Segments(p: Path) {
    forall s :: s in p ==> Segment(s)
  }

  /** The segments of `p`, each followed by a slash. */
  function Slashed(p: Path): string {
    if p == [] then "" else p[0] + "/" + Slashed(p[1..])
  }

  /** The text of a path: its segments with a slash between each two. */
  function Text(p: Path): string {
    if p == [] then "" else if |p| == 1 then p[0] else p[0] + "/" + Text(p[1..])
  }

  /** `strings.Split(s, "/")`. */
  function Split(s: string): (r: Path)
    ensures r != []
    ensures forall seg :: seg in r ==> NoSlash(seg)
    decreases |s|
  {
    if NoSlash(s) then [s]
    else
      var k := SlashAt(s);
      [s[..k]] + Split(s[k + 1..])
  }

  /** Where the first slash is. */
  function SlashAt(s: string): (k: nat)
    requires !NoSlash(s)
    ensures k < |s| && s[k] == '/' && NoSlash(s[..k])
  {
    if s[0] == '/' then 0 else
      assert s == [s[0]] + s[1..];
      1 + SlashAt(s[1..])
  }

  /** There is one first slash. */
  lemma FirstSlash(s: string, j: nat, k: nat)
    requires j < |s| && s[j] == '/' && NoSlash(s[..j])
    requires k < |s| && s[k] == '/' && NoSlash(s[..k])
    ensures j == k
  {
  }

  /** Splitting undoes joining. */
  lemma {:induction false} SplitText(p: Path)
    requires p != [] && forall s :: s in p ==> NoSlash(s)
    ensures Split(Text(p)) == p
  {
    if |p| == 1 {
      assert p == [p[0]];
    } else {
      var s := Text(p);
      assert s == p[0] + "/" + Text(p[1..]);
      assert s[|p[0]|] == '/';
      var k := SlashAt(s);
      assert p[0] in p;
      FirstSlash(s, k, |p[0]|);
      assert s[..k] == p[0] && s[k + 1..] == Text(p[1..]);
      SplitText(p[1..]);
    }
  }

  /** The trailing slash the matcher adds. */
  lemma {:induction false} TextSlashed(p: Path)
    requires p != []
    ensures Text(p) + "/" == Slashed(p)
  {
    if |p| == 1 {
      assert p[1..] == [];
      assert Slashed(p) == p[0] + "/" + Slashed(p[1..]);
    } else {
      TextSlashed(p[1..]);
      assert Text(p) + "/" == p[0] + "/" + (Text(p[1..]) + "/");
    }
  }

  // ----- rules

  /** config.MaxDirectoryFilterBytes. */
  const MAX_FILTER := 4096

  datatype Rule = Rule(plus: bool, path: Path)

  predicate Usable(rule: string) {
    0 < |rule| <= MAX_FILTER && (rule[0] == '+' || rule[0] == '-')
  }

  /** `path.Clean` of a rooted path, on its segments: empty and "." segments go,
      and ".." takes the segment before it along, if there is one. */
  function Cleaned(done: Path, todo: Path): (r: Path)
    requires Segments(done) && forall s :: s in todo ==> NoSlash(s)
    ensures Segments(r)
    decreases todo
  {
    if todo == [] then done
    else if todo[0] == "" || todo[0] == "." then Cleaned(done, todo[1..])
    else if todo[0] == ".." then Cleaned(if done == [] then [] else done[..|done| - 1], todo[1..])
    else Cleaned(done + [todo[0]], todo[1..])
  }

  /** `rulePath`, as segments. */
  function RulePath(rule: string): (r: Path)
    requires rule != ""
    ensures Segments(r)
  {
    Cleaned([], Split(rule[1..]))
  }

  /** The rules in force: those that are usable, in their order. */
  function Compiled(texts: seq<string>): (r: seq<Rule>)
    ensures forall rule :: rule in r ==> Segments(rule.path)
  {
    if texts == [] then []
    else if Usable(texts[0]) then [Rule(texts[0][0] == '+', RulePath(texts[0]))] + Compiled(texts[1..])
    else Compiled(texts[1..])
  }

  /** A rule names the path it is written as: cleaning a clean path changes
      nothing. */
  lemma {:induction false} CleanedKeeps(done: Path, todo: Path)
    requires Segments(done) && Segments(todo)
    ensures Cleaned(done, todo) == done + todo
    decreases todo
  {
    if todo != [] {
      assert todo[0] in todo;
      CleanedKeeps(done + [todo[0]], todo[1..]);
      assert done + [todo[0]] + todo[1..] == done + todo;
    } else {
      assert done + todo == done;
    }
  }

  lemma RulePathOfText(sign: char, p: Path)
    requires p != [] && Segments(p)
    ensures RulePath([sign] + Text(p)) == p
  {
    assert ([sign] + Text(p))[1..] == Text(p);
    SplitText(p);
    CleanedKeeps([], p);
    assert [] + p == p;
  }

  // ----- the regular expression

  datatype Atom = Lit(c: char) | AnyStar

  datatype Pattern = Pattern(anchored: bool, atoms: seq<Atom>)

  function Lits(s: string): seq<Atom> {
    seq(|s|, i requires 0 <= i < |s| => Lit(s[i]))
  }

  /** What is written for each segment, each followed by a slash. */
  function Atoms(r: Path): seq<Atom> {
    if r == [] then []
    else (if r[0] == "**" then [AnyStar] else Lits(r[0])) + [Lit('/')] + Atoms(r[1..])
  }

  /** The pattern of a rule. A leading "**" loses its `^/.*`, which leaves a
      pattern that may match anywhere and begins with the slash after it. */
  function PatternOf(r: Path): Pattern {
    if r == [] then Pattern(false, [AnyStar])
    else if r[0] == "**" then Pattern(false, [Lit('/')] + Atoms(r[1..]))
    else Pattern(true, [Lit('/')] + Atoms(r))
  }

  /** The atoms match some prefix of `s`; a dot matches no newline. */
  predicate MatchHere(atoms: seq<Atom>, s: string)
    decreases |atoms| + |s|
  {
    if atoms == [] then true
    else match atoms[0]
      case Lit(c) => s != "" && s[0] == c && MatchHere(atoms[1..], s[1..])
      case AnyStar => MatchHere(atoms[1..], s) || (s != "" && s[0] != '\n' && MatchHere(atoms, s[1..]))
  }

  predicate MatchAnywhere(atoms: seq<Atom>, s: string)
    decreases |s|
  {
    MatchHere(atoms, s) || (s != "" && MatchAnywhere(atoms, s[1..]))
  }

  /** `MatchString`. */
  predicate Matches(p: Pattern, s: string) {
    if p.anchored then MatchHere(p.atoms, s) else MatchAnywhere(p.atoms, s)
  }

  // ----- the same, segment by segment

  predicate OneLine(s: string) {
    '\n' !in s
  }

  /** Rule segments against path segments, both from their first: what is left of
      the path when the rule is used up is below it. Here "**" stands for one or
      more segments, none of them holding a newline. */
  predicate From(r: Path, p: Path)
    decreases |r| + |p|
  {
    if r == [] then true
    else if p == [] then false
    else if r[0] == "**" then OneLine(p[0]) && (From(r[1..], p[1..]) || From(r, p[1..]))
    else r[0] == p[0] && From(r[1..], p[1..])
  }

  predicate Somewhere(r: Path, p: Path)
    decreases |p|
  {
    From(r, p) || (p != [] && Somewhere(r, p[1..]))
  }

  /** Whether a rule covers a path. A leading "**" stands for any number of
      segments, none included. */
  predicate Covers(r: Path, p: Path) {
    if r == [] then true
    else if r[0] == "**" then Somewhere(r[1..], p)
    else From(r, p)
  }

  // ----- one lemma per kind of atom

  lemma {:induction false} LitsMatch(t: string, rest: seq<Atom>, s: string)
    ensures MatchHere(Lits(t) + rest, s) <==> t <= s && MatchHere(rest, s[|t|..])
    decreases |t|
  {
    var atoms := Lits(t) + rest;
    if t == "" {
      assert atoms == rest && s[0..] == s;
    } else {
      assert atoms[0] == Lit(t[0]) && atoms[1..] == Lits(t[1..]) + rest;
      if s != "" && s[0] == t[0] {
        LitsMatch(t[1..], rest, s[1..]);
        assert t <= s <==> t[1..] <= s[1..];
        assert t <= s ==> s[1..][|t[1..]|..] == s[|t|..];
      }
    }
  }

  /** A literal segment matches the first segment of a path or none. */
  lemma SegmentMatches(t: string, rest: seq<Atom>, seg: string, below: string)
    requires NoSlash(t) && NoSlash(seg)
    ensures MatchHere(Lits(t) + [Lit('/')] + rest, seg + "/" + below) <==> t == seg && MatchHere(rest, below)
  {
    var s := seg + "/" + below;
    assert Lits(t) + [Lit('/')] + rest == Lits(t) + ([Lit('/')] + rest);
    LitsMatch(t, [Lit('/')] + rest, s);
    assert ([Lit('/')] + rest)[1..] == rest;
    if t <= s && |t| < |s| && s[|t|] == '/' {
      assert s[..|t|] == t && s[..|seg|] == seg;
      FirstSlash(s, |t|, |seg|);
    }
    if t == seg {
      assert s[|t|..] == "/" + below && s[|t|..][1..] == below;
    }
  }

  /** A "**" takes the first segment of a path and its slash, if it has no
      newline, and then stops there or goes on. */
  lemma {:induction false} StarMatches(rest: seq<Atom>, seg: string, below: string)
    requires NoSlash(seg)
    ensures var star := [AnyStar, Lit('/')] + rest;
      MatchHere(star, seg + "/" + below) <==> OneLine(seg) && (MatchHere(rest, below) || MatchHere(star, below))
    decreases |seg|
  {
    var star, s := [AnyStar, Lit('/')] + rest, seg + "/" + below;
    assert star[1..] == [Lit('/')] + rest && star[1..][1..] == rest;
    if seg == "" {
      assert s[1..] == below;
    } else {
      assert s[0] == seg[0] && seg[0] in seg;
      assert s[1..] == seg[1..] + "/" + below;
      assert OneLine(seg) <==> seg[0] != '\n' && OneLine(seg[1..]) by {
        assert seg == [seg[0]] + seg[1..];
      }
      StarMatches(rest, seg[1..], below);
    }
  }

  /** A slash found anywhere is the slash before some segment. */
  lemma {:induction false} SlashFound(rest: seq<Atom>, seg: string, below: string)
    requires NoSlash(seg)
    ensures var atoms := [Lit('/')] + rest;
      MatchAnywhere(atoms, seg + "/" + below) <==> MatchHere(rest, below) || MatchAnywhere(atoms, below)
    decreases |seg|
  {
    var atoms, s := [Lit('/')] + rest, seg + "/" + below;
    assert atoms[1..] == rest;
    if seg == "" {
      assert s[1..] == below;
    } else {
      assert s[0] == seg[0] && seg[0] in seg;
      assert s[1..] == seg[1..] + "/" + below;
      SlashFound(rest, seg[1..], below);
    }
  }

  // ----- the regular expression is the segment matcher

  lemma {:induction false} AtomsMatch(r: Path, p: Path)
    requires Segments(r) && Segments(p)
    ensures MatchHere(Atoms(r), Slashed(p)) <==> From(r, p)
    decreases |r| + |p|
  {
    if r == [] {
    } else if p == [] {
      var first := if r[0] == "**" then [AnyStar] else Lits(r[0]);
      var rest := [Lit('/')] + Atoms(r[1..]);
      assert Atoms(r) == first + rest;
      if r[0] == "**" {
        assert Atoms(r)[1..] == rest;
      }
    } else {
      assert Slashed(p) == p[0] + "/" + Slashed(p[1..]);
      assert p[0] in p && r[0] in r;
      AtomsMatch(r[1..], p[1..]);
      if r[0] == "**" {
        assert Atoms(r) == [AnyStar, Lit('/')] + Atoms(r[1..]);
        StarMatches(Atoms(r[1..]), p[0], Slashed(p[1..]));
        AtomsMatch(r, p[1..]);
      } else {
        SegmentMatches(r[0], Atoms(r[1..]), p[0], Slashed(p[1..]));
      }
    }
  }

  lemma {:induction false} FoundMatches(r: Path, p: Path)
    requires Segments(r) && Segments(p)
    ensures MatchHere(Atoms(r), Slashed(p)) || MatchAnywhere([Lit('/')] + Atoms(r), Slashed(p)) <==> Somewhere(r, p)
    decreases |p|
  {
    AtomsMatch(r, p);
    if p == [] {
      assert Slashed(p) == "";
    } else {
      assert p[0] in p;
      SlashFound(Atoms(r), p[0], Slashed(p[1..]));
      FoundMatches(r, p[1..]);
    }
  }

  /** The regular expression of a rule, on the text of a path, decides exactly
      whether the rule covers the path. */
  lemma PatternCovers(r: Path, p: Path)
    requires Segments(r) && Segments(p) && p != []
    ensures Matches(PatternOf(r), "/" + Text(p) + "/") <==> Covers(r, p)
  {
    var s := "/" + Text(p) + "/";
    TextSlashed(p);
    assert s == "/" + Slashed(p) && s[1..] == Slashed(p);
    if r == [] {
      assert MatchHere([AnyStar][1..], s);
    } else if r[0] == "**" {
      var atoms := [Lit('/')] + Atoms(r[1..]);
      assert atoms[1..] == Atoms(r[1..]);
      FoundMatches(r[1..], p);
    } else {
      var atoms := [Lit('/')] + Atoms(r);
      assert atoms[1..] == Atoms(r);
      AtomsMatch(r, p);
    }
  }

  // ----- what the documentation says

  /** "**" matches zero or more segments, wherever it stands. */
  predicate Documented(r: Path, p: Path)
    decreases |r| + |p|
  {
    if r == [] then true
    else if r[0] == "**" then Documented(r[1..], p) || (p != [] && Documented(r, p[1..]))
    else p != [] && r[0] == p[0] && Documented(r[1..], p[1..])
  }

  predicate PlainBelow(r: Path) {
    forall k :: 1 <= k < |r| ==> r[k] != "**"
  }

  lemma {:induction false} PlainAgrees(r: Path, p: Path)
    requires "**" !in r
    ensures From(r, p) <==> Documented(r, p)
    decreases |r|
  {
    if r != [] && p != [] {
      assert "**" !in r[1..];
      PlainAgrees(r[1..], p[1..]);
    }
  }

  lemma {:induction false} LeadingAgrees(r: Path, p: Path)
    requires r != [] && r[0] == "**" && "**" !in r[1..]
    ensures Covers(r, p) <==> Documented(r, p)
    decreases |p|
  {
    PlainAgrees(r[1..], p);
    if p != [] {
      LeadingAgrees(r, p[1..]);
    }
  }

  /** The segments of a rule that are not "**". */
  function Named(r: Path): (n: Path)
    ensures |n| <= |r| && (forall s :: s in n ==> s in r)
    ensures "**" in r ==> |n| < |r|
  {
    if r == [] then [] else if r[0] == "**" then Named(r[1..]) else [r[0]] + Named(r[1..])
  }

  lemma {:induction false} NamedDocumented(r: Path, below: Path)
    ensures Documented(r, Named(r) + below)
    decreases |r|
  {
    if r != [] {
      NamedDocumented(r[1..], below);
      if r[0] != "**" {
        assert (Named(r) + below)[1..] == Named(r[1..]) + below;
      }
    }
  }

  /** Inside a rule every segment takes at least one of the path's. */
  lemma {:induction false} FromNeeds(r: Path, p: Path)
    requires From(r, p)
    ensures |p| >= |r|
    decreases |r| + |p|
  {
    if r != [] {
      if r[0] == "**" && From(r, p[1..]) {
        FromNeeds(r, p[1..]);
      } else {
        FromNeeds(r[1..], p[1..]);
      }
    }
  }

  lemma {:induction false} SomewhereNeeds(r: Path, p: Path)
    requires Somewhere(r, p)
    ensures |p| >= |r|
    decreases |p|
  {
    if From(r, p) {
      FromNeeds(r, p);
    } else {
      SomewhereNeeds(r, p[1..]);
    }
  }

  /** A path on which the code and its documentation differ, for a rule with a
      "**" after its first segment. */
  function Apart(r: Path): Path {
    if Named(r) == [] then ["\n"] else Named(r)
  }

  lemma ApartDiffers(r: Path)
    requires Segments(r) && !PlainBelow(r)
    ensures Apart(r) != [] && Segments(Apart(r)) && Documented(r, Apart(r)) && !Covers(r, Apart(r))
  {
    assert "**" in r[1..];
    var p := Apart(r);
    NamedDocumented(r, if Named(r) == [] then ["\n"] else []);
    assert Named(r) + (if Named(r) == [] then ["\n"] else []) == p;
    if Named(r) == [] {
      NoneNamed(r);
      assert !From(r[1..], ["\n"]) && ["\n"][1..] == [];
    } else if Covers(r, p) {
      if r[0] == "**" {
        SomewhereNeeds(r[1..], p);
      } else {
        FromNeeds(r, p);
      }
    }
  }

  lemma {:induction false} NoneNamed(r: Path)
    requires Named(r) == []
    ensures forall s :: s in r ==> s == "**"
  {
    if r != [] {
      NoneNamed(r[1..]);
      assert r == [r[0]] + r[1..];
    }
  }

  /** The code does what its documentation says, for every path, exactly when no
      "**" follows the first segment of the rule. */
  lemma DocumentedExactly(r: Path)
    requires Segments(r)
    ensures PlainBelow(r) <==> forall p :: p != [] && Segments(p) ==> (Covers(r, p) <==> Documented(r, p))
  {
    if PlainBelow(r) {
      forall p | p != [] && Segments(p) ensures Covers(r, p) <==> Documented(r, p) {
        if r != [] && r[0] == "**" {
          LeadingAgrees(r, p);
        } else {
          PlainAgrees(r, p);
        }
      }
    } else {
      ApartDiffers(r);
    }
  }

  // ----- closure

  lemma {:induction false} FromBelow(r: Path, p: Path, below: Path)
    requires From(r, p)
    ensures From(r, p + below)
    decreases |r| + |p|
  {
    if r != [] {
      assert (p + below)[1..] == p[1..] + below;
      if r[0] == "**" && From(r, p[1..]) {
        FromBelow(r, p[1..], below);
      } else {
        FromBelow(r[1..], p[1..], below);
      }
    }
  }

  lemma {:induction false} SomewhereBelow(r: Path, p: Path, below: Path)
    requires Somewhere(r, p)
    ensures Somewhere(r, p + below)
    decreases |p|
  {
    if From(r, p) {
      FromBelow(r, p, below);
    } else {
      assert (p + below)[1..] == p[1..] + below;
      SomewhereBelow(r, p[1..], below);
    }
  }

  /** A rule that covers a directory covers everything below it. */
  lemma CoversBelow(r: Path, p: Path, below: Path)
    requires Covers(r, p)
    ensures Covers(r, p + below)
  {
    if r != [] {
      if r[0] == "**" {
        SomewhereBelow(r[1..], p, below);
      } else {
        FromBelow(r, p, below);
      }
    }
  }

  // ----- the verdict

  /** The last rule that covers the path decides; without one it is included. */
  function Include(rules: seq<Rule>, p: Path): bool {
    if rules == [] then true
    else if Covers(rules[|rules| - 1].path, p) then rules[|rules| - 1].plus
    else Include(rules[..|rules| - 1], p)
  }

  lemma {:induction false} CompiledLast(texts: seq<string>, i: nat)
    requires i < |texts|
    ensures Compiled(texts[..i + 1]) ==
      if Usable(texts[i]) then Compiled(texts[..i]) + [Rule(texts[i][0] == '+', RulePath(texts[i]))]
      else Compiled(texts[..i])
    decreases i
  {
    if i == 0 {
      assert texts[..1] == [texts[0]] && texts[..1][1..] == [] && texts[..0] == [];
    } else {
      assert texts[..i + 1][1..] == texts[1..][..i] && texts[..i][1..] == texts[1..][..i - 1];
      CompiledLast(texts[1..], i - 1);
    }
  }

  lemma IncludeLast(rules: seq<Rule>, rule: Rule, p: Path)
    ensures Include(rules + [rule], p) == if Covers(rule.path, p) then rule.plus else Include(rules, p)
  {
    assert (rules + [rule])[..|rules|] == rules;
  }

  /** `pathIncludeFunc`: the usable rules tried in order, the verdict overwritten
      by each whose pattern matches. */
  method PathInclude(texts: seq<string>, p: Path) returns (verdict: bool)
    requires p != [] && Segments(p)
    ensures verdict == Include(Compiled(texts), p)
  {
    var rel := "/" + Text(p) + "/";
    verdict := true;
    for i := 0 to |texts|
      invariant verdict == Include(Compiled(texts[..i]), p)
    {
      CompiledLast(texts, i);
      if Usable(texts[i]) {
        PatternCovers(RulePath(texts[i]), p);
        IncludeLast(Compiled(texts[..i]), Rule(texts[i][0] == '+', RulePath(texts[i])), p);
        if Matches(PatternOf(RulePath(texts[i])), rel) {
          verdict := texts[i][0] == '+';
        }
      }
    }
    assert texts[..|texts|] == texts;
  }

  /** Some + rule may include the path or something below it. */
  predicate MayInclude(rules: seq<Rule>, p: Path) {
    exists rule :: rule in rules && rule.plus && (rule.path == [] || "**" in rule.path || p <= rule.path)
  }

  /** Some + rule covers the path, if a rule list that excludes an ancestor of it
      includes it. */
  lemma {:induction false} IncludedByPlus(rules: seq<Rule>, p: Path, below: Path)
    requires !Include(rules, p) && Include(rules, p + below)
    ensures exists rule :: rule in rules && rule.plus && Covers(rule.path, p + below) && !Covers(rule.path, p)
    decreases |rules|
  {
    var last := rules[|rules| - 1];
    if Covers(last.path, p) {
      CoversBelow(last.path, p, below);
    } else if Covers(last.path, p + below) {
      assert last in rules;
    } else {
      IncludedByPlus(rules[..|rules| - 1], p, below);
    }
  }

  lemma {:induction false} PlainIsPrefix(r: Path, p: Path)
    requires "**" !in r && From(r, p)
    ensures r <= p
    decreases |r|
  {
    if r != [] {
      assert "**" !in r[1..];
      PlainIsPrefix(r[1..], p[1..]);
    }
  }

  /** A rule without "**" that covers something below a directory, but not the
      directory, names something below it. */
  lemma PlainReaches(r: Path, p: Path, below: Path)
    requires "**" !in r && From(r, p + below) && !From(r, p)
    ensures p <= r
  {
    PlainIsPrefix(r, p + below);
    if |r| <= |p| {
      assert r == (p + below)[..|r|] == p[..|r|];
      PrefixCovers(r, p);
    } else {
      assert p == (p + below)[..|p|] == r[..|p|];
    }
  }

  /** Sound pruning: below an excluded directory that no + rule may reach,
      nothing is included. */
  lemma NothingBelow(rules: seq<Rule>, p: Path, below: Path)
    requires !Include(rules, p) && !MayInclude(rules, p)
    ensures !Include(rules, p + below)
  {
    if Include(rules, p + below) {
      IncludedByPlus(rules, p, below);
      var rule :| rule in rules && rule.plus && Covers(rule.path, p + below) && !Covers(rule.path, p);
      if rule.path != [] && "**" !in rule.path {
        PlainReaches(rule.path, p, below);
      }
    }
  }

  lemma {:induction false} PrefixCovers(r: Path, p: Path)
    requires "**" !in r && r <= p
    ensures From(r, p)
    decreases |r|
  {
    if r != [] {
      assert "**" !in r[1..];
      PrefixCovers(r[1..], p[1..]);
    }
  }

  /** The + rules of `newDirFilter`, gathered until one may match anywhere. */
  method PlusPrefixes(texts: seq<string>) returns (plus: seq<string>)
    ensures plus == PlusTexts(Compiled(texts))
  {
    plus := [];
    for i := 0 to |texts|
      invariant plus + PlusTexts(Compiled(texts[i..])) == PlusTexts(Compiled(texts))
    {
      assert texts[i..][1..] == texts[i + 1..];
      if Usable(texts[i]) && texts[i][0] == '+' {
        var path := RulePath(texts[i]);
        assert Compiled(texts[i..]) == [Rule(true, path)] + Compiled(texts[i + 1..]);
        if path == [] || "**" in path {
          plus := plus + ["**"];
          return;
        }
        assert PlusTexts(Compiled(texts[i..])) == [Text(path)] + PlusTexts(Compiled(texts[i + 1..]));
        plus := plus + [Text(path)];
      }
    }
    assert texts[|texts|..] == [];
  }

  /** What `newDirFilter` keeps of the + rules: their texts, until one that may
      match anywhere makes the rest irrelevant. */
  function PlusTexts(rules: seq<Rule>): seq<string> {
    if rules == [] then []
    else if !rules[0].plus then PlusTexts(rules[1..])
    else if rules[0].path == [] || "**" in rules[0].path then ["**"]
    else [Text(rules[0].path)] + PlusTexts(rules[1..])
  }

  /** The test `mayInclude` makes of each. */
  predicate Reaches(prefix: string, rel: string) {
    prefix == "**" || prefix == rel || rel + "/" <= prefix
  }

  lemma {:induction false} TextPrefix(r: Path, p: Path)
    requires r != [] && p != [] && Segments(r) && Segments(p)
    ensures Text(p) == Text(r) || Text(p) + "/" <= Text(r) <==> p <= r
    decreases |p|
  {
    TextSlashed(p);
    TextSlashed(r);
    SlashedPrefix(r, p);
    var s, t := Text(p) + "/", Text(r) + "/";
    assert Text(p) == t[..|t| - 1] <==> Text(p) == Text(r);
    if Text(p) + "/" <= Text(r) {
      assert s <= t;
    }
    if s <= t && |s| < |t| {
      assert s == t[..|s|] == Text(r)[..|s|];
    }
    if s <= t && |s| == |t| {
      assert s == t;
      assert Text(p) == s[..|s| - 1] == t[..|t| - 1] == Text(r);
    }
  }

  lemma {:induction false} SlashedPrefix(r: Path, p: Path)
    requires Segments(r) && Segments(p)
    ensures Slashed(p) <= Slashed(r) <==> p <= r
    decreases |p|
  {
    if p == [] {
    } else if r == [] {
      assert Slashed(p) == p[0] + "/" + Slashed(p[1..]);
    } else {
      var s, t := Slashed(p), Slashed(r);
      assert s == p[0] + "/" + Slashed(p[1..]) && t == r[0] + "/" + Slashed(r[1..]);
      assert p[0] in p && r[0] in r;
      SlashedPrefix(r[1..], p[1..]);
      if s <= t {
        assert t[..|r[0]|] == r[0] && t[..|p[0]|] == s[..|p[0]|] == p[0];
        FirstSlash(t, |p[0]|, |r[0]|);
        assert Slashed(p[1..]) == s[|p[0]| + 1..] && Slashed(r[1..]) == t[|p[0]| + 1..];
        assert Slashed(p[1..]) <= Slashed(r[1..]);
        assert p == [p[0]] + p[1..] && r == [r[0]] + r[1..];
      }
      if p <= r {
        assert p[1..] <= r[1..] && p[0] == r[0];
        assert s == p[0] + "/" + Slashed(p[1..]) && t == p[0] + "/" + Slashed(r[1..]);
      }
    }
  }

  lemma NotStars(r: Path)
    requires r != [] && Segments(r) && "**" !in r
    ensures Text(r) != "**"
  {
    SplitText(r);
    assert Split("**") == ["**"];
  }

  /** The string tests of `mayInclude` decide exactly what is meant by them. */
  lemma {:induction false} PlusTextsReach(rules: seq<Rule>, p: Path)
    requires p != [] && Segments(p) && forall rule :: rule in rules ==> Segments(rule.path)
    ensures (exists prefix :: prefix in PlusTexts(rules) && Reaches(prefix, Text(p))) <==> MayInclude(rules, p)
    decreases |rules|
  {
    if rules != [] {
      var first, rest := rules[0], rules[1..];
      assert rules == [first] + rest;
      PlusTextsReach(rest, p);
      assert MayInclude(rules, p) <==>
        (first.plus && (first.path == [] || "**" in first.path || p <= first.path)) || MayInclude(rest, p);
      if !first.plus {
      } else if first.path == [] || "**" in first.path {
        assert "**" in PlusTexts(rules) && Reaches("**", Text(p));
      } else {
        TextPrefix(first.path, p);
        NotStars(first.path);
        assert PlusTexts(rules) == [Text(first.path)] + PlusTexts(rest);
        assert Reaches(Text(first.path), Text(p)) <==> p <= first.path;
        forall prefix ensures prefix in PlusTexts(rules) <==> prefix == Text(first.path) || prefix in PlusTexts(rest) {
        }
      }
    }
  }
}

/** The names a plan records for a directory: which entries they are, told from the
    directory itself. */
module PlanNames {
  import opened Options
  import opened Filter
  import opened Trees
  import opened Planner

  // ----- which files are watched

  predicate EndsWith(name: string, suffix: string) {
    |suffix| <= |name| && name[|name| - |suffix|..] == suffix
  }

  /** A dot and no other after it. */
  predicate Suffix(s: string) {
    s != "" && s[0] == '.' && '.' !in s[1..]
  }

  lemma {:induction false} ExtIs(name: string, suffix: string)
    requires Suffix(suffix)
    ensures Ext(name) == suffix <==> EndsWith(name, suffix)
    decreases |name|
  {
    if name != "" {
      var before, last := name[..|name| - 1], name[|name| - 1];
      if last == '.' {
        LastOf(name, suffix);
      } else if |suffix| > 1 {
        var shorter := suffix[..|suffix| - 1];
        assert shorter[1..] == suffix[1..][..|suffix| - 2];
        ExtIs(before, shorter);
        ExtBegins(before);
        LastOf(name, suffix);
      } else {
        ExtBegins(before);
        LastOf(name, suffix);
      }
    }
  }

  lemma {:induction false} ExtBegins(name: string)
    ensures Ext(name) != "" ==> Ext(name)[0] == '.'
    decreases |name|
  {
    if name != "" {
      ExtBegins(name[..|name| - 1]);
    }
  }

  /** A name ends with a suffix when it does one character earlier and with the last. */
  lemma LastOf(name: string, suffix: string)
    requires name != "" && suffix != ""
    ensures EndsWith(name, suffix) <==>
      name[|name| - 1] == suffix[|suffix| - 1] && EndsWith(name[..|name| - 1], suffix[..|suffix| - 1])
  {
    if |suffix| <= |name| {
      var tail := name[|name| - |suffix|..];
      assert tail == name[|name| - |suffix|..|name| - 1] + [name[|name| - 1]];
      assert suffix == suffix[..|suffix| - 1] + [suffix[|suffix| - 1]];
      assert name[..|name| - 1][|name| - |suffix|..] == name[|name| - |suffix|..|name| - 1];
    }
  }

  /** The five suffixes. */
  lemma WatchedFileIs(name: string)
    ensures WatchedFile(name) <==> GoplsReads(name)
  {
    ExtIs(name, ".go");
    ExtIs(name, ".mod");
    ExtIs(name, ".sum");
    ExtIs(name, ".work");
    ExtIs(name, ".s");
  }

  // ----- which names are recorded

  /** A regular file of that name is listed. */
  predicate ListsFile(es: Entries, name: string) {
    es.Entry? && ((es.name == name && es.node.File? && es.node.regular) || ListsFile(es.rest, name))
  }

  /** A file that gopls reads. */
  predicate GoplsReads(name: string) {
    || EndsWith(name, ".go") || EndsWith(name, ".mod") || EndsWith(name, ".sum")
    || EndsWith(name, ".work") || EndsWith(name, ".s")
  }

  /** What is recorded for the directory at `p`: of its subdirectories, with a slash,
      those that are included, or that a + rule may reach if the directory is itself
      excluded; of its files, unless it is excluded, the regular ones that gopls
      reads; and nothing else. */
  ghost predicate Names(f: seq<Rule>, p: Path, es: Entries, files: bool, names: seq<string>) {
    && (forall d :: d + "/" in names <==>
          Lookup(es, d).Some? && (Include(f, p + [d]) || (!files && MayInclude(f, p + [d]))))
    && (forall n :: EndsWith(n, "/") || (n in names <==> files && ListsFile(es, n) && GoplsReads(n)))
    && forall j, k :: 0 <= j < k < |names| ==> names[j] != names[k]
  }

  lemma {:induction false} Unlisted(es: Entries, name: string)
    requires !Has(es, name)
    ensures Lookup(es, name).None? && !ListsFile(es, name)
  {
    if es.Entry? {
      Unlisted(es.rest, name);
    }
  }

  lemma SlashEnds(d: string, e: string)
    ensures EndsWith(d + "/", "/") && (d + "/" == e + "/" <==> d == e)
    ensures NoSlash(e) ==> !EndsWith(e, "/")
  {
    assert (d + "/")[|d|..] == "/";
    assert (d + "/")[..|d|] == d && (e + "/")[..|e|] == e;
    if EndsWith(e, "/") {
      assert e[|e| - 1] == e[|e| - 1..][0];
    }
  }

  lemma {:induction false} DirNames(f: seq<Rule>, p: Path, es: Entries, files: bool, d: string)
    requires Listed(es)
    ensures d + "/" in RelevantNames(f, p, es, files) <==>
      Lookup(es, d).Some? && (Include(f, p + [d]) || (!files && MayInclude(f, p + [d])))
  {
    if es.Entry? {
      DirNames(f, p, es.rest, files, d);
      Unlisted(es.rest, es.name);
      SlashEnds(d, es.name);
    }
  }

  lemma {:induction false} FileNames(f: seq<Rule>, p: Path, es: Entries, files: bool, n: string)
    requires Listed(es) && !EndsWith(n, "/")
    ensures n in RelevantNames(f, p, es, files) <==> files && ListsFile(es, n) && GoplsReads(n)
  {
    if es.Entry? {
      FileNames(f, p, es.rest, files, n);
      Unlisted(es.rest, es.name);
      SlashEnds(es.name, n);
      WatchedFileIs(es.name);
    }
  }

  /** Every name is an entry's, with or without the slash. */
  lemma {:induction false} NamesHave(f: seq<Rule>, p: Path, es: Entries, files: bool, n: string)
    requires n in RelevantNames(f, p, es, files)
    ensures exists name :: Has(es, name) && (n == name || n == name + "/")
  {
    var own := Relevant(f, p, es.name, es.node, files);
    if n in own {
      assert Has(es, es.name);
    } else {
      NamesHave(f, p, es.rest, files, n);
      var name :| Has(es.rest, name) && (n == name || n == name + "/");
      assert Has(es, name);
    }
  }

  lemma {:induction false} SegmentsHave(es: Entries, name: string)
    requires Listed(es) && Has(es, name)
    ensures NoSlash(name)
  {
    if es.name != name {
      SegmentsHave(es.rest, name);
    }
  }

  lemma {:induction false} NamesOnce(f: seq<Rule>, p: Path, es: Entries, files: bool)
    requires Listed(es)
    ensures forall j, k :: 0 <= j < k < |RelevantNames(f, p, es, files)| ==>
      RelevantNames(f, p, es, files)[j] != RelevantNames(f, p, es, files)[k]
  {
    if es.Entry? {
      NamesOnce(f, p, es.rest, files);
      var own, rest := Relevant(f, p, es.name, es.node, files), RelevantNames(f, p, es.rest, files);
      forall n | n in own ensures n !in rest {
        if n in rest {
          NamesHave(f, p, es.rest, files, n);
          var name :| Has(es.rest, name) && (n == name || n == name + "/");
          SegmentsHave(es.rest, name);
          SlashEnds(name, es.name);
          SlashEnds(es.name, name);
        }
      }
      assert |own| <= 1;
      forall j, k | 0 <= j < k < |own + rest| ensures (own + rest)[j] != (own + rest)[k] {
        if j < |own| {
          assert own[j] in own && rest[k - |own|] in rest;
        }
      }
    }
  }

  /** The names the planner gathers are those. */
  lemma NamesAre(f: seq<Rule>, p: Path, es: Entries, files: bool)
    requires Listed(es)
    ensures Names(f, p, es, files, RelevantNames(f, p, es, files))
  {
    forall d ensures d + "/" in RelevantNames(f, p, es, files) <==>
      Lookup(es, d).Some? && (Include(f, p + [d]) || (!files && MayInclude(f, p + [d])))
    {
      DirNames(f, p, es, files, d);
    }
    forall n | !EndsWith(n, "/")
      ensures n in RelevantNames(f, p, es, files) <==> files && ListsFile(es, n) && GoplsReads(n)
    {
      FileNames(f, p, es, files, n);
    }
    NamesOnce(f, p, es, files);
  }

  // ----- which directories are seen

  predicate ListsDir(es: Entries, name: string) {
    es.Entry? && ((es.name == name && es.node.Dir?) || ListsDir(es.rest, name))
  }

  /** The watcher never descends into a directory of such a name. */
  predicate Hidden(name: string) {
    (name != "" && (name[0] == '.' || name[0] == '_')) || name == "testdata"
  }

  /** A subdirectory is seen exactly when it is listed under a name that is not hidden. */
  lemma {:induction false} LookupMeans(es: Entries, name: string)
    ensures Lookup(es, name).Some? <==> ListsDir(es, name) && !Hidden(name)
  {
    if es.Entry? {
      LookupMeans(es.rest, name);
    }
  }
}

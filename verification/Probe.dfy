/** What a probe concludes about a record: the verdicts the registry acts on. */
module Probe {
  import opened Options
  import opened Records
  import Registry

  /** What was found out about a record's process and its port. A `ps` that fails,
      or whose context ends, gives no answer. */
  datatype Findings = Findings(
    cancelled: bool,
    noProcess: bool,
    inGrace: bool,
    serves: bool,
    refused: bool,
    command: Option<seq<string>>)

  // ----- identity

  function Digits(n: nat): string {
    if n < 10 then [('0' as int + n) as char] else Digits(n / 10) + [('0' as int + n % 10) as char]
  }

  /** `mcpAddress`. */
  function Address(port: nat): string {
    "127.0.0.1:" + Digits(port)
  }

  /** `filepath.Base` of a path that does not end in a slash. */
  function Base(path: string): string {
    if path == "" then ""
    else if path[|path| - 1] == '/' then ""
    else Base(path[..|path| - 1]) + [path[|path| - 1]]
  }

  /** `matchesGopls`: the last four fields of the command line. */
  predicate Matches(fields: seq<string>, port: nat) {
    |fields| >= 4
    && var args := fields[|fields| - 4..];
       Base(args[0]) == "gopls" && args[1] == "mcp" && args[2] == "-listen" && args[3] == Address(port)
  }

  lemma {:induction false} DigitsAreOnes(m: nat, n: nat)
    requires Digits(m) == Digits(n)
    ensures m == n
    decreases m
  {
    var s, t := Digits(m), Digits(n);
    assert s[|s| - 1] == t[|t| - 1];
    assert m % 10 == n % 10;
    if m >= 10 && n >= 10 {
      assert Digits(m / 10) == s[..|s| - 1] == t[..|t| - 1] == Digits(n / 10);
      DigitsAreOnes(m / 10, n / 10);
    } else {
      DigitsLength(m);
      DigitsLength(n);
    }
  }

  lemma {:induction false} DigitsLength(n: nat)
    ensures |Digits(n)| >= 1 && (n >= 10 ==> |Digits(n)| >= 2)
    decreases n
  {
    if n >= 10 {
      DigitsLength(n / 10);
    }
  }

  /** A command line is that of a server on one port at most: a port that begins
      with the digits of another is not taken for it. */
  lemma OnePort(fields: seq<string>, port: nat, other: nat)
    requires Matches(fields, port) && Matches(fields, other)
    ensures port == other
  {
    var a, b := Address(port), Address(other);
    assert a[|"127.0.0.1:"|..] == Digits(port) && b[|"127.0.0.1:"|..] == Digits(other);
    DigitsAreOnes(port, other);
  }

  // ----- verdicts

  predicate Ours(found: Findings, port: nat) {
    found.command.Some? && Matches(found.command.value, port)
  }

  function IdentityVerdict(found: Findings, port: nat): Verdict {
    if found.command.None? || found.cancelled then Uncertain
    else if !Matches(found.command.value, port) then Gone
    else Terminate
  }

  /** `recordAlive`. */
  function RecordAlive(found: Findings, terminating: bool, port: nat): Verdict {
    if found.cancelled then Uncertain
    else if found.noProcess then Gone
    else if terminating then IdentityVerdict(found, port)
    else if found.inGrace || found.serves then Live
    else if IdentityVerdict(found, port).Terminate? && !found.refused then Uncertain
    else IdentityVerdict(found, port)
  }

  /** A record is given up exactly when its process is gone or the pid is shown to
      be somebody else's, and it is not taken for a live or young server. */
  lemma GoneMeans(found: Findings, terminating: bool, port: nat)
    ensures RecordAlive(found, terminating, port).Gone? <==>
      && !found.cancelled
      && (found.noProcess ||
          (found.command.Some? && !Ours(found, port) && (terminating || (!found.inGrace && !found.serves))))
  {
  }

  /** A server is condemned exactly when it is ours and already leaving, or ours,
      past its grace, and its port refuses. */
  lemma TerminateMeans(found: Findings, terminating: bool, port: nat)
    ensures RecordAlive(found, terminating, port).Terminate? <==>
      && !found.cancelled && !found.noProcess && Ours(found, port)
      && (terminating || (!found.inGrace && !found.serves && found.refused))
  {
  }

  // ----- what the registry relies on

  /** What was found is so: a process that is alive is found, and its command line,
      if it could be read at all, is that of the server on its port. */
  predicate Truthful(found: Findings, alive: bool, port: nat) {
    alive ==> !found.noProcess && (found.command.Some? ==> Matches(found.command.value, port))
  }

  /** A probe that finds what is so gives a verdict the registry's steps allow: a
      live process is never given up. */
  lemma VerdictIsAllowed(s: Registry.Sys, a: Registry.Actor, r: Record, found: Findings)
    requires Registry.PhaseOf(s, a).Probing? && r in Registry.PhaseOf(s, a).snapshot && r.port >= 0
    requires Registry.PhaseOf(s, a).body.ClaimFor? ==> r.worktree == Registry.PhaseOf(s, a).body.worktree
    requires Truthful(found, r.process in s.live, r.port)
    ensures Registry.CanProbe(s, a, r, RecordAlive(found, r.terminating, r.port))
  {
    GoneMeans(found, r.terminating, r.port);
  }

  /** A server is taken for alive exactly when it is not leaving and is young or
      serves. */
  lemma LiveMeans(found: Findings, terminating: bool, port: nat)
    ensures RecordAlive(found, terminating, port).Live? <==>
      !found.cancelled && !found.noProcess && !terminating && (found.inGrace || found.serves)
  {
  }

  // ----- what a command line must say

  /** `name` stands after the last slash of the two together. */
  predicate AfterSlash(dir: string, name: string) {
    '/' !in name && (dir == "" || dir[|dir| - 1] == '/')
  }

  lemma {:induction false} BaseIs(path: string) returns (dir: string)
    ensures path == dir + Base(path) && AfterSlash(dir, Base(path))
    decreases |path|
  {
    if path == "" || path[|path| - 1] == '/' {
      dir := path;
    } else {
      dir := BaseIs(path[..|path| - 1]);
    }
  }

  /** There is one last slash. */
  lemma OneBase(dir: string, name: string, other: string, base: string)
    requires dir + name == other + base && AfterSlash(dir, name) && AfterSlash(other, base)
    ensures name == base
  {
    var path := dir + name;
    assert forall k :: 0 <= k < |name| ==> path[|dir| + k] == name[k];
    assert forall k :: 0 <= k < |base| ==> path[|other| + k] == base[k];
    assert dir != "" ==> path[|dir| - 1] == '/';
    assert other != "" ==> path[|other| - 1] == '/';
    assert name == path[|dir|..] && base == path[|other|..];
  }

  /** The executable is gopls, in whatever directory. */
  ghost predicate IsGopls(path: string) {
    exists dir :: path == dir + "gopls" && (dir == "" || dir[|dir| - 1] == '/')
  }

  lemma BaseMeans(path: string)
    ensures Base(path) == "gopls" <==> IsGopls(path)
  {
    var own := BaseIs(path);
    if dir :| path == dir + "gopls" && (dir == "" || dir[|dir| - 1] == '/') {
      OneBase(own, Base(path), dir, "gopls");
    }
  }

  /** A server's command line ends with the path of gopls and the three arguments it
      is started with, the last its own address. */
  lemma MatchesMeans(fields: seq<string>, port: nat)
    ensures Matches(fields, port) <==>
      && |fields| >= 4 && IsGopls(fields[|fields| - 4])
      && fields[|fields| - 3..] == ["mcp", "-listen", "127.0.0.1:" + Digits(port)]
  {
    if |fields| >= 4 {
      var args, tail := fields[|fields| - 4..], fields[|fields| - 3..];
      BaseMeans(args[0]);
      assert args == [args[0], args[1], args[2], args[3]] && tail == [args[1], args[2], args[3]];
    }
  }

  /** The number a string of digits stands for. */
  function Number(s: string): int {
    if s == "" then 0 else 10 * Number(s[..|s| - 1]) + (s[|s| - 1] as int - '0' as int)
  }

  lemma {:induction false} DigitsMean(n: nat)
    ensures Number(Digits(n)) == n
    ensures forall k :: 0 <= k < |Digits(n)| ==> '0' <= Digits(n)[k] <= '9'
    ensures n > 0 ==> Digits(n)[0] != '0'
    decreases n
  {
    var s := Digits(n);
    if n < 10 {
      assert s[..0] == "" && Number("") == 0;
    } else {
      DigitsMean(n / 10);
      assert s[..|s| - 1] == Digits(n / 10);
    }
  }
}

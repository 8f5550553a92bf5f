/** What the launcher and the hooks accept, told on the strings themselves. */
module LaunchRules {
  import opened Decimal
  import opened EnvList
  import opened HostCoverage
  import opened Paths
  import opened Sanitize
  import opened Spool
  import opened Text
  import opened Wrappers

  // ---- Loader variables ------------------------------------------------------------------

  predicate LoaderText(kv: string) {
    HasPrefix(kv, "LD_") || HasPrefix(kv, "GLIBC_TUNABLES=") || kv == "GLIBC_TUNABLES"
  }

  lemma LoaderIs(kv: string)
    ensures IsLoader(kv) <==> LoaderText(kv)
  {
    var i := IndexOf(kv, '=');
    var key := kv[..i];
    assert "LD_"[0] == 'L' && '=' !in "LD_" && |"LD_"| == 3 && |"GLIBC_TUNABLES"| == 14 && '=' !in "GLIBC_TUNABLES";
    if i < |kv| {
      assert kv == key + "=" + kv[i + 1..];
      PrefixBefore(key, kv, "LD_");
      assert "GLIBC_TUNABLES=" == "GLIBC_TUNABLES" + "=";
      if HasPrefix(kv, "GLIBC_TUNABLES=") {
        EqualsAt("GLIBC_TUNABLES", kv);
      }
    } else {
      assert key == kv && "GLIBC_TUNABLES="[14] == '=';
    }
  }

  /** A prefix without an equals sign lies before the first one. */
  lemma PrefixBefore(key: string, kv: string, prefix: string)
    requires '=' !in prefix && |key| < |kv| && key == kv[..|key|] && kv[|key|] == '='
    ensures HasPrefix(key, prefix) <==> HasPrefix(kv, prefix)
  {
    if |prefix| <= |key| {
      assert kv[..|prefix|] == key[..|prefix|];
    } else {
      assert prefix[|key|] in prefix;
    }
  }

  lemma EqualsAt(name: string, kv: string)
    requires '=' !in name && name + "=" <= kv
    ensures IndexOf(kv, '=') == |name|
  {
    assert kv == name + ['='] + kv[|name| + 1..];
    IndexOfAppend(name, '=', kv[|name| + 1..]);
  }

  /** The launcher refuses a job because of a loader variable exactly if some string of its environment
      begins with "LD_", or sets or names GLIBC_TUNABLES. */
  lemma LoaderRefused(environ: seq<string>, s: LaunchSettings, fs: FsView, home: string)
    ensures LaunchEnvOf(environ, s, fs, home) == Err(LoaderVariable)
            <==> exists i :: 0 <= i < |environ| && LoaderText(environ[i])
  {
    forall i | 0 <= i < |environ|
      ensures IsLoader(environ[i]) <==> LoaderText(environ[i])
    {
      LoaderIs(environ[i]);
    }
  }

  // ---- The last binding of a name ----

  /** The name is bound to the value by a string behind which no other binds it. */
  predicate BoundLast(environ: seq<string>, key: string, value: string, i: nat) {
    i < |environ| && environ[i] == key + "=" + value
    && forall k :: i < k < |environ| ==> !HasPrefix(environ[k], key + "=")
  }

  lemma BindsIs(kv: string, key: string)
    requires '=' !in key
    ensures var (k, value, ok) := Cut(kv, '=');
            && (ok && k == key <==> HasPrefix(kv, key + "="))
            && (ok && k == key ==> kv == key + "=" + value)
  {
    var (k, value, ok) := Cut(kv, '=');
    if ok {
      assert kv == k + "=" + value;
    }
    if HasPrefix(kv, key + "=") {
      EqualsAt(key, kv);
    }
  }

  /** The value of a variable is that of its last binding, and "" without one. */
  lemma {:induction false} LastIs(environ: seq<string>, key: string) returns (i: nat)
    requires '=' !in key
    ensures if i < |environ| then BoundLast(environ, key, Last(environ, key), i)
            else Last(environ, key) == "" && forall k :: 0 <= k < |environ| ==> !HasPrefix(environ[k], key + "=")
  {
    if environ == [] {
      i := 0;
    } else {
      var n := |environ| - 1;
      BindsIs(environ[n], key);
      if HasPrefix(environ[n], key + "=") {
        i := n;
      } else {
        i := LastIs(environ[..n], key);
        assert forall k :: 0 <= k < n ==> environ[..n][k] == environ[k];
        if i >= n {
          i := n + 1;
        }
      }
    }
  }

  // ---- Spool directories ----

  /** What the scheduler calls the directory of a job's task. */
  function TaskText(task: string): string {
    if task == "" || task == "undefined" then "1" else task
  }

  function NamesBelow(names: seq<string>): string {
    if names == [] then "" else "/" + names[0] + NamesBelow(names[1..])
  }

  lemma {:induction false} NamesBelowIs(names: seq<string>)
    ensures NamesBelow(names) == if names == [] then "" else Rooted(names)
  {
    if names != [] {
      NamesBelowIs(names[1..]);
      if |names| > 1 {
        assert "/" + names[0] + ("/" + Join(names[1..], "/")) == "/" + (names[0] + "/" + Join(names[1..], "/"));
      } else {
        assert names[1..] == [] && "/" + names[0] + "" == "/" + names[0];
      }
    }
  }

  lemma {:induction false} NamesBelowAppend(a: seq<string>, b: seq<string>)
    ensures NamesBelow(a + b) == NamesBelow(a) + NamesBelow(b)
  {
    if a == [] {
      assert a + b == b;
    } else {
      assert (a + b)[1..] == a[1..] + b;
      NamesBelowAppend(a[1..], b);
      Assoc("/" + a[0], NamesBelow(a[1..]), NamesBelow(b));
    }
  }

  lemma RootedSplit(names: seq<string>)
    requires AllProper(names) && names != []
    ensures Split(Rooted(names), '/') == [""] + names
  {
    SplitRooted(names);
  }

  lemma DropFirst(a: seq<string>, b: seq<string>, c: seq<string>)
    requires [""] + a == ([""] + b) + c
    ensures a == b + c
  {
    assert a == ([""] + a)[1..];
  }

  /** A clean path below a clean directory has the directory's names first. */
  lemma NamesExtend(a: seq<string>, b: seq<string>) returns (rest: seq<string>)
    requires AllProper(a) && AllProper(b) && a != [] && b != [] && HasPrefix(Rooted(a), Rooted(b) + "/")
    ensures rest != [] && AllProper(rest) && a == b + rest
  {
    var tail := Rooted(a)[|Rooted(b)| + 1..];
    assert Rooted(a) == Rooted(b) + ['/'] + tail;
    SplitAppend(Rooted(b), '/', tail);
    RootedSplit(a);
    RootedSplit(b);
    rest := Split(tail, '/');
    DropFirst(a, b, rest);
    assert forall i :: 0 <= i < |rest| ==> rest[i] == a[|b| + i];
  }

  lemma NamesJoin(b: seq<string>, rest: seq<string>)
    requires b != []
    ensures Rooted(b + rest) == Rooted(b) + NamesBelow(rest)
  {
    NamesBelowAppend(b, rest);
    NamesBelowIs(b + rest);
    NamesBelowIs(b);
  }

  /** The last two names of a clean path. */
  lemma LastTwo(names: seq<string>, dir: string, name: string)
    requires AllProper(names) && names != [] && '/' !in dir && '/' !in name && HasSuffix(Rooted(names), "/" + dir + "/" + name)
    ensures |names| >= 2 && names[|names| - 2..] == [dir, name]
  {
    var p := Rooted(names);
    var front := p[..|p| - |"/" + dir + "/" + name|];
    assert p == front + ['/'] + dir + ['/'] + name;
    SplitAppend(front + ['/'] + dir, '/', name);
    SplitAppend(front, '/', dir);
    SplitNone(dir, '/');
    SplitNone(name, '/');
    RootedSplit(names);
    var all := Split(front, '/') + [dir] + [name];
    assert [""] + names == all;
    assert names == all[1..];
  }

  /** A directory that leads nowhere else than its name says: it and the root exist, and no link is between them. */
  predicate Linkless(root: string, spool: string, fs: FsView) {
    && |root| <= |spool| && root in fs.resolved && spool in fs.resolved
    && fs.resolved[spool] == fs.resolved[root] + spool[|root|..] && spool in fs.dirs
  }

  /** The path lies below the root, in clean form. */
  ghost predicate LiesBelow(root: string, spool: string) {
    exists rest: seq<string> :: rest != [] && AllProper(rest) && spool == root + NamesBelow(rest)
  }

  lemma RootNames(root: string)
    requires CleanDir(root)
    ensures AllProper(Names(root)) && root == Rooted(Names(root)) && (root == "/" <==> Names(root) == [])
  {
    CleanAbs(root);
    BaseOfRoot();
    if Names(root) != [] {
      assert Proper(Names(root)[0]);
    }
  }

  lemma ActiveText(job: string, task: string)
    ensures "/active_jobs/" + job + "." + TaskText(task) == "/" + ACTIVE_JOBS + "/" + JobTask(job, task)
  {
  }

  lemma SpoolEnds(host: seq<string>, last: string)
    requires AllProper(host) && Proper(last)
    ensures HasSuffix(SpoolOf(host, last), "/" + ACTIVE_JOBS + "/" + last)
  {
    TwoBelow(host, ACTIVE_JOBS, last);
    var h := if host == [] then "" else Rooted(host);
    Ends(h, "/" + ACTIVE_JOBS + "/" + last);
    assert h + "/" + ACTIVE_JOBS + "/" + last == h + ("/" + ACTIVE_JOBS + "/" + last);
  }

  lemma Ends(a: string, b: string)
    ensures HasSuffix(a + b, b)
  {
  }

  lemma AcceptedBelow(spool: string, root: string, job: string, task: string, fs: FsView)
    requires CleanDir(root) && IsJob(job, task) && CheckSpoolDir(spool, root, job, task, fs)
    ensures root != "/" && LiesBelow(root, spool) && HasSuffix(spool, "/active_jobs/" + job + "." + TaskText(task))
  {
    var host := AcceptedShape(spool, root, job, task, fs);
    JobTaskProper(job, task);
    HostProper(host, JobTask(job, task));
    SpoolEnds(host, JobTask(job, task));
    ActiveText(job, task);
    RootNames(root);
    SlashAcceptsNothing(spool, job, task, fs);
    var rest := NamesExtend(host + [ACTIVE_JOBS] + [JobTask(job, task)], Names(root));
    NamesJoin(Names(root), rest);
  }

  lemma HostFacts(host: seq<string>, last: string)
    requires AllProper(host) && Proper(last)
    ensures var spool := SpoolOf(host, last);
            IsAbs(spool) && Clean(spool) == spool && Base(spool) == last && Base(Dir(spool)) == ACTIVE_JOBS
  {
    HostProper(host, last);
    DirBase(host + [ACTIVE_JOBS], last);
    DirBase(host, ACTIVE_JOBS);
    CleanRooted(host + [ACTIVE_JOBS] + [last]);
  }

  lemma StartsBelow(root: string, rest: seq<string>)
    requires rest != []
    ensures HasPrefix(root + NamesBelow(rest), root + "/")
  {
    assert NamesBelow(rest)[0] == '/';
  }

  lemma BelowAccepted(spool: string, root: string, job: string, task: string, fs: FsView, rest: seq<string>)
    requires CleanDir(root) && root != "/" && IsJob(job, task) && Linkless(root, spool, fs) && !Contains(spool, "..")
    requires rest != [] && AllProper(rest) && spool == root + NamesBelow(rest)
    requires HasSuffix(spool, "/active_jobs/" + job + "." + TaskText(task))
    ensures CheckSpoolDir(spool, root, job, task, fs)
  {
    RootNames(root);
    StartsBelow(root, rest);
    var names := Names(root) + rest;
    BelowRooted(spool, root, rest, names);
    JobTaskProper(job, task);
    var host := SpoolNames(spool, names, job, task);
    HostFacts(host, JobTask(job, task));
  }

  lemma BelowRooted(spool: string, root: string, rest: seq<string>, names: seq<string>)
    requires CleanDir(root) && root != "/" && AllProper(rest) && spool == root + NamesBelow(rest) && names == Names(root) + rest
    ensures AllProper(names) && names != [] && spool == Rooted(names)
  {
    RootNames(root);
    NamesJoin(Names(root), rest);
  }

  lemma SpoolNames(spool: string, names: seq<string>, job: string, task: string) returns (host: seq<string>)
    requires AllProper(names) && names != [] && IsJob(job, task) && spool == Rooted(names)
    requires HasSuffix(spool, "/active_jobs/" + job + "." + TaskText(task))
    ensures AllProper(host) && spool == SpoolOf(host, JobTask(job, task))
  {
    JobTaskProper(job, task);
    ActiveText(job, task);
    LastTwo(names, ACTIVE_JOBS, JobTask(job, task));
    host := names[..|names| - 2];
    assert names == host + [ACTIVE_JOBS] + [JobTask(job, task)];
  }

  /** The launcher accepts a spool directory below a root exactly if it is written in clean form below it, ends in
      "/active_jobs/<job>.<task>", has no two dots in a row, and is an existing directory that no link leads away. */
  lemma SpoolAccepted(spool: string, root: string, job: string, task: string, fs: FsView)
    requires CleanDir(root) && IsJob(job, task)
    ensures CheckSpoolDir(spool, root, job, task, fs)
            <==> root != "/" && LiesBelow(root, spool) && HasSuffix(spool, "/active_jobs/" + job + "." + TaskText(task))
                 && !Contains(spool, "..") && Linkless(root, spool, fs)
  {
    if CheckSpoolDir(spool, root, job, task, fs) {
      AcceptedBelow(spool, root, job, task, fs);
    } else if LiesBelow(root, spool) && root != "/" && HasSuffix(spool, "/active_jobs/" + job + "." + TaskText(task))
              && !Contains(spool, "..") && Linkless(root, spool, fs) {
      var rest: seq<string> :| rest != [] && AllProper(rest) && spool == root + NamesBelow(rest);
      BelowAccepted(spool, root, job, task, fs, rest);
    }
  }

  // ---- Patterns ----

  predicate Digits(s: string) {
    s != "" && forall c <- s :: '0' <= c <= '9'
  }

  predicate WordLetter(c: char) {
    'A' <= c <= 'Z' || 'a' <= c <= 'z' || '0' <= c <= '9' || c in "._-"
  }

  /** What a trusted variable may hold. */
  predicate Fits(name: string, value: string) {
    if name in ["JOB_ID", "SGE_QMASTER_PORT", "SGE_EXECD_PORT"] then Digits(value)
    else if name == "SGE_TASK_ID" then Digits(value) || value == "undefined"
    else if name == "SGE_CELL" then value != "" && forall c <- value :: WordLetter(c)
    else if name == "TZ" then 1 <= |value| <= 64 && forall c <- value :: WordLetter(c) || c in "/+:"
    else |value| >= 2 && value[0] == '/' && forall c <- value :: WordLetter(c) || c == '/'
  }

  const TRUSTED_NAMES := ["JOB_ID", "SGE_TASK_ID", "SGE_JOB_SPOOL_DIR", "SGE_ROOT", "SGE_CELL", "SGE_QMASTER_PORT", "SGE_EXECD_PORT", "TZ"]

  lemma EachChar(p: char -> bool, s: string)
    ensures All(p, s) <==> forall c <- s :: p(c)
  {
    if All(p, s) {
      forall c <- s
        ensures p(c)
      {
        var i :| 0 <= i < |s| && s[i] == c;
      }
    }
  }

  lemma DigitsAre(s: string)
    ensures IsDigits(s) <==> Digits(s)
    ensures IsTaskId(s) <==> Digits(s) || s == "undefined"
  {
    EachChar(IsDigit, s);
  }

  lemma WordsAre(s: string)
    ensures IsCell(s) <==> s != "" && forall c <- s :: WordLetter(c)
    ensures IsPath(s) <==> |s| >= 2 && s[0] == '/' && forall c <- s :: WordLetter(c) || c == '/'
    ensures IsZone(s) <==> 1 <= |s| <= 64 && forall c <- s :: WordLetter(c) || c in "/+:"
  {
    EachChar(IsWord, s);
    EachChar(IsPathChar, s);
    EachChar(IsZoneChar, s);
  }

  lemma MatchesIs(key: string, value: string)
    requires key in TRUSTED_NAMES
    ensures IsTrusted(key) && (Matches(key, value) <==> Fits(key, value))
  {
    DigitsAre(value);
    WordsAre(value);
    MatchesKeys(value);
    assert JOB_ID == "JOB_ID" && TASK_ID == "SGE_TASK_ID" && SPOOL_DIR == "SGE_JOB_SPOOL_DIR" && ROOT == "SGE_ROOT";
    assert CELL == "SGE_CELL" && QMASTER_PORT == "SGE_QMASTER_PORT" && EXECD_PORT == "SGE_EXECD_PORT" && TZ == "TZ";
    NamesDiffer(key);
  }

  lemma NamesDiffer(key: string)
    requires key in TRUSTED_NAMES
    ensures |key| in [6, 11, 17, 8, 16, 14, 2] && (|key| == 8 ==> key[4] == (if key == "SGE_ROOT" then 'R' else 'C'))
  {
  }

  // ---- The launcher's answer ----

  /** A clean absolute directory. */
  ghost predicate DirText(dir: string) {
    dir == "/" || exists names: seq<string> :: names != [] && AllProper(names) && dir == NamesBelow(names)
  }

  lemma DirIs(dir: string)
    ensures CleanDir(dir) <==> DirText(dir)
  {
    if CleanDir(dir) {
      RootNames(dir);
      NamesBelowIs(Names(dir));
    } else if dir == "/" {
      BaseOfRoot();
      CleanRooted([]);
    } else if DirText(dir) {
      var names: seq<string> :| names != [] && AllProper(names) && dir == NamesBelow(names);
      NamesBelowIs(names);
      CleanRooted(names);
    }
  }

  ghost predicate SettingsText(s: LaunchSettings) {
    && Fits("SGE_CELL", s.sgeCell) && DirText(s.sgeRoot) && (forall dir <- s.spoolRoots :: DirText(dir))
    && (s.qmasterPort == "" || Digits(s.qmasterPort)) && (s.execdPort == "" || Digits(s.execdPort))
  }

  lemma SettingsAre(s: LaunchSettings)
    ensures ValidSettings(s) <==> SettingsText(s)
  {
    WordsAre(s.sgeCell);
    DigitsAre(s.qmasterPort);
    DigitsAre(s.execdPort);
    forall dir <- [s.sgeRoot] + s.spoolRoots
      ensures CleanDir(dir) <==> DirText(dir)
    {
      DirIs(dir);
    }
    assert s.sgeRoot in [s.sgeRoot] + s.spoolRoots && s.qmasterPort in [s.qmasterPort, s.execdPort];
    assert s.execdPort in [s.qmasterPort, s.execdPort];
    DirIs(s.sgeRoot);
  }

  /** The spool directory of the job, below this root. */
  ghost predicate Below(spool: string, root: string, job: string, task: string, fs: FsView) {
    && root != "/" && LiesBelow(root, spool) && HasSuffix(spool, "/active_jobs/" + job + "." + TaskText(task))
    && !Contains(spool, "..") && Linkless(root, spool, fs)
  }

  function SearchedRoots(s: LaunchSettings): seq<string> {
    if s.spoolRoots == [] then [s.sgeRoot] else s.spoolRoots
  }

  lemma RootsSearched(s: LaunchSettings, spool: string, job: string, task: string, fs: FsView)
    requires SettingsText(s) && IsJob(job, task)
    ensures SomeRoot(Roots(s), spool, job, task, fs) <==> exists root <- SearchedRoots(s) :: Below(spool, root, job, task, fs)
  {
    forall root <- SearchedRoots(s)
      ensures CheckSpoolDir(spool, root, job, task, fs) <==> Below(spool, root, job, task, fs)
    {
      DirIs(root);
      SpoolAccepted(spool, root, job, task, fs);
    }
    forall i | 0 <= i < |Roots(s)|
      ensures CheckSpoolDir(spool, Roots(s)[i], job, task, fs) ==> Below(spool, Roots(s)[i], job, task, fs)
    {
    }
  }

  /** The variables a hook is started with. */
  function Variables(job: string, task: string, spool: string, tz: string, s: LaunchSettings, home: string): map<string, string> {
    map["JOB_ID" := job, "SGE_JOB_SPOOL_DIR" := spool, "SGE_ROOT" := s.sgeRoot, "SGE_CELL" := s.sgeCell]
    + (if task == "" then map[] else map["SGE_TASK_ID" := task])
    + (if s.qmasterPort == "" then map[] else map["SGE_QMASTER_PORT" := s.qmasterPort])
    + (if s.execdPort == "" then map[] else map["SGE_EXECD_PORT" := s.execdPort])
    + (if Fits("TZ", tz) && !Contains(tz, "..") then map["TZ" := tz] else map[])
    + map["PATH" := "/usr/sbin:/usr/bin:/sbin:/bin", "HOME" := home, "LANG" := "C", "LC_ALL" := "C"]
  }

  lemma VariablesAre(job: string, task: string, spool: string, tz: string, s: LaunchSettings, home: string)
    ensures Values(Output(job, task, spool, tz, s, home)) == Variables(job, task, spool, tz, s, home)
  {
    OutputValues(job, task, spool, tz, s, home);
    ZoneIs(tz);
    FrontIs(job, spool, s);
    assert FixedMap(home) == map["PATH" := "/usr/sbin:/usr/bin:/sbin:/bin", "HOME" := home, "LANG" := "C", "LC_ALL" := "C"];
  }

  lemma ZoneIs(tz: string)
    ensures OptionalMap(TZ, Zone(tz)) == if Fits("TZ", tz) && !Contains(tz, "..") then map["TZ" := tz] else map[]
  {
    WordsAre(tz);
    assert Fits("TZ", tz) <==> IsZone(tz);
  }

  lemma FrontIs(job: string, spool: string, s: LaunchSettings)
    ensures BaseMap(job, spool, s) == map["JOB_ID" := job, "SGE_JOB_SPOOL_DIR" := spool, "SGE_ROOT" := s.sgeRoot, "SGE_CELL" := s.sgeCell]
  {
  }

  /** The launcher's answer on the strings of its environment: the first of its checks that fails, or the
      variables for the hook and no others. */
  lemma LaunchAnswers(environ: seq<string>, s: LaunchSettings, fs: FsView, home: string)
    ensures var r := LaunchEnvOf(environ, s, fs, home);
            var job, task, spool, tz := Last(environ, "JOB_ID"), Last(environ, "SGE_TASK_ID"), Last(environ, "SGE_JOB_SPOOL_DIR"), Last(environ, "TZ");
            if exists i :: 0 <= i < |environ| && LoaderText(environ[i]) then r == Err(LoaderVariable)
            else if !SettingsText(s) then r == Err(BadSettings)
            else if !Digits(job) then r == Err(BadJobId)
            else if task != "" && !Digits(task) && task != "undefined" then r == Err(BadTaskId)
            else if !exists root <- SearchedRoots(s) :: Below(spool, root, job, task, fs) then r == Err(BadSpoolDir)
            else r.Ok? && Values(r.value) == Variables(job, task, spool, tz, s, home)
    ensures var r := LaunchEnvOf(environ, s, fs, home); r.Err? ==> r.error.ExitCode() == if r.error == BadSettings then 1 else 100
  {
    var job, task, spool, tz := Last(environ, "JOB_ID"), Last(environ, "SGE_TASK_ID"), Last(environ, "SGE_JOB_SPOOL_DIR"), Last(environ, "TZ");
    LoaderRefused(environ, s, fs, home);
    LoadersAre(environ);
    SettingsAre(s);
    DigitsAre(job);
    DigitsAre(task);
    if SettingsText(s) && IsJob(job, task) {
      RootsSearched(s, spool, job, task, fs);
    }
    VariablesAre(job, task, spool, tz, s, home);
  }

  lemma LoadersAre(environ: seq<string>)
    ensures HasLoader(environ) <==> exists i :: 0 <= i < |environ| && LoaderText(environ[i])
  {
    forall i | 0 <= i < |environ|
      ensures IsLoader(environ[i]) <==> LoaderText(environ[i])
    {
      LoaderIs(environ[i]);
    }
  }

  // ---- The hook's own check ----

  /** A trusted variable that does not hold what it may, or holds two dots in a row. */
  predicate Misfit(kv: string, name: string) {
    HasPrefix(kv, name + "=") && (!Fits(name, kv[|name| + 1..]) || Contains(kv[|name| + 1..], ".."))
  }

  lemma TrustedAre(key: string)
    ensures IsTrusted(key) <==> key in TRUSTED_NAMES
  {
  }

  lemma RefusedIs(kv: string)
    ensures Refused(kv) <==> exists name <- TRUSTED_NAMES :: Misfit(kv, name)
  {
    var (key, value, ok) := Cut(kv, '=');
    TrustedAre(key);
    forall name <- TRUSTED_NAMES
      ensures Misfit(kv, name) <==> ok && key == name && (!Matches(name, value) || Dotted(value))
    {
      PlainNames(name);
      BindsIs(kv, name);
      MatchesIs(name, kv[if |name| < |kv| then |name| + 1 else |kv|..]);
    }
  }

  lemma PlainNames(name: string)
    requires name in TRUSTED_NAMES
    ensures '=' !in name
  {
  }

  /** A hook refuses its environment exactly if one of the eight variables is set to something it may not hold, and
      otherwise goes on with what these eight are last set to. */
  lemma HookAnswers(environ: seq<string>)
    ensures CleanValues(environ) == None
            <==> exists i, name :: 0 <= i < |environ| && name in TRUSTED_NAMES && Misfit(environ[i], name)
    ensures var r := CleanValues(environ);
            r != None ==> forall key :: (key in r.value <==> key in Values(environ) && key in TRUSTED_NAMES)
                                        && (key in r.value ==> r.value[key] == Last(environ, key))
  {
    forall i | 0 <= i < |environ|
      ensures Refused(environ[i]) <==> exists name <- TRUSTED_NAMES :: Misfit(environ[i], name)
    {
      RefusedIs(environ[i]);
    }
    forall key
      ensures IsTrusted(key) <==> key in TRUSTED_NAMES
      ensures Get(Values(environ), key) == Last(environ, key)
    {
      TrustedAre(key);
      GetIsLast(environ, key);
    }
  }
}

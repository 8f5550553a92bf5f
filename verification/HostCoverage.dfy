/** The spool roots that setup hands to the launcher cover every host. */
module HostCoverage {
  import opened EnvList
  import opened HookCommand
  import opened Paths
  import opened Qmaster
  import opened Sanitize
  import opened Spool
  import opened Text
  import opened Wrappers

  predicate NoDuplicates(roots: seq<string>) {
    forall i, j :: 0 <= i < j < |roots| ==> roots[i] != roots[j]
  }

  /** A directory the roots must contain, in clean form. */
  predicate Configured(dirs: seq<string>, root: string) {
    exists dir <- dirs :: IsAbs(TrimSpace(dir)) && Clean(TrimSpace(dir)) == root
  }

  lemma {:induction false} AddDirsShape(roots: seq<string>, dirs: seq<string>)
    requires NoDuplicates(roots) && forall root <- roots :: CleanDir(root)
    ensures var all := AddDirs(roots, dirs);
            && NoDuplicates(all) && (forall root <- all :: CleanDir(root))
            && (forall root :: root in all <==> root in roots || Configured(dirs, root))
    decreases |dirs|
  {
    if dirs != [] {
      var d := TrimSpace(dirs[0]);
      var next := AddDir(roots, dirs[0]);
      if IsAbs(d) {
        CleanAbs(d);
      }
      AddDirsShape(next, dirs[1..]);
      forall root
        ensures root in AddDirs(next, dirs[1..]) <==> root in roots || Configured(dirs, root)
      {
        ConfiguredStep(dirs, root);
      }
    }
  }

  lemma ConfiguredStep(dirs: seq<string>, root: string)
    requires dirs != []
    ensures Configured(dirs, root)
            <==> (IsAbs(TrimSpace(dirs[0])) && Clean(TrimSpace(dirs[0])) == root) || Configured(dirs[1..], root)
  {
    assert forall dir <- dirs :: dir == dirs[0] || dir in dirs[1..];
  }

  /** A directory the scheduler names: its own, if that was read, or one of a listed host. */
  predicate Named(s: State, readGlobal: bool, dir: string) {
    (readGlobal && dir == s.global.spoolDir) || exists host <- s.listed :: host in s.configs && s.configs[host].spoolDir == Some(dir)
  }

  lemma {:induction false} LocalDirsAre(s: State, listed: seq<string>)
    ensures forall dir :: dir in LocalDirs(s, listed) <==> exists host <- listed :: host in s.configs && s.configs[host].spoolDir == Some(dir)
  {
    if listed != [] {
      LocalDirsAre(s, listed[1..]);
      forall dir
        ensures dir in LocalDirs(s, listed) <==> exists host <- listed :: host in s.configs && s.configs[host].spoolDir == Some(dir)
      {
        assert forall host <- listed :: host == listed[0] || host in listed[1..];
      }
    }
  }

  lemma ConfiguredAre(s: State, readGlobal: bool)
    ensures forall dir :: dir in ConfiguredDirs(s, readGlobal) <==> Named(s, readGlobal, dir)
  {
    LocalDirsAre(s, s.listed);
  }

  /** The roots are exactly the cleaned absolute directories of the configuration, each once. */
  lemma RootsAreConfigured(s: State, readGlobal: bool)
    requires SpoolRoots(s, readGlobal) != None
    ensures var roots := SpoolRoots(s, readGlobal).value;
            && NoDuplicates(roots) && (forall root <- roots :: CleanDir(root))
            && (forall root :: root in roots
                               <==> exists dir :: Named(s, readGlobal, dir) && IsAbs(TrimSpace(dir)) && Clean(TrimSpace(dir)) == root)
  {
    AddDirsShape([], ConfiguredDirs(s, readGlobal));
    ConfiguredAre(s, readGlobal);
  }

  /** Where a host's execution daemon keeps its job directories. */
  function EffectiveDir(s: State, host: string): string {
    if host in s.configs && s.configs[host].spoolDir != None then s.configs[host].spoolDir.value else s.global.spoolDir
  }

  lemma HostRootIncluded(s: State, host: string)
    requires SpoolRoots(s, true) != None && (host in s.configs ==> host in s.listed)
    requires IsAbs(TrimSpace(EffectiveDir(s, host)))
    ensures Clean(TrimSpace(EffectiveDir(s, host))) in SpoolRoots(s, true).value
  {
    RootsAreConfigured(s, true);
    assert Named(s, true, EffectiveDir(s, host));
  }

  // ---- Spool directories below a root -----------------------------------------------------------

  /** The job's spool directory below a root. */
  function SpoolBelow(root: string, mid: seq<string>, job: string, task: string): string {
    SpoolOf(Names(root) + mid, JobTask(job, task))
  }

  /** An existing directory, with no symbolic link between root and it. */
  predicate LinkFree(root: string, spool: string, fs: FsView) {
    && root in fs.resolved && spool in fs.resolved && |root| <= |spool|
    && fs.resolved[spool] == fs.resolved[root] + spool[|root|..] && spool in fs.dirs
  }

  lemma PrefixOfRooted(names: seq<string>, rest: seq<string>)
    requires names != [] && rest != []
    ensures HasPrefix(Rooted(names + rest), Rooted(names) + "/")
  {
    JoinAppend(names, rest, "/");
    assert Rooted(names + rest) == Rooted(names) + "/" + Join(rest, "/");
  }

  lemma BelowRoot(names: seq<string>, mid: seq<string>, n: string)
    requires AllProper(names) && AllProper(mid) && Proper(n) && names != []
    ensures var spool := SpoolOf(names + mid, n);
            && IsAbs(spool) && Clean(spool) == spool && Base(spool) == n && Base(Dir(spool)) == ACTIVE_JOBS
            && HasPrefix(spool, Rooted(names) + "/")
  {
    HostProper(names + mid, n);
    var front := names + mid + [ACTIVE_JOBS];
    DirBase(front, n);
    DirBase(names + mid, ACTIVE_JOBS);
    CleanRooted(front + [n]);
    assert front + [n] == names + (mid + [ACTIVE_JOBS] + [n]);
    PrefixOfRooted(names, mid + [ACTIVE_JOBS] + [n]);
  }

  /** A root other than "/" accepts every such directory that has no two dots in a row. */
  lemma RootAccepts(root: string, mid: seq<string>, job: string, task: string, fs: FsView)
    requires CleanDir(root) && root != "/" && AllProper(mid) && IsJob(job, task)
    requires LinkFree(root, SpoolBelow(root, mid, job, task), fs)
    ensures CheckSpoolDir(SpoolBelow(root, mid, job, task), root, job, task, fs)
            <==> !Contains(SpoolBelow(root, mid, job, task), "..")
  {
    CleanAbs(root);
    JobTaskProper(job, task);
    BaseOfRoot();
    BelowRoot(Names(root), mid, JobTask(job, task));
  }

  lemma SecondChar(p: string)
    requires CleanDir(p) && |p| >= 2
    ensures p[1] != '/'
  {
    CleanAbs(p);
    var names := Names(p);
    assert names != [] && Proper(names[0]);
    assert p[1] == Join(names, "/")[0] == names[0][0];
    assert names[0][0] in names[0];
  }

  lemma DoubleSlash(p: string)
    requires HasPrefix(p, "/" + "/")
    ensures |p| >= 2 && p[1] == '/'
  {
    assert p[1] == ("/" + "/")[1];
  }

  /** The root directory itself accepts nothing. */
  lemma SlashAcceptsNothing(spool: string, job: string, task: string, fs: FsView)
    ensures !CheckSpoolDir(spool, "/", job, task, fs)
  {
    if CheckSpoolDir(spool, "/", job, task, fs) {
      DoubleSlash(spool);
      SecondChar(spool);
    }
  }

  /** Every host whose directory is absolute and not "/" is covered: the launcher's loop over the
      roots accepts each of its link-free job directories. */
  lemma EveryHostCovered(s: State, host: string, mid: seq<string>, job: string, task: string, fs: FsView)
    requires SpoolRoots(s, true) != None && (host in s.configs ==> host in s.listed)
    requires var dir := TrimSpace(EffectiveDir(s, host)); IsAbs(dir) && Clean(dir) != "/"
    requires AllProper(mid) && IsJob(job, task)
    requires var root := Clean(TrimSpace(EffectiveDir(s, host)));
             var spool := SpoolBelow(root, mid, job, task);
             LinkFree(root, spool, fs) && !Contains(spool, "..")
    ensures var root := Clean(TrimSpace(EffectiveDir(s, host)));
            SomeRoot(SpoolRoots(s, true).value, SpoolBelow(root, mid, job, task), job, task, fs)
  {
    var root := Clean(TrimSpace(EffectiveDir(s, host)));
    var roots := SpoolRoots(s, true).value;
    CleanAbs(TrimSpace(EffectiveDir(s, host)));
    HostRootIncluded(s, host);
    RootAccepts(root, mid, job, task, fs);
    var i :| 0 <= i < |roots| && roots[i] == root;
    assert CheckSpoolDir(SpoolBelow(root, mid, job, task), roots[i], job, task, fs);
  }

  /** The printed settings are valid exactly when the cell and the ports are. */
  lemma SettingsValid(c: Cluster, s: State, readGlobal: bool)
    requires SpoolRoots(s, readGlobal) != None && IsAbs(c.sgeRoot)
    ensures ValidSettings(SettingsOf(c, SpoolRoots(s, readGlobal).value))
            <==> IsCell(CellOf(c)) && forall port <- [c.qmasterPort, c.execdPort] :: port == "" || IsDigits(port)
  {
    RootsAreConfigured(s, readGlobal);
    CleanAbs(c.sgeRoot);
  }

  /** With valid cell and ports, a job of any covered host gets its hook environment. */
  lemma LaunchAccepts(c: Cluster, s: State, host: string, mid: seq<string>, environ: seq<string>, fs: FsView, home: string)
    requires SpoolRoots(s, true) != None && (host in s.configs ==> host in s.listed)
    requires var dir := TrimSpace(EffectiveDir(s, host)); IsAbs(dir) && Clean(dir) != "/"
    requires IsAbs(c.sgeRoot) && IsCell(CellOf(c)) && forall port <- [c.qmasterPort, c.execdPort] :: port == "" || IsDigits(port)
    requires !HasLoader(environ) && AllProper(mid) && IsJob(Last(environ, JOB_ID), Last(environ, TASK_ID))
    requires var root := Clean(TrimSpace(EffectiveDir(s, host)));
             var spool := SpoolBelow(root, mid, Last(environ, JOB_ID), Last(environ, TASK_ID));
             Last(environ, SPOOL_DIR) == spool && LinkFree(root, spool, fs) && !Contains(spool, "..")
    ensures LaunchEnvOf(environ, SettingsOf(c, SpoolRoots(s, true).value), fs, home).Ok?
  {
    var roots := SpoolRoots(s, true).value;
    var job, task := Last(environ, JOB_ID), Last(environ, TASK_ID);
    SettingsValid(c, s, true);
    EveryHostCovered(s, host, mid, job, task, fs);
    assert roots != [];
    assert Roots(SettingsOf(c, roots)) == roots;
  }
}

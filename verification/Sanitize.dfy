/** The environment the hooks run with: built by the launcher, and built again by each hook. */
module Sanitize {
  import opened Decimal
  import opened EnvList
  import opened Paths
  import opened Spool
  import opened Text
  import opened Wrappers

  const JOB_ID := "JOB_ID"
  const TASK_ID := "SGE_TASK_ID"
  const SPOOL_DIR := "SGE_JOB_SPOOL_DIR"
  const ROOT := "SGE_ROOT"
  const CELL := "SGE_CELL"
  const QMASTER_PORT := "SGE_QMASTER_PORT"
  const EXECD_PORT := "SGE_EXECD_PORT"
  const TZ := "TZ"
  const TRUSTED_PATH := "/usr/sbin:/usr/bin:/sbin:/bin"

  datatype LaunchSettings = LaunchSettings(
    sgeRoot: string, sgeCell: string, spoolRoots: seq<string>, qmasterPort: string, execdPort: string)

  datatype LaunchError = LoaderVariable | BadSettings | BadJobId | BadTaskId | BadSpoolDir {
    /** Job errors put the job into error state, the others the queue. */
    function ExitCode(): int {
      if BadSettings? then 1 else 100
    }
  }

  // ---- Patterns ----------------------------------------------------------------------

  predicate IsWord(c: char) {
    'A' <= c <= 'Z' || 'a' <= c <= 'z' || IsDigit(c) || c == '.' || c == '_' || c == '-'
  }

  predicate IsPathChar(c: char) {
    IsWord(c) || c == '/'
  }

  predicate IsZoneChar(c: char) {
    IsPathChar(c) || c == '+' || c == ':'
  }

  predicate IsCell(s: string) {
    s != "" && All(IsWord, s)
  }

  predicate IsPath(s: string) {
    |s| >= 2 && s[0] == '/' && All(IsPathChar, s)
  }

  predicate IsZone(s: string) {
    1 <= |s| <= 64 && All(IsZoneChar, s)
  }

  predicate Dotted(s: string) {
    Contains(s, "..")
  }

  predicate IsTrusted(key: string) {
    key in [JOB_ID, TASK_ID, SPOOL_DIR, ROOT, CELL, QMASTER_PORT, EXECD_PORT, TZ]
  }

  /** The patterns of the trusted variables. */
  predicate Matches(key: string, value: string) {
    if key == TASK_ID then IsTaskId(value)
    else if key == SPOOL_DIR || key == ROOT then IsPath(value)
    else if key == CELL then IsCell(value)
    else if key == TZ then IsZone(value)
    else IsDigits(value)
  }

  // ---- The loader check and the settings --------------------------------------------------

  predicate IsLoader(kv: string) {
    var (key, _, _) := Cut(kv, '=');
    HasPrefix(key, "LD_") || key == "GLIBC_TUNABLES"
  }

  predicate HasLoader(environ: seq<string>) {
    exists i :: 0 <= i < |environ| && IsLoader(environ[i])
  }

  predicate CleanDir(dir: string) {
    IsAbs(dir) && Clean(dir) == dir
  }

  predicate ValidSettings(s: LaunchSettings) {
    && s.sgeRoot != "" && IsCell(s.sgeCell)
    && (forall dir <- [s.sgeRoot] + s.spoolRoots :: CleanDir(dir))
    && (forall port <- [s.qmasterPort, s.execdPort] :: port == "" || IsDigits(port))
  }

  function Roots(s: LaunchSettings): seq<string> {
    if s.spoolRoots == [] then [s.sgeRoot] else s.spoolRoots
  }

  // ---- LaunchEnv ------------------------------------------------------------------------------

  function Optional(key: string, value: string): seq<string> {
    if value == "" then [] else [Pair(key, value)]
  }

  /** A time zone is kept only when it is a plain name. */
  function Zone(tz: string): string {
    if IsZone(tz) && !Dotted(tz) then tz else ""
  }

  function Fixed(home: string): seq<string> {
    [Pair("PATH", TRUSTED_PATH), Pair("HOME", home), Pair("LANG", "C"), Pair("LC_ALL", "C")]
  }

  function Base4(job: string, spool: string, s: LaunchSettings): seq<string> {
    [Pair(JOB_ID, job), Pair(SPOOL_DIR, spool), Pair(ROOT, s.sgeRoot), Pair(CELL, s.sgeCell)]
  }

  function Output(job: string, task: string, spool: string, tz: string, s: LaunchSettings, home: string): seq<string> {
    Base4(job, spool, s) + Optional(TASK_ID, task) + Optional(QMASTER_PORT, s.qmasterPort)
    + Optional(EXECD_PORT, s.execdPort) + Optional(TZ, Zone(tz)) + Fixed(home)
  }

  predicate SomeRoot(roots: seq<string>, spool: string, job: string, task: string, fs: FsView) {
    exists i :: 0 <= i < |roots| && CheckSpoolDir(spool, roots[i], job, task, fs)
  }

  /** The launcher's answer as a function of the four values it takes from the job. */
  function Launch(job: string, task: string, spool: string, tz: string, s: LaunchSettings, fs: FsView, home: string)
    : Result<seq<string>, LaunchError>
  {
    if !ValidSettings(s) then Err(BadSettings)
    else if !IsDigits(job) then Err(BadJobId)
    else if task != "" && !IsTaskId(task) then Err(BadTaskId)
    else if !SomeRoot(Roots(s), spool, job, task, fs) then Err(BadSpoolDir)
    else Ok(Output(job, task, spool, tz, s, home))
  }

  function LaunchEnvOf(environ: seq<string>, s: LaunchSettings, fs: FsView, home: string)
    : Result<seq<string>, LaunchError>
  {
    if HasLoader(environ) then Err(LoaderVariable)
    else Launch(Last(environ, JOB_ID), Last(environ, TASK_ID), Last(environ, SPOOL_DIR), Last(environ, TZ), s, fs, home)
  }

  method CheckLoaderEnv(environ: seq<string>) returns (found: bool)
    ensures found <==> HasLoader(environ)
  {
    for i := 0 to |environ|
      invariant !HasLoader(environ[..i])
    {
      assert environ[..i + 1] == environ[..i] + [environ[i]];
      if IsLoader(environ[i]) {
        return true;
      }
    }
    assert environ[..|environ|] == environ;
    return false;
  }

  /** The root loop: it stops at the first root that accepts. */
  method FindRoot(roots: seq<string>, spool: string, job: string, task: string, fs: FsView) returns (ok: bool)
    ensures ok <==> SomeRoot(roots, spool, job, task, fs)
  {
    ok := false;
    for i := 0 to |roots|
      invariant !ok && forall k :: 0 <= k < i ==> !CheckSpoolDir(spool, roots[k], job, task, fs)
    {
      ok := CheckSpoolDir(spool, roots[i], job, task, fs);
      if ok {
        break;
      }
    }
  }

  /** Builds the hook environment, with the map and the growing list of the original. */
  method LaunchEnv(environ: seq<string>, s: LaunchSettings, fs: FsView, home: string)
    returns (r: Result<seq<string>, LaunchError>)
    ensures r == LaunchEnvOf(environ, s, fs, home)
  {
    var loader := CheckLoaderEnv(environ);
    if loader {
      return Err(LoaderVariable);
    }
    if !ValidSettings(s) {
      return Err(BadSettings);
    }
    var values: map<string, string> := map[];
    for i := 0 to |environ|
      invariant values == Values(environ[..i])
    {
      ValuesSnoc(environ[..i], environ[i]);
      assert environ[..i + 1] == environ[..i] + [environ[i]];
      var (key, value, ok) := Cut(environ[i], '=');
      if ok {
        values := values[key := value];
      }
    }
    assert environ[..|environ|] == environ;
    forall key
      ensures Get(values, key) == Last(environ, key)
    {
      GetIsLast(environ, key);
    }
    var job, task, spool := Get(values, JOB_ID), Get(values, TASK_ID), Get(values, SPOOL_DIR);
    if !IsDigits(job) {
      return Err(BadJobId);
    }
    if task != "" && !IsTaskId(task) {
      return Err(BadTaskId);
    }
    var found := FindRoot(Roots(s), spool, job, task, fs);
    if !found {
      return Err(BadSpoolDir);
    }
    var out := ListOutput(job, task, spool, Get(values, TZ), s, home);
    return Ok(out);
  }

  method ListOutput(job: string, task: string, spool: string, tz: string, s: LaunchSettings, home: string)
    returns (out: seq<string>)
    ensures out == Output(job, task, spool, tz, s, home)
  {
    out := [Pair(JOB_ID, job), Pair(SPOOL_DIR, spool), Pair(ROOT, s.sgeRoot), Pair(CELL, s.sgeCell)];
    if task != "" {
      out := out + [Pair(TASK_ID, task)];
    }
    if s.qmasterPort != "" {
      out := out + [Pair(QMASTER_PORT, s.qmasterPort)];
    }
    if s.execdPort != "" {
      out := out + [Pair(EXECD_PORT, s.execdPort)];
    }
    if IsZone(tz) && !Dotted(tz) {
      out := out + [Pair(TZ, tz)];
    }
    out := out + [Pair("PATH", TRUSTED_PATH), Pair("HOME", home), Pair("LANG", "C"), Pair("LC_ALL", "C")];
  }

  /** Environments without loader variables that agree on the last bindings of the four
      variables get the same answer. */
  lemma FunctionOfFour(e1: seq<string>, e2: seq<string>, s: LaunchSettings, fs: FsView, home: string)
    requires !HasLoader(e1) && !HasLoader(e2)
    requires forall key <- [JOB_ID, TASK_ID, SPOOL_DIR, TZ] :: Get(Values(e1), key) == Get(Values(e2), key)
    ensures LaunchEnvOf(e1, s, fs, home) == LaunchEnvOf(e2, s, fs, home)
  {
    forall key <- [JOB_ID, TASK_ID, SPOOL_DIR, TZ]
      ensures Last(e1, key) == Last(e2, key)
    {
      GetIsLast(e1, key);
      GetIsLast(e2, key);
    }
    assert JOB_ID in [JOB_ID, TASK_ID, SPOOL_DIR, TZ];
  }

  // ---- What the output binds --------------------------------------------------------------

  function OptionalMap(key: string, value: string): map<string, string> {
    if value == "" then map[] else map[key := value]
  }

  lemma OptionalValues(key: string, value: string)
    requires '=' !in key
    ensures Values(Optional(key, value)) == OptionalMap(key, value)
  {
    ValuesOne(key, value);
  }

  function BaseMap(job: string, spool: string, s: LaunchSettings): map<string, string> {
    map[JOB_ID := job, SPOOL_DIR := spool, ROOT := s.sgeRoot, CELL := s.sgeCell]
  }

  function FixedMap(home: string): map<string, string> {
    map["PATH" := TRUSTED_PATH, "HOME" := home, "LANG" := "C", "LC_ALL" := "C"]
  }

  lemma FourValues(a: string, u: string, b: string, v: string, c: string, w: string, d: string, x: string)
    requires '=' !in a && '=' !in b && '=' !in c && '=' !in d
    ensures Values([Pair(a, u), Pair(b, v), Pair(c, w), Pair(d, x)]) == map[a := u][b := v][c := w][d := x]
  {
    ValuesOne(a, u);
    CutPair(b, v);
    CutPair(c, w);
    CutPair(d, x);
    ValuesSnoc([Pair(a, u)], Pair(b, v));
    ValuesSnoc([Pair(a, u), Pair(b, v)], Pair(c, w));
    ValuesSnoc([Pair(a, u), Pair(b, v), Pair(c, w)], Pair(d, x));
    assert [Pair(a, u), Pair(b, v)] == [Pair(a, u)] + [Pair(b, v)];
    assert [Pair(a, u), Pair(b, v), Pair(c, w)] == [Pair(a, u), Pair(b, v)] + [Pair(c, w)];
    assert [Pair(a, u), Pair(b, v), Pair(c, w), Pair(d, x)] == [Pair(a, u), Pair(b, v), Pair(c, w)] + [Pair(d, x)];
  }

  function OutputMap(job: string, task: string, spool: string, tz: string, s: LaunchSettings, home: string)
    : map<string, string>
  {
    BaseMap(job, spool, s) + OptionalMap(TASK_ID, task) + OptionalMap(QMASTER_PORT, s.qmasterPort)
    + OptionalMap(EXECD_PORT, s.execdPort) + OptionalMap(TZ, Zone(tz)) + FixedMap(home)
  }

  lemma BaseValues(job: string, spool: string, s: LaunchSettings)
    ensures Values(Base4(job, spool, s)) == BaseMap(job, spool, s)
  {
    KeysArePlain();
    FourValues(JOB_ID, job, SPOOL_DIR, spool, ROOT, s.sgeRoot, CELL, s.sgeCell);
  }

  lemma FixedValues(home: string)
    ensures Values(Fixed(home)) == FixedMap(home)
  {
    KeysArePlain();
    FourValues("PATH", TRUSTED_PATH, "HOME", home, "LANG", "C", "LC_ALL", "C");
  }

  lemma OutputValues(job: string, task: string, spool: string, tz: string, s: LaunchSettings, home: string)
    ensures Values(Output(job, task, spool, tz, s, home)) == OutputMap(job, task, spool, tz, s, home)
  {
    KeysArePlain();
    BaseValues(job, spool, s);
    FixedValues(home);
    OptionalValues(TASK_ID, task);
    OptionalValues(QMASTER_PORT, s.qmasterPort);
    OptionalValues(EXECD_PORT, s.execdPort);
    OptionalValues(TZ, Zone(tz));
    SixValues(Base4(job, spool, s), Optional(TASK_ID, task), Optional(QMASTER_PORT, s.qmasterPort),
              Optional(EXECD_PORT, s.execdPort), Optional(TZ, Zone(tz)), Fixed(home),
              BaseMap(job, spool, s), OptionalMap(TASK_ID, task), OptionalMap(QMASTER_PORT, s.qmasterPort),
              OptionalMap(EXECD_PORT, s.execdPort), OptionalMap(TZ, Zone(tz)), FixedMap(home));
  }

  lemma SixValues(a: seq<string>, b: seq<string>, c: seq<string>, d: seq<string>, e: seq<string>, f: seq<string>,
                  k: map<string, string>, l: map<string, string>, m: map<string, string>, n: map<string, string>,
                  o: map<string, string>, p: map<string, string>)
    requires Values(a) == k && Values(b) == l && Values(c) == m && Values(d) == n && Values(e) == o && Values(f) == p
    ensures Values(a + b + c + d + e + f) == k + l + m + n + o + p
  {
    ValuesAppend(a, b);
    ValuesAppend(a + b, c);
    ValuesAppend(a + b + c, d);
    ValuesAppend(a + b + c + d, e);
    ValuesAppend(a + b + c + d + e, f);
  }

  // ---- Launching again ------------------------------------------------------------------------

  lemma LoaderAppend(a: seq<string>, b: seq<string>)
    ensures HasLoader(a + b) <==> HasLoader(a) || HasLoader(b)
  {
    if HasLoader(a) {
      var i :| 0 <= i < |a| && IsLoader(a[i]);
      assert IsLoader((a + b)[i]);
    }
    if HasLoader(b) {
      var i :| 0 <= i < |b| && IsLoader(b[i]);
      assert IsLoader((a + b)[|a| + i]);
    }
  }

  predicate PlainKey(key: string) {
    '=' !in key && !HasPrefix(key, "LD_") && key != "GLIBC_TUNABLES"
  }

  lemma FourLoaders(a: string, u: string, b: string, v: string, c: string, w: string, d: string, x: string)
    requires PlainKey(a) && PlainKey(b) && PlainKey(c) && PlainKey(d)
    ensures !HasLoader([Pair(a, u), Pair(b, v), Pair(c, w), Pair(d, x)])
  {
    CutPair(a, u);
    CutPair(b, v);
    CutPair(c, w);
    CutPair(d, x);
  }

  lemma OptionalLoader(key: string, value: string)
    requires PlainKey(key)
    ensures !HasLoader(Optional(key, value))
  {
    CutPair(key, value);
  }

  lemma PlainByHead(key: string, n: nat)
    requires n < |key| && n < 2 && key[n] != "LD_"[n] && '=' !in key && key[0] != 'G'
    ensures PlainKey(key)
  {
    assert "GLIBC_TUNABLES"[0] == 'G';
  }

  lemma KeysArePlain()
    ensures PlainKey(JOB_ID) && PlainKey(TASK_ID) && PlainKey(SPOOL_DIR) && PlainKey(ROOT) && PlainKey(CELL)
    ensures PlainKey(QMASTER_PORT) && PlainKey(EXECD_PORT) && PlainKey(TZ)
    ensures PlainKey("PATH") && PlainKey("HOME") && PlainKey("LANG") && PlainKey("LC_ALL")
  {
    PlainByHead(JOB_ID, 0);
    PlainByHead(TASK_ID, 0);
    PlainByHead(SPOOL_DIR, 0);
    PlainByHead(ROOT, 0);
    PlainByHead(CELL, 0);
    PlainByHead(QMASTER_PORT, 0);
    PlainByHead(EXECD_PORT, 0);
    PlainByHead(TZ, 0);
    PlainByHead("PATH", 0);
    PlainByHead("HOME", 0);
    PlainByHead("LANG", 1);
    PlainByHead("LC_ALL", 1);
  }

  /** The hooks are never started with loader variables. */
  lemma OutputHasNoLoader(job: string, task: string, spool: string, tz: string, s: LaunchSettings, home: string)
    ensures !HasLoader(Output(job, task, spool, tz, s, home))
  {
    KeysArePlain();
    FourLoaders(JOB_ID, job, SPOOL_DIR, spool, ROOT, s.sgeRoot, CELL, s.sgeCell);
    FourLoaders("PATH", TRUSTED_PATH, "HOME", home, "LANG", "C", "LC_ALL", "C");
    OptionalLoader(TASK_ID, task);
    OptionalLoader(QMASTER_PORT, s.qmasterPort);
    OptionalLoader(EXECD_PORT, s.execdPort);
    OptionalLoader(TZ, Zone(tz));
    var a := Base4(job, spool, s);
    LoaderAppend(a, Optional(TASK_ID, task));
    LoaderAppend(a + Optional(TASK_ID, task), Optional(QMASTER_PORT, s.qmasterPort));
    LoaderAppend(a + Optional(TASK_ID, task) + Optional(QMASTER_PORT, s.qmasterPort), Optional(EXECD_PORT, s.execdPort));
    LoaderAppend(a + Optional(TASK_ID, task) + Optional(QMASTER_PORT, s.qmasterPort) + Optional(EXECD_PORT, s.execdPort),
                 Optional(TZ, Zone(tz)));
    LoaderAppend(a + Optional(TASK_ID, task) + Optional(QMASTER_PORT, s.qmasterPort) + Optional(EXECD_PORT, s.execdPort)
                 + Optional(TZ, Zone(tz)), Fixed(home));
  }

  lemma KeysDiffer()
    ensures JOB_ID !in [SPOOL_DIR, ROOT, CELL, TASK_ID, QMASTER_PORT, EXECD_PORT, TZ]
    ensures SPOOL_DIR !in [ROOT, CELL, TASK_ID, QMASTER_PORT, EXECD_PORT, TZ]
    ensures TASK_ID !in [ROOT, CELL, QMASTER_PORT, EXECD_PORT, TZ]
    ensures TZ !in [ROOT, CELL, QMASTER_PORT, EXECD_PORT]
  {
    assert |JOB_ID| == 6 && |SPOOL_DIR| == 17 && |ROOT| == |CELL| == 8 && |TASK_ID| == 11;
    assert |QMASTER_PORT| == 16 && |EXECD_PORT| == 14 && |TZ| == 2;
  }

  lemma FixedMisses(home: string)
    ensures forall key <- [JOB_ID, SPOOL_DIR, TASK_ID, TZ] :: key !in FixedMap(home)
  {
    assert JOB_ID[0] == 'J' && "LC_ALL"[0] == 'L';
    assert |"PATH"| == |"HOME"| == |"LANG"| == 4;
  }

  lemma MergedGets(b: map<string, string>, t: string, task: string, q: string, qv: string, e: string, ev: string,
                   z: string, zv: string, f: map<string, string>, key: string)
    requires key !in f && (key == t || t !in b) && (key == z || z !in b) && t != z && q !in [key, t, z] && e !in [key, t, z]
    ensures var m := b + OptionalMap(t, task) + OptionalMap(q, qv) + OptionalMap(e, ev) + OptionalMap(z, zv) + f;
            && (key == t && t !in b ==> Get(m, key) == task)
            && (key == z && z !in b ==> Get(m, key) == zv)
            && (key != t && key != z ==> Get(m, key) == Get(b, key))
  {
  }

  lemma OutputGets(job: string, task: string, spool: string, tz: string, s: LaunchSettings, home: string)
    ensures var m := OutputMap(job, task, spool, tz, s, home);
            && Get(m, JOB_ID) == job && Get(m, TASK_ID) == task && Get(m, SPOOL_DIR) == spool && Get(m, TZ) == Zone(tz)
  {
    KeysDiffer();
    FixedMisses(home);
    var b := BaseMap(job, spool, s);
    assert TASK_ID !in b && TZ !in b && Get(b, JOB_ID) == job && Get(b, SPOOL_DIR) == spool;
    forall key <- [JOB_ID, SPOOL_DIR, TASK_ID, TZ] {
      MergedGets(b, TASK_ID, task, QMASTER_PORT, s.qmasterPort, EXECD_PORT, s.execdPort, TZ, Zone(tz), FixedMap(home), key);
    }
    assert JOB_ID in [JOB_ID, SPOOL_DIR, TASK_ID, TZ];
  }

  lemma ZoneTwice(tz: string)
    ensures Zone(Zone(tz)) == Zone(tz)
  {
  }

  lemma OutputLasts(job: string, task: string, spool: string, tz: string, s: LaunchSettings, home: string)
    ensures var out := Output(job, task, spool, tz, s, home);
            && Last(out, JOB_ID) == job && Last(out, TASK_ID) == task && Last(out, SPOOL_DIR) == spool
            && Last(out, TZ) == Zone(tz)
  {
    var out := Output(job, task, spool, tz, s, home);
    OutputValues(job, task, spool, tz, s, home);
    OutputGets(job, task, spool, tz, s, home);
    GetIsLast(out, JOB_ID);
    GetIsLast(out, TASK_ID);
    GetIsLast(out, SPOOL_DIR);
    GetIsLast(out, TZ);
  }

  /** Launching from a built environment builds it again. */
  lemma LaunchIdempotent(environ: seq<string>, s: LaunchSettings, fs: FsView, home: string)
    requires LaunchEnvOf(environ, s, fs, home).Ok?
    ensures var out := LaunchEnvOf(environ, s, fs, home).value;
            LaunchEnvOf(out, s, fs, home) == Ok(out)
  {
    var job, task, spool, tz := Last(environ, JOB_ID), Last(environ, TASK_ID), Last(environ, SPOOL_DIR), Last(environ, TZ);
    var out := Output(job, task, spool, tz, s, home);
    OutputHasNoLoader(job, task, spool, tz, s, home);
    OutputLasts(job, task, spool, tz, s, home);
    ZoneTwice(tz);
  }

  // ---- CleanEnv -----------------------------------------------------------------------------

  /** A trusted variable whose value does not match its pattern, or that has two dots in a row. */
  predicate Refused(kv: string) {
    var (key, value, ok) := Cut(kv, '=');
    ok && IsTrusted(key) && (!Matches(key, value) || Dotted(value))
  }

  predicate HasRefused(environ: seq<string>) {
    exists i :: 0 <= i < |environ| && Refused(environ[i])
  }

  function TrustedOnly(values: map<string, string>): map<string, string> {
    map key | key in values && IsTrusted(key) :: values[key]
  }

  function CleanValues(environ: seq<string>): Option<map<string, string>> {
    if HasRefused(environ) then None else Some(TrustedOnly(Values(environ)))
  }

  lemma CleanStep(environ: seq<string>, i: nat)
    requires i < |environ|
    ensures HasRefused(environ[..i + 1]) <==> HasRefused(environ[..i]) || Refused(environ[i])
    ensures Refused(environ[i]) ==> HasRefused(environ)
    ensures var (key, value, ok) := Cut(environ[i], '=');
            var before := TrustedOnly(Values(environ[..i]));
            TrustedOnly(Values(environ[..i + 1])) == if ok && IsTrusted(key) then before[key := value] else before
  {
    assert environ[..i + 1] == environ[..i] + [environ[i]];
    ValuesSnoc(environ[..i], environ[i]);
    RefusedAppend(environ[..i], [environ[i]]);
    assert [environ[i]][0] == environ[i];
  }

  /** The hook's own check of its environment, and the list it continues with. */
  method CleanEnv(environ: seq<string>, home: string) returns (r: Option<seq<string>>)
    ensures r == None <==> CleanValues(environ) == None
    ensures r != None ==> exists list :: r.value == list + Fixed(home) && Lists(list, CleanValues(environ).value)
  {
    var values: map<string, string> := map[];
    for i := 0 to |environ|
      invariant !HasRefused(environ[..i]) && values == TrustedOnly(Values(environ[..i]))
    {
      CleanStep(environ, i);
      var (key, value, ok) := Cut(environ[i], '=');
      if !ok || !IsTrusted(key) {
        continue;
      }
      if !Matches(key, value) || Dotted(value) {
        return None;
      }
      values := values[key := value];
    }
    assert environ[..|environ|] == environ;
    var list := ListMap(values);
    r := Some(list + [Pair("PATH", TRUSTED_PATH), Pair("HOME", home), Pair("LANG", "C"), Pair("LC_ALL", "C")]);
  }

  /** Ranges over the map in no particular order. */
  method ListMap(values: map<string, string>) returns (list: seq<string>)
    ensures Lists(list, values)
  {
    list := [];
    var rest := values.Keys;
    while rest != {}
      invariant rest <= values.Keys && |list| == |values| - |rest|
      invariant forall key <- values :: key !in rest ==> Pair(key, values[key]) in list
      invariant forall kv <- list :: exists key <- values :: kv == Pair(key, values[key])
      decreases |rest|
    {
      var key :| key in rest;
      list := list + [Pair(key, values[key])];
      rest := rest - {key};
    }
  }

  // ---- The hooks accept what the launcher builds ------------------------------------------------

  lemma RefusedAppend(a: seq<string>, b: seq<string>)
    ensures HasRefused(a + b) <==> HasRefused(a) || HasRefused(b)
  {
    if HasRefused(a) {
      var i :| 0 <= i < |a| && Refused(a[i]);
      assert Refused((a + b)[i]);
    }
    if HasRefused(b) {
      var i :| 0 <= i < |b| && Refused(b[i]);
      assert Refused((a + b)[|a| + i]);
    }
  }

  predicate Bad(key: string, value: string) {
    IsTrusted(key) && (!Matches(key, value) || Dotted(value))
  }

  lemma RefusedOne(key: string, value: string)
    requires '=' !in key
    ensures HasRefused([Pair(key, value)]) <==> Bad(key, value)
  {
    CutPair(key, value);
    assert [Pair(key, value)][0] == Pair(key, value);
  }

  lemma RefusedFour(a: string, u: string, b: string, v: string, c: string, w: string, d: string, x: string)
    requires '=' !in a && '=' !in b && '=' !in c && '=' !in d
    ensures HasRefused([Pair(a, u), Pair(b, v), Pair(c, w), Pair(d, x)])
            <==> Bad(a, u) || Bad(b, v) || Bad(c, w) || Bad(d, x)
  {
    RefusedOne(a, u);
    RefusedOne(b, v);
    RefusedOne(c, w);
    RefusedOne(d, x);
    RefusedAppend([Pair(a, u)], [Pair(b, v)]);
    RefusedAppend([Pair(a, u)] + [Pair(b, v)], [Pair(c, w)]);
    RefusedAppend([Pair(a, u)] + [Pair(b, v)] + [Pair(c, w)], [Pair(d, x)]);
    assert [Pair(a, u), Pair(b, v), Pair(c, w), Pair(d, x)] == [Pair(a, u)] + [Pair(b, v)] + [Pair(c, w)] + [Pair(d, x)];
  }

  lemma DottedHasDot(s: string)
    ensures Dotted(s) ==> exists i :: 0 <= i < |s| && s[i] == '.'
  {
    if Dotted(s) {
      var i :| 0 <= i <= |s| && ".." <= s[i..];
      assert s[i..][0] == ".."[0];
    }
  }

  lemma NoDots(p: char -> bool, s: string)
    requires All(p, s) && !p('.')
    ensures !Dotted(s)
  {
    DottedHasDot(s);
  }

  /** Patterns that only the values the launcher itself does not check could miss. */
  predicate Strict(s: LaunchSettings, spool: string) {
    IsPath(s.sgeRoot) && !Dotted(s.sgeRoot) && !Dotted(s.sgeCell) && IsPath(spool)
  }

  lemma MatchesKeys(value: string)
    ensures forall key <- [JOB_ID, QMASTER_PORT, EXECD_PORT] :: Matches(key, value) <==> IsDigits(value)
    ensures Matches(TASK_ID, value) <==> IsTaskId(value)
    ensures Matches(CELL, value) <==> IsCell(value)
    ensures Matches(TZ, value) <==> IsZone(value)
    ensures Matches(SPOOL_DIR, value) <==> IsPath(value)
    ensures Matches(ROOT, value) <==> IsPath(value)
  {
    KeysDiffer();
    assert ROOT[4] == 'R' && CELL[4] == 'C';
    assert |QMASTER_PORT| == 16 && |EXECD_PORT| == 14 && |JOB_ID| == 6 && |CELL| == 8 && |TASK_ID| == 11 && |TZ| == 2;
    assert |SPOOL_DIR| == 17 && |ROOT| == 8;
  }

  lemma DigitsAreGood(key: string, value: string)
    requires key in [JOB_ID, QMASTER_PORT, EXECD_PORT] && IsDigits(value)
    ensures !Bad(key, value)
  {
    MatchesKeys(value);
    NoDots(IsDigit, value);
  }

  lemma TaskIsGood(value: string)
    requires IsTaskId(value)
    ensures !Bad(TASK_ID, value)
  {
    MatchesKeys(value);
    if IsDigits(value) {
      NoDots(IsDigit, value);
    } else {
      NoDots(c => c != '.', "undefined");
    }
  }

  lemma OptionalIsGood(key: string, value: string)
    requires '=' !in key && (value != "" ==> !Bad(key, value))
    ensures !HasRefused(Optional(key, value))
  {
    RefusedOne(key, value);
  }

  lemma BaseRefused(job: string, spool: string, s: LaunchSettings)
    requires IsDigits(job) && !Dotted(spool) && IsCell(s.sgeCell)
    ensures HasRefused(Base4(job, spool, s)) <==> !Strict(s, spool)
  {
    KeysArePlain();
    RefusedFour(JOB_ID, job, SPOOL_DIR, spool, ROOT, s.sgeRoot, CELL, s.sgeCell);
    DigitsAreGood(JOB_ID, job);
    MatchesKeys(spool);
    MatchesKeys(s.sgeRoot);
    MatchesKeys(s.sgeCell);
  }

  lemma TrustedShape(key: string)
    ensures IsTrusted(key) ==> |key| in [6, 11, 17, 8, 16, 14, 2] && (|key| == 6 ==> key[0] == 'J')
  {
    assert |JOB_ID| == 6 && JOB_ID[0] == 'J' && |TASK_ID| == 11 && |SPOOL_DIR| == 17 && |ROOT| == 8 && |CELL| == 8;
    assert |QMASTER_PORT| == 16 && |EXECD_PORT| == 14 && |TZ| == 2;
  }

  lemma FixedUntrusted()
    ensures !IsTrusted("PATH") && !IsTrusted("HOME") && !IsTrusted("LANG") && !IsTrusted("LC_ALL")
  {
    TrustedShape("PATH");
    TrustedShape("HOME");
    TrustedShape("LANG");
    TrustedShape("LC_ALL");
  }

  lemma FixedIsGood(home: string)
    ensures !HasRefused(Fixed(home))
    ensures forall key <- FixedMap(home) :: !IsTrusted(key)
  {
    KeysArePlain();
    FixedUntrusted();
    RefusedFour("PATH", TRUSTED_PATH, "HOME", home, "LANG", "C", "LC_ALL", "C");
  }

  lemma OutputRefused(job: string, task: string, spool: string, tz: string, s: LaunchSettings, home: string)
    requires ValidSettings(s) && IsDigits(job) && (task != "" ==> IsTaskId(task)) && !Dotted(spool)
    ensures HasRefused(Output(job, task, spool, tz, s, home)) <==> !Strict(s, spool)
  {
    var a, b, c, d, e := Base4(job, spool, s), Optional(TASK_ID, task), Optional(QMASTER_PORT, s.qmasterPort),
                         Optional(EXECD_PORT, s.execdPort), Optional(TZ, Zone(tz));
    BaseRefused(job, spool, s);
    FixedIsGood(home);
    if task != "" {
      TaskIsGood(task);
    }
    OptionalIsGood(TASK_ID, task);
    PortIsGood(QMASTER_PORT, s.qmasterPort, s);
    PortIsGood(EXECD_PORT, s.execdPort, s);
    MatchesKeys(Zone(tz));
    OptionalIsGood(TZ, Zone(tz));
    RefusedAppend(a, b);
    RefusedAppend(a + b, c);
    RefusedAppend(a + b + c, d);
    RefusedAppend(a + b + c + d, e);
    RefusedAppend(a + b + c + d + e, Fixed(home));
  }

  lemma PortIsGood(key: string, port: string, s: LaunchSettings)
    requires key in [QMASTER_PORT, EXECD_PORT] && port in [s.qmasterPort, s.execdPort] && ValidSettings(s)
    ensures !HasRefused(Optional(key, port))
  {
    if port != "" {
      DigitsAreGood(key, port);
    }
    OptionalIsGood(key, port);
  }

  lemma TrustedMerge(a: map<string, string>, f: map<string, string>)
    requires (forall key <- a :: IsTrusted(key)) && (forall key <- f :: !IsTrusted(key))
    ensures TrustedOnly(a + f) + f == a + f
  {
  }

  lemma OutputTrusted(job: string, task: string, spool: string, tz: string, s: LaunchSettings, home: string)
    ensures var m := OutputMap(job, task, spool, tz, s, home); TrustedOnly(m) + FixedMap(home) == m
  {
    FixedIsGood(home);
    var a := BaseMap(job, spool, s);
    var b := a + OptionalMap(TASK_ID, task) + OptionalMap(QMASTER_PORT, s.qmasterPort)
             + OptionalMap(EXECD_PORT, s.execdPort) + OptionalMap(TZ, Zone(tz));
    assert forall key <- a :: IsTrusted(key);
    assert IsTrusted(TASK_ID) && IsTrusted(QMASTER_PORT) && IsTrusted(EXECD_PORT) && IsTrusted(TZ);
    AllTrusted(a, TASK_ID, task, QMASTER_PORT, s.qmasterPort, EXECD_PORT, s.execdPort, TZ, Zone(tz));
    TrustedMerge(b, FixedMap(home));
  }

  lemma AllTrusted(a: map<string, string>, k1: string, v1: string, k2: string, v2: string,
                   k3: string, v3: string, k4: string, v4: string)
    requires (forall key <- a :: IsTrusted(key)) && IsTrusted(k1) && IsTrusted(k2) && IsTrusted(k3) && IsTrusted(k4)
    ensures forall key <- a + OptionalMap(k1, v1) + OptionalMap(k2, v2) + OptionalMap(k3, v3) + OptionalMap(k4, v4)
              :: IsTrusted(key)
  {
  }

  /** A hook accepts the launcher's environment exactly when root, cell and spool directory also
      match its stricter patterns, and then continues with the same variables. */
  lemma HookKeepsLaunchEnv(environ: seq<string>, s: LaunchSettings, fs: FsView, home: string)
    requires LaunchEnvOf(environ, s, fs, home).Ok?
    ensures var out := LaunchEnvOf(environ, s, fs, home).value;
            && !HasLoader(out)
            && (CleanValues(out) != None <==> Strict(s, Last(environ, SPOOL_DIR)))
            && (CleanValues(out) != None ==> CleanValues(out).value + FixedMap(home) == Values(out))
  {
    var job, task, spool, tz := Last(environ, JOB_ID), Last(environ, TASK_ID), Last(environ, SPOOL_DIR), Last(environ, TZ);
    OutputHasNoLoader(job, task, spool, tz, s, home);
    OutputRefused(job, task, spool, tz, s, home);
    OutputValues(job, task, spool, tz, s, home);
    OutputTrusted(job, task, spool, tz, s, home);
  }
}

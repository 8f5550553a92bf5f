/** A job's spool directory and the two places its metadata can be. */
module Spool {
  import opened Decimal
  import opened Paths
  import opened Text
  import opened Wrappers

  const METADATA_FILENAME := "qrmi_ocs_acquired.tsv"
  const FAILED_RELEASE_DIR := "qrmi_failed_releases"
  const ACTIVE_JOBS: string := "active_jobs"
  const PATH_MAX: nat := 4096

  /** What the hooks ask of the file system: the resolved form of existing paths, and the directories. */
  datatype FsView = FsView(resolved: map<string, string>, dirs: set<string>)

  predicate IsDigits(s: string) {
    s != "" && All(IsDigit, s)
  }

  predicate IsTaskId(s: string) {
    IsDigits(s) || s == "undefined"
  }

  /** The task part of a spool directory's name. */
  function Task(taskId: string): string {
    if taskId == "" || taskId == "undefined" then "1" else taskId
  }

  function JobTask(jobId: string, taskId: string): string {
    jobId + "." + Task(taskId)
  }

  /** The launcher's check that spool is the job's own spool directory below root. */
  predicate CheckSpoolDir(spool: string, root: string, jobId: string, taskId: string, fs: FsView) {
    && IsAbs(spool) && Clean(spool) == spool && !Contains(spool, "..") && HasPrefix(spool, root + "/")
    && Base(spool) == JobTask(jobId, taskId) && Base(Dir(spool)) == ACTIVE_JOBS
    && root in fs.resolved && spool in fs.resolved
    && fs.resolved[spool] == fs.resolved[root] + spool[|root|..]
    && spool in fs.dirs
  }

  function ResolveMetadataPath(spool: string): Option<string> {
    if spool == "" then None else Some(JoinPath(spool, METADATA_FILENAME))
  }

  lemma MetadataSuffix(spool: string)
    ensures var path := ResolveMetadataPath(spool); path != None ==> HasSuffix(path.value, METADATA_FILENAME)
  {
    JoinPathEnds(spool, METADATA_FILENAME);
  }

  /** Where a failed release's metadata file is linked to. */
  function KeptPath(path: string): string {
    var jobDir := Dir(path);
    JoinPath(JoinPath(Dir(Dir(jobDir)), FAILED_RELEASE_DIR), Base(jobDir) + ".tsv")
  }

  function MetadataPathC(spool: string): Option<string> {
    var p := spool + "/" + METADATA_FILENAME;
    if spool == "" || ByteLen(p) >= PATH_MAX then None else Some(p)
  }

  /** strrchr and memrchr on the spool directory: the host part, and the job's part from its slash on. */
  function HostAndJob(spool: string): Option<(string, string)> {
    var afterJob := AfterSlash(spool);
    if afterJob == 0 then None
    else
      var afterActive := AfterSlash(spool[..afterJob - 1]);
      if afterActive == 0 then None else Some((spool[..afterActive - 1], spool[afterJob - 1..]))
  }

  function KeptPathC(spool: string): Option<string> {
    var parts := HostAndJob(spool);
    if parts == None then None
    else
      var p := parts.value.0 + "/" + FAILED_RELEASE_DIR + parts.value.1 + ".tsv";
      if ByteLen(p) >= PATH_MAX then None else Some(p)
  }

  // ---- The shape of accepted spool directories -------------------------------

  /** <host>/active_jobs/<jobTask>. */
  function SpoolOf(host: seq<string>, jobTask: string): string {
    Rooted(host + [ACTIVE_JOBS] + [jobTask])
  }

  function MetaOf(host: seq<string>, jobTask: string): string {
    Rooted(host + [ACTIVE_JOBS] + [jobTask] + [METADATA_FILENAME])
  }

  function KeptOf(host: seq<string>, jobTask: string): string {
    Rooted(host + [FAILED_RELEASE_DIR] + [jobTask + ".tsv"])
  }

  predicate IsJob(jobId: string, taskId: string) {
    IsDigits(jobId) && (taskId == "" || IsTaskId(taskId))
  }

  lemma JobTaskProper(jobId: string, taskId: string)
    requires IsJob(jobId, taskId)
    ensures IsDigits(Task(taskId)) && '.' !in jobId && '.' !in Task(taskId)
    ensures Proper(JobTask(jobId, taskId)) && Proper(JobTask(jobId, taskId) + ".tsv")
  {
    var t := Task(taskId);
    var n := JobTask(jobId, taskId);
    assert IsDigit("1"[0]);
    assert n[|jobId|] == '.' && IsDigit(n[0]) && n[0] == jobId[0];
    assert forall i | 0 <= i < |n| :: n[i] == '.' || IsDigit(n[i]) by {
      forall i | 0 <= i < |n|
        ensures n[i] == '.' || IsDigit(n[i])
      {
        assert n[i] == if i < |jobId| then jobId[i] else if i == |jobId| then '.' else t[i - |jobId| - 1];
      }
    }
  }

  /** The job and task are read off an accepted name. */
  lemma JobTaskInjective(j1: string, t1: string, j2: string, t2: string)
    requires IsJob(j1, t1) && IsJob(j2, t2) && JobTask(j1, t1) == JobTask(j2, t2)
    ensures j1 == j2 && Task(t1) == Task(t2)
  {
    JobTaskProper(j1, t1);
    JobTaskProper(j2, t2);
    CutAppend(j1, '.', Task(t1));
    CutAppend(j2, '.', Task(t2));
    assert j1 + ['.'] + Task(t1) == JobTask(j1, t1);
    assert j2 + ['.'] + Task(t2) == JobTask(j2, t2);
  }

  /** An accepted spool directory is <host>/active_jobs/<job>.<task>. */
  lemma AcceptedShape(spool: string, root: string, jobId: string, taskId: string, fs: FsView) returns (host: seq<string>)
    requires IsJob(jobId, taskId) && CheckSpoolDir(spool, root, jobId, taskId, fs)
    ensures AllProper(host) && spool == SpoolOf(host, JobTask(jobId, taskId))
  {
    JobTaskProper(jobId, taskId);
    assert JobTask(jobId, taskId)[|jobId|] == '.';
    var front := LastName(spool);
    host := LastName(Dir(spool));
    RootedInjective(front, host + [ACTIVE_JOBS]);
  }

  lemma HostProper(host: seq<string>, jobTask: string)
    requires AllProper(host) && Proper(jobTask)
    ensures AllProper(host + [ACTIVE_JOBS]) && AllProper(host + [ACTIVE_JOBS] + [jobTask])
    ensures AllProper(host + [ACTIVE_JOBS] + [jobTask] + [METADATA_FILENAME])
    ensures AllProper(host + [FAILED_RELEASE_DIR])
  {
  }

  /** The two places, computed by the Go and by the C code. */
  lemma PathsOf(host: seq<string>, jobTask: string)
    requires AllProper(host) && Proper(jobTask) && Proper(jobTask + ".tsv")
    ensures ResolveMetadataPath(SpoolOf(host, jobTask)) == Some(MetaOf(host, jobTask))
    ensures KeptPath(MetaOf(host, jobTask)) == KeptOf(host, jobTask)
    ensures MetadataPathC(SpoolOf(host, jobTask))
            == if ByteLen(MetaOf(host, jobTask)) < PATH_MAX then Some(MetaOf(host, jobTask)) else None
    ensures KeptPathC(SpoolOf(host, jobTask))
            == if ByteLen(KeptOf(host, jobTask)) < PATH_MAX then Some(KeptOf(host, jobTask)) else None
  {
    HostProper(host, jobTask);
    var active := host + [ACTIVE_JOBS];
    var job := active + [jobTask];
    Below(job, METADATA_FILENAME);
    DirBase(job, METADATA_FILENAME);
    DirBase(active, jobTask);
    DirBase(host, ACTIVE_JOBS);
    Below(host, FAILED_RELEASE_DIR);
    Below(host + [FAILED_RELEASE_DIR], jobTask + ".tsv");
    KeptC(host, jobTask);
  }

  lemma KeptC(host: seq<string>, jobTask: string)
    requires AllProper(host) && Proper(jobTask) && Proper(jobTask + ".tsv")
    ensures KeptPathC(SpoolOf(host, jobTask))
            == if ByteLen(KeptOf(host, jobTask)) < PATH_MAX then Some(KeptOf(host, jobTask)) else None
  {
    var h := if host == [] then "" else Rooted(host);
    TwoBelow(host, ACTIVE_JOBS, jobTask);
    HostAndJobOf(h, ACTIVE_JOBS, jobTask);
    TwoBelow(host, FAILED_RELEASE_DIR, jobTask + ".tsv");
    Reassociate(h, FAILED_RELEASE_DIR, jobTask, ".tsv");
  }

  lemma TwoBelow(host: seq<string>, dir: string, name: string)
    requires AllProper(host) && Proper(dir) && Proper(name)
    ensures Rooted(host + [dir] + [name]) == (if host == [] then "" else Rooted(host)) + "/" + dir + "/" + name
  {
    Below(host, dir);
    Below(host + [dir], name);
  }

  lemma Reassociate(h: string, f: string, n: string, e: string)
    ensures h + "/" + f + ("/" + n) + e == h + "/" + f + "/" + (n + e)
  {
  }

  lemma HostAndJobOf(h: string, a: string, n: string)
    requires '/' !in a && '/' !in n
    ensures HostAndJob(h + "/" + a + "/" + n) == Some((h, "/" + n))
  {
    var active := h + "/" + a;
    var spool := active + "/" + n;
    LastSlash(active, n);
    assert spool[..|active|] == active;
    LastSlash(h, a);
    assert spool[..|h|] == h;
    assert spool[|active|..] == "/" + n;
  }

  // ---- No collisions ----------------------------------------------------------

  /** A spool directory is accepted for one job and one normalised task only. */
  lemma SpoolDeterminesJob(spool: string, r1: string, j1: string, t1: string, r2: string, j2: string, t2: string, fs: FsView)
    requires IsJob(j1, t1) && IsJob(j2, t2)
    requires CheckSpoolDir(spool, r1, j1, t1, fs) && CheckSpoolDir(spool, r2, j2, t2, fs)
    ensures j1 == j2 && Task(t1) == Task(t2)
  {
    JobTaskInjective(j1, t1, j2, t2);
  }

  /** Accepted spool directories have their own metadata and kept paths, and no
      job's metadata path is another job's kept path. */
  lemma NoCollisions(s1: string, r1: string, j1: string, t1: string, s2: string, r2: string, j2: string, t2: string, fs: FsView)
    requires IsJob(j1, t1) && IsJob(j2, t2)
    requires CheckSpoolDir(s1, r1, j1, t1, fs) && CheckSpoolDir(s2, r2, j2, t2, fs)
    ensures var m1, m2 := ResolveMetadataPath(s1), ResolveMetadataPath(s2);
            && m1.Some? && m2.Some?
            && (m1 == m2 <==> s1 == s2)
            && (KeptPath(m1.value) == KeptPath(m2.value) <==> s1 == s2)
            && m1.value != KeptPath(m2.value)
  {
    var h1 := AcceptedShape(s1, r1, j1, t1, fs);
    var h2 := AcceptedShape(s2, r2, j2, t2, fs);
    var n1, n2 := JobTask(j1, t1), JobTask(j2, t2);
    JobTaskProper(j1, t1);
    JobTaskProper(j2, t2);
    PathsOf(h1, n1);
    PathsOf(h2, n2);
    PlacesApart(h1, n1, h2, n2);
  }

  lemma PlacesApart(h1: seq<string>, n1: string, h2: seq<string>, n2: string)
    requires AllProper(h1) && Proper(n1) && Proper(n1 + ".tsv") && AllProper(h2) && Proper(n2) && Proper(n2 + ".tsv")
    requires IsDigit(n1[0]) && IsDigit(n2[0])
    ensures MetaOf(h1, n1) == MetaOf(h2, n2) <==> SpoolOf(h1, n1) == SpoolOf(h2, n2)
    ensures KeptOf(h1, n1) == KeptOf(h2, n2) <==> SpoolOf(h1, n1) == SpoolOf(h2, n2)
    ensures MetaOf(h1, n1) != KeptOf(h2, n2)
  {
    HostProper(h1, n1);
    HostProper(h2, n2);
    if MetaOf(h1, n1) == MetaOf(h2, n2) {
      var a, b := h1 + [ACTIVE_JOBS] + [n1], h2 + [ACTIVE_JOBS] + [n2];
      RootedInjective(a + [METADATA_FILENAME], b + [METADATA_FILENAME]);
      SnocInjective(a, METADATA_FILENAME, b, METADATA_FILENAME);
    }
    if SpoolOf(h1, n1) == SpoolOf(h2, n2) {
      RootedInjective(h1 + [ACTIVE_JOBS] + [n1], h2 + [ACTIVE_JOBS] + [n2]);
      SnocInjective(h1 + [ACTIVE_JOBS], n1, h2 + [ACTIVE_JOBS], n2);
      SnocInjective(h1, ACTIVE_JOBS, h2, ACTIVE_JOBS);
    }
    if KeptOf(h1, n1) == KeptOf(h2, n2) {
      RootedInjective(h1 + [FAILED_RELEASE_DIR] + [n1 + ".tsv"], h2 + [FAILED_RELEASE_DIR] + [n2 + ".tsv"]);
      SnocInjective(h1 + [FAILED_RELEASE_DIR], n1 + ".tsv", h2 + [FAILED_RELEASE_DIR], n2 + ".tsv");
      SnocInjective(h1, FAILED_RELEASE_DIR, h2, FAILED_RELEASE_DIR);
      assert n1 == (n1 + ".tsv")[..|n1 + ".tsv"| - 4];
      assert n2 == (n2 + ".tsv")[..|n2 + ".tsv"| - 4];
    }
    if MetaOf(h1, n1) == KeptOf(h2, n2) {
      RootedInjective(h1 + [ACTIVE_JOBS] + [n1] + [METADATA_FILENAME], h2 + [FAILED_RELEASE_DIR] + [n2 + ".tsv"]);
      SnocInjective(h1 + [ACTIVE_JOBS] + [n1], METADATA_FILENAME, h2 + [FAILED_RELEASE_DIR], n2 + ".tsv");
      SnocInjective(h1 + [ACTIVE_JOBS], n1, h2, FAILED_RELEASE_DIR);
    }
  }

  lemma SnocInjective(a: seq<string>, x: string, b: seq<string>, y: string)
    requires a + [x] == b + [y]
    ensures a == b && x == y
  {
    assert (a + [x])[|a|] == x && (b + [y])[|b|] == y;
    assert a == (a + [x])[..|a|] && b == (b + [y])[..|b|];
  }
}

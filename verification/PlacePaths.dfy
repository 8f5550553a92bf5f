/** The places of the lifecycle machine as paths on an execution host. */
module PlacePaths {
  import opened Decimal
  import opened Lifecycle
  import opened Paths
  import opened Publish
  import opened Spool
  import opened Text
  import opened Wrappers

  /** Files of <host>/active_jobs/<job>.<task>, and kept records below the host's directory. */
  function PathOf(host: seq<string>, p: Place): string {
    match p
    case InSpool(jobTask, name) => Rooted(host + [ACTIVE_JOBS] + [jobTask] + [name])
    case Kept(jobTask) => KeptOf(host, jobTask)
  }

  predicate Nameable(p: Place) {
    Proper(p.jobTask) && Proper(p.jobTask + ".tsv") && (p.InSpool? ==> Proper(p.name))
  }

  function NamesOf(host: seq<string>, p: Place): seq<string> {
    match p
    case InSpool(jobTask, name) => host + [ACTIVE_JOBS] + [jobTask] + [name]
    case Kept(jobTask) => host + [FAILED_RELEASE_DIR] + [jobTask + ".tsv"]
  }

  lemma NamesProper(host: seq<string>, p: Place)
    requires AllProper(host) && Nameable(p)
    ensures AllProper(NamesOf(host, p)) && PathOf(host, p) == Rooted(NamesOf(host, p))
  {
    HostProper(host, p.jobTask);
  }

  lemma SameNames(host: seq<string>, p: Place, q: Place)
    requires NamesOf(host, p) == NamesOf(host, q)
    ensures p == q
  {
    var a, b := NamesOf(host, p), NamesOf(host, q);
    var n := |host|;
    assert p.InSpool? <==> |a| == n + 3;
    assert q.InSpool? <==> |b| == n + 3;
    if p.InSpool? {
      assert a[n + 1] == p.jobTask && a[n + 2] == p.name;
      assert b[n + 1] == q.jobTask && b[n + 2] == q.name;
    } else {
      assert a[n + 1] == p.jobTask + ".tsv" && b[n + 1] == q.jobTask + ".tsv";
      assert p.jobTask == (p.jobTask + ".tsv")[..|p.jobTask + ".tsv"| - 4];
      assert q.jobTask == (q.jobTask + ".tsv")[..|q.jobTask + ".tsv"| - 4];
    }
  }

  /** Different places are different paths. */
  lemma PlacesAreApart(host: seq<string>, p: Place, q: Place)
    requires AllProper(host) && Nameable(p) && Nameable(q)
    ensures PathOf(host, p) == PathOf(host, q) <==> p == q
  {
    NamesProper(host, p);
    NamesProper(host, q);
    if PathOf(host, p) == PathOf(host, q) {
      RootedInjective(NamesOf(host, p), NamesOf(host, q));
      SameNames(host, p, q);
    }
  }

  /** The hooks compute these paths from the job's spool directory. */
  lemma PlacesAreResolved(host: seq<string>, jobTask: string)
    requires AllProper(host) && Proper(jobTask) && Proper(jobTask + ".tsv")
    ensures ResolveMetadataPath(SpoolOf(host, jobTask)) == Some(PathOf(host, MetaPlace(jobTask)))
    ensures KeptPath(PathOf(host, MetaPlace(jobTask))) == PathOf(host, Kept(jobTask))
  {
    PathsOf(host, jobTask);
  }

  // ---- The machine's files on the disk --------------------------------------------------

  /** A file the hooks make: a metadata file, a temporary one, or a kept record. */
  ghost predicate Made(p: Place) {
    && Proper(p.jobTask) && Proper(p.jobTask + ".tsv")
    && (p.InSpool? ==> p.name == METADATA_FILENAME || exists n :: p.name == TempName(n))
  }

  /** The host has the machine's files. */
  ghost predicate Shows(host: seq<string>, files: map<Place, string>, disk: Files) {
    forall p: Place :: Made(p) ==> ShowsAt(host, files, disk, p)
  }

  predicate ShowsAt(host: seq<string>, files: map<Place, string>, disk: Files, p: Place) {
    && (p in files <==> PathOf(host, p) in disk)
    && (p in files ==> disk[PathOf(host, p)] == files[p])
  }

  lemma NamesAreProper(n: nat)
    ensures Proper(METADATA_FILENAME) && Proper(TempName(n))
  {
    ItoaPlain(n);
    var name := TempName(n);
    assert name[0] == 'q' && METADATA_FILENAME[0] == 'q';
    assert '/' !in TEMP_PREFIX && '/' !in TEMP_SUFFIX;
  }

  lemma MadeNameable(p: Place)
    requires Made(p)
    ensures Nameable(p)
  {
    NamesAreProper(0);
    if p.InSpool? && p.name != METADATA_FILENAME {
      var n: nat :| p.name == TempName(n);
      NamesAreProper(n);
    }
  }

  /** Different files stay different files on the host. */
  lemma Apart(host: seq<string>, p: Place, q: Place)
    requires AllProper(host) && Made(p) && Made(q)
    ensures PathOf(host, p) == PathOf(host, q) <==> p == q
  {
    MadeNameable(p);
    MadeNameable(q);
    PlacesAreApart(host, p, q);
  }

  lemma ShowsPut(host: seq<string>, files: map<Place, string>, disk: Files, p: Place, text: string)
    requires AllProper(host) && Shows(host, files, disk) && Made(p)
    ensures Shows(host, files[p := text], disk[PathOf(host, p) := text])
  {
    forall q: Place | Made(q)
      ensures ShowsAt(host, files[p := text], disk[PathOf(host, p) := text], q)
    {
      Apart(host, p, q);
      assert ShowsAt(host, files, disk, q);
    }
  }

  lemma ShowsDrop(host: seq<string>, files: map<Place, string>, disk: Files, p: Place)
    requires AllProper(host) && Shows(host, files, disk) && Made(p)
    ensures Shows(host, files - {p}, disk - {PathOf(host, p)})
  {
    forall q: Place | Made(q)
      ensures ShowsAt(host, files - {p}, disk - {PathOf(host, p)}, q)
    {
      Apart(host, p, q);
      assert ShowsAt(host, files, disk, q);
    }
  }

  /** A host directory and the name of one of its jobs. */
  predicate IsHost(host: seq<string>, jobTask: string) {
    AllProper(host) && Proper(jobTask) && Proper(jobTask + ".tsv")
  }

  lemma TempOnHost(host: seq<string>, jobTask: string, temp: string) returns (n: nat)
    requires IsHost(host, jobTask) && IsTempIn(Dir(PathOf(host, MetaPlace(jobTask))), temp)
    ensures temp == PathOf(host, InSpool(jobTask, TempName(n))) && Made(InSpool(jobTask, TempName(n)))
  {
    var dir := Dir(PathOf(host, MetaPlace(jobTask)));
    var spool := host + [ACTIVE_JOBS] + [jobTask];
    HostProper(host, jobTask);
    NamesAreProper(0);
    DirBase(spool, METADATA_FILENAME);
    n :| temp == TempPath(dir, n);
    NamesAreProper(n);
    Below(spool, TempName(n));
    NoSlashAtEnd(host + [ACTIVE_JOBS], jobTask);
  }

  lemma NoSlashAtEnd(names: seq<string>, name: string)
    requires AllProper(names) && Proper(name)
    ensures !HasSuffix(Rooted(names + [name]), "/")
  {
    Below(names, name);
    var p := Rooted(names + [name]);
    assert p[|p| - 1] == name[|name| - 1];
  }
}

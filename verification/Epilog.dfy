/** The epilog: reads the record strictly, releases its token, and cleans up or keeps the record. */
module Epilog {
  import opened EnvList
  import opened JobEnv
  import opened Metadata
  import opened Prolog
  import opened Publish
  import opened ReleaseEnv
  import opened Sanitize
  import opened Spool
  import opened Wrappers

  /** What stands on the disk after a failed release: the record where it was, at the kept path, or at both. */
  ghost predicate Preserved(before: Files, after: Files, path: string): (kept: bool)
    ensures kept && path in before ==>
              || (path in after && after[path] == before[path])
              || (KeptPath(path) in after && after[KeptPath(path)] == before[path])
  {
    var target := KeptPath(path);
    || after == before
    || (path in before && target !in before
        && (after == before[target := before[path]] || after == before[target := before[path]] - {path}))
  }

  /** Every state from an index on is such a one. */
  ghost predicate AllPreserved(history: seq<Files>, from: nat, before: Files, path: string) {
    forall i | from <= i < |history| :: Preserved(before, history[i], path)
  }

  /** mkdir, link and unlink; an existing record of the same name is not replaced. */
  method PreserveFailedRelease(disk: Disk, path: string, dirOk: bool) returns (kept: Option<string>)
    requires disk.Valid()
    modifies disk
    ensures disk.Valid() && Preserved(old(disk.files), disk.files, path)
    ensures old(disk.history) <= disk.history && AllPreserved(disk.history, |old(disk.history)|, old(disk.files), path)
    ensures kept != None ==> kept.value == KeptPath(path) && kept.value in disk.files
                             && path in old(disk.files) && disk.files[kept.value] == old(disk.files)[path]
    ensures kept == None ==> disk.files == old(disk.files)
    ensures disk.Reliable() ==>
              && (kept != None <==> dirOk && path in old(disk.files) && KeptPath(path) !in old(disk.files))
              && (kept != None ==> disk.files == old(disk.files)[KeptPath(path) := old(disk.files)[path]] - {path})
  {
    if !dirOk {
      return None;
    }
    var target := KeptPath(path);
    var ok := disk.Link(path, target);
    if !ok {
      return None;
    }
    disk.Remove(path);
    return Some(target);
  }

  /** The settings are rebuilt, the backend is opened and the token is released. */
  method ReleaseRecord(p: Process, backend: Backend, config: Option<map<string, Definition>>, uid: Option<nat>,
                       opens: bool, rec: Record) returns (ok: bool)
    modifies p, backend
    ensures backend.acquired == old(backend.acquired)
    ensures backend.released == old(backend.released) + (if CanRebuild(old(p.env), config, rec, uid) && opens then [rec.token] else [])
    ensures ok <==> CanRebuild(old(p.env), config, rec, uid) && opens && !backend.releaseFails
    ensures ok ==>
              p.env == old(p.env) + MapOf(ReleasePairs(rec.name, rec.token, uid.value, SchedulerJobId(old(p.env)),
                                                       config.value[rec.name].environments))
    ensures backend.held == if ok then old(backend.held) - {rec.token} else old(backend.held)
  {
    ok := SetReleaseEnv(p, config, rec, uid);
    if !ok || !opens {
      return false;
    }
    ok := backend.Release(rec.token);
  }

  /** What the epilog finds: no spool directory, no file, an unreadable file, or one record. */
  datatype Finding = NoSpool | NoFile | Garbled | Found(rec: Record)

  function FindingOf(files: Files, spool: string, readable: bool): Finding {
    var path := ResolveMetadataPath(spool);
    if path == None then NoSpool
    else if path.value !in files then NoFile
    else if !readable || Read(files[path.value]).Err? then Garbled
    else Found(Read(files[path.value]).value)
  }

  /** The disk after the epilog, and at every call of it: the file removed after a release, kept otherwise. */
  ghost predicate Ended(before: Files, after: Files, path: string, released: bool) {
    if released then after == before || after == before - {path} else Preserved(before, after, path)
  }

  ghost predicate AllEnded(history: seq<Files>, from: nat, before: Files, path: string, released: bool) {
    forall i | from <= i < |history| :: Ended(before, history[i], path, released)
  }

  /** The epilog's run and its exit code. Only a missing spool directory and unreadable metadata
      exit 1; a failed release exits 0, and unless the release succeeded the record is still on disk. */
  method Run(p: Process, disk: Disk, backend: Backend, config: Option<map<string, Definition>>, uid: Option<nat>,
             opens: bool, readable: bool, dirOk: bool) returns (code: int, ghost released: bool)
    requires disk.Valid()
    modifies p, disk, backend
    ensures disk.Valid() && backend.acquired == old(backend.acquired)
    ensures var found := FindingOf(old(disk.files), Get(old(p.env), SPOOL_DIR), readable);
            && code == (if found.NoSpool? || found.Garbled? then 1 else 0)
            && (found.NoSpool? || found.NoFile? ==> disk.files == old(disk.files) && disk.history == old(disk.history))
            && var tried := found.Found? && CanRebuild(old(p.env), config, found.rec, uid) && opens;
               && backend.released == old(backend.released) + (if tried then [found.rec.token] else [])
               && (released <==> tried && !backend.releaseFails)
               && backend.held == (if released then old(backend.held) - {found.rec.token} else old(backend.held))
    ensures var path := ResolveMetadataPath(Get(old(p.env), SPOOL_DIR));
            path != None ==>
              && Ended(old(disk.files), disk.files, path.value, released) && old(disk.history) <= disk.history
              && AllEnded(disk.history, |old(disk.history)|, old(disk.files), path.value, released)
              && (disk.Reliable() && path.value in old(disk.files) ==>
                    disk.files == WithoutFaults(old(disk.files), path.value, released, dirOk))
  {
    released := false;
    var path := ResolveMetadataPath(Get(p.env, SPOOL_DIR));
    if path == None {
      return 1, false;
    }
    if path.value !in disk.files {
      return 0, false;
    }
    var rec := ReadStrictSingle(Some(disk.files[path.value]));
    var ok := false;
    code := 0;
    if !readable || rec.Err? {
      code := 1;
    } else {
      ok := ReleaseRecord(p, backend, config, uid, opens, rec.value);
    }
    released := ok;
    Finish(disk, path.value, ok, dirOk);
  }

  /** Where the file is after an epilog whose file calls all work. */
  function WithoutFaults(files: Files, path: string, released: bool, dirOk: bool): Files
    requires path in files
  {
    if released then files - {path}
    else if dirOk && KeptPath(path) !in files then files[KeptPath(path) := files[path]] - {path}
    else files
  }

  /** Removes the record of a released token, or keeps the other one. */
  method Finish(disk: Disk, path: string, released: bool, dirOk: bool)
    requires disk.Valid() && path in disk.files
    modifies disk
    ensures disk.Valid() && Ended(old(disk.files), disk.files, path, released) && old(disk.history) <= disk.history
    ensures AllEnded(disk.history, |old(disk.history)|, old(disk.files), path, released)
    ensures disk.Reliable() ==> disk.files == WithoutFaults(old(disk.files), path, released, dirOk)
  {
    if released {
      disk.Remove(path);
    } else {
      var kept := PreserveFailedRelease(disk, path, dirOk);
    }
  }

  /** Over any number of epilogs, whatever each of them finds and does, a kept record never changes. */
  lemma {:induction false} KeptStays(states: seq<Files>, paths: seq<string>, released: seq<bool>, kept: string)
    requires |states| == |paths| + 1 && |released| == |paths|
    requires forall i :: 0 <= i < |paths| ==> Ended(states[i], states[i + 1], paths[i], released[i])
    requires kept in states[0] && forall i :: 0 <= i < |paths| ==> paths[i] != kept
    ensures var last := states[|paths|]; kept in last && last[kept] == states[0][kept]
  {
    var n := |paths|;
    if n > 0 {
      KeptStays(states[..n], paths[..n - 1], released[..n - 1], kept);
      assert Ended(states[n - 1], states[n], paths[n - 1], released[n - 1]);
    }
  }
}

/** Backend settings can move the directory in which a prolog publishes its record. What the epilog of the
    job then finds, and what becomes of another job's record. */
module MovedRecord {
  import opened Coverage
  import opened Decimal
  import opened EnvList
  import opened Lifecycle
  import opened Metadata
  import opened PlacePaths
  import opened Publish
  import opened Refinement
  import opened Sanitize
  import opened Spool
  import opened Wrappers
  import E = Epilog
  import H = HookCommand
  import P = Prolog
  import R = PrologRun
  import V = ReleaseEnv

  /** After a publication in one directory, what an epilog finds from another. */
  lemma FoundAfter(before: Files, after: Files, moved: string, spool: string, rec: Record, readable: bool)
    requires R.Published(before, after, moved, rec) && Int64(rec.typ) && Int64(rec.epoch)
    ensures E.FindingOf(after, spool, readable)
            == if ResolveMetadataPath(spool) != ResolveMetadataPath(moved) then E.FindingOf(before, spool, readable)
               else if readable && Storable(rec) then E.Found(rec) else E.Garbled
  {
    RoundTripExactly(rec);
  }

  /** The epilog finds the record of a successful prolog exactly if the backend's settings leave the
      metadata file in the job's spool directory and the record can be read back; otherwise it finds what
      was there before. */
  lemma RecordFoundExactly(w: P.World, env: map<string, string>, cfg: H.HookOptions, backend: string, d: P.Definition, token: string,
                           before: Files, after: Files)
    requires R.Published(before, after, Get(R.EnvToPublish(w, env, cfg, backend, d, token), SPOOL_DIR), R.RecordOf(w, backend, d, token))
    requires Int64(d.typ) && Int64(w.now)
    ensures var rec, old', now := R.RecordOf(w, backend, d, token), E.FindingOf(before, Get(env, SPOOL_DIR), true),
                                  E.FindingOf(after, Get(env, SPOOL_DIR), true);
            var stays := ResolveMetadataPath(V.SpoolAfter(env, backend, d)) == ResolveMetadataPath(Get(env, SPOOL_DIR));
            && (old' != E.Found(rec) ==> (now == E.Found(rec) <==> stays && Storable(rec)))
            && (!stays ==> now == old')
  {
    V.SpoolMoves(w, env, cfg, backend, d, token);
    FoundAfter(before, after, V.SpoolAfter(env, backend, d), Get(env, SPOOL_DIR), R.RecordOf(w, backend, d, token), true);
  }

  /** Backend "SGE" with a setting "JOB_SPOOL_DIR" moves the file: the epilog finds nothing to release. */
  lemma RecordLost(w: P.World, env: map<string, string>, cfg: H.HookOptions, d: P.Definition, dir: string, token: string,
                   before: Files, after: Files)
    requires d == P.Definition(d.typ, "", [("JOB_SPOOL_DIR", dir)]) && Int64(d.typ) && Int64(w.now)
    requires R.Published(before, after, Get(R.EnvToPublish(w, env, cfg, "SGE", d, token), SPOOL_DIR), R.RecordOf(w, "SGE", d, token))
    requires E.FindingOf(before, Get(env, SPOOL_DIR), true).NoFile? && ResolveMetadataPath(dir) != ResolveMetadataPath(Get(env, SPOOL_DIR))
    ensures E.FindingOf(after, Get(env, SPOOL_DIR), true).NoFile?
  {
    V.SpoolSetting(env, d.typ, dir);
    RecordFoundExactly(w, env, cfg, "SGE", d, token, before, after);
  }

  // ---- Another job's record ----------------------------------------------------------------------

  predicate Holds(disk: Files, path: string, rec: Record) {
    path in disk && disk[path] == Encode([rec])
  }

  /** A publication leaves another token's record on disk exactly if the record has a file that is not the
      one written. */
  lemma OtherRecordStays(host: seq<string>, before: Files, after: Files, j: Job, moved: string, rec: Record)
    requires j.record != None && R.Published(before, after, moved, rec) && rec.token != j.record.value.token
    ensures var path := ResolveMetadataPath(moved);
            OnDisk(host, after, j)
            <==> exists p <- [MetaPlace(j.jobTask), Lifecycle.Kept(j.jobTask)] ::
                   Some(PathOf(host, p)) != path && Holds(before, PathOf(host, p), j.record.value)
  {
    if Encode([j.record.value]) == Encode([rec]) {
      EncodeInjective(j.record.value, rec);
    }
    var places := [MetaPlace(j.jobTask), Lifecycle.Kept(j.jobTask)];
    assert places[0] in places && places[1] in places;
    assert forall p <- places :: Holds(after, PathOf(host, p), j.record.value)
                                 <==> Some(PathOf(host, p)) != ResolveMetadataPath(moved) && Holds(before, PathOf(host, p), j.record.value);
  }

  /** So a backend whose settings name the spool directory of another job takes that job's record away:
      its token is held, no exception of the machine applies, and yet no record is on disk. */
  lemma OtherRecordReplaced(host: seq<string>, s: State, t: string, w: P.World, env: map<string, string>, cfg: H.HookOptions,
                            d: P.Definition, token: string, before: Files, after: Files)
    requires Reachable(s) && t in s.held && Shows(host, s.files, before) && token != t
    requires TokenOwned(s, t) && s.jobs[s.issuedTo[t]].record.value.token == t
    requires var j := s.jobs[s.issuedTo[t]];
             && IsHost(host, j.jobTask) && Recorded(s, j) && Lifecycle.Kept(j.jobTask) !in s.files
             && d == P.Definition(d.typ, "", [("JOB_SPOOL_DIR", SpoolOf(host, j.jobTask))])
    requires R.Published(before, after, Get(R.EnvToPublish(w, env, cfg, "SGE", d, token), SPOOL_DIR), R.RecordOf(w, "SGE", d, token))
    ensures var j := s.jobs[s.issuedTo[t]];
            && OnDisk(host, before, j) && !OnDisk(host, after, j)
            && !(Unpublished(j) || RollbackFailed(j) || Dropped(j))
  {
    var j := s.jobs[s.issuedTo[t]];
    TokenCoverage(s, t);
    V.SpoolSetting(env, d.typ, SpoolOf(host, j.jobTask));
    V.SpoolMoves(w, env, cfg, "SGE", d, token);
    OnlyFileReplaced(host, s, j, before, after, R.RecordOf(w, "SGE", d, token));
  }

  lemma OnlyFileReplaced(host: seq<string>, s: State, j: Job, before: Files, after: Files, rec: Record)
    requires IsHost(host, j.jobTask) && Shows(host, s.files, before) && j.record != None && rec.token != j.record.value.token
    requires Recorded(s, j) && Lifecycle.Kept(j.jobTask) !in s.files && R.Published(before, after, SpoolOf(host, j.jobTask), rec)
    ensures OnDisk(host, before, j) && !OnDisk(host, after, j)
  {
    PlacesAreResolved(host, j.jobTask);
    OtherRecordStays(host, before, after, j, SpoolOf(host, j.jobTask), rec);
    assert ShowsAt(host, s.files, before, MetaPlace(j.jobTask));
    assert ShowsAt(host, s.files, before, Lifecycle.Kept(j.jobTask));
  }
}

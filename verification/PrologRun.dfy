/** The prolog's run, step by step, and what its exit code promises. */
module PrologRun {
  import opened Decimal
  import opened EnvList
  import opened Grant
  import opened HookCommand
  import opened JobEnv
  import opened Metadata
  import opened Paths
  import opened Prolog
  import opened Publish
  import opened Sanitize
  import opened Spool
  import opened Text
  import opened Wrappers

  // ---- The request ---------------------------------------------------------------------

  datatype Request = NoRequest | Refused(error: Error) | Granted(backend: string)

  /** Reads the grant and checks it against the host's offer. */
  function RequestOf(w: World, env: map<string, string>, cfg: HookOptions): Request {
    var read := ReadRequest(w.request, Get(env, JOB_ID), cfg.resourceName);
    if read.Err? then (if IsNotFound(read.error) then NoRequest else Refused(read.error))
    else
      var name := ParseGrantedBackend(read.value);
      if name.Err? then Refused(JobError(Wrap(Plain)))
      else
        var offer := CheckHostOffers(w, cfg.resourceName, name.value);
        if offer != None then Refused(offer.value) else Granted(name.value)
  }

  /** The job's variables; the slots lookup may fail like the first one. */
  function SchedulerExport(w: World, env: map<string, string>, cfg: HookOptions): Result<seq<(string, string)>, Error> {
    if w.uid == None then Err(Wrap(Plain))
    else if cfg.slotsResourceName == "" then Ok(SchedulerPairs(w.uid.value, SchedulerJobId(env), None))
    else
      var read := ReadRequest(w.slotsRequest, Get(env, JOB_ID), cfg.slotsResourceName);
      if read.Err? then
        if IsNotFound(read.error) then Ok(SchedulerPairs(w.uid.value, SchedulerJobId(env), None)) else Err(read.error)
      else if w.slots(read.value) == None then Err(Wrap(Plain))
      else Ok(SchedulerPairs(w.uid.value, SchedulerJobId(env), w.slots(read.value)))
  }

  predicate HookCode(e: Error) {
    CodeOf(e) in [1, 99, 100]
  }

  lemma ReadCodes(a: Answer, jobId: string, resource: string)
    ensures var read := ReadRequest(a, jobId, resource); read.Err? ==> CodeOf(read.error) in [1, 99]
  {
  }

  lemma RequestCodes(w: World, env: map<string, string>, cfg: HookOptions)
    ensures var r := RequestOf(w, env, cfg); r.Refused? ==> HookCode(r.error)
  {
    ReadCodes(w.request, Get(env, JOB_ID), cfg.resourceName);
  }

  lemma ExportCodes(w: World, env: map<string, string>, cfg: HookOptions)
    ensures var x := SchedulerExport(w, env, cfg); x.Err? ==> HookCode(x.error)
  {
    ReadCodes(w.slotsRequest, Get(env, JOB_ID), cfg.slotsResourceName);
  }

  // ---- What the run answers when every write succeeds ---------------------------------------

  function EnvWithSettings(w: World, env: map<string, string>, backend: string, d: Definition): map<string, string> {
    env + MapOf(LogPairs(w.rustLog)) + MapOf(BackendPairs(backend, d.environments))
  }

  /** Everything exported before the token is acquired, in order. */
  function FirstPairs(w: World, env: map<string, string>, cfg: HookOptions, backend: string, d: Definition): seq<(string, string)> {
    var x := SchedulerExport(w, EnvWithSettings(w, env, backend, d), cfg);
    LogPairs(w.rustLog) + BackendPairs(backend, d.environments) + (if x.Ok? then x.value else [])
  }

  function ConfigVerdict(w: World, backend: string): Option<Error> {
    if !AllSettable(LogPairs(w.rustLog)) || w.config == None then Some(Wrap(Plain))
    else if backend !in w.config.value then Some(JobError(Wrap(Plain)))
    else if !AllSettable(BackendPairs(backend, w.config.value[backend].environments)) then Some(Wrap(Plain))
    else None
  }

  function JobVerdict(w: World, env: map<string, string>, cfg: HookOptions): Option<Error> {
    var x := SchedulerExport(w, env, cfg);
    if x.Err? then Some(Wrap(x.error)) else if !AllSettable(x.value) then Some(Wrap(Plain)) else None
  }

  /** The first check that fails before the token is asked for. */
  function SetUpVerdict(w: World, env: map<string, string>, cfg: HookOptions, backend: string): Option<Error> {
    if ConfigVerdict(w, backend) != None then ConfigVerdict(w, backend)
    else
      var job := JobVerdict(w, EnvWithSettings(w, env, backend, w.config.value[backend]), cfg);
      if job != None then job
      else if !w.opens then Some(Wrap(Plain))
      else if w.accessible == None then Some(RetryError(Wrap(Plain)))
      else if !w.accessible.value then Some(RetryError(Plain))
      else None
  }

  /** The environment in which the record is published. */
  function EnvToPublish(w: World, env: map<string, string>, cfg: HookOptions, backend: string, d: Definition, token: string)
    : map<string, string>
  {
    env + MapOf(FirstPairs(w, env, cfg, backend, d)) + MapOf(RuntimePairs(backend, token, TypeText(d)))
  }

  function RecordOf(w: World, backend: string, d: Definition, token: string): Record {
    Record(backend, d.typ, token, w.now)
  }

  /** The first check that fails for a granted backend. */
  function BackendVerdict(w: World, env: map<string, string>, cfg: HookOptions, backend: string): Option<Error> {
    var before := SetUpVerdict(w, env, cfg, backend);
    if before != None then before
    else if w.token == None then Some(RetryError(Wrap(Plain)))
    else
      var d := w.config.value[backend];
      PublishVerdict(w, env + MapOf(FirstPairs(w, env, cfg, backend, d)), backend, d, w.token.value)
  }

  /** The checks left once the token is there: its variables, the spool directory, the record. */
  function PublishVerdict(w: World, env: map<string, string>, backend: string, d: Definition, token: string): Option<Error> {
    var runtime := RuntimePairs(backend, token, TypeText(d));
    if !AllSettable(runtime) || Get(env + MapOf(runtime), SPOOL_DIR) == "" || !Writable(RecordOf(w, backend, d, token))
    then Some(Wrap(Plain)) else None
  }

  /** The first check that fails, if one does. */
  function Verdict(w: World, env: map<string, string>, cfg: HookOptions): Option<Error> {
    var request := RequestOf(w, env, cfg);
    match request
    case NoRequest => None
    case Refused(e) => Some(e)
    case Granted(backend) =>
      if Get(env, SPOOL_DIR) == "" || !w.envOpens then Some(Wrap(Plain)) else BackendVerdict(w, env, cfg, backend)
  }

  /** What a run for the backend writes to the job environment, if nothing stops it. */
  function RunPlan(w: World, env: map<string, string>, cfg: HookOptions, backend: string): seq<(string, string)> {
    if w.config == None || backend !in w.config.value then LogPairs(w.rustLog)
    else
      var d := w.config.value[backend];
      FirstPairs(w, env, cfg, backend, d) + (if w.token == None then [] else RuntimePairs(backend, w.token.value, TypeText(d)) + [SUCCESS])
  }

  /** The outcome r of a run whose verdict is v: it succeeds only if v does, it fails with v's code
      or with 1, and when nothing else is in the way it ends exactly as v says, unless the environment
      file stopped it on its way through the plan. */
  ghost predicate Follows(r: Option<Error>, v: Option<Error>, smooth: bool, je: Environment, plan: seq<(string, string)>)
    reads je
  {
    && (r == None ==> v == None)
    && (r != None && CodeOf(r.value) != 1 ==> v != None && CodeOf(v.value) == CodeOf(r.value))
    && (smooth ==> ExitCode(r) == ExitCode(v) || Stopped(je, plan))
  }

  lemma LongerPlan(sofar: seq<(string, string)>, plan: seq<(string, string)>, longer: seq<(string, string)>)
    requires sofar <= plan <= longer
    ensures sofar <= longer
  {
  }

  /** The log level comes first, then the settings, then all that precedes the token. */
  lemma PlanParts(w: World, env: map<string, string>, cfg: HookOptions, backend: string, written: seq<(string, string)>)
    ensures written + LogPairs(w.rustLog) <= written + RunPlan(w, env, cfg, backend)
    ensures w.config != None && backend in w.config.value ==>
              var d := w.config.value[backend];
              && written + LogPairs(w.rustLog) + BackendPairs(backend, d.environments) <= written + RunPlan(w, env, cfg, backend)
              && written + FirstPairs(w, env, cfg, backend, d) <= written + RunPlan(w, env, cfg, backend)
  {
  }

  function ErrorOf<T>(r: Result<T, Error>): Option<Error> {
    if r.Ok? then None else Some(r.error)
  }

  // ---- Inputs without line breaks -----------------------------------------------------------

  /** Nothing from outside breaks a line of the job environment or names the status variable. */
  ghost predicate Tame(w: World) {
    && (forall e :: '\n' !in w.message(e))
    && (w.rustLog != None ==> '\n' !in w.rustLog.value)
    && (w.token != None ==> '\n' !in w.token.value)
    && (w.config != None ==>
        forall backend <- w.config.value ::
          && AllGood(BackendPairs(backend, w.config.value[backend].environments))
          && '\n' !in w.config.value[backend].typeString)
  }

  lemma LogGood(w: World)
    requires Tame(w)
    ensures AllGood(LogPairs(w.rustLog))
  {
    assert "RUST_LOG" != PROLOG_STATUS;
  }

  lemma ItoaGood(i: int)
    ensures '\n' !in Itoa(i)
  {
    ItoaPlain(i);
  }

  lemma SchedulerKeys()
    ensures forall key <- [JOB_UID, QRMI_JOB_ID, JOB_SLOTS] :: key != PROLOG_STATUS && '\n' !in key
  {
  }

  lemma JobIdGood(env: map<string, string>)
    requires OneLineValues(env)
    ensures '\n' !in SchedulerJobId(env)
  {
  }

  lemma PairsGood(uid: nat, jobId: string, slots: Option<int>)
    requires '\n' !in jobId
    ensures AllGood(SchedulerPairs(uid, jobId, slots))
  {
    SchedulerKeys();
    ItoaGood(uid);
    if slots != None {
      ItoaGood(slots.value);
    }
    assert JOB_UID in [JOB_UID, QRMI_JOB_ID, JOB_SLOTS] && QRMI_JOB_ID in [JOB_UID, QRMI_JOB_ID, JOB_SLOTS];
    assert JOB_SLOTS in [JOB_UID, QRMI_JOB_ID, JOB_SLOTS];
  }

  lemma SchedulerGood(w: World, env: map<string, string>, cfg: HookOptions)
    requires OneLineValues(env) && SchedulerExport(w, env, cfg).Ok?
    ensures AllGood(SchedulerExport(w, env, cfg).value)
  {
    JobIdGood(env);
    var read := ReadRequest(w.slotsRequest, Get(env, JOB_ID), cfg.slotsResourceName);
    PairsGood(w.uid.value, SchedulerJobId(env),
              if cfg.slotsResourceName == "" || read.Err? then None else w.slots(read.value));
  }

  lemma RuntimeKeys(backend: string)
    requires '\n' !in backend
    ensures '\n' !in TokenKey(backend) && TokenKey(backend) != PROLOG_STATUS
    ensures forall key <- ["QRMI_JOB_QPU_RESOURCES", "QRMI_JOB_QPU_TYPES", "qrmi_resources", "qrmi_resource_types", "qrmi_acquired_count"]
              :: key != PROLOG_STATUS && '\n' !in key
  {
    var key := TokenKey(backend);
    assert key[|key| - 1] == 'N' && PROLOG_STATUS[|PROLOG_STATUS| - 1] == 's';
    assert |PROLOG_STATUS| == 18;
  }

  lemma RuntimeGood(backend: string, token: string, typ: string)
    requires '\n' !in backend && '\n' !in token && '\n' !in typ
    ensures AllGood(RuntimePairs(backend, token, typ))
  {
    RuntimeKeys(backend);
    assert '\n' !in "1";
  }

  lemma BackendGood(raw: string, name: string)
    requires ParseGrantedBackend(raw) == Ok(name)
    ensures '\n' !in name
  {
    forall i | 0 <= i < |name|
      ensures name[i] != '\n'
    {
      assert !Separator(name[i]);
    }
  }

  lemma RequestGood(w: World, env: map<string, string>, cfg: HookOptions)
    requires RequestOf(w, env, cfg).Granted?
    ensures '\n' !in RequestOf(w, env, cfg).backend
  {
    var read := ReadRequest(w.request, Get(env, JOB_ID), cfg.resourceName);
    BackendGood(read.value, RequestOf(w, env, cfg).backend);
  }

  // ---- Before the token ---------------------------------------------------------------------

  /** Opens the backend: settings, job variables, accessibility. */
  method PrepareBackend(w: World, je: Environment, cfg: HookOptions, backend: string) returns (r: Result<Definition, Error>)
    requires je.Valid() && !je.broken && je.torn == ""
    modifies je
    ensures je.Valid() && je.prior == old(je.prior)
    ensures r.Ok? ==> Prepared(w, je, cfg, backend, r.value, old(je.env), old(je.written))
    ensures Follows(ErrorOf(r), SetUpVerdict(w, old(je.env), cfg, backend), true, je,
                    old(je.written) + RunPlan(w, old(je.env), cfg, backend))
    ensures r.Err? ==> HookCode(r.error)
    ensures Tame(w) && old(Quiet(je)) ==> Quiet(je)
  {
    r := SetUpBackend(w, je, cfg, backend);
    if r.Err? {
      ReportError(je, w, r.error);
    }
  }

  /** The backend is configured, and everything that comes before the token has been exported. */
  ghost predicate Prepared(w: World, je: Environment, cfg: HookOptions, backend: string, d: Definition,
                           env: map<string, string>, written: seq<(string, string)>)
    reads je
  {
    && w.config != None && backend in w.config.value && d == w.config.value[backend]
    && je.written == written + FirstPairs(w, env, cfg, backend, d)
    && je.env == env + MapOf(FirstPairs(w, env, cfg, backend, d))
    && je.torn == "" && !je.broken
  }

  method SetUpBackend(w: World, je: Environment, cfg: HookOptions, backend: string) returns (r: Result<Definition, Error>)
    requires je.Valid() && !je.broken && je.torn == ""
    modifies je
    ensures je.Valid() && je.prior == old(je.prior)
    ensures r.Ok? ==> Prepared(w, je, cfg, backend, r.value, old(je.env), old(je.written))
    ensures Follows(ErrorOf(r), SetUpVerdict(w, old(je.env), cfg, backend), true, je,
                    old(je.written) + RunPlan(w, old(je.env), cfg, backend))
    ensures r.Err? ==> HookCode(r.error)
    ensures Tame(w) && old(Quiet(je)) ==> Quiet(je)
  {
    PlanParts(w, je.env, cfg, backend, je.written);
    r := ExportSettings(w, je, backend, je.env, cfg);
    if r.Ok? {
      var e := ExportJob(w, je, cfg, backend, r.value, old(je.env), old(je.written));
      if e != None {
        r := Err(e.value);
      } else if !w.opens {
        r := Err(Wrap(Plain));
      } else if w.accessible == None {
        r := Err(RetryError(Wrap(Plain)));
      } else if !w.accessible.value {
        r := Err(RetryError(Plain));
      }
    }
  }

  /** The job's variables. */
  method ExportJob(w: World, je: Environment, cfg: HookOptions, ghost backend: string, ghost d: Definition,
                   ghost env: map<string, string>, ghost written: seq<(string, string)>) returns (e: Option<Error>)
    requires je.Valid() && !je.broken && je.torn == "" && SettingsExported(w, je, backend, d, env, written)
    modifies je
    ensures je.Valid() && je.prior == old(je.prior)
    ensures e == None ==> Prepared(w, je, cfg, backend, d, env, written)
    ensures Follows(e, JobVerdict(w, EnvWithSettings(w, env, backend, d), cfg), true, je,
                    written + FirstPairs(w, env, cfg, backend, d))
    ensures e != None ==> HookCode(e.value)
    ensures Tame(w) && old(Quiet(je)) ==> Quiet(je)
  {
    var x := SchedulerExport(w, je.env, cfg);
    ExportCodes(w, je.env, cfg);
    if x.Err? {
      return Some(Wrap(x.error));
    }
    if Quiet(je) {
      SchedulerGood(w, je.env, cfg);
    }
    ThreeParts(env, written, LogPairs(w.rustLog), BackendPairs(backend, d.environments), x.value);
    var ok := SetAll(je, x.value);
    e := if ok then None else Some(Wrap(Plain));
  }

  /** The log level and the backend's settings have been exported. */
  ghost predicate SettingsExported(w: World, je: Environment, backend: string, d: Definition,
                                   env: map<string, string>, written: seq<(string, string)>)
    reads je
  {
    && w.config != None && backend in w.config.value && d == w.config.value[backend]
    && je.written == written + LogPairs(w.rustLog) + BackendPairs(backend, d.environments)
    && je.env == EnvWithSettings(w, env, backend, d) && je.torn == "" && !je.broken
  }

  /** The log level and the backend's settings. */
  method ExportSettings(w: World, je: Environment, backend: string, ghost env: map<string, string>, ghost cfg: HookOptions)
    returns (r: Result<Definition, Error>)
    requires je.Valid() && !je.broken && je.torn == "" && env == je.env
    modifies je
    ensures je.Valid() && je.prior == old(je.prior)
    ensures r.Ok? ==> SettingsExported(w, je, backend, r.value, env, old(je.written))
    ensures Follows(ErrorOf(r), ConfigVerdict(w, backend), true, je,
                    old(je.written) + RunPlan(w, env, cfg, backend))
    ensures r.Err? ==> HookCode(r.error)
    ensures Tame(w) && old(Quiet(je)) ==> Quiet(je)
  {
    if Tame(w) {
      LogGood(w);
    }
    PlanParts(w, env, cfg, backend, je.written);
    var ok := SetAll(je, LogPairs(w.rustLog));
    if !ok {
      return Err(Wrap(Plain));
    }
    if w.config == None {
      return Err(Wrap(Plain));
    }
    if backend !in w.config.value {
      return Err(JobError(Wrap(Plain)));
    }
    var d := w.config.value[backend];
    ok := SetAll(je, BackendPairs(backend, d.environments));
    r := if ok then Ok(d) else Err(Wrap(Plain));
  }

  lemma ThreeParts(env: map<string, string>, written: seq<(string, string)>, a: seq<(string, string)>,
                   b: seq<(string, string)>, c: seq<(string, string)>)
    ensures written + a + b + c == written + (a + b + c)
    ensures env + MapOf(a) + MapOf(b) + MapOf(c) == env + MapOf(a + b + c)
  {
    MapOfAppend(a, b);
    MapOfAppend(a + b, c);
    MapAssoc(env, MapOf(a), MapOf(b), MapOf(c));
    PairsAssoc(written, a, b, c);
  }

  lemma MapAssoc(k: map<string, string>, l: map<string, string>, m: map<string, string>, n: map<string, string>)
    ensures k + l + m + n == k + (l + m + n)
  {
  }

  lemma PairsAssoc(w: seq<(string, string)>, a: seq<(string, string)>, b: seq<(string, string)>, c: seq<(string, string)>)
    ensures w + a + b + c == w + (a + b + c)
  {
  }

  // ---- After the token --------------------------------------------------------------------------

  const SUCCESS := (PROLOG_STATUS, "success")

  /** After a failure the status is not "success", unless every check passed and the last write stopped
      inside that line. */
  ghost predicate QuietEnd(je: Environment, passed: bool)
    reads je
  {
    AllGood(je.written) && (je.torn != "" ==> Good(je.attempt) || (passed && je.attempt == SUCCESS))
  }

  /** The complete record stands at the metadata path of the spool directory. */
  ghost predicate Published(before: Files, after: Files, spool: string, rec: Record) {
    var path := ResolveMetadataPath(spool);
    path != None && after == before[path.value := Encode([rec])] && Writable(rec)
  }

  /** What the disk has looked like since an index of its history, and looks like now: untouched, or in a
      stage of the publication through the temporary file. */
  ghost predicate Traced(files: Files, history: seq<Files>, from: nat, before: Files, spool: string, rec: Record, temp: Option<string>) {
    if temp == None then files == before && |history| == from
    else
      var path := ResolveMetadataPath(spool);
      && path != None && IsTempIn(Dir(path.value), temp.value) && temp.value != path.value && temp.value !in before
      && Stages(history, from, OneRecord(before, path.value, temp.value, rec))
      && Stage(files, OneRecord(before, path.value, temp.value, rec))
  }

  /** The record is written to the spool directory. */
  method PublishRecord(disk: Disk, spool: string, rec: Record) returns (ok: bool, ghost temp: Option<string>)
    requires disk.Valid()
    modifies disk
    ensures disk.Valid() && old(disk.history) <= disk.history
    ensures Traced(disk.files, disk.history, |old(disk.history)|, old(disk.files), spool, rec, temp)
    ensures ok ==> Published(old(disk.files), disk.files, spool, rec)
    ensures ok ==> spool != "" && Writable(rec)
    ensures disk.Reliable() && NoTemps(old(disk.files)) && spool != "" && Writable(rec) ==> ok
  {
    temp := None;
    var path := ResolveMetadataPath(spool);
    if path == None {
      return false, None;
    }
    MetadataSuffix(spool);
    assert [rec][0] == rec;
    ghost var before := disk.files;
    ok, temp := WriteAtomic(disk, path.value, [rec]);
    if temp != None {
      OneRecordIs(before, path.value, temp.value, rec);
    }
  }

  /** Exports the token, publishes the record and claims success; or releases the token, once. */
  method PublishOrRelease(w: World, je: Environment, backend: Backend, disk: Disk, name: string, d: Definition, token: string)
    returns (r: Option<Error>, ghost temp: Option<string>)
    requires je.Valid() && je.torn == "" && disk.Valid()
    modifies je, backend, disk
    ensures je.Valid() && je.prior == old(je.prior) && disk.Valid()
    ensures backend.acquired == old(backend.acquired)
    ensures if r == None then backend.released == old(backend.released) else backend.released == old(backend.released) + [token]
    ensures backend.held == if r != None && !backend.releaseFails then old(backend.held) - {token} else old(backend.held)
    ensures r == None ==> Claimed(w, je, name, d, token, old(je.env), old(je.written))
    ensures r != None ==> CodeOf(r.value) == 1
    ensures var env := old(je.env) + MapOf(RuntimePairs(name, token, TypeText(d)));
            && old(disk.history) <= disk.history
            && Traced(disk.files, disk.history, |old(disk.history)|, old(disk.files), Get(env, SPOOL_DIR),
                      RecordOf(w, name, d, token), temp)
            && (r == None ==> Published(old(disk.files), disk.files, Get(env, SPOOL_DIR), RecordOf(w, name, d, token)))
            && Follows(r, PublishVerdict(w, old(je.env), name, d, token),
                       old(!je.broken) && disk.Reliable() && NoTemps(old(disk.files)), je,
                       old(je.written) + RuntimePairs(name, token, TypeText(d)) + [SUCCESS])
    ensures Tame(w) && old(Quiet(je)) && '\n' !in name && '\n' !in token && '\n' !in TypeText(d)
            ==> if r == None then AllGood(je.written[..|je.written| - 1])
                else QuietEnd(je, PublishVerdict(w, old(je.env), name, d, token) == None)
  {
    ghost var passed := PublishVerdict(w, je.env, name, d, token) == None;
    r, temp := TryPublish(w, je, disk, name, d, token);
    if r != None {
      GiveBack(w, je, backend, token, r.value, passed);
    }
  }

  /** The rollback: the token is released, whatever comes of it, and the failure is reported. */
  method GiveBack(w: World, je: Environment, backend: Backend, token: string, e: Error, ghost passed: bool)
    requires je.Valid()
    modifies je, backend
    ensures je.Valid() && je.prior == old(je.prior)
    ensures backend.acquired == old(backend.acquired) && backend.released == old(backend.released) + [token]
    ensures backend.held == if backend.releaseFails then old(backend.held) else old(backend.held) - {token}
    ensures old(je.broken) ==> je.broken && je.written == old(je.written) && je.attempt == old(je.attempt)
    ensures Tame(w) && (old(Quiet(je)) || old(QuietEnd(je, passed) && je.broken)) ==> QuietEnd(je, passed)
  {
    var released := backend.Release(token);
    ReportError(je, w, e);
  }

  /** The runtime variables and the success have been written. */
  ghost predicate Claimed(w: World, je: Environment, name: string, d: Definition, token: string,
                          env: map<string, string>, written: seq<(string, string)>)
    reads je
  {
    && je.written == written + RuntimePairs(name, token, TypeText(d)) + [SUCCESS] && je.torn == "" && !je.broken
    && je.env == env + MapOf(RuntimePairs(name, token, TypeText(d)) + [SUCCESS])
  }

  method TryPublish(w: World, je: Environment, disk: Disk, name: string, d: Definition, token: string)
    returns (r: Option<Error>, ghost temp: Option<string>)
    requires je.Valid() && je.torn == "" && disk.Valid()
    modifies je, disk
    ensures je.Valid() && je.prior == old(je.prior) && disk.Valid()
    ensures r != None ==> CodeOf(r.value) == 1
    ensures r == None ==> Claimed(w, je, name, d, token, old(je.env), old(je.written))
    ensures var env := old(je.env) + MapOf(RuntimePairs(name, token, TypeText(d)));
            && old(disk.history) <= disk.history
            && Traced(disk.files, disk.history, |old(disk.history)|, old(disk.files), Get(env, SPOOL_DIR),
                      RecordOf(w, name, d, token), temp)
            && (r == None ==> Published(old(disk.files), disk.files, Get(env, SPOOL_DIR), RecordOf(w, name, d, token)))
            && Follows(r, PublishVerdict(w, old(je.env), name, d, token),
                       old(!je.broken) && disk.Reliable() && NoTemps(old(disk.files)), je,
                       old(je.written) + RuntimePairs(name, token, TypeText(d)) + [SUCCESS])
    ensures old(Quiet(je)) && '\n' !in name && '\n' !in token && '\n' !in TypeText(d)
            ==> if r == None then AllGood(je.written[..|je.written| - 1])
                else Quiet(je) || (QuietEnd(je, PublishVerdict(w, old(je.env), name, d, token) == None) && je.broken)
  {
    temp := None;
    ghost var written, env := je.written, je.env;
    var ok := ExportRuntime(je, name, d, token);
    if ok {
      ok, temp := RecordAndClaim(w, je, disk, name, d, token, env, written, PublishVerdict(w, env, name, d, token) == None);
    }
    r := if ok then None else Some(Wrap(Plain));
  }

  /** The token and the other runtime variables. */
  method ExportRuntime(je: Environment, name: string, d: Definition, token: string) returns (ok: bool)
    requires je.Valid() && je.torn == ""
    modifies je
    ensures je.Valid() && je.prior == old(je.prior)
    ensures ok ==> Exported(je, name, d, token, old(je.env), old(je.written)) && AllSettable(RuntimePairs(name, token, TypeText(d)))
    ensures !ok && old(!je.broken) && AllSettable(RuntimePairs(name, token, TypeText(d)))
            ==> Stopped(je, old(je.written) + RuntimePairs(name, token, TypeText(d)) + [SUCCESS])
    ensures old(Quiet(je)) && '\n' !in name && '\n' !in token && '\n' !in TypeText(d) ==> Quiet(je)
  {
    if '\n' !in name && '\n' !in token && '\n' !in TypeText(d) {
      RuntimeGood(name, token, TypeText(d));
    }
    ghost var written, runtime := je.written, RuntimePairs(name, token, TypeText(d));
    ok := SetAll(je, RuntimePairs(name, token, TypeText(d)));
    if Stopped(je, written + runtime) {
      LongerPlan(je.written + [je.attempt], written + runtime, written + runtime + [SUCCESS]);
    }
  }

  ghost predicate Exported(je: Environment, name: string, d: Definition, token: string, env: map<string, string>, written: seq<(string, string)>)
    reads je
  {
    && je.torn == "" && !je.broken && je.written == written + RuntimePairs(name, token, TypeText(d))
    && je.env == env + MapOf(RuntimePairs(name, token, TypeText(d)))
  }

  /** The record is published, and success claimed. */
  method RecordAndClaim(w: World, je: Environment, disk: Disk, name: string, d: Definition, token: string,
                        ghost env: map<string, string>, ghost written: seq<(string, string)>, ghost passed: bool)
    returns (ok: bool, ghost temp: Option<string>)
    requires je.Valid() && disk.Valid() && Exported(je, name, d, token, env, written)
    requires passed <==> Get(je.env, SPOOL_DIR) != "" && Writable(RecordOf(w, name, d, token))
    modifies je, disk
    ensures je.Valid() && je.prior == old(je.prior) && disk.Valid() && old(disk.history) <= disk.history
    ensures ok ==> Claimed(w, je, name, d, token, env, written)
    ensures Traced(disk.files, disk.history, |old(disk.history)|, old(disk.files), Get(old(je.env), SPOOL_DIR), RecordOf(w, name, d, token), temp)
    ensures ok ==> Published(old(disk.files), disk.files, Get(old(je.env), SPOOL_DIR), RecordOf(w, name, d, token))
    ensures ok ==> passed
    ensures !ok && disk.Reliable() && NoTemps(old(disk.files)) && passed
            ==> Stopped(je, written + RuntimePairs(name, token, TypeText(d)) + [SUCCESS])
    ensures old(Quiet(je)) ==> if ok then AllGood(je.written[..|je.written| - 1])
                                 else Quiet(je) || (QuietEnd(je, passed) && je.broken)
  {
    ok, temp := PublishRecord(disk, Get(je.env, SPOOL_DIR), RecordOf(w, name, d, token));
    if ok {
      ok := ClaimSuccess(w, je, name, d, token, env, written);
    }
  }

  /** The last line of a successful run. */
  method ClaimSuccess(w: World, je: Environment, ghost name: string, ghost d: Definition, ghost token: string,
                      ghost env: map<string, string>, ghost written: seq<(string, string)>) returns (ok: bool)
    requires je.Valid() && je.torn == "" && !je.broken
    requires je.written == written + RuntimePairs(name, token, TypeText(d)) && je.env == env + MapOf(RuntimePairs(name, token, TypeText(d)))
    modifies je
    ensures je.Valid() && je.prior == old(je.prior)
    ensures ok ==> Claimed(w, je, name, d, token, env, written)
    ensures !ok ==> Stopped(je, old(je.written) + [SUCCESS])
    ensures old(Quiet(je)) ==> if ok then AllGood(je.written[..|je.written| - 1]) else QuietEnd(je, true) && je.broken
  {
    SuccessSettable();
    MapOfSnoc(RuntimePairs(name, token, TypeText(d)), SUCCESS);
    MergeLast(env, MapOf(RuntimePairs(name, token, TypeText(d))), PROLOG_STATUS, "success");
    ok := je.Set(PROLOG_STATUS, "success");
    assert ok ==> je.written[..|je.written| - 1] == old(je.written);
  }

  lemma SuccessSettable()
    ensures Settable(PROLOG_STATUS, "success")
  {
  }

  lemma MergeLast(m: map<string, string>, n: map<string, string>, key: string, value: string)
    ensures (m + n)[key := value] == m + n[key := value]
  {
  }

  // ---- The run ----------------------------------------------------------------------------------------

  /** Everything a successful run exports. */
  function AllPairs(w: World, env: map<string, string>, cfg: HookOptions, backend: string, d: Definition, token: string)
    : seq<(string, string)>
  {
    FirstPairs(w, env, cfg, backend, d) + RuntimePairs(backend, token, TypeText(d)) + [SUCCESS]
  }

  /** Nothing but the job environment file can stop the run: no call on the disk fails, and no temporary
      file is there yet. */
  ghost predicate Smooth(disk: Disk)
    reads disk
  {
    disk.Reliable() && NoTemps(disk.files)
  }

  function PlanOf(w: World, env: map<string, string>, cfg: HookOptions): seq<(string, string)> {
    var request := RequestOf(w, env, cfg);
    if request.Granted? then RunPlan(w, env, cfg, request.backend) else []
  }

  /** What a run, successful or not, has done with the backend's tokens. */
  twostate predicate Handled(backend: Backend, new ok: bool, new token: Option<string>)
    reads backend
  {
    if token == None then
      backend.acquired == old(backend.acquired) && backend.released == old(backend.released) && backend.held == old(backend.held)
    else
      && backend.acquired == old(backend.acquired) + [token.value]
      && (if ok then backend.released == old(backend.released) else backend.released == old(backend.released) + [token.value])
      && backend.held == if !ok && !backend.releaseFails then old(backend.held) + {token.value} - {token.value}
                         else old(backend.held) + {token.value}
  }

  /** The run with a token: what was exported if it succeeded, and what the disk has looked like since
      it started with this environment, these files and this history. */
  ghost predicate ServedFrom(w: World, je: Environment, disk: Disk, cfg: HookOptions, name: string, token: string, ok: bool,
                             temp: Option<string>, env: map<string, string>, files: Files, history: seq<Files>)
    reads je, disk
  {
    && w.config != None && name in w.config.value
    && var d := w.config.value[name];
       var spool := Get(EnvToPublish(w, env, cfg, name, d, token), SPOOL_DIR);
       && (ok ==>
             && je.torn == "" && !je.broken && je.written == AllPairs(w, env, cfg, name, d, token)
             && je.env == env + MapOf(AllPairs(w, env, cfg, name, d, token))
             && Published(files, disk.files, spool, RecordOf(w, name, d, token)))
       && history <= disk.history
       && Traced(disk.files, disk.history, |history|, files, spool, RecordOf(w, name, d, token), temp)
  }

  twostate predicate Served(w: World, je: Environment, disk: Disk, new cfg: HookOptions, new name: string, new token: string,
                            new ok: bool, new temp: Option<string>)
    reads je, disk
  {
    ServedFrom(w, je, disk, cfg, name, token, ok, temp, old(je.env), old(disk.files), old(disk.history))
  }

  /** The run of the prolog. `token` is the acquired token, if Acquire succeeded, and `temp` the name
      of the temporary file, if one was made. */
  method RunWithConfig(w: World, je: Environment, backend: Backend, disk: Disk, cfg: HookOptions)
    returns (r: Option<Error>, ghost token: Option<string>, ghost temp: Option<string>)
    requires je.Valid() && !je.broken && je.torn == "" && je.written == [] && disk.Valid()
    modifies je, backend, disk
    ensures je.Valid() && disk.Valid() && je.prior == old(je.prior)
    // The exit code: what the checks say, or 1 if a write failed.
    ensures Follows(r, Verdict(w, old(je.env), cfg), old(Smooth(disk)), je, PlanOf(w, old(je.env), cfg))
    ensures r != None ==> HookCode(r.value) && (token != None ==> CodeOf(r.value) == 1)
    ensures token != None ==> token == w.token
    // One release for a token, exactly on failure.
    ensures Handled(backend, r == None, token)
    // Without a token nothing is published; success without one means that nothing was requested.
    ensures token == None ==> disk.files == old(disk.files) && disk.history == old(disk.history)
    ensures r == None && token == None ==>
              RequestOf(w, old(je.env), cfg) == NoRequest && je.env == old(je.env) && je.file == old(je.file)
    // With one, success means that the complete record is published and everything exported.
    ensures token != None ==>
              var request := RequestOf(w, old(je.env), cfg);
              request.Granted? && Served(w, je, disk, cfg, request.backend, token.value, r == None, temp)
    // What the job environment file says about the outcome.
    ensures Tame(w) && OneLineValues(old(je.env)) ==>
              if r == None && token != None then AllGood(je.written[..|je.written| - 1])
              else QuietEnd(je, Verdict(w, old(je.env), cfg) == None)
  {
    token, temp := None, None;
    var request := RequestOf(w, je.env, cfg);
    RequestCodes(w, je.env, cfg);
    if request.NoRequest? {
      r := None;
    } else if request.Refused? {
      r := Some(request.error);
    } else if Get(je.env, SPOOL_DIR) == "" || !w.envOpens {
      r := Some(Wrap(Plain));
    } else {
      RequestGood(w, je.env, cfg);
      r, token, temp := ServeRequest(w, je, backend, disk, cfg, request.backend);
    }
  }

  /** The run for a granted backend, from the job environment to the published record. */
  method ServeRequest(w: World, je: Environment, backend: Backend, disk: Disk, cfg: HookOptions, name: string)
    returns (r: Option<Error>, ghost token: Option<string>, ghost temp: Option<string>)
    requires je.Valid() && !je.broken && je.torn == "" && je.written == [] && disk.Valid() && '\n' !in name
    modifies je, backend, disk
    ensures je.Valid() && disk.Valid() && je.prior == old(je.prior)
    ensures Follows(r, BackendVerdict(w, old(je.env), cfg, name),
                    old(Smooth(disk)), je, RunPlan(w, old(je.env), cfg, name))
    ensures Handled(backend, r == None, token)
    ensures if token == None then r != None && HookCode(r.value) && disk.files == old(disk.files) && disk.history == old(disk.history)
            else token == w.token && (r != None ==> CodeOf(r.value) == 1) && Served(w, je, disk, cfg, name, token.value, r == None, temp)
    ensures Tame(w) && OneLineValues(old(je.env)) ==>
              if r == None then AllGood(je.written[..|je.written| - 1])
              else QuietEnd(je, BackendVerdict(w, old(je.env), cfg, name) == None)
  {
    ghost var env0 := je.env;
    token, temp := None, None;
    var d := PrepareBackend(w, je, cfg, name);
    if d.Err? {
      r := Some(d.error);
      assert [] + RunPlan(w, env0, cfg, name) == RunPlan(w, env0, cfg, name);
      SetUpFailed(w, env0, cfg, name);
    } else {
      TypeTextGood(w, name, d.value);
      AfterSetUp(w, env0, cfg, name);
      assert [] + FirstPairs(w, env0, cfg, name, d.value) == FirstPairs(w, env0, cfg, name, d.value);
      r, token, temp := AcquireAndPublish(w, je, backend, disk, name, d.value, cfg, env0);
    }
  }

  lemma SetUpFailed(w: World, env: map<string, string>, cfg: HookOptions, backend: string)
    ensures SetUpVerdict(w, env, cfg, backend) != None ==> BackendVerdict(w, env, cfg, backend) == SetUpVerdict(w, env, cfg, backend)
  {
  }

  /** What is left of the verdict and of the plan once the backend is set up. */
  lemma AfterSetUp(w: World, env: map<string, string>, cfg: HookOptions, backend: string)
    requires SetUpVerdict(w, env, cfg, backend) == None
    ensures w.config != None && backend in w.config.value
    ensures var d := w.config.value[backend];
            if w.token == None then BackendVerdict(w, env, cfg, backend) == Some(RetryError(Wrap(Plain)))
            else
              && BackendVerdict(w, env, cfg, backend)
                 == PublishVerdict(w, env + MapOf(FirstPairs(w, env, cfg, backend, d)), backend, d, w.token.value)
              && RunPlan(w, env, cfg, backend)
                 == AllPairs(w, env, cfg, backend, d, w.token.value)
  {
    if w.token != None {
      var d := w.config.value[backend];
      var a, b := FirstPairs(w, env, cfg, backend, d), RuntimePairs(backend, w.token.value, TypeText(d));
      assert a + (b + [SUCCESS]) == a + b + [SUCCESS];
    }
  }

  lemma AllMerged(env: map<string, string>, first: seq<(string, string)>, runtime: seq<(string, string)>)
    ensures env + MapOf(first) + MapOf(runtime + [SUCCESS]) == env + MapOf(first + runtime + [SUCCESS])
    ensures first + (runtime + [SUCCESS]) == first + runtime + [SUCCESS]
  {
    MapOfAppend(first, runtime + [SUCCESS]);
    assert first + (runtime + [SUCCESS]) == first + runtime + [SUCCESS];
    TwoMerges(env, MapOf(first), MapOf(runtime + [SUCCESS]));
  }

  /** From the acquisition on; the first pairs have been exported. */
  method AcquireAndPublish(w: World, je: Environment, backend: Backend, disk: Disk, name: string, d: Definition,
                           ghost cfg: HookOptions, ghost env: map<string, string>)
    returns (r: Option<Error>, ghost token: Option<string>, ghost temp: Option<string>)
    requires je.Valid() && disk.Valid() && Prepared(w, je, cfg, name, d, env, [])
    modifies je, backend, disk
    ensures je.Valid() && disk.Valid() && je.prior == old(je.prior)
    ensures Handled(backend, r == None, token) && token == w.token
    ensures token == None ==> r == Some(RetryError(Wrap(Plain))) && disk.files == old(disk.files) && disk.history == old(disk.history)
    ensures token != None ==>
              && (r != None ==> CodeOf(r.value) == 1)
              && ServedFrom(w, je, disk, cfg, name, token.value, r == None, temp, env, old(disk.files), old(disk.history))
              && Follows(r, PublishVerdict(w, old(je.env), name, d, token.value), old(Smooth(disk)), je,
                         AllPairs(w, env, cfg, name, d, token.value))
    ensures Tame(w) && old(Quiet(je)) && '\n' !in name && '\n' !in TypeText(d)
            ==> if r == None then AllGood(je.written[..|je.written| - 1])
                else QuietEnd(je, token != None && PublishVerdict(w, old(je.env), name, d, token.value) == None)
  {
    token, temp := w.token, None;
    var acquired := backend.Acquire(w.token);
    if acquired == None {
      r := Some(RetryError(Wrap(Plain)));
      ReportError(je, w, r.value);
    } else {
      assert [] + FirstPairs(w, env, cfg, name, d) == FirstPairs(w, env, cfg, name, d);
      r, temp := PublishOrRelease(w, je, backend, disk, name, d, acquired.value);
      AllMerged(env, FirstPairs(w, env, cfg, name, d), RuntimePairs(name, acquired.value, TypeText(d)));
    }
  }

  lemma TwoMerges(k: map<string, string>, l: map<string, string>, m: map<string, string>)
    ensures k + l + m == k + (l + m)
  {
  }

  lemma TypeTextGood(w: World, backend: string, d: Definition)
    requires w.config != None && backend in w.config.value && w.config.value[backend] == d
    ensures Tame(w) ==> '\n' !in TypeText(d)
  {
    ItoaGood(d.typ);
  }

  // ---- What a reader of the job environment file learns ---------------------------------------------------

  lemma {:induction false} StatusOf(pairs: seq<(string, string)>)
    requires AllGood(pairs)
    ensures PROLOG_STATUS in MapOf(pairs) ==> MapOf(pairs)[PROLOG_STATUS] == "error"
  {
    if pairs != [] {
      StatusOf(pairs[..|pairs| - 1]);
    }
  }

  lemma GoodLines(written: seq<(string, string)>)
    requires AllGood(written) && forall i :: 0 <= i < |written| ==> '=' !in written[i].0
    ensures forall i :: 0 <= i < |written| ==> OneLine(written[i])
  {
    forall i | 0 <= i < |written|
      ensures OneLine(written[i])
    {
      assert Good(written[i]);
    }
  }

  lemma StatusLine(value: string)
    requires value in ["success", "error"]
    ensures OneLine((PROLOG_STATUS, value)) && Cut(Pair(PROLOG_STATUS, value), '=') == (PROLOG_STATUS, value, true)
  {
    ReportKeys("");
    assert '=' !in PROLOG_STATUS && '\n' !in "success" && '\n' !in "error";
    CutPair(PROLOG_STATUS, value);
  }

  lemma ReplayWhole(prior: string, written: seq<(string, string)>)
    requires Complete(prior) && forall i :: 0 <= i < |written| ==> OneLine(written[i])
    ensures Replay(prior + EnvText(written)) == Replay(prior) + MapOf(written)
  {
    ReplayFile(prior, written, "");
    assert prior + EnvText(written) + "" == prior + EnvText(written);
    assert !Cut("", '=').2;
  }

  lemma LastSetWins(prior: string, before: seq<(string, string)>, last: (string, string))
    requires Complete(prior) && OneLine(last) && forall i :: 0 <= i < |before| ==> OneLine(before[i])
    ensures Get(Replay(prior + EnvText(before + [last])), last.0) == last.1
  {
    ReplayWhole(prior, before + [last]);
    MapOfSnoc(before, last);
  }

  /** The file reports success after a successful run. */
  lemma SuccessReported(prior: string, before: seq<(string, string)>)
    requires Complete(prior) && AllGood(before) && forall i :: 0 <= i < |before| ==> '=' !in before[i].0
    ensures Get(Replay(prior + EnvText(before + [SUCCESS])), PROLOG_STATUS) == "success"
  {
    GoodLines(before);
    StatusLine("success");
    LastSetWins(prior, before, SUCCESS);
  }

  /** After any other run it does so exactly when the last write stopped between "success" and its newline. */
  lemma FailureReported(prior: string, written: seq<(string, string)>, torn: string, attempt: (string, string))
    requires Complete(prior) && Get(Replay(prior), PROLOG_STATUS) != "success"
    requires AllGood(written) && forall i :: 0 <= i < |written| ==> '=' !in written[i].0
    requires torn != "" ==> torn <= Pair(attempt.0, attempt.1) && '=' !in attempt.0 && (Good(attempt) || attempt == SUCCESS)
    ensures Get(Replay(prior + EnvText(written) + torn), PROLOG_STATUS) == "success"
            <==> torn == Pair(PROLOG_STATUS, "success")
  {
    GoodLines(written);
    TornOrNothing(torn, attempt);
    ReplayFile(prior, written, torn);
    QuietStatus(Replay(prior), written);
    StatusLine("success");
    BindStatus(Replay(prior) + MapOf(written), torn);
  }

  lemma QuietStatus(m: map<string, string>, written: seq<(string, string)>)
    requires AllGood(written) && Get(m, PROLOG_STATUS) != "success"
    ensures Get(m + MapOf(written), PROLOG_STATUS) != "success"
  {
    StatusOf(written);
    assert "error" != "success";
  }

  lemma TornOrNothing(torn: string, attempt: (string, string))
    requires torn != "" ==> torn <= Pair(attempt.0, attempt.1) && '=' !in attempt.0 && (Good(attempt) || attempt == SUCCESS)
    ensures '\n' !in torn
    ensures var (key, value, ok) := Cut(torn, '=');
            ok && key == PROLOG_STATUS && value == "success" ==> torn == Pair(PROLOG_STATUS, "success")
  {
    if torn != "" {
      TornLine(torn, attempt);
    }
  }

  lemma BindStatus(m: map<string, string>, torn: string)
    requires Get(m, PROLOG_STATUS) != "success"
    requires var (key, value, ok) := Cut(torn, '=');
             ok && key == PROLOG_STATUS && value == "success" ==> torn == Pair(PROLOG_STATUS, "success")
    requires Cut(Pair(PROLOG_STATUS, "success"), '=') == (PROLOG_STATUS, "success", true)
    ensures Get(Bind(m, torn), PROLOG_STATUS) == "success" <==> torn == Pair(PROLOG_STATUS, "success")
  {
  }

  lemma TornLine(torn: string, attempt: (string, string))
    requires torn <= Pair(attempt.0, attempt.1) && '=' !in attempt.0 && (Good(attempt) || attempt == SUCCESS)
    ensures '\n' !in torn
    ensures var (key, value, ok) := Cut(torn, '=');
            ok && key == PROLOG_STATUS && value == "success" ==> torn == Pair(PROLOG_STATUS, "success")
    ensures var (key, value, ok) := Cut(torn, '=');
            ok ==> torn == Pair(key, value)
  {
    ReportKeys("");
    assert '\n' !in "success";
    forall i | 0 <= i < |torn|
      ensures torn[i] != '\n'
    {
      assert torn[i] == Pair(attempt.0, attempt.1)[i];
    }
    var i := IndexOf(torn, '=');
    if i < |torn| {
      assert torn == torn[..i] + "=" + torn[i + 1..];
    }
  }

  /** What the file says, for a run that succeeded or not. */
  lemma StatusReported(je: Environment, success: bool, passed: bool)
    requires je.Valid() && Complete(je.prior) && Get(Replay(je.prior), PROLOG_STATUS) != "success"
    requires success ==> je.torn == "" && je.written != [] && je.written[|je.written| - 1] == SUCCESS
                         && AllGood(je.written[..|je.written| - 1])
    requires !success ==> QuietEnd(je, passed)
    ensures Get(Replay(je.file), PROLOG_STATUS) == "success"
            <==> success || je.torn == Pair(PROLOG_STATUS, "success")
    ensures je.torn == Pair(PROLOG_STATUS, "success") ==> !success && passed && je.attempt == SUCCESS
  {
    if success {
      var before := je.written[..|je.written| - 1];
      assert je.written == before + [SUCCESS];
      assert je.file == je.prior + EnvText(je.written);
      SuccessReported(je.prior, before);
    } else {
      FailureReported(je.prior, je.written, je.torn, je.attempt);
      if je.torn != "" && Good(je.attempt) {
        GoodIsNoSuccess(je.attempt, je.torn);
      }
    }
  }

  lemma SameKey(key: string, value: string, k: string, v: string)
    requires '=' !in key && '=' !in k && Pair(k, v) <= Pair(key, value)
    ensures key == k && v <= value
  {
    var whole, part := Pair(key, value), Pair(k, v);
    assert whole[|k|] == part[|k|] == '=';
    assert forall i :: 0 <= i < |k| ==> whole[i] == part[i] == k[i] != '=';
    assert whole[|key|] == '=';
    assert whole[..|k|] == part[..|k|] == k && whole[..|key|] == key;
    assert v == part[|k| + 1..] && value == whole[|k| + 1..];
  }

  lemma GoodIsNoSuccess(attempt: (string, string), torn: string)
    requires Good(attempt) && '=' !in attempt.0 && torn <= Pair(attempt.0, attempt.1)
    ensures torn != Pair(PROLOG_STATUS, "success")
  {
    assert |"error"| == 5 && |"success"| == 7 && '=' !in PROLOG_STATUS;
    if Pair(PROLOG_STATUS, "success") <= Pair(attempt.0, attempt.1) {
      SameKey(attempt.0, attempt.1, PROLOG_STATUS, "success");
    }
  }

  /** The prolog program behind the launcher: arguments, run, exit code. The file's last status is
      "success" exactly after a run that returns zero with a token, unless the write of that very
      line failed just before its newline. */
  method RunProlog(w: World, je: Environment, backend: Backend, disk: Disk, args: seq<string>)
    returns (code: int, ghost token: Option<string>, ghost temp: Option<string>)
    requires je.Valid() && !je.broken && je.torn == "" && je.written == [] && disk.Valid()
    modifies je, backend, disk
    ensures je.Valid() && disk.Valid() && je.prior == old(je.prior)
    ensures code in [0, 1, 99, 100] && (token != None ==> code in [0, 1] && token == w.token)
    ensures Handled(backend, code == 0, token)
    ensures token == None ==> disk.files == old(disk.files) && disk.history == old(disk.history)
    ensures var cfg := ParsePrologArgs(args);
            if cfg.Err? then code == 1 && token == None
            else
              && code in [1, ExitCode(Verdict(w, old(je.env), cfg.value.0))]
              && (code == 0 ==> Verdict(w, old(je.env), cfg.value.0) == None)
              && (old(Smooth(disk)) ==>
                    code == ExitCode(Verdict(w, old(je.env), cfg.value.0))
                    || (!je.Reliable() && Stopped(je, PlanOf(w, old(je.env), cfg.value.0))))
              && (code == 0 && token == None ==> RequestOf(w, old(je.env), cfg.value.0) == NoRequest)
              && (token != None ==>
                    var request := RequestOf(w, old(je.env), cfg.value.0);
                    request.Granted?
                    && Served(w, je, disk, cfg.value.0, request.backend, token.value, code == 0, temp))
    ensures Tame(w) && OneLineValues(old(je.env)) && Complete(je.prior) && Get(Replay(je.prior), PROLOG_STATUS) != "success"
            ==> (Get(Replay(je.file), PROLOG_STATUS) == "success"
                 <==> (code == 0 && token != None) || je.torn == Pair(PROLOG_STATUS, "success"))
                && (je.torn == Pair(PROLOG_STATUS, "success") ==>
                      code != 0 && je.attempt == SUCCESS && ParsePrologArgs(args).Ok?
                      && Verdict(w, old(je.env), ParsePrologArgs(args).value.0) == None)
  {
    var cfg := ParsePrologArgs(args);
    token, temp := None, None;
    var r: Option<Error>;
    if cfg.Err? {
      r := Some(Plain);
    } else {
      r, token, temp := RunWithConfig(w, je, backend, disk, cfg.value.0);
    }
    code := ExitCode(r);
    if Tame(w) && OneLineValues(old(je.env)) && Complete(je.prior) && Get(Replay(je.prior), PROLOG_STATUS) != "success" {
      StatusReported(je, r == None && token != None, cfg.Ok? && Verdict(w, old(je.env), cfg.value.0) == None);
    }
  }
}

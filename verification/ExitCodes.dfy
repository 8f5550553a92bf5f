/** What the prolog's exit codes mean: the fault behind each of them, told from the inputs alone. */
module ExitCodes {
  import opened Decimal
  import opened EnvList
  import opened FieldReader
  import opened Grant
  import opened HookCommand
  import opened JobEnv
  import opened Prolog
  import opened PrologRun
  import opened ReleaseEnv
  import opened Sanitize
  import opened Text
  import opened Wrappers

  // ---- How far the inputs take a run ------------------------------------------------------

  /** What the job asks for in the scheduler's answer. */
  function Asked(a: Answer, env: map<string, string>, resource: string): Option<string> {
    if Get(env, JOB_ID) == "" || !a.Printed? then None else ParseJobRequestedResource(a.text, resource)
  }

  /** The backend the job asks for. */
  function Named(w: World, env: map<string, string>, cfg: HookOptions): Option<string> {
    var grant := Asked(w.request, env, cfg.resourceName);
    if grant == None || ParseGrantedBackend(grant.value).Err? then None else Some(ParseGrantedBackend(grant.value).value)
  }

  /** The answer about the host: under its full name, or its short one if that failed. */
  function HostAnswer(w: World): Answer
    requires w.hostName != None
  {
    if !w.hostValues.Printed? && '.' in w.hostName.value then w.shortHostValues else w.hostValues
  }

  predicate Offered(w: World, cfg: HookOptions, backend: string) {
    w.hostName != None && HostAnswer(w).Printed? && Requested(HostAnswer(w).text, "complex_values", cfg.resourceName) == Some(backend)
  }

  /** The job asks for a backend the host offers, and its environment file takes the log level. */
  predicate Admitted(w: World, env: map<string, string>, cfg: HookOptions, backend: string) {
    Named(w, env, cfg) == Some(backend) && Offered(w, cfg, backend) && Get(env, SPOOL_DIR) != "" && w.envOpens
    && AllSettable(LogPairs(w.rustLog))
  }

  predicate Configured(w: World, env: map<string, string>, cfg: HookOptions, backend: string) {
    Admitted(w, env, cfg, backend) && w.config != None && backend in w.config.value
  }

  /** The settings of a configured backend are variables. */
  predicate SettingsFit(w: World, backend: string)
    requires w.config != None && backend in w.config.value
  {
    AllSettable(BackendPairs(backend, w.config.value[backend].environments))
  }

  /** The environment once the backend's settings are exported. */
  function WithSettings(w: World, env: map<string, string>, backend: string): map<string, string>
    requires w.config != None && backend in w.config.value
  {
    EnvWithSettings(w, env, backend, w.config.value[backend])
  }

  /** The job asks for slots, and what it asks for is no slot count. */
  predicate NoSlotCount(w: World, env: map<string, string>, cfg: HookOptions) {
    var slots := Asked(w.slotsRequest, env, cfg.slotsResourceName);
    cfg.slotsResourceName != "" && slots != None && w.slots(slots.value) == None
  }

  /** The owner is known, and so are the slots, if they are asked about. */
  predicate SlotsKnown(w: World, env: map<string, string>, cfg: HookOptions) {
    w.uid != None
    && (cfg.slotsResourceName == "" || (Get(env, JOB_ID) != "" && w.slotsRequest.Printed? && !NoSlotCount(w, env, cfg)))
  }

  predicate JobKnown(w: World, env: map<string, string>, cfg: HookOptions) {
    SlotsKnown(w, env, cfg) && NUL !in SchedulerJobId(env)
  }

  predicate Available(w: World) {
    w.accessible == Some(true) && w.token != None
  }

  /** The backend's name or type fits no variable, or a setting empties the spool directory. */
  predicate Unpublishable(w: World, env: map<string, string>, backend: string)
    requires w.config != None && backend in w.config.value
  {
    var d := w.config.value[backend];
    !Settable(TokenKey(backend), "") || NUL in backend || NUL in d.typeString || SpoolAfter(env, backend, d) == ""
  }

  /** A token that a variable or a line of the metadata file cannot hold. */
  predicate Unstorable(token: string) {
    NUL in token || '\t' in token || '\n' in token
  }

  // ---- The faults -----------------------------------------------------------------------------

  /** The host or its configuration: no job id, an untrusted scheduler command, no host name, no job
      environment file, no configuration, settings or names that are no variables, an unknown owner, a
      backend that does not open, or a setting that empties the spool directory. */
  predicate HostFault(w: World, env: map<string, string>, cfg: HookOptions) {
    || Get(env, JOB_ID) == "" || w.request.Untrusted?
    || (Named(w, env, cfg) != None && HostFaultFor(w, env, cfg, Named(w, env, cfg).value))
  }

  predicate HostFaultFor(w: World, env: map<string, string>, cfg: HookOptions, backend: string) {
    || w.hostName == None || HostAnswer(w).Untrusted?
    || (Offered(w, cfg, backend)
        && (Get(env, SPOOL_DIR) == "" || !w.envOpens || !AllSettable(LogPairs(w.rustLog)) || w.config == None))
    || (Configured(w, env, cfg, backend) && (!SettingsFit(w, backend) || BackendFault(w, env, cfg, backend)))
  }

  predicate BackendFault(w: World, env: map<string, string>, cfg: HookOptions, backend: string)
    requires w.config != None && backend in w.config.value
  {
    var inner := WithSettings(w, env, backend);
    || JobFault(w, inner, cfg)
    || (JobKnown(w, inner, cfg) && (!w.opens || (Available(w) && Unpublishable(w, env, backend))))
  }

  /** The job asks for slots in a way that is no slot count. */
  predicate BadSlots(w: World, env: map<string, string>, cfg: HookOptions) {
    Named(w, env, cfg) != None && BadSlotsFor(w, env, cfg, Named(w, env, cfg).value)
  }

  predicate BadSlotsFor(w: World, env: map<string, string>, cfg: HookOptions, backend: string) {
    Configured(w, env, cfg, backend) && SettingsFit(w, backend)
    && w.uid != None && NoSlotCount(w, WithSettings(w, env, backend), cfg)
  }

  /** The backend gives out a token that cannot be stored. */
  predicate BadToken(w: World, env: map<string, string>, cfg: HookOptions) {
    Named(w, env, cfg) != None && BadTokenFor(w, env, cfg, Named(w, env, cfg).value)
  }

  predicate BadTokenFor(w: World, env: map<string, string>, cfg: HookOptions, backend: string) {
    Configured(w, env, cfg, backend) && SettingsFit(w, backend) && TokenFault(w, env, cfg, backend)
  }

  predicate TokenFault(w: World, env: map<string, string>, cfg: HookOptions, backend: string)
    requires w.config != None && backend in w.config.value
  {
    JobKnown(w, WithSettings(w, env, backend), cfg) && w.opens && Available(w)
    && !Unpublishable(w, env, backend) && Unstorable(w.token.value)
  }

  /** The scheduler does not answer, or the backend cannot be acquired now. */
  predicate Temporary(w: World, env: map<string, string>, cfg: HookOptions) {
    || (Get(env, JOB_ID) != "" && w.request.Unreachable?)
    || (Named(w, env, cfg) != None && TemporaryFor(w, env, cfg, Named(w, env, cfg).value))
  }

  predicate TemporaryFor(w: World, env: map<string, string>, cfg: HookOptions, backend: string) {
    || (w.hostName != None && HostAnswer(w).Unreachable?)
    || (Configured(w, env, cfg, backend) && SettingsFit(w, backend) && TemporaryFault(w, env, cfg, backend))
  }

  predicate TemporaryFault(w: World, env: map<string, string>, cfg: HookOptions, backend: string)
    requires w.config != None && backend in w.config.value
  {
    var inner := WithSettings(w, env, backend);
    || SlotsUnanswered(w, inner, cfg)
    || (JobKnown(w, inner, cfg) && w.opens && !Available(w))
  }

  /** The job asks for what cannot be served here: unreadable, not offered by the host, or not configured. */
  predicate Unservable(w: World, env: map<string, string>, cfg: HookOptions) {
    var grant := Asked(w.request, env, cfg.resourceName);
    grant != None
    && var backend := ParseGrantedBackend(grant.value);
       || backend.Err?
       || (w.hostName != None && HostAnswer(w).Printed? && !Offered(w, cfg, backend.value))
       || (Admitted(w, env, cfg, backend.value) && w.config != None && backend.value !in w.config.value)
  }

  // ---- The codes -------------------------------------------------------------------------------

  lemma RequestMeans(w: World, env: map<string, string>, cfg: HookOptions)
    ensures match RequestOf(w, env, cfg)
            case NoRequest => Get(env, JOB_ID) != "" && w.request.Printed? && Asked(w.request, env, cfg.resourceName) == None
            case Granted(backend) => Named(w, env, cfg) == Some(backend) && Offered(w, cfg, backend)
            case Refused(e) =>
              var named := Named(w, env, cfg);
              && (named != None ==> !Offered(w, cfg, named.value))
              && (CodeOf(e) == 1 <==> Get(env, JOB_ID) == "" || w.request.Untrusted?
                                      || (named != None && (w.hostName == None || HostAnswer(w).Untrusted?)))
              && (CodeOf(e) == 99 <==> (Get(env, JOB_ID) != "" && w.request.Unreachable?)
                                       || (named != None && w.hostName != None && HostAnswer(w).Unreachable?))
              && (CodeOf(e) == 100 <==> (Asked(w.request, env, cfg.resourceName) != None && named == None)
                                        || (named != None && w.hostName != None && HostAnswer(w).Printed?))
  {
  }

  /** The job's variables cannot be told, through a fault of the host. */
  predicate JobFault(w: World, env: map<string, string>, cfg: HookOptions) {
    || w.uid == None || (cfg.slotsResourceName != "" && (Get(env, JOB_ID) == "" || w.slotsRequest.Untrusted?))
    || (SlotsKnown(w, env, cfg) && NUL in SchedulerJobId(env))
  }

  predicate SlotsUnanswered(w: World, env: map<string, string>, cfg: HookOptions) {
    w.uid != None && cfg.slotsResourceName != "" && Get(env, JOB_ID) != "" && w.slotsRequest.Unreachable?
  }

  // ---- What os.Setenv accepts of the prolog's own variables ----

  lemma NumberSettable(key: string, i: int)
    requires Settable(key, "")
    ensures Settable(key, Itoa(i)) && NUL !in Itoa(i)
  {
    ItoaPlain(i);
  }

  lemma SchedulerSettable(uid: nat, jobId: string, slots: Option<int>)
    ensures AllSettable(SchedulerPairs(uid, jobId, slots)) <==> NUL !in jobId
  {
    assert Settable(JOB_UID, "") && Settable(QRMI_JOB_ID, "") && Settable(JOB_SLOTS, "");
    NumberSettable(JOB_UID, uid);
    if slots != None {
      NumberSettable(JOB_SLOTS, slots.value);
    }
    if jobId != "" {
      assert SchedulerPairs(uid, jobId, slots)[1] == (QRMI_JOB_ID, jobId);
    }
  }

  lemma NamesSettable()
    ensures forall name <- RuntimeNames() :: Settable(name, "")
  {
  }

  lemma RuntimeSettable(backend: string, token: string, typ: string)
    ensures AllSettable(RuntimePairs(backend, token, typ))
            <==> Settable(TokenKey(backend), token) && NUL !in backend && NUL !in typ
  {
    NamesSettable();
    var pairs := RuntimePairs(backend, token, typ);
    assert pairs[0].0 == TokenKey(backend) && pairs[1].1 == backend && pairs[2].1 == typ && NUL !in "1";
    forall i | 1 <= i < |pairs|
      ensures Settable(pairs[i].0, pairs[i].1) <==> NUL !in pairs[i].1
    {
      assert pairs[i].0 == RuntimeNames()[i - 1] && RuntimeNames()[i - 1] in RuntimeNames();
    }
  }

  lemma TypeSettable(d: Definition)
    ensures NUL !in TypeText(d) <==> NUL !in d.typeString
  {
    ItoaPlain(d.typ);
  }

  lemma NamePlain(raw: string, name: string)
    requires ParseGrantedBackend(raw) == Ok(name)
    ensures '\t' !in name && '\n' !in name
  {
    forall i | 0 <= i < |name|
      ensures name[i] != '\t' && name[i] != '\n'
    {
      assert !Separator(name[i]);
    }
  }

  // ---- The verdict's parts ----

  lemma JobMeans(w: World, env: map<string, string>, cfg: HookOptions)
    ensures var v := JobVerdict(w, env, cfg);
            && (v == None <==> JobKnown(w, env, cfg))
            && (v != None ==> CodeOf(v.value) in [1, 99] && (CodeOf(v.value) == 99 <==> SlotsUnanswered(w, env, cfg)))
    ensures JobKnown(w, env, cfg) || SlotsUnanswered(w, env, cfg) || JobFault(w, env, cfg) || (w.uid != None && NoSlotCount(w, env, cfg))
    ensures JobKnown(w, env, cfg) || SlotsUnanswered(w, env, cfg)
            ==> !JobFault(w, env, cfg) && !(w.uid != None && NoSlotCount(w, env, cfg))
    ensures JobKnown(w, env, cfg) ==> !SlotsUnanswered(w, env, cfg)
  {
    var x := SchedulerExport(w, env, cfg);
    if x.Ok? {
      ExportShape(w, env, cfg);
      SchedulerSettable(w.uid.value, SchedulerJobId(env), SlotsOf(w, env, cfg));
    }
  }

  /** The checks made with the token in hand. */
  lemma PublishMeans(w: World, env: map<string, string>, cfg: HookOptions, backend: string)
    requires w.config != None && backend in w.config.value && w.token != None && '\t' !in backend && '\n' !in backend
    ensures var v := PublishVerdict(w, env + MapOf(FirstPairs(w, env, cfg, backend, w.config.value[backend])), backend,
                                    w.config.value[backend], w.token.value);
            && ExitCode(v) in [0, 1]
            && (v != None <==> Unpublishable(w, env, backend) || Unstorable(w.token.value))
  {
    var d := w.config.value[backend];
    RuntimeSettable(backend, w.token.value, TypeText(d));
    TypeSettable(d);
    SpoolMoves(w, env, cfg, backend, d, w.token.value);
  }

  /** The rest of a run whose job is known. */
  lemma RestMeans(w: World, env: map<string, string>, cfg: HookOptions, backend: string, v: Option<Error>)
    requires w.config != None && backend in w.config.value && v == BackendVerdict(w, env, cfg, backend)
    requires AllSettable(LogPairs(w.rustLog)) && SettingsFit(w, backend) && '\t' !in backend && '\n' !in backend
    ensures var job := JobVerdict(w, WithSettings(w, env, backend), cfg);
            if job != None then v == job
            else
              && ExitCode(v) in [0, 1, 99]
              && (ExitCode(v) == 1 <==> !w.opens || (Available(w) && (Unpublishable(w, env, backend) || Unstorable(w.token.value))))
              && (ExitCode(v) == 99 <==> w.opens && !Available(w))
  {
    if w.token != None {
      PublishMeans(w, env, cfg, backend);
    }
  }

  lemma BackendMeans(w: World, env: map<string, string>, cfg: HookOptions, backend: string)
    requires w.config != None && backend in w.config.value && '\t' !in backend && '\n' !in backend
    requires AllSettable(LogPairs(w.rustLog)) && SettingsFit(w, backend)
    ensures var code := ExitCode(BackendVerdict(w, env, cfg, backend));
            && code in [0, 1, 99]
            && (code == 1 <==> BackendFault(w, env, cfg, backend) || TokenFault(w, env, cfg, backend)
                               || (w.uid != None && NoSlotCount(w, WithSettings(w, env, backend), cfg)))
            && (code == 99 <==> TemporaryFault(w, env, cfg, backend))
  {
    JobMeans(w, WithSettings(w, env, backend), cfg);
    RestMeans(w, env, cfg, backend, BackendVerdict(w, env, cfg, backend));
  }

  lemma UnconfiguredMeans(w: World, env: map<string, string>, cfg: HookOptions, backend: string)
    requires ConfigVerdict(w, backend) != None
    ensures ExitCode(BackendVerdict(w, env, cfg, backend))
            == if AllSettable(LogPairs(w.rustLog)) && w.config != None && backend !in w.config.value then 100 else 1
  {
  }

  lemma ConfigMeans(w: World, env: map<string, string>, cfg: HookOptions, backend: string)
    requires '\t' !in backend && '\n' !in backend
    ensures var code := ExitCode(BackendVerdict(w, env, cfg, backend));
            if !AllSettable(LogPairs(w.rustLog)) || w.config == None then code == 1
            else if backend !in w.config.value then code == 100
            else if !SettingsFit(w, backend) then code == 1
            else
              && code in [0, 1, 99]
              && (code == 1 <==> BackendFault(w, env, cfg, backend) || TokenFault(w, env, cfg, backend)
                                 || (w.uid != None && NoSlotCount(w, WithSettings(w, env, backend), cfg)))
              && (code == 99 <==> TemporaryFault(w, env, cfg, backend))
  {
    if ConfigVerdict(w, backend) == None {
      BackendMeans(w, env, cfg, backend);
    } else {
      UnconfiguredMeans(w, env, cfg, backend);
    }
  }

  lemma GrantedMeans(w: World, env: map<string, string>, cfg: HookOptions, backend: string, code: int)
    requires Named(w, env, cfg) == Some(backend) && Offered(w, cfg, backend) && '\t' !in backend && '\n' !in backend
    requires code == if Get(env, SPOOL_DIR) == "" || !w.envOpens then 1 else ExitCode(BackendVerdict(w, env, cfg, backend))
    ensures code in [0, 1, 99, 100]
    ensures code == 1 <==> HostFaultFor(w, env, cfg, backend) || BadSlotsFor(w, env, cfg, backend) || BadTokenFor(w, env, cfg, backend)
    ensures code == 99 <==> TemporaryFor(w, env, cfg, backend)
    ensures code == 100 <==> Admitted(w, env, cfg, backend) && w.config != None && backend !in w.config.value
  {
    ConfigMeans(w, env, cfg, backend);
  }

  lemma AskedNames(w: World, env: map<string, string>, cfg: HookOptions)
    requires Named(w, env, cfg) != None
    ensures Get(env, JOB_ID) != "" && w.request.Printed? && Asked(w.request, env, cfg.resourceName) != None
    ensures ParseGrantedBackend(Asked(w.request, env, cfg.resourceName).value) == Ok(Named(w, env, cfg).value)
  {
  }

  /** Every exit code, exactly. */
  lemma ExitCodeMeans(w: World, env: map<string, string>, cfg: HookOptions)
    ensures var code := ExitCode(Verdict(w, env, cfg));
            && code in [0, 1, 99, 100]
            && (code == 1 <==> HostFault(w, env, cfg) || BadSlots(w, env, cfg) || BadToken(w, env, cfg))
            && (code == 99 <==> Temporary(w, env, cfg))
            && (code == 100 <==> Unservable(w, env, cfg))
  {
    RequestMeans(w, env, cfg);
    var r := RequestOf(w, env, cfg);
    if r.Granted? {
      AskedNames(w, env, cfg);
      NamePlain(Asked(w.request, env, cfg.resourceName).value, r.backend);
      GrantedMeans(w, env, cfg, r.backend, ExitCode(Verdict(w, env, cfg)));
    } else {
      NotGranted(w, env, cfg);
    }
  }

  lemma NotGranted(w: World, env: map<string, string>, cfg: HookOptions)
    requires !RequestOf(w, env, cfg).Granted?
    ensures var code := ExitCode(Verdict(w, env, cfg));
            && code in [0, 1, 99, 100]
            && (code == 1 <==> HostFault(w, env, cfg) || BadSlots(w, env, cfg) || BadToken(w, env, cfg))
            && (code == 99 <==> Temporary(w, env, cfg))
            && (code == 100 <==> Unservable(w, env, cfg))
  {
    RequestMeans(w, env, cfg);
    if Named(w, env, cfg) != None {
      AskedNames(w, env, cfg);
    }
  }

  lemma BlameApart(w: World, env: map<string, string>, cfg: HookOptions)
    requires BadSlots(w, env, cfg) || BadToken(w, env, cfg)
    ensures !HostFault(w, env, cfg)
  {
    AskedNames(w, env, cfg);
    JobMeans(w, WithSettings(w, env, Named(w, env, cfg).value), cfg);
  }

  /** Code 1 is kept for faults of the host exactly when neither the job asks for a bad slot count nor
      the backend gives out a token that cannot be stored. */
  lemma HostErrorMeans(w: World, env: map<string, string>, cfg: HookOptions)
    ensures (ExitCode(Verdict(w, env, cfg)) == 1 ==> HostFault(w, env, cfg))
            <==> !BadSlots(w, env, cfg) && !BadToken(w, env, cfg)
  {
    ExitCodeMeans(w, env, cfg);
    if BadSlots(w, env, cfg) || BadToken(w, env, cfg) {
      BlameApart(w, env, cfg);
    }
  }

  // ---- A job that is blamed on the host ------------------------------------------------------------

  const TWO_ITEMS := [("qpu", "a"), ("slots", "0")]
  const ONE_ITEM := [("qpu", "a")]

  lemma NoBlanks(s: string)
    requires NoneOf(IsSpace, s)
    ensures TrimSpace(s) == s
  {
    assert "" + s + "" == s;
    TrimUnique(IsSpace, "", s, "");
  }

  lemma TheItems()
    ensures Join(ItemTexts(TWO_ITEMS), ",") == "qpu=a,slots=0" && Join(ItemTexts(ONE_ITEM), ",") == "qpu=a"
    ensures Trimmed(TWO_ITEMS) == TWO_ITEMS && Trimmed(ONE_ITEM) == ONE_ITEM
    ensures First(TWO_ITEMS, "qpu") == Some("a") && First(TWO_ITEMS, "slots") == Some("0") && First(ONE_ITEM, "qpu") == Some("a")
  {
    assert TWO_ITEMS[1..] == [("slots", "0")] && [("slots", "0")][1..] == [] && ONE_ITEM[1..] == [];
    NoBlanks("qpu");
    NoBlanks("a");
    NoBlanks("slots");
    NoBlanks("0");
  }

  const JOB_TEXT: string := HARD + (" " + "qpu=a,slots=0" + "") + "\n"
  const HOST_TEXT: string := "complex_values" + (" " + "qpu=a" + "") + "\n"

  /** Everything answers and works; the job asks for backend "a" and for slots as the function counts them. */
  function Working(slots: string -> Option<int>): World {
    World(Printed(JOB_TEXT), Some("n1"), Printed(HOST_TEXT), Untrusted, true, None, Some(map["a" := Definition(0, "direct", [])]),
          Some(1000), Printed(JOB_TEXT), slots, true, Some(true), Some("t"), 0, (e: Error) => "")
  }

  const JOB_ENV := map[JOB_ID := "7", SPOOL_DIR := "/spool/active_jobs/7.1"]
  const BOTH_NAMES := HookOptions("/etc/qrmi.json", "qpu", "slots", "/opt/qstat", "")

  lemma TheTexts()
    ensures ParseJobRequestedResource(JOB_TEXT, "qpu") == Some("a") && ParseJobRequestedResource(JOB_TEXT, "slots") == Some("0")
    ensures Requested(HOST_TEXT, "complex_values", "qpu") == Some("a")
  {
    TheItems();
    ShortLines();
    OnPlainLine(HARD, TWO_ITEMS, "qpu");
    OnPlainLine(HARD, TWO_ITEMS, "slots");
    OnPlainLine("complex_values", ONE_ITEM, "qpu");
  }

  lemma ShortLines()
    ensures ByteLen(HARD + (" " + "qpu=a,slots=0" + "")) < SCAN_LIMIT && ByteLen("complex_values" + (" " + "qpu=a" + "")) < SCAN_LIMIT
    ensures '\n' !in HARD && '\n' !in "complex_values"
  {
    Bytes(HARD + (" " + "qpu=a,slots=0" + ""));
    Bytes("complex_values" + (" " + "qpu=a" + ""));
  }

  lemma PlainName()
    ensures ParseGrantedBackend("a") == Ok("a")
  {
    assert "" + Prefix.NoKey.Text() + "a" + "" == "a";
    NameRecovered("a", "", Prefix.NoKey, "a", "");
  }

  lemma NoSettings(slots: string -> Option<int>)
    ensures EnvWithSettings(Working(slots), JOB_ENV, "a", Definition(0, "direct", [])) == JOB_ENV
    ensures Get(JOB_ENV, JOB_ID) == "7" && Get(JOB_ENV, SPOOL_DIR) != ""
  {
    assert MapOf([]) == map[];
    assert |JOB_ID| == 6 && |SPOOL_DIR| == 17;
  }

  lemma SlotsRefused(slots: string -> Option<int>)
    requires slots("0") == None
    ensures BadSlots(Working(slots), JOB_ENV, BOTH_NAMES)
  {
    TheTexts();
    PlainName();
    NoSettings(slots);
  }

  /** A slot request of "0" is refused with the host's code although nothing is wrong with the host. */
  lemma BadSlotsBlameHost(slots: string -> Option<int>)
    requires slots("0") == None
    ensures ExitCode(Verdict(Working(slots), JOB_ENV, BOTH_NAMES)) == 1
    ensures !HostFault(Working(slots), JOB_ENV, BOTH_NAMES)
  {
    SlotsRefused(slots);
    ExitCodeMeans(Working(slots), JOB_ENV, BOTH_NAMES);
    BlameApart(Working(slots), JOB_ENV, BOTH_NAMES);
  }

  /** Everything works, but the backend's token holds a tab. */
  function TabToken(slots: string -> Option<int>): World {
    Working(slots).(token := Some("t\tx"))
  }

  lemma TokenRefused(slots: string -> Option<int>)
    requires slots("0") != None
    ensures BadToken(TabToken(slots), JOB_ENV, BOTH_NAMES)
  {
    TheTexts();
    PlainName();
    NoSettings(slots);
    KnownJob(slots);
    PublishableA(slots);
    assert JobKnown(TabToken(slots), JOB_ENV, BOTH_NAMES);
    assert "t\tx"[1] == '\t';
  }

  /** Such a token is refused with the host's code although nothing is wrong with the host. */
  lemma BadTokenBlamesHost(slots: string -> Option<int>)
    requires slots("0") != None
    ensures ExitCode(Verdict(TabToken(slots), JOB_ENV, BOTH_NAMES)) == 1
    ensures !HostFault(TabToken(slots), JOB_ENV, BOTH_NAMES)
  {
    TokenRefused(slots);
    ExitCodeMeans(TabToken(slots), JOB_ENV, BOTH_NAMES);
    BlameApart(TabToken(slots), JOB_ENV, BOTH_NAMES);
  }

  lemma PublishableA(slots: string -> Option<int>)
    ensures !Unpublishable(Working(slots), JOB_ENV, "a")
  {
    NoSettings(slots);
    assert JOB_ENV + map[] == JOB_ENV && MapOf([]) == map[];
    KeySettable();
  }

  lemma KeySettable()
    ensures Settable(TokenKey("a"), "t") && NUL !in "a" && NUL !in "direct" && NUL !in "t"
  {
  }

  lemma AllPass(w: World, env: map<string, string>, cfg: HookOptions, backend: string)
    requires w.config != None && backend in w.config.value && JobKnown(w, WithSettings(w, env, backend), cfg)
    requires AllSettable(LogPairs(w.rustLog)) && SettingsFit(w, backend) && '\t' !in backend && '\n' !in backend
    requires w.opens && Available(w) && !Unpublishable(w, env, backend) && !Unstorable(w.token.value)
    ensures BackendVerdict(w, env, cfg, backend) == None
  {
    JobMeans(w, WithSettings(w, env, backend), cfg);
    PublishMeans(w, env, cfg, backend);
  }

  lemma AsksForA(slots: string -> Option<int>)
    ensures RequestOf(Working(slots), JOB_ENV, BOTH_NAMES) == Granted("a")
  {
    TheTexts();
    PlainName();
    NoSettings(slots);
    RequestMeans(Working(slots), JOB_ENV, BOTH_NAMES);
  }

  /** The same job on the same host succeeds if "0" counts as slots: nothing else is wrong. */
  lemma OtherwiseServed(slots: string -> Option<int>)
    requires slots("0") != None
    ensures RequestOf(Working(slots), JOB_ENV, BOTH_NAMES) == Granted("a")
    ensures Verdict(Working(slots), JOB_ENV, BOTH_NAMES) == None
  {
    AsksForA(slots);
    NoSettings(slots);
    KnownJob(slots);
    PublishableA(slots);
    KeySettable();
    AllPass(Working(slots), JOB_ENV, BOTH_NAMES, "a");
  }

  lemma KnownJob(slots: string -> Option<int>)
    requires slots("0") != None
    ensures JobKnown(Working(slots), JOB_ENV, BOTH_NAMES)
  {
    TheTexts();
    NoSettings(slots);
  }
}

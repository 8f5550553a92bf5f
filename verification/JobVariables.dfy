/** The variables a job is left with by its prolog, and those its epilog releases the token with, by their names. */
module JobVariables {
  import opened Decimal
  import opened EnvList
  import opened FieldReader
  import opened HookCommand
  import opened JobEnv
  import opened Paths
  import opened Prolog
  import opened PrologRun
  import opened ReleaseEnv
  import opened Sanitize
  import opened Spool
  import opened Text
  import opened Wrappers

  // ---- The job's name ------------------------------------------------------------------

  /** The job id with the task behind it, unless there is no task. */
  function JobName(job: string, task: string): string {
    if task in ["", "undefined", "0"] then job else job + "." + task
  }

  lemma JobNameIs(env: map<string, string>)
    ensures SchedulerJobId(env) == JobName(Get(env, "JOB_ID"), Get(env, "SGE_TASK_ID"))
  {
  }

  /** In the job's own spool directory, the name of an array task is that of the directory. */
  lemma NameIsDirectory(env: map<string, string>, root: string, fs: FsView)
    requires CheckSpoolDir(Get(env, "SGE_JOB_SPOOL_DIR"), root, Get(env, "JOB_ID"), Get(env, "SGE_TASK_ID"), fs)
    ensures SchedulerJobId(env)
            == if Get(env, "SGE_TASK_ID") in ["", "undefined", "0"] then Get(env, "JOB_ID")
               else Base(Get(env, "SGE_JOB_SPOOL_DIR"))
  {
  }

  // ---- The last pair of a name ----

  lemma {:induction false} LastWins(pairs: seq<(string, string)>, i: nat)
    requires i < |pairs| && forall j :: i < j < |pairs| ==> pairs[j].0 != pairs[i].0
    ensures pairs[i].0 in MapOf(pairs) && MapOf(pairs)[pairs[i].0] == pairs[i].1
  {
    var n := |pairs| - 1;
    if i < n {
      LastWins(pairs[..n], i);
    }
  }

  /** What the prolog writes with the token. */
  function TokenPairs(name: string, token: string, typ: string): seq<(string, string)> {
    RuntimePairs(name, token, typ) + [SUCCESS]
  }

  const FIXED_NAMES := ["QRMI_JOB_UID", "QRMI_JOB_ID", "QRMI_JOB_QPU_SLOTS", "QRMI_JOB_QPU_RESOURCES", "QRMI_JOB_QPU_TYPES",
                        "qrmi_resources", "qrmi_resource_types", "qrmi_acquired_count", "qrmi_prolog_status"]

  function TokenName(name: string): string {
    name + "_QRMI_JOB_ACQUISITION_TOKEN"
  }

  lemma TokenNameDiffers(name: string)
    ensures TokenName(name) !in FIXED_NAMES
  {
    var t := TokenName(name);
    assert t[|t| - 1] == "_QRMI_JOB_ACQUISITION_TOKEN"[26] == 'N';
  }

  lemma FixedNamesDiffer()
    ensures forall i, j :: 0 <= i < j < |FIXED_NAMES| ==> FIXED_NAMES[i] != FIXED_NAMES[j]
  {
    assert |"QRMI_JOB_UID"| == 12 && |"QRMI_JOB_ID"| == 11 && |"QRMI_JOB_QPU_SLOTS"| == 18 && |"QRMI_JOB_QPU_RESOURCES"| == 22;
    assert |"QRMI_JOB_QPU_TYPES"| == 18 && |"qrmi_resources"| == 14 && |"qrmi_resource_types"| == 19 && |"qrmi_acquired_count"| == 19;
    assert |"qrmi_prolog_status"| == 18 && "QRMI_JOB_QPU_SLOTS"[13] == 'S' && "QRMI_JOB_QPU_TYPES"[13] == 'T';
    assert "qrmi_prolog_status"[0] == 'q' && "QRMI_JOB_QPU_SLOTS"[0] == 'Q' && "QRMI_JOB_QPU_TYPES"[0] == 'Q';
    assert "qrmi_resource_types"[5] == 'r' && "qrmi_acquired_count"[5] == 'a';
  }

  lemma TokenPart(name: string, token: string, typ: string)
    ensures var m := MapOf(TokenPairs(name, token, typ));
            && Get(m, TokenName(name)) == token
            && Get(m, "QRMI_JOB_QPU_RESOURCES") == Get(m, "qrmi_resources") == name
            && Get(m, "QRMI_JOB_QPU_TYPES") == Get(m, "qrmi_resource_types") == typ
            && Get(m, "qrmi_acquired_count") == "1" && Get(m, "qrmi_prolog_status") == "success"
    ensures forall key <- [TokenName(name)] + FIXED_NAMES[3..] :: key in MapOf(TokenPairs(name, token, typ))
  {
    var pairs, names := TokenPairs(name, token, typ), [TokenName(name)] + FIXED_NAMES[3..];
    TokenNameDiffers(name);
    FixedNamesDiffer();
    assert forall i :: 1 <= i < 7 ==> names[i] == FIXED_NAMES[i + 2];
    TokenNames(name, token, typ);
    forall i | 0 <= i < 7
      ensures names[i] in MapOf(pairs) && MapOf(pairs)[names[i]] == pairs[i].1
    {
      LastWins(pairs, i);
    }
    assert names[0] == TokenName(name) && names[1] == "QRMI_JOB_QPU_RESOURCES" && names[2] == "QRMI_JOB_QPU_TYPES";
    assert names[3] == "qrmi_resources" && names[4] == "qrmi_resource_types" && names[5] == "qrmi_acquired_count";
    assert names[6] == "qrmi_prolog_status";
  }

  lemma TokenNames(name: string, token: string, typ: string)
    ensures var pairs, names := TokenPairs(name, token, typ), [TokenName(name)] + FIXED_NAMES[3..];
            |pairs| == |names| == 7 && forall i :: 0 <= i < 7 ==> pairs[i].0 == names[i]
  {
  }

  /** Which variables the prolog sets with the job's data. */
  lemma JobPart(uid: nat, id: string, slots: Option<int>)
    ensures var m := MapOf(SchedulerPairs(uid, id, slots));
            && "QRMI_JOB_UID" in m && m["QRMI_JOB_UID"] == Itoa(uid)
            && ("QRMI_JOB_ID" in m <==> id != "") && (id != "" ==> m["QRMI_JOB_ID"] == id)
            && ("QRMI_JOB_QPU_SLOTS" in m <==> slots != None) && (slots != None ==> m["QRMI_JOB_QPU_SLOTS"] == Itoa(slots.value))
  {
    SchedulerFixed(uid, id, slots);
    FixedNamesDiffer();
    var pairs := SchedulerPairs(uid, id, slots);
    if slots != None {
      LastWins(pairs, |pairs| - 1);
    } else {
      assert FIXED_NAMES[0] != FIXED_NAMES[2] && FIXED_NAMES[1] != FIXED_NAMES[2];
      NotSet(pairs, "QRMI_JOB_QPU_SLOTS");
    }
  }

  lemma TokenPartKeys(name: string, token: string, typ: string, key: string)
    ensures key in MapOf(TokenPairs(name, token, typ)) <==> key == TokenName(name) || key in FIXED_NAMES[3..]
    ensures key in FIXED_NAMES[..3] ==> key !in MapOf(TokenPairs(name, token, typ))
  {
    var pairs, names := TokenPairs(name, token, typ), [TokenName(name)] + FIXED_NAMES[3..];
    TokenPart(name, token, typ);
    TokenNames(name, token, typ);
    TokenNameDiffers(name);
    FixedNamesDiffer();
    if key !in names {
      forall p <- pairs
        ensures p.0 != key
      {
        var i :| 0 <= i < |pairs| && pairs[i] == p;
        assert names[i] in names;
      }
      NotSet(pairs, key);
    }
    if key in FIXED_NAMES[..3] {
      var i :| 0 <= i < 3 && FIXED_NAMES[..3][i] == key;
      assert FIXED_NAMES[i] == key && key in FIXED_NAMES;
      assert forall j :: 0 <= j < 6 ==> FIXED_NAMES[3..][j] == FIXED_NAMES[3 + j];
    }
  }

  lemma JobPartKeys(uid: nat, id: string, slots: Option<int>, key: string)
    requires key !in FIXED_NAMES[..3]
    ensures key !in MapOf(SchedulerPairs(uid, id, slots))
  {
    assert FIXED_NAMES[..3] == ["QRMI_JOB_UID", "QRMI_JOB_ID", "QRMI_JOB_QPU_SLOTS"];
    assert forall p <- SchedulerPairs(uid, id, slots) :: p.0 in FIXED_NAMES[..3];
    NotSet(SchedulerPairs(uid, id, slots), key);
  }

  /** The environment a successful prolog leaves, part by part. */
  lemma Leaves(w: World, env: map<string, string>, cfg: HookOptions, name: string, d: Definition, token: string)
    requires SchedulerExport(w, EnvWithSettings(w, env, name, d), cfg).Ok?
    ensures w.uid != None
    ensures var inner := EnvWithSettings(w, env, name, d);
            env + MapOf(AllPairs(w, env, cfg, name, d, token))
            == inner + MapOf(SchedulerPairs(w.uid.value, SchedulerJobId(inner), SlotsOf(w, inner, cfg)))
                     + MapOf(TokenPairs(name, token, TypeText(d)))
  {
    var inner := EnvWithSettings(w, env, name, d);
    var log, b := LogPairs(w.rustLog), BackendPairs(name, d.environments);
    ExportShape(w, inner, cfg);
    var job, rest := SchedulerPairs(w.uid.value, SchedulerJobId(inner), SlotsOf(w, inner, cfg)), TokenPairs(name, token, TypeText(d));
    assert AllPairs(w, env, cfg, name, d, token) == log + b + job + rest;
    MapOfAppend(log, b);
    MapOfAppend(log + b, job);
    MapOfAppend(log + b + job, rest);
    FourMerges(env, MapOf(log), MapOf(b), MapOf(job), MapOf(rest));
  }

  lemma FourMerges(env: map<string, string>, a: map<string, string>, b: map<string, string>, c: map<string, string>, d: map<string, string>)
    ensures env + (a + b + c + d) == env + a + b + c + d
  {
  }

  function SomeText(d: Definition): string {
    if d.typeString == "" then Itoa(d.typ) else d.typeString
  }

  /** The variables of a job whose prolog has succeeded: owner, name, token, backend and status. */
  lemma PrologVariables(w: World, env: map<string, string>, cfg: HookOptions, name: string, d: Definition, token: string)
    requires SchedulerExport(w, EnvWithSettings(w, env, name, d), cfg).Ok?
    ensures w.uid != None
    ensures var inner, final := EnvWithSettings(w, env, name, d), env + MapOf(AllPairs(w, env, cfg, name, d, token));
            var job := JobName(Get(inner, "JOB_ID"), Get(inner, "SGE_TASK_ID"));
            && Get(final, "QRMI_JOB_UID") == Itoa(w.uid.value)
            && Get(final, "QRMI_JOB_ID") == (if job == "" then Get(inner, "QRMI_JOB_ID") else job)
            && Get(final, TokenName(name)) == token
            && Get(final, "QRMI_JOB_QPU_RESOURCES") == Get(final, "qrmi_resources") == name
            && Get(final, "QRMI_JOB_QPU_TYPES") == Get(final, "qrmi_resource_types") == SomeText(d)
            && Get(final, "qrmi_acquired_count") == "1" && Get(final, "qrmi_prolog_status") == "success"
  {
    var inner := EnvWithSettings(w, env, name, d);
    Leaves(w, env, cfg, name, d, token);
    JobPart(w.uid.value, SchedulerJobId(inner), SlotsOf(w, inner, cfg));
    TokenPart(name, token, TypeText(d));
    JobNameIs(inner);
    FirstThree();
    TokenPartKeys(name, token, TypeText(d), "QRMI_JOB_UID");
    TokenPartKeys(name, token, TypeText(d), "QRMI_JOB_ID");
    SetLast(inner + MapOf(SchedulerPairs(w.uid.value, SchedulerJobId(inner), SlotsOf(w, inner, cfg))), name, token, TypeText(d));
  }

  /** The job asks for slots in these words. */
  predicate SlotsAsked(w: World, env: map<string, string>, cfg: HookOptions, raw: string) {
    && cfg.slotsResourceName != "" && Get(env, "JOB_ID") != "" && w.slotsRequest.Printed?
    && ParseJobRequestedResource(w.slotsRequest.text, cfg.slotsResourceName) == Some(raw)
  }

  /** And its slots, if it asks for some. */
  lemma PrologSlots(w: World, env: map<string, string>, cfg: HookOptions, name: string, d: Definition, token: string, raw: string)
    requires SchedulerExport(w, EnvWithSettings(w, env, name, d), cfg).Ok? && SlotsAsked(w, EnvWithSettings(w, env, name, d), cfg, raw)
    ensures w.slots(raw) != None
    ensures Get(env + MapOf(AllPairs(w, env, cfg, name, d, token)), "QRMI_JOB_QPU_SLOTS") == Itoa(w.slots(raw).value)
  {
    var inner := EnvWithSettings(w, env, name, d);
    Leaves(w, env, cfg, name, d, token);
    JobPart(w.uid.value, SchedulerJobId(inner), SlotsOf(w, inner, cfg));
    FirstThree();
    TokenPartKeys(name, token, TypeText(d), "QRMI_JOB_QPU_SLOTS");
  }

  lemma FirstThree()
    ensures "QRMI_JOB_UID" in FIXED_NAMES[..3] && "QRMI_JOB_ID" in FIXED_NAMES[..3] && "QRMI_JOB_QPU_SLOTS" in FIXED_NAMES[..3]
  {
    assert FIXED_NAMES[..3] == ["QRMI_JOB_UID", "QRMI_JOB_ID", "QRMI_JOB_QPU_SLOTS"];
  }

  /** What is set last stays. */
  lemma SetLast(before: map<string, string>, name: string, token: string, typ: string)
    ensures var final := before + MapOf(TokenPairs(name, token, typ));
            && Get(final, TokenName(name)) == token
            && Get(final, "QRMI_JOB_QPU_RESOURCES") == Get(final, "qrmi_resources") == name
            && Get(final, "QRMI_JOB_QPU_TYPES") == Get(final, "qrmi_resource_types") == typ
            && Get(final, "qrmi_acquired_count") == "1" && Get(final, "qrmi_prolog_status") == "success"
  {
    TokenPart(name, token, typ);
    LastSix();
    var names := [TokenName(name)] + FIXED_NAMES[3..];
    assert forall key <- FIXED_NAMES[3..] :: key in names;
    assert names[0] == TokenName(name);
  }

  lemma LastSix()
    ensures forall key <- ["QRMI_JOB_QPU_RESOURCES", "QRMI_JOB_QPU_TYPES", "qrmi_resources", "qrmi_resource_types", "qrmi_acquired_count",
                           "qrmi_prolog_status"] :: key in FIXED_NAMES[3..]
  {
    assert FIXED_NAMES[3..] == ["QRMI_JOB_QPU_RESOURCES", "QRMI_JOB_QPU_TYPES", "qrmi_resources", "qrmi_resource_types",
                                "qrmi_acquired_count", "qrmi_prolog_status"];
  }

  // ---- The backend's settings ----

  /** The setting is the last one with its key. */
  predicate LastSetting(settings: seq<(string, string)>, i: nat) {
    i < |settings| && settings[i].0 != "" && forall j :: i < j < |settings| ==> settings[j].0 != settings[i].0
  }

  lemma {:induction false} SettingKeys(name: string, settings: seq<(string, string)>, key: string)
    requires forall i :: 0 <= i < |settings| ==> settings[i].0 != "" ==> name + "_" + settings[i].0 != key
    ensures key !in MapOf(BackendPairs(name, settings))
  {
    if settings != [] {
      var first := (Prefixed(name, settings[0].0), settings[0].1);
      assert forall i :: 0 <= i < |settings| - 1 ==> settings[1..][i] == settings[i + 1];
      SettingKeys(name, settings[1..], key);
      if settings[0].0 == "" {
        assert [] + BackendPairs(name, settings[1..]) == BackendPairs(name, settings[1..]);
      } else {
        MapOfAppend([first], BackendPairs(name, settings[1..]));
        MapOfOne(first);
      }
    }
  }

  lemma KeysApart(name: string, a: string, b: string)
    ensures name + "_" + a == name + "_" + b <==> a == b
  {
    assert (name + "_" + a)[|name| + 1..] == a && (name + "_" + b)[|name| + 1..] == b;
  }

  lemma {:induction false} SettingValue(name: string, settings: seq<(string, string)>, i: nat)
    requires LastSetting(settings, i)
    ensures var m := MapOf(BackendPairs(name, settings));
            name + "_" + settings[i].0 in m && m[name + "_" + settings[i].0] == settings[i].1
  {
    var first, rest := (Prefixed(name, settings[0].0), settings[0].1), BackendPairs(name, settings[1..]);
    assert forall j :: 0 <= j < |settings| - 1 ==> settings[1..][j] == settings[j + 1];
    if settings[0].0 == "" {
      assert [] + rest == rest;
    } else {
      MapOfAppend([first], rest);
      MapOfOne(first);
    }
    if i > 0 {
      SettingValue(name, settings[1..], i - 1);
    } else {
      forall j | 0 <= j < |settings| - 1
        ensures name + "_" + settings[1..][j].0 != name + "_" + settings[0].0
      {
        KeysApart(name, settings[1..][j].0, settings[0].0);
      }
      SettingKeys(name, settings[1..], name + "_" + settings[0].0);
    }
  }

  /** Every setting of the backend is a variable of the job, under the backend's name, unless its name is one of those
      the prolog sets later; and no other variable changes. */
  lemma PrologSettings(w: World, env: map<string, string>, cfg: HookOptions, name: string, d: Definition, token: string, i: nat)
    requires SchedulerExport(w, EnvWithSettings(w, env, name, d), cfg).Ok? && LastSetting(d.environments, i)
    ensures var key := name + "_" + d.environments[i].0;
            key !in FIXED_NAMES && key != TokenName(name)
            ==> Get(env + MapOf(AllPairs(w, env, cfg, name, d, token)), key) == d.environments[i].1
  {
    var key := name + "_" + d.environments[i].0;
    Leaves(w, env, cfg, name, d, token);
    SettingValue(name, d.environments, i);
    NotFixed(w, env, cfg, name, d, token, key);
  }

  lemma NotFixed(w: World, env: map<string, string>, cfg: HookOptions, name: string, d: Definition, token: string, key: string)
    requires SchedulerExport(w, EnvWithSettings(w, env, name, d), cfg).Ok? && w.uid != None
    ensures key !in FIXED_NAMES && key != TokenName(name)
            ==> Get(env + MapOf(AllPairs(w, env, cfg, name, d, token)), key) == Get(EnvWithSettings(w, env, name, d), key)
  {
    var inner := EnvWithSettings(w, env, name, d);
    Leaves(w, env, cfg, name, d, token);
    if key !in FIXED_NAMES && key != TokenName(name) {
      assert forall k <- FIXED_NAMES[..3] + FIXED_NAMES[3..] :: k in FIXED_NAMES;
      assert key !in FIXED_NAMES[..3] && key !in FIXED_NAMES[3..];
      JobPartKeys(w.uid.value, SchedulerJobId(inner), SlotsOf(w, inner, cfg), key);
      TokenPartKeys(name, token, TypeText(d), key);
    }
  }

  lemma PrologKeeps(w: World, env: map<string, string>, cfg: HookOptions, name: string, d: Definition, token: string, key: string)
    requires SchedulerExport(w, EnvWithSettings(w, env, name, d), cfg).Ok?
    requires key !in FIXED_NAMES && key != TokenName(name) && key != "RUST_LOG"
    requires forall i :: 0 <= i < |d.environments| ==> d.environments[i].0 != "" ==> name + "_" + d.environments[i].0 != key
    ensures Get(env + MapOf(AllPairs(w, env, cfg, name, d, token)), key) == Get(env, key)
  {
    Leaves(w, env, cfg, name, d, token);
    NotFixed(w, env, cfg, name, d, token, key);
    SettingKeys(name, d.environments, key);
    NotSet(LogPairs(w.rustLog), key);
  }

  // ---- The epilog ----

  /** The variables the epilog releases the token with: owner, name and token, unless a setting takes their place. */
  lemma EpilogVariables(env: map<string, string>, name: string, token: string, uid: nat, settings: seq<(string, string)>)
    ensures var final := env + MapOf(ReleasePairs(name, token, uid, SchedulerJobId(env), settings));
            && (NoSetting(name, settings, "QRMI_JOB_UID") ==> Get(final, "QRMI_JOB_UID") == Itoa(uid))
            && (NoSetting(name, settings, "QRMI_JOB_ID") ==>
                  Get(final, "QRMI_JOB_ID") == JobName(Get(env, "JOB_ID"), Get(env, "SGE_TASK_ID")))
            && (NoSetting(name, settings, TokenName(name)) ==> Get(final, TokenName(name)) == token)
  {
    JobNameIs(env);
    ReleaseParts(name, token, uid, SchedulerJobId(env), settings);
    ReleaseNames(name);
    ReleasedAt(env, "QRMI_JOB_UID", Itoa(uid), "QRMI_JOB_ID", SchedulerJobId(env), TokenName(name), token, MapOf(Settings(name, settings)));
    SettingAbsent(name, settings, "QRMI_JOB_UID");
    SettingAbsent(name, settings, "QRMI_JOB_ID");
    SettingAbsent(name, settings, TokenName(name));
  }

  lemma ReleaseNames(name: string)
    ensures JOB_UID == "QRMI_JOB_UID" && QRMI_JOB_ID == "QRMI_JOB_ID" && TokenKey(name) == TokenName(name)
    ensures JOB_UID != QRMI_JOB_ID && JOB_UID != TokenName(name) && QRMI_JOB_ID != TokenName(name)
  {
    FixedNames(name);
  }

  lemma ReleasedAt(env: map<string, string>, a: string, u: string, b: string, v: string, c: string, w: string, all: map<string, string>)
    requires a != b && a != c && b != c
    ensures var final := env + (map[a := u][b := v][c := w] + all);
            (a !in all ==> Get(final, a) == u) && (b !in all ==> Get(final, b) == v) && (c !in all ==> Get(final, c) == w)
  {
  }

  /** And every setting of the backend. */
  lemma EpilogSettings(env: map<string, string>, name: string, token: string, uid: nat, settings: seq<(string, string)>, i: nat)
    requires LastSetting(settings, i)
    ensures Get(env + MapOf(ReleasePairs(name, token, uid, SchedulerJobId(env), settings)), name + "_" + settings[i].0) == settings[i].1
  {
    ReleaseParts(name, token, uid, SchedulerJobId(env), settings);
    ReleaseSetting(name, settings, i);
  }

  /** No setting has that variable's name, not even one without a key. */
  predicate NoSetting(name: string, settings: seq<(string, string)>, key: string) {
    forall i :: 0 <= i < |settings| ==> name + "_" + settings[i].0 != key
  }

  lemma {:induction false} SettingAbsent(name: string, settings: seq<(string, string)>, key: string)
    ensures NoSetting(name, settings, key) ==> key !in MapOf(Settings(name, settings))
  {
    if settings != [] && NoSetting(name, settings, key) {
      assert forall i :: 0 <= i < |settings| - 1 ==> settings[1..][i] == settings[i + 1];
      SettingAbsent(name, settings[1..], key);
      MapOfAppend([(Prefixed(name, settings[0].0), settings[0].1)], Settings(name, settings[1..]));
      MapOfOne((Prefixed(name, settings[0].0), settings[0].1));
    }
  }

  lemma ReleaseSetting(name: string, settings: seq<(string, string)>, i: nat)
    ensures LastSetting(settings, i) ==>
              var m, key := MapOf(Settings(name, settings)), name + "_" + settings[i].0; key in m && m[key] == settings[i].1
  {
    if LastSetting(settings, i) {
      var key := name + "_" + settings[i].0;
      SettingValue(name, settings, i);
      assert |key| > |name + "_"|;
      DropEmptyKey(name, settings, key);
    }
  }

  // ---- The name of a task ----

  /** The settings rename neither the job nor its task. */
  predicate KeepsName(w: World, env: map<string, string>, name: string, d: Definition) {
    var inner := EnvWithSettings(w, env, name, d);
    Get(inner, "JOB_ID") == Get(env, "JOB_ID") && Get(inner, "SGE_TASK_ID") == Get(env, "SGE_TASK_ID")
  }

  /** In a job's own spool directory, prolog and epilog both call an array task what the directory is called, and any
      other job by its id. */
  lemma TaskNames(w: World, env: map<string, string>, cfg: HookOptions, name: string, d: Definition, token: string,
                  uid: nat, root: string, fs: FsView)
    requires CheckSpoolDir(Get(env, "SGE_JOB_SPOOL_DIR"), root, Get(env, "JOB_ID"), Get(env, "SGE_TASK_ID"), fs)
    requires SchedulerExport(w, EnvWithSettings(w, env, name, d), cfg).Ok? && KeepsName(w, env, name, d) && Get(env, "JOB_ID") != ""
    ensures var called := if Get(env, "SGE_TASK_ID") in ["", "undefined", "0"] then Get(env, "JOB_ID")
                          else Base(Get(env, "SGE_JOB_SPOOL_DIR"));
            && Get(env + MapOf(AllPairs(w, env, cfg, name, d, token)), "QRMI_JOB_ID") == called
            && (NoSetting(name, d.environments, "QRMI_JOB_ID") ==>
                  Get(env + MapOf(ReleasePairs(name, token, uid, SchedulerJobId(env), d.environments)), "QRMI_JOB_ID") == called)
  {
    NameIsDirectory(env, root, fs);
    JobNameIs(env);
    PrologVariables(w, env, cfg, name, d, token);
    EpilogVariables(env, name, token, uid, d.environments);
  }
}

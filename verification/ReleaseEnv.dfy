/** The epilog rebuilds the settings the prolog used, in another order. */
module ReleaseEnv {
  import opened Decimal
  import opened EnvList
  import opened HookCommand
  import opened JobEnv
  import opened Metadata
  import opened Prolog
  import opened PrologRun
  import opened Sanitize
  import opened Wrappers

  /** The epilog's process environment. */
  class Process {
    var env: map<string, string>

    constructor (env: map<string, string>)
      ensures this.env == env
    {
      this.env := env;
    }

    method Setenv(key: string, value: string) returns (ok: bool)
      modifies this
      ensures ok == Settable(key, value) && env == if ok then old(env)[key := value] else old(env)
    {
      ok := Settable(key, value);
      if ok {
        env := env[key := value];
      }
    }
  }

  /** Every configured setting, those without a key included. */
  function Settings(name: string, settings: seq<(string, string)>): seq<(string, string)> {
    if settings == [] then [] else [(Prefixed(name, settings[0].0), settings[0].1)] + Settings(name, settings[1..])
  }

  /** User, job and token first, then the settings of the backend. */
  function ReleasePairs(name: string, token: string, uid: nat, jobId: string, settings: seq<(string, string)>)
    : seq<(string, string)>
  {
    [(JOB_UID, Itoa(uid)), (QRMI_JOB_ID, jobId), (TokenKey(name), token)] + Settings(name, settings)
  }

  lemma {:induction false} SettingsSnoc(name: string, settings: seq<(string, string)>, last: (string, string))
    ensures Settings(name, settings + [last]) == Settings(name, settings) + [(Prefixed(name, last.0), last.1)]
  {
    if settings == [] {
      assert settings + [last] == [last] && [last][1..] == [];
    } else {
      assert (settings + [last])[1..] == settings[1..] + [last];
      SettingsSnoc(name, settings[1..], last);
    }
  }

  /** The settings can be rebuilt: configuration, backend and owner are known, and every variable can be set. */
  predicate CanRebuild(env: map<string, string>, config: Option<map<string, Definition>>, rec: Record, uid: Option<nat>) {
    config != None && rec.name in config.value && uid != None
    && AllSettable(ReleasePairs(rec.name, rec.token, uid.value, SchedulerJobId(env), config.value[rec.name].environments))
  }

  /** Rebuilds the settings from the configuration and the record. */
  method SetReleaseEnv(p: Process, config: Option<map<string, Definition>>, rec: Record, uid: Option<nat>) returns (ok: bool)
    modifies p
    ensures ok <==> CanRebuild(old(p.env), config, rec, uid)
    ensures ok ==>
              p.env == old(p.env) + MapOf(ReleasePairs(rec.name, rec.token, uid.value, SchedulerJobId(old(p.env)),
                                                       config.value[rec.name].environments))
  {
    if config == None || rec.name !in config.value || uid == None {
      return false;
    }
    var pairs := ListRelease(rec.name, rec.token, uid.value, SchedulerJobId(p.env), config.value[rec.name].environments);
    ok := SetenvAll(p, pairs);
  }

  /** The pairs in the order in which they are set. */
  method ListRelease(name: string, token: string, uid: nat, jobId: string, settings: seq<(string, string)>)
    returns (pairs: seq<(string, string)>)
    ensures pairs == ReleasePairs(name, token, uid, jobId, settings)
  {
    pairs := [(JOB_UID, Itoa(uid)), (QRMI_JOB_ID, jobId), (TokenKey(name), token)];
    ghost var three := pairs;
    assert settings[..0] == [] && three + Settings(name, []) == three;
    for i := 0 to |settings|
      invariant pairs == three + Settings(name, settings[..i])
    {
      SettingsSnoc(name, settings[..i], settings[i]);
      assert settings[..i + 1] == settings[..i] + [settings[i]];
      pairs := pairs + [(Prefixed(name, settings[i].0), settings[i].1)];
    }
    assert settings[..|settings|] == settings;
  }

  method SetenvAll(p: Process, pairs: seq<(string, string)>) returns (ok: bool)
    modifies p
    ensures ok <==> AllSettable(pairs)
    ensures ok ==> p.env == old(p.env) + MapOf(pairs)
  {
    ghost var env := p.env;
    assert env + MapOf([]) == env;
    for i := 0 to |pairs|
      invariant p.env == env + MapOf(pairs[..i])
      invariant AllSettable(pairs[..i])
    {
      NextPair(env, pairs, i, []);
      ok := p.Setenv(pairs[i].0, pairs[i].1);
      if !ok {
        return;
      }
    }
    assert pairs[..|pairs|] == pairs;
    ok := true;
  }

  // ---- The two environments ---------------------------------------------------------------------

  /** What the prolog sets after the backend's settings. */
  function LaterPairs(uid: nat, jobId: string, slots: Option<int>, name: string, token: string, typ: string)
    : seq<(string, string)>
  {
    SchedulerPairs(uid, jobId, slots) + (RuntimePairs(name, token, typ) + [SUCCESS])
  }

  /** The variables QRMI reads when it acquires a token: user, job and the backend's settings. */
  function AcquireKeys(name: string, settings: seq<(string, string)>): set<string> {
    {JOB_UID, QRMI_JOB_ID} + MapOf(BackendPairs(name, settings)).Keys
  }

  /** And those it reads once there is a token. */
  function Watched(name: string, settings: seq<(string, string)>): set<string> {
    AcquireKeys(name, settings) + {TokenKey(name)}
  }

  ghost predicate Agree(keys: set<string>, p: map<string, string>, e: map<string, string>) {
    forall key <- keys :: Get(p, key) == Get(e, key)
  }

  /** A setting and a variable set later have one name and different values. */
  ghost predicate Clash(b: map<string, string>, later: map<string, string>) {
    exists key <- b :: key in later && later[key] != b[key]
  }

  lemma {:induction false} DropEmptyKey(name: string, settings: seq<(string, string)>, key: string)
    requires key != name + "_"
    ensures (key in MapOf(Settings(name, settings)) <==> key in MapOf(BackendPairs(name, settings)))
    ensures Get(MapOf(Settings(name, settings)), key) == Get(MapOf(BackendPairs(name, settings)), key)
  {
    if settings != [] {
      var first := (Prefixed(name, settings[0].0), settings[0].1);
      var a, b := Settings(name, settings[1..]), BackendPairs(name, settings[1..]);
      DropEmptyKey(name, settings[1..], key);
      MapOfAppend([first], a);
      MapOfOne(first);
      if settings[0].0 == "" {
        assert first.0 == name + "_";
        assert [] + b == b;
      } else {
        MapOfAppend([first], b);
      }
    }
  }

  lemma MapOfOne(pair: (string, string))
    ensures MapOf([pair]) == map[pair.0 := pair.1]
  {
    assert [pair][..0] == [];
    assert MapOf([]) == map[];
  }

  lemma {:induction false} SettingsHaveKeys(name: string, settings: seq<(string, string)>)
    ensures name + "_" !in MapOf(BackendPairs(name, settings))
  {
    if settings != [] {
      var first := (Prefixed(name, settings[0].0), settings[0].1);
      var b := BackendPairs(name, settings[1..]);
      SettingsHaveKeys(name, settings[1..]);
      if settings[0].0 == "" {
        assert [] + b == b;
      } else {
        MapOfAppend([first], b);
        MapOfOne(first);
        assert |first.0| == |name| + 1 + |settings[0].0|;
      }
    }
  }

  lemma ThreeMap(a: string, u: string, b: string, v: string, c: string, w: string)
    ensures MapOf([(a, u), (b, v), (c, w)]) == map[a := u][b := v][c := w]
  {
    MapOfOne((a, u));
    MapOfSnoc([(a, u)], (b, v));
    MapOfSnoc([(a, u), (b, v)], (c, w));
    assert [(a, u), (b, v)] == [(a, u)] + [(b, v)];
    assert [(a, u), (b, v), (c, w)] == [(a, u), (b, v)] + [(c, w)];
  }

  function RuntimeNames(): seq<string> {
    ["QRMI_JOB_QPU_RESOURCES", "QRMI_JOB_QPU_TYPES", "qrmi_resources", "qrmi_resource_types", "qrmi_acquired_count"]
  }

  /** The names set after the token and the slots count, told apart by their last letters. */
  lemma OtherEnds()
    ensures forall name <- RuntimeNames() :: Ends(name, 'S') || Ends(name, 's') || Ends(name, 't')
    ensures Ends(JOB_SLOTS, 'S') && Ends(PROLOG_STATUS, 's')
  {
  }

  predicate Ends(s: string, c: char) {
    s != "" && s[|s| - 1] == c
  }

  lemma FixedEnds(name: string)
    ensures Ends(JOB_UID, 'D') && Ends(QRMI_JOB_ID, 'D') && Ends(TokenKey(name), 'N') && Ends(name + "_", '_')
    ensures JOB_UID != QRMI_JOB_ID
  {
    assert |JOB_UID| == 12 && |QRMI_JOB_ID| == 11;
    var t := TokenKey(name);
    assert t[|t| - 1] == "_QRMI_JOB_ACQUISITION_TOKEN"[26];
  }

  lemma FixedNames(name: string)
    ensures JOB_UID != QRMI_JOB_ID && TokenKey(name) != JOB_UID && TokenKey(name) != QRMI_JOB_ID
    ensures forall key <- [JOB_UID, QRMI_JOB_ID, TokenKey(name)] :: key != name + "_" && key != JOB_SLOTS && key != PROLOG_STATUS
    ensures forall key <- [JOB_UID, QRMI_JOB_ID, TokenKey(name)], other <- RuntimeNames() :: key != other
  {
    FixedEnds(name);
    OtherEnds();
  }

  lemma {:induction false} NotSet(pairs: seq<(string, string)>, key: string)
    requires forall p <- pairs :: p.0 != key
    ensures key !in MapOf(pairs)
  {
    if pairs != [] {
      var n := |pairs| - 1;
      assert pairs[n] in pairs && forall p <- pairs[..n] :: p in pairs;
      NotSet(pairs[..n], key);
    }
  }

  lemma RuntimeFixed(name: string, token: string, typ: string)
    ensures var m := MapOf(RuntimePairs(name, token, typ) + [SUCCESS]);
            JOB_UID !in m && QRMI_JOB_ID !in m && TokenKey(name) in m && m[TokenKey(name)] == token
  {
    FixedNames(name);
    var r := RuntimePairs(name, token, typ) + [SUCCESS];
    var head, rest := (TokenKey(name), token), r[1..];
    assert r == [head] + rest;
    assert forall p <- rest :: p.0 in RuntimeNames() || p.0 == PROLOG_STATUS;
    MapOfAppend([head], rest);
    MapOfOne(head);
    NotSet(rest, JOB_UID);
    NotSet(rest, QRMI_JOB_ID);
    NotSet(rest, TokenKey(name));
  }

  /** The three fixed variables in what the prolog sets last. */
  lemma LaterFixed(uid: nat, jobId: string, slots: Option<int>, name: string, token: string, typ: string)
    ensures var m := MapOf(LaterPairs(uid, jobId, slots, name, token, typ));
            && JOB_UID in m && m[JOB_UID] == Itoa(uid)
            && (QRMI_JOB_ID in m <==> jobId != "") && (jobId != "" ==> m[QRMI_JOB_ID] == jobId)
            && TokenKey(name) in m && m[TokenKey(name)] == token
  {
    MapOfAppend(SchedulerPairs(uid, jobId, slots), RuntimePairs(name, token, typ) + [SUCCESS]);
    RuntimeFixed(name, token, typ);
    SchedulerFixed(uid, jobId, slots);
  }

  lemma SchedulerFixed(uid: nat, jobId: string, slots: Option<int>)
    ensures var m := MapOf(SchedulerPairs(uid, jobId, slots));
            && JOB_UID in m && m[JOB_UID] == Itoa(uid)
            && (QRMI_JOB_ID in m <==> jobId != "") && (jobId != "" ==> m[QRMI_JOB_ID] == jobId)
  {
    FixedNames("");
    var a, b := (JOB_UID, Itoa(uid)), (QRMI_JOB_ID, jobId);
    var two := if jobId == "" then [a] else [a, b];
    MapOfOne(a);
    MapOfSnoc([a], b);
    assert [a] + [b] == [a, b];
    if slots == None {
      assert SchedulerPairs(uid, jobId, slots) == two;
    } else {
      MapOfSnoc(two, (JOB_SLOTS, Itoa(slots.value)));
      assert SchedulerPairs(uid, jobId, slots) == two + [(JOB_SLOTS, Itoa(slots.value))];
    }
  }

  /** The job id a reader of the prolog's environment sees, if no setting has that name. */
  function ShownJobId(base: map<string, string>, jobId: string): string {
    if jobId == "" then Get(base, QRMI_JOB_ID) else jobId
  }

  /** What the epilog builds: the fixed variables, then every setting. */
  lemma ReleaseParts(name: string, token: string, uid: nat, jobId: string, settings: seq<(string, string)>)
    ensures MapOf(ReleasePairs(name, token, uid, jobId, settings))
            == map[JOB_UID := Itoa(uid)][QRMI_JOB_ID := jobId][TokenKey(name) := token] + MapOf(Settings(name, settings))
    ensures var all, b := MapOf(Settings(name, settings)), MapOf(BackendPairs(name, settings));
            forall key <- Watched(name, settings) :: (key in all <==> key in b) && Get(all, key) == Get(b, key)
  {
    MapOfAppend([(JOB_UID, Itoa(uid)), (QRMI_JOB_ID, jobId), (TokenKey(name), token)], Settings(name, settings));
    ThreeMap(JOB_UID, Itoa(uid), QRMI_JOB_ID, jobId, TokenKey(name), token);
    forall key | key in Watched(name, settings)
      ensures key in MapOf(Settings(name, settings)) <==> key in MapOf(BackendPairs(name, settings))
      ensures Get(MapOf(Settings(name, settings)), key) == Get(MapOf(BackendPairs(name, settings)), key)
    {
      WatchedHasKey(name, settings, key);
      DropEmptyKey(name, settings, key);
    }
  }

  /** The prolog writes the settings before the fixed variables, the epilog after them: user, job,
      token and every setting have the same value in both environments exactly when no setting
      shares its name with a variable the prolog sets later to another value, and both have the same
      job id or a setting in its place. */
  lemma ReleaseEnvAgrees(base: map<string, string>, other: map<string, string>, name: string, token: string, typ: string,
                         uid: nat, jobId: string, laterJobId: string, slots: Option<int>, settings: seq<(string, string)>)
    ensures var b, later := MapOf(BackendPairs(name, settings)), MapOf(LaterPairs(uid, jobId, slots, name, token, typ));
            Agree(Watched(name, settings), base + b + later, other + MapOf(ReleasePairs(name, token, uid, laterJobId, settings)))
            <==> !Clash(b, later) && (QRMI_JOB_ID in b || ShownJobId(base, jobId) == laterJobId)
  {
    FixedNames(name);
    LaterFixed(uid, jobId, slots, name, token, typ);
    ReleaseParts(name, token, uid, laterJobId, settings);
    MergeAgrees(Watched(name, settings), base, MapOf(BackendPairs(name, settings)), MapOf(LaterPairs(uid, jobId, slots, name, token, typ)),
                other, map[JOB_UID := Itoa(uid)][QRMI_JOB_ID := laterJobId][TokenKey(name) := token], MapOf(Settings(name, settings)));
  }

  /** The same at the moment at which the prolog acquires the token, before it exports the resources: fewer
      settings can clash. */
  lemma AcquireEnvAgrees(base: map<string, string>, other: map<string, string>, name: string, token: string,
                         uid: nat, jobId: string, laterJobId: string, slots: Option<int>, settings: seq<(string, string)>)
    ensures var b, sofar := MapOf(BackendPairs(name, settings)), MapOf(SchedulerPairs(uid, jobId, slots));
            Agree(AcquireKeys(name, settings), base + b + sofar, other + MapOf(ReleasePairs(name, token, uid, laterJobId, settings)))
            <==> !Clash(b, sofar) && (QRMI_JOB_ID in b || ShownJobId(base, jobId) == laterJobId)
  {
    FixedNames(name);
    SchedulerFixed(uid, jobId, slots);
    ReleaseParts(name, token, uid, laterJobId, settings);
    MergeAgrees(AcquireKeys(name, settings), base, MapOf(BackendPairs(name, settings)), MapOf(SchedulerPairs(uid, jobId, slots)),
                other, map[JOB_UID := Itoa(uid)][QRMI_JOB_ID := laterJobId][TokenKey(name) := token], MapOf(Settings(name, settings)));
  }

  lemma WatchedHasKey(name: string, settings: seq<(string, string)>, key: string)
    requires key in Watched(name, settings)
    ensures key != name + "_"
  {
    FixedEnds(name);
    SettingsHaveKeys(name, settings);
  }

  /** One variable that is a setting or a fixed one. */
  lemma MergeAt(key: string, base: map<string, string>, b: map<string, string>, later: map<string, string>, other: map<string, string>,
                three: map<string, string>, all: map<string, string>)
    requires (key in all <==> key in b) && Get(all, key) == Get(b, key)
    requires key !in b ==> key in three && (key != QRMI_JOB_ID ==> key in later && later[key] == three[key])
    ensures Get(base + b + later, key) == Get(other + (three + all), key)
            <==> if key in b then !(key in later && later[key] != b[key])
                 else key == QRMI_JOB_ID ==> Get(base + later, key) == three[key]
  {
  }

  lemma MergeAgrees(keys: set<string>, base: map<string, string>, b: map<string, string>, later: map<string, string>, other: map<string, string>,
                    three: map<string, string>, all: map<string, string>)
    requires b.Keys <= keys && QRMI_JOB_ID in keys && QRMI_JOB_ID in three
    requires forall key <- keys :: (key in all <==> key in b) && Get(all, key) == Get(b, key)
    requires forall key <- keys :: key !in b ==> key in three && (key != QRMI_JOB_ID ==> key in later && later[key] == three[key])
    ensures Agree(keys, base + b + later, other + (three + all))
            <==> !Clash(b, later) && (QRMI_JOB_ID in b || Get(base + later, QRMI_JOB_ID) == three[QRMI_JOB_ID])
  {
    forall key <- keys
      ensures Get(base + b + later, key) == Get(other + (three + all), key)
              <==> if key in b then !(key in later && later[key] != b[key])
                   else key == QRMI_JOB_ID ==> Get(base + later, key) == three[key]
    {
      MergeAt(key, base, b, later, other, three, all);
    }
  }

  // ---- Prolog and epilog runs ---------------------------------------------------------------------

  /** The slot count the prolog exports, if the job requests slots. */
  function SlotsOf(w: World, env: map<string, string>, cfg: HookOptions): Option<int> {
    var read := ReadRequest(w.slotsRequest, Get(env, JOB_ID), cfg.slotsResourceName);
    if cfg.slotsResourceName == "" || read.Err? then None else w.slots(read.value)
  }

  lemma ExportShape(w: World, env: map<string, string>, cfg: HookOptions)
    requires SchedulerExport(w, env, cfg).Ok?
    ensures w.uid != None
    ensures SchedulerExport(w, env, cfg).value == SchedulerPairs(w.uid.value, SchedulerJobId(env), SlotsOf(w, env, cfg))
  {
  }

  /** The environment a successful prolog leaves and the one a later epilog of the same job builds. A
      setting may rename the job for the prolog, which reads the job id after exporting the settings. */
  lemma EpilogSeesPrologSettings(w: World, env: map<string, string>, other: map<string, string>, cfg: HookOptions,
                                 name: string, d: Definition, token: string)
    requires SchedulerExport(w, EnvWithSettings(w, env, name, d), cfg).Ok?
    ensures w.uid != None
    ensures var inner := EnvWithSettings(w, env, name, d);
            var b, later := MapOf(BackendPairs(name, d.environments)),
                            MapOf(LaterPairs(w.uid.value, SchedulerJobId(inner), SlotsOf(w, inner, cfg), name, token, TypeText(d)));
              Agree(Watched(name, d.environments), env + MapOf(AllPairs(w, env, cfg, name, d, token)),
                    other + MapOf(ReleasePairs(name, token, w.uid.value, SchedulerJobId(other), d.environments)))
              <==> !Clash(b, later) && (QRMI_JOB_ID in b || ShownJobId(env, SchedulerJobId(inner)) == SchedulerJobId(other))
  {
    var inner := EnvWithSettings(w, env, name, d);
    var log, b := LogPairs(w.rustLog), BackendPairs(name, d.environments);
    var slots, jobId := SlotsOf(w, inner, cfg), SchedulerJobId(inner);
    ExportShape(w, inner, cfg);
    var later := LaterPairs(w.uid.value, jobId, slots, name, token, TypeText(d));
    PairsAssoc4(log, b, SchedulerPairs(w.uid.value, jobId, slots), RuntimePairs(name, token, TypeText(d)), [SUCCESS]);
    assert AllPairs(w, env, cfg, name, d, token) == log + b + later;
    MapOfAppend(log, b);
    MapOfAppend(log + b, later);
    MapAssoc(env, MapOf(log), MapOf(b), MapOf(later));
    LogKeepsJobId(env, w.rustLog);
    ReleaseEnvAgrees(env + MapOf(log), other, name, token, TypeText(d), w.uid.value, jobId, SchedulerJobId(other), slots, d.environments);
  }

  /** The environment in which the prolog acquires the token, and the one in which a later epilog of the
      same job releases it. */
  lemma EpilogSeesAcquireSettings(w: World, env: map<string, string>, other: map<string, string>, cfg: HookOptions,
                                  name: string, d: Definition, token: string)
    requires SchedulerExport(w, EnvWithSettings(w, env, name, d), cfg).Ok?
    ensures w.uid != None
    ensures var inner := EnvWithSettings(w, env, name, d);
            var b, sofar := MapOf(BackendPairs(name, d.environments)),
                            MapOf(SchedulerPairs(w.uid.value, SchedulerJobId(inner), SlotsOf(w, inner, cfg)));
              Agree(AcquireKeys(name, d.environments), env + MapOf(FirstPairs(w, env, cfg, name, d)),
                    other + MapOf(ReleasePairs(name, token, w.uid.value, SchedulerJobId(other), d.environments)))
              <==> !Clash(b, sofar) && (QRMI_JOB_ID in b || ShownJobId(env, SchedulerJobId(inner)) == SchedulerJobId(other))
  {
    var inner := EnvWithSettings(w, env, name, d);
    var log, b := LogPairs(w.rustLog), BackendPairs(name, d.environments);
    var slots, jobId := SlotsOf(w, inner, cfg), SchedulerJobId(inner);
    ExportShape(w, inner, cfg);
    var sofar := SchedulerPairs(w.uid.value, jobId, slots);
    MapOfAppend(log, b);
    MapOfAppend(log + b, sofar);
    MapAssoc(env, MapOf(log), MapOf(b), MapOf(sofar));
    LogKeepsJobId(env, w.rustLog);
    AcquireEnvAgrees(env + MapOf(log), other, name, token, w.uid.value, jobId, SchedulerJobId(other), slots, d.environments);
  }

  lemma LogKeepsJobId(env: map<string, string>, level: Option<string>)
    ensures Get(env + MapOf(LogPairs(level)), QRMI_JOB_ID) == Get(env, QRMI_JOB_ID)
    ensures Get(env + MapOf(LogPairs(level)), TASK_ID) == Get(env, TASK_ID)
  {
    if level != None {
      MapOfOne(("RUST_LOG", level.value));
      assert |"RUST_LOG"| == 8 && |QRMI_JOB_ID| == 11 && |TASK_ID| == 11;
    }
  }

  /** Backend "JOB" with a setting "ID" renames the job: no two values clash, and yet the prolog exports
      job "2" where the epilog rebuilds job "1". */
  lemma JobIdReplaced(w: World, env: map<string, string>, other: map<string, string>, cfg: HookOptions, typ: int, token: string)
    requires w.uid != None && cfg.slotsResourceName == ""
    requires Get(other, JOB_ID) == "1" && Get(env, TASK_ID) == Get(other, TASK_ID) == ""
    ensures var d := Definition(typ, "", [("ID", "2")]);
            var inner := EnvWithSettings(w, env, "JOB", d);
            && SchedulerExport(w, inner, cfg).Ok?
            && !Clash(MapOf(BackendPairs("JOB", d.environments)),
                      MapOf(LaterPairs(w.uid.value, SchedulerJobId(inner), SlotsOf(w, inner, cfg), "JOB", token, TypeText(d))))
            && !Agree(Watched("JOB", d.environments), env + MapOf(AllPairs(w, env, cfg, "JOB", d, token)),
                      other + MapOf(ReleasePairs("JOB", token, w.uid.value, SchedulerJobId(other), d.environments)))
  {
    var d := Definition(typ, "", [("ID", "2")]);
    var inner := EnvWithSettings(w, env, "JOB", d);
    JobSetting(typ);
    LogKeepsJobId(env, w.rustLog);
    assert |JOB_ID| == 6 && |TASK_ID| == 11 && |QRMI_JOB_ID| == 11;
    assert SchedulerJobId(inner) == "2" && SchedulerJobId(other) == "1";
    JobIdNotLater(w.uid.value, "2", token, TypeText(d));
    EpilogSeesPrologSettings(w, env, other, cfg, "JOB", d, token);
  }

  lemma JobSetting(typ: int)
    ensures MapOf(BackendPairs("JOB", [("ID", "2")])) == map[JOB_ID := "2"]
  {
    var settings := [("ID", "2")];
    assert Prefixed("JOB", "ID") == JOB_ID && settings[1..] == [];
    assert BackendPairs("JOB", settings) == [(JOB_ID, "2")];
    MapOfOne((JOB_ID, "2"));
  }

  predicate LongNames(pairs: seq<(string, string)>) {
    forall p <- pairs :: |p.0| > 6
  }

  lemma RuntimeLong(token: string, typ: string)
    ensures LongNames(RuntimePairs("JOB", token, typ) + [SUCCESS])
  {
    assert |TokenKey("JOB")| == 30 && |PROLOG_STATUS| == 18;
  }

  lemma SchedulerLong(uid: nat, jobId: string)
    ensures LongNames(SchedulerPairs(uid, jobId, None))
  {
    assert |JOB_UID| == 12 && |QRMI_JOB_ID| == 11;
  }

  /** The prolog sets no variable of that name later. */
  lemma JobIdNotLater(uid: nat, jobId: string, token: string, typ: string)
    ensures JOB_ID !in MapOf(LaterPairs(uid, jobId, None, "JOB", token, typ))
  {
    RuntimeLong(token, typ);
    SchedulerLong(uid, jobId);
    NotLong(SchedulerPairs(uid, jobId, None), RuntimePairs("JOB", token, typ) + [SUCCESS]);
  }

  lemma NotLong(a: seq<(string, string)>, b: seq<(string, string)>)
    requires LongNames(a) && LongNames(b)
    ensures JOB_ID !in MapOf(a + b)
  {
    assert |JOB_ID| == 6;
    NotSet(a + b, JOB_ID);
  }

  lemma PairsAssoc4(a: seq<(string, string)>, b: seq<(string, string)>, c: seq<(string, string)>,
                    d: seq<(string, string)>, e: seq<(string, string)>)
    ensures a + b + c + d + e == a + b + (c + (d + e))
  {
  }

  /** A setting may clash with more than the three fixed variables: backend "qrmi" with a setting
      "resources" loses it to the resource list that the prolog exports last. */
  lemma ResourcesClash(value: string, uid: nat, jobId: string, slots: Option<int>, token: string, typ: string)
    requires value != "qrmi"
    ensures Clash(MapOf(BackendPairs("qrmi", [("resources", value)])), MapOf(LaterPairs(uid, jobId, slots, "qrmi", token, typ)))
    ensures Prefixed("qrmi", "resources") !in [JOB_UID, QRMI_JOB_ID, TokenKey("qrmi")]
  {
    var key := "qrmi_resources";
    var settings := [("resources", value)];
    assert Prefixed("qrmi", "resources") == key;
    assert settings[1..] == [];
    assert BackendPairs("qrmi", settings) == [(key, value)];
    MapOfOne((key, value));
    ResourcesLast(uid, jobId, slots, "qrmi", token, typ);
    FixedNames("qrmi");
    assert key in RuntimeNames();
  }

  /** The same setting does not clash yet when the token is acquired. */
  lemma ResourcesClashLater(value: string, uid: nat, jobId: string, slots: Option<int>)
    ensures !Clash(MapOf(BackendPairs("qrmi", [("resources", value)])), MapOf(SchedulerPairs(uid, jobId, slots)))
  {
    var key := "qrmi_resources";
    var settings := [("resources", value)];
    assert Prefixed("qrmi", "resources") == key && settings[1..] == [];
    assert BackendPairs("qrmi", settings) == [(key, value)];
    MapOfOne((key, value));
    NotScheduler(key, uid, jobId, slots);
  }

  lemma NotScheduler(key: string, uid: nat, jobId: string, slots: Option<int>)
    requires key != "" && key[0] == 'q'
    ensures key !in MapOf(SchedulerPairs(uid, jobId, slots))
  {
    assert JOB_UID[0] == 'Q' && QRMI_JOB_ID[0] == 'Q' && JOB_SLOTS[0] == 'Q';
    NotSet(SchedulerPairs(uid, jobId, slots), key);
  }

  /** The exported resource list is the backend's name. */
  lemma ResourcesLast(uid: nat, jobId: string, slots: Option<int>, name: string, token: string, typ: string)
    ensures var m := MapOf(LaterPairs(uid, jobId, slots, name, token, typ));
            "qrmi_resources" in m && m["qrmi_resources"] == name
  {
    var key := "qrmi_resources";
    var head := RuntimePairs(name, token, typ)[..3];
    var rest := [("qrmi_resource_types", typ), ("qrmi_acquired_count", "1"), SUCCESS];
    var before := SchedulerPairs(uid, jobId, slots) + head;
    RestMisses(typ);
    assert LaterPairs(uid, jobId, slots, name, token, typ) == before + ([(key, name)] + rest);
    MapOfAppend(before, [(key, name)] + rest);
    MapOfAppend([(key, name)], rest);
    MapOfOne((key, name));
    NotSet(rest, key);
  }

  lemma RestMisses(typ: string)
    ensures forall p <- [("qrmi_resource_types", typ), ("qrmi_acquired_count", "1"), SUCCESS] :: p.0 != "qrmi_resources"
  {
    assert |"qrmi_resources"| == 14 && |"qrmi_resource_types"| == 19 && |"qrmi_acquired_count"| == 19 && |PROLOG_STATUS| == 18;
  }

  // ---- Settings and the spool directory ------------------------------------------------------------

  /** The spool directory the prolog sees once it has exported a backend's settings. */
  function SpoolAfter(env: map<string, string>, backend: string, d: Definition): string {
    Get(env + MapOf(BackendPairs(backend, d.environments)), SPOOL_DIR)
  }

  lemma FixedKeys(backend: string)
    ensures SPOOL_DIR !in ["RUST_LOG", JOB_UID, QRMI_JOB_ID, JOB_SLOTS, "QRMI_JOB_QPU_RESOURCES", "QRMI_JOB_QPU_TYPES",
                           "qrmi_resources", "qrmi_resource_types", "qrmi_acquired_count", TokenKey(backend)]
  {
    var key := TokenKey(backend);
    assert key[|key| - 1] == 'N' && SPOOL_DIR[|SPOOL_DIR| - 1] == 'R' && SPOOL_DIR[0] == 'S';
  }

  predicate Without(pairs: seq<(string, string)>, key: string) {
    forall p <- pairs :: p.0 != key
  }

  lemma OthersWithout(w: World, env: map<string, string>, cfg: HookOptions, backend: string, token: string, typ: string)
    ensures SchedulerExport(w, env, cfg).Ok? ==> Without(SchedulerExport(w, env, cfg).value, SPOOL_DIR)
    ensures Without(LogPairs(w.rustLog), SPOOL_DIR) && Without(RuntimePairs(backend, token, typ), SPOOL_DIR)
  {
    FixedKeys(backend);
  }

  lemma FourMaps(env: map<string, string>, a: seq<(string, string)>, b: seq<(string, string)>, c: seq<(string, string)>,
                 e: seq<(string, string)>, key: string)
    requires Without(a, key) && Without(c, key) && Without(e, key)
    ensures Get(env + MapOf(a + b + c) + MapOf(e), key) == Get(env + MapOf(b), key)
  {
    NotSet(a, key);
    NotSet(c, key);
    NotSet(e, key);
    MapOfAppend(a + b, c);
    MapOfAppend(a, b);
  }

  /** Only a setting of that name can move the directory in which the record is published. */
  lemma SpoolMoves(w: World, env: map<string, string>, cfg: HookOptions, backend: string, d: Definition, token: string)
    ensures Get(EnvToPublish(w, env, cfg, backend, d, token), SPOOL_DIR) == SpoolAfter(env, backend, d)
  {
    var inner := EnvWithSettings(w, env, backend, d);
    var x := SchedulerExport(w, inner, cfg);
    OthersWithout(w, inner, cfg, backend, token, TypeText(d));
    FourMaps(env, LogPairs(w.rustLog), BackendPairs(backend, d.environments), if x.Ok? then x.value else [],
             RuntimePairs(backend, token, TypeText(d)), SPOOL_DIR);
  }

  lemma SpoolSetting(env: map<string, string>, typ: int, dir: string)
    ensures SpoolAfter(env, "SGE", Definition(typ, "", [("JOB_SPOOL_DIR", dir)])) == dir
  {
    var settings := [("JOB_SPOOL_DIR", dir)];
    assert Prefixed("SGE", "JOB_SPOOL_DIR") == SPOOL_DIR && settings[1..] == [];
    assert BackendPairs("SGE", settings) == [(SPOOL_DIR, dir)];
    MapOfOne((SPOOL_DIR, dir));
  }
}

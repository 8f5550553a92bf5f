/** A job from its prolog to its epilog: the token that was acquired is released, and nothing is left behind. */
module WholeJob {
  import opened Decimal
  import opened EnvList
  import opened ExitCodes
  import opened JobEnv
  import opened JobVariables
  import opened Metadata
  import opened MovedRecord
  import opened Prolog
  import opened PrologRun
  import opened Publish
  import opened ReleaseEnv
  import opened Sanitize
  import opened Spool
  import opened Text
  import opened Wrappers
  import E = Epilog
  import H = HookCommand

  // ---- When the settings of a record can be rebuilt -----------------------------------------

  predicate Plain(text: string) {
    '\0' !in text
  }

  /** A name, a setting's key or both can be part of a variable's name. */
  predicate Nameable(text: string) {
    '=' !in text && Plain(text)
  }

  lemma NameSettable(name: string, key: string, value: string)
    ensures Settable(name + "_" + key, value) <==> Nameable(name) && Nameable(key) && Plain(value)
    ensures Settable(TokenKey(name), value) <==> Nameable(name) && Plain(value)
  {
    var whole, token := name + "_" + key, "_QRMI_JOB_ACQUISITION_TOKEN";
    assert forall c :: c in whole <==> c in name || c == '_' || c in key;
    assert forall c :: c in TokenKey(name) <==> c in name || c in token;
    TokenPlain();
  }

  lemma TokenPlain()
    ensures '=' !in "_QRMI_JOB_ACQUISITION_TOKEN" && NUL !in "_QRMI_JOB_ACQUISITION_TOKEN"
  {
  }

  lemma {:induction false} SettingsSettable(name: string, settings: seq<(string, string)>)
    ensures AllSettable(Settings(name, settings))
            <==> forall i :: 0 <= i < |settings| ==> Nameable(name) && Nameable(settings[i].0) && Plain(settings[i].1)
  {
    if settings != [] {
      var first, rest := (Prefixed(name, settings[0].0), settings[0].1), Settings(name, settings[1..]);
      SettingsSettable(name, settings[1..]);
      NameSettable(name, settings[0].0, settings[0].1);
      BothSettable([first], rest);
      assert forall i :: 0 <= i < |settings| - 1 ==> settings[1..][i] == settings[i + 1];
      assert [first][0] == first;
    }
  }

  lemma BothSettable(a: seq<(string, string)>, b: seq<(string, string)>)
    ensures AllSettable(a + b) <==> AllSettable(a) && AllSettable(b)
  {
    if AllSettable(a + b) {
      forall i | 0 <= i < |a|
        ensures Settable(a[i].0, a[i].1)
      {
        assert (a + b)[i] == a[i];
      }
      forall i | 0 <= i < |b|
        ensures Settable(b[i].0, b[i].1)
      {
        assert (a + b)[|a| + i] == b[i];
      }
    }
  }

  lemma IdPlain(env: map<string, string>)
    ensures Plain(SchedulerJobId(env)) <==> Plain(Get(env, "JOB_ID")) && Plain(Get(env, "SGE_TASK_ID"))
  {
    JobNameIs(env);
    UnusedPlain();
  }

  lemma UnusedPlain()
    ensures Plain("") && Plain("undefined") && Plain("0") && Plain(".")
  {
  }

  /** Nothing but a character that no environment can hold keeps the settings of a record from being rebuilt, once
      configuration, backend and owner are known: whoever the owner is. */
  lemma RebuildableIs(env: map<string, string>, config: Option<map<string, Definition>>, rec: Record, uid: Option<nat>)
    ensures CanRebuild(env, config, rec, uid)
            <==> && config != None && rec.name in config.value && uid != None
                 && Plain(Get(env, "JOB_ID")) && Plain(Get(env, "SGE_TASK_ID")) && Nameable(rec.name) && Plain(rec.token)
                 && var settings := config.value[rec.name].environments;
                    forall i :: 0 <= i < |settings| ==> Nameable(settings[i].0) && Plain(settings[i].1)
  {
    if config != None && rec.name in config.value && uid != None {
      var settings, id := config.value[rec.name].environments, SchedulerJobId(env);
      var three := [(JOB_UID, Itoa(uid.value)), (QRMI_JOB_ID, id), (TokenKey(rec.name), rec.token)];
      IdPlain(env);
      ThreeSettable(rec.name, rec.token, uid.value, id);
      SettingsSettable(rec.name, settings);
      BothSettable(three, Settings(rec.name, settings));
    }
  }

  lemma ThreeSettable(name: string, token: string, uid: nat, id: string)
    ensures AllSettable([(JOB_UID, Itoa(uid)), (QRMI_JOB_ID, id), (TokenKey(name), token)]) <==> Plain(id) && Nameable(name) && Plain(token)
  {
    var three := [(JOB_UID, Itoa(uid)), (QRMI_JOB_ID, id), (TokenKey(name), token)];
    NameSettable(name, "", token);
    assert Settable(JOB_UID, "") && Settable(QRMI_JOB_ID, "");
    NumberSettable(JOB_UID, uid);
    assert three[0].0 == JOB_UID && three[1] == (QRMI_JOB_ID, id) && three[2] == (TokenKey(name), token);
  }

  // ---- The whole way ------------------------------------------------------------------------

  /** What the prolog exported can be rebuilt, apart from what it does not look at: the settings without a key. */
  lemma ExportedRebuilds(w: World, je: Environment, env: map<string, string>, cfg: H.HookOptions, name: string, token: string,
                         other: map<string, string>, uid: nat)
    requires je.Valid() && w.config != None && name in w.config.value
    requires je.written == AllPairs(w, env, cfg, name, w.config.value[name], token)
    requires Plain(Get(other, "JOB_ID")) && Plain(Get(other, "SGE_TASK_ID")) && KeylessPlain(w.config.value[name])
    ensures CanRebuild(other, w.config, RecordOf(w, name, w.config.value[name], token), Some(uid))
  {
    var d := w.config.value[name];
    RebuildableIs(other, w.config, RecordOf(w, name, d, token), Some(uid));
    TokenWritten(je, w, env, cfg, name, d, token);
    forall i | 0 <= i < |d.environments|
      ensures Nameable(d.environments[i].0) && Plain(d.environments[i].1)
    {
      if d.environments[i].0 != "" {
        SettingWritten(je, w, env, cfg, name, d, token, i);
      }
    }
  }

  /** No setting without a key holds a NUL. */
  predicate KeylessPlain(d: Definition) {
    forall i :: 0 <= i < |d.environments| && d.environments[i].0 == "" ==> Plain(d.environments[i].1)
  }

  lemma TokenWritten(je: Environment, w: World, env: map<string, string>, cfg: H.HookOptions, name: string, d: Definition, token: string)
    requires je.Valid() && je.written == AllPairs(w, env, cfg, name, d, token)
    ensures Nameable(name) && Plain(token)
  {
    var k := |FirstPairs(w, env, cfg, name, d)|;
    assert je.written[k] == RuntimePairs(name, token, TypeText(d))[0] == (TokenKey(name), token);
    NameSettable(name, "", token);
  }

  lemma SettingWritten(je: Environment, w: World, env: map<string, string>, cfg: H.HookOptions, name: string, d: Definition, token: string, i: nat)
    requires je.Valid() && je.written == AllPairs(w, env, cfg, name, d, token) && i < |d.environments| && d.environments[i].0 != ""
    ensures Nameable(d.environments[i].0) && Plain(d.environments[i].1)
  {
    var pair := (name + "_" + d.environments[i].0, d.environments[i].1);
    SettingListed(name, d.environments, i);
    var k :| 0 <= k < |BackendPairs(name, d.environments)| && BackendPairs(name, d.environments)[k] == pair;
    var n := |LogPairs(w.rustLog)| + k;
    assert je.written[n] == pair;
    NameSettable(name, d.environments[i].0, d.environments[i].1);
  }

  lemma {:induction false} SettingListed(name: string, settings: seq<(string, string)>, i: nat)
    requires i < |settings| && settings[i].0 != ""
    ensures (name + "_" + settings[i].0, settings[i].1) in BackendPairs(name, settings)
  {
    if i > 0 {
      SettingListed(name, settings[1..], i - 1);
    }
  }

  /** The record can be read back: a token, a type that is no negative number, and a line of less than a mebibyte. */
  predicate Readable(name: string, d: Definition, token: string, now: int) {
    && token != "" && 0 <= d.typ && ByteLen(name + "\t" + Itoa(d.typ) + "\t" + token + "\t" + Itoa(now)) < 0x10_0000
  }

  /** The settings leave the metadata file in the job's spool directory. */
  predicate Stays(env: map<string, string>, name: string, d: Definition) {
    ResolveMetadataPath(SpoolAfter(env, name, d)) == ResolveMetadataPath(Get(env, SPOOL_DIR))
  }

  lemma ReadableIs(w: World, name: string, d: Definition, token: string)
    requires Writable(RecordOf(w, name, d, token)) && name != "" && Int64(d.typ) && Int64(w.now)
    ensures Readable(name, d, token, w.now) <==> Storable(RecordOf(w, name, d, token))
  {
  }

  lemma GrantedName(w: World, env: map<string, string>, cfg: H.HookOptions)
    requires RequestOf(w, env, cfg).Granted?
    ensures RequestOf(w, env, cfg).backend != ""
  {
  }

  /** The epilog of the job finds the record. */
  lemma RecordThere(w: World, env: map<string, string>, cfg: H.HookOptions, name: string, d: Definition, token: string, before: Files, after: Files)
    requires Published(before, after, Get(EnvToPublish(w, env, cfg, name, d, token), SPOOL_DIR), RecordOf(w, name, d, token))
    requires Int64(d.typ) && Int64(w.now) && name != "" && Readable(name, d, token, w.now) && Stays(env, name, d)
    ensures E.FindingOf(after, Get(env, SPOOL_DIR), true) == E.Found(RecordOf(w, name, d, token))
    ensures ResolveMetadataPath(Get(env, SPOOL_DIR)) != None
    ensures after == before[ResolveMetadataPath(Get(env, SPOOL_DIR)).value := Encode([RecordOf(w, name, d, token)])]
  {
    SpoolMoves(w, env, cfg, name, d, token);
    ReadableIs(w, name, d, token);
    FoundAfter(before, after, SpoolAfter(env, name, d), Get(env, SPOOL_DIR), RecordOf(w, name, d, token), true);
  }

  /** What a successful prolog leaves for the epilog. */
  ghost predicate Waiting(w: World, name: string, token: string, spool: string, other: map<string, string>, uid: nat,
                          before: Files, after: Files)
  {
    && w.config != None && name in w.config.value && ResolveMetadataPath(spool) != None
    && var rec := RecordOf(w, name, w.config.value[name], token);
       && E.FindingOf(after, spool, true) == E.Found(rec) && CanRebuild(other, w.config, rec, Some(uid))
       && after == before[ResolveMetadataPath(spool).value := Encode([rec])]
  }

  /** The epilog of the same job could release the token. */
  predicate Releasable(w: World, env: map<string, string>, other: map<string, string>, name: string, token: string) {
    && w.config != None && name in w.config.value
    && var d := w.config.value[name];
       && Stays(env, name, d) && Readable(name, d, token, w.now) && KeylessPlain(d)
       && Plain(Get(other, "JOB_ID")) && Plain(Get(other, "SGE_TASK_ID"))
  }

  predicate Widths(w: World) {
    Int64(w.now) && (w.config != None ==> forall name <- w.config.value :: Int64(w.config.value[name].typ))
  }

  lemma LeftWaiting(w: World, je: Environment, disk: Disk, env: map<string, string>, cfg: H.HookOptions, token: string,
                    temp: Option<string>, before: Files, history: seq<Files>, other: map<string, string>, uid: nat)
    requires je.Valid() && Widths(w) && RequestOf(w, env, cfg).Granted?
    requires ServedFrom(w, je, disk, cfg, RequestOf(w, env, cfg).backend, token, true, temp, env, before, history)
    requires Releasable(w, env, other, RequestOf(w, env, cfg).backend, token)
    ensures Waiting(w, RequestOf(w, env, cfg).backend, token, Get(env, SPOOL_DIR), other, uid, before, disk.files)
  {
    var name := RequestOf(w, env, cfg).backend;
    GrantedName(w, env, cfg);
    RecordThere(w, env, cfg, name, w.config.value[name], token, before, disk.files);
    ExportedRebuilds(w, je, env, cfg, name, token, other, uid);
  }

  /** The epilog after that: whoever owns the job, it releases the token and removes the record. */
  method EndJob(w: World, disk: Disk, backend: Backend, p: Process, uid: nat, dirOk: bool, ghost name: string, ghost token: string, ghost before: Files)
    returns (code: int, ghost released: bool)
    requires disk.Valid()
    modifies p, disk, backend
    ensures disk.Valid() && backend.acquired == old(backend.acquired)
    ensures old(Waiting(w, name, token, Get(p.env, SPOOL_DIR), p.env, uid, before, disk.files)) ==>
              && code == 0 && released == !backend.releaseFails && backend.released == old(backend.released) + [token]
              && backend.held == (if released then old(backend.held) - {token} else old(backend.held))
              && (released && disk.Reliable() ==> disk.files == before - {ResolveMetadataPath(Get(old(p.env), SPOOL_DIR)).value})
  {
    code, released := E.Run(p, disk, backend, w.config, Some(uid), true, true, dirOk);
  }

  function CfgOf(args: seq<string>): H.HookOptions {
    var cfg := H.ParsePrologArgs(args);
    if cfg.Ok? then cfg.value.0 else H.HookOptions("", "", "", "", "")
  }

  /** The prolog, with what it leaves for the epilog of the job. */
  method StartJob(w: World, je: Environment, backend: Backend, disk: Disk, args: seq<string>, ghost other: map<string, string>, ghost uid: nat)
    returns (code: int, ghost token: Option<string>)
    requires je.Valid() && !je.broken && je.torn == "" && je.written == [] && disk.Valid() && Widths(w)
    modifies je, backend, disk
    ensures disk.Valid() && (token != None ==> token == w.token)
    ensures code == 0 && token != None ==>
              && H.ParsePrologArgs(args).Ok? && RequestOf(w, old(je.env), CfgOf(args)).Granted?
              && backend.acquired == old(backend.acquired) + [token.value] && backend.released == old(backend.released)
              && backend.held == old(backend.held) + {token.value}
              && var name := RequestOf(w, old(je.env), CfgOf(args)).backend;
                 (Releasable(w, old(je.env), other, name, token.value) ==>
                    Waiting(w, name, token.value, Get(old(je.env), SPOOL_DIR), other, uid, old(disk.files), disk.files))
  {
    ghost var env, before, history, temp := je.env, disk.files, disk.history, None;
    code, token, temp := RunProlog(w, je, backend, disk, args);
    if code == 0 && token != None {
      ghost var name := RequestOf(w, env, CfgOf(args)).backend;
      if Releasable(w, env, other, name, token.value) {
        LeftWaiting(w, je, disk, env, CfgOf(args), token.value, temp, before, history, other, uid);
      }
    }
  }

  /** A job whose prolog succeeds with a token, and its epilog on the same host: exactly that token is released, for
      every owner, and no file is left, whenever the backend opens, its release works and the settings leave the
      metadata file in place. */
  method RunJob(w: World, je: Environment, backend: Backend, disk: Disk, args: seq<string>, p: Process, uid: nat, dirOk: bool)
    returns (code: int, ended: int, ghost token: Option<string>, ghost released: bool)
    requires je.Valid() && !je.broken && je.torn == "" && je.written == [] && disk.Valid() && Widths(w)
    requires Get(p.env, SPOOL_DIR) == Get(je.env, SPOOL_DIR)
    modifies je, backend, disk, p
    ensures code == 0 && token != None ==>
              && H.ParsePrologArgs(args).Ok? && RequestOf(w, old(je.env), CfgOf(args)).Granted? && token == w.token
              && (!backend.releaseFails && Releasable(w, old(je.env), old(p.env), RequestOf(w, old(je.env), CfgOf(args)).backend, token.value) ==>
                    && released && ended == 0
                    && backend.acquired == old(backend.acquired) + [token.value]
                    && backend.released == old(backend.released) + [token.value]
                    && backend.held == old(backend.held) + {token.value} - {token.value}
                    && (disk.Reliable() ==>
                          var path := ResolveMetadataPath(Get(old(je.env), SPOOL_DIR));
                          path != None && disk.files == old(disk.files) - {path.value}))
  {
    ghost var before, name := disk.files, "";
    code, token := StartJob(w, je, backend, disk, args, p.env, uid);
    if token != None && H.ParsePrologArgs(args).Ok? && RequestOf(w, old(je.env), CfgOf(args)).Granted? {
      name := RequestOf(w, old(je.env), CfgOf(args)).backend;
    }
    ended, released := EndJob(w, disk, backend, p, uid, dirOk, name, if token == None then "" else token.value, before);
  }
}

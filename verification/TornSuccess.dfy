/** When the job environment file says "success", told from the calls that fail: also after a failed
    prolog, if the last write stops just before its newline. */
module TornSuccess {
  import opened EnvList
  import opened ExitCodes
  import opened HookCommand
  import opened JobEnv
  import opened Prolog
  import opened PrologRun
  import opened Publish
  import opened Wrappers

  /** The plan ends with the status, and nothing before it claims success. */
  predicate EndsInStatus(plan: seq<(string, string)>) {
    plan != [] && plan[|plan| - 1] == SUCCESS && AllGood(plan[..|plan| - 1])
  }

  /** No write before the n-th fails. */
  ghost predicate NoneFailsBefore(je: Environment, n: nat) {
    forall k | 1 <= k < n :: !je.fails(k)
  }

  const STATUS_LINE := Pair(PROLOG_STATUS, "success")

  /** The status line arrives: its write does not fail, or fails at its newline. */
  ghost predicate StatusArrives(je: Environment, plan: seq<(string, string)>) {
    NoneFailsBefore(je, |plan|) && (je.fails(|plan|) ==> je.amount(|plan|) >= |STATUS_LINE|)
  }

  /** The torn line of a stopped run is the status line exactly if its write was the first to fail, at the newline. */
  lemma TornExactly(je: Environment, plan: seq<(string, string)>)
    requires je.Valid() && Stopped(je, plan) && EndsInStatus(plan)
    ensures je.torn == STATUS_LINE && je.attempt == SUCCESS
            <==> NoneFailsBefore(je, |plan|) && je.fails(|plan|) && je.amount(|plan|) >= |STATUS_LINE|
  {
    var k := |je.written|;
    assert je.attempt == (je.written + [je.attempt])[k] == plan[k];
    assert je.fails(je.calls) && je.calls == k + 1;
    if k < |plan| - 1 {
      assert plan[k] == plan[..|plan| - 1][k];
    }
  }

  /** With all checks passed, the plan is what a successful run exports. */
  lemma PlanIsAll(w: World, env: map<string, string>, cfg: HookOptions)
    requires RequestOf(w, env, cfg).Granted? && Verdict(w, env, cfg) == None
    ensures var backend := RequestOf(w, env, cfg).backend;
            && w.config != None && backend in w.config.value && w.token != None
            && PlanOf(w, env, cfg) == AllPairs(w, env, cfg, backend, w.config.value[backend], w.token.value)
            && SchedulerExport(w, EnvWithSettings(w, env, backend, w.config.value[backend]), cfg).Ok?
  {
    AfterSetUp(w, env, cfg, RequestOf(w, env, cfg).backend);
  }

  lemma GoodConcat(a: seq<(string, string)>, b: seq<(string, string)>)
    requires AllGood(a) && AllGood(b)
    ensures AllGood(a + b)
  {
  }

  lemma GoodPlan(w: World, env: map<string, string>, cfg: HookOptions)
    requires Tame(w) && OneLineValues(env) && RequestOf(w, env, cfg).Granted? && Verdict(w, env, cfg) == None
    ensures EndsInStatus(PlanOf(w, env, cfg))
  {
    PlanIsAll(w, env, cfg);
    RequestGood(w, env, cfg);
    var backend := RequestOf(w, env, cfg).backend;
    var d := w.config.value[backend];
    var log, settings := LogPairs(w.rustLog), BackendPairs(backend, d.environments);
    var inner := EnvWithSettings(w, env, backend, d);
    LogGood(w);
    SettingsOneLine(w, env, backend, d);
    SchedulerGood(w, inner, cfg);
    TypeTextGood(w, backend, d);
    RuntimeGood(backend, w.token.value, TypeText(d));
    var runtime := RuntimePairs(backend, w.token.value, TypeText(d));
    GoodConcat(log, settings);
    GoodConcat(log + settings, SchedulerExport(w, inner, cfg).value);
    GoodConcat(FirstPairs(w, env, cfg, backend, d), runtime);
    assert (FirstPairs(w, env, cfg, backend, d) + runtime + [SUCCESS])[..|FirstPairs(w, env, cfg, backend, d) + runtime|]
           == FirstPairs(w, env, cfg, backend, d) + runtime;
  }

  lemma {:induction false} OneLineMap(pairs: seq<(string, string)>)
    requires AllGood(pairs)
    ensures OneLineValues(MapOf(pairs))
  {
    if pairs != [] {
      assert Good(pairs[|pairs| - 1]);
      OneLineMap(pairs[..|pairs| - 1]);
    }
  }

  lemma SettingsOneLine(w: World, env: map<string, string>, backend: string, d: Definition)
    requires Tame(w) && OneLineValues(env) && w.config != None && backend in w.config.value && d == w.config.value[backend]
    ensures OneLineValues(EnvWithSettings(w, env, backend, d))
  {
    LogGood(w);
    OneLineMap(LogPairs(w.rustLog));
    OneLineMap(BackendPairs(backend, d.environments));
  }

  /** Every check passes, and a backend was asked for. */
  predicate Passes(w: World, env: map<string, string>, args: seq<string>) {
    ParsePrologArgs(args).Ok?
    && var cfg := ParsePrologArgs(args).value.0;
       RequestOf(w, env, cfg).Granted? && Verdict(w, env, cfg) == None
  }

  function PlanFor(w: World, env: map<string, string>, args: seq<string>): seq<(string, string)>
    requires ParsePrologArgs(args).Ok?
  {
    PlanOf(w, env, ParsePrologArgs(args).value.0)
  }

  /** The run, with its plan: it wrote the whole plan, or was stopped on the way. */
  method RunToStatus(w: World, je: Environment, backend: Backend, disk: Disk, args: seq<string>)
    returns (code: int, ghost token: Option<string>, ghost passes: bool, ghost plan: seq<(string, string)>)
    requires je.Valid() && !je.broken && je.torn == "" && je.written == [] && disk.Valid() && Smooth(disk)
    requires Tame(w) && OneLineValues(je.env) && Complete(je.prior) && Get(Replay(je.prior), PROLOG_STATUS) != "success"
    modifies je, backend, disk
    ensures je.Valid() && passes == Passes(w, old(je.env), args) && (passes ==> plan == PlanFor(w, old(je.env), args))
    ensures passes ==> EndsInStatus(plan) && if code == 0 then token != None && !je.broken && je.written == plan else Stopped(je, plan)
    ensures Get(Replay(je.file), PROLOG_STATUS) == "success" <==> (code == 0 && token != None) || je.torn == STATUS_LINE
    ensures (code == 0 && token != None) || je.torn == STATUS_LINE ==> passes
    ensures je.torn == STATUS_LINE ==> je.attempt == SUCCESS
  {
    ghost var temp;
    ghost var env := je.env;
    code, token, temp := RunProlog(w, je, backend, disk, args);
    passes, plan := Passes(w, env, args), [];
    if passes {
      plan := PlanFor(w, env, args);
      PlanIsAll(w, env, ParsePrologArgs(args).value.0);
      GoodPlan(w, env, ParsePrologArgs(args).value.0);
    }
  }

  /** What a run leaves if no call on the disk fails: told from its inputs and the failing writes, the file
      says "success" exactly if every check passes and the status line arrives, the program succeeds exactly
      if no write fails at all, and so a failed program reports success exactly if the first write to fail is
      that of the status line, at its newline. */
  method StatusExactly(w: World, je: Environment, backend: Backend, disk: Disk, args: seq<string>)
    returns (code: int, ghost token: Option<string>)
    requires je.Valid() && !je.broken && je.torn == "" && je.written == [] && disk.Valid() && Smooth(disk)
    requires Tame(w) && OneLineValues(je.env) && Complete(je.prior) && Get(Replay(je.prior), PROLOG_STATUS) != "success"
    modifies je, backend, disk
    ensures Get(Replay(je.file), PROLOG_STATUS) == "success"
            <==> Passes(w, old(je.env), args) && StatusArrives(je, PlanFor(w, old(je.env), args))
    ensures code == 0 && token != None ==> Passes(w, old(je.env), args)
    ensures Passes(w, old(je.env), args) ==> (code == 0 <==> NoneFailsBefore(je, |PlanFor(w, old(je.env), args)| + 1))
  {
    ghost var passes, plan;
    code, token, passes, plan := RunToStatus(w, je, backend, disk, args);
    if passes {
      StatusFrom(je, plan, code == 0);
    }
  }

  /** A run that wrote its whole plan, or was stopped on the way. */
  lemma StatusFrom(je: Environment, plan: seq<(string, string)>, whole: bool)
    requires je.Valid() && EndsInStatus(plan) && (if whole then !je.broken && je.written == plan else Stopped(je, plan))
    requires je.torn == STATUS_LINE ==> je.attempt == SUCCESS
    ensures whole <==> NoneFailsBefore(je, |plan| + 1)
    ensures whole || je.torn == STATUS_LINE <==> StatusArrives(je, plan)
  {
    assert je.broken ==> je.fails(je.calls);
    if !whole {
      assert |je.written + [je.attempt]| <= |plan|;
      TornExactly(je, plan);
    }
  }

  // ---- A run that ends so ------------------------------------------------------------------------

  function AnySlots(raw: string): Option<int> {
    Some(1)
  }

  lemma TamePairs()
    ensures AllGood(BackendPairs("a", [])) && '\n' !in "direct" && '\n' !in "t" && '\n' !in ""
    ensures '\n' !in "7" && '\n' !in "/spool/active_jobs/7.1"
  {
  }

  lemma TameWorking()
    ensures Tame(Working(AnySlots)) && OneLineValues(JOB_ENV)
  {
    TamePairs();
  }

  lemma NothingReplayed()
    ensures Complete("") && Get(Replay(""), PROLOG_STATUS) == ""
  {
    assert Values([]) == map[];
  }

  lemma ArgumentsRead()
    ensures ParsePrologArgs(PrologArgs(BOTH_NAMES)) == Ok((BOTH_NAMES, ""))
  {
    PrologParses(BOTH_NAMES, "");
    assert PrologArgs(BOTH_NAMES) + [] == PrologArgs(BOTH_NAMES);
  }

  /** An environment file that refuses one newline. */
  method TearingEnvironment(env: map<string, string>, last: nat) returns (je: Environment)
    ensures fresh(je) && je.Valid() && je.env == env && je.prior == "" && !je.broken && je.torn == "" && je.written == []
    ensures forall n :: je.fails(n) <==> n == last
    ensures je.amount(last) == |STATUS_LINE|
  {
    je := new Environment(env, "", n => n == last, n => |STATUS_LINE|);
  }

  lemma PlanNotEmpty(w: World, env: map<string, string>, args: seq<string>)
    requires Passes(w, env, args)
    ensures PlanFor(w, env, args) != []
  {
    PlanIsAll(w, env, ParsePrologArgs(args).value.0);
  }

  lemma OnlyTorn(je: Environment, plan: seq<(string, string)>)
    requires plan != [] && (forall n :: je.fails(n) <==> n == |plan|) && je.amount(|plan|) == |STATUS_LINE|
    ensures StatusArrives(je, plan) && !NoneFailsBefore(je, |plan| + 1)
  {
    assert je.fails(|plan|);
  }

  method FreshDisk() returns (disk: Disk)
    ensures fresh(disk) && disk.Valid() && Smooth(disk)
  {
    disk := new Disk(map[], n => false, n => 0, n => 0);
  }

  /** A run on an empty disk whose status line stops at its newline. */
  method RunTorn(w: World, env: map<string, string>, args: seq<string>) returns (code: int, file: string)
    requires Tame(w) && OneLineValues(env) && Passes(w, env, args)
    ensures code != 0 && Get(Replay(file), PROLOG_STATUS) == "success"
  {
    var plan := PlanFor(w, env, args);
    PlanNotEmpty(w, env, args);
    var disk := FreshDisk();
    var backend := new Backend({}, false);
    var je := TearingEnvironment(env, |plan|);
    NothingReplayed();
    OnlyTorn(je, plan);
    ghost var token;
    code, token := StatusExactly(w, je, backend, disk, args);
    file := je.file;
  }

  /** The job that everything else would serve fails and leaves the status "success". */
  method FailureReadsAsSuccess() returns (code: int, file: string)
    ensures code != 0 && Get(Replay(file), PROLOG_STATUS) == "success"
  {
    TameWorking();
    ArgumentsRead();
    OtherwiseServed(AnySlots);
    code, file := RunTorn(Working(AnySlots), JOB_ENV, PrologArgs(BOTH_NAMES));
  }
}

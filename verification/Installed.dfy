/** What a completed setup leaves in the scheduler, told on the state itself. */
module Installed {
  import opened Decimal
  import opened HookCommand
  import opened HostCoverage
  import opened Paths
  import opened Qmaster
  import opened Sanitize
  import opened Setup
  import opened SetupRun
  import opened Text
  import opened Wrappers

  /** A complex entry with these properties, letter case aside where the scheduler ignores it. */
  predicate HasComplex(u: State, name: string, typ: string, relop: string, consumable: string, default': string, urgency: int) {
    name in u.complexes
    && var c := u.complexes[name];
       && c.shortcut == name && c.typ == typ && c.relop == relop && EqualFold(c.requestable, "YES")
       && EqualFold(c.consumable, consumable) && c.default' == default' && c.urgency == urgency
  }

  /** The host has the value; an empty one may be missing. */
  predicate HasValue(u: State, host: string, resource: string, value: string) {
    host in u.hosts && (if resource in u.hosts[host].values then u.hosts[host].values[resource] == value else value == "")
  }

  /** The sensor is the host's only one with its file name, and no placeholder is left. */
  predicate HasSensor(u: State, host: string, path: string) {
    host in u.configs
    && var sensors := u.configs[host].loadSensors;
       && path in sensors
       && forall i :: 0 <= i < |sensors| && sensors[i] != path ==> Base(sensors[i]) != Base(path) && !EqualFold(sensors[i], "NONE")
  }

  lemma EnsureMeans(d: Complex, u: State)
    requires d.shortcut == d.name && d.requestable == "YES"
    ensures Absorbed(Ensure(d), u) ==> HasComplex(u, d.name, d.typ, d.relop, d.consumable, d.default', d.urgency)
  {
    var done := ApplyEnsure(d, u);
    assert d.name in done.complexes && Qmaster.Matches(done.complexes[d.name], d);
  }

  lemma ValueMeans(host: string, resource: string, value: string, u: State)
    ensures Absorbed(SetValue(host, resource, value), u) ==> HasValue(u, host, resource, value)
    ensures Absorbed(ClearValue(host, resource), u) ==> host in u.hosts && resource !in u.hosts[host].values
  {
    if host in u.hosts {
      assert Lookup(ApplySet(host, resource, value, u).hosts[host].values, resource) == value;
      assert resource !in ApplyClear(host, resource, u).hosts[host].values;
    }
  }

  lemma {:induction false} OthersAre(sensors: seq<string>, path: string)
    ensures forall x <- Others(sensors, path) :: !EqualFold(x, "NONE") && Base(x) != Base(path)
  {
    if sensors != [] {
      OthersAre(sensors[1..], path);
    }
  }

  /** Other sensors of the host stay, in their order. */
  predicate Within(a: seq<string>, b: seq<string>) {
    if a == [] then true else if b == [] then false else if a[0] == b[0] then Within(a[1..], b[1..]) else Within(a, b[1..])
  }

  lemma {:induction false} OthersStay(sensors: seq<string>, path: string, x: string)
    ensures x in Others(sensors, path) <==> x in sensors && !EqualFold(x, "NONE") && Base(x) != Base(path)
    ensures Within(Others(sensors, path), sensors)
  {
    if sensors != [] {
      OthersStay(sensors[1..], path, x);
      assert x in sensors <==> x == sensors[0] || x in sensors[1..];
      if Replaced(sensors[0], path) {
        assert [] + Others(sensors[1..], path) == Others(sensors[1..], path);
        WithinMore(Others(sensors[1..], path), sensors[0], sensors[1..]);
        assert [sensors[0]] + sensors[1..] == sensors;
      } else {
        assert Others(sensors, path)[1..] == Others(sensors[1..], path);
      }
    }
  }

  lemma {:induction false} WithinTail(a: seq<string>, b: seq<string>)
    requires a != [] && Within(a, b)
    ensures Within(a[1..], b)
    decreases |b|, 0
  {
    if a[0] == b[0] {
      WithinMore(a[1..], b[0], b[1..]);
      assert [b[0]] + b[1..] == b;
    } else {
      WithinTail(a, b[1..]);
      WithinMore(a[1..], b[0], b[1..]);
      assert [b[0]] + b[1..] == b;
    }
  }

  lemma {:induction false} WithinMore(a: seq<string>, x: string, b: seq<string>)
    requires Within(a, b)
    ensures Within(a, [x] + b)
    decreases |b|, 1
  {
    assert ([x] + b)[1..] == b;
    if a != [] && a[0] == x {
      WithinTail(a, b);
    }
  }

  lemma SensorMeans(host: string, path: string, u: State)
    requires Absorbed(Sensor(host, path), u)
    ensures HasSensor(u, host, path)
  {
    SensorAbsorbed(host, path, u);
    OthersAre(u.configs[host].loadSensors, path);
    var sensors := u.configs[host].loadSensors;
    assert sensors == Others(sensors, path) + [path];
    forall i | 0 <= i < |sensors| && sensors[i] != path
      ensures Base(sensors[i]) != Base(path) && !EqualFold(sensors[i], "NONE")
    {
      assert sensors[i] in Others(sensors, path);
    }
  }

  lemma ReportMeans(pattern: string, u: State)
    ensures Absorbed(Report(pattern), u) ==> pattern in u.global.reporting
  {
    assert pattern in ApplyReport(pattern, u).global.reporting;
  }

  // ---- The queue ----

  /** The settings the launcher is to find: the adapter's cluster, with the spool roots of the scheduler. */
  function ClusterSettings(c: Cluster, roots: seq<string>): LaunchSettings {
    LaunchSettings(Clean(c.sgeRoot), if c.sgeCell == "" then "default" else c.sgeCell, roots, c.qmasterPort, c.execdPort)
  }

  function LauncherOf(h: HookSetup): string {
    if h.launcher != "" then h.launcher else JoinPath(Dir(TrimSpace(h.prolog)), "qrmi-ocs-launch")
  }

  /** The variable that the scheduler replaces stands in no word of the command but the last. */
  predicate OwnerFree(h: HookSetup, roots: seq<string>, hook: string, args: seq<string>) {
    LauncherArgs(h.cluster, roots) != None
    && OwnerOnlyLast([LauncherOf(h)] + Arguments(TrimSpace(hook), LauncherArgs(h.cluster, roots).value, args))
  }

  /** The scheduler runs the launcher as the configured user, and the launcher finds its settings and this hook. */
  predicate Starts(command: string, h: HookSetup, roots: seq<string>, hook: string, owner: string) {
    var run := Run(command, owner);
    && run.user == h.user && run.argv != [] && run.argv[0] == LauncherOf(h)
    && var options := Options(run.argv[1..], NO_SETTINGS);
       options.Ok? && options.value.0 == ClusterSettings(h.cluster, roots) && options.value.1[0] == TrimSpace(hook)
  }

  /** What the launcher hands on to the hook. */
  function HookArgs(command: string, owner: string): seq<string> {
    var run := Run(command, owner);
    var options := if run.argv == [] then Err(Usage) else Options(run.argv[1..], NO_SETTINGS);
    if options.Err? then [] else options.value.1[1..]
  }

  lemma HooksMean(h: HookSetup, readGlobal: bool, u: State)
    requires Absorbed(Hooks(h, readGlobal), u)
    ensures h.queue in u.queues && SpoolRoots(u, readGlobal) != None
    ensures var q, roots := u.queues[h.queue], SpoolRoots(u, readGlobal).value;
            var args := LauncherArgs(h.cluster, roots);
            && |q.prolog| == |q.epilog| == 1 && args != None
            && CommandOf(h.prolog, LauncherOf(h), h.user, args.value, PrologArgs(h.options)) == Ok(q.prolog[0])
            && CommandOf(h.epilog, LauncherOf(h), h.user, args.value, CommonArgs(h.options)) == Ok(q.epilog[0])
  {
    var commands := HookCommands(h, u, readGlobal).value;
    var q := Queue(h.queue, [commands.0], [commands.1], u.queues[h.queue].rest);
    assert u.queues == u.queues[h.queue := q];
    assert u.queues[h.queue] == q;
  }

  /** The queue's prolog is the prolog, with the options it was set up with, and its epilog the epilog. */
  predicate RunsHooks(u: State, h: HookSetup, readGlobal: bool, owner: string) {
    h.queue in u.queues && SpoolRoots(u, readGlobal) != None
    && var q, roots := u.queues[h.queue], SpoolRoots(u, readGlobal).value;
       && |q.prolog| == |q.epilog| == 1
       && (TrimSpace(h.prolog) == "NONE" ==> q.prolog[0] == "NONE")
       && (TrimSpace(h.epilog) == "NONE" ==> q.epilog[0] == "NONE")
       && (TrimSpace(h.prolog) != "NONE" && UsableOptions(h.options) && OwnerFree(h, roots, h.prolog, PrologArgs(h.options)) ==>
             Starts(q.prolog[0], h, roots, h.prolog, owner)
             && (ParsePrologArgs(HookArgs(q.prolog[0], owner)) == Ok((h.options, owner)) <==> !IsFlag(owner)))
       && (TrimSpace(h.epilog) != "NONE" && OwnerFree(h, roots, h.epilog, CommonArgs(h.options)) ==>
             Starts(q.epilog[0], h, roots, h.epilog, owner)
             && (ParseEpilogArgs(HookArgs(q.epilog[0], owner)) == Ok((h.options.configPath, h.options.logLevel, owner))
                 <==> !IsFlag(owner)))
  }

  lemma QueueRuns(h: HookSetup, readGlobal: bool, u: State, owner: string)
    requires Absorbed(Hooks(h, readGlobal), u) && NoneOf(Blank, owner)
    ensures RunsHooks(u, h, readGlobal, owner)
  {
    HooksMean(h, readGlobal, u);
    var q, roots := u.queues[h.queue], SpoolRoots(u, readGlobal).value;
    if TrimSpace(h.prolog) != "NONE" && UsableOptions(h.options) && OwnerFree(h, roots, h.prolog, PrologArgs(h.options)) {
      PrologStarts(q.prolog[0], h, roots, owner);
    }
    if TrimSpace(h.epilog) != "NONE" && OwnerFree(h, roots, h.epilog, CommonArgs(h.options)) {
      EpilogStarts(q.epilog[0], h, roots, owner);
    }
  }

  lemma PrologStarts(command: string, h: HookSetup, roots: seq<string>, owner: string)
    requires TrimSpace(h.prolog) != "NONE" && UsableOptions(h.options) && NoneOf(Blank, owner)
    requires OwnerFree(h, roots, h.prolog, PrologArgs(h.options))
    requires CommandOf(h.prolog, LauncherOf(h), h.user, LauncherArgs(h.cluster, roots).value, PrologArgs(h.options)) == Ok(command)
    ensures Starts(command, h, roots, h.prolog, owner)
    ensures ParsePrologArgs(HookArgs(command, owner)) == Ok((h.options, owner)) <==> !IsFlag(owner)
  {
    PrologRoundTrip(h.prolog, LauncherOf(h), h.user, h.cluster, roots, h.options, owner);
    assert ([TrimSpace(h.prolog)] + (PrologArgs(h.options) + OwnerArg(owner)))[1..] == PrologArgs(h.options) + OwnerArg(owner);
  }

  lemma EpilogStarts(command: string, h: HookSetup, roots: seq<string>, owner: string)
    requires TrimSpace(h.epilog) != "NONE" && NoneOf(Blank, owner)
    requires OwnerFree(h, roots, h.epilog, CommonArgs(h.options))
    requires CommandOf(h.epilog, LauncherOf(h), h.user, LauncherArgs(h.cluster, roots).value, CommonArgs(h.options)) == Ok(command)
    ensures Starts(command, h, roots, h.epilog, owner)
    ensures ParseEpilogArgs(HookArgs(command, owner)) == Ok((h.options.configPath, h.options.logLevel, owner)) <==> !IsFlag(owner)
  {
    EpilogRoundTrip(h.epilog, LauncherOf(h), h.user, h.cluster, roots, h.options, owner);
    assert ([TrimSpace(h.epilog)] + (CommonArgs(h.options) + OwnerArg(owner)))[1..] == CommonArgs(h.options) + OwnerArg(owner);
  }

  // ---- The whole state ----

  /** After a completed run, every step of the plan is done. */
  lemma AllDone(hosts: seq<string>, value: string, o: ResourceOptions, h: HookSetup, readGlobal: bool, s: State, u: State)
    requires DistinctNames(o) && RunSteps(SetupPlan(hosts, value, o, h, readGlobal), s) == (u, true)
    ensures forall op <- SetupPlan(hosts, value, o, h, readGlobal) :: Absorbed(op, u)
  {
    SetupCompatible(hosts, value, o, h, readGlobal);
    PlanAbsorbed(SetupPlan(hosts, value, o, h, readGlobal), [], s);
  }

  lemma {:induction false} HostStepsIn(hosts: seq<string>, value: string, o: ResourceOptions, host: string)
    requires host in hosts
    ensures SetValue(host, "qpu", value) in HostSteps(hosts, value, o)
    ensures o.enableSlots && o.slotsScope == "host" ==> CapacityStep(host, o) in HostSteps(hosts, value, o)
  {
    if hosts[0] != host {
      HostStepsIn(hosts[1..], value, o, host);
    } else {
      assert CapacityStep(host, o) in [CapacityStep(host, o)];
    }
  }

  /** The slots a host or the cluster has: the configured number, or no value. */
  predicate HasSlots(u: State, host: string, o: ResourceOptions) {
    if o.slotsCapacity > 0 then HasValue(u, host, o.slotsName, Itoa(o.slotsCapacity))
    else host in u.hosts && o.slotsName !in u.hosts[host].values
  }

  lemma SlotsMean(host: string, o: ResourceOptions, u: State)
    ensures Absorbed(CapacityStep(host, o), u) ==> HasSlots(u, host, o)
  {
    ValueMeans(host, o.slotsName, Itoa(o.slotsCapacity), u);
  }

  lemma PlanHas(hosts: seq<string>, value: string, o: ResourceOptions, h: HookSetup, readGlobal: bool)
    ensures var plan := SetupPlan(hosts, value, o, h, readGlobal);
            && Ensure(QpuEntry()) in plan && Hooks(h, readGlobal) in plan && Report(REPORTING_PATTERN) in plan
            && (forall op <- SlotsSteps(o) :: op in plan) && (forall op <- ReadySteps(o) :: op in plan)
            && (forall op <- CapacitySteps("global", "global", o) :: op in plan)
            && (forall op <- HostSteps(hosts, value, o) :: op in plan)
  {
    var plan := SetupPlan(hosts, value, o, h, readGlobal);
    assert plan[0] == Ensure(QpuEntry());
    assert HookPlan(h, readGlobal)[0] == Hooks(h, readGlobal) && HookPlan(h, readGlobal)[1] == Report(REPORTING_PATTERN);
    assert forall op <- HookPlan(h, readGlobal) :: op in plan;
  }

  /** A completed setup: the complexes with their properties, the hosts' backends and slots, the sensor and its
      start value, and the reporting pattern. */
  lemma SetupInstalls(hosts: seq<string>, value: string, o: ResourceOptions, h: HookSetup, readGlobal: bool, done: seq<Op>,
                      s: State, u: State, writes: nat)
    requires DistinctNames(o) && Ran(SetupPlan(hosts, value, o, h, readGlobal), done, s, u, true, writes)
    ensures HasComplex(u, "qpu", "STRING", "==", "NO", "NONE", 1000) && forall host <- hosts :: HasValue(u, host, "qpu", value)
    ensures o.enableSlots ==>
              && HasComplex(u, o.slotsName, "INT", "<=", "JOB", "0", 0)
              && (o.slotsScope == "global" ==> HasSlots(u, "global", o))
              && (o.slotsScope == "host" ==> forall host <- hosts :: HasSlots(u, host, o))
    ensures o.enableLoadSensor ==>
              && HasComplex(u, o.readyName, "INT", "<=", "NO", "0", 0) && HasValue(u, "global", o.readyName, "1")
              && HasSensor(u, o.loadSensorHost, o.loadSensorPath)
    ensures "usage_patterns=qrmi:qrmi_*" in u.global.reporting
  {
    AllDone(hosts, value, o, h, readGlobal, s, u);
    PlanHas(hosts, value, o, h, readGlobal);
    EnsureMeans(QpuEntry(), u);
    ReportMeans(REPORTING_PATTERN, u);
    HostsMean(hosts, value, o, h, readGlobal, u);
    if o.enableSlots {
      assert SlotsSteps(o)[0] == Ensure(SlotsEntry(o.slotsName));
      EnsureMeans(SlotsEntry(o.slotsName), u);
      if o.slotsScope == "global" {
        assert CapacitySteps("global", "global", o)[0] == CapacityStep("global", o);
        SlotsMean("global", o, u);
      }
    }
    if o.enableLoadSensor {
      SensorInstalled(o, u);
    }
  }

  lemma HostsMean(hosts: seq<string>, value: string, o: ResourceOptions, h: HookSetup, readGlobal: bool, u: State)
    requires forall op <- HostSteps(hosts, value, o) :: Absorbed(op, u)
    ensures forall host <- hosts :: HasValue(u, host, "qpu", value)
    ensures o.enableSlots && o.slotsScope == "host" ==> forall host <- hosts :: HasSlots(u, host, o)
  {
    forall host <- hosts
      ensures HasValue(u, host, "qpu", value)
      ensures o.enableSlots && o.slotsScope == "host" ==> HasSlots(u, host, o)
    {
      HostStepsIn(hosts, value, o, host);
      ValueMeans(host, "qpu", value, u);
      SlotsMean(host, o, u);
    }
  }

  lemma SensorInstalled(o: ResourceOptions, u: State)
    requires o.enableLoadSensor && forall op <- ReadySteps(o) :: Absorbed(op, u)
    ensures HasComplex(u, o.readyName, "INT", "<=", "NO", "0", 0) && HasValue(u, "global", o.readyName, "1")
    ensures HasSensor(u, o.loadSensorHost, o.loadSensorPath)
  {
    var steps := ReadySteps(o);
    assert steps[0] == Ensure(ReadyEntry(o.readyName)) && steps[1] == SetValue("global", o.readyName, "1");
    assert steps[2] == Sensor(o.loadSensorHost, o.loadSensorPath);
    EnsureMeans(ReadyEntry(o.readyName), u);
    ValueMeans("global", o.readyName, "1", u);
    SensorMeans(o.loadSensorHost, o.loadSensorPath, u);
  }

  /** After a completed setup, the scheduler starts the prolog before and the epilog after every job of the queue, as
      the configured user, with a launcher that finds the cluster and its spool roots, and each with its own options. */
  lemma SetupStartsHooks(hosts: seq<string>, value: string, o: ResourceOptions, h: HookSetup, readGlobal: bool, done: seq<Op>,
                         s: State, u: State, writes: nat, owner: string)
    requires DistinctNames(o) && Ran(SetupPlan(hosts, value, o, h, readGlobal), done, s, u, true, writes) && NoneOf(Blank, owner)
    ensures RunsHooks(u, h, readGlobal, owner)
  {
    AllDone(hosts, value, o, h, readGlobal, s, u);
    PlanHas(hosts, value, o, h, readGlobal);
    QueueRuns(h, readGlobal, u, owner);
  }
}

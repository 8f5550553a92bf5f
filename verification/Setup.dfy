/** setup-qrmi-support as a list of steps: interrupted anywhere and run again, it converges. */
module Setup {
  import opened Decimal
  import opened Qmaster
  import opened Wrappers

  // ---- Running steps -------------------------------------------------------------------

  /** The state after the steps, up to the first one that fails. */
  function RunSteps(plan: seq<Op>, s: State): (State, bool) {
    if plan == [] then (s, true)
    else
      var next := Apply(plan[0], s);
      if next == None then (s, false) else RunSteps(plan[1..], next.value)
  }

  lemma {:induction false} RunAppend(a: seq<Op>, b: seq<Op>, s: State)
    ensures RunSteps(a + b, s)
            == if RunSteps(a, s).1 then RunSteps(b, RunSteps(a, s).0) else RunSteps(a, s)
  {
    if a == [] {
      assert a + b == b;
    } else {
      assert (a + b)[1..] == a[1..] + b;
      if Apply(a[0], s) != None {
        RunAppend(a[1..], b, Apply(a[0], s).value);
      }
    }
  }

  /** Repeating the step changes nothing. */
  predicate Absorbed(op: Op, s: State) {
    Apply(op, s) == Some(s)
  }

  /** The second step leaves the effect of the first one alone. */
  predicate Compatible(a: Op, b: Op) {
    match a
    case Ensure(d) => b.Ensure? && b.desired.name == d.name ==> b == a
    case SetValue(host, resource, _) =>
      && (b.SetValue? && b.host == host && b.resource == resource ==> b == a)
      && (b.ClearValue? ==> b.host != host || b.resource != resource)
    case ClearValue(host, resource) => b.SetValue? ==> b.host != host || b.resource != resource
    case Sensor(host, _) => b.Sensor? && b.host == host ==> b == a
    case Hooks(_, _) => b.Report?
    case Report(_) => !b.Hooks?
  }

  predicate CompatiblePlan(plan: seq<Op>) {
    plan != [] ==> (forall b <- plan[1..] :: Compatible(plan[0], b)) && CompatiblePlan(plan[1..])
  }

  lemma {:induction false} LocalDirsFrame(s: State, t: State, listed: seq<string>)
    requires s.configs == t.configs
    ensures LocalDirs(s, listed) == LocalDirs(t, listed)
  {
    if listed != [] {
      LocalDirsFrame(s, t, listed[1..]);
    }
  }

  lemma SameCommands(h: HookSetup, s: State, t: State, readGlobal: bool)
    requires s.configs == t.configs && s.listed == t.listed && s.global.spoolDir == t.global.spoolDir
    ensures HookCommands(h, s, readGlobal) == HookCommands(h, t, readGlobal)
  {
    LocalDirsFrame(s, t, s.listed);
  }

  lemma {:induction false} OthersTwice(sensors: seq<string>, path: string)
    ensures Others(Others(sensors, path), path) == Others(sensors, path)
  {
    if sensors != [] {
      OthersTwice(sensors[1..], path);
      if !Replaced(sensors[0], path) {
        assert ([sensors[0]] + Others(sensors[1..], path))[1..] == Others(sensors[1..], path);
      } else {
        assert [] + Others(sensors[1..], path) == Others(sensors[1..], path);
      }
    }
  }

  lemma InstallTwice(sensors: seq<string>, path: string)
    ensures WithLoadSensor(WithLoadSensor(sensors, path), path) == WithLoadSensor(sensors, path)
  {
    OthersTwice(sensors, path);
    OthersSnoc(Others(sensors, path), path, path);
  }

  lemma SensorIsAbsorbed(host: string, path: string, s: State)
    ensures Absorbed(Sensor(host, path), ApplySensor(host, path, s))
  {
    InstallTwice(if host in s.configs then s.configs[host].loadSensors else [], path);
    assert Others([], path) + [path] == [path];
  }

  lemma HooksAreAbsorbed(h: HookSetup, readGlobal: bool, s: State)
    requires Apply(Hooks(h, readGlobal), s) != None
    ensures Absorbed(Hooks(h, readGlobal), Apply(Hooks(h, readGlobal), s).value)
  {
    var t := Apply(Hooks(h, readGlobal), s).value;
    SameCommands(h, s, t, readGlobal);
    assert t.queues[h.queue := t.queues[h.queue]] == t.queues;
  }

  /** A step that has been done is done. */
  lemma DoneIsAbsorbed(op: Op, s: State)
    requires Apply(op, s) != None
    ensures Absorbed(op, Apply(op, s).value)
  {
    match op
    case Ensure(d) =>
    case SetValue(host, resource, value) =>
    case ClearValue(host, resource) =>
    case Sensor(host, path) => SensorIsAbsorbed(host, path, s);
    case Hooks(h, readGlobal) => HooksAreAbsorbed(h, readGlobal, s);
    case Report(pattern) =>
  }

  /** The complex values of an execution host. */
  function ValuesOf(s: State, host: string): map<string, string> {
    if host in s.hosts then s.hosts[host].values else map[]
  }

  /** A step changes one value of one host at most. */
  lemma ValuesAfter(b: Op, s: State, host: string, resource: string)
    requires Apply(b, s) != None
    ensures var t := Apply(b, s).value;
            && (host in s.hosts <==> host in t.hosts)
            && (!((b.SetValue? || b.ClearValue?) && b.host == host && b.resource == resource)
                ==> (resource in ValuesOf(s, host) <==> resource in ValuesOf(t, host))
                    && Lookup(ValuesOf(s, host), resource) == Lookup(ValuesOf(t, host), resource))
  {
  }

  lemma ValueStays(a: Op, b: Op, s: State)
    requires a.SetValue? || a.ClearValue?
    requires Absorbed(a, s) && Compatible(a, b) && Apply(b, s) != None
    ensures Absorbed(a, Apply(b, s).value)
  {
    ValuesAfter(b, s, a.host, a.resource);
    if b == a {
      DoneIsAbsorbed(b, s);
    }
  }

  lemma EntryStays(a: Op, b: Op, s: State)
    requires a.Ensure? && Absorbed(a, s) && Compatible(a, b) && Apply(b, s) != None
    ensures Absorbed(a, Apply(b, s).value)
  {
    var t := Apply(b, s).value;
    if b.Ensure? {
      if b == a {
        DoneIsAbsorbed(b, s);
      }
    } else {
      assert t.complexes == s.complexes;
    }
  }

  predicate Installed(host: string, path: string, configs: map<string, HostConfig>) {
    host in configs && WithLoadSensor(configs[host].loadSensors, path) == configs[host].loadSensors
  }

  lemma SensorAbsorbed(host: string, path: string, s: State)
    ensures Absorbed(Sensor(host, path), s) <==> Installed(host, path, s.configs)
  {
    if host in s.configs && !Installed(host, path, s.configs) {
      assert ApplySensor(host, path, s).configs[host].loadSensors != s.configs[host].loadSensors;
    } else if host !in s.configs {
      assert host in ApplySensor(host, path, s).configs;
    }
  }

  lemma SensorStays(a: Op, b: Op, s: State)
    requires a.Sensor? && Absorbed(a, s) && Compatible(a, b) && Apply(b, s) != None
    ensures Absorbed(a, Apply(b, s).value)
  {
    if b == a {
      DoneIsAbsorbed(b, s);
    } else {
      SensorAbsorbed(a.host, a.path, s);
      SensorAbsorbed(a.host, a.path, Apply(b, s).value);
    }
  }

  lemma StaysAbsorbed(a: Op, b: Op, s: State)
    requires Absorbed(a, s) && Compatible(a, b) && Apply(b, s) != None
    ensures Absorbed(a, Apply(b, s).value)
  {
    if a.SetValue? || a.ClearValue? {
      ValueStays(a, b, s);
    } else if a.Ensure? {
      EntryStays(a, b, s);
    } else if a.Sensor? {
      SensorStays(a, b, s);
    } else if a.Hooks? {
      SameCommands(a.setup, s, Apply(b, s).value, a.readGlobal);
    }
  }

  lemma {:induction false} StaysAbsorbedByAll(a: Op, plan: seq<Op>, s: State)
    requires Absorbed(a, s) && forall b <- plan :: Compatible(a, b)
    ensures Absorbed(a, RunSteps(plan, s).0)
  {
    if plan != [] && Apply(plan[0], s) != None {
      assert plan[0] in plan && forall b <- plan[1..] :: b in plan;
      StaysAbsorbed(a, plan[0], s);
      StaysAbsorbedByAll(a, plan[1..], Apply(plan[0], s).value);
    }
  }

  /** Running the plan after any part of it gives the plan's own result. */
  lemma {:induction false} RerunConverges(plan: seq<Op>, done: seq<Op>, s: State)
    requires CompatiblePlan(plan) && done <= plan
    ensures RunSteps(plan, RunSteps(done, s).0) == RunSteps(plan, s)
  {
    if done != [] && Apply(plan[0], s) != None {
      var t := Apply(plan[0], s).value;
      assert done[1..] <= plan[1..] && done[0] == plan[0];
      assert forall b <- done[1..] :: b in plan[1..];
      DoneIsAbsorbed(plan[0], s);
      StaysAbsorbedByAll(plan[0], done[1..], t);
      RerunConverges(plan[1..], done[1..], t);
    }
  }

  // ---- The plan -------------------------------------------------------------------------------------

  const QPU := "qpu"
  const GLOBAL := "global"
  const REPORTING_PATTERN := "usage_patterns=qrmi:qrmi_*"

  datatype ResourceOptions = ResourceOptions(enableSlots: bool, slotsName: string, slotsCapacity: int, slotsScope: string,
                                             enableLoadSensor: bool, readyName: string, loadSensorHost: string,
                                             loadSensorPath: string)

  function QpuEntry(): Complex {
    Complex(QPU, QPU, "STRING", "==", "YES", "NO", "NONE", 1000)
  }

  function SlotsEntry(name: string): Complex {
    Complex(name, name, "INT", "<=", "YES", "JOB", "0", 0)
  }

  function ReadyEntry(name: string): Complex {
    Complex(name, name, "INT", "<=", "YES", "NO", "0", 0)
  }

  function SlotsSteps(o: ResourceOptions): seq<Op> {
    if o.enableSlots then [Ensure(SlotsEntry(o.slotsName))] else []
  }

  function ReadySteps(o: ResourceOptions): seq<Op> {
    if !o.enableLoadSensor then []
    else [Ensure(ReadyEntry(o.readyName)), SetValue(GLOBAL, o.readyName, "1"), Sensor(o.loadSensorHost, o.loadSensorPath)]
  }

  function CapacityStep(host: string, o: ResourceOptions): Op {
    if o.slotsCapacity > 0 then SetValue(host, o.slotsName, Itoa(o.slotsCapacity)) else ClearValue(host, o.slotsName)
  }

  function CapacitySteps(host: string, scope: string, o: ResourceOptions): seq<Op> {
    if o.enableSlots && o.slotsScope == scope then [CapacityStep(host, o)] else []
  }

  function HostSteps(hosts: seq<string>, value: string, o: ResourceOptions): seq<Op> {
    if hosts == [] then []
    else [SetValue(hosts[0], QPU, value)] + (CapacitySteps(hosts[0], "host", o) + HostSteps(hosts[1..], value, o))
  }

  function ResourcePlan(hosts: seq<string>, value: string, o: ResourceOptions): seq<Op> {
    [Ensure(QpuEntry())] + (SlotsSteps(o) + (ReadySteps(o) + (CapacitySteps(GLOBAL, GLOBAL, o) + HostSteps(hosts, value, o))))
  }

  function HookPlan(h: HookSetup, readGlobal: bool): seq<Op> {
    [Hooks(h, readGlobal), Report(REPORTING_PATTERN)]
  }

  function SetupPlan(hosts: seq<string>, value: string, o: ResourceOptions, h: HookSetup, readGlobal: bool): seq<Op> {
    ResourcePlan(hosts, value, o) + HookPlan(h, readGlobal)
  }

  /** The names of the complexes that setup manages. */
  predicate DistinctNames(o: ResourceOptions) {
    && (o.enableSlots ==> o.slotsName != QPU)
    && (o.enableLoadSensor ==> o.readyName != QPU)
    && (o.enableSlots && o.enableLoadSensor ==> o.slotsName != o.readyName)
  }

  /** The resource steps that can occur for the options. */
  predicate Wanted(op: Op, value: string, o: ResourceOptions) {
    match op
    case Ensure(d) =>
      || d == QpuEntry()
      || (o.enableSlots && d == SlotsEntry(o.slotsName))
      || (o.enableLoadSensor && d == ReadyEntry(o.readyName))
    case SetValue(host, resource, v) =>
      || (resource == QPU && v == value)
      || (o.enableSlots && op == CapacityStep(host, o))
      || (o.enableLoadSensor && op == SetValue(GLOBAL, o.readyName, "1"))
    case ClearValue(host, _) => o.enableSlots && op == CapacityStep(host, o)
    case Sensor(_, _) => op == Sensor(o.loadSensorHost, o.loadSensorPath)
    case Hooks(_, _) => false
    case Report(_) => false
  }

  lemma WantedCompatible(a: Op, b: Op, value: string, o: ResourceOptions)
    requires DistinctNames(o) && Wanted(a, value, o) && Wanted(b, value, o)
    ensures Compatible(a, b)
  {
  }

  lemma {:induction false} HostsWanted(hosts: seq<string>, value: string, o: ResourceOptions)
    ensures forall op <- HostSteps(hosts, value, o) :: Wanted(op, value, o)
  {
    if hosts != [] {
      HostsWanted(hosts[1..], value, o);
    }
  }

  lemma PlanWanted(hosts: seq<string>, value: string, o: ResourceOptions)
    ensures forall op <- ResourcePlan(hosts, value, o) :: Wanted(op, value, o)
  {
    HostsWanted(hosts, value, o);
  }

  lemma {:induction false} CompatibleWithHooks(plan: seq<Op>, value: string, o: ResourceOptions, h: HookSetup, readGlobal: bool)
    requires DistinctNames(o) && forall op <- plan :: Wanted(op, value, o)
    ensures CompatiblePlan(plan + HookPlan(h, readGlobal)) && CompatiblePlan(plan)
  {
    var tail := HookPlan(h, readGlobal);
    if plan == [] {
      assert plan + tail == tail && tail[1..] == [Report(REPORTING_PATTERN)] && tail[1..][1..] == [];
    } else {
      assert plan[0] in plan && forall op <- plan[1..] :: op in plan;
      CompatibleWithHooks(plan[1..], value, o, h, readGlobal);
      assert (plan + tail)[1..] == plan[1..] + tail;
      forall b <- plan[1..] + tail
        ensures Compatible(plan[0], b)
      {
        if b in plan[1..] {
          WantedCompatible(plan[0], b, value, o);
        }
      }
    }
  }

  lemma SetupCompatible(hosts: seq<string>, value: string, o: ResourceOptions, h: HookSetup, readGlobal: bool)
    requires DistinctNames(o)
    ensures CompatiblePlan(SetupPlan(hosts, value, o, h, readGlobal)) && CompatiblePlan(ResourcePlan(hosts, value, o))
  {
    PlanWanted(hosts, value, o);
    CompatibleWithHooks(ResourcePlan(hosts, value, o), value, o, h, readGlobal);
  }

  /** Setup stopped anywhere and run again ends where one uninterrupted run ends. */
  lemma SetupConverges(hosts: seq<string>, value: string, o: ResourceOptions, h: HookSetup, done: seq<Op>, s: State)
    requires DistinctNames(o) && done <= SetupPlan(hosts, value, o, h, true)
    ensures var plan := SetupPlan(hosts, value, o, h, true);
            RunSteps(plan, RunSteps(done, s).0) == RunSteps(plan, s)
  {
    SetupCompatible(hosts, value, o, h, true);
    RerunConverges(SetupPlan(hosts, value, o, h, true), done, s);
  }

  // ---- A run that could not read the global configuration ------------------------------------------------

  /** Other roots give other commands, which the next hook step replaces. */
  lemma HooksReplace(h: HookSetup, s: State)
    requires Apply(Hooks(h, true), s) != None && Apply(Hooks(h, false), s) != None
    ensures Apply(Hooks(h, true), Apply(Hooks(h, false), s).value) == Apply(Hooks(h, true), s)
  {
    SameCommands(h, s, Apply(Hooks(h, false), s).value, true);
    var a, b := Apply(Hooks(h, false), s).value.queues[h.queue], Apply(Hooks(h, true), s).value.queues[h.queue];
    assert s.queues[h.queue := a][h.queue := b] == s.queues[h.queue := b];
  }

  lemma HooksThenReport(h: HookSetup, pattern: string, s: State)
    requires Apply(Hooks(h, true), s) != None
    ensures Apply(Hooks(h, true), ApplyReport(pattern, s)) == Some(ApplyReport(pattern, Apply(Hooks(h, true), s).value))
  {
    SameCommands(h, s, ApplyReport(pattern, s), true);
  }

  lemma TwoSteps(a: Op, b: Op, s: State)
    ensures RunSteps([a], s) == if Apply(a, s) == None then (s, false) else (Apply(a, s).value, true)
    ensures RunSteps([a, b], s) == if Apply(a, s) == None then (s, false) else RunSteps([b], Apply(a, s).value)
  {
    assert [a][1..] == [] && [a, b][1..] == [b];
  }

  lemma HookRepairs(h: HookSetup, s: State)
    requires RunSteps(HookPlan(h, true), s).1 && Apply(Hooks(h, false), s) != None
    ensures RunSteps(HookPlan(h, true), Apply(Hooks(h, false), s).value) == RunSteps(HookPlan(h, true), s)
  {
    var t := Apply(Hooks(h, false), s).value;
    TwoSteps(Hooks(h, true), Report(REPORTING_PATTERN), s);
    TwoSteps(Hooks(h, true), Report(REPORTING_PATTERN), t);
    HooksReplace(h, s);
  }

  lemma ReportFirst(h: HookSetup, t: State)
    requires Apply(Hooks(h, true), t) != None
    ensures RunSteps(HookPlan(h, true), ApplyReport(REPORTING_PATTERN, t)) == RunSteps(HookPlan(h, true), t)
  {
    var good, report := Hooks(h, true), Report(REPORTING_PATTERN);
    var v := Apply(good, t).value;
    var u := ApplyReport(REPORTING_PATTERN, t);
    HooksThenReport(h, REPORTING_PATTERN, t);
    TwoSteps(good, report, t);
    TwoSteps(good, report, u);
    TwoSteps(report, report, v);
    TwoSteps(report, report, ApplyReport(REPORTING_PATTERN, v));
    DoneIsAbsorbed(report, v);
  }

  lemma RunHookPrefix(h: HookSetup, done: seq<Op>, s: State)
    requires done <= HookPlan(h, false)
    ensures RunSteps(done, s).0
            == if done == [] || Apply(Hooks(h, false), s) == None then s
               else
                 var t := Apply(Hooks(h, false), s).value;
                 if |done| == 1 then t else ApplyReport(REPORTING_PATTERN, t)
  {
    var bad, report := Hooks(h, false), Report(REPORTING_PATTERN);
    PrefixOfTwo(done, bad, report);
    OneOrTwo(bad, REPORTING_PATTERN, s);
  }

  lemma PrefixOfTwo(done: seq<Op>, a: Op, b: Op)
    requires done <= [a, b]
    ensures done == [] || done == [a] || done == [a, b]
  {
  }

  lemma OneOrTwo(a: Op, pattern: string, s: State)
    ensures RunSteps([a], s).0 == if Apply(a, s) == None then s else Apply(a, s).value
    ensures RunSteps([a, Report(pattern)], s).0
            == if Apply(a, s) == None then s else ApplyReport(pattern, Apply(a, s).value)
  {
    TwoSteps(a, Report(pattern), s);
    if Apply(a, s) != None {
      TwoSteps(Report(pattern), Report(pattern), Apply(a, s).value);
    }
  }

  lemma HookPlanRepairs(h: HookSetup, done: seq<Op>, s: State)
    requires done <= HookPlan(h, false) && RunSteps(HookPlan(h, true), s).1
    ensures RunSteps(HookPlan(h, true), RunSteps(done, s).0) == RunSteps(HookPlan(h, true), s)
  {
    RunHookPrefix(h, done, s);
    if Apply(Hooks(h, false), s) != None {
      HookRepairs(h, s);
      HooksApply(h, s);
      ReportFirst(h, Apply(Hooks(h, false), s).value);
    }
  }

  lemma HooksApply(h: HookSetup, s: State)
    requires RunSteps(HookPlan(h, true), s).1 && Apply(Hooks(h, false), s) != None
    ensures Apply(Hooks(h, true), Apply(Hooks(h, false), s).value) != None
  {
    TwoSteps(Hooks(h, true), Report(REPORTING_PATTERN), s);
    HooksReplace(h, s);
  }

  lemma {:induction false} AllAbsorbed(plan: seq<Op>, s: State)
    requires forall op <- plan :: Absorbed(op, s)
    ensures RunSteps(plan, s) == (s, true)
  {
    if plan != [] {
      assert plan[0] in plan && forall op <- plan[1..] :: op in plan;
      AllAbsorbed(plan[1..], s);
    }
  }

  lemma {:induction false} PlanAbsorbed(plan: seq<Op>, tail: seq<Op>, s: State)
    requires CompatiblePlan(plan) && RunSteps(plan, s).1
    requires forall a <- plan, b <- tail :: Compatible(a, b)
    ensures forall op <- plan :: Absorbed(op, RunSteps(tail, RunSteps(plan, s).0).0)
  {
    if plan != [] {
      var t := Apply(plan[0], s).value;
      assert plan[0] in plan && forall a <- plan[1..] :: a in plan;
      PlanAbsorbed(plan[1..], tail, t);
      DoneIsAbsorbed(plan[0], s);
      StaysAbsorbedByAll(plan[0], plan[1..], t);
      StaysAbsorbedByAll(plan[0], tail, RunSteps(plan, s).0);
    }
  }

  lemma WantedBeforeHooks(plan: seq<Op>, tail: seq<Op>, value: string, o: ResourceOptions, h: HookSetup)
    requires (forall op <- plan :: Wanted(op, value, o)) && tail <= HookPlan(h, false)
    ensures forall a <- plan, b <- tail :: Compatible(a, b)
  {
    assert forall b <- tail :: b.Hooks? || b.Report?;
  }

  /** A run whose hook step silently skipped the global directory is repaired by the next one,
      whenever an uninterrupted run succeeds. */
  lemma SetupRepairs(hosts: seq<string>, value: string, o: ResourceOptions, h: HookSetup, done: seq<Op>, s: State)
    requires DistinctNames(o) && done <= SetupPlan(hosts, value, o, h, false)
    requires RunSteps(SetupPlan(hosts, value, o, h, true), s).1
    ensures var plan := SetupPlan(hosts, value, o, h, true);
            RunSteps(plan, RunSteps(done, s).0) == RunSteps(plan, s)
  {
    var r := ResourcePlan(hosts, value, o);
    RunAppend(r, HookPlan(h, true), s);
    if |done| <= |r| {
      assert done <= r + HookPlan(h, true);
      SetupConverges(hosts, value, o, h, done, s);
    } else {
      var tail := done[|r|..];
      assert done == r + tail && tail <= HookPlan(h, false);
      SetupCompatible(hosts, value, o, h, true);
      PlanWanted(hosts, value, o);
      WantedBeforeHooks(r, tail, value, o, h);
      PlanAbsorbed(r, tail, s);
      RunAppend(r, tail, s);
      var u := RunSteps(done, s).0;
      AllAbsorbed(r, u);
      RunAppend(r, HookPlan(h, true), u);
      HookPlanRepairs(h, tail, RunSteps(r, s).0);
    }
  }

  /** One interrupted run: some first steps of the plan, with the global configuration read or not. */
  predicate Interrupted(hosts: seq<string>, value: string, o: ResourceOptions, h: HookSetup, done: seq<Op>) {
    done <= SetupPlan(hosts, value, o, h, true) || done <= SetupPlan(hosts, value, o, h, false)
  }

  function RunMany(runs: seq<seq<Op>>, s: State): State {
    if runs == [] then s else RunMany(runs[1..], RunSteps(runs[0], s).0)
  }

  /** Any number of interrupted runs, then a complete one: the result of a single complete run. */
  lemma {:induction false} ManyRunsConverge(hosts: seq<string>, value: string, o: ResourceOptions, h: HookSetup,
                                            runs: seq<seq<Op>>, s: State)
    requires DistinctNames(o) && (forall i :: 0 <= i < |runs| ==> Interrupted(hosts, value, o, h, runs[i]))
    requires RunSteps(SetupPlan(hosts, value, o, h, true), s).1
    ensures var plan := SetupPlan(hosts, value, o, h, true);
            RunSteps(plan, RunMany(runs, s)) == RunSteps(plan, s)
  {
    if runs != [] {
      if runs[0] <= SetupPlan(hosts, value, o, h, true) {
        SetupConverges(hosts, value, o, h, runs[0], s);
      } else {
        SetupRepairs(hosts, value, o, h, runs[0], s);
      }
      ManyRunsConverge(hosts, value, o, h, runs[1..], RunSteps(runs[0], s).0);
    }
  }
}

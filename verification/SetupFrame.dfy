/** What setup leaves alone, and when a further run has nothing to do. */
module SetupFrame {
  import opened Qmaster
  import opened Setup
  import opened SetupRun
  import opened Wrappers

  // ---- Frame -----------------------------------------------------------------------------

  /** Complexes, host values, host configurations, queues and reporting tokens that no step of
      the plan names are the same in both states. */
  predicate ComplexesKept(plan: seq<Op>, s: State, t: State) {
    forall name <- s.complexes.Keys + t.complexes.Keys ::
      (forall op <- plan :: op.Ensure? ==> op.desired.name != name)
      ==> name in s.complexes && name in t.complexes && s.complexes[name] == t.complexes[name]
  }

  predicate Touches(op: Op, host: string, resource: string) {
    (op.SetValue? || op.ClearValue?) && op.host == host && op.resource == resource
  }

  predicate HostsKept(plan: seq<Op>, s: State, t: State) {
    && s.hosts.Keys == t.hosts.Keys
    && (forall host <- s.hosts :: s.hosts[host].rest == t.hosts[host].rest)
    && forall host <- s.hosts, resource <- s.hosts[host].values.Keys + t.hosts[host].values.Keys ::
         (forall op <- plan :: !Touches(op, host, resource))
         ==> resource in s.hosts[host].values && resource in t.hosts[host].values
             && s.hosts[host].values[resource] == t.hosts[host].values[resource]
  }

  /** A configured host keeps everything but the sensors that are replaced. */
  predicate ConfigsKept(plan: seq<Op>, s: State, t: State) {
    && s.configs.Keys <= t.configs.Keys
    && (forall host <- t.configs :: host !in s.configs ==> exists op <- plan :: op.Sensor? && op.host == host)
    && (forall host <- s.configs :: s.configs[host].spoolDir == t.configs[host].spoolDir
                                    && s.configs[host].rest == t.configs[host].rest)
    && (forall host <- s.configs :: (forall op <- plan :: op.Sensor? ==> op.host != host) ==> s.configs[host] == t.configs[host])
  }

  predicate SensorsKept(path: string, s: State, t: State) {
    forall host <- s.configs :: host in t.configs
      && Others(s.configs[host].loadSensors, path) == Others(t.configs[host].loadSensors, path)
  }

  predicate QueuesKept(plan: seq<Op>, s: State, t: State) {
    && s.queues.Keys == t.queues.Keys
    && (forall queue <- s.queues :: s.queues[queue].rest == t.queues[queue].rest)
    && (forall queue <- s.queues :: (forall op <- plan :: op.Hooks? ==> op.setup.queue != queue)
                                    ==> s.queues[queue] == t.queues[queue])
  }

  predicate GlobalKept(plan: seq<Op>, s: State, t: State) {
    && s.global.spoolDir == t.global.spoolDir && s.global.rest == t.global.rest
    && s.global.reporting <= t.global.reporting
    && (forall token <- t.global.reporting[|s.global.reporting|..] :: Report(token) in plan)
  }

  /** Hosts are listed as they were, and new configurations after them. */
  predicate ListedKept(plan: seq<Op>, s: State, t: State) {
    && s.listed <= t.listed
    && forall host <- t.listed[|s.listed|..] :: NewConfig(plan, host)
  }

  predicate NewConfig(plan: seq<Op>, host: string) {
    exists op <- plan :: op.Sensor? && op.host == host
  }

  predicate Untouched(plan: seq<Op>, path: string, s: State, t: State) {
    && ComplexesKept(plan, s, t) && HostsKept(plan, s, t) && ConfigsKept(plan, s, t)
    && SensorsKept(path, s, t) && QueuesKept(plan, s, t) && GlobalKept(plan, s, t)
  }

  lemma HostsKeptByStep(plan: seq<Op>, op: Op, s: State)
    requires op in plan && Apply(op, s) != None
    ensures HostsKept(plan, s, Apply(op, s).value)
  {
    var t := Apply(op, s).value;
    if op.SetValue? || op.ClearValue? {
      var before, after := s.hosts[op.host], t.hosts[op.host];
      assert Touches(op, op.host, op.resource);
      assert t.hosts == s.hosts[op.host := after];
      assert after.rest == before.rest;
      assert forall resource :: resource != op.resource ==> (resource in before.values <==> resource in after.values);
      assert forall resource <- before.values :: resource != op.resource ==> before.values[resource] == after.values[resource];
    } else {
      assert t.hosts == s.hosts;
    }
  }

  lemma ConfigsKeptByStep(plan: seq<Op>, op: Op, s: State)
    requires op in plan && Apply(op, s) != None
    ensures ConfigsKept(plan, s, Apply(op, s).value)
  {
    var t := Apply(op, s).value;
    if !op.Sensor? {
      assert t.configs == s.configs;
    } else {
      assert t.configs == s.configs[op.host := t.configs[op.host]];
    }
  }

  lemma OthersInstalled(sensors: seq<string>, path: string)
    ensures Others(WithLoadSensor(sensors, path), path) == Others(sensors, path)
  {
    OthersTwice(sensors, path);
    OthersSnoc(Others(sensors, path), path, path);
  }

  lemma SensorsKeptByStep(path: string, op: Op, s: State)
    requires Apply(op, s) != None && (op.Sensor? ==> op.path == path)
    ensures SensorsKept(path, s, Apply(op, s).value)
  {
    var t := Apply(op, s).value;
    if !op.Sensor? {
      assert t.configs == s.configs;
    } else {
      if op.host in s.configs {
        OthersInstalled(s.configs[op.host].loadSensors, path);
      }
      assert t.configs == s.configs[op.host := t.configs[op.host]];
    }
  }

  lemma ComplexesKeptByStep(plan: seq<Op>, op: Op, s: State)
    requires op in plan && Apply(op, s) != None
    ensures ComplexesKept(plan, s, Apply(op, s).value)
  {
    if !op.Ensure? {
      assert Apply(op, s).value.complexes == s.complexes;
    }
  }

  lemma QueuesKeptByStep(plan: seq<Op>, op: Op, s: State)
    requires op in plan && Apply(op, s) != None
    ensures QueuesKept(plan, s, Apply(op, s).value)
  {
    if !op.Hooks? {
      assert Apply(op, s).value.queues == s.queues;
    }
  }

  lemma GlobalKeptByStep(plan: seq<Op>, op: Op, s: State)
    requires op in plan && Apply(op, s) != None
    ensures GlobalKept(plan, s, Apply(op, s).value)
  {
    var t := Apply(op, s).value;
    if op.Report? && op.pattern !in s.global.reporting {
      assert t.global.reporting[|s.global.reporting|..] == [op.pattern];
    } else {
      assert t.global == s.global;
      assert t.global.reporting[|s.global.reporting|..] == [];
    }
  }

  lemma KeptTransitive(plan: seq<Op>, path: string, s: State, t: State, u: State)
    requires Untouched(plan, path, s, t) && Untouched(plan, path, t, u)
    ensures Untouched(plan, path, s, u)
  {
    GlobalTransitive(plan, s, t, u);
    HostsTransitive(plan, s, t, u);
    assert ComplexesKept(plan, s, u);
  }

  lemma HostsTransitive(plan: seq<Op>, s: State, t: State, u: State)
    requires HostsKept(plan, s, t) && HostsKept(plan, t, u)
    ensures HostsKept(plan, s, u)
  {
  }

  lemma GlobalTransitive(plan: seq<Op>, s: State, t: State, u: State)
    requires GlobalKept(plan, s, t) && GlobalKept(plan, t, u)
    ensures GlobalKept(plan, s, u)
  {
    var a, b, c := s.global.reporting, t.global.reporting, u.global.reporting;
    assert c[|a|..] == b[|a|..] + c[|b|..];
  }

  /** Running steps of the plan changes only what the plan names. */
  lemma {:induction false} RunKeeps(plan: seq<Op>, steps: seq<Op>, path: string, s: State)
    requires (forall op <- steps :: op in plan) && (forall op <- steps :: op.Sensor? ==> op.path == path)
    ensures Untouched(plan, path, s, RunSteps(steps, s).0)
  {
    if steps == [] || Apply(steps[0], s) == None {
      assert s.global.reporting[|s.global.reporting|..] == [];
    } else {
      var t := Apply(steps[0], s).value;
      assert steps[0] in steps && forall op <- steps[1..] :: op in steps;
      HostsKeptByStep(plan, steps[0], s);
      ConfigsKeptByStep(plan, steps[0], s);
      SensorsKeptByStep(path, steps[0], s);
      ComplexesKeptByStep(plan, steps[0], s);
      QueuesKeptByStep(plan, steps[0], s);
      GlobalKeptByStep(plan, steps[0], s);
      RunKeeps(plan, steps[1..], path, t);
      KeptTransitive(plan, path, s, t, RunSteps(steps[1..], t).0);
    }
  }

  lemma ListedByStep(plan: seq<Op>, op: Op, s: State)
    requires op in plan && Apply(op, s) != None
    ensures ListedKept(plan, s, Apply(op, s).value)
  {
    var t := Apply(op, s).value;
    if t.listed != s.listed {
      assert t.listed[|s.listed|..] == [op.host];
    } else {
      assert t.listed[|s.listed|..] == [];
    }
  }

  lemma ListedTransitive(plan: seq<Op>, s: State, t: State, u: State)
    requires ListedKept(plan, s, t) && ListedKept(plan, t, u)
    ensures ListedKept(plan, s, u)
  {
    assert u.listed[|s.listed|..] == t.listed[|s.listed|..] + u.listed[|t.listed|..];
  }

  lemma {:induction false} ListedKeeps(plan: seq<Op>, steps: seq<Op>, s: State)
    requires forall op <- steps :: op in plan
    ensures ListedKept(plan, s, RunSteps(steps, s).0)
  {
    if steps == [] || Apply(steps[0], s) == None {
      assert s.listed[|s.listed|..] == [];
    } else {
      var t := Apply(steps[0], s).value;
      assert steps[0] in steps && forall op <- steps[1..] :: op in steps;
      ListedByStep(plan, steps[0], s);
      ListedKeeps(plan, steps[1..], t);
      ListedTransitive(plan, s, t, RunSteps(steps[1..], t).0);
    }
  }

  /** The frame of a setup run, complete or interrupted. */
  lemma SetupKeeps(hosts: seq<string>, value: string, o: ResourceOptions, h: HookSetup, readGlobal: bool, done: seq<Op>, s: State)
    requires done <= SetupPlan(hosts, value, o, h, readGlobal)
    ensures Untouched(SetupPlan(hosts, value, o, h, readGlobal), o.loadSensorPath, s, RunSteps(done, s).0)
    ensures ListedKept(SetupPlan(hosts, value, o, h, readGlobal), s, RunSteps(done, s).0)
  {
    var plan := SetupPlan(hosts, value, o, h, readGlobal);
    PlanWanted(hosts, value, o);
    assert forall op <- done :: op in plan;
    assert forall op <- plan :: op.Sensor? ==> op.path == o.loadSensorPath;
    RunKeeps(plan, done, o.loadSensorPath, s);
    ListedKeeps(plan, done, s);
  }

  // ---- When a further run writes nothing -------------------------------------------------------

  lemma {:induction false} FoldLength(s: string)
    ensures |Fold(s)| == |s|
  {
    if s != "" {
      FoldLength(s[1..]);
    }
  }

  /** No entry matches two of the entries that setup wants. */
  lemma EntriesDiffer(x: Complex, name: string)
    ensures !(Matches(x, QpuEntry()) && Matches(x, SlotsEntry(name)))
    ensures !(Matches(x, QpuEntry()) && Matches(x, ReadyEntry(name)))
    ensures !(Matches(x, SlotsEntry(name)) && Matches(x, ReadyEntry(name)))
  {
    FoldLength("JOB");
    FoldLength("NO");
  }

  lemma EntryAbsorbed(d: Complex, s: State)
    ensures Absorbed(Ensure(d), s) <==> d.name in s.complexes && Matches(s.complexes[d.name], d)
  {
    if d.name !in s.complexes {
      assert d.name in ApplyEnsure(d, s).complexes;
    } else if !Matches(s.complexes[d.name], d) {
      assert ApplyEnsure(d, s).complexes[d.name] != s.complexes[d.name];
    }
  }

  /** Steps before the first one that is not yet done write nothing, and that one writes. */
  lemma FirstStepsWrite(a: Op, b: Op, rest: seq<Op>, s: State)
    requires a.Ensure? && b.Ensure? && !(Absorbed(a, s) && Absorbed(b, s))
    ensures Writes([a] + ([b] + rest), s) > 0 && (!Absorbed(a, s) ==> Writes([a] + rest, s) > 0)
  {
    assert ([a] + ([b] + rest))[1..] == [b] + rest;
    assert ([b] + rest)[0] == b;
    assert ([a] + rest)[0] == a;
  }

  /** The last of two entries for one name stays, and the other one is not done. */
  lemma LastEntryStays(before: seq<Op>, d: Complex, after: seq<Op>, s: State)
    requires RunSteps(before + ([Ensure(d)] + after), s).1
    requires forall op <- after :: Compatible(Ensure(d), op)
    ensures Absorbed(Ensure(d), RunSteps(before + ([Ensure(d)] + after), s).0)
  {
    RunAppend(before, [Ensure(d)] + after, s);
    var r := RunSteps(before, s).0;
    assert ([Ensure(d)] + after)[1..] == after;
    DoneIsAbsorbed(Ensure(d), r);
    StaysAbsorbedByAll(Ensure(d), after, Apply(Ensure(d), r).value);
  }

  predicate NoEntry(op: Op) {
    !op.Ensure?
  }

  lemma {:induction false} HostStepsNoEntry(hosts: seq<string>, value: string, o: ResourceOptions)
    ensures forall op <- HostSteps(hosts, value, o) :: NoEntry(op)
  {
    if hosts != [] {
      HostStepsNoEntry(hosts[1..], value, o);
    }
  }

  /** What follows the complex entries. */
  function Others3(hosts: seq<string>, value: string, o: ResourceOptions, h: HookSetup): seq<Op> {
    CapacitySteps(GLOBAL, GLOBAL, o) + HostSteps(hosts, value, o) + HookPlan(h, true)
  }

  lemma TailHasNoEntry(hosts: seq<string>, value: string, o: ResourceOptions, h: HookSetup)
    ensures forall op <- Others3(hosts, value, o, h) :: NoEntry(op)
  {
    HostStepsNoEntry(hosts, value, o);
  }

  lemma Regrouped(a: Op, b: seq<Op>, c: Op, d: Op, e: Op, f: seq<Op>, g: seq<Op>, h: seq<Op>)
    ensures ([a] + (b + ([c, d, e] + (f + g)))) + h == ([a] + b) + ([c] + ([d, e] + (f + g + h)))
  {
  }

  /** The readiness entry is the last one, if there is a sensor. */
  lemma ReadyStays(hosts: seq<string>, value: string, o: ResourceOptions, h: HookSetup, s: State)
    requires o.enableLoadSensor && RunSteps(SetupPlan(hosts, value, o, h, true), s).1
    ensures Absorbed(Ensure(ReadyEntry(o.readyName)), RunSteps(SetupPlan(hosts, value, o, h, true), s).0)
  {
    var d := ReadyEntry(o.readyName);
    var before := [Ensure(QpuEntry())] + SlotsSteps(o);
    var after := [SetValue(GLOBAL, o.readyName, "1"), Sensor(o.loadSensorHost, o.loadSensorPath)] + Others3(hosts, value, o, h);
    TailHasNoEntry(hosts, value, o, h);
    Regrouped(Ensure(QpuEntry()), SlotsSteps(o), Ensure(d), SetValue(GLOBAL, o.readyName, "1"),
              Sensor(o.loadSensorHost, o.loadSensorPath), CapacitySteps(GLOBAL, GLOBAL, o), HostSteps(hosts, value, o),
              HookPlan(h, true));
    LastEntryStays(before, d, after, s);
  }

  lemma SlotsStay(hosts: seq<string>, value: string, o: ResourceOptions, h: HookSetup, s: State)
    requires o.enableSlots && (o.enableLoadSensor ==> o.readyName != o.slotsName)
    requires RunSteps(SetupPlan(hosts, value, o, h, true), s).1
    ensures Absorbed(Ensure(SlotsEntry(o.slotsName)), RunSteps(SetupPlan(hosts, value, o, h, true), s).0)
  {
    var d := SlotsEntry(o.slotsName);
    var after := ReadySteps(o) + Others3(hosts, value, o, h);
    TailHasNoEntry(hosts, value, o, h);
    assert SetupPlan(hosts, value, o, h, true) == [Ensure(QpuEntry())] + ([Ensure(d)] + after);
    LastEntryStays([Ensure(QpuEntry())], d, after, s);
  }

  /** With two different entries for one name, every further run changes that complex again. */
  lemma ClashingNames(hosts: seq<string>, value: string, o: ResourceOptions, h: HookSetup, s: State)
    requires !DistinctNames(o) && RunSteps(SetupPlan(hosts, value, o, h, true), s).1
    ensures Writes(ResourcePlan(hosts, value, o), RunSteps(SetupPlan(hosts, value, o, h, true), s).0) > 0
  {
    var u := RunSteps(SetupPlan(hosts, value, o, h, true), s).0;
    var qpu, slots, ready := QpuEntry(), SlotsEntry(o.slotsName), ReadyEntry(o.readyName);
    var rest := ReadySteps(o) + (CapacitySteps(GLOBAL, GLOBAL, o) + HostSteps(hosts, value, o));
    EntryAbsorbed(qpu, u);
    EntryAbsorbed(slots, u);
    EntryAbsorbed(ready, u);
    if o.enableLoadSensor {
      ReadyStays(hosts, value, o, h, s);
      EntriesDiffer(u.complexes[o.readyName], o.readyName);
    }
    if o.enableSlots && !(o.enableLoadSensor && o.readyName == o.slotsName) {
      SlotsStay(hosts, value, o, h, s);
      EntriesDiffer(u.complexes[o.slotsName], o.slotsName);
    }
    FirstStepsWrite(Ensure(qpu), Ensure(slots), rest, u);
    assert [] + rest == rest;
  }

  /** The resource steps are done after a complete run exactly when the three names differ. */
  lemma NothingLeftToDo(hosts: seq<string>, value: string, o: ResourceOptions, h: HookSetup, s: State)
    requires RunSteps(SetupPlan(hosts, value, o, h, true), s).1
    ensures Writes(ResourcePlan(hosts, value, o), RunSteps(SetupPlan(hosts, value, o, h, true), s).0) == 0
            <==> DistinctNames(o)
  {
    if DistinctNames(o) {
      FurtherRun(hosts, value, o, h, s);
    } else {
      ClashingNames(hosts, value, o, h, s);
    }
  }
}

/** setup-qrmi-support as the adapter performs it, against a scheduler whose calls may fail. */
module SetupRun {
  import opened Decimal
  import opened Qmaster
  import opened Setup
  import opened Wrappers

  /** How many modify or add calls the steps make. */
  function Writes(plan: seq<Op>, s: State): nat {
    if plan == [] || Apply(plan[0], s) == None then 0
    else
      var t := Apply(plan[0], s).value;
      (if plan[0].Hooks? || t != s then 1 else 0) + Writes(plan[1..], t)
  }

  lemma {:induction false} WritesAppend(a: seq<Op>, b: seq<Op>, s: State)
    ensures Writes(a + b, s) == Writes(a, s) + if RunSteps(a, s).1 then Writes(b, RunSteps(a, s).0) else 0
  {
    if a == [] {
      assert a + b == b;
    } else {
      assert (a + b)[1..] == a[1..] + b;
      if Apply(a[0], s) != None {
        WritesAppend(a[1..], b, Apply(a[0], s).value);
      }
    }
  }

  lemma {:induction false} AbsorbedWrites(plan: seq<Op>, s: State)
    requires forall op <- plan :: Absorbed(op, s) && !op.Hooks?
    ensures Writes(plan, s) == 0
  {
    if plan != [] {
      assert plan[0] in plan && forall op <- plan[1..] :: op in plan;
      AbsorbedWrites(plan[1..], s);
    }
  }

  lemma QueueOnly(h: HookSetup, u: State)
    requires Absorbed(Hooks(h, true), u) && Absorbed(Report(REPORTING_PATTERN), u)
    ensures Writes([Report(REPORTING_PATTERN)], u) == 0 && Writes(HookPlan(h, true), u) == 1
  {
    var tail := HookPlan(h, true);
    assert tail[1..] == [Report(REPORTING_PATTERN)];
    AbsorbedWrites(tail[1..], u);
  }

  /** After a complete run, the resource, sensor and reporting steps write nothing; a further run
      only rewrites the queue, with the commands it has, and changes no state. */
  lemma FurtherRun(hosts: seq<string>, value: string, o: ResourceOptions, h: HookSetup, s: State)
    requires DistinctNames(o) && RunSteps(SetupPlan(hosts, value, o, h, true), s).1
    ensures var plan := SetupPlan(hosts, value, o, h, true);
            var u := RunSteps(plan, s).0;
            && RunSteps(plan, u) == (u, true)
            && Writes(ResourcePlan(hosts, value, o), u) == 0 && Writes([Report(REPORTING_PATTERN)], u) == 0
            && Writes(plan, u) == 1
  {
    var r, tail := ResourcePlan(hosts, value, o), HookPlan(h, true);
    var plan := SetupPlan(hosts, value, o, h, true);
    var u := RunSteps(plan, s).0;
    SetupCompatible(hosts, value, o, h, true);
    PlanAbsorbed(plan, [], s);
    AllAbsorbed(plan, u);
    PlanWanted(hosts, value, o);
    assert forall op <- r :: op in plan;
    AbsorbedWrites(r, u);
    AllAbsorbed(r, u);
    assert plan[|r|] == tail[0] && plan[|r| + 1] == tail[1];
    QueueOnly(h, u);
    WritesAppend(r, tail, u);
  }

  // ---- What a run leaves behind -------------------------------------------------------------

  /** The steps that took effect, and the writes they made. */
  predicate Ran(plan: seq<Op>, done: seq<Op>, s: State, t: State, ok: bool, writes: nat) {
    && done <= plan && RunSteps(done, s) == (t, true) && writes == Writes(done, s)
    && (ok ==> done == plan)
  }

  /** Without faults, a run stops only where a step cannot succeed. */
  predicate Faultless(plan: seq<Op>, s: State, t: State, ok: bool) {
    RunSteps(plan, s) == (t, ok)
  }

  lemma Chain(a: seq<Op>, d1: seq<Op>, b: seq<Op>, d2: seq<Op>, s: State, t: State, u: State, ok: bool, w1: nat, w2: nat)
    requires Ran(a, d1, s, t, true, w1) && Ran(b, d2, t, u, ok, w2)
    ensures Ran(a + b, d1 + d2, s, u, ok, w1 + w2)
    ensures Faultless(b, t, u, ok) ==> Faultless(a + b, s, u, ok)
  {
    RunAppend(a, d2, s);
    RunAppend(a, b, s);
    WritesAppend(a, d2, s);
  }

  lemma Stopped(a: seq<Op>, d: seq<Op>, b: seq<Op>, s: State, t: State, w: nat)
    requires Ran(a, d, s, t, false, w)
    ensures Ran(a + b, d, s, t, false, w)
    ensures Faultless(a, s, t, false) ==> Faultless(a + b, s, t, false)
  {
    RunAppend(a, b, s);
  }

  lemma Single(op: Op, s: State, t: State, ok: bool, w: nat)
    requires if ok then Apply(op, s) == Some(t) else t == s
    requires w == if ok && (op.Hooks? || t != s) then 1 else 0
    ensures Ran([op], if ok then [op] else [], s, t, ok, w)
    ensures (ok <==> Apply(op, s) != None) ==> Faultless([op], s, t, ok)
  {
    assert [op][1..] == [];
  }

  ghost predicate NoFaults(qc: Client) {
    forall n :: !qc.fails(n)
  }

  // ---- The procedure ---------------------------------------------------------------------------

  method EnsureSlots(qc: Client, o: ResourceOptions) returns (ok: bool, ghost done: seq<Op>)
    modifies qc
    ensures qc.writes >= old(qc.writes)
    ensures Ran(SlotsSteps(o), done, old(qc.state), qc.state, ok, qc.writes - old(qc.writes))
    ensures NoFaults(qc) ==> Faultless(SlotsSteps(o), old(qc.state), qc.state, ok)
  {
    ok, done := true, [];
    if o.enableSlots {
      ok := qc.EnsureComplexEntry(SlotsEntry(o.slotsName));
      Single(Ensure(SlotsEntry(o.slotsName)), old(qc.state), qc.state, ok, qc.writes - old(qc.writes));
      done := if ok then SlotsSteps(o) else [];
    }
  }

  method EnsureSensor(qc: Client, o: ResourceOptions) returns (ok: bool, ghost done: seq<Op>)
    modifies qc
    ensures qc.writes >= old(qc.writes)
    ensures Ran(ReadySteps(o), done, old(qc.state), qc.state, ok, qc.writes - old(qc.writes))
    ensures NoFaults(qc) ==> Faultless(ReadySteps(o), old(qc.state), qc.state, ok)
  {
    ok, done := true, [];
    if !o.enableLoadSensor {
      return;
    }
    ghost var a, b, c := Ensure(ReadyEntry(o.readyName)), SetValue(GLOBAL, o.readyName, "1"), Sensor(o.loadSensorHost, o.loadSensorPath);
    assert [a] + [b, c] == ReadySteps(o) && [b] + [c] == [b, c];
    ok := qc.EnsureComplexEntry(ReadyEntry(o.readyName));
    ghost var s1, w1 := qc.state, qc.writes;
    Single(a, old(qc.state), s1, ok, w1 - old(qc.writes));
    if !ok {
      Stopped([a], [], [b, c], old(qc.state), s1, w1 - old(qc.writes));
      return;
    }
    ok := qc.SetExecHostResource(GLOBAL, o.readyName, "1");
    ghost var s2, w2 := qc.state, qc.writes;
    Single(b, s1, s2, ok, w2 - w1);
    if !ok {
      Stopped([b], [], [c], s1, s2, w2 - w1);
      Chain([a], [a], [b, c], [], old(qc.state), s1, s2, false, w1 - old(qc.writes), w2 - w1);
      return ok, [a] + [];
    }
    ok := qc.ConfigureHostLoadSensor(o.loadSensorHost, o.loadSensorPath);
    Single(c, s2, qc.state, ok, qc.writes - w2);
    done := if ok then [c] else [];
    Chain([b], [b], [c], done, s1, s2, qc.state, ok, w2 - w1, qc.writes - w2);
    Chain([a], [a], [b, c], [b] + done, old(qc.state), s1, qc.state, ok, w1 - old(qc.writes), qc.writes - w1);
    done := [a] + ([b] + done);
  }

  method SetCapacity(qc: Client, host: string, scope: string, o: ResourceOptions) returns (ok: bool, ghost done: seq<Op>)
    modifies qc
    ensures qc.writes >= old(qc.writes)
    ensures Ran(CapacitySteps(host, scope, o), done, old(qc.state), qc.state, ok, qc.writes - old(qc.writes))
    ensures NoFaults(qc) ==> Faultless(CapacitySteps(host, scope, o), old(qc.state), qc.state, ok)
  {
    ok, done := true, [];
    if o.enableSlots && o.slotsScope == scope {
      if o.slotsCapacity > 0 {
        ok := qc.SetExecHostResource(host, o.slotsName, Itoa(o.slotsCapacity));
      } else {
        ok := qc.ClearExecHostResource(host, o.slotsName);
      }
      Single(CapacityStep(host, o), old(qc.state), qc.state, ok, qc.writes - old(qc.writes));
      done := if ok then CapacitySteps(host, scope, o) else [];
    }
  }

  method SetHost(qc: Client, host: string, value: string, o: ResourceOptions) returns (ok: bool, ghost done: seq<Op>)
    modifies qc
    ensures qc.writes >= old(qc.writes)
    ensures Ran([SetValue(host, QPU, value)] + CapacitySteps(host, "host", o), done, old(qc.state), qc.state, ok,
                qc.writes - old(qc.writes))
    ensures NoFaults(qc) ==> Faultless([SetValue(host, QPU, value)] + CapacitySteps(host, "host", o), old(qc.state), qc.state, ok)
  {
    ghost var a, b := [SetValue(host, QPU, value)], CapacitySteps(host, "host", o);
    ok := qc.SetExecHostResource(host, QPU, value);
    ghost var s1, w1 := qc.state, qc.writes;
    Single(a[0], old(qc.state), s1, ok, w1 - old(qc.writes));
    if !ok {
      Stopped(a, [], b, old(qc.state), s1, w1 - old(qc.writes));
      return ok, [];
    }
    ok, done := SetCapacity(qc, host, "host", o);
    Chain(a, a, b, done, old(qc.state), s1, qc.state, ok, w1 - old(qc.writes), qc.writes - w1);
    done := a + done;
  }

  lemma {:induction false} HostStepsAppend(a: seq<string>, b: seq<string>, value: string, o: ResourceOptions)
    ensures HostSteps(a + b, value, o) == HostSteps(a, value, o) + HostSteps(b, value, o)
  {
    if a == [] {
      assert a + b == b;
    } else {
      assert (a + b)[1..] == a[1..] + b;
      HostStepsAppend(a[1..], b, value, o);
    }
  }

  lemma HostStepsSnoc(hosts: seq<string>, i: nat, value: string, o: ResourceOptions)
    requires i < |hosts|
    ensures HostSteps(hosts[..i + 1], value, o)
            == HostSteps(hosts[..i], value, o) + ([SetValue(hosts[i], QPU, value)] + CapacitySteps(hosts[i], "host", o))
    ensures HostSteps(hosts, value, o) == HostSteps(hosts[..i + 1], value, o) + HostSteps(hosts[i + 1..], value, o)
  {
    assert hosts[..i + 1] == hosts[..i] + [hosts[i]];
    HostStepsAppend(hosts[..i], [hosts[i]], value, o);
    assert [hosts[i]][1..] == [];
    assert CapacitySteps(hosts[i], "host", o) + [] == CapacitySteps(hosts[i], "host", o);
    assert hosts == hosts[..i + 1] + hosts[i + 1..];
    HostStepsAppend(hosts[..i + 1], hosts[i + 1..], value, o);
  }

  method SetHosts(qc: Client, hosts: seq<string>, value: string, o: ResourceOptions) returns (ok: bool, ghost done: seq<Op>)
    modifies qc
    ensures qc.writes >= old(qc.writes)
    ensures Ran(HostSteps(hosts, value, o), done, old(qc.state), qc.state, ok, qc.writes - old(qc.writes))
    ensures NoFaults(qc) ==> Faultless(HostSteps(hosts, value, o), old(qc.state), qc.state, ok)
  {
    ok, done := true, [];
    for i := 0 to |hosts|
      invariant ok && qc.writes >= old(qc.writes)
      invariant Ran(HostSteps(hosts[..i], value, o), done, old(qc.state), qc.state, true, qc.writes - old(qc.writes))
    {
      ghost var before := HostSteps(hosts[..i], value, o);
      ghost var block := [SetValue(hosts[i], QPU, value)] + CapacitySteps(hosts[i], "host", o);
      ghost var s1, w1 := qc.state, qc.writes;
      ghost var d;
      ok, d := SetHost(qc, hosts[i], value, o);
      HostStepsSnoc(hosts, i, value, o);
      Chain(before, done, block, d, old(qc.state), s1, qc.state, ok, w1 - old(qc.writes), qc.writes - w1);
      done := done + d;
      if !ok {
        Stopped(before + block, done, HostSteps(hosts[i + 1..], value, o), old(qc.state), qc.state, qc.writes - old(qc.writes));
        return;
      }
    }
    assert hosts[..|hosts|] == hosts;
  }

  /** Complex entries first, then the sensor, the cluster-wide slots and the hosts. */
  method EnsureResources(qc: Client, hosts: seq<string>, value: string, o: ResourceOptions)
    returns (ok: bool, ghost done: seq<Op>)
    modifies qc
    ensures qc.writes >= old(qc.writes)
    ensures Ran(ResourcePlan(hosts, value, o), done, old(qc.state), qc.state, ok, qc.writes - old(qc.writes))
    ensures NoFaults(qc) ==> Faultless(ResourcePlan(hosts, value, o), old(qc.state), qc.state, ok)
  {
    ghost var s0, w0 := qc.state, qc.writes;
    ghost var first := [Ensure(QpuEntry())];
    ghost var rest := SlotsSteps(o) + (ReadySteps(o) + (CapacitySteps(GLOBAL, GLOBAL, o) + HostSteps(hosts, value, o)));
    ok := qc.EnsureComplexEntry(QpuEntry());
    ghost var s1, w1 := qc.state, qc.writes;
    Single(first[0], s0, s1, ok, w1 - w0);
    if !ok {
      Stopped(first, [], rest, s0, s1, w1 - w0);
      return ok, [];
    }
    ok, done := EnsureOthers(qc, hosts, value, o);
    Chain(first, first, rest, done, s0, s1, qc.state, ok, w1 - w0, qc.writes - w1);
    done := first + done;
  }

  method EnsureOthers(qc: Client, hosts: seq<string>, value: string, o: ResourceOptions)
    returns (ok: bool, ghost done: seq<Op>)
    modifies qc
    ensures qc.writes >= old(qc.writes)
    ensures var plan := SlotsSteps(o) + (ReadySteps(o) + (CapacitySteps(GLOBAL, GLOBAL, o) + HostSteps(hosts, value, o)));
            && Ran(plan, done, old(qc.state), qc.state, ok, qc.writes - old(qc.writes))
            && (NoFaults(qc) ==> Faultless(plan, old(qc.state), qc.state, ok))
  {
    ghost var s0, w0 := qc.state, qc.writes;
    ghost var c := CapacitySteps(GLOBAL, GLOBAL, o) + HostSteps(hosts, value, o);
    ok, done := EnsureSlots(qc, o);
    ghost var d1, s1, w1 := done, qc.state, qc.writes;
    if !ok {
      Stopped(SlotsSteps(o), done, ReadySteps(o) + c, s0, s1, w1 - w0);
      return;
    }
    ok, done := EnsureSensor(qc, o);
    ghost var d2, s2, w2 := done, qc.state, qc.writes;
    if !ok {
      Stopped(ReadySteps(o), done, c, s1, s2, w2 - w1);
    } else {
      ok, done := SetCapacities(qc, hosts, value, o);
      Chain(ReadySteps(o), d2, c, done, s1, s2, qc.state, ok, w2 - w1, qc.writes - w2);
      done := d2 + done;
    }
    Chain(SlotsSteps(o), d1, ReadySteps(o) + c, done, s0, s1, qc.state, ok, w1 - w0, qc.writes - w1);
    done := d1 + done;
  }

  method SetCapacities(qc: Client, hosts: seq<string>, value: string, o: ResourceOptions)
    returns (ok: bool, ghost done: seq<Op>)
    modifies qc
    ensures qc.writes >= old(qc.writes)
    ensures var plan := CapacitySteps(GLOBAL, GLOBAL, o) + HostSteps(hosts, value, o);
            && Ran(plan, done, old(qc.state), qc.state, ok, qc.writes - old(qc.writes))
            && (NoFaults(qc) ==> Faultless(plan, old(qc.state), qc.state, ok))
  {
    ghost var s0, w0 := qc.state, qc.writes;
    ok, done := SetCapacity(qc, GLOBAL, GLOBAL, o);
    ghost var d1, s1, w1 := done, qc.state, qc.writes;
    if !ok {
      Stopped(CapacitySteps(GLOBAL, GLOBAL, o), done, HostSteps(hosts, value, o), s0, s1, w1 - w0);
      return;
    }
    ok, done := SetHosts(qc, hosts, value, o);
    Chain(CapacitySteps(GLOBAL, GLOBAL, o), d1, HostSteps(hosts, value, o), done, s0, s1, qc.state, ok, w1 - w0, qc.writes - w1);
    done := d1 + done;
  }

  method ConfigureQueueHooks(qc: Client, h: HookSetup) returns (ok: bool, readGlobal: bool, ghost done: seq<Op>)
    modifies qc
    ensures qc.writes >= old(qc.writes)
    ensures Ran(HookPlan(h, readGlobal), done, old(qc.state), qc.state, ok, qc.writes - old(qc.writes))
    ensures NoFaults(qc) ==> readGlobal && Faultless(HookPlan(h, readGlobal), old(qc.state), qc.state, ok)
  {
    ghost var s0, w0 := qc.state, qc.writes;
    ok, readGlobal := qc.ConfigureQueueHookPaths(h);
    ghost var s1, w1 := qc.state, qc.writes;
    ghost var a, b := [Hooks(h, readGlobal)], [Report(REPORTING_PATTERN)];
    assert a + b == HookPlan(h, readGlobal);
    Single(a[0], s0, s1, ok, w1 - w0);
    if !ok {
      Stopped(a, [], b, s0, s1, w1 - w0);
      return ok, readGlobal, [];
    }
    ok := qc.EnsureGlobalReportingPattern(REPORTING_PATTERN);
    done := if ok then b else [];
    Single(b[0], s1, qc.state, ok, qc.writes - w1);
    Chain(a, a, b, done, s0, s1, qc.state, ok, w1 - w0, qc.writes - w1);
    done := a + done;
  }

  /** The whole subcommand: whatever fails, it has done some first steps of the plan and nothing else;
      without faults it does what the plan says. */
  method SetupQrmiSupport(qc: Client, hosts: seq<string>, value: string, o: ResourceOptions, h: HookSetup)
    returns (ok: bool, readGlobal: bool, ghost done: seq<Op>)
    modifies qc
    ensures qc.writes >= old(qc.writes)
    ensures Ran(SetupPlan(hosts, value, o, h, readGlobal), done, old(qc.state), qc.state, ok, qc.writes - old(qc.writes))
    ensures NoFaults(qc) ==> readGlobal && Faultless(SetupPlan(hosts, value, o, h, readGlobal), old(qc.state), qc.state, ok)
  {
    ghost var s0, w0 := qc.state, qc.writes;
    ok, done := EnsureResources(qc, hosts, value, o);
    readGlobal := true;
    ghost var d1, s1, w1 := done, qc.state, qc.writes;
    if !ok {
      Stopped(ResourcePlan(hosts, value, o), done, HookPlan(h, true), s0, s1, w1 - w0);
      return;
    }
    ok, readGlobal, done := ConfigureQueueHooks(qc, h);
    Chain(ResourcePlan(hosts, value, o), d1, HookPlan(h, readGlobal), done, s0, s1, qc.state, ok, w1 - w0, qc.writes - w1);
    done := d1 + done;
  }
}

/** The scheduler state that setup reads and changes, and one setup step on it. */
module Qmaster {
  import opened HookCommand
  import opened Paths
  import opened Text
  import opened Wrappers

  datatype Complex = Complex(name: string, shortcut: string, typ: string, relop: string, requestable: string,
                             consumable: string, default': string, urgency: int)

  datatype ExecHost = ExecHost(name: string, values: map<string, string>, rest: string)

  datatype HostConfig = HostConfig(name: string, spoolDir: Option<string>, loadSensors: seq<string>, rest: string)

  datatype Queue = Queue(name: string, prolog: seq<string>, epilog: seq<string>, rest: string)

  datatype Global = Global(spoolDir: string, reporting: seq<string>, rest: string)

  /** `listed` is the order in which the scheduler lists the hosts with a configuration of their own. */
  datatype State = State(complexes: map<string, Complex>, hosts: map<string, ExecHost>, configs: map<string, HostConfig>,
                         listed: seq<string>, queues: map<string, Queue>, global: Global)

  // ---- Complex entries ------------------------------------------------------------------

  /** Simple case folding, exact whenever one of the compared texts is ASCII. */
  function Fold(s: string): string {
    if s == "" then "" else [FoldChar(s[0])] + Fold(s[1..])
  }

  function FoldChar(c: char): char {
    if 'A' <= c <= 'Z' then (c as int + 32) as char
    else if c == '\U{17F}' then 's'
    else if c == '\U{212A}' then 'k'
    else c
  }

  predicate EqualFold(a: string, b: string) {
    Fold(a) == Fold(b)
  }

  predicate Matches(current: Complex, desired: Complex) {
    && current.shortcut == desired.shortcut && current.typ == desired.typ && current.relop == desired.relop
    && EqualFold(current.requestable, desired.requestable) && EqualFold(current.consumable, desired.consumable)
    && current.default' == desired.default' && current.urgency == desired.urgency
  }

  function Updated(current: Complex, desired: Complex): Complex {
    desired.(name := current.name)
  }

  // ---- Load sensors ---------------------------------------------------------------------------

  /** A placeholder, or an earlier install of the same sensor binary. */
  predicate Replaced(sensor: string, path: string) {
    EqualFold(sensor, "NONE") || Base(sensor) == Base(path)
  }

  function Others(sensors: seq<string>, path: string): seq<string> {
    if sensors == [] then []
    else (if Replaced(sensors[0], path) then [] else [sensors[0]]) + Others(sensors[1..], path)
  }

  function WithLoadSensor(current: seq<string>, path: string): seq<string> {
    Others(current, path) + [path]
  }

  // ---- Spool roots --------------------------------------------------------------------------------

  function AddDir(roots: seq<string>, dir: string): seq<string> {
    var d := TrimSpace(dir);
    if IsAbs(d) && Clean(d) !in roots then roots + [Clean(d)] else roots
  }

  function AddDirs(roots: seq<string>, dirs: seq<string>): seq<string>
    decreases |dirs|
  {
    if dirs == [] then roots else AddDirs(AddDir(roots, dirs[0]), dirs[1..])
  }

  function LocalDirs(s: State, listed: seq<string>): seq<string> {
    if listed == [] then []
    else
      var host := listed[0];
      (if host in s.configs && s.configs[host].spoolDir != None then [s.configs[host].spoolDir.value] else [])
      + LocalDirs(s, listed[1..])
  }

  /** The directories that spoolRoots adds; an unreadable global configuration is skipped silently. */
  function ConfiguredDirs(s: State, readGlobal: bool): seq<string> {
    (if readGlobal then [s.global.spoolDir] else []) + LocalDirs(s, s.listed)
  }

  /** The roots; None when a listed host has no configuration to show. */
  function SpoolRoots(s: State, readGlobal: bool): Option<seq<string>> {
    if exists host <- s.listed :: host !in s.configs then None
    else Some(AddDirs([], ConfiguredDirs(s, readGlobal)))
  }

  // ---- Queue hooks ----------------------------------------------------------------------------------

  const LAUNCHER := "qrmi-ocs-launch"

  datatype HookSetup = HookSetup(queue: string, prolog: string, epilog: string, user: string, launcher: string,
                                 cluster: Cluster, options: HookOptions)

  function LauncherPath(h: HookSetup): string {
    if h.launcher != "" then h.launcher else JoinPath(Dir(TrimSpace(h.prolog)), LAUNCHER)
  }

  /** The prolog and epilog commands for the given roots. */
  function Commands(h: HookSetup, roots: seq<string>): Option<(string, string)> {
    var args := LauncherArgs(h.cluster, roots);
    if args == None then None
    else
      var prolog := CommandOf(h.prolog, LauncherPath(h), h.user, args.value, PrologArgs(h.options));
      var epilog := CommandOf(h.epilog, LauncherPath(h), h.user, args.value, CommonArgs(h.options));
      if prolog.Err? || epilog.Err? then None else Some((prolog.value, epilog.value))
  }

  function HookCommands(h: HookSetup, s: State, readGlobal: bool): Option<(string, string)> {
    var roots := SpoolRoots(s, readGlobal);
    if roots == None then None else Commands(h, roots.value)
  }

  // ---- Steps --------------------------------------------------------------------------------------------

  datatype Op =
    | Ensure(desired: Complex)
    | SetValue(host: string, resource: string, value: string)
    | ClearValue(host: string, resource: string)
    | Sensor(host: string, path: string)
    | Hooks(setup: HookSetup, readGlobal: bool)
    | Report(pattern: string)

  function Lookup(values: map<string, string>, key: string): string {
    if key in values then values[key] else ""
  }

  function ApplyEnsure(desired: Complex, s: State): State {
    if desired.name !in s.complexes then s.(complexes := s.complexes[desired.name := desired])
    else if Matches(s.complexes[desired.name], desired) then s
    else s.(complexes := s.complexes[desired.name := Updated(s.complexes[desired.name], desired)])
  }

  function ApplySet(host: string, resource: string, value: string, s: State): State
    requires host in s.hosts
  {
    var h := s.hosts[host];
    if Lookup(h.values, resource) == value then s
    else s.(hosts := s.hosts[host := ExecHost(host, h.values[resource := value], h.rest)])
  }

  function ApplyClear(host: string, resource: string, s: State): State
    requires host in s.hosts
  {
    var h := s.hosts[host];
    if resource !in h.values then s
    else s.(hosts := s.hosts[host := ExecHost(host, h.values - {resource}, h.rest)])
  }

  function ApplySensor(host: string, path: string, s: State): State {
    if host !in s.configs then
      s.(configs := s.configs[host := HostConfig(host, None, [path], "")], listed := s.listed + [host])
    else
      var c := s.configs[host];
      if WithLoadSensor(c.loadSensors, path) == c.loadSensors then s
      else s.(configs := s.configs[host := c.(name := host, loadSensors := WithLoadSensor(c.loadSensors, path))])
  }

  function ApplyReport(pattern: string, s: State): State {
    if pattern in s.global.reporting then s
    else s.(global := s.global.(reporting := s.global.reporting + [pattern]))
  }

  /** The state after a step; None when the step fails, which changes nothing. */
  function Apply(op: Op, s: State): Option<State> {
    match op
    case Ensure(desired) => Some(ApplyEnsure(desired, s))
    case SetValue(host, resource, value) => if host in s.hosts then Some(ApplySet(host, resource, value, s)) else None
    case ClearValue(host, resource) => if host in s.hosts then Some(ApplyClear(host, resource, s)) else None
    case Sensor(host, path) => Some(ApplySensor(host, path, s))
    case Report(pattern) => Some(ApplyReport(pattern, s))
    case Hooks(h, readGlobal) =>
      var commands := HookCommands(h, s, readGlobal);
      if commands == None || h.queue !in s.queues then None
      else
        var q := s.queues[h.queue];
        Some(s.(queues := s.queues[h.queue := Queue(h.queue, [commands.value.0], [commands.value.1], q.rest)]))
  }

  // ---- One step, done by commands that may fail -------------------------------------------------------------

  /** The scheduler behind qconf. Every call may fail without effect; adding an existing name fails. */
  class Client {
    var state: State
    var calls: nat
    var writes: nat
    const fails: nat -> bool

    constructor (state: State, fails: nat -> bool)
      ensures this.state == state && this.fails == fails && calls == 0 && writes == 0
    {
      this.state := state;
      this.fails := fails;
      calls := 0;
      writes := 0;
    }

    /** The fate of the next call. */
    method Fault() returns (failed: bool)
      modifies `calls
      ensures calls == old(calls) + 1 && failed == fails(old(calls))
    {
      failed := fails(calls);
      calls := calls + 1;
    }

    /** A write that succeeds or leaves everything as it was. */
    method Write(next: State) returns (ok: bool)
      modifies `calls, `state, `writes
      ensures calls == old(calls) + 1 && ok == !fails(old(calls))
      ensures state == (if ok then next else old(state)) && writes == old(writes) + if ok then 1 else 0
    {
      var failed := Fault();
      ok := !failed;
      if ok {
        state := next;
        writes := writes + 1;
      }
    }

    /** Whether the call was answered, for something that exists. */
    method Show(exists': bool) returns (shown: bool)
      modifies `calls
      ensures calls == old(calls) + 1 && shown == (exists' && !fails(old(calls)))
    {
      var failed := Fault();
      shown := exists' && !failed;
    }

    /** A step has its effect, or fails without one; without faults it does what the state says. */
    twostate predicate Stepped(op: Op, ok: bool)
      reads this
    {
      && calls >= old(calls)
      && (if ok then Apply(op, old(state)) == Some(state) else state == old(state))
      && ((forall n :: !fails(n)) ==> (ok <==> Apply(op, old(state)) != None))
      && writes == old(writes) + (if ok && (op.Hooks? || state != old(state)) then 1 else 0)
    }

    method EnsureComplexEntry(desired: Complex) returns (ok: bool)
      modifies this
      ensures Stepped(Ensure(desired), ok)
    {
      var shown := Show(desired.name in state.complexes);
      if !shown {
        if desired.name in state.complexes {
          return false;
        }
        ok := Write(state.(complexes := state.complexes[desired.name := desired]));
        return;
      }
      var current := state.complexes[desired.name];
      if Matches(current, desired) {
        return true;
      }
      current := current.(shortcut := desired.shortcut, typ := desired.typ, relop := desired.relop,
                          requestable := desired.requestable, consumable := desired.consumable,
                          default' := desired.default', urgency := desired.urgency);
      assert current == Updated(state.complexes[desired.name], desired);
      ok := Write(state.(complexes := state.complexes[desired.name := current]));
    }

    method SetExecHostResource(host: string, resource: string, value: string) returns (ok: bool)
      modifies this
      ensures Stepped(SetValue(host, resource, value), ok)
    {
      ok := Show(host in state.hosts);
      if !ok {
        return;
      }
      var cfg := state.hosts[host];
      if Lookup(cfg.values, resource) == value {
        return;
      }
      cfg := ExecHost(host, cfg.values[resource := value], cfg.rest);
      ok := Write(state.(hosts := state.hosts[host := cfg]));
      assert Lookup(cfg.values, resource) == value;
    }

    method ClearExecHostResource(host: string, resource: string) returns (ok: bool)
      modifies this
      ensures Stepped(ClearValue(host, resource), ok)
    {
      ok := Show(host in state.hosts);
      if !ok {
        return;
      }
      var cfg := state.hosts[host];
      if resource !in cfg.values {
        return;
      }
      cfg := ExecHost(host, cfg.values - {resource}, cfg.rest);
      ok := Write(state.(hosts := state.hosts[host := cfg]));
      assert resource !in cfg.values;
    }

    method ConfigureHostLoadSensor(host: string, path: string) returns (ok: bool)
      modifies this
      ensures Stepped(Sensor(host, path), ok)
    {
      var shown := Show(host in state.configs);
      if !shown {
        if host in state.configs {
          return false;
        }
        ok := Write(state.(configs := state.configs[host := HostConfig(host, None, [path], "")], listed := state.listed + [host]));
        return;
      }
      var cfg := state.configs[host].(name := host);
      var sensors := ReplaceSensor(cfg.loadSensors, path);
      if sensors == cfg.loadSensors {
        return true;
      }
      ok := Write(state.(configs := state.configs[host := cfg.(loadSensors := sensors)]));
    }

    method EnsureGlobalReportingPattern(pattern: string) returns (ok: bool)
      modifies this
      ensures Stepped(Report(pattern), ok)
    {
      ok := Show(true);
      if !ok {
        return;
      }
      var cfg := state.global;
      for i := 0 to |cfg.reporting|
        invariant pattern !in cfg.reporting[..i]
      {
        if cfg.reporting[i] == pattern {
          return;
        }
      }
      assert cfg.reporting[..|cfg.reporting|] == cfg.reporting;
      ok := Write(state.(global := cfg.(reporting := cfg.reporting + [pattern])));
      assert |cfg.reporting + [pattern]| > |cfg.reporting|;
    }

    /** The global directory and the host-local ones, each clean absolute directory once. */
    method ListSpoolRoots() returns (roots: Option<seq<string>>, readGlobal: bool)
      modifies `calls
      ensures calls >= old(calls)
      ensures roots != None ==> roots == SpoolRoots(state, readGlobal)
      ensures (forall n :: !fails(n)) ==> readGlobal && roots == SpoolRoots(state, true)
    {
      var found: seq<string> := [];
      readGlobal := Show(true);
      if readGlobal {
        found := AddDir(found, state.global.spoolDir);
      }
      ghost var whole := AddDirs([], ConfiguredDirs(state, readGlobal));
      assert whole == AddDirs(found, LocalDirs(state, state.listed)) by {
        if readGlobal {
          assert ConfiguredDirs(state, true)[1..] == LocalDirs(state, state.listed);
        } else {
          assert [] + LocalDirs(state, state.listed) == LocalDirs(state, state.listed);
        }
      }
      var listed := Show(true);
      if !listed {
        return None, readGlobal;
      }
      for i := 0 to |state.listed|
        invariant calls >= old(calls) && forall k :: 0 <= k < i ==> state.listed[k] in state.configs
        invariant whole == AddDirs(found, LocalDirs(state, state.listed[i..]))
      {
        var host := state.listed[i];
        LocalStep(state, state.listed[i..], found);
        assert state.listed[i..][1..] == state.listed[i + 1..];
        var shown := Show(host in state.configs);
        if !shown {
          return None, readGlobal;
        }
        if state.configs[host].spoolDir != None {
          found := AddDir(found, state.configs[host].spoolDir.value);
        }
      }
      return Some(found), readGlobal;
    }

    method ConfigureQueueHookPaths(h: HookSetup) returns (ok: bool, readGlobal: bool)
      modifies this
      ensures Stepped(Hooks(h, readGlobal), ok)
      ensures (forall n :: !fails(n)) ==> readGlobal
    {
      var roots;
      roots, readGlobal := ListSpoolRoots();
      if roots == None {
        return false, readGlobal;
      }
      var args := LauncherArgs(h.cluster, roots.value);
      if args == None {
        return false, readGlobal;
      }
      var prolog := QueueHookCommand(h.prolog, LauncherPath(h), h.user, args.value, PrologArgs(h.options));
      if prolog.Err? {
        return false, readGlobal;
      }
      var epilog := QueueHookCommand(h.epilog, LauncherPath(h), h.user, args.value, CommonArgs(h.options));
      if epilog.Err? {
        return false, readGlobal;
      }
      ok := Show(h.queue in state.queues);
      if !ok {
        return;
      }
      var q := state.queues[h.queue];
      q := Queue(h.queue, [prolog.value], [epilog.value], q.rest);
      ok := Write(state.(queues := state.queues[h.queue := q]));
    }
  }

  lemma LocalStep(s: State, listed: seq<string>, found: seq<string>)
    requires listed != []
    ensures AddDirs(found, LocalDirs(s, listed))
            == if listed[0] in s.configs && s.configs[listed[0]].spoolDir != None
               then AddDirs(AddDir(found, s.configs[listed[0]].spoolDir.value), LocalDirs(s, listed[1..]))
               else AddDirs(found, LocalDirs(s, listed[1..]))
  {
    var rest := LocalDirs(s, listed[1..]);
    if listed[0] in s.configs && s.configs[listed[0]].spoolDir != None {
      var dir := s.configs[listed[0]].spoolDir.value;
      assert ([dir] + rest)[1..] == rest;
    } else {
      assert [] + rest == rest;
    }
  }

  /** The loop that drops placeholders and earlier installs. */
  method ReplaceSensor(current: seq<string>, path: string) returns (sensors: seq<string>)
    ensures sensors == WithLoadSensor(current, path)
  {
    sensors := [];
    for i := 0 to |current|
      invariant sensors == Others(current[..i], path)
    {
      assert current[..i + 1] == current[..i] + [current[i]];
      OthersSnoc(current[..i], current[i], path);
      if EqualFold(current[i], "NONE") || Base(current[i]) == Base(path) {
        continue;
      }
      sensors := sensors + [current[i]];
    }
    assert current[..|current|] == current;
    sensors := sensors + [path];
  }

  lemma {:induction false} OthersSnoc(sensors: seq<string>, sensor: string, path: string)
    ensures Others(sensors + [sensor], path) == Others(sensors, path) + (if Replaced(sensor, path) then [] else [sensor])
  {
    if sensors == [] {
      assert [] + [sensor] == [sensor] && [sensor][1..] == [];
    } else {
      assert (sensors + [sensor])[1..] == sensors[1..] + [sensor];
      OthersSnoc(sensors[1..], sensor, path);
    }
  }
}

/** The queue hook's command line: built by the adapter, split by the scheduler, and read by
    the launcher and by the hook. */
module HookCommand {
  import opened CBuffer
  import opened Paths
  import opened Sanitize
  import opened Spool
  import opened Text
  import opened Wrappers

  const JOB_OWNER := "$job_owner"
  const NO_HOOK := "NONE"

  // ---- The adapter ---------------------------------------------------------------------

  datatype CommandError = BadPath | BadUser | BadArgument

  predicate Blank(c: char) {
    c == ' ' || c == '\t' || c == '\r' || c == '\n'
  }

  predicate BlankOrAt(c: char) {
    Blank(c) || c == '@'
  }

  predicate BadUserChar(c: char) {
    BlankOrAt(c) || c == '$'
  }

  predicate PlainPath(path: string) {
    NoneOf(BlankOrAt, path) && IsAbs(path)
  }

  predicate PlainUser(user: string) {
    user != "" && NoneOf(BadUserChar, user)
  }

  predicate PlainArg(arg: string) {
    arg != "" && NoneOf(Blank, arg)
  }

  function Arguments(hook: string, launcherArgs: seq<string>, args: seq<string>): seq<string> {
    launcherArgs + [hook] + args
  }

  function CommandOf(hook: string, launcher: string, user: string, launcherArgs: seq<string>, args: seq<string>)
    : Result<string, CommandError>
  {
    var h := TrimSpace(hook);
    if h == NO_HOOK then Ok(h)
    else if !PlainPath(h) || !PlainPath(launcher) then Err(BadPath)
    else if !PlainUser(user) then Err(BadUser)
    else if exists arg <- Arguments(h, launcherArgs, args) :: !PlainArg(arg) then Err(BadArgument)
    else Ok(Join([user + "@" + launcher] + Arguments(h, launcherArgs, args) + [JOB_OWNER], " "))
  }

  lemma JoinSnocs(parts: seq<string>, part: string)
    requires parts != []
    ensures Join(parts + [part], " ") == Join(parts, " ") + " " + part
  {
    JoinAppend(parts, [part], " ");
  }

  /** Grows the command argument by argument. */
  method QueueHookCommand(hook: string, launcher: string, user: string, launcherArgs: seq<string>, args: seq<string>)
    returns (r: Result<string, CommandError>)
    ensures r == CommandOf(hook, launcher, user, launcherArgs, args)
  {
    var h := TrimSpace(hook);
    if h == NO_HOOK {
      return Ok(h);
    }
    if !PlainPath(h) || !PlainPath(launcher) {
      return Err(BadPath);
    }
    if !PlainUser(user) {
      return Err(BadUser);
    }
    var all := Arguments(h, launcherArgs, args);
    var first := user + "@" + launcher;
    var command := first;
    for i := 0 to |all|
      invariant forall k :: 0 <= k < i ==> PlainArg(all[k])
      invariant command == Join([first] + all[..i], " ")
    {
      if !PlainArg(all[i]) {
        return Err(BadArgument);
      }
      JoinSnocs([first] + all[..i], all[i]);
      assert [first] + all[..i + 1] == [first] + all[..i] + [all[i]];
      command := command + " " + all[i];
    }
    assert all[..|all|] == all;
    JoinSnocs([first] + all, JOB_OWNER);
    r := Ok(command + " " + JOB_OWNER);
    assert command + " " + JOB_OWNER == command + " $job_owner";
  }

  /** What the adapter's own environment says about the cluster. */
  datatype Cluster = Cluster(sgeRoot: string, sgeCell: string, qmasterPort: string, execdPort: string)

  function CellOf(c: Cluster): string {
    if c.sgeCell == "" then "default" else c.sgeCell
  }

  function SpoolOptions(roots: seq<string>): seq<string> {
    if roots == [] then [] else ["--spool-root=" + roots[0]] + SpoolOptions(roots[1..])
  }

  function PortOption(option: string, port: string): seq<string> {
    if port == "" then [] else [option + port]
  }

  /** The launcher's options; None without an absolute SGE_ROOT. */
  function LauncherArgs(c: Cluster, roots: seq<string>): Option<seq<string>> {
    if !IsAbs(c.sgeRoot) then None
    else Some(["--sge-root=" + Clean(c.sgeRoot), "--sge-cell=" + CellOf(c)] + SpoolOptions(roots)
              + PortOption("--qmaster-port=", c.qmasterPort) + PortOption("--execd-port=", c.execdPort))
  }

  datatype HookOptions = HookOptions(configPath: string, resourceName: string, slotsResourceName: string,
                                     qstatPath: string, logLevel: string)

  function FlagArg(name: string, value: string): string {
    "--" + name + "=" + value
  }

  function OptionalFlag(name: string, value: string): seq<string> {
    if value == "" then [] else [FlagArg(name, value)]
  }

  function CommonArgs(o: HookOptions): seq<string> {
    [FlagArg("config", o.configPath)] + OptionalFlag("log-level", o.logLevel)
  }

  function PrologArgs(o: HookOptions): seq<string> {
    CommonArgs(o) + [FlagArg("resource", o.resourceName), FlagArg("slots-resource", o.slotsResourceName),
                     FlagArg("qstat", o.qstatPath)]
  }

  // ---- The scheduler -------------------------------------------------------------------------

  /** Every occurrence of the variable becomes the job's owner. */
  function Substitute(s: string, owner: string): string {
    if s == "" then ""
    else if HasPrefix(s, JOB_OWNER) then owner + Substitute(s[|JOB_OWNER|..], owner)
    else [s[0]] + Substitute(s[1..], owner)
  }

  function WordEnd(s: string): (n: nat)
    ensures n <= |s| && NoneOf(Blank, s[..n]) && (n < |s| ==> Blank(s[n]))
  {
    if s == "" || Blank(s[0]) then 0
    else
      var n := WordEnd(s[1..]);
      assert s[..n + 1] == [s[0]] + s[1..][..n];
      n + 1
  }

  /** The words between blanks. */
  function Words(s: string): seq<string>
    decreases |s|
  {
    if s == "" then []
    else if Blank(s[0]) then Words(s[1..])
    else [s[..WordEnd(s)]] + Words(s[WordEnd(s)..])
  }

  datatype Invocation = Invocation(user: string, argv: seq<string>)

  /** How the scheduler runs a hook command for a job's owner. */
  function Run(command: string, owner: string): Invocation {
    var (user, rest, _) := Cut(command, '@');
    Invocation(user, Words(Substitute(rest, owner)))
  }

  // ---- The launcher -----------------------------------------------------------------------------

  datatype OptionError = UnknownOption | Usage

  const NO_SETTINGS := LaunchSettings("", "", [], "", "")

  predicate IsOption(arg: string) {
    HasPrefix(arg, "--")
  }

  function Assign(s: LaunchSettings, arg: string): Option<LaunchSettings> {
    var (name, value, _) := Cut(arg, '=');
    if name == "--spool-root" then Some(s.(spoolRoots := s.spoolRoots + [value]))
    else if name == "--sge-root" then Some(s.(sgeRoot := value))
    else if name == "--sge-cell" then Some(s.(sgeCell := value))
    else if name == "--qmaster-port" then Some(s.(qmasterPort := value))
    else if name == "--execd-port" then Some(s.(execdPort := value))
    else None
  }

  /** The settings, and the hook's path with its arguments. */
  function Options(args: seq<string>, s: LaunchSettings): (r: Result<(LaunchSettings, seq<string>), OptionError>)
    ensures r.Ok? ==> r.value.1 != [] && !IsOption(r.value.1[0])
  {
    if args == [] then Err(Usage)
    else if !IsOption(args[0]) then Ok((s, args))
    else if Assign(s, args[0]) == None then Err(UnknownOption)
    else Options(args[1..], Assign(s, args[0]).value)
  }

  datatype PrepareError = OptionFailure(option: OptionError) | LaunchFailure(launch: LaunchError) | UntrustedHook

  datatype Prepared = Prepared(path: string, argv: seq<string>, env: seq<string>)

  /** The launcher's option loop and what it starts; trust maps a hook path to its resolved form. */
  method Prepare(args: seq<string>, environ: seq<string>, fs: FsView, home: string, trust: map<string, string>)
    returns (r: Result<Prepared, PrepareError>)
    requires args != []
    ensures var o := Options(args[1..], NO_SETTINGS);
            if o.Err? then r == Err(OptionFailure(o.error))
            else
              var e := LaunchEnvOf(environ, o.value.0, fs, home);
              if e.Err? then r == Err(LaunchFailure(e.error))
              else if o.value.1[0] !in trust then r == Err(UntrustedHook)
              else r == Ok(Prepared(trust[o.value.1[0]], [trust[o.value.1[0]]] + o.value.1[1..], e.value))
  {
    var settings := NO_SETTINGS;
    var i := 1;
    while i < |args| && IsOption(args[i])
      invariant 1 <= i <= |args|
      invariant Options(args[1..], NO_SETTINGS) == Options(args[i..], settings)
    {
      assert args[i..][0] == args[i] && args[i..][1..] == args[i + 1..];
      var next := Assign(settings, args[i]);
      if next == None {
        return Err(OptionFailure(UnknownOption));
      }
      settings := next.value;
      i := i + 1;
    }
    if i >= |args| {
      return Err(OptionFailure(Usage));
    }
    assert args[i..][0] == args[i] && args[i..][1..] == args[i + 1..];
    var env := LaunchEnv(environ, settings, fs, home);
    if env.Err? {
      return Err(LaunchFailure(env.error));
    }
    if args[i] !in trust {
      return Err(UntrustedHook);
    }
    return Ok(Prepared(trust[args[i]], [trust[args[i]]] + args[i + 1..], env.value));
  }

  // ---- The hook ------------------------------------------------------------------------------------

  datatype FlagError = BadSyntax | UndefinedFlag | MissingValue | TooManyArguments | MissingSetting

  predicate IsFlag(arg: string) {
    |arg| >= 2 && arg[0] == '-'
  }

  /** Assigned flags, last one winning, and the arguments after them (Go's flag package). */
  function Flags(args: seq<string>, known: set<string>, set': map<string, string>)
    : Result<(map<string, string>, seq<string>), FlagError>
    decreases |args|
  {
    if args == [] || !IsFlag(args[0]) then Ok((set', args))
    else if args[0] == "--" then Ok((set', args[1..]))
    else
      var body := args[0][if args[0][1] == '-' then 2 else 1..];
      if body[0] == '-' || body[0] == '=' then Err(BadSyntax)
      else
        var (name, value, ok) := Cut(body, '=');
        if name !in known then Err(UndefinedFlag)
        else if ok then Flags(args[1..], known, set'[name := value])
        else if |args| < 2 then Err(MissingValue)
        else Flags(args[2..], known, set'[name := args[1]])
  }

  const PROLOG_FLAGS := {"config", "resource", "slots-resource", "qstat", "log-level"}
  const EPILOG_FLAGS := {"config", "log-level"}

  const DEFAULT_CONFIG := "/etc/qrmi/qrmi_config.json"
  const DEFAULT_RESOURCE := "qpu"
  const DEFAULT_SLOTS := "qpu_slots"

  function GetOr(m: map<string, string>, key: string, default': string): string {
    if key in m then m[key] else default'
  }

  function ParsePrologArgs(args: seq<string>): Result<(HookOptions, string), FlagError> {
    var flags := Flags(args, PROLOG_FLAGS, map[]);
    if flags.Err? then Err(flags.error)
    else if |flags.value.1| > 1 then Err(TooManyArguments)
    else
      var m := flags.value.0;
      var cfg := HookOptions(GetOr(m, "config", DEFAULT_CONFIG), GetOr(m, "resource", DEFAULT_RESOURCE),
                             GetOr(m, "slots-resource", DEFAULT_SLOTS), GetOr(m, "qstat", ""), GetOr(m, "log-level", ""));
      if cfg.configPath == "" || cfg.resourceName == "" || !IsAbs(cfg.qstatPath) then Err(MissingSetting)
      else Ok((cfg, if flags.value.1 == [] then "" else flags.value.1[0]))
  }

  /** The epilog's settings: config path, log level and job owner. */
  function ParseEpilogArgs(args: seq<string>): Result<(string, string, string), FlagError> {
    var flags := Flags(args, EPILOG_FLAGS, map[]);
    if flags.Err? then Err(flags.error)
    else if |flags.value.1| > 1 then Err(TooManyArguments)
    else Ok((GetOr(flags.value.0, "config", DEFAULT_CONFIG), GetOr(flags.value.0, "log-level", ""),
             if flags.value.1 == [] then "" else flags.value.1[0]))
  }

  // ---- Splitting what was joined ---------------------------------------------------------------------

  lemma {:induction false} WordEndIs(w: string, rest: string)
    requires NoneOf(Blank, w) && (rest != "" ==> Blank(rest[0]))
    ensures WordEnd(w + rest) == |w|
  {
    if w == "" {
      assert w + rest == rest;
    } else {
      assert (w + rest)[0] == w[0] && (w + rest)[1..] == w[1..] + rest;
      WordEndIs(w[1..], rest);
    }
  }

  lemma WordsOf(w: string, rest: string)
    requires NoneOf(Blank, w) && (rest != "" ==> Blank(rest[0]))
    ensures Words(w + rest) == (if w == "" then [] else [w]) + Words(rest)
  {
    if w == "" {
      assert w + rest == rest;
    } else {
      WordEndIs(w, rest);
      assert (w + rest)[..|w|] == w && (w + rest)[|w|..] == rest;
    }
  }

  lemma {:induction false} WordsJoin(parts: seq<string>)
    requires forall part <- parts :: NoneOf(Blank, part)
    ensures Words(Join(parts, " ")) == NonEmpty(parts)
  {
    if parts == [] {
    } else if |parts| == 1 {
      WordsOf(parts[0], "");
      assert parts[0] + "" == parts[0];
      assert parts[1..] == [];
    } else {
      var rest := Join(parts[1..], " ");
      assert parts[0] + " " + rest == parts[0] + (" " + rest);
      WordsOf(parts[0], " " + rest);
      assert (" " + rest)[1..] == rest;
      WordsJoin(parts[1..]);
    }
  }

  lemma OwnerChars()
    ensures ' ' !in JOB_OWNER && '@' !in JOB_OWNER && NoneOf(Blank, JOB_OWNER)
  {
  }

  /** A prefix of two texts lies in the first one or reaches into the second. */
  lemma PrefixReach(w: string, rest: string, pat: string)
    ensures HasPrefix(w + rest, pat) ==> if |pat| <= |w| then pat <= w[0..] else rest != "" && pat[|w|] == rest[0]
  {
    assert w[0..] == w;
    assert |pat| <= |w| ==> (w + rest)[..|pat|] == w[..|pat|];
  }

  lemma ContainsTail(w: string, pat: string)
    requires w != ""
    ensures Contains(w[1..], pat) ==> Contains(w, pat)
  {
    if Contains(w[1..], pat) {
      var i :| 0 <= i <= |w[1..]| && pat <= w[1..][i..];
      assert w[1..][i..] == w[i + 1..];
    }
  }

  lemma NotOwner(w: string, rest: string)
    requires !Contains(w, JOB_OWNER) && w != "" && (rest != "" ==> rest[0] == ' ')
    ensures !HasPrefix(w + rest, JOB_OWNER) && !Contains(w[1..], JOB_OWNER)
  {
    OwnerChars();
    PrefixReach(w, rest, JOB_OWNER);
    ContainsTail(w, JOB_OWNER);
  }

  lemma {:induction false} SubstituteWord(w: string, rest: string, owner: string)
    requires !Contains(w, JOB_OWNER) && (rest != "" ==> rest[0] == ' ')
    ensures Substitute(w + rest, owner) == w + Substitute(rest, owner)
  {
    if w == "" {
      assert w + rest == rest;
    } else {
      NotOwner(w, rest);
      assert (w + rest)[1..] == w[1..] + rest;
      SubstituteWord(w[1..], rest, owner);
    }
  }

  lemma SubstituteBlank(rest: string, owner: string)
    ensures Substitute(" " + rest, owner) == " " + Substitute(rest, owner)
  {
    assert (" " + rest)[1..] == rest;
    assert JOB_OWNER[0] == '$';
  }

  lemma {:induction false} SubstituteJoin(parts: seq<string>, owner: string)
    requires forall part <- parts :: !Contains(part, JOB_OWNER)
    ensures Substitute(Join(parts + [JOB_OWNER], " "), owner) == Join(parts + [owner], " ")
  {
    if parts == [] {
      assert [] + [JOB_OWNER] == [JOB_OWNER] && [] + [owner] == [owner];
      assert JOB_OWNER[|JOB_OWNER|..] == "" && owner + "" == owner;
    } else {
      var tail := Join(parts[1..] + [JOB_OWNER], " ");
      assert (parts + [JOB_OWNER])[1..] == parts[1..] + [JOB_OWNER];
      assert (parts + [owner])[1..] == parts[1..] + [owner];
      assert parts[0] + " " + tail == parts[0] + (" " + tail);
      assert parts[0] in parts;
      SubstituteWord(parts[0], " " + tail, owner);
      SubstituteBlank(tail, owner);
      SubstituteJoin(parts[1..], owner);
      Assoc(parts[0], " ", Join(parts[1..] + [owner], " "));
    }
  }

  function OwnerArg(owner: string): seq<string> {
    if owner == "" then [] else [owner]
  }

  lemma {:induction false} NonEmptySnoc(parts: seq<string>, owner: string)
    requires forall part <- parts :: part != ""
    ensures NonEmpty(parts + [owner]) == parts + OwnerArg(owner)
  {
    if parts == [] {
      assert [] + [owner] == [owner] && [owner][1..] == [];
    } else {
      assert (parts + [owner])[1..] == parts[1..] + [owner];
      assert parts[0] in parts && forall part <- parts[1..] :: part in parts;
      NonEmptySnoc(parts[1..], owner);
    }
  }

  /** No word but the last one mentions the variable. */
  predicate OwnerOnlyLast(words: seq<string>) {
    forall word <- words :: !Contains(word, JOB_OWNER)
  }

  /** The scheduler runs exactly the words the adapter put together, as the configured user. */
  lemma RunRecovers(hook: string, launcher: string, user: string, launcherArgs: seq<string>, args: seq<string>, owner: string)
    requires TrimSpace(hook) != NO_HOOK && CommandOf(hook, launcher, user, launcherArgs, args).Ok?
    requires OwnerOnlyLast([launcher] + Arguments(TrimSpace(hook), launcherArgs, args)) && NoneOf(Blank, owner)
    ensures Run(CommandOf(hook, launcher, user, launcherArgs, args).value, owner)
            == Invocation(user, [launcher] + Arguments(TrimSpace(hook), launcherArgs, args) + OwnerArg(owner))
  {
    var all := Arguments(TrimSpace(hook), launcherArgs, args);
    var words := [launcher] + all;
    SplitUser(user, launcher, all + [JOB_OWNER]);
    assert [user + "@" + launcher] + all + [JOB_OWNER] == [user + "@" + launcher] + (all + [JOB_OWNER]);
    assert [launcher] + (all + [JOB_OWNER]) == words + [JOB_OWNER];
    SubstituteJoin(words, owner);
    assert forall word <- words :: PlainArg(word) by {
      assert NoneOf(Blank, launcher) by {
        forall i | 0 <= i < |launcher| ensures !Blank(launcher[i]) { assert !BlankOrAt(launcher[i]); }
      }
    }
    WordsJoin(words + [owner]);
    NonEmptySnoc(words, owner);
  }

  lemma SplitUser(user: string, launcher: string, rest: seq<string>)
    requires PlainUser(user)
    ensures Cut(Join([user + "@" + launcher] + rest, " "), '@') == (user, Join([launcher] + rest, " "), true)
  {
    assert '@' !in user by {
      forall i | 0 <= i < |user| ensures user[i] != '@' { assert !BadUserChar(user[i]); }
    }
    var tail := if rest == [] then "" else " " + Join(rest, " ");
    JoinHead(user + "@" + launcher, rest);
    JoinHead(launcher, rest);
    assert user + "@" + launcher + tail == user + ['@'] + (launcher + tail);
    CutAppend(user, '@', launcher + tail);
  }

  lemma JoinHead(first: string, rest: seq<string>)
    ensures Join([first] + rest, " ") == first + (if rest == [] then "" else " " + Join(rest, " "))
  {
    assert ([first] + rest)[1..] == rest;
  }

  // ---- Reading the options back -------------------------------------------------------------------------

  lemma CutOption(name: string, value: string)
    requires '=' !in name
    ensures Cut(name + "=" + value, '=') == (name, value, true)
  {
    CutAppend(name, '=', value);
  }

  lemma AssignRoot(s: LaunchSettings, value: string)
    ensures Assign(s, "--sge-root=" + value) == Some(s.(sgeRoot := value)) && IsOption("--sge-root=" + value)
  {
    assert "--sge-root=" + value == "--sge-root" + "=" + value;
    CutOption("--sge-root", value);
  }

  lemma AssignCell(s: LaunchSettings, value: string)
    ensures Assign(s, "--sge-cell=" + value) == Some(s.(sgeCell := value)) && IsOption("--sge-cell=" + value)
  {
    assert "--sge-cell=" + value == "--sge-cell" + "=" + value;
    CutOption("--sge-cell", value);
  }

  lemma AssignSpool(s: LaunchSettings, value: string)
    ensures Assign(s, "--spool-root=" + value) == Some(s.(spoolRoots := s.spoolRoots + [value]))
    ensures IsOption("--spool-root=" + value)
  {
    assert "--spool-root=" + value == "--spool-root" + "=" + value;
    CutOption("--spool-root", value);
  }

  lemma AssignQmaster(s: LaunchSettings, value: string)
    ensures Assign(s, "--qmaster-port=" + value) == Some(s.(qmasterPort := value)) && IsOption("--qmaster-port=" + value)
  {
    assert "--qmaster-port=" + value == "--qmaster-port" + "=" + value;
    CutOption("--qmaster-port", value);
  }

  lemma AssignExecd(s: LaunchSettings, value: string)
    ensures Assign(s, "--execd-port=" + value) == Some(s.(execdPort := value)) && IsOption("--execd-port=" + value)
  {
    assert "--execd-port=" + value == "--execd-port" + "=" + value;
    CutOption("--execd-port", value);
  }

  lemma OptionsStep(arg: string, rest: seq<string>, s: LaunchSettings)
    requires IsOption(arg) && Assign(s, arg) != None
    ensures Options([arg] + rest, s) == Options(rest, Assign(s, arg).value)
  {
    assert ([arg] + rest)[1..] == rest;
  }

  function AddRoots(s: LaunchSettings, roots: seq<string>): LaunchSettings {
    s.(spoolRoots := s.spoolRoots + roots)
  }

  lemma AddRootsStep(s: LaunchSettings, roots: seq<string>)
    requires roots != []
    ensures AddRoots(AddRoots(s, [roots[0]]), roots[1..]) == AddRoots(s, roots)
  {
    assert s.spoolRoots + [roots[0]] + roots[1..] == s.spoolRoots + roots;
  }

  lemma SpoolStep(root: string, tail: seq<string>, rest: seq<string>, s: LaunchSettings)
    ensures Options(["--spool-root=" + root] + tail + rest, s) == Options(tail + rest, AddRoots(s, [root]))
  {
    AssignSpool(s, root);
    OptionsStep("--spool-root=" + root, tail + rest, s);
    assert ["--spool-root=" + root] + tail + rest == ["--spool-root=" + root] + (tail + rest);
  }

  lemma {:induction false} OptionsSpool(roots: seq<string>, rest: seq<string>, s: LaunchSettings)
    ensures Options(SpoolOptions(roots) + rest, s) == Options(rest, AddRoots(s, roots))
  {
    if roots == [] {
      assert SpoolOptions(roots) + rest == rest;
      assert s.spoolRoots + roots == s.spoolRoots;
    } else {
      SpoolStep(roots[0], SpoolOptions(roots[1..]), rest, s);
      OptionsSpool(roots[1..], rest, AddRoots(s, [roots[0]]));
      AddRootsStep(s, roots);
    }
  }

  lemma OptionsPorts(c: Cluster, rest: seq<string>, s: LaunchSettings)
    requires s.qmasterPort == s.execdPort == ""
    ensures Options(PortOption("--qmaster-port=", c.qmasterPort) + (PortOption("--execd-port=", c.execdPort) + rest), s)
            == Options(rest, s.(qmasterPort := c.qmasterPort, execdPort := c.execdPort))
  {
    var tail := PortOption("--execd-port=", c.execdPort) + rest;
    var next := s.(qmasterPort := c.qmasterPort);
    AssignQmaster(s, c.qmasterPort);
    AssignExecd(next, c.execdPort);
    if c.qmasterPort != "" {
      OptionsStep("--qmaster-port=" + c.qmasterPort, tail, s);
    } else {
      assert [] + tail == tail;
    }
    if c.execdPort != "" {
      OptionsStep("--execd-port=" + c.execdPort, rest, next);
    } else {
      assert [] + rest == rest;
    }
  }

  function SettingsOf(c: Cluster, roots: seq<string>): LaunchSettings {
    LaunchSettings(Clean(c.sgeRoot), CellOf(c), roots, c.qmasterPort, c.execdPort)
  }

  /** The launcher reads back the settings the adapter printed, and finds the hook behind them. */
  lemma OptionsRecover(c: Cluster, roots: seq<string>, hook: string, args: seq<string>)
    requires LauncherArgs(c, roots) != None && !IsOption(hook)
    ensures Options(LauncherArgs(c, roots).value + [hook] + args, NO_SETTINGS) == Ok((SettingsOf(c, roots), [hook] + args))
  {
    var rest := [hook] + args;
    var q, e := PortOption("--qmaster-port=", c.qmasterPort), PortOption("--execd-port=", c.execdPort);
    var a, b := "--sge-root=" + Clean(c.sgeRoot), "--sge-cell=" + CellOf(c);
    var s1 := NO_SETTINGS.(sgeRoot := Clean(c.sgeRoot));
    var s2 := s1.(sgeCell := CellOf(c));
    RegroupArgs(a, b, SpoolOptions(roots), q, e, hook, args);
    AssignRoot(NO_SETTINGS, Clean(c.sgeRoot));
    AssignCell(s1, CellOf(c));
    OptionsStep(a, [b] + (SpoolOptions(roots) + (q + (e + rest))), NO_SETTINGS);
    OptionsStep(b, SpoolOptions(roots) + (q + (e + rest)), s1);
    OptionsSpool(roots, q + (e + rest), s2);
    assert [] + roots == roots;
    OptionsPorts(c, rest, s2.(spoolRoots := roots));
  }

  lemma RegroupArgs(a: string, b: string, r: seq<string>, q: seq<string>, e: seq<string>, hook: string, args: seq<string>)
    ensures ([a, b] + r + q + e) + [hook] + args == [a] + ([b] + (r + (q + (e + ([hook] + args)))))
  {
  }

  lemma FlagStep(name: string, value: string, rest: seq<string>, known: set<string>, m: map<string, string>)
    requires name in known && '=' !in name && name != "" && name[0] != '-'
    ensures Flags([FlagArg(name, value)] + rest, known, m) == Flags(rest, known, m[name := value])
  {
    var arg := FlagArg(name, value);
    assert arg[2..] == name + "=" + value;
    assert (name + "=" + value)[0] == name[0];
    CutOption(name, value);
    assert ([arg] + rest)[1..] == rest;
  }

  lemma OptionalStep(name: string, value: string, rest: seq<string>, known: set<string>, m: map<string, string>)
    requires name in known && '=' !in name && name != "" && name[0] != '-'
    ensures Flags(OptionalFlag(name, value) + rest, known, m)
            == Flags(rest, known, if value == "" then m else m[name := value])
  {
    FlagStep(name, value, rest, known, m);
    assert [] + rest == rest;
  }

  /** The owner argument stops the flags, unless it looks like one. */
  lemma FlagsOwner(owner: string, known: set<string>, m: map<string, string>)
    ensures !IsFlag(owner) ==> Flags(OwnerArg(owner), known, m) == Ok((m, OwnerArg(owner)))
    ensures IsFlag(owner) ==> var r := Flags(OwnerArg(owner), known, m); r.Ok? ==> r.value.1 == []
  {
    if owner != "" {
      assert [owner][1..] == [];
    }
  }

  predicate UsableOptions(o: HookOptions) {
    o.configPath != "" && o.resourceName != "" && IsAbs(o.qstatPath)
  }

  function CommonMap(o: HookOptions): map<string, string> {
    var m: map<string, string> := map["config" := o.configPath];
    if o.logLevel == "" then m else m["log-level" := o.logLevel]
  }

  lemma CommonFlags(o: HookOptions, rest: seq<string>, known: set<string>)
    requires "config" in known && "log-level" in known
    ensures Flags(CommonArgs(o) + rest, known, map[]) == Flags(rest, known, CommonMap(o))
  {
    var log := OptionalFlag("log-level", o.logLevel);
    var m: map<string, string> := map["config" := o.configPath];
    assert CommonArgs(o) + rest == [FlagArg("config", o.configPath)] + (log + rest);
    FlagStep("config", o.configPath, log + rest, known, map[]);
    assert map[]["config" := o.configPath] == m;
    OptionalStep("log-level", o.logLevel, rest, known, m);
  }

  function PrologMap(o: HookOptions): map<string, string> {
    CommonMap(o)["resource" := o.resourceName]["slots-resource" := o.slotsResourceName]["qstat" := o.qstatPath]
  }

  lemma ThreeFlags(a: string, u: string, b: string, v: string, c: string, w: string, rest: seq<string>,
                   known: set<string>, m: map<string, string>)
    requires forall name <- [a, b, c] :: name in known && '=' !in name && name != "" && name[0] != '-'
    ensures Flags([FlagArg(a, u), FlagArg(b, v), FlagArg(c, w)] + rest, known, m)
            == Flags(rest, known, m[a := u][b := v][c := w])
  {
    assert a in [a, b, c] && b in [a, b, c] && c in [a, b, c];
    assert [FlagArg(a, u), FlagArg(b, v), FlagArg(c, w)] + rest
           == [FlagArg(a, u)] + ([FlagArg(b, v)] + ([FlagArg(c, w)] + rest));
    FlagStep(a, u, [FlagArg(b, v)] + ([FlagArg(c, w)] + rest), known, m);
    FlagStep(b, v, [FlagArg(c, w)] + rest, known, m[a := u]);
    FlagStep(c, w, rest, known, m[a := u][b := v]);
  }

  lemma FlagNames()
    ensures forall name <- ["resource", "slots-resource", "qstat"] :: name in PROLOG_FLAGS && '=' !in name && name != "" && name[0] != '-'
    ensures "config" in PROLOG_FLAGS && "log-level" in PROLOG_FLAGS
  {
  }

  lemma PrologFlags(o: HookOptions, rest: seq<string>)
    ensures Flags(PrologArgs(o) + rest, PROLOG_FLAGS, map[]) == Flags(rest, PROLOG_FLAGS, PrologMap(o))
  {
    var three := [FlagArg("resource", o.resourceName), FlagArg("slots-resource", o.slotsResourceName),
                  FlagArg("qstat", o.qstatPath)];
    FlagNames();
    assert PrologArgs(o) + rest == CommonArgs(o) + (three + rest);
    CommonFlags(o, three + rest, PROLOG_FLAGS);
    ThreeFlags("resource", o.resourceName, "slots-resource", o.slotsResourceName, "qstat", o.qstatPath, rest,
               PROLOG_FLAGS, CommonMap(o));
  }

  lemma PrologGets(o: HookOptions)
    ensures var m := PrologMap(o);
            && GetOr(m, "config", DEFAULT_CONFIG) == o.configPath && GetOr(m, "resource", DEFAULT_RESOURCE) == o.resourceName
            && GetOr(m, "slots-resource", DEFAULT_SLOTS) == o.slotsResourceName && GetOr(m, "qstat", "") == o.qstatPath
            && GetOr(m, "log-level", "") == o.logLevel
  {
  }

  /** The prolog reads back its options and the owner, exactly unless the owner looks like a flag or an option
      is missing. */
  lemma PrologParses(o: HookOptions, owner: string)
    ensures ParsePrologArgs(PrologArgs(o) + OwnerArg(owner)) == Ok((o, owner)) <==> !IsFlag(owner) && UsableOptions(o)
    ensures !IsFlag(owner) && !UsableOptions(o) ==> ParsePrologArgs(PrologArgs(o) + OwnerArg(owner)) == Err(MissingSetting)
  {
    PrologFlags(o, OwnerArg(owner));
    FlagsOwner(owner, PROLOG_FLAGS, PrologMap(o));
    PrologGets(o);
  }

  lemma EpilogParses(o: HookOptions, owner: string)
    ensures ParseEpilogArgs(CommonArgs(o) + OwnerArg(owner)) == Ok((o.configPath, o.logLevel, owner)) <==> !IsFlag(owner)
  {
    CommonFlags(o, OwnerArg(owner), EPILOG_FLAGS);
    FlagsOwner(owner, EPILOG_FLAGS, CommonMap(o));
  }

  // ---- The whole way -------------------------------------------------------------------------------------------

  /** From the adapter's settings through scheduler and launcher to the prolog: everything arrives. */
  lemma PrologRoundTrip(hook: string, launcher: string, user: string, c: Cluster, roots: seq<string>, o: HookOptions, owner: string)
    requires LauncherArgs(c, roots) != None && UsableOptions(o) && TrimSpace(hook) != NO_HOOK
    requires CommandOf(hook, launcher, user, LauncherArgs(c, roots).value, PrologArgs(o)).Ok?
    requires OwnerOnlyLast([launcher] + Arguments(TrimSpace(hook), LauncherArgs(c, roots).value, PrologArgs(o)))
    requires NoneOf(Blank, owner)
    ensures var run := Run(CommandOf(hook, launcher, user, LauncherArgs(c, roots).value, PrologArgs(o)).value, owner);
            var hookArgs := PrologArgs(o) + OwnerArg(owner);
            && run.user == user && run.argv != [] && run.argv[0] == launcher
            && Options(run.argv[1..], NO_SETTINGS) == Ok((SettingsOf(c, roots), [TrimSpace(hook)] + hookArgs))
            && (ParsePrologArgs(hookArgs) == Ok((o, owner)) <==> !IsFlag(owner))
  {
    HookReached(hook, launcher, user, c, roots, PrologArgs(o), owner);
    PrologParses(o, owner);
  }

  lemma EpilogRoundTrip(hook: string, launcher: string, user: string, c: Cluster, roots: seq<string>, o: HookOptions, owner: string)
    requires LauncherArgs(c, roots) != None && TrimSpace(hook) != NO_HOOK
    requires CommandOf(hook, launcher, user, LauncherArgs(c, roots).value, CommonArgs(o)).Ok?
    requires OwnerOnlyLast([launcher] + Arguments(TrimSpace(hook), LauncherArgs(c, roots).value, CommonArgs(o)))
    requires NoneOf(Blank, owner)
    ensures var run := Run(CommandOf(hook, launcher, user, LauncherArgs(c, roots).value, CommonArgs(o)).value, owner);
            var hookArgs := CommonArgs(o) + OwnerArg(owner);
            && run.user == user && run.argv != [] && run.argv[0] == launcher
            && Options(run.argv[1..], NO_SETTINGS) == Ok((SettingsOf(c, roots), [TrimSpace(hook)] + hookArgs))
            && (ParseEpilogArgs(hookArgs) == Ok((o.configPath, o.logLevel, owner)) <==> !IsFlag(owner))
  {
    HookReached(hook, launcher, user, c, roots, CommonArgs(o), owner);
    EpilogParses(o, owner);
  }

  lemma LauncherDropped(launcher: string, hook: string, launcherArgs: seq<string>, args: seq<string>, last: seq<string>)
    ensures ([launcher] + Arguments(hook, launcherArgs, args) + last)[1..] == launcherArgs + [hook] + (args + last)
  {
  }

  lemma HookReached(hook: string, launcher: string, user: string, c: Cluster, roots: seq<string>, args: seq<string>, owner: string)
    requires LauncherArgs(c, roots) != None && TrimSpace(hook) != NO_HOOK
    requires CommandOf(hook, launcher, user, LauncherArgs(c, roots).value, args).Ok?
    requires OwnerOnlyLast([launcher] + Arguments(TrimSpace(hook), LauncherArgs(c, roots).value, args)) && NoneOf(Blank, owner)
    ensures var run := Run(CommandOf(hook, launcher, user, LauncherArgs(c, roots).value, args).value, owner);
            && run.user == user && run.argv != [] && run.argv[0] == launcher
            && Options(run.argv[1..], NO_SETTINGS) == Ok((SettingsOf(c, roots), [TrimSpace(hook)] + (args + OwnerArg(owner))))
  {
    var h, l := TrimSpace(hook), LauncherArgs(c, roots).value;
    RunRecovers(hook, launcher, user, l, args, owner);
    LauncherDropped(launcher, h, l, args, OwnerArg(owner));
    assert h[0] == '/';
    OptionsRecover(c, roots, h, args + OwnerArg(owner));
  }
}

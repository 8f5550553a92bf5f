/** The prolog: from the job's request to a published token, or to an exit code. */
module Prolog {
  import opened Decimal
  import opened EnvList
  import opened FieldReader
  import opened JobEnv
  import opened Sanitize
  import opened Wrappers

  // ---- Errors and exit codes --------------------------------------------------------------

  /** Go errors as far as the hooks look into them: a hook error carries an exit code,
      and errors wrap others. */
  datatype Error = NotFound | Plain | Hook(code: int, cause: Error) | Wrap(cause: Error)

  /** errors.Is for the missing request. */
  predicate IsNotFound(e: Error) {
    match e
    case NotFound => true
    case Plain => false
    case Hook(_, cause) => IsNotFound(cause)
    case Wrap(cause) => IsNotFound(cause)
  }

  /** The code of the outermost hook error in the chain, or the host error. */
  function CodeOf(e: Error): int {
    match e
    case Hook(code, _) => code
    case Wrap(cause) => CodeOf(cause)
    case NotFound => 1
    case Plain => 1
  }

  function ExitCode(e: Option<Error>): int {
    if e == None then 0 else CodeOf(e.value)
  }

  function JobError(e: Error): Error {
    Hook(100, e)
  }

  function RetryError(e: Error): Error {
    Hook(99, e)
  }

  // ---- What the outside answers ---------------------------------------------------------------

  /** A scheduler command: its output, an untrusted executable, or a failed run. */
  datatype Answer = Printed(text: string) | Untrusted | Unreachable

  datatype Definition = Definition(typ: int, typeString: string, environments: seq<(string, string)>)

  /** Everything the run is told from outside, in the order it asks. */
  datatype World = World(
    request: Answer, hostName: Option<string>, hostValues: Answer, shortHostValues: Answer,
    envOpens: bool, rustLog: Option<string>, config: Option<map<string, Definition>>,
    uid: Option<nat>, slotsRequest: Answer, slots: string -> Option<int>,
    opens: bool, accessible: Option<bool>, token: Option<string>, now: int, message: Error -> string)

  /** The backend's tokens, and the calls made. */
  class Backend {
    var held: set<string>
    var acquired: seq<string>
    var released: seq<string>
    const releaseFails: bool

    constructor (held: set<string>, releaseFails: bool)
      ensures this.held == held && acquired == released == [] && this.releaseFails == releaseFails
    {
      this.held, this.acquired, this.released, this.releaseFails := held, [], [], releaseFails;
    }

    method Acquire(answer: Option<string>) returns (token: Option<string>)
      modifies this
      ensures token == answer && released == old(released)
      ensures acquired == old(acquired) + (if answer == None then [] else [answer.value])
      ensures held == old(held) + (if answer == None then {} else {answer.value})
    {
      token := answer;
      if answer != None {
        acquired, held := acquired + [answer.value], held + {answer.value};
      }
    }

    method Release(token: string) returns (ok: bool)
      modifies this
      ensures acquired == old(acquired) && released == old(released) + [token]
      ensures ok == !releaseFails && held == (if ok then old(held) - {token} else old(held))
    {
      released := released + [token];
      ok := !releaseFails;
      if ok {
        held := held - {token};
      }
    }
  }

  // ---- Lookups ---------------------------------------------------------------------------------------

  function CommandError(a: Answer): Error
    requires !a.Printed?
  {
    if a.Untrusted? then Plain else RetryError(Wrap(Plain))
  }

  function ReadRequest(a: Answer, jobId: string, resource: string): Result<string, Error> {
    if jobId == "" then Err(Plain)
    else if !a.Printed? then Err(CommandError(a))
    else
      var value := ParseJobRequestedResource(a.text, resource);
      if value == None then Err(Wrap(NotFound)) else Ok(value.value)
  }

  /** The fallback to the short host name, then the host's own offer. */
  function CheckHostOffers(w: World, resource: string, backend: string): Option<Error> {
    if w.hostName == None then Some(Wrap(Plain))
    else
      var a := if !w.hostValues.Printed? && '.' in w.hostName.value then w.shortHostValues else w.hostValues;
      if !a.Printed? then Some(CommandError(a))
      else if Requested(a.text, "complex_values", resource) != Some(backend) then Some(JobError(Plain))
      else None
  }

  // ---- Exported variables --------------------------------------------------------------------------------

  const JOB_UID := "QRMI_JOB_UID"
  const QRMI_JOB_ID := "QRMI_JOB_ID"
  const JOB_SLOTS := "QRMI_JOB_QPU_SLOTS"

  function Prefixed(backend: string, key: string): string {
    backend + "_" + key
  }

  function TokenKey(backend: string): string {
    backend + "_QRMI_JOB_ACQUISITION_TOKEN"
  }

  /** The configured settings with a key. */
  function BackendPairs(backend: string, settings: seq<(string, string)>): seq<(string, string)> {
    if settings == [] then []
    else (if settings[0].0 == "" then [] else [(Prefixed(backend, settings[0].0), settings[0].1)])
         + BackendPairs(backend, settings[1..])
  }

  function SchedulerJobId(env: map<string, string>): string {
    var task := Get(env, TASK_ID);
    if task != "" && task != "undefined" && task != "0" then Get(env, JOB_ID) + "." + task else Get(env, JOB_ID)
  }

  function SchedulerPairs(uid: nat, jobId: string, slots: Option<int>): seq<(string, string)> {
    [(JOB_UID, Itoa(uid))] + (if jobId == "" then [] else [(QRMI_JOB_ID, jobId)])
    + (if slots == None then [] else [(JOB_SLOTS, Itoa(slots.value))])
  }

  function TypeText(d: Definition): string {
    if d.typeString == "" then Itoa(d.typ) else d.typeString
  }

  function RuntimePairs(backend: string, token: string, typ: string): seq<(string, string)> {
    [(TokenKey(backend), token), ("QRMI_JOB_QPU_RESOURCES", backend), ("QRMI_JOB_QPU_TYPES", typ),
     ("qrmi_resources", backend), ("qrmi_resource_types", typ), ("qrmi_acquired_count", "1")]
  }

  function LogPairs(level: Option<string>): seq<(string, string)> {
    if level == None then [] else [("RUST_LOG", level.value)]
  }

  // ---- What is written, whether the run succeeds or not --------------------------------------------------

  /** A pair that fits one line and does not claim success. */
  predicate Good(p: (string, string)) {
    '\n' !in p.0 && '\n' !in p.1 && (p.0 == PROLOG_STATUS ==> p.1 == "error")
  }

  predicate AllGood(pairs: seq<(string, string)>) {
    forall i :: 0 <= i < |pairs| ==> Good(pairs[i])
  }

  /** What os.Setenv accepts, for each pair. */
  predicate AllSettable(pairs: seq<(string, string)>) {
    forall i :: 0 <= i < |pairs| ==> Settable(pairs[i].0, pairs[i].1)
  }

  predicate OneLineValues(env: map<string, string>) {
    forall key <- env :: '\n' !in env[key]
  }

  /** Nothing written so far, complete or torn, claims success or breaks a line. */
  ghost predicate Quiet(je: Environment)
    reads je
  {
    AllGood(je.written) && (je.torn != "" ==> Good(je.attempt)) && OneLineValues(je.env)
  }

  /** A write failed, and what was written until then, with the line it was to write, is the first part of a plan. */
  ghost predicate Stopped(je: Environment, plan: seq<(string, string)>)
    reads je
  {
    je.broken && je.written + [je.attempt] <= plan
  }

  /** The pairs have been set, and written. */
  ghost predicate Gained(pairs: seq<(string, string)>, env: map<string, string>, written: seq<(string, string)>,
                         torn: string, broken: bool, je: Environment)
    reads je
  {
    && je.written == written + pairs && je.torn == torn && je.env == env + MapOf(pairs)
    && (je.broken <==> pairs == [] && broken)
  }

  /** Sets one variable of a list. */
  method SetNext(je: Environment, key: string, value: string, ghost pairs: seq<(string, string)>, ghost i: nat, ghost env: map<string, string>,
                 ghost written: seq<(string, string)>, ghost torn: string, ghost broken: bool) returns (ok: bool)
    requires je.Valid() && i < |pairs| && pairs[i] == (key, value) && Gained(pairs[..i], env, written, torn, broken, je)
    modifies je
    ensures je.Valid() && je.prior == old(je.prior)
    ensures ok ==> Gained(pairs[..i + 1], env, written, torn, broken, je) && Settable(key, value)
    ensures !ok && Settable(key, value) && !broken ==> Stopped(je, written + pairs)
    ensures old(Quiet(je)) && Good(pairs[i]) ==> Quiet(je)
  {
    NextPair(env, pairs, i, written);
    ok := je.Set(key, value);
  }

  /** Sets variables one after the other until one fails. */
  method SetAll(je: Environment, pairs: seq<(string, string)>) returns (ok: bool)
    requires je.Valid()
    modifies je
    ensures je.Valid() && je.prior == old(je.prior)
    ensures ok ==> je.written == old(je.written) + pairs && je.torn == old(je.torn)
    ensures ok ==> je.env == old(je.env) + MapOf(pairs) && (je.broken <==> pairs == [] && old(je.broken))
    ensures ok ==> AllSettable(pairs)
    ensures !ok && !old(je.broken) && AllSettable(pairs) ==> Stopped(je, old(je.written) + pairs)
    ensures old(Quiet(je)) && AllGood(pairs) ==> Quiet(je)
  {
    ghost var env, quiet := je.env, Quiet(je) && AllGood(pairs);
    assert env + MapOf([]) == env;
    var i := 0;
    ok := true;
    while ok && i < |pairs|
      invariant i <= |pairs| && je.Valid() && je.prior == old(je.prior)
      invariant ok ==> Gained(pairs[..i], env, old(je.written), old(je.torn), old(je.broken), je) && AllSettable(pairs[..i])
      invariant !ok && !old(je.broken) && AllSettable(pairs) ==> Stopped(je, old(je.written) + pairs)
      invariant quiet ==> Quiet(je)
      decreases |pairs| - i
    {
      ok := SetNext(je, pairs[i].0, pairs[i].1, pairs, i, env, old(je.written), old(je.torn), old(je.broken));
      i := i + 1;
    }
    assert pairs[..|pairs|] == pairs;
  }

  lemma NextPair(env: map<string, string>, pairs: seq<(string, string)>, i: nat, before: seq<(string, string)>)
    requires i < |pairs|
    ensures (env + MapOf(pairs[..i]))[pairs[i].0 := pairs[i].1] == env + MapOf(pairs[..i + 1])
    ensures before + pairs[..i] + [pairs[i]] == before + pairs[..i + 1] <= before + pairs
  {
    MapOfSnoc(pairs[..i], pairs[i]);
    assert pairs[..i + 1] == pairs[..i] + [pairs[i]];
  }

  /** Records the failure in the job environment and hands the error on. */
  method ReportError(je: Environment, w: World, e: Error)
    requires je.Valid()
    modifies je
    ensures je.Valid() && je.prior == old(je.prior)
    ensures old(Quiet(je)) && '\n' !in w.message(e) ==> Quiet(je)
    ensures old(je.broken) ==> je.broken && je.written == old(je.written) && je.torn == old(je.torn) && je.attempt == old(je.attempt)
  {
    ReportKeys(w.message(e));
    var ok := je.SetPluginError(w.message(e));
  }

  lemma ReportKeys(message: string)
    ensures PLUGIN_ERROR != PROLOG_STATUS && '\n' !in PLUGIN_ERROR && '\n' !in PROLOG_STATUS
    ensures '\n' !in message ==> '\n' !in MessageOf(message)
  {
  }
}

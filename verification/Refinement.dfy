/** The programs refine the machine: whatever a prolog or an epilog does on a host, there is a run
    of the lifecycle machine that shows the same files and holds the same tokens. */
module Refinement {
  import opened Coverage
  import opened Decimal
  import opened EnvList
  import opened JobEnv
  import opened Lifecycle
  import opened Metadata
  import opened Paths
  import opened PlacePaths
  import opened Publish
  import opened Sanitize
  import opened Spool
  import opened Wrappers
  import E = Epilog
  import H = HookCommand
  import P = Prolog
  import R = PrologRun
  import V = ReleaseEnv

  // ---- The prolog's calls as steps of the machine -----------------------------------------

  /** A run of the dispatch's own events leads there. */
  ghost predicate Reaches(s: State, d: nat, now: State) {
    exists run: seq<Event> :: EventsOf(run, d) && Run(s, run) == Some(now)
  }

  lemma ReachesBy(s: State, d: nat, now: State, run: seq<Event>)
    requires EventsOf(run, d) && Run(s, run) == Some(now)
    ensures Reaches(s, d, now)
  {
  }

  lemma ReachesStep(s: State, d: nat, now: State, ev: Event)
    requires Reaches(s, d, now) && ev.d == d && Step(now, ev) != None
    ensures Reaches(s, d, Step(now, ev).value)
  {
    var run: seq<Event> :| EventsOf(run, d) && Run(s, run) == Some(now);
    Extend(s, run, now, ev);
    ReachesBy(s, d, Step(now, ev).value, run + [ev]);
  }

  lemma ReachesReachable(s: State, d: nat, now: State)
    requires Reachable(s) && Reaches(s, d, now)
    ensures Reachable(now)
  {
    var run: seq<Event> :| EventsOf(run, d) && Run(s, run) == Some(now);
    ReachableFrom(s, run);
  }

  /** The publication of a dispatch's record on its host. */
  function HostPublication(host: seq<string>, before: Files, jobTask: string, n: nat, rec: Record): Publication {
    OneRecord(before, PathOf(host, MetaPlace(jobTask)), PathOf(host, InSpool(jobTask, TempName(n))), rec)
  }

  /** Which stage of the publication the disk is in. */
  datatype Progress = Before | Part(text: string) | After

  lemma StageIs(host: seq<string>, before: Files, disk: Files, jobTask: string, n: nat, rec: Record) returns (at: Progress)
    requires IsHost(host, jobTask) && Stage(disk, HostPublication(host, before, jobTask, n, rec))
    ensures match at
            case Before => disk == before
            case Part(text) => disk == before[PathOf(host, InSpool(jobTask, TempName(n))) := text]
                               && if Writable(rec) then text <= Encode([rec]) else text == ""
            case After => Writable(rec) && disk == before[PathOf(host, MetaPlace(jobTask)) := Encode([rec])]
  {
    var path, temp := PathOf(host, MetaPlace(jobTask)), PathOf(host, InSpool(jobTask, TempName(n)));
    if disk == before {
      at := Before;
    } else if Writable(rec) && disk == before[path := Encode([rec])] {
      at := After;
    } else {
      at := Part(disk[temp]);
    }
  }

  /** What the machine's files are at that stage. */
  function FilesAt(files: map<Place, string>, jobTask: string, n: nat, rec: Record, at: Progress): map<Place, string> {
    match at
    case Before => files
    case Part(text) => files[InSpool(jobTask, TempName(n)) := text]
    case After => files[MetaPlace(jobTask) := Encode([rec])]
  }

  predicate Possible(rec: Record, at: Progress) {
    match at
    case Before => true
    case Part(text) => if Writable(rec) then text <= Encode([rec]) else text == ""
    case After => Writable(rec)
  }

  lemma ShowsStage(host: seq<string>, files: map<Place, string>, before: Files, disk: Files, jobTask: string, n: nat, rec: Record)
    returns (at: Progress)
    requires IsHost(host, jobTask) && Shows(host, files, before)
    requires Stage(disk, HostPublication(host, before, jobTask, n, rec))
    ensures Possible(rec, at) && Shows(host, FilesAt(files, jobTask, n, rec, at), disk)
  {
    at := StageIs(host, before, disk, jobTask, n, rec);
    match at
    case Before =>
    case Part(text) => ShowsPut(host, files, before, InSpool(jobTask, TempName(n)), text);
    case After => ShowsPut(host, files, before, MetaPlace(jobTask), Encode([rec]));
  }

  /** Between the acquisition and the end of the prolog. */
  lemma ReachBusy(s: State, d: nat, jobTask: string, rec: Record, n: nat, at: Progress) returns (p: Prolog)
    requires CanBegin(s, d, jobTask, rec) && Possible(rec, at)
    ensures !p.Exited? && !p.Starting?
    ensures Reaches(s, d, Holding(s, d, jobTask, rec, p, FilesAt(s.files, jobTask, n, rec, at), at.After?))
  {
    var run;
    match at {
      case Before =>
        run := ReachAcquired(s, d, jobTask, rec);
        p := Exporting(0);
      case Part(text) =>
        p := Filling(TempName(n));
        if Writable(rec) {
          run := ReachFilled(s, d, jobTask, rec, n, text, true);
        } else {
          run := ReachCreated(s, d, jobTask, rec, n);
        }
      case After =>
        run := ReachRenamed(s, d, jobTask, rec, n);
        p := Cleaning(TempName(n));
    }
    ReachesBy(s, d, Holding(s, d, jobTask, rec, p, FilesAt(s.files, jobTask, n, rec, at), at.After?), run);
  }

  /** On the way to the rollback. */
  lemma ReachRollingBack(s: State, d: nat, jobTask: string, rec: Record, n: nat, at: Progress) returns (run: seq<Event>)
    requires CanBegin(s, d, jobTask, rec) && Possible(rec, at)
    ensures EventsOf(run, d)
    ensures Run(s, run) == Some(Holding(s, d, jobTask, rec, RollingBack, FilesAt(s.files, jobTask, n, rec, at), at.After?))
  {
    match at
    case Before => run := ReachExportFailed(s, d, jobTask, rec);
    case Part(text) => run := ReachPartLeft(s, d, jobTask, rec, n, text);
    case After => run := ReachRollback(s, d, jobTask, rec);
  }

  lemma ReachPartLeft(s: State, d: nat, jobTask: string, rec: Record, n: nat, text: string) returns (run: seq<Event>)
    requires CanBegin(s, d, jobTask, rec) && Possible(rec, Part(text))
    ensures EventsOf(run, d) && Run(s, run) == Some(Holding(s, d, jobTask, rec, RollingBack,
                                                            s.files[InSpool(jobTask, TempName(n)) := text], false))
  {
    run := ReachGivenUp(s, d, jobTask, rec, n, text);
    var f := s.files[InSpool(jobTask, TempName(n)) := text];
    run := Go(s, d, jobTask, rec, run, Cleaning(TempName(n)), f, false, Clean(false), RollingBack, f, false);
  }

  /** The machine after a failed prolog: the rollback was made, and it released the token or not. */
  function Failed(s: State, d: nat, jobTask: string, rec: Record, files: map<Place, string>, published: bool, released: bool): State {
    Placed(s, d, jobTask, rec, PrologAt(jobTask, rec, Exited(1), published).(rollbacks := 1, freed := released), files,
           if released then s.held + {rec.token} - {rec.token} else s.held + {rec.token})
  }

  lemma ReachFailed(s: State, d: nat, jobTask: string, rec: Record, n: nat, at: Progress, released: bool)
    requires CanBegin(s, d, jobTask, rec) && Possible(rec, at)
    ensures Reaches(s, d, Failed(s, d, jobTask, rec, FilesAt(s.files, jobTask, n, rec, at), at.After?, released))
  {
    var run := ReachRollingBack(s, d, jobTask, rec, n, at);
    var files, held := FilesAt(s.files, jobTask, n, rec, at), s.held + {rec.token};
    var j := PrologAt(jobTask, rec, RollingBack, at.After?);
    run := Advance(s, d, jobTask, rec, run, j, files, held, PrologDoes(d, Rollback(released)),
                   j.(prolog := Exited(1), rollbacks := 1, freed := released), files, if released then held - {rec.token} else held);
    ReachesBy(s, d, Failed(s, d, jobTask, rec, files, at.After?, released), run);
  }

  /** The machine after a successful prolog. */
  function Succeeded(s: State, d: nat, jobTask: string, rec: Record): State {
    Placed(s, d, jobTask, rec, PrologAt(jobTask, rec, Exited(0), true), s.files[MetaPlace(jobTask) := Encode([rec])], s.held + {rec.token})
  }

  lemma ReachSucceeded(s: State, d: nat, jobTask: string, rec: Record)
    requires CanBegin(s, d, jobTask, rec) && Writable(rec)
    ensures Reaches(s, d, Succeeded(s, d, jobTask, rec))
  {
    var run := ReachWaiting(s, d, jobTask, rec);
    ReachesBy(s, d, Succeeded(s, d, jobTask, rec), run);
  }

  /** The machine after a prolog that acquired nothing. */
  function Ended(s: State, d: nat, jobTask: string, code: int): State {
    var j := Job(jobTask, None, Exited(code), false, Waiting, false, false, false, 0, false, false, false);
    s.(jobs := s.jobs[d := j], live := s.live[jobTask := d])
  }

  lemma ReachEnded(s: State, d: nat, jobTask: string, code: int)
    requires d !in s.jobs && FreshSpool(s, jobTask) && code in EXIT_CODES
    ensures Reaches(s, d, Ended(s, d, jobTask, code))
  {
    var e1, e2 := Dispatch(d, jobTask), PrologDoes(d, Refuse(code));
    var s1 := Step(s, e1).value;
    Extend(s, [], s, e1);
    Extend(s, [] + [e1], s1, e2);
    assert Step(s1, e2).value.jobs == Ended(s, d, jobTask, code).jobs;
    ReachesBy(s, d, Ended(s, d, jobTask, code), [] + [e1] + [e2]);
  }

  /** The writing of the temporary file fails, or the record may not be written at all. */
  lemma ReachGivenUp(s: State, d: nat, jobTask: string, rec: Record, n: nat, text: string) returns (run: seq<Event>)
    requires CanBegin(s, d, jobTask, rec) && Possible(rec, Part(text))
    ensures EventsOf(run, d) && Run(s, run) == Some(Holding(s, d, jobTask, rec, Cleaning(TempName(n)),
                                                       s.files[InSpool(jobTask, TempName(n)) := text], false))
  {
    if Writable(rec) {
      run := ReachFilled(s, d, jobTask, rec, n, text, false);
    } else {
      run := ReachCreated(s, d, jobTask, rec, n);
      var f := s.files[InSpool(jobTask, TempName(n)) := ""];
      run := Go(s, d, jobTask, rec, run, Filling(TempName(n)), f, false, Fill(0, true), Cleaning(TempName(n)), f, false);
    }
  }

  // ---- Every prolog is a run of the machine --------------------------------------------------

  /** The dispatch's prolog holds the token, and the disk looks like this. */
  ghost predicate SeenMidway(host: seq<string>, s: State, d: nat, rec: Record, disk: Files) {
    exists now: State ::
      && Reaches(s, d, now) && Shows(host, now.files, disk) && now.held == s.held + {rec.token}
      && d in now.jobs && now.jobs[d].record == Some(rec) && !now.jobs[d].PrologEnded()
  }

  lemma Midway(host: seq<string>, s: State, d: nat, jobTask: string, rec: Record, n: nat, before: Files, disk: Files)
    requires IsHost(host, jobTask) && CanBegin(s, d, jobTask, rec) && Shows(host, s.files, before)
    requires Stage(disk, HostPublication(host, before, jobTask, n, rec)) && Made(InSpool(jobTask, TempName(n)))
    ensures SeenMidway(host, s, d, rec, disk)
  {
    var at := ShowsStage(host, s.files, before, disk, jobTask, n, rec);
    var p := ReachBusy(s, d, jobTask, rec, n, at);
    var now := Holding(s, d, jobTask, rec, p, FilesAt(s.files, jobTask, n, rec, at), at.After?);
    assert Reaches(s, d, now) && Shows(host, now.files, disk);
  }

  /** The machine has come to the end of the prolog with this exit code, and only the dispatch has moved. */
  ghost predicate EndsAt(host: seq<string>, s: State, d: nat, now: State, code: int, disk: Files, held: set<string>) {
    && Reaches(s, d, now) && Shows(host, now.files, disk) && now.held == held
    && d in now.jobs && now.jobs == s.jobs[d := now.jobs[d]] && now.jobs[d].prolog == Exited(code)
  }

  /** A prolog that failed with the token in its hands. */
  lemma FailedOnHost(host: seq<string>, s: State, d: nat, jobTask: string, rec: Record, n: nat, before: Files, disk: Files, released: bool)
    returns (now: State)
    requires IsHost(host, jobTask) && CanBegin(s, d, jobTask, rec) && Shows(host, s.files, before)
    requires Stage(disk, HostPublication(host, before, jobTask, n, rec)) && Made(InSpool(jobTask, TempName(n)))
    ensures EndsAt(host, s, d, now, 1, disk, if released then s.held + {rec.token} - {rec.token} else s.held + {rec.token})
    ensures now.jobs[d].record == Some(rec)
  {
    var at := ShowsStage(host, s.files, before, disk, jobTask, n, rec);
    ReachFailed(s, d, jobTask, rec, n, at, released);
    now := Failed(s, d, jobTask, rec, FilesAt(s.files, jobTask, n, rec, at), at.After?, released);
  }

  lemma SucceededOnHost(host: seq<string>, s: State, d: nat, jobTask: string, rec: Record, before: Files, disk: Files) returns (now: State)
    requires IsHost(host, jobTask) && CanBegin(s, d, jobTask, rec) && Shows(host, s.files, before)
    requires Writable(rec) && disk == before[PathOf(host, MetaPlace(jobTask)) := Encode([rec])]
    ensures EndsAt(host, s, d, now, 0, disk, s.held + {rec.token}) && now.jobs[d].record == Some(rec)
  {
    ReachSucceeded(s, d, jobTask, rec);
    ShowsPut(host, s.files, before, MetaPlace(jobTask), Encode([rec]));
    now := Succeeded(s, d, jobTask, rec);
  }

  lemma EndedOnHost(host: seq<string>, s: State, d: nat, jobTask: string, code: int, disk: Files) returns (now: State)
    requires d !in s.jobs && FreshSpool(s, jobTask) && code in EXIT_CODES && Shows(host, s.files, disk)
    ensures EndsAt(host, s, d, now, code, disk, s.held) && now.jobs[d].record == None
  {
    ReachEnded(s, d, jobTask, code);
    now := Ended(s, d, jobTask, code);
  }

  // ---- The prolog on its host ----

  /** Every state of the disk since an index is one the machine can be in, with the token held. */
  lemma TraceOnHost(host: seq<string>, s: State, d: nat, jobTask: string, rec: Record, before: Files,
                    history: seq<Files>, from: nat, n: nat)
    requires IsHost(host, jobTask) && CanBegin(s, d, jobTask, rec) && Shows(host, s.files, before)
    requires Made(InSpool(jobTask, TempName(n))) && Stages(history, from, HostPublication(host, before, jobTask, n, rec))
    ensures forall i | from <= i < |history| :: SeenMidway(host, s, d, rec, history[i])
  {
    forall i | from <= i < |history|
      ensures SeenMidway(host, s, d, rec, history[i])
    {
      Midway(host, s, d, jobTask, rec, n, before, history[i]);
    }
  }

  /** What the run with a token leaves on the disk, as R.Traced and R.Served say it. */
  ghost predicate LeftBy(ok: bool, before: Files, files: Files, history: seq<Files>, from: nat, path: string,
                         rec: Record, temp: Option<string>) {
    && (ok ==> files == before[path := Encode([rec])] && Writable(rec))
    && (if temp == None then files == before && |history| == from
        else
          && IsTempIn(Dir(path), temp.value)
          && Stages(history, from, OneRecord(before, path, temp.value, rec))
          && Stage(files, OneRecord(before, path, temp.value, rec)))
  }

  lemma TokenOnHost(host: seq<string>, s: State, d: nat, jobTask: string, rec: Record, ok: bool, released: bool,
                    before: Files, files: Files, history: seq<Files>, from: nat, temp: Option<string>) returns (now: State)
    requires IsHost(host, jobTask) && CanBegin(s, d, jobTask, rec) && Shows(host, s.files, before)
    requires LeftBy(ok, before, files, history, from, PathOf(host, MetaPlace(jobTask)), rec, temp)
    ensures EndsAt(host, s, d, now, if ok then 0 else 1, files,
                   if !ok && released then s.held + {rec.token} - {rec.token} else s.held + {rec.token})
    ensures now.jobs[d].record == Some(rec)
    ensures forall i | from <= i < |history| :: SeenMidway(host, s, d, rec, history[i])
  {
    NamesAreProper(0);
    var n := 0;
    if temp != None {
      n := TempOnHost(host, jobTask, temp.value);
      TraceOnHost(host, s, d, jobTask, rec, before, history, from, n);
    }
    if ok {
      now := SucceededOnHost(host, s, d, jobTask, rec, before, files);
    } else {
      now := FailedOnHost(host, s, d, jobTask, rec, n, before, files, released);
    }
  }

  /** The machine and the host agree before a job's hook starts. */
  ghost predicate Matches(host: seq<string>, jobTask: string, s: State, env: map<string, string>, disk: Files, held: set<string>) {
    && IsHost(host, jobTask) && Get(env, SPOOL_DIR) == SpoolOf(host, jobTask)
    && Shows(host, s.files, disk) && s.held == held
  }

  /** The backend gives out a token it never gave before, and the numbers are 64 bits wide. */
  predicate Plausible(w: P.World, s: State) {
    && (w.token != None ==> w.token.value !in s.issuedTo)
    && Int64(w.now) && (w.config != None ==> forall backend <- w.config.value :: Int64(w.config.value[backend].typ))
  }

  /** The settings of the backend that is granted leave the metadata file where it is. */
  predicate StaysInPlace(w: P.World, env: map<string, string>, args: seq<string>) {
    var cfg := H.ParsePrologArgs(args);
    cfg.Ok? ==>
      var request := R.RequestOf(w, env, cfg.value.0);
      request.Granted? && w.config != None && request.backend in w.config.value ==>
        ResolveMetadataPath(V.SpoolAfter(env, request.backend, w.config.value[request.backend]))
        == ResolveMetadataPath(Get(env, SPOOL_DIR))
  }

  lemma LeftOnHost(host: seq<string>, jobTask: string, spool: string, ok: bool, before: Files, files: Files, history: seq<Files>, from: nat,
                   rec: Record, temp: Option<string>)
    requires IsHost(host, jobTask) && ResolveMetadataPath(spool) == ResolveMetadataPath(SpoolOf(host, jobTask))
    requires R.Traced(files, history, from, before, spool, rec, temp) && (ok ==> R.Published(before, files, spool, rec))
    ensures LeftBy(ok, before, files, history, from, PathOf(host, MetaPlace(jobTask)), rec, temp)
  {
    PlacesAreResolved(host, jobTask);
  }

  /** The run, and what it leaves on the host. */
  method RunTraced(w: P.World, je: Environment, backend: P.Backend, disk: Disk, args: seq<string>,
                   ghost host: seq<string>, ghost jobTask: string)
    returns (code: int, ghost rec: Option<Record>, ghost temp: Option<string>)
    requires je.Valid() && !je.broken && je.torn == "" && je.written == [] && disk.Valid()
    requires IsHost(host, jobTask) && Get(je.env, SPOOL_DIR) == SpoolOf(host, jobTask) && StaysInPlace(w, je.env, args)
    modifies je, backend, disk
    ensures old(disk.history) <= disk.history && code in EXIT_CODES
    ensures rec == None ==> disk.files == old(disk.files) && disk.history == old(disk.history) && backend.held == old(backend.held)
    ensures rec != None ==>
              && w.token == Some(rec.value.token) && w.config != None && rec.value.name in w.config.value
              && rec.value.typ == w.config.value[rec.value.name].typ && rec.value.epoch == w.now && code in [0, 1]
              && LeftBy(code == 0, old(disk.files), disk.files, disk.history, |old(disk.history)|,
                        PathOf(host, MetaPlace(jobTask)), rec.value, temp)
              && backend.held == if code != 0 && !backend.releaseFails then old(backend.held) + {rec.value.token} - {rec.value.token}
                                 else old(backend.held) + {rec.value.token}
  {
    ghost var token;
    ghost var env, before, from := je.env, disk.files, |disk.history|;
    code, token, temp := R.RunProlog(w, je, backend, disk, args);
    rec := None;
    if token != None {
      ghost var cfg := H.ParsePrologArgs(args).value.0;
      ghost var name := R.RequestOf(w, env, cfg).backend;
      ghost var spool := Get(R.EnvToPublish(w, env, cfg, name, w.config.value[name], token.value), SPOOL_DIR);
      V.SpoolMoves(w, env, cfg, name, w.config.value[name], token.value);
      LeftOnHost(host, jobTask, spool, code == 0, before, disk.files, disk.history, from,
                 R.RecordOf(w, name, w.config.value[name], token.value), temp);
      rec := Some(R.RecordOf(w, name, w.config.value[name], token.value));
    }
  }

  /** Every run of the prolog program is a run of the machine: it ends with the same files, tokens and
      exit code, and whenever it is killed in between, the machine can be there too. */
  method PrologOnHost(w: P.World, je: Environment, backend: P.Backend, disk: Disk, args: seq<string>,
                      ghost host: seq<string>, ghost s: State, ghost d: nat, ghost jobTask: string)
    returns (code: int, ghost now: State)
    requires je.Valid() && !je.broken && je.torn == "" && je.written == [] && disk.Valid()
    requires Matches(host, jobTask, s, je.env, disk.files, backend.held) && d !in s.jobs && FreshSpool(s, jobTask)
    requires Plausible(w, s) && StaysInPlace(w, je.env, args)
    modifies je, backend, disk
    ensures EndsAt(host, s, d, now, code, disk.files, backend.held)
    ensures old(disk.history) <= disk.history
    ensures match now.jobs[d].record
            case None => disk.history == old(disk.history)
            case Some(rec) => w.token == Some(rec.token)
                              && forall i | |old(disk.history)| <= i < |disk.history| :: SeenMidway(host, s, d, rec, disk.history[i])
  {
    ghost var rec, temp;
    ghost var before, from := disk.files, |disk.history|;
    code, rec, temp := RunTraced(w, je, backend, disk, args, host, jobTask);
    if rec == None {
      now := EndedOnHost(host, s, d, jobTask, code, disk.files);
    } else {
      now := TokenOnHost(host, s, d, jobTask, rec.value, code == 0, !backend.releaseFails, before, disk.files, disk.history, from, temp);
    }
  }

  // ---- Every epilog is a run of the machine ----------------------------------------------------

  /** s, with the dispatch, the files and the tokens moved on. */
  function Onward(s: State, d: nat, j: Job, files: map<Place, string>, held: set<string>, keptBy: map<string, nat>): State {
    s.(jobs := s.jobs[d := j], files := files, held := held, keptBy := keptBy)
  }

  /** A call that changes files or tokens too. */
  lemma StepOnward(s: State, d: nat, now: State, x: EpilogStep, j': Job, files': map<Place, string>,
                   held': set<string>, keptBy': map<string, nat>)
    requires Reaches(s, d, now) && d in now.jobs && now == Onward(s, d, now.jobs[d], now.files, now.held, now.keptBy)
    requires StepEpilog(now, d, x) == Some(now.With(d, j').(files := files', held := held', keptBy := keptBy'))
    ensures Reaches(s, d, Onward(s, d, j', files', held', keptBy'))
  {
    var next := now.With(d, j').(files := files', held := held', keptBy := keptBy');
    EpilogEvent(now, d, x, Some(next));
    ReachesStep(s, d, now, EpilogDoes(d, x));
    OnwardAgain(s, d, now, j', files', held', keptBy');
  }

  lemma EpilogEvent(s: State, d: nat, x: EpilogStep, next: Option<State>)
    requires d in s.jobs && StepEpilog(s, d, x) == next
    ensures Step(s, EpilogDoes(d, x)) == next
  {
  }

  lemma OnwardAgain(s: State, d: nat, now: State, j': Job, files': map<Place, string>, held': set<string>, keptBy': map<string, nat>)
    requires d in now.jobs && now == Onward(s, d, now.jobs[d], now.files, now.held, now.keptBy)
    ensures now.With(d, j').(files := files', held := held', keptBy := keptBy') == Onward(s, d, j', files', held', keptBy')
  {
    assert now.jobs[d := j'] == s.jobs[d := j'];
  }

  lemma SetTwice(j: Job, e: Epilog, e': Epilog)
    ensures j.(epilog := e).(epilog := e') == j.(epilog := e')
  {
  }

  /** A call that only moves the epilog on. */
  lemma EpilogMoves(s: State, d: nat, j: Job, e: Epilog, x: EpilogStep, e': Epilog)
    requires Reaches(s, d, Onward(s, d, j.(epilog := e), s.files, s.held, s.keptBy))
    requires var now := Onward(s, d, j.(epilog := e), s.files, s.held, s.keptBy);
             StepEpilog(now, d, x) == Some(now.With(d, now.jobs[d].(epilog := e')))
    ensures Reaches(s, d, Onward(s, d, j.(epilog := e'), s.files, s.held, s.keptBy))
  {
    var now := Onward(s, d, j.(epilog := e), s.files, s.held, s.keptBy);
    StepOnward(s, d, now, x, now.jobs[d].(epilog := e'), s.files, s.held, s.keptBy);
    SetTwice(j, e, e');
  }

  predicate CanEnd(s: State, d: nat) {
    d in s.jobs && s.jobs[d].PrologEnded() && s.jobs[d].epilog.Waiting? && !s.jobs[d].epilogKilled
  }

  lemma ReachEpilog(s: State, d: nat)
    requires CanEnd(s, d)
    ensures Reaches(s, d, Onward(s, d, s.jobs[d].(epilog := Reading), s.files, s.held, s.keptBy))
  {
    assert Run(s, []) == Some(s);
    ReachesBy(s, d, s, []);
    ReachesStep(s, d, s, StartEpilog(d));
  }

  /** What the epilog reads is no record. */
  predicate Garbled(s: State, d: nat, readable: bool)
    requires d in s.jobs && MetaPlace(s.jobs[d].jobTask) in s.files
  {
    !readable || Read(s.files[MetaPlace(s.jobs[d].jobTask)]).Err?
  }

  function CodeFor(s: State, d: nat, readable: bool): int
    requires d in s.jobs && MetaPlace(s.jobs[d].jobTask) in s.files
  {
    if Garbled(s, d, readable) then 1 else 0
  }

  lemma ReachReleasingOf(s: State, d: nat)
    requires CanEnd(s, d) && MetaPlace(s.jobs[d].jobTask) in s.files && !Garbled(s, d, true)
    ensures var rec := Read(s.files[MetaPlace(s.jobs[d].jobTask)]).value;
            Reaches(s, d, Onward(s, d, s.jobs[d].(epilog := Releasing(rec)), s.files, s.held, s.keptBy))
  {
    ReachEpilog(s, d);
    EpilogMoves(s, d, s.jobs[d], Reading, ReadMeta(true), Releasing(Read(s.files[MetaPlace(s.jobs[d].jobTask)]).value));
  }

  /** There is nothing to release. */
  lemma ReachGarbled(s: State, d: nat, readable: bool)
    requires CanEnd(s, d) && MetaPlace(s.jobs[d].jobTask) in s.files && Garbled(s, d, readable)
    ensures Reaches(s, d, Onward(s, d, s.jobs[d].(epilog := MakingDir(1)), s.files, s.held, s.keptBy))
  {
    ReachEpilog(s, d);
    EpilogMoves(s, d, s.jobs[d], Reading, ReadMeta(readable), MakingDir(1));
  }

  /** The release failed, or there was nothing to release. */
  lemma ReachKeeping(s: State, d: nat, readable: bool)
    requires CanEnd(s, d) && MetaPlace(s.jobs[d].jobTask) in s.files
    ensures Reaches(s, d, Onward(s, d, s.jobs[d].(epilog := MakingDir(CodeFor(s, d, readable))), s.files, s.held, s.keptBy))
  {
    if Garbled(s, d, readable) {
      ReachGarbled(s, d, readable);
    } else {
      ReachReleasingOf(s, d);
      EpilogMoves(s, d, s.jobs[d], Releasing(Read(s.files[MetaPlace(s.jobs[d].jobTask)]).value), Release(false), MakingDir(0));
    }
  }

  /** The machine after the release. */
  function ReleasedState(s: State, d: nat, rec: Record): State
    requires d in s.jobs
  {
    var j := s.jobs[d].(epilog := Releasing(rec));
    Onward(s, d, j.(epilog := Removing, freed := j.freed || (j.record != None && j.record.value.token == rec.token)),
           s.files, s.held - {rec.token}, s.keptBy)
  }

  lemma ReachRemovingOf(s: State, d: nat)
    requires CanEnd(s, d) && MetaPlace(s.jobs[d].jobTask) in s.files && !Garbled(s, d, true)
    ensures Reaches(s, d, ReleasedState(s, d, Read(s.files[MetaPlace(s.jobs[d].jobTask)]).value))
  {
    var rec := Read(s.files[MetaPlace(s.jobs[d].jobTask)]).value;
    var now, next := Onward(s, d, s.jobs[d].(epilog := Releasing(rec)), s.files, s.held, s.keptBy), ReleasedState(s, d, rec);
    ReachReleasingOf(s, d);
    StepOnward(s, d, now, Release(true), next.jobs[d], s.files, next.held, s.keptBy);
  }

  /** The machine has come to the end of the epilog with this exit code, and only the dispatch has moved. */
  ghost predicate FinishesAt(host: seq<string>, s: State, d: nat, now: State, code: int, disk: Files, held: set<string>) {
    && Reaches(s, d, now) && Shows(host, now.files, disk) && now.held == held
    && d in now.jobs && now.jobs == s.jobs[d := now.jobs[d]] && now.jobs[d].epilog in [Finished(code), GaveUp(code)]
  }

  /** After the release: the file is removed, or stays. */
  lemma ReachReleased(host: seq<string>, s: State, d: nat, before: Files, after: Files) returns (now: State)
    requires CanEnd(s, d) && IsHost(host, s.jobs[d].jobTask) && Shows(host, s.files, before)
    requires MetaPlace(s.jobs[d].jobTask) in s.files && !Garbled(s, d, true)
    requires after == before || after == before - {PathOf(host, MetaPlace(s.jobs[d].jobTask))}
    ensures FinishesAt(host, s, d, now, 0, after, s.held - {Read(s.files[MetaPlace(s.jobs[d].jobTask)]).value.token})
  {
    var meta, gone := MetaPlace(s.jobs[d].jobTask), after != before;
    var was := ReleasedState(s, d, Read(s.files[meta]).value);
    ReachRemovingOf(s, d);
    now := ReachFileGone(s, d, was, meta, gone);
    ShowsDrop(host, s.files, before, meta);
  }

  lemma ReachFileGone(s: State, d: nat, was: State, meta: Place, gone: bool) returns (now: State)
    requires Reaches(s, d, was) && d in was.jobs && was == Onward(s, d, was.jobs[d], was.files, was.held, was.keptBy)
    requires meta == MetaPlace(was.jobs[d].jobTask) && was.jobs[d].epilog == Removing && !was.jobs[d].epilogKilled
    ensures Reaches(s, d, now) && d in now.jobs && now.jobs == s.jobs[d := now.jobs[d]] && now.jobs[d].epilog == Finished(0)
    ensures now.held == was.held && now.files == if gone then was.files - {meta} else was.files
  {
    var j' := was.jobs[d].(epilog := Finished(0), metaGone := gone);
    var files := if gone then was.files - {meta} else was.files;
    StepOnward(s, d, was, RemoveMeta(gone), j', files, was.held, was.keptBy);
    now := Onward(s, d, j', files, was.held, was.keptBy);
  }

  /** The directory cannot be made, and nothing happens to the files. */
  lemma ReachLeft(host: seq<string>, s: State, d: nat, readable: bool, disk: Files) returns (now: State)
    requires CanEnd(s, d) && MetaPlace(s.jobs[d].jobTask) in s.files && Shows(host, s.files, disk)
    ensures FinishesAt(host, s, d, now, CodeFor(s, d, readable), disk, s.held)
  {
    var code := CodeFor(s, d, readable);
    ReachKeeping(s, d, readable);
    EpilogMoves(s, d, s.jobs[d], MakingDir(code), MakeDir(false), GaveUp(code));
    now := Onward(s, d, s.jobs[d].(epilog := GaveUp(code)), s.files, s.held, s.keptBy);
  }

  /** The machine after the link. */
  function LinkedState(s: State, d: nat, code: int): State
    requires d in s.jobs && MetaPlace(s.jobs[d].jobTask) in s.files
  {
    var j := s.jobs[d];
    Onward(s, d, j.(epilog := Linking(code)).(epilog := Unlinking(code), kept := true),
           s.files[Lifecycle.Kept(j.jobTask) := s.files[MetaPlace(j.jobTask)]], s.held, s.keptBy[j.jobTask := d])
  }

  lemma ReachLinked(s: State, d: nat, readable: bool)
    requires CanEnd(s, d) && MetaPlace(s.jobs[d].jobTask) in s.files && Lifecycle.Kept(s.jobs[d].jobTask) !in s.files
    ensures Reaches(s, d, LinkedState(s, d, CodeFor(s, d, readable)))
  {
    var code := CodeFor(s, d, readable);
    var now, next := Onward(s, d, s.jobs[d].(epilog := Linking(code)), s.files, s.held, s.keptBy), LinkedState(s, d, code);
    ReachKeeping(s, d, readable);
    EpilogMoves(s, d, s.jobs[d], MakingDir(code), MakeDir(true), Linking(code));
    StepOnward(s, d, now, Link(true), next.jobs[d], next.files, s.held, next.keptBy);
  }

  /** The record is linked, and then removed from the spool directory or not. */
  lemma ReachKept(host: seq<string>, s: State, d: nat, readable: bool, before: Files, after: Files) returns (now: State)
    requires CanEnd(s, d) && IsHost(host, s.jobs[d].jobTask) && Shows(host, s.files, before)
    requires MetaPlace(s.jobs[d].jobTask) in s.files && Lifecycle.Kept(s.jobs[d].jobTask) !in s.files
    requires var meta, kept := PathOf(host, MetaPlace(s.jobs[d].jobTask)), PathOf(host, Lifecycle.Kept(s.jobs[d].jobTask));
             meta in before && (after == before[kept := before[meta]] || after == before[kept := before[meta]] - {meta})
    ensures FinishesAt(host, s, d, now, CodeFor(s, d, readable), after, s.held)
  {
    var meta, kept, code := MetaPlace(s.jobs[d].jobTask), Lifecycle.Kept(s.jobs[d].jobTask), CodeFor(s, d, readable);
    var disk := before[PathOf(host, kept) := before[PathOf(host, meta)]];
    ReachLinked(s, d, readable);
    now := ReachUnlinked(s, d, LinkedState(s, d, code), meta, code, after != disk);
    assert ShowsAt(host, s.files, before, meta);
    ShowsPut(host, s.files, before, kept, s.files[meta]);
    ShowsDrop(host, s.files[kept := s.files[meta]], disk, meta);
  }

  lemma ReachUnlinked(s: State, d: nat, was: State, meta: Place, code: int, gone: bool) returns (now: State)
    requires Reaches(s, d, was) && d in was.jobs && was == Onward(s, d, was.jobs[d], was.files, was.held, was.keptBy)
    requires meta == MetaPlace(was.jobs[d].jobTask) && was.jobs[d].epilog == Unlinking(code) && !was.jobs[d].epilogKilled
    ensures Reaches(s, d, now) && d in now.jobs && now.jobs == s.jobs[d := now.jobs[d]] && now.jobs[d].epilog == Finished(code)
    ensures now.held == was.held && now.files == if gone then was.files - {meta} else was.files
  {
    var j' := was.jobs[d].(epilog := Finished(code), metaGone := gone);
    var files := if gone then was.files - {meta} else was.files;
    StepOnward(s, d, was, Unlink(gone), j', files, was.held, was.keptBy);
    now := Onward(s, d, j', files, was.held, was.keptBy);
  }

  // ---- The epilog on its host ----

  /** Wherever the epilog's calls have brought the disk, the machine can be there. */
  lemma EndingOnHost(host: seq<string>, s: State, d: nat, readable: bool, released: bool, before: Files, after: Files) returns (now: State)
    requires CanEnd(s, d) && IsHost(host, s.jobs[d].jobTask) && Shows(host, s.files, before)
    requires MetaPlace(s.jobs[d].jobTask) in s.files && (released ==> !Garbled(s, d, readable))
    requires E.Ended(before, after, PathOf(host, MetaPlace(s.jobs[d].jobTask)), released)
    ensures FinishesAt(host, s, d, now, CodeFor(s, d, readable), after,
                       if released then s.held - {Read(s.files[MetaPlace(s.jobs[d].jobTask)]).value.token} else s.held)
  {
    if released {
      now := ReachReleased(host, s, d, before, after);
    } else if after == before {
      now := ReachLeft(host, s, d, readable, after);
    } else {
      PlacesAreResolved(host, s.jobs[d].jobTask);
      assert ShowsAt(host, s.files, before, Lifecycle.Kept(s.jobs[d].jobTask));
      now := ReachKept(host, s, d, readable, before, after);
    }
  }

  lemma NothingOnHost(host: seq<string>, s: State, d: nat, disk: Files) returns (now: State)
    requires CanEnd(s, d) && Shows(host, s.files, disk) && MetaPlace(s.jobs[d].jobTask) !in s.files
    ensures FinishesAt(host, s, d, now, 0, disk, s.held)
  {
    ReachEpilog(s, d);
    EpilogMoves(s, d, s.jobs[d], Reading, ReadMeta(true), Finished(0));
    now := Onward(s, d, s.jobs[d].(epilog := Finished(0)), s.files, s.held, s.keptBy);
  }

  /** The machine can be at such an end, with these tokens held. */
  ghost predicate SeenAtEnd(host: seq<string>, s: State, d: nat, code: int, disk: Files, held: set<string>) {
    exists now :: FinishesAt(host, s, d, now, code, disk, held)
  }

  lemma EndingsOnHost(host: seq<string>, s: State, d: nat, readable: bool, released: bool, before: Files, history: seq<Files>, from: nat)
    requires CanEnd(s, d) && IsHost(host, s.jobs[d].jobTask) && Shows(host, s.files, before)
    requires MetaPlace(s.jobs[d].jobTask) in s.files && (released ==> !Garbled(s, d, readable))
    requires E.AllEnded(history, from, before, PathOf(host, MetaPlace(s.jobs[d].jobTask)), released)
    ensures forall i | from <= i < |history| ::
              SeenAtEnd(host, s, d, CodeFor(s, d, readable), history[i],
                        if released then s.held - {Read(s.files[MetaPlace(s.jobs[d].jobTask)]).value.token} else s.held)
  {
    forall i | from <= i < |history|
      ensures SeenAtEnd(host, s, d, CodeFor(s, d, readable), history[i],
                        if released then s.held - {Read(s.files[MetaPlace(s.jobs[d].jobTask)]).value.token} else s.held)
    {
      var now := EndingOnHost(host, s, d, readable, released, before, history[i]);
    }
  }

  /** The record the epilog finds is the one in the machine's file. */
  lemma FoundIs(host: seq<string>, s: State, d: nat, disk: Files, readable: bool)
    requires d in s.jobs && IsHost(host, s.jobs[d].jobTask) && Shows(host, s.files, disk)
    ensures var meta, found := MetaPlace(s.jobs[d].jobTask), E.FindingOf(disk, SpoolOf(host, s.jobs[d].jobTask), readable);
            && !found.NoSpool?
            && (found.NoFile? <==> meta !in s.files)
            && (meta in s.files ==>
                  && (found.Garbled? <==> Garbled(s, d, readable))
                  && (found.Found? ==> found.rec == Read(s.files[meta]).value))
  {
    PlacesAreResolved(host, s.jobs[d].jobTask);
    assert ShowsAt(host, s.files, disk, MetaPlace(s.jobs[d].jobTask));
  }

  /** Every run of the epilog program is a run of the machine, with the same files, tokens and exit code,
      and wherever it is killed after its first file call, the machine can be there too. */
  method EpilogOnHost(p: V.Process, disk: Disk, backend: P.Backend, config: Option<map<string, P.Definition>>, uid: Option<nat>,
                      opens: bool, readable: bool, dirOk: bool, ghost host: seq<string>, ghost s: State, ghost d: nat)
    returns (code: int, ghost now: State)
    requires disk.Valid() && CanEnd(s, d) && Matches(host, s.jobs[d].jobTask, s, p.env, disk.files, backend.held)
    modifies p, disk, backend
    ensures FinishesAt(host, s, d, now, code, disk.files, backend.held) && old(disk.history) <= disk.history
    ensures forall i | |old(disk.history)| <= i < |disk.history| :: SeenAtEnd(host, s, d, code, disk.history[i], backend.held)
  {
    ghost var before, from := disk.files, |disk.history|;
    ghost var released;
    FoundIs(host, s, d, disk.files, readable);
    PlacesAreResolved(host, s.jobs[d].jobTask);
    code, released := E.Run(p, disk, backend, config, uid, opens, readable, dirOk);
    if MetaPlace(s.jobs[d].jobTask) in s.files {
      now := EndingOnHost(host, s, d, readable, released, before, disk.files);
      EndingsOnHost(host, s, d, readable, released, before, disk.history, from);
    } else {
      now := NothingOnHost(host, s, d, disk.files);
    }
  }

  // ---- Coverage on the host --------------------------------------------------------------------

  /** The dispatch's record is at its metadata path or its kept path. */
  predicate OnDisk(host: seq<string>, disk: Files, j: Job)
    requires j.record != None
  {
    var meta, kept, text := PathOf(host, MetaPlace(j.jobTask)), PathOf(host, Lifecycle.Kept(j.jobTask)), Encode([j.record.value]);
    (meta in disk && disk[meta] == text) || (kept in disk && disk[kept] == text)
  }

  /** Token coverage for the host's own files, at the end of a program's run or wherever it was killed. */
  lemma CoverageOnHost(host: seq<string>, s: State, d: nat, now: State, disk: Files, t: string)
    requires Reachable(s) && Reaches(s, d, now) && Shows(host, now.files, disk) && t in now.held
    requires forall e <- now.jobs :: IsHost(host, now.jobs[e].jobTask)
    ensures TokenOwned(now, t)
    ensures var j := now.jobs[now.issuedTo[t]];
            OnDisk(host, disk, j) <==> !(Unpublished(j) || RollbackFailed(j) || Dropped(j))
  {
    ReachesReachable(s, d, now);
    TokenCoverage(now, t);
    var j := now.jobs[now.issuedTo[t]];
    NamesAreProper(0);
    assert ShowsAt(host, now.files, disk, MetaPlace(j.jobTask));
    assert ShowsAt(host, now.files, disk, Lifecycle.Kept(j.jobTask));
  }
}

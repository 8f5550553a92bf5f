/** The life of acquisition tokens on one execution host: the prologs and epilogs of
    any number of dispatches, step by step, with failures and kills at every step. */
module Lifecycle {
  import opened Decimal
  import opened Metadata
  import opened Publish
  import opened Spool
  import opened Wrappers

  // ---- State ------------------------------------------------------------------

  /** A file in the spool directory of <job>.<task>, or that job's kept record. */
  datatype Place = InSpool(jobTask: string, name: string) | Kept(jobTask: string)

  function MetaPlace(jobTask: string): Place {
    InSpool(jobTask, METADATA_FILENAME)
  }

  const RUNTIME_VARIABLES: nat := 6

  /** Where the prolog is; the names say which call comes next. */
  datatype Prolog =
    | Starting
    | Exporting(count: nat)
    | Resolving
    | Creating
    | Filling(temp: string)
    | Renaming(temp: string)
    | Cleaning(temp: string)
    | Marking
    | RollingBack
    | Exited(code: int)

  datatype Epilog =
    | Waiting
    | Reading
    | Releasing(rec: Record)
    | Removing
    | MakingDir(code: int)
    | Linking(code: int)
    | Unlinking(code: int)
    | Finished(code: int)
    | GaveUp(code: int)  // the metadata could not be linked into the kept directory

  /** One dispatch of a job. The last five fields record what has happened. */
  datatype Job = Job(
    jobTask: string,
    record: Option<Record>,
    prolog: Prolog,
    prologKilled: bool,
    epilog: Epilog,
    epilogKilled: bool,
    spoolGone: bool,
    published: bool,
    rollbacks: nat,
    freed: bool,
    metaGone: bool,
    kept: bool)
  {
    predicate PrologEnded() {
      prolog.Exited? || prologKilled
    }

    predicate EpilogEnded() {
      epilog.Finished? || epilog.GaveUp? || epilogKilled
    }
  }

  /** The backend's held tokens, the host's files and the dispatches; `live` maps a
      spool directory to the dispatch that has it, and the last two maps record
      who was given each token and whose record each kept file is. */
  datatype State = State(
    held: set<string>,
    files: map<Place, string>,
    jobs: map<nat, Job>,
    live: map<string, nat>,
    issuedTo: map<string, nat>,
    keptBy: map<string, nat>)
  {
    function With(d: nat, j: Job): State {
      this.(jobs := jobs[d := j])
    }
  }

  const INITIAL := State({}, map[], map[], map[], map[], map[])

  // ---- Steps ------------------------------------------------------------------

  datatype PrologStep =
    | Refuse(code: int)
    | Acquire(rec: Record)
    | Export(ok: bool)
    | Resolve(ok: bool)
    | CreateTemp(n: Option<nat>)
    | Fill(count: nat, ok: bool)
    | CloseTemp(ok: bool)
    | Rename(ok: bool)
    | Clean(ok: bool)
    | Mark(ok: bool)
    | Rollback(ok: bool)
    | KillProlog

  datatype EpilogStep =
    | ReadMeta(ok: bool)
    | Release(ok: bool)
    | RemoveMeta(ok: bool)
    | MakeDir(ok: bool)
    | Link(ok: bool)
    | Unlink(ok: bool)
    | KillEpilog

  datatype Event =
    | Dispatch(d: nat, jobTask: string)
    | PrologDoes(d: nat, p: PrologStep)
    | StartEpilog(d: nat)
    | EpilogDoes(d: nat, e: EpilogStep)
    | DeleteSpool(d: nat)

  const EXIT_CODES := {0, 1, 99, 100}

  function Prefix(text: string, n: nat): string {
    if n < |text| then text[..n] else text
  }

  /** The prolog of dispatch d makes its next call. */
  function StepProlog(s: State, d: nat, p: PrologStep): Option<State>
    requires d in s.jobs
  {
    var j := s.jobs[d];
    var meta := MetaPlace(j.jobTask);
    if j.PrologEnded() then None
    else
      match (j.prolog, p)
      case (_, KillProlog) => Some(s.With(d, j.(prologKilled := true)))
      case (Starting, Refuse(code)) =>
        if code in EXIT_CODES then Some(s.With(d, j.(prolog := Exited(code)))) else None
      case (Starting, Acquire(rec)) =>
        if rec.token in s.issuedTo || !Int64(rec.typ) || !Int64(rec.epoch) then None
        else
          var s' := s.With(d, j.(prolog := Exporting(0), record := Some(rec)));
          Some(s'.(held := s.held + {rec.token}, issuedTo := s.issuedTo[rec.token := d]))
      case (Exporting(k), Export(ok)) =>
        Some(s.With(d, j.(prolog := if !ok then RollingBack else if k + 1 >= RUNTIME_VARIABLES then Resolving else Exporting(k + 1))))
      case (Resolving, Resolve(ok)) => Some(s.With(d, j.(prolog := if ok then Creating else RollingBack)))
      case (Creating, CreateTemp(None)) => Some(s.With(d, j.(prolog := RollingBack)))
      case (Creating, CreateTemp(Some(n))) =>
        var temp := InSpool(j.jobTask, TempName(n));
        if temp in s.files then None
        else Some(s.With(d, j.(prolog := Filling(temp.name))).(files := s.files[temp := ""]))
      case (Filling(t), Fill(n, ok)) =>
        var temp := InSpool(j.jobTask, t);
        if j.record == None || temp !in s.files then None
        else if !Writable(j.record.value) then Some(s.With(d, j.(prolog := Cleaning(t))))
        else
          var more := Prefix(Encode([j.record.value]), |s.files[temp]| + n);
          Some(s.With(d, j.(prolog := if ok then Filling(t) else Cleaning(t))).(files := s.files[temp := more]))
      case (Filling(t), CloseTemp(ok)) =>
        var temp := InSpool(j.jobTask, t);
        if j.record == None || temp !in s.files || !Writable(j.record.value) || s.files[temp] != Encode([j.record.value]) then None
        else Some(s.With(d, j.(prolog := if ok then Renaming(t) else Cleaning(t))))
      case (Renaming(t), Rename(ok)) =>
        var temp := InSpool(j.jobTask, t);
        if temp !in s.files then None
        else if !ok then Some(s.With(d, j.(prolog := Cleaning(t))))
        else
          Some(s.With(d, j.(prolog := Cleaning(t), published := true)).(files := (s.files - {temp})[meta := s.files[temp]]))
      case (Cleaning(t), Clean(ok)) =>
        Some(s.With(d, j.(prolog := if j.published then Marking else RollingBack))
              .(files := if ok then s.files - {InSpool(j.jobTask, t)} else s.files))
      case (Marking, Mark(ok)) => Some(s.With(d, j.(prolog := if ok then Exited(0) else RollingBack)))
      case (RollingBack, Rollback(ok)) =>
        if j.record == None then None
        else
          Some(s.With(d, j.(prolog := Exited(1), rollbacks := j.rollbacks + 1, freed := j.freed || ok))
                .(held := if ok then s.held - {j.record.value.token} else s.held))
      case _ => None
  }

  /** The epilog of dispatch d makes its next call. */
  function StepEpilog(s: State, d: nat, e: EpilogStep): Option<State>
    requires d in s.jobs
  {
    var j := s.jobs[d];
    var meta, kept := MetaPlace(j.jobTask), Kept(j.jobTask);
    if j.EpilogEnded() then None
    else
      match (j.epilog, e)
      case (Waiting, _) => None
      case (_, KillEpilog) => Some(s.With(d, j.(epilogKilled := true)))
      case (Reading, ReadMeta(ok)) =>
        if !ok then Some(s.With(d, j.(epilog := MakingDir(1))))
        else if meta !in s.files then Some(s.With(d, j.(epilog := Finished(0))))
        else
          var r := Read(s.files[meta]);
          Some(s.With(d, j.(epilog := if r.Ok? then Releasing(r.value) else MakingDir(1))))
      case (Releasing(rec), Release(ok)) =>
        if !ok then Some(s.With(d, j.(epilog := MakingDir(0))))
        else
          Some(s.With(d, j.(epilog := Removing, freed := j.freed || (j.record != None && j.record.value.token == rec.token)))
                .(held := s.held - {rec.token}))
      case (Removing, RemoveMeta(ok)) =>
        Some(s.With(d, j.(epilog := Finished(0), metaGone := ok)).(files := if ok then s.files - {meta} else s.files))
      case (MakingDir(code), MakeDir(ok)) => Some(s.With(d, j.(epilog := if ok then Linking(code) else GaveUp(code))))
      case (Linking(code), Link(ok)) =>
        if !ok || meta !in s.files || kept in s.files then Some(s.With(d, j.(epilog := GaveUp(code))))
        else
          Some(s.With(d, j.(epilog := Unlinking(code), kept := true))
                .(files := s.files[kept := s.files[meta]], keptBy := s.keptBy[j.jobTask := d]))
      case (Unlinking(code), Unlink(ok)) =>
        Some(s.With(d, j.(epilog := Finished(code), metaGone := ok)).(files := if ok then s.files - {meta} else s.files))
      case _ => None
  }

  predicate FreshSpool(s: State, jobTask: string) {
    jobTask !in s.live && NoSpoolFiles(s.files, jobTask)
  }

  function WithoutSpool(files: map<Place, string>, jobTask: string): map<Place, string> {
    map p | p in files && !(p.InSpool? && p.jobTask == jobTask) :: files[p]
  }

  function Step(s: State, ev: Event): Option<State> {
    match ev
    case Dispatch(d, jobTask) =>
      if d in s.jobs || !FreshSpool(s, jobTask) then None
      else
        var j := Job(jobTask, None, Starting, false, Waiting, false, false, false, 0, false, false, false);
        Some(s.With(d, j).(live := s.live[jobTask := d]))
    case PrologDoes(d, p) => if d in s.jobs then StepProlog(s, d, p) else None
    case StartEpilog(d) =>
      if d in s.jobs && s.jobs[d].PrologEnded() && s.jobs[d].epilog.Waiting?
      then Some(s.With(d, s.jobs[d].(epilog := Reading))) else None
    case EpilogDoes(d, e) => if d in s.jobs then StepEpilog(s, d, e) else None
    case DeleteSpool(d) =>
      if d !in s.jobs || s.jobs[d].spoolGone || !s.jobs[d].EpilogEnded() then None
      else
        var j := s.jobs[d];
        Some(s.With(d, j.(spoolGone := true)).(files := WithoutSpool(s.files, j.jobTask), live := s.live - {j.jobTask}))
  }

  /** The state after a run, if every event of it can happen. */
  function Run(s: State, run: seq<Event>): Option<State>
    decreases |run|
  {
    if run == [] then Some(s)
    else
      var s' := Step(s, run[0]);
      if s' == None then None else Run(s'.value, run[1..])
  }

  // ---- Invariant ----------------------------------------------------------------

  /** What a dispatch's own control state says about its history. */
  predicate Control(j: Job) {
    && (match j.prolog
        case Starting => j.record == None && !j.published && j.rollbacks == 0
        case Exporting(_) => j.record != None && !j.published && j.rollbacks == 0
        case Resolving => j.record != None && !j.published && j.rollbacks == 0
        case Creating => j.record != None && !j.published && j.rollbacks == 0
        case Filling(_) => j.record != None && !j.published && j.rollbacks == 0
        case Renaming(_) => j.record != None && !j.published && j.rollbacks == 0
        case Cleaning(_) => j.record != None && j.rollbacks == 0
        case Marking => j.record != None && j.published && j.rollbacks == 0
        case RollingBack => j.record != None && j.rollbacks == 0
        case Exited(code) =>
          || (j.record == None && !j.published && j.rollbacks == 0 && code in EXIT_CODES)
          || (j.record != None && j.published && j.rollbacks == 0 && code == 0)
          || (j.record != None && j.rollbacks == 1 && code == 1))
    && (match j.epilog
        case Waiting => !j.metaGone && !j.kept && (j.freed ==> j.rollbacks == 1)
        case Reading => !j.metaGone && !j.kept && (j.freed ==> j.rollbacks == 1)
        case Releasing(rec) => !j.metaGone && !j.kept && j.published && j.record == Some(rec)
        case Removing => !j.metaGone && !j.kept && j.published && j.freed
        case MakingDir(_) => !j.metaGone && !j.kept
        case Linking(_) => !j.metaGone && !j.kept
        case Unlinking(_) => !j.metaGone && j.kept
        case Finished(_) => j.published ==> j.freed || j.kept
        case GaveUp(_) => !j.metaGone && !j.kept)
    && (!j.epilog.Waiting? ==> j.PrologEnded())
    && (j.epilogKilled ==> !j.epilog.Waiting?)
    && (j.spoolGone ==> j.EpilogEnded())
    && (j.metaGone || j.kept ==> j.published)
    && (j.freed || j.published ==> j.record != None)
    && (j.record != None ==> Int64(j.record.value.typ) && Int64(j.record.value.epoch))
    && (j.published || j.prolog.Renaming? ==> Writable(j.record.value))
  }

  /** The files of a dispatch. */
  predicate FilesOk(files: map<Place, string>, j: Job)
    requires Control(j)
  {
    var meta, kept := MetaPlace(j.jobTask), Kept(j.jobTask);
    && (!j.spoolGone ==> (meta in files <==> j.published && !j.metaGone))
    && (!j.spoolGone && meta in files ==> files[meta] == Encode([j.record.value]))
    && (j.kept ==> kept in files && files[kept] == Encode([j.record.value]))
    && (j.prolog.Filling? || j.prolog.Renaming? || j.prolog.Cleaning? ==> j.prolog.temp != METADATA_FILENAME)
    && (!j.spoolGone && j.prolog.Filling? ==>
          InSpool(j.jobTask, j.prolog.temp) in files && files[InSpool(j.jobTask, j.prolog.temp)] <= Encode([j.record.value]))
    && (!j.spoolGone && j.prolog.Renaming? ==>
          InSpool(j.jobTask, j.prolog.temp) in files && files[InSpool(j.jobTask, j.prolog.temp)] == Encode([j.record.value]))
  }

  /** Who holds what. */
  predicate OwnOk(s: State, d: nat)
    requires d in s.jobs
  {
    var j := s.jobs[d];
    && (!j.spoolGone <==> j.jobTask in s.live && s.live[j.jobTask] == d)
    && (j.record != None ==>
          && j.record.value.token in s.issuedTo && s.issuedTo[j.record.value.token] == d
          && (j.record.value.token in s.held <==> !j.freed))
    && (j.kept ==> j.jobTask in s.keptBy && s.keptBy[j.jobTask] == d)
  }

  predicate JobOk(s: State, d: nat)
    requires d in s.jobs
  {
    Control(s.jobs[d]) && FilesOk(s.files, s.jobs[d]) && OwnOk(s, d)
  }

  predicate TokenOwned(s: State, t: string) {
    t in s.issuedTo && s.issuedTo[t] in s.jobs
    && s.jobs[s.issuedTo[t]].record != None && s.jobs[s.issuedTo[t]].record.value.token == t
  }

  predicate KeptOwned(s: State, jobTask: string) {
    jobTask in s.keptBy && s.keptBy[jobTask] in s.jobs
    && s.jobs[s.keptBy[jobTask]].jobTask == jobTask && s.jobs[s.keptBy[jobTask]].kept
  }

  predicate SpoolOwned(s: State, p: Place) {
    p.InSpool? ==> p.jobTask in s.live
  }

  ghost predicate Inv(s: State) {
    && (forall d <- s.jobs :: JobOk(s, d))
    && (forall t <- s.held :: TokenOwned(s, t))
    && (forall jobTask :: Kept(jobTask) in s.files ==> KeptOwned(s, jobTask))
    && (forall jobTask <- s.live :: s.live[jobTask] in s.jobs && s.jobs[s.live[jobTask]].jobTask == jobTask)
    && (forall p <- s.files :: SpoolOwned(s, p))
    && (forall jobTask <- s.keptBy :: Kept(jobTask) in s.files)
  }

  // ---- Every step keeps the invariant ---------------------------------------------

  predicate Belongs(p: Place, jobTask: string) {
    p.jobTask == jobTask
  }

  ghost predicate FilesLocal(files: map<Place, string>, files': map<Place, string>, jobTask: string) {
    && (forall p: Place :: p.jobTask != jobTask ==> (p in files <==> p in files') && (p in files ==> files'[p] == files[p]))
    && (Kept(jobTask) in files ==> Kept(jobTask) in files' && files'[Kept(jobTask)] == files[Kept(jobTask)])
  }

  /** A step of dispatch d touches its own spool directory, adds at most its own kept
      record, and gains or releases at most its own token. */
  ghost predicate Local(s: State, s': State, d: nat) {
    && d in s.jobs && s'.jobs.Keys == s.jobs.Keys && s'.jobs == s.jobs[d := s'.jobs[d]]
    && s'.jobs[d].jobTask == s.jobs[d].jobTask && !s.jobs[d].spoolGone
    && FilesLocal(s.files, s'.files, s.jobs[d].jobTask)
    && HeldLocal(s, s', d) && MapsLocal(s, s', d, s.jobs[d].jobTask)
  }

  ghost predicate HeldLocal(s: State, s': State, d: nat) {
    && (forall t :: (t in s.held) != (t in s'.held) ==> t in s'.issuedTo && s'.issuedTo[t] == d)
    && (forall t <- s.issuedTo :: t in s'.issuedTo && s'.issuedTo[t] == s.issuedTo[t])
  }

  ghost predicate MapsLocal(s: State, s': State, d: nat, jobTask: string) {
    && (forall k :: k != jobTask ==> (k in s.live <==> k in s'.live) && (k in s.live ==> s'.live[k] == s.live[k]))
    && (jobTask in s'.live ==> s'.live[jobTask] == d)
    && (forall k <- s.keptBy :: k in s'.keptBy && s'.keptBy[k] == s.keptBy[k])
    && (forall k <- s'.keptBy :: k in s.keptBy || k == jobTask)
  }

  lemma OthersKeep(s: State, s': State, d: nat, e: nat)
    requires Local(s, s', d) && JobOk(s, d) && e != d && e in s.jobs && JobOk(s, e)
    ensures JobOk(s', e)
  {
    var j := s.jobs[e];
    assert s'.jobs[e] == j;
    if !j.spoolGone {
      assert j.jobTask != s.jobs[d].jobTask;
    }
  }

  /** What a step must establish about its own dispatch. */
  ghost predicate OwnStep(s: State, s': State, d: nat) {
    && Local(s, s', d) && JobOk(s', d)
    && (forall t <- s'.held :: t in s.held || TokenOwned(s', t))
    && (s.jobs[d].record != None ==> s'.jobs[d].record == s.jobs[d].record)
    && (s.jobs[d].kept ==> s'.jobs[d].kept)
    && OwnKept(s, s', d, s.jobs[d].jobTask)
    && (s.jobs[d].jobTask !in s'.live ==> NoSpoolFiles(s'.files, s.jobs[d].jobTask))
  }

  predicate NoSpoolFiles(files: map<Place, string>, jobTask: string) {
    forall p <- files :: p.InSpool? ==> p.jobTask != jobTask
  }

  predicate OwnKept(s: State, s': State, d: nat, jobTask: string) {
    && (Kept(jobTask) in s'.files && Kept(jobTask) !in s.files ==> KeptOwned(s', jobTask))
    && (jobTask in s'.keptBy ==> Kept(jobTask) in s'.files)
  }

  lemma TokensKeep(s: State, s': State, d: nat)
    requires Inv(s) && OwnStep(s, s', d)
    ensures forall t <- s'.held :: TokenOwned(s', t)
  {
    forall t <- s'.held
      ensures TokenOwned(s', t)
    {
      if t in s.held {
        assert TokenOwned(s, t);
      }
    }
  }

  lemma KeptKeep(s: State, s': State, d: nat)
    requires Inv(s) && OwnStep(s, s', d)
    ensures forall k :: Kept(k) in s'.files ==> KeptOwned(s', k)
    ensures forall k <- s'.keptBy :: Kept(k) in s'.files
  {
    forall k | Kept(k) in s'.files
      ensures KeptOwned(s', k)
    {
      if Kept(k) in s.files {
        assert KeptOwned(s, k);
      } else {
        assert Belongs(Kept(k), s.jobs[d].jobTask);
      }
    }
    forall k <- s'.keptBy
      ensures Kept(k) in s'.files
    {
      if k != s.jobs[d].jobTask {
        assert Kept(k) in s.files;
        assert Belongs(Kept(k), k);
      }
    }
  }

  lemma InvFromOwn(s: State, s': State, d: nat)
    requires Inv(s) && OwnStep(s, s', d)
    ensures Inv(s')
  {
    forall e <- s'.jobs
      ensures JobOk(s', e)
    {
      if e != d {
        OthersKeep(s, s', d, e);
      }
    }
    TokensKeep(s, s', d);
    KeptKeep(s, s', d);
    SpoolsKeep(s, s', d);
  }

  lemma SpoolsKeep(s: State, s': State, d: nat)
    requires Inv(s) && OwnStep(s, s', d)
    ensures forall p <- s'.files :: SpoolOwned(s', p)
    ensures forall k <- s'.live :: s'.live[k] in s'.jobs && s'.jobs[s'.live[k]].jobTask == k
  {
    forall p <- s'.files
      ensures SpoolOwned(s', p)
    {
      if p.InSpool? && p.jobTask != s.jobs[d].jobTask {
        assert SpoolOwned(s, p);
      }
    }
    forall k <- s'.live
      ensures s'.live[k] in s'.jobs && s'.jobs[s'.live[k]].jobTask == k
    {
      if k != s.jobs[d].jobTask {
        assert k in s.live && s'.live[k] == s.live[k];
        assert s.live[k] in s.jobs;
      }
    }
  }

  /** What the invariant says about one dispatch and its kept place. */
  ghost predicate InvAt(s: State, d: nat)
    requires d in s.jobs
  {
    JobOk(s, d) && (s.jobs[d].jobTask in s.keptBy ==> Kept(s.jobs[d].jobTask) in s.files)
  }

  /** A step that changes the dispatch's control state and its spool files only. */
  lemma SpoolStep(s: State, d: nat, j': Job, files': map<Place, string>)
    requires d in s.jobs && InvAt(s, d) && !s.jobs[d].spoolGone
    requires j' == s.jobs[d].(prolog := j'.prolog, prologKilled := j'.prologKilled, epilog := j'.epilog,
                              epilogKilled := j'.epilogKilled, published := j'.published, metaGone := j'.metaGone)
    requires Control(j') && FilesOk(files', j') && FilesLocal(s.files, files', j'.jobTask)
    requires Kept(j'.jobTask) in files' ==> Kept(j'.jobTask) in s.files
    ensures OwnStep(s, s.With(d, j').(files := files'), d)
  {
  }

  /** The shape of such a step. */
  ghost predicate SpoolShape(s: State, s': State, d: nat)
    requires d in s.jobs
  {
    && d in s'.jobs && s' == s.With(d, s'.jobs[d]).(files := s'.files)
    && s'.jobs[d] == s.jobs[d].(prolog := s'.jobs[d].prolog, prologKilled := s'.jobs[d].prologKilled, epilog := s'.jobs[d].epilog,
                                epilogKilled := s'.jobs[d].epilogKilled, published := s'.jobs[d].published,
                                metaGone := s'.jobs[d].metaGone)
    && Control(s'.jobs[d]) && FilesOk(s'.files, s'.jobs[d]) && FilesLocal(s.files, s'.files, s.jobs[d].jobTask)
    && (Kept(s.jobs[d].jobTask) in s'.files ==> Kept(s.jobs[d].jobTask) in s.files)
  }

  lemma OwnFromShape(s: State, s': State, d: nat)
    requires d in s.jobs && InvAt(s, d) && !s.jobs[d].spoolGone && SpoolShape(s, s', d)
    ensures OwnStep(s, s', d)
  {
    SpoolStep(s, d, s'.jobs[d], s'.files);
  }

  /** A step that also gives back the dispatch's token. */
  lemma FreeStep(s: State, d: nat, j': Job, held': set<string>)
    requires d in s.jobs && InvAt(s, d) && !s.jobs[d].spoolGone && s.jobs[d].record != None
    requires j' == s.jobs[d].(prolog := j'.prolog, epilog := j'.epilog, rollbacks := j'.rollbacks, freed := j'.freed)
    requires Control(j') && FilesOk(s.files, j')
    requires var t := s.jobs[d].record.value.token;
             || (held' == s.held && j'.freed == s.jobs[d].freed)
             || (held' == s.held - {t} && j'.freed)
    ensures OwnStep(s, s.With(d, j').(held := held'), d)
  {
  }

  lemma ActiveProlog(s: State, d: nat)
    requires Inv(s) && d in s.jobs && !s.jobs[d].PrologEnded()
    ensures InvAt(s, d) && !s.jobs[d].spoolGone && s.jobs[d].epilog.Waiting?
  {
    assert JobOk(s, d);
  }

  lemma ActiveEpilog(s: State, d: nat)
    requires Inv(s) && d in s.jobs && !s.jobs[d].EpilogEnded()
    ensures InvAt(s, d) && !s.jobs[d].spoolGone
  {
    assert JobOk(s, d);
  }

  lemma AcquireShape(s: State, d: nat, rec: Record)
    requires d in s.jobs && JobOk(s, d) && !s.jobs[d].spoolGone && StepProlog(s, d, Acquire(rec)) != None
    ensures var s' := StepProlog(s, d, Acquire(rec)).value;
            && s' == s.With(d, s.jobs[d].(prolog := Exporting(0), record := Some(rec)))
                      .(held := s.held + {rec.token}, issuedTo := s.issuedTo[rec.token := d])
            && s.jobs[d].record == None && rec.token !in s.issuedTo && JobOk(s', d)
  {
  }

  lemma AcquireOwn(s: State, d: nat, rec: Record)
    requires d in s.jobs && InvAt(s, d) && !s.jobs[d].spoolGone && StepProlog(s, d, Acquire(rec)) != None
    ensures OwnStep(s, StepProlog(s, d, Acquire(rec)).value, d)
  {
    AcquireShape(s, d, rec);
    var j' := s.jobs[d].(prolog := Exporting(0), record := Some(rec));
    Acquired(s, d, j', rec);
  }

  lemma Acquired(s: State, d: nat, j': Job, rec: Record)
    requires d in s.jobs && InvAt(s, d) && !s.jobs[d].spoolGone && s.jobs[d].record == None && rec.token !in s.issuedTo
    requires j' == s.jobs[d].(prolog := j'.prolog, record := Some(rec))
    requires JobOk(s.With(d, j').(held := s.held + {rec.token}, issuedTo := s.issuedTo[rec.token := d]), d)
    ensures OwnStep(s, s.With(d, j').(held := s.held + {rec.token}, issuedTo := s.issuedTo[rec.token := d]), d)
  {
  }

  lemma ControlShape(s: State, d: nat, p: PrologStep)
    requires d in s.jobs && JobOk(s, d) && StepProlog(s, d, p) != None
    requires p.Refuse? || p.Export? || p.Resolve? || p.Mark?
    ensures SpoolShape(s, StepProlog(s, d, p).value, d)
  {
    var s' := StepProlog(s, d, p).value;
    assert s' == s.With(d, s'.jobs[d]).(files := s'.files);
  }

  lemma CloseShape(s: State, d: nat, ok: bool)
    requires d in s.jobs && JobOk(s, d) && StepProlog(s, d, CloseTemp(ok)) != None
    ensures SpoolShape(s, StepProlog(s, d, CloseTemp(ok)).value, d)
  {
  }

  lemma KillShape(s: State, d: nat)
    requires d in s.jobs && JobOk(s, d) && StepProlog(s, d, KillProlog) != None
    ensures SpoolShape(s, StepProlog(s, d, KillProlog).value, d)
  {
    assert StepProlog(s, d, KillProlog) == Some(s.With(d, s.jobs[d].(prologKilled := true)));
    Killed(s, d, s.jobs[d].(prologKilled := true));
  }

  lemma Killed(s: State, d: nat, j': Job)
    requires d in s.jobs && JobOk(s, d) && Control(j')
    requires j' == s.jobs[d].(prologKilled := true) || j' == s.jobs[d].(epilogKilled := true)
    ensures SpoolShape(s, s.With(d, j'), d)
  {
    var s' := s.With(d, j');
    assert s' == s.With(d, s'.jobs[d]).(files := s'.files);
  }

  lemma CreateShape(s: State, d: nat, n: Option<nat>)
    requires d in s.jobs && JobOk(s, d) && StepProlog(s, d, CreateTemp(n)) != None
    ensures SpoolShape(s, StepProlog(s, d, CreateTemp(n)).value, d)
  {
    if n.Some? {
      TempNameApart(n.value);
    }
  }

  lemma FillShape(s: State, d: nat, count: nat, ok: bool)
    requires d in s.jobs && JobOk(s, d) && StepProlog(s, d, Fill(count, ok)) != None
    ensures SpoolShape(s, StepProlog(s, d, Fill(count, ok)).value, d)
  {
  }

  lemma RenameShape(s: State, d: nat, ok: bool)
    requires d in s.jobs && JobOk(s, d) && StepProlog(s, d, Rename(ok)) != None
    ensures SpoolShape(s, StepProlog(s, d, Rename(ok)).value, d)
  {
  }

  lemma CleanShape(s: State, d: nat, ok: bool)
    requires d in s.jobs && JobOk(s, d) && StepProlog(s, d, Clean(ok)) != None
    ensures SpoolShape(s, StepProlog(s, d, Clean(ok)).value, d)
  {
  }

  lemma RollbackOwn(s: State, d: nat, ok: bool)
    requires d in s.jobs && InvAt(s, d) && !s.jobs[d].spoolGone && StepProlog(s, d, Rollback(ok)) != None
    ensures OwnStep(s, StepProlog(s, d, Rollback(ok)).value, d)
  {
    var s' := StepProlog(s, d, Rollback(ok)).value;
    FreeStep(s, d, s'.jobs[d], s'.held);
    assert s' == s.With(d, s'.jobs[d]).(held := s'.held);
  }

  /** Every prolog call but the two that touch the token. */
  lemma PrologShape(s: State, d: nat, p: PrologStep)
    requires d in s.jobs && JobOk(s, d) && !p.Acquire? && !p.Rollback? && StepProlog(s, d, p) != None
    ensures SpoolShape(s, StepProlog(s, d, p).value, d)
  {
    match p
    case CreateTemp(n) => CreateShape(s, d, n);
    case Fill(count, ok) => FillShape(s, d, count, ok);
    case CloseTemp(ok) => CloseShape(s, d, ok);
    case Rename(ok) => RenameShape(s, d, ok);
    case Clean(ok) => CleanShape(s, d, ok);
    case KillProlog => KillShape(s, d);
    case _ => ControlShape(s, d, p);
  }

  lemma PrologKeepsOwn(s: State, d: nat, p: PrologStep)
    requires d in s.jobs && InvAt(s, d) && !s.jobs[d].spoolGone && StepProlog(s, d, p) != None
    ensures OwnStep(s, StepProlog(s, d, p).value, d)
  {
    match p
    case Acquire(rec) => AcquireOwn(s, d, rec);
    case Rollback(ok) => RollbackOwn(s, d, ok);
    case _ =>
      PrologShape(s, d, p);
      OwnFromShape(s, StepProlog(s, d, p).value, d);
  }

  lemma PrologOwn(s: State, d: nat, p: PrologStep)
    requires Inv(s) && d in s.jobs && StepProlog(s, d, p) != None
    ensures OwnStep(s, StepProlog(s, d, p).value, d)
  {
    ActiveProlog(s, d);
    PrologKeepsOwn(s, d, p);
  }

  lemma TempNameApart(n: nat)
    ensures TempName(n) != METADATA_FILENAME
  {
    TempShape("", n);
    assert "" + TempName(n) == TempName(n);
    TempIsNotTarget(TempName(n), METADATA_FILENAME);
  }

  lemma ReadShape(s: State, d: nat, ok: bool)
    requires d in s.jobs && JobOk(s, d) && StepEpilog(s, d, ReadMeta(ok)) != None
    ensures SpoolShape(s, StepEpilog(s, d, ReadMeta(ok)).value, d)
  {
    var j := s.jobs[d];
    if MetaPlace(j.jobTask) in s.files && j.record != None {
      RoundTripExactly(j.record.value);
    }
  }

  lemma MakeDirShape(s: State, d: nat, ok: bool)
    requires d in s.jobs && JobOk(s, d) && StepEpilog(s, d, MakeDir(ok)) != None
    ensures SpoolShape(s, StepEpilog(s, d, MakeDir(ok)).value, d)
  {
  }

  lemma KillEpilogShape(s: State, d: nat)
    requires d in s.jobs && JobOk(s, d) && StepEpilog(s, d, KillEpilog) != None
    ensures SpoolShape(s, StepEpilog(s, d, KillEpilog).value, d)
  {
    assert StepEpilog(s, d, KillEpilog) == Some(s.With(d, s.jobs[d].(epilogKilled := true)));
    Killed(s, d, s.jobs[d].(epilogKilled := true));
  }

  lemma RemoveShape(s: State, d: nat, ok: bool)
    requires d in s.jobs && JobOk(s, d) && StepEpilog(s, d, RemoveMeta(ok)) != None
    ensures SpoolShape(s, StepEpilog(s, d, RemoveMeta(ok)).value, d)
  {
  }

  lemma UnlinkShape(s: State, d: nat, ok: bool)
    requires d in s.jobs && JobOk(s, d) && StepEpilog(s, d, Unlink(ok)) != None
    ensures SpoolShape(s, StepEpilog(s, d, Unlink(ok)).value, d)
  {
  }

  lemma ReleaseOwn(s: State, d: nat, ok: bool)
    requires d in s.jobs && InvAt(s, d) && !s.jobs[d].spoolGone && StepEpilog(s, d, Release(ok)) != None
    ensures OwnStep(s, StepEpilog(s, d, Release(ok)).value, d)
  {
    var s' := StepEpilog(s, d, Release(ok)).value;
    FreeStep(s, d, s'.jobs[d], s'.held);
    assert s' == s.With(d, s'.jobs[d]).(held := s'.held);
  }

  lemma LinkShape(s: State, d: nat, ok: bool)
    requires d in s.jobs && JobOk(s, d) && !s.jobs[d].spoolGone && StepEpilog(s, d, Link(ok)) != None
    ensures var s' := StepEpilog(s, d, Link(ok)).value;
            if s'.jobs[d].epilog.GaveUp? then SpoolShape(s, s', d)
            else Linked(s, s', d) && JobOk(s', d)
  {
  }

  /** The kept record is new. */
  ghost predicate Linked(s: State, s': State, d: nat)
    requires d in s.jobs
  {
    var j := s.jobs[d];
    && Kept(j.jobTask) !in s.files && MetaPlace(j.jobTask) in s.files && d in s'.jobs
    && s'.jobs[d] == j.(epilog := s'.jobs[d].epilog, kept := true)
    && s' == s.With(d, s'.jobs[d]).(files := s.files[Kept(j.jobTask) := s.files[MetaPlace(j.jobTask)]],
                                    keptBy := s.keptBy[j.jobTask := d])
  }

  lemma LinkOwn(s: State, d: nat, ok: bool)
    requires d in s.jobs && InvAt(s, d) && !s.jobs[d].spoolGone && StepEpilog(s, d, Link(ok)) != None
    ensures OwnStep(s, StepEpilog(s, d, Link(ok)).value, d)
  {
    LinkShape(s, d, ok);
    var s' := StepEpilog(s, d, Link(ok)).value;
    if s'.jobs[d].epilog.GaveUp? {
      OwnFromShape(s, s', d);
    } else {
      OwnFromLink(s, s', d);
    }
  }

  lemma OwnFromLink(s: State, s': State, d: nat)
    requires d in s.jobs && InvAt(s, d) && !s.jobs[d].spoolGone && Linked(s, s', d) && JobOk(s', d)
    ensures OwnStep(s, s', d)
  {
    assert s.jobs[d].jobTask !in s.keptBy;
    assert KeptOwned(s', s.jobs[d].jobTask);
  }

  /** Every epilog call but the release and the link. */
  lemma EpilogShape(s: State, d: nat, e: EpilogStep)
    requires d in s.jobs && JobOk(s, d) && !e.Release? && !e.Link? && StepEpilog(s, d, e) != None
    ensures SpoolShape(s, StepEpilog(s, d, e).value, d)
  {
    match e
    case RemoveMeta(ok) => RemoveShape(s, d, ok);
    case Unlink(ok) => UnlinkShape(s, d, ok);
    case ReadMeta(ok) => ReadShape(s, d, ok);
    case MakeDir(ok) => MakeDirShape(s, d, ok);
    case KillEpilog => KillEpilogShape(s, d);
  }

  lemma EpilogKeepsOwn(s: State, d: nat, e: EpilogStep)
    requires d in s.jobs && InvAt(s, d) && !s.jobs[d].spoolGone && StepEpilog(s, d, e) != None
    ensures OwnStep(s, StepEpilog(s, d, e).value, d)
  {
    match e
    case Release(ok) => ReleaseOwn(s, d, ok);
    case Link(ok) => LinkOwn(s, d, ok);
    case _ =>
      EpilogShape(s, d, e);
      OwnFromShape(s, StepEpilog(s, d, e).value, d);
  }

  lemma EpilogOwn(s: State, d: nat, e: EpilogStep)
    requires Inv(s) && d in s.jobs && StepEpilog(s, d, e) != None
    ensures OwnStep(s, StepEpilog(s, d, e).value, d)
  {
    ActiveEpilog(s, d);
    EpilogKeepsOwn(s, d, e);
  }
}

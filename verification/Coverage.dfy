/** What holds in every state the host can reach, whatever fails and whoever is killed. */
module Coverage {
  import opened Decimal
  import opened Lifecycle
  import opened Metadata
  import opened Publish
  import opened Wrappers

  // ---- Every run keeps the invariant ----------------------------------------------

  lemma DispatchInv(s: State, d: nat, jobTask: string)
    requires Inv(s) && Step(s, Dispatch(d, jobTask)) != None
    ensures Inv(Step(s, Dispatch(d, jobTask)).value)
  {
    var s' := Step(s, Dispatch(d, jobTask)).value;
    assert MetaPlace(jobTask) !in s.files;
    forall e <- s'.jobs
      ensures JobOk(s', e)
    {
      if e != d {
        DispatchKeeps(s, s', d, jobTask, e);
      }
    }
    DispatchOwners(s, s', d, jobTask);
  }

  lemma DispatchOwners(s: State, s': State, d: nat, jobTask: string)
    requires Inv(s) && d !in s.jobs && d in s'.jobs
    requires s' == s.With(d, s'.jobs[d]).(live := s.live[jobTask := d])
    ensures forall p <- s'.files :: SpoolOwned(s', p)
    ensures forall t <- s'.held :: TokenOwned(s', t)
    ensures forall k :: Kept(k) in s'.files ==> KeptOwned(s', k)
  {
    forall p <- s'.files
      ensures SpoolOwned(s', p)
    {
      assert SpoolOwned(s, p);
    }
    forall t <- s'.held
      ensures TokenOwned(s', t)
    {
      assert TokenOwned(s, t);
    }
    forall k | Kept(k) in s'.files
      ensures KeptOwned(s', k)
    {
      assert KeptOwned(s, k);
    }
  }

  lemma DispatchKeeps(s: State, s': State, d: nat, jobTask: string, e: nat)
    requires e in s.jobs && JobOk(s, e) && e != d && jobTask !in s.live && d in s'.jobs
    requires s' == s.With(d, s'.jobs[d]).(live := s.live[jobTask := d])
    ensures JobOk(s', e)
  {
    assert s'.jobs[e] == s.jobs[e];
    assert !s.jobs[e].spoolGone ==> s.jobs[e].jobTask != jobTask;
  }

  lemma StartInv(s: State, d: nat)
    requires Inv(s) && Step(s, StartEpilog(d)) != None
    ensures OwnStep(s, Step(s, StartEpilog(d)).value, d)
  {
    assert JobOk(s, d);
    OwnFromShape(s, s.With(d, s.jobs[d].(epilog := Reading)), d);
  }

  lemma DeleteInv(s: State, d: nat)
    requires Inv(s) && Step(s, DeleteSpool(d)) != None
    ensures OwnStep(s, Step(s, DeleteSpool(d)).value, d)
  {
    assert JobOk(s, d);
    Deleted(s, d, s.jobs[d].(spoolGone := true));
  }

  lemma Deleted(s: State, d: nat, j': Job)
    requires d in s.jobs && InvAt(s, d) && !s.jobs[d].spoolGone && s.jobs[d].EpilogEnded()
    requires j' == s.jobs[d].(spoolGone := true)
    ensures OwnStep(s, s.With(d, j').(files := WithoutSpool(s.files, j'.jobTask), live := s.live - {j'.jobTask}), d)
  {
  }

  lemma StepInv(s: State, ev: Event)
    requires Inv(s) && Step(s, ev) != None
    ensures Inv(Step(s, ev).value)
    ensures !ev.Dispatch? ==> OwnStep(s, Step(s, ev).value, ev.d)
  {
    match ev
    case Dispatch(d, jobTask) => DispatchInv(s, d, jobTask);
    case PrologDoes(d, p) =>
      PrologOwn(s, d, p);
      InvFromOwn(s, Step(s, ev).value, d);
    case StartEpilog(d) =>
      StartInv(s, d);
      InvFromOwn(s, Step(s, ev).value, d);
    case EpilogDoes(d, e) =>
      EpilogOwn(s, d, e);
      InvFromOwn(s, Step(s, ev).value, d);
    case DeleteSpool(d) =>
      DeleteInv(s, d);
      InvFromOwn(s, Step(s, ev).value, d);
  }

  /** Every run, from a state that meets the invariant, ends in one and changes no kept record. */
  lemma {:induction false} RunKeeps(s: State, run: seq<Event>)
    requires Inv(s) && Run(s, run) != None
    ensures Inv(Run(s, run).value)
    ensures forall k :: Kept(k) in s.files ==>
              Kept(k) in Run(s, run).value.files && Run(s, run).value.files[Kept(k)] == s.files[Kept(k)]
    decreases |run|
  {
    if run != [] {
      StepInv(s, run[0]);
      var s1 := Step(s, run[0]).value;
      forall k | Kept(k) in s.files
        ensures Kept(k) in s1.files && s1.files[Kept(k)] == s.files[Kept(k)]
      {
        assert Belongs(Kept(k), k);
      }
      RunKeeps(s1, run[1..]);
    }
  }

  ghost predicate Reachable(s: State) {
    exists run: seq<Event> :: Run(INITIAL, run) == Some(s)
  }

  lemma ReachableInv(s: State)
    requires Reachable(s)
    ensures Inv(s)
  {
    var run: seq<Event> :| Run(INITIAL, run) == Some(s);
    RunKeeps(INITIAL, run);
  }

  // ---- Token coverage ---------------------------------------------------------------

  /** The job's own metadata file or its kept file holds exactly the dispatch's record. */
  predicate Recorded(s: State, j: Job)
    requires j.record != None
  {
    var meta, kept, text := MetaPlace(j.jobTask), Kept(j.jobTask), Encode([j.record.value]);
    (meta in s.files && s.files[meta] == text) || (kept in s.files && s.files[kept] == text)
  }

  /** The prolog is, or was killed, between Acquire and the rename, or on its way to the rollback. */
  predicate Unpublished(j: Job) {
    !j.published && j.rollbacks == 0
    && (j.prolog.Exporting? || j.prolog.Resolving? || j.prolog.Creating? || j.prolog.Filling?
        || j.prolog.Renaming? || j.prolog.Cleaning? || j.prolog.RollingBack?)
  }

  /** The rollback's only release attempt failed, and nothing was published. */
  predicate RollbackFailed(j: Job) {
    !j.published && j.rollbacks == 1 && j.prolog == Exited(1)
  }

  /** The record was published but the epilog did not link it (the directory or the
      link failed, or the epilog was killed first), and then the spool was deleted. */
  predicate Dropped(j: Job) {
    && j.published && j.spoolGone
    && (j.epilog.GaveUp?
        || (j.epilogKilled && (j.epilog.Reading? || j.epilog.Releasing? || j.epilog.MakingDir? || j.epilog.Linking?)))
  }

  lemma TextsApart(s: State, d: nat, e: nat)
    requires Inv(s) && d in s.jobs && e in s.jobs && s.jobs[d].record != None && s.jobs[e].published
    requires Encode([s.jobs[d].record.value]) == Encode([s.jobs[e].record.value])
    ensures d == e
  {
    assert JobOk(s, d) && JobOk(s, e);
    EncodeInjective(s.jobs[d].record.value, s.jobs[e].record.value);
  }

  /** A file that holds a dispatch's record is that dispatch's published or kept file. */
  lemma RecordedIsOwn(s: State, d: nat)
    requires Inv(s) && d in s.jobs && s.jobs[d].record != None && Recorded(s, s.jobs[d])
    ensures s.jobs[d].published && (s.jobs[d].kept || (!s.jobs[d].spoolGone && !s.jobs[d].metaGone))
  {
    assert JobOk(s, d);
    var j := s.jobs[d];
    var meta, kept, text := MetaPlace(j.jobTask), Kept(j.jobTask), Encode([j.record.value]);
    if kept in s.files && s.files[kept] == text {
      assert KeptOwned(s, j.jobTask);
      var e := s.keptBy[j.jobTask];
      assert JobOk(s, e);
      TextsApart(s, d, e);
    } else if j.spoolGone {
      MetaOwner(s, d);
    }
  }

  /** After its spool directory is gone, the dispatch's record is not in a later one of the same name. */
  lemma MetaOwner(s: State, d: nat)
    requires Inv(s) && d in s.jobs && s.jobs[d].record != None && s.jobs[d].spoolGone
    requires MetaPlace(s.jobs[d].jobTask) in s.files
    ensures s.files[MetaPlace(s.jobs[d].jobTask)] != Encode([s.jobs[d].record.value])
  {
    var meta := MetaPlace(s.jobs[d].jobTask);
    var e := s.live[meta.jobTask];
    assert SpoolOwned(s, meta);
    assert JobOk(s, d) && JobOk(s, e);
    if s.files[meta] == Encode([s.jobs[d].record.value]) {
      TextsApart(s, d, e);
    }
  }

  /** Coverage, exactly: a held token was given to one dispatch, whose record is on disk
      if and only if none of the three exceptions applies. */
  lemma TokenCoverage(s: State, t: string)
    requires Reachable(s) && t in s.held
    ensures TokenOwned(s, t)
    ensures var j := s.jobs[s.issuedTo[t]];
            Recorded(s, j) <==> !(Unpublished(j) || RollbackFailed(j) || Dropped(j))
  {
    ReachableInv(s);
    assert TokenOwned(s, t);
    var d := s.issuedTo[t];
    assert JobOk(s, d);
    if Recorded(s, s.jobs[d]) {
      RecordedIsOwn(s, d);
    }
  }

  /** No two dispatches are ever given the same token, and a token leaves the backend
      only by a release its own dispatch made: the prolog's rollback or the epilog's release. */
  lemma OnlyOwnTokens(s: State, ev: Event, t: string)
    requires Reachable(s) && Step(s, ev) != None && t in s.held && t !in Step(s, ev).value.held
    ensures TokenOwned(s, t) && s.issuedTo[t] == ev.d
    ensures ev == PrologDoes(ev.d, Rollback(true)) || ev == EpilogDoes(ev.d, Release(true))
  {
    ReachableInv(s);
    assert TokenOwned(s, t);
    StepInv(s, ev);
    match ev
    case PrologDoes(d, p) => PrologFrees(s, d, p);
    case EpilogDoes(d, e) => EpilogFrees(s, d, e);
    case _ =>
  }

  lemma PrologFrees(s: State, d: nat, p: PrologStep)
    requires d in s.jobs && StepProlog(s, d, p) != None
    ensures p != Rollback(true) ==> s.held <= StepProlog(s, d, p).value.held
  {
  }

  lemma EpilogFrees(s: State, d: nat, e: EpilogStep)
    requires d in s.jobs && StepEpilog(s, d, e) != None
    ensures e != Release(true) ==> s.held <= StepEpilog(s, d, e).value.held
  {
  }

  /** A kept record is never changed or removed by later prologs and epilogs. */
  lemma KeptForever(s: State, run: seq<Event>, jobTask: string)
    requires Reachable(s) && Run(s, run) != None && Kept(jobTask) in s.files
    ensures var s' := Run(s, run).value;
            Kept(jobTask) in s'.files && s'.files[Kept(jobTask)] == s.files[Kept(jobTask)]
  {
    ReachableInv(s);
    RunKeeps(s, run);
  }

  // ---- Prolog outcome -----------------------------------------------------------------

  /** How a prolog can end: 99 and 100 only without an acquisition; a failure after one
      exits 1 after exactly one release attempt; 0 after one means the complete record
      is at the metadata path when the epilog starts. */
  lemma PrologOutcome(s: State, d: nat)
    requires Reachable(s) && d in s.jobs && s.jobs[d].prolog.Exited?
    ensures var j := s.jobs[d];
            && j.prolog.code in {0, 1, 99, 100}
            && (j.prolog.code in {99, 100} ==> j.record == None)
            && (j.record == None ==> j.rollbacks == 0 && !j.published)
            && (j.record != None && j.prolog.code == 1 ==> j.rollbacks == 1)
            && (j.record != None && j.prolog.code == 0 ==> j.rollbacks == 0 && j.published)
            && (j.published && j.epilog.Waiting? ==>
                  && MetaPlace(j.jobTask) in s.files
                  && s.files[MetaPlace(j.jobTask)] == Encode([j.record.value])
                  && Writable(j.record.value))
  {
    ReachableInv(s);
    assert JobOk(s, d);
  }

  // ---- The exceptions happen ------------------------------------------------------------

  /** A dispatch that can start now, and a token nobody was given. */
  predicate CanBegin(s: State, d: nat, jobTask: string, rec: Record) {
    d !in s.jobs && FreshSpool(s, jobTask) && rec.token !in s.issuedTo && Int64(rec.typ) && Int64(rec.epoch)
  }

  /** The same, with a record the epilog can read back. */
  predicate CanStart(s: State, d: nat, jobTask: string, rec: Record) {
    CanBegin(s, d, jobTask, rec) && Storable(rec)
  }

  /** Every event is one of the dispatch. */
  ghost predicate EventsOf(run: seq<Event>, d: nat) {
    forall i | 0 <= i < |run| :: run[i].d == d
  }

  lemma {:induction false} RunAppend(s: State, a: seq<Event>, b: seq<Event>)
    requires Run(s, a) != None
    ensures Run(s, a + b) == Run(Run(s, a).value, b)
    decreases |a|
  {
    if a == [] {
      assert a + b == b;
    } else {
      assert (a + b)[1..] == a[1..] + b;
      RunAppend(Step(s, a[0]).value, a[1..], b);
    }
  }

  /** Extends a run by one event. */
  lemma Extend(s: State, run: seq<Event>, now: State, ev: Event)
    requires Run(s, run) == Some(now) && Step(now, ev) != None
    ensures Run(s, run + [ev]) == Some(Step(now, ev).value)
  {
    RunAppend(s, run, [ev]);
    assert [ev][1..] == [];
    assert Run(now, [ev]) == Run(Step(now, ev).value, []);
  }

  /** s, with one more dispatch that holds rec's token and whose prolog is at p. */
  function Holding(s: State, d: nat, jobTask: string, rec: Record, p: Prolog, files: map<Place, string>, published: bool): State {
    var j := Job(jobTask, Some(rec), p, false, Waiting, false, false, published, 0, false, false, false);
    State(s.held + {rec.token}, files, s.jobs[d := j], s.live[jobTask := d], s.issuedTo[rec.token := d], s.keptBy)
  }

  lemma ReachAcquired(s: State, d: nat, jobTask: string, rec: Record) returns (run: seq<Event>)
    requires CanBegin(s, d, jobTask, rec)
    ensures EventsOf(run, d) && Run(s, run) == Some(Holding(s, d, jobTask, rec, Exporting(0), s.files, false))
  {
    var e1, e2 := Dispatch(d, jobTask), PrologDoes(d, Acquire(rec));
    Extend(s, [], s, e1);
    var s1 := Step(s, e1).value;
    Extend(s, [] + [e1], s1, e2);
    run := [] + [e1] + [e2];
    var goal := Holding(s, d, jobTask, rec, Exporting(0), s.files, false);
    assert Step(s1, e2).value.jobs == goal.jobs;
  }

  lemma PrologEvent(s: State, d: nat, x: PrologStep, next: Option<State>)
    requires d in s.jobs && StepProlog(s, d, x) == next
    ensures Step(s, PrologDoes(d, x)) == next
  {
  }

  lemma Relocated(s: State, d: nat, jobTask: string, rec: Record, p: Prolog, files: map<Place, string>, pub: bool,
                  p': Prolog, files': map<Place, string>, pub': bool)
    ensures var now := Holding(s, d, jobTask, rec, p, files, pub);
            now.With(d, now.jobs[d].(prolog := p', published := pub')).(files := files')
            == Holding(s, d, jobTask, rec, p', files', pub')
  {
    var now, goal := Holding(s, d, jobTask, rec, p, files, pub), Holding(s, d, jobTask, rec, p', files', pub');
    assert now.jobs[d := goal.jobs[d]] == goal.jobs;
  }

  /** One prolog call that leaves the dispatch's record, spool and history alone. */
  lemma Move(s: State, d: nat, jobTask: string, rec: Record, p: Prolog, files: map<Place, string>, pub: bool,
             x: PrologStep, p': Prolog, files': map<Place, string>, pub': bool)
    requires var now := Holding(s, d, jobTask, rec, p, files, pub);
             StepProlog(now, d, x)
             == Some(now.With(d, now.jobs[d].(prolog := p', published := pub')).(files := files'))
    ensures Step(Holding(s, d, jobTask, rec, p, files, pub), PrologDoes(d, x))
            == Some(Holding(s, d, jobTask, rec, p', files', pub'))
  {
    Relocated(s, d, jobTask, rec, p, files, pub, p', files', pub');
    PrologEvent(Holding(s, d, jobTask, rec, p, files, pub), d, x, Some(Holding(s, d, jobTask, rec, p', files', pub')));
  }

  /** The run that makes this call as well. */
  lemma Go(s: State, d: nat, jobTask: string, rec: Record, run: seq<Event>, p: Prolog, files: map<Place, string>, pub: bool,
           x: PrologStep, p': Prolog, files': map<Place, string>, pub': bool) returns (run': seq<Event>)
    requires EventsOf(run, d) && Run(s, run) == Some(Holding(s, d, jobTask, rec, p, files, pub))
    requires var now := Holding(s, d, jobTask, rec, p, files, pub);
             StepProlog(now, d, x)
             == Some(now.With(d, now.jobs[d].(prolog := p', published := pub')).(files := files'))
    ensures EventsOf(run', d) && Run(s, run') == Some(Holding(s, d, jobTask, rec, p', files', pub'))
  {
    Move(s, d, jobTask, rec, p, files, pub, x, p', files', pub');
    Extend(s, run, Holding(s, d, jobTask, rec, p, files, pub), PrologDoes(d, x));
    run' := run + [PrologDoes(d, x)];
  }

  lemma {:induction false} ReachResolving(s: State, d: nat, jobTask: string, rec: Record, k: nat) returns (run: seq<Event>)
    requires CanBegin(s, d, jobTask, rec) && k <= RUNTIME_VARIABLES
    ensures EventsOf(run, d)
    ensures Run(s, run)
            == Some(Holding(s, d, jobTask, rec, if k == RUNTIME_VARIABLES then Resolving else Exporting(k), s.files, false))
  {
    if k == 0 {
      run := ReachAcquired(s, d, jobTask, rec);
    } else {
      run := ReachResolving(s, d, jobTask, rec, k - 1);
      run := Go(s, d, jobTask, rec, run, Exporting(k - 1), s.files, false, Export(true),
                if k == RUNTIME_VARIABLES then Resolving else Exporting(k), s.files, false);
    }
  }

  lemma ReachCreated(s: State, d: nat, jobTask: string, rec: Record, n: nat) returns (run: seq<Event>)
    requires CanBegin(s, d, jobTask, rec)
    ensures EventsOf(run, d) && Run(s, run) == Some(Holding(s, d, jobTask, rec, Filling(TempName(n)),
                                                       s.files[InSpool(jobTask, TempName(n)) := ""], false))
  {
    run := ReachResolving(s, d, jobTask, rec, RUNTIME_VARIABLES);
    var temp := InSpool(jobTask, TempName(n));
    run := Go(s, d, jobTask, rec, run, Resolving, s.files, false, Resolve(true), Creating, s.files, false);
    run := Go(s, d, jobTask, rec, run, Creating, s.files, false, CreateTemp(Some(n)), Filling(temp.name), s.files[temp := ""], false);
  }

  /** Any first part of the record's line can be on disk when the prolog goes on writing, or gives up. */
  lemma ReachFilled(s: State, d: nat, jobTask: string, rec: Record, n: nat, part: string, ok: bool) returns (run: seq<Event>)
    requires CanBegin(s, d, jobTask, rec) && Writable(rec) && part <= Encode([rec])
    ensures EventsOf(run, d) && Run(s, run) == Some(Holding(s, d, jobTask, rec, if ok then Filling(TempName(n)) else Cleaning(TempName(n)),
                                                       s.files[InSpool(jobTask, TempName(n)) := part], false))
  {
    run := ReachCreated(s, d, jobTask, rec, n);
    var temp := InSpool(jobTask, TempName(n));
    assert Prefix(Encode([rec]), |s.files[temp := ""][temp]| + |part|) == part;
    assert s.files[temp := ""][temp := part] == s.files[temp := part];
    run := Go(s, d, jobTask, rec, run, Filling(temp.name), s.files[temp := ""], false, Fill(|part|, ok),
              if ok then Filling(temp.name) else Cleaning(temp.name), s.files[temp := part], false);
  }

  lemma ReachClosed(s: State, d: nat, jobTask: string, rec: Record, n: nat) returns (run: seq<Event>)
    requires CanBegin(s, d, jobTask, rec) && Writable(rec)
    ensures EventsOf(run, d) && Run(s, run) == Some(Holding(s, d, jobTask, rec, Renaming(TempName(n)),
                                                       s.files[InSpool(jobTask, TempName(n)) := Encode([rec])], false))
  {
    run := ReachFilled(s, d, jobTask, rec, n, Encode([rec]), true);
    var f := s.files[InSpool(jobTask, TempName(n)) := Encode([rec])];
    run := Go(s, d, jobTask, rec, run, Filling(TempName(n)), f, false, CloseTemp(true), Renaming(TempName(n)), f, false);
  }

  lemma ReachRenamed(s: State, d: nat, jobTask: string, rec: Record, n: nat) returns (run: seq<Event>)
    requires CanBegin(s, d, jobTask, rec) && Writable(rec)
    ensures EventsOf(run, d)
    ensures Run(s, run) == Some(Holding(s, d, jobTask, rec, Cleaning(TempName(n)), s.files[MetaPlace(jobTask) := Encode([rec])], true))
  {
    run := ReachClosed(s, d, jobTask, rec, n);
    var temp, text := InSpool(jobTask, TempName(n)), Encode([rec]);
    assert temp !in s.files;
    assert s.files[temp := text] - {temp} == s.files;
    run := Go(s, d, jobTask, rec, run, Renaming(temp.name), s.files[temp := text], false, Rename(true),
              Cleaning(temp.name), s.files[MetaPlace(jobTask) := text], true);
  }

  /** A prolog without failures comes to the status with its record published. */
  lemma ReachPublished(s: State, d: nat, jobTask: string, rec: Record, n: nat) returns (run: seq<Event>)
    requires CanBegin(s, d, jobTask, rec) && Writable(rec)
    ensures EventsOf(run, d) && Run(s, run) == Some(Holding(s, d, jobTask, rec, Marking,
                                                            s.files[MetaPlace(jobTask) := Encode([rec])], true))
  {
    run := ReachRenamed(s, d, jobTask, rec, n);
    var temp, f := InSpool(jobTask, TempName(n)), s.files[MetaPlace(jobTask) := Encode([rec])];
    TempNameApart(n);
    assert temp !in s.files;
    assert f - {temp} == f;
    run := Go(s, d, jobTask, rec, run, Cleaning(temp.name), f, true, Clean(true), Marking, f, true);
  }

  /** s, with one more dispatch d of jobTask in control state j. */
  function Placed(s: State, d: nat, jobTask: string, rec: Record, j: Job, files: map<Place, string>, held: set<string>): State {
    State(held, files, s.jobs[d := j], s.live[jobTask := d], s.issuedTo[rec.token := d], s.keptBy)
  }

  /** One call that changes the dispatch, the files or the held tokens only. */
  lemma Advance(s: State, d: nat, jobTask: string, rec: Record, run: seq<Event>,
                j: Job, files: map<Place, string>, held: set<string>, ev: Event,
                j': Job, files': map<Place, string>, held': set<string>) returns (run': seq<Event>)
    requires EventsOf(run, d) && ev.d == d && Run(s, run) == Some(Placed(s, d, jobTask, rec, j, files, held))
    requires var now := Placed(s, d, jobTask, rec, j, files, held);
             Step(now, ev) == Some(now.With(d, j').(files := files', held := held'))
    ensures run' == run + [ev] && EventsOf(run', d) && Run(s, run') == Some(Placed(s, d, jobTask, rec, j', files', held'))
  {
    var now := Placed(s, d, jobTask, rec, j, files, held);
    Extend(s, run, now, ev);
    run' := run + [ev];
    assert now.jobs[d := j'] == s.jobs[d := j'];
  }

  /** Only the dispatch's own metadata goes with its spool directory. */
  lemma SpoolEmptied(s: State, d: nat, jobTask: string, files: map<Place, string>, text: string)
    requires FreshSpool(s, jobTask) && (files == s.files || files == s.files[MetaPlace(jobTask) := text])
    ensures WithoutSpool(files, jobTask) == s.files && s.live[jobTask := d] - {jobTask} == s.live
  {
  }

  /** The scheduler deletes the spool directory of a dispatch that has ended. */
  lemma Delete(s: State, d: nat, jobTask: string, rec: Record, run: seq<Event>, j: Job, files: map<Place, string>, held: set<string>)
    returns (run': seq<Event>)
    requires FreshSpool(s, jobTask) && j.jobTask == jobTask && !j.spoolGone && j.EpilogEnded()
    requires Run(s, run) == Some(Placed(s, d, jobTask, rec, j, files, held))
    requires files == s.files || files == s.files[MetaPlace(jobTask) := Encode([rec])]
    ensures run' == run + [DeleteSpool(d)]
    ensures Run(s, run') == Some(State(held, s.files, s.jobs[d := j.(spoolGone := true)], s.live, s.issuedTo[rec.token := d], s.keptBy))
  {
    var now := Placed(s, d, jobTask, rec, j, files, held);
    SpoolEmptied(s, d, jobTask, files, Encode([rec]));
    assert now.jobs[d := j.(spoolGone := true)] == s.jobs[d := j.(spoolGone := true)];
    Extend(s, run, now, DeleteSpool(d));
    run' := run + [DeleteSpool(d)];
  }

  function PrologAt(jobTask: string, rec: Record, p: Prolog, published: bool): Job {
    Job(jobTask, Some(rec), p, false, Waiting, false, false, published, 0, false, false, false)
  }

  /** The epilog reads back what the prolog published. */
  lemma ReadStep(now: State, d: nat, jobTask: string, rec: Record)
    requires d in now.jobs && now.jobs[d] == PrologAt(jobTask, rec, Exited(0), true).(epilog := Reading)
    requires Read(Encode([rec])) == Ok(rec)
    requires MetaPlace(jobTask) in now.files && now.files[MetaPlace(jobTask)] == Encode([rec])
    ensures Step(now, EpilogDoes(d, ReadMeta(true)))
            == Some(now.With(d, PrologAt(jobTask, rec, Exited(0), true).(epilog := Releasing(rec))))
  {
  }

  /** A token that a reachable state holds for d, in one of the three exceptions, has no record. */
  lemma NotRecorded(s: State, d: nat, t: string)
    requires Reachable(s) && t in s.held && t in s.issuedTo && s.issuedTo[t] == d
    ensures d in s.jobs && s.jobs[d].record != None
    ensures Unpublished(s.jobs[d]) || RollbackFailed(s.jobs[d]) || Dropped(s.jobs[d]) ==> !Recorded(s, s.jobs[d])
  {
    TokenCoverage(s, t);
  }

  lemma ReachableFrom(s: State, run: seq<Event>)
    requires Reachable(s) && Run(s, run) != None
    ensures Reachable(Run(s, run).value)
  {
    var before: seq<Event> :| Run(INITIAL, before) == Some(s);
    RunAppend(INITIAL, before, run);
  }

  /** From any reachable state a run can lose track of a token in the first way: a kill before the rename. */
  lemma UnpublishedHappens(s: State, d: nat, jobTask: string, rec: Record) returns (run: seq<Event>)
    requires Reachable(s) && CanStart(s, d, jobTask, rec)
    ensures Run(s, run) != None
    ensures var s' := Run(s, run).value;
            d in s'.jobs && rec.token in s'.held && s'.jobs[d].record == Some(rec) && s'.jobs[d].prologKilled
            && Unpublished(s'.jobs[d]) && !Recorded(s', s'.jobs[d])
  {
    run := ReachAcquired(s, d, jobTask, rec);
    var j, held := PrologAt(jobTask, rec, Exporting(0), false), s.held + {rec.token};
    run := Advance(s, d, jobTask, rec, run, j, s.files, held, PrologDoes(d, KillProlog), j.(prologKilled := true), s.files, held);
    ReachableFrom(s, run);
    NotRecorded(Run(s, run).value, d, rec.token);
  }

  lemma ReachExportFailed(s: State, d: nat, jobTask: string, rec: Record) returns (run: seq<Event>)
    requires CanBegin(s, d, jobTask, rec)
    ensures EventsOf(run, d)
    ensures Run(s, run) == Some(Placed(s, d, jobTask, rec, PrologAt(jobTask, rec, RollingBack, false), s.files, s.held + {rec.token}))
  {
    run := ReachAcquired(s, d, jobTask, rec);
    var j, held := PrologAt(jobTask, rec, Exporting(0), false), s.held + {rec.token};
    run := Advance(s, d, jobTask, rec, run, j, s.files, held, PrologDoes(d, Export(false)), j.(prolog := RollingBack), s.files, held);
  }

  lemma ReachUnreleased(s: State, d: nat, jobTask: string, rec: Record) returns (run: seq<Event>)
    requires CanBegin(s, d, jobTask, rec)
    ensures Run(s, run) == Some(Placed(s, d, jobTask, rec, PrologAt(jobTask, rec, Exited(1), false).(rollbacks := 1),
                                       s.files, s.held + {rec.token}))
  {
    run := ReachExportFailed(s, d, jobTask, rec);
    var held, j := s.held + {rec.token}, PrologAt(jobTask, rec, RollingBack, false);
    run := Advance(s, d, jobTask, rec, run, j, s.files, held, PrologDoes(d, Rollback(false)),
                   j.(prolog := Exited(1), rollbacks := 1), s.files, held);
  }

  /** In the second way: a runtime variable cannot be set, and the rollback's release fails. */
  lemma RollbackFailedHappens(s: State, d: nat, jobTask: string, rec: Record) returns (run: seq<Event>)
    requires Reachable(s) && CanStart(s, d, jobTask, rec)
    ensures Run(s, run) != None
    ensures var s' := Run(s, run).value;
            d in s'.jobs && rec.token in s'.held && s'.jobs[d].record == Some(rec)
            && RollbackFailed(s'.jobs[d]) && !Recorded(s', s'.jobs[d])
  {
    run := ReachUnreleased(s, d, jobTask, rec);
    ReachableFrom(s, run);
    NotRecorded(Run(s, run).value, d, rec.token);
  }

  lemma ReachWaiting(s: State, d: nat, jobTask: string, rec: Record) returns (run: seq<Event>)
    requires CanBegin(s, d, jobTask, rec) && Writable(rec)
    ensures EventsOf(run, d)
    ensures Run(s, run) == Some(Placed(s, d, jobTask, rec, PrologAt(jobTask, rec, Exited(0), true),
                                       s.files[MetaPlace(jobTask) := Encode([rec])], s.held + {rec.token}))
  {
    run := ReachPublished(s, d, jobTask, rec, 0);
    var f, held := s.files[MetaPlace(jobTask) := Encode([rec])], s.held + {rec.token};
    var j := PrologAt(jobTask, rec, Marking, true);
    run := Advance(s, d, jobTask, rec, run, j, f, held, PrologDoes(d, Mark(true)), j.(prolog := Exited(0)), f, held);
  }

  lemma ReachReading(s: State, d: nat, jobTask: string, rec: Record) returns (run: seq<Event>)
    requires CanStart(s, d, jobTask, rec)
    ensures EventsOf(run, d)
    ensures Run(s, run) == Some(Placed(s, d, jobTask, rec, PrologAt(jobTask, rec, Exited(0), true).(epilog := Reading),
                                       s.files[MetaPlace(jobTask) := Encode([rec])], s.held + {rec.token}))
  {
    run := ReachWaiting(s, d, jobTask, rec);
    var f, held := s.files[MetaPlace(jobTask) := Encode([rec])], s.held + {rec.token};
    var j := PrologAt(jobTask, rec, Exited(0), true);
    run := Advance(s, d, jobTask, rec, run, j, f, held, StartEpilog(d), j.(epilog := Reading), f, held);
  }

  /** A job whose prolog succeeded and whose epilog has read the record back. */
  lemma ReachReleasing(s: State, d: nat, jobTask: string, rec: Record) returns (run: seq<Event>)
    requires CanStart(s, d, jobTask, rec)
    ensures EventsOf(run, d)
    ensures var j := PrologAt(jobTask, rec, Exited(0), true).(epilog := Releasing(rec));
            Run(s, run) == Some(Placed(s, d, jobTask, rec, j, s.files[MetaPlace(jobTask) := Encode([rec])], s.held + {rec.token}))
  {
    run := ReachReading(s, d, jobTask, rec);
    var f, held := s.files[MetaPlace(jobTask) := Encode([rec])], s.held + {rec.token};
    var j := PrologAt(jobTask, rec, Exited(0), true).(epilog := Reading);
    RoundTripExactly(rec);
    ReadStep(Placed(s, d, jobTask, rec, j, f, held), d, jobTask, rec);
    run := Advance(s, d, jobTask, rec, run, j, f, held, EpilogDoes(d, ReadMeta(true)), j.(epilog := Releasing(rec)), f, held);
  }

  /** The epilog's release fails, and the kept directory is there. */
  lemma ReachLinking(s: State, d: nat, jobTask: string, rec: Record) returns (run: seq<Event>)
    requires CanStart(s, d, jobTask, rec)
    ensures EventsOf(run, d)
    ensures var j := PrologAt(jobTask, rec, Exited(0), true).(epilog := Linking(0));
            Run(s, run) == Some(Placed(s, d, jobTask, rec, j, s.files[MetaPlace(jobTask) := Encode([rec])], s.held + {rec.token}))
  {
    run := ReachReleasing(s, d, jobTask, rec);
    var f, held := s.files[MetaPlace(jobTask) := Encode([rec])], s.held + {rec.token};
    var j := PrologAt(jobTask, rec, Exited(0), true).(epilog := Releasing(rec));
    var j1 := j.(epilog := MakingDir(0));
    run := Advance(s, d, jobTask, rec, run, j, f, held, EpilogDoes(d, Release(false)), j1, f, held);
    run := Advance(s, d, jobTask, rec, run, j1, f, held, EpilogDoes(d, MakeDir(true)), j1.(epilog := Linking(0)), f, held);
  }

  /** The link fails, as it always does beside an earlier kept record of the job and task. */
  lemma ReachGaveUp(s: State, d: nat, jobTask: string, rec: Record, linkOk: bool) returns (run: seq<Event>)
    requires CanStart(s, d, jobTask, rec) && (linkOk ==> Kept(jobTask) in s.files)
    ensures run != [] && run[|run| - 1] == EpilogDoes(d, Link(linkOk))
    ensures var j := PrologAt(jobTask, rec, Exited(0), true).(epilog := GaveUp(0));
            Run(s, run) == Some(Placed(s, d, jobTask, rec, j, s.files[MetaPlace(jobTask) := Encode([rec])], s.held + {rec.token}))
  {
    run := ReachLinking(s, d, jobTask, rec);
    var f, held := s.files[MetaPlace(jobTask) := Encode([rec])], s.held + {rec.token};
    var j := PrologAt(jobTask, rec, Exited(0), true).(epilog := Linking(0));
    run := Advance(s, d, jobTask, rec, run, j, f, held, EpilogDoes(d, Link(linkOk)), j.(epilog := GaveUp(0)), f, held);
  }

  lemma ReachDropped(s: State, d: nat, jobTask: string, rec: Record, linkOk: bool) returns (run: seq<Event>)
    requires CanStart(s, d, jobTask, rec) && (linkOk ==> Kept(jobTask) in s.files)
    ensures EpilogDoes(d, Link(linkOk)) in run
    ensures var j := PrologAt(jobTask, rec, Exited(0), true).(epilog := GaveUp(0), spoolGone := true);
            Run(s, run) == Some(State(s.held + {rec.token}, s.files, s.jobs[d := j], s.live, s.issuedTo[rec.token := d], s.keptBy))
  {
    run := ReachGaveUp(s, d, jobTask, rec, linkOk);
    var f, held := s.files[MetaPlace(jobTask) := Encode([rec])], s.held + {rec.token};
    var j := PrologAt(jobTask, rec, Exited(0), true).(epilog := GaveUp(0));
    run := Delete(s, d, jobTask, rec, run, j, f, held);
    assert run[|run| - 2] == EpilogDoes(d, Link(linkOk));
  }

  /** In the third way: the release fails, the record cannot be linked, and the spool is deleted.
      The link always fails when an earlier dispatch of the same job and task left a kept record. */
  lemma DroppedHappens(s: State, d: nat, jobTask: string, rec: Record, linkOk: bool) returns (run: seq<Event>)
    requires Reachable(s) && CanStart(s, d, jobTask, rec) && (linkOk ==> Kept(jobTask) in s.files)
    ensures Run(s, run) != None
    ensures var s' := Run(s, run).value;
            d in s'.jobs && rec.token in s'.held && s'.jobs[d].record == Some(rec)
            && Dropped(s'.jobs[d]) && !Recorded(s', s'.jobs[d]) && EpilogDoes(d, Link(linkOk)) in run
  {
    run := ReachDropped(s, d, jobTask, rec, linkOk);
    ReachableFrom(s, run);
    NotRecorded(Run(s, run).value, d, rec.token);
  }

  lemma ReachRemoving(s: State, d: nat, jobTask: string, rec: Record) returns (run: seq<Event>)
    requires CanStart(s, d, jobTask, rec) && rec.token !in s.held
    ensures EventsOf(run, d)
    ensures var j := PrologAt(jobTask, rec, Exited(0), true).(epilog := Removing, freed := true);
            Run(s, run) == Some(Placed(s, d, jobTask, rec, j, s.files[MetaPlace(jobTask) := Encode([rec])], s.held))
  {
    run := ReachReleasing(s, d, jobTask, rec);
    var f, held := s.files[MetaPlace(jobTask) := Encode([rec])], s.held + {rec.token};
    var j := PrologAt(jobTask, rec, Exited(0), true).(epilog := Releasing(rec));
    assert held - {rec.token} == s.held;
    run := Advance(s, d, jobTask, rec, run, j, f, held, EpilogDoes(d, Release(true)), j.(epilog := Removing, freed := true), f, s.held);
  }

  lemma ReachFinished(s: State, d: nat, jobTask: string, rec: Record) returns (run: seq<Event>)
    requires CanStart(s, d, jobTask, rec) && rec.token !in s.held
    ensures var j := PrologAt(jobTask, rec, Exited(0), true).(epilog := Finished(0), freed := true, metaGone := true);
            Run(s, run) == Some(Placed(s, d, jobTask, rec, j, s.files, s.held))
  {
    run := ReachRemoving(s, d, jobTask, rec);
    var f := s.files[MetaPlace(jobTask) := Encode([rec])];
    var j := PrologAt(jobTask, rec, Exited(0), true).(epilog := Removing, freed := true);
    assert f - {MetaPlace(jobTask)} == s.files;
    run := Advance(s, d, jobTask, rec, run, j, f, s.held, EpilogDoes(d, RemoveMeta(true)),
                   j.(epilog := Finished(0), metaGone := true), s.files, s.held);
  }

  /** A dispatch without failures leaves the backend, the files and the spools as they were. */
  lemma CleanCycle(s: State, d: nat, jobTask: string, rec: Record) returns (run: seq<Event>)
    requires Reachable(s) && CanStart(s, d, jobTask, rec)
    ensures Run(s, run) != None
    ensures var s' := Run(s, run).value;
            s'.held == s.held && s'.files == s.files && s'.live == s.live && s'.keptBy == s.keptBy
            && d in s'.jobs && s'.jobs == s.jobs[d := s'.jobs[d]] && s'.jobs[d].freed && s'.jobs[d].spoolGone
  {
    ReachableInv(s);
    assert rec.token in s.held ==> TokenOwned(s, rec.token);
    run := ReachFinished(s, d, jobTask, rec);
    var j := PrologAt(jobTask, rec, Exited(0), true).(epilog := Finished(0), freed := true, metaGone := true);
    run := Delete(s, d, jobTask, rec, run, j, s.files, s.held);
  }

  lemma ReachRollback(s: State, d: nat, jobTask: string, rec: Record) returns (run: seq<Event>)
    requires CanBegin(s, d, jobTask, rec) && Writable(rec)
    ensures EventsOf(run, d)
    ensures Run(s, run) == Some(Placed(s, d, jobTask, rec, PrologAt(jobTask, rec, RollingBack, true),
                                       s.files[MetaPlace(jobTask) := Encode([rec])], s.held + {rec.token}))
  {
    run := ReachPublished(s, d, jobTask, rec, 0);
    var f, held := s.files[MetaPlace(jobTask) := Encode([rec])], s.held + {rec.token};
    var j := PrologAt(jobTask, rec, Marking, true);
    run := Advance(s, d, jobTask, rec, run, j, f, held, PrologDoes(d, Mark(false)), j.(prolog := RollingBack), f, held);
  }

  /** A failed status write after the rename gives the token back but leaves the metadata behind. */
  lemma StaleMetadata(s: State, d: nat, jobTask: string, rec: Record) returns (run: seq<Event>)
    requires Reachable(s) && CanStart(s, d, jobTask, rec)
    ensures Run(s, run) != None
    ensures var s' := Run(s, run).value;
            d in s'.jobs && rec.token !in s'.held && s'.jobs[d].prolog == Exited(1) && s'.jobs[d].record == Some(rec)
            && Recorded(s', s'.jobs[d])
  {
    run := ReachRollback(s, d, jobTask, rec);
    var f, held := s.files[MetaPlace(jobTask) := Encode([rec])], s.held + {rec.token};
    var j1 := PrologAt(jobTask, rec, RollingBack, true);
    var j2 := j1.(prolog := Exited(1), rollbacks := 1, freed := true);
    run := Advance(s, d, jobTask, rec, run, j1, f, held, PrologDoes(d, Rollback(true)), j2, f, held - {rec.token});
  }
}

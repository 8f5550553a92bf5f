# Verified model of the QRMI scheduler hooks

The repository connects the Open Cluster Scheduler to quantum backends: a queue prolog acquires a
backend token for a job, a queue epilog releases it, a launcher starts both with a clean
environment, an adapter configures the scheduler, and a load sensor reports availability. The
prolog and the epilog exist in Go and in C and share a file format. This project models that logic
in Dafny and proves what it promises. `dafny verify dfyconfig.toml` checks everything.

## What is modelled

**Token lifecycle.** `Publish.WriteAtomic` writes the metadata record through a temporary file on a
disk whose calls may fail and whose every intermediate state is recorded. `Lifecycle` is a state
machine over one host: any number of dispatches, each with its prolog and epilog taken call by call,
every call may fail, every process may be killed between two calls, the scheduler deletes a spool
directory only after the epilog has ended. `Coverage` proves which tokens can be held without a
record on disk: exactly those of a dispatch that has not renamed its record into place, whose
rollback release failed, or whose record could not be linked and whose spool is gone. All three do
happen, from every reachable state. `PlacePaths` and `Spool` tie the machine's files to the paths
the Go and the C code compute. `PrologRun` and `Epilog` are the two programs as they run;
`JobVariables` says with which variables they leave a job and release its token, `WholeJob` joins
them: what the prolog acquired the epilog releases. `ExitCodes` says what each exit code means and
`TornSuccess` when the job environment file says "success". `Refinement` joins the two views: every
run of either program, whatever fails and wherever it is killed, is a run of the machine that shows
the same files on the host and holds the same tokens, so token coverage holds of the host's own
files. For the prolog this needs that the settings of the backend it serves leave the metadata file
where it is; `MovedRecord` says what happens otherwise.

**Formats printed in one place and parsed in another.** `Metadata` and `MetadataC` (the record,
`strings.Split` against `strtok_r` on a buffer), `FieldReader` and `FieldReaderC` with
`RequestAgreement`, `Continuation` and `JobRequests` (qstat and qconf output), `Grant` and `GrantC`
(the granted backend), `HookCommand` (the queue's command line, from the adapter through the
scheduler and the launcher to the hook), `LoadSensor` (report frames), `JobEnv` (the job environment
file). `CBuffer` models NUL-terminated strings in an array, `strtok_r` and trimming in place.
`Interfaces` states the names, limits and characters of these formats as other programs see them.

**Scheduler configuration.** `Qmaster` is the scheduler state and one setup step on it, done by
calls that may fail; `Setup` proves that interrupted runs converge, `SetupRun` is the procedure,
`SetupFrame` says what it leaves alone, `Installed` what it has put in place when it is complete,
`HostCoverage` that the spool roots it prints cover every host.

**Environments.** `Sanitize` (launcher and hook), `LaunchRules` (what both accept, told on the
strings), `ReleaseEnv` (the epilog rebuilds what the prolog exported).

A `string` is a sequence of characters. Limits that the source counts in bytes use the UTF-8 length
of the text. The C code works on bytes; every character it treats specially is ASCII, so it acts on
the characters of a text in the same way.

## Where the code and its documentation differ

- Comments say that a field continues on indented lines and after a trailing backslash
  (src/cmd/qrmi-ocs-prolog-go/main.go:261-263, src/cmd/qrmi-ocs-prolog/main.c:241-242). Both readers
  continue on indentation only: `Continuation.ReadExactlyIfIndented` for every line,
  `Continuation.BackslashLosesItem` a request that loses an item.
- The two prologs do not agree on every request whose blanks stand only beside commas, equals signs
  and line ends: a blank beside a second equals sign stays in the Go value.
  `RequestAgreement.SecondEquals` is the input, `RequestAgreement.RequestsAgree` the exact condition
  for one list, `RequestAgreement.JobRequestsAgree` for the whole request.
- The prolog and the epilog can differ although no configured key collides with the token, user id
  or job id names. `ReleaseEnv.ResourcesClash` is a setting that loses its value,
  `ReleaseEnv.JobIdReplaced` one that renames the job for the prolog only, and
  `ReleaseEnv.EpilogSeesPrologSettings` the exact condition, `ReleaseEnv.EpilogSeesAcquireSettings`
  the one for the moment of the acquisition.
- A backend setting can move the metadata file, so that the epilog does not find the record of a
  successful prolog: `MovedRecord.RecordLost` is such a setting, `MovedRecord.RecordFoundExactly`
  the exact condition. Such a setting can also take the record of another job away, whose token is
  then held without one: `MovedRecord.OtherRecordReplaced`, with `MovedRecord.OtherRecordStays` as
  the exact condition.
- The prolog's exit code 1 is documented for problems of the host and its configuration only
  (src/cmd/qrmi-ocs-prolog-go/main.go:49-53). A job whose slot request is no positive whole number
  gets it too, and so does every job whose backend gives out a token that no variable or line can
  hold: `ExitCodes.HostErrorMeans` is the exact condition, `ExitCodes.BadSlotsBlameHost` a job that
  asks for "0", `ExitCodes.BadTokenBlamesHost` a token with a tab.
- The job environment file can report success after a failed prolog, if the write of the status line
  stops just before its newline: `TornSuccess.StatusExactly` says for every run without disk faults
  from which failing writes it does, `TornSuccess.FailureReadsAsSuccess` is such a run.
- A spool root of `/` accepts no spool directory (`HostCoverage.SlashAcceptsNothing`).

## Model

| member | source | states |
|---|---|---|
| Coverage.TokenCoverage | src/cmd/qrmi-ocs-prolog-go/main.go:132-169 | in every reachable state of any interleaving of prologs and epilogs with kills and failures, a held token belongs to one dispatch, and its record is at the metadata or kept path exactly when none of the three exceptions applies |
| Coverage.OnlyOwnTokens | src/cmd/qrmi-ocs-epilog-go/main.go:97-123 | a token leaves the backend only by the rollback or the release of the dispatch it was given to |
| Coverage.KeptForever | src/internal/qrmiocs/paths.go:56-67 | whatever prologs and epilogs follow, a kept record is never changed or removed |
| Coverage.PrologOutcome | src/cmd/qrmi-ocs-prolog-go/main.go:73-170 | over all runs: 99 and 100 only without a token, failure with one exits 1 after one release attempt, 0 with one means the complete record waits for the epilog |
| Coverage.UnpublishedHappens | src/cmd/qrmi-ocs-prolog-go/main.go:132-160 | from every reachable state a kill before the rename can leave a held token without a record |
| Coverage.RollbackFailedHappens | src/cmd/qrmi-ocs-prolog-go/main.go:148-151 | an ignored error of the rollback's release can do so |
| Coverage.DroppedHappens | src/internal/qrmiocs/paths.go:56-67 | so can a failed link followed by the deletion of the spool, and the link always fails after an earlier kept record of the same job and task |
| Coverage.StaleMetadata | src/cmd/qrmi-ocs-prolog-go/main.go:163-166 | a failed status write after the rename gives the token back and leaves the record at the metadata path |
| Coverage.CleanCycle | src/cmd/qrmi-ocs-epilog-go/main.go:97-130 | a dispatch without failures leaves backend, files and spools as it found them |
| Coverage.StepInv | src/internal/qrmiocs/metadata.go:33-64 | every single call of every prolog and epilog, every kill and every deletion keeps the invariant that ties tokens, files and control states |
| Lifecycle.PrologOwn | src/cmd/qrmi-ocs-prolog-go/main.go:132-169 | each prolog call touches only its own spool directory and token and keeps its own dispatch consistent |
| Lifecycle.EpilogOwn | src/cmd/qrmi-ocs-epilog-go/main.go:97-123 | the same for each epilog call |
| Publish.WriteAtomic | src/internal/qrmiocs/metadata.go:33-64 | for any chunking of the writes and any failing call, the disk is only ever as before, with a first part of the text in a new temporary file, or with the complete text at the path, so that a reader of the path sees the old file or the whole record and every other file is untouched; on failure only the temporary file can remain; without faults it succeeds exactly for records it may write |
| PlacePaths.PlacesAreApart | src/internal/qrmiocs/paths.go:39-67 | different files of the lifecycle machine are different paths on the host |
| PlacePaths.PlacesAreResolved | src/internal/qrmiocs/paths.go:39-67 | they are the paths the hooks compute from the spool directory |
| Refinement.PrologOnHost | src/cmd/qrmi-ocs-prolog-go/main.go:54-170 | every run of the prolog program, unless the settings of the backend it serves move the metadata file, is a run of the machine: same files, tokens and exit code at the end, and every state of the disk in between is one the machine can be in with the token held |
| Refinement.EpilogOnHost | src/cmd/qrmi-ocs-epilog-go/main.go:87-130 | the same for every run of the epilog program |
| Refinement.CoverageOnHost | src/internal/qrmiocs/paths.go:39-67 | so, after any such run or kill, each held token's record is at its metadata or kept path on the host exactly when none of the three exceptions applies |
| PrologRun.RunWithConfig | src/cmd/qrmi-ocs-prolog-go/main.go:73-170 | at most one token, released exactly on failure; the run succeeds only if every check passes, fails with the code of the first failing check or, for a failed write, with 1, and does exactly what the checks say unless a call on the disk fails or the environment file stops it at a line of its plan; on success exactly the listed variables are exported and the complete record is published; what the disk looked like in between |
| PrologRun.RunProlog | src/cmd/qrmi-ocs-prolog-go/main.go:54-71 | the same for the program with its arguments, and the file's last status is "success" exactly for code 0 with a token or a write torn before that line's newline |
| ExitCodes.ExitCodeMeans | src/cmd/qrmi-ocs-prolog-go/main.go:49-53 | each exit code of the checks, exactly, on all inputs: 100 iff the request cannot be served here, 99 iff the scheduler does not answer or the backend cannot be acquired, 1 iff the host is at fault, the slot request is no slot count or the backend's token cannot be stored |
| ExitCodes.HostErrorMeans | src/cmd/qrmi-ocs-prolog-go/main.go:49-53 | code 1 is kept for faults of the host, as documented, exactly when neither the job asks for a bad slot count nor the backend gives out a token with a tab, newline or NUL |
| ExitCodes.BadSlotsBlameHost | src/cmd/qrmi-ocs-prolog-go/main.go:411-440 | a job that asks for "0" slots gets code 1 although nothing is wrong with the host |
| ExitCodes.BadTokenBlamesHost | src/internal/qrmiocs/metadata.go:43-47 | so does a job whose backend gives out a token with a tab |
| ExitCodes.OtherwiseServed | src/cmd/qrmi-ocs-prolog-go/main.go:73-170 | the same job passes every check as soon as "0" counts as slots, with an ordinary token |
| PrologRun.SuccessReported | src/cmd/qrmi-ocs-prolog-go/main.go:163-169 | after a successful run a reader of the job environment file finds status "success" |
| PrologRun.FailureReported | src/internal/qrmiocs/env.go:114-129 | in terms of the file's text: after any other run it finds "success" exactly when the last write stopped between that word and its newline |
| TornSuccess.StatusExactly | src/internal/qrmiocs/env.go:56-70 | for every run without disk faults whose inputs hold no line breaks, told from the inputs and the failing writes: the file says "success" exactly if every check passes, no earlier write fails and that of the status line arrives but for its newline; the run succeeds exactly if no write fails |
| TornSuccess.FailureReadsAsSuccess | src/cmd/qrmi-ocs-prolog-go/main.go:163-169 | one such run, from its inputs to the file |
| Prolog.SetAll | src/cmd/qrmi-ocs-prolog-go/main.go:446-462 | a list of variables is set in order until one fails; on success environment and file both gained exactly the list |
| JobVariables.PrologVariables | src/cmd/qrmi-ocs-prolog-go/main.go:360-462 | the variables a successful prolog leaves, by their names: owner, job name, token, backend, type, count and status |
| JobVariables.PrologSlots | src/cmd/qrmi-ocs-prolog-go/main.go:374-426 | and the slots, as read from the list the job asks for them in |
| JobVariables.PrologSettings | src/cmd/qrmi-ocs-prolog-go/main.go:347-358 | every setting of the backend is a variable under the backend's name, the last one of a key winning |
| JobVariables.PrologKeeps | src/cmd/qrmi-ocs-prolog-go/main.go:347-462 | no other variable changes |
| JobVariables.EpilogVariables | src/cmd/qrmi-ocs-epilog-go/main.go:153-193 | the epilog releases with owner, job name and token under the same names, unless a setting takes their place |
| JobVariables.EpilogSettings | src/cmd/qrmi-ocs-epilog-go/main.go:153-193 | and with every setting |
| JobVariables.TaskNames | src/cmd/qrmi-ocs-prolog-go/main.go:387-394 | in a job's own spool directory, prolog and epilog call an array task what the directory is called, and any other job by its id |
| Epilog.Run | src/cmd/qrmi-ocs-epilog-go/main.go:87-130 | code 1 exactly without a spool directory or with an unreadable file; the recorded token is released exactly when its settings can be rebuilt, the backend opens and its release works; without a successful release the record stays on disk at every moment; without faults exactly where the file ends |
| WholeJob.RunJob | src/cmd/qrmi-ocs-epilog-go/main.go:87-193 | after a prolog that succeeded with a token, the epilog of the job on the same host releases exactly this token and leaves no file behind, for every owner, whenever the backend opens, its release works, the settings leave the metadata file in place and the record can be read back |
| WholeJob.RebuildableIs | src/cmd/qrmi-ocs-epilog-go/main.go:142-193 | told on the strings: the settings of a record can be rebuilt exactly when configuration, backend and owner are known, the names hold no equals sign and nothing holds a NUL |
| Epilog.PreserveFailedRelease | src/internal/qrmiocs/paths.go:56-67 | at every moment the record's bytes are at its path, at the kept path or at both, nothing else changes and no kept record is replaced; without faults it moves exactly when the directory is there and the name is free |
| Epilog.KeptStays | src/internal/qrmiocs/paths.go:52-55 | over any number of epilogs on one disk, a kept record never changes |
| Metadata.RoundTripExactly | src/internal/qrmiocs/metadata.go:33-137 | reading what was written gives the record back exactly for names and tokens that are non-empty and free of tabs and newlines, a type of at least 0, any 64-bit epoch and a line within the limit |
| Metadata.RoundTrip | src/internal/qrmiocs/metadata.go:33-113 | zero records give the no-record error, two or more the multiple-records error |
| Metadata.ReadFile | src/internal/qrmiocs/metadata.go:80-113 | the same with blank lines and carriage returns anywhere |
| Metadata.EncodeInjective | src/internal/qrmiocs/metadata.go:43-52 | different records have different files, up to name and token also for records that cannot be read back |
| Metadata.Separators | src/internal/qrmiocs/metadata.go:44-47 | the writer's check is exactly that the line has three tabs and no newline |
| Interfaces.LineRead | src/internal/qrmiocs/metadata.go:49-137 | a line of name, type, token and time, separated by tabs, is read as that record by the Go epilog exactly below 1 MiB, and then by the C epilog exactly for a type below 2^31 |
| Interfaces.TimelessRead | src/internal/qrmiocs/metadata.go:116-137 | a line without a time is read as a record with time 0 |
| Interfaces.NumeralsRead | src/internal/qrmiocs/metadata.go:116-137 | printed integers are read back exactly within 64 bits |
| Interfaces.Numerals | src/internal/qrmiocs/metadata.go:49-49 | numbers are printed in decimal, without leading zeros |
| Metadata.ReadStrictSingle | src/internal/qrmiocs/metadata.go:80-113 | the scan loop computes the reader's function |
| MetadataC.LineAgreement | src/cmd/qrmi-ocs-epilog/main.c:208-262 | for a line without empty fields the C and the Go parser agree exactly unless a numeral is led by a blank or the type exceeds an int |
| MetadataC.ReadersAgree | src/cmd/qrmi-ocs-epilog/main.c:525-558 | on every file of such lines the two readers give the same record or the same refusal |
| MetadataC.CReadsGoRecord | src/internal/qrmiocs/metadata.go:21-22 | the C reader gives back what the Go writer wrote exactly for types an int can hold and text without CR and NUL |
| MetadataC.ParseRecordLine | src/cmd/qrmi-ocs-epilog/main.c:208-262 | the in-place tokeniser computes the C parser's function of the line |
| MetadataC.ReadRecords | src/cmd/qrmi-ocs-epilog/main.c:525-558 | the getline loop computes the C reader's function |
| Decimal.ItoaRoundTrip | src/internal/qrmiocs/metadata.go:49-49 | a printed 64-bit integer is parsed back by strconv and by strtol |
| CBuffer.TokensAreSplit | src/cmd/qrmi-ocs-epilog/main.c:223-231 | the tokens strtok_r yields are the non-empty parts of strings.Split |
| CBuffer.NextToken | src/cmd/qrmi-ocs-prolog/main.c:429-448 | one strtok_r call on the buffer: the token it terminates, the rest of the scan, and nothing written before its start |
| CBuffer.Trim | src/cmd/qrmi-ocs-prolog/main.c:386-427 | trimming in place gives the trimmed text and writes nothing outside the string |
| Spool.SpoolDeterminesJob | src/internal/qrmiocs/sanitize.go:131-159 | an accepted spool directory determines the job id and the normalised task id |
| Spool.NoCollisions | src/internal/qrmiocs/paths.go:39-67 | different accepted spool directories have different metadata and kept paths, and no metadata path is a kept path |
| Spool.PathsOf | src/cmd/qrmi-ocs-epilog/main.c:135-153 | the C path arithmetic gives the same paths, within its length limit |
| Spool.AcceptedShape | src/internal/qrmiocs/sanitize.go:131-142 | every accepted directory is a host directory, active_jobs and the job's name |
| Interfaces.PathTexts | src/internal/qrmiocs/paths.go:39-67 | the texts of the metadata path and the kept path of a job, and the length from which C refuses them |
| Paths.CleanAbs | src/internal/qrmiocs/sanitize.go:115-119 | cleaning an absolute path is idempotent and yields a rooted list of proper names |
| Paths.CleanRemoves | src/internal/qrmiocs/sanitize.go:115-119 | between proper names, cleaning removes empty names, dots, and a name with the two dots behind it |
| FieldReader.LayoutIndependence | src/cmd/qrmi-ocs-prolog-go/main.go:252-296 | however a request is wrapped at commas over indented lines, with blanks around keys, values, commas and lines and backslashes at line ends, and whatever other lines surround its block, the reader finds the first value of the name |
| JobRequests.HardIsRead | src/cmd/qrmi-ocs-prolog-go/main.go:246-259 | a resource printed in any layout after "hard_resource_list:" is what the Go and the C prolog find |
| JobRequests.MasterIsRead | src/cmd/qrmi-ocs-prolog-go/main.go:246-259 | one printed after "master_hard_resource_list:" is found exactly if the hard list does not have it |
| JobRequests.NothingElseIsRead | src/cmd/qrmi-ocs-prolog-go/main.go:246-259 | a text no line of which starts with either requests nothing, whatever else it lists |
| JobRequests.SoftIsNotRead | src/cmd/qrmi-ocs-prolog-go/main.go:246-259 | such as one with soft requests only |
| Interfaces.ScanStops | src/cmd/qrmi-ocs-prolog-go/main.go:266-268 | the scan stops at the first line of 64 KiB, and at no shorter one |
| Continuation.ReadExactlyIfIndented | src/cmd/qrmi-ocs-prolog-go/main.go:265-286 | in both readers, the line after the lines of a field is read exactly if it is indented, whatever the line before it ends with, and otherwise nothing that follows is read |
| Continuation.BackslashContinuesNothing | src/cmd/qrmi-ocs-prolog/main.c:241-290 | a backslash at the end of a field's line adds nothing: the next line is lost to both readers unless it is indented |
| Continuation.BackslashLosesItem | src/cmd/qrmi-ocs-prolog-go/main.go:260-264 | such a request, whose second item neither reader sees |
| FieldReader.ReadField | src/cmd/qrmi-ocs-prolog-go/main.go:265-286 | the scanner loop with its collecting flag computes the field's value |
| FieldReaderC.ReadFieldC | src/cmd/qrmi-ocs-prolog/main.c:246-291 | the copying loop computes the C value of the field |
| FieldReaderC.ReadListC | src/cmd/qrmi-ocs-prolog/main.c:429-448 | the destructive loop over the list finds the first item with the key and a value |
| RequestAgreement.ValuesAgree | src/cmd/qrmi-ocs-prolog/main.c:246-291 | the C value is the Go value with every blank removed |
| RequestAgreement.RequestsAgree | src/cmd/qrmi-ocs-prolog/main.c:415-448 | for a field of any plain text, C and Go find the same value for every resource name exactly when no key and no first value of a key has a blank inside |
| RequestAgreement.LayoutIndependenceC | src/cmd/qrmi-ocs-prolog/main.c:246-291 | the C prolog finds the first value of every name in any such layout exactly when no printed key, and no value first given to a key, has a blank inside |
| RequestAgreement.JobRequestsAgree | src/cmd/qrmi-ocs-prolog/main.c:456-480 | both prologs find the same value for every resource, in the hard list or else the master task's, exactly when no blank is inside a key or the first value of a key in the two lists together |
| RequestAgreement.BlankInValue | src/cmd/qrmi-ocs-prolog-go/main.go:288-296 | any blank inside a value separates the two readers, even on one plain line |
| RequestAgreement.SecondEquals | src/cmd/qrmi-ocs-prolog-go/main.go:288-296 | such as a blank beside a second equals sign |
| Grant.GrantGrammar | src/internal/qrmiocs/grant.go:29-53 | exactly the decorated grants of a name, bare or behind a key, are parsed to it; so results are non-empty, without parentheses, commas and blanks, and with bare ends |
| Grant.NameRecovered | src/internal/qrmiocs/grant.go:19-28 | a name is found under every decoration of brackets and blanks and every key |
| Interfaces.GrantCharacters | src/internal/qrmiocs/grant.go:19-53 | which characters decorate a grant, and which make it an error |
| GrantC.GrantsAgree | src/cmd/qrmi-ocs-prolog/main.c:617-658 | on tidy values C accepts and rejects as Go does, with the same name |
| GrantC.TrimsAgree | src/cmd/qrmi-ocs-prolog/main.c:386-413 | the two trims agree exactly when the left edge has only openers and the right edge only closers |
| GrantC.AcceptedAgree | src/cmd/qrmi-ocs-prolog/main.c:617-658 | for every value Go accepts, the exact decorations for which C returns the same name |
| GrantC.ReadGrantC | src/cmd/qrmi-ocs-prolog/main.c:617-658 | the in-place parser computes the C function |
| HookCommand.PrologRoundTrip | src/cmd/gridware-adapter/main.go:633-713 | a built command, split by the scheduler and read by launcher and prolog, gives back user, launcher, cleaned root, cell, spool roots in order, ports, hook path and every setting, and the owner exactly unless it looks like a flag |
| HookCommand.EpilogRoundTrip | src/cmd/qrmi-ocs-epilog-go/main.go:59-73 | the same for the epilog's options |
| HookCommand.RunRecovers | src/cmd/gridware-adapter/main.go:744-770 | the scheduler runs exactly the words the adapter joined, with the owner in place of the variable |
| HookCommand.OptionsRecover | src/cmd/qrmi-ocs-launch/main.go:52-86 | the launcher reads back the printed settings and stops at the hook |
| HookCommand.PrologParses | src/cmd/qrmi-ocs-prolog-go/main.go:188-211 | the prolog's flags are read back, and the owner exactly unless it looks like a flag; without a needed option they are refused |
| HookCommand.QueueHookCommand | src/cmd/gridware-adapter/main.go:749-770 | the growing command is the words joined by blanks, or the error of the first check that fails |
| Interfaces.CommandAccepted | src/cmd/gridware-adapter/main.go:749-770 | told on the strings: which hooks, launchers, users and arguments the adapter accepts |
| Interfaces.CommandText | src/cmd/gridware-adapter/main.go:749-770 | the words of the accepted command |
| Interfaces.OptionsPrinted | src/cmd/gridware-adapter/main.go:633-713 | the texts of the options for launcher, prolog and epilog |
| Interfaces.OptionsRead | src/cmd/qrmi-ocs-prolog-go/main.go:188-211 | the printed options and an owner are read back exactly for a configuration, a resource, an absolute qstat path and an owner that is no flag |
| Interfaces.LauncherRefuses | src/cmd/qrmi-ocs-launch/main.go:52-86 | the launcher refuses every option but its five, and a command without a hook |
| Interfaces.Defaults | src/cmd/qrmi-ocs-prolog-go/main.go:188-211 | the defaults of a hook without options, and that a prolog needs the path of qstat |
| Interfaces.ArgumentsRefused | src/cmd/qrmi-ocs-prolog-go/main.go:188-211 | unknown flags and a second argument behind the flags are refused |
| HookCommand.Prepare | src/cmd/qrmi-ocs-launch/main.go:52-86 | the option loop, the environment and the hook's argv, with the error of the first failing part |
| Sanitize.FunctionOfFour | src/internal/qrmiocs/sanitize.go:60-109 | environments without loader variables that agree on the last JOB_ID, SGE_TASK_ID, SGE_JOB_SPOOL_DIR and TZ get the same answer |
| Sanitize.LaunchIdempotent | src/internal/qrmiocs/sanitize.go:60-109 | launching from a built environment builds it again |
| Sanitize.HookKeepsLaunchEnv | src/internal/qrmiocs/sanitize.go:170-216 | a hook accepts the built environment exactly when root, cell and spool directory also match its stricter patterns, and keeps the same variables |
| Sanitize.LaunchEnv | src/internal/qrmiocs/sanitize.go:60-109 | the map and list loops compute the answer; the root loop succeeds exactly when some root accepts |
| Sanitize.FindRoot | src/internal/qrmiocs/sanitize.go:86-94 | the loop over the roots accepts exactly when one of them does |
| Sanitize.CleanEnv | src/internal/qrmiocs/sanitize.go:170-193 | an error exactly for a trusted variable with a bad value, else the trusted variables once each in some order |
| LaunchRules.LoaderRefused | src/internal/qrmiocs/sanitize.go:209-217 | a job is refused for a loader variable exactly if a string of its environment begins with "LD_", or sets or names GLIBC_TUNABLES |
| LaunchRules.LaunchAnswers | src/internal/qrmiocs/sanitize.go:20-126 | told on the strings: the first check of the launcher that fails, with its exit code, or exactly the variables it starts the hook with |
| LaunchRules.SpoolAccepted | src/internal/qrmiocs/sanitize.go:128-159 | a spool directory is accepted exactly if it is written in clean form below the root, ends in "/active_jobs/<job>.<task>", has no two dots in a row and is an existing directory that no link leads away |
| LaunchRules.HookAnswers | src/internal/qrmiocs/sanitize.go:162-193 | a hook refuses its environment exactly if one of the eight variables holds what it may not, and otherwise goes on with what these are last set to |
| LaunchRules.LastIs | src/internal/qrmiocs/sanitize.go:67-73 | the value of a variable is that of its last binding |
| EnvList.GetIsLast | src/internal/qrmiocs/sanitize.go:67-73 | the map the loop fills gives the last binding of each key |
| Setup.SetupConverges | src/cmd/gridware-adapter/main.go:273-365 | with distinct complex names, stopping after any steps and running again gives the result of one uninterrupted run, also when that run fails |
| Setup.SetupRepairs | src/cmd/gridware-adapter/main.go:718-728 | a run that silently skipped the unreadable global directory is repaired by the next one |
| Setup.ManyRunsConverge | src/cmd/gridware-adapter/main.go:273-365 | any number of interrupted runs followed by a complete one gives the result of a single run |
| Setup.RerunConverges | src/cmd/gridware-adapter/main.go:416-484 | the same for every list of steps in which later ones leave the effect of earlier ones alone |
| Setup.DoneIsAbsorbed | src/cmd/gridware-adapter/main.go:337-365 | every step done twice is the step done once |
| Setup.StaysAbsorbed | src/cmd/gridware-adapter/main.go:416-484 | a compatible step does not undo another one |
| Setup.InstallTwice | src/cmd/gridware-adapter/main.go:474-484 | installing a load sensor twice is installing it once |
| SetupRun.SetupQrmiSupport | src/cmd/gridware-adapter/main.go:273-335 | whatever calls fail, a first part of the plan has been done and nothing else; without faults the run does what the plan says |
| SetupRun.FurtherRun | src/cmd/gridware-adapter/main.go:273-335 | after a complete run a further one changes nothing, and resource, sensor and reporting steps write nothing |
| SetupFrame.SetupKeeps | src/cmd/gridware-adapter/main.go:416-484 | a run, complete or not, leaves every other complex, host value, host setting, load sensor, queue, reporting token and host listing as it was |
| SetupFrame.NothingLeftToDo | src/cmd/gridware-adapter/main.go:337-365 | the resource steps are done after a complete run exactly when the three complex names differ |
| Installed.SetupInstalls | src/cmd/gridware-adapter/main.go:273-404 | after a complete run, on the scheduler's state: the complexes with their properties, each host's backend and slots, the sensor and its start value, the reporting pattern |
| Installed.SetupStartsHooks | src/cmd/gridware-adapter/main.go:633-713 | and the queue runs, as the configured user, the prolog before and the epilog after a job, through a launcher that finds cleaned root, cell, spool roots and ports, each with its own options |
| Installed.OthersStay | src/cmd/gridware-adapter/main.go:474-484 | exactly the sensors with another file name that are no placeholder stay, in their order |
| Interfaces.LettersFold | src/cmd/gridware-adapter/main.go:406-414 | complexes are compared without regard to the case of ASCII letters only |
| Qmaster.Client.EnsureComplexEntry | src/cmd/gridware-adapter/main.go:337-365 | one step on the scheduler with faults: its effect or none, and a write exactly when the state changes |
| Qmaster.Client.SetExecHostResource | src/cmd/gridware-adapter/main.go:416-433 | the same for a host's complex value |
| Qmaster.Client.ClearExecHostResource | src/cmd/gridware-adapter/main.go:435-449 | the same for clearing one |
| Qmaster.Client.ConfigureHostLoadSensor | src/cmd/gridware-adapter/main.go:451-472 | the same for the host's load sensors |
| Qmaster.Client.ConfigureQueueHookPaths | src/cmd/gridware-adapter/main.go:633-677 | the same for the queue's two commands, with the roots that could be read |
| Qmaster.Client.ListSpoolRoots | src/cmd/gridware-adapter/main.go:718-742 | the closure-grown list of roots |
| Qmaster.Client.EnsureGlobalReportingPattern | src/cmd/gridware-adapter/main.go:782-800 | the same for the reporting token |
| HostCoverage.RootsAreConfigured | src/cmd/gridware-adapter/main.go:718-742 | the roots are exactly the cleaned absolute directories among the scheduler's own, if it was read, and those of the listed hosts, each once |
| HostCoverage.EveryHostCovered | src/internal/qrmiocs/sanitize.go:81-94 | a link-free job directory below any host's absolute directory other than the root passes the launcher's root loop |
| HostCoverage.LaunchAccepts | src/internal/qrmiocs/sanitize.go:60-109 | with a valid cell and ports such a job gets its hook environment |
| HostCoverage.RootAccepts | src/internal/qrmiocs/sanitize.go:131-159 | a root other than "/" accepts such a directory exactly when it has no two dots in a row |
| HostCoverage.SlashAcceptsNothing | src/internal/qrmiocs/sanitize.go:132-133 | the root "/" accepts no directory |
| HostCoverage.SettingsValid | src/internal/qrmiocs/sanitize.go:111-126 | the printed settings are valid exactly when the cell and the ports are |
| JobEnv.Mirrored | src/internal/qrmiocs/env.go:52-70 | whatever writes fail, a reader of the file finds for every variable whose last Set succeeded the value of the process environment |
| JobEnv.NewlineIsLost | src/internal/qrmiocs/env.go:63-63 | a variable whose value has a newline is never mirrored |
| JobEnv.ReplayFile | src/internal/qrmiocs/env.go:52-70 | what a reader finds in the file: the earlier content, the pairs written since, a torn line |
| JobEnv.Environment.Set | src/internal/qrmiocs/env.go:56-70 | the new environment and file in every case: refused variable, failed write, writer already broken, success |
| JobEnv.Environment.SetPluginError | src/internal/qrmiocs/env.go:114-129 | message and error status are both set, whether or not the first write succeeds |
| ReleaseEnv.EpilogSeesPrologSettings | src/cmd/qrmi-ocs-epilog-go/main.go:153-193 | for any settings, the environments of a successful prolog and of a later epilog agree on user, job, token and every backend setting exactly when no setting shares its name with a variable the prolog later sets to another value, and both compute the same job id or a setting takes its place |
| ReleaseEnv.ReleaseEnvAgrees | src/cmd/qrmi-ocs-prolog-go/main.go:347-385 | the same for the two write orders |
| ReleaseEnv.JobIdReplaced | src/cmd/qrmi-ocs-prolog-go/main.go:387-394 | backend "JOB" with the setting "ID" clashes with nothing and still gives prolog and epilog different job ids |
| ReleaseEnv.SpoolMoves | src/cmd/qrmi-ocs-prolog-go/main.go:347-358 | the prolog publishes in another directory than the scheduler's exactly as a setting of that name says |
| ReleaseEnv.ResourcesClash | src/cmd/qrmi-ocs-prolog-go/main.go:446-462 | a configuration that clashes with none of the three fixed variables and still differs |
| ReleaseEnv.EpilogSeesAcquireSettings | src/cmd/qrmi-ocs-prolog-go/main.go:113-132 | the environment at the moment the token is acquired and the epilog's agree on user, job and every backend setting, exactly when no setting clashes with a variable of the job, and both compute the same job id or a setting takes its place |
| ReleaseEnv.ResourcesClashLater | src/cmd/qrmi-ocs-prolog-go/main.go:360-385 | the setting that loses its value does so only after the acquisition |
| MovedRecord.RecordFoundExactly | src/internal/qrmiocs/paths.go:39-47 | the epilog finds the record of a successful prolog exactly if the backend's settings leave the metadata file in place and the record can be read back; if they move it, the epilog finds what was there before |
| MovedRecord.RecordLost | src/cmd/qrmi-ocs-prolog-go/main.go:347-358 | backend "SGE" with the setting "JOB_SPOOL_DIR": the epilog finds no record after a successful prolog |
| MovedRecord.OtherRecordStays | src/internal/qrmiocs/metadata.go:61-63 | a publication leaves another token's record on disk exactly if that record has a file that is not the one written |
| MovedRecord.OtherRecordReplaced | src/cmd/qrmi-ocs-prolog-go/main.go:153-160 | settings that name another job's spool directory take its record away: its token is held, none of the three exceptions applies, and no record is on disk |
| ReleaseEnv.SetReleaseEnv | src/cmd/qrmi-ocs-epilog-go/main.go:153-193 | it succeeds exactly when configuration, backend and owner are known and every variable can be set, and then the process environment gained exactly the rebuilt pairs, in order |
| LoadSensor.FramesRecovered | src/cmd/qrmi-ocs-load-sensor/main.go:101-156 | the output reads as one frame per cycle with that cycle's readiness and slot count |
| LoadSensor.ReportsUnique | src/cmd/qrmi-ocs-load-sensor/main.go:134-156 | equal outputs come from equal numbers of cycles, readiness and reported counts |
| LoadSensor.ReportText | src/cmd/qrmi-ocs-load-sensor/main.go:134-156 | the text of a report, cycle by cycle |
| LoadSensor.AskedAt | src/cmd/qrmi-ocs-load-sensor/main.go:101-132 | the provider is asked once per cycle, in order |
| LoadSensor.CyclesAre | src/cmd/qrmi-ocs-load-sensor/main.go:101-132 | every line before the first that says "quit" is a cycle |
| LoadSensor.StaticAnswers | src/internal/availability/static.go:15-32 | a static provider answers with its configured state, or with the state file's "1" or "0" and nothing else |
| LoadSensor.WardenAnswers | src/internal/availability/warden.go:36-60 | what is reported for every reply of the warden |
| LoadSensor.NotReadyNoSlots | src/cmd/qrmi-ocs-load-sensor/main.go:117-127 | provider errors are reported as 0 and 0, and a provider that is not ready offers no slots; the static, warden and failed providers are such |
| LoadSensor.WardenStatus | src/internal/availability/warden.go:36-60 | whatever the warden replies: slots are offered only while ready and never a negative number, and it is ready exactly for a body that says so without a negative count |
| LoadSensor.RunProtocol | src/cmd/qrmi-ocs-load-sensor/main.go:101-132 | for any input, provider and failing output: the report of the lines before the first "quit", or a first part of it; without write faults it fails exactly when a line over the limit comes before any "quit" |
| LoadSensor.ProtocolFields | src/cmd/qrmi-ocs-load-sensor/main.go:71-89 | the printed names are always valid, unchanged when they were, and the defaults otherwise |

## Left out

- The cgo bridge, JSON and YAML decoding, HTTP and TLS: their decoded results are inputs. The
  backend is a set of held tokens with Acquire, Release and IsAccessible, which may fail.
- Process execution, user lookup, host names, file ownership and modes, chdir and execve: inputs
  (`Prolog.World`, the map of trusted hooks).
- Symbolic links: the resolved form of each path is an input (`Spool.FsView`).
- Power loss: a write that returned is there. The code promises safety against kills only.
- Log lines, usage text, the mapping of log levels to RUST_LOG (its result is an input) and the
  accounting file the epilog appends to.
- Slot counts are parsed through floating point; the parsed count is an input
  (`Prolog.World.slots`).
- The scheduler itself: it runs a hook as the text before the first "@", replaces `$job_owner`
  and splits at blanks; it refuses to add a complex or host configuration that exists; it lists a
  new host configuration last; and a failed qconf call changes nothing. Aliases of one host name
  count as different hosts.
- Go's flag package: string flags only, without the help flag.
- HookCommand.PrologRoundTrip: no word of the command may contain `$job_owner` itself, because the
  scheduler would replace it there too.
- Publish.WriteAtomic: records what other processes can read; fsync is not part of the code.
- Refinement.PrologOnHost: assumes what the machine assumes (a fresh token, a spool directory
  without earlier files) and that the settings of the backend it serves leave the metadata file
  where it is; `MovedRecord` is about the other runs. One program moves at a time in the joint runs;
  interleavings of many are the machine's.
- WholeJob.RunJob: the epilog reads the configuration the prolog read; settings without a key, which
  the prolog skips, hold no NUL, and neither does the epilog's environment.
- Installed.SetupStartsHooks: no word of the command may contain `$job_owner` itself.
- TornSuccess.StatusExactly: inputs without line breaks, and no backend setting that is itself the
  status variable.
- GrantC.GrantsAgree: values that Go rejects and that are not tidy are not characterised; for
  values that Go accepts `GrantC.AcceptedAgree` is exact.
- Setup.SetupRepairs: assumes that an uninterrupted run succeeds; otherwise the commands written
  without the global directory may stay.
- SetupFrame.SetupKeeps: host values and sensors that setup manages are described by the plan's own
  steps.
- HostCoverage.LaunchAccepts: assumes that the host's configuration is among the listed ones.
- The exit codes of the two prologs are not claimed to be equal: a failed slots lookup exits 1 in C
  and 99 in Go.
- Flag validation of the adapter's subcommands, the bootstrap file's admin user and configuration
  file discovery: single branches.

/** The names, limits, characters and lines that other programs rely on. */
module Interfaces {
  import opened CBuffer
  import opened Decimal
  import opened EnvList
  import opened FieldReader
  import opened FieldReaderC
  import opened Grant
  import opened HookCommand
  import opened HostCoverage
  import opened Metadata
  import opened Paths
  import opened Qmaster
  import opened Sanitize
  import opened Spool
  import opened Text
  import opened Wrappers
  import C = MetadataC

  // ---- Files -------------------------------------------------------------------------------

  function HostText(host: seq<string>): string {
    if host == [] then "" else Rooted(host)
  }

  /** The metadata file of a job lies in its spool directory, and after a failed release beside all spool
      directories of the host: for the Go and the C hooks, which refuse paths of 4096 bytes and more. */
  lemma PathTexts(host: seq<string>, jobTask: string)
    requires AllProper(host) && Proper(jobTask) && Proper(jobTask + ".tsv")
    ensures var spool := HostText(host) + "/active_jobs/" + jobTask;
            var meta, kept := spool + "/qrmi_ocs_acquired.tsv", HostText(host) + "/qrmi_failed_releases/" + jobTask + ".tsv";
            && ResolveMetadataPath(spool) == Some(meta) && KeptPath(meta) == kept
            && MetadataPathC(spool) == (if ByteLen(meta) < 4096 then Some(meta) else None)
            && KeptPathC(spool) == (if ByteLen(kept) < 4096 then Some(kept) else None)
  {
    PathsOf(host, jobTask);
    PlaceTexts(host, jobTask);
  }

  lemma PlaceTexts(host: seq<string>, jobTask: string)
    requires AllProper(host) && Proper(jobTask) && Proper(jobTask + ".tsv")
    ensures SpoolOf(host, jobTask) == HostText(host) + "/active_jobs/" + jobTask
    ensures MetaOf(host, jobTask) == HostText(host) + "/active_jobs/" + jobTask + "/qrmi_ocs_acquired.tsv"
    ensures KeptOf(host, jobTask) == HostText(host) + "/qrmi_failed_releases/" + jobTask + ".tsv"
  {
    HostProper(host, jobTask);
    TwoBelow(host, ACTIVE_JOBS, jobTask);
    TwoBelow(host, FAILED_RELEASE_DIR, jobTask + ".tsv");
    Below(host + [ACTIVE_JOBS] + [jobTask], METADATA_FILENAME);
    Texts(HostText(host), jobTask);
  }

  lemma Texts(h: string, jobTask: string)
    ensures h + "/active_jobs/" + jobTask == h + "/" + ACTIVE_JOBS + "/" + jobTask
    ensures h + "/active_jobs/" + jobTask + "/qrmi_ocs_acquired.tsv" == h + "/" + ACTIVE_JOBS + "/" + jobTask + "/" + METADATA_FILENAME
    ensures h + "/qrmi_failed_releases/" + jobTask + ".tsv" == h + "/" + FAILED_RELEASE_DIR + "/" + (jobTask + ".tsv")
  {
  }

  /** A line of name, type, token and time is read as that record, by the Go epilog exactly if it is shorter than 1 MiB
      and by the C epilog exactly if the type is an int. */
  lemma LineRead(name: string, typ: int, token: string, epoch: int)
    requires name != "" && token != "" && 0 <= typ < 0x8000_0000_0000_0000
    requires -0x8000_0000_0000_0000 <= epoch < 0x8000_0000_0000_0000
    requires forall c <- name + token :: c !in "\t\n\r\0"
    ensures var line := name + "\t" + Itoa(typ) + "\t" + token + "\t" + Itoa(epoch);
            && (Metadata.Read(line + "\n") == Ok(Record(name, typ, token, epoch)) <==> ByteLen(line) < 0x10_0000)
            && (ByteLen(line) < 0x10_0000 ==>
                  (C.ReadFrom(Lines(line + "\n"), None) == Ok(Record(name, typ, token, epoch)) <==> typ < 0x8000_0000))
  {
    var r := Record(name, typ, token, epoch);
    Unsplit(name, token);
    RoundTripExactly(r);
    EncodeOne(r);
    if Storable(r) {
      C.CReadsGoRecord(r);
    }
  }

  /** Without a time, the record has the time 0. */
  lemma TimelessRead(name: string, typ: int, token: string)
    requires name != "" && token != "" && 0 <= typ < 0x8000_0000
    requires forall c <- name + token :: c !in "\t\n\r\0"
    ensures Metadata.ParseRecordLine(name + "\t" + Itoa(typ) + "\t" + token) == Some(Record(name, typ, token, 0))
    ensures C.RecordOf(name + "\t" + Itoa(typ) + "\t" + token) == Some(Record(name, typ, token, 0))
  {
    Unsplit(name, token);
    TypePlain(typ);
    ThreeFields(name, Itoa(typ), token);
    PlainThree(name, Itoa(typ), token);
    C.RecordOfPlain(name + "\t" + Itoa(typ) + "\t" + token);
  }

  lemma PlainThree(a: string, b: string, c: string)
    requires a != "" && b != "" && c != "" && '\t' !in a && '\t' !in b && '\t' !in c
    requires '\n' !in a && '\r' !in a && NUL !in a && '\n' !in b && '\r' !in b && NUL !in b && '\n' !in c && '\r' !in c && NUL !in c
    ensures C.Plain(a + "\t" + b + "\t" + c)
  {
    ThreeFields(a, b, c);
    Lacks(a, b, c, '\n');
    Lacks(a, b, c, '\r');
    Lacks(a, b, c, NUL);
  }

  lemma Lacks(a: string, b: string, c: string, x: char)
    requires x !in a && x !in b && x !in c && x != '\t'
    ensures x !in a + "\t" + b + "\t" + c
  {
  }

  lemma TypePlain(typ: int)
    requires 0 <= typ < 0x8000_0000
    ensures '\t' !in Itoa(typ) && '\n' !in Itoa(typ) && '\r' !in Itoa(typ) && NUL !in Itoa(typ) && Itoa(typ) != ""
    ensures ParseInt(Itoa(typ)) == Strtol(Itoa(typ)) == Some(typ)
  {
    ItoaPlain(typ);
    ItoaRoundTrip(typ);
  }

  lemma ThreeFields(a: string, b: string, c: string)
    requires '\t' !in a && '\t' !in b && '\t' !in c
    ensures Split(a + "\t" + b + "\t" + c, '\t') == [a, b, c]
  {
    SplitJoin([a, b, c], '\t');
    JoinThree(a, b, c);
  }

  lemma JoinThree(a: string, b: string, c: string)
    ensures Join([a, b, c], "\t") == a + "\t" + b + "\t" + c
  {
    assert [a, b, c][1..] == [b, c] && [b, c][1..] == [c];
    assert Join([b, c], "\t") == b + "\t" + c;
    assert a + "\t" + (b + "\t" + c) == a + "\t" + b + "\t" + c;
  }

  lemma Unsplit(a: string, b: string)
    requires forall c <- a + b :: c !in "\t\n\r\0"
    ensures '\t' !in a && '\n' !in a && '\r' !in a && NUL !in a && '\t' !in b && '\n' !in b && '\r' !in b && NUL !in b
  {
    assert forall c <- a :: c in a + b;
    assert forall c <- b :: c in a + b;
  }

  function WithoutCR(line: string): string {
    if HasSuffix(line, "\r") then line[..|line| - 1] else line
  }

  /** The scan of a scheduler's answer stops at the first line of 64 KiB, and at no shorter one. */
  lemma ScanStops(text: string, field: string)
    requires Lines(text) != []
    ensures ByteLen(Lines(text)[0]) >= 0x1_0000 ==> FieldValue(text, field) == ""
    ensures ByteLen(Lines(text)[0]) < 0x1_0000 ==>
              ScannedLines(Lines(text)) == [WithoutCR(Lines(text)[0])] + ScannedLines(Lines(text)[1..])
  {
  }

  // ---- Characters ----

  lemma SpacesC(c: char)
    ensures IsSpaceC(c) <==> c in " \t\n\r" || c == 11 as char || c == 12 as char
  {
  }

  lemma SpacesGo(c: char)
    requires c < '\U{85}'
    ensures IsSpace(c) <==> IsSpaceC(c)
  {
  }

  /** In a granted value, brackets, commas, semicolons and blanks around the name are decoration; a parenthesis, comma
      or ASCII blank inside it is an error. */
  lemma GrantCharacters(c: char)
    ensures Edge(c) <==> IsSpace(c) || c in "[](){},;"
    ensures Paren(c) <==> c in "()"
    ensures Separator(c) <==> c in ", \t\r\n"
  {
  }

  // ---- The queue's command line ----

  predicate NoneIn(text: string, chars: string) {
    forall c <- text :: c !in chars
  }

  lemma NoneIs(p: char -> bool, text: string, chars: string)
    requires forall c :: p(c) <==> c in chars
    ensures NoneOf(p, text) <==> NoneIn(text, chars)
  {
    if NoneOf(p, text) {
      forall c <- text
        ensures c !in chars
      {
        var i :| 0 <= i < |text| && text[i] == c;
      }
    }
  }

  /** The adapter accepts absolute paths, a user and arguments that the scheduler will neither split nor replace. */
  lemma CommandAccepted(hook: string, launcher: string, user: string, launcherArgs: seq<string>, args: seq<string>)
    ensures var h := TrimSpace(hook);
            CommandOf(hook, launcher, user, launcherArgs, args).Ok?
            <==> h == "NONE"
                 || (&& h != "" && h[0] == '/' && NoneIn(h, " \t\r\n@") && launcher != "" && launcher[0] == '/' && NoneIn(launcher, " \t\r\n@")
                     && user != "" && NoneIn(user, " \t\r\n@$")
                     && forall arg <- launcherArgs + args :: arg != "" && NoneIn(arg, " \t\r\n"))
  {
    var h := TrimSpace(hook);
    NoneIs(BlankOrAt, h, " \t\r\n@");
    NoneIs(BlankOrAt, launcher, " \t\r\n@");
    NoneIs(BadUserChar, user, " \t\r\n@$");
    forall arg <- Arguments(h, launcherArgs, args)
      ensures PlainArg(arg) <==> arg != "" && NoneIn(arg, " \t\r\n")
    {
      NoneIs(HookCommand.Blank, arg, " \t\r\n");
    }
    Members(launcherArgs, h, args);
    if NoneIn(h, " \t\r\n@") {
      assert NoneIn(h, " \t\r\n");
    }
  }

  lemma Members(a: seq<string>, h: string, b: seq<string>)
    ensures forall x :: x in Arguments(h, a, b) <==> x in a + b || x == h
  {
  }

  /** The command: the user, the launcher, the words, and the variable the scheduler replaces by the job's owner. */
  lemma CommandText(hook: string, launcher: string, user: string, launcherArgs: seq<string>, args: seq<string>)
    requires TrimSpace(hook) != "NONE" && CommandOf(hook, launcher, user, launcherArgs, args).Ok?
    ensures CommandOf(hook, launcher, user, launcherArgs, args).value
            == Join([user + "@" + launcher] + launcherArgs + [TrimSpace(hook)] + args + ["$job_owner"], " ")
  {
    assert [user + "@" + launcher] + Arguments(TrimSpace(hook), launcherArgs, args) + [JOB_OWNER]
           == [user + "@" + launcher] + launcherArgs + [TrimSpace(hook)] + args + ["$job_owner"];
  }

  function SpoolRootOptions(roots: seq<string>): seq<string> {
    if roots == [] then [] else ["--spool-root=" + roots[0]] + SpoolRootOptions(roots[1..])
  }

  lemma {:induction false} SpoolRootsPrinted(roots: seq<string>)
    ensures SpoolOptions(roots) == SpoolRootOptions(roots)
  {
    if roots != [] {
      SpoolRootsPrinted(roots[1..]);
    }
  }

  /** The options printed for the launcher and the hooks. */
  lemma OptionsPrinted(c: Cluster, roots: seq<string>, o: HookOptions)
    ensures LauncherArgs(c, roots)
            == if c.sgeRoot == "" || c.sgeRoot[0] != '/' then None
               else Some(["--sge-root=" + Clean(c.sgeRoot), "--sge-cell=" + (if c.sgeCell == "" then "default" else c.sgeCell)]
                         + SpoolRootOptions(roots) + (if c.qmasterPort == "" then [] else ["--qmaster-port=" + c.qmasterPort])
                         + (if c.execdPort == "" then [] else ["--execd-port=" + c.execdPort]))
    ensures CommonArgs(o) == ["--config=" + o.configPath] + (if o.logLevel == "" then [] else ["--log-level=" + o.logLevel])
    ensures PrologArgs(o) == CommonArgs(o) + ["--resource=" + o.resourceName, "--slots-resource=" + o.slotsResourceName, "--qstat=" + o.qstatPath]
  {
    SpoolRootsPrinted(roots);
    FlagText("config", o.configPath, "--config=");
    FlagText("log-level", o.logLevel, "--log-level=");
    FlagText("resource", o.resourceName, "--resource=");
    FlagText("slots-resource", o.slotsResourceName, "--slots-resource=");
    FlagText("qstat", o.qstatPath, "--qstat=");
  }

  lemma FlagText(name: string, value: string, front: string)
    requires front == "--" + name + "="
    ensures FlagArg(name, value) == front + value
  {
  }

  /** Without flags a prolog takes the defaults; it needs the path of qstat. */
  lemma Defaults(qstat: string)
    ensures ParsePrologArgs(["--qstat=" + qstat])
            == if qstat != "" && qstat[0] == '/' then Ok((HookOptions("/etc/qrmi/qrmi_config.json", "qpu", "qpu_slots", qstat, ""), ""))
               else Err(MissingSetting)
    ensures ParseEpilogArgs([]) == Ok(("/etc/qrmi/qrmi_config.json", "", ""))
  {
    OnlyQstat(qstat);
    OthersDefault(qstat);
  }

  lemma OnlyQstat(qstat: string)
    ensures Flags(["--qstat=" + qstat], PROLOG_FLAGS, map[]) == Ok((map["qstat" := qstat], []))
  {
    FlagText("qstat", qstat, "--qstat=");
    FlagNames();
    assert "qstat" in ["resource", "slots-resource", "qstat"];
    FlagStep("qstat", qstat, [], PROLOG_FLAGS, map[]);
    assert [FlagArg("qstat", qstat)] + [] == [FlagArg("qstat", qstat)];
  }

  lemma OthersDefault(qstat: string)
    ensures var m := map["qstat" := qstat];
            && GetOr(m, "config", DEFAULT_CONFIG) == "/etc/qrmi/qrmi_config.json" && GetOr(m, "resource", DEFAULT_RESOURCE) == "qpu"
            && GetOr(m, "slots-resource", DEFAULT_SLOTS) == "qpu_slots" && GetOr(m, "log-level", "") == "" && GetOr(m, "qstat", "") == qstat
  {
    assert |"qstat"| == 5 && |"config"| == 6 && |"resource"| == 8 && |"slots-resource"| == 14 && |"log-level"| == 9;
  }

  /** The prolog reads back what was printed for it, exactly unless an option it needs is missing or the owner looks
      like a flag. */
  lemma OptionsRead(o: HookOptions, owner: string)
    ensures ParsePrologArgs(PrologArgs(o) + (if owner == "" then [] else [owner])) == Ok((o, owner))
            <==> && o.configPath != "" && o.resourceName != "" && HasPrefix(o.qstatPath, "/")
                 && !(HasPrefix(owner, "-") && owner != "-")
  {
    PrologParses(o, owner);
    assert IsAbs(o.qstatPath) <==> HasPrefix(o.qstatPath, "/");
    FlagLike(owner);
  }

  lemma FlagLike(arg: string)
    ensures IsFlag(arg) <==> HasPrefix(arg, "-") && arg != "-"
  {
    if |arg| == 1 && arg[0] == '-' {
      assert arg == "-";
    }
  }

  /** The launcher refuses options it does not know, and a command line without a hook. */
  lemma LauncherRefuses(name: string, value: string, rest: seq<string>)
    requires '=' !in name && name !in ["sge-root", "sge-cell", "spool-root", "qmaster-port", "execd-port"]
    ensures Options(["--" + name + "=" + value] + rest, NO_SETTINGS) == Err(UnknownOption) && Options([], NO_SETTINGS) == Err(Usage)
  {
    var arg, option := "--" + name + "=" + value, "--" + name;
    assert arg == option + "=" + value && (["--" + name + "=" + value] + rest)[0] == arg;
    CutOption(option, value);
    assert option[2..] == name && "--sge-root"[2..] == "sge-root" && "--sge-cell"[2..] == "sge-cell" && "--spool-root"[2..] == "spool-root";
    assert "--qmaster-port"[2..] == "qmaster-port" && "--execd-port"[2..] == "execd-port";
  }

  /** Flags it does not know, and more than the owner behind the flags, are refused. */
  lemma ArgumentsRefused(name: string, value: string, a: string, b: string, rest: seq<string>)
    requires '=' !in name && name != "" && name[0] != '-'
    ensures name !in ["config", "resource", "slots-resource", "qstat", "log-level"]
            ==> ParsePrologArgs(["--" + name + "=" + value] + rest) == Err(UndefinedFlag)
    ensures name !in ["config", "log-level"] ==> ParseEpilogArgs(["--" + name + "=" + value] + rest) == Err(UndefinedFlag)
    ensures !IsFlag(a) ==> ParsePrologArgs([a, b] + rest) == Err(TooManyArguments) && ParseEpilogArgs([a, b] + rest) == Err(TooManyArguments)
  {
    var arg := "--" + name + "=" + value;
    assert arg[2..] == name + "=" + value && (name + "=" + value)[0] == name[0];
    CutOption(name, value);
    assert (["--" + name + "=" + value] + rest)[0] == arg;
  }

  // ---- Numbers and letters ----

  lemma DigitLast(n: nat, d: nat)
    requires n > 0 && d < 10
    ensures DigitsOf(10 * n + d) == DigitsOf(n) + DigitsOf(d)
  {
    assert (10 * n + d) / 10 == n && (10 * n + d) % 10 == d;
    assert DigitsOf(d) == "" + ['0' + (d % 10) as char];
  }

  /** Numbers are printed in decimal, without leading zeros. */
  lemma Numerals(n: nat, d: nat)
    requires d < 10
    ensures Itoa(d) == [('0' as int + d) as char] && (n > 0 ==> Itoa(10 * n + d) == Itoa(n) + Itoa(d))
    ensures n > 0 ==> Itoa(0 - n as int) == "-" + Itoa(n)
  {
    if n > 0 {
      DigitLast(n, d);
    }
  }

  /** Both numeral parsers take what is printed of 64 bits, and nothing larger. */
  lemma NumeralsRead(i: int)
    ensures ParseInt(Itoa(i)) == (if -0x8000_0000_0000_0000 <= i < 0x8000_0000_0000_0000 then Some(i) else None)
    ensures Strtol(Itoa(i)) == ParseInt(Itoa(i))
  {
    ItoaPlain(i);
    var digits := DigitsOf(if i < 0 then -i else i);
    DigitsRoundTrip(if i < 0 then -i else i);
    DigitsParse(digits);
    StrtolVersusParseInt(Itoa(i));
    assert Itoa(i)[0] == if i < 0 then '-' else digits[0];
  }

  /** Complexes are compared without regard to the case of ASCII letters, and of nothing else in ASCII. */
  lemma LettersFold(a: char, b: char)
    requires a < 128 as char && b < 128 as char
    ensures FoldChar(a) == FoldChar(b)
            <==> a == b || ('A' <= a <= 'Z' && b as int == a as int + 32) || ('A' <= b <= 'Z' && a as int == b as int + 32)
  {
  }

  lemma {:induction false} FoldIs(a: string, b: string)
    ensures EqualFold(a, b) <==> |a| == |b| && forall i :: 0 <= i < |a| ==> FoldChar(a[i]) == FoldChar(b[i])
  {
    FoldAt(a);
    FoldAt(b);
    if EqualFold(a, b) {
      forall i | 0 <= i < |a|
        ensures FoldChar(a[i]) == FoldChar(b[i])
      {
        assert Fold(a)[i] == Fold(b)[i];
      }
    }
  }

  lemma {:induction false} FoldAt(s: string)
    ensures |Fold(s)| == |s| && forall i :: 0 <= i < |s| ==> Fold(s)[i] == FoldChar(s[i])
  {
    if s != "" {
      FoldAt(s[1..]);
    }
  }
}

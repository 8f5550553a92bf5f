/** The load sensor's protocol: one report per request line, until "quit". */
module LoadSensor {
  import opened Decimal
  import opened FieldReader
  import opened Text
  import opened Wrappers

  datatype Status = Status(ready: bool, slots: Option<int>)

  /** One answer of a provider; None is an error. */
  type Answer = Option<Status>

  // ---- Providers ---------------------------------------------------------------------

  /** The configured state, or the trimmed content of the state file at this cycle. */
  function StaticStatus(stateFile: string, ready: bool, content: Option<string>): (a: Answer)
    ensures Consistent(a)
  {
    if TrimSpace(stateFile) == "" then Some(Status(ready, None))
    else if content == None then None
    else if TrimSpace(content.value) == "1" then Some(Status(true, None))
    else if TrimSpace(content.value) == "0" then Some(Status(false, None))
    else None
  }

  /** What came back from the warden: no response, an HTTP error, an undecodable body, or a body. */
  datatype Reply = NoReply | HttpError | Malformed | Body(isAccessible: Option<bool>, slots: Option<int>)

  function WardenStatus(reply: Reply): (a: Answer)
    ensures Consistent(a)
    ensures a != None && a.value.ready
            <==> reply.Body? && reply.isAccessible == Some(true) && (reply.slots == None || reply.slots.value >= 0)
  {
    if !reply.Body? || reply.isAccessible == None then None
    else if !reply.isAccessible.value then Some(Status(false, Some(0)))
    else if reply.slots != None && reply.slots.value < 0 then None
    else Some(Status(true, reply.slots))
  }

  /** The provider after a failed startup. */
  function FailedStatus(): (a: Answer)
    ensures Consistent(a)
  {
    None
  }

  /** A status that offers slots only while it is ready, and never a negative number. */
  predicate Consistent(a: Answer) {
    a != None ==> (a.value.slots != None ==> a.value.slots.value >= 0)
                  && (!a.value.ready ==> a.value.slots == None || a.value.slots.value == 0)
  }

  // ---- Fields -------------------------------------------------------------------------------

  datatype Fields = Fields(scope: string, resource: string, slots: string)

  predicate Unprintable(c: char) {
    c == ':' || c == ' ' || c == '\t' || c == '\r' || c == '\n'
  }

  predicate ValidField(value: string) {
    value != "" && NoneOf(Unprintable, value)
  }

  predicate ValidFields(f: Fields) {
    ValidField(f.scope) && ValidField(f.resource) && (f.slots != "" ==> ValidField(f.slots))
  }

  /** Invalid names fall back to the defaults. */
  function ProtocolFields(configured: Fields): (f: Fields)
    ensures ValidFields(f)
    ensures ValidFields(configured) ==> f == configured
    ensures !ValidField(configured.scope) ==> f.scope == "global"
    ensures !ValidField(configured.resource) ==> f.resource == "qpu_ready"
    ensures !ValidField(configured.slots) ==> f.slots == ""
  {
    assert ValidField("global") && ValidField("qpu_ready");
    Fields(if ValidField(configured.scope) then configured.scope else "global",
           if ValidField(configured.resource) then configured.resource else "qpu_ready",
           if configured.slots != "" && !ValidField(configured.slots) then "" else configured.slots)
  }

  // ---- Reports ---------------------------------------------------------------------------------

  function Shown(a: Answer): Status {
    if a == None then Status(false, None) else a.value
  }

  function ReadyText(a: Answer): string {
    if Shown(a).ready then "1" else "0"
  }

  function SlotCount(a: Answer): (n: nat)
  {
    var slots := Shown(a).slots;
    if slots == None || slots.value < 0 then 0 else slots.value
  }

  function EntryText(scope: string, name: string, value: string): string {
    scope + ":" + name + ":" + value
  }

  function FrameLines(f: Fields, a: Answer): seq<string> {
    ["begin", EntryText(f.scope, f.resource, ReadyText(a))]
    + (if f.slots == "" then [] else [EntryText(f.scope, f.slots, Itoa(SlotCount(a)))]) + ["end"]
  }

  function ReportLines(f: Fields, answers: seq<Answer>): seq<string> {
    if answers == [] then [] else FrameLines(f, answers[0]) + ReportLines(f, answers[1..])
  }

  /** Everything written for the answers of the cycles. */
  function Report(f: Fields, answers: seq<Answer>): string {
    Unlines(ReportLines(f, answers))
  }

  predicate IsQuit(line: string) {
    TrimSpace(line) == "quit"
  }

  /** The number of cycles: the request lines before the first "quit". */
  function Cycles(lines: seq<string>): nat {
    if lines == [] || IsQuit(lines[0]) then 0 else 1 + Cycles(lines[1..])
  }

  function Asked(provider: nat -> Answer, from: nat, n: nat): seq<Answer>
    decreases n
  {
    if n == 0 then [] else [provider(from)] + Asked(provider, from + 1, n - 1)
  }

  /** An output whose writes may fail after a part of the text. */
  class Output {
    var text: string
    var calls: nat
    const fails: nat -> bool
    const amount: nat -> nat

    constructor (fails: nat -> bool, amount: nat -> nat)
      ensures text == "" && this.fails == fails && this.amount == amount
    {
      this.text, this.calls, this.fails, this.amount := "", 0, fails, amount;
    }

    /** No write fails. */
    ghost predicate Reliable() {
      forall n :: !fails(n)
    }

    method Print(part: string) returns (ok: bool)
      modifies this
      ensures ok ==> text == old(text) + part
      ensures Reliable() ==> ok
      ensures old(text) <= text <= old(text) + part
    {
      ok := !fails(calls);
      var n := if ok || amount(calls) > |part| then |part| else amount(calls);
      assert old(text) + part[..n] <= old(text) + part;
      text, calls := text + part[..n], calls + 1;
    }
  }

  /** Three prints: the readiness, the slots if they are reported, the end. */
  method WriteReport(out: Output, f: Fields, a: Answer) returns (ok: bool)
    modifies out
    ensures ok ==> out.text == old(out.text) + Unlines(FrameLines(f, a))
    ensures out.Reliable() ==> ok
    ensures old(out.text) <= out.text <= old(out.text) + Unlines(FrameLines(f, a))
  {
    ghost var start := out.text;
    var head := "begin\n" + EntryText(f.scope, f.resource, ReadyText(a)) + "\n";
    var slots := if f.slots == "" then "" else EntryText(f.scope, f.slots, Itoa(SlotCount(a))) + "\n";
    FrameText(f, a);
    ThreeParts(start, head, slots, "end\n");
    ghost var whole := start + (head + slots + "end\n");
    ok := out.Print(head);
    if !ok {
      PrefixOf(out.text, start + head, whole);
      return;
    }
    if f.slots != "" {
      ok := out.Print(slots);
      if !ok {
        PrefixOf(out.text, start + head + slots, whole);
        return;
      }
    } else {
      assert out.text + slots == out.text;
    }
    ok := out.Print("end\n");
  }

  lemma FrameText(f: Fields, a: Answer)
    ensures Unlines(FrameLines(f, a))
            == "begin\n" + EntryText(f.scope, f.resource, ReadyText(a)) + "\n"
               + (if f.slots == "" then "" else EntryText(f.scope, f.slots, Itoa(SlotCount(a))) + "\n") + "end\n"
  {
    var e := EntryText(f.scope, f.resource, ReadyText(a));
    var s := EntryText(f.scope, f.slots, Itoa(SlotCount(a)));
    if f.slots == "" {
      UnlinesThree("begin", e, "end");
      assert FrameLines(f, a) == ["begin", e, "end"];
    } else {
      UnlinesFour("begin", e, s, "end");
      assert FrameLines(f, a) == ["begin", e, s, "end"];
    }
  }

  lemma UnlinesOne(a: string)
    ensures Unlines([a]) == a + "\n"
  {
    assert [a][1..] == [];
    assert a + "\n" + "" == a + "\n";
  }

  lemma UnlinesThree(a: string, b: string, c: string)
    ensures Unlines([a, b, c]) == a + "\n" + b + "\n" + "" + (c + "\n")
  {
    UnlinesOne(a);
    UnlinesOne(b);
    UnlinesOne(c);
    UnlinesAppend([a], [b]);
    UnlinesAppend([a] + [b], [c]);
    assert [a] + [b] + [c] == [a, b, c];
    Assoc(a + "\n", b, "\n");
    assert a + "\n" + b + "\n" + "" == a + "\n" + b + "\n";
  }

  lemma UnlinesFour(a: string, b: string, c: string, d: string)
    ensures Unlines([a, b, c, d]) == a + "\n" + b + "\n" + (c + "\n") + (d + "\n")
  {
    UnlinesThree(a, b, c);
    UnlinesOne(d);
    UnlinesAppend([a, b, c], [d]);
    assert [a, b, c] + [d] == [a, b, c, d];
    assert a + "\n" + b + "\n" + "" == a + "\n" + b + "\n";
  }

  lemma ThreeParts(start: string, a: string, b: string, c: string)
    ensures start + a + b + c == start + (a + b + c)
    ensures start + a <= start + (a + b + c) && start + a + b <= start + (a + b + c)
  {
    assert start + a + b + c == start + (a + b + c);
  }

  lemma PrefixOf(t: string, part: string, whole: string)
    requires t <= part && part <= whole
    ensures t <= whole
  {
  }

  /** A line over the scanner's limit comes before any "quit". */
  predicate Overlong(lines: seq<string>) {
    |ScannedLines(lines)| < |lines| && Cycles(ScannedLines(lines)) == |ScannedLines(lines)|
  }

  lemma {:induction false} ScannedCount(lines: seq<string>)
    ensures |ScannedLines(lines)| <= |lines|
  {
    if lines != [] {
      ScannedCount(lines[1..]);
    }
  }

  /** One report per line before the first "quit". */
  method ServeRequests(lines: seq<string>, provider: nat -> Answer, f: Fields, out: Output)
    returns (ok: bool, quit: bool)
    modifies out
    ensures ok ==> out.text == old(out.text) + Report(f, Asked(provider, 0, Cycles(lines)))
    ensures old(out.text) <= out.text <= old(out.text) + Report(f, Asked(provider, 0, Cycles(lines)))
    ensures out.Reliable() ==> ok
    ensures ok ==> Cycles(lines) <= |lines| && (quit <==> Cycles(lines) < |lines|)
  {
    ghost var start, n := out.text, Cycles(lines);
    var i := 0;
    assert start + Report(f, []) == start;
    ok := true;
    while ok && i < |lines| && !IsQuit(lines[i])
      invariant i <= |lines| && (ok ==> n == i + Cycles(lines[i..]) && out.text == start + Report(f, Asked(provider, 0, i)))
      invariant start <= out.text && (!ok ==> !out.Reliable() && out.text <= start + Report(f, Asked(provider, 0, n)))
      decreases |lines| - i
    {
      CyclesStep(lines, i);
      ok := WriteCycle(out, f, provider, i, start, n);
      i := i + 1;
    }
    quit := i < |lines|;
    if ok {
      CyclesEnd(lines, i);
    }
  }

  /** The request loop. Each cycle asks the provider once and writes one report. */
  method RunProtocol(input: string, provider: nat -> Answer, f: Fields, out: Output) returns (ok: bool)
    modifies out
    ensures var all := Report(f, Asked(provider, 0, Cycles(ScannedLines(Lines(input)))));
            && (ok || out.Reliable() ==> out.text == old(out.text) + all)
            && old(out.text) <= out.text <= old(out.text) + all
    ensures ok ==> !Overlong(Lines(input))
    ensures out.Reliable() ==> (ok <==> !Overlong(Lines(input)))
  {
    var lines := ReadRequests(input);
    var quit;
    ok, quit := ServeRequests(lines, provider, f, out);
    ScannedCount(Lines(input));
    ok := ok && (quit || |lines| == |Lines(input)|);
  }

  lemma CyclesStep(lines: seq<string>, i: nat)
    requires i < |lines| && !IsQuit(lines[i])
    ensures Cycles(lines[i..]) == 1 + Cycles(lines[i + 1..])
  {
    assert lines[i..][0] == lines[i] && lines[i..][1..] == lines[i + 1..];
  }

  lemma CyclesEnd(lines: seq<string>, i: nat)
    requires i <= |lines| && (i < |lines| ==> IsQuit(lines[i]))
    ensures Cycles(lines[i..]) == 0
  {
    assert i < |lines| ==> lines[i..][0] == lines[i];
  }

  /** One cycle; a failed write leaves the output a part of the whole report. */
  method WriteCycle(out: Output, f: Fields, provider: nat -> Answer, i: nat, ghost start: string, ghost n: nat) returns (ok: bool)
    requires i < n && out.text == start + Report(f, Asked(provider, 0, i))
    modifies out
    ensures ok ==> out.text == start + Report(f, Asked(provider, 0, i + 1))
    ensures out.Reliable() ==> ok
    ensures start <= old(out.text) <= out.text <= start + Report(f, Asked(provider, 0, n))
  {
    NextText(start, f, provider, i, n);
    ok := WriteReport(out, f, provider(i));
    PrefixOf(out.text, start + Report(f, Asked(provider, 0, i + 1)), start + Report(f, Asked(provider, 0, n)));
  }

  /** The scanner's lines; a line over the limit ends the input. */
  method ReadRequests(input: string) returns (lines: seq<string>)
    ensures lines == ScannedLines(Lines(input))
  {
    lines := [];
    var rest := Lines(input);
    while rest != [] && ByteLen(rest[0]) < SCAN_LIMIT
      invariant lines + ScannedLines(rest) == ScannedLines(Lines(input))
      decreases |rest|
    {
      assert lines + ([DropCR(rest[0])] + ScannedLines(rest[1..])) == lines + [DropCR(rest[0])] + ScannedLines(rest[1..]);
      lines := lines + [DropCR(rest[0])];
      rest := rest[1..];
    }
    assert ScannedLines(rest) == [] && lines + [] == lines;
  }

  lemma NextText(start: string, f: Fields, provider: nat -> Answer, i: nat, n: nat)
    requires i < n
    ensures start + Report(f, Asked(provider, 0, i)) + Unlines(FrameLines(f, provider(i)))
            == start + Report(f, Asked(provider, 0, i + 1))
    ensures start + Report(f, Asked(provider, 0, i + 1)) <= start + Report(f, Asked(provider, 0, n))
  {
    NextFrame(f, provider, i, n);
    Assoc(start, Report(f, Asked(provider, 0, i)), Unlines(FrameLines(f, provider(i))));
  }

  lemma {:induction false} AskedSnoc(provider: nat -> Answer, from: nat, n: nat)
    ensures Asked(provider, from, n + 1) == Asked(provider, from, n) + [provider(from + n)]
    decreases n
  {
    if n > 0 {
      AskedSnoc(provider, from + 1, n - 1);
    }
  }

  lemma {:induction false} ReportAppend(f: Fields, a: seq<Answer>, b: seq<Answer>)
    ensures ReportLines(f, a + b) == ReportLines(f, a) + ReportLines(f, b)
    ensures Report(f, a + b) == Report(f, a) + Report(f, b)
  {
    LinesOfReport(f, a, b);
    UnlinesAppend(ReportLines(f, a), ReportLines(f, b));
  }

  lemma {:induction false} LinesOfReport(f: Fields, a: seq<Answer>, b: seq<Answer>)
    ensures ReportLines(f, a + b) == ReportLines(f, a) + ReportLines(f, b)
  {
    if a == [] {
      assert a + b == b;
    } else {
      assert (a + b)[1..] == a[1..] + b;
      LinesOfReport(f, a[1..], b);
    }
  }

  lemma {:induction false} UnlinesAppend(a: seq<string>, b: seq<string>)
    ensures Unlines(a + b) == Unlines(a) + Unlines(b)
  {
    if a == [] {
      assert a + b == b;
    } else {
      assert (a + b)[1..] == a[1..] + b;
      UnlinesAppend(a[1..], b);
      Assoc(a[0] + "\n", Unlines(a[1..]), Unlines(b));
    }
  }

  lemma OneReport(f: Fields, a: Answer)
    ensures Report(f, [a]) == Unlines(FrameLines(f, a))
  {
    assert [a][1..] == [];
    assert ReportLines(f, [a]) == FrameLines(f, a);
  }

  lemma NextFrame(f: Fields, provider: nat -> Answer, i: nat, n: nat)
    requires i < n
    ensures Report(f, Asked(provider, 0, i + 1)) == Report(f, Asked(provider, 0, i)) + Unlines(FrameLines(f, provider(i)))
    ensures Report(f, Asked(provider, 0, i + 1)) <= Report(f, Asked(provider, 0, n))
  {
    AskedSnoc(provider, 0, i);
    ReportAppend(f, Asked(provider, 0, i), [provider(i)]);
    OneReport(f, provider(i));
    ReportGrows(f, provider, i + 1, n);
  }

  lemma {:induction false} ReportGrows(f: Fields, provider: nat -> Answer, i: nat, n: nat)
    requires i <= n
    ensures Report(f, Asked(provider, 0, i)) <= Report(f, Asked(provider, 0, n))
    decreases n - i
  {
    if i < n {
      AskedSnoc(provider, 0, n - 1);
      ReportAppend(f, Asked(provider, 0, n - 1), [provider(n - 1)]);
      ReportGrows(f, provider, i, n - 1);
    }
  }

  // ---- Reading the reports back --------------------------------------------------------------------

  datatype Entry = Entry(scope: string, name: string, value: string)

  /** The entries up to "end", and the lines after it. */
  function ParseEntries(lines: seq<string>): Option<(seq<Entry>, seq<string>)> {
    if lines == [] then None
    else if lines[0] == "end" then Some(([], lines[1..]))
    else
      var parts := Split(lines[0], ':');
      var more := ParseEntries(lines[1..]);
      if |parts| != 3 || more == None then None
      else Some(([Entry(parts[0], parts[1], parts[2])] + more.value.0, more.value.1))
  }

  lemma {:induction false} ParseShrinks(lines: seq<string>)
    ensures ParseEntries(lines) != None ==> |ParseEntries(lines).value.1| < |lines|
  {
    if lines != [] && lines[0] != "end" {
      ParseShrinks(lines[1..]);
    }
  }

  /** The frames of an output, each the list of its entries; None when it is not a list of frames. */
  function ParseFrames(lines: seq<string>): Option<seq<seq<Entry>>>
    decreases |lines|
  {
    if lines == [] then Some([])
    else if lines[0] != "begin" then None
    else
      var frame := ParseEntries(lines[1..]);
      if frame == None then None
      else
        ParseShrinks(lines[1..]);
        var more := ParseFrames(frame.value.1);
        if more == None then None else Some([frame.value.0] + more.value)
  }

  function FrameOf(f: Fields, a: Answer): seq<Entry> {
    [Entry(f.scope, f.resource, ReadyText(a))]
    + if f.slots == "" then [] else [Entry(f.scope, f.slots, Itoa(SlotCount(a)))]
  }

  function FramesOf(f: Fields, answers: seq<Answer>): seq<seq<Entry>> {
    if answers == [] then [] else [FrameOf(f, answers[0])] + FramesOf(f, answers[1..])
  }

  lemma FieldChars(s: string)
    requires ValidField(s)
    ensures ':' !in s && '\n' !in s
  {
    forall i | 0 <= i < |s|
      ensures !Unprintable(s[i])
    {
    }
  }

  lemma SplitThree(a: string, b: string, c: string, s: char)
    requires s !in a && s !in b && s !in c
    ensures Split(a + [s] + (b + [s] + c), s) == [a, b, c]
  {
    SplitHead(a, s, b + [s] + c);
    SplitHead(b, s, c);
    SplitNone(c, s);
    assert [a] + ([b] + [c]) == [a, b, c];
  }

  lemma NotIn(a: string, b: string, c: string, x: char)
    requires x !in a && x !in b && x !in c && x != ':'
    ensures x !in EntryText(a, b, c)
  {
  }

  lemma EntryLine(scope: string, name: string, value: string)
    requires ValidField(scope) && ValidField(name) && ':' !in value && '\n' !in value
    ensures Split(EntryText(scope, name, value), ':') == [scope, name, value]
    ensures '\n' !in EntryText(scope, name, value) && EntryText(scope, name, value) != "end"
  {
    FieldChars(scope);
    FieldChars(name);
    EntryShape(scope, name, value);
    SplitThree(scope, name, value, ':');
    NotIn(scope, name, value, '\n');
    SplitNone("end", ':');
  }

  lemma EntryShape(a: string, b: string, c: string)
    ensures EntryText(a, b, c) == a + [':'] + (b + [':'] + c)
  {
  }

  lemma ValuesPlain(a: Answer)
    ensures ':' !in ReadyText(a) && '\n' !in ReadyText(a) && ':' !in Itoa(SlotCount(a)) && '\n' !in Itoa(SlotCount(a))
  {
    ItoaPlain(SlotCount(a));
  }

  lemma ParseStep(line: string, e: Entry, rest: seq<string>)
    requires line != "end" && Split(line, ':') == [e.scope, e.name, e.value] && ParseEntries(rest) != None
    ensures ParseEntries([line] + rest) == Some(([e] + ParseEntries(rest).value.0, ParseEntries(rest).value.1))
  {
    assert ([line] + rest)[1..] == rest;
  }

  lemma ParseEnd(rest: seq<string>)
    ensures ParseEntries(["end"] + rest) == Some(([], rest))
  {
    assert (["end"] + rest)[1..] == rest;
  }

  lemma ParseOne(f: Fields, a: Answer, rest: seq<string>)
    requires ValidFields(f) && f.slots == ""
    ensures ParseEntries(FrameLines(f, a)[1..] + rest) == Some((FrameOf(f, a), rest))
  {
    var first := EntryText(f.scope, f.resource, ReadyText(a));
    var e := Entry(f.scope, f.resource, ReadyText(a));
    ValuesPlain(a);
    EntryLine(f.scope, f.resource, ReadyText(a));
    ParseEnd(rest);
    FrameEnd(f, a, first, rest);
    ParseStep(first, e, ["end"] + rest);
    assert [e] + [] == [e];
  }

  lemma FrameEnd(f: Fields, a: Answer, first: string, rest: seq<string>)
    requires f.slots == "" && first == EntryText(f.scope, f.resource, ReadyText(a))
    ensures FrameLines(f, a)[1..] + rest == [first] + (["end"] + rest)
  {
    assert FrameLines(f, a) == ["begin", first, "end"];
  }

  lemma ParseTwo(f: Fields, a: Answer, rest: seq<string>)
    requires ValidFields(f) && f.slots != ""
    ensures ParseEntries(FrameLines(f, a)[1..] + rest) == Some((FrameOf(f, a), rest))
  {
    var first, second := EntryText(f.scope, f.resource, ReadyText(a)), EntryText(f.scope, f.slots, Itoa(SlotCount(a)));
    var e1, e2 := Entry(f.scope, f.resource, ReadyText(a)), Entry(f.scope, f.slots, Itoa(SlotCount(a)));
    ValuesPlain(a);
    EntryLine(f.scope, f.resource, ReadyText(a));
    EntryLine(f.scope, f.slots, Itoa(SlotCount(a)));
    ParseEnd(rest);
    FrameTail(f, a, first, second, rest);
    ParseStep(second, e2, ["end"] + rest);
    ParseStep(first, e1, [second] + (["end"] + rest));
    assert [e1] + ([e2] + []) == [e1] + [e2];
  }

  lemma ParseFrame(f: Fields, a: Answer, rest: seq<string>)
    requires ValidFields(f)
    ensures ParseEntries(FrameLines(f, a)[1..] + rest) == Some((FrameOf(f, a), rest))
  {
    if f.slots == "" {
      ParseOne(f, a, rest);
    } else {
      ParseTwo(f, a, rest);
    }
  }

  lemma FrameTail(f: Fields, a: Answer, first: string, second: string, rest: seq<string>)
    requires f.slots != "" && first == EntryText(f.scope, f.resource, ReadyText(a))
    requires second == EntryText(f.scope, f.slots, Itoa(SlotCount(a)))
    ensures FrameLines(f, a)[1..] + rest == [first] + ([second] + (["end"] + rest))
  {
    assert FrameLines(f, a) == ["begin", first, second, "end"];
  }

  lemma FrameFree(f: Fields, a: Answer)
    requires ValidFields(f)
    ensures Free(FrameLines(f, a), '\n')
  {
    ValuesPlain(a);
    EntryLine(f.scope, f.resource, ReadyText(a));
    BracketsFree(EntryText(f.scope, f.resource, ReadyText(a)));
    if f.slots != "" {
      EntryLine(f.scope, f.slots, Itoa(SlotCount(a)));
    }
  }

  lemma BracketsFree(line: string)
    requires '\n' !in line
    ensures Free(["begin", line], '\n') && Free(["end"], '\n')
  {
    assert '\n' !in "begin" && '\n' !in "end";
  }

  lemma {:induction false} ReportFree(f: Fields, answers: seq<Answer>)
    requires ValidFields(f)
    ensures Free(ReportLines(f, answers), '\n')
  {
    if answers != [] {
      FrameFree(f, answers[0]);
      ReportFree(f, answers[1..]);
    }
  }

  lemma FrameFirst(lines: seq<string>, frame: seq<Entry>, rest: seq<string>)
    requires lines != [] && lines[0] == "begin" && ParseEntries(lines[1..]) == Some((frame, rest))
    requires ParseFrames(rest) != None
    ensures ParseFrames(lines) == Some([frame] + ParseFrames(rest).value)
  {
  }

  lemma ParseNext(f: Fields, a: Answer, rest: seq<string>)
    requires ValidFields(f) && ParseFrames(rest) != None
    ensures ParseFrames(FrameLines(f, a) + rest) == Some([FrameOf(f, a)] + ParseFrames(rest).value)
  {
    FrameHead(f, a);
    HeadTail(FrameLines(f, a), rest);
    ParseFrame(f, a, rest);
    FrameFirst(FrameLines(f, a) + rest, FrameOf(f, a), rest);
  }

  lemma FrameHead(f: Fields, a: Answer)
    ensures FrameLines(f, a) != [] && FrameLines(f, a)[0] == "begin"
  {
  }

  lemma HeadTail(a: seq<string>, b: seq<string>)
    requires a != []
    ensures (a + b)[0] == a[0] && (a + b)[1..] == a[1..] + b
  {
  }

  lemma {:induction false} ParseReport(f: Fields, answers: seq<Answer>)
    requires ValidFields(f)
    ensures ParseFrames(ReportLines(f, answers)) == Some(FramesOf(f, answers))
  {
    if answers != [] {
      ParseReport(f, answers[1..]);
      ParseNext(f, answers[0], ReportLines(f, answers[1..]));
    }
  }

  /** The output reads as one frame per cycle, carrying that cycle's readiness and slot count. */
  lemma FramesRecovered(f: Fields, answers: seq<Answer>)
    requires ValidFields(f)
    ensures ParseFrames(Lines(Report(f, answers))) == Some(FramesOf(f, answers))
  {
    ParseReport(f, answers);
    ReportFree(f, answers);
    LinesUnlines(ReportLines(f, answers));
  }

  lemma {:induction false} FramesAt(f: Fields, answers: seq<Answer>, k: nat)
    requires k < |answers|
    ensures |FramesOf(f, answers)| == |answers| && FramesOf(f, answers)[k] == FrameOf(f, answers[k])
  {
    if k > 0 {
      FramesAt(f, answers[1..], k - 1);
    } else if |answers| > 1 {
      FramesAt(f, answers[1..], 0);
    }
  }

  /** Same output, same cycles: the number of cycles, each readiness, and each reported slot count. */
  lemma ReportsUnique(f: Fields, a: seq<Answer>, b: seq<Answer>)
    requires ValidFields(f) && Report(f, a) == Report(f, b)
    ensures |a| == |b|
    ensures forall k :: 0 <= k < |a|
              ==> Shown(a[k]).ready == Shown(b[k]).ready && (f.slots != "" ==> SlotCount(a[k]) == SlotCount(b[k]))
  {
    FramesRecovered(f, a);
    FramesRecovered(f, b);
    FramesCount(f, a);
    FramesCount(f, b);
    forall k | 0 <= k < |a|
      ensures Shown(a[k]).ready == Shown(b[k]).ready && (f.slots != "" ==> SlotCount(a[k]) == SlotCount(b[k]))
    {
      FramesAt(f, a, k);
      FramesAt(f, b, k);
      SameFrame(f, a[k], b[k]);
    }
  }

  lemma {:induction false} FramesCount(f: Fields, answers: seq<Answer>)
    ensures |FramesOf(f, answers)| == |answers|
  {
    if answers != [] {
      FramesCount(f, answers[1..]);
    }
  }

  lemma SameFrame(f: Fields, a: Answer, b: Answer)
    requires FrameOf(f, a) == FrameOf(f, b)
    ensures Shown(a).ready == Shown(b).ready && (f.slots != "" ==> SlotCount(a) == SlotCount(b))
  {
    assert FrameOf(f, a)[0] == FrameOf(f, b)[0];
    if f.slots != "" {
      assert FrameOf(f, a)[1] == FrameOf(f, b)[1];
      ItoaInjective(SlotCount(a), SlotCount(b));
    }
  }

  /** A provider error reports 0 and 0, and no consistent provider offers slots while it is not ready. */
  lemma NotReadyNoSlots(f: Fields, answers: seq<Answer>, k: nat)
    requires ValidFields(f) && k < |answers|
    ensures var frames := ParseFrames(Lines(Report(f, answers)));
            && frames != None && k < |frames.value| && frames.value[k] != []
            && frames.value[k][0] == Entry(f.scope, f.resource, ReadyText(answers[k]))
            && (f.slots != "" ==> |frames.value[k]| == 2)
            && (answers[k] == None || (Consistent(answers[k]) && frames.value[k][0].value == "0") ==>
                frames.value[k][0].value == "0" && (f.slots != "" ==> frames.value[k][1] == Entry(f.scope, f.slots, "0")))
  {
    FramesRecovered(f, answers);
    FramesAt(f, answers, k);
    assert Itoa(0) == "0";
  }

  // ---- The text of a report ----

  /** What one cycle prints: readiness as 1 or 0, and the slots of an answer that gives them, if they are reported. */
  function Printed(f: Fields, a: Answer): string {
    "begin\n" + f.scope + ":" + f.resource + ":" + (if a != None && a.value.ready then "1" else "0") + "\n"
    + (if f.slots == "" then ""
       else f.scope + ":" + f.slots + ":"
            + (if a != None && a.value.slots != None && a.value.slots.value > 0 then Itoa(a.value.slots.value) else "0") + "\n")
    + "end\n"
  }

  lemma PrintedIs(f: Fields, a: Answer)
    ensures Unlines(FrameLines(f, a)) == Printed(f, a)
  {
    FrameText(f, a);
    ZeroText();
    var head := f.scope + ":" + f.resource + ":" + ReadyText(a);
    assert "begin\n" + head + "\n" == "begin\n" + f.scope + ":" + f.resource + ":" + ReadyText(a) + "\n";
  }

  lemma ZeroText()
    ensures Itoa(0) == "0"
  {
  }

  /** A report is the frames of its cycles, one after the other. */
  lemma ReportText(f: Fields, answers: seq<Answer>)
    ensures Report(f, answers) == if answers == [] then "" else Printed(f, answers[0]) + Report(f, answers[1..])
  {
    if answers != [] {
      PrintedIs(f, answers[0]);
      UnlinesAppend(FrameLines(f, answers[0]), ReportLines(f, answers[1..]));
    }
  }

  /** The provider is asked once for each cycle, in order. */
  lemma {:induction false} AskedAt(provider: nat -> Answer, from: nat, n: nat, k: nat)
    ensures |Asked(provider, from, n)| == n && (k < n ==> Asked(provider, from, n)[k] == provider(from + k))
    decreases n
  {
    if n > 0 {
      AskedAt(provider, from + 1, n - 1, if k > 0 then k - 1 else 0);
    }
  }

  /** Every line before the first one that says "quit" is a cycle. */
  lemma {:induction false} CyclesAre(lines: seq<string>)
    ensures var n := Cycles(lines);
            n <= |lines| && (forall k :: 0 <= k < n ==> TrimSpace(lines[k]) != "quit") && (n < |lines| ==> TrimSpace(lines[n]) == "quit")
  {
    if lines != [] && !IsQuit(lines[0]) {
      CyclesAre(lines[1..]);
    }
  }

  /** A warden that says it is accessible offers the slots it names, if any, unless their number is negative; one that
      says it is not offers none, and any other reply is an error. */
  lemma WardenAnswers(isAccessible: Option<bool>, slots: Option<int>)
    ensures WardenStatus(NoReply) == WardenStatus(HttpError) == WardenStatus(Malformed) == None
    ensures WardenStatus(Body(isAccessible, slots))
            == match isAccessible
               case None => None
               case Some(false) => Some(Status(false, Some(0)))
               case Some(true) => if slots != None && slots.value < 0 then None else Some(Status(true, slots))
  {
  }

  /** A static provider answers with its configured state, or with the state file's "1" or "0" and nothing else. */
  lemma StaticAnswers(stateFile: string, ready: bool, content: Option<string>)
    ensures var a := StaticStatus(stateFile, ready, content);
            if TrimSpace(stateFile) == "" then a == Some(Status(ready, None))
            else if content != None && TrimSpace(content.value) in ["0", "1"] then a == Some(Status(TrimSpace(content.value) == "1", None))
            else a == None
  {
  }
}

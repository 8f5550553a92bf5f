/** When the C and Go prologs find the same request in the same scheduler output. */
module RequestAgreement {
  import opened FieldReader
  import opened FieldReaderC
  import opened CBuffer
  import opened Text
  import opened Wrappers

  /** What the C prolog looks up: nothing when the field is absent. */
  function RequestedC(text: string, field: string, name: string): Option<string> {
    var list := FieldValueC(text, field);
    if list == None then None else ResourceFromListC(list.value, name)
  }

  /** The loop of read_job_requested_resource over the two hard fields. */
  function ParseJobRequestedResourceC(text: string, name: string): Option<string> {
    var hard := RequestedC(text, HARD, name);
    if hard != None then hard else RequestedC(text, MASTER_HARD, name)
  }

  /** Scheduler output that both readers see as the same lines. */
  predicate Plain(text: string) {
    && Ascii(text) && '\r' !in text && NUL !in text
    && forall line <- Lines(text) :: ByteLen(line) < SCAN_LIMIT
  }

  // ---- Values: the C value is the Go value without its blanks ------------------------

  function Strip(s: string): string {
    if s == "" then "" else (if IsSpaceC(s[0]) then "" else [s[0]]) + Strip(s[1..])
  }

  lemma {:induction false} StripAppend(a: string, b: string)
    ensures Strip(a + b) == Strip(a) + Strip(b)
  {
    if a == "" {
      assert a + b == b;
    } else {
      assert (a + b)[1..] == a[1..] + b;
      StripAppend(a[1..], b);
    }
  }

  lemma {:induction false} SqueezeIsStrip(s: string)
    ensures Squeeze(s) == Strip(NoBackslash(s))
  {
    if s != "" {
      SqueezeIsStrip(s[1..]);
      StripAppend(if s[0] == '\\' then "" else [s[0]], NoBackslash(s[1..]));
    }
  }

  lemma {:induction false} StripBlank(s: string)
    requires All(IsSpace, s) && Ascii(s)
    ensures Strip(s) == "" && Squeeze(s) == ""
  {
    if s != "" {
      StripBlank(s[1..]);
    }
  }

  lemma TrimInside(s: string)
    requires Ascii(s)
    ensures Strip(TrimSpace(s)) == Strip(s) && Squeeze(TrimSpace(s)) == Squeeze(s) && Ascii(TrimSpace(s))
  {
    var l, r := TrimParts(IsSpace, s);
    var m := TrimSpace(s);
    assert Ascii(l) && Ascii(m) && Ascii(r) by {
      forall i | 0 <= i < |l| ensures l[i] == s[i] {}
      forall i | 0 <= i < |m| ensures m[i] == s[|l| + i] {}
      forall i | 0 <= i < |r| ensures r[i] == s[|l| + |m| + i] {}
    }
    StripBlank(l);
    StripBlank(r);
    StripAppend(l + m, r);
    StripAppend(l, m);
    SqueezeAppend(l + m, r);
    SqueezeAppend(l, m);
  }

  lemma {:induction false} PlainLines(text: string)
    requires Ascii(text) && '\r' !in text
    ensures forall line <- Lines(text) :: Ascii(line) && '\r' !in line
    decreases |text|
  {
    if text != "" {
      var i := IndexOf(text, '\n');
      assert forall k :: 0 <= k < i ==> text[..i][k] == text[k];
      if i < |text| {
        PlainLines(text[i + 1..]);
      }
    }
  }

  lemma {:induction false} ScannedPlain(lines: seq<string>)
    requires forall line <- lines :: '\r' !in line && ByteLen(line) < SCAN_LIMIT
    ensures ScannedLines(lines) == lines
  {
    if lines != [] {
      assert lines[0] in lines;
      assert forall line <- lines[1..] :: line in lines;
      ScannedPlain(lines[1..]);
    }
  }

  lemma {:induction false} ContinuedAgree(lines: seq<string>)
    requires forall line <- lines :: Ascii(line)
    ensures ContinuedC(lines) == Squeeze(Continued(lines))
  {
    if lines != [] && Indented(lines[0]) {
      assert lines[0] in lines;
      assert forall line <- lines[1..] :: line in lines;
      ContinuedAgree(lines[1..]);
      TrimInside(lines[0]);
      SqueezeAppend(TrimSpace(lines[0]), Continued(lines[1..]));
    }
  }

  lemma {:induction false} CollectedAgree(lines: seq<string>, field: string)
    requires forall line <- lines :: Ascii(line)
    ensures var c := CollectedC(lines, field);
            if c == None then Collected(lines, field) == "" else c.value == Squeeze(Collected(lines, field))
  {
    if lines != [] {
      assert lines[0] in lines;
      assert forall line <- lines[1..] :: line in lines;
      if Starts(lines[0], field) {
        var rest := lines[0][|field|..];
        assert Ascii(rest);
        ContinuedAgree(lines[1..]);
        TrimInside(rest);
        SqueezeAppend(TrimSpace(rest), Continued(lines[1..]));
      } else {
        CollectedAgree(lines[1..], field);
      }
    }
  }

  /** Copying without blanks gives the Go value with every blank removed. */
  lemma ValuesAgree(text: string, field: string)
    requires Plain(text)
    ensures var c := FieldValueC(text, field);
            if c == None then FieldValue(text, field) == "" else c.value == Strip(FieldValue(text, field))
  {
    PlainLines(text);
    ScannedPlain(Lines(text));
    CollectedAgree(Lines(text), field);
    SqueezeIsStrip(Collected(Lines(text), field));
  }

  // ---- Lists ------------------------------------------------------------------------

  function StripAll(parts: seq<string>): seq<string> {
    if parts == [] then [] else [Strip(parts[0])] + StripAll(parts[1..])
  }

  lemma {:induction false} StripKeeps(s: string, c: char)
    requires !IsSpaceC(c)
    ensures c in Strip(s) <==> c in s
  {
    if s != "" {
      assert s == [s[0]] + s[1..];
      StripKeeps(s[1..], c);
    }
  }

  lemma {:induction false} StripJoin(parts: seq<string>)
    requires parts != [] && Free(parts, ',')
    ensures Strip(Join(parts, ",")) == Join(StripAll(parts), ",") && Free(StripAll(parts), ',')
    ensures StripAll(parts) != []
  {
    StripKeeps(parts[0], ',');
    if |parts| > 1 {
      StripJoin(parts[1..]);
      StripAppend(parts[0] + ",", Join(parts[1..], ","));
      StripAppend(parts[0], ",");
      assert Strip(",") == ",";
      assert StripAll(parts)[1..] == StripAll(parts[1..]);
    }
  }

  lemma SplitStrip(s: string)
    ensures Split(Strip(s), ',') == StripAll(Split(s, ','))
  {
    JoinSplit(s, ',');
    StripJoin(Split(s, ','));
    SplitJoin(StripAll(Split(s, ',')), ',');
  }

  function Stripped(items: seq<(string, string)>): seq<(string, string)> {
    if items == [] then [] else [(Strip(items[0].0), Strip(items[0].1))] + Stripped(items[1..])
  }

  lemma {:induction false} StripBare(s: string)
    ensures NoneOf(IsSpaceC, Strip(s)) && (NoneOf(IsSpaceC, s) <==> Strip(s) == s)
  {
    if s != "" {
      StripBare(s[1..]);
      assert s == [s[0]] + s[1..];
      assert NoneOf(IsSpaceC, s) ==> NoneOf(IsSpaceC, s[1..]);
    }
  }

  lemma TrimStripped(s: string)
    ensures TrimC(Strip(s)) == Strip(s)
  {
    StripBare(s);
    assert "" + Strip(s) + "" == Strip(s);
    TrimUnique(IsSpaceC, "", Strip(s), "");
  }

  lemma StripPair(a: string, b: string)
    requires '=' !in a
    ensures Strip(a + ['='] + b) == Strip(a) + ['='] + Strip(b) && '=' !in Strip(a)
  {
    StripAppend(a + ['='], b);
    StripAppend(a, ['=']);
    assert Strip(['=']) == ['='];
    StripKeeps(a, '=');
  }

  lemma CutParts(item: string)
    ensures var (key, value, ok) := Cut(item, '=');
            && '=' !in key && (ok <==> '=' in item)
            && item == if ok then key + ['='] + value else key
  {
  }

  lemma StripCut(item: string)
    ensures var (key, value, ok) := Cut(item, '=');
            Cut(Strip(item), '=') == (Strip(key), Strip(value), ok)
  {
    var (key, value, ok) := Cut(item, '=');
    CutParts(item);
    StripKeeps(item, '=');
    if ok {
      StripPair(key, value);
      CutAppend(Strip(key), '=', Strip(value));
    }
  }

  lemma EmptyTrim(s: string)
    requires Ascii(s)
    ensures TrimSpace(s) == "" <==> Strip(s) == ""
  {
    TrimInside(s);
    var l, r := TrimParts(IsSpace, s);
    if TrimSpace(s) != "" {
      assert Strip(TrimSpace(s))[0] == TrimSpace(s)[0];
    }
  }

  lemma CItem(item: string, name: string)
    requires Ascii(item)
    ensures ItemValueC(Strip(item), name)
            == if Binding(item) != None && Strip(Binding(item).value.0) == name
               then Some(Strip(Binding(item).value.1)) else None
  {
    StripCut(item);
    var (key, value, ok) := Cut(item, '=');
    assert Ascii(key) && Ascii(value);
    TrimStripped(key);
    TrimStripped(value);
    TrimInside(key);
    TrimInside(value);
    EmptyTrim(value);
  }

  lemma {:induction false} CFirst(items: seq<string>, name: string)
    requires forall item <- items :: Ascii(item)
    ensures FirstValueC(NonEmpty(StripAll(items)), name) == First(Stripped(Bindings(items)), name)
  {
    if items != [] {
      assert items[0] in items;
      assert forall item <- items[1..] :: item in items;
      CItem(items[0], name);
      CFirst(items[1..], name);
      FirstStripped(Binding(items[0]), Bindings(items[1..]), name);
      SkipEmpty(Strip(items[0]), StripAll(items[1..]), name);
    }
  }

  /** Empty tokens are dropped, and would give no value. */
  lemma SkipEmpty(head: string, tail: seq<string>, name: string)
    ensures FirstValueC(NonEmpty([head] + tail), name)
            == if ItemValueC(head, name) != None then ItemValueC(head, name) else FirstValueC(NonEmpty(tail), name)
  {
    assert ([head] + tail)[1..] == tail;
    if head == "" {
      assert [] + NonEmpty(tail) == NonEmpty(tail);
    } else {
      assert ([head] + NonEmpty(tail))[1..] == NonEmpty(tail);
    }
  }

  lemma FirstStripped(b: Option<(string, string)>, rest: seq<(string, string)>, name: string)
    ensures First(Stripped((if b == None then [] else [b.value]) + rest), name)
            == if b != None && Strip(b.value.0) == name then Some(Strip(b.value.1)) else First(Stripped(rest), name)
  {
    if b == None {
      assert [] + rest == rest;
    } else {
      var all := [b.value] + rest;
      assert all[0] == b.value && all[1..] == rest;
      assert Stripped(all)[1..] == Stripped(rest);
    }
  }

  lemma {:induction false} AsciiSplit(s: string)
    requires Ascii(s)
    ensures forall part <- Split(s, ',') :: Ascii(part)
    decreases |s|
  {
    var i := IndexOf(s, ',');
    assert forall k :: 0 <= k < i ==> s[..i][k] == s[k];
    if i < |s| {
      AsciiSplit(s[i + 1..]);
    }
  }

  lemma ListsAgree(list: string, name: string)
    requires Ascii(list)
    ensures ResourceFromList(list, name) == First(Bindings(Split(list, ',')), name)
    ensures ResourceFromListC(Strip(list), name) == First(Stripped(Bindings(Split(list, ','))), name)
  {
    GoFirst(Split(list, ','), name);
    TokensAreSplit(Strip(list), ',');
    SplitStrip(list);
    AsciiSplit(list);
    CFirst(Split(list, ','), name);
  }

  // ---- The exact condition ---------------------------------------------------------------

  predicate Unspaced(s: string) {
    NoneOf(IsSpaceC, s)
  }

  /** No blank inside a trimmed key, nor inside the first trimmed value of a key. */
  predicate Tight(items: seq<(string, string)>) {
    forall i :: 0 <= i < |items| ==> TightAt(items, i)
  }

  predicate TightAt(items: seq<(string, string)>, i: nat)
    requires i < |items|
  {
    Unspaced(items[i].0) && (First(items[..i], items[i].0) == None ==> Unspaced(items[i].1))
  }

  lemma {:induction false} FirstSplit(items: seq<(string, string)>, i: nat, name: string)
    requires i <= |items|
    ensures First(items, name)
            == if First(items[..i], name) != None then First(items[..i], name) else First(items[i..], name)
  {
    if i > 0 {
      FirstSplit(items[1..], i - 1, name);
      assert items[..i][1..] == items[1..][..i - 1];
      assert items[1..][i - 1..] == items[i..];
    } else {
      assert items[..0] == [] && items[0..] == items;
    }
  }

  lemma {:induction false} StrippedAt(items: seq<(string, string)>)
    ensures |Stripped(items)| == |items|
    ensures forall i :: 0 <= i < |items| ==> Stripped(items)[i] == (Strip(items[i].0), Strip(items[i].1))
  {
    if items != [] {
      StrippedAt(items[1..]);
    }
  }

  lemma {:induction false} FirstWitness(items: seq<(string, string)>, name: string) returns (i: nat)
    ensures First(items, name) == None <==> i == |items|
    ensures i <= |items| && forall k :: 0 <= k < i ==> items[k].0 != name
    ensures i < |items| ==> items[i].0 == name && First(items, name) == Some(items[i].1)
  {
    i := 0;
    if items != [] && items[0].0 != name {
      i := FirstWitness(items[1..], name);
      i := i + 1;
    }
  }

  lemma TightAgrees(items: seq<(string, string)>, name: string)
    requires Tight(items)
    ensures First(items, name) == First(Stripped(items), name)
  {
    StrippedAt(items);
    var i := FirstWitness(items, name);
    var j := FirstWitness(Stripped(items), name);
    forall k | 0 <= k < |items|
      ensures Stripped(items)[k].0 == items[k].0
    {
      assert TightAt(items, k);
      StripBare(items[k].0);
    }
    assert i == j;
    if i < |items| {
      assert TightAt(items, i);
      var f := FirstWitness(items[..i], name);
      StripBare(items[i].1);
    }
  }

  /** A pair that breaks the condition gives a name the two lookups disagree on. */
  lemma LooseDiffers(items: seq<(string, string)>, i: nat) returns (name: string)
    requires i < |items| && !TightAt(items, i)
    ensures First(items, name) != First(Stripped(items), name)
  {
    name := items[i].0;
    StrippedAt(items);
    var a := FirstWitness(items, name);
    var b := FirstWitness(Stripped(items), name);
    if !Unspaced(name) {
      if b < |items| {
        StripBare(items[b].0);
      }
    } else {
      var f := FirstWitness(items[..i], name);
      assert forall k :: 0 <= k < i ==> items[k] == items[..i][k];
      StripBare(items[i].1);
      if b < |items| {
        StripBare(items[b].1);
      }
    }
  }

  /** A name on which the lookups in a list and in the list without blanks disagree, or none if it is tight. */
  lemma Disagreement(items: seq<(string, string)>) returns (name: string)
    ensures Tight(items) ==> forall n :: First(items, n) == First(Stripped(items), n)
    ensures !Tight(items) ==> First(items, name) != First(Stripped(items), name)
  {
    name := "";
    if Tight(items) {
      forall n
        ensures First(items, n) == First(Stripped(items), n)
      {
        TightAgrees(items, n);
      }
    } else {
      var i: nat :| i < |items| && !TightAt(items, i);
      name := LooseDiffers(items, i);
    }
  }

  /** Both prologs find the same value for every resource name exactly when no blank stands
      inside a key or inside the value first given to a key. */
  lemma RequestsAgree(text: string, field: string)
    requires Plain(text)
    ensures (forall name :: Requested(text, field, name) == RequestedC(text, field, name))
            <==> Tight(Bindings(Split(FieldValue(text, field), ',')))
  {
    var items := Bindings(Split(FieldValue(text, field), ','));
    forall name
      ensures Requested(text, field, name) == First(items, name)
      ensures RequestedC(text, field, name) == First(Stripped(items), name)
    {
      FieldLookups(text, field, name);
    }
    var name := Disagreement(items);
  }

  /** The C prolog, too, finds the first value of every name in any layout, exactly when no blank
      stands inside a key or inside the value first given to a key. */
  lemma {:induction false} LayoutIndependenceC(before: seq<string>, field: string, pieces: seq<Piece>, after: seq<string>,
                                               items: seq<(string, string)>)
    requires Layout(before, field, pieces, after) && Plain(Unlines(before + Block(field, pieces) + after))
    requires items != [] && (forall i :: 0 <= i < |items| ==> IsItem(items[i]))
    requires Bodies(pieces) == Join(ItemTexts(items), ",")
    ensures (forall name :: RequestedC(Unlines(before + Block(field, pieces) + after), field, name) == First(Trimmed(items), name))
            <==> Tight(Trimmed(items))
  {
    var text := Unlines(before + Block(field, pieces) + after);
    LayoutBindings(before, field, pieces, after, items);
    RequestsAgree(text, field);
    forall name
      ensures Requested(text, field, name) == First(Trimmed(items), name)
    {
      LayoutIndependence(before, field, pieces, after, items, name);
    }
  }

  lemma {:induction false} AsciiCollected(lines: seq<string>, field: string)
    requires forall line <- lines :: Ascii(line)
    ensures Ascii(Collected(lines, field)) && Ascii(Continued(lines))
  {
    if lines != [] {
      assert lines[0] in lines;
      assert forall line <- lines[1..] :: line in lines;
      AsciiCollected(lines[1..], field);
      TrimInside(lines[0]);
      if Starts(lines[0], field) {
        TrimInside(lines[0][|field|..]);
      }
    }
  }

  lemma {:induction false} AsciiNoBackslash(s: string)
    requires Ascii(s)
    ensures Ascii(NoBackslash(s))
  {
    if s != "" {
      AsciiNoBackslash(s[1..]);
    }
  }

  lemma PlainValue(text: string, field: string)
    requires Plain(text)
    ensures Ascii(FieldValue(text, field))
  {
    PlainLines(text);
    ScannedPlain(Lines(text));
    AsciiCollected(Lines(text), field);
    AsciiNoBackslash(Collected(Lines(text), field));
  }

  lemma FieldLookups(text: string, field: string, name: string)
    requires Plain(text)
    ensures var items := Bindings(Split(FieldValue(text, field), ','));
            && Requested(text, field, name) == First(items, name)
            && RequestedC(text, field, name) == First(Stripped(items), name)
  {
    ValuesAgree(text, field);
    PlainValue(text, field);
    ListsAgree(FieldValue(text, field), name);
    assert Strip("") == "" && Tokens("", ',') == [];
  }

  lemma {:induction false} FirstOfBoth(a: seq<(string, string)>, b: seq<(string, string)>, name: string)
    ensures First(a + b, name) == if First(a, name) != None then First(a, name) else First(b, name)
  {
    if a == [] {
      assert a + b == b;
    } else {
      assert (a + b)[1..] == a[1..] + b;
      FirstOfBoth(a[1..], b, name);
    }
  }

  lemma {:induction false} StrippedBoth(a: seq<(string, string)>, b: seq<(string, string)>)
    ensures Stripped(a + b) == Stripped(a) + Stripped(b)
  {
    if a == [] {
      assert a + b == b && [] + Stripped(b) == Stripped(b);
    } else {
      assert (a + b)[1..] == a[1..] + b;
      StrippedBoth(a[1..], b);
    }
  }

  /** What the hard list binds, and then the master task's. */
  function JobBindings(text: string): seq<(string, string)> {
    Bindings(Split(FieldValue(text, HARD), ',')) + Bindings(Split(FieldValue(text, MASTER_HARD), ','))
  }

  lemma JobLookups(text: string, name: string)
    requires Plain(text)
    ensures ParseJobRequestedResource(text, name) == First(JobBindings(text), name)
    ensures ParseJobRequestedResourceC(text, name) == First(Stripped(JobBindings(text)), name)
  {
    var hard, master := Bindings(Split(FieldValue(text, HARD), ',')), Bindings(Split(FieldValue(text, MASTER_HARD), ','));
    FieldLookups(text, HARD, name);
    FieldLookups(text, MASTER_HARD, name);
    StrippedBoth(hard, master);
    FirstOfBoth(hard, master, name);
    FirstOfBoth(Stripped(hard), Stripped(master), name);
  }

  /** The whole request, looked up in the hard list and then in the master task's: the prologs agree on
      every resource exactly when no blank stands inside a key or inside the value first given to a key in
      the two lists together. */
  lemma JobRequestsAgree(text: string)
    requires Plain(text)
    ensures (forall name :: ParseJobRequestedResource(text, name) == ParseJobRequestedResourceC(text, name))
            <==> Tight(JobBindings(text))
  {
    var items := JobBindings(text);
    forall name
      ensures ParseJobRequestedResource(text, name) == First(items, name)
      ensures ParseJobRequestedResourceC(text, name) == First(Stripped(items), name)
    {
      JobLookups(text, name);
    }
    var name := Disagreement(items);
  }

  /** A one-line answer whose value is the given item. */
  lemma OneItem(field: string, item: string)
    requires HasSuffix(field, ":") && Usual(field) && Usual(item) && ByteLen(field + " " + item) < SCAN_LIMIT
    requires item != "" && Bare(IsSpace, item)
    ensures var text := field + " " + item + "\n"; Plain(text) && FieldValue(text, field) == item
    ensures Split(item, ',') == [item]
  {
    UsualChars(field);
    UsualChars(item);
    OneLine(field + " " + item);
    OneValue(field, item);
    SplitNone(item, ',');
  }

  predicate Usual(s: string) {
    Ascii(s) && NoneOf(Unusual, s)
  }

  lemma {:induction false} UsualChars(s: string)
    requires Usual(s)
    ensures '\n' !in s && '\r' !in s && NUL !in s && '\\' !in s && ',' !in s
  {
    forall i | 0 <= i < |s|
      ensures !Unusual(s[i])
    {
    }
  }

  lemma OneLine(line: string)
    requires Ascii(line) && '\n' !in line && '\r' !in line && NUL !in line && ByteLen(line) < SCAN_LIMIT
    ensures Plain(line + "\n") && Lines(line + "\n") == [line]
  {
    assert line + "\n" == line + "\n" + "";
    LinesHead(line, "");
  }

  lemma OneValue(field: string, item: string)
    requires HasSuffix(field, ":") && item != "" && Bare(IsSpace, item) && '\\' !in item
    requires var line := field + " " + item;
             Lines(line + "\n") == [line] && Plain(line + "\n")
    ensures FieldValue(field + " " + item + "\n", field) == item
  {
    var line := field + " " + item;
    PlainLines(line + "\n");
    ScannedPlain([line]);
    assert line[|field|..] == " " + item + "";
    TrimUnique(IsSpace, " ", item, "");
    CollectedOne(line, field);
    NoBackslashPlain(item);
  }

  predicate Unusual(c: char) {
    c == '\n' || c == '\r' || c == NUL || c == '\\' || c == ','
  }

  lemma OneBinding(key: string, value: string)
    requires '=' !in key && Bare(IsSpace, key) && Bare(IsSpace, value) && value != ""
    ensures Bindings([key + "=" + value]) == [(key, value)]
  {
    CutAppend(key, '=', value);
    assert "" + key + "" == key && "" + value + "" == value;
    TrimUnique(IsSpace, "", key, "");
    TrimUnique(IsSpace, "", value, "");
    var items := [key + "=" + value];
    assert items[1..] == [];
    assert [(key, value)] + [] == [(key, value)];
  }

  /** A blank inside a value separates the readers, even in a single plain line. */
  lemma BlankInValue(field: string, key: string, value: string, k: nat)
    requires HasSuffix(field, ":") && Usual(field) && Usual(key) && Usual(value)
    requires ByteLen(field + " " + (key + "=" + value)) < SCAN_LIMIT
    requires key != "" && Bare(IsSpace, key) && '=' !in key
    requires Bare(IsSpace, value) && k < |value| && IsSpaceC(value[k])
    ensures var text := field + " " + (key + "=" + value) + "\n";
            Plain(text) && exists name :: Requested(text, field, name) != RequestedC(text, field, name)
  {
    var item := key + "=" + value;
    UsualItem(key, value);
    OneItem(field, item);
    OneBinding(key, value);
    var items := [(key, value)];
    assert items[0].1 == value && items[..0] == [];
    assert !TightAt(items, 0);
    RequestsAgree(field + " " + item + "\n", field);
  }

  lemma UsualItem(key: string, value: string)
    requires Usual(key) && Usual(value) && key != "" && value != "" && Bare(IsSpace, key) && Bare(IsSpace, value)
    ensures Usual(key + "=" + value) && Bare(IsSpace, key + "=" + value)
  {
  }

  lemma HardIsUsual()
    ensures Usual(HARD) && HasSuffix(HARD, ":") && |HARD| == 19
  {
  }

  /** The shortest such request puts the blank beside a second equals sign. */
  lemma SecondEquals()
    ensures var text := HARD + " " + ("a" + "=" + "b =c") + "\n";
            Plain(text) && exists name :: Requested(text, HARD, name) != RequestedC(text, HARD, name)
  {
    HardIsUsual();
    SecondEqualsIn(HARD, "a", "b =c");
  }

  lemma SecondEqualsIn(field: string, key: string, value: string)
    requires HasSuffix(field, ":") && Usual(field) && |field| < 50 && key == "a" && value == "b =c"
    ensures var text := field + " " + (key + "=" + value) + "\n";
            Plain(text) && exists name :: Requested(text, field, name) != RequestedC(text, field, name)
  {
    assert value[1] == ' ';
    Bytes(field + " " + (key + "=" + value));
    BlankInValue(field, key, value, 1);
  }

  lemma CollectedOne(line: string, field: string)
    requires Starts(line, field)
    ensures Collected([line], field) == TrimSpace(line[|field|..])
  {
    assert [line][1..] == [];
    assert TrimSpace(line[|field|..]) + "" == TrimSpace(line[|field|..]);
  }
}

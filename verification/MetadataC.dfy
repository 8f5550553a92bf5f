/** The C epilog's reader of the metadata file, and when it agrees with the Go reader. */
module MetadataC {
  import opened CBuffer
  import opened Decimal
  import opened Metadata
  import opened Text
  import opened Wrappers

  /** The line up to its first CR or LF. */
  function CutLine(s: string): (line: string)
    ensures |line| <= |s| && line == s[..|line|]
    ensures '\r' !in line && '\n' !in line
    ensures |line| < |s| ==> s[|line|] == '\r' || s[|line|] == '\n'
  {
    var t := s[..IndexOf(s, '\r')];
    t[..IndexOf(t, '\n')]
  }

  /** The record on a line, from the tab-separated non-empty pieces before its first NUL, CR or LF. */
  function RecordOf(line: string): Option<Record> {
    FromTokens(Tokens(CutLine(UntilNul(line)), '\t'))
  }

  function FromTokens(t: seq<string>): Option<Record> {
    if |t| < 3 then None
    else
      var typ := Strtol(t[1]);
      if typ == None || typ.value < 0 || typ.value > INT_MAX then None
      else if |t| < 4 then Some(Record(t[0], typ.value, t[2], 0))
      else
        var epoch := Strtol(t[3]);
        if epoch == None then None else Some(Record(t[0], typ.value, t[2], epoch.value))
  }

  /** Tokenises the line buffer in place. */
  method ParseRecordLine(line: array<char>) returns (r: Option<Record>)
    requires Terminated(line[..], 0)
    modifies line
    ensures r == RecordOf(old(CStr(line[..], 0)))
  {
    ghost var s := CStr(line[..], 0);
    CStrShape(line[..], 0);
    var end := 0;
    while line[end] != NUL && line[end] != '\r' && line[end] != '\n'
      invariant 0 <= end <= |s|
      invariant '\r' !in s[..end] && '\n' !in s[..end]
      invariant line[..] == old(line[..])
      decreases line.Length - end
    {
      assert s[..end + 1] == s[..end] + [s[end]];
      end := end + 1;
    }
    CutLineIs(s, end);
    line[end] := NUL;
    assert line[..][0..0 + end] == CutLine(s);
    CStrIs(line[..], 0, CutLine(s));
    r := ParseTokens(line);
  }

  lemma CutLineIs(s: string, n: nat)
    requires n <= |s| && '\r' !in s[..n] && '\n' !in s[..n]
    requires n < |s| ==> s[n] == '\r' || s[n] == '\n'
    ensures CutLine(s) == s[..n]
  {
    var m := |CutLine(s)|;
    forall k | 0 <= k < n
      ensures s[k] != '\r' && s[k] != '\n'
    {
      assert s[k] == s[..n][k];
    }
    forall k | 0 <= k < m
      ensures s[k] != '\r' && s[k] != '\n'
    {
      assert s[k] == CutLine(s)[k];
    }
  }

  method ParseTokens(line: array<char>) returns (r: Option<Record>)
    requires Terminated(line[..], 0)
    modifies line
    ensures r == FromTokens(Tokens(old(CStr(line[..], 0)), '\t'))
  {
    ghost var t := Tokens(CStr(line[..], 0), '\t');
    var name, typeText, token, epochText := FourTokens(line);
    if name == None || typeText == None || token == None {
      return None;
    }
    var typ := Strtol(CStr(line[..], typeText.value));
    if typ == None || typ.value < 0 || typ.value > INT_MAX {
      return None;
    }
    var epoch := 0;
    if epochText != None {
      var parsed := Strtol(CStr(line[..], epochText.value));
      if parsed == None {
        return None;
      }
      epoch := parsed.value;
    }
    r := Some(Record(CStr(line[..], name.value), typ.value, CStr(line[..], token.value), epoch));
  }

  ghost predicate Holds(buf: seq<char>, tok: Option<nat>, tokens: seq<string>, i: nat) {
    if i < |tokens| then tok != None && tok.value <= |buf| && CStr(buf, tok.value) == tokens[i] else tok == None
  }

  method FourTokens(line: array<char>) returns (a: Option<nat>, b: Option<nat>, c: Option<nat>, d: Option<nat>)
    requires Terminated(line[..], 0)
    modifies line
    ensures var t := Tokens(old(CStr(line[..], 0)), '\t');
            Holds(line[..], a, t, 0) && Holds(line[..], b, t, 1) && Holds(line[..], c, t, 2) && Holds(line[..], d, t, 3)
  {
    ghost var t := Tokens(CStr(line[..], 0), '\t');
    var next;
    a, next := NextToken(line, 0, '\t');
    ghost var s1, b1 := next, line[..];
    b, next := NextToken(line, next, '\t');
    ghost var s2, b2 := next, line[..];
    c, next := NextToken(line, next, '\t');
    ghost var s3, b3 := next, line[..];
    d, next := NextToken(line, next, '\t');
    KeptToken(b1, b2, b3, line[..], t, a, b, c, d, s1, s2, s3, next);
  }

  /** After four calls every token is still readable where it was found. */
  lemma KeptToken(b1: seq<char>, b2: seq<char>, b3: seq<char>, b4: seq<char>, t: seq<string>,
                  a: Option<nat>, b: Option<nat>, c: Option<nat>, d: Option<nat>,
                  s1: nat, s2: nat, s3: nat, s4: nat)
    requires Keeps(b1, b2, s1, s2) && Keeps(b2, b3, s2, s3) && Keeps(b3, b4, s3, s4)
    requires Scanned(b1, t, a, s1) && Scanned(b2, Rest(t, 1), b, s2)
    requires Scanned(b3, Rest(t, 2), c, s3) && Scanned(b4, Rest(t, 3), d, s4)
    ensures Holds(b4, a, t, 0) && Holds(b4, b, t, 1) && Holds(b4, c, t, 2) && Holds(b4, d, t, 3)
  {
    if |t| > 0 {
      Survives(b1, b2, a.value, t[0], s1, s2);
      Survives(b2, b3, a.value, t[0], s2, s3);
      Survives(b3, b4, a.value, t[0], s3, s4);
      TokenText(b4, a.value, t[0], s4);
    }
    if |t| > 1 {
      Survives(b2, b3, b.value, t[1], s2, s3);
      Survives(b3, b4, b.value, t[1], s3, s4);
      TokenText(b4, b.value, t[1], s4);
    }
    if |t| > 2 {
      Survives(b3, b4, c.value, t[2], s3, s4);
      TokenText(b4, c.value, t[2], s4);
    }
    if |t| > 3 {
      TokenText(b4, d.value, t[3], s4);
    }
  }

  function Rest(t: seq<string>, k: nat): seq<string> {
    if k <= |t| then t[k..] else []
  }

  /** The scan from the given lines on; `have` is the record read so far. */
  function ReadFrom(lines: seq<string>, have: Option<Record>): ReadResult {
    if lines == [] then (if have == None then Err(NoRecord) else Ok(have.value))
    else if lines[0] == "" || lines[0][0] == '\r' then ReadFrom(lines[1..], have)
    else if have != None then Err(MultipleRecords)
    else
      var rec := RecordOf(lines[0]);
      if rec == None then Err(Malformed) else ReadFrom(lines[1..], rec)
  }

  /** The getline loop of the C epilog's main. */
  method ReadRecords(text: string) returns (r: ReadResult)
    ensures r == ReadFrom(Lines(text), None)
  {
    var rest := text;
    var have: Option<Record> := None;
    while rest != ""
      invariant ReadFrom(Lines(text), None) == ReadFrom(Lines(rest), have)
      decreases |rest|
    {
      var i := IndexOf(rest, '\n');
      var line := rest[..i];
      ghost var lines := Lines(rest);
      rest := if i < |rest| then rest[i + 1..] else "";
      assert lines[0] == line && lines[1..] == Lines(rest);
      if line == "" || line[0] == '\r' {
        continue;
      }
      if have != None {
        return Err(MultipleRecords);
      }
      var buf := Copy(line);
      have := ParseRecordLine(buf);
      if have == None {
        return Err(Malformed);
      }
    }
    r := if have == None then Err(NoRecord) else Ok(have.value);
  }

  // ---- Agreement with the Go reader ----------------------------------------

  /** A line free of CR and NUL, with every field non-empty. */
  predicate Plain(body: string) {
    '\r' !in body && '\n' !in body && NUL !in body && forall f <- Split(body, '\t') :: f != ""
  }

  predicate SpaceLed(s: string) {
    s != "" && IsSpaceC(s[0])
  }

  /** The lines the readers disagree on: strtol skips blanks that strconv refuses,
      and an int holds less than Go's int. */
  predicate Diverges(fields: seq<string>) {
    && |fields| >= 3
    && Strtol(fields[1]) != None && Strtol(fields[1]).value >= 0
    && (|fields| >= 4 ==> Strtol(fields[3]) != None)
    && (Strtol(fields[1]).value <= INT_MAX <==> SpaceLed(fields[1]) || (|fields| >= 4 && SpaceLed(fields[3])))
  }

  lemma RecordOfPlain(body: string)
    requires Plain(body)
    ensures RecordOf(body) == FromTokens(Split(body, '\t'))
  {
    CutLineIs(body, |body|);
    assert body[..|body|] == body;
    TokensAreSplit(body, '\t');
    NonEmptyAll(Split(body, '\t'));
  }

  /** On a plain line the two parsers give the same answer if and only if the line does not diverge. */
  lemma LineAgreement(body: string)
    requires Plain(body)
    ensures RecordOf(body) == Metadata.ParseRecordLine(body) <==> !Diverges(Split(body, '\t'))
  {
    RecordOfPlain(body);
    var f := Split(body, '\t');
    if |f| >= 3 {
      StrtolVersusParseInt(f[1]);
      assert f[0] in f && f[1] in f && f[2] in f;
    }
    if |f| >= 4 {
      StrtolVersusParseInt(f[3]);
      assert f[3] in f;
    }
  }

  predicate Ending(s: string) {
    All(IsCR, s)
  }

  /** A line both readers handle alike: a plain body that does not diverge, ended by carriage returns. */
  ghost predicate Common(line: string, body: string) {
    && body <= line && Ending(line[|body|..]) && ByteLen(line) < LINE_LIMIT
    && (body != "" ==> Plain(body) && !Diverges(Split(body, '\t')))
  }

  lemma CommonLine(line: string, body: string)
    requires Common(line, body)
    ensures TrimRightBy(IsCR, line) == body
    ensures body == "" <==> line == "" || line[0] == '\r'
    ensures body != "" ==> RecordOf(line) == Metadata.ParseRecordLine(body)
  {
    var ending := line[|body|..];
    assert line == body + ending;
    TrimRightOf(IsCR, body, ending);
    if body == "" {
      assert line != "" ==> IsCR(ending[0]);
    } else {
      assert body[|body| - 1] in body;
      assert body[0] in body;
      assert forall k | |body| <= k < |line| :: line[k] == ending[k - |body|] && IsCR(ending[k - |body|]);
      CutLineIs(line, |body|);
      CutLineIs(body, |body|);
      assert CutLine(line) == body == CutLine(body);
      LineAgreement(body);
    }
  }

  /** The C and the Go reader agree on every file of such lines: the same record or the same refusal. */
  lemma {:induction false} ReadersAgree(lines: seq<string>, bodies: seq<string>, have: Option<Record>)
    requires |lines| == |bodies| && forall i :: 0 <= i < |lines| ==> Common(lines[i], bodies[i])
    ensures ReadFrom(lines, have) == ReadLines(lines, have)
  {
    if lines != [] {
      CommonLine(lines[0], bodies[0]);
      var rec := Metadata.ParseRecordLine(bodies[0]);
      ReadersAgree(lines[1..], bodies[1..], if bodies[0] == "" then have else rec);
    }
  }

  /** What the C reader can give back: an int, and text that its line did not end in. */
  predicate FitsC(r: Record) {
    r.typ <= INT_MAX && '\r' !in r.name && '\r' !in r.token && NUL !in r.name && NUL !in r.token
  }

  /** The C reader gives back what the Go writer wrote exactly for types an int can hold and text without CR and NUL. */
  lemma CReadsGoRecord(r: Record)
    requires Storable(r)
    ensures ReadFrom(Lines(Encode([r])), None) == Ok(r) <==> FitsC(r)
  {
    LineText(r);
    LinesHead(Line(r), "");
    assert Encode([r]) == Line(r) + "\n" + "";
    assert Line(r)[0] == r.name[0];
    assert r.name[0] in r.name;
    assert Lines(Encode([r]))[1..] == [];
    if FitsC(r) {
      OwnLinePlain(r);
    }
    ParsedFits(Line(r));
  }

  lemma ParsedFits(line: string)
    ensures RecordOf(line) != None ==> FitsC(RecordOf(line).value)
  {
    var s := CutLine(UntilNul(line));
    assert NUL !in s by {
      assert forall k | 0 <= k < |s| :: s[k] in UntilNul(line);
    }
    TokensWithin(s, '\t', '\r');
    TokensWithin(s, '\t', NUL);
  }

  /** No token has a character that the text does not have. */
  lemma {:induction false} TokensWithin(s: string, d: char, c: char)
    requires c !in s
    ensures forall i :: 0 <= i < |Tokens(s, d)| ==> c !in Tokens(s, d)[i]
  {
    TokensAreSplit(s, d);
    SplitWithin(s, d, c);
    NonEmptyWithin(Split(s, d), c);
  }

  lemma {:induction false} SplitWithin(s: string, d: char, c: char)
    requires c !in s
    ensures forall i :: 0 <= i < |Split(s, d)| ==> c !in Split(s, d)[i]
    decreases |s|
  {
    var i := IndexOf(s, d);
    assert forall k | 0 <= k < i :: s[..i][k] == s[k];
    if i < |s| {
      assert forall x <- s[i + 1..] :: x in s;
      SplitWithin(s[i + 1..], d, c);
    }
  }

  lemma {:induction false} NonEmptyWithin(parts: seq<string>, c: char)
    requires forall i :: 0 <= i < |parts| ==> c !in parts[i]
    ensures forall i :: 0 <= i < |NonEmpty(parts)| ==> c !in NonEmpty(parts)[i]
  {
    if parts != [] {
      NonEmptyWithin(parts[1..], c);
    }
  }

  lemma OwnLinePlain(r: Record)
    requires Storable(r) && FitsC(r)
    ensures RecordOf(Line(r)) == Some(r)
  {
    FieldsPlain(r);
    RecordOfPlain(Line(r));
    LineFields(r);
    FromOwnFields(r);
  }

  lemma NumeralPlain(i: int)
    ensures '\r' !in Itoa(i) && NUL !in Itoa(i) && Itoa(i) != ""
  {
    ItoaPlain(i);
  }

  lemma FieldsPlain(r: Record)
    requires Storable(r) && FitsC(r)
    ensures Plain(Line(r))
  {
    NumeralPlain(r.typ);
    NumeralPlain(r.epoch);
    LineFields(r);
    LineText(r);
    FourWithout(r.name, Itoa(r.typ), r.token, Itoa(r.epoch), '\r');
    FourWithout(r.name, Itoa(r.typ), r.token, Itoa(r.epoch), NUL);
  }

  lemma FourWithout(a: string, b: string, c: string, d: string, x: char)
    requires x !in a && x !in b && x !in c && x !in d && x != '\t'
    ensures x !in a + "\t" + b + "\t" + c + "\t" + d
  {
  }

  lemma FromFour(name: string, typeText: string, token: string, epochText: string, typ: int, epoch: int)
    requires Strtol(typeText) == Some(typ) && 0 <= typ <= INT_MAX && Strtol(epochText) == Some(epoch)
    ensures FromTokens([name, typeText, token, epochText]) == Some(Record(name, typ, token, epoch))
  {
  }

  lemma FromOwnFields(r: Record)
    requires Storable(r) && r.typ <= INT_MAX
    ensures FromTokens([r.name, Itoa(r.typ), r.token, Itoa(r.epoch)]) == Some(r)
  {
    ItoaRoundTrip(r.typ);
    ItoaRoundTrip(r.epoch);
    FromFour(r.name, Itoa(r.typ), r.token, Itoa(r.epoch), r.typ, r.epoch);
  }
}

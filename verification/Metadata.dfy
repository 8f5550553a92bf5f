/** The acquisition metadata file: one tab-separated line per record. */
module Metadata {
  import opened Decimal
  import opened Text
  import opened Wrappers

  datatype Record = Record(name: string, typ: int, token: string, epoch: int)

  datatype ReadError = NotExist | Unreadable | Malformed | NoRecord | MultipleRecords

  type ReadResult = Result<Record, ReadError>

  /** The scanner's token limit, in bytes: a longer line ends the scan with an error. */
  const LINE_LIMIT: nat := 0x10_0000

  // ---- Writing ------------------------------------------------------------

  /** The writer's check on a record. */
  predicate Writable(r: Record) {
    '\t' !in r.name && '\n' !in r.name && '\t' !in r.token && '\n' !in r.token
  }

  function Line(r: Record): string {
    r.name + "\t" + Itoa(r.typ) + "\t" + r.token + "\t" + Itoa(r.epoch)
  }

  function Encode(records: seq<Record>): string {
    if records == [] then "" else Line(records[0]) + "\n" + Encode(records[1..])
  }

  /** The records the reader gives back unchanged. */
  predicate Storable(r: Record) {
    && Writable(r) && r.name != "" && r.token != ""
    && 0 <= r.typ <= MAX_INT64 && Int64(r.epoch)
    && ByteLen(Line(r)) < LINE_LIMIT
  }

  // ---- Reading ------------------------------------------------------------

  predicate IsCR(c: char) {
    c == '\r'
  }

  function ParseRecordLine(line: string): Option<Record> {
    var fields := Split(line, '\t');
    if |fields| < 3 || fields[0] == "" || fields[1] == "" || fields[2] == "" then None
    else
      var typ := ParseInt(fields[1]);
      if typ == None || typ.value < 0 then None
      else if |fields| >= 4 && fields[3] != "" then
        var epoch := ParseInt(fields[3]);
        if epoch == None then None else Some(Record(fields[0], typ.value, fields[2], epoch.value))
      else Some(Record(fields[0], typ.value, fields[2], 0))
  }

  /** The scan from the given lines on, with the record seen so far. */
  function ReadLines(lines: seq<string>, got: Option<Record>): ReadResult {
    if lines == [] then (if got == None then Err(NoRecord) else Ok(got.value))
    else if ByteLen(lines[0]) >= LINE_LIMIT then Err(Unreadable)
    else
      var line := TrimRightBy(IsCR, lines[0]);
      if line == "" then ReadLines(lines[1..], got)
      else if got != None then Err(MultipleRecords)
      else
        var rec := ParseRecordLine(line);
        if rec == None then Err(Malformed) else ReadLines(lines[1..], rec)
  }

  function Read(text: string): ReadResult {
    ReadLines(Lines(text), None)
  }

  /** The scan loop over an opened file's content. */
  method ReadStrictSingle(content: Option<string>) returns (r: ReadResult)
    ensures content == None ==> r == Err(NotExist)
    ensures content != None ==> r == Read(content.value)
  {
    if content == None {
      return Err(NotExist);
    }
    var rest := content.value;
    var got: Option<Record> := None;
    while rest != ""
      invariant Read(content.value) == ReadLines(Lines(rest), got)
      decreases |rest|
    {
      var i := IndexOf(rest, '\n');
      var raw := rest[..i];
      ghost var lines := Lines(rest);
      rest := if i < |rest| then rest[i + 1..] else "";
      assert lines[0] == raw && lines[1..] == Lines(rest);
      if ByteLen(raw) >= LINE_LIMIT {
        return Err(Unreadable);
      }
      var line := TrimRightBy(IsCR, raw);
      if line != "" {
        if got != None {
          return Err(MultipleRecords);
        }
        var rec := ParseRecordLine(line);
        if rec == None {
          return Err(Malformed);
        }
        got := rec;
      }
    }
    r := if got == None then Err(NoRecord) else Ok(got.value);
  }

  // ---- Round trip ---------------------------------------------------------

  lemma LineShape(r: Record)
    ensures Line(r) == r.name + ['\t'] + (Itoa(r.typ) + ['\t'] + (r.token + ['\t'] + Itoa(r.epoch)))
  {
  }

  lemma SplitFour(a: string, b: string, c: string, d: string)
    requires '\t' !in a && '\t' !in b && '\t' !in c && '\t' !in d
    ensures Split(a + ['\t'] + (b + ['\t'] + (c + ['\t'] + d)), '\t') == [a] + ([b] + ([c] + [d]))
  {
    SplitHead(a, '\t', b + ['\t'] + (c + ['\t'] + d));
    SplitHead(b, '\t', c + ['\t'] + d);
    SplitHead(c, '\t', d);
    SplitNone(d, '\t');
  }

  lemma LineFields(r: Record)
    requires Writable(r)
    ensures Split(Line(r), '\t') == [r.name, Itoa(r.typ), r.token, Itoa(r.epoch)]
  {
    ItoaPlain(r.typ);
    ItoaPlain(r.epoch);
    LineShape(r);
    SplitFour(r.name, Itoa(r.typ), r.token, Itoa(r.epoch));
  }

  lemma LineText(r: Record)
    requires Writable(r)
    ensures '\n' !in Line(r) && Line(r) != "" && Line(r)[|Line(r)| - 1] != '\r'
  {
    ItoaPlain(r.typ);
    ItoaPlain(r.epoch);
    assert Line(r)[|Line(r)| - 1] == Itoa(r.epoch)[|Itoa(r.epoch)| - 1];
  }

  lemma ParseLineExactly(r: Record)
    requires Writable(r) && Int64(r.typ) && Int64(r.epoch)
    ensures ParseRecordLine(Line(r)) == if r.name != "" && r.token != "" && 0 <= r.typ then Some(r) else None
  {
    LineFields(r);
    ItoaPlain(r.epoch);
    ItoaPlain(r.typ);
    ItoaRoundTrip(r.typ);
    ItoaRoundTrip(r.epoch);
  }

  /** A line of a metadata file: blank or a record's line, each ended by carriage returns. */
  datatype Entry = Blank(ending: string) | Of(rec: Record, ending: string) {
    predicate Valid() {
      && All(IsCR, ending)
      && ByteLen(Text()) < LINE_LIMIT
      && (Of? ==> Storable(rec))
    }

    function Text(): string {
      if Of? then Line(rec) + ending else ending
    }
  }

  function Texts(entries: seq<Entry>): seq<string> {
    if entries == [] then [] else [entries[0].Text()] + Texts(entries[1..])
  }

  function Records(entries: seq<Entry>): seq<Record> {
    if entries == [] then []
    else (if entries[0].Of? then [entries[0].rec] else []) + Records(entries[1..])
  }

  lemma TrimEntry(e: Entry)
    requires e.Valid()
    ensures TrimRightBy(IsCR, e.Text()) == if e.Of? then Line(e.rec) else ""
    ensures '\n' !in e.Text()
  {
    if e.Of? {
      LineText(e.rec);
      TrimEnding(Line(e.rec), e.ending);
    } else {
      assert "" + e.ending == e.ending;
      TrimEnding("", e.ending);
    }
  }

  lemma TrimEnding(line: string, ending: string)
    requires All(IsCR, ending) && '\n' !in line && (line != "" ==> line[|line| - 1] != '\r')
    ensures TrimRightBy(IsCR, line + ending) == line && '\n' !in line + ending
  {
    TrimRightOf(IsCR, line, ending);
    assert '\n' !in ending by {
      forall i | 0 <= i < |ending|
        ensures ending[i] != '\n'
      {
        assert IsCR(ending[i]);
      }
    }
  }

  lemma {:induction false} ReadEntries(entries: seq<Entry>, got: Option<Record>)
    requires forall e <- entries :: e.Valid()
    ensures var all := (if got == None then [] else [got.value]) + Records(entries);
            ReadLines(Texts(entries), got)
            == if all == [] then Err(NoRecord) else if |all| == 1 then Ok(all[0]) else Err(MultipleRecords)
  {
    if entries != [] {
      TrimEntry(entries[0]);
      if entries[0].Blank? {
        ReadEntries(entries[1..], got);
      } else {
        LineText(entries[0].rec);
        ParseLineExactly(entries[0].rec);
        if got == None {
          ReadEntries(entries[1..], Some(entries[0].rec));
        }
      }
    }
  }

  lemma {:induction false} TextsFree(entries: seq<Entry>)
    requires forall e <- entries :: e.Valid()
    ensures Free(Texts(entries), '\n')
  {
    if entries != [] {
      TrimEntry(entries[0]);
      TextsFree(entries[1..]);
    }
  }

  /** A file of records and blank lines in any order reads as its only record,
      as "no record" when it has none and as "multiple records" otherwise. */
  lemma ReadFile(entries: seq<Entry>)
    requires forall e <- entries :: e.Valid()
    ensures Read(Unlines(Texts(entries))) == match |Records(entries)|
                                             case 0 => Err(NoRecord)
                                             case 1 => Ok(Records(entries)[0])
                                             case _ => Err(MultipleRecords)
  {
    TextsFree(entries);
    LinesUnlines(Texts(entries));
    ReadEntries(entries, None);
    assert [] + Records(entries) == Records(entries);
  }

  function Entries(records: seq<Record>): seq<Entry> {
    if records == [] then [] else [Of(records[0], "")] + Entries(records[1..])
  }

  lemma {:induction false} EncodeEntries(records: seq<Record>)
    requires forall r <- records :: Storable(r)
    ensures Encode(records) == Unlines(Texts(Entries(records)))
    ensures Records(Entries(records)) == records
    ensures forall e <- Entries(records) :: e.Valid()
  {
    if records != [] {
      EncodeEntries(records[1..]);
      assert Entries(records)[0].Text() == Line(records[0]) + "" == Line(records[0]);
      assert Entries(records)[1..] == Entries(records[1..]);
      assert Texts(Entries(records)) == [Line(records[0])] + Texts(Entries(records[1..]));
      assert Of(records[0], "").Valid();
    }
  }

  /** Reading what the writer wrote: one record comes back exactly, zero or several are refused. */
  lemma RoundTrip(records: seq<Record>)
    requires forall r <- records :: Storable(r)
    ensures Read(Encode(records)) == match |records|
                                     case 0 => Err(NoRecord)
                                     case 1 => Ok(records[0])
                                     case _ => Err(MultipleRecords)
  {
    EncodeEntries(records);
    ReadFile(Entries(records));
  }

  lemma ReadOneLine(line: string)
    requires line != "" && !IsCR(line[|line| - 1])
    ensures ReadLines([line] + [], None)
            == if ByteLen(line) >= LINE_LIMIT then Err(Unreadable)
               else if ParseRecordLine(line) == None then Err(Malformed)
               else Ok(ParseRecordLine(line).value)
  {
    assert [line][1..] == [];
  }

  /** What the reader returns for one written record, also outside the round trip's
      domain: the record if it is storable, and never another one. */
  lemma RoundTripExactly(r: Record)
    requires Writable(r) && Int64(r.typ) && Int64(r.epoch)
    ensures Read(Encode([r])) == Ok(r) <==> Storable(r)
    ensures Read(Encode([r])).Ok? ==> Storable(r)
  {
    LineText(r);
    ParseLineExactly(r);
    LinesHead(Line(r), "");
    assert Encode([r]) == Line(r) + "\n" + "";
    ReadOneLine(Line(r));
  }

  /** A writable record shares its line with no other record of another name or token, writable or not. */
  lemma EncodeInjective(r1: Record, r2: Record)
    requires Writable(r2) && Encode([r1]) == Encode([r2])
    ensures r1.name == r2.name && r1.token == r2.token
  {
    EncodeOne(r1);
    EncodeOne(r2);
    SameLine(Line(r1), Line(r2));
    Separators(r1);
    Separators(r2);
    LineFields(r1);
    LineFields(r2);
    assert Split(Line(r1), '\t')[0] == r1.name && Split(Line(r1), '\t')[2] == r1.token;
  }

  /** A line has three tabs and no newline exactly when its record is writable. */
  lemma Separators(r: Record)
    ensures Writable(r) <==> Count(Line(r), '\t') == 3 && Count(Line(r), '\n') == 0
  {
    ItoaPlain(r.typ);
    ItoaPlain(r.epoch);
    CountLine(r, '\t');
    CountLine(r, '\n');
    CountZero(r.name, '\t');
    CountZero(r.name, '\n');
    CountZero(r.token, '\t');
    CountZero(r.token, '\n');
    CountZero(Itoa(r.typ), '\t');
    CountZero(Itoa(r.typ), '\n');
    CountZero(Itoa(r.epoch), '\t');
    CountZero(Itoa(r.epoch), '\n');
  }

  lemma CountLine(r: Record, c: char)
    ensures Count(Line(r), c)
            == Count(r.name, c) + Count(Itoa(r.typ), c) + Count(r.token, c) + Count(Itoa(r.epoch), c) + 3 * Count("\t", c)
  {
    var a := r.name + "\t";
    var b := a + Itoa(r.typ);
    CountAppend(r.name, "\t", c);
    CountAppend(a, Itoa(r.typ), c);
    CountAppend(b, "\t", c);
    CountAppend(b + "\t", r.token, c);
    CountAppend(b + "\t" + r.token, "\t", c);
    CountAppend(b + "\t" + r.token + "\t", Itoa(r.epoch), c);
  }

  lemma EncodeOne(r: Record)
    ensures Encode([r]) == Line(r) + "\n"
  {
    assert [r][1..] == [];
  }

  lemma SameLine(a: string, b: string)
    requires a + "\n" == b + "\n"
    ensures a == b
  {
    assert a == (a + "\n")[..|a|] && b == (b + "\n")[..|b|];
  }
}

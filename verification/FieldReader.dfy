/** The prolog's reader of qstat and qconf output: a field's value over its
    continuation lines, and a resource's value in a comma-separated list. */
module FieldReader {
  import opened Text
  import opened Wrappers

  /** bufio.MaxScanTokenSize: the scan stops silently at a longer line. */
  const SCAN_LIMIT: nat := 0x1_0000

  const HARD := "hard_resource_list:"
  const MASTER_HARD := "master_hard_resource_list:"

  function DropCR(line: string): string {
    if line != "" && line[|line| - 1] == '\r' then line[..|line| - 1] else line
  }

  /** The lines a scanner yields: up to the first one that is too long. */
  function ScannedLines(lines: seq<string>): seq<string> {
    if lines == [] || ByteLen(lines[0]) >= SCAN_LIMIT then []
    else [DropCR(lines[0])] + ScannedLines(lines[1..])
  }

  predicate Indented(line: string) {
    line != "" && (line[0] == ' ' || line[0] == '\t')
  }

  /** The line starts with the field; a field without a colon ends there or at a blank. */
  predicate Starts(line: string, field: string) {
    && HasPrefix(line, field)
    && (HasSuffix(field, ":") || |line| == |field| || line[|field|] == ' ' || line[|field|] == '\t')
  }

  function Continued(lines: seq<string>): string {
    if lines == [] || !Indented(lines[0]) then "" else TrimSpace(lines[0]) + Continued(lines[1..])
  }

  function Collected(lines: seq<string>, field: string): string {
    if lines == [] then ""
    else if Starts(lines[0], field) then TrimSpace(lines[0][|field|..]) + Continued(lines[1..])
    else Collected(lines[1..], field)
  }

  function NoBackslash(s: string): string {
    if s == "" then "" else (if s[0] == '\\' then "" else [s[0]]) + NoBackslash(s[1..])
  }

  function FieldValue(text: string, field: string): string {
    NoBackslash(Collected(ScannedLines(Lines(text)), field))
  }

  /** What the scan of the given lines still adds to the value. */
  function Remaining(lines: seq<string>, field: string, collecting: bool): string {
    if collecting then Continued(ScannedLines(lines)) else Collected(ScannedLines(lines), field)
  }

  lemma RemainingStep(lines: seq<string>, field: string, collecting: bool)
    requires lines != []
    ensures var line := DropCR(lines[0]);
            Remaining(lines, field, collecting)
            == if ByteLen(lines[0]) >= SCAN_LIMIT || (collecting && !Indented(line)) then ""
               else if collecting then TrimSpace(line) + Remaining(lines[1..], field, true)
               else if Starts(line, field) then TrimSpace(line[|field|..]) + Remaining(lines[1..], field, true)
               else Remaining(lines[1..], field, false)
  {
    if ByteLen(lines[0]) < SCAN_LIMIT {
      assert ScannedLines(lines)[0] == DropCR(lines[0]) && ScannedLines(lines)[1..] == ScannedLines(lines[1..]);
    }
  }

  /** The scanner loop, with its flag and its builder. */
  method ReadField(text: string, field: string) returns (value: string)
    ensures value == FieldValue(text, field)
  {
    ghost var whole := Remaining(Lines(text), field, false);
    var rest := text;
    var built := "";
    var collecting := false;
    while rest != ""
      invariant whole == built + Remaining(Lines(rest), field, collecting)
      decreases |rest|
    {
      var i := IndexOf(rest, '\n');
      var raw := rest[..i];
      ghost var lines := Lines(rest);
      rest := if i < |rest| then rest[i + 1..] else "";
      assert lines[0] == raw && lines[1..] == Lines(rest);
      RemainingStep(lines, field, collecting);
      if ByteLen(raw) >= SCAN_LIMIT {
        break;
      }
      var line := DropCR(raw);
      if collecting && !Indented(line) {
        break;
      }
      if collecting || Starts(line, field) {
        var part := TrimSpace(if collecting then line else line[|field|..]);
        Assoc(built, part, Remaining(Lines(rest), field, true));
        built := built + part;
        collecting := true;
      }
    }
    assert whole == built;
    value := NoBackslash(built);
  }

  // ---- Resource lists ---------------------------------------------------------

  /** The value an item gives to the resource, if it does. */
  function ItemValue(item: string, name: string): Option<string> {
    var (key, value, ok) := Cut(TrimSpace(item), '=');
    if ok && TrimSpace(key) == name && TrimSpace(value) != "" then Some(TrimSpace(value)) else None
  }

  function FirstValue(items: seq<string>, name: string): Option<string> {
    if items == [] then None
    else if ItemValue(items[0], name) != None then ItemValue(items[0], name)
    else FirstValue(items[1..], name)
  }

  function ResourceFromList(list: string, name: string): Option<string> {
    FirstValue(Split(list, ','), name)
  }

  function Requested(text: string, field: string, name: string): Option<string> {
    ResourceFromList(FieldValue(text, field), name)
  }

  /** Hard requests first, then the master task's. */
  function ParseJobRequestedResource(text: string, name: string): Option<string> {
    var hard := Requested(text, HARD, name);
    if hard != None then hard else Requested(text, MASTER_HARD, name)
  }

  // ---- What a list binds -------------------------------------------------------------

  /** The key and value an item gives, without the blanks around them. */
  function Binding(item: string): Option<(string, string)> {
    var (key, value, ok) := Cut(item, '=');
    if ok && TrimSpace(value) != "" then Some((TrimSpace(key), TrimSpace(value))) else None
  }

  function Bindings(items: seq<string>): seq<(string, string)> {
    if items == [] then []
    else (if Binding(items[0]) == None then [] else [Binding(items[0]).value]) + Bindings(items[1..])
  }

  /** The first value given to a name. */
  function First(items: seq<(string, string)>, name: string): Option<string> {
    if items == [] then None else if items[0].0 == name then Some(items[0].1) else First(items[1..], name)
  }

  lemma TrimBlanks(l: string, s: string, r: string)
    requires All(IsSpace, l) && All(IsSpace, r)
    ensures TrimSpace(l + s + r) == TrimSpace(s)
  {
    var l', r' := TrimParts(IsSpace, s);
    assert l + s + r == (l + l') + TrimSpace(s) + (r' + r);
    TrimUnique(IsSpace, l + l', TrimSpace(s), r' + r);
  }

  lemma CutTrimmed(item: string)
    ensures var whole, inner := Cut(item, '='), Cut(TrimSpace(item), '=');
            && whole.2 == inner.2
            && (whole.2 ==> TrimSpace(whole.0) == TrimSpace(inner.0) && TrimSpace(whole.1) == TrimSpace(inner.1))
  {
    var l, r := TrimParts(IsSpace, item);
    var m := TrimSpace(item);
    assert '=' !in l && '=' !in r;
    if '=' in m {
      var (a, b, ok) := Cut(m, '=');
      assert m == a + ['='] + b;
      Regrouped(item, l, a, b, r);
      CutAppend(l + a, '=', b + r);
      PadRight(l, a);
      PadLeft(b, r);
    }
  }

  lemma PadRight(l: string, a: string)
    requires All(IsSpace, l)
    ensures TrimSpace(l + a) == TrimSpace(a)
  {
    TrimBlanks(l, a, "");
    assert l + a + "" == l + a;
  }

  lemma PadLeft(b: string, r: string)
    requires All(IsSpace, r)
    ensures TrimSpace(b + r) == TrimSpace(b)
  {
    TrimBlanks("", b, r);
    assert "" + b + r == b + r;
  }

  lemma Regrouped(s: string, l: string, a: string, b: string, r: string)
    requires s == l + (a + ['='] + b) + r
    ensures s == (l + a) + ['='] + (b + r)
  {
  }

  lemma GoItem(item: string, name: string)
    ensures ItemValue(item, name)
            == if Binding(item) != None && Binding(item).value.0 == name then Some(Binding(item).value.1) else None
  {
    CutTrimmed(item);
  }

  lemma FirstHead(b: Option<(string, string)>, rest: seq<(string, string)>, name: string)
    ensures First((if b == None then [] else [b.value]) + rest, name)
            == if b != None && b.value.0 == name then Some(b.value.1) else First(rest, name)
  {
    if b == None {
      assert [] + rest == rest;
    } else {
      assert ([b.value] + rest)[1..] == rest;
    }
  }

  lemma {:induction false} GoFirst(items: seq<string>, name: string)
    ensures FirstValue(items, name) == First(Bindings(items), name)
  {
    if items != [] {
      GoItem(items[0], name);
      FirstHead(Binding(items[0]), Bindings(items[1..]), name);
      GoFirst(items[1..], name);
    }
  }

  // ---- Layout independence ------------------------------------------------------

  predicate IsSlash(c: char) {
    c == '\\'
  }

  predicate SpaceOrSlash(c: char) {
    IsSpace(c) || c == '\\'
  }

  /** One printed line of a value: blanks, a body without outer blanks, and blanks mixed with backslashes. */
  datatype Piece = Piece(indent: string, body: string, tail: string) {
    predicate Valid() {
      All(IsSpace, indent) && '\n' !in indent && body != "" && Bare(IsSpace, body) && '\\' !in body && '\n' !in body
      && All(SpaceOrSlash, tail) && '\n' !in tail && '\r' !in tail
    }

    function Line(): string {
      indent + body + tail
    }
  }

  function Bodies(pieces: seq<Piece>): string {
    if pieces == [] then "" else pieces[0].body + Bodies(pieces[1..])
  }

  /** The pieces of a value wrapped at commas. */
  predicate WrappedAtCommas(pieces: seq<Piece>) {
    && (forall i :: 0 <= i < |pieces| ==> pieces[i].Valid())
    && (forall i :: 0 <= i < |pieces| - 1 ==> pieces[i].body[|pieces[i].body| - 1] == ',')
  }

  /** What the reader keeps of a piece's tail: blanks before a backslash. */
  function TailText(tail: string): string {
    NoBackslash(TrimRightBy(IsSpace, tail))
  }

  function Read(pieces: seq<Piece>): string {
    if pieces == [] then "" else pieces[0].body + TailText(pieces[0].tail) + Read(pieces[1..])
  }

  lemma {:induction false} NoBackslashAppend(a: string, b: string)
    ensures NoBackslash(a + b) == NoBackslash(a) + NoBackslash(b)
  {
    if a == "" {
      assert a + b == b;
    } else {
      assert (a + b)[1..] == a[1..] + b;
      NoBackslashAppend(a[1..], b);
    }
  }

  lemma {:induction false} NoBackslashPlain(s: string)
    requires '\\' !in s
    ensures NoBackslash(s) == s
  {
    if s != "" {
      NoBackslashPlain(s[1..]);
    }
  }

  lemma {:induction false} NoBackslashBlank(s: string)
    requires All(SpaceOrSlash, s)
    ensures All(IsSpace, NoBackslash(s)) && ',' !in NoBackslash(s)
  {
    if s != "" {
      NoBackslashBlank(s[1..]);
    }
  }

  lemma TrimPiece(p: Piece)
    requires p.Valid()
    ensures NoBackslash(TrimSpace(p.Line())) == p.body + TailText(p.tail)
    ensures All(IsSpace, TailText(p.tail)) && ',' !in TailText(p.tail)
  {
    var r := TrimRightParts(IsSpace, p.tail);
    var t := TrimRightBy(IsSpace, p.tail);
    assert p.Line() == p.indent + (p.body + t) + r;
    assert p.tail == t + r;
    assert All(SpaceOrSlash, t) by {
      forall i | 0 <= i < |t|
        ensures SpaceOrSlash(t[i])
      {
        assert t[i] == p.tail[i];
      }
    }
    assert Bare(IsSpace, p.body + t) by {
      assert (p.body + t)[0] == p.body[0];
    }
    TrimUnique(IsSpace, p.indent, p.body + t, r);
    NoBackslashAppend(p.body, t);
    NoBackslashPlain(p.body);
    NoBackslashBlank(t);
  }

  function PieceLines(pieces: seq<Piece>): seq<string> {
    if pieces == [] then [] else [pieces[0].Line()] + PieceLines(pieces[1..])
  }

  predicate Short(lines: seq<string>) {
    forall i :: 0 <= i < |lines| ==> ByteLen(lines[i]) < SCAN_LIMIT
  }

  lemma PieceLine(p: Piece, head: string)
    requires p.Valid()
    ensures DropCR(head + p.Line()) == head + p.Line()
  {
    var line := head + p.Line();
    if p.tail == "" {
      assert line[|line| - 1] == p.body[|p.body| - 1];
    } else {
      assert line[|line| - 1] == p.tail[|p.tail| - 1];
    }
  }

  /** The continuation lines of the pieces, then anything that is not indented. */
  lemma {:induction false} ContinuedPieces(pieces: seq<Piece>, after: seq<string>)
    requires forall p <- pieces :: p.Valid() && Indented(p.indent)
    requires Short(PieceLines(pieces)) && (after != [] ==> !Indented(DropCR(after[0])))
    ensures NoBackslash(Continued(ScannedLines(PieceLines(pieces) + after))) == Read(pieces)
  {
    var lines := PieceLines(pieces) + after;
    if pieces == [] {
      assert lines == after;
      if after != [] && ByteLen(after[0]) < SCAN_LIMIT {
        assert ScannedLines(after)[0] == DropCR(after[0]);
      }
    } else {
      var p := pieces[0];
      assert lines[0] == p.Line() == PieceLines(pieces)[0] && lines[1..] == PieceLines(pieces[1..]) + after;
      assert PieceLines(pieces)[1..] == PieceLines(pieces[1..]);
      assert "" + p.Line() == p.Line();
      PieceLine(p, "");
      assert p.Line()[0] == p.indent[0];
      RemainingStep(lines, "", true);
      ContinuedPieces(pieces[1..], after);
      TrimPiece(p);
      NoBackslashAppend(TrimSpace(p.Line()), Continued(ScannedLines(lines[1..])));
    }
  }

  lemma {:induction false} SkipOthers(before: seq<string>, rest: seq<string>, field: string)
    requires Short(before) && forall i :: 0 <= i < |before| ==> !Starts(DropCR(before[i]), field)
    ensures Collected(ScannedLines(before + rest), field) == Collected(ScannedLines(rest), field)
  {
    if before == [] {
      assert before + rest == rest;
    } else {
      assert (before + rest)[0] == before[0] && (before + rest)[1..] == before[1..] + rest;
      RemainingStep(before + rest, field, false);
      SkipOthers(before[1..], rest, field);
    }
  }

  /** Two item lists that differ only in the blanks around the items. */
  predicate SameItems(a: seq<string>, b: seq<string>) {
    |a| == |b| && forall i :: 0 <= i < |a| ==> TrimSpace(a[i]) == TrimSpace(b[i])
  }

  lemma {:induction false} SameBindings(a: seq<string>, b: seq<string>)
    requires SameItems(a, b)
    ensures Bindings(a) == Bindings(b)
  {
    if a != [] {
      assert TrimSpace(a[0]) == TrimSpace(b[0]);
      CutTrimmed(a[0]);
      CutTrimmed(b[0]);
      assert SameItems(a[1..], b[1..]) by {
        assert forall i :: 0 <= i < |a| - 1 ==> a[1..][i] == a[i + 1] && b[1..][i] == b[i + 1];
      }
      SameBindings(a[1..], b[1..]);
    }
  }

  lemma SplitBlankLeft(l: string, s: string)
    requires All(IsSpace, l)
    ensures SameItems(Split(l + s, ','), Split(s, ','))
  {
    SplitPrepend(l, s, ',');
    TrimBlanks(l, Split(s, ',')[0], "");
    assert l + Split(s, ',')[0] + "" == l + Split(s, ',')[0];
  }

  lemma SplitBlankRight(s: string, r: string)
    requires All(IsSpace, r)
    ensures SameItems(Split(s + r, ','), Split(s, ','))
  {
    SplitPostpend(s, r, ',');
    LastPadded(Split(s, ','), r);
  }

  lemma LastPadded(parts: seq<string>, r: string)
    requires parts != [] && All(IsSpace, r)
    ensures SameItems(parts[..|parts| - 1] + [parts[|parts| - 1] + r], parts)
  {
    var last := parts[|parts| - 1];
    TrimBlanks("", last, r);
    assert "" + last + r == last + r;
  }

  lemma SameItemsAppend(a: seq<string>, b: seq<string>, c: seq<string>, d: seq<string>)
    requires SameItems(a, b) && SameItems(c, d)
    ensures SameItems(a + c, b + d)
  {
  }

  lemma SameItemsTrans(a: seq<string>, b: seq<string>, c: seq<string>)
    requires SameItems(a, b) && SameItems(b, c)
    ensures SameItems(a, c)
  {
  }

  /** Wrapping at commas does not change the items. */
  lemma {:induction false} ReadItems(pieces: seq<Piece>)
    requires WrappedAtCommas(pieces)
    ensures SameItems(Split(Read(pieces), ','), Split(Bodies(pieces), ','))
  {
    if pieces != [] {
      var p := pieces[0];
      TrimPiece(p);
      var w := TailText(p.tail);
      if |pieces| == 1 {
        assert pieces[1..] == [];
        assert p.body + w + "" == p.body + w && p.body + "" == p.body;
        SplitBlankRight(p.body, w);
      } else {
        ReadItems(pieces[1..]);
        AfterComma(p.body, w, Read(pieces[1..]), Bodies(pieces[1..]));
      }
    }
  }

  /** Blanks after a comma do not change the items. */
  lemma AfterComma(body: string, w: string, rest: string, plain: string)
    requires body != "" && body[|body| - 1] == ',' && All(IsSpace, w) && SameItems(Split(rest, ','), Split(plain, ','))
    ensures SameItems(Split(body + w + rest, ','), Split(body + plain, ','))
  {
    var b := body[..|body| - 1];
    assert body == b + [','];
    Assoc(b + [','], w, rest);
    SplitAppend(b, ',', w + rest);
    SplitAppend(b, ',', plain);
    SplitBlankLeft(w, rest);
    SameItemsTrans(Split(w + rest, ','), Split(rest, ','), Split(plain, ','));
    SameItemsAppend(Split(b, ','), Split(b, ','), Split(w + rest, ','), Split(plain, ','));
  }

  // ---- The layout theorem ---------------------------------------------------------

  /** A key and a value, with any blanks around either. */
  predicate IsItem(item: (string, string)) {
    ',' !in item.0 && ',' !in item.1 && '=' !in item.0
  }

  function ItemTexts(items: seq<(string, string)>): seq<string> {
    if items == [] then [] else [items[0].0 + "=" + items[0].1] + ItemTexts(items[1..])
  }

  /** The items without the blanks around keys and values, and without empty values. */
  function Trimmed(items: seq<(string, string)>): seq<(string, string)> {
    if items == [] then []
    else (if TrimSpace(items[0].1) == "" then [] else [(TrimSpace(items[0].0), TrimSpace(items[0].1))]) + Trimmed(items[1..])
  }

  /** The printed items bind what was meant. */
  lemma {:induction false} TextsBind(items: seq<(string, string)>)
    requires forall i :: 0 <= i < |items| ==> IsItem(items[i])
    ensures Bindings(ItemTexts(items)) == Trimmed(items) && Free(ItemTexts(items), ',') && |ItemTexts(items)| == |items|
  {
    if items != [] {
      CutAppend(items[0].0, '=', items[0].1);
      TextsBind(items[1..]);
      assert ItemTexts(items)[1..] == ItemTexts(items[1..]);
    }
  }

  /** A request printed in any layout: lines that do not start with the field, the field
      with its value wrapped at commas, and lines that start with something else. */
  predicate Layout(before: seq<string>, field: string, pieces: seq<Piece>, after: seq<string>) {
    && pieces != [] && WrappedAtCommas(pieces)
    && (HasSuffix(field, ":") || Indented(pieces[0].indent))
    && (forall i :: 1 <= i < |pieces| ==> Indented(pieces[i].indent))
    && (forall i :: 0 <= i < |before| ==> !Starts(DropCR(before[i]), field))
    && (after != [] ==> !Indented(DropCR(after[0])))
    && Short(before) && ByteLen(field + pieces[0].Line()) < SCAN_LIMIT && Short(PieceLines(pieces[1..]))
    && Free(before + Block(field, pieces) + after, '\n')
  }

  function Block(field: string, pieces: seq<Piece>): seq<string>
    requires pieces != []
  {
    [field + pieces[0].Line()] + PieceLines(pieces[1..])
  }

  /** What the reader gathers from any layout binds the items. */
  lemma {:induction false} LayoutBindings(before: seq<string>, field: string, pieces: seq<Piece>, after: seq<string>, items: seq<(string, string)>)
    requires Layout(before, field, pieces, after)
    requires items != [] && (forall i :: 0 <= i < |items| ==> IsItem(items[i]))
    requires Bodies(pieces) == Join(ItemTexts(items), ",")
    ensures Bindings(Split(FieldValue(Unlines(before + Block(field, pieces) + after), field), ',')) == Trimmed(items)
  {
    LinesUnlines(before + Block(field, pieces) + after);
    BlockValue(before, field, pieces, after);
    ReadItems(pieces);
    TextsBind(items);
    SplitJoin(ItemTexts(items), ',');
    SameBindings(Split(Read(pieces), ','), ItemTexts(items));
  }

  /** However the value is laid out, with blanks around keys, values, commas and lines, and whatever
      surrounds it, the reader finds the first value of the name. */
  lemma {:induction false} LayoutIndependence(before: seq<string>, field: string, pieces: seq<Piece>, after: seq<string>,
                                              items: seq<(string, string)>, name: string)
    requires Layout(before, field, pieces, after)
    requires items != [] && (forall i :: 0 <= i < |items| ==> IsItem(items[i]))
    requires Bodies(pieces) == Join(ItemTexts(items), ",")
    ensures Requested(Unlines(before + Block(field, pieces) + after), field, name) == First(Trimmed(items), name)
  {
    LayoutBindings(before, field, pieces, after, items);
    GoFirst(Split(FieldValue(Unlines(before + Block(field, pieces) + after), field), ','), name);
  }

  /** A field printed on one line. */
  lemma OnPlainLine(field: string, items: seq<(string, string)>, name: string)
    requires items != [] && (forall i :: 0 <= i < |items| ==> IsItem(items[i]))
    requires var body := Join(ItemTexts(items), ",");
             body != "" && Bare(IsSpace, body) && '\\' !in body && '\n' !in body && '\n' !in field
             && ByteLen(field + (" " + body + "")) < SCAN_LIMIT
    ensures Requested(field + (" " + Join(ItemTexts(items), ",") + "") + "\n", field, name) == First(Trimmed(items), name)
  {
    var piece := Piece(" ", Join(ItemTexts(items), ","), "");
    var line := field + piece.Line();
    assert Block(field, [piece]) == [line] && [] + [line] + [] == [line];
    assert [piece][1..] == [] && piece.body + "" == piece.body;
    assert Unlines([line]) == line + "\n" + "" == line + "\n";
    LayoutIndependence([], field, [piece], [], items, name);
  }

  lemma BlockValue(before: seq<string>, field: string, pieces: seq<Piece>, after: seq<string>)
    requires Layout(before, field, pieces, after)
    ensures NoBackslash(Collected(ScannedLines(before + Block(field, pieces) + after), field)) == Read(pieces)
  {
    var tail := PieceLines(pieces[1..]) + after;
    Regroup(before, field + pieces[0].Line(), PieceLines(pieces[1..]), after);
    SkipOthers(before, [field + pieces[0].Line()] + tail, field);
    BlockHead(field, pieces[0], tail);
    BlockTail(pieces, after);
  }

  lemma Regroup(a: seq<string>, x: string, b: seq<string>, c: seq<string>)
    ensures a + ([x] + b) + c == a + ([x] + (b + c))
  {
  }

  lemma BlockHead(field: string, p: Piece, tail: seq<string>)
    requires p.Valid() && (HasSuffix(field, ":") || Indented(p.indent)) && ByteLen(field + p.Line()) < SCAN_LIMIT
    ensures Collected(ScannedLines([field + p.Line()] + tail), field) == TrimSpace(p.Line()) + Continued(ScannedLines(tail))
  {
    var line := field + p.Line();
    PieceLine(p, field);
    assert line[|field|..] == p.Line();
    assert Indented(p.indent) ==> line[|field|] == p.indent[0];
    RemainingStep([line] + tail, field, false);
    assert ([line] + tail)[1..] == tail;
  }

  lemma BlockTail(pieces: seq<Piece>, after: seq<string>)
    requires pieces != [] && (forall i :: 0 <= i < |pieces| ==> pieces[i].Valid())
    requires forall i :: 1 <= i < |pieces| ==> Indented(pieces[i].indent)
    requires Short(PieceLines(pieces[1..])) && (after != [] ==> !Indented(DropCR(after[0])))
    ensures NoBackslash(TrimSpace(pieces[0].Line()) + Continued(ScannedLines(PieceLines(pieces[1..]) + after))) == Read(pieces)
  {
    assert forall q <- pieces[1..] :: q.Valid() && Indented(q.indent);
    ContinuedPieces(pieces[1..], after);
    TrimPiece(pieces[0]);
    NoBackslashAppend(TrimSpace(pieces[0].Line()), Continued(ScannedLines(PieceLines(pieces[1..]) + after)));
  }
}

/** Which lines continue a field: in both readers the indented ones, and no others. A backslash at the end of
    a line, which the comments beside both readers name too, continues nothing. */
module Continuation {
  import opened FieldReader
  import opened FieldReaderC
  import opened RequestAgreement
  import opened Text
  import opened Wrappers

  /** Lines that both readers see as they are. */
  predicate Shown(lines: seq<string>) {
    forall i :: 0 <= i < |lines| ==> '\n' !in lines[i] && '\r' !in lines[i] && ByteLen(lines[i]) < SCAN_LIMIT
  }

  lemma ShownLines(lines: seq<string>)
    requires Shown(lines)
    ensures Lines(Unlines(lines)) == lines && ScannedLines(lines) == lines
  {
    LinesUnlines(lines);
    ScannedPlain(lines);
  }

  lemma {:induction false} ContinuedOn(middle: seq<string>, rest: seq<string>)
    requires forall i :: 0 <= i < |middle| ==> Indented(middle[i])
    ensures Continued(middle + rest) == Continued(middle) + Continued(rest)
    ensures ContinuedC(middle + rest) == ContinuedC(middle) + ContinuedC(rest)
  {
    if middle == [] {
      assert middle + rest == rest;
    } else {
      assert (middle + rest)[0] == middle[0] && (middle + rest)[1..] == middle[1..] + rest;
      ContinuedOn(middle[1..], rest);
      Assoc(TrimSpace(middle[0]), Continued(middle[1..]), Continued(rest));
      Assoc(Squeeze(middle[0]), ContinuedC(middle[1..]), ContinuedC(rest));
    }
  }

  lemma {:induction false} CollectedFrom(before: seq<string>, head: string, rest: seq<string>, field: string)
    requires Starts(head, field) && forall i :: 0 <= i < |before| ==> !Starts(before[i], field)
    ensures Collected(before + [head] + rest, field) == TrimSpace(head[|field|..]) + Continued(rest)
    ensures CollectedC(before + [head] + rest, field) == Some(Squeeze(head[|field|..]) + ContinuedC(rest))
  {
    var lines := before + [head] + rest;
    if before == [] {
      assert lines[0] == head && lines[1..] == rest;
    } else {
      assert lines[0] == before[0] && lines[1..] == before[1..] + [head] + rest;
      CollectedFrom(before[1..], head, rest, field);
    }
  }

  lemma ContinuedNext(next: string, after: seq<string>)
    ensures Continued([next] + after) == if Indented(next) then TrimSpace(next) + Continued(after) else ""
    ensures ContinuedC([next] + after) == if Indented(next) then Squeeze(next) + ContinuedC(after) else ""
  {
    assert ([next] + after)[1..] == after;
  }

  /** The lines of a field and the one after them. */
  predicate Collects(before: seq<string>, head: string, middle: seq<string>, next: string, after: seq<string>, field: string) {
    && Shown(before + [head] + (middle + ([next] + after)))
    && Starts(head, field) && (forall i :: 0 <= i < |before| ==> !Starts(before[i], field))
    && (forall i :: 0 <= i < |middle| ==> StartsBlank(middle[i]))
  }

  lemma Parts(before: seq<string>, head: string, middle: seq<string>, next: string, after: seq<string>, field: string)
    requires Collects(before, head, middle, next, after, field)
    ensures Shown(before + [head] + middle)
  {
    var whole := before + [head] + (middle + ([next] + after));
    assert before + [head] + middle == whole[..|before| + 1 + |middle|];
  }

  predicate StartsBlank(line: string) {
    HasPrefix(line, " ") || HasPrefix(line, "\t")
  }

  lemma IndentedIs(line: string)
    ensures Indented(line) <==> StartsBlank(line)
  {
    assert line != "" ==> line[..1] == [line[0]];
  }

  /** The line after the lines of a field is read exactly if it is indented, whatever the line before it ends
      with; otherwise nothing that follows is read either. */
  lemma ReadExactlyIfIndented(before: seq<string>, head: string, middle: seq<string>, next: string, after: seq<string>, field: string)
    requires Collects(before, head, middle, next, after, field)
    ensures var whole, sofar := Unlines(before + [head] + (middle + ([next] + after))), Unlines(before + [head] + middle);
            && FieldValue(whole, field)
               == FieldValue(sofar, field) + (if StartsBlank(next) then NoBackslash(TrimSpace(next) + Continued(after)) else "")
            && FieldValueC(whole, field) != None && FieldValueC(sofar, field) != None
            && FieldValueC(whole, field).value
               == FieldValueC(sofar, field).value + (if StartsBlank(next) then Squeeze(next) + ContinuedC(after) else "")
  {
    IndentedIs(next);
    Parts(before, head, middle, next, after, field);
    ShownLines(before + [head] + (middle + ([next] + after)));
    ShownLines(before + [head] + middle);
    CollectedFrom(before, head, middle + ([next] + after), field);
    CollectedFrom(before, head, middle, field);
    forall i | 0 <= i < |middle|
      ensures Indented(middle[i])
    {
      IndentedIs(middle[i]);
    }
    ContinuedOn(middle, [next] + after);
    ContinuedNext(next, after);
    var first, rest := TrimSpace(head[|field|..]), Continued([next] + after);
    Assoc(first, Continued(middle), rest);
    NoBackslashAppend(first + Continued(middle), rest);
    Assoc(Squeeze(head[|field|..]), ContinuedC(middle), ContinuedC([next] + after));
  }

  // ---- A line that ends in a backslash ---------------------------------------------------------

  /** A field's line, ended by a backslash. */
  function Slashed(field: string, value: string): string {
    field + (" " + value + "\\")
  }

  lemma SlashedValue(field: string, value: string)
    requires HasSuffix(field, ":") && value != "" && Bare(IsSpace, value) && '\\' !in value
    ensures Starts(Slashed(field, value), field) && Slashed(field, value)[|field|..] == " " + value + "\\"
    ensures TrimSpace(" " + value + "\\") == value + "\\" && NoBackslash(value + "\\") == value
    ensures Squeeze(" " + value + "\\") == Squeeze(value)
  {
    assert Slashed(field, value)[|field|..] == " " + value + "\\";
    Padded(value, "\\");
    NoBackslashAppend(value, "\\");
    NoBackslashPlain(value);
    assert value + "" == value;
    SqueezedPads(value);
  }

  lemma Padded(value: string, end: string)
    requires value != "" && Bare(IsSpace, value) && end == "\\"
    ensures TrimSpace(" " + value + end) == value + end
  {
    assert " " + value + end == " " + (value + end) + "";
    TrimUnique(IsSpace, " ", value + end, "");
  }

  lemma SqueezedPads(value: string)
    ensures Squeeze(" " + value + "\\") == Squeeze(value)
  {
    SqueezeAppend(" " + value, "\\");
    SqueezeAppend(" ", value);
    assert Squeeze(value) + "" == Squeeze(value) && "" + Squeeze(value) == Squeeze(value);
  }

  /** The backslash at its end adds nothing to what follows a line: the next one is read if it is indented, and
      lost if it is not. */
  lemma BackslashContinuesNothing(field: string, value: string, next: string)
    requires HasSuffix(field, ":") && value != "" && Bare(IsSpace, value) && '\\' !in value && Shown([Slashed(field, value), next])
    ensures var text := Unlines([Slashed(field, value), next]);
            && FieldValue(text, field) == value + (if StartsBlank(next) then NoBackslash(TrimSpace(next)) else "")
            && FieldValueC(text, field) == Some(Squeeze(value) + (if StartsBlank(next) then Squeeze(next) else ""))
  {
    var head, lines := Slashed(field, value), [Slashed(field, value), next];
    IndentedIs(next);
    SlashedValue(field, value);
    ShownLines(lines);
    assert [] + [head] + [next] == lines;
    CollectedFrom([], head, [next], field);
    OneMore(next);
    NoBackslashAppend(value + "\\", Continued([next]));
  }

  lemma OneMore(next: string)
    ensures NoBackslash(Continued([next])) == if Indented(next) then NoBackslash(TrimSpace(next)) else ""
    ensures ContinuedC([next]) == if Indented(next) then Squeeze(next) else ""
  {
    assert [next] + [] == [next];
    ContinuedNext(next, []);
    assert TrimSpace(next) + "" == TrimSpace(next) && Squeeze(next) + "" == Squeeze(next);
  }

  /** Such a request: its second item is lost to both readers. */
  lemma BackslashLosesItem()
    ensures var text := Unlines([Slashed(HARD, "a=1,"), "b=2"]);
            FieldValue(text, HARD) == "a=1," && FieldValueC(text, HARD) == Some("a=1,")
  {
    ShortLines();
    SqueezedItem();
    LineLost(HARD, "a=1,", "b=2");
  }

  lemma LineLost(field: string, value: string, next: string)
    requires HasSuffix(field, ":") && value != "" && Bare(IsSpace, value) && '\\' !in value && Shown([Slashed(field, value), next])
    requires Squeeze(value) == value && !Indented(next)
    ensures var text := Unlines([Slashed(field, value), next]);
            FieldValue(text, field) == value && FieldValueC(text, field) == Some(value)
  {
    IndentedIs(next);
    BackslashContinuesNothing(field, value, next);
    assert value + "" == value;
  }

  lemma SqueezedItem()
    ensures Squeeze("a=1,") == "a=1," && "a=1," != "" && Bare(IsSpace, "a=1,") && '\\' !in "a=1," && !Indented("b=2")
  {
    assert "a=1,"[1..] == "=1," && "=1,"[1..] == "1," && "1,"[1..] == "," && ","[1..] == "";
    assert Squeeze(",") == "," && Squeeze("1,") == "1," && Squeeze("=1,") == "=1,";
  }

  lemma ShortLines()
    ensures Shown([Slashed(HARD, "a=1,"), "b=2"]) && HasSuffix(HARD, ":")
  {
    HardIsUsual();
    UsualChars(HARD);
    Bytes(Slashed(HARD, "a=1,"));
    Bytes("b=2");
    assert '\n' !in "b=2" && '\r' !in "b=2" && '\n' !in " a=1,\\" && '\r' !in " a=1,\\";
    assert " " + "a=1," + "\\" == " a=1,\\";
  }
}

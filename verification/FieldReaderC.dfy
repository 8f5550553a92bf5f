/** The C prolog's reader of qstat and qconf output, and when it agrees with the Go reader. */
module FieldReaderC {
  import opened CBuffer
  import opened FieldReader
  import opened Text
  import opened Wrappers

  /** Text without the characters field_value drops while copying. */
  function Squeeze(s: string): string {
    if s == "" then "" else (if s[0] == '\\' || IsSpaceC(s[0]) then "" else [s[0]]) + Squeeze(s[1..])
  }

  function ContinuedC(lines: seq<string>): string {
    if lines == [] || !Indented(lines[0]) then "" else Squeeze(lines[0]) + ContinuedC(lines[1..])
  }

  function CollectedC(lines: seq<string>, field: string): Option<string> {
    if lines == [] then None
    else if Starts(lines[0], field) then Some(Squeeze(lines[0][|field|..]) + ContinuedC(lines[1..]))
    else CollectedC(lines[1..], field)
  }

  function FieldValueC(text: string, field: string): Option<string> {
    CollectedC(Lines(text), field)
  }

  lemma {:induction false} SqueezeAppend(a: string, b: string)
    ensures Squeeze(a + b) == Squeeze(a) + Squeeze(b)
  {
    if a == "" {
      assert a + b == b;
    } else {
      assert (a + b)[1..] == a[1..] + b;
      SqueezeAppend(a[1..], b);
    }
  }

  /** What the scan of the given lines still adds. */
  function Whole(value: Option<string>, lines: seq<string>, field: string): Option<string> {
    if value == None then CollectedC(lines, field) else Some(value.value + ContinuedC(lines))
  }

  lemma WholeStep(value: Option<string>, lines: seq<string>, field: string)
    requires lines != []
    ensures Whole(value, lines, field)
            == if value == None then
                 if Starts(lines[0], field) then Whole(Some("" + Squeeze(lines[0][|field|..])), lines[1..], field)
                 else Whole(None, lines[1..], field)
               else if Indented(lines[0]) then Whole(Some(value.value + Squeeze(lines[0])), lines[1..], field)
               else value
  {
    if value == None {
      if Starts(lines[0], field) {
        var part := Squeeze(lines[0][|field|..]);
        assert "" + part == part;
      }
    } else if Indented(lines[0]) {
      Assoc(value.value, Squeeze(lines[0]), ContinuedC(lines[1..]));
    } else {
      assert value.value + "" == value.value;
    }
  }

  lemma WholeEnd(value: Option<string>, field: string)
    ensures Whole(value, [], field) == value
  {
    assert value != None ==> value.value + "" == value.value;
  }

  /** The copying loop of field_value, over the lines of the text. */
  method ReadFieldC(text: string, field: string) returns (value: Option<string>)
    ensures value == FieldValueC(text, field)
  {
    var rest := text;
    value := None;
    while rest != ""
      invariant FieldValueC(text, field) == Whole(value, Lines(rest), field)
      decreases |rest|
    {
      var i := IndexOf(rest, '\n');
      var line := rest[..i];
      WholeStep(value, Lines(rest), field);
      LinesNext(rest);
      rest := if i < |rest| then rest[i + 1..] else "";
      if value == None {
        if Starts(line, field) {
          var copied := CopyInto("", line[|field|..]);
          value := Some(copied);
        }
      } else if Indented(line) {
        var copied := CopyInto(value.value, line);
        value := Some(copied);
      } else {
        return;
      }
    }
    WholeEnd(value, field);
  }

  lemma LinesNext(rest: string)
    requires rest != ""
    ensures var i := IndexOf(rest, '\n');
            && Lines(rest) != [] && Lines(rest)[0] == rest[..i]
            && Lines(rest)[1..] == Lines(if i < |rest| then rest[i + 1..] else "")
  {
    assert rest[..|rest|] == rest;
  }

  /** Grows the buffer by the characters that are neither blanks nor backslashes. */
  method CopyInto(buffer: string, part: string) returns (grown: string)
    ensures grown == buffer + Squeeze(part)
  {
    grown := buffer;
    assert buffer + Squeeze("") == buffer;
    for i := 0 to |part|
      invariant grown == buffer + Squeeze(part[..i])
    {
      SqueezeAppend(part[..i], [part[i]]);
      assert part[..i + 1] == part[..i] + [part[i]];
      if part[i] != '\\' && !IsSpaceC(part[i]) {
        grown := grown + [part[i]];
      }
    }
    assert part[..|part|] == part;
  }

  // ---- resource_from_list -------------------------------------------------------

  function TrimC(s: string): string {
    TrimBy(IsSpaceC, s)
  }

  function ItemValueC(item: string, name: string): Option<string> {
    var (key, value, ok) := Cut(item, '=');
    if ok && TrimC(key) == name && TrimC(value) != "" then Some(TrimC(value)) else None
  }

  function FirstValueC(items: seq<string>, name: string): Option<string> {
    if items == [] then None
    else if ItemValueC(items[0], name) != None then ItemValueC(items[0], name)
    else FirstValueC(items[1..], name)
  }

  function ResourceFromListC(list: string, name: string): Option<string> {
    FirstValueC(Tokens(list, ','), name)
  }

  /** The strtok_r loop, which cuts the list into its items, keys and values in place. */
  method ReadListC(list: array<char>, name: string) returns (r: Option<string>)
    requires Terminated(list[..], 0)
    modifies list
    ensures r == ResourceFromListC(old(CStr(list[..], 0)), name)
  {
    ghost var tokens := Tokens(CStr(list[..], 0), ',');
    var item, next := NextToken(list, 0, ',');
    while item != None
      invariant 0 <= next < list.Length && Terminated(list[..], next)
      invariant Scanned(list[..], tokens, item, next)
      invariant tokens != [] ==> Tokens(CStr(list[..], next), ',') == tokens[1..]
      invariant FirstValueC(tokens, name) == ResourceFromListC(old(CStr(list[..], 0)), name)
      decreases |tokens|
    {
      ghost var text := tokens[0];
      ghost var before := list[..];
      r := ReadItemC(list, item.value, name, text, next);
      if r != None {
        return;
      }
      SameTail(before, list[..], next);
      tokens := tokens[1..];
      item, next := NextToken(list, next, ',');
    }
    r := None;
  }

  lemma SameTail(before: seq<char>, after: seq<char>, next: nat)
    requires next < |before| == |after| && before[next..] == after[next..]
    ensures CStr(before, next) == CStr(after, next) && (Terminated(before, next) <==> Terminated(after, next))
  {
  }

  /** strchr, two trims and the comparison for one item. */
  method ReadItemC(list: array<char>, item: nat, name: string, ghost text: string, ghost next: nat) returns (r: Option<string>)
    requires IsToken(list[..], item, text, next) && next < list.Length
    modifies list
    ensures r == ItemValueC(text, name)
    ensures list[next..] == old(list[next..])
  {
    TokenChars(list[..], item, text, next);
    CharsText(list[..], item, text);
    var eq := Strcspn(list, item, '=');
    CharIs(list[..], item, text, IndexOf(text, '='));
    if list[eq] == NUL {
      return None;
    }
    var key, value := CutItem(list, item, eq, text, IndexOf(text, '='), next);
    if CStr(list[..], key) == name && CStr(list[..], value) != "" {
      r := Some(CStr(list[..], value));
    } else {
      r := None;
    }
  }

  /** Ends the key at the equals sign and trims both sides. */
  method CutItem(list: array<char>, item: nat, eq: nat, ghost text: string, ghost i: nat, ghost next: nat)
    returns (key: nat, value: nat)
    requires i < |text| && eq == item + i && item + |text| <= next < list.Length
    requires CharsAt(list[..], item, text)
    modifies list
    ensures key <= list.Length && CStr(list[..], key) == TrimC(text[..i])
    ensures value <= list.Length && CStr(list[..], value) == TrimC(text[i + 1..])
    ensures list[next..] == old(list[next..])
  {
    ghost var whole := list[..];
    key := CutKey(list, item, eq, text, i);
    ghost var mid := list[..];
    value := TrimString(list, eq + 1, text[i + 1..]);
    CutDone(whole, mid, list[..], key, eq, item + |text|, next);
  }

  lemma CutDone(whole: seq<char>, mid: seq<char>, last: seq<char>, key: nat, eq: nat, end: nat, next: nat)
    requires eq < end <= next < |whole| == |mid| == |last|
    requires Terminated(mid, key) && key + |CStr(mid, key)| <= eq
    requires mid[eq + 1..] == whole[eq + 1..] && last[..eq + 1] == mid[..eq + 1] && last[end..] == mid[end..]
    ensures CStr(last, key) == CStr(mid, key) && last[next..] == whole[next..]
  {
    PrefixText(mid, last, key, eq);
    KeepTail(mid, last, end, next);
    KeepTail(whole, mid, eq + 1, next);
  }

  method CutKey(list: array<char>, item: nat, eq: nat, ghost text: string, ghost i: nat) returns (key: nat)
    requires i < |text| && eq == item + i
    requires CharsAt(list[..], item, text)
    modifies list
    ensures Terminated(list[..], key) && CStr(list[..], key) == TrimC(text[..i])
    ensures key + |CStr(list[..], key)| <= eq
    ensures list[eq + 1..] == old(list[eq + 1..])
    ensures CharsAt(list[..], eq + 1, text[i + 1..])
  {
    ghost var whole := list[..];
    list[eq] := NUL;
    assert list[..] == whole[eq := NUL];
    CutChars(whole, item, text, i);
    key := TrimString(list, item, text[..i]);
    KeepTail(whole[eq := NUL], list[..], eq, eq + 1);
    assert whole[eq := NUL][eq + 1..] == whole[eq + 1..];
    SameChars(whole, list[..], eq + 1, text[i + 1..]);
  }

  /** trim_spaces on a string whose text is known. */
  method TrimString(list: array<char>, at: nat, ghost text: string) returns (start: nat)
    requires CharsAt(list[..], at, text)
    modifies list
    ensures Terminated(list[..], start) && CStr(list[..], start) == TrimC(text)
    ensures start + |CStr(list[..], start)| <= at + |text|
    ensures list[..at] == old(list[..at]) && list[at + |text|..] == old(list[at + |text|..])
  {
    CharsText(list[..], at, text);
    start := Trim(list, at, IsSpaceC, IsSpaceC);
  }

  lemma TokenChars(buf: seq<char>, item: nat, text: string, next: nat)
    requires IsToken(buf, item, text, next)
    ensures CharsAt(buf, item, text)
  {
  }

  lemma CharIs(buf: seq<char>, item: nat, text: string, i: nat)
    requires CharsAt(buf, item, text) && i <= |text| && (i < |text| ==> text[i] == '=')
    ensures buf[item + i] == NUL <==> i == |text|
  {
    if i < |text| {
      assert buf[item + i] == buf[item..item + |text|][i];
    }
  }

  lemma SameChars(before: seq<char>, after: seq<char>, at: nat, text: string)
    requires CharsAt(before, at, text) && |after| == |before| && before[at..] == after[at..]
    ensures CharsAt(after, at, text)
  {
    assert after[at..at + |text|] == after[at..][..|text|];
    assert before[at..at + |text|] == before[at..][..|text|];
    assert after[at + |text|] == after[at..][|text|];
    assert before[at + |text|] == before[at..][|text|];
  }

  lemma KeepTail(before: seq<char>, after: seq<char>, end: nat, from: nat)
    requires end <= from < |before| == |after| && before[end..] == after[end..]
    ensures before[from..] == after[from..]
    ensures CStr(before, from) == CStr(after, from) && (Terminated(before, from) <==> Terminated(after, from))
  {
    assert before[from..] == before[end..][from - end..];
    assert after[from..] == after[end..][from - end..];
  }

  lemma SameSlice(before: seq<char>, after: seq<char>, n: nat, a: nat, b: nat)
    requires a <= b <= n <= |before| == |after| && before[..n] == after[..n]
    ensures before[a..b] == after[a..b] && forall k :: a <= k < n ==> before[k] == after[k]
  {
    assert before[a..b] == before[..n][a..b];
    assert after[a..b] == after[..n][a..b];
    assert forall k :: a <= k < n ==> before[k] == before[..n][k] && after[k] == after[..n][k];
  }

  lemma PrefixText(before: seq<char>, after: seq<char>, key: nat, eq: nat)
    requires |before| == |after| && Terminated(before, key) && key + |CStr(before, key)| <= eq < |before|
    requires before[..eq + 1] == after[..eq + 1]
    ensures CStr(after, key) == CStr(before, key)
  {
    CStrShape(before, key);
    var s := CStr(before, key);
    SameSlice(before, after, eq + 1, key, key + |s|);
    CStrIs(after, key, s);
  }
}

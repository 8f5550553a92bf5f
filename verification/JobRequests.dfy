/** Which lists of qstat's answer the prologs read: the hard requests, else those of the master task, and no others. */
module JobRequests {
  import opened FieldReader
  import opened FieldReaderC
  import opened RequestAgreement
  import opened Text
  import opened Wrappers

  /** What a layout printed after a field binds, to both readers. */
  lemma PrintedBindings(before: seq<string>, field: string, pieces: seq<Piece>, after: seq<string>, items: seq<(string, string)>, name: string)
    requires Layout(before, field, pieces, after) && items != [] && (forall i :: 0 <= i < |items| ==> IsItem(items[i]))
    requires Bodies(pieces) == Join(ItemTexts(items), ",")
    ensures var text := Unlines(before + Block(field, pieces) + after);
            && Requested(text, field, name) == First(Trimmed(items), name)
            && (Plain(text) ==> RequestedC(text, field, name) == First(Stripped(Trimmed(items)), name))
  {
    var text := Unlines(before + Block(field, pieces) + after);
    LayoutBindings(before, field, pieces, after, items);
    LayoutIndependence(before, field, pieces, after, items, name);
    if Plain(text) {
      FieldLookups(text, field, name);
    }
  }

  /** A resource printed in the hard list is found there. */
  lemma HardIsRead(before: seq<string>, pieces: seq<Piece>, after: seq<string>, items: seq<(string, string)>, name: string)
    requires Layout(before, "hard_resource_list:", pieces, after) && items != [] && (forall i :: 0 <= i < |items| ==> IsItem(items[i]))
    requires Bodies(pieces) == Join(ItemTexts(items), ",") && First(Trimmed(items), name) != None
    ensures var text := Unlines(before + Block("hard_resource_list:", pieces) + after);
            && ParseJobRequestedResource(text, name) == First(Trimmed(items), name)
            && (Plain(text) && First(Stripped(Trimmed(items)), name) != None
                ==> ParseJobRequestedResourceC(text, name) == First(Stripped(Trimmed(items)), name))
  {
    PrintedBindings(before, "hard_resource_list:", pieces, after, items, name);
  }

  /** One printed in the master task's list is found exactly if the hard list does not have it. */
  lemma MasterIsRead(before: seq<string>, pieces: seq<Piece>, after: seq<string>, items: seq<(string, string)>, name: string)
    requires Layout(before, "master_hard_resource_list:", pieces, after) && items != []
    requires (forall i :: 0 <= i < |items| ==> IsItem(items[i])) && Bodies(pieces) == Join(ItemTexts(items), ",")
    ensures var text := Unlines(before + Block("master_hard_resource_list:", pieces) + after);
            var hard, hardC := Requested(text, "hard_resource_list:", name), RequestedC(text, "hard_resource_list:", name);
            && ParseJobRequestedResource(text, name) == (if hard != None then hard else First(Trimmed(items), name))
            && (Plain(text) ==> ParseJobRequestedResourceC(text, name)
                                == if hardC != None then hardC else First(Stripped(Trimmed(items)), name))
            && ((forall line <- Lines(text) :: !HasPrefix(line, "hard_resource_list:")) ==> hard == None && hardC == None)
  {
    var text := Unlines(before + Block("master_hard_resource_list:", pieces) + after);
    if forall line <- Lines(text) :: !HasPrefix(line, "hard_resource_list:") {
      NoSuchField(text, "hard_resource_list:", name);
    }
    PrintedBindings(before, "master_hard_resource_list:", pieces, after, items, name);
  }

  lemma {:induction false} NoLineStarts(lines: seq<string>, field: string)
    requires forall line <- lines :: !HasPrefix(line, field)
    ensures CollectedC(lines, field) == None
    ensures Collected(ScannedLines(lines), field) == ""
  {
    if lines != [] {
      assert lines[0] in lines && forall line <- lines[1..] :: line in lines;
      NoLineStarts(lines[1..], field);
      NoPrefix(lines[0], field);
      if ByteLen(lines[0]) < SCAN_LIMIT {
        RemainingStep(lines, field, false);
      }
    }
  }

  lemma NoPrefix(line: string, field: string)
    requires !HasPrefix(line, field)
    ensures !HasPrefix(DropCR(line), field)
  {
    assert DropCR(line) <= line;
  }

  /** A field that no line starts with has no value. */
  lemma NoSuchField(text: string, field: string, name: string)
    requires forall line <- Lines(text) :: !HasPrefix(line, field)
    ensures Requested(text, field, name) == None && RequestedC(text, field, name) == None
  {
    NoLineStarts(Lines(text), field);
    EmptyList(name);
  }

  /** A text no line of which starts with either field requests nothing, whatever else it lists. */
  lemma NothingElseIsRead(text: string, name: string)
    requires forall line <- Lines(text) :: !HasPrefix(line, "hard_resource_list:") && !HasPrefix(line, "master_hard_resource_list:")
    ensures ParseJobRequestedResource(text, name) == None && ParseJobRequestedResourceC(text, name) == None
  {
    NoSuchField(text, "hard_resource_list:", name);
    NoSuchField(text, "master_hard_resource_list:", name);
  }

  lemma EmptyList(name: string)
    ensures ResourceFromList("", name) == None && NoBackslash("") == ""
  {
    SplitNone("", ',');
    GoFirst([""], name);
    assert Binding("") == None && [""][1..] == [] && Bindings([]) == [];
    assert Bindings([""]) == [] + [];
  }

  /** Soft requests are such texts. */
  lemma SoftIsNotRead(list: string, name: string)
    requires '\n' !in list
    ensures ParseJobRequestedResource("soft_resource_list: " + list + "\n", name) == None
    ensures ParseJobRequestedResourceC("soft_resource_list: " + list + "\n", name) == None
  {
    var line := "soft_resource_list: " + list;
    assert line + "\n" == line + "\n" + "";
    LinesHead(line, "");
    assert line[0] == 's' && "hard_resource_list:"[0] == 'h' && "master_hard_resource_list:"[0] == 'm';
    NothingElseIsRead(line + "\n", name);
  }
}

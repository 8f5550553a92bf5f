/** Atomic publication of the metadata file: temporary file, buffered writes, rename. */
module Publish {
  import opened Decimal
  import opened Metadata
  import opened Paths
  import opened Spool
  import opened Text
  import opened Wrappers

  type Files = map<string, string>

  const TEMP_PREFIX := "qrmi_ocs_acquired."
  const TEMP_SUFFIX := ".tsv"
  const TEMP_TRIES: nat := 10000

  /** A file system whose calls may fail, with everything it has ever looked like.
      The oracles decide which calls fail, how far a failing write gets, how much
      the buffered writer hands on, and the temporary names. */
  class Disk {
    var files: Files
    var calls: nat
    ghost var history: seq<Files>
    const fails: nat -> bool
    const amount: nat -> nat
    const random: nat -> nat

    ghost predicate Valid()
      reads this
    {
      history != [] && history[|history| - 1] == files
    }

    /** No call fails. */
    ghost predicate Reliable() {
      forall n :: !fails(n)
    }

    constructor (files: Files, fails: nat -> bool, amount: nat -> nat, random: nat -> nat)
      ensures Valid() && this.files == files && history == [files]
      ensures this.fails == fails && this.amount == amount && this.random == random
    {
      this.files, this.calls, this.history := files, 0, [files];
      this.fails, this.amount, this.random := fails, amount, random;
    }

    /** One system call: the new state becomes visible to other processes. */
    method Commit(next: Files)
      requires Valid()
      modifies this
      ensures Valid() && files == next && history == old(history) + [next]
    {
      files, calls, history := next, calls + 1, history + [next];
    }

    /** os.CreateTemp: a name no file has. */
    method CreateTemp(dir: string) returns (name: Option<string>)
      requires Valid()
      modifies this
      ensures Valid()
      ensures name == None ==> files == old(files) && history == old(history)
      ensures name != None ==> name.value !in old(files) && IsTempIn(dir, name.value)
      ensures name != None ==> files == old(files)[name.value := ""] && history == old(history) + [files]
      ensures Reliable() && NoTemps(old(files)) ==> name != None
    {
      var tries := 0;
      while tries < TEMP_TRIES
        invariant Valid() && files == old(files) && history == old(history)
        invariant Reliable() && NoTemps(files) ==> tries == 0
      {
        calls := calls + 1;
        if fails(calls) {
          return None;
        }
        var candidate := TempPath(dir, random(calls));
        TempShape(dir + (if HasSuffix(dir, "/") then "" else "/"), random(calls));
        if candidate !in files {
          Commit(files[candidate := ""]);
          return Some(candidate);
        }
        tries := tries + 1;
      }
      name := None;
    }

    /** One write call: all of the text, or on failure some prefix of it. */
    method Write(name: string, text: string) returns (ok: bool)
      requires Valid() && name in files
      modifies this
      ensures Valid() && |history| == |old(history)| + 1 && old(history) == history[..|old(history)|]
      ensures name in files && files == old(files)[name := files[name]]
      ensures old(files)[name] <= files[name] <= old(files)[name] + text
      ensures ok ==> files[name] == old(files)[name] + text
      ensures Reliable() ==> ok
    {
      calls := calls + 1;
      ok := !fails(calls);
      var n := if ok || amount(calls) > |text| then |text| else amount(calls);
      assert old(files)[name] + text[..n] <= old(files)[name] + text;
      Commit(files[name := files[name] + text[..n]]);
    }

    method Rename(from: string, to: string) returns (ok: bool)
      requires Valid() && from in files
      modifies this
      ensures Valid()
      ensures !ok ==> files == old(files) && history == old(history)
      ensures ok ==> files == (old(files) - {from})[to := old(files)[from]] && history == old(history) + [files]
      ensures Reliable() ==> ok
    {
      calls := calls + 1;
      ok := !fails(calls);
      if ok {
        Commit((files - {from})[to := files[from]]);
      }
    }

    /** os.Link: fails when the new name exists. */
    method Link(from: string, to: string) returns (ok: bool)
      requires Valid()
      modifies this
      ensures Valid()
      ensures !ok ==> files == old(files) && history == old(history)
      ensures ok ==> from in old(files) && to !in old(files)
                     && files == old(files)[to := old(files)[from]] && history == old(history) + [files]
      ensures Reliable() ==> (ok <==> from in old(files) && to !in old(files))
    {
      calls := calls + 1;
      ok := !fails(calls) && from in files && to !in files;
      if ok {
        Commit(files[to := files[from]]);
      }
    }

    method Remove(name: string)
      requires Valid()
      modifies this
      ensures Valid()
      ensures (files == old(files) && history == old(history))
              || (files == old(files) - {name} && history == old(history) + [files])
      ensures Reliable() ==> files == old(files) - {name}
    {
      calls := calls + 1;
      if !fails(calls) && name in files {
        Commit(files - {name});
      }
    }
  }

  predicate IsTemp(name: string) {
    |name| > 5 && HasSuffix(name, TEMP_SUFFIX) && IsDigit(name[|name| - 5])
  }

  function TempName(n: nat): string {
    TEMP_PREFIX + Itoa(n) + TEMP_SUFFIX
  }

  function TempPath(dir: string, n: nat): string {
    dir + (if HasSuffix(dir, "/") then "" else "/") + TempName(n)
  }

  ghost predicate IsTempIn(dir: string, name: string) {
    IsTemp(name) && exists n: nat :: name == TempPath(dir, n)
  }

  ghost predicate NoTemps(files: Files) {
    forall name <- files :: !IsTemp(name)
  }

  lemma TempShape(head: string, n: nat)
    ensures IsTemp(head + TempName(n))
  {
    ItoaPlain(n);
    var name := head + TempName(n);
    assert name[|name| - 4..] == TEMP_SUFFIX;
    assert name[|name| - 5] == Itoa(n)[|Itoa(n)| - 1];
  }

  /** A temporary name is never a metadata path. */
  lemma TempIsNotTarget(name: string, path: string)
    requires IsTemp(name) && HasSuffix(path, METADATA_FILENAME)
    ensures name != path
  {
    assert path[|path| - |METADATA_FILENAME|..][|METADATA_FILENAME| - 5] == 'd';
  }

  predicate WritableTo(records: seq<Record>, n: nat) {
    n <= |records| && forall k :: 0 <= k < n ==> Writable(records[k])
  }

  predicate AllWritable(records: seq<Record>) {
    WritableTo(records, |records|)
  }

  /** How many records are written before the first one that may not be. */
  function WritableCount(records: seq<Record>): (n: nat)
    ensures WritableTo(records, n) && (n < |records| ==> !Writable(records[n]))
  {
    if records == [] || !Writable(records[0]) then 0 else 1 + WritableCount(records[1..])
  }

  // ---- What a reader can see ---------------------------------------------------------------

  /** One publication: the disk it starts from, the path, the temporary file, the text, and
      whether all of the records may be written. */
  datatype Publication = Publication(before: Files, path: string, temp: string, text: string, whole: bool)

  /** The disk before, with a first part of the text in the temporary file, or with all of it at the path. */
  ghost predicate Stage(now: Files, p: Publication) {
    || now == p.before
    || (p.temp in now && now[p.temp] <= p.text && now == p.before[p.temp := now[p.temp]])
    || (p.whole && now == p.before[p.path := p.text])
  }

  /** Every state from an index on is such a stage. */
  ghost predicate Stages(history: seq<Files>, from: nat, p: Publication) {
    forall i | from <= i < |history| :: Stage(history[i], p)
  }

  /** What a reader of the path sees is what was there before, or all of the text, and no other file has changed. */
  ghost predicate WholeOrOld(now: Files, p: Publication) {
    && ((p.path in now && now[p.path] == p.text)
        || (p.path !in now && p.path !in p.before)
        || (p.path in now && p.path in p.before && now[p.path] == p.before[p.path]))
    && now - {p.path, p.temp} == p.before - {p.path, p.temp}
  }

  lemma StageIsWhole(now: Files, p: Publication)
    requires Stage(now, p) && p.temp != p.path
    ensures WholeOrOld(now, p)
  {
    assert p.before[p.path := p.text] - {p.path, p.temp} == p.before - {p.path, p.temp};
    if p.temp in now {
      assert p.before[p.temp := now[p.temp]] - {p.path, p.temp} == p.before - {p.path, p.temp};
    }
  }

  /** No partial file is ever seen. */
  lemma NeverPartial(history: seq<Files>, from: nat, p: Publication)
    requires Stages(history, from, p) && p.temp != p.path
    ensures forall i | from <= i < |history| :: WholeOrOld(history[i], p)
  {
    forall i | from <= i < |history|
      ensures WholeOrOld(history[i], p)
    {
      StageIsWhole(history[i], p);
    }
  }

  // ---- Writing ---------------------------------------------------------------------------------

  /** The disk while only the temporary file has changed. */
  ghost predicate Writing(disk: Disk, was: seq<Files>, p: Publication)
    reads disk
  {
    && disk.Valid() && was <= disk.history && Stages(disk.history, |was|, p) && p.temp != p.path && p.temp !in p.before
    && p.temp in disk.files && disk.files[p.temp] <= p.text && disk.files == p.before[p.temp := disk.files[p.temp]]
  }

  /** The disk after the rename. */
  ghost predicate Moved(disk: Disk, was: seq<Files>, p: Publication)
    reads disk
  {
    && disk.Valid() && was <= disk.history && Stages(disk.history, |was|, p) && p.temp != p.path && p.temp !in p.before
    && p.whole && disk.files == p.before[p.path := p.text]
  }

  /** The publication of the records through that temporary file. */
  function PublicationOf(before: Files, path: string, temp: string, records: seq<Record>): Publication {
    Publication(before, path, temp, Encode(records[..WritableCount(records)]), AllWritable(records))
  }

  lemma AllCounted(records: seq<Record>)
    ensures AllWritable(records) <==> WritableCount(records) == |records|
    ensures AllWritable(records) ==> records[..WritableCount(records)] == records
  {
  }

  /** What has been handed to the writer is a first part of the text. */
  lemma LineWithin(records: seq<Record>, i: nat, n: nat)
    requires i < n <= |records|
    ensures Encode(records[..i]) + (Line(records[i]) + "\n") <= Encode(records[..n])
  {
    NextPrefix(records, i);
    assert records[..n][..i + 1] == records[..i + 1];
    EncodePrefix(records[..n], i + 1);
  }

  /** The publication of one record. */
  function OneRecord(before: Files, path: string, temp: string, rec: Record): Publication {
    Publication(before, path, temp, if Writable(rec) then Encode([rec]) else "", Writable(rec))
  }

  lemma OneRecordIs(before: Files, path: string, temp: string, rec: Record)
    ensures PublicationOf(before, path, temp, [rec]) == OneRecord(before, path, temp, rec)
  {
    assert [rec][0] == rec && [rec][..1] == [rec] && [rec][..0] == [];
    assert WritableTo([rec], WritableCount([rec]));
  }

  /** Writes the records to path through a temporary file. The history shows every
      state in which a kill could leave the disk, or another process could read it;
      `temp` is the name of the temporary file, if one was made. */
  method WriteAtomic(disk: Disk, path: string, records: seq<Record>) returns (ok: bool, ghost temp: Option<string>)
    requires disk.Valid() && HasSuffix(path, METADATA_FILENAME)
    modifies disk
    ensures disk.Valid() && old(disk.history) <= disk.history
    ensures temp == None ==> !ok && disk.files == old(disk.files) && disk.history == old(disk.history)
    ensures temp != None ==>
              var p := PublicationOf(old(disk.files), path, temp.value, records);
              && IsTempIn(Dir(path), temp.value) && temp.value != path && temp.value !in old(disk.files)
              && Stages(disk.history, |old(disk.history)|, p) && Stage(disk.files, p)
              && (forall i | |old(disk.history)| <= i < |disk.history| :: WholeOrOld(disk.history[i], p))
              && (!ok ==> disk.files - {temp.value} == old(disk.files))
    ensures ok ==> disk.files == old(disk.files)[path := Encode(records)] && AllWritable(records)
    ensures disk.Reliable() && NoTemps(old(disk.files)) ==> if AllWritable(records) then ok else !ok && disk.files == old(disk.files)
  {
    ghost var before, was := disk.files, disk.history;
    var created := disk.CreateTemp(Dir(path));
    if created == None {
      return false, None;
    }
    var tmp := created.value;
    temp := Some(tmp);
    TempIsNotTarget(tmp, path);
    ghost var p := PublicationOf(before, path, tmp, records);
    AllCounted(records);
    ok := FillAndRename(disk, was, p, path, records, tmp);
    Discard(disk, was, p, tmp, ok);
    NeverPartial(disk.history, |was|, p);
  }

  /** Writes the temporary file and moves it to the path. */
  method FillAndRename(disk: Disk, ghost was: seq<Files>, ghost p: Publication, path: string, records: seq<Record>, tmp: string)
    returns (ok: bool)
    requires Writing(disk, was, p) && p == PublicationOf(p.before, path, tmp, records) && disk.files[tmp] == ""
    modifies disk
    ensures if ok then Moved(disk, was, p) else Writing(disk, was, p)
    ensures disk.Reliable() && p.whole ==> ok
  {
    AllCounted(records);
    ok := WriteTemp(disk, was, p, records, tmp, WritableCount(records));
    if ok {
      ok := RenameTemp(disk, was, p, path, tmp);
    }
  }

  /** The one call that changes the target. */
  method RenameTemp(disk: Disk, ghost was: seq<Files>, ghost p: Publication, path: string, tmp: string) returns (ok: bool)
    requires Writing(disk, was, p) && p.temp == tmp && p.path == path && p.whole && disk.files[tmp] == p.text
    modifies disk
    ensures if ok then Moved(disk, was, p) else Writing(disk, was, p)
    ensures disk.Reliable() ==> ok
  {
    ok := disk.Rename(tmp, path);
    Renamed(p.before, path, tmp, p.text);
  }

  /** Fills the temporary file through the buffered writer, flushes and closes it. */
  method WriteTemp(disk: Disk, ghost was: seq<Files>, ghost p: Publication, records: seq<Record>, tmp: string, ghost n: nat)
    returns (ok: bool)
    requires Writing(disk, was, p) && p.temp == tmp && disk.files[tmp] == ""
    requires WritableTo(records, n) && (n < |records| ==> !Writable(records[n]))
    requires p.text == Encode(records[..n]) && p.whole == (n == |records|)
    modifies disk
    ensures Writing(disk, was, p)
    ensures ok ==> disk.files[tmp] == p.text && p.whole
    ensures disk.Reliable() && p.whole ==> ok
  {
    var pending := "";
    for i := 0 to |records|
      invariant Writing(disk, was, p)
      invariant disk.files[tmp] + pending == Encode(records[..i])
      invariant i <= n
    {
      NextPrefix(records, i);
      if i < n {
        LineWithin(records, i, n);
      }
      ok, pending := WriteRecord(disk, was, p, tmp, records[i], pending);
      if !ok {
        return;
      }
    }
    assert records[..|records|] == records;
    ok := Push(disk, was, p, tmp, pending);
    ok := ok && !disk.fails(disk.calls);
  }

  /** One Fprintf on the buffered writer, after the check on the record. */
  method WriteRecord(disk: Disk, ghost was: seq<Files>, ghost p: Publication, tmp: string, r: Record, buffered: string)
    returns (ok: bool, pending: string)
    requires Writing(disk, was, p) && p.temp == tmp
    requires Writable(r) ==> disk.files[tmp] + buffered + (Line(r) + "\n") <= p.text
    modifies disk
    ensures Writing(disk, was, p)
    ensures ok ==> Writable(r) && disk.files[tmp] + pending == old(disk.files[tmp]) + buffered + (Line(r) + "\n")
    ensures disk.Reliable() && Writable(r) ==> ok
  {
    if !Writable(r) {
      return false, buffered;
    }
    Assoc(disk.files[tmp], buffered, Line(r) + "\n");
    ok, pending := HandOn(disk, was, p, tmp, buffered + (Line(r) + "\n"));
  }

  /** The buffered writer hands on any number of chunks of what it holds. */
  method HandOn(disk: Disk, ghost was: seq<Files>, ghost p: Publication, tmp: string, buffered: string)
    returns (ok: bool, pending: string)
    requires Writing(disk, was, p) && p.temp == tmp && disk.files[tmp] + buffered <= p.text
    modifies disk
    ensures Writing(disk, was, p)
    ensures ok ==> disk.files[tmp] + pending == old(disk.files[tmp]) + buffered
    ensures disk.Reliable() ==> ok
  {
    pending := buffered;
    var pushes := disk.amount(disk.calls);
    while pushes > 0
      invariant Writing(disk, was, p)
      invariant disk.files[tmp] + pending == old(disk.files[tmp]) + buffered
    {
      var n := if disk.amount(disk.calls) < |pending| then disk.amount(disk.calls) else |pending|;
      FirstPart(disk.files[tmp], pending, n);
      ok := Push(disk, was, p, tmp, pending[..n]);
      if !ok {
        return;
      }
      pending := pending[n..];
      pushes := pushes - 1;
    }
    ok := true;
  }

  lemma FirstPart(head: string, s: string, n: nat)
    requires n <= |s|
    ensures head + s[..n] <= head + s && head + s[..n] + s[n..] == head + s
  {
  }

  lemma PartWithin(start: string, part: string, more: string, text: string)
    requires start + more <= text && part <= start + more
    ensures part <= text
  {
  }

  /** A write to the temporary file shows nothing at the target. */
  method Push(disk: Disk, ghost was: seq<Files>, ghost p: Publication, tmp: string, more: string) returns (ok: bool)
    requires Writing(disk, was, p) && p.temp == tmp && disk.files[tmp] + more <= p.text
    modifies disk
    ensures Writing(disk, was, p)
    ensures ok ==> disk.files[tmp] == old(disk.files[tmp]) + more
    ensures disk.Reliable() ==> ok
  {
    ok := disk.Write(tmp, more);
    PartWithin(old(disk.files[tmp]), disk.files[tmp], more, p.text);
    assert disk.files == p.before[tmp := disk.files[tmp]];
  }

  /** The deferred removal: of the temporary file, or of nothing once that has moved. */
  method Discard(disk: Disk, ghost was: seq<Files>, ghost p: Publication, tmp: string, ghost moved: bool)
    requires p.temp == tmp && if moved then Moved(disk, was, p) else Writing(disk, was, p)
    modifies disk
    ensures disk.Valid() && was <= disk.history && Stages(disk.history, |was|, p) && Stage(disk.files, p)
    ensures if moved then disk.files == p.before[p.path := p.text]
            else disk.files - {tmp} == p.before && (disk.Reliable() ==> disk.files == p.before)
  {
    Removed(p, disk.files, moved);
    disk.Remove(tmp);
  }

  lemma Removed(p: Publication, files: Files, moved: bool)
    requires p.temp != p.path && p.temp !in p.before
    requires if moved then files == p.before[p.path := p.text] else p.temp in files && files == p.before[p.temp := files[p.temp]]
    ensures files - {p.temp} == if moved then p.before[p.path := p.text] else p.before
    ensures p.before - {p.temp} == p.before
  {
  }

  lemma Renamed(before: Files, path: string, tmp: string, text: string)
    requires tmp != path && tmp !in before
    ensures (before[tmp := text] - {tmp})[path := text] == before[path := text]
  {
    assert before[tmp := text] - {tmp} == before;
  }

  lemma NextPrefix(records: seq<Record>, i: nat)
    requires i < |records|
    ensures Encode(records[..i + 1]) == Encode(records[..i]) + (Line(records[i]) + "\n")
  {
    var before, r := records[..i], records[i];
    assert records[..i + 1] == before + [r];
    EncodeSnoc(before, r);
  }

  lemma {:induction false} EncodePrefix(records: seq<Record>, n: nat)
    requires n <= |records|
    ensures Encode(records[..n]) <= Encode(records)
  {
    if n == 0 {
      assert records[..0] == [];
    } else {
      assert records[..n][1..] == records[1..][..n - 1];
      EncodePrefix(records[1..], n - 1);
    }
  }

  lemma {:induction false} EncodeSnoc(records: seq<Record>, r: Record)
    ensures Encode(records + [r]) == Encode(records) + (Line(r) + "\n")
  {
    if records == [] {
      assert records + [r] == [r];
    } else {
      assert (records + [r])[1..] == records[1..] + [r];
      EncodeSnoc(records[1..], r);
      Assoc(Line(records[0]) + "\n", Encode(records[1..]), Line(r) + "\n");
    }
  }
}

/** NUL-terminated strings in a buffer, and the C library calls the hooks make on them. */
module CBuffer {
  import opened Text
  import opened Wrappers

  const NUL: char := '\0'

  /** The string that starts at an index of a buffer. */
  function CStr(buf: seq<char>, from: nat): (s: string)
    requires from <= |buf|
    ensures |s| <= |buf| - from
    ensures NUL !in s
  {
    buf[from..][..IndexOf(buf[from..], NUL)]
  }

  predicate Terminated(buf: seq<char>, from: nat) {
    from < |buf| && NUL in buf[from..]
  }

  /** A string read at an index is unchanged by writes before that index or after its end. */
  lemma CStrIs(buf: seq<char>, from: nat, s: string)
    requires from + |s| < |buf| && buf[from..from + |s|] == s && buf[from + |s|] == NUL && NUL !in s
    ensures CStr(buf, from) == s && Terminated(buf, from)
  {
    var t := buf[from..];
    assert t == s + [NUL] + t[|s| + 1..];
    IndexOfAppend(s, NUL, t[|s| + 1..]);
    assert t[|s|] == NUL;
  }

  /** The text stands at an index of the buffer, ended by a NUL. */
  ghost predicate CharsAt(buf: seq<char>, at: nat, text: string) {
    at + |text| < |buf| && buf[at..at + |text|] == text && buf[at + |text|] == NUL && NUL !in text
  }

  lemma CStrShape(buf: seq<char>, from: nat)
    requires Terminated(buf, from)
    ensures var s := CStr(buf, from);
            CharsAt(buf, from, s) && forall k :: 0 <= k < |s| ==> buf[from + k] == s[k] && s[k] != NUL
  {
    var s := CStr(buf, from);
    assert buf[from..][|s|] == NUL;
    assert forall k | 0 <= k < |s| :: s[k] in s;
  }

  lemma CharsText(buf: seq<char>, at: nat, text: string)
    requires CharsAt(buf, at, text)
    ensures CStr(buf, at) == text && Terminated(buf, at)
  {
    CStrIs(buf, at, text);
  }

  /** Ending a text early leaves its head, and its tail behind the new end. */
  lemma CutChars(whole: seq<char>, at: nat, text: string, i: nat)
    requires CharsAt(whole, at, text) && i < |text|
    ensures CharsAt(whole[at + i := NUL], at, text[..i])
    ensures CharsAt(whole[at + i := NUL], at + i + 1, text[i + 1..])
  {
    var s, cut := whole[at..at + |text|], whole[at + i := NUL];
    assert cut[at..at + i] == s[..i];
    assert cut[at + i + 1..at + |text|] == s[i + 1..];
  }

  /** What a C string function sees of s: the text before its first NUL. */
  function UntilNul(s: string): (t: string)
    ensures |t| <= |s| && t == s[..|t|] && NUL !in t && (|t| < |s| ==> s[|t|] == NUL)
    ensures NUL !in s ==> t == s
  {
    s[..IndexOf(s, NUL)]
  }

  /** A fresh buffer that holds s. */
  method Copy(s: string) returns (buf: array<char>)
    ensures fresh(buf) && buf.Length == |s| + 1 && Terminated(buf[..], 0) && CStr(buf[..], 0) == UntilNul(s)
  {
    buf := new char[|s| + 1](i requires 0 <= i <= |s| => if i < |s| then s[i] else NUL);
    assert buf[..][0..|UntilNul(s)|] == UntilNul(s);
    CStrIs(buf[..], 0, UntilNul(s));
  }

  // ---- strtok_r -----------------------------------------------------------

  function SkipDelims(s: string, d: char): (t: string)
    ensures |t| <= |s|
    ensures t != "" ==> t[0] != d
  {
    if s != "" && s[0] == d then SkipDelims(s[1..], d) else s
  }

  /** The non-empty pieces between delimiters. */
  function Tokens(s: string, d: char): seq<string>
    decreases |s|
  {
    var t := SkipDelims(s, d);
    if t == "" then []
    else [t[..IndexOf(t, d)]] + Tokens(AfterToken(t, d), d)
  }

  function AfterToken(t: string, d: char): (rest: string)
    requires t != "" && t[0] != d
    ensures |rest| < |t|
  {
    var i := IndexOf(t, d);
    if i < |t| then t[i + 1..] else ""
  }

  lemma CStrSuffix(buf: seq<char>, from: nat, k: nat)
    requires Terminated(buf, from) && k <= |CStr(buf, from)|
    ensures Terminated(buf, from + k) && CStr(buf, from + k) == CStr(buf, from)[k..]
  {
    CStrShape(buf, from);
    var s := CStr(buf, from);
    assert buf[from + k..from + |s|] == s[k..];
    CStrIs(buf, from + k, s[k..]);
  }

  lemma CStrHead(buf: seq<char>, from: nat)
    requires Terminated(buf, from)
    ensures var s := CStr(buf, from); if s == "" then buf[from] == NUL else buf[from] == s[0] && s[0] != NUL
  {
    CStrShape(buf, from);
    var s := CStr(buf, from);
    if s != "" {
      assert buf[from..from + |s|][0] == s[0];
      assert s[0] in s;
    }
  }

  lemma SpanStep(buf: seq<char>, start: nat, d: char)
    requires Terminated(buf, start) && d != NUL
    ensures var s := CStr(buf, start);
            if buf[start] == d then
              start + 1 < |buf| && Terminated(buf, start + 1) && SkipDelims(s, d) == SkipDelims(CStr(buf, start + 1), d)
            else SkipDelims(s, d) == s
  {
    CStrHead(buf, start);
    if buf[start] == d {
      CStrSuffix(buf, start, 1);
    }
  }

  /** strspn on one delimiter: the index after the leading delimiters. */
  method Strspn(buf: array<char>, from: nat, d: char) returns (start: nat)
    requires Terminated(buf[..], from) && d != NUL
    ensures from <= start < buf.Length && Terminated(buf[..], start)
    ensures CStr(buf[..], start) == SkipDelims(CStr(buf[..], from), d)
  {
    ghost var whole := buf[..];
    start := from;
    SpanStep(whole, start, d);
    while buf[start] == d
      invariant from <= start < buf.Length && Terminated(whole, start)
      invariant SkipDelims(CStr(whole, start), d) == SkipDelims(CStr(whole, from), d)
      invariant buf[start] != d ==> SkipDelims(CStr(whole, start), d) == CStr(whole, start)
      decreases buf.Length - start
    {
      SpanStep(whole, start, d);
      start := start + 1;
      SpanStep(whole, start, d);
    }
  }

  /** strcspn on one delimiter: the index of the first delimiter or of the end. */
  method Strcspn(buf: array<char>, from: nat, d: char) returns (end: nat)
    requires Terminated(buf[..], from)
    ensures end == from + IndexOf(CStr(buf[..], from), d) < buf.Length
    ensures buf[end] == NUL || buf[end] == d
  {
    ghost var s := CStr(buf[..], from);
    CStrShape(buf[..], from);
    end := from;
    while buf[end] != NUL && buf[end] != d
      invariant from <= end <= from + |s|
      invariant d !in s[..end - from]
      decreases buf.Length - end
    {
      assert s[..end + 1 - from] == s[..end - from] + [s[end - from]];
      end := end + 1;
    }
    IndexIs(s, d, end - from);
  }

  lemma IndexIs(s: string, d: char, n: nat)
    requires n <= |s| && d !in s[..n]
    ensures n == |s| || s[n] == d ==> IndexOf(s, d) == n
  {
    if n == |s| {
      assert s[..n] == s;
    } else if s[n] == d {
      assert s == s[..n] + [d] + s[n + 1..];
      IndexOfAppend(s[..n], d, s[n + 1..]);
    }
  }

  /** The token at `start` is n characters long. */
  ghost predicate Found(buf: seq<char>, from: nat, d: char, start: nat, n: nat) {
    && from <= start && start + n < |buf| && Terminated(buf, start)
    && CStr(buf, start) == SkipDelims(CStr(buf, from), d) && n == IndexOf(CStr(buf, start), d)
    && (buf[start] == NUL <==> CStr(buf, start) == "")
  }

  /** The effect of one strtok_r call: nothing before `from` is written. */
  ghost predicate StrtokDone(before: seq<char>, after: seq<char>, from: nat, d: char, tok: Option<nat>, next: nat) {
    && |before| == |after| && from <= next < |after| && Terminated(after, next)
    && after[..from] == before[..from] && Taken(before, after, from, d, tok, next)
  }

  /** Finds the next token, the rest of the scan, and the delimiter to overwrite, if there is one. */
  method FindToken(buf: array<char>, from: nat, d: char)
    returns (tok: Option<nat>, next: nat, cut: Option<nat>, ghost after: seq<char>)
    requires Terminated(buf[..], from) && d != NUL
    ensures cut != None ==> cut.value < buf.Length
    ensures after == if cut == None then buf[..] else buf[..][cut.value := NUL]
    ensures StrtokDone(buf[..], after, from, d, tok, next)
  {
    ghost var whole := buf[..];
    var start, n := NextSpan(buf, from, d);
    if buf[start] == NUL {
      NoneDone(whole, from, start, n, d);
      return None, start, None, whole;
    }
    if buf[start + n] == NUL {
      LastDone(whole, from, start, n, d);
      return Some(start), start + n, None, whole;
    }
    CutDone(whole, from, start, n, d);
    return Some(start), start + n + 1, Some(start + n), whole[start + n := NUL];
  }

  method NextSpan(buf: array<char>, from: nat, d: char) returns (start: nat, n: nat)
    requires Terminated(buf[..], from) && d != NUL
    ensures Found(buf[..], from, d, start, n)
  {
    start := Strspn(buf, from, d);
    CStrHead(buf[..], start);
    var end := Strcspn(buf, start, d);
    n := end - start;
  }

  /** strtok_r on the string at `from`: overwrites the delimiter after the first
      token and leaves the rest of the scan at `next`. */
  method Strtok(buf: array<char>, from: nat, d: char) returns (tok: Option<nat>, next: nat)
    requires Terminated(buf[..], from) && d != NUL
    modifies buf
    ensures StrtokDone(old(buf[..]), buf[..], from, d, tok, next)
  {
    var cut;
    ghost var after;
    tok, next, cut, after := FindToken(buf, from, d);
    if cut != None {
      PutNul(buf, cut.value);
    }
  }

  method PutNul(buf: array<char>, end: nat)
    requires end < buf.Length
    modifies buf
    ensures buf[..] == old(buf[..])[end := NUL]
  {
    buf[end] := NUL;
  }

  lemma NoneDone(whole: seq<char>, from: nat, start: nat, n: nat, d: char)
    requires Found(whole, from, d, start, n) && whole[start] == NUL
    ensures StrtokDone(whole, whole, from, d, None, start)
  {
  }

  lemma LastDone(whole: seq<char>, from: nat, start: nat, n: nat, d: char)
    requires Found(whole, from, d, start, n) && whole[start] != NUL && whole[start + n] == NUL
    ensures StrtokDone(whole, whole, from, d, Some(start), start + n)
  {
    TakeLast(whole, start, CStr(whole, start), n, d);
  }

  lemma CutDone(whole: seq<char>, from: nat, start: nat, n: nat, d: char)
    requires Found(whole, from, d, start, n) && whole[start] != NUL && whole[start + n] != NUL
    ensures StrtokDone(whole, whole[start + n := NUL], from, d, Some(start), start + n + 1)
  {
    var t := CStr(whole, start);
    CStrShape(whole, start);
    assert n != |t|;
    TakeCut(whole, start, t, n, d);
    UpdateKeeps(whole, from, start + n);
  }

  lemma UpdateKeeps(whole: seq<char>, from: nat, end: nat)
    requires from <= end < |whole|
    ensures whole[end := NUL][..from] == whole[..from]
  {
  }

  /** What one strtok_r call leaves behind. */
  ghost predicate Taken(before: seq<char>, after: seq<char>, from: nat, d: char, tok: Option<nat>, next: nat)
    requires |before| == |after| && from <= |before| && next <= |before|
  {
    var t := SkipDelims(CStr(before, from), d);
    if t == "" then tok == None && after == before && CStr(after, next) == ""
    else tok != None && from <= tok.value && TokenTaken(after, tok.value, t, d, next)
  }

  /** The token's characters and terminator, and the rest of the scan behind it. */
  ghost predicate TokenTaken(buf: seq<char>, at: nat, t: string, d: char, next: nat)
    requires t != "" && t[0] != d
  {
    && next < |buf| && CStr(buf, next) == AfterToken(t, d)
    && IsToken(buf, at, t[..IndexOf(t, d)], next)
  }

  /** Nothing after the terminator belongs to the token, so later calls leave it alone. */
  ghost predicate IsToken(buf: seq<char>, at: nat, token: string, next: nat) {
    && at + |token| < |buf| && at + |token| <= next
    && buf[at..at + |token|] == token && buf[at + |token|] == NUL && NUL !in token
    && (next == at + |token| ==> next < |buf| && buf[next] == NUL)
  }

  lemma TakeLast(buf: seq<char>, start: nat, t: string, n: nat, d: char)
    requires Terminated(buf, start) && t == CStr(buf, start) && t != "" && t[0] != d
    requires n == IndexOf(t, d) && start + n < |buf| && buf[start + n] == NUL
    ensures TokenTaken(buf, start, t, d, start + n) && Terminated(buf, start + n)
  {
    CStrShape(buf, start);
    assert n == |t|;
    assert t[..|t|] == t;
    CStrIs(buf, start + n, "");
  }

  lemma TakeCut(whole: seq<char>, start: nat, t: string, n: nat, d: char)
    requires CharsAt(whole, start, t) && t != "" && t[0] != d
    requires n == IndexOf(t, d) < |t|
    ensures var cut := whole[start + n := NUL];
            && start + n + 1 < |whole| && TokenTaken(cut, start, t, d, start + n + 1) && Terminated(cut, start + n + 1)
  {
    var cut := whole[start + n := NUL];
    CutChars(whole, start, t, n);
    CharsText(cut, start + n + 1, t[n + 1..]);
    TakenAt(cut, start, t, d, n);
  }

  lemma TakenAt(buf: seq<char>, at: nat, t: string, d: char, n: nat)
    requires t != "" && t[0] != d && n == IndexOf(t, d) < |t| && at + n + 1 < |buf|
    requires CStr(buf, at + n + 1) == t[n + 1..] && CharsAt(buf, at, t[..n])
    ensures TokenTaken(buf, at, t, d, at + n + 1)
  {
  }

  /** The same call in terms of the tokens still to scan. */
  ghost predicate Scanned(buf: seq<char>, tokens: seq<string>, tok: Option<nat>, next: nat) {
    if tokens == [] then tok == None else tok != None && IsToken(buf, tok.value, tokens[0], next)
  }

  /** A call at `from` writes nothing before it, and nothing at all when the scan is over. */
  ghost predicate Keeps(before: seq<char>, after: seq<char>, from: nat, next: nat) {
    && from <= next < |before| == |after|
    && before[..from] == after[..from] && (before[from] == NUL ==> after == before)
  }

  /** An earlier token survives a later call. */
  lemma Survives(before: seq<char>, after: seq<char>, at: nat, token: string, next: nat, next2: nat)
    requires IsToken(before, at, token, next) && Keeps(before, after, next, next2)
    ensures IsToken(after, at, token, next2)
  {
    if next != at + |token| {
      assert after[at..at + |token|] == after[..next][at..at + |token|];
      assert before[at..at + |token|] == before[..next][at..at + |token|];
      assert after[at + |token|] == after[..next][at + |token|];
    }
  }

  lemma TokenText(buf: seq<char>, at: nat, token: string, next: nat)
    requires IsToken(buf, at, token, next)
    ensures CStr(buf, at) == token
  {
    CStrIs(buf, at, token);
  }

  /** strtok_r, with the tokens it leaves to scan. */
  method NextToken(buf: array<char>, from: nat, d: char) returns (tok: Option<nat>, next: nat)
    requires Terminated(buf[..], from) && d != NUL
    modifies buf
    ensures from <= next < buf.Length && Terminated(buf[..], next)
    ensures Keeps(old(buf[..]), buf[..], from, next)
    ensures var tokens := Tokens(old(CStr(buf[..], from)), d);
            && Scanned(buf[..], tokens, tok, next)
            && Tokens(CStr(buf[..], next), d) == if tokens == [] then [] else tokens[1..]
  {
    ghost var s := CStr(buf[..], from);
    CStrHead(buf[..], from);
    tok, next := Strtok(buf, from, d);
    TokensUnfold(s, d);
  }

  lemma TokensUnfold(s: string, d: char)
    ensures var t := SkipDelims(s, d);
            Tokens(s, d) == if t == "" then [] else [t[..IndexOf(t, d)]] + Tokens(AfterToken(t, d), d)
  {
  }

  // ---- Trimming in place -----------------------------------------------------

  /** Skips characters of p from the left, then ends the string before its last
      run of characters of q (trim_spaces and trim_token). */
  method Trim(buf: array<char>, at: nat, p: char -> bool, q: char -> bool) returns (start: nat)
    requires Terminated(buf[..], at) && !p(NUL)
    modifies buf
    ensures at <= start && Terminated(buf[..], start)
    ensures buf[..at] == old(buf[..at])
    ensures var end := at + |old(CStr(buf[..], at))|;
            && start <= end < buf.Length && buf[end..] == old(buf[end..])
            && start + |CStr(buf[..], start)| <= end
    ensures CStr(buf[..], start) == TrimRightBy(q, TrimLeftBy(p, old(CStr(buf[..], at))))
  {
    ghost var whole := buf[..];
    ghost var s := CStr(whole, at);
    CStrShape(whole, at);
    start := SkipLeft(buf, at, p, s);
    var end := SkipRight(buf, start, q, s[start - at..]);
    PutNul(buf, end);
    TrimmedIs(whole, buf[..], at, start, end, s);
  }

  /** The index of the first character that p does not accept. */
  method SkipLeft(buf: array<char>, at: nat, p: char -> bool, ghost s: string) returns (start: nat)
    requires CharsAt(buf[..], at, s) && !p(NUL)
    ensures at <= start <= at + |s| && TrimLeftBy(p, s) == s[start - at..]
    ensures CharsAt(buf[..], start, s[start - at..])
  {
    start := at;
    assert s[0..] == s;
    while p(buf[start])
      invariant at <= start <= at + |s|
      invariant CharsAt(buf[..], start, s[start - at..])
      invariant TrimLeftBy(p, s) == TrimLeftBy(p, s[start - at..])
      decreases buf.Length - start
    {
      CharsNext(buf[..], start, s[start - at..]);
      assert s[start - at..][1..] == s[start + 1 - at..];
      start := start + 1;
    }
    CharsNext(buf[..], start, s[start - at..]);
  }

  lemma CharsNext(buf: seq<char>, at: nat, t: string)
    requires CharsAt(buf, at, t)
    ensures if t == "" then buf[at] == NUL
            else buf[at] == t[0] && buf[at] != NUL && CharsAt(buf, at + 1, t[1..])
  {
    if t != "" {
      assert buf[at..at + |t|][0] == buf[at];
      assert buf[at + 1..at + |t|] == buf[at..at + |t|][1..];
      assert t[0] in t;
    }
  }

  /** The end of the text without its last run of characters of q. */
  method SkipRight(buf: array<char>, start: nat, q: char -> bool, ghost t: string) returns (end: nat)
    requires CharsAt(buf[..], start, t)
    ensures start <= end <= start + |t| && TrimRightBy(q, t) == t[..end - start]
  {
    CharsText(buf[..], start, t);
    end := Strend(buf, start, t);
    assert t[..|t|] == t;
    while end > start && q(buf[end - 1])
      invariant start <= end <= start + |t|
      invariant TrimRightBy(q, t) == TrimRightBy(q, t[..end - start])
    {
      CharAt(buf[..], start, t, end - 1 - start);
      assert t[..end - start][..end - start - 1] == t[..end - 1 - start];
      end := end - 1;
    }
    if end > start {
      CharAt(buf[..], start, t, end - 1 - start);
    }
  }

  lemma CharAt(buf: seq<char>, at: nat, t: string, k: nat)
    requires CharsAt(buf, at, t) && k < |t|
    ensures buf[at + k] == t[k] == t[..k + 1][k] && t[k] != NUL
  {
    assert buf[at..at + |t|][k] == buf[at + k];
    assert t[k] in t;
  }

  lemma NulAtEnd(buf: seq<char>, at: nat, t: string, k: nat)
    requires CharsAt(buf, at, t) && k <= |t|
    ensures buf[at + k] == NUL <==> k == |t|
  {
    if k < |t| {
      assert buf[at..at + |t|][k] == buf[at + k];
      assert t[k] in t;
    }
  }

  /** start + strlen(start). */
  method Strend(buf: array<char>, start: nat, ghost t: string) returns (end: nat)
    requires CharsAt(buf[..], start, t)
    ensures end == start + |t|
  {
    end := start;
    while buf[end] != NUL
      invariant start <= end <= start + |t|
      decreases buf.Length - end
    {
      end := end + 1;
    }
    NulAtEnd(buf[..], start, t, end - start);
  }

  lemma SubChars(buf: seq<char>, at: nat, s: string, i: nat, j: nat)
    requires CharsAt(buf, at, s) && i <= j <= |s|
    ensures buf[at + i..at + j] == s[i..j]
  {
    var a, b := buf[at..at + |s|], buf[at + i..at + j];
    assert |b| == j - i;
    assert forall k :: 0 <= k < j - i ==> b[k] == a[i + k];
  }

  lemma TrimmedIs(whole: seq<char>, cut: seq<char>, at: nat, start: nat, end: nat, s: string)
    requires at <= start <= end <= at + |s| && CharsAt(whole, at, s) && cut == whole[end := NUL]
    ensures CStr(cut, start) == s[start - at..end - at] && Terminated(cut, start)
    ensures cut[..at] == whole[..at] && cut[at + |s|..] == whole[at + |s|..]
  {
    var i, j := start - at, end - at;
    SubChars(whole, at, s, i, j);
    assert start == at + i && end == at + j;
    assert cut[start..end] == whole[start..end];
    assert forall c <- s[i..j] :: c in s;
    CStrIs(cut, start, s[i..j]);
  }

  function NonEmpty(parts: seq<string>): seq<string> {
    if parts == [] then [] else (if parts[0] == "" then [] else [parts[0]]) + NonEmpty(parts[1..])
  }

  lemma NonEmptyCons(part: string, rest: seq<string>)
    ensures NonEmpty([part] + rest) == (if part == "" then [] else [part]) + NonEmpty(rest)
  {
    assert ([part] + rest)[1..] == rest;
  }

  lemma TokensSkip(s: string, d: char)
    requires s != "" && s[0] == d
    ensures Tokens(s, d) == Tokens(s[1..], d)
  {
  }

  lemma TokensStep(s: string, d: char, i: nat)
    requires s != "" && s[0] != d && i == IndexOf(s, d)
    ensures Tokens(s, d) == [s[..i]] + Tokens(if i < |s| then s[i + 1..] else "", d)
  {
  }

  lemma HeadIs(s: string, d: char, i: nat)
    requires i == IndexOf(s, d) < |s|
    ensures s[0] == d <==> i == 0
  {
    if i > 0 {
      assert s[..i][0] == s[0];
    }
  }

  lemma NothingBefore(parts: seq<string>)
    ensures [] + parts == parts
  {
  }

  lemma TokensCut(s: string, d: char, i: nat)
    requires i == IndexOf(s, d) < |s|
    ensures Tokens(s, d) == (if i == 0 then [] else [s[..i]]) + Tokens(s[i + 1..], d)
  {
    HeadIs(s, d, i);
    if i == 0 {
      TokensSkip(s, d);
      NothingBefore(Tokens(s[1..], d));
    } else {
      TokensStep(s, d, i);
    }
  }

  lemma SplitCut(s: string, d: char, i: nat)
    requires i == IndexOf(s, d) < |s|
    ensures Split(s, d) == [s[..i]] + Split(s[i + 1..], d)
  {
    assert s == s[..i] + [d] + s[i + 1..];
    SplitHead(s[..i], d, s[i + 1..]);
  }

  lemma TokensWhole(s: string, d: char)
    requires d !in s
    ensures Tokens(s, d) == (if s == "" then [] else [s])
  {
    assert Tokens("", d) == [];
    if s != "" {
      TokensStep(s, d, |s|);
      assert s[..|s|] == s && [s] + [] == [s];
    }
  }

  /** The tokens are the non-empty parts of Go's strings.Split. */
  lemma {:induction false} TokensAreSplit(s: string, d: char)
    ensures Tokens(s, d) == NonEmpty(Split(s, d))
    decreases |s|
  {
    var i := IndexOf(s, d);
    if i < |s| {
      TokensCut(s, d, i);
      SplitCut(s, d, i);
      TokensAreSplit(s[i + 1..], d);
      NonEmptyCons(s[..i], Split(s[i + 1..], d));
    } else {
      TokensWhole(s, d);
      SplitNone(s, d);
      NonEmptyCons(s, []);
      assert [s] + [] == [s];
    }
  }

  lemma {:induction false} NonEmptyAll(parts: seq<string>)
    requires forall p <- parts :: p != ""
    ensures NonEmpty(parts) == parts
  {
    if parts != [] {
      assert forall p <- parts[1..] :: p in parts;
      assert parts[0] in parts;
      NonEmptyAll(parts[1..]);
    }
  }
}

/** Text as the hooks read and write it. A `string` holds decoded characters;
    lengths that the source counts in bytes go through `ByteLen`. */
module Text {

  /** isspace in the C locale: blank, tab, LF, VT, FF, CR. */
  predicate IsSpaceC(c: char) {
    c == ' ' || 9 as char <= c <= 13 as char
  }

  /** Go's unicode.IsSpace. */
  predicate IsSpace(c: char) {
    || IsSpaceC(c)
    || c == '\U{85}' || c == '\U{A0}' || c == '\U{1680}'
    || '\U{2000}' <= c <= '\U{200A}'
    || c == '\U{2028}' || c == '\U{2029}' || c == '\U{202F}' || c == '\U{205F}' || c == '\U{3000}'
  }

  predicate Ascii(s: string) {
    forall i :: 0 <= i < |s| ==> s[i] < 128 as char
  }

  function ByteLen(s: string): (n: nat) {
    if s == [] then 0
    else (if s[0] < '\U{80}' then 1 else if s[0] < '\U{800}' then 2 else if s[0] < '\U{10000}' then 3 else 4)
         + ByteLen(s[1..])
  }

  lemma {:induction false} Bytes(s: string)
    ensures ByteLen(s) <= 4 * |s|
  {
    if s != "" {
      Bytes(s[1..]);
    }
  }

  // ---- Trimming -----------------------------------------------------------

  predicate All(p: char -> bool, s: string) {
    forall i :: 0 <= i < |s| ==> p(s[i])
  }

  predicate NoneOf(p: char -> bool, s: string) {
    forall i :: 0 <= i < |s| ==> !p(s[i])
  }

  /** No character at either end satisfies p. */
  predicate Bare(p: char -> bool, s: string) {
    s != [] ==> !p(s[0]) && !p(s[|s| - 1])
  }

  function TrimLeftBy(p: char -> bool, s: string): string {
    if s != [] && p(s[0]) then TrimLeftBy(p, s[1..]) else s
  }

  function TrimRightBy(p: char -> bool, s: string): string {
    if s != [] && p(s[|s| - 1]) then TrimRightBy(p, s[..|s| - 1]) else s
  }

  /** strings.TrimFunc. */
  function TrimBy(p: char -> bool, s: string): string {
    TrimRightBy(p, TrimLeftBy(p, s))
  }

  function TrimSpace(s: string): string {
    TrimBy(IsSpace, s)
  }

  lemma {:induction false} TrimLeftParts(p: char -> bool, s: string) returns (l: string)
    ensures s == l + TrimLeftBy(p, s) && All(p, l)
    ensures TrimLeftBy(p, s) != [] ==> !p(TrimLeftBy(p, s)[0])
  {
    l := [];
    if s != [] && p(s[0]) {
      l := TrimLeftParts(p, s[1..]);
      l := [s[0]] + l;
    }
  }

  lemma {:induction false} TrimRightParts(p: char -> bool, s: string) returns (r: string)
    ensures s == TrimRightBy(p, s) + r && All(p, r)
    ensures TrimRightBy(p, s) != [] ==> !p(TrimRightBy(p, s)[|TrimRightBy(p, s)| - 1])
    ensures TrimRightBy(p, s) != [] ==> TrimRightBy(p, s)[0] == s[0]
  {
    r := [];
    if s != [] && p(s[|s| - 1]) {
      r := TrimRightParts(p, s[..|s| - 1]);
      r := r + [s[|s| - 1]];
    }
  }

  lemma TrimParts(p: char -> bool, s: string) returns (l: string, r: string)
    ensures s == l + TrimBy(p, s) + r && All(p, l) && All(p, r) && Bare(p, TrimBy(p, s))
  {
    l := TrimLeftParts(p, s);
    r := TrimRightParts(p, TrimLeftBy(p, s));
  }

  lemma {:induction false} TrimLeftOf(p: char -> bool, l: string, m: string)
    requires All(p, l)
    ensures TrimLeftBy(p, l + m) == TrimLeftBy(p, m)
  {
    if l == [] {
      assert l + m == m;
    } else {
      assert (l + m)[1..] == l[1..] + m;
      TrimLeftOf(p, l[1..], m);
    }
  }

  lemma {:induction false} TrimRightOf(p: char -> bool, m: string, r: string)
    requires All(p, r)
    ensures TrimRightBy(p, m + r) == TrimRightBy(p, m)
  {
    if r == [] {
      assert m + r == m;
    } else {
      assert (m + r)[..|m + r| - 1] == m + r[..|r| - 1];
      TrimRightOf(p, m, r[..|r| - 1]);
    }
  }

  /** Trimming finds the only bare middle part between two runs of trimmed characters. */
  lemma TrimUnique(p: char -> bool, l: string, m: string, r: string)
    requires All(p, l) && All(p, r) && Bare(p, m)
    ensures TrimBy(p, l + m + r) == m
  {
    assert l + m + r == l + (m + r);
    TrimLeftOf(p, l, m + r);
    if m == [] {
      assert m + r == r + [];
      TrimLeftOf(p, r, []);
    } else {
      TrimRightOf(p, m, r);
    }
  }

  // ---- Searching and splitting --------------------------------------------

  /** Index of the first c, or |s|. */
  function IndexOf(s: string, c: char): (i: nat)
    ensures i <= |s|
    ensures i < |s| ==> s[i] == c
    ensures c !in s[..i]
    ensures i == |s| <==> c !in s
  {
    if s == [] || s[0] == c then 0
    else
      var i := 1 + IndexOf(s[1..], c);
      assert s[..i] == [s[0]] + s[1..][..i - 1];
      assert s == [s[0]] + s[1..];
      i
  }

  lemma IndexOfAppend(a: string, c: char, b: string)
    requires c !in a
    ensures IndexOf(a + [c] + b, c) == |a|
  {
    var s := a + [c] + b;
    var i := IndexOf(s, c);
    assert s[|a|] == c;
    assert forall k | 0 <= k < |a| :: s[k] == a[k];
    assert forall k | |a| < k <= |s| :: s[..k][|a|] == c;
  }

  function Count(s: string, c: char): nat {
    if s == [] then 0 else (if s[0] == c then 1 else 0) + Count(s[1..], c)
  }

  lemma {:induction false} CountAppend(a: string, b: string, c: char)
    ensures Count(a + b, c) == Count(a, c) + Count(b, c)
  {
    if a == [] {
      assert a + b == b;
    } else {
      assert (a + b)[1..] == a[1..] + b;
      CountAppend(a[1..], b, c);
    }
  }

  lemma {:induction false} CountZero(s: string, c: char)
    ensures Count(s, c) > 0 <==> c in s
  {
    if s != [] {
      assert s == [s[0]] + s[1..];
      CountZero(s[1..], c);
    }
  }

  predicate HasPrefix(s: string, prefix: string) {
    prefix <= s
  }

  predicate HasSuffix(s: string, suffix: string) {
    |suffix| <= |s| && s[|s| - |suffix|..] == suffix
  }

  /** strings.Contains. */
  predicate Contains(s: string, sub: string) {
    exists i :: 0 <= i <= |s| && sub <= s[i..]
  }

  /** strings.Cut on one character: the text before the first c, the text after it, whether c occurs. */
  function Cut(s: string, c: char): (r: (string, string, bool)) {
    var i := IndexOf(s, c);
    if i < |s| then (s[..i], s[i + 1..], true) else (s, "", false)
  }

  lemma CutAppend(a: string, c: char, b: string)
    requires c !in a
    ensures Cut(a + [c] + b, c) == (a, b, true)
  {
    IndexOfAppend(a, c, b);
    assert (a + [c] + b)[..|a|] == a;
    assert (a + [c] + b)[|a| + 1..] == b;
  }

  /** strings.Split on one character. */
  function Split(s: string, c: char): (parts: seq<string>)
    ensures |parts| >= 1
    decreases |s|
  {
    var i := IndexOf(s, c);
    if i == |s| then [s] else [s[..i]] + Split(s[i + 1..], c)
  }

  function Join(parts: seq<string>, sep: string): string {
    if parts == [] then "" else if |parts| == 1 then parts[0] else parts[0] + sep + Join(parts[1..], sep)
  }

  predicate Free(parts: seq<string>, c: char) {
    forall i :: 0 <= i < |parts| ==> c !in parts[i]
  }

  lemma SplitNone(s: string, c: char)
    requires c !in s
    ensures Split(s, c) == [s]
  {
  }

  lemma SplitHead(a: string, c: char, b: string)
    requires c !in a
    ensures Split(a + [c] + b, c) == [a] + Split(b, c)
  {
    IndexOfAppend(a, c, b);
    assert (a + [c] + b)[..|a|] == a;
    assert (a + [c] + b)[|a| + 1..] == b;
  }

  lemma {:induction false} SplitJoin(parts: seq<string>, c: char)
    requires parts != [] && Free(parts, c)
    ensures Split(Join(parts, [c]), c) == parts
  {
    if |parts| == 1 {
      SplitNone(parts[0], c);
    } else {
      SplitHead(parts[0], c, Join(parts[1..], [c]));
      SplitJoin(parts[1..], c);
    }
  }

  lemma {:induction false} JoinSplit(s: string, c: char)
    ensures Join(Split(s, c), [c]) == s && Free(Split(s, c), c)
    decreases |s|
  {
    var i := IndexOf(s, c);
    if i == |s| {
    } else {
      JoinSplit(s[i + 1..], c);
      assert s == s[..i] + [c] + s[i + 1..];
      assert Split(s, c)[1..] == Split(s[i + 1..], c);
    }
  }

  lemma {:induction false} JoinAppend(a: seq<string>, b: seq<string>, sep: string)
    requires a != [] && b != []
    ensures Join(a + b, sep) == Join(a, sep) + sep + Join(b, sep)
  {
    assert (a + b)[1..] == a[1..] + b;
    if |a| > 1 {
      JoinAppend(a[1..], b, sep);
    } else {
      assert a[1..] + b == b;
    }
  }

  /** Splitting text with a separator in the middle splits its two sides. */
  lemma SplitAppend(a: string, c: char, b: string)
    ensures Split(a + [c] + b, c) == Split(a, c) + Split(b, c)
  {
    JoinSplit(a, c);
    JoinSplit(b, c);
    JoinAppend(Split(a, c), Split(b, c), [c]);
    SplitJoin(Split(a, c) + Split(b, c), c);
  }

  /** Text put before the first or after the last part. */
  lemma SplitPrepend(l: string, s: string, c: char)
    requires c !in l
    ensures Split(l + s, c) == [l + Split(s, c)[0]] + Split(s, c)[1..]
  {
    var p := Split(s, c);
    var q := [l + p[0]] + p[1..];
    JoinSplit(s, c);
    assert Join(q, [c]) == l + Join(p, [c]) by {
      assert q[1..] == p[1..];
      if |p| > 1 {
        Assoc(l, p[0], [c] + Join(p[1..], [c]));
        Assoc(p[0], [c], Join(p[1..], [c]));
        Assoc(l + p[0], [c], Join(p[1..], [c]));
      }
    }
    SplitJoin(q, c);
  }

  lemma JoinPostpend(p: seq<string>, r: string, c: char)
    requires p != []
    ensures Join(p[..|p| - 1] + [p[|p| - 1] + r], [c]) == Join(p, [c]) + r
  {
    var n := |p| - 1;
    assert p == p[..n] + [p[n]];
    if n > 0 {
      JoinAppend(p[..n], [p[n]], [c]);
      JoinAppend(p[..n], [p[n] + r], [c]);
      Assoc(Join(p[..n], [c]) + [c], p[n], r);
    }
  }

  lemma SplitPostpend(s: string, r: string, c: char)
    requires c !in r
    ensures Split(s + r, c) == Split(s, c)[..|Split(s, c)| - 1] + [Split(s, c)[|Split(s, c)| - 1] + r]
  {
    var p := Split(s, c);
    JoinSplit(s, c);
    JoinPostpend(p, r, c);
    SplitJoin(p[..|p| - 1] + [p[|p| - 1] + r], c);
  }

  lemma Assoc(a: string, b: string, c: string)
    ensures a + (b + c) == a + b + c
  {
  }

  function Concat(parts: seq<string>): string {
    if parts == [] then "" else parts[0] + Concat(parts[1..])
  }

  lemma {:induction false} ConcatAppend(a: seq<string>, b: seq<string>)
    ensures Concat(a + b) == Concat(a) + Concat(b)
  {
    if a == [] {
      assert a + b == b;
    } else {
      assert (a + b)[1..] == a[1..] + b;
      ConcatAppend(a[1..], b);
    }
  }

  // ---- Lines --------------------------------------------------------------

  /** The lines of a text: pieces between newlines, without a last empty piece
      (bufio.ScanLines and getline agree on this). */
  function Lines(text: string): seq<string>
    decreases |text|
  {
    if text == [] then []
    else
      var i := IndexOf(text, '\n');
      if i == |text| then [text] else [text[..i]] + Lines(text[i + 1..])
  }

  lemma LinesHead(line: string, rest: string)
    requires '\n' !in line
    ensures Lines(line + "\n" + rest) == [line] + Lines(rest)
  {
    IndexOfAppend(line, '\n', rest);
    assert (line + "\n" + rest)[..|line|] == line;
    assert (line + "\n" + rest)[|line| + 1..] == rest;
  }

  /** Every line ended by a newline. */
  function Unlines(lines: seq<string>): string {
    if lines == [] then "" else lines[0] + "\n" + Unlines(lines[1..])
  }

  lemma {:induction false} LinesUnlines(lines: seq<string>)
    requires Free(lines, '\n')
    ensures Lines(Unlines(lines)) == lines
  {
    if lines != [] {
      LinesHead(lines[0], Unlines(lines[1..]));
      LinesUnlines(lines[1..]);
    }
  }
}

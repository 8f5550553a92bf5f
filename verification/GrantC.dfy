/** The C prolog's parser of granted values, and when it agrees with the Go parser. */
module GrantC {
  import opened CBuffer
  import opened Grant
  import opened Text
  import opened Wrappers

  /** trim_token removes these on the left ... */
  predicate Opener(c: char) {
    IsSpaceC(c) || c == '[' || c == '(' || c == '{' || c == ',' || c == ';'
  }

  /** ... and these on the right. */
  predicate Closer(c: char) {
    IsSpaceC(c) || c == ']' || c == ')' || c == '}' || c == ',' || c == ';'
  }

  function TrimToken(s: string): string {
    TrimRightBy(Closer, TrimLeftBy(Opener, s))
  }

  function ParseGrantedBackendC(granted: string): Option<string> {
    FromCore(TrimToken(granted))
  }

  /** What the parser makes of the text that the first trim leaves. */
  function FromCore(core: string): Option<string> {
    if core == "" || '(' in core || ')' in core then None
    else
      var (key, value, keyed) := Cut(core, '=');
      var name := if keyed then TrimToken(value) else core;
      if name == "" || !NoneOf(Separator, name) then None else Some(name)
  }

  /** The two trims in place on a copy of the value. */
  method ReadGrantC(granted: string) returns (name: Option<string>)
    requires NUL !in granted
    ensures name == ParseGrantedBackendC(granted)
  {
    if granted == "" {
      return None;
    }
    var copy := Copy(granted);
    var normalized := Trim(copy, 0, Opener, Closer);
    ghost var core := CStr(copy[..], normalized);
    CStrHead(copy[..], normalized);
    if copy[normalized] == NUL {
      return None;
    }
    var paren := HasParen(copy, normalized);
    if paren {
      return None;
    }
    normalized := AfterKey(copy, normalized);
    var rest := CStr(copy[..], normalized);
    if rest == "" || !NoneOf(Separator, rest) {
      return None;
    }
    return Some(rest);
  }

  /** strchr for either parenthesis. */
  method HasParen(buf: array<char>, at: nat) returns (found: bool)
    requires Terminated(buf[..], at)
    ensures found <==> '(' in CStr(buf[..], at) || ')' in CStr(buf[..], at)
  {
    var open := Strcspn(buf, at, '(');
    var close := Strcspn(buf, at, ')');
    EndOf(buf[..], at, '(');
    EndOf(buf[..], at, ')');
    found := buf[open] != NUL || buf[close] != NUL;
  }

  /** Moves behind the first equals sign, if there is one, and trims again. */
  method AfterKey(buf: array<char>, at: nat) returns (start: nat)
    requires Terminated(buf[..], at)
    modifies buf
    ensures Terminated(buf[..], start)
    ensures var (key, value, keyed) := Cut(old(CStr(buf[..], at)), '=');
            CStr(buf[..], start) == if keyed then TrimToken(value) else old(CStr(buf[..], at))
  {
    var eq := Strcspn(buf, at, '=');
    EndOf(buf[..], at, '=');
    if buf[eq] == NUL {
      return at;
    }
    CStrSuffix(buf[..], at, eq + 1 - at);
    start := Trim(buf, eq + 1, Opener, Closer);
  }

  lemma EndOf(buf: seq<char>, at: nat, c: char)
    requires Terminated(buf, at)
    ensures var s := CStr(buf, at);
            var end := at + IndexOf(s, c);
            end < |buf| && (buf[end] == NUL <==> c !in s)
  {
    CStrShape(buf, at);
    var s := CStr(buf, at);
    var i := IndexOf(s, c);
    if i < |s| {
      assert s[i] == c && buf[at + i] == s[i];
    }
  }

  // ---- Trimming ------------------------------------------------------------------------

  lemma OpenersAreEdges(s: string)
    ensures All(Opener, s) ==> All(Edge, s)
    ensures All(Closer, s) ==> All(Edge, s)
  {
  }

  lemma TokenParts(s: string) returns (l: string, r: string)
    ensures s == l + TrimToken(s) + r && All(Opener, l) && All(Closer, r)
  {
    l := TrimLeftParts(Opener, s);
    var t := TrimLeftBy(Opener, s);
    r := TrimRightParts(Closer, t);
    Assoc(l, TrimToken(s), r);
  }

  /** Openers, a part without edges at its ends, closers. */
  ghost predicate Tidy(s: string) {
    exists l, m, r :: TidyParts(s, l, m, r)
  }

  predicate TidyParts(s: string, l: string, m: string, r: string) {
    s == l + m + r && All(Opener, l) && All(Closer, r) && Bare(Edge, m)
  }

  /** Both trims agree exactly when the left edge has only openers and the right edge only closers. */
  lemma TrimsAgree(s: string)
    ensures TrimToken(s) == TrimGrant(s) <==> Tidy(s)
  {
    if Tidy(s) {
      var l, m, r :| TidyParts(s, l, m, r);
      TidyTrim(l, m, r);
    }
    var l, r := TokenParts(s);
    var l', r' := TrimParts(Edge, s);
    assert TrimToken(s) == TrimGrant(s) ==> TidyParts(s, l, TrimToken(s), r);
  }

  lemma TidyTrim(l: string, m: string, r: string)
    requires All(Opener, l) && All(Closer, r) && Bare(Edge, m)
    ensures TrimToken(l + m + r) == TrimGrant(l + m + r)
  {
    OpenersAreEdges(l);
    OpenersAreEdges(r);
    TrimUnique(Edge, l, m, r);
    Assoc(l, m, r);
    TrimLeftOf(Opener, l, m + r);
    if m == "" {
      assert "" + r == r;
      ClosersVanish(r);
    } else {
      assert (m + r)[0] == m[0] && !Opener(m[0]) && !Closer(m[|m| - 1]);
      RightStops(Closer, m, r);
      EmptyRight(r);
      assert m + "" == m;
    }
  }

  lemma ClosersVanish(r: string)
    requires All(Closer, r)
    ensures TrimToken(r) == ""
  {
    var p := TrimLeftParts(Opener, r);
    var t := TrimLeftBy(Opener, r);
    forall i | 0 <= i < |t|
      ensures Closer(t[i])
    {
      assert t[i] == r[|p| + i];
    }
    EmptyRight(t);
  }

  function Accepted(r: Result<string, GrantError>): Option<string> {
    if r.Ok? then Some(r.value) else None
  }

  lemma Parens(s: string)
    ensures NoneOf(Paren, s) <==> '(' !in s && ')' !in s
  {
  }

  /** On tidy values the two parsers accept the same names and reject the same values. */
  lemma GrantsAgree(raw: string)
    requires Tidy(raw) && ('=' in TrimGrant(raw) ==> Tidy(Cut(TrimGrant(raw), '=').1))
    ensures ParseGrantedBackendC(raw) == Accepted(ParseGrantedBackend(raw))
  {
    TrimsAgree(raw);
    Parens(TrimGrant(raw));
    if '=' in TrimGrant(raw) {
      TrimsAgree(Cut(TrimGrant(raw), '=').1);
    }
  }

  // ---- Values the Go parser accepts ----------------------------------------------------------

  /** What the C parser needs of a decoration to find the same name: closers on the right,
      and on the left openers, or before a key at least no parenthesis behind the openers. */
  predicate SameInC(l: string, prefix: Prefix, r: string) {
    && All(Closer, r)
    && if prefix.NoKey? then All(Opener, l)
       else All(Opener, prefix.gap) && NoneOf(Paren, TrimLeftBy(Opener, l))
  }

  /** For an accepted value, the C parser returns the same name exactly on such decorations. */
  lemma AcceptedAgree(raw: string, l: string, prefix: Prefix, name: string, r: string)
    requires Written(raw, l, prefix, name, r)
    ensures ParseGrantedBackendC(raw) == Some(name) <==> SameInC(l, prefix, r)
  {
    var core := prefix.Text() + name;
    CoreBare(l, prefix, name, r);
    Regroup(l, prefix.Text(), name, r);
    Leftover(l, core, r);
    EmptyLeft(l);
    EmptyRight(r);
    RightTwice(r);
    NoEquals(l);
    NoEquals(r);
    if prefix.NoKey? {
      assert core == name;
      UnkeyedAgree(TrimLeftBy(Opener, l), name, TrimRightBy(Closer, r));
    } else {
      KeyedAgree(TrimLeftBy(Opener, l), prefix, name, TrimRightBy(Closer, r));
    }
  }

  lemma CoreBare(l: string, prefix: Prefix, name: string, r: string)
    requires Written(l + prefix.Text() + name + r, l, prefix, name, r)
    ensures Bare(Edge, prefix.Text() + name) && prefix.Text() + name != ""
  {
    CoreOf(l, prefix, name, r);
    var a, b := TrimParts(Edge, l + prefix.Text() + name + r);
  }

  lemma NoEquals(s: string)
    requires All(Edge, s)
    ensures '=' !in TrimLeftBy(Opener, s) && '=' !in TrimRightBy(Closer, s)
  {
    var p := TrimLeftParts(Opener, s);
    var q := TrimRightParts(Closer, s);
    assert '=' !in s by {
      assert !Edge('=');
    }
  }

  lemma EmptyLeft(l: string)
    ensures TrimLeftBy(Opener, l) == "" <==> All(Opener, l)
  {
    var p := TrimLeftParts(Opener, l);
    if All(Opener, l) {
      assert l + "" == l;
      TrimLeftOf(Opener, l, "");
    }
    assert p + "" == p;
  }

  lemma EmptyRight(r: string)
    ensures TrimRightBy(Closer, r) == "" <==> All(Closer, r)
  {
    var p := TrimRightParts(Closer, r);
    if All(Closer, r) {
      assert "" + r == r;
      TrimRightOf(Closer, "", r);
    }
    assert "" + p == p;
  }

  lemma {:induction false} LeftStops(p: char -> bool, l: string, m: string)
    requires m != "" && !p(m[0])
    ensures TrimLeftBy(p, l + m) == TrimLeftBy(p, l) + m
  {
    if l == "" {
      assert l + m == m;
    } else if p(l[0]) {
      assert (l + m)[1..] == l[1..] + m;
      LeftStops(p, l[1..], m);
    }
  }

  lemma {:induction false} RightStops(p: char -> bool, m: string, r: string)
    requires m != "" && !p(m[|m| - 1])
    ensures TrimRightBy(p, m + r) == m + TrimRightBy(p, r)
  {
    if r == "" {
      assert m + r == m;
    } else if p(r[|r| - 1]) {
      assert (m + r)[..|m + r| - 1] == m + r[..|r| - 1];
      RightStops(p, m, r[..|r| - 1]);
    }
  }

  /** trim_token stops at the first edge character it does not know. */
  lemma Leftover(l: string, core: string, r: string)
    requires core != "" && Bare(Edge, core)
    ensures TrimToken(l + core + r) == TrimLeftBy(Opener, l) + core + TrimRightBy(Closer, r)
  {
    var l' := TrimLeftBy(Opener, l);
    Assoc(l, core, r);
    Assoc(l', core, r);
    assert (core + r)[0] == core[0];
    LeftStops(Opener, l, core + r);
    assert (l' + core)[|l' + core| - 1] == core[|core| - 1];
    RightStops(Closer, l' + core, r);
  }

  lemma UnkeyedAgree(l: string, name: string, r: string)
    requires BackendName(name) && '=' !in name && '=' !in l && '=' !in r
    ensures FromCore(l + name + r) == Some(name) <==> l == "" && r == ""
  {
    var c := l + name + r;
    Parens(name);
    assert |c| == |l| + |name| + |r|;
    assert '=' !in c;
    assert l == "" && r == "" ==> c == name;
  }

  lemma KeyedAgree(l: string, prefix: Prefix, name: string, r: string)
    requires prefix.Keyed? && prefix.Valid() && BackendName(name) && '=' !in l
    requires TrimRightBy(Closer, r) == r
    ensures FromCore(l + (prefix.Text() + name) + r) == Some(name)
            <==> NoneOf(Paren, l) && r == "" && All(Opener, prefix.gap)
  {
    var core := prefix.Text() + name;
    CutKeyed(l, prefix, name, r);
    Parens(l + core + r);
    NoneOfAppend(Paren, l + core, r);
    NoneOfAppend(Paren, l, core);
    NoneOfAppend(Paren, prefix.Text(), name);
    NoneOfAppend(Paren, prefix.key + "=", prefix.gap);
    NoneOfAppend(Paren, prefix.key, "=");
    Leftover(prefix.gap, name, r);
    EmptyLeft(prefix.gap);
    Sandwich(TrimLeftBy(Opener, prefix.gap), name, r);
  }

  lemma Sandwich(l: string, m: string, r: string)
    ensures l + m + r == m <==> l == "" && r == ""
  {
    assert |l + m + r| == |l| + |m| + |r|;
    assert "" + m + "" == m;
  }

  lemma RightTwice(r: string)
    ensures TrimRightBy(Closer, TrimRightBy(Closer, r)) == TrimRightBy(Closer, r)
  {
    var q := TrimRightParts(Closer, r);
  }

  lemma CutKeyed(l: string, prefix: Prefix, name: string, r: string)
    requires prefix.Keyed? && '=' !in l && '=' !in prefix.key
    ensures Cut(l + (prefix.Text() + name) + r, '=') == (l + prefix.key, prefix.gap + name + r, true)
  {
    assert l + (prefix.Text() + name) + r == (l + prefix.key) + ['='] + (prefix.gap + name + r);
    CutAppend(l + prefix.key, '=', prefix.gap + name + r);
  }
}

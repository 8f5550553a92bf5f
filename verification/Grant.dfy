/** The backend name in a granted resource value. */
module Grant {
  import opened Text
  import opened Wrappers

  datatype GrantError = EmptyGrant | Parentheses | NoBackendName | MultipleTokens

  /** What trim removes at both ends: blanks and the cut set. */
  predicate Edge(c: char) {
    IsSpace(c) || c in "[]{}(),;"
  }

  predicate Paren(c: char) {
    c == '(' || c == ')'
  }

  /** A comma or a blank inside the value means several tokens. */
  predicate Separator(c: char) {
    c == ',' || c == ' ' || c == '\t' || c == '\r' || c == '\n'
  }

  function TrimGrant(s: string): string {
    TrimBy(Edge, s)
  }

  function ParseGrantedBackend(raw: string): Result<string, GrantError> {
    var core := TrimGrant(raw);
    if core == "" then Err(EmptyGrant)
    else if !NoneOf(Paren, core) then Err(Parentheses)
    else
      var (key, value, keyed) := Cut(core, '=');
      var name := if keyed then TrimGrant(value) else core;
      if name == "" then Err(NoBackendName)
      else if !NoneOf(Separator, name) then Err(MultipleTokens)
      else Ok(name)
  }

  // ---- The grammar of accepted values --------------------------------------------------

  predicate BackendName(name: string) {
    name != "" && Bare(Edge, name) && NoneOf(Paren, name) && NoneOf(Separator, name)
  }

  /** Everything before the name: an optional key, its equals sign and decoration after it. */
  datatype Prefix = NoKey | Keyed(key: string, gap: string) {
    function Text(): string {
      if NoKey? then "" else key + "=" + gap
    }

    predicate Valid() {
      Keyed? ==> '=' !in key && NoneOf(Paren, key) && (key != "" ==> !Edge(key[0]))
                 && All(Edge, gap) && NoneOf(Paren, gap)
    }
  }

  /** A decorated grant of a name: edges, an optional key, the name, edges. */
  predicate Written(raw: string, l: string, prefix: Prefix, name: string, r: string) {
    && raw == l + prefix.Text() + name + r
    && All(Edge, l) && All(Edge, r) && prefix.Valid() && BackendName(name)
    && (prefix.NoKey? ==> '=' !in name)
  }

  lemma NoneOfAppend(p: char -> bool, a: string, b: string)
    ensures NoneOf(p, a + b) <==> NoneOf(p, a) && NoneOf(p, b)
  {
    var s := a + b;
    if NoneOf(p, s) {
      forall i | 0 <= i < |a| ensures !p(a[i]) { assert s[i] == a[i]; }
      forall i | 0 <= i < |b| ensures !p(b[i]) { assert s[|a| + i] == b[i]; }
    }
  }

  lemma CoreOf(l: string, prefix: Prefix, name: string, r: string)
    requires Written(l + prefix.Text() + name + r, l, prefix, name, r)
    ensures var core := prefix.Text() + name;
            TrimGrant(l + prefix.Text() + name + r) == core && core != "" && NoneOf(Paren, core)
  {
    var core := prefix.Text() + name;
    assert l + prefix.Text() + name + r == l + core + r;
    assert core[|core| - 1] == name[|name| - 1];
    assert Bare(Edge, core) by {
      if prefix.Keyed? {
        assert core[0] == if prefix.key == "" then '=' else prefix.key[0];
      }
    }
    TrimUnique(Edge, l, core, r);
    NoneOfAppend(Paren, prefix.Text(), name);
    if prefix.Keyed? {
      NoneOfAppend(Paren, prefix.key + "=", prefix.gap);
      NoneOfAppend(Paren, prefix.key, "=");
    }
  }

  lemma CoreCut(prefix: Prefix, name: string)
    requires prefix.Keyed? && prefix.Valid() && Bare(Edge, name)
    ensures var (key, value, keyed) := Cut(prefix.Text() + name, '=');
            keyed && TrimGrant(value) == name
  {
    var value := prefix.gap + name;
    assert prefix.Text() + name == prefix.key + ['='] + value;
    CutAppend(prefix.key, '=', value);
    assert value == prefix.gap + name + "";
    TrimUnique(Edge, prefix.gap, name, "");
  }

  /** The name is found under every decoration and every key. */
  lemma NameRecovered(raw: string, l: string, prefix: Prefix, name: string, r: string)
    requires Written(raw, l, prefix, name, r)
    ensures ParseGrantedBackend(raw) == Ok(name)
  {
    CoreOf(l, prefix, name, r);
    var core := prefix.Text() + name;
    if prefix.NoKey? {
      assert core == name;
    } else {
      CoreCut(prefix, name);
    }
  }

  /** Every accepted value is a decorated grant of its result. */
  lemma AcceptedShape(raw: string, name: string) returns (l: string, prefix: Prefix, r: string)
    requires ParseGrantedBackend(raw) == Ok(name)
    ensures Written(raw, l, prefix, name, r)
  {
    l, r := TrimParts(Edge, raw);
    var core := TrimGrant(raw);
    if '=' !in core {
      prefix := NoKey;
      assert l + "" + core + r == l + core + r;
    } else {
      prefix := KeyedShape(core, name);
      Regroup(l, prefix.Text(), name, r);
    }
  }

  lemma Regroup(l: string, p: string, name: string, r: string)
    ensures l + (p + name) + r == l + p + name + r
  {
  }

  lemma LastIs(front: string, b: string)
    ensures b != "" ==> (front + b)[|front + b| - 1] == b[|b| - 1]
  {
  }

  lemma KeyedShape(core: string, name: string) returns (prefix: Prefix)
    requires '=' in core && Bare(Edge, core) && NoneOf(Paren, core)
    requires name == TrimGrant(Cut(core, '=').1) && name != "" && NoneOf(Separator, name)
    ensures prefix.Keyed? && prefix.Valid() && BackendName(name) && core == prefix.Text() + name
  {
    var (key, value, ok) := Cut(core, '=');
    var a, b := TrimParts(Edge, value);
    prefix := Keyed(key, a);
    assert core == key + ['='] + value;
    LastIs(key + "=" + a + name, b);
    assert core == key + "=" + a + name + b;
    assert core == key + "=" + a + name;
    NoneOfAppend(Paren, key + "=" + a, name);
    NoneOfAppend(Paren, key + "=", a);
    NoneOfAppend(Paren, key, "=");
    assert key != "" ==> key[0] == core[0];
  }

  /** Exactly the decorated grants of a name yield it. */
  lemma GrantGrammar(raw: string, name: string)
    ensures ParseGrantedBackend(raw) == Ok(name) <==> exists l, prefix, r :: Written(raw, l, prefix, name, r)
  {
    if ParseGrantedBackend(raw) == Ok(name) {
      var l, prefix, r := AcceptedShape(raw, name);
    } else if exists l, prefix, r :: Written(raw, l, prefix, name, r) {
      var l, prefix, r :| Written(raw, l, prefix, name, r);
      NameRecovered(raw, l, prefix, name, r);
    }
  }
}

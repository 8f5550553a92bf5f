/** Environments as lists of KEY=VALUE strings, and as maps. */
module EnvList {
  import opened Text

  function Pair(key: string, value: string): string {
    key + "=" + value
  }

  lemma CutPair(key: string, value: string)
    requires '=' !in key
    ensures Cut(Pair(key, value), '=') == (key, value, true)
  {
    CutAppend(key, '=', value);
  }

  /** A string without an equals sign binds nothing. */
  function Bind(values: map<string, string>, kv: string): map<string, string> {
    var (key, value, ok) := Cut(kv, '=');
    if ok then values[key := value] else values
  }

  /** The map a loop over the list fills: a later binding replaces an earlier one. */
  function Values(environ: seq<string>): map<string, string> {
    if environ == [] then map[] else Bind(Values(environ[..|environ| - 1]), environ[|environ| - 1])
  }

  function Get(values: map<string, string>, key: string): string {
    if key in values then values[key] else ""
  }

  /** The value of the last string that binds the key, and "" without one. */
  function Last(environ: seq<string>, key: string): string {
    if environ == [] then ""
    else
      var (k, value, ok) := Cut(environ[|environ| - 1], '=');
      if ok && k == key then value else Last(environ[..|environ| - 1], key)
  }

  lemma {:induction false} GetIsLast(environ: seq<string>, key: string)
    ensures Get(Values(environ), key) == Last(environ, key)
  {
    if environ != [] {
      GetIsLast(environ[..|environ| - 1], key);
    }
  }

  lemma ValuesSnoc(environ: seq<string>, kv: string)
    ensures Values(environ + [kv]) == Bind(Values(environ), kv)
  {
    assert (environ + [kv])[..|environ + [kv]| - 1] == environ;
  }

  lemma {:induction false} ValuesAppend(a: seq<string>, b: seq<string>)
    ensures Values(a + b) == Values(a) + Values(b)
  {
    if b == [] {
      assert a + b == a;
    } else {
      var n := |b| - 1;
      assert a + b == (a + b[..n]) + [b[n]];
      ValuesSnoc(a + b[..n], b[n]);
      ValuesAppend(a, b[..n]);
    }
  }

  lemma ValuesOne(key: string, value: string)
    requires '=' !in key
    ensures Values([Pair(key, value)]) == map[key := value]
  {
    CutPair(key, value);
    assert [Pair(key, value)][..0] == [];
  }

  /** The list binds every key of the map once, in some order. */
  predicate Lists(list: seq<string>, values: map<string, string>) {
    && |list| == |values|
    && (forall key <- values :: Pair(key, values[key]) in list)
    && (forall kv <- list :: exists key <- values :: kv == Pair(key, values[key]))
  }
}

/** The job environment: the process environment, mirrored to the file the scheduler reads. */
module JobEnv {
  import opened EnvList
  import opened Text

  const NUL: char := '\0'
  const PLUGIN_ERROR := "QRMI_PLUGIN_ERROR"
  const PROLOG_STATUS := "qrmi_prolog_status"

  /** What os.Setenv accepts. */
  predicate Settable(key: string, value: string) {
    key != "" && '=' !in key && NUL !in key && NUL !in value
  }

  /** The lines of the pairs, as Set appends them. */
  function EnvText(pairs: seq<(string, string)>): string {
    if pairs == [] then "" else Pair(pairs[0].0, pairs[0].1) + "\n" + EnvText(pairs[1..])
  }

  lemma {:induction false} EnvTextSnoc(pairs: seq<(string, string)>, pair: (string, string))
    ensures EnvText(pairs + [pair]) == EnvText(pairs) + (Pair(pair.0, pair.1) + "\n")
  {
    if pairs == [] {
      assert pairs + [pair] == [pair] && [pair][1..] == [];
    } else {
      assert (pairs + [pair])[1..] == pairs[1..] + [pair];
      EnvTextSnoc(pairs[1..], pair);
      Assoc(Pair(pairs[0].0, pairs[0].1) + "\n", EnvText(pairs[1..]), Pair(pair.0, pair.1) + "\n");
    }
  }

  lemma Appended(prior: string, written: seq<(string, string)>, pair: (string, string))
    ensures prior + EnvText(written) + "" + (Pair(pair.0, pair.1) + "\n") == prior + EnvText(written + [pair]) + ""
  {
    EnvTextSnoc(written, pair);
    Assoc(prior, EnvText(written), Pair(pair.0, pair.1) + "\n");
    assert prior + EnvText(written) + "" == prior + EnvText(written);
    assert prior + EnvText(written + [pair]) + "" == prior + EnvText(written + [pair]);
  }

  /** What a failed write of a line leaves: at most the line without its newline. */
  function TornTo(key: string, value: string, n: nat): (part: string)
    ensures part <= Pair(key, value)
  {
    if n < |Pair(key, value)| then Pair(key, value)[..n] else Pair(key, value)
  }

  /** Setting a variable on both sides, or losing it, keeps the other variables equal. */
  lemma Merged(a: map<string, string>, b: map<string, string>, lost: set<string>, key: string, value: string)
    requires a - lost == b - lost
    ensures a[key := value] - lost == b[key := value] - lost
    ensures a[key := value] - (lost + {key}) == b - (lost + {key})
  {
    forall k | k !in lost
      ensures k in a <==> k in b
      ensures k in a ==> a[k] == b[k]
    {
      assert k in a <==> k in a - lost;
      assert k in b <==> k in b - lost;
    }
  }

  lemma Extended(start: map<string, string>, m: map<string, string>, key: string, value: string)
    ensures (start + m)[key := value] == start + m[key := value]
  {
  }

  lemma Torn(text: string, pair: string, n: nat)
    requires n <= |pair|
    ensures (pair + "\n")[..n] == pair[..n] && text + "" + (pair + "\n")[..n] == text + pair[..n]
  {
    assert (pair + "\n")[..n] == pair[..n];
    assert text + "" == text;
  }

  /** The process environment and the file behind a buffered writer. After a failed write the
      writer refuses everything, and the file ends in the torn part of one line; `lost` are the
      variables set since then. */
  class Environment {
    var env: map<string, string>
    var file: string
    var broken: bool
    var calls: nat
    const fails: nat -> bool
    const amount: nat -> nat
    ghost var prior: string
    ghost var written: seq<(string, string)>
    ghost var torn: string
    ghost var attempt: (string, string)
    ghost var lost: set<string>
    ghost const start: map<string, string>

    /** No write fails. */
    ghost predicate Reliable() {
      forall n :: !fails(n)
    }

    ghost predicate Valid()
      reads this
    {
      FileOk() && EnvOk()
    }

    /** The file: what was there, the lines written, and the torn part of the attempted one. Every write
        before the failed one succeeded, and the oracles tell which failed and how far it got. */
    ghost predicate FileOk()
      reads this
    {
      && file == prior + EnvText(written) + torn
      && (forall i :: 0 <= i < |written| ==> Settable(written[i].0, written[i].1))
      && calls == |written| + (if broken then 1 else 0)
      && (forall n | 1 <= n <= |written| :: !fails(n))
      && (if broken then fails(calls) && Settable(attempt.0, attempt.1) && torn == TornTo(attempt.0, attempt.1, amount(calls))
          else torn == "")
    }

    /** Off the lost variables, the environment is the one at the start and what was written. */
    ghost predicate EnvOk()
      reads this
    {
      && (!broken ==> lost == {}) && (torn != "" ==> attempt.0 in lost)
      && env - lost == (start + MapOf(written)) - lost
    }

    constructor (env: map<string, string>, file: string, fails: nat -> bool, amount: nat -> nat)
      ensures Valid() && this.env == env && this.file == file && !broken
      ensures prior == file && written == [] && torn == "" && this.fails == fails && this.amount == amount
    {
      this.env, this.file, this.broken, this.calls := env, file, false, 0;
      this.fails, this.amount := fails, amount;
      this.prior, this.written, this.torn, this.attempt := file, [], "", ("", "");
      this.lost, this.start := {}, env;
      new;
      assert env + MapOf([]) == env;
    }

    /** What one Set leaves behind. */
    twostate predicate DidSet(key: string, value: string, ok: bool)
      reads this
    {
      && prior == old(prior)
      && env == (if Settable(key, value) then old(env)[key := value] else old(env))
      && (ok ==> Settable(key, value) && !old(broken) && !broken && torn == old(torn)
                 && written == old(written) + [(key, value)])
      && (!ok ==> written == old(written))
      && (!ok && (!Settable(key, value) || old(broken))
          ==> file == old(file) && torn == old(torn) && broken == old(broken) && attempt == old(attempt))
      && (!ok && Settable(key, value) ==> broken)
      && (!ok && Settable(key, value) && !old(broken) ==> attempt == (key, value) && !Reliable())
    }

    /** Sets the variable, then appends its line; a failed write leaves less than the line. */
    method Set(key: string, value: string) returns (ok: bool)
      requires Valid()
      modifies this
      ensures Valid() && DidSet(key, value, ok)
    {
      if !Settable(key, value) {
        return false;
      }
      Merged(env, start + MapOf(written), lost, key, value);
      if broken {
        env, lost := env[key := value], lost + {key};
        return false;
      }
      MapOfSnoc(written, (key, value));
      Extended(start, MapOf(written), key, value);
      ok := AppendLine(key, value);
      env := env[key := value];
      if !ok {
        lost := lost + {key};
      }
    }

    /** One Fprintf and one Flush. */
    method AppendLine(key: string, value: string) returns (ok: bool)
      requires FileOk() && Settable(key, value) && !broken
      modifies `file, `written, `torn, `attempt, `broken, `calls
      ensures FileOk()
      ensures ok ==> !broken && torn == "" && written == old(written) + [(key, value)]
      ensures !ok ==> broken && written == old(written) && attempt == (key, value) && !Reliable()
    {
      calls := calls + 1;
      var line := Pair(key, value) + "\n";
      if !fails(calls) {
        Appended(prior, written, (key, value));
        file := file + line;
        written := written + [(key, value)];
        return true;
      }
      var n := if amount(calls) < |line| - 1 then amount(calls) else |line| - 1;
      Torn(prior + EnvText(written), Pair(key, value), n);
      file := file + line[..n];
      torn := line[..n];
      attempt := (key, value);
      broken := true;
      return false;
    }

    /** Records a failure: the message and the status, whether or not the first write succeeds. */
    method SetPluginError(message: string) returns (ok: bool)
      requires Valid()
      modifies this
      ensures Valid() && prior == old(prior)
      ensures var text := if message == "" then "unknown qrmi-ocs-prolog error" else message;
              env == (if NUL in text then old(env) else old(env)["QRMI_PLUGIN_ERROR" := text])["qrmi_prolog_status" := "error"]
      ensures ok ==> written == old(written) + [("QRMI_PLUGIN_ERROR", MessageOf(message)), ("qrmi_prolog_status", "error")]
      ensures Reliable() && !old(broken) && NUL !in MessageOf(message) ==> ok
      ensures ReportedOnly(MessageOf(message), old(written), written, old(torn), torn, attempt)
      ensures old(broken) ==> broken && file == old(file) && torn == old(torn) && attempt == old(attempt) && written == old(written)
    {
      var text := MessageOf(message);
      ReportVariables(text);
      var first := Set(PLUGIN_ERROR, text);
      var second := Set(PROLOG_STATUS, "error");
      ok := first && second;
    }
  }

  lemma ReportVariables(text: string)
    ensures Settable(PLUGIN_ERROR, text) <==> NUL !in text
    ensures Settable(PROLOG_STATUS, "error") && PLUGIN_ERROR != PROLOG_STATUS
  {
  }

  function MessageOf(message: string): string {
    if message == "" then "unknown qrmi-ocs-prolog error" else message
  }

  /** Only the two report variables were added, or began to be. */
  ghost predicate ReportedOnly(text: string, before: seq<(string, string)>, after: seq<(string, string)>, tornBefore: string,
                               torn: string, attempt: (string, string))
  {
    && before <= after
    && (forall i :: |before| <= i < |after| ==> after[i] == (PLUGIN_ERROR, text) || after[i] == (PROLOG_STATUS, "error"))
    && (torn != tornBefore ==> attempt == (PLUGIN_ERROR, text) || attempt == (PROLOG_STATUS, "error"))
  }

  // ---- The mirror --------------------------------------------------------------------------

  /** The variables a reader of the file finds, the last line of a key winning. */
  function Replay(text: string): map<string, string> {
    Values(Lines(text))
  }

  function MapOf(pairs: seq<(string, string)>): map<string, string> {
    if pairs == [] then map[] else MapOf(pairs[..|pairs| - 1])[pairs[|pairs| - 1].0 := pairs[|pairs| - 1].1]
  }

  lemma MapOfSnoc(pairs: seq<(string, string)>, pair: (string, string))
    ensures MapOf(pairs + [pair]) == MapOf(pairs)[pair.0 := pair.1]
  {
    assert (pairs + [pair])[..|pairs|] == pairs;
  }

  lemma {:induction false} MapOfAppend(a: seq<(string, string)>, b: seq<(string, string)>)
    ensures MapOf(a + b) == MapOf(a) + MapOf(b)
  {
    if b == [] {
      assert a + b == a;
    } else {
      var n := |b| - 1;
      assert a + b == (a + b[..n]) + [b[n]];
      MapOfSnoc(a + b[..n], b[n]);
      MapOfAppend(a, b[..n]);
    }
  }

  predicate OneLine(pair: (string, string)) {
    '=' !in pair.0 && '\n' !in pair.0 && '\n' !in pair.1
  }

  predicate Complete(text: string) {
    text == "" || text[|text| - 1] == '\n'
  }

  lemma HeadAssoc(x: string, a: seq<string>, b: seq<string>)
    ensures [x] + (a + b) == [x] + a + b
  {
  }

  lemma LinesStep(line: string, rest: string, b: string)
    requires '\n' !in line
    ensures Lines(line + "\n" + rest + b) == [line] + Lines(rest + b)
  {
    Assoc(line + "\n", rest, b);
    LinesHead(line, rest + b);
  }

  lemma FirstLine(a: string) returns (line: string, rest: string)
    requires a != "" && Complete(a)
    ensures a == line + "\n" + rest && '\n' !in line && Complete(rest)
  {
    assert a[|a| - 1] in a;
    var i := IndexOf(a, '\n');
    line, rest := a[..i], a[i + 1..];
    assert rest != "" ==> rest[|rest| - 1] == a[|a| - 1];
  }

  lemma {:induction false} LinesAppend(a: string, b: string)
    requires Complete(a)
    ensures Lines(a + b) == Lines(a) + Lines(b)
    decreases |a|
  {
    if a == "" {
      assert a + b == b;
    } else {
      var line, rest := FirstLine(a);
      LinesStep(line, rest, b);
      LinesHead(line, rest);
      LinesAppend(rest, b);
      HeadAssoc(line, Lines(rest), Lines(b));
      assert Lines(a) == [line] + Lines(rest) && Lines(a + b) == [line] + Lines(rest + b);
    }
  }

  function Pairs(pairs: seq<(string, string)>): seq<string> {
    if pairs == [] then [] else [Pair(pairs[0].0, pairs[0].1)] + Pairs(pairs[1..])
  }

  lemma {:induction false} EnvTextLines(pairs: seq<(string, string)>, rest: string)
    requires forall i :: 0 <= i < |pairs| ==> OneLine(pairs[i])
    ensures Lines(EnvText(pairs) + rest) == Pairs(pairs) + Lines(rest)
  {
    if pairs == [] {
      assert EnvText(pairs) + rest == rest;
    } else {
      LinesStep(Pair(pairs[0].0, pairs[0].1), EnvText(pairs[1..]), rest);
      EnvTextLines(pairs[1..], rest);
      HeadAssoc(Pair(pairs[0].0, pairs[0].1), Pairs(pairs[1..]), Lines(rest));
    }
  }

  lemma {:induction false} PairsValues(pairs: seq<(string, string)>)
    requires forall i :: 0 <= i < |pairs| ==> OneLine(pairs[i])
    ensures Values(Pairs(pairs)) == MapOf(pairs)
  {
    if pairs != [] {
      var n := |pairs| - 1;
      var last := pairs[n];
      PairsValues(pairs[..n]);
      assert pairs == pairs[..n] + [last];
      PairsSnoc(pairs[..n], last);
      ValuesSnoc(Pairs(pairs[..n]), Pair(last.0, last.1));
      CutPair(last.0, last.1);
    }
  }

  lemma {:induction false} PairsSnoc(pairs: seq<(string, string)>, pair: (string, string))
    ensures Pairs(pairs + [pair]) == Pairs(pairs) + [Pair(pair.0, pair.1)]
  {
    if pairs == [] {
      assert pairs + [pair] == [pair] && [pair][1..] == [];
    } else {
      assert (pairs + [pair])[1..] == pairs[1..] + [pair];
      PairsSnoc(pairs[1..], pair);
    }
  }

  lemma OneTorn(torn: string)
    requires '\n' !in torn
    ensures Values(Lines(torn)) == Bind(map[], torn)
  {
    if torn == "" {
      assert Lines(torn) == [] && !Cut(torn, '=').2;
    } else {
      assert Lines(torn) == [torn];
      ValuesSnoc([], torn);
      assert [] + [torn] == [torn];
    }
  }

  lemma BindMerge(m: map<string, string>, n: map<string, string>, torn: string)
    ensures m + (n + Bind(map[], torn)) == Bind(m + n, torn)
  {
  }

  lemma ThreeValues(a: seq<string>, b: seq<string>, c: seq<string>)
    ensures Values(a + (b + c)) == Values(a) + (Values(b) + Values(c))
  {
    ValuesAppend(a, b + c);
    ValuesAppend(b, c);
  }

  /** What a reader finds: the earlier content, the pairs written since, and a torn line. */
  lemma ReplayFile(prior: string, written: seq<(string, string)>, torn: string)
    requires Complete(prior) && '\n' !in torn
    requires forall i :: 0 <= i < |written| ==> OneLine(written[i])
    ensures Replay(prior + EnvText(written) + torn) == Bind(Replay(prior) + MapOf(written), torn)
  {
    Assoc(prior, EnvText(written), torn);
    LinesAppend(prior, EnvText(written) + torn);
    EnvTextLines(written, torn);
    PairsValues(written);
    ThreeValues(Lines(prior), Pairs(written), Lines(torn));
    OneTorn(torn);
    BindMerge(Replay(prior), MapOf(written), torn);
  }

  /** Whatever failed in between, a reader of the file finds for every variable whose last Set
      succeeded the value of the process environment. */
  lemma Mirrored(je: Environment)
    requires je.Valid() && Complete(je.prior) && forall i :: 0 <= i < |je.written| ==> OneLine(je.written[i])
    requires je.torn != "" ==> OneLine(je.attempt)
    ensures forall key <- MapOf(je.written) :: key !in je.lost ==>
              key in je.env && key in Replay(je.file) && Replay(je.file)[key] == je.env[key]
  {
    TornPart(je.torn, je.attempt);
    ReplayFile(je.prior, je.written, je.torn);
    var m, lost := je.start + MapOf(je.written), je.lost;
    forall key | key in MapOf(je.written) && key !in lost
      ensures key in je.env && key in Replay(je.file) && Replay(je.file)[key] == je.env[key]
    {
      assert key in m - lost && key in je.env - lost;
    }
  }

  /** A torn line binds its own variable or nothing. */
  lemma TornPart(torn: string, attempt: (string, string))
    requires torn != "" ==> torn <= Pair(attempt.0, attempt.1) && OneLine(attempt)
    ensures '\n' !in torn && (Cut(torn, '=').2 ==> Cut(torn, '=').0 == attempt.0)
  {
    if torn != "" {
      var line := Pair(attempt.0, attempt.1);
      assert '\n' !in line;
      assert torn == line[..|torn|];
      CutPair(attempt.0, attempt.1);
      CutPrefix(torn, attempt.0, attempt.1);
    }
  }

  lemma CutPrefix(torn: string, key: string, value: string)
    requires torn <= Pair(key, value) && '=' !in key
    ensures Cut(torn, '=').2 ==> Cut(torn, '=').0 == key
  {
    if |torn| > |key| {
      var rest := torn[|key| + 1..];
      assert torn == Pair(key, value)[..|torn|];
      assert torn == key + ['='] + rest;
      CutAppend(key, '=', rest);
    } else {
      assert torn == key[..|torn|];
      assert '=' !in torn;
    }
  }

  lemma {:induction false} ReplayOneLine(text: string)
    ensures forall key <- Replay(text) :: '\n' !in Replay(text)[key]
  {
    LinesFree(text);
    ValuesFree(Lines(text));
  }

  lemma {:induction false} LinesFree(text: string)
    ensures Free(Lines(text), '\n')
    decreases |text|
  {
    if text != "" {
      var i := IndexOf(text, '\n');
      if i < |text| {
        LinesFree(text[i + 1..]);
      }
    }
  }

  lemma {:induction false} ValuesFree(lines: seq<string>)
    requires Free(lines, '\n')
    ensures forall key <- Values(lines) :: '\n' !in Values(lines)[key]
  {
    if lines != [] {
      var n := |lines| - 1;
      ValuesFree(lines[..n]);
      var (key, value, ok) := Cut(lines[n], '=');
      assert lines[n] == lines[..][n];
    }
  }

  /** A variable whose value has a newline is never mirrored. */
  lemma NewlineIsLost(text: string, key: string, env: map<string, string>)
    requires key in env && '\n' in env[key]
    ensures !(key in Replay(text) && Replay(text)[key] == env[key])
  {
    ReplayOneLine(text);
  }
}

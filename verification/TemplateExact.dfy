/** Exactly when rendering a template (internal/provider/provider.go:224-251) is simultaneous substitution,
    for values with any braces in them: when the text it should produce contains no expression. Values come
    from the request, so braces in them are a real input. */
module TemplateExact {
  import opened Model
  import opened SortedStrings
  import opened Template

  ghost predicate HolesOk(ts: seq<Token>) {
    forall i :: 0 <= i < |ts| && ts[i].Hole? ==> TokenOk(ts[i])
  }

  /** The literals that a token list begins with, joined. */
  function LitRun(ts: seq<Token>): string {
    if ts == [] || ts[0].Hole? then [] else ts[0].text + LitRun(ts[1..])
  }

  /** No expression stands within adjacent literals. */
  ghost predicate Clear(ts: seq<Token>) {
    forall j :: 0 <= j <= |ts| ==> !HasExpression(LitRun(ts[j..]))
  }

  lemma ClearTail(ts: seq<Token>)
    requires Clear(ts) && ts != []
    ensures Clear(ts[1..]) && !HasExpression(LitRun(ts))
  {
    assert ts[0..] == ts;
    forall j | 0 <= j <= |ts[1..]| ensures !HasExpression(LitRun(ts[1..][j..])) {
      assert ts[1..][j..] == ts[j + 1..];
    }
  }

  // ---------------------------------------------------------------------------
  // A match within literals is an expression within literals
  // ---------------------------------------------------------------------------

  /** After the leading literals comes nothing, or a placeholder. */
  lemma {:induction false} RunThenHole(ts: seq<Token>) returns (rest: string)
    requires HolesOk(ts)
    ensures Flat(ts) == LitRun(ts) + rest
    ensures rest == "" || (|rest| > 2 && rest[0] == '{' && rest[1] == '{')
  {
    if ts == [] {
      rest := "";
    } else if ts[0].Hole? {
      rest := Flat(ts);
    } else {
      rest := RunThenHole(ts[1..]);
    }
  }

  /** A placeholder cannot begin within the text `run` and reach into the placeholder behind it. */
  lemma NoMatchAcross(run: string, rest: string, i: nat, key: string)
    requires rest == "" || (|rest| > 2 && rest[0] == '{' && rest[1] == '{')
    requires BraceFree(key) && key != "" && i < |run| && MatchAt(run + rest, i, Placeholder(key))
    ensures i + |Placeholder(key)| <= |run|
  {
    var s, pat := run + rest, Placeholder(key);
    OpensOnce(key);
    if |run| - i < |pat| {
      MatchedChar(s, i, pat, |run| - i);
      MatchedChar(s, i, pat, 2);
    }
  }

  lemma MatchedChar(s: string, i: nat, pat: string, k: nat)
    requires MatchAt(s, i, pat) && k < |pat|
    ensures s[i + k] == pat[k]
  {
    assert s[i..i + |pat|][k] == s[i + k];
  }

  lemma OpensOnce(key: string)
    requires BraceFree(key)
    ensures forall k :: 2 <= k < |Placeholder(key)| ==> Placeholder(key)[k] != '{'
  {
    forall k | 2 <= k < |Placeholder(key)| ensures Placeholder(key)[k] != '{' {
      assert k < 2 + |key| ==> Placeholder(key)[k] == key[k - 2] && !IsBrace(key[k - 2]);
    }
  }

  lemma MatchIsExpression(run: string, rest: string, i: nat, key: string)
    requires BraceFree(key) && key != "" && MatchAt(run + rest, i, Placeholder(key)) && i + |Placeholder(key)| <= |run|
    ensures HasExpression(run)
  {
    var s, pat := run + rest, Placeholder(key);
    assert run[i..i + |pat|] == s[i..i + |pat|];
    assert run == run[..i] + run[i..i + |pat|] + run[i + |pat|..];
    PlaceholderIsExpression(key);
    ExpressionWithin(run[..i], pat, run[i + |pat|..]);
  }

  /** In a clear list nothing matches from within a literal. */
  lemma NothingInLiterals(ts: seq<Token>, i: nat, key: string)
    requires HolesOk(ts) && ts != [] && ts[0].Lit? && !HasExpression(LitRun(ts))
    requires BraceFree(key) && key != "" && i < |ts[0].text|
    ensures !MatchAt(Flat(ts), i, Placeholder(key))
  {
    var rest := RunThenHole(ts);
    if MatchAt(Flat(ts), i, Placeholder(key)) {
      NoMatchAcross(LitRun(ts), rest, i, key);
      MatchIsExpression(LitRun(ts), rest, i, key);
    }
  }

  // ---------------------------------------------------------------------------
  // The passes over a clear list
  // ---------------------------------------------------------------------------

  lemma {:induction false} ReplaceClear(ts: seq<Token>, key: string, value: string)
    requires HolesOk(ts) && Clear(ts) && BraceFree(key) && key != ""
    ensures ReplaceAll(Flat(ts), Placeholder(key), value) == Flat(SubstAll(ts, key, value))
  {
    if ts != [] {
      ClearTail(ts);
      var rest := Flat(ts[1..]);
      if ts[0].Hole? {
        ReplaceToken(ts[0], rest, key, value);
      } else {
        LiteralSkipped(ts, key, value);
      }
      ReplaceClear(ts[1..], key, value);
      assert SubstAll(ts, key, value)[1..] == SubstAll(ts[1..], key, value);
    }
  }

  lemma LiteralSkipped(ts: seq<Token>, key: string, value: string)
    requires HolesOk(ts) && ts != [] && ts[0].Lit? && !HasExpression(LitRun(ts)) && BraceFree(key) && key != ""
    ensures ReplaceAll(Flat(ts), Placeholder(key), value)
         == ts[0].text + ReplaceAll(Flat(ts[1..]), Placeholder(key), value)
  {
    var rest := Flat(ts[1..]);
    forall i | 0 <= i < |ts[0].text| ensures !MatchAt(ts[0].text + rest, i, Placeholder(key)) {
      NothingInLiterals(ts, i, key);
    }
    ReplaceSkips(ts[0].text, rest, Placeholder(key), value);
  }

  /** A secret expression is the placeholder of its name. */
  lemma SecretIsPlaceholder(s: string)
    requires SecretAt(s).Some?
    ensures var key := SECRET_PREFIX + SecretAt(s).value;
            && BraceFree(key) && MatchAt(s, 0, Placeholder(key))
            && Placeholder(key) == SECRET_OPEN + SecretAt(s).value + "}}"
  {
    var name := SecretAt(s).value;
    NameRunIsPrefix(s[|SECRET_OPEN|..]);
    SecretPlaceholder(name);
  }

  lemma NoSecretInLiterals(ts: seq<Token>, i: nat)
    requires HolesOk(ts) && ts != [] && ts[0].Lit? && !HasExpression(LitRun(ts)) && i < |ts[0].text|
    ensures SecretAt(Flat(ts)[i..]) == None
  {
    var s := Flat(ts);
    if SecretAt(s[i..]).Some? {
      SecretIsPlaceholder(s[i..]);
      var key := SECRET_PREFIX + SecretAt(s[i..]).value;
      assert s[i..][0..|Placeholder(key)|] == s[i..i + |Placeholder(key)|];
      NothingInLiterals(ts, i, key);
    }
  }

  lemma {:induction false} RevealClear(ts: seq<Token>, secrets: map<string, string>)
    requires HolesOk(ts) && Clear(ts) && forall i :: 0 <= i < |ts| ==> Revealed(ts[i], secrets).Lit?
    ensures SecretPass(Flat(ts), secrets) == (Flat(RevealedAll(ts, secrets)), None)
  {
    if ts != [] {
      ClearTail(ts);
      var rest := Flat(ts[1..]);
      RevealClear(ts[1..], secrets);
      if ts[0].Hole? {
        RevealToken(ts[0], rest, secrets);
      } else {
        forall i | 0 <= i < |ts[0].text| ensures SecretAt((ts[0].text + rest)[i..]) == None {
          NoSecretInLiterals(ts, i);
        }
        SecretSkips(ts[0].text, rest, secrets);
      }
      assert RevealedAll(ts, secrets)[1..] == RevealedAll(ts[1..], secrets);
    }
  }

  // ---------------------------------------------------------------------------
  // A text without expressions keeps every intermediate list clear
  // ---------------------------------------------------------------------------

  /** `out` resolves `ts`: the literals are kept, and the placeholders are filled. */
  ghost predicate Resolves(ts: seq<Token>, out: seq<Token>) {
    && |out| == |ts|
    && forall i :: 0 <= i < |ts| ==> out[i].Lit? && (ts[i].Lit? ==> ts[i] == out[i])
  }

  lemma {:induction false} RunIsPrefix(ts: seq<Token>, out: seq<Token>)
    requires Resolves(ts, out)
    ensures LitRun(ts) <= Flat(out)
  {
    if ts != [] && ts[0].Lit? {
      RunIsPrefix(ts[1..], out[1..]);
    }
  }

  lemma ResolvedIsClear(ts: seq<Token>, out: seq<Token>)
    requires Resolves(ts, out) && !HasExpression(Flat(out))
    ensures Clear(ts)
  {
    forall j | 0 <= j <= |ts| ensures !HasExpression(LitRun(ts[j..])) {
      RunIsPrefix(ts[j..], out[j..]);
      FlatSplits(out, j);
      var run, tail := LitRun(ts[j..]), Flat(out[j..]);
      assert Flat(out[..j]) + run + tail[|run|..] == Flat(out);
      if HasExpression(run) {
        ExpressionWithin(Flat(out[..j]), run, tail[|run|..]);
      }
    }
  }

  lemma {:induction false} PassesFillClear(ts: seq<Token>, keys: seq<string>, vars: map<string, string>,
                                           out: seq<Token>)
    requires HolesOk(ts) && BraceFreeKeys(vars) && "" !in vars && !HasExpression(Flat(out))
    requires forall i :: 0 <= i < |keys| ==> keys[i] in vars
    requires Resolves(Filled(ts, keys, vars), out)
    ensures ReplaceVars(Flat(ts), keys, vars) == Flat(Filled(ts, keys, vars))
  {
    if keys == [] {
      assert Filled(ts, keys, vars) == ts;
    } else {
      var init, last := keys[..|keys| - 1], keys[|keys| - 1];
      FilledStep(ts, init, last, vars);
      assert keys == init + [last];
      assert Resolves(Filled(ts, init, vars), out);
      PassesFillClear(ts, init, vars, out);
      ResolvedIsClear(Filled(ts, init, vars), out);
      ReplaceClear(Filled(ts, init, vars), last, vars[last]);
    }
  }

  // ---------------------------------------------------------------------------
  // An unknown placeholder survives every pass
  // ---------------------------------------------------------------------------

  /** Two placeholders in one text do not overlap. */
  lemma NoOverlap(a: string, n: string, b: string, key: string)
    requires a != "" && BraceFree(key) && MatchAt(a + Placeholder(n) + b, 0, Placeholder(key))
    ensures |a| >= |Placeholder(key)|
  {
    var s, pat := a + Placeholder(n) + b, Placeholder(key);
    OpensOnce(key);
    if |a| < |pat| {
      MatchedChar(s, 0, pat, |a|);
      MatchedChar(s, 0, pat, 2);
    }
  }

  lemma Prepended(head: string, a: string, p: string, b: string)
    ensures head + (a + p + b) == head + a + p + b
  {
  }

  lemma Dropped(k: nat, a: string, p: string, b: string)
    requires k <= |a|
    ensures (a + p + b)[k..] == a[k..] + p + b
  {
  }

  /** One turn of the replacement, ahead of the other placeholder. */
  lemma ReplaceStep(a: string, n: string, b: string, key: string, value: string) returns (k: nat, head: string)
    requires a != "" && BraceFree(key)
    ensures 0 < k <= |a|
    ensures ReplaceAll(a + Placeholder(n) + b, Placeholder(key), value)
         == head + ReplaceAll(a[k..] + Placeholder(n) + b, Placeholder(key), value)
  {
    var s, pat := a + Placeholder(n) + b, Placeholder(key);
    if MatchAt(s, 0, pat) {
      NoOverlap(a, n, b, key);
      k, head := |pat|, value;
    } else {
      k, head := 1, [s[0]];
    }
    Dropped(k, a, Placeholder(n), b);
  }

  /** A pass `f` that comes to `x` in front of `p + b` leaves some text and goes on. */
  ghost predicate Advances(f: string -> string, x: string, p: string, b: string) {
    exists k, head :: 0 < k <= |x| && f(x + p + b) == head + f(x[k..] + p + b)
  }

  /** A pass that stops at no point of `a` reaches `p`, and leaves it standing if it does so at the start. */
  lemma {:induction false} PassReaches(f: string -> string, a: string, p: string, b: string) returns (a': string)
    requires f(p + b) == p + f(b) && forall x :: x != "" && |x| <= |a| ==> Advances(f, x, p, b)
    ensures f(a + p + b) == a' + p + f(b)
    decreases |a|
  {
    if a == "" {
      assert a + p + b == p + b;
      a' := "";
    } else {
      assert Advances(f, a, p, b);
      var k, head :| 0 < k <= |a| && f(a + p + b) == head + f(a[k..] + p + b);
      a' := PassReaches(f, a[k..], p, b);
      Prepended(head, a', p, f(b));
      a' := head + a';
    }
  }

  lemma ReplaceKeepsOther(a: string, n: string, b: string, key: string, value: string) returns (a': string, b': string)
    requires TokenOk(Hole(n)) && BraceFree(key) && key != n
    ensures ReplaceAll(a + Placeholder(n) + b, Placeholder(key), value) == a' + Placeholder(n) + b'
  {
    var f := (s: string) => ReplaceAll(s, Placeholder(key), value);
    var p := Placeholder(n);
    forall x | x != "" && |x| <= |a| ensures Advances(f, x, p, b) {
      var k, head := ReplaceStep(x, n, b, key, value);
      assert f(x + p + b) == head + f(x[k..] + p + b);
    }
    ReplaceToken(Hole(n), b, key, value);
    a' := PassReaches(f, a, p, b);
    b' := f(b);
  }

  lemma {:induction false} PassesKeepUnknown(a: string, n: string, b: string, keys: seq<string>,
                                             vars: map<string, string>)
      returns (a': string, b': string)
    requires TokenOk(Hole(n)) && n !in vars && BraceFreeKeys(vars) && forall i :: 0 <= i < |keys| ==> keys[i] in vars
    ensures ReplaceVars(a + Placeholder(n) + b, keys, vars) == a' + Placeholder(n) + b'
    decreases |keys|
  {
    if keys == [] {
      a', b' := a, b;
    } else {
      var last := keys[|keys| - 1];
      a', b' := PassesKeepUnknown(a, n, b, keys[..|keys| - 1], vars);
      a', b' := ReplaceKeepsOther(a', n, b', last, vars[last]);
    }
  }

  /** What the secret pass puts in place of the expression at the start of `s`. */
  function Replacement(s: string, secrets: map<string, string>): string
    requires SecretAt(s).Some?
  {
    var name := SecretAt(s).value;
    if name in secrets then secrets[name] else SECRET_OPEN + name + "}}"
  }

  lemma SecretStep(a: string, n: string, b: string, secrets: map<string, string>) returns (k: nat, head: string)
    requires a != ""
    ensures 0 < k <= |a|
    ensures SecretPass(a + Placeholder(n) + b, secrets).0 == head + SecretPass(a[k..] + Placeholder(n) + b, secrets).0
  {
    var s := a + Placeholder(n) + b;
    if SecretAt(s).Some? {
      SecretIsPlaceholder(s);
      NoOverlap(a, n, b, SECRET_PREFIX + SecretAt(s).value);
      k, head := |SECRET_OPEN| + |SecretAt(s).value| + 2, Replacement(s, secrets);
    } else {
      k, head := 1, [s[0]];
    }
    Dropped(k, a, Placeholder(n), b);
  }

  lemma UnknownStays(n: string, b: string, secrets: map<string, string>)
    requires TokenOk(Hole(n)) && (SecretOf(n).Some? ==> SecretOf(n).value !in secrets)
    ensures SecretPass(Placeholder(n) + b, secrets).0 == Placeholder(n) + SecretPass(b, secrets).0
  {
    RevealToken(Hole(n), b, secrets);
  }

  lemma SecretsKeepUnknown(a: string, n: string, b: string, secrets: map<string, string>)
      returns (a': string, b': string)
    requires TokenOk(Hole(n)) && (SecretOf(n).Some? ==> SecretOf(n).value !in secrets)
    ensures SecretPass(a + Placeholder(n) + b, secrets).0 == a' + Placeholder(n) + b'
  {
    var f := (s: string) => SecretPass(s, secrets).0;
    var p := Placeholder(n);
    forall x | x != "" && |x| <= |a| ensures Advances(f, x, p, b) {
      var k, head := SecretStep(x, n, b, secrets);
      assert f(x + p + b) == head + f(x[k..] + p + b);
    }
    UnknownStays(n, b, secrets);
    a' := PassReaches(f, a, p, b);
    b' := f(b);
  }

  lemma {:induction false} UnknownHole(ts: seq<Token>, vars: map<string, string>, secrets: map<string, string>)
      returns (i: nat)
    requires Meaning(ts, vars, secrets) == None
    ensures i < |ts| && ts[i].Hole? && Lookup(ts[i].name, vars, secrets) == None
  {
    if ts[0].Hole? && Lookup(ts[0].name, vars, secrets) == None {
      i := 0;
    } else {
      i := UnknownHole(ts[1..], vars, secrets);
      i := i + 1;
    }
  }

  /** An unknown placeholder is an error, whatever the values. */
  lemma UnknownFails(ts: seq<Token>, keys: seq<string>, vars: map<string, string>, secrets: map<string, string>)
    requires WellFormed(ts) && BraceFreeKeys(vars) && (forall i :: 0 <= i < |keys| ==> keys[i] in vars)
    requires Meaning(ts, vars, secrets) == None
    ensures RenderIn(keys, Flat(ts), vars, secrets).Err?
  {
    var i := UnknownHole(ts, vars, secrets);
    var n := ts[i].name;
    assert TokenOk(ts[i]);
    FlatAround(ts, i);
    var a, b := Flat(ts[..i]), Flat(ts[i + 1..]);
    a, b := PassesKeepUnknown(a, n, b, keys, vars);
    var s := ReplaceVars(Flat(ts), keys, vars);
    a, b := SecretsKeepUnknown(a, n, b, secrets);
    PlaceholderIsExpression(n);
    ExpressionWithin(a, Placeholder(n), b);
  }

  // ---------------------------------------------------------------------------
  // The exact condition
  // ---------------------------------------------------------------------------

  /** Some placeholder is no variable and names the secret `name`, which does not exist. */
  ghost predicate SecretIsMissing(ts: seq<Token>, vars: map<string, string>, secrets: map<string, string>,
                                  name: string) {
    exists i :: NamesMissing(ts, i, vars, secrets, name)
  }

  ghost predicate NoSecretMissing(ts: seq<Token>, vars: map<string, string>, secrets: map<string, string>) {
    forall name :: !SecretIsMissing(ts, vars, secrets, name)
  }

  /** The errors, for brace-free values: a missing secret is reported by the name of one, and only if there is
      one; any other unknown placeholder is reported as unresolved. */
  lemma ErrorsMean(ts: seq<Token>, keys: seq<string>, vars: map<string, string>, secrets: map<string, string>)
    requires WellFormed(ts) && BraceFreeKeys(vars) && BraceFreeValues(vars) && BraceFreeValues(secrets)
    requires Enumerates(keys, vars) && (forall i :: 0 <= i < |keys| ==> keys[i] in vars)
    ensures var r := RenderIn(keys, Flat(ts), vars, secrets);
            && (r.Ok? <==> Meaning(ts, vars, secrets).Some?)
            && (r.Err? && r.error.MissingSecret? ==> SecretIsMissing(ts, vars, secrets, r.error.name))
            && (r.Err? && r.error.Unresolved? ==> NoSecretMissing(ts, vars, secrets))
  {
    RenderIsSimultaneous(ts, keys, vars, secrets);
    PassesFill(ts, keys, vars);
    SecretPassReports(ts, keys, vars, secrets);
  }

  lemma SecretPassReports(ts: seq<Token>, keys: seq<string>, vars: map<string, string>, secrets: map<string, string>)
    requires WellFormed(ts) && BraceFreeValues(vars) && Enumerates(keys, vars)
    requires forall i :: 0 <= i < |keys| ==> keys[i] in vars
    ensures match SecretPass(Flat(Filled(ts, keys, vars)), secrets).1
            case Some(name) => name != "" && SecretIsMissing(ts, vars, secrets, name)
            case None => NoSecretMissing(ts, vars, secrets)
  {
    var filled := Filled(ts, keys, vars);
    FilledWellFormed(ts, keys, vars);
    RevealTokens(filled, secrets);
    MissingIsNamed(filled, secrets);
    match SecretPass(Flat(filled), secrets).1
    case Some(name) =>
      var i :| 0 <= i < |filled| && MissesSecret(filled[i], secrets) && SecretOf(filled[i].name) == Some(name);
      FilledMisses(ts, keys, vars, secrets, i, name);
    case None =>
      assert forall k :: 0 <= k < |filled| ==> !MissesSecret(filled[k], secrets);
      forall other ensures !SecretIsMissing(ts, vars, secrets, other) {
        if SecretIsMissing(ts, vars, secrets, other) {
          var i :| NamesMissing(ts, i, vars, secrets, other);
          FilledMisses(ts, keys, vars, secrets, i, other);
        }
      }
  }

  lemma FilledMisses(ts: seq<Token>, keys: seq<string>, vars: map<string, string>, secrets: map<string, string>, i: int,
                     name: string)
    requires Enumerates(keys, vars) && (forall k :: 0 <= k < |keys| ==> keys[k] in vars) && 0 <= i < |ts|
    ensures var t := Filled(ts, keys, vars)[i];
            NamesMissing(ts, i, vars, secrets, name) <==> MissesSecret(t, secrets) && SecretOf(t.name) == Some(name)
  {
    var t := Filled(ts, keys, vars)[i];
    if NamesMissing(ts, i, vars, secrets, name) {
      assert (SECRET_PREFIX + name)[..|SECRET_PREFIX|] == SECRET_PREFIX
             && (SECRET_PREFIX + name)[|SECRET_PREFIX|..] == name;
    }
    if MissesSecret(t, secrets) {
      assert t.name == SECRET_PREFIX + SecretOf(t.name).value;
    }
  }

  /** Placeholder `i` is no variable and names a secret that does not exist. */
  ghost predicate NamesMissing(ts: seq<Token>, i: int, vars: map<string, string>, secrets: map<string, string>,
                               name: string)
  {
    && 0 <= i < |ts| && ts[i].Hole? && ts[i].name !in vars && name !in secrets
    && name != "" && AllNameChars(name) && ts[i].name == SECRET_PREFIX + name
  }

  lemma {:induction false} MissingIsNamed(ts: seq<Token>, secrets: map<string, string>)
    requires WellFormed(ts)
    ensures var missing := SecretPass(Flat(ts), secrets).1;
            missing.Some? ==>
              exists i :: 0 <= i < |ts| && MissesSecret(ts[i], secrets) && SecretOf(ts[i].name) == missing
  {
    if ts != [] {
      var rest := Flat(ts[1..]);
      MissingIsNamed(ts[1..], secrets);
      RevealToken(ts[0], rest, secrets);
      if SecretPass(rest, secrets).1.Some? {
        var i :| 0 <= i < |ts[1..]| && MissesSecret(ts[1..][i], secrets)
                 && SecretOf(ts[1..][i].name) == SecretPass(rest, secrets).1;
        assert ts[i + 1] == ts[1..][i];
      } else if MissesSecret(ts[0], secrets) {
        MissingHead(ts[0].name, rest, secrets);
      }
    }
  }

  lemma MissingHead(name: string, rest: string, secrets: map<string, string>)
    requires TokenOk(Hole(name)) && MissesSecret(Hole(name), secrets) && SecretPass(rest, secrets).1 == None
    ensures SecretPass(Placeholder(name) + rest, secrets).1 == SecretOf(name)
  {
    var s, m := Placeholder(name) + rest, SecretOf(name).value;
    SecretAtPlaceholder(name, rest);
    assert name == SECRET_PREFIX + m && Placeholder(name) == SECRET_OPEN + m + "}}";
    assert s[|SECRET_OPEN| + |m| + 2..] == rest;
  }

  /** What the sequential passes should do: substitute at once, and fail on an unknown placeholder. */
  ghost predicate Agrees(ts: seq<Token>, keys: seq<string>, vars: map<string, string>, secrets: map<string, string>)
    requires forall i :: 0 <= i < |keys| ==> keys[i] in vars
  {
    match Meaning(ts, vars, secrets)
    case Some(text) => RenderIn(keys, Flat(ts), vars, secrets) == Ok(text)
    case None => RenderIn(keys, Flat(ts), vars, secrets).Err?
  }

  /** For any values, braces or not, and any order of the keys: rendering is simultaneous substitution if
      and only if the substituted text contains no expression. */
  lemma AgreesIff(ts: seq<Token>, keys: seq<string>, vars: map<string, string>, secrets: map<string, string>)
    requires WellFormed(ts) && BraceFreeKeys(vars) && "" !in vars
    requires Enumerates(keys, vars) && (forall i :: 0 <= i < |keys| ==> keys[i] in vars)
    ensures Agrees(ts, keys, vars, secrets) <==>
              (Meaning(ts, vars, secrets).Some? ==> !HasExpression(Meaning(ts, vars, secrets).value))
  {
    match Meaning(ts, vars, secrets)
    case None => UnknownFails(ts, keys, vars, secrets);
    case Some(text) =>
      if !HasExpression(text) {
        ClearRenders(ts, keys, vars, secrets);
      }
  }

  lemma ClearRenders(ts: seq<Token>, keys: seq<string>, vars: map<string, string>, secrets: map<string, string>)
    requires WellFormed(ts) && BraceFreeKeys(vars) && "" !in vars
    requires Enumerates(keys, vars) && (forall i :: 0 <= i < |keys| ==> keys[i] in vars)
    requires Meaning(ts, vars, secrets).Some? && !HasExpression(Meaning(ts, vars, secrets).value)
    ensures RenderIn(keys, Flat(ts), vars, secrets) == Ok(Meaning(ts, vars, secrets).value)
  {
    MeaningIsResolved(ts, keys, vars, secrets);
    var filled, out := Filled(ts, keys, vars), Resolved(ts, keys, vars, secrets);
    assert Resolves(filled, out);
    PassesFillClear(ts, keys, vars, out);
    ResolvedIsClear(filled, out);
    assert HolesOk(filled);
    RevealClear(filled, secrets);
  }

  /** The value of a placeholder that a template may use. */
  ghost predicate Reaches(vars: map<string, string>, secrets: map<string, string>, name: string, value: string) {
    TokenOk(Hole(name)) && Lookup(name, vars, secrets) == Some(value)
  }

  ghost predicate IsTemplate(s: string) {
    exists ts :: WellFormed(ts) && s == Flat(ts)
  }

  /** If every value reads as a template, all templates render as they should if and only if no value that
      a placeholder can name contains a brace. */
  lemma AllAgreeIff(keys: seq<string>, vars: map<string, string>, secrets: map<string, string>)
    requires BraceFreeKeys(vars) && "" !in vars
    requires Enumerates(keys, vars) && (forall i :: 0 <= i < |keys| ==> keys[i] in vars)
    requires forall name, value :: Reaches(vars, secrets, name, value) ==> IsTemplate(value)
    ensures (forall ts :: WellFormed(ts) ==> Agrees(ts, keys, vars, secrets)) <==>
            (forall name, value :: Reaches(vars, secrets, name, value) ==> BraceFree(value))
  {
    if forall name, value :: Reaches(vars, secrets, name, value) ==> BraceFree(value) {
      forall ts | WellFormed(ts) ensures Agrees(ts, keys, vars, secrets) {
        AgreesIff(ts, keys, vars, secrets);
        if Meaning(ts, vars, secrets).Some? {
          PlainMeaning(ts, vars, secrets);
          PlainHasNoExpression(Meaning(ts, vars, secrets).value);
        }
      }
    }
    if name, value :| Reaches(vars, secrets, name, value) && !BraceFree(value) {
      var ts := [Hole(name)];
      assert IsTemplate(value);
      var inner: seq<Token> :| WellFormed(inner) && value == Flat(inner);
      if forall i :: 0 <= i < |inner| ==> inner[i].Lit? {
        FlatWithoutHoles(inner);
      } else {
        FlatWithHole(inner);
      }
      AgreesIff(ts, keys, vars, secrets);
      SingleMeaning(name, vars, secrets);
      assert WellFormed(ts) && !Agrees(ts, keys, vars, secrets);
    }
  }

  lemma SingleMeaning(name: string, vars: map<string, string>, secrets: map<string, string>)
    ensures Meaning([Hole(name)], vars, secrets) == Lookup(name, vars, secrets)
  {
    var ts := [Hole(name)];
    assert ts[1..] == [];
    var v := Lookup(name, vars, secrets);
    assert v.Some? ==> v.value + [] == v.value;
  }

  lemma {:induction false} PlainMeaning(ts: seq<Token>, vars: map<string, string>, secrets: map<string, string>)
    requires WellFormed(ts) && Meaning(ts, vars, secrets).Some?
    requires forall name, value :: Reaches(vars, secrets, name, value) ==> BraceFree(value)
    ensures BraceFree(Meaning(ts, vars, secrets).value)
  {
    if ts != [] {
      PlainMeaning(ts[1..], vars, secrets);
      if ts[0].Hole? {
        assert Reaches(vars, secrets, ts[0].name, Lookup(ts[0].name, vars, secrets).value);
      }
    }
  }

  // ---------------------------------------------------------------------------
  // Inputs on which the code goes wrong
  // ---------------------------------------------------------------------------

  lemma PassOverHole(name: string, key: string, value: string)
    requires TokenOk(Hole(name)) && BraceFree(key)
    ensures ReplaceAll(Placeholder(name), Placeholder(key), value) == if name == key then value else Placeholder(name)
  {
    ReplaceToken(Hole(name), "", key, value);
    assert Placeholder(name) + "" == Placeholder(name) && value + "" == value;
  }

  lemma PassOverPlain(text: string, key: string, value: string)
    requires BraceFree(text) && BraceFree(key)
    ensures ReplaceAll(text, Placeholder(key), value) == text
  {
    ReplaceToken(Lit(text), "", key, value);
    assert text + "" == text;
  }

  ghost predicate KeysOk(keys: seq<string>, vars: map<string, string>) {
    && Distinct(keys)
    && (forall i :: 0 <= i < |keys| ==> keys[i] in vars && TokenOk(Hole(keys[i])))
  }

  lemma {:induction false} LeftAlone(name: string, keys: seq<string>, vars: map<string, string>)
    requires KeysOk(keys, vars) && TokenOk(Hole(name)) && name !in keys
    ensures ReplaceVars(Placeholder(name), keys, vars) == Placeholder(name)
  {
    if keys != [] {
      var init, last := keys[..|keys| - 1], keys[|keys| - 1];
      LeftAlone(name, init, vars);
      PassOverHole(name, last, vars[last]);
    }
  }

  /** The passes up to and including the variable itself put in its value. */
  lemma FirstExpansion(keys: seq<string>, i: nat, vars: map<string, string>)
    requires KeysOk(keys, vars) && i < |keys|
    ensures ReplaceVars(Placeholder(keys[i]), keys[..i + 1], vars) == vars[keys[i]]
  {
    assert keys[..i + 1][..i] == keys[..i];
    LeftAlone(keys[i], keys[..i], vars);
    PassOverHole(keys[i], keys[i], vars[keys[i]]);
  }

  /** Later passes see what earlier ones put in. */
  lemma {:induction false} PassesCompose(s: string, keys: seq<string>, i: nat, vars: map<string, string>)
    requires i <= |keys| && forall k :: 0 <= k < |keys| ==> keys[k] in vars
    ensures ReplaceVars(s, keys, vars) == ReplaceVars(ReplaceVars(s, keys[..i], vars), keys[i..], vars)
    decreases |keys|
  {
    if i < |keys| {
      var init := keys[..|keys| - 1];
      PassesCompose(s, init, i, vars);
      assert init[..i] == keys[..i] && init[i..] == keys[i..][..|keys| - i - 1];
    } else {
      assert keys[..i] == keys && keys[i..] == [];
    }
  }

  lemma {:induction false} PlainLeftAlone(text: string, keys: seq<string>, vars: map<string, string>)
    requires KeysOk(keys, vars) && BraceFree(text)
    ensures ReplaceVars(text, keys, vars) == text
  {
    if keys != [] {
      PlainLeftAlone(text, keys[..|keys| - 1], vars);
      PassOverPlain(text, keys[|keys| - 1], vars[keys[|keys| - 1]]);
    }
  }

  /** A variable whose value is the placeholder of a later variable is expanded twice. */
  lemma ExpandedTwice(keys: seq<string>, i: nat, j: nat, vars: map<string, string>, secrets: map<string, string>)
    requires KeysOk(keys, vars) && i < j < |keys|
    requires vars[keys[i]] == Placeholder(keys[j]) && BraceFree(vars[keys[j]])
    ensures RenderIn(keys, Placeholder(keys[i]), vars, secrets) == Ok(vars[keys[j]])
    ensures Meaning([Hole(keys[i])], vars, secrets) == Some(vars[keys[i]]) && vars[keys[i]] != vars[keys[j]]
  {
    SingleMeaning(keys[i], vars, secrets);
    var tail := keys[i + 1..];
    PassesCompose(Placeholder(keys[i]), keys, i + 1, vars);
    FirstExpansion(keys, i, vars);
    PassesCompose(Placeholder(keys[j]), tail, j - i, vars);
    assert tail[j - i - 1] == keys[j];
    FirstExpansion(tail, j - i - 1, vars);
    PlainLeftAlone(vars[keys[j]], tail[j - i..], vars);
    PlainFinishes(vars[keys[j]], secrets);
    assert Placeholder(keys[j])[0] == '{' && IsBrace('{');
  }

  lemma PlainFinishes(text: string, secrets: map<string, string>)
    requires BraceFree(text)
    ensures Finish(text, secrets) == Ok(text)
  {
    RevealToken(Lit(text), "", secrets);
    assert text + "" == text;
    PlainHasNoExpression(text);
  }

  /** A variable whose value is the placeholder of a secret reveals the secret. */
  lemma SecretRevealed(keys: seq<string>, i: nat, name: string, vars: map<string, string>, secrets: map<string, string>)
    requires KeysOk(keys, vars) && i < |keys| && TokenOk(Hole(name)) && name !in keys && SecretOf(name).Some?
    requires vars[keys[i]] == Placeholder(name)
    requires SecretOf(name).value in secrets && BraceFree(secrets[SecretOf(name).value])
    ensures RenderIn(keys, Placeholder(keys[i]), vars, secrets) == Ok(secrets[SecretOf(name).value])
    ensures Meaning([Hole(keys[i])], vars, secrets) == Some(vars[keys[i]])
            && vars[keys[i]] != secrets[SecretOf(name).value]
  {
    var secret := secrets[SecretOf(name).value];
    SingleMeaning(keys[i], vars, secrets);
    PassesCompose(Placeholder(keys[i]), keys, i + 1, vars);
    FirstExpansion(keys, i, vars);
    LeftAlone(name, keys[i + 1..], vars);
    RevealToken(Hole(name), "", secrets);
    assert Placeholder(name) + "" == Placeholder(name) && secret + "" == secret;
    PlainHasNoExpression(secret);
    assert Placeholder(name)[0] == '{' && IsBrace('{');
  }

  /** The variables that Generate passes, in the order in which render visits them. */
  const VARIABLES: seq<string> := ["city", "country", "duration", "session", "state"]

  function Variables(city: string, country: string, duration: string, session: string,
                     state: string): map<string, string> {
    map["city" := city, "country" := country, "duration" := duration, "session" := session, "state" := state]
  }

  lemma VariablesOk(city: string, country: string, duration: string, session: string, state: string)
    ensures KeysOk(VARIABLES, Variables(city, country, duration, session, state))
  {
    assert forall i :: 0 <= i < 5 ==> BraceFree(VARIABLES[i]);
  }

  /** That order is the sorted one. */
  lemma VariablesAreSorted(city: string, country: string, duration: string, session: string, state: string)
    ensures Sorted(VARIABLES) && Enumerates(VARIABLES, Variables(city, country, duration, session, state))
  {
    var v := VARIABLES;
    assert v[1][1..][0] == 'o' && v[4][1..][0] == 't';
    assert Less(v[0], v[1]) && Less(v[1], v[2]) && Less(v[2], v[3]) && Less(v[3], v[4]);
    forall i, j | 0 <= i < j < 5 ensures Less(v[i], v[j]) {
    }
  }

  /** A request for country "{{session}}" gets the session into the text, where the country should stand. */
  lemma CountryIsExpandedTwice(city: string, duration: string, session: string, state: string,
                               secrets: map<string, string>)
    requires BraceFree(session)
    ensures var vars := Variables(city, Placeholder("session"), duration, session, state);
            && RenderIn(VARIABLES, Placeholder("country"), vars, secrets) == Ok(session)
            && Meaning([Hole("country")], vars, secrets) == Some(Placeholder("session"))
               && Placeholder("session") != session
  {
    VariablesOk(city, Placeholder("session"), duration, session, state);
    ExpandedTwice(VARIABLES, 1, 3, Variables(city, Placeholder("session"), duration, session, state), secrets);
  }

  /** A request for state "{{secret.x}}" gets the provider's secret into the text. */
  lemma StateRevealsSecret(city: string, country: string, duration: string, session: string,
                           secrets: map<string, string>)
    requires "x" in secrets && BraceFree(secrets["x"])
    ensures var vars := Variables(city, country, duration, session, Placeholder("secret.x"));
            && RenderIn(VARIABLES, Placeholder("state"), vars, secrets) == Ok(secrets["x"])
            && Meaning([Hole("state")], vars, secrets) == Some(Placeholder("secret.x"))
               && Placeholder("secret.x") != secrets["x"]
  {
    VariablesOk(city, country, duration, session, Placeholder("secret.x"));
    var name: string := "secret.x";
    assert name[..|SECRET_PREFIX|] == SECRET_PREFIX && name[|SECRET_PREFIX|..] == "x";
    SecretRevealed(VARIABLES, 4, name, Variables(city, country, duration, session, Placeholder(name)), secrets);
  }
}

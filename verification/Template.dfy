/** Rendering provider templates (internal/provider/provider.go:224-251). The source replaces one variable
    after the other in the whole string, then the secrets, then looks for leftovers; the theorem is that on
    well-formed templates with brace-free values this is one simultaneous substitution. */
module Template {
  import opened Model
  import opened SortedStrings

  datatype RenderError = MissingSecret(name: string) | Unresolved

  // ---------------------------------------------------------------------------
  // The string operations the source uses
  // ---------------------------------------------------------------------------

  predicate MatchAt(s: string, i: nat, pat: string) {
    i + |pat| <= |s| && s[i..i + |pat|] == pat
  }

  /** strings.ReplaceAll: from left to right, never looking into what it has put in. */
  function ReplaceAll(s: string, pat: string, value: string): string
    requires pat != []
  {
    if s == [] then []
    else if MatchAt(s, 0, pat) then value + ReplaceAll(s[|pat|..], pat, value)
    else [s[0]] + ReplaceAll(s[1..], pat, value)
  }

  function Placeholder(name: string): string {
    "{{" + name + "}}"
  }

  predicate IsNameChar(c: char) {
    'a' <= c <= 'z' || 'A' <= c <= 'Z' || '0' <= c <= '9' || c == '_' || c == '.' || c == '-'
  }

  /** The characters of [A-Za-z0-9_.-], by their ASCII codes. */
  lemma NameCharMeans(c: char)
    ensures IsNameChar(c) <==>
              var code := c as int;
              48 <= code <= 57 || 65 <= code <= 90 || 97 <= code <= 122 || code == 95 || code == 46 || code == 45
  {
  }

  function NameRun(s: string): string {
    if s != [] && IsNameChar(s[0]) then [s[0]] + NameRun(s[1..]) else []
  }

  const SECRET_OPEN := "{{secret."

  /** The name that \{\{secret\.([A-Za-z0-9_.-]+)\}\} captures at the start of `s`. */
  function SecretAt(s: string): Option<string> {
    if MatchAt(s, 0, SECRET_OPEN) then
      var name := NameRun(s[|SECRET_OPEN|..]);
      if name != [] && MatchAt(s, 0, SECRET_OPEN + name + "}}") then Some(name) else None
    else None
  }

  /** ReplaceAllStringFunc over the secret expression: unknown secrets stay and the last of them is reported. */
  function SecretPass(s: string, secrets: map<string, string>): (string, Option<string>) {
    if s == [] then ([], None)
    else match SecretAt(s)
      case Some(name) =>
        var (out, missing) := SecretPass(s[|SECRET_OPEN| + |name| + 2..], secrets);
        if name in secrets then (secrets[name] + out, missing)
        else (SECRET_OPEN + name + "}}" + out, if missing.Some? then missing else Some(name))
      case None =>
        var (out, missing) := SecretPass(s[1..], secrets);
        ([s[0]] + out, missing)
  }

  predicate IsBrace(c: char) {
    c == '{' || c == '}'
  }

  predicate BraceFree(s: string) {
    forall i :: 0 <= i < |s| ==> !IsBrace(s[i])
  }

  /** \{\{[^{}]+\}\} matches somewhere in `s`. */
  predicate HasExpression(s: string) {
    exists i, j :: 0 <= i && i + 2 < j && j + 2 <= |s| && IsExpression(s, i, j)
  }

  predicate IsExpression(s: string, i: nat, j: nat)
    requires i + 2 < j && j + 2 <= |s|
  {
    s[i..i + 2] == "{{" && BraceFree(s[i + 2..j]) && s[j..j + 2] == "}}"
  }

  function ReplaceVars(s: string, keys: seq<string>, vars: map<string, string>): string
    requires forall i :: 0 <= i < |keys| ==> keys[i] in vars
  {
    if keys == [] then s
    else ReplaceAll(ReplaceVars(s, keys[..|keys| - 1], vars), Placeholder(keys[|keys| - 1]), vars[keys[|keys| - 1]])
  }

  function Finish(s: string, secrets: map<string, string>): Result<string, RenderError> {
    var (out, missing) := SecretPass(s, secrets);
    if missing.Some? && missing.value != "" then Err(MissingSecret(missing.value))
    else if HasExpression(out) then Err(Unresolved)
    else Ok(out)
  }

  /** render with the variables taken in the order of `keys`. */
  function RenderIn(keys: seq<string>, template: string, vars: map<string, string>,
                    secrets: map<string, string>): Result<string, RenderError>
    requires forall i :: 0 <= i < |keys| ==> keys[i] in vars
  {
    Finish(ReplaceVars(template, keys, vars), secrets)
  }

  ghost predicate Enumerates(keys: seq<string>, vars: map<string, string>) {
    forall k :: k in keys <==> k in vars
  }

  /** The keys of the variables, collected in map order and sorted. */
  method SortedKeys(vars: map<string, string>) returns (keys: seq<string>)
    ensures Sorted(keys) && Enumerates(keys, vars)
  {
    keys := [];
    var rest := vars.Keys;
    while rest != {}
      invariant rest <= vars.Keys && Distinct(keys)
      invariant forall k :: k in keys <==> k in vars && k !in rest
    {
      var k := Pick(rest);
      keys := keys + [k];
      rest := rest - {k};
    }
    SortSorts(keys);
    keys := Sort(keys);
  }

  method Render(template: string, vars: map<string, string>, secrets: map<string, string>)
      returns (r: Result<string, RenderError>)
    ensures exists keys :: Sorted(keys) && Enumerates(keys, vars) && r == RenderIn(keys, template, vars, secrets)
  {
    var keys := SortedKeys(vars);
    assert forall i :: 0 <= i < |keys| ==> keys[i] in keys;
    var out := template;
    for i := 0 to |keys|
      invariant out == ReplaceVars(template, keys[..i], vars)
    {
      assert keys[..i + 1][..i] == keys[..i];
      out := ReplaceAll(out, Placeholder(keys[i]), vars[keys[i]]);
    }
    assert keys[..|keys|] == keys;
    r := Finish(out, secrets);
  }

  // ---------------------------------------------------------------------------
  // Templates as tokens, and their simultaneous meaning
  // ---------------------------------------------------------------------------

  datatype Token = Lit(text: string) | Hole(name: string)

  function TokenText(t: Token): string {
    match t
    case Lit(text) => text
    case Hole(name) => Placeholder(name)
  }

  function Flat(ts: seq<Token>): string {
    if ts == [] then [] else TokenText(ts[0]) + Flat(ts[1..])
  }

  predicate TokenOk(t: Token) {
    match t
    case Lit(text) => BraceFree(text)
    case Hole(name) => name != "" && BraceFree(name)
  }

  ghost predicate WellFormed(ts: seq<Token>) {
    forall i :: 0 <= i < |ts| ==> TokenOk(ts[i])
  }

  ghost predicate BraceFreeValues(m: map<string, string>) {
    forall k :: k in m ==> BraceFree(m[k])
  }

  ghost predicate BraceFreeKeys(m: map<string, string>) {
    forall k :: k in m ==> BraceFree(k)
  }

  const SECRET_PREFIX := "secret."

  predicate AllNameChars(s: string) {
    forall i :: 0 <= i < |s| ==> IsNameChar(s[i])
  }

  /** The secret a placeholder refers to, if its name has that form. */
  function SecretOf(name: string): Option<string> {
    if |name| > |SECRET_PREFIX| && name[..|SECRET_PREFIX|] == SECRET_PREFIX && AllNameChars(name[|SECRET_PREFIX|..])
    then Some(name[|SECRET_PREFIX|..]) else None
  }

  function Lookup(name: string, vars: map<string, string>, secrets: map<string, string>): Option<string> {
    if name in vars then Some(vars[name])
    else match SecretOf(name)
      case Some(secret) => if secret in secrets then Some(secrets[secret]) else None
      case None => None
  }

  /** Every placeholder replaced at once; `None` when one of them is unknown. */
  function Meaning(ts: seq<Token>, vars: map<string, string>, secrets: map<string, string>): Option<string> {
    if ts == [] then Some([])
    else
      var head := match ts[0] case Lit(text) => Some(text) case Hole(name) => Lookup(name, vars, secrets);
      var tail := Meaning(ts[1..], vars, secrets);
      if head.Some? && tail.Some? then Some(head.value + tail.value) else None
  }

  // ---------------------------------------------------------------------------
  // One replacement pass
  // ---------------------------------------------------------------------------

  lemma {:induction false} ReplaceSkips(t: string, rest: string, pat: string, value: string)
    requires pat != [] && forall i :: 0 <= i < |t| ==> !MatchAt(t + rest, i, pat)
    ensures ReplaceAll(t + rest, pat, value) == t + ReplaceAll(rest, pat, value)
  {
    if t == [] {
      assert t + rest == rest;
    } else {
      var s := t + rest;
      assert !MatchAt(s, 0, pat);
      assert s[1..] == t[1..] + rest;
      forall i | 0 <= i < |t[1..]| ensures !MatchAt(t[1..] + rest, i, pat) {
        assert !MatchAt(s, i + 1, pat);
        assert i + |pat| <= |s[1..]| ==> s[1..][i..i + |pat|] == s[i + 1..i + 1 + |pat|];
      }
      ReplaceSkips(t[1..], rest, pat, value);
    }
  }

  /** A placeholder's opening matches only where two braces open. */
  lemma MatchNeedsBraces(s: string, i: nat, key: string)
    requires MatchAt(s, i, Placeholder(key))
    ensures s[i] == '{' && s[i + 1] == '{'
  {
    var pat := Placeholder(key);
    assert s[i..i + |pat|][0] == pat[0] && s[i..i + |pat|][1] == pat[1];
  }

  /** The length of the longest brace-free prefix. */
  function PlainRun(s: string): nat {
    if s == [] || IsBrace(s[0]) then 0 else 1 + PlainRun(s[1..])
  }

  lemma {:induction false} PlainRunOf(name: string, rest: string)
    requires BraceFree(name)
    ensures PlainRun(name + rest) == |name| + PlainRun(rest)
  {
    if name == [] {
      assert name + rest == rest;
    } else {
      assert (name + rest)[1..] == name[1..] + rest;
      PlainRunOf(name[1..], rest);
    }
  }

  /** Two placeholders match only if their names are equal. */
  lemma PlaceholderMatchesItself(name: string, rest: string, key: string)
    requires BraceFree(name) && BraceFree(key)
    ensures MatchAt(Placeholder(name) + rest, 0, Placeholder(key)) <==> name == key
  {
    var s, pat := Placeholder(name) + rest, Placeholder(key);
    if name == key {
      assert s[..|pat|] == pat;
    }
    if MatchAt(s, 0, pat) {
      assert s == pat + s[|pat|..];
      assert s[2..] == name + ("}}" + rest) == key + ("}}" + s[|pat|..]);
      PlainRunOf(name, "}}" + rest);
      PlainRunOf(key, "}}" + s[|pat|..]);
      assert name == s[2..2 + |name|] == key;
    }
  }

  /** In a placeholder, followed by anything, two opening braces stand only at its beginning. */
  lemma BracesOpenOnce(name: string, rest: string, i: nat)
    requires BraceFree(name) && name != "" && 0 < i < |Placeholder(name)|
    ensures var s := Placeholder(name) + rest; s[i] != '{' || (i + 1 < |s| && s[i + 1] != '{')
  {
    var s := Placeholder(name) + rest;
    assert s[2] == name[0] && !IsBrace(name[0]);
    if 2 <= i < 2 + |name| {
      assert s[i] == name[i - 2] && !IsBrace(name[i - 2]);
    }
  }

  function Subst(t: Token, key: string, value: string): Token {
    if t == Hole(key) then Lit(value) else t
  }

  function SubstAll(ts: seq<Token>, key: string, value: string): seq<Token> {
    seq(|ts|, i requires 0 <= i < |ts| => Subst(ts[i], key, value))
  }

  lemma ReplaceToken(t: Token, rest: string, key: string, value: string)
    requires TokenOk(t) && BraceFree(key)
    ensures ReplaceAll(TokenText(t) + rest, Placeholder(key), value)
         == TokenText(Subst(t, key, value)) + ReplaceAll(rest, Placeholder(key), value)
  {
    var text, pat := TokenText(t), Placeholder(key);
    if t.Hole? {
      PlaceholderMatchesItself(t.name, rest, key);
    }
    if t == Hole(key) {
      assert (text + rest)[|pat|..] == rest;
    } else {
      forall i | 0 <= i < |text| ensures !MatchAt(text + rest, i, pat) {
        if t.Lit? {
          assert (text + rest)[i] == text[i] && !IsBrace(text[i]);
          if MatchAt(text + rest, i, pat) {
            MatchNeedsBraces(text + rest, i, key);
          }
        } else if i > 0 {
          BracesOpenOnce(t.name, rest, i);
          if MatchAt(text + rest, i, pat) {
            MatchNeedsBraces(text + rest, i, key);
          }
        }
      }
      ReplaceSkips(text, rest, pat, value);
    }
  }

  /** On a well-formed template, replacing a placeholder in the text is replacing its tokens. */
  lemma {:induction false} ReplaceTokens(ts: seq<Token>, key: string, value: string)
    requires WellFormed(ts) && BraceFree(key)
    ensures ReplaceAll(Flat(ts), Placeholder(key), value) == Flat(SubstAll(ts, key, value))
  {
    if ts != [] {
      ReplaceToken(ts[0], Flat(ts[1..]), key, value);
      ReplaceTokens(ts[1..], key, value);
      assert SubstAll(ts, key, value)[1..] == SubstAll(ts[1..], key, value);
    }
  }

  // ---------------------------------------------------------------------------
  // All passes over the variables
  // ---------------------------------------------------------------------------

  function Filled(ts: seq<Token>, keys: seq<string>, vars: map<string, string>): seq<Token>
    requires forall i :: 0 <= i < |keys| ==> keys[i] in vars
  {
    seq(|ts|, i requires 0 <= i < |ts| => if ts[i].Hole? && ts[i].name in keys then Lit(vars[ts[i].name]) else ts[i])
  }

  lemma FilledStep(ts: seq<Token>, init: seq<string>, last: string, vars: map<string, string>)
    requires last in vars && forall i :: 0 <= i < |init| ==> init[i] in vars
    ensures SubstAll(Filled(ts, init, vars), last, vars[last]) == Filled(ts, init + [last], vars)
  {
    forall i | 0 <= i < |ts|
      ensures Subst(Filled(ts, init, vars)[i], last, vars[last]) == Filled(ts, init + [last], vars)[i]
    {
      assert ts[i].Hole? ==> (ts[i].name in init + [last] <==> ts[i].name in init || ts[i].name == last);
    }
  }

  lemma FilledWellFormed(ts: seq<Token>, keys: seq<string>, vars: map<string, string>)
    requires WellFormed(ts) && BraceFreeValues(vars) && forall i :: 0 <= i < |keys| ==> keys[i] in vars
    ensures WellFormed(Filled(ts, keys, vars))
  {
  }

  lemma {:induction false} PassesFill(ts: seq<Token>, keys: seq<string>, vars: map<string, string>)
    requires WellFormed(ts) && BraceFreeValues(vars) && BraceFreeKeys(vars)
    requires forall i :: 0 <= i < |keys| ==> keys[i] in vars
    ensures WellFormed(Filled(ts, keys, vars))
    ensures ReplaceVars(Flat(ts), keys, vars) == Flat(Filled(ts, keys, vars))
  {
    FilledWellFormed(ts, keys, vars);
    if keys == [] {
      assert Filled(ts, keys, vars) == ts;
    } else {
      var init, last := keys[..|keys| - 1], keys[|keys| - 1];
      PassesFill(ts, init, vars);
      ReplaceTokens(Filled(ts, init, vars), last, vars[last]);
      FilledStep(ts, init, last, vars);
      assert keys == init + [last];
    }
  }

  // ---------------------------------------------------------------------------
  // The pass over the secrets
  // ---------------------------------------------------------------------------

  lemma {:induction false} NameRunIsPrefix(s: string)
    ensures AllNameChars(NameRun(s)) && |NameRun(s)| <= |s| && s[..|NameRun(s)|] == NameRun(s)
  {
    if s != [] && IsNameChar(s[0]) {
      NameRunIsPrefix(s[1..]);
      assert s[..1 + |NameRun(s[1..])|] == [s[0]] + s[1..][..|NameRun(s[1..])|];
    }
  }

  lemma {:induction false} NameRunExact(m: string, rest: string)
    requires AllNameChars(m) && rest != [] && !IsNameChar(rest[0])
    ensures NameRun(m + rest) == m
  {
    if m == [] {
      assert m + rest == rest;
    } else {
      assert (m + rest)[1..] == m[1..] + rest;
      NameRunExact(m[1..], rest);
    }
  }

  lemma SecretNeedsBraces(s: string)
    requires SecretAt(s).Some?
    ensures |s| >= 2 && s[0] == '{' && s[1] == '{'
  {
    assert s[0..|SECRET_OPEN|][0] == SECRET_OPEN[0] && s[0..|SECRET_OPEN|][1] == SECRET_OPEN[1];
  }

  lemma SecretOpenIsPrefix(name: string, rest: string)
    requires BraceFree(name)
    ensures MatchAt(Placeholder(name) + rest, 0, SECRET_OPEN) <==>
              |name| >= |SECRET_PREFIX| && name[..|SECRET_PREFIX|] == SECRET_PREFIX
  {
    var s, n := Placeholder(name) + rest, |SECRET_PREFIX|;
    assert SECRET_OPEN == "{{" + SECRET_PREFIX;
    assert s[2..] == name + ("}}" + rest);
    if MatchAt(s, 0, SECRET_OPEN) {
      assert s[..2 + n] == SECRET_OPEN;
      assert s[2..2 + n] == SECRET_OPEN[2..] == SECRET_PREFIX;
      assert s[2..] == SECRET_PREFIX + s[2 + n..];
      PlainRunOf(SECRET_PREFIX, s[2 + n..]);
      PlainRunOf(name, "}}" + rest);
      assert name[..n] == s[2..][..n];
    }
    if n <= |name| && name[..n] == SECRET_PREFIX {
      assert s[..2 + n] == "{{" + name[..n];
    }
  }

  lemma SecretPlaceholder(m: string)
    requires AllNameChars(m)
    ensures BraceFree(SECRET_PREFIX + m) && SECRET_OPEN + m + "}}" == Placeholder(SECRET_PREFIX + m)
  {
    forall i | 0 <= i < |m| ensures !IsBrace(m[i]) {
      assert IsNameChar(m[i]);
    }
  }

  /** The secret expression finds at a placeholder exactly the secret its name refers to. */
  lemma SecretAtPlaceholder(name: string, rest: string)
    requires BraceFree(name)
    ensures SecretAt(Placeholder(name) + rest) == SecretOf(name)
  {
    var s, n := Placeholder(name) + rest, |SECRET_PREFIX|;
    SecretOpenIsPrefix(name, rest);
    if |name| >= n && name[..n] == SECRET_PREFIX {
      var m := name[n..];
      assert s[|SECRET_OPEN|..] == m + ("}}" + rest);
      var run := NameRun(s[|SECRET_OPEN|..]);
      NameRunIsPrefix(s[|SECRET_OPEN|..]);
      if AllNameChars(m) {
        NameRunExact(m, "}}" + rest);
      }
      SecretPlaceholder(run);
      PlaceholderMatchesItself(name, rest, SECRET_PREFIX + run);
      assert name == SECRET_PREFIX + m;
      assert (SECRET_PREFIX + run)[n..] == run;
    }
  }

  lemma {:induction false} SecretSkips(t: string, rest: string, secrets: map<string, string>)
    requires forall i :: 0 <= i < |t| ==> SecretAt((t + rest)[i..]) == None
    ensures SecretPass(t + rest, secrets).0 == t + SecretPass(rest, secrets).0
    ensures SecretPass(t + rest, secrets).1 == SecretPass(rest, secrets).1
  {
    if t == [] {
      assert t + rest == rest;
    } else {
      var s, tail := t + rest, t[1..];
      assert s[0..] == s && SecretAt(s[0..]) == None;
      assert s[1..] == tail + rest;
      forall i | 0 <= i < |tail| ensures SecretAt((tail + rest)[i..]) == None {
        assert (tail + rest)[i..] == s[i + 1..];
      }
      SecretSkips(tail, rest, secrets);
      PlainStep(s, secrets);
      HeadJoined(t, SecretPass(rest, secrets).0);
    }
  }

  lemma HeadJoined(t: string, rest: string)
    requires t != ""
    ensures [t[0]] + (t[1..] + rest) == t + rest
  {
  }

  lemma PlainStep(s: string, secrets: map<string, string>)
    requires s != "" && SecretAt(s) == None
    ensures SecretPass(s, secrets).0 == [s[0]] + SecretPass(s[1..], secrets).0
    ensures SecretPass(s, secrets).1 == SecretPass(s[1..], secrets).1
  {
  }

  function Revealed(t: Token, secrets: map<string, string>): Token {
    if t.Hole? && SecretOf(t.name).Some? && SecretOf(t.name).value in secrets
    then Lit(secrets[SecretOf(t.name).value]) else t
  }

  function RevealedAll(ts: seq<Token>, secrets: map<string, string>): seq<Token> {
    seq(|ts|, i requires 0 <= i < |ts| => Revealed(ts[i], secrets))
  }

  predicate MissesSecret(t: Token, secrets: map<string, string>) {
    t.Hole? && SecretOf(t.name).Some? && SecretOf(t.name).value !in secrets
  }

  lemma NoSecretWithin(t: Token, rest: string, i: nat)
    requires TokenOk(t) && i < |TokenText(t)| && (t.Hole? ==> i > 0)
    ensures SecretAt((TokenText(t) + rest)[i..]) == None
  {
    var s := TokenText(t) + rest;
    if t.Lit? {
      assert s[i] == t.text[i] && !IsBrace(t.text[i]);
    } else {
      BracesOpenOnce(t.name, rest, i);
    }
    if SecretAt(s[i..]).Some? {
      SecretNeedsBraces(s[i..]);
    }
  }

  lemma RevealToken(t: Token, rest: string, secrets: map<string, string>)
    requires TokenOk(t)
    ensures var (out, missing) := SecretPass(TokenText(t) + rest, secrets);
            && out == TokenText(Revealed(t, secrets)) + SecretPass(rest, secrets).0
            && (missing.Some? <==> MissesSecret(t, secrets) || SecretPass(rest, secrets).1.Some?)
            && (missing.Some? && SecretPass(rest, secrets).1.None? ==> missing.value != "")
            && (SecretPass(rest, secrets).1.Some? ==> missing == SecretPass(rest, secrets).1)
  {
    var text := TokenText(t);
    var s := text + rest;
    if t.Hole? {
      SecretAtPlaceholder(t.name, rest);
    }
    if t.Hole? && SecretOf(t.name).Some? {
      var m := SecretOf(t.name).value;
      assert t.name == SECRET_PREFIX + m;
      assert text == SECRET_OPEN + m + "}}";
      assert s[|SECRET_OPEN| + |m| + 2..] == rest;
    } else {
      forall i | 0 <= i < |text| ensures SecretAt(s[i..]) == None {
        if t.Hole? && i == 0 {
          assert s[0..] == s;
        } else {
          NoSecretWithin(t, rest, i);
        }
      }
      SecretSkips(text, rest, secrets);
    }
  }

  ghost predicate AnyMisses(ts: seq<Token>, secrets: map<string, string>) {
    exists i :: 0 <= i < |ts| && MissesSecret(ts[i], secrets)
  }

  lemma AnyMissesStep(ts: seq<Token>, secrets: map<string, string>)
    requires ts != []
    ensures AnyMisses(ts, secrets) <==> MissesSecret(ts[0], secrets) || AnyMisses(ts[1..], secrets)
  {
    assert ts == [ts[0]] + ts[1..];
  }

  lemma {:induction false} RevealTokens(ts: seq<Token>, secrets: map<string, string>)
    requires WellFormed(ts)
    ensures SecretPass(Flat(ts), secrets).0 == Flat(RevealedAll(ts, secrets))
    ensures SecretPass(Flat(ts), secrets).1.Some? <==> AnyMisses(ts, secrets)
    ensures SecretPass(Flat(ts), secrets).1 != Some("")
  {
    if ts != [] {
      RevealToken(ts[0], Flat(ts[1..]), secrets);
      RevealTokens(ts[1..], secrets);
      AnyMissesStep(ts, secrets);
      assert RevealedAll(ts, secrets)[1..] == RevealedAll(ts[1..], secrets);
    }
  }

  // ---------------------------------------------------------------------------
  // Leftovers
  // ---------------------------------------------------------------------------

  lemma PlainHasNoExpression(s: string)
    requires BraceFree(s)
    ensures !HasExpression(s)
  {
    forall i, j | 0 <= i && i + 2 < j && j + 2 <= |s| ensures !IsExpression(s, i, j) {
      assert s[i..i + 2][0] == s[i];
    }
  }

  lemma {:induction false} FlatWithoutHoles(ts: seq<Token>)
    requires WellFormed(ts) && forall i :: 0 <= i < |ts| ==> ts[i].Lit?
    ensures BraceFree(Flat(ts))
  {
    if ts != [] {
      FlatWithoutHoles(ts[1..]);
    }
  }

  lemma {:induction false} FlatSplits(ts: seq<Token>, j: nat)
    requires j <= |ts|
    ensures Flat(ts) == Flat(ts[..j]) + Flat(ts[j..])
  {
    if j > 0 {
      FlatSplits(ts[1..], j - 1);
      assert ts[1..][j - 1..] == ts[j..] && ts[1..][..j - 1] == ts[..j][1..];
    } else {
      assert ts[..j] == [] && ts[j..] == ts;
    }
  }

  lemma ExpressionWithin(a: string, s: string, b: string)
    requires HasExpression(s)
    ensures HasExpression(a + s + b)
  {
    var i, j :| 0 <= i && i + 2 < j && j + 2 <= |s| && IsExpression(s, i, j);
    var t, k := a + s + b, |a|;
    assert t[k + i..k + i + 2] == s[i..i + 2] && t[k + i + 2..k + j] == s[i + 2..j]
           && t[k + j..k + j + 2] == s[j..j + 2];
    assert IsExpression(t, k + i, k + j);
  }

  lemma PlaceholderIsExpression(name: string)
    requires TokenOk(Hole(name))
    ensures HasExpression(Placeholder(name))
  {
    var p, n := Placeholder(name), |name|;
    assert p[0..2] == "{{" && p[2..2 + n] == name && p[2 + n..2 + n + 2] == "}}";
    assert IsExpression(p, 0, 2 + n);
  }

  lemma FlatWithHole(ts: seq<Token>)
    requires WellFormed(ts) && exists i :: 0 <= i < |ts| && ts[i].Hole?
    ensures HasExpression(Flat(ts))
  {
    var i: nat :| i < |ts| && ts[i].Hole?;
    assert TokenOk(ts[i]);
    FlatAround(ts, i);
    PlaceholderIsExpression(ts[i].name);
    ExpressionWithin(Flat(ts[..i]), TokenText(ts[i]), Flat(ts[i + 1..]));
  }

  lemma FlatAround(ts: seq<Token>, i: nat)
    requires i < |ts|
    ensures Flat(ts) == Flat(ts[..i]) + TokenText(ts[i]) + Flat(ts[i + 1..])
  {
    FlatSplits(ts, i);
    assert ts[i..][1..] == ts[i + 1..];
  }

  // ---------------------------------------------------------------------------
  // The theorem
  // ---------------------------------------------------------------------------

  function Resolved(ts: seq<Token>, keys: seq<string>, vars: map<string, string>,
                    secrets: map<string, string>): seq<Token>
    requires forall i :: 0 <= i < |keys| ==> keys[i] in vars
  {
    RevealedAll(Filled(ts, keys, vars), secrets)
  }

  lemma {:induction false} MeaningIsResolved(ts: seq<Token>, keys: seq<string>, vars: map<string, string>,
                                             secrets: map<string, string>)
    requires Enumerates(keys, vars) && (forall i :: 0 <= i < |keys| ==> keys[i] in vars)
    ensures Meaning(ts, vars, secrets).Some? <==> forall i :: 0 <= i < |ts| ==>
              Resolved(ts, keys, vars, secrets)[i].Lit?
    ensures Meaning(ts, vars, secrets).Some? ==>
              Meaning(ts, vars, secrets).value == Flat(Resolved(ts, keys, vars, secrets))
  {
    if ts != [] {
      MeaningIsResolved(ts[1..], keys, vars, secrets);
      var out := Resolved(ts, keys, vars, secrets);
      assert out[1..] == Resolved(ts[1..], keys, vars, secrets);
      assert out == [out[0]] + out[1..];
      assert ts[0].Hole? ==> (ts[0].name in keys <==> ts[0].name in vars);
    }
  }

  /** For a template of brace-free literals and well-formed placeholders, and brace-free keys and values,
      the sequential passes are one simultaneous substitution, whatever the order of the keys, and they
      fail exactly when a placeholder is unknown. */
  lemma RenderIsSimultaneous(ts: seq<Token>, keys: seq<string>, vars: map<string, string>, secrets: map<string, string>)
    requires WellFormed(ts) && BraceFreeKeys(vars) && BraceFreeValues(vars) && BraceFreeValues(secrets)
    requires Enumerates(keys, vars) && (forall i :: 0 <= i < |keys| ==> keys[i] in vars)
    ensures match RenderIn(keys, Flat(ts), vars, secrets)
            case Ok(text) => Meaning(ts, vars, secrets) == Some(text)
            case Err(_) => Meaning(ts, vars, secrets) == None
  {
    var filled := Filled(ts, keys, vars);
    var out := Resolved(ts, keys, vars, secrets);
    PassesFill(ts, keys, vars);
    RevealTokens(filled, secrets);
    MeaningIsResolved(ts, keys, vars, secrets);
    assert WellFormed(out) by {
      forall i | 0 <= i < |out| ensures TokenOk(out[i]) {
        assert TokenOk(filled[i]);
      }
    }
    if forall i :: 0 <= i < |out| ==> out[i].Lit? {
      FlatWithoutHoles(out);
      PlainHasNoExpression(Flat(out));
      assert forall i :: 0 <= i < |filled| && MissesSecret(filled[i], secrets) ==> out[i].Hole?;
    } else {
      FlatWithHole(out);
    }
  }
}

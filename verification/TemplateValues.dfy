/** Exactly which values make every template render as it should (internal/provider/provider.go:224-251), whatever
    braces they contain. What matters is how far a value can bring a scanner that looks for expressions. */
module TemplateValues {
  import opened Model
  import opened SortedStrings
  import opened Template
  import opened TemplateExact

  // ---------------------------------------------------------------------------
  // A scanner for expressions
  // ---------------------------------------------------------------------------

  /** What has been read of an expression: nothing, one brace, the opening, some of the name, the first closing
      brace, or all of it. */
  datatype Progress = Nothing | Brace | Opened | Named | Closing | Found

  function Next(q: Progress, c: char): Progress {
    match q
    case Nothing => if c == '{' then Brace else Nothing
    case Brace => if c == '{' then Opened else Nothing
    case Opened => if c == '{' then Opened else if c == '}' then Nothing else Named
    case Named => if c == '{' then Brace else if c == '}' then Closing else Named
    case Closing => if c == '{' then Brace else if c == '}' then Found else Nothing
    case Found => Found
  }

  function Scan(q: Progress, s: string): Progress {
    if s == [] then q else Next(Scan(q, s[..|s| - 1]), s[|s| - 1])
  }

  lemma {:induction false} ScanJoined(q: Progress, a: string, b: string)
    ensures Scan(q, a + b) == Scan(Scan(q, a), b)
  {
    if b == [] {
      assert a + b == a;
    } else {
      ScanJoined(q, a, b[..|b| - 1]);
      assert (a + b)[..|a + b| - 1] == a + b[..|b| - 1];
    }
  }

  // --- what the scanner knows about the text it has read -----------------------

  predicate EndsInBrace(s: string) {
    s != [] && s[|s| - 1] == '{'
  }

  predicate EndsOpened(s: string) {
    |s| >= 2 && s[|s| - 2] == '{' && s[|s| - 1] == '{'
  }

  /** The text ends in an opening and a name begun after it. */
  predicate EndsNamed(s: string) {
    exists i :: 0 <= i && i + 2 < |s| && OpensAt(s, i) && BraceFree(s[i + 2..])
  }

  predicate OpensAt(s: string, i: nat) {
    i + 2 <= |s| && s[i] == '{' && s[i + 1] == '{'
  }

  predicate EndsClosing(s: string) {
    s != [] && s[|s| - 1] == '}' && EndsNamed(s[..|s| - 1])
  }

  lemma NamedLonger(s: string, c: char)
    ensures EndsNamed(s + [c]) <==> !IsBrace(c) && (EndsNamed(s) || EndsOpened(s))
  {
    var t := s + [c];
    if EndsNamed(t) {
      var i :| 0 <= i && i + 2 < |t| && OpensAt(t, i) && BraceFree(t[i + 2..]);
      assert t[i + 2..][|t| - i - 3] == c;
      if i + 2 < |s| {
        var longer, shorter := t[i + 2..], s[i + 2..];
        assert longer == shorter + [c];
        assert forall k :: 0 <= k < |shorter| ==> longer[k] == shorter[k];
        assert OpensAt(s, i);
      }
    }
    if !IsBrace(c) && EndsOpened(s) {
      var i := |s| - 2;
      assert OpensAt(t, i) && t[i + 2..] == [c];
    }
    if !IsBrace(c) && EndsNamed(s) {
      var i :| 0 <= i && i + 2 < |s| && OpensAt(s, i) && BraceFree(s[i + 2..]);
      assert OpensAt(t, i) && t[i + 2..] == s[i + 2..] + [c];
    }
  }

  lemma ExpressionLonger(s: string, c: char)
    ensures HasExpression(s + [c]) <==> HasExpression(s) || (c == '}' && EndsClosing(s))
  {
    var t := s + [c];
    if HasExpression(s) {
      ExpressionWithin([], s, [c]);
      assert [] + s + [c] == t;
    }
    if c == '}' && EndsClosing(s) {
      ClosedIsExpression(s);
    }
    if HasExpression(t) && !HasExpression(s) {
      LastExpressionCloses(s, c);
    }
  }

  lemma ClosedIsExpression(s: string)
    requires EndsClosing(s)
    ensures HasExpression(s + ['}'])
  {
    var t, init := s + ['}'], s[..|s| - 1];
    var i :| 0 <= i && i + 2 < |init| && OpensAt(init, i) && BraceFree(init[i + 2..]);
    var j := |init|;
    assert t[i..i + 2] == [t[i], t[i + 1]] && t[i + 2..j] == init[i + 2..] && t[j..j + 2] == [t[j], t[j + 1]];
    assert IsExpression(t, i, j);
  }

  lemma LastExpressionCloses(s: string, c: char)
    requires HasExpression(s + [c]) && !HasExpression(s)
    ensures c == '}' && EndsClosing(s)
  {
    var t := s + [c];
    var i, j :| 0 <= i && i + 2 < j && j + 2 <= |t| && IsExpression(t, i, j);
    if j + 2 <= |s| {
      assert t[i..i + 2] == s[i..i + 2] && t[i + 2..j] == s[i + 2..j] && t[j..j + 2] == s[j..j + 2];
      assert IsExpression(s, i, j);
    } else {
      var init := s[..|s| - 1];
      assert t[j..j + 2] == [t[j], t[j + 1]] && t[i..i + 2] == [t[i], t[i + 1]];
      assert OpensAt(init, i) && init[i + 2..] == t[i + 2..j];
    }
  }

  /** The scanner has found an expression if and only if the text contains one. */
  lemma {:induction false} ScanFinds(s: string)
    ensures var q := Scan(Nothing, s);
            && (q == Found <==> HasExpression(s))
            && (q != Found ==> (q == Brace || q == Opened <==> EndsInBrace(s)) && (q == Opened <==> EndsOpened(s)))
            && (q != Found ==> (q == Named <==> EndsNamed(s)) && (q == Closing <==> EndsClosing(s)))
  {
    if s != [] {
      var init, c := s[..|s| - 1], s[|s| - 1];
      assert s == init + [c];
      ScanFinds(init);
      NamedLonger(init, c);
      ExpressionLonger(init, c);
    }
  }

  // ---------------------------------------------------------------------------
  // The condition
  // ---------------------------------------------------------------------------

  /** Within `safe` the scanner stays, whatever brace-free text or value comes next. */
  ghost predicate Closed(safe: set<Progress>, vars: map<string, string>, secrets: map<string, string>) {
    && Nothing in safe && Found !in safe
    && (forall q, c :: q in safe && !IsBrace(c) ==> Next(q, c) in safe)
    && (forall q, name, value :: q in safe && Reaches(vars, secrets, name, value) ==> Scan(q, value) in safe)
  }

  lemma {:induction false} PlainStays(safe: set<Progress>, vars: map<string, string>, secrets: map<string, string>,
                                      q: Progress, text: string)
    requires Closed(safe, vars, secrets) && q in safe && BraceFree(text)
    ensures Scan(q, text) in safe
  {
    if text != [] {
      PlainStays(safe, vars, secrets, q, text[..|text| - 1]);
      assert !IsBrace(text[|text| - 1]);
    }
  }

  lemma {:induction false} MeaningStays(safe: set<Progress>, vars: map<string, string>, secrets: map<string, string>,
                                        q: Progress, ts: seq<Token>)
    requires Closed(safe, vars, secrets) && q in safe && WellFormed(ts) && Meaning(ts, vars, secrets).Some?
    ensures Scan(q, Meaning(ts, vars, secrets).value) in safe
    decreases ts
  {
    if ts != [] {
      var head := if ts[0].Lit? then ts[0].text else Lookup(ts[0].name, vars, secrets).value;
      if ts[0].Lit? {
        PlainStays(safe, vars, secrets, q, head);
      } else {
        assert Reaches(vars, secrets, ts[0].name, head);
      }
      MeaningStays(safe, vars, secrets, Scan(q, head), ts[1..]);
      ScanJoined(q, head, Meaning(ts[1..], vars, secrets).value);
    }
  }

  /** Some template's meaning brings the scanner to `q`. */
  ghost predicate Attained(vars: map<string, string>, secrets: map<string, string>, q: Progress) {
    exists ts :: WellFormed(ts) && Meaning(ts, vars, secrets).Some?
      && Scan(Nothing, Meaning(ts, vars, secrets).value) == q
  }

  ghost function IfAttained(vars: map<string, string>, secrets: map<string, string>, q: Progress): set<Progress> {
    if Attained(vars, secrets, q) then {q} else {}
  }

  ghost function AttainedSet(vars: map<string, string>, secrets: map<string, string>): (r: set<Progress>)
    ensures forall q :: q in r <==> Attained(vars, secrets, q)
  {
    var r := IfAttained(vars, secrets, Nothing) + IfAttained(vars, secrets, Brace) + IfAttained(vars, secrets, Opened)
             + IfAttained(vars, secrets, Named) + IfAttained(vars, secrets, Closing) + IfAttained(vars, secrets, Found);
    assert forall q: Progress :: q.Nothing? || q.Brace? || q.Opened? || q.Named? || q.Closing? || q.Found?;
    r
  }

  lemma {:induction false} MeaningLonger(ts: seq<Token>, t: Token, vars: map<string, string>,
                                         secrets: map<string, string>, text: string)
    requires Meaning(ts, vars, secrets).Some? && Meaning([t], vars, secrets) == Some(text)
    ensures Meaning(ts + [t], vars, secrets) == Some(Meaning(ts, vars, secrets).value + text)
  {
    if ts == [] {
      assert ts + [t] == [t] && [] + text == text;
    } else {
      assert (ts + [t])[1..] == ts[1..] + [t];
      MeaningLonger(ts[1..], t, vars, secrets, text);
      var head := if ts[0].Lit? then ts[0].text else Lookup(ts[0].name, vars, secrets).value;
      var tail := Meaning(ts[1..], vars, secrets).value;
      assert head + (tail + text) == head + tail + text;
    }
  }

  lemma AttainedLonger(vars: map<string, string>, secrets: map<string, string>, q: Progress, t: Token, text: string)
    requires Attained(vars, secrets, q) && TokenOk(t) && Meaning([t], vars, secrets) == Some(text)
    ensures Attained(vars, secrets, Scan(q, text))
  {
    var ts :| WellFormed(ts) && Meaning(ts, vars, secrets).Some?
      && Scan(Nothing, Meaning(ts, vars, secrets).value) == q;
    MeaningLonger(ts, t, vars, secrets, text);
    ScanJoined(Nothing, Meaning(ts, vars, secrets).value, text);
    assert WellFormed(ts + [t]);
  }

  lemma LiteralMeaning(text: string, vars: map<string, string>, secrets: map<string, string>)
    ensures Meaning([Lit(text)], vars, secrets) == Some(text)
  {
    var ts := [Lit(text)];
    assert ts[1..] == [] && text + [] == text;
  }

  lemma AttainedIsClosed(vars: map<string, string>, secrets: map<string, string>)
    requires !Attained(vars, secrets, Found)
    ensures Closed(AttainedSet(vars, secrets), vars, secrets)
  {
    var safe := AttainedSet(vars, secrets);
    assert Attained(vars, secrets, Nothing) by {
      var none: seq<Token> := [];
      assert WellFormed(none) && Meaning(none, vars, secrets) == Some([]);
    }
    forall q, c | q in safe && !IsBrace(c) ensures Next(q, c) in safe {
      LiteralMeaning([c], vars, secrets);
      AttainedLonger(vars, secrets, q, Lit([c]), [c]);
      assert [c][..0] == [] && Scan(q, [c]) == Next(q, c);
    }
    forall q, name, value | q in safe && Reaches(vars, secrets, name, value) ensures Scan(q, value) in safe {
      SingleMeaning(name, vars, secrets);
      AttainedLonger(vars, secrets, q, Hole(name), value);
    }
  }

  /** For any values at all: every template renders as it should if and only if there is a set of scanner
      positions, short of a complete expression, which no value and no brace-free text leaves. With six
      positions this is a finite check on the values. */
  lemma AllTemplatesAgreeIff(keys: seq<string>, vars: map<string, string>, secrets: map<string, string>)
    requires BraceFreeKeys(vars) && "" !in vars
    requires Enumerates(keys, vars) && (forall i :: 0 <= i < |keys| ==> keys[i] in vars)
    ensures (forall ts :: WellFormed(ts) ==> Agrees(ts, keys, vars, secrets)) <==>
              exists safe :: Closed(safe, vars, secrets)
  {
    if safe :| Closed(safe, vars, secrets) {
      forall ts | WellFormed(ts) ensures Agrees(ts, keys, vars, secrets) {
        AgreesIff(ts, keys, vars, secrets);
        if Meaning(ts, vars, secrets).Some? {
          MeaningStays(safe, vars, secrets, Nothing, ts);
          ScanFinds(Meaning(ts, vars, secrets).value);
        }
      }
    }
    if forall ts :: WellFormed(ts) ==> Agrees(ts, keys, vars, secrets) {
      if Attained(vars, secrets, Found) {
        var ts :| WellFormed(ts) && Meaning(ts, vars, secrets).Some?
                  && Scan(Nothing, Meaning(ts, vars, secrets).value) == Found;
        ScanFinds(Meaning(ts, vars, secrets).value);
        AgreesIff(ts, keys, vars, secrets);
      }
      AttainedIsClosed(vars, secrets);
    }
  }

  // ---------------------------------------------------------------------------
  // Two consequences
  // ---------------------------------------------------------------------------

  predicate Without(s: string, c: char) {
    forall i :: 0 <= i < |s| ==> s[i] != c
  }

  lemma {:induction false} NeverOpens(s: string)
    requires Without(s, '{')
    ensures Scan(Nothing, s) == Nothing
  {
    if s != [] {
      NeverOpens(s[..|s| - 1]);
    }
  }

  lemma {:induction false} NeverCloses(q: Progress, s: string)
    requires Without(s, '}') && q != Closing && q != Found
    ensures Scan(q, s) != Closing && Scan(q, s) != Found
  {
    if s != [] {
      NeverCloses(q, s[..|s| - 1]);
    }
  }

  /** Values that contain no opening brace are enough, and so are values that contain no closing brace. */
  lemma OneKindOfBraceAgrees(keys: seq<string>, vars: map<string, string>, secrets: map<string, string>, c: char)
    requires BraceFreeKeys(vars) && "" !in vars
    requires Enumerates(keys, vars) && (forall i :: 0 <= i < |keys| ==> keys[i] in vars)
    requires IsBrace(c) && forall name, value :: Reaches(vars, secrets, name, value) ==> Without(value, c)
    ensures forall ts :: WellFormed(ts) ==> Agrees(ts, keys, vars, secrets)
  {
    var safe := if c == '{' then {Nothing} else {Nothing, Brace, Opened, Named};
    forall q, name, value | q in safe && Reaches(vars, secrets, name, value) ensures Scan(q, value) in safe {
      if c == '{' {
        NeverOpens(value);
      } else {
        NeverCloses(q, value);
      }
    }
    assert Closed(safe, vars, secrets);
    AllTemplatesAgreeIff(keys, vars, secrets);
  }
}

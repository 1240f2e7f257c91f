/** What interpolation does to each kind of text (deploycheck/parse.go), written out for the operators of Compose.
    Together the rules fix the result for every text. */
module InterpolateRules {
  import opened Wrappers
  import opened I = Interpolate
  import opened Strings

  predicate Letter(c: char) { 'A' <= c <= 'Z' || 'a' <= c <= 'z' || c == '_' }

  /** A variable's name. */
  predicate IsName(n: string) {
    n != "" && Letter(n[0]) && forall i :: 0 <= i < |n| ==> Letter(n[i]) || '0' <= n[i] <= '9'
  }

  /** No text that follows a name could make it longer. */
  predicate EndsName(r: string) { r == "" || !(Letter(r[0]) || '0' <= r[0] <= '9') }

  ghost predicate NoNul(env: Env) { forall k :: k in env ==> '\0' !in env[k] }

  /** A reference in braces, with an operator and its text or with neither. */
  predicate Operator(op: string, t: string) { op in {":-", "-", ":+", "+", ":?", "?"} || (op == "" && t == "") }

  function Braced(n: string, op: string, t: string): string { "{" + n + op + t + "}" }

  /** The text begins with such a reference, without its dollar. */
  predicate IsBraced(s: string, n: string, op: string, t: string, rest: string) {
    IsName(n) && Operator(op, t) && '}' !in t && s == Braced(n, op, t) + rest
  }

  // ---------------------------------------------------------------- parsing

  lemma NameIs(n: string, r: string)
    requires IsName(n) && EndsName(r)
    ensures NameLen(n + r) == |n| && (n + r)[..|n|] == n && (n + r)[|n|..] == r && (n + r)[0] == n[0]
  {
    NameLenIs(n, r);
  }

  lemma OpIs(op: string, v: string)
    requires op in {":-", "-", ":+", "+", ":?", "?"} || (op == "" && v != "" && v[0] == '}')
    ensures OpAt(op + v) == op && (op + v)[|op|..] == v
  {
    var u := op + v;
    assert op != "" ==> u[0] == op[0];
    assert |op| == 2 ==> u[1] == op[1];
    assert op == "" ==> u == v;
  }

  lemma ClosedIs(n: string, op: string, t: string, r: string)
    requires Operator(op, t) && '}' !in t
    ensures MatchClosed(n, op + (t + ("}" + r))) == Some(Ref(n, op, t, r))
  {
    hide OpAt;
    var v := t + ("}" + r);
    if op == "" {
      assert v == "}" + r;
    }
    OpIs(op, v);
    BraceIs(t, "}" + r);
    assert v[..|t|] == t && v[|t|] == '}' && v[|t| + 1..] == r;
  }

  lemma BracedMatches(n: string, op: string, t: string, r: string)
    requires IsName(n) && Operator(op, t) && '}' !in t
    ensures Match("$" + Braced(n, op, t) + r) == Some(Ref(n, op, t, r))
  {
    hide MatchClosed;
    var s, u := "$" + Braced(n, op, t) + r, op + (t + ("}" + r));
    assert s[2..] == n + u && s[1] == '{';
    assert EndsName(u) by { assert u[0] == (if op == "" then '}' else op[0]); }
    NameIs(n, u);
    ClosedIs(n, op, t, r);
  }

  lemma PlainMatches(n: string, r: string)
    requires IsName(n) && EndsName(r)
    ensures Match("$" + n + r) == Some(Ref(n, "", "", r))
  {
    assert ("$" + n + r)[1..] == n + r;
    NameIs(n, r);
  }

  /** Whatever matches is one of the two kinds of references. */
  lemma MatchIs(s: string)
    requires s != "" && s[0] == '$' && Match(s).Some?
    ensures var m := Match(s).value;
            || IsBraced(s[1..], m.name, m.op, m.text, m.rest)
            || (IsName(m.name) && m.op == "" && m.text == "" && s[1..] == m.name + m.rest && EndsName(m.rest) && Letter(s[1]))
  {
    hide MatchBraced, IsBraced, IsName, EndsName;
    if s[1] == '{' {
      BracedParts(s[2..]);
      assert s[1..] == "{" + s[2..];
    } else {
      NameParts(s[1..]);
    }
  }

  lemma BracedParts(t: string)
    requires MatchBraced(t).Some?
    ensures var m := MatchBraced(t).value; IsBraced("{" + t, m.name, m.op, m.text, m.rest)
  {
    hide MatchClosed, IsName, EndsName, Operator;
    var n := NameLen(t);
    NameParts(t);
    ClosedParts(t[..n], t[n..]);
    var m := MatchBraced(t).value;
    Regroup(m.name, m.op, m.text, m.rest);
  }

  lemma Regroup(n: string, op: string, t: string, rest: string)
    ensures "{" + (n + (op + (t + ("}" + rest)))) == Braced(n, op, t) + rest
  {
  }

  lemma ClosedParts(n: string, u: string)
    requires MatchClosed(n, u).Some?
    ensures var m := MatchClosed(n, u).value;
            m.name == n && Operator(m.op, m.text) && '}' !in m.text && u == m.op + (m.text + ("}" + m.rest))
  {
    var m := MatchClosed(n, u).value;
    var v := u[|m.op|..];
    assert u == m.op + v;
    assert v == m.text + ("}" + m.rest);
    OpKinds(u);
  }

  lemma OpKinds(u: string)
    ensures OpAt(u) in {":-", "-", ":+", "+", ":?", "?", ""}
  {
  }

  lemma NameParts(t: string)
    ensures var n := NameLen(t);
            t == t[..n] + t[n..] && EndsName(t[n..]) && (n > 0 && NameStart(t[0]) ==> IsName(t[..n]))
  {
    NameLenPrefix(t);
  }

  // ---------------------------------------------------------------- operator texts

  lemma {:induction false} UnescapeDoubled(t: string)
    ensures Unescape(Doubled(t)) == t
    ensures '}' !in t ==> '}' !in Doubled(t)
    ensures '$' !in t ==> Doubled(t) == t
  {
    if t != "" {
      UnescapeDoubled(t[1..]);
      var d := Doubled(t);
      if t[0] == '$' {
        assert d[2..] == Doubled(t[1..]);
      } else {
        assert d[1..] == Doubled(t[1..]);
      }
      assert '}' !in t ==> '}' !in t[1..];
      assert '$' !in t ==> '$' !in t[1..] && [t[0]] + t[1..] == t;
    }
  }

  lemma ShowBoth(v: string, r: string, env: Env)
    requires '\0' !in v
    ensures Show(v + Scan(r, env)) == v + Interpolate(r, env)
  {
    ShowAppend(v, Scan(r, env));
    ShowPlain(v);
    InterpolateIsScan(r, env);
  }

  /** A matched reference is replaced by its value, and interpolation goes on behind it. */
  lemma Replaced(s: string, r: Ref, env: Env)
    requires s != "" && !(|s| > 1 && s[1] == '$') && s[0] == '$' && Match(s) == Some(r) && NoNul(env)
    requires '\0' !in Unescape(r.text)
    ensures Interpolate(s, env) == Value(env, r.name, r.op, Unescape(r.text)) + Interpolate(r.rest, env)
  {
    InterpolateIsScan(s, env);
    ValueNulFree(env, r.name, r.op, Unescape(r.text));
    ShowBoth(Value(env, r.name, r.op, Unescape(r.text)), r.rest, env);
  }

  lemma BracedReplaced(n: string, op: string, t: string, r: string, env: Env)
    requires IsName(n) && '}' !in t && '\0' !in t && op in {":-", "-", ":+", "+", ":?", "?"} && NoNul(env)
    ensures Interpolate("$" + Braced(n, op, Doubled(t)) + r, env) == Value(env, n, op, t) + Interpolate(r, env)
  {
    var s := "$" + Braced(n, op, Doubled(t)) + r;
    UnescapeDoubled(t);
    BracedMatches(n, op, Doubled(t), r);
    assert s[1] == '{';
    Replaced(s, Ref(n, op, Doubled(t), r), env);
  }

  // ---------------------------------------------------------------- the rules

  /** The operators, with a text whose dollar signs are doubled: `:-` and `-` put the text in place of an empty or
      missing, or only of a missing variable; `:+` and `+` put it in place of one that has a value, or is set; `:?`
      and `?` are the plain value. */
  lemma OperatorRules(n: string, t: string, r: string, env: Env)
    requires IsName(n) && '}' !in t && '\0' !in t && NoNul(env)
    ensures var d, rest := Doubled(t), Interpolate(r, env);
            && Interpolate("${" + n + ":-" + d + "}" + r, env) == (if n in env && env[n] != "" then env[n] else t) + rest
            && Interpolate("${" + n + "-" + d + "}" + r, env) == (if n in env then env[n] else t) + rest
            && Interpolate("${" + n + ":+" + d + "}" + r, env) == (if n in env && env[n] != "" then t else "") + rest
            && Interpolate("${" + n + "+" + d + "}" + r, env) == (if n in env then t else "") + rest
            && Interpolate("${" + n + ":?" + d + "}" + r, env) == (if n in env then env[n] else "") + rest
            && Interpolate("${" + n + "?" + d + "}" + r, env) == (if n in env then env[n] else "") + rest
    ensures '$' !in t ==> Doubled(t) == t
  {
    hide Interpolate, Doubled;
    UnescapeDoubled(t);
    BracedIs(n, ":-", t, r, env);
    BracedIs(n, "-", t, r, env);
    BracedIs(n, ":+", t, r, env);
    BracedIs(n, "+", t, r, env);
    BracedIs(n, ":?", t, r, env);
    BracedIs(n, "?", t, r, env);
  }

  lemma BracedText(n: string, op: string, t: string, r: string)
    ensures "$" + Braced(n, op, t) + r == "${" + n + op + t + "}" + r
  {
  }

  lemma BracedIs(n: string, op: string, t: string, r: string, env: Env)
    requires IsName(n) && '}' !in t && '\0' !in t && op in {":-", "-", ":+", "+", ":?", "?"} && NoNul(env)
    ensures Interpolate("${" + n + op + Doubled(t) + "}" + r, env) == Value(env, n, op, t) + Interpolate(r, env)
  {
    BracedReplaced(n, op, t, r, env);
    BracedText(n, op, Doubled(t), r);
  }

  /** A name in braces, or one that no further name character follows, is its value, "" if it is not set. */
  lemma NameRules(n: string, r: string, env: Env)
    requires IsName(n) && NoNul(env)
    ensures var v := if n in env then env[n] else "";
            && Interpolate("${" + n + "}" + r, env) == v + Interpolate(r, env)
            && (EndsName(r) ==> Interpolate("$" + n + r, env) == v + Interpolate(r, env))
  {
    hide Interpolate;
    var s := "$" + Braced(n, "", "") + r;
    BracedMatches(n, "", "", r);
    assert s[1] == '{' && s == "${" + n + "}" + r;
    Replaced(s, Ref(n, "", "", r), env);
    if EndsName(r) {
      PlainMatches(n, r);
      assert ("$" + n + r)[1] == n[0];
      Replaced("$" + n + r, Ref(n, "", "", r), env);
    }
  }

  /** A doubled dollar is a dollar, and a character other than a dollar or NUL is itself. */
  lemma CharRules(c: char, r: string, env: Env)
    requires c != '$' && c != '\0'
    ensures Interpolate("$$" + r, env) == "$" + Interpolate(r, env)
    ensures Interpolate([c] + r, env) == [c] + Interpolate(r, env)
  {
    hide Interpolate;
    InterpolateIsScan("$$" + r, env);
    assert ("$$" + r)[2..] == r;
    ShowBoth("$", r, env);
    InterpolateIsScan([c] + r, env);
    assert ([c] + r)[1..] == r;
    ShowBoth([c], r, env);
  }

  /** A dollar that starts neither a doubled one nor a reference stays. */
  lemma DollarRule(r: string, env: Env)
    requires r == "" || (r[0] != '$' && !Letter(r[0]))
    requires forall n, op, t, rest :: !IsBraced(r, n, op, t, rest)
    ensures Interpolate("$" + r, env) == "$" + Interpolate(r, env)
  {
    hide Interpolate;
    var s := "$" + r;
    assert s[1..] == r;
    NoMatch(r);
    InterpolateIsScan(s, env);
    ShowBoth("$", r, env);
  }

  lemma NoMatch(r: string)
    requires r == "" || (r[0] != '$' && !Letter(r[0]))
    requires forall n, op, t, rest :: !IsBraced(r, n, op, t, rest)
    ensures Match("$" + r).None?
  {
    hide Match, IsBraced, IsName;
    var s := "$" + r;
    assert s[1..] == r && s[0] == '$' && (r != "" ==> s[1] == r[0]);
    ShortMatches(s);
    if Match(s).Some? {
      MatchIs(s);
    }
  }

  lemma ShortMatches(s: string)
    ensures Match(s).Some? ==> |s| >= 2
  {
  }
}

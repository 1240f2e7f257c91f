/** Compose-style variable interpolation (deploycheck/parse.go).

    The code makes three passes over the text: hide `$$` behind a NUL, rewrite every match of a
    regular expression, turn the NULs into `$`. The reference it is proved against is one
    left-to-right scanner, which looks at every character of the text once and never looks at a
    substituted value again. */
module Interpolate {
  import opened Wrappers
  import opened Strings

  type Env = map<string, string>

  const ESC: string := "\0"

  predicate NameStart(c: char) { 'A' <= c <= 'Z' || 'a' <= c <= 'z' || c == '_' }
  predicate NameChar(c: char) { NameStart(c) || '0' <= c <= '9' }

  /** A variable reference at the head of a text, and the text behind it. `op` is "" when there is
      neither an operator nor an operator text. */
  datatype Ref = Ref(name: string, op: string, text: string, rest: string)

  /** The longest prefix of s that the class [A-Za-z0-9_] accepts, as a length. */
  function NameLen(s: string): (n: nat)
    ensures n <= |s|
  {
    if s != "" && NameChar(s[0]) then 1 + NameLen(s[1..]) else 0
  }

  /** Where the first `}` is, or |s|. */
  function BraceAt(s: string): (n: nat)
    ensures n <= |s|
    ensures n < |s| ==> s[n] == '}'
    ensures '}' !in s[..n]
  {
    if s == "" || s[0] == '}' then 0 else 1 + BraceAt(s[1..])
  }

  /** The operator `:?[-?+]` at the head of s, "" if there is none. */
  function OpAt(s: string): (op: string)
    ensures op <= s && '$' !in op
  {
    if s != "" && s[0] in "-?+" then [s[0]]
    else if |s| > 1 && s[0] == ':' && s[1] in "-?+" then [':', s[1]]
    else ""
  }

  /** What `(?:(OP)([^}]*))?\}` matches at the head of u, the text behind `${NAME`. */
  function MatchClosed(name: string, u: string): (r: Option<Ref>)
    ensures r.Some? ==> |r.value.rest| < |u|
  {
    var op := OpAt(u);
    var v := u[|op|..];
    var b := if op == "" then 0 else BraceAt(v);
    if b < |v| && v[b] == '}' then Some(Ref(name, op, v[..b], v[b + 1..])) else None
  }

  /** What `NAME(?:(OP)([^}]*))?\}` matches at the head of t, the text behind `${`. */
  function MatchBraced(t: string): (r: Option<Ref>)
    ensures r.Some? ==> |r.value.rest| < |t|
  {
    var n := NameLen(t);
    if n == 0 || !NameStart(t[0]) then None else MatchClosed(t[..n], t[n..])
  }

  /** What `\$(?:\{NAME(?:(OP)([^}]*))?\}|NAME)` matches at the head of s, if it matches there. */
  function Match(s: string): (r: Option<Ref>)
    ensures r.Some? ==> |r.value.rest| < |s|
  {
    if |s| < 2 || s[0] != '$' then None
    else if s[1] == '{' then MatchBraced(s[2..])
    else if NameStart(s[1]) then
      var n := NameLen(s[1..]);
      Some(Ref(s[1..][..n], "", "", s[1..][n..]))
    else None
  }

  function Lookup(env: Env, name: string): string {
    if name in env then env[name] else ""
  }

  /** The value a reference stands for; `text` is the operator text as it is to be used. */
  function Value(env: Env, name: string, op: string, text: string): string {
    var v := Lookup(env, name);
    if op == ":-" then (if v == "" then text else v)
    else if op == "-" then (if name !in env then text else v)
    else if op == ":+" then (if v != "" then text else "")
    else if op == "+" then (if name in env then text else "")
    else v
  }

  /** varRe.ReplaceAllStringFunc: every leftmost match is replaced, the results are not rescanned. */
  function Rewrite(s: string, env: Env): string
    decreases |s|
  {
    if s == "" then ""
    else match Match(s)
      case Some(r) => Value(env, r.name, r.op, r.text) + Rewrite(r.rest, env)
      case None => [s[0]] + Rewrite(s[1..], env)
  }

  /** The three passes. */
  function Interpolate(s: string, env: Env): string {
    ReplaceAll(Rewrite(ReplaceAll(s, "$$", ESC), env), ESC, "$")
  }

  // ---------------------------------------------------------------- the reference

  /** `$$` stands for `$` inside an operator text. */
  function Unescape(s: string): string
    decreases |s|
  {
    if s == "" then ""
    else if |s| > 1 && s[0] == '$' && s[1] == '$' then "$" + Unescape(s[2..])
    else [s[0]] + Unescape(s[1..])
  }

  /** One pass from left to right: `$$` is a dollar, a reference is its value, all else is itself. */
  function Scan(s: string, env: Env): string
    decreases |s|
  {
    if s == "" then ""
    else if |s| > 1 && s[0] == '$' && s[1] == '$' then "$" + Scan(s[2..], env)
    else match Match(s)
      case Some(r) => Value(env, r.name, r.op, Unescape(r.text)) + Scan(r.rest, env)
      case None => [s[0]] + Scan(s[1..], env)
  }

  // ---------------------------------------------------------------- hiding `$$` is a morphism

  function Hide(s: string): string { ReplaceAll(s, "$$", ESC) }
  function Show(s: string): string { ReplaceAll(s, ESC, "$") }

  lemma HideCases(s: string)
    requires s != ""
    ensures |s| > 1 && s[0] == '$' && s[1] == '$' ==> Hide(s) == ESC + Hide(s[2..])
    ensures !(|s| > 1 && s[0] == '$' && s[1] == '$') ==> Hide(s) == [s[0]] + Hide(s[1..])
  {
    if |s| > 1 && s[0] == '$' && s[1] == '$' {
      assert s[..2] == "$$";
    }
  }

  lemma {:induction false} ShowAppend(a: string, b: string)
    ensures Show(a + b) == Show(a) + Show(b)
  {
    if a == "" {
      assert a + b == b;
    } else {
      ShowAppend(a[1..], b);
      assert (a + b)[1..] == a[1..] + b;
      if a[0] == '\0' {
        assert a[..1] == ESC && (a + b)[..1] == ESC;
      } else {
        assert !(ESC <= a) && !(ESC <= a + b);
      }
    }
  }

  lemma {:induction false} ShowPlain(s: string)
    ensures '\0' !in Show(s)
    ensures '\0' !in s <==> Show(s) == s
  {
    if s != "" {
      ShowPlain(s[1..]);
      if s[0] == '\0' {
        assert s[..1] == ESC;
        assert Show(s)[0] == '$';
      } else {
        assert !(ESC <= s);
        assert Show(s)[1..] == Show(s[1..]);
      }
    }
  }

  /** A character other than `$` cuts the text in two that are hidden on their own. */
  lemma {:induction false} HideSplit(a: string, c: char, b: string)
    requires c != '$'
    ensures Hide(a + [c] + b) == Hide(a) + [c] + Hide(b)
    decreases |a|
  {
    var s := a + [c] + b;
    HideCases(s);
    if a == "" {
      assert s[1..] == b;
    } else if |a| > 1 && a[0] == '$' && a[1] == '$' {
      HideCases(a);
      HideSplit(a[2..], c, b);
      assert s[2..] == a[2..] + [c] + b;
    } else {
      HideCases(a);
      HideSplit(a[1..], c, b);
      assert s[1..] == a[1..] + [c] + b;
    }
  }

  /** A text without `$` in front is left alone. */
  lemma {:induction false} HidePrefix(p: string, s: string)
    requires '$' !in p
    ensures Hide(p + s) == p + Hide(s)
  {
    hide Hide;
    if p == "" {
      assert p + s == s;
    } else {
      HideCases(p + s);
      assert (p + s)[1..] == p[1..] + s;
      HidePrefix(p[1..], s);
      assert [p[0]] + (p[1..] + Hide(s)) == p + Hide(s);
    }
  }

  lemma {:induction false} HideFirst(s: string)
    ensures Hide(s) == "" <==> s == ""
    ensures s != "" && s[0] != '$' ==> Hide(s) != "" && Hide(s)[0] == s[0]
    ensures s != "" && s[0] == '$' ==> Hide(s)[0] in "$\0"
  {
    if s != "" {
      HideCases(s);
    }
  }

  lemma {:induction false} NameLenPrefix(s: string)
    ensures forall i :: 0 <= i < NameLen(s) ==> NameChar(s[i])
    ensures NameLen(s) < |s| ==> !NameChar(s[NameLen(s)])
  {
    if s != "" && NameChar(s[0]) {
      NameLenPrefix(s[1..]);
    }
  }

  lemma {:induction false} NameLenIs(p: string, s: string)
    requires forall i :: 0 <= i < |p| ==> NameChar(p[i])
    requires s == "" || !NameChar(s[0])
    ensures NameLen(p + s) == |p|
  {
    if p == "" {
      assert p + s == s;
    } else {
      assert (p + s)[1..] == p[1..] + s;
      NameLenIs(p[1..], s);
    }
  }

  lemma HideName(s: string)
    ensures var n := NameLen(s); NameLen(Hide(s)) == n && Hide(s) == s[..n] + Hide(s[n..])
  {
    var n := NameLen(s);
    NameLenPrefix(s);
    assert s == s[..n] + s[n..];
    HidePrefix(s[..n], s[n..]);
    HideFirst(s[n..]);
    NameLenIs(s[..n], Hide(s[n..]));
  }

  lemma HideOp(s: string)
    ensures OpAt(Hide(s)) == OpAt(s)
    ensures Hide(s) == OpAt(s) + Hide(s[|OpAt(s)|..])
  {
    var op := OpAt(s);
    assert s == op + s[|op|..];
    HidePrefix(op, s[|op|..]);
    HideFirst(s);
    if s != "" {
      HideCases(s);
      if s[0] == ':' {
        HideFirst(s[1..]);
      }
    }
  }

  lemma {:induction false} BraceIs(p: string, s: string)
    requires '}' !in p
    ensures s != "" && s[0] == '}' ==> BraceAt(p + s) == |p|
    ensures s == "" ==> BraceAt(p + s) == |p|
  {
    if p == "" {
      assert p + s == s;
    } else {
      assert (p + s)[1..] == p[1..] + s;
      BraceIs(p[1..], s);
    }
  }

  lemma {:induction false} HideNoBrace(s: string)
    requires '}' !in s
    ensures '}' !in Hide(s)
    decreases |s|
  {
    if s != "" {
      HideCases(s);
      if |s| > 1 && s[0] == '$' && s[1] == '$' {
        HideNoBrace(s[2..]);
      } else {
        HideNoBrace(s[1..]);
      }
    }
  }

  /** The first `}` of the hidden text is the first `}` of the text. */
  lemma HideBrace(s: string)
    ensures var b, h := BraceAt(s), BraceAt(Hide(s));
            && (b < |s| <==> h < |Hide(s)|)
            && (b < |s| ==> Hide(s)[..h] == Hide(s[..b]) && Hide(s)[h + 1..] == Hide(s[b + 1..]))
  {
    var b := BraceAt(s);
    HideNoBrace(s[..b]);
    if b < |s| {
      assert s == s[..b] + [s[b]] + s[b + 1..];
      HideSplit(s[..b], '}', s[b + 1..]);
      assert Hide(s) == Hide(s[..b]) + ([s[b]] + Hide(s[b + 1..]));
      BraceIs(Hide(s[..b]), [s[b]] + Hide(s[b + 1..]));
    } else {
      assert s[..b] == s;
      assert Hide(s) == Hide(s) + "";
      BraceIs(Hide(s), "");
    }
  }

  function HideRef(r: Option<Ref>): Option<Ref> {
    match r
    case None => None
    case Some(v) => Some(Ref(v.name, v.op, Hide(v.text), Hide(v.rest)))
  }

  lemma HideClosed(name: string, u: string)
    ensures MatchClosed(name, Hide(u)) == HideRef(MatchClosed(name, u))
  {
    HideOp(u);
    var op := OpAt(u);
    var v := u[|op|..];
    assert Hide(u)[|op|..] == Hide(v);
    if op == "" {
      HideFirst(v);
      if v != "" {
        HideCases(v);
        assert Hide(v)[..0] == Hide(v[..0]);
      }
    } else {
      HideBrace(v);
    }
  }

  lemma HideBraced(t: string)
    ensures MatchBraced(Hide(t)) == HideRef(MatchBraced(t))
  {
    HideName(t);
    HideFirst(t);
    var n := NameLen(t);
    assert Hide(t)[n..] == Hide(t[n..]) && Hide(t)[..n] == t[..n];
    HideClosed(t[..n], t[n..]);
  }

  /** The regular expression sees the same reference in the hidden text as in the text itself. */
  lemma HideMatch(s: string)
    requires s != "" && !(|s| > 1 && s[0] == '$' && s[1] == '$')
    ensures Match(Hide(s)) == HideRef(Match(s))
  {
    HideCases(s);
    HideFirst(s[1..]);
    if s[0] == '$' && |s| > 1 {
      assert Hide(s)[1..] == Hide(s[1..]);
      HideCases(s[1..]);
      assert s[1..][1..] == s[2..];
      if s[1] == '{' {
        assert Hide(s)[2..] == Hide(s[2..]);
        HideBraced(s[2..]);
      } else if NameStart(s[1]) {
        HideName(s[1..]);
      }
    }
  }

  lemma {:induction false} ShowHide(s: string)
    ensures Show(Hide(s)) == Show(Unescape(s))
    decreases |s|
  {
    if s != "" {
      HideCases(s);
      if |s| > 1 && s[0] == '$' && s[1] == '$' {
        ShowHide(s[2..]);
        ShowAppend(ESC, Hide(s[2..]));
        ShowAppend("$", Unescape(s[2..]));
        assert Show(ESC) == "$" by { assert ESC[1..] == ""; }
      } else {
        ShowHide(s[1..]);
        ShowAppend([s[0]], Hide(s[1..]));
        ShowAppend([s[0]], Unescape(s[1..]));
      }
    }
  }

  lemma ShowValue(env: Env, name: string, op: string, text: string)
    ensures Show(Value(env, name, op, Hide(text))) == Show(Value(env, name, op, Unescape(text)))
  {
    ShowHide(text);
  }

  // ---------------------------------------------------------------- main results

  /** Pass for pass the code computes the scanner's result, up to the NULs of its inputs: on every text
      and environment, with nothing assumed. */
  lemma {:induction false} InterpolateIsScan(s: string, env: Env)
    ensures Interpolate(s, env) == Show(Scan(s, env))
    decreases |s|
  {
    if s != "" {
      HideCases(s);
      if |s| > 1 && s[0] == '$' && s[1] == '$' {
        InterpolateIsScan(s[2..], env);
        var h := Hide(s);
        assert h[0] == '\0' && h[1..] == Hide(s[2..]);
        assert Match(h).None?;
        ShowAppend(ESC, Rewrite(h[1..], env));
        ShowAppend("$", Scan(s[2..], env));
        assert Show(ESC) == "$" by { assert ESC[1..] == ""; }
      } else {
        HideMatch(s);
        match Match(s)
        case Some(r) =>
          InterpolateIsScan(r.rest, env);
          ShowValue(env, r.name, r.op, r.text);
          ShowAppend(Value(env, r.name, r.op, Hide(r.text)), Rewrite(Hide(r.rest), env));
          ShowAppend(Value(env, r.name, r.op, Unescape(r.text)), Scan(r.rest, env));
        case None =>
          InterpolateIsScan(s[1..], env);
          assert Hide(s)[1..] == Hide(s[1..]);
          ShowAppend([s[0]], Rewrite(Hide(s[1..]), env));
          ShowAppend([s[0]], Scan(s[1..], env));
      }
    }
  }

  /** The three passes are the scanner exactly when the scanner's result has no NUL. */
  lemma InterpolateExact(s: string, env: Env)
    ensures Interpolate(s, env) == Scan(s, env) <==> '\0' !in Scan(s, env)
  {
    InterpolateIsScan(s, env);
    ShowPlain(Scan(s, env));
  }

  ghost predicate NulFree(s: string, env: Env) {
    '\0' !in s && forall k :: k in env ==> '\0' !in env[k]
  }

  lemma {:induction false} UnescapeNulFree(s: string)
    requires '\0' !in s
    ensures '\0' !in Unescape(s)
    decreases |s|
  {
    if s != "" {
      if |s| > 1 && s[0] == '$' && s[1] == '$' {
        UnescapeNulFree(s[2..]);
      } else {
        UnescapeNulFree(s[1..]);
      }
    }
  }

  lemma MatchSubstrings(s: string)
    requires Match(s).Some? && '\0' !in s
    ensures '\0' !in Match(s).value.text && '\0' !in Match(s).value.rest
  {
  }

  lemma ValueNulFree(env: Env, name: string, op: string, text: string)
    requires forall k :: k in env ==> '\0' !in env[k]
    requires '\0' !in text
    ensures '\0' !in Value(env, name, op, text)
  {
  }

  lemma {:induction false} ScanNulFree(s: string, env: Env)
    requires NulFree(s, env)
    ensures '\0' !in Scan(s, env)
    decreases |s|
  {
    if s == "" {
    } else if |s| > 1 && s[0] == '$' && s[1] == '$' {
      ScanNulFree(s[2..], env);
    } else if Match(s).Some? {
      var r := Match(s).value;
      MatchSubstrings(s);
      UnescapeNulFree(r.text);
      ValueNulFree(env, r.name, r.op, Unescape(r.text));
      ScanNulFree(r.rest, env);
    } else {
      ScanNulFree(s[1..], env);
    }
  }

  /** On NUL-free texts and environments the three passes are the scanner. */
  lemma InterpolateScansOnce(s: string, env: Env)
    requires NulFree(s, env)
    ensures Interpolate(s, env) == Scan(s, env)
  {
    ScanNulFree(s, env);
    InterpolateExact(s, env);
  }

  /** A text without a dollar sign is itself, whatever the environment says. */
  lemma {:induction false} ScanNoDollar(s: string, env: Env)
    requires '$' !in s
    ensures Scan(s, env) == s
  {
    if s != "" {
      ScanNoDollar(s[1..], env);
    }
  }

  /** Doubling every dollar sign protects a text from interpolation. */
  lemma {:induction false} ScanDoubled(s: string, env: Env)
    ensures Scan(Doubled(s), env) == s
  {
    if s != "" {
      ScanDoubled(s[1..], env);
      var d := Doubled(s);
      if s[0] == '$' {
        assert d[2..] == Doubled(s[1..]);
      } else {
        assert d[1..] == Doubled(s[1..]);
      }
    }
  }

  function DoubleDollar(c: char): string { if c == '$' then "$$" else [c] }

  function Doubled(s: string): string {
    MapChars(DoubleDollar, s)
  }
}

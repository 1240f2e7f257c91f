/** The string helpers of Go's standard library that the modelled code relies on. A string is a
    sequence of characters. */
module Strings {

  /** strings.ReplaceAll for a non-empty `what`: leftmost, non-overlapping, never rescanned. */
  function ReplaceAll(s: string, what: string, with: string): string
    requires what != ""
    decreases |s|
  {
    if s == "" then ""
    else if what <= s then with + ReplaceAll(s[|what|..], what, with)
    else [s[0]] + ReplaceAll(s[1..], what, with)
  }

  /** A per-character rewrite: what a strings.Replacer with one-character keys does. */
  function MapChars(f: char -> string, s: string): string {
    if s == "" then "" else f(s[0]) + MapChars(f, s[1..])
  }

  /** strings.Split on one character: always at least one part. */
  function Split(s: string, sep: char): (parts: seq<string>)
    ensures |parts| >= 1
  {
    if s == "" then [""]
    else
      var rest := Split(s[1..], sep);
      if s[0] == sep then [""] + rest else [[s[0]] + rest[0]] + rest[1..]
  }

  /** strings.Join. */
  function Join(parts: seq<string>, sep: string): string {
    if |parts| == 0 then ""
    else if |parts| == 1 then parts[0]
    else parts[0] + sep + Join(parts[1..], sep)
  }

  /** unicode.IsSpace. */
  predicate IsSpace(c: char) {
    var n := c as int;
    || 0x09 <= n <= 0x0D || n == 0x20 || n == 0x85 || n == 0xA0 || n == 0x1680
    || 0x2000 <= n <= 0x200A || n == 0x2028 || n == 0x2029 || n == 0x202F || n == 0x205F || n == 0x3000
  }

  function TrimLeft(s: string): string {
    if s != "" && IsSpace(s[0]) then TrimLeft(s[1..]) else s
  }

  function TrimRight(s: string): string {
    if s != "" && IsSpace(s[|s| - 1]) then TrimRight(s[..|s| - 1]) else s
  }

  /** strings.TrimSpace. */
  function TrimSpace(s: string): string {
    TrimRight(TrimLeft(s))
  }

  /** No white space at either end. */
  predicate Trimmed(s: string) {
    s == "" || (!IsSpace(s[0]) && !IsSpace(s[|s| - 1]))
  }

  lemma {:induction false} TrimRightBounds(s: string)
    ensures TrimRight(s) <= s
    ensures TrimRight(s) == "" || !IsSpace(TrimRight(s)[|TrimRight(s)| - 1])
    ensures s != "" && IsSpace(s[|s| - 1]) ==> |TrimRight(s)| < |s|
  {
    if s != "" && IsSpace(s[|s| - 1]) {
      TrimRightBounds(s[..|s| - 1]);
    }
  }

  lemma {:induction false} TrimLeftStops(s: string)
    ensures TrimLeft(s) == "" || !IsSpace(TrimLeft(s)[0])
    ensures |TrimLeft(s)| <= |s|
    ensures s != "" && IsSpace(s[0]) ==> |TrimLeft(s)| < |s|
  {
    if s != "" && IsSpace(s[0]) {
      TrimLeftStops(s[1..]);
    }
  }

  /** TrimSpace leaves exactly the strings without outer white space alone, and its result is one. */
  lemma TrimSpaceFixes(s: string)
    ensures Trimmed(TrimSpace(s))
    ensures |TrimSpace(s)| <= |s|
    ensures TrimSpace(s) == s <==> Trimmed(s)
    ensures !Trimmed(s) ==> |TrimSpace(s)| < |s|
  {
    TrimLeftStops(s);
    TrimRightBounds(TrimLeft(s));
  }

  /** Trimming adds no characters. */
  lemma TrimInside(v: string, c: char)
    requires c in TrimSpace(v)
    ensures c in v
  {
    TrimRightBounds(TrimLeft(v));
    assert c in TrimLeft(v);
    TrimLeftInside(v, c);
  }

  lemma {:induction false} TrimLeftInside(v: string, c: char)
    requires c in TrimLeft(v)
    ensures c in v
  {
    if v != "" && IsSpace(v[0]) {
      TrimLeftInside(v[1..], c);
    }
  }

  lemma {:induction false} TrimLeftSnoc(x: string, c: char)
    requires IsSpace(c)
    ensures TrimRight(TrimLeft(x + [c])) == TrimSpace(x)
  {
    if x == "" {
      assert x + [c] == [c];
      assert TrimLeft([c]) == "" by { assert [c][1..] == ""; assert TrimLeft("") == ""; }
    } else if IsSpace(x[0]) {
      assert (x + [c])[1..] == x[1..] + [c];
      TrimLeftSnoc(x[1..], c);
    } else {
      assert (x + [c])[..|x|] == x;
    }
  }

  predicate AllSpace(s: string) { forall i :: 0 <= i < |s| ==> IsSpace(s[i]) }

  lemma {:induction false} TrimLeftSpace(w: string, s: string)
    requires AllSpace(w)
    ensures TrimLeft(w + s) == TrimLeft(s)
  {
    if w == "" {
      assert w + s == s;
    } else {
      assert (w + s)[1..] == w[1..] + s;
      TrimLeftSpace(w[1..], s);
    }
  }

  lemma {:induction false} TrimSpaceSpace(s: string, w: string)
    requires AllSpace(w)
    ensures TrimSpace(s + w) == TrimSpace(s)
    decreases |w|
  {
    if w == "" {
      assert s + w == s;
    } else {
      var n := |w| - 1;
      assert s + w == (s + w[..n]) + [w[n]];
      TrimLeftSnoc(s + w[..n], w[n]);
      TrimSpaceSpace(s, w[..n]);
    }
  }

  /** Outer white space of a line does not matter. */
  lemma OuterSpace(w: string, s: string, x: string)
    requires AllSpace(w) && AllSpace(x)
    ensures TrimSpace(w + s + x) == TrimSpace(s)
  {
    TrimSpaceSpace(w + s, x);
    TrimLeftSpace(w, s);
  }

  /** A text without the white space around it. */
  ghost predicate TrimmedFrom(x: string, u: string) {
    Trimmed(x) && exists a, b :: Around(a, x, b, u)
  }

  predicate Around(a: string, x: string, b: string, u: string) { u == a + x + b && AllSpace(a) && AllSpace(b) }

  lemma {:induction false} LeftIs(s: string)
    ensures exists a :: AllSpace(a) && s == a + TrimLeft(s)
  {
    if s != "" && IsSpace(s[0]) {
      LeftIs(s[1..]);
      var a :| AllSpace(a) && s[1..] == a + TrimLeft(s[1..]);
      assert AllSpace([s[0]] + a) && s == ([s[0]] + a) + TrimLeft(s);
    } else {
      assert AllSpace("") && s == "" + TrimLeft(s);
    }
  }

  lemma {:induction false} RightIs(s: string)
    ensures exists b :: AllSpace(b) && s == TrimRight(s) + b
  {
    if s != "" && IsSpace(s[|s| - 1]) {
      var n := |s| - 1;
      RightIs(s[..n]);
      var b :| AllSpace(b) && s[..n] == TrimRight(s[..n]) + b;
      assert AllSpace(b + [s[n]]) && s == TrimRight(s) + (b + [s[n]]);
    } else {
      assert AllSpace("") && s == TrimRight(s) + "";
    }
  }

  /** TrimSpace gives that text and no other. */
  lemma TrimIs(u: string)
    ensures TrimmedFrom(TrimSpace(u), u)
    ensures forall x :: TrimmedFrom(x, u) ==> x == TrimSpace(u)
  {
    TrimSpaceFixes(u);
    hide Around, TrimSpace, Trimmed;
    Surrounded(u);
    forall x | TrimmedFrom(x, u) ensures x == TrimSpace(u) {
      var a, b :| Around(a, x, b, u);
      Uncovered(a, x, b, u);
      TrimSpaceFixes(x);
    }
  }

  lemma Uncovered(a: string, x: string, b: string, u: string)
    requires Around(a, x, b, u)
    ensures TrimSpace(u) == TrimSpace(x)
  {
    OuterSpace(a, x, b);
  }

  lemma Surrounded(u: string)
    ensures exists a, b :: Around(a, TrimSpace(u), b, u)
  {
    hide TrimLeft, TrimRight, AllSpace;
    LeftIs(u);
    var a :| AllSpace(a) && u == a + TrimLeft(u);
    RightIs(TrimLeft(u));
    var b :| AllSpace(b) && TrimLeft(u) == TrimSpace(u) + b;
    assert a + (TrimSpace(u) + b) == a + TrimSpace(u) + b;
    assert Around(a, TrimSpace(u), b, u);
  }

  predicate HasPrefix(s: string, p: string) { p <= s }

  function TrimPrefix(s: string, p: string): string {
    if p <= s then s[|p|..] else s
  }

  predicate HasSuffix(s: string, p: string) {
    |p| <= |s| && s[|s| - |p|..] == p
  }

  function TrimSuffix(s: string, p: string): string {
    if HasSuffix(s, p) then s[..|s| - |p|] else s
  }

  predicate ContainsAny(s: string, chars: string) {
    exists i :: 0 <= i < |s| && s[i] in chars
  }

  /** Splitting what was joined gives the parts back, if no part contains the separator. */
  lemma {:induction false} SplitJoin(parts: seq<string>, sep: char)
    requires |parts| >= 1
    requires forall p :: p in parts ==> sep !in p
    ensures Split(Join(parts, [sep]), sep) == parts
  {
    if |parts| == 1 {
      SplitOne(parts[0], sep);
    } else {
      SplitJoin(parts[1..], sep);
      SplitAt(parts[0], sep, Join(parts[1..], [sep]));
      assert parts[0] + [sep] + Join(parts[1..], [sep]) == parts[0] + ([sep] + Join(parts[1..], [sep]));
    }
  }

  lemma {:induction false} SplitOne(p: string, sep: char)
    requires sep !in p
    ensures Split(p, sep) == [p]
  {
    if p != "" {
      SplitOne(p[1..], sep);
      assert [p[0]] + p[1..] == p;
    }
  }

  lemma {:induction false} SplitAt(p: string, sep: char, rest: string)
    requires sep !in p
    ensures Split(p + ([sep] + rest), sep) == [p] + Split(rest, sep)
  {
    var s := p + ([sep] + rest);
    if p == "" {
      assert s[1..] == rest;
    } else {
      assert s[1..] == p[1..] + ([sep] + rest);
      SplitAt(p[1..], sep, rest);
      assert [s[0]] + p[1..] == p;
    }
  }

  lemma {:induction false} SplitParts(s: string, sep: char)
    ensures forall p :: p in Split(s, sep) ==> sep !in p
  {
    if s != "" {
      SplitParts(s[1..], sep);
      var rest := Split(s[1..], sep);
      forall p | p in Split(s, sep) ensures sep !in p {
        if s[0] != sep && p == [s[0]] + rest[0] {
        } else if s[0] != sep {
          assert p in rest[1..];
        }
      }
    }
  }

  // ---------------------------------------------------------------- decimal numbers

  function Digit(n: nat): char
    requires n < 10
  {
    ['0', '1', '2', '3', '4', '5', '6', '7', '8', '9'][n]
  }

  /** fmt's %d of a natural number. */
  function Itoa(n: nat): (s: string)
    ensures s != ""
    ensures forall i :: 0 <= i < |s| ==> '0' <= s[i] <= '9'
  {
    if n < 10 then [Digit(n)] else Itoa(n / 10) + [Digit(n % 10)]
  }

  lemma {:induction false} ItoaInjective(a: nat, b: nat)
    requires Itoa(a) == Itoa(b)
    ensures a == b
  {
    var s, t := Itoa(a), Itoa(b);
    assert s[|s| - 1] == Digit(a % 10) && t[|t| - 1] == Digit(b % 10);
    assert s[..|s| - 1] == if a < 10 then "" else Itoa(a / 10);
    assert t[..|t| - 1] == if b < 10 then "" else Itoa(b / 10);
    if a >= 10 && b >= 10 {
      ItoaInjective(a / 10, b / 10);
    }
  }
}

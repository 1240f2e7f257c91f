/** What the `.env` reader makes of each kind of value, line and file (github/parse.go), whoever wrote it. */
module EnvFileRules {
  import opened Wrappers
  import opened Strings
  import opened EnvFile

  // ---------------------------------------------------------------- comments behind a value

  /** No inline comment starts inside the text. */
  predicate Uncommented(v: string) {
    forall j :: 0 < j < |v| && v[j] == '#' ==> v[j - 1] != ' ' && v[j - 1] != '\t'
  }

  function Hashes(n: nat): string { seq(n, _ => '#') }

  lemma {:induction false} CommentTextIs(n: nat, d: string)
    requires d == "" || d[0] != '#'
    ensures CommentText(Hashes(n) + d) == TrimSpace(d)
  {
    if n == 0 {
      assert Hashes(0) + d == d;
    } else {
      assert (Hashes(n) + d)[1..] == Hashes(n - 1) + d;
      CommentTextIs(n - 1, d);
    }
  }

  lemma FirstComment(v: string, k: nat)
    requires 1 <= k < |v| && CommentStart(v, k) && forall j :: 1 <= j < k ==> !CommentStart(v, j)
    ensures CommentFrom(v, 1) == k
  {
  }

  /** White space at the end does not matter to TrimSpace. */
  lemma TrimEnd(v: string, c: char)
    requires IsSpace(c)
    ensures TrimSpace(v + [c]) == TrimSpace(v)
  {
    TrimLeftSnoc(v, c);
  }

  /** A value that opens with neither a quote nor a hash: without an inline comment it is itself, and one that starts
      behind a blank or tab is cut off, hashes and outer white space included. */
  lemma BareRules(v: string, w: char, n: nat, d: string)
    requires v != "" && v[0] !in "\"'`#" && Uncommented(v)
    requires w in {' ', '\t'} && n >= 1 && (d == "" || d[0] != '#')
    ensures EnvValue(v) == Parsed(v, "")
    ensures EnvValue(v + [w] + Hashes(n) + d) == Parsed(TrimSpace(v), TrimSpace(d))
  {
    var s, k := v + [w] + Hashes(n) + d, |v| + 1;
    assert s[0] == v[0] && s[k] == '#' && s[|v|] == w;
    assert forall j :: 0 <= j < |v| ==> s[j] == v[j];
    FirstComment(s, k);
    assert s[..k] == v + [w] && s[k..] == Hashes(n) + d;
    TrimEnd(v, w);
    CommentTextIs(n, d);
    assert CommentFrom(v, 1) == |v|;
  }

  /** A text that opens with a hash is all comment. */
  lemma HashRule(n: nat, d: string)
    requires n >= 1 && (d == "" || d[0] != '#')
    ensures EnvValue(Hashes(n) + d) == Parsed("", TrimSpace(d))
  {
    assert (Hashes(n) + d)[0] == '#';
    CommentTextIs(n, d);
  }

  // ---------------------------------------------------------------- quoted values

  /** What stands behind a closing quote: the inline comment, if the first character that is not white space is a
      hash. */
  ghost predicate Behind(rest: string, comment: string) {
    && (!HasPrefix(TrimSpace(rest), "#") ==> comment == "")
    && forall n, d :: n >= 1 && (d == "" || d[0] != '#') && TrimSpace(rest) == Hashes(n) + d ==> comment == TrimSpace(d)
  }

  lemma BehindIs(rest: string)
    ensures Behind(rest, if HasPrefix(TrimSpace(rest), "#") then CommentText(TrimSpace(rest)) else "")
  {
    forall n, d | n >= 1 && (d == "" || d[0] != '#') && TrimSpace(rest) == Hashes(n) + d
      ensures HasPrefix(TrimSpace(rest), "#") && CommentText(TrimSpace(rest)) == TrimSpace(d)
    {
      CommentTextIs(n, d);
      assert Hashes(n)[0] == '#';
    }
  }

  lemma {:induction false} ReadPlain(body: string, q: char, rest: string)
    requires q != '"' && q !in body
    ensures ReadQuoted(body + [q] + rest, q) == Some(Parsed(body, rest))
    ensures ReadQuoted(body, q) == None
  {
    var s := body + [q] + rest;
    if body == "" {
      assert s[0] == q && s[1..] == rest;
    } else {
      assert s[1..] == body[1..] + [q] + rest;
      ReadPlain(body[1..], q, rest);
      assert [body[0]] + body[1..] == body;
    }
  }

  /** In single quotes or backticks every character is itself up to the closing one; without one the text is taken as
      it stands. */
  lemma QuotedRules(q: char, body: string, rest: string)
    requires q in {'\'', '`'} && q !in body
    ensures EnvValue([q] + body + [q] + rest).value == body
    ensures Behind(rest, EnvValue([q] + body + [q] + rest).comment)
    ensures EnvValue([q] + body) == Parsed(TrimSpace([q] + body), "")
  {
    hide ReadQuoted, TrimSpace, CommentText, CommentFrom, Behind;
    ReadPlain(body, q, rest);
    BehindIs(rest);
    var s := [q] + body + [q] + rest;
    assert s[0] == q && s[1..] == body + [q] + rest;
    assert ([q] + body)[1..] == body;
  }

  /** What is written between double quotes: characters as they are, and ones behind a backslash. */
  datatype Piece = Plain(c: char) | Escaped(c: char)

  predicate Writable(ps: seq<Piece>) { forall i :: 0 <= i < |ps| && ps[i].Plain? ==> ps[i].c != '"' && ps[i].c != '\\' }

  function WrittenOne(p: Piece): string { if p.Plain? then [p.c] else ['\\', p.c] }

  function Written(ps: seq<Piece>): string { if ps == [] then "" else WrittenOne(ps[0]) + Written(ps[1..]) }

  /** Behind a backslash n is a line end and t a tab; every other character is itself. */
  function MeaningOne(p: Piece): char {
    if p.Plain? then p.c else if p.c == 'n' then '\n' else if p.c == 't' then '\t' else p.c
  }

  function Meaning(ps: seq<Piece>): string { seq(|ps|, i requires 0 <= i < |ps| => MeaningOne(ps[i])) }

  lemma HeadOf(a: string, b: string, c: string)
    ensures a + b + c == a + (b + c)
  {
  }

  lemma ReadPiece(p: Piece, tail: string)
    requires p.Plain? ==> p.c != '"' && p.c != '\\'
    ensures ReadQuoted(WrittenOne(p) + tail, '"') == Put(MeaningOne(p), ReadQuoted(tail, '"'))
  {
    var s := WrittenOne(p) + tail;
    assert s[|WrittenOne(p)|..] == tail;
  }

  lemma {:induction false} ReadPieces(ps: seq<Piece>, rest: string)
    requires Writable(ps)
    ensures ReadQuoted(Written(ps) + ("\"" + rest), '"') == Some(Parsed(Meaning(ps), rest))
    ensures ReadQuoted(Written(ps), '"') == None
  {
    if ps == [] {
      assert Written(ps) + ("\"" + rest) == "\"" + rest && ("\"" + rest)[1..] == rest && Meaning(ps) == "";
    } else {
      hide ReadQuoted, WrittenOne, MeaningOne;
      ReadPieces(ps[1..], rest);
      assert Meaning(ps) == [MeaningOne(ps[0])] + Meaning(ps[1..]);
      HeadOf(WrittenOne(ps[0]), Written(ps[1..]), "\"" + rest);
      ReadPiece(ps[0], Written(ps[1..]) + ("\"" + rest));
      ReadPiece(ps[0], Written(ps[1..]));
    }
  }

  lemma DoubleQuotedRules(ps: seq<Piece>, rest: string)
    requires Writable(ps)
    ensures EnvValue("\"" + Written(ps) + "\"" + rest).value == Meaning(ps)
    ensures Behind(rest, EnvValue("\"" + Written(ps) + "\"" + rest).comment)
    ensures EnvValue("\"" + Written(ps)) == Parsed(TrimSpace("\"" + Written(ps)), "")
  {
    hide ReadQuoted, TrimSpace, CommentText, CommentFrom, Behind;
    ReadPieces(ps, rest);
    BehindIs(rest);
    var s := "\"" + Written(ps) + "\"" + rest;
    HeadOf(Written(ps), "\"", rest);
    assert s[0] == '"' && s[1..] == Written(ps) + ("\"" + rest);
    assert ("\"" + Written(ps))[1..] == Written(ps);
  }

  // ---------------------------------------------------------------- one line

  predicate KeyLetter(c: char) { 'A' <= c <= 'Z' || 'a' <= c <= 'z' || c == '_' }

  predicate IsKey(k: string) {
    k != "" && KeyLetter(k[0]) && forall i :: 0 <= i < |k| ==> KeyLetter(k[i]) || '0' <= k[i] <= '9' || k[i] in ".-"
  }

  /** Blank lines and comment lines. */
  lemma LineRules(w: string, n: nat, d: string)
    requires AllSpace(w) && n >= 1 && (d == "" || d[0] != '#')
    ensures ReadLine(w) == Blank
    ensures ReadLine(w + Hashes(n) + d) == Comment(TrimSpace(d))
  {
    hide TrimSpace, CommentText, AllSpace, EqualsAt, EnvValue, ValidKey, TrimPrefix;
    assert AllSpace("") && TrimSpace("") == "" by { NoSpace(); }
    OuterSpace(w, "", "");
    assert w + "" + "" == w;
    var h := Hashes(n) + d;
    OuterSpace(w, h, "");
    assert w + h + "" == w + Hashes(n) + d;
    CommentTrimmed(n, d);
  }

  lemma NoSpace()
    ensures AllSpace("") && TrimSpace("") == ""
  {
  }

  /** Trimming first changes nothing in the text of a comment. */
  lemma CommentTrimmed(n: nat, d: string)
    requires n >= 1 && (d == "" || d[0] != '#')
    ensures var t := TrimSpace(Hashes(n) + d); t != "" && t[0] == '#' && CommentText(t) == TrimSpace(d)
  {
    var h := Hashes(n);
    assert h[|h| - 1] == '#' && (h + d)[0] == '#' && TrimLeft(h + d) == h + d;
    TrimRightAfter(h, d);
    TrimRightBounds(d);
    var e := TrimRight(d);
    assert e <= d && (e == "" || e[0] == d[0]);
    CommentTextIs(n, e);
    TrimRightFirst(d);
    assert (h + e)[0] == '#';
  }

  /** A line `key = value`, with white space anywhere around the two and perhaps "export " in front, is that entry. The
      one exception is a key "export" with a blank behind it, which is taken for the prefix. */
  lemma EntryRule(w: string, k: string, x: string, v: string)
    requires AllSpace(w) && AllSpace(x) && IsKey(k)
    ensures ReadLine(w + (k + x + "=" + v)) == if k == "export" && x != "" && x[0] == ' ' then Other else EntryOf(k, v)
    ensures ReadLine(w + ("export " + (k + x + "=" + v))) == EntryOf(k, v)
  {
    hide ReadLine, EntryOf, IsKey;
    TrimmedLine(w, "", k, x, v);
    TrimmedLine(w, "export ", k, x, v);
    var body := k + x + "=" + TrimRight(v);
    assert "" + (k + x + "=" + v) == k + x + "=" + v && "" + body == body;
    assert ("export " + body)[7..] == body && "export " <= "export " + body;
    EntryOfBody(w + ("export " + (k + x + "=" + v)), "export " + body, k, x, v);
    Exported(k, x, TrimRight(v));
    if k == "export" && x != "" && x[0] == ' ' {
      NoKey(w + (k + x + "=" + v), body, x, v);
    } else {
      EntryOfBody(w + (k + x + "=" + v), body, k, x, v);
    }
  }

  lemma TrimmedLine(w: string, e: string, k: string, x: string, v: string)
    requires AllSpace(w) && IsKey(k) && e in {"", "export "}
    ensures TrimSpace(w + (e + (k + x + "=" + v))) == e + (k + x + "=" + TrimRight(v))
  {
    var front := e + (k + x + "=");
    KeyIsPlain(k);
    assert front[0] == (if e == "" then k[0] else 'e') && front[|front| - 1] == '=';
    FrontStays(w, front, v);
    HeadOf(e, k + x + "=", v);
    HeadOf(e, k + x + "=", TrimRight(v));
    hide TrimRight, TrimSpace, IsKey;
  }

  lemma FrontStays(w: string, front: string, v: string)
    requires AllSpace(w) && front != "" && !IsSpace(front[0]) && !IsSpace(front[|front| - 1])
    ensures TrimSpace(w + (front + v)) == front + TrimRight(v)
  {
    var line := front + v;
    assert TrimLeft(line) == line;
    TrimLeftSpace(w, line);
    TrimRightAfter(front, v);
  }

  lemma EntryOfBody(line: string, t: string, k: string, x: string, v: string)
    requires AllSpace(x) && IsKey(k) && TrimSpace(line) == t
    requires TrimPrefix(t, "export ") == k + x + "=" + TrimRight(v)
    ensures ReadLine(line) == EntryOf(k, v)
  {
    BodyIs(k, x, v);
    KeyIsPlain(k);
    assert (k + x + "=" + TrimRight(v))[0] == k[0];
    assert "export "[0] == 'e';
  }

  /** Nothing is left of the key. */
  lemma NoKey(line: string, t: string, x: string, v: string)
    requires AllSpace(x) && x != "" && x[0] == ' ' && TrimSpace(line) == t && t == "export" + x + "=" + TrimRight(v)
    ensures ReadLine(line) == Other
  {
    var rest := x[1..] + "=" + TrimRight(v);
    assert t[..7] == "export " && t[7..] == rest;
    TrimLeftSpace(x[1..], "=" + TrimRight(v));
    assert rest == x[1..] + ("=" + TrimRight(v));
    TrimRightAfter("=", TrimRight(v));
    var body := TrimSpace(rest);
    assert body == "=" + TrimRight(TrimRight(v)) && EqualsAt(body) == 0 && body[..0] == "";
    assert TrimSpace("") == "" && !ValidKey("");
  }

  /** What is left of a line once it is trimmed. */
  lemma BodyIs(k: string, x: string, v: string)
    requires AllSpace(x) && IsKey(k)
    ensures var body := k + x + "=" + TrimRight(v);
            && TrimSpace(body) == body && EqualsAt(body) == |k + x| && TrimSpace(body[..|k + x|]) == k
            && TrimSpace(body[|k + x| + 1..]) == TrimSpace(v) && ValidKey(k)
  {
    hide TrimSpace, TrimLeft, TrimRight, AllSpace, IsKey, ValidKey, IsSpace;
    var body := k + x + "=" + TrimRight(v);
    KeyPlain(k, x);
    BodyStays(k + x + "=", v);
    EqualsAfter(k + x, TrimRight(v));
    assert body[..|k + x|] == k + x && body[|k + x| + 1..] == TrimRight(v);
    OuterSpace("", k, x) by { NoSpace(); }
    assert "" + k + x == k + x;
    TrimSpaceFixes(k);
    TrimRightFirst(v);
  }

  lemma KeyPlain(k: string, x: string)
    requires AllSpace(x) && IsKey(k)
    ensures ValidKey(k) && Trimmed(k) && '=' !in k + x && k != "" && !IsSpace((k + x + "=")[0]) && !IsSpace('=')
  {
    KeyIsPlain(k);
  }

  lemma BodyStays(front: string, v: string)
    requires front != "" && !IsSpace(front[0]) && !IsSpace(front[|front| - 1])
    ensures TrimSpace(front + TrimRight(v)) == front + TrimRight(v)
  {
    var body := front + TrimRight(v);
    assert TrimLeft(body) == body;
    TrimRightAfter(front, TrimRight(v));
    TrimRightTwice(v);
  }

  lemma TrimRightTwice(v: string)
    ensures TrimRight(TrimRight(v)) == TrimRight(v)
  {
    TrimRightBounds(v);
  }

  /** The prefix is only there for that key, and only when a blank follows. */
  lemma Exported(k: string, x: string, v: string)
    requires AllSpace(x) && IsKey(k)
    ensures HasPrefix(k + x + "=" + v, "export ") <==> k == "export" && x != "" && x[0] == ' '
  {
    var b := k + x + "=" + v;
    KeyIsPlain(k);
    assert forall i :: 0 <= i < |k| ==> b[i] == k[i];
    assert b[|k|] == if x == "" then '=' else x[0];
    assert b[..|k|] == k;
    ExportIsKey(k, b);
    assert k == "export" && b[6] == ' ' ==> b[..7] == "export" + " ";
  }

  lemma ExportIsKey(k: string, b: string)
    requires |k| < |b| && b[..|k|] == k && (forall c :: c in k ==> !IsSpace(c)) && (IsSpace(b[|k|]) || b[|k|] == '=')
    ensures "export " <= b ==> k == "export"
  {
    var e := "export ";
    assert forall i :: 0 <= i < |k| ==> k[i] == b[i] && k[i] in k;
    if e <= b {
      assert forall i :: 0 <= i < 7 ==> b[i] == e[i];
      assert e[6] == ' ' && forall i :: 0 <= i < 6 ==> !IsSpace(e[i]) && e[i] != '=';
      assert |k| == 6;
      assert k == e[..6];
    }
  }

  // ---------------------------------------------------------------- a whole file

  /** The lines of a file's text: a carriage return before a line end belongs to it, and a byte order mark in front is
      dropped. */
  lemma {:induction false} BreaksAre(ls: seq<string>, last: string)
    requires (forall i :: 0 <= i < |ls| ==> '\n' !in ls[i]) && '\n' !in last
    ensures ReplaceAll(Text(ls, last), "\r\n", "\n") == Text(seq(|ls|, i requires 0 <= i < |ls| => DropCR(ls[i])), last)
    decreases |ls|
  {
    var ds := seq(|ls|, i requires 0 <= i < |ls| => DropCR(ls[i]));
    if ls == [] {
      NothingReplaced(last);
    } else {
      ReplaceBreaks(ls[0], Text(ls[1..], last));
      BreaksAre(ls[1..], last);
      assert ds[1..] == seq(|ls[1..]|, i requires 0 <= i < |ls[1..]| => DropCR(ls[1..][i]));
      hide DropCR, ReplaceAll;
      assert Text(ls, last) == ls[0] + "\n" + Text(ls[1..], last);
    }
  }

  lemma {:induction false} NothingReplaced(s: string)
    requires '\n' !in s
    ensures ReplaceAll(s, "\r\n", "\n") == s
  {
    if s != "" {
      assert !("\r\n" <= s) by { assert "\r\n"[1] == '\n'; }
      NothingReplaced(s[1..]);
    }
  }

  /** Lines with a line end each, and a last one without. */
  function Text(ls: seq<string>, last: string): string {
    if ls == [] then last else ls[0] + "\n" + Text(ls[1..], last)
  }

  lemma {:induction false} SplitText(ls: seq<string>, last: string)
    requires (forall i :: 0 <= i < |ls| ==> '\n' !in ls[i]) && '\n' !in last
    ensures Split(Text(ls, last), '\n') == ls + [last]
    decreases |ls|
  {
    if ls == [] {
      SplitOne(last, '\n');
    } else {
      SplitText(ls[1..], last);
      SplitAt(ls[0], '\n', Text(ls[1..], last));
      assert ls[0] + "\n" + Text(ls[1..], last) == ls[0] + (['\n'] + Text(ls[1..], last));
      assert [ls[0]] + (ls[1..] + [last]) == ls + [last];
    }
  }

  /** An entry for this key. */
  predicate IsEntryOf(l: string, key: string) { ReadLine(l).Entry? && ReadLine(l).key == key }

  /** The first line with an entry for the key. */
  function FirstOf(ls: seq<string>, key: string): (n: nat)
    ensures n <= |ls|
    ensures n < |ls| ==> IsEntryOf(ls[n], key)
    ensures forall i :: 0 <= i < n ==> !IsEntryOf(ls[i], key)
  {
    if ls == [] || IsEntryOf(ls[0], key) then 0 else 1 + FirstOf(ls[1..], key)
  }

  /** The comments of the comment lines directly above line n, without the merely decorative ones. */
  function Above(ls: seq<string>, n: nat): seq<string>
    requires n <= |ls|
  {
    if n == 0 || !ReadLine(ls[n - 1]).Comment? then []
    else
      var c := ReadLine(ls[n - 1]).text;
      Above(ls, n - 1) + if c != "" && (exists i :: 0 <= i < |c| && c[i] !in "-=*#~_ ") then [c] else []
  }

  /** What line n makes of its key: its value, with the comments above it and behind it. */
  function VarOf(ls: seq<string>, n: nat): EnvVar
    requires n < |ls| && ReadLine(ls[n]).Entry?
  {
    var l := ReadLine(ls[n]);
    EnvVar(l.key, l.value, Join(Above(ls, n) + if l.inline != "" then [l.inline] else [], " "))
  }

  /** The variables of a file: each key with an entry, in the order of their first entries, with what the last entry
      says. */
  ghost predicate VariablesOf(ls: seq<string>, out: seq<EnvVar>) {
    && InOrder(ls, out)
    && forall n :: 0 <= n < |ls| && IsLast(ls, n) ==> VarOf(ls, n) in out
  }

  ghost predicate InOrder(ls: seq<string>, out: seq<EnvVar>) {
    && (forall i :: 0 <= i < |out| ==> FirstOf(ls, out[i].key) < |ls|)
    && (forall i, j :: 0 <= i < j < |out| ==> FirstOf(ls, out[i].key) < FirstOf(ls, out[j].key))
  }

  /** Line n is the last entry for its key. */
  ghost predicate IsLast(ls: seq<string>, n: nat)
    requires n < |ls|
  {
    ReadLine(ls[n]).Entry? && forall m :: n < m < |ls| ==> !IsEntryOf(ls[m], ReadLine(ls[n]).key)
  }

  lemma LastBefore(ls: seq<string>, l: string, n: nat)
    requires n < |ls| && IsLast(ls + [l], n)
    ensures IsLast(ls, n) && VarOf(ls + [l], n) == VarOf(ls, n) && !IsEntryOf(l, ReadLine(ls[n]).key)
  {
    hide ReadLine, Join, Above, IsEntryOf;
    AboveFront(ls, l, n);
    var all := ls + [l];
    assert all[n] == ls[n] && all[|ls|] == l;
    assert forall m :: n < m < |ls| ==> all[m] == ls[m];
  }

  /** The reader's state after some lines. */
  function Fold(ls: seq<string>): (seq<string>, seq<EnvVar>) {
    if ls == [] then ([], [])
    else
      var (pending, out) := Fold(ls[..|ls| - 1]);
      match ReadLine(ls[|ls| - 1])
      case Blank => ([], out)
      case Comment(c) => (if c != "" && !Decorative(c) then pending + [c] else pending, out)
      case Other => ([], out)
      case Entry(k, v, inline) => ([], Place(out, EnvVar(k, v, Join(WithInline(pending, inline), " "))))
  }

  lemma {:induction false} FoldIs(ls: seq<string>, n: nat)
    requires n <= |ls|
    ensures var (pending, out) := Fold(ls[..n]); ReadLines(ls[n..], pending, out) == ReadLines(ls, [], [])
  {
    hide ReadLine, Place, Join;
    if n > 0 {
      FoldIs(ls, n - 1);
      assert ls[..n][..n - 1] == ls[..n - 1] && ls[n - 1..][1..] == ls[n..];
    } else {
      assert ls[0..] == ls;
    }
  }

  lemma AboveFront(ls: seq<string>, l: string, n: nat)
    requires n <= |ls|
    ensures Above(ls + [l], n) == Above(ls, n)
  {
    hide ReadLine;
    if n > 0 {
      AboveFront(ls, l, n - 1);
    }
  }

  lemma {:induction false} FoldPending(ls: seq<string>)
    ensures Fold(ls).0 == Above(ls, |ls|)
  {
    hide ReadLine, Place, Join;
    if ls != [] {
      var init := ls[..|ls| - 1];
      FoldPending(init);
      assert ls == init + [ls[|ls| - 1]];
      AboveFront(init, ls[|ls| - 1], |init|);
    }
  }

  lemma FirstSnoc(ls: seq<string>, l: string, key: string)
    ensures FirstOf(ls + [l], key)
         == if FirstOf(ls, key) < |ls| then FirstOf(ls, key) else if IsEntryOf(l, key) then |ls| else |ls| + 1
  {
    var n, all := FirstOf(ls + [l], key), ls + [l];
    assert forall i :: 0 <= i < |ls| ==> all[i] == ls[i];
    assert all[|ls|] == l;
    hide IsEntryOf;
  }

  /** One more line that is no entry. */
  lemma NoEntryMore(ls: seq<string>, l: string, out: seq<EnvVar>)
    requires VariablesOf(ls, out) && !ReadLine(l).Entry?
    ensures VariablesOf(ls + [l], out)
  {
    hide ReadLine, Join, Above;
    var all := ls + [l];
    forall i | 0 <= i < |out| ensures FirstOf(all, out[i].key) == FirstOf(ls, out[i].key) {
      FirstSnoc(ls, l, out[i].key);
    }
    forall n | 0 <= n < |all| && IsLast(all, n) ensures VarOf(all, n) in out {
      assert all[|ls|] == l;
      LastBefore(ls, l, n);
    }
  }

  /** One more entry. */
  lemma EntryMore(ls: seq<string>, l: string, out: seq<EnvVar>)
    requires VariablesOf(ls, out) && ReadLine(l).Entry?
    ensures VariablesOf(ls + [l], Place(out, VarOf(ls + [l], |ls|)))
  {
    hide ReadLine, Join, Above, Place;
    var all, v := ls + [l], VarOf(ls + [l], |ls|);
    OrderStays(ls, l, out, v);
    forall n | 0 <= n < |all| && IsLast(all, n) ensures VarOf(all, n) in Place(out, v) {
      if n < |ls| {
        LastBefore(ls, l, n);
        OthersStay(out, v, VarOf(ls, n));
      } else {
        IsPlaced(out, v);
      }
    }
  }

  lemma IsPlaced(out: seq<EnvVar>, v: EnvVar)
    ensures v in Place(out, v)
  {
    assert Place(out, v)[IndexOf(out, v.key)] == v;
  }

  lemma OthersStay(out: seq<EnvVar>, v: EnvVar, x: EnvVar)
    requires x in out && x.key != v.key
    ensures x in Place(out, v)
  {
    var i :| 0 <= i < |out| && out[i] == x;
    assert Place(out, v)[i] == x;
  }

  lemma OrderStays(ls: seq<string>, l: string, out: seq<EnvVar>, v: EnvVar)
    requires VariablesOf(ls, out) && IsEntryOf(l, v.key)
    ensures InOrder(ls + [l], Place(out, v))
  {
    hide ReadLine, Join, Above;
    var all, to := ls + [l], Place(out, v);
    forall i | 0 <= i < |to| ensures FirstOf(all, to[i].key) == if i < |out| then FirstOf(ls, to[i].key) else |ls| {
      assert i < |out| ==> to[i].key == out[i].key;
      FirstSnoc(ls, l, to[i].key);
      if i == |out| && FirstOf(ls, v.key) < |ls| {
        KeyIsListed(ls, out, v.key);
      }
    }
  }

  /** Every key with an entry is listed. */
  lemma KeyIsListed(ls: seq<string>, out: seq<EnvVar>, key: string)
    requires VariablesOf(ls, out) && FirstOf(ls, key) < |ls|
    ensures exists i :: 0 <= i < |out| && out[i].key == key
  {
    hide ReadLine, Join, Above;
    var n := LastOf(ls, key, |ls|);
    assert VarOf(ls, n).key == key;
    var i :| 0 <= i < |out| && out[i] == VarOf(ls, n);
  }

  lemma {:induction false} LastOf(ls: seq<string>, key: string, k: nat) returns (n: nat)
    requires FirstOf(ls, key) < k <= |ls| && forall m :: k <= m < |ls| ==> !IsEntryOf(ls[m], key)
    ensures n < |ls| && IsLast(ls, n) && ReadLine(ls[n]).key == key
    decreases k
  {
    hide ReadLine;
    if IsEntryOf(ls[k - 1], key) {
      n := k - 1;
    } else {
      n := LastOf(ls, key, k - 1);
    }
  }

  lemma {:induction false} FoldTells(ls: seq<string>)
    ensures VariablesOf(ls, Fold(ls).1)
  {
    hide ReadLine, Join, VariablesOf;
    if ls == [] {
      NoVariables();
    } else {
      var init, l := ls[..|ls| - 1], ls[|ls| - 1];
      FoldTells(init);
      FoldPending(init);
      assert ls == init + [l];
      if ReadLine(l).Entry? {
        AboveFront(init, l, |init|);
        EntryMore(init, l, Fold(init).1);
        WithInlineIs(Above(init, |init|), ReadLine(l).inline);
      } else {
        NoEntryMore(init, l, Fold(init).1);
      }
    }
  }

  lemma WithInlineIs(pending: seq<string>, inline: string)
    ensures WithInline(pending, inline) == pending + if inline != "" then [inline] else []
  {
  }

  lemma NoVariables()
    ensures VariablesOf([], [])
  {
  }

  /** Whatever a file holds, it is read as its variables: each key in the place of its first entry with the value and
      the comments of its last, which are those of the comment lines directly above and of the line itself. */
  lemma FileRule(bom: bool, ls: seq<string>, last: string)
    requires (forall i :: 0 <= i < |ls| ==> '\n' !in ls[i]) && '\n' !in last && !HasPrefix(Text(ls, last), BOM)
    ensures VariablesOf(seq(|ls|, i requires 0 <= i < |ls| => DropCR(ls[i])) + [last],
                        ReadEnv((if bom then BOM else "") + Text(ls, last)))
  {
    var text, ds := Text(ls, last), seq(|ls|, i requires 0 <= i < |ls| => DropCR(ls[i]));
    LinesAre(bom, ls, last);
    FoldIs(ds + [last], |ds| + 1);
    assert (ds + [last])[..|ds| + 1] == ds + [last] && (ds + [last])[|ds| + 1..] == [];
    FoldTells(ds + [last]);
    hide VariablesOf, Fold, Lines, DropCR;
  }

  lemma LinesAre(bom: bool, ls: seq<string>, last: string)
    requires (forall i :: 0 <= i < |ls| ==> '\n' !in ls[i]) && '\n' !in last && !HasPrefix(Text(ls, last), BOM)
    ensures Lines((if bom then BOM else "") + Text(ls, last)) == seq(|ls|, i requires 0 <= i < |ls| => DropCR(ls[i])) + [last]
  {
    var text, ds := Text(ls, last), seq(|ls|, i requires 0 <= i < |ls| => DropCR(ls[i]));
    BreaksAre(ls, last);
    SplitText(ds, last);
    var once := ReplaceAll(text, "\r\n", "\n");
    FirstKept(ls, last);
    assert BOM == ['\U{FEFF}'] && (forall t: string :: BOM <= t <==> t != "" && t[0] == '\U{FEFF}') by { MarkIs(); }
    assert "" + text == text;
    if bom {
      var s := BOM + text;
      assert s[0] == '\U{FEFF}' && s[1..] == text && !("\r\n" <= s) by { assert "\r\n"[0] == '\r'; }
      assert ReplaceAll(s, "\r\n", "\n") == BOM + once;
      assert (BOM + once)[1..] == once && BOM <= BOM + once;
    }
  }

  lemma MarkIs()
    ensures BOM == ['\U{FEFF}'] && forall t: string :: BOM <= t <==> t != "" && t[0] == '\U{FEFF}'
  {
  }

  /** Dropping carriage returns puts no new character in front, unless it is a line end. */
  lemma FirstKept(ls: seq<string>, last: string)
    ensures var a, b := Text(ls, last), Text(seq(|ls|, i requires 0 <= i < |ls| => DropCR(ls[i])), last);
            b != "" ==> a != "" && b[0] in [a[0], '\n']
  {
    var ds := seq(|ls|, i requires 0 <= i < |ls| => DropCR(ls[i]));
    if ls != [] {
      assert Text(ds, last)[0] == if DropCR(ls[0]) == "" then '\n' else ls[0][0];
      assert Text(ls, last)[0] == if ls[0] == "" then '\n' else ls[0][0];
    }
  }

  // ---------------------------------------------------------------- what is written

  /** One line for each variable with a name: the name, an equals sign, and the value as it is or between double
      quotes, with a backslash in front of backslashes, quotes and line ends, and dollar signs doubled. */
  lemma WrittenLine(k: string, v: string, env: seq<KV>)
    ensures EnvText([]) == "" && EnvText([KV("", v)] + env) == EnvText(env)
    ensures k != "" ==>
      EnvText([KV(k, v)] + env) == k + "=" + (if NeedsQuotes(v) then "\"" + MapChars(Shown, v) + "\"" else v) + "\n" + EnvText(env)
  {
    assert ([KV("", v)] + env)[1..] == env && ([KV(k, v)] + env)[1..] == env;
    QuotesAre(v);
    ShownIs(v);
  }

  predicate NeedsQuotes(v: string) { exists i :: 0 <= i < |v| && v[i] in {' ', '\t', '#', '"', '\'', '$', '\\', '\n'} }

  function Shown(c: char): string {
    if c == '$' then "$$" else if c == '\n' then "\\n" else if c == '"' || c == '\\' then ['\\', c] else [c]
  }

  lemma QuotesAre(v: string)
    ensures NeedsQuotes(v) <==> NeedsQuote(v)
  {
    assert forall c: char :: c in " \t#\"'$\\\n" <==> c in {' ', '\t', '#', '"', '\'', '$', '\\', '\n'};
  }

  lemma {:induction false} ShownIs(v: string)
    ensures MapChars(Shown, v) == MapChars(Escape, v)
  {
    if v != "" {
      ShownIs(v[1..]);
      assert Shown(v[0]) == Escape(v[0]);
    }
  }
}

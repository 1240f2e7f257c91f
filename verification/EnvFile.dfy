/** The `.env` writer of the git deploys (gitdeploy/deploy.go) against the repository's own `.env`
    reader (github/parse.go), with the interpolation that Compose applies to the values on top. */
module EnvFile {
  import opened Wrappers
  import opened Strings
  import I = Interpolate

  datatype KV = KV(k: string, v: string)
  datatype Parsed = Parsed(value: string, comment: string)
  datatype EnvVar = EnvVar(key: string, value: string, comment: string)

  // ---------------------------------------------------------------- the writer

  predicate NeedsQuote(v: string) {
    ContainsAny(v, " \t#\"'$\\\n")
  }

  function Escape(c: char): string {
    if c == '\\' then "\\\\" else if c == '"' then "\\\"" else if c == '\n' then "\\n"
    else if c == '$' then "$$" else [c]
  }

  function Quote(v: string): string {
    if v == "" || !NeedsQuote(v) then v else "\"" + MapChars(Escape, v) + "\""
  }

  function EnvLine(kv: KV): string { kv.k + "=" + Quote(kv.v) }

  function EnvText(env: seq<KV>): string {
    if env == [] then ""
    else if env[0].k == "" then EnvText(env[1..])
    else EnvLine(env[0]) + "\n" + EnvText(env[1..])
  }

  /** Appending one entry at a time, as the builder does, gives the same text. */
  lemma {:induction false} EnvTextAppend(a: seq<KV>, b: seq<KV>)
    ensures EnvText(a + b) == EnvText(a) + EnvText(b)
  {
    if a == [] {
      assert a + b == b;
    } else {
      assert (a + b)[1..] == a[1..] + b;
      EnvTextAppend(a[1..], b);
    }
  }

  /** envFile: renders variables as a .env file. */
  method WriteEnv(env: seq<KV>) returns (text: string)
    ensures text == EnvText(env)
  {
    text := "";
    for i := 0 to |env|
      invariant text == EnvText(env[..i])
    {
      var kv := env[i];
      assert env[..i + 1] == env[..i] + [kv];
      EnvTextAppend(env[..i], [kv]);
      if kv.k == "" {
        continue;
      }
      text := text + (kv.k + "=" + Quote(kv.v) + "\n");
      assert EnvText([kv]) == EnvLine(kv) + "\n";
    }
    assert env[..|env|] == env;
  }

  // ---------------------------------------------------------------- the reader of one value

  function Unescaped(c: char): char {
    if c == 'n' then '\n' else if c == 't' then '\t' else c
  }

  /** What an opening quote q is followed by: the content up to the closing quote and the text behind
      it, or None when the quote is never closed. */
  function ReadQuoted(s: string, q: char): Option<Parsed>
    decreases |s|
  {
    if s == "" then None
    else if q == '"' && s[0] == '\\' && |s| > 1 then Put(Unescaped(s[1]), ReadQuoted(s[2..], q))
    else if s[0] == q then Some(Parsed("", s[1..]))
    else Put(s[0], ReadQuoted(s[1..], q))
  }

  function Put(c: char, p: Option<Parsed>): Option<Parsed> {
    match p
    case None => None
    case Some(v) => Some(Parsed([c] + v.value, v.comment))
  }

  function TrimHashes(s: string): string {
    if s != "" && s[0] == '#' then TrimHashes(s[1..]) else s
  }

  function CommentText(s: string): string { TrimSpace(TrimHashes(s)) }

  predicate CommentStart(s: string, i: nat) {
    0 < i < |s| && s[i] == '#' && (s[i - 1] == ' ' || s[i - 1] == '\t')
  }

  /** The first place from i on where an inline comment starts, |s| if there is none. */
  function CommentFrom(s: string, i: nat): (k: nat)
    requires 0 < i <= |s|
    ensures i <= k <= |s|
    ensures k < |s| ==> CommentStart(s, k)
    ensures forall j :: i <= j < k ==> !CommentStart(s, j)
    decreases |s| - i
  {
    if i == |s| || CommentStart(s, i) then i else CommentFrom(s, i + 1)
  }

  function EnvValue(s: string): Parsed {
    if s == "" then Parsed("", "")
    else if s[0] in "\"'`" then
      match ReadQuoted(s[1..], s[0])
      case None => Parsed(TrimSpace(s), "")
      case Some(p) =>
        var rest := TrimSpace(p.comment);
        Parsed(p.value, if HasPrefix(rest, "#") then CommentText(rest) else "")
    else if s[0] == '#' then Parsed("", CommentText(s))
    else
      var k := CommentFrom(s, 1);
      if k < |s| then Parsed(TrimSpace(s[..k]), CommentText(s[k..])) else Parsed(s, "")
  }

  /** parseEnvValue: the value and any inline comment. */
  method ParseEnvValue(s: string) returns (value: string, comment: string)
    ensures Parsed(value, comment) == EnvValue(s)
  {
    if s == "" {
      return "", "";
    }
    var q := s[0];
    if q == '"' || q == '\'' || q == '`' {
      var sb := "";
      var i := 1;
      var closed := false;
      PrependNothing(ReadQuoted(s[1..], q));
      while i < |s|
        invariant 1 <= i <= |s|
        invariant ReadQuoted(s[1..], q) == Prepend(sb, ReadQuoted(s[i..], q))
      {
        var ch := s[i];
        if q == '"' && ch == '\\' && i + 1 < |s| {
          PrependPut(sb, Unescaped(s[i + 1]), ReadQuoted(s[i + 2..], q));
          assert s[i..][2..] == s[i + 2..];
          i := i + 1;
          if s[i] == 'n' {
            sb := sb + ['\n'];
          } else if s[i] == 't' {
            sb := sb + ['\t'];
          } else {
            sb := sb + [s[i]];
          }
          i := i + 1;
          continue;
        }
        if ch == q {
          closed := true;
          break;
        }
        PrependPut(sb, ch, ReadQuoted(s[i + 1..], q));
        assert s[i..][1..] == s[i + 1..];
        sb := sb + [ch];
        i := i + 1;
      }
      if !closed {
        return TrimSpace(s), "";
      }
      assert s[i..][1..] == s[i + 1..];
      assert sb + "" == sb;
      var rest := TrimSpace(s[i + 1..]);
      if HasPrefix(rest, "#") {
        return sb, CommentText(rest);
      }
      return sb, "";
    }
    if HasPrefix(s, "#") {
      return "", CommentText(s);
    }
    var i := 1;
    while i < |s|
      invariant 1 <= i <= |s|
      invariant CommentFrom(s, 1) == CommentFrom(s, i)
    {
      if s[i] == '#' && (s[i - 1] == ' ' || s[i - 1] == '\t') {
        return TrimSpace(s[..i]), CommentText(s[i..]);
      }
      i := i + 1;
    }
    return s, "";
  }

  ghost function Prepend(p: string, r: Option<Parsed>): Option<Parsed> {
    match r
    case None => None
    case Some(v) => Some(Parsed(p + v.value, v.comment))
  }

  lemma PrependNothing(r: Option<Parsed>)
    ensures Prepend("", r) == r
  {
    if r.Some? {
      assert "" + r.value.value == r.value.value;
    }
  }

  lemma PrependPut(p: string, c: char, r: Option<Parsed>)
    ensures Prepend(p, Put(c, r)) == Prepend(p + [c], r)
  {
    if r.Some? {
      assert p + ([c] + r.value.value) == p + [c] + r.value.value;
    }
  }

  // ---------------------------------------------------------------- one value there and back

  lemma ReadEscapedChar(c: char, tail: string)
    ensures ReadQuoted(Escape(c) + tail, '"') == Prepend(I.DoubleDollar(c), ReadQuoted(tail, '"'))
  {
    var s := Escape(c) + tail;
    var r := ReadQuoted(tail, '"');
    if c == '$' {
      assert s[1..] == ['$'] + tail && s[1..][1..] == tail;
      assert ReadQuoted(s, '"') == Put('$', ReadQuoted(s[1..], '"'));
      assert ReadQuoted(s[1..], '"') == Put('$', r);
      if r.Some? {
        assert ['$'] + (['$'] + r.value.value) == "$$" + r.value.value;
      }
    } else if c == '\\' || c == '"' || c == '\n' {
      assert s[2..] == tail;
    } else {
      assert s[1..] == tail;
    }
  }

  lemma {:induction false} ReadEscaped(v: string)
    ensures ReadQuoted(MapChars(Escape, v) + "\"", '"') == Some(Parsed(I.Doubled(v), ""))
  {
    if v == "" {
      assert MapChars(Escape, v) + "\"" == "\"" && "\""[1..] == "";
    } else {
      var tail := MapChars(Escape, v[1..]) + "\"";
      assert MapChars(Escape, v) + "\"" == Escape(v[0]) + tail;
      ReadEscapedChar(v[0], tail);
      ReadEscaped(v[1..]);
    }
  }

  /** Whatever a quoted value holds, the reader returns it with its dollar signs doubled. */
  lemma QuotedComesBack(v: string)
    requires NeedsQuote(v)
    ensures EnvValue(Quote(v)) == Parsed(I.Doubled(v), "")
    ensures Trimmed(Quote(v))
  {
    ReadEscaped(v);
    assert Quote(v)[1..] == MapChars(Escape, v) + "\"";
  }

  /** A value in backticks: the reader takes the backticks off. */
  predicate Backticked(v: string) {
    v != "" && v[0] == '`' && '`' in v[1..]
  }

  lemma {:induction false} ReadBackticks(s: string)
    ensures ReadQuoted(s, '`').Some? <==> '`' in s
    ensures ReadQuoted(s, '`').Some? ==> |ReadQuoted(s, '`').value.value| < |s|
    ensures ReadQuoted(s, '`').Some? ==> forall c :: c in ReadQuoted(s, '`').value.value ==> c in s
    ensures ReadQuoted(s, '`').Some? ==> forall c :: c in ReadQuoted(s, '`').value.comment ==> c in s
  {
    if s != "" {
      ReadBackticks(s[1..]);
    }
  }

  /** A bare value has nothing the reader acts on but a leading backtick. */
  lemma BareComesBack(v: string)
    requires v != "" && !NeedsQuote(v)
    ensures v[0] != '`' ==> EnvValue(v) == Parsed(v, "")
    ensures v[0] == '`' && !Backticked(v) ==> EnvValue(v) == Parsed(TrimSpace(v), "")
    ensures Backticked(v) ==> |EnvValue(v).value| < |v| && '$' !in EnvValue(v).value
  {
    assert v[0] !in "\"'#";
    if v[0] == '`' {
      ReadBackticks(v[1..]);
    } else {
      var k := CommentFrom(v, 1);
      assert k == |v|;
    }
  }

  /** A value as it is read from its line and used by Compose. */
  function ReadBack(line: string, env: I.Env): string {
    I.Interpolate(EnvValue(line).value, env)
  }

  lemma InterpolateKeeps(v: string, env: I.Env)
    requires '$' !in v
    ensures I.Interpolate(v, env) == v <==> '\0' !in v
  {
    I.ScanNoDollar(v, env);
    I.InterpolateExact(v, env);
  }

  lemma InterpolateDoubled(v: string, env: I.Env)
    ensures I.Interpolate(I.Doubled(v), env) == v <==> '\0' !in v
  {
    I.ScanDoubled(v, env);
    I.InterpolateExact(I.Doubled(v), env);
  }

  lemma {:induction false} ShorterAfterRead(v: string, env: I.Env)
    requires '$' !in v
    ensures |I.Interpolate(v, env)| <= |v|
  {
    I.ScanNoDollar(v, env);
    I.InterpolateIsScan(v, env);
    ShowLength(v);
  }

  lemma {:induction false} ShowLength(s: string)
    ensures |I.Show(s)| == |s|
  {
    if s != "" {
      ShowLength(s[1..]);
    }
  }

  lemma TrimStaysBare(v: string)
    requires !NeedsQuote(v)
    ensures !NeedsQuote(TrimSpace(v))
  {
    var t := TrimSpace(v);
    forall i | 0 <= i < |t| ensures t[i] !in " \t#\"'$\\\n" {
      TrimInside(v, t[i]);
    }
  }

  lemma TrimNoDollar(v: string)
    requires '$' !in v
    ensures '$' !in TrimSpace(v)
  {
    forall c | c in TrimSpace(v) ensures c in v {
      TrimInside(v, c);
    }
  }

  /** Written by quoteEnv, read by parseEnvValue and interpolated, a value comes back exactly when it has
      no NUL and is not a bare value that opens with a backtick and is either closed by a second one or
      has white space at an end. */
  lemma ValueRoundTrip(v: string, env: I.Env)
    ensures ReadBack(Quote(v), env) == v
       <==> '\0' !in v && !(v != "" && !NeedsQuote(v) && v[0] == '`' && ('`' in v[1..] || !Trimmed(v)))
  {
    if v == "" {
      InterpolateKeeps(v, env);
    } else if NeedsQuote(v) {
      QuotedComesBack(v);
      InterpolateDoubled(v, env);
    } else {
      BareComesBack(v);
      assert '$' !in v;
      if Backticked(v) {
        ShorterAfterRead(EnvValue(v).value, env);
      } else if v[0] == '`' {
        TrimSpaceFixes(v);
        TrimNoDollar(v);
        ShorterAfterRead(TrimSpace(v), env);
        InterpolateKeeps(v, env);
      } else {
        InterpolateKeeps(v, env);
      }
    }
  }

  // ---------------------------------------------------------------- the reader of a file

  predicate KeyStart(c: char) { 'A' <= c <= 'Z' || 'a' <= c <= 'z' || c == '_' }
  predicate KeyChar(c: char) { KeyStart(c) || '0' <= c <= '9' || c == '.' || c == '-' }

  predicate ValidKey(k: string) {
    k != "" && KeyStart(k[0]) && forall i :: 0 <= i < |k| ==> KeyChar(k[i])
  }

  /** A comment made only of separator characters. */
  predicate Decorative(s: string) {
    forall i :: 0 <= i < |s| ==> s[i] in "-=*#~_ "
  }

  /** Where the first '=' is, |s| if there is none. */
  function EqualsAt(s: string): (n: nat)
    ensures n <= |s|
    ensures n < |s| ==> s[n] == '='
    ensures '=' !in s[..n]
  {
    if s == "" || s[0] == '=' then 0 else 1 + EqualsAt(s[1..])
  }

  datatype Line = Blank | Comment(text: string) | Other | Entry(key: string, value: string, inline: string)

  /** What one line of a .env file is. */
  function ReadLine(raw: string): Line {
    var line := TrimSpace(raw);
    if line == "" then Blank
    else if HasPrefix(line, "#") then Comment(CommentText(line))
    else
      var body := TrimSpace(TrimPrefix(line, "export "));
      var n := EqualsAt(body);
      var key := TrimSpace(body[..n]);
      if n == |body| || !ValidKey(key) then Other
      else
        var p := EnvValue(TrimSpace(body[n + 1..]));
        Entry(key, p.value, p.comment)
  }

  function IndexOf(out: seq<EnvVar>, key: string): (n: nat)
    ensures n <= |out|
    ensures n < |out| ==> out[n].key == key
    ensures forall i :: 0 <= i < n ==> out[i].key != key
  {
    if out == [] || out[0].key == key then 0 else 1 + IndexOf(out[1..], key)
  }

  /** Duplicate keys keep their first position and last value. */
  function Place(out: seq<EnvVar>, v: EnvVar): seq<EnvVar> {
    var n := IndexOf(out, v.key);
    if n < |out| then out[n := v] else out + [v]
  }

  function WithInline(pending: seq<string>, inline: string): seq<string> {
    if inline != "" then pending + [inline] else pending
  }

  function ReadLines(lines: seq<string>, pending: seq<string>, out: seq<EnvVar>): seq<EnvVar>
    decreases |lines|
  {
    if lines == [] then out
    else match ReadLine(lines[0])
      case Blank => ReadLines(lines[1..], [], out)
      case Comment(c) =>
        ReadLines(lines[1..], if c != "" && !Decorative(c) then pending + [c] else pending, out)
      case Other => ReadLines(lines[1..], [], out)
      case Entry(k, v, inline) =>
        ReadLines(lines[1..], [], Place(out, EnvVar(k, v, Join(WithInline(pending, inline), " "))))
  }

  const BOM: string := "\U{FEFF}"

  function Lines(text: string): seq<string> {
    Split(TrimPrefix(ReplaceAll(text, "\r\n", "\n"), BOM), '\n')
  }

  function ReadEnv(text: string): seq<EnvVar> {
    ReadLines(Lines(text), [], [])
  }

  /** ParseEnvExample, without the placeholder test. */
  method ParseEnvExample(b: string) returns (out: seq<EnvVar>)
    ensures out == ReadEnv(b)
  {
    out := [];
    var index: map<string, nat> := map[];
    var pending: seq<string> := [];
    var text := ReplaceAll(b, "\r\n", "\n");
    text := TrimPrefix(text, BOM);
    var lines := Split(text, '\n');
    for n := 0 to |lines|
      invariant ReadLines(lines, [], []) == ReadLines(lines[n..], pending, out)
      invariant Indexed(index, out)
    {
      var raw := lines[n];
      assert lines[n..][1..] == lines[n + 1..];
      var line := TrimSpace(raw);
      if line == "" {
        pending := [];
        continue;
      }
      if HasPrefix(line, "#") {
        var c := CommentText(line);
        if c != "" && !Decorative(c) {
          pending := pending + [c];
        }
        continue;
      }
      line := TrimSpace(TrimPrefix(line, "export "));
      var eq := EqualsAt(line);
      var key := TrimSpace(line[..eq]);
      if eq == |line| || !ValidKey(key) {
        pending := [];
        continue;
      }
      var value, inline := ParseEnvValue(TrimSpace(line[eq + 1..]));
      var comments := pending;
      if inline != "" {
        comments := comments + [inline];
      }
      var v := EnvVar(key, value, Join(comments, " "));
      PlaceAtIndex(index, out, v);
      assert ReadLine(raw) == Entry(key, value, inline);
      if key in index {
        out := out[index[key] := v];
      } else {
        index := index[key := |out|];
        out := out + [v];
      }
      pending := [];
    }
    assert lines[|lines|..] == [];
  }

  lemma IndexOfIs(out: seq<EnvVar>, key: string, n: nat)
    requires n <= |out|
    requires n < |out| ==> out[n].key == key
    requires forall i :: 0 <= i < n ==> out[i].key != key
    ensures IndexOf(out, key) == n
  {
  }

  /** The index the reader keeps: where every key of the list is. */
  ghost predicate Indexed(index: map<string, nat>, out: seq<EnvVar>) {
    && (forall k :: k in index ==> index[k] < |out| && out[index[k]].key == k)
    && (forall i :: 0 <= i < |out| ==> out[i].key in index && index[out[i].key] == i)
  }

  lemma PlaceAtIndex(index: map<string, nat>, out: seq<EnvVar>, v: EnvVar)
    requires Indexed(index, out)
    ensures v.key in index ==> Place(out, v) == out[index[v.key] := v] && Indexed(index, Place(out, v))
    ensures v.key !in index ==> Place(out, v) == out + [v] && Indexed(index[v.key := |out|], Place(out, v))
  {
    IndexOfIs(out, v.key, if v.key in index then index[v.key] else |out|);
  }

  // ---------------------------------------------------------------- a whole file there and back

  /** Trimming the right end first changes nothing. */
  lemma {:induction false} TrimRightFirst(w: string)
    ensures TrimSpace(TrimRight(w)) == TrimSpace(w)
  {
    if w != "" && IsSpace(w[|w| - 1]) {
      TrimRightFirst(w[..|w| - 1]);
      assert w == w[..|w| - 1] + [w[|w| - 1]];
      TrimLeftSnoc(w[..|w| - 1], w[|w| - 1]);
    }
  }

  lemma {:induction false} TrimRightAfter(p: string, w: string)
    requires p != "" && !IsSpace(p[|p| - 1])
    ensures TrimRight(p + w) == p + TrimRight(w)
  {
    if w == "" {
      assert p + w == p;
    } else if IsSpace(w[|w| - 1]) {
      assert (p + w)[..|p + w| - 1] == p + w[..|w| - 1];
      TrimRightAfter(p, w[..|w| - 1]);
    }
  }

  lemma KeyIsPlain(k: string)
    requires ValidKey(k)
    ensures forall c :: c in k ==> !IsSpace(c) && c != '=' && c != '#' && c != '\n' && c != '\r'
    ensures Trimmed(k)
  {
  }

  lemma {:induction false} EqualsAfter(k: string, w: string)
    requires '=' !in k
    ensures EqualsAt(k + "=" + w) == |k|
  {
    if k != "" {
      assert (k + "=" + w)[1..] == k[1..] + "=" + w;
      EqualsAfter(k[1..], w);
    }
  }

  lemma NoExport(k: string, w: string)
    requires ' ' !in k
    ensures !HasPrefix(k + "=" + w, "export ")
  {
    var e, b := "export ", k + "=" + w;
    assert forall i :: 0 <= i < 7 ==> e[i] != '=';
    assert |k| > 6 ==> b[6] == k[6];
    assert |k| <= 6 ==> b[|k|] == '=';
    assert e[6] == ' ';
  }

  /** A line `key=w` is read as that key with the value of w, trimmed. */
  lemma ReadKeyLine(k: string, w: string)
    requires ValidKey(k)
    ensures ReadLine(k + "=" + w) == EntryOf(k, w)
  {
    KeyIsPlain(k);
    var line := k + "=" + w;
    assert TrimLeft(line) == line;
    TrimRightAfter(k + "=", w);
    var body := k + "=" + TrimRight(w);
    assert TrimSpace(line) == body;
    assert body[0] == k[0];
    assert !HasPrefix(body, "#");
    NoExport(k, TrimRight(w));
    TrimSpaceFixes(body);
    TrimRightBounds(w);
    assert Trimmed(body);
    EqualsAfter(k, TrimRight(w));
    assert body[..|k|] == k && body[|k| + 1..] == TrimRight(w);
    TrimSpaceFixes(k);
    TrimRightFirst(w);
  }

  /** A carriage return at the end of a line belongs to the line break. */
  function DropCR(l: string): string {
    if l != "" && l[|l| - 1] == '\r' then l[..|l| - 1] else l
  }

  lemma {:induction false} ReplaceBreaks(l: string, rest: string)
    requires '\n' !in l
    ensures ReplaceAll(l + "\n" + rest, "\r\n", "\n") == DropCR(l) + "\n" + ReplaceAll(rest, "\r\n", "\n")
  {
    var s := l + "\n" + rest;
    if l == "" {
      assert s[0] == '\n' && !("\r\n" <= s) && s[1..] == rest;
    } else if l == "\r" {
      assert s[..2] == "\r\n" && s[2..] == rest;
    } else {
      assert s[1..] == l[1..] + "\n" + rest;
      assert !("\r\n" <= s) by { assert s[1] == if |l| > 1 then l[1] else '\n'; }
      ReplaceBreaks(l[1..], rest);
      assert DropCR(l) == [l[0]] + DropCR(l[1..]);
    }
  }

  lemma {:induction false} EscapedPlain(v: string)
    ensures '\n' !in MapChars(Escape, v)
  {
    if v != "" {
      EscapedPlain(v[1..]);
      assert '\n' !in Escape(v[0]);
    }
  }

  lemma LineIsOneLine(kv: KV)
    requires ValidKey(kv.k)
    ensures '\n' !in EnvLine(kv)
  {
    KeyIsPlain(kv.k);
    EscapedPlain(kv.v);
  }

  function EntryOf(k: string, w: string): Line {
    Entry(k, EnvValue(TrimSpace(w)).value, EnvValue(TrimSpace(w)).comment)
  }

  lemma DropCRKeepsEntry(k: string, w: string)
    requires ValidKey(k)
    ensures DropCR(k + "=" + w) == k + "=" + DropCR(w)
    ensures ReadLine(k + "=" + DropCR(w)) == EntryOf(k, w)
  {
    ReadKeyLine(k, DropCR(w));
    if w != "" && w[|w| - 1] == '\r' {
      assert w == DropCR(w) + ['\r'];
      TrimLeftSnoc(DropCR(w), '\r');
    }
  }

  lemma TrimQuote(v: string)
    ensures EnvValue(TrimSpace(Quote(v))).comment == ""
    ensures NeedsQuote(v) ==> EnvValue(TrimSpace(Quote(v))).value == I.Doubled(v)
  {
    if NeedsQuote(v) {
      QuotedComesBack(v);
      TrimSpaceFixes(Quote(v));
    } else {
      var t := TrimSpace(v);
      if t != "" {
        TrimStaysBare(v);
        BareComesBack(t);
        if Backticked(t) {
          ReadBackticks(t[1..]);
          NoHash(t);
        }
      }
    }
  }

  lemma NoHash(t: string)
    requires Backticked(t) && !NeedsQuote(t)
    ensures EnvValue(t).comment == ""
  {
    ReadBackticks(t[1..]);
    var rest := ReadQuoted(t[1..], '`').value.comment;
    if HasPrefix(TrimSpace(rest), "#") {
      assert TrimSpace(rest)[0] == '#';
      TrimInside(rest, '#');
    }
  }

  /** The variable list a written file is read as. */
  function AsRead(kv: KV): EnvVar {
    EnvVar(kv.k, EnvValue(TrimSpace(Quote(kv.v))).value, "")
  }

  function AllAsRead(env: seq<KV>): seq<EnvVar> {
    seq(|env|, i requires 0 <= i < |env| => AsRead(env[i]))
  }

  ghost predicate GoodKeys(env: seq<KV>) {
    && (forall i :: 0 <= i < |env| ==> ValidKey(env[i].k))
    && (forall i, j :: 0 <= i < j < |env| ==> env[i].k != env[j].k)
  }

  function FileLines(env: seq<KV>): seq<string> {
    if env == [] then [""] else [DropCR(EnvLine(env[0]))] + FileLines(env[1..])
  }

  lemma {:induction false} SplitFile(env: seq<KV>)
    requires forall i :: 0 <= i < |env| ==> ValidKey(env[i].k)
    ensures Split(ReplaceAll(EnvText(env), "\r\n", "\n"), '\n') == FileLines(env)
  {
    if env != [] {
      SplitFile(env[1..]);
      LineIsOneLine(env[0]);
      var l := EnvLine(env[0]);
      var rest := ReplaceAll(EnvText(env[1..]), "\r\n", "\n");
      FileStep(env);
      SplitAt(DropCR(l), '\n', rest);
    }
  }

  lemma FileStep(env: seq<KV>)
    requires env != [] && ValidKey(env[0].k)
    ensures ReplaceAll(EnvText(env), "\r\n", "\n")
         == DropCR(EnvLine(env[0])) + (['\n'] + ReplaceAll(EnvText(env[1..]), "\r\n", "\n"))
  {
    hide EnvLine, DropCR, ReplaceAll;
    LineIsOneLine(env[0]);
    ReplaceBreaks(EnvLine(env[0]), EnvText(env[1..]));
    var rest := ReplaceAll(EnvText(env[1..]), "\r\n", "\n");
    assert DropCR(EnvLine(env[0])) + "\n" + rest == DropCR(EnvLine(env[0])) + (['\n'] + rest);
  }

  lemma BlankLine()
    ensures ReadLine("") == Blank
  {
    assert TrimSpace("") == "";
  }

  lemma {:induction false} ReadFileLines(env: seq<KV>, out: seq<EnvVar>)
    requires GoodKeys(env)
    requires forall i, e :: 0 <= i < |env| && e in out ==> e.key != env[i].k
    ensures ReadLines(FileLines(env), [], out) == out + AllAsRead(env)
    decreases |env|
  {
    hide DropCR, EnvValue, Quote, ReadLine, TrimSpace;
    BlankLine();
    if env == [] {
      assert ReadLines([""], [], out) == ReadLines([], [], out) by { assert [""][1..] == []; }
      assert out + AllAsRead(env) == out;
    } else {
      DropCRKeepsEntry(env[0].k, Quote(env[0].v));
      TrimQuote(env[0].v);
      var v := AsRead(env[0]);
      assert IndexOf(out, v.key) == |out|;
      assert GoodKeys(env[1..]);
      ReadFileLines(env[1..], out + [v]);
      assert FileLines(env)[1..] == FileLines(env[1..]);
      assert out + [v] + AllAsRead(env[1..]) == out + AllAsRead(env);
    }
  }

  /** Reading a written file gives exactly its variables, in order, each with the value its line holds. */
  lemma FileComesBack(env: seq<KV>)
    requires GoodKeys(env)
    ensures ReadEnv(EnvText(env)) == AllAsRead(env)
  {
    SplitFile(env);
    var text := ReplaceAll(EnvText(env), "\r\n", "\n");
    if env == [] {
      assert text == "";
    } else {
      FileStep(env);
      DropCRKeepsEntry(env[0].k, Quote(env[0].v));
      assert text[0] == env[0].k[0];
      assert !(BOM <= text) by { assert BOM[0] == '\U{FEFF}'; }
    }
    assert Lines(EnvText(env)) == FileLines(env);
    ReadFileLines(env, []);
  }

  /** In a file the line is trimmed as well, so a bare value must also have no white space at its ends. */
  predicate Survives(v: string) {
    '\0' !in v && (NeedsQuote(v) || (Trimmed(v) && !Backticked(v)))
  }

  lemma FileValueRoundTrip(v: string, env: I.Env)
    ensures I.Interpolate(EnvValue(TrimSpace(Quote(v))).value, env) == v <==> Survives(v)
  {
    if NeedsQuote(v) {
      TrimQuote(v);
      InterpolateDoubled(v, env);
    } else {
      TrimSpaceFixes(v);
      var t := TrimSpace(v);
      TrimStaysBare(v);
      assert '$' !in v && '$' !in t;
      if t == "" {
        InterpolateKeeps(t, env);
        ShorterAfterRead(t, env);
      } else {
        BareComesBack(t);
        TrimSpaceFixes(t);
        ShorterAfterRead(EnvValue(t).value, env);
        InterpolateKeeps(v, env);
      }
    }
  }

  /** The whole file: every variable comes back with its value exactly when every value survives. */
  lemma FileRoundTrip(env: seq<KV>, subst: I.Env)
    requires GoodKeys(env)
    ensures var out := ReadEnv(EnvText(env));
            && |out| == |env|
            && (forall i :: 0 <= i < |env| ==> out[i].key == env[i].k)
            && forall i :: 0 <= i < |env| ==>
                 (I.Interpolate(out[i].value, subst) == env[i].v <==> Survives(env[i].v))
  {
    FileComesBack(env);
    forall i | 0 <= i < |env|
      ensures I.Interpolate(AsRead(env[i]).value, subst) == env[i].v <==> Survives(env[i].v)
    {
      FileValueRoundTrip(env[i].v, subst);
    }
  }
}

/** Shell command lines the server builds, read back by the word rules of POSIX.1-2017 Shell Command
    Language: quoting (sections 2.2.1 to 2.2.3), token recognition (2.3) and quote removal (2.6.7).

    `Lex` refuses (None) whatever it would have to expand or does not know: an unquoted `$`, backtick,
    glob, tilde, brace, comment, redirection or operator other than `&&`. */
module Shell {
  import opened Wrappers
  import opened Strings

  datatype Token = Word(text: string) | AndIf

  type Tokens = Option<seq<Token>>

  /** Characters that stand for themselves outside quotes, wherever they are in a word. */
  predicate Plain(c: char) {
    'a' <= c <= 'z' || 'A' <= c <= 'Z' || '0' <= c <= '9' || c in "-_./:=@,+%"
  }

  function Before(t: seq<Token>, r: Tokens): Tokens {
    match r
    case None => None
    case Some(rest) => Some(t + rest)
  }

  /** The word in progress, if there is one, as a token. */
  function Finish(cur: Option<string>): seq<Token> {
    match cur
    case None => []
    case Some(w) => [Word(w)]
  }

  function Extend(cur: Option<string>, t: string): Option<string> {
    match cur
    case None => Some(t)
    case Some(w) => Some(w + t)
  }

  /** Outside quotes. A quoted character or an empty pair of quotes starts or continues a word. */
  function Lex(s: string, cur: Option<string>): Tokens
    decreases |s|
  {
    if s == "" then Some(Finish(cur))
    else
      var c, t := s[0], s[1..];
      if c == ' ' || c == '\t' then Before(Finish(cur), Lex(t, None))
      else if c == '\'' then InSingle(t, Extend(cur, ""))
      else if c == '"' then InDouble(t, Extend(cur, ""))
      else if c == '\\' then
        if t == "" then None
        else if t[0] == '\n' then Lex(t[1..], cur)
        else Lex(t[1..], Extend(cur, [t[0]]))
      else if c == '&' && t != "" && t[0] == '&' then Before(Finish(cur) + [AndIf], Lex(t[1..], None))
      else if Plain(c) then Lex(t, Extend(cur, [c]))
      else None
  }

  /** Inside single quotes every character is itself (2.2.2). */
  function InSingle(s: string, cur: Option<string>): Tokens
    decreases |s|
  {
    if s == "" then None
    else if s[0] == '\'' then Lex(s[1..], cur)
    else InSingle(s[1..], Extend(cur, [s[0]]))
  }

  /** Inside double quotes a backslash quotes only `$`, backtick, `"`, `\` and newline (2.2.3). */
  function InDouble(s: string, cur: Option<string>): Tokens
    decreases |s|
  {
    if s == "" then None
    else
      var c, t := s[0], s[1..];
      if c == '"' then Lex(t, cur)
      else if c == '$' || c == '`' then None
      else if c == '\\' && t != "" && t[0] in "$`\"\\" then InDouble(t[1..], Extend(cur, [t[0]]))
      else if c == '\\' && t != "" && t[0] == '\n' then InDouble(t[1..], cur)
      else InDouble(t, Extend(cur, [c]))
  }

  /** The tokens of a whole command line. */
  function Tokenize(cmd: string): Tokens { Lex(cmd, None) }

  function Words(ws: seq<string>): seq<Token> {
    seq(|ws|, i requires 0 <= i < |ws| => Word(ws[i]))
  }

  // ---------------------------------------------------------------- the two quoting functions

  /** util.Shq. */
  function Shq(s: string): string { "'" + ReplaceAll(s, "'", "'\\''") + "'" }

  /** machines.shQuote. */
  function ShQuote(s: string): string { "'" + ReplaceAll(s, "'", "'\"'\"'") + "'" }

  lemma ReplaceQuote(s: string, by_: string)
    requires s != ""
    ensures s[0] == '\'' ==> ReplaceAll(s, "'", by_) == by_ + ReplaceAll(s[1..], "'", by_)
    ensures s[0] != '\'' ==> ReplaceAll(s, "'", by_) == [s[0]] + ReplaceAll(s[1..], "'", by_)
  {
    if s[0] == '\'' {
      assert s[..1] == "'";
    }
  }

  lemma ExtendTwice(cur: Option<string>, a: string, b: string)
    ensures Extend(Extend(cur, a), b) == Extend(cur, a + b)
  {
    match cur
    case None =>
    case Some(w) => assert w + a + b == w + (a + b);
  }

  lemma LexStep(c: char, t: string, cur: Option<string>)
    ensures c == ' ' ==> Lex([c] + t, cur) == Before(Finish(cur), Lex(t, None))
    ensures c == '\'' ==> Lex([c] + t, cur) == InSingle(t, Extend(cur, ""))
    ensures c == '"' ==> Lex([c] + t, cur) == InDouble(t, Extend(cur, ""))
    ensures Plain(c) ==> Lex([c] + t, cur) == Lex(t, Extend(cur, [c]))
  {
    assert ([c] + t)[1..] == t;
  }

  lemma EscapeStep(c: char, t: string, cur: Option<string>)
    requires c != '\n'
    ensures Lex(['\\', c] + t, cur) == Lex(t, Extend(cur, [c]))
  {
    var s := ['\\', c] + t;
    assert s[1..] == [c] + t && s[1..][1..] == t;
  }

  lemma SingleStep(c: char, t: string, cur: Option<string>)
    ensures InSingle([c] + t, cur) == if c == '\'' then Lex(t, cur) else InSingle(t, Extend(cur, [c]))
  {
    assert ([c] + t)[1..] == t;
  }

  lemma DoubleStep(c: char, t: string, cur: Option<string>)
    ensures c == '"' ==> InDouble([c] + t, cur) == Lex(t, cur)
    ensures c !in "\"$`\\" ==> InDouble([c] + t, cur) == InDouble(t, Extend(cur, [c]))
  {
    assert ([c] + t)[1..] == t;
  }

  lemma ExtendEmpty(cur: Option<string>, a: string)
    ensures Extend(Extend(cur, ""), a) == Extend(cur, a)
    ensures Extend(Extend(cur, a), "") == Extend(cur, a)
  {
    ExtendTwice(cur, "", a);
    ExtendTwice(cur, a, "");
    assert "" + a == a && a + "" == a;
  }

  /** util.Shq's way around a quote: out of the quotes, an escaped quote, into quotes again. */
  lemma AroundByEscape(rest: string, cur: Option<string>)
    ensures InSingle("'\\''" + rest, Extend(cur, "")) == InSingle(rest, Extend(cur, "'"))
  {
    var c := Extend(cur, "");
    assert "'\\''" + rest == ['\''] + (['\\', '\''] + (['\''] + rest));
    SingleStep('\'', ['\\', '\''] + (['\''] + rest), c);
    EscapeStep('\'', ['\''] + rest, c);
    LexStep('\'', rest, Extend(c, "'"));
    ExtendEmpty(cur, "'");
  }

  /** shQuote's way around a quote: out of the quotes, a double-quoted quote, into quotes again. */
  lemma AroundByDouble(rest: string, cur: Option<string>)
    ensures InSingle("'\"'\"'" + rest, Extend(cur, "")) == InSingle(rest, Extend(cur, "'"))
  {
    var c := Extend(cur, "");
    var t3 := ['\''] + rest;
    var t2 := ['"'] + t3;
    var t1 := ['\''] + t2;
    assert "'\"'\"'" + rest == ['\''] + (['"'] + t1);
    SingleStep('\'', ['"'] + t1, c);
    LexStep('"', t1, c);
    DoubleStep('\'', t2, Extend(c, ""));
    DoubleStep('"', t3, Extend(Extend(c, ""), "'"));
    LexStep('\'', rest, Extend(Extend(c, ""), "'"));
    ExtendEmpty(cur, "");
    ExtendEmpty(cur, "'");
  }

  function Around(c: char, q: string): string { if c == '\'' then q else [c] }

  lemma AroundIsLiteral(c: char, q: string, tail: string, cur: Option<string>)
    requires q == "'\\''" || q == "'\"'\"'"
    ensures InSingle(Around(c, q) + tail, Extend(cur, "")) == InSingle(tail, Extend(Extend(cur, [c]), ""))
  {
    ExtendEmpty(cur, [c]);
    if c == '\'' {
      AroundByEscape(tail, cur);
      AroundByDouble(tail, cur);
      assert [c] == "'";
    } else {
      SingleStep(c, tail, Extend(cur, ""));
    }
  }

  lemma {:induction false} QuotedBody(s: string, q: string, rest: string, cur: Option<string>)
    requires q == "'\\''" || q == "'\"'\"'"
    ensures InSingle(ReplaceAll(s, "'", q) + (['\''] + rest), Extend(cur, "")) == Lex(rest, Extend(cur, s))
  {
    if s == "" {
      assert ReplaceAll(s, "'", q) + (['\''] + rest) == ['\''] + rest;
      SingleStep('\'', rest, Extend(cur, ""));
    } else {
      ReplaceQuote(s, q);
      var body := ReplaceAll(s[1..], "'", q);
      var tail := body + (['\''] + rest);
      assert Around(s[0], q) + body + (['\''] + rest) == Around(s[0], q) + tail;
      AroundIsLiteral(s[0], q, tail, cur);
      QuotedBody(s[1..], q, rest, Extend(cur, [s[0]]));
      ExtendTwice(cur, [s[0]], s[1..]);
      assert [s[0]] + s[1..] == s;
    }
  }

  /** Wherever it stands, a quoted text adds exactly itself to the word in progress. */
  lemma QuotedIsLiteral(s: string, rest: string, cur: Option<string>)
    ensures Lex(Shq(s) + rest, cur) == Lex(rest, Extend(cur, s))
    ensures Lex(ShQuote(s) + rest, cur) == Lex(rest, Extend(cur, s))
  {
    QuotedBody(s, "'\\''", rest, cur);
    QuotedBody(s, "'\"'\"'", rest, cur);
    var a := ReplaceAll(s, "'", "'\\''") + (['\''] + rest);
    var b := ReplaceAll(s, "'", "'\"'\"'") + (['\''] + rest);
    assert Shq(s) + rest == ['\''] + a && ShQuote(s) + rest == ['\''] + b;
    LexStep('\'', a, cur);
    LexStep('\'', b, cur);
  }

  /** Every string, quoted by either function, is one shell word: the string itself. */
  lemma QuotedIsOneWord(s: string)
    ensures Tokenize(Shq(s)) == Some([Word(s)])
    ensures Tokenize(ShQuote(s)) == Some([Word(s)])
  {
    QuotedIsLiteral(s, "", None);
    assert Shq(s) + "" == Shq(s) && ShQuote(s) + "" == ShQuote(s);
  }

  // ---------------------------------------------------------------- words without quotes

  predicate AllPlain(s: string) { forall i :: 0 <= i < |s| ==> Plain(s[i]) }

  lemma {:induction false} PlainIsLiteral(s: string, rest: string, cur: Option<string>)
    requires AllPlain(s) && s != ""
    ensures Lex(s + rest, cur) == Lex(rest, Extend(cur, s))
  {
    assert s + rest == [s[0]] + (s[1..] + rest);
    LexStep(s[0], s[1..] + rest, cur);
    if |s| == 1 {
      assert s == [s[0]] && s[1..] + rest == rest;
    } else {
      PlainIsLiteral(s[1..], rest, Extend(cur, [s[0]]));
      ExtendTwice(cur, [s[0]], s[1..]);
      assert [s[0]] + s[1..] == s;
    }
  }

  /** shellArg: quotes a word only when the shell would otherwise mangle it. */
  function ShellArg(s: string): string {
    if s == "" then "''" else if AllPlain(s) then s else Shq(s)
  }

  lemma ArgIsLiteral(s: string, rest: string)
    ensures Lex(ShellArg(s) + rest, None) == Lex(rest, Some(s))
  {
    if s == "" {
      assert Shq("") == "''";
      QuotedIsLiteral("", rest, None);
    } else if AllPlain(s) {
      PlainIsLiteral(s, rest, None);
    } else {
      QuotedIsLiteral(s, rest, None);
    }
  }

  function Map(f: string -> string, ws: seq<string>): seq<string> {
    seq(|ws|, i requires 0 <= i < |ws| => f(ws[i]))
  }

  /** A text that reads as the one word `w` wherever a word may start. */
  ghost predicate Renders(text: string, w: string) {
    forall rest :: Lex(text + rest, None) == Lex(rest, Some(w))
  }

  /** Texts that render words, joined by spaces, read back as those words, whatever follows. */
  lemma {:induction false} JoinedThen(texts: seq<string>, ws: seq<string>, rest: string)
    requires |texts| == |ws| >= 1
    requires forall i :: 0 <= i < |ws| ==> Renders(texts[i], ws[i])
    ensures Lex(Join(texts, " ") + rest, None) == Before(Words(ws[..|ws| - 1]), Lex(rest, Some(ws[|ws| - 1])))
  {
    var r := Lex(rest, Some(ws[|ws| - 1]));
    if |ws| == 1 {
      assert Words(ws[..0]) == [];
      assert Before([], r) == r by { if r.Some? { assert [] + r.value == r.value; } }
    } else {
      var tail := Join(texts[1..], " ") + rest;
      assert Join(texts, " ") + rest == texts[0] + ([' '] + tail);
      assert Renders(texts[0], ws[0]);
      LexStep(' ', tail, Some(ws[0]));
      JoinedThen(texts[1..], ws[1..], rest);
      assert ws[1..][..|ws| - 2] == ws[1..|ws| - 1];
      BeforeTwice([Word(ws[0])], Words(ws[1..|ws| - 1]), r);
      assert Words(ws[..|ws| - 1]) == [Word(ws[0])] + Words(ws[1..|ws| - 1]);
    }
  }

  lemma LexEnd(w: string)
    ensures Lex("", Some(w)) == Some([Word(w)])
  {
  }

  lemma JoinedReadsBack(texts: seq<string>, ws: seq<string>)
    requires |texts| == |ws| >= 1
    requires forall i :: 0 <= i < |ws| ==> Renders(texts[i], ws[i])
    ensures Tokenize(Join(texts, " ")) == Some(Words(ws))
  {
    hide Lex, Renders, Join;
    LexEnd(ws[|ws| - 1]);
    JoinedThen(texts, ws, "");
    assert Join(texts, " ") + "" == Join(texts, " ");
    assert Words(ws) == Words(ws[..|ws| - 1]) + [Word(ws[|ws| - 1])];
  }

  lemma {:induction false} JoinAppend(a: seq<string>, b: seq<string>)
    requires |a| >= 1 && |b| >= 1
    ensures Join(a + b, " ") == Join(a, " ") + " " + Join(b, " ")
  {
    if |a| == 1 {
      assert a + b == [a[0]] + b && (a + b)[1..] == b;
    } else {
      assert (a + b)[1..] == a[1..] + b;
      JoinAppend(a[1..], b);
    }
  }

  lemma ArgsRender(ws: seq<string>)
    ensures forall i :: 0 <= i < |ws| ==> Renders(ShellArg(ws[i]), ws[i])
    ensures forall i :: 0 <= i < |ws| ==> Renders(Shq(ws[i]), ws[i])
    ensures forall i :: 0 <= i < |ws| ==> Renders(ShQuote(ws[i]), ws[i])
    ensures forall i :: 0 <= i < |ws| && ws[i] != "" && AllPlain(ws[i]) ==> Renders(ws[i], ws[i])
  {
    forall i, rest | 0 <= i < |ws|
      ensures Lex(ShellArg(ws[i]) + rest, None) == Lex(rest, Some(ws[i]))
      ensures Lex(Shq(ws[i]) + rest, None) == Lex(rest, Some(ws[i]))
      ensures Lex(ShQuote(ws[i]) + rest, None) == Lex(rest, Some(ws[i]))
      ensures ws[i] != "" && AllPlain(ws[i]) ==> Lex(ws[i] + rest, None) == Lex(rest, Some(ws[i]))
    {
      ArgIsLiteral(ws[i], rest);
      QuotedIsLiteral(ws[i], rest, None);
      if ws[i] != "" && AllPlain(ws[i]) {
        PlainIsLiteral(ws[i], rest, None);
      }
    }
  }

  /** Any argument list, rendered word by word with shellArg, reads back as exactly that list. */
  lemma ArgumentListReadsBack(args: seq<string>)
    requires args != []
    ensures Tokenize(Join(Map(ShellArg, args), " ")) == Some(Words(args))
  {
    ArgsRender(args);
    JoinedReadsBack(Map(ShellArg, args), args);
  }

  /** Two argument lists are never rendered as the same command line. */
  lemma RenderingIsInjective(a: seq<string>, b: seq<string>)
    requires a != [] && b != []
    requires Join(Map(ShellArg, a), " ") == Join(Map(ShellArg, b), " ")
    ensures a == b
  {
    ArgumentListReadsBack(a);
    ArgumentListReadsBack(b);
    assert Words(a) == Words(b);
    assert |a| == |b|;
    forall i | 0 <= i < |a| ensures a[i] == b[i] {
      assert Words(a)[i] == Words(b)[i];
    }
  }

  // ---------------------------------------------------------------- sudo

  /** withSudo: prefixes a command with sudo -n when the SSH user isn't root. */
  function WithSudo(cmd: string, root: bool): string {
    if root then cmd else "sudo -n sh -c " + ShQuote(cmd)
  }

  const APT: seq<string> := ["DEBIAN_FRONTEND=noninteractive", "apt-get", "install", "-y", "--only-upgrade",
                             "-o", "Dpkg::Options::=--force-confold"]

  const APT_TEXT: string :=
    "DEBIAN_FRONTEND=noninteractive" + " " + "apt-get" + " " + "install" + " " + "-y" + " " + "--only-upgrade"
    + " " + "-o" + " " + "Dpkg::Options::=--force-confold" + " "

  function AptCommand(names: seq<string>): string {
    APT_TEXT + Join(Map(ShQuote, names), " ")
  }

  /** A fixed list of plain words in front of rendered ones. */
  lemma PlainThen(head: seq<string>, texts: seq<string>, ws: seq<string>)
    requires head != [] && |texts| == |ws| >= 1
    requires forall i :: 0 <= i < |head| ==> head[i] != "" && AllPlain(head[i])
    requires forall i :: 0 <= i < |ws| ==> Renders(texts[i], ws[i])
    ensures Tokenize(Join(head, " ") + " " + Join(texts, " ")) == Some(Words(head + ws))
  {
    ArgsRender(head);
    JoinedReadsBack(head + texts, head + ws);
    JoinAppend(head, texts);
  }

  const SUDO: seq<string> := ["sudo", "-n", "sh", "-c"]

  lemma SudoPassesCommand(cmd: string)
    ensures Tokenize(WithSudo(cmd, false)) == Some(Words(SUDO + [cmd]))
  {
    ArgsRender([cmd]);
    assert [cmd][0] == cmd;
    PlainThen(SUDO, [ShQuote(cmd)], [cmd]);
    JoinFour("sudo", "-n", "sh", "-c");
    assert Join(SUDO, " ") + " " + Join([ShQuote(cmd)], " ") == WithSudo(cmd, false);
  }

  lemma JoinFour(a: string, b: string, c: string, d: string)
    ensures Join([a, b, c, d], " ") == a + " " + b + " " + c + " " + d
  {
    assert [a, b, c, d][1..] == [b, c, d] && [b, c, d][1..] == [c, d] && [c, d][1..] == [d];
    assert Join([c, d], " ") == c + " " + d;
    assert Join([b, c, d], " ") == b + " " + (c + " " + d);
  }

  lemma JoinThree(a: string, b: string, c: string)
    ensures Join([a, b, c], " ") == a + " " + b + " " + c
  {
    assert [a, b, c][1..] == [b, c] && [b, c][1..] == [c];
    assert Join([b, c], " ") == b + " " + c;
  }

  lemma JoinSeven(a: string, b: string, c: string, d: string, e: string, f: string, g: string)
    ensures Join([a, b, c, d, e, f, g], " ")
         == a + " " + b + " " + c + " " + d + " " + e + " " + f + " " + g
  {
    JoinFour(a, b, c, d);
    JoinThree(e, f, g);
    JoinAppend([a, b, c, d], [e, f, g]);
    assert [a, b, c, d, e, f, g] == [a, b, c, d] + [e, f, g];
    assert a + " " + b + " " + c + " " + d + " " + (e + " " + f + " " + g)
        == a + " " + b + " " + c + " " + d + " " + e + " " + f + " " + g;
  }

  lemma AptText()
    ensures Join(APT, " ") + " " == APT_TEXT
  {
    JoinSeven(APT[0], APT[1], APT[2], APT[3], APT[4], APT[5], APT[6]);
    assert APT == [APT[0], APT[1], APT[2], APT[3], APT[4], APT[5], APT[6]];
  }

  lemma LongWordsPlain()
    ensures AllPlain("DEBIAN_FRONTEND=noninteractive") && AllPlain("Dpkg::Options::=--force-confold")
  {
  }

  lemma AptPlain()
    ensures |APT| == 7 && forall i :: 0 <= i < 7 ==> APT[i] != "" && AllPlain(APT[i])
  {
    LongWordsPlain();
    assert AllPlain("--only-upgrade") && AllPlain("apt-get") && AllPlain("install") && AllPlain("-y") && AllPlain("-o");
    hide AllPlain;
  }

  /** Package names go through two shells verbatim: sudo's shell gets the command as one word, and that
      command is the apt-get call followed by exactly the names. */
  lemma SudoDeliversPackages(names: seq<string>)
    requires names != []
    ensures Tokenize(WithSudo(AptCommand(names), false)) == Some(Words(SUDO + [AptCommand(names)]))
    ensures Tokenize(AptCommand(names)) == Some(Words(APT + names))
  {
    SudoPassesCommand(AptCommand(names));
    ArgsRender(names);
    AptText();
    AptPlain();
    PlainThen(APT, Map(ShQuote, names), names);
    assert APT_TEXT + Join(Map(ShQuote, names), " ") == AptCommand(names);
  }

  // ---------------------------------------------------------------- compose files

  function FileNames(parts: seq<string>): seq<string> {
    if parts == [] then []
    else if TrimSpace(parts[0]) == "" then FileNames(parts[1..])
    else [TrimSpace(parts[0])] + FileNames(parts[1..])
  }

  function FileFlags(files: seq<string>): seq<string> {
    if files == [] then [] else ["-f", files[0]] + FileFlags(files[1..])
  }

  function FileArgsText(files: seq<string>): string {
    if files == [] then "" else " -f " + Shq(files[0]) + FileArgsText(files[1..])
  }

  lemma {:induction false} FileArgsAppend(a: seq<string>, f: string)
    ensures FileArgsText(a + [f]) == FileArgsText(a) + (" -f " + Shq(f))
  {
    if a == [] {
      assert [f][1..] == [];
      assert " -f " + Shq(f) + "" == " -f " + Shq(f);
    } else {
      assert (a + [f])[1..] == a[1..] + [f];
      FileArgsAppend(a[1..], f);
    }
  }

  /** ComposeFileArgs: renders " -f a -f b" from the config_files label. */
  method ComposeFileArgs(label_: string) returns (out: string)
    ensures out == FileArgsText(FileNames(Split(label_, ',')))
  {
    hide Shq, TrimSpace, Split;
    out := "";
    var parts := Split(label_, ',');
    ghost var files: seq<string> := [];
    for i := 0 to |parts|
      invariant files + FileNames(parts[i..]) == FileNames(parts)
      invariant out == FileArgsText(files)
    {
      var f := TrimSpace(parts[i]);
      assert parts[i..][1..] == parts[i + 1..];
      if f != "" {
        FileArgsAppend(files, f);
        assert files + FileNames(parts[i..]) == files + [f] + FileNames(parts[i + 1..]);
        out := out + (" -f " + Shq(f));
        files := files + [f];
      }
    }
    assert parts[|parts|..] == [];
    assert files + [] == files;
  }

  /** The files of the label are its parts between commas, trimmed, without the blank ones. */
  lemma FileNamesLaw(parts: seq<string>, part: string)
    ensures FileNames([]) == []
    ensures FileNames([part] + parts) == (if TrimSpace(part) == "" then [] else [TrimSpace(part)]) + FileNames(parts)
    ensures FileFlags([]) == [] && FileFlags([part] + parts) == ["-f", part] + FileFlags(parts)
  {
    assert ([part] + parts)[1..] == parts;
  }

  lemma FlagThen(w: string, f: string, tail: string)
    ensures Lex(" -f " + Shq(f) + tail, Some(w)) == Before([Word(w), Word("-f")], Lex(tail, Some(f)))
  {
    var t2 := Shq(f) + tail;
    var t1 := [' '] + t2;
    assert " -f " + Shq(f) + tail == [' '] + ("-f" + t1);
    LexStep(' ', "-f" + t1, Some(w));
    PlainIsLiteral("-f", t1, None);
    LexStep(' ', t2, Some("-f"));
    QuotedIsLiteral(f, tail, None);
    BeforeTwice([Word(w)], [Word("-f")], Lex(tail, Some(f)));
    assert [Word(w)] + [Word("-f")] == [Word(w), Word("-f")];
  }

  /** Behind any command word w, the arguments read back as w followed by one -f per file of the label. */
  lemma {:induction false} FileArgsReadBack(files: seq<string>, w: string)
    ensures Lex(FileArgsText(files), Some(w)) == Some(Words([w] + FileFlags(files)))
  {
    hide Lex, Shq, Words;
    LexEnd(w);
    if files == [] {
      assert [w] + [] == [w];
      OneWord(w);
    } else {
      var f := files[0];
      FlagThen(w, f, FileArgsText(files[1..]));
      FileArgsReadBack(files[1..], f);
      FlagWords(w, f, FileFlags(files[1..]));
    }
  }

  lemma OneWord(w: string)
    ensures Words([w]) == [Word(w)]
  {
  }

  lemma FlagWords(w: string, f: string, rest: seq<string>)
    ensures Words([w] + (["-f", f] + rest)) == [Word(w), Word("-f")] + Words([f] + rest)
  {
  }

  lemma BeforeTwice(a: seq<Token>, b: seq<Token>, r: Tokens)
    ensures Before(a, Before(b, r)) == Before(a + b, r)
  {
    if r.Some? {
      assert a + (b + r.value) == a + b + r.value;
    }
  }
}

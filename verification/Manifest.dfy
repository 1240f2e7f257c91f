/** The list of deployed files that a git deploy leaves behind, so that the next one can remove what is gone
    from the repository (gitdeploy/deploy.go). A stack folder is a map from paths to contents; paths are
    compared as text. A failed command is taken to have no effect. */
module Manifest {
  import opened Wrappers
  import opened Strings
  import opened Shell

  const MANIFEST: string := ".dockhand-files"
  const DOT_ENV: string := ".env"
  const MAX_REMOVALS: nat := 2000
  const BATCH: nat := 200

  type Files = map<string, string>

  // ---------------------------------------------------------------- reading tar's listing

  predicate ContainsDots(s: string) {
    exists i :: 0 <= i < |s| - 1 && s[i] == '.' && s[i + 1] == '.'
  }

  function SlashAt(s: string): (n: nat)
    ensures n <= |s|
    ensures n < |s| ==> s[n] == '/'
    ensures '/' !in s[..n]
  {
    if s == "" || s[0] == '/' then 0 else 1 + SlashAt(s[1..])
  }

  /** A line of tar -v without white space around it and without BSD tar's "x ". */
  function CleanLine(l: string): string { TrimSpace(TrimPrefix(TrimSpace(l), "x ")) }

  function Head(l: string): string { l[..SlashAt(l)] }
  function Rel(l: string): string { if SlashAt(l) < |l| then l[SlashAt(l) + 1..] else "" }

  /** Directories, the top folder itself and names that could point elsewhere are not files of the stack. */
  predicate Skipped(l: string) {
    HasSuffix(l, "/") || Rel(l) == "" || HasPrefix(Rel(l), "/") || ContainsDots(Rel(l))
  }

  /** The files listed from here on; empty when a line is not below the one top folder. */
  function Listed(lines: seq<string>, top: string, files: seq<string>): seq<string>
    decreases |lines|
  {
    if lines == [] then files
    else
      var l := CleanLine(lines[0]);
      if l == "" then Listed(lines[1..], top, files)
      else if top != "" && Head(l) != top then []
      else Listed(lines[1..], Head(l), if Skipped(l) then files else files + [Rel(l)])
  }

  method ArchiveFiles(out: string) returns (files: seq<string>)
    ensures files == Listed(Split(out, '\n'), "", [])
  {
    hide TrimSpace, TrimPrefix, ContainsDots, Split;
    files := [];
    var top := "";
    var lines := Split(out, '\n');
    for i := 0 to |lines|
      invariant Listed(lines, "", []) == Listed(lines[i..], top, files)
    {
      assert lines[i..][1..] == lines[i + 1..];
      var l := TrimSpace(TrimPrefix(TrimSpace(lines[i]), "x "));
      if l == "" {
        continue;
      }
      var n := SlashAt(l);
      var head, rel := l[..n], if n < |l| then l[n + 1..] else "";
      if top == "" {
        top := head;
      } else if head != top {
        return [];
      }
      if HasSuffix(l, "/") || rel == "" || HasPrefix(rel, "/") || ContainsDots(rel) {
        continue;
      }
      files := files + [rel];
    }
    assert lines[|lines|..] == [];
  }

  /** A path that tar lists on one line of its own and that archiveFiles accepts. */
  predicate GoodPath(p: string) {
    && p != "" && '\n' !in p && !IsSpace(p[|p| - 1])
    && p[0] != '/' && p[|p| - 1] != '/' && !ContainsDots(p)
  }

  predicate GoodTop(top: string) {
    top != "" && forall i :: 0 <= i < |top| ==> top[i] != '/' && top[i] != '\n' && !IsSpace(top[i])
  }

  function Listing(top: string, paths: seq<string>): seq<string> {
    seq(|paths|, i requires 0 <= i < |paths| => top + "/" + paths[i])
  }

  lemma {:induction false} SlashAfter(top: string, p: string)
    requires '/' !in top
    ensures SlashAt(top + "/" + p) == |top|
  {
    if top != "" {
      assert (top + "/" + p)[1..] == top[1..] + "/" + p;
      SlashAfter(top[1..], p);
    }
  }

  lemma LineReadsBack(top: string, p: string)
    requires GoodTop(top) && GoodPath(p)
    ensures var l := CleanLine(top + "/" + p);
            l == top + "/" + p && Head(l) == top && Rel(l) == p && !Skipped(l)
  {
    var l := top + "/" + p;
    assert l[0] == top[0] && l[|l| - 1] == p[|p| - 1];
    TrimSpaceFixes(l);
    assert !("x " <= l) by {
      assert l[1] == if |top| > 1 then top[1] else '/';
    }
    SlashAfter(top, p);
    assert l[..|top|] == top && l[|top| + 1..] == p;
    assert l[|l| - 1..] == [p[|p| - 1]];
    assert !HasPrefix(p, "/") by { assert p[0] != '/'; }
  }

  lemma NoLine()
    ensures CleanLine("") == ""
  {
    assert TrimSpace("") == "";
  }

  /** tar's listing of files below one folder is read as exactly those files, in order. */
  lemma {:induction false} ListingReadsBack(top: string, paths: seq<string>, files: seq<string>, start: string)
    requires GoodTop(top) && forall i :: 0 <= i < |paths| ==> GoodPath(paths[i])
    requires start == "" || start == top
    ensures Listed(Listing(top, paths) + [""], start, files) == files + paths
    decreases |paths|
  {
    hide GoodTop, GoodPath, CleanLine, Head, Rel, Skipped;
    NoLine();
    var lines := Listing(top, paths) + [""];
    if paths == [] {
      assert lines == [""] && [""][1..] == [];
      assert files + [] == files;
    } else {
      LineReadsBack(top, paths[0]);
      assert lines[0] == top + "/" + paths[0];
      assert lines[1..] == Listing(top, paths[1..]) + [""];
      ListingReadsBack(top, paths[1..], files + [paths[0]], top);
      assert files + [paths[0]] + paths[1..] == files + paths;
    }
  }

  /** No file on its own line of an accepted listing is missing from the list, whatever the other lines are. */
  lemma {:induction false} ListedHas(lines: seq<string>, top: string, files: seq<string>, folder: string, p: string)
    requires GoodTop(folder) && GoodPath(p) && (p in files || folder + "/" + p in lines)
    ensures Listed(lines, top, files) == [] || p in Listed(lines, top, files)
    decreases |lines|
  {
    if lines != [] {
      hide GoodTop, GoodPath, Skipped, Head, Rel, CleanLine;
      assert lines == [lines[0]] + lines[1..];
      var l := CleanLine(lines[0]);
      if lines[0] == folder + "/" + p {
        LineReadsBack(folder, p);
        NotNothing(folder, p);
      }
      if l == "" {
        ListedHas(lines[1..], top, files, folder, p);
      } else if !(top != "" && Head(l) != top) {
        ListedHas(lines[1..], Head(l), if Skipped(l) then files else files + [Rel(l)], folder, p);
      }
    }
  }

  lemma NotNothing(folder: string, p: string)
    ensures folder + "/" + p != ""
  {
    assert |folder + "/" + p| >= 1;
  }

  lemma SlashFirst(p: string)
    ensures p != "" && p[0] == '/' ==> HasPrefix(p, "/")
  {
    if p != "" {
      assert p[..1] == [p[0]];
    }
  }

  /** Whatever tar printed, an accepted name is a relative path on one line. */
  lemma {:induction false} ListedAreRelative(lines: seq<string>, top: string, files: seq<string>)
    requires forall l :: l in lines ==> '\n' !in l
    requires forall f :: f in files ==> f != "" && f[0] != '/' && !ContainsDots(f) && '\n' !in f
    ensures forall f :: f in Listed(lines, top, files) ==> f != "" && f[0] != '/' && !ContainsDots(f) && '\n' !in f
    decreases |lines|
  {
    if lines != [] {
      var l := CleanLine(lines[0]);
      if l != "" && !(top != "" && Head(l) != top) {
        assert '\n' !in l by {
          if '\n' in l { CleanInside(lines[0]); }
        }
        SlashFirst(Rel(l));
        ListedAreRelative(lines[1..], Head(l), if Skipped(l) then files else files + [Rel(l)]);
      } else if l == "" {
        ListedAreRelative(lines[1..], top, files);
      }
    }
  }

  lemma CleanInside(l: string)
    ensures forall c :: c in CleanLine(l) ==> c in l
  {
    forall c | c in CleanLine(l) ensures c in l {
      TrimInside(TrimPrefix(TrimSpace(l), "x "), c);
      assert c in TrimSpace(l);
      TrimInside(l, c);
    }
  }

  // ---------------------------------------------------------------- what to remove

  /** A recorded name that is removed unless the new archive has it. */
  predicate Prunable(f: string) {
    f != "" && f != DOT_ENV && f != MANIFEST && !HasPrefix(f, "/") && !ContainsDots(f)
  }

  /** The names of a manifest's lines that are gone from the new list. */
  function GoneOf(lines: seq<string>, now: seq<string>): seq<string> {
    if lines == [] then []
    else
      var f := TrimSpace(lines[0]);
      (if Prunable(f) && f !in now then [f] else []) + GoneOf(lines[1..], now)
  }

  function Gone(prev: string, now: seq<string>): seq<string> { GoneOf(Split(prev, '\n'), now) }

  function ManifestText(now: seq<string>): string { Join(now, "\n") + "\n" }

  lemma {:induction false} GoneSnoc(lines: seq<string>, l: string, now: seq<string>)
    ensures GoneOf(lines + [l], now)
         == GoneOf(lines, now) + if Prunable(TrimSpace(l)) && TrimSpace(l) !in now then [TrimSpace(l)] else []
  {
    if lines == [] {
      assert [] + [l] == [l] && [l][1..] == [];
    } else {
      assert (lines + [l])[1..] == lines[1..] + [l];
      GoneSnoc(lines[1..], l, now);
    }
  }

  lemma {:induction false} GoneAre(lines: seq<string>, now: seq<string>, f: string)
    ensures f in GoneOf(lines, now) <==> Prunable(f) && f !in now && exists l :: l in lines && TrimSpace(l) == f
  {
    if lines != [] {
      GoneAre(lines[1..], now, f);
      assert lines == [lines[0]] + lines[1..];
      if TrimSpace(lines[0]) == f {
        assert lines[0] in lines;
      }
    }
  }

  /** Reading back a recorded list: its names, trimmed, and an empty last line. */
  lemma RecordedReadsBack(recorded: seq<string>)
    requires recorded != [] && forall f :: f in recorded ==> '\n' !in f
    ensures Split(ManifestText(recorded), '\n') == recorded + [""]
  {
    var parts := recorded + [""];
    JoinSnoc(recorded);
    SplitJoin(parts, '\n');
  }

  lemma {:induction false} JoinSnoc(parts: seq<string>)
    requires parts != []
    ensures Join(parts + [""], "\n") == Join(parts, "\n") + "\n"
  {
    if |parts| == 1 {
      assert parts + [""] == [parts[0], ""] && [parts[0], ""][1..] == [""];
    } else {
      assert (parts + [""])[1..] == parts[1..] + [""];
      JoinSnoc(parts[1..]);
    }
  }

  /** What a deploy removes from a folder whose manifest lists `recorded`: exactly the recorded names, trimmed,
      that are prunable and not in the new archive. */
  lemma RemovedAre(recorded: seq<string>, now: seq<string>, f: string)
    requires recorded != [] && forall r :: r in recorded ==> '\n' !in r
    ensures f in Gone(ManifestText(recorded), now)
       <==> Prunable(f) && f !in now && exists r :: r in recorded && TrimSpace(r) == f
  {
    RecordedReadsBack(recorded);
    GoneAre(recorded + [""], now, f);
    assert TrimSpace("") == "";
    if exists r :: r in recorded && TrimSpace(r) == f {
      var r :| r in recorded && TrimSpace(r) == f;
      assert r in recorded + [""];
    }
  }

  // ---------------------------------------------------------------- the command

  function RmCommand(dir: string, batch: seq<string>): string {
    "cd " + Shq(dir) + " && rm -f -- " + Join(Shell.Map(Shq, batch), " ")
  }

  function RmTokens(dir: string, batch: seq<string>): seq<Token> {
    [Word("cd"), Word(dir), AndIf] + Words(["rm", "-f", "--"] + batch)
  }

  lemma LexAndIf(t: string)
    ensures Lex("&& " + t, None) == Before([AndIf], Lex(t, None))
  {
    var s := "&& " + t;
    assert s[1..] == "& " + t && s[1..][1..] == [' '] + t;
    assert Finish(None) + [AndIf] == [AndIf];
    assert Lex(s, None) == Before([AndIf], Lex([' '] + t, None));
    LexStep(' ', t, None);
    var rest := Lex(t, None);
    if rest.Some? {
      assert Finish(None) + rest.value == rest.value;
    }
  }

  lemma RmReadsBack(batch: seq<string>)
    requires batch != []
    ensures Lex("rm -f -- " + Join(Shell.Map(Shq, batch), " "), None) == Some(Words(["rm", "-f", "--"] + batch))
  {
    hide Lex, Shq, Renders;
    ArgsRender(batch);
    PlainThen(["rm", "-f", "--"], Shell.Map(Shq, batch), batch);
    JoinThree("rm", "-f", "--");
    assert Join(["rm", "-f", "--"], " ") + " " + Join(Shell.Map(Shq, batch), " ")
        == "rm -f -- " + Join(Shell.Map(Shq, batch), " ");
  }

  lemma CdThen(dir: string, t: string)
    ensures Lex("cd" + ([' '] + (Shq(dir) + ([' '] + t))), None) == Before([Word("cd")], Before([Word(dir)], Lex(t, None)))
  {
    hide Shq, InSingle, InDouble;
    PlainIsLiteral("cd", [' '] + (Shq(dir) + ([' '] + t)), None);
    LexStep(' ', Shq(dir) + ([' '] + t), Some("cd"));
    QuotedIsLiteral(dir, [' '] + t, None);
    LexStep(' ', t, Some(dir));
  }

  /** The shell reads the command as: go to dir and remove exactly the files of the batch, whatever they are
      called. */
  lemma RmCommandReadsBack(dir: string, batch: seq<string>)
    requires batch != []
    ensures Tokenize(RmCommand(dir, batch)) == Some(RmTokens(dir, batch))
  {
    hide Lex, Shq, Join, Words;
    var t := "rm -f -- " + Join(Shell.Map(Shq, batch), " ");
    assert RmCommand(dir, batch) == "cd" + ([' '] + (Shq(dir) + ([' '] + ("&& " + t))));
    CdThen(dir, "&& " + t);
    LexAndIf(t);
    RmReadsBack(batch);
    var r := Words(["rm", "-f", "--"] + batch);
    assert [Word("cd")] + ([Word(dir)] + ([AndIf] + r)) == RmTokens(dir, batch);
  }

  // ---------------------------------------------------------------- pruning a folder

  /** How a run of pruneDeleted went: whether the manifest could be read, which batch the host refused to remove, if
      any, and whether the new manifest was written. */
  datatype Outcome = Outcome(read: bool, refused: Option<nat>, wrote: bool)

  function PrevText(files: Files, read: bool): string {
    if read && MANIFEST in files then files[MANIFEST] else ""
  }

  /** Nothing is removed of more than 2000 names. */
  predicate Pruning(gone: nat) { 0 < gone <= MAX_REMOVALS }

  predicate CanRefuse(gone: nat, refused: Option<nat>) {
    refused.Some? ==> Pruning(gone) && refused.value * BATCH < gone
  }

  predicate Possible(files: Files, now: seq<string>, o: Outcome) {
    CanRefuse(|Gone(PrevText(files, o.read), now)|, o.refused)
  }

  /** How many names of the list are removed: all, or the batches before the refused one. */
  function RemovedOf(gone: nat, refused: Option<nat>): (n: nat)
    requires CanRefuse(gone, refused)
    ensures n <= gone
  {
    if !Pruning(gone) then 0 else if refused.None? then gone else refused.value * BATCH
  }

  function SetOf(s: seq<string>): set<string> { set x | x in s }

  function Pruned(files: Files, now: seq<string>, o: Outcome): Files
    requires Possible(files, now, o)
  {
    if now == [] then files
    else
      var gone := Gone(PrevText(files, o.read), now);
      var kept := files - SetOf(gone[..RemovedOf(|gone|, o.refused)]);
      if o.wrote then kept[MANIFEST := ManifestText(now)] else kept
  }

  /** A command of pruneDeleted and whether it succeeded. */
  datatype Said = Looked(ok: bool) | Cleared(ok: bool) | Noted(ok: bool)

  /** The removals asked for: one per batch up to the refused one, none when there is nothing or too much. */
  function Clearings(gone: nat, refused: Option<nat>): seq<Said>
    requires CanRefuse(gone, refused)
  {
    if !Pruning(gone) then []
    else if refused.None? then seq((gone + BATCH - 1) / BATCH, _ => Cleared(true))
    else seq(refused.value, _ => Cleared(true)) + [Cleared(false)]
  }

  lemma NothingAsked(gone: nat)
    requires !Pruning(gone)
    ensures Clearings(gone, None) == []
  {
  }

  function Commands(files: Files, now: seq<string>, o: Outcome): seq<Said>
    requires Possible(files, now, o)
  {
    if now == [] then []
    else [Looked(o.read)] + Clearings(|Gone(PrevText(files, o.read), now)|, o.refused) + [Noted(o.wrote)]
  }

  class Folder {
    var files: Files
    const dir: string
    /** The commands so far. */
    ghost var said: seq<Said>

    constructor (dir: string, files: Files)
      ensures this.dir == dir && this.files == files && said == []
    {
      this.dir, this.files, said := dir, files, [];
    }

    /** cat of the manifest; a missing or unreadable one reads as empty. */
    method Cat() returns (text: string, ghost read: bool)
      modifies this`said
      ensures text == PrevText(files, read) && said == old(said) + [Looked(read)]
    {
      var works: bool := *;
      read := works;
      said := said + [Looked(works)];
      if works && MANIFEST in files {
        return files[MANIFEST], read;
      }
      return "", read;
    }

    /** The host's shell runs a command line; one that is not a removal in this folder is refused. */
    method Exec(cmd: string, ghost batch: seq<string>) returns (ok: bool)
      requires Tokenize(cmd) == Some(RmTokens(dir, batch))
      modifies this`files, this`said
      ensures files == if ok then old(files) - SetOf(batch) else old(files)
      ensures said == old(said) + [Cleared(ok)]
    {
      ok := *;
      said := said + [Cleared(ok)];
      if ok {
        var tokens := Tokenize(cmd);
        if tokens.Some? {
          var named := tokens.value[6..];
          assert named == Words(batch) by {
            assert forall i :: 0 <= i < |batch| ==> RmTokens(dir, batch)[6 + i] == Word(batch[i]);
          }
          ghost var before := files;
          for i := 0 to |named|
            invariant files == before - SetOf(batch[..i]) && said == old(said) + [Cleared(true)]
          {
            assert batch[..i + 1] == batch[..i] + [batch[i]];
            assert named[i] == Word(batch[i]);
            files := files - {named[i].text};
          }
          assert batch[..|batch|] == batch;
        }
      }
    }

    method WriteManifest(text: string) returns (ok: bool)
      modifies this`files, this`said
      ensures files == if ok then old(files)[MANIFEST := text] else old(files)
      ensures said == old(said) + [Noted(ok)]
    {
      ok := *;
      said := said + [Noted(ok)];
      if ok {
        files := files[MANIFEST := text];
      }
    }

    /** The names of the old manifest that are gone from the new list. */
    method GoneNames(prev: string, now: seq<string>) returns (gone: seq<string>)
      ensures gone == Gone(prev, now)
    {
      gone := [];
      var lines := Split(prev, '\n');
      for i := 0 to |lines|
        invariant gone == GoneOf(lines[..i], now)
      {
        assert lines[..i + 1] == lines[..i] + [lines[i]];
        GoneSnoc(lines[..i], lines[i], now);
        var f := TrimSpace(lines[i]);
        if f == "" || f in now || f == DOT_ENV || f == MANIFEST || HasPrefix(f, "/") || ContainsDots(f) {
          continue;
        }
        gone := gone + [f];
      }
      assert lines[..|lines|] == lines;
    }

    /** pruneDeleted. */
    method PruneDeleted(now: seq<string>) returns (ghost o: Outcome)
      modifies this`files, this`said
      ensures Possible(old(files), now, o) && files == Pruned(old(files), now, o)
      ensures said == old(said) + Commands(old(files), now, o)
    {
      hide Gone, Clearings;
      if |now| == 0 {
        return Outcome(true, None, true);
      }
      var prev, read := Cat();
      var gone := GoneNames(prev, now);
      ghost var refused: Option<nat> := None;
      if 0 < |gone| <= MAX_REMOVALS {
        refused := RemoveInBatches(gone);
      } else {
        assert files - SetOf(gone[..0]) == files;
        NothingAsked(|gone|);
      }
      assert files == old(files) - SetOf(gone[..RemovedOf(|gone|, refused)]);
      var wrote := WriteManifest(ManifestText(now));
      o := Outcome(read, refused, wrote);
      assert said == old(said) + ([Looked(read)] + Clearings(|gone|, refused) + [Noted(wrote)]);
    }

    /** The batches are consecutive pieces of the list; after a refused one nothing more is tried. */
    method RemoveInBatches(gone: seq<string>) returns (ghost refused: Option<nat>)
      requires Pruning(|gone|)
      modifies this`files, this`said
      ensures CanRefuse(|gone|, refused)
      ensures files == old(files) - SetOf(gone[..RemovedOf(|gone|, refused)])
      ensures said == old(said) + Clearings(|gone|, refused)
    {
      refused := None;
      var i := 0;
      ghost var k: nat := 0;
      while i < |gone|
        invariant i == k * BATCH && (k > 0 ==> i - BATCH < |gone|)
        invariant files == old(files) - SetOf(gone[..if i <= |gone| then i else |gone|])
        invariant said == old(said) + seq(k, _ => Cleared(true))
      {
        var end := i + BATCH;
        if end > |gone| {
          end := |gone|;
        }
        var batch := gone[i..end];
        var cmd := "cd " + Shq(dir) + " && rm -f -- " + Join(Shell.Map(Shq, batch), " ");
        RmCommandReadsBack(dir, batch);
        var ok := Exec(cmd, batch);
        if !ok {
          refused := Some(k);
          return;
        }
        assert gone[..end] == gone[..i] + batch;
        assert seq(k, _ => Cleared(true)) + [Cleared(true)] == seq(k + 1, _ => Cleared(true));
        i, k := i + BATCH, k + 1;
      }
      assert gone[..|gone|] == gone;
    }
  }

  // ---------------------------------------------------------------- runs of deploys

  /** What happens to the folder: a deploy extracts an archive and prunes; the app, or whoever works in the
      folder, writes and deletes files. */
  datatype Event = Deploy(archive: Files, now: seq<string>, o: Outcome) | Write(path: string, content: string) | Delete(path: string)

  /** The folder, the list last recorded in it ([] before the first), and whether something else than that list may
      stand in the manifest. */
  datatype State = State(files: Files, recorded: seq<string>, foreign: bool)

  /** The names come from the archive's listing, one per line, and none is missing unless the listing as a whole was
      not understood. */
  predicate Fair(s: State, e: Event) {
    e.Deploy? ==>
      && Possible(s.files + e.archive, e.now, e.o)
      && (forall i :: 0 <= i < |e.now| ==> '\n' !in e.now[i])
      && (e.now != [] ==> forall p :: p in e.archive && GoodPath(p) ==> p in e.now)
  }

  function Step(s: State, e: Event): State
    requires Fair(s, e)
  {
    match e
    case Deploy(archive, now, o) =>
      var noted := now != [] && o.wrote;
      State(Pruned(s.files + archive, now, o), if noted then now else s.recorded,
            !noted && (s.foreign || MANIFEST in archive))
    case Write(p, c) => s.(files := s.files[p := c], foreign := s.foreign || p == MANIFEST)
    case Delete(p) => s.(files := s.files - {p}, foreign := s.foreign || p == MANIFEST)
  }

  ghost predicate FairRun(s: State, es: seq<Event>)
    decreases |es|
  {
    es == [] || (Fair(s, es[0]) && FairRun(Step(s, es[0]), es[1..]))
  }

  function Run(s: State, es: seq<Event>): State
    requires FairRun(s, es)
    decreases |es|
  {
    if es == [] then s else Run(Step(s, es[0]), es[1..])
  }

  /** Unless it is foreign, the manifest on disk is the last recorded list. */
  ghost predicate Recorded(s: State) {
    && (!s.foreign && s.recorded == [] ==> MANIFEST !in s.files)
    && (!s.foreign && s.recorded != [] ==> MANIFEST in s.files && s.files[MANIFEST] == ManifestText(s.recorded))
    && forall i :: 0 <= i < |s.recorded| ==> '\n' !in s.recorded[i]
  }

  lemma GoneNeverSpecial(prev: string, now: seq<string>, n: nat)
    requires n <= |Gone(prev, now)|
    ensures MANIFEST !in SetOf(Gone(prev, now)[..n]) && DOT_ENV !in SetOf(Gone(prev, now)[..n])
  {
    GoneAre(Split(prev, '\n'), now, MANIFEST);
    GoneAre(Split(prev, '\n'), now, DOT_ENV);
  }

  lemma RecordedStep(s: State, e: Event)
    requires Recorded(s) && Fair(s, e)
    ensures Recorded(Step(s, e))
  {
    if e.Deploy? {
      var gone := Gone(PrevText(s.files + e.archive, e.o.read), e.now);
      GoneNeverSpecial(PrevText(s.files + e.archive, e.o.read), e.now, RemovedOf(|gone|, e.o.refused));
    }
  }

  lemma {:induction false} RecordedAlways(s: State, es: seq<Event>)
    requires Recorded(s) && FairRun(s, es)
    ensures Recorded(Run(s, es))
    decreases |es|
  {
    if es != [] {
      RecordedStep(s, es[0]);
      RecordedAlways(Step(s, es[0]), es[1..]);
    }
  }

  lemma GoneOfNothing(now: seq<string>)
    ensures Gone("", now) == []
  {
    assert Split("", '\n') == [""] && [""][1..] == [];
    assert TrimSpace("") == "";
    assert !Prunable("");
    assert GoneOf([], now) == [];
    assert GoneOf([""], now) == [] + GoneOf([""][1..], now);
  }

  /** The path is there once the archive is extracted, and gone after the deploy. */
  predicate Removed(s: State, e: Event, f: string)
    requires e.Deploy? && Fair(s, e)
  {
    f in s.files + e.archive && f !in Step(s, e).files
  }

  /** What the deploy reads as the manifest. */
  function ReadText(s: State, e: Event): string
    requires e.Deploy?
  {
    PrevText(s.files + e.archive, e.o.read)
  }

  /** Whatever stands in the manifest and whichever commands fail: no deploy removes .env, the manifest, a name of
      its own list, or a file of its archive that has a line of its own in the listing. */
  lemma NeverRemoved(s: State, e: Event, f: string)
    requires e.Deploy? && Fair(s, e) && Removed(s, e, f)
    ensures f != DOT_ENV && f != MANIFEST && f !in e.now && !(f in e.archive && GoodPath(f)) && Prunable(f)
    ensures e.o.read
    ensures f in Gone(ReadText(s, e), e.now)
  {
    GoneAre(Split(ReadText(s, e), '\n'), e.now, f);
    if !e.o.read {
      GoneOfNothing(e.now);
    }
  }

  predicate WasRecorded(s: State, f: string) { exists r :: r in s.recorded && TrimSpace(r) == f }

  ghost predicate OnlyRecordedGo(s: State, e: Event)
    requires e.Deploy? && Fair(s, e)
  {
    forall f :: Removed(s, e, f) ==> WasRecorded(s, f)
  }

  /** Every name in the manifest read that could be removed was recorded. */
  ghost predicate Harmless(s: State, e: Event)
    requires e.Deploy?
  {
    forall l :: l in Split(ReadText(s, e), '\n') ==>
      var f := TrimSpace(l);
      Prunable(f) && f !in e.now && f in s.files + e.archive ==> WasRecorded(s, f)
  }

  /** All commands succeed and there are not too many names. */
  predicate Complete(s: State, e: Event)
    requires e.Deploy?
  {
    e.now != [] && e.o.read && e.o.refused.None? && |Gone(ReadText(s, e), e.now)| <= MAX_REMOVALS
  }

  /** After any run of deploys and of writes to the folder, a deploy removes only names of the last recorded list, if
      nobody but the deploys wrote the manifest and the archive does not bring one along. In general it does so
      exactly when every removable name in the manifest it reads was recorded: that is enough whichever commands
      fail, and needed when none does. */
  lemma OnlyRecordedFilesGo(s: State, es: seq<Event>, e: Event)
    requires Recorded(s) && FairRun(s, es) && e.Deploy? && Fair(Run(s, es), e)
    ensures var before := Run(s, es);
            && (!before.foreign && MANIFEST !in e.archive ==> Harmless(before, e))
            && (Harmless(before, e) ==> OnlyRecordedGo(before, e))
            && (Complete(before, e) && OnlyRecordedGo(before, e) ==> Harmless(before, e))
  {
    RecordedAlways(s, es);
    var before := Run(s, es);
    if !before.foreign && MANIFEST !in e.archive {
      OwnManifestIsHarmless(before, e);
    }
    if Harmless(before, e) {
      forall f | Removed(before, e, f) ensures WasRecorded(before, f) {
        NeverRemoved(before, e, f);
        GoneAre(Split(ReadText(before, e), '\n'), e.now, f);
      }
    }
    if Complete(before, e) && OnlyRecordedGo(before, e) {
      forall l | l in Split(ReadText(before, e), '\n')
        ensures var f := TrimSpace(l);
                Prunable(f) && f !in e.now && f in before.files + e.archive ==> WasRecorded(before, f)
      {
        AllGo(before, e, l);
      }
    }
  }

  lemma OwnManifestIsHarmless(s: State, e: Event)
    requires Recorded(s) && !s.foreign && e.Deploy? && MANIFEST !in e.archive
    ensures Harmless(s, e)
  {
    var text := ReadText(s, e);
    forall l | l in Split(text, '\n')
      ensures Prunable(TrimSpace(l)) && TrimSpace(l) !in e.now ==> WasRecorded(s, TrimSpace(l))
    {
      if Prunable(TrimSpace(l)) && TrimSpace(l) !in e.now {
        GoneAre(Split(text, '\n'), e.now, TrimSpace(l));
        if text == "" {
          GoneOfNothing(e.now);
          assert false;
        }
        RemovedAre(s.recorded, e.now, TrimSpace(l));
      }
    }
  }

  /** A removable name of the manifest read goes when all commands succeed. */
  lemma AllGo(s: State, e: Event, l: string)
    requires e.Deploy? && Fair(s, e) && Complete(s, e) && l in Split(ReadText(s, e), '\n')
    ensures Prunable(TrimSpace(l)) && TrimSpace(l) !in e.now ==> TrimSpace(l) !in Step(s, e).files
  {
    var f, gone := TrimSpace(l), Gone(ReadText(s, e), e.now);
    if Prunable(f) && f !in e.now {
      GoneAre(Split(ReadText(s, e), '\n'), e.now, f);
      assert gone[..|gone|] == gone && f in SetOf(gone);
    }
  }

  /** No recorded name becomes another file's name when it is trimmed. */
  ghost predicate TrimsToItself(s: State, e: Event)
    requires e.Deploy?
  {
    forall r :: r in s.recorded ==>
      var f := TrimSpace(r);
      Prunable(f) && f !in e.now && f in s.files + e.archive ==> f in s.recorded
  }

  /** What goes was recorded by that very name exactly when no recorded name is trimmed to the name of another
      file that could go: enough whichever commands fail, and needed when none does. */
  lemma OnlyThoseNamesGo(s: State, es: seq<Event>, e: Event)
    requires Recorded(s) && FairRun(s, es) && e.Deploy? && Fair(Run(s, es), e)
    requires !Run(s, es).foreign && MANIFEST !in e.archive
    ensures var before := Run(s, es);
            && (TrimsToItself(before, e) ==> forall f :: Removed(before, e, f) ==> f in before.recorded)
            && (Complete(before, e) && (forall f :: Removed(before, e, f) ==> f in before.recorded) ==>
                  TrimsToItself(before, e))
  {
    RecordedAlways(s, es);
    var before := Run(s, es);
    hide Recorded, FairRun, Fair, Step, Run, Complete, TrimsToItself;
    forall f | Removed(before, e, f) && TrimsToItself(before, e) ensures f in before.recorded {
      GoesByName(before, e, f);
    }
    if Complete(before, e) && forall f :: Removed(before, e, f) ==> f in before.recorded {
      AllGoByName(before, e);
    }
  }

  lemma GoesByName(s: State, e: Event, f: string)
    requires Recorded(s) && !s.foreign && e.Deploy? && Fair(s, e) && MANIFEST !in e.archive
    requires Removed(s, e, f) && TrimsToItself(s, e)
    ensures f in s.recorded
  {
    hide Removed, Step;
    NeverRemoved(s, e, f);
    GoneAre(Split(ReadText(s, e), '\n'), e.now, f);
    OwnManifestIsHarmless(s, e);
    assert f in s.files + e.archive by { IsThere(s, e, f); }
    var l :| l in Split(ReadText(s, e), '\n') && TrimSpace(l) == f;
    assert WasRecorded(s, f);
  }

  lemma IsThere(s: State, e: Event, f: string)
    requires e.Deploy? && Fair(s, e) && Removed(s, e, f)
    ensures f in s.files + e.archive
  {
  }

  lemma AllGoByName(s: State, e: Event)
    requires Recorded(s) && !s.foreign && e.Deploy? && Fair(s, e) && MANIFEST !in e.archive && Complete(s, e)
    requires forall f :: Removed(s, e, f) ==> f in s.recorded
    ensures TrimsToItself(s, e)
  {
    forall r | r in s.recorded
      ensures var f := TrimSpace(r); Prunable(f) && f !in e.now && f in s.files + e.archive ==> f in s.recorded
    {
      RecordedReadsBack(s.recorded);
      assert r in Split(ReadText(s, e), '\n');
      AllGo(s, e, r);
    }
  }

  /** A recorded name that is missing from the new archive survives a deploy without failures, of at most 2000
      names, only if it is not in the manifest read: never, unless somebody else wrote the manifest or the archive
      brought one along. */
  lemma NothingStaleSurvives(s: State, es: seq<Event>, e: Event, f: string)
    requires Recorded(s) && FairRun(s, es) && e.Deploy? && Fair(Run(s, es), e) && Complete(Run(s, es), e)
    requires f in Run(s, es).recorded && f !in e.now && Prunable(f) && Trimmed(f)
    ensures var before := Run(s, es);
            && (!before.foreign && MANIFEST !in e.archive ==> f !in Step(before, e).files)
            && (f in before.files + e.archive ==>
                  (f !in Step(before, e).files <==> exists l :: l in Split(ReadText(before, e), '\n') && TrimSpace(l) == f))
  {
    RecordedAlways(s, es);
    var before := Run(s, es);
    var text := ReadText(before, e);
    TrimSpaceFixes(f);
    if !before.foreign && MANIFEST !in e.archive {
      RecordedReadsBack(before.recorded);
      assert f in Split(text, '\n');
    }
    if exists l :: l in Split(text, '\n') && TrimSpace(l) == f {
      var l :| l in Split(text, '\n') && TrimSpace(l) == f;
      AllGo(before, e, l);
    }
    if Removed(before, e, f) {
      NeverRemoved(before, e, f);
      GoneAre(Split(text, '\n'), e.now, f);
    }
  }

  /** Names from archiveFiles are prunable, but for the two that are never removed. */
  lemma ListedArePrunable(out: string, f: string)
    requires f in Listed(Split(out, '\n'), "", [])
    ensures Prunable(f) <==> f != DOT_ENV && f != MANIFEST
  {
    SplitParts(out, '\n');
    ListedAreRelative(Split(out, '\n'), "", []);
    assert !HasPrefix(f, "/") by { assert f[0] != '/'; }
  }

  /** The white space matters: a recorded " a" makes the next deploy remove "a", which was never recorded. */
  lemma OuterSpaceHitsAnotherFile()
    ensures var s := State(map["a" := "the app's", MANIFEST := ManifestText([" a"])], [" a"], false);
            var e := Deploy(map["b" := ""], ["b"], Outcome(true, None, true));
            Recorded(s) && Fair(s, e) && "a" !in s.recorded && Removed(s, e, "a")
  {
    hide Gone, ManifestText, Prunable, GoodPath;
    SpacedAIsGone();
    assert ["a"][..1] == ["a"] && SetOf(["a"]) == {"a"};
  }

  lemma SpacedAIsGone()
    ensures Gone(ManifestText([" a"]), ["b"]) == ["a"]
  {
    var now := ["b"];
    RecordedReadsBack([" a"]);
    assert TrimLeft(" a") == "a" by { assert " a"[1..] == "a"; assert TrimLeft("a") == "a"; }
    assert TrimSpace(" a") == "a" && TrimSpace("") == "";
    assert [" a"] + [""] == [" a", ""] && [" a", ""][1..] == [""] && [""][1..] == [];
    assert Prunable("a");
    assert GoneOf([""], now) == [];
  }

  /** A repository that holds a file named like the manifest makes its first deploy remove what that file lists. */
  lemma ArchivedManifestMisleads()
    ensures var s := State(map["a" := "the app's"], [], false);
            var e := Deploy(map[MANIFEST := "a\n", "b" := ""], ["b", MANIFEST], Outcome(true, None, true));
            Recorded(s) && Fair(s, e) && Removed(s, e, "a") && !WasRecorded(s, "a") && !Harmless(s, e)
  {
    var s := State(map["a" := "the app's"], [], false);
    var now := ["b", MANIFEST];
    var e := Deploy(map[MANIFEST := "a\n", "b" := ""], now, Outcome(true, None, true));
    hide Gone, TrimSpace, Split, Prunable;
    AIsGone();
    assert ReadText(s, e) == "a\n";
    assert ["a"][..1] == ["a"] && SetOf(["a"]) == {"a"};
    OnlyRecordedFilesGo(s, [], e);
  }

  lemma AIsGone()
    ensures Gone("a\n", ["b", MANIFEST]) == ["a"]
  {
    var now := ["b", MANIFEST];
    SplitA();
    assert TrimSpace("a") == "a" && TrimSpace("") == "" by { assert TrimLeft("a") == "a"; }
    assert ["a", ""][1..] == [""] && [""][1..] == [];
    assert Prunable("a");
    assert GoneOf([""], now) == [];
  }

  lemma SplitA()
    ensures Split("a\n", '\n') == ["a", ""]
  {
    SplitAt("a", '\n', "");
    assert "a" + (['\n'] + "") == "a\n" && ["a"] + [""] == ["a", ""];
  }
}

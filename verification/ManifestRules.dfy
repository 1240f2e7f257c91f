/** What a deploy reads of tar's listing, line by line, and how it removes what is gone (gitdeploy/deploy.go). */
module ManifestRules {
  import opened Wrappers
  import opened Strings
  import opened Manifest

  // ---------------------------------------------------------------- the listing

  /** A line of the listing: nothing, a file below the top folder, or something that is not listed. */
  datatype Kind = Nothing | File(path: string) | Passed(rest: string)

  /** What follows the top folder on a line that is passed over: the folder itself, a directory, an absolute path, or a
      path with two dots in a row. */
  predicate PassedOver(d: string) {
    || d == ""
    || (&& d[0] == '/' && !IsSpace(d[|d| - 1])
        && (d[|d| - 1] == '/' || d[1] == '/' || exists i :: 0 < i < |d| - 1 && d[i] == '.' && d[i + 1] == '.'))
  }

  /** The line shows this text, perhaps behind the "x " of a BSD tar, with white space around. */
  ghost predicate Shows(l: string, body: string) {
    exists w, b :: AllSpace(w) && AllSpace(b) && (l == w + body + b || l == w + ("x " + body) + b)
  }

  ghost predicate LineIs(l: string, top: string, k: Kind) {
    match k
    case Nothing => AllSpace(l)
    case File(p) => GoodPath(p) && Shows(l, top + "/" + p)
    case Passed(d) => PassedOver(d) && Shows(l, top + d)
  }

  lemma CleanShows(l: string, body: string)
    requires Shows(l, body) && body != "" && Trimmed(body) && !HasPrefix(body, "x ")
    ensures CleanLine(l) == body
  {
    var w, b :| AllSpace(w) && AllSpace(b) && (l == w + body + b || l == w + ("x " + body) + b);
    TrimSpaceFixes(body);
    if l == w + body + b {
      OuterSpace(w, body, b);
    } else {
      var x := "x " + body;
      OuterSpace(w, x, b);
      assert x[0] == 'x' && x[|x| - 1] == body[|body| - 1];
      TrimSpaceFixes(x);
      assert x[2..] == body && "x " <= x;
    }
  }

  lemma {:induction false} HeadIs(top: string, d: string)
    requires '/' !in top && (d == "" || d[0] == '/')
    ensures SlashAt(top + d) == |top|
  {
    if top == "" {
      assert top + d == d;
    } else {
      assert (top + d)[1..] == top[1..] + d;
      HeadIs(top[1..], d);
    }
  }

  lemma TopParts(top: string, d: string)
    requires GoodTop(top) && (d == "" || (d[0] == '/' && !IsSpace(d[|d| - 1])))
    ensures var l := top + d;
            && l != "" && Trimmed(l) && !HasPrefix(l, "x ") && Head(l) == top
            && Rel(l) == (if d == "" then "" else d[1..])
            && (HasSuffix(l, "/") <==> d != "" && d[|d| - 1] == '/')
  {
    var l := top + d;
    assert '/' !in top;
    HeadIs(top, d);
    assert l[0] == top[0] && l[|l| - 1] == (if d == "" then top[|top| - 1] else d[|d| - 1]);
    assert |l| > 1 ==> l[1] == if |top| > 1 then top[1] else d[0];
    assert l[..|top|] == top && l[|top|..] == d;
    assert HasSuffix(l, "/") <==> l[|l| - 1] == '/' by { assert l[|l| - 1..] == [l[|l| - 1]]; }
  }

  lemma PassedIsSkipped(top: string, d: string)
    requires GoodTop(top) && PassedOver(d)
    ensures Skipped(top + d)
  {
    TopParts(top, d);
    var l := top + d;
    if d != "" && d[|d| - 1] != '/' {
      var r := d[1..];
      assert d[1] == '/' ==> r != "" && r[..1] == "/";
      if exists i :: 0 < i < |d| - 1 && d[i] == '.' && d[i + 1] == '.' {
        var i :| 0 < i < |d| - 1 && d[i] == '.' && d[i + 1] == '.';
        assert r[i - 1] == '.' && r[i] == '.';
      }
    }
  }

  /** What one line is read as. */
  lemma LineReads(l: string, top: string, k: Kind)
    requires GoodTop(top) && LineIs(l, top, k)
    ensures k.Nothing? <==> CleanLine(l) == ""
    ensures !k.Nothing? ==> Head(CleanLine(l)) == top && (Skipped(CleanLine(l)) <==> k.Passed?)
    ensures k.File? ==> Rel(CleanLine(l)) == k.path
  {
    hide Shows, GoodTop, CleanLine, Head, Rel, Skipped, AllSpace, PassedOver, GoodPath;
    match k
    case Nothing => SpaceIsNothing(l);
    case File(p) => FileReads(l, top, p);
    case Passed(d) => PassedReads(l, top, d);
  }

  lemma FileReads(l: string, top: string, p: string)
    requires GoodTop(top) && GoodPath(p) && Shows(l, top + "/" + p)
    ensures CleanLine(l) == top + "/" + p != "" && Head(CleanLine(l)) == top && Rel(CleanLine(l)) == p && !Skipped(CleanLine(l))
  {
    hide Shows, Skipped, GoodTop, GoodPath, CleanLine, Head, Rel, Trimmed, HasPrefix, HasSuffix;
    LineReadsBack(top, p);
    PathEnd(top, p);
    TopParts(top, "/" + p);
    CleanShows(l, top + "/" + p);
  }

  lemma PathEnd(top: string, p: string)
    requires GoodPath(p)
    ensures var d := "/" + p; d[0] == '/' && !IsSpace(d[|d| - 1]) && top + "/" + p == top + d
  {
  }

  lemma PassedReads(l: string, top: string, d: string)
    requires GoodTop(top) && PassedOver(d) && Shows(l, top + d)
    ensures CleanLine(l) == top + d != "" && Head(CleanLine(l)) == top && Skipped(CleanLine(l))
  {
    hide Shows, Skipped;
    TopParts(top, d);
    CleanShows(l, top + d);
    PassedIsSkipped(top, d);
  }

  lemma SpaceIsNothing(l: string)
    requires AllSpace(l)
    ensures CleanLine(l) == ""
  {
    assert TrimSpace("") == "";
    OuterSpace(l, "", "");
    assert l + "" + "" == l;
  }

  function FilesOf(ks: seq<Kind>): seq<string> {
    if ks == [] then [] else (if ks[0].File? then [ks[0].path] else []) + FilesOf(ks[1..])
  }

  /** A listing below one folder is read as its files, in order, whatever stands on the other lines. */
  lemma {:induction false} ListingIs(lines: seq<string>, ks: seq<Kind>, top: string, start: string, files: seq<string>)
    requires GoodTop(top) && |ks| == |lines| && (start == "" || start == top)
    requires forall i :: 0 <= i < |lines| ==> LineIs(lines[i], top, ks[i])
    ensures Listed(lines, start, files) == files + FilesOf(ks)
    decreases |lines|
  {
    hide GoodTop, LineIs, CleanLine, Head, Rel, Skipped;
    if lines != [] {
      LineReads(lines[0], top, ks[0]);
      var next := if ks[0].File? then files + [ks[0].path] else files;
      ListingIs(lines[1..], ks[1..], top, if ks[0].Nothing? then start else top, next);
      Regroup(files, if ks[0].File? then [ks[0].path] else [], FilesOf(ks[1..]));
    } else {
      assert files + [] == files;
    }
  }

  lemma Regroup(a: seq<string>, b: seq<string>, c: seq<string>)
    ensures a + b + c == a + (b + c)
    ensures a + [] == a
  {
  }

  /** A line below another folder than the listing's. */
  lemma {:induction false} OtherTop(lines: seq<string>, start: string, files: seq<string>, i: nat, top: string, k: Kind)
    requires i < |lines| && GoodTop(top) && LineIs(lines[i], top, k) && !k.Nothing? && start != "" && start != top
    ensures Listed(lines, start, files) == []
    decreases |lines|
  {
    hide GoodTop, LineIs, CleanLine, Head, Rel, Skipped;
    if i == 0 {
      LineReads(lines[0], top, k);
    } else {
      var l := CleanLine(lines[0]);
      OtherTop(lines[1..], start, if l == "" || Skipped(l) then files else files + [Rel(l)], i - 1, top, k);
    }
  }

  /** Two lines below different folders: nothing is listed, so nothing will be removed. */
  lemma {:induction false} TwoTops(lines: seq<string>, start: string, files: seq<string>, i: nat, a: string, x: Kind,
                                   j: nat, b: string, y: Kind)
    requires i < |lines| && GoodTop(a) && LineIs(lines[i], a, x) && !x.Nothing?
    requires j < |lines| && GoodTop(b) && LineIs(lines[j], b, y) && !y.Nothing? && a != b
    ensures Listed(lines, start, files) == []
    decreases |lines|
  {
    hide LineIs, CleanLine, Rel, Skipped;
    var l := CleanLine(lines[0]);
    LineReads(lines[i], a, x);
    LineReads(lines[j], b, y);
    if l == "" {
      TwoTops(lines[1..], start, files, i - 1, a, x, j - 1, b, y);
    } else if start == "" || Head(l) == start {
      var next := if Skipped(l) then files else files + [Rel(l)];
      if Head(l) == "" {
        TwoTops(lines[1..], "", next, i - 1, a, x, j - 1, b, y);
      } else if Head(l) != a {
        OtherTop(lines[1..], Head(l), next, i - 1, a, x);
      } else {
        OtherTop(lines[1..], Head(l), next, j - 1, b, y);
      }
    }
  }

  // ---------------------------------------------------------------- removing

  /** A recorded name may go unless it is empty, special, absolute or has two dots in a row. */
  lemma PrunableIs(f: string)
    ensures Prunable(f) <==>
      && f != "" && f != ".env" && f != ".dockhand-files" && f[0] != '/'
      && forall i :: 0 <= i < |f| - 1 ==> !(f[i] == '.' && f[i + 1] == '.')
  {
    if f != "" {
      assert HasPrefix(f, "/") <==> f[0] == '/' by { assert f[..1] == [f[0]]; }
    }
  }

  /** Removing is tried for 1 to 2000 names, with the least number of batches of 200 that takes; after a refused batch
      the batches before it are gone and no other is asked for. */
  lemma BatchesAre(gone: nat, refused: Option<nat>)
    requires CanRefuse(gone, refused)
    ensures var n := |Clearings(gone, None)|;
            if 1 <= gone <= 2000 then 200 * (n - 1) < gone <= 200 * n else n == 0
    ensures refused.Some? ==> |Clearings(gone, refused)| == refused.value + 1 && RemovedOf(gone, refused) == 200 * refused.value < gone
    ensures refused.None? ==> RemovedOf(gone, refused) == if gone <= 2000 then gone else 0
    ensures forall i :: 0 <= i < |Clearings(gone, refused)| ==>
      Clearings(gone, refused)[i] == Cleared(refused.None? || i < refused.value)
  {
    var n := (gone + 199) / 200;
    assert n * 200 <= gone + 199 < n * 200 + 200;
  }
}

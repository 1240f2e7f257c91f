/** Where a stream is cut into lines and which of them are handed on (hosts/conn.go, registry/registry.go), with the
    bytes written out. */
module LineRules {
  import opened Wrappers
  import opened L = Lines

  /** Lines with one of the two line breaks behind each, and an unfinished one. */
  function Text(ls: seq<Bytes>, ends: seq<Byte>, last: Bytes): Bytes
    requires |ends| == |ls|
  {
    if ls == [] then last else ls[0] + ([ends[0]] + Text(ls[1..], ends[1..], last))
  }

  /** Feed (10) and return (13) both end a line of a command's output. */
  lemma {:induction false} BothBreaksCut(ls: seq<Bytes>, ends: seq<Byte>, last: Bytes)
    requires |ends| == |ls| && forall i :: 0 <= i < |ends| ==> ends[i] == 10 || ends[i] == 13
    requires (forall i :: 0 <= i < |ls| ==> 10 !in ls[i] && 13 !in ls[i]) && 10 !in last && 13 !in last
    ensures Segs(Text(ls, ends, last), IsBreak) == ls + [last]
    decreases |ls|
  {
    if ls == [] {
      SegsPlain(last, IsBreak);
    } else {
      SegsHead(ls[0], ends[0], Text(ls[1..], ends[1..], last), IsBreak);
      BothBreaksCut(ls[1..], ends[1..], last);
      assert [ls[0]] + (ls[1..] + [last]) == ls + [last];
    }
  }

  /** Only the feed ends a line of the registry's log. */
  lemma {:induction false} FeedCuts(ls: seq<Bytes>, last: Bytes)
    requires (forall i :: 0 <= i < |ls| ==> 10 !in ls[i]) && 10 !in last
    ensures Segs(Text(ls, seq(|ls|, _ => 10), last), IsLF) == ls + [last]
    decreases |ls|
  {
    var ends := seq(|ls|, _ => 10 as Byte);
    if ls == [] {
      SegsPlain(last, IsLF);
    } else {
      assert ends[1..] == seq(|ls[1..]|, _ => 10);
      SegsHead(ls[0], 10, Text(ls[1..], ends[1..], last), IsLF);
      FeedCuts(ls[1..], last);
      assert [ls[0]] + (ls[1..] + [last]) == ls + [last];
    }
  }

  /** One token of the scanner: up to the first line break, which a return followed by a feed is together; what is left
      at the end of the stream is a token without one, and before that no token at all. */
  lemma ScanRule(a: Bytes, rest: Bytes, atEOF: bool)
    requires 10 !in a && 13 !in a
    ensures ScanLinesCR(a + ([10] + rest), atEOF) == (|a| + 1, Some(a))
    ensures ScanLinesCR(a + ([13] + rest), atEOF) == (if rest != [] && rest[0] == 10 then |a| + 2 else |a| + 1, Some(a))
    ensures ScanLinesCR(a, atEOF) == if atEOF && a != [] then (|a|, Some(a)) else (0, None)
  {
    FirstBreak(a, 10, rest);
    FirstBreak(a, 13, rest);
    var x, y := a + ([10] + rest), a + ([13] + rest);
    assert x[|a|] == 10 && y[|a|] == 13 && x[..|a|] == a && y[..|a|] == a;
    assert rest != [] ==> y[|a| + 1] == rest[0];
    assert a[..|a|] == a;
  }

  lemma FirstBreak(a: Bytes, c: Byte, rest: Bytes)
    requires 10 !in a && 13 !in a && (c == 10 || c == 13)
    ensures BreakAt(a + ([c] + rest)) == |a| == BreakAt(a)
  {
    var s := a + ([c] + rest);
    var i := BreakAt(s);
    assert s[|a|] == c;
    assert forall k :: 0 <= k < |a| ==> s[k] == a[k] && a[k] in a;
  }

  /** Blank lines are dropped one by one; every other line stays as it is. */
  lemma KeepLaws(r: seq<Bytes>, l: Bytes, blank: Bytes -> bool)
    ensures Keep([], blank) == []
    ensures Keep(r + [l], blank) == Keep(r, blank) + if blank(l) then [] else [l]
  {
    KeepAppend(r, [l], blank);
    KeepOne(l, blank);
  }

  /** Lines are trimmed one by one; those of which nothing is left are dropped. */
  lemma EmitLaws(r: seq<Bytes>, l: Bytes, trim: Bytes -> Bytes)
    ensures Emit([], trim) == []
    ensures Emit(r + [l], trim) == Emit(r, trim) + if trim(l) == [] then [] else [trim(l)]
  {
    EmitSnoc(r, l, trim);
  }

  /** What RunLogged is handed of a command's output: its lines that are not blank, however the output came in pieces, as
      long as none has a megabyte. */
  lemma OutputIsItsLines(pieces: seq<Bytes>, ls: seq<Bytes>, ends: seq<Byte>, last: Bytes, blank: Bytes -> bool)
    requires |ends| == |ls| && (forall i :: 0 <= i < |ends| ==> ends[i] == 10 || ends[i] == 13)
    requires (forall i :: 0 <= i < |ls| ==> 10 !in ls[i] && 13 !in ls[i]) && 10 !in last && 13 !in last
    requires (forall i :: 0 <= i < |ls| ==> |ls[i]| < 1048576) && |last| < 1048576
    requires Flatten(pieces) == Text(ls, ends, last)
    ensures L.Lines(Flatten(pieces), blank) == Keep(ls + [last], blank)
  {
    BothBreaksCut(ls, ends, last);
    ShortPrefix(ls + [last], |ls| + 1);
    assert (ls + [last])[..|ls| + 1] == ls + [last];
  }

  /** And what the log's writer emits, flushed at the end: its lines, trimmed, that are then not empty. */
  lemma LogIsItsLines(pieces: seq<Bytes>, ls: seq<Bytes>, last: Bytes, trim: Bytes -> Bytes)
    requires (forall i :: 0 <= i < |ls| ==> 10 !in ls[i]) && 10 !in last
    requires Flatten(pieces) == Text(ls, seq(|ls|, _ => 10), last)
    ensures Emit(Segs(Flatten(pieces), IsLF), trim) == Emit(ls + [last], trim)
  {
    FeedCuts(ls, last);
  }
}

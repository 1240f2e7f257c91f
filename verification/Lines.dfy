/** Cutting a byte stream into lines: the scanner behind ExecStream (hosts/conn.go) with the blank-line
    filter of RunLogged (dockerops/containers.go), and the registry's lineWriter (registry.go). The stream
    comes in arbitrary pieces; the lines must not depend on where it was cut.

    What counts as blank, and how a line is trimmed, is a parameter: nothing is assumed of it but that the
    empty line is blank. */
module Lines {
  import opened Wrappers

  type Byte = b: int | 0 <= b < 256
  type Bytes = seq<Byte>

  const LF: Byte := 10
  const CR: Byte := 13

  /** The largest token bufio.Scanner was configured to hold. */
  const MAX_TOKEN: nat := 1024 * 1024

  predicate IsLF(b: Byte) { b == LF }
  predicate IsBreak(b: Byte) { b == LF || b == CR }

  // ---------------------------------------------------------------- splitting a whole text

  /** The text split at every separator, empty pieces included: always at least one piece. */
  function Segs(s: Bytes, sep: Byte -> bool): (r: seq<Bytes>)
    ensures |r| >= 1
  {
    if s == [] then [[]]
    else
      var rest := Segs(s[1..], sep);
      if sep(s[0]) then [[]] + rest else Grow(s[0], rest)
  }

  /** One more byte at the start of the first piece. */
  function Grow(c: Byte, r: seq<Bytes>): (g: seq<Bytes>)
    requires |r| >= 1
    ensures |g| == |r|
  {
    [[c] + r[0]] + r[1..]
  }

  function Init(r: seq<Bytes>): seq<Bytes>
    requires |r| >= 1
  {
    r[..|r| - 1]
  }

  function Last(r: seq<Bytes>): Bytes
    requires |r| >= 1
  {
    r[|r| - 1]
  }

  lemma GrowParts(c: Byte, x: seq<Bytes>, y: seq<Bytes>)
    requires |x| >= 1
    ensures Grow(c, x + y) == Grow(c, x) + y
    ensures |x| > 1 ==> Init(Grow(c, x)) == Grow(c, Init(x)) && Last(Grow(c, x)) == Last(x)
  {
  }

  lemma GrowFirst(c: Byte, l: Bytes, b: Bytes, sep: Byte -> bool)
    requires !sep(c)
    ensures Segs(([c] + l) + b, sep) == Grow(c, Segs(l + b, sep))
  {
    assert (([c] + l) + b)[1..] == l + b;
  }

  lemma FirstPieces(c: Byte, r: seq<Bytes>)
    requires |r| >= 1
    ensures Init([[]] + r) == [[]] + Init(r) && Last([[]] + r) == Last(r)
    ensures |r| == 1 ==> r == [Last(r)] && Init(r) == [] && Init(Grow(c, r)) == [] && Last(Grow(c, r)) == [c] + Last(r)
    ensures |r| > 1 ==> |Init(r)| >= 1
  {
  }

  /** Only the unfinished last piece of what came so far can still change. */
  lemma {:induction false} SegsAppend(a: Bytes, b: Bytes, sep: Byte -> bool)
    ensures Segs(a + b, sep) == Init(Segs(a, sep)) + Segs(Last(Segs(a, sep)) + b, sep)
  {
    hide Init, Last, Grow;
    if a == [] {
      FirstPieces(0, [[]]);
      assert a + b == b && [] + b == b;
    } else {
      assert (a + b)[1..] == a[1..] + b;
      SegsAppend(a[1..], b, sep);
      var r := Segs(a[1..], sep);
      var tail := Segs(Last(r) + b, sep);
      FirstPieces(a[0], r);
      if sep(a[0]) {
        assert [[]] + (Init(r) + tail) == [[]] + Init(r) + tail;
      } else if |r| == 1 {
        GrowFirst(a[0], Last(r), b, sep);
        assert [] + tail == tail;
      } else {
        GrowParts(a[0], Init(r), tail);
        GrowParts(a[0], r, []);
      }
    }
  }

  lemma {:induction false} SegsPlain(a: Bytes, sep: Byte -> bool)
    requires forall i :: 0 <= i < |a| ==> !sep(a[i])
    ensures Segs(a, sep) == [a]
  {
    if a != [] {
      SegsPlain(a[1..], sep);
      assert [a[0]] + a[1..] == a;
    }
  }

  /** A piece without a separator, a separator, the rest. */
  lemma SegsFirst(a: Bytes, c: Byte, rest: Bytes, sep: Byte -> bool)
    requires forall i :: 0 <= i < |a| ==> !sep(a[i])
    requires sep(c)
    ensures Segs(a + [c] + rest, sep) == [a] + Segs(rest, sep)
  {
    SegsPlain(a, sep);
    SegsAppend(a, [c] + rest, sep);
    assert a + ([c] + rest) == a + [c] + rest;
    assert Init([a]) == [];
    SegsHead(a, c, rest, sep);
  }

  lemma {:induction false} SegsHead(a: Bytes, c: Byte, rest: Bytes, sep: Byte -> bool)
    requires forall i :: 0 <= i < |a| ==> !sep(a[i])
    requires sep(c)
    ensures Segs(a + ([c] + rest), sep) == [a] + Segs(rest, sep)
  {
    var s := a + ([c] + rest);
    if a == [] {
      assert s[1..] == rest;
    } else {
      assert s[1..] == a[1..] + ([c] + rest);
      SegsHead(a[1..], c, rest, sep);
      assert [a[0]] + a[1..] == a;
    }
  }

  /** The lines that are not blank. */
  function Keep(r: seq<Bytes>, blank: Bytes -> bool): seq<Bytes> {
    if r == [] then []
    else (if blank(r[0]) then [] else [r[0]]) + Keep(r[1..], blank)
  }

  lemma {:induction false} KeepAppend(a: seq<Bytes>, b: seq<Bytes>, blank: Bytes -> bool)
    ensures Keep(a + b, blank) == Keep(a, blank) + Keep(b, blank)
  {
    if a == [] {
      assert a + b == b;
    } else {
      assert (a + b)[1..] == a[1..] + b;
      KeepAppend(a[1..], b, blank);
    }
  }

  /** What a scanner that gives up on a line of MAX_TOKEN bytes can deliver: the lines before it. */
  function Short(r: seq<Bytes>): seq<Bytes> {
    if r == [] || |r[0]| >= MAX_TOKEN then [] else [r[0]] + Short(r[1..])
  }

  // ---------------------------------------------------------------- the split function

  function BreakAt(data: Bytes): (i: nat)
    ensures i <= |data|
    ensures i < |data| ==> IsBreak(data[i])
    ensures forall k :: 0 <= k < i ==> !IsBreak(data[k])
  {
    if data == [] || IsBreak(data[0]) then 0 else 1 + BreakAt(data[1..])
  }

  /** scanLinesCR: how far to advance and the token found, if any. */
  function ScanLinesCR(data: Bytes, atEOF: bool): (r: (nat, Option<Bytes>))
    ensures r.0 <= |data|
    ensures r.1.Some? ==> r.0 > 0
  {
    if atEOF && data == [] then (0, None)
    else
      var i := BreakAt(data);
      if i < |data| then
        (if data[i] == CR && i + 1 < |data| && data[i + 1] == LF then i + 2 else i + 1, Some(data[..i]))
      else if atEOF then (|data|, Some(data))
      else (0, None)
  }

  /** The non-blank lines a text yields. */
  ghost function Lines(s: Bytes, blank: Bytes -> bool): seq<Bytes> {
    Keep(Short(Segs(s, IsBreak)), blank)
  }

  /** One token taken from the buffer, whatever arrives later: nothing is lost or added but blank lines. */
  lemma TakeToken(data: Bytes, more: Bytes, blank: Bytes -> bool)
    requires blank([])
    requires |data| <= MAX_TOKEN
    requires ScanLinesCR(data, false).1.Some?
    ensures var (n, token) := ScanLinesCR(data, false);
            Lines(data + more, blank) == Keep([token.value], blank) + Lines(data[n..] + more, blank)
  {
    var i := BreakAt(data);
    var (n, token) := ScanLinesCR(data, false);
    assert data + more == data[..i] + [data[i]] + (data[i + 1..] + more);
    SegsFirst(data[..i], data[i], data[i + 1..] + more, IsBreak);
    var rest := Segs(data[i + 1..] + more, IsBreak);
    assert ([data[..i]] + rest)[1..] == rest;
    assert Short([data[..i]] + rest) == [data[..i]] + Short(rest);
    KeepAppend([data[..i]], Short(rest), blank);
    if n == i + 2 {
      assert data[i + 1..] + more == [] + [LF] + (data[n..] + more);
      SegsFirst([], LF, data[n..] + more, IsBreak);
      var last := Segs(data[n..] + more, IsBreak);
      assert ([[]] + last)[1..] == last;
      assert Short(rest) == [[]] + Short(last);
      assert ([[]] + Short(last))[1..] == Short(last);
    }
  }

  /** A full buffer without a line break: the line is too long, nothing more can come of the stream. */
  lemma GiveUp(data: Bytes, more: Bytes, blank: Bytes -> bool)
    requires |data| >= MAX_TOKEN && BreakAt(data) == |data|
    ensures Lines(data + more, blank) == []
  {
    SegsPlain(data, IsBreak);
    SegsAppend(data, more, IsBreak);
    assert Init([data]) == [];
    SegsGrow(data, more);
  }

  lemma {:induction false} SegsGrow(a: Bytes, b: Bytes)
    requires forall i :: 0 <= i < |a| ==> !IsBreak(a[i])
    ensures |Segs(a + b, IsBreak)[0]| >= |a|
  {
    if a == [] {
      assert a + b == b;
    } else {
      assert (a + b)[1..] == a[1..] + b;
      SegsGrow(a[1..], b);
    }
  }

  function Flatten(pieces: seq<Bytes>): Bytes {
    if pieces == [] then [] else pieces[0] + Flatten(pieces[1..])
  }

  /** All complete tokens in the buffer are handed on; `more` is what the stream still brings. */
  method Drain(data: Bytes, blank: Bytes -> bool, ghost more: Bytes) returns (kept: seq<Bytes>, buf: Bytes)
    requires blank([])
    requires |data| <= MAX_TOKEN
    ensures |buf| <= |data| && BreakAt(buf) == |buf|
    ensures Lines(data + more, blank) == kept + Lines(buf + more, blank)
  {
    kept, buf := [], data;
    while true
      invariant |buf| <= |data|
      invariant Lines(data + more, blank) == kept + Lines(buf + more, blank)
      decreases |buf|
    {
      var (n, token) := ScanLinesCR(buf, false);
      if token.None? {
        break;
      }
      TakeToken(buf, more, blank);
      KeepOne(token.value, blank);
      ghost var rest := Lines(buf[n..] + more, blank);
      assert kept + (Keep([token.value], blank) + rest) == kept + Keep([token.value], blank) + rest;
      buf := buf[n..];
      if blank(token.value) {
        assert kept + [] == kept;
        continue;
      }
      kept := kept + [token.value];
    }
  }

  lemma KeepOne(l: Bytes, blank: Bytes -> bool)
    ensures Keep([l], blank) == if blank(l) then [] else [l]
  {
    assert [l][1..] == [];
  }

  /** The reads that one piece takes, and the tokens after each. */
  method Feed(before: Bytes, piece: Bytes, blank: Bytes -> bool, ghost later: Bytes)
    returns (kept: seq<Bytes>, buf: Bytes, stopped: bool)
    requires blank([])
    requires |before| < MAX_TOKEN && BreakAt(before) == |before|
    ensures !stopped ==> |buf| < MAX_TOKEN && BreakAt(buf) == |buf|
    ensures Lines(before + (piece + later), blank) == if stopped then kept else kept + Lines(buf + later, blank)
    decreases |piece|
  {
    kept, buf, stopped := [], before, false;
    var todo := piece;
    while todo != []
      invariant |buf| < MAX_TOKEN && BreakAt(buf) == |buf|
      invariant Lines(before + (piece + later), blank) == kept + Lines(buf + (todo + later), blank)
      decreases |todo|
    {
      var n := if |todo| <= MAX_TOKEN - |buf| then |todo| else MAX_TOKEN - |buf|;
      ghost var after := todo[n..] + later;
      assert buf + (todo + later) == (buf + todo[..n]) + after;
      var lines, rest := Drain(buf + todo[..n], blank, after);
      Regroup(kept, lines, Lines(rest + after, blank));
      kept := kept + lines;
      if |rest| >= MAX_TOKEN {
        GiveUp(rest, after, blank);
        return kept, rest, true;
      }
      buf, todo := rest, todo[n..];
    }
    assert [] + later == later;
  }

  lemma Regroup(a: seq<Bytes>, b: seq<Bytes>, c: seq<Bytes>)
    ensures a + (b + c) == a + b + c
    ensures a + b + [] == a + b
  {
  }

  /** ExecStream with RunLogged's filter. Each piece is what one write to the pipe delivers; a read takes no
      more than the buffer has room for. However the stream is cut into pieces, the non-blank lines handed
      on are those of the whole stream up to the first line of MAX_TOKEN bytes. */
  method ExecStream(pieces: seq<Bytes>, blank: Bytes -> bool) returns (lines: seq<Bytes>)
    requires blank([])
    ensures lines == Lines(Flatten(pieces), blank)
  {
    lines := [];
    var buf: Bytes := [];
    assert [] + Flatten(pieces) == Flatten(pieces);
    for k := 0 to |pieces|
      invariant |buf| < MAX_TOKEN && BreakAt(buf) == |buf|
      invariant Lines(Flatten(pieces), blank) == lines + Lines(buf + Flatten(pieces[k..]), blank)
    {
      assert pieces[k..][1..] == pieces[k + 1..];
      ghost var later := Flatten(pieces[k + 1..]);
      var kept, rest, stopped := Feed(buf, pieces[k], blank, later);
      Regroup(lines, kept, Lines(rest + later, blank));
      lines := lines + kept;
      if stopped {
        return;
      }
      buf := rest;
    }
    assert pieces[|pieces|..] == [] && buf + [] == buf;
    LastLine(buf, blank);
    var (_, token) := ScanLinesCR(buf, true);
    if token.Some? && !blank(token.value) {
      lines := lines + [token.value];
    }
  }

  lemma LastLine(buf: Bytes, blank: Bytes -> bool)
    requires blank([])
    requires |buf| < MAX_TOKEN && BreakAt(buf) == |buf|
    ensures Lines(buf, blank) == if blank(buf) then [] else [buf]
  {
    KeepOne(buf, blank);
    SegsPlain(buf, IsBreak);
    assert [buf][1..] == [];
    assert Short([buf]) == [buf];
  }

  /** Without an over-long line, the lines handed on are all non-blank lines of the stream; with one, they
      are the non-blank lines in front of the first. */
  lemma WhatIsHandedOn(s: Bytes, blank: Bytes -> bool, k: nat)
    requires k <= |Segs(s, IsBreak)|
    requires forall i :: 0 <= i < k ==> |Segs(s, IsBreak)[i]| < MAX_TOKEN
    requires k < |Segs(s, IsBreak)| ==> |Segs(s, IsBreak)[k]| >= MAX_TOKEN
    ensures Lines(s, blank) == Keep(Segs(s, IsBreak)[..k], blank)
  {
    ShortPrefix(Segs(s, IsBreak), k);
  }

  lemma {:induction false} ShortPrefix(r: seq<Bytes>, k: nat)
    requires k <= |r|
    requires forall i :: 0 <= i < k ==> |r[i]| < MAX_TOKEN
    requires k < |r| ==> |r[k]| >= MAX_TOKEN
    ensures Short(r) == r[..k]
  {
    if k > 0 {
      ShortPrefix(r[1..], k - 1);
      assert r[..k] == [r[0]] + r[1..][..k - 1];
    }
  }

  // ---------------------------------------------------------------- lineWriter

  function EmitOne(l: Bytes, trim: Bytes -> Bytes): seq<Bytes> {
    if trim(l) == [] then [] else [trim(l)]
  }

  /** The trimmed lines that are not empty. */
  function Emit(r: seq<Bytes>, trim: Bytes -> Bytes): seq<Bytes> {
    if r == [] then [] else EmitOne(r[0], trim) + Emit(r[1..], trim)
  }

  lemma {:induction false} EmitSnoc(r: seq<Bytes>, l: Bytes, trim: Bytes -> Bytes)
    ensures Emit(r + [l], trim) == Emit(r, trim) + EmitOne(l, trim)
  {
    if r == [] {
      assert [] + [l] == [l] && [l][1..] == [];
      assert EmitOne(l, trim) + [] == [] + EmitOne(l, trim);
    } else {
      assert (r + [l])[1..] == r[1..] + [l];
      EmitSnoc(r[1..], l, trim);
      assert EmitOne(r[0], trim) + (Emit(r[1..], trim) + EmitOne(l, trim))
          == EmitOne(r[0], trim) + Emit(r[1..], trim) + EmitOne(l, trim);
    }
  }

  function FeedAt(data: Bytes): (i: nat)
    ensures i <= |data|
    ensures i < |data| ==> data[i] == LF
    ensures forall k :: 0 <= k < i ==> data[k] != LF
  {
    if data == [] || data[0] == LF then 0 else 1 + FeedAt(data[1..])
  }

  /** lineWriter: `emitted` are the calls of its callback; the ghost fields remember all bytes written since
      the last flush and what had been emitted by then. */
  class LineWriter {
    var buf: Bytes
    var emitted: seq<Bytes>
    const trim: Bytes -> Bytes
    ghost var written: Bytes
    ghost var before: seq<Bytes>

    ghost predicate Valid()
      reads this
    {
      && emitted == before + Emit(Init(Segs(written, IsLF)), trim)
      && buf == Last(Segs(written, IsLF))
    }

    constructor (trim: Bytes -> Bytes)
      ensures Valid() && written == [] && emitted == [] && this.trim == trim
    {
      this.trim := trim;
      buf, emitted, written, before := [], [], [], [];
    }

    method Write(p: Bytes) returns (n: nat)
      requires Valid()
      modifies this
      ensures Valid() && n == |p|
      ensures written == old(written) + p && before == old(before)
    {
      ghost var done := Init(Segs(written, IsLF));
      SegsAppend(written, p, IsLF);
      buf := buf + p;
      ghost var whole := written + p;
      while true
        invariant Segs(whole, IsLF) == done + Segs(buf, IsLF)
        invariant emitted == before + Emit(done, trim)
        invariant written == old(written) && before == old(before)
        decreases |buf|
      {
        var i := FeedAt(buf);
        if i == |buf| {
          break;
        }
        LineOut(done, buf, i);
        EmitSnoc(done, buf[..i], trim);
        var l := trim(buf[..i]);
        assert before + (Emit(done, trim) + EmitOne(buf[..i], trim)) == before + Emit(done, trim) + EmitOne(buf[..i], trim);
        if l != [] {
          emitted := emitted + [l];
        }
        done := done + [buf[..i]];
        buf := buf[i + 1..];
      }
      SegsPlain(buf, IsLF);
      written := whole;
      return |p|;
    }

    method Flush()
      requires Valid()
      modifies this
      ensures Valid()
      ensures emitted == old(before) + Emit(Segs(old(written), IsLF), trim)
      ensures before == emitted && written == [] && buf == []
    {
      hide Segs, Emit, Init, Last;
      NothingWritten(trim);
      PiecesAre(Segs(written, IsLF));
      var l := trim(buf);
      ghost var r := Segs(written, IsLF);
      assert r == Init(r) + [buf];
      EmitSnoc(Init(r), buf, trim);
      assert before + (Emit(Init(r), trim) + EmitOne(buf, trim)) == before + Emit(Init(r), trim) + EmitOne(buf, trim);
      if l != [] {
        emitted := emitted + [l];
      }
      buf := [];
      written, before := [], emitted;
      assert before + [] == before;
    }
  }

  lemma NothingWritten(trim: Bytes -> Bytes)
    ensures Emit(Init(Segs([], IsLF)), trim) == [] && Last(Segs([], IsLF)) == []
  {
  }

  lemma PiecesAre(r: seq<Bytes>)
    requires |r| >= 1
    ensures r == Init(r) + [Last(r)]
  {
  }

  lemma LineOut(done: seq<Bytes>, buf: Bytes, i: nat)
    requires i < |buf| && i == FeedAt(buf)
    ensures done + Segs(buf, IsLF) == done + [buf[..i]] + Segs(buf[i + 1..], IsLF)
  {
    hide Segs, Init, Last;
    var l, rest := buf[..i], buf[i + 1..];
    assert l + [LF] + rest == buf;
    SegsFirst(l, LF, rest, IsLF);
    Regrouped(done, l, Segs(rest, IsLF));
  }

  lemma Regrouped(done: seq<Bytes>, l: Bytes, more: seq<Bytes>)
    ensures done + ([l] + more) == done + [l] + more
  {
  }

  /** Whatever the cuts, writing the pieces and flushing emits the lines of the concatenation. */
  method WriteAll(w: LineWriter, pieces: seq<Bytes>)
    requires w.Valid() && w.written == []
    modifies w
    ensures w.Valid()
    ensures w.emitted == old(w.before) + Emit(Segs(Flatten(pieces), IsLF), w.trim)
  {
    assert [] + Flatten(pieces) == Flatten(pieces);
    for k := 0 to |pieces|
      invariant w.Valid() && w.before == old(w.before)
      invariant w.written + Flatten(pieces[k..]) == Flatten(pieces)
    {
      assert pieces[k..][1..] == pieces[k + 1..];
      assert w.written + (pieces[k] + Flatten(pieces[k + 1..])) == w.written + pieces[k] + Flatten(pieces[k + 1..]);
      var _ := w.Write(pieces[k]);
    }
    assert pieces[|pieces|..] == [] && w.written + [] == w.written;
    w.Flush();
  }
}

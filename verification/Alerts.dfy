/** Alert rows keyed by a dedupe key (alerts/alerts.go), the evaluation of a host's samples into alerts, and
    the offline bookkeeping of the poller (monitor/monitor.go). Percentages are reals. Database calls are
    taken to succeed. */
module Alerts {

  type Key = string
  datatype Row = Row(open: bool, severity: string)

  /** A notification handed to dispatch: a raised alert or an event. */
  datatype Notice = Raised(key: Key) | Happened(key: Key)

  datatype State = State(rows: map<Key, Row>, sent: seq<Notice>)

  predicate Open(rows: map<Key, Row>, key: Key) { key in rows && rows[key].open }

  // ---------------------------------------------------------------- the statements

  /** Opens or re-opens; notifies only when the alert was not open. */
  function RaiseIn(s: State, key: Key, severity: string): State {
    if Open(s.rows, key)
    then s.(rows := s.rows[key := Row(true, severity)])
    else State(s.rows[key := Row(true, severity)], s.sent + [Raised(key)])
  }

  function EventIn(s: State, key: Key, severity: string): State {
    State(s.rows[key := Row(false, severity)], s.sent + [Happened(key)])
  }

  function ResolveIn(s: State, key: Key): State {
    if Open(s.rows, key) then s.(rows := s.rows[key := s.rows[key].(open := false)]) else s
  }

  function ResolvePrefixIn(s: State, prefix: string, keep: set<Key>): State {
    s.(rows := map k | k in s.rows ::
         if s.rows[k].open && prefix <= k && k !in keep then s.rows[k].(open := false) else s.rows[k])
  }

  // ---------------------------------------------------------------- evaluating a host's samples

  const THRESHOLD: real := 90.0

  datatype Container = Container(name: string, state: string, health: string)
  datatype Sample = Sample(host: string, wasOffline: bool, mem: real, disk: real, ctrs: seq<Container>)

  function UnhealthyPrefix(host: string): string { "unhealthy:" + host + ":" }
  function ExitedPrefix(host: string): string { "container_exited:" + host + ":" }

  predicate Exited(c: Container) { c.state == "exited" || c.state == "dead" }

  function UnhealthyKeys(host: string, ctrs: seq<Container>): set<Key> {
    set c | c in ctrs && c.health == "unhealthy" :: UnhealthyPrefix(host) + c.name
  }

  function ExitedKeys(host: string, ctrs: seq<Container>): set<Key> {
    set c | c in ctrs && Exited(c) :: ExitedPrefix(host) + c.name
  }

  class Engine {
    var rows: map<Key, Row>
    var sent: seq<Notice>

    ghost function View(): State
      reads this
    {
      State(rows, sent)
    }

    constructor ()
      ensures View() == State(map[], [])
    {
      rows, sent := map[], [];
    }

    method Raise(key: Key, severity: string)
      modifies this
      ensures View() == RaiseIn(old(View()), key, severity)
    {
      var wasOpen := key in rows && rows[key].open;
      rows := rows[key := Row(true, severity)];
      if wasOpen {
        return;
      }
      sent := sent + [Raised(key)];
    }

    method Event(key: Key, severity: string)
      modifies this
      ensures View() == EventIn(old(View()), key, severity)
    {
      rows := rows[key := Row(false, severity)];
      sent := sent + [Happened(key)];
    }

    method Resolve(key: Key) returns (was: bool)
      modifies this
      ensures View() == ResolveIn(old(View()), key) && was == Open(old(rows), key)
    {
      was := key in rows && rows[key].open;
      if was {
        rows := rows[key := rows[key].(open := false)];
      }
    }

    method ResolvePrefix(prefix: string, keep: set<Key>)
      modifies this
      ensures View() == ResolvePrefixIn(old(View()), prefix, keep)
    {
      ghost var before := rows;
      var todo := rows.Keys;
      while todo != {}
        invariant todo <= before.Keys && rows.Keys == before.Keys && sent == old(sent)
        invariant forall k :: k in before ==>
                    rows[k] == if k !in todo && before[k].open && prefix <= k && k !in keep
                               then before[k].(open := false) else before[k]
        decreases todo
      {
        var k :| k in todo;
        if rows[k].open && prefix <= k && k !in keep {
          rows := rows[k := rows[k].(open := false)];
        }
        todo := todo - {k};
      }
      assert rows == ResolvePrefixIn(State(before, sent), prefix, keep).rows;
    }

    /** A host that answers again. */
    method Recover(p: Sample)
      modifies this
      ensures View() == if p.wasOffline then Recovered(old(View()), p.host) else old(View())
    {
      if p.wasOffline {
        var was := Resolve("host_down:" + p.host);
        if was {
          Event("host_up:" + p.host, "ok");
        }
      }
    }

    /** One of the two percentages. */
    method SetLevel(key: Key, pct: real, severity: string)
      modifies this
      ensures View() == Level(old(View()), key, pct, severity)
    {
      if pct >= THRESHOLD {
        Raise(key, severity);
      } else if pct > 0.0 && pct < THRESHOLD - 2.0 {
        var _ := Resolve(key);
      }
    }

    /** The loop over the containers and the two resolves behind it. */
    method Containers(p: Sample)
      modifies this
      ensures View() == CheckedContainers(old(View()), p)
    {
      var keep, exitedKeep: set<Key> := {}, {};
      ghost var s := View();
      for i := 0 to |p.ctrs|
        invariant View() == RaisedAll(s, p.host, p.ctrs[..i])
        invariant keep == UnhealthyKeys(p.host, p.ctrs[..i])
        invariant exitedKeep == ExitedKeys(p.host, p.ctrs[..i])
      {
        var c := p.ctrs[i];
        assert p.ctrs[..i + 1] == p.ctrs[..i] + [c];
        RaisedAllSnoc(s, p.host, p.ctrs[..i], c);
        if c.health == "unhealthy" {
          keep := keep + {UnhealthyPrefix(p.host) + c.name};
          Raise(UnhealthyPrefix(p.host) + c.name, "warn");
        }
        if c.state == "exited" || c.state == "dead" {
          exitedKeep := exitedKeep + {ExitedPrefix(p.host) + c.name};
        }
      }
      assert p.ctrs[..|p.ctrs|] == p.ctrs;
      ResolvePrefix(UnhealthyPrefix(p.host), keep);
      ResolvePrefix(ExitedPrefix(p.host), exitedKeep);
    }

    /** evaluateAlerts. A sample is decisive at the threshold or above, and below it by more than two points
        unless it is 0; in between the alert stays as it is. */
    method Evaluate(p: Sample)
      modifies this
      ensures View() == Evaluated(old(View()), p)
    {
      Recover(p);
      SetLevel("disk:" + p.host, p.disk, if p.disk >= 95.0 then "crit" else "warn");
      SetLevel("mem:" + p.host, p.mem, "warn");
      Containers(p);
    }
  }

  function RaisedAll(s: State, host: string, ctrs: seq<Container>): State
    decreases |ctrs|
  {
    if ctrs == [] then s
    else
      var t := if ctrs[0].health == "unhealthy" then RaiseIn(s, UnhealthyPrefix(host) + ctrs[0].name, "warn") else s;
      RaisedAll(t, host, ctrs[1..])
  }

  lemma {:induction false} RaisedAllSnoc(s: State, host: string, ctrs: seq<Container>, c: Container)
    ensures var t := RaisedAll(s, host, ctrs);
            RaisedAll(s, host, ctrs + [c])
            == if c.health == "unhealthy" then RaiseIn(t, UnhealthyPrefix(host) + c.name, "warn") else t
    decreases |ctrs|
  {
    if ctrs == [] {
      assert [] + [c] == [c] && [c][1..] == [];
    } else {
      assert (ctrs + [c])[1..] == ctrs[1..] + [c];
      var t := if ctrs[0].health == "unhealthy" then RaiseIn(s, UnhealthyPrefix(host) + ctrs[0].name, "warn") else s;
      RaisedAllSnoc(t, host, ctrs[1..], c);
    }
  }

  /** The percentage alerts: raise at the threshold, resolve below the band, else leave. */
  function Level(s: State, key: Key, pct: real, severity: string): State {
    if pct >= THRESHOLD then RaiseIn(s, key, severity)
    else if pct > 0.0 && pct < THRESHOLD - 2.0 then ResolveIn(s, key)
    else s
  }

  function Recovered(s: State, host: string): State {
    if Open(s.rows, "host_down:" + host)
    then EventIn(ResolveIn(s, "host_down:" + host), "host_up:" + host, "ok")
    else s
  }

  function Evaluated(s: State, p: Sample): State {
    var s1 := if p.wasOffline then Recovered(s, p.host) else s;
    var s2 := Level(s1, "disk:" + p.host, p.disk, if p.disk >= 95.0 then "crit" else "warn");
    var s3 := Level(s2, "mem:" + p.host, p.mem, "warn");
    CheckedContainers(s3, p)
  }

  function CheckedContainers(s: State, p: Sample): State {
    var t := ResolvePrefixIn(RaisedAll(s, p.host, p.ctrs), UnhealthyPrefix(p.host), UnhealthyKeys(p.host, p.ctrs));
    ResolvePrefixIn(t, ExitedPrefix(p.host), ExitedKeys(p.host, p.ctrs))
  }

  // ---------------------------------------------------------------- what one evaluation leaves open

  lemma {:induction false} RaisedAllOpens(s: State, host: string, ctrs: seq<Container>, k: Key)
    ensures Open(RaisedAll(s, host, ctrs).rows, k) <==> Open(s.rows, k) || k in UnhealthyKeys(host, ctrs)
    decreases |ctrs|
  {
    if ctrs != [] {
      var t := if ctrs[0].health == "unhealthy" then RaiseIn(s, UnhealthyPrefix(host) + ctrs[0].name, "warn") else s;
      RaisedAllOpens(t, host, ctrs[1..], k);
      assert ctrs == [ctrs[0]] + ctrs[1..];
      assert UnhealthyKeys(host, ctrs) == UnhealthyKeys(host, ctrs[1..])
          + if ctrs[0].health == "unhealthy" then {UnhealthyPrefix(host) + ctrs[0].name} else {};
    }
  }

  /** The three families of keys an evaluation writes besides host_down and host_up. */
  predicate IsLevelKey(k: Key) { "disk:" <= k || "mem:" <= k }

  lemma PrefixesApart(host: string, k: Key)
    ensures UnhealthyPrefix(host) <= k ==> k[0] == 'u'
    ensures ExitedPrefix(host) <= k ==> k[0] == 'c'
    ensures "disk:" <= k ==> k[0] == 'd'
    ensures "mem:" <= k ==> k[0] == 'm'
    ensures k in {"host_down:" + host, "host_up:" + host} ==> k[0] == 'h'
  {
  }

  /** What an evaluation does to the alert of one key, whatever the key. */
  function OpenAfter(open: bool, p: Sample, k: Key): bool {
    if k == "disk:" + p.host then p.disk >= THRESHOLD || (open && !(p.disk > 0.0 && p.disk < THRESHOLD - 2.0))
    else if k == "mem:" + p.host then p.mem >= THRESHOLD || (open && !(p.mem > 0.0 && p.mem < THRESHOLD - 2.0))
    else if UnhealthyPrefix(p.host) <= k then k in UnhealthyKeys(p.host, p.ctrs)
    else if ExitedPrefix(p.host) <= k then open && k in ExitedKeys(p.host, p.ctrs)
    else if k == "host_down:" + p.host then open && !p.wasOffline
    else if k == "host_up:" + p.host then open
    else open
  }

  lemma KeysHavePrefix(host: string, ctrs: seq<Container>)
    ensures forall k :: k in UnhealthyKeys(host, ctrs) ==> UnhealthyPrefix(host) <= k
    ensures forall k :: k in ExitedKeys(host, ctrs) ==> ExitedPrefix(host) <= k
  {
  }

  lemma LevelOpen(s: State, key: Key, pct: real, severity: string, k: Key)
    ensures Open(Level(s, key, pct, severity).rows, k)
       <==> if k == key then pct >= THRESHOLD || (Open(s.rows, k) && !(pct > 0.0 && pct < THRESHOLD - 2.0))
            else Open(s.rows, k)
  {
  }

  lemma PrefixOpen(s: State, prefix: string, keep: set<Key>, k: Key)
    ensures Open(ResolvePrefixIn(s, prefix, keep).rows, k) <==> Open(s.rows, k) && (prefix <= k ==> k in keep)
  {
  }

  lemma RecoveredOpen(s: State, host: string, k: Key)
    requires !Open(s.rows, "host_up:" + host)
    ensures Open(Recovered(s, host).rows, k) <==> Open(s.rows, k) && k != "host_down:" + host
  {
    assert ("host_down:" + host)[5] == 'd' && ("host_up:" + host)[5] == 'u';
  }

  /** After an evaluation exactly these alerts are open: the host's unhealthy containers and no others of its
      unhealthy alerts; of its exited alerts those whose container is still down; the percentage alerts by
      their thresholds; and every other alert as before, except that a recovery closes host_down. host_up is
      an event, never an open alert. */
  lemma EvaluateOpens(s: State, p: Sample, k: Key)
    requires !Open(s.rows, "host_up:" + p.host)
    ensures Open(Evaluated(s, p).rows, k) <==> OpenAfter(Open(s.rows, k), p, k)
  {
    PrefixesApart(p.host, k);
    KeysHavePrefix(p.host, p.ctrs);
    var s1 := if p.wasOffline then Recovered(s, p.host) else s;
    RecoveredOpen(s, p.host, k);
    var sev := if p.disk >= 95.0 then "crit" else "warn";
    LevelOpen(s1, "disk:" + p.host, p.disk, sev, k);
    var s2 := Level(s1, "disk:" + p.host, p.disk, sev);
    LevelOpen(s2, "mem:" + p.host, p.mem, "warn", k);
    var s3 := Level(s2, "mem:" + p.host, p.mem, "warn");
    RaisedAllOpens(s3, p.host, p.ctrs, k);
    var s4 := RaisedAll(s3, p.host, p.ctrs);
    PrefixOpen(s4, UnhealthyPrefix(p.host), UnhealthyKeys(p.host, p.ctrs), k);
    var s5 := ResolvePrefixIn(s4, UnhealthyPrefix(p.host), UnhealthyKeys(p.host, p.ctrs));
    PrefixOpen(s5, ExitedPrefix(p.host), ExitedKeys(p.host, p.ctrs), k);
    assert "disk:" <= "disk:" + p.host && "mem:" <= "mem:" + p.host;
  }

  /** The keys of a host's alerts, for containers of the given name. */
  function KeysOf(host: string, name: string): set<Key> {
    {UnhealthyPrefix(host) + name, ExitedPrefix(host) + name, "disk:" + host, "mem:" + host, "host_down:" + host}
  }

  lemma OtherHostsKey(p: Sample, other: string, name: string, k: Key, open: bool)
    requires ':' !in p.host && ':' !in other && other != p.host
    requires k in KeysOf(other, name)
    ensures OpenAfter(open, p, k) == open
  {
    PrefixesApart(other, k);
    PrefixesApart(p.host, k);
    if k == UnhealthyPrefix(other) + name {
      HostsApart("unhealthy:", p.host, other, name);
    } else if k == ExitedPrefix(other) + name {
      HostsApart("container_exited:", p.host, other, name);
    } else if k == "disk:" + other {
      SameTail("disk:", p.host, other);
    } else if k == "mem:" + other {
      SameTail("mem:", p.host, other);
    } else {
      SameTail("host_down:", p.host, other);
      assert k[5] == 'd' && ("host_up:" + p.host)[5] == 'u';
    }
    assert ("disk:" + p.host)[0] == 'd' && ("mem:" + p.host)[0] == 'm';
    assert ("host_down:" + p.host)[0] == 'h' && ("host_up:" + p.host)[0] == 'h';
  }

  /** Another host's alerts are not touched: no host id contains a colon. */
  lemma OtherHostsUntouched(s: State, p: Sample, other: string, name: string)
    requires !Open(s.rows, "host_up:" + p.host)
    requires ':' !in p.host && ':' !in other && other != p.host
    ensures forall k :: k in KeysOf(other, name) ==> Open(Evaluated(s, p).rows, k) == Open(s.rows, k)
  {
    forall k | k in KeysOf(other, name)
      ensures Open(Evaluated(s, p).rows, k) == Open(s.rows, k)
    {
      EvaluateOpens(s, p, k);
      OtherHostsKey(p, other, name, k, Open(s.rows, k));
    }
  }

  lemma SameTail(prefix: string, a: string, b: string)
    requires a != b
    ensures prefix + a != prefix + b
  {
    assert (prefix + a)[|prefix|..] == a;
    assert (prefix + b)[|prefix|..] == b;
  }

  lemma {:induction false} UpToColon(a: string, b: string, name: string)
    requires ':' !in a && ':' !in b && a != b
    ensures !(a + ":" <= b + ":" + name)
  {
    var x, y := a + ":", b + ":" + name;
    assert x[0] == if a == "" then ':' else a[0];
    assert y[0] == if b == "" then ':' else b[0];
    if a != "" && b != "" && a[0] == b[0] {
      assert a == [a[0]] + a[1..] && b == [b[0]] + b[1..];
      UpToColon(a[1..], b[1..], name);
      assert x[1..] == a[1..] + ":" && y[1..] == b[1..] + ":" + name;
    }
  }

  lemma HostsApart(kind: string, a: string, b: string, name: string)
    requires ':' !in a && ':' !in b && a != b
    ensures !(kind + a + ":" <= kind + b + ":" + name)
  {
    UpToColon(a, b, name);
    assert (kind + a + ":")[|kind|..] == a + ":";
    assert (kind + b + ":" + name)[|kind|..] == b + ":" + name;
  }

  // ---------------------------------------------------------------- whole runs

  datatype Op =
    | Evaluate(p: Sample)
    | Raise(key: Key, severity: string)
    | Event(key: Key, severity: string)
    | Resolve(key: Key)
    | ResolvePrefix(prefix: string, keep: set<Key>)
    | Prune(gone: set<Key>)

  /** Prune deletes old resolved rows. */
  function Apply(s: State, op: Op): State {
    match op
    case Evaluate(p) => Evaluated(s, p)
    case Raise(k, sev) => RaiseIn(s, k, sev)
    case Event(k, sev) => EventIn(s, k, sev)
    case Resolve(k) => ResolveIn(s, k)
    case ResolvePrefix(prefix, keep) => ResolvePrefixIn(s, prefix, keep)
    case Prune(gone) => s.(rows := map k | k in s.rows && (s.rows[k].open || k !in gone) :: s.rows[k])
  }

  function Run(s: State, ops: seq<Op>): State
    decreases |ops|
  {
    if ops == [] then s else Run(Apply(s, ops[0]), ops[1..])
  }

  const EMPTY: State := State(map[], [])

  /** The percentage alerts and host_up are written by evaluations only. */
  predicate Elsewhere(op: Op) {
    match op
    case Evaluate(_) => true
    case Raise(k, _) => !IsLevelKey(k) && !("host_up:" <= k)
    case Event(k, _) => !IsLevelKey(k)
    case Resolve(k) => !IsLevelKey(k)
    case ResolvePrefix(prefix, _) => |prefix| > 0 && prefix[0] !in "dm"
    case Prune(_) => true
  }

  /** The percentage a sample has for a level key, if it is of that host and decisive: at least the
      threshold, or above 0 and below the threshold by more than two points. */
  predicate Decisive(p: Sample, k: Key) {
    || (k == "disk:" + p.host && (p.disk >= THRESHOLD || (p.disk > 0.0 && p.disk < THRESHOLD - 2.0)))
    || (k == "mem:" + p.host && (p.mem >= THRESHOLD || (p.mem > 0.0 && p.mem < THRESHOLD - 2.0)))
  }

  predicate High(p: Sample, k: Key) {
    (k == "disk:" + p.host && p.disk >= THRESHOLD) || (k == "mem:" + p.host && p.mem >= THRESHOLD)
  }

  /** Whether the latest decisive sample of the run was high; `start` if there was none. */
  function LatestHigh(ops: seq<Op>, k: Key, start: bool): bool {
    if ops == [] then start
    else
      var last := ops[|ops| - 1];
      if last.Evaluate? && Decisive(last.p, k) then High(last.p, k) else LatestHigh(ops[..|ops| - 1], k, start)
  }

  lemma {:induction false} RunSnoc(s: State, ops: seq<Op>, op: Op)
    ensures Run(s, ops + [op]) == Apply(Run(s, ops), op)
    decreases |ops|
  {
    if ops == [] {
      assert [] + [op] == [op] && [op][1..] == [];
    } else {
      assert (ops + [op])[1..] == ops[1..] + [op];
      RunSnoc(Apply(s, ops[0]), ops[1..], op);
    }
  }

  ghost predicate NoHostUp(s: State) {
    forall k :: k in s.rows && "host_up:" <= k ==> !s.rows[k].open
  }

  lemma NoHostUpStep(s: State, op: Op)
    requires NoHostUp(s) && Elsewhere(op)
    ensures NoHostUp(Apply(s, op))
  {
    if op.Evaluate? {
      assert "host_up:" <= "host_up:" + op.p.host;
      forall k | k in Apply(s, op).rows && "host_up:" <= k ensures !Open(Apply(s, op).rows, k) {
        EvaluateOpens(s, op.p, k);
        PrefixesApart(op.p.host, k);
        assert "host_down:" <= "host_down:" + op.p.host;
      }
    }
  }

  /** Over any run, of any hosts' samples and any other alerts, a host's disk or memory alert is open exactly
      when the latest decisive sample was at or above the threshold. */
  lemma {:induction false} LevelFollowsSamples(ops: seq<Op>, k: Key)
    requires IsLevelKey(k)
    requires forall i :: 0 <= i < |ops| ==> Elsewhere(ops[i])
    ensures NoHostUp(Run(EMPTY, ops))
    ensures Open(Run(EMPTY, ops).rows, k) <==> LatestHigh(ops, k, false)
  {
    if ops != [] {
      var init, last := ops[..|ops| - 1], ops[|ops| - 1];
      assert ops == init + [last];
      LevelFollowsSamples(init, k);
      RunSnoc(EMPTY, init, last);
      var s := Run(EMPTY, init);
      NoHostUpStep(s, last);
      if last.Evaluate? {
        assert "host_up:" <= "host_up:" + last.p.host;
        EvaluateOpens(s, last.p, k);
        PrefixesApart(last.p.host, k);
        assert "host_down:" <= "host_down:" + last.p.host;
      }
    }
  }

  // ---------------------------------------------------------------- notifications

  function RaisedCount(sent: seq<Notice>, k: Key): nat {
    if sent == [] then 0 else (if sent[|sent| - 1] == Raised(k) then 1 else 0) + RaisedCount(sent[..|sent| - 1], k)
  }

  /** The basic statements; an evaluation is a sequence of them. */
  predicate Basic(op: Op) { !op.Evaluate? }

  /** How often the key went from not open to open. */
  function Openings(s: State, ops: seq<Op>, k: Key): nat
    decreases |ops|
  {
    if ops == [] then 0
    else (if !Open(s.rows, k) && Open(Apply(s, ops[0]).rows, k) then 1 else 0) + Openings(Apply(s, ops[0]), ops[1..], k)
  }

  lemma NoticeStep(s: State, op: Op, k: Key)
    requires Basic(op)
    ensures RaisedCount(Apply(s, op).sent, k)
         == RaisedCount(s.sent, k) + if !Open(s.rows, k) && Open(Apply(s, op).rows, k) then 1 else 0
  {
    var t := Apply(s, op);
    if |t.sent| > |s.sent| {
      assert t.sent[..|t.sent| - 1] == s.sent;
    }
  }

  /** With each Raise in one step, a key is notified exactly as often as it goes from closed to open. */
  lemma {:induction false} OneNoticePerOpening(s: State, ops: seq<Op>, k: Key)
    requires forall i :: 0 <= i < |ops| ==> Basic(ops[i])
    ensures RaisedCount(Run(s, ops).sent, k) == RaisedCount(s.sent, k) + Openings(s, ops, k)
    decreases |ops|
  {
    if ops != [] {
      NoticeStep(s, ops[0], k);
      OneNoticePerOpening(Apply(s, ops[0]), ops[1..], k);
    }
  }

  /** An evaluation as basic statements. */
  function Statements(s: State, p: Sample): seq<Op> {
    UpOps(s, p) + LevelOps("disk:" + p.host, p.disk, if p.disk >= 95.0 then "crit" else "warn")
    + LevelOps("mem:" + p.host, p.mem, "warn")
    + RaiseOps(p.host, p.ctrs)
    + [ResolvePrefix(UnhealthyPrefix(p.host), UnhealthyKeys(p.host, p.ctrs)),
       ResolvePrefix(ExitedPrefix(p.host), ExitedKeys(p.host, p.ctrs))]
  }

  function UpOps(s: State, p: Sample): seq<Op> {
    if p.wasOffline && Open(s.rows, "host_down:" + p.host)
    then [Resolve("host_down:" + p.host), Event("host_up:" + p.host, "ok")] else []
  }

  function LevelOps(key: Key, pct: real, severity: string): seq<Op> {
    if pct >= THRESHOLD then [Raise(key, severity)]
    else if pct > 0.0 && pct < THRESHOLD - 2.0 then [Resolve(key)]
    else []
  }

  function RaiseOps(host: string, ctrs: seq<Container>): seq<Op> {
    if ctrs == [] then []
    else (if ctrs[0].health == "unhealthy" then [Raise(UnhealthyPrefix(host) + ctrs[0].name, "warn")] else [])
         + RaiseOps(host, ctrs[1..])
  }

  lemma {:induction false} RunAppend(s: State, a: seq<Op>, b: seq<Op>)
    ensures Run(s, a + b) == Run(Run(s, a), b)
    decreases |a|
  {
    if a == [] {
      assert a + b == b;
    } else {
      assert (a + b)[1..] == a[1..] + b;
      RunAppend(Apply(s, a[0]), a[1..], b);
    }
  }

  lemma {:induction false} RaiseOpsRun(s: State, host: string, ctrs: seq<Container>)
    ensures Run(s, RaiseOps(host, ctrs)) == RaisedAll(s, host, ctrs)
    ensures forall i :: 0 <= i < |RaiseOps(host, ctrs)| ==> Basic(RaiseOps(host, ctrs)[i])
    decreases |ctrs|
  {
    if ctrs != [] {
      var t := if ctrs[0].health == "unhealthy" then RaiseIn(s, UnhealthyPrefix(host) + ctrs[0].name, "warn") else s;
      RaiseOpsRun(t, host, ctrs[1..]);
      var one := if ctrs[0].health == "unhealthy" then [Raise(UnhealthyPrefix(host) + ctrs[0].name, "warn")] else [];
      RunAppend(s, one, RaiseOps(host, ctrs[1..]));
      assert Run(s, one) == t by { if one != [] { assert one[1..] == []; } }
    }
  }

  lemma RunOne(s: State, op: Op)
    ensures Run(s, [op]) == Apply(s, op)
  {
    assert [op][1..] == [];
  }

  lemma RunTwo(s: State, a: Op, b: Op)
    ensures Run(s, [a, b]) == Apply(Apply(s, a), b)
  {
    assert [a, b][1..] == [b];
    RunOne(Apply(s, a), b);
  }

  lemma LevelOpsRun(s: State, key: Key, pct: real, severity: string)
    ensures Run(s, LevelOps(key, pct, severity)) == Level(s, key, pct, severity)
    ensures forall i :: 0 <= i < |LevelOps(key, pct, severity)| ==> Basic(LevelOps(key, pct, severity)[i])
  {
    if pct >= THRESHOLD {
      RunOne(s, Raise(key, severity));
    } else if pct > 0.0 && pct < THRESHOLD - 2.0 {
      RunOne(s, Resolve(key));
    }
  }

  /** So the count of notifications holds across evaluations too. */
  lemma EvaluationIsStatements(s: State, p: Sample)
    ensures Run(s, Statements(s, p)) == Evaluated(s, p)
    ensures forall i :: 0 <= i < |Statements(s, p)| ==> Basic(Statements(s, p)[i])
  {
    hide Level, LevelOps, RaiseOps, RaisedAll, Recovered, Run, ResolvePrefixIn, UnhealthyKeys, ExitedKeys;
    var up := UpOps(s, p);
    var d := LevelOps("disk:" + p.host, p.disk, if p.disk >= 95.0 then "crit" else "warn");
    var m := LevelOps("mem:" + p.host, p.mem, "warn");
    var r := RaiseOps(p.host, p.ctrs);
    var s1 := if p.wasOffline then Recovered(s, p.host) else s;
    UpOpsRun(s, p);
    var s2 := Level(s1, "disk:" + p.host, p.disk, if p.disk >= 95.0 then "crit" else "warn");
    LevelOpsRun(s1, "disk:" + p.host, p.disk, if p.disk >= 95.0 then "crit" else "warn");
    RunAppend(s, up, d);
    var s3 := Level(s2, "mem:" + p.host, p.mem, "warn");
    LevelOpsRun(s2, "mem:" + p.host, p.mem, "warn");
    RunAppend(s, up + d, m);
    RaiseOpsRun(s3, p.host, p.ctrs);
    RunAppend(s, up + d + m, r);
    var x, y := ResolvePrefix(UnhealthyPrefix(p.host), UnhealthyKeys(p.host, p.ctrs)),
                ResolvePrefix(ExitedPrefix(p.host), ExitedKeys(p.host, p.ctrs));
    RunTwo(RaisedAll(s3, p.host, p.ctrs), x, y);
    RunAppend(s, up + d + m + r, [x, y]);
  }

  lemma UpOpsRun(s: State, p: Sample)
    ensures Run(s, UpOps(s, p)) == if p.wasOffline then Recovered(s, p.host) else s
    ensures forall i :: 0 <= i < |UpOps(s, p)| ==> Basic(UpOps(s, p)[i])
  {
    var up := UpOps(s, p);
    if up != [] {
      RunTwo(s, up[0], up[1]);
    }
  }

  // ---------------------------------------------------------------- Raise in two steps

  /** A Raise between its lookup and its write. */
  datatype Lookup = Lookup(key: Key, severity: string, wasOpen: bool)

  datatype Two = Two(s: State, pending: seq<Lookup>)

  datatype Step = Look(key: Key, severity: string) | Write(i: nat) | Other(op: Op)

  predicate Enabled(t: Two, st: Step) {
    match st
    case Look(_, _) => true
    case Write(i) => i < |t.pending|
    case Other(op) => Basic(op) && !op.Raise?
  }

  /** The row's text is refreshed by an UPDATE that never re-opens, or the row is upserted open. */
  function Written(s: State, l: Lookup): State {
    if l.wasOpen then
      if l.key in s.rows then s.(rows := s.rows[l.key := s.rows[l.key].(severity := l.severity)]) else s
    else State(s.rows[l.key := Row(true, l.severity)], s.sent + [Raised(l.key)])
  }

  function Take(t: Two, st: Step): Two
    requires Enabled(t, st)
  {
    match st
    case Look(k, sev) => t.(pending := t.pending + [Lookup(k, sev, Open(t.s.rows, k))])
    case Write(i) => Two(Written(t.s, t.pending[i]), t.pending[..i] + t.pending[i + 1..])
    case Other(op) => t.(s := Apply(t.s, op))
  }

  ghost predicate Possible(t: Two, steps: seq<Step>)
    decreases |steps|
  {
    steps == [] || (Enabled(t, steps[0]) && Possible(Take(t, steps[0]), steps[1..]))
  }

  function TakeAll(t: Two, steps: seq<Step>): Two
    requires Possible(t, steps)
    decreases |steps|
  {
    if steps == [] then t else TakeAll(Take(t, steps[0]), steps[1..])
  }

  /** Upserts that found the row open again already. */
  function Doubled(t: Two, steps: seq<Step>, k: Key): nat
    requires Possible(t, steps)
    decreases |steps|
  {
    if steps == [] then 0
    else
      var st := steps[0];
      (if st.Write? && t.pending[st.i].key == k && !t.pending[st.i].wasOpen && Open(t.s.rows, k) then 1 else 0)
      + Doubled(Take(t, st), steps[1..], k)
  }

  function OpeningsTwo(t: Two, steps: seq<Step>, k: Key): nat
    requires Possible(t, steps)
    decreases |steps|
  {
    if steps == [] then 0
    else
      (if !Open(t.s.rows, k) && Open(Take(t, steps[0]).s.rows, k) then 1 else 0)
      + OpeningsTwo(Take(t, steps[0]), steps[1..], k)
  }

  lemma TwoStep(t: Two, st: Step, k: Key)
    requires Enabled(t, st)
    ensures RaisedCount(Take(t, st).s.sent, k)
         == RaisedCount(t.s.sent, k)
            + (if !Open(t.s.rows, k) && Open(Take(t, st).s.rows, k) then 1 else 0)
            + (if st.Write? && t.pending[st.i].key == k && !t.pending[st.i].wasOpen && Open(t.s.rows, k) then 1 else 0)
  {
    match st
    case Look(_, _) =>
    case Write(i) =>
      var u := Take(t, st).s.sent;
      if |u| > |t.s.sent| {
        assert u[..|u| - 1] == t.s.sent;
      }
    case Other(op) => NoticeStep(t.s, op, k);
  }

  /** In two steps, notifications are the openings plus the upserts that found the row open: never one too
      few, and exactly one per opening if and only if no upsert met an open row. */
  lemma {:induction false} NoticesInTwoSteps(t: Two, steps: seq<Step>, k: Key)
    requires Possible(t, steps)
    ensures RaisedCount(TakeAll(t, steps).s.sent, k)
         == RaisedCount(t.s.sent, k) + OpeningsTwo(t, steps, k) + Doubled(t, steps, k)
    decreases |steps|
  {
    if steps != [] {
      TwoStep(t, steps[0], k);
      NoticesInTwoSteps(Take(t, steps[0]), steps[1..], k);
    }
  }

  /** Two callers that both look before either writes notify twice for one opening. */
  lemma TwoCallersNotifyTwice(k: Key)
    ensures var steps := [Look(k, "warn"), Look(k, "warn"), Write(0), Write(0)];
            var t := Two(EMPTY, []);
            Possible(t, steps) && OpeningsTwo(t, steps, k) == 1 && Doubled(t, steps, k) == 1
  {
    var steps := [Look(k, "warn"), Look(k, "warn"), Write(0), Write(0)];
    var t0 := Two(EMPTY, []);
    var t1 := Take(t0, steps[0]);
    var t2 := Take(t1, steps[1]);
    assert t2.pending == [Lookup(k, "warn", false), Lookup(k, "warn", false)];
    var t3 := Take(t2, steps[2]);
    assert t3.pending == [Lookup(k, "warn", false)];
    assert steps[1..][1..] == steps[2..] && steps[2..][1..] == steps[3..] && steps[3..][1..] == [];
    assert Possible(t3, steps[3..]);
    assert Possible(t2, steps[2..]);
    assert Possible(t1, steps[1..]);
    assert OpeningsTwo(t3, steps[3..], k) == 0 && Doubled(t3, steps[3..], k) == 1;
    assert OpeningsTwo(t2, steps[2..], k) == 1 && Doubled(t2, steps[2..], k) == 1;
    assert OpeningsTwo(t1, steps[1..], k) == 1 && Doubled(t1, steps[1..], k) == 1;
  }

  // ---------------------------------------------------------------- offline bookkeeping

  /** One host as the poller sees it: its in-memory flag, whether its row says offline, and the alerts. */
  datatype Watch = Watch(wasOffline: bool, offline: bool, s: State)

  function DownCount(sent: seq<Notice>, host: string): nat { RaisedCount(sent, "host_down:" + host) }

  function UpCount(sent: seq<Notice>, host: string): nat {
    if sent == [] then 0
    else (if sent[|sent| - 1] == Happened("host_up:" + host) then 1 else 0) + UpCount(sent[..|sent| - 1], host)
  }

  lemma {:induction false} UpCountOther(s: State, host: string, ctrs: seq<Container>)
    ensures UpCount(RaisedAll(s, host, ctrs).sent, host) == UpCount(s.sent, host)
    ensures DownCount(RaisedAll(s, host, ctrs).sent, host) == DownCount(s.sent, host)
    decreases |ctrs|
  {
    if ctrs != [] {
      var key := UnhealthyPrefix(host) + ctrs[0].name;
      var t := if ctrs[0].health == "unhealthy" then RaiseIn(s, key, "warn") else s;
      if |t.sent| > |s.sent| {
        assert t.sent[..|t.sent| - 1] == s.sent;
        assert key[0] == 'u';
      }
      UpCountOther(t, host, ctrs[1..]);
    }
  }

  lemma CountLevel(s: State, key: Key, pct: real, severity: string, host: string)
    requires IsLevelKey(key)
    ensures UpCount(Level(s, key, pct, severity).sent, host) == UpCount(s.sent, host)
    ensures DownCount(Level(s, key, pct, severity).sent, host) == DownCount(s.sent, host)
  {
    var t := Level(s, key, pct, severity);
    if |t.sent| > |s.sent| {
      assert t.sent[..|t.sent| - 1] == s.sent;
      PrefixesApart(host, key);
    }
  }

  lemma CountEvaluated(s: State, p: Sample)
    ensures DownCount(Evaluated(s, p).sent, p.host) == DownCount(s.sent, p.host)
    ensures UpCount(Evaluated(s, p).sent, p.host)
         == UpCount(s.sent, p.host) + if p.wasOffline && Open(s.rows, "host_down:" + p.host) then 1 else 0
  {
    var s1 := if p.wasOffline then Recovered(s, p.host) else s;
    if |s1.sent| > |s.sent| {
      assert s1.sent[..|s1.sent| - 1] == s.sent;
    }
    var sev := if p.disk >= 95.0 then "crit" else "warn";
    var s2 := Level(s1, "disk:" + p.host, p.disk, sev);
    assert "disk:" <= "disk:" + p.host && "mem:" <= "mem:" + p.host;
    CountLevel(s1, "disk:" + p.host, p.disk, sev, p.host);
    CountLevel(s2, "mem:" + p.host, p.mem, "warn", p.host);
    UpCountOther(Level(s2, "mem:" + p.host, p.mem, "warn"), p.host, p.ctrs);
  }

  lemma RaisedDown(s: State, host: string)
    ensures var t := RaiseIn(s, "host_down:" + host, "crit");
            && DownCount(t.sent, host) == DownCount(s.sent, host) + (if Open(s.rows, "host_down:" + host) then 0 else 1)
            && UpCount(t.sent, host) == UpCount(s.sent, host)
            && Open(t.rows, "host_down:" + host)
            && Open(t.rows, "host_up:" + host) == Open(s.rows, "host_up:" + host)
  {
    var t := RaiseIn(s, "host_down:" + host, "crit");
    assert ("host_down:" + host)[5] == 'd' && ("host_up:" + host)[5] == 'u';
    if |t.sent| > |s.sent| {
      assert t.sent[..|t.sent| - 1] == s.sent;
    }
  }

  function HostDown(host: string): Key { "host_down:" + host }

  /** Between the steps of a poll: the record was read, with its row offline or not; the host answered, and the flag
      or the record had said offline; a failure was counted and the row says offline; the flag was not set before. */
  datatype Stage = Begun(seen: bool) | Answered(was: bool) | Recorded(was: bool) | Counted | Raising

  /** Polls of one host side by side: the ticker starts one, and so do adding, editing and testing a host. */
  datatype Crew = Crew(w: Watch, polls: seq<Stage>)

  datatype Move =
    | Begin
    | Answer(i: nat)
    | Record(i: nat)
    | Assess(i: nat, p: Sample)
    | Fail(i: nat, reached: bool)
    | Flag(i: nat, monitored: bool)
    | RaiseDown(i: nat)
    | Drop(i: nat)
    | Restart
    | TestedOnline

  predicate CanMove(c: Crew, m: Move) {
    match m
    case Answer(i) => i < |c.polls| && c.polls[i].Begun?
    case Record(i) => i < |c.polls| && c.polls[i].Answered?
    case Assess(i, _) => i < |c.polls| && c.polls[i].Recorded?
    case Fail(i, _) => i < |c.polls| && c.polls[i].Begun?
    case Flag(i, _) => i < |c.polls| && c.polls[i].Counted?
    case RaiseDown(i) => i < |c.polls| && c.polls[i].Raising?
    case Drop(i) => i < |c.polls| && c.polls[i].Begun?
    case _ => true
  }

  function Gone(polls: seq<Stage>, i: nat): seq<Stage>
    requires i < |polls|
  {
    polls[..i] + polls[i + 1..]
  }

  /** A failure leaves the row offline when the retries are used up, or as it was; a poll that is called off, or whose
      failure cannot be counted, changes nothing; a host test that succeeds writes
      the row online and leaves flag and alert alone; a restart forgets the flag and the polls under way. */
  function Moved(c: Crew, host: string, m: Move): Crew
    requires CanMove(c, m)
  {
    var w := c.w;
    match m
    case Begin => c.(polls := c.polls + [Begun(w.offline)])
    case Answer(i) => Crew(w.(wasOffline := false), c.polls[i := Answered(w.wasOffline || c.polls[i].seen)])
    case Record(i) => Crew(w.(offline := false), c.polls[i := Recorded(c.polls[i].was)])
    case Assess(i, p) => Crew(w.(s := Evaluated(w.s, p.(host := host, wasOffline := c.polls[i].was))), Gone(c.polls, i))
    case Fail(i, reached) =>
      if reached || w.offline then Crew(w.(offline := true), c.polls[i := Counted]) else c.(polls := Gone(c.polls, i))
    case Flag(i, monitored) =>
      Crew(w.(wasOffline := true), if !w.wasOffline && monitored then c.polls[i := Raising] else Gone(c.polls, i))
    case RaiseDown(i) => Crew(w.(s := RaiseIn(w.s, HostDown(host), "crit")), Gone(c.polls, i))
    case Drop(i) => c.(polls := Gone(c.polls, i))
    case Restart => Crew(w.(wasOffline := false), [])
    case TestedOnline => c.(w := w.(offline := false))
  }

  /** As many recoveries as offline alerts were notified, one fewer while the alert is open. */
  ghost predicate Balanced(s: State, host: string) {
    && !Open(s.rows, "host_up:" + host)
    && DownCount(s.sent, host) == UpCount(s.sent, host) + if Open(s.rows, HostDown(host)) then 1 else 0
  }

  lemma AssessBalanced(s: State, host: string, p: Sample)
    requires Balanced(s, host) && p.host == host
    ensures Balanced(Evaluated(s, p), host)
    ensures Open(Evaluated(s, p).rows, HostDown(host)) <==> Open(s.rows, HostDown(host)) && !p.wasOffline
  {
    EvaluateOpens(s, p, HostDown(host));
    EvaluateOpens(s, p, "host_up:" + host);
    assert HostDown(host)[5] == 'd' && ("host_up:" + host)[5] == 'u';
    PrefixesApart(host, HostDown(host));
    PrefixesApart(host, "host_up:" + host);
    CountEvaluated(s, p);
  }

  /** In whatever order polls take their steps, hosts are tested and the server restarts: recoveries and offline
      alerts stay in balance, and an evaluation leaves the offline alert open exactly when it was open and neither
      the flag nor the record had said offline. */
  lemma WatchStep(c: Crew, host: string, m: Move)
    requires Balanced(c.w.s, host) && CanMove(c, m)
    ensures Balanced(Moved(c, host, m).w.s, host)
    ensures m.Assess? ==> (Open(Moved(c, host, m).w.s.rows, HostDown(host)) <==>
                             Open(c.w.s.rows, HostDown(host)) && !c.polls[m.i].was)
  {
    hide Evaluated, RaiseIn, DownCount, UpCount;
    match m
    case Assess(i, p) => AssessBalanced(c.w.s, host, p.(host := host, wasOffline := c.polls[i].was));
    case RaiseDown(_) => RaiseDownBalanced(c.w.s, host);
    case _ =>
  }

  lemma RaiseDownBalanced(s: State, host: string)
    requires Balanced(s, host)
    ensures var t := RaiseIn(s, HostDown(host), "crit"); Balanced(t, host) && Open(t.rows, HostDown(host))
  {
    RaisedDown(s, host);
  }

  ghost predicate CanRun(c: Crew, host: string, ms: seq<Move>)
    decreases |ms|
  {
    ms == [] || (CanMove(c, ms[0]) && CanRun(Moved(c, host, ms[0]), host, ms[1..]))
  }

  function RunAll(c: Crew, host: string, ms: seq<Move>): Crew
    requires CanRun(c, host, ms)
    decreases |ms|
  {
    if ms == [] then c else RunAll(Moved(c, host, ms[0]), host, ms[1..])
  }

  /** Over any run, in any interleaving, "offline" and "recovered" notices alternate, starting with offline, and the
      open alert is the difference. */
  lemma {:induction false} DownAndUpAlternate(c: Crew, host: string, ms: seq<Move>)
    requires Balanced(c.w.s, host) && CanRun(c, host, ms)
    ensures Balanced(RunAll(c, host, ms).w.s, host)
    decreases |ms|
  {
    if ms != [] {
      WatchStep(c, host, ms[0]);
      hide Moved, CanMove, Balanced;
      DownAndUpAlternate(Moved(c, host, ms[0]), host, ms[1..]);
    }
  }

  // ---------------------------------------------------------------- polls side by side

  /** A success that saw the host offline is between its answer and its evaluation. */
  ghost predicate Closing(polls: seq<Stage>) { exists i :: 0 <= i < |polls| && Closes(polls[i]) }

  predicate Closes(p: Stage) { (p.Answered? || p.Recorded?) && p.was }

  lemma ClosingSplit(polls: seq<Stage>, i: nat)
    requires i < |polls|
    ensures Closing(polls) <==> Closing(Gone(polls, i)) || Closes(polls[i])
  {
    var rest := Gone(polls, i);
    if Closing(polls) {
      var k :| 0 <= k < |polls| && Closes(polls[k]);
      assert k != i ==> rest[if k < i then k else k - 1] == polls[k];
    }
    if Closing(rest) {
      var k :| 0 <= k < |rest| && Closes(rest[k]);
      assert polls[if k < i then k else k + 1] == rest[k];
    }
  }

  lemma ClosingSet(polls: seq<Stage>, i: nat, p: Stage)
    requires i < |polls|
    ensures Closing(polls[i := p]) <==> Closing(Gone(polls, i)) || Closes(p)
  {
    ClosingSplit(polls[i := p], i);
    assert Gone(polls[i := p], i) == Gone(polls, i);
  }

  lemma ClosingMore(polls: seq<Stage>, p: Stage)
    ensures Closing(polls + [p]) <==> Closing(polls) || Closes(p)
  {
    ClosingSplit(polls + [p], |polls|);
    assert Gone(polls + [p], |polls|) == polls;
  }

  /** An open alert is remembered: by the flag, by the row or by a success on its way to close it. */
  ghost predicate Remembers(c: Crew, host: string) {
    Open(c.w.s.rows, HostDown(host)) ==> c.w.wasOffline || c.w.offline || Closing(c.polls)
  }

  /** The steps that can forget it: a restart while the row is online; a host test or a success that saw the host
      online writes the row while nothing else remembers; and an alert that is raised late, when flag and row are
      cleared. */
  ghost predicate Forgets(c: Crew, host: string, m: Move) {
    match m
    case Restart => Open(c.w.s.rows, HostDown(host)) && !c.w.offline
    case TestedOnline => Open(c.w.s.rows, HostDown(host)) && !c.w.wasOffline && !Closing(c.polls)
    case Record(_) => Open(c.w.s.rows, HostDown(host)) && !c.w.wasOffline && !Closing(c.polls)
    case RaiseDown(_) => !c.w.wasOffline && !c.w.offline && !Closing(c.polls)
    case _ => false
  }

  lemma RemembersStep(c: Crew, host: string, m: Move)
    requires Balanced(c.w.s, host) && CanMove(c, m) && Remembers(c, host)
    ensures Remembers(Moved(c, host, m), host) <==> !Forgets(c, host, m)
  {
    hide Evaluated, RaiseIn, Balanced, Closing;
    WatchStep(c, host, m);
    ClosingStep(c, host, m);
    if m.RaiseDown? {
      RaiseDownBalanced(c.w.s, host);
    }
  }

  lemma ClosingStep(c: Crew, host: string, m: Move)
    requires CanMove(c, m)
    ensures var d := Moved(c, host, m).polls;
            match m
            case Answer(i) => Closing(d) <==> Closing(c.polls) || c.w.wasOffline || c.polls[i].seen
            case Assess(i, _) => !c.polls[i].was ==> (Closing(d) <==> Closing(c.polls))
            case Restart => !Closing(d)
            case _ => Closing(d) <==> Closing(c.polls)
  {
    hide Closing, Evaluated, RaiseIn;
    match m
    case Begin => ClosingMore(c.polls, Begun(c.w.offline));
    case Answer(i) =>
      ClosingSplit(c.polls, i);
      ClosingSet(c.polls, i, Answered(c.w.wasOffline || c.polls[i].seen));
    case Record(i) =>
      ClosingSplit(c.polls, i);
      ClosingSet(c.polls, i, Recorded(c.polls[i].was));
    case Assess(i, _) => ClosingSplit(c.polls, i);
    case Fail(i, _) =>
      ClosingSplit(c.polls, i);
      ClosingSet(c.polls, i, Counted);
    case Flag(i, _) =>
      ClosingSplit(c.polls, i);
      ClosingSet(c.polls, i, Raising);
    case RaiseDown(i) => ClosingSplit(c.polls, i);
    case Drop(i) => ClosingSplit(c.polls, i);
    case Restart => assert !Closing([]) by { NoneCloses(); }
    case TestedOnline =>
  }

  lemma NoneCloses()
    ensures !Closing([])
  {
  }

  ghost predicate RemembersThroughout(c: Crew, host: string, ms: seq<Move>)
    requires CanRun(c, host, ms)
    decreases |ms|
  {
    Remembers(c, host) && (ms == [] || RemembersThroughout(Moved(c, host, ms[0]), host, ms[1..]))
  }

  ghost predicate NeverForgets(c: Crew, host: string, ms: seq<Move>)
    requires CanRun(c, host, ms)
    decreases |ms|
  {
    ms == [] || (!Forgets(c, host, ms[0]) && NeverForgets(Moved(c, host, ms[0]), host, ms[1..]))
  }

  /** Over any interleaved run, an open alert is remembered throughout exactly when no step forgets it. */
  lemma {:induction false} RemembersOverRuns(c: Crew, host: string, ms: seq<Move>)
    requires Balanced(c.w.s, host) && Remembers(c, host) && CanRun(c, host, ms)
    ensures RemembersThroughout(c, host, ms) <==> NeverForgets(c, host, ms)
    decreases |ms|
  {
    if ms != [] {
      RemembersStep(c, host, ms[0]);
      WatchStep(c, host, ms[0]);
      hide Moved, CanMove, Balanced, Remembers, Forgets;
      if !Forgets(c, host, ms[0]) {
        RemembersOverRuns(Moved(c, host, ms[0]), host, ms[1..]);
      } else {
        NotThroughout(Moved(c, host, ms[0]), host, ms[1..]);
      }
    }
  }

  lemma NotThroughout(c: Crew, host: string, ms: seq<Move>)
    requires CanRun(c, host, ms) && !Remembers(c, host)
    ensures !RemembersThroughout(c, host, ms)
  {
  }

  /** The steps of a success beside `n` other polls. */
  function SuccessMoves(n: nat, p: Sample): seq<Move> { [Begin] + ([Answer(n)] + ([Record(n)] + [Assess(n, p)])) }

  lemma SuccessRuns(c: Crew, host: string, p: Sample)
    ensures var ms := SuccessMoves(|c.polls|, p);
            && CanRun(c, host, ms)
            && RunAll(c, host, ms) == Crew(Watch(false, false, Evaluated(c.w.s, p.(host := host, wasOffline := c.w.wasOffline || c.w.offline))), c.polls)
  {
    hide Evaluated;
    var n := |c.polls|;
    var c1 := Moved(c, host, Begin);
    var c2 := Moved(c1, host, Answer(n));
    var c3 := Moved(c2, host, Record(n));
    var c4 := Moved(c3, host, Assess(n, p));
    assert Gone(c3.polls, n) == c.polls;
    RunHead(c3, host, Assess(n, p), []);
    RunHead(c2, host, Record(n), [Assess(n, p)] + []);
    RunHead(c1, host, Answer(n), [Record(n)] + ([Assess(n, p)] + []));
    RunHead(c, host, Begin, [Answer(n)] + ([Record(n)] + ([Assess(n, p)] + [])));
    assert [Assess(n, p)] + [] == [Assess(n, p)];
  }

  /** A success that no other poll disturbs leaves the alert open exactly when it was open and flag and row were
      cleared: so it does whenever the alert is not remembered, and closes it whenever it is, unless another success
      is on its way to do so. */
  lemma SuccessLeavesOpen(c: Crew, host: string, p: Sample)
    requires Balanced(c.w.s, host)
    ensures var ms := SuccessMoves(|c.polls|, p);
            && CanRun(c, host, ms)
            && (Open(RunAll(c, host, ms).w.s.rows, HostDown(host)) <==>
                  Open(c.w.s.rows, HostDown(host)) && !c.w.wasOffline && !c.w.offline)
            && (!Remembers(c, host) ==> Open(RunAll(c, host, ms).w.s.rows, HostDown(host)))
            && (Remembers(c, host) && !Closing(c.polls) ==> !Open(RunAll(c, host, ms).w.s.rows, HostDown(host)))
  {
    hide Evaluated, Balanced, SuccessMoves, CanRun, RunAll;
    SuccessRuns(c, host, p);
    AssessBalanced(c.w.s, host, p.(host := host, wasOffline := c.w.wasOffline || c.w.offline));
  }

  /** No restart, and no host answers while an offline alert is on its way. */
  ghost predicate Prompt(c: Crew, host: string, ms: seq<Move>)
    requires CanRun(c, host, ms)
    decreases |ms|
  {
    ms == [] ||
      (!ms[0].Restart? && (ms[0].Answer? ==> Raising !in c.polls) && Prompt(Moved(c, host, ms[0]), host, ms[1..]))
  }

  /** The flag or a success on its way remembers an open alert, and the flag one that is on its way. */
  ghost predicate FlagRemembers(c: Crew, host: string) {
    && (Open(c.w.s.rows, HostDown(host)) ==> c.w.wasOffline || Closing(c.polls))
    && (Raising in c.polls ==> c.w.wasOffline)
  }

  lemma FlagRemembersStep(c: Crew, host: string, m: Move)
    requires Balanced(c.w.s, host) && CanMove(c, m) && FlagRemembers(c, host)
    requires !m.Restart? && (m.Answer? ==> Raising !in c.polls)
    ensures FlagRemembers(Moved(c, host, m), host) && !Forgets(c, host, m)
  {
    hide Evaluated, RaiseIn, Balanced, Closing;
    WatchStep(c, host, m);
    ClosingStep(c, host, m);
  }

  /** In such runs, whatever else interleaves and with any host tests, nothing is forgotten: the alert is closed
      whenever the flag is clear and no success that saw the host offline is on its way. */
  lemma {:induction false} PromptRunsRemember(c: Crew, host: string, ms: seq<Move>)
    requires Balanced(c.w.s, host) && FlagRemembers(c, host) && CanRun(c, host, ms) && Prompt(c, host, ms)
    ensures FlagRemembers(RunAll(c, host, ms), host) && NeverForgets(c, host, ms)
    decreases |ms|
  {
    if ms != [] {
      FlagRemembersStep(c, host, ms[0]);
      WatchStep(c, host, ms[0]);
      hide Moved, CanMove, Balanced, FlagRemembers, Forgets;
      PromptRunsRemember(Moved(c, host, ms[0]), host, ms[1..]);
    }
  }

  lemma {:induction false} RunJoined(c: Crew, host: string, xs: seq<Move>, ys: seq<Move>)
    requires CanRun(c, host, xs) && CanRun(RunAll(c, host, xs), host, ys)
    ensures CanRun(c, host, xs + ys) && RunAll(c, host, xs + ys) == RunAll(RunAll(c, host, xs), host, ys)
    decreases |xs|
  {
    if xs == [] {
      assert xs + ys == ys;
    } else {
      assert (xs + ys)[1..] == xs[1..] + ys;
      hide Moved, CanMove;
      RunJoined(Moved(c, host, xs[0]), host, xs[1..], ys);
    }
  }

  /** From every state with an offline alert on its way: when a success comes first, the alert is raised after it, and
      the next success leaves it open, with neither a host test nor a restart. */
  lemma LateRaiseIsForgotten(c: Crew, host: string, i: nat, p: Sample, q: Sample)
    requires Balanced(c.w.s, host) && i < |c.polls| && c.polls[i].Raising?
    ensures var ms := SuccessMoves(|c.polls|, p) + ([RaiseDown(i)] + SuccessMoves(|c.polls| - 1, q));
            CanRun(c, host, ms) && Open(RunAll(c, host, ms).w.s.rows, HostDown(host))
  {
    hide Evaluated, RaiseIn, Balanced, SuccessMoves, CanRun, RunAll;
    SuccessRuns(c, host, p);
    var c1 := RunAll(c, host, SuccessMoves(|c.polls|, p));
    AssessBalanced(c.w.s, host, p.(host := host, wasOffline := c.w.wasOffline || c.w.offline));
    var c2 := Moved(c1, host, RaiseDown(i));
    RaiseDownBalanced(c1.w.s, host);
    SuccessLeavesOpen(c2, host, q);
    RunHead(c1, host, RaiseDown(i), SuccessMoves(|c.polls| - 1, q));
    RunJoined(c, host, SuccessMoves(|c.polls|, p), [RaiseDown(i)] + SuccessMoves(|c.polls| - 1, q));
  }

  /** Such a state is reached by one failed poll. */
  lemma RaiseIsOnItsWay(host: string)
    ensures var c, ms := Crew(Watch(false, false, EMPTY), []), [Begin] + ([Fail(0, true)] + ([Flag(0, true)] + []));
            CanRun(c, host, ms) && RunAll(c, host, ms) == Crew(Watch(true, true, EMPTY), [Raising])
  {
    var c := Crew(Watch(false, false, EMPTY), []);
    var c1 := Moved(c, host, Begin);
    var c2 := Moved(c1, host, Fail(0, true));
    assert Moved(c2, host, Flag(0, true)) == Crew(Watch(true, true, EMPTY), [Raising]);
    RunHead(c2, host, Flag(0, true), []);
    RunHead(c1, host, Fail(0, true), [Flag(0, true)] + []);
    RunHead(c, host, Begin, [Fail(0, true)] + ([Flag(0, true)] + []));
  }

  /** From every state with the alert open and the row online, as between the record and the evaluation of a success:
      after a restart the next success leaves it open. */
  lemma RestartIsForgotten(c: Crew, host: string, p: Sample)
    requires Balanced(c.w.s, host) && Open(c.w.s.rows, HostDown(host)) && !c.w.offline
    ensures var ms := [Restart] + SuccessMoves(0, p);
            CanRun(c, host, ms) && Open(RunAll(c, host, ms).w.s.rows, HostDown(host))
  {
    hide Balanced, SuccessMoves;
    var c1 := Moved(c, host, Restart);
    SuccessLeavesOpen(c1, host, p);
    RunHead(c, host, Restart, SuccessMoves(0, p));
  }

  // ---------------------------------------------------------------- polls one after the other

  datatype Poll = Failed(reached: bool, monitored: bool) | Succeeded(p: Sample) | Restarted | Tested

  /** A whole poll, a restart or a host test. */
  function Polled(w: Watch, host: string, e: Poll): Watch {
    match e
    case Failed(reached, monitored) =>
      if reached || w.offline then
        Watch(true, true, if !w.wasOffline && monitored then RaiseIn(w.s, HostDown(host), "crit") else w.s)
      else w
    case Succeeded(p) =>
      Watch(false, false, Evaluated(w.s, p.(host := host, wasOffline := w.wasOffline || w.offline)))
    case Restarted => w.(wasOffline := false)
    case Tested => w.(offline := false)
  }

  /** The steps of an undisturbed poll. */
  function MovesOf(w: Watch, e: Poll): seq<Move> {
    match e
    case Failed(reached, monitored) =>
      [Begin] + ([Fail(0, reached)] +
        if !(reached || w.offline) then []
        else [Flag(0, monitored)] + if !w.wasOffline && monitored then [RaiseDown(0)] else [])
    case Succeeded(p) => [Begin] + ([Answer(0)] + ([Record(0)] + [Assess(0, p)]))
    case Restarted => [Restart]
    case Tested => [TestedOnline]
  }

  lemma RunHead(c: Crew, host: string, m: Move, ms: seq<Move>)
    requires CanMove(c, m) && CanRun(Moved(c, host, m), host, ms)
    ensures CanRun(c, host, [m] + ms) && RunAll(c, host, [m] + ms) == RunAll(Moved(c, host, m), host, ms)
  {
    assert ([m] + ms)[1..] == ms;
  }

  /** Undisturbed, the steps of a poll do what the whole poll does. */
  lemma PollIsItsSteps(w: Watch, host: string, e: Poll)
    ensures CanRun(Crew(w, []), host, MovesOf(w, e))
    ensures RunAll(Crew(w, []), host, MovesOf(w, e)) == Crew(Polled(w, host, e), [])
  {
    hide Evaluated, RaiseIn;
    var c := Crew(w, []);
    match e
    case Failed(reached, monitored) => FailureIsItsSteps(w, host, reached, monitored);
    case Succeeded(p) =>
      var c1 := Moved(c, host, Begin);
      var c2 := Moved(c1, host, Answer(0));
      var c3 := Moved(c2, host, Record(0));
      var c4 := Moved(c3, host, Assess(0, p));
      RunHead(c3, host, Assess(0, p), []);
      RunHead(c2, host, Record(0), [Assess(0, p)] + []);
      RunHead(c1, host, Answer(0), [Record(0)] + ([Assess(0, p)] + []));
      RunHead(c, host, Begin, [Answer(0)] + ([Record(0)] + ([Assess(0, p)] + [])));
      assert [Assess(0, p)] + [] == [Assess(0, p)];
      assert c4 == Crew(Polled(w, host, e), []);
    case Restarted =>
      RunHead(c, host, Restart, []);
      assert [Restart] + [] == [Restart];
    case Tested =>
      RunHead(c, host, TestedOnline, []);
      assert [TestedOnline] + [] == [TestedOnline];
  }

  lemma FailureIsItsSteps(w: Watch, host: string, reached: bool, monitored: bool)
    ensures var e := Failed(reached, monitored);
            && CanRun(Crew(w, []), host, MovesOf(w, e))
            && RunAll(Crew(w, []), host, MovesOf(w, e)) == Crew(Polled(w, host, e), [])
  {
    hide RaiseIn;
    var c := Crew(w, []);
    var c1 := Moved(c, host, Begin);
    var c2 := Moved(c1, host, Fail(0, reached));
    var flags := if !(reached || w.offline) then []
                 else [Flag(0, monitored)] + if !w.wasOffline && monitored then [RaiseDown(0)] else [];
    if reached || w.offline {
      var c3 := Moved(c2, host, Flag(0, monitored));
      var raise := if !w.wasOffline && monitored then [RaiseDown(0)] else [];
      if !w.wasOffline && monitored {
        RunHead(c3, host, RaiseDown(0), []);
        assert [RaiseDown(0)] + [] == [RaiseDown(0)];
      }
      RunHead(c2, host, Flag(0, monitored), raise);
    }
    RunHead(c1, host, Fail(0, reached), flags);
    RunHead(c, host, Begin, [Fail(0, reached)] + flags);
  }

  function PolledAll(w: Watch, host: string, es: seq<Poll>): Watch {
    if es == [] then w else Polled(PolledAll(w, host, es[..|es| - 1]), host, es[|es| - 1])
  }

  /** Nothing that settles the matter: no success, and no failure that uses the retries up. */
  predicate Quiet(tail: seq<Poll>) { forall i :: 0 <= i < |tail| ==> !tail[i].Succeeded? && !(tail[i].Failed? && tail[i].reached) }

  /** Where the first host test is. */
  function FirstTest(tail: seq<Poll>): (t: nat)
    ensures t <= |tail|
    ensures t < |tail| ==> tail[t].Tested?
    ensures forall i :: 0 <= i < t ==> !tail[i].Tested?
  {
    if tail == [] || tail[0].Tested? then 0 else 1 + FirstTest(tail[1..])
  }

  /** A restart with no failure between it and the first host test. */
  ghost predicate FlagLost(tail: seq<Poll>) {
    exists r :: 0 <= r < |tail| && tail[r].Restarted? && forall k :: r < k < FirstTest(tail) ==> !tail[k].Failed?
  }

  lemma FirstTestIs(tail: seq<Poll>, t: nat)
    requires t <= |tail| && (t < |tail| ==> tail[t].Tested?) && forall i :: 0 <= i < t ==> !tail[i].Tested?
    ensures FirstTest(tail) == t
  {
    var f := FirstTest(tail);
  }

  /** After a failure that made the host offline, the row says so until a host test, and the flag until a restart
      that no failure repairs. */
  lemma {:induction false} WhatIsRemembered(w: Watch, host: string, tail: seq<Poll>)
    requires w.wasOffline && w.offline && Quiet(tail)
    ensures PolledAll(w, host, tail).offline <==> FirstTest(tail) == |tail|
    ensures PolledAll(w, host, tail).wasOffline <==> !FlagLost(tail)
  {
    if tail != [] {
      var init, last := tail[..|tail| - 1], tail[|tail| - 1];
      assert tail == init + [last];
      WhatIsRemembered(w, host, init);
      RememberedStep(init, last);
    }
  }

  lemma RememberedStep(init: seq<Poll>, last: Poll)
    ensures var tail := init + [last];
            && (FirstTest(tail) == |tail| <==> FirstTest(init) == |init| && !last.Tested?)
            && (FlagLost(tail) <==>
                  last.Restarted? || (FlagLost(init) && !(last.Failed? && FirstTest(init) == |init|)))
  {
    var tail, t := init + [last], FirstTest(init);
    assert forall i :: 0 <= i < |init| ==> tail[i] == init[i];
    FirstTestIs(tail, if t < |init| || last.Tested? then t else |tail|);
    if last.Restarted? {
      assert tail[|init|].Restarted?;
    }
    if FlagLost(init) && !(last.Failed? && t == |init|) {
      var r :| 0 <= r < |init| && init[r].Restarted? && forall k :: r < k < t ==> !init[k].Failed?;
      assert tail[r].Restarted?;
    }
    if FlagLost(tail) && !last.Restarted? {
      var r :| 0 <= r < |tail| && tail[r].Restarted? && forall k :: r < k < FirstTest(tail) ==> !tail[k].Failed?;
      assert init[r].Restarted? && tail[|init|] == last;
      forall k | r < k < t ensures !init[k].Failed? {
        assert tail[k] == init[k] && k < FirstTest(tail);
      }
      assert FlagLost(init);
    }
  }

  /** Of polls one after the other: a success after an offline failure leaves the alert open exactly when it was open,
      and since that failure the host was tested and the server restarted, with no failed poll between the restart
      and the test. */
  lemma RecoveryIsMissed(w: Watch, host: string, monitored: bool, tail: seq<Poll>, p: Sample)
    requires Balanced(w.s, host) && Quiet(tail)
    ensures var before := PolledAll(Polled(w, host, Failed(true, monitored)), host, tail);
            Open(Polled(before, host, Succeeded(p)).s.rows, HostDown(host))
            <==> Open(before.s.rows, HostDown(host)) && FirstTest(tail) < |tail| && FlagLost(tail)
  {
    var w1 := Polled(w, host, Failed(true, monitored));
    RaiseDownBalanced(w.s, host);
    WhatIsRemembered(w1, host, tail);
    BalancedOverPolls(w1, host, tail);
    var before := PolledAll(w1, host, tail);
    AssessBalanced(before.s, host, p.(host := host, wasOffline := before.wasOffline || before.offline));
  }

  lemma {:induction false} BalancedOverPolls(w: Watch, host: string, es: seq<Poll>)
    requires Balanced(w.s, host)
    ensures Balanced(PolledAll(w, host, es).s, host)
  {
    if es != [] {
      var before, e := PolledAll(w, host, es[..|es| - 1]), es[|es| - 1];
      BalancedOverPolls(w, host, es[..|es| - 1]);
      RaiseDownBalanced(before.s, host);
      if e.Succeeded? {
        AssessBalanced(before.s, host, e.p.(host := host, wasOffline := before.wasOffline || before.offline));
      }
    }
  }

  /** It happens: offline, restart, host test, success. */
  lemma OfflineAlertIsForgotten(host: string, p: Sample)
    ensures var run := [Failed(true, true), Restarted, Tested, Succeeded(p)];
            Open(PolledAll(Watch(false, false, EMPTY), host, run).s.rows, HostDown(host))
  {
    var start := Watch(false, false, EMPTY);
    var tail := [Restarted, Tested];
    PolledSnoc(start, host, [], Failed(true, true));
    var w1 := Polled(start, host, Failed(true, true));
    PolledSnoc(start, host, [Failed(true, true)], Restarted);
    PolledSnoc(start, host, [Failed(true, true), Restarted], Tested);
    PolledSnoc(start, host, [Failed(true, true), Restarted, Tested], Succeeded(p));
    PolledSnoc(w1, host, [], Restarted);
    PolledSnoc(w1, host, [Restarted], Tested);
    FirstTestIs(tail, 1);
    assert FlagLost(tail) by { assert tail[0].Restarted?; }
    RecoveryIsMissed(start, host, true, tail, p);
    RaiseDownBalanced(start.s, host);
  }

  lemma PolledSnoc(w: Watch, host: string, es: seq<Poll>, e: Poll)
    ensures PolledAll(w, host, es + [e]) == Polled(PolledAll(w, host, es), host, e)
    ensures [] + [e] == [e] && PolledAll(w, host, []) == w
    ensures |es| == 1 ==> es + [e] == [es[0], e]
    ensures |es| == 2 ==> es + [e] == [es[0], es[1], e]
    ensures |es| == 3 ==> es + [e] == [es[0], es[1], es[2], e]
  {
    assert (es + [e])[..|es|] == es;
  }

  /** Without a host test the row remembers an open alert. */
  ghost predicate RowRemembers(w: Watch, host: string) {
    Balanced(w.s, host) && (w.wasOffline ==> w.offline) && (Open(w.s.rows, HostDown(host)) ==> w.offline)
  }

  /** So of polls one after the other, without host tests and across any restarts, every success closes the alert. */
  lemma {:induction false} SuccessCloses(w: Watch, host: string, es: seq<Poll>)
    requires RowRemembers(w, host) && forall i :: 0 <= i < |es| ==> !es[i].Tested?
    ensures RowRemembers(PolledAll(w, host, es), host)
    ensures es != [] && es[|es| - 1].Succeeded? ==> !Open(PolledAll(w, host, es).s.rows, HostDown(host))
  {
    if es != [] {
      var before, e := PolledAll(w, host, es[..|es| - 1]), es[|es| - 1];
      SuccessCloses(w, host, es[..|es| - 1]);
      RaiseDownBalanced(before.s, host);
      if e.Succeeded? {
        AssessBalanced(before.s, host, e.p.(host := host, wasOffline := before.wasOffline || before.offline));
      }
    }
  }
}

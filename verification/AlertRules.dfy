/** What one evaluation of a host does to every alert row and which notifications it sends (monitor/monitor.go,
    evaluateAlerts), with the keys, thresholds and severities written out. */
module AlertRules {
  import opened A = Alerts

  datatype Found = NoRow | Has(row: Row)

  function At(rows: map<Key, Row>, k: Key): Found { if k in rows then Has(rows[k]) else NoRow }

  function Closed(f: Found): Found { if f.Has? then Has(f.row.(open := false)) else NoRow }

  /** The host has an unhealthy container of that key, or one that is down. */
  ghost predicate Unhealthy(p: Sample, k: Key) {
    exists c :: c in p.ctrs && c.health == "unhealthy" && k == "unhealthy:" + p.host + ":" + c.name
  }
  ghost predicate Down(p: Sample, k: Key) {
    exists c :: c in p.ctrs && (c.state == "exited" || c.state == "dead") && k == "container_exited:" + p.host + ":" + c.name
  }

  /** A percentage's row: open from 90 on, closed below 88 unless it is 0, otherwise left as it is. */
  function LevelRow(f: Found, pct: real, severity: string): Found {
    if pct >= 90.0 then Has(Row(true, severity)) else if 0.0 < pct < 88.0 then Closed(f) else f
  }

  /** The row of a key after an evaluation. */
  ghost function RowAfter(rows: map<Key, Row>, p: Sample, k: Key): Found {
    var f := At(rows, k);
    if k == "disk:" + p.host then LevelRow(f, p.disk, if p.disk >= 95.0 then "crit" else "warn")
    else if k == "mem:" + p.host then LevelRow(f, p.mem, "warn")
    else if "unhealthy:" + p.host + ":" <= k then if Unhealthy(p, k) then Has(Row(true, "warn")) else Closed(f)
    else if "container_exited:" + p.host + ":" <= k then if Down(p, k) then f else Closed(f)
    else if k == "host_down:" + p.host then if p.wasOffline then Closed(f) else f
    else if k == "host_up:" + p.host && p.wasOffline && Open(rows, "host_down:" + p.host) then Has(Row(false, "ok"))
    else f
  }

  // ---------------------------------------------------------------- rows

  lemma LevelIs(s: State, key: Key, pct: real, severity: string, k: Key)
    ensures At(Level(s, key, pct, severity).rows, k) == if k == key then LevelRow(At(s.rows, k), pct, severity) else At(s.rows, k)
  {
  }

  lemma RecoveredIs(s: State, host: string, k: Key)
    ensures At(Recovered(s, host).rows, k)
         == if k == "host_down:" + host then Closed(At(s.rows, k))
            else if k == "host_up:" + host && Open(s.rows, "host_down:" + host) then Has(Row(false, "ok"))
            else At(s.rows, k)
  {
    assert ("host_down:" + host)[5] == 'd' && ("host_up:" + host)[5] == 'u';
  }

  lemma PrefixIs(s: State, prefix: string, keep: set<Key>, k: Key)
    ensures At(ResolvePrefixIn(s, prefix, keep).rows, k)
         == if prefix <= k && k !in keep then Closed(At(s.rows, k)) else At(s.rows, k)
  {
  }

  lemma {:induction false} RaisedAllIs(s: State, host: string, ctrs: seq<Container>, k: Key)
    ensures At(RaisedAll(s, host, ctrs).rows, k)
         == if exists c :: c in ctrs && c.health == "unhealthy" && k == "unhealthy:" + host + ":" + c.name
            then Has(Row(true, "warn")) else At(s.rows, k)
    decreases |ctrs|
  {
    if ctrs != [] {
      var t := if ctrs[0].health == "unhealthy" then RaiseIn(s, "unhealthy:" + host + ":" + ctrs[0].name, "warn") else s;
      RaisedAllIs(t, host, ctrs[1..], k);
      assert ctrs == [ctrs[0]] + ctrs[1..];
      assert ctrs[0] in ctrs;
    }
  }

  lemma KeysAre(p: Sample, k: Key)
    ensures k in UnhealthyKeys(p.host, p.ctrs) <==> Unhealthy(p, k)
    ensures k in ExitedKeys(p.host, p.ctrs) <==> Down(p, k)
    ensures UnhealthyPrefix(p.host) == "unhealthy:" + p.host + ":" && ExitedPrefix(p.host) == "container_exited:" + p.host + ":"
    ensures Unhealthy(p, k) ==> "unhealthy:" + p.host + ":" <= k
    ensures Down(p, k) ==> "container_exited:" + p.host + ":" <= k
  {
  }

  /** An evaluation leaves every row as stated: the level rows by their percentage, the unhealthy rows open for exactly
      the unhealthy containers, exited rows closed for those that are not down, the offline row closed and its event
      recorded after a recovery, and all others alone. */
  lemma EvaluationRows(s: State, p: Sample, k: Key)
    ensures At(Evaluated(s, p).rows, k) == RowAfter(s.rows, p, k)
  {
    hide Level, Recovered, RaisedAll, ResolvePrefixIn, UnhealthyKeys, ExitedKeys, UnhealthyPrefix, ExitedPrefix, Unhealthy, Down;
    KeysAre(p, k);
    PrefixesApart(p.host, k);
    var s1 := if p.wasOffline then Recovered(s, p.host) else s;
    RecoveredIs(s, p.host, k);
    var sev := if p.disk >= 95.0 then "crit" else "warn";
    var s2 := Level(s1, "disk:" + p.host, p.disk, sev);
    LevelIs(s1, "disk:" + p.host, p.disk, sev, k);
    var s3 := Level(s2, "mem:" + p.host, p.mem, "warn");
    LevelIs(s2, "mem:" + p.host, p.mem, "warn", k);
    var s4 := RaisedAll(s3, p.host, p.ctrs);
    RaisedAllIs(s3, p.host, p.ctrs, k);
    assert At(s4.rows, k) == if Unhealthy(p, k) then Has(Row(true, "warn")) else At(s3.rows, k) by { ContainerRows(s3, p, k); }
    PrefixIs(s4, UnhealthyPrefix(p.host), UnhealthyKeys(p.host, p.ctrs), k);
    var s5 := ResolvePrefixIn(s4, UnhealthyPrefix(p.host), UnhealthyKeys(p.host, p.ctrs));
    PrefixIs(s5, ExitedPrefix(p.host), ExitedKeys(p.host, p.ctrs), k);
    FirstLetters(p.host, k);
  }

  lemma ContainerRows(s: State, p: Sample, k: Key)
    ensures At(RaisedAll(s, p.host, p.ctrs).rows, k) == if Unhealthy(p, k) then Has(Row(true, "warn")) else At(s.rows, k)
  {
    RaisedAllIs(s, p.host, p.ctrs, k);
  }

  lemma FirstLetters(host: string, k: Key)
    ensures "unhealthy:" + host + ":" <= k ==> k[0] == 'u'
    ensures "container_exited:" + host + ":" <= k ==> k[0] == 'c'
    ensures ("disk:" + host)[0] == 'd' && ("mem:" + host)[0] == 'm'
    ensures ("host_down:" + host)[0] == 'h' && ("host_up:" + host)[0] == 'h'
  {
  }

  // ---------------------------------------------------------------- notifications

  /** One for each unhealthy container whose alert is not open yet, in order. */
  ghost function NewlyUnhealthy(ctrs: seq<Container>, host: string, open: iset<Key>): seq<Notice> {
    if ctrs == [] then []
    else
      var k := "unhealthy:" + host + ":" + ctrs[0].name;
      if ctrs[0].health == "unhealthy" && k !in open then [Raised(k)] + NewlyUnhealthy(ctrs[1..], host, open + iset{k})
      else NewlyUnhealthy(ctrs[1..], host, open)
  }

  ghost function OpenOnes(rows: map<Key, Row>): iset<Key> { iset k | Open(rows, k) }

  lemma {:induction false} RaisedAllSends(s: State, host: string, ctrs: seq<Container>)
    ensures RaisedAll(s, host, ctrs).sent == s.sent + NewlyUnhealthy(ctrs, host, OpenOnes(s.rows))
    decreases |ctrs|
  {
    if ctrs != [] {
      var k := "unhealthy:" + host + ":" + ctrs[0].name;
      var t := if ctrs[0].health == "unhealthy" then RaiseIn(s, k, "warn") else s;
      RaisedAllSends(t, host, ctrs[1..]);
      assert OpenOnes(t.rows) == OpenOnes(s.rows) + if ctrs[0].health == "unhealthy" then iset{k} else iset{};
      if ctrs[0].health == "unhealthy" && k in OpenOnes(s.rows) {
        assert OpenOnes(s.rows) + iset{k} == OpenOnes(s.rows);
      }
    }
  }

  /** Only whether keys of unhealthy containers are open matters. */
  lemma {:induction false} SameOpen(ctrs: seq<Container>, host: string, a: iset<Key>, b: iset<Key>)
    requires forall k :: "unhealthy:" + host + ":" <= k ==> (k in a <==> k in b)
    ensures NewlyUnhealthy(ctrs, host, a) == NewlyUnhealthy(ctrs, host, b)
  {
    if ctrs != [] {
      var k := "unhealthy:" + host + ":" + ctrs[0].name;
      assert "unhealthy:" + host + ":" <= k;
      SameOpen(ctrs[1..], host, a + iset{k}, b + iset{k});
      SameOpen(ctrs[1..], host, a, b);
    }
  }

  lemma LevelSends(s: State, key: Key, pct: real, severity: string)
    ensures Level(s, key, pct, severity).sent == s.sent + if pct >= 90.0 && !Open(s.rows, key) then [Raised(key)] else []
  {
  }

  lemma RecoveredSends(s: State, host: string)
    ensures Recovered(s, host).sent
         == s.sent + if Open(s.rows, "host_down:" + host) then [Happened("host_up:" + host)] else []
  {
  }

  lemma OpenIs(rows: map<Key, Row>, k: Key)
    ensures Open(rows, k) <==> At(rows, k).Has? && At(rows, k).row.open
  {
  }

  /** The notifications of an evaluation: a recovery, a full disk or memory that was not, and each container that was
      not unhealthy before; nothing else. */
  lemma EvaluationNotices(s: State, p: Sample)
    ensures Evaluated(s, p).sent
         == s.sent
            + (if p.wasOffline && Open(s.rows, "host_down:" + p.host) then [Happened("host_up:" + p.host)] else [])
            + (if p.disk >= 90.0 && !Open(s.rows, "disk:" + p.host) then [Raised("disk:" + p.host)] else [])
            + (if p.mem >= 90.0 && !Open(s.rows, "mem:" + p.host) then [Raised("mem:" + p.host)] else [])
            + NewlyUnhealthy(p.ctrs, p.host, OpenOnes(s.rows))
  {
    hide Level, Recovered, RaisedAll, NewlyUnhealthy, Evaluated, Open;
    var s1 := if p.wasOffline then Recovered(s, p.host) else s;
    RecoveredSends(s, p.host);
    var sev := if p.disk >= 95.0 then "crit" else "warn";
    var s2 := Level(s1, "disk:" + p.host, p.disk, sev);
    LevelSends(s1, "disk:" + p.host, p.disk, sev);
    var s3 := Level(s2, "mem:" + p.host, p.mem, "warn");
    LevelSends(s2, "mem:" + p.host, p.mem, "warn");
    RaisedAllSends(s3, p.host, p.ctrs);
    RecoveredIs(s, p.host, "disk:" + p.host);
    RecoveredIs(s, p.host, "mem:" + p.host);
    LevelIs(s1, "disk:" + p.host, p.disk, sev, "mem:" + p.host);
    FirstLetters(p.host, "mem:" + p.host);
    OpenIs(s.rows, "disk:" + p.host);
    OpenIs(s1.rows, "disk:" + p.host);
    OpenIs(s.rows, "mem:" + p.host);
    OpenIs(s2.rows, "mem:" + p.host);
    forall k | "unhealthy:" + p.host + ":" <= k ensures k in OpenOnes(s3.rows) <==> k in OpenOnes(s.rows) {
      FirstLetters(p.host, k);
      RecoveredIs(s, p.host, k);
      LevelIs(s1, "disk:" + p.host, p.disk, sev, k);
      LevelIs(s2, "mem:" + p.host, p.mem, "warn", k);
      OpenIs(s3.rows, k);
      OpenIs(s.rows, k);
    }
    SameOpen(p.ctrs, p.host, OpenOnes(s3.rows), OpenOnes(s.rows));
    EvaluatedSends(s, p);
  }

  lemma EvaluatedSends(s: State, p: Sample)
    ensures var s1 := if p.wasOffline then Recovered(s, p.host) else s;
            var s2 := Level(s1, "disk:" + p.host, p.disk, if p.disk >= 95.0 then "crit" else "warn");
            var s3 := Level(s2, "mem:" + p.host, p.mem, "warn");
            Evaluated(s, p).sent == RaisedAll(s3, p.host, p.ctrs).sent
  {
    hide Level, Recovered, RaisedAll, UnhealthyKeys, ExitedKeys;
  }

  // ---------------------------------------------------------------- when a host is offline

  /** What one poll met: no answer, with the retries and the monitoring set at that time, or an answer; and what else
      touches the host's record. */
  datatype Try = Miss(retries: int, monitored: bool) | Hit(p: Sample) | Restart | Test

  function Retries(n: int): int { if n < 1 then 1 else n }

  /** The record's count of failures: those since the last answer. */
  function Misses(ts: seq<Try>): nat {
    if ts == [] then 0
    else
      match ts[|ts| - 1]
      case Miss(_, _) => 1 + Misses(ts[..|ts| - 1])
      case Restart => Misses(ts[..|ts| - 1])
      case _ => 0
  }

  function AsPolls(ts: seq<Try>): seq<Poll> {
    if ts == [] then []
    else
      var front := ts[..|ts| - 1];
      AsPolls(front) +
      match ts[|ts| - 1]
      case Miss(r, m) => [Failed(Misses(ts) >= Retries(r), m)]
      case Hit(p) => [Succeeded(p)]
      case Restart => [Restarted]
      case Test => [Tested]
  }

  const NEW: Watch := Watch(false, false, EMPTY)

  function WatchAfter(ts: seq<Try>, host: string): Watch { PolledAll(NEW, host, AsPolls(ts)) }

  /** A failure since the last answer used up the retries of its time. */
  predicate UsedUp(ts: seq<Try>) {
    ts != [] &&
    match ts[|ts| - 1]
    case Miss(r, _) => Misses(ts) >= Retries(r) || UsedUp(ts[..|ts| - 1])
    case Restart => UsedUp(ts[..|ts| - 1])
    case _ => false
  }

  lemma LastPoll(ts: seq<Try>, host: string)
    requires ts != []
    ensures var ps := AsPolls(ts);
            ps != [] && WatchAfter(ts, host) == Polled(WatchAfter(ts[..|ts| - 1], host), host, ps[|ps| - 1])
  {
    var ps := AsPolls(ts);
    assert ps[..|ps| - 1] == AsPolls(ts[..|ts| - 1]);
  }

  /** The record says offline exactly when a failure since the last answer used up the retries: with a fixed number of
      retries, when there were that many failures. */
  lemma {:induction false} OfflineWhenUsedUp(ts: seq<Try>, host: string, retries: int)
    ensures WatchAfter(ts, host).offline <==> UsedUp(ts)
    ensures (forall i :: 0 <= i < |ts| && ts[i].Miss? ==> ts[i].retries == retries) ==>
      (UsedUp(ts) <==> Misses(ts) >= Retries(retries))
  {
    if ts != [] {
      LastPoll(ts, host);
      OfflineWhenUsedUp(ts[..|ts| - 1], host, retries);
    }
  }

  /** A host that is not monitored has no offline alert and sends no notice of one. */
  lemma {:induction false} UnmonitoredIsSilent(ts: seq<Try>, host: string)
    requires forall i :: 0 <= i < |ts| && ts[i].Miss? ==> !ts[i].monitored
    ensures var s := WatchAfter(ts, host).s; Balanced(s, host) && !Open(s.rows, HostDown(host)) && DownCount(s.sent, host) == 0
  {
    if ts != [] {
      var w := WatchAfter(ts[..|ts| - 1], host);
      LastPoll(ts, host);
      UnmonitoredIsSilent(ts[..|ts| - 1], host);
      match ts[|ts| - 1]
      case Hit(p) =>
        AssessBalanced(w.s, host, p.(host := host, wasOffline := w.wasOffline || w.offline));
        CountEvaluated(w.s, p.(host := host, wasOffline := w.wasOffline || w.offline));
      case _ =>
    }
  }

  /** Of a monitored host that stops answering, the failure that uses up the retries opens the alert and sends the one
      notice. */
  lemma {:induction false} NoticeAtLastRetry(n: nat, retries: int, host: string)
    ensures var ts, w := seq(n, _ => Miss(retries, true)), WatchAfter(seq(n, _ => Miss(retries, true)), host);
            && Misses(ts) == n && Balanced(w.s, host) && (w.wasOffline <==> w.offline)
            && (w.offline <==> n >= Retries(retries)) && (Open(w.s.rows, HostDown(host)) <==> n >= Retries(retries))
            && DownCount(w.s.sent, host) == if n >= Retries(retries) then 1 else 0
  {
    if n > 0 {
      var ts := seq(n, _ => Miss(retries, true));
      NoticeAtLastRetry(n - 1, retries, host);
      assert ts[..n - 1] == seq(n - 1, _ => Miss(retries, true));
      LastPoll(ts, host);
      RaiseDownBalanced(WatchAfter(ts[..n - 1], host).s, host);
      RaisedDown(WatchAfter(ts[..n - 1], host).s, host);
    }
  }
}

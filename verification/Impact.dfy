/** Blast-radius reports (impact/impact.go): what stops when a host, a stack or a container goes down. All
    reports here are over one snapshot of a host's containers and of the uptime monitors. The lists a report
    shows sorted are sequences, sets or maps here; their order is not modelled. */
module Impact {
  import opened Wrappers

  datatype Container = Container(id: string, name: string, stack: string, state: string, healthy: bool,
                                 hostPorts: seq<int>, anyPorts: bool, restarts: bool)

  /** `aim` is what monitorTarget reads from the monitor's target text: host name ("" if none) and port. */
  datatype Monitor = Monitor(name: string, hostID: Option<string>, kind: string, enabled: bool, aimHost: string, aimPort: int)

  /** A host; `names` are its address and name in lower case. */
  datatype Host = Host(id: string, names: set<string>)

  datatype Severity = Info | Warn | Crit
  datatype Item = Item(kind: string, name: string, severity: Severity)

  datatype Report = Report(stops: seq<Item>, stacks: map<string, nat>, ports: set<int>, monitors: seq<Item>,
                           depends: seq<Item>, severity: Severity, comingBack: nat)

  predicate Live(c: Container) { c.state == "running" || c.state == "restarting" || c.state == "paused" }

  /** Whether a monitor is aimed at this host; with ports, at one of them. */
  predicate Watches(m: Monitor, rec: Host, ports: Option<set<int>>) {
    if m.hostID == Some(rec.id) && ports.None? then true
    else if m.hostID == Some(rec.id) && m.kind == "host" then false
    else if m.aimHost == "" then false
    else if m.aimHost !in rec.names && m.hostID != Some(rec.id) then false
    else ports.None? || (m.aimPort != 0 && m.aimPort in ports.value)
  }

  function Rank(s: Severity): nat {
    match s
    case Info => 0
    case Warn => 1
    case Crit => 2
  }

  /** sev: the worse of two severities. */
  function Sev(worst: Severity, s: Severity): Severity {
    if Rank(s) > Rank(worst) then s else worst
  }

  // ---------------------------------------------------------------- the parts of a report

  function Filter<T>(s: seq<T>, keep: T -> bool): seq<T> {
    if s == [] then [] else (if keep(s[0]) then [s[0]] else []) + Filter(s[1..], keep)
  }

  function Map<T, U>(s: seq<T>, f: T -> U): seq<U> {
    if s == [] then [] else [f(s[0])] + Map(s[1..], f)
  }

  lemma {:induction false} FilterSnoc<T>(s: seq<T>, x: T, keep: T -> bool)
    ensures keep(x) ==> Filter(s + [x], keep) == Filter(s, keep) + [x]
    ensures !keep(x) ==> Filter(s + [x], keep) == Filter(s, keep)
  {
    if s == [] {
      assert [] + [x] == [x] && [x][1..] == [];
    } else {
      assert (s + [x])[1..] == s[1..] + [x];
      FilterSnoc(s[1..], x, keep);
      var head := if keep(s[0]) then [s[0]] else [];
      assert head + (Filter(s[1..], keep) + [x]) == head + Filter(s[1..], keep) + [x];
    }
  }

  lemma {:induction false} MapSnoc<T, U>(s: seq<T>, x: T, f: T -> U)
    ensures Map(s + [x], f) == Map(s, f) + [f(x)]
  {
    if s == [] {
      assert [] + [x] == [x] && [x][1..] == [];
    } else {
      assert (s + [x])[1..] == s[1..] + [x];
      MapSnoc(s[1..], x, f);
    }
  }

  lemma {:induction false} FilterMember<T>(s: seq<T>, keep: T -> bool, x: T)
    ensures x in Filter(s, keep) <==> x in s && keep(x)
  {
    if s != [] {
      FilterMember(s[1..], keep, x);
      assert s == [s[0]] + s[1..];
    }
  }

  function OfStack(name: string): Container -> bool { (c: Container) => c.stack == name }

  function Aimed(rec: Host, ports: Option<set<int>>): Monitor -> bool {
    (m: Monitor) => m.enabled && Watches(m, rec, ports)
  }

  predicate ComesBack(c: Container) { c.restarts }

  function CountRestarts(cs: seq<Container>): nat { |Filter(cs, ComesBack)| }

  /** Still up, not itself stopping, and in a stack that loses a container. */
  function DependsOn(stopping: seq<Container>): Container -> bool {
    (c: Container) =>
      && !(exists d :: d in stopping && d.id == c.id)
      && Live(c) && c.stack != ""
      && exists d :: d in stopping && d.stack == c.stack
  }

  function StopItem(c: Container): Item {
    Item("container", c.name, if c.healthy || c.anyPorts then Crit else Warn)
  }

  function MonitorItem(m: Monitor): Item { Item("monitor", m.name, Crit) }

  function DependItem(c: Container): Item { Item("container", c.name, Info) }

  function PortsOf(cs: seq<Container>): set<int> {
    set c, p | c in cs && p in c.hostPorts && p > 0 :: p
  }

  /** How many of the containers each stack has. */
  function CountStack(cs: seq<Container>, stack: string): nat {
    |Filter(cs, OfStack(stack))|
  }

  function Tally(stacks: map<string, nat>, stack: string): map<string, nat> {
    if stack == "" then stacks
    else stacks[stack := (if stack in stacks then stacks[stack] else 0) + 1]
  }

  function StackCounts(cs: seq<Container>): map<string, nat> {
    if cs == [] then map[] else Tally(StackCounts(cs[..|cs| - 1]), cs[|cs| - 1].stack)
  }

  /** The stacks of a report are those of the containers that stop, each with their number. */
  lemma {:induction false} StackCountsAre(cs: seq<Container>, stack: string)
    ensures stack in StackCounts(cs) <==> stack != "" && CountStack(cs, stack) > 0
    ensures stack in StackCounts(cs) ==> StackCounts(cs)[stack] == CountStack(cs, stack)
  {
    if cs != [] {
      var init, last := cs[..|cs| - 1], cs[|cs| - 1];
      StackCountsAre(init, stack);
      assert cs == init + [last];
      FilterSnoc(init, last, OfStack(stack));
    }
  }

  function Watching(mons: seq<Monitor>, rec: Host, ports: Option<set<int>>): seq<Monitor> {
    Filter(mons, Aimed(rec, ports))
  }

  function Worst(items: seq<Item>, start: Severity): Severity
    decreases |items|
  {
    if items == [] then start else Worst(items[1..], Sev(start, items[0].severity))
  }

  /** The report on containers that would stop. */
  function Built(rec: Host, hostWide: bool, stopping: seq<Container>, mons: seq<Monitor>, depends: seq<Item>): Report {
    var down := Filter(stopping, Live);
    var ports := PortsOf(down);
    var stops := Map(down, StopItem);
    var watching := Map(Watching(mons, rec, if hostWide then None else Some(ports)), MonitorItem);
    Report(stops, StackCounts(down), ports, watching, depends, Worst(stops + watching, Info),
           CountRestarts(down))
  }

  function DependentsOf(all: seq<Container>, stopping: seq<Container>): seq<Container> {
    Filter(all, DependsOn(stopping))
  }

  // ---------------------------------------------------------------- building it

  lemma PortsSnoc(cs: seq<Container>, c: Container)
    ensures PortsOf(cs + [c]) == PortsOf(cs) + set p | p in c.hostPorts && p > 0
  {
    assert forall x :: x in cs + [c] <==> x in cs || x == c;
  }

  method AddPorts(ports: set<int>, more: seq<int>) returns (out: set<int>)
    ensures out == ports + set p | p in more && p > 0
  {
    out := ports;
    for j := 0 to |more|
      invariant out == ports + set p | p in more[..j] && p > 0
    {
      assert more[..j + 1] == more[..j] + [more[j]];
      if more[j] > 0 {
        out := out + {more[j]};
      }
    }
    assert more[..|more|] == more;
  }

  lemma OneMore(down: seq<Container>, c: Container)
    ensures Map(down + [c], StopItem) == Map(down, StopItem) + [StopItem(c)]
    ensures StackCounts(down + [c]) == Tally(StackCounts(down), c.stack)
    ensures PortsOf(down + [c]) == PortsOf(down) + set p | p in c.hostPorts && p > 0
    ensures CountRestarts(down + [c]) == CountRestarts(down) + if c.restarts then 1 else 0
  {
    MapSnoc(down, c, StopItem);
    assert (down + [c])[..|down|] == down;
    PortsSnoc(down, c);
    FilterSnoc(down, c, ComesBack);
  }

  method StopsOf(stopping: seq<Container>)
    returns (stops: seq<Item>, stacks: map<string, nat>, ports: set<int>, restarts: nat)
    ensures var down := Filter(stopping, Live);
            && stops == Map(down, StopItem) && stacks == StackCounts(down) && ports == PortsOf(down)
            && restarts == CountRestarts(down)
  {
    stops, stacks, ports, restarts := [], map[], {}, 0;
    ghost var down: seq<Container> := [];
    for i := 0 to |stopping|
      invariant down == Filter(stopping[..i], Live)
      invariant stops == Map(down, StopItem) && stacks == StackCounts(down) && ports == PortsOf(down)
      invariant restarts == CountRestarts(down)
    {
      var c := stopping[i];
      assert stopping[..i + 1] == stopping[..i] + [c];
      FilterSnoc(stopping[..i], c, Live);
      if !Live(c) {
        continue;
      }
      OneMore(down, c);
      down := down + [c];
      stops := stops + [StopItem(c)];
      stacks := Tally(stacks, c.stack);
      ports := AddPorts(ports, c.hostPorts);
      if c.restarts {
        restarts := restarts + 1;
      }
    }
    assert stopping[..|stopping|] == stopping;
  }

  method MonitorsOf(mons: seq<Monitor>, rec: Host, ports: Option<set<int>>) returns (items: seq<Item>)
    ensures items == Map(Watching(mons, rec, ports), MonitorItem)
  {
    items := [];
    ghost var keep := Aimed(rec, ports);
    for i := 0 to |mons|
      invariant items == Map(Filter(mons[..i], keep), MonitorItem)
    {
      var m := mons[i];
      assert mons[..i + 1] == mons[..i] + [m];
      FilterSnoc(mons[..i], m, keep);
      if !m.enabled || !Watches(m, rec, ports) {
        continue;
      }
      MapSnoc(Filter(mons[..i], keep), m, MonitorItem);
      items := items + [MonitorItem(m)];
    }
    assert mons[..|mons|] == mons;
  }

  method Build(rec: Host, hostWide: bool, stopping: seq<Container>, mons: seq<Monitor>, depends: seq<Item>)
    returns (out: Report)
    ensures out == Built(rec, hostWide, stopping, mons, depends)
  {
    var stops, stacks, ports, restarts := StopsOf(stopping);
    var monitors := MonitorsOf(mons, rec, if hostWide then None else Some(ports));
    var severity := Info;
    var items := stops + monitors;
    for i := 0 to |items|
      invariant Worst(items, Info) == Worst(items[i..], severity)
    {
      assert items[i..][1..] == items[i + 1..];
      severity := Sev(severity, items[i].severity);
    }
    assert items[|items|..] == [];
    out := Report(stops, stacks, ports, monitors, depends, severity, restarts);
  }

  method Touched(stopping: seq<Container>) returns (gone: set<string>, stacks: set<string>)
    ensures forall id :: id in gone <==> exists d :: d in stopping && d.id == id
    ensures forall s :: s in stacks <==> s != "" && exists d :: d in stopping && d.stack == s
  {
    gone, stacks := {}, {};
    for i := 0 to |stopping|
      invariant forall id :: id in gone <==> exists d :: d in stopping[..i] && d.id == id
      invariant forall s :: s in stacks <==> s != "" && exists d :: d in stopping[..i] && d.stack == s
    {
      var c := stopping[i];
      assert stopping[..i + 1] == stopping[..i] + [c];
      assert c in stopping[..i + 1];
      gone := gone + {c.id};
      if c.stack != "" {
        stacks := stacks + {c.stack};
      }
    }
    assert stopping[..|stopping|] == stopping;
  }

  lemma NothingYet(all: seq<Container>, keep: Container -> bool)
    ensures Map(Filter(all[..0], keep), DependItem) == []
  {
  }

  method Dependents(all: seq<Container>, stopping: seq<Container>) returns (items: seq<Item>)
    ensures items == Map(DependentsOf(all, stopping), DependItem)
  {
    hide Filter, Map;
    NothingYet(all, DependsOn(stopping));
    var gone, stacks := Touched(stopping);
    items := [];
    ghost var keep := DependsOn(stopping);
    for i := 0 to |all|
      invariant items == Map(Filter(all[..i], keep), DependItem)
    {
      var c := all[i];
      assert all[..i + 1] == all[..i] + [c];
      FilterSnoc(all[..i], c, keep);
      MapSnoc(Filter(all[..i], keep), c, DependItem);
      var skip := c.id in gone || !Live(c) || c.stack == "" || c.stack !in stacks;
      assert skip == !keep(c);
      if skip {
        continue;
      }
      items := items + [DependItem(c)];
    }
    assert all[..|all|] == all;
  }

  // ---------------------------------------------------------------- the three reports

  /** A container is meant by its id, a prefix of it, or its name. */
  predicate Meant(cid: string, c: Container) { c.id == cid || cid <= c.id || c.name == cid }

  function OfId(cid: string): Container -> bool { (c: Container) => Meant(cid, c) }

  function HostReport(rec: Host, all: seq<Container>, mons: seq<Monitor>): Report {
    Built(rec, true, all, mons, [])
  }

  function StackReport(rec: Host, all: seq<Container>, mons: seq<Monitor>, name: string): Report {
    var mine := Filter(all, OfStack(name));
    Built(rec, false, mine, mons, Map(DependentsOf(all, mine), DependItem))
  }

  /** None when no container is meant. */
  function ContainerReport(rec: Host, all: seq<Container>, mons: seq<Monitor>, cid: string): Option<Report> {
    var mine := Filter(all, OfId(cid));
    if mine == [] then None else Some(Built(rec, false, mine, mons, Map(DependentsOf(all, mine), DependItem)))
  }

  method ReportHost(rec: Host, all: seq<Container>, mons: seq<Monitor>) returns (out: Report)
    ensures out == HostReport(rec, all, mons)
  {
    out := Build(rec, true, all, mons, []);
  }

  method ReportStack(rec: Host, all: seq<Container>, mons: seq<Monitor>, name: string) returns (out: Report)
    ensures out == StackReport(rec, all, mons, name)
  {
    var mine: seq<Container> := [];
    for i := 0 to |all|
      invariant mine == Filter(all[..i], OfStack(name))
    {
      assert all[..i + 1] == all[..i] + [all[i]];
      FilterSnoc(all[..i], all[i], OfStack(name));
      if all[i].stack == name {
        mine := mine + [all[i]];
      }
    }
    assert all[..|all|] == all;
    var depends := Dependents(all, mine);
    out := Build(rec, false, mine, mons, depends);
  }

  method ReportContainer(rec: Host, all: seq<Container>, mons: seq<Monitor>, cid: string) returns (out: Option<Report>)
    ensures out == ContainerReport(rec, all, mons, cid)
  {
    var mine: seq<Container> := [];
    for i := 0 to |all|
      invariant mine == Filter(all[..i], OfId(cid))
    {
      assert all[..i + 1] == all[..i] + [all[i]];
      FilterSnoc(all[..i], all[i], OfId(cid));
      if all[i].id == cid || cid <= all[i].id || all[i].name == cid {
        mine := mine + [all[i]];
      }
    }
    assert all[..|all|] == all;
    if |mine| == 0 {
      return None;
    }
    var depends := Dependents(all, mine);
    var r := Build(rec, false, mine, mons, depends);
    out := Some(r);
  }

  // ---------------------------------------------------------------- monotone

  /** A list contained in another, counted. */
  lemma {:induction false} FilterMonotone(all: seq<Container>, p: Container -> bool, q: Container -> bool)
    requires forall c :: c in all && Live(c) && p(c) ==> q(c)
    ensures var a, b := Filter(Filter(all, p), Live), Filter(Filter(all, q), Live);
            multiset(Map(a, StopItem)) <= multiset(Map(b, StopItem))
    ensures forall s :: CountStack(Filter(Filter(all, p), Live), s) <= CountStack(Filter(Filter(all, q), Live), s)
  {
    if all != [] {
      var c := all[0];
      FilterMonotone(all[1..], p, q);
      var pa, qa := Filter(all[1..], p), Filter(all[1..], q);
      if p(c) && Live(c) {
        FilterCons(c, pa);
        assert Filter(all, p) == [c] + pa;
      } else if p(c) {
        FilterCons(c, pa);
        assert Filter(all, p) == [c] + pa;
      } else {
        assert Filter(all, p) == pa;
      }
      if q(c) {
        FilterCons(c, qa);
        assert Filter(all, q) == [c] + qa;
      } else {
        assert Filter(all, q) == qa;
      }
    }
  }

  lemma FilterCons(c: Container, rest: seq<Container>)
    ensures var r := Filter([c] + rest, Live);
            && multiset(Map(r, StopItem))
               == multiset(Map(Filter(rest, Live), StopItem)) + (if Live(c) then multiset{StopItem(c)} else multiset{})
            && forall s :: CountStack(r, s) == CountStack(Filter(rest, Live), s) + if Live(c) && c.stack == s then 1 else 0
  {
    assert ([c] + rest)[1..] == rest;
    var down := Filter(rest, Live);
    if Live(c) {
      assert Filter([c] + rest, Live) == [c] + down;
      assert ([c] + down)[1..] == down;
      assert Map([c] + down, StopItem) == [StopItem(c)] + Map(down, StopItem);
    } else {
      assert Filter([c] + rest, Live) == [] + down == down;
    }
  }

  lemma WatchesMore(m: Monitor, rec: Host, a: set<int>, b: set<int>)
    requires a <= b
    ensures Watches(m, rec, Some(a)) ==> Watches(m, rec, Some(b)) && Watches(m, rec, None)
  {
  }

  lemma {:induction false} MonitorsMonotone(mons: seq<Monitor>, p: Monitor -> bool, q: Monitor -> bool)
    requires forall m :: p(m) ==> q(m)
    ensures multiset(Map(Filter(mons, p), MonitorItem)) <= multiset(Map(Filter(mons, q), MonitorItem))
  {
    if mons != [] {
      MonitorsMonotone(mons[1..], p, q);
      MapCons(mons[0], Filter(mons[1..], p));
      MapCons(mons[0], Filter(mons[1..], q));
    }
  }

  lemma MapCons(m: Monitor, rest: seq<Monitor>)
    ensures multiset(Map([m] + rest, MonitorItem)) == multiset{MonitorItem(m)} + multiset(Map(rest, MonitorItem))
    ensures [] + rest == rest
  {
    assert ([m] + rest)[1..] == rest;
  }

  /** The severity of a report is that of its worst item. */
  lemma {:induction false} WorstIs(items: seq<Item>, start: Severity)
    ensures Rank(Worst(items, start)) >= Rank(start)
    ensures forall i :: i in items ==> Rank(i.severity) <= Rank(Worst(items, start))
    ensures Worst(items, start) == start || exists i :: i in items && i.severity == Worst(items, start)
    decreases |items|
  {
    if items != [] {
      WorstIs(items[1..], Sev(start, items[0].severity));
      assert items == [items[0]] + items[1..];
      assert items[0] in items;
    }
  }

  lemma WorstMonotone(a: seq<Item>, b: seq<Item>)
    requires multiset(a) <= multiset(b)
    ensures Rank(Worst(a, Info)) <= Rank(Worst(b, Info))
  {
    WorstIs(a, Info);
    WorstIs(b, Info);
    forall i | i in a ensures i in b {
      assert i in multiset(a);
      assert i in multiset(b);
    }
  }

  ghost predicate Contained(a: Report, b: Report) {
    && multiset(a.stops) <= multiset(b.stops)
    && a.ports <= b.ports
    && (forall s :: s in a.stacks ==> s in b.stacks && a.stacks[s] <= b.stacks[s])
    && multiset(a.monitors) <= multiset(b.monitors)
    && Rank(a.severity) <= Rank(b.severity)
  }

  /** More containers stopping means a bigger report in every part. */
  lemma BuiltMonotone(rec: Host, all: seq<Container>, p: Container -> bool, q: Container -> bool, mons: seq<Monitor>,
                      wide: bool, d1: seq<Item>, d2: seq<Item>)
    requires forall c :: c in all && Live(c) && p(c) ==> q(c)
    ensures Contained(Built(rec, false, Filter(all, p), mons, d1), Built(rec, wide, Filter(all, q), mons, d2))
  {
    var x, y := Filter(all, p), Filter(all, q);
    var a, b := Filter(x, Live), Filter(y, Live);
    FilterMonotone(all, p, q);
    forall c | c in a ensures c in b {
      FilterMember(x, Live, c);
      FilterMember(y, Live, c);
      FilterMember(all, p, c);
      FilterMember(all, q, c);
    }
    forall s | s in StackCounts(a) ensures s in StackCounts(b) && StackCounts(a)[s] <= StackCounts(b)[s] {
      StackCountsAre(a, s);
      StackCountsAre(b, s);
    }
    var pa, pb := PortsOf(a), PortsOf(b);
    var w2 := if wide then None else Some(pb);
    var k1, k2 := Aimed(rec, Some(pa)), Aimed(rec, w2);
    forall m | k1(m) ensures k2(m) { WatchesMore(m, rec, pa, pb); }
    MonitorsMonotone(mons, k1, k2);
    var m1, m2 := Map(Watching(mons, rec, Some(pa)), MonitorItem), Map(Watching(mons, rec, w2), MonitorItem);
    assert multiset(Map(a, StopItem) + m1) <= multiset(Map(b, StopItem) + m2);
    WorstMonotone(Map(a, StopItem) + m1, Map(b, StopItem) + m2);
  }

  lemma {:induction false} FilterAll(all: seq<Container>)
    ensures Filter(all, (c: Container) => true) == all
  {
    if all != [] {
      FilterAll(all[1..]);
    }
  }

  /** A stack's report is contained in its host's. */
  lemma StackWithinHost(rec: Host, all: seq<Container>, mons: seq<Monitor>, name: string)
    ensures Contained(StackReport(rec, all, mons, name), HostReport(rec, all, mons))
  {
    var everything := (c: Container) => true;
    FilterAll(all);
    BuiltMonotone(rec, all, OfStack(name), everything, mons, true,
                  Map(DependentsOf(all, Filter(all, OfStack(name))), DependItem), []);
  }

  /** No two containers of a host have the same name, which is Docker's own rule. */
  ghost predicate UniqueNames(all: seq<Container>) {
    forall c, d :: c in all && d in all && c.name == d.name ==> c == d
  }

  ghost predicate LiveOnesIn(all: seq<Container>, cid: string, name: string) {
    forall c :: c in all && Meant(cid, c) && Live(c) ==> c.stack == name
  }

  /** A container's report is contained in a stack's exactly when every live container that is meant is in that
      stack. */
  lemma ContainerWithinStack(rec: Host, all: seq<Container>, mons: seq<Monitor>, cid: string, name: string)
    requires ContainerReport(rec, all, mons, cid).Some?
    ensures LiveOnesIn(all, cid, name)
        ==> Contained(ContainerReport(rec, all, mons, cid).value, StackReport(rec, all, mons, name))
    ensures UniqueNames(all) && Contained(ContainerReport(rec, all, mons, cid).value, StackReport(rec, all, mons, name))
        ==> LiveOnesIn(all, cid, name)
  {
    var small, big := ContainerReport(rec, all, mons, cid).value, StackReport(rec, all, mons, name);
    if LiveOnesIn(all, cid, name) {
      BuiltMonotone(rec, all, OfId(cid), OfStack(name), mons, false,
                    Map(DependentsOf(all, Filter(all, OfId(cid))), DependItem),
                    Map(DependentsOf(all, Filter(all, OfStack(name))), DependItem));
    }
    if UniqueNames(all) && multiset(small.stops) <= multiset(big.stops) {
      forall c | c in all && Meant(cid, c) && Live(c) ensures c.stack == name {
        StopsAreInStack(all, cid, name, c);
      }
    }
  }

  lemma StopsAreInStack(all: seq<Container>, cid: string, name: string, c: Container)
    requires UniqueNames(all) && c in all && Meant(cid, c) && Live(c)
    requires multiset(Map(Filter(Filter(all, OfId(cid)), Live), StopItem))
          <= multiset(Map(Filter(Filter(all, OfStack(name)), Live), StopItem))
    ensures c.stack == name
  {
    var mine, theirs := Filter(Filter(all, OfId(cid)), Live), Filter(Filter(all, OfStack(name)), Live);
    FilterMember(all, OfId(cid), c);
    FilterMember(Filter(all, OfId(cid)), Live, c);
    MapMember(mine, StopItem, StopItem(c));
    assert StopItem(c) in multiset(Map(mine, StopItem));
    assert StopItem(c) in multiset(Map(theirs, StopItem));
    MapMember(theirs, StopItem, StopItem(c));
    var d :| d in theirs && StopItem(d) == StopItem(c);
    FilterMember(Filter(all, OfStack(name)), Live, d);
    FilterMember(all, OfStack(name), d);
  }

  lemma {:induction false} MapMember<T, U>(s: seq<T>, f: T -> U, y: U)
    ensures y in Map(s, f) <==> exists x :: x in s && f(x) == y
  {
    if s != [] {
      MapMember(s[1..], f, y);
      assert s == [s[0]] + s[1..];
      assert s[0] in s;
    }
  }

  /** The containment is lost whenever one container's id is another's name and both run in different stacks: the
      report on that text is in neither stack's. */
  lemma AmbiguousContainer(rec: Host, a: Container, b: Container, mons: seq<Monitor>)
    requires a.id == b.name && a.name != b.name && a.stack != b.stack && Live(a) && Live(b)
    ensures var all, cid := [a, b], a.id;
            && ContainerReport(rec, all, mons, cid).Some?
            && !Contained(ContainerReport(rec, all, mons, cid).value, StackReport(rec, all, mons, a.stack))
            && !Contained(ContainerReport(rec, all, mons, cid).value, StackReport(rec, all, mons, b.stack))
  {
    var all, cid := [a, b], a.id;
    assert a in all && b in all && UniqueNames(all);
    FilterMember(all, OfId(cid), a);
    ContainerWithinStack(rec, all, mons, cid, a.stack);
    ContainerWithinStack(rec, all, mons, cid, b.stack);
    assert Meant(cid, a) && Meant(cid, b);
  }

  // ---------------------------------------------------------------- stops and depends

  ghost predicate UniqueIds(all: seq<Container>) {
    forall c, d :: c in all && d in all && c.id == d.id ==> c == d
  }

  /** What a report says stops and what it says depends are disjoint, and together they are the live
      containers of the stacks touched, plus stopped containers without a stack. Whatever was asked for, by
      any predicate. */
  lemma StopsAndDepends(all: seq<Container>, meant: Container -> bool, c: Container)
    requires UniqueIds(all) && c in all
    ensures var mine := Filter(all, meant);
            var stops, depends := Filter(mine, Live), DependentsOf(all, mine);
            && !(c in stops && c in depends)
            && (c.stack != "" ==>
                  (c in stops || c in depends <==> Live(c) && exists d :: d in mine && d.stack == c.stack))
            && (c.stack == "" ==> (c in stops <==> Live(c) && meant(c)) && c !in depends)
  {
    var mine := Filter(all, meant);
    FilterMember(mine, Live, c);
    FilterMember(all, meant, c);
    FilterMember(all, DependsOn(mine), c);
    forall d | d in mine ensures d in all {
      FilterMember(all, meant, d);
    }
  }

  /** What the report on a text that means one container shows: its stops and depends are those of two groups
      that split the live containers of its stack. */
  lemma ContainerSplitsItsStack(rec: Host, all: seq<Container>, mons: seq<Monitor>, cid: string, it: Container)
    requires UniqueIds(all) && it in all && Meant(cid, it) && it.stack != ""
    requires forall x :: x in all && Meant(cid, x) ==> x == it
    ensures var mine := Filter(all, OfId(cid));
            var stops, depends := Filter(mine, Live), DependentsOf(all, mine);
            var report := ContainerReport(rec, all, mons, cid);
            && report.Some? && report.value.stops == Map(stops, StopItem) && report.value.depends == Map(depends, DependItem)
            && forall c :: c in all ==>
                 && !(c in stops && c in depends)
                 && (c in stops || c in depends <==> Live(c) && c.stack == it.stack)
  {
    var mine := Filter(all, OfId(cid));
    FilterMember(all, OfId(cid), it);
    forall d | d in mine ensures d == it {
      FilterMember(all, OfId(cid), d);
    }
    forall c | c in all
      ensures var stops, depends := Filter(mine, Live), DependentsOf(all, mine);
              && !(c in stops && c in depends)
              && (c in stops || c in depends <==> Live(c) && c.stack == it.stack)
    {
      StopsAndDepends(all, OfId(cid), c);
    }
  }
}

/** What stands in a blast-radius report (impact/impact.go), in terms of the containers and the monitors alone. */
module ImpactRules {
  import opened Wrappers
  import opened I = Impact

  predicate Up(c: Container) { c.state in {"running", "restarting", "paused"} }

  /** The containers of a snapshot that run and are among the meant ones. */
  ghost function Losing(all: seq<Container>, meant: Container -> bool): set<nat> {
    set i | 0 <= i < |all| && meant(all[i]) && Up(all[i])
  }

  ghost function Where<T>(s: seq<T>, keep: T -> bool): set<nat> { set i | 0 <= i < |s| && keep(s[i]) }

  lemma {:induction false} FilterCounts<T>(s: seq<T>, keep: T -> bool)
    ensures |Filter(s, keep)| == |Where(s, keep)|
    decreases |s|
  {
    if s != [] {
      var init, n := s[..|s| - 1], |s| - 1;
      FilterCounts(init, keep);
      assert s == init + [s[n]];
      FilterSnoc(init, s[n], keep);
      assert Where(s, keep) == Where(init, keep) + if keep(s[n]) then {n} else {};
    }
  }

  lemma {:induction false} MapLength<T, U>(s: seq<T>, f: T -> U)
    ensures |Map(s, f)| == |s|
  {
    if s != [] {
      MapLength(s[1..], f);
    }
  }

  /** A monitor that will notice: without ports, when the whole host goes. */
  predicate Notices(m: Monitor, rec: Host, ports: Option<set<int>>) {
    && m.enabled
    && if ports.None? then m.hostID == Some(rec.id) || (m.aimHost != "" && m.aimHost in rec.names)
       else && !(m.hostID == Some(rec.id) && m.kind == "host")
            && m.aimHost != "" && (m.aimHost in rec.names || m.hostID == Some(rec.id))
            && m.aimPort != 0 && m.aimPort in ports.value
  }

  /** A container with a health check that passes, or with any port, is a critical loss. */
  function Loss(c: Container): Item { Item("container", c.name, if c.healthy || c.anyPorts then Crit else Warn) }

  ghost predicate ReportTells(r: Report, rec: Host, wide: bool, stopping: seq<Container>, mons: seq<Monitor>) {
    && (forall x :: x in r.stops <==> exists c :: c in stopping && Up(c) && x == Loss(c))
    && |r.stops| == |Where(stopping, Up)|
    && (forall p :: p in r.ports <==> p > 0 && exists c :: c in stopping && Up(c) && p in c.hostPorts)
    && (forall s :: s in r.stacks <==> s != "" && exists c :: c in stopping && Up(c) && c.stack == s)
    && (forall s :: s in r.stacks ==> r.stacks[s] == |Where(stopping, (c: Container) => Up(c) && c.stack == s)|)
    && (forall x :: x in r.monitors <==>
          exists m :: m in mons && Notices(m, rec, if wide then None else Some(r.ports)) && x == Item("monitor", m.name, Crit))
    && |r.monitors| == |Where(mons, (m: Monitor) => Notices(m, rec, if wide then None else Some(r.ports)))|
    && (r.severity == Crit <==> r.monitors != [] || exists x :: x in r.stops && x.severity == Crit)
    && (r.severity == Info <==> r.monitors == [] && r.stops == [])
    && r.comingBack == |Where(stopping, (c: Container) => Up(c) && c.restarts)|
  }

  lemma {:induction false} FilterTwice<T>(s: seq<T>, p: T -> bool, q: T -> bool, r: T -> bool)
    requires forall x :: r(x) <==> p(x) && q(x)
    ensures Filter(Filter(s, p), q) == Filter(s, r)
  {
    if s != [] {
      FilterTwice(s[1..], p, q, r);
      var rest := Filter(s[1..], p);
      assert p(s[0]) ==> ([s[0]] + rest)[1..] == rest && Filter([s[0]] + rest, q) == (if q(s[0]) then [s[0]] else []) + Filter(rest, q);
      assert [] + rest == rest;
    }
  }

  lemma {:induction false} FilterSame<T>(s: seq<T>, p: T -> bool, q: T -> bool)
    requires forall x :: p(x) <==> q(x)
    ensures Filter(s, p) == Filter(s, q)
  {
    if s != [] {
      FilterSame(s[1..], p, q);
    }
  }

  lemma StopsTell(stopping: seq<Container>, x: Item)
    ensures var stops := Map(Filter(stopping, Live), StopItem);
            && (x in stops <==> exists c :: c in stopping && Up(c) && x == Loss(c))
            && |stops| == |Where(stopping, Up)|
  {
    var down := Filter(stopping, Live);
    MapMember(down, StopItem, x);
    MapLength(down, StopItem);
    FilterCounts(stopping, Live);
    assert Where(stopping, Live) == Where(stopping, Up);
    forall c ensures c in down <==> c in stopping && Up(c) {
      FilterMember(stopping, Live, c);
    }
    assert forall c :: StopItem(c) == Loss(c);
  }

  lemma CountsTell(stopping: seq<Container>, s: string)
    ensures var down := Filter(stopping, Live);
            && (s in StackCounts(down) <==> s != "" && exists c :: c in stopping && Up(c) && c.stack == s)
            && (s in StackCounts(down) ==> StackCounts(down)[s] == |Where(stopping, (c: Container) => Up(c) && c.stack == s)|)
            && CountRestarts(down) == |Where(stopping, (c: Container) => Up(c) && c.restarts)|
  {
    var down := Filter(stopping, Live);
    var inStack, back := (c: Container) => Up(c) && c.stack == s, (c: Container) => Up(c) && c.restarts;
    StackCountsAre(down, s);
    FilterTwice(stopping, Live, OfStack(s), inStack);
    FilterTwice(stopping, Live, ComesBack, back);
    FilterCounts(stopping, inStack);
    FilterCounts(stopping, back);
    if CountStack(down, s) > 0 {
      var c := Filter(stopping, inStack)[0];
      FilterMember(stopping, inStack, c);
    }
    if exists c :: c in stopping && Up(c) && c.stack == s {
      var c :| c in stopping && Up(c) && c.stack == s;
      FilterMember(stopping, inStack, c);
    }
  }

  lemma MonitorsTell(mons: seq<Monitor>, rec: Host, ports: Option<set<int>>, x: Item)
    ensures var items := Map(Watching(mons, rec, ports), MonitorItem);
            && (x in items <==> exists m :: m in mons && Notices(m, rec, ports) && x == Item("monitor", m.name, Crit))
            && |items| == |Where(mons, (m: Monitor) => Notices(m, rec, ports))|
            && (x in items ==> x.severity == Crit)
  {
    var noticing := (m: Monitor) => Notices(m, rec, ports);
    FilterSame(mons, Aimed(rec, ports), noticing);
    FilterCounts(mons, noticing);
    MapLength(Filter(mons, noticing), MonitorItem);
    MapMember(Filter(mons, noticing), MonitorItem, x);
    forall m ensures m in Filter(mons, noticing) <==> m in mons && Notices(m, rec, ports) {
      FilterMember(mons, noticing, m);
    }
  }

  lemma SeverityTells(stops: seq<Item>, monitors: seq<Item>)
    requires (forall x :: x in monitors ==> x.severity == Crit) && forall x :: x in stops ==> x.severity != Info
    ensures var w := Worst(stops + monitors, Info);
            && (w == Crit <==> monitors != [] || exists x :: x in stops && x.severity == Crit)
            && (w == Info <==> monitors == [] && stops == [])
  {
    var items := stops + monitors;
    WorstIs(items, Info);
    assert monitors != [] ==> monitors[0] in items;
    assert stops != [] ==> stops[0] in items;
    assert forall x :: x in items <==> x in stops || x in monitors;
  }

  /** What every report says: each container that runs and would stop, their ports and stacks with their numbers, each
      monitor that would notice, the worst of these, and how many come back. */
  lemma BuiltTells(rec: Host, wide: bool, stopping: seq<Container>, mons: seq<Monitor>, depends: seq<Item>)
    ensures ReportTells(Built(rec, wide, stopping, mons, depends), rec, wide, stopping, mons)
    ensures Built(rec, wide, stopping, mons, depends).depends == depends
  {
    var r := Built(rec, wide, stopping, mons, depends);
    var ports := if wide then None else Some(r.ports);
    forall x ensures x in r.stops <==> exists c :: c in stopping && Up(c) && x == Loss(c) {
      StopsTell(stopping, x);
    }
    StopsTell(stopping, Loss(Container("", "", "", "", false, [], false, false)));
    forall x ensures x in r.monitors <==> exists m :: m in mons && Notices(m, rec, ports) && x == Item("monitor", m.name, Crit) {
      MonitorsTell(mons, rec, ports, x);
    }
    MonitorsTell(mons, rec, ports, Item("", "", Info));
    forall s ensures s in r.stacks <==> s != "" && exists c :: c in stopping && Up(c) && c.stack == s {
      CountsTell(stopping, s);
    }
    forall s | s in r.stacks ensures r.stacks[s] == |Where(stopping, (c: Container) => Up(c) && c.stack == s)| {
      CountsTell(stopping, s);
    }
    CountsTell(stopping, "");
    PortsTell(stopping);
    SeverityTells(r.stops, r.monitors);
  }

  lemma PortsTell(stopping: seq<Container>)
    ensures forall p :: p in PortsOf(Filter(stopping, Live)) <==> p > 0 && exists c :: c in stopping && Up(c) && p in c.hostPorts
  {
    forall c ensures c in Filter(stopping, Live) <==> c in stopping && Up(c) {
      FilterMember(stopping, Live, c);
    }
  }

  // ---------------------------------------------------------------- the three reports

  predicate Named(cid: string, c: Container) { c.id == cid || cid <= c.id || c.name == cid }

  function InStack(name: string): Container -> bool { (c: Container) => c.stack == name }
  function Of(cid: string): Container -> bool { (c: Container) => Named(cid, c) }

  /** These are the containers of that kind, as often as they occur. */
  ghost predicate JustThose(mine: seq<Container>, all: seq<Container>, keep: Container -> bool) {
    (forall c :: c in mine <==> c in all && keep(c)) && |mine| == |Where(all, keep)|
  }

  lemma FilteredAreThose(all: seq<Container>, p: Container -> bool, keep: Container -> bool)
    requires forall c :: p(c) <==> keep(c)
    ensures JustThose(Filter(all, p), all, keep)
  {
    FilterSame(all, p, keep);
    FilterCounts(all, keep);
    forall c ensures c in Filter(all, p) <==> c in all && keep(c) {
      FilterMember(all, p, c);
    }
  }

  /** A host's report is about all its containers and names no dependents; a stack's is about its own and names none
      either, because all of them stop. */
  lemma HostAndStackTell(rec: Host, all: seq<Container>, mons: seq<Monitor>, name: string) returns (mine: seq<Container>)
    ensures ReportTells(HostReport(rec, all, mons), rec, true, all, mons) && HostReport(rec, all, mons).depends == []
    ensures JustThose(mine, all, InStack(name)) && ReportTells(StackReport(rec, all, mons, name), rec, false, mine, mons)
    ensures StackReport(rec, all, mons, name).depends == []
  {
    hide ReportTells, JustThose, Built;
    BuiltTells(rec, true, all, mons, []);
    mine := Filter(all, OfStack(name));
    FilteredAreThose(all, OfStack(name), InStack(name));
    BuiltTells(rec, false, mine, mons, Map(DependentsOf(all, mine), DependItem));
    NoneDepends(all, mine, name);
  }

  lemma NoneDepends(all: seq<Container>, mine: seq<Container>, name: string)
    requires JustThose(mine, all, InStack(name))
    ensures Map(DependentsOf(all, mine), DependItem) == []
  {
    var left := DependentsOf(all, mine);
    if left != [] {
      FilterMember(all, DependsOn(mine), left[0]);
    }
  }

  /** A container's report is about those that the text means, by id, by the front of an id or by name; there is none if
      it means none. Its dependents are the running containers of their stacks that it does not mean. */
  lemma ContainerTells(rec: Host, all: seq<Container>, mons: seq<Monitor>, cid: string) returns (mine: seq<Container>)
    requires UniqueIds(all)
    ensures JustThose(mine, all, Of(cid))
    ensures ContainerReport(rec, all, mons, cid).Some? <==> mine != []
    ensures var r := ContainerReport(rec, all, mons, cid);
            r.Some? ==>
              && ReportTells(r.value, rec, false, mine, mons)
              && forall x :: x in r.value.depends <==> IsDependent(all, cid, x)
  {
    hide ReportTells, JustThose, Built, UniqueIds, IsDependent;
    mine := Filter(all, OfId(cid));
    FilteredAreThose(all, OfId(cid), Of(cid));
    if mine != [] {
      BuiltTells(rec, false, mine, mons, Map(DependentsOf(all, mine), DependItem));
      forall x ensures x in Map(DependentsOf(all, mine), DependItem) <==> IsDependent(all, cid, x) {
        DependsTell(all, mine, cid, x);
      }
    }
  }

  /** A running container that is not meant, in a stack of one that is. */
  ghost predicate IsDependent(all: seq<Container>, cid: string, x: Item) {
    exists c, d :: c in all && d in all && Up(c) && !Named(cid, c) && Named(cid, d) && c.stack != "" && c.stack == d.stack
      && x == Item("container", c.name, Info)
  }

  lemma DependsTell(all: seq<Container>, mine: seq<Container>, cid: string, x: Item)
    requires UniqueIds(all) && JustThose(mine, all, Of(cid))
    ensures x in Map(DependentsOf(all, mine), DependItem) <==> IsDependent(all, cid, x)
  {
    var left := DependentsOf(all, mine);
    MapMember(left, DependItem, x);
    forall c ensures c in left <==>
      c in all && Up(c) && !Named(cid, c) && c.stack != "" && exists d :: d in all && Named(cid, d) && d.stack == c.stack
    {
      FilterMember(all, DependsOn(mine), c);
    }
  }
}

/** What every part of a spec becomes on the shown `docker run` line (dockerops/dryrun.go). */
module DryRunRules {
  import opened Wrappers
  import opened Strings
  import opened Sorting
  import opened DryRun

  /** Byte-wise order: a shorter front, or a smaller first difference. */
  ghost predicate Before(a: string, b: string) {
    exists n :: 0 <= n <= |a| && n <= |b| && a[..n] == b[..n]
      && ((n == |a| && n < |b|) || (n < |a| && n < |b| && a[n] < b[n]))
  }

  lemma {:induction false} StrLeIs(a: string, b: string)
    requires StrLe(a, b) && a != b
    ensures Before(a, b)
  {
    if a == "" {
      assert a[..0] == b[..0];
    } else if a[0] < b[0] {
      assert a[..0] == b[..0] && 0 <= |a|;
    } else {
      StrLeIs(a[1..], b[1..]);
      var n :| 0 <= n <= |a[1..]| && n <= |b[1..]| && a[1..][..n] == b[1..][..n]
        && ((n == |a[1..]| && n < |b[1..]|) || (n < |a[1..]| && n < |b[1..]| && a[1..][n] < b[1..][n]));
      assert a[..n + 1] == [a[0]] + a[1..][..n] && b[..n + 1] == [b[0]] + b[1..][..n];
    }
  }

  /** Ports come by number, those of one number by protocol; labels by name; each once. */
  lemma OrdersAre(ports: seq<Port>, exposed: set<Port>, keys: seq<string>, labels: set<string>)
    requires SortedKeys(ports, exposed, PortLe) && SortedKeys(keys, labels, StrLe)
    ensures (forall p :: p in ports <==> p in exposed) && forall k :: k in keys <==> k in labels
    ensures forall i, j :: 0 <= i < j < |ports| ==>
      ports[i].num < ports[j].num || (ports[i].num == ports[j].num && Before(ports[i].proto, ports[j].proto))
    ensures forall i, j :: 0 <= i < j < |keys| ==> Before(keys[i], keys[j])
  {
    forall i, j | 0 <= i < j < |ports|
      ensures ports[i].num < ports[j].num || (ports[i].num == ports[j].num && Before(ports[i].proto, ports[j].proto))
    {
      if ports[i].num == ports[j].num {
        StrLeIs(ports[i].proto, ports[j].proto);
      }
    }
    forall i, j | 0 <= i < j < |keys| ensures Before(keys[i], keys[j]) {
      StrLeIs(keys[i], keys[j]);
    }
  }

  // ---------------------------------------------------------------- ports

  predicate Published(host: Option<HostConfig>, p: Port) {
    host.Some? && p in host.value.bindings && |host.value.bindings[p]| > 0
  }

  function Inside(p: Port): string { Itoa(p.num) + if p.proto == "tcp" then "" else "/" + p.proto }

  /** One text for each binding of each published port, in order. */
  function PublishTexts(host: Option<HostConfig>, ports: seq<Port>): seq<string> {
    if ports == [] then [] else PublishOne(host, ports[0]) + PublishTexts(host, ports[1..])
  }

  function PublishOne(host: Option<HostConfig>, p: Port): seq<string> {
    if Published(host, p) then BindingTexts(host.value.bindings[p], p) else []
  }

  function ExposeOne(host: Option<HostConfig>, p: Port): seq<string> { if Published(host, p) then [] else [Inside(p)] }

  function BindingTexts(bs: seq<Binding>, p: Port): seq<string> {
    seq(|bs|, i requires 0 <= i < |bs| =>
      (if bs[i].hostIP == "" then "" else bs[i].hostIP + ":") + bs[i].hostPort + ":" + Inside(p))
  }

  function ExposeTexts(host: Option<HostConfig>, ports: seq<Port>): seq<string> {
    if ports == [] then [] else ExposeOne(host, ports[0]) + ExposeTexts(host, ports[1..])
  }

  lemma {:induction false} PublishIs(bs: seq<Binding>, p: Port, flag: string)
    ensures |Publish(bs, PortText(p))| % 2 == 0
    ensures ValuesOf(Publish(bs, PortText(p)), flag) == if flag == "-p" then BindingTexts(bs, p) else []
  {
    if bs != [] {
      PublishIs(bs[1..], p, flag);
      var rest, b := Publish(bs[1..], PortText(p)), bs[0];
      assert Publish(bs, PortText(p))[2..] == rest;
      InsideIs(p);
      assert BindingTexts(bs, p) == [BindingTexts(bs, p)[0]] + BindingTexts(bs[1..], p);
      Glue(b.hostIP, b.hostPort, Inside(p));
    }
  }

  lemma InsideIs(p: Port)
    ensures PortText(p) == Inside(p)
  {
    assert Itoa(p.num) + "" == Itoa(p.num);
  }

  lemma Glue(ip: string, port: string, inside: string)
    ensures (if ip != "" then ip + ":" + port else port) + ":" + inside == (if ip == "" then "" else ip + ":") + port + ":" + inside
  {
    assert "" + port == port;
  }

  lemma OnePortIs(host: Option<HostConfig>, p: Port, flag: string)
    ensures |PortArgs(host, p)| % 2 == 0
    ensures ValuesOf(PortArgs(host, p), flag)
         == if flag == "-p" then PublishOne(host, p) else if flag == "--expose" then ExposeOne(host, p) else []
  {
    InsideIs(p);
    if Published(host, p) {
      PublishIs(host.value.bindings[p], p, flag);
    } else {
      assert ["--expose", PortText(p)][2..] == [];
    }
  }

  lemma {:induction false} PortsPair(host: Option<HostConfig>, ports: seq<Port>)
    ensures |AllPortArgs(host, ports)| % 2 == 0
  {
    hide PortArgs;
    if ports != [] {
      PortsPair(host, ports[1..]);
      OnePortIs(host, ports[0], "");
    }
  }

  lemma {:induction false} PortsAre(host: Option<HostConfig>, ports: seq<Port>, flag: string)
    ensures ValuesOf(AllPortArgs(host, ports), flag)
         == if flag == "-p" then PublishTexts(host, ports) else if flag == "--expose" then ExposeTexts(host, ports) else []
  {
    if ports != [] {
      hide PortArgs, PublishOne, ExposeOne, ValuesOf, Published, Inside, BindingTexts, PortText;
      PortsAre(host, ports[1..], flag);
      OnePortIs(host, ports[0], flag);
      ValuesAppend(PortArgs(host, ports[0]), AllPortArgs(host, ports[1..]), flag);
    } else {
      NoValues(flag);
    }
  }

  lemma NoValues(flag: string)
    ensures ValuesOf([], flag) == []
  {
  }

  // ---------------------------------------------------------------- the line

  function Restart(spec: RunSpec): seq<string> {
    if spec.host.Some? && spec.host.value.restart !in {"", "no"} then [spec.host.value.restart] else []
  }

  function Network(spec: RunSpec): seq<string> {
    if spec.host.Some? && spec.host.value.network != "" then [spec.host.value.network] else []
  }

  function NameOf(spec: RunSpec): seq<string> { if spec.name == "" then [] else [spec.name] }

  lemma HeadIs(spec: RunSpec, flag: string)
    ensures |HeadArgs(spec)| >= 3 && |HeadArgs(spec)[3..]| % 2 == 0 && HeadArgs(spec)[..3] == ["docker", "run", "-d"]
    ensures ValuesOf(HeadArgs(spec)[3..], flag)
         == if flag == "--name" then NameOf(spec) else if flag == "--restart" then Restart(spec)
            else if flag == "--network" then Network(spec) else []
  {
    hide NameOf, Restart, Network, HeadArgs, Flagged;
    assert |NameOf(spec)| <= 1 && |Restart(spec)| <= 1 && |Network(spec)| <= 1 by { AtMostOne(spec); }
    var n := Flagged("--name", NameOf(spec));
    var r := Flagged("--restart", Restart(spec));
    var w := Flagged("--network", Network(spec));
    FlaggedOne("--name", NameOf(spec), flag);
    FlaggedOne("--restart", Restart(spec), flag);
    FlaggedOne("--network", Network(spec), flag);
    HeadParts(spec);
    ValuesAppend(n, r + w, flag);
    ValuesAppend(r, w, flag);
  }

  lemma AtMostOne(spec: RunSpec)
    ensures |NameOf(spec)| <= 1 && |Restart(spec)| <= 1 && |Network(spec)| <= 1
  {
  }

  lemma HeadParts(spec: RunSpec)
    ensures HeadArgs(spec) == ["docker", "run", "-d"] + (Flagged("--name", NameOf(spec)) + (Flagged("--restart", Restart(spec))
                              + Flagged("--network", Network(spec))))
  {
    SingleFlag("--name", NameOf(spec));
    SingleFlag("--restart", Restart(spec));
    SingleFlag("--network", Network(spec));
    hide Flagged;
  }

  lemma SingleFlag(flag: string, vs: seq<string>)
    requires |vs| <= 1
    ensures Flagged(flag, vs) == if vs == [] then [] else [flag, vs[0]]
  {
    if vs != [] {
      assert vs[1..] == [] && [flag, vs[0]] + [] == [flag, vs[0]];
    }
  }

  lemma FlaggedOne(flag: string, vs: seq<string>, other: string)
    requires |vs| <= 1
    ensures |Flagged(flag, vs)| % 2 == 0
    ensures ValuesOf(Flagged(flag, vs), other) == if other == flag then vs else []
  {
    FlaggedValues(flag, vs, other);
  }

  /** The line runs the spec's image, detached, with its name, restart policy, network, ports, volumes, environment and
      labels, and with no other value behind any flag. */
  lemma LineRunsTheSpec(spec: RunSpec, ports: seq<Port>, keys: seq<string>, flag: string)
    requires forall k :: k in keys ==> k in spec.labels
    ensures var args := RunArgs(spec, ports, keys);
            && |args| >= 4 && args[..3] == ["docker", "run", "-d"] && args[|args| - 1] == spec.image
            && ValuesOf(Middle(spec, ports, keys), flag)
               == if flag == "--name" then NameOf(spec) else if flag == "--restart" then Restart(spec)
                  else if flag == "--network" then Network(spec)
                  else if flag == "-p" then PublishTexts(spec.host, ports) else if flag == "--expose" then ExposeTexts(spec.host, ports)
                  else if flag == "-v" then (if spec.host.Some? then spec.host.value.binds else [])
                  else if flag == "-e" then spec.env
                  else if flag == "--label" then
                    seq(|keys|, i requires 0 <= i < |keys| => keys[i] + "=" + spec.labels[keys[i]])
                  else []
  {
    MiddleParts(spec, ports, keys);
    HeadIs(spec, flag);
    PortsAre(spec.host, ports, flag);
    PortsPair(spec.host, ports);
    FlaggedValues("-v", Volumes(spec), flag);
    FlaggedValues("-e", spec.env, flag);
    FlaggedValues("--label", LabelTexts(spec.labels, keys), flag);
    FiveParts(HeadArgs(spec)[3..], AllPortArgs(spec.host, ports), Flagged("-v", Volumes(spec)),
              Flagged("-e", spec.env), Flagged("--label", LabelTexts(spec.labels, keys)), flag);
    RunEnds(spec, ports, keys);
    hide HeadArgs, AllPortArgs, Flagged, RunArgs, NameOf, Restart, Network, PublishTexts, ExposeTexts;
  }

  lemma RunEnds(spec: RunSpec, ports: seq<Port>, keys: seq<string>)
    requires (forall k :: k in keys ==> k in spec.labels) && |HeadArgs(spec)| >= 3
    ensures var args := RunArgs(spec, ports, keys);
            |args| >= 4 && args[..3] == HeadArgs(spec)[..3] && args[|args| - 1] == spec.image
  {
    hide HeadArgs, AllPortArgs, Flagged, LabelTexts;
  }
}

/** The `docker run` line shown for a container that is about to be created (dockerops/dryrun.go). */
module DryRun {
  import opened Wrappers
  import opened Strings
  import opened Shell
  import opened Sorting

  datatype Port = Port(num: nat, proto: string)
  datatype Binding = Binding(hostIP: string, hostPort: string)
  datatype HostConfig = HostConfig(restart: string, network: string, bindings: map<Port, seq<Binding>>, binds: seq<string>)
  datatype RunSpec = RunSpec(name: string, exposed: set<Port>, env: seq<string>, labels: map<string, string>,
                             image: string, host: Option<HostConfig>)

  // ---------------------------------------------------------------- orders

  /** Byte-wise order of strings. */
  predicate StrLe(a: string, b: string) {
    a == "" || (b != "" && (a[0] < b[0] || (a[0] == b[0] && StrLe(a[1..], b[1..]))))
  }

  predicate PortLe(a: Port, b: Port) {
    a.num < b.num || (a.num == b.num && StrLe(a.proto, b.proto))
  }

  lemma {:induction false} StrLeTotal(a: string, b: string)
    ensures StrLe(a, b) || StrLe(b, a)
    ensures StrLe(a, b) && StrLe(b, a) ==> a == b
  {
    if a != "" && b != "" && a[0] == b[0] {
      StrLeTotal(a[1..], b[1..]);
      assert a == [a[0]] + a[1..] && b == [b[0]] + b[1..];
    }
  }

  lemma {:induction false} StrLeTransitive(a: string, b: string, c: string)
    requires StrLe(a, b) && StrLe(b, c)
    ensures StrLe(a, c)
  {
    if a != "" && b != "" && a[0] == b[0] && b[0] == c[0] {
      StrLeTransitive(a[1..], b[1..], c[1..]);
    }
  }

  lemma OrdersAreTotal()
    ensures TotalOrder(StrLe) && TotalOrder(PortLe)
  {
    forall a, b ensures StrLe(a, b) || StrLe(b, a) { StrLeTotal(a, b); }
    forall a, b | StrLe(a, b) && StrLe(b, a) ensures a == b { StrLeTotal(a, b); }
    forall a, b, c | StrLe(a, b) && StrLe(b, c) ensures StrLe(a, c) { StrLeTransitive(a, b, c); }
    forall a, b ensures PortLe(a, b) || PortLe(b, a) { StrLeTotal(a.proto, b.proto); }
    forall a, b | PortLe(a, b) && PortLe(b, a) ensures a == b { StrLeTotal(a.proto, b.proto); }
    forall a, b, c | PortLe(a, b) && PortLe(b, c) ensures PortLe(a, c) {
      if a.num == b.num == c.num {
        StrLeTransitive(a.proto, b.proto, c.proto);
      }
    }
  }

  // ---------------------------------------------------------------- the argument list

  function PortText(p: Port): string {
    if p.proto == "tcp" then Itoa(p.num) else Itoa(p.num) + "/" + p.proto
  }

  function Publish(bs: seq<Binding>, ctr: string): seq<string> {
    if bs == [] then []
    else
      var b := bs[0];
      ["-p", (if b.hostIP != "" then b.hostIP + ":" + b.hostPort else b.hostPort) + ":" + ctr] + Publish(bs[1..], ctr)
  }

  function PortArgs(host: Option<HostConfig>, p: Port): seq<string> {
    if host.Some? && p in host.value.bindings && host.value.bindings[p] != []
    then Publish(host.value.bindings[p], PortText(p))
    else ["--expose", PortText(p)]
  }

  function AllPortArgs(host: Option<HostConfig>, ports: seq<Port>): seq<string> {
    if ports == [] then [] else PortArgs(host, ports[0]) + AllPortArgs(host, ports[1..])
  }

  function Flagged(flag: string, values: seq<string>): seq<string> {
    if values == [] then [] else [flag, values[0]] + Flagged(flag, values[1..])
  }

  function LabelTexts(labels: map<string, string>, keys: seq<string>): seq<string>
    requires forall k :: k in keys ==> k in labels
  {
    seq(|keys|, i requires 0 <= i < |keys| => keys[i] + "=" + labels[keys[i]])
  }

  function HeadArgs(spec: RunSpec): seq<string> {
    ["docker", "run", "-d"]
    + (if spec.name != "" then ["--name", spec.name] else [])
    + (if spec.host.Some? && spec.host.value.restart != "" && spec.host.value.restart != "no"
       then ["--restart", spec.host.value.restart] else [])
    + (if spec.host.Some? && spec.host.value.network != "" then ["--network", spec.host.value.network] else [])
  }

  /** The arguments of `docker run` for a spec whose ports and label keys come in the given order. */
  function RunArgs(spec: RunSpec, ports: seq<Port>, keys: seq<string>): seq<string>
    requires forall k :: k in keys ==> k in spec.labels
  {
    HeadArgs(spec) + AllPortArgs(spec.host, ports)
    + (if spec.host.Some? then Flagged("-v", spec.host.value.binds) else [])
    + Flagged("-e", spec.env) + Flagged("--label", LabelTexts(spec.labels, keys)) + [spec.image]
  }

  lemma {:induction false} PortArgsSnoc(host: Option<HostConfig>, ports: seq<Port>, p: Port)
    ensures AllPortArgs(host, ports + [p]) == AllPortArgs(host, ports) + PortArgs(host, p)
  {
    if ports == [] {
      assert [p][1..] == [];
      assert AllPortArgs(host, [p]) == PortArgs(host, p) + [];
    } else {
      assert (ports + [p])[1..] == ports[1..] + [p];
      PortArgsSnoc(host, ports[1..], p);
    }
  }

  lemma {:induction false} FlaggedSnoc(flag: string, values: seq<string>, v: string)
    ensures Flagged(flag, values + [v]) == Flagged(flag, values) + [flag, v]
  {
    if values == [] {
      assert [v][1..] == [];
    } else {
      assert (values + [v])[1..] == values[1..] + [v];
      FlaggedSnoc(flag, values[1..], v);
    }
  }

  lemma {:induction false} PublishSnoc(bs: seq<Binding>, b: Binding, ctr: string)
    ensures Publish(bs + [b], ctr) == Publish(bs, ctr) + Publish([b], ctr)
  {
    if bs == [] {
      assert [] + [b] == [b];
    } else {
      assert (bs + [b])[1..] == bs[1..] + [b];
      PublishSnoc(bs[1..], b, ctr);
    }
  }

  method AddPort(args: seq<string>, host: Option<HostConfig>, p: Port) returns (out: seq<string>)
    ensures out == args + PortArgs(host, p)
  {
    out := args;
    var ctr := Itoa(p.num);
    if p.proto != "tcp" {
      ctr := ctr + "/" + p.proto;
    }
    var binds: seq<Binding> := [];
    if host.Some? && p in host.value.bindings {
      binds := host.value.bindings[p];
    }
    if |binds| == 0 {
      return out + ["--expose", ctr];
    }
    for i := 0 to |binds|
      invariant out == args + Publish(binds[..i], ctr)
    {
      var b := binds[i];
      var at := b.hostPort;
      if b.hostIP != "" {
        at := b.hostIP + ":" + at;
      }
      PublishSnoc(binds[..i], b, ctr);
      assert binds[..i + 1] == binds[..i] + [b];
      out := out + ["-p", at + ":" + ctr];
      assert Publish([b], ctr) == ["-p", at + ":" + ctr] + Publish([b][1..], ctr);
    }
    assert binds[..|binds|] == binds;
  }

  method AddFlagged(args: seq<string>, flag: string, values: seq<string>) returns (out: seq<string>)
    ensures out == args + Flagged(flag, values)
  {
    out := args;
    for i := 0 to |values|
      invariant out == args + Flagged(flag, values[..i])
    {
      assert values[..i + 1] == values[..i] + [values[i]];
      FlaggedSnoc(flag, values[..i], values[i]);
      out := out + [flag, values[i]];
    }
    assert values[..|values|] == values;
  }

  method FirstArgs(spec: RunSpec) returns (args: seq<string>)
    ensures args == HeadArgs(spec)
  {
    args := ["docker", "run", "-d"];
    if spec.name != "" {
      args := args + ["--name", spec.name];
    }
    if spec.host.Some? && spec.host.value.restart != "" && spec.host.value.restart != "no" {
      args := args + ["--restart", spec.host.value.restart];
    }
    if spec.host.Some? && spec.host.value.network != "" {
      args := args + ["--network", spec.host.value.network];
    }
  }

  method AddPorts(args: seq<string>, host: Option<HostConfig>, ports: seq<Port>) returns (out: seq<string>)
    ensures out == args + AllPortArgs(host, ports)
  {
    hide PortArgs;
    out := args;
    for i := 0 to |ports|
      invariant out == args + AllPortArgs(host, ports[..i])
    {
      assert ports[..i + 1] == ports[..i] + [ports[i]];
      PortArgsSnoc(host, ports[..i], ports[i]);
      ghost var before, added := AllPortArgs(host, ports[..i]), PortArgs(host, ports[i]);
      out := AddPort(out, host, ports[i]);
      assert args + before + added == args + (before + added);
    }
    assert ports[..|ports|] == ports;
  }

  method QuoteAll(plain: seq<string>) returns (args: seq<string>)
    ensures args == Shell.Map(ShellArg, plain)
  {
    args := plain;
    for i := 0 to |args|
      invariant |args| == |plain|
      invariant forall j :: 0 <= j < i ==> args[j] == ShellArg(plain[j])
      invariant forall j :: i <= j < |args| ==> args[j] == plain[j]
    {
      args := args[i := ShellArg(args[i])];
    }
  }

  method AppendArgs(spec: RunSpec, ports: seq<Port>, keys: seq<string>) returns (args: seq<string>)
    requires forall k :: k in keys ==> k in spec.labels
    ensures args == RunArgs(spec, ports, keys)
  {
    args := FirstArgs(spec);
    args := AddPorts(args, spec.host, ports);
    if spec.host.Some? {
      args := AddFlagged(args, "-v", spec.host.value.binds);
    }
    args := AddFlagged(args, "-e", spec.env);
    args := AddFlagged(args, "--label", LabelTexts(spec.labels, keys));
    args := args + [spec.image];
  }

  /** DockerRunCommand: read by a shell, the line is the argument list of the spec, word for word. The
      ports and labels are in the one sorted order there is, whatever order the maps are walked in. */
  method DockerRunCommand(spec: RunSpec) returns (cmd: string)
    ensures exists ports, keys ::
      && SortedKeys(ports, spec.exposed, PortLe) && SortedKeys(keys, spec.labels.Keys, StrLe)
      && Tokenize(cmd) == Some(Words(RunArgs(spec, ports, keys)))
  {
    OrdersAreTotal();
    var ps := SortKeys(spec.exposed, PortLe);
    var ls := SortKeys(spec.labels.Keys, StrLe);
    var args := AppendArgs(spec, ps, ls);
    ArgumentListReadsBack(args);
    var quoted := QuoteAll(args);
    cmd := Join(quoted, " ");
  }

  /** Two runs on one spec, however the maps were walked, show the same argument list. */
  lemma OrderDoesNotMatter(spec: RunSpec, p1: seq<Port>, p2: seq<Port>, k1: seq<string>, k2: seq<string>)
    requires SortedKeys(p1, spec.exposed, PortLe) && SortedKeys(p2, spec.exposed, PortLe)
    requires SortedKeys(k1, spec.labels.Keys, StrLe) && SortedKeys(k2, spec.labels.Keys, StrLe)
    ensures RunArgs(spec, p1, k1) == RunArgs(spec, p2, k2)
  {
    OrdersAreTotal();
    SortedOnlyOneWay(p1, p2, spec.exposed, PortLe);
    SortedOnlyOneWay(k1, k2, spec.labels.Keys, StrLe);
  }

  // ---------------------------------------------------------------- what docker reads

  /** The values docker finds behind one flag, where every flag takes one value. */
  function ValuesOf(args: seq<string>, flag: string): seq<string>
    decreases |args|
  {
    if |args| < 2 then []
    else if args[0] == flag then [args[1]] + ValuesOf(args[2..], flag)
    else ValuesOf(args[2..], flag)
  }

  lemma {:induction false} ValuesAppend(a: seq<string>, b: seq<string>, flag: string)
    requires |a| % 2 == 0
    ensures ValuesOf(a + b, flag) == ValuesOf(a, flag) + ValuesOf(b, flag)
    decreases |a|
  {
    if a == [] {
      assert a + b == b;
    } else {
      assert (a + b)[2..] == a[2..] + b;
      ValuesAppend(a[2..], b, flag);
    }
  }

  lemma {:induction false} FlaggedValues(flag: string, values: seq<string>, other: string)
    ensures |Flagged(flag, values)| % 2 == 0
    ensures ValuesOf(Flagged(flag, values), flag) == values
    ensures other != flag ==> ValuesOf(Flagged(flag, values), other) == []
  {
    if values != [] {
      FlaggedValues(flag, values[1..], other);
      assert Flagged(flag, values)[2..] == Flagged(flag, values[1..]);
    }
  }

  function Middle(spec: RunSpec, ports: seq<Port>, keys: seq<string>): seq<string>
    requires forall k :: k in keys ==> k in spec.labels
  {
    var args := RunArgs(spec, ports, keys);
    args[3..|args| - 1]
  }

  lemma FiveParts(h: seq<string>, p: seq<string>, v: seq<string>, e: seq<string>, l: seq<string>, flag: string)
    requires |h| % 2 == |p| % 2 == |v| % 2 == |e| % 2 == 0
    ensures ValuesOf(h + (p + (v + (e + l))), flag)
         == ValuesOf(h, flag) + (ValuesOf(p, flag) + (ValuesOf(v, flag) + (ValuesOf(e, flag) + ValuesOf(l, flag))))
  {
    ValuesAppend(h, p + (v + (e + l)), flag);
    ValuesAppend(p, v + (e + l), flag);
    ValuesAppend(v, e + l, flag);
    ValuesAppend(e, l, flag);
  }

  function Volumes(spec: RunSpec): seq<string> {
    if spec.host.Some? then spec.host.value.binds else []
  }

  lemma MiddleParts(spec: RunSpec, ports: seq<Port>, keys: seq<string>)
    requires forall k :: k in keys ==> k in spec.labels
    ensures |HeadArgs(spec)| >= 3
    ensures Middle(spec, ports, keys)
         == HeadArgs(spec)[3..] + (AllPortArgs(spec.host, ports) + (Flagged("-v", Volumes(spec))
            + (Flagged("-e", spec.env) + Flagged("--label", LabelTexts(spec.labels, keys)))))
  {
    hide AllPortArgs, LabelTexts;
    assert Flagged("-v", []) == [];
  }
}

/** Replacing a container by a copy of itself (dockerops/containers.go): the ordered calls on the Docker daemon,
    the roll back, and what of the configuration is handed on. A refused call is taken to have no effect, and
    nobody else is taken to work on the daemon meanwhile. */
module Recreate {
  import opened Wrappers
  import opened Strings

  type Id = string

  // ---------------------------------------------------------------- configurations

  /** A health check; zero or empty means "as in the image". */
  datatype Health = Health(test: seq<string>, interval: int, timeout: int, startPeriod: int, retries: int)

  /** An entry point that is None was not given, unlike an empty one. */
  datatype Config = Config(image: string, hostname: string, user: string, workingDir: string, env: seq<string>,
                           cmd: seq<string>, entrypoint: Option<seq<string>>, labels: map<string, string>,
                           ports: set<string>, volumes: set<string>, health: Option<Health>)

  datatype Restart = Restart(policy: string, maxRetries: int)
  datatype HostConfig = HostConfig(networkMode: string, restart: Restart, bound: set<string>)
  datatype Endpoint = Endpoint(ipam: string, links: seq<string>, aliases: seq<string>, driverOpts: string)

  /** What inspecting the container gave. */
  datatype Inspect = Inspect(id: Id, name: string, running: bool, cfg: Config, host: HostConfig,
                             networks: Option<map<string, Endpoint>>)

  /** Which parts to change; env None and empty texts keep what is there. */
  datatype Opts = Opts(image: string, env: Option<seq<string>>, restartPolicy: string, pull: bool)

  // ---------------------------------------------------------------- the list helpers

  /** The elements of `have` that are not in `remove`, in order. */
  function Without(have: seq<string>, remove: seq<string>): seq<string> {
    if have == [] then []
    else (if have[0] in remove then [] else [have[0]]) + Without(have[1..], remove)
  }

  method Subtract(have: seq<string>, remove: seq<string>) returns (out: seq<string>)
    ensures out == Without(have, remove)
    ensures forall x :: x in out <==> x in have && x !in remove
  {
    var rm: set<string> := {};
    for i := 0 to |remove|
      invariant rm == set x | x in remove[..i]
    {
      rm := rm + {remove[i]};
    }
    out := [];
    for i := 0 to |have|
      invariant out + Without(have[i..], remove) == Without(have, remove)
    {
      assert have[i..][1..] == have[i + 1..];
      if have[i] !in rm {
        assert out + ([have[i]] + Without(have[i + 1..], remove)) == (out + [have[i]]) + Without(have[i + 1..], remove);
        out := out + [have[i]];
      } else {
        assert [] + Without(have[i + 1..], remove) == Without(have[i + 1..], remove);
      }
    }
    assert have[|have|..] == [];
    forall x ensures x in Without(have, remove) <==> x in have && x !in remove {
      WithoutHas(have, remove, x);
    }
  }

  lemma {:induction false} WithoutHas(have: seq<string>, remove: seq<string>, x: string)
    ensures x in Without(have, remove) <==> x in have && x !in remove
  {
    if have != [] {
      assert have == [have[0]] + have[1..];
      WithoutHas(have[1..], remove, x);
    }
  }

  method EqualStrings(a: seq<string>, b: seq<string>) returns (same: bool)
    ensures same <==> a == b
  {
    if |a| != |b| {
      return false;
    }
    for i := 0 to |a|
      invariant a[..i] == b[..i]
    {
      if a[i] != b[i] {
        return false;
      }
    }
    return true;
  }

  /** The first twelve characters of an id. */
  function Short(id: Id): Option<string> { if |id| >= 12 then Some(id[..12]) else None }

  function FilteredAliases(a: seq<string>, id: Id): seq<string> {
    if Short(id).Some? then Without(a, [Short(id).value]) else a
  }

  method FilterAliases(a: seq<string>, id: Id) returns (out: seq<string>)
    ensures out == FilteredAliases(a, id)
  {
    out := [];
    for i := 0 to |a|
      invariant out == FilteredAliases(a[..i], id)
    {
      assert a[..i + 1] == a[..i] + [a[i]];
      FilteredSnoc(a[..i], a[i], id);
      if |id| >= 12 && a[i] == id[..12] {
        continue;
      }
      out := out + [a[i]];
    }
    assert a[..|a|] == a;
  }

  lemma FilteredSnoc(a: seq<string>, x: string, id: Id)
    ensures FilteredAliases(a + [x], id)
         == if Short(id) == Some(x) then FilteredAliases(a, id) else FilteredAliases(a, id) + [x]
  {
    if Short(id).Some? {
      WithoutSnoc(a, x, [Short(id).value]);
    }
  }

  lemma {:induction false} WithoutSnoc(a: seq<string>, x: string, remove: seq<string>)
    ensures Without(a + [x], remove) == if x in remove then Without(a, remove) else Without(a, remove) + [x]
  {
    if a == [] {
      assert a + [x] == [x] && [x][1..] == [];
    } else {
      assert (a + [x])[1..] == a[1..] + [x];
      WithoutSnoc(a[1..], x, remove);
    }
  }

  // ---------------------------------------------------------------- what comes from the image

  function Words(s: Option<seq<string>>): seq<string> { if s.Some? then s.value else [] }

  /** The configuration without what it shares with the image it was made from. */
  function Stripped(cfg: Config, img: Config, bound: set<string>): Config {
    cfg.(env := Without(cfg.env, img.env),
         cmd := if cfg.cmd == img.cmd then [] else cfg.cmd,
         entrypoint := if Words(cfg.entrypoint) == Words(img.entrypoint) then None else cfg.entrypoint,
         workingDir := if cfg.workingDir == img.workingDir then "" else cfg.workingDir,
         user := if cfg.user == img.user then "" else cfg.user,
         labels := (map k | k in cfg.labels && !(k in img.labels && img.labels[k] == cfg.labels[k]) :: cfg.labels[k]),
         ports := (set p | p in cfg.ports && (p !in img.ports || p in bound)),
         volumes := cfg.volumes - img.volumes,
         health := if cfg.health.Some? && img.health.Some? && cfg.health.value.test == img.health.value.test
                   then None else cfg.health)
  }

  method Strip(cfg: Config, img: Config, bound: set<string>) returns (out: Config)
    ensures out == Stripped(cfg, img, bound)
  {
    var env := Subtract(cfg.env, img.env);
    out := cfg.(env := env);
    var sameCmd := EqualStrings(out.cmd, img.cmd);
    if sameCmd {
      out := out.(cmd := []);
    }
    var sameEntry := EqualStrings(Words(out.entrypoint), Words(img.entrypoint));
    if sameEntry {
      out := out.(entrypoint := None);
    }
    if out.workingDir == img.workingDir {
      out := out.(workingDir := "");
    }
    if out.user == img.user {
      out := out.(user := "");
    }
    var labels := StripLabels(cfg.labels, img.labels);
    var ports := StripPorts(cfg.ports, img.ports, bound);
    out := out.(labels := labels, ports := ports, volumes := cfg.volumes - img.volumes);
    if out.health.Some? && img.health.Some? {
      var sameTest := EqualStrings(out.health.value.test, img.health.value.test);
      if sameTest {
        out := out.(health := None);
      }
    }
  }

  method StripLabels(labels: map<string, string>, img: map<string, string>) returns (out: map<string, string>)
    ensures out == map k | k in labels && !(k in img && img[k] == labels[k]) :: labels[k]
  {
    out := labels;
    var todo := img.Keys;
    while todo != {}
      invariant todo <= img.Keys
      invariant out == map k | k in labels && !(k in img.Keys - todo && img[k] == labels[k]) :: labels[k]
      decreases |todo|
    {
      var k :| k in todo;
      todo := todo - {k};
      if k in out && out[k] == img[k] {
        out := out - {k};
      }
    }
  }

  method StripPorts(ports: set<string>, img: set<string>, bound: set<string>) returns (out: set<string>)
    ensures out == set p | p in ports && (p !in img || p in bound)
  {
    out := ports;
    var todo := img;
    while todo != {}
      invariant todo <= img
      invariant out == set p | p in ports && (p !in img - todo || p in bound)
      decreases |todo|
    {
      var p :| p in todo;
      todo := todo - {p};
      if p !in bound {
        out := out - {p};
      }
    }
  }

  function KeyOf(e: string): string { Split(e, '=')[0] }

  predicate HasKey(env: seq<string>, e: string) { exists i :: 0 <= i < |env| && KeyOf(env[i]) == KeyOf(e) }

  /** The entries of an image are appended when their variable is not there yet. */
  function MergedEnv(env: seq<string>, img: seq<string>): seq<string>
    decreases |img|
  {
    if img == [] then env
    else MergedEnv(if HasKey(env, img[0]) then env else env + [img[0]], img[1..])
  }

  function MergedHealth(h: Health, img: Health): Health {
    Health(if h.test == [] then img.test else h.test,
           if h.interval == 0 then img.interval else h.interval,
           if h.timeout == 0 then img.timeout else h.timeout,
           if h.startPeriod == 0 then img.startPeriod else h.startPeriod,
           if h.retries == 0 then img.retries else h.retries)
  }

  /** How Docker completes a configuration with the defaults of its image when it creates a container. */
  function Applied(cfg: Config, img: Config): Config {
    cfg.(user := if cfg.user == "" then img.user else cfg.user,
         workingDir := if cfg.workingDir == "" then img.workingDir else cfg.workingDir,
         env := MergedEnv(cfg.env, img.env),
         cmd := if Words(cfg.entrypoint) == [] && cfg.cmd == [] then img.cmd else cfg.cmd,
         entrypoint := if cfg.entrypoint.None? then img.entrypoint else cfg.entrypoint,
         labels := img.labels + cfg.labels,
         ports := cfg.ports + img.ports,
         volumes := cfg.volumes + img.volumes,
         health := if img.health.None? then cfg.health
                   else if cfg.health.None? then img.health
                   else Some(MergedHealth(cfg.health.value, img.health.value)))
  }

  predicate DistinctKeys(env: seq<string>) {
    forall i, j :: 0 <= i < j < |env| ==> KeyOf(env[i]) != KeyOf(env[j])
  }

  /** The same configuration: the order of variables and a missing against an empty entry point do not count. */
  predicate SameEffect(a: Config, b: Config) {
    && (set e | e in a.env) == (set e | e in b.env) && DistinctKeys(a.env) && DistinctKeys(b.env)
    && Words(a.entrypoint) == Words(b.entrypoint)
    && a == b.(env := a.env, entrypoint := a.entrypoint)
  }

  /** An entry in the merged list is an old one, or one of the image whose variable was not there. */
  lemma {:induction false} MergedHas(env: seq<string>, img: seq<string>, e: string)
    requires DistinctKeys(img)
    ensures e in MergedEnv(env, img) <==> e in env || (e in img && !HasKey(env, e))
    decreases |img|
  {
    hide KeyOf;
    if img != [] {
      var next := if HasKey(env, img[0]) then env else env + [img[0]];
      assert DistinctKeys(img[1..]);
      MergedHas(next, img[1..], e);
      assert img == [img[0]] + img[1..];
      if e in img[1..] {
        KeyTaken(env, img, e);
      }
      if HasKey(env, e) {
        KeyStays(env, next, e);
      }
    }
  }

  lemma KeyTaken(env: seq<string>, img: seq<string>, e: string)
    requires DistinctKeys(img) && img != [] && e in img[1..]
    ensures KeyOf(e) != KeyOf(img[0])
    ensures HasKey(env + [img[0]], e) ==> HasKey(env, e)
  {
    var j :| 0 <= j < |img[1..]| && img[1..][j] == e;
    assert img[j + 1] == e;
    if HasKey(env + [img[0]], e) {
      var i :| 0 <= i < |env + [img[0]]| && KeyOf((env + [img[0]])[i]) == KeyOf(e);
      assert i < |env| && (env + [img[0]])[i] == env[i];
    }
  }

  lemma KeyStays(env: seq<string>, next: seq<string>, e: string)
    requires env <= next && HasKey(env, e)
    ensures HasKey(next, e)
  {
    var i :| 0 <= i < |env| && KeyOf(env[i]) == KeyOf(e);
    assert next[i] == env[i];
  }

  lemma {:induction false} MergedDistinct(env: seq<string>, img: seq<string>)
    requires DistinctKeys(env)
    ensures DistinctKeys(MergedEnv(env, img))
    decreases |img|
  {
    if img != [] {
      MergedDistinct(if HasKey(env, img[0]) then env else env + [img[0]], img[1..]);
    }
  }

  lemma {:induction false} WithoutDistinct(have: seq<string>, remove: seq<string>)
    requires DistinctKeys(have)
    ensures DistinctKeys(Without(have, remove))
  {
    if have != [] {
      var rest := Without(have[1..], remove);
      assert DistinctKeys(have[1..]);
      WithoutDistinct(have[1..], remove);
      forall j | 0 <= j < |rest| ensures KeyOf(rest[j]) != KeyOf(have[0]) {
        WithoutHas(have[1..], remove, rest[j]);
        var k :| 0 <= k < |have[1..]| && have[1..][k] == rest[j];
        assert have[k + 1] == rest[j];
      }
    }
  }

  /** Two entries of one variable in a list of distinct ones are the same entry. */
  lemma OneEntry(env: seq<string>, a: string, b: string)
    requires DistinctKeys(env) && a in env && b in env && KeyOf(a) == KeyOf(b)
    ensures a == b
  {
    var i :| 0 <= i < |env| && env[i] == a;
    var j :| 0 <= j < |env| && env[j] == b;
  }

  lemma EntryGivesKey(env: seq<string>, x: string, e: string)
    requires x in env && KeyOf(x) == KeyOf(e)
    ensures HasKey(env, e)
  {
    var j :| 0 <= j < |env| && env[j] == x;
  }

  lemma {:induction false} EveryKeyThere(env: seq<string>, img: seq<string>, e: string)
    requires e in img
    ensures HasKey(MergedEnv(env, img), e)
    decreases |img|
  {
    var next := if HasKey(env, img[0]) then env else env + [img[0]];
    if e == img[0] {
      if !HasKey(env, e) {
        assert next[|env|] == e;
      }
      KeyOfMerged(next, img[1..], e);
    } else {
      assert e in img[1..];
      EveryKeyThere(next, img[1..], e);
    }
  }

  lemma {:induction false} KeyOfMerged(env: seq<string>, img: seq<string>, e: string)
    requires HasKey(env, e)
    ensures HasKey(MergedEnv(env, img), e)
    decreases |img|
  {
    if img != [] {
      var next := if HasKey(env, img[0]) then env else env + [img[0]];
      KeyStays(env, next, e);
      KeyOfMerged(next, img[1..], e);
    }
  }

  /** Dropping the image's own variables from a completed list and completing it again changes nothing. */
  lemma EnvComesBack(user: seq<string>, img: seq<string>, e: string)
    requires DistinctKeys(user) && DistinctKeys(img)
    ensures var env := MergedEnv(user, img);
            e in MergedEnv(Without(env, img), img) <==> e in env
  {
    var env := MergedEnv(user, img);
    var rest := Without(env, img);
    MergedDistinct(user, img);
    MergedHas(rest, img, e);
    WithoutHas(env, img, e);
    if e in img {
      EveryKeyThere(user, img, e);
      var i :| 0 <= i < |env| && KeyOf(env[i]) == KeyOf(e);
      WithoutHas(env, img, env[i]);
      if env[i] in img {
        OneEntry(img, env[i], e);
      } else {
        EntryGivesKey(rest, env[i], e);
      }
      if HasKey(rest, e) {
        var j :| 0 <= j < |rest| && KeyOf(rest[j]) == KeyOf(e);
        WithoutHas(env, img, rest[j]);
        OneEntry(env, rest[j], env[i]);
      }
    }
  }

  /** What goes wrong with the command: the container overrides the image's entry point and repeats its command,
      or repeats the entry point and has no command where the image has one. */
  predicate CommandLost(cfg: Config, img: Config) {
    && Words(cfg.entrypoint) != [] && img.cmd != []
    && cfg.cmd == if Words(cfg.entrypoint) == Words(img.entrypoint) then [] else img.cmd
  }

  /** What goes wrong with the health check: the image's command with other times. */
  predicate HealthLost(cfg: Config, img: Config) {
    cfg.health.Some? && img.health.Some? && cfg.health.value.test == img.health.value.test && cfg.health != img.health
  }

  /** If the image has not changed, a container made from it is recreated with the same effective configuration
      exactly when neither its command nor its health check is one of the two that stripping loses. */
  lemma SameImageSameEffect(user: Config, img: Config, bound: set<string>)
    requires DistinctKeys(user.env) && DistinctKeys(img.env)
    ensures var cfg := Applied(user, img);
            SameEffect(Applied(Stripped(cfg, img, bound), img), cfg) <==> !CommandLost(cfg, img) && !HealthLost(cfg, img)
  {
    var cfg := Applied(user, img);
    var again := Applied(Stripped(cfg, img, bound), img);
    EnvSame(user.env, img.env);
    SetsSame(user, img, bound);
    CommandSame(user, img, bound);
    HealthSame(user, img, bound);
    hide Applied, Stripped, CommandLost, HealthLost;
    assert again.image == cfg.image && again.hostname == cfg.hostname && again.user == cfg.user
        && again.workingDir == cfg.workingDir by { PlainSame(user, img, bound); }
    assert again.env == MergedEnv(Without(cfg.env, img.env), img.env) && cfg.env == MergedEnv(user.env, img.env) by {
      PlainSame(user, img, bound);
    }
  }

  lemma PlainSame(user: Config, img: Config, bound: set<string>)
    ensures var cfg := Applied(user, img);
            var again := Applied(Stripped(cfg, img, bound), img);
            && again.image == cfg.image && again.hostname == cfg.hostname && again.user == cfg.user
            && again.workingDir == cfg.workingDir
            && again.env == MergedEnv(Without(cfg.env, img.env), img.env) && cfg.env == MergedEnv(user.env, img.env)
  {
    hide MergedEnv, Without;
  }

  lemma EnvSame(user: seq<string>, img: seq<string>)
    requires DistinctKeys(user) && DistinctKeys(img)
    ensures var env := MergedEnv(user, img);
            var again := MergedEnv(Without(env, img), img);
            (set e | e in again) == (set e | e in env) && DistinctKeys(again) && DistinctKeys(env)
  {
    var env := MergedEnv(user, img);
    forall e ensures e in MergedEnv(Without(env, img), img) <==> e in env {
      EnvComesBack(user, img, e);
    }
    MergedDistinct(user, img);
    WithoutDistinct(env, img);
    MergedDistinct(Without(env, img), img);
  }

  lemma SetsSame(user: Config, img: Config, bound: set<string>)
    ensures var cfg := Applied(user, img);
            var again := Applied(Stripped(cfg, img, bound), img);
            again.labels == cfg.labels && again.ports == cfg.ports && again.volumes == cfg.volumes
  {
    hide MergedEnv, Without;
    var cfg := Applied(user, img);
    var again := Applied(Stripped(cfg, img, bound), img);
    assert again.labels.Keys == cfg.labels.Keys;
    assert forall k :: k in cfg.labels ==> again.labels[k] == cfg.labels[k];
  }

  lemma CommandSame(user: Config, img: Config, bound: set<string>)
    ensures var cfg := Applied(user, img);
            var again := Applied(Stripped(cfg, img, bound), img);
            (again.cmd == cfg.cmd <==> !CommandLost(cfg, img)) && Words(again.entrypoint) == Words(cfg.entrypoint)
  {
    hide MergedEnv, Without;
  }

  lemma HealthSame(user: Config, img: Config, bound: set<string>)
    ensures var cfg := Applied(user, img);
            var again := Applied(Stripped(cfg, img, bound), img);
            again.health == cfg.health <==> !HealthLost(cfg, img)
  {
    hide MergedEnv, Without;
  }

  // ---------------------------------------------------------------- what is asked for

  function NewConfig(ins: Inspect, opts: Opts, img: Option<Config>): Config {
    var named := if opts.image != "" then ins.cfg.(image := opts.image) else ins.cfg;
    var plain := if opts.pull && img.Some? then Stripped(named, img.value, ins.host.bound) else named;
    var changed := if opts.env.Some? then plain.(env := opts.env.value) else plain;
    if Short(ins.id) == Some(changed.hostname) then changed.(hostname := "") else changed
  }

  function NewHost(ins: Inspect, opts: Opts): HostConfig {
    if opts.restartPolicy == "" then ins.host
    else ins.host.(restart := Restart(opts.restartPolicy, if opts.restartPolicy == "on-failure" then 5 else 0))
  }

  method Describe(ins: Inspect, opts: Opts, img: Option<Config>) returns (cfg: Config, hc: HostConfig)
    ensures cfg == NewConfig(ins, opts, img) && hc == NewHost(ins, opts)
  {
    cfg, hc := ins.cfg, ins.host;
    if opts.image != "" {
      cfg := cfg.(image := opts.image);
    }
    if opts.pull && img.Some? {
      cfg := Strip(cfg, img.value, hc.bound);
    }
    if opts.env.Some? {
      cfg := cfg.(env := opts.env.value);
    }
    if opts.restartPolicy != "" {
      hc := hc.(restart := Restart(opts.restartPolicy, 0));
      if opts.restartPolicy == "on-failure" {
        hc := hc.(restart := hc.restart.(maxRetries := 5));
      }
    }
    if |ins.id| >= 12 && cfg.hostname == ins.id[..12] {
      cfg := cfg.(hostname := "");
    }
  }

  // ---------------------------------------------------------------- networks

  type Networks = map<string, Endpoint>

  /** The endpoints to create: those of the old container, without the alias that is its own id. */
  function Endpoints(ins: Inspect): Networks {
    if ins.networks.None? then map[]
    else map n | n in ins.networks.value ::
           ins.networks.value[n].(aliases := FilteredAliases(ins.networks.value[n].aliases, ins.id))
  }

  method ReadEndpoints(ins: Inspect) returns (eps: Networks)
    ensures eps == Endpoints(ins)
  {
    eps := map[];
    if ins.networks.Some? {
      var todo := ins.networks.value.Keys;
      while todo != {}
        invariant todo <= ins.networks.value.Keys
        invariant eps == map n | n in ins.networks.value.Keys - todo :: Endpoints(ins)[n]
        decreases |todo|
      {
        var n :| n in todo;
        todo := todo - {n};
        var aliases := FilterAliases(ins.networks.value[n].aliases, ins.id);
        eps := eps[n := ins.networks.value[n].(aliases := aliases)];
      }
      assert eps == Endpoints(ins);
    }
  }

  /** A mode in which a container has no network of its own. */
  predicate Shared(mode: string) { HasPrefix(mode, "container:") || mode == "host" || mode == "none" }

  /** No network is named at creation. */
  predicate NoFirst(mode: string, eps: Networks) { mode !in eps && (eps == map[] || Shared(mode)) }

  /** The network named at creation and the others, whatever order the map is walked in. */
  method SplitNetworks(mode: string, eps: Networks) returns (first: string, extra: seq<string>)
    requires "" !in eps
    ensures first == "" || first in eps
    ensures mode in eps ==> first == mode
    ensures first == "" <==> NoFirst(mode, eps)
    ensures forall n :: n in extra <==> n in eps && n != first
    ensures forall i, j :: 0 <= i < j < |extra| ==> extra[i] != extra[j]
  {
    first, extra := "", [];
    if mode in eps {
      first := mode;
    }
    var todo := eps.Keys;
    while todo != {}
      invariant todo <= eps.Keys
      invariant first == "" || (first in eps && (first == mode || first !in todo))
      invariant mode in eps ==> first == mode
      invariant mode !in eps ==> (first == "" <==> todo == eps.Keys || Shared(mode))
      invariant forall n :: n in extra <==> n in eps.Keys - todo && n != first
      invariant forall i, j :: 0 <= i < j < |extra| ==> extra[i] != extra[j]
      decreases |todo|
    {
      var n :| n in todo;
      todo := todo - {n};
      if first == "" && !HasPrefix(mode, "container:") && mode != "host" && mode != "none" {
        first := n;
      }
      assert n !in extra;
      if n != first {
        extra := extra + [n];
      }
    }
  }

  /** The networks the finished container is in; `usual` says what Docker joins when none is named. */
  function Joined(mode: string, eps: Networks, usual: string -> Networks): Networks {
    (if NoFirst(mode, eps) then usual(mode) else map[]) + eps
  }

  /** The new container is in exactly the old container's networks, unless none was named at creation and Docker
      joined one that the old container was not in. */
  lemma SameNetworks(ins: Inspect, usual: string -> Networks)
    requires ins.networks.Some?
    ensures Joined(ins.host.networkMode, Endpoints(ins), usual).Keys == ins.networks.value.Keys
       <==> !NoFirst(ins.host.networkMode, Endpoints(ins)) || usual(ins.host.networkMode).Keys <= ins.networks.value.Keys
  {
    var mode, eps := ins.host.networkMode, Endpoints(ins);
    assert eps.Keys == ins.networks.value.Keys;
    assert Joined(mode, eps, usual).Keys == (if NoFirst(mode, eps) then usual(mode).Keys else {}) + eps.Keys;
  }

  // ---------------------------------------------------------------- the daemon

  datatype Ctr = Ctr(name: string, running: bool, nets: Networks, cfg: Config, host: HostConfig)
  type Ctrs = map<Id, Ctr>

  /** Names are unique, and the name table leads to every container. */
  ghost predicate Indexed(ctrs: Ctrs, names: map<string, Id>) {
    && (forall id :: id in ctrs ==> ctrs[id].name in names && names[ctrs[id].name] == id)
    && (forall n :: n in names ==> names[n] in ctrs && ctrs[names[n]].name == n)
  }

  /** A call on the daemon, and how it was answered. */
  datatype Call =
    | AskRename(id: Id, to: string)
    | AskStop(id: Id)
    | AskStart(id: Id)
    | AskCreate(name: string)
    | AskConnect(id: Id, net: string)
    | AskRemove(id: Id)

  datatype Said = Said(call: Call, ok: bool)

  /** The networks of a container that was just created: the named one, or what its mode usually joins. */
  function FirstNets(usual: string -> Networks, mode: string, first: string, ep: Networks): Networks {
    if first == "" then usual(mode) else ep
  }

  class Daemon {
    var ctrs: Ctrs
    var names: map<string, Id>
    /** What the daemon held after each call so far, and the calls with their answers. */
    ghost var past: seq<Ctrs>
    ghost var said: seq<Said>
    const usual: string -> Networks

    ghost predicate Valid() reads this { Indexed(ctrs, names) }

    constructor (usual: string -> Networks)
      ensures Valid() && ctrs == map[] && past == [] && said == [] && this.usual == usual
    {
      ctrs, names, past, said := map[], map[], [], [];
      this.usual := usual;
    }

    method Rename(id: Id, to: string) returns (ok: bool)
      requires Valid()
      modifies this
      ensures Valid() && past == old(past) + [ctrs]
      ensures said == old(said) + [Said(AskRename(id, to), ok)]
      ensures ok ==> id in old(ctrs) && to !in old(names) && ctrs == old(ctrs)[id := old(ctrs)[id].(name := to)]
      ensures !ok ==> ctrs == old(ctrs)
      ensures !ok ==> names == old(names)
    {
      var willing: bool := *;
      ok := willing && id in ctrs && to !in names;
      if ok {
        names := (names - {ctrs[id].name})[to := id];
        ctrs := ctrs[id := ctrs[id].(name := to)];
      }
      said := said + [Said(AskRename(id, to), ok)];
      past := past + [ctrs];
    }

    method SetRunning(id: Id, on: bool) returns (ok: bool)
      requires Valid()
      modifies this
      ensures Valid() && past == old(past) + [ctrs] && names == old(names)
      ensures said == old(said) + [Said(if on then AskStart(id) else AskStop(id), ok)]
      ensures ok ==> id in old(ctrs) && ctrs == old(ctrs)[id := old(ctrs)[id].(running := on)]
      ensures !ok ==> ctrs == old(ctrs)
    {
      var willing: bool := *;
      ok := willing && id in ctrs;
      if ok {
        ctrs := ctrs[id := ctrs[id].(running := on)];
      }
      said := said + [Said(if on then AskStart(id) else AskStop(id), ok)];
      past := past + [ctrs];
    }

    /** A new container is stopped and in the named network, or in what its mode usually joins. */
    method Create(cfg: Config, host: HostConfig, first: string, ep: Networks, name: string) returns (made: Option<Id>)
      requires Valid()
      modifies this
      ensures Valid() && past == old(past) + [ctrs]
      ensures said == old(said) + [Said(AskCreate(name), made.Some?)]
      ensures made.Some? ==>
        && made.value !in old(ctrs) && name !in old(names)
        && ctrs == old(ctrs)[made.value := Ctr(name, false, FirstNets(usual, host.networkMode, first, ep), cfg, host)]
      ensures made.None? ==> ctrs == old(ctrs) && names == old(names)
    {
      made := None;
      var willing: bool := *;
      var id: Id := *;
      if willing && id !in ctrs && name !in names {
        ctrs := ctrs[id := Ctr(name, false, FirstNets(usual, host.networkMode, first, ep), cfg, host)];
        names := names[name := id];
        made := Some(id);
      }
      said := said + [Said(AskCreate(name), made.Some?)];
      past := past + [ctrs];
    }

    method Connect(id: Id, n: string, ep: Endpoint) returns (ok: bool)
      requires Valid()
      modifies this
      ensures Valid() && past == old(past) + [ctrs] && names == old(names)
      ensures said == old(said) + [Said(AskConnect(id, n), ok)]
      ensures ok ==> id in old(ctrs) && ctrs == old(ctrs)[id := old(ctrs)[id].(nets := old(ctrs)[id].nets[n := ep])]
      ensures !ok ==> ctrs == old(ctrs)
    {
      var willing: bool := *;
      ok := willing && id in ctrs;
      if ok {
        ctrs := ctrs[id := ctrs[id].(nets := ctrs[id].nets[n := ep])];
      }
      said := said + [Said(AskConnect(id, n), ok)];
      past := past + [ctrs];
    }

    method Remove(id: Id) returns (ok: bool)
      requires Valid()
      modifies this
      ensures Valid() && past == old(past) + [ctrs]
      ensures said == old(said) + [Said(AskRemove(id), ok)]
      ensures ok ==> id in old(ctrs) && ctrs == old(ctrs) - {id}
      ensures !ok ==> ctrs == old(ctrs)
      ensures !ok ==> names == old(names)
    {
      var willing: bool := *;
      ok := willing && id in ctrs;
      if ok {
        names := names - {ctrs[id].name};
        ctrs := ctrs - {id};
      }
      said := said + [Said(AskRemove(id), ok)];
      past := past + [ctrs];
    }
  }

  /** The name table follows from the containers. */
  lemma NamesFollow(ctrs: Ctrs, a: map<string, Id>, b: map<string, Id>)
    requires Indexed(ctrs, a) && Indexed(ctrs, b)
    ensures a == b
  {
    forall n ensures n in a <==> n in b {
      if n in a { assert ctrs[a[n]].name in b; }
      if n in b { assert ctrs[b[n]].name in a; }
    }
    forall n | n in a ensures a[n] == b[n] {
      assert b[ctrs[a[n]].name] == a[n];
    }
  }

  // ---------------------------------------------------------------- recreate

  /** What inspecting told is what the daemon holds. */
  predicate Matches(c: Ctr, ins: Inspect) {
    c.name == ins.name && c.running == ins.running
  }

  function BackupName(ins: Inspect, now: nat): string { ins.name + "-dockhand-old-" + Itoa(now) }

  /** The finished new container. */
  function Wanted(ins: Inspect, opts: Opts, img: Option<Config>, usual: string -> Networks): Ctr {
    Ctr(ins.name, ins.running || opts.image != "" || opts.pull,
        Joined(NewHost(ins, opts).networkMode, Endpoints(ins), usual), NewConfig(ins, opts, img), NewHost(ins, opts))
  }

  /** The new container as the caller asked for it, in terms of what inspecting the old one gave; `img` is the
      configuration of the old image, if that could be inspected. */
  ghost predicate AsAsked(c: Ctr, ins: Inspect, opts: Opts, img: Option<Config>) {
    && c.name == ins.name && (c.running <==> ins.running || opts.image != "" || opts.pull)
    && RestartAsked(c.host, ins.host, opts.restartPolicy) && ConfigAsked(c.cfg, ins, opts, img)
    && (ins.networks.Some? ==> forall n :: n in ins.networks.value ==>
          n in c.nets && SameEndpoint(c.nets[n], ins.networks.value[n], ins.id))
  }

  ghost predicate ConfigAsked(cfg: Config, ins: Inspect, opts: Opts, img: Option<Config>) {
    && cfg.image == (if opts.image != "" then opts.image else ins.cfg.image)
    && cfg.hostname == (if |ins.id| >= 12 && ins.cfg.hostname == ins.id[..12] then "" else ins.cfg.hostname)
    && (opts.env.Some? ==> cfg.env == opts.env.value)
    && (!(opts.pull && img.Some?) ==>
          && (opts.env.None? ==> cfg.env == ins.cfg.env)
          && cfg == ins.cfg.(image := cfg.image, hostname := cfg.hostname, env := cfg.env))
    && (opts.pull && img.Some? ==> OwnValues(cfg, ins.cfg, img.value, ins.host.bound, opts.env.None?))
  }

  predicate RestartAsked(host: HostConfig, was: HostConfig, policy: string) {
    && host == was.(restart := host.restart)
    && if policy == "" then host.restart == was.restart
       else host.restart.policy == policy && host.restart.maxRetries == if policy == "on-failure" then 5 else 0
  }

  /** A field that the image gave is dropped, every other one kept. */
  ghost predicate OwnValues(cfg: Config, was: Config, img: Config, bound: set<string>, keepEnv: bool) {
    && (keepEnv ==> forall e :: e in cfg.env <==> e in was.env && e !in img.env)
    && cfg.cmd == (if was.cmd == img.cmd then [] else was.cmd)
    && (cfg.entrypoint == if Words(was.entrypoint) == Words(img.entrypoint) then None else was.entrypoint)
    && cfg.workingDir == (if was.workingDir == img.workingDir then "" else was.workingDir)
    && cfg.user == (if was.user == img.user then "" else was.user)
    && (forall k :: k in cfg.labels <==> k in was.labels && (k in img.labels ==> img.labels[k] != was.labels[k]))
    && (forall k :: k in cfg.labels ==> cfg.labels[k] == was.labels[k])
    && (forall p :: p in cfg.ports <==> p in was.ports && (p in img.ports ==> p in bound))
    && (forall v :: v in cfg.volumes <==> v in was.volumes && v !in img.volumes)
    && (cfg.health == was.health || cfg.health.None?)
    && (cfg.health.None? <==>
          was.health.None? || (img.health.Some? && was.health.value.test == img.health.value.test))
  }

  ghost predicate SameEndpoint(e: Endpoint, was: Endpoint, id: Id) {
    && e == was.(aliases := e.aliases)
    && forall a :: a in e.aliases <==> a in was.aliases && (|id| >= 12 ==> a != id[..12])
  }

  lemma WantedIsAsAsked(ins: Inspect, opts: Opts, img: Option<Config>, usual: string -> Networks)
    ensures AsAsked(Wanted(ins, opts, img, usual), ins, opts, img)
  {
    hide Joined, Endpoints, ConfigAsked, SameEndpoint, NewConfig;
    var c := Wanted(ins, opts, img, usual);
    ConfigIsAsAsked(ins, opts, img);
    if ins.networks.Some? {
      forall n | n in ins.networks.value ensures n in c.nets && SameEndpoint(c.nets[n], ins.networks.value[n], ins.id) {
        EndpointKept(ins, usual, NewHost(ins, opts).networkMode, n);
      }
    }
  }

  lemma ConfigIsAsAsked(ins: Inspect, opts: Opts, img: Option<Config>)
    ensures ConfigAsked(NewConfig(ins, opts, img), ins, opts, img)
  {
    hide OwnValues, Stripped;
    if opts.pull && img.Some? {
      StripKeeps(ins, opts, img.value);
      StripLeavesOwn(ins.cfg, img.value, ins.host.bound, NewConfig(ins, opts, img), opts.env.None?);
      hide NewConfig;
    }
  }

  lemma StripKeeps(ins: Inspect, opts: Opts, img: Config)
    requires opts.pull
    ensures var c := NewConfig(ins, opts, Some(img));
            && c == Stripped(ins.cfg, img, ins.host.bound).(image := c.image, hostname := c.hostname, env := c.env)
            && (opts.env.None? ==> c.env == Without(ins.cfg.env, img.env))
            && c.image == (if opts.image != "" then opts.image else ins.cfg.image)
            && c.hostname == (if |ins.id| >= 12 && ins.cfg.hostname == ins.id[..12] then "" else ins.cfg.hostname)
            && (opts.env.Some? ==> c.env == opts.env.value)
  {
    hide Without;
  }

  lemma StripLeavesOwn(was: Config, img: Config, bound: set<string>, cfg: Config, keepEnv: bool)
    requires cfg == Stripped(was, img, bound).(image := cfg.image, hostname := cfg.hostname, env := cfg.env)
    requires keepEnv ==> cfg.env == Without(was.env, img.env)
    ensures OwnValues(cfg, was, img, bound, keepEnv)
  {
    forall e ensures e in Without(was.env, img.env) <==> e in was.env && e !in img.env {
      WithoutHas(was.env, img.env, e);
    }
  }

  lemma EndpointKept(ins: Inspect, usual: string -> Networks, mode: string, n: string)
    requires ins.networks.Some? && n in ins.networks.value
    ensures var nets := Joined(mode, Endpoints(ins), usual);
            n in nets && SameEndpoint(nets[n], ins.networks.value[n], ins.id)
  {
    var was := ins.networks.value[n];
    if Short(ins.id).Some? {
      forall a ensures a in FilteredAliases(was.aliases, ins.id) <==> a in was.aliases && a != ins.id[..12] {
        WithoutHas(was.aliases, [ins.id[..12]], a);
      }
    }
  }

  /** The name under which the old container is set aside is not its own, and another one each second. */
  lemma BackupIsNew(ins: Inspect, now: nat, later: nat)
    ensures ins.name < BackupName(ins, now)
    ensures now != later ==> BackupName(ins, now) != BackupName(ins, later)
  {
    var front := ins.name + "-dockhand-old-";
    if BackupName(ins, now) == BackupName(ins, later) {
      assert BackupName(ins, now)[|front|..] == Itoa(now) && BackupName(ins, later)[|front|..] == Itoa(later);
      ItoaInjective(now, later);
    }
  }

  /** The old container with its id, the name it is set aside under, and the finished new one. */
  datatype Plan = Plan(id: Id, was: Ctr, backup: string, want: Ctr)

  /** The old container as the steps leave it: perhaps renamed, perhaps stopped. */
  predicate StillThere(s: Ctrs, p: Plan) {
    && p.id in s && s[p.id] == p.was.(name := s[p.id].name, running := s[p.id].running)
    && s[p.id].name in {p.was.name, p.backup} && (s[p.id].running ==> p.was.running)
  }

  /** The old container exists, or the new one is finished. */
  ghost predicate Covered(s: Ctrs, p: Plan) { StillThere(s, p) || exists k :: k in s && k != p.id && s[k] == p.want }

  /** So it was after every call since. */
  ghost predicate CoveredSince(before: seq<Ctrs>, past: seq<Ctrs>, p: Plan) {
    before <= past && forall i :: |before| <= i < |past| ==> Covered(past[i], p)
  }

  lemma OneMoreCall(before: seq<Ctrs>, past: seq<Ctrs>, s: Ctrs, p: Plan)
    requires CoveredSince(before, past, p) && Covered(s, p)
    ensures CoveredSince(before, past + [s], p)
  {
    hide Covered;
  }

  lemma CoveredThroughout(a: seq<Ctrs>, b: seq<Ctrs>, c: seq<Ctrs>, p: Plan)
    requires CoveredSince(a, b, p) && CoveredSince(b, c, p)
    ensures CoveredSince(a, c, p)
  {
    hide Covered;
    forall i | |a| <= i < |c| ensures Covered(c[i], p) {
      assert i < |b| ==> c[i] == b[i];
    }
  }

  predicate AllOk(s: seq<Said>) { forall i :: 0 <= i < |s| ==> s[i].ok }

  lemma OneMoreOk(s: seq<Said>, c: Said)
    ensures AllOk(s + [c]) <==> AllOk(s) && c.ok
    ensures AllOk([c]) <==> c.ok
    ensures Calls(s + [c]) == Calls(s) + [c.call] && Calls([c]) == [c.call] && AllOk([])
  {
    assert (s + [c])[|s|] == c && [c][0] == c;
    assert forall i :: 0 <= i < |s| ==> (s + [c])[i] == s[i];
  }

  /** Calls of which only the last may have been refused; `ok` says that none was. */
  predicate UpToRefusal(s: seq<Said>, ok: bool) {
    (forall i :: 0 <= i < |s| - 1 ==> s[i].ok) && (ok <==> AllOk(s))
  }

  function Calls(s: seq<Said>): seq<Call> { seq(|s|, i requires 0 <= i < |s| => s[i].call) }

  function Opening(ins: Inspect, backup: string): seq<Call> {
    [AskRename(ins.id, backup)] + if ins.running then [AskStop(ins.id)] else []
  }

  /** The calls of the roll back once a new container was asked for. */
  function Undo(ins: Inspect, made: Option<Id>): seq<Call> {
    (if made.Some? then [AskRemove(made.value)] else []) + [AskRename(ins.id, ins.name)]
    + if ins.running then [AskStart(ins.id)] else []
  }

  /** A call that makes or completes the new container, and that container. */
  predicate OnNew(c: Call) { c.AskCreate? || c.AskConnect? || c.AskStart? }

  function MadeBy(c: Call): Option<Id> { if c.AskConnect? || c.AskStart? then Some(c.id) else None }

  /** What has to be called after a call was refused. */
  function Compensation(ins: Inspect, refused: Call): seq<Call> {
    if OnNew(refused) then Undo(ins, MadeBy(refused))
    else if refused.AskStop? then [AskRename(ins.id, ins.name)]
    else []
  }

  /** Rename the old container and stop it if it runs; `fwd` are these calls and `back` the compensation. */
  method SetAside(d: Daemon, ins: Inspect, ghost p: Plan, backup: string)
    returns (ok: bool, ghost fwd: seq<Said>, ghost back: seq<Said>)
    requires d.Valid() && p.id == ins.id && p.backup == backup && ins.id in d.ctrs
    requires d.ctrs[ins.id] == p.was && Matches(p.was, ins)
    modifies d
    ensures d.Valid() && CoveredSince(old(d.past), d.past, p)
    ensures d.said == old(d.said) + fwd + back && fwd != [] && UpToRefusal(fwd, ok)
    ensures ok ==> Calls(fwd) == Opening(ins, backup) && back == []
    ensures !ok ==> Calls(fwd) <= Opening(ins, backup) && Calls(back) == Compensation(ins, fwd[|fwd| - 1].call)
    ensures !ok ==> !OnNew(fwd[|fwd| - 1].call) && !fwd[|fwd| - 1].call.AskRemove?
    ensures ok ==> d.ctrs == old(d.ctrs)[ins.id := p.was.(name := backup, running := false)]
    ensures !ok ==> StillThere(d.ctrs, p) && d.ctrs == old(d.ctrs)[ins.id := d.ctrs[ins.id]]
    ensures !ok && AllOk(back) ==> d.ctrs == old(d.ctrs)
  {
    hide Indexed, CoveredSince;
    back := [];
    assert CoveredSince(d.past, d.past, p) by { CoveredStart(d.past, p); }
    var renamed := d.Rename(ins.id, backup);
    fwd := [Said(AskRename(ins.id, backup), renamed)];
    OneMoreOk([], fwd[0]);
    OneMoreCall(old(d.past), old(d.past), d.ctrs, p);
    if !renamed {
      return false, fwd, back;
    }
    if ins.running {
      ghost var past := d.past;
      var stopped := d.SetRunning(ins.id, false);
      OneMoreOk(fwd, Said(AskStop(ins.id), stopped));
      fwd := fwd + [Said(AskStop(ins.id), stopped)];
      OneMoreCall(old(d.past), past, d.ctrs, p);
      if !stopped {
        past := d.past;
        var undone := d.Rename(ins.id, ins.name);
        back := [Said(AskRename(ins.id, ins.name), undone)];
        OneMoreOk([], back[0]);
        assert Calls(back) == Compensation(ins, AskStop(ins.id));
        OneMoreCall(old(d.past), past, d.ctrs, p);
        return false, fwd, back;
      }
    }
    ok := true;
  }

  lemma CoveredStart(past: seq<Ctrs>, p: Plan)
    ensures CoveredSince(past, past, p)
  {
  }

  /** The roll back: remove the new container if there is one, give the old one its name back and start it if it
      ran. If no call is refused, everything is as it was. */
  method Rollback(d: Daemon, ins: Inspect, made: Option<Id>, ghost p: Plan) returns (ghost back: seq<Said>)
    requires d.Valid() && p.id == ins.id && Matches(p.was, ins)
    requires StillThere(d.ctrs, p) && !d.ctrs[ins.id].running
    requires made.Some? ==> made.value in d.ctrs && made.value != ins.id
    modifies d
    ensures d.Valid() && CoveredSince(old(d.past), d.past, p) && StillThere(d.ctrs, p)
    ensures d.said == old(d.said) + back && Calls(back) == Undo(ins, made)
    ensures AllOk(back) ==> d.ctrs == (if made.Some? then old(d.ctrs) - {made.value} else old(d.ctrs))[ins.id := p.was]
    ensures forall k :: k in old(d.ctrs) && k != ins.id && made != Some(k) ==> k in d.ctrs && d.ctrs[k] == old(d.ctrs)[k]
  {
    hide Indexed, CoveredSince;
    back := [];
    assert CoveredSince(d.past, d.past, p) by { CoveredStart(d.past, p); }
    ghost var past := d.past;
    if made.Some? {
      var removed := d.Remove(made.value);
      back := [Said(AskRemove(made.value), removed)];
      OneMoreOk([], back[0]);
      OneMoreCall(old(d.past), past, d.ctrs, p);
    }
    past := d.past;
    var renamed := d.Rename(ins.id, ins.name);
    OneMoreOk(back, Said(AskRename(ins.id, ins.name), renamed));
    back := back + [Said(AskRename(ins.id, ins.name), renamed)];
    OneMoreCall(old(d.past), past, d.ctrs, p);
    if ins.running {
      past := d.past;
      var started := d.SetRunning(ins.id, true);
      OneMoreOk(back, Said(AskStart(ins.id), started));
      back := back + [Said(AskStart(ins.id), started)];
      OneMoreCall(old(d.past), past, d.ctrs, p);
    }
  }

  function Picked(extra: seq<string>, eps: Networks): Networks
    requires forall n :: n in extra ==> n in eps
  {
    map n | n in extra :: eps[n]
  }

  /** Join the remaining networks one by one; stops at the first refusal. */
  method ConnectAll(d: Daemon, id: Id, extra: seq<string>, eps: Networks, ghost p: Plan)
    returns (ok: bool, ghost fwd: seq<Said>)
    requires d.Valid() && id in d.ctrs && id != p.id && StillThere(d.ctrs, p)
    requires forall n :: n in extra ==> n in eps
    modifies d
    ensures d.Valid() && CoveredSince(old(d.past), d.past, p) && d.names == old(d.names)
    ensures d.said == old(d.said) + fwd && UpToRefusal(fwd, ok) && Calls(fwd) <= Connects(id, extra)
    ensures ok ==> Calls(fwd) == Connects(id, extra)
    ensures id in d.ctrs && d.ctrs == Replaced(old(d.ctrs), id, d.ctrs[id])
    ensures ok ==> d.ctrs[id] == old(d.ctrs)[id].(nets := old(d.ctrs)[id].nets + Picked(extra, eps))
  {
    hide Indexed, CoveredSince, StillThere, Picked;
    CoveredStart(d.past, p);
    ghost var s, c := d.ctrs, d.ctrs[id];
    fwd := [];
    PickedSnoc(c.nets, extra, 0, eps);
    assert s == Replaced(s, id, c.(nets := c.nets + Picked(extra[..0], eps)));
    for i := 0 to |extra|
      invariant d.Valid() && CoveredSince(old(d.past), d.past, p) && d.names == old(d.names)
      invariant d.ctrs == Replaced(s, id, c.(nets := c.nets + Picked(extra[..i], eps)))
      invariant d.said == old(d.said) + fwd && AllOk(fwd) && Calls(fwd) == Connects(id, extra)[..i]
    {
      var n := extra[i];
      PickedSnoc(c.nets, extra, i, eps);
      ghost var past := d.past;
      var joined := d.Connect(id, n, eps[n]);
      NextConnect(fwd, id, extra, i, joined);
      fwd := fwd + [Said(AskConnect(id, n), joined)];
      assert d.ctrs == Replaced(s, id, d.ctrs[id]);
      OtherStays(s, id, d.ctrs[id], p);
      OneMoreCall(old(d.past), past, d.ctrs, p);
      if !joined {
        return false, fwd;
      }
    }
    assert extra[..|extra|] == extra;
    ok := true;
  }

  function Connects(id: Id, extra: seq<string>): seq<Call> {
    seq(|extra|, i requires 0 <= i < |extra| => AskConnect(id, extra[i]))
  }

  lemma NextConnect(fwd: seq<Said>, id: Id, extra: seq<string>, i: nat, ok: bool)
    requires i < |extra| && AllOk(fwd) && Calls(fwd) == Connects(id, extra)[..i]
    ensures var more := fwd + [Said(AskConnect(id, extra[i]), ok)];
            UpToRefusal(more, ok) && Calls(more) == Connects(id, extra)[..i + 1]
  {
    var more := fwd + [Said(AskConnect(id, extra[i]), ok)];
    assert Calls(more) == Calls(fwd) + [AskConnect(id, extra[i])];
    assert more[|fwd|].ok == ok;
  }

  /** The daemon's containers with one put in another's place or added. */
  function Replaced(s: Ctrs, id: Id, c: Ctr): Ctrs { s[id := c] }

  lemma PickedSnoc(nets: Networks, extra: seq<string>, i: nat, eps: Networks)
    requires forall n :: n in extra ==> n in eps
    ensures nets + Picked(extra[..0], eps) == nets
    ensures i < |extra| ==> nets + Picked(extra[..i + 1], eps) == (nets + Picked(extra[..i], eps))[extra[i] := eps[extra[i]]]
  {
    if i < |extra| {
      assert extra[..i + 1] == extra[..i] + [extra[i]];
      assert Picked(extra[..i + 1], eps) == Picked(extra[..i], eps)[extra[i] := eps[extra[i]]];
    }
  }

  lemma OtherStays(s: Ctrs, id: Id, c: Ctr, p: Plan)
    requires StillThere(s, p) && id != p.id
    ensures StillThere(Replaced(s, id, c), p) && Covered(Replaced(s, id, c), p)
  {
  }

  method CreateNew(d: Daemon, ins: Inspect, cfg: Config, hc: HostConfig, first: string, ep: Networks, ghost p: Plan)
    returns (id: Option<Id>, ghost fwd: seq<Said>)
    requires d.Valid() && p.id == ins.id && StillThere(d.ctrs, p)
    modifies d
    ensures d.Valid() && CoveredSince(old(d.past), d.past, p) && StillThere(d.ctrs, p)
    ensures d.said == old(d.said) + fwd && fwd == [Said(AskCreate(ins.name), id.Some?)] && UpToRefusal(fwd, id.Some?)
    ensures id.Some? ==>
      && id.value !in old(d.ctrs) && id.value != p.id
      && d.ctrs == Replaced(old(d.ctrs), id.value,
                            Ctr(ins.name, false, FirstNets(d.usual, hc.networkMode, first, ep), cfg, hc))
    ensures id.None? ==> d.ctrs == old(d.ctrs)
  {
    hide Indexed, CoveredSince, StillThere, Covered, UpToRefusal, FirstNets;
    CoveredStart(d.past, p);
    ghost var s := d.ctrs;
    IdIsThere(s, p);
    id := d.Create(cfg, hc, first, ep, ins.name);
    fwd := [Said(AskCreate(ins.name), id.Some?)];
    OneCall(fwd[0]);
    if id.Some? {
      OtherStays(s, id.value, d.ctrs[id.value], p);
    } else {
      StillCovered(s, p);
    }
    OneMoreCall(old(d.past), old(d.past), d.ctrs, p);
  }

  /** Create the new container, join its networks and start it if asked; stops at the first refusal. */
  method MakeNew(d: Daemon, ins: Inspect, cfg: Config, hc: HostConfig, start: bool, ghost p: Plan)
    returns (id: Option<Id>, ok: bool, ghost fwd: seq<Said>)
    requires d.Valid() && p.id == ins.id && StillThere(d.ctrs, p)
    requires "" !in Endpoints(ins)
    modifies d
    ensures d.Valid() && CoveredSince(old(d.past), d.past, p)
    ensures d.said == old(d.said) + fwd && fwd != [] && UpToRefusal(fwd, ok) && fwd[0].call == AskCreate(ins.name)
    ensures !ok ==> OnNew(fwd[|fwd| - 1].call) && MadeBy(fwd[|fwd| - 1].call) == id
    ensures id.Some? ==>
      id.value !in old(d.ctrs) && id.value in d.ctrs && d.ctrs == Replaced(old(d.ctrs), id.value, d.ctrs[id.value])
    ensures id.None? ==> !ok && d.ctrs == old(d.ctrs)
    ensures ok ==> d.ctrs[id.value] == Ctr(ins.name, start, Joined(hc.networkMode, Endpoints(ins), d.usual), cfg, hc)
  {
    hide Indexed, CoveredSince, StillThere, Picked, Endpoints, Covered, UpToRefusal, Calls, Joined, Connects, Opening, Undo,
         FirstNets, NoFirst, Shared;
    ghost var s := d.ctrs;
    var eps := ReadEndpoints(ins);
    var first, extra := SplitNetworks(hc.networkMode, eps);
    id, fwd := CreateNew(d, ins, cfg, hc, first, if first == "" then map[] else map[first := eps[first]], p);
    if id.None? {
      return id, false, fwd;
    }
    ghost var past := d.past;
    ghost var joins;
    ok, joins := ConnectAll(d, id.value, extra, eps, p);
    CoveredThroughout(old(d.past), past, d.past, p);
    Chained(fwd, joins, ok);
    ConnectsAreOnNew(joins, id.value, extra, ok);
    fwd := fwd + joins;
    if ok {
      SplitIsAll(hc.networkMode, eps, first, extra, d.usual);
      if start {
        ghost var last;
        past := d.past;
        ok, last := StartNew(d, id.value, s, p);
        CoveredThroughout(old(d.past), past, d.past, p);
        Chained(fwd, [last], ok);
        fwd := fwd + [last];
      }
    }
  }

  method StartNew(d: Daemon, id: Id, ghost s: Ctrs, ghost p: Plan) returns (ok: bool, ghost last: Said)
    requires d.Valid() && StillThere(s, p) && id != p.id && id in d.ctrs && d.ctrs == Replaced(s, id, d.ctrs[id])
    modifies d
    ensures d.Valid() && CoveredSince(old(d.past), d.past, p)
    ensures d.said == old(d.said) + [last] && last == Said(AskStart(id), ok) && UpToRefusal([last], ok)
    ensures id in d.ctrs && d.ctrs == Replaced(s, id, d.ctrs[id])
    ensures ok ==> d.ctrs[id] == old(d.ctrs)[id].(running := true)
  {
    hide Indexed, CoveredSince, StillThere, Covered, UpToRefusal;
    CoveredStart(d.past, p);
    ok := d.SetRunning(id, true);
    last := Said(AskStart(id), ok);
    OneCall(last);
    assert d.ctrs == Replaced(s, id, d.ctrs[id]);
    OtherStays(s, id, d.ctrs[id], p);
    OneMoreCall(old(d.past), old(d.past), d.ctrs, p);
  }

  lemma OneCall(c: Said)
    ensures UpToRefusal([c], c.ok)
  {
    OneMoreOk([], c);
  }

  /** Calls that all succeeded and more behind them. */
  lemma Chained(a: seq<Said>, b: seq<Said>, ok: bool)
    requires UpToRefusal(a, true) && UpToRefusal(b, ok)
    ensures UpToRefusal(a + b, ok)
    ensures Calls(a + b) == Calls(a) + Calls(b)
  {
    if !ok {
      assert !b[|b| - 1].ok;
      assert !(a + b)[|a| + |b| - 1].ok;
    }
  }

  lemma ConnectsAreOnNew(joins: seq<Said>, id: Id, extra: seq<string>, ok: bool)
    requires UpToRefusal(joins, ok) && Calls(joins) <= Connects(id, extra)
    ensures !ok ==> joins != [] && OnNew(joins[|joins| - 1].call) && MadeBy(joins[|joins| - 1].call) == Some(id)
  {
    if !ok {
      assert joins != [];
      assert Calls(joins)[|joins| - 1] == Connects(id, extra)[|joins| - 1];
    }
  }

  lemma StillCovered(s: Ctrs, p: Plan)
    requires StillThere(s, p)
    ensures Covered(s, p)
  {
  }

  lemma IdIsThere(s: Ctrs, p: Plan)
    requires StillThere(s, p)
    ensures p.id in s
  {
  }

  /** The first network and the others are all of them. */
  lemma SplitIsAll(mode: string, eps: Networks, first: string, extra: seq<string>, usual: string -> Networks)
    requires "" !in eps && (first == "" || first in eps) && (first == "" <==> NoFirst(mode, eps))
    requires forall n :: n in extra <==> n in eps && n != first
    ensures FirstNets(usual, mode, first, if first == "" then map[] else map[first := eps[first]]) + Picked(extra, eps)
         == Joined(mode, eps, usual)
  {
    assert Picked(extra, eps) == eps - {first};
  }

  /** All went well: the new container as wanted, the old one gone or set aside, everything else as before. */
  ghost predicate Done(before: Ctrs, after: Ctrs, p: Plan, made: Id, removed: bool) {
    && made !in before
    && after == (if removed then before - {p.id} else before[p.id := p.was.(name := p.backup, running := false)])
                [made := p.want]
  }

  /** Nothing but the old container is changed or gone. */
  ghost predicate OthersKept(before: Ctrs, after: Ctrs, id: Id) {
    forall k :: k in before && k != id ==> k in after && after[k] == before[k]
  }

  function Final(s: seq<Said>): Said
    requires s != []
  {
    s[|s| - 1]
  }

  /** All calls but perhaps the last, the removal of the old container, succeeded, and none was taken back. */
  ghost predicate Carried(fwd: seq<Said>, back: seq<Said>, ins: Inspect) {
    fwd != [] && AllOk(fwd[..|fwd| - 1]) && Final(fwd).call == AskRemove(ins.id) && back == []
  }

  /** All calls but the last succeeded, the last was refused, and its compensation was called. */
  ghost predicate TakenBack(fwd: seq<Said>, back: seq<Said>, ins: Inspect) {
    && fwd != [] && AllOk(fwd[..|fwd| - 1]) && !Final(fwd).ok && !Final(fwd).call.AskRemove?
    && Calls(back) == Compensation(ins, Final(fwd).call)
  }

  /** From the old container set aside to the end: make the new one, then remove the old one or roll back. */
  method Swap(d: Daemon, ins: Inspect, cfg: Config, hc: HostConfig, start: bool, ghost p: Plan, ghost before: Ctrs)
    returns (made: Option<Id>, ghost fwd: seq<Said>, ghost back: seq<Said>)
    requires d.Valid() && p.id == ins.id && Matches(p.was, ins) && "" !in Endpoints(ins)
    requires ins.id in before && before[ins.id] == p.was
    requires d.ctrs == Replaced(before, ins.id, p.was.(name := p.backup, running := false))
    requires p.want == Ctr(ins.name, start, Joined(hc.networkMode, Endpoints(ins), d.usual), cfg, hc)
    modifies d
    ensures d.Valid() && CoveredSince(old(d.past), d.past, p) && OthersKept(before, d.ctrs, ins.id)
    ensures d.said == old(d.said) + fwd + back
    ensures if made.Some? then Carried(fwd, back, ins) else TakenBack(fwd, back, ins)
    ensures made.Some? ==> Done(before, d.ctrs, p, made.value, Final(fwd).ok)
    ensures made.None? ==> StillThere(d.ctrs, p)
    ensures made.None? && AllOk(back) ==> d.ctrs == before
  {
    hide Indexed, CoveredSince, Covered, Joined, Endpoints, UpToRefusal, Calls, Undo, Done, AllOk;
    made, back := None, [];
    ghost var aside := d.ctrs;
    var id, ok;
    id, ok, fwd := MakeNew(d, ins, cfg, hc, start, p);
    ghost var past := d.past;
    ghost var now := d.ctrs;
    if ok {
      var removed := d.Remove(ins.id);
      CarriedIs(fwd, Said(AskRemove(ins.id), removed), ins);
      fwd := fwd + [Said(AskRemove(ins.id), removed)];
      made := id;
      NewCovers(d.ctrs, id.value, p);
      OneMoreCall(old(d.past), past, d.ctrs, p);
      DoneIs(before, now, d.ctrs, p, id.value, removed);
    } else {
      if id.Some? {
        OtherStays(aside, id.value, now[id.value], p);
      }
      back := Rollback(d, ins, id, p);
      FrontIsOk(fwd);
      CoveredThroughout(old(d.past), past, d.past, p);
      BackAgain(before, now, d.ctrs, p, id, AllOk(back));
    }
  }

  lemma CarriedIs(fwd: seq<Said>, last: Said, ins: Inspect)
    requires UpToRefusal(fwd, true) && last.call == AskRemove(ins.id)
    ensures Carried(fwd + [last], [], ins) && Final(fwd + [last]) == last
  {
    assert (fwd + [last])[..|fwd|] == fwd;
  }

  lemma FrontIsOk(fwd: seq<Said>)
    requires fwd != [] && UpToRefusal(fwd, false)
    ensures AllOk(fwd[..|fwd| - 1]) && !Final(fwd).ok
  {
  }

  lemma DoneIs(before: Ctrs, now: Ctrs, after: Ctrs, p: Plan, made: Id, removed: bool)
    requires p.id in before && made !in before && made in now && now[made] == p.want
    requires now == Replaced(Replaced(before, p.id, p.was.(name := p.backup, running := false)), made, p.want)
    requires after == if removed then now - {p.id} else now
    ensures Done(before, after, p, made, removed) && OthersKept(before, after, p.id)
  {
  }

  lemma BackAgain(before: Ctrs, now: Ctrs, after: Ctrs, p: Plan, id: Option<Id>, undone: bool)
    requires p.id in before && before[p.id] == p.was
    requires id.Some? ==> id.value !in before && id.value in now
    requires var aside := Replaced(before, p.id, p.was.(name := p.backup, running := false));
             now == if id.Some? then Replaced(aside, id.value, now[id.value]) else aside
    requires undone ==> after == (if id.Some? then now - {id.value} else now)[p.id := p.was]
    requires forall k :: k in now && k != p.id && id != Some(k) ==> k in after && after[k] == now[k]
    ensures OthersKept(before, after, p.id) && (undone ==> after == before)
  {
    if undone {
      assert after.Keys == before.Keys;
      assert forall k :: k in before ==> after[k] == before[k];
      assert after == before;
    }
  }

  lemma NewCovers(s: Ctrs, id: Id, p: Plan)
    requires id in s && id != p.id && s[id] == p.want
    ensures Covered(s, p)
  {
  }

  lemma DoneHolds(before: Ctrs, after: Ctrs, p: Plan, made: Id, removed: bool)
    requires Done(before, after, p, made, removed)
    ensures made in after && after[made] == p.want
  {
  }

  function ThePlan(ins: Inspect, opts: Opts, img: Option<Config>, now: nat, was: Ctr, usual: string -> Networks): Plan {
    Plan(ins.id, was, BackupName(ins, now), Wanted(ins, opts, img, usual))
  }

  /** The calls the daemon was asked are `fwd` and, after a refusal, `back`; `pulled` is whether the image came. */
  method Recreate(d: Daemon, ins: Inspect, opts: Opts, img: Option<Config>, now: nat, pulled: bool)
    returns (made: Option<Id>, ghost fwd: seq<Said>, ghost back: seq<Said>)
    requires d.Valid() && ins.id in d.ctrs && Matches(d.ctrs[ins.id], ins) && "" !in Endpoints(ins)
    modifies d
    ensures d.Valid() && d.said == old(d.said) + fwd + back
    // which calls were made
    ensures opts.pull && !pulled ==> made.None? && fwd == [] && back == []
    ensures !(opts.pull && !pulled) ==>
      && (if made.Some? then Carried(fwd, back, ins) else TakenBack(fwd, back, ins))
      && (Calls(fwd) <= Opening(ins, BackupName(ins, now)) || Opening(ins, BackupName(ins, now)) <= Calls(fwd))
    // success
    ensures made.Some? ==>
      Done(old(d.ctrs), d.ctrs, ThePlan(ins, opts, img, now, old(d.ctrs)[ins.id], d.usual), made.value, Final(fwd).ok)
    ensures made.Some? ==> made.value in d.ctrs && AsAsked(d.ctrs[made.value], ins, opts, img)
    // failure: nothing happened, if the compensating calls succeeded; the old container is there in any case
    ensures made.None? && AllOk(back) ==> d.ctrs == old(d.ctrs) && d.names == old(d.names)
    ensures made.None? ==> StillThere(d.ctrs, ThePlan(ins, opts, img, now, old(d.ctrs)[ins.id], d.usual))
    ensures OthersKept(old(d.ctrs), d.ctrs, ins.id)
    // at every moment between, the old container exists or the new one is finished
    ensures CoveredSince(old(d.past), d.past, ThePlan(ins, opts, img, now, old(d.ctrs)[ins.id], d.usual))
  {
    hide Indexed, CoveredSince, Covered, Joined, Endpoints, NewConfig, NewHost, AsAsked, Done, BackupName, Calls, UpToRefusal, Carried,
         TakenBack, AllOk, Opening, Compensation;
    made, fwd, back := None, [], [];
    ghost var before, names, from := d.ctrs, d.names, d.past;
    ghost var p := ThePlan(ins, opts, img, now, d.ctrs[ins.id], d.usual);
    CoveredStart(d.past, p);
    if opts.pull && !pulled {
      return;
    }
    var cfg, hc := Describe(ins, opts, img);
    var backup := ins.name + "-dockhand-old-" + Itoa(now);
    assert p.backup == backup by { BackupIs(ins, now); }
    var aside;
    aside, fwd, back := SetAside(d, ins, p, backup);
    if aside {
      ghost var past := d.past;
      ghost var more;
      made, more, back := Swap(d, ins, cfg, hc, ins.running || opts.image != "" || opts.pull, p, before);
      CoveredThroughout(from, past, d.past, p);
      Outcome(fwd, more, back, ins, made.Some?);
      fwd := fwd + more;
    } else {
      SetAsideFailed(fwd, back, ins);
    }
    WantedIsAsAsked(ins, opts, img, d.usual);
    if made.Some? {
      DoneHolds(before, d.ctrs, p, made.value, Final(fwd).ok);
    }
    if made.None? && AllOk(back) {
      NamesFollow(before, d.names, names);
    }
  }

  /** The answers of both halves together. */
  lemma Outcome(a: seq<Said>, b: seq<Said>, back: seq<Said>, ins: Inspect, made: bool)
    requires UpToRefusal(a, true) && if made then Carried(b, back, ins) else TakenBack(b, back, ins)
    ensures b != [] && a + b != [] && Final(a + b) == Final(b) && Calls(a) <= Calls(a + b)
    ensures if made then Carried(a + b, back, ins) else TakenBack(a + b, back, ins)
  {
    hide Compensation;
    assert (a + b)[..|a + b| - 1] == a + b[..|b| - 1];
  }

  lemma SetAsideFailed(fwd: seq<Said>, back: seq<Said>, ins: Inspect)
    requires fwd != [] && UpToRefusal(fwd, false) && !Final(fwd).call.AskRemove?
    requires Calls(back) == Compensation(ins, Final(fwd).call)
    ensures TakenBack(fwd, back, ins)
  {
    hide Compensation;
  }

  lemma BackupIs(ins: Inspect, now: nat)
    ensures BackupName(ins, now) == ins.name + "-dockhand-old-" + Itoa(now)
  {
  }
}

/** What stripping is for (dockerops/containers.go, Recreate with Pull): a container that was made from one image with
    settings of the user's own is made again from the next image. When is it what the user's settings and the next
    image alone would give? */
module ImageUpdate {
  import opened Wrappers
  import opened Recreate

  /** The container after the update, and a new one with the user's settings. */
  function Updated(user: Config, from: Config, to: Config, bound: set<string>): Config {
    Applied(Stripped(Applied(user, from), from, bound), to)
  }

  // ---------------------------------------------------------------- what is kept of each setting

  /** A setting that repeats the old image's value is taken for the image's. */
  predicate TextKept(own: string, from: string, to: string) { own == "" || own != from || own == to }

  predicate EnvKept(own: seq<string>, from: seq<string>, to: seq<string>) {
    forall e :: e in own && e in from ==> e in to
  }

  predicate LabelsKept(own: map<string, string>, from: map<string, string>, to: map<string, string>) {
    forall k :: k in own && k in from && from[k] == own[k] ==> k in to && to[k] == own[k]
  }

  /** A port of the old image stays exactly when it is published, instead of when the user exposed it. */
  predicate PortsKept(own: set<string>, from: set<string>, to: set<string>, bound: set<string>) {
    forall p :: p in from && p !in to ==> (p in own <==> p in bound)
  }

  predicate VolumesKept(own: set<string>, from: set<string>, to: set<string>) {
    forall v :: v in own && v in from ==> v in to
  }

  predicate EntrypointKept(user: Config, from: Config, to: Config) {
    user.entrypoint.Some? && Words(user.entrypoint) == Words(from.entrypoint) ==> Words(to.entrypoint) == Words(user.entrypoint)
  }

  /** The user leaves the command to the image, or has another one than the old image, or gets it from the new one,
      which gives its command where the entry point is not the user's own. */
  predicate CommandKept(user: Config, from: Config, to: Config) {
    || (Words(user.entrypoint) == [] && user.cmd == [])
    || (user.cmd != [] && user.cmd != from.cmd)
    || user.cmd == if Words(user.entrypoint) in {[], Words(from.entrypoint)} then to.cmd else []
  }

  predicate TimeKept(own: int, from: int, to: int) { own != 0 || from == 0 || from == to }
  predicate TimeRepeated(own: int, to: int) { own == 0 || own == to }

  /** A health check with a command of the user's own keeps it, and the old image's times where the user gave none.
      Any other one is dropped with the old image's. */
  predicate HealthKept(user: Option<Health>, from: Option<Health>, to: Option<Health>) {
    user.Some? && from.Some? ==>
      var u, f, t := user.value, from.value, if to.Some? then to.value else Health([], 0, 0, 0, 0);
      if u.test == [] || u.test == f.test then
        && to.Some? && (u.test == [] || u.test == t.test) && TimeRepeated(u.interval, t.interval)
        && TimeRepeated(u.timeout, t.timeout) && TimeRepeated(u.startPeriod, t.startPeriod) && TimeRepeated(u.retries, t.retries)
      else
        && TimeKept(u.interval, f.interval, t.interval) && TimeKept(u.timeout, f.timeout, t.timeout)
        && TimeKept(u.startPeriod, f.startPeriod, t.startPeriod) && TimeKept(u.retries, f.retries, t.retries)
  }

  predicate AllKept(user: Config, from: Config, to: Config, bound: set<string>) {
    && EnvKept(user.env, from.env, to.env) && EntrypointKept(user, from, to) && CommandKept(user, from, to)
    && TextKept(user.workingDir, from.workingDir, to.workingDir) && TextKept(user.user, from.user, to.user)
    && LabelsKept(user.labels, from.labels, to.labels) && PortsKept(user.ports, from.ports, to.ports, bound)
    && VolumesKept(user.volumes, from.volumes, to.volumes) && HealthKept(user.health, from.health, to.health)
  }

  // ---------------------------------------------------------------- field by field

  lemma EnvAsFresh(own: seq<string>, from: seq<string>, to: seq<string>)
    requires DistinctKeys(own) && DistinctKeys(from) && DistinctKeys(to)
    ensures var got := MergedEnv(Without(MergedEnv(own, from), from), to);
            && DistinctKeys(got) && DistinctKeys(MergedEnv(own, to))
            && ((set e | e in got) == (set e | e in MergedEnv(own, to)) <==> EnvKept(own, from, to))
  {
    var rest := Without(MergedEnv(own, from), from);
    var got, want := MergedEnv(rest, to), MergedEnv(own, to);
    MergedDistinct(own, from);
    WithoutDistinct(MergedEnv(own, from), from);
    MergedDistinct(rest, to);
    MergedDistinct(own, to);
    hide MergedEnv, Without, HasKey, DistinctKeys, EnvKept;
    RestHas(own, from);
    if EnvKept(own, from, to) {
      forall e ensures e in got <==> e in want {
        MergedHas(rest, to, e);
        MergedHas(own, to, e);
        KeysOfRest(own, rest, from, to, e);
      }
    }
    SameElements(got, want);
    if (set e | e in got) == (set e | e in want) {
      RepeatedAreNew(own, from, to);
    }
  }

  lemma SameElements(a: seq<string>, b: seq<string>)
    ensures (set e | e in a) == (set e | e in b) <==> forall e :: e in a <==> e in b
  {
    var x, y := (set e | e in a), (set e | e in b);
    assert forall e :: e in a <==> e in x;
    assert forall e :: e in b <==> e in y;
  }

  lemma RestHas(own: seq<string>, from: seq<string>)
    requires DistinctKeys(from)
    ensures forall e :: e in Without(MergedEnv(own, from), from) <==> e in own && e !in from
  {
    forall e ensures e in Without(MergedEnv(own, from), from) <==> e in own && e !in from {
      WithoutHas(MergedEnv(own, from), from, e);
      MergedHas(own, from, e);
    }
  }

  lemma RepeatedAreNew(own: seq<string>, from: seq<string>, to: seq<string>)
    requires DistinctKeys(from) && DistinctKeys(to)
    requires forall e :: e in MergedEnv(Without(MergedEnv(own, from), from), to) <==> e in MergedEnv(own, to)
    ensures EnvKept(own, from, to)
  {
    hide MergedEnv, Without, HasKey, DistinctKeys;
    var rest := Without(MergedEnv(own, from), from);
    var got, want := MergedEnv(rest, to), MergedEnv(own, to);
    RestHas(own, from);
    forall e | e in own && e in from ensures e in to {
      MergedHas(own, to, e);
      MergedHas(rest, to, e);
      assert e in want && e in got;
    }
  }

  lemma KeysOfRest(own: seq<string>, rest: seq<string>, from: seq<string>, to: seq<string>, e: string)
    requires DistinctKeys(own) && DistinctKeys(to) && EnvKept(own, from, to)
    requires forall x :: x in rest <==> x in own && x !in from
    ensures e in rest || (e in to && !HasKey(rest, e)) <==> e in own || (e in to && !HasKey(own, e))
  {
    if HasKey(rest, e) {
      var i :| 0 <= i < |rest| && KeyOf(rest[i]) == KeyOf(e);
      EntryGivesKey(own, rest[i], e);
      if e in own {
        OneEntry(own, rest[i], e);
      }
    }
    if HasKey(own, e) && e in to {
      var i :| 0 <= i < |own| && KeyOf(own[i]) == KeyOf(e);
      if own[i] in from {
        OneEntry(to, own[i], e);
      } else {
        EntryGivesKey(rest, own[i], e);
      }
    }
  }

  lemma TextsAsFresh(user: Config, from: Config, to: Config, bound: set<string>)
    ensures var got, want := Updated(user, from, to, bound), Applied(user, to);
            && got.image == want.image && got.hostname == want.hostname
            && (got.workingDir == want.workingDir <==> TextKept(user.workingDir, from.workingDir, to.workingDir))
            && (got.user == want.user <==> TextKept(user.user, from.user, to.user))
  {
    hide MergedEnv, Without;
  }

  lemma SetsAsFresh(user: Config, from: Config, to: Config, bound: set<string>)
    ensures var got, want := Updated(user, from, to, bound), Applied(user, to);
            && (got.ports == want.ports <==> PortsKept(user.ports, from.ports, to.ports, bound))
            && (got.volumes == want.volumes <==> VolumesKept(user.volumes, from.volumes, to.volumes))
  {
    hide MergedEnv, Without;
    var got, want := Updated(user, from, to, bound), Applied(user, to);
    assert forall p :: p in got.ports <==> p in to.ports || (p in user.ports + from.ports && (p !in from.ports || p in bound));
    assert forall v :: v in got.volumes <==> v in to.volumes || (v in user.volumes && v !in from.volumes);
    assert forall p :: p in want.ports <==> p in user.ports + to.ports;
    assert forall v :: v in want.volumes <==> v in user.volumes + to.volumes;
  }

  lemma LabelsAsFresh(user: Config, from: Config, to: Config, bound: set<string>)
    ensures Updated(user, from, to, bound).labels == Applied(user, to).labels <==> LabelsKept(user.labels, from.labels, to.labels)
  {
    hide MergedEnv, Without;
    var got, want := Updated(user, from, to, bound).labels, Applied(user, to).labels;
    var kept := Stripped(Applied(user, from), from, bound).labels;
    assert got == to.labels + kept && want == to.labels + user.labels;
    assert forall k :: k in kept <==> k in user.labels && !(k in from.labels && from.labels[k] == user.labels[k]);
    assert forall k :: k in kept ==> kept[k] == user.labels[k];
    if LabelsKept(user.labels, from.labels, to.labels) {
      assert got.Keys == want.Keys;
      assert forall k :: k in got ==> got[k] == want[k];
    } else {
      var k :| k in user.labels && k in from.labels && from.labels[k] == user.labels[k] && !(k in to.labels && to.labels[k] == user.labels[k]);
      assert k in want && want[k] == user.labels[k] && k !in kept;
    }
  }

  lemma CommandAsFresh(user: Config, from: Config, to: Config, bound: set<string>)
    ensures var got, want := Updated(user, from, to, bound), Applied(user, to);
            && (Words(got.entrypoint) == Words(want.entrypoint) <==> EntrypointKept(user, from, to))
            && (got.cmd == want.cmd <==> CommandKept(user, from, to))
  {
    hide MergedEnv, Without;
  }

  lemma HealthAsFresh(user: Config, from: Config, to: Config, bound: set<string>)
    ensures Updated(user, from, to, bound).health == Applied(user, to).health <==> HealthKept(user.health, from.health, to.health)
  {
    hide MergedEnv, Without;
  }

  /** An update gives what the user's settings give with the new image, exactly when none of them repeats a value
      of the old image that the new one does not have. */
  lemma UpdateIsAsFresh(user: Config, from: Config, to: Config, bound: set<string>)
    requires DistinctKeys(user.env) && DistinctKeys(from.env) && DistinctKeys(to.env)
    ensures SameEffect(Updated(user, from, to, bound), Applied(user, to)) <==> AllKept(user, from, to, bound)
  {
    var got, want := Updated(user, from, to, bound), Applied(user, to);
    assert got.env == MergedEnv(Without(MergedEnv(user.env, from.env), from.env), to.env) && want.env == MergedEnv(user.env, to.env) by {
      hide MergedEnv, Without;
    }
    EnvAsFresh(user.env, from.env, to.env);
    TextsAsFresh(user, from, to, bound);
    SetsAsFresh(user, from, to, bound);
    LabelsAsFresh(user, from, to, bound);
    CommandAsFresh(user, from, to, bound);
    HealthAsFresh(user, from, to, bound);
    hide Updated, Applied, MergedEnv, Without, DistinctKeys, EnvKept, EntrypointKept, CommandKept, TextKept, LabelsKept, PortsKept,
         VolumesKept, HealthKept;
    assert got == want.(env := got.env, entrypoint := got.entrypoint) <==>
      && got.image == want.image && got.hostname == want.hostname && got.user == want.user && got.workingDir == want.workingDir
      && got.cmd == want.cmd && got.labels == want.labels && got.ports == want.ports && got.volumes == want.volumes
      && got.health == want.health;
  }

  /** So it does whenever the user repeats nothing of the old image, however the new one differs. */
  lemma NothingRepeated(user: Config, from: Config, to: Config, bound: set<string>)
    requires DistinctKeys(user.env) && DistinctKeys(from.env) && DistinctKeys(to.env)
    requires (forall e :: e in user.env ==> e !in from.env) && user.entrypoint.None? && user.health.None?
    requires user.cmd == [] || user.cmd != from.cmd
    requires user.workingDir == "" || user.workingDir != from.workingDir
    requires user.user == "" || user.user != from.user
    requires forall k :: k in user.labels && k in from.labels ==> from.labels[k] != user.labels[k]
    requires user.ports !! from.ports && user.volumes !! from.volumes && bound !! from.ports
    ensures SameEffect(Updated(user, from, to, bound), Applied(user, to))
  {
    UpdateIsAsFresh(user, from, to, bound);
  }
}

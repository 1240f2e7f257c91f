/** The settings cache and the table rows behind it (settings/settings.go). A section is one record of the
    settings structure; a row holds the JSON object of one section. Times, rows of other keys and the texts of
    errors are left out; encoding/json is modelled by what it does to these structures, with exact key names. */
module Settings {
  import opened Wrappers
  import opened Strings

  // ---------------------------------------------------------------- JSON values and deepMerge

  datatype Json = Null | Bool(b: bool) | Num(r: real) | Str(s: string) | Arr(items: seq<Json>) | Obj(fields: Object)
  type Object = map<string, Json>

  function Merge(base: Json, patch: Json): Json
    decreases patch
  {
    if base.Obj? && patch.Obj? then
      Obj(map k | k in base.fields.Keys + patch.fields.Keys ::
            if k !in patch.fields then base.fields[k]
            else if k in base.fields then Merge(base.fields[k], patch.fields[k])
            else patch.fields[k])
    else patch
  }

  function DeepMerge(base: Object, patch: Object): Object { Merge(Obj(base), Obj(patch)).fields }

  /** Every key of every object of `base` is in the same object of `patch`. */
  ghost predicate Covers(base: Json, patch: Json)
    decreases patch
  {
    base.Obj? && patch.Obj? ==>
      && base.fields.Keys <= patch.fields.Keys
      && forall k :: k in base.fields ==> Covers(base.fields[k], patch.fields[k])
  }

  /** Laying a value over another gives that value back exactly when it covers the other. */
  lemma {:induction false} MergeAbsorbs(base: Json, patch: Json)
    ensures Merge(base, patch) == patch <==> Covers(base, patch)
    decreases patch
  {
    if base.Obj? && patch.Obj? {
      forall k | k in base.fields && k in patch.fields
        ensures Merge(base.fields[k], patch.fields[k]) == patch.fields[k] <==> Covers(base.fields[k], patch.fields[k])
      {
        MergeAbsorbs(base.fields[k], patch.fields[k]);
      }
      var out := Merge(base, patch);
      if out == patch {
        assert base.fields.Keys <= out.fields.Keys;
        forall k | k in base.fields ensures Covers(base.fields[k], patch.fields[k]) {
          assert out.fields[k] == patch.fields[k];
        }
      }
      if Covers(base, patch) {
        assert out.fields == patch.fields;
      }
    }
  }

  lemma {:induction false} CoversItself(j: Json)
    ensures Covers(j, j)
    decreases j
  {
    if j.Obj? {
      forall k | k in j.fields ensures Covers(j.fields[k], j.fields[k]) {
        CoversItself(j.fields[k]);
      }
    }
  }

  lemma MergeIdempotent(j: Json)
    ensures Merge(j, j) == j
  {
    CoversItself(j);
    MergeAbsorbs(j, j);
  }

  /** The order in which three values are merged does not matter, unless the middle one has a plain value where
      the outer ones have objects and the last does not cover the first there. */
  ghost predicate Associates(a: Json, b: Json, c: Json)
    decreases c
  {
    a.Obj? && c.Obj? ==>
      if b.Obj? then
        forall k :: k in a.fields && k in b.fields && k in c.fields ==> Associates(a.fields[k], b.fields[k], c.fields[k])
      else Covers(a, c)
  }

  ghost predicate MergesAgree(a: Json, b: Json, c: Json) { Merge(Merge(a, b), c) == Merge(a, Merge(b, c)) }

  lemma {:induction false} MergeAssociates(a: Json, b: Json, c: Json)
    ensures Merge(Merge(a, b), c) == Merge(a, Merge(b, c)) <==> Associates(a, b, c)
    decreases c
  {
    if a.Obj? && c.Obj? {
      if b.Obj? {
        forall k | k in a.fields && k in b.fields && k in c.fields
          ensures MergesAgree(a.fields[k], b.fields[k], c.fields[k]) <==> Associates(a.fields[k], b.fields[k], c.fields[k])
        {
          MergeAssociates(a.fields[k], b.fields[k], c.fields[k]);
        }
        MergeKeys(a, b, c);
        assert MergesAgree(a, b, c) <==> Associates(a, b, c);
      } else {
        MergeAbsorbs(a, c);
      }
    }
  }

  lemma MergeAt(base: Json, patch: Json, k: string)
    requires base.Obj? && patch.Obj?
    ensures Merge(base, patch).Obj? && Merge(base, patch).fields.Keys == base.fields.Keys + patch.fields.Keys
    ensures k in patch.fields && k !in base.fields ==> Merge(base, patch).fields[k] == patch.fields[k]
    ensures k !in patch.fields && k in base.fields ==> Merge(base, patch).fields[k] == base.fields[k]
    ensures k in patch.fields && k in base.fields ==> Merge(base, patch).fields[k] == Merge(base.fields[k], patch.fields[k])
  {
  }

  lemma MergesAt(a: Json, b: Json, c: Json, k: string)
    requires a.Obj? && b.Obj? && c.Obj? && k in a.fields.Keys + b.fields.Keys + c.fields.Keys
    ensures var left, right := Merge(Merge(a, b), c), Merge(a, Merge(b, c));
            && left.Obj? && right.Obj? && k in left.fields && k in right.fields
            && (left.fields[k] == right.fields[k] <==>
                 (k in a.fields && k in b.fields && k in c.fields ==> MergesAgree(a.fields[k], b.fields[k], c.fields[k])))
  {
    MergeAt(a, b, k);
    MergeAt(b, c, k);
    MergeAt(Merge(a, b), c, k);
    MergeAt(a, Merge(b, c), k);
    hide Merge;
  }

  lemma MergeKeys(a: Json, b: Json, c: Json)
    requires a.Obj? && b.Obj? && c.Obj?
    ensures MergesAgree(a, b, c) <==>
      forall k :: k in a.fields && k in b.fields && k in c.fields ==> MergesAgree(a.fields[k], b.fields[k], c.fields[k])
  {
    hide Merge;
    var left, right := Merge(Merge(a, b), c), Merge(a, Merge(b, c));
    MergeAt(a, b, "");
    MergeAt(b, c, "");
    MergeAt(Merge(a, b), c, "");
    MergeAt(a, Merge(b, c), "");
    forall k | k in left.fields
      ensures left.fields[k] == right.fields[k] <==>
        (k in a.fields && k in b.fields && k in c.fields ==> MergesAgree(a.fields[k], b.fields[k], c.fields[k]))
    {
      MergesAt(a, b, c, k);
      hide MergesAgree;
    }
    assert left == right <==> left.fields == right.fields;
  }

  // ---------------------------------------------------------------- the settings

  datatype ToolPref = ToolPref(enabled: bool, confirm: bool)

  /** One section; a nil slice or map is None. */
  datatype Section =
    | General(publicUrl: string, domain: string)
    | Uptime(intervalSec: int, retries: int, hostIds: Option<seq<string>>, autoMonitor: bool, notify: bool, publicStatus: bool)
    | GitHub(autoDeploy: bool, waitChecks: bool, onlyCompose: bool, secretEnc: string)
    | MCP(enabled: bool, transport: string, port: int, tools: Option<map<string, ToolPref>>)
    | Updates(auto: bool, channel: string, window: string, backup: bool, build: string, redeployOnPush: bool, repo: string,
              composeFile: string, timezone: string)
    | Notifications(hostDown: bool, containerCrash: bool, unhealthy: bool, updates: bool, diskSpace: bool, deploys: bool,
                    digest: bool)
    | Registry(on: bool, address: string)

  /** A section's key in the table; any other key names none. */
  datatype Key = KGeneral | KUptime | KGitHub | KMCP | KUpdates | KNotifications | KRegistry | Unknown(name: string)

  predicate Known(k: Key) { !k.Unknown? }

  /** The keys of a whole structure. */
  ghost predicate Full(keys: set<Key>) { forall k :: k in keys <==> Known(k) }

  predicate AllKnown(keys: set<Key>) { forall k :: k in keys ==> Known(k) }

  function KeyOf(sec: Section): (k: Key)
    ensures Known(k)
  {
    match sec
    case General(_, _) => KGeneral
    case Uptime(_, _, _, _, _, _) => KUptime
    case GitHub(_, _, _, _) => KGitHub
    case MCP(_, _, _, _) => KMCP
    case Updates(_, _, _, _, _, _, _, _, _) => KUpdates
    case Notifications(_, _, _, _, _, _, _) => KNotifications
    case Registry(_, _) => KRegistry
  }

  type Settings = map<Key, Section>

  /** The whole structure: each section under its key. */
  ghost predicate Whole(s: Settings) { forall k :: (k in s <==> Known(k)) && (k in s ==> KeyOf(s[k]) == k) }

  // ---------------------------------------------------------------- to JSON and back

  function ListJson(l: Option<seq<string>>): Json {
    if l.None? then Null else Arr(seq(|l.value|, i requires 0 <= i < |l.value| => Str(l.value[i])))
  }

  function PrefJson(p: ToolPref): Json { Obj(map["enabled" := Bool(p.enabled), "confirm" := Bool(p.confirm)]) }

  function ToolsJson(t: Option<map<string, ToolPref>>): Json {
    if t.None? then Null else Obj(map n | n in t.value :: PrefJson(t.value[n]))
  }

  /** One section of toMap. */
  function Encode(sec: Section): Object {
    match sec
    case General(u, d) => map["publicUrl" := Str(u), "domain" := Str(d)]
    case Uptime(i, r, h, a, n, p) =>
      map["intervalSec" := Num(i as real), "retries" := Num(r as real), "hostIds" := ListJson(h), "autoMonitor" := Bool(a),
          "notify" := Bool(n), "publicStatus" := Bool(p)]
    case GitHub(a, w, o, s) =>
      var m := map["autoDeploy" := Bool(a), "waitChecks" := Bool(w), "onlyCompose" := Bool(o)];
      if s == "" then m else m["secretEnc" := Str(s)]
    case MCP(e, t, p, tools) =>
      map["enabled" := Bool(e), "transport" := Str(t), "port" := Num(p as real), "tools" := ToolsJson(tools)]
    case Updates(a, c, w, b, bu, rd, re, cf, tz) =>
      map["auto" := Bool(a), "channel" := Str(c), "window" := Str(w), "backup" := Bool(b), "build" := Str(bu),
          "redeployOnPush" := Bool(rd), "repo" := Str(re), "composeFile" := Str(cf), "timezone" := Str(tz)]
    case Notifications(h, c, u, up, ds, de, di) =>
      map["hostDown" := Bool(h), "containerCrash" := Bool(c), "unhealthy" := Bool(u), "updates" := Bool(up),
          "diskSpace" := Bool(ds), "deploys" := Bool(de), "digest" := Bool(di)]
    case Registry(e, a) => map["enabled" := Bool(e), "address" := Str(a)]
  }

  /** A missing key or null leaves a field at its zero value. */
  function At(m: Object, k: string): Json { if k in m then m[k] else Null }

  predicate IsText(m: Object, k: string) { At(m, k).Null? || At(m, k).Str? }
  function Text(m: Object, k: string): string { if At(m, k).Str? then At(m, k).s else "" }

  predicate IsFlag(m: Object, k: string) { At(m, k).Null? || At(m, k).Bool? }
  function Flag(m: Object, k: string): bool { At(m, k).Bool? && At(m, k).b }

  predicate IsInt(m: Object, k: string) { At(m, k).Null? || (At(m, k).Num? && At(m, k).r.Floor as real == At(m, k).r) }
  function Int(m: Object, k: string): int { if At(m, k).Num? then At(m, k).r.Floor else 0 }

  predicate IsList(m: Object, k: string) {
    At(m, k).Null? || (At(m, k).Arr? && forall j :: j in At(m, k).items ==> j.Null? || j.Str?)
  }
  function List(m: Object, k: string): Option<seq<string>> {
    if At(m, k).Arr? then
      var items := At(m, k).items;
      Some(seq(|items|, i requires 0 <= i < |items| => if items[i].Str? then items[i].s else ""))
    else None
  }

  predicate IsPref(j: Json) { j.Null? || (j.Obj? && IsFlag(j.fields, "enabled") && IsFlag(j.fields, "confirm")) }
  function Pref(j: Json): ToolPref {
    if j.Obj? then ToolPref(Flag(j.fields, "enabled"), Flag(j.fields, "confirm")) else ToolPref(false, false)
  }
  predicate IsTools(m: Object, k: string) {
    At(m, k).Null? || (At(m, k).Obj? && forall n :: n in At(m, k).fields ==> IsPref(At(m, k).fields[n]))
  }
  function Tools(m: Object, k: string): Option<map<string, ToolPref>> {
    if At(m, k).Obj? then Some(map n | n in At(m, k).fields :: Pref(At(m, k).fields[n])) else None
  }

  /** The object's values have the types of the section's fields; unknown keys do not matter. */
  predicate Fits(k: Key, m: Object) {
    if k == KGeneral then IsText(m, "publicUrl") && IsText(m, "domain")
    else if k == KUptime then
      && IsInt(m, "intervalSec") && IsInt(m, "retries") && IsList(m, "hostIds") && IsFlag(m, "autoMonitor")
      && IsFlag(m, "notify") && IsFlag(m, "publicStatus")
    else if k == KGitHub then
      IsFlag(m, "autoDeploy") && IsFlag(m, "waitChecks") && IsFlag(m, "onlyCompose") && IsText(m, "secretEnc")
    else if k == KMCP then IsFlag(m, "enabled") && IsText(m, "transport") && IsInt(m, "port") && IsTools(m, "tools")
    else if k == KUpdates then
      && IsFlag(m, "auto") && IsText(m, "channel") && IsText(m, "window") && IsFlag(m, "backup") && IsText(m, "build")
      && IsFlag(m, "redeployOnPush") && IsText(m, "repo") && IsText(m, "composeFile") && IsText(m, "timezone")
    else if k == KNotifications then
      && IsFlag(m, "hostDown") && IsFlag(m, "containerCrash") && IsFlag(m, "unhealthy") && IsFlag(m, "updates")
      && IsFlag(m, "diskSpace") && IsFlag(m, "deploys") && IsFlag(m, "digest")
    else IsFlag(m, "enabled") && IsText(m, "address")
  }

  function Decoded(k: Key, m: Object): (sec: Section)
    requires Known(k)
    ensures KeyOf(sec) == k
  {
    if k == KGeneral then General(Text(m, "publicUrl"), Text(m, "domain"))
    else if k == KUptime then
      Uptime(Int(m, "intervalSec"), Int(m, "retries"), List(m, "hostIds"), Flag(m, "autoMonitor"), Flag(m, "notify"),
             Flag(m, "publicStatus"))
    else if k == KGitHub then
      GitHub(Flag(m, "autoDeploy"), Flag(m, "waitChecks"), Flag(m, "onlyCompose"), Text(m, "secretEnc"))
    else if k == KMCP then MCP(Flag(m, "enabled"), Text(m, "transport"), Int(m, "port"), Tools(m, "tools"))
    else if k == KUpdates then
      Updates(Flag(m, "auto"), Text(m, "channel"), Text(m, "window"), Flag(m, "backup"), Text(m, "build"),
              Flag(m, "redeployOnPush"), Text(m, "repo"), Text(m, "composeFile"), Text(m, "timezone"))
    else if k == KNotifications then
      Notifications(Flag(m, "hostDown"), Flag(m, "containerCrash"), Flag(m, "unhealthy"), Flag(m, "updates"),
                    Flag(m, "diskSpace"), Flag(m, "deploys"), Flag(m, "digest"))
    else Registry(Flag(m, "enabled"), Text(m, "address"))
  }

  type Tree = map<Key, Object>

  function ToMap(s: Settings): Tree { map k | k in s :: Encode(s[k]) }

  /** None when some value has the wrong type. */
  function FromMap(m: Tree): (s: Option<Settings>)
    requires Full(m.Keys)
    ensures s.Some? ==> Whole(s.value)
  {
    if forall k :: k in m ==> Fits(k, m[k]) then Some(map k | k in m :: Decoded(k, m[k])) else None
  }

  lemma ToolsReadBack(m: Object, k: string, t: Option<map<string, ToolPref>>)
    requires k in m && m[k] == ToolsJson(t)
    ensures IsTools(m, k) && Tools(m, k) == t
  {
    if t.Some? {
      var back := Tools(m, k).value;
      forall n | n in t.value ensures back[n] == t.value[n] {
        assert m[k].fields[n] == PrefJson(t.value[n]);
      }
      assert back == t.value;
    }
  }

  lemma ListReadsBack(m: Object, k: string, l: Option<seq<string>>)
    requires k in m && m[k] == ListJson(l)
    ensures IsList(m, k) && List(m, k) == l
  {
    if l.Some? {
      assert List(m, k).value == l.value;
    }
  }

  predicate ReadsBack(sec: Section) { Fits(KeyOf(sec), Encode(sec)) && Decoded(KeyOf(sec), Encode(sec)) == sec }

  lemma GeneralReadsBack(sec: Section)
    requires sec.General?
    ensures ReadsBack(sec)
  {
  }

  lemma UptimeReadsBack(sec: Section)
    requires sec.Uptime?
    ensures ReadsBack(sec)
  {
    ListReadsBack(Encode(sec), "hostIds", sec.hostIds);
  }

  lemma GitHubReadsBack(sec: Section)
    requires sec.GitHub?
    ensures ReadsBack(sec)
  {
  }

  lemma MCPReadsBack(sec: Section)
    requires sec.MCP?
    ensures ReadsBack(sec)
  {
    ToolsReadBack(Encode(sec), "tools", sec.tools);
  }

  lemma UpdatesReadsBack(sec: Section)
    requires sec.Updates?
    ensures ReadsBack(sec)
  {
  }

  lemma NotificationsFit(sec: Section)
    requires sec.Notifications?
    ensures Fits(KNotifications, Encode(sec))
  {
  }

  lemma NotificationsDecode(sec: Section)
    requires sec.Notifications?
    ensures Decoded(KNotifications, Encode(sec)) == sec
  {
  }

  lemma NotificationsReadsBack(sec: Section)
    requires sec.Notifications?
    ensures ReadsBack(sec)
  {
    hide Encode, Fits, Decoded;
    NotificationsFit(sec);
    NotificationsDecode(sec);
  }

  lemma RegistryReadsBack(sec: Section)
    requires sec.Registry?
    ensures ReadsBack(sec)
  {
  }

  /** What is written of a section is read back as that section. */
  lemma SectionReadsBack(sec: Section)
    ensures Fits(KeyOf(sec), Encode(sec)) && Decoded(KeyOf(sec), Encode(sec)) == sec
  {
    assert ReadsBack(sec) by {
      hide Encode, Decoded, Fits, ReadsBack;
      match sec
      case General(_, _) => GeneralReadsBack(sec);
      case Uptime(_, _, _, _, _, _) => UptimeReadsBack(sec);
      case GitHub(_, _, _, _) => GitHubReadsBack(sec);
      case MCP(_, _, _, _) => MCPReadsBack(sec);
      case Updates(_, _, _, _, _, _, _, _, _) => UpdatesReadsBack(sec);
      case Notifications(_, _, _, _, _, _, _) => NotificationsReadsBack(sec);
      case Registry(_, _) => RegistryReadsBack(sec);
    }
  }

  /** fromMap undoes toMap. */
  lemma SettingsReadBack(s: Settings)
    requires Whole(s)
    ensures FromMap(ToMap(s)) == Some(s)
  {
    hide Encode, Decoded, Fits;
    forall k | k in s ensures Fits(k, ToMap(s)[k]) && Decoded(k, ToMap(s)[k]) == s[k] {
      SectionReadsBack(s[k]);
    }
    assert FromMap(ToMap(s)).value == s;
  }

  // ---------------------------------------------------------------- validate and normalize

  function TrimSlashes(s: string): string {
    if s != "" && s[|s| - 1] == '/' then TrimSlashes(s[..|s| - 1]) else s
  }

  function TrimUrl(u: string): string { TrimSlashes(TrimSpace(u)) }

  function CleanAddress(a: string): string {
    TrimSuffix(TrimPrefix(TrimPrefix(TrimSpace(a), "https://"), "http://"), "/")
  }

  /** The two checks that live outside this package. */
  datatype Rules = Rules(knownZone: string -> bool, goodWindow: string -> bool)

  /** validate accepts the section. */
  predicate Accepted(sec: Section, rules: Rules) {
    match sec
    case Uptime(i, r, _, _, _, _) => i in {30, 60, 300} && 1 <= r <= 3
    case MCP(_, t, p, _) => t in {"http", "sse"} && (p == 0 || 1024 <= p <= 65535)
    case Updates(_, c, w, _, b, _, _, _, tz) =>
      && c in {"stable", "beta", "nightly"} && b in {"pull", "build"}
      && (TrimSpace(tz) == "" || rules.knownZone(TrimSpace(tz))) && rules.goodWindow(w)
    case Registry(_, a) => !ContainsAny(CleanAddress(a), "/ ")
    case _ => true
  }

  /** What validate leaves of an accepted section. */
  function Fixed(sec: Section): (out: Section)
    ensures KeyOf(out) == KeyOf(sec)
  {
    match sec
    case General(u, d) => General(TrimUrl(u), TrimSpace(d))
    case Updates(_, _, _, _, _, _, _, _, tz) => sec.(timezone := TrimSpace(tz))
    case Registry(_, a) => sec.(address := CleanAddress(a))
    case _ => sec
  }

  const OLD_REPO: string := "dockhand-app/dockhand"

  /** normalize, with the same section of the defaults. */
  function Normal(sec: Section, d: Section): (out: Section)
    requires KeyOf(d) == KeyOf(sec)
    ensures KeyOf(out) == KeyOf(sec)
  {
    match sec
    case General(u, _) => if u == "" then sec.(publicUrl := d.publicUrl) else sec
    case Uptime(_, _, h, _, _, _) => if h.None? then sec.(hostIds := Some([])) else sec
    case MCP(_, _, _, t) =>
      var mine := if t.None? then map[] else t.value;
      sec.(tools := Some((if d.tools.None? then map[] else d.tools.value) + mine))
    case Updates(_, _, _, _, _, _, r, _, _) => if r == "" || r == OLD_REPO then sec.(repo := d.repo) else sec
    case _ => sec
  }

  lemma NormalTwice(sec: Section, d: Section)
    requires KeyOf(d) == KeyOf(sec)
    ensures Normal(Normal(sec, d), d) == Normal(sec, d)
  {
    if sec.MCP? {
      assert Normal(Normal(sec, d), d).tools.value == Normal(sec, d).tools.value;
    }
  }

  /** What a patch leaves of a section it does not name. */
  function Settle(sec: Section, d: Section): (out: Section)
    requires KeyOf(d) == KeyOf(sec)
    ensures KeyOf(out) == KeyOf(sec)
  {
    Normal(Fixed(sec), d)
  }

  // ---------------------------------------------------------------- load

  type Rows = map<Key, Json>

  /** The JSON object of a section after the defaults are overlaid with its row; a row that is no object is
      passed over. */
  function Overlay(d: Object, rows: Rows, k: Key): Object {
    if k in rows && rows[k].Obj? then DeepMerge(d, rows[k].fields) else d
  }

  function Loaded(ds: Settings, rows: Rows): (s: Option<Settings>)
    requires Whole(ds)
    ensures s.Some? ==> Whole(s.value)
  {
    var s := FromMap(map k | k in ds :: Overlay(Encode(ds[k]), rows, k));
    if s.Some? then Some(map k | k in ds :: Normal(s.value[k], ds[k])) else None
  }

  /** Load would read back the cache. */
  ghost predicate InSync(ds: Settings, cur: Settings, rows: Rows)
    requires Whole(ds)
  {
    Loaded(ds, rows) == Some(cur)
  }

  /** One section of Loaded. */
  function Reloaded(d: Section, rows: Rows): Option<Section> {
    var m := Overlay(Encode(d), rows, KeyOf(d));
    if Fits(KeyOf(d), m) then Some(Normal(Decoded(KeyOf(d), m), d)) else None
  }

  lemma LoadedBySection(ds: Settings, rows: Rows, cur: Settings)
    requires Whole(ds) && Whole(cur)
    ensures InSync(ds, cur, rows) <==> forall k :: k in ds ==> Reloaded(ds[k], rows) == Some(cur[k])
  {
    hide Reloaded, Loaded, InSync;
    LoadedSections(ds, rows, cur);
    if forall k :: k in ds ==> Reloaded(ds[k], rows) == Some(cur[k]) {
      LoadedFromSections(ds, rows, cur);
    }
  }

  lemma LoadedFromSections(ds: Settings, rows: Rows, cur: Settings)
    requires Whole(ds) && Whole(cur) && forall k :: k in ds ==> Reloaded(ds[k], rows) == Some(cur[k])
    ensures InSync(ds, cur, rows)
  {
    hide Encode, Decoded, Fits, Normal, Overlay;
    var m := map k | k in ds :: Overlay(Encode(ds[k]), rows, k);
    forall k | k in m ensures Fits(k, m[k]) {
      assert Reloaded(ds[k], rows).Some?;
    }
    assert Loaded(ds, rows).value == cur;
  }

  lemma LoadedSections(ds: Settings, rows: Rows, cur: Settings)
    requires Whole(ds) && Whole(cur)
    ensures InSync(ds, cur, rows) ==> forall k :: k in ds ==> Reloaded(ds[k], rows) == Some(cur[k])
  {
    hide Encode, Decoded, Fits, Normal, Overlay;
    var m := map k | k in ds :: Overlay(Encode(ds[k]), rows, k);
    if Loaded(ds, rows) == Some(cur) {
      forall k | k in ds ensures Reloaded(ds[k], rows) == Some(cur[k]) {
        assert k in m && Fits(k, m[k]);
      }
    }
  }

  /** The defaults hold no secret, so that a row without one cannot be given theirs. */
  ghost predicate GoodDefaults(ds: Settings) { Whole(ds) && ds[KGitHub].secretEnc == "" }

  /** A saved section is read back as itself, normalized: deepMerge over the defaults adds nothing else. */
  lemma SavedIsReloaded(d: Section, sec: Section, rows: Rows)
    requires KeyOf(d) == KeyOf(sec) && (d.GitHub? ==> d.secretEnc == "")
    requires KeyOf(sec) in rows && rows[KeyOf(sec)] == Obj(Encode(sec))
    ensures Reloaded(d, rows) == Some(Normal(sec, d))
  {
    SectionReadsBack(sec);
    if sec.MCP? && sec.tools.Some? && d.tools.Some? {
      ToolsMerge(d, sec);
      assert d.tools.value + (d.tools.value + sec.tools.value) == d.tools.value + sec.tools.value;
      hide Encode, Merge, Decoded, Fits;
    } else {
      EncodeCovers(d, sec);
      MergeAbsorbs(Obj(Encode(d)), Obj(Encode(sec)));
      hide Encode, Merge, Decoded, Fits;
    }
  }

  lemma EncodeCovers(d: Section, sec: Section)
    requires KeyOf(d) == KeyOf(sec) && (d.GitHub? ==> d.secretEnc == "")
    requires sec.MCP? ==> sec.tools.None? || d.tools.None?
    ensures Covers(Obj(Encode(d)), Obj(Encode(sec)))
  {
    SameKeys(d, sec);
    forall k | k in Encode(d) ensures Covers(Encode(d)[k], Encode(sec)[k]) {
      OnlyToolsNest(d, k);
      OnlyToolsNest(sec, k);
      hide Encode;
    }
  }

  lemma SameKeys(d: Section, sec: Section)
    requires KeyOf(d) == KeyOf(sec) && (d.GitHub? ==> d.secretEnc == "")
    ensures Encode(d).Keys <= Encode(sec).Keys
  {
  }

  lemma OnlyToolsNest(sec: Section, k: string)
    ensures k in Encode(sec) && Encode(sec)[k].Obj? ==> sec.MCP? && sec.tools.Some? && k == "tools"
  {
  }

  lemma ToolsMerge(d: Section, sec: Section)
    requires d.MCP? && sec.MCP? && d.tools.Some? && sec.tools.Some?
    ensures var m := DeepMerge(Encode(d), Encode(sec));
            Fits(KMCP, m) && Decoded(KMCP, m) == sec.(tools := Some(d.tools.value + sec.tools.value))
  {
    var all := d.tools.value + sec.tools.value;
    var m := DeepMerge(Encode(d), Encode(sec));
    ToolsUnion(d.tools.value, sec.tools.value);
    MergeAt(Obj(Encode(d)), Obj(Encode(sec)), "tools");
    MergeAt(Obj(Encode(d)), Obj(Encode(sec)), "enabled");
    MergeAt(Obj(Encode(d)), Obj(Encode(sec)), "transport");
    MergeAt(Obj(Encode(d)), Obj(Encode(sec)), "port");
    hide Merge;
    ToolsReadBack(m, "tools", Some(all));
  }

  lemma ToolsUnion(d: map<string, ToolPref>, mine: map<string, ToolPref>)
    ensures Merge(ToolsJson(Some(d)), ToolsJson(Some(mine))) == ToolsJson(Some(d + mine))
  {
    hide Merge, PrefJson;
    var base, over := ToolsJson(Some(d)), ToolsJson(Some(mine));
    var merged := Merge(base, over);
    MergeAt(base, over, "");
    forall n | n in d + mine ensures n in merged.fields && merged.fields[n] == PrefJson((d + mine)[n]) {
      MergeAt(base, over, n);
      if n in d && n in mine {
        PrefReplaces(d[n], mine[n]);
      }
    }
    assert merged.fields == ToolsJson(Some(d + mine)).fields;
  }

  lemma PrefReplaces(p: ToolPref, q: ToolPref)
    ensures Merge(PrefJson(p), PrefJson(q)) == PrefJson(q)
  {
    assert Covers(PrefJson(p), PrefJson(q));
    MergeAbsorbs(PrefJson(p), PrefJson(q));
  }

  /** A store without rows starts in step exactly when its defaults are normalized. */
  lemma FreshStoreInSync(ds: Settings)
    requires GoodDefaults(ds)
    ensures InSync(ds, ds, map[]) <==> forall k :: k in ds ==> Normal(ds[k], ds[k]) == ds[k]
  {
    hide Encode, Decoded, Fits, Normal, InSync;
    LoadedBySection(ds, map[], ds);
    forall k | k in ds ensures Reloaded(ds[k], map[]) == Some(Normal(ds[k], ds[k])) {
      SectionReadsBack(ds[k]);
    }
  }

  // ---------------------------------------------------------------- patch

  type Patch = map<Key, Object>

  function ReadOnly(k: Key): set<string> {
    if k == KGitHub then {"webhookUrl", "webhookSecret", "appConfigured", "oauthConfigured", "appInstallUrl", "secretEnc"}
    else {}
  }

  function Overlaid(cur: Settings, patch: Patch): (m: Tree) {
    map k | k in cur :: if k in patch then DeepMerge(Encode(cur[k]), patch[k] - ReadOnly(k)) else Encode(cur[k])
  }

  /** The settings a patch makes, or None when it is refused. */
  function Patched(ds: Settings, rules: Rules, cur: Settings, patch: Patch): (out: Option<Settings>)
    requires Whole(ds) && Whole(cur)
    ensures out.Some? ==> Whole(out.value) && AllKnown(patch.Keys)
  {
    if !(AllKnown(patch.Keys)) then None
    else
      var s := FromMap(Overlaid(cur, patch));
      if s.None? || exists k :: k in s.value && !Accepted(s.value[k], rules) then None
      else Some(map k | k in s.value :: Settle(s.value[k], ds[k]))
  }

  function Saved(out: Settings, keys: set<Key>): Rows
    requires keys <= out.Keys
  {
    map k | k in keys :: Obj(Encode(out[k]))
  }

  lemma NothingSaved(rows: Rows, out: Settings)
    ensures rows + Saved(out, {}) == rows
  {
    hide Encode;
  }

  lemma OneMoreSaved(rows: Rows, out: Settings, keys: set<Key>, k: Key)
    requires keys <= out.Keys && k in out
    ensures rows + Saved(out, keys + {k}) == (rows + Saved(out, keys))[k := Obj(Encode(out[k]))]
  {
    hide Encode;
  }

  lemma PatchedAt(ds: Settings, rules: Rules, cur: Settings, patch: Patch, k: Key)
    requires Whole(ds) && Whole(cur) && Known(k) && Patched(ds, rules, cur, patch).Some?
    ensures var sec := Decoded(k, Overlaid(cur, patch)[k]);
            Accepted(sec, rules) && Patched(ds, rules, cur, patch).value[k] == Settle(sec, ds[k])
  {
    hide Encode, Decoded, Fits, Settle, Accepted, Overlaid;
    var s := FromMap(Overlaid(cur, patch)).value;
    assert s[k] == Decoded(k, Overlaid(cur, patch)[k]);
  }

  /** A section that a patch does not name is only trimmed and normalized. */
  lemma UnnamedSettles(ds: Settings, rules: Rules, cur: Settings, patch: Patch, k: Key)
    requires Whole(ds) && Whole(cur) && Known(k) && k !in patch
    requires Patched(ds, rules, cur, patch).Some?
    ensures Patched(ds, rules, cur, patch).value[k] == Settle(cur[k], ds[k])
    ensures Accepted(cur[k], rules)
  {
    hide Encode, Decoded, Fits, Normal, Fixed, Patched;
    SectionReadsBack(cur[k]);
    PatchedAt(ds, rules, cur, patch, k);
    assert Overlaid(cur, patch)[k] == Encode(cur[k]);
  }

  lemma PatchedIsNormal(ds: Settings, rules: Rules, cur: Settings, patch: Patch, k: Key)
    requires Whole(ds) && Whole(cur) && Known(k)
    requires Patched(ds, rules, cur, patch).Some?
    ensures var out := Patched(ds, rules, cur, patch).value; Normal(out[k], ds[k]) == out[k]
  {
    hide Encode, Decoded, Fits, Normal, Fixed, Patched, Accepted;
    PatchedAt(ds, rules, cur, patch, k);
    assert k in Overlaid(cur, patch);
    NormalTwice(Fixed(Decoded(k, Overlaid(cur, patch)[k])), ds[k]);
  }

  /** A patch that names nothing is accepted exactly when every section is, and still settles them all. */
  lemma EmptyPatchSettles(ds: Settings, rules: Rules, cur: Settings)
    requires Whole(ds) && Whole(cur)
    ensures Patched(ds, rules, cur, map[])
         == if forall k :: k in cur ==> Accepted(cur[k], rules) then Some(map k | k in cur :: Settle(cur[k], ds[k])) else None
  {
    hide Encode, Decoded, Fits, Settle, Accepted, FromMap;
    assert Overlaid(cur, map[]) == ToMap(cur);
    SettingsReadBack(cur);
  }

  /** After saving some sections of `out`, Load reads those as normalized and the others as before. */
  lemma SavesAreReloaded(ds: Settings, rows: Rows, out: Settings, keys: set<Key>, d: Section)
    requires GoodDefaults(ds) && Whole(out) && AllKnown(keys) && d == ds[KeyOf(d)]
    ensures Reloaded(d, rows + Saved(out, keys))
         == if KeyOf(d) in keys then Some(Normal(out[KeyOf(d)], d)) else Reloaded(d, rows)
  {
    var k := KeyOf(d);
    if k in keys {
      SavedIsReloaded(d, out[k], rows + Saved(out, keys));
    } else {
      assert k !in Saved(out, keys);
    }
  }

  /** A patch whose saves succeed keeps the cache in step with the rows exactly when each section it does not
      name is already trimmed and normalized. */
  lemma PatchKeepsStep(ds: Settings, rules: Rules, cur: Settings, rows: Rows, patch: Patch)
    requires GoodDefaults(ds) && Whole(cur) && InSync(ds, cur, rows)
    requires Patched(ds, rules, cur, patch).Some?
    ensures var out := Patched(ds, rules, cur, patch).value;
            InSync(ds, out, rows + Saved(out, patch.Keys))
            <==> forall k :: Known(k) && k !in patch ==> Settle(cur[k], ds[k]) == cur[k]
  {
    hide Encode, Decoded, Fits, Normal, Fixed, Reloaded;
    var out := Patched(ds, rules, cur, patch).value;
    var now := rows + Saved(out, patch.Keys);
    LoadedBySection(ds, rows, cur);
    LoadedBySection(ds, now, out);
    forall k | Known(k)
      ensures Reloaded(ds[k], now) == Some(out[k]) <==> k in patch || Settle(cur[k], ds[k]) == cur[k]
    {
      SavesAreReloaded(ds, rows, out, patch.Keys, ds[k]);
      if k in patch {
        PatchedIsNormal(ds, rules, cur, patch, k);
      } else {
        UnnamedSettles(ds, rules, cur, patch, k);
      }
    }
  }

  /** When a save fails half-way the cache keeps its old value; it is still in step exactly when the sections
      saved before the failure are unchanged. */
  lemma FailedSaveKeepsStep(ds: Settings, rules: Rules, cur: Settings, rows: Rows, patch: Patch, saved: set<Key>)
    requires GoodDefaults(ds) && Whole(cur) && InSync(ds, cur, rows)
    requires Patched(ds, rules, cur, patch).Some? && saved <= patch.Keys
    ensures var out := Patched(ds, rules, cur, patch).value;
            InSync(ds, cur, rows + Saved(out, saved)) <==> forall k :: k in saved ==> out[k] == cur[k]
  {
    hide Encode, Decoded, Fits, Normal, Fixed, Reloaded;
    var out := Patched(ds, rules, cur, patch).value;
    var now := rows + Saved(out, saved);
    LoadedBySection(ds, rows, cur);
    LoadedBySection(ds, now, cur);
    forall k | Known(k) ensures Reloaded(ds[k], now) == Some(cur[k]) <==> (k in saved ==> out[k] == cur[k]) {
      SavesAreReloaded(ds, rows, out, saved, ds[k]);
      PatchedIsNormal(ds, rules, cur, patch, k);
    }
  }

  /** What Update writes under a key: the section's JSON object, null under a key that names no section. */
  function RowOf(out: Settings, k: Key): Json { if k in out then Obj(Encode(out[k])) else Null }

  lemma OneRowIsReloaded(ds: Settings, rows: Rows, out: Settings, section: Key, d: Section)
    requires GoodDefaults(ds) && Whole(out) && d == ds[KeyOf(d)]
    ensures Reloaded(d, rows[section := RowOf(out, section)])
         == if KeyOf(d) == section then Some(Normal(out[section], d)) else Reloaded(d, rows)
  {
    hide Encode, Decoded, Fits, Normal;
    if KeyOf(d) == section {
      SavedIsReloaded(d, out[section], rows[section := RowOf(out, section)]);
    }
  }

  /** Update saves one section as it is: the cache stays in step exactly when the function changed no other
      section and left this one normalized. */
  lemma UpdateKeepsStep(ds: Settings, cur: Settings, rows: Rows, out: Settings, section: Key)
    requires GoodDefaults(ds) && Whole(cur) && Whole(out) && InSync(ds, cur, rows)
    ensures InSync(ds, out, rows[section := RowOf(out, section)])
       <==> && (forall k :: Known(k) && k != section ==> out[k] == cur[k])
            && (Known(section) ==> Normal(out[section], ds[section]) == out[section])
  {
    hide Encode, Decoded, Fits, Normal, Reloaded, RowOf;
    var now := rows[section := RowOf(out, section)];
    LoadedBySection(ds, rows, cur);
    LoadedBySection(ds, now, out);
    forall k | Known(k)
      ensures Reloaded(ds[k], now) == Some(out[k])
         <==> if k == section then Normal(out[k], ds[k]) == out[k] else out[k] == cur[k]
    {
      OneRowIsReloaded(ds, rows, out, section, ds[k]);
    }
  }

  // ---------------------------------------------------------------- when a section is settled

  lemma {:induction false} TrimSlashesIs(s: string)
    ensures TrimSlashes(s) <= s && (TrimSlashes(s) == "" || TrimSlashes(s)[|TrimSlashes(s)| - 1] != '/')
    ensures TrimSlashes(s) == s <==> s == "" || s[|s| - 1] != '/'
  {
    if s != "" && s[|s| - 1] == '/' {
      TrimSlashesIs(s[..|s| - 1]);
    }
  }

  /** A section in step with the rows changes under a patch that does not name it exactly when its public URL,
      domain, registry address or time zone is not as validate leaves it. */
  lemma SettledIff(sec: Section, d: Section)
    requires KeyOf(d) == KeyOf(sec) && Normal(sec, d) == sec
    ensures Settle(sec, d) == sec <==>
      match sec
      case General(u, dom) => (TrimUrl(u) == u || (TrimUrl(u) == "" && u == d.publicUrl)) && Trimmed(dom)
      case Registry(_, a) => CleanAddress(a) == a
      case Updates(_, _, _, _, _, _, _, _, tz) => Trimmed(tz)
      case _ => true
  {
    if sec.General? {
      TrimSpaceFixes(sec.domain);
    } else if sec.Updates? {
      TrimSpaceFixes(sec.timezone);
    }
  }

  lemma UrlTwice(u: string)
    requires TrimUrl(u) != ""
    ensures TrimUrl(TrimUrl(u)) == TrimUrl(u) <==> Trimmed(TrimUrl(u))
  {
    var v := TrimUrl(u);
    TrimSlashesIs(TrimSpace(u));
    TrimSpaceFixes(v);
    TrimSlashesIs(TrimSpace(v));
  }

  /** An address without slashes and blanks is only trimmed again. */
  lemma CleanAgain(v: string)
    requires !ContainsAny(v, "/ ")
    ensures CleanAddress(v) == TrimSpace(v) && !ContainsAny(TrimSpace(v), "/ ")
  {
    var t := TrimSpace(v);
    forall i | 0 <= i < |t| ensures t[i] !in "/ " {
      assert t[i] in t;
      TrimInside(v, t[i]);
    }
    assert !HasPrefix(t, "https://") by { assert "https://"[6] == '/'; }
    assert !HasPrefix(t, "http://") by { assert "http://"[5] == '/'; }
    assert !HasSuffix(t, "/") by { assert "/"[0] == '/'; }
  }

  /** Cutting slashes off the URL uncovers no white space. An empty one is replaced by the default, which then has
      to stay as it is, be it for being replaced by itself. */
  predicate PlainUrl(u: string, default: string) {
    if TrimUrl(u) == "" then TrimUrl(default) in {"", default}
    else Trimmed(TrimUrl(u)) || (TrimUrl(u) == default && TrimUrl(default) == "")
  }

  /** What a patch leaves of a section it names stays as it is under later patches, unless cutting slashes or
      a scheme off the public URL or the registry address uncovered white space. */
  lemma SettledAgain(x: Section, d: Section, rules: Rules)
    requires KeyOf(d) == KeyOf(x) && Accepted(x, rules)
    ensures Settle(Settle(x, d), d) == Settle(x, d) <==>
      match x
      case General(u, _) => PlainUrl(u, d.publicUrl)
      case Registry(_, a) => Trimmed(CleanAddress(a))
      case _ => true
  {
    match x
    case General(u, dom) =>
      TrimSpaceFixes(dom);
      TrimSpaceFixes(TrimSpace(dom));
      if TrimUrl(u) != "" {
        UrlTwice(u);
      }
    case Registry(_, a) =>
      CleanAgain(CleanAddress(a));
      TrimSpaceFixes(CleanAddress(a));
    case Updates(_, _, _, _, _, _, _, _, tz) =>
      TrimSpaceFixes(tz);
      TrimSpaceFixes(TrimSpace(tz));
    case MCP(_, _, _, _) => NormalTwice(Fixed(x), d);
    case _ =>
  }

  // ---------------------------------------------------------------- runs of patches

  /** Every patch of the run is accepted. */
  ghost predicate AcceptedRun(ds: Settings, rules: Rules, cur: Settings, ps: seq<Patch>)
    requires Whole(ds) && Whole(cur)
    decreases |ps|
  {
    ps == [] || (Patched(ds, rules, cur, ps[0]).Some? && AcceptedRun(ds, rules, Patched(ds, rules, cur, ps[0]).value, ps[1..]))
  }

  ghost predicate InSyncThroughout(ds: Settings, rules: Rules, cur: Settings, rows: Rows, ps: seq<Patch>)
    requires Whole(ds) && Whole(cur) && AcceptedRun(ds, rules, cur, ps)
    decreases |ps|
  {
    && InSync(ds, cur, rows)
    && (ps == [] ||
        var out := Patched(ds, rules, cur, ps[0]).value;
        InSyncThroughout(ds, rules, out, rows + Saved(out, ps[0].Keys), ps[1..]))
  }

  /** Each patch meets only settled sections besides those it names. */
  ghost predicate UnnamedSettled(ds: Settings, rules: Rules, cur: Settings, ps: seq<Patch>)
    requires Whole(ds) && Whole(cur) && AcceptedRun(ds, rules, cur, ps)
    decreases |ps|
  {
    ps == [] ||
      ((forall k :: Known(k) && k !in ps[0] ==> Settle(cur[k], ds[k]) == cur[k])
       && UnnamedSettled(ds, rules, Patched(ds, rules, cur, ps[0]).value, ps[1..]))
  }

  /** Over any run of patches whose saves succeed, Load reads back the cache after every one exactly when each
      patch met only settled sections besides those it names. */
  lemma {:induction false} SyncOverRuns(ds: Settings, rules: Rules, cur: Settings, rows: Rows, ps: seq<Patch>)
    requires GoodDefaults(ds) && Whole(cur) && AcceptedRun(ds, rules, cur, ps) && InSync(ds, cur, rows)
    ensures InSyncThroughout(ds, rules, cur, rows, ps) <==> UnnamedSettled(ds, rules, cur, ps)
    decreases |ps|
  {
    if ps != [] {
      var out := Patched(ds, rules, cur, ps[0]).value;
      var now := rows + Saved(out, ps[0].Keys);
      PatchKeepsStep(ds, rules, cur, rows, ps[0]);
      if InSync(ds, out, now) {
        SyncOverRuns(ds, rules, out, now, ps[1..]);
      }
    }
  }

  ghost predicate AllSettled(ds: Settings, cur: Settings)
    requires Whole(ds) && Whole(cur)
  {
    forall k :: Known(k) ==> Settle(cur[k], ds[k]) == cur[k]
  }

  /** The values that a patch names uncover no white space. */
  predicate PlainPatch(ds: Settings, p: Patch)
    requires Whole(ds)
  {
    && (KGeneral in p && "publicUrl" in p[KGeneral] ==> PlainUrl(Text(p[KGeneral], "publicUrl"), ds[KGeneral].publicUrl))
    && (KRegistry in p ==> Trimmed(CleanAddress(Text(p[KRegistry], "address"))))
  }

  lemma NamedText(sec: Section, p: Object, k: string)
    requires (sec.General? && k == "publicUrl") || (sec.Registry? && k == "address")
    ensures Text(DeepMerge(Encode(sec), p - ReadOnly(KeyOf(sec))), k) == if k in p then Text(p, k) else Text(Encode(sec), k)
  {
    assert p - ReadOnly(KeyOf(sec)) == p;
    MergeAt(Obj(Encode(sec)), Obj(p), k);
  }

  /** One section of an accepted patch on a settled cache. */
  lemma SectionSettles(d: Section, rules: Rules, was: Section, p: Object, sec: Section)
    requires KeyOf(d) == KeyOf(was) && Settle(was, d) == was
    requires sec == Decoded(KeyOf(was), DeepMerge(Encode(was), p - ReadOnly(KeyOf(was)))) && Accepted(sec, rules)
    ensures Settle(Settle(sec, d), d) == Settle(sec, d) <==>
      match was
      case General(_, _) => "publicUrl" in p ==> PlainUrl(Text(p, "publicUrl"), d.publicUrl)
      case Registry(_, _) => Trimmed(CleanAddress(Text(p, "address")))
      case _ => true
  {
    SettledAgain(sec, d, rules);
    if was.General? {
      NamedText(was, p, "publicUrl");
      SettledAgain(was, d, rules);
    } else if was.Registry? {
      NamedText(was, p, "address");
      if "address" !in p {
        assert Text(Encode(was), "address") == was.address;
        SettledAgain(was, d, rules);
        assert CleanAddress("") == "";
      }
    }
  }

  /** A section that a patch does not name is one that it names with no value. */
  lemma NothingNamed(sec: Section)
    ensures DeepMerge(Encode(sec), map[] - ReadOnly(KeyOf(sec))) == Encode(sec)
  {
    var none: Object := map[];
    assert none - ReadOnly(KeyOf(sec)) == none;
    hide Encode;
  }

  function Named(p: Patch, k: Key): Object { if k in p then p[k] else map[] }

  /** From a settled cache, an accepted patch leaves a settled cache exactly when its own values are plain. */
  lemma PlainPatchSettles(ds: Settings, rules: Rules, cur: Settings, p: Patch)
    requires Whole(ds) && Whole(cur) && AllSettled(ds, cur) && Patched(ds, rules, cur, p).Some?
    ensures AllSettled(ds, Patched(ds, rules, cur, p).value) <==> PlainPatch(ds, p)
  {
    hide Encode, Decoded, Fits, Settle, Accepted, Patched, PlainUrl, DeepMerge;
    var out := Patched(ds, rules, cur, p).value;
    forall k | Known(k)
      ensures Settle(out[k], ds[k]) == out[k] <==>
        match cur[k]
        case General(_, _) => "publicUrl" in Named(p, k) ==> PlainUrl(Text(Named(p, k), "publicUrl"), ds[k].publicUrl)
        case Registry(_, _) => Trimmed(CleanAddress(Text(Named(p, k), "address")))
        case _ => true
    {
      PatchedAt(ds, rules, cur, p, k);
      NothingNamed(cur[k]);
      SectionSettles(ds[k], rules, cur[k], Named(p, k), Decoded(k, Overlaid(cur, p)[k]));
    }
    assert CleanAddress("") == "";
  }

  /** From a settled start, a run of patches with plain values never takes the cache out of step. */
  lemma {:induction false} SettledRunsStayInSync(ds: Settings, rules: Rules, cur: Settings, rows: Rows, ps: seq<Patch>)
    requires GoodDefaults(ds) && Whole(cur) && AcceptedRun(ds, rules, cur, ps) && InSync(ds, cur, rows)
    requires AllSettled(ds, cur) && forall p :: p in ps ==> PlainPatch(ds, p)
    ensures InSyncThroughout(ds, rules, cur, rows, ps)
    decreases |ps|
  {
    if ps != [] {
      hide PlainPatch, Patched, InSync, Settle, Saved;
      var out := Patched(ds, rules, cur, ps[0]).value;
      PatchKeepsStep(ds, rules, cur, rows, ps[0]);
      PlainPatchSettles(ds, rules, cur, ps[0]);
      SettledRunsStayInSync(ds, rules, out, rows + Saved(out, ps[0].Keys), ps[1..]);
    }
  }

  predicate Accepts(ds: Settings, rules: Rules, cur: Settings, patch: Patch, out: Settings)
    requires Whole(ds) && Whole(cur)
  {
    Patched(ds, rules, cur, patch) == Some(out)
  }

  function Url(s: Settings): string
    requires Whole(s)
  {
    s[KGeneral].publicUrl
  }

  /** Setting the public URL to "x /" leaves "x " in the cache and in the row. The next patch that does not name
      the section trims the cache only, and Load then reads back another URL. */
  lemma SlashUncoversSpace(ds: Settings, rules: Rules, cur: Settings, rows: Rows, q: Patch, mid: Settings, out: Settings)
    requires GoodDefaults(ds) && Whole(cur) && Whole(mid) && Whole(out) && KGeneral !in q && AllKnown(q.Keys)
    requires Accepts(ds, rules, cur, map[KGeneral := map["publicUrl" := Str("x /")]], mid) && Accepts(ds, rules, mid, q, out)
    ensures Url(mid) == "x " && Url(out) == "x"
    ensures !InSync(ds, out, rows + Saved(mid, {KGeneral}) + Saved(out, q.Keys))
  {
    hide Encode, Decoded, Fits, Reloaded, Overlaid, Accepted, Merge, Patched, FromMap, InSync, Loaded;
    XSpace();
    UrlPatched(ds, rules, cur, mid);
    UnnamedSettles(ds, rules, mid, q, KGeneral);
    var now := rows + Saved(mid, {KGeneral});
    SavesAreReloaded(ds, now, out, q.Keys, ds[KGeneral]);
    SavesAreReloaded(ds, rows, mid, {KGeneral}, ds[KGeneral]);
    LoadedBySection(ds, now + Saved(out, q.Keys), out);
  }

  lemma UrlPatched(ds: Settings, rules: Rules, cur: Settings, mid: Settings)
    requires Whole(ds) && Whole(cur) && Whole(mid)
    requires Accepts(ds, rules, cur, map[KGeneral := map["publicUrl" := Str("x /")]], mid)
    ensures Url(mid) == "x "
  {
    var p: Patch := map[KGeneral := map["publicUrl" := Str("x /")]];
    XSpace();
    UrlOverlaid(cur, p);
    PatchedAt(ds, rules, cur, p, KGeneral);
    hide Encode, Fits, Overlaid, Accepted, Merge, Patched;
  }

  lemma UrlOverlaid(cur: Settings, p: Patch)
    requires Whole(cur) && p == map[KGeneral := map["publicUrl" := Str("x /")]]
    ensures At(Overlaid(cur, p)[KGeneral], "publicUrl") == Str("x /")
  {
    var g := Encode(cur[KGeneral]);
    assert p[KGeneral] - ReadOnly(KGeneral) == p[KGeneral];
    MergeAt(Obj(g), Obj(p[KGeneral]), "publicUrl");
    hide Merge, Encode;
  }

  /** The run exists from every store whose sections validate accepts; the second patch may name nothing. */
  lemma SlashRunExists(ds: Settings, rules: Rules, cur: Settings) returns (mid: Settings, out: Settings)
    requires GoodDefaults(ds) && Whole(cur) && forall k :: k in cur ==> Accepted(cur[k], rules)
    ensures Whole(mid) && Whole(out)
    ensures Accepts(ds, rules, cur, map[KGeneral := map["publicUrl" := Str("x /")]], mid) && Accepts(ds, rules, mid, map[], out)
  {
    hide Encode, Decoded, Fits, Accepted, FromMap, Settle, Merge, Patched;
    var p: Patch := map[KGeneral := map["publicUrl" := Str("x /")]];
    UrlPatchAccepted(ds, rules, cur, p);
    mid := Patched(ds, rules, cur, p).value;
    forall k | k in mid ensures Accepted(mid[k], rules) {
      AcceptedAgain(ds, rules, cur, p, k);
    }
    EmptyPatchSettles(ds, rules, mid);
    out := Patched(ds, rules, mid, map[]).value;
  }

  lemma UrlPatchAccepted(ds: Settings, rules: Rules, cur: Settings, p: Patch)
    requires Whole(ds) && Whole(cur) && forall k :: k in cur ==> Accepted(cur[k], rules)
    requires p == map[KGeneral := map["publicUrl" := Str("x /")]]
    ensures Patched(ds, rules, cur, p).Some?
  {
    hide Encode, Decoded, Fits, Accepted, Settle;
    var m := Overlaid(cur, p);
    forall k | k in m ensures Fits(k, m[k]) && Accepted(Decoded(k, m[k]), rules) {
      if k == KGeneral {
        GeneralStaysGeneral(cur[k], p[k], rules);
      } else {
        SectionReadsBack(cur[k]);
      }
    }
  }

  lemma GeneralStaysGeneral(g: Section, patch: Object, rules: Rules)
    requires g.General? && patch == map["publicUrl" := Str("x /")]
    ensures var m := DeepMerge(Encode(g), patch - ReadOnly(KGeneral));
            Fits(KGeneral, m) && Accepted(Decoded(KGeneral, m), rules)
  {
    assert patch - ReadOnly(KGeneral) == patch;
    MergeAt(Obj(Encode(g)), Obj(patch), "publicUrl");
    MergeAt(Obj(Encode(g)), Obj(patch), "domain");
    assert |"domain"| != |"publicUrl"| && "domain" !in patch && "publicUrl" in patch;
    var m := DeepMerge(Encode(g), patch);
    assert m["publicUrl"] == Str("x /") && m["domain"] == Str(g.domain);
  }

  /** What a patch leaves of a section is accepted again. */
  lemma AcceptedAgain(ds: Settings, rules: Rules, cur: Settings, p: Patch, k: Key)
    requires Whole(ds) && Whole(cur) && Known(k) && Patched(ds, rules, cur, p).Some?
    ensures Accepted(Patched(ds, rules, cur, p).value[k], rules)
  {
    hide Encode, Decoded, Fits, FromMap, Patched, CleanAddress;
    PatchedAt(ds, rules, cur, p, k);
    var x := Decoded(k, Overlaid(cur, p)[k]);
    if x.Registry? {
      CleanAgain(CleanAddress(x.address));
    } else if x.Updates? {
      TrimSpaceFixes(x.timezone);
      TrimSpaceFixes(TrimSpace(x.timezone));
    }
  }

  lemma XSpace()
    ensures TrimUrl("x /") == "x " && TrimUrl("x ") == "x"
  {
    assert "x "[..1] == "x" && "x /"[..2] == "x ";
    assert TrimRight("x") == "x" && TrimSlashes("x ") == "x " && TrimSlashes("x") == "x";
    assert TrimLeft("x ") == "x " && TrimLeft("x /") == "x /" && TrimRight("x /") == "x /";
  }

  // ---------------------------------------------------------------- the store

  class Store {
    var cur: Settings
    var rows: Rows
    const ds: Settings
    const rules: Rules

    ghost predicate Valid() reads this { GoodDefaults(ds) && Whole(cur) }

    constructor (defaults: Settings, rules: Rules, rows: Rows)
      requires GoodDefaults(defaults)
      ensures Valid() && cur == ds == defaults && this.rules == rules && this.rows == rows
    {
      cur, ds := defaults, defaults;
      this.rules, this.rows := rules, rows;
    }

    /** The rows in any order over the defaults. */
    method OverlayRows() returns (merged: Tree)
      requires Valid()
      ensures merged == map k | k in ds :: Overlay(Encode(ds[k]), rows, k)
    {
      hide Encode, Merge, DeepMerge, Whole, GoodDefaults;
      merged := ToMap(ds);
      var todo := rows.Keys * ds.Keys;
      while todo != {}
        invariant todo <= rows.Keys * ds.Keys && merged.Keys == ds.Keys
        invariant forall k :: k in ds.Keys ==>
          merged[k] == if k in todo then Encode(ds[k]) else Overlay(Encode(ds[k]), rows, k)
        decreases |todo|
      {
        var k :| k in todo;
        todo := todo - {k};
        if rows[k].Obj? {
          merged := merged[k := DeepMerge(merged[k], rows[k].fields)];
        }
      }
    }

    /** The sections of a patch in any order over the cache; not known when one of them does not exist. */
    method OverlayPatch(patch: Patch) returns (known: bool, m: Tree)
      requires Valid()
      ensures known <==> AllKnown(patch.Keys)
      ensures known ==> Full(m.Keys) && m == Overlaid(cur, patch)
    {
      hide Encode, Merge, DeepMerge, ReadOnly, KeyOf;
      m := ToMap(cur);
      var todo := patch.Keys;
      while todo != {}
        invariant todo <= patch.Keys && patch.Keys - todo <= cur.Keys && m.Keys == cur.Keys
        invariant forall k :: k in cur.Keys ==> m[k] == if k in todo then Encode(cur[k]) else Overlaid(cur, patch)[k]
        decreases |todo|
      {
        var k :| k in todo;
        if k !in m {
          return false, m;
        }
        todo := todo - {k};
        m := m[k := DeepMerge(m[k], patch[k] - ReadOnly(k))];
      }
      known := true;
    }

    /** Load; a failed query or a value of the wrong type leaves the cache as it is. */
    method Load() returns (ok: bool, ghost read: bool)
      requires Valid()
      modifies this`cur
      ensures Valid()
      ensures (ok <==> read && Loaded(ds, rows).Some?)
      ensures cur == if ok then Loaded(ds, rows).value else old(cur)
    {
      hide Encode, Decoded, Fits, Normal;
      var works: bool := *;
      read := works;
      if !works {
        return false, read;
      }
      var merged := OverlayRows();
      var out := FromMap(merged);
      if out.None? {
        return false, read;
      }
      cur := map k | k in ds :: Normal(out.value[k], ds[k]);
      ok := true;
    }

    method Save(k: Key, v: Json) returns (ok: bool)
      modifies this`rows
      ensures rows == if ok then old(rows)[k := v] else old(rows)
    {
      ok := *;
      if ok {
        rows := rows[k := v];
      }
    }

    /** Writes the rows of some sections in any order, up to the first that fails. */
    method SaveSections(out: Settings, keys: set<Key>) returns (ok: bool, ghost saved: set<Key>)
      requires Whole(out) && AllKnown(keys)
      modifies this`rows
      ensures saved <= keys && (ok <==> saved == keys)
      ensures rows == old(rows) + Saved(out, saved)
    {
      hide Encode, Saved;
      NothingSaved(rows, out);
      saved := {};
      var final := ToMap(out);
      var rest := keys;
      while rest != {}
        invariant rest <= keys && saved == keys - rest
        invariant rows == old(rows) + Saved(out, saved)
        decreases |rest|
      {
        var k :| k in rest;
        var done := Save(k, Obj(final[k]));
        if !done {
          return false, saved;
        }
        rest := rest - {k};
        OneMoreSaved(old(rows), out, saved, k);
        saved := saved + {k};
      }
      ok := true;
    }

    /** The first half of Patch: merge, decode, validate, normalize. */
    method Merged(patch: Patch) returns (out: Option<Settings>)
      requires Valid()
      ensures out == Patched(ds, rules, cur, patch)
    {
      hide Encode, Decoded, Fits, Normal, Fixed, Accepted, Overlaid;
      var known, m := OverlayPatch(patch);
      if !known {
        return None;
      }
      var s := FromMap(m);
      if s.None? || exists k :: k in s.value && !Accepted(s.value[k], rules) {
        return None;
      }
      out := Some(map k | k in s.value :: Settle(s.value[k], ds[k]));
    }

    /** Patch; `saved` are the sections whose rows were written. */
    method ApplyPatch(patch: Patch) returns (ok: bool, ghost saved: set<Key>)
      requires Valid()
      modifies this`cur, this`rows
      ensures Valid() && saved <= patch.Keys
      ensures Patched(ds, rules, old(cur), patch).None? ==> !ok && saved == {} && rows == old(rows)
      ensures Patched(ds, rules, old(cur), patch).Some? ==>
        && (ok <==> saved == patch.Keys)
        && rows == old(rows) + Saved(Patched(ds, rules, old(cur), patch).value, saved)
      ensures cur == if ok then Patched(ds, rules, old(cur), patch).value else old(cur)
    {
      hide Encode, Decoded, Fits, Normal, Fixed, Accepted, Overlaid, Patched, Settle, FromMap, ToMap;
      saved := {};
      var out := Merged(patch);
      if out.None? {
        return false, saved;
      }
      ok, saved := SaveSections(out.value, patch.Keys);
      if ok {
        cur := out.value;
      }
    }

    /** Update with a function that makes `out` of the cache. */
    method Update(section: Key, change: Settings -> Settings) returns (ok: bool)
      requires Valid() && Whole(change(cur))
      modifies this`cur, this`rows
      ensures Valid()
      ensures ok ==> cur == change(old(cur)) && rows == old(rows)[section := RowOf(cur, section)]
      ensures !ok ==> cur == old(cur) && rows == old(rows)
    {
      var c := change(cur);
      var m := ToMap(c);
      ok := Save(section, if section in m then Obj(m[section]) else Null);
      if ok {
        cur := c;
      }
    }
  }
}

/** What a patch does to the settings and what Load makes of the rows, field by field (settings/settings.go). */
module SettingsPatch {
  import opened Wrappers
  import opened Strings
  import opened Settings

  // ---------------------------------------------------------------- one field

  /** A field that the object names has its value, null being the zero value; any other keeps the one it had. */
  function NewFlag(o: Object, f: string, was: bool): bool { if f in o then o[f] == Bool(true) else was }
  function NewInt(o: Object, f: string, was: int): int {
    if f !in o then was else if o[f].Num? then o[f].r.Floor else 0
  }
  function NewText(o: Object, f: string, was: string): string {
    if f !in o then was else if o[f].Str? then o[f].s else ""
  }
  function NewList(o: Object, f: string, was: Option<seq<string>>): Option<seq<string>> {
    if f !in o then was
    else if o[f].Arr? then Some(seq(|o[f].items|, i requires 0 <= i < |o[f].items| => if o[f].items[i].Str? then o[f].items[i].s else ""))
    else None
  }

  /** The preferences of tools are merged tool by tool and flag by flag. */
  function NewTools(o: Object, was: Option<map<string, ToolPref>>): Option<map<string, ToolPref>> {
    if "tools" !in o then was
    else if o["tools"].Obj? then
      var mine, named := if was.Some? then was.value else map[], o["tools"].fields;
      Some(map n | n in mine.Keys + named.Keys ::
             if n !in named then mine[n] else NewPref(named[n], if n in mine then mine[n] else ToolPref(false, false)))
    else None
  }

  function NewPref(j: Json, was: ToolPref): ToolPref {
    if j.Obj? then ToolPref(NewFlag(j.fields, "enabled", was.enabled), NewFlag(j.fields, "confirm", was.confirm))
    else ToolPref(false, false)
  }

  predicate FlagOk(o: Object, f: string) { f in o ==> o[f].Null? || o[f].Bool? }
  predicate IntOk(o: Object, f: string) { f in o ==> o[f].Null? || (o[f].Num? && o[f].r.Floor as real == o[f].r) }
  predicate TextOk(o: Object, f: string) { f in o ==> o[f].Null? || o[f].Str? }
  predicate ListOk(o: Object, f: string) {
    f in o ==> o[f].Null? || (o[f].Arr? && forall j :: j in o[f].items ==> j.Null? || j.Str?)
  }
  predicate ToolsOk(o: Object) {
    "tools" in o ==> o["tools"].Null? || (o["tools"].Obj? && forall n :: n in o["tools"].fields ==> PrefOk(o["tools"].fields[n]))
  }
  predicate PrefOk(j: Json) { j.Null? || (j.Obj? && FlagOk(j.fields, "enabled") && FlagOk(j.fields, "confirm")) }

  // ---------------------------------------------------------------- one section

  /** A section with the values that an object names. */
  function Asked(sec: Section, o: Object): (a: Section)
    ensures KeyOf(a) == KeyOf(sec)
  {
    match sec
    case General(u, d) => General(NewText(o, "publicUrl", u), NewText(o, "domain", d))
    case Uptime(i, r, h, a, n, p) =>
      Uptime(NewInt(o, "intervalSec", i), NewInt(o, "retries", r), NewList(o, "hostIds", h), NewFlag(o, "autoMonitor", a),
             NewFlag(o, "notify", n), NewFlag(o, "publicStatus", p))
    case GitHub(a, w, c, s) =>
      GitHub(NewFlag(o, "autoDeploy", a), NewFlag(o, "waitChecks", w), NewFlag(o, "onlyCompose", c), NewText(o, "secretEnc", s))
    case MCP(e, t, p, tools) =>
      MCP(NewFlag(o, "enabled", e), NewText(o, "transport", t), NewInt(o, "port", p), NewTools(o, tools))
    case Updates(a, c, w, b, bu, rd, re, cf, tz) =>
      Updates(NewFlag(o, "auto", a), NewText(o, "channel", c), NewText(o, "window", w), NewFlag(o, "backup", b),
              NewText(o, "build", bu), NewFlag(o, "redeployOnPush", rd), NewText(o, "repo", re), NewText(o, "composeFile", cf),
              NewText(o, "timezone", tz))
    case Notifications(h, c, u, up, ds, de, di) =>
      Notifications(NewFlag(o, "hostDown", h), NewFlag(o, "containerCrash", c), NewFlag(o, "unhealthy", u),
                    NewFlag(o, "updates", up), NewFlag(o, "diskSpace", ds), NewFlag(o, "deploys", de), NewFlag(o, "digest", di))
    case Registry(e, a) => Registry(NewFlag(o, "enabled", e), NewText(o, "address", a))
  }

  predicate Typed(sec: Section, o: Object) {
    match sec
    case General(_, _) => TextOk(o, "publicUrl") && TextOk(o, "domain")
    case Uptime(_, _, _, _, _, _) =>
      && IntOk(o, "intervalSec") && IntOk(o, "retries") && ListOk(o, "hostIds") && FlagOk(o, "autoMonitor")
      && FlagOk(o, "notify") && FlagOk(o, "publicStatus")
    case GitHub(_, _, _, _) =>
      FlagOk(o, "autoDeploy") && FlagOk(o, "waitChecks") && FlagOk(o, "onlyCompose") && TextOk(o, "secretEnc")
    case MCP(_, _, _, _) => FlagOk(o, "enabled") && TextOk(o, "transport") && IntOk(o, "port") && ToolsOk(o)
    case Updates(_, _, _, _, _, _, _, _, _) =>
      && FlagOk(o, "auto") && TextOk(o, "channel") && TextOk(o, "window") && FlagOk(o, "backup") && TextOk(o, "build")
      && FlagOk(o, "redeployOnPush") && TextOk(o, "repo") && TextOk(o, "composeFile") && TextOk(o, "timezone")
    case Notifications(_, _, _, _, _, _, _) =>
      && FlagOk(o, "hostDown") && FlagOk(o, "containerCrash") && FlagOk(o, "unhealthy") && FlagOk(o, "updates")
      && FlagOk(o, "diskSpace") && FlagOk(o, "deploys") && FlagOk(o, "digest")
    case Registry(_, _) => FlagOk(o, "enabled") && TextOk(o, "address")
  }

  /** Merging and decoding give the section with the named values, and fail exactly when one has the wrong type. */
  ghost predicate Merges(sec: Section, o: Object) {
    var m := DeepMerge(Encode(sec), o);
    && (Fits(KeyOf(sec), m) <==> Typed(sec, o))
    && (Typed(sec, o) ==> Decoded(KeyOf(sec), m) == Asked(sec, o))
  }

  lemma Field(sec: Section, o: Object, f: string)
    requires f != "tools"
    ensures At(DeepMerge(Encode(sec), o), f) == if f in o then o[f] else At(Encode(sec), f)
  {
    OnlyToolsNest(sec, f);
    MergeAt(Obj(Encode(sec)), Obj(o), f);
    hide Encode, Merge;
  }

  lemma FlagField(sec: Section, o: Object, f: string, was: bool)
    requires f != "tools" && At(Encode(sec), f) == Bool(was)
    ensures var m := DeepMerge(Encode(sec), o);
            (IsFlag(m, f) <==> FlagOk(o, f)) && (FlagOk(o, f) ==> Flag(m, f) == NewFlag(o, f, was))
  {
    Field(sec, o, f);
    hide Encode, DeepMerge;
  }

  lemma IntField(sec: Section, o: Object, f: string, was: int)
    requires f != "tools" && At(Encode(sec), f) == Num(was as real)
    ensures var m := DeepMerge(Encode(sec), o);
            (IsInt(m, f) <==> IntOk(o, f)) && (IntOk(o, f) ==> Int(m, f) == NewInt(o, f, was))
  {
    Field(sec, o, f);
    hide Encode, DeepMerge;
  }

  lemma TextField(sec: Section, o: Object, f: string, was: string)
    requires f != "tools" && At(Encode(sec), f) in {Str(was), if was == "" then Null else Str(was)}
    ensures var m := DeepMerge(Encode(sec), o);
            (IsText(m, f) <==> TextOk(o, f)) && (TextOk(o, f) ==> Text(m, f) == NewText(o, f, was))
  {
    Field(sec, o, f);
    hide Encode, DeepMerge;
  }

  lemma ListField(sec: Section, o: Object, f: string, was: Option<seq<string>>)
    requires f != "tools" && f in Encode(sec) && Encode(sec)[f] == ListJson(was)
    ensures var m := DeepMerge(Encode(sec), o);
            (IsList(m, f) <==> ListOk(o, f)) && (ListOk(o, f) ==> List(m, f) == NewList(o, f, was))
  {
    Field(sec, o, f);
    ListReadsBack(Encode(sec), f, was);
    hide Encode, DeepMerge;
  }

  lemma GeneralMerges(sec: Section, o: Object)
    requires sec.General?
    ensures Merges(sec, o)
  {
    hide DeepMerge;
    TextField(sec, o, "publicUrl", sec.publicUrl);
    TextField(sec, o, "domain", sec.domain);
  }

  lemma UptimeEncoded(sec: Section)
    requires sec.Uptime?
    ensures var e := Encode(sec);
            && At(e, "intervalSec") == Num(sec.intervalSec as real)
            && At(e, "retries") == Num(sec.retries as real)
            && "hostIds" in e && e["hostIds"] == ListJson(sec.hostIds)
            && At(e, "autoMonitor") == Bool(sec.autoMonitor)
            && At(e, "notify") == Bool(sec.notify)
            && At(e, "publicStatus") == Bool(sec.publicStatus)
  {
  }

  lemma UptimeMerges(sec: Section, o: Object)
    requires sec.Uptime?
    ensures Merges(sec, o)
  {
    hide DeepMerge, Encode, Flag, IsFlag, FlagOk, NewFlag, Text, IsText, TextOk, NewText, Int, IsInt, IntOk, NewInt, List, IsList, ListOk,
         NewList;
    UptimeEncoded(sec);
    IntField(sec, o, "intervalSec", sec.intervalSec);
    IntField(sec, o, "retries", sec.retries);
    ListField(sec, o, "hostIds", sec.hostIds);
    FlagField(sec, o, "autoMonitor", sec.autoMonitor);
    FlagField(sec, o, "notify", sec.notify);
    FlagField(sec, o, "publicStatus", sec.publicStatus);
  }

  lemma GitHubMerges(sec: Section, o: Object)
    requires sec.GitHub?
    ensures Merges(sec, o)
  {
    hide DeepMerge;
    FlagField(sec, o, "autoDeploy", sec.autoDeploy);
    FlagField(sec, o, "waitChecks", sec.waitChecks);
    FlagField(sec, o, "onlyCompose", sec.onlyCompose);
    TextField(sec, o, "secretEnc", sec.secretEnc);
  }

  lemma UpdatesEncoded(sec: Section)
    requires sec.Updates?
    ensures var e := Encode(sec);
            && At(e, "auto") == Bool(sec.auto)
            && At(e, "channel") == Str(sec.channel)
            && At(e, "window") == Str(sec.window)
            && At(e, "backup") == Bool(sec.backup)
            && At(e, "build") == Str(sec.build)
            && At(e, "redeployOnPush") == Bool(sec.redeployOnPush)
            && At(e, "repo") == Str(sec.repo)
            && At(e, "composeFile") == Str(sec.composeFile)
            && At(e, "timezone") == Str(sec.timezone)
  {
  }

  lemma UpdatesMerges(sec: Section, o: Object)
    requires sec.Updates?
    ensures Merges(sec, o)
  {
    hide DeepMerge, Encode, Flag, IsFlag, FlagOk, NewFlag, Text, IsText, TextOk, NewText, Int, IsInt, IntOk, NewInt, List, IsList, ListOk,
         NewList;
    UpdatesEncoded(sec);
    FlagField(sec, o, "auto", sec.auto);
    TextField(sec, o, "channel", sec.channel);
    TextField(sec, o, "window", sec.window);
    FlagField(sec, o, "backup", sec.backup);
    TextField(sec, o, "build", sec.build);
    FlagField(sec, o, "redeployOnPush", sec.redeployOnPush);
    TextField(sec, o, "repo", sec.repo);
    TextField(sec, o, "composeFile", sec.composeFile);
    TextField(sec, o, "timezone", sec.timezone);
  }

  lemma NotificationsEncoded(sec: Section)
    requires sec.Notifications?
    ensures var e := Encode(sec);
            && At(e, "hostDown") == Bool(sec.hostDown)
            && At(e, "containerCrash") == Bool(sec.containerCrash)
            && At(e, "unhealthy") == Bool(sec.unhealthy)
            && At(e, "updates") == Bool(sec.updates)
            && At(e, "diskSpace") == Bool(sec.diskSpace)
            && At(e, "deploys") == Bool(sec.deploys)
            && At(e, "digest") == Bool(sec.digest)
  {
  }

  lemma NotificationsFits(sec: Section, o: Object)
    requires sec.Notifications?
    ensures Fits(KNotifications, DeepMerge(Encode(sec), o)) <==> Typed(sec, o)
  {
    hide DeepMerge, Encode, Flag, IsFlag, FlagOk, NewFlag;
    NotificationsEncoded(sec);
    FlagField(sec, o, "hostDown", sec.hostDown);
    FlagField(sec, o, "containerCrash", sec.containerCrash);
    FlagField(sec, o, "unhealthy", sec.unhealthy);
    FlagField(sec, o, "updates", sec.updates);
    FlagField(sec, o, "diskSpace", sec.diskSpace);
    FlagField(sec, o, "deploys", sec.deploys);
    FlagField(sec, o, "digest", sec.digest);
  }

  /** One flag of the section. */
  lemma NotificationAsked(sec: Section, o: Object, f: string, was: bool)
    requires sec.Notifications? && f != "tools" && At(Encode(sec), f) == Bool(was) && FlagOk(o, f)
    ensures Flag(DeepMerge(Encode(sec), o), f) == NewFlag(o, f, was)
  {
    FlagField(sec, o, f, was);
    hide DeepMerge, Encode;
  }

  lemma NotificationsFront(sec: Section, o: Object)
    requires sec.Notifications? && Typed(sec, o)
    ensures var x, a := Decoded(KNotifications, DeepMerge(Encode(sec), o)), Asked(sec, o);
            x.hostDown == a.hostDown && x.containerCrash == a.containerCrash && x.unhealthy == a.unhealthy && x.updates == a.updates
  {
    hide DeepMerge, Encode, Flag, FlagOk, NewFlag;
    NotificationsEncoded(sec);
    NotificationAsked(sec, o, "hostDown", sec.hostDown);
    NotificationAsked(sec, o, "containerCrash", sec.containerCrash);
    NotificationAsked(sec, o, "unhealthy", sec.unhealthy);
    NotificationAsked(sec, o, "updates", sec.updates);
  }

  lemma NotificationsBack(sec: Section, o: Object)
    requires sec.Notifications? && Typed(sec, o)
    ensures var x, a := Decoded(KNotifications, DeepMerge(Encode(sec), o)), Asked(sec, o);
            x.diskSpace == a.diskSpace && x.deploys == a.deploys && x.digest == a.digest
  {
    hide DeepMerge, Encode, Flag, FlagOk, NewFlag;
    NotificationsEncoded(sec);
    NotificationAsked(sec, o, "diskSpace", sec.diskSpace);
    NotificationAsked(sec, o, "deploys", sec.deploys);
    NotificationAsked(sec, o, "digest", sec.digest);
  }

  lemma NotificationsAsked(sec: Section, o: Object)
    requires sec.Notifications? && Typed(sec, o)
    ensures Decoded(KNotifications, DeepMerge(Encode(sec), o)) == Asked(sec, o)
  {
    NotificationsFront(sec, o);
    NotificationsBack(sec, o);
    hide DeepMerge, Encode, Flag, FlagOk, NewFlag, Typed;
  }

  lemma NotificationsMerges(sec: Section, o: Object)
    requires sec.Notifications?
    ensures Merges(sec, o)
  {
    hide DeepMerge, Encode, Fits, Typed, Decoded, Asked;
    NotificationsFits(sec, o);
    if Typed(sec, o) {
      NotificationsAsked(sec, o);
    }
  }

  lemma RegistryMerges(sec: Section, o: Object)
    requires sec.Registry?
    ensures Merges(sec, o)
  {
    hide DeepMerge;
    FlagField(sec, o, "enabled", sec.on);
    TextField(sec, o, "address", sec.address);
  }

  lemma MCPMerges(sec: Section, o: Object)
    requires sec.MCP?
    ensures Merges(sec, o)
  {
    hide DeepMerge, IsTools, Tools, ToolsOk, NewTools;
    Field(sec, o, "enabled");
    Field(sec, o, "transport");
    Field(sec, o, "port");
    ToolsMerged(sec, o);
  }

  lemma ToolsMerged(sec: Section, o: Object)
    requires sec.MCP?
    ensures var m := DeepMerge(Encode(sec), o);
            && (IsTools(m, "tools") <==> ToolsOk(o))
            && (ToolsOk(o) ==> Tools(m, "tools") == NewTools(o, sec.tools))
  {
    hide Merge, Encode;
    var e, m := Encode(sec), DeepMerge(Encode(sec), o);
    EncodedTools(sec);
    MergeAt(Obj(e), Obj(o), "tools");
    if "tools" !in o {
      ToolsReadBack(m, "tools", sec.tools);
    } else if o["tools"].Obj? {
      var mine := if sec.tools.Some? then sec.tools.value else map[];
      PrefsMerge(e["tools"], o["tools"], mine);
      var merged := m["tools"].fields;
      if ToolsOk(o) {
        assert Tools(m, "tools").value == NewTools(o, sec.tools).value;
      }
    } else {
      PlainMerge(e["tools"], o["tools"]);
    }
  }

  lemma EncodedTools(sec: Section)
    requires sec.MCP?
    ensures "tools" in Encode(sec) && Encode(sec)["tools"] == ToolsJson(sec.tools)
  {
  }

  lemma PlainMerge(base: Json, over: Json)
    ensures !base.Obj? || !over.Obj? ==> Merge(base, over) == over
  {
  }

  /** Each tool's preferences in the merged object. */
  lemma PrefsMerge(base: Json, over: Json, mine: map<string, ToolPref>)
    requires over.Obj? && (base == ToolsJson(Some(mine)) || (base == Null && mine == map[]))
    ensures var merged := Merge(base, over);
            && merged.Obj? && merged.fields.Keys == mine.Keys + over.fields.Keys
            && (forall n :: n in mine && n !in over.fields ==> IsPref(merged.fields[n]) && Pref(merged.fields[n]) == mine[n])
            && (forall n :: n in over.fields ==> (IsPref(merged.fields[n]) <==> PrefOk(over.fields[n])))
            && (forall n :: n in over.fields && PrefOk(over.fields[n]) ==>
                  Pref(merged.fields[n]) == NewPref(over.fields[n], if n in mine then mine[n] else ToolPref(false, false)))
  {
    hide Merge, PrefJson, IsPref, Pref, NewPref, PrefOk;
    PlainMerge(base, over);
    var merged := Merge(base, over);
    if base.Obj? {
      MergeAt(base, over, "");
    }
    forall n | n in mine && n !in over.fields ensures IsPref(merged.fields[n]) && Pref(merged.fields[n]) == mine[n] {
      MergeAt(base, over, n);
      PrefKept(mine[n]);
    }
    forall n | n in over.fields
      ensures IsPref(merged.fields[n]) <==> PrefOk(over.fields[n])
      ensures PrefOk(over.fields[n]) ==>
        Pref(merged.fields[n]) == NewPref(over.fields[n], if n in mine then mine[n] else ToolPref(false, false))
    {
      if n in mine {
        MergeAt(base, over, n);
        PrefMerges(mine[n], over.fields[n]);
      } else {
        if base.Obj? {
          MergeAt(base, over, n);
        }
        PrefAlone(over.fields[n]);
      }
    }
  }

  lemma PrefKept(p: ToolPref)
    ensures IsPref(PrefJson(p)) && Pref(PrefJson(p)) == p
  {
  }

  lemma PrefAlone(j: Json)
    ensures IsPref(j) <==> PrefOk(j)
    ensures PrefOk(j) ==> Pref(j) == NewPref(j, ToolPref(false, false))
  {
  }

  lemma PrefMerges(p: ToolPref, j: Json)
    ensures IsPref(Merge(PrefJson(p), j)) <==> PrefOk(j)
    ensures PrefOk(j) ==> Pref(Merge(PrefJson(p), j)) == NewPref(j, p)
  {
    PlainMerge(PrefJson(p), j);
    if j.Obj? {
      MergeAt(PrefJson(p), j, "enabled");
      MergeAt(PrefJson(p), j, "confirm");
      PlainMerge(Bool(p.enabled), At(j.fields, "enabled"));
      PlainMerge(Bool(p.confirm), At(j.fields, "confirm"));
      hide Merge;
    }
  }

  lemma SectionMerges(sec: Section, o: Object)
    ensures Merges(sec, o)
  {
    hide Merges;
    match sec
    case General(_, _) => GeneralMerges(sec, o);
    case Uptime(_, _, _, _, _, _) => UptimeMerges(sec, o);
    case GitHub(_, _, _, _) => GitHubMerges(sec, o);
    case MCP(_, _, _, _) => MCPMerges(sec, o);
    case Updates(_, _, _, _, _, _, _, _, _) => UpdatesMerges(sec, o);
    case Notifications(_, _, _, _, _, _, _) => NotificationsMerges(sec, o);
    case Registry(_, _) => RegistryMerges(sec, o);
  }

  // ---------------------------------------------------------------- what validate and normalize leave

  function Slashes(n: nat): string { seq(n, _ => '/') }

  /** The public URL without outer white space and the slashes behind it, or the default. */
  ghost predicate UrlFrom(x: string, u: string, default: string) {
    exists t, v, n: nat :: TrimmedFrom(t, u) && t == v + Slashes(n) && (v == "" || v[|v| - 1] != '/') && x == if v == "" then default else v
  }

  lemma {:induction false} SlashesCut(s: string)
    ensures exists n: nat :: s == TrimSlashes(s) + Slashes(n)
  {
    if s != "" && s[|s| - 1] == '/' {
      SlashesCut(s[..|s| - 1]);
      var n: nat :| s[..|s| - 1] == TrimSlashes(s) + Slashes(n);
      assert Slashes(n + 1) == Slashes(n) + ['/'];
      assert s == TrimSlashes(s) + Slashes(n + 1);
    } else {
      assert s == TrimSlashes(s) + Slashes(0);
    }
  }

  lemma UrlIs(u: string, default: string)
    ensures UrlFrom(if TrimUrl(u) == "" then default else TrimUrl(u), u, default)
  {
    TrimIs(u);
    SlashesCut(TrimSpace(u));
    TrimSlashesIs(TrimSpace(u));
    var n: nat :| TrimSpace(u) == TrimUrl(u) + Slashes(n);
  }

  /** The registry's address without outer white space, scheme and one slash behind it; a host, perhaps with a port. */
  ghost predicate AddressFrom(x: string, a: string) {
    && '/' !in x && ' ' !in x
    && exists t, f, g, b :: TrimmedFrom(t, a) && InParts(t, f, g, x, b)
  }

  predicate InParts(t: string, f: string, g: string, x: string, b: string) {
    t == f + (g + (x + b)) && f in {"", "https://"} && g in {"", "http://"} && b in {"", "/"}
  }

  lemma CleanIs(t: string) returns (f: string, g: string, b: string)
    ensures InParts(t, f, g, Cleaned(t), b)
  {
    var u, v;
    f, u := CutFront(t, "https://");
    g, v := CutFront(u, "http://");
    b := if HasSuffix(v, "/") then "/" else "";
    assert v == Cleaned(t) + b;
  }

  lemma CutFront(t: string, p: string) returns (f: string, rest: string)
    ensures t == f + rest && rest == TrimPrefix(t, p) && f in {"", p}
  {
    f, rest := if p <= t then p else "", TrimPrefix(t, p);
  }

  function Cleaned(t: string): string { TrimSuffix(TrimPrefix(TrimPrefix(t, "https://"), "http://"), "/") }

  lemma CleanedIs(a: string)
    ensures CleanAddress(a) == Cleaned(TrimSpace(a))
  {
  }

  /** Only one address can be left. */
  lemma CleanOnly(t: string, f: string, g: string, x: string, b: string)
    requires InParts(t, f, g, x, b) && '/' !in x
    ensures Cleaned(t) == x
  {
    var v := x + b;
    NoScheme(v, x, b);
    assert g == "http://" ==> (g + v)[7..] == v && (g + v)[4] == ':' && "https://"[4] == 's';
    assert f == "https://" ==> t[8..] == g + v;
    assert f == "" ==> t == g + v;
    assert g == "" ==> g + v == v;
    assert TrimPrefix(t, "https://") == g + v;
    assert TrimPrefix(g + v, "http://") == v;
    SlashEnd(x, b);
  }

  lemma SlashEnd(x: string, b: string)
    requires b in {"", "/"} && '/' !in x
    ensures TrimSuffix(x + b, "/") == x
  {
    var v := x + b;
    if b == "" {
      assert v == x && forall i :: 0 <= i < |x| ==> x[i] in x;
      assert v != "" ==> v[|v| - 1..][0] != '/';
    } else {
      assert v[|x|..] == "/" && v[..|x|] == x;
    }
  }

  lemma NoScheme(v: string, x: string, b: string)
    requires v == x + b && b in {"", "/"} && '/' !in x
    ensures !HasPrefix(v, "https://") && !HasPrefix(v, "http://")
  {
    assert forall i :: 0 <= i < |v| - 1 ==> v[i] == x[i] && x[i] in x;
    assert "https://"[6] == '/' && "http://"[5] == '/';
  }

  lemma NeitherOf(x: string)
    ensures ContainsAny(x, "/ ") <==> '/' in x || ' ' in x
  {
    assert forall c: char :: c in "/ " <==> c == '/' || c == ' ';
  }

  lemma AddressOnly(x: string, a: string)
    requires AddressFrom(x, a)
    ensures x == CleanAddress(a)
  {
    hide TrimmedFrom, CleanAddress, TrimSpace, Cleaned, InParts;
    var t, f, g, b :| TrimmedFrom(t, a) && InParts(t, f, g, x, b);
    TrimIs(a);
    CleanedIs(a);
    CleanOnly(t, f, g, x, b);
  }

  lemma AddressIs(a: string)
    ensures !ContainsAny(CleanAddress(a), "/ ") ==> AddressFrom(CleanAddress(a), a)
    ensures forall x :: AddressFrom(x, a) ==> x == CleanAddress(a) && !ContainsAny(CleanAddress(a), "/ ")
  {
    hide TrimmedFrom, CleanAddress, TrimSpace, Cleaned, InParts, ContainsAny;
    TrimIs(a);
    CleanedIs(a);
    var f, g, b := CleanIs(TrimSpace(a));
    NeitherOf(CleanAddress(a));
    forall x | AddressFrom(x, a) ensures x == CleanAddress(a) {
      AddressOnly(x, a);
    }
  }

  /** What is stored of a section that was asked for, with the same section of the defaults. */
  ghost predicate Stored(x: Section, a: Section, d: Section)
  {
    KeyOf(x) == KeyOf(a) == KeyOf(d) &&
    match a
    case General(u, dom) => UrlFrom(x.publicUrl, u, d.publicUrl) && TrimmedFrom(x.domain, dom)
    case Uptime(_, _, h, _, _, _) => x == a.(hostIds := Some(if h.Some? then h.value else []))
    case MCP(_, _, _, t) => ToolsFrom(x, a, d)
    case Updates(_, _, _, _, _, _, r, _, tz) =>
      && x == a.(timezone := x.timezone, repo := if r in {"", "dockhand-app/dockhand"} then d.repo else r)
      && TrimmedFrom(x.timezone, tz)
    case Registry(_, ad) => x == a.(address := x.address) && AddressFrom(x.address, ad)
    case _ => x == a
  }

  /** Tools without a preference of their own have the default's. */
  ghost predicate ToolsFrom(x: Section, a: Section, d: Section)
    requires x.MCP? && a.MCP? && d.MCP?
  {
    var mine, theirs := if a.tools.Some? then a.tools.value else map[], if d.tools.Some? then d.tools.value else map[];
    && x == a.(tools := x.tools) && x.tools.Some?
    && (forall n :: n in x.tools.value <==> n in mine || n in theirs)
    && forall n :: n in x.tools.value ==> x.tools.value[n] == if n in mine then mine[n] else theirs[n]
  }

  lemma StoredIs(a: Section, d: Section, rules: Rules)
    requires KeyOf(a) == KeyOf(d) && Accepted(a, rules)
    ensures Stored(Settle(a, d), a, d)
  {
    hide UrlFrom, TrimmedFrom, AddressFrom, TrimUrl, CleanAddress, TrimSpace;
    match a
    case General(u, dom) =>
      UrlIs(u, d.publicUrl);
      TrimIs(dom);
    case Updates(_, _, _, _, _, _, _, _, tz) => TrimIs(tz);
    case Registry(_, ad) => AddressIs(ad);
    case _ =>
  }

  /** What validate demands. */
  ghost predicate Valid(a: Section, rules: Rules) {
    match a
    case Uptime(i, r, _, _, _, _) => (i == 30 || i == 60 || i == 300) && (r == 1 || r == 2 || r == 3)
    case MCP(_, t, p, _) => (t == "http" || t == "sse") && (p == 0 || 1024 <= p <= 65535)
    case Updates(_, c, w, _, b, _, _, _, tz) =>
      && (c == "stable" || c == "beta" || c == "nightly") && (b == "pull" || b == "build") && rules.goodWindow(w)
      && (AllSpace(tz) || exists z :: TrimmedFrom(z, tz) && rules.knownZone(z))
    case Registry(_, ad) => exists x :: AddressFrom(x, ad)
    case _ => true
  }

  lemma ValidIs(a: Section, rules: Rules)
    ensures Accepted(a, rules) <==> Valid(a, rules)
  {
    hide TrimmedFrom, AddressFrom, CleanAddress, TrimSpace;
    match a
    case Updates(_, _, _, _, _, _, _, _, tz) =>
      TrimIs(tz);
      BlankTrims(tz);
    case Registry(_, ad) => AddressIs(ad);
    case _ =>
  }

  lemma {:induction false} NotAllCut(s: string)
    ensures TrimLeft(s) == "" ==> AllSpace(s)
    ensures TrimSpace(s) == "" ==> AllSpace(s)
  {
    LeftIs(s);
    var a :| AllSpace(a) && s == a + TrimLeft(s);
    RightIs(TrimLeft(s));
    var b :| AllSpace(b) && TrimLeft(s) == TrimSpace(s) + b;
    assert TrimSpace(s) == "" ==> TrimLeft(s) == b && s == a + b;
  }

  lemma BlankTrims(s: string)
    ensures TrimSpace(s) == "" <==> AllSpace(s)
  {
    TrimIs(s);
    if AllSpace(s) {
      OuterSpace(s, "", "");
      assert s + "" + "" == s && TrimSpace("") == "";
    }
    assert AllSpace(s) || TrimSpace(s) != "" by { NotAllCut(s); }
  }

  // ---------------------------------------------------------------- the patch

  /** The section that a patch asks for: nothing of github's secret, which only the server writes. */
  function AskedOf(sec: Section, p: Patch): (a: Section)
    ensures KeyOf(a) == KeyOf(sec)
  {
    if KeyOf(sec) !in p then sec
    else
      var a := Asked(sec, p[KeyOf(sec)]);
      if a.GitHub? then a.(secretEnc := sec.secretEnc) else a
  }

  predicate TypedOf(sec: Section, p: Patch) {
    KeyOf(sec) in p ==>
      var o := p[KeyOf(sec)];
      if sec.GitHub? then FlagOk(o, "autoDeploy") && FlagOk(o, "waitChecks") && FlagOk(o, "onlyCompose") else Typed(sec, o)
  }

  lemma OverlaidIs(cur: Settings, p: Patch, k: Key)
    requires Whole(cur) && Known(k)
    ensures var m := Overlaid(cur, p)[k];
            (Fits(k, m) <==> TypedOf(cur[k], p)) && (Fits(k, m) ==> Decoded(k, m) == AskedOf(cur[k], p))
  {
    hide Encode, DeepMerge, Fits, Decoded, Typed, Asked;
    var sec := cur[k];
    if k !in p {
      SectionReadsBack(sec);
    } else {
      var o := p[k] - ReadOnly(k);
      SectionMerges(sec, o);
      if sec.GitHub? {
        SecretDropped(sec, p[k]);
      } else {
        assert o == p[k];
      }
    }
  }

  lemma SecretDropped(sec: Section, o: Object)
    requires sec.GitHub?
    ensures var q := o - ReadOnly(KGitHub);
            && (Typed(sec, q) <==> FlagOk(o, "autoDeploy") && FlagOk(o, "waitChecks") && FlagOk(o, "onlyCompose"))
            && Asked(sec, o).GitHub? && Asked(sec, q) == Asked(sec, o).(secretEnc := sec.secretEnc)
  {
    var q := o - ReadOnly(KGitHub);
    forall f | f in {"autoDeploy", "waitChecks", "onlyCompose"} ensures (f in q <==> f in o) && (f in q ==> q[f] == o[f]) {
      assert f !in ReadOnly(KGitHub);
    }
    assert "secretEnc" !in q;
  }

  /** A patch is accepted exactly when it names known sections, with values of the right types, and every section it
      asks for is valid. Each section is then stored as asked for, trimmed and completed from the defaults. */
  lemma PatchIs(ds: Settings, rules: Rules, cur: Settings, p: Patch)
    requires Whole(ds) && Whole(cur)
    ensures Patched(ds, rules, cur, p).Some? <==>
      AllKnown(p.Keys) && forall k :: Known(k) ==> TypedOf(cur[k], p) && Valid(AskedOf(cur[k], p), rules)
    ensures Patched(ds, rules, cur, p).Some? ==>
      forall k :: Known(k) ==> Stored(Patched(ds, rules, cur, p).value[k], AskedOf(cur[k], p), ds[k])
  {
    hide Valid, AskedOf, TypedOf, Stored, Patched, Passes;
    forall k | Known(k) ensures Passes(rules, cur, p, k) <==> TypedOf(cur[k], p) && Valid(AskedOf(cur[k], p), rules) {
      PassesIs(rules, cur, p, k);
    }
    PatchedWhen(ds, rules, cur, p);
    if Patched(ds, rules, cur, p).Some? {
      forall k | Known(k) ensures Stored(Patched(ds, rules, cur, p).value[k], AskedOf(cur[k], p), ds[k]) {
        StoredAt(ds, rules, cur, p, k);
      }
    }
  }

  /** The section has the right types and is valid. */
  ghost predicate Passes(rules: Rules, cur: Settings, p: Patch, k: Key)
    requires Whole(cur) && Known(k)
  {
    Fits(k, Overlaid(cur, p)[k]) && Accepted(Decoded(k, Overlaid(cur, p)[k]), rules)
  }

  lemma PassesIs(rules: Rules, cur: Settings, p: Patch, k: Key)
    requires Whole(cur) && Known(k)
    ensures Passes(rules, cur, p, k) <==> TypedOf(cur[k], p) && Valid(AskedOf(cur[k], p), rules)
  {
    hide Encode, Decoded, Fits, Accepted, Valid, AskedOf, TypedOf, DeepMerge;
    OverlaidIs(cur, p, k);
    ValidIs(AskedOf(cur[k], p), rules);
  }

  lemma StoredAt(ds: Settings, rules: Rules, cur: Settings, p: Patch, k: Key)
    requires Whole(ds) && Whole(cur) && Known(k) && Patched(ds, rules, cur, p).Some?
    ensures Stored(Patched(ds, rules, cur, p).value[k], AskedOf(cur[k], p), ds[k])
  {
    hide Encode, Decoded, Fits, Accepted, AskedOf, TypedOf, DeepMerge, Stored, Settle, Patched;
    PatchedAt(ds, rules, cur, p, k);
    OverlaidIs(cur, p, k);
    PatchedWhen(ds, rules, cur, p);
    assert Passes(rules, cur, p, k);
    StoredIs(AskedOf(cur[k], p), ds[k], rules);
  }

  lemma PatchedWhen(ds: Settings, rules: Rules, cur: Settings, p: Patch)
    requires Whole(ds) && Whole(cur)
    ensures Patched(ds, rules, cur, p).Some? <==> AllKnown(p.Keys) && forall k :: Known(k) ==> Passes(rules, cur, p, k)
  {
    hide Encode, Decoded, Fits, Settle, Accepted, DeepMerge;
    var m := Overlaid(cur, p);
    assert forall k :: k in m <==> Known(k);
    if FromMap(m).Some? {
      assert forall k :: k in m ==> FromMap(m).value[k] == Decoded(k, m[k]);
    }
  }

  // ---------------------------------------------------------------- load

  /** A row that is an object is laid over the default; anything else is passed over. */
  function RowAsks(d: Section, rows: Rows): (a: Section)
    ensures KeyOf(a) == KeyOf(d)
  {
    if KeyOf(d) in rows && rows[KeyOf(d)].Obj? then Asked(d, rows[KeyOf(d)].fields) else d
  }

  /** What is loaded of a section, with the same section of the defaults; nothing is trimmed. */
  ghost predicate Completed(x: Section, a: Section, d: Section)
  {
    KeyOf(x) == KeyOf(a) == KeyOf(d) &&
    match a
    case General(u, _) => x == a.(publicUrl := if u == "" then d.publicUrl else u)
    case Uptime(_, _, h, _, _, _) => x == a.(hostIds := Some(if h.Some? then h.value else []))
    case MCP(_, _, _, t) => ToolsFrom(x, a, d)
    case Updates(_, _, _, _, _, _, r, _, _) => x == a.(repo := if r in {"", "dockhand-app/dockhand"} then d.repo else r)
    case _ => x == a
  }

  lemma CompletedIs(a: Section, d: Section)
    requires KeyOf(a) == KeyOf(d)
    ensures Completed(Normal(a, d), a, d)
  {
  }

  /** Loading succeeds exactly when every row that is an object has values of the right types, and then gives each
      section as the defaults with the row's values on top. */
  lemma LoadIs(ds: Settings, rows: Rows)
    requires Whole(ds)
    ensures Loaded(ds, rows).Some? <==>
      forall k :: Known(k) && k in rows && rows[k].Obj? ==> Typed(ds[k], rows[k].fields)
    ensures Loaded(ds, rows).Some? ==>
      forall k :: Known(k) ==> Completed(Loaded(ds, rows).value[k], RowAsks(ds[k], rows), ds[k])
  {
    hide Typed, Completed, RowAsks, Reads, Loaded;
    forall k | Known(k) ensures Reads(ds[k], rows) <==> (k in rows && rows[k].Obj? ==> Typed(ds[k], rows[k].fields)) {
      RowIs(ds[k], rows);
    }
    LoadedWhen(ds, rows);
    if Loaded(ds, rows).Some? {
      forall k | Known(k) ensures Completed(Loaded(ds, rows).value[k], RowAsks(ds[k], rows), ds[k]) {
        LoadedAt(ds, rows, k);
      }
    }
  }

  /** The row's values have the right types. */
  ghost predicate Reads(d: Section, rows: Rows) { Fits(KeyOf(d), Overlay(Encode(d), rows, KeyOf(d))) }

  lemma LoadedWhen(ds: Settings, rows: Rows)
    requires Whole(ds)
    ensures Loaded(ds, rows).Some? <==> forall k :: Known(k) ==> Reads(ds[k], rows)
  {
    hide Encode, Decoded, Fits, Normal, Overlay;
    var m := map k | k in ds :: Overlay(Encode(ds[k]), rows, k);
    assert forall k :: k in m <==> Known(k);
    assert forall k :: Known(k) ==> (Fits(k, m[k]) <==> Reads(ds[k], rows));
  }

  lemma LoadedAt(ds: Settings, rows: Rows, k: Key)
    requires Whole(ds) && Known(k) && Loaded(ds, rows).Some?
    ensures Completed(Loaded(ds, rows).value[k], RowAsks(ds[k], rows), ds[k])
  {
    hide Encode, Decoded, Fits, Normal, Overlay, Completed, RowAsks;
    LoadedWhen(ds, rows);
    RowIs(ds[k], rows);
    CompletedIs(RowAsks(ds[k], rows), ds[k]);
    var m := map k | k in ds :: Overlay(Encode(ds[k]), rows, k);
    assert Loaded(ds, rows).value[k] == Normal(Decoded(k, m[k]), ds[k]);
  }

  lemma RowIs(d: Section, rows: Rows)
    ensures var k, m := KeyOf(d), Overlay(Encode(d), rows, KeyOf(d));
            && (Reads(d, rows) <==> (k in rows && rows[k].Obj? ==> Typed(d, rows[k].fields)))
            && (Reads(d, rows) ==> Decoded(k, m) == RowAsks(d, rows))
  {
    hide Encode, Decoded, Fits, Typed, Asked, DeepMerge;
    SectionReadsBack(d);
    if KeyOf(d) in rows && rows[KeyOf(d)].Obj? {
      SectionMerges(d, rows[KeyOf(d)].fields);
    }
  }
}

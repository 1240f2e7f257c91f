/** Which issues a check reports and which fixes it offers (deploycheck/check.go, conflictIssues), in terms of the
    containers, the listening ports and the request alone. */
module PortRules {
  import opened Wrappers
  import opened Strings
  import opened Ports

  /** The container belongs to what is being deployed again. */
  predicate Redeployed(inp: Input, c: Container) {
    (inp.kind == "image" && c.name == inp.name) || (inp.kind != "image" && c.stack == inp.name)
  }

  /** Container i, which stays, publishes this port with this protocol. */
  predicate OwnsIt(inp: Input, f: Facts, i: nat, p: HostPort)
    requires i < |f.containers|
  {
    var c := f.containers[i];
    !Redeployed(inp, c) && exists j :: 0 <= j < |c.ports| && c.ports[j].port == p.port && c.ports[j].proto == p.proto
  }

  /** And is the first to do so. */
  predicate FirstOwner(inp: Input, f: Facts, p: HostPort, i: int) {
    0 <= i < |f.containers| && OwnsIt(inp, f, i, p) && forall h :: 0 <= h < i ==> !OwnsIt(inp, f, h, p)
  }

  ghost predicate Owned(inp: Input, f: Facts, p: HostPort) { exists i :: 0 <= i < |f.containers| && OwnsIt(inp, f, i, p) }

  /** A container that stays, or one that goes, publishes the port with some protocol. */
  ghost predicate Published(inp: Input, f: Facts, n: int, staying: bool) {
    exists i, j :: 0 <= i < |f.containers| && 0 <= j < |f.containers[i].ports|
      && (Redeployed(inp, f.containers[i]) <==> !staying) && f.containers[i].ports[j].port == n
  }

  /** Something else on the host listens on the requested port. */
  ghost predicate InUse(inp: Input, f: Facts, p: HostPort) {
    p.proto == "tcp" && p.port in f.listening && !Published(inp, f, p.port, false)
  }

  /** Nothing stands in the way of this port as a fix before the first k issues' fixes. */
  ghost predicate Usable(inp: Input, f: Facts, req: seq<HostPort>, issues: seq<Issue>, k: nat, n: int)
    requires k <= |issues|
  {
    && 1 <= n <= 65535 && n !in f.listening && !Published(inp, f, n, true)
    && (forall i :: 0 <= i < |req| ==> req[i].port != n)
    && forall l :: 0 <= l < k ==> issues[l].fix.None? || issues[l].fix.value != n
  }

  lemma ConflictIs(inp: Input, f: Facts, o: Owners, p: HostPort)
    requires OwnersOf(inp, f.containers, o)
    ensures KeyOf(p) in o.owner <==> Owned(inp, f, p)
    ensures KeyOf(p) !in o.owner ==> (Conflict(o, f.listening, p) == Some(Listening) <==> InUse(inp, f, p))
    ensures KeyOf(p) !in o.owner && !InUse(inp, f, p) ==> Conflict(o, f.listening, p) == None
    ensures KeyOf(p) in o.owner ==> Conflict(o, f.listening, p) == Some(OwnedBy(o.owner[KeyOf(p)]))
  {
    var cs := f.containers;
    assert forall c :: SameDeploy(inp, c) <==> Redeployed(inp, c);
    if KeyOf(p) in o.owner {
      var i, j :| 0 <= i < |cs| && !SameDeploy(inp, cs[i]) && 0 <= j < |cs[i].ports| && KeyOf(cs[i].ports[j]) == KeyOf(p);
      assert OwnsIt(inp, f, i, p);
    }
    if Owned(inp, f, p) {
      var i :| 0 <= i < |cs| && OwnsIt(inp, f, i, p);
      var j :| 0 <= j < |cs[i].ports| && cs[i].ports[j].port == p.port && cs[i].ports[j].proto == p.proto;
      assert KeyOf(cs[i].ports[j]) == KeyOf(p);
    }
    OwnIs(inp, f, o, p.port);
    hide OwnersOf;
  }

  lemma OwnIs(inp: Input, f: Facts, o: Owners, n: int)
    requires OwnersOf(inp, f.containers, o)
    ensures n in o.own <==> Published(inp, f, n, false)
    ensures n in o.used <==> Published(inp, f, n, true)
  {
    var cs := f.containers;
    assert forall c :: SameDeploy(inp, c) <==> Redeployed(inp, c);
    if Published(inp, f, n, false) {
      var i, j :| 0 <= i < |cs| && 0 <= j < |cs[i].ports| && Redeployed(inp, cs[i]) && cs[i].ports[j].port == n;
      assert SameDeploy(inp, cs[i]);
    }
    if Published(inp, f, n, true) {
      var i, j :| 0 <= i < |cs| && 0 <= j < |cs[i].ports| && !Redeployed(inp, cs[i]) && cs[i].ports[j].port == n;
      assert !SameDeploy(inp, cs[i]);
    }
  }

  /** What an issue says: the first container that stays and publishes the port, or that something listens on it. */
  ghost predicate IssueTells(inp: Input, f: Facts, i: Issue) {
    match i.reason
    case Listening => !Owned(inp, f, i.req) && InUse(inp, f, i.req)
    case OwnedBy(name) => exists n :: FirstOwner(inp, f, i.req, n) && f.containers[n].name == name
  }

  /** The issues are those of the requested entries that a container which stays publishes or something else listens
      on, and say so. */
  lemma IssuesTell(inp: Input, f: Facts, req: seq<HostPort>, o: Owners, issues: seq<Issue>)
    requires OwnersOf(inp, f.containers, o) && IssuesOf(o, f.listening, req, Blocked(o, f.listening, req), issues)
    ensures forall p :: p in req ==>
      (Owned(inp, f, p) || InUse(inp, f, p) <==> exists k :: 0 <= k < |issues| && issues[k].req == p)
    ensures forall k :: 0 <= k < |issues| ==> issues[k].req in req && IssueTells(inp, f, issues[k])
  {
    hide IsNextFree, OwnersOf, Owned, InUse, IssueTells;
    forall p | p in req ensures Owned(inp, f, p) || InUse(inp, f, p) <==> exists k :: 0 <= k < |issues| && issues[k].req == p {
      ConflictIs(inp, f, o, p);
    }
    forall k | 0 <= k < |issues| ensures IssueTells(inp, f, issues[k]) {
      OneTells(inp, f, o, issues[k]);
    }
  }

  lemma OneTells(inp: Input, f: Facts, o: Owners, i: Issue)
    requires OwnersOf(inp, f.containers, o) && Conflict(o, f.listening, i.req) == Some(i.reason)
    ensures IssueTells(inp, f, i)
  {
    hide OwnersOf, Owned, InUse, FirstOwner;
    ConflictIs(inp, f, o, i.req);
    if KeyOf(i.req) in o.owner {
      OwnerIs(inp, f, o, i.req);
    }
  }

  lemma OwnerIs(inp: Input, f: Facts, o: Owners, p: HostPort)
    requires OwnersOf(inp, f.containers, o) && KeyOf(p) in o.owner
    ensures exists i :: FirstOwner(inp, f, p, i) && f.containers[i].name == o.owner[KeyOf(p)]
  {
    var cs, k := f.containers, KeyOf(p);
    assert FirstPublisher(inp, cs, k, o.owner[k]);
    var i :| 0 <= i < |cs| && Publishes(inp, cs[i], k) && cs[i].name == o.owner[k] && forall h :: 0 <= h < i ==> !Publishes(inp, cs[h], k);
    forall h | 0 <= h < |cs| ensures Publishes(inp, cs[h], k) <==> OwnsIt(inp, f, h, p) {
      assert SameDeploy(inp, cs[h]) <==> Redeployed(inp, cs[h]);
      if Publishes(inp, cs[h], k) {
        var j :| 0 <= j < |cs[h].ports| && KeyOf(cs[h].ports[j]) == k;
        assert cs[h].ports[j].port == p.port && cs[h].ports[j].proto == p.proto;
      }
      if OwnsIt(inp, f, h, p) {
        var j :| 0 <= j < |cs[h].ports| && cs[h].ports[j].port == p.port && cs[h].ports[j].proto == p.proto;
        assert KeyOf(cs[h].ports[j]) == k;
      }
    }
    assert FirstOwner(inp, f, p, i);
  }

  /** The fix of an issue is the least usable port above the requested one; there is none for a range, and otherwise
      only if no port above is usable. */
  lemma FixesTell(inp: Input, f: Facts, req: seq<HostPort>, o: Owners, issues: seq<Issue>, k: nat)
    requires OwnersOf(inp, f.containers, o) && IssuesOf(o, f.listening, req, Blocked(o, f.listening, req), issues) && k < |issues|
    ensures issues[k].req.isRange ==> issues[k].fix.None?
    ensures issues[k].fix.Some? ==>
      && Usable(inp, f, req, issues, k, issues[k].fix.value) && issues[k].req.port < issues[k].fix.value
      && forall n :: issues[k].req.port < n < issues[k].fix.value ==> !Usable(inp, f, req, issues, k, n)
    ensures !issues[k].req.isRange && issues[k].fix.None? ==>
      forall n :: issues[k].req.port < n ==> !Usable(inp, f, req, issues, k, n)
  {
    var blocked := Blocked(o, f.listening, req);
    forall n | 1 <= n <= 65535 ensures Usable(inp, f, req, issues, k, n) <==> n !in blocked + Picks(issues[..k]) {
      UsableIs(inp, f, req, o, issues, k, n);
    }
    hide OwnersOf, Usable, Picks;
  }

  lemma UsableIs(inp: Input, f: Facts, req: seq<HostPort>, o: Owners, issues: seq<Issue>, k: nat, n: int)
    requires OwnersOf(inp, f.containers, o) && k < |issues| && 1 <= n <= 65535
    ensures Usable(inp, f, req, issues, k, n) <==> n !in Blocked(o, f.listening, req) + Picks(issues[..k])
  {
    OwnIs(inp, f, o, n);
    hide OwnersOf, Published;
    if exists l :: 0 <= l < k && issues[l].fix == Some(n) {
      var l :| 0 <= l < k && issues[l].fix == Some(n);
      assert issues[..k][l] == issues[l] && issues[l] in issues[..k];
      assert issues[l].fix.value in Picks(issues[..k]);
    }
    if n in Picks(issues[..k]) {
      var i :| i in issues[..k] && i.fix.Some? && i.fix.value == n;
      var l :| 0 <= l < k && issues[..k][l] == i;
      assert issues[l].fix == Some(n);
    }
    if n in PortSet(req) {
      var p :| p in req && p.port == n;
      var i :| 0 <= i < |req| && req[i] == p;
    }
    if exists i :: 0 <= i < |req| && req[i].port == n {
      var i :| 0 <= i < |req| && req[i].port == n;
      assert req[i] in req;
    }
  }
}

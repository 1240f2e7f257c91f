/** Name and port conflicts of a deployment and the fixes offered for them (deploycheck/parse.go and
    deploycheck/check.go). */
module Ports {
  import opened Wrappers
  import opened Strings

  // ---------------------------------------------------------------- free names

  function Numbered(base: string, i: nat): string { base + "-" + Itoa(i) }

  lemma NumberedInjective(base: string, i: nat, j: nat)
    requires Numbered(base, i) == Numbered(base, j)
    ensures i == j
  {
    assert Numbered(base, i)[|base| + 1..] == Itoa(i);
    assert Numbered(base, j)[|base| + 1..] == Itoa(j);
    ItoaInjective(i, j);
  }

  /** NextFreeName: "<base>-N" for the smallest N >= 2 not taken. The search ends after at most one try more
      than there are taken names, because every try so far hit a different one of them. */
  method NextFreeName(base: string, taken: set<string>) returns (name: string, ghost n: nat)
    ensures name == Numbered(base, n) && name !in taken
    ensures 2 <= n <= |taken| + 2
    ensures forall i :: 2 <= i < n ==> Numbered(base, i) in taken
  {
    var i := 2;
    ghost var hit: set<string> := {};
    while true
      invariant 2 <= i
      invariant hit <= taken && |hit| == i - 2
      invariant forall k :: 2 <= k < i ==> Numbered(base, k) in hit
      invariant forall x :: x in hit ==> exists k :: 2 <= k < i && x == Numbered(base, k)
      decreases |taken| - |hit|
    {
      Fits(hit, taken);
      var candidate := Numbered(base, i);
      if candidate !in taken {
        return candidate, i;
      }
      if candidate in hit {
        var k :| 2 <= k < i && candidate == Numbered(base, k);
        NumberedInjective(base, i, k);
      }
      Fits(hit + {candidate}, taken);
      hit := hit + {candidate};
      i := i + 1;
    }
  }

  lemma {:induction false} Fits(a: set<string>, b: set<string>)
    requires a <= b
    ensures |a| <= |b|
  {
    if a != {} {
      var x :| x in a;
      Fits(a - {x}, b - {x});
    }
  }

  /** A name that is taken: whether that stops the deployment, and the name to use instead. */
  datatype NameIssue = NameIssue(stops: bool, fix: string)

  /** The names of the containers, or of the stacks on disk and of those that run. */
  ghost predicate Taken(inp: Input, cs: Option<seq<Container>>, paths: Option<set<string>>, name: string) {
    if inp.kind == "image" then cs.Some? && exists c :: c in cs.value && c.name == name
    else (paths.Some? && name in paths.value) || (cs.Some? && name != "" && exists c :: c in cs.value && c.stack == name)
  }

  /** The name part of conflictIssues; `valid` is whether docker accepts the name. */
  method NameConflict(inp: Input, valid: bool, cs: Option<seq<Container>>, paths: Option<set<string>>)
    returns (issue: Option<NameIssue>)
    ensures issue.Some? <==> inp.name != "" && valid && Taken(inp, cs, paths, inp.name)
    ensures issue.Some? ==>
      && (issue.value.stops <==> inp.kind == "image")
      && exists n :: n >= 2 && issue.value.fix == Numbered(inp.name, n) && !Taken(inp, cs, paths, issue.value.fix)
           && forall i :: 2 <= i < n ==> Taken(inp, cs, paths, Numbered(inp.name, i))
  {
    issue := None;
    if inp.name == "" || !valid {
      return;
    }
    var taken: set<string> := if inp.kind != "image" && paths.Some? then paths.value else {};
    if cs.Some? {
      for k := 0 to |cs.value|
        invariant forall n :: n in taken <==>
          || (inp.kind == "image" && exists c :: c in cs.value[..k] && c.name == n)
          || (inp.kind != "image" && ((paths.Some? && n in paths.value) || (n != "" && exists c :: c in cs.value[..k] && c.stack == n)))
      {
        var c := cs.value[k];
        assert cs.value[..k + 1] == cs.value[..k] + [c] && c in cs.value[..k + 1];
        if inp.kind == "image" {
          taken := taken + {c.name};
        } else if c.stack != "" {
          taken := taken + {c.stack};
        }
      }
      assert cs.value[..|cs.value|] == cs.value;
    }
    assert forall n :: n in taken <==> Taken(inp, cs, paths, n);
    if inp.name in taken {
      var fix, n := NextFreeName(inp.name, taken);
      issue := Some(NameIssue(inp.kind == "image", fix));
    }
  }

  // ---------------------------------------------------------------- free ports

  const LAST_PORT: int := 65535

  /** The first port above n that is not taken, 0 if there is none. */
  ghost predicate IsNextFree(n: int, taken: set<int>, p: int) {
    || (n < p <= LAST_PORT && p !in taken && forall q :: n < q < p ==> q in taken)
    || (p == 0 && forall q :: n < q <= LAST_PORT ==> q in taken)
  }

  method NextFreePort(n: int, taken: set<int>) returns (p: int)
    ensures IsNextFree(n, taken, p)
  {
    p := n + 1;
    while p <= LAST_PORT
      invariant n < p
      invariant forall q :: n < q < p ==> q in taken
    {
      if p !in taken {
        return;
      }
      p := p + 1;
    }
    return 0;
  }

  // ---------------------------------------------------------------- requested ports

  type PortNum = p: int | 1 <= p <= LAST_PORT witness 1

  datatype HostPort = HostPort(port: PortNum, proto: string, raw: string, isRange: bool)

  /** The source's key "port/proto". */
  datatype PortKey = PortKey(port: int, proto: string)

  function KeyOf(p: HostPort): PortKey { PortKey(p.port, p.proto) }

  ghost predicate DistinctKeys(req: seq<HostPort>) {
    forall i, j :: 0 <= i < j < |req| ==> KeyOf(req[i]) != KeyOf(req[j])
  }

  function KeySet(ps: seq<HostPort>): set<PortKey> { set p | p in ps :: KeyOf(p) }

  /** requestedPorts' last loop: keeps the first entry of every key, in order. */
  function Dedup(all: seq<HostPort>): seq<HostPort> {
    if all == [] then []
    else
      var init, last := all[..|all| - 1], all[|all| - 1];
      if KeyOf(last) in KeySet(init) then Dedup(init) else Dedup(init) + [last]
  }

  method RequestedPorts(all: seq<HostPort>) returns (out: seq<HostPort>)
    ensures out == Dedup(all)
  {
    out := [];
    var seen: set<PortKey> := {};
    for i := 0 to |all|
      invariant out == Dedup(all[..i]) && seen == KeySet(all[..i])
    {
      var p := all[i];
      assert all[..i + 1][..i] == all[..i];
      assert all[..i + 1] == all[..i] + [p];
      if KeyOf(p) !in seen {
        seen := seen + {KeyOf(p)};
        out := out + [p];
      }
    }
    assert all[..|all|] == all;
  }

  lemma KeySetSnoc(ps: seq<HostPort>, p: HostPort)
    ensures KeySet(ps + [p]) == KeySet(ps) + {KeyOf(p)}
  {
    assert forall x :: x in ps + [p] <==> x in ps || x == p;
  }

  /** Every key that was asked for is there once. */
  lemma {:induction false} DedupKeys(all: seq<HostPort>)
    ensures DistinctKeys(Dedup(all)) && KeySet(Dedup(all)) == KeySet(all)
  {
    if all != [] {
      var init, last := all[..|all| - 1], all[|all| - 1];
      assert all == init + [last];
      DedupKeys(init);
      KeySetSnoc(init, last);
      KeySetSnoc(Dedup(init), last);
      forall i | KeyOf(last) !in KeySet(init) && 0 <= i < |Dedup(init)| ensures KeyOf(Dedup(init)[i]) != KeyOf(last) {
        assert KeyOf(Dedup(init)[i]) in KeySet(Dedup(init));
      }
    }
  }

  /** The entry that is kept for a key is the first one. */
  lemma {:induction false} DedupKeepsFirst(all: seq<HostPort>, i: nat)
    requires i < |all| && KeyOf(all[i]) !in KeySet(all[..i])
    ensures all[i] in Dedup(all)
  {
    var init := all[..|all| - 1];
    if i < |init| {
      assert init[..i] == all[..i] && init[i] == all[i];
      DedupKeepsFirst(init, i);
    } else {
      assert init == all[..i];
    }
  }

  // ---------------------------------------------------------------- conflicts

  datatype Container = Container(name: string, stack: string, ports: seq<HostPort>)

  datatype Facts = Facts(containers: seq<Container>, listening: set<int>)

  datatype Input = Input(kind: string, name: string)

  /** Containers of the stack or container being redeployed. */
  predicate SameDeploy(inp: Input, c: Container) {
    if inp.kind == "image" then c.name == inp.name else c.stack == inp.name
  }

  datatype Reason = OwnedBy(container: string) | Listening
  datatype Issue = Issue(req: HostPort, reason: Reason, fix: Option<PortNum>)

  /** What the host has: who publishes which port, the ports of the redeployed one, the ports in use. */
  datatype Owners = Owners(owner: map<PortKey, string>, own: set<int>, used: set<int>)

  predicate Publishes(inp: Input, c: Container, k: PortKey) {
    !SameDeploy(inp, c) && exists j :: 0 <= j < |c.ports| && KeyOf(c.ports[j]) == k
  }

  /** The first container, apart from the redeployed ones, that publishes the port has this name. */
  ghost predicate FirstPublisher(inp: Input, cs: seq<Container>, k: PortKey, name: string) {
    exists i :: 0 <= i < |cs| && Publishes(inp, cs[i], k) && cs[i].name == name
      && forall h :: 0 <= h < i ==> !Publishes(inp, cs[h], k)
  }

  ghost predicate OwnersOf(inp: Input, cs: seq<Container>, o: Owners) {
    && (forall k :: k in o.owner ==> FirstPublisher(inp, cs, k, o.owner[k]))
    && (forall k :: k in o.owner <==>
          exists i, j :: 0 <= i < |cs| && !SameDeploy(inp, cs[i]) && 0 <= j < |cs[i].ports| && KeyOf(cs[i].ports[j]) == k)
    && (forall p :: p in o.own <==>
          exists i, j :: 0 <= i < |cs| && SameDeploy(inp, cs[i]) && 0 <= j < |cs[i].ports| && cs[i].ports[j].port == p)
    && (forall p :: p in o.used <==>
          exists i, j :: 0 <= i < |cs| && !SameDeploy(inp, cs[i]) && 0 <= j < |cs[i].ports| && cs[i].ports[j].port == p)
  }

  /** Published by `c`, counting its first `n` ports, of containers 0..i. */
  ghost predicate Seen(cs: seq<Container>, i: nat, n: nat, a: int, b: int)
    requires i <= |cs|
  {
    && 0 <= a < |cs| && 0 <= b < |cs[a].ports|
    && (a < i || (a == i && b < n))
  }

  lemma NewOwner(inp: Input, cs: seq<Container>, i: nat, j: nat, owner: map<PortKey, string>)
    requires i < |cs| && j < |cs[i].ports| && !SameDeploy(inp, cs[i]) && KeyOf(cs[i].ports[j]) !in owner
    requires forall k :: k in owner <==>
               exists a, b :: Seen(cs, i, j, a, b) && !SameDeploy(inp, cs[a]) && KeyOf(cs[a].ports[b]) == k
    ensures FirstPublisher(inp, cs, KeyOf(cs[i].ports[j]), cs[i].name)
  {
    var k := KeyOf(cs[i].ports[j]);
    forall h | 0 <= h < i ensures !Publishes(inp, cs[h], k) {
      forall b | 0 <= b < |cs[h].ports| && !SameDeploy(inp, cs[h]) ensures KeyOf(cs[h].ports[b]) != k {
        assert Seen(cs, i, j, h, b);
      }
    }
    assert Publishes(inp, cs[i], k);
  }

  method FindOwners(inp: Input, cs: seq<Container>) returns (o: Owners)
    ensures OwnersOf(inp, cs, o)
  {
    var owner: map<PortKey, string> := map[];
    var own, used: set<int> := {}, {};
    for i := 0 to |cs|
      invariant forall k :: k in owner <==>
                  exists a, b :: Seen(cs, i, 0, a, b) && !SameDeploy(inp, cs[a]) && KeyOf(cs[a].ports[b]) == k
      invariant forall k :: k in owner ==> FirstPublisher(inp, cs, k, owner[k])
      invariant forall p :: p in own <==>
                  exists a, b :: Seen(cs, i, 0, a, b) && SameDeploy(inp, cs[a]) && cs[a].ports[b].port == p
      invariant forall p :: p in used <==>
                  exists a, b :: Seen(cs, i, 0, a, b) && !SameDeploy(inp, cs[a]) && cs[a].ports[b].port == p
    {
      var c := cs[i];
      for j := 0 to |c.ports|
        invariant forall k :: k in owner <==>
                    exists a, b :: Seen(cs, i, j, a, b) && !SameDeploy(inp, cs[a]) && KeyOf(cs[a].ports[b]) == k
        invariant forall k :: k in owner ==> FirstPublisher(inp, cs, k, owner[k])
        invariant forall p :: p in own <==>
                    exists a, b :: Seen(cs, i, j, a, b) && SameDeploy(inp, cs[a]) && cs[a].ports[b].port == p
        invariant forall p :: p in used <==>
                    exists a, b :: Seen(cs, i, j, a, b) && !SameDeploy(inp, cs[a]) && cs[a].ports[b].port == p
      {
        var p := c.ports[j];
        assert forall a, b :: Seen(cs, i, j + 1, a, b) <==> Seen(cs, i, j, a, b) || (a == i && b == j);
        assert Seen(cs, i, j + 1, i, j);
        if SameDeploy(inp, c) {
          own := own + {p.port};
          continue;
        }
        if KeyOf(p) !in owner {
          NewOwner(inp, cs, i, j, owner);
          owner := owner[KeyOf(p) := c.name];
        }
        used := used + {p.port};
      }
      assert forall a, b :: Seen(cs, i + 1, 0, a, b) <==> Seen(cs, i, |c.ports|, a, b);
    }
    o := Owners(owner, own, used);
    assert forall a, b :: Seen(cs, |cs|, 0, a, b) <==> 0 <= a < |cs| && 0 <= b < |cs[a].ports|;
  }

  /** Why a requested port cannot be had, if it cannot. */
  function Conflict(o: Owners, listening: set<int>, p: HostPort): Option<Reason> {
    if KeyOf(p) in o.owner then Some(OwnedBy(o.owner[KeyOf(p)]))
    else if p.proto == "tcp" && p.port in listening && p.port !in o.own then Some(Listening)
    else None
  }

  function PortSet(req: seq<HostPort>): set<int> { set p | p in req :: p.port }

  /** The ports no fix may offer at the start: in use, listening, requested. */
  function Blocked(o: Owners, listening: set<int>, req: seq<HostPort>): set<int> {
    o.used + listening + PortSet(req)
  }

  /** The fixes among the first k issues. */
  function Picks(issues: seq<Issue>): set<int> {
    set i | i in issues && i.fix.Some? :: i.fix.value
  }

  /** The requested entries that cannot be had, in order. */
  function Conflicting(o: Owners, listening: set<int>, req: seq<HostPort>): seq<HostPort> {
    if req == [] then []
    else
      var init, last := req[..|req| - 1], req[|req| - 1];
      Conflicting(o, listening, init) + if Conflict(o, listening, last).Some? then [last] else []
  }

  function Reqs(issues: seq<Issue>): seq<HostPort> {
    seq(|issues|, k requires 0 <= k < |issues| => issues[k].req)
  }

  /** The issues of a list of requested ports: one per conflict, in order, each with the next port that is
      free after the fixes before it, unless the entry is part of a range or no port is left. */
  ghost predicate IssuesOf(o: Owners, listening: set<int>, req: seq<HostPort>, blocked: set<int>, issues: seq<Issue>) {
    && Reqs(issues) == Conflicting(o, listening, req)
    && (forall k :: 0 <= k < |issues| ==>
          && issues[k].req in req
          && Conflict(o, listening, issues[k].req) == Some(issues[k].reason)
          && (issues[k].req.isRange ==> issues[k].fix.None?)
          && (!issues[k].req.isRange ==>
                IsNextFree(issues[k].req.port, blocked + Picks(issues[..k]), if issues[k].fix.Some? then issues[k].fix.value else 0))
          && (issues[k].fix.Some? ==> issues[k].fix.value > 0))
    && (forall p :: p in req && Conflict(o, listening, p).Some? ==> exists k :: 0 <= k < |issues| && issues[k].req == p)
    && (forall k, l :: 0 <= k < l < |issues| ==> KeyOf(issues[k].req) != KeyOf(issues[l].req))
  }

  lemma PicksSnoc(issues: seq<Issue>, i: Issue)
    ensures Picks(issues + [i]) == Picks(issues) + if i.fix.Some? then {i.fix.value} else {}
  {
    assert forall x :: x in issues + [i] <==> x in issues || x == i;
    assert i in issues + [i];
  }

  /** The port part of conflictIssues; `o` is who publishes what on the host. */
  method ConflictIssues(inp: Input, f: Facts, req: seq<HostPort>) returns (issues: seq<Issue>, o: Owners)
    requires DistinctKeys(req)
    ensures OwnersOf(inp, f.containers, o)
    ensures IssuesOf(o, f.listening, req, Blocked(o, f.listening, req), issues)
  {
    var owners := FindOwners(inp, f.containers);
    o := owners;
    var taken := owners.used + f.listening + PortSet(req);
    issues := [];
    for n := 0 to |req|
      invariant IssuesOf(owners, f.listening, req[..n], Blocked(owners, f.listening, req), issues)
      invariant taken == Blocked(owners, f.listening, req) + Picks(issues)
    {
      var p := req[n];
      assert req[..n + 1] == req[..n] + [p];
      var reason := Conflict(owners, f.listening, p);
      assert req[..n + 1][..n] == req[..n];
      if reason.None? {
        assert Conflicting(owners, f.listening, req[..n]) + [] == Conflicting(owners, f.listening, req[..n]);
        continue;
      }
      var fix: Option<PortNum> := None;
      if !p.isRange {
        var free := NextFreePort(p.port, taken);
        if free > 0 {
          fix := Some(free);
          taken := taken + {free};
        }
      }
      ghost var before := issues;
      PicksSnoc(issues, Issue(p, reason.value, fix));
      issues := issues + [Issue(p, reason.value, fix)];
      AddIssue(owners, f.listening, req, n, Blocked(owners, f.listening, req), before, issues[|before|]);
    }
    assert req[..|req|] == req;
  }

  lemma AddIssue(o: Owners, listening: set<int>, req: seq<HostPort>, n: nat, blocked: set<int>, issues: seq<Issue>, i: Issue)
    requires n < |req| && DistinctKeys(req) && i.req == req[n]
    requires IssuesOf(o, listening, req[..n], blocked, issues)
    requires Conflict(o, listening, i.req) == Some(i.reason)
    requires i.req.isRange ==> i.fix.None?
    requires !i.req.isRange ==> IsNextFree(i.req.port, blocked + Picks(issues), if i.fix.Some? then i.fix.value else 0)
    requires i.fix.Some? ==> i.fix.value > 0
    ensures IssuesOf(o, listening, req[..n + 1], blocked, issues + [i])
  {
    var all := issues + [i];
    assert req[..n + 1] == req[..n] + [req[n]];
    assert Reqs(all) == Reqs(issues) + [req[n]] && req[..n + 1][..n] == req[..n];
    forall k | 0 <= k < |all| ensures all[..k] == issues[..k] && (k < |issues| ==> all[k] == issues[k]) {}
    assert all[|issues|] == i && issues[..|issues|] == issues;
    forall p | p in req[..n + 1] && Conflict(o, listening, p).Some?
      ensures exists k :: 0 <= k < |all| && all[k].req == p
    {
      if p in req[..n] {
        var k :| 0 <= k < |issues| && issues[k].req == p;
        assert all[k].req == p;
      } else {
        assert all[|issues|].req == p;
      }
    }
    forall k | 0 <= k < |issues| ensures KeyOf(issues[k].req) != KeyOf(i.req) {
      var m :| 0 <= m < n && req[..n][m] == issues[k].req;
      assert req[m] == issues[k].req;
    }
  }

  // ---------------------------------------------------------------- the fixes

  /** A fix names a port above the original that nobody requested, no other container publishes, nothing
      listens on, and no other fix of the same check names; and there was no smaller one left. */
  lemma FixesAreFree(o: Owners, listening: set<int>, req: seq<HostPort>, issues: seq<Issue>, k: nat)
    requires IssuesOf(o, listening, req, Blocked(o, listening, req), issues)
    requires k < |issues| && issues[k].fix.Some?
    ensures var p := issues[k].fix.value;
            && issues[k].req.port < p <= LAST_PORT
            && p !in o.used && p !in listening && p !in PortSet(req)
            && (forall l :: 0 <= l < |issues| && l != k ==> issues[l].fix != Some(p))
            && (forall q :: issues[k].req.port < q < p ==>
                  q in Blocked(o, listening, req) || exists l :: 0 <= l < k && issues[l].fix == Some(q))
  {
    var p := issues[k].fix.value;
    forall l | 0 <= l < |issues| && l != k ensures issues[l].fix != Some(p) {
      if l < k {
        assert issues[l] in issues[..k];
      } else if issues[l].fix.Some? {
        assert issues[k] in issues[..l];
        assert issues[k].fix.value in Picks(issues[..l]);
      }
    }
    forall q | issues[k].req.port < q < p
      ensures q in Blocked(o, listening, req) || exists l :: 0 <= l < k && issues[l].fix == Some(q)
    {
      if q !in Blocked(o, listening, req) {
        var i :| i in issues[..k] && i.fix.Some? && i.fix.value == q;
        var l :| 0 <= l < k && issues[l] == i;
        assert issues[l].fix == Some(q);
      }
    }
  }

  // ---------------------------------------------------------------- checking again

  /** The fix offered for a requested entry. */
  function FixFor(issues: seq<Issue>, p: HostPort): Option<PortNum> {
    if issues == [] then None else if issues[0].req == p then issues[0].fix else FixFor(issues[1..], p)
  }

  function Applied(issues: seq<Issue>, p: HostPort): HostPort {
    match FixFor(issues, p)
    case None => p
    case Some(n) => p.(port := n)
  }

  /** The request with every fixed entry replaced. */
  function ApplyFixes(req: seq<HostPort>, issues: seq<Issue>): seq<HostPort> {
    seq(|req|, i requires 0 <= i < |req| => Applied(issues, req[i]))
  }

  lemma {:induction false} FixForIs(issues: seq<Issue>, p: HostPort)
    ensures FixFor(issues, p).Some? ==> exists k :: 0 <= k < |issues| && issues[k].req == p && issues[k].fix == FixFor(issues, p)
    ensures forall k :: 0 <= k < |issues| && issues[k].req == p && (forall l :: 0 <= l < k ==> issues[l].req != p)
              ==> FixFor(issues, p) == issues[k].fix
  {
    if issues != [] {
      FixForIs(issues[1..], p);
      if issues[0].req != p {
        if FixFor(issues, p).Some? {
          var k :| 0 <= k < |issues[1..]| && issues[1..][k].req == p && issues[1..][k].fix == FixFor(issues[1..], p);
          assert issues[k + 1].req == p;
        }
        forall k | 0 <= k < |issues| && issues[k].req == p && (forall l :: 0 <= l < k ==> issues[l].req != p)
          ensures FixFor(issues, p) == issues[k].fix
        {
          assert issues[1..][k - 1] == issues[k];
          assert forall l :: 0 <= l < k - 1 ==> issues[1..][l] == issues[l + 1];
        }
      }
    }
  }

  /** Used ports are the ports of the owned keys. */
  lemma OwnedIsUsed(inp: Input, cs: seq<Container>, o: Owners, k: PortKey)
    requires OwnersOf(inp, cs, o) && k in o.owner
    ensures k.port in o.used
  {
    var i, j :| 0 <= i < |cs| && !SameDeploy(inp, cs[i]) && 0 <= j < |cs[i].ports| && KeyOf(cs[i].ports[j]) == k;
    assert cs[i].ports[j].port == k.port;
  }

  /** With all fixes applied the keys stay distinct, a replaced entry has no conflict any more, and every
      other entry has exactly the conflict it had. */
  lemma CheckingAgain(inp: Input, f: Facts, o: Owners, req: seq<HostPort>, issues: seq<Issue>)
    requires DistinctKeys(req) && OwnersOf(inp, f.containers, o)
    requires IssuesOf(o, f.listening, req, Blocked(o, f.listening, req), issues)
    ensures var again := ApplyFixes(req, issues);
            && |again| == |req|
            && DistinctKeys(again)
            && forall i :: 0 <= i < |req| ==>
                 Conflict(o, f.listening, again[i])
                 == if FixFor(issues, req[i]).Some? then None else Conflict(o, f.listening, req[i])
  {
    var again := ApplyFixes(req, issues);
    forall i | 0 <= i < |req|
      ensures Conflict(o, f.listening, again[i])
           == if FixFor(issues, req[i]).Some? then None else Conflict(o, f.listening, req[i])
    {
      FixForIs(issues, req[i]);
      if FixFor(issues, req[i]).Some? {
        var k :| 0 <= k < |issues| && issues[k].req == req[i] && issues[k].fix == FixFor(issues, req[i]);
        FixesAreFree(o, f.listening, req, issues, k);
        if KeyOf(again[i]) in o.owner {
          OwnedIsUsed(inp, f.containers, o, KeyOf(again[i]));
        }
      }
    }
    forall i, j | 0 <= i < j < |req| ensures KeyOf(again[i]) != KeyOf(again[j]) {
      StaysDistinct(o, f.listening, req, issues, i, j);
    }
  }

  lemma StaysDistinct(o: Owners, listening: set<int>, req: seq<HostPort>, issues: seq<Issue>, i: nat, j: nat)
    requires DistinctKeys(req) && IssuesOf(o, listening, req, Blocked(o, listening, req), issues)
    requires i < j < |req|
    ensures KeyOf(Applied(issues, req[i])) != KeyOf(Applied(issues, req[j]))
  {
    FixForIs(issues, req[i]);
    FixForIs(issues, req[j]);
    assert req[i].port in PortSet(req) && req[j].port in PortSet(req);
    if FixFor(issues, req[i]).Some? {
      var k :| 0 <= k < |issues| && issues[k].req == req[i] && issues[k].fix == FixFor(issues, req[i]);
      FixesAreFree(o, listening, req, issues, k);
      if FixFor(issues, req[j]).Some? {
        var l :| 0 <= l < |issues| && issues[l].req == req[j] && issues[l].fix == FixFor(issues, req[j]);
        assert l != k;
      }
    } else if FixFor(issues, req[j]).Some? {
      var l :| 0 <= l < |issues| && issues[l].req == req[j] && issues[l].fix == FixFor(issues, req[j]);
      FixesAreFree(o, listening, req, issues, l);
    }
  }

  /** So a second check reports no issue for a replaced entry, and for every other entry what it reported. */
  lemma SecondCheck(inp: Input, f: Facts, o: Owners, req: seq<HostPort>, issues: seq<Issue>, second: seq<Issue>, i: nat)
    requires DistinctKeys(req) && OwnersOf(inp, f.containers, o)
    requires IssuesOf(o, f.listening, req, Blocked(o, f.listening, req), issues)
    requires var again := ApplyFixes(req, issues);
             IssuesOf(o, f.listening, again, Blocked(o, f.listening, again), second)
    requires i < |req|
    ensures (exists k :: 0 <= k < |second| && second[k].req == Applied(issues, req[i]))
       <==> FixFor(issues, req[i]).None? && Conflict(o, f.listening, req[i]).Some?
  {
    CheckingAgain(inp, f, o, req, issues);
    var again := ApplyFixes(req, issues);
    assert again[i] in again;
  }
}

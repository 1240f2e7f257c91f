/** The connection manager (hosts/conn.go): connections cached per host, one shared dial per host, and callers that
    look up, evict and close, each touching the tables in its own lock regions. Connections and dials are
    numbered in the order in which they were made. Times are milliseconds. */
module ConnManager {
  import opened Wrappers

  type Host = string

  const IDLE: int := 600000

  // ---------------------------------------------------------------- the tables

  datatype Conn = Conn(host: Host, closed: bool, lastUsed: int)
  datatype Answer = Gave(conn: nat) | Refused
  datatype Dial = Dial(host: Host, answer: Option<Answer>)

  /** Cached connections and dials in flight by host, and everything ever made and started. For the proofs: the
      connections that were evicted and are still to be closed, those that were dropped without being closed,
      how many dials to a host have succeeded, and the dials that were started by a caller that, between
      evicting a dead connection and asking for a dial, missed a success. */
  datatype Tables = Tables(conns: map<Host, nat>, dials: map<Host, nat>, made: seq<Conn>, started: seq<Dial>,
                           closing: set<nat>, lost: set<nat>, successes: map<Host, nat>, slipped: set<nat>)

  const NONE: Tables := Tables(map[], map[], [], [], {}, {}, map[], {})

  function Count(successes: map<Host, nat>, h: Host): nat { if h in successes then successes[h] else 0 }

  // ---------------------------------------------------------------- the lock regions

  datatype Found = Cached(conn: nat) | Joined(dial: nat)

  /** Join the dial in flight, or start one. */
  function JoinOrStart(s: Tables, h: Host): (Tables, nat) {
    if h in s.dials then (s, s.dials[h])
    else (s.(dials := s.dials[h := |s.started|], started := s.started + [Dial(h, None)]), |s.started|)
  }

  /** The first region of Get. */
  function LookUp(s: Tables, h: Host): (Tables, Found) {
    if h in s.conns then (s, Cached(s.conns[h]))
    else var (t, d) := JoinOrStart(s, h); (t, Joined(d))
  }

  /** The second, after a dead connection was evicted when `seen` dials had succeeded: it looks at the dials
      alone. */
  function LookAgain(s: Tables, h: Host, seen: nat): (Tables, nat) {
    var (t, d) := JoinOrStart(s, h);
    (if h !in s.dials && Count(s.successes, h) > seen then t.(slipped := t.slipped + {d}) else t, d)
  }

  function Evicted(s: Tables, hs: set<Host>): set<nat> { set h | h in s.conns && h in hs :: s.conns[h] }

  /** Connections leave the cache to be closed. */
  function Evict(s: Tables, hs: set<Host>): Tables { s.(conns := s.conns - hs, closing := s.closing + Evicted(s, hs)) }

  predicate InFlight(s: Tables, d: nat) { d < |s.started| && s.started[d].answer.None? }

  /** The region at the end of a dial. */
  function Complete(s: Tables, d: nat, ok: bool, now: int): Tables
    requires InFlight(s, d)
  {
    var h := s.started[d].host;
    var t := s.(dials := s.dials - {h},
                started := s.started[d := Dial(h, Some(if ok then Gave(|s.made|) else Refused))]);
    if !ok then t
    else
      t.(conns := s.conns[h := |s.made|], made := s.made + [Conn(h, false, now)],
         lost := if h in s.conns then s.lost + {s.conns[h]} else s.lost,
         successes := s.successes[h := Count(s.successes, h) + 1])
  }

  /** Conn.Close. */
  function CloseOne(s: Tables, c: nat): Tables
    requires c < |s.made|
  {
    s.(made := s.made[c := s.made[c].(closed := true)], closing := s.closing - {c})
  }

  function Touched(s: Tables, c: nat, now: int): Tables
    requires c < |s.made|
  {
    s.(made := s.made[c := s.made[c].(lastUsed := now)])
  }

  function IdleHosts(s: Tables, now: int): set<Host>
    requires WellFormed(s)
  {
    set h | h in s.conns && now - s.made[s.conns[h]].lastUsed > IDLE
  }

  lemma IdleAre(s: Tables, now: int)
    requires WellFormed(s)
    ensures IdleHosts(s, now) <= s.conns.Keys
    ensures forall h :: h in s.conns ==> (h in IdleHosts(s, now) <==> now - s.made[s.conns[h]].lastUsed > IDLE)
  {
  }

  /** Part of the cache has been walked: what was idle in it has been taken out. */
  ghost predicate Collected(s: Tables, idle: set<Host>, todo: set<Host>, conns: map<Host, nat>, stale: set<nat>) {
    conns == s.conns - (idle - todo) && stale == Evicted(s, idle - todo)
  }

  lemma CollectStart(s: Tables, idle: set<Host>)
    requires idle <= s.conns.Keys
    ensures Collected(s, idle, s.conns.Keys, s.conns, {})
  {
    assert idle - s.conns.Keys == {};
    assert s.conns - {} == s.conns;
  }

  lemma CollectStep(s: Tables, idle: set<Host>, todo: set<Host>, conns: map<Host, nat>, stale: set<nat>, id: Host)
    requires Collected(s, idle, todo, conns, stale) && id in todo && todo <= s.conns.Keys
    ensures id in conns && conns[id] == s.conns[id]
    ensures if id in idle then Collected(s, idle, todo - {id}, conns - {id}, stale + {conns[id]})
            else Collected(s, idle, todo - {id}, conns, stale)
  {
    if id in idle {
      assert idle - (todo - {id}) == (idle - todo) + {id};
      assert Evicted(s, (idle - todo) + {id}) == Evicted(s, idle - todo) + {s.conns[id]};
      assert s.conns - ((idle - todo) + {id}) == conns - {id};
    } else {
      assert idle - (todo - {id}) == idle - todo;
    }
  }

  lemma CollectEnd(s: Tables, idle: set<Host>, conns: map<Host, nat>, stale: set<nat>)
    requires Collected(s, idle, {}, conns, stale)
    ensures conns == s.conns - idle && stale == Evicted(s, idle)
  {
    assert idle - {} == idle;
  }

  predicate WellFormed(s: Tables) { forall h :: h in s.conns ==> s.conns[h] < |s.made| }

  // ---------------------------------------------------------------- the manager object

  class Manager {
    var conns: map<Host, nat>
    var dials: map<Host, nat>
    var made: seq<Conn>
    var started: seq<Dial>
    ghost var closing: set<nat>
    ghost var lost: set<nat>
    ghost var successes: map<Host, nat>
    ghost var slipped: set<nat>

    ghost function View(): Tables
      reads this
    {
      Tables(conns, dials, made, started, closing, lost, successes, slipped)
    }

    constructor ()
      ensures View() == NONE
    {
      conns, dials, made, started, closing, lost, successes, slipped := map[], map[], [], [], {}, {}, map[], {};
    }

    method GetFirst(hostID: Host) returns (r: Found)
      modifies this
      ensures (View(), r) == LookUp(old(View()), hostID)
    {
      if hostID in conns {
        return Cached(conns[hostID]);
      }
      if hostID in dials {
        return Joined(dials[hostID]);
      }
      r := Joined(|started|);
      dials := dials[hostID := |started|];
      started := started + [Dial(hostID, None)];
    }

    method GetAgain(hostID: Host, ghost seen: nat) returns (d: nat)
      modifies this
      ensures (View(), d) == LookAgain(old(View()), hostID, seen)
    {
      if hostID in dials {
        return dials[hostID];
      }
      d := |started|;
      dials := dials[hostID := d];
      started := started + [Dial(hostID, None)];
      if Count(successes, hostID) > seen {
        slipped := slipped + {d};
      }
    }

    /** What the goroutine of a dial does when it has its answer. */
    method Finish(d: nat, ok: bool, now: int)
      requires InFlight(View(), d)
      modifies this
      ensures View() == Complete(old(View()), d, ok, now)
    {
      var hostID := started[d].host;
      dials := dials - {hostID};
      started := started[d := Dial(hostID, Some(if ok then Gave(|made|) else Refused))];
      if ok {
        if hostID in conns {
          lost := lost + {conns[hostID]};
        }
        successes := successes[hostID := Count(successes, hostID) + 1];
        conns := conns[hostID := |made|];
        made := made + [Conn(hostID, false, now)];
      }
    }

    method Close(c: nat)
      requires c < |made|
      modifies this`made, this`closing
      ensures View() == CloseOne(old(View()), c)
    {
      if !made[c].closed {
        made := made[c := made[c].(closed := true)];
      }
      closing := closing - {c};
    }

    /** Invalidate up to the end of its lock region; `c` is what it closes next. */
    method Forget(hostID: Host) returns (c: Option<nat>)
      modifies this
      ensures View() == Evict(old(View()), {hostID})
      ensures c == if hostID in old(conns) then Some(old(conns)[hostID]) else None
    {
      c := None;
      closing := closing + Evicted(View(), {hostID});
      if hostID in conns {
        c := Some(conns[hostID]);
      }
      conns := conns - {hostID};
    }

    /** The loop of CloseIdle: walks the cache in any order and collects what to close. */
    method CollectIdle(now: int) returns (stale: set<nat>)
      requires WellFormed(View())
      modifies this`conns
      ensures conns == old(conns) - IdleHosts(old(View()), now)
      ensures stale == Evicted(old(View()), IdleHosts(old(View()), now))
    {
      hide Evicted, Collected, IdleHosts;
      ghost var s, idle := View(), IdleHosts(View(), now);
      IdleAre(s, now);
      stale := {};
      var todo := conns.Keys;
      CollectStart(s, idle);
      while todo != {}
        invariant todo <= s.conns.Keys
        invariant Collected(s, idle, todo, conns, stale)
        decreases |todo|
      {
        var id :| id in todo;
        CollectStep(s, idle, todo, conns, stale, id);
        if now - made[conns[id]].lastUsed > IDLE {
          stale := stale + {conns[id]};
          conns := conns - {id};
        }
        todo := todo - {id};
      }
      CollectEnd(s, idle, conns, stale);
    }

    /** The lock region of CloseIdle. */
    method ForgetIdle(now: int) returns (stale: set<nat>)
      requires WellFormed(View())
      modifies this`conns, this`closing
      ensures View() == Evict(old(View()), IdleHosts(old(View()), now))
      ensures stale == Evicted(old(View()), IdleHosts(old(View()), now))
    {
      hide Evicted, IdleHosts;
      stale := CollectIdle(now);
      closing := closing + stale;
    }

    /** The lock region of CloseAll. */
    method ForgetAll() returns (all: set<nat>)
      modifies this
      ensures View() == Evict(old(View()), old(conns).Keys)
      ensures all == Evicted(old(View()), old(conns).Keys)
    {
      all := set h | h in conns :: conns[h];
      closing := closing + all;
      conns := map[];
    }
  }

  // ---------------------------------------------------------------- all interleavings

  /** Where a call of Get is: asking whether the cached connection is alive; about to evict it; about to look again
      after the eviction, at which `seen` dials had succeeded; waiting for a dial; returned. */
  datatype Stage =
    | Probing(conn: nat)
    | Evicting
    | Again(seen: nat)
    | Waiting(dial: nat)
    | FromCache(conn: nat)
    | FromDial(dial: nat, answer: Answer)
    | GaveUp

  datatype Call = Call(host: Host, at: Stage)

  datatype Sys = Sys(t: Tables, calls: seq<Call>)

  datatype Event =
    | Get(host: Host)
    | Alive(call: nat, now: int)
    | Dead(call: nat)
    | EvictDead(call: nat)
    | Retry(call: nat)
    | DialDone(dial: nat, ok: bool, now: int)
    | Answered(call: nat)
    | Cancelled(call: nat)
    | Invalidate(host: Host)
    | CloseIdle(now: int)
    | CloseAll
    | Closed(conn: nat)
    | Used(conn: nat, now: int)

  predicate Enabled(s: Sys, e: Event) {
    match e
    case Get(_) => true
    case Alive(i, _) =>
      && i < |s.calls| && s.calls[i].at.Probing? && s.calls[i].at.conn < |s.t.made|
      && !s.t.made[s.calls[i].at.conn].closed
    case Dead(i) => i < |s.calls| && s.calls[i].at.Probing?
    case EvictDead(i) => i < |s.calls| && s.calls[i].at.Evicting?
    case Retry(i) => i < |s.calls| && s.calls[i].at.Again?
    case DialDone(d, _, _) => InFlight(s.t, d)
    case Answered(i) =>
      && i < |s.calls| && s.calls[i].at.Waiting? && s.calls[i].at.dial < |s.t.started|
      && s.t.started[s.calls[i].at.dial].answer.Some?
    case Cancelled(i) => i < |s.calls| && s.calls[i].at.Waiting?
    case Closed(c) => c in s.t.closing && c < |s.t.made|
    case CloseIdle(_) => WellFormed(s.t)
    case Used(c, _) => c < |s.t.made|
    case _ => true
  }

  function Moved(s: Sys, i: nat, t: Tables, at: Stage): Sys
    requires i < |s.calls|
  {
    Sys(t, s.calls[i := s.calls[i].(at := at)])
  }

  function Next(s: Sys, e: Event): Sys
    requires Enabled(s, e)
  {
    match e
    case Get(h) =>
      var (t, r) := LookUp(s.t, h);
      Sys(t, s.calls + [Call(h, match r case Cached(c) => Probing(c) case Joined(d) => Waiting(d))])
    case Alive(i, now) => Moved(s, i, Touched(s.t, s.calls[i].at.conn, now), FromCache(s.calls[i].at.conn))
    case Dead(i) => Moved(s, i, s.t, Evicting)
    case EvictDead(i) =>
      var h := s.calls[i].host;
      Moved(s, i, Evict(s.t, {h}), Again(Count(s.t.successes, h)))
    case Retry(i) =>
      var (t, d) := LookAgain(s.t, s.calls[i].host, s.calls[i].at.seen);
      Moved(s, i, t, Waiting(d))
    case DialDone(d, ok, now) => s.(t := Complete(s.t, d, ok, now))
    case Answered(i) =>
      var d := s.calls[i].at.dial;
      Moved(s, i, s.t, FromDial(d, s.t.started[d].answer.value))
    case Cancelled(i) => Moved(s, i, s.t, GaveUp)
    case Invalidate(h) => s.(t := Evict(s.t, {h}))
    case CloseIdle(now) => s.(t := Evict(s.t, IdleHosts(s.t, now)))
    case CloseAll => s.(t := Evict(s.t, s.t.conns.Keys))
    case Closed(c) => s.(t := CloseOne(s.t, c))
    case Used(c, now) => s.(t := Touched(s.t, c, now))
  }

  // ---------------------------------------------------------------- the invariant

  predicate IsCached(t: Tables, c: nat) { c < |t.made| && t.made[c].host in t.conns && t.conns[t.made[c].host] == c }

  /** Evicted: closed, or about to be. */
  predicate Gone(t: Tables, c: nat) { c in t.closing || (c < |t.made| && t.made[c].closed) }

  /** The cache holds open connections to the right host. */
  ghost predicate CacheOk(t: Tables) {
    && WellFormed(t)
    && forall h :: h in t.conns ==> t.made[t.conns[h]].host == h && !Gone(t, t.conns[h]) && t.conns[h] !in t.lost
  }

  /** The dial table holds exactly the dials in flight. */
  ghost predicate DialsOk(t: Tables) {
    && (forall h :: h in t.dials ==> t.dials[h] < |t.started| && t.started[t.dials[h]] == Dial(h, None))
    && (forall d :: 0 <= d < |t.started| && t.started[d].answer.None? ==>
          t.started[d].host in t.dials && t.dials[t.started[d].host] == d)
  }

  /** Every connection is cached, gone or lost. */
  ghost predicate Accounted(t: Tables) {
    && (forall c :: 0 <= c < |t.made| ==> IsCached(t, c) || Gone(t, c) || c in t.lost)
    && (forall c :: c in t.closing || c in t.lost ==> c < |t.made|)
  }

  /** An answer is a connection to the host that was dialled. */
  ghost predicate AnswersOk(t: Tables) {
    forall d :: 0 <= d < |t.started| && t.started[d].answer.Some? && t.started[d].answer.value.Gave? ==>
      var c := t.started[d].answer.value.conn; c < |t.made| && t.made[c].host == t.started[d].host
  }

  /** A dial runs beside a cached connection only if its caller missed a success. */
  ghost predicate BesideOk(t: Tables) {
    && (forall h :: h in t.dials && h in t.conns ==> t.dials[h] in t.slipped)
    && (forall d :: d in t.slipped ==> d < |t.started|)
  }

  ghost predicate TablesInv(t: Tables) { CacheOk(t) && DialsOk(t) && Accounted(t) && AnswersOk(t) && BesideOk(t) }

  /** A call of Get knows what it waits for, and what it was given. */
  ghost predicate CallInv(t: Tables, c: Call) {
    match c.at
    case Probing(k) => k < |t.made| && t.made[k].host == c.host
    case Again(seen) => seen <= Count(t.successes, c.host) && (c.host in t.conns ==> Count(t.successes, c.host) > seen)
    case Waiting(d) => d < |t.started| && t.started[d].host == c.host
    case FromCache(k) => k < |t.made| && t.made[k].host == c.host
    case FromDial(d, a) => d < |t.started| && t.started[d] == Dial(c.host, Some(a))
    case _ => true
  }

  ghost predicate Inv(s: Sys) { TablesInv(s.t) && forall i :: 0 <= i < |s.calls| ==> CallInv(s.t, s.calls[i]) }

  /** What other callers and goroutines may do to the tables while a call of Get is under way. */
  ghost predicate Evolves(s: Tables, t: Tables) {
    && |s.made| <= |t.made| && (forall c :: 0 <= c < |s.made| ==> t.made[c].host == s.made[c].host)
    && |s.started| <= |t.started|
    && (forall d :: 0 <= d < |s.started| ==> t.started[d].host == s.started[d].host)
    && (forall d :: 0 <= d < |s.started| && s.started[d].answer.Some? ==> t.started[d] == s.started[d])
    && (forall c: nat :: c < |s.made| && Gone(s, c) ==> Gone(t, c))
    && (forall h :: Count(s.successes, h) <= Count(t.successes, h))
    && (forall h :: h in t.conns && h !in s.conns ==> Count(t.successes, h) > Count(s.successes, h))
    && s.lost <= t.lost && s.slipped <= t.slipped
  }

  lemma CallKeeps(s: Tables, t: Tables, c: Call)
    requires CallInv(s, c) && Evolves(s, t)
    ensures CallInv(t, c)
  {
  }

  function Join(s: Tables, h: Host, slipped: bool): Tables {
    var (t, d) := JoinOrStart(s, h);
    if slipped && h !in s.dials then t.(slipped := t.slipped + {d}) else t
  }

  lemma JoinKeeps(s: Tables, h: Host, slipped: bool)
    requires TablesInv(s) && (h in s.conns && h !in s.dials ==> slipped)
    ensures var t := Join(s, h, slipped);
            var d := JoinOrStart(s, h).1;
            TablesInv(t) && Evolves(s, t) && t.lost == s.lost && d < |t.started| && t.started[d].host == h
  {
    JoinDials(s, h, slipped);
    JoinEvolves(s, h, slipped);
    StillAccounted(s, Join(s, h, slipped));
    hide CacheOk, DialsOk, Accounted, AnswersOk, BesideOk, Evolves;
  }

  lemma JoinDials(s: Tables, h: Host, slipped: bool)
    requires DialsOk(s) && AnswersOk(s) && BesideOk(s) && (h in s.conns && h !in s.dials ==> slipped)
    ensures var t := Join(s, h, slipped);
            var d := JoinOrStart(s, h).1;
            DialsOk(t) && AnswersOk(t) && BesideOk(t) && d < |t.started| && t.started[d].host == h
  {
    var t := Join(s, h, slipped);
    assert AnswersOk(t) by { hide DialsOk, BesideOk; }
    hide AnswersOk;
  }

  lemma JoinEvolves(s: Tables, h: Host, slipped: bool)
    ensures Evolves(s, Join(s, h, slipped))
  {
  }

  /** Tables with the same connections, cached, closing and lost alike. */
  lemma StillAccounted(s: Tables, t: Tables)
    requires CacheOk(s) && Accounted(s)
    requires t.conns == s.conns && t.made == s.made && t.closing == s.closing && t.lost == s.lost
    ensures CacheOk(t) && Accounted(t)
  {
    forall c | 0 <= c < |t.made| ensures IsCached(t, c) || Gone(t, c) || c in t.lost {
      assert IsCached(s, c) || Gone(s, c) || c in s.lost;
    }
  }

  lemma EvictKeeps(s: Tables, hs: set<Host>)
    requires TablesInv(s)
    ensures var t := Evict(s, hs); TablesInv(t) && Evolves(s, t) && forall h :: h in hs ==> h !in t.conns
  {
    var t := Evict(s, hs);
    forall c | 0 <= c < |t.made| ensures IsCached(t, c) || Gone(t, c) || c in t.lost {
      if IsCached(s, c) && s.made[c].host in hs {
        assert c in Evicted(s, hs);
      }
    }
    forall h | h in t.conns ensures t.conns[h] !in Evicted(s, hs) {
      assert s.made[s.conns[h]].host == h;
      assert forall g :: g in s.conns && g in hs ==> s.made[s.conns[g]].host == g;
    }
  }

  /** A connection is lost exactly when a dial succeeds while another connection to the host is cached. */
  lemma CompleteKeeps(s: Tables, d: nat, ok: bool, now: int)
    requires TablesInv(s) && InFlight(s, d)
    ensures var t := Complete(s, d, ok, now); TablesInv(t) && Evolves(s, t)
    ensures Complete(s, d, ok, now).lost != s.lost <==> ok && s.started[d].host in s.conns
    ensures Complete(s, d, ok, now).lost != s.lost ==> d in s.slipped
  {
    CompleteDials(s, d, ok, now);
    CompleteCache(s, d, ok, now);
    CompleteEvolves(s, d, ok, now);
    CompleteLoses(s, d, ok, now);
    hide CacheOk, DialsOk, Accounted, AnswersOk, BesideOk, Evolves, Complete;
  }

  lemma CompleteDials(s: Tables, d: nat, ok: bool, now: int)
    requires DialsOk(s) && BesideOk(s) && AnswersOk(s) && InFlight(s, d)
    ensures var t := Complete(s, d, ok, now); DialsOk(t) && BesideOk(t) && AnswersOk(t)
  {
    var t := Complete(s, d, ok, now);
    assert DialsOk(t) && BesideOk(t) by { hide AnswersOk; }
    assert AnswersOk(t) by { hide BesideOk, DialsOk; }
    hide AnswersOk, BesideOk, DialsOk;
  }

  lemma CompleteCache(s: Tables, d: nat, ok: bool, now: int)
    requires CacheOk(s) && Accounted(s) && InFlight(s, d)
    ensures var t := Complete(s, d, ok, now); CacheOk(t) && Accounted(t)
  {
    var t := Complete(s, d, ok, now);
    forall c | 0 <= c < |t.made| ensures IsCached(t, c) || Gone(t, c) || c in t.lost {
      if c < |s.made| {
        assert IsCached(s, c) || Gone(s, c) || c in s.lost;
      }
    }
  }

  lemma CompleteEvolves(s: Tables, d: nat, ok: bool, now: int)
    requires InFlight(s, d)
    ensures Evolves(s, Complete(s, d, ok, now))
  {
  }

  lemma CompleteLoses(s: Tables, d: nat, ok: bool, now: int)
    requires CacheOk(s) && DialsOk(s) && BesideOk(s) && InFlight(s, d)
    ensures var t := Complete(s, d, ok, now);
            (t.lost != s.lost <==> ok && s.started[d].host in s.conns) && (t.lost != s.lost ==> d in s.slipped)
  {
  }

  lemma CloseKeeps(s: Tables, c: nat)
    requires TablesInv(s) && c in s.closing
    ensures TablesInv(CloseOne(s, c)) && Evolves(s, CloseOne(s, c))
  {
    var t := CloseOne(s, c);
    forall k | 0 <= k < |t.made| ensures IsCached(t, k) || Gone(t, k) || k in t.lost {
      assert IsCached(s, k) || Gone(s, k) || k in s.lost;
    }
  }

  lemma TouchKeeps(s: Tables, c: nat, now: int)
    requires TablesInv(s) && c < |s.made|
    ensures TablesInv(Touched(s, c, now)) && Evolves(s, Touched(s, c, now))
  {
    var t := Touched(s, c, now);
    forall k | 0 <= k < |t.made| ensures IsCached(t, k) || Gone(t, k) || k in t.lost {
      assert IsCached(s, k) || Gone(s, k) || k in s.lost;
    }
  }

  /** One step of the tables. */
  lemma TablesStep(s: Sys, e: Event)
    requires Inv(s) && Enabled(s, e)
    ensures TablesInv(Next(s, e).t) && Evolves(s.t, Next(s, e).t)
    ensures Next(s, e).t.lost != s.t.lost <==> e.DialDone? && e.ok && s.t.started[e.dial].host in s.t.conns
    ensures Next(s, e).t.lost != s.t.lost ==> e.dial in s.t.slipped
  {
    hide TablesInv, Evolves, Count, JoinOrStart;
    match e
    case Get(h) => LookUpKeeps(s.t, h);
    case Alive(i, now) => TouchKeeps(s.t, s.calls[i].at.conn, now);
    case EvictDead(i) => EvictKeeps(s.t, {s.calls[i].host});
    case Retry(i) => RetryKeeps(s.t, s.calls[i]);
    case DialDone(d, ok, now) => CompleteKeeps(s.t, d, ok, now);
    case Invalidate(h) => EvictKeeps(s.t, {h});
    case CloseIdle(now) => EvictKeeps(s.t, IdleHosts(s.t, now));
    case CloseAll => EvictKeeps(s.t, s.t.conns.Keys);
    case Closed(c) => CloseKeeps(s.t, c);
    case Used(c, now) => TouchKeeps(s.t, c, now);
    case _ => SameEvolves(s.t);
  }

  lemma SameEvolves(s: Tables)
    ensures Evolves(s, s)
  {
  }

  lemma LookUpKeeps(s: Tables, h: Host)
    requires TablesInv(s)
    ensures var (t, r) := LookUp(s, h);
            && TablesInv(t) && Evolves(s, t) && t.lost == s.lost
            && match r
               case Cached(c) => c < |t.made| && t.made[c].host == h
               case Joined(d) => d < |t.started| && t.started[d].host == h
  {
    SameEvolves(s);
    if h !in s.conns {
      JoinKeeps(s, h, false);
      hide TablesInv, Evolves, JoinOrStart;
    }
  }

  lemma RetryKeeps(s: Tables, c: Call)
    requires TablesInv(s) && c.at.Again? && CallInv(s, c)
    ensures var (t, d) := LookAgain(s, c.host, c.at.seen);
            TablesInv(t) && Evolves(s, t) && t.lost == s.lost && d < |t.started| && t.started[d].host == c.host
  {
    JoinKeeps(s, c.host, Count(s.successes, c.host) > c.at.seen);
    hide TablesInv, Evolves;
  }

  /** The call that a step moves, if any, stays sound. */
  lemma MoverKeeps(s: Sys, e: Event, i: nat)
    requires Inv(s) && Enabled(s, e) && i < |Next(s, e).calls|
    requires i >= |s.calls| || Next(s, e).calls[i] != s.calls[i]
    ensures CallInv(Next(s, e).t, Next(s, e).calls[i])
  {
    match e
    case Get(h) => LookUpKeeps(s.t, h);
    case Retry(k) => RetryKeeps(s.t, s.calls[k]);
    case EvictDead(k) => EvictKeeps(s.t, {s.calls[k].host});
    case _ =>
  }

  lemma InvStep(s: Sys, e: Event)
    requires Inv(s) && Enabled(s, e)
    ensures Inv(Next(s, e))
  {
    TablesStep(s, e);
    var t := Next(s, e);
    forall i | 0 <= i < |t.calls| ensures CallInv(t.t, t.calls[i]) {
      if i < |s.calls| && t.calls[i] == s.calls[i] {
        CallKeeps(s.t, t.t, s.calls[i]);
      } else {
        MoverKeeps(s, e, i);
      }
    }
    hide Next, TablesInv, CallInv, Evolves;
  }

  // ---------------------------------------------------------------- runs

  ghost predicate Possible(s: Sys, es: seq<Event>)
    decreases |es|
  {
    es == [] || (Enabled(s, es[0]) && Possible(Next(s, es[0]), es[1..]))
  }

  function After(s: Sys, es: seq<Event>): Sys
    requires Possible(s, es)
    decreases |es|
  {
    if es == [] then s else After(Next(s, es[0]), es[1..])
  }

  const START: Sys := Sys(NONE, [])

  lemma {:induction false} InvAlways(s: Sys, es: seq<Event>)
    requires Inv(s) && Possible(s, es)
    ensures Inv(After(s, es))
    decreases |es|
  {
    if es != [] {
      InvStep(s, es[0]);
      InvAlways(Next(s, es[0]), es[1..]);
    }
  }

  /** In every interleaving, at most one dial to a host is in flight. */
  lemma OneDialPerHost(es: seq<Event>, d: nat, e: nat)
    requires Possible(START, es)
    requires InFlight(After(START, es).t, d) && InFlight(After(START, es).t, e)
    requires After(START, es).t.started[d].host == After(START, es).t.started[e].host
    ensures d == e
  {
    InvAlways(START, es);
  }

  lemma CallStep(s: Sys, e: Event, i: nat, d: nat)
    requires Inv(s) && Enabled(s, e) && i < |s.calls|
    ensures s.calls[i].at == Waiting(d) ==>
              Next(s, e).calls[i].at in {Waiting(d), GaveUp} || Next(s, e).calls[i].at.FromDial?
    ensures s.calls[i].at == Waiting(d) && Next(s, e).calls[i].at.FromDial? ==> Next(s, e).calls[i].at.dial == d
    ensures s.calls[i].at.GaveUp? || s.calls[i].at.FromDial? ==> Next(s, e).calls[i] == s.calls[i]
    ensures |s.calls| <= |Next(s, e).calls| && Next(s, e).calls[i].host == s.calls[i].host
  {
  }

  /** A caller that has joined a dial keeps waiting for it, gives up, or is given exactly what that dial
      answered: a connection to the host it asked for, or the error. */
  lemma {:induction false} WaiterGetsItsDial(s: Sys, es: seq<Event>, i: nat, d: nat)
    requires Inv(s) && Possible(s, es) && i < |s.calls|
    requires s.calls[i].at in {Waiting(d), GaveUp} || (s.calls[i].at.FromDial? && s.calls[i].at.dial == d)
    ensures var t := After(s, es);
            && i < |t.calls| && t.calls[i].host == s.calls[i].host
            && (t.calls[i].at in {Waiting(d), GaveUp} || (t.calls[i].at.FromDial? && t.calls[i].at.dial == d))
            && (t.calls[i].at.FromDial? ==>
                 && d < |t.t.started| && t.t.started[d] == Dial(s.calls[i].host, Some(t.calls[i].at.answer))
                 && (t.calls[i].at.answer.Gave? ==> t.calls[i].at.answer.conn < |t.t.made|
                                                     && t.t.made[t.calls[i].at.answer.conn].host == s.calls[i].host))
    decreases |es|
  {
    if es != [] {
      InvStep(s, es[0]);
      CallStep(s, es[0], i, d);
      WaiterGetsItsDial(Next(s, es[0]), es[1..], i, d);
    }
  }

  /** An evicted connection is closed or about to be, and is never cached again. */
  lemma {:induction false} GoneForGood(s: Sys, es: seq<Event>, c: nat)
    requires Inv(s) && Possible(s, es) && c < |s.t.made| && Gone(s.t, c)
    ensures Gone(After(s, es).t, c) && !IsCached(After(s, es).t, c)
    decreases |es|
  {
    if es != [] {
      InvStep(s, es[0]);
      TablesStep(s, es[0]);
      GoneForGood(Next(s, es[0]), es[1..], c);
    }
  }

  /** What leaves the cache other than by being dialled over is on its way to be closed. */
  lemma LeavingIsClosing(s: Sys, e: Event, c: nat)
    requires Inv(s) && Enabled(s, e) && IsCached(s.t, c) && !IsCached(Next(s, e).t, c)
    ensures Gone(Next(s, e).t, c) || (e.DialDone? && c in Next(s, e).t.lost && e.dial in s.t.slipped)
  {
    TablesStep(s, e);
    InvStep(s, e);
  }

  lemma {:induction false} SlippedStays(s: Sys, es: seq<Event>)
    requires Inv(s) && Possible(s, es)
    ensures s.t.slipped <= After(s, es).t.slipped
    ensures After(s, es).t.slipped == {} ==> After(s, es).t.lost == s.t.lost
    decreases |es|
  {
    if es != [] {
      InvStep(s, es[0]);
      TablesStep(s, es[0]);
      SlippedStays(Next(s, es[0]), es[1..]);
    }
  }

  /** The guard of the branch that loses a connection: a dial succeeds while its host has one cached. */
  predicate Overwrites(s: Sys, e: Event)
    requires Enabled(s, e)
  {
    e.DialDone? && e.ok && s.t.started[e.dial].host in s.t.conns
  }

  ghost predicate NeverOverwrites(s: Sys, es: seq<Event>)
    requires Possible(s, es)
    decreases |es|
  {
    es == [] || (!Overwrites(s, es[0]) && NeverOverwrites(Next(s, es[0]), es[1..]))
  }

  /** A connection that was dialled over stays open, uncached and out of reach of every close, whatever happens. */
  lemma {:induction false} LostForGood(s: Sys, es: seq<Event>, c: nat)
    requires Inv(s) && LostOnly(s.t, c) && Possible(s, es)
    ensures LostOnly(After(s, es).t, c)
    decreases |es|
  {
    if es != [] {
      InvStep(s, es[0]);
      LostStep(s, es[0], c);
      LostForGood(Next(s, es[0]), es[1..], c);
    }
  }

  /** Made, and neither cached nor closed nor about to be. */
  predicate LostOnly(t: Tables, c: nat) { c < |t.made| && c in t.lost && !IsCached(t, c) && !Gone(t, c) }

  lemma LostStep(s: Sys, e: Event, c: nat)
    requires Inv(s) && LostOnly(s.t, c) && Enabled(s, e)
    ensures LostOnly(Next(s, e).t, c)
  {
    TablesStep(s, e);
  }

  /** All lost connections are truly lost. */
  ghost predicate LossesReal(t: Tables) { forall c :: c in t.lost ==> LostOnly(t, c) }

  lemma LossesRealStep(s: Sys, e: Event)
    requires Inv(s) && LossesReal(s.t) && Enabled(s, e)
    ensures LossesReal(Next(s, e).t)
    ensures Overwrites(s, e) <==> Next(s, e).t.lost != s.t.lost
    ensures s.t.lost <= Next(s, e).t.lost
  {
    TablesStep(s, e);
    forall c | c in Next(s, e).t.lost ensures LostOnly(Next(s, e).t, c) {
      if c in s.t.lost {
        LostStep(s, e, c);
      } else {
        NewlyLost(s, e, c);
      }
    }
  }

  lemma NewlyLost(s: Sys, e: Event, c: nat)
    requires Inv(s) && Enabled(s, e) && c in Next(s, e).t.lost && c !in s.t.lost
    ensures LostOnly(Next(s, e).t, c)
  {
    TablesStep(s, e);
  }

  lemma {:induction false} LossesOverRuns(s: Sys, es: seq<Event>)
    requires Inv(s) && LossesReal(s.t) && Possible(s, es)
    ensures Inv(After(s, es)) && LossesReal(After(s, es).t) && s.t.lost <= After(s, es).t.lost
    ensures After(s, es).t.lost == s.t.lost <==> NeverOverwrites(s, es)
    decreases |es|
  {
    if es != [] {
      InvStep(s, es[0]);
      LossesRealStep(s, es[0]);
      LossesOverRuns(Next(s, es[0]), es[1..]);
    }
  }

  /** After any run, every connection ever dialled is cached, closed or about to be closed exactly when no dial of
      the run succeeded while its host had a connection cached. */
  lemma NothingIsLost(es: seq<Event>)
    requires Possible(START, es)
    ensures var t := After(START, es).t;
            (forall c :: 0 <= c < |t.made| ==> IsCached(t, c) || Gone(t, c)) <==> NeverOverwrites(START, es)
  {
    LossesOverRuns(START, es);
    var t := After(START, es).t;
    if t.lost != {} {
      var c :| c in t.lost;
      assert LostOnly(t, c);
    }
  }

  /** Only a caller that asked for a dial having missed a success since its eviction makes that happen. */
  lemma {:induction false} OverwritesNeedASlip(s: Sys, es: seq<Event>)
    requires Inv(s) && Possible(s, es)
    ensures After(s, es).t.slipped == {} ==> NeverOverwrites(s, es)
    decreases |es|
  {
    if es != [] {
      InvStep(s, es[0]);
      TablesStep(s, es[0]);
      SlippedStays(Next(s, es[0]), es[1..]);
      OverwritesNeedASlip(Next(s, es[0]), es[1..]);
    }
  }

  // ---------------------------------------------------------------- the leak

  lemma OneMore(s: Sys, e: Event, es: seq<Event>)
    requires Enabled(s, e) && Possible(Next(s, e), es)
    ensures Possible(s, [e] + es) && After(s, [e] + es) == After(Next(s, e), es)
  {
    assert ([e] + es)[1..] == es;
  }

  /** While one caller is between its eviction and its second look, another dials and gets a connection. The first
      dials again, and when that succeeds the other's connection is never cached nor closed again, however the
      run goes on. */
  lemma MissedSuccessLeaks(s: Sys, i: nat, now: int, more: seq<Event>)
    requires Inv(s) && i < |s.calls| && s.calls[i].at.Again?
    requires s.calls[i].host !in s.t.conns && s.calls[i].host !in s.t.dials
    ensures var es := LeakRun(s, i, now);
            Possible(s, es) && Inv(After(s, es)) && LostOnly(After(s, es).t, |s.t.made|) &&
            (Possible(After(s, es), more) ==> LostOnly(After(After(s, es), more).t, |s.t.made|))
  {
    var d, h := |s.t.started|, s.calls[i].host;
    assert |s.t.made| !in s.t.closing;
    hide CallInv, CacheOk, DialsOk, Accounted, AnswersOk, BesideOk;
    var s1 := Next(s, Get(h));
    var s2 := Next(s1, DialDone(d, true, now));
    var s3 := Next(s2, Retry(i));
    var s4 := Next(s3, DialDone(d + 1, true, now));
    OneMore(s3, DialDone(d + 1, true, now), []);
    OneMore(s2, Retry(i), [DialDone(d + 1, true, now)] + []);
    OneMore(s1, DialDone(d, true, now), [Retry(i)] + ([DialDone(d + 1, true, now)] + []));
    OneMore(s, Get(h), [DialDone(d, true, now)] + ([Retry(i)] + ([DialDone(d + 1, true, now)] + [])));
    InvAlways(s, LeakRun(s, i, now));
    if Possible(s4, more) {
      LostForGood(s4, more, |s.t.made|);
    }
  }

  function LeakRun(s: Sys, i: nat, now: int): seq<Event>
    requires i < |s.calls|
  {
    var d := |s.t.started|;
    [Get(s.calls[i].host)] + ([DialDone(d, true, now)] + ([Retry(i)] + ([DialDone(d + 1, true, now)] + [])))
  }

  /** Such a moment is reached: a connection dies and a caller evicts it. */
  lemma EvictionIsReached() returns (es: seq<Event>)
    ensures Possible(START, es)
    ensures var s := After(START, es);
            |s.calls| == 2 && s.calls[1] == Call("a", Again(1)) && s.t.conns == map[] && s.t.dials == map[]
  {
    var s2 := Next(Next(START, Get("a")), DialDone(0, true, 0));
    var rest := DeadIsEvicted(s2, "a");
    OneMore(Next(START, Get("a")), DialDone(0, true, 0), rest);
    OneMore(START, Get("a"), [DialDone(0, true, 0)] + rest);
    es := [Get("a")] + ([DialDone(0, true, 0)] + rest);
  }

  /** A caller finds the only cached connection dead and evicts it. */
  lemma DeadIsEvicted(s: Sys, h: Host) returns (es: seq<Event>)
    requires s.t.conns.Keys == {h} && s.t.dials == map[]
    ensures Possible(s, es)
    ensures var t := After(s, es);
            && |t.calls| == |s.calls| + 1 && t.calls[|s.calls|] == Call(h, Again(Count(s.t.successes, h)))
            && t.t.conns == map[] && t.t.dials == map[]
  {
    var i := |s.calls|;
    var s1 := Next(s, Get(h));
    var s2 := Next(s1, Dead(i));
    var s3 := Next(s2, EvictDead(i));
    OneMore(s2, EvictDead(i), []);
    OneMore(s1, Dead(i), [EvictDead(i)] + []);
    OneMore(s, Get(h), [Dead(i)] + ([EvictDead(i)] + []));
    es := [Get(h)] + ([Dead(i)] + ([EvictDead(i)] + []));
    assert s3.t.conns == map[];
  }
}

/** What each call on the connection manager does to a caller, a host and a connection (hosts/conn.go). */
module ConnRules {
  import opened Wrappers
  import opened C = ConnManager

  /** A call of Get: with a connection cached it asks whether that one is alive; otherwise it waits for the dial in
      flight to its host, and only starts one when there is none. */
  lemma GetTells(s: Sys, h: Host)
    requires Inv(s)
    ensures var t, n := Next(s, Get(h)), |s.calls|;
            && |t.calls| == n + 1 && t.calls[..n] == s.calls && t.calls[n].host == h
            && (h in s.t.conns ==> t.calls[n].at == Probing(s.t.conns[h]) && t.t == s.t)
            && (h !in s.t.conns ==>
                  && t.calls[n].at.Waiting? && InFlight(t.t, t.calls[n].at.dial) && t.t.started[t.calls[n].at.dial].host == h
                  && t.t.conns == s.t.conns && t.t.made == s.t.made
                  && (forall d: nat :: InFlight(s.t, d) && s.t.started[d].host == h ==>
                        t.calls[n].at.dial == d && t.t.started == s.t.started)
                  && ((forall d: nat :: InFlight(s.t, d) ==> s.t.started[d].host != h) ==>
                        t.calls[n].at.dial == |s.t.started| && t.t.started == s.t.started + [Dial(h, None)]))
  {
  }

  /** The end of a dial: its answer is a new, open connection to its host, cached and just used, or the refusal, and
      then nothing is cached or dropped. */
  lemma DialTells(s: Sys, d: nat, ok: bool, now: int)
    requires Inv(s) && InFlight(s.t, d)
    ensures var t, c := Next(s, DialDone(d, ok, now)).t, |s.t.made|;
            && !InFlight(t, d)
            && (ok ==> t.started[d].answer == Some(Gave(c)) && t.made == s.t.made + [Conn(s.t.started[d].host, false, now)]
                       && IsCached(t, c) && t.conns == s.t.conns[s.t.started[d].host := c])
            && (!ok ==> t.started[d].answer == Some(Refused) && t.made == s.t.made && t.conns == s.t.conns)
            && (forall e :: 0 <= e < |s.t.started| && e != d ==> t.started[e] == s.t.started[e])
  {
  }

  /** Invalidate and CloseAll take out the host's connection, or all, to be closed, and no other. */
  lemma EvictionTells(s: Sys, h: Host)
    requires Inv(s)
    ensures var t := Next(s, Invalidate(h)).t;
            t.conns == s.t.conns - {h} && (h in s.t.conns ==> s.t.conns[h] in t.closing) && t.made == s.t.made
    ensures var t := Next(s, CloseAll).t;
            t.conns == map[] && (forall g :: g in s.t.conns ==> s.t.conns[g] in t.closing) && t.made == s.t.made
  {
  }

  // ---------------------------------------------------------------- idle connections

  /** When a connection was last used: made, found alive by Get, or worked with. */
  function LastUse(s: Sys, es: seq<Event>, c: nat, last: int): int
    requires Possible(s, es)
    decreases |es|
  {
    if es == [] then last
    else
      var e := es[0];
      LastUse(Next(s, e), es[1..], c,
        match e
        case DialDone(_, ok, now) => if ok && c == |s.t.made| then now else last
        case Alive(i, now) => if s.calls[i].at.conn == c then now else last
        case Used(k, now) => if k == c then now else last
        case _ => last)
  }

  function UsedAt(t: Tables, c: nat, last: int): int { if c < |t.made| then t.made[c].lastUsed else last }

  lemma {:induction false} LastUseIsKept(s: Sys, es: seq<Event>, c: nat, last: int)
    requires Possible(s, es)
    ensures UsedAt(After(s, es).t, c, LastUse(s, es, c, UsedAt(s.t, c, last))) == LastUse(s, es, c, UsedAt(s.t, c, last))
    decreases |es|
  {
    if es != [] {
      UseStep(s, es[0], c, last);
      hide Next, Enabled;
      LastUseIsKept(Next(s, es[0]), es[1..], c, UsedAt(s.t, c, last));
    }
  }

  lemma UseStep(s: Sys, e: Event, c: nat, last: int)
    requires Enabled(s, e)
    ensures UsedAt(Next(s, e).t, c, UsedAt(s.t, c, last))
         == match e
            case DialDone(_, ok, now) => if ok && c == |s.t.made| then now else UsedAt(s.t, c, last)
            case Alive(i, now) => if s.calls[i].at.conn == c then now else UsedAt(s.t, c, last)
            case Used(k, now) => if k == c then now else UsedAt(s.t, c, last)
            case _ => UsedAt(s.t, c, last)
    ensures |s.t.made| <= |Next(s, e).t.made|
  {
  }

  /** After any run, CloseIdle takes out exactly the cached connections whose last use is more than ten minutes ago. */
  lemma IdleIsUnused(es: seq<Event>, now: int, h: Host)
    requires Possible(START, es) && h in After(START, es).t.conns
    ensures Enabled(After(START, es), CloseIdle(now))
    ensures var s := After(START, es);
            var c, t := s.t.conns[h], Next(s, CloseIdle(now)).t;
            && (h !in t.conns <==> now - LastUse(START, es, c, 0) > 10 * 60 * 1000)
            && (h in t.conns ==> t.conns[h] == c && c !in t.closing) && (h !in t.conns ==> c in t.closing)
  {
    InvAlways(START, es);
    var s := After(START, es);
    var c := s.t.conns[h];
    LastUseIsKept(START, es, c, 0);
    InvStep(s, CloseIdle(now));
  }

  // ---------------------------------------------------------------- what Get returns

  lemma FromCacheStep(s: Sys, e: Event, i: nat, c: nat)
    requires Inv(s) && Enabled(s, e) && i < |s.calls| && (s.calls[i].at == Probing(c) || s.calls[i].at == FromCache(c))
    ensures |Next(s, e).calls| >= |s.calls|
    ensures Next(s, e).calls[i].at in {Probing(c), Evicting, FromCache(c)}
    ensures Next(s, e).calls[i].at == FromCache(c) && s.calls[i].at == Probing(c) ==> !s.t.made[c].closed && e.Alive?
  {
  }

  lemma OtherwiseStep(s: Sys, e: Event, i: nat)
    requires Inv(s) && Enabled(s, e) && i < |s.calls| && !s.calls[i].at.Probing? && !s.calls[i].at.FromCache?
    ensures i < |Next(s, e).calls| && !Next(s, e).calls[i].at.Probing? && !Next(s, e).calls[i].at.FromCache?
  {
  }

  lemma {:induction false} NeverFromCache(s: Sys, es: seq<Event>, i: nat)
    requires Inv(s) && Possible(s, es) && i < |s.calls| && !s.calls[i].at.Probing? && !s.calls[i].at.FromCache?
    ensures i < |After(s, es).calls| && !After(s, es).calls[i].at.FromCache?
    decreases |es|
  {
    if es != [] {
      InvStep(s, es[0]);
      OtherwiseStep(s, es[0], i);
      hide Next, Enabled, Inv;
      NeverFromCache(Next(s, es[0]), es[1..], i);
    }
  }

  lemma {:induction false} ProbedIsReturned(s: Sys, es: seq<Event>, i: nat, c: nat)
    requires Inv(s) && Possible(s, es) && i < |s.calls| && (s.calls[i].at == Probing(c) || s.calls[i].at == FromCache(c))
    ensures i < |After(s, es).calls| && (After(s, es).calls[i].at.FromCache? ==> After(s, es).calls[i].at == FromCache(c))
    decreases |es|
  {
    if es != [] {
      InvStep(s, es[0]);
      FromCacheStep(s, es[0], i, c);
      hide Next, Enabled, Inv;
      if Next(s, es[0]).calls[i].at == Evicting {
        NeverFromCache(Next(s, es[0]), es[1..], i);
      } else {
        ProbedIsReturned(Next(s, es[0]), es[1..], i, c);
      }
    }
  }

  /** A call that returns from the cache returns the connection that was cached for its host when it was made. */
  lemma CachedIsReturned(s: Sys, h: Host, es: seq<Event>)
    requires Inv(s) && Possible(Next(s, Get(h)), es)
    ensures var i := |s.calls|;
            var t := After(Next(s, Get(h)), es);
            i < |t.calls| && (t.calls[i].at.FromCache? ==> h in s.t.conns && t.calls[i].at == FromCache(s.t.conns[h]))
  {
    InvStep(s, Get(h));
    GetTells(s, h);
    if h in s.t.conns {
      ProbedIsReturned(Next(s, Get(h)), es, |s.calls|, s.t.conns[h]);
    } else {
      NeverFromCache(Next(s, Get(h)), es, |s.calls|);
    }
  }
}

/** Logins to the built-in registry (registry/registry.go): a token or password is checked against the
    database, and the answer is cached for five minutes. The cache, the check and the revocation of a token
    are separate steps of concurrent requests. Times are seconds. */
module RegistryAuth {
  import opened Wrappers

  const TTL: int := 300
  const CACHE_LIMIT: nat := 500

  datatype Login = Login(user: string, pass: string)

  /** What the source hashes to key the cache: the two parts with a NUL between. */
  function KeyOf(l: Login): string { l.user + "\0" + l.pass }

  /** A login shares its key with another one exactly when its user name or its password holds a NUL. */
  lemma KeysTellLoginsApart(a: Login)
    ensures (exists b: Login :: b != a && KeyOf(b) == KeyOf(a)) <==> '\0' in a.user || '\0' in a.pass
  {
    forall b: Login | b != a && KeyOf(b) == KeyOf(a) ensures '\0' in a.user || '\0' in a.pass {
      SharedKeyHasNul(a, b);
    }
    if '\0' in a.user {
      var i :| 0 <= i < |a.user| && a.user[i] == '\0';
      var b := Login(a.user[..i], a.user[i + 1..] + "\0" + a.pass);
      assert a.user == a.user[..i] + "\0" + a.user[i + 1..];
      assert KeyOf(b) == KeyOf(a) && b.user != a.user;
    } else if '\0' in a.pass {
      var i :| 0 <= i < |a.pass| && a.pass[i] == '\0';
      var b := Login(a.user + "\0" + a.pass[..i], a.pass[i + 1..]);
      assert a.pass == a.pass[..i] + "\0" + a.pass[i + 1..];
      assert KeyOf(b) == KeyOf(a) && |b.user| != |a.user|;
    }
  }

  lemma SharedKeyHasNul(a: Login, b: Login)
    requires b != a && KeyOf(b) == KeyOf(a)
    ensures '\0' in a.user || '\0' in a.pass
  {
    var key, n, m := KeyOf(a), |a.user|, |b.user|;
    assert key[m] == '\0' by { assert KeyOf(b)[m] == '\0'; }
    if m < n {
      assert a.user[m] == '\0';
    } else if m > n {
      assert a.pass[m - n - 1] == '\0';
    } else {
      SameSplit(a, b);
    }
  }

  lemma SameSplit(a: Login, b: Login)
    requires KeyOf(b) == KeyOf(a) && |a.user| == |b.user|
    ensures a == b
  {
    assert KeyOf(a)[..|a.user|] == a.user && KeyOf(b)[..|b.user|] == b.user;
    assert KeyOf(a)[|a.user| + 1..] == a.pass && KeyOf(b)[|b.user| + 1..] == b.pass;
  }

  datatype Token = Token(id: string, name: string, scope: string, system: bool, revoked: bool)
  datatype AuthResult = AuthResult(scope: string, who: string, tokenID: string, until: int)

  type Cache = map<string, AuthResult>

  predicate IsToken(pass: string) { "dhr_" <= pass }

  function Cached(cache: Cache, key: string, now: int): Option<AuthResult> {
    if key in cache && now < cache[key].until then Some(cache[key]) else None
  }

  function Inserted(cache: Cache, key: string, res: AuthResult): Cache {
    (if |cache| > CACHE_LIMIT then map[] else cache)[key := res]
  }

  /** The two lock regions of authenticate and the one of RevokeToken. */
  class Service {
    var okCache: Cache

    constructor ()
      ensures okCache == map[]
    {
      okCache := map[];
    }

    method LookUp(login: Login, now: int) returns (hit: Option<AuthResult>)
      ensures hit == Cached(okCache, KeyOf(login), now)
    {
      var key := KeyOf(login);
      if key in okCache {
        var c := okCache[key];
        if now < c.until {
          return Some(c);
        }
      }
      return None;
    }

    method Insert(login: Login, res: AuthResult)
      modifies this
      ensures okCache == Inserted(old(okCache), KeyOf(login), res)
    {
      if |okCache| > CACHE_LIMIT {
        okCache := map[];
      }
      okCache := okCache[KeyOf(login) := res];
    }

    method DropAll()
      modifies this
      ensures okCache == map[]
    {
      okCache := map[];
    }
  }

  // ---------------------------------------------------------------- the protocol

  /** A request between its successful database check and its cache insert. `until` is set by then or 0. */
  datatype Pending = Pending(login: Login, res: AuthResult, checkedAt: int, stamped: bool)

  /** A database check that succeeded: whose, when, and what it answered. */
  datatype Check = Check(login: Login, at: int, tokenID: string, scope: string)

  /** `tokens` is the token table by password; `revoking` are the calls of RevokeToken between their two
      steps and `revoked` those that returned. `log` remembers the successful checks. */
  datatype Sys = Sys(cache: Cache, tokens: map<string, Token>, now: int, pending: seq<Pending>,
                     revoking: set<string>, revoked: set<string>, log: set<Check>)

  datatype Action =
    | Tick(to: int)
    | Hit(login: Login)
    | CheckToken(login: Login)
    | CheckPassword(login: Login, who: string)
    | Stamp(i: nat)
    | Insert(i: nat)
    | RevokeRow(id: string)
    | RevokeDrop(id: string)
    | NewToken(pass: string, token: Token)

  function Without(p: seq<Pending>, i: nat): seq<Pending>
    requires i < |p|
  {
    p[..i] + p[i + 1..]
  }

  function RevokeIn(tokens: map<string, Token>, id: string): map<string, Token> {
    map p | p in tokens :: if tokens[p].id == id && !tokens[p].system then tokens[p].(revoked := true) else tokens[p]
  }

  predicate Revocable(tokens: map<string, Token>, id: string) {
    exists p :: p in tokens && tokens[p].id == id && !tokens[p].system && !tokens[p].revoked
  }

  ghost predicate Next(s: Sys, a: Action, t: Sys) {
    match a
    case Tick(to) => s.now <= to && t == s.(now := to)
    case Hit(login) => Cached(s.cache, KeyOf(login), s.now).Some? && t == s
    case CheckToken(login) =>
      && IsToken(login.pass) && login.pass in s.tokens && !s.tokens[login.pass].revoked
      && var k := s.tokens[login.pass];
         t == s.(pending := s.pending + [Pending(login, AuthResult(k.scope, "token:" + k.name, k.id, 0), s.now, false)],
                 log := s.log + {Check(login, s.now, k.id, k.scope)})
    case CheckPassword(login, who) =>
      && !IsToken(login.pass)
      && t == s.(pending := s.pending + [Pending(login, AuthResult("push", who, "", 0), s.now, false)],
                 log := s.log + {Check(login, s.now, "", "push")})
    case Stamp(i) =>
      && i < |s.pending| && !s.pending[i].stamped
      && var p := s.pending[i];
         t == s.(pending := s.pending[i := p.(res := p.res.(until := s.now + TTL), stamped := true)])
    case Insert(i) =>
      && i < |s.pending| && s.pending[i].stamped
      && t == s.(pending := Without(s.pending, i), cache := Inserted(s.cache, KeyOf(s.pending[i].login), s.pending[i].res))
    case RevokeRow(id) =>
      && Revocable(s.tokens, id)
      && t == s.(tokens := RevokeIn(s.tokens, id), revoking := s.revoking + {id})
    case RevokeDrop(id) =>
      && id in s.revoking
      && t == s.(cache := map[], revoking := s.revoking - {id}, revoked := s.revoked + {id})
    case NewToken(pass, token) =>
      // the id is new, and so is the generated password
      && pass !in s.tokens && token.id != "" && token.id !in s.revoking && token.id !in s.revoked
      && (forall p :: p in s.tokens ==> s.tokens[p].id != token.id)
      && t == s.(tokens := s.tokens[pass := token])
  }

  ghost predicate Start(s: Sys) {
    && s.cache == map[] && s.pending == [] && s.revoking == {} && s.revoked == {} && s.log == {}
    // token ids are primary keys, and never empty
    && (forall p, q :: p in s.tokens && q in s.tokens && s.tokens[p].id == s.tokens[q].id ==> p == q)
    && (forall p :: p in s.tokens ==> s.tokens[p].id != "")
  }

  ghost predicate Behaviour(states: seq<Sys>, actions: seq<Action>) {
    && |states| == |actions| + 1
    && Start(states[0])
    && forall k :: 0 <= k < |actions| ==> Next(states[k], actions[k], states[k + 1])
  }

  // ---------------------------------------------------------------- every cached answer was checked

  ghost predicate Backed(log: set<Check>, key: string, res: AuthResult, before: int) {
    exists c :: c in log && KeyOf(c.login) == key && c.tokenID == res.tokenID && c.scope == res.scope && c.at <= before
  }

  /** A cache entry: checked no later than five minutes before it runs out. */
  ghost predicate GoodEntry(log: set<Check>, now: int, key: string, res: AuthResult) {
    res.until - TTL <= now && Backed(log, key, res, res.until - TTL)
  }

  ghost predicate GoodPending(log: set<Check>, now: int, p: Pending) {
    && p.checkedAt <= now
    && Backed(log, KeyOf(p.login), p.res, p.checkedAt)
    && (p.stamped ==> p.checkedAt <= p.res.until - TTL <= now)
  }

  ghost predicate Inv(s: Sys) {
    && (forall k :: k in s.cache ==> GoodEntry(s.log, s.now, k, s.cache[k]))
    && (forall i :: 0 <= i < |s.pending| ==> GoodPending(s.log, s.now, s.pending[i]))
  }

  lemma BackedMore(log: set<Check>, more: set<Check>, key: string, res: AuthResult, before: int, later: int)
    requires Backed(log, key, res, before) && log <= more && before <= later
    ensures Backed(more, key, res, later)
  {
    var c :| c in log && KeyOf(c.login) == key && c.tokenID == res.tokenID && c.scope == res.scope && c.at <= before;
    assert c in more;
  }

  lemma Later(s: Sys, log: set<Check>, now: int)
    requires Inv(s) && s.log <= log && s.now <= now
    ensures forall k :: k in s.cache ==> GoodEntry(log, now, k, s.cache[k])
    ensures forall i :: 0 <= i < |s.pending| ==> GoodPending(log, now, s.pending[i])
  {
    forall k | k in s.cache ensures GoodEntry(log, now, k, s.cache[k]) {
      var at := s.cache[k].until - TTL;
      BackedMore(s.log, log, k, s.cache[k], at, at);
    }
    forall i | 0 <= i < |s.pending| ensures GoodPending(log, now, s.pending[i]) {
      var p := s.pending[i];
      BackedMore(s.log, log, KeyOf(p.login), p.res, p.checkedAt, p.checkedAt);
    }
  }

  lemma Begins(log: set<Check>, now: int, login: Login, res: AuthResult)
    ensures GoodPending(log + {Check(login, now, res.tokenID, res.scope)}, now, Pending(login, res, now, false))
  {
    assert Check(login, now, res.tokenID, res.scope) in log + {Check(login, now, res.tokenID, res.scope)};
  }

  lemma Stamped(log: set<Check>, now: int, p: Pending)
    requires GoodPending(log, now, p)
    ensures GoodPending(log, now, p.(res := p.res.(until := now + TTL), stamped := true))
  {
    var c :| c in log && KeyOf(c.login) == KeyOf(p.login) && c.tokenID == p.res.tokenID && c.scope == p.res.scope && c.at <= p.checkedAt;
    assert c in log;
  }

  lemma EntersGood(log: set<Check>, now: int, p: Pending)
    requires GoodPending(log, now, p) && p.stamped
    ensures GoodEntry(log, now, KeyOf(p.login), p.res)
  {
    BackedMore(log, log, KeyOf(p.login), p.res, p.checkedAt, p.res.until - TTL);
  }

  lemma InvStep(s: Sys, a: Action, t: Sys)
    requires Inv(s) && Next(s, a, t)
    ensures Inv(t)
  {
    Later(s, t.log, t.now);
    match a
    case CheckToken(login) =>
      var k := s.tokens[login.pass];
      Begins(s.log, s.now, login, AuthResult(k.scope, "token:" + k.name, k.id, 0));
    case CheckPassword(login, who) =>
      Begins(s.log, s.now, login, AuthResult("push", who, "", 0));
    case Stamp(i) =>
      Stamped(s.log, s.now, s.pending[i]);
    case Insert(i) =>
      EntersGood(s.log, s.now, s.pending[i]);
    case _ =>
  }

  lemma {:induction false} InvAlways(states: seq<Sys>, actions: seq<Action>, k: nat)
    requires Behaviour(states, actions) && k < |states|
    ensures Inv(states[k])
  {
    if k > 0 {
      InvAlways(states, actions, k - 1);
      assert Next(states[k - 1], actions[k - 1], states[k]);
      InvStep(states[k - 1], actions[k - 1], states[k]);
    }
  }

  /** In every interleaving a login taken from the cache rests on a successful database check, with the scope it is
      given, stamped less than five minutes before. The check was of that very login, unless its user name or its
      password holds a NUL. */
  lemma CacheHitsWereChecked(states: seq<Sys>, actions: seq<Action>, k: nat) returns (c: Check)
    requires Behaviour(states, actions) && k < |actions| && actions[k].Hit?
    ensures var s, login := states[k], actions[k].login;
            && KeyOf(login) in s.cache && c in s.log
            && var res := s.cache[KeyOf(login)];
               && c.tokenID == res.tokenID && c.scope == res.scope
               && c.at <= res.until - 300 <= s.now < res.until
               && (c.login == login || '\0' in login.user || '\0' in login.pass)
  {
    InvAlways(states, actions, k);
    assert Next(states[k], actions[k], states[k + 1]);
    var s, login := states[k], actions[k].login;
    var res := s.cache[KeyOf(login)];
    c :| c in s.log && KeyOf(c.login) == KeyOf(login) && c.tokenID == res.tokenID && c.scope == res.scope && c.at <= res.until - TTL;
    if c.login != login {
      SharedKeyHasNul(login, c.login);
    }
  }

  /** Whenever two logins share a key, a run lets the one in on the check of the other alone. */
  lemma SharedKeyGetsIn(a: Login, b: Login, who: string) returns (states: seq<Sys>, actions: seq<Action>)
    requires a != b && KeyOf(a) == KeyOf(b) && !IsToken(a.pass)
    ensures Behaviour(states, actions) && |actions| > 0 && actions[|actions| - 1] == Hit(b)
    ensures forall c :: c in states[|actions| - 1].log ==> c.login == a
  {
    var res, log := AuthResult("push", who, "", 0), {Check(a, 0, "", "push")};
    var s0 := Sys(map[], map[], 0, [], {}, {}, {});
    var s1 := s0.(pending := [Pending(a, res, 0, false)], log := log);
    var s2 := s1.(pending := [Pending(a, res.(until := TTL), 0, true)]);
    var s3 := s2.(pending := [], cache := map[KeyOf(a) := res.(until := TTL)]);
    assert s0.pending + [Pending(a, res, 0, false)] == s1.pending && s0.log + log == log;
    assert s1.pending[0 := Pending(a, res.(until := TTL), 0, true)] == s2.pending;
    assert Without(s2.pending, 0) == [];
    states, actions := [s0, s1, s2, s3, s3], [CheckPassword(a, who), Stamp(0), Insert(0), Hit(b)];
    assert Next(s0, actions[0], s1) && Next(s1, actions[1], s2) && Next(s2, actions[2], s3) && Next(s3, actions[3], s3);
  }

  /** In every interleaving the cache holds at most 501 answers, and a password's answer allows pushing. */
  lemma {:induction false} CacheIsBounded(states: seq<Sys>, actions: seq<Action>, k: nat)
    requires Behaviour(states, actions) && k < |states|
    ensures |states[k].cache| <= 501
    ensures forall c :: c in states[k].log && c.tokenID == "" ==> c.scope == "push" && !("dhr_" <= c.login.pass)
  {
    if k > 0 {
      CacheIsBounded(states, actions, k - 1);
      UniqueAlways(states, actions, k - 1);
      assert Next(states[k - 1], actions[k - 1], states[k]);
      BoundedStep(states[k - 1], actions[k - 1], states[k]);
    }
  }

  /** A check of a token was made when that token was there and not revoked, and answered with its id and scope. */
  lemma {:induction false} TokenWasThere(states: seq<Sys>, actions: seq<Action>, k: nat, c: Check) returns (j: nat)
    requires Behaviour(states, actions) && k < |states| && c in states[k].log && c.tokenID != ""
    ensures j < k && actions[j] == CheckToken(c.login) && states[j].now == c.at && "dhr_" <= c.login.pass
    ensures var s := states[j];
            c.login.pass in s.tokens && s.tokens[c.login.pass].id == c.tokenID && s.tokens[c.login.pass].scope == c.scope
            && !s.tokens[c.login.pass].revoked
  {
    if k > 0 {
      assert Next(states[k - 1], actions[k - 1], states[k]);
      if c in states[k - 1].log {
        j := TokenWasThere(states, actions, k - 1, c);
      } else {
        j := k - 1;
      }
    } else {
      assert false;
    }
  }

  lemma BoundedStep(s: Sys, a: Action, t: Sys)
    requires Next(s, a, t) && UniqueIds(s) && |s.cache| <= 501
    requires forall c :: c in s.log && c.tokenID == "" ==> c.scope == "push" && !("dhr_" <= c.login.pass)
    ensures |t.cache| <= 501
    ensures forall c :: c in t.log && c.tokenID == "" ==> c.scope == "push" && !("dhr_" <= c.login.pass)
  {
    if a.Insert? {
      InsertBounded(s.cache, KeyOf(s.pending[a.i].login), s.pending[a.i].res);
      hide Inserted, UniqueIds, Without;
    } else {
      hide Inserted, RevokeIn;
    }
  }

  lemma InsertBounded(cache: Cache, key: string, res: AuthResult)
    requires |cache| <= 501
    ensures |Inserted(cache, key, res)| <= 501
  {
    var c := if |cache| > CACHE_LIMIT then map[] else cache;
    assert c[key := res].Keys == c.Keys + {key};
    assert |c[key := res]| == |c.Keys + {key}| && |c| == |c.Keys|;
  }

  // ---------------------------------------------------------------- revocation

  /** No request that checked this token is on its way to the cache. */
  ghost predicate NoneUnderway(s: Sys, id: string) {
    forall i :: 0 <= i < |s.pending| ==> s.pending[i].res.tokenID != id
  }

  /** Neither the cache nor a check can let the token in. */
  ghost predicate LockedOut(s: Sys, id: string) {
    && id in s.revoked && RowRevoked(s.tokens, id)
    && (forall k :: k in s.cache ==> s.cache[k].tokenID != id)
    && NoneUnderway(s, id)
  }

  ghost predicate Lets(s: Sys, a: Action, id: string) {
    match a
    case Hit(login) => KeyOf(login) in s.cache && s.cache[KeyOf(login)].tokenID == id
    case CheckToken(login) => login.pass in s.tokens && s.tokens[login.pass].id == id
    case Insert(i) => i < |s.pending| && s.pending[i].res.tokenID == id
    case _ => false
  }

  ghost predicate RowRevoked(tokens: map<string, Token>, id: string) {
    forall p :: p in tokens && tokens[p].id == id ==> tokens[p].revoked
  }

  ghost predicate UniqueIds(s: Sys) {
    && (forall p, q :: p in s.tokens && q in s.tokens && s.tokens[p].id == s.tokens[q].id ==> p == q)
    && (forall p :: p in s.tokens ==> s.tokens[p].id != "")
    && (forall id :: id in s.revoking ==> id != "" && RowRevoked(s.tokens, id))
    && (forall id :: id in s.revoked ==> id != "" && RowRevoked(s.tokens, id))
  }

  lemma UniqueStep(s: Sys, a: Action, t: Sys)
    requires UniqueIds(s) && Next(s, a, t)
    ensures UniqueIds(t)
  {
    match a
    case RevokeRow(id) => RevokeRowUnique(s, id, t);
    case NewToken(pass, token) => NewTokenUnique(s, pass, token, t);
    case _ =>
  }

  lemma RevokeRowUnique(s: Sys, id: string, t: Sys)
    requires UniqueIds(s) && Next(s, RevokeRow(id), t)
    ensures UniqueIds(t)
  {
    var p :| p in s.tokens && s.tokens[p].id == id && !s.tokens[p].system && !s.tokens[p].revoked;
    forall q | q in t.tokens && t.tokens[q].id == id ensures t.tokens[q].revoked {
      assert s.tokens[q].id == s.tokens[p].id;
    }
  }

  lemma NewTokenUnique(s: Sys, pass: string, token: Token, t: Sys)
    requires UniqueIds(s) && Next(s, NewToken(pass, token), t)
    ensures UniqueIds(t)
  {
  }

  lemma {:induction false} UniqueAlways(states: seq<Sys>, actions: seq<Action>, k: nat)
    requires Behaviour(states, actions) && k < |states|
    ensures UniqueIds(states[k])
  {
    if k > 0 {
      UniqueAlways(states, actions, k - 1);
      assert Next(states[k - 1], actions[k - 1], states[k]);
      UniqueStep(states[k - 1], actions[k - 1], states[k]);
    }
  }

  lemma LockedOutStep(s: Sys, a: Action, t: Sys, id: string)
    requires LockedOut(s, id) && Next(s, a, t) && id != ""
    ensures LockedOut(t, id) && !Lets(s, a, id)
  {
  }

  lemma {:induction false} LockedOutForGood(states: seq<Sys>, actions: seq<Action>, k: nat, m: nat, id: string)
    requires Behaviour(states, actions) && k <= m < |states| && id != ""
    requires LockedOut(states[k], id)
    ensures LockedOut(states[m], id)
    decreases m
  {
    if k < m {
      LockedOutForGood(states, actions, k, m - 1, id);
      assert Next(states[m - 1], actions[m - 1], states[m]);
      LockedOutStep(states[m - 1], actions[m - 1], states[m], id);
    }
  }

  /** If no request with the token is between its check and its insert when RevokeToken returns, the token is
      never let in again. Where check and insert are one step, that is always so. */
  lemma RevokedStaysOut(states: seq<Sys>, actions: seq<Action>, k: nat, m: nat, id: string)
    requires Behaviour(states, actions) && k < m < |actions|
    requires actions[k] == RevokeDrop(id) && NoneUnderway(states[k], id)
    ensures !Lets(states[m], actions[m], id)
  {
    UniqueAlways(states, actions, k);
    assert Next(states[k], actions[k], states[k + 1]);
    assert LockedOut(states[k + 1], id);
    LockedOutForGood(states, actions, k + 1, m, id);
    assert Next(states[m], actions[m], states[m + 1]);
    LockedOutStep(states[m], actions[m], states[m + 1], id);
  }

  /** The other half: whenever such a request is under way when RevokeToken returns, the run can go on so that
      the revoked token is accepted from the cache afterwards. */
  lemma UnderwayGetsIn(s: Sys, id: string, i: nat)
    returns (states: seq<Sys>, actions: seq<Action>)
    requires id in s.revoking && i < |s.pending| && s.pending[i].res.tokenID == id
    requires s.pending[i].stamped ==> s.now < s.pending[i].res.until
    ensures |states| == |actions| + 1 && |actions| > 1 && states[0] == s && actions[0] == RevokeDrop(id)
    ensures forall k :: 0 <= k < |actions| ==> Next(states[k], actions[k], states[k + 1])
    ensures var last := |actions| - 1;
            actions[last].Hit? && Lets(states[last], actions[last], id) && id in states[last].revoked
  {
    var login := s.pending[i].login;
    var s1 := s.(cache := map[], revoking := s.revoking - {id}, revoked := s.revoked + {id});
    var p := s1.pending[i];
    var q := if p.stamped then p else p.(res := p.res.(until := s1.now + TTL), stamped := true);
    var s2 := s1.(pending := s1.pending[i := q]);
    assert s2.pending[i] == q;
    var s3 := s2.(pending := Without(s2.pending, i), cache := Inserted(s2.cache, KeyOf(login), q.res));
    assert Cached(s3.cache, KeyOf(login), s3.now).Some?;
    if p.stamped {
      assert s1.pending[i := q] == s1.pending;
      states, actions := [s, s1, s3, s3], [RevokeDrop(id), Insert(i), Hit(login)];
    } else {
      states, actions := [s, s1, s2, s3, s3], [RevokeDrop(id), Stamp(i), Insert(i), Hit(login)];
    }
  }
}

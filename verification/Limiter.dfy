/** The fixed-window failure counter per key that guards the sign-in pages (auth/auth.go). Times are
    integers on a clock that does not run backwards. */
module Limiter {

  type Key = string
  datatype Bucket = Bucket(n: nat, start: int)
  type Hits = map<Key, Bucket>

  const SWEEP_ABOVE: nat := 10000

  predicate Expired(b: Bucket, window: int, now: int) { now - b.start > window }

  predicate AllowedIn(hits: Hits, max: int, window: int, key: Key, now: int) {
    key !in hits || Expired(hits[key], window, now) || hits[key].n < max
  }

  /** The counting part of Fail. */
  function Count(hits: Hits, window: int, key: Key, now: int): Hits {
    if key !in hits || Expired(hits[key], window, now)
    then hits[key := Bucket(1, now)]
    else hits[key := Bucket(hits[key].n + 1, hits[key].start)]
  }

  /** The buckets that a sweep leaves. */
  function Swept(hits: Hits, window: int, now: int): Hits {
    map k | k in hits && !Expired(hits[k], window, now) :: hits[k]
  }

  function Failed(hits: Hits, window: int, key: Key, now: int): Hits {
    var h := Count(hits, window, key, now);
    if |h| > SWEEP_ABOVE then Swept(h, window, now) else h
  }

  class Limiter {
    const max: int
    const window: int
    var hits: Hits

    constructor (max: int, window: int)
      ensures this.max == max && this.window == window && hits == map[]
    {
      this.max, this.window, hits := max, window, map[];
    }

    method Allowed(key: Key, now: int) returns (ok: bool)
      ensures ok == AllowedIn(hits, max, window, key, now)
    {
      if key !in hits || now - hits[key].start > window {
        return true;
      }
      return hits[key].n < max;
    }

    method Fail(key: Key, now: int)
      modifies this`hits
      ensures hits == Failed(old(hits), window, key, now)
    {
      if key !in hits || now - hits[key].start > window {
        hits := hits[key := Bucket(0, now)];
      }
      hits := hits[key := Bucket(hits[key].n + 1, hits[key].start)];
      assert hits == Count(old(hits), window, key, now);
      if |hits| > SWEEP_ABOVE {
        ghost var before := hits;
        var todo := hits.Keys;
        while todo != {}
          invariant todo <= before.Keys
          invariant hits == map k | k in before && (k in todo || !Expired(before[k], window, now)) :: before[k]
          decreases todo
        {
          var k :| k in todo;
          if now - hits[k].start > window {
            hits := hits - {k};
          }
          todo := todo - {k};
        }
      }
    }

    method Reset(key: Key)
      modifies this`hits
      ensures hits == old(hits) - {key}
    {
      hits := hits - {key};
    }
  }

  // ---------------------------------------------------------------- the sweep is invisible

  datatype Op = Fail(key: Key, at: int) | Reset(key: Key)

  function Apply(hits: Hits, window: int, op: Op): Hits {
    match op
    case Fail(k, t) => Failed(hits, window, k, t)
    case Reset(k) => hits - {k}
  }

  /** A limiter that never sweeps. */
  function ApplyPlain(hits: Hits, window: int, op: Op): Hits {
    match op
    case Fail(k, t) => Count(hits, window, k, t)
    case Reset(k) => hits - {k}
  }

  function Run(hits: Hits, window: int, ops: seq<Op>): Hits
    decreases |ops|
  {
    if ops == [] then hits else Run(Apply(hits, window, ops[0]), window, ops[1..])
  }

  function RunPlain(hits: Hits, window: int, ops: seq<Op>): Hits
    decreases |ops|
  {
    if ops == [] then hits else RunPlain(ApplyPlain(hits, window, ops[0]), window, ops[1..])
  }

  /** The operations' times do not run backwards from `from` and end by `to`. */
  ghost predicate Monotone(ops: seq<Op>, from: int, to: int) {
    if ops == [] then from <= to
    else match ops[0]
      case Fail(_, t) => from <= t && Monotone(ops[1..], t, to)
      case Reset(_) => Monotone(ops[1..], from, to)
  }

  /** What sweeping forgets is expired. */
  ghost predicate Agree(swept: Hits, plain: Hits, window: int, now: int) {
    && (forall k :: k in swept ==> k in plain && swept[k] == plain[k])
    && (forall k :: k in plain && k !in swept ==> Expired(plain[k], window, now))
  }

  lemma AgreeStep(swept: Hits, plain: Hits, window: int, op: Op, from: int)
    requires Agree(swept, plain, window, from)
    requires op.Fail? ==> from <= op.at
    ensures Agree(Apply(swept, window, op), ApplyPlain(plain, window, op), window, if op.Fail? then op.at else from)
  {
    if op.Fail? {
      assert Agree(Count(swept, window, op.key, op.at), Count(plain, window, op.key, op.at), window, op.at);
    }
  }

  lemma {:induction false} AgreeOverRun(swept: Hits, plain: Hits, window: int, ops: seq<Op>, from: int, to: int)
    requires Monotone(ops, from, to)
    requires Agree(swept, plain, window, from)
    ensures from <= to
    ensures Agree(Run(swept, window, ops), RunPlain(plain, window, ops), window, to)
    decreases |ops|
  {
    if ops != [] {
      var now := if ops[0].Fail? then ops[0].at else from;
      AgreeStep(swept, plain, window, ops[0], from);
      AgreeOverRun(Apply(swept, window, ops[0]), ApplyPlain(plain, window, ops[0]), window, ops[1..], now, to);
    }
  }

  /** After any run from the empty limiter, sweeping or not, every key gets the same answer. */
  lemma SweepIsInvisible(max: int, window: int, ops: seq<Op>, from: int, now: int, key: Key)
    requires Monotone(ops, from, now)
    ensures AllowedIn(Run(map[], window, ops), max, window, key, now)
        <==> AllowedIn(RunPlain(map[], window, ops), max, window, key, now)
  {
    AgreeOverRun(map[], map[], window, ops, from, now);
  }

  // ---------------------------------------------------------------- how many failures fit in a window

  /** The limiter, the keys of the sign-ins that were let in and are being checked, and the clock. */
  datatype Sys = Sys(max: int, window: int, hits: Hits, checking: seq<Key>, now: int)

  /** A sign-in asks; one that is being checked fails and is recorded, succeeds and clears its key, or ends
      otherwise, as a login to the registry does when it succeeds. */
  datatype Move = Ask(key: Key, at: int) | Record(i: nat, at: int) | Clear(i: nat) | Leave(i: nat)

  predicate CanMove(s: Sys, m: Move) {
    match m
    case Ask(_, at) => s.now <= at
    case Record(i, at) => i < |s.checking| && s.now <= at
    case Clear(i) => i < |s.checking|
    case Leave(i) => i < |s.checking|
  }

  function Without(checking: seq<Key>, i: nat): seq<Key>
    requires i < |checking|
  {
    checking[..i] + checking[i + 1..]
  }

  function Moved(s: Sys, m: Move): Sys
    requires CanMove(s, m)
  {
    match m
    case Ask(k, at) =>
      s.(checking := if AllowedIn(s.hits, s.max, s.window, k, at) then s.checking + [k] else s.checking, now := at)
    case Record(i, at) =>
      s.(hits := Failed(s.hits, s.window, s.checking[i], at), checking := Without(s.checking, i), now := at)
    case Clear(i) => s.(hits := s.hits - {s.checking[i]}, checking := Without(s.checking, i))
    case Leave(i) => s.(checking := Without(s.checking, i))
  }

  ghost predicate Possible(s: Sys, ms: seq<Move>)
    decreases |ms|
  {
    ms == [] || (CanMove(s, ms[0]) && Possible(Moved(s, ms[0]), ms[1..]))
  }

  function After(s: Sys, ms: seq<Move>): Sys
    requires Possible(s, ms)
    decreases |ms|
  {
    if ms == [] then s else After(Moved(s, ms[0]), ms[1..])
  }

  /** A failure of the key. */
  predicate FailureOf(s: Sys, m: Move, key: Key)
    requires CanMove(s, m)
  {
    m.Record? && s.checking[m.i] == key
  }

  /** A failure of the key that is recorded while the key would no longer be let in. */
  predicate Stale(s: Sys, m: Move, key: Key)
    requires CanMove(s, m)
  {
    FailureOf(s, m, key) && !AllowedIn(s.hits, s.max, s.window, key, m.at)
  }

  /** The failures of the key recorded between the times a and b. */
  function Recorded(s: Sys, ms: seq<Move>, key: Key, a: int, b: int): nat
    requires Possible(s, ms)
    decreases |ms|
  {
    if ms == [] then 0
    else (if FailureOf(s, ms[0], key) && a <= ms[0].at <= b then 1 else 0) + Recorded(Moved(s, ms[0]), ms[1..], key, a, b)
  }

  /** And those of them that are stale. */
  function StaleOnes(s: Sys, ms: seq<Move>, key: Key, a: int, b: int): nat
    requires Possible(s, ms)
    decreases |ms|
  {
    if ms == [] then 0
    else (if Stale(s, ms[0], key) && a <= ms[0].at <= b then 1 else 0) + StaleOnes(Moved(s, ms[0]), ms[1..], key, a, b)
  }

  /** Nobody signs in successfully under the key. */
  ghost predicate Uncleared(s: Sys, ms: seq<Move>, key: Key)
    requires Possible(s, ms)
    decreases |ms|
  {
    ms == [] || (!(ms[0].Clear? && s.checking[ms[0].i] == key) && Uncleared(Moved(s, ms[0]), ms[1..], key))
  }

  /** Nobody asks under the key while a sign-in of it is being checked. */
  ghost predicate Alone(s: Sys, ms: seq<Move>, key: Key)
    requires Possible(s, ms)
    decreases |ms|
  {
    ms == [] || (!(ms[0].Ask? && ms[0].key == key && key in s.checking) && Alone(Moved(s, ms[0]), ms[1..], key))
  }

  function Fresh(max: int, window: int, now: int): Sys { Sys(max, window, map[], [], now) }

  /** The failures a bucket can take. */
  function Cap(max: int): int { if max < 1 then 1 else max }

  function Least(a: int, b: int): int { if a < b then a else b }

  /** What `c` failures since time a that were not stale say about the bucket of the key: one that started before
      a lost its first failure to the time before a. */
  ghost predicate Budget(s: Sys, key: Key, a: int, b: int, c: nat) {
    && (key in s.hits ==> 1 <= s.hits[key].n && s.hits[key].start <= s.now)
    && c <= 2 * Cap(s.max) - 1
    && (s.now < a ==> c == 0)
    && (s.now <= b ==>
          if key !in s.hits then c <= Cap(s.max) - 1
          else if s.hits[key].start < a then c <= Least(s.hits[key].n, Cap(s.max)) - 1
          else c <= Cap(s.max) - 1 + Least(s.hits[key].n, Cap(s.max)))
  }

  lemma BudgetStep(s: Sys, m: Move, key: Key, a: int, b: int, c: nat)
    requires b - a <= s.window && CanMove(s, m) && !(m.Clear? && s.checking[m.i] == key)
    requires Budget(s, key, a, b, c)
    ensures var d := if FailureOf(s, m, key) && !Stale(s, m, key) && a <= m.at <= b then c + 1 else c;
            Budget(Moved(s, m), key, a, b, d)
  {
  }

  lemma {:induction false} BudgetHolds(s: Sys, ms: seq<Move>, key: Key, a: int, b: int, c: nat)
    requires b - a <= s.window && Possible(s, ms) && Uncleared(s, ms, key) && Budget(s, key, a, b, c)
    ensures c + Recorded(s, ms, key, a, b) <= 2 * Cap(s.max) - 1 + StaleOnes(s, ms, key, a, b)
    decreases |ms|
  {
    if ms != [] {
      var m := ms[0];
      BudgetStep(s, m, key, a, b, c);
      var d := if FailureOf(s, m, key) && !Stale(s, m, key) && a <= m.at <= b then c + 1 else c;
      BudgetHolds(Moved(s, m), ms[1..], key, a, b, d);
    }
  }

  /** However sign-ins of all keys ask, fail and succeed side by side: without a success of the key, no stretch of
      time up to one window long sees more than 2 max - 1 recorded failures of it besides the stale ones. */
  lemma OnlyStaleOnesExceed(max: int, window: int, now: int, ms: seq<Move>, key: Key, a: int, b: int)
    requires b - a <= window && Possible(Fresh(max, window, now), ms) && Uncleared(Fresh(max, window, now), ms, key)
    ensures Recorded(Fresh(max, window, now), ms, key, a, b)
         <= 2 * Cap(max) - 1 + StaleOnes(Fresh(max, window, now), ms, key, a, b)
  {
    BudgetHolds(Fresh(max, window, now), ms, key, a, b, 0);
  }

  // ---------------------------------------------------------------- when a failure is stale

  ghost predicate AtMostOne(checking: seq<Key>, key: Key) {
    forall i, j :: 0 <= i < j < |checking| ==> checking[i] != key || checking[j] != key
  }

  lemma OneEnds(checking: seq<Key>, i: nat, key: Key)
    requires AtMostOne(checking, key) && i < |checking|
    ensures AtMostOne(Without(checking, i), key)
    ensures key in Without(checking, i) ==> key in checking && checking[i] != key
  {
    if key in Without(checking, i) {
      var j :| 0 <= j < |checking| - 1 && Without(checking, i)[j] == key;
      assert checking[if j < i then j else j + 1] == key;
    }
  }

  /** At most one sign-in of the key is being checked, and it would still be let in. */
  ghost predicate OneChecked(s: Sys, key: Key) {
    && AtMostOne(s.checking, key)
    && (key in s.checking ==> AllowedIn(s.hits, s.max, s.window, key, s.now))
  }

  lemma OneCheckedStep(s: Sys, m: Move, key: Key)
    requires OneChecked(s, key) && CanMove(s, m) && !(m.Ask? && m.key == key && key in s.checking)
    ensures OneChecked(Moved(s, m), key) && !Stale(s, m, key)
  {
    hide AtMostOne;
    match m
    case Ask(k, _) => OneAsks(s.checking, k, key);
    case Record(i, at) => OneEnds(s.checking, i, key);
    case Clear(i) => OneEnds(s.checking, i, key);
    case Leave(i) => OneEnds(s.checking, i, key);
  }

  lemma OneAsks(checking: seq<Key>, k: Key, key: Key)
    requires AtMostOne(checking, key) && !(k == key && key in checking)
    ensures AtMostOne(checking + [k], key)
  {
  }

  /** Sign-ins of one key that do not overlap are never stale, whatever other keys do. */
  lemma {:induction false} AloneIsFresh(s: Sys, ms: seq<Move>, key: Key, a: int, b: int)
    requires OneChecked(s, key) && Possible(s, ms) && Alone(s, ms, key)
    ensures StaleOnes(s, ms, key, a, b) == 0
    decreases |ms|
  {
    if ms != [] {
      OneCheckedStep(s, ms[0], key);
      AloneIsFresh(Moved(s, ms[0]), ms[1..], key, a, b);
    }
  }

  /** So while sign-ins of the key do not overlap, the bound holds. */
  lemma AtMostTwoWindowsLessOne(max: int, window: int, now: int, ms: seq<Move>, key: Key, a: int, b: int)
    requires b - a <= window && Possible(Fresh(max, window, now), ms) && Uncleared(Fresh(max, window, now), ms, key)
    requires Alone(Fresh(max, window, now), ms, key)
    ensures Recorded(Fresh(max, window, now), ms, key, a, b) <= 2 * Cap(max) - 1
  {
    OnlyStaleOnesExceed(max, window, now, ms, key, a, b);
    AloneIsFresh(Fresh(max, window, now), ms, key, a, b);
  }

  /** The key's bucket holds more than max failures. */
  predicate Above(s: Sys, key: Key) { key in s.hits && s.hits[key].n > Cap(s.max) }

  ghost predicate EverAbove(s: Sys, ms: seq<Move>, key: Key)
    requires Possible(s, ms)
    decreases |ms|
  {
    Above(s, key) || (ms != [] && EverAbove(Moved(s, ms[0]), ms[1..], key))
  }

  ghost predicate EverStale(s: Sys, ms: seq<Move>, key: Key)
    requires Possible(s, ms)
    decreases |ms|
  {
    ms != [] && (Stale(s, ms[0], key) || EverStale(Moved(s, ms[0]), ms[1..], key))
  }

  ghost predicate Counted(s: Sys, key: Key) { key in s.hits ==> 1 <= s.hits[key].n && s.hits[key].start <= s.now }

  lemma AboveStep(s: Sys, m: Move, key: Key)
    requires s.window >= 0 && Counted(s, key) && CanMove(s, m)
    ensures Counted(Moved(s, m), key)
    ensures !Above(s, key) ==> (Above(Moved(s, m), key) <==> Stale(s, m, key))
    ensures FailureOf(s, m, key) ==> (Above(Moved(s, m), key) <==> Stale(s, m, key))
  {
    if m.Record? {
      CountAbove(s, m.i, m.at, key);
    }
  }

  lemma CountAbove(s: Sys, i: nat, at: int, key: Key)
    requires s.window >= 0 && Counted(s, key) && i < |s.checking| && s.now <= at
    ensures var h, k := Count(s.hits, s.window, s.checking[i], at), s.checking[i];
            && !Expired(h[k], s.window, at) && 1 <= h[k].n
            && (k == key ==> (h[k].n > Cap(s.max) <==> !AllowedIn(s.hits, s.max, s.window, key, at)))
  {
  }

  /** Over any run, successes of the key included, its bucket is ever filled above max exactly when some failure of
      it is stale, and the stale one is the one that does it. */
  lemma {:induction false} StaleOnesOverfill(s: Sys, ms: seq<Move>, key: Key)
    requires s.window >= 0 && Counted(s, key) && !Above(s, key) && Possible(s, ms)
    ensures EverAbove(s, ms, key) <==> EverStale(s, ms, key)
    decreases |ms|
  {
    if ms != [] {
      AboveStep(s, ms[0], key);
      if !Above(Moved(s, ms[0]), key) {
        StaleOnesOverfill(Moved(s, ms[0]), ms[1..], key);
      }
    }
  }

  /** A success forgets its own key's failures and no other's; one that is refused, or ends otherwise, changes nothing. */
  lemma SuccessForgets(s: Sys, i: nat, key: Key)
    requires i < |s.checking|
    ensures var t := Moved(s, Clear(i)).hits;
            s.checking[i] !in t && (key != s.checking[i] ==> (key in t <==> key in s.hits) && (key in t ==> t[key] == s.hits[key]))
    ensures Moved(s, Leave(i)).hits == s.hits
    ensures AllowedIn(Moved(s, Clear(i)).hits, s.max, s.window, s.checking[i], s.now)
  {
  }

  // ---------------------------------------------------------------- the bounds are met

  /** Between sign-ins of this one key. */
  ghost predicate Idle(s: Sys, key: Key) { s.checking == [] && s.hits.Keys <= {key} && s.window >= 0 && Counted(s, key) }

  /** How many failures the key's bucket can still take at a time. */
  function Room(s: Sys, key: Key, at: int): int {
    if key !in s.hits || Expired(s.hits[key], s.window, at) then Cap(s.max) else Cap(s.max) - s.hits[key].n
  }

  /** n sign-ins one after the other, all failing. */
  function Tries(key: Key, at: int, n: nat): seq<Move> {
    if n == 0 then [] else [Ask(key, at), Record(0, at)] + Tries(key, at, n - 1)
  }

  /** n sign-ins that all ask before the first is recorded. */
  function Overlapping(key: Key, at: int, n: nat): seq<Move> { Asks(key, at, n) + Records(at, n) }
  function Asks(key: Key, at: int, n: nat): seq<Move> { if n == 0 then [] else [Ask(key, at)] + Asks(key, at, n - 1) }
  function Records(at: int, n: nat): seq<Move> { if n == 0 then [] else [Record(0, at)] + Records(at, n - 1) }

  lemma {:induction false} Joined(s: Sys, x: seq<Move>, y: seq<Move>, key: Key, a: int, b: int)
    requires Possible(s, x) && Possible(After(s, x), y)
    ensures Possible(s, x + y) && After(s, x + y) == After(After(s, x), y)
    ensures Recorded(s, x + y, key, a, b) == Recorded(s, x, key, a, b) + Recorded(After(s, x), y, key, a, b)
    ensures StaleOnes(s, x + y, key, a, b) == StaleOnes(s, x, key, a, b) + StaleOnes(After(s, x), y, key, a, b)
    ensures Uncleared(s, x, key) && Uncleared(After(s, x), y, key) ==> Uncleared(s, x + y, key)
    ensures Alone(s, x, key) && Alone(After(s, x), y, key) ==> Alone(s, x + y, key)
    decreases |x|
  {
    if x == [] {
      assert x + y == y;
    } else {
      assert (x + y)[1..] == x[1..] + y;
      hide CanMove, Moved, Stale, FailureOf;
      Joined(Moved(s, x[0]), x[1..], y, key, a, b);
    }
  }

  /** One failing sign-in with room for it. */
  lemma OneTry(s: Sys, key: Key, at: int, a: int, b: int)
    requires Idle(s, key) && s.now <= at && Room(s, key, at) >= 1
    ensures var ms := [Ask(key, at), Record(0, at)];
            && Possible(s, ms) && Uncleared(s, ms, key) && Alone(s, ms, key)
            && Recorded(s, ms, key, a, b) == (if a <= at <= b then 1 else 0) && StaleOnes(s, ms, key, a, b) == 0
            && Idle(After(s, ms), key) && Room(After(s, ms), key, at) == Room(s, key, at) - 1
            && Like(s, After(s, ms), at)
            && After(s, ms).hits == Count(s.hits, s.window, key, at)
  {
    var ms := [Ask(key, at), Record(0, at)];
    OneKey(s.hits, s.window, key, at);
    var s1, last := Moved(s, ms[0]), [Record(0, at)];
    assert ms[1..] == last && last[1..] == [];
    assert s1.checking == [key] && Without([key], 0) == [];
    assert Possible(s1, last) && Uncleared(s1, last, key) && Alone(s1, last, key);
    var s2 := Moved(s1, last[0]);
    assert After(s2, []) == s2;
    assert After(s1, last) == After(s2, last[1..]);
    assert Recorded(s1, last, key, a, b) == (if a <= at <= b then 1 else 0) && StaleOnes(s1, last, key, a, b) == 0;
  }

  predicate Like(s: Sys, t: Sys, at: int) { t.max == s.max && t.window == s.window && t.now == at }

  lemma OneKey(hits: Hits, window: int, key: Key, at: int)
    requires hits.Keys <= {key}
    ensures Failed(hits, window, key, at) == Count(hits, window, key, at) && Count(hits, window, key, at).Keys == {key}
  {
    assert Count(hits, window, key, at).Keys == {key};
    assert |Count(hits, window, key, at).Keys| == 1;
  }

  /** Failing sign-ins one after the other fill the room there is, and none is stale. */
  lemma {:induction false} TriesFill(s: Sys, key: Key, at: int, n: nat, a: int, b: int)
    requires Idle(s, key) && s.now <= at && (n == 0 || n <= Room(s, key, at))
    ensures var ms := Tries(key, at, n);
            && Possible(s, ms) && Uncleared(s, ms, key) && Alone(s, ms, key)
            && Recorded(s, ms, key, a, b) == (if a <= at <= b then n else 0) && StaleOnes(s, ms, key, a, b) == 0
            && Idle(After(s, ms), key) && Room(After(s, ms), key, at) == Room(s, key, at) - n
            && Like(s, After(s, ms), if n == 0 then s.now else at)
            && (n >= 1 ==> key in After(s, ms).hits)
            && (n >= 1 && key in s.hits && !Expired(s.hits[key], s.window, at) ==>
                  After(s, ms).hits[key].start == s.hits[key].start)
            && (n >= 1 && !(key in s.hits && !Expired(s.hits[key], s.window, at)) ==> After(s, ms).hits[key].start == at)
            && (n == 0 ==> After(s, ms) == s)
    decreases n
  {
    if n > 0 {
      var one := [Ask(key, at), Record(0, at)];
      OneTry(s, key, at, a, b);
      TriesFill(After(s, one), key, at, n - 1, a, b);
      Joined(s, one, Tries(key, at, n - 1), key, a, b);
    }
  }

  /** n sign-ins that all ask in time and then fail: only the first is not stale when there is room for one. */
  lemma OverlappingExceed(s: Sys, key: Key, at: int, n: nat, a: int, b: int)
    requires Idle(s, key) && s.now <= at && Room(s, key, at) == 1 && n >= 1 && a <= at <= b
    ensures var ms := Overlapping(key, at, n);
            && Possible(s, ms) && Uncleared(s, ms, key) && (n == 1 ==> Alone(s, ms, key))
            && Recorded(s, ms, key, a, b) == n && StaleOnes(s, ms, key, a, b) == n - 1
  {
    AllAsk(s, key, at, n, a, b);
    var s1 := After(s, Asks(key, at, n));
    assert s.checking + seq(n, _ => key) == seq(n, _ => key);
    AllRecorded(s1, key, at, n, a, b);
    Joined(s, Asks(key, at, n), Records(at, n), key, a, b);
  }

  lemma {:induction false} AllAsk(s: Sys, key: Key, at: int, n: nat, a: int, b: int)
    requires s.now <= at && AllowedIn(s.hits, s.max, s.window, key, at)
    ensures var ms := Asks(key, at, n);
            && Possible(s, ms) && Uncleared(s, ms, key) && (n == 1 && s.checking == [] ==> Alone(s, ms, key))
            && Recorded(s, ms, key, a, b) == 0 && StaleOnes(s, ms, key, a, b) == 0
            && After(s, ms) == s.(checking := s.checking + seq(n, _ => key), now := if n == 0 then s.now else at)
    decreases n
  {
    if n == 0 {
      assert s.checking + seq(0, _ => key) == s.checking;
    } else {
      var s1 := Moved(s, Ask(key, at));
      assert Asks(key, at, n)[1..] == Asks(key, at, n - 1);
      assert s.checking + [key] + seq(n - 1, _ => key) == s.checking + seq(n, _ => key);
      AllAsk(s1, key, at, n - 1, a, b);
    }
  }

  lemma {:induction false} AllRecorded(s: Sys, key: Key, at: int, n: nat, a: int, b: int)
    requires s.checking == seq(n, _ => key) && s.hits.Keys <= {key} && s.window >= 0 && s.now <= at && a <= at <= b
    requires Counted(s, key)
    requires Room(s, key, at) <= 1 && (Room(s, key, at) < 1 ==> key in s.hits && !Expired(s.hits[key], s.window, at))
    ensures var ms := Records(at, n);
            && Possible(s, ms) && Uncleared(s, ms, key) && Alone(s, ms, key)
            && Recorded(s, ms, key, a, b) == n
            && StaleOnes(s, ms, key, a, b) == if n >= 1 && Room(s, key, at) == 1 then n - 1 else n
    decreases n
  {
    if n > 0 {
      var s1 := Moved(s, Record(0, at));
      OneKey(s.hits, s.window, key, at);
      assert Records(at, n)[1..] == Records(at, n - 1);
      assert Without(s.checking, 0) == seq(n - 1, _ => key);
      AllRecorded(s1, key, at, n - 1, a, b);
    }
  }

  /** One failure, later max - 1 more just before the bucket runs out, just after that max - 1 again, and then n at
      once. */
  function Worst(key: Key, max: int, window: int, n: nat): seq<Move> {
    var few := Cap(max) - 1;
    Tries(key, 0, 1) + (Tries(key, window, few) + (Tries(key, window + 1, few) + Overlapping(key, window + 1, n)))
  }

  /** Both bounds are met for every maximum and window: the one on sign-ins that do not overlap, and, with any number
      of overlapping ones, the one that counts the stale. */
  lemma BoundsAreTight(key: Key, max: int, window: int, n: nat)
    requires window >= 1 && n >= 1
    ensures var s, ms := Fresh(max, window, 0), Worst(key, max, window, n);
            && Possible(s, ms) && Uncleared(s, ms, key) && (n == 1 ==> Alone(s, ms, key))
            && Recorded(s, ms, key, window, 2 * window) == 2 * Cap(max) - 1 + (n - 1)
            && StaleOnes(s, ms, key, window, 2 * window) == n - 1
  {
    hide Possible, Uncleared, Alone, Recorded, StaleOnes, Tries, Overlapping, After;
    var s, few, a, b := Fresh(max, window, 0), Cap(max) - 1, window, 2 * window;
    var x, y, z, last := Tries(key, 0, 1), Tries(key, window, few), Tries(key, window + 1, few), Overlapping(key, window + 1, n);
    TriesFill(s, key, 0, 1, a, b);
    var s1 := After(s, x);
    TriesFill(s1, key, window, few, a, b);
    var s2 := After(s1, y);
    TriesFill(s2, key, window + 1, few, a, b);
    var s3 := After(s2, z);
    OverlappingExceed(s3, key, window + 1, n, a, b);
    Joined(s2, z, last, key, a, b);
    Joined(s1, y, z + last, key, a, b);
    Joined(s, x, y + (z + last), key, a, b);
  }

  /** So two sign-ins that ask before either is recorded are enough to exceed the first, whatever the maximum. */
  lemma SeparateStepsExceed(key: Key, max: int, window: int)
    requires window >= 1
    ensures var s, ms := Fresh(max, window, 0), Worst(key, max, window, 2);
            && Possible(s, ms) && Uncleared(s, ms, key)
            && Recorded(s, ms, key, window, 2 * window) > 2 * Cap(max) - 1 && EverAbove(s, ms, key)
  {
    BoundsAreTight(key, max, window, 2);
    var s, ms := Fresh(max, window, 0), Worst(key, max, window, 2);
    StaleOnesShow(s, ms, key, window, 2 * window);
    StaleOnesOverfill(s, ms, key);
  }

  lemma {:induction false} StaleOnesShow(s: Sys, ms: seq<Move>, key: Key, a: int, b: int)
    requires Possible(s, ms)
    ensures StaleOnes(s, ms, key, a, b) > 0 ==> EverStale(s, ms, key)
    decreases |ms|
  {
    if ms != [] {
      StaleOnesShow(Moved(s, ms[0]), ms[1..], key, a, b);
    }
  }
}

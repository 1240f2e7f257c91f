/** The registration protocol of the Docker event streams (monitor/events.go): one goroutine per stream, one
    supervisor, and callers that stop a host's stream, each touching the registry in one lock region. */
module Events {

  type Host = string

  /** A stream that was started; `cancelled` is its own context's cancel, not its parent's. */
  datatype Stream = Stream(host: Host, cancelled: bool)

  /** The registry (host to stream), all streams ever started, and whether the parent context ended. */
  datatype Sys = Sys(reg: map<Host, nat>, streams: seq<Stream>, down: bool)

  /** sctx.Err() != nil. */
  predicate Cancelled(s: Sys, i: nat)
    requires i < |s.streams|
  {
    s.streams[i].cancelled || s.down
  }

  function Cancel(streams: seq<Stream>, i: nat): (r: seq<Stream>)
    requires i < |streams|
    ensures |r| == |streams|
  {
    streams[i := streams[i].(cancelled := true)]
  }

  // ---------------------------------------------------------------- the lock regions

  predicate WellFormed(s: Sys) {
    forall h :: h in s.reg ==> s.reg[h] < |s.streams| && s.streams[s.reg[h]].host == h
  }

  /** Cancels and forgets the stream registered for a host, if there is one. */
  function Unregister(s: Sys, h: Host): Sys
    requires WellFormed(s)
  {
    if h in s.reg then s.(reg := s.reg - {h}, streams := Cancel(s.streams, s.reg[h])) else s
  }

  /** The region at the end of a stream's goroutine. */
  function Cleanup(s: Sys, i: nat): Sys
    requires WellFormed(s) && i < |s.streams|
  {
    if !Cancelled(s, i) then Unregister(s, s.streams[i].host) else s
  }

  /** syncEventStreams: streams of unwanted hosts are cancelled, missing ones started. The order in which
      the hosts are visited is open. */
  ghost predicate Synced(s: Sys, want: set<Host>, t: Sys)
    requires WellFormed(s)
  {
    && t.down == s.down
    && |s.streams| <= |t.streams|
    && t.reg.Keys == want
    && (forall h :: h in s.reg && h in want ==> t.reg[h] == s.reg[h])
    && (forall h :: h in want && h !in s.reg ==>
          |s.streams| <= t.reg[h] < |t.streams| && t.streams[t.reg[h]] == Stream(h, false))
    && Without(s, want) <= t.streams
    && (forall i :: |s.streams| <= i < |t.streams| ==>
          t.streams[i].host in want && t.streams[i].host !in s.reg && t.reg[t.streams[i].host] == i)
  }

  /** The supervisor's last region: every registered stream is cancelled, none is forgotten. */
  ghost predicate TornDown(s: Sys, t: Sys)
    requires WellFormed(s)
  {
    s.down && t == s.(streams := Without(s, {}))
  }

  /** The streams once the registered ones of hosts outside `keep` are cancelled. */
  function Without(s: Sys, keep: set<Host>): (r: seq<Stream>)
    ensures |r| == |s.streams|
  {
    seq(|s.streams|, i requires 0 <= i < |s.streams| =>
      var st := s.streams[i];
      if st.host in s.reg && s.reg[st.host] == i && st.host !in keep then st.(cancelled := true) else st)
  }

  datatype Action = Sync(want: set<Host>) | Stop(host: Host) | Finish(stream: nat) | EndParent | TearDown

  ghost predicate Next(s: Sys, a: Action, t: Sys) {
    WellFormed(s) &&
    match a
    case Sync(want) => Synced(s, want, t)
    case Stop(h) => t == Unregister(s, h)
    case Finish(i) => i < |s.streams| && t == Cleanup(s, i)
    case EndParent => t == s.(down := true)
    case TearDown => TornDown(s, t)
  }

  predicate IsUp(list: seq<(Host, string)>, h: Host) { (h, "online") in list || (h, "degraded") in list }

  ghost predicate AreUp(list: seq<(Host, string)>, want: set<Host>) { forall h :: h in want <==> IsUp(list, h) }

  class Supervisor {
    var evCancel: map<Host, nat>
    var streams: seq<Stream>
    var down: bool

    ghost function View(): Sys
      reads this
    {
      Sys(evCancel, streams, down)
    }

    constructor ()
      ensures View() == INIT
    {
      evCancel, streams, down := map[], [], false;
    }

    /** The first loop: registered hosts that are not wanted lose their stream. */
    method CancelUnwanted(want: set<Host>)
      requires WellFormed(View())
      modifies this
      ensures WellFormed(View()) && down == old(down)
      ensures evCancel == map h | h in old(evCancel) && h in want :: old(evCancel)[h]
      ensures streams == Without(old(View()), want)
    {
      ghost var s := View();
      var todo := evCancel.Keys;
      while todo != {}
        invariant todo <= evCancel.Keys <= s.reg.Keys && down == s.down
        invariant forall h :: h in evCancel ==> evCancel[h] == s.reg[h]
        invariant forall h :: h in s.reg && (h in todo || h in want) ==> h in evCancel
        invariant forall h :: h in evCancel && h !in todo ==> h in want
        invariant streams == Without(s, evCancel.Keys)
        decreases todo
      {
        var id :| id in todo;
        if id !in want {
          streams := Cancel(streams, evCancel[id]);
          evCancel := evCancel - {id};
          assert streams == Without(s, evCancel.Keys);
        }
        todo := todo - {id};
      }
      assert streams == Without(s, want);
    }

    /** The second loop: wanted hosts without a stream get one. */
    method StartMissing(want: set<Host>)
      requires WellFormed(View()) && evCancel.Keys <= want
      modifies this
      ensures down == old(down) && evCancel.Keys == want
      ensures old(streams) <= streams
      ensures forall h :: h in old(evCancel) ==> evCancel[h] == old(evCancel)[h]
      ensures forall h :: h in want && h !in old(evCancel) ==>
                |old(streams)| <= evCancel[h] < |streams| && streams[evCancel[h]] == Stream(h, false)
      ensures forall i :: |old(streams)| <= i < |streams| ==>
                streams[i].host in want && streams[i].host !in old(evCancel) && evCancel[streams[i].host] == i
    {
      var todo := want;
      while todo != {}
        invariant todo <= want && down == old(down)
        invariant old(evCancel).Keys <= evCancel.Keys <= want && want - todo <= evCancel.Keys
        invariant old(streams) <= streams
        invariant forall h :: h in old(evCancel) ==> evCancel[h] == old(evCancel)[h]
        invariant forall h :: h in evCancel && h !in old(evCancel) ==>
                    |old(streams)| <= evCancel[h] < |streams| && streams[evCancel[h]] == Stream(h, false)
        invariant forall i :: |old(streams)| <= i < |streams| ==>
                    streams[i].host in evCancel && streams[i].host !in old(evCancel) && evCancel[streams[i].host] == i
        decreases todo
      {
        var id :| id in todo;
        todo := todo - {id};
        if id in evCancel {
          continue;
        }
        evCancel := evCancel[id := |streams|];
        streams := streams + [Stream(id, false)];
      }
    }

    method SyncEventStreams(want: set<Host>)
      requires WellFormed(View())
      modifies this
      ensures Synced(old(View()), want, View())
    {
      CancelUnwanted(want);
      StartMissing(want);
    }

    /** The hosts that are online or degraded are the wanted ones; without a list nothing happens. */
    method SyncListed(list: seq<(Host, string)>, listed: bool)
      requires WellFormed(View())
      modifies this
      ensures !listed ==> View() == old(View())
      ensures listed ==> exists want :: Synced(old(View()), want, View()) && AreUp(list, want)
    {
      if !listed {
        return;
      }
      var want: set<Host> := {};
      for i := 0 to |list|
        invariant AreUp(list[..i], want)
      {
        assert list[..i + 1] == list[..i] + [list[i]];
        if list[i].1 == "online" || list[i].1 == "degraded" {
          want := want + {list[i].0};
        }
      }
      assert list[..|list|] == list;
      SyncEventStreams(want);
    }

    method StopEvents(hostID: Host)
      requires WellFormed(View())
      modifies this
      ensures View() == Unregister(old(View()), hostID)
    {
      if hostID in evCancel {
        streams := Cancel(streams, evCancel[hostID]);
        evCancel := evCancel - {hostID};
      }
    }

    /** What a stream's goroutine does once streamEvents has returned. */
    method FinishStream(i: nat)
      requires WellFormed(View()) && i < |streams|
      modifies this
      ensures View() == Cleanup(old(View()), i)
    {
      var id := streams[i].host;
      if id in evCancel && !(streams[i].cancelled || down) {
        streams := Cancel(streams, evCancel[id]);
        evCancel := evCancel - {id};
      }
    }
  }

  // ---------------------------------------------------------------- the invariant

  const INIT: Sys := Sys(map[], [], false)

  /** Every uncancelled stream is the one registered for its host; while the parent lives, every registered
      stream is uncancelled. */
  ghost predicate Inv(s: Sys) {
    && WellFormed(s)
    && (forall i :: 0 <= i < |s.streams| && !Cancelled(s, i) ==>
          s.streams[i].host in s.reg && s.reg[s.streams[i].host] == i)
    && (forall h :: h in s.reg && !s.down ==> !s.streams[s.reg[h]].cancelled)
  }

  lemma InvStep(s: Sys, a: Action, t: Sys)
    requires Inv(s) && Next(s, a, t)
    ensures Inv(t)
  {
  }

  /** A run: states and the actions between them, in any interleaving. */
  ghost predicate Behaviour(states: seq<Sys>, actions: seq<Action>) {
    && |states| == |actions| + 1
    && states[0] == INIT
    && forall k :: 0 <= k < |actions| ==> Next(states[k], actions[k], states[k + 1])
  }

  lemma {:induction false} InvAlways(states: seq<Sys>, actions: seq<Action>, k: nat)
    requires Behaviour(states, actions) && k < |states|
    ensures Inv(states[k])
  {
    if k > 0 {
      InvAlways(states, actions, k - 1);
      assert Next(states[k - 1], actions[k - 1], states[k]);
      InvStep(states[k - 1], actions[k - 1], states[k]);
    }
  }

  // ---------------------------------------------------------------- main results

  /** At any point of any run a host has at most one uncancelled stream, and it is the registered one. */
  lemma OneStreamPerHost(states: seq<Sys>, actions: seq<Action>, k: nat, i: nat, j: nat)
    requires Behaviour(states, actions) && k < |states|
    requires i < |states[k].streams| && j < |states[k].streams|
    requires !Cancelled(states[k], i) && !Cancelled(states[k], j)
    ensures states[k].streams[i].host == states[k].streams[j].host ==> i == j
    ensures states[k].streams[i].host in states[k].reg && states[k].reg[states[k].streams[i].host] == i
  {
    InvAlways(states, actions, k);
  }

  /** A stream that finishes takes nothing but itself down: every other stream keeps its registration and is
      cancelled only if it was. */
  lemma FinishTouchesOnlyItself(states: seq<Sys>, actions: seq<Action>, k: nat, i: nat)
    requires Behaviour(states, actions) && k < |actions| && actions[k] == Finish(i)
    ensures var s, t := states[k], states[k + 1];
            && i < |s.streams| == |t.streams|
            && (forall j :: 0 <= j < |s.streams| && j != i ==> t.streams[j] == s.streams[j])
            && (forall h :: h in s.reg && s.reg[h] != i ==> h in t.reg && t.reg[h] == s.reg[h])
            && (!s.down ==> Cancelled(t, i) && forall h :: h in t.reg ==> t.reg[h] != i)
  {
    InvAlways(states, actions, k);
    assert Next(states[k], actions[k], states[k + 1]);
  }

  /** Some uncancelled stream watches the host. */
  ghost predicate Watched(s: Sys, h: Host) {
    exists i :: 0 <= i < |s.streams| && s.streams[i].host == h && !Cancelled(s, i)
  }

  /** After a sync the hosts with a live stream are exactly the wanted ones. */
  lemma SyncIsExact(states: seq<Sys>, actions: seq<Action>, k: nat)
    requires Behaviour(states, actions) && k < |actions| && actions[k].Sync?
    requires !states[k].down
    ensures forall h :: h in actions[k].want <==> Watched(states[k + 1], h)
  {
    InvAlways(states, actions, k);
    InvAlways(states, actions, k + 1);
    var t := states[k + 1];
    assert Next(states[k], actions[k], t);
    forall h | h in actions[k].want
      ensures Watched(t, h)
    {
      assert t.streams[t.reg[h]].host == h && !Cancelled(t, t.reg[h]);
    }
  }

  /** Once cancelled, a stream stays cancelled. */
  lemma {:induction false} CancelledForGood(states: seq<Sys>, actions: seq<Action>, k: nat, m: nat, i: nat)
    requires Behaviour(states, actions) && k <= m < |states|
    requires i < |states[k].streams| && Cancelled(states[k], i)
    ensures i < |states[m].streams| && Cancelled(states[m], i)
    decreases m
  {
    if k < m {
      CancelledForGood(states, actions, k, m - 1, i);
      assert Next(states[m - 1], actions[m - 1], states[m]);
    }
  }
}

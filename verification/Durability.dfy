/**
 * Tasks and files after their first store: whatever requests follow, copies spread and none is lost
 * or replaced, and while no addresses change the value stays within reach.
 */
module Durability {
  import opened Metric
  import opened Wrappers
  import opened Dht
  import opened Deletion
  import opened Fetch
  import opened Placement
  import opened Store
  import opened CacheTree
  import opened DeviceStore
  import opened Coherence

  /** Every copy of the entry is v. */
  ghost predicate Uniform(s: Network, it: Item, v: Value) {
    forall a :: a in s && it in s[a].data ==> s[a].data[it] == v
  }

  /** t has the address tables of s, and at least its holders. */
  ghost predicate Spread(s: Network, t: Network, it: Item) {
    && s.Keys == t.Keys
    && forall a :: a in s ==> s[a].addr == t[a].addr && (s[a].Holds(it) ==> t[a].Holds(it))
  }

  lemma CopySpreads(s: Network, t: Network, n: NodeId, up: NodeId, it: Item, v: Value)
    requires n in t && up in t && it.select != Peer && Spread(s, t, it) && Uniform(t, it, v)
    ensures var u := CacheFrom(t, n, up, it, v); Spread(s, u, it) && Uniform(u, it, v)
  {
  }

  lemma {:induction false} CopiesSpread(s: Network, p: seq<NodeId>, it: Item, v: Value)
    requires p != [] && (forall x :: x in p ==> x in s) && it.select != Peer && Uniform(s, it, v)
    ensures var t := CacheAlong(s, p, it, v); Spread(s, t, it) && Uniform(t, it, v)
  {
    if |p| > 1 {
      CopiesSpread(s, p[1..], it, v);
      hide Spread, Uniform, CacheFrom;
      CopySpreads(s, CacheAlong(s, p[1..], it, v), p[0], p[1], it, v);
    }
  }

  /** A fetch returns the one value or nothing, and spreads it. */
  lemma FetchSpreads(s: Network, n: NodeId, it: Item, v: Value, chain: seq<NodeId>)
    requires n in s && it.select != Peer && Uniform(s, it, v)
    ensures var (r, t) := Fetched(s, n, it, chain);
      Spread(s, t, it) && Uniform(t, it, v) && (r == None || r == Some(v))
  {
    SearchDecides(s, n, it, chain);
    var r := Search(s, n, it, chain);
    if r.Some? { CopiesSpread(s, r.value, it, v); }
  }

  lemma {:induction false} RoutesRemain(s: Network, t: Network, p: seq<NodeId>, it: Item, avoid: set<NodeId>)
    requires Route(s, p, it, avoid) && Spread(s, t, it)
    ensures Route(t, p, it, avoid)
    decreases |p|
  {
    if |p| > 1 { RoutesRemain(s, t, p[1..], it, avoid); }
  }

  // ---- Requests on all entries ----

  /** Requests on the entry other than stores, and any requests on other entries. */
  ghost predicate Unstored(it: Item, run: seq<Op>) {
    forall i :: 0 <= i < |run| && run[i].it == it ==> !run[i].q.StoreReq?
  }

  lemma OpKeepsCopies(s: Network, it: Item, v: Value, op: Op)
    requires (it.select == Task || it.select == File) && Uniform(s, it, v) && Among(s.Keys, op.q) && (op.it == it ==> !op.q.StoreReq?)
    ensures var t := Serve(s, op.it, op.q); Uniform(t, it, v) && Holders(s, it) <= Holders(t, it)
  {
    if op.it != it {
      ServeApart(s, op.it, op.q, it);
      hide Serve;
      forall a | a in s ensures SameEntry(s[a], Serve(s, op.it, op.q)[a], it) {}
    } else if op.q.FetchReq? {
      FetchSpreads(s, op.q.n, it, v, op.q.chain);
      hide Fetched;
    }
  }

  /** No run takes a copy of a task or file from anybody, or makes a copy of another value, unless it
      stores the entry again. */
  lemma {:induction false} RunKeepsCopies(s: Network, it: Item, v: Value, run: seq<Op>)
    requires (it.select == Task || it.select == File) && Uniform(s, it, v) && RunAmong(s.Keys, run) && Unstored(it, run)
    ensures Uniform(After(s, run), it, v) && Holders(s, it) <= Holders(After(s, run), it)
    decreases |run|
  {
    if run != [] {
      FirstAmong(s.Keys, run);
      hide RunAmong, Among, Uniform, Serve, Holders;
      OpKeepsCopies(s, it, v, run[0]);
      RunKeepsCopies(Serve(s, run[0].it, run[0].q), it, v, run[1..]);
    }
  }

  // ---- Address tables ----

  ghost predicate SameAddresses(s: Network, t: Network) {
    s.Keys == t.Keys && forall a :: a in s ==> s[a].addr == t[a].addr
  }

  lemma {:induction false} AlongAddresses(s: Network, p: seq<NodeId>, it: Item, v: Value)
    requires p != [] && (forall x :: x in p ==> x in s) && it.select != Peer
    ensures SameAddresses(s, CacheAlong(s, p, it, v))
    decreases |p|
  {
    if |p| > 1 {
      AlongAddresses(s, p[1..], it, v);
      CacheAlongStep(s, p, it, v);
      hide CacheAlong;
    }
  }

  lemma FetchAddresses(s: Network, n: NodeId, it: Item, chain: seq<NodeId>)
    requires n in s && it.select != Peer
    ensures SameAddresses(s, Fetched(s, n, it, chain).1)
  {
    SearchDecides(s, n, it, chain);
    var r := Search(s, n, it, chain);
    if r.Some? { AlongAddresses(s, r.value, it, s[r.value[|r.value| - 1]].data[it]); }
    hide CacheAlong, Search;
  }

  lemma {:induction false} StoreAddresses(s: Network, n: NodeId, it: Item, v: Value, chain: seq<NodeId>)
    requires n in s && it.select != Device && it.select != Peer
    ensures SameAddresses(s, Stored(s, n, it, v, chain).net)
    decreases Unvisited(s, Elems(chain) + {n})
  {
    var t := SetPlain(s, n, it, v, chain);
    var hop := NextHop(s, n, it, chain);
    assert SameAddresses(s, t);
    hide NextHop;
    StoredEnds(s, n, it, v, chain);
    var m := FirstNew(s.Keys, hop, chain + [n]);
    hide FirstNew, SetPlain;
    if n !in hop && m.Some? {
      StoredStep(s, n, it, v, chain, m.value);
      SameUnvisited(s, t, Elems(chain + [n]) + {m.value});
      hide Unvisited;
      StoreAddresses(t, m.value, it, v, chain + [n]);
    }
  }

  lemma SetDeviceAddresses(s: Network, n: NodeId, it: Item, v: Value, chain: seq<NodeId>, fixedOwner: bool)
    requires n in s && it.select == Device
    ensures SameAddresses(s, SetDevice(s, n, it, v, chain, fixedOwner).0)
  {
    hide TwoNearest, SubscribeTo;
  }

  lemma {:induction false} DeviceAddresses(s: Network, n: NodeId, it: Item, v: Value, chain: seq<NodeId>, fixedOwner: bool)
    requires n in s && it.select == Device
    ensures SameAddresses(s, DeviceStored(s, n, it, v, chain, fixedOwner).net)
    decreases Unvisited(s, Elems(chain) + {n})
  {
    hide SetDevice, TwoNearest, FirstNew, SubscribeTo;
    var (t, status) := SetDevice(s, n, it, v, chain, fixedOwner);
    SetDeviceAddresses(s, n, it, v, chain, fixedOwner);
    var m := FirstNew(s.Keys, TwoNearest(s, n, it, chain), chain + [n]);
    if status == FOUND && m.Some? {
      hide Unvisited, DeviceStored;
      DeviceStep(s, n, it, v, chain, fixedOwner, t, m.value);
      SameUnvisited(s, t, Elems(chain + [n]) + {m.value});
      DeviceAddresses(t, m.value, it, v, chain + [n], false);
    } else {
      DeviceEnds(s, n, it, v, chain, fixedOwner);
    }
  }

  /** Only requests on peers' addresses change what peers know of each other. */
  lemma ServeAddresses(s: Network, it: Item, q: Request)
    requires it.select != Peer && Among(s.Keys, q)
    ensures SameAddresses(s, Serve(s, it, q))
  {
    assert SameAddresses(s, s);
    hide Fetched, Stored, DeviceStored, CacheFrom, Reached;
    match q
    case StoreReq(n, v, chain, fixedOwner) =>
      if it.select == Device { DeviceAddresses(s, n, it, v, chain, fixedOwner); } else { StoreAddresses(s, n, it, v, chain); }
    case FetchReq(n, chain) => FetchAddresses(s, n, it, chain);
    case DeleteReq(n) =>
    case BootReq(n, from) =>
  }

  /** The run is about tasks, files and devices. */
  ghost predicate NoPeers(run: seq<Op>) {
    forall i :: 0 <= i < |run| ==> run[i].it.select != Peer
  }

  lemma {:induction false} RunAddresses(s: Network, run: seq<Op>)
    requires RunAmong(s.Keys, run) && NoPeers(run)
    ensures SameAddresses(s, After(s, run))
    decreases |run|
  {
    if run != [] {
      FirstAmong(s.Keys, run);
      assert run[0].it.select != Peer;
      hide RunAmong, Among, Serve;
      ServeAddresses(s, run[0].it, run[0].q);
      RunAddresses(Serve(s, run[0].it, run[0].q), run[1..]);
    }
  }

  // ---- What was stored stays ----

  /**
   * A task or file stored for the first time from n stays: after any requests but another store of
   * it, a fetch by any peer x returns the stored value or nothing, and it does return it at the
   * owner, and, if no request was about a peer's address, when x is n or could reach a copy before.
   */
  lemma {:induction false} StoredStays(s: Network, n: NodeId, it: Item, v: Value, run: seq<Op>, x: NodeId, chain: seq<NodeId>)
    requires n in s && x in s && Routable(s, it) && (it.select == Task || it.select == File)
    requires (forall a :: a in s ==> !s[a].Holds(it)) && RunAmong(s.Keys, run) && Unstored(it, run)
    ensures var r := Stored(s, n, it, v, []); var t := After(r.net, run);
      var found := Fetched(t, x, it, chain).0;
      && (found == None || found == Some(Stamp(it, v, r.who)))
      && (x == r.who ==> found.Some?)
      && (NoPeers(run) && (x == n || HolderReachable(r.net, x, it, {})) ==> Fetched(t, x, it, []).0.Some?)
  {
    var r := Stored(s, n, it, v, []);
    var w := Stamp(it, v, r.who);
    hide *;
    OneValue(s, n, it, v);
    RunKeepsCopies(r.net, it, w, run);
    var t := After(r.net, run);
    SameKeys(r.net, run);
    ValueAtMost(t, x, it, w, chain);
    OwnerKeeps(r.net, t, r.who, it, chain);
    if NoPeers(run) {
      RunAddresses(r.net, run);
      ItSpreads(r.net, t, it);
      if x == n { StoredReachable(s, n, it, v); }
      if HolderReachable(r.net, x, it, {}) { StillFound(r.net, t, x, it); }
    }
  }

  lemma SameKeys(s: Network, run: seq<Op>)
    requires RunAmong(s.Keys, run)
    ensures After(s, run).Keys == s.Keys
  {
  }

  lemma ValueAtMost(t: Network, x: NodeId, it: Item, w: Value, chain: seq<NodeId>)
    requires x in t && (it.select == Task || it.select == File) && Uniform(t, it, w)
    ensures var found := Fetched(t, x, it, chain).0; found == None || found == Some(w)
  {
    FetchSpreads(t, x, it, w, chain);
    hide Fetched;
  }

  lemma OwnerKeeps(s: Network, t: Network, o: NodeId, it: Item, chain: seq<NodeId>)
    requires o in s && s[o].Holds(it) && Holders(s, it) <= Holders(t, it)
    ensures o in t && Fetched(t, o, it, chain).0.Some?
  {
    assert o in Holders(s, it) && o in Holders(t, it);
    FetchedHere(t, o, it, chain);
    hide Fetched;
  }

  lemma ItSpreads(s: Network, t: Network, it: Item)
    requires SameAddresses(s, t) && Holders(s, it) <= Holders(t, it)
    ensures Spread(s, t, it)
  {
    forall a | a in s && s[a].Holds(it) ensures t[a].Holds(it) { assert a in Holders(s, it); }
  }

  lemma OneValue(s: Network, n: NodeId, it: Item, v: Value)
    requires n in s && Routable(s, it) && (it.select == Task || it.select == File) && forall a :: a in s ==> !s[a].Holds(it)
    ensures var r := Stored(s, n, it, v, []); Uniform(r.net, it, Stamp(it, v, r.who)) && r.net.Keys == s.Keys
    ensures var r := Stored(s, n, it, v, []); r.who in r.net && r.net[r.who].Holds(it)
  {
    StoreLeavesOneCopy(s, n, it, v, []);
    hide Stored, Routable;
  }

  lemma StoredReachable(s: Network, n: NodeId, it: Item, v: Value)
    requires n in s && Routable(s, it) && (it.select == Task || it.select == File)
    ensures HolderReachable(Stored(s, n, it, v, []).net, n, it, {})
  {
    hide Stored, Routable, Stamp;
    var r := Stored(s, n, it, v, []);
    StoreLeavesOneCopy(s, n, it, v, []);
    var p := GreedyRoute(s, n, it, v, [], r.net);
    assert Elems([]) == {};
  }

  lemma StillFound(s: Network, t: Network, x: NodeId, it: Item)
    requires Spread(s, t, it) && x in t && HolderReachable(s, x, it, {})
    ensures Fetched(t, x, it, []).0.Some?
  {
    hide Spread;
    var p :| Route(s, p, it, {}) && p[0] == x;
    RoutesRemain(s, t, p, it, {});
    assert Elems([]) == {};
    SearchDecides(t, x, it, []);
  }
}

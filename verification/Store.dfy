/**
 * What greedy stores achieve (src/communications/DHTService.py): a peer's address, a task or a file
 * travels towards the peer nearest to its key and is found again there.
 */
module Store {
  import opened Metric
  import opened Wrappers
  import opened Dht
  import opened Fetch
  import opened Placement

  // ---- Greedy routing converges ----

  /** Every peer knows itself, and every address in a table belongs to a peer that answers. */
  ghost predicate Routable(s: Network, it: Item) {
    forall n :: n in s ==> n in s[n].addr && s[n].Learn(it).addr <= s.Keys
  }

  /** The peers visited so far are all farther from the key than n. */
  ghost predicate Approaching(chain: seq<NodeId>, n: NodeId, it: Item) {
    forall c :: c in chain ==> Closer(it.key, n, c)
  }

  /** Ignoring farther peers does not change which address is nearest. */
  lemma NearestDespiteChain(key: NodeId, a: set<NodeId>, n: NodeId, far: set<NodeId>, m: NodeId)
    requires n in a && n !in far && (forall c :: c in far ==> Closer(key, n, c)) && IsNearest(key, a - far, m)
    ensures IsNearest(key, a, m) && (m != n ==> Closer(key, m, n))
  {
    hide Closer;
    forall x | x in a && x != m ensures Closer(key, m, x) {
      if x in far && m != n { CloserTransitive(key, m, n, x); }
    }
  }

  lemma ApproachingStep(chain: seq<NodeId>, n: NodeId, it: Item, m: NodeId)
    requires Approaching(chain, n, it) && Closer(it.key, m, n)
    ensures Approaching(chain + [n], m, it)
  {
    forall c | c in chain + [n] ensures Closer(it.key, m, c) {
      if c != n { CloserTransitive(it.key, m, n, c); }
    }
  }

  /** One greedy step: n owns the value, or passes it to a strictly nearer peer. */
  lemma {:induction false} GreedyHop(s: Network, n: NodeId, it: Item, chain: seq<NodeId>)
    requires n in s && it.select != Device && Routable(s, it) && Approaching(chain, n, it)
    ensures var hop := NextHop(s, n, it, chain);
      && hop != [] && hop == [hop[0]] && hop[0] in s
      && IsNearest(it.key, s[n].Learn(it).addr, hop[0])
      && (hop[0] != n ==> hop[0] !in chain && Closer(it.key, hop[0], n) && Approaching(chain + [n], hop[0], it))
  {
    var a := s[n].Learn(it).addr;
    CloserTotal(it.key, n, n);
    assert n !in Elems(chain) && n in a;
    assert n in a - Elems(chain);
    HopIsNew(s, n, it, chain);
    var m := NextHop(s, n, it, chain)[0];
    NearestDespiteChain(it.key, a, n, Elems(chain), m);
    if m != n { ApproachingStep(chain, n, it, m); }
  }

  lemma SetPlainRoutable(s: Network, n: NodeId, it: Item, v: Value, chain: seq<NodeId>)
    requires n in s && it.select != Device && Routable(s, it)
    ensures Routable(SetPlain(s, n, it, v, chain), it)
    ensures forall x :: x in s ==> SetPlain(s, n, it, v, chain)[x].Learn(it).addr == s[x].Learn(it).addr
  {
    var t := SetPlain(s, n, it, v, chain);
    forall x | x in s ensures t[x].Learn(it).addr == s[x].Learn(it).addr && x in t[x].addr {
      if x == n { assert t[n].addr == s[n].Learn(it).addr; }
    }
  }

  /** The store's result: success, at the nearest address of the owner's whole table. */
  ghost predicate Converged(s: Network, n: NodeId, it: Item, v: Value, r: Outcome<NodeId>) {
    && r.who in s && r.net.Keys == s.Keys
    && r.status == (if r.who == n then OWNED else FOUND)
    && IsNearest(it.key, s[r.who].Learn(it).addr, r.who)
    && (r.who == n || Closer(it.key, r.who, n))
    && it in r.net[r.who].data && r.net[r.who].data[it] == Stamp(it, v, r.who)
  }

  lemma ConvergedForward(s: Network, n: NodeId, it: Item, v: Value, t: Network, m: NodeId, r: Outcome<NodeId>)
    requires n in s && m in s && t.Keys == s.Keys && m != n && Closer(it.key, m, n)
    requires forall x :: x in s ==> t[x].Learn(it).addr == s[x].Learn(it).addr
    requires Converged(t, m, it, v, r)
    ensures Converged(s, n, it, v, Outcome(SubscribeTo(r.net, n, m, it), FOUND, r.who))
  {
    if r.who != m { CloserTransitive(it.key, r.who, m, n); }
    CloserTotal(it.key, n, n);
  }

  /**
   * A store converges: it reports success, the peer named in the response is the nearest address
   * in its whole table, and no peer on the way was nearer.
   */
  lemma {:induction false} StoreConverges(s: Network, n: NodeId, it: Item, v: Value, chain: seq<NodeId>)
    requires n in s && it.select != Device && Routable(s, it) && Approaching(chain, n, it)
    ensures Converged(s, n, it, v, Stored(s, n, it, v, chain))
    decreases Unvisited(s, Elems(chain) + {n})
  {
    GreedyHop(s, n, it, chain);
    var m := NextHop(s, n, it, chain)[0];
    if m == n {
      ConvergedHere(s, n, it, v, chain);
    } else {
      hide Routable, Approaching, Converged, Unvisited;
      var t := SetPlain(s, n, it, v, chain);
      SetPlainRoutable(s, n, it, v, chain);
      ForwardShrinks(s, n, chain, m);
      SameUnvisited(s, t, Elems(chain + [n]) + {m});
      StoreConverges(t, m, it, v, chain + [n]);
      StoredForward(s, n, it, v, chain, m);
      ConvergedForward(s, n, it, v, t, m, Stored(t, m, it, v, chain + [n]));
    }
  }

  lemma KeptHere(s: Network, n: NodeId, it: Item, v: Value, chain: seq<NodeId>)
    requires n in s && it.select != Device && NextHop(s, n, it, chain) == [n]
    ensures Stored(s, n, it, v, chain) == Outcome(s[n := s[n].Learn(it).Keep(it, Stamp(it, v, n)).OpenServe(it)], OWNED, n)
  {
    assert n in NextHop(s, n, it, chain);
    StoredEnds(s, n, it, v, chain);
    hide Stored, NextHop, SubscribeTo, FirstNew;
  }

  lemma ConvergedHere(s: Network, n: NodeId, it: Item, v: Value, chain: seq<NodeId>)
    requires n in s && it.select != Device && NextHop(s, n, it, chain) == [n] && IsNearest(it.key, s[n].Learn(it).addr, n)
    ensures Converged(s, n, it, v, Stored(s, n, it, v, chain))
  {
    KeptHere(s, n, it, v, chain);
    hide Stored, NextHop, Closest;
  }

  /** With complete tables every start agrees on the owner: the one peer nearest to the key. */
  lemma {:induction false} OwnerIsGlobal(s: Network, n: NodeId, it: Item, v: Value)
    requires n in s && it.select != Device && forall x :: x in s ==> s[x].addr == s.Keys && (it.select == Peer ==> it.key in s)
    ensures Stored(s, n, it, v, []).who == Nearest(it.key, s.Keys)
  {
    forall x | x in s ensures s[x].Learn(it).addr == s.Keys {}
    StoreConverges(s, n, it, v, []);
    NearestUnique(it.key, s.Keys, Stored(s, n, it, v, []).who, Nearest(it.key, s.Keys));
  }

  // ---- A store is found again ----

  /** A task or file store leaves one new copy, at its owner, and changes no address table. */
  ghost predicate OneCopy(s: Network, it: Item, v: Value, r: Outcome<NodeId>) {
    && r.net.Keys == s.Keys && r.who in s
    && (forall x :: x in s ==> r.net[x].addr == s[x].addr)
    && (forall x :: x in s && x != r.who ==> r.net[x].data == s[x].data)
    && it in r.net[r.who].data && r.net[r.who].data[it] == Stamp(it, v, r.who)
  }

  lemma NearestIsAsked(s: Network, n: NodeId, m: NodeId, it: Item)
    requires n in s && m in s && IsNearest(it.key, s[n].addr, m)
    ensures Asked(s, n, m, it)
  {
    forall y | y in s[n].addr ensures !Closer(it.key, y, m) { CloserTotal(it.key, y, m); }
    hide Closer;
    assert Nearer(it.key, s[n].addr, m) == {};
  }

  lemma ForwardShrinks(s: Network, n: NodeId, chain: seq<NodeId>, m: NodeId)
    requires m in s && m != n && m !in chain
    ensures Unvisited(s, Elems(chain + [n]) + {m}) < Unvisited(s, Elems(chain) + {n})
    ensures Elems(chain + [n]) == Elems(chain) + {n}
  {
    ElemsAppend(chain, n);
    VisitShrinks(s, Elems(chain) + {n}, m);
  }

  lemma AloneCopy(s: Network, n: NodeId, it: Item, v: Value)
    requires n in s && (it.select == Task || it.select == File)
    ensures OneCopy(s, it, v, Outcome(s[n := s[n].Learn(it).Keep(it, Stamp(it, v, n)).OpenServe(it)], OWNED, n))
  {
  }

  lemma StoredHere(s: Network, n: NodeId, it: Item, v: Value, chain: seq<NodeId>)
    requires (it.select == Task || it.select == File) && n in s && NextHop(s, n, it, chain) == [n]
    ensures OneCopy(s, it, v, Stored(s, n, it, v, chain)) && Stored(s, n, it, v, chain).who == n
  {
    hide *;
    KeptHere(s, n, it, v, chain);
    AloneCopy(s, n, it, v);
  }

  /** A forwarding peer passes the value on and then subscribes at the next hop. */
  lemma StoredForward(s: Network, n: NodeId, it: Item, v: Value, chain: seq<NodeId>, m: NodeId)
    requires n in s && it.select != Device && m in s && m != n && NextHop(s, n, it, chain) == [m]
    ensures var r := Stored(SetPlain(s, n, it, v, chain), m, it, v, chain + [n]);
      Stored(s, n, it, v, chain) == Outcome(SubscribeTo(r.net, n, m, it), FOUND, r.who)
  {
  }

  /** In any network: the peer keeps the value if it is itself the nearest it knows off the chain, otherwise
      passes it to the nearest, where the store then ends, and fails if that does not answer or is none. */
  lemma StorePasses(s: Network, n: NodeId, it: Item, v: Value, chain: seq<NodeId>)
    requires n in s && it.select != Device
    ensures var t := SetPlain(s, n, it, v, chain); var c := s[n].Learn(it).addr - Elems(chain);
      var r := Stored(s, n, it, v, chain);
      if c == {} || (Nearest(it.key, c) != n && Nearest(it.key, c) !in s) then r == Outcome(t, NOT_FOUND, n)
      else if Nearest(it.key, c) == n then r == Outcome(t, OWNED, n)
      else
        var m := Nearest(it.key, c); var u := Stored(t, m, it, v, chain + [n]);
        r == Outcome(SubscribeTo(u.net, n, m, it), FOUND, u.who)
  {
    var c := s[n].Learn(it).addr - Elems(chain);
    HopIsNew(s, n, it, chain);
    var hop := NextHop(s, n, it, chain);
    if c != {} {
      NearestUnique(it.key, c, hop[0], Nearest(it.key, c));
      if hop[0] != n && hop[0] in s { StoredForward(s, n, it, v, chain, hop[0]); }
    }
    hide NextHop, SetPlain, SubscribeTo, IsNearest, Nearest;
  }

  /** In a task or file store it keeps nothing of the value. */
  lemma QuietForward(s: Network, n: NodeId, it: Item, v: Value, chain: seq<NodeId>, m: NodeId)
    requires (it.select == Task || it.select == File) && n in s && m in s && m != n && NextHop(s, n, it, chain) == [m]
    ensures var r := Stored(s, m, it, v, chain + [n]);
      Stored(s, n, it, v, chain) == Outcome(SubscribeTo(r.net, n, m, it), FOUND, r.who)
  {
    assert SetPlain(s, n, it, v, chain) == s;
    StoredForward(s, n, it, v, chain, m);
  }

  lemma SameOwner(s: Network, n: NodeId, it: Item, v: Value, chain: seq<NodeId>, m: NodeId)
    requires (it.select == Task || it.select == File) && n in s && m in s && m != n && NextHop(s, n, it, chain) == [m]
    ensures Stored(s, n, it, v, chain).who == Stored(s, m, it, v, chain + [n]).who
  {
    QuietForward(s, n, it, v, chain, m);
  }

  /** GreedyHop for a task or file store, by the name of the next hop. */
  lemma NextPeer(s: Network, n: NodeId, it: Item, chain: seq<NodeId>) returns (m: NodeId)
    requires n in s && Routable(s, it) && Approaching(chain, n, it) && (it.select == Task || it.select == File)
    ensures NextHop(s, n, it, chain) == [m]
    ensures m != n ==> m in s && m !in chain && Asked(s, n, m, it) && Approaching(chain + [n], m, it) && Closer(it.key, m, n)
    ensures m != n ==> Unvisited(s, Elems(chain + [n]) + {m}) < Unvisited(s, Elems(chain) + {n})
  {
    GreedyHop(s, n, it, chain);
    m := NextHop(s, n, it, chain)[0];
    if m != n {
      CloserTotal(it.key, m, m);
      ForwardShrinks(s, n, chain, m);
      NearestIsAsked(s, n, m, it);
    }
  }

  lemma {:induction false} StoreLeavesOneCopy(s: Network, n: NodeId, it: Item, v: Value, chain: seq<NodeId>)
    requires n in s && Routable(s, it) && Approaching(chain, n, it) && (it.select == Task || it.select == File)
    ensures OneCopy(s, it, v, Stored(s, n, it, v, chain))
    decreases Unvisited(s, Elems(chain) + {n})
  {
    var m := NextPeer(s, n, it, chain);
    if m == n {
      StoredHere(s, n, it, v, chain);
    } else {
      StoreLeavesOneCopy(s, m, it, v, chain + [n]);
      QuietForward(s, n, it, v, chain, m);
    }
  }

  /** The way of the store is a route a fetch may take once the owner holds the value. */
  lemma {:induction false} GreedyRoute(s: Network, n: NodeId, it: Item, v: Value, chain: seq<NodeId>, t: Network)
    returns (p: seq<NodeId>)
    requires n in s && Routable(s, it) && Approaching(chain, n, it) && (it.select == Task || it.select == File)
    requires s.Keys == t.Keys && forall x :: x in s ==> s[x].addr == t[x].addr
    requires var o := Stored(s, n, it, v, chain).who; o in t && t[o].Holds(it)
    ensures Route(t, p, it, Elems(chain)) && p[0] == n
    decreases Unvisited(s, Elems(chain) + {n})
  {
    var m := NextPeer(s, n, it, chain);
    if m == n {
      StoredHere(s, n, it, v, chain);
      p := [n];
    } else {
      SameOwner(s, n, it, v, chain, m);
      var q := GreedyRoute(s, m, it, v, chain + [n], t);
      ElemsAppend(chain, n);
      WidenRoute(t, q, it, Elems(chain + [n]), Elems(chain));
      p := [n] + q;
      assert p[1..] == q;
    }
  }

  /** A fetch that can reach the only copy returns it. */
  lemma OnlyCopyIsFetched(t: Network, n: NodeId, it: Item, o: NodeId, p: seq<NodeId>)
    requires n in t && o in t && t[o].Holds(it) && (forall x :: x in t && t[x].Holds(it) ==> x == o)
    requires Route(t, p, it, Elems([])) && p[0] == n
    ensures Fetched(t, n, it, []).0 == Some(t[o].data[it])
  {
    SearchDecides(t, n, it, []);
  }

  /**
   * A task or file stored for the first time from n is found by a fetch from n, and the value
   * found names its owner; a task arrives with what was stored.
   */
  lemma {:induction false} StoreThenFetch(s: Network, n: NodeId, it: Item, v: Value)
    requires n in s && Routable(s, it) && (it.select == Task || it.select == File)
    requires forall x :: x in s ==> !s[x].Holds(it)
    ensures var r := Stored(s, n, it, v, []);
      var found := Fetched(r.net, n, it, []).0;
      && found == Some(Stamp(it, v, r.who))
      && found.value.address == r.who.bytes && found.value.payload == if it.select == Task then v.payload else []
  {
    hide *;
    CloserNone(n, it);
    var r := Stored(s, n, it, v, []);
    StoreLeavesOneCopy(s, n, it, v, []);
    OneHolder(s, it, v, r);
    var p := GreedyRoute(s, n, it, v, [], r.net);
    OnlyCopyIsFetched(r.net, n, it, r.who, p);
    StampNames(it, v, r.who);
  }

  lemma OneHolder(s: Network, it: Item, v: Value, r: Outcome<NodeId>)
    requires OneCopy(s, it, v, r) && forall x :: x in s ==> !s[x].Holds(it)
    ensures r.net.Keys == s.Keys && r.who in s && r.net[r.who].Holds(it) && r.net[r.who].data[it] == Stamp(it, v, r.who)
    ensures forall x :: x in r.net && r.net[x].Holds(it) ==> x == r.who
    ensures forall x :: x in s ==> r.net[x].addr == s[x].addr
  {
  }

  lemma StampNames(it: Item, v: Value, o: NodeId)
    requires it.select == Task || it.select == File
    ensures Stamp(it, v, o).address == o.bytes && Stamp(it, v, o).payload == if it.select == Task then v.payload else []
  {
  }

  // ---- What a store leaves on its way ----

  /** The peers that pass a task or file on, in order. */
  ghost function Way(s: Network, n: NodeId, it: Item, chain: seq<NodeId>): seq<NodeId>
    requires n in s && (it.select == Task || it.select == File)
    decreases Unvisited(s, Elems(chain) + {n})
  {
    var hop := NextHop(s, n, it, chain);
    HopIsNew(s, n, it, chain);
    if n in hop || hop == [] || hop[0] !in s then []
    else
      ElemsAppend(chain, n);
      VisitShrinks(s, Elems(chain) + {n}, hop[0]);
      [n] + Way(s, hop[0], it, chain + [n])
  }

  /** No peer of s has a copy of the entry, or a trace of one. */
  ghost predicate Blank(s: Network, it: Item) {
    forall a :: a in s ==> it !in s[a].data && it !in s[a].cached && it !in s[a].serve && it !in s[a].subs
  }

  /** Exactly the peers of the way have subscribed, and besides them only the owner serves the entry. */
  ghost predicate Traced(s: Network, way: seq<NodeId>, it: Item, o: NodeId) {
    forall x :: x in s ==>
      && (it in s[x].data <==> x == o)
      && (it in s[x].subs <==> x in way)
      && (it in s[x].serve <==> x in way || x == o)
  }

  /** All peers of the way are nearer to the key than n, or n. */
  ghost predicate Onward(way: seq<NodeId>, n: NodeId, it: Item) {
    forall x :: x in way ==> x == n || Closer(it.key, x, n)
  }

  lemma WayStep(s: Network, n: NodeId, it: Item, chain: seq<NodeId>, m: NodeId)
    requires n in s && (it.select == Task || it.select == File) && NextHop(s, n, it, chain) == [m] && m != n && m in s
    ensures Way(s, n, it, chain) == [n] + Way(s, m, it, chain + [n])
  {
  }

  lemma WayEnds(s: Network, n: NodeId, it: Item, chain: seq<NodeId>)
    requires n in s && (it.select == Task || it.select == File) && NextHop(s, n, it, chain) == [n]
    ensures Way(s, n, it, chain) == []
  {
  }

  lemma OnwardAlone(n: NodeId, it: Item)
    ensures Onward([] + [n], n, it)
  {
    hide Closer;
    assert [] + [n] == [n];
  }

  lemma OnwardStep(way: seq<NodeId>, n: NodeId, m: NodeId, it: Item)
    requires Onward(way, m, it) && Closer(it.key, m, n)
    ensures Onward([n] + way, n, it) && n !in way
  {
    CloserTotal(it.key, n, n);
    forall x | x in [n] + way ensures x == n || Closer(it.key, x, n) {
      if x != n && x != m { CloserTransitive(it.key, x, m, n); }
    }
    forall x | x in way ensures x != n {
      if x != m { CloserTransitive(it.key, x, m, n); }
    }
  }

  lemma TracedStep(s: Network, way: seq<NodeId>, it: Item, o: NodeId, n: NodeId, m: NodeId)
    requires Traced(s, way, it, o) && n in s && m in s && n !in way && n != o && m != n
    ensures Traced(SubscribeTo(s, n, m, it), [n] + way, it, o)
  {
    var t := SubscribeTo(s, n, m, it);
    forall x ensures x in [n] + way <==> x == n || x in way { InCons(n, way, x); }
    assert t[n].subs == s[n].subs + {it};
  }

  lemma AloneTraced(s: Network, n: NodeId, it: Item, v: Value)
    requires n in s && (it.select == Task || it.select == File) && Blank(s, it)
    ensures Traced(s[n := s[n].Learn(it).Keep(it, Stamp(it, v, n)).OpenServe(it)], [], it, n)
  {
  }

  lemma TracedHere(s: Network, n: NodeId, it: Item, v: Value, chain: seq<NodeId>)
    requires n in s && (it.select == Task || it.select == File) && Blank(s, it) && NextHop(s, n, it, chain) == [n]
    ensures var r := Stored(s, n, it, v, chain); Traced(r.net, [], it, n) && r.who == n
  {
    hide *;
    KeptHere(s, n, it, v, chain);
    AloneTraced(s, n, it, v);
  }

  /** A task or file stored for the first time leaves a subscription and a serve entry at every peer
      that passed it on, although only the owner gets a copy. */
  lemma {:induction false} FirstStoreTraces(s: Network, n: NodeId, it: Item, v: Value, chain: seq<NodeId>)
    requires n in s && Blank(s, it) && Routable(s, it) && Approaching(chain, n, it) && (it.select == Task || it.select == File)
    ensures var r := Stored(s, n, it, v, chain); var way := Way(s, n, it, chain);
      Traced(r.net, way, it, r.who) && Onward(way + [r.who], n, it) && r.who !in way
    decreases Unvisited(s, Elems(chain) + {n})
  {
    hide *;
    var m := NextPeer(s, n, it, chain);
    if m == n {
      TracedHere(s, n, it, v, chain);
      WayEnds(s, n, it, chain);
      OnwardAlone(n, it);
    } else {
      FirstStoreTraces(s, m, it, v, chain + [n]);
      QuietForward(s, n, it, v, chain, m);
      var r := Stored(s, m, it, v, chain + [n]);
      TraceForward(r.net, Way(s, m, it, chain + [n]), it, r.who, n, m);
      WayStep(s, n, it, chain, m);
    }
  }

  lemma TraceForward(t: Network, way: seq<NodeId>, it: Item, o: NodeId, n: NodeId, m: NodeId)
    requires Traced(t, way, it, o) && Onward(way + [o], m, it) && o !in way
    requires n in t && m in t && m != n && Closer(it.key, m, n)
    ensures Traced(SubscribeTo(t, n, m, it), [n] + way, it, o) && Onward([n] + way + [o], n, it) && o !in [n] + way
  {
    hide *;
    OnwardStep(way + [o], n, m, it);
    InAppend(way, o, n);
    TracedStep(t, way, it, o, n, m);
    Regrouped(n, way, o);
    InCons(n, way, o);
  }

  lemma Regrouped(n: NodeId, way: seq<NodeId>, o: NodeId)
    ensures [n] + way + [o] == [n] + (way + [o])
  {
  }

  lemma InAppend(way: seq<NodeId>, o: NodeId, x: NodeId)
    ensures x in way + [o] <==> x in way || x == o
  {
    assert (way + [o])[|way|] == o;
  }

  /** A peer without a copy has no trace of the entry either. */
  ghost predicate NoStray(s: Network, it: Item) {
    forall x :: x in s && it !in s[x].data ==> it !in s[x].subs && it !in s[x].serve
  }

  /** That holds after a first store exactly when the peer it starts at owns the value at once. */
  lemma StrayTraces(s: Network, n: NodeId, it: Item, v: Value)
    requires n in s && Blank(s, it) && Routable(s, it) && (it.select == Task || it.select == File)
    ensures NoStray(Stored(s, n, it, v, []).net, it) <==> NextHop(s, n, it, []) == [n]
  {
    hide *;
    CloserNone(n, it);
    FirstStoreTraces(s, n, it, v, []);
    var r := Stored(s, n, it, v, []);
    var m := NextPeer(s, n, it, []);
    if m == n {
      WayEnds(s, n, it, []);
      StrayNowhere(r.net, it, r.who);
    } else {
      WayStep(s, n, it, [], m);
      InCons(n, Way(s, m, it, [] + [n]), n);
      StrayAt(r.net, Way(s, n, it, []), it, r.who, n);
    }
  }

  lemma CloserNone(n: NodeId, it: Item)
    ensures Approaching([], n, it)
  {
  }

  lemma StrayNowhere(t: Network, it: Item, o: NodeId)
    requires Traced(t, [], it, o)
    ensures NoStray(t, it)
  {
  }

  lemma StrayAt(t: Network, way: seq<NodeId>, it: Item, o: NodeId, n: NodeId)
    requires Traced(t, way, it, o) && o !in way && n in way && n in t
    ensures it !in t[n].data && it in t[n].subs && it in t[n].serve && !NoStray(t, it)
  {
  }

  // ---- Start-up ----

  /** A network of freshly started peers with the given transport addresses. */
  ghost predicate Started(s: Network, tr: map<NodeId, Value>) {
    s.Keys == tr.Keys && forall n :: n in s ==> s[n] == Initial(n, tr[n])
  }

  /** Freshly started peers know themselves and nothing else; each serves the entries under its own
      address, and there is nothing of any other entry. */
  lemma StartTables(s: Network, tr: map<NodeId, Value>, it: Item)
    requires Started(s, tr)
    ensures Blank(s, it) <==> it.key !in s
    ensures forall n :: n in s ==> s[n].addr == {n}
    ensures it.select != Peer ==> Routable(s, it)
  {
    forall n | n in s ensures s[n] == Initial(n, tr[n]) && s[n].addr == {n} { StartTable(n, tr[n], it); }
    if it.key in s { StartTable(it.key, tr[it.key], it); }
    forall n | n in s && n != it.key
      ensures it !in s[n].data && it !in s[n].cached && it !in s[n].serve && it !in s[n].subs
    {
      StartTable(n, tr[n], it);
    }
    hide Initial;
  }

  lemma StartTable(n: NodeId, v: Value, it: Item)
    ensures var a := Initial(n, v);
      && a.addr == {n} && it !in a.cached && it !in a.subs
      && (it in a.serve <==> it.key == n) && (it in a.data ==> it.key == n)
  {
    assert it == match it.select case Peer => Item(Peer, it.key) case Task => Item(Task, it.key) case File => Item(File, it.key) case Device => Item(Device, it.key);
  }
}

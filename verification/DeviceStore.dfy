/**
 * Registering a device (src/plugboard.py, src/communications/DHTService.py): its host asks to own the
 * entry, and the entry goes on to a peer near its key, which caches it from the host.
 */
module DeviceStore {
  import opened Metric
  import opened Wrappers
  import opened Dht
  import opened Deletion
  import opened Fetch
  import opened Placement
  import opened Store
  import opened CacheTree
  import Devices
  import Keys

  // ---- Trees under construction ----

  /** What a peer has of the entry while the store has passed it but not come back. */
  predicate Pending(a: NodeState, it: Item) {
    it in a.data && it in a.cached && it !in a.serve && it !in a.subs
  }

  /** A tree below the host h, but for the peers of w, which hold the value and have not registered. */
  ghost predicate PartTree(s: Network, h: NodeId, it: Item, v: Value, w: set<NodeId>) {
    && h in s && h !in w && s[h].Owns(it)
    && (forall a :: a in s ==> if a in w then Pending(s[a], it) else Coherent(s, a, h, it))
    && (forall a :: Holder(s, a, it) && a !in w ==> a in Reached(s, h, it))
    && Within(s, it, {v})
  }

  lemma WholeTree(s: Network, h: NodeId, it: Item, v: Value)
    requires PartTree(s, h, it, v, {})
    ensures Tree(s, h, it) && Within(s, it, {v})
  {
    hide Reached, Coherent;
  }

  /** A peer that keeps a copy on the way. */
  lemma Joins(s: Network, h: NodeId, it: Item, v: Value, w: set<NodeId>, n: NodeId)
    requires PartTree(s, h, it, v, w) && n in s && !Holder(s, n, it) && n !in w
    ensures PartTree(s[n := s[n].KeepCopy(it, v)], h, it, v, w + {n})
  {
    var t := s[n := s[n].KeepCopy(it, v)];
    assert Coherent(s, n, h, it);
    JoinCoherent(s, h, it, v, w, n);
    forall a, b ensures Edge(s, a, b, it) ==> Edge(t, a, b, it) {}
    forall a ensures Holder(t, a, it) <==> Holder(s, a, it) || a == n {}
    hide Edge, Coherent;
    ReachedMonotone(s, t, h, it);
    hide Reached;
    assert Within(t, it, {v}) by {
      forall a | Holder(t, a, it) ensures t[a].data[it] == v { assert a == n || Holder(s, a, it); }
    }
  }

  lemma JoinCoherent(s: Network, h: NodeId, it: Item, v: Value, w: set<NodeId>, n: NodeId)
    requires PartTree(s, h, it, v, w) && n in s && !Holder(s, n, it) && n !in w
    ensures var t := s[n := s[n].KeepCopy(it, v)];
      forall a :: a in t ==> if a in w + {n} then Pending(t[a], it) else Coherent(t, a, h, it)
  {
    hide Reached;
    var t := s[n := s[n].KeepCopy(it, v)];
    assert Coherent(s, n, h, it);
    forall a | a in t ensures if a in w + {n} then Pending(t[a], it) else Coherent(t, a, h, it) {
      if a !in w { assert Coherent(s, a, h, it); }
    }
  }

  /** A peer on the way back registers with the peer it had passed the value to. */
  lemma Registers(s: Network, h: NodeId, it: Item, v: Value, w: set<NodeId>, n: NodeId, m: NodeId)
    requires PartTree(s, h, it, v, w) && n in w && n in s && Holder(s, m, it) && m !in w
    ensures PartTree(SubscribeTo(s, n, m, it), h, it, v, w - {n})
  {
    var t := SubscribeTo(s, n, m, it);
    RegisterEdges(s, h, it, v, w, n, m);
    RegisterCoherent(s, h, it, v, w, n, m);
    forall a ensures Holder(t, a, it) <==> Holder(s, a, it) {}
    hide Edge, Coherent, SubscribeTo;
    ReachedMonotone(s, t, h, it);
    assert m in Reached(s, h, it);
    ReachesStep(t, h, m, n, it);
    assert n in Reached(t, h, it);
    hide Reached;
    assert Within(t, it, {v}) by {
      forall a | Holder(t, a, it) ensures t[a].data[it] == v { assert Holder(s, a, it); }
    }
  }

  lemma RegisterEdges(s: Network, h: NodeId, it: Item, v: Value, w: set<NodeId>, n: NodeId, m: NodeId)
    requires PartTree(s, h, it, v, w) && n in w && n in s && Holder(s, m, it) && m !in w
    ensures var t := SubscribeTo(s, n, m, it);
      Edge(t, m, n, it) && forall a, b :: Edge(s, a, b, it) ==> Edge(t, a, b, it)
  {
    hide Reached, Within;
    var t := SubscribeTo(s, n, m, it);
    assert Pending(s[n], it) && Coherent(s, m, h, it);
    assert t[m].serve[it] == s[m].serve[it] + {n};
  }

  lemma RegisterCoherent(s: Network, h: NodeId, it: Item, v: Value, w: set<NodeId>, n: NodeId, m: NodeId)
    requires PartTree(s, h, it, v, w) && n in w && n in s && Holder(s, m, it) && m !in w
    ensures var t := SubscribeTo(s, n, m, it);
      forall a :: a in t ==> if a in w - {n} then Pending(t[a], it) else Coherent(t, a, h, it)
  {
    hide Reached, Within;
    var t := SubscribeTo(s, n, m, it);
    assert Pending(s[n], it) && Coherent(s, m, h, it);
    forall a | a in t ensures if a in w - {n} then Pending(t[a], it) else Coherent(t, a, h, it) {
      if a !in w { assert Coherent(s, a, h, it); } else { assert Pending(s[a], it); }
    }
  }

  // ---- The way of the store ----

  lemma {:induction false} NewNeighbor(keys: set<NodeId>, neighbors: seq<NodeId>, visited: seq<NodeId>)
    requires exists m :: m in neighbors && m in keys && m !in visited
    ensures FirstNew(keys, neighbors, visited).Some?
  {
    if !(neighbors[0] !in visited && neighbors[0] in keys) { NewNeighbor(keys, neighbors[1..], visited); }
  }

  /** A peer that is not among the two nearest it knows has somewhere to pass the entry on to. */
  lemma HasNext(s: Network, n: NodeId, it: Item, chain: seq<NodeId>) returns (m: NodeId)
    requires n in s && n !in chain && Routable(s, it) && it.select == Device && n !in TwoNearest(s, n, it, chain)
    ensures FirstNew(s.Keys, TwoNearest(s, n, it, chain), chain + [n]) == Some(m)
    ensures m in s && m !in chain && m != n
  {
    var c := s[n].addr - Elems(chain);
    var two := TwoNearest(s, n, it, chain);
    assert two == Closest(it.key, c, 2) && n in c && s[n].addr <= s.Keys;
    hide TwoNearest, Routable;
    if |c| == 1 { OneLeft(it.key, c, n); }
    assert two != [] && two[0] in two && two[0] in c && two[0] !in Elems(chain);
    InAppend(chain, n, two[0]);
    assert two[0] in s.Keys && two[0] !in chain + [n];
    NewNeighbor(s.Keys, two, chain + [n]);
    m := FirstNew(s.Keys, two, chain + [n]).value;
    InAppend(chain, n, m);
  }

  lemma OneLeft(key: NodeId, c: set<NodeId>, n: NodeId)
    requires n in c && |c| == 1
    ensures n in Closest(key, c, 2)
  {
    var r := Closest(key, c, 2);
    assert r[0] in r && r[0] in c;
    var x :| x in c;
    assert |c - {x}| == 0;
    assert c == {x};
  }

  /** A device goes on to the peer nearest to its key, of all that are known and not visited. */
  lemma NextIsNearest(s: Network, n: NodeId, it: Item, chain: seq<NodeId>)
    requires n in s && Routable(s, it) && it.select == Device
    ensures var c := s[n].addr - Elems(chain) - {n};
      FirstNew(s.Keys, TwoNearest(s, n, it, chain), chain + [n]) == if c == {} then None else Some(Nearest(it.key, c))
  {
    var d := s[n].addr - Elems(chain);
    var two := TwoNearest(s, n, it, chain);
    assert two == Closest(it.key, d, 2) && s[n].addr <= s.Keys;
    hide Routable, TwoNearest;
    TwoOf(it.key, d, n);
    forall x | x in two ensures x in s && (x in chain + [n] <==> x == n) {
      assert x in d && x !in Elems(chain);
      InAppend(chain, n, x);
    }
    hide Closest, Nearest, Closer, Elems;
    NewOfTwo(s.Keys, two, chain + [n], n);
  }

  /** The two nearest of d: the nearest, and the nearest of the rest. */
  lemma TwoOf(key: NodeId, d: set<NodeId>, n: NodeId)
    ensures var two := Closest(key, d, 2); var c := d - {n};
      && (forall x :: x in two ==> x in d)
      && (c == {} ==> two == [] || two == [n])
      && (c != {} ==> two != [] && (if two[0] == n then |two| == 2 && two[1] == Nearest(key, c) else two[0] == Nearest(key, c)))
  {
    hide Closer;
    if d == {} {
      ClosestOfNone(key, d, 2);
    } else {
      var m := Nearest(key, d);
      ClosestStep(key, d, 2);
      if d - {m} == {} { ClosestOfNone(key, d - {m}, 1); } else { ClosestStep(key, d - {m}, 1); }
      hide Closest;
      if m != n { NearestUnique(key, d - {n}, m, Nearest(key, d - {n})); }
    }
  }

  lemma NewOfTwo(keys: set<NodeId>, two: seq<NodeId>, visited: seq<NodeId>, n: NodeId)
    requires forall x :: x in two ==> x in keys && (x in visited <==> x == n)
    requires |two| == 2 ==> two[0] != two[1]
    ensures two == [] || two == [n] ==> FirstNew(keys, two, visited) == None
    ensures two != [] && two[0] != n ==> FirstNew(keys, two, visited) == Some(two[0])
    ensures |two| == 2 && two[0] == n ==> FirstNew(keys, two, visited) == Some(two[1])
  {
    if two != [] { assert two[0] in two; }
    if |two| > 1 { assert two[1] in two && two[1..][0] == two[1]; }
  }

  /** A peer that does not keep a device passes it to that peer, and the store ends where a store from
      that peer does; it ends here when there is none. */
  lemma DevicePasses(s: Network, n: NodeId, it: Item, v: Value, chain: seq<NodeId>, fixedOwner: bool)
    requires n in s && Routable(s, it) && it.select == Device && SetDevice(s, n, it, v, chain, fixedOwner).1 == FOUND
    ensures var t := SetDevice(s, n, it, v, chain, fixedOwner).0; var c := s[n].addr - Elems(chain) - {n};
      var r := DeviceStored(s, n, it, v, chain, fixedOwner);
      if c == {} then r == Outcome(t, NOT_FOUND, Some(n))
      else
        var m := Nearest(it.key, c);
        && m in t && r.status == FOUND && r.who == DeviceStored(t, m, it, v, chain + [n], false).who
        && r.net == SubscribeTo(DeviceStored(t, m, it, v, chain + [n], false).net, n, m, it)
  {
    var t := SetDevice(s, n, it, v, chain, fixedOwner).0;
    var c := s[n].addr - Elems(chain) - {n};
    hide SetDevice, TwoNearest, FirstNew, Nearest, Routable, SubscribeTo, Elems, DeviceStored;
    NextIsNearest(s, n, it, chain);
    if c == {} { DeviceStops(s, n, it, v, chain, fixedOwner, t); } else { DeviceStep(s, n, it, v, chain, fixedOwner, t, Nearest(it.key, c)); }
  }

  ghost predicate HeldOn(s: Network, it: Item, chain: seq<NodeId>) {
    forall a :: Holder(s, a, it) ==> a in chain
  }

  lemma Here(s: Network, n: NodeId, it: Item, v: Value, chain: seq<NodeId>, h: NodeId, w: set<NodeId>)
    requires n in s && it.select == Device && n in TwoNearest(s, n, it, chain) && HostOf(v) == Some(h)
    requires PartTree(s, h, it, v, w) && !Holder(s, n, it) && n !in w
    ensures var r := DeviceStored(s, n, it, v, chain, false);
      r.status == OWNED && PartTree(r.net, h, it, v, w) && Holder(r.net, n, it)
  {
    var t := s[n := s[n].KeepCopy(it, v)];
    assert h in s && Holder(s, h, it) && h !in w;
    assert Holder(t, h, it);
    hide Holder, Within, Reached, Coherent, TwoNearest;
    Joins(s, h, it, v, w, n);
    Registers(t, h, it, v, w + {n}, n, h);
    HoldersStay(t, n, h, it, w + {n}, h, v);
    assert w + {n} - {n} == w;
    assert Pending(t[n], it);
    hide PartTree, Pending;
    HereStored(s, n, it, v, chain, h);
  }

  lemma HereStored(s: Network, n: NodeId, it: Item, v: Value, chain: seq<NodeId>, h: NodeId)
    requires n in s && it.select == Device && n in TwoNearest(s, n, it, chain) && HostOf(v) == Some(h) && h in s
    ensures var t := s[n := s[n].KeepCopy(it, v)];
      Pending(t[n], it) ==> DeviceStored(s, n, it, v, chain, false) == Outcome(SubscribeTo(t, n, h, it), OWNED, Some(n))
  {
    hide TwoNearest;
    var t := s[n := s[n].KeepCopy(it, v)];
    if Pending(t[n], it) {
      var u := SubscribeTo(t, n, h, it);
      assert it in u[n].serve;
      assert u[n := u[n].OpenServe(it)] == u;
    }
  }

  lemma SameRoutes(s: Network, n: NodeId, it: Item, v: Value)
    requires n in s && Routable(s, it) && it.select == Device
    ensures Routable(s[n := s[n].KeepCopy(it, v)], it)
  {
  }

  lemma JoinHeld(s: Network, n: NodeId, it: Item, v: Value, chain: seq<NodeId>)
    requires n in s && HeldOn(s, it, chain)
    ensures HeldOn(s[n := s[n].KeepCopy(it, v)], it, chain + [n])
  {
    var t := s[n := s[n].KeepCopy(it, v)];
    forall a | Holder(t, a, it) ensures a in chain + [n] {
      InAppend(chain, n, a);
      assert a == n || Holder(s, a, it);
    }
  }

  /** The peers after the host hang the entry below it, one below the next. */
  lemma {:induction false} StoreBelowHost(s: Network, n: NodeId, it: Item, v: Value, chain: seq<NodeId>, h: NodeId, w: set<NodeId>)
    requires n in s && it.select == Device && Routable(s, it) && HostOf(v) == Some(h) && h in chain && n !in chain
    requires PartTree(s, h, it, v, w) && HeldOn(s, it, chain) && (forall x :: x in w ==> x in chain)
    ensures var r := DeviceStored(s, n, it, v, chain, false);
      r.status != ERR && PartTree(r.net, h, it, v, w) && Holder(r.net, n, it)
    decreases Unvisited(s, Elems(chain) + {n})
  {
    assert !Holder(s, n, it) && n !in w;
    hide *;
    if n in TwoNearest(s, n, it, chain) {
      Here(s, n, it, v, chain, h, w);
    } else {
      var m := HasNext(s, n, it, chain);
      var t := s[n := s[n].KeepCopy(it, v)];
      CopyOn(s, n, it, v, chain, false);
      SameRoutes(s, n, it, v);
      JoinHeld(s, n, it, v, chain);
      Joins(s, h, it, v, w, n);
      DeviceStep(s, n, it, v, chain, false, t, m);
      SameUnvisited(s, t, Elems(chain + [n]) + {m});
      InAppend(chain, n, m);
      InAppend(chain, n, h);
      forall x | x in w + {n} ensures x in chain + [n] { InAppend(chain, n, x); }
      StoreBelowHost(t, m, it, v, chain + [n], h, w + {n});
      var r := DeviceStored(t, m, it, v, chain + [n], false);
      Registers(r.net, h, it, v, w + {n}, n, m);
      HoldersStay(r.net, n, m, it, w + {n}, h, v);
      assert w + {n} - {n} == w;
    }
  }

  lemma CopyOn(s: Network, n: NodeId, it: Item, v: Value, chain: seq<NodeId>, fixedOwner: bool)
    requires n in s && n !in TwoNearest(s, n, it, chain)
    ensures SetDevice(s, n, it, v, chain, fixedOwner) == (s[n := s[n].KeepCopy(it, v)], FOUND)
  {
    hide TwoNearest;
  }

  lemma HoldersStay(s: Network, n: NodeId, m: NodeId, it: Item, w: set<NodeId>, h: NodeId, v: Value)
    requires n in s && m in s && n in w && PartTree(s, h, it, v, w)
    ensures Holder(SubscribeTo(s, n, m, it), n, it)
  {
    hide Reached, Coherent;
    assert Pending(s[n], it);
  }

  // ---- The host ----

  /** A host that registers its device and is among the two nearest peers it knows owns the entry. */
  lemma NearHost(s: Network, h: NodeId, it: Item, v: Value)
    requires h in s && it.select == Device && Blank(s, it) && Routable(s, it) && HostOf(v) == Some(h)
    requires h in TwoNearest(s, h, it, [])
    ensures var t := DeviceStored(s, h, it, v, [], true).net; Tree(t, h, it) && Within(t, it, {v})
  {
    hide *;
    var t := s[h := s[h].Keep(it, v).OpenServe(it)];
    HostAlone(s, h, it, v);
    WholeTree(t, h, it, v);
    OwnAtHost(s, h, it, v);
    var m := FirstNew(s.Keys, TwoNearest(s, h, it, []), [] + [h]);
    if m.Some? {
      DeviceStep(s, h, it, v, [], true, t, m.value);
      InAppend([], h, m.value);
      InAppend([], h, h);
      StoreBelowHost(t, m.value, it, v, [] + [h], h, {});
      WholeTree(DeviceStored(t, m.value, it, v, [] + [h], false).net, h, it, v);
      RootSubscribes(DeviceStored(t, m.value, it, v, [] + [h], false).net, h, m.value, it);
    }
  }

  lemma OwnAtHost(s: Network, h: NodeId, it: Item, v: Value)
    requires h in s && it.select == Device && Blank(s, it) && Routable(s, it) && HostOf(v) == Some(h)
    requires h in TwoNearest(s, h, it, [])
    ensures var t := s[h := s[h].Keep(it, v).OpenServe(it)];
      && SetDevice(s, h, it, v, [], true) == (t, FOUND) && Routable(t, it) && HeldOn(t, it, [] + [h])
      && (FirstNew(s.Keys, TwoNearest(s, h, it, []), [] + [h]) == None ==> DeviceStored(s, h, it, v, [], true).net == t)
  {
    hide TwoNearest, FirstNew;
    var t := s[h := s[h].Keep(it, v).OpenServe(it)];
    forall a | Holder(t, a, it) ensures a in [] + [h] {
      AloneHolds(s, h, it, v, a);
      InAppend([], h, a);
    }
    hide Blank, Holder;
  }

  lemma HostAlone(s: Network, h: NodeId, it: Item, v: Value)
    requires h in s && Blank(s, it)
    ensures PartTree(s[h := s[h].Keep(it, v).OpenServe(it)], h, it, v, {})
  {
    OwnerAlone(s, s[h := s[h].Keep(it, v).OpenServe(it)], h, it);
    hide Reached, Coherent;
  }

  lemma AloneHolds(s: Network, h: NodeId, it: Item, v: Value, a: NodeId)
    requires h in s && Blank(s, it) && Holder(s[h := s[h].Keep(it, v).OpenServe(it)], a, it)
    ensures a == h
  {
  }

  /** The root of a tree serves the entry, so it subscribes nowhere. */
  lemma RootSubscribes(s: Network, h: NodeId, m: NodeId, it: Item)
    requires Tree(s, h, it) && m in s
    ensures SubscribeTo(s, h, m, it) == s
  {
    TreeOwner(s, h, it);
  }

  /** A store that is not to own the entry makes nobody its owner, takes no copy away, leaves the
      registrations of the peers already visited as they are, and leaves a copy where it arrives. */
  lemma {:induction false} CopiesOnly(s: Network, n: NodeId, it: Item, v: Value, chain: seq<NodeId>, a: NodeId)
    requires n in s && a in s && it.select == Device
    ensures var t := DeviceStored(s, n, it, v, chain, false).net;
      && (t[a].Owns(it) ==> s[a].Owns(it)) && (s[a].Holds(it) ==> t[a].Holds(it)) && t[n].Holds(it)
      && (a in chain && a != n ==> ((it in t[a].serve <==> it in s[a].serve) && (it in t[a].subs <==> it in s[a].subs)))
    decreases Unvisited(s, Elems(chain) + {n})
  {
    var (t, status) := SetDevice(s, n, it, v, chain, false);
    OneCopyStep(s, n, it, v, chain, a);
    OneCopyStep(s, n, it, v, chain, n);
    var m := FirstNew(s.Keys, TwoNearest(s, n, it, chain), chain + [n]);
    if status == FOUND && m.Some? {
      hide SetDevice, TwoNearest, FirstNew, Unvisited;
      DeviceStep(s, n, it, v, chain, false, t, m.value);
      SameUnvisited(s, t, Elems(chain + [n]) + {m.value});
      CopiesOnly(t, m.value, it, v, chain + [n], a);
      CopiesOnly(t, m.value, it, v, chain + [n], n);
      InAppend(chain, n, a);
      assert m.value !in chain + [n];
      SubscribeKeeps(DeviceStored(t, m.value, it, v, chain + [n], false).net, n, m.value, it, a);
    } else {
      DeviceEnds(s, n, it, v, chain, false);
    }
  }

  lemma DeviceEnds(s: Network, n: NodeId, it: Item, v: Value, chain: seq<NodeId>, fixedOwner: bool)
    requires n in s && it.select == Device
    requires SetDevice(s, n, it, v, chain, fixedOwner).1 == FOUND ==> FirstNew(s.Keys, TwoNearest(s, n, it, chain), chain + [n]) == None
    ensures DeviceStored(s, n, it, v, chain, fixedOwner).net == SetDevice(s, n, it, v, chain, fixedOwner).0
  {
    SetStatus(s, n, it, v, chain, fixedOwner);
    hide SetDevice, SubscribeTo, FirstNew, TwoNearest;
  }

  lemma SetStatus(s: Network, n: NodeId, it: Item, v: Value, chain: seq<NodeId>, fixedOwner: bool)
    requires n in s
    ensures var status := SetDevice(s, n, it, v, chain, fixedOwner).1; status == FOUND || status == OWNED || status == ERR
  {
  }

  lemma OneCopyStep(s: Network, n: NodeId, it: Item, v: Value, chain: seq<NodeId>, a: NodeId)
    requires n in s && a in s
    ensures var t := SetDevice(s, n, it, v, chain, false).0;
      && (t[a].Owns(it) ==> s[a].Owns(it)) && (s[a].Holds(it) ==> t[a].Holds(it)) && t[n].Holds(it)
      && (a != n ==> ((it in t[a].serve <==> it in s[a].serve) && (it in t[a].subs <==> it in s[a].subs)))
  {
    hide TwoNearest;
  }

  lemma SubscribeKeeps(s: Network, n: NodeId, m: NodeId, it: Item, a: NodeId)
    requires n in s && m in s && a in s
    ensures var t := SubscribeTo(s, n, m, it);
      && t[a].data == s[a].data && t[a].cached == s[a].cached
      && (a != n ==> ((it in t[a].serve <==> it in s[a].serve) && (it in t[a].subs <==> it in s[a].subs)))
      && (it !in s[n].serve && it !in s[n].subs ==> it in t[n].serve && t[n].serve[it] == {})
  {
  }

  /** A host that is not among them gets a copy nobody is registered for, and no peer owns the entry. */
  lemma FarHost(s: Network, h: NodeId, it: Item, v: Value)
    requires h in s && it.select == Device && Blank(s, it) && Routable(s, it) && HostOf(v) == Some(h)
    requires h !in TwoNearest(s, h, it, [])
    ensures var t := DeviceStored(s, h, it, v, [], true).net;
      && (forall a :: a in s ==> !t[a].Owns(it))
      && h in t && it in t[h].serve && t[h].serve[it] == {}
      && exists m :: m != h && Holder(t, m, it)
  {
    var m := HasNext(s, h, it, []);
    hide *;
    CopyAtHost(s, h, it, v);
    CopyOn(s, h, it, v, [], true);
    DeviceStep(s, h, it, v, [], true, s[h := s[h].KeepCopy(it, v)], m);
    InAppend([], h, h);
    FarCopies(s[h := s[h].KeepCopy(it, v)], h, it, v, [] + [h], m);
  }

  lemma CopyAtHost(s: Network, h: NodeId, it: Item, v: Value)
    requires h in s && Blank(s, it)
    ensures var t := s[h := s[h].KeepCopy(it, v)];
      (forall a :: a in t ==> !t[a].Owns(it)) && it !in t[h].serve && it !in t[h].subs
  {
  }

  lemma FarCopies(s: Network, h: NodeId, it: Item, v: Value, chain: seq<NodeId>, m: NodeId)
    requires m in s && h in s && m != h && h in chain && it.select == Device
    requires (forall a :: a in s ==> !s[a].Owns(it)) && it !in s[h].serve && it !in s[h].subs
    ensures var t := SubscribeTo(DeviceStored(s, m, it, v, chain, false).net, h, m, it);
      && (forall a :: a in s ==> !t[a].Owns(it))
      && it in t[h].serve && t[h].serve[it] == {} && Holder(t, m, it)
  {
    var r := DeviceStored(s, m, it, v, chain, false).net;
    var t := SubscribeTo(r, h, m, it);
    hide DeviceStored, SubscribeTo;
    forall a | a in s ensures !t[a].Owns(it) {
      CopiesOnly(s, m, it, v, chain, a);
      SubscribeKeeps(r, h, m, it, a);
    }
    CopiesOnly(s, m, it, v, chain, h);
    CopiesOnly(s, m, it, v, chain, m);
    SubscribeKeeps(r, h, m, it, h);
    SubscribeKeeps(r, h, m, it, m);
  }

  lemma NobodyServed(t: Network, h: NodeId, it: Item, m: NodeId)
    requires h in t && it in t[h].serve && t[h].serve[it] == {} && m != h && Holder(t, m, it)
    ensures !Blank(Purge(t, Reached(t, h, it), it), it)
  {
    assert Closed(t, {h}, it);
    ReachedLeast(t, h, {h}, it);
    hide Reached;
    assert Purge(t, Reached(t, h, it), it)[m] == t[m];
  }

  /**
   * Registering a device makes its host the root of a tree of copies, and lets the host take all of
   * them back, exactly when the host is itself among the two nearest peers it knows.
   */
  lemma HostMustBeNear(s: Network, h: NodeId, it: Item, v: Value)
    requires h in s && it.select == Device && Blank(s, it) && Routable(s, it) && HostOf(v) == Some(h)
    ensures var t := DeviceStored(s, h, it, v, [], true).net; var near := h in TwoNearest(s, h, it, []);
      && (Tree(t, h, it) <==> near)
      && (Blank(Purge(t, Reached(t, h, it), it), it) <==> near)
      && (near ==> Within(t, it, {v}))
  {
    var t := DeviceStored(s, h, it, v, [], true).net;
    hide *;
    if h in TwoNearest(s, h, it, []) {
      NearHost(s, h, it, v);
      DeleteAtOwner(t, h, it);
    } else {
      FarHost(s, h, it, v);
      var m :| m != h && Holder(t, m, it);
      NobodyServed(t, h, it, m);
      if Tree(t, h, it) { TreeOwner(t, h, it); }
    }
  }

  // ---- Teletypes ----

  /** The addresses host h knows that share its first four bytes and are nearer to the key. */
  ghost function Rivals(s: Network, h: NodeId, key: NodeId): set<NodeId>
    requires h in s
  {
    set y | y in s[h].addr && y.bytes[..4] == h.bytes[..4] && Closer(key, y, h)
  }

  /** The other addresses it knows that share its first four bytes. */
  ghost function Kin(s: Network, h: NodeId): set<NodeId>
    requires h in s
  {
    set y | y in s[h].addr && y.bytes[..4] == h.bytes[..4] && y != h
  }

  lemma NearByRivals(s: Network, h: NodeId, it: Item)
    requires h in s && h in s[h].addr && it.key.bytes[..4] == h.bytes[..4]
    ensures h in TwoNearest(s, h, it, []) <==> |Rivals(s, h, it.key)| < 2
  {
    hide Closer, Closest;
    forall y | Closer(it.key, y, h) ensures y.bytes[..4] == h.bytes[..4] { CloserSharesPrefix(it.key, y, h, 4); }
    assert Nearer(it.key, s[h].addr, h) == Rivals(s, h, it.key);
    assert s[h].addr - Elems([]) == s[h].addr;
    ClosestByRank(it.key, s[h].addr, 2, h);
  }

  lemma FewKin(s: Network, h: NodeId, key: NodeId)
    requires h in s && |Kin(s, h)| < 2
    ensures |Rivals(s, h, key)| < 2
  {
    hide Closer;
    CloserTotal(key, h, h);
    assert Rivals(s, h, key) <= Kin(s, h);
    SubsetSize(Rivals(s, h, key), Kin(s, h));
  }

  /** The key of the n-th teletype of a host. */
  function TtyOf(h: NodeId, n: nat): Item
    requires n < 0x1_0000_0000
  {
    Item(Device, NodeId(Devices.TtyKey(h.bytes, n)))
  }

  lemma TtyBytes(h: NodeId, n: nat)
    requires n < 0x1_0000_0000
    ensures var k := TtyOf(h, n).key.bytes; k[..4] == h.bytes[..4] && k[7] >= 192
    ensures n == 0 ==> TtyOf(h, 0).key.bytes == h.bytes[..4] + [0, 0, 0, 192]
  {
    hide Devices.TtyKey;
    Devices.TtyKeyBytes(h.bytes, n);
    Halves(h.bytes[..4], [n / 0x100_0000, n / 0x1_0000 % 256, n / 0x100 % 256, n % 64 + 192]);
  }

  lemma Halves(a: Bytes, w: Bytes)
    requires |a| == 4 && |w| == 4
    ensures (a + w)[..4] == a && (a + w)[7] == w[3]
  {
  }

  /**
   * The key of a teletype begins with the first four bytes of its host, so only peers that share them
   * can be nearer.  The registration works exactly when the host knows fewer than two such peers
   * nearer to the key, and in any case when it knows fewer than two of them.
   */
  lemma TtyHostMustBeNear(s: Network, h: NodeId, n: nat, v: Value)
    requires n < 0x1_0000_0000 && h in s && Blank(s, TtyOf(h, n)) && Routable(s, TtyOf(h, n)) && HostOf(v) == Some(h)
    ensures var it := TtyOf(h, n); var t := DeviceStored(s, h, it, v, [], true).net; var few := |Rivals(s, h, it.key)| < 2;
      && (Tree(t, h, it) <==> few)
      && (Blank(Purge(t, Reached(t, h, it), it), it) <==> few)
      && (|Kin(s, h)| < 2 ==> few)
  {
    var it := TtyOf(h, n);
    TtyBytes(h, n);
    assert h in s[h].addr by { hide *; Knows(s, h, it); }
    assert it.select == Device;
    hide *;
    NearByRivals(s, h, it);
    HostMustBeNear(s, h, it, v);
    if |Kin(s, h)| < 2 { FewKin(s, h, it.key); }
  }

  lemma Knows(s: Network, h: NodeId, it: Item)
    requires Routable(s, it) && h in s
    ensures h in s[h].addr
  {
  }
}

/**
 * A fetch whose chain names a peer of the way goes past it, and may leave a copy that nobody with a
 * copy has registered.
 */
module NamedWay {
  import opened Metric
  import opened Wrappers
  import opened Dht
  import opened Deletion
  import opened Fetch
  import opened Placement
  import opened Store
  import opened CacheTree
  import opened Coherence
  import opened TaskTree

  /** n knows m and y but not o, which both of them know; nearest to the key is o, then m, then y. */
  ghost predicate Diamond(s: Network, n: NodeId, m: NodeId, y: NodeId, o: NodeId, it: Item) {
    && s.Keys == {n, m, y, o} && it.select == Task && Blank(s, it) && Routable(s, it)
    && s[n].addr == {n, m, y} && o in s[m].addr && o in s[y].addr
    && Ordered(it.key, n, m, y, o)
  }

  ghost predicate Ordered(key: NodeId, n: NodeId, m: NodeId, y: NodeId, o: NodeId) {
    Closer(key, o, m) && Closer(key, m, y) && Closer(key, y, n)
  }

  ghost predicate Distinct(n: NodeId, m: NodeId, y: NodeId, o: NodeId) {
    o != m && o != y && o != n && m != y && m != n && y != n
  }

  lemma OrderedDistinct(key: NodeId, n: NodeId, m: NodeId, y: NodeId, o: NodeId)
    requires Ordered(key, n, m, y, o)
    ensures Distinct(n, m, y, o)
    ensures IsNearest(key, {n, m, y}, m) && IsNearest(key, {n, y}, y)
  {
    hide Closer;
    OwnerNearer(key, n, m, y, o);
    CloserTransitive(key, m, y, n);
    CloserTotal(key, o, m);
    CloserTotal(key, o, y);
    CloserTotal(key, o, n);
    CloserTotal(key, m, y);
    CloserTotal(key, m, n);
    CloserTotal(key, y, n);
  }

  lemma OwnerNearer(key: NodeId, n: NodeId, m: NodeId, y: NodeId, o: NodeId)
    requires Ordered(key, n, m, y, o)
    ensures Closer(key, o, m) && Closer(key, o, y) && Closer(key, o, n)
  {
    hide Closer;
    CloserTransitive(key, m, y, n);
    CloserTransitive(key, o, m, y);
    CloserTransitive(key, o, m, n);
  }

  lemma OwnerNearest(key: NodeId, c: set<NodeId>, n: NodeId, m: NodeId, y: NodeId, o: NodeId)
    requires Ordered(key, n, m, y, o) && o in c && c <= {n, m, y, o}
    ensures IsNearest(key, c, o)
  {
    hide Closer;
    OwnerNearer(key, n, m, y, o);
    hide Ordered;
    forall x | x in c && x != o ensures Closer(key, o, x) { assert x == n || x == m || x == y; }
  }

  lemma DiamondTables(s: Network, n: NodeId, m: NodeId, y: NodeId, o: NodeId, it: Item)
    requires Diamond(s, n, m, y, o, it)
    ensures s.Keys == {n, m, y, o} && it.select == Task && Ordered(it.key, n, m, y, o)
    ensures s[n].addr == {n, m, y} && o in s[m].addr && o in s[y].addr && o in s[o].addr
    ensures s[m].addr <= {n, m, y, o} && s[y].addr <= {n, m, y, o} && s[o].addr <= {n, m, y, o}
  {
    hide Ordered, Blank;
  }

  // ---- The store ----

  /** The next hop is the one address that is nearest off the chain. */
  lemma HopTo(s: Network, a: NodeId, it: Item, chain: seq<NodeId>, c: set<NodeId>, b: NodeId)
    requires a in s && it.select == Task && c == s[a].addr - Elems(chain) && IsNearest(it.key, c, b)
    ensures NextHop(s, a, it, chain) == [b]
  {
    HopIsNew(s, a, it, chain);
    hide NextHop;
    NearestUnique(it.key, c, b, NextHop(s, a, it, chain)[0]);
  }

  lemma DiamondHops(s: Network, n: NodeId, m: NodeId, y: NodeId, o: NodeId, it: Item)
    requires Diamond(s, n, m, y, o, it)
    ensures n in s && m in s && o in s
    ensures NextHop(s, n, it, []) == [m] && NextHop(s, m, it, [] + [n]) == [o] && NextHop(s, o, it, [] + [n] + [m]) == [o]
  {
    DiamondTables(s, n, m, y, o, it);
    OrderedDistinct(it.key, n, m, y, o);
    NoElems();
    ElemsAppend([], n);
    ElemsAppend([] + [n], m);
    SetsOff(n, m, y, o);
    hide *;
    HopTo(s, n, it, [], {n, m, y}, m);
    Left(s[m].addr, {} + {n}, o);
    Left(s[o].addr, {} + {n} + {m}, o);
    OwnerNearest(it.key, s[m].addr - ({} + {n}), n, m, y, o);
    OwnerNearest(it.key, s[o].addr - ({} + {n} + {m}), n, m, y, o);
    HopTo(s, m, it, [] + [n], s[m].addr - ({} + {n}), o);
    HopTo(s, o, it, [] + [n] + [m], s[o].addr - ({} + {n} + {m}), o);
  }

  lemma SetsOff(n: NodeId, m: NodeId, y: NodeId, o: NodeId)
    requires Distinct(n, m, y, o)
    ensures {n, m, y} - {} == {n, m, y} && {n, m, y} - {m} == {n, y}
    ensures o !in {} + {n} && o !in {} + {n} + {m}
  {
  }

  lemma Left(c: set<NodeId>, off: set<NodeId>, o: NodeId)
    requires o in c && o !in off
    ensures c - off <= c && o in c - off
  {
  }

  /** What the store from n leaves: a copy at o, with which m is registered, and n with m. */
  ghost predicate Stretched(s: Network, t: Network, n: NodeId, m: NodeId, y: NodeId, o: NodeId, it: Item) {
    && t.Keys == s.Keys && n in t && y in t && o in t && (forall a :: a in s ==> t[a].addr == s[a].addr)
    && (forall a :: Holder(t, a, it) <==> a == o)
    && it in t[n].subs && it !in t[y].subs && it !in t[y].serve
    && it in t[o].serve && n !in t[o].serve[it]
  }

  lemma DiamondStored(s: Network, n: NodeId, m: NodeId, y: NodeId, o: NodeId, it: Item, v: Value)
    requires Diamond(s, n, m, y, o, it)
    ensures n in s
    ensures var r := Stored(s, n, it, v, []); r.who == o && Stretched(s, r.net, n, m, y, o, it)
  {
    DiamondHops(s, n, m, y, o, it);
    OrderedDistinct(it.key, n, m, y, o);
    hide Ordered, Routable, Stored, NextHop, Stretched, SubscribeTo;
    QuietForward(s, n, it, v, [], m);
    QuietForward(s, m, it, v, [] + [n], o);
    KeptHere(s, o, it, v, [] + [n] + [m]);
    Stretches(s, n, m, y, o, it, Stamp(it, v, o));
  }

  lemma SubscribesExactly(s: Network, n: NodeId, m: NodeId, it: Item)
    requires n in s && m in s && m != n && it !in s[n].subs && it !in s[n].serve
    ensures SubscribeTo(s, n, m, it) == s[m := s[m].Register(it, n)][n := s[n].Subscribe(it)]
  {
  }

  lemma Stretches(s: Network, n: NodeId, m: NodeId, y: NodeId, o: NodeId, it: Item, v: Value)
    requires s.Keys == {n, m, y, o} && it.select == Task && Blank(s, it) && Distinct(n, m, y, o)
    ensures Stretched(s, SubscribeTo(SubscribeTo(s[o := s[o].Learn(it).Keep(it, v).OpenServe(it)], m, o, it), n, m, it), n, m, y, o, it)
  {
    var a := s[o := s[o].Learn(it).Keep(it, v).OpenServe(it)];
    SubscribesExactly(a, m, o, it);
    var b := SubscribeTo(a, m, o, it);
    assert b[n] == s[n] && b[y] == s[y] && b[o].serve[it] == {m} && it in b[m].serve;
    hide SubscribeTo;
    SubscribesExactly(b, n, m, it);
    var c := SubscribeTo(b, n, m, it);
    assert c[y] == s[y] && c[o] == b[o];
    forall x ensures Holder(c, x, it) <==> x == o { StretchedHolders(s, n, m, o, it, v, x); }
  }

  lemma StretchedHolders(s: Network, n: NodeId, m: NodeId, o: NodeId, it: Item, v: Value, x: NodeId)
    requires Blank(s, it) && n in s && m in s && o in s
    ensures Holder(SubscribeTo(SubscribeTo(s[o := s[o].Learn(it).Keep(it, v).OpenServe(it)], m, o, it), n, m, it), x, it) <==> x == o
  {
    hide SubscribeTo;
  }

  // ---- The fetch ----

  lemma FirstAsked(t: Network, a: NodeId, it: Item, b: NodeId)
    requires a in t && IsNearest(it.key, t[a].addr, b)
    ensures Asks(t, a, it) != [] && Asks(t, a, it)[0] == b
  {
    NearestAskedFirst(t, a, it);
    hide Asks;
    NearestUnique(it.key, t[a].addr, b, Nearest(it.key, t[a].addr));
  }

  lemma SecondAsked(t: Network, a: NodeId, it: Item, b: NodeId, c: NodeId)
    requires a in t && IsNearest(it.key, t[a].addr, b) && IsNearest(it.key, t[a].addr - {b}, c)
    ensures |Asks(t, a, it)| > 1 && Asks(t, a, it)[0] == b && Asks(t, a, it)[1] == c
  {
    var s := t[a].addr;
    assert s - {} == s && s != {} && s - {b} != {};
    assert Asks(t, a, it) == Closest(it.key, s, 3);
    hide *;
    NearestUnique(it.key, s, b, Nearest(it.key, s));
    NearestUnique(it.key, s - {b}, c, Nearest(it.key, s - {b}));
    ClosestStep(it.key, s, 3);
    ClosestStep(it.key, s - {b}, 2);
  }

  /** A peer whose nearest peer has the entry asks that. */
  lemma OneHop(t: Network, y: NodeId, o: NodeId, it: Item, chain: seq<NodeId>)
    requires y in t && !t[y].Holds(it) && o in t && t[o].Holds(it) && o !in chain + [y] && IsNearest(it.key, t[y].addr, o)
    ensures Search(t, y, it, chain) == Some([y, o])
  {
    FirstAsked(t, y, it, o);
    hide *;
    HolderAnswers(t, o, it, chain + [y]);
    NeighborAnswers(t, Asks(t, y, it), it, chain + [y]);
    SearchHead(t, y, it, chain, [o]);
    assert [y] + [o] == [y, o];
  }

  lemma Skipped(s: Network, todo: seq<NodeId>, it: Item, chain: seq<NodeId>)
    requires todo != [] && todo[0] in chain
    ensures SearchAny(s, todo, it, chain) == SearchAny(s, todo[1..], it, chain)
  {
  }

  /** A peer whose nearest peer is on the chain asks the second nearest. */
  lemma SecondHop(t: Network, n: NodeId, m: NodeId, y: NodeId, it: Item, chain: seq<NodeId>, q: seq<NodeId>)
    requires n in t && !t[n].Holds(it) && m in chain + [n] && y in t && y !in chain + [n]
    requires IsNearest(it.key, t[n].addr, m) && IsNearest(it.key, t[n].addr - {m}, y)
    requires Search(t, y, it, chain + [n]) == Some(q)
    ensures Search(t, n, it, chain) == Some([n] + q)
  {
    SecondAsked(t, n, it, m, y);
    hide *;
    var todo := Asks(t, n, it);
    Skipped(t, todo, it, chain + [n]);
    NeighborAnswers(t, todo[1..], it, chain + [n]);
    SearchHead(t, n, it, chain, q);
  }

  /** With m on its chain, the fetch of n asks y, which asks o. */
  lemma DiamondSearch(s: Network, t: Network, n: NodeId, m: NodeId, y: NodeId, o: NodeId, it: Item)
    requires Diamond(s, n, m, y, o, it) && Stretched(s, t, n, m, y, o, it)
    ensures Search(t, n, it, [m]) == Some([n, y, o])
  {
    hide *;
    DiamondTables(s, n, m, y, o, it);
    OrderedDistinct(it.key, n, m, y, o);
    SetsOff(n, m, y, o);
    StretchedTables(s, t, n, m, y, o, it);
    OffChain(n, m, y, o);
    OwnerNearest(it.key, t[y].addr, n, m, y, o);
    OneHop(t, y, o, it, [m] + [n]);
    SecondHop(t, n, m, y, it, [m], [y, o]);
    assert [n] + [y, o] == [n, y, o];
  }

  lemma StretchedTables(s: Network, t: Network, n: NodeId, m: NodeId, y: NodeId, o: NodeId, it: Item)
    requires Stretched(s, t, n, m, y, o, it) && Distinct(n, m, y, o)
    ensures t[n].addr == s[n].addr && t[y].addr == s[y].addr && !t[n].Holds(it) && !t[y].Holds(it) && t[o].Holds(it)
    ensures n in t && y in t && o in t
  {
    assert !Holder(t, n, it) && !Holder(t, y, it) && Holder(t, o, it);
  }

  lemma OffChain(n: NodeId, m: NodeId, y: NodeId, o: NodeId)
    requires Distinct(n, m, y, o)
    ensures o !in [m] + [n] + [y] && y !in [m] + [n] && m in [m] + [n]
  {
  }

  // ---- What it leaves ----

  lemma ThreePath(s: Network, n: NodeId, y: NodeId, o: NodeId, it: Item, v: Value)
    requires n in s && y in s && o in s
    ensures CacheAlong(s, [n, y, o], it, v) == CacheFrom(CacheFrom(s, y, o, it, v), n, y, it, v)
  {
    assert CacheAlong(s, [o], it, v) == s;
    hide CacheFrom, CacheAlong;
    assert [n, y, o][1..] == [y, o] && [y, o][1..] == [o];
    CacheAlongStep(s, [n, y, o], it, v);
    CacheAlongStep(s, [y, o], it, v);
  }

  /** y copies the entry from o and n from y: n is registered with neither. */
  lemma CutOff(s: Network, n: NodeId, y: NodeId, o: NodeId, it: Item, v: Value)
    requires n in s && y in s && o in s && n != y && n != o && y != o && it.select == Task
    requires (forall a :: Holder(s, a, it) <==> a == o) && it in s[n].subs && it !in s[y].subs && it !in s[y].serve
    requires it in s[o].serve && n !in s[o].serve[it]
    ensures var t := CacheFrom(CacheFrom(s, y, o, it, v), n, y, it, v); Holder(t, n, it) && n !in Reached(t, o, it)
  {
    assert !Holder(s, n, it) && !Holder(s, y, it);
    var u := CacheFrom(s, y, o, it, v);
    CopyRegisters(s, y, o, it, v);
    NewHolders(s, o, it, y, o, v);
    var t := CacheFrom(u, n, y, it, v);
    CopyOnly(u, n, y, it, v);
    NewHolders(u, o, it, n, y, v);
    hide CacheFrom;
    assert Closed(t, {o, y}, it);
    ReachedLeast(t, o, {o, y}, it);
  }

  lemma CopyRegisters(s: Network, y: NodeId, o: NodeId, it: Item, v: Value)
    requires y in s && o in s && y != o && it.select == Task && !Holder(s, y, it) && it !in s[y].subs && it !in s[y].serve && it in s[o].serve
    ensures var u := CacheFrom(s, y, o, it, v);
      && it in u[y].serve && u[y].serve[it] == {} && it in u[o].serve && u[o].serve[it] == s[o].serve[it] + {y}
      && forall a :: a in s && a != y ==> u[a].subs == s[a].subs
  {
    CachedThenSubscribed(s, y, o, it, v);
    var t := s[y := s[y].PutCached(it, v)];
    SubscribesExactly(t, y, o, it);
    hide CacheFrom, SubscribeTo;
  }

  lemma CopyOnly(u: Network, n: NodeId, y: NodeId, it: Item, v: Value)
    requires n in u && y in u && it.select == Task && !Holder(u, n, it) && it in u[n].subs
    ensures var t := CacheFrom(u, n, y, it, v); forall a :: a in u ==> t[a].serve == u[a].serve
  {
    CachedThenSubscribed(u, n, y, it, v);
    hide CacheFrom;
  }

  /** A copy got past the way is cut off from the owner. */
  lemma DiamondCuts(s: Network, n: NodeId, m: NodeId, y: NodeId, o: NodeId, it: Item, v: Value)
    requires Diamond(s, n, m, y, o, it)
    ensures n in s
    ensures var r := Stored(s, n, it, v, []); var t := Fetched(r.net, n, it, [m]).1;
      r.who == o && Holder(t, n, it) && n !in Reached(t, o, it)
  {
    DiamondStored(s, n, m, y, o, it, v);
    DiamondTables(s, n, m, y, o, it);
    OrderedDistinct(it.key, n, m, y, o);
    hide *;
    StretchedCuts(s, Stored(s, n, it, v, []).net, n, m, y, o, it);
  }

  lemma StretchedCuts(s: Network, t: Network, n: NodeId, m: NodeId, y: NodeId, o: NodeId, it: Item)
    requires Diamond(s, n, m, y, o, it) && Stretched(s, t, n, m, y, o, it) && Distinct(n, m, y, o) && it.select == Task
    ensures n in t
    ensures var u := Fetched(t, n, it, [m]).1; Holder(u, n, it) && n !in Reached(u, o, it)
  {
    DiamondSearch(s, t, n, m, y, o, it);
    hide Diamond, Search, CacheFrom, CacheAlong, Reached, Fetched, Elems;
    FetchedPath(t, n, it, [m], [n, y, o]);
    ThreePath(t, n, y, o, it, t[o].data[it]);
    CutOff(t, n, y, o, it, t[o].data[it]);
  }

  lemma FetchedPath(t: Network, n: NodeId, it: Item, chain: seq<NodeId>, p: seq<NodeId>)
    requires n in t && Search(t, n, it, chain) == Some(p)
    ensures Ends(t, p, it) && Fetched(t, n, it, chain).1 == CacheAlong(t, p, it, t[p[|p| - 1]].data[it])
  {
    hide *;
    SearchDecides(t, n, it, chain);
    PathFetched(t, n, it, chain, p);
  }

  lemma PathFetched(t: Network, n: NodeId, it: Item, chain: seq<NodeId>, p: seq<NodeId>)
    requires n in t && Search(t, n, it, chain) == Some(p) && Ends(t, p, it)
    ensures Fetched(t, n, it, chain).1 == CacheAlong(t, p, it, t[p[|p| - 1]].data[it])
  {
    hide Search, CacheAlong, Ends;
  }
}

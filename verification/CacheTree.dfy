/**
 * The copies of one entry and the registrations between them.  Whatever values the copies have, they
 * form a tree below the owner: fetches and stores add to it, and a deletion cuts off a branch.
 */
module CacheTree {
  import opened Metric
  import opened Wrappers
  import opened Dht
  import opened Deletion
  import opened Fetch
  import opened Placement
  import opened Store

  /** What the tables of one peer say about the entry owned by o. */
  ghost predicate Coherent(s: Network, a: NodeId, o: NodeId, it: Item)
    requires a in s
  {
    if it in s[a].data then
      && it in s[a].serve && o !in s[a].serve[it]
      && (a != o ==> it in s[a].cached)
    else
      it !in s[a].cached && it !in s[a].serve && it !in s[a].subs
  }

  /** o owns the entry, and all copies hang on it by registrations. */
  ghost predicate Tree(s: Network, o: NodeId, it: Item) {
    && o in s && s[o].Owns(it)
    && (forall a :: a in s ==> Coherent(s, a, o, it))
    && (forall a :: Holder(s, a, it) ==> a in Reached(s, o, it))
  }

  /** Every copy has one of the given values. */
  ghost predicate Within(s: Network, it: Item, vals: set<Value>) {
    forall a :: Holder(s, a, it) ==> s[a].data[it] in vals
  }

  // ---- One caching step ----

  lemma CacheEdges(s: Network, o: NodeId, it: Item, n: NodeId, up: NodeId, v: Value)
    requires Tree(s, o, it) && n in s && !Holder(s, n, it) && Holder(s, up, it)
    ensures var t := CacheFrom(s, n, up, it, v);
      && (forall x :: Holder(s, x, it) ==> Holder(t, x, it))
      && (forall x, y :: Edge(s, x, y, it) ==> Edge(t, x, y, it))
      && Edge(t, up, n, it)
  {
    assert Coherent(s, n, o, it) && Coherent(s, up, o, it);
    var t := CacheFrom(s, n, up, it, v);
    assert up != n;
    assert t[up].serve[it] == s[up].serve[it] + {n};
  }

  lemma CacheNew(s: Network, o: NodeId, it: Item, n: NodeId, up: NodeId, v: Value)
    requires Tree(s, o, it) && n in s && !Holder(s, n, it) && Holder(s, up, it)
    ensures var t := CacheFrom(s, n, up, it, v);
      Tree(t, o, it) && Holder(t, n, it) && t[o].data[it] == s[o].data[it]
  {
    var t := CacheFrom(s, n, up, it, v);
    CacheEdges(s, o, it, n, up, v);
    NewCoherent(s, o, it, n, up, v);
    NewHolders(s, o, it, n, up, v);
    hide Coherent, CacheFrom, Edge;
    ReachedMonotone(s, t, o, it);
    ReachedClosed(s, o, it);
    ReachesStep(t, o, up, n, it);
  }

  lemma NewCoherent(s: Network, o: NodeId, it: Item, n: NodeId, up: NodeId, v: Value)
    requires Tree(s, o, it) && n in s && !Holder(s, n, it) && Holder(s, up, it)
    ensures forall a :: a in s ==> Coherent(CacheFrom(s, n, up, it, v), a, o, it)
  {
    hide Reached, CacheFrom;
    forall a | a in s ensures Coherent(CacheFrom(s, n, up, it, v), a, o, it) {
      assert Coherent(s, a, o, it) && Coherent(s, n, o, it) && Coherent(s, up, o, it);
      hide Tree;
      NewCoherentAt(s, o, it, n, up, v, a);
    }
  }

  lemma NewCoherentAt(s: Network, o: NodeId, it: Item, n: NodeId, up: NodeId, v: Value, a: NodeId)
    requires a in s && n in s && up in s && !Holder(s, n, it) && Holder(s, up, it) && Holder(s, o, it)
    requires Coherent(s, a, o, it) && Coherent(s, n, o, it) && Coherent(s, up, o, it)
    ensures Coherent(CacheFrom(s, n, up, it, v), a, o, it)
  {
  }

  lemma NewHolders(s: Network, o: NodeId, it: Item, n: NodeId, up: NodeId, v: Value)
    requires n in s && up in s
    ensures var t := CacheFrom(s, n, up, it, v);
      && (forall a :: Holder(t, a, it) <==> Holder(s, a, it) || a == n)
      && (forall a :: Holder(s, a, it) && a != n ==> t[a].data[it] == s[a].data[it])
      && t[n].data[it] == v && (s[n].Owns(it) ==> t[n].Owns(it))
      && (forall a :: a in s && a != n ==> (s[a].Owns(it) <==> t[a].Owns(it)))
  {
  }

  /** A peer that caches a value from a holder joins the tree, or already is in it. */
  lemma {:induction false} CacheKeepsTree(s: Network, o: NodeId, it: Item, n: NodeId, up: NodeId, v: Value)
    requires Tree(s, o, it) && n in s && n != o && Holder(s, up, it)
    ensures var t := CacheFrom(s, n, up, it, v); Tree(t, o, it) && t[o].data[it] == s[o].data[it]
  {
    NewHolders(s, o, it, n, up, v);
    hide Reached;
    if !Holder(s, n, it) {
      CacheNew(s, o, it, n, up, v);
    } else {
      assert Coherent(s, n, o, it);
      SameTree(s, CacheFrom(s, n, up, it, v), o, it);
    }
  }

  /** The tree of an entry depends neither on its values nor on address tables or other entries. */
  lemma SameTree(s: Network, t: Network, o: NodeId, it: Item)
    requires Tree(s, o, it) && s.Keys == t.Keys
    requires forall a :: a in s ==> (it in s[a].data <==> it in t[a].data) && (it in s[a].serve <==> it in t[a].serve)
    requires forall a :: a in s ==> (it in s[a].cached <==> it in t[a].cached)
    requires forall a :: a in s && it in s[a].serve ==> s[a].serve[it] == t[a].serve[it]
    requires forall a :: a in s && it in t[a].subs ==> it in s[a].subs
    ensures Tree(t, o, it)
  {
    ReachedMonotone(s, t, o, it);
    forall a | a in t ensures Coherent(t, a, o, it) { assert Coherent(s, a, o, it); }
    forall a | Holder(t, a, it) ensures a in Reached(t, o, it) { assert Holder(s, a, it); }
  }

  // ---- Fetch ----

  /** Off the given path the holders are the same. */
  ghost predicate SameOff(s: Network, t: Network, p: seq<NodeId>, it: Item) {
    forall a :: a !in p ==> (Holder(t, a, it) <==> Holder(s, a, it))
  }

  /** t comes from s by caching along p: the tree, its root's value and the holders off p stay. */
  ghost predicate CachedAlong(s: Network, t: Network, o: NodeId, p: seq<NodeId>, it: Item) {
    && p != [] && Tree(s, o, it) && Tree(t, o, it) && t[o].data[it] == s[o].data[it]
    && Holder(t, p[0], it) && SameOff(s, t, p, it)
  }

  lemma CacheOn(s: Network, t: Network, o: NodeId, n: NodeId, q: seq<NodeId>, it: Item, v: Value)
    requires CachedAlong(s, t, o, q, it) && n in t && n != o
    ensures q[0] in t && CachedAlong(s, CacheFrom(t, n, q[0], it, v), o, [n] + q, it)
  {
    var u := CacheFrom(t, n, q[0], it, v);
    HolderIn(t, q[0], it);
    NewHolders(t, o, it, n, q[0], v);
    CacheKeepsTree(t, o, it, n, q[0], v);
    hide Tree, CacheFrom, Holder;
    forall a | a !in [n] + q ensures Holder(u, a, it) <==> Holder(s, a, it) { InCons(n, q, a); }
  }

  lemma AnswerNonempty(s: Network, p: seq<NodeId>, it: Item, avoid: set<NodeId>)
    requires Answer(s, p, it, avoid)
    ensures p != []
  {
  }

  lemma {:induction false} CacheAlongKeepsTree(s: Network, o: NodeId, it: Item, p: seq<NodeId>, avoid: set<NodeId>, v: Value)
    requires Tree(s, o, it) && Answer(s, p, it, avoid) && Ends(s, p, it)
    ensures CachedAlong(s, CacheAlong(s, p, it, v), o, p, it)
    decreases |p|
  {
    hide *;
    AnswerNonempty(s, p, it, avoid);
    if |p| == 1 {
      CacheAlongOne(s, o, p, it, v);
    } else {
      AnswerTail(s, p, it, avoid);
      CacheAlongKeepsTree(s, o, it, p[1..], avoid + {p[0]}, v);
      CacheAlongStep(s, p, it, v);
      OwnerHolds(s, o, it, p[0]);
      CacheOn(s, CacheAlong(s, p[1..], it, v), o, p[0], p[1..], it, v);
      assert p == [p[0]] + p[1..];
    }
  }

  lemma HolderIn(s: Network, a: NodeId, it: Item)
    requires Holder(s, a, it)
    ensures a in s
  {
  }

  lemma OwnerHolds(s: Network, o: NodeId, it: Item, a: NodeId)
    requires Tree(s, o, it) && !Holder(s, a, it)
    ensures a != o
  {
  }

  lemma CacheAlongOne(s: Network, o: NodeId, p: seq<NodeId>, it: Item, v: Value)
    requires |p| == 1 && Ends(s, p, it) && Tree(s, o, it)
    ensures p[0] in s && CacheAlong(s, p, it, v) == s && CachedAlong(s, s, o, p, it)
  {
  }

  /** The rest of an answered path leads through other peers to the holder. */
  lemma AnswerTail(s: Network, p: seq<NodeId>, it: Item, avoid: set<NodeId>)
    requires |p| > 1 && Answer(s, p, it, avoid) && Ends(s, p, it)
    ensures Answer(s, p[1..], it, avoid + {p[0]}) && Ends(s, p[1..], it) && p[0] !in p[1..]
    ensures p[0] in s && !Holder(s, p[0], it) && p[1] == p[1..][0] && p[1..] != []
    ensures (forall x :: x in p ==> x in s) && (forall x :: x in p[1..] ==> x in s)
  {
    AnswerAvoids(s, p, it, avoid, p[0]);
    AnswerEnds(s, p[1..], it, avoid + {p[0]});
    hide Asked;
  }

  lemma CacheAlongStep(s: Network, p: seq<NodeId>, it: Item, v: Value)
    requires |p| > 1 && forall x :: x in p ==> x in s
    ensures CacheAlong(s, p, it, v) == CacheFrom(CacheAlong(s, p[1..], it, v), p[0], p[1], it, v)
  {
  }

  lemma {:induction false} CacheAlongWithin(s: Network, p: seq<NodeId>, it: Item, v: Value, vals: set<Value>)
    requires p != [] && (forall x :: x in p ==> x in s) && Within(s, it, vals) && v in vals
    ensures Within(CacheAlong(s, p, it, v), it, vals)
    decreases |p|
  {
    if |p| > 1 {
      CacheAlongWithin(s, p[1..], it, v, vals);
      CacheAlongStep(s, p, it, v);
      hide CacheAlong, CacheFrom;
      NewHolders(CacheAlong(s, p[1..], it, v), p[0], it, p[0], p[1], v);
    }
  }

  /** A fetch keeps the tree and the owner's value, and returns, and spreads, a value some copy has. */
  lemma FetchKeepsTree(s: Network, o: NodeId, it: Item, n: NodeId, chain: seq<NodeId>, vals: set<Value>)
    requires Tree(s, o, it) && n in s && Within(s, it, vals)
    ensures var (v, t) := Fetched(s, n, it, chain);
      && t.Keys == s.Keys && Tree(t, o, it) && t[o].data[it] == s[o].data[it] && Within(t, it, vals)
      && (v.Some? ==> v.value in vals)
  {
    SearchDecides(s, n, it, chain);
    var r := Search(s, n, it, chain);
    hide Search, Tree, Within, Answer, Ends, HolderReachable, Holder;
    if r.Some? { AlongKeepsTree(s, o, it, r.value, Elems(chain), vals); }
  }

  lemma AlongKeepsTree(s: Network, o: NodeId, it: Item, p: seq<NodeId>, avoid: set<NodeId>, vals: set<Value>)
    requires Tree(s, o, it) && Answer(s, p, it, avoid) && Ends(s, p, it) && Within(s, it, vals)
    ensures var (v, t) := Along(s, p, it);
      && t.Keys == s.Keys && Tree(t, o, it) && t[o].data[it] == s[o].data[it] && Within(t, it, vals)
      && v.Some? && v.value in vals
  {
    var v := s[p[|p| - 1]].data[it];
    assert Holder(s, p[|p| - 1], it);
    assert v in vals;
    CacheAlongKeepsTree(s, o, it, p, avoid, v);
    hide Tree, Within, Answer, CacheAlong, SameOff;
    CacheAlongWithin(s, p, it, v, vals);
  }

  lemma FetchOfBlank(s: Network, it: Item, n: NodeId, chain: seq<NodeId>)
    requires Blank(s, it) && n in s
    ensures Fetched(s, n, it, chain) == (None, s)
  {
    SearchDecides(s, n, it, chain);
  }

  // ---- Delete ----

  lemma DeleteAtOwner(s: Network, o: NodeId, it: Item)
    requires Tree(s, o, it)
    ensures Blank(Purge(s, Reached(s, o, it), it), it)
    ensures it.select == Peer ==> forall a :: Holder(s, a, it) ==> it.key !in Purge(s, Reached(s, o, it), it)[a].addr
  {
    ReachedClosed(s, o, it);
    forall a | a in s ensures Coherent(s, a, o, it) {}
    PurgeForgets(s, o, it);
    hide Reached;
  }

  lemma OwnerUnreached(s: Network, o: NodeId, it: Item, n: NodeId)
    requires Tree(s, o, it) && n != o
    ensures o !in Reached(s, n, it)
  {
    var x := s.Keys + {n} - {o};
    forall a, b | a in x && Edge(s, a, b, it) ensures b in x { assert Coherent(s, a, o, it); }
    ReachedLeast(s, n, x, it);
  }

  lemma PurgedCoherent(s: Network, o: NodeId, it: Item, r: set<NodeId>)
    requires Tree(s, o, it) && o !in r
    ensures var t := Purge(s, r, it);
      o in t && t[o] == s[o] && forall a :: a in t ==> Coherent(t, a, o, it)
  {
    var t := Purge(s, r, it);
    forall a | a in t ensures Coherent(t, a, o, it) { assert Coherent(s, a, o, it); }
  }

  /** Deleting elsewhere cuts off whole branches: what stays is still a tree. */
  lemma DeleteElsewhere(s: Network, o: NodeId, it: Item, n: NodeId)
    requires Tree(s, o, it) && n != o
    ensures var t := Purge(s, Reached(s, n, it), it); Tree(t, o, it) && t[o].data[it] == s[o].data[it]
  {
    hide Coherent;
    OwnerUnreached(s, o, it, n);
    ReachedClosed(s, n, it);
    PurgedCoherent(s, o, it, Reached(s, n, it));
    PurgedReached(s, o, it, Reached(s, n, it));
  }

  lemma PurgedReached(s: Network, o: NodeId, it: Item, r: set<NodeId>)
    requires Tree(s, o, it) && o !in r && Closed(s, r, it)
    ensures var t := Purge(s, r, it); forall a :: Holder(t, a, it) ==> a in Reached(t, o, it)
  {
    hide Coherent;
    var t := Purge(s, r, it);
    forall a, b ensures Edge(t, a, b, it) <==> Edge(s, a, b, it) && a !in r && b !in r { PurgeEdges(s, r, it, a, b); }
    ReachedClosed(t, o, it);
    hide Edge, Reached;
    ReachedLeast(s, o, Reached(t, o, it) + r, it);
  }

  // ---- The owner leaves ----

  /** The network after each of the peers named has been told of the deletion, in order. */
  ghost function Notified(t: Network, told: seq<NodeId>, it: Item): Network {
    if told == [] then t else Notified(Purge(t, Reached(t, told[0], it), it), told[1..], it)
  }

  /** What they purge is closed under registrations, and contains those of them that held a copy. */
  lemma {:induction false} NotifiedPurges(t: Network, told: seq<NodeId>, it: Item) returns (u: set<NodeId>)
    ensures Notified(t, told, it) == Purge(t, u, it) && Closed(t, u, it)
    ensures forall c :: c in told && Holder(t, c, it) ==> c in u
    decreases |told|
  {
    if told == [] {
      u := {};
      assert Purge(t, u, it) == t;
    } else {
      var x := Reached(t, told[0], it);
      ReachedClosed(t, told[0], it);
      var w := NotifiedPurges(Purge(t, x, it), told[1..], it);
      u := x + (w - x);
      hide Reached, Edge, Holder;
      PurgeBoth(t, x, w, it);
      assert told == [told[0]] + told[1..];
      forall c | c in told && Holder(t, c, it) ensures c in u { PurgeEdges(t, x, it, c, c); }
    }
  }

  lemma PurgeBoth(t: Network, x: set<NodeId>, w: set<NodeId>, it: Item)
    requires Closed(t, x, it) && Closed(Purge(t, x, it), w, it)
    ensures Purge(Purge(t, x, it), w, it) == Purge(t, x + (w - x), it)
    ensures Closed(t, x + (w - x), it)
  {
    forall a ensures Holder(t, a, it) || !Holder(Purge(t, x, it), a, it) {}
    PurgedTwice(t, x, w, it);
    hide Purge;
    forall a, b | a in x + (w - x) && Edge(t, a, b, it) ensures b in x + (w - x) {
      PurgeEdges(t, x, it, a, b);
    }
  }

  /** A second purge of a peer finds nothing left. */
  lemma PurgedTwice(t: Network, x: set<NodeId>, w: set<NodeId>, it: Item)
    ensures Purge(Purge(t, x, it), w, it) == Purge(t, x + (w - x), it)
  {
    forall a | a in t ensures t[a].Purged(it).Purged(it) == t[a].Purged(it) {
      if it in t[a].serve { assert t[a].serve - {it} - {it} == t[a].serve - {it}; }
    }
  }

  /** The network without a peer that has left. */
  ghost function Without(s: Network, o: NodeId): Network {
    s - {o}
  }

  lemma WithoutOwner(s: Network, o: NodeId, it: Item, a: NodeId, b: NodeId)
    ensures Holder(Without(s, o), a, it) <==> Holder(s, a, it) && a != o
    ensures Edge(Without(s, o), a, b, it) <==> Edge(s, a, b, it) && a != o && b != o
  {
  }

  /** When the owner has left and every peer that had registered with it deletes the entry, no copy
      and no trace of it is left anywhere. */
  lemma OwnerLeaves(s: Network, o: NodeId, it: Item, told: seq<NodeId>)
    requires Tree(s, o, it) && it in s[o].serve && forall c :: c in s[o].serve[it] && c in s ==> c in told
    ensures Blank(Notified(Without(s, o), told, it), it)
  {
    var t := Without(s, o);
    var u := NotifiedPurges(t, told, it);
    var x := u + {o};
    forall a, b | a in x && Edge(s, a, b, it) ensures b in x {
      WithoutOwner(s, o, it, a, b);
      WithoutOwner(s, o, it, b, b);
    }
    ReachedLeast(s, o, x, it);
    hide Reached, Notified;
    forall a | a in t ensures it !in t[a].data || (a in u && it in t[a].serve) {
      assert Coherent(s, a, o, it);
      assert Holder(s, a, it) <==> it in t[a].data;
    }
    PurgedBlank(s, o, it, u);
  }

  lemma PurgedBlank(s: Network, o: NodeId, it: Item, u: set<NodeId>)
    requires Tree(s, o, it) && forall a :: Holder(s, a, it) && a != o ==> a in u
    ensures Blank(Purge(Without(s, o), u, it), it)
  {
    hide Reached;
    forall a | a in s && a != o ensures Coherent(s, a, o, it) {}
  }

  // ---- Store ----

  /** The owner's part of a store of a peer's transport address under its own key. */
  ghost function StoreAtOwner(s: Network, it: Item, v: Value): (t: Network)
    requires it.key in s
    ensures t.Keys == s.Keys
  {
    s[it.key := s[it.key].Learn(it).Keep(it, v).OpenServe(it)]
  }

  /** A peer learns the address it is asked to store, so the next hop is that very peer. */
  lemma PeerHop(s: Network, n: NodeId, it: Item, chain: seq<NodeId>)
    requires n in s && it.select == Peer && it.key !in chain
    ensures NextHop(s, n, it, chain) == [it.key]
  {
    var c := s[n].Learn(it).addr - Elems(chain);
    HopIsNew(s, n, it, chain);
    hide Closer;
    forall x | x in c && x != it.key ensures Closer(it.key, it.key, x) { SelfIsNearest(it.key, x); }
    NearestUnique(it.key, c, it.key, NextHop(s, n, it, chain)[0]);
  }

  lemma PeerStoreAtOwner(s: Network, it: Item, v: Value, chain: seq<NodeId>)
    requires it.select == Peer && it.key in s && it.key !in chain
    ensures Stored(s, it.key, it, v, chain).net == StoreAtOwner(s, it, v)
  {
    PeerHop(s, it.key, it, chain);
  }

  /** A store of a peer's address takes at most one hop, and its starter caches from the owner. */
  lemma PeerStore(s: Network, n: NodeId, it: Item, v: Value, chain: seq<NodeId>)
    requires n in s && it.select == Peer && it.key in s && it.key !in chain && !s[n].Owns(it) && n != it.key
    ensures Stored(s, n, it, v, chain).net == CacheFrom(StoreAtOwner(s, it, v), n, it.key, it, v)
  {
    var t := s[n := s[n].Learn(it).KeepCopy(it, v)];
    PeerHop(s, n, it, chain);
    assert SetPlain(s, n, it, v, chain) == t;
    StoredForward(s, n, it, v, chain, it.key);
    hide NextHop, Stored, SubscribeTo, CacheFrom;
    PeerStoreAtOwner(t, it, v, chain + [n]);
    CacheCommutes(s, n, it, v);
  }

  lemma CacheCommutes(s: Network, n: NodeId, it: Item, v: Value)
    requires n in s && it.select == Peer && it.key in s && !s[n].Owns(it) && n != it.key
    ensures SubscribeTo(StoreAtOwner(s[n := s[n].Learn(it).KeepCopy(it, v)], it, v), n, it.key, it)
         == CacheFrom(StoreAtOwner(s, it, v), n, it.key, it, v)
  {
    var w := StoreAtOwner(s, it, v);
    assert StoreAtOwner(s[n := s[n].Learn(it).KeepCopy(it, v)], it, v) == w[n := w[n].Learn(it).PutCached(it, v)];
    hide SubscribeTo;
  }

  /** What a store of value v makes of the copies: the owner's and the starter's are v, all others stay. */
  ghost predicate StoredOver(s: Network, t: Network, n: NodeId, it: Item, v: Value) {
    && n in s && it.key in s && t.Keys == s.Keys
    && (forall a :: Holder(t, a, it) <==> Holder(s, a, it) || a == n || a == it.key)
    && (forall a :: Holder(t, a, it) ==> t[a].data[it] == if a == n || a == it.key then v else s[a].data[it])
  }

  lemma OwnerStoreTree(s: Network, it: Item, v: Value)
    requires it.key in s && (Blank(s, it) || Tree(s, it.key, it))
    ensures var t := StoreAtOwner(s, it, v);
      && Tree(t, it.key, it) && t[it.key].data[it] == v
      && StoredOver(s, t, it.key, it, v)
  {
    var o := it.key;
    var t := StoreAtOwner(s, it, v);
    if Tree(s, o, it) {
      assert Coherent(s, o, o, it);
      SameTree(s, t, o, it);
    } else {
      OwnerAlone(s, t, o, it);
    }
  }

  /** One owner and nobody else is a tree. */
  lemma OwnerAlone(s: Network, t: Network, o: NodeId, it: Item)
    requires Blank(s, it) && o in s && s.Keys == t.Keys && (forall a :: a in s && a != o ==> t[a] == s[a])
    requires t[o].Owns(it) && it in t[o].serve && o !in t[o].serve[it]
    ensures Tree(t, o, it)
  {
    ReachesSelf(t, o, it);
    forall a | a in t ensures Coherent(t, a, o, it) {}
  }

  /** A store of a peer's address, whatever values its copies have, keeps the tree. */
  lemma PeerStoreTree(s: Network, n: NodeId, it: Item, v: Value, chain: seq<NodeId>)
    requires n in s && it.select == Peer && it.key in s && it.key !in chain && (Blank(s, it) || Tree(s, it.key, it))
    ensures var t := Stored(s, n, it, v, chain).net; Tree(t, it.key, it) && StoredOver(s, t, n, it, v)
  {
    var o := it.key;
    OwnerStoreTree(s, it, v);
    if n == o {
      PeerStoreAtOwner(s, it, v, chain);
      hide Tree, Blank, Stored;
    } else {
      assert !s[n].Owns(it) by { if !Blank(s, it) { assert Coherent(s, n, o, it); } }
      PeerStore(s, n, it, v, chain);
      hide *;
      StoreAndCache(s, StoreAtOwner(s, it, v), n, it, v);
    }
  }

  lemma StoreAndCache(s: Network, w: Network, n: NodeId, it: Item, v: Value)
    requires Tree(w, it.key, it) && StoredOver(s, w, it.key, it, v) && n in s && n != it.key
    ensures it.key in w && n in w && Tree(CacheFrom(w, n, it.key, it, v), it.key, it) && StoredOver(s, CacheFrom(w, n, it.key, it, v), n, it, v)
  {
    TreeOwner(w, it.key, it);
    CacheKeepsTree(w, it.key, it, n, it.key, v);
    NewHolders(w, it.key, it, n, it.key, v);
    hide Tree, CacheFrom;
  }

  lemma TreeOwner(s: Network, o: NodeId, it: Item)
    requires Tree(s, o, it)
    ensures Holder(s, o, it) && it in s[o].serve && s[o].Owns(it)
  {
    assert Coherent(s, o, o, it);
  }
}

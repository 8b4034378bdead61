/**
 * The copies of a task or a file hang on its owner.  The peers that passed the store on hold nothing,
 * but each is already registered at its next hop; a fetch that comes to one of them follows the way of
 * the store, so every copy it leaves is registered with another copy.
 */
module TaskTree {
  import opened Metric
  import opened Wrappers
  import opened Dht
  import opened Deletion
  import opened Fetch
  import opened Placement
  import opened Store
  import opened CacheTree
  import opened Coherence
  import opened Durability

  /** Peer a has passed the store on to the nearest peer it knows, which serves it. */
  ghost predicate PassedOn(s: Network, a: NodeId, o: NodeId, it: Item, w: set<NodeId>)
    requires a in s
  {
    && s[a].addr != {}
    && var m := Nearest(it.key, s[a].addr);
    && m in s && (m in w || m == o) && Closer(it.key, m, a)
    && it in s[m].serve && a in s[m].serve[it]
  }

  /** What peer a has of the entry of o when the peers of w have passed it on. */
  ghost predicate Fits(s: Network, a: NodeId, o: NodeId, it: Item, w: set<NodeId>)
    requires a in s
  {
    if a in w then it in s[a].subs && it in s[a].serve && PassedOn(s, a, o, it, w)
    else if s[a].Holds(it) then it in s[a].serve
    else it !in s[a].serve && it !in s[a].subs
  }

  /** o owns the entry, the peers of w have passed it on, and every copy is registered, from copy to
      copy, with the owner. */
  ghost predicate Hanging(s: Network, o: NodeId, it: Item, w: set<NodeId>) {
    && o in s && o !in w && s[o].Owns(it)
    && (forall a :: a in s ==> Fits(s, a, o, it, w))
    && (forall a :: Holder(s, a, it) ==> a in Reached(s, o, it))
  }

  // ---- The first store ----

  lemma AloneHangs(s: Network, o: NodeId, it: Item, v: Value)
    requires Blank(s, it) && o in s
    ensures Hanging(s[o := s[o].Learn(it).Keep(it, v).OpenServe(it)], o, it, {})
  {
    ReachesSelf(s[o := s[o].Learn(it).Keep(it, v).OpenServe(it)], o, it);
  }

  lemma JoinsWay(s: Network, o: NodeId, it: Item, w: set<NodeId>, n: NodeId, m: NodeId)
    requires Hanging(s, o, it, w) && n in s && m in s && n !in w && !Holder(s, n, it) && (m in w || m == o)
    requires s[n].addr != {} && Nearest(it.key, s[n].addr) == m && Closer(it.key, m, n) && m != n
    ensures Hanging(SubscribeTo(s, n, m, it), o, it, w + {n})
  {
    var t := SubscribeTo(s, n, m, it);
    hide *;
    FreeToJoin(s, o, it, w, n, m);
    Subscribes(s, n, m, it);
    forall a | a in t ensures Fits(t, a, o, it, w + {n}) { FitsStill(s, t, a, o, it, w, n, m); }
    HangsStill(s, t, o, it, w, n);
  }

  lemma HangsStill(s: Network, t: Network, o: NodeId, it: Item, w: set<NodeId>, n: NodeId)
    requires Hanging(s, o, it, w) && Registered(s, t, it, n) && !Holder(s, n, it)
    requires forall a :: a in t ==> Fits(t, a, o, it, w + {n})
    requires forall a :: a in s ==> t[a].cached == s[a].cached
    ensures Hanging(t, o, it, w + {n})
  {
    hide Fits, Reached;
    forall a ensures Holder(t, a, it) <==> Holder(s, a, it) {}
    forall x, y ensures Edge(s, x, y, it) ==> Edge(t, x, y, it) {}
    hide Edge, Registered;
    ReachedMonotone(s, t, o, it);
  }

  lemma FreeToJoin(s: Network, o: NodeId, it: Item, w: set<NodeId>, n: NodeId, m: NodeId)
    requires Hanging(s, o, it, w) && n in s && m in s && n !in w && !Holder(s, n, it) && (m in w || m == o)
    ensures it !in s[n].subs && it !in s[n].serve && it in s[m].serve
  {
    assert Fits(s, n, o, it, w) && Fits(s, m, o, it, w);
    hide PassedOn, Reached;
  }

  /** n registers at m, and nothing else changes. */
  lemma Subscribes(s: Network, n: NodeId, m: NodeId, it: Item)
    requires n in s && m in s && m != n && it !in s[n].subs && it !in s[n].serve && it in s[m].serve
    ensures var t := SubscribeTo(s, n, m, it);
      && it in t[n].subs && it in t[n].serve && it in t[m].serve && n in t[m].serve[it]
      && Registered(s, t, it, n) && forall a :: a in s ==> t[a].cached == s[a].cached
  {
  }

  /** Nobody but n gains or loses tables of the entry, and no registration is lost. */
  ghost predicate Registered(s: Network, t: Network, it: Item, n: NodeId) {
    && s.Keys == t.Keys
    && (forall a :: a in s ==> t[a].data == s[a].data && t[a].addr == s[a].addr)
    && (forall a :: a in s && a != n ==> (it in t[a].serve <==> it in s[a].serve) && (it in t[a].subs <==> it in s[a].subs))
    && (forall a :: a in s && it in s[a].serve ==> it in t[a].serve && s[a].serve[it] <= t[a].serve[it])
  }

  lemma FitsStill(s: Network, t: Network, a: NodeId, o: NodeId, it: Item, w: set<NodeId>, n: NodeId, m: NodeId)
    requires Hanging(s, o, it, w) && a in s && n in s && n !in w && Registered(s, t, it, n)
    requires it in t[n].subs && it in t[n].serve && m in t && it in t[m].serve && n in t[m].serve[it]
    requires s[n].addr != {} && Nearest(it.key, s[n].addr) == m && Closer(it.key, m, n) && (m in w || m == o)
    ensures Fits(t, a, o, it, w + {n})
  {
    hide Reached, Closer, Nearest;
    assert Fits(s, a, o, it, w);
    if a in w { assert PassedOn(t, a, o, it, w + {n}); }
    if a == n { assert PassedOn(t, n, o, it, w + {n}); }
  }

  lemma NextIsNearest(s: Network, n: NodeId, it: Item, chain: seq<NodeId>, m: NodeId)
    requires n in s && Routable(s, it) && Approaching(chain, n, it) && (it.select == Task || it.select == File)
    requires NextHop(s, n, it, chain) == [m]
    ensures s[n].addr != {} && Nearest(it.key, s[n].addr) == m
  {
    hide NextHop, Closer, Approaching, Routable;
    GreedyHop(s, n, it, chain);
    NearestUnique(it.key, s[n].addr, m, Nearest(it.key, s[n].addr));
  }

  /** After a first store its owner is alone with a copy, and the peers that passed it on are registered. */
  lemma {:induction false} FirstStoreHangs(s: Network, n: NodeId, it: Item, v: Value, chain: seq<NodeId>)
    requires n in s && Blank(s, it) && Routable(s, it) && Approaching(chain, n, it) && (it.select == Task || it.select == File)
    ensures var r := Stored(s, n, it, v, chain); Hanging(r.net, r.who, it, Elems(Way(s, n, it, chain)))
    decreases Unvisited(s, Elems(chain) + {n})
  {
    hide *;
    var m := NextPeer(s, n, it, chain);
    if m == n {
      KeptHere(s, n, it, v, chain);
      WayEnds(s, n, it, chain);
      NoElems();
      AloneHangs(s, n, it, Stamp(it, v, n));
    } else {
      FirstStoreHangs(s, m, it, v, chain + [n]);
      FirstStoreTraces(s, m, it, v, chain + [n]);
      StoreLeavesOneCopy(s, m, it, v, chain + [n]);
      NextIsNearest(s, n, it, chain, m);
      QuietForward(s, n, it, v, chain, m);
      WayStep(s, n, it, chain, m);
      WayBegins(s, m, it, v, chain + [n]);
      PassingOn(s, n, it, v, m, Stored(s, m, it, v, chain + [n]), Way(s, m, it, chain + [n]));
    }
  }

  lemma NoElems()
    ensures Elems([]) == {}
  {
  }

  lemma PassingOn(s: Network, n: NodeId, it: Item, v: Value, m: NodeId, r: Outcome<NodeId>, way: seq<NodeId>)
    requires n in s && m in s && m != n && OneCopy(s, it, v, r) && Hanging(r.net, r.who, it, Elems(way))
    requires Traced(r.net, way, it, r.who) && Onward(way + [r.who], m, it) && (m in Elems(way) || m == r.who)
    requires s[n].addr != {} && Nearest(it.key, s[n].addr) == m && Closer(it.key, m, n)
    ensures Hanging(SubscribeTo(r.net, n, m, it), r.who, it, Elems([n] + way))
  {
    hide Hanging, Closer, Traced, Onward;
    ElemsPrepend(n, way);
    FarFromWay(r.net, n, it, m, way, r.who);
    JoinsWay(r.net, r.who, it, Elems(way), n, m);
  }

  lemma ElemsPrepend(n: NodeId, way: seq<NodeId>)
    ensures Elems([n] + way) == Elems(way) + {n}
  {
    forall x ensures x in [n] + way <==> x == n || x in way { InCons(n, way, x); }
  }

  /** n is not on the way from m on, and has nothing. */
  lemma FarFromWay(t: Network, n: NodeId, it: Item, m: NodeId, way: seq<NodeId>, o: NodeId)
    requires m != n && Closer(it.key, m, n) && n in t && Traced(t, way, it, o) && Onward(way + [o], m, it)
    ensures !Holder(t, n, it) && n !in way && n != o
  {
    hide Traced;
    OnwardStep(way + [o], n, m, it);
    hide Onward, Closer;
    InAppend(way, o, n);
    OneTraced(t, way, it, o, n);
  }

  lemma OneTraced(t: Network, way: seq<NodeId>, it: Item, o: NodeId, n: NodeId)
    requires Traced(t, way, it, o) && n in t && n != o
    ensures !Holder(t, n, it)
  {
  }

  /** The way begins at the peer the store starts at, unless that owns the value at once. */
  lemma WayBegins(s: Network, n: NodeId, it: Item, v: Value, chain: seq<NodeId>)
    requires n in s && Routable(s, it) && Approaching(chain, n, it) && (it.select == Task || it.select == File)
    ensures n in Elems(Way(s, n, it, chain)) || n == Stored(s, n, it, v, chain).who
  {
    hide *;
    var m := NextPeer(s, n, it, chain);
    if m == n {
      KeptHere(s, n, it, v, chain);
    } else {
      WayStep(s, n, it, chain, m);
      ElemsPrepend(n, Way(s, m, it, chain + [n]));
    }
  }

  // ---- A fetch follows the way ----

  /** From a peer that passed the store on, the path goes to its next hop. */
  ghost predicate Follows(s: Network, p: seq<NodeId>, it: Item, w: set<NodeId>) {
    forall i :: 0 <= i < |p| - 1 && p[i] in w ==> p[i] in s && s[p[i]].addr != {} && p[i + 1] == Nearest(it.key, s[p[i]].addr)
  }

  /** The chain does not name the owner or a peer of the way, unless n is one, and then only farther ones. */
  ghost predicate Clear(chain: seq<NodeId>, n: NodeId, o: NodeId, it: Item, w: set<NodeId>) {
    forall c :: c in chain && (c in w || c == o) ==> (n in w || n == o) && Closer(it.key, n, c)
  }

  ghost predicate Off(chain: seq<NodeId>, o: NodeId, w: set<NodeId>) {
    forall c :: c in chain ==> c !in w && c != o
  }

  lemma FollowsCons(s: Network, n: NodeId, q: seq<NodeId>, it: Item, w: set<NodeId>)
    requires Follows(s, q, it, w) && q != []
    requires n in w ==> n in s && s[n].addr != {} && q[0] == Nearest(it.key, s[n].addr)
    ensures Follows(s, [n] + q, it, w)
  {
    hide Nearest;
    var p := [n] + q;
    forall i | 0 <= i < |p| - 1 && p[i] in w ensures p[i] in s && s[p[i]].addr != {} && p[i + 1] == Nearest(it.key, s[p[i]].addr) {
      if i > 0 { assert p[i] == q[i - 1] && p[i + 1] == q[i]; }
    }
  }

  /** A peer asks the nearest peer it knows first. */
  lemma NearestAskedFirst(s: Network, n: NodeId, it: Item)
    requires n in s && s[n].addr != {}
    ensures Asks(s, n, it) != [] && Asks(s, n, it)[0] == Nearest(it.key, s[n].addr)
  {
    assert s[n].addr - {} == s[n].addr;
    ClosestStep(it.key, s[n].addr, 3);
    hide Closest, Nearest;
  }

  /** On the way the chain only names farther peers of it, so the next hop is new. */
  lemma NextIsNew(s: Network, n: NodeId, o: NodeId, it: Item, w: set<NodeId>, chain: seq<NodeId>)
    requires Hanging(s, o, it, w) && n in s && n in w && Clear(chain, n, o, it, w)
    ensures s[n].addr != {}
    ensures var m := Nearest(it.key, s[n].addr);
      m in s && m !in chain + [n] && (m in w || m == o) && Clear(chain + [n], m, o, it, w)
  {
    assert PassedOn(s, n, o, it, w) by { assert Fits(s, n, o, it, w); hide PassedOn, Reached; }
    hide Hanging, Fits;
    var m := Nearest(it.key, s[n].addr);
    hide Nearest;
    CloserTotal(it.key, n, m);
    InAppend(chain, n, m);
    forall c | c in chain + [n] && (c in w || c == o) ensures Closer(it.key, m, c) {
      InAppend(chain, n, c);
      if c != n { CloserTransitive(it.key, m, n, c); }
    }
    CloserTotal(it.key, m, m);
    hide Closer;
  }

  lemma OffAppend(chain: seq<NodeId>, n: NodeId, o: NodeId, w: set<NodeId>)
    requires Off(chain, o, w) && n !in w && n != o
    ensures Off(chain + [n], o, w)
  {
    forall c | c in chain + [n] ensures c !in w && c != o { InAppend(chain, n, c); }
  }

  lemma OffIsClear(chain: seq<NodeId>, n: NodeId, o: NodeId, it: Item, w: set<NodeId>)
    requires Off(chain, o, w)
    ensures Clear(chain, n, o, it, w)
  {
    hide Closer;
  }

  lemma ClearIsOff(chain: seq<NodeId>, n: NodeId, o: NodeId, it: Item, w: set<NodeId>)
    requires Clear(chain, n, o, it, w) && n !in w && n != o
    ensures Off(chain, o, w)
  {
    hide Closer;
  }

  lemma OwnerHoldsIt(s: Network, o: NodeId, it: Item, w: set<NodeId>)
    requires Hanging(s, o, it, w)
    ensures o in s && s[o].Holds(it) && o !in w
  {
  }

  /** A search that has not passed the way leads along it from the peer at which it meets it, and then
      cannot fail. */
  lemma {:induction false} SearchFollows(s: Network, n: NodeId, it: Item, chain: seq<NodeId>, o: NodeId, w: set<NodeId>)
    requires Hanging(s, o, it, w) && n in s && Clear(chain, n, o, it, w)
    ensures var r := Search(s, n, it, chain);
      && (r.Some? ==> r.value != [] && r.value[0] == n && Follows(s, r.value, it, w))
      && (n in w ==> r.Some?)
    decreases Unvisited(s, Elems(chain) + {n}), 1, 0
  {
    hide Hanging, Follows, Clear, Off, Asks, Nearest;
    SearchSound(s, n, it, chain);
    if s[n].Holds(it) {
      Single(s, n, it, w);
      HolderAnswers(s, n, it, chain);
    } else {
      OwnerHoldsIt(s, o, it, w);
      ElemsAppend(chain, n);
      if n in w {
        NextIsNew(s, n, o, it, w, chain);
        NearestAskedFirst(s, n, it);
        var m := Nearest(it.key, s[n].addr);
        StepShrinks(s, chain, n, m);
        SearchFollows(s, m, it, chain + [n], o, w);
        if m == o { HolderAnswers(s, o, it, chain + [n]); }
        NeighborAnswers(s, Asks(s, n, it), it, chain + [n]);
        var q := Search(s, m, it, chain + [n]).value;
        SearchHead(s, n, it, chain, q);
        FollowsCons(s, n, q, it, w);
      } else {
        ClearIsOff(chain, n, o, it, w);
        OffAppend(chain, n, o, w);
        AnyFollows(s, Asks(s, n, it), it, chain + [n], o, w);
        var r := SearchAny(s, Asks(s, n, it), it, chain + [n]);
        if r.Some? {
          SearchHead(s, n, it, chain, r.value);
          FollowsCons(s, n, r.value, it, w);
        }
      }
    }
  }

  lemma Single(s: Network, n: NodeId, it: Item, w: set<NodeId>)
    requires n in s && s[n].Holds(it)
    ensures Follows(s, [n], it, w)
  {
  }

  lemma HolderAnswers(s: Network, n: NodeId, it: Item, chain: seq<NodeId>)
    requires n in s && s[n].Holds(it)
    ensures Search(s, n, it, chain) == Some([n])
  {
  }

  lemma {:induction false} AnyFollows(s: Network, todo: seq<NodeId>, it: Item, chain: seq<NodeId>, o: NodeId, w: set<NodeId>)
    requires Hanging(s, o, it, w) && Off(chain, o, w)
    ensures var r := SearchAny(s, todo, it, chain); r.Some? ==> r.value != [] && Follows(s, r.value, it, w)
    decreases Unvisited(s, Elems(chain)), 0, |todo|
  {
    hide Hanging, Follows, Clear, Off;
    if todo != [] {
      if todo[0] !in chain && todo[0] in s {
        VisitShrinks(s, Elems(chain), todo[0]);
        OffIsClear(chain, todo[0], o, it, w);
        SearchFollows(s, todo[0], it, chain, o, w);
      }
      AnyFollows(s, todo[1..], it, chain, o, w);
    }
  }

  // ---- A fetch hangs copies on ----

  /** t is s with a copy at n, which is registered with up. */
  ghost predicate Copied(s: Network, t: Network, it: Item, n: NodeId, up: NodeId) {
    && s.Keys == t.Keys && n in s && up in s && n != up
    && (forall a :: a in s ==> t[a].addr == s[a].addr && (it in t[a].subs <==> it in s[a].subs || a == n))
    && (forall a :: a in s && a != n ==> t[a].data == s[a].data && t[a].cached == s[a].cached)
    && (forall a :: a in s ==> (it in t[a].serve <==> it in s[a].serve || a == n))
    && (forall a :: a in s && it in s[a].serve ==> s[a].serve[it] <= t[a].serve[it])
    && it in t[n].data && it in t[up].serve && n in t[up].serve[it]
  }

  lemma Copies(s: Network, n: NodeId, up: NodeId, it: Item, v: Value)
    requires n in s && up in s && n != up && it.select != Peer && !Holder(s, n, it) && it in s[up].serve
    requires if it in s[n].subs then it in s[n].serve && n in s[up].serve[it] else it !in s[n].serve
    ensures Copied(s, CacheFrom(s, n, up, it, v), it, n, up)
  {
    var t := s[n := s[n].PutCached(it, v)];
    CachedThenSubscribed(s, n, up, it, v);
    hide CacheFrom, Copied;
    if it in s[n].subs { CopiedOnly(s, n, up, it, t[n]); } else { CopiedAnew(s, n, up, it, t[n]); }
  }

  lemma CachedThenSubscribed(s: Network, n: NodeId, up: NodeId, it: Item, v: Value)
    requires n in s && up in s && it.select != Peer && !Holder(s, n, it)
    ensures CacheFrom(s, n, up, it, v) == SubscribeTo(s[n := s[n].PutCached(it, v)], n, up, it)
  {
    hide SubscribeTo;
  }

  /** b is a but for a copy of the entry. */
  ghost predicate WithCopy(a: NodeState, b: NodeState, it: Item) {
    it in b.data && b.addr == a.addr && b.subs == a.subs && b.serve == a.serve
  }

  lemma CopiedOnly(s: Network, n: NodeId, up: NodeId, it: Item, b: NodeState)
    requires n in s && up in s && n != up && it in s[n].subs && it in s[n].serve && it in s[up].serve && n in s[up].serve[it]
    requires WithCopy(s[n], b, it)
    ensures Copied(s, SubscribeTo(s[n := b], n, up, it), it, n, up)
  {
    assert SubscribeTo(s[n := b], n, up, it) == s[n := b];
    hide SubscribeTo;
  }

  lemma CopiedAnew(s: Network, n: NodeId, up: NodeId, it: Item, b: NodeState)
    requires n in s && up in s && n != up && it !in s[n].subs && it !in s[n].serve && it in s[up].serve
    requires WithCopy(s[n], b, it)
    ensures Copied(s, SubscribeTo(s[n := b], n, up, it), it, n, up)
  {
    var t := s[n := b];
    NewlySubscribed(t, n, up, it);
    hide SubscribeTo;
    var u := SubscribeTo(t, n, up, it);
    assert Anew(t, u, it, n, up);
    AnewCopied(s, t, u, it, n, up, b);
  }

  ghost predicate Anew(t: Network, u: Network, it: Item, n: NodeId, up: NodeId) {
    && t.Keys == u.Keys && up in t
    && (forall a :: a in t ==> u[a].addr == t[a].addr && u[a].data == t[a].data && u[a].cached == t[a].cached)
    && (forall a :: a in t ==> (it in u[a].subs <==> it in t[a].subs || a == n))
    && (forall a :: a in t ==> (it in u[a].serve <==> it in t[a].serve || a == n))
    && (forall a :: a in t && it in t[a].serve ==> t[a].serve[it] <= u[a].serve[it])
    && it in t[up].serve && n in u[up].serve[it]
  }

  lemma AnewCopied(s: Network, t: Network, u: Network, it: Item, n: NodeId, up: NodeId, b: NodeState)
    requires n in s && up in s && n != up && t == s[n := b] && WithCopy(s[n], b, it) && Anew(t, u, it, n, up)
    ensures Copied(s, u, it, n, up)
  {
    forall a | a in s ensures t[a].addr == s[a].addr && t[a].subs == s[a].subs && t[a].serve == s[a].serve && (a != n ==> t[a] == s[a]) {}
  }

  lemma NewlySubscribed(t: Network, n: NodeId, up: NodeId, it: Item)
    requires n in t && up in t && n != up && it !in t[n].subs && it !in t[n].serve && it in t[up].serve
    ensures var u := SubscribeTo(t, n, up, it);
      && (forall a :: a in t ==> (it in u[a].subs <==> it in t[a].subs || a == n))
      && (forall a :: a in t ==> (it in u[a].serve <==> it in t[a].serve || a == n))
      && (forall a :: a in t && it in t[a].serve ==> t[a].serve[it] <= u[a].serve[it])
      && n in u[up].serve[it]
  {
    assert it in SubscribeTo(t, n, up, it)[up].serve;
  }

  /** What a peer of the network has before it copies the entry from up. */
  lemma BeforeCopy(s: Network, o: NodeId, it: Item, w: set<NodeId>, n: NodeId, up: NodeId)
    requires Hanging(s, o, it, w) && n in s && !Holder(s, n, it) && Holder(s, up, it)
    requires n in w ==> s[n].addr != {} && up == Nearest(it.key, s[n].addr)
    ensures n != up && n != o && up in s && it in s[up].serve
    ensures if it in s[n].subs then it in s[n].serve && n in s[up].serve[it] else it !in s[n].serve
  {
    assert Fits(s, n, o, it, w) && Fits(s, up, o, it, w);
    hide Reached, Closer, Nearest;
  }

  lemma CopyFits(s: Network, t: Network, o: NodeId, it: Item, w: set<NodeId>, n: NodeId, up: NodeId, a: NodeId)
    requires a in s && a in t && Fits(s, a, o, it, w) && Copied(s, t, it, n, up)
    ensures Fits(t, a, o, it, w)
  {
    hide Closer, Nearest;
    if a in w { assert PassedOn(t, a, o, it, w); }
  }

  lemma CopyReached(s: Network, t: Network, o: NodeId, it: Item, n: NodeId, up: NodeId)
    requires Copied(s, t, it, n, up) && Holder(s, up, it) && up in Reached(s, o, it)
    requires forall a :: Holder(s, a, it) ==> a in Reached(s, o, it)
    ensures forall a :: Holder(t, a, it) ==> a in Reached(t, o, it)
  {
    forall a ensures Holder(t, a, it) <==> Holder(s, a, it) || a == n {}
    forall x, y ensures Edge(s, x, y, it) ==> Edge(t, x, y, it) {}
    assert Edge(t, up, n, it);
    hide Edge, Copied, Holder;
    ReachedMonotone(s, t, o, it);
    assert up in Reached(t, o, it);
    ReachesStep(t, o, up, n, it);
    InTable(t, up, n, it);
  }

  lemma InTable(t: Network, a: NodeId, b: NodeId, it: Item)
    requires Edge(t, a, b, it)
    ensures b in t
  {
  }

  /** A peer that copies the entry from one that has it, the next hop if it passed the store on, hangs
      its copy on. */
  lemma HangsOn(s: Network, o: NodeId, it: Item, w: set<NodeId>, n: NodeId, up: NodeId, v: Value)
    requires Hanging(s, o, it, w) && it.select != Peer && n in s && !Holder(s, n, it) && Holder(s, up, it)
    requires n in w ==> s[n].addr != {} && up == Nearest(it.key, s[n].addr)
    ensures var t := CacheFrom(s, n, up, it, v); Hanging(t, o, it, w) && SameAddresses(s, t)
  {
    hide *;
    BeforeCopy(s, o, it, w, n, up);
    Copies(s, n, up, it, v);
    var t := CacheFrom(s, n, up, it, v);
    forall a | a in s ensures Fits(t, a, o, it, w) {
      FitsAt(s, o, it, w, a);
      CopyFits(s, t, o, it, w, n, up, a);
    }
    CopyHangs(s, t, o, it, w, n, up);
  }

  lemma FitsAt(s: Network, o: NodeId, it: Item, w: set<NodeId>, a: NodeId)
    requires Hanging(s, o, it, w) && a in s
    ensures Fits(s, a, o, it, w)
  {
  }

  lemma CopyHangs(s: Network, t: Network, o: NodeId, it: Item, w: set<NodeId>, n: NodeId, up: NodeId)
    requires Hanging(s, o, it, w) && Copied(s, t, it, n, up) && Holder(s, up, it) && o != n
    requires forall a :: a in s ==> Fits(t, a, o, it, w)
    ensures Hanging(t, o, it, w) && SameAddresses(s, t)
  {
    hide Fits, Reached;
    CopyReached(s, t, o, it, n, up);
  }

  lemma AllReached(s: Network, o: NodeId, it: Item, w: set<NodeId>)
    requires Hanging(s, o, it, w)
    ensures Reached(s, o, it) == Holders(s, it)
  {
    ReachedClosed(s, o, it);
    hide Reached, Fits;
    forall a ensures a in Holders(s, it) <==> Holder(s, a, it) {}
  }

  ghost predicate HungAlong(s: Network, t: Network, o: NodeId, p: seq<NodeId>, it: Item, w: set<NodeId>) {
    && p != [] && Hanging(t, o, it, w) && SameAddresses(s, t) && Holder(t, p[0], it) && SameOff(s, t, p, it)
  }

  lemma FollowsTail(s: Network, p: seq<NodeId>, it: Item, w: set<NodeId>)
    requires |p| > 1 && Follows(s, p, it, w)
    ensures Follows(s, p[1..], it, w)
    ensures p[0] in w ==> p[0] in s && s[p[0]].addr != {} && p[1] == Nearest(it.key, s[p[0]].addr)
  {
    hide Nearest;
    var q := p[1..];
    forall i | 0 <= i < |q| - 1 && q[i] in w ensures q[i] in s && s[q[i]].addr != {} && q[i + 1] == Nearest(it.key, s[q[i]].addr) {
      assert q[i] == p[i + 1] && q[i + 1] == p[i + 2];
    }
  }

  lemma HungOn(s: Network, t: Network, o: NodeId, n: NodeId, q: seq<NodeId>, it: Item, w: set<NodeId>, v: Value)
    requires HungAlong(s, t, o, q, it, w) && it.select != Peer && n in s && !Holder(s, n, it) && n !in q
    requires n in w ==> s[n].addr != {} && q[0] == Nearest(it.key, s[n].addr)
    ensures n in t && q[0] in t && HungAlong(s, CacheFrom(t, n, q[0], it, v), o, [n] + q, it, w)
  {
    var up := q[0];
    HolderIn(t, up, it);
    hide Hanging, CacheFrom, Nearest;
    HangsOn(t, o, it, w, n, up, v);
    NewHolders(t, o, it, n, up, v);
    var u := CacheFrom(t, n, up, it, v);
    hide Holder;
    forall a | a !in [n] + q ensures Holder(u, a, it) <==> Holder(s, a, it) { InCons(n, q, a); }
  }

  lemma HungOne(s: Network, o: NodeId, p: seq<NodeId>, it: Item, w: set<NodeId>, v: Value)
    requires |p| == 1 && Ends(s, p, it) && Hanging(s, o, it, w)
    ensures HungAlong(s, CacheAlong(s, p, it, v), o, p, it, w)
  {
    hide Hanging;
  }

  lemma {:induction false} HangsAlong(s: Network, o: NodeId, it: Item, w: set<NodeId>, p: seq<NodeId>, avoid: set<NodeId>, v: Value)
    requires Hanging(s, o, it, w) && Answer(s, p, it, avoid) && Ends(s, p, it) && Follows(s, p, it, w) && it.select != Peer
    ensures HungAlong(s, CacheAlong(s, p, it, v), o, p, it, w)
    decreases |p|
  {
    hide *;
    AnswerNonempty(s, p, it, avoid);
    if |p| == 1 {
      HungOne(s, o, p, it, w, v);
    } else {
      AnswerTail(s, p, it, avoid);
      FollowsTail(s, p, it, w);
      HangsAlong(s, o, it, w, p[1..], avoid + {p[0]}, v);
      CacheAlongStep(s, p, it, v);
      HungOn(s, CacheAlong(s, p[1..], it, v), o, p[0], p[1..], it, w, v);
      assert p == [p[0]] + p[1..];
    }
  }

  /** A fetch whose chain does not name the owner or the way keeps all copies hanging on the owner. */
  lemma FetchHangs(s: Network, o: NodeId, it: Item, w: set<NodeId>, n: NodeId, chain: seq<NodeId>)
    requires Hanging(s, o, it, w) && n in s && it.select != Peer && Off(chain, o, w)
    ensures Hanging(Fetched(s, n, it, chain).1, o, it, w)
  {
    SearchDecides(s, n, it, chain);
    OffIsClear(chain, n, o, it, w);
    SearchFollows(s, n, it, chain, o, w);
    var r := Search(s, n, it, chain);
    hide Search, Hanging, Along, Answer, Follows, Clear, Off, HolderReachable, Ends;
    if r.Some? { AlongHangs(s, o, it, w, r.value, Elems(chain)); }
  }

  lemma AlongHangs(s: Network, o: NodeId, it: Item, w: set<NodeId>, p: seq<NodeId>, avoid: set<NodeId>)
    requires Hanging(s, o, it, w) && Answer(s, p, it, avoid) && Ends(s, p, it) && Follows(s, p, it, w) && it.select != Peer
    ensures Hanging(Along(s, p, it).1, o, it, w)
  {
    HangsAlong(s, o, it, w, p, avoid, s[p[|p| - 1]].data[it]);
    hide Hanging, CacheAlong, Answer, Follows;
  }

  // ---- Runs ----

  /** Requests on the entry are not stores, and its fetches name neither the owner nor the way; no
      request is about a peer's address. */
  ghost predicate Calm(run: seq<Op>, o: NodeId, it: Item, w: set<NodeId>) {
    forall i :: 0 <= i < |run| ==> CalmOp(run[i], o, it, w)
  }

  ghost predicate CalmOp(op: Op, o: NodeId, it: Item, w: set<NodeId>) {
    op.it.select != Peer && (op.it == it ==> !op.q.StoreReq? && (op.q.FetchReq? ==> Off(op.q.chain, o, w)))
  }

  lemma ApartHangs(s: Network, t: Network, o: NodeId, it: Item, w: set<NodeId>)
    requires Hanging(s, o, it, w) && Apart(s, t, it) && SameAddresses(s, t)
    ensures Hanging(t, o, it, w)
  {
    hide Hanging, Fits, Apart;
    forall a | a in s ensures a in t && Fits(t, a, o, it, w) {
      FitsAt(s, o, it, w, a);
      ApartFits(s, t, o, it, w, a);
    }
    ApartReached(s, t, o, it, w);
  }

  lemma ApartReached(s: Network, t: Network, o: NodeId, it: Item, w: set<NodeId>)
    requires Hanging(s, o, it, w) && Apart(s, t, it)
    requires forall a :: a in s ==> a in t && Fits(t, a, o, it, w)
    ensures Hanging(t, o, it, w)
  {
    hide Fits, Reached;
    forall x, y ensures (Holder(t, x, it) <==> Holder(s, x, it)) && (Edge(s, x, y, it) ==> Edge(t, x, y, it)) { ApartEdge(s, t, it, x, y); }
    assert SameEntry(s[o], t[o], it);
    hide Edge, Holder, Apart;
    ReachedMonotone(s, t, o, it);
  }

  lemma ApartEdge(s: Network, t: Network, it: Item, x: NodeId, y: NodeId)
    requires Apart(s, t, it)
    ensures (Holder(t, x, it) <==> Holder(s, x, it)) && (Edge(s, x, y, it) ==> Edge(t, x, y, it))
  {
    if x in s { assert SameEntry(s[x], t[x], it); }
    if y in s { assert SameEntry(s[y], t[y], it); }
  }

  lemma ApartFits(s: Network, t: Network, o: NodeId, it: Item, w: set<NodeId>, a: NodeId)
    requires a in s && Fits(s, a, o, it, w) && Apart(s, t, it) && SameAddresses(s, t)
    ensures a in t && Fits(t, a, o, it, w)
  {
    hide Closer, Nearest;
    assert SameEntry(s[a], t[a], it);
    if a in w { assert PassedOn(t, a, o, it, w); }
  }

  lemma OpHangs(s: Network, o: NodeId, it: Item, w: set<NodeId>, op: Op)
    requires Hanging(s, o, it, w) && (it.select == Task || it.select == File) && Among(s.Keys, op.q) && CalmOp(op, o, it, w)
    ensures Hanging(Serve(s, op.it, op.q), o, it, w)
  {
    hide Hanging;
    if op.it != it {
      hide Serve;
      ServeApart(s, op.it, op.q, it);
      ServeAddresses(s, op.it, op.q);
      ApartHangs(s, Serve(s, op.it, op.q), o, it, w);
    } else if op.q.FetchReq? {
      FetchHangs(s, o, it, w, op.q.n, op.q.chain);
      hide Fetched;
    }
  }

  lemma FirstCalm(run: seq<Op>, o: NodeId, it: Item, w: set<NodeId>)
    requires Calm(run, o, it, w) && run != []
    ensures CalmOp(run[0], o, it, w) && Calm(run[1..], o, it, w)
  {
    assert CalmOp(run[0], o, it, w);
    hide CalmOp;
  }

  lemma {:induction false} RunHangs(s: Network, o: NodeId, it: Item, w: set<NodeId>, run: seq<Op>)
    requires Hanging(s, o, it, w) && (it.select == Task || it.select == File) && RunAmong(s.Keys, run) && Calm(run, o, it, w)
    ensures Hanging(After(s, run), o, it, w)
    decreases |run|
  {
    if run != [] {
      FirstAmong(s.Keys, run);
      FirstCalm(run, o, it, w);
      hide RunAmong, Among, Serve, Hanging, CalmOp, Calm;
      OpHangs(s, o, it, w, run[0]);
      RunHangs(Serve(s, run[0].it, run[0].q), o, it, w, run[1..]);
    }
  }

  /**
   * After a first store and any such run every copy of a task or file hangs on its owner: a notice from
   * the owner would reach exactly the copies.
   */
  lemma CopiesHangOnOwner(s: Network, n: NodeId, it: Item, v: Value, run: seq<Op>)
    requires n in s && Blank(s, it) && Routable(s, it) && (it.select == Task || it.select == File)
    requires RunAmong(s.Keys, run) && Calm(run, Stored(s, n, it, v, []).who, it, Elems(Way(s, n, it, [])))
    ensures var r := Stored(s, n, it, v, []); Reached(After(r.net, run), r.who, it) == Holders(After(r.net, run), it)
  {
    hide *;
    var r := Stored(s, n, it, v, []);
    CloserNone(n, it);
    FirstStoreHangs(s, n, it, v, []);
    RunHangs(r.net, r.who, it, Elems(Way(s, n, it, [])), run);
    AllReached(After(r.net, run), r.who, it, Elems(Way(s, n, it, [])));
  }
}

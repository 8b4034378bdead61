/**
 * Inputs at which a promise of the protocols fails.  All of them are networks that freshly started
 * peers reach by bootstrapping from each other (src/plugboard.py, src/communications/PeerService.py).
 */
module Examples {
  import opened Metric
  import opened Wrappers
  import opened Dht
  import opened Deletion
  import opened Fetch
  import opened Placement
  import opened Store
  import opened CacheTree
  import opened DeviceStore
  import opened Coherence
  import opened TaskTree
  import opened NamedWay
  import Devices

  // ---- Bootstraps ----

  /** Peers that have just started. */
  function Fresh(tr: map<NodeId, Value>): Network {
    map n | n in tr :: Initial(n, tr[n])
  }

  function Copies(n: NodeId, m: NodeId, known: seq<NodeId>): seq<Op> {
    if known == [] then [] else [Op(Item(Peer, known[0]), BootReq(n, m))] + Copies(n, m, known[1..])
  }

  /** n bootstraps from m: m stores the address of n; n copies those that m has, and stores its own. */
  function Bootstrap(n: NodeId, m: NodeId, v: Value, known: seq<NodeId>): seq<Op> {
    [Op(Item(Peer, n), StoreReq(m, v, [], false))] + Copies(n, m, known) + [Op(Item(Peer, n), StoreReq(n, v, [], false))]
  }

  /** A store or a copy of the address of a peer of the network. */
  ghost predicate Introduces(keys: set<NodeId>, op: Op) {
    && op.it.select == Peer && op.it.key in keys && Among(keys, op.q)
    && (op.q.BootReq? || (op.q.StoreReq? && op.q.chain == []))
  }

  ghost predicate Introductions(keys: set<NodeId>, run: seq<Op>) {
    forall op :: op in run ==> Introduces(keys, op)
  }

  lemma IntroductionsAmong(keys: set<NodeId>, run: seq<Op>)
    requires Introductions(keys, run)
    ensures RunAmong(keys, run)
  {
    forall i | 0 <= i < |run| ensures Among(keys, run[i].q) { assert run[i] in run && Introduces(keys, run[i]); }
  }

  lemma {:induction false} CopiesIntroduce(keys: set<NodeId>, n: NodeId, m: NodeId, known: seq<NodeId>)
    requires n in keys && m in keys && forall x :: x in known ==> x in keys
    ensures Introductions(keys, Copies(n, m, known))
    ensures forall x :: x in known ==> Op(Item(Peer, x), BootReq(n, m)) in Copies(n, m, known)
    ensures forall op :: op in Copies(n, m, known) ==> op.q == BootReq(n, m) && op.it.key in known
  {
    if known != [] {
      assert forall x :: x in known[1..] ==> x in known;
      CopiesIntroduce(keys, n, m, known[1..]);
      var first := Op(Item(Peer, known[0]), BootReq(n, m));
      assert Introduces(keys, first);
      forall op ensures op in Copies(n, m, known) <==> op == first || op in Copies(n, m, known[1..]) {
        InPrepended(first, Copies(n, m, known[1..]), op);
      }
      hide Introduces;
    }
  }

  lemma InPrepended<T>(x: T, rest: seq<T>, y: T)
    ensures y in [x] + rest <==> y == x || y in rest
  {
    assert ([x] + rest)[0] == x;
  }

  lemma InBoth<T>(a: seq<T>, b: seq<T>, x: T)
    ensures x in a + b <==> x in a || x in b
  {
  }

  lemma IntroductionsConcat(keys: set<NodeId>, a: seq<Op>, b: seq<Op>)
    requires Introductions(keys, a) && Introductions(keys, b)
    ensures Introductions(keys, a + b)
  {
    hide Introduces;
  }

  /** What a bootstrap consists of. */
  lemma Bootstraps(keys: set<NodeId>, n: NodeId, m: NodeId, v: Value, known: seq<NodeId>)
    requires n in keys && m in keys && forall x :: x in known ==> x in keys
    ensures Introductions(keys, Bootstrap(n, m, v, known))
    ensures forall x :: x in known ==> Op(Item(Peer, x), BootReq(n, m)) in Bootstrap(n, m, v, known)
    ensures forall op :: op in Bootstrap(n, m, v, known) ==>
      (op.it.key == n && op.q.StoreReq?) || (op.q == BootReq(n, m) && op.it.key in known)
  {
    CopiesIntroduce(keys, n, m, known);
    var first, last := Op(Item(Peer, n), StoreReq(m, v, [], false)), Op(Item(Peer, n), StoreReq(n, v, [], false));
    assert Introduces(keys, first) && Introduces(keys, last);
    hide Copies, Introduces;
    var run := Bootstrap(n, m, v, known);
    forall op ensures op in run <==> op == first || op in Copies(n, m, known) || op == last {
      InPrepended(first, Copies(n, m, known), op);
      InBoth([first] + Copies(n, m, known), [last], op);
    }
  }

  // ---- What introductions do ----

  /** Nobody forgets an address, and nobody learns another than the one given. */
  ghost predicate Learnt(s: Network, t: Network, x: NodeId) {
    s.Keys == t.Keys && forall a :: a in s ==> s[a].addr <= t[a].addr <= s[a].addr + {x}
  }

  /** Every copy of the entry is still there. */
  ghost predicate Keeps(s: Network, t: Network, it: Item) {
    s.Keys == t.Keys && forall a :: Holder(s, a, it) ==> Holder(t, a, it)
  }

  lemma LearntTransitive(s: Network, t: Network, u: Network, x: NodeId, it: Item)
    requires Learnt(s, t, x) && Learnt(t, u, x) && Keeps(s, t, it) && Keeps(t, u, it)
    ensures Learnt(s, u, x) && Keeps(s, u, it)
  {
  }

  lemma SubscribeLearns(s: Network, n: NodeId, m: NodeId, it: Item, x: NodeId)
    requires n in s && m in s
    ensures Learnt(s, SubscribeTo(s, n, m, it), x) && Keeps(s, SubscribeTo(s, n, m, it), it)
  {
  }

  lemma SetLearns(s: Network, n: NodeId, it: Item, v: Value, chain: seq<NodeId>)
    requires n in s && it.select == Peer
    ensures Learnt(s, SetPlain(s, n, it, v, chain), it.key) && Keeps(s, SetPlain(s, n, it, v, chain), it)
  {
    hide NextHop;
  }

  lemma {:induction false} StoreLearns(s: Network, n: NodeId, it: Item, v: Value, chain: seq<NodeId>)
    requires n in s && it.select == Peer
    ensures Learnt(s, Stored(s, n, it, v, chain).net, it.key) && Keeps(s, Stored(s, n, it, v, chain).net, it)
    decreases Unvisited(s, Elems(chain) + {n})
  {
    var t := SetPlain(s, n, it, v, chain);
    var hop := NextHop(s, n, it, chain);
    SetLearns(s, n, it, v, chain);
    hide NextHop, Learnt, Keeps;
    StoredEnds(s, n, it, v, chain);
    var m := FirstNew(s.Keys, hop, chain + [n]);
    hide FirstNew, SetPlain;
    if n !in hop && m.Some? {
      StoredStep(s, n, it, v, chain, m.value);
      SameUnvisited(s, t, Elems(chain + [n]) + {m.value});
      hide Unvisited, SubscribeTo;
      StoreLearns(t, m.value, it, v, chain + [n]);
      var u := Stored(t, m.value, it, v, chain + [n]).net;
      LearntTransitive(s, t, u, it.key, it);
      SubscribeLearns(u, n, m.value, it, it.key);
      LearntTransitive(s, u, SubscribeTo(u, n, m.value, it), it.key, it);
    }
  }

  lemma CopyLearns(s: Network, n: NodeId, m: NodeId, it: Item, v: Value)
    requires n in s && m in s && it.select == Peer
    ensures var t := CacheFrom(s, n, m, it, v);
      Learnt(s, t, it.key) && Keeps(s, t, it) && it.key in t[n].addr && forall a :: a in s && a != n ==> t[a].addr == s[a].addr
  {
    NewHolders(s, m, it, n, m, v);
  }

  /** Every peer has its own address, and there is nothing of the entry. */
  ghost predicate Healthy(s: Network, it: Item) {
    (forall a :: a in s ==> Holder(s, a, Item(Peer, a))) && Routable(s, it) && Blank(s, it)
  }

  lemma ApartBlank(s: Network, t: Network, it: Item)
    requires Apart(s, t, it) && Blank(s, it)
    ensures Blank(t, it)
  {
    forall a | a in t ensures it !in t[a].data && it !in t[a].cached && it !in t[a].serve && it !in t[a].subs {
      assert SameEntry(s[a], t[a], it);
    }
  }

  lemma LearntRoutable(s: Network, t: Network, x: NodeId, it: Item)
    requires Routable(s, it) && Learnt(s, t, x) && x in s && it.select != Peer
    ensures Routable(t, it)
  {
    forall a | a in t ensures a in t[a].addr && t[a].Learn(it).addr <= t.Keys { assert a in s[a].addr && s[a].Learn(it).addr <= s.Keys; }
  }

  lemma ApartHolder(s: Network, t: Network, it: Item, a: NodeId)
    requires Apart(s, t, it) && Holder(s, a, it)
    ensures Holder(t, a, it)
  {
    assert SameEntry(s[a], t[a], it);
  }

  lemma OpLearns(s: Network, op: Op)
    requires Introduces(s.Keys, op)
    ensures var t := Serve(s, op.it, op.q); Learnt(s, t, op.it.key) && Keeps(s, t, op.it)
    ensures var t := Serve(s, op.it, op.q); op.q.BootReq? ==>
      && (Holder(s, op.q.from, op.it) ==> op.it.key in t[op.q.n].addr)
      && forall a :: a in s && a != op.q.n ==> t[a].addr == s[a].addr
  {
    if op.q.StoreReq? {
      StoreLearns(s, op.q.n, op.it, op.q.v, []);
      hide Stored, Learnt, Keeps;
    } else if Holder(s, op.q.from, op.it) {
      CopyLearns(s, op.q.n, op.q.from, op.it, s[op.q.from].data[op.it]);
      hide CacheFrom;
    }
  }

  /** One introduction. */
  lemma Introduced(s: Network, op: Op, it: Item)
    requires Introduces(s.Keys, op) && it.select != Peer && Healthy(s, it)
    ensures var t := Serve(s, op.it, op.q);
      && Healthy(t, it) && Learnt(s, t, op.it.key)
      && (op.q.BootReq? && op.it.key == op.q.from ==> op.q.from in t[op.q.n].addr)
      && (op.q.BootReq? ==> forall a :: a in s && a != op.q.n ==> t[a].addr == s[a].addr)
  {
    var t := Serve(s, op.it, op.q);
    OpLearns(s, op);
    if op.q.BootReq? && op.it.key == op.q.from { assert Holder(s, op.q.from, Item(Peer, op.q.from)); }
    hide Serve, Routable, Blank, Learnt;
    ServeApart(s, op.it, op.q, it);
    ApartBlank(s, t, it);
    LearntRoutable(s, t, op.it.key, it);
    forall a | a in t ensures Holder(t, a, Item(Peer, a)) {
      assert Holder(s, a, Item(Peer, a));
      if op.it != Item(Peer, a) {
        ServeApart(s, op.it, op.q, Item(Peer, a));
        ApartHolder(s, t, Item(Peer, a), a);
      }
    }
  }

  lemma FirstIntroduces(keys: set<NodeId>, run: seq<Op>)
    requires Introductions(keys, run) && run != []
    ensures Introduces(keys, run[0]) && Introductions(keys, run[1..])
  {
    assert run[0] in run;
    forall op | op in run[1..] ensures Introduces(keys, op) { assert op in run; }
  }

  lemma AfterFirst(s: Network, run: seq<Op>)
    requires RunAmong(s.Keys, run) && run != []
    ensures Among(s.Keys, run[0].q) && RunAmong(s.Keys, run[1..])
    ensures After(s, run) == After(Serve(s, run[0].it, run[0].q), run[1..])
  {
    FirstAmong(s.Keys, run);
    hide Serve, Among;
  }

  ghost predicate Knowing(s: Network, t: Network) {
    s.Keys == t.Keys && forall a :: a in s ==> s[a].addr <= t[a].addr
  }

  lemma KnowingMore(s: Network, t: Network, u: Network, x: NodeId)
    requires Learnt(s, t, x) && Knowing(t, u)
    ensures Knowing(s, u)
  {
  }

  /** A run of introductions. */
  lemma {:induction false} AllIntroduced(s: Network, run: seq<Op>, it: Item)
    requires Introductions(s.Keys, run) && it.select != Peer && Healthy(s, it)
    ensures RunAmong(s.Keys, run) && Healthy(After(s, run), it) && Knowing(s, After(s, run))
    decreases |run|
  {
    IntroductionsAmong(s.Keys, run);
    if run != [] {
      FirstIntroduces(s.Keys, run);
      AfterFirst(s, run);
      hide After, Serve, Healthy, Introduces, Introductions, RunAmong, Learnt, Knowing, Among;
      var t := Serve(s, run[0].it, run[0].q);
      Introduced(s, run[0], it);
      AllIntroduced(t, run[1..], it);
      KnowingMore(s, t, After(t, run[1..]), run[0].it.key);
    }
  }

  /** A peer that copies the address of m from m knows m from then on. */
  lemma {:induction false} Taught(s: Network, run: seq<Op>, it: Item, n: NodeId, m: NodeId)
    requires Introductions(s.Keys, run) && it.select != Peer && Healthy(s, it) && Op(Item(Peer, m), BootReq(n, m)) in run
    ensures RunAmong(s.Keys, run) && n in After(s, run) && m in After(s, run)[n].addr
    decreases |run|
  {
    IntroductionsAmong(s.Keys, run);
    FirstIntroduces(s.Keys, run);
    AfterFirst(s, run);
    var t := Serve(s, run[0].it, run[0].q);
    Introduced(s, run[0], it);
    hide After, Serve, Healthy, Introduces, Introductions, RunAmong, Learnt;
    if run[0] == Op(Item(Peer, m), BootReq(n, m)) {
      assert n in t by { hide *; NamedPeers(s, run[0]); }
      AllIntroduced(t, run[1..], it);
    } else {
      Taught(t, run[1..], it, n, m);
    }
  }

  lemma NamedPeers(s: Network, op: Op)
    requires Introduces(s.Keys, op)
    ensures op.q.n in s
  {
  }

  /** Nobody but other peers is told of x, and those by copies. */
  ghost predicate Spares(run: seq<Op>, n: NodeId, x: NodeId) {
    forall op :: op in run && op.it.key == x ==> op.q.BootReq? && op.q.n != n
  }

  lemma SparesConcat(a: seq<Op>, b: seq<Op>, n: NodeId, x: NodeId)
    requires Spares(a, n, x) && Spares(b, n, x)
    ensures Spares(a + b, n, x)
  {
  }

  lemma BootstrapSpares(a: NodeId, b: NodeId, v: Value, known: seq<NodeId>, n: NodeId, x: NodeId)
    requires a != x && (a != n || x !in known)
    ensures Spares(Bootstrap(a, b, v, known), n, x)
  {
    Bootstraps({a, b} + Elems(known), a, b, v, known);
    hide Bootstrap, Introductions;
  }

  /** A peer that is told of x by nobody does not know it. */
  lemma {:induction false} NotTaught(s: Network, run: seq<Op>, it: Item, n: NodeId, x: NodeId)
    requires Introductions(s.Keys, run) && it.select != Peer && Healthy(s, it) && n in s && x !in s[n].addr
    requires Spares(run, n, x)
    ensures RunAmong(s.Keys, run) && n in After(s, run) && x !in After(s, run)[n].addr
    decreases |run|
  {
    IntroductionsAmong(s.Keys, run);
    if run != [] {
      FirstIntroduces(s.Keys, run);
      AfterFirst(s, run);
      assert run[0] in run && Spares(run[1..], n, x) by { assert forall op :: op in run[1..] ==> op in run; }
      var t := Serve(s, run[0].it, run[0].q);
      Introduced(s, run[0], it);
      hide After, Serve, Healthy, Introduces, Introductions, RunAmong;
      NotTold(s, t, run[0], n, x);
      hide Learnt;
      NotTaught(t, run[1..], it, n, x);
    }
  }

  lemma NotTold(s: Network, t: Network, op: Op, n: NodeId, x: NodeId)
    requires Learnt(s, t, op.it.key) && n in s && x !in s[n].addr
    requires op.it.key == x ==> n in t && t[n].addr == s[n].addr
    ensures n in t && x !in t[n].addr
  {
  }

  lemma FreshHealthy(tr: map<NodeId, Value>, it: Item)
    requires it.select != Peer && it.key !in tr
    ensures var s := Fresh(tr);
      s.Keys == tr.Keys && Started(s, tr) && Healthy(s, it) && forall a :: a in s ==> s[a].addr == {a}
  {
    var s := Fresh(tr);
    StartTables(s, tr, it);
    hide Blank, Routable;
  }

  // ---- Copies ----

  lemma OpKeepsPeers(s: Network, op: Op, a: NodeId, other: Item)
    requires Introduces(s.Keys, op) && Holder(s, a, other)
    ensures Holder(Serve(s, op.it, op.q), a, other)
  {
    OpLearns(s, op);
    hide Serve, Learnt;
    if op.it != other {
      ServeApart(s, op.it, op.q, other);
      ApartHolder(s, Serve(s, op.it, op.q), other, a);
    }
  }

  lemma {:induction false} StaysHeld(s: Network, run: seq<Op>, a: NodeId, other: Item)
    requires Introductions(s.Keys, run) && Holder(s, a, other)
    ensures RunAmong(s.Keys, run) && Holder(After(s, run), a, other)
    decreases |run|
  {
    IntroductionsAmong(s.Keys, run);
    if run != [] {
      FirstIntroduces(s.Keys, run);
      AfterFirst(s, run);
      hide After, Serve, Introduces, Introductions, RunAmong, Among;
      OpKeepsPeers(s, run[0], a, other);
      StaysHeld(Serve(s, run[0].it, run[0].q), run[1..], a, other);
    }
  }

  lemma BootCopies(s: Network, n: NodeId, m: NodeId)
    requires n in s && Holder(s, m, Item(Peer, m))
    ensures Holder(Serve(s, Item(Peer, m), BootReq(n, m)), n, Item(Peer, m))
  {
    var v := s[m].data[Item(Peer, m)];
    NewHolders(s, m, Item(Peer, m), n, m, v);
    hide CacheFrom;
  }

  /** A peer that copies the address of m from m has it from then on. */
  lemma {:induction false} HasCopied(s: Network, run: seq<Op>, it: Item, n: NodeId, m: NodeId)
    requires Introductions(s.Keys, run) && it.select != Peer && Healthy(s, it) && Op(Item(Peer, m), BootReq(n, m)) in run
    ensures RunAmong(s.Keys, run) && Holder(After(s, run), n, Item(Peer, m))
    decreases |run|
  {
    IntroductionsAmong(s.Keys, run);
    FirstIntroduces(s.Keys, run);
    AfterFirst(s, run);
    var t := Serve(s, run[0].it, run[0].q);
    Introduced(s, run[0], it);
    if run[0] == Op(Item(Peer, m), BootReq(n, m)) {
      NamedPeers(s, run[0]);
      assert Holder(s, m, Item(Peer, m));
      hide *;
      BootCopies(s, n, m);
      StaysHeld(t, run[1..], n, Item(Peer, m));
    } else {
      hide After, Serve, Healthy, Introduces, Introductions, RunAmong, Learnt;
      HasCopied(t, run[1..], it, n, m);
    }
  }

  // ---- Two peers ----

  function Id(b: Byte): NodeId {
    NodeId([0, 0, 0, 0, 0, 0, 0, b])
  }

  lemma IdCloser(key: Byte, a: Byte, b: Byte)
    requires BitXor(a, key, 8) < BitXor(b, key, 8)
    ensures Closer(Id(key), Id(a), Id(b))
  {
    hide BitXor, Closer;
    assert Id(a).bytes[..7] == Id(b).bytes[..7] == [0, 0, 0, 0, 0, 0, 0];
    CloserAt(Id(key), Id(a), Id(b), 7);
  }

  lemma IdsDiffer(a: Byte, b: Byte)
    requires a != b
    ensures Id(a) != Id(b)
  {
    assert Id(a).bytes[7] == a && Id(b).bytes[7] == b;
  }

  /** b bootstraps from a. */
  function Pair(a: NodeId, b: NodeId, v: Value): seq<Op> {
    Bootstrap(b, a, v, [a, b])
  }

  lemma PairKnows(tr: map<NodeId, Value>, a: NodeId, b: NodeId, it: Item)
    requires tr.Keys == {a, b} && a != b && it.select != Peer && it.key !in tr
    ensures Fresh(tr).Keys == {a, b} && Introductions({a, b}, Pair(a, b, tr[b])) && RunAmong({a, b}, Pair(a, b, tr[b]))
    ensures var s := After(Fresh(tr), Pair(a, b, tr[b]));
      s.Keys == {a, b} && s[b].addr == {a, b} && Blank(s, it) && Routable(s, it) && Holder(s, b, Item(Peer, a))
  {
    var run := Pair(a, b, tr[b]);
    FreshHealthy(tr, it);
    Bootstraps({a, b}, b, a, tr[b], [a, b]);
    assert a in [a, b] && Op(Item(Peer, a), BootReq(b, a)) in run;
    hide After, Bootstrap, Introductions, Healthy, Fresh;
    AllIntroduced(Fresh(tr), run, it);
    Taught(Fresh(tr), run, it, b, a);
    HasCopied(Fresh(tr), run, it, b, a);
    KnowsAll(Fresh(tr), After(Fresh(tr), run), b, it);
  }

  lemma KnowsAll(s: Network, t: Network, n: NodeId, it: Item)
    requires Knowing(s, t) && n in s && s[n].addr == {n} && Healthy(t, it)
    ensures Blank(t, it) && Routable(t, it) && t.Keys == s.Keys && n in t[n].addr && (it.select != Peer ==> t[n].addr <= t.Keys)
  {
    hide Blank;
  }

  const FIRST: NodeId := Id(1)
  const SECOND: NodeId := Id(2)

  /** A peer that stores a task keeps a trace of it and no copy. */
  ghost predicate LeavesStray(s: Network, n: NodeId, it: Item, v: Value) {
    && it.select == Task && n in s && Blank(s, it)
    && var t := Stored(s, n, it, v, []).net;
    && it !in t[n].data && it in t[n].subs && it in t[n].serve && !NoStray(t, it)
  }

  lemma StrayOfTwo(s: Network, n: NodeId, m: NodeId, it: Item, v: Value)
    requires n != m && s.Keys == {n, m} && s[n].addr == {n, m} && Closer(it.key, m, n) && it.select == Task
    requires Blank(s, it) && Routable(s, it)
    ensures LeavesStray(s, n, it, v)
  {
    NearerOfTwo(it.key, n, m);
    hide *;
    NoElems();
    assert s[n].addr - {} == {n, m};
    HopTo(s, n, it, [], {n, m}, m);
    CloserNone(n, it);
    FirstStoreTraces(s, n, it, v, []);
    WayStep(s, n, it, [], m);
    InCons(n, Way(s, m, it, [] + [n]), n);
    StrayAt(Stored(s, n, it, v, []).net, Way(s, n, it, []), it, Stored(s, n, it, v, []).who, n);
    StrayIs(s, n, it, v);
  }

  lemma NearerOfTwo(key: NodeId, n: NodeId, m: NodeId)
    requires Closer(key, m, n)
    ensures IsNearest(key, {n, m}, m)
  {
    hide Closer;
  }

  lemma StrayIs(s: Network, n: NodeId, it: Item, v: Value)
    requires it.select == Task && n in s && Blank(s, it)
    ensures var t := Stored(s, n, it, v, []).net;
      it !in t[n].data && it in t[n].subs && it in t[n].serve && !NoStray(t, it) ==> LeavesStray(s, n, it, v)
  {
    hide Stored, Blank, NoStray;
  }

  lemma FirstSecond()
    ensures FIRST != SECOND && Id(5) !in {FIRST, SECOND} && Closer(Id(5), FIRST, SECOND)
  {
    IdsDiffer(1, 2);
    IdsDiffer(1, 5);
    IdsDiffer(2, 5);
    assert BitXor(1, 5, 8) == 4 && BitXor(2, 5, 8) == 7;
    hide Closer, Id;
    IdCloser(5, 1, 2);
  }

  lemma StrayOfPair(tr: map<NodeId, Value>, a: NodeId, b: NodeId, it: Item, w: Value)
    requires tr.Keys == {a, b} && a != b && it.select == Task && it.key !in {a, b} && Closer(it.key, a, b)
    ensures var run := Pair(a, b, tr[b]); RunAmong(Fresh(tr).Keys, run) && LeavesStray(After(Fresh(tr), run), b, it, w)
  {
    hide *;
    PairKnows(tr, a, b, it);
    StrayOfTwo(After(Fresh(tr), Pair(a, b, tr[b])), b, a, it, w);
  }

  /** For one: two peers start, the second bootstraps from the first and stores a task that is nearer
      to the first. */
  lemma StrayAtSecond(tr: map<NodeId, Value>, w: Value)
    requires tr.Keys == {FIRST, SECOND}
    ensures var run := Pair(FIRST, SECOND, tr[SECOND]);
      RunAmong(Fresh(tr).Keys, run) && LeavesStray(After(Fresh(tr), run), SECOND, Item(Task, Id(5)), w)
  {
    FirstSecond();
    hide *;
    StrayOfPair(tr, FIRST, SECOND, Item(Task, Id(5)), w);
  }

  /** A store of a new address at its owner leaves the old one at another peer. */
  ghost predicate LeavesStale(s: Network, a: NodeId, b: NodeId, w: Value) {
    var it := Item(Peer, a);
    && a in s && it in s[a].data
    && var t := Stored(s, a, it, w, []).net;
    && it in t[a].data && t[a].data[it] == w
    && b in t && it in t[b].data && t[b].data[it] == s[a].data[it] && !AllCopies(t, it, w)
  }

  lemma StaleOfTwo(s: Network, a: NodeId, b: NodeId, v: Value, w: Value)
    requires Represents(s, Item(Peer, a), Full(a, v, {v})) && Holder(s, b, Item(Peer, a)) && a != b && v != w
    ensures LeavesStale(s, a, b, w)
  {
    var it := Item(Peer, a);
    assert Within(s, it, {v}) && a in s && s[a].data[it] == v && s[b].data[it] == v;
    PeerStoreTree(s, a, it, w, []);
    TreeOwner(s, a, it);
    var t := Stored(s, a, it, w, []).net;
    hide Tree, Stored;
    assert Holder(t, b, it) && Holder(t, a, it);
  }

  /** The run of a pair stores nothing under the address of the peer bootstrapped from. */
  lemma PairLeaves(tr: map<NodeId, Value>, a: NodeId, b: NodeId)
    requires tr.Keys == {a, b} && a != b
    ensures var run := Pair(a, b, tr[b]); LeavesAlone(Item(Peer, a), a, run) && PeerStores(Item(Peer, a), run)
  {
    var run := Pair(a, b, tr[b]);
    Bootstraps({a, b}, b, a, tr[b], [a, b]);
    hide Bootstrap;
    forall i | 0 <= i < |run| && run[i].it == Item(Peer, a) ensures run[i].q == BootReq(b, a) { assert run[i] in run; }
  }

  lemma PairRepresents(tr: map<NodeId, Value>, a: NodeId, b: NodeId)
    requires tr.Keys == {a, b} && a != b && RunAmong(Fresh(tr).Keys, Pair(a, b, tr[b])) && Started(Fresh(tr), tr)
    ensures Represents(After(Fresh(tr), Pair(a, b, tr[b])), Item(Peer, a), Full(a, tr[a], {tr[a]}))
  {
    var s, run, it, cell := Fresh(tr), Pair(a, b, tr[b]), Item(Peer, a), Full(a, tr[a], {tr[a]});
    assert a in s && it.select == Peer && cell.copies == {cell.latest};
    hide *;
    PairLeaves(tr, a, b);
    StartRepresents(s, tr, it);
    PeerRunsAreLawful(s, it, cell, run);
    RunRefinesCell(s, it, cell, run);
    CellKeeps(it, cell, run, CellAfter(s, it, cell, run));
  }

  /** For one: two peers start, the second bootstraps from the first, and the first changes its address. */
  lemma StaleCopy(tr: map<NodeId, Value>, w: Value)
    requires tr.Keys == {FIRST, SECOND} && w != tr[FIRST]
    ensures var run := Pair(FIRST, SECOND, tr[SECOND]);
      RunAmong(Fresh(tr).Keys, run) && LeavesStale(After(Fresh(tr), run), FIRST, SECOND, w)
  {
    hide *;
    FirstSecond();
    var it := Item(Task, Id(5));
    PairKnows(tr, FIRST, SECOND, it);
    FreshHealthy(tr, it);
    PairRepresents(tr, FIRST, SECOND);
    StaleOfTwo(After(Fresh(tr), Pair(FIRST, SECOND, tr[SECOND])), FIRST, SECOND, tr[FIRST], w);
  }

  // ---- Three peers ----

  const THIRD: NodeId := Id(3)

  /** c bootstraps from a and then from b. */
  function Trio(a: NodeId, b: NodeId, c: NodeId, v: Value): seq<Op> {
    Bootstrap(c, a, v, [a, c]) + Bootstrap(c, b, v, [b, c])
  }

  lemma TrioKnows(tr: map<NodeId, Value>, a: NodeId, b: NodeId, c: NodeId, it: Item)
    requires tr.Keys == {a, b, c} && it.select != Peer && it.key !in tr
    ensures Fresh(tr).Keys == {a, b, c} && RunAmong({a, b, c}, Trio(a, b, c, tr[c]))
    ensures var s := After(Fresh(tr), Trio(a, b, c, tr[c]));
      s.Keys == {a, b, c} && s[c].addr == {a, b, c} && Blank(s, it) && Routable(s, it)
  {
    var run := Trio(a, b, c, tr[c]);
    hide *;
    TrioIntroduces(a, b, c, tr[c]);
    FreshHealthy(tr, it);
    AllIntroduced(Fresh(tr), run, it);
    Taught(Fresh(tr), run, it, c, a);
    Taught(Fresh(tr), run, it, c, b);
    KnowsAll(Fresh(tr), After(Fresh(tr), run), c, it);
  }

  lemma TrioIntroduces(a: NodeId, b: NodeId, c: NodeId, v: Value)
    ensures var run := Trio(a, b, c, v);
      Introductions({a, b, c}, run) && Op(Item(Peer, a), BootReq(c, a)) in run && Op(Item(Peer, b), BootReq(c, b)) in run
  {
    var first, second := Bootstrap(c, a, v, [a, c]), Bootstrap(c, b, v, [b, c]);
    Bootstraps({a, b, c}, c, a, v, [a, c]);
    Bootstraps({a, b, c}, c, b, v, [b, c]);
    hide Bootstrap, Introductions;
    IntroductionsConcat({a, b, c}, first, second);
    assert a in [a, c] && b in [b, c];
    InBoth(first, second, Op(Item(Peer, a), BootReq(c, a)));
    InBoth(first, second, Op(Item(Peer, b), BootReq(c, b)));
  }

  lemma ThirdKey()
    ensures TtyOf(THIRD, 0).key == Id(192) && TtyOf(THIRD, 0).select == Device
  {
    TtyBytes(THIRD, 0);
    hide Devices.TtyKey;
    assert THIRD.bytes[..4] + [0, 0, 0, 192] == Id(192).bytes;
  }

  lemma LastBytes()
    ensures BitXor(1, 192, 8) == 193 && BitXor(2, 192, 8) == 194 && BitXor(3, 192, 8) == 195
  {
    assert BitXor(0, 48, 6) == 48 && BitXor(0, 96, 7) == 96 && BitXor(1, 96, 7) == 97;
  }

  lemma ThirdIsLast()
    ensures FIRST != SECOND && Id(192) !in {FIRST, SECOND, THIRD}
    ensures Closer(Id(192), FIRST, THIRD) && Closer(Id(192), SECOND, THIRD)
  {
    IdsDiffer(1, 2);
    IdsDiffer(192, 1);
    IdsDiffer(192, 2);
    IdsDiffer(192, 3);
    LastBytes();
    hide BitXor, Closer, Id;
    IdCloser(192, 1, 3);
    IdCloser(192, 2, 3);
  }

  lemma TwoRivals(s: Network, h: NodeId, a: NodeId, b: NodeId, key: NodeId)
    requires h in s && a in s[h].addr && b in s[h].addr && a != b && Closer(key, a, h) && Closer(key, b, h)
    requires a.bytes[..4] == h.bytes[..4] == b.bytes[..4]
    ensures |Rivals(s, h, key)| >= 2
  {
    hide Closer;
    assert {a, b} <= Rivals(s, h, key);
    SubsetSize({a, b}, Rivals(s, h, key));
  }

  /** A host that registers its device does not become the root of its copies, and cannot take them back. */
  ghost predicate Unregistered(s: Network, h: NodeId, it: Item) {
    && h in s && Blank(s, it)
    && var t := DeviceStored(s, h, it, Value(h.bytes, []), [], true).net;
    && !Tree(t, h, it) && !Blank(Purge(t, Reached(t, h, it), it), it)
  }

  lemma TrioFails(tr: map<NodeId, Value>, a: NodeId, b: NodeId, c: NodeId)
    requires tr.Keys == {a, b, c} && a != b && a.bytes[..4] == c.bytes[..4] == b.bytes[..4] && TtyOf(c, 0).key !in {a, b, c}
    requires Closer(TtyOf(c, 0).key, a, c) && Closer(TtyOf(c, 0).key, b, c)
    ensures var run := Trio(a, b, c, tr[c]); RunAmong(Fresh(tr).Keys, run) && Unregistered(After(Fresh(tr), run), c, TtyOf(c, 0))
  {
    var it := TtyOf(c, 0);
    var run := Trio(a, b, c, tr[c]);
    assert HostOf(Value(c.bytes, [])) == Some(c) && it.select == Device;
    hide *;
    TrioKnows(tr, a, b, c, it);
    var s := After(Fresh(tr), run);
    TwoRivals(s, c, a, b, it.key);
    TtyHostMustBeNear(s, c, 0, Value(c.bytes, []));
    UnregisteredIs(s, c, it);
  }

  /** For one: three peers start, the third bootstraps from the others and registers its first teletype. */
  lemma FarHostFails(tr: map<NodeId, Value>)
    requires tr.Keys == {FIRST, SECOND, THIRD}
    ensures var run := Trio(FIRST, SECOND, THIRD, tr[THIRD]);
      RunAmong(Fresh(tr).Keys, run) && Unregistered(After(Fresh(tr), run), THIRD, TtyOf(THIRD, 0))
  {
    ThirdKey();
    ThirdIsLast();
    SamePrefix();
    hide *;
    TrioFails(tr, FIRST, SECOND, THIRD);
  }

  lemma SamePrefix()
    ensures FIRST.bytes[..4] == THIRD.bytes[..4] == SECOND.bytes[..4]
  {
  }

  lemma UnregisteredIs(s: Network, h: NodeId, it: Item)
    requires h in s && Blank(s, it)
    ensures var t := DeviceStored(s, h, it, Value(h.bytes, []), [], true).net;
      !Tree(t, h, it) && !Blank(Purge(t, Reached(t, h, it), it), it) ==> Unregistered(s, h, it)
  {
    hide DeviceStored, Tree, Blank, Purge, Reached;
  }

  // ---- Four peers ----

  /** n bootstraps from m and y, and then these from o. */
  function Quartet(n: NodeId, m: NodeId, y: NodeId, o: NodeId, tr: map<NodeId, Value>): seq<Op>
    requires n in tr && m in tr && y in tr
  {
    (Bootstrap(n, m, tr[n], [m, n]) + Bootstrap(n, y, tr[n], [y, n]))
    + (Bootstrap(m, o, tr[m], [o, m]) + Bootstrap(y, o, tr[y], [o, m, y]))
  }

  lemma QuartetIntroduces(n: NodeId, m: NodeId, y: NodeId, o: NodeId, tr: map<NodeId, Value>)
    requires n in tr && m in tr && y in tr && o in tr
    ensures Introductions(tr.Keys, Quartet(n, m, y, o, tr))
  {
    var keys := tr.Keys;
    var b1, b2 := Bootstrap(n, m, tr[n], [m, n]), Bootstrap(n, y, tr[n], [y, n]);
    var b3, b4 := Bootstrap(m, o, tr[m], [o, m]), Bootstrap(y, o, tr[y], [o, m, y]);
    Bootstraps(keys, n, m, tr[n], [m, n]);
    Bootstraps(keys, n, y, tr[n], [y, n]);
    Bootstraps(keys, m, o, tr[m], [o, m]);
    Bootstraps(keys, y, o, tr[y], [o, m, y]);
    hide Bootstrap, Introductions;
    IntroductionsConcat(keys, b1, b2);
    IntroductionsConcat(keys, b3, b4);
    IntroductionsConcat(keys, b1 + b2, b3 + b4);
  }

  lemma Boots(n: NodeId, m: NodeId, v: Value, known: seq<NodeId>)
    requires m in known
    ensures Op(Item(Peer, m), BootReq(n, m)) in Bootstrap(n, m, v, known)
  {
    Bootstraps({n, m} + Elems(known), n, m, v, known);
    hide Bootstrap, Introductions;
  }

  lemma QuartetTeaches(n: NodeId, m: NodeId, y: NodeId, o: NodeId, tr: map<NodeId, Value>)
    requires n in tr && m in tr && y in tr && o in tr
    ensures var run := Quartet(n, m, y, o, tr);
      && Op(Item(Peer, m), BootReq(n, m)) in run && Op(Item(Peer, y), BootReq(n, y)) in run
      && Op(Item(Peer, o), BootReq(m, o)) in run && Op(Item(Peer, o), BootReq(y, o)) in run
  {
    Boots(n, m, tr[n], [m, n]);
    Boots(n, y, tr[n], [y, n]);
    Boots(m, o, tr[m], [o, m]);
    Boots(y, o, tr[y], [o, m, y]);
    hide Bootstrap;
  }

  lemma QuartetSpares(n: NodeId, m: NodeId, y: NodeId, o: NodeId, tr: map<NodeId, Value>)
    requires n in tr && m in tr && y in tr && o in tr && Distinct(n, m, y, o)
    ensures Spares(Quartet(n, m, y, o, tr), n, o)
  {
    var b1, b2 := Bootstrap(n, m, tr[n], [m, n]), Bootstrap(n, y, tr[n], [y, n]);
    var b3, b4 := Bootstrap(m, o, tr[m], [o, m]), Bootstrap(y, o, tr[y], [o, m, y]);
    BootstrapSpares(n, m, tr[n], [m, n], n, o);
    BootstrapSpares(n, y, tr[n], [y, n], n, o);
    BootstrapSpares(m, o, tr[m], [o, m], n, o);
    BootstrapSpares(y, o, tr[y], [o, m, y], n, o);
    hide Bootstrap, Spares;
    SparesConcat(b1, b2, n, o);
    SparesConcat(b3, b4, n, o);
    SparesConcat(b1 + b2, b3 + b4, n, o);
  }

  lemma FreshAt(tr: map<NodeId, Value>, n: NodeId, x: NodeId)
    requires n in tr && x != n
    ensures n in Fresh(tr) && Fresh(tr)[n].addr == {n} && x !in Fresh(tr)[n].addr
  {
  }

  lemma QuartetIsDiamond(tr: map<NodeId, Value>, n: NodeId, m: NodeId, y: NodeId, o: NodeId, it: Item)
    requires tr.Keys == {n, m, y, o} && Ordered(it.key, n, m, y, o) && it.select == Task && it.key !in tr
    ensures var run := Quartet(n, m, y, o, tr); RunAmong(Fresh(tr).Keys, run) && Diamond(After(Fresh(tr), run), n, m, y, o, it)
  {
    assert n in tr && m in tr && y in tr && o in tr;
    var run := Quartet(n, m, y, o, tr);
    var s := Fresh(tr);
    hide *;
    OrderedDistinct(it.key, n, m, y, o);
    QuartetIntroduces(n, m, y, o, tr);
    QuartetTeaches(n, m, y, o, tr);
    QuartetSpares(n, m, y, o, tr);
    FreshHealthy(tr, it);
    DistinctPair(n, m, y, o);
    FreshAt(tr, n, o);
    KnownByRun(s, run, n, m, y, o, it);
    DiamondIs(After(s, run), n, m, y, o, it);
  }

  lemma KnownByRun(s: Network, run: seq<Op>, n: NodeId, m: NodeId, y: NodeId, o: NodeId, it: Item)
    requires Introductions(s.Keys, run) && it.select != Peer && Healthy(s, it) && Spares(run, n, o)
    requires n in s && s[n].addr == {n} && o !in s[n].addr
    requires Op(Item(Peer, m), BootReq(n, m)) in run && Op(Item(Peer, y), BootReq(n, y)) in run
    requires Op(Item(Peer, o), BootReq(m, o)) in run && Op(Item(Peer, o), BootReq(y, o)) in run
    ensures RunAmong(s.Keys, run)
    ensures var t := After(s, run);
      && t.Keys == s.Keys && m in t && y in t && Blank(t, it) && Routable(t, it)
      && n in t[n].addr && m in t[n].addr && y in t[n].addr && o !in t[n].addr && t[n].addr <= t.Keys
      && o in t[m].addr && o in t[y].addr
  {
    hide *;
    AllIntroduced(s, run, it);
    Taught(s, run, it, n, m);
    Taught(s, run, it, n, y);
    Taught(s, run, it, m, o);
    Taught(s, run, it, y, o);
    NotTaught(s, run, it, n, o);
    KnowsAll(s, After(s, run), n, it);
  }

  lemma DistinctPair(n: NodeId, m: NodeId, y: NodeId, o: NodeId)
    requires Distinct(n, m, y, o)
    ensures o != n
  {
  }

  lemma DiamondIs(s: Network, n: NodeId, m: NodeId, y: NodeId, o: NodeId, it: Item)
    requires s.Keys == {n, m, y, o} && it.select == Task && Blank(s, it) && Routable(s, it) && Ordered(it.key, n, m, y, o)
    requires n in s[n].addr && m in s[n].addr && y in s[n].addr && o !in s[n].addr && s[n].addr <= s.Keys
    requires o in s[m].addr && o in s[y].addr
    ensures Diamond(s, n, m, y, o, it)
  {
    hide Blank, Routable, Ordered;
    assert s[n].addr == {n, m, y};
  }

  /** A peer gets a copy that no copy has registered. */
  ghost predicate LeavesCutOff(s: Network, n: NodeId, m: NodeId, o: NodeId, it: Item, v: Value) {
    && it.select == Task && n in s && Blank(s, it)
    && var r := Stored(s, n, it, v, []);
    && r.who == o
    && var t := Fetched(r.net, n, it, [m]).1;
    && Holder(t, n, it) && n !in Reached(t, o, it)
  }

  lemma DiamondCutsOff(s: Network, n: NodeId, m: NodeId, y: NodeId, o: NodeId, it: Item, v: Value)
    requires Diamond(s, n, m, y, o, it)
    ensures LeavesCutOff(s, n, m, o, it, v)
  {
    DiamondCuts(s, n, m, y, o, it, v);
    hide Blank, Routable, Stored, Fetched, Reached, Ordered;
  }

  const SEVENTEEN: NodeId := Id(17)
  const EIGHTEEN: NodeId := Id(18)
  const TWENTY: NodeId := Id(20)
  const TWENTY_FOUR: NodeId := Id(24)

  lemma FromSixteen()
    ensures BitXor(17, 16, 8) == 1 && BitXor(18, 16, 8) == 2 && BitXor(20, 16, 8) == 4 && BitXor(24, 16, 8) == 8
  {
    assert BitXor(1, 1, 4) == 0 && BitXor(2, 2, 5) == 0;
  }

  lemma FourOrdered()
    ensures Ordered(Id(16), TWENTY_FOUR, EIGHTEEN, TWENTY, SEVENTEEN)
    ensures Id(16) !in {TWENTY_FOUR, EIGHTEEN, TWENTY, SEVENTEEN}
  {
    FromSixteen();
    IdsDiffer(16, 17);
    IdsDiffer(16, 18);
    IdsDiffer(16, 20);
    IdsDiffer(16, 24);
    hide BitXor, Closer, Id;
    IdCloser(16, 17, 18);
    IdCloser(16, 18, 20);
    IdCloser(16, 20, 24);
  }

  /** For one: peer 24 stores a task that passes 18 and comes to 17, and fetches it past 18. */
  lemma CutOffPastTheWay(tr: map<NodeId, Value>, v: Value)
    requires tr.Keys == {TWENTY_FOUR, EIGHTEEN, TWENTY, SEVENTEEN}
    ensures TWENTY_FOUR in tr && EIGHTEEN in tr && TWENTY in tr
    ensures var run := Quartet(TWENTY_FOUR, EIGHTEEN, TWENTY, SEVENTEEN, tr);
      RunAmong(Fresh(tr).Keys, run) && LeavesCutOff(After(Fresh(tr), run), TWENTY_FOUR, EIGHTEEN, SEVENTEEN, Item(Task, Id(16)), v)
  {
    FourOrdered();
    hide *;
    QuartetIsDiamond(tr, TWENTY_FOUR, EIGHTEEN, TWENTY, SEVENTEEN, Item(Task, Id(16)));
    DiamondCutsOff(After(Fresh(tr), Quartet(TWENTY_FOUR, EIGHTEEN, TWENTY, SEVENTEEN, tr)), TWENTY_FOUR, EIGHTEEN, TWENTY, SEVENTEEN, Item(Task, Id(16)), v);
  }
}

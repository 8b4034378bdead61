/**
 * Coherence over whole runs.  Requests on any entries interleave; the copies of each peer's address
 * and of each registered device behave like one cell, which knows the owner, the value the owner has
 * last been given, and which values the copies may still have.
 */
module Coherence {
  import opened Metric
  import opened Wrappers
  import opened Dht
  import opened Deletion
  import opened Fetch
  import opened Placement
  import opened Store
  import opened CacheTree
  import opened DeviceStore

  datatype Cell = Gone | Full(owner: NodeId, latest: Value, copies: set<Value>)

  /** The network's state of an entry, seen as a cell. */
  ghost predicate Represents(s: Network, it: Item, cell: Cell) {
    match cell
    case Gone => Blank(s, it)
    case Full(o, v, copies) =>
      Tree(s, o, it) && s[o].data[it] == v && Within(s, it, copies) && (it.select == Peer ==> o == it.key)
  }

  // ---- Requests ----

  /** Requests that touch one entry, each naming the peer n that receives it.  A boot request is the
      part of a bootstrap that copies the entry of a peer from the peer asked. */
  datatype Request =
    | StoreReq(n: NodeId, v: Value, chain: seq<NodeId>, fixedOwner: bool)
    | FetchReq(n: NodeId, chain: seq<NodeId>)
    | DeleteReq(n: NodeId)
    | BootReq(n: NodeId, from: NodeId)

  /** The peers a request names belong to the network. */
  predicate Among(keys: set<NodeId>, q: Request) {
    q.n in keys && (q.BootReq? ==> q.from in keys)
  }

  ghost function Serve(s: Network, it: Item, q: Request): (t: Network)
    requires Among(s.Keys, q)
    ensures t.Keys == s.Keys
  {
    match q
    case StoreReq(n, v, chain, fixedOwner) => StoredAny(s, n, it, v, chain, fixedOwner).net
    case FetchReq(n, chain) => Fetched(s, n, it, chain).1
    case DeleteReq(n) => if it.select == Peer || it.select == Device then Purge(s, Reached(s, n, it), it) else s
    case BootReq(n, from) => if it.select == Peer && Holder(s, from, it) then CacheFrom(s, n, from, it, s[from].data[it]) else s
  }

  /**
   * The same request on the cell.  Only a deletion at the owner empties it.  A store that replaces the
   * value reaches its starter and the owner, so the old values stay with all other copies.
   */
  ghost function ServeCell(s: Network, it: Item, cell: Cell, q: Request): Cell {
    match q
    case StoreReq(n, v, _, _) =>
      if it.select == Device then Full(n, v, {v})
      else if cell == Gone || Holders(s, it) <= {n, it.key} || cell.copies <= {v} then Full(it.key, v, {v})
      else Full(it.key, v, cell.copies + {v})
    case FetchReq(_, _) => cell
    case DeleteReq(n) => if cell.Full? && n == cell.owner then Gone else cell
    case BootReq(n, from) =>
      if cell.Full? && n == cell.owner && it.select == Peer && Holder(s, from, it) then cell.(latest := s[from].data[it]) else cell
  }

  /**
   * What a cell may do, whatever the network: a store leaves the new value, beside the old ones or alone,
   * and alone when there was no other; a fetch changes nothing; a deletion at the owner empties the cell;
   * and an owner that copies its own entry at a bootstrap may come back to an old value.
   */
  ghost predicate CellStep(it: Item, cell: Cell, q: Request, next: Cell) {
    match q
    case StoreReq(n, v, _, _) =>
      if it.select == Device then next == Full(n, v, {v})
      else
        || next == Full(it.key, v, {v})
        || (cell.Full? && !(cell.copies <= {v}) && next == Full(it.key, v, cell.copies + {v}))
    case FetchReq(_, _) => next == cell
    case DeleteReq(n) => next == if cell.Full? && n == cell.owner then Gone else cell
    case BootReq(n, _) =>
      next == cell || (cell.Full? && n == cell.owner && exists v :: v in cell.copies && next == cell.(latest := v))
  }

  lemma ServeCellSteps(s: Network, it: Item, cell: Cell, q: Request)
    requires Represents(s, it, cell)
    ensures CellStep(it, cell, q, ServeCell(s, it, cell, q))
  {
    hide Tree;
    if q.BootReq? && cell.Full? && Holder(s, q.from, it) { assert s[q.from].data[it] in cell.copies; }
  }

  /** A peer's address is stored by a request that has not visited that peer, and a device is registered
      for the first time, by a host among the two nearest peers it knows. */
  ghost predicate Lawful(s: Network, it: Item, cell: Cell, q: Request) {
    && Among(s.Keys, q)
    && (q.StoreReq? ==>
         if it.select == Peer then it.key in s && it.key !in q.chain
         else
           && it.select == Device && cell == Gone && q.fixedOwner && q.chain == [] && HostOf(q.v) == Some(q.n)
           && Routable(s, it) && q.n in TwoNearest(s, q.n, it, []))
  }

  // ---- One request on the entry ----

  lemma StoreRepresents(s: Network, it: Item, cell: Cell, q: Request)
    requires Represents(s, it, cell) && Lawful(s, it, cell, q) && q.StoreReq? && it.select == Peer
    ensures Represents(Serve(s, it, q), it, ServeCell(s, it, cell, q))
  {
    PeerStoreTree(s, q.n, it, q.v, q.chain);
    var t := Stored(s, q.n, it, q.v, q.chain).net;
    hide Tree, Stored;
    TreeOwner(t, it.key, it);
    StoredWithin(s, t, q.n, it, q.v, cell);
  }

  lemma StoredWithin(s: Network, t: Network, n: NodeId, it: Item, v: Value, cell: Cell)
    requires StoredOver(s, t, n, it, v) && Represents(s, it, cell)
    ensures var copies := if cell == Gone || Holders(s, it) <= {n, it.key} || cell.copies <= {v} then {v} else cell.copies + {v};
      Within(t, it, copies)
  {
    hide Tree;
    forall a | Holder(t, a, it) && a != n && a != it.key
      ensures cell.Full? && t[a].data[it] in cell.copies && a in Holders(s, it) {
      assert Holder(s, a, it);
    }
  }

  lemma DeviceRepresents(s: Network, it: Item, cell: Cell, q: Request)
    requires Represents(s, it, cell) && Lawful(s, it, cell, q) && q.StoreReq? && it.select == Device
    ensures Represents(Serve(s, it, q), it, ServeCell(s, it, cell, q))
  {
    NearHost(s, q.n, it, q.v);
    var t := DeviceStored(s, q.n, it, q.v, [], true).net;
    hide Tree, DeviceStored;
    TreeOwner(t, q.n, it);
  }

  lemma FetchRepresents(s: Network, it: Item, cell: Cell, n: NodeId, chain: seq<NodeId>)
    requires Represents(s, it, cell) && n in s
    ensures var (v, t) := Fetched(s, n, it, chain);
      Represents(t, it, cell) && (v.Some? ==> cell.Full? && v.value in cell.copies)
  {
    if cell == Gone { FetchOfBlank(s, it, n, chain); } else { FetchKeepsTree(s, cell.owner, it, n, chain, cell.copies); }
    hide Tree, Blank, Within, Fetched;
  }

  lemma DeleteRepresents(s: Network, it: Item, cell: Cell, n: NodeId)
    requires Represents(s, it, cell) && n in s && (it.select == Peer || it.select == Device)
    ensures Represents(Purge(s, Reached(s, n, it), it), it, if cell.Full? && n == cell.owner then Gone else cell)
  {
    if cell == Gone {
      ReachedClosed(s, n, it);
      hide Reached;
      assert !Holder(s, n, it);
      assert Purge(s, {}, it) == s;
    } else if n == cell.owner {
      DeleteAtOwner(s, n, it);
      hide Reached;
    } else {
      DeleteElsewhere(s, cell.owner, it, n);
      PurgeWithin(s, Reached(s, n, it), it, cell.copies);
      hide Reached, Tree;
    }
  }

  lemma PurgeWithin(s: Network, r: set<NodeId>, it: Item, copies: set<Value>)
    requires Within(s, it, copies)
    ensures Within(Purge(s, r, it), it, copies)
  {
    forall a | Holder(Purge(s, r, it), a, it) ensures Purge(s, r, it)[a].data[it] in copies {
      PurgeEdges(s, r, it, a, a);
      assert Holder(s, a, it);
    }
  }

  lemma BootRepresents(s: Network, it: Item, cell: Cell, n: NodeId, from: NodeId)
    requires Represents(s, it, cell) && n in s && Holder(s, from, it) && it.select == Peer
    ensures Represents(CacheFrom(s, n, from, it, s[from].data[it]), it, ServeCell(s, it, cell, BootReq(n, from)))
  {
    assert cell.Full?;
    var v := s[from].data[it];
    var t := CacheFrom(s, n, from, it, v);
    NewHolders(s, cell.owner, it, n, from, v);
    if n == cell.owner {
      TreeOwner(s, n, it);
      SameTree(s, t, n, it);
    } else {
      CacheKeepsTree(s, cell.owner, it, n, from, v);
    }
    hide Tree, CacheFrom;
    forall a | Holder(t, a, it) ensures t[a].data[it] in cell.copies { assert a == n || Holder(s, a, it); }
  }

  /** Every lawful request on an entry acts on the network as it does on the cell. */
  lemma ServeRepresents(s: Network, it: Item, cell: Cell, q: Request)
    requires Represents(s, it, cell) && Lawful(s, it, cell, q) && (it.select == Peer || it.select == Device)
    ensures Represents(Serve(s, it, q), it, ServeCell(s, it, cell, q))
  {
    match q
    case StoreReq(_, _, _, _) =>
      if it.select == Peer { StoreRepresents(s, it, cell, q); } else { DeviceRepresents(s, it, cell, q); }
    case FetchReq(n, chain) =>
      FetchRepresents(s, it, cell, n, chain);
      hide Represents;
    case DeleteReq(n) =>
      DeleteRepresents(s, it, cell, n);
      hide Represents;
    case BootReq(n, from) =>
      if it.select == Peer && Holder(s, from, it) { BootRepresents(s, it, cell, n, from); }
      hide Represents;
  }

  // ---- Requests on other entries ----

  /** What the tables of a peer say about an entry. */
  predicate SameEntry(a: NodeState, b: NodeState, it: Item) {
    && (it in a.data <==> it in b.data) && (it in a.data ==> a.data[it] == b.data[it])
    && (it in a.cached <==> it in b.cached) && (it in a.subs <==> it in b.subs)
    && (it in a.serve <==> it in b.serve) && (it in a.serve ==> a.serve[it] == b.serve[it])
  }

  ghost predicate Apart(s: Network, t: Network, it: Item) {
    s.Keys == t.Keys && forall a :: a in s ==> SameEntry(s[a], t[a], it)
  }

  lemma ApartTransitive(s: Network, t: Network, u: Network, it: Item)
    requires Apart(s, t, it) && Apart(t, u, it)
    ensures Apart(s, u, it)
  {
    forall a | a in s ensures SameEntry(s[a], u[a], it) { assert SameEntry(s[a], t[a], it) && SameEntry(t[a], u[a], it); }
  }

  lemma ApartOne(s: Network, n: NodeId, b: NodeState, it: Item)
    requires n in s && SameEntry(s[n], b, it)
    ensures Apart(s, s[n := b], it)
  {
  }

  lemma SubscribeApart(s: Network, n: NodeId, m: NodeId, other: Item, it: Item)
    requires n in s && m in s && other != it
    ensures Apart(s, SubscribeTo(s, n, m, other), it)
  {
  }

  lemma CacheApart(s: Network, n: NodeId, m: NodeId, other: Item, v: Value, it: Item)
    requires n in s && m in s && other != it
    ensures Apart(s, CacheFrom(s, n, m, other, v), it)
  {
    var t := s[n := s[n].Learn(other).PutCached(other, v)];
    ApartOne(s, n, t[n], it);
    SubscribeApart(t, n, m, other, it);
    hide SubscribeTo;
    ApartTransitive(s, t, SubscribeTo(t, n, m, other), it);
  }

  lemma {:induction false} AlongApart(s: Network, p: seq<NodeId>, other: Item, v: Value, it: Item)
    requires p != [] && (forall x :: x in p ==> x in s) && other != it
    ensures Apart(s, CacheAlong(s, p, other, v), it)
    decreases |p|
  {
    if |p| > 1 {
      AlongApart(s, p[1..], other, v, it);
      CacheAlongStep(s, p, other, v);
      hide CacheFrom, Apart, CacheAlong;
      var t := CacheAlong(s, p[1..], other, v);
      CacheApart(t, p[0], p[1], other, v, it);
      ApartTransitive(s, t, CacheFrom(t, p[0], p[1], other, v), it);
    }
  }

  lemma FetchApart(s: Network, n: NodeId, other: Item, chain: seq<NodeId>, it: Item)
    requires n in s && other != it
    ensures Apart(s, Fetched(s, n, other, chain).1, it)
  {
    SearchDecides(s, n, other, chain);
    var r := Search(s, n, other, chain);
    if r.Some? { AlongApart(s, r.value, other, s[r.value[|r.value| - 1]].data[other], it); }
    hide CacheAlong, Search;
  }

  lemma KeptApart(a: NodeState, n: NodeId, other: Item, v: Value, owned: bool, it: Item)
    requires other != it
    ensures SameEntry(a, Kept(a.Learn(other), n, other, v, owned), it)
  {
  }

  lemma {:induction false} StoredApart(s: Network, n: NodeId, other: Item, v: Value, chain: seq<NodeId>, it: Item)
    requires n in s && other.select != Device && other != it
    ensures Apart(s, Stored(s, n, other, v, chain).net, it)
    decreases Unvisited(s, Elems(chain) + {n})
  {
    var t := SetPlain(s, n, other, v, chain);
    var hop := NextHop(s, n, other, chain);
    KeptApart(s[n], n, other, v, n in hop, it);
    ApartOne(s, n, t[n], it);
    hide Apart, Kept, NextHop;
    StoredEnds(s, n, other, v, chain);
    var m := FirstNew(s.Keys, hop, chain + [n]);
    hide FirstNew, SetPlain;
    if n !in hop && m.Some? {
      StoredStep(s, n, other, v, chain, m.value);
      SameUnvisited(s, t, Elems(chain + [n]) + {m.value});
      hide Unvisited;
      StoredApart(t, m.value, other, v, chain + [n], it);
      var u := Stored(t, m.value, other, v, chain + [n]).net;
      ApartTransitive(s, t, u, it);
      SubscribeApart(u, n, m.value, other, it);
      ApartTransitive(s, u, SubscribeTo(u, n, m.value, other), it);
    }
  }

  lemma SetDeviceApart(s: Network, n: NodeId, other: Item, v: Value, chain: seq<NodeId>, fixedOwner: bool, it: Item)
    requires n in s && other != it
    ensures Apart(s, SetDevice(s, n, other, v, chain, fixedOwner).0, it)
  {
    hide TwoNearest, Apart, SubscribeTo;
    ApartOne(s, n, s[n].KeepCopy(other, v), it);
    ApartOne(s, n, s[n].Keep(other, v), it);
    ApartOne(s, n, s[n].Keep(other, v).OpenServe(other), it);
    ApartOne(s, n, Orphaned(s[n], other, v), it);
    var host := HostOf(v);
    if host.Some? && host.value in s {
      var t := s[n := s[n].KeepCopy(other, v)];
      var u := SubscribeTo(t, n, host.value, other);
      SubscribeApart(t, n, host.value, other, it);
      ApartTransitive(s, t, u, it);
      ApartOne(u, n, u[n].OpenServe(other), it);
      ApartTransitive(s, u, u[n := u[n].OpenServe(other)], it);
    }
  }

  lemma {:induction false} DeviceApart(s: Network, n: NodeId, other: Item, v: Value, chain: seq<NodeId>, fixedOwner: bool, it: Item)
    requires n in s && other.select == Device && other != it
    ensures Apart(s, DeviceStored(s, n, other, v, chain, fixedOwner).net, it)
    decreases Unvisited(s, Elems(chain) + {n})
  {
    hide SetDevice, Apart, TwoNearest, FirstNew, SubscribeTo;
    var (t, status) := SetDevice(s, n, other, v, chain, fixedOwner);
    SetDeviceApart(s, n, other, v, chain, fixedOwner, it);
    var m := FirstNew(s.Keys, TwoNearest(s, n, other, chain), chain + [n]);
    if status == FOUND && m.Some? {
      hide *;
      DeviceStep(s, n, other, v, chain, fixedOwner, t, m.value);
      SameUnvisited(s, t, Elems(chain + [n]) + {m.value});
      DeviceApart(t, m.value, other, v, chain + [n], false, it);
      var u := DeviceStored(t, m.value, other, v, chain + [n], false).net;
      ApartTransitive(s, t, u, it);
      SubscribeApart(u, n, m.value, other, it);
      ApartTransitive(s, u, SubscribeTo(u, n, m.value, other), it);
    } else {
      DeviceEnds(s, n, other, v, chain, fixedOwner);
    }
  }

  lemma PurgeApart(s: Network, r: set<NodeId>, other: Item, it: Item)
    requires other != it
    ensures Apart(s, Purge(s, r, other), it)
  {
  }

  /** A request leaves all other entries as they are. */
  lemma ServeApart(s: Network, other: Item, q: Request, it: Item)
    requires Among(s.Keys, q) && other != it
    ensures Apart(s, Serve(s, other, q), it)
  {
    assert Apart(s, s, it);
    hide Apart, Fetched, Stored, DeviceStored, Purge, CacheFrom, Reached;
    match q
    case StoreReq(n, v, chain, fixedOwner) =>
      if other.select == Device { DeviceApart(s, n, other, v, chain, fixedOwner, it); } else { StoredApart(s, n, other, v, chain, it); }
    case FetchReq(n, chain) =>
      FetchApart(s, n, other, chain, it);
    case DeleteReq(n) =>
      PurgeApart(s, Reached(s, n, other), other, it);
    case BootReq(n, from) =>
      if Holder(s, from, other) { CacheApart(s, n, from, other, s[from].data[other], it); }
  }

  lemma ApartRepresents(s: Network, t: Network, it: Item, cell: Cell)
    requires Apart(s, t, it) && Represents(s, it, cell)
    ensures Represents(t, it, cell)
  {
    forall a | a in s ensures SameEntry(s[a], t[a], it) {}
    if cell.Full? {
      SameTree(s, t, cell.owner, it);
      hide Tree;
      forall a | Holder(t, a, it) ensures t[a].data[it] in cell.copies { assert Holder(s, a, it); }
    }
  }

  // ---- Runs ----

  /** A request and the entry it is about. */
  datatype Op = Op(it: Item, q: Request)

  ghost predicate RunAmong(keys: set<NodeId>, run: seq<Op>) {
    forall i :: 0 <= i < |run| ==> Among(keys, run[i].q)
  }

  ghost function After(s: Network, run: seq<Op>): (t: Network)
    requires RunAmong(s.Keys, run)
    ensures t.Keys == s.Keys
    decreases |run|
  {
    if run == [] then s else After(Serve(s, run[0].it, run[0].q), run[1..])
  }

  /** The cell of one entry after a run on all of them. */
  ghost function CellAfter(s: Network, it: Item, cell: Cell, run: seq<Op>): Cell
    requires RunAmong(s.Keys, run)
    decreases |run|
  {
    if run == [] then cell
    else CellAfter(Serve(s, run[0].it, run[0].q), it, if run[0].it == it then ServeCell(s, it, cell, run[0].q) else cell, run[1..])
  }

  /** The requests of a run on one entry are lawful when their turn comes. */
  ghost predicate LawfulRun(s: Network, it: Item, cell: Cell, run: seq<Op>)
    requires RunAmong(s.Keys, run)
    decreases |run|
  {
    run == [] || (
      && (run[0].it == it ==> Lawful(s, it, cell, run[0].q))
      && LawfulRun(Serve(s, run[0].it, run[0].q), it, if run[0].it == it then ServeCell(s, it, cell, run[0].q) else cell, run[1..]))
  }

  /** A run of the cell alone: it steps at the requests on its entry and ends as last. */
  ghost predicate CellRun(it: Item, cell: Cell, run: seq<Op>, last: Cell)
    decreases |run|
  {
    if run == [] then last == cell
    else exists next :: CellOp(it, cell, run[0], next) && CellRun(it, next, run[1..], last)
  }

  ghost predicate CellOp(it: Item, cell: Cell, op: Op, next: Cell) {
    if op.it == it then CellStep(it, cell, op.q, next) else next == cell
  }

  /** The run neither stores the entry nor deletes it at its owner. */
  ghost predicate LeavesAlone(it: Item, o: NodeId, run: seq<Op>) {
    forall i :: 0 <= i < |run| && run[i].it == it ==> !run[i].q.StoreReq? && !(run[i].q.DeleteReq? && run[i].q.n == o)
  }

  /** Through such a run a cell of one value keeps that value. */
  lemma {:induction false} CellKeeps(it: Item, cell: Cell, run: seq<Op>, last: Cell)
    requires CellRun(it, cell, run, last) && cell.Full? && cell.copies == {cell.latest} && LeavesAlone(it, cell.owner, run)
    ensures last == cell
    decreases |run|
  {
    if run != [] {
      var next :| CellOp(it, cell, run[0], next) && CellRun(it, next, run[1..], last);
      assert next == cell;
      CellKeeps(it, next, run[1..], last);
    }
  }

  /** One request of a run, on whatever entry. */
  lemma OpRefinesCell(s: Network, it: Item, cell: Cell, op: Op)
    requires Represents(s, it, cell) && (it.select == Peer || it.select == Device) && Among(s.Keys, op.q) && (op.it == it ==> Lawful(s, it, cell, op.q))
    ensures var next := if op.it == it then ServeCell(s, it, cell, op.q) else cell;
      Represents(Serve(s, op.it, op.q), it, next) && CellOp(it, cell, op, next)
  {
    hide Represents, Lawful, Serve, ServeCell, CellStep;
    if op.it == it {
      ServeRepresents(s, it, cell, op.q);
      ServeCellSteps(s, it, cell, op.q);
    } else {
      ServeApart(s, op.it, op.q, it);
      ApartRepresents(s, Serve(s, op.it, op.q), it, cell);
    }
  }

  /** Whatever requests on whatever entries interleave with it, a lawful run on a peer's address or a
      device leaves the network representing a cell that a run of the cell alone can end as. */
  lemma {:induction false} RunRefinesCell(s: Network, it: Item, cell: Cell, run: seq<Op>)
    requires Represents(s, it, cell) && (it.select == Peer || it.select == Device) && RunAmong(s.Keys, run) && LawfulRun(s, it, cell, run)
    ensures Represents(After(s, run), it, CellAfter(s, it, cell, run))
    ensures CellRun(it, cell, run, CellAfter(s, it, cell, run))
    decreases |run|
  {
    if run != [] {
      FirstAmong(s.Keys, run);
      var op := run[0];
      hide Represents, Lawful, Serve, ServeCell, RunAmong, CellOp, Among;
      OpRefinesCell(s, it, cell, op);
      RunRefinesCell(Serve(s, op.it, op.q), it, if op.it == it then ServeCell(s, it, cell, op.q) else cell, run[1..]);
    }
  }

  lemma FirstAmong(keys: set<NodeId>, run: seq<Op>)
    requires RunAmong(keys, run) && run != []
    ensures Among(keys, run[0].q) && RunAmong(keys, run[1..])
  {
    assert Among(keys, run[0].q);
    hide Among;
  }

  /** Stores of the peer's address have not visited that peer. */
  ghost predicate PeerStores(it: Item, run: seq<Op>) {
    forall i :: 0 <= i < |run| && run[i].it == it && run[i].q.StoreReq? ==> it.key !in run[i].q.chain
  }

  lemma {:induction false} PeerRunsAreLawful(s: Network, it: Item, cell: Cell, run: seq<Op>)
    requires it.select == Peer && it.key in s && RunAmong(s.Keys, run) && PeerStores(it, run)
    ensures LawfulRun(s, it, cell, run)
    decreases |run|
  {
    if run != [] {
      hide Serve, ServeCell;
      assert Among(s.Keys, run[0].q);
      PeerRunsAreLawful(Serve(s, run[0].it, run[0].q), it, if run[0].it == it then ServeCell(s, it, cell, run[0].q) else cell, run[1..]);
    }
  }

  // ---- From start-up ----

  /** Freshly started peers represent each peer's own address, and no entry under any other key. */
  lemma StartRepresents(s: Network, tr: map<NodeId, Value>, it: Item)
    requires Started(s, tr)
    ensures it.select == Peer && it.key in s ==> Represents(s, it, Full(it.key, tr[it.key], {tr[it.key]}))
    ensures Represents(s, it, Gone) <==> it.key !in s
  {
    StartTables(s, tr, it);
    var a := it.key;
    if it.select == Peer && a in s {
      hide Blank, Routable;
      ReachesSelf(s, a, it);
      forall n | n in s ensures Coherent(s, n, a, it) {}
      forall n | Holder(s, n, it) ensures n == a && n in Reached(s, a, it) {}
    }
  }

  /**
   * From start-up, after any interleaving of stores, fetches, deletions and bootstraps of any entries,
   * a fetch of any peer's address at any peer returns a value of its cell or nothing; the latest, at the
   * owner; and nothing, with no copy anywhere, once the owner has deleted it.
   */
  lemma FetchAfterRun(s: Network, tr: map<NodeId, Value>, run: seq<Op>, a: NodeId, n: NodeId, chain: seq<NodeId>)
    requires Started(s, tr) && RunAmong(s.Keys, run) && PeerStores(Item(Peer, a), run) && a in s && n in s
    ensures var it, t := Item(Peer, a), After(s, run);
      var cell := CellAfter(s, it, Full(a, tr[a], {tr[a]}), run);
      var v := Fetched(t, n, it, chain).0;
      && Represents(t, it, cell)
      && CellRun(it, Full(a, tr[a], {tr[a]}), run, cell)
      && (v.Some? ==> cell.Full? && v.value in cell.copies)
      && (n == a && cell.Full? ==> v == Some(cell.latest))
      && (cell == Gone ==> Holders(t, it) == {})
  {
    var it := Item(Peer, a);
    var cell := Full(a, tr[a], {tr[a]});
    hide *;
    PeersAmong(s, run);
    StartRepresents(s, tr, it);
    PeerRunsAreLawful(s, it, cell, run);
    RunRefinesCell(s, it, cell, run);
    FetchRepresents(After(s, run), it, CellAfter(s, it, cell, run), n, chain);
    GoneHolds(After(s, run), it, CellAfter(s, it, cell, run));
    if n == a && CellAfter(s, it, cell, run).Full? { OwnerAnswers(After(s, run), it, CellAfter(s, it, cell, run), chain); }
  }

  lemma OwnerAnswers(s: Network, it: Item, cell: Cell, chain: seq<NodeId>)
    requires Represents(s, it, cell) && cell.Full?
    ensures cell.owner in s && Fetched(s, cell.owner, it, chain).0 == Some(cell.latest)
    ensures it.select == Peer ==> cell.owner == it.key
  {
    FetchedHere(s, cell.owner, it, chain);
    hide Fetched;
  }

  lemma PeersAmong(s: Network, run: seq<Op>)
    requires RunAmong(s.Keys, run)
    ensures After(s, run).Keys == s.Keys
  {
  }

  lemma GoneHolds(s: Network, it: Item, cell: Cell)
    requires Represents(s, it, cell)
    ensures cell == Gone ==> Holders(s, it) == {}
  {
    hide Tree, Within;
  }

  // ---- Stores that replace a value ----

  ghost predicate AllCopies(s: Network, it: Item, v: Value) {
    forall a :: Holder(s, a, it) ==> s[a].data[it] == v
  }

  /** A store of a new value for a known peer's address reaches every copy exactly when no peer but its
      starter and the owner has one. */
  lemma OverwriteReachesAll(s: Network, it: Item, v: Value, n: NodeId, w: Value, chain: seq<NodeId>)
    requires it.select == Peer && it.key in s && Represents(s, it, Full(it.key, v, {v}))
    requires n in s && it.key !in chain && v != w
    ensures AllCopies(Stored(s, n, it, w, chain).net, it, w) <==> Holders(s, it) <= {n, it.key}
  {
    PeerStoreTree(s, n, it, w, chain);
    hide Tree, Stored;
    OverwriteReaches(s, Stored(s, n, it, w, chain).net, n, it, v, w);
  }

  lemma OverwriteReaches(s: Network, t: Network, n: NodeId, it: Item, v: Value, w: Value)
    requires StoredOver(s, t, n, it, w) && Within(s, it, {v}) && v != w
    ensures AllCopies(t, it, w) <==> Holders(s, it) <= {n, it.key}
  {
    if Holders(s, it) <= {n, it.key} {
      forall a | Holder(t, a, it) ensures t[a].data[it] == w { assert Holder(s, a, it) ==> a in Holders(s, it); }
    } else {
      var a :| a in Holders(s, it) && a != n && a != it.key;
      assert Holder(s, a, it) && Holder(t, a, it);
    }
  }
}

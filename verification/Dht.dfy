/**
 * One peer's share of the distributed hash tables: src/core/DHT.py and the fields of
 * src/plugboard.py that the DHT handlers update.
 *
 * A peer keeps four tables (peers, tasks, files, devices).  They differ only in the select tag
 * of a request, so their entries live in one map keyed by (select, key).  Every handler that
 * adds or removes an address does so in all four tables at once, so one address set stands for
 * the four.
 */
module Dht {
  import opened Metric
  import opened Wrappers

  datatype Select = Peer | Task | File | Device

  datatype Item = Item(select: Select, key: NodeId)

  /** A table value: the address field some tables rewrite, and the rest. */
  datatype Value = Value(address: Bytes, payload: Bytes)

  datatype Status = OWNED | FOUND | NOT_FOUND | OK | ERR

  /** Everything the DHT handlers of one peer read or write. */
  datatype NodeState = NodeState(
    data: map<Item, Value>,
    cached: set<Item>,
    addr: set<NodeId>,
    serve: map<Item, set<NodeId>>,
    subs: set<Item>)
  {
    predicate Holds(it: Item) { it in data }

    predicate Owns(it: Item) { it in data && it !in cached }

    /** A request for a transport address teaches the peer that address. */
    function Learn(it: Item): NodeState {
      if it.select == Peer then this.(addr := addr + {it.key}) else this
    }

    /** DHT.set_cache. */
    function PutCached(it: Item, v: Value): NodeState {
      this.(data := data[it := v], cached := if Owns(it) then cached else cached + {it})
    }

    /** DHT.set at a peer that is among the nearest, and at one that only keeps a copy. */
    function Keep(it: Item, v: Value): NodeState {
      this.(data := data[it := v])
    }

    function KeepCopy(it: Item, v: Value): NodeState {
      this.(data := data[it := v], cached := cached + {it})
    }

    /** From now on the peer records who caches the entry from it. */
    function OpenServe(it: Item): NodeState {
      if it in serve then this else this.(serve := serve[it := {}])
    }

    /** DHT.remove, together with the address when the entry is a peer's. */
    function Drop(it: Item): NodeState {
      this.(data := data - {it}, cached := cached - {it},
            addr := if it.select == Peer then addr - {it.key} else addr)
    }

    /** What a deletion notice leaves at a holder.  Without a serve entry the handler fails
        after the entry is dropped, and the subscription stays. */
    function Purged(it: Item): NodeState {
      if it in serve then Drop(it).(subs := subs - {it}, serve := serve - {it}) else Drop(it)
    }

    /** RegisterNotice: only a peer with a serve entry records the cacher. */
    function Register(it: Item, who: NodeId): NodeState {
      if it in serve then this.(serve := serve[it := serve[it] + {who}]) else this
    }

    function Subscribe(it: Item): NodeState {
      this.(subs := subs + {it}, serve := serve[it := {}])
    }

    /** The peers a fetch or a store may be passed on to: sorted(addr - ignore, key=distance)[:n]. */
    function Neighbors(it: Item, n: nat, ignore: set<NodeId>): seq<NodeId> {
      Closest(it.key, addr - ignore, n)
    }
  }

  /** The tables of a peer that has just started. */
  function Initial(me: NodeId, transport: Value): NodeState {
    NodeState(
      map[Item(Peer, me) := transport], {}, {me},
      map[Item(Peer, me) := {}, Item(Task, me) := {}, Item(File, me) := {}, Item(Device, me) := {}],
      {})
  }

  class PlugBoard {
    const myAddr: NodeId
    var data: map<Item, Value>
    var cached: set<Item>
    var addr: set<NodeId>
    var serve: map<Item, set<NodeId>>
    var subs: set<Item>

    ghost function State(): NodeState
      reads this
    {
      NodeState(data, cached, addr, serve, subs)
    }

    constructor (me: NodeId, transport: Value)
      ensures myAddr == me && State() == Initial(me, transport)
      ensures data == map[Item(Peer, me) := transport] && cached == {} && addr == {me} && subs == {}
      ensures serve.Keys == {Item(Peer, me), Item(Task, me), Item(File, me), Item(Device, me)}
      ensures forall it :: it in serve ==> serve[it] == {}
    {
      myAddr := me;
      data := map[Item(Peer, me) := transport];
      cached := {};
      addr := {me};
      serve := map[Item(Peer, me) := {}, Item(Task, me) := {}, Item(File, me) := {}, Item(Device, me) := {}];
      subs := {};
    }

    /** DHT.get with its default of three neighbors. */
    method Get(it: Item) returns (status: Status, v: Option<Value>, neighbors: seq<NodeId>)
      ensures status == if State().Owns(it) then OWNED else if State().Holds(it) then FOUND else NOT_FOUND
      ensures v == if State().Holds(it) then Some(data[it]) else None
      ensures neighbors == if State().Holds(it) then [] else State().Neighbors(it, 3, {})
      ensures !State().Holds(it) ==> forall x :: x in neighbors <==> x in addr && |Nearer(it.key, addr, x)| < 3
      ensures NearestFirst(it.key, neighbors)
    {
      NearestN(it.key, addr, 3);
      if it in data && it !in cached { return OWNED, Some(data[it]), []; }
      if it in data && it in cached { return FOUND, Some(data[it]), []; }
      assert addr - {} == addr;
      return NOT_FOUND, None, Closest(it.key, addr - {}, 3);
    }

    method SetCache(it: Item, v: Value) returns (isNew: bool)
      modifies this
      ensures State() == old(State()).PutCached(it, v)
      ensures data == old(data)[it := v] && cached == (if isNew then old(cached) + {it} else old(cached))
      ensures addr == old(addr) && serve == old(serve) && subs == old(subs)
      ensures isNew == !(it in old(data) && it !in old(cached))
    {
      if it in data && it !in cached {
        data := data[it := v];
        return false;
      }
      data := data[it := v];
      cached := cached + {it};
      return true;
    }

    /** DHT.set. */
    method Set(it: Item, v: Value, n: nat, postToCache: bool, ignore: set<NodeId>) returns (status: Status, neighbors: seq<NodeId>)
      modifies this`data, this`cached
      ensures neighbors == old(State()).Neighbors(it, n, ignore)
      ensures forall x :: x in neighbors <==> x in addr - ignore && |Nearer(it.key, addr - ignore, x)| < n
      ensures NearestFirst(it.key, neighbors)
      ensures status == if myAddr in neighbors then OWNED else FOUND
      ensures State() == if status == OWNED then old(State()).Keep(it, v) else if postToCache then old(State()).KeepCopy(it, v) else old(State())
      ensures data == (if status == OWNED || postToCache then old(data)[it := v] else old(data))
      ensures cached == (if status == FOUND && postToCache then old(cached) + {it} else old(cached))
    {
      hide Closest, Nearer, NearestFirst;
      NearestN(it.key, addr - ignore, n);
      neighbors := Closest(it.key, addr - ignore, n);
      if myAddr !in neighbors {
        if postToCache {
          cached := cached + {it};
          data := data[it := v];
        }
        return FOUND, neighbors;
      }
      data := data[it := v];
      return OWNED, neighbors;
    }

    method OpenServe(it: Item)
      modifies this`serve
      ensures State() == old(State()).OpenServe(it)
      ensures serve == if it in old(serve) then old(serve) else old(serve)[it := {}]
    {
      if it !in serve { serve := serve[it := {}]; }
    }

    method UpdateAddresses(a: NodeId)
      modifies this`addr
      ensures addr == old(addr) + {a}
    {
      addr := addr + {a};
    }

    method Remove(it: Item)
      modifies this`data, this`cached
      ensures data == old(data) - {it} && cached == old(cached) - {it}
      ensures it !in old(data) && it !in old(cached) ==> data == old(data) && cached == old(cached)
    {
      if it in data { data := data - {it}; }
      if it in cached { cached := cached - {it}; }
    }

    method RemovePeerFromAddressTables(a: NodeId)
      modifies this`addr
      ensures addr == old(addr) - {a}
    {
      if a in addr { addr := addr - {a}; }
    }

    /** A holder's first reaction to a deletion notice. */
    method DropEntry(it: Item)
      modifies this
      ensures State() == old(State()).Drop(it)
      ensures data == old(data) - {it} && cached == old(cached) - {it} && serve == old(serve) && subs == old(subs)
      ensures addr == if it.select == Peer then old(addr) - {it.key} else old(addr)
    {
      Remove(it);
      if it.select == Peer { RemovePeerFromAddressTables(it.key); }
    }

    /** The notified cachers leave the serve entry one by one; none of them is missing from it. */
    method ForgetCachers(it: Item, gone: set<NodeId>)
      requires it in serve && gone <= serve[it]
      modifies this`serve
      ensures serve == old(serve)[it := old(serve[it]) - gone]
    {
      var rest := gone;
      while rest != {}
        invariant rest <= gone && it in serve
        invariant serve == old(serve)[it := serve[it]]
        invariant serve[it] == old(serve[it]) - (gone - rest)
      {
        var c :| c in rest;
        assert c in serve[it];
        serve := serve[it := serve[it] - {c}];
        rest := rest - {c};
      }
      assert gone - rest == gone;
    }

    /** A holder's last reaction to a deletion notice: nobody is served any more. */
    method Unserve(it: Item)
      modifies this`subs, this`serve
      ensures subs == old(subs) - {it} && serve == old(serve) - {it}
    {
      if it in subs { subs := subs - {it}; }
      if it in serve { serve := serve - {it}; }
    }

    /** DHTService.RegisterNotice; false stands for the KeyError of a missing serve entry. */
    method RegisterNotice(it: Item, who: NodeId) returns (ok: bool)
      modifies this`serve
      ensures State() == old(State()).Register(it, who)
      ensures ok == (it in old(serve))
      ensures serve == if ok then old(serve)[it := old(serve)[it] + {who}] else old(serve)
    {
      if it !in serve { return false; }
      serve := serve[it := serve[it] + {who}];
      return true;
    }
  }

  /** The peers that resolve to a transport and answer, by address. */
  ghost predicate Wired(net: map<NodeId, PlugBoard>) {
    forall a :: a in net ==> net[a].myAddr == a
  }

  type Network = map<NodeId, NodeState>

  ghost function Snap(net: map<NodeId, PlugBoard>): Network
    reads net.Values
  {
    map a | a in net :: net[a].State()
  }

  function Elems(s: seq<NodeId>): set<NodeId> {
    set x | x in s
  }

  /** A change of one peer's fields changes one entry of the network's snapshot. */
  lemma SnapAt(net: map<NodeId, PlugBoard>, me: PlugBoard, before: Network)
    requires Wired(net) && me.myAddr in net && net[me.myAddr] == me
    requires before.Keys == net.Keys
    requires forall a :: a in net && a != me.myAddr ==> net[a].State() == before[a]
    ensures Snap(net) == before[me.myAddr := me.State()]
  {
  }

  // ---- Subscribing to an upstream peer ----

  /** dht_set_cache_notices: n subscribes to it at the peer up, unless it already has an entry. */
  ghost function SubscribeTo(s: Network, n: NodeId, up: NodeId, it: Item): (t: Network)
    requires n in s && up in s
    ensures t.Keys == s.Keys
    ensures forall x :: x in s ==> t[x].data == s[x].data && t[x].cached == s[x].cached && t[x].addr == s[x].addr
  {
    if it in s[n].subs || it in s[n].serve then s
    else
      var t := if up == n then s else s[up := s[up].Register(it, n)];
      t[n := t[n].Subscribe(it)]
  }

  /** dht_cache_store: n caches v for it, obtained from the peer up. */
  ghost function CacheFrom(s: Network, n: NodeId, up: NodeId, it: Item, v: Value): (t: Network)
    requires n in s && up in s
    ensures t.Keys == s.Keys
  {
    var t := s[n := s[n].Learn(it).PutCached(it, v)];
    if s[n].Owns(it) then t else SubscribeTo(t, n, up, it)
  }

  /** In the tables: a peer with a subscription or a serve entry changes nothing anywhere; any other opens
      both, and joins the serve entry of the peer it subscribes at, if there is one. */
  lemma SubscriptionTables(s: Network, n: NodeId, up: NodeId, it: Item)
    requires n in s && up in s
    ensures var t := SubscribeTo(s, n, up, it);
      if it in s[n].subs || it in s[n].serve then t == s
      else
        && t[n].data == s[n].data && t[n].cached == s[n].cached && t[n].addr == s[n].addr
        && t[n].subs == s[n].subs + {it} && t[n].serve == s[n].serve[it := {}]
        && (up != n ==> t[up].data == s[up].data && t[up].cached == s[up].cached && t[up].addr == s[up].addr && t[up].subs == s[up].subs)
        && (up != n ==> t[up].serve == if it in s[up].serve then s[up].serve[it := s[up].serve[it] + {n}] else s[up].serve)
        && forall a :: a in s && a != n && a != up ==> t[a] == s[a]
  {
  }

  /** In the tables: the peer has the value, as its own if it owned the entry and as a copy otherwise; it
      knows the address that a peer's entry gives; and it has subscribed only if it did not own the entry. */
  lemma CachingTables(s: Network, n: NodeId, up: NodeId, it: Item, v: Value)
    requires n in s && up in s
    ensures var t, w := CacheFrom(s, n, up, it, v), SubscribeTo(s, n, up, it);
      && t[n].data == s[n].data[it := v]
      && t[n].cached == (if s[n].Owns(it) then s[n].cached else s[n].cached + {it})
      && t[n].addr == (if it.select == Peer then s[n].addr + {it.key} else s[n].addr)
      && (forall a :: a in s && a != n ==> t[a].data == s[a].data && t[a].cached == s[a].cached && t[a].addr == s[a].addr)
      && forall a :: a in s ==>
        t[a].subs == (if s[n].Owns(it) then s[a].subs else w[a].subs) && t[a].serve == if s[n].Owns(it) then s[a].serve else w[a].serve
  {
    var t := s[n := s[n].Learn(it).PutCached(it, v)];
    SubscribesAlike(s, t, n, up, it);
    hide SubscribeTo;
  }

  /** Whether and where a peer subscribes depends on subscriptions and serve entries only. */
  lemma SubscribesAlike(s: Network, t: Network, n: NodeId, up: NodeId, it: Item)
    requires n in s && up in s && t.Keys == s.Keys && forall a :: a in s ==> t[a].subs == s[a].subs && t[a].serve == s[a].serve
    ensures forall a :: a in s ==> SubscribeTo(t, n, up, it)[a].subs == SubscribeTo(s, n, up, it)[a].subs
    ensures forall a :: a in s ==> SubscribeTo(t, n, up, it)[a].serve == SubscribeTo(s, n, up, it)[a].serve
  {
    hide SubscribeTo;
    SubscriptionTables(s, n, up, it);
    SubscriptionTables(t, n, up, it);
  }

  method DhtSetCacheNotices(net: map<NodeId, PlugBoard>, me: PlugBoard, it: Item, up: NodeId)
    requires Wired(net) && me.myAddr in net && net[me.myAddr] == me && up in net
    modifies net.Values
    ensures Snap(net) == SubscribeTo(old(Snap(net)), me.myAddr, up, it)
  {
    ghost var s := Snap(net);
    assert s[me.myAddr] == me.State();
    if it in me.subs { return; }
    if it in me.serve { return; }
    if up != me.myAddr {
      var _ := net[up].RegisterNotice(it, me.myAddr);
      SnapAt(net, net[up], s);
    }
    ghost var t := Snap(net);
    assert t[me.myAddr] == me.State();
    me.subs := me.subs + {it};
    me.serve := me.serve[it := {}];
    SnapAt(net, me, t);
  }

  method DhtCacheStore(net: map<NodeId, PlugBoard>, me: PlugBoard, it: Item, v: Value, up: NodeId)
    requires Wired(net) && me.myAddr in net && net[me.myAddr] == me && up in net
    modifies net.Values
    ensures Snap(net) == CacheFrom(old(Snap(net)), me.myAddr, up, it, v)
  {
    ghost var s := Snap(net);
    assert s[me.myAddr] == me.State();
    if it.select == Peer { me.UpdateAddresses(it.key); }
    var isNew := me.SetCache(it, v);
    SnapAt(net, me, s);
    if !isNew { return; }
    DhtSetCacheNotices(net, me, it, up);
  }
}

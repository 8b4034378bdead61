/**
 * StoreItem (src/communications/DHTService.py) and dht_set_plain (src/plugboard.py): a value is kept
 * by a peer that is itself among the nearest it knows, and is passed on otherwise.  Peers, tasks and
 * files go to the one nearest peer; a device goes to two, and stays owned by its host.
 */
module Placement {
  import opened Metric
  import opened Wrappers
  import opened Dht
  import opened Fetch

  /** What the owner o writes for a stored value: tasks and files record the owner's address. */
  function Stamp(it: Item, v: Value, o: NodeId): Value {
    match it.select
    case Task => v.(address := o.bytes)
    case File => Value(o.bytes, [])
    case _ => v
  }

  /** The nearest address peer n knows off the chain: sorted(addr - ignore)[:1]. */
  ghost function NextHop(s: Network, n: NodeId, it: Item, chain: seq<NodeId>): seq<NodeId>
    requires n in s && it.select != Device
  {
    s[n].Learn(it).Neighbors(it, 1, Elems(chain))
  }

  /** dht_set_plain at n: it keeps the value when it is itself the nearest address it knows. */
  ghost function SetPlain(s: Network, n: NodeId, it: Item, v: Value, chain: seq<NodeId>): (t: Network)
    requires n in s && it.select != Device
    ensures t.Keys == s.Keys
  {
    s[n := Kept(s[n].Learn(it), n, it, v, n in NextHop(s, n, it, chain))]
  }

  /** The tables of a peer that owns the value, or passes it on: then only peers' addresses are cached. */
  function Kept(a: NodeState, n: NodeId, it: Item, v: Value, owned: bool): NodeState {
    if owned then a.Keep(it, Stamp(it, v, n)).OpenServe(it)
    else if it.select == Peer then a.KeepCopy(it, v)
    else a
  }

  /** In the tables: an owner has the stamped value and serves it, whatever it had; a peer that passes on a
      peer's address keeps a copy, and one that passes on a task or a file keeps nothing. */
  lemma KeptTables(a: NodeState, n: NodeId, it: Item, v: Value, owned: bool)
    requires it.select != Device
    ensures var b := Kept(a.Learn(it), n, it, v, owned);
      && b.addr == (if it.select == Peer then a.addr + {it.key} else a.addr) && b.subs == a.subs
      && b.data == (if owned then a.data[it := match it.select case Peer => v case Task => Value(n.bytes, v.payload) case _ => Value(n.bytes, [])]
                    else if it.select == Peer then a.data[it := v] else a.data)
      && b.cached == (if !owned && it.select == Peer then a.cached + {it} else a.cached)
      && b.serve == if owned && it !in a.serve then a.serve[it := {}] else a.serve
  {
  }

  /** The network after a store, what the store reports, and the owner it names. */
  datatype Outcome<W> = Outcome(net: Network, status: Status, who: W)

  lemma HopIsNew(s: Network, n: NodeId, it: Item, chain: seq<NodeId>)
    requires n in s && it.select != Device
    ensures var hop := NextHop(s, n, it, chain);
      hop != [] ==> IsNearest(it.key, s[n].Learn(it).addr - Elems(chain), hop[0]) && hop == [hop[0]]
    ensures var hop := NextHop(s, n, it, chain); hop == [] ==> s[n].Learn(it).addr - Elems(chain) == {}
  {
    var c := s[n].Learn(it).addr - Elems(chain);
    if c != {} {
      assert Closest(it.key, c, 1) == [Nearest(it.key, c)] + Closest(it.key, c - {Nearest(it.key, c)}, 0);
    }
  }

  ghost function Stored(s: Network, n: NodeId, it: Item, v: Value, chain: seq<NodeId>): (r: Outcome<NodeId>)
    requires n in s && it.select != Device
    ensures r.net.Keys == s.Keys
    decreases Unvisited(s, Elems(chain) + {n})
  {
    var t := SetPlain(s, n, it, v, chain);
    var hop := NextHop(s, n, it, chain);
    HopIsNew(s, n, it, chain);
    if n in hop then Outcome(t, OWNED, n)
    else if hop == [] || hop[0] !in s then Outcome(t, NOT_FOUND, n)
    else
      ElemsAppend(chain, n);
      VisitShrinks(s, Elems(chain) + {n}, hop[0]);
      var r := Stored(t, hop[0], it, v, chain + [n]);
      Outcome(SubscribeTo(r.net, n, hop[0], it), FOUND, r.who)
  }

  // ---- Devices ----

  /** A device's value is the address of its host. */
  function HostOf(v: Value): Option<NodeId> {
    if |v.address| == 8 then Some(NodeId(v.address)) else None
  }

  /** The two nearest addresses peer n knows off the chain. */
  ghost function TwoNearest(s: Network, n: NodeId, it: Item, chain: seq<NodeId>): seq<NodeId>
    requires n in s
  {
    s[n].Neighbors(it, 2, Elems(chain))
  }

  /** One of the two nearest peers caches a device from its host, whatever it had of it before; the
      exception of a host that does not resolve leaves the copy. */
  ghost function CachedFromHost(s: Network, n: NodeId, it: Item, v: Value): (r: (Network, Status))
    requires n in s
    ensures r.0.Keys == s.Keys
  {
    var host := HostOf(v);
    if host.Some? && host.value in s then
      var t := SubscribeTo(s[n := s[n].KeepCopy(it, v)], n, host.value, it);
      (t[n := t[n].OpenServe(it)], OWNED)
    else (s[n := Orphaned(s[n], it, v)], ERR)
  }

  function Orphaned(a: NodeState, it: Item, v: Value): NodeState {
    if it in a.subs || it in a.serve then a.KeepCopy(it, v).OpenServe(it) else a.KeepCopy(it, v)
  }

  /** dht_set_plain of a device at n.  A device that is to stay with its host is owned there; one of
      the two nearest peers caches it from the host, and any other keeps a copy.  ERR stands for the
      exceptions: another peer's device to own, or a host that does not resolve. */
  ghost function SetDevice(s: Network, n: NodeId, it: Item, v: Value, chain: seq<NodeId>, fixedOwner: bool): (r: (Network, Status))
    requires n in s
    ensures r.0.Keys == s.Keys
  {
    if n !in TwoNearest(s, n, it, chain) then (s[n := s[n].KeepCopy(it, v)], FOUND)
    else if !fixedOwner then CachedFromHost(s, n, it, v)
    else if HostOf(v) == Some(n) then (s[n := s[n].Keep(it, v).OpenServe(it)], FOUND)
    else (s[n := s[n].Keep(it, v)], ERR)
  }

  /** The first neighbor that has not been visited and answers. */
  function FirstNew(keys: set<NodeId>, neighbors: seq<NodeId>, visited: seq<NodeId>): (m: Option<NodeId>)
    ensures m.Some? ==> m.value in neighbors && m.value in keys && m.value !in visited
  {
    if neighbors == [] then None
    else if neighbors[0] !in visited && neighbors[0] in keys then Some(neighbors[0])
    else FirstNew(keys, neighbors[1..], visited)
  }

  /**
   * In the tables of the peer asked: it has the value, as its own or not as before if it is to keep it
   * for its host, and as a copy otherwise; the status is that of the branch, and an owner, or a peer that
   * has cached the device from its host, serves it.
   */
  lemma DeviceTables(s: Network, n: NodeId, it: Item, v: Value, chain: seq<NodeId>, fixedOwner: bool)
    requires n in s && it.select == Device
    ensures var (t, status) := SetDevice(s, n, it, v, chain, fixedOwner); var near := n in TwoNearest(s, n, it, chain);
      && t[n].data == s[n].data[it := v] && t[n].addr == s[n].addr
      && t[n].cached == (if near && fixedOwner then s[n].cached else s[n].cached + {it})
      && (forall a :: a in s && a != n ==> t[a].data == s[a].data && t[a].cached == s[a].cached && t[a].addr == s[a].addr && t[a].subs == s[a].subs)
      && (if !near then status == FOUND
          else if fixedOwner then status == if v.address == n.bytes then FOUND else ERR
          else status == if |v.address| == 8 && NodeId(v.address) in s then OWNED else ERR)
      && (status == OWNED || (near && status == FOUND) ==> it in t[n].serve)
      && (!near || (fixedOwner && status == ERR) ==> t[n].serve == s[n].serve && t[n].subs == s[n].subs)
      && (near && !fixedOwner && status == ERR ==> t[n].subs == s[n].subs && (it in t[n].serve <==> it in s[n].serve || it in s[n].subs))
  {
    hide TwoNearest;
  }

  /** A peer that caches a device from its host is registered there, unless it had a trace of it. */
  lemma DeviceRegistered(s: Network, n: NodeId, it: Item, v: Value, chain: seq<NodeId>)
    requires n in s && it.select == Device && n in TwoNearest(s, n, it, chain) && HostOf(v).Some? && HostOf(v).value in s
    requires it !in s[n].subs && it !in s[n].serve && HostOf(v).value != n && it in s[HostOf(v).value].serve
    ensures var t := SetDevice(s, n, it, v, chain, false).0; var h := HostOf(v).value;
      it in t[n].subs && t[n].serve[it] == {} && it in t[h].serve && t[h].serve[it] == s[h].serve[it] + {n}
  {
    hide TwoNearest;
  }

  /** The i-th neighbor has not been visited and answers, and every one before it has or does not. */
  ghost predicate TriedFirst(keys: set<NodeId>, neighbors: seq<NodeId>, visited: seq<NodeId>, i: nat) {
    && i < |neighbors| && neighbors[i] in keys && neighbors[i] !in visited
    && forall j :: 0 <= j < i ==> neighbors[j] !in keys || neighbors[j] in visited
  }

  lemma {:induction false} FirstNewIs(keys: set<NodeId>, neighbors: seq<NodeId>, visited: seq<NodeId>)
    ensures var r := FirstNew(keys, neighbors, visited);
      if r.Some? then exists i: nat :: TriedFirst(keys, neighbors, visited, i) && neighbors[i] == r.value
      else forall j :: 0 <= j < |neighbors| ==> neighbors[j] !in keys || neighbors[j] in visited
  {
    if neighbors != [] {
      if neighbors[0] in keys && neighbors[0] !in visited {
        assert TriedFirst(keys, neighbors, visited, 0);
      } else {
        FirstNewIs(keys, neighbors[1..], visited);
        var r := FirstNew(keys, neighbors, visited);
        if r.Some? {
          var i: nat :| TriedFirst(keys, neighbors[1..], visited, i) && neighbors[1..][i] == r.value;
          forall j | 0 <= j < i + 1 ensures neighbors[j] !in keys || neighbors[j] in visited {
            if j > 0 { assert neighbors[j] == neighbors[1..][j - 1]; }
          }
          assert TriedFirst(keys, neighbors, visited, i + 1);
        } else {
          forall j | 0 <= j < |neighbors| ensures neighbors[j] !in keys || neighbors[j] in visited {
            if j > 0 { assert neighbors[j] == neighbors[1..][j - 1]; }
          }
        }
      }
    }
  }

  /** Only the first peer of a store is asked to keep the device as its own. */
  ghost function DeviceStored(s: Network, n: NodeId, it: Item, v: Value, chain: seq<NodeId>, fixedOwner: bool): (r: Outcome<Option<NodeId>>)
    requires n in s
    ensures r.net.Keys == s.Keys
    decreases Unvisited(s, Elems(chain) + {n})
  {
    var (t, status) := SetDevice(s, n, it, v, chain, fixedOwner);
    var m := FirstNew(s.Keys, TwoNearest(s, n, it, chain), chain + [n]);
    if status == OWNED then Outcome(t, OWNED, Some(n))
    else if status == ERR then Outcome(t, ERR, None)
    else if m == None then Outcome(t, NOT_FOUND, Some(n))
    else
      ElemsAppend(chain, n);
      VisitShrinks(s, Elems(chain) + {n}, m.value);
      var r := DeviceStored(t, m.value, it, v, chain + [n], false);
      Outcome(SubscribeTo(r.net, n, m.value, it), FOUND, r.who)
  }

  // ---- The handlers ----

  /** The result of dht_set_plain: the network, the status and the neighbors to try. */
  ghost predicate Placed(s: Network, n: NodeId, it: Item, v: Value, chain: seq<NodeId>, fixedOwner: bool, t: Network, status: Status, neighbors: seq<NodeId>) {
    && n in s
    && if it.select == Device then
         (t, status) == SetDevice(s, n, it, v, chain, fixedOwner) && neighbors == TwoNearest(s, n, it, chain)
       else
         && t == SetPlain(s, n, it, v, chain) && neighbors == NextHop(s, n, it, chain)
         && status == if n in neighbors then OWNED else FOUND
  }

  method DhtSetPlain(net: map<NodeId, PlugBoard>, me: PlugBoard, it: Item, v: Value, chain: seq<NodeId>, fixedOwner: bool)
    returns (status: Status, neighbors: seq<NodeId>)
    requires Wired(net) && me.myAddr in net && net[me.myAddr] == me
    modifies net.Values
    ensures Placed(old(Snap(net)), me.myAddr, it, v, chain, fixedOwner, Snap(net), status, neighbors)
  {
    if it.select == Device {
      status, neighbors := SetDevicePlain(net, me, it, v, chain, fixedOwner);
      return;
    }
    hide SetDevice;
    ghost var s := Snap(net);
    assert s[me.myAddr] == me.State();
    status, neighbors := SetAt(me, it, v, chain);
    SnapAt(net, me, s);
  }

  method SetAt(me: PlugBoard, it: Item, v: Value, chain: seq<NodeId>) returns (status: Status, neighbors: seq<NodeId>)
    requires it.select != Device
    modifies me
    ensures neighbors == old(me.State()).Learn(it).Neighbors(it, 1, Elems(chain))
    ensures status == if me.myAddr in neighbors then OWNED else FOUND
    ensures me.State() == Kept(old(me.State()).Learn(it), me.myAddr, it, v, me.myAddr in neighbors)
  {
    if it.select == Peer { me.UpdateAddresses(it.key); }
    status, neighbors := me.Set(it, Stamp(it, v, me.myAddr), 1, it.select == Peer, Elems(chain));
    if status == OWNED { me.OpenServe(it); }
  }

  /** The device branch. */
  method SetDevicePlain(net: map<NodeId, PlugBoard>, me: PlugBoard, it: Item, v: Value, chain: seq<NodeId>, fixedOwner: bool)
    returns (status: Status, neighbors: seq<NodeId>)
    requires Wired(net) && me.myAddr in net && net[me.myAddr] == me && it.select == Device
    modifies net.Values
    ensures (Snap(net), status) == SetDevice(old(Snap(net)), me.myAddr, it, v, chain, fixedOwner)
    ensures neighbors == TwoNearest(old(Snap(net)), me.myAddr, it, chain)
  {
    hide CachedFromHost, Closest, Nearer, NearestFirst;
    ghost var s := Snap(net);
    assert s[me.myAddr] == me.State();
    status, neighbors := me.Set(it, v, 2, true, Elems(chain));
    if status == OWNED && !fixedOwner {
      SnapAt(net, me, s);
      status := CacheFromHost(net, me, it, v, s);
      return;
    }
    if status == OWNED {
      if HostOf(v) != Some(me.myAddr) {
        status := ERR;
      } else {
        status := FOUND;
        me.OpenServe(it);
      }
    }
    SnapAt(net, me, s);
  }

  function Removed(a: NodeState, it: Item): NodeState {
    a.(data := a.data - {it}, cached := a.cached - {it})
  }

  /** Keeping and removing an entry leaves nothing of it, and caching it then leaves a copy. */
  lemma CopyAfterRemoval(a: NodeState, it: Item, v: Value)
    ensures Removed(a.Keep(it, v), it) == Removed(a, it)
    ensures Removed(a, it).PutCached(it, v) == a.KeepCopy(it, v) && !Removed(a, it).Owns(it)
  {
    assert a.data[it := v] - {it} == a.data - {it};
    assert (a.data - {it})[it := v] == a.data[it := v] && a.cached - {it} + {it} == a.cached + {it};
  }

  lemma CacheRemoved(s: Network, n: NodeId, host: NodeId, it: Item, v: Value)
    requires n in s && host in s && it.select == Device
    ensures CacheFrom(s[n := Removed(s[n], it)], n, host, it, v) == SubscribeTo(s[n := s[n].KeepCopy(it, v)], n, host, it)
  {
    var a := s[n];
    CopyAfterRemoval(a, it, v);
    Overwritten(s, n, Removed(a, it), a.KeepCopy(it, v));
    hide SubscribeTo, Removed;
  }

  lemma Overwritten(s: Network, n: NodeId, a: NodeState, b: NodeState)
    ensures s[n := a][n := b] == s[n := b]
  {
  }

  /** A device just put into the table is taken out again and cached from its host; s is the network
      before it was put in. */
  method CacheFromHost(net: map<NodeId, PlugBoard>, me: PlugBoard, it: Item, v: Value, ghost s: Network) returns (status: Status)
    requires Wired(net) && me.myAddr in net && net[me.myAddr] == me && it.select == Device
    requires me.myAddr in s && Snap(net) == s[me.myAddr := s[me.myAddr].Keep(it, v)]
    modifies net.Values
    ensures (Snap(net), status) == CachedFromHost(s, me.myAddr, it, v)
  {
    ghost var n, f := me.myAddr, Snap(net);
    assert f[n] == me.State() && f.Keys == s.Keys == net.Keys;
    var host := HostOf(v);
    hide SubscribeTo, Removed, Orphaned, CacheFrom;
    Overwritten(s, n, s[n].Keep(it, v), Orphaned(s[n], it, v));
    Overwritten(s, n, s[n].Keep(it, v), Removed(s[n], it));
    if host.None? || host.value !in net {
      LeaveOrphan(me, it, v, s[n]);
      SnapAt(net, me, f);
      return ERR;
    }
    TakeOut(me, it, v, s[n]);
    SnapAt(net, me, f);
    CacheRemoved(s, n, host.value, it, v);
    DhtCacheStore(net, me, it, v, host.value);
    status := ServeFrom(net, me, it);
  }

  method TakeOut(me: PlugBoard, it: Item, v: Value, ghost a: NodeState)
    requires me.State() == a.Keep(it, v)
    modifies me
    ensures me.State() == Removed(a, it)
  {
    CopyAfterRemoval(a, it, v);
    me.Remove(it);
  }

  method LeaveOrphan(me: PlugBoard, it: Item, v: Value, ghost a: NodeState)
    requires me.State() == a.Keep(it, v)
    modifies me
    ensures me.State() == Orphaned(a, it, v)
  {
    TakeOut(me, it, v, a);
    CopyAfterRemoval(a, it, v);
    var _ := me.SetCache(it, v);
    if it in me.subs || it in me.serve { me.OpenServe(it); }
  }

  method ServeFrom(net: map<NodeId, PlugBoard>, me: PlugBoard, it: Item) returns (status: Status)
    requires Wired(net) && me.myAddr in net && net[me.myAddr] == me
    modifies me
    ensures Snap(net) == old(Snap(net))[me.myAddr := old(Snap(net))[me.myAddr].OpenServe(it)] && status == OWNED
  {
    ghost var f := Snap(net);
    assert f[me.myAddr] == me.State();
    me.OpenServe(it);
    SnapAt(net, me, f);
    return OWNED;
  }

  method FirstAnswering(net: map<NodeId, PlugBoard>, neighbors: seq<NodeId>, visited: seq<NodeId>) returns (m: Option<NodeId>)
    ensures m == FirstNew(net.Keys, neighbors, visited)
    ensures if m.Some? then exists i: nat :: TriedFirst(net.Keys, neighbors, visited, i) && neighbors[i] == m.value
      else forall j :: 0 <= j < |neighbors| ==> neighbors[j] !in net || neighbors[j] in visited
  {
    FirstNewIs(net.Keys, neighbors, visited);
    for i := 0 to |neighbors|
      invariant FirstNew(net.Keys, neighbors, visited) == FirstNew(net.Keys, neighbors[i..], visited)
    {
      assert neighbors[i..][0] == neighbors[i] && neighbors[i..][1..] == neighbors[i + 1..];
      if neighbors[i] !in visited && neighbors[i] in net { return Some(neighbors[i]); }
    }
    return None;
  }

  lemma StepShrinks(s: Network, chain: seq<NodeId>, n: NodeId, m: NodeId)
    requires m in s && m !in chain + [n]
    ensures Elems(chain + [n]) == Elems(chain) + {n} && m !in Elems(chain) + {n}
    ensures Unvisited(s, Elems(chain + [n]) + {m}) < Unvisited(s, Elems(chain) + {n})
  {
    ElemsAppend(chain, n);
    assert m !in Elems(chain + [n]);
    VisitShrinks(s, Elems(chain) + {n}, m);
  }

  lemma DeviceStep(s: Network, n: NodeId, it: Item, v: Value, chain: seq<NodeId>, fixedOwner: bool, t: Network, m: NodeId)
    requires n in s && SetDevice(s, n, it, v, chain, fixedOwner) == (t, FOUND)
    requires FirstNew(s.Keys, TwoNearest(s, n, it, chain), chain + [n]) == Some(m)
    ensures Unvisited(s, Elems(chain + [n]) + {m}) < Unvisited(s, Elems(chain) + {n})
    ensures var r := DeviceStored(t, m, it, v, chain + [n], false);
      DeviceStored(s, n, it, v, chain, fixedOwner) == Outcome(SubscribeTo(r.net, n, m, it), FOUND, r.who)
  {
    hide SetDevice, SubscribeTo, TwoNearest, FirstNew;
    assert m in s.Keys && m !in chain + [n];
    StepShrinks(s, chain, n, m);
  }

  lemma DeviceStops(s: Network, n: NodeId, it: Item, v: Value, chain: seq<NodeId>, fixedOwner: bool, t: Network)
    requires n in s && SetDevice(s, n, it, v, chain, fixedOwner) == (t, FOUND)
    requires FirstNew(s.Keys, TwoNearest(s, n, it, chain), chain + [n]) == None
    ensures DeviceStored(s, n, it, v, chain, fixedOwner) == Outcome(t, NOT_FOUND, Some(n))
  {
    hide SetDevice, TwoNearest, FirstNew;
  }

  /** A store of anything but a device tries only the one nearest neighbor. */
  lemma OneNeighbor(s: Network, n: NodeId, it: Item, chain: seq<NodeId>)
    requires n in s && it.select != Device && n !in NextHop(s, n, it, chain)
    ensures var hop := NextHop(s, n, it, chain);
      FirstNew(s.Keys, hop, chain + [n]) == if hop == [] || hop[0] !in s then None else Some(hop[0])
  {
    HopIsNew(s, n, it, chain);
    var hop := NextHop(s, n, it, chain);
    hide NextHop;
    if hop != [] {
      assert hop[0] in hop && hop[0] !in Elems(chain) && hop[1..] == [];
      ElemsAppend(chain, n);
      assert hop[0] !in Elems(chain + [n]);
    }
  }

  lemma StoredStep(s: Network, n: NodeId, it: Item, v: Value, chain: seq<NodeId>, m: NodeId)
    requires n in s && it.select != Device && n !in NextHop(s, n, it, chain)
    requires FirstNew(s.Keys, NextHop(s, n, it, chain), chain + [n]) == Some(m)
    ensures Unvisited(s, Elems(chain + [n]) + {m}) < Unvisited(s, Elems(chain) + {n})
    ensures var r := Stored(SetPlain(s, n, it, v, chain), m, it, v, chain + [n]);
      Stored(s, n, it, v, chain) == Outcome(SubscribeTo(r.net, n, m, it), FOUND, r.who)
  {
    OneNeighbor(s, n, it, chain);
    ElemsAppend(chain, n);
    VisitShrinks(s, Elems(chain) + {n}, m);
    hide SetPlain, SubscribeTo, NextHop, FirstNew;
  }

  lemma StoredEnds(s: Network, n: NodeId, it: Item, v: Value, chain: seq<NodeId>)
    requires n in s && it.select != Device
    ensures n in NextHop(s, n, it, chain) ==> Stored(s, n, it, v, chain) == Outcome(SetPlain(s, n, it, v, chain), OWNED, n)
    ensures n !in NextHop(s, n, it, chain) && FirstNew(s.Keys, NextHop(s, n, it, chain), chain + [n]) == None ==>
      Stored(s, n, it, v, chain) == Outcome(SetPlain(s, n, it, v, chain), NOT_FOUND, n)
  {
    if n !in NextHop(s, n, it, chain) { OneNeighbor(s, n, it, chain); }
    hide SetPlain, SubscribeTo, NextHop;
  }

  /** The outcome of a store into any of the tables. */
  ghost function StoredAny(s: Network, n: NodeId, it: Item, v: Value, chain: seq<NodeId>, fixedOwner: bool): (r: Outcome<Option<NodeId>>)
    requires n in s
    ensures r.net.Keys == s.Keys
  {
    if it.select == Device then DeviceStored(s, n, it, v, chain, fixedOwner)
    else
      var r := Stored(s, n, it, v, chain);
      Outcome(r.net, r.status, Some(r.who))
  }

  /** A peer that does not pass the value on. */
  lemma AnyEnds(s: Network, n: NodeId, it: Item, v: Value, chain: seq<NodeId>, fixedOwner: bool, t: Network, status: Status, neighbors: seq<NodeId>)
    requires Placed(s, n, it, v, chain, fixedOwner, t, status, neighbors)
    ensures status == OWNED ==> StoredAny(s, n, it, v, chain, fixedOwner) == Outcome(t, OWNED, Some(n))
    ensures status == ERR ==> StoredAny(s, n, it, v, chain, fixedOwner) == Outcome(t, ERR, None)
    ensures status == FOUND && FirstNew(s.Keys, neighbors, chain + [n]) == None ==>
      StoredAny(s, n, it, v, chain, fixedOwner) == Outcome(t, NOT_FOUND, Some(n))
  {
    if it.select != Device { StoredEnds(s, n, it, v, chain); }
    hide SetDevice, SetPlain, SubscribeTo, NextHop, TwoNearest, Stored;
  }

  lemma AnyStep(s: Network, n: NodeId, it: Item, v: Value, chain: seq<NodeId>, fixedOwner: bool, t: Network, status: Status, neighbors: seq<NodeId>, m: NodeId)
    requires Placed(s, n, it, v, chain, fixedOwner, t, status, neighbors) && t.Keys == s.Keys
    requires status == FOUND && FirstNew(s.Keys, neighbors, chain + [n]) == Some(m)
    ensures Unvisited(s, Elems(chain + [n]) + {m}) < Unvisited(s, Elems(chain) + {n})
    ensures var r := StoredAny(t, m, it, v, chain + [n], false);
      StoredAny(s, n, it, v, chain, fixedOwner) == Outcome(SubscribeTo(r.net, n, m, it), FOUND, r.who)
  {
    if it.select == Device { DeviceStep(s, n, it, v, chain, fixedOwner, t, m); } else { StoredStep(s, n, it, v, chain, m); }
    hide SetDevice, SetPlain, SubscribeTo, NextHop, TwoNearest, Stored, DeviceStored;
  }

  method StoreItem(net: map<NodeId, PlugBoard>, me: PlugBoard, it: Item, v: Value, chain: seq<NodeId>, fixedOwner: bool)
    returns (status: Status, who: Option<NodeId>)
    requires Wired(net) && me.myAddr in net && net[me.myAddr] == me
    modifies net.Values
    ensures Outcome(Snap(net), status, who) == StoredAny(old(Snap(net)), me.myAddr, it, v, chain, fixedOwner)
    decreases Unvisited(Snap(net), Elems(chain) + {me.myAddr})
  {
    hide Placed, StoredAny, SubscribeTo, FirstNew, Unvisited;
    ghost var s := Snap(net);
    var neighbors;
    status, neighbors := DhtSetPlain(net, me, it, v, chain, fixedOwner);
    ghost var t := Snap(net);
    PlacedStatus(s, me.myAddr, it, v, chain, fixedOwner, t, status, neighbors);
    AnyEnds(s, me.myAddr, it, v, chain, fixedOwner, t, status, neighbors);
    if status == OWNED { return OWNED, Some(me.myAddr); }
    if status == ERR { return ERR, None; }
    var nodesVisited := chain + [me.myAddr];
    var m := FirstAnswering(net, neighbors, nodesVisited);
    assert s.Keys == net.Keys == t.Keys;
    if m == None { return NOT_FOUND, Some(me.myAddr); }
    AnyStep(s, me.myAddr, it, v, chain, fixedOwner, t, status, neighbors, m.value);
    SameUnvisited(s, t, Elems(nodesVisited) + {m.value});
    status, who := StoreItem(net, net[m.value], it, v, nodesVisited, false);
    DhtSetCacheNotices(net, me, it, m.value);
    return FOUND, who;
  }

  lemma SameUnvisited(s: Network, t: Network, visited: set<NodeId>)
    requires s.Keys == t.Keys
    ensures Unvisited(s, visited) == Unvisited(t, visited)
  {
  }

  lemma PlacedStatus(s: Network, n: NodeId, it: Item, v: Value, chain: seq<NodeId>, fixedOwner: bool, t: Network, status: Status, neighbors: seq<NodeId>)
    requires Placed(s, n, it, v, chain, fixedOwner, t, status, neighbors)
    ensures t.Keys == s.Keys && (status == OWNED || status == ERR || status == FOUND)
  {
  }
}

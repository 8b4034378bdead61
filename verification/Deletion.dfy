/**
 * Deletion floods (src/plugboard.py): a peer that loses an entry tells the peers that registered
 * with it as cachers, which do the same.  Registrations may form cycles.
 */
module Deletion {
  import opened Metric
  import opened Dht

  predicate Holder(s: Network, a: NodeId, it: Item) {
    a in s && s[a].Holds(it)
  }

  /** A registration between two holders: deleting at a sends a notice to b. */
  predicate Edge(s: Network, a: NodeId, b: NodeId, it: Item) {
    && Holder(s, a, it) && Holder(s, b, it)
    && it in s[a].serve && b in s[a].serve[it]
  }

  ghost predicate Path(s: Network, p: seq<NodeId>, it: Item) {
    && p != [] && Holder(s, p[0], it)
    && forall i :: 0 <= i < |p| - 1 ==> Edge(s, p[i], p[i + 1], it)
  }

  ghost predicate Reaches(s: Network, a: NodeId, b: NodeId, it: Item) {
    exists p :: Path(s, p, it) && p[0] == a && p[|p| - 1] == b
  }

  /** The holders reachable from a along registrations between holders. */
  ghost function Reached(s: Network, a: NodeId, it: Item): set<NodeId> {
    set b | b in s && Reaches(s, a, b, it)
  }

  ghost predicate Closed(s: Network, x: set<NodeId>, it: Item) {
    forall a, b :: a in x && Edge(s, a, b, it) ==> b in x
  }

  /** The network after exactly the peers of x have purged their copy. */
  ghost function Purge(s: Network, x: set<NodeId>, it: Item): Network {
    map a | a in s :: if a in x then s[a].Purged(it) else s[a]
  }

  /** In the tables: the entry is gone, together with the address it gives, and so is everything about
      who serves it to whom, if the peer served it; nothing else changes. */
  lemma PurgedTables(s: Network, x: set<NodeId>, it: Item, a: NodeId)
    requires a in s
    ensures var p, q := s[a], Purge(s, x, it)[a];
      if a !in x then q == p
      else
        && q.data == p.data - {it} && q.cached == p.cached - {it}
        && q.addr == (if it.select == Peer then p.addr - {it.key} else p.addr)
        && q.subs == (if it in p.serve then p.subs - {it} else p.subs) && q.serve == p.serve - {it}
  {
    if it !in s[a].serve { assert s[a].serve - {it} == s[a].serve; }
  }

  /** Every peer reached from n forgets the address that a deleted entry gives, and nobody else forgets
      or learns an address. */
  ghost predicate Forgets(s: Network, t: Network, n: NodeId, it: Item) {
    s.Keys == t.Keys && forall a :: a in s ==>
      t[a].addr == if it.select == Peer && a in Reached(s, n, it) then s[a].addr - {it.key} else s[a].addr
  }

  lemma PurgeForgets(s: Network, n: NodeId, it: Item)
    ensures Forgets(s, Purge(s, Reached(s, n, it), it), n, it)
    ensures it.select != Peer ==> Forgets(s, s, n, it)
  {
    hide Reached;
    forall a | a in s ensures Purge(s, Reached(s, n, it), it)[a].addr == if it.select == Peer && a in Reached(s, n, it) then s[a].addr - {it.key} else s[a].addr {
      PurgedTables(s, Reached(s, n, it), it, a);
    }
  }

  ghost function Holders(s: Network, it: Item): set<NodeId> {
    set a | a in s && s[a].Holds(it)
  }

  // ---- Reachability ----

  lemma ReachesSelf(s: Network, a: NodeId, it: Item)
    requires Holder(s, a, it)
    ensures Reaches(s, a, a, it)
  {
    assert Path(s, [a], it);
  }

  lemma ReachesStep(s: Network, a: NodeId, b: NodeId, c: NodeId, it: Item)
    requires Reaches(s, a, b, it) && Edge(s, b, c, it)
    ensures Reaches(s, a, c, it)
  {
    var p :| Path(s, p, it) && p[0] == a && p[|p| - 1] == b;
    var q := p + [c];
    forall i | 0 <= i < |q| - 1 ensures Edge(s, q[i], q[i + 1], it) {
      if i < |p| - 1 { assert Edge(s, p[i], p[i + 1], it); }
    }
    assert Path(s, q, it);
  }

  lemma ReachesFrom(s: Network, a: NodeId, b: NodeId, c: NodeId, it: Item)
    requires Edge(s, a, b, it) && Reaches(s, b, c, it)
    ensures Reaches(s, a, c, it)
  {
    var p :| Path(s, p, it) && p[0] == b && p[|p| - 1] == c;
    var q := [a] + p;
    forall i | 0 <= i < |q| - 1 ensures Edge(s, q[i], q[i + 1], it) {
      if i > 0 { assert Edge(s, p[i - 1], p[i], it); }
    }
    assert Path(s, q, it);
  }

  lemma {:induction false} PathStaysIn(s: Network, p: seq<NodeId>, x: set<NodeId>, it: Item, i: nat)
    requires Path(s, p, it) && p[0] in x && Closed(s, x, it) && i < |p|
    ensures p[i] in x
  {
    if i > 0 {
      PathStaysIn(s, p, x, it, i - 1);
      assert Edge(s, p[i - 1], p[i], it);
    }
  }

  /** The reached set is the least closed set around its source. */
  lemma ReachedLeast(s: Network, a: NodeId, x: set<NodeId>, it: Item)
    requires a in x && Closed(s, x, it)
    ensures Reached(s, a, it) <= x
  {
    forall b | b in Reached(s, a, it) ensures b in x {
      var p :| Path(s, p, it) && p[0] == a && p[|p| - 1] == b;
      PathStaysIn(s, p, x, it, |p| - 1);
    }
  }

  lemma {:induction false} PathHolds(s: Network, p: seq<NodeId>, it: Item, i: nat)
    requires Path(s, p, it) && i < |p|
    ensures Holder(s, p[i], it)
  {
    if i > 0 { assert Edge(s, p[i - 1], p[i], it); }
  }

  lemma ReachedClosed(s: Network, a: NodeId, it: Item)
    ensures Closed(s, Reached(s, a, it), it)
    ensures forall b :: b in Reached(s, a, it) ==> Holder(s, b, it)
    ensures Holder(s, a, it) <==> a in Reached(s, a, it)
    ensures !Holder(s, a, it) ==> Reached(s, a, it) == {}
  {
    var r := Reached(s, a, it);
    forall b, c | b in r && Edge(s, b, c, it) ensures c in r { ReachesStep(s, a, b, c, it); }
    forall b | b in r ensures Holder(s, b, it) && Holder(s, a, it) {
      var p :| Path(s, p, it) && p[0] == a && p[|p| - 1] == b;
      PathHolds(s, p, it, |p| - 1);
    }
    if Holder(s, a, it) { ReachesSelf(s, a, it); }
  }

  /** With no more edges than t, s reaches no more than t does. */
  lemma ReachedMonotone(s: Network, t: Network, a: NodeId, it: Item)
    requires s.Keys <= t.Keys
    requires forall x :: Holder(s, x, it) ==> Holder(t, x, it)
    requires forall x, y :: Edge(s, x, y, it) ==> Edge(t, x, y, it)
    ensures Reached(s, a, it) <= Reached(t, a, it)
  {
    if Holder(s, a, it) {
      ReachedClosed(t, a, it);
      ReachedLeast(s, a, Reached(t, a, it), it);
    } else {
      ReachedClosed(s, a, it);
    }
  }

  // ---- One cacher's notice inside a flood ----

  /**
   * The state of a flood from n in network s, between two notices: n has dropped its entry
   * (network s1) and the peers of u have been purged.
   */
  ghost predicate Flooding(s: Network, n: NodeId, it: Item, s1: Network, u: set<NodeId>) {
    && Holder(s, n, it) && s1 == s[n := s[n].Drop(it)]
    && u <= Reached(s, n, it) && (forall a :: a in u ==> Holder(s1, a, it))
    && Closed(s1, u, it)
  }

  lemma PurgeEdges(s: Network, u: set<NodeId>, it: Item, x: NodeId, y: NodeId)
    ensures Holder(Purge(s, u, it), x, it) <==> Holder(s, x, it) && x !in u
    ensures Edge(Purge(s, u, it), x, y, it) <==> Edge(s, x, y, it) && x !in u && y !in u
  {
  }

  lemma PurgeTwice(s: Network, u: set<NodeId>, x: set<NodeId>, it: Item)
    requires u !! x
    ensures Purge(Purge(s, u, it), x, it) == Purge(s, u + x, it)
  {
  }

  lemma FloodStep(s: Network, n: NodeId, it: Item, s1: Network, u: set<NodeId>, c: NodeId)
    requires Flooding(s, n, it, s1, u)
    requires it in s[n].serve && c in s[n].serve[it] && c in s
    ensures var x := Reached(Purge(s1, u, it), c, it);
      && Flooding(s, n, it, s1, u + x)
      && Purge(Purge(s1, u, it), x, it) == Purge(s1, u + x, it)
      && (Holder(s1, c, it) ==> c in u + x)
  {
    var t := Purge(s1, u, it);
    var x := Reached(t, c, it);
    forall a, b ensures Holder(t, a, it) <==> Holder(s1, a, it) && a !in u
                ensures Edge(t, a, b, it) <==> Edge(s1, a, b, it) && a !in u && b !in u {
      PurgeEdges(s1, u, it, a, b);
    }
    ReachedClosed(t, c, it);
    PurgeTwice(s1, u, x, it);
    assert forall a, b :: Edge(s1, a, b, it) ==> Edge(s, a, b, it);
    ReachedMonotone(t, s, c, it);
    if Holder(t, c, it) {
      forall b | b in x ensures b in Reached(s, n, it) {
        assert Edge(s, n, c, it);
        ReachesFrom(s, n, c, b, it);
      }
    }
    assert Closed(s1, u + x, it) by {
      forall a, b | a in u + x && Edge(s1, a, b, it) ensures b in u + x {
        if a !in u && b !in u { assert Edge(t, a, b, it); }
      }
    }
  }

  /** When every cacher has been notified, the purged peers are exactly the reached ones. */
  lemma FloodDone(s: Network, n: NodeId, it: Item, s1: Network, u: set<NodeId>)
    requires Flooding(s, n, it, s1, u)
    requires it in s[n].serve ==> forall c :: c in s[n].serve[it] && Holder(s1, c, it) ==> c in u
    requires it !in s[n].serve ==> u == {}
    ensures u + {n} == Reached(s, n, it)
    ensures Purge(s1, u, it)[n := s[n].Purged(it)] == Purge(s, Reached(s, n, it), it)
  {
    ReachedClosed(s, n, it);
    assert n !in u;
    var x := u + {n};
    forall a, b | a in x && Edge(s, a, b, it) ensures b in x {
      if b != n {
        assert Holder(s1, b, it);
        if a != n { assert Edge(s1, a, b, it); }
      }
    }
    ReachedLeast(s, n, x, it);
  }

  /** Dropping the subscription and the serve entry of n completes its own purge. */
  lemma FloodEnds(s: Network, n: NodeId, it: Item, s1: Network, u: set<NodeId>, t: Network)
    requires Flooding(s, n, it, s1, u) && it in s[n].serve
    requires forall c :: c in s[n].serve[it] && Holder(s1, c, it) ==> c in u
    requires t == Purge(s1, u, it)[n := s[n].Drop(it).(serve := s[n].serve[it := {}])]
    ensures t[n := t[n].(subs := t[n].subs - {it}, serve := t[n].serve - {it})] == Purge(s, Reached(s, n, it), it)
  {
    FloodDone(s, n, it, s1, u);
    assert t[n].serve - {it} == s[n].serve - {it};
  }

  /** Forgetting the address before the flood makes no difference to its outcome. */
  lemma ForgetFirst(s: Network, t: Network, n: NodeId, it: Item)
    requires Holder(s, n, it)
    requires t == s[n := s[n].(addr := if it.select == Peer then s[n].addr - {it.key} else s[n].addr)]
    ensures Purge(t, Reached(t, n, it), it) == Purge(s, Reached(s, n, it), it)
  {
    ReachedClosed(s, n, it);
    ReachedMonotone(s, t, n, it);
    ReachedMonotone(t, s, n, it);
    assert s[n].Purged(it) == t[n].Purged(it);
  }

  // ---- The handlers ----

  /** Only the peer and device tables implement deletion. */
  predicate Deletable(it: Item) { it.select == Peer || it.select == Device }

  /** Every notice shrinks the set of holders, so floods terminate on cyclic registrations too. */
  lemma FloodShrinks(s: Network, n: NodeId, it: Item, u: set<NodeId>)
    requires Holder(s, n, it)
    ensures |Holders(Purge(s[n := s[n].Drop(it)], u, it), it)| < |Holders(s, it)|
  {
    var t := Purge(s[n := s[n].Drop(it)], u, it);
    assert Holders(t, it) <= Holders(s, it) - {n};
    SubsetSize(Holders(t, it), Holders(s, it) - {n});
  }

  lemma {:induction false} SubsetSize<T>(a: set<T>, b: set<T>)
    requires a <= b
    ensures |a| <= |b|
  {
    if a != {} {
      var x :| x in a;
      SubsetSize(a - {x}, b - {x});
    }
  }

  /**
   * The notices of send_deletion_notice at a peer that has just dropped its entry; s is the
   * network before it did.  The ghost result names the peers purged by the notices.
   */
  method NotifyCachers(net: map<NodeId, PlugBoard>, me: PlugBoard, it: Item, cachers: set<NodeId>, ghost s: Network)
    returns (ghost u: set<NodeId>)
    requires Wired(net) && me.myAddr in net && net[me.myAddr] == me
    requires Holder(s, me.myAddr, it) && it in s[me.myAddr].serve && Deletable(it)
    requires cachers == s[me.myAddr].serve[it]
    requires Snap(net) == s[me.myAddr := s[me.myAddr].Drop(it)]
    modifies net.Values
    ensures Flooding(s, me.myAddr, it, old(Snap(net)), u)
    ensures Snap(net) == Purge(old(Snap(net)), u, it)
    ensures forall c :: c in cachers && Holder(old(Snap(net)), c, it) ==> c in u
    decreases |Holders(Snap(net), it)|, 1
  {
    ghost var s1 := Snap(net);
    u := {};
    assert s.Keys == s1.Keys == net.Keys;
    assert Purge(s1, u, it) == s1;
    var todo := cachers;
    while todo != {}
      invariant todo <= cachers
      invariant Flooding(s, me.myAddr, it, s1, u) && Snap(net) == Purge(s1, u, it)
      invariant forall c :: c in cachers - todo && Holder(s1, c, it) ==> c in u
    {
      var c :| c in todo;
      if c in net {
        FloodStep(s, me.myAddr, it, s1, u, c);
        SubsetSize(Holders(Snap(net), it), Holders(s1, it));
        var _ := DeletedNotice(net, net[c], it);
        u := u + Reached(Purge(s1, u, it), c, it);
      }
      todo := todo - {c};
    }
  }

  /** send_deletion_notice. */
  method SendDeletionNotice(net: map<NodeId, PlugBoard>, me: PlugBoard, it: Item, ghost s: Network)
    returns (ghost u: set<NodeId>)
    requires Wired(net) && me.myAddr in net && net[me.myAddr] == me
    requires Holder(s, me.myAddr, it) && it in s[me.myAddr].serve && Deletable(it)
    requires Snap(net) == s[me.myAddr := s[me.myAddr].Drop(it)]
    modifies net.Values
    ensures Flooding(s, me.myAddr, it, old(Snap(net)), u)
    ensures Snap(net) == Purge(old(Snap(net)), u, it)[me.myAddr := s[me.myAddr].Drop(it).(serve := s[me.myAddr].serve[it := {}])]
    ensures forall c :: c in s[me.myAddr].serve[it] && Holder(old(Snap(net)), c, it) ==> c in u
    decreases |Holders(Snap(net), it)|, 2
  {
    assert Snap(net)[me.myAddr] == me.State();
    var cachers := me.serve[it];
    u := NotifyCachers(net, me, it, cachers, s);
    assert me.myAddr !in u;
    ghost var t := Snap(net);
    assert t[me.myAddr] == me.State();
    me.ForgetCachers(it, cachers);
    assert cachers - cachers == {};
    SnapAt(net, me, t);
  }

  /** The rest of a notice at a peer that has just dropped its entry; s is the network before. */
  method FinishNotice(net: map<NodeId, PlugBoard>, me: PlugBoard, it: Item, ghost s: Network) returns (status: Status)
    requires Wired(net) && me.myAddr in net && net[me.myAddr] == me
    requires Holder(s, me.myAddr, it) && Deletable(it) && me.State() == s[me.myAddr].Drop(it)
    requires Snap(net) == s[me.myAddr := s[me.myAddr].Drop(it)]
    modifies net.Values
    ensures Snap(net) == Purge(s, Reached(s, me.myAddr, it), it)
    ensures status == if it in s[me.myAddr].serve then OK else ERR
    decreases |Holders(Snap(net), it)|, 3
  {
    ghost var n, s1 := me.myAddr, Snap(net);
    assert Purge(s1, {}, it) == s1;
    if it !in me.serve {
      FloodDone(s, n, it, s1, {});
      return ERR;
    }
    ghost var u := SendDeletionNotice(net, me, it, s);
    ghost var t := Snap(net);
    assert t[n] == me.State();
    FloodEnds(s, n, it, s1, u, t);
    me.Unserve(it);
    SnapAt(net, me, t);
    return OK;
  }

  /**
   * dht_delete_notice_plain.  ERR also stands for the exception of a missing serve entry, which
   * the RPC layer reports as ERR.
   */
  method DeletedNotice(net: map<NodeId, PlugBoard>, me: PlugBoard, it: Item) returns (status: Status)
    requires Wired(net) && me.myAddr in net && net[me.myAddr] == me
    modifies net.Values
    ensures var s := old(Snap(net));
      Snap(net) == if it.select == Peer || it.select == Device then Purge(s, Reached(s, me.myAddr, it), it) else s
    ensures Forgets(old(Snap(net)), Snap(net), me.myAddr, it)
    ensures status == if (it.select == Peer || it.select == Device) && !(it in old(me.data) && it in old(me.serve)) then ERR else OK
    decreases |Holders(Snap(net), it)|, 0
  {
    ghost var s := Snap(net);
    PurgeForgets(s, me.myAddr, it);
    hide Forgets;
    if it.select == Task || it.select == File { return OK; }
    if it !in me.data {
      ReachedClosed(s, me.myAddr, it);
      assert Purge(s, {}, it) == s;
      return ERR;
    }
    me.DropEntry(it);
    SnapAt(net, me, s);
    assert Purge(Snap(net), {}, it) == Snap(net);
    FloodShrinks(s, me.myAddr, it, {});
    status := FinishNotice(net, me, it, s);
  }

  /** The notice repeats what was forgotten first, and the last removal finds nothing left. */
  method NoticeAndRemove(net: map<NodeId, PlugBoard>, me: PlugBoard, it: Item) returns (status: Status)
    requires Wired(net) && me.myAddr in net && net[me.myAddr] == me && Deletable(it) && it in me.data
    modifies net.Values
    ensures Snap(net) == Purge(old(Snap(net)), Reached(old(Snap(net)), me.myAddr, it), it)
    ensures status == if it in old(me.serve) then OK else ERR
  {
    ghost var s := Snap(net);
    ReachedClosed(s, me.myAddr, it);
    status := DeletedNotice(net, me, it);
    if status == ERR { return; }
    assert Snap(net)[me.myAddr] == me.State() == s[me.myAddr].Purged(it);
    RemoveNothing(net, me, it);
  }

  /** Removing an entry that is not there. */
  method RemoveNothing(net: map<NodeId, PlugBoard>, me: PlugBoard, it: Item)
    requires Wired(net) && me.myAddr in net && net[me.myAddr] == me && it !in me.data && it !in me.cached
    modifies me`data, me`cached
    ensures Snap(net) == old(Snap(net))
  {
    ghost var s := Snap(net);
    assert s[me.myAddr] == me.State();
    me.Remove(it);
    SnapAt(net, me, s);
  }

  /** dht_delete_plain, the DeleteItem request. */
  method DeleteItem(net: map<NodeId, PlugBoard>, me: PlugBoard, it: Item) returns (status: Status)
    requires Wired(net) && me.myAddr in net && net[me.myAddr] == me
    modifies net.Values
    ensures var s := old(Snap(net));
      Snap(net) == if it.select == Peer || it.select == Device then Purge(s, Reached(s, me.myAddr, it), it) else s
    ensures Forgets(old(Snap(net)), Snap(net), me.myAddr, it)
    ensures status == if (it.select == Peer || it.select == Device) && !(it in old(me.data) && it in old(me.serve)) then ERR else OK
  {
    ghost var s := Snap(net);
    PurgeForgets(s, me.myAddr, it);
    hide Forgets;
    if it.select == Task || it.select == File { return OK; }
    if it !in me.data {
      ReachedClosed(s, me.myAddr, it);
      assert Purge(s, {}, it) == s;
      return ERR;
    }
    if it.select == Peer { me.RemovePeerFromAddressTables(it.key); }
    SnapAt(net, me, s);
    ForgetFirst(s, Snap(net), me.myAddr, it);
    status := NoticeAndRemove(net, me, it);
  }
}

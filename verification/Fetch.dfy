/**
 * FetchItem (src/communications/DHTService.py): a depth-first search in which every request
 * carries the chain of peers already visited on the way to it.  Peers on a successful search
 * cache the value and register with the peer that answered them.
 */
module Fetch {
  import opened Metric
  import opened Dht
  import opened Wrappers

  /** Peers of s that a search has not visited yet. */
  ghost function Unvisited(s: Network, visited: set<NodeId>): nat {
    |s.Keys - visited|
  }

  lemma VisitShrinks(s: Network, visited: set<NodeId>, n: NodeId)
    requires n in s && n !in visited
    ensures Unvisited(s, visited + {n}) < Unvisited(s, visited)
  {
    assert s.Keys - visited == (s.Keys - (visited + {n})) + {n};
  }

  lemma ElemsAppend(chain: seq<NodeId>, n: NodeId)
    ensures Elems(chain + [n]) == Elems(chain) + {n}
  {
    forall x ensures x in Elems(chain + [n]) <==> x in Elems(chain) + {n} {
      if x in chain + [n] {
        var i :| 0 <= i < |chain| + 1 && (chain + [n])[i] == x;
      }
      if x in chain {
        var i :| 0 <= i < |chain| && chain[i] == x;
        assert (chain + [n])[i] == x;
      }
      assert (chain + [n])[|chain|] == n;
    }
  }

  /** The addresses a peer asks when it does not hold the item itself. */
  ghost function Asks(s: Network, n: NodeId, it: Item): seq<NodeId>
    requires n in s
  {
    s[n].Neighbors(it, 3, {})
  }

  /** The peers from n to the holder that answers, or None. */
  ghost function Search(s: Network, n: NodeId, it: Item, chain: seq<NodeId>): Option<seq<NodeId>>
    requires n in s
    decreases Unvisited(s, Elems(chain) + {n}), 1, 0
  {
    if s[n].Holds(it) then Some([n])
    else
      ElemsAppend(chain, n);
      match SearchAny(s, Asks(s, n, it), it, chain + [n])
      case None => None
      case Some(p) => Some([n] + p)
  }

  ghost function SearchAny(s: Network, todo: seq<NodeId>, it: Item, chain: seq<NodeId>): Option<seq<NodeId>>
    decreases Unvisited(s, Elems(chain)), 0, |todo|
  {
    if todo == [] then None
    else if todo[0] in chain || todo[0] !in s then SearchAny(s, todo[1..], it, chain)
    else
      VisitShrinks(s, Elems(chain), todo[0]);
      match Search(s, todo[0], it, chain)
      case None => SearchAny(s, todo[1..], it, chain)
      case Some(p) => Some(p)
  }

  // ---- Search decides reachability ----

  /** Peer a asks b: b answers, a knows it, and knows fewer than three peers nearer to the key. */
  ghost predicate Asked(s: Network, a: NodeId, b: NodeId, it: Item) {
    a in s && b in s && b in s[a].addr && |Nearer(it.key, s[a].addr, b)| < 3
  }

  lemma AsksAre(s: Network, a: NodeId, b: NodeId, it: Item)
    requires a in s && b in s
    ensures b in Asks(s, a, it) <==> Asked(s, a, b, it)
  {
    hide Closest, Nearer;
    assert s[a].addr - {} == s[a].addr;
    if b in s[a].addr { ClosestByRank(it.key, s[a].addr, 3, b); }
  }

  /** The peers asked come nearest first, each once. */
  lemma AsksNearestFirst(s: Network, a: NodeId, it: Item)
    requires a in s
    ensures NearestFirst(it.key, Asks(s, a, it))
  {
    ClosestSorted(it.key, s[a].addr - {}, 3);
  }

  /** A route along asked peers to a holder that stays off the given addresses after its start. */
  ghost predicate Route(s: Network, p: seq<NodeId>, it: Item, avoid: set<NodeId>)
    decreases |p|
  {
    && p != [] && p[0] in s
    && if |p| == 1 then s[p[0]].Holds(it)
       else Asked(s, p[0], p[1], it) && p[1] !in avoid && Route(s, p[1..], it, avoid)
  }

  ghost predicate HolderReachable(s: Network, n: NodeId, it: Item, avoid: set<NodeId>) {
    exists p :: Route(s, p, it, avoid) && p[0] == n
  }

  /** What a successful search returns: a repetition-free route through non-holders to a holder. */
  ghost predicate Answer(s: Network, p: seq<NodeId>, it: Item, avoid: set<NodeId>)
    decreases |p|
  {
    && p != [] && p[0] in s
    && if |p| == 1 then s[p[0]].Holds(it)
       else !s[p[0]].Holds(it) && Asked(s, p[0], p[1], it) && p[1] !in avoid + {p[0]} && Answer(s, p[1..], it, avoid + {p[0]})
  }

  lemma AnswerPrepend(s: Network, n: NodeId, q: seq<NodeId>, it: Item, avoid: set<NodeId>)
    requires n in s && !s[n].Holds(it) && Answer(s, q, it, avoid + {n}) && Asked(s, n, q[0], it) && q[0] !in avoid + {n}
    ensures Answer(s, [n] + q, it, avoid)
  {
    assert ([n] + q)[1..] == q;
  }

  lemma {:induction false} SearchSound(s: Network, n: NodeId, it: Item, chain: seq<NodeId>)
    requires n in s
    ensures var r := Search(s, n, it, chain); r.Some? ==> Answer(s, r.value, it, Elems(chain)) && r.value[0] == n
    decreases Unvisited(s, Elems(chain) + {n}), 1, 0
  {
    hide Nearer;
    if !s[n].Holds(it) {
      ElemsAppend(chain, n);
      SearchAnySound(s, Asks(s, n, it), it, chain + [n]);
      var r := SearchAny(s, Asks(s, n, it), it, chain + [n]);
      if r.Some? {
        AsksAre(s, n, r.value[0], it);
        AnswerPrepend(s, n, r.value, it, Elems(chain));
      }
    }
  }

  lemma {:induction false} SearchAnySound(s: Network, todo: seq<NodeId>, it: Item, chain: seq<NodeId>)
    ensures var r := SearchAny(s, todo, it, chain);
      r.Some? ==> Answer(s, r.value, it, Elems(chain)) && r.value[0] in todo && r.value[0] !in Elems(chain)
    decreases Unvisited(s, Elems(chain)), 0, |todo|
  {
    if todo != [] {
      if todo[0] !in chain && todo[0] in s {
        VisitShrinks(s, Elems(chain), todo[0]);
        SearchSound(s, todo[0], it, chain);
      }
      SearchAnySound(s, todo[1..], it, chain);
    }
  }

  /** Routes that pass n can leave n for good, from its last visit on. */
  lemma {:induction false} Detour(s: Network, p: seq<NodeId>, it: Item, avoid: set<NodeId>, n: NodeId) returns (r: seq<NodeId>)
    requires Route(s, p, it, avoid) && n in s && !s[n].Holds(it)
    ensures Route(s, r, it, avoid + {n})
    ensures r[0] == p[0] || (Asked(s, n, r[0], it) && r[0] !in avoid + {n})
    decreases |p|
  {
    hide Nearer;
    if |p| == 1 {
      r := p;
    } else {
      r := Detour(s, p[1..], it, avoid, n);
      if r[0] == p[1] {
        if p[1] == n {
          r := r[1..];
        } else {
          assert ([p[0]] + r)[1..] == r;
          r := [p[0]] + r;
        }
      }
    }
  }

  lemma {:induction false} CutRoute(s: Network, p: seq<NodeId>, it: Item, avoid: set<NodeId>) returns (q: seq<NodeId>)
    requires Route(s, p, it, avoid) && !s[p[0]].Holds(it)
    ensures Route(s, q, it, avoid + {p[0]}) && Asked(s, p[0], q[0], it) && q[0] !in avoid + {p[0]}
  {
    q := Detour(s, p, it, avoid, p[0]);
    if q[0] == p[0] { q := q[1..]; }
  }

  lemma {:induction false} SearchComplete(s: Network, n: NodeId, it: Item, chain: seq<NodeId>, p: seq<NodeId>)
    requires n in s && Route(s, p, it, Elems(chain)) && p[0] == n
    ensures Search(s, n, it, chain).Some?
    decreases Unvisited(s, Elems(chain) + {n}), 1, 0
  {
    if !s[n].Holds(it) {
      ElemsAppend(chain, n);
      var q := CutRoute(s, p, it, Elems(chain));
      AsksAre(s, n, q[0], it);
      SearchAnyComplete(s, Asks(s, n, it), it, chain + [n], q);
    }
  }

  lemma {:induction false} SearchAnyComplete(s: Network, todo: seq<NodeId>, it: Item, chain: seq<NodeId>, q: seq<NodeId>)
    requires Route(s, q, it, Elems(chain)) && q[0] in todo && q[0] !in Elems(chain)
    ensures SearchAny(s, todo, it, chain).Some?
    decreases Unvisited(s, Elems(chain)), 0, |todo|
  {
    if todo[0] == q[0] {
      VisitShrinks(s, Elems(chain), todo[0]);
      SearchComplete(s, todo[0], it, chain, q);
    } else {
      SearchAnyComplete(s, todo[1..], it, chain, q);
    }
  }

  /** FetchItem finds a value iff a holder is reachable off the request's initial chain. */
  lemma {:induction false} SearchDecides(s: Network, n: NodeId, it: Item, chain: seq<NodeId>)
    requires n in s
    ensures var r := Search(s, n, it, chain);
      && (r.Some? <==> HolderReachable(s, n, it, Elems(chain)))
      && (r.Some? ==> Answer(s, r.value, it, Elems(chain)) && r.value[0] == n && Ends(s, r.value, it))
  {
    SearchSound(s, n, it, chain);
    var r := Search(s, n, it, chain);
    if r.Some? {
      AnswerIsRoute(s, r.value, it, Elems(chain));
      AnswerEnds(s, r.value, it, Elems(chain));
    }
    if HolderReachable(s, n, it, Elems(chain)) {
      var p :| Route(s, p, it, Elems(chain)) && p[0] == n;
      SearchComplete(s, n, it, chain, p);
    }
  }

  /** A path of peers of the network that ends at a holder. */
  ghost predicate Ends(s: Network, p: seq<NodeId>, it: Item) {
    p != [] && (forall x :: x in p ==> x in s) && s[p[|p| - 1]].Holds(it)
  }

  lemma {:induction false} AnswerEnds(s: Network, p: seq<NodeId>, it: Item, avoid: set<NodeId>)
    requires Answer(s, p, it, avoid)
    ensures Ends(s, p, it)
    decreases |p|
  {
    hide Asked;
    if |p| > 1 {
      AnswerEnds(s, p[1..], it, avoid + {p[0]});
      assert p == [p[0]] + p[1..];
    }
  }

  lemma {:induction false} AnswerAvoids(s: Network, p: seq<NodeId>, it: Item, avoid: set<NodeId>, x: NodeId)
    requires Answer(s, p, it, avoid) && x in avoid + {p[0]}
    ensures x !in p[1..]
    decreases |p|
  {
    hide Asked;
    if |p| > 1 {
      var q := p[1..];
      AnswerAvoids(s, q, it, avoid + {p[0]}, x);
      assert q == [q[0]] + q[1..];
    }
  }

  lemma {:induction false} AnswerIsRoute(s: Network, p: seq<NodeId>, it: Item, avoid: set<NodeId>)
    requires Answer(s, p, it, avoid)
    ensures Route(s, p, it, avoid)
    decreases |p|
  {
    hide Asked;
    if |p| > 1 {
      AnswerIsRoute(s, p[1..], it, avoid + {p[0]});
      WidenRoute(s, p[1..], it, avoid + {p[0]}, avoid);
    }
  }

  lemma {:induction false} WidenRoute(s: Network, p: seq<NodeId>, it: Item, a: set<NodeId>, b: set<NodeId>)
    requires Route(s, p, it, a) && b <= a
    ensures Route(s, p, it, b)
    decreases |p|
  {
    hide Asked;
    if |p| > 1 { WidenRoute(s, p[1..], it, a, b); }
  }

  // ---- The handler ----

  /** Every peer of the path but the last caches v from its successor, the nearest to the holder first. */
  ghost function CacheAlong(s: Network, p: seq<NodeId>, it: Item, v: Value): (t: Network)
    requires p != [] && forall x :: x in p ==> x in s
    ensures t.Keys == s.Keys
  {
    if |p| == 1 then s else CacheFrom(CacheAlong(s, p[1..], it, v), p[0], p[1], it, v)
  }

  /** The value the last peer of a path answers, and the network once it has travelled back. */
  ghost function Along(s: Network, p: seq<NodeId>, it: Item): (r: (Option<Value>, Network))
    requires Ends(s, p, it)
    ensures r.1.Keys == s.Keys
  {
    var v := s[p[|p| - 1]].data[it];
    (Some(v), CacheAlong(s, p, it, v))
  }

  /** The outcome of a fetch at n: the value found, if any, and the network afterwards. */
  ghost function Fetched(s: Network, n: NodeId, it: Item, chain: seq<NodeId>): (r: (Option<Value>, Network))
    requires n in s
    ensures r.1.Keys == s.Keys
  {
    SearchDecides(s, n, it, chain);
    match Search(s, n, it, chain)
    case None => (None, s)
    case Some(p) => Along(s, p, it)
  }

  lemma AlongPrepend(s: Network, n: NodeId, rest: seq<NodeId>, it: Item)
    requires n in s && Ends(s, rest, it)
    ensures Ends(s, [n] + rest, it)
    ensures var (v, t) := Along(s, rest, it);
      v.Some? && Along(s, [n] + rest, it) == (v, CacheFrom(t, n, rest[0], it, v.value))
  {
    var p := [n] + rest;
    assert p[1..] == rest && p[1] == rest[0] && p[|p| - 1] == rest[|rest| - 1];
  }

  lemma FetchedFrom(s: Network, n: NodeId, it: Item, chain: seq<NodeId>, up: NodeId, rest: seq<NodeId>)
    requires n in s && up in s
    requires Search(s, n, it, chain) == Some([n] + rest)
    requires Search(s, up, it, chain + [n]) == Some(rest)
    ensures var (v, t) := Fetched(s, up, it, chain + [n]);
      v.Some? && Fetched(s, n, it, chain) == (v, CacheFrom(t, n, up, it, v.value))
  {
    SearchDecides(s, n, it, chain);
    SearchDecides(s, up, it, chain + [n]);
    AlongPrepend(s, n, rest, it);
  }

  /** A peer that holds the entry answers with its copy. */
  lemma FetchedHere(s: Network, n: NodeId, it: Item, chain: seq<NodeId>)
    requires n in s && s[n].Holds(it)
    ensures Fetched(s, n, it, chain) == (Some(s[n].data[it]), s)
  {
    hide SearchAny;
    assert Search(s, n, it, chain) == Some([n]);
  }

  /** A peer whose neighbors all fail answers nothing. */
  lemma FetchedNowhere(s: Network, n: NodeId, it: Item, chain: seq<NodeId>)
    requires n in s && !s[n].Holds(it) && SearchAny(s, Asks(s, n, it), it, chain + [n]) == None
    ensures Fetched(s, n, it, chain) == (None, s)
  {
    hide SearchAny, Asks;
  }

  /** Trying neighbor a: when it is skipped or fails, the rest is tried, and otherwise its answer
      is passed back and cached from it. */
  lemma Tried(s: Network, n: NodeId, it: Item, chain: seq<NodeId>, todo: seq<NodeId>)
    requires n in s && !s[n].Holds(it) && todo != []
    requires SearchAny(s, Asks(s, n, it), it, chain + [n]) == SearchAny(s, todo, it, chain + [n])
    ensures var a := todo[0];
      if a in chain + [n] || a !in s || Fetched(s, a, it, chain + [n]).0 == None then
        && SearchAny(s, todo, it, chain + [n]) == SearchAny(s, todo[1..], it, chain + [n])
        && (a !in chain + [n] && a in s ==> Fetched(s, a, it, chain + [n]).1 == s)
      else
        var (v, t) := Fetched(s, a, it, chain + [n]);
        Fetched(s, n, it, chain) == (v, CacheFrom(t, n, a, it, v.value))
  {
    var a := todo[0];
    if a !in chain + [n] && a in s {
      SearchDecides(s, a, it, chain + [n]);
      NeighborAnswers(s, todo, it, chain + [n]);
      var r := Search(s, a, it, chain + [n]);
      if r.Some? {
        SearchHead(s, n, it, chain, r.value);
        hide Search, SearchAny, CacheAlong, CacheFrom, Asks;
        FetchedFrom(s, n, it, chain, a, r.value);
      } else {
        hide Search, SearchAny, CacheAlong, CacheFrom, Asks;
      }
    }
  }

  lemma NeighborAnswers(s: Network, todo: seq<NodeId>, it: Item, chain: seq<NodeId>)
    requires todo != [] && todo[0] !in chain && todo[0] in s
    ensures var r := Search(s, todo[0], it, chain);
      SearchAny(s, todo, it, chain) == if r.Some? then r else SearchAny(s, todo[1..], it, chain)
  {
    hide Search;
  }

  lemma SearchHead(s: Network, n: NodeId, it: Item, chain: seq<NodeId>, p: seq<NodeId>)
    requires n in s && !s[n].Holds(it) && SearchAny(s, Asks(s, n, it), it, chain + [n]) == Some(p)
    ensures Search(s, n, it, chain) == Some([n] + p)
  {
    hide SearchAny, Asks;
  }

  lemma NoneLeft(s: Network, it: Item, chain: seq<NodeId>)
    ensures SearchAny(s, [], it, chain) == None
  {
  }

  // ---- What a fetch answers ----

  /** A peer that is not on the chain, answers, and finds the entry. */
  ghost predicate Finds(s: Network, b: NodeId, it: Item, chain: seq<NodeId>) {
    b !in chain && b in s && Search(s, b, it, chain).Some?
  }

  ghost predicate FirstFound(s: Network, todo: seq<NodeId>, i: nat, it: Item, chain: seq<NodeId>)
    requires i < |todo|
  {
    Finds(s, todo[i], it, chain) && forall j :: 0 <= j < i ==> !Finds(s, todo[j], it, chain)
  }

  /** A search among the given peers returns what the first of them that finds the entry does. */
  lemma {:induction false} AnyIsFirst(s: Network, todo: seq<NodeId>, it: Item, chain: seq<NodeId>)
    ensures var r := SearchAny(s, todo, it, chain);
      if r.Some? then exists i :: 0 <= i < |todo| && FirstFound(s, todo, i, it, chain) && Search(s, todo[i], it, chain) == r
      else forall j :: 0 <= j < |todo| ==> !Finds(s, todo[j], it, chain)
    decreases |todo|
  {
    hide Search;
    if todo != [] {
      AnyIsFirst(s, todo[1..], it, chain);
      if Finds(s, todo[0], it, chain) {
        NeighborAnswers(s, todo, it, chain);
        assert FirstFound(s, todo, 0, it, chain);
      } else {
        NeighborFails(s, todo, it, chain);
        hide SearchAny, Finds;
        var r := SearchAny(s, todo, it, chain);
        if r.Some? {
          var i :| 0 <= i < |todo[1..]| && FirstFound(s, todo[1..], i, it, chain) && Search(s, todo[1..][i], it, chain) == r;
          assert todo[i + 1] == todo[1..][i];
          forall j | 0 <= j < i + 1 ensures !Finds(s, todo[j], it, chain) { if j > 0 { assert todo[j] == todo[1..][j - 1]; } }
          assert FirstFound(s, todo, i + 1, it, chain);
        } else {
          forall j | 0 <= j < |todo| ensures !Finds(s, todo[j], it, chain) { if j > 0 { assert todo[j] == todo[1..][j - 1]; } }
        }
      }
    }
  }

  lemma NeighborFails(s: Network, todo: seq<NodeId>, it: Item, chain: seq<NodeId>)
    requires todo != [] && !Finds(s, todo[0], it, chain)
    ensures SearchAny(s, todo, it, chain) == SearchAny(s, todo[1..], it, chain)
  {
    hide Search;
  }

  /** Peer b answers the fetch of n: n asks it, it is new and reaches a holder off the chain, and no
      nearer peer does. */
  ghost predicate Answers(s: Network, n: NodeId, b: NodeId, it: Item, chain: seq<NodeId>) {
    && Serves(s, n, b, it, chain)
    && forall c :: Closer(it.key, c, b) ==> !Serves(s, n, c, it, chain)
  }

  ghost predicate Serves(s: Network, n: NodeId, b: NodeId, it: Item, chain: seq<NodeId>) {
    Asked(s, n, b, it) && b !in chain + [n] && HolderReachable(s, b, it, Elems(chain + [n]))
  }

  lemma ServesFinds(s: Network, n: NodeId, b: NodeId, it: Item, chain: seq<NodeId>)
    requires n in s
    ensures Serves(s, n, b, it, chain) <==> b in Asks(s, n, it) && Finds(s, b, it, chain + [n])
  {
    if b in s {
      AsksAre(s, n, b, it);
      SearchDecides(s, b, it, chain + [n]);
    }
    hide Search, Answer, Asks, Ends, HolderReachable, Nearer;
  }

  /**
   * A fetch at a peer without the entry returns what the nearest of the peers it asks that can reach a
   * holder returns, cached from that peer; it returns nothing, and changes nothing, when none can.
   */
  lemma NearestAnswers(s: Network, n: NodeId, it: Item, chain: seq<NodeId>)
    requires n in s && !s[n].Holds(it)
    ensures forall b :: Answers(s, n, b, it, chain) ==> PassesBack(s, n, b, it, chain)
    ensures (forall b :: !Serves(s, n, b, it, chain)) ==> Fetched(s, n, it, chain) == (None, s)
    ensures Fetched(s, n, it, chain).0.Some? ==> exists b :: Answers(s, n, b, it, chain)
  {
    hide *;
    var todo := Asks(s, n, it);
    AnyIsFirst(s, todo, it, chain + [n]);
    var r := SearchAny(s, todo, it, chain + [n]);
    forall b ensures Serves(s, n, b, it, chain) <==> b in todo && Finds(s, b, it, chain + [n]) { ServesFinds(s, n, b, it, chain); }
    if r.Some? {
      var i := FirstServes(s, n, it, chain, r.value);
      forall b | Answers(s, n, b, it, chain) ensures b == todo[i] { OneAnswers(s, n, it, chain, b, todo[i]); }
      FirstFetched(s, n, it, chain, r.value, todo[i]);
      AnswersServes(s, n, todo[i], it, chain);
    } else {
      FetchedNowhere(s, n, it, chain);
      forall b ensures !Serves(s, n, b, it, chain) {
        if b in todo { var j :| 0 <= j < |todo| && todo[j] == b; assert !Finds(s, todo[j], it, chain + [n]); }
      }
      forall b ensures !Answers(s, n, b, it, chain) { AnswersServes(s, n, b, it, chain); }
    }
  }

  /** The answer of b to the fetch of n is passed back, and n caches it from b. */
  ghost predicate PassesBack(s: Network, n: NodeId, b: NodeId, it: Item, chain: seq<NodeId>) {
    n in s && b in s
    && var (v, t) := Fetched(s, b, it, chain + [n]);
    v.Some? && Fetched(s, n, it, chain) == (v, CacheFrom(t, n, b, it, v.value))
  }

  lemma AnswersServes(s: Network, n: NodeId, b: NodeId, it: Item, chain: seq<NodeId>)
    ensures Answers(s, n, b, it, chain) ==> Serves(s, n, b, it, chain)
  {
  }

  lemma OneAnswers(s: Network, n: NodeId, it: Item, chain: seq<NodeId>, a: NodeId, b: NodeId)
    requires Answers(s, n, a, it, chain) && Answers(s, n, b, it, chain)
    ensures a == b
  {
    hide Serves, Closer;
    CloserTotal(it.key, a, b);
  }

  lemma FirstServes(s: Network, n: NodeId, it: Item, chain: seq<NodeId>, p: seq<NodeId>) returns (i: nat)
    requires n in s && SearchAny(s, Asks(s, n, it), it, chain + [n]) == Some(p)
    ensures i < |Asks(s, n, it)|
    ensures var b := Asks(s, n, it)[i]; Answers(s, n, b, it, chain) && b in s && Search(s, b, it, chain + [n]) == Some(p)
  {
    hide Asks, Search, SearchAny, Closer, Serves, Answers, NearestFirst;
    var todo := Asks(s, n, it);
    AnyIsFirst(s, todo, it, chain + [n]);
    AsksNearestFirst(s, n, it);
    i :| 0 <= i < |todo| && FirstFound(s, todo, i, it, chain + [n]) && Search(s, todo[i], it, chain + [n]) == Some(p);
    FirstFoundIs(s, todo, i, it, chain + [n]);
    ServesFinds(s, n, todo[i], it, chain);
    forall c | Closer(it.key, c, todo[i]) ensures !Serves(s, n, c, it, chain) {
      ServesFinds(s, n, c, it, chain);
      if c in todo {
        var j :| 0 <= j < |todo| && todo[j] == c;
        NearerEarlier(it.key, todo, j, i);
      }
    }
    AnswersIs(s, n, todo[i], it, chain);
  }

  lemma FirstFoundIs(s: Network, todo: seq<NodeId>, i: nat, it: Item, chain: seq<NodeId>)
    requires i < |todo| && FirstFound(s, todo, i, it, chain)
    ensures Finds(s, todo[i], it, chain) && todo[i] in s && forall j :: 0 <= j < i ==> !Finds(s, todo[j], it, chain)
  {
    hide Search;
  }

  lemma AnswersIs(s: Network, n: NodeId, b: NodeId, it: Item, chain: seq<NodeId>)
    requires Serves(s, n, b, it, chain) && forall c :: Closer(it.key, c, b) ==> !Serves(s, n, c, it, chain)
    ensures Answers(s, n, b, it, chain)
  {
    hide Serves, Closer;
  }

  lemma NearerEarlier(key: NodeId, r: seq<NodeId>, j: nat, i: nat)
    requires NearestFirst(key, r) && i < |r| && j < |r| && Closer(key, r[j], r[i])
    ensures j < i
  {
    hide Closer;
    CloserTotal(key, r[j], r[i]);
  }

  lemma FirstFetched(s: Network, n: NodeId, it: Item, chain: seq<NodeId>, p: seq<NodeId>, b: NodeId)
    requires n in s && !s[n].Holds(it) && b in s && SearchAny(s, Asks(s, n, it), it, chain + [n]) == Some(p)
    requires Search(s, b, it, chain + [n]) == Some(p)
    ensures PassesBack(s, n, b, it, chain)
  {
    hide Search, SearchAny, Asks, Fetched, CacheFrom;
    SearchHead(s, n, it, chain, p);
    FetchedFrom(s, n, it, chain, b, p);
  }

  /** Each visit leaves fewer peers to visit. */
  lemma FetchShrinks(s: Network, chain: seq<NodeId>, n: NodeId, a: NodeId)
    requires a in s && a !in chain + [n]
    ensures Unvisited(s, Elems(chain + [n]) + {a}) < Unvisited(s, Elems(chain) + {n})
  {
    ElemsAppend(chain, n);
    VisitShrinks(s, Elems(chain + [n]), a);
  }

  method FetchItem(net: map<NodeId, PlugBoard>, me: PlugBoard, it: Item, chain: seq<NodeId>) returns (v: Option<Value>)
    requires Wired(net) && me.myAddr in net && net[me.myAddr] == me
    modifies net.Values
    ensures (v, Snap(net)) == Fetched(old(Snap(net)), me.myAddr, it, chain)
    decreases Unvisited(Snap(net), Elems(chain) + {me.myAddr})
  {
    hide Search, SearchAny, Fetched, CacheFrom, Unvisited, Elems;
    ghost var s, n := Snap(net), me.myAddr;
    assert s[n] == me.State() && s.Keys == net.Keys;
    hide Snap;
    var nodesVisited := chain + [me.myAddr];
    var status, data, neighbors := me.Get(it);
    if status == OWNED || status == FOUND {
      FetchedHere(s, n, it, chain);
      return data;
    }
    assert neighbors == Asks(s, n, it) == neighbors[0..];
    hide Asks;
    for i := 0 to |neighbors|
      invariant Snap(net) == s
      invariant SearchAny(s, Asks(s, n, it), it, nodesVisited) == SearchAny(s, neighbors[i..], it, nodesVisited)
    {
      var a := neighbors[i];
      assert neighbors[i..][0] == a && neighbors[i..][1..] == neighbors[i + 1..];
      Tried(s, n, it, chain, neighbors[i..]);
      if a !in nodesVisited && a in net {
        FetchShrinks(s, chain, n, a);
        var response := FetchItem(net, net[a], it, nodesVisited);
        if response.Some? {
          DhtCacheStore(net, me, it, response.value, a);
          return response;
        }
      }
    }
    assert neighbors[|neighbors|..] == [];
    NoneLeft(s, it, nodesVisited);
    FetchedNowhere(s, n, it, chain);
    return None;
  }
}

/**
 * Choosing a monitor for a task or a file (src/plugboard.py): try the known peers nearest first
 * until one answers a liveness test.
 */
module MonitorSelection {
  import opened Metric
  import opened Dht
  import opened Wrappers

  /** DHT.get_next_closest_neighbor. */
  method GetNextClosestNeighbor(addr: set<NodeId>, key: NodeId, ignore: set<NodeId>) returns (m: Option<NodeId>)
    ensures m == if addr - ignore == {} then None else Some(Nearest(key, addr - ignore))
  {
    var query := addr - ignore;
    if query == {} { return None; }
    return Some(Nearest(key, query));
  }

  lemma SmallerNearest(key: NodeId, big: set<NodeId>, small: set<NodeId>, m: NodeId)
    requires IsNearest(key, big, m) && small <= big && m in small
    ensures IsNearest(key, small, m)
  {
  }

  function Lost(monitor: Option<NodeId>): set<NodeId> {
    if monitor.Some? then {monitor.value} else {}
  }

  /** The candidates at which the loop ends: those that do not resolve, and those that answer. */
  ghost function Final(me: PlugBoard, lost: Option<NodeId>, resolved: set<NodeId>, live: set<NodeId>): set<NodeId>
    reads me
  {
    me.addr - {me.myAddr} - Lost(lost) - (resolved - live)
  }

  /**
   * The retry loop of create_monitor_request and create_file_monitor_request.  The peers that
   * resolve to a transport and those that pass the liveness test are parameters; lost is the previous
   * monitor, if any.  Failure is the assertion error at a peer that does not resolve.
   */
  method SelectMonitor(me: PlugBoard, key: NodeId, lost: Option<NodeId>, resolved: set<NodeId>, live: set<NodeId>)
    returns (r: Result<Option<NodeId>>)
    ensures var c := Final(me, lost, resolved, live);
      match r
      case Success(None) => c == {}
      case Success(Some(p)) => IsNearest(key, c, p) && p in resolved && p in live
      case Failure => exists p :: IsNearest(key, c, p) && p !in resolved
  {
    ghost var c := Final(me, lost, resolved, live);
    var ignore := {me.myAddr} + Lost(lost);
    while true
      invariant c <= me.addr - ignore <= me.addr - {me.myAddr} - Lost(lost)
      decreases |me.addr - ignore|
    {
      var m := GetNextClosestNeighbor(me.addr, key, ignore);
      if m == None { return Success(None); }
      if m.value !in resolved {
        SmallerNearest(key, me.addr - ignore, c, m.value);
        return Failure;
      }
      if m.value in live {
        SmallerNearest(key, me.addr - ignore, c, m.value);
        return Success(m);
      }
      assert me.addr - ignore == (me.addr - (ignore + {m.value})) + {m.value};
      ignore := ignore + {m.value};
    }
  }
}

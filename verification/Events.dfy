/**
 * Events and the execution engine (src/core/star_components.py, src/core/star_engine.py).  Every
 * event carries the checkpoint event it descends from and the one before that; the engine
 * computes both from the event it runs.
 */
module Events {
  import opened Metric
  import opened Wrappers

  datatype TaskId = TaskId(user: Bytes, process: Bytes, task: Bytes)

  /** A task as an event names it: its id, whether it takes its id, and its owner's monitor. */
  datatype Target = Target(id: TaskId, passId: bool, monitor: Bytes)

  datatype Event = Event(
    target: Option<Target>,
    data: Bytes,
    checkpoint: bool,
    nonce: int,
    targetString: string,
    origin: Option<Event>,
    previous: Option<Event>)

  // ---- Encoding ----

  /** The message form of an event; nested events are byte strings there, empty when absent. */
  datatype Message = Message(
    to: Target, data: Bytes, checkpoint: bool, nonce: int, targetString: string,
    origin: Option<Message>, previous: Option<Message>)

  const ZERO_TASK: Target := Target(TaskId([0, 0, 0, 0], [0, 0], [0, 0]), false, [])

  function Size(e: Event): nat {
    1 + (if e.origin.Some? then Size(e.origin.value) else 0) + (if e.previous.Some? then Size(e.previous.value) else 0)
  }

  lemma SizeWithoutOrigin(e: Event)
    ensures Size(e.(origin := None)) <= Size(e)
  {
  }

  /** Event.to_pb.  It clears the origin of both nested events before it encodes them. */
  function ToPb(e: Event): Message
    decreases Size(e)
  {
    Message(
      if e.target.Some? then e.target.value else ZERO_TASK, e.data, e.checkpoint, e.nonce, e.targetString,
      if e.origin.Some? then (SizeWithoutOrigin(e.origin.value); Some(ToPb(e.origin.value.(origin := None)))) else None,
      if e.previous.Some? then (SizeWithoutOrigin(e.previous.value); Some(ToPb(e.previous.value.(origin := None)))) else None)
  }

  /** Event.from_pb. */
  function FromPb(m: Message): Event {
    Event(
      Some(m.to), m.data, m.checkpoint, m.nonce, m.targetString,
      if m.origin.Some? then Some(FromPb(m.origin.value)) else None,
      if m.previous.Some? then Some(FromPb(m.previous.value)) else None)
  }

  /** e with every origin below the top cleared, all along the previous events. */
  function Pruned(e: Event, top: bool): Event {
    Event(
      if e.target.Some? then e.target else Some(ZERO_TASK), e.data, e.checkpoint, e.nonce, e.targetString,
      if top && e.origin.Some? then Some(Pruned(e.origin.value, false)) else None,
      if e.previous.Some? then Some(Pruned(e.previous.value, false)) else None)
  }

  lemma {:induction false} EncodingPrunes(e: Event, top: bool)
    ensures FromPb(ToPb(if top then e else e.(origin := None))) == Pruned(e, top)
  {
    if e.origin.Some? { EncodingPrunes(e.origin.value, false); }
    if e.previous.Some? { EncodingPrunes(e.previous.value, false); }
  }

  lemma {:induction false} PrunedTwice(e: Event, top: bool)
    ensures Pruned(Pruned(e, top), top) == Pruned(e, top)
    ensures Pruned(Pruned(e, true), false) == Pruned(e, false)
  {
    if e.origin.Some? { PrunedTwice(e.origin.value, false); }
    if e.previous.Some? { PrunedTwice(e.previous.value, false); }
  }

  /** Encoding and decoding prunes an event, and doing so again changes nothing more. */
  lemma EncodingRoundTrip(e: Event)
    ensures FromPb(ToPb(e)) == Pruned(e, true)
    ensures FromPb(ToPb(FromPb(ToPb(e)))) == FromPb(ToPb(e))
  {
    EncodingPrunes(e, true);
    EncodingPrunes(Pruned(e, true), true);
    PrunedTwice(e, true);
  }

  /** An event without a target arrives for the task of zeros. */
  lemma NoTargetArrives(e: Event)
    ensures var f := FromPb(ToPb(e));
      f.target == (if e.target.Some? then e.target else Some(Target(TaskId([0, 0, 0, 0], [0, 0], [0, 0]), false, [])))
      && f.data == e.data && f.checkpoint == e.checkpoint && f.nonce == e.nonce && f.targetString == e.targetString
      && f.origin.Some? == e.origin.Some? && f.previous.Some? == e.previous.Some?
  {
  }

  /** What an event says about itself: everything but its ancestors. */
  function Core(e: Event): Event {
    e.(origin := None, previous := None)
  }

  /** The k-th event along the previous events. */
  function Ancestor(e: Event, k: nat): Option<Event> {
    if k == 0 then Some(e) else if e.previous.None? then None else Ancestor(e.previous.value, k - 1)
  }

  /** No event is lost: every ancestor of e with a target arrives as it was, without its origin. */
  lemma {:induction false} AncestorsSurvive(e: Event, top: bool, k: nat)
    ensures var a, b := Ancestor(e, k), Ancestor(Pruned(e, top), k);
      && (a.Some? <==> b.Some?)
      && (a.Some? && a.value.target.Some? ==> Core(a.value) == Core(b.value))
      && (b.Some? && k > 0 ==> b.value.origin == None)
    decreases k
  {
    if k > 0 && e.previous.Some? { AncestorsSurvive(e.previous.value, false, k - 1); }
  }

  // ---- The engine ----

  /** What a task callable returns: the next task of the process, its data and the event's flags. */
  datatype Reply = Reply(task: Bytes, passId: bool, data: Bytes, checkpoint: bool, targetString: string)

  /** What encoding an event leaves of it: to_pb clears the origins of its nested events in place. */
  function Erased(e: Event): Event {
    e.(origin := if e.origin.Some? then Some(e.origin.value.(origin := None)) else None,
       previous := if e.previous.Some? then Some(e.previous.value.(origin := None)) else None)
  }

  /** The event as it is after the first of executor_loop's two encodings. */
  function OnceEncoded(e: Event): Event {
    if e.origin.None? || e.checkpoint then Erased(e) else e
  }

  /** executor_loop: the event the next one descends from. */
  function OldEvent(e: Event): Event {
    FromPb(ToPb(if e.origin.None? || e.checkpoint then e else e.origin.value))
  }

  /** executor_loop: the checkpoint before that. */
  function OldEventPre(e: Event): Event {
    var f := OnceEncoded(e);
    if f.previous.None? || f.checkpoint then
      if f.origin.None? then OldEvent(e) else FromPb(ToPb(f.origin.value))
    else FromPb(ToPb(f.previous.value))
  }

  /** finish_task: the event sent out after e has run and its callable has replied. */
  function Output(e: Event, r: Reply): Event
    requires e.target.Some?
  {
    var id := e.target.value.id;
    Event(Some(Target(TaskId(id.user, id.process, r.task), r.passId, [])), r.data, r.checkpoint,
          OldEvent(e).nonce, r.targetString, Some(OldEvent(e)), Some(OldEventPre(e)))
  }

  /** The ancestors of what is sent are whole events, with everything but nested origins: the event it
      descends from keeps its own origin, and the checkpoint before keeps it unless the first encoding
      has cleared it. */
  lemma AncestorsWhole(e: Event)
    ensures OldEvent(e) == Pruned(if e.origin.None? || e.checkpoint then e else e.origin.value, true)
    ensures e.origin.None? && (e.previous.None? || e.checkpoint) ==> OldEventPre(e) == OldEvent(e)
    ensures e.origin.Some? && (e.previous.None? || e.checkpoint) ==> OldEventPre(e) == Pruned(e.origin.value, !e.checkpoint)
    ensures e.previous.Some? && !e.checkpoint ==> OldEventPre(e) == Pruned(e.previous.value, e.origin.Some?)
  {
    EncodingPrunes(e, true);
    if e.origin.Some? {
      EncodingPrunes(e.origin.value, true);
      EncodingPrunes(e.origin.value, false);
      EncodingPrunes(e.origin.value.(origin := None), true);
      PrunedAlone(e.origin.value);
    }
    if e.previous.Some? {
      EncodingPrunes(e.previous.value, true);
      EncodingPrunes(e.previous.value, false);
      PrunedAlone(e.previous.value);
    }
    hide ToPb, FromPb, Pruned;
  }

  lemma PrunedAlone(e: Event)
    ensures Pruned(e.(origin := None), true) == Pruned(e, false)
  {
  }

  /** What is sent goes to the task the callable named, within the process, with what it replied. */
  lemma OutputSays(e: Event, r: Reply)
    requires e.target.Some?
    ensures var out, id := Output(e, r), e.target.value.id;
      && out.target == Some(Target(TaskId(id.user, id.process, r.task), r.passId, []))
      && out.data == r.data && out.checkpoint == r.checkpoint && out.targetString == r.targetString
      && out.origin.Some? && out.previous.Some? && out.nonce == out.origin.value.nonce
  {
  }

  /** recv_event_coro: an event enters the executor queue with the monitor of the hosted task. */
  function Entered(e: Event, monitor: Bytes): Event
    requires e.target.Some?
  {
    e.(target := Some(e.target.value.(monitor := monitor)))
  }

  /** A hosted task: its monitor, and how many more events it takes. */
  datatype Slot = Slot(monitor: Bytes, units: nat)

  const UNITS: nat := 1000

  /** What a peer's engine is told of: tasks to host, monitors of tasks, and events. */
  datatype Signal = Hosting(t: Target) | Monitored(id: TaskId, monitor: Bytes) | Arriving(e: Event)

  /** An event is for a hosted task that has units left. */
  predicate Accepts(hosted: map<TaskId, Slot>, e: Event)
    requires e.target.Some?
  {
    e.target.value.id in hosted && hosted[e.target.value.id].units > 0
  }

  /** The hosted tasks after a signal; an accepted event takes a unit, which nothing gives back. */
  function Hosts(hosted: map<TaskId, Slot>, s: Signal): map<TaskId, Slot> {
    match s
    case Hosting(t) => if t.id in hosted then hosted else hosted[t.id := Slot(t.monitor, UNITS)]
    case Monitored(id, m) => if id in hosted then hosted[id := hosted[id].(monitor := m)] else hosted
    case Arriving(e) =>
      if e.target.Some? && Accepts(hosted, e) then
        var id := e.target.value.id;
        hosted[id := hosted[id].(units := hosted[id].units - 1)]
      else hosted
  }

  class NodeEngine {
    var hosted: map<TaskId, Slot>
    var executorQueue: seq<Event>
    var outQueue: seq<Event>

    constructor ()
      ensures hosted == map[] && executorQueue == [] && outQueue == []
    {
      hosted, executorQueue, outQueue := map[], [], [];
    }

    method ImportTask(t: Target)
      modifies this`hosted
      ensures hosted == Hosts(old(hosted), Hosting(t))
      ensures t.id !in old(hosted) ==> hosted == old(hosted)[t.id := Slot(t.monitor, 1000)]
      ensures t.id in old(hosted) ==> hosted == old(hosted)
    {
      if t.id in hosted { return; }
      hosted := hosted[t.id := Slot(t.monitor, UNITS)];
    }

    method UpdateMonitor(t: TaskId, monitor: Bytes)
      modifies this`hosted
      ensures hosted == Hosts(old(hosted), Monitored(t, monitor))
      ensures hosted.Keys == old(hosted).Keys && (t in hosted ==> hosted[t].monitor == monitor && hosted[t].units == old(hosted)[t].units)
      ensures forall x :: x in hosted && x != t ==> hosted[x] == old(hosted)[x]
    {
      if t !in hosted { return; }
      hosted := hosted[t := hosted[t].(monitor := monitor)];
    }

    /** An event for a task that is hosted elsewhere, or has no units left, goes back to the network. */
    method RecvEvent(e: Event)
      requires e.target.Some?
      modifies this
      ensures hosted == Hosts(old(hosted), Arriving(e))
      ensures var id := e.target.value.id;
        if Accepts(old(hosted), e) then executorQueue == old(executorQueue) + [Entered(e, old(hosted)[id].monitor)] && outQueue == old(outQueue)
        else executorQueue == old(executorQueue) && outQueue == old(outQueue) + [e]
      ensures var id, k := e.target.value.id, |old(executorQueue)|; id in old(hosted) && old(hosted)[id].units > 0 ==>
        && k < |executorQueue| && executorQueue[k].target == Some(e.target.value.(monitor := old(hosted)[id].monitor))
        && hosted[id].monitor == old(hosted)[id].monitor && hosted[id].units == old(hosted)[id].units - 1
    {
      var t := e.target.value;
      if t.id !in hosted {
        outQueue := outQueue + [e];
        return;
      }
      if hosted[t.id].units == 0 {
        outQueue := outQueue + [e];
        return;
      }
      hosted := hosted[t.id := hosted[t.id].(units := hosted[t.id].units - 1)];
      executorQueue := executorQueue + [e.(target := Some(t.(monitor := hosted[t.id].monitor)))];
    }

    /** One turn of executor_loop with its finish_task; None is a killed event. */
    method ExecuteNext(reply: Option<Reply>)
      requires executorQueue != [] && executorQueue[0].target.Some?
      modifies this`executorQueue, this`outQueue
      ensures executorQueue == old(executorQueue)[1..]
      ensures outQueue == old(outQueue) + if reply.None? then [] else [Output(old(executorQueue)[0], reply.value)]
    {
      var e := executorQueue[0];
      executorQueue := executorQueue[1..];
      var copy, copyPre;
      if e.origin.None? || e.checkpoint {
        copy := ToPb(e);
        e := Erased(e);
      } else {
        copy := ToPb(e.origin.value);
      }
      if e.previous.None? || e.checkpoint {
        if e.origin.None? { copyPre := copy; } else { copyPre := ToPb(e.origin.value); }
      } else {
        copyPre := ToPb(e.previous.value);
      }
      if reply.None? { return; }
      var r := reply.value;
      var out := Event(Some(Target(TaskId([], [], r.task), r.passId, [])), r.data, r.checkpoint, 0, r.targetString, None, None);
      out := out.(origin := Some(FromPb(copy)));
      out := out.(previous := Some(FromPb(copyPre)));
      out := out.(nonce := FromPb(copy).nonce);
      var id := e.target.value.id;
      out := out.(target := Some(out.target.value.(id := TaskId(id.user, id.process, r.task))));
      outQueue := outQueue + [out];
    }
  }

  // ---- How many events a task takes ----

  function HostsAfter(hosted: map<TaskId, Slot>, run: seq<Signal>): map<TaskId, Slot>
    decreases |run|
  {
    if run == [] then hosted else HostsAfter(Hosts(hosted, run[0]), run[1..])
  }

  predicate ArrivesFor(s: Signal, id: TaskId) {
    s.Arriving? && s.e.target.Some? && s.e.target.value.id == id
  }

  /** The events for a task in a run, and those of them that are accepted. */
  function Arrivals(run: seq<Signal>, id: TaskId): nat
    decreases |run|
  {
    if run == [] then 0 else (if ArrivesFor(run[0], id) then 1 else 0) + Arrivals(run[1..], id)
  }

  function Acceptances(hosted: map<TaskId, Slot>, run: seq<Signal>, id: TaskId): nat
    decreases |run|
  {
    if run == [] then 0
    else (if ArrivesFor(run[0], id) && Accepts(hosted, run[0].e) then 1 else 0) + Acceptances(Hosts(hosted, run[0]), run[1..], id)
  }

  /** Whatever else happens, a hosted task takes as many events as it has units left, and then no more. */
  lemma {:induction false} UnitsRunOut(hosted: map<TaskId, Slot>, run: seq<Signal>, id: TaskId)
    requires id in hosted
    ensures var n, u := Arrivals(run, id), hosted[id].units;
      && Acceptances(hosted, run, id) == (if n < u then n else u)
      && id in HostsAfter(hosted, run) && HostsAfter(hosted, run)[id].units == u - Acceptances(hosted, run, id)
    decreases |run|
  {
    if run != [] { UnitsRunOut(Hosts(hosted, run[0]), run[1..], id); }
  }

  // ---- Which monitor an event is queued with ----

  /** The i-th signal tells the monitor of the task, and no later one does. */
  ghost predicate LastTold(run: seq<Signal>, id: TaskId, i: nat, m: Bytes) {
    && i < |run| && run[i] == Monitored(id, m)
    && forall j, w :: i < j < |run| ==> run[j] != Monitored(id, w)
  }

  ghost predicate NeverTold(run: seq<Signal>, id: TaskId) {
    forall j, w :: 0 <= j < |run| ==> run[j] != Monitored(id, w)
  }

  lemma OneSignal(hosted: map<TaskId, Slot>, s: Signal, id: TaskId)
    requires id in hosted
    ensures id in Hosts(hosted, s)
    ensures Hosts(hosted, s)[id].monitor == if s.Monitored? && s.id == id then s.monitor else hosted[id].monitor
  {
  }

  lemma {:induction false} KeepsMonitor(hosted: map<TaskId, Slot>, run: seq<Signal>, id: TaskId)
    requires id in hosted && NeverTold(run, id)
    ensures id in HostsAfter(hosted, run) && HostsAfter(hosted, run)[id].monitor == hosted[id].monitor
    decreases |run|
  {
    if run != [] {
      OneSignal(hosted, run[0], id);
      assert run[0].Monitored? ==> run[0] != Monitored(id, run[0].monitor);
      assert forall j :: 0 <= j < |run[1..]| ==> run[1..][j] == run[j + 1];
      KeepsMonitor(Hosts(hosted, run[0]), run[1..], id);
    }
  }

  /** A hosted task has the monitor it was last told of, or its first one when it was told of none. */
  lemma {:induction false} MonitorIsLast(hosted: map<TaskId, Slot>, run: seq<Signal>, id: TaskId)
    requires id in hosted
    ensures id in HostsAfter(hosted, run)
    ensures forall i: nat, m :: LastTold(run, id, i, m) ==> HostsAfter(hosted, run)[id].monitor == m
    ensures NeverTold(run, id) ==> HostsAfter(hosted, run)[id].monitor == hosted[id].monitor
    decreases |run|
  {
    if NeverTold(run, id) { KeepsMonitor(hosted, run, id); }
    if run != [] {
      var next, rest := Hosts(hosted, run[0]), run[1..];
      OneSignal(hosted, run[0], id);
      hide Hosts;
      MonitorIsLast(next, rest, id);
      forall i: nat, m | LastTold(run, id, i, m) ensures HostsAfter(hosted, run)[id].monitor == m {
        if i == 0 {
          forall j, w | 0 <= j < |rest| ensures rest[j] != Monitored(id, w) { assert rest[j] == run[j + 1]; }
        } else {
          assert LastTold(rest, id, i - 1, m) by {
            forall j, w | i - 1 < j < |rest| ensures rest[j] != Monitored(id, w) { assert rest[j] == run[j + 1]; }
          }
        }
      }
    }
  }

  /** A task that is not hosted becomes so by the first request to host it, with the monitor given there
      and all units, whatever was said of it before. */
  lemma {:induction false} HostedFirst(hosted: map<TaskId, Slot>, run: seq<Signal>, id: TaskId, i: nat)
    requires id !in hosted && i <= |run| && forall j :: 0 <= j < i ==> !(run[j].Hosting? && run[j].t.id == id)
    ensures id !in HostsAfter(hosted, run[..i])
    ensures i < |run| && run[i].Hosting? && run[i].t.id == id ==>
      var h := Hosts(HostsAfter(hosted, run[..i]), run[i]);
      && HostsAfter(hosted, run) == HostsAfter(h, run[i + 1..])
      && id in h && h[id].monitor == run[i].t.monitor && h[id].units == 1000
    decreases |run|
  {
    if i > 0 {
      var rest := run[1..];
      assert forall j :: 0 <= j < |rest| ==> rest[j] == run[j + 1];
      assert run[..i][1..] == rest[..i - 1] && run[..i][0] == run[0];
      if i < |run| { assert rest[i..] == run[i + 1..] && rest[i - 1] == run[i]; }
      HostedFirst(Hosts(hosted, run[0]), rest, id, i - 1);
    }
  }

  /** An event enters the queue with the monitor and otherwise as it came. */
  lemma EnteredAs(e: Event, monitor: Bytes)
    requires e.target.Some?
    ensures var f := Entered(e, monitor);
      && f.target.Some? && f.target.value.monitor == monitor
      && f.target.value.id == e.target.value.id && f.target.value.passId == e.target.value.passId
      && f.data == e.data && f.checkpoint == e.checkpoint && f.nonce == e.nonce && f.targetString == e.targetString
      && f.origin == e.origin && f.previous == e.previous
  {
  }

  // ---- Lineage over whole runs ----

  /** One hop of a process: the event x runs, its output travels, and arrives as y. */
  ghost predicate Hop(x: Event, y: Event) {
    x.target.Some? && exists r: Reply, monitor: Bytes :: y == Entered(FromPb(ToPb(Output(x, r))), monitor)
  }

  ghost predicate HopAt(es: seq<Event>, i: int)
    requires 0 < i < |es|
  {
    Hop(es[i - 1], es[i])
  }

  /** The events a process runs, in order, from its start event on. */
  ghost predicate Process(es: seq<Event>) {
    && es != [] && es[0].target.Some? && es[0].origin == None && es[0].previous == None
    && forall i :: 0 < i < |es| ==> HopAt(es, i)
  }

  /** The latest checkpoint event among the first i + 1, or the start event. */
  function Latest(es: seq<Event>, i: nat): (k: nat)
    requires i < |es|
    ensures k <= i && (k == 0 || es[k].checkpoint) && forall j :: k < j <= i ==> !es[j].checkpoint
  {
    if i == 0 || es[i].checkpoint then i else Latest(es, i - 1)
  }

  /** The checkpoint event before the latest one, or the start event. */
  function BeforeLatest(es: seq<Event>, i: nat): (k: nat)
    requires i < |es|
    ensures k <= Latest(es, i) && (Latest(es, i) > 0 ==> k < Latest(es, i))
  {
    var l := Latest(es, i);
    if l == 0 then 0 else Latest(es, l - 1)
  }

  ghost predicate Lineage(es: seq<Event>, i: nat)
    requires 0 < i < |es|
  {
    && es[i].target.Some? && es[i].nonce == es[0].nonce
    && es[i].origin.Some? && Core(es[i].origin.value) == Core(es[Latest(es, i - 1)])
    && es[i].previous.Some? && Core(es[i].previous.value) == Core(es[BeforeLatest(es, i - 1)])
  }

  lemma EncodingKeepsCore(e: Event)
    requires e.target.Some?
    ensures Core(FromPb(ToPb(e))) == Core(e)
  {
    EncodingRoundTrip(e);
  }

  /** The event that what x sends descends from, and the checkpoint before that. */
  function OriginOf(x: Event): Event {
    if x.origin.None? || x.checkpoint then x else x.origin.value
  }

  function PreviousOf(x: Event): Event {
    if x.previous.None? || x.checkpoint then (if x.origin.None? then x else x.origin.value) else x.previous.value
  }

  /** y names as its ancestors the events that x, which sent it, computed. */
  ghost predicate Descends(x: Event, y: Event) {
    && y.target.Some? && y.nonce == OriginOf(x).nonce
    && y.origin.Some? && Core(y.origin.value) == Core(OriginOf(x))
    && y.previous.Some? && Core(y.previous.value) == Core(PreviousOf(x))
  }

  lemma OldEventCores(x: Event)
    requires x.target.Some?
    requires (x.origin.Some? ==> x.origin.value.target.Some?) && (x.previous.Some? ==> x.previous.value.target.Some?)
    ensures Core(OldEvent(x)) == Core(OriginOf(x)) && Core(OldEventPre(x)) == Core(PreviousOf(x))
    ensures OldEvent(x).target.Some? && OldEventPre(x).target.Some?
  {
    hide ToPb, FromPb;
    EncodingKeepsCore(x);
    if x.origin.Some? {
      EncodingKeepsCore(x.origin.value);
      EncodingKeepsCore(x.origin.value.(origin := None));
    }
    if x.previous.Some? {
      EncodingKeepsCore(x.previous.value);
      EncodingKeepsCore(x.previous.value.(origin := None));
    }
    TargetOfCore(OldEvent(x), OriginOf(x));
    TargetOfCore(OldEventPre(x), PreviousOf(x));
  }

  lemma TargetOfCore(e: Event, f: Event)
    requires Core(e) == Core(f)
    ensures e.target == f.target && e.nonce == f.nonce
  {
    assert Core(e).target == e.target && Core(e).nonce == e.nonce;
  }

  lemma HopDescends(x: Event, y: Event)
    requires Hop(x, y)
    requires (x.origin.Some? ==> x.origin.value.target.Some?) && (x.previous.Some? ==> x.previous.value.target.Some?)
    ensures Descends(x, y)
  {
    var r: Reply, monitor: Bytes :| y == Entered(FromPb(ToPb(Output(x, r))), monitor);
    var out := Output(x, r);
    hide OldEvent, OldEventPre, OriginOf, PreviousOf;
    EncodingRoundTrip(out);
    OldEventCores(x);
    TargetOfCore(OldEvent(x), OriginOf(x));
    assert Core(Pruned(out.origin.value, false)) == Core(out.origin.value);
    assert Core(Pruned(out.previous.value, false)) == Core(out.previous.value);
  }

  lemma LineageStep(es: seq<Event>, i: nat)
    requires 1 < i < |es| && Lineage(es, i - 1) && Descends(es[i - 1], es[i])
    requires es[Latest(es, i - 2)].nonce == es[0].nonce
    ensures Lineage(es, i)
  {
    var l := Latest(es, i - 1);
    assert es[i - 1].checkpoint ==> l == i - 1 && BeforeLatest(es, i - 1) == Latest(es, i - 2);
    assert !es[i - 1].checkpoint ==> l == Latest(es, i - 2) && BeforeLatest(es, i - 1) == BeforeLatest(es, i - 2);
    assert es[i - 1].origin.value.nonce == Core(es[i - 1].origin.value).nonce;
  }

  /** In every process, whatever its checkpoint flags, ancestors and nonces are the right ones. */
  lemma {:induction false} LineageHolds(es: seq<Event>, i: nat)
    requires Process(es) && i < |es|
    ensures es[i].target.Some? && es[i].nonce == es[0].nonce && (i > 0 ==> Lineage(es, i))
    decreases i
  {
    if i == 1 {
      assert HopAt(es, i);
      HopDescends(es[0], es[1]);
    } else if i > 1 {
      LineageHolds(es, i - 1);
      var l, b := Latest(es, i - 2), BeforeLatest(es, i - 2);
      LineageHolds(es, l);
      LineageHolds(es, b);
      assert Core(es[i - 1].origin.value).target == es[l].target && Core(es[i - 1].previous.value).target == es[b].target;
      assert HopAt(es, i);
      hide *;
      HopDescends(es[i - 1], es[i]);
      LineageStep(es, i);
      LineageNonce(es, i);
    }
  }

  lemma LineageNonce(es: seq<Event>, i: nat)
    requires 0 < i < |es| && Lineage(es, i)
    ensures es[i].target.Some? && es[i].nonce == es[0].nonce
  {
  }
}

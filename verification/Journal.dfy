/**
 * The monitor's journal of checkpoint events (src/TaskMonitor.py) and the requests that fill and
 * clear it (src/communications/TaskService.py, src/plugboard.py).
 */
module Journal {
  import opened Metric
  import opened Events
  import opened Wrappers

  /** A process and the peer that runs it. */
  datatype Owner = Owner(process: TaskId, peer: Bytes)

  /** Journal keys: the task an event descends from; None stands for a start event's empty key. */
  type Key = Option<TaskId>

  type Log = map<Key, Event>

  /** The process part of a task id: its last two bytes cleared. */
  function ProcessOf(t: TaskId): TaskId {
    t.(task := [0, 0])
  }

  function KeyOf(origin: Option<Event>): Key
    requires origin.Some? ==> origin.value.target.Some?
  {
    if origin.None? then None else Some(origin.value.target.value.id)
  }

  /** Events are equal, as dictionary keys, when their target and nonce are. */
  datatype EventKey = EventKey(target: TaskId, nonce: int)

  function AsKey(e: Event): EventKey
    requires e.target.Some?
  {
    EventKey(e.target.value.id, e.nonce)
  }

  /** Two tasks share a journal exactly when they have user and process in common. */
  lemma ProcessesApart(a: TaskId, b: TaskId)
    ensures ProcessOf(a) == ProcessOf(b) <==> a.user == b.user && a.process == b.process
    ensures ProcessOf(a).task == [0, 0]
  {
  }

  /** Two events share an entry of the reverse table exactly when they are for the same task and have the
      same nonce. */
  lemma KeysApart(a: Event, b: Event)
    requires a.target.Some? && b.target.Some?
    ensures AsKey(a) == AsKey(b) <==> a.target.value.id == b.target.value.id && a.nonce == b.nonce
  {
  }

  class MonitorService {
    var table: map<Owner, Log>
    var reverse: map<Owner, map<EventKey, Key>>

    ghost predicate Valid()
      reads this
    {
      table.Keys == reverse.Keys
    }

    constructor ()
      ensures Valid() && table == map[]
    {
      table, reverse := map[], map[];
    }

    method AddProcess(process: TaskId, peer: Bytes)
      requires Valid()
      modifies this
      ensures Valid()
      ensures var key := Owner(process, peer);
        && table == (if key in old(table) then old(table) else old(table)[key := map[]])
        && reverse == if key in old(table) then old(reverse) else old(reverse)[key := map[]]
    {
      var key := Owner(process, peer);
      if key in table { return; }
      table := table[key := map[]];
      reverse := reverse[key := map[]];
    }

    /** False stands for the ValueError of an unknown process and peer. */
    method AddCheckpoint(peer: Bytes, origin: Option<Event>, recent: Event) returns (ok: bool)
      requires Valid() && recent.target.Some? && (origin.Some? ==> origin.value.target.Some?)
      modifies this
      ensures Valid()
      ensures var key := Owner(ProcessOf(recent.target.value.id), peer);
        && ok == (key in old(table))
        && table == (if ok then old(table)[key := old(table)[key][KeyOf(origin) := recent]] else old(table))
        && reverse == if ok then old(reverse)[key := old(reverse)[key][AsKey(recent) := KeyOf(origin)]] else old(reverse)
    {
      var key := Owner(ProcessOf(recent.target.value.id), peer);
      if key !in table { return false; }
      var originTarget := KeyOf(origin);
      table := table[key := table[key][originTarget := recent]];
      reverse := reverse[key := reverse[key][AsKey(recent) := originTarget]];
      return true;
    }

    /** The entry is found by the origin's task, or by the event itself in the reverse table. */
    method RemoveCheckpoint(peer: Bytes, origin: Option<Event>, recent: Event) returns (found: bool)
      requires Valid() && recent.target.Some? && (origin.Some? ==> origin.value.target.Some?)
      modifies this
      ensures Valid()
      ensures var key := Owner(ProcessOf(recent.target.value.id), peer);
        && table == (if key in old(table) then old(table)[key := old(table)[key] - {KeyOf(origin)}] else old(table))
        && reverse == (if key in old(table) then old(reverse)[key := old(reverse)[key] - {AsKey(recent)}] else old(reverse))
        && found == (key in old(table) && (KeyOf(origin) in old(table)[key] || AsKey(recent) in old(reverse)[key]))
    {
      var key := Owner(ProcessOf(recent.target.value.id), peer);
      if key !in table { return false; }
      var originTarget := KeyOf(origin);
      assert originTarget !in table[key] ==> table[key] - {originTarget} == table[key];
      assert AsKey(recent) !in reverse[key] ==> reverse[key] - {AsKey(recent)} == reverse[key];
      if originTarget !in table[key] && AsKey(recent) !in reverse[key] { return false; }
      if originTarget in table[key] {
        table := table[key := table[key] - {originTarget}];
      }
      if AsKey(recent) in reverse[key] {
        reverse := reverse[key := reverse[key] - {AsKey(recent)}];
      }
      return true;
    }

    /** recall_most_recent_event. */
    function Recall(peer: Bytes, process: TaskId, t: TaskId): Option<Event>
      reads this
    {
      var key := Owner(process, peer);
      if key in table && Some(t) in table[key] then Some(table[key][Some(t)]) else None
    }

    /**
     * SendEvent's requests for an event e on its way to a task this monitor watches, when its
     * owner runs all tasks of the process: the event is filed under the task it descends from,
     * and the entry of the checkpoint before that is cleared.
     */
    method Checkpoint(peer: Bytes, e: Event)
      requires Valid() && Watched(table, peer, e)
      modifies this
      ensures Valid()
      ensures var key := Owner(ProcessOf(e.target.value.id), peer);
        table == old(table)[key := Filed(old(table)[key], e)]
    {
      if !e.checkpoint { return; }
      var _ := AddCheckpoint(peer, e.origin, e);
      if e.previous.None? || e.origin.None? { return; }
      var monitorPeer := e.previous.value.target.value.monitor;
      if monitorPeer == [] { return; }
      var _ := RemoveCheckpoint(peer, e.previous, e.origin.value);
    }
  }

  /** e is addressed, and so are its ancestors. */
  ghost predicate Addressed(e: Event) {
    && e.target.Some?
    && (e.origin.Some? ==> e.origin.value.target.Some?)
    && (e.previous.Some? ==> e.previous.value.target.Some?)
  }

  /** e and its origin are events of one process that the monitor knows. */
  ghost predicate Watched(table: map<Owner, Log>, peer: Bytes, e: Event) {
    && Addressed(e) && Owner(ProcessOf(e.target.value.id), peer) in table
    && (e.origin.Some? ==> ProcessOf(e.origin.value.target.value.id) == ProcessOf(e.target.value.id))
  }

  /** The journal of a process after event e has been announced. */
  function Filed(log: Log, e: Event): Log
    requires Addressed(e)
  {
    if !e.checkpoint then log
    else
      var added := log[KeyOf(e.origin) := e];
      if e.previous.Some? && e.origin.Some? && e.previous.value.target.value.monitor != []
      then added - {KeyOf(e.previous)} else added
  }

  /** An event is filed only if it is a checkpoint, under the task it descends from; the entry of the
      checkpoint before that is cleared only if that had a monitor. */
  lemma FiledWhere(log: Log, e: Event, k: Key)
    requires Addressed(e)
    ensures !e.checkpoint ==> Filed(log, e) == log
    ensures e.checkpoint ==>
      var here := if e.origin.None? then k == None else k == Some(e.origin.value.target.value.id);
      var cleared := e.origin.Some? && e.previous.Some? && e.previous.value.target.value.monitor != [] && k == Some(e.previous.value.target.value.id);
      && (k in Filed(log, e) <==> !cleared && (here || k in log))
      && (k in Filed(log, e) ==> Filed(log, e)[k] == if here then e else log[k])
  {
  }

  // ---- The journal of a whole run ----

  /**
   * A process run by one owner with one monitor m: ws are its events as they are announced, es
   * as they are run, with the monitor of their target filled in; the start event is a checkpoint.
   */
  ghost predicate Watch(ws: seq<Event>, es: seq<Event>, m: Bytes) {
    && |ws| == |es| && Process(es) && es[0].checkpoint && m != []
    && forall i :: 0 <= i < |ws| ==> ws[i].target.Some? && es[i] == Entered(ws[i], m)
  }

  ghost function TaskOf(es: seq<Event>, i: nat): TaskId
    requires i < |es| && es[i].target.Some?
  {
    es[i].target.value.id
  }

  lemma EventsAddressed(ws: seq<Event>, es: seq<Event>, m: Bytes, i: nat)
    requires Watch(ws, es, m) && i < |ws|
    ensures |es| == |ws| && Addressed(ws[i]) && es[i].target.Some? && es[i].target.value.monitor == m
    ensures ws[i].checkpoint == es[i].checkpoint && ws[i].origin == es[i].origin && ws[i].previous == es[i].previous
  {
    LineageHolds(es, i);
    if i > 0 {
      assert es[Latest(es, i - 1)].target.Some? && es[BeforeLatest(es, i - 1)].target.Some?;
      assert Core(es[i].origin.value).target == es[Latest(es, i - 1)].target;
      assert Core(es[i].previous.value).target == es[BeforeLatest(es, i - 1)].target;
    }
  }

  /** The journal after the first n events have been announced. */
  ghost function LogOf(ws: seq<Event>, es: seq<Event>, m: Bytes, n: nat): Log
    requires Watch(ws, es, m) && n <= |ws|
  {
    if n == 0 then map[]
    else
      EventsAddressed(ws, es, m, n - 1);
      Filed(LogOf(ws, es, m, n - 1), ws[n - 1])
  }

  /** Checkpoint event i, i > 0, is filed under the task of its origin, and clears its predecessor's entry. */
  lemma FiledCheckpoint(ws: seq<Event>, es: seq<Event>, m: Bytes, i: nat, log: Log)
    requires Watch(ws, es, m) && 0 < i < |ws| && es[i].checkpoint
    ensures Addressed(ws[i]) && es[Latest(es, i - 1)].target.Some? && es[BeforeLatest(es, i - 1)].target.Some?
    ensures Filed(log, ws[i]) == log[Some(TaskOf(es, Latest(es, i - 1))) := ws[i]] - {Some(TaskOf(es, BeforeLatest(es, i - 1)))}
  {
    var a, b := Latest(es, i - 1), BeforeLatest(es, i - 1);
    EventsAddressed(ws, es, m, i);
    EventsAddressed(ws, es, m, a);
    EventsAddressed(ws, es, m, b);
    LineageHolds(es, i);
    assert Core(es[i].origin.value).target == es[a].target;
    assert Core(es[i].previous.value).target == es[b].target;
  }

  lemma HopInProcess(x: Event, y: Event)
    requires Hop(x, y)
    ensures y.target.Some? && ProcessOf(y.target.value.id) == ProcessOf(x.target.value.id)
  {
    var r: Reply, monitor: Bytes :| y == Entered(FromPb(ToPb(Output(x, r))), monitor);
    hide OldEvent, OldEventPre;
    EncodingRoundTrip(Output(x, r));
  }

  /** All events of a process belong to one journal. */
  lemma {:induction false} OneProcess(es: seq<Event>, i: nat)
    requires Process(es) && i < |es|
    ensures es[i].target.Some? && ProcessOf(TaskOf(es, i)) == ProcessOf(TaskOf(es, 0))
  {
    if i > 0 {
      OneProcess(es, i - 1);
      assert HopAt(es, i);
      HopInProcess(es[i - 1], es[i]);
    }
  }

  lemma EventWatched(ws: seq<Event>, es: seq<Event>, m: Bytes, i: nat, table: map<Owner, Log>, peer: Bytes)
    requires Watch(ws, es, m) && i < |ws| && Owner(ProcessOf(TaskOf(es, 0)), peer) in table
    ensures Watched(table, peer, ws[i]) && ProcessOf(ws[i].target.value.id) == ProcessOf(TaskOf(es, 0))
  {
    EventsAddressed(ws, es, m, i);
    OneProcess(es, i);
    assert ws[i].target.value.id == TaskOf(es, i);
    if i > 0 {
      LineageHolds(es, i);
      var a := Latest(es, i - 1);
      OneProcess(es, a);
      assert Core(es[i].origin.value).target == es[a].target;
    }
  }

  /** A monitor that is told of every event of a process, in order, holds the journal of the run. */
  method WatchProcess(monitor: MonitorService, peer: Bytes, ws: seq<Event>, ghost es: seq<Event>, ghost m: Bytes)
    requires monitor.Valid() && Watch(ws, es, m) && ws[0].target.Some?
    requires Owner(ProcessOf(ws[0].target.value.id), peer) !in monitor.table
    modifies monitor
    ensures monitor.Valid()
    ensures monitor.table == old(monitor.table)[Owner(ProcessOf(ws[0].target.value.id), peer) := LogOf(ws, es, m, |ws|)]
  {
    var process := ProcessOf(ws[0].target.value.id);
    FirstWatched(ws, es, m);
    NothingLogged(ws, es, m);
    monitor.AddProcess(process, peer);
    ghost var before, key := monitor.table, Owner(process, peer);
    hide *;
    for i := 0 to |ws|
      invariant monitor.Valid() && key in before && monitor.table == before[key := LogOf(ws, es, m, i)]
    {
      EventWatched(ws, es, m, i, monitor.table, peer);
      LogStep(ws, es, m, i + 1);
      monitor.Checkpoint(peer, ws[i]);
    }
    assert before == old(monitor.table)[key := map[]];
  }

  lemma FirstWatched(ws: seq<Event>, es: seq<Event>, m: Bytes)
    requires Watch(ws, es, m)
    ensures |ws| == |es| > 0 && ws[0].target.Some? && es[0].target.Some? && TaskOf(es, 0) == ws[0].target.value.id
  {
  }

  lemma NothingLogged(ws: seq<Event>, es: seq<Event>, m: Bytes)
    requires Watch(ws, es, m)
    ensures LogOf(ws, es, m, 0) == map[]
  {
  }

  /** A journal with the start entry, and event e filed under task a unless that is task b. */
  function Entries(start: Event, e: Event, a: TaskId, b: TaskId): Log {
    if a == b then map[None := start] else map[None := start, Some(a) := e]
  }

  /** The journal a run leaves: the start entry, and at most the latest checkpoint. */
  ghost function Expected(ws: seq<Event>, es: seq<Event>, m: Bytes, n: nat): Log
    requires Watch(ws, es, m) && 0 < n <= |ws|
  {
    var l := Latest(es, n - 1);
    if l == 0 then map[None := ws[0]]
    else
      var a, b := Latest(es, l - 1), BeforeLatest(es, l - 1);
      EventsAddressed(ws, es, m, a);
      EventsAddressed(ws, es, m, b);
      Entries(ws[0], ws[l], TaskOf(es, a), TaskOf(es, b))
  }

  lemma ReplaceEntry(log: Log, start: Event, last: Event, c: TaskId, e: Event, a: TaskId, b: TaskId)
    requires log == map[None := start] || log == Entries(start, last, b, c)
    ensures log[Some(a) := e] - {Some(b)} == Entries(start, e, a, b)
  {
  }

  lemma LatestBeforeCheckpoint(es: seq<Event>, n: nat)
    requires 1 < n <= |es| && es[n - 1].checkpoint
    ensures Latest(es, n - 1) == n - 1
    ensures var a := Latest(es, n - 2); BeforeLatest(es, n - 2) == if a == 0 then 0 else Latest(es, a - 1)
  {
  }

  lemma ExpectedStep(ws: seq<Event>, es: seq<Event>, m: Bytes, n: nat)
    requires Watch(ws, es, m) && 1 < n <= |ws| && es[n - 1].checkpoint
    requires es[Latest(es, n - 2)].target.Some? && es[BeforeLatest(es, n - 2)].target.Some?
    ensures Expected(ws, es, m, n) ==
      Expected(ws, es, m, n - 1)[Some(TaskOf(es, Latest(es, n - 2))) := ws[n - 1]] - {Some(TaskOf(es, BeforeLatest(es, n - 2)))}
  {
    hide *;
    EventsAddressed(ws, es, m, n - 1);
    var a, b := Latest(es, n - 2), BeforeLatest(es, n - 2);
    LatestBeforeCheckpoint(es, n);
    ExpectedAt(ws, es, m, n);
    ExpectedAt(ws, es, m, n - 1);
    EventsAddressed(ws, es, m, a);
    var c := if a == 0 then 0 else BeforeLatest(es, a - 1);
    EventsAddressed(ws, es, m, c);
    ReplaceEntry(Expected(ws, es, m, n - 1), ws[0], ws[a], TaskOf(es, c), ws[n - 1], TaskOf(es, a), TaskOf(es, b));
  }

  lemma ExpectedAt(ws: seq<Event>, es: seq<Event>, m: Bytes, n: nat)
    requires Watch(ws, es, m) && 0 < n <= |ws|
    ensures var l := Latest(es, n - 1);
      if l == 0 then Expected(ws, es, m, n) == map[None := ws[0]]
      else
        var a, b := Latest(es, l - 1), BeforeLatest(es, l - 1);
        es[a].target.Some? && es[b].target.Some? && Expected(ws, es, m, n) == Entries(ws[0], ws[l], TaskOf(es, a), TaskOf(es, b))
  {
    var l := Latest(es, n - 1);
    if l > 0 {
      EventsAddressed(ws, es, m, Latest(es, l - 1));
      EventsAddressed(ws, es, m, BeforeLatest(es, l - 1));
    }
  }

  lemma LogStep(ws: seq<Event>, es: seq<Event>, m: Bytes, n: nat)
    requires Watch(ws, es, m) && 0 < n <= |ws|
    ensures Addressed(ws[n - 1]) && LogOf(ws, es, m, n) == Filed(LogOf(ws, es, m, n - 1), ws[n - 1])
    ensures !es[n - 1].checkpoint ==> LogOf(ws, es, m, n) == LogOf(ws, es, m, n - 1)
  {
    EventsAddressed(ws, es, m, n - 1);
  }

  lemma LogOfStart(ws: seq<Event>, es: seq<Event>, m: Bytes)
    requires Watch(ws, es, m)
    ensures |ws| > 0 && LogOf(ws, es, m, 1) == Expected(ws, es, m, 1)
  {
    EventsAddressed(ws, es, m, 0);
    assert LogOf(ws, es, m, 0) == map[];
  }

  lemma {:induction false} LogIsExpected(ws: seq<Event>, es: seq<Event>, m: Bytes, n: nat)
    requires Watch(ws, es, m) && 0 < n <= |ws|
    ensures LogOf(ws, es, m, n) == Expected(ws, es, m, n)
  {
    assert |es| == |ws|;
    if n == 1 {
      LogOfStart(ws, es, m);
    } else if es[n - 1].checkpoint {
      hide *;
      LogIsExpected(ws, es, m, n - 1);
      LogStep(ws, es, m, n);
      FiledCheckpoint(ws, es, m, n - 1, Expected(ws, es, m, n - 1));
      ExpectedStep(ws, es, m, n);
    } else {
      LogIsExpected(ws, es, m, n - 1);
      LogStep(ws, es, m, n);
      hide LogOf, Watch;
    }
  }

  /** The events that owner-offline recovery replays: one recall per task of the process. */
  ghost function Replayed(log: Log, tasks: set<TaskId>): set<Event> {
    set t | t in tasks && Some(t) in log :: log[Some(t)]
  }

  /**
   * Recovery replays the latest checkpoint event, and nothing else, exactly when it is not the
   * start event and the two checkpoint events before it are for different tasks; otherwise it
   * replays nothing.
   */
  lemma RecoveryReplaysLatest(ws: seq<Event>, es: seq<Event>, m: Bytes, n: nat, tasks: set<TaskId>)
    requires Watch(ws, es, m) && 0 < n <= |ws|
    requires forall i :: 0 <= i < n ==> es[i].target.Some? && TaskOf(es, i) in tasks
    ensures var l := Latest(es, n - 1);
      Replayed(LogOf(ws, es, m, n), tasks) ==
        if l > 0 && TaskOf(es, Latest(es, l - 1)) != TaskOf(es, BeforeLatest(es, l - 1)) then {ws[l]} else {}
  {
    hide *;
    FirstWatched(ws, es, m);
    LogIsExpected(ws, es, m, n);
    ExpectedAt(ws, es, m, n);
    var l := Latest(es, n - 1);
    if l == 0 {
      ReplayNone(Expected(ws, es, m, n), ws[0], tasks);
    } else {
      EntriesOf(ws[0], ws[l], TaskOf(es, Latest(es, l - 1)), TaskOf(es, BeforeLatest(es, l - 1)));
      ReplayOne(Expected(ws, es, m, n), ws[0], ws[l], TaskOf(es, Latest(es, l - 1)), tasks);
    }
  }

  /** process_owner_offline for all tasks of a process: the recalled events are those sent out again. */
  method RecallAll(monitor: MonitorService, peer: Bytes, process: TaskId, tasks: set<TaskId>) returns (events: set<Event>)
    requires forall t :: t in tasks ==> ProcessOf(t) == process
    ensures var key := Owner(process, peer);
      events == if key in monitor.table then Replayed(monitor.table[key], tasks) else {}
  {
    events := {};
    var rest := tasks;
    ghost var key := Owner(process, peer);
    while rest != {}
      invariant rest <= tasks
      invariant events == if key in monitor.table then Replayed(monitor.table[key], tasks - rest) else {}
    {
      var t :| t in rest;
      var recalled := monitor.Recall(peer, ProcessOf(t), t);
      if recalled.Some? { events := events + {recalled.value}; }
      if key in monitor.table { ReplayedGrows(monitor.table[key], tasks - rest, t); }
      assert tasks - (rest - {t}) == tasks - rest + {t};
      rest := rest - {t};
    }
    assert tasks - rest == tasks;
  }

  lemma ReplayedGrows(log: Log, done: set<TaskId>, t: TaskId)
    ensures Replayed(log, done + {t}) == Replayed(log, done) + if Some(t) in log then {log[Some(t)]} else {}
  {
  }

  /** A monitor that watches a process and loses its owner sends out the latest checkpoint event,
      exactly when the journal still has it. */
  method WatchAndRecover(monitor: MonitorService, peer: Bytes, ws: seq<Event>, ghost es: seq<Event>, ghost m: Bytes, tasks: set<TaskId>)
    returns (events: set<Event>)
    requires monitor.Valid() && Watch(ws, es, m) && ws[0].target.Some?
    requires Owner(ProcessOf(ws[0].target.value.id), peer) !in monitor.table
    requires forall t :: t in tasks ==> ProcessOf(t) == ProcessOf(ws[0].target.value.id)
    requires forall i :: 0 <= i < |es| ==> es[i].target.Some? && TaskOf(es, i) in tasks
    modifies monitor
    ensures monitor.Valid() && var l := Latest(es, |es| - 1);
      events == if l > 0 && TaskOf(es, Latest(es, l - 1)) != TaskOf(es, BeforeLatest(es, l - 1)) then {ws[l]} else {}
  {
    assert |ws| == |es| > 0;
    hide LogOf, Filed, Watch, Replayed;
    WatchProcess(monitor, peer, ws, es, m);
    RecoveryReplaysLatest(ws, es, m, |ws|, tasks);
    events := RecallAll(monitor, peer, ProcessOf(ws[0].target.value.id), tasks);
  }

  lemma ReplayNone(log: Log, start: Event, tasks: set<TaskId>)
    requires log == map[None := start]
    ensures Replayed(log, tasks) == {}
  {
  }

  lemma EntriesOf(start: Event, e: Event, a: TaskId, b: TaskId)
    ensures Entries(start, e, a, b) == if a == b then map[None := start] else map[None := start, Some(a) := e]
  {
  }

  lemma ReplayOne(log: Log, start: Event, e: Event, a: TaskId, tasks: set<TaskId>)
    requires a in tasks
    ensures log == map[None := start] ==> Replayed(log, tasks) == {}
    ensures log == map[None := start, Some(a) := e] ==> Replayed(log, tasks) == {e}
  {
    if log == map[None := start, Some(a) := e] {
      assert log[Some(a)] in Replayed(log, tasks);
    }
  }

  /** In particular the first checkpoint after the start is filed and cleared at once. */
  lemma FirstCheckpointIsLost(ws: seq<Event>, es: seq<Event>, m: Bytes, n: nat)
    requires Watch(ws, es, m) && 0 < n <= |ws| && Latest(es, n - 1) > 0 && Latest(es, Latest(es, n - 1) - 1) == 0
    ensures LogOf(ws, es, m, n) == map[None := ws[0]]
  {
    LogIsExpected(ws, es, m, n);
  }

  // ---- A run ----

  const MONITOR: Bytes := [9, 9, 9, 9, 9, 9, 9, 9]

  function Task(n: Byte): TaskId {
    TaskId([1, 2, 3, 4], [0, 1], [0, n])
  }

  function CheckpointTo(n: Byte): Reply {
    Reply([0, n], false, [], true, "")
  }

  /** The event the task of e sends for a reply, as it arrives. */
  function Sent(e: Event, r: Reply): Event
    requires e.target.Some?
  {
    FromPb(ToPb(Output(e, r)))
  }

  const START: Event := Event(Some(Target(Task(0), false, [])), [], true, 7, "", None, None)
  const RUN0: Event := Entered(START, MONITOR)
  const SENT1: Event := Sent(RUN0, CheckpointTo(1))

  lemma SentTo(e: Event, r: Reply)
    requires e.target.Some?
    ensures var y := Sent(e, r);
      && y.target.Some? && y.target.value.id == TaskId(e.target.value.id.user, e.target.value.id.process, r.task)
      && y.checkpoint == r.checkpoint && Hop(e, Entered(y, MONITOR))
  {
    hide OldEvent, OldEventPre;
    EncodingRoundTrip(Output(e, r));
    assert Entered(Sent(e, r), MONITOR) == Entered(FromPb(ToPb(Output(e, r))), MONITOR);
  }

  /** A start event and two checkpoint replies, to different tasks: as announced, and as run. */
  ghost function Announced(): seq<Event> {
    SentTo(RUN0, CheckpointTo(1));
    [START, SENT1, Sent(Entered(SENT1, MONITOR), CheckpointTo(2))]
  }

  ghost function Ran(): seq<Event> {
    SentTo(RUN0, CheckpointTo(1));
    SentTo(Entered(SENT1, MONITOR), CheckpointTo(2));
    [RUN0, Entered(SENT1, MONITOR), Entered(Announced()[2], MONITOR)]
  }

  lemma RunIsWatched()
    ensures Watch(Announced(), Ran(), MONITOR) && |Ran()| == 3
    ensures forall i :: 0 <= i < 3 ==> Ran()[i].checkpoint && Ran()[i].target.Some? && TaskOf(Ran(), i) == Task(i)
  {
    SentTo(RUN0, CheckpointTo(1));
    SentTo(Entered(SENT1, MONITOR), CheckpointTo(2));
    hide Sent, Hop, OldEvent, OldEventPre;
    var es := Ran();
    assert HopAt(es, 1) && HopAt(es, 2);
    assert Process(es);
    hide Process;
    assert forall i :: 0 <= i < 3 ==> es[i] == Entered(Announced()[i], MONITOR);
  }

  /** At that run the first checkpoint is lost, and the second one is what recovery replays. */
  lemma FirstLostSecondReplayed()
    ensures Watch(Announced(), Ran(), MONITOR)
    ensures var tasks := {Task(0), Task(1), Task(2)};
      && Replayed(LogOf(Announced(), Ran(), MONITOR, 2), tasks) == {}
      && Replayed(LogOf(Announced(), Ran(), MONITOR, 3), tasks) == {Announced()[2]}
  {
    RunIsWatched();
    var ws, es := Announced(), Ran();
    hide Announced, Ran, Watch, LogOf, Replayed;
    assert |ws| == |es| by { WatchLengths(ws, es, MONITOR); }
    assert Latest(es, 0) == 0 && Latest(es, 1) == 1 && Latest(es, 2) == 2;
    assert BeforeLatest(es, 0) == 0 && BeforeLatest(es, 1) == 0;
    var tasks := {Task(0), Task(1), Task(2)};
    forall i | 0 <= i < 3 ensures TaskOf(es, i) in tasks {}
    RecoveryReplaysLatest(ws, es, MONITOR, 2, tasks);
    RecoveryReplaysLatest(ws, es, MONITOR, 3, tasks);
  }

  lemma WatchLengths(ws: seq<Event>, es: seq<Event>, m: Bytes)
    requires Watch(ws, es, m)
    ensures |ws| == |es|
  {
  }
}

/**
 * Replicated files (src/core/File.py, src/communications/FileService.py): the owner executes
 * every request on its copy and forwards it to a monitor, which keeps a second copy.
 *
 * Requests name one file key and touch only that key's entries, so the model follows one file: a
 * replica is one manager's entry for the key together with its hosted file object.
 */
module Files {
  import opened Metric
  import opened Wrappers

  /** The bytes on disk, the file object's position when it is open, the handle the manager has
      given out (empty when the file is not in use), and the handle stored in the file object. */
  datatype File = File(contents: Bytes, cursor: Option<nat>, handle: Bytes, localId: Bytes)

  datatype Request =
    | Open(id: Bytes, process: Bytes, random: Bytes)
    | Read(id: Bytes, length: int)
    | Write(id: Bytes, data: Bytes)
    | Seek(id: Bytes, offset: nat, whence: int)
    | Close(id: Bytes)

  /** RAISED is an exception the RPC layer reports to the caller. */
  datatype Status = OK | NOT_FOUND | RAISED

  // ---- One file ----

  function Zeros(n: nat): Bytes { seq(n, i => 0) }

  /** Writing data at position p: overwriting, extending, filling a gap with zeros. */
  function Overwrite(c: Bytes, p: nat, data: Bytes): (r: Bytes)
    ensures data != [] ==> |r| == (if p + |data| < |c| then |c| else p + |data|) && r[p..p + |data|] == data
    ensures forall i :: 0 <= i < |c| && (i < p || p + |data| <= i) ==> i < |r| && r[i] == c[i]
    ensures data == [] ==> r == c
    ensures data != [] ==> forall i :: |c| <= i < p ==> r[i] == 0
  {
    if data == [] then c
    else if p + |data| < |c| then c[..p] + data + c[p + |data|..]
    else if p <= |c| then c[..p] + data
    else c + Zeros(p - |c|) + data
  }

  /** The bytes a read of length n returns at position p. */
  function Slice(c: Bytes, p: nat, n: int): (r: Bytes)
    requires n >= -1
    ensures |r| == if p >= |c| then 0 else if n == -1 || |c| - p < n then |c| - p else n
    ensures forall i :: 0 <= i < |r| ==> r[i] == c[p + i]
  {
    if p >= |c| then [] else if n == -1 || |c| - p < n then c[p..] else c[p..p + n]
  }

  /** The position a seek moves to, unless the mode is unknown. */
  function Position(f: File, offset: nat, whence: int): Option<nat>
    requires f.cursor.Some?
  {
    if whence == 0 then Some(offset)
    else if whence == 1 then Some(f.cursor.value + offset)
    else if whence == 2 then Some(|f.contents| + offset)
    else None
  }

  /** The handle a request is served under by the owner: an unused file opens under a new one. */
  function Grant(f: File, q: Request): Option<Bytes> {
    if f.handle == [] && q.id == [] then
      if q.Open? && |q.process| == 2 then Some(q.random + q.process) else None
    else if f.handle == q.id then Some(q.id)
    else None
  }

  /** A request executed under handle h on the file object: the file after it, the bytes read, and
      whether it went through. */
  function Perform(f: File, h: Bytes, q: Request): (File, Bytes, bool) {
    var g := f.(handle := h, localId := h);
    match q
    case Open(_, _, _) => (if g.cursor.None? then g.(cursor := Some(0)) else g, [], true)
    case Read(_, n) =>
      if g.cursor.None? || n < -1 then (g, [], false)
      else
        var out := Slice(g.contents, g.cursor.value, n);
        (g.(cursor := Some(g.cursor.value + |out|)), out, true)
    case Write(_, d) =>
      if g.cursor.None? then (g, [], false)
      else (g.(contents := Overwrite(g.contents, g.cursor.value, d), cursor := Some(g.cursor.value + |d|)), [], true)
    case Seek(_, o, w) =>
      if g.cursor.None? || Position(g, o, w).None? then (g, [], false) else (g.(cursor := Position(g, o, w)), [], true)
    case Close(_) =>
      if h == [] then (g, [], false) else (g.(handle := [], localId := [], cursor := None), [], true)
  }

  /** One hosted copy of the file. */
  class Replica {
    var contents: Bytes
    var cursor: Option<nat>
    var handle: Bytes
    var localId: Bytes

    ghost function State(): File
      reads this
    {
      File(contents, cursor, handle, localId)
    }

    /** host_file with create: a new file with the given bytes, not in use. */
    constructor (c: Bytes, id: Bytes)
      ensures State() == File(c, None, [], id)
    {
      contents, cursor, handle, localId := c, None, [], id;
    }

    /** fetch_file at the owner. */
    method FetchFile(q: Request) returns (ok: bool)
      modifies this`handle, this`localId
      ensures ok == Grant(old(State()), q).Some?
      ensures State() == if ok then old(State()).(handle := Grant(old(State()), q).value, localId := handle) else old(State())
    {
      var current := handle;
      if current == [] && q.id == [] {
        if !q.Open? || |q.process| != 2 { return false; }
        handle := q.random + q.process;
        localId := handle;
        return true;
      }
      if current == q.id {
        localId := current;
        return true;
      }
      return false;
    }

    /** fetch_file at a monitor, and for a direct access: the request's handle is taken over. */
    method FetchDirect(id: Bytes)
      modifies this`handle, this`localId
      ensures handle == id && localId == id
    {
      handle, localId := id, id;
    }

    /** HostedFile.open; opening an open file changes nothing. */
    method OpenObject()
      modifies this`cursor
      ensures cursor == if old(cursor).None? then Some(0) else old(cursor)
    {
      if cursor.Some? { return; }
      cursor := Some(0);
    }

    method ReadObject(n: int) returns (ok: bool, out: Bytes)
      modifies this`cursor
      ensures ok == (old(cursor).Some? && n >= -1)
      ensures if ok then out == Slice(contents, old(cursor).value, n) && cursor == Some(old(cursor).value + |out|)
              else out == [] && cursor == old(cursor)
    {
      if cursor.None? || n < -1 { return false, []; }
      out := Slice(contents, cursor.value, n);
      cursor := Some(cursor.value + |out|);
      return true, out;
    }

    method WriteObject(d: Bytes) returns (ok: bool)
      modifies this`contents, this`cursor
      ensures ok == old(cursor).Some?
      ensures if ok then contents == Overwrite(old(contents), old(cursor).value, d) && cursor == Some(old(cursor).value + |d|)
              else contents == old(contents) && cursor == old(cursor)
    {
      if cursor.None? { return false; }
      contents := Overwrite(contents, cursor.value, d);
      cursor := Some(cursor.value + |d|);
      return true;
    }

    method SeekObject(o: nat, w: int) returns (ok: bool)
      modifies this`cursor
      ensures ok == (old(cursor).Some? && Position(old(State()), o, w).Some?)
      ensures cursor == if ok then Position(old(State()), o, w) else old(cursor)
    {
      if cursor.None? { return false; }
      if w == 0 {
        cursor := Some(o);
      } else if w == 1 {
        cursor := Some(cursor.value + o);
      } else if w == 2 {
        cursor := Some(|contents| + o);
      } else {
        return false;
      }
      return true;
    }

    method CloseObject()
      modifies this`cursor
      ensures cursor == None
    {
      cursor := None;
    }

    /** close_file; false stands for its ValueErrors. */
    method CloseHandle(id: Bytes) returns (ok: bool)
      modifies this`handle, this`localId
      ensures ok == (old(handle) != [] && old(handle) == id)
      ensures State() == if ok then old(State()).(handle := [], localId := []) else old(State())
    {
      if handle == [] { return false; }
      if handle != id { return false; }
      handle, localId := [], [];
      return true;
    }

    /** A forwarded request at the monitor, under the handle in the owner's file object. */
    method Follow(h: Bytes, q: Request)
      modifies this
      ensures State() == Perform(old(State()), h, q).0
    {
      FetchDirect(h);
      match q
      case Open(_, _, _) => OpenObject();
      case Read(_, n) => var _, _ := ReadObject(n);
      case Write(_, d) => var _ := WriteObject(d);
      case Seek(_, o, w) => var _ := SeekObject(o, w);
      case Close(_) =>
        var ok := CloseHandle(h);
        if ok { CloseObject(); }
    }

    /** fetch_contents: read to the end from wherever the file object is, and close it. */
    method FetchContents() returns (out: Bytes)
      modifies this`cursor
      ensures cursor == None
      ensures out == Shipped(old(State()))
    {
      OpenObject();
      var ok;
      ok, out := ReadObject(-1);
      CloseObject();
    }

    /** set_contents: truncate, write, close. */
    method SetContents(c: Bytes)
      modifies this`contents, this`cursor
      ensures contents == c && cursor == None
    {
      contents := [];
      cursor := None;
      OpenObject();
      var _ := WriteObject(c);
      CloseObject();
    }
  }

  /** The bytes fetch_contents ships. */
  function Shipped(f: File): Bytes {
    Slice(f.contents, if f.cursor.None? then 0 else f.cursor.value, -1)
  }

  // ---- Requests at the owner ----

  /** A request at the owner: the file after it, the reply, and the request as the monitor sees it. */
  function Serve(f: File, q: Request): (File, Status, Bytes) {
    match Grant(f, q)
    case None => (f, NOT_FOUND, [])
    case Some(h) =>
      var (g, out, ok) := Perform(f, h, q);
      if ok then (g, OK, if q.Open? then h else out) else (g, RAISED, [])
  }

  /** What the monitor's copy becomes: it follows the requests that went through. */
  function ServeMonitor(f: File, m: File, q: Request): File {
    if Grant(f, q).Some? && Serve(f, q).1 == OK then Perform(m, Grant(f, q).value, q).0 else m
  }

  /** OpenFile, ReadFile, WriteFile, SeekFile and CloseFile with a live monitor: the owner acts
      first and then forwards, except that a close is forwarded first. */
  method HandleRequest(p: Replica, m: Replica, q: Request) returns (status: Status, out: Bytes)
    requires p != m
    modifies p, m
    ensures (p.State(), status, out) == Serve(old(p.State()), q)
    ensures m.State() == ServeMonitor(old(p.State()), old(m.State()), q)
  {
    var ok := p.FetchFile(q);
    out := [];
    if !ok { return NOT_FOUND, []; }
    match q {
      case Open(_, _, _) =>
        p.OpenObject();
        m.Follow(p.localId, q);
        return OK, p.localId;
      case Read(_, n) =>
        ok, out := p.ReadObject(n);
      case Write(_, d) =>
        ok := p.WriteObject(d);
      case Seek(_, o, w) =>
        ok := p.SeekObject(o, w);
      case Close(_) =>
        m.Follow(p.localId, q);
        ok := p.CloseHandle(q.id);
        p.CloseObject();
        return OK, [];
    }
    if !ok { return RAISED, []; }
    m.Follow(p.localId, q);
    return OK, out;
  }

  /** Whatever the monitor's copy is: a request that does not go through leaves it alone; any other it
      executes for itself, under the handle the owner has then, or gives that back. */
  lemma MonitorFollows(f: File, m: File, q: Request)
    requires Sound(f)
    ensures Serve(f, q).1 != OK ==> ServeMonitor(f, m, q) == m
    ensures Serve(f, q).1 == OK ==> var w := ServeMonitor(f, m, q);
      && w.handle == w.localId == Serve(f, q).0.handle
      && w.contents == (if q.Write? && m.cursor.Some? then Overwrite(m.contents, m.cursor.value, q.data) else m.contents)
      && (w.cursor.Some? <==> q.Open? || (m.cursor.Some? && !q.Close?))
  {
  }

  // ---- Losing a replica ----

  /** create_file_monitor_request after the monitor is lost: a new peer gets the owner's contents. */
  method ReplaceMonitor(p: Replica) returns (m: Replica)
    modifies p
    ensures fresh(m)
    ensures (p.State(), m.State()) == (OwnerAfterReplace(old(p.State())), NewMonitor(old(p.State())))
    ensures p.contents == old(p.contents) && p.cursor == None && p.handle == old(p.handle) && p.localId == old(p.localId)
    ensures m.contents == From(old(p.contents), if old(p.cursor).None? then 0 else old(p.cursor).value)
    ensures m.cursor == None && m.handle == [] && m.localId == old(p.localId)
  {
    var c := p.FetchContents();
    m := new Replica(c, p.localId);
  }

  function OwnerAfterReplace(f: File): File { f.(cursor := None) }

  function NewMonitor(f: File): File { File(Shipped(f), None, [], f.localId) }

  /** process_file_offline and SendFileContents after the owner is lost: the monitor ships its
      contents to the peer that now hosts the key.  That peer has asked for a monitor of its own
      before it hosts anything, so the new monitor starts empty. */
  method FailOver(m: Replica) returns (owner: Replica, monitor: Replica)
    modifies m`cursor
    ensures fresh(owner) && owner.State() == NewOwner(old(m.State()))
    ensures owner.contents == From(old(m.contents), if old(m.cursor).None? then 0 else old(m.cursor).value)
    ensures owner.cursor == None && owner.handle == owner.localId == old(m.localId)
    ensures fresh(monitor) && monitor != owner && monitor.State() == EMPTY
  {
    var c := m.FetchContents();
    monitor := new Replica([], []);
    owner := new Replica([], []);
    owner.FetchDirect(m.localId);
    owner.SetContents(c);
  }

  /** A new file that is not in use. */
  const EMPTY: File := File([], None, [], [])

  function NewOwner(f: File): File { File(Shipped(f), None, f.localId, f.localId) }

  // ---- Agreement over all request sequences ----

  /** A handle is out exactly when the file object is open. */
  predicate Sound(f: File) {
    (f.handle != [] <==> f.cursor.Some?) && f.localId == f.handle
  }

  /** From agreeing copies every request leads to agreeing copies, and a refused one to neither changing. */
  lemma RequestKeepsAgreement(f: File, q: Request)
    requires Sound(f)
    ensures Sound(Serve(f, q).0)
    ensures ServeMonitor(f, f, q) == Serve(f, q).0
    ensures Serve(f, q).1 != OK ==> Serve(f, q).0 == f
  {
  }

  function RunOwner(f: File, qs: seq<Request>): File
    decreases |qs|
  {
    if qs == [] then f else RunOwner(Serve(f, qs[0]).0, qs[1..])
  }

  function RunMonitor(f: File, m: File, qs: seq<Request>): File
    decreases |qs|
  {
    if qs == [] then m else RunMonitor(Serve(f, qs[0]).0, ServeMonitor(f, m, qs[0]), qs[1..])
  }

  /** Owner and monitor agree on contents, position and handles after any requests whatever. */
  lemma {:induction false} ReplicasAgree(f: File, qs: seq<Request>)
    requires Sound(f)
    ensures RunMonitor(f, f, qs) == RunOwner(f, qs) && Sound(RunOwner(f, qs))
    decreases |qs|
  {
    if qs != [] {
      RequestKeepsAgreement(f, qs[0]);
      ReplicasAgree(Serve(f, qs[0]).0, qs[1..]);
    }
  }

  /** Only the holder of the handle gets through, and a file in use is opened by nobody else. */
  lemma HandleGuards(f: File, q: Request)
    requires Sound(f) && Serve(f, q).1 == OK
    ensures f.handle != [] ==> q.id == f.handle
    ensures f.handle == [] ==> q.Open? && q.id == [] && |q.process| == 2
    ensures Serve(f, q).0.contents != f.contents ==> q.Write? && q.id == f.handle != []
  {
  }

  /** A read returns what was written: after a write of d, seeking back and reading |d| bytes gives d. */
  lemma WriteThenRead(f: File, d: Bytes)
    requires Sound(f) && f.handle != [] && d != []
    ensures var w := Serve(f, Write(f.handle, d)).0;
      var s := Serve(w, Seek(f.handle, f.cursor.value, 0)).0;
      Serve(s, Read(f.handle, |d|)).2 == d
  {
    var c := Overwrite(f.contents, f.cursor.value, d);
    assert Slice(c, f.cursor.value, |d|) == c[f.cursor.value..f.cursor.value + |d|];
  }

  /** A request is answered, refused for its handle, or fails at the file object. */
  lemma StatusOf(f: File, q: Request)
    requires Sound(f)
    ensures var status := Serve(f, q).1; var mine := f.handle != [] && q.id == f.handle;
      && (status == OK <==>
           if q.Open? then mine || (f.handle == [] && q.id == [] && |q.process| == 2)
           else mine && (q.Read? ==> q.length >= -1) && (q.Seek? ==> 0 <= q.whence <= 2))
      && (status == RAISED <==> mine && ((q.Read? && q.length < -1) || (q.Seek? && !(0 <= q.whence <= 2))))
  {
  }

  /** Opening gives an unused file a handle of random bytes and process, at its start, and leaves a used
      one as it is; closing takes the handle back. */
  lemma OpenAndClose(f: File, process: Bytes, random: Bytes)
    requires Sound(f)
    ensures f.handle == [] && |process| == 2 ==>
      Serve(f, Open([], process, random)) == (File(f.contents, Some(0), random + process, random + process), OK, random + process)
    ensures f.handle != [] ==> Serve(f, Open(f.handle, process, random)) == (f, OK, f.handle)
    ensures f.handle != [] ==> Serve(f, Close(f.handle)) == (File(f.contents, None, [], []), OK, [])
  {
  }

  /** The bytes from position p on, none past the end. */
  function From(c: Bytes, p: nat): Bytes {
    if p < |c| then c[p..] else []
  }

  /** After a seek to an offset from the start, the position or the end, a read of everything returns the
      bytes from there on. */
  lemma SeekThenRead(f: File, o: nat)
    requires Sound(f) && f.handle != []
    ensures Serve(Serve(f, Seek(f.handle, o, 0)).0, Read(f.handle, -1)).2 == From(f.contents, o)
    ensures Serve(Serve(f, Seek(f.handle, o, 1)).0, Read(f.handle, -1)).2 == From(f.contents, f.cursor.value + o)
    ensures Serve(Serve(f, Seek(f.handle, o, 2)).0, Read(f.handle, -1)).2 == []
  {
  }

  /** A write after a seek to the end appends. */
  lemma SeekThenWrite(f: File, d: Bytes)
    requires Sound(f) && f.handle != []
    ensures Serve(Serve(f, Seek(f.handle, 0, 2)).0, Write(f.handle, d)).0.contents == f.contents + d
  {
    assert |f.contents| + |d| >= |f.contents|;
    assert d == [] ==> f.contents + d == f.contents;
  }

  /** A read in two parts is a read at once, and moves the position as far. */
  lemma ReadInParts(f: File, a: nat, b: nat)
    requires Sound(f) && f.handle != []
    ensures var (g, _, x) := Serve(f, Read(f.handle, a)); var (h, _, y) := Serve(g, Read(f.handle, b));
      Serve(f, Read(f.handle, a + b)) == (h, OK, x + y)
    ensures Serve(f, Read(f.handle, a)).2 == if a < |From(f.contents, f.cursor.value)| then From(f.contents, f.cursor.value)[..a] else From(f.contents, f.cursor.value)
  {
    SliceInParts(f.contents, f.cursor.value, a, b);
  }

  lemma SliceInParts(c: Bytes, p: nat, a: nat, b: nat)
    ensures var x := Slice(c, p, a); Slice(c, p, a + b) == x + Slice(c, p + |x|, b)
    ensures Slice(c, p, a) == if a < |From(c, p)| then From(c, p)[..a] else From(c, p)
  {
    var x, z := Slice(c, p, a), Slice(c, p, a + b);
    var y := Slice(c, p + |x|, b);
    hide Slice;
    assert |z| == |x| + |y|;
    forall i | 0 <= i < |z| ensures z[i] == (x + y)[i] {}
  }

  /** A write in two parts is a write at once. */
  lemma WriteInParts(f: File, d: Bytes, e: Bytes)
    requires Sound(f) && f.handle != []
    ensures Serve(Serve(f, Write(f.handle, d)).0, Write(f.handle, e)).0 == Serve(f, Write(f.handle, d + e)).0
  {
    OverwriteInParts(f.contents, f.cursor.value, d, e);
  }

  lemma OverwriteInParts(c: Bytes, p: nat, d: Bytes, e: Bytes)
    ensures Overwrite(Overwrite(c, p, d), p + |d|, e) == Overwrite(c, p, d + e)
  {
    var x, y := Overwrite(Overwrite(c, p, d), p + |d|, e), Overwrite(c, p, d + e);
    if d == [] { assert d + e == e; }
    if e == [] { assert d + e == d; }
    if d != [] && e != [] {
      assert |x| == |y|;
      forall k | 0 <= k < |x| ensures x[k] == y[k] {}
    }
  }

  // ---- Failover ----

  /** fetch_contents ships the whole file exactly when it reads from its start. */
  lemma ShippedWhole(f: File)
    ensures Shipped(f) == f.contents <==> f.cursor.None? || f.cursor.value == 0 || f.contents == []
  {
    if f.cursor.Some? && f.cursor.value > 0 && f.contents != [] {
      assert |Shipped(f)| < |f.contents|;
    }
  }

  /** Replacing the monitor re-establishes agreement exactly when the file is not in use. */
  lemma ReplacementAgrees(f: File)
    requires Sound(f)
    ensures NewMonitor(f) == OwnerAfterReplace(f) <==> f.handle == []
  {
    ShippedWhole(f);
  }

  /** The new owner's file is the lost owner's file exactly when it was not in use. */
  lemma FailoverRestores(f: File)
    requires Sound(f)
    ensures NewOwner(f) == f <==> f.handle == []
    ensures NewOwner(f).contents == f.contents <==> f.cursor.None? || f.cursor.value == 0 || f.contents == []
  {
    ShippedWhole(f);
  }

  /** After any requests that leave the file closed, the monitor restores what one file executing
      the same requests holds. */
  lemma FailoverAfterRun(qs: seq<Request>, c: Bytes)
    requires RunOwner(File(c, None, [], []), qs).handle == []
    ensures var start := File(c, None, [], []);
      NewOwner(RunMonitor(start, start, qs)) == RunOwner(start, qs)
  {
    var start := File(c, None, [], []);
    ReplicasAgree(start, qs);
    FailoverRestores(RunOwner(start, qs));
  }

  /** After the owner is lost its successor and the new monitor hold the same bytes exactly when none
      were shipped: the file was empty, or in use and read to its end. */
  lemma FailoverLeavesMonitorEmpty(f: File)
    ensures NewOwner(f).contents == EMPTY.contents <==> f.contents == [] || (f.cursor.Some? && f.cursor.value >= |f.contents|)
  {
    assert |Shipped(f)| == 0 <==> Shipped(f) == [];
  }

  /** For one: a closed file of a byte, which the new owner has and the new monitor has not. */
  lemma FailoverOfClosedFile()
    ensures var f := File([1], None, [], []); NewOwner(f) == f && EMPTY.contents == []
  {
    var f := File([1], None, [], []);
    ShippedWhole(f);
  }

  // ---- Runs in which monitors are lost ----

  /** A request, or the loss and replacement of the monitor. */
  datatype Step = Do(q: Request) | MonitorLost

  function OwnerStep(f: File, step: Step): File {
    if step.Do? then Serve(f, step.q).0 else OwnerAfterReplace(f)
  }

  function MonitorStep(f: File, m: File, step: Step): File {
    if step.Do? then ServeMonitor(f, m, step.q) else NewMonitor(f)
  }

  /** Owner and monitor have the same bytes and position.  A monitor that is new does not know yet who
      has the file in use. */
  predicate InStep(f: File, m: File) {
    && m.contents == f.contents && m.cursor == f.cursor && m.localId == f.localId
    && (m.handle == f.handle || (f.cursor == None && m.handle == []))
  }

  /** An open file is in use; a file in use need not be open any more. */
  predicate Held(f: File) {
    f.localId == f.handle && (f.cursor.Some? ==> f.handle != [])
  }

  /** The file is closed, at its start, or empty: then a new monitor gets all of it. */
  predicate Whole(f: File) {
    f.cursor.None? || f.cursor.value == 0 || f.contents == []
  }

  ghost predicate InStepThroughout(f: File, m: File, steps: seq<Step>)
    decreases |steps|
  {
    InStep(f, m) && (steps == [] || InStepThroughout(OwnerStep(f, steps[0]), MonitorStep(f, m, steps[0]), steps[1..]))
  }

  ghost predicate WholeAtLosses(f: File, steps: seq<Step>)
    decreases |steps|
  {
    steps == [] || ((steps[0] == MonitorLost ==> Whole(f)) && WholeAtLosses(OwnerStep(f, steps[0]), steps[1..]))
  }

  lemma StepInStep(f: File, m: File, step: Step)
    requires Held(f) && InStep(f, m)
    ensures Held(OwnerStep(f, step))
    ensures InStep(OwnerStep(f, step), MonitorStep(f, m, step)) <==> (step == MonitorLost ==> Whole(f))
  {
    if step == MonitorLost { ShippedWhole(f); }
  }

  /** Whatever requests and losses of monitors follow each other, the copies stay in step throughout
      exactly when at every loss the file is closed, at its start, or empty. */
  lemma {:induction false} StaysInStep(f: File, m: File, steps: seq<Step>)
    requires Held(f) && InStep(f, m)
    ensures InStepThroughout(f, m, steps) <==> WholeAtLosses(f, steps)
    decreases |steps|
  {
    if steps != [] {
      var g, w := OwnerStep(f, steps[0]), MonitorStep(f, m, steps[0]);
      StepInStep(f, m, steps[0]);
      hide InStep, Held, OwnerStep, MonitorStep, Whole;
      if InStep(g, w) { StaysInStep(g, w, steps[1..]); }
    }
  }

  function EndOwner(f: File, steps: seq<Step>): File
    decreases |steps|
  {
    if steps == [] then f else EndOwner(OwnerStep(f, steps[0]), steps[1..])
  }

  function EndMonitor(f: File, m: File, steps: seq<Step>): File
    decreases |steps|
  {
    if steps == [] then m else EndMonitor(OwnerStep(f, steps[0]), MonitorStep(f, m, steps[0]), steps[1..])
  }

  lemma {:induction false} EndsInStep(f: File, m: File, steps: seq<Step>)
    requires Held(f) && InStep(f, m) && WholeAtLosses(f, steps)
    ensures Held(EndOwner(f, steps)) && InStep(EndOwner(f, steps), EndMonitor(f, m, steps))
    decreases |steps|
  {
    if steps != [] {
      StepInStep(f, m, steps[0]);
      hide InStep, Held, OwnerStep, MonitorStep, Whole;
      EndsInStep(OwnerStep(f, steps[0]), MonitorStep(f, m, steps[0]), steps[1..]);
    }
  }

  /** If then the owner is lost while the file is not in use, the new owner has its file. */
  lemma FailoverAfterLosses(c: Bytes, steps: seq<Step>)
    requires WholeAtLosses(File(c, None, [], []), steps) && EndOwner(File(c, None, [], []), steps).handle == []
    ensures var start := File(c, None, [], []);
      NewOwner(EndMonitor(start, start, steps)) == EndOwner(start, steps) == EndMonitor(start, start, steps)
  {
    var start := File(c, None, [], []);
    EndsInStep(start, start, steps);
    hide EndOwner, EndMonitor, WholeAtLosses;
    ShippedWhole(EndMonitor(start, start, steps));
  }

  /** For one: a process opens a file of three bytes and reads the first; the monitor is lost, and the
      new one gets the rest only. */
  lemma LossWhileOpen(process: Bytes, random: Bytes)
    requires |process| == 2 && |random| == 16
    ensures var f := File([1, 2, 3], None, [], []);
      var steps := [Do(Open([], process, random)), Do(Read(random + process, 1)), MonitorLost];
      Held(f) && InStep(f, f) && EndMonitor(f, f, steps).contents == [2, 3] && !InStepThroughout(f, f, steps)
  {
    var f := File([1, 2, 3], None, [], []);
    var h := random + process;
    var open, read := Do(Open([], process, random)), Do(Read(h, 1));
    var steps := [open, read, MonitorLost];
    assert steps[1..] == [read, MonitorLost] && [read, MonitorLost][1..] == [MonitorLost] && [MonitorLost][1..] == [];
    assert [1, 2, 3][0..1] == [1] && [1, 2, 3][1..] == [2, 3];
    var g := OwnerStep(f, open);
    assert g == File([1, 2, 3], Some(0), h, h) == MonitorStep(f, f, open);
    var k := OwnerStep(g, read);
    assert k == File([1, 2, 3], Some(1), h, h) == MonitorStep(g, g, read);
    StaysInStep(f, f, steps);
    assert WholeAtLosses(f, steps) == WholeAtLosses(g, [read, MonitorLost]) == WholeAtLosses(k, [MonitorLost]) == false;
    assert EndMonitor(f, f, steps) == EndMonitor(g, g, [read, MonitorLost]) == EndMonitor(k, k, [MonitorLost]);
    assert MonitorStep(k, k, MonitorLost).contents == [2, 3];
  }
}

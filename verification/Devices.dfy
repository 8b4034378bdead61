/**
 * The device host (src/core/io_host.py): teletypes whose input arrives in lines and is read as a
 * byte stream by the one process that holds the device.
 */
module Devices {
  import opened Metric
  import Keys

  /** Error stands for the exceptions the host raises. */
  datatype Status = Detached | Ok | NonExist | Busy | Error

  /** What one device holds: queued input, bytes already taken off the queue, hang-up flag, and the
      process that opened it (no bytes: nobody). */
  datatype Stream = Stream(input: seq<Bytes>, buffer: Bytes, done: bool, holder: Bytes)

  function Flat(q: seq<Bytes>): Bytes {
    if q == [] then [] else q[0] + Flat(q[1..])
  }

  /** The bytes still to be read, in order. */
  function Pending(s: Stream): Bytes {
    s.buffer + Flat(s.input)
  }

  /** A caller that never opened the device claims no bytes, which match nobody. */
  predicate Holds(s: Stream, claim: Bytes) {
    claim != [] && claim == s.holder
  }

  // ---- Effect of each operation on one device ----

  /** Dequeuing stops after the first item that makes the buffer longer than the request. */
  function Drained(buffer: Bytes, input: seq<Bytes>, length: int): (Bytes, seq<Bytes>)
    decreases |input|
  {
    if input == [] then (buffer, input)
    else if |buffer + input[0]| > length && length != -1 then (buffer + input[0], input[1..])
    else Drained(buffer + input[0], input[1..], length)
  }

  /** Where the request cuts the drained buffer. */
  function Cut(buffer: Bytes, length: int): (k: nat)
    ensures k <= |buffer|
  {
    if length < 0 || length > |buffer| then |buffer| else length
  }

  function AfterRead(s: Stream, claim: Bytes, length: int): Stream {
    if length == 0 || !Holds(s, claim) then s
    else
      var (b, q) := Drained(s.buffer, s.input, length);
      s.(input := q, buffer := b[Cut(b, length)..])
  }

  function DataRead(s: Stream, claim: Bytes, length: int): Bytes {
    if length == 0 || !Holds(s, claim) then []
    else
      var b := Drained(s.buffer, s.input, length).0;
      b[..Cut(b, length)]
  }

  function AfterOpen(s: Stream, process: Bytes): Stream {
    if s.holder == [] then s.(holder := process) else s
  }

  function AfterClose(s: Stream, claim: Bytes): Stream {
    if Holds(s, claim) then s.(holder := []) else s
  }

  // ---- The host ----

  class Socket {
    var input: seq<Bytes>
    var output: seq<Bytes>
    var done: bool
    var buffer: Bytes

    constructor ()
      ensures input == [] && output == [] && !done && buffer == []
    {
      input, output, done, buffer := [], [], false, [];
    }

    /** A line arriving from the terminal. */
    method Push(line: Bytes)
      modifies this`input
      ensures input == old(input) + [line]
    {
      input := input + [line];
    }
  }

  /** The key of the host's n-th teletype. */
  function TtyKey(addr: Bytes, n: nat): (key: Bytes)
    requires |addr| == 8 && n < 0x1_0000_0000
    ensures |key| == 8
  {
    Keys.GetKey(Keys.NewDevice(addr[..4], n).value).value
  }

  ghost predicate Issued(addr: Bytes, counter: nat, key: Bytes)
    requires |addr| == 8 && counter <= 0x1_0000_0000
  {
    exists n: nat :: n < counter && key == TtyKey(addr, n)
  }

  ghost predicate AllIssued(addr: Bytes, counter: nat, keys: set<Bytes>)
    requires |addr| == 8 && counter <= 0x1_0000_0000
  {
    forall k :: k in keys ==> Issued(addr, counter, k)
  }

  class IOHost {
    const myAddr: Bytes
    var counter: nat
    var sockets: map<Bytes, Socket>
    var connections: map<Bytes, Bytes>

    /** Both tables list the same devices, no two devices share a socket, and every listed key was
        handed out by allocation. */
    ghost predicate Valid()
      reads this
    {
      && |myAddr| == 8 && counter <= 0x1_0000_0000
      && sockets.Keys == connections.Keys
      && (forall k, l :: k in sockets && l in sockets && sockets[k] == sockets[l] ==> k == l)
      && AllIssued(myAddr, counter, sockets.Keys)
    }

    ghost function StreamOf(key: Bytes): Stream
      requires Valid() && key in sockets
      reads this, sockets[key]
    {
      Stream(sockets[key].input, sockets[key].buffer, sockets[key].done, connections[key])
    }

    constructor (addr: Bytes)
      requires |addr| == 8
      ensures Valid() && myAddr == addr && counter == 0 && sockets == map[]
    {
      myAddr, counter, sockets, connections := addr, 0, map[], map[];
    }

    method OpenDeviceConnection(key: Bytes, process: Bytes) returns (id: Bytes, status: Status)
      requires Valid()
      modifies this`connections
      ensures Valid() && (key !in sockets ==> status == Detached && id == [] && connections == old(connections))
      ensures key in sockets ==>
        && StreamOf(key) == AfterOpen(old(StreamOf(key)), process)
        && connections == old(connections)[key := StreamOf(key).holder]
        && (status == Ok <==> StreamOf(key).holder == process)
        && connections[key] == (if old(connections)[key] == [] then process else old(connections)[key])
        && (if status == Ok then id == process else status == Busy && id == [])
    {
      if key !in connections { return [], Detached; }
      if process == connections[key] { return process, Ok; }
      if connections[key] == [] {
        connections := connections[key := process];
        return process, Ok;
      }
      return [], Busy;
    }

    method CloseDevice(key: Bytes, claim: Bytes) returns (status: Status)
      requires Valid()
      modifies this`connections
      ensures Valid() && (key !in sockets ==> status == NonExist && connections == old(connections))
      ensures key in sockets ==>
        && StreamOf(key) == AfterClose(old(StreamOf(key)), claim)
        && connections == old(connections)[key := StreamOf(key).holder]
        && status == (if old(Holds(StreamOf(key), claim)) then Ok else Busy)
        && connections[key] == if claim != [] && claim == old(connections)[key] then [] else old(connections)[key]
    {
      if key !in connections { return NonExist; }
      if claim == [] || claim != connections[key] { return Busy; }
      connections := connections[key := []];
      return Ok;
    }

    /** A new teletype; it fails once numbers no longer fit four bytes. The key is new as long as the
        counter is below 64; afterwards it may be that of a device still listed, which it replaces. */
    method AllocateDevice() returns (status: Status, key: Bytes, socket: Socket)
      requires Valid()
      modifies this`counter, this`sockets, this`connections
      ensures Valid() && fresh(socket)
      ensures socket.input == [] && socket.buffer == [] && !socket.done
      ensures status == if old(counter) < 0x1_0000_0000 then Ok else Error
      ensures status == Ok ==>
        && counter == old(counter) + 1 && key == TtyKey(myAddr, old(counter))
        && sockets == old(sockets)[key := socket] && connections == old(connections)[key := []]
        && (old(counter) < 64 ==> key !in old(sockets))
      ensures status == Error ==> counter == old(counter) && sockets == old(sockets) && connections == old(connections)
    {
      socket := new Socket();
      if counter >= 0x1_0000_0000 { return Error, [], socket; }
      hide TtyKey, AllIssued;
      key := TtyKey(myAddr, counter);
      if counter < 64 { FirstKeysAreNew(myAddr, counter, sockets.Keys); }
      List(key, socket);
      return Ok, key, socket;
    }

    /** The host's tables with one more device. */
    method List(key: Bytes, socket: Socket)
      requires Valid() && counter < 0x1_0000_0000 && key == TtyKey(myAddr, counter)
      requires forall k :: k in sockets ==> sockets[k] != socket
      modifies this`counter, this`sockets, this`connections
      ensures Valid() && counter == old(counter) + 1
      ensures sockets == old(sockets)[key := socket] && connections == old(connections)[key := []]
    {
      hide TtyKey, AllIssued;
      ghost var before := sockets.Keys;
      IssuedGrows(myAddr, counter, before);
      counter := counter + 1;
      sockets := sockets[key := socket];
      connections := connections[key := []];
      assert sockets.Keys == before + {key};
    }

    method DeallocateDevice(key: Bytes) returns (status: Status)
      requires Valid()
      modifies this`sockets, this`connections, if key in sockets then {sockets[key]} else {}
      ensures Valid() && sockets == old(sockets) - {key} && connections == old(connections) - {key}
      ensures status == if key in old(sockets) then Ok else Error
      ensures key in old(sockets) ==> var s := old(sockets[key]); s.done && s.input == old(s.input) && s.buffer == old(s.buffer) && s.output == old(s.output)
    {
      if key !in sockets { return Error; }
      sockets[key].done := true;
      sockets := sockets - {key};
      connections := connections - {key};
      return Ok;
    }

    method ReadDevice(key: Bytes, claim: Bytes, length: int) returns (data: Bytes, status: Status)
      requires Valid()
      modifies if key in sockets then {sockets[key]} else {}
      ensures Valid() && (key !in sockets ==> data == [] && status == if length == 0 then Ok else Error)
      ensures key in sockets ==>
        && StreamOf(key) == AfterRead(old(StreamOf(key)), claim, length)
        && data == DataRead(old(StreamOf(key)), claim, length)
        && sockets[key].output == old(sockets[key].output)
        && (status == Busy <==> length != 0 && !Holds(StreamOf(key), claim))
        && (status != Busy ==> status == if length != 0 && sockets[key].done then Detached else Ok)
      ensures forall k :: k in sockets && k != key ==> StreamOf(k) == old(StreamOf(k))
    {
      if length == 0 { return [], Ok; }
      if key !in connections { return [], Error; }
      if claim == [] || claim != connections[key] { return [], Busy; }
      var s := sockets[key];
      Drain(s, length);
      var k := Cut(s.buffer, length);
      data := s.buffer[..k];
      s.buffer := s.buffer[k..];
      status := if s.done then Detached else Ok;
    }

    method Drain(s: Socket, length: int)
      modifies s`input, s`buffer
      ensures (s.buffer, s.input) == old(Drained(s.buffer, s.input, length))
    {
      while s.input != []
        invariant Drained(s.buffer, s.input, length) == old(Drained(s.buffer, s.input, length))
        decreases |s.input|
      {
        var item := s.input[0];
        s.input := s.input[1..];
        s.buffer := s.buffer + item;
        if |s.buffer| > length && length != -1 { return; }
      }
    }

    method WriteDevice(key: Bytes, claim: Bytes, data: Bytes) returns (status: Status)
      requires Valid()
      modifies if key in sockets then {sockets[key]} else {}
      ensures Valid() && (key !in sockets ==> status == Error)
      ensures key in sockets ==>
        && StreamOf(key) == old(StreamOf(key))
        && sockets[key].output == old(sockets[key].output) + (if status == Ok then [data] else [])
        && status == if !Holds(StreamOf(key), claim) then Busy else if sockets[key].done then Detached else Ok
      ensures forall k :: k in sockets && k != key ==> StreamOf(k) == old(StreamOf(k))
    {
      if key !in connections { return Error; }
      if claim == [] || claim != connections[key] { return Busy; }
      var s := sockets[key];
      if s.done { return Detached; }
      s.output := s.output + [data];
      return Ok;
    }

    method ReadAvailable(key: Bytes, claim: Bytes) returns (available: bool, status: Status)
      requires Valid()
      ensures key !in sockets ==> !available && status == NonExist
      ensures key in sockets ==>
        && status == (if !Holds(StreamOf(key), claim) then Busy else if sockets[key].done then Detached else Ok)
        && (Pending(StreamOf(key)) != [] && status == Ok ==> available)
        && (available <==> status == Ok && (sockets[key].input != [] || sockets[key].buffer != []))
    {
      if key !in connections { return false, NonExist; }
      if claim == [] || claim != connections[key] { return false, Busy; }
      var s := sockets[key];
      if s.done { return false, Detached; }
      return |s.input| > 0 || |s.buffer| > 0, Ok;
    }
  }

  // ---- Device numbers ----

  /** The bytes of a teletype's key: the first four of its host, and its number, of which the last byte
      gives up its two high bits. */
  lemma TtyKeyBytes(addr: Bytes, n: nat)
    requires |addr| == 8 && n < 0x1_0000_0000
    ensures TtyKey(addr, n) == addr[..4] + [n / 0x100_0000, n / 0x1_0000 % 256, n / 0x100 % 256, n % 64 + 192]
  {
    var d := Keys.NewDevice(addr[..4], n).value;
    assert |addr[..4]| == 4;
    hide Keys.GetKey, Keys.Big;
    Keys.KeyBytes(d);
    BigEndian(n);
    LowBits(n);
    KeySpelled(addr[..4], d.name, n);
  }

  lemma LowBits(n: nat)
    ensures n % 256 % 64 == n % 64
  {
  }

  lemma KeySpelled(a: Bytes, name: Bytes, n: nat)
    requires n < 0x1_0000_0000 && name == [n / 0x100_0000, n / 0x1_0000 % 256, n / 0x100 % 256, n % 256] && n % 256 % 64 == n % 64
    ensures a + name[..3] + [name[3] % 64 + 192] == a + [n / 0x100_0000, n / 0x1_0000 % 256, n / 0x100 % 256, n % 64 + 192]
  {
    assert name[..3] + [name[3] % 64 + 192] == [n / 0x100_0000, n / 0x1_0000 % 256, n / 0x100 % 256, n % 64 + 192];
    assert a + name[..3] + [name[3] % 64 + 192] == a + (name[..3] + [name[3] % 64 + 192]);
  }

  lemma BigEndian(n: nat)
    requires n < 0x1_0000_0000
    ensures Keys.Big(n, 4) == [n / 0x100_0000, n / 0x1_0000 % 256, n / 0x100 % 256, n % 256]
  {
    var q := n / 256;
    var r := q / 256;
    var t := r / 256;
    assert q / 256 == n / 0x1_0000 && r / 256 == n / 0x100_0000 && t < 256;
    hide Keys.Big;
    BigStep(n, 3);
    BigStep(q, 2);
    BigStep(r, 1);
    BigStep(t, 0);
    assert Keys.Big(t / 256, 0) == [];
  }

  lemma BigStep(n: nat, k: nat)
    ensures Keys.Big(n, k + 1) == Keys.Big(n / 256, k) + [n % 256]
  {
  }

  /** Two teletypes of a host share a key exactly when their numbers agree but for bits 6 and 7. */
  lemma {:induction false} TtyKeysEqual(addr: Bytes, a: nat, b: nat)
    requires |addr| == 8 && a < 0x1_0000_0000 && b < 0x1_0000_0000
    ensures TtyKey(addr, a) == TtyKey(addr, b) <==> a % 64 == b % 64 && a / 256 == b / 256
  {
    var d, e := Keys.NewDevice(addr[..4], a).value, Keys.NewDevice(addr[..4], b).value;
    Keys.DeviceKeysEqual(addr[..4], a, d, b, e);
    hide Keys.GetKey, Keys.NewDevice;
  }

  /** For one: the 65th device has the key of the first. */
  lemma SixtyFifthCollides(addr: Bytes)
    requires |addr| == 8
    ensures TtyKey(addr, 64) == TtyKey(addr, 0)
  {
    TtyKeysEqual(addr, 64, 0);
    hide TtyKey;
  }

  lemma FirstKeysAreNew(addr: Bytes, n: nat, keys: set<Bytes>)
    requires |addr| == 8 && n < 64 && AllIssued(addr, n, keys)
    ensures TtyKey(addr, n) !in keys
  {
    forall m: nat | m < n ensures TtyKey(addr, m) != TtyKey(addr, n) { TtyKeysEqual(addr, m, n); }
    hide TtyKey;
  }

  lemma IssuedGrows(addr: Bytes, counter: nat, keys: set<Bytes>)
    requires |addr| == 8 && counter < 0x1_0000_0000 && AllIssued(addr, counter, keys)
    ensures AllIssued(addr, counter + 1, keys + {TtyKey(addr, counter)})
  {
    hide TtyKey;
  }

  // ---- The byte stream of one device ----

  lemma {:induction false} FlatAppend(q: seq<Bytes>, x: Bytes)
    ensures Flat(q + [x]) == Flat(q) + x
  {
    if q == [] {
      assert q + [x] == [x] && [x][1..] == [];
    } else {
      assert (q + [x])[0] == q[0] && (q + [x])[1..] == q[1..] + [x];
      FlatAppend(q[1..], x);
    }
  }

  /** Draining moves bytes from the queue to the buffer and stops only with enough of them. */
  lemma {:induction false} DrainKeepsBytes(buffer: Bytes, input: seq<Bytes>, length: int)
    ensures var (b, q) := Drained(buffer, input, length);
      b + Flat(q) == buffer + Flat(input) && (q == [] || (length != -1 && |b| > length))
    decreases |input|
  {
    if input != [] {
      assert buffer + input[0] + Flat(input[1..]) == buffer + Flat(input);
      DrainKeepsBytes(buffer + input[0], input[1..], length);
    }
  }

  function Least(a: nat, b: nat): nat {
    if a < b then a else b
  }

  /** A read takes a prefix of the pending bytes: as many as asked for and available, or all. */
  lemma ReadTakesPrefix(s: Stream, claim: Bytes, length: int)
    ensures DataRead(s, claim, length) + Pending(AfterRead(s, claim, length)) == Pending(s)
    ensures Holds(s, claim) && length >= 0 ==> |DataRead(s, claim, length)| == Least(length, |Pending(s)|)
    ensures Holds(s, claim) && length == -1 ==> DataRead(s, claim, length) == Pending(s)
    ensures !Holds(s, claim) ==> AfterRead(s, claim, length) == s && DataRead(s, claim, length) == []
    ensures AfterRead(s, claim, length).holder == s.holder
  {
    if length != 0 && Holds(s, claim) {
      DrainKeepsBytes(s.buffer, s.input, length);
      var (b, q) := Drained(s.buffer, s.input, length);
      assert b[..Cut(b, length)] + (b[Cut(b, length)..] + Flat(q)) == b + Flat(q);
      if q == [] { assert b + Flat(q) == b; }
    } else {
      assert [] + Pending(s) == Pending(s);
    }
  }

  // ---- Runs ----

  datatype Op = Push(line: Bytes) | Read(claim: Bytes, length: int) | Open(process: Bytes) | Close(claim: Bytes) | HangUp

  function Step(s: Stream, op: Op): Stream {
    match op
    case Push(line) => s.(input := s.input + [line])
    case Read(claim, length) => AfterRead(s, claim, length)
    case Open(process) => AfterOpen(s, process)
    case Close(claim) => AfterClose(s, claim)
    case HangUp => s.(done := true)
  }

  function Returned(s: Stream, op: Op): Bytes {
    if op.Read? then DataRead(s, op.claim, op.length) else []
  }

  function Final(s: Stream, ops: seq<Op>): Stream
    decreases |ops|
  {
    if ops == [] then s else Final(Step(s, ops[0]), ops[1..])
  }

  /** All the bytes the reads of a run return, in order. */
  function Received(s: Stream, ops: seq<Op>): Bytes
    decreases |ops|
  {
    if ops == [] then [] else Returned(s, ops[0]) + Received(Step(s, ops[0]), ops[1..])
  }

  /** All the bytes that arrive during a run, in order. */
  function Arrived(ops: seq<Op>): Bytes {
    if ops == [] then [] else (if ops[0].Push? then ops[0].line else []) + Arrived(ops[1..])
  }

  lemma StepConserves(s: Stream, op: Op)
    ensures Returned(s, op) + Pending(Step(s, op)) == Pending(s) + (if op.Push? then op.line else [])
  {
    if op.Push? {
      FlatAppend(s.input, op.line);
      assert s.buffer + (Flat(s.input) + op.line) == Pending(s) + op.line;
    } else if op.Read? {
      ReadTakesPrefix(s, op.claim, op.length);
    }
  }

  /** Nothing is lost, repeated or reordered by any interleaving of arrivals, reads of any length by
      anyone, opens, closes and hang-ups. */
  lemma {:induction false} StreamConserved(s: Stream, ops: seq<Op>)
    ensures Received(s, ops) + Pending(Final(s, ops)) == Pending(s) + Arrived(ops)
    decreases |ops|
  {
    if ops == [] {
      assert Received(s, ops) + Pending(s) == Pending(s) + Arrived(ops);
    } else {
      var t := Step(s, ops[0]);
      var now := if ops[0].Push? then ops[0].line else [];
      StepConserves(s, ops[0]);
      StreamConserved(t, ops[1..]);
      Regroup(Returned(s, ops[0]), Received(t, ops[1..]), Pending(Final(t, ops[1..])), Pending(t), Arrived(ops[1..]), Pending(s), now);
    }
  }

  lemma Regroup(a: Bytes, b: Bytes, c: Bytes, d: Bytes, e: Bytes, f: Bytes, g: Bytes)
    requires b + c == d + e && a + d == f + g
    ensures (a + b) + c == f + (g + e)
  {
    assert (a + b) + c == a + (b + c);
    assert a + (d + e) == (a + d) + e;
    assert (f + g) + e == f + (g + e);
  }

  // ---- One holder at a time ----

  /** The part of a run that concerns process p: what arrives, what p does, and hang-ups. */
  function Own(ops: seq<Op>, p: Bytes): seq<Op> {
    if ops == [] then []
    else if (ops[0].Read? || ops[0].Close?) && ops[0].claim != p then Own(ops[1..], p)
    else if ops[0].Open? && ops[0].process != p then Own(ops[1..], p)
    else [ops[0]] + Own(ops[1..], p)
  }

  predicate Keeps(ops: seq<Op>, p: Bytes) {
    forall i :: 0 <= i < |ops| ==> ops[i] != Close(p)
  }

  /** Until the holder closes the device, whatever others attempt changes neither what it ends up
      with nor the device: the run is the holder's own. */
  lemma {:induction false} OthersCannotInterfere(s: Stream, ops: seq<Op>, p: Bytes)
    requires p != [] && s.holder == p && Keeps(ops, p)
    ensures Final(s, ops) == Final(s, Own(ops, p)) && Final(s, ops).holder == p
    ensures Received(s, ops) == Received(s, Own(ops, p))
    decreases |ops|
  {
    if ops != [] {
      var op := ops[0];
      assert ops[0] != Close(p);
      if op.Read? { ReadTakesPrefix(s, op.claim, op.length); }
      var t := Step(s, op);
      assert t.holder == p;
      OthersCannotInterfere(t, ops[1..], p);
      if Own(ops, p) == [op] + Own(ops[1..], p) {
        assert Own(ops, p)[1..] == Own(ops[1..], p);
      } else {
        assert t == s && Returned(s, op) == [];
        assert [] + Received(t, ops[1..]) == Received(t, ops[1..]);
      }
    }
  }

  /** A device that nobody has opened stays free and gives no bytes, whatever is attempted on it short of
      opening it. */
  lemma {:induction false} UnopenedGivesNothing(s: Stream, ops: seq<Op>)
    requires s.holder == [] && forall i :: 0 <= i < |ops| ==> !ops[i].Open?
    ensures Received(s, ops) == [] && Final(s, ops).holder == []
    ensures Pending(Final(s, ops)) == Pending(s) + Arrived(ops)
    decreases |ops|
  {
    StreamConserved(s, ops);
    if ops != [] {
      assert !ops[0].Open?;
      if ops[0].Read? { ReadTakesPrefix(s, ops[0].claim, ops[0].length); }
      UnopenedGivesNothing(Step(s, ops[0]), ops[1..]);
    }
  }

  /** A holder that finishes with a read of everything has then received, across its reads, exactly
      what was pending when it opened the device and everything that arrived since. */
  lemma HolderReceivesAll(s: Stream, ops: seq<Op>, p: Bytes)
    requires p != [] && s.holder == [] && Keeps(ops, p)
    ensures var run := Own(ops, p) + [Read(p, -1)];
      Received(AfterOpen(s, p), run) == Pending(s) + Arrived(ops)
  {
    var t := AfterOpen(s, p);
    OthersCannotInterfere(t, ops, p);
    StreamConserved(t, ops);
    var u := Final(t, ops);
    ReadTakesPrefix(u, p, -1);
    ReceivedSnoc(t, Own(ops, p), Read(p, -1));
  }

  lemma {:induction false} ReceivedSnoc(s: Stream, ops: seq<Op>, op: Op)
    ensures Received(s, ops + [op]) == Received(s, ops) + Returned(Final(s, ops), op)
    decreases |ops|
  {
    if ops == [] {
      assert (ops + [op])[1..] == [];
      assert Received(s, ops + [op]) == Returned(s, op) + [];
      assert Received(s, ops) + Returned(s, op) == Returned(s, op);
    } else {
      assert (ops + [op])[1..] == ops[1..] + [op];
      ReceivedSnoc(Step(s, ops[0]), ops[1..], op);
    }
  }
}

/**
 * The console line editor (src/core/io_host.py): characters arriving over telnet in reads of any
 * size become lines for the kernel or for the device.
 */
module LineEditor {
  import opened Metric

  /** The encoding of one character, by section 3 of RFC 3629. */
  function Utf8(c: char): (b: Bytes)
    ensures 1 <= |b| <= 4
  {
    var n := c as int;
    var n1 := n / 64;
    var n2 := n1 / 64;
    if n < 0x80 then [n]
    else if n < 0x800 then [192 + n1, 128 + n % 64]
    else if n < 0x10000 then [224 + n2, 128 + n1 % 64, 128 + n % 64]
    else [240 + n2 / 64, 128 + n2 % 64, 128 + n1 % 64, 128 + n % 64]
  }

  /** The character that a lead byte and its continuation bytes stand for. */
  function Scalar(b: Bytes): nat
    requires 1 <= |b| <= 4
  {
    if |b| == 1 then b[0]
    else if |b| == 2 then Next(b[0] % 32, b[1])
    else if |b| == 3 then Next(Next(b[0] % 16, b[1]), b[2])
    else Next(Next(Next(b[0] % 8, b[1]), b[2]), b[3])
  }

  /** One more continuation byte. */
  function Next(n: nat, b: Byte): nat {
    64 * n + b % 64
  }

  lemma TwoBytes(a: nat, x: nat)
    requires a < 32 && x < 64
    ensures Scalar([192 + a, 128 + x]) == 64 * a + x
  {
  }

  lemma ThreeBytes(a: nat, y: nat, x: nat)
    requires a < 16 && y < 64 && x < 64
    ensures Scalar([224 + a, 128 + y, 128 + x]) == 64 * (64 * a + y) + x
  {
  }

  lemma FourBytes(a: nat, z: nat, y: nat, x: nat)
    requires a < 8 && z < 64 && y < 64 && x < 64
    ensures Scalar([240 + a, 128 + z, 128 + y, 128 + x]) == 64 * (64 * (64 * a + z) + y) + x
  {
  }

  /** Lines keep what was typed: the encoding of a character determines it. */
  lemma Utf8RoundTrip(c: char)
    ensures Scalar(Utf8(c)) == c as int
  {
    var n: nat := c as int;
    var n1 := n / 64;
    var n2 := n1 / 64;
    if n >= 0x80 {
      hide Scalar;
      if n < 0x800 {
        TwoBytes(n1, n % 64);
      } else if n < 0x10000 {
        ThreeBytes(n2, n1 % 64, n % 64);
      } else {
        FourBytes(n2 / 64, n2 % 64, n1 % 64, n % 64);
      }
    }
  }

  const CR: char := 13 as char
  const LF: char := 10 as char
  const DEL: char := 127 as char
  const KERNEL: Bytes := [107, 101, 114, 110, 101, 108]
  const DETACH: Bytes := [68, 69, 84, 65, 67, 72]

  datatype Editor = Editor(
    line: Bytes, ignoreSpace: bool, kernelEnabled: bool, done: bool,
    kernelOut: seq<Bytes>, deviceIn: seq<Bytes>, echo: string)

  // ---- Meaning of one character ----

  /** Carriage return: hang up, or submit the line to the kernel or to the device. */
  function Submit(e: Editor): Editor {
    if e.line == DETACH then e.(done := true)
    else
      var next := e.(line := [], ignoreSpace := true, echo := e.echo + [CR, LF]);
      if KERNEL <= e.line || e.kernelEnabled
      then next.(kernelEnabled := true, kernelOut := e.kernelOut + [e.line])
      else next.(deviceIn := e.deviceIn + [e.line])
  }

  /** Any other character edits the line being typed. */
  function Edit(e: Editor, c: char): Editor {
    if c == LF || (c == ' ' && e.ignoreSpace) then e
    else if c == DEL then
      if e.line == [] then e else e.(line := e.line[..|e.line| - 1], echo := e.echo + [c])
    else e.(ignoreSpace := false, line := e.line + Utf8(c), echo := e.echo + [c])
  }

  /** After the hang-up the rest of the input is dropped. */
  function Typed(e: Editor, s: string): Editor
    decreases |s|
  {
    if s == [] || e.done then e
    else if s[0] == CR then Typed(Submit(e), s[1..])
    else Typed(Edit(e, s[0]), s[1..])
  }

  // ---- The console ----

  class Console {
    var line: Bytes
    var ignoreSpace: bool
    var kernelEnabled: bool
    var done: bool
    var kernelOut: seq<Bytes>
    var deviceIn: seq<Bytes>
    var echo: string

    function State(): Editor
      reads this
    {
      Editor(line, ignoreSpace, kernelEnabled, done, kernelOut, deviceIn, echo)
    }

    /** A connection starts in the kernel, with nothing typed. */
    constructor ()
      ensures State() == Editor([], true, true, false, [], [], [])
    {
      line, ignoreSpace, kernelEnabled, done, kernelOut, deviceIn, echo := [], true, true, false, [], [], [];
    }

    /** The kernel hands the console over to the device; the line feed makes it reset. */
    method ExitKernel()
      modifies this
      ensures State() == old(State()).(kernelEnabled := false, deviceIn := old(deviceIn) + [[10]])
    {
      kernelEnabled := false;
      deviceIn := deviceIn + [[10]];
    }

    /** One read from the connection. */
    method Receive(chunk: string)
      requires !done
      modifies this
      ensures State() == Typed(old(State()), chunk)
    {
      for i := 0 to |chunk|
        invariant !done && Typed(State(), chunk[i..]) == Typed(old(State()), chunk)
      {
        var c := chunk[i];
        assert chunk[i..][1..] == chunk[i + 1..];
        if c == CR {
          Enter();
          if done { return; }
        } else {
          Key(c);
        }
      }
      assert chunk[|chunk|..] == [];
    }

    method Enter()
      modifies this
      ensures State() == Submit(old(State()))
    {
      var isKernel := |line| >= 6 && line[0..6] == KERNEL;
      if line == DETACH {
        done := true;
        return;
      }
      if isKernel || kernelEnabled {
        kernelEnabled := true;
        kernelOut := kernelOut + [line];
      } else {
        deviceIn := deviceIn + [line];
      }
      line := [];
      ignoreSpace := true;
      echo := echo + [CR, LF];
    }

    method Key(c: char)
      requires c != CR
      modifies this
      ensures State() == Edit(old(State()), c)
    {
      if c == LF {
      } else if c == ' ' && ignoreSpace {
      } else if c == DEL {
        if |line| > 0 {
          line := line[..|line| - 1];
          echo := echo + [c];
        }
      } else {
        ignoreSpace := false;
        line := line + Utf8(c);
        echo := echo + [c];
      }
    }

    /** The reading loop: an empty read means the connection closed, and so does a hang-up. Reads
        stop where the list given here does, if neither comes first. */
    method ReaderProcessing(chunks: seq<string>)
      requires !done
      modifies this
      ensures State() == Typed(old(State()), Joined(chunks)).(done := true)
    {
      var i := 0;
      while i < |chunks|
        invariant i <= |chunks| && !done
        invariant Typed(State(), Joined(chunks[i..])) == Typed(old(State()), Joined(chunks))
      {
        var chunk := chunks[i];
        if |chunk| == 0 { break; }
        TypedJoined(State(), chunks[i..]);
        Receive(chunk);
        assert chunks[i..][1..] == chunks[i + 1..];
        if done { break; }
        i := i + 1;
      }
      done := true;
    }
  }

  /** What the reads deliver: their text up to the first empty one. */
  function Joined(chunks: seq<string>): string {
    if chunks == [] || chunks[0] == [] then [] else chunks[0] + Joined(chunks[1..])
  }

  // ---- Chunks do not matter ----

  lemma {:induction false} TypedConcat(e: Editor, a: string, b: string)
    ensures Typed(e, a + b) == Typed(Typed(e, a), b)
    decreases |a|
  {
    if a == [] {
      assert a + b == b;
    } else if !e.done {
      assert (a + b)[0] == a[0] && (a + b)[1..] == a[1..] + b;
      TypedConcat(if a[0] == CR then Submit(e) else Edit(e, a[0]), a[1..], b);
    }
  }

  lemma TypedJoined(e: Editor, chunks: seq<string>)
    requires chunks != [] && chunks[0] != []
    ensures Typed(e, Joined(chunks)) == Typed(Typed(e, chunks[0]), Joined(chunks[1..]))
  {
    TypedConcat(e, chunks[0], Joined(chunks[1..]));
  }

  function TypedReads(e: Editor, chunks: seq<string>): Editor
    decreases |chunks|
  {
    if chunks == [] then e else TypedReads(Typed(e, chunks[0]), chunks[1..])
  }

  function Text(chunks: seq<string>): string {
    if chunks == [] then [] else chunks[0] + Text(chunks[1..])
  }

  lemma {:induction false} ReadsAreText(e: Editor, chunks: seq<string>)
    ensures TypedReads(e, chunks) == Typed(e, Text(chunks))
    decreases |chunks|
  {
    if chunks != [] {
      ReadsAreText(Typed(e, chunks[0]), chunks[1..]);
      TypedConcat(e, chunks[0], Text(chunks[1..]));
    }
  }

  /** However the connection splits the same text into non-empty reads, read by read the queues and
      the final state agree, and so does the whole reading loop. */
  lemma ChunksDoNotMatter(e: Editor, chunks: seq<string>, others: seq<string>)
    requires Text(chunks) == Text(others) && [] !in chunks && [] !in others
    ensures TypedReads(e, chunks) == TypedReads(e, others) == Typed(e, Joined(chunks)) == Typed(e, Joined(others))
  {
    ReadsAreText(e, chunks);
    ReadsAreText(e, others);
    JoinedIsText(chunks);
    JoinedIsText(others);
  }

  lemma {:induction false} JoinedIsText(chunks: seq<string>)
    requires [] !in chunks
    ensures Joined(chunks) == Text(chunks)
  {
    if chunks != [] {
      assert chunks[0] in chunks;
      JoinedIsText(chunks[1..]);
    }
  }

  // ---- What typing does ----

  /** A character that is neither a line feed, a carriage return nor a delete. */
  predicate Plain(c: char) {
    c != CR && c != LF && c != DEL
  }

  function Encoded(s: string): Bytes {
    if s == [] then [] else Utf8(s[0]) + Encoded(s[1..])
  }

  /** Plain text that does not begin with a dropped space joins the line and is echoed. */
  lemma {:induction false} PlainTyped(e: Editor, s: string)
    requires !e.done && s != [] && (forall c :: c in s ==> Plain(c)) && (s[0] == ' ' ==> !e.ignoreSpace)
    ensures Typed(e, s) == e.(line := e.line + Encoded(s), ignoreSpace := false, echo := e.echo + s)
    decreases |s|
  {
    assert s[0] in s;
    var f := Edit(e, s[0]);
    assert f == e.(line := e.line + Utf8(s[0]), ignoreSpace := false, echo := e.echo + [s[0]]);
    assert Typed(e, s) == Typed(f, s[1..]) && Encoded(s) == Utf8(s[0]) + Encoded(s[1..]);
    hide Utf8, Edit;
    if s[1..] == [] {
      assert s == [s[0]] && Encoded(s[1..]) == [] && Utf8(s[0]) + [] == Utf8(s[0]);
      assert Typed(f, s[1..]) == f;
    } else {
      hide Typed, Encoded, Plain;
      PlainTyped(f, s[1..]);
      assert [s[0]] + s[1..] == s;
      assert e.echo + [s[0]] + s[1..] == e.echo + s;
      assert e.line + Utf8(s[0]) + Encoded(s[1..]) == e.line + (Utf8(s[0]) + Encoded(s[1..]));
    }
  }

  /** Spaces before anything else of a line, and line feeds anywhere, leave no trace. */
  lemma {:induction false} Skipped(e: Editor, s: string)
    requires !e.done && forall c :: c in s ==> c == LF || (c == ' ' && e.ignoreSpace)
    ensures Typed(e, s) == e
    decreases |s|
  {
    if s != [] {
      assert s[0] in s && forall c :: c in s[1..] ==> c in s;
      Skipped(e, s[1..]);
    }
  }

  /** A delete takes the last byte of the line, and is echoed, if there is one. */
  lemma Deleted(e: Editor)
    requires !e.done
    ensures Typed(e, [DEL]) == if |e.line| == 0 then e else e.(line := e.line[..|e.line| - 1], echo := e.echo + [127 as char])
  {
    assert [DEL][1..] == [];
  }

  /** A carriage return submits the line, once, and starts a new one; the word DETACH hangs up, and a
      line that begins with the word kernel goes to the kernel, as do all after it. */
  lemma Returned(e: Editor)
    requires !e.done
    ensures var t := Typed(e, [13 as char]); var toKernel := e.kernelEnabled || Encoded("kernel") <= e.line;
      if e.line == Encoded("DETACH") then t == e.(done := true)
      else t == e.(line := [], ignoreSpace := true, echo := e.echo + [13 as char, 10 as char], kernelEnabled := toKernel,
        kernelOut := e.kernelOut + (if toKernel then [e.line] else []), deviceIn := e.deviceIn + if toKernel then [] else [e.line])
  {
    assert [CR][1..] == [];
    Words();
    hide Encoded;
  }

  lemma Words()
    ensures Encoded("kernel") == KERNEL && Encoded("DETACH") == DETACH
  {
    hide Encoded;
    AsciiEncoded("kernel");
    AsciiEncoded("DETACH");
  }

  lemma {:induction false} AsciiEncoded(s: string)
    requires forall c :: c in s ==> c < 128 as char
    ensures |Encoded(s)| == |s| && forall i :: 0 <= i < |s| ==> Encoded(s)[i] as int == s[i] as int
  {
    if s != [] {
      assert s[0] in s && Utf8(s[0]) == [s[0] as int] && forall c :: c in s[1..] ==> c in s;
      AsciiEncoded(s[1..]);
      assert Encoded(s) == [s[0] as int] + Encoded(s[1..]);
    }
  }

  /** A character is one to four bytes, by how large it is, of which all but the first carry six bits. */
  lemma Utf8Shape(c: char)
    ensures var b, n := Utf8(c), c as int;
      if n < 0x80 then b == [n]
      else if n < 0x800 then |b| == 2 && 192 <= b[0] < 224 && 128 <= b[1] < 192 && n == 64 * (b[0] as int - 192) + (b[1] as int - 128)
      else if n < 0x10000 then
        && |b| == 3 && 224 <= b[0] < 240 && 128 <= b[1] < 192 && 128 <= b[2] < 192
        && n == 4096 * (b[0] as int - 224) + 64 * (b[1] as int - 128) + (b[2] as int - 128)
      else
        && |b| == 4 && 240 <= b[0] < 248 && 128 <= b[1] < 192 && 128 <= b[2] < 192 && 128 <= b[3] < 192
        && n == 262144 * (b[0] as int - 240) + 4096 * (b[1] as int - 128) + 64 * (b[2] as int - 128) + (b[3] as int - 128)
  {
  }

  // ---- Lines ----

  /** The line that characters without a carriage return leave behind, and whether leading spaces
      are still being dropped. */
  function Line(line: Bytes, ignoreSpace: bool, s: string): (Bytes, bool)
    decreases |s|
  {
    if s == [] then (line, ignoreSpace)
    else if s[0] == LF || (s[0] == ' ' && ignoreSpace) then Line(line, ignoreSpace, s[1..])
    else if s[0] == DEL then Line(if line == [] then [] else line[..|line| - 1], ignoreSpace, s[1..])
    else Line(line + Utf8(s[0]), false, s[1..])
  }

  /** The pieces of the text that end in a carriage return, without it. */
  function Pieces(s: string): (r: seq<string>)
    decreases |s|
  {
    var k := FirstCR(s);
    if k == |s| then [] else [s[..k]] + Pieces(s[k + 1..])
  }

  function FirstCR(s: string): (k: nat)
    ensures k <= |s| && CR !in s[..k] && (k < |s| ==> s[k] == CR)
  {
    if s == [] || s[0] == CR then 0
    else
      var k := 1 + FirstCR(s[1..]);
      assert s[..k] == [s[0]] + s[1..][..k - 1];
      k
  }

  /** The edited lines, up to the first that hangs up. */
  function Lines(pieces: seq<string>): seq<Bytes> {
    if pieces == [] || Line([], true, pieces[0]).0 == DETACH then []
    else [Line([], true, pieces[0]).0] + Lines(pieces[1..])
  }

  predicate HangsUp(pieces: seq<string>) {
    pieces != [] && (Line([], true, pieces[0]).0 == DETACH || HangsUp(pieces[1..]))
  }

  /** How many lines go to the device: those before the first that starts with the kernel's name. */
  function ToDevice(lines: seq<Bytes>): (k: nat)
    ensures k <= |lines|
    ensures forall i :: 0 <= i < k ==> !(KERNEL <= lines[i])
    ensures k < |lines| ==> KERNEL <= lines[k]
  {
    if lines == [] || KERNEL <= lines[0] then 0 else 1 + ToDevice(lines[1..])
  }

  /** Between submissions nothing is queued and the line evolves by itself. */
  lemma {:induction false} TypedLine(e: Editor, s: string)
    requires CR !in s && !e.done
    ensures var t := Typed(e, s);
      && !t.done && t.kernelEnabled == e.kernelEnabled && t.kernelOut == e.kernelOut && t.deviceIn == e.deviceIn
      && (t.line, t.ignoreSpace) == Line(e.line, e.ignoreSpace, s)
    decreases |s|
  {
    if s != [] {
      assert s[0] in s;
      TypedLine(Edit(e, s[0]), s[1..]);
    }
  }

  /** An editor at the start of a line. */
  predicate AtStart(e: Editor) {
    e.line == [] && e.ignoreSpace && !e.done
  }

  /** From e to t the lines were submitted once each, in order: the first ones to the device, as
      long as the kernel is off, and all from the first kernel line on to the kernel. */
  predicate Delivered(e: Editor, t: Editor, lines: seq<Bytes>) {
    var k := if e.kernelEnabled then 0 else ToDevice(lines);
    && t.deviceIn == e.deviceIn + lines[..k]
    && t.kernelOut == e.kernelOut + lines[k..]
    && (t.kernelEnabled <==> e.kernelEnabled || k < |lines|)
  }

  /** Every carriage return before the hang-up submits exactly one line, in order. */
  lemma {:induction false} EachReturnSubmitsOnce(e: Editor, s: string)
    requires AtStart(e)
    ensures Delivered(e, Typed(e, s), Lines(Pieces(s)))
    ensures Typed(e, s).done <==> HangsUp(Pieces(s))
    decreases |s|
  {
    hide Typed, ToDevice, Line, Delivered, FirstCR, Pieces, Lines, HangsUp;
    var k := FirstCR(s);
    if k == |s| {
      NoPieces(s);
      TypedLine(e, s);
      NothingDelivered(e, Typed(e, s));
    } else {
      var u := Typed(e, s[..k]);
      TypedLine(e, s[..k]);
      FirstPiece(e, s);
      if u.line == DETACH {
        TypedDone(Submit(u), s[k + 1..]);
        NothingDelivered(e, Typed(e, s));
      } else {
        EachReturnSubmitsOnce(Submit(u), s[k + 1..]);
        Routed(e, u, Typed(e, s), Lines(Pieces(s[k + 1..])));
      }
    }
  }

  lemma NothingDelivered(e: Editor, t: Editor)
    requires t.deviceIn == e.deviceIn && t.kernelOut == e.kernelOut && t.kernelEnabled == e.kernelEnabled
    ensures Delivered(e, t, [])
  {
  }

  lemma TypedDone(e: Editor, s: string)
    requires e.done
    ensures Typed(e, s) == e
  {
  }

  /** The first line of the text, and what is left after it. */
  lemma FirstPiece(e: Editor, s: string)
    requires AtStart(e) && FirstCR(s) < |s|
    ensures var k := FirstCR(s);
      var u := Typed(e, s[..k]);
      var rest := Pieces(s[k + 1..]);
      && Typed(e, s) == Typed(Submit(u), s[k + 1..])
      && Lines(Pieces(s)) == (if u.line == DETACH then [] else [u.line] + Lines(rest))
      && (HangsUp(Pieces(s)) <==> u.line == DETACH || HangsUp(rest))
  {
    assert e.line == [] && e.ignoreSpace && !e.done;
    hide *;
    var k := FirstCR(s);
    TypedLine(e, s[..k]);
    TypedSplit(e, s, k);
    PiecesCons(s);
    LinesCons(s[..k], Pieces(s[k + 1..]));
  }

  lemma PiecesCons(s: string)
    requires FirstCR(s) < |s|
    ensures Pieces(s) == [s[..FirstCR(s)]] + Pieces(s[FirstCR(s) + 1..])
  {
  }

  lemma NoPieces(s: string)
    requires FirstCR(s) == |s|
    ensures CR !in s && Lines(Pieces(s)) == [] && !HangsUp(Pieces(s))
  {
    assert s[..|s|] == s;
    hide FirstCR;
  }

  lemma TypedSplit(e: Editor, s: string, k: nat)
    requires k < |s| && s[k] == CR && !Typed(e, s[..k]).done
    ensures Typed(e, s) == Typed(Submit(Typed(e, s[..k])), s[k + 1..])
  {
    TypedConcat(e, s[..k], s[k..]);
    assert s == s[..k] + s[k..] && s[k..][0] == CR && s[k..][1..] == s[k + 1..];
  }

  lemma LinesCons(piece: string, rest: seq<string>)
    ensures var l := Line([], true, piece).0;
      && Lines([piece] + rest) == (if l == DETACH then [] else [l] + Lines(rest))
      && (HangsUp([piece] + rest) <==> l == DETACH || HangsUp(rest))
  {
    hide Line;
    assert ([piece] + rest)[1..] == rest;
  }

  /** One more line in front of those already routed. */
  lemma Routed(e: Editor, u: Editor, t: Editor, rest: seq<Bytes>)
    requires u.deviceIn == e.deviceIn && u.kernelOut == e.kernelOut && u.kernelEnabled == e.kernelEnabled
    requires u.line != DETACH && Delivered(Submit(u), t, rest)
    ensures Delivered(e, t, [u.line] + rest)
  {
    var lines := [u.line] + rest;
    assert lines[1..] == rest;
    if u.kernelEnabled || KERNEL <= u.line {
      assert rest[..0] == [] && rest[0..] == rest;
      assert u.kernelOut + [u.line] + rest == u.kernelOut + lines;
      assert lines[..0] == [] && lines[0..] == lines;
    } else {
      var j := ToDevice(rest);
      assert ToDevice(lines) == 1 + j;
      assert lines[..1 + j] == [u.line] + rest[..j] && lines[1 + j..] == rest[j..];
      assert u.deviceIn + [u.line] + rest[..j] == u.deviceIn + lines[..1 + j];
    }
  }

  // ---- Backspace ----

  function Repeat(c: char, n: nat): string {
    if n == 0 then [] else [c] + Repeat(c, n - 1)
  }

  lemma {:induction false} DeletesBytes(line: Bytes, tail: Bytes, ignoreSpace: bool)
    ensures Line(line + tail, ignoreSpace, Repeat(DEL, |tail|)) == (line, ignoreSpace)
    decreases |tail|
  {
    if tail == [] {
      assert line + tail == line;
    } else {
      var rest := tail[..|tail| - 1];
      assert (line + tail)[..|line + tail| - 1] == line + rest;
      assert Repeat(DEL, |tail|)[1..] == Repeat(DEL, |rest|);
      DeletesBytes(line, rest, ignoreSpace);
    }
  }

  /** A backspace takes back one byte, so it undoes a typed character exactly when that is ASCII;
      as many backspaces as the character has bytes always do. */
  lemma BackspaceUndoes(line: Bytes, c: char)
    requires c != CR && c != LF && c != DEL
    ensures Line(line, false, [c] + Repeat(DEL, |Utf8(c)|)) == (line, false)
    ensures Line(line, false, [c, DEL]).0 == line <==> c as int < 128
  {
    DeletesBytes(line, Utf8(c), false);
    assert ([c] + Repeat(DEL, |Utf8(c)|))[1..] == Repeat(DEL, |Utf8(c)|);
    var longer := line + Utf8(c);
    assert [c, DEL][1..] == [DEL] && [DEL][1..] == [];
    assert Line(line, false, [c, DEL]) == Line(longer, false, [DEL]) == Line(longer[..|longer| - 1], false, []);
    if c as int < 128 { assert longer[..|longer| - 1] == line; }
  }
}

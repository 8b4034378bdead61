/**
 * Keys of files and devices (src/util/util.py, src/core/File.py): four user bytes and four name
 * bytes, with the kind of the key in the two highest bits of the last byte.
 */
module Keys {
  import opened Metric
  import opened Wrappers

  // ---- Bitwise operations on bytes ----

  function BitAnd(x: nat, y: nat, w: nat): (r: nat)
    ensures r < Pow2(w)
  {
    if w == 0 then 0 else (if x % 2 == 1 && y % 2 == 1 then 1 else 0) + 2 * BitAnd(x / 2, y / 2, w - 1)
  }

  function BitOr(x: nat, y: nat, w: nat): (r: nat)
    ensures r < Pow2(w)
  {
    if w == 0 then 0 else (if x % 2 == 1 || y % 2 == 1 then 1 else 0) + 2 * BitOr(x / 2, y / 2, w - 1)
  }

  function And(x: Byte, y: Byte): Byte {
    assert Pow2(8) == 256;
    BitAnd(x, y, 8)
  }

  function Or(x: Byte, y: Byte): Byte {
    assert Pow2(8) == 256;
    BitOr(x, y, 8)
  }

  /** and_bytes and or_bytes, on strings of one length. */
  function AndBytes(a: Bytes, b: Bytes): (r: Bytes)
    requires |a| == |b|
    ensures |r| == |a|
  {
    seq(|a|, i requires 0 <= i < |a| => And(a[i], b[i]))
  }

  function OrBytes(a: Bytes, b: Bytes): (r: Bytes)
    requires |a| == |b|
    ensures |r| == |a|
  {
    seq(|a|, i requires 0 <= i < |a| => Or(a[i], b[i]))
  }

  function NotBytes(a: Bytes): (r: Bytes)
    ensures |r| == |a|
  {
    seq(|a|, i requires 0 <= i < |a| => 255 - a[i])
  }

  /** One bit of a mask at a time. */
  lemma AndBit(x: nat, y: nat, w: nat)
    ensures BitAnd(x, 2 * y + 1, w + 1) == x % 2 + 2 * BitAnd(x / 2, y, w)
    ensures BitAnd(x, 2 * y, w + 1) == 2 * BitAnd(x / 2, y, w)
  {
    assert (2 * y + 1) / 2 == y && (2 * y) / 2 == y;
  }

  lemma OrBit(m: nat, x: nat, w: nat)
    ensures BitOr(2 * m, x, w + 1) == x % 2 + 2 * BitOr(m, x / 2, w)
  {
  }

  /** Halving a remainder and a quotient. */
  lemma Halving(x: nat, k: nat)
    requires k > 0
    ensures x % (2 * k) == x % 2 + 2 * (x / 2 % k) && x / (2 * k) == x / 2 / k
  {
    var q, r := x / 2 / k, x / 2 % k;
    assert x / 2 == q * k + r;
    assert q * (2 * k) == 2 * (q * k);
    DivisionUnique(x, 2 * k, q, 2 * r + x % 2);
  }

  lemma DivisionUnique(x: nat, m: nat, q: nat, r: nat)
    requires r < m && x == q * m + r
    ensures x / m == q && x % m == r
  {
    var d := q - x / m;
    assert d * m == x % m - r;
    Multiple(d, m);
  }

  lemma Multiple(d: int, m: nat)
    ensures d > 0 ==> d * m >= m
    ensures d < 0 ==> d * m <= -1 * m
  {
  }

  /** A mask of j ones takes the remainder. */
  lemma {:induction false} AndLow(x: nat, j: nat, w: nat)
    requires j <= w
    ensures Pow2(j) > 0 && BitAnd(x, Pow2(j) - 1, w) == x % Pow2(j)
  {
    hide BitAnd;
    if j == 0 {
      AndNone(x, w);
    } else {
      AndLow(x / 2, j - 1, w - 1);
      AndBit(x, Pow2(j - 1) - 1, w - 1);
      Halving(x, Pow2(j - 1));
    }
  }

  lemma {:induction false} AndNone(x: nat, w: nat)
    ensures BitAnd(x, 0, w) == 0
  {
    if w > 0 { AndNone(x / 2, w - 1); }
  }

  /** A mask and its complement share out the bits. */
  lemma {:induction false} AndComplement(x: nat, a: nat, w: nat)
    requires x < Pow2(w) && a < Pow2(w)
    ensures BitAnd(x, a, w) + BitAnd(x, Pow2(w) - 1 - a, w) == x
  {
    if w > 0 {
      AndComplement(x / 2, a / 2, w - 1);
      Complement(a, Pow2(w - 1));
    }
  }

  lemma Complement(a: nat, p: nat)
    requires a < 2 * p
    ensures var c := 2 * p - 1 - a; c % 2 == 1 - a % 2 && c / 2 == p - 1 - a / 2
  {
  }

  function Shifted(m: nat, j: nat): nat {
    if j == 0 then m else 2 * Shifted(m, j - 1)
  }

  /** Or-ing high bits onto low ones is a sum. */
  lemma {:induction false} OrHigh(m: nat, x: nat, j: nat, w: nat)
    requires m < Pow2(w) && x < Pow2(j)
    ensures BitOr(Shifted(m, j), x, w + j) == Shifted(m, j) + x
  {
    hide BitOr;
    if j == 0 {
      OrRight(m, w);
    } else {
      OrHigh(m, x / 2, j - 1, w);
      OrBit(Shifted(m, j - 1), x, w + j - 1);
    }
  }

  lemma {:induction false} OrRight(m: nat, w: nat)
    requires m < Pow2(w)
    ensures BitOr(m, 0, w) == m
  {
    if w > 0 { OrRight(m / 2, w - 1); }
  }

  /** The masks of the key format, read as arithmetic. */
  lemma AndModeMask(x: Byte)
    ensures And(x, 0x3f) == x % 64
  {
    hide BitAnd;
    assert Pow2(6) == 64;
    AndLow(x, 6, 8);
  }

  lemma AndModeBits(x: Byte)
    ensures And(x, 0xc0) == x / 64 * 64
  {
    hide BitAnd;
    assert Pow2(8) == 256;
    AndComplement(x, 0x3f, 8);
    AndModeMask(x);
  }

  lemma OrMode(x: Byte, m: nat)
    requires x < 64 && m < 4
    ensures Or(64 * m, x) == 64 * m + x
  {
    hide BitOr;
    assert Pow2(6) == 64 && Pow2(2) == 4;
    assert Shifted(m, 3) == 8 * m && Shifted(m, 6) == 64 * m;
    OrHigh(m, x, 6, 2);
  }

  // ---- Names ----

  /** Characters of user-visible names; others than ASCII are not part of this model. */
  type Ascii = c: char | c as int < 128 witness 'a'
  type Name = seq<Ascii>

  function Upper(c: Ascii): Ascii {
    if 'a' <= c <= 'z' then (c as int - 32) as char else c
  }

  /** The letters and slashes of a name, upper-cased; the rest is dropped. */
  function Normal(s: Name): Name {
    if s == [] then []
    else
      var c := Upper(s[0]);
      (if c == '/' || 'A' <= c <= 'Z' then [c] else []) + Normal(s[1..])
  }

  function Code(c: Ascii): nat
    requires c == '/' || 'A' <= c <= 'Z'
  {
    if c == '/' then 1 else c as int - 65 + 2
  }

  function Codes(s: Name): (r: seq<nat>)
    ensures |r| <= |s| && forall k :: 0 <= k < |r| ==> 0 < r[k] < 28
  {
    if s == [] then []
    else
      var c := Upper(s[0]);
      (if c == '/' || 'A' <= c <= 'Z' then [Code(c)] else []) + Codes(s[1..])
  }

  /** Base 28, least digit first. */
  function Number(d: seq<nat>): nat {
    if d == [] then 0 else d[0] + 28 * Number(d[1..])
  }

  function Pow28(n: nat): nat {
    if n == 0 then 1 else 28 * Pow28(n - 1)
  }

  function Digits(n: nat, k: nat): seq<nat> {
    if k == 0 then [] else [n % 28] + Digits(n / 28, k - 1)
  }

  /** to_bytes and from_bytes for k little-endian bytes. */
  function Little(n: nat, k: nat): (r: Bytes)
    ensures |r| == k
  {
    if k == 0 then [] else [n % 256] + Little(n / 256, k - 1)
  }

  function FromLittle(b: Bytes): nat {
    if b == [] then 0 else b[0] + 256 * FromLittle(b[1..])
  }

  /** The same for big-endian bytes. */
  function Big(n: nat, k: nat): (r: Bytes)
    ensures |r| == k
  {
    if k == 0 then [] else Big(n / 256, k - 1) + [n % 256]
  }

  function FromBig(b: Bytes): nat {
    if b == [] then 0 else 256 * FromBig(b[..|b| - 1]) + b[|b| - 1]
  }

  function Pow256(k: nat): nat {
    if k == 0 then 1 else 256 * Pow256(k - 1)
  }

  lemma {:induction false} NumberBound(d: seq<nat>)
    requires forall k :: 0 <= k < |d| ==> d[k] < 28
    ensures Number(d) < Pow28(|d|)
  {
    if d != [] { NumberBound(d[1..]); }
  }

  lemma {:induction false} Pow28Grows(m: nat, n: nat)
    requires m <= n
    ensures Pow28(m) <= Pow28(n)
  {
    if m < n { Pow28Grows(m, n - 1); }
  }

  /** A six-character name stays clear of the two mode bits. */
  lemma {:induction false} NameFits(s: Name)
    requires |s| <= 6
    ensures Number(Codes(s)) < Pow28(6) < 0x2000_0000
  {
    NumberBound(Codes(s));
    Pow28Grows(|Codes(s)|, 6);
    assert Pow28(6) == 481890304;
  }

  function Compressed(s: Name): (r: Result<Bytes>)
    ensures r.Success? ==> |r.value| == 4
  {
    if |s| > 6 then Failure else Success(Little(Number(Codes(s)), 4))
  }

  // ---- Codes in terms of characters ----

  /** What a character adds to a code: letters count from 2, in either case, a slash is 1, and all else
      nothing. */
  function Worth(c: Ascii): nat {
    if 'A' <= c <= 'Z' then c as int - 63 else if 'a' <= c <= 'z' then c as int - 95 else if c == '/' then 1 else 0
  }

  /** The name of one character. */
  lemma OneCharacter(c: Ascii)
    ensures Compressed([c]) == Success([Worth(c), 0, 0, 0])
  {
    assert [c][1..] == [];
    var n := Worth(c);
    assert n < 256 && Number(Codes([c])) == n;
    hide Number, Codes;
    NoBytes();
    OneByte(n);
    hide Little;
    assert [n] + [0, 0, 0] == [n, 0, 0, 0];
  }

  lemma NoBytes()
    ensures Little(0, 3) == [0, 0, 0]
  {
    assert Little(0, 1) == [0];
  }

  lemma OneByte(n: nat)
    requires n < 256
    ensures Little(n, 4) == [n] + Little(0, 3)
  {
    assert n / 256 == 0 && n % 256 == n;
  }

  /** The number that four bytes hold, the lowest first. */
  function Held(b: Bytes): nat
    requires |b| == 4
  {
    var b0: nat, b1: nat, b2: nat, b3: nat := b[0], b[1], b[2], b[3];
    b0 + 256 * b1 + 65536 * b2 + 16777216 * b3
  }

  lemma NumberConcat(a: seq<nat>, b: seq<nat>)
    ensures Number(a + b) == Number(a) + Pow28(|a|) * Number(b)
  {
    if a == [] {
      assert a + b == b;
    } else {
      assert (a + b)[1..] == a[1..] + b;
      NumberConcat(a[1..], b);
      Regroup(a[0], Number(a[1..]), Pow28(|a| - 1), Number(b));
    }
  }

  lemma Regroup(d: nat, x: nat, p: nat, y: nat)
    ensures d + 28 * (x + p * y) == (d + 28 * x) + 28 * p * y
  {
  }

  lemma {:induction false} CodesConcat(s: Name, t: Name)
    ensures Codes(s + t) == Codes(s) + Codes(t)
  {
    if s == [] {
      assert s + t == t;
    } else {
      assert (s + t)[1..] == s[1..] + t;
      CodesConcat(s[1..], t);
    }
  }

  lemma HeldIs(b: Bytes)
    requires |b| == 4
    ensures FromLittle(b) == Held(b)
  {
    assert b[1..][0] == b[1] && b[1..][1..] == b[2..] && b[2..][0] == b[2] && b[2..][1..] == b[3..] && b[3..][0] == b[3] && b[3..][1..] == [];
    assert FromLittle(b[3..]) == b[3] && FromLittle(b[2..]) == b[2] + 256 * FromLittle(b[3..]);
  }

  lemma FourHeld(n: nat)
    requires n < 0x1_0000_0000
    ensures Held(Little(n, 4)) == n
  {
    FourBytes();
    LittleRoundTrip(n, 4);
    HeldIs(Little(n, 4));
  }

  /** One more character that counts adds its worth times the power of 28 of those before it. */
  lemma OneMoreCharacter(s: Name, c: Ascii)
    requires |s| < 6
    ensures Compressed(s).Success? && Compressed(s + [c]).Success?
    ensures Held(Compressed(s + [c]).value) == Held(Compressed(s).value) + Pow28(|Normal(s)|) * Worth(c)
  {
    NameFits(s);
    NameFits(s + [c]);
    FourHeld(Number(Codes(s)));
    FourHeld(Number(Codes(s + [c])));
    CodesConcat(s, [c]);
    NumberConcat(Codes(s), Codes([c]));
    CodesCount(s);
    assert [c][1..] == [];
    assert Number(Codes([c])) == Worth(c);
  }

  lemma {:induction false} CodesCount(s: Name)
    ensures |Codes(s)| == |Normal(s)|
  {
    if s != [] { CodesCount(s[1..]); }
  }

  function Blanks(z: nat): (r: seq<nat>)
    ensures |r| == z && forall k :: 0 <= k < z ==> r[k] == 0
  {
    seq(z, i => 0)
  }

  function Letters(d: seq<nat>): Name
    requires forall k :: 0 <= k < |d| ==> d[k] < 28
  {
    if d == [] then [] else Letter(d[0]) + Letters(d[1..])
  }

  /** What a base-28 digit stands for: nothing, a slash, or a letter. */
  function Letter(x: nat): Name
    requires x < 28
  {
    if x == 0 then [] else if x == 1 then ['/'] else [(x - 2 + 65) as char]
  }

  lemma {:induction false} DigitsSmall(n: nat, k: nat)
    ensures |Digits(n, k)| == k && forall i :: 0 <= i < k ==> Digits(n, k)[i] < 28
  {
    if k > 0 { DigitsSmall(n / 28, k - 1); }
  }

  function Decompressed(b: Bytes): Name
    requires |b| == 4
  {
    DigitsSmall(FromLittle(b), 6);
    Letters(Digits(FromLittle(b), 6))
  }

  lemma {:induction false} LittleRoundTrip(n: nat, k: nat)
    requires n < Pow256(k)
    ensures FromLittle(Little(n, k)) == n
  {
    if k > 0 { LittleRoundTrip(n / 256, k - 1); }
  }

  lemma {:induction false} BigRoundTrip(n: nat, k: nat)
    requires n < Pow256(k)
    ensures FromBig(Big(n, k)) == n
  {
    if k > 0 {
      BigRoundTrip(n / 256, k - 1);
      assert Big(n, k)[..k - 1] == Big(n / 256, k - 1);
    }
  }

  lemma FourBytes()
    ensures Pow256(4) == 0x1_0000_0000
  {
    assert Pow256(2) == 65536;
  }

  /** Reading k digits back spells the codes and then blanks. */
  lemma {:induction false} DigitsSpell(d: seq<nat>, k: nat)
    requires |d| <= k && forall i :: 0 <= i < |d| ==> d[i] < 28
    ensures Digits(Number(d), k) == d + Blanks(k - |d|)
  {
    if k > 0 {
      if d == [] {
        DigitsSpell(d, k - 1);
      } else {
        DigitsSpell(d[1..], k - 1);
        assert Number(d) % 28 == d[0] && Number(d) / 28 == Number(d[1..]);
      }
    }
  }

  lemma CodeSpells(c: Ascii)
    requires c == '/' || 'A' <= c <= 'Z'
    ensures 0 < Code(c) < 28 && Letter(Code(c)) == [c]
  {
  }

  lemma {:induction false} LettersOfCodes(s: Name, z: nat)
    ensures Letters(Codes(s) + Blanks(z)) == Normal(s)
  {
    hide *;
    if s == [] {
      LettersOfBlanks(z);
      EmptyName();
      assert [] + Blanks(z) == Blanks(z);
    } else {
      var c := Upper(s[0]);
      LettersOfCodes(s[1..], z);
      CodesCons(s);
      NormalCons(s);
      if c == '/' || 'A' <= c <= 'Z' {
        CodeSpells(c);
        LettersCons(Code(c), Codes(s[1..]) + Blanks(z));
        Associative([Code(c)], Codes(s[1..]), Blanks(z));
      }
    }
  }

  lemma EmptyName()
    ensures Codes([]) == [] && Normal([]) == []
  {
  }

  lemma NormalCons(s: Name)
    requires s != []
    ensures var c := Upper(s[0]);
      Normal(s) == if c == '/' || 'A' <= c <= 'Z' then [c] + Normal(s[1..]) else Normal(s[1..])
  {
    hide Upper;
    assert [] + Normal(s[1..]) == Normal(s[1..]);
  }

  lemma LettersCons(x: nat, d: seq<nat>)
    requires x < 28 && forall k :: 0 <= k < |d| ==> d[k] < 28
    ensures Letters([x] + d) == Letter(x) + Letters(d)
  {
    assert ([x] + d)[1..] == d;
  }

  lemma {:induction false} LettersOfBlanks(z: nat)
    ensures Letters(Blanks(z)) == []
  {
    if z > 0 {
      assert Blanks(z)[1..] == Blanks(z - 1);
      LettersOfBlanks(z - 1);
    }
  }

  lemma DecompressedNumber(b: Bytes, n: nat)
    requires |b| == 4 && FromLittle(b) == n
    ensures |Digits(n, 6)| == 6 && (forall i :: 0 <= i < 6 ==> Digits(n, 6)[i] < 28) && Decompressed(b) == Letters(Digits(n, 6))
  {
    DigitsSmall(n, 6);
    hide Digits, Letters;
  }

  lemma CodeRoundTrip(s: Name)
    requires |s| <= 6
    ensures Decompressed(Little(Number(Codes(s)), 4)) == Normal(s)
  {
    hide *;
    NameFits(s);
    FourBytes();
    LittleRoundTrip(Number(Codes(s)), 4);
    DecompressedNumber(Little(Number(Codes(s)), 4), Number(Codes(s)));
    DigitsSpell(Codes(s), 6);
    LettersOfCodes(s, 6 - |Codes(s)|);
  }

  /** Decompressing undoes compressing, up to case and the characters compression drops. */
  lemma {:induction false} CodecRoundTrip(s: Name, c: Bytes)
    requires Compressed(s) == Success(c)
    ensures |s| <= 6 && Decompressed(c) == Normal(s)
  {
    hide Decompressed, Normal, Little, Number, Codes;
    assert |s| <= 6;
    var d := Little(Number(Codes(s)), 4);
    assert Compressed(s) == Success(d);
    hide Compressed;
    assert c == d;
    CodeRoundTrip(s);
  }

  method FilterName(s: Name) returns (filtered: seq<nat>)
    ensures filtered == Codes(s)
  {
    hide *;
    filtered := [];
    EmptyName();
    assert s[0..] == s && s[|s|..] == [];
    for k := 0 to |s|
      invariant filtered + Codes(s[k..]) == Codes(s)
    {
      var c := Upper(s[k]);
      CodesFrom(s, k);
      if c == '/' || 'A' <= c <= 'Z' {
        Associative(filtered, [Code(c)], Codes(s[k + 1..]));
        filtered := filtered + [Code(c)];
      }
    }
  }

  lemma CodesFrom(s: Name, k: nat)
    requires k < |s|
    ensures var c := Upper(s[k]);
      Codes(s[k..]) == if c == '/' || 'A' <= c <= 'Z' then [Code(c)] + Codes(s[k + 1..]) else Codes(s[k + 1..])
  {
    hide *;
    CodesCons(s[k..]);
    assert s[k..][1..] == s[k + 1..];
  }

  lemma Associative<T>(a: seq<T>, b: seq<T>, c: seq<T>)
    ensures a + b + c == a + (b + c)
  {
  }

  lemma CodesCons(s: Name)
    requires s != []
    ensures var c := Upper(s[0]);
      Codes(s) == if c == '/' || 'A' <= c <= 'Z' then [Code(c)] + Codes(s[1..]) else Codes(s[1..])
  {
    hide Code, Upper;
    if !(Upper(s[0]) == '/' || 'A' <= Upper(s[0]) <= 'Z') { assert [] + Codes(s[1..]) == Codes(s[1..]); }
  }

  method SumDigits(d: seq<nat>) returns (total: nat)
    ensures total == Number(d)
  {
    var weight, i := 1, 0;
    total := 0;
    while i < |d|
      invariant i <= |d| && weight == Pow28(i) && total == Number(d[..i])
    {
      NumberSnoc(d[..i], d[i]);
      assert d[..i] + [d[i]] == d[..i + 1];
      total := total + weight * d[i];
      weight := weight * 28;
      i := i + 1;
    }
    assert d[..|d|] == d;
  }

  /** compress_str_to_bytes. */
  method CompressStrToBytes(s: Name) returns (r: Result<Bytes>)
    ensures r == Compressed(s)
  {
    if |s| > 6 { return Failure; }
    var filtered := FilterName(s);
    while |filtered| < 6
      invariant |Codes(s)| <= |filtered| <= 6 && filtered == Codes(s) + Blanks(|filtered| - |Codes(s)|)
    {
      filtered := filtered + [0];
    }
    NumberOfPadded(Codes(s), |filtered| - |Codes(s)|);
    var total := SumDigits(filtered);
    return Success(Little(total, 4));
  }

  lemma {:induction false} NumberSnoc(d: seq<nat>, x: nat)
    ensures Number(d + [x]) == Number(d) + Pow28(|d|) * x
  {
    if d != [] {
      NumberSnoc(d[1..], x);
      NumberHead(d);
      NumberHead(d + [x]);
      assert (d + [x])[1..] == d[1..] + [x] && (d + [x])[0] == d[0];
      hide Number;
      Scaled(Pow28(|d| - 1), x);
    }
  }

  lemma NumberHead(d: seq<nat>)
    requires d != []
    ensures Number(d) == d[0] + 28 * Number(d[1..])
  {
  }

  lemma Scaled(p: nat, x: nat)
    ensures 28 * (p * x) == 28 * p * x
  {
  }

  lemma {:induction false} NumberOfPadded(d: seq<nat>, z: nat)
    ensures Number(d + Blanks(z)) == Number(d)
  {
    if z > 0 {
      assert d + Blanks(z) == d + Blanks(z - 1) + [0];
      NumberSnoc(d + Blanks(z - 1), 0);
      NumberOfPadded(d, z - 1);
    } else {
      assert d + Blanks(0) == d;
    }
  }

  method SpellTokens(tokens: seq<nat>) returns (out: Name)
    requires forall k :: 0 <= k < |tokens| ==> tokens[k] < 28
    ensures out == Letters(tokens)
  {
    hide *;
    out := [];
    assert tokens[0..] == tokens && tokens[|tokens|..] == [];
    NoLetters();
    for i := 0 to |tokens|
      invariant out + Letters(tokens[i..]) == Letters(tokens)
    {
      LettersFrom(tokens, i);
      var part := SpellToken(tokens[i]);
      Associative(out, part, Letters(tokens[i + 1..]));
      out := out + part;
    }
  }

  lemma NoLetters()
    ensures Letters([]) == []
  {
  }

  lemma LettersFrom(tokens: seq<nat>, i: nat)
    requires i < |tokens| && forall k :: 0 <= k < |tokens| ==> tokens[k] < 28
    ensures Letters(tokens[i..]) == Letter(tokens[i]) + Letters(tokens[i + 1..])
  {
    hide *;
    LettersCons(tokens[i], tokens[i + 1..]);
    assert tokens[i..] == [tokens[i]] + tokens[i + 1..];
  }

  method SpellToken(token: nat) returns (part: Name)
    requires token < 28
    ensures part == Letter(token)
  {
    if token == 0 { return []; }
    if token == 1 { return ['/']; }
    return [(token - 2 + 65) as char];
  }

  method TakeDigits(n: nat, k: nat) returns (tokens: seq<nat>)
    ensures tokens == Digits(n, k)
  {
    var total := n;
    tokens := [];
    for c := 0 to k
      invariant tokens + Digits(total, k - c) == Digits(n, k)
    {
      tokens := tokens + [total % 28];
      total := total / 28;
    }
  }

  /** decompress_bytes_to_str. */
  method DecompressBytesToStr(b: Bytes) returns (out: Name)
    requires |b| == 4
    ensures out == Decompressed(b)
  {
    var tokens := TakeDigits(FromLittle(b), 6);
    DigitsSmall(FromLittle(b), 6);
    out := SpellTokens(tokens);
  }

  // ---- Hosted files and devices ----

  datatype Kind = FileKind | DeviceKind

  datatype Hosted = Hosted(user: Bytes, name: Bytes, kind: Kind)

  function Stripped(path: Name): Name
    requires path != []
  {
    if path[0] == '/' then path[1..] else path
  }

  /** HostedFile for a file path; it fails on an empty path and on a long name. */
  function NewFile(user: Bytes, path: Name): Result<Hosted> {
    if path == [] || Compressed(Stripped(path)).Failure? then Failure
    else Success(Hosted(user, Compressed(Stripped(path)).value, FileKind))
  }

  /** HostedFile for the path of a numbered teletype; the number must fit four bytes. */
  function NewDevice(user: Bytes, number: nat): Result<Hosted> {
    if number >= 0x1_0000_0000 then Failure else Success(Hosted(user, Big(number, 4), DeviceKind))
  }

  /** One leading slash of a path does not count. */
  lemma SlashDropped(user: Bytes, path: Name)
    requires path != []
    ensures path[0] != '/' ==> NewFile(user, ['/'] + path) == NewFile(user, path)
    ensures path[0] != '/' ==> NewFile(user, path) == if |path| > 6 then Failure else Success(Hosted(user, Compressed(path).value, FileKind))
    ensures path[0] == '/' ==> NewFile(user, path) == if |path| > 7 then Failure else Success(Hosted(user, Compressed(path[1..]).value, FileKind))
    ensures NewFile(user, []) == Failure
  {
    assert (['/'] + path)[1..] == path;
  }

  const MODE_MASK: Bytes := [0xff, 0xff, 0xff, 0xff, 0xff, 0xff, 0xff, 0x3f]

  function ModeBin(k: Kind): Bytes {
    if k == FileKind then [0, 0, 0, 0, 0, 0, 0, 0x80] else [0, 0, 0, 0, 0, 0, 0, 0xc0]
  }

  /** get_key; a user id and name that do not make eight bytes fail the length assertion. */
  function GetKey(h: Hosted): (r: Result<Bytes>)
    ensures r.Success? ==> |r.value| == 8
  {
    if |h.user + h.name| != 8 then Failure
    else Success(OrBytes(ModeBin(h.kind), AndBytes(h.user + h.name, MODE_MASK)))
  }

  /** from_key; keys of other kinds are invalid. */
  function FromKey(key: Bytes): Result<Hosted>
    requires |key| == 8
  {
    var mode := AndBytes(key, NotBytes(MODE_MASK))[7];
    var nameBin := AndBytes(key, MODE_MASK);
    if mode == 0x80 then NewFile(key[0..4], Decompressed(nameBin[4..]))
    else if mode == 0xc0 then NewDevice(key[0..4], FromBig(nameBin[4..]))
    else Failure
  }

  function ModeBits(k: Kind): nat { if k == FileKind then 128 else 192 }

  lemma AndAll(x: Byte)
    ensures And(x, 0xff) == x
  {
    hide BitAnd;
    assert Pow2(8) == 256;
    AndLow(x, 8, 8);
  }

  lemma OrZero(x: Byte)
    ensures Or(0, x) == x
  {
    hide BitOr;
    assert Pow2(8) == 256 && Pow2(0) == 1;
    assert Shifted(0, 4) == 0 && Shifted(0, 8) == 0;
    OrHigh(0, x, 8, 0);
  }

  /** A key is user and name, with the mode bits of the kind in place of the name's two highest bits. */
  lemma KeyBytes(h: Hosted)
    requires |h.user| == 4 && |h.name| == 4
    ensures GetKey(h) == Success(h.user + h.name[..3] + [h.name[3] % 64 + ModeBits(h.kind)])
  {
    var all := h.user + h.name;
    var masked := AndBytes(all, MODE_MASK);
    hide And, Or;
    forall i | 0 <= i < 7 ensures masked[i] == all[i] { AndAll(all[i]); }
    AndModeMask(all[7]);
    var k := GetKey(h).value;
    forall i | 0 <= i < 7 ensures k[i] == all[i] { OrZero(masked[i]); }
    OrMode(masked[7], if h.kind == FileKind then 2 else 3);
    assert k == h.user + h.name[..3] + [h.name[3] % 64 + ModeBits(h.kind)];
  }

  lemma ReadMode(key: Bytes, low: Byte, kind: Kind)
    requires |key| == 8 && low < 64 && key[7] == low + ModeBits(kind)
    ensures AndBytes(key, NotBytes(MODE_MASK))[7] == ModeBits(kind)
  {
    hide And;
    AndModeBits(key[7]);
    assert AndBytes(key, NotBytes(MODE_MASK))[7] == And(key[7], 0xc0);
  }

  lemma ReadName(key: Bytes, low: Byte, kind: Kind)
    requires |key| == 8 && low < 64 && key[7] == low + ModeBits(kind)
    ensures AndBytes(key, MODE_MASK)[4..] == key[4..7] + [low]
  {
    hide And;
    AndModeMask(key[7]);
    AndAll(key[4]);
    AndAll(key[5]);
    AndAll(key[6]);
    var r := AndBytes(key, MODE_MASK);
    assert r[4] == key[4] && r[5] == key[5] && r[6] == key[6] && r[7] == low;
  }

  /** Reading a key back: the kind, the user, and the name without its mode bits. */
  lemma {:induction false} KeyRead(user: Bytes, name: Bytes, low: Byte, kind: Kind)
    requires |user| == 4 && |name| == 3 && low < 64
    ensures var key := user + name + [low + ModeBits(kind)];
      FromKey(key) == if kind == FileKind then NewFile(user, Decompressed(name + [low])) else NewDevice(user, FromBig(name + [low]))
  {
    var key := user + name + [low + ModeBits(kind)];
    ReadMode(key, low, kind);
    ReadName(key, low, kind);
    hide AndBytes, NotBytes, NewFile, NewDevice, Decompressed, FromBig;
    assert key[0..4] == user && key[4..7] == name;
  }

  // ---- File keys ----

  lemma {:induction false} NormalTwice(s: Name)
    ensures Normal(Normal(s)) == Normal(s) && Codes(Normal(s)) == Codes(s) && |Normal(s)| <= |s|
    ensures forall k :: 0 <= k < |Normal(s)| ==> Normal(s)[k] == '/' || 'A' <= Normal(s)[k] <= 'Z'
  {
    if s != [] {
      NormalTwice(s[1..]);
      var c := Upper(s[0]);
      if c == '/' || 'A' <= c <= 'Z' {
        assert Normal(s) == [c] + Normal(s[1..]) && Normal(s)[1..] == Normal(s[1..]);
      } else {
        assert Normal(s) == Normal(s[1..]);
      }
    }
  }

  lemma LittleLast(n: nat)
    requires n < 0x4000_0000
    ensures Little(n, 4)[3] < 64
  {
    var n1 := n / 256; var n2 := n1 / 256; var n3 := n2 / 256;
    assert Little(n2, 2) == [n2 % 256] + Little(n3, 1);
    assert Little(n, 4)[3] == Little(n1, 3)[2] == Little(n2, 2)[1] == n3 % 256;
  }

  function Lower(c: Ascii): Ascii {
    if 'A' <= c <= 'Z' then (c as int + 32) as char else c
  }

  function Lowered(s: Name): Name {
    if s == [] then [] else [Lower(s[0])] + Lowered(s[1..])
  }

  /** Names are taken without regard to case. */
  lemma {:induction false} CaseIgnored(s: Name)
    ensures Normal(Lowered(s)) == Normal(s) && Codes(Lowered(s)) == Codes(s)
  {
    if s != [] {
      assert Lowered(s)[0] == Lower(s[0]) && Lowered(s)[1..] == Lowered(s[1..]);
      assert Upper(Lower(s[0])) == Upper(s[0]);
      CaseIgnored(s[1..]);
    }
  }

  /** The name bytes of a file leave the mode bits alone. */
  lemma FileNameLow(s: Name)
    requires |s| <= 6
    ensures Compressed(s).value[3] < 64
  {
    NameFits(s);
    LittleLast(Number(Codes(s)));
  }

  /** Compressed names are equal exactly when the normal names are. */
  lemma {:induction false} CompressedEqual(s: Name, t: Name)
    requires |s| <= 6 && |t| <= 6
    ensures Compressed(s) == Compressed(t) <==> Normal(s) == Normal(t)
  {
    CodecRoundTrip(s, Compressed(s).value);
    CodecRoundTrip(t, Compressed(t).value);
    NormalTwice(s);
    NormalTwice(t);
  }

  lemma FileKey(user: Bytes, path: Name, f: Hosted)
    requires |user| == 4 && NewFile(user, path) == Success(f)
    ensures |f.name| == 4 && f.name[3] < 64 && Success(f.name) == Compressed(Stripped(path))
    ensures GetKey(f) == Success(user + f.name[..3] + [f.name[3] + 128])
  {
    FileNameLow(Stripped(path));
    KeyBytes(f);
  }

  /** Two files share a key exactly when they have the same user and the same normal name. */
  lemma FileKeysEqual(user: Bytes, path: Name, f: Hosted, user2: Bytes, path2: Name, g: Hosted)
    requires |user| == |user2| == 4 && NewFile(user, path) == Success(f) && NewFile(user2, path2) == Success(g)
    ensures GetKey(f) == GetKey(g) <==> user == user2 && Normal(Stripped(path)) == Normal(Stripped(path2))
  {
    hide *;
    PathGiven(user, path, f);
    PathGiven(user2, path2, g);
    FileKey(user, path, f);
    FileKey(user2, path2, g);
    ShortNames(user, path, f);
    ShortNames(user2, path2, g);
    CompressedEqual(Stripped(path), Stripped(path2));
    KeySplit(user, f.name, 128, user2, g.name, 128);
  }

  lemma KeySplit(user: Bytes, c: Bytes, m: nat, user2: Bytes, d: Bytes, n: nat)
    requires |user| == |user2| == 4 && |c| == |d| == 4 && c[3] < 64 && d[3] < 64 && m <= 192 && n <= 192
    ensures var k, l := user + c[..3] + [c[3] + m], user2 + d[..3] + [d[3] + n];
      k == l <==> user == user2 && c[..3] == d[..3] && c[3] + m == d[3] + n
    ensures m == n ==> (c == d <==> c[..3] == d[..3] && c[3] == d[3])
  {
    var k, l := user + c[..3] + [c[3] + m], user2 + d[..3] + [d[3] + n];
    assert k[..4] == user && k[4..7] == c[..3] && k[7] == c[3] + m;
    assert l[..4] == user2 && l[4..7] == d[..3] && l[7] == d[3] + n;
    assert c == c[..3] + [c[3]] && d == d[..3] + [d[3]];
  }

  lemma FileBits()
    ensures ModeBits(FileKind) == 128
  {
  }

  lemma ReadBytes(user: Bytes, c: Bytes)
    requires |user| == |c| == 4 && c[3] < 64
    ensures FromKey(user + c[..3] + [c[3] + 128]) == NewFile(user, Decompressed(c))
  {
    hide *;
    FileBits();
    KeyRead(user, c[..3], c[3], FileKind);
    assert c[..3] + [c[3]] == c;
  }

  /** The key of a file is read back as the file of its normal name. */
  lemma ReadFileKey(user: Bytes, path: Name, f: Hosted, key: Bytes)
    requires |user| == 4 && NewFile(user, path) == Success(f) && GetKey(f) == Success(key)
    ensures FromKey(key) == NewFile(user, Normal(Stripped(path)))
  {
    hide *;
    PathGiven(user, path, f);
    FileKey(user, path, f);
    CodecRoundTrip(Stripped(path), f.name);
    ReadBytes(user, f.name);
  }

  lemma ShortNames(user: Bytes, path: Name, f: Hosted)
    requires NewFile(user, path) == Success(f)
    ensures path != [] && |Stripped(path)| <= 6
  {
  }

  lemma PathGiven(user: Bytes, path: Name, f: Hosted)
    requires NewFile(user, path) == Success(f)
    ensures path != []
  {
  }

  /** A file's key leads back to the same key exactly when its normal name is neither empty nor
      starts with a slash. */
  lemma FileKeyRoundTrip(user: Bytes, path: Name, f: Hosted, key: Bytes)
    requires |user| == 4 && NewFile(user, path) == Success(f) && GetKey(f) == Success(key)
    ensures var n := Normal(Stripped(path));
      (FromKey(key).Success? && GetKey(FromKey(key).value) == Success(key)) <==> n != [] && n[0] != '/'
  {
    ReadFileKey(user, path, f, key);
    var n := Normal(Stripped(path));
    if n == [] {
      assert NewFile(user, n).Failure?;
    } else {
      NormalTwice(Stripped(path));
      var g := NewFile(user, n).value;
      hide *;
      SameFile(user, n, g, path, f);
    }
  }

  /** For one: a name of digits has the empty normal form, and its key leads nowhere. */
  lemma DigitNameIsLost(user: Bytes)
    requires |user| == 4
    ensures NewFile(user, "7").Success? && GetKey(NewFile(user, "7").value).Success?
    ensures FromKey(GetKey(NewFile(user, "7").value).value).Failure?
  {
    var f := NewFile(user, "7").value;
    assert Stripped("7") == "7" && Normal("7") == [];
    hide *;
    PathGiven(user, "7", f);
    FileKey(user, "7", f);
    ReadFileKey(user, "7", f, GetKey(f).value);
    NoFileWithoutName(user);
  }

  lemma NoFileWithoutName(user: Bytes)
    ensures NewFile(user, []).Failure?
  {
  }

  lemma SameFile(user: Bytes, n: Name, g: Hosted, path: Name, f: Hosted)
    requires |user| == 4 && NewFile(user, path) == Success(f)
    requires n != [] && n == Normal(Stripped(path)) && NewFile(user, n) == Success(g)
    ensures GetKey(g) == GetKey(f) <==> n[0] != '/'
  {
    NormalTwice(Stripped(path));
    FileKeysEqual(user, n, g, user, path, f);
    NormalOfTail(n);
    hide Normal;
  }

  lemma NormalOfTail(n: Name)
    requires n != [] && Normal(n) == n && forall k :: 0 <= k < |n| ==> n[k] == '/' || 'A' <= n[k] <= 'Z'
    ensures Normal(n[1..]) == n[1..]
  {
  }

  // ---- Device keys ----

  lemma DeviceKey(user: Bytes, number: nat, d: Hosted)
    requires |user| == 4 && NewDevice(user, number) == Success(d)
    ensures GetKey(d) == Success(user + Big(number / 256, 3) + [number % 64 + 192])
  {
    assert d.name[..3] == Big(number / 256, 3);
    assert d.name[3] == number % 256;
    hide Big, GetKey;
    KeyBytes(d);
  }

  /** Two devices of one host share a key exactly when their numbers agree but for bits 6 and 7. */
  lemma DeviceKeysEqual(user: Bytes, a: nat, d: Hosted, b: nat, e: Hosted)
    requires |user| == 4 && NewDevice(user, a) == Success(d) && NewDevice(user, b) == Success(e)
    ensures GetKey(d) == GetKey(e) <==> a % 64 == b % 64 && a / 256 == b / 256
  {
    DeviceKey(user, a, d);
    DeviceKey(user, b, e);
    var x, y := Big(a / 256, 3) + [a % 64], Big(b / 256, 3) + [b % 64];
    assert x[..3] == Big(a / 256, 3) && y[..3] == Big(b / 256, 3);
    UpperBytes(a);
    UpperBytes(b);
    hide *;
    KeySplit(user, x, 192, user, y, 192);
  }

  lemma UpperBytes(n: nat)
    requires n < 0x1_0000_0000
    ensures FromBig(Big(n / 256, 3)) == n / 256
  {
    FourBytes();
    BigRoundTrip(n / 256, 3);
  }

  /** A device key gives the number back exactly when bits 6 and 7 of the number are clear. */
  lemma {:induction false} DeviceKeyRoundTrip(user: Bytes, number: nat, d: Hosted, key: Bytes)
    requires |user| == 4 && NewDevice(user, number) == Success(d) && GetKey(d) == Success(key)
    ensures FromKey(key) == NewDevice(user, number / 256 * 256 + number % 64)
    ensures FromKey(key) == Success(d) <==> number % 256 < 64
  {
    hide *;
    NumberFits(user, number, d);
    ClearBits(number);
    SameDevice(user, number, number / 256 * 256 + number % 64);
    DeviceKey(user, number, d);
    ReadDeviceBytes(user, Big(number / 256, 3), number % 64);
    ReadDevice(number);
  }

  lemma NumberFits(user: Bytes, number: nat, d: Hosted)
    requires NewDevice(user, number) == Success(d)
    ensures number < 0x1_0000_0000
  {
  }

  lemma ReadDeviceBytes(user: Bytes, high: Bytes, low: Byte)
    requires |user| == 4 && |high| == 3 && low < 64
    ensures FromKey(user + high + [low + 192]) == NewDevice(user, FromBig(high + [low]))
  {
    assert ModeBits(DeviceKind) == 192;
    hide *;
    KeyRead(user, high, low, DeviceKind);
  }

  lemma SameDevice(user: Bytes, a: nat, b: nat)
    requires a < 0x1_0000_0000 && b < 0x1_0000_0000
    ensures NewDevice(user, a) == NewDevice(user, b) <==> a == b
  {
    FourBytes();
    BigRoundTrip(a, 4);
    BigRoundTrip(b, 4);
  }

  lemma ReadDevice(number: nat)
    requires number < 0x1_0000_0000
    ensures FromBig(Big(number / 256, 3) + [number % 64]) == number / 256 * 256 + number % 64
  {
    UpperBytes(number);
    ReadNumber(Big(number / 256, 3), number % 64);
  }

  lemma ReadNumber(b: Bytes, low: Byte)
    ensures FromBig(b + [low]) == 256 * FromBig(b) + low
  {
    assert (b + [low])[..|b|] == b;
  }

  lemma ClearBits(n: nat)
    ensures n / 256 * 256 + n % 64 == n <==> n % 256 < 64
  {
    SixBits(n / 256, n % 256);
  }

  lemma SixBits(h: nat, l: nat)
    requires l < 256
    ensures (256 * h + l) % 64 == l % 64
  {
    Halving6(4 * h, l);
  }

  lemma Halving6(h: nat, l: nat)
    ensures (64 * h + l) % 64 == l % 64
  {
  }

  /** No file key is a device key. */
  lemma KindsDisjoint(f: Hosted, d: Hosted)
    requires f.kind == FileKind && d.kind == DeviceKind
    requires |f.user| == |f.name| == |d.user| == |d.name| == 4
    ensures GetKey(f) != GetKey(d)
  {
    KeyBytes(f);
    KeyBytes(d);
    assert GetKey(f).value[7] < 192 <= GetKey(d).value[7];
  }
}

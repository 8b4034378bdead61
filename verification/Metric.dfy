/** Byte strings and the XOR metric on addresses (src/util/util.py, src/core/DHT.py). */
module Metric {

  type Byte = x: nat | x < 256
  type Bytes = seq<Byte>

  function Pow2(n: nat): nat {
    if n == 0 then 1 else 2 * Pow2(n - 1)
  }

  /** Exclusive or of the w low bits of x and y. */
  function BitXor(x: nat, y: nat, w: nat): (r: nat)
    ensures r < Pow2(w)
  {
    if w == 0 then 0 else (x + y) % 2 + 2 * BitXor(x / 2, y / 2, w - 1)
  }

  function ByteXor(x: Byte, y: Byte): Byte {
    assert Pow2(8) == 256;
    BitXor(x, y, 8)
  }

  type Bytes8 = b: Bytes | |b| == 8 witness [0, 0, 0, 0, 0, 0, 0, 0]

  /** Peer addresses and table keys are eight bytes long. */
  datatype NodeId = NodeId(bytes: Bytes8)

  /** Big-endian left padding with zero bytes. */
  function PadBytes(b: Bytes, n: nat): (r: Bytes)
    ensures |r| == if |b| < n then n else |b|
    ensures r[|r| - |b|..] == b
    ensures forall i :: 0 <= i < |r| - |b| ==> r[i] == 0
  {
    if |b| < n then seq(n - |b|, i => 0) + b else b
  }

  /** Bytewise exclusive or of strings of one length. */
  function XorSame(x: Bytes, y: Bytes): (r: Bytes)
    requires |x| == |y|
    ensures |r| == |x|
    ensures forall i :: 0 <= i < |x| ==> r[i] == ByteXor(x[i], y[i])
  {
    if x == [] then [] else [ByteXor(x[0], y[0])] + XorSame(x[1..], y[1..])
  }

  function Xor(a: Bytes, b: Bytes): (r: Bytes)
    ensures |r| == if |a| < |b| then |b| else |a|
  {
    var n := if |a| < |b| then |b| else |a|;
    XorSame(PadBytes(a, n), PadBytes(b, n))
  }

  /** The order Python gives byte strings: the first differing byte decides, a proper prefix is smaller. */
  predicate Less(a: Bytes, b: Bytes) {
    b != [] && (a == [] || a[0] < b[0] || (a[0] == b[0] && Less(a[1..], b[1..])))
  }

  function Distance(a: NodeId, key: NodeId): Bytes {
    Xor(a.bytes, key.bytes)
  }

  /** Address a is strictly nearer to key than address b is. */
  predicate Closer(key: NodeId, a: NodeId, b: NodeId) {
    Less(Distance(a, key), Distance(b, key))
  }

  lemma {:induction false} LessTransitive(a: Bytes, b: Bytes, c: Bytes)
    requires Less(a, b) && Less(b, c)
    ensures Less(a, c)
  {
    if a != [] && a[0] == b[0] && b[0] == c[0] {
      LessTransitive(a[1..], b[1..], c[1..]);
    }
  }

  lemma {:induction false} LessTotal(a: Bytes, b: Bytes)
    ensures !(Less(a, b) && Less(b, a))
    ensures a != b ==> Less(a, b) || Less(b, a)
    ensures !Less(a, a)
  {
    if a != [] {
      LessTotal(a[1..], a[1..]);
    }
    if a != [] && b != [] && a[0] == b[0] {
      LessTotal(a[1..], b[1..]);
      assert a == [a[0]] + a[1..] && b == [b[0]] + b[1..];
    }
  }

  /** The i-th lowest bit. */
  function BitAt(x: nat, i: nat): nat {
    if i == 0 then x % 2 else BitAt(x / 2, i - 1)
  }

  /** A bit of the exclusive or is set exactly when the two differ there. */
  lemma {:induction false} XorBit(x: nat, y: nat, w: nat, i: nat)
    requires i < w
    ensures BitAt(BitXor(x, y, w), i) == if BitAt(x, i) == BitAt(y, i) then 0 else 1
  {
    var r := BitXor(x / 2, y / 2, w - 1);
    Halves((x + y) % 2, r);
    if i == 0 { Parity(x, y); } else { XorBit(x / 2, y / 2, w - 1, i - 1); }
  }

  lemma Halves(b: nat, r: nat)
    requires b < 2
    ensures (b + 2 * r) / 2 == r && (b + 2 * r) % 2 == b
  {
  }

  lemma Parity(x: nat, y: nat)
    ensures (x + y) % 2 == if x % 2 == y % 2 then 0 else 1
  {
  }

  lemma ParityCancels(x: nat, y: nat, k: nat)
    requires (x + k) % 2 == (y + k) % 2
    ensures x % 2 == y % 2
  {
  }

  lemma {:induction false} BitXorInjective(x: nat, y: nat, k: nat, w: nat)
    requires x < Pow2(w) && y < Pow2(w) && BitXor(x, k, w) == BitXor(y, k, w)
    ensures x == y
  {
    if w > 0 {
      var a, b := BitXor(x / 2, k / 2, w - 1), BitXor(y / 2, k / 2, w - 1);
      assert (x + k) % 2 + 2 * a == (y + k) % 2 + 2 * b;
      assert a == b && (x + k) % 2 == (y + k) % 2;
      ParityCancels(x, y, k);
      BitXorInjective(x / 2, y / 2, k / 2, w - 1);
    }
  }

  lemma {:induction false} BitXorSelf(x: nat, w: nat)
    ensures BitXor(x, x, w) == 0
  {
    if w > 0 {
      BitXorSelf(x / 2, w - 1);
      ParityOfTwice(x);
    }
  }

  lemma ParityOfTwice(x: nat)
    ensures (x + x) % 2 == 0
  {
  }

  lemma XorAt(a: NodeId, b: NodeId, i: nat)
    requires i < 8
    ensures |Distance(a, b)| == 8 && Distance(a, b)[i] == ByteXor(a.bytes[i], b.bytes[i])
  {
  }

  lemma XorInjectiveAt(a: NodeId, b: NodeId, key: NodeId, i: nat)
    requires i < 8 && Distance(a, key) == Distance(b, key)
    ensures a.bytes[i] == b.bytes[i]
  {
    XorAt(a, key, i);
    XorAt(b, key, i);
    assert Pow2(8) == 256;
    BitXorInjective(a.bytes[i], b.bytes[i], key.bytes[i], 8);
  }

  /** Distances to one key are injective on addresses of the key's own length. */
  lemma XorInjective(a: NodeId, b: NodeId, key: NodeId)
    requires Distance(a, key) == Distance(b, key)
    ensures a == b
  {
    forall i | 0 <= i < 8 ensures a.bytes[i] == b.bytes[i] { XorInjectiveAt(a, b, key, i); }
    assert a.bytes == b.bytes;
  }

  lemma CloserTransitive(key: NodeId, a: NodeId, b: NodeId, c: NodeId)
    requires Closer(key, a, b) && Closer(key, b, c)
    ensures Closer(key, a, c)
  {
    LessTransitive(Distance(a, key), Distance(b, key), Distance(c, key));
  }

  /** Nearness to a key is a strict total order: no two addresses tie. */
  lemma CloserTotal(key: NodeId, a: NodeId, b: NodeId)
    ensures !(Closer(key, a, b) && Closer(key, b, a))
    ensures a != b <==> Closer(key, a, b) || Closer(key, b, a)
  {
    LessTotal(Distance(a, key), Distance(b, key));
    if Distance(a, key) == Distance(b, key) {
      XorInjective(a, b, key);
    }
  }

  lemma {:induction false} ZeroIsLeast(z: Bytes, b: Bytes)
    requires |z| == |b| && z != b && forall i :: 0 <= i < |z| ==> z[i] == 0
    ensures Less(z, b)
  {
    if b[0] == 0 {
      assert z == [z[0]] + z[1..] && b == [b[0]] + b[1..];
      ZeroIsLeast(z[1..], b[1..]);
    }
  }

  /** The address equal to the key is nearer than every other one. */
  lemma {:induction false} SelfIsNearest(key: NodeId, a: NodeId)
    requires a != key
    ensures Closer(key, key, a)
  {
    forall i | 0 <= i < 8 ensures Distance(key, key)[i] == 0 { XorAt(key, key, i); BitXorSelf(key.bytes[i], 8); }
    if Distance(key, key) == Distance(a, key) { XorInjective(key, a, key); }
    ZeroIsLeast(Distance(key, key), Distance(a, key));
  }

  lemma {:induction false} LessAt(a: Bytes, b: Bytes, k: nat)
    requires |a| == |b| && k < |a| && a[..k] == b[..k] && a[k] < b[k]
    ensures Less(a, b)
  {
    if k > 0 {
      assert a[0] == a[..k][0] == b[..k][0] == b[0];
      assert a[1..][..k - 1] == a[..k][1..] && b[1..][..k - 1] == b[..k][1..];
      LessAt(a[1..], b[1..], k - 1);
    }
  }

  /** The first byte in which two addresses differ decides which is nearer. */
  lemma CloserAt(key: NodeId, a: NodeId, b: NodeId, k: nat)
    requires k < 8 && a.bytes[..k] == b.bytes[..k]
    requires ByteXor(a.bytes[k], key.bytes[k]) < ByteXor(b.bytes[k], key.bytes[k])
    ensures Closer(key, a, b)
  {
    hide BitXor, Less, Xor;
    forall i | 0 <= i <= k ensures |Distance(a, key)| == |Distance(b, key)| == 8
      && Distance(a, key)[i] == ByteXor(a.bytes[i], key.bytes[i]) && Distance(b, key)[i] == ByteXor(b.bytes[i], key.bytes[i])
    {
      XorAt(a, key, i);
      XorAt(b, key, i);
    }
    assert forall i :: 0 <= i < k ==> a.bytes[i] == a.bytes[..k][i] == b.bytes[..k][i] == b.bytes[i];
    LessAt(Distance(a, key), Distance(b, key), k);
  }

  lemma {:induction false} LessThanZeros(a: Bytes, b: Bytes, k: nat)
    requires |a| == |b| && k <= |a| && Less(a, b) && forall i :: 0 <= i < k ==> b[i] == 0
    ensures forall i :: 0 <= i < k ==> a[i] == 0
  {
    if k > 0 {
      LessThanZeros(a[1..], b[1..], k - 1);
      assert forall i :: 0 < i < k ==> a[i] == a[1..][i - 1];
    }
  }

  lemma XorVanishes(a: NodeId, b: NodeId, i: nat)
    requires i < 8
    ensures |Distance(a, b)| == 8 && (Distance(a, b)[i] == 0 <==> a.bytes[i] == b.bytes[i])
  {
    hide BitXor, Xor;
    XorAt(a, b, i);
    BitXorSelf(b.bytes[i], 8);
    assert Pow2(8) == 256;
    if Distance(a, b)[i] == 0 { BitXorInjective(a.bytes[i], b.bytes[i], b.bytes[i], 8); }
  }

  /** Whatever is nearer to a key than an address that shares its first k bytes shares them, too. */
  lemma CloserSharesPrefix(key: NodeId, a: NodeId, b: NodeId, k: nat)
    requires k <= 8 && b.bytes[..k] == key.bytes[..k] && Closer(key, a, b)
    ensures a.bytes[..k] == key.bytes[..k]
  {
    hide Less, Xor;
    XorAt(a, key, 0);
    XorAt(b, key, 0);
    forall i | 0 <= i < k ensures Distance(b, key)[i] == 0 {
      assert b.bytes[i] == b.bytes[..k][i] == key.bytes[..k][i];
      XorVanishes(b, key, i);
    }
    LessThanZeros(Distance(a, key), Distance(b, key), k);
    forall i | 0 <= i < k ensures a.bytes[i] == key.bytes[i] { XorVanishes(a, key, i); }
  }

  predicate IsNearest(key: NodeId, s: set<NodeId>, m: NodeId) {
    m in s && forall x :: x in s && x != m ==> Closer(key, m, x)
  }

  lemma {:induction false} NearestExists(key: NodeId, s: set<NodeId>)
    requires s != {}
    ensures exists m :: IsNearest(key, s, m)
    decreases |s|
  {
    hide Closer;
    var a :| a in s;
    if s == {a} {
      assert IsNearest(key, s, a);
    } else {
      NearestExists(key, s - {a});
      var m :| IsNearest(key, s - {a}, m);
      CloserTotal(key, a, m);
      if Closer(key, m, a) {
        assert IsNearest(key, s, m);
      } else {
        forall x | x in s && x != a ensures Closer(key, a, x) {
          if x != m { CloserTransitive(key, a, m, x); }
        }
        assert IsNearest(key, s, a);
      }
    }
  }

  lemma NearestUnique(key: NodeId, s: set<NodeId>, m: NodeId, n: NodeId)
    requires IsNearest(key, s, m) && IsNearest(key, s, n)
    ensures m == n
  {
    CloserTotal(key, m, n);
  }

  function Nearest(key: NodeId, s: set<NodeId>): (m: NodeId)
    requires s != {}
    ensures IsNearest(key, s, m)
  {
    NearestExists(key, s);
    assert forall m, n | IsNearest(key, s, m) && IsNearest(key, s, n) :: m == n by {
      forall m, n | IsNearest(key, s, m) && IsNearest(key, s, n) ensures m == n { NearestUnique(key, s, m, n); }
    }
    var m :| m in s && IsNearest(key, s, m);
    m
  }

  /** The n nearest addresses of s, nearest first: sorted(s, key=distance)[:n]. */
  function Closest(key: NodeId, s: set<NodeId>, n: nat): (r: seq<NodeId>)
    ensures |r| == if |s| < n then |s| else n
    ensures forall x :: x in r ==> x in s
  {
    if n == 0 || s == {} then []
    else
      var m := Nearest(key, s);
      assert |s - {m}| == |s| - 1;
      [m] + Closest(key, s - {m}, n - 1)
  }

  lemma ClosestOfNone(key: NodeId, s: set<NodeId>, n: nat)
    requires n == 0 || s == {}
    ensures Closest(key, s, n) == []
  {
  }

  lemma ClosestStep(key: NodeId, s: set<NodeId>, n: nat)
    requires n > 0 && s != {}
    ensures var m := Nearest(key, s); Closest(key, s, n) == [m] + Closest(key, s - {m}, n - 1)
  {
  }

  ghost predicate NearestFirst(key: NodeId, r: seq<NodeId>) {
    forall i, j :: 0 <= i < j < |r| ==> Closer(key, r[i], r[j]) && r[i] != r[j]
  }

  lemma NearestFirstCons(key: NodeId, m: NodeId, rest: seq<NodeId>)
    requires NearestFirst(key, rest) && forall x :: x in rest ==> Closer(key, m, x) && m != x
    ensures NearestFirst(key, [m] + rest)
  {
    hide Closer;
    var r := [m] + rest;
    forall i, j | 0 <= i < j < |r| ensures Closer(key, r[i], r[j]) && r[i] != r[j] {
      assert r[j] == rest[j - 1] && rest[j - 1] in rest;
      if i > 0 { assert r[i] == rest[i - 1]; }
    }
  }

  /** The selected addresses are distinct and come nearest first. */
  lemma {:induction false} ClosestSorted(key: NodeId, s: set<NodeId>, n: nat)
    ensures NearestFirst(key, Closest(key, s, n))
    decreases n
  {
    hide *;
    if n == 0 || s == {} {
      ClosestOfNone(key, s, n);
      NoneFirst(key);
    } else {
      var m := Nearest(key, s);
      ClosestStep(key, s, n);
      ClosestSorted(key, s - {m}, n - 1);
      NearestAmong(key, s, m);
      NearestFirstCons(key, m, Closest(key, s - {m}, n - 1));
    }
  }

  lemma NoneFirst(key: NodeId)
    ensures NearestFirst(key, [])
  {
  }

  lemma NearestAmong(key: NodeId, s: set<NodeId>, m: NodeId)
    requires IsNearest(key, s, m)
    ensures forall x :: x in s - {m} ==> Closer(key, m, x) && m != x
  {
  }

  /** The addresses of s that are nearer to key than x is. */
  ghost function Nearer(key: NodeId, s: set<NodeId>, x: NodeId): set<NodeId> {
    set y | y in s && Closer(key, y, x)
  }

  lemma NearerStep(key: NodeId, s: set<NodeId>, m: NodeId, x: NodeId)
    requires IsNearest(key, s, m) && x in s
    ensures x == m ==> Nearer(key, s, x) == {}
    ensures x != m ==> |Nearer(key, s, x)| == |Nearer(key, s - {m}, x)| + 1
  {
    if x == m {
      forall y | y in s ensures !Closer(key, y, m) { CloserTotal(key, y, m); }
    } else {
      assert Nearer(key, s, x) == Nearer(key, s - {m}, x) + {m};
    }
  }

  lemma InCons(m: NodeId, rest: seq<NodeId>, x: NodeId)
    ensures x in [m] + rest <==> x == m || x in rest
  {
    assert ([m] + rest)[0] == m;
  }

  /** The first selected address outranks all others; the rest are selected from the rest. */
  lemma RankStep(key: NodeId, s: set<NodeId>, n: nat, x: NodeId)
    requires n > 0 && x in s
    ensures var m := Nearest(key, s);
      if x == m then x in Closest(key, s, n) && |Nearer(key, s, x)| == 0
      else (x in Closest(key, s, n) <==> x in Closest(key, s - {m}, n - 1)) && |Nearer(key, s, x)| == |Nearer(key, s - {m}, x)| + 1
  {
    hide *;
    var m := Nearest(key, s);
    NearerStep(key, s, m, x);
    ClosestStep(key, s, n);
    InCons(m, Closest(key, s - {m}, n - 1), x);
  }

  /** The n nearest addresses, by rank and in order. */
  lemma NearestN(key: NodeId, s: set<NodeId>, n: nat)
    ensures forall x :: x in Closest(key, s, n) <==> x in s && |Nearer(key, s, x)| < n
    ensures NearestFirst(key, Closest(key, s, n))
  {
    hide *;
    ClosestSorted(key, s, n);
    forall x ensures x in Closest(key, s, n) <==> x in s && |Nearer(key, s, x)| < n {
      if x in s { ClosestByRank(key, s, n, x); }
    }
  }

  /** Membership without sorting: x is selected iff fewer than n addresses of s are nearer. */
  lemma {:induction false} ClosestByRank(key: NodeId, s: set<NodeId>, n: nat, x: NodeId)
    requires x in s
    ensures x in Closest(key, s, n) <==> |Nearer(key, s, x)| < n
    decreases n
  {
    hide *;
    if n == 0 {
      ClosestOfNone(key, s, 0);
    } else {
      RankStep(key, s, n, x);
      var m := Nearest(key, s);
      if x != m { ClosestByRank(key, s - {m}, n - 1, x); }
    }
  }
}

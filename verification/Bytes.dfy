/** Bytes, fixed-width little-endian numbers and a few sequence helpers shared by every module. */
module Bytes {

  type byte = x: int | 0 <= x < 0x100
  type uint16 = x: int | 0 <= x < 0x1_0000
  type uint32 = x: int | 0 <= x < 0x1_0000_0000
  type uint64 = x: int | 0 <= x < 0x1_0000_0000_0000_0000

  datatype Option<+T> = None | Some(value: T)

  /** 256 to the power n: the number of values n bytes can hold. */
  function Pow256(n: nat): (p: nat)
    ensures p > 0
  {
    if n == 0 then 1 else 256 * Pow256(n - 1)
  }

  lemma Pow256Widths()
    ensures Pow256(1) == 0x100 && Pow256(2) == 0x1_0000
    ensures Pow256(4) == 0x1_0000_0000 && Pow256(8) == 0x1_0000_0000_0000_0000
  {
    assert Pow256(3) == 0x100_0000;
    assert Pow256(4) == 0x1_0000_0000;
    assert Pow256(5) == 0x100_0000_0000;
    assert Pow256(6) == 0x1_0000_0000_0000;
  }

  /** littleEndian.PutUintN(buf, v): every byte of buf is overwritten, least significant first. */
  function Fill(v: nat, buf: seq<byte>): (s: seq<byte>)
    ensures |s| == |buf|
    decreases |buf|
  {
    if buf == [] then [] else [v % 256] + Fill(v / 256, buf[1..])
  }

  /** The n low-order bytes of v, put into a buffer fresh from make([]byte, n). */
  function PutLE(v: nat, n: nat): (s: seq<byte>)
    ensures |s| == n
  {
    Fill(v, Zeros(n))
  }

  /** The number a little-endian byte string denotes. */
  function GetLE(s: seq<byte>): (v: nat)
  {
    if s == [] then 0 else s[0] + 256 * GetLE(s[1..])
  }

  /** Splitting off the low byte commutes with reducing modulo 256 * p. */
  lemma LowByteFirst(v: nat, p: nat)
    requires p > 0
    ensures v % (256 * p) == v % 256 + 256 * (v / 256 % p)
  {
    var q := v / 256;
    var x := v % 256 + 256 * (q % p);
    assert q == p * (q / p) + q % p;
    assert v == 256 * p * (q / p) + x;
    assert 0 <= x < 256 * p;
    QuotientRemainder(v, 256 * p, q / p, x);
  }

  lemma QuotientRemainder(v: nat, d: nat, k: nat, x: nat)
    requires d > 0 && v == d * k + x && x < d
    ensures v % d == x
  {
    var e: int := v / d - k;
    assert v == d * (v / d) + v % d;
    assert d * e == x - v % d;
    assert e >= 1 ==> d * e >= d;
    assert e <= -1 ==> d * e + d <= 0;
  }

  /** A value written to n bytes reads back modulo 256 to the n. */
  lemma {:induction false} GetFillMod(v: nat, buf: seq<byte>)
    ensures GetLE(Fill(v, buf)) == v % Pow256(|buf|)
    decreases |buf|
  {
    if buf != [] {
      GetFillMod(v / 256, buf[1..]);
      assert Fill(v, buf)[1..] == Fill(v / 256, buf[1..]);
      LowByteFirst(v, Pow256(|buf| - 1));
    }
  }

  lemma {:induction false} FillGet(s: seq<byte>, buf: seq<byte>)
    requires |buf| == |s|
    ensures GetLE(s) < Pow256(|s|) && Fill(GetLE(s), buf) == s
    decreases |s|
  {
    if s != [] {
      FillGet(s[1..], buf[1..]);
      assert GetLE(s) / 256 == GetLE(s[1..]) && GetLE(s) % 256 == s[0];
    }
  }

  lemma GetPut(v: nat, n: nat)
    requires v < Pow256(n)
    ensures GetLE(PutLE(v, n)) == v
  {
    hide Fill, GetLE, Pow256;
    GetFillMod(v, Zeros(n));
  }

  lemma PutGet(s: seq<byte>)
    ensures GetLE(s) < Pow256(|s|) && PutLE(GetLE(s), |s|) == s
  {
    FillGet(s, Zeros(|s|));
  }

  /** Two numbers have the same n-byte form exactly when they agree modulo 256 to the n. */
  lemma PutInjective(v: nat, w: nat, n: nat)
    ensures PutLE(v, n) == PutLE(w, n) <==> v % Pow256(n) == w % Pow256(n)
  {
    GetFillMod(v, Zeros(n));
    GetFillMod(w, Zeros(n));
    PutGet(PutLE(v, n));
    PutGet(PutLE(w, n));
  }

  lemma DivideTwice(v: nat, p: nat)
    requires p > 0
    ensures v / 256 / p == v / (256 * p)
  {
    var q := v / 256;
    var x := v % 256 + 256 * (q % p);
    assert q == p * (q / p) + q % p;
    assert v == 256 * p * (q / p) + x;
    QuotientRemainder(v, 256 * p, q / p, x);
    assert (256 * p) * (v / (256 * p)) == (256 * p) * (q / p);
    SameFactor(256 * p, v / (256 * p), q / p);
  }

  lemma SameFactor(d: nat, a: nat, b: nat)
    requires d > 0 && d * a == d * b
    ensures a == b
  {
  }

  /** Byte k of a number on the wire and on disk is its k-th digit to the base 256, the least significant one first. */
  lemma {:induction false} LittleEndian(v: nat, n: nat, k: nat)
    requires k < n
    ensures PutLE(v, n)[k] == v / Pow256(k) % 256
    decreases k
  {
    var z := Zeros(n);
    assert z[1..] == Zeros(n - 1);
    assert PutLE(v, n) == [v % 256] + PutLE(v / 256, n - 1);
    if k > 0 {
      LittleEndian(v / 256, n - 1, k - 1);
      DivideTwice(v, Pow256(k - 1));
    }
  }

  lemma AppendAssoc<T>(a: seq<T>, b: seq<T>, c: seq<T>)
    ensures (a + b) + c == a + (b + c)
  {
  }

  function Zeros(n: nat): (s: seq<byte>)
    ensures |s| == n && forall i :: 0 <= i < n ==> s[i] == 0
  {
    seq(n, _ => 0)
  }

  function Min(a: int, b: int): int { if a <= b then a else b }

  /** Go's `copy(dst[off:], src)`: as much of src as fits overwrites dst from off on. */
  function CopyInto(dst: seq<byte>, off: nat, src: seq<byte>): (r: seq<byte>)
    requires off <= |dst|
    ensures |r| == |dst|
  {
    var n := Min(|dst| - off, |src|);
    dst[..off] + src[..n] + dst[off + n..]
  }

  function Flatten<T>(ss: seq<seq<T>>): seq<T>
  {
    if ss == [] then [] else ss[0] + Flatten(ss[1..])
  }

  lemma {:induction false} FlattenAppend<T>(a: seq<seq<T>>, b: seq<seq<T>>)
    ensures Flatten(a + b) == Flatten(a) + Flatten(b)
  {
    if a == [] {
      assert a + b == b;
    } else {
      var t := a[1..];
      FlattenAppend(t, b);
      assert a + b == [a[0]] + (t + b);
      assert Flatten([a[0]] + (t + b)) == a[0] + Flatten(t + b);
      assert a[0] + (Flatten(t) + Flatten(b)) == (a[0] + Flatten(t)) + Flatten(b);
    }
  }
}

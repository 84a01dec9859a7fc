/** Packed 32-byte addresses, their accessors, and their textual form (wire/common.go). */
module Addresses {
  import opened Bytes

  const ADDR_VIRTUAL: byte := 0
  const ADDR_CLIENT: byte := 1
  const ADDR_SERVER: byte := 2
  const ADDR_GROUP: byte := 3
  const ADDR_BROADCAST: byte := 4

  const MAX_ADDRESS := 26
  const SLASH: byte := 0x2F
  const MAX_UINT64 := 0xFFFF_FFFF_FFFF_FFFF
  const MAX_INT64 := 0x7FFF_FFFF_FFFF_FFFF

  /** 3 bits type, 5 bits length, 4 bytes domain, 1 byte device, 26 bytes address. */
  type Addr = a: seq<byte> | |a| == 32 witness Zeros(32)

  const ZERO_ADDR: Addr := Zeros(32)

  // ---------------------------------------------------------------- packing

  /** `byte(Typ<<5) | byte(addrlen)`: ShiftOr shows that this number is what the eight-bit operators compute. */
  function FirstByte(typ: byte, len: byte): byte
    requires len < 32
  {
    typ % 8 * 32 + len
  }

  /** The value NewAddr computes; None is ErrAddrOverflow. */
  function PackAddr(typ: byte, domain: uint32, device: byte, address: seq<byte>): (r: Option<Addr>)
    ensures r.Some? <==> |address| <= MAX_ADDRESS
  {
    if |address| > MAX_ADDRESS then None
    else Some([FirstByte(typ, |address|)] + PutLE(domain, 4) + [device] + address + Zeros(MAX_ADDRESS - |address|))
  }

  method NewAddr(typ: byte, domain: uint32, device: byte, address: seq<byte>) returns (r: Option<Addr>)
    ensures r == PackAddr(typ, domain, device, address)
  {
    var addrlen := |address|;
    if addrlen > MAX_ADDRESS {
      return None;
    }
    var addr := new byte[32](_ => 0);
    addr[0] := FirstByte(typ, addrlen);
    var bs := PutLE(domain, 4);
    for i := 0 to 4
      invariant addr[0] == FirstByte(typ, addrlen)
      invariant forall k :: 0 <= k < i ==> addr[1 + k] == bs[k]
      invariant forall k :: 1 + i <= k < 32 ==> addr[k] == 0
    {
      addr[1 + i] := bs[i];
    }
    addr[5] := device;
    for i := 0 to addrlen
      invariant addr[0] == FirstByte(typ, addrlen) && addr[5] == device
      invariant forall k :: 0 <= k < 4 ==> addr[1 + k] == bs[k]
      invariant forall k :: 0 <= k < i ==> addr[6 + k] == address[k]
      invariant forall k :: 6 + i <= k < 32 ==> addr[k] == 0
    {
      addr[6 + i] := address[i];
    }
    assert addr[..] == PackAddr(typ, domain, device, address).value;
    r := Some(addr[..]);
  }

  // -------------------------------------------------------------- accessors

  /** `addr[0] >> 5` */
  function Type(a: Addr): byte { a[0] / 32 }

  /** `addr[0] & ^byte(3<<5)`: the mask keeps bit 7, so types 4 to 7 report a length of 128 or more. */
  function Len(a: Addr): byte { a[0] / 128 * 128 + a[0] % 32 }

  function Domain(a: Addr): uint32 {
    Pow256Widths();
    PutGet(a[1..5]);
    GetLE(a[1..5])
  }

  function Device(a: Addr): byte { a[5] }

  /** None where the slice expression of the source is out of range and panics. */
  function Address(a: Addr): Option<seq<byte>> {
    if Len(a) > MAX_ADDRESS then None else Some(a[6..6 + Len(a)])
  }

  lemma LowBits(b: bv8)
    ensures (b & 31) as int == b as int % 32 && (b & 7) as int == b as int % 8
  {
  }

  /** The shift and mask of the source, on the eight bits of the first byte, give Type and Len. */
  lemma ShiftMask(b: bv8)
    ensures (b >> 5) as int == b as int / 32
    ensures (b & !(3 << 5)) as int == b as int / 128 * 128 + b as int % 32
  {
  }

  lemma FirstByteFields(t: bv8, n: bv8)
    requires n < 32
    ensures ((t << 5) | n) >> 5 == t & 7 && ((t << 5) | n) & 31 == n
  {
  }

  /** The shift and or of the source, in eight-bit arithmetic, give FirstByte. */
  lemma ShiftOr(t: bv8, n: bv8)
    requires n < 32
    ensures ((t << 5) | n) as int == FirstByte(t as int, n as int)
  {
    FirstByteFields(t, n);
    ShiftMask((t << 5) | n);
    LowBits((t << 5) | n);
    LowBits(t);
  }

  /** The accessors return what NewAddr was given; Len and Address do so only below type 4. */
  lemma AccessorsInvertPack(typ: byte, domain: uint32, device: byte, address: seq<byte>)
    requires |address| <= MAX_ADDRESS
    ensures var a := PackAddr(typ, domain, device, address).value;
            && Type(a) == typ % 8
            && Domain(a) == domain
            && Device(a) == device
            && (Address(a) == Some(address) <==> typ % 8 < 4)
            && (Address(a) == None <==> typ % 8 >= 4)
            && a[6..] == address + Zeros(MAX_ADDRESS - |address|)
  {
    var a := PackAddr(typ, domain, device, address).value;
    Pow256Widths();
    GetPut(domain, 4);
    assert a[1..5] == PutLE(domain, 4);
    assert a[6..6 + |address|] == address;
  }

  /** NewAddr identifies two addresses exactly when all four parts agree (the type modulo 8): a sound map key. */
  lemma PackInjective(t: byte, d: uint32, v: byte, s: seq<byte>, t': byte, d': uint32, v': byte, s': seq<byte>)
    requires |s| <= MAX_ADDRESS && |s'| <= MAX_ADDRESS
    ensures PackAddr(t, d, v, s) == PackAddr(t', d', v', s')
       <==> (t % 8 == t' % 8 && d == d' && v == v' && s == s')
  {
    AccessorsInvertPack(t, d, v, s);
    AccessorsInvertPack(t', d', v', s');
    var a, a' := PackAddr(t, d, v, s).value, PackAddr(t', d', v', s').value;
    assert a[0] == t % 8 * 32 + |s| && a'[0] == t' % 8 * 32 + |s'|;
    if a == a' {
      assert |s| == |s'|;
      assert s == a[6..][..|s|] == s';
    }
  }

  // -------------------------------------------------------- decimal numbers

  function IsDigit(c: byte): bool { 0x30 <= c <= 0x39 }

  /** fmt's %v of an unsigned number. */
  function Itoa(n: nat): (s: seq<byte>)
    ensures s != [] && forall i :: 0 <= i < |s| ==> IsDigit(s[i])
  {
    if n < 10 then [0x30 + n] else Itoa(n / 10) + [0x30 + n % 10]
  }

  datatype Scan = Number(n: nat) | Syntax | Range

  function ScanDigit(r: Scan, c: byte): Scan {
    if !r.Number? then r
    else if !IsDigit(c) then Syntax
    else if r.n * 10 + (c - 0x30) > MAX_UINT64 then Range
    else Number(r.n * 10 + (c - 0x30))
  }

  /** strconv.ParseUint's left-to-right scan: the first offending character decides between the two errors. */
  function ScanAll(r: Scan, s: seq<byte>): Scan
    decreases |s|
  {
    if s == [] then r else ScanAll(ScanDigit(r, s[0]), s[1..])
  }

  /** The value strconv.Atoi returns on a 64-bit platform; its error is discarded by every caller here. */
  function Atoi(s: seq<byte>): int {
    var neg := s != [] && s[0] == 0x2D;
    var clamp: int := MAX_INT64;
    var body := if s != [] && (s[0] == 0x2D || s[0] == 0x2B) then s[1..] else s;
    if body == [] then 0 else
      match ScanAll(Number(0), body)
      case Syntax => 0
      case Range => if neg then -clamp - 1 else clamp
      case Number(n) => if neg then -Min(n, clamp + 1) else Min(n, clamp)
  }

  lemma {:induction false} ScanSnoc(r: Scan, s: seq<byte>, c: byte)
    ensures ScanAll(r, s + [c]) == ScanDigit(ScanAll(r, s), c)
    decreases |s|
  {
    if s == [] {
      assert ([c])[1..] == [];
      assert s + [c] == [c];
    } else {
      ScanSnoc(ScanDigit(r, s[0]), s[1..], c);
      assert (s + [c])[1..] == s[1..] + [c];
    }
  }

  lemma {:induction false} ScanItoa(n: nat)
    requires n <= MAX_UINT64
    ensures ScanAll(Number(0), Itoa(n)) == Number(n)
    decreases n
  {
    if n < 10 {
      assert Itoa(n)[1..] == [];
    } else {
      ScanItoa(n / 10);
      ScanSnoc(Number(0), Itoa(n / 10), 0x30 + n % 10);
    }
  }

  lemma AtoiItoa(n: nat)
    requires n <= MAX_INT64
    ensures Atoi(Itoa(n)) == n
  {
    ScanItoa(n);
    assert IsDigit(Itoa(n)[0]);
  }

  /** The number a string of decimal digits stands for. */
  function Decimal(s: seq<byte>): nat
    requires forall i :: 0 <= i < |s| ==> IsDigit(s[i])
  {
    if s == [] then 0
    else
      assert IsDigit(s[|s| - 1]);
      10 * Decimal(s[..|s| - 1]) + s[|s| - 1] - 0x30
  }

  lemma {:induction false} DecimalItoa(n: nat)
    ensures Decimal(Itoa(n)) == n
  {
    if n < 10 {
      assert Itoa(n)[..0] == [];
    } else {
      DecimalItoa(n / 10);
      assert Itoa(n)[..|Itoa(n)| - 1] == Itoa(n / 10);
    }
  }

  lemma {:induction false} ScanDigits(s: seq<byte>)
    requires forall i :: 0 <= i < |s| ==> IsDigit(s[i])
    ensures ScanAll(Number(0), s) == if Decimal(s) <= MAX_UINT64 then Number(Decimal(s)) else Range
  {
    if s != [] {
      var n := |s| - 1;
      ScanDigits(s[..n]);
      ScanSnoc(Number(0), s[..n], s[n]);
      assert s == s[..n] + [s[n]];
    }
  }

  lemma {:induction false} SyntaxStays(s: seq<byte>)
    ensures ScanAll(Syntax, s) == Syntax
    decreases |s|
  {
    if s != [] { SyntaxStays(s[1..]); }
  }

  lemma {:induction false} ScanAppend(r: Scan, a: seq<byte>, b: seq<byte>)
    ensures ScanAll(r, a + b) == ScanAll(ScanAll(r, a), b)
    decreases |a|
  {
    if a == [] {
      assert a + b == b;
    } else {
      ScanAppend(ScanDigit(r, a[0]), a[1..], b);
      assert (a + b)[1..] == a[1..] + b;
    }
  }

  /**
   * What Atoi makes of a string whose error is ignored: the decimal value of the digits, cut off at the ends of the 64-bit
   * range, and zero for nothing or for anything that is not a digit behind an in-range start.
   */
  lemma AtoiIs(digits: seq<byte>, bad: byte, rest: seq<byte>)
    requires (forall i :: 0 <= i < |digits| ==> IsDigit(digits[i])) && !IsDigit(bad)
    ensures digits != [] ==> Atoi(digits) == Min(Decimal(digits), 0x7FFF_FFFF_FFFF_FFFF)
    ensures digits != [] ==> Atoi([0x2B] + digits) == Min(Decimal(digits), 0x7FFF_FFFF_FFFF_FFFF)
    ensures digits != [] ==> Atoi([0x2D] + digits) == -Min(Decimal(digits), 0x8000_0000_0000_0000)
    ensures Atoi([]) == Atoi([0x2B]) == Atoi([0x2D]) == 0
    ensures digits != [] && Decimal(digits) <= MAX_UINT64 ==> Atoi(digits + ([bad] + rest)) == 0
  {
    AtoiOfNothing();
    if digits != [] {
      ScanDigits(digits);
      AtoiSigned(digits);
      if Decimal(digits) <= MAX_UINT64 { AtoiOfBad(digits, bad, rest); }
    }
  }

  lemma AtoiOfNothing()
    ensures Atoi([]) == Atoi([0x2B]) == Atoi([0x2D]) == 0
  {
    assert [0x2B][1..] == [] && [0x2D][1..] == [];
  }

  lemma AtoiSigned(digits: seq<byte>)
    requires digits != [] && forall i :: 0 <= i < |digits| ==> IsDigit(digits[i])
    requires ScanAll(Number(0), digits) == if Decimal(digits) <= MAX_UINT64 then Number(Decimal(digits)) else Range
    ensures Atoi(digits) == Min(Decimal(digits), 0x7FFF_FFFF_FFFF_FFFF)
    ensures Atoi([0x2B] + digits) == Min(Decimal(digits), 0x7FFF_FFFF_FFFF_FFFF)
    ensures Atoi([0x2D] + digits) == -Min(Decimal(digits), 0x8000_0000_0000_0000)
  {
    hide ScanAll, Decimal;
    assert IsDigit(digits[0]);
    assert ([0x2B] + digits)[1..] == digits && ([0x2D] + digits)[1..] == digits;
  }

  lemma AtoiOfBad(digits: seq<byte>, bad: byte, rest: seq<byte>)
    requires digits != [] && (forall i :: 0 <= i < |digits| ==> IsDigit(digits[i])) && !IsDigit(bad)
    requires ScanAll(Number(0), digits) == Number(Decimal(digits))
    ensures Atoi(digits + ([bad] + rest)) == 0
  {
    var s := digits + ([bad] + rest);
    ScanAppend(Number(0), digits, [bad] + rest);
    BadScan(Decimal(digits), bad, rest);
    hide ScanAll, Decimal;
    assert s[0] == digits[0] && IsDigit(digits[0]);
  }

  lemma BadScan(n: nat, bad: byte, rest: seq<byte>)
    requires !IsDigit(bad)
    ensures ScanAll(Number(n), [bad] + rest) == Syntax
  {
    assert ([bad] + rest)[1..] == rest;
    SyntaxStays(rest);
  }

  // ---------------------------------------------------------------- parsing

  function IndexSlash(s: seq<byte>): (i: nat)
    ensures i <= |s|
  {
    if s == [] || s[0] == SLASH then 0 else 1 + IndexSlash(s[1..])
  }

  /** strings.SplitN(s, "/", n) for n >= 1. */
  function SplitN(s: seq<byte>, n: nat): (parts: seq<seq<byte>>)
    requires n >= 1
    ensures 1 <= |parts| <= n
    decreases n
  {
    if n == 1 || IndexSlash(s) == |s| then [s]
    else [s[..IndexSlash(s)]] + SplitN(s[IndexSlash(s) + 1..], n - 1)
  }

  predicate NoSlash(p: seq<byte>) {
    forall i :: 0 <= i < |p| ==> p[i] != SLASH
  }

  lemma {:induction false} IndexSlashIs(p: seq<byte>, rest: seq<byte>)
    requires NoSlash(p) && (rest == [] || rest[0] == SLASH)
    ensures IndexSlash(p + rest) == |p|
    decreases |p|
  {
    if p == [] {
      assert p + rest == rest;
    } else {
      IndexSlashIs(p[1..], rest);
      assert (p + rest)[1..] == p[1..] + rest;
    }
  }

  function Join(parts: seq<seq<byte>>): seq<byte>
    requires parts != []
  {
    if |parts| == 1 then parts[0] else parts[0] + ([SLASH] + Join(parts[1..]))
  }

  lemma SplitPiece(p: seq<byte>, rest: seq<byte>, n: nat)
    requires NoSlash(p) && n >= 2
    ensures SplitN(p + ([SLASH] + rest), n) == [p] + SplitN(rest, n - 1)
  {
    var s := p + ([SLASH] + rest);
    IndexSlashIs(p, [SLASH] + rest);
    assert s[..|p|] == p && s[|p| + 1..] == rest;
  }

  /** Splitting undoes joining when only the last part may contain slashes. */
  lemma {:induction false} SplitJoin(parts: seq<seq<byte>>, n: nat)
    requires parts != [] && |parts| <= n
    requires forall i :: 0 <= i < |parts| - 1 ==> NoSlash(parts[i])
    requires |parts| == n || NoSlash(parts[|parts| - 1])
    ensures SplitN(Join(parts), n) == parts
    decreases |parts|
  {
    var p := parts[0];
    if |parts| == 1 {
      if n > 1 {
        IndexSlashIs(p, []);
        assert p + [] == p;
      }
    } else {
      SplitJoin(parts[1..], n - 1);
      SplitPiece(p, Join(parts[1..]), n);
    }
  }

  /** AddrReMap: a name outside the table reads as the zero byte. */
  function TypeOfName(name: seq<byte>): byte {
    if name == [0x63] then ADDR_CLIENT
    else if name == [0x73] then ADDR_SERVER
    else if name == [0x67] then ADDR_GROUP
    else if name == [0x62] then ADDR_BROADCAST
    else ADDR_VIRTUAL
  }

  /** AddrMap: a type outside the table prints as the zero rune, one zero byte. */
  function NameOfType(t: byte): byte {
    if t == ADDR_CLIENT then 0x63
    else if t == ADDR_SERVER then 0x73
    else if t == ADDR_GROUP then 0x67
    else if t == ADDR_BROADCAST then 0x62
    else 0
  }

  /** None is ErrInvaildAddress or ErrAddrOverflow. */
  function ParseAddr(s: seq<byte>): Option<Addr> {
    var parts := SplitN(s, 5);
    if |parts| != 5 then None
    else FromParts(parts[1], parts[2], parts[3], parts[4])
  }

  function FromParts(name: seq<byte>, domain: seq<byte>, device: seq<byte>, address: seq<byte>): Option<Addr> {
    PackAddr(TypeOfName(name), Atoi(domain) % 0x1_0000_0000, Atoi(device) % 0x100, address)
  }

  /** Addr.String; None where Address panics. */
  function Print(a: Addr): Option<seq<byte>> {
    var name := [NameOfType(Type(a))];
    if Type(a) == ADDR_BROADCAST then Some(Join([[], name, Itoa(Domain(a))]))
    else match Address(a)
      case None => None
      case Some(s) => Some(Join([[], name, Itoa(Domain(a)), Itoa(Device(a)), s]))
  }

  /** A 32-byte value that NewAddr could have produced for one of the types virtual, client, server, group. */
  predicate Printable(a: Addr) {
    && Type(a) <= ADDR_GROUP
    && Len(a) <= MAX_ADDRESS
    && a[6 + Len(a)..] == Zeros(MAX_ADDRESS - Len(a))
  }

  lemma ParseJoined(parts: seq<seq<byte>>)
    requires |parts| == 5 && forall i :: 0 <= i < 4 ==> NoSlash(parts[i])
    ensures ParseAddr(Join(parts)) == FromParts(parts[1], parts[2], parts[3], parts[4])
  {
    SplitJoin(parts, 5);
  }

  lemma PackOfParts(a: Addr, typ: byte)
    requires Type(a) == typ && Printable(a)
    ensures PackAddr(typ, Domain(a), Device(a), a[6..6 + Len(a)]) == Some(a)
  {
    PutGet(a[1..5]);
    var b := PackAddr(typ, Domain(a), Device(a), a[6..6 + Len(a)]).value;
    assert a == [a[0]] + a[1..5] + [a[5]] + a[6..6 + Len(a)] + a[6 + Len(a)..];
    assert b[0] == a[0];
  }

  lemma NameRoundTrip(t: byte)
    requires t <= ADDR_BROADCAST
    ensures TypeOfName([NameOfType(t)]) == t && NoSlash([NameOfType(t)])
  {
  }

  lemma FromPrinted(t: byte, domain: uint32, device: byte, address: seq<byte>)
    requires t <= ADDR_GROUP
    ensures FromParts([NameOfType(t)], Itoa(domain), Itoa(device), address) == PackAddr(t, domain, device, address)
  {
    assert Atoi(Itoa(domain)) % 0x1_0000_0000 == domain by {
      AtoiItoa(domain);
    }
    assert Atoi(Itoa(device)) % 0x100 == device by {
      AtoiItoa(device);
    }
    NameRoundTrip(t);
  }

  /** For types 0 to 3 the value that comes back is the one NewAddr builds from the printed parts. */
  lemma ParseOfPrint(a: Addr)
    requires Type(a) <= ADDR_GROUP && Len(a) <= MAX_ADDRESS
    ensures Print(a).Some?
    ensures ParseAddr(Print(a).value) == PackAddr(Type(a), Domain(a), Device(a), a[6..6 + Len(a)])
  {
    var t, d, v, s := Type(a), Domain(a), Device(a), a[6..6 + Len(a)];
    ParseJoined([[], [NameOfType(t)], Itoa(d), Itoa(v), s]);
    FromPrinted(t, d, v, s);
  }

  /** Rebuilding an address from its parts gives it back only if its padding is zero. */
  lemma RebuiltPadding(a: Addr)
    requires Len(a) <= MAX_ADDRESS
    requires PackAddr(Type(a), Domain(a), Device(a), a[6..6 + Len(a)]) == Some(a)
    ensures a[6 + Len(a)..] == Zeros(MAX_ADDRESS - Len(a))
  {
    var s := a[6..6 + Len(a)];
    AccessorsInvertPack(Type(a), Domain(a), Device(a), s);
    assert a[6 + Len(a)..] == a[6..][|s|..];
  }

  /**
   * Printing and parsing gives the same 32 bytes back exactly for the printable addresses:
   * broadcast addresses print a form the parser rejects, types 5 to 7 and over-long length
   * fields panic, and non-zero padding is lost.
   */
  lemma PrintParseRoundTrip(a: Addr)
    ensures (Print(a).Some? && ParseAddr(Print(a).value) == Some(a)) <==> Printable(a)
  {
    if Type(a) == ADDR_BROADCAST {
      SplitJoin([[], [NameOfType(ADDR_BROADCAST)], Itoa(Domain(a))], 5);
    } else if Len(a) <= MAX_ADDRESS {
      ParseOfPrint(a);
      if Printable(a) {
        PackOfParts(a, Type(a));
      } else if PackAddr(Type(a), Domain(a), Device(a), a[6..6 + Len(a)]) == Some(a) {
        RebuiltPadding(a);
      }
    }
  }

  lemma PackedIsPrintable(typ: byte, domain: uint32, device: byte, address: seq<byte>)
    requires |address| <= MAX_ADDRESS
    ensures Printable(PackAddr(typ, domain, device, address).value) <==> typ % 8 <= ADDR_GROUP
  {
    var a := PackAddr(typ, domain, device, address).value;
    AccessorsInvertPack(typ, domain, device, address);
    if typ % 8 <= ADDR_GROUP {
      var n := |address|;
      assert Len(a) == n;
      assert a[6 + n..] == a[6..][n..] == Zeros(MAX_ADDRESS - n);
    }
  }

  /** What NewAddr builds survives printing and parsing for types 0 to 3 only; the address may contain slashes. */
  lemma NewAddrRoundTrip(typ: byte, domain: uint32, device: byte, address: seq<byte>)
    requires |address| <= MAX_ADDRESS
    ensures var a := PackAddr(typ, domain, device, address).value;
            (Print(a).Some? && ParseAddr(Print(a).value) == Some(a)) <==> typ % 8 <= ADDR_GROUP
  {
    PackedIsPrintable(typ, domain, device, address);
    PrintParseRoundTrip(PackAddr(typ, domain, device, address).value);
  }

  /** The printed form, letter by letter: the type's letter, then domain, device and address; a broadcast address ends with its domain. */
  lemma PrintsAs(typ: byte, domain: uint32, device: byte, address: seq<byte>)
    requires |address| <= MAX_ADDRESS
    ensures var p := Print(PackAddr(typ, domain, device, address).value);
            var tail := Itoa(domain) + ([0x2F] + (Itoa(device) + ([0x2F] + address)));
            && (typ == 1 ==> p == Some([0x2F, 0x63, 0x2F] + tail))
            && (typ == 2 ==> p == Some([0x2F, 0x73, 0x2F] + tail))
            && (typ == 3 ==> p == Some([0x2F, 0x67, 0x2F] + tail))
            && (typ == 4 ==> p == Some([0x2F, 0x62, 0x2F] + Itoa(domain)))
  {
    if 1 <= typ <= 4 {
      AccessorsInvertPack(typ, domain, device, address);
      hide *;
      PrintJoins(PackAddr(typ, domain, device, address).value, address);
      var letter, d, v := NameOfType(typ), Itoa(domain), Itoa(device);
      Letters();
      JoinFive([letter], d, v, address);
      JoinThree([letter], d);
      FrontOf(letter, d + ([0x2F] + (v + ([0x2F] + address))));
      FrontOf(letter, d);
    }
  }

  lemma Letters()
    ensures NameOfType(1) == 0x63 && NameOfType(2) == 0x73 && NameOfType(3) == 0x67 && NameOfType(4) == 0x62
  {
  }

  lemma PrintJoins(a: Addr, address: seq<byte>)
    requires 1 <= Type(a) <= 4 && (Type(a) < 4 ==> Address(a) == Some(address))
    ensures Print(a) == Some(if Type(a) == 4 then Join([[], [NameOfType(4)], Itoa(Domain(a))])
                             else Join([[], [NameOfType(Type(a))], Itoa(Domain(a)), Itoa(Device(a)), address]))
  {
    hide Type, Domain, Device, Address, Itoa, Join, NameOfType;
  }

  lemma FrontOf(letter: byte, tail: seq<byte>)
    ensures [0x2F] + ([letter] + ([0x2F] + tail)) == [0x2F, letter, 0x2F] + tail
  {
  }

  lemma JoinFive(a: seq<byte>, b: seq<byte>, c: seq<byte>, d: seq<byte>)
    ensures Join([[], a, b, c, d]) == [0x2F] + (a + ([0x2F] + (b + ([0x2F] + (c + ([0x2F] + d))))))
  {
    var all := [[], a, b, c, d];
    assert all[1..] == [a, b, c, d] && all[1..][1..] == [b, c, d];
    assert all[1..][1..][1..] == [c, d] && all[1..][1..][1..][1..] == [d];
    assert Join(all[1..][1..][1..]) == c + ([SLASH] + Join(all[1..][1..][1..][1..]));
    assert Join(all) == [] + ([SLASH] + Join(all[1..]));
  }

  lemma JoinThree(a: seq<byte>, b: seq<byte>)
    ensures Join([[], a, b]) == [0x2F] + (a + ([0x2F] + b))
  {
    var all := [[], a, b];
    assert all[1..] == [a, b] && all[1..][1..] == [b];
    assert Join(all) == [] + ([SLASH] + Join(all[1..]));
  }

  function Slashes(s: seq<byte>): nat {
    if s == [] then 0 else Slashes(s[..|s| - 1]) + (if s[|s| - 1] == 0x2F then 1 else 0)
  }

  lemma {:induction false} SlashesAppend(a: seq<byte>, b: seq<byte>)
    ensures Slashes(a + b) == Slashes(a) + Slashes(b)
    decreases |b|
  {
    if b == [] {
      assert a + b == a;
    } else {
      SlashesAppend(a, b[..|b| - 1]);
      assert (a + b)[..|a + b| - 1] == a + b[..|b| - 1];
    }
  }

  lemma {:induction false} SlashAt(s: seq<byte>)
    ensures Slashes(s[..IndexSlash(s)]) == 0
    ensures IndexSlash(s) == |s| ==> Slashes(s) == 0
    ensures IndexSlash(s) < |s| ==> Slashes(s) == 1 + Slashes(s[IndexSlash(s) + 1..])
    decreases |s|
  {
    if s != [] {
      var one := [s[0]];
      assert one[..0] == [] && s == one + s[1..];
      SlashesAppend(one, s[1..]);
      if s[0] != SLASH {
        SlashAt(s[1..]);
        var i := IndexSlash(s[1..]);
        assert s[..1 + i] == one + s[1..][..i];
        SlashesAppend(one, s[1..][..i]);
        assert s[1..][..|s[1..]|] == s[1..];
        if i < |s| - 1 { assert s[1..][i + 1..] == s[i + 2..]; }
      }
    }
  }

  /** A string splits into one piece more than it has slashes, up to the limit. */
  lemma {:induction false} SplitCounts(s: seq<byte>, n: nat)
    requires n >= 1
    ensures |SplitN(s, n)| == Min(n, Slashes(s) + 1)
    decreases n
  {
    SlashAt(s);
    if n > 1 && IndexSlash(s) < |s| {
      SplitCounts(s[IndexSlash(s) + 1..], n - 1);
    }
  }

  /** Parsing fails exactly for strings with fewer than four slashes, and where what is behind the fourth is over 26 bytes long. */
  lemma ParseFails(s: seq<byte>)
    ensures Slashes(s) < 4 ==> ParseAddr(s).None?
    ensures Slashes(s) >= 4 ==> |SplitN(s, 5)| == 5 && (ParseAddr(s).None? <==> |SplitN(s, 5)[4]| > 26)
  {
    hide SplitN, Slashes, TypeOfName, Atoi;
    SplitCounts(s, 5);
  }
}

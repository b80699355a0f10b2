/** CRC16-Modbus. The reference is the bit-serial shift register of "MODBUS over Serial
    Line" section 6.2.2, fed least significant bit first; the byte loop refines it. */
module Crc {
  import opened Bytes

  /** Bitwise exclusive or of natural numbers. */
  function Xor(a: nat, b: nat): nat
    decreases a + b
  {
    if a == 0 then b
    else if b == 0 then a
    else 2 * Xor(a / 2, b / 2) + (if a % 2 != b % 2 then 1 else 0)
  }

  /** One register step: shift right, with the taps of 0xA001 when a one falls out. */
  function Shift(c: nat): nat {
    if c % 2 == 1 then Xor(c / 2, 0xA001) else c / 2
  }

  function Shifts(c: nat, n: nat): nat
    decreases n
  {
    if n == 0 then c else Shifts(Shift(c), n - 1)
  }

  function Bit(b: bool): nat { if b then 1 else 0 }

  /** The register after a run of wire bits. */
  function Feed(c: nat, bits: seq<bool>): nat
    decreases bits
  {
    if bits == [] then c else Feed(Shift(Xor(c, Bit(bits[0]))), bits[1..])
  }

  /** The n low bits of a number, least significant first. */
  function LowBits(b: nat, n: nat): (bits: seq<bool>)
    ensures |bits| == n
    decreases n
  {
    if n == 0 then [] else [b % 2 == 1] + LowBits(b / 2, n - 1)
  }

  function WireBits(data: seq<Byte>): (bits: seq<bool>)
    ensures |bits| == 8 * |data|
  {
    if data == [] then [] else LowBits(data[0], 8) + WireBits(data[1..])
  }

  function Crc(data: seq<Byte>): (c: Word)
  {
    FeedBounded(0xFFFF, WireBits(data));
    Feed(0xFFFF, WireBits(data))
  }

  function AppendCrc(data: seq<Byte>): (frame: seq<Byte>)
    ensures |frame| == |data| + 2 && frame[..|data|] == data
  {
    data + [Low(Crc(data)), High(Crc(data))]
  }

  /** The trailer test every acceptor applies to a complete frame. */
  predicate TrailerMatches(frame: seq<Byte>)
    requires |frame| >= 2
  {
    Crc(frame[..|frame| - 2]) == Join(frame[|frame| - 1], frame[|frame| - 2])
  }

  // ----- exclusive or -----

  function Pow2(n: nat): nat { if n == 0 then 1 else 2 * Pow2(n - 1) }

  lemma XorHalves(a: nat, b: nat)
    ensures Xor(a, b) / 2 == Xor(a / 2, b / 2)
    ensures Xor(a, b) % 2 == if a % 2 != b % 2 then 1 else 0
  {}

  lemma {:induction false} XorBounded(a: nat, b: nat, n: nat)
    requires a < Pow2(n) && b < Pow2(n)
    ensures Xor(a, b) < Pow2(n)
  {
    if n > 0 {
      XorBounded(a / 2, b / 2, n - 1);
      XorHalves(a, b);
    }
  }

  lemma {:induction false} XorAssoc(a: nat, b: nat, c: nat)
    ensures Xor(Xor(a, b), c) == Xor(a, Xor(b, c))
    decreases a + b + c
  {
    if a != 0 && b != 0 && c != 0 {
      XorAssoc(a / 2, b / 2, c / 2);
      XorHalves(a, b);
      XorHalves(b, c);
      XorHalves(Xor(a, b), c);
      XorHalves(a, Xor(b, c));
    }
  }

  lemma {:induction false} XorComm(a: nat, b: nat)
    ensures Xor(a, b) == Xor(b, a)
    decreases a + b
  {
    if a != 0 && b != 0 { XorComm(a / 2, b / 2); }
  }

  lemma {:induction false} XorSelf(a: nat)
    ensures Xor(a, a) == 0
  {
    if a != 0 { XorSelf(a / 2); }
  }

  lemma XorCancel(c: nat, p: nat, q: nat)
    requires Xor(c, p) == Xor(c, q)
    ensures p == q
  {
    XorAssoc(c, c, p);
    XorAssoc(c, c, q);
    XorSelf(c);
  }

  /** A bit above both numbers is simply added. */
  lemma {:induction false} XorHighBit(x: nat, y: nat, n: nat)
    requires x < Pow2(n) && y < Pow2(n)
    ensures Xor(x, Pow2(n) + y) == Pow2(n) + Xor(x, y)
    ensures Xor(x, y) < Pow2(n)
  {
    XorBounded(x, y, n);
    if n > 0 {
      XorHighBit(x / 2, y / 2, n - 1);
      XorHalves(x, Pow2(n) + y);
      XorHalves(x, y);
    }
  }

  // ----- the register as an injective map -----

  lemma Sixteen()
    ensures Pow2(15) == 0x8000 && Pow2(16) == 0x10000 && Pow2(8) == 0x100
  {}

  lemma ShiftBounded(c: nat)
    requires c < 0x10000
    ensures Shift(c) < 0x10000
    ensures Shift(c) >= 0x8000 <==> c % 2 == 1
  {
    Sixteen();
    XorHighBit(c / 2, 0x2001, 15);
  }

  lemma {:induction false} FeedBounded(c: nat, bits: seq<bool>)
    requires c < 0x10000
    ensures Feed(c, bits) < 0x10000
    decreases bits
  {
    if bits != [] {
      Sixteen();
      XorBounded(c, Bit(bits[0]), 16);
      ShiftBounded(Xor(c, Bit(bits[0])));
      FeedBounded(Shift(Xor(c, Bit(bits[0]))), bits[1..]);
    }
  }

  lemma ShiftInjective(c: nat, d: nat)
    requires c < 0x10000 && d < 0x10000
    requires Shift(c) == Shift(d)
    ensures c == d
  {
    ShiftBounded(c);
    ShiftBounded(d);
    if c % 2 == 1 {
      XorComm(c / 2, 0xA001);
      XorComm(d / 2, 0xA001);
      XorCancel(0xA001, c / 2, d / 2);
    }
  }

  lemma {:induction false} ShiftsInjective(c: nat, d: nat, n: nat)
    requires c < 0x10000 && d < 0x10000
    requires Shifts(c, n) == Shifts(d, n)
    ensures c == d
    decreases n
  {
    if n > 0 {
      ShiftBounded(c);
      ShiftBounded(d);
      ShiftsInjective(Shift(c), Shift(d), n - 1);
      ShiftInjective(c, d);
    }
  }

  lemma {:induction false} FeedInjective(c: nat, d: nat, bits: seq<bool>)
    requires c < 0x10000 && d < 0x10000
    requires Feed(c, bits) == Feed(d, bits)
    ensures c == d
    decreases bits
  {
    if bits != [] {
      var b := Bit(bits[0]);
      Sixteen();
      XorBounded(c, b, 16);
      XorBounded(d, b, 16);
      ShiftBounded(Xor(c, b));
      ShiftBounded(Xor(d, b));
      FeedInjective(Shift(Xor(c, b)), Shift(Xor(d, b)), bits[1..]);
      ShiftInjective(Xor(c, b), Xor(d, b));
      XorComm(c, b);
      XorComm(d, b);
      XorCancel(b, c, d);
    }
  }

  lemma {:induction false} FeedAppend(c: nat, a: seq<bool>, b: seq<bool>)
    ensures Feed(c, a + b) == Feed(Feed(c, a), b)
    decreases a
  {
    if a == [] {
      assert a + b == b;
    } else {
      assert (a + b)[1..] == a[1..] + b;
      FeedAppend(Shift(Xor(c, Bit(a[0]))), a[1..], b);
    }
  }

  // ----- wire bits as one number -----

  /** First bit least significant. */
  function Pack(bits: seq<bool>): nat {
    if bits == [] then 0 else Bit(bits[0]) + 2 * Pack(bits[1..])
  }

  lemma {:induction false} PackBounded(bits: seq<bool>)
    ensures Pack(bits) < Pow2(|bits|)
  {
    if bits != [] { PackBounded(bits[1..]); }
  }

  lemma {:induction false} PackInjective(u: seq<bool>, v: seq<bool>)
    requires |u| == |v| && Pack(u) == Pack(v)
    ensures u == v
  {
    if u != [] {
      PackInjective(u[1..], v[1..]);
      assert u == [u[0]] + u[1..] && v == [v[0]] + v[1..];
    }
  }

  lemma {:induction false} PackLowBits(b: nat, n: nat)
    requires b < Pow2(n)
    ensures Pack(LowBits(b, n)) == b
    decreases n
  {
    if n > 0 {
      PackLowBits(b / 2, n - 1);
      assert LowBits(b, n)[1..] == LowBits(b / 2, n - 1);
    }
  }

  lemma TimesDouble(x: nat, y: nat)
    ensures (2 * x) * y == 2 * (x * y)
  {}

  lemma {:induction false} PackAppend(a: seq<bool>, b: seq<bool>)
    ensures Pack(a + b) == Pack(a) + Pow2(|a|) * Pack(b)
  {
    if a == [] {
      assert a + b == b;
    } else {
      assert (a + b)[1..] == a[1..] + b;
      PackAppend(a[1..], b);
      TimesDouble(Pow2(|a| - 1), Pack(b));
    }
  }

  /** Shifting a value with a bit below it is stepping that bit in. */
  lemma ShiftXor(c: nat, b: nat, p: nat)
    requires b <= 1
    ensures Shift(Xor(c, b + 2 * p)) == Xor(Shift(Xor(c, b)), p)
  {
    XorHalves(c, b + 2 * p);
    XorHalves(c, b);
    assert Xor(c / 2, 0) == c / 2;
    XorAssoc(c / 2, p, 0xA001);
    XorAssoc(c / 2, 0xA001, p);
    XorComm(p, 0xA001);
  }

  /** Feeding bits one at a time is the same as xor-ing them in at once and then shifting. */
  lemma {:induction false} FeedIsXorThenShift(c: nat, bits: seq<bool>)
    ensures Feed(c, bits) == Shifts(Xor(c, Pack(bits)), |bits|)
    decreases bits
  {
    if bits == [] {
      assert Xor(c, 0) == c;
    } else {
      ShiftXor(c, Bit(bits[0]), Pack(bits[1..]));
      FeedIsXorThenShift(Shift(Xor(c, Bit(bits[0]))), bits[1..]);
    }
  }

  /** The register after at most sixteen bits determines those bits. */
  lemma WindowDetermined(c: nat, u: seq<bool>, v: seq<bool>)
    requires c < 0x10000 && |u| == |v| <= 16
    requires Feed(c, u) == Feed(c, v)
    ensures u == v
  {
    FeedIsXorThenShift(c, u);
    FeedIsXorThenShift(c, v);
    Sixteen();
    Pow2Monotone(|u|, 16);
    PackBounded(u);
    PackBounded(v);
    XorBounded(c, Pack(u), 16);
    XorBounded(c, Pack(v), 16);
    ShiftsInjective(Xor(c, Pack(u)), Xor(c, Pack(v)), |u|);
    XorCancel(c, Pack(u), Pack(v));
    PackInjective(u, v);
  }

  lemma {:induction false} Pow2Monotone(n: nat, m: nat)
    requires n <= m
    ensures Pow2(n) <= Pow2(m)
    decreases m
  {
    if n < m { Pow2Monotone(n, m - 1); }
  }

  // ----- the byte loop -----

  lemma {:induction false} WireBitsAppend(a: seq<Byte>, b: seq<Byte>)
    ensures WireBits(a + b) == WireBits(a) + WireBits(b)
  {
    if a == [] {
      assert a + b == b;
    } else {
      assert (a + b)[1..] == a[1..] + b;
      WireBitsAppend(a[1..], b);
    }
  }

  lemma WireBitsSnoc(a: seq<Byte>, b: Byte)
    ensures WireBits(a + [b]) == WireBits(a) + LowBits(b, 8)
  {
    WireBitsAppend(a, [b]);
    assert WireBits([b]) == LowBits(b, 8) + WireBits([]);
  }

  lemma CrcSnoc(data: seq<Byte>, i: nat)
    requires i < |data|
    ensures Crc(data[..i + 1]) == Shifts(Xor(Crc(data[..i]), data[i]), 8)
  {
    assert data[..i + 1] == data[..i] + [data[i]];
    WireBitsSnoc(data[..i], data[i]);
    FeedAppend(0xFFFF, WireBits(data[..i]), LowBits(data[i], 8));
    FeedIsXorThenShift(Crc(data[..i]), LowBits(data[i], 8));
    Sixteen();
    PackLowBits(data[i], 8);
  }

  lemma CrcStart()
    ensures Crc([]) == 0xFFFF
  {}

  lemma ShiftsOnce(c: nat, n: nat)
    requires n > 0
    ensures Shifts(c, n) == Shifts(Shift(c), n - 1)
  {}

  /** The source's nested loop computes the bit-serial reference. */
  method Crc16Modbus(data: seq<Byte>) returns (crc: nat)
    ensures crc == Crc(data) < 0x10000
  {
    crc := 0xFFFF;
    CrcStart();
    assert data[..0] == [];
    for i := 0 to |data|
      invariant crc == Crc(data[..i])
    {
      CrcSnoc(data, i);
      crc := Xor(crc, data[i]);
      for k := 0 to 8
        invariant Shifts(crc, 8 - k) == Crc(data[..i + 1])
      {
        ShiftsOnce(crc, 8 - k);
        if crc % 2 == 1 {
          crc := Xor(crc / 2, 0xA001);
        } else {
          crc := crc / 2;
        }
      }
    }
    assert data[..|data|] == data;
  }

  // ----- residue -----

  lemma {:induction false} ShiftsZero(n: nat)
    ensures Shifts(0, n) == 0
  {
    if n > 0 { ShiftsZero(n - 1); }
  }

  lemma PackTrailer(low: Byte, high: Byte)
    ensures Pack(LowBits(low, 8) + LowBits(high, 8)) == Join(high, low)
  {
    Sixteen();
    PackLowBits(low, 8);
    PackLowBits(high, 8);
    PackAppend(LowBits(low, 8), LowBits(high, 8));
  }

  lemma FeedTail(c: nat, bits: seq<bool>, tail: seq<bool>)
    ensures Feed(c, bits + tail) == Shifts(Xor(Feed(c, bits), Pack(tail)), |tail|)
  {
    FeedAppend(c, bits, tail);
    FeedIsXorThenShift(Feed(c, bits), tail);
  }

  lemma WireBitsTrailer(body: seq<Byte>, low: Byte, high: Byte)
    ensures WireBits(body + [low] + [high]) == WireBits(body) + (LowBits(low, 8) + LowBits(high, 8))
  {
    WireBitsSnoc(body + [low], high);
    WireBitsSnoc(body, low);
  }

  lemma CrcWithTrailer(body: seq<Byte>, low: Byte, high: Byte)
    ensures Crc(body + [low] + [high]) == Shifts(Xor(Crc(body), Join(high, low)), 16)
  {
    WireBitsTrailer(body, low, high);
    PackTrailer(low, high);
    FeedTail(0xFFFF, WireBits(body), LowBits(low, 8) + LowBits(high, 8));
  }

  lemma ZeroOnlyWhenSame(c: nat, p: nat)
    requires c < 0x10000 && p < 0x10000
    ensures Shifts(Xor(c, p), 16) == 0 <==> c == p
  {
    XorSelf(c);
    ShiftsZero(16);
    if Shifts(Xor(c, p), 16) == 0 {
      Sixteen();
      XorBounded(c, p, 16);
      ShiftsInjective(Xor(c, p), 0, 16);
      XorCancel(c, p, c);
    }
  }

  /** A frame carries the right trailer exactly when the CRC of the whole frame is zero. */
  lemma Residue(frame: seq<Byte>)
    requires |frame| >= 2
    ensures TrailerMatches(frame) <==> Crc(frame) == 0
  {
    var n := |frame| - 2;
    var body, low, high := frame[..n], frame[n], frame[n + 1];
    assert frame == body + [low] + [high];
    CrcWithTrailer(body, low, high);
    ZeroOnlyWhenSame(Crc(body), Join(high, low));
  }

  lemma AppendedTrailerMatches(data: seq<Byte>)
    ensures TrailerMatches(AppendCrc(data)) && Crc(AppendCrc(data)) == 0
  {
    Residue(AppendCrc(data));
  }

  lemma AppendSplit(body: seq<Byte>, low: Byte, high: Byte)
    requires Crc(body) == Join(high, low)
    ensures AppendCrc(body) == body + [low, high]
  {
    JoinSplit(high, low);
  }

  /** A frame whose trailer matches is `AppendCrc` of its body. */
  lemma TrailerDetermined(frame: seq<Byte>)
    requires |frame| >= 2 && TrailerMatches(frame)
    ensures frame == AppendCrc(frame[..|frame| - 2])
  {
    hide Crc;
    var n := |frame| - 2;
    AppendSplit(frame[..n], frame[n], frame[n + 1]);
    assert frame == frame[..n] + [frame[n], frame[n + 1]];
  }

  // ----- error detection -----

  /** Bits of one length that differ only inside sixteen consecutive positions. */
  ghost predicate DifferWithin(a: seq<bool>, b: seq<bool>, k: nat)
    requires |a| == |b|
  {
    forall i | 0 <= i < |a| && !(k <= i < k + 16) :: a[i] == b[i]
  }

  lemma FeedThree(c: nat, x: seq<bool>, u: seq<bool>, z: seq<bool>)
    ensures Feed(c, x + u + z) == Feed(Feed(Feed(c, x), u), z)
  {
    FeedAppend(c, x + u, z);
    FeedAppend(c, x, u);
  }

  lemma SplitThree<T>(a: seq<T>, lo: nat, hi: nat)
    requires lo <= hi <= |a|
    ensures a == a[..lo] + a[lo..hi] + a[hi..]
  {}

  lemma FeedBurstParts(c: nat, x: seq<bool>, u: seq<bool>, v: seq<bool>, z: seq<bool>)
    requires c < 0x10000 && |u| == |v| <= 16
    requires Feed(c, x + u + z) == Feed(c, x + v + z)
    ensures u == v
  {
    FeedThree(c, x, u, z);
    FeedThree(c, x, v, z);
    var d := Feed(c, x);
    FeedBounded(c, x);
    FeedBounded(d, u);
    FeedBounded(d, v);
    FeedInjective(Feed(d, u), Feed(d, v), z);
    WindowDetermined(d, u, v);
  }

  lemma FeedBurst(c: nat, a: seq<bool>, b: seq<bool>, k: nat)
    requires c < 0x10000
    requires |a| == |b| && DifferWithin(a, b, k) && Feed(c, a) == Feed(c, b)
    ensures a == b
  {
    var lo := if k < |a| then k else |a|;
    var hi := if k + 16 < |a| then k + 16 else |a|;
    SplitThree(a, lo, hi);
    SplitThree(b, lo, hi);
    assert a[..lo] == b[..lo] && a[hi..] == b[hi..];
    FeedBurstParts(c, a[..lo], a[lo..hi], b[lo..hi], a[hi..]);
  }

  lemma {:induction false} WireBitsInjective(a: seq<Byte>, b: seq<Byte>)
    requires WireBits(a) == WireBits(b)
    ensures a == b
  {
    if a == [] || b == [] {
      assert |a| == |b|;
    } else {
      assert WireBits(a)[..8] == LowBits(a[0], 8) && WireBits(b)[..8] == LowBits(b[0], 8);
      assert WireBits(a)[8..] == WireBits(a[1..]) && WireBits(b)[8..] == WireBits(b[1..]);
      Sixteen();
      PackLowBits(a[0], 8);
      PackLowBits(b[0], 8);
      WireBitsInjective(a[1..], b[1..]);
    }
  }

  /** Any corruption inside sixteen consecutive wire bits of a valid frame is rejected,
      whatever the length of the frame and wherever the burst lies, trailer included. */
  lemma BurstDetected(good: seq<Byte>, bad: seq<Byte>, k: nat)
    requires |good| == |bad| >= 2 && good != bad
    requires TrailerMatches(good)
    requires DifferWithin(WireBits(good), WireBits(bad), k)
    ensures !TrailerMatches(bad)
  {
    if TrailerMatches(bad) {
      Residue(good);
      Residue(bad);
      FeedBurst(0xFFFF, WireBits(good), WireBits(bad), k);
      WireBitsInjective(good, bad);
    }
  }

  lemma {:induction false} WireBitAt(data: seq<Byte>, i: nat)
    requires i < 8 * |data|
    ensures WireBits(data)[i] == LowBits(data[i / 8], 8)[i % 8]
  {
    var first, rest := LowBits(data[0], 8), WireBits(data[1..]);
    assert WireBits(data) == first + rest;
    if i < 8 {
      assert (first + rest)[i] == first[i];
    } else {
      assert (first + rest)[i] == rest[i - 8];
      assert i / 8 == (i - 8) / 8 + 1 && i % 8 == (i - 8) % 8;
      WireBitAt(data[1..], i - 8);
    }
  }

  /** In particular two adjacent bytes may be replaced by anything. */
  lemma AdjacentBytesDetected(good: seq<Byte>, bad: seq<Byte>, k: nat)
    requires |good| == |bad| >= 2 && good != bad
    requires TrailerMatches(good)
    requires forall i | 0 <= i < |good| && i != k && i != k + 1 :: good[i] == bad[i]
    ensures !TrailerMatches(bad)
  {
    forall i | 0 <= i < 8 * |good| && !(8 * k <= i < 8 * k + 16)
      ensures WireBits(good)[i] == WireBits(bad)[i]
    {
      WireBitAt(good, i);
      WireBitAt(bad, i);
    }
    BurstDetected(good, bad, 8 * k);
  }

  // ----- parity -----

  /** Whether an odd number of bits of n are set. */
  function Odd(n: nat): bool {
    if n == 0 then false else (n % 2 == 1) != Odd(n / 2)
  }

  function Parity(bits: seq<bool>): bool {
    if bits == [] then false else bits[0] != Parity(bits[1..])
  }

  function Distance(a: seq<bool>, b: seq<bool>): nat
    requires |a| == |b|
  {
    if a == [] then 0 else (if a[0] != b[0] then 1 else 0) + Distance(a[1..], b[1..])
  }

  lemma {:induction false} OddXor(a: nat, b: nat)
    ensures Odd(Xor(a, b)) == (Odd(a) != Odd(b))
    decreases a + b
  {
    if a != 0 && b != 0 {
      XorHalves(a, b);
      OddXor(a / 2, b / 2);
    }
  }

  lemma OddConstants()
    ensures Odd(0xA001) && !Odd(0xFFFF) && !Odd(0)
  {
    assert Odd(1) && !Odd(3) && Odd(7) && !Odd(15) && Odd(31) && !Odd(63) && Odd(127) && !Odd(255);
    assert Odd(511) && !Odd(1023) && Odd(2047) && !Odd(4095) && Odd(8191) && !Odd(16383) && Odd(32767);
    assert !Odd(5) && !Odd(10) && !Odd(20) && !Odd(40) && !Odd(80) && !Odd(160) && !Odd(320);
    assert !Odd(640) && !Odd(1280) && !Odd(2560) && !Odd(5120) && !Odd(10240) && !Odd(20480);
  }

  lemma {:induction false} FeedParity(c: nat, bits: seq<bool>)
    ensures Odd(Feed(c, bits)) == (Odd(c) != Parity(bits))
    decreases bits
  {
    if bits != [] {
      var d := Xor(c, Bit(bits[0]));
      OddXor(c, Bit(bits[0]));
      OddXor(d / 2, 0xA001);
      OddConstants();
      assert Odd(Shift(d)) == Odd(d);
      FeedParity(Shift(d), bits[1..]);
    }
  }

  lemma {:induction false} DistanceParity(a: seq<bool>, b: seq<bool>)
    requires |a| == |b|
    ensures (Parity(a) != Parity(b)) <==> Distance(a, b) % 2 == 1
  {
    if a != [] {
      DistanceParity(a[1..], b[1..]);
    }
  }

  /** Any odd number of flipped bits in a valid frame is rejected. */
  lemma OddFlipsDetected(good: seq<Byte>, bad: seq<Byte>)
    requires |good| == |bad| >= 2
    requires TrailerMatches(good)
    requires Distance(WireBits(good), WireBits(bad)) % 2 == 1
    ensures !TrailerMatches(bad)
  {
    Residue(good);
    Residue(bad);
    FeedParity(0xFFFF, WireBits(good));
    FeedParity(0xFFFF, WireBits(bad));
    DistanceParity(WireBits(good), WireBits(bad));
    OddConstants();
  }

  // ----- what the trailer test means: divisibility by the generator polynomial -----

  /** Bit i of a quotient; an index outside counts as zero. */
  predicate At(q: seq<bool>, i: int) {
    0 <= i < |q| && q[i]
  }

  /** Coefficient i of the product of q and x^16 + x^15 + x^2 + 1 is d[i]. */
  predicate ProductAt(d: seq<bool>, q: seq<bool>, i: nat)
    requires i < |d|
  {
    d[i] == (((At(q, i) != At(q, i - 1)) != At(q, i - 14)) != At(q, i - 16))
  }

  /** d is the product of q and x^16 + x^15 + x^2 + 1 over the field of two elements, both
      with their highest power first. */
  predicate IsMultiple(d: seq<bool>, q: seq<bool>) {
    && |d| == |q| + 16
    && forall i | 0 <= i < |d| :: ProductAt(d, q, i)
  }

  /** The wire bits with the first sixteen complemented, which is what the initial register
      of ones amounts to. */
  function Complemented(bits: seq<bool>): (d: seq<bool>)
    ensures |d| == |bits|
    ensures forall i | 0 <= i < |bits| :: d[i] == (if i < 16 then !bits[i] else bits[i])
  {
    seq(|bits|, i requires 0 <= i < |bits| => if i < 16 then !bits[i] else bits[i])
  }

  /** The register bits, lowest first, as the quotient bits so far determine them. */
  function Register(q: seq<bool>): (r: seq<bool>)
    ensures |r| == 16
    ensures forall j | 0 <= j < 16 ::
      r[j] == ((At(q, |q| - 16 + j) != (j <= 13 && At(q, |q| - 14 + j))) != (j == 0 && At(q, |q| - 1)))
  {
    seq(16, j requires 0 <= j < 16 =>
      (At(q, |q| - 16 + j) != (j <= 13 && At(q, |q| - 14 + j))) != (j == 0 && At(q, |q| - 1)))
  }

  /** Each quotient bit is the bit that falls out of the register. */
  function Quotient(d: seq<bool>): (q: seq<bool>)
    ensures |q| == |d|
  {
    if d == [] then []
    else
      var q := Quotient(d[..|d| - 1]);
      q + [d[|d| - 1] != Register(q)[0]]
  }

  /** The register after the bit b has fallen out. */
  function Stepped(r: seq<bool>, b: bool): (t: seq<bool>)
    requires |r| == 16
    ensures |t| == 16
    ensures forall j | 0 <= j < 16 :: t[j] == ((j < 15 && r[j + 1]) != (b && (j == 0 || j == 13 || j == 15)))
  {
    seq(16, j requires 0 <= j < 16 => (j < 15 && r[j + 1]) != (b && (j == 0 || j == 13 || j == 15)))
  }

  lemma RegisterStep(q: seq<bool>, b: bool)
    ensures Register(q + [b]) == Stepped(Register(q), b)
  {
    var r, t := Register(q), Register(q + [b]);
    forall j | 0 <= j < 16 ensures t[j] == Stepped(r, b)[j] {
      assert At(q + [b], |q| - 15 + j) == (if j == 15 then b else At(q, |q| - 15 + j));
      assert j <= 13 ==> At(q + [b], |q| - 13 + j) == (if j == 13 then b else At(q, |q| - 13 + j));
      assert At(q + [b], |q|) == b;
    }
  }

  function XorBits(u: seq<bool>, v: seq<bool>): (w: seq<bool>)
    requires |u| <= |v|
    ensures |w| == |v|
    ensures forall i | 0 <= i < |v| :: w[i] == (if i < |u| then u[i] != v[i] else v[i])
  {
    seq(|v|, i requires 0 <= i < |v| => if i < |u| then u[i] != v[i] else v[i])
  }

  lemma {:induction false} XorPack(u: seq<bool>, v: seq<bool>)
    requires |u| <= |v|
    ensures Xor(Pack(u), Pack(v)) == Pack(XorBits(u, v))
    decreases |u|
  {
    if u == [] {
      assert XorBits(u, v) == v;
    } else {
      XorPack(u[1..], v[1..]);
      assert XorBits(u, v)[1..] == XorBits(u[1..], v[1..]);
      XorHalves(Pack(u), Pack(v));
      PackHalves(u);
      PackHalves(v);
      PackHalves(XorBits(u, v));
    }
  }

  lemma PackHalves(bits: seq<bool>)
    requires bits != []
    ensures Pack(bits) / 2 == Pack(bits[1..]) && Pack(bits) % 2 == Bit(bits[0])
  {}

  lemma LowBitsOne(b: nat, n: nat)
    ensures LowBits(b, n + 1) == [b % 2 == 1] + LowBits(b / 2, n)
  {}

  lemma LowBitsFour(b: nat, n: nat)
    ensures LowBits(b, n + 4) == [b % 2 == 1, b / 2 % 2 == 1, b / 4 % 2 == 1, b / 8 % 2 == 1] + LowBits(b / 16, n)
  {
    hide LowBits;
    LowBitsOne(b, n + 3);
    LowBitsOne(b / 2, n + 2);
    LowBitsOne(b / 4, n + 1);
    LowBitsOne(b / 8, n);
    assert b / 2 / 2 == b / 4 && b / 4 / 2 == b / 8 && b / 8 / 2 == b / 16;
  }

  /** The taps 0xA001 are the powers 15, 2 and 0 of the generator, lowest register bit first. */
  lemma Taps()
    ensures |LowBits(0xA001, 16)| == 16 && Pack(LowBits(0xA001, 16)) == 0xA001
    ensures forall j | 0 <= j < 16 :: LowBits(0xA001, 16)[j] == (j == 0 || j == 13 || j == 15)
  {
    hide LowBits, Pack;
    Sixteen();
    PackLowBits(0xA001, 16);
    LowBitsFour(0xA001, 12);
    LowBitsFour(0xA00, 8);
    LowBitsFour(0xA0, 4);
    LowBitsFour(0xA, 0);
  }

  lemma Ones()
    ensures |LowBits(0xFFFF, 16)| == 16 && Pack(LowBits(0xFFFF, 16)) == 0xFFFF
    ensures forall j | 0 <= j < 16 :: LowBits(0xFFFF, 16)[j]
  {
    hide LowBits, Pack;
    Sixteen();
    PackLowBits(0xFFFF, 16);
    LowBitsFour(0xFFFF, 12);
    LowBitsFour(0xFFF, 8);
    LowBitsFour(0xFF, 4);
    LowBitsFour(0xF, 0);
  }

  lemma {:induction false} PackPadded(bits: seq<bool>)
    ensures Pack(bits + [false]) == Pack(bits)
  {
    if bits != [] {
      PackPadded(bits[1..]);
      assert (bits + [false])[1..] == bits[1..] + [false];
    }
  }

  /** One register step on bits. */
  lemma ShiftPack(r: seq<bool>, x: bool)
    requires |r| == 16
    ensures Shift(Xor(Pack(r), Bit(x))) == Pack(Stepped(r, r[0] != x))
  {
    hide Xor, Pack, LowBits, Stepped;
    PackHalves(r);
    XorHalves(Pack(r), Bit(x));
    XorZero(Pack(r[1..]));
    var padded := r[1..] + [false];
    PackPadded(r[1..]);
    Taps();
    XorPack(padded, LowBits(0xA001, 16));
    if r[0] != x {
      assert XorBits(padded, LowBits(0xA001, 16)) == Stepped(r, true);
    } else {
      assert padded == Stepped(r, false);
    }
  }

  lemma XorZero(a: nat)
    ensures Xor(a, 0) == a
  {}

  lemma {:induction false} PackZero(bits: seq<bool>)
    ensures Pack(bits) == 0 <==> forall i | 0 <= i < |bits| :: !bits[i]
  {
    if bits != [] {
      PackZero(bits[1..]);
      assert (forall i | 0 <= i < |bits| - 1 :: !bits[1..][i]) <==> (forall i | 1 <= i < |bits| :: !bits[i]) by {
        assert forall i | 1 <= i < |bits| :: bits[i] == bits[1..][i - 1];
      }
    }
  }

  /** The register after any bits is the one their quotient determines. */
  lemma {:induction false} FeedQuotient(d: seq<bool>)
    ensures Feed(0, d) == Pack(Register(Quotient(d)))
    decreases |d|
  {
    hide Pack, Register, Stepped, Shift, Xor;
    if d == [] {
      RegisterStart();
    } else {
      var before, x := d[..|d| - 1], d[|d| - 1];
      var q := Quotient(before);
      FeedQuotient(before);
      assert d == before + [x];
      FeedAppend(0, before, [x]);
      FeedOne(Feed(0, before), x);
      ShiftPack(Register(q), x);
      RegisterStep(q, Register(q)[0] != x);
    }
  }

  lemma FeedOne(c: nat, x: bool)
    ensures Feed(c, [x]) == Shift(Xor(c, Bit(x)))
  {}

  lemma RegisterStart()
    ensures Pack(Register([])) == 0
  {
    PackZero(Register([]));
  }

  lemma {:induction false} QuotientPrefix(d: seq<bool>, i: nat)
    requires i <= |d|
    ensures Quotient(d)[..i] == Quotient(d[..i])
    decreases |d|
  {
    hide Register;
    if i < |d| {
      QuotientPrefix(d[..|d| - 1], i);
      assert d[..|d| - 1][..i] == d[..i];
    } else {
      assert d[..i] == d;
    }
  }

  lemma ProductSame(d: seq<bool>, p: seq<bool>, q: seq<bool>, i: nat)
    requires i < |d| && At(p, i) == At(q, i) && At(p, i - 1) == At(q, i - 1)
    requires At(p, i - 14) == At(q, i - 14) && At(p, i - 16) == At(q, i - 16)
    ensures ProductAt(d, p, i) == ProductAt(d, q, i)
  {}

  /** Sequences that start alike have the same early bits. */
  lemma AtPrefix(p: seq<bool>, q: seq<bool>, n: nat, i: int)
    requires n <= |p| && n <= |q| && p[..n] == q[..n] && i < n
    ensures At(p, i) == At(q, i)
  {
    if i >= 0 { assert p[i] == p[..n][i] && q[i] == q[..n][i]; }
  }

  lemma ProductPrefix(d: seq<bool>, p: seq<bool>, q: seq<bool>, n: nat, i: nat)
    requires n <= |p| && n <= |q| && p[..n] == q[..n] && i < n && i < |d|
    ensures ProductAt(d, p, i) == ProductAt(d, q, i)
  {
    hide ProductAt, At;
    AtPrefix(p, q, n, i);
    AtPrefix(p, q, n, i - 1);
    AtPrefix(p, q, n, i - 14);
    AtPrefix(p, q, n, i - 16);
    ProductSame(d, p, q, i);
  }

  /** The bit that falls out is the one the product equation asks for. */
  lemma ProductNext(d: seq<bool>, p: seq<bool>, b: bool)
    requires |p| < |d|
    ensures ProductAt(d, p + [b], |p|) <==> b == (d[|p|] != Register(p)[0])
  {
    var n, q := |p|, p + [b];
    assert At(q, n) == b && At(q, n - 1) == At(p, n - 1);
    assert At(q, n - 14) == At(p, n - 14) && At(q, n - 16) == At(p, n - 16);
  }

  /** The quotient satisfies the product equation at every bit. */
  lemma QuotientProduct(d: seq<bool>, i: nat)
    requires i < |d|
    ensures ProductAt(d, Quotient(d), i)
  {
    hide ProductAt, Register;
    var q, p := Quotient(d), Quotient(d[..i]);
    QuotientPrefix(d, i + 1);
    assert d[..i + 1][..i] == d[..i];
    var r := p + [d[i] != Register(p)[0]];
    assert q[..i + 1] == r;
    ProductNext(d, p, d[i] != Register(p)[0]);
    assert r[..i + 1] == r;
    ProductPrefix(d, q, r, i + 1, i);
  }

  /** And it is the only sequence that does. */
  lemma {:induction false} QuotientUnique(d: seq<bool>, q: seq<bool>, i: nat)
    requires |q| == |d| && i <= |d|
    requires forall k | 0 <= k < |d| :: ProductAt(d, q, k)
    ensures q[..i] == Quotient(d)[..i]
    decreases i
  {
    hide ProductAt, Register, Quotient;
    if i > 0 {
      var p, k := Quotient(d), i - 1;
      QuotientUnique(d, q, k);
      QuotientProduct(d, k);
      var start := q[..k];
      assert q[..i] == start + [q[k]] && p[..i] == start + [p[k]];
      ProductPrefix(d, q, start + [q[k]], i, k);
      ProductPrefix(d, p, start + [p[k]], i, k);
      ProductNext(d, start, q[k]);
      ProductNext(d, start, p[k]);
    }
  }

  /** The register is empty exactly when the last sixteen quotient bits are. */
  lemma RegisterEmpty(q: seq<bool>)
    requires |q| >= 16
    ensures Pack(Register(q)) == 0 <==> forall i | |q| - 16 <= i < |q| :: !q[i]
  {
    hide Pack;
    var r := Register(q);
    PackZero(r);
    if forall i | |q| - 16 <= i < |q| :: !q[i] {
    } else if Pack(r) == 0 {
      LastBits(q, 0);
    }
  }

  lemma {:induction false} LastBits(q: seq<bool>, j: nat)
    requires |q| >= 16 && j <= 16 && forall k | 0 <= k < 16 :: !Register(q)[k]
    ensures forall i | |q| - 16 + j <= i < |q| :: !q[i]
    decreases 16 - j
  {
    if j < 16 {
      LastBits(q, j + 1);
      assert !Register(q)[j];
    }
  }

  lemma FeedComplemented(bits: seq<bool>)
    requires |bits| >= 16
    ensures Feed(0xFFFF, bits) == Feed(0, Complemented(bits))
  {
    hide Pack, Xor, LowBits, Shifts;
    Ones();
    FeedIsXorThenShift(0xFFFF, bits);
    FeedIsXorThenShift(0, Complemented(bits));
    XorPack(LowBits(0xFFFF, 16), bits);
    assert XorBits(LowBits(0xFFFF, 16), bits) == Complemented(bits);
    XorZeroLeft(Pack(Complemented(bits)));
  }

  lemma XorZeroLeft(a: nat)
    ensures Xor(0, a) == a
  {}

  /** The trailer test, without any register: a frame passes if and only if its wire bits,
      with the first sixteen complemented, are a multiple of x^16 + x^15 + x^2 + 1. */
  lemma Divisibility(frame: seq<Byte>)
    requires |frame| >= 2
    ensures TrailerMatches(frame) <==> exists q :: IsMultiple(Complemented(WireBits(frame)), q)
  {
    hide TrailerMatches, WireBits, Register, Pack, Feed, IsMultiple;
    var bits := WireBits(frame);
    var d := Complemented(bits);
    Residue(frame);
    FeedComplemented(bits);
    FeedQuotient(d);
    RegisterEmpty(Quotient(d));
    if TrailerMatches(frame) {
      MultipleOf(d);
    }
    if q :| IsMultiple(d, q) {
      MultipleEnds(d, q);
    }
  }

  lemma MultipleOf(d: seq<bool>)
    requires |d| >= 16 && forall i | |d| - 16 <= i < |d| :: !Quotient(d)[i]
    ensures IsMultiple(d, Quotient(d)[..|d| - 16])
  {
    hide ProductAt, Quotient;
    var p := Quotient(d);
    var q := p[..|d| - 16];
    forall i | 0 <= i < |d| ensures ProductAt(d, q, i) {
      QuotientProduct(d, i);
      ProductSame(d, p, q, i);
    }
  }

  lemma MultipleEnds(d: seq<bool>, q: seq<bool>)
    requires IsMultiple(d, q)
    ensures forall i | |d| - 16 <= i < |d| :: !Quotient(d)[i]
  {
    hide ProductAt, Quotient;
    var p := q + seq(16, _ => false);
    forall k | 0 <= k < |d| ensures ProductAt(d, p, k) {
      assert ProductAt(d, q, k);
      ProductSame(d, p, q, k);
    }
    QuotientUnique(d, p, |d|);
    assert p[..|d|] == p && Quotient(d)[..|d|] == Quotient(d);
  }
}

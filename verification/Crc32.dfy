// The 32-bit checksum of utilities/crc.c, bit by bit and by table, and the start values
// that make the two agree.
module Crc32 {
  import opened CrcTables
  import opened CrcBursts

  // One pass of the inner loop of slow_crc32: a message bit enters at the bottom.
  function SlowBit(sum: bv32, bit: bool): bv32 {
    var s := if bit then Set32(Left32(sum)) else Left32(sum);
    if Top32(sum) then Xor32(s, POLY32) else s
  }

  // n passes, the byte being shifted out at the top.
  function SlowBits(sum: bv32, byte: bv8, n: nat): bv32
    decreases n
  {
    if n == 0 then sum else SlowBits(SlowBit(sum, Top8(byte)), Left8(byte), n - 1)
  }

  function FastByte(sum: bv32, byte: bv8): bv32 {
    Xor32(Crc32Table((sum >> 24) as bv8 ^ byte), sum << 8)
  }

  function Slow(sum: bv32, m: seq<bv8>): bv32
    decreases |m|
  {
    if m == [] then sum else Slow(SlowBits(sum, m[0], 8), m[1..])
  }

  function Fast(sum: bv32, m: seq<bv8>): bv32
    decreases |m|
  {
    if m == [] then sum else Fast(FastByte(sum, m[0]), m[1..])
  }

  method FastCrc32(sum: bv32, p: seq<bv8>) returns (r: bv32)
    ensures r == Fast(sum, p)
  {
    hide Crc32Table, Xor32;
    r := sum;
    var i := 0;
    while i < |p|
      invariant 0 <= i <= |p| && Fast(r, p[i..]) == Fast(sum, p)
    {
      r := Xor32(Crc32Table((r >> 24) as bv8 ^ p[i]), r << 8);
      i := i + 1;
    }
  }

  method SlowCrc32(sum: bv32, p: seq<bv8>) returns (r: bv32)
    ensures r == Slow(sum, p)
  {
    hide Left32, Xor32, Top32, Left8, Top8, Set32;
    r := sum;
    var i := 0;
    while i < |p|
      invariant 0 <= i <= |p| && Slow(r, p[i..]) == Slow(sum, p)
    {
      var byte := p[i];
      ghost var before := r;
      for k := 0 to 8
        invariant SlowBits(r, byte, 8 - k) == SlowBits(before, p[i], 8)
      {
        var osum := r;
        r := Left32(r);
        if Top8(byte) {
          r := Set32(r);
        }
        if Top32(osum) {
          r := Xor32(r, POLY32);
        }
        byte := Left8(byte);
      }
      i := i + 1;
    }
  }

  // ---- laws ----

  lemma LeftLinear(x: bv32, y: bv32)
    ensures Left32(Xor32(x, y)) == Xor32(Left32(x), Left32(y))
  {
  }

  lemma TopLinear(x: bv32, y: bv32)
    ensures Top32(Xor32(x, y)) == (Top32(x) != Top32(y))
  {
  }

  lemma ShiftLinear(x: bv32, y: bv32)
    ensures Shift32(Xor32(x, y)) == Xor32(Shift32(x), Shift32(y))
  {
    hide Xor32, Left32, Top32;
    LeftLinear(x, y);
    TopLinear(x, y);
    var a, b := Left32(x), Left32(y);
    Xor32Swap(a, POLY32, b, POLY32);
    Xor32Swap(a, POLY32, b, 0);
    Xor32Swap(a, 0, b, POLY32);
    Xor32Laws(a, b, a);
    Xor32Laws(b, b, b);
    Xor32Laws(POLY32, 0, 0);
    Xor32Laws(Xor32(a, b), a, a);
  }

  lemma EightLinear(x: bv32, y: bv32)
    ensures Eight32(Xor32(x, y)) == Xor32(Eight32(x), Eight32(y))
  {
    hide Four32, Xor32;
    FourLinear(x, y);
    FourLinear(Four32(x), Four32(y));
  }

  lemma FourLinear(x: bv32, y: bv32)
    ensures Four32(Xor32(x, y)) == Xor32(Four32(x), Four32(y))
  {
    hide Two32, Xor32;
    TwoLinear(x, y);
    TwoLinear(Two32(x), Two32(y));
  }

  lemma TwoLinear(x: bv32, y: bv32)
    ensures Two32(Xor32(x, y)) == Xor32(Two32(x), Two32(y))
  {
    hide Shift32, Xor32;
    ShiftLinear(x, y);
    ShiftLinear(Shift32(x), Shift32(y));
  }

  // What is in the lower three quarters moves up a quarter untouched.
  lemma EightLow(x: bv32)
    ensures Eight32(x & 0xFF_FFFF) == (x & 0xFF_FFFF) << 8
  {
  }

  // ---- the two algorithms in the same terms ----

  function ShiftN(s: bv32, n: nat): bv32
    decreases n
  {
    if n == 0 then s else ShiftN(Shift32(s), n - 1)
  }

  lemma {:induction false} ShiftNLinear(x: bv32, y: bv32, n: nat)
    ensures ShiftN(Xor32(x, y), n) == Xor32(ShiftN(x, n), ShiftN(y, n))
    decreases n
  {
    hide Shift32, Xor32;
    if n > 0 {
      ShiftLinear(x, y);
      ShiftNLinear(Shift32(x), Shift32(y), n - 1);
    }
  }

  lemma SlowBitIs(sum: bv32, bit: bool)
    ensures SlowBit(sum, bit) == Xor32(Shift32(sum), if bit then 1 else 0)
  {
    hide Xor32, Top32, Left32, Set32;
    var a := Left32(sum);
    LowBit(sum);
    Xor32Swap(a, 1, POLY32, 0);
    Xor32Laws(a, POLY32, 1);
    Xor32Laws(a, 1, POLY32);
    Xor32Laws(1, POLY32, a);
    Xor32Laws(Xor32(a, POLY32), 0, 0);
  }

  lemma LowBit(s: bv32)
    ensures Set32(Left32(s)) == Xor32(Left32(s), 1)
  {
  }

  // The n highest bits of a byte, at the bottom.
  function High(byte: bv8, n: nat): bv32 {
    match n
    case 0 => 0
    case 1 => (byte >> 7) as bv32
    case 2 => (byte >> 6) as bv32
    case 3 => (byte >> 5) as bv32
    case 4 => (byte >> 4) as bv32
    case 5 => (byte >> 3) as bv32
    case 6 => (byte >> 2) as bv32
    case 7 => (byte >> 1) as bv32
    case _ => byte as bv32
  }

  lemma HighZero(byte: bv8)
    ensures High(byte, 0) == 0 && High(byte, 8) == byte as bv32
  {
  }

  lemma HighStep(byte: bv8, n: nat)
    requires 1 <= n <= 8
    ensures High(byte, n) == Xor32(ShiftN(if Top8(byte) then 1 else 0, n - 1), High(Left8(byte), n - 1))
  {
    hide ShiftN;
    ShiftNOne(n - 1);
    match n
    case 1 => case 2 => case 3 => case 4 => case 5 => case 6 => case 7 => case _ =>
  }

  lemma ShiftNOne(n: nat)
    requires n <= 7
    ensures ShiftN(0, n) == 0
    ensures ShiftN(1, n) ==
            match n
            case 0 => 1 case 1 => 2 case 2 => 4 case 3 => 8
            case 4 => 16 case 5 => 32 case 6 => 64 case _ => 128
  {
  }

  // Bits fed in at the bottom do not meet the polynomial within a byte.
  lemma {:induction false} SlowBitsIs(sum: bv32, byte: bv8, n: nat)
    requires n <= 8
    ensures SlowBits(sum, byte, n) == Xor32(ShiftN(sum, n), High(byte, n))
    decreases n
  {
    hide Xor32, Shift32, SlowBit, High, Top8, Left8;
    HighZero(byte);
    if n == 0 {
      Xor32Laws(sum, sum, sum);
    } else {
      var bit := Top8(byte);
      var t: bv32 := if bit then 1 else 0;
      SlowBitIs(sum, bit);
      SlowBitsIs(SlowBit(sum, bit), Left8(byte), n - 1);
      ShiftNLinear(Shift32(sum), t, n - 1);
      HighStep(byte, n);
      Xor32Laws(ShiftN(Shift32(sum), n - 1), ShiftN(t, n - 1), High(Left8(byte), n - 1));
    }
  }

  lemma ShiftNEight(s: bv32)
    ensures ShiftN(s, 8) == Eight32(s)
  {
    hide Shift32;
    assert ShiftN(s, 8) == ShiftN(Two32(s), 6);
    assert ShiftN(Two32(s), 6) == ShiftN(Four32(s), 4);
    var t := Four32(s);
    assert ShiftN(t, 4) == ShiftN(Two32(t), 2);
  }

  // A byte through the bitwise loop: eight shifts, and the byte ends up at the bottom.
  lemma SlowByteIs(sum: bv32, byte: bv8)
    ensures SlowBits(sum, byte, 8) == Xor32(Eight32(sum), byte as bv32)
  {
    hide Xor32, Eight32, High;
    SlowBitsIs(sum, byte, 8);
    ShiftNEight(sum);
    HighZero(byte);
  }

  // A byte through the table: it enters at the top, and then eight shifts.
  lemma FastByteIs(sum: bv32, byte: bv8)
    ensures FastByte(sum, byte) == Eight32(Xor32(sum, (byte as bv32) << 24))
  {
    hide Xor32, Eight32, Crc32Table;
    var index := (sum >> 24) as bv8 ^ byte;
    Crc32Entry(index);
    EightLow(sum);
    Quarters(sum, byte);
    EightLinear((index as bv32) << 24, sum & 0xFF_FFFF);
  }

  lemma Quarters(sum: bv32, byte: bv8)
    ensures Xor32(sum, (byte as bv32) << 24) == Xor32((((sum >> 24) as bv8 ^ byte) as bv32) << 24, sum & 0xFF_FFFF)
    ensures (sum & 0xFF_FFFF) << 8 == sum << 8
  {
  }

  // ---- the two algorithms agree ----

  // Four zero bytes, pushing the register through.
  function Push(s: bv32): bv32 { Eight32(Eight32(Eight32(Eight32(s)))) }

  // A byte in one of the quarters of a word.
  function Placed(b: bv8, k: nat): bv32 {
    match k
    case 0 => b as bv32
    case 1 => (b as bv32) << 8
    case 2 => (b as bv32) << 16
    case _ => (b as bv32) << 24
  }

  lemma PlacedLow(b: bv8, k: nat)
    requires k <= 2
    ensures Placed(b, k) & 0xFF_FFFF == Placed(b, k) && Placed(b, k) << 8 == Placed(b, k + 1)
  {
    match k
    case 0 => case 1 => case _ =>
  }

  lemma ByteLow(b: bv8)
    ensures Eight32(Placed(b, 0)) == Placed(b, 1)
    ensures Eight32(Placed(b, 1)) == Placed(b, 2)
    ensures Eight32(Placed(b, 2)) == Placed(b, 3)
  {
    hide Eight32, Placed;
    PlacedLow(b, 0);
    PlacedLow(b, 1);
    PlacedLow(b, 2);
    EightLow(Placed(b, 0));
    EightLow(Placed(b, 1));
    EightLow(Placed(b, 2));
  }

  lemma FastByteAt(sum: bv32, byte: bv8)
    ensures FastByte(sum, byte) == Eight32(Xor32(sum, Placed(byte, 3)))
  {
    hide FastByte, Eight32, Xor32;
    FastByteIs(sum, byte);
  }

  lemma PushLinear(x: bv32, y: bv32)
    ensures Push(Xor32(x, y)) == Xor32(Push(x), Push(y))
  {
    hide Eight32, Xor32;
    EightLinear(x, y);
    var (x1, y1) := (Eight32(x), Eight32(y));
    EightLinear(x1, y1);
    EightLinear(Eight32(x1), Eight32(y1));
    EightLinear(Eight32(Eight32(x1)), Eight32(Eight32(y1)));
  }

  // One byte of the message, with the four zero bytes that push it through still to come.
  lemma BothBytes(s: bv32, byte: bv8)
    ensures Push(SlowBits(s, byte, 8)) == FastByte(Push(s), byte)
  {
    hide Xor32, Eight32, SlowBits, FastByte, Placed;
    SlowByteIs(s, byte);
    PlacedFirst(byte);
    FastByteAt(Push(s), byte);
    PushLinear(Eight32(s), Placed(byte, 0));
    ByteLow(byte);
    EightLinear(Push(s), Placed(byte, 3));
  }

  lemma PlacedFirst(byte: bv8)
    ensures Placed(byte, 0) == byte as bv32
  {
  }

  lemma {:induction false} SlowAppend(s: bv32, m: seq<bv8>, n: seq<bv8>)
    ensures Slow(s, m + n) == Slow(Slow(s, m), n)
    decreases |m|
  {
    hide SlowBits;
    if m == [] {
      assert m + n == n;
    } else {
      SlowAppend(SlowBits(s, m[0], 8), m[1..], n);
      assert (m + n)[1..] == m[1..] + n;
    }
  }

  lemma SlowZeros(s: bv32)
    ensures Slow(s, [0, 0, 0, 0]) == Push(s)
  {
    hide Xor32, Eight32, SlowBits, Slow;
    SlowZero(s, [0, 0, 0]);
    SlowZero(Eight32(s), [0, 0]);
    SlowZero(Eight32(Eight32(s)), [0]);
    SlowZero(Eight32(Eight32(Eight32(s))), []);
    SlowNothing(Push(s));
  }

  lemma SlowNothing(s: bv32)
    ensures Slow(s, []) == s
  {
  }

  lemma SlowZero(s: bv32, rest: seq<bv8>)
    ensures Slow(s, [0] + rest) == Slow(Eight32(s), rest)
    ensures rest == [0, 0, 0] ==> [0] + rest == [0, 0, 0, 0]
    ensures rest == [0, 0] ==> [0] + rest == [0, 0, 0]
    ensures rest == [0] ==> [0] + rest == [0, 0]
    ensures rest == [] ==> [0] + rest == [0]
  {
    hide Xor32, Eight32, SlowBits;
    assert ([0] + rest)[1..] == rest;
    SlowByteIs(s, 0);
    Xor32Laws(Eight32(s), 0, 0);
  }

  lemma {:induction false} Pushed(s: bv32, m: seq<bv8>)
    ensures Push(Slow(s, m)) == Fast(Push(s), m)
    decreases |m|
  {
    hide Push, SlowBits, FastByte;
    if m != [] {
      BothBytes(s, m[0]);
      Pushed(SlowBits(s, m[0], 8), m[1..]);
    }
  }

  // ---- the start value ----

  // Byte (start >> val) & 0xFF.
  function ByteOf(start: bv32, val: nat): bv8 {
    match val
    case 24 => ((start >> 24) & 0xFF) as bv8
    case 16 => ((start >> 16) & 0xFF) as bv8
    case 8 => ((start >> 8) & 0xFF) as bv8
    case _ => (start & 0xFF) as bv8
  }

  // The bytes of a start value from bit val downward, highest first.
  function BytesBelow(start: bv32, val: nat): seq<bv8> {
    if val < 8 then [] else [ByteOf(start, val - 8)] + BytesBelow(start, val - 8)
  }

  function InitValue(start: bv32): bv32 {
    if start == 0 then 0 else Fast(0, BytesBelow(start, 32))
  }

  method SetCrc32InitValue(start: bv32) returns (init: bv32)
    ensures init == InitValue(start)
  {
    hide Crc32Table, ByteOf, Xor32;
    init := 0;
    if start != 0 {
      var val := 32;
      while val != 0
        invariant val in {0, 8, 16, 24, 32}
        invariant Fast(init, BytesBelow(start, val)) == Fast(0, BytesBelow(start, 32))
      {
        val := val - 8;
        var byte := ByteOf(start, val);
        assert BytesBelow(start, val + 8)[1..] == BytesBelow(start, val);
        init := Xor32(Crc32Table((init >> 24) as bv8 ^ byte), init << 8);
      }
    }
  }

  lemma FourBytes(start: bv32)
    ensures BytesBelow(start, 32) == [ByteOf(start, 24), ByteOf(start, 16), ByteOf(start, 8), ByteOf(start, 0)]
  {
    assert BytesBelow(start, 0) == [];
    assert BytesBelow(start, 8) == [ByteOf(start, 0)];
    assert BytesBelow(start, 16) == [ByteOf(start, 8), ByteOf(start, 0)];
  }

  lemma FastFour(s: bv32, a: bv8, b: bv8, c: bv8, d: bv8)
    ensures Fast(s, [a, b, c, d]) == FastByte(FastByte(FastByte(FastByte(s, a), b), c), d)
  {
    hide FastByte;
    assert [a, b, c, d][1..] == [b, c, d] && [b, c, d][1..] == [c, d] && [c, d][1..] == [d] && [d][1..] == [];
    var t := FastByte(FastByte(s, a), b);
    assert Fast(t, [c, d]) == Fast(FastByte(t, c), [d]);
    assert Fast(FastByte(t, c), [d]) == FastByte(FastByte(t, c), d);
  }

  function Joined(p: bv8, q: bv8, r: bv8, s: bv8): bv32 {
    Xor32(Xor32(Xor32(Placed(p, 3), Placed(q, 2)), Placed(r, 1)), Placed(s, 0))
  }

  // A byte of a word, where it is in the word.
  function Quarter(x: bv32, k: nat): bv32 {
    match k
    case 0 => x & 0xFF
    case 1 => x & 0xFF00
    case 2 => x & 0xFF_0000
    case _ => x & 0xFF00_0000
  }

  lemma QuarterIs(x: bv32)
    ensures Placed(ByteOf(x, 24), 3) == Quarter(x, 3)
    ensures Placed(ByteOf(x, 16), 2) == Quarter(x, 2)
    ensures Placed(ByteOf(x, 8), 1) == Quarter(x, 1)
    ensures Placed(ByteOf(x, 0), 0) == Quarter(x, 0)
  {
  }

  function TopTwo(x: bv32): bv32 { x & 0xFFFF_0000 }

  function TopThree(x: bv32): bv32 { x & 0xFFFF_FF00 }

  lemma JoinTwo(x: bv32)
    ensures Xor32(Quarter(x, 3), Quarter(x, 2)) == TopTwo(x)
  {
  }

  lemma JoinThree(x: bv32)
    ensures Xor32(TopTwo(x), Quarter(x, 1)) == TopThree(x)
  {
  }

  lemma JoinFour(x: bv32)
    ensures Xor32(TopThree(x), Quarter(x, 0)) == x
  {
  }

  lemma Assembled(start: bv32)
    ensures Joined(ByteOf(start, 24), ByteOf(start, 16), ByteOf(start, 8), ByteOf(start, 0)) == start
  {
    hide ByteOf, Placed, Quarter, TopTwo, TopThree, Xor32;
    QuarterIs(start);
    JoinTwo(start);
    JoinThree(start);
    JoinFour(start);
  }

  // Four bytes through the table are four bytes into the register at once.
  lemma FourAtOnce(s: bv32, p: bv8, q: bv8, r: bv8, t: bv8)
    ensures Fast(s, [p, q, r, t]) == Push(Xor32(s, Joined(p, q, r, t)))
  {
    hide Xor32, Eight32, FastByte, Fast, Placed;
    FastFour(s, p, q, r, t);
    ByteLow(q);
    ByteLow(r);
    ByteLow(t);
    var v3, v2, v1, v0 := Placed(p, 3), Placed(q, 2), Placed(r, 1), Placed(t, 0);
    FastByteAt(s, p);
    var u := Xor32(s, v3);
    FastByteAt(Eight32(u), q);
    EightLinear(u, v2);
    var w := Xor32(u, v2);
    FastByteAt(Eight32(Eight32(w)), r);
    EightLinear(Eight32(w), Eight32(v1));
    EightLinear(w, v1);
    var x := Xor32(w, v1);
    FastByteAt(Eight32(Eight32(Eight32(x))), t);
    EightLinear(Eight32(Eight32(x)), Eight32(Eight32(v0)));
    EightLinear(Eight32(x), Eight32(v0));
    EightLinear(x, v0);
    Xor32Laws(s, v3, v2);
    Xor32Laws(s, Xor32(v3, v2), v1);
    Xor32Laws(s, Xor32(Xor32(v3, v2), v1), v0);
  }

  lemma InitIsPush(start: bv32)
    ensures InitValue(start) == Push(start)
  {
    hide Xor32, Push, Fast, ByteOf, BytesBelow, Joined;
    if start == 0 {
      PushZero();
    } else {
      FourBytes(start);
      FourAtOnce(0, ByteOf(start, 24), ByteOf(start, 16), ByteOf(start, 8), ByteOf(start, 0));
      Assembled(start);
      Xor32Laws(0, start, 0);
      Xor32Laws(start, 0, 0);
    }
  }

  lemma PushZero()
    ensures Push(0) == 0
  {
  }

  // For every start value and message: the bitwise checksum of the message followed by
  // four zero bytes is the table-driven one of the message, started from
  // set_crc32_init_value.
  lemma SlowEqualsFast(s: bv32, m: seq<bv8>)
    ensures Slow(s, m + [0, 0, 0, 0]) == Fast(InitValue(s), m)
  {
    hide Slow, Fast, Push, InitValue;
    SlowAppend(s, m, [0, 0, 0, 0]);
    SlowZeros(Slow(s, m));
    InitIsPush(s);
    Pushed(s, m);
  }

  // ---- residue ----

  lemma ShiftKernel(x: bv32)
    ensures Shift32(x) == 0 <==> x == 0
  {
  }

  lemma EightKernel(x: bv32)
    ensures Eight32(x) == 0 <==> x == 0
  {
    hide Shift32;
    ShiftKernel(x);
    ShiftKernel(Shift32(x));
    ShiftKernel(Two32(x));
    ShiftKernel(Shift32(Two32(x)));
    ShiftKernel(Four32(x));
    ShiftKernel(Shift32(Four32(x)));
    ShiftKernel(Two32(Four32(x)));
    ShiftKernel(Shift32(Two32(Four32(x))));
  }

  lemma PushKernel(x: bv32)
    ensures Push(x) == 0 <==> x == 0
  {
    hide Eight32;
    EightKernel(x);
    EightKernel(Eight32(x));
    EightKernel(Eight32(Eight32(x)));
    EightKernel(Eight32(Eight32(Eight32(x))));
  }

  lemma {:induction false} FastAppend(s: bv32, m: seq<bv8>, n: seq<bv8>)
    ensures Fast(s, m + n) == Fast(Fast(s, m), n)
    decreases |m|
  {
    hide FastByte;
    if m == [] {
      assert m + n == n;
    } else {
      FastAppend(FastByte(s, m[0]), m[1..], n);
      assert (m + n)[1..] == m[1..] + n;
    }
  }

  // The bytes of a register, highest first.
  function HighFirst(r: bv32): seq<bv8> { [ByteOf(r, 24), ByteOf(r, 16), ByteOf(r, 8), ByteOf(r, 0)] }

  function Word(q: seq<bv8>): bv32
    requires |q| == 4
  {
    Joined(q[0], q[1], q[2], q[3])
  }

  lemma ByteOfJoined(p: bv8, q: bv8, r: bv8, s: bv8)
    ensures ByteOf(Joined(p, q, r, s), 24) == p
    ensures ByteOf(Joined(p, q, r, s), 16) == q
    ensures ByteOf(Joined(p, q, r, s), 8) == r
    ensures ByteOf(Joined(p, q, r, s), 0) == s
  {
  }

  lemma WordIs(r: bv32, q: seq<bv8>)
    requires |q| == 4
    ensures r == Word(q) <==> HighFirst(r) == q
  {
    hide ByteOf, Joined;
    Assembled(r);
    ByteOfJoined(q[0], q[1], q[2], q[3]);
    assert q == [q[0], q[1], q[2], q[3]];
  }

  lemma WordOf(q: seq<bv8>)
    requires |q| == 4
    ensures Word(q) == Joined(q[0], q[1], q[2], q[3])
  {
  }

  // A frame of a message and four more bytes has checksum zero exactly if those bytes are
  // the checksum of the message, high byte first.
  lemma Residue(s: bv32, m: seq<bv8>, q: seq<bv8>)
    requires |q| == 4
    ensures Fast(s, m + q) == 0 <==> q == HighFirst(Fast(s, m))
  {
    hide Xor32, Push, Fast, Word, HighFirst, Joined;
    var r := Fast(s, m);
    FastAppend(s, m, q);
    FourAtOnce(r, q[0], q[1], q[2], q[3]);
    assert q == [q[0], q[1], q[2], q[3]];
    WordOf(q);
    PushKernel(Xor32(r, Word(q)));
    Xor32Zero(r, Word(q));
    WordIs(r, q);
  }

  // ---- bursts ----

  // One message bit: it meets the top bit of the register.
  function Enter(s: bv32, bit: bool): bv32 {
    Shift32(Xor32(s, if bit then 0x8000_0000 else 0))
  }

  // The n highest bits of a byte where they meet the register.
  function Upper(byte: bv8, n: nat): bv32 {
    match n
    case 0 => 0
    case 1 => ((byte & 0x80) as bv32) << 24
    case 2 => ((byte & 0xC0) as bv32) << 24
    case 3 => ((byte & 0xE0) as bv32) << 24
    case 4 => ((byte & 0xF0) as bv32) << 24
    case 5 => ((byte & 0xF8) as bv32) << 24
    case 6 => ((byte & 0xFC) as bv32) << 24
    case 7 => ((byte & 0xFE) as bv32) << 24
    case _ => (byte as bv32) << 24
  }

  lemma UpperStep(byte: bv8, n: nat)
    requires 1 <= n <= 8
    ensures Upper(byte, n) == Xor32(if Top8(byte) then 0x8000_0000 else 0, Upper(byte & 0x7F, n))
  {
    match n
    case 1 => case 2 => case 3 => case 4 => case 5 => case 6 => case 7 => case _ =>
  }

  lemma UpperShift(byte: bv8, n: nat)
    requires 1 <= n <= 8
    ensures Shift32(Upper(byte & 0x7F, n)) == Upper(Left8(byte), n - 1)
  {
    match n
    case 1 => case 2 => case 3 => case 4 => case 5 => case 6 => case 7 => case _ =>
  }

  lemma UpperEnds(byte: bv8)
    ensures Upper(byte, 0) == 0 && Upper(byte, 8) == (byte as bv32) << 24
  {
  }

  lemma EnterIs(s: bv32, bit: bool)
    ensures Enter(s, bit) == Shift32(Xor32(s, if bit then 0x8000_0000 else 0))
  {
  }

  // The register as a code for bursts; see CrcBursts.
  function Register32(): Code<bv32> { Code(Enter, Xor32, 0, Marked, 32) }

  lemma {:induction false} FedBits(s: bv32, byte: bv8, n: nat)
    requires n <= 8
    ensures Fed(Register32(), s, TopBits(byte, n)) == ShiftN(Xor32(s, Upper(byte, n)), n)
    decreases n
  {
    hide Xor32, Shift32, Upper, Enter, Marked, Top8, Left8;
    UpperEnds(byte);
    if n == 0 {
      Xor32Laws(s, s, s);
    } else {
      var bit := Top8(byte);
      var t: bv32 := if bit then 0x8000_0000 else 0;
      var u := Upper(byte & 0x7F, n);
      FedBits(Enter(s, bit), Left8(byte), n - 1);
      UpperStep(byte, n);
      UpperShift(byte, n);
      Xor32Laws(s, t, u);
      ShiftLinear(Xor32(s, t), u);
      EnterIs(s, bit);
      assert TopBits(byte, n)[1..] == TopBits(Left8(byte), n - 1);
    }
  }

  lemma {:induction false} FedMessage(s: bv32, m: seq<bv8>)
    ensures Fed(Register32(), s, MessageBits(m)) == Fast(s, m)
    decreases |m|
  {
    hide Xor32, Shift32, Upper, Enter, Marked, FastByte, TopBits, Eight32, ShiftN;
    if m != [] {
      FedAppend(Register32(), s, TopBits(m[0], 8), MessageBits(m[1..]));
      FedBits(s, m[0], 8);
      UpperEnds(m[0]);
      ShiftNEight(Xor32(s, (m[0] as bv32) << 24));
      FastByteIs(s, m[0]);
      FedMessage(FastByte(s, m[0]), m[1..]);
    }
  }

  lemma EnterLinear(x: bv32, y: bv32, c: bool, d: bool)
    ensures Xor32(Enter(x, c), Enter(y, d)) == Enter(Xor32(x, y), c != d)
  {
    hide Xor32, Shift32;
    var a: bv32, b: bv32 := if c then 0x8000_0000 else 0, if d then 0x8000_0000 else 0;
    ShiftLinear(Xor32(x, a), Xor32(y, b));
    Xor32Swap(x, a, y, b);
    Xor32Laws(0x8000_0000, 0x8000_0000, 0);
    Xor32Laws(0, 0x8000_0000, 0);
    Xor32Laws(0, 0, 0);
  }

  // The j lowest bits.
  function Mask(j: nat): bv32 {
    match j
    case 0 => 0x0 case 1 => 0x1 case 2 => 0x3 case 3 => 0x7
    case 4 => 0xF case 5 => 0x1F case 6 => 0x3F case 7 => 0x7F
    case 8 => 0xFF case 9 => 0x1FF case 10 => 0x3FF case 11 => 0x7FF
    case 12 => 0xFFF case 13 => 0x1FFF case 14 => 0x3FFF case 15 => 0x7FFF
    case 16 => 0xFFFF case 17 => 0x1FFFF case 18 => 0x3FFFF case 19 => 0x7FFFF
    case 20 => 0xFFFFF case 21 => 0x1FFFFF case 22 => 0x3FFFFF case 23 => 0x7FFFFF
    case 24 => 0xFFFFFF case 25 => 0x1FFFFFF case 26 => 0x3FFFFFF case 27 => 0x7FFFFFF
    case 28 => 0xFFFFFFF case 29 => 0x1FFFFFFF case 30 => 0x3FFFFFFF case 31 => 0x7FFFFFFF
    case _ => 0xFFFFFFFF
  }

  predicate Hits(x: bv32, m: bv32) { x & m != 0 }

  // One more lowest bit.
  function Grown(m: bv32): bv32 { (m << 1) | 1 }

  // The lowest bit is set.
  predicate Ends(x: bv32) { x & 1 == 1 }

  // Marked: one of the j lowest bits is set.  The polynomial has its lowest bit set, so
  // whenever it is added the register is marked, and otherwise marks move up.
  predicate Marked(x: bv32, j: nat) { Hits(x, Mask(j)) }

  lemma MaskStep(j: nat)
    requires 1 <= j < 32
    ensures Mask(j + 1) == Grown(Mask(j)) && Mask(j) & 0x8000_0000 == 0
  {
    match j
    case 1 => case 2 => case 3 => case 4 => case 5 => case 6 => case 7 => case 8 =>
    case 9 => case 10 => case 11 => case 12 => case 13 => case 14 => case 15 => case 16 =>
    case 17 => case 18 => case 19 => case 20 => case 21 => case 22 => case 23 => case 24 =>
    case 25 => case 26 => case 27 => case 28 => case 29 => case 30 => case _ =>
  }

  lemma MaskEnds(j: nat)
    requires 1 <= j
    ensures Ends(Mask(j))
  {
  }

  lemma MarksMove(x: bv32, m: bv32)
    ensures x & m != 0 && m & 0x8000_0000 == 0 ==> (x << 1) & ((m << 1) | 1) != 0
  {
  }

  lemma EndsMeet(x: bv32, m: bv32)
    ensures x & 1 == 1 && m & 1 == 1 ==> x & m != 0
  {
  }

  lemma GrownEnds(m: bv32)
    ensures ((m << 1) | 1) & 1 == 1
  {
  }

  lemma PolyEnds(x: bv32)
    ensures ((x << 1) ^ POLY32) & 1 == 1
  {
  }

  lemma InputLeaves(x: bv32)
    ensures (x ^ 0x8000_0000) << 1 == x << 1 && x ^ 0 == x
  {
  }

  // A step adds the polynomial or moves the register on.
  lemma EnterForms(x: bv32, c: bool)
    ensures Ends(Enter(x, c)) || Enter(x, c) == Left32(x)
  {
    hide Top32;
    var y := x ^ if c then 0x8000_0000 else 0;
    PolyEnds(y);
    InputLeaves(x);
  }

  lemma MovedHits(x: bv32, m: bv32)
    requires Hits(x, m) && m & 0x8000_0000 == 0
    ensures Hits(Left32(x), Grown(m))
  {
    MarksMove(x, m);
  }

  lemma EndsHits(x: bv32, m: bv32)
    ensures Ends(x) && Ends(m) ==> Hits(x, m)
    ensures Ends(Grown(m))
    ensures !Hits(0, m)
  {
    EndsMeet(x, m);
    GrownEnds(m);
  }

  lemma EnterMarks(x: bv32, c: bool, j: nat)
    ensures Starts(Register32(), j) && Climbs(Register32(), x, c, j) && Shows(Register32(), x, j)
  {
    hide Xor32, Enter, Mask, Hits, Grown, Ends, Left32;
    if 1 <= j <= 32 {
      MaskEnds(j);
      StartEnds();
      EndsHits(Enter(0, true), Mask(j));
      EndsHits(x, Mask(j));
    }
    if 1 <= j < 32 && Marked(x, j) {
      MaskStep(j);
      EnterForms(x, c);
      MovedHits(x, Mask(j));
      EndsHits(Enter(x, c), Grown(Mask(j)));
      EndsHits(Mask(j), Mask(j));
    }
  }

  lemma StartEnds()
    ensures Ends(Enter(0, true))
  {
  }

  lemma EnterPair(x: bv32, y: bv32, c: bool, d: bool)
    ensures Cancels(Register32(), x, y) && SameBit(Register32(), x, y, c) && OtherBit(Register32(), x, y, c, d)
  {
    hide Xor32, Enter, Marked;
    Xor32Zero(x, y);
    EnterLinear(x, y, c, c);
    EnterLinear(x, y, c, d);
  }

  lemma EnterKeeps(x: bv32)
    ensures Keeps(Register32(), x)
  {
    hide Xor32, Shift32, Enter, Marked;
    EnterIs(x, false);
    Xor32Laws(x, x, x);
    ShiftKernel(x);
  }

  lemma EnterSees()
    ensures Linear(Register32()) && Marks(Register32())
  {
    hide Xor32, Enter, Marked, Cancels, SameBit, OtherBit, Keeps, Starts, Climbs, Shows;
    var r := Register32();
    forall x, y ensures Cancels(r, x, y) { EnterPair(x, y, false, false); }
    forall x, y, c ensures SameBit(r, x, y, c) { EnterPair(x, y, c, c); }
    forall x, y, c, d ensures OtherBit(r, x, y, c, d) { EnterPair(x, y, c, d); }
    forall x ensures Keeps(r, x) { EnterKeeps(x); }
    forall j: nat ensures Starts(r, j) { EnterMarks(0, false, j); }
    forall x, c, j: nat ensures Climbs(r, x, c, j) { EnterMarks(x, c, j); }
    forall x, j: nat ensures Shows(r, x, j) { EnterMarks(x, false, j); }
  }

  // Two messages of equal length that differ, and differ only within 32 consecutive bits,
  // never share a checksum.
  lemma BurstDetected(s: bv32, m1: seq<bv8>, m2: seq<bv8>, a: seq<bool>, x: seq<bool>, y: seq<bool>, b: seq<bool>)
    requires MessageBits(m1) == a + x + b && MessageBits(m2) == a + y + b
    requires |x| == |y| <= 32 && x != y
    ensures Fast(s, m1) != Fast(s, m2)
  {
    hide Fast, Fed, Linear, Marks, MessageBits, Enter, Marked, Xor32;
    EnterSees();
    BurstSeen(Register32(), s, a, x, y, b);
    FedMessage(s, m1);
    FedMessage(s, m2);
  }
}

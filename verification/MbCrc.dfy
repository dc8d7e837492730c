// The Modbus checksum of sources/mbcrc.c.
module MbCrc {
  import opened CrcTables
  import opened CrcBursts

  function Byte(crc: bv16, byte: bv8): bv16 {
    Xor16(crc >> 8, MbTable((crc & 0xFF) as bv8 ^ byte))
  }

  function Register(crc: bv16, m: seq<bv8>): bv16
    decreases |m|
  {
    if m == [] then crc else Register(Byte(crc, m[0]), m[1..])
  }

  // The value as it is returned, its bytes exchanged.
  function Swap(crc: bv16): bv16 { (crc << 8) | (crc >> 8) }

  function Checksum(m: seq<bv8>): bv16 { Swap(Register(0xFFFF, m)) }

  // The index is 16 bits wide, so only lengths below 2^16 are ever reached.
  method ModbusCrc(data: seq<bv8>, len: int) returns (crc: bv16)
    requires len <= |data| && len <= 65535
    ensures crc == Checksum(data[..if len < 0 then 0 else len])
  {
    hide MbTable, Xor16, Swap;
    crc := 0xFFFF;
    ghost var m := data[..if len < 0 then 0 else len];
    var i := 0;
    while i < len
      invariant 0 <= i <= |m| && Register(crc, m[i..]) == Register(0xFFFF, m)
      decreases len - i
    {
      crc := Xor16(crc >> 8, MbTable((crc & 0xFF) as bv8 ^ data[i]));
      i := (i + 1) % 65536;
    }
    SwapIs(crc);
    var temp := (crc >> 8) as bv8;
    crc := (crc << 8) | (temp as bv16);
  }

  // Beyond that the loop never ends: every value of the index passes its test, and so does
  // the next one.
  lemma NeverEnds(len: int, i: int)
    requires len > 65535 && 0 <= i < 65536
    ensures i < len && 0 <= (i + 1) % 65536 < len
  {
  }

  lemma SwapIs(crc: bv16)
    ensures Swap(crc) == (crc << 8) | (((crc >> 8) as bv8) as bv16)
  {
  }

  // ---- laws ----

  lemma RightLinear(x: bv16, y: bv16)
    ensures Right16(Xor16(x, y)) == Xor16(Right16(x), Right16(y))
  {
  }

  lemma BottomLinear(x: bv16, y: bv16)
    ensures Bottom16(Xor16(x, y)) == (Bottom16(x) != Bottom16(y))
  {
  }

  lemma ShiftLinear(x: bv16, y: bv16)
    ensures ShiftMb(Xor16(x, y)) == Xor16(ShiftMb(x), ShiftMb(y))
  {
    hide Xor16, Right16, Bottom16;
    RightLinear(x, y);
    BottomLinear(x, y);
    var a, b := Right16(x), Right16(y);
    Xor16Swap(a, POLYMB, b, POLYMB);
    Xor16Swap(a, POLYMB, b, 0);
    Xor16Swap(a, 0, b, POLYMB);
    Xor16Laws(a, b, a);
    Xor16Laws(b, b, b);
    Xor16Laws(POLYMB, 0, 0);
    Xor16Laws(Xor16(a, b), a, a);
  }

  lemma EightLinear(x: bv16, y: bv16)
    ensures EightMb(Xor16(x, y)) == Xor16(EightMb(x), EightMb(y))
  {
    hide FourMb, Xor16;
    FourLinear(x, y);
    FourLinear(FourMb(x), FourMb(y));
  }

  lemma FourLinear(x: bv16, y: bv16)
    ensures FourMb(Xor16(x, y)) == Xor16(FourMb(x), FourMb(y))
  {
    hide TwoMb, Xor16;
    TwoLinear(x, y);
    TwoLinear(TwoMb(x), TwoMb(y));
  }

  lemma TwoLinear(x: bv16, y: bv16)
    ensures TwoMb(Xor16(x, y)) == Xor16(TwoMb(x), TwoMb(y))
  {
    hide ShiftMb, Xor16;
    ShiftLinear(x, y);
    ShiftLinear(ShiftMb(x), ShiftMb(y));
  }

  // A byte in the upper half is shifted into the lower half untouched.
  lemma EightHigh(b: bv8)
    ensures EightMb((b as bv16) << 8) == b as bv16
  {
  }

  lemma Halves(crc: bv16, byte: bv8)
    ensures var index := (crc & 0xFF) as bv8 ^ byte;
            var high := (crc >> 8) as bv8;
            && Xor16(crc, byte as bv16) == Xor16(index as bv16, (high as bv16) << 8)
            && high as bv16 == crc >> 8
  {
  }

  // A byte through the table: it enters at the bottom, and then eight shifts.
  lemma ByteIs(crc: bv16, byte: bv8)
    ensures Byte(crc, byte) == EightMb(Xor16(crc, byte as bv16))
  {
    hide Xor16, EightMb, MbTable;
    var index := (crc & 0xFF) as bv8 ^ byte;
    var high := (crc >> 8) as bv8;
    MbEntry(index);
    EightHigh(high);
    Halves(crc, byte);
    EightLinear(index as bv16, (high as bv16) << 8);
    Xor16Laws(EightMb(index as bv16), high as bv16, 0);
  }

  // ---- residue ----

  lemma ShiftKernel(x: bv16)
    ensures ShiftMb(x) == 0 <==> x == 0
  {
  }

  lemma EightKernel(x: bv16)
    ensures EightMb(x) == 0 <==> x == 0
  {
    hide ShiftMb;
    ShiftKernel(x);
    ShiftKernel(ShiftMb(x));
    ShiftKernel(TwoMb(x));
    ShiftKernel(ShiftMb(TwoMb(x)));
    ShiftKernel(FourMb(x));
    ShiftKernel(ShiftMb(FourMb(x)));
    ShiftKernel(TwoMb(FourMb(x)));
    ShiftKernel(ShiftMb(TwoMb(FourMb(x))));
  }

  lemma EightInjective(x: bv16, y: bv16)
    ensures EightMb(x) == EightMb(y) <==> x == y
  {
    hide EightMb, Xor16;
    EightLinear(x, y);
    EightKernel(Xor16(x, y));
    Xor16Zero(x, y);
    Xor16Zero(EightMb(x), EightMb(y));
  }

  // x and y are the two bytes of a value, high byte first.
  predicate HighThenLow(value: bv16, x: bv8, y: bv8) {
    x == (value >> 8) as bv8 && y == (value & 0xFF) as bv8
  }

  lemma TwoBytes(r: bv16, x: bv8, y: bv8)
    ensures Xor16(r, x as bv16) == (y as bv16) << 8 <==> HighThenLow(Swap(r), x, y)
  {
  }

  lemma SwapZero(r: bv16, t: bv16)
    ensures Swap(r) == 0 <==> r == 0
    ensures Swap(r) == Swap(t) <==> r == t
  {
  }

  lemma {:induction false} RegisterAppend(s: bv16, m: seq<bv8>, n: seq<bv8>)
    ensures Register(s, m + n) == Register(Register(s, m), n)
    decreases |m|
  {
    hide Byte;
    if m == [] {
      assert m + n == n;
    } else {
      RegisterAppend(Byte(s, m[0]), m[1..], n);
      assert (m + n)[1..] == m[1..] + n;
    }
  }

  lemma RegisterTwo(r: bv16, x: bv8, y: bv8)
    ensures Register(r, [x, y]) == Byte(Byte(r, x), y)
  {
    hide Byte;
    assert [x, y][1..] == [y] && [y][1..] == [];
    assert Register(Byte(r, x), [y]) == Byte(Byte(r, x), y);
  }

  // Two bytes clear the register exactly if the first leaves its upper half equal to
  // the second.
  lemma Cleared(r: bv16, x: bv8, y: bv8)
    ensures Register(r, [x, y]) == 0 <==> Xor16(r, x as bv16) == (y as bv16) << 8
  {
    hide Xor16, EightMb, Byte, Register;
    var u := Xor16(r, x as bv16);
    RegisterTwo(r, x, y);
    ByteIs(r, x);
    ByteIs(EightMb(u), y);
    EightKernel(Xor16(EightMb(u), y as bv16));
    Xor16Zero(EightMb(u), y as bv16);
    EightHigh(y);
    EightInjective(u, (y as bv16) << 8);
  }

  // A frame of a message and two more bytes has checksum zero exactly if those bytes are
  // the checksum of the message as it was returned, high byte first.
  lemma Residue(m: seq<bv8>, x: bv8, y: bv8)
    ensures Checksum(m + [x, y]) == 0 <==> HighThenLow(Checksum(m), x, y)
  {
    hide Xor16, Register, Swap, HighThenLow;
    var r := Register(0xFFFF, m);
    RegisterAppend(0xFFFF, m, [x, y]);
    SwapZero(Register(r, [x, y]), 0);
    Cleared(r, x, y);
    TwoBytes(r, x, y);
  }

  // ---- bursts ----

  function ShiftN(s: bv16, n: nat): bv16
    decreases n
  {
    if n == 0 then s else ShiftN(ShiftMb(s), n - 1)
  }

  lemma ShiftNEight(s: bv16)
    ensures ShiftN(s, 8) == EightMb(s)
  {
    hide ShiftMb;
    assert ShiftN(s, 8) == ShiftN(TwoMb(s), 6);
    assert ShiftN(TwoMb(s), 6) == ShiftN(FourMb(s), 4);
    var t := FourMb(s);
    assert ShiftN(t, 4) == ShiftN(TwoMb(t), 2);
  }

  // One message bit: it meets the bottom bit of the register.
  function Enter(s: bv16, bit: bool): bv16 {
    ShiftMb(Xor16(s, if bit then 1 else 0))
  }

  // The n lowest bits of a byte, and the bits of a message, in the order in which they
  // are fed.
  function LowBits(byte: bv8, n: nat): seq<bool>
    decreases n
  {
    if n == 0 then [] else [byte & 1 != 0] + LowBits(byte >> 1, n - 1)
  }

  function Bits(m: seq<bv8>): seq<bool> {
    if m == [] then [] else LowBits(m[0], 8) + Bits(m[1..])
  }

  // The n lowest bits of a byte where they meet the register.
  function Lower(byte: bv8, n: nat): bv16 {
    match n
    case 0 => 0
    case 1 => (byte & 1) as bv16
    case 2 => (byte & 3) as bv16
    case 3 => (byte & 7) as bv16
    case 4 => (byte & 0xF) as bv16
    case 5 => (byte & 0x1F) as bv16
    case 6 => (byte & 0x3F) as bv16
    case 7 => (byte & 0x7F) as bv16
    case _ => byte as bv16
  }

  lemma LowerStep(byte: bv8, n: nat)
    requires 1 <= n <= 8
    ensures Lower(byte, n) == Xor16(if byte & 1 != 0 then 1 else 0, Lower(byte & 0xFE, n))
  {
  }

  lemma LowerShift(byte: bv8, n: nat)
    requires 1 <= n <= 8
    ensures ShiftMb(Lower(byte & 0xFE, n)) == Lower(byte >> 1, n - 1)
  {
  }

  lemma LowerEnds(byte: bv8)
    ensures Lower(byte, 0) == 0 && Lower(byte, 8) == byte as bv16
  {
  }

  lemma EnterIs(s: bv16, bit: bool)
    ensures Enter(s, bit) == ShiftMb(Xor16(s, if bit then 1 else 0))
  {
  }

  // The register as a code for bursts; see CrcBursts.
  function RegisterMb(): Code<bv16> { Code(Enter, Xor16, 0, Marked, 16) }

  lemma {:induction false} FedBits(s: bv16, byte: bv8, n: nat)
    requires n <= 8
    ensures Fed(RegisterMb(), s, LowBits(byte, n)) == ShiftN(Xor16(s, Lower(byte, n)), n)
    decreases n
  {
    hide Xor16, ShiftMb, Lower, Enter, Marked;
    LowerEnds(byte);
    if n == 0 {
      Xor16Laws(s, s, s);
    } else {
      var bit := byte & 1 != 0;
      var t: bv16 := if bit then 1 else 0;
      var u := Lower(byte & 0xFE, n);
      FedBits(Enter(s, bit), byte >> 1, n - 1);
      LowerStep(byte, n);
      LowerShift(byte, n);
      Xor16Laws(s, t, u);
      ShiftLinear(Xor16(s, t), u);
      EnterIs(s, bit);
      assert LowBits(byte, n)[1..] == LowBits(byte >> 1, n - 1);
    }
  }

  lemma {:induction false} FedMessage(s: bv16, m: seq<bv8>)
    ensures Fed(RegisterMb(), s, Bits(m)) == Register(s, m)
    decreases |m|
  {
    hide Xor16, ShiftMb, Lower, Enter, Marked, Byte, LowBits, EightMb, ShiftN;
    if m != [] {
      FedAppend(RegisterMb(), s, LowBits(m[0], 8), Bits(m[1..]));
      FedBits(s, m[0], 8);
      LowerEnds(m[0]);
      ShiftNEight(Xor16(s, m[0] as bv16));
      ByteIs(s, m[0]);
      FedMessage(Byte(s, m[0]), m[1..]);
    }
  }

  lemma EnterLinear(x: bv16, y: bv16, c: bool, d: bool)
    ensures Xor16(Enter(x, c), Enter(y, d)) == Enter(Xor16(x, y), c != d)
  {
    hide Xor16, ShiftMb;
    var a: bv16, b: bv16 := if c then 1 else 0, if d then 1 else 0;
    ShiftLinear(Xor16(x, a), Xor16(y, b));
    Xor16Swap(x, a, y, b);
    Xor16Laws(1, 1, 0);
    Xor16Laws(0, 1, 0);
    Xor16Laws(0, 0, 0);
  }

  // The j highest bits.
  function Mask(j: nat): bv16 {
    match j
    case 0 => 0x0 case 1 => 0x8000 case 2 => 0xC000 case 3 => 0xE000
    case 4 => 0xF000 case 5 => 0xF800 case 6 => 0xFC00 case 7 => 0xFE00
    case 8 => 0xFF00 case 9 => 0xFF80 case 10 => 0xFFC0 case 11 => 0xFFE0
    case 12 => 0xFFF0 case 13 => 0xFFF8 case 14 => 0xFFFC case 15 => 0xFFFE
    case _ => 0xFFFF
  }

  predicate Hits(x: bv16, m: bv16) { x & m != 0 }

  // One more highest bit.
  function Grown(m: bv16): bv16 { (m >> 1) | 0x8000 }

  // The highest bit is set.
  predicate Ends(x: bv16) { x & 0x8000 == 0x8000 }

  // Marked: one of the j highest bits is set.  The polynomial has its highest bit set, so
  // whenever it is added the register is marked, and otherwise marks move down.
  predicate Marked(x: bv16, j: nat) { Hits(x, Mask(j)) }

  lemma MaskStep(j: nat)
    requires 1 <= j < 16
    ensures Mask(j + 1) == Grown(Mask(j)) && Mask(j) & 1 == 0
  {
    match j
    case 1 => case 2 => case 3 => case 4 => case 5 => case 6 => case 7 => case 8 =>
    case 9 => case 10 => case 11 => case 12 => case 13 => case 14 => case _ =>
  }

  lemma MaskEnds(j: nat)
    requires 1 <= j
    ensures Ends(Mask(j))
  {
  }

  lemma MarksMove(x: bv16, m: bv16)
    ensures x & m != 0 && m & 1 == 0 ==> (x >> 1) & ((m >> 1) | 0x8000) != 0
  {
  }

  lemma EndsMeet(x: bv16, m: bv16)
    ensures x & 0x8000 == 0x8000 && m & 0x8000 == 0x8000 ==> x & m != 0
  {
  }

  lemma GrownEnds(m: bv16)
    ensures ((m >> 1) | 0x8000) & 0x8000 == 0x8000
  {
  }

  lemma PolyEnds(x: bv16)
    ensures ((x >> 1) ^ POLYMB) & 0x8000 == 0x8000
  {
  }

  lemma InputLeaves(x: bv16)
    ensures (x ^ 1) >> 1 == x >> 1 && x ^ 0 == x
  {
  }

  // A step adds the polynomial or moves the register on.
  lemma EnterForms(x: bv16, c: bool)
    ensures Ends(Enter(x, c)) || Enter(x, c) == Right16(x)
  {
    hide Bottom16;
    var y := x ^ if c then 1 else 0;
    PolyEnds(y);
    InputLeaves(x);
  }

  lemma MovedHits(x: bv16, m: bv16)
    requires Hits(x, m) && m & 1 == 0
    ensures Hits(Right16(x), Grown(m))
  {
    MarksMove(x, m);
  }

  lemma EndsHits(x: bv16, m: bv16)
    ensures Ends(x) && Ends(m) ==> Hits(x, m)
    ensures Ends(Grown(m))
    ensures !Hits(0, m)
  {
    EndsMeet(x, m);
    GrownEnds(m);
  }

  lemma EnterMarks(x: bv16, c: bool, j: nat)
    ensures Starts(RegisterMb(), j) && Climbs(RegisterMb(), x, c, j) && Shows(RegisterMb(), x, j)
  {
    hide Xor16, Enter, Mask, Hits, Grown, Ends, Right16;
    if 1 <= j <= 16 {
      MaskEnds(j);
      StartEnds();
      EndsHits(Enter(0, true), Mask(j));
      EndsHits(x, Mask(j));
    }
    if 1 <= j < 16 && Marked(x, j) {
      MaskStep(j);
      EnterForms(x, c);
      MovedHits(x, Mask(j));
      EndsHits(Enter(x, c), Grown(Mask(j)));
      EndsHits(Mask(j), Mask(j));
    }
  }

  lemma StartEnds()
    ensures Ends(Enter(0, true))
  {
  }

  lemma EnterPair(x: bv16, y: bv16, c: bool, d: bool)
    ensures Cancels(RegisterMb(), x, y) && SameBit(RegisterMb(), x, y, c) && OtherBit(RegisterMb(), x, y, c, d)
  {
    hide Xor16, Enter, Marked;
    Xor16Zero(x, y);
    EnterLinear(x, y, c, c);
    EnterLinear(x, y, c, d);
  }

  lemma EnterKeeps(x: bv16)
    ensures Keeps(RegisterMb(), x)
  {
    hide Xor16, ShiftMb, Enter, Marked;
    EnterIs(x, false);
    Xor16Laws(x, x, x);
    ShiftKernel(x);
  }

  lemma EnterSees()
    ensures Linear(RegisterMb()) && Marks(RegisterMb())
  {
    hide Xor16, Enter, Marked, Cancels, SameBit, OtherBit, Keeps, Starts, Climbs, Shows;
    var r := RegisterMb();
    forall x, y ensures Cancels(r, x, y) { EnterPair(x, y, false, false); }
    forall x, y, c ensures SameBit(r, x, y, c) { EnterPair(x, y, c, c); }
    forall x, y, c, d ensures OtherBit(r, x, y, c, d) { EnterPair(x, y, c, d); }
    forall x ensures Keeps(r, x) { EnterKeeps(x); }
    forall j: nat ensures Starts(r, j) { EnterMarks(0, false, j); }
    forall x, c, j: nat ensures Climbs(r, x, c, j) { EnterMarks(x, c, j); }
    forall x, j: nat ensures Shows(r, x, j) { EnterMarks(x, false, j); }
  }

  // Two messages of equal length that differ, and differ only within 16 consecutive bits,
  // lowest bit of each byte first, never share a checksum.
  lemma BurstDetected(m1: seq<bv8>, m2: seq<bv8>, a: seq<bool>, x: seq<bool>, y: seq<bool>, b: seq<bool>)
    requires Bits(m1) == a + x + b && Bits(m2) == a + y + b
    requires |x| == |y| <= 16 && x != y
    ensures Checksum(m1) != Checksum(m2)
  {
    hide Register, Fed, Linear, Marks, Bits, Swap, Enter, Marked, Xor16;
    EnterSees();
    BurstSeen(RegisterMb(), 0xFFFF, a, x, y, b);
    FedMessage(0xFFFF, m1);
    FedMessage(0xFFFF, m2);
    SwapZero(Register(0xFFFF, m1), Register(0xFFFF, m2));
  }

  // ---- the start value ----

  lemma Linearity()
    ensures Linear(RegisterMb())
  {
    hide Linear, Marks;
    EnterSees();
  }

  // Different registers stay different, whatever message follows.
  lemma RegistersApart(s: bv16, t: bv16, m: seq<bv8>)
    requires s != t
    ensures Register(s, m) != Register(t, m)
  {
    hide Register, Fed, Linear, Bits, Enter, Marked, Xor16;
    Linearity();
    FedMessage(s, m);
    FedMessage(t, m);
    StaysDifferent(RegisterMb(), s, t, Bits(m));
  }

  // A zero byte in front of a message is seen: the register does not start at zero.
  lemma LeadingZeroIsSeen(m: seq<bv8>)
    ensures Checksum([0] + m) != Checksum(m)
  {
    hide Register, Swap, Byte;
    RegisterOfZero(m);
    StartMoves();
    RegistersApart(Byte(0xFFFF, 0), 0xFFFF, m);
    SwapZero(Register(0xFFFF, [0] + m), Register(0xFFFF, m));
  }

  lemma RegisterOfZero(m: seq<bv8>)
    ensures Register(0xFFFF, [0] + m) == Register(Byte(0xFFFF, 0), m)
  {
    hide Byte;
    assert ([0] + m)[1..] == m;
  }

  lemma StartMoves()
    ensures Byte(0xFFFF, 0) == 0x40BF
  {
  }

  // The checksums of no bytes and of two short frames.
  lemma NoBytes()
    ensures Checksum([]) == 0xFFFF
  {
  }

  lemma TwoByteFrame()
    ensures Checksum([0x02, 0x07]) == 0x4112
  {
    hide Byte;
    TwoByteFrame1();
    TwoByteFrame2();
    assert [0x02, 0x07][1..] == [0x07];
    assert [0x07][1..] == [];
    assert Register(0x813E, [0x07]) == 0x1241;
    assert Register(0xFFFF, [0x02, 0x07]) == 0x1241;
  }

  lemma TwoByteFrame1()
    ensures Byte(0xFFFF, 0x02) == 0x813E
  {
  }

  lemma TwoByteFrame2()
    ensures Byte(0x813E, 0x07) == 0x1241
  {
  }

  lemma SixByteFrame()
    ensures Checksum([0x01, 0x03, 0x00, 0x00, 0x00, 0x0A]) == 0xC5CD
  {
    hide Byte;
    SixByteFrame1();
    SixByteFrame2();
    SixByteFrame3();
    SixByteFrame4();
    SixByteFrame5();
    SixByteFrame6();
    assert [0x01, 0x03, 0x00, 0x00, 0x00, 0x0A][1..] == [0x03, 0x00, 0x00, 0x00, 0x0A];
    assert [0x03, 0x00, 0x00, 0x00, 0x0A][1..] == [0x00, 0x00, 0x00, 0x0A];
    assert [0x00, 0x00, 0x00, 0x0A][1..] == [0x00, 0x00, 0x0A];
    assert [0x00, 0x00, 0x0A][1..] == [0x00, 0x0A];
    assert [0x00, 0x0A][1..] == [0x0A];
    assert [0x0A][1..] == [];
    assert Register(0x8419, [0x0A]) == 0xCDC5;
    assert Register(0xD8F1, [0x00, 0x0A]) == 0xCDC5;
    assert Register(0xF020, [0x00, 0x00, 0x0A]) == 0xCDC5;
    assert Register(0x2140, [0x00, 0x00, 0x00, 0x0A]) == 0xCDC5;
    assert Register(0x807E, [0x03, 0x00, 0x00, 0x00, 0x0A]) == 0xCDC5;
    assert Register(0xFFFF, [0x01, 0x03, 0x00, 0x00, 0x00, 0x0A]) == 0xCDC5;
  }

  lemma SixByteFrame1()
    ensures Byte(0xFFFF, 0x01) == 0x807E
  {
  }

  lemma SixByteFrame2()
    ensures Byte(0x807E, 0x03) == 0x2140
  {
  }

  lemma SixByteFrame3()
    ensures Byte(0x2140, 0x00) == 0xF020
  {
  }

  lemma SixByteFrame4()
    ensures Byte(0xF020, 0x00) == 0xD8F1
  {
  }

  lemma SixByteFrame5()
    ensures Byte(0xD8F1, 0x00) == 0x8419
  {
  }

  lemma SixByteFrame6()
    ensures Byte(0x8419, 0x0A) == 0xCDC5
  {
  }
}

// The 16-bit checksum of utilities/crc.c, bit by bit and by table.
module Crc16 {
  import opened CrcTables
  import opened CrcBursts

  // One pass of the inner loop of slow_crc16: a message bit enters at the bottom.
  function SlowBit(sum: bv16, bit: bool): bv16 {
    var s := if bit then Set16(Left16(sum)) else Left16(sum);
    if Top16(sum) then Xor16(s, POLY16) else s
  }

  // n passes, the byte being shifted out at the top.
  function SlowBits(sum: bv16, byte: bv8, n: nat): bv16
    decreases n
  {
    if n == 0 then sum else SlowBits(SlowBit(sum, Top8(byte)), Left8(byte), n - 1)
  }

  function FastByte(sum: bv16, byte: bv8): bv16 {
    Xor16(Crc16Table((sum >> 8) as bv8 ^ byte), sum << 8)
  }

  function Slow(sum: bv16, m: seq<bv8>): bv16
    decreases |m|
  {
    if m == [] then sum else Slow(SlowBits(sum, m[0], 8), m[1..])
  }

  function Fast(sum: bv16, m: seq<bv8>): bv16
    decreases |m|
  {
    if m == [] then sum else Fast(FastByte(sum, m[0]), m[1..])
  }

  method FastCrc16(sum: bv16, p: seq<bv8>) returns (r: bv16)
    ensures r == Fast(sum, p)
  {
    hide Crc16Table, Xor16;
    r := sum;
    var i := 0;
    while i < |p|
      invariant 0 <= i <= |p| && Fast(r, p[i..]) == Fast(sum, p)
    {
      r := Xor16(Crc16Table((r >> 8) as bv8 ^ p[i]), r << 8);
      i := i + 1;
    }
  }

  method SlowCrc16(sum: bv16, p: seq<bv8>) returns (r: bv16)
    ensures r == Slow(sum, p)
  {
    hide Left16, Xor16, Top16, Left8, Top8, Set16;
    r := sum;
    var i := 0;
    while i < |p|
      invariant 0 <= i <= |p| && Slow(r, p[i..]) == Slow(sum, p)
    {
      var byte := p[i];
      ghost var before := r;
      for k := 0 to 8
        invariant SlowBits(r, byte, 8 - k) == SlowBits(before, p[i], 8)
      {
        var osum := r;
        r := Left16(r);
        if Top8(byte) {
          r := Set16(r);
        }
        if Top16(osum) {
          r := Xor16(r, POLY16);
        }
        byte := Left8(byte);
      }
      i := i + 1;
    }
  }

  // ---- laws ----

  lemma LeftLinear(x: bv16, y: bv16)
    ensures Left16(Xor16(x, y)) == Xor16(Left16(x), Left16(y))
  {
  }

  lemma TopLinear(x: bv16, y: bv16)
    ensures Top16(Xor16(x, y)) == (Top16(x) != Top16(y))
  {
  }

  lemma ShiftLinear(x: bv16, y: bv16)
    ensures Shift16(Xor16(x, y)) == Xor16(Shift16(x), Shift16(y))
  {
    hide Xor16, Left16, Top16;
    LeftLinear(x, y);
    TopLinear(x, y);
    var a, b := Left16(x), Left16(y);
    Xor16Swap(a, POLY16, b, POLY16);
    Xor16Swap(a, POLY16, b, 0);
    Xor16Swap(a, 0, b, POLY16);
    Xor16Laws(a, b, a);
    Xor16Laws(b, b, b);
    Xor16Laws(POLY16, 0, 0);
    Xor16Laws(Xor16(a, b), a, a);
  }

  lemma EightLinear(x: bv16, y: bv16)
    ensures Eight16(Xor16(x, y)) == Xor16(Eight16(x), Eight16(y))
  {
    hide Four16, Xor16;
    FourLinear(x, y);
    FourLinear(Four16(x), Four16(y));
  }

  lemma FourLinear(x: bv16, y: bv16)
    ensures Four16(Xor16(x, y)) == Xor16(Four16(x), Four16(y))
  {
    hide Two16, Xor16;
    TwoLinear(x, y);
    TwoLinear(Two16(x), Two16(y));
  }

  lemma TwoLinear(x: bv16, y: bv16)
    ensures Two16(Xor16(x, y)) == Xor16(Two16(x), Two16(y))
  {
    hide Shift16, Xor16;
    ShiftLinear(x, y);
    ShiftLinear(Shift16(x), Shift16(y));
  }

  // A byte in the lower half is shifted into the upper half untouched.
  lemma EightLow(b: bv8)
    ensures Eight16(b as bv16) == (b as bv16) << 8
  {
  }

  // ---- the two algorithms in the same terms ----

  function ShiftN(s: bv16, n: nat): bv16
    decreases n
  {
    if n == 0 then s else ShiftN(Shift16(s), n - 1)
  }

  lemma {:induction false} ShiftNLinear(x: bv16, y: bv16, n: nat)
    ensures ShiftN(Xor16(x, y), n) == Xor16(ShiftN(x, n), ShiftN(y, n))
    decreases n
  {
    hide Shift16, Xor16;
    if n > 0 {
      ShiftLinear(x, y);
      ShiftNLinear(Shift16(x), Shift16(y), n - 1);
    }
  }

  lemma SlowBitIs(sum: bv16, bit: bool)
    ensures SlowBit(sum, bit) == Xor16(Shift16(sum), if bit then 1 else 0)
  {
    hide Xor16, Top16, Left16, Set16;
    var a := Left16(sum);
    LowBit(sum);
    Xor16Swap(a, 1, POLY16, 0);
    Xor16Laws(a, POLY16, 1);
    Xor16Laws(a, 1, POLY16);
    Xor16Laws(1, POLY16, a);
    Xor16Laws(Xor16(a, POLY16), 0, 0);
  }

  lemma LowBit(s: bv16)
    ensures Set16(Left16(s)) == Xor16(Left16(s), 1)
  {
  }

  // The n highest bits of a byte, at the bottom.
  function High(byte: bv8, n: nat): bv16 {
    match n
    case 0 => 0
    case 1 => (byte >> 7) as bv16
    case 2 => (byte >> 6) as bv16
    case 3 => (byte >> 5) as bv16
    case 4 => (byte >> 4) as bv16
    case 5 => (byte >> 3) as bv16
    case 6 => (byte >> 2) as bv16
    case 7 => (byte >> 1) as bv16
    case _ => byte as bv16
  }

  lemma HighZero(byte: bv8)
    ensures High(byte, 0) == 0 && High(byte, 8) == byte as bv16
  {
  }

  lemma HighStep(byte: bv8, n: nat)
    requires 1 <= n <= 8
    ensures High(byte, n) == Xor16(ShiftN(if Top8(byte) then 1 else 0, n - 1), High(Left8(byte), n - 1))
  {
    hide ShiftN;
    ShiftNOne(n - 1);
    match n
    case 1 => case 2 => case 3 => case 4 => case 5 => case 6 => case 7 => case _ =>
  }

  lemma ShiftNOne(n: nat)
    requires n <= 7
    ensures ShiftN(0, n) == 0
    ensures ShiftN(1, n) ==
            match n
            case 0 => 1 case 1 => 2 case 2 => 4 case 3 => 8
            case 4 => 16 case 5 => 32 case 6 => 64 case _ => 128
  {
  }

  // Bits fed in at the bottom do not meet the polynomial within a byte.
  lemma {:induction false} SlowBitsIs(sum: bv16, byte: bv8, n: nat)
    requires n <= 8
    ensures SlowBits(sum, byte, n) == Xor16(ShiftN(sum, n), High(byte, n))
    decreases n
  {
    hide Xor16, Shift16, SlowBit, High, Top8, Left8;
    HighZero(byte);
    if n == 0 {
      Xor16Laws(sum, sum, sum);
    } else {
      var bit := Top8(byte);
      var t: bv16 := if bit then 1 else 0;
      SlowBitIs(sum, bit);
      SlowBitsIs(SlowBit(sum, bit), Left8(byte), n - 1);
      ShiftNLinear(Shift16(sum), t, n - 1);
      HighStep(byte, n);
      Xor16Laws(ShiftN(Shift16(sum), n - 1), ShiftN(t, n - 1), High(Left8(byte), n - 1));
    }
  }

  lemma ShiftNEight(s: bv16)
    ensures ShiftN(s, 8) == Eight16(s)
  {
    hide Shift16;
    assert ShiftN(s, 8) == ShiftN(Two16(s), 6);
    assert ShiftN(Two16(s), 6) == ShiftN(Four16(s), 4);
    var t := Four16(s);
    assert ShiftN(t, 4) == ShiftN(Two16(t), 2);
  }

  // A byte through the bitwise loop: eight shifts, and the byte ends up at the bottom.
  lemma SlowByteIs(sum: bv16, byte: bv8)
    ensures SlowBits(sum, byte, 8) == Xor16(Eight16(sum), byte as bv16)
  {
    hide Xor16, Eight16, High;
    SlowBitsIs(sum, byte, 8);
    ShiftNEight(sum);
    HighZero(byte);
  }

  // A byte through the table: it enters at the top, and then eight shifts.
  lemma FastByteIs(sum: bv16, byte: bv8)
    ensures FastByte(sum, byte) == Eight16(Xor16(sum, (byte as bv16) << 8))
  {
    hide Xor16, Eight16, Crc16Table;
    var index := (sum >> 8) as bv8 ^ byte;
    var low := (sum & 0xFF) as bv8;
    Crc16Entry(index);
    EightLow(low);
    Halves(sum, byte);
    EightLinear((index as bv16) << 8, low as bv16);
  }

  lemma Halves(sum: bv16, byte: bv8)
    ensures var index := (sum >> 8) as bv8 ^ byte;
            var low := (sum & 0xFF) as bv8;
            && Xor16(sum, (byte as bv16) << 8) == Xor16((index as bv16) << 8, low as bv16)
            && (low as bv16) << 8 == sum << 8
  {
  }

  // ---- the two algorithms agree ----

  // One byte of the message, with the two zero bytes that push it through still to come.
  lemma BothBytes(s: bv16, byte: bv8)
    ensures Eight16(Eight16(SlowBits(s, byte, 8))) == FastByte(Eight16(Eight16(s)), byte)
  {
    hide Xor16, Eight16, SlowBits, FastByte;
    SlowByteIs(s, byte);
    FastByteIs(Eight16(Eight16(s)), byte);
    EightLinear(Eight16(s), byte as bv16);
    EightLow(byte);
    EightLinear(Eight16(Eight16(s)), (byte as bv16) << 8);
  }

  lemma SlowZeros(s: bv16)
    ensures Slow(s, [0, 0]) == Eight16(Eight16(s))
  {
    hide Xor16, Eight16, SlowBits;
    assert [0, 0][1..] == [0 as bv8];
    SlowByteIs(s, 0);
    SlowByteIs(Eight16(s), 0);
    Xor16Laws(Eight16(s), 0, 0);
    Xor16Laws(Eight16(Eight16(s)), 0, 0);
  }

  lemma {:induction false} SlowAppend(s: bv16, m: seq<bv8>, n: seq<bv8>)
    ensures Slow(s, m + n) == Slow(Slow(s, m), n)
    decreases |m|
  {
    hide SlowBits;
    if m == [] {
      assert m + n == n;
    } else {
      SlowAppend(SlowBits(s, m[0], 8), m[1..], n);
      assert (m + n)[1..] == m[1..] + n;
    }
  }

  lemma {:induction false} Pushed(s: bv16, m: seq<bv8>)
    ensures Eight16(Eight16(Slow(s, m))) == Fast(Eight16(Eight16(s)), m)
    decreases |m|
  {
    hide Eight16, SlowBits, FastByte;
    if m != [] {
      BothBytes(s, m[0]);
      Pushed(SlowBits(s, m[0], 8), m[1..]);
    }
  }

  // For every start value and message: the bitwise checksum of the message followed by two
  // zero bytes is the table-driven checksum started from the bitwise one of those zeros.
  lemma SlowEqualsFast(s: bv16, m: seq<bv8>)
    ensures Slow(s, m + [0, 0]) == Fast(Slow(s, [0, 0]), m)
  {
    hide Slow, Fast, Eight16;
    SlowAppend(s, m, [0, 0]);
    SlowZeros(s);
    SlowZeros(Slow(s, m));
    Pushed(s, m);
  }

  // ---- residue ----

  lemma ShiftKernel(x: bv16)
    ensures Shift16(x) == 0 <==> x == 0
  {
  }

  lemma EightKernel(x: bv16)
    ensures Eight16(x) == 0 <==> x == 0
  {
    hide Shift16;
    ShiftKernel(x);
    ShiftKernel(Shift16(x));
    ShiftKernel(Two16(x));
    ShiftKernel(Shift16(Two16(x)));
    ShiftKernel(Four16(x));
    ShiftKernel(Shift16(Four16(x)));
    ShiftKernel(Two16(Four16(x)));
    ShiftKernel(Shift16(Two16(Four16(x))));
  }

  lemma EightInjective(x: bv16, y: bv16)
    ensures Eight16(x) == Eight16(y) <==> x == y
  {
    hide Eight16, Xor16;
    EightLinear(x, y);
    EightKernel(Xor16(x, y));
    Xor16Zero(x, y);
    Xor16Zero(Eight16(x), Eight16(y));
  }

  lemma TwoBytes(r: bv16, x: bv8, y: bv8)
    ensures Xor16(r, (x as bv16) << 8) == y as bv16 <==> x == (r >> 8) as bv8 && y == (r & 0xFF) as bv8
  {
  }

  lemma {:induction false} FastAppend(s: bv16, m: seq<bv8>, n: seq<bv8>)
    ensures Fast(s, m + n) == Fast(Fast(s, m), n)
    decreases |m|
  {
    hide FastByte;
    if m == [] {
      assert m + n == n;
    } else {
      FastAppend(FastByte(s, m[0]), m[1..], n);
      assert (m + n)[1..] == m[1..] + n;
    }
  }

  lemma FastTwo(r: bv16, x: bv8, y: bv8)
    ensures Fast(r, [x, y]) == FastByte(FastByte(r, x), y)
  {
    hide FastByte;
    assert [x, y][1..] == [y] && [y][1..] == [];
    assert Fast(FastByte(r, x), [y]) == FastByte(FastByte(r, x), y);
  }

  // A frame of a message and two more bytes has checksum zero exactly if those bytes are
  // the checksum of the message, high byte first.
  lemma Residue(s: bv16, m: seq<bv8>, x: bv8, y: bv8)
    ensures var r := Fast(s, m);
            Fast(s, m + [x, y]) == 0 <==> x == (r >> 8) as bv8 && y == (r & 0xFF) as bv8
  {
    hide Xor16, Eight16, FastByte, Fast;
    var r := Fast(s, m);
    FastAppend(s, m, [x, y]);
    FastTwo(r, x, y);
    FastByteIs(r, x);
    var u := Xor16(r, (x as bv16) << 8);
    FastByteIs(Eight16(u), y);
    EightKernel(Xor16(Eight16(u), (y as bv16) << 8));
    Xor16Zero(Eight16(u), (y as bv16) << 8);
    EightLow(y);
    EightInjective(u, y as bv16);
    TwoBytes(r, x, y);
  }

  // ---- bursts ----

  // One message bit: it meets the top bit of the register.
  function Enter(s: bv16, bit: bool): bv16 {
    Shift16(Xor16(s, if bit then 0x8000 else 0))
  }

  // The n highest bits of a byte where they meet the register.
  function Upper(byte: bv8, n: nat): bv16 {
    match n
    case 0 => 0
    case 1 => ((byte & 0x80) as bv16) << 8
    case 2 => ((byte & 0xC0) as bv16) << 8
    case 3 => ((byte & 0xE0) as bv16) << 8
    case 4 => ((byte & 0xF0) as bv16) << 8
    case 5 => ((byte & 0xF8) as bv16) << 8
    case 6 => ((byte & 0xFC) as bv16) << 8
    case 7 => ((byte & 0xFE) as bv16) << 8
    case _ => (byte as bv16) << 8
  }

  lemma UpperStep(byte: bv8, n: nat)
    requires 1 <= n <= 8
    ensures Upper(byte, n) == Xor16(if Top8(byte) then 0x8000 else 0, Upper(byte & 0x7F, n))
  {
    match n
    case 1 => case 2 => case 3 => case 4 => case 5 => case 6 => case 7 => case _ =>
  }

  lemma UpperShift(byte: bv8, n: nat)
    requires 1 <= n <= 8
    ensures Shift16(Upper(byte & 0x7F, n)) == Upper(Left8(byte), n - 1)
  {
    match n
    case 1 => case 2 => case 3 => case 4 => case 5 => case 6 => case 7 => case _ =>
  }

  lemma UpperEnds(byte: bv8)
    ensures Upper(byte, 0) == 0 && Upper(byte, 8) == (byte as bv16) << 8
  {
  }

  lemma EnterIs(s: bv16, bit: bool)
    ensures Enter(s, bit) == Shift16(Xor16(s, if bit then 0x8000 else 0))
  {
  }

  // The register as a code for bursts; see CrcBursts.
  function Register16(): Code<bv16> { Code(Enter, Xor16, 0, Marked, 16) }

  lemma {:induction false} FedBits(s: bv16, byte: bv8, n: nat)
    requires n <= 8
    ensures Fed(Register16(), s, TopBits(byte, n)) == ShiftN(Xor16(s, Upper(byte, n)), n)
    decreases n
  {
    hide Xor16, Shift16, Upper, Enter, Marked, Top8, Left8;
    UpperEnds(byte);
    if n == 0 {
      Xor16Laws(s, s, s);
    } else {
      var bit := Top8(byte);
      var t: bv16 := if bit then 0x8000 else 0;
      var u := Upper(byte & 0x7F, n);
      FedBits(Enter(s, bit), Left8(byte), n - 1);
      UpperStep(byte, n);
      UpperShift(byte, n);
      Xor16Laws(s, t, u);
      ShiftLinear(Xor16(s, t), u);
      EnterIs(s, bit);
      assert TopBits(byte, n)[1..] == TopBits(Left8(byte), n - 1);
    }
  }

  lemma {:induction false} FedMessage(s: bv16, m: seq<bv8>)
    ensures Fed(Register16(), s, MessageBits(m)) == Fast(s, m)
    decreases |m|
  {
    hide Xor16, Shift16, Upper, Enter, Marked, FastByte, TopBits, Eight16, ShiftN;
    if m != [] {
      FedAppend(Register16(), s, TopBits(m[0], 8), MessageBits(m[1..]));
      FedBits(s, m[0], 8);
      UpperEnds(m[0]);
      ShiftNEight(Xor16(s, (m[0] as bv16) << 8));
      FastByteIs(s, m[0]);
      FedMessage(FastByte(s, m[0]), m[1..]);
    }
  }

  lemma EnterLinear(x: bv16, y: bv16, c: bool, d: bool)
    ensures Xor16(Enter(x, c), Enter(y, d)) == Enter(Xor16(x, y), c != d)
  {
    hide Xor16, Shift16;
    var a: bv16, b: bv16 := if c then 0x8000 else 0, if d then 0x8000 else 0;
    ShiftLinear(Xor16(x, a), Xor16(y, b));
    Xor16Swap(x, a, y, b);
    Xor16Laws(0x8000, 0x8000, 0);
    Xor16Laws(0, 0x8000, 0);
    Xor16Laws(0, 0, 0);
  }

  // The j lowest bits.
  function Mask(j: nat): bv16 {
    match j
    case 0 => 0x0 case 1 => 0x1 case 2 => 0x3 case 3 => 0x7
    case 4 => 0xF case 5 => 0x1F case 6 => 0x3F case 7 => 0x7F
    case 8 => 0xFF case 9 => 0x1FF case 10 => 0x3FF case 11 => 0x7FF
    case 12 => 0xFFF case 13 => 0x1FFF case 14 => 0x3FFF case 15 => 0x7FFF
    case _ => 0xFFFF
  }

  predicate Hits(x: bv16, m: bv16) { x & m != 0 }

  // One more lowest bit.
  function Grown(m: bv16): bv16 { (m << 1) | 1 }

  // The lowest bit is set.
  predicate Ends(x: bv16) { x & 1 == 1 }

  // Marked: one of the j lowest bits is set.  The polynomial has its lowest bit set, so
  // whenever it is added the register is marked, and otherwise marks move up.
  predicate Marked(x: bv16, j: nat) { Hits(x, Mask(j)) }

  lemma MaskStep(j: nat)
    requires 1 <= j < 16
    ensures Mask(j + 1) == Grown(Mask(j)) && Mask(j) & 0x8000 == 0
  {
    match j
    case 1 => case 2 => case 3 => case 4 => case 5 => case 6 => case 7 => case 8 =>
    case 9 => case 10 => case 11 => case 12 => case 13 => case 14 => case _ =>
  }

  lemma MaskEnds(j: nat)
    requires 1 <= j
    ensures Ends(Mask(j))
  {
  }

  lemma MarksMove(x: bv16, m: bv16)
    ensures x & m != 0 && m & 0x8000 == 0 ==> (x << 1) & ((m << 1) | 1) != 0
  {
  }

  lemma EndsMeet(x: bv16, m: bv16)
    ensures x & 1 == 1 && m & 1 == 1 ==> x & m != 0
  {
  }

  lemma GrownEnds(m: bv16)
    ensures ((m << 1) | 1) & 1 == 1
  {
  }

  lemma PolyEnds(x: bv16)
    ensures ((x << 1) ^ POLY16) & 1 == 1
  {
  }

  lemma InputLeaves(x: bv16)
    ensures (x ^ 0x8000) << 1 == x << 1 && x ^ 0 == x
  {
  }

  // A step adds the polynomial or moves the register on.
  lemma EnterForms(x: bv16, c: bool)
    ensures Ends(Enter(x, c)) || Enter(x, c) == Left16(x)
  {
    hide Top16;
    var y := x ^ if c then 0x8000 else 0;
    PolyEnds(y);
    InputLeaves(x);
  }

  lemma MovedHits(x: bv16, m: bv16)
    requires Hits(x, m) && m & 0x8000 == 0
    ensures Hits(Left16(x), Grown(m))
  {
    MarksMove(x, m);
  }

  lemma EndsHits(x: bv16, m: bv16)
    ensures Ends(x) && Ends(m) ==> Hits(x, m)
    ensures Ends(Grown(m))
    ensures !Hits(0, m)
  {
    EndsMeet(x, m);
    GrownEnds(m);
  }

  lemma EnterMarks(x: bv16, c: bool, j: nat)
    ensures Starts(Register16(), j) && Climbs(Register16(), x, c, j) && Shows(Register16(), x, j)
  {
    hide Xor16, Enter, Mask, Hits, Grown, Ends, Left16;
    if 1 <= j <= 16 {
      MaskEnds(j);
      StartEnds();
      EndsHits(Enter(0, true), Mask(j));
      EndsHits(x, Mask(j));
    }
    if 1 <= j < 16 && Marked(x, j) {
      MaskStep(j);
      EnterForms(x, c);
      MovedHits(x, Mask(j));
      EndsHits(Enter(x, c), Grown(Mask(j)));
      EndsHits(Mask(j), Mask(j));
    }
  }

  lemma StartEnds()
    ensures Ends(Enter(0, true))
  {
  }

  lemma EnterPair(x: bv16, y: bv16, c: bool, d: bool)
    ensures Cancels(Register16(), x, y) && SameBit(Register16(), x, y, c) && OtherBit(Register16(), x, y, c, d)
  {
    hide Xor16, Enter, Marked;
    Xor16Zero(x, y);
    EnterLinear(x, y, c, c);
    EnterLinear(x, y, c, d);
  }

  lemma EnterKeeps(x: bv16)
    ensures Keeps(Register16(), x)
  {
    hide Xor16, Shift16, Enter, Marked;
    EnterIs(x, false);
    Xor16Laws(x, x, x);
    ShiftKernel(x);
  }

  lemma EnterSees()
    ensures Linear(Register16()) && Marks(Register16())
  {
    hide Xor16, Enter, Marked, Cancels, SameBit, OtherBit, Keeps, Starts, Climbs, Shows;
    var r := Register16();
    forall x, y ensures Cancels(r, x, y) { EnterPair(x, y, false, false); }
    forall x, y, c ensures SameBit(r, x, y, c) { EnterPair(x, y, c, c); }
    forall x, y, c, d ensures OtherBit(r, x, y, c, d) { EnterPair(x, y, c, d); }
    forall x ensures Keeps(r, x) { EnterKeeps(x); }
    forall j: nat ensures Starts(r, j) { EnterMarks(0, false, j); }
    forall x, c, j: nat ensures Climbs(r, x, c, j) { EnterMarks(x, c, j); }
    forall x, j: nat ensures Shows(r, x, j) { EnterMarks(x, false, j); }
  }

  // Two messages of equal length that differ, and differ only within 16 consecutive bits,
  // never share a checksum.
  lemma BurstDetected(s: bv16, m1: seq<bv8>, m2: seq<bv8>, a: seq<bool>, x: seq<bool>, y: seq<bool>, b: seq<bool>)
    requires MessageBits(m1) == a + x + b && MessageBits(m2) == a + y + b
    requires |x| == |y| <= 16 && x != y
    ensures Fast(s, m1) != Fast(s, m2)
  {
    hide Fast, Fed, Linear, Marks, MessageBits, Enter, Marked, Xor16;
    EnterSees();
    BurstSeen(Register16(), s, a, x, y, b);
    FedMessage(s, m1);
    FedMessage(s, m2);
  }
}

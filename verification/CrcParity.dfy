// How many wrong bits a checksum can miss.  Both 16-bit polynomials have an even number of
// terms, so the parity of the register follows the parity of what is fed, and an odd number
// of wrong bits is never missed.  The 32-bit polynomial has fifteen terms: it misses itself.
module CrcParity {
  import opened CrcTables
  import opened CrcBursts
  import Crc16
  import Crc32
  import MbCrc

  // ---- bit strings ----

  // The number of ones is odd.
  predicate Odd(bits: seq<bool>) {
    bits != [] && bits[0] != Odd(bits[1..])
  }

  // In how many places two strings of equal length differ.
  function Wrong(x: seq<bool>, y: seq<bool>): nat
    requires |x| == |y|
  {
    if x == [] then 0 else (if x[0] != y[0] then 1 else 0) + Wrong(x[1..], y[1..])
  }

  lemma {:induction false} WrongIsOdd(x: seq<bool>, y: seq<bool>)
    requires |x| == |y|
    ensures Wrong(x, y) % 2 == 1 <==> Odd(x) != Odd(y)
  {
    if x != [] { WrongIsOdd(x[1..], y[1..]); }
  }

  // ---- any register whose steps keep a parity ----

  predicate Follows<R>(c: Code<R>, parity: R -> bool, s: R, b: bool) { parity(c.step(s, b)) == (parity(s) != b) }

  ghost predicate KeepsParity<R(!new)>(c: Code<R>, parity: R -> bool) {
    forall s, b :: Follows(c, parity, s, b)
  }

  lemma {:induction false} FedParity<R(!new)>(c: Code<R>, parity: R -> bool, s: R, bits: seq<bool>)
    requires KeepsParity(c, parity)
    ensures parity(Fed(c, s, bits)) == (parity(s) != Odd(bits))
    decreases |bits|
  {
    if bits != [] {
      hide KeepsParity;
      FollowsOne(c, parity, s, bits[0]);
      FedParity(c, parity, c.step(s, bits[0]), bits[1..]);
    }
  }

  lemma FollowsOne<R(!new)>(c: Code<R>, parity: R -> bool, s: R, b: bool)
    requires KeepsParity(c, parity)
    ensures parity(c.step(s, b)) == (parity(s) != b)
  {
    assert Follows(c, parity, s, b);
  }

  // ---- the parity of sixteen bits, from whichever end they leave ----

  datatype Way = Up | Down

  predicate Out(w: Way, x: bv16) { if w == Up then Top16(x) else Bottom16(x) }

  function Move(w: Way, x: bv16): bv16 { if w == Up then Left16(x) else Right16(x) }

  function Moved(w: Way, x: bv16, n: nat): bv16
    decreases n
  {
    if n == 0 then x else Moved(w, Move(w, x), n - 1)
  }

  predicate ParityOf(w: Way, x: bv16, n: nat)
    decreases n
  {
    n > 0 && Out(w, x) != ParityOf(w, Move(w, x), n - 1)
  }

  predicate Parity(w: Way, x: bv16) { ParityOf(w, x, 16) }

  lemma TopXor(x: bv16, y: bv16)
    ensures ((x ^ y) & 0x8000 != 0) == ((x & 0x8000 != 0) != (y & 0x8000 != 0))
  {
  }

  lemma BottomXor(x: bv16, y: bv16)
    ensures ((x ^ y) & 1 != 0) == ((x & 1 != 0) != (y & 1 != 0))
  {
  }

  lemma LeftXor(x: bv16, y: bv16)
    ensures (x ^ y) << 1 == (x << 1) ^ (y << 1)
  {
  }

  lemma RightXor(x: bv16, y: bv16)
    ensures (x ^ y) >> 1 == (x >> 1) ^ (y >> 1)
  {
  }

  lemma OutLinear(w: Way, x: bv16, y: bv16)
    ensures Out(w, Xor16(x, y)) == (Out(w, x) != Out(w, y))
  {
    match w
    case Up => TopXor(x, y);
    case Down => BottomXor(x, y);
  }

  lemma MoveLinear(w: Way, x: bv16, y: bv16)
    ensures Move(w, Xor16(x, y)) == Xor16(Move(w, x), Move(w, y))
  {
    match w
    case Up => LeftXor(x, y);
    case Down => RightXor(x, y);
  }

  lemma {:induction false} ParityLinear(w: Way, x: bv16, y: bv16, n: nat)
    ensures ParityOf(w, Xor16(x, y), n) == (ParityOf(w, x, n) != ParityOf(w, y, n))
    decreases n
  {
    hide Xor16, Out, Move;
    if n > 0 {
      OutLinear(w, x, y);
      MoveLinear(w, x, y);
      ParityLinear(w, Move(w, x), Move(w, y), n - 1);
    }
  }

  lemma {:induction false} ParityMore(w: Way, x: bv16, n: nat)
    ensures ParityOf(w, x, n + 1) == (ParityOf(w, x, n) != Out(w, Moved(w, x, n)))
    decreases n
  {
    hide Out, Move;
    if n > 0 { ParityMore(w, Move(w, x), n - 1); }
  }

  function Four(w: Way, x: bv16): bv16 { if w == Up then x << 4 else x >> 4 }

  lemma FourMoves(w: Way, x: bv16)
    ensures Move(w, Move(w, Move(w, Move(w, x)))) == Four(w, x)
  {
    match w case Up => case Down =>
  }

  lemma FourFours(w: Way, x: bv16)
    ensures Four(w, Four(w, Four(w, Four(w, x)))) == 0
  {
    match w case Up => case Down =>
  }

  lemma NothingOut(w: Way)
    ensures !Out(w, 0)
  {
  }

  lemma MovedFour(w: Way, x: bv16, n: nat)
    requires n >= 4
    ensures Moved(w, x, n) == Moved(w, Four(w, x), n - 4)
  {
    hide Out, Move, Four;
    FourMoves(w, x);
    var y := Move(w, Move(w, x));
    assert Moved(w, x, n) == Moved(w, Move(w, x), n - 1) == Moved(w, y, n - 2);
    assert Moved(w, y, n - 2) == Moved(w, Move(w, y), n - 3);
  }

  // Sixteen moves leave nothing.
  lemma Gone(w: Way, x: bv16)
    ensures !Out(w, Moved(w, x, 16))
  {
    hide Out, Move, Four;
    MovedFour(w, x, 16);
    MovedFour(w, Four(w, x), 12);
    MovedFour(w, Four(w, Four(w, x)), 8);
    MovedFour(w, Four(w, Four(w, Four(w, x))), 4);
    FourFours(w, x);
    NothingOut(w);
  }

  // A move takes one bit out.
  lemma ParityMove(w: Way, x: bv16)
    ensures Parity(w, Move(w, x)) == (Parity(w, x) != Out(w, x))
  {
    hide Out, Move, Moved;
    ParityMore(w, x, 16);
    Gone(w, x);
  }

  // ---- the two 16-bit checksums ----

  lemma {:induction false} ParityZero(w: Way, n: nat)
    ensures !ParityOf(w, 0, n)
  {
    if n > 0 { ParityZero(w, n - 1); }
  }

  lemma LastOut()
    ensures Out(Up, 0x8000) && Move(Up, 0x8000) == 0
    ensures Out(Down, 1) && Move(Down, 1) == 0
  {
  }

  lemma UpValues()
    ensures Parity(Up, POLY16) && Parity(Up, 0x8000) && !Parity(Up, 0)
  {
    LastOut();
    assert ParityOf(Up, 0x1021, 16) == ParityOf(Up, 0x2042, 15);
    assert ParityOf(Up, 0x2042, 15) == ParityOf(Up, 0x4084, 14);
    assert ParityOf(Up, 0x4084, 14) == ParityOf(Up, 0x8108, 13);
    assert ParityOf(Up, 0x8108, 13) == !ParityOf(Up, 0x210, 12);
    assert ParityOf(Up, 0x210, 12) == ParityOf(Up, 0x420, 11);
    assert ParityOf(Up, 0x420, 11) == ParityOf(Up, 0x840, 10);
    assert ParityOf(Up, 0x840, 10) == ParityOf(Up, 0x1080, 9);
    assert ParityOf(Up, 0x1080, 9) == ParityOf(Up, 0x2100, 8);
    assert ParityOf(Up, 0x2100, 8) == ParityOf(Up, 0x4200, 7);
    assert ParityOf(Up, 0x4200, 7) == ParityOf(Up, 0x8400, 6);
    assert ParityOf(Up, 0x8400, 6) == !ParityOf(Up, 0x800, 5);
    assert ParityOf(Up, 0x800, 5) == ParityOf(Up, 0x1000, 4);
    assert ParityOf(Up, 0x1000, 4) == ParityOf(Up, 0x2000, 3);
    assert ParityOf(Up, 0x2000, 3) == ParityOf(Up, 0x4000, 2);
    assert ParityOf(Up, 0x4000, 2) == ParityOf(Up, 0x8000, 1);
    assert ParityOf(Up, 0x8000, 1) == !ParityOf(Up, 0, 0);
    ParityZero(Up, 0);
    assert ParityOf(Up, 0x8000, 16) == !ParityOf(Up, 0, 15);
    ParityZero(Up, 15);
    ParityZero(Up, 16);
  }

  lemma DownValues()
    ensures Parity(Down, POLYMB) && Parity(Down, 1) && !Parity(Down, 0)
  {
    LastOut();
    assert ParityOf(Down, 0xA001, 16) == !ParityOf(Down, 0x5000, 15);
    assert ParityOf(Down, 0x5000, 15) == ParityOf(Down, 0x2800, 14);
    assert ParityOf(Down, 0x2800, 14) == ParityOf(Down, 0x1400, 13);
    assert ParityOf(Down, 0x1400, 13) == ParityOf(Down, 0xA00, 12);
    assert ParityOf(Down, 0xA00, 12) == ParityOf(Down, 0x500, 11);
    assert ParityOf(Down, 0x500, 11) == ParityOf(Down, 0x280, 10);
    assert ParityOf(Down, 0x280, 10) == ParityOf(Down, 0x140, 9);
    assert ParityOf(Down, 0x140, 9) == ParityOf(Down, 0xA0, 8);
    assert ParityOf(Down, 0xA0, 8) == ParityOf(Down, 0x50, 7);
    assert ParityOf(Down, 0x50, 7) == ParityOf(Down, 0x28, 6);
    assert ParityOf(Down, 0x28, 6) == ParityOf(Down, 0x14, 5);
    assert ParityOf(Down, 0x14, 5) == ParityOf(Down, 0xA, 4);
    assert ParityOf(Down, 0xA, 4) == ParityOf(Down, 0x5, 3);
    assert ParityOf(Down, 0x5, 3) == !ParityOf(Down, 0x2, 2);
    assert ParityOf(Down, 0x2, 2) == ParityOf(Down, 0x1, 1);
    assert ParityOf(Down, 0x1, 1) == !ParityOf(Down, 0, 0);
    ParityZero(Down, 0);
    assert ParityOf(Down, 1, 16) == !ParityOf(Down, 0, 15);
    ParityZero(Down, 15);
    ParityZero(Down, 16);
  }

  lemma ParityXor(w: Way, x: bv16, y: bv16)
    ensures Parity(w, Xor16(x, y)) == (Parity(w, x) != Parity(w, y))
  {
    hide Xor16, ParityOf;
    ParityLinear(w, x, y, 16);
  }

  lemma StepParity(s: bv16)
    ensures Parity(Up, Shift16(s)) == Parity(Up, s)
    ensures Parity(Down, ShiftMb(s)) == Parity(Down, s)
  {
    hide Parity, Xor16, Left16, Right16, Top16, Bottom16;
    UpValues();
    DownValues();
    ParityMove(Up, s);
    ParityMove(Down, s);
    ParityXor(Up, Left16(s), POLY16);
    ParityXor(Down, Right16(s), POLYMB);
  }

  function ParityUp(): bv16 -> bool { x => Parity(Up, x) }

  function ParityDown(): bv16 -> bool { x => Parity(Down, x) }

  lemma Register16Follows(s: bv16, b: bool)
    ensures Follows(Crc16.Register16(), ParityUp(), s, b)
  {
    hide Parity, Xor16, Shift16;
    var bit: bv16 := if b then 0x8000 else 0;
    Crc16.EnterIs(s, b);
    StepParity(Xor16(s, bit));
    ParityXor(Up, s, bit);
    UpValues();
  }

  lemma RegisterMbFollows(s: bv16, b: bool)
    ensures Follows(MbCrc.RegisterMb(), ParityDown(), s, b)
  {
    hide Parity, Xor16, ShiftMb;
    var bit: bv16 := if b then 1 else 0;
    StepParity(Xor16(s, bit));
    ParityXor(Down, s, bit);
    DownValues();
  }

  // The parity of the checksum is that of the message, and of the start value.
  lemma Crc16Parity(s: bv16, m: seq<bv8>)
    ensures Parity(Up, Crc16.Fast(s, m)) == (Parity(Up, s) != Odd(MessageBits(m)))
  {
    hide Parity, Odd, MessageBits, Fed, Crc16.Fast, Follows;
    Crc16.FedMessage(s, m);
    forall r, b ensures Follows(Crc16.Register16(), ParityUp(), r, b) { Register16Follows(r, b); }
    FedParity(Crc16.Register16(), ParityUp(), s, MessageBits(m));
  }

  lemma MbParity(s: bv16, m: seq<bv8>)
    ensures Parity(Down, MbCrc.Register(s, m)) == (Parity(Down, s) != Odd(MbCrc.Bits(m)))
  {
    hide Parity, Odd, MbCrc.Bits, Fed, MbCrc.Register, Follows;
    MbCrc.FedMessage(s, m);
    forall r, b ensures Follows(MbCrc.RegisterMb(), ParityDown(), r, b) { RegisterMbFollows(r, b); }
    FedParity(MbCrc.RegisterMb(), ParityDown(), s, MbCrc.Bits(m));
  }

  // Two messages of equal length that differ in an odd number of bits, wherever they are,
  // never share a checksum.
  lemma OddDetected16(s: bv16, m1: seq<bv8>, m2: seq<bv8>)
    requires |MessageBits(m1)| == |MessageBits(m2)| && Wrong(MessageBits(m1), MessageBits(m2)) % 2 == 1
    ensures Crc16.Fast(s, m1) != Crc16.Fast(s, m2)
  {
    hide Parity, Odd, MessageBits, Wrong, Crc16.Fast;
    WrongIsOdd(MessageBits(m1), MessageBits(m2));
    Crc16Parity(s, m1);
    Crc16Parity(s, m2);
  }

  lemma OddDetectedMb(m1: seq<bv8>, m2: seq<bv8>)
    requires |MbCrc.Bits(m1)| == |MbCrc.Bits(m2)| && Wrong(MbCrc.Bits(m1), MbCrc.Bits(m2)) % 2 == 1
    ensures MbCrc.Checksum(m1) != MbCrc.Checksum(m2)
  {
    hide Parity, Odd, MbCrc.Bits, Wrong, MbCrc.Register, MbCrc.Swap;
    WrongIsOdd(MbCrc.Bits(m1), MbCrc.Bits(m2));
    MbParity(0xFFFF, m1);
    MbParity(0xFFFF, m2);
    MbCrc.SwapZero(MbCrc.Register(0xFFFF, m1), MbCrc.Register(0xFFFF, m2));
  }

  // ---- the 32-bit checksum ----

  // The polynomial itself, its leading term included, in five bytes.
  const POLYNOMIAL: seq<bv8> := [0x01, 0x04, 0xC1, 0x1D, 0xB7]
  const NOTHING: seq<bv8> := [0, 0, 0, 0, 0]

  lemma {:induction false} WrongAppend(a: seq<bool>, b: seq<bool>, x: seq<bool>, y: seq<bool>)
    requires |a| == |x| && |b| == |y|
    ensures Wrong(a + b, x + y) == Wrong(a, x) + Wrong(b, y)
    decreases |a|
  {
    if a == [] {
      assert a + b == b && x + y == y;
    } else {
      WrongAppend(a[1..], b, x[1..], y);
      assert (a + b)[1..] == a[1..] + b && (x + y)[1..] == x[1..] + y;
    }
  }

  // The number of bits set among the n highest of a byte.
  function Ones(byte: bv8, n: nat): nat
    decreases n
  {
    if n == 0 then 0 else (if Top8(byte) then 1 else 0) + Ones(Left8(byte), n - 1)
  }

  lemma {:induction false} WrongOfByte(byte: bv8, n: nat)
    ensures |TopBits(byte, n)| == |TopBits(0, n)| == n
    ensures Wrong(TopBits(byte, n), TopBits(0, n)) == Ones(byte, n)
    decreases n
  {
    if n > 0 {
      WrongOfByte(Left8(byte), n - 1);
      assert TopBits(byte, n)[1..] == TopBits(Left8(byte), n - 1);
      assert TopBits(0, n)[1..] == TopBits(0, n - 1);
    }
  }

  lemma WrongOfMessage(byte: bv8, m: seq<bv8>, z: seq<bv8>)
    requires |MessageBits(m)| == |MessageBits(z)|
    ensures |MessageBits([byte] + m)| == |MessageBits([0] + z)|
    ensures Wrong(MessageBits([byte] + m), MessageBits([0] + z))
            == Ones(byte, 8) + Wrong(MessageBits(m), MessageBits(z))
  {
    hide TopBits, Wrong, Ones;
    WrongOfByte(byte, 8);
    WrongAppend(TopBits(byte, 8), MessageBits(m), TopBits(0, 8), MessageBits(z));
    assert ([byte] + m)[1..] == m && ([0 as bv8] + z)[1..] == z;
  }

  lemma OnesAre()
    ensures Ones(0x01, 8) == 1 && Ones(0x04, 8) == 1 && Ones(0xC1, 8) == 3
    ensures Ones(0x1D, 8) == 4 && Ones(0xB7, 8) == 6
  {
  }

  // Fifteen wrong bits, within 33, that the 32-bit checksum does not see.
  lemma OddMissed32()
    ensures |MessageBits(POLYNOMIAL)| == |MessageBits(NOTHING)|
    ensures Wrong(MessageBits(POLYNOMIAL), MessageBits(NOTHING)) == 15
    ensures Crc32.Fast(0, POLYNOMIAL) == Crc32.Fast(0, NOTHING)
  {
    hide Wrong, MessageBits, Crc32.Fast, Ones;
    OnesAre();
    FirstByte();
    var none: seq<bv8> := [];
    assert [0xB7 as bv8] + none == [0xB7] && [0 as bv8] + none == [0];
    WrongOfMessage(0xB7, none, none);
    assert [0x1D as bv8] + [0xB7] == [0x1D, 0xB7] && [0 as bv8] + [0] == [0, 0];
    WrongOfMessage(0x1D, [0xB7], [0]);
    assert [0xC1 as bv8] + [0x1D, 0xB7] == [0xC1, 0x1D, 0xB7] && [0 as bv8] + [0, 0] == [0, 0, 0];
    WrongOfMessage(0xC1, [0x1D, 0xB7], [0, 0]);
    assert [0x04 as bv8] + [0xC1, 0x1D, 0xB7] == [0x04, 0xC1, 0x1D, 0xB7] && [0 as bv8] + [0, 0, 0] == [0, 0, 0, 0];
    WrongOfMessage(0x04, [0xC1, 0x1D, 0xB7], [0, 0, 0]);
    assert [0x01 as bv8] + [0x04, 0xC1, 0x1D, 0xB7] == [0x01, 0x04, 0xC1, 0x1D, 0xB7]
        && [0 as bv8] + [0, 0, 0, 0] == [0, 0, 0, 0, 0];
    WrongOfMessage(0x01, [0x04, 0xC1, 0x1D, 0xB7], [0, 0, 0, 0]);
    Crc32.Residue(0, [0x01], [0x04, 0xC1, 0x1D, 0xB7]);
    Crc32.Residue(0, [0], [0, 0, 0, 0]);
  }

  lemma FirstByte()
    ensures Crc32.HighFirst(Crc32.Fast(0, [0x01])) == [0x04, 0xC1, 0x1D, 0xB7]
    ensures Crc32.HighFirst(Crc32.Fast(0, [0])) == [0, 0, 0, 0]
    ensures Wrong(MessageBits([]), MessageBits([])) == 0
  {
  }
}

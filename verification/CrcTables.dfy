// The lookup tables of utilities/crc.c and sources/mbcrc.c, entry by entry, sixteen to a
// row, and for each row the proof that its entries are what eight bitwise steps give.
// The functions Crc16Table, Crc32Table and MbTable are the tables.
module CrcTables {

  // Exclusive or, shifts and the bits that fall out, by name, so that proofs can treat
  // them as symbols with laws.
  function Xor16(a: bv16, b: bv16): bv16 { a ^ b }

  function Xor32(a: bv32, b: bv32): bv32 { a ^ b }

  function Left16(s: bv16): bv16 { s << 1 }

  function Left32(s: bv32): bv32 { s << 1 }

  function Right16(s: bv16): bv16 { s >> 1 }

  function Left8(b: bv8): bv8 { b << 1 }

  predicate Top8(b: bv8) { b & 0x80 != 0 }

  // The lowest bit set.
  function Set16(s: bv16): bv16 { s | 1 }

  function Set32(s: bv32): bv32 { s | 1 }

  predicate Top16(s: bv16) { s & 0x8000 != 0 }

  predicate Top32(s: bv32) { s & 0x8000_0000 != 0 }

  predicate Bottom16(s: bv16) { s & 1 != 0 }

  const POLY16: bv16 := 0x1021
  const POLY32: bv32 := 0x04C1_1DB7
  const POLYMB: bv16 := 0xA001

  // ---- exclusive or ----

  lemma Associative16(a: bv16, b: bv16, c: bv16)
    ensures (a ^ b) ^ c == a ^ (b ^ c)
  {
  }

  lemma Commutative16(a: bv16, b: bv16)
    ensures a ^ b == b ^ a
  {
  }

  lemma SelfInverse16(a: bv16)
    ensures a ^ a == 0 && a ^ 0 == a
  {
  }

  lemma Xor16Laws(a: bv16, b: bv16, c: bv16)
    ensures Xor16(Xor16(a, b), c) == Xor16(a, Xor16(b, c))
    ensures Xor16(a, b) == Xor16(b, a)
    ensures Xor16(a, a) == 0 && Xor16(a, 0) == a
  {
    Associative16(a, b, c);
    Commutative16(a, b);
    SelfInverse16(a);
  }

  // Swapping the inner two of four.
  lemma Xor16Swap(a: bv16, b: bv16, c: bv16, d: bv16)
    ensures Xor16(Xor16(a, b), Xor16(c, d)) == Xor16(Xor16(a, c), Xor16(b, d))
  {
    hide Xor16;
    Xor16Laws(a, b, Xor16(c, d));
    Xor16Laws(b, c, d);
    Xor16Laws(c, b, d);
    Xor16Laws(a, c, Xor16(b, d));
  }

  lemma Xor16Zero(x: bv16, y: bv16)
    ensures Xor16(x, y) == 0 <==> x == y
  {
    hide Xor16;
    Xor16Laws(x, y, y);
    Xor16Laws(y, y, x);
    Xor16Laws(0, y, y);
  }

  lemma Associative32(a: bv32, b: bv32, c: bv32)
    ensures (a ^ b) ^ c == a ^ (b ^ c)
  {
  }

  lemma Commutative32(a: bv32, b: bv32)
    ensures a ^ b == b ^ a
  {
  }

  lemma SelfInverse32(a: bv32)
    ensures a ^ a == 0 && a ^ 0 == a
  {
  }

  lemma Xor32Laws(a: bv32, b: bv32, c: bv32)
    ensures Xor32(Xor32(a, b), c) == Xor32(a, Xor32(b, c))
    ensures Xor32(a, b) == Xor32(b, a)
    ensures Xor32(a, a) == 0 && Xor32(a, 0) == a
  {
    Associative32(a, b, c);
    Commutative32(a, b);
    SelfInverse32(a);
  }

  // Swapping the inner two of four.
  lemma Xor32Swap(a: bv32, b: bv32, c: bv32, d: bv32)
    ensures Xor32(Xor32(a, b), Xor32(c, d)) == Xor32(Xor32(a, c), Xor32(b, d))
  {
    hide Xor32;
    Xor32Laws(a, b, Xor32(c, d));
    Xor32Laws(b, c, d);
    Xor32Laws(c, b, d);
    Xor32Laws(a, c, Xor32(b, d));
  }

  lemma Xor32Zero(x: bv32, y: bv32)
    ensures Xor32(x, y) == 0 <==> x == y
  {
    hide Xor32;
    Xor32Laws(x, y, y);
    Xor32Laws(y, y, x);
    Xor32Laws(0, y, y);
  }

  // ---- bitwise steps ----

  // One step of the bitwise algorithms without a message bit.
  function Shift16(s: bv16): bv16 { if Top16(s) then Xor16(Left16(s), POLY16) else Left16(s) }

  function Shift32(s: bv32): bv32 { if Top32(s) then Xor32(Left32(s), POLY32) else Left32(s) }

  function ShiftMb(s: bv16): bv16 { if Bottom16(s) then Xor16(Right16(s), POLYMB) else Right16(s) }

  function Two16(s: bv16): bv16 { Shift16(Shift16(s)) }

  function Four16(s: bv16): bv16 { Two16(Two16(s)) }

  function Eight16(s: bv16): bv16 { Four16(Four16(s)) }

  function Two32(s: bv32): bv32 { Shift32(Shift32(s)) }

  function Four32(s: bv32): bv32 { Two32(Two32(s)) }

  function Eight32(s: bv32): bv32 { Four32(Four32(s)) }

  function TwoMb(s: bv16): bv16 { ShiftMb(ShiftMb(s)) }

  function FourMb(s: bv16): bv16 { TwoMb(TwoMb(s)) }

  function EightMb(s: bv16): bv16 { FourMb(FourMb(s)) }

  // crc16_table, utilities/crc.c:19-52
  function Crc16Table(i: bv8): bv16 {
    var low := (i & 0xF) as bv4;
    match (i >> 4) as bv4
    case 0 => Crc16Row0(low)
    case 1 => Crc16Row1(low)
    case 2 => Crc16Row2(low)
    case 3 => Crc16Row3(low)
    case 4 => Crc16Row4(low)
    case 5 => Crc16Row5(low)
    case 6 => Crc16Row6(low)
    case 7 => Crc16Row7(low)
    case 8 => Crc16Row8(low)
    case 9 => Crc16Row9(low)
    case 10 => Crc16Row10(low)
    case 11 => Crc16Row11(low)
    case 12 => Crc16Row12(low)
    case 13 => Crc16Row13(low)
    case 14 => Crc16Row14(low)
    case _ => Crc16Row15(low)
  }

  function Crc16Row0(i: bv4): bv16 {
    match i
    case 0 => 0x0000 case 1 => 0x1021 case 2 => 0x2042 case 3 => 0x3063
    case 4 => 0x4084 case 5 => 0x50a5 case 6 => 0x60c6 case 7 => 0x70e7
    case 8 => 0x8108 case 9 => 0x9129 case 10 => 0xa14a case 11 => 0xb16b
    case 12 => 0xc18c case 13 => 0xd1ad case 14 => 0xe1ce case _ => 0xf1ef
  }

  lemma Crc16Row0Steps(i: bv4)
    ensures Crc16Row0(i) == Eight16((0 << 12) | ((i as bv16) << 8))
  {
  }

  function Crc16Row1(i: bv4): bv16 {
    match i
    case 0 => 0x1231 case 1 => 0x0210 case 2 => 0x3273 case 3 => 0x2252
    case 4 => 0x52b5 case 5 => 0x4294 case 6 => 0x72f7 case 7 => 0x62d6
    case 8 => 0x9339 case 9 => 0x8318 case 10 => 0xb37b case 11 => 0xa35a
    case 12 => 0xd3bd case 13 => 0xc39c case 14 => 0xf3ff case _ => 0xe3de
  }

  lemma Crc16Row1Steps(i: bv4)
    ensures Crc16Row1(i) == Eight16((1 << 12) | ((i as bv16) << 8))
  {
  }

  function Crc16Row2(i: bv4): bv16 {
    match i
    case 0 => 0x2462 case 1 => 0x3443 case 2 => 0x0420 case 3 => 0x1401
    case 4 => 0x64e6 case 5 => 0x74c7 case 6 => 0x44a4 case 7 => 0x5485
    case 8 => 0xa56a case 9 => 0xb54b case 10 => 0x8528 case 11 => 0x9509
    case 12 => 0xe5ee case 13 => 0xf5cf case 14 => 0xc5ac case _ => 0xd58d
  }

  lemma Crc16Row2Steps(i: bv4)
    ensures Crc16Row2(i) == Eight16((2 << 12) | ((i as bv16) << 8))
  {
  }

  function Crc16Row3(i: bv4): bv16 {
    match i
    case 0 => 0x3653 case 1 => 0x2672 case 2 => 0x1611 case 3 => 0x0630
    case 4 => 0x76d7 case 5 => 0x66f6 case 6 => 0x5695 case 7 => 0x46b4
    case 8 => 0xb75b case 9 => 0xa77a case 10 => 0x9719 case 11 => 0x8738
    case 12 => 0xf7df case 13 => 0xe7fe case 14 => 0xd79d case _ => 0xc7bc
  }

  lemma Crc16Row3Steps(i: bv4)
    ensures Crc16Row3(i) == Eight16((3 << 12) | ((i as bv16) << 8))
  {
  }

  function Crc16Row4(i: bv4): bv16 {
    match i
    case 0 => 0x48c4 case 1 => 0x58e5 case 2 => 0x6886 case 3 => 0x78a7
    case 4 => 0x0840 case 5 => 0x1861 case 6 => 0x2802 case 7 => 0x3823
    case 8 => 0xc9cc case 9 => 0xd9ed case 10 => 0xe98e case 11 => 0xf9af
    case 12 => 0x8948 case 13 => 0x9969 case 14 => 0xa90a case _ => 0xb92b
  }

  lemma Crc16Row4Steps(i: bv4)
    ensures Crc16Row4(i) == Eight16((4 << 12) | ((i as bv16) << 8))
  {
  }

  function Crc16Row5(i: bv4): bv16 {
    match i
    case 0 => 0x5af5 case 1 => 0x4ad4 case 2 => 0x7ab7 case 3 => 0x6a96
    case 4 => 0x1a71 case 5 => 0x0a50 case 6 => 0x3a33 case 7 => 0x2a12
    case 8 => 0xdbfd case 9 => 0xcbdc case 10 => 0xfbbf case 11 => 0xeb9e
    case 12 => 0x9b79 case 13 => 0x8b58 case 14 => 0xbb3b case _ => 0xab1a
  }

  lemma Crc16Row5Steps(i: bv4)
    ensures Crc16Row5(i) == Eight16((5 << 12) | ((i as bv16) << 8))
  {
  }

  function Crc16Row6(i: bv4): bv16 {
    match i
    case 0 => 0x6ca6 case 1 => 0x7c87 case 2 => 0x4ce4 case 3 => 0x5cc5
    case 4 => 0x2c22 case 5 => 0x3c03 case 6 => 0x0c60 case 7 => 0x1c41
    case 8 => 0xedae case 9 => 0xfd8f case 10 => 0xcdec case 11 => 0xddcd
    case 12 => 0xad2a case 13 => 0xbd0b case 14 => 0x8d68 case _ => 0x9d49
  }

  lemma Crc16Row6Steps(i: bv4)
    ensures Crc16Row6(i) == Eight16((6 << 12) | ((i as bv16) << 8))
  {
  }

  function Crc16Row7(i: bv4): bv16 {
    match i
    case 0 => 0x7e97 case 1 => 0x6eb6 case 2 => 0x5ed5 case 3 => 0x4ef4
    case 4 => 0x3e13 case 5 => 0x2e32 case 6 => 0x1e51 case 7 => 0x0e70
    case 8 => 0xff9f case 9 => 0xefbe case 10 => 0xdfdd case 11 => 0xcffc
    case 12 => 0xbf1b case 13 => 0xaf3a case 14 => 0x9f59 case _ => 0x8f78
  }

  lemma Crc16Row7Steps(i: bv4)
    ensures Crc16Row7(i) == Eight16((7 << 12) | ((i as bv16) << 8))
  {
  }

  function Crc16Row8(i: bv4): bv16 {
    match i
    case 0 => 0x9188 case 1 => 0x81a9 case 2 => 0xb1ca case 3 => 0xa1eb
    case 4 => 0xd10c case 5 => 0xc12d case 6 => 0xf14e case 7 => 0xe16f
    case 8 => 0x1080 case 9 => 0x00a1 case 10 => 0x30c2 case 11 => 0x20e3
    case 12 => 0x5004 case 13 => 0x4025 case 14 => 0x7046 case _ => 0x6067
  }

  lemma Crc16Row8Steps(i: bv4)
    ensures Crc16Row8(i) == Eight16((8 << 12) | ((i as bv16) << 8))
  {
  }

  function Crc16Row9(i: bv4): bv16 {
    match i
    case 0 => 0x83b9 case 1 => 0x9398 case 2 => 0xa3fb case 3 => 0xb3da
    case 4 => 0xc33d case 5 => 0xd31c case 6 => 0xe37f case 7 => 0xf35e
    case 8 => 0x02b1 case 9 => 0x1290 case 10 => 0x22f3 case 11 => 0x32d2
    case 12 => 0x4235 case 13 => 0x5214 case 14 => 0x6277 case _ => 0x7256
  }

  lemma Crc16Row9Steps(i: bv4)
    ensures Crc16Row9(i) == Eight16((9 << 12) | ((i as bv16) << 8))
  {
  }

  function Crc16Row10(i: bv4): bv16 {
    match i
    case 0 => 0xb5ea case 1 => 0xa5cb case 2 => 0x95a8 case 3 => 0x8589
    case 4 => 0xf56e case 5 => 0xe54f case 6 => 0xd52c case 7 => 0xc50d
    case 8 => 0x34e2 case 9 => 0x24c3 case 10 => 0x14a0 case 11 => 0x0481
    case 12 => 0x7466 case 13 => 0x6447 case 14 => 0x5424 case _ => 0x4405
  }

  lemma Crc16Row10Steps(i: bv4)
    ensures Crc16Row10(i) == Eight16((10 << 12) | ((i as bv16) << 8))
  {
  }

  function Crc16Row11(i: bv4): bv16 {
    match i
    case 0 => 0xa7db case 1 => 0xb7fa case 2 => 0x8799 case 3 => 0x97b8
    case 4 => 0xe75f case 5 => 0xf77e case 6 => 0xc71d case 7 => 0xd73c
    case 8 => 0x26d3 case 9 => 0x36f2 case 10 => 0x0691 case 11 => 0x16b0
    case 12 => 0x6657 case 13 => 0x7676 case 14 => 0x4615 case _ => 0x5634
  }

  lemma Crc16Row11Steps(i: bv4)
    ensures Crc16Row11(i) == Eight16((11 << 12) | ((i as bv16) << 8))
  {
  }

  function Crc16Row12(i: bv4): bv16 {
    match i
    case 0 => 0xd94c case 1 => 0xc96d case 2 => 0xf90e case 3 => 0xe92f
    case 4 => 0x99c8 case 5 => 0x89e9 case 6 => 0xb98a case 7 => 0xa9ab
    case 8 => 0x5844 case 9 => 0x4865 case 10 => 0x7806 case 11 => 0x6827
    case 12 => 0x18c0 case 13 => 0x08e1 case 14 => 0x3882 case _ => 0x28a3
  }

  lemma Crc16Row12Steps(i: bv4)
    ensures Crc16Row12(i) == Eight16((12 << 12) | ((i as bv16) << 8))
  {
  }

  function Crc16Row13(i: bv4): bv16 {
    match i
    case 0 => 0xcb7d case 1 => 0xdb5c case 2 => 0xeb3f case 3 => 0xfb1e
    case 4 => 0x8bf9 case 5 => 0x9bd8 case 6 => 0xabbb case 7 => 0xbb9a
    case 8 => 0x4a75 case 9 => 0x5a54 case 10 => 0x6a37 case 11 => 0x7a16
    case 12 => 0x0af1 case 13 => 0x1ad0 case 14 => 0x2ab3 case _ => 0x3a92
  }

  lemma Crc16Row13Steps(i: bv4)
    ensures Crc16Row13(i) == Eight16((13 << 12) | ((i as bv16) << 8))
  {
  }

  function Crc16Row14(i: bv4): bv16 {
    match i
    case 0 => 0xfd2e case 1 => 0xed0f case 2 => 0xdd6c case 3 => 0xcd4d
    case 4 => 0xbdaa case 5 => 0xad8b case 6 => 0x9de8 case 7 => 0x8dc9
    case 8 => 0x7c26 case 9 => 0x6c07 case 10 => 0x5c64 case 11 => 0x4c45
    case 12 => 0x3ca2 case 13 => 0x2c83 case 14 => 0x1ce0 case _ => 0x0cc1
  }

  lemma Crc16Row14Steps(i: bv4)
    ensures Crc16Row14(i) == Eight16((14 << 12) | ((i as bv16) << 8))
  {
  }

  function Crc16Row15(i: bv4): bv16 {
    match i
    case 0 => 0xef1f case 1 => 0xff3e case 2 => 0xcf5d case 3 => 0xdf7c
    case 4 => 0xaf9b case 5 => 0xbfba case 6 => 0x8fd9 case 7 => 0x9ff8
    case 8 => 0x6e17 case 9 => 0x7e36 case 10 => 0x4e55 case 11 => 0x5e74
    case 12 => 0x2e93 case 13 => 0x3eb2 case 14 => 0x0ed1 case _ => 0x1ef0
  }

  lemma Crc16Row15Steps(i: bv4)
    ensures Crc16Row15(i) == Eight16((15 << 12) | ((i as bv16) << 8))
  {
  }

  // Each entry is eight bitwise steps from its index.
  lemma Crc16Entry(i: bv8)
    ensures Crc16Table(i) == Eight16((i as bv16) << 8)
  {
    hide Eight16, Crc16Row0, Crc16Row1, Crc16Row2, Crc16Row3, Crc16Row4, Crc16Row5, Crc16Row6, Crc16Row7, Crc16Row8,
        Crc16Row9, Crc16Row10, Crc16Row11, Crc16Row12, Crc16Row13, Crc16Row14, Crc16Row15;
    var low := (i & 0xF) as bv4;
    match (i >> 4) as bv4
    case 0 => Crc16Row0Steps(low);
    case 1 => Crc16Row1Steps(low);
    case 2 => Crc16Row2Steps(low);
    case 3 => Crc16Row3Steps(low);
    case 4 => Crc16Row4Steps(low);
    case 5 => Crc16Row5Steps(low);
    case 6 => Crc16Row6Steps(low);
    case 7 => Crc16Row7Steps(low);
    case 8 => Crc16Row8Steps(low);
    case 9 => Crc16Row9Steps(low);
    case 10 => Crc16Row10Steps(low);
    case 11 => Crc16Row11Steps(low);
    case 12 => Crc16Row12Steps(low);
    case 13 => Crc16Row13Steps(low);
    case 14 => Crc16Row14Steps(low);
    case _ => Crc16Row15Steps(low);
  }

  // crc32_table, utilities/crc.c:54-120
  function Crc32Table(i: bv8): bv32 {
    var low := (i & 0xF) as bv4;
    match (i >> 4) as bv4
    case 0 => Crc32Row0(low)
    case 1 => Crc32Row1(low)
    case 2 => Crc32Row2(low)
    case 3 => Crc32Row3(low)
    case 4 => Crc32Row4(low)
    case 5 => Crc32Row5(low)
    case 6 => Crc32Row6(low)
    case 7 => Crc32Row7(low)
    case 8 => Crc32Row8(low)
    case 9 => Crc32Row9(low)
    case 10 => Crc32Row10(low)
    case 11 => Crc32Row11(low)
    case 12 => Crc32Row12(low)
    case 13 => Crc32Row13(low)
    case 14 => Crc32Row14(low)
    case _ => Crc32Row15(low)
  }

  function Crc32Row0(i: bv4): bv32 {
    match i
    case 0 => 0x00000000 case 1 => 0x04c11db7 case 2 => 0x09823b6e case 3 => 0x0d4326d9
    case 4 => 0x130476dc case 5 => 0x17c56b6b case 6 => 0x1a864db2 case 7 => 0x1e475005
    case 8 => 0x2608edb8 case 9 => 0x22c9f00f case 10 => 0x2f8ad6d6 case 11 => 0x2b4bcb61
    case 12 => 0x350c9b64 case 13 => 0x31cd86d3 case 14 => 0x3c8ea00a case _ => 0x384fbdbd
  }

  lemma Crc32Row0Steps(i: bv4)
    ensures Crc32Row0(i) == Eight32((0 << 28) | ((i as bv32) << 24))
  {
  }

  function Crc32Row1(i: bv4): bv32 {
    match i
    case 0 => 0x4c11db70 case 1 => 0x48d0c6c7 case 2 => 0x4593e01e case 3 => 0x4152fda9
    case 4 => 0x5f15adac case 5 => 0x5bd4b01b case 6 => 0x569796c2 case 7 => 0x52568b75
    case 8 => 0x6a1936c8 case 9 => 0x6ed82b7f case 10 => 0x639b0da6 case 11 => 0x675a1011
    case 12 => 0x791d4014 case 13 => 0x7ddc5da3 case 14 => 0x709f7b7a case _ => 0x745e66cd
  }

  lemma Crc32Row1Steps(i: bv4)
    ensures Crc32Row1(i) == Eight32((1 << 28) | ((i as bv32) << 24))
  {
  }

  function Crc32Row2(i: bv4): bv32 {
    match i
    case 0 => 0x9823b6e0 case 1 => 0x9ce2ab57 case 2 => 0x91a18d8e case 3 => 0x95609039
    case 4 => 0x8b27c03c case 5 => 0x8fe6dd8b case 6 => 0x82a5fb52 case 7 => 0x8664e6e5
    case 8 => 0xbe2b5b58 case 9 => 0xbaea46ef case 10 => 0xb7a96036 case 11 => 0xb3687d81
    case 12 => 0xad2f2d84 case 13 => 0xa9ee3033 case 14 => 0xa4ad16ea case _ => 0xa06c0b5d
  }

  lemma Crc32Row2Steps(i: bv4)
    ensures Crc32Row2(i) == Eight32((2 << 28) | ((i as bv32) << 24))
  {
  }

  function Crc32Row3(i: bv4): bv32 {
    match i
    case 0 => 0xd4326d90 case 1 => 0xd0f37027 case 2 => 0xddb056fe case 3 => 0xd9714b49
    case 4 => 0xc7361b4c case 5 => 0xc3f706fb case 6 => 0xceb42022 case 7 => 0xca753d95
    case 8 => 0xf23a8028 case 9 => 0xf6fb9d9f case 10 => 0xfbb8bb46 case 11 => 0xff79a6f1
    case 12 => 0xe13ef6f4 case 13 => 0xe5ffeb43 case 14 => 0xe8bccd9a case _ => 0xec7dd02d
  }

  lemma Crc32Row3Steps(i: bv4)
    ensures Crc32Row3(i) == Eight32((3 << 28) | ((i as bv32) << 24))
  {
  }

  function Crc32Row4(i: bv4): bv32 {
    match i
    case 0 => 0x34867077 case 1 => 0x30476dc0 case 2 => 0x3d044b19 case 3 => 0x39c556ae
    case 4 => 0x278206ab case 5 => 0x23431b1c case 6 => 0x2e003dc5 case 7 => 0x2ac12072
    case 8 => 0x128e9dcf case 9 => 0x164f8078 case 10 => 0x1b0ca6a1 case 11 => 0x1fcdbb16
    case 12 => 0x018aeb13 case 13 => 0x054bf6a4 case 14 => 0x0808d07d case _ => 0x0cc9cdca
  }

  lemma Crc32Row4Steps(i: bv4)
    ensures Crc32Row4(i) == Eight32((4 << 28) | ((i as bv32) << 24))
  {
  }

  function Crc32Row5(i: bv4): bv32 {
    match i
    case 0 => 0x7897ab07 case 1 => 0x7c56b6b0 case 2 => 0x71159069 case 3 => 0x75d48dde
    case 4 => 0x6b93dddb case 5 => 0x6f52c06c case 6 => 0x6211e6b5 case 7 => 0x66d0fb02
    case 8 => 0x5e9f46bf case 9 => 0x5a5e5b08 case 10 => 0x571d7dd1 case 11 => 0x53dc6066
    case 12 => 0x4d9b3063 case 13 => 0x495a2dd4 case 14 => 0x44190b0d case _ => 0x40d816ba
  }

  lemma Crc32Row5Steps(i: bv4)
    ensures Crc32Row5(i) == Eight32((5 << 28) | ((i as bv32) << 24))
  {
  }

  function Crc32Row6(i: bv4): bv32 {
    match i
    case 0 => 0xaca5c697 case 1 => 0xa864db20 case 2 => 0xa527fdf9 case 3 => 0xa1e6e04e
    case 4 => 0xbfa1b04b case 5 => 0xbb60adfc case 6 => 0xb6238b25 case 7 => 0xb2e29692
    case 8 => 0x8aad2b2f case 9 => 0x8e6c3698 case 10 => 0x832f1041 case 11 => 0x87ee0df6
    case 12 => 0x99a95df3 case 13 => 0x9d684044 case 14 => 0x902b669d case _ => 0x94ea7b2a
  }

  lemma Crc32Row6Steps(i: bv4)
    ensures Crc32Row6(i) == Eight32((6 << 28) | ((i as bv32) << 24))
  {
  }

  function Crc32Row7(i: bv4): bv32 {
    match i
    case 0 => 0xe0b41de7 case 1 => 0xe4750050 case 2 => 0xe9362689 case 3 => 0xedf73b3e
    case 4 => 0xf3b06b3b case 5 => 0xf771768c case 6 => 0xfa325055 case 7 => 0xfef34de2
    case 8 => 0xc6bcf05f case 9 => 0xc27dede8 case 10 => 0xcf3ecb31 case 11 => 0xcbffd686
    case 12 => 0xd5b88683 case 13 => 0xd1799b34 case 14 => 0xdc3abded case _ => 0xd8fba05a
  }

  lemma Crc32Row7Steps(i: bv4)
    ensures Crc32Row7(i) == Eight32((7 << 28) | ((i as bv32) << 24))
  {
  }

  function Crc32Row8(i: bv4): bv32 {
    match i
    case 0 => 0x690ce0ee case 1 => 0x6dcdfd59 case 2 => 0x608edb80 case 3 => 0x644fc637
    case 4 => 0x7a089632 case 5 => 0x7ec98b85 case 6 => 0x738aad5c case 7 => 0x774bb0eb
    case 8 => 0x4f040d56 case 9 => 0x4bc510e1 case 10 => 0x46863638 case 11 => 0x42472b8f
    case 12 => 0x5c007b8a case 13 => 0x58c1663d case 14 => 0x558240e4 case _ => 0x51435d53
  }

  lemma Crc32Row8Steps(i: bv4)
    ensures Crc32Row8(i) == Eight32((8 << 28) | ((i as bv32) << 24))
  {
  }

  function Crc32Row9(i: bv4): bv32 {
    match i
    case 0 => 0x251d3b9e case 1 => 0x21dc2629 case 2 => 0x2c9f00f0 case 3 => 0x285e1d47
    case 4 => 0x36194d42 case 5 => 0x32d850f5 case 6 => 0x3f9b762c case 7 => 0x3b5a6b9b
    case 8 => 0x0315d626 case 9 => 0x07d4cb91 case 10 => 0x0a97ed48 case 11 => 0x0e56f0ff
    case 12 => 0x1011a0fa case 13 => 0x14d0bd4d case 14 => 0x19939b94 case _ => 0x1d528623
  }

  lemma Crc32Row9Steps(i: bv4)
    ensures Crc32Row9(i) == Eight32((9 << 28) | ((i as bv32) << 24))
  {
  }

  function Crc32Row10(i: bv4): bv32 {
    match i
    case 0 => 0xf12f560e case 1 => 0xf5ee4bb9 case 2 => 0xf8ad6d60 case 3 => 0xfc6c70d7
    case 4 => 0xe22b20d2 case 5 => 0xe6ea3d65 case 6 => 0xeba91bbc case 7 => 0xef68060b
    case 8 => 0xd727bbb6 case 9 => 0xd3e6a601 case 10 => 0xdea580d8 case 11 => 0xda649d6f
    case 12 => 0xc423cd6a case 13 => 0xc0e2d0dd case 14 => 0xcda1f604 case _ => 0xc960ebb3
  }

  lemma Crc32Row10Steps(i: bv4)
    ensures Crc32Row10(i) == Eight32((10 << 28) | ((i as bv32) << 24))
  {
  }

  function Crc32Row11(i: bv4): bv32 {
    match i
    case 0 => 0xbd3e8d7e case 1 => 0xb9ff90c9 case 2 => 0xb4bcb610 case 3 => 0xb07daba7
    case 4 => 0xae3afba2 case 5 => 0xaafbe615 case 6 => 0xa7b8c0cc case 7 => 0xa379dd7b
    case 8 => 0x9b3660c6 case 9 => 0x9ff77d71 case 10 => 0x92b45ba8 case 11 => 0x9675461f
    case 12 => 0x8832161a case 13 => 0x8cf30bad case 14 => 0x81b02d74 case _ => 0x857130c3
  }

  lemma Crc32Row11Steps(i: bv4)
    ensures Crc32Row11(i) == Eight32((11 << 28) | ((i as bv32) << 24))
  {
  }

  function Crc32Row12(i: bv4): bv32 {
    match i
    case 0 => 0x5d8a9099 case 1 => 0x594b8d2e case 2 => 0x5408abf7 case 3 => 0x50c9b640
    case 4 => 0x4e8ee645 case 5 => 0x4a4ffbf2 case 6 => 0x470cdd2b case 7 => 0x43cdc09c
    case 8 => 0x7b827d21 case 9 => 0x7f436096 case 10 => 0x7200464f case 11 => 0x76c15bf8
    case 12 => 0x68860bfd case 13 => 0x6c47164a case 14 => 0x61043093 case _ => 0x65c52d24
  }

  lemma Crc32Row12Steps(i: bv4)
    ensures Crc32Row12(i) == Eight32((12 << 28) | ((i as bv32) << 24))
  {
  }

  function Crc32Row13(i: bv4): bv32 {
    match i
    case 0 => 0x119b4be9 case 1 => 0x155a565e case 2 => 0x18197087 case 3 => 0x1cd86d30
    case 4 => 0x029f3d35 case 5 => 0x065e2082 case 6 => 0x0b1d065b case 7 => 0x0fdc1bec
    case 8 => 0x3793a651 case 9 => 0x3352bbe6 case 10 => 0x3e119d3f case 11 => 0x3ad08088
    case 12 => 0x2497d08d case 13 => 0x2056cd3a case 14 => 0x2d15ebe3 case _ => 0x29d4f654
  }

  lemma Crc32Row13Steps(i: bv4)
    ensures Crc32Row13(i) == Eight32((13 << 28) | ((i as bv32) << 24))
  {
  }

  function Crc32Row14(i: bv4): bv32 {
    match i
    case 0 => 0xc5a92679 case 1 => 0xc1683bce case 2 => 0xcc2b1d17 case 3 => 0xc8ea00a0
    case 4 => 0xd6ad50a5 case 5 => 0xd26c4d12 case 6 => 0xdf2f6bcb case 7 => 0xdbee767c
    case 8 => 0xe3a1cbc1 case 9 => 0xe760d676 case 10 => 0xea23f0af case 11 => 0xeee2ed18
    case 12 => 0xf0a5bd1d case 13 => 0xf464a0aa case 14 => 0xf9278673 case _ => 0xfde69bc4
  }

  lemma Crc32Row14Steps(i: bv4)
    ensures Crc32Row14(i) == Eight32((14 << 28) | ((i as bv32) << 24))
  {
  }

  function Crc32Row15(i: bv4): bv32 {
    match i
    case 0 => 0x89b8fd09 case 1 => 0x8d79e0be case 2 => 0x803ac667 case 3 => 0x84fbdbd0
    case 4 => 0x9abc8bd5 case 5 => 0x9e7d9662 case 6 => 0x933eb0bb case 7 => 0x97ffad0c
    case 8 => 0xafb010b1 case 9 => 0xab710d06 case 10 => 0xa6322bdf case 11 => 0xa2f33668
    case 12 => 0xbcb4666d case 13 => 0xb8757bda case 14 => 0xb5365d03 case _ => 0xb1f740b4
  }

  lemma Crc32Row15Steps(i: bv4)
    ensures Crc32Row15(i) == Eight32((15 << 28) | ((i as bv32) << 24))
  {
  }

  // Each entry is eight bitwise steps from its index.
  lemma Crc32Entry(i: bv8)
    ensures Crc32Table(i) == Eight32((i as bv32) << 24)
  {
    hide Eight32, Crc32Row0, Crc32Row1, Crc32Row2, Crc32Row3, Crc32Row4, Crc32Row5, Crc32Row6, Crc32Row7, Crc32Row8,
        Crc32Row9, Crc32Row10, Crc32Row11, Crc32Row12, Crc32Row13, Crc32Row14, Crc32Row15;
    var low := (i & 0xF) as bv4;
    match (i >> 4) as bv4
    case 0 => Crc32Row0Steps(low);
    case 1 => Crc32Row1Steps(low);
    case 2 => Crc32Row2Steps(low);
    case 3 => Crc32Row3Steps(low);
    case 4 => Crc32Row4Steps(low);
    case 5 => Crc32Row5Steps(low);
    case 6 => Crc32Row6Steps(low);
    case 7 => Crc32Row7Steps(low);
    case 8 => Crc32Row8Steps(low);
    case 9 => Crc32Row9Steps(low);
    case 10 => Crc32Row10Steps(low);
    case 11 => Crc32Row11Steps(low);
    case 12 => Crc32Row12Steps(low);
    case 13 => Crc32Row13Steps(low);
    case 14 => Crc32Row14Steps(low);
    case _ => Crc32Row15Steps(low);
  }

  // crc16table, sources/mbcrc.c:3-36
  function MbTable(i: bv8): bv16 {
    var low := (i & 0xF) as bv4;
    match (i >> 4) as bv4
    case 0 => MbRow0(low)
    case 1 => MbRow1(low)
    case 2 => MbRow2(low)
    case 3 => MbRow3(low)
    case 4 => MbRow4(low)
    case 5 => MbRow5(low)
    case 6 => MbRow6(low)
    case 7 => MbRow7(low)
    case 8 => MbRow8(low)
    case 9 => MbRow9(low)
    case 10 => MbRow10(low)
    case 11 => MbRow11(low)
    case 12 => MbRow12(low)
    case 13 => MbRow13(low)
    case 14 => MbRow14(low)
    case _ => MbRow15(low)
  }

  function MbRow0(i: bv4): bv16 {
    match i
    case 0 => 0x0000 case 1 => 0xC0C1 case 2 => 0xC181 case 3 => 0x0140
    case 4 => 0xC301 case 5 => 0x03C0 case 6 => 0x0280 case 7 => 0xC241
    case 8 => 0xC601 case 9 => 0x06C0 case 10 => 0x0780 case 11 => 0xC741
    case 12 => 0x0500 case 13 => 0xC5C1 case 14 => 0xC481 case _ => 0x0440
  }

  lemma MbRow0Steps(i: bv4)
    ensures MbRow0(i) == EightMb((0 << 4) | (i as bv16))
  {
    match i
    case 0 => case 1 => case 2 => case 3 => case 4 => case 5 => case 6 => case 7 =>
    case 8 => case 9 => case 10 => case 11 => case 12 => case 13 => case 14 => case _ =>
  }

  function MbRow1(i: bv4): bv16 {
    match i
    case 0 => 0xCC01 case 1 => 0x0CC0 case 2 => 0x0D80 case 3 => 0xCD41
    case 4 => 0x0F00 case 5 => 0xCFC1 case 6 => 0xCE81 case 7 => 0x0E40
    case 8 => 0x0A00 case 9 => 0xCAC1 case 10 => 0xCB81 case 11 => 0x0B40
    case 12 => 0xC901 case 13 => 0x09C0 case 14 => 0x0880 case _ => 0xC841
  }

  lemma MbRow1Steps(i: bv4)
    ensures MbRow1(i) == EightMb((1 << 4) | (i as bv16))
  {
    match i
    case 0 => case 1 => case 2 => case 3 => case 4 => case 5 => case 6 => case 7 =>
    case 8 => case 9 => case 10 => case 11 => case 12 => case 13 => case 14 => case _ =>
  }

  function MbRow2(i: bv4): bv16 {
    match i
    case 0 => 0xD801 case 1 => 0x18C0 case 2 => 0x1980 case 3 => 0xD941
    case 4 => 0x1B00 case 5 => 0xDBC1 case 6 => 0xDA81 case 7 => 0x1A40
    case 8 => 0x1E00 case 9 => 0xDEC1 case 10 => 0xDF81 case 11 => 0x1F40
    case 12 => 0xDD01 case 13 => 0x1DC0 case 14 => 0x1C80 case _ => 0xDC41
  }

  lemma MbRow2Steps(i: bv4)
    ensures MbRow2(i) == EightMb((2 << 4) | (i as bv16))
  {
    match i
    case 0 => case 1 => case 2 => case 3 => case 4 => case 5 => case 6 => case 7 =>
    case 8 => case 9 => case 10 => case 11 => case 12 => case 13 => case 14 => case _ =>
  }

  function MbRow3(i: bv4): bv16 {
    match i
    case 0 => 0x1400 case 1 => 0xD4C1 case 2 => 0xD581 case 3 => 0x1540
    case 4 => 0xD701 case 5 => 0x17C0 case 6 => 0x1680 case 7 => 0xD641
    case 8 => 0xD201 case 9 => 0x12C0 case 10 => 0x1380 case 11 => 0xD341
    case 12 => 0x1100 case 13 => 0xD1C1 case 14 => 0xD081 case _ => 0x1040
  }

  lemma MbRow3Steps(i: bv4)
    ensures MbRow3(i) == EightMb((3 << 4) | (i as bv16))
  {
    match i
    case 0 => case 1 => case 2 => case 3 => case 4 => case 5 => case 6 => case 7 =>
    case 8 => case 9 => case 10 => case 11 => case 12 => case 13 => case 14 => case _ =>
  }

  function MbRow4(i: bv4): bv16 {
    match i
    case 0 => 0xF001 case 1 => 0x30C0 case 2 => 0x3180 case 3 => 0xF141
    case 4 => 0x3300 case 5 => 0xF3C1 case 6 => 0xF281 case 7 => 0x3240
    case 8 => 0x3600 case 9 => 0xF6C1 case 10 => 0xF781 case 11 => 0x3740
    case 12 => 0xF501 case 13 => 0x35C0 case 14 => 0x3480 case _ => 0xF441
  }

  lemma MbRow4Steps(i: bv4)
    ensures MbRow4(i) == EightMb((4 << 4) | (i as bv16))
  {
    match i
    case 0 => case 1 => case 2 => case 3 => case 4 => case 5 => case 6 => case 7 =>
    case 8 => case 9 => case 10 => case 11 => case 12 => case 13 => case 14 => case _ =>
  }

  function MbRow5(i: bv4): bv16 {
    match i
    case 0 => 0x3C00 case 1 => 0xFCC1 case 2 => 0xFD81 case 3 => 0x3D40
    case 4 => 0xFF01 case 5 => 0x3FC0 case 6 => 0x3E80 case 7 => 0xFE41
    case 8 => 0xFA01 case 9 => 0x3AC0 case 10 => 0x3B80 case 11 => 0xFB41
    case 12 => 0x3900 case 13 => 0xF9C1 case 14 => 0xF881 case _ => 0x3840
  }

  lemma MbRow5Steps(i: bv4)
    ensures MbRow5(i) == EightMb((5 << 4) | (i as bv16))
  {
    match i
    case 0 => case 1 => case 2 => case 3 => case 4 => case 5 => case 6 => case 7 =>
    case 8 => case 9 => case 10 => case 11 => case 12 => case 13 => case 14 => case _ =>
  }

  function MbRow6(i: bv4): bv16 {
    match i
    case 0 => 0x2800 case 1 => 0xE8C1 case 2 => 0xE981 case 3 => 0x2940
    case 4 => 0xEB01 case 5 => 0x2BC0 case 6 => 0x2A80 case 7 => 0xEA41
    case 8 => 0xEE01 case 9 => 0x2EC0 case 10 => 0x2F80 case 11 => 0xEF41
    case 12 => 0x2D00 case 13 => 0xEDC1 case 14 => 0xEC81 case _ => 0x2C40
  }

  lemma MbRow6Steps(i: bv4)
    ensures MbRow6(i) == EightMb((6 << 4) | (i as bv16))
  {
    match i
    case 0 => case 1 => case 2 => case 3 => case 4 => case 5 => case 6 => case 7 =>
    case 8 => case 9 => case 10 => case 11 => case 12 => case 13 => case 14 => case _ =>
  }

  function MbRow7(i: bv4): bv16 {
    match i
    case 0 => 0xE401 case 1 => 0x24C0 case 2 => 0x2580 case 3 => 0xE541
    case 4 => 0x2700 case 5 => 0xE7C1 case 6 => 0xE681 case 7 => 0x2640
    case 8 => 0x2200 case 9 => 0xE2C1 case 10 => 0xE381 case 11 => 0x2340
    case 12 => 0xE101 case 13 => 0x21C0 case 14 => 0x2080 case _ => 0xE041
  }

  lemma MbRow7Steps(i: bv4)
    ensures MbRow7(i) == EightMb((7 << 4) | (i as bv16))
  {
    match i
    case 0 => case 1 => case 2 => case 3 => case 4 => case 5 => case 6 => case 7 =>
    case 8 => case 9 => case 10 => case 11 => case 12 => case 13 => case 14 => case _ =>
  }

  function MbRow8(i: bv4): bv16 {
    match i
    case 0 => 0xA001 case 1 => 0x60C0 case 2 => 0x6180 case 3 => 0xA141
    case 4 => 0x6300 case 5 => 0xA3C1 case 6 => 0xA281 case 7 => 0x6240
    case 8 => 0x6600 case 9 => 0xA6C1 case 10 => 0xA781 case 11 => 0x6740
    case 12 => 0xA501 case 13 => 0x65C0 case 14 => 0x6480 case _ => 0xA441
  }

  lemma MbRow8Steps(i: bv4)
    ensures MbRow8(i) == EightMb((8 << 4) | (i as bv16))
  {
    match i
    case 0 => case 1 => case 2 => case 3 => case 4 => case 5 => case 6 => case 7 =>
    case 8 => case 9 => case 10 => case 11 => case 12 => case 13 => case 14 => case _ =>
  }

  function MbRow9(i: bv4): bv16 {
    match i
    case 0 => 0x6C00 case 1 => 0xACC1 case 2 => 0xAD81 case 3 => 0x6D40
    case 4 => 0xAF01 case 5 => 0x6FC0 case 6 => 0x6E80 case 7 => 0xAE41
    case 8 => 0xAA01 case 9 => 0x6AC0 case 10 => 0x6B80 case 11 => 0xAB41
    case 12 => 0x6900 case 13 => 0xA9C1 case 14 => 0xA881 case _ => 0x6840
  }

  lemma MbRow9Steps(i: bv4)
    ensures MbRow9(i) == EightMb((9 << 4) | (i as bv16))
  {
    match i
    case 0 => case 1 => case 2 => case 3 => case 4 => case 5 => case 6 => case 7 =>
    case 8 => case 9 => case 10 => case 11 => case 12 => case 13 => case 14 => case _ =>
  }

  function MbRow10(i: bv4): bv16 {
    match i
    case 0 => 0x7800 case 1 => 0xB8C1 case 2 => 0xB981 case 3 => 0x7940
    case 4 => 0xBB01 case 5 => 0x7BC0 case 6 => 0x7A80 case 7 => 0xBA41
    case 8 => 0xBE01 case 9 => 0x7EC0 case 10 => 0x7F80 case 11 => 0xBF41
    case 12 => 0x7D00 case 13 => 0xBDC1 case 14 => 0xBC81 case _ => 0x7C40
  }

  lemma MbRow10Steps(i: bv4)
    ensures MbRow10(i) == EightMb((10 << 4) | (i as bv16))
  {
    match i
    case 0 => case 1 => case 2 => case 3 => case 4 => case 5 => case 6 => case 7 =>
    case 8 => case 9 => case 10 => case 11 => case 12 => case 13 => case 14 => case _ =>
  }

  function MbRow11(i: bv4): bv16 {
    match i
    case 0 => 0xB401 case 1 => 0x74C0 case 2 => 0x7580 case 3 => 0xB541
    case 4 => 0x7700 case 5 => 0xB7C1 case 6 => 0xB681 case 7 => 0x7640
    case 8 => 0x7200 case 9 => 0xB2C1 case 10 => 0xB381 case 11 => 0x7340
    case 12 => 0xB101 case 13 => 0x71C0 case 14 => 0x7080 case _ => 0xB041
  }

  lemma MbRow11Steps(i: bv4)
    ensures MbRow11(i) == EightMb((11 << 4) | (i as bv16))
  {
    match i
    case 0 => case 1 => case 2 => case 3 => case 4 => case 5 => case 6 => case 7 =>
    case 8 => case 9 => case 10 => case 11 => case 12 => case 13 => case 14 => case _ =>
  }

  function MbRow12(i: bv4): bv16 {
    match i
    case 0 => 0x5000 case 1 => 0x90C1 case 2 => 0x9181 case 3 => 0x5140
    case 4 => 0x9301 case 5 => 0x53C0 case 6 => 0x5280 case 7 => 0x9241
    case 8 => 0x9601 case 9 => 0x56C0 case 10 => 0x5780 case 11 => 0x9741
    case 12 => 0x5500 case 13 => 0x95C1 case 14 => 0x9481 case _ => 0x5440
  }

  lemma MbRow12Steps(i: bv4)
    ensures MbRow12(i) == EightMb((12 << 4) | (i as bv16))
  {
    match i
    case 0 => case 1 => case 2 => case 3 => case 4 => case 5 => case 6 => case 7 =>
    case 8 => case 9 => case 10 => case 11 => case 12 => case 13 => case 14 => case _ =>
  }

  function MbRow13(i: bv4): bv16 {
    match i
    case 0 => 0x9C01 case 1 => 0x5CC0 case 2 => 0x5D80 case 3 => 0x9D41
    case 4 => 0x5F00 case 5 => 0x9FC1 case 6 => 0x9E81 case 7 => 0x5E40
    case 8 => 0x5A00 case 9 => 0x9AC1 case 10 => 0x9B81 case 11 => 0x5B40
    case 12 => 0x9901 case 13 => 0x59C0 case 14 => 0x5880 case _ => 0x9841
  }

  lemma MbRow13Steps(i: bv4)
    ensures MbRow13(i) == EightMb((13 << 4) | (i as bv16))
  {
    match i
    case 0 => case 1 => case 2 => case 3 => case 4 => case 5 => case 6 => case 7 =>
    case 8 => case 9 => case 10 => case 11 => case 12 => case 13 => case 14 => case _ =>
  }

  function MbRow14(i: bv4): bv16 {
    match i
    case 0 => 0x8801 case 1 => 0x48C0 case 2 => 0x4980 case 3 => 0x8941
    case 4 => 0x4B00 case 5 => 0x8BC1 case 6 => 0x8A81 case 7 => 0x4A40
    case 8 => 0x4E00 case 9 => 0x8EC1 case 10 => 0x8F81 case 11 => 0x4F40
    case 12 => 0x8D01 case 13 => 0x4DC0 case 14 => 0x4C80 case _ => 0x8C41
  }

  lemma MbRow14Steps(i: bv4)
    ensures MbRow14(i) == EightMb((14 << 4) | (i as bv16))
  {
    match i
    case 0 => case 1 => case 2 => case 3 => case 4 => case 5 => case 6 => case 7 =>
    case 8 => case 9 => case 10 => case 11 => case 12 => case 13 => case 14 => case _ =>
  }

  function MbRow15(i: bv4): bv16 {
    match i
    case 0 => 0x4400 case 1 => 0x84C1 case 2 => 0x8581 case 3 => 0x4540
    case 4 => 0x8701 case 5 => 0x47C0 case 6 => 0x4680 case 7 => 0x8641
    case 8 => 0x8201 case 9 => 0x42C0 case 10 => 0x4380 case 11 => 0x8341
    case 12 => 0x4100 case 13 => 0x81C1 case 14 => 0x8081 case _ => 0x4040
  }

  lemma MbRow15Steps(i: bv4)
    ensures MbRow15(i) == EightMb((15 << 4) | (i as bv16))
  {
    match i
    case 0 => case 1 => case 2 => case 3 => case 4 => case 5 => case 6 => case 7 =>
    case 8 => case 9 => case 10 => case 11 => case 12 => case 13 => case 14 => case _ =>
  }

  // Each entry is eight bitwise steps from its index.
  lemma MbEntry(i: bv8)
    ensures MbTable(i) == EightMb(i as bv16)
  {
    hide EightMb, MbRow0, MbRow1, MbRow2, MbRow3, MbRow4, MbRow5, MbRow6, MbRow7, MbRow8, MbRow9, MbRow10, MbRow11,
        MbRow12, MbRow13, MbRow14, MbRow15;
    var low := (i & 0xF) as bv4;
    match (i >> 4) as bv4
    case 0 => MbRow0Steps(low);
    case 1 => MbRow1Steps(low);
    case 2 => MbRow2Steps(low);
    case 3 => MbRow3Steps(low);
    case 4 => MbRow4Steps(low);
    case 5 => MbRow5Steps(low);
    case 6 => MbRow6Steps(low);
    case 7 => MbRow7Steps(low);
    case 8 => MbRow8Steps(low);
    case 9 => MbRow9Steps(low);
    case 10 => MbRow10Steps(low);
    case 11 => MbRow11Steps(low);
    case 12 => MbRow12Steps(low);
    case 13 => MbRow13Steps(low);
    case 14 => MbRow14Steps(low);
    case _ => MbRow15Steps(low);
  }
}

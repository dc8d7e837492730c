// MD5 of the three bytes "abc", row by row: the digest that appendix A.5 of RFC 1321 lists.
// It holds every constant, shift, word number and function of the definition in place.  What
// the functions mean for all words is stated first.
module Md5Vector {
  import opened Basics
  import opened HashBlocks
  import opened Md5Rounds
  import opened Md5

  // ---- the functions, for all words ----

  // Where x has ones, F takes y, elsewhere z.
  lemma FChooses(x: bv32, y: bv32, z: bv32)
    ensures F(x, y, z) & x == y & x
    ensures F(x, y, z) & !x == z & !x
  {
    FOnes(x, y, z);
    FZeros(x, y, z);
  }

  lemma FOnes(x: bv32, y: bv32, z: bv32)
    ensures ((x & y) | (!x & z)) & x == y & x
  {
  }

  lemma FZeros(x: bv32, y: bv32, z: bv32)
    ensures ((x & y) | (!x & z)) & !x == z & !x
  {
  }

  // Where z has ones, G takes x, elsewhere y.
  lemma GChooses(x: bv32, y: bv32, z: bv32)
    ensures G(x, y, z) & z == x & z
    ensures G(x, y, z) & !z == y & !z
  {
    GOnes(x, y, z);
    GZeros(x, y, z);
  }

  lemma GOnes(x: bv32, y: bv32, z: bv32)
    ensures ((x & z) | (y & !z)) & z == x & z
  {
  }

  lemma GZeros(x: bv32, y: bv32, z: bv32)
    ensures ((x & z) | (y & !z)) & !z == y & !z
  {
  }

  // Where x and y agree H is z; where they do not, its opposite.
  lemma HCounts(x: bv32, y: bv32, z: bv32)
    ensures H(x, y, z) & !(x ^ y) == z & !(x ^ y)
    ensures H(x, y, z) & (x ^ y) == !z & (x ^ y)
  {
    HEven(x, y, z);
    HOdd(x, y, z);
  }

  lemma HEven(x: bv32, y: bv32, z: bv32)
    ensures (x ^ y ^ z) & !(x ^ y) == z & !(x ^ y)
  {
  }

  lemma HOdd(x: bv32, y: bv32, z: bv32)
    ensures (x ^ y ^ z) & (x ^ y) == !z & (x ^ y)
  {
  }

  // Where x has ones or z has none, I is the opposite of y; elsewhere it is y.
  lemma ITurns(x: bv32, y: bv32, z: bv32)
    ensures I(x, y, z) & x == !y & x
    ensures I(x, y, z) & !z == !y & !z
    ensures I(x, y, z) & (!x & z) == y & (!x & z)
  {
    hide I;
    ITurnsOnes(x, y, z);
    ITurnsNone(x, y, z);
    ITurnsElse(x, y, z);
  }

  lemma ITurnsOnes(x: bv32, y: bv32, z: bv32)
    ensures I(x, y, z) & x == !y & x
  {
    IOnes(x, y, z);
  }

  lemma ITurnsNone(x: bv32, y: bv32, z: bv32)
    ensures I(x, y, z) & !z == !y & !z
  {
    INoneOfZ(x, y, z);
  }

  lemma ITurnsElse(x: bv32, y: bv32, z: bv32)
    ensures I(x, y, z) & (!x & z) == y & (!x & z)
  {
    IElse(x, y, z);
  }

  lemma IOnes(x: bv32, y: bv32, z: bv32)
    ensures (y ^ (x | !z)) & x == !y & x
  {
  }

  lemma INoneOfZ(x: bv32, y: bv32, z: bv32)
    ensures (y ^ (x | !z)) & !z == !y & !z
  {
  }

  lemma IElse(x: bv32, y: bv32, z: bv32)
    ensures (y ^ (x | !z)) & (!x & z) == y & (!x & z)
  {
  }

  function Left(x: bv32, n: bv6): bv32
    requires n <= 32
  {
    x << n
  }

  function Right(x: bv32, n: bv6): bv32
    requires n <= 32
  {
    x >> n
  }

  function Or(x: bv32, y: bv32): bv32 { x | y }

  // The same with the amount as a number.
  function LeftBy(x: bv32, n: nat): bv32
    requires n <= 32
  {
    x << n
  }

  function RightBy(x: bv32, n: nat): bv32
    requires n <= 32
  {
    x >> n
  }

  lemma LeftIs(x: bv32, n: nat, amount: bv6)
    requires n <= 32 && amount == n as bv6 && amount <= 32
    ensures LeftBy(x, n) == Left(x, amount)
  {
  }

  lemma RightIs(x: bv32, n: nat, amount: bv6)
    requires n <= 32 && amount == n as bv6 && amount <= 32
    ensures RightBy(x, n) == Right(x, amount)
  {
  }

  lemma RotatedIs(x: bv32, n: nat)
    requires 0 < n < 32
    ensures Rotated(x, n) == Or(LeftBy(x, n), RightBy(x, 32 - n))
  {
  }

  // A rotation multiplies by a power of two, and adds what the product loses at the top.
  lemma RotatedIsArithmetic(x: bv32)
    ensures Rotated(x, 4) == x * 0x10 + x / 0x10000000
    ensures Rotated(x, 5) == x * 0x20 + x / 0x8000000
    ensures Rotated(x, 6) == x * 0x40 + x / 0x4000000
    ensures Rotated(x, 7) == x * 0x80 + x / 0x2000000
    ensures Rotated(x, 9) == x * 0x200 + x / 0x800000
    ensures Rotated(x, 10) == x * 0x400 + x / 0x400000
    ensures Rotated(x, 11) == x * 0x800 + x / 0x200000
    ensures Rotated(x, 12) == x * 0x1000 + x / 0x100000
    ensures Rotated(x, 14) == x * 0x4000 + x / 0x40000
    ensures Rotated(x, 15) == x * 0x8000 + x / 0x20000
    ensures Rotated(x, 16) == x * 0x10000 + x / 0x10000
    ensures Rotated(x, 17) == x * 0x20000 + x / 0x8000
    ensures Rotated(x, 20) == x * 0x100000 + x / 0x1000
    ensures Rotated(x, 21) == x * 0x200000 + x / 0x800
    ensures Rotated(x, 22) == x * 0x400000 + x / 0x400
    ensures Rotated(x, 23) == x * 0x800000 + x / 0x200
  {
    hide Rotated, Or;
    By4(x);
    Arithmetic4(x);
    By5(x);
    Arithmetic5(x);
    By6(x);
    Arithmetic6(x);
    By7(x);
    Arithmetic7(x);
    By9(x);
    Arithmetic9(x);
    By10(x);
    Arithmetic10(x);
    By11(x);
    Arithmetic11(x);
    By12(x);
    Arithmetic12(x);
    By14(x);
    Arithmetic14(x);
    By15(x);
    Arithmetic15(x);
    By16(x);
    Arithmetic16(x);
    By17(x);
    Arithmetic17(x);
    By20(x);
    Arithmetic20(x);
    By21(x);
    Arithmetic21(x);
    By22(x);
    Arithmetic22(x);
    By23(x);
    Arithmetic23(x);
  }

  lemma By4(x: bv32)
    ensures Rotated(x, 4) == Or(x << 4, x >> 28)
  {
    hide Rotated, Or, LeftBy, RightBy, Left, Right;
    RotatedIs(x, 4);
    LeftIs(x, 4, 4);
    RightIs(x, 28, 28);
    Amounts4(x);
  }

  lemma Amounts4(x: bv32)
    ensures Left(x, 4) == x << 4 && Right(x, 28) == x >> 28
  {
  }

  lemma Arithmetic4(x: bv32)
    ensures Or(x << 4, x >> 28) == x * 0x10 + x / 0x10000000
  {
  }

  lemma By5(x: bv32)
    ensures Rotated(x, 5) == Or(x << 5, x >> 27)
  {
    hide Rotated, Or, LeftBy, RightBy, Left, Right;
    RotatedIs(x, 5);
    LeftIs(x, 5, 5);
    RightIs(x, 27, 27);
    Amounts5(x);
  }

  lemma Amounts5(x: bv32)
    ensures Left(x, 5) == x << 5 && Right(x, 27) == x >> 27
  {
  }

  lemma Arithmetic5(x: bv32)
    ensures Or(x << 5, x >> 27) == x * 0x20 + x / 0x8000000
  {
  }

  lemma By6(x: bv32)
    ensures Rotated(x, 6) == Or(x << 6, x >> 26)
  {
    hide Rotated, Or, LeftBy, RightBy, Left, Right;
    RotatedIs(x, 6);
    LeftIs(x, 6, 6);
    RightIs(x, 26, 26);
    Amounts6(x);
  }

  lemma Amounts6(x: bv32)
    ensures Left(x, 6) == x << 6 && Right(x, 26) == x >> 26
  {
  }

  lemma Arithmetic6(x: bv32)
    ensures Or(x << 6, x >> 26) == x * 0x40 + x / 0x4000000
  {
  }

  lemma By7(x: bv32)
    ensures Rotated(x, 7) == Or(x << 7, x >> 25)
  {
    hide Rotated, Or, LeftBy, RightBy, Left, Right;
    RotatedIs(x, 7);
    LeftIs(x, 7, 7);
    RightIs(x, 25, 25);
    Amounts7(x);
  }

  lemma Amounts7(x: bv32)
    ensures Left(x, 7) == x << 7 && Right(x, 25) == x >> 25
  {
  }

  lemma Arithmetic7(x: bv32)
    ensures Or(x << 7, x >> 25) == x * 0x80 + x / 0x2000000
  {
  }

  lemma By9(x: bv32)
    ensures Rotated(x, 9) == Or(x << 9, x >> 23)
  {
    hide Rotated, Or, LeftBy, RightBy, Left, Right;
    RotatedIs(x, 9);
    LeftIs(x, 9, 9);
    RightIs(x, 23, 23);
    Amounts9(x);
  }

  lemma Amounts9(x: bv32)
    ensures Left(x, 9) == x << 9 && Right(x, 23) == x >> 23
  {
  }

  lemma Arithmetic9(x: bv32)
    ensures Or(x << 9, x >> 23) == x * 0x200 + x / 0x800000
  {
  }

  lemma By10(x: bv32)
    ensures Rotated(x, 10) == Or(x << 10, x >> 22)
  {
    hide Rotated, Or, LeftBy, RightBy, Left, Right;
    RotatedIs(x, 10);
    LeftIs(x, 10, 10);
    RightIs(x, 22, 22);
    Amounts10(x);
  }

  lemma Amounts10(x: bv32)
    ensures Left(x, 10) == x << 10 && Right(x, 22) == x >> 22
  {
  }

  lemma Arithmetic10(x: bv32)
    ensures Or(x << 10, x >> 22) == x * 0x400 + x / 0x400000
  {
  }

  lemma By11(x: bv32)
    ensures Rotated(x, 11) == Or(x << 11, x >> 21)
  {
    hide Rotated, Or, LeftBy, RightBy, Left, Right;
    RotatedIs(x, 11);
    LeftIs(x, 11, 11);
    RightIs(x, 21, 21);
    Amounts11(x);
  }

  lemma Amounts11(x: bv32)
    ensures Left(x, 11) == x << 11 && Right(x, 21) == x >> 21
  {
  }

  lemma Arithmetic11(x: bv32)
    ensures Or(x << 11, x >> 21) == x * 0x800 + x / 0x200000
  {
  }

  lemma By12(x: bv32)
    ensures Rotated(x, 12) == Or(x << 12, x >> 20)
  {
    hide Rotated, Or, LeftBy, RightBy, Left, Right;
    RotatedIs(x, 12);
    LeftIs(x, 12, 12);
    RightIs(x, 20, 20);
    Amounts12(x);
  }

  lemma Amounts12(x: bv32)
    ensures Left(x, 12) == x << 12 && Right(x, 20) == x >> 20
  {
  }

  lemma Arithmetic12(x: bv32)
    ensures Or(x << 12, x >> 20) == x * 0x1000 + x / 0x100000
  {
  }

  lemma By14(x: bv32)
    ensures Rotated(x, 14) == Or(x << 14, x >> 18)
  {
    hide Rotated, Or, LeftBy, RightBy, Left, Right;
    RotatedIs(x, 14);
    LeftIs(x, 14, 14);
    RightIs(x, 18, 18);
    Amounts14(x);
  }

  lemma Amounts14(x: bv32)
    ensures Left(x, 14) == x << 14 && Right(x, 18) == x >> 18
  {
  }

  lemma Arithmetic14(x: bv32)
    ensures Or(x << 14, x >> 18) == x * 0x4000 + x / 0x40000
  {
  }

  lemma By15(x: bv32)
    ensures Rotated(x, 15) == Or(x << 15, x >> 17)
  {
    hide Rotated, Or, LeftBy, RightBy, Left, Right;
    RotatedIs(x, 15);
    LeftIs(x, 15, 15);
    RightIs(x, 17, 17);
    Amounts15(x);
  }

  lemma Amounts15(x: bv32)
    ensures Left(x, 15) == x << 15 && Right(x, 17) == x >> 17
  {
  }

  lemma Arithmetic15(x: bv32)
    ensures Or(x << 15, x >> 17) == x * 0x8000 + x / 0x20000
  {
  }

  lemma By16(x: bv32)
    ensures Rotated(x, 16) == Or(x << 16, x >> 16)
  {
    hide Rotated, Or, LeftBy, RightBy, Left, Right;
    RotatedIs(x, 16);
    LeftIs(x, 16, 16);
    RightIs(x, 16, 16);
    Amounts16(x);
  }

  lemma Amounts16(x: bv32)
    ensures Left(x, 16) == x << 16 && Right(x, 16) == x >> 16
  {
  }

  lemma Arithmetic16(x: bv32)
    ensures Or(x << 16, x >> 16) == x * 0x10000 + x / 0x10000
  {
  }

  lemma By17(x: bv32)
    ensures Rotated(x, 17) == Or(x << 17, x >> 15)
  {
    hide Rotated, Or, LeftBy, RightBy, Left, Right;
    RotatedIs(x, 17);
    LeftIs(x, 17, 17);
    RightIs(x, 15, 15);
    Amounts17(x);
  }

  lemma Amounts17(x: bv32)
    ensures Left(x, 17) == x << 17 && Right(x, 15) == x >> 15
  {
  }

  lemma Arithmetic17(x: bv32)
    ensures Or(x << 17, x >> 15) == x * 0x20000 + x / 0x8000
  {
  }

  lemma By20(x: bv32)
    ensures Rotated(x, 20) == Or(x << 20, x >> 12)
  {
    hide Rotated, Or, LeftBy, RightBy, Left, Right;
    RotatedIs(x, 20);
    LeftIs(x, 20, 20);
    RightIs(x, 12, 12);
    Amounts20(x);
  }

  lemma Amounts20(x: bv32)
    ensures Left(x, 20) == x << 20 && Right(x, 12) == x >> 12
  {
  }

  lemma Arithmetic20(x: bv32)
    ensures Or(x << 20, x >> 12) == x * 0x100000 + x / 0x1000
  {
  }

  lemma By21(x: bv32)
    ensures Rotated(x, 21) == Or(x << 21, x >> 11)
  {
    hide Rotated, Or, LeftBy, RightBy, Left, Right;
    RotatedIs(x, 21);
    LeftIs(x, 21, 21);
    RightIs(x, 11, 11);
    Amounts21(x);
  }

  lemma Amounts21(x: bv32)
    ensures Left(x, 21) == x << 21 && Right(x, 11) == x >> 11
  {
  }

  lemma Arithmetic21(x: bv32)
    ensures Or(x << 21, x >> 11) == x * 0x200000 + x / 0x800
  {
  }

  lemma By22(x: bv32)
    ensures Rotated(x, 22) == Or(x << 22, x >> 10)
  {
    hide Rotated, Or, LeftBy, RightBy, Left, Right;
    RotatedIs(x, 22);
    LeftIs(x, 22, 22);
    RightIs(x, 10, 10);
    Amounts22(x);
  }

  lemma Amounts22(x: bv32)
    ensures Left(x, 22) == x << 22 && Right(x, 10) == x >> 10
  {
  }

  lemma Arithmetic22(x: bv32)
    ensures Or(x << 22, x >> 10) == x * 0x400000 + x / 0x400
  {
  }

  lemma By23(x: bv32)
    ensures Rotated(x, 23) == Or(x << 23, x >> 9)
  {
    hide Rotated, Or, LeftBy, RightBy, Left, Right;
    RotatedIs(x, 23);
    LeftIs(x, 23, 23);
    RightIs(x, 9, 9);
    Amounts23(x);
  }

  lemma Amounts23(x: bv32)
    ensures Left(x, 23) == x << 23 && Right(x, 9) == x >> 9
  {
  }

  lemma Arithmetic23(x: bv32)
    ensures Or(x << 23, x >> 9) == x * 0x800000 + x / 0x200
  {
  }

  // Four bytes as the digits of a word, lowest first, and the digits of a word.
  lemma LittleWordIsArithmetic(p: bv8, q: bv8, r: bv8, s: bv8)
    ensures LittleWord(p, q, r, s) ==
            (p as bv32) + (q as bv32) * 0x100 + (r as bv32) * 0x1_0000 + (s as bv32) * 0x100_0000
  {
  }

  // ---- the block ----

  const ABC: seq<bv8> := [0x61, 0x62, 0x63]

  // Its words, padding included.
  const X: Words := [0x80636261, 0, 0, 0, 0, 0, 0, 0, 0, 0, 0, 0, 0, 0, 24, 0]

  // ---- the rows ----

  lemma Rows2()
    ensures Rows(X, 2, START) == Four(0x98badcfe, 0x344a8432, 0xd6d117b4, 0xefcdab89)
  {
    hide Rows, Rotated;
    NoRows();
    By7(0x57ce06d8);
    OneRow(0, 0x67452301, 0xefcdab89, 0x98badcfe, 0x10325476, 0x57ce06d8);
    By12(0xc7e5d796);
    OneRow(1, 0x10325476, 0xd6d117b4, 0xefcdab89, 0x98badcfe, 0xc7e5d796);
  }

  lemma Rows4()
    ensures Rows(X, 4, START) == Four(0xd6d117b4, 0x7ad956f2, 0x2f6fbd72, 0x344a8432)
  {
    hide Rows, Rotated;
    Rows2();
    By17(0x9ca07d92);
    OneRow(2, 0x98badcfe, 0x344a8432, 0xd6d117b4, 0xefcdab89, 0x9ca07d92);
    By22(0xa666012d);
    OneRow(3, 0xefcdab89, 0x2f6fbd72, 0x344a8432, 0xd6d117b4, 0xa666012d);
  }

  lemma Rows6()
    ensures Rows(X, 6, START) == Four(0x2f6fbd72, 0x8bac3051, 0xc73741ef, 0x7ad956f2)
  {
    hide Rows, Rotated;
    Rows4();
    By7(0xfa98bbd5);
    OneRow(4, 0xd6d117b4, 0x7ad956f2, 0x2f6fbd72, 0x344a8432, 0xfa98bbd5);
    By12(0xe62c474e);
    OneRow(5, 0x344a8432, 0xc73741ef, 0x7ad956f2, 0x2f6fbd72, 0xe62c474e);
  }

  lemma Rows8()
    ensures Rows(X, 8, START) == Four(0xc73741ef, 0x928d99f6, 0x207dc67b, 0x8bac3051)
  {
    hide Rows, Rotated;
    Rows6();
    By17(0xcb154a68);
    OneRow(6, 0x2f6fbd72, 0x8bac3051, 0xc73741ef, 0x7ad956f2, 0xcb154a68);
    By22(0x3f4dedc8);
    OneRow(7, 0x7ad956f2, 0x207dc67b, 0x8bac3051, 0xc73741ef, 0x3f4dedc8);
  }

  lemma Rows10()
    ensures Rows(X, 10, START) == Four(0x207dc67b, 0x74e2f284, 0x854b3712, 0x928d99f6)
  {
    hide Rows, Rotated;
    Rows8();
    By7(0x39e57b3a);
    OneRow(8, 0xc73741ef, 0x928d99f6, 0x207dc67b, 0x8bac3051, 0x39e57b3a);
    By12(0xb72ef97b);
    OneRow(9, 0x8bac3051, 0x854b3712, 0x928d99f6, 0x207dc67b, 0xb72ef97b);
  }

  lemma Rows12()
    ensures Rows(X, 12, START) == Four(0x854b3712, 0x5ed49596, 0x3020401c, 0x74e2f284)
  {
    hide Rows, Rotated;
    Rows10();
    By17(0xa6cc5d9e);
    OneRow(10, 0x207dc67b, 0x74e2f284, 0x854b3712, 0x928d99f6, 0xa6cc5d9e);
    By22(0xd155e8ba);
    OneRow(11, 0x928d99f6, 0x3020401c, 0x74e2f284, 0x854b3712, 0xd155e8ba);
  }

  lemma Rows14()
    ensures Rows(X, 14, START) == Four(0x3020401c, 0xa1051895, 0xdda9b9a6, 0x5ed49596)
  {
    hide Rows, Rotated;
    Rows12();
    By7(0x20fdaa48);
    OneRow(12, 0x854b3712, 0x5ed49596, 0x3020401c, 0x74e2f284, 0x20fdaa48);
    By12(0xeefc35b5);
    OneRow(13, 0x74e2f284, 0xdda9b9a6, 0x5ed49596, 0x3020401c, 0xeefc35b5);
  }

  lemma Rows16()
    ensures Rows(X, 16, START) == Four(0xdda9b9a6, 0x72aff2e0, 0xe396856b, 0xa1051895)
  {
    hide Rows, Rotated;
    Rows14();
    By17(0xb66b2148);
    OneRow(14, 0x3020401c, 0xa1051895, 0xdda9b9a6, 0x5ed49596, 0xb66b2148);
    By22(0x65b5d63c);
    OneRow(15, 0x5ed49596, 0xe396856b, 0xa1051895, 0xdda9b9a6, 0x65b5d63c);
  }

  lemma Rows18()
    ensures Rows(X, 18, START) == Four(0xe396856b, 0x4a1d804e, 0x3e9e9126, 0x72aff2e0)
  {
    hide Rows, Rotated;
    Rows16();
    By5(0x365f74f2);
    OneRow(16, 0xdda9b9a6, 0x72aff2e0, 0xe396856b, 0xa1051895, 0x365f74f2);
    By9(0x9405bf77);
    OneRow(17, 0xa1051895, 0x3e9e9126, 0x72aff2e0, 0xe396856b, 0x9405bf77);
  }

  lemma Rows20()
    ensures Rows(X, 20, START) == Four(0x3e9e9126, 0xb5b204e4, 0xe25e1652, 0x4a1d804e)
  {
    hide Rows, Rotated;
    Rows18();
    By14(0x58126102);
    OneRow(18, 0xe396856b, 0x4a1d804e, 0x3e9e9126, 0x72aff2e0, 0x58126102);
    By20(0x3ee92d35);
    OneRow(19, 0x72aff2e0, 0xe25e1652, 0x4a1d804e, 0x3e9e9126, 0x3ee92d35);
  }

  lemma Rows22()
    ensures Rows(X, 22, START) == Four(0xe25e1652, 0x6d002f1e, 0x59a8ffda, 0xb5b204e4)
  {
    hide Rows, Rotated;
    Rows20();
    By5(0xb51fb7d7);
    OneRow(20, 0x3e9e9126, 0xb5b204e4, 0xe25e1652, 0x4a1d804e, 0xb51fb7d7);
    By9(0xa209ab97);
    OneRow(21, 0x4a1d804e, 0x59a8ffda, 0xb5b204e4, 0xe25e1652, 0xa209ab97);
  }

  lemma Rows24()
    ensures Rows(X, 24, START) == Four(0x59a8ffda, 0x47092c07, 0xabfc7920, 0x6d002f1e)
  {
    hide Rows, Rotated;
    Rows22();
    By14(0x2808fbf1);
    OneRow(22, 0xe25e1652, 0x6d002f1e, 0x59a8ffda, 0xb5b204e4, 0x2808fbf1);
    By20(0xcb2e79b0);
    OneRow(23, 0xb5b204e4, 0xabfc7920, 0x6d002f1e, 0x59a8ffda, 0xcb2e79b0);
  }

  lemma Rows26()
    ensures Rows(X, 26, START) == Four(0xabfc7920, 0x09388eff, 0xb7f268cf, 0x47092c07)
  {
    hide Rows, Rotated;
    Rows24();
    By5(0x438749e6);
    OneRow(24, 0x59a8ffda, 0x47092c07, 0xabfc7920, 0x6d002f1e, 0x438749e6);
    By9(0x1828a313);
    OneRow(25, 0x6d002f1e, 0xb7f268cf, 0x47092c07, 0xabfc7920, 0x1828a313);
  }

  lemma Rows28()
    ensures Rows(X, 28, START) == Four(0xb7f268cf, 0x786acb8f, 0xfe1623b1, 0x09388eff)
  {
    hide Rows, Rotated;
    Rows26();
    By14(0x52cbd376);
    OneRow(26, 0xabfc7920, 0x09388eff, 0xb7f268cf, 0x47092c07, 0x52cbd376);
    By20(0x4a7de7a5);
    OneRow(27, 0x47092c07, 0xfe1623b1, 0x09388eff, 0xb7f268cf, 0x4a7de7a5);
  }

  lemma Rows30()
    ensures Rows(X, 30, START) == Four(0xfe1623b1, 0x9f47e4f8, 0x790a77fb, 0x786acb8f)
  {
    hide Rows, Rotated;
    Rows28();
    By5(0x6004fd63);
    OneRow(28, 0xb7f268cf, 0x786acb8f, 0xfe1623b1, 0x09388eff, 0x6004fd63);
    By9(0x7e931eb6);
    OneRow(29, 0x09388eff, 0x790a77fb, 0x786acb8f, 0xfe1623b1, 0x7e931eb6);
  }

  lemma Rows32()
    ensures Rows(X, 32, START) == Four(0x790a77fb, 0x726342d3, 0xa62884aa, 0x9f47e4f8)
  {
    hide Rows, Rotated;
    Rows30();
    By14(0x7ec81b82);
    OneRow(30, 0xfe1623b1, 0x9f47e4f8, 0x790a77fb, 0x786acb8f, 0x7ec81b82);
    By20(0xabe29cc3);
    OneRow(31, 0x786acb8f, 0xa62884aa, 0x9f47e4f8, 0x790a77fb, 0xabe29cc3);
  }

  lemma Rows34()
    ensures Rows(X, 34, START) == Four(0xa62884aa, 0x60127b2e, 0xb3707ebf, 0x726342d3)
  {
    hide Rows, Rotated;
    Rows32();
    By4(0xc410d3be);
    OneRow(32, 0x790a77fb, 0x726342d3, 0xa62884aa, 0x9f47e4f8, 0xc410d3be);
    By11(0x8df5943f);
    OneRow(33, 0x9f47e4f8, 0xb3707ebf, 0x726342d3, 0xa62884aa, 0x8df5943f);
  }

  lemma Rows36()
    ensures Rows(X, 36, START) == Four(0xb3707ebf, 0x3b0875c7, 0x8d212ff5, 0x60127b2e)
  {
    hide Rows, Rotated;
    Rows34();
    By16(0xb4c72d0e);
    OneRow(34, 0xa62884aa, 0x60127b2e, 0xb3707ebf, 0x726342d3, 0xb4c72d0e);
    By23(0xce8ba55b);
    OneRow(35, 0x726342d3, 0x8d212ff5, 0x60127b2e, 0xb3707ebf, 0xce8ba55b);
  }

  lemma Rows38()
    ensures Rows(X, 38, START) == Four(0x8d212ff5, 0x6e7429d5, 0x21b117b9, 0x3b0875c7)
  {
    hide Rows, Rotated;
    Rows36();
    By4(0x2e6a8a1f);
    OneRow(36, 0xb3707ebf, 0x3b0875c7, 0x8d212ff5, 0x60127b2e, 0x2e6a8a1f);
    By11(0x43899862);
    OneRow(37, 0x60127b2e, 0x21b117b9, 0x3b0875c7, 0x8d212ff5, 0x43899862);
  }

  lemma Rows40()
    ensures Rows(X, 40, START) == Four(0x21b117b9, 0x5a2f5ea5, 0x3575227e, 0x6e7429d5)
  {
    hide Rows, Rotated;
    Rows38();
    By16(0xf8a9c700);
    OneRow(38, 0x8d212ff5, 0x6e7429d5, 0x21b117b9, 0x3b0875c7, 0xf8a9c700);
    By23(0x74784e49);
    OneRow(39, 0x3b0875c7, 0x3575227e, 0x6e7429d5, 0x21b117b9, 0x74784e49);
  }

  lemma Rows42()
    ensures Rows(X, 42, START) == Four(0x3575227e, 0xfadcaa38, 0x11de1779, 0x5a2f5ea5)
  {
    hide Rows, Rotated;
    Rows40();
    By4(0x4b7aeb8d);
    OneRow(40, 0x21b117b9, 0x5a2f5ea5, 0x3575227e, 0x6e7429d5, 0x4b7aeb8d);
    By11(0x57fd1fd2);
    OneRow(41, 0x6e7429d5, 0x11de1779, 0x5a2f5ea5, 0x3575227e, 0x57fd1fd2);
  }

  lemma Rows44()
    ensures Rows(X, 44, START) == Four(0x11de1779, 0x4c6124f4, 0x31c465ca, 0xfadcaa38)
  {
    hide Rows, Rotated;
    Rows42();
    By16(0xbb9236e7);
    OneRow(42, 0x3575227e, 0xfadcaa38, 0x11de1779, 0x5a2f5ea5, 0xbb9236e7);
    By23(0x397e5435);
    OneRow(43, 0x5a2f5ea5, 0x31c465ca, 0xfadcaa38, 0x11de1779, 0x397e5435);
  }

  lemma Rows46()
    ensures Rows(X, 46, START) == Four(0x31c465ca, 0x99d9679d, 0x7f2e507b, 0x4c6124f4)
  {
    hide Rows, Rotated;
    Rows44();
    By4(0x732cd2b8);
    OneRow(44, 0x11de1779, 0x4c6124f4, 0x31c465ca, 0xfadcaa38, 0x732cd2b8);
    By11(0xe4435562);
    OneRow(45, 0xfadcaa38, 0x7f2e507b, 0x4c6124f4, 0x31c465ca, 0xe4435562);
  }

  lemma Rows48()
    ensures Rows(X, 48, START) == Four(0x7f2e507b, 0x7beb9700, 0x8fae6399, 0x99d9679d)
  {
    hide Rows, Rotated;
    Rows46();
    By16(0xfbfcf5d4);
    OneRow(46, 0x31c465ca, 0x99d9679d, 0x7f2e507b, 0x4c6124f4, 0xfbfcf5d4);
    By23(0x7a66cfd8);
    OneRow(47, 0x4c6124f4, 0x8fae6399, 0x99d9679d, 0x7f2e507b, 0x7a66cfd8);
  }

  lemma Rows50()
    ensures Rows(X, 50, START) == Four(0x8fae6399, 0xf4e8e96e, 0x7b201df8, 0x7beb9700)
  {
    hide Rows, Rotated;
    Rows48();
    By6(0xe3fcd21b);
    OneRow(48, 0x7f2e507b, 0x7beb9700, 0x8fae6399, 0x99d9679d, 0xe3fcd21b);
    By10(0xdd9e7232);
    OneRow(49, 0x99d9679d, 0x7b201df8, 0x7beb9700, 0x8fae6399, 0xdd9e7232);
  }

  lemma Rows52()
    ensures Rows(X, 52, START) == Four(0x7b201df8, 0x8bf025c4, 0xb298cefd, 0xf4e8e96e)
  {
    hide Rows, Rotated;
    Rows50();
    By15(0xcb1f7b5f);
    OneRow(50, 0x8fae6399, 0xf4e8e96e, 0x7b201df8, 0x7beb9700, 0xcb1f7b5f);
    By21(0xbab63eca);
    OneRow(51, 0x7beb9700, 0xb298cefd, 0xf4e8e96e, 0x7b201df8, 0xbab63eca);
  }

  lemma Rows54()
    ensures Rows(X, 54, START) == Four(0xb298cefd, 0x5b0d97aa, 0x06cc5e8a, 0x8bf025c4)
  {
    hide Rows, Rotated;
    Rows52();
    By6(0x19eb70e3);
    OneRow(52, 0x7b201df8, 0x8bf025c4, 0xb298cefd, 0xf4e8e96e, 0x19eb70e3);
    By10(0x4815104e);
    OneRow(53, 0xf4e8e96e, 0x06cc5e8a, 0x8bf025c4, 0xb298cefd, 0x4815104e);
  }

  lemma Rows56()
    ensures Rows(X, 56, START) == Four(0x06cc5e8a, 0x3bfa2c27, 0x7d632dd0, 0x5b0d97aa)
  {
    hide Rows, Rotated;
    Rows54();
    By15(0x2c4c44ab);
    OneRow(54, 0xb298cefd, 0x5b0d97aa, 0x06cc5e8a, 0x8bf025c4, 0x2c4c44ab);
    By21(0xb7f2bdf4);
    OneRow(55, 0x8bf025c4, 0x7d632dd0, 0x5b0d97aa, 0x06cc5e8a, 0xb7f2bdf4);
  }

  lemma Rows58()
    ensures Rows(X, 58, START) == Four(0x7d632dd0, 0x094454ab, 0x7f81cc35, 0x3bfa2c27)
  {
    hide Rows, Rotated;
    Rows56();
    By6(0x390e1e80);
    OneRow(56, 0x06cc5e8a, 0x3bfa2c27, 0x7d632dd0, 0x5b0d97aa, 0x390e1e80);
    By10(0x1da270a2);
    OneRow(57, 0x5b0d97aa, 0x7f81cc35, 0x3bfa2c27, 0x7d632dd0, 0x1da270a2);
  }

  lemma Rows60()
    ensures Rows(X, 60, START) == Four(0x7f81cc35, 0x7327d604, 0x4f9dbe3f, 0x094454ab)
  {
    hide Rows, Rotated;
    Rows58();
    By15(0xd3288cb2);
    OneRow(58, 0x7d632dd0, 0x094454ab, 0x7f81cc35, 0x3bfa2c27, 0xd3288cb2);
    By21(0x50be291c);
    OneRow(59, 0x3bfa2c27, 0x4f9dbe3f, 0x094454ab, 0x7f81cc35, 0x50be291c);
  }

  lemma Rows62()
    ensures Rows(X, 62, START) == Four(0x4f9dbe3f, 0x624d8cb2, 0x310ade8f, 0x7327d604)
  {
    hide Rows, Rotated;
    Rows60();
    By6(0x2ef78c22);
    OneRow(60, 0x7f81cc35, 0x7327d604, 0x4f9dbe3f, 0x094454ab, 0x2ef78c22);
    By10(0x88cc50ab);
    OneRow(61, 0x094454ab, 0x310ade8f, 0x7327d604, 0x4f9dbe3f, 0x88cc50ab);
  }

  lemma Rows64()
    ensures Rows(X, 64, START) == Four(0x310ade8f, 0xc08226b3, 0xe484b9d8, 0x624d8cb2)
  {
    hide Rows, Rotated;
    Rows62();
    By15(0x5a4d046e);
    OneRow(62, 0x4f9dbe3f, 0x624d8cb2, 0x310ade8f, 0x7327d604, 0x5a4d046e);
    By21(0xeb66dedf);
    OneRow(63, 0x7327d604, 0xe484b9d8, 0x624d8cb2, 0x310ade8f, 0xeb66dedf);
  }

  lemma NoRows()
    ensures Rows(X, 0, START) == START
  {
  }

  lemma OneRow(i: nat, a: bv32, b: bv32, c: bv32, d: bv32, sum: bv32)
    requires Rows(X, i, START) == Four(a, b, c, d)
    requires sum == Sum(a, Sum(Sum(Mixed(i, b, c, d), X[WordOf(i)]), T(i)))
    ensures Rows(X, i + 1, START) == Four(d, Sum(Rotated(sum, Shift(i)), b), b, c)
  {
    hide Mixed, Rotated, Sum, T, Shift, WordOf;
  }

  // ---- the digest ----

  // The padded message: a one bit, zeros, and the number of its bits.
  const BLOCK: seq<bv8> := [0x61, 0x62, 0x63, 0x80] + Zeros(52) + [24, 0, 0, 0, 0, 0, 0, 0]

  lemma TailIs()
    ensures LengthBytes(3) == [24, 0, 0, 0, 0, 0, 0, 0]
  {
    assert Low(3) == 24 && High(3) == 0;
    assert Word(24) == 24 && Word(0) == 0;
    assert Packed([24, 0]) == Quad(24) + (Quad(0) + Packed([]));
  }

  lemma BlockIs()
    ensures ABC + Padding(3, LengthBytes(3)) == BLOCK && |BLOCK| == 64
  {
    hide LengthBytes, Zeros;
    TailIs();
    assert Gap(3) == 52;
    assert ABC + ([0x80] + Zeros(52) + [24, 0, 0, 0, 0, 0, 0, 0]) == BLOCK;
  }

  lemma {:induction false} UnpackedAt(b: seq<bv8>, k: nat)
    requires 4 * k + 4 <= |b|
    ensures Unpacked(b)[k] == WordAt(b, 4 * k)
    decreases k
  {
    hide LittleWord;
    if k > 0 { UnpackedAt(b[4..], k - 1); }
  }

  lemma WordsOfBlock()
    ensures |BLOCK| == 64 && Unpacked(BLOCK) == X
  {
    hide LittleWord, Unpacked;
    LittleWords();
    forall k | 0 <= k < 16 ensures Unpacked(BLOCK)[k] == X[k] {
      UnpackedAt(BLOCK, k);
      if 0 < k < 14 || k == 15 {
        assert BLOCK[4 * k] == 0 && BLOCK[4 * k + 1] == 0 && BLOCK[4 * k + 2] == 0 && BLOCK[4 * k + 3] == 0;
      }
    }
  }

  lemma LittleWords()
    ensures LittleWord(0, 0, 0, 0) == 0 && LittleWord(24, 0, 0, 0) == 24
    ensures LittleWord(0x61, 0x62, 0x63, 0x80) == 0x80636261
  {
  }

  lemma OneBlock()
    ensures |BLOCK| == 64
    ensures Absorbed(Compress, START, BLOCK) == Plus(START, Rows(X, 64, START))
  {
    hide Rows, Plus, Unpacked, BLOCK;
    WordsOfBlock();
    assert BLOCK[..64] == BLOCK && BLOCK[64..] == [];
    assert Compress(START, BLOCK) == Digested(START, X);
  }

  lemma LastSum()
    ensures Plus(START, Four(0x310ade8f, 0xc08226b3, 0xe484b9d8, 0x624d8cb2))
            == Four(0x98500190, 0xb04fd23c, 0x7d3f96d6, 0x727fe128)
  {
  }

  lemma DigestWords()
    ensures Quad(0x98500190) == [0x90, 0x01, 0x50, 0x98]
    ensures Quad(0xb04fd23c) == [0x3c, 0xd2, 0x4f, 0xb0]
    ensures Quad(0x7d3f96d6) == [0xd6, 0x96, 0x3f, 0x7d]
    ensures Quad(0x727fe128) == [0x28, 0xe1, 0x7f, 0x72]
  {
  }

  lemma OutputIs()
    ensures Output(Four(0x98500190, 0xb04fd23c, 0x7d3f96d6, 0x727fe128)) ==
            [0x90, 0x01, 0x50, 0x98, 0x3c, 0xd2, 0x4f, 0xb0,
             0xd6, 0x96, 0x3f, 0x7d, 0x28, 0xe1, 0x7f, 0x72]
  {
    hide Quad;
    DigestWords();
    FourPacked(0x98500190, 0xb04fd23c, 0x7d3f96d6, 0x727fe128);
  }

  lemma FourPacked(a: bv32, b: bv32, c: bv32, d: bv32)
    ensures Packed([a, b, c, d]) == Quad(a) + Quad(b) + Quad(c) + Quad(d)
  {
    hide Quad;
    assert [a, b, c, d][1..] == [b, c, d] && [b, c, d][1..] == [c, d] && [c, d][1..] == [d] && [d][1..] == [];
    assert Packed([d]) == Quad(d) + Packed([]);
    assert Packed([c, d]) == Quad(c) + Packed([d]);
    assert Packed([b, c, d]) == Quad(b) + Packed([c, d]);
  }

  // What MD5Final gives for "abc".
  lemma DigestOfAbc()
    ensures Digest(ABC) ==
            [0x90, 0x01, 0x50, 0x98, 0x3c, 0xd2, 0x4f, 0xb0,
             0xd6, 0x96, 0x3f, 0x7d, 0x28, 0xe1, 0x7f, 0x72]
  {
    hide Rows, Plus, Output, Absorbed, Padding, LengthBytes;
    BlockIs();
    OneBlock();
    Rows64();
    LastSum();
    OutputIs();
  }
}

// MD5Transform of utilities/md5.c: its 64 rows against section 3.4 of RFC 1321.
module Md5Rounds {
  import opened Basics
  import opened HashBlocks

  datatype Four = Four(a: bv32, b: bv32, c: bv32, d: bv32)

  // ---- the definition ----

  function F(x: bv32, y: bv32, z: bv32): bv32 { (x & y) | (!x & z) }

  function G(x: bv32, y: bv32, z: bv32): bv32 { (x & z) | (y & !z) }

  function H(x: bv32, y: bv32, z: bv32): bv32 { x ^ y ^ z }

  function I(x: bv32, y: bv32, z: bv32): bv32 { y ^ (x | !z) }

  function Rotated(x: bv32, n: nat): bv32
    requires 0 < n < 32
  {
    (x << n) | (x >> (32 - n))
  }

  // Which function, which word and which shift a row uses.  The words are taken in order
  // in the first round, and in steps of 5, 3 and 7 in the others.
  function Mixed(i: nat, x: bv32, y: bv32, z: bv32): bv32 {
    if i < 16 then F(x, y, z) else if i < 32 then G(x, y, z) else if i < 48 then H(x, y, z) else I(x, y, z)
  }

  function WordOf(i: nat): (k: nat)
    ensures k < 16
  {
    if i < 16 then i else if i < 32 then (5 * i + 1) % 16 else if i < 48 then (3 * i + 5) % 16 else 7 * i % 16
  }

  function Shift(i: nat): (s: nat)
    ensures 0 < s < 32
  {
    match i % 4
    case 0 => if i < 16 then 7 else if i < 32 then 5 else if i < 48 then 4 else 6
    case 1 => if i < 16 then 12 else if i < 32 then 9 else if i < 48 then 11 else 10
    case 2 => if i < 16 then 17 else if i < 32 then 14 else if i < 48 then 16 else 15
    case _ => if i < 16 then 22 else if i < 32 then 20 else if i < 48 then 23 else 21
  }

  // The table of the sine function.
  function T(i: nat): bv32 {
    if i < 16 then T1(i) else if i < 32 then T2(i - 16) else if i < 48 then T3(i - 32) else T4(i - 48)
  }

  function T1(i: nat): bv32 {
    match i
    case 0 => 0xd76aa478 case 1 => 0xe8c7b756 case 2 => 0x242070db case 3 => 0xc1bdceee
    case 4 => 0xf57c0faf case 5 => 0x4787c62a case 6 => 0xa8304613 case 7 => 0xfd469501
    case 8 => 0x698098d8 case 9 => 0x8b44f7af case 10 => 0xffff5bb1 case 11 => 0x895cd7be
    case 12 => 0x6b901122 case 13 => 0xfd987193 case 14 => 0xa679438e case _ => 0x49b40821
  }

  function T2(i: nat): bv32 {
    match i
    case 0 => 0xf61e2562 case 1 => 0xc040b340 case 2 => 0x265e5a51 case 3 => 0xe9b6c7aa
    case 4 => 0xd62f105d case 5 => 0x02441453 case 6 => 0xd8a1e681 case 7 => 0xe7d3fbc8
    case 8 => 0x21e1cde6 case 9 => 0xc33707d6 case 10 => 0xf4d50d87 case 11 => 0x455a14ed
    case 12 => 0xa9e3e905 case 13 => 0xfcefa3f8 case 14 => 0x676f02d9 case _ => 0x8d2a4c8a
  }

  function T3(i: nat): bv32 {
    match i
    case 0 => 0xfffa3942 case 1 => 0x8771f681 case 2 => 0x6d9d6122 case 3 => 0xfde5380c
    case 4 => 0xa4beea44 case 5 => 0x4bdecfa9 case 6 => 0xf6bb4b60 case 7 => 0xbebfbc70
    case 8 => 0x289b7ec6 case 9 => 0xeaa127fa case 10 => 0xd4ef3085 case 11 => 0x04881d05
    case 12 => 0xd9d4d039 case 13 => 0xe6db99e5 case 14 => 0x1fa27cf8 case _ => 0xc4ac5665
  }

  function T4(i: nat): bv32 {
    match i
    case 0 => 0xf4292244 case 1 => 0x432aff97 case 2 => 0xab9423a7 case 3 => 0xfc93a039
    case 4 => 0x655b59c3 case 5 => 0x8f0ccc92 case 6 => 0xffeff47d case 7 => 0x85845dd1
    case 8 => 0x6fa87e4f case 9 => 0xfe2ce6e0 case 10 => 0xa3014314 case 11 => 0x4e0811a1
    case 12 => 0xf7537e82 case 13 => 0xbd3af235 case 14 => 0x2ad7d2bb case _ => 0xeb86d391
  }

  // One row; the roles of the four registers turn.
  function Row(x: Words, i: nat, h: Four): Four {
    var sum := Sum(h.a, Sum(Sum(Mixed(i, h.b, h.c, h.d), x[WordOf(i)]), T(i)));
    Four(h.d, Sum(Rotated(sum, Shift(i)), h.b), h.b, h.c)
  }

  function Rows(x: Words, i: nat, h: Four): Four
    decreases i
  {
    if i == 0 then h else Row(x, i - 1, Rows(x, i - 1, h))
  }

  function Plus(g: Four, h: Four): Four {
    Four(Sum(g.a, h.a), Sum(g.b, h.b), Sum(g.c, h.c), Sum(g.d, h.d))
  }

  // Four times through the sixteen words.
  function Digested(h: Four, x: Words): Four { Plus(h, Rows(x, 4 * |x|, h)) }

  // ---- the rows as the code writes them ----

  lemma RowsStep(x: Words, i: nat, h: Four)
    ensures Rows(x, i + 1, h) == Row(x, i, Rows(x, i, h))
  {
    hide Row;
  }

  // The constants of a row are those of its number.
  predicate RowOf(i: nat, word: nat, shift: nat, constant: bv32) {
    word == WordOf(i) && shift == Shift(i) && constant == T(i)
  }

  method FF(a: bv32, b: bv32, c: bv32, d: bv32, x: bv32, s: nat, ac: bv32, ghost k: nat, ghost i: nat,
      ghost w: Words, ghost h: Four)
    returns (a': bv32)
    requires 0 <= i < 16 && RowOf(i, k, s, ac) && k < 16 && x == w[k]
    requires Four(a, b, c, d) == Rows(w, i, h)
    ensures Four(d, a', b, c) == Rows(w, i + 1, h)
  {
    hide F, Sum, Rotated, Rows, T, WordOf, Shift;
    RowsStep(w, i, h);
    a' := Sum(a, Sum(Sum(F(b, c, d), x), ac));
    a' := Rotated(a', s);
    a' := Sum(a', b);
  }

  method GG(a: bv32, b: bv32, c: bv32, d: bv32, x: bv32, s: nat, ac: bv32, ghost k: nat, ghost i: nat,
      ghost w: Words, ghost h: Four)
    returns (a': bv32)
    requires 16 <= i < 32 && RowOf(i, k, s, ac) && k < 16 && x == w[k]
    requires Four(a, b, c, d) == Rows(w, i, h)
    ensures Four(d, a', b, c) == Rows(w, i + 1, h)
  {
    hide G, Sum, Rotated, Rows, T, WordOf, Shift;
    RowsStep(w, i, h);
    a' := Sum(a, Sum(Sum(G(b, c, d), x), ac));
    a' := Rotated(a', s);
    a' := Sum(a', b);
  }

  method HH(a: bv32, b: bv32, c: bv32, d: bv32, x: bv32, s: nat, ac: bv32, ghost k: nat, ghost i: nat,
      ghost w: Words, ghost h: Four)
    returns (a': bv32)
    requires 32 <= i < 48 && RowOf(i, k, s, ac) && k < 16 && x == w[k]
    requires Four(a, b, c, d) == Rows(w, i, h)
    ensures Four(d, a', b, c) == Rows(w, i + 1, h)
  {
    hide H, Sum, Rotated, Rows, T, WordOf, Shift;
    RowsStep(w, i, h);
    a' := Sum(a, Sum(Sum(H(b, c, d), x), ac));
    a' := Rotated(a', s);
    a' := Sum(a', b);
  }

  method II(a: bv32, b: bv32, c: bv32, d: bv32, x: bv32, s: nat, ac: bv32, ghost k: nat, ghost i: nat,
      ghost w: Words, ghost h: Four)
    returns (a': bv32)
    requires 48 <= i < 64 && RowOf(i, k, s, ac) && k < 16 && x == w[k]
    requires Four(a, b, c, d) == Rows(w, i, h)
    ensures Four(d, a', b, c) == Rows(w, i + 1, h)
  {
    hide I, Sum, Rotated, Rows, T, WordOf, Shift;
    RowsStep(w, i, h);
    a' := Sum(a, Sum(Sum(I(b, c, d), x), ac));
    a' := Rotated(a', s);
    a' := Sum(a', b);
  }

  method Round1(h': Four, x: Words, ghost h: Four) returns (r: Four)
    requires h' == Rows(x, 0, h)
    ensures r == Rows(x, |x|, h)
  {
    hide Rows, RowOf;
    RowsFrom0();
    RowsFrom8();
    var a, b, c, d := h'.a, h'.b, h'.c, h'.d;
    a := FF(a, b, c, d, x[0], 7, 0xd76aa478, 0, 0, x, h);
    d := FF(d, a, b, c, x[1], 12, 0xe8c7b756, 1, 1, x, h);
    c := FF(c, d, a, b, x[2], 17, 0x242070db, 2, 2, x, h);
    b := FF(b, c, d, a, x[3], 22, 0xc1bdceee, 3, 3, x, h);
    a := FF(a, b, c, d, x[4], 7, 0xf57c0faf, 4, 4, x, h);
    d := FF(d, a, b, c, x[5], 12, 0x4787c62a, 5, 5, x, h);
    c := FF(c, d, a, b, x[6], 17, 0xa8304613, 6, 6, x, h);
    b := FF(b, c, d, a, x[7], 22, 0xfd469501, 7, 7, x, h);
    a := FF(a, b, c, d, x[8], 7, 0x698098d8, 8, 8, x, h);
    d := FF(d, a, b, c, x[9], 12, 0x8b44f7af, 9, 9, x, h);
    c := FF(c, d, a, b, x[10], 17, 0xffff5bb1, 10, 10, x, h);
    b := FF(b, c, d, a, x[11], 22, 0x895cd7be, 11, 11, x, h);
    a := FF(a, b, c, d, x[12], 7, 0x6b901122, 12, 12, x, h);
    d := FF(d, a, b, c, x[13], 12, 0xfd987193, 13, 13, x, h);
    c := FF(c, d, a, b, x[14], 17, 0xa679438e, 14, 14, x, h);
    b := FF(b, c, d, a, x[15], 22, 0x49b40821, 15, 15, x, h);
    return Four(a, b, c, d);
  }

  lemma RowsFrom0()
    ensures RowOf(0, 0, 7, 0xd76aa478)
    ensures RowOf(1, 1, 12, 0xe8c7b756)
    ensures RowOf(2, 2, 17, 0x242070db)
    ensures RowOf(3, 3, 22, 0xc1bdceee)
    ensures RowOf(4, 4, 7, 0xf57c0faf)
    ensures RowOf(5, 5, 12, 0x4787c62a)
    ensures RowOf(6, 6, 17, 0xa8304613)
    ensures RowOf(7, 7, 22, 0xfd469501)
  {
  }

  lemma RowsFrom8()
    ensures RowOf(8, 8, 7, 0x698098d8)
    ensures RowOf(9, 9, 12, 0x8b44f7af)
    ensures RowOf(10, 10, 17, 0xffff5bb1)
    ensures RowOf(11, 11, 22, 0x895cd7be)
    ensures RowOf(12, 12, 7, 0x6b901122)
    ensures RowOf(13, 13, 12, 0xfd987193)
    ensures RowOf(14, 14, 17, 0xa679438e)
    ensures RowOf(15, 15, 22, 0x49b40821)
  {
  }

  method Round2(h': Four, x: Words, ghost h: Four) returns (r: Four)
    requires h' == Rows(x, |x|, h)
    ensures r == Rows(x, 2 * |x|, h)
  {
    hide Rows, RowOf;
    RowsFrom16();
    RowsFrom24();
    var a, b, c, d := h'.a, h'.b, h'.c, h'.d;
    a := GG(a, b, c, d, x[1], 5, 0xf61e2562, 1, 16, x, h);
    d := GG(d, a, b, c, x[6], 9, 0xc040b340, 6, 17, x, h);
    c := GG(c, d, a, b, x[11], 14, 0x265e5a51, 11, 18, x, h);
    b := GG(b, c, d, a, x[0], 20, 0xe9b6c7aa, 0, 19, x, h);
    a := GG(a, b, c, d, x[5], 5, 0xd62f105d, 5, 20, x, h);
    d := GG(d, a, b, c, x[10], 9, 0x02441453, 10, 21, x, h);
    c := GG(c, d, a, b, x[15], 14, 0xd8a1e681, 15, 22, x, h);
    b := GG(b, c, d, a, x[4], 20, 0xe7d3fbc8, 4, 23, x, h);
    a := GG(a, b, c, d, x[9], 5, 0x21e1cde6, 9, 24, x, h);
    d := GG(d, a, b, c, x[14], 9, 0xc33707d6, 14, 25, x, h);
    c := GG(c, d, a, b, x[3], 14, 0xf4d50d87, 3, 26, x, h);
    b := GG(b, c, d, a, x[8], 20, 0x455a14ed, 8, 27, x, h);
    a := GG(a, b, c, d, x[13], 5, 0xa9e3e905, 13, 28, x, h);
    d := GG(d, a, b, c, x[2], 9, 0xfcefa3f8, 2, 29, x, h);
    c := GG(c, d, a, b, x[7], 14, 0x676f02d9, 7, 30, x, h);
    b := GG(b, c, d, a, x[12], 20, 0x8d2a4c8a, 12, 31, x, h);
    return Four(a, b, c, d);
  }

  lemma RowsFrom16()
    ensures RowOf(16, 1, 5, 0xf61e2562)
    ensures RowOf(17, 6, 9, 0xc040b340)
    ensures RowOf(18, 11, 14, 0x265e5a51)
    ensures RowOf(19, 0, 20, 0xe9b6c7aa)
    ensures RowOf(20, 5, 5, 0xd62f105d)
    ensures RowOf(21, 10, 9, 0x02441453)
    ensures RowOf(22, 15, 14, 0xd8a1e681)
    ensures RowOf(23, 4, 20, 0xe7d3fbc8)
  {
  }

  lemma RowsFrom24()
    ensures RowOf(24, 9, 5, 0x21e1cde6)
    ensures RowOf(25, 14, 9, 0xc33707d6)
    ensures RowOf(26, 3, 14, 0xf4d50d87)
    ensures RowOf(27, 8, 20, 0x455a14ed)
    ensures RowOf(28, 13, 5, 0xa9e3e905)
    ensures RowOf(29, 2, 9, 0xfcefa3f8)
    ensures RowOf(30, 7, 14, 0x676f02d9)
    ensures RowOf(31, 12, 20, 0x8d2a4c8a)
  {
  }

  method Round3(h': Four, x: Words, ghost h: Four) returns (r: Four)
    requires h' == Rows(x, 2 * |x|, h)
    ensures r == Rows(x, 3 * |x|, h)
  {
    hide Rows, RowOf;
    RowsFrom32();
    RowsFrom40();
    var a, b, c, d := h'.a, h'.b, h'.c, h'.d;
    a := HH(a, b, c, d, x[5], 4, 0xfffa3942, 5, 32, x, h);
    d := HH(d, a, b, c, x[8], 11, 0x8771f681, 8, 33, x, h);
    c := HH(c, d, a, b, x[11], 16, 0x6d9d6122, 11, 34, x, h);
    b := HH(b, c, d, a, x[14], 23, 0xfde5380c, 14, 35, x, h);
    a := HH(a, b, c, d, x[1], 4, 0xa4beea44, 1, 36, x, h);
    d := HH(d, a, b, c, x[4], 11, 0x4bdecfa9, 4, 37, x, h);
    c := HH(c, d, a, b, x[7], 16, 0xf6bb4b60, 7, 38, x, h);
    b := HH(b, c, d, a, x[10], 23, 0xbebfbc70, 10, 39, x, h);
    a := HH(a, b, c, d, x[13], 4, 0x289b7ec6, 13, 40, x, h);
    d := HH(d, a, b, c, x[0], 11, 0xeaa127fa, 0, 41, x, h);
    c := HH(c, d, a, b, x[3], 16, 0xd4ef3085, 3, 42, x, h);
    b := HH(b, c, d, a, x[6], 23, 0x04881d05, 6, 43, x, h);
    a := HH(a, b, c, d, x[9], 4, 0xd9d4d039, 9, 44, x, h);
    d := HH(d, a, b, c, x[12], 11, 0xe6db99e5, 12, 45, x, h);
    c := HH(c, d, a, b, x[15], 16, 0x1fa27cf8, 15, 46, x, h);
    b := HH(b, c, d, a, x[2], 23, 0xc4ac5665, 2, 47, x, h);
    return Four(a, b, c, d);
  }

  lemma RowsFrom32()
    ensures RowOf(32, 5, 4, 0xfffa3942)
    ensures RowOf(33, 8, 11, 0x8771f681)
    ensures RowOf(34, 11, 16, 0x6d9d6122)
    ensures RowOf(35, 14, 23, 0xfde5380c)
    ensures RowOf(36, 1, 4, 0xa4beea44)
    ensures RowOf(37, 4, 11, 0x4bdecfa9)
    ensures RowOf(38, 7, 16, 0xf6bb4b60)
    ensures RowOf(39, 10, 23, 0xbebfbc70)
  {
  }

  lemma RowsFrom40()
    ensures RowOf(40, 13, 4, 0x289b7ec6)
    ensures RowOf(41, 0, 11, 0xeaa127fa)
    ensures RowOf(42, 3, 16, 0xd4ef3085)
    ensures RowOf(43, 6, 23, 0x04881d05)
    ensures RowOf(44, 9, 4, 0xd9d4d039)
    ensures RowOf(45, 12, 11, 0xe6db99e5)
    ensures RowOf(46, 15, 16, 0x1fa27cf8)
    ensures RowOf(47, 2, 23, 0xc4ac5665)
  {
  }

  method Round4(h': Four, x: Words, ghost h: Four) returns (r: Four)
    requires h' == Rows(x, 3 * |x|, h)
    ensures r == Rows(x, 4 * |x|, h)
  {
    hide Rows, RowOf;
    RowsFrom48();
    RowsFrom56();
    var a, b, c, d := h'.a, h'.b, h'.c, h'.d;
    a := II(a, b, c, d, x[0], 6, 0xf4292244, 0, 48, x, h);
    d := II(d, a, b, c, x[7], 10, 0x432aff97, 7, 49, x, h);
    c := II(c, d, a, b, x[14], 15, 0xab9423a7, 14, 50, x, h);
    b := II(b, c, d, a, x[5], 21, 0xfc93a039, 5, 51, x, h);
    a := II(a, b, c, d, x[12], 6, 0x655b59c3, 12, 52, x, h);
    d := II(d, a, b, c, x[3], 10, 0x8f0ccc92, 3, 53, x, h);
    c := II(c, d, a, b, x[10], 15, 0xffeff47d, 10, 54, x, h);
    b := II(b, c, d, a, x[1], 21, 0x85845dd1, 1, 55, x, h);
    a := II(a, b, c, d, x[8], 6, 0x6fa87e4f, 8, 56, x, h);
    d := II(d, a, b, c, x[15], 10, 0xfe2ce6e0, 15, 57, x, h);
    c := II(c, d, a, b, x[6], 15, 0xa3014314, 6, 58, x, h);
    b := II(b, c, d, a, x[13], 21, 0x4e0811a1, 13, 59, x, h);
    a := II(a, b, c, d, x[4], 6, 0xf7537e82, 4, 60, x, h);
    d := II(d, a, b, c, x[11], 10, 0xbd3af235, 11, 61, x, h);
    c := II(c, d, a, b, x[2], 15, 0x2ad7d2bb, 2, 62, x, h);
    b := II(b, c, d, a, x[9], 21, 0xeb86d391, 9, 63, x, h);
    return Four(a, b, c, d);
  }

  lemma RowsFrom48()
    ensures RowOf(48, 0, 6, 0xf4292244)
    ensures RowOf(49, 7, 10, 0x432aff97)
    ensures RowOf(50, 14, 15, 0xab9423a7)
    ensures RowOf(51, 5, 21, 0xfc93a039)
    ensures RowOf(52, 12, 6, 0x655b59c3)
    ensures RowOf(53, 3, 10, 0x8f0ccc92)
    ensures RowOf(54, 10, 15, 0xffeff47d)
    ensures RowOf(55, 1, 21, 0x85845dd1)
  {
  }

  lemma RowsFrom56()
    ensures RowOf(56, 8, 6, 0x6fa87e4f)
    ensures RowOf(57, 15, 10, 0xfe2ce6e0)
    ensures RowOf(58, 6, 15, 0xa3014314)
    ensures RowOf(59, 13, 21, 0x4e0811a1)
    ensures RowOf(60, 4, 6, 0xf7537e82)
    ensures RowOf(61, 11, 10, 0xbd3af235)
    ensures RowOf(62, 2, 15, 0x2ad7d2bb)
    ensures RowOf(63, 9, 21, 0xeb86d391)
  {
  }

  lemma RowsStart(x: Words, h: Four)
    ensures Rows(x, 0, h) == h
  {
  }

  // All 64 rows.
  method AllRows(h: Four, x: Words) returns (r: Four)
    ensures r == Rows(x, 4 * |x|, h)
  {
    hide Rows;
    RowsStart(x, h);
    r := Round1(h, x, h);
    r := Round2(r, x, h);
    r := Round3(r, x, h);
    r := Round4(r, x, h);
  }
}

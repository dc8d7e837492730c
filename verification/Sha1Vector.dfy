// SHA-1 of the three bytes "abc", word by word and round by round: the digest that section
// 7.3 of RFC 3174 and the tests at the end of sources/httpd/sha1.c list.  It holds every
// constant, rotation and function of the definition in place.  What they mean for all words
// is stated first.
module Sha1Vector {
  import opened HashBlocks
  import opened Sha1Rounds
  import opened Sha1

  // ---- rotations and functions, for all words ----

  // A rotation to the left multiplies, and adds what the product loses at the top.
  lemma Rol1IsArithmetic(x: bv32)
    ensures Rol1(x) == x * 2 + x / 0x8000_0000
  {
  }

  lemma Rol5IsArithmetic(x: bv32)
    ensures Rol5(x) == x * 0x20 + x / 0x0800_0000
  {
  }

  lemma Rol30IsArithmetic(x: bv32)
    ensures Rol30(x) == x * 0x4000_0000 + x / 4
  {
  }

  // Where the first argument has ones, Choose takes the second, elsewhere the third.
  lemma Chooses(b: bv32, c: bv32, d: bv32)
    ensures Choose(b, c, d) & b == c & b
    ensures Choose(b, c, d) & !b == d & !b
  {
    ChooseOnes(b, c, d);
    ChooseZeros(b, c, d);
  }

  lemma ChooseOnes(b: bv32, c: bv32, d: bv32)
    ensures ((b & c) | (!b & d)) & b == c & b
  {
  }

  lemma ChooseZeros(b: bv32, c: bv32, d: bv32)
    ensures ((b & c) | (!b & d)) & !b == d & !b
  {
  }

  // Where two arguments agree they win; where they do not, the third decides.
  lemma Outvotes(b: bv32, c: bv32, d: bv32)
    ensures Majority(b, c, d) & !(b ^ c) == b & !(b ^ c)
    ensures Majority(b, c, d) & (b ^ c) == d & (b ^ c)
  {
    TwoAgree(b, c, d);
    TwoDisagree(b, c, d);
  }

  lemma TwoAgree(b: bv32, c: bv32, d: bv32)
    ensures ((b & c) | (b & d) | (c & d)) & !(b ^ c) == b & !(b ^ c)
  {
  }

  lemma TwoDisagree(b: bv32, c: bv32, d: bv32)
    ensures ((b & c) | (b & d) | (c & d)) & (b ^ c) == d & (b ^ c)
  {
  }

  // Where the first two agree Parity is the third; where they do not, its opposite.
  lemma Parities(b: bv32, c: bv32, d: bv32)
    ensures Parity(b, c, d) & !(b ^ c) == d & !(b ^ c)
    ensures Parity(b, c, d) & (b ^ c) == !d & (b ^ c)
  {
    EvenPair(b, c, d);
    OddPair(b, c, d);
  }

  lemma EvenPair(b: bv32, c: bv32, d: bv32)
    ensures (b ^ c ^ d) & !(b ^ c) == d & !(b ^ c)
  {
  }

  lemma OddPair(b: bv32, c: bv32, d: bv32)
    ensures (b ^ c ^ d) & (b ^ c) == !d & (b ^ c)
  {
  }

  // Four bytes as the digits of a word, highest first.
  lemma BigWordIsArithmetic(p: bv8, q: bv8, r: bv8, s: bv8)
    ensures BigWord(p, q, r, s) ==
            (p as bv32) * 0x100_0000 + (q as bv32) * 0x1_0000 + (r as bv32) * 0x100 + (s as bv32)
  {
  }

  // ---- the block ----

  const ABC: seq<bv8> := [0x61, 0x62, 0x63]

  // Its words, padding included.
  const M: Words := [0x61626380, 0, 0, 0, 0, 0, 0, 0, 0, 0, 0, 0, 0, 0, 0, 0x18]

  // ---- the schedule, from word b on ----

  lemma WordsFrom16(b: nat)
    requires b == 16
    ensures W(M, b) == 0xC2C4C700
    ensures W(M, b + 1) == 0x00000000
    ensures W(M, b + 2) == 0x00000030
    ensures W(M, b + 3) == 0x85898E01
    ensures W(M, b + 4) == 0x00000000
    ensures W(M, b + 5) == 0x00000060
    ensures W(M, b + 6) == 0x0B131C03
    ensures W(M, b + 7) == 0x00000030
  {
    hide W;
    FirstWords();
    WordOfSchedule(M, b);
    WordOfSchedule(M, b + 1);
    WordOfSchedule(M, b + 2);
    WordOfSchedule(M, b + 3);
    WordOfSchedule(M, b + 4);
    WordOfSchedule(M, b + 5);
    WordOfSchedule(M, b + 6);
    WordOfSchedule(M, b + 7);
  }

  lemma WordsFrom24(b: nat)
    requires b == 24
    ensures W(M, b) == 0x85898EC1
    ensures W(M, b + 1) == 0x16263806
    ensures W(M, b + 2) == 0x00000000
    ensures W(M, b + 3) == 0x00000180
    ensures W(M, b + 4) == 0x2C4C700C
    ensures W(M, b + 5) == 0x000000F0
    ensures W(M, b + 6) == 0x93AFB507
    ensures W(M, b + 7) == 0x5898E048
  {
    hide W;
    WordsFrom16(16);
    FirstWords();
    WordOfSchedule(M, b);
    WordOfSchedule(M, b + 1);
    WordOfSchedule(M, b + 2);
    WordOfSchedule(M, b + 3);
    WordOfSchedule(M, b + 4);
    WordOfSchedule(M, b + 5);
    WordOfSchedule(M, b + 6);
    WordOfSchedule(M, b + 7);
  }

  lemma WordsFrom32(b: nat)
    requires b == 32
    ensures W(M, b) == 0x8E9A9202
    ensures W(M, b + 1) == 0x00000600
    ensures W(M, b + 2) == 0xB131C0F0
    ensures W(M, b + 3) == 0x16263BC6
    ensures W(M, b + 4) == 0x4EBED41E
    ensures W(M, b + 5) == 0x626380A1
    ensures W(M, b + 6) == 0x16263806
    ensures W(M, b + 7) == 0x000018C0
  {
    hide W;
    WordsFrom16(16);
    WordsFrom24(24);
    WordOfSchedule(M, b);
    WordOfSchedule(M, b + 1);
    WordOfSchedule(M, b + 2);
    WordOfSchedule(M, b + 3);
    WordOfSchedule(M, b + 4);
    WordOfSchedule(M, b + 5);
    WordOfSchedule(M, b + 6);
    WordOfSchedule(M, b + 7);
  }

  lemma WordsFrom40(b: nat)
    requires b == 40
    ensures W(M, b) == 0xD2E138C4
    ensures W(M, b + 1) == 0x00000F00
    ensures W(M, b + 2) == 0x3AFB5079
    ensures W(M, b + 3) == 0x898E04E5
    ensures W(M, b + 4) == 0xE2BA3C2B
    ensures W(M, b + 5) == 0x000060C0
    ensures W(M, b + 6) == 0x053A37CD
    ensures W(M, b + 7) == 0x74458547
  {
    hide W;
    WordsFrom24(24);
    WordsFrom32(32);
    WordOfSchedule(M, b);
    WordOfSchedule(M, b + 1);
    WordOfSchedule(M, b + 2);
    WordOfSchedule(M, b + 3);
    WordOfSchedule(M, b + 4);
    WordOfSchedule(M, b + 5);
    WordOfSchedule(M, b + 6);
    WordOfSchedule(M, b + 7);
  }

  lemma WordsFrom48(b: nat)
    requires b == 48
    ensures W(M, b) == 0xDA9415ED
    ensures W(M, b + 1) == 0x26380A16
    ensures W(M, b + 2) == 0x626383A1
    ensures W(M, b + 3) == 0x4EBF54DE
    ensures W(M, b + 4) == 0x3835B44B
    ensures W(M, b + 5) == 0x0000F600
    ensures W(M, b + 6) == 0x1E84C7A3
    ensures W(M, b + 7) == 0x98E04D98
  {
    hide W;
    WordsFrom32(32);
    WordsFrom40(40);
    WordOfSchedule(M, b);
    WordOfSchedule(M, b + 1);
    WordOfSchedule(M, b + 2);
    WordOfSchedule(M, b + 3);
    WordOfSchedule(M, b + 4);
    WordOfSchedule(M, b + 5);
    WordOfSchedule(M, b + 6);
    WordOfSchedule(M, b + 7);
  }

  lemma WordsFrom56(b: nat)
    requires b == 56
    ensures W(M, b) == 0x651D16A0
    ensures W(M, b + 1) == 0x62658CA1
    ensures W(M, b + 2) == 0x458544D6
    ensures W(M, b + 3) == 0x44584CB7
    ensures W(M, b + 4) == 0x7BA06619
    ensures W(M, b + 5) == 0x6380AEA2
    ensures W(M, b + 6) == 0x0AE55269
    ensures W(M, b + 7) == 0x627B49A1
  {
    hide W;
    WordsFrom40(40);
    WordsFrom48(48);
    WordOfSchedule(M, b);
    WordOfSchedule(M, b + 1);
    WordOfSchedule(M, b + 2);
    WordOfSchedule(M, b + 3);
    WordOfSchedule(M, b + 4);
    WordOfSchedule(M, b + 5);
    WordOfSchedule(M, b + 6);
    WordOfSchedule(M, b + 7);
  }

  lemma WordsFrom64(b: nat)
    requires b == 64
    ensures W(M, b) == 0x7CD45C9D
    ensures W(M, b + 1) == 0x000F0000
    ensures W(M, b + 2) == 0xFB50753A
    ensures W(M, b + 3) == 0xEC6765E8
    ensures W(M, b + 4) == 0xBA3C2BE2
    ensures W(M, b + 5) == 0x0060C000
    ensures W(M, b + 6) == 0x3A37CD05
    ensures W(M, b + 7) == 0x458546F4
  {
    hide W;
    WordsFrom48(48);
    WordsFrom56(56);
    WordOfSchedule(M, b);
    WordOfSchedule(M, b + 1);
    WordOfSchedule(M, b + 2);
    WordOfSchedule(M, b + 3);
    WordOfSchedule(M, b + 4);
    WordOfSchedule(M, b + 5);
    WordOfSchedule(M, b + 6);
    WordOfSchedule(M, b + 7);
  }

  lemma WordsFrom72(b: nat)
    requires b == 72
    ensures W(M, b) == 0xB8599DD6
    ensures W(M, b + 1) == 0x380A1A26
    ensures W(M, b + 2) == 0x01E02203
    ensures W(M, b + 3) == 0xE7CC3456
    ensures W(M, b + 4) == 0xE6E60B69
    ensures W(M, b + 5) == 0x00F60A00
    ensures W(M, b + 6) == 0x5795EF4F
    ensures W(M, b + 7) == 0x822E0879
  {
    hide W;
    WordsFrom56(56);
    WordsFrom64(64);
    WordOfSchedule(M, b);
    WordOfSchedule(M, b + 1);
    WordOfSchedule(M, b + 2);
    WordOfSchedule(M, b + 3);
    WordOfSchedule(M, b + 4);
    WordOfSchedule(M, b + 5);
    WordOfSchedule(M, b + 6);
    WordOfSchedule(M, b + 7);
  }

  lemma FirstWords()
    ensures W(M, 0) == 0x61626380
    ensures W(M, 1) == 0
    ensures W(M, 2) == 0
    ensures W(M, 3) == 0
    ensures W(M, 4) == 0
    ensures W(M, 5) == 0
    ensures W(M, 6) == 0
    ensures W(M, 7) == 0
    ensures W(M, 8) == 0
    ensures W(M, 9) == 0
    ensures W(M, 10) == 0
    ensures W(M, 11) == 0
    ensures W(M, 12) == 0
    ensures W(M, 13) == 0
    ensures W(M, 14) == 0
    ensures W(M, 15) == 0x00000018
  {
    hide W;
    FirstWord(M, 0);
    FirstWord(M, 1);
    FirstWord(M, 2);
    FirstWord(M, 3);
    FirstWord(M, 4);
    FirstWord(M, 5);
    FirstWord(M, 6);
    FirstWord(M, 7);
    FirstWord(M, 8);
    FirstWord(M, 9);
    FirstWord(M, 10);
    FirstWord(M, 11);
    FirstWord(M, 12);
    FirstWord(M, 13);
    FirstWord(M, 14);
    FirstWord(M, 15);
  }

  lemma FirstWord(m: Words, t: nat)
    requires t < 16
    ensures W(m, t) == m[t]
  {
  }

  // ---- the rounds ----

  lemma Rounds4()
    ensures Rounds(M, 4, START) == Five(0xCDD8E11B, 0xA1390F08, 0x626414DB, 0xC045BF0C, 0x59D148C0)
  {
    hide W, Rounds;
    NoRounds();
    FirstWords();
    OneRound(0, 0x67452301, 0xEFCDAB89, 0x98BADCFE, 0x10325476, 0xC3D2E1F0);
    OneRound(1, 0x0116FC33, 0x67452301, 0x7BF36AE2, 0x98BADCFE, 0x10325476);
    OneRound(2, 0x8990536D, 0x0116FC33, 0x59D148C0, 0x7BF36AE2, 0x98BADCFE);
    OneRound(3, 0xA1390F08, 0x8990536D, 0xC045BF0C, 0x59D148C0, 0x7BF36AE2);
  }

  lemma Rounds8()
    ensures Rounds(M, 8, START) == Five(0x9E8C07D4, 0x993E30C1, 0x0FF1F290, 0xB3F52677, 0xF3763846)
  {
    hide W, Rounds;
    Rounds4();
    FirstWords();
    OneRound(4, 0xCDD8E11B, 0xA1390F08, 0x626414DB, 0xC045BF0C, 0x59D148C0);
    OneRound(5, 0xCFD499DE, 0xCDD8E11B, 0x284E43C2, 0x626414DB, 0xC045BF0C);
    OneRound(6, 0x3FC7CA40, 0xCFD499DE, 0xF3763846, 0x284E43C2, 0x626414DB);
    OneRound(7, 0x993E30C1, 0x3FC7CA40, 0xB3F52677, 0xF3763846, 0x284E43C2);
  }

  lemma Rounds12()
    ensures Rounds(M, 12, START) == Five(0x63188FE4, 0xFBDA9E89, 0x60D47E4A, 0x12DAB8CA, 0x27A301F5)
  {
    hide W, Rounds;
    Rounds8();
    FirstWords();
    OneRound(8, 0x9E8C07D4, 0x993E30C1, 0x0FF1F290, 0xB3F52677, 0xF3763846);
    OneRound(9, 0x4B6AE328, 0x9E8C07D4, 0x664F8C30, 0x0FF1F290, 0xB3F52677);
    OneRound(10, 0x8351F929, 0x4B6AE328, 0x27A301F5, 0x664F8C30, 0x0FF1F290);
    OneRound(11, 0xFBDA9E89, 0x8351F929, 0x12DAB8CA, 0x27A301F5, 0x664F8C30);
  }

  lemma Rounds16()
    ensures Rounds(M, 16, START) == Five(0x20BDD62F, 0x196BEE77, 0x644A3DA5, 0x1181ED99, 0x18C623F9)
  {
    hide W, Rounds;
    Rounds12();
    FirstWords();
    OneRound(12, 0x63188FE4, 0xFBDA9E89, 0x60D47E4A, 0x12DAB8CA, 0x27A301F5);
    OneRound(13, 0x4607B664, 0x63188FE4, 0x7EF6A7A2, 0x60D47E4A, 0x12DAB8CA);
    OneRound(14, 0x9128F695, 0x4607B664, 0x18C623F9, 0x7EF6A7A2, 0x60D47E4A);
    OneRound(15, 0x196BEE77, 0x9128F695, 0x1181ED99, 0x18C623F9, 0x7EF6A7A2);
  }

  lemma Rounds20()
    ensures Rounds(M, 20, START) == Five(0xFD9E1D7D, 0xDC64901D, 0x20AA99CA, 0xD3A49608, 0xC82F758B)
  {
    hide W, Rounds;
    Rounds16();
    WordsFrom16(16);
    OneRound(16, 0x20BDD62F, 0x196BEE77, 0x644A3DA5, 0x1181ED99, 0x18C623F9);
    OneRound(17, 0x4E925823, 0x20BDD62F, 0xC65AFB9D, 0x644A3DA5, 0x1181ED99);
    OneRound(18, 0x82AA6728, 0x4E925823, 0xC82F758B, 0xC65AFB9D, 0x644A3DA5);
    OneRound(19, 0xDC64901D, 0x82AA6728, 0xD3A49608, 0xC82F758B, 0xC65AFB9D);
  }

  lemma Rounds24()
    ensures Rounds(M, 24, START) == Five(0xD541F12D, 0x21283486, 0x0CE88EFF, 0x868DEC32, 0x7F67875F)
  {
    hide W, Rounds;
    Rounds20();
    WordsFrom16(16);
    OneRound(20, 0xFD9E1D7D, 0xDC64901D, 0x20AA99CA, 0xD3A49608, 0xC82F758B);
    OneRound(21, 0x1A37B0CA, 0xFD9E1D7D, 0x77192407, 0x20AA99CA, 0xD3A49608);
    OneRound(22, 0x33A23BFC, 0x1A37B0CA, 0x7F67875F, 0x77192407, 0x20AA99CA);
    OneRound(23, 0x21283486, 0x33A23BFC, 0x868DEC32, 0x7F67875F, 0x77192407);
  }

  lemma Rounds28()
    ensures Rounds(M, 28, START) == Five(0x4AA84D97, 0xBE35FBD5, 0x12104EE9, 0xB1D59F71, 0x75507C4B)
  {
    hide W, Rounds;
    Rounds24();
    WordsFrom24(24);
    OneRound(24, 0xD541F12D, 0x21283486, 0x0CE88EFF, 0x868DEC32, 0x7F67875F);
    OneRound(25, 0xC7567DC6, 0xD541F12D, 0x884A0D21, 0x0CE88EFF, 0x868DEC32);
    OneRound(26, 0x48413BA4, 0xC7567DC6, 0x75507C4B, 0x884A0D21, 0x0CE88EFF);
    OneRound(27, 0xBE35FBD5, 0x48413BA4, 0xB1D59F71, 0x75507C4B, 0x884A0D21);
  }

  lemma Rounds32()
    ensures Rounds(M, 32, START) == Five(0x3B845D33, 0x1267B407, 0x717EEBD7, 0xA0DC2D4B, 0xD2AA1365)
  {
    hide W, Rounds;
    Rounds28();
    WordsFrom24(24);
    OneRound(28, 0x4AA84D97, 0xBE35FBD5, 0x12104EE9, 0xB1D59F71, 0x75507C4B);
    OneRound(29, 0x8370B52E, 0x4AA84D97, 0x6F8D7EF5, 0x12104EE9, 0xB1D59F71);
    OneRound(30, 0xC5FBAF5D, 0x8370B52E, 0xD2AA1365, 0x6F8D7EF5, 0x12104EE9);
    OneRound(31, 0x1267B407, 0xC5FBAF5D, 0xA0DC2D4B, 0xD2AA1365, 0x6F8D7EF5);
  }

  lemma Rounds36()
    ensures Rounds(M, 36, START) == Five(0xDCBBB0CB, 0x21796AD4, 0x4B03AF04, 0x811BEA82, 0xCEE1174C)
  {
    hide W, Rounds;
    Rounds32();
    WordsFrom32(32);
    OneRound(32, 0x3B845D33, 0x1267B407, 0x717EEBD7, 0xA0DC2D4B, 0xD2AA1365);
    OneRound(33, 0x046FAA0A, 0x3B845D33, 0xC499ED01, 0x717EEBD7, 0xA0DC2D4B);
    OneRound(34, 0x2C0EBC11, 0x046FAA0A, 0xCEE1174C, 0xC499ED01, 0x717EEBD7);
    OneRound(35, 0x21796AD4, 0x2C0EBC11, 0x811BEA82, 0xCEE1174C, 0xC499ED01);
  }

  lemma Rounds40()
    ensures Rounds(M, 40, START) == Five(0x32DE1CBA, 0x4C986405, 0xF718E5CF, 0x03D447F6, 0xF72EEC32)
  {
    hide W, Rounds;
    Rounds36();
    WordsFrom32(32);
    OneRound(36, 0xDCBBB0CB, 0x21796AD4, 0x4B03AF04, 0x811BEA82, 0xCEE1174C);
    OneRound(37, 0x0F511FD8, 0xDCBBB0CB, 0x085E5AB5, 0x4B03AF04, 0x811BEA82);
    OneRound(38, 0xDC63973F, 0x0F511FD8, 0xF72EEC32, 0x085E5AB5, 0x4B03AF04);
    OneRound(39, 0x4C986405, 0xDC63973F, 0x03D447F6, 0xF72EEC32, 0x085E5AB5);
  }

  lemma Rounds44()
    ensures Rounds(M, 44, START) == Five(0xEE1B1AAF, 0x7F193DC5, 0x25C28357, 0xFF21F7B7, 0x8CB7872E)
  {
    hide W, Rounds;
    Rounds40();
    WordsFrom40(40);
    OneRound(40, 0x32DE1CBA, 0x4C986405, 0xF718E5CF, 0x03D447F6, 0xF72EEC32);
    OneRound(41, 0xFC87DEDF, 0x32DE1CBA, 0x53261901, 0xF718E5CF, 0x03D447F6);
    OneRound(42, 0x970A0D5C, 0xFC87DEDF, 0x8CB7872E, 0x53261901, 0xF718E5CF);
    OneRound(43, 0x7F193DC5, 0x970A0D5C, 0xFF21F7B7, 0x8CB7872E, 0x53261901);
  }

  lemma Rounds48()
    ensures Rounds(M, 48, START) == Five(0xBEAD02CA, 0xA01B846C, 0x8714787C, 0x503CA382, 0xFB86C6AB)
  {
    hide W, Rounds;
    Rounds44();
    WordsFrom40(40);
    OneRound(44, 0xEE1B1AAF, 0x7F193DC5, 0x25C28357, 0xFF21F7B7, 0x8CB7872E);
    OneRound(45, 0x40F28E09, 0xEE1B1AAF, 0x5FC64F71, 0x25C28357, 0xFF21F7B7);
    OneRound(46, 0x1C51E1F2, 0x40F28E09, 0xFB86C6AB, 0x5FC64F71, 0x25C28357);
    OneRound(47, 0xA01B846C, 0x1C51E1F2, 0x503CA382, 0xFB86C6AB, 0x5FC64F71);
  }

  lemma Rounds52()
    ensures Rounds(M, 52, START) == Five(0x3847AD66, 0x641DB2CE, 0x4481CC71, 0xEEBCE4CD, 0xAFAB40B2)
  {
    hide W, Rounds;
    Rounds48();
    WordsFrom48(48);
    OneRound(48, 0xBEAD02CA, 0xA01B846C, 0x8714787C, 0x503CA382, 0xFB86C6AB);
    OneRound(49, 0xBAF39337, 0xBEAD02CA, 0x2806E11B, 0x8714787C, 0x503CA382);
    OneRound(50, 0x120731C5, 0xBAF39337, 0xAFAB40B2, 0x2806E11B, 0x8714787C);
    OneRound(51, 0x641DB2CE, 0x120731C5, 0xEEBCE4CD, 0xAFAB40B2, 0x2806E11B);
  }

  lemma Rounds56()
    ensures Rounds(M, 56, START) == Five(0x5E6456AF, 0x7B71F76D, 0x09FA7C76, 0x792410DB, 0x8E11EB59)
  {
    hide W, Rounds;
    Rounds52();
    WordsFrom48(48);
    OneRound(52, 0x3847AD66, 0x641DB2CE, 0x4481CC71, 0xEEBCE4CD, 0xAFAB40B2);
    OneRound(53, 0xE490436D, 0x3847AD66, 0x99076CB3, 0x4481CC71, 0xEEBCE4CD);
    OneRound(54, 0x27E9F1D8, 0xE490436D, 0x8E11EB59, 0x99076CB3, 0x4481CC71);
    OneRound(55, 0x7B71F76D, 0x27E9F1D8, 0x792410DB, 0x8E11EB59, 0x99076CB3);
  }

  lemma Rounds60()
    ensures Rounds(M, 60, START) == Five(0x3F52DE5A, 0x09D785FD, 0x3498BFD4, 0xF211824F, 0xD79915AB)
  {
    hide W, Rounds;
    Rounds56();
    WordsFrom56(56);
    OneRound(56, 0x5E6456AF, 0x7B71F76D, 0x09FA7C76, 0x792410DB, 0x8E11EB59);
    OneRound(57, 0xC846093F, 0x5E6456AF, 0x5EDC7DDB, 0x09FA7C76, 0x792410DB);
    OneRound(58, 0xD262FF50, 0xC846093F, 0xD79915AB, 0x5EDC7DDB, 0x09FA7C76);
    OneRound(59, 0x09D785FD, 0xD262FF50, 0xF211824F, 0xD79915AB, 0x5EDC7DDB);
  }

  lemma Rounds64()
    ensures Rounds(M, 64, START) == Five(0x6B61C9E1, 0xB66C020B, 0x9523272C, 0xF5D5B051, 0x8FD4B796)
  {
    hide W, Rounds;
    Rounds60();
    WordsFrom56(56);
    OneRound(60, 0x3F52DE5A, 0x09D785FD, 0x3498BFD4, 0xF211824F, 0xD79915AB);
    OneRound(61, 0xD756C147, 0x3F52DE5A, 0x4275E17F, 0x3498BFD4, 0xF211824F);
    OneRound(62, 0x548C9CB2, 0xD756C147, 0x8FD4B796, 0x4275E17F, 0x3498BFD4);
    OneRound(63, 0xB66C020B, 0x548C9CB2, 0xF5D5B051, 0x8FD4B796, 0x4275E17F);
  }

  lemma Rounds68()
    ensures Rounds(M, 68, START) == Five(0x78DD4D2B, 0x0C3DF2B4, 0x4405957E, 0x0677E9EB, 0x5AD87278)
  {
    hide W, Rounds;
    Rounds64();
    WordsFrom64(64);
    OneRound(64, 0x6B61C9E1, 0xB66C020B, 0x9523272C, 0xF5D5B051, 0x8FD4B796);
    OneRound(65, 0x19DFA7AC, 0x6B61C9E1, 0xED9B0082, 0x9523272C, 0xF5D5B051);
    OneRound(66, 0x101655F9, 0x19DFA7AC, 0x5AD87278, 0xED9B0082, 0x9523272C);
    OneRound(67, 0x0C3DF2B4, 0x101655F9, 0x0677E9EB, 0x5AD87278, 0xED9B0082);
  }

  lemma Rounds72()
    ensures Rounds(M, 72, START) == Five(0x39859DE7, 0xC199F8C7, 0x8FC96230, 0x125C24F0, 0xDE37534A)
  {
    hide W, Rounds;
    Rounds68();
    WordsFrom64(64);
    OneRound(68, 0x78DD4D2B, 0x0C3DF2B4, 0x4405957E, 0x0677E9EB, 0x5AD87278);
    OneRound(69, 0x497093C0, 0x78DD4D2B, 0x030F7CAD, 0x4405957E, 0x0677E9EB);
    OneRound(70, 0x3F2588C2, 0x497093C0, 0xDE37534A, 0x030F7CAD, 0x4405957E);
    OneRound(71, 0xC199F8C7, 0x3F2588C2, 0x125C24F0, 0xDE37534A, 0x030F7CAD);
  }

  lemma Rounds76()
    ensures Rounds(M, 76, START) == Five(0x63F7DAB7, 0x5EE76897, 0xC45E4FDB, 0x3B6D0B79, 0xCE616779)
  {
    hide W, Rounds;
    Rounds72();
    WordsFrom72(72);
    OneRound(72, 0x39859DE7, 0xC199F8C7, 0x8FC96230, 0x125C24F0, 0xDE37534A);
    OneRound(73, 0xEDB42DE4, 0x39859DE7, 0xF0667E31, 0x8FC96230, 0x125C24F0);
    OneRound(74, 0x11793F6F, 0xEDB42DE4, 0xCE616779, 0xF0667E31, 0x8FC96230);
    OneRound(75, 0x5EE76897, 0x11793F6F, 0x3B6D0B79, 0xCE616779, 0xF0667E31);
  }

  lemma Rounds80()
    ensures Rounds(M, 80, START) == Five(0x42541B35, 0x5738D5E1, 0x21834873, 0x681E6DF6, 0xD8FDF6AD)
  {
    hide W, Rounds;
    Rounds76();
    WordsFrom72(72);
    OneRound(76, 0x63F7DAB7, 0x5EE76897, 0xC45E4FDB, 0x3B6D0B79, 0xCE616779);
    OneRound(77, 0xA079B7D9, 0x63F7DAB7, 0xD7B9DA25, 0xC45E4FDB, 0x3B6D0B79);
    OneRound(78, 0x860D21CC, 0xA079B7D9, 0xD8FDF6AD, 0xD7B9DA25, 0xC45E4FDB);
    OneRound(79, 0x5738D5E1, 0x860D21CC, 0x681E6DF6, 0xD8FDF6AD, 0xD7B9DA25);
  }

  lemma NoRounds()
    ensures Rounds(M, 0, START) == START
  {
  }

  lemma OneRound(t: nat, a: bv32, b: bv32, c: bv32, d: bv32, e: bv32)
    requires Rounds(M, t, START) == Five(a, b, c, d, e)
    ensures Rounds(M, t + 1, START) == Five(Sum5(Rol5(a), F(t, b, c, d), e, W(M, t), K(t)), a, Rol30(b), c, d)
  {
    hide W, Sum5, Rol5, Rol30, F, K;
  }

  // ---- the digest ----

  // The padded message: a one bit, zeros, and the number of its bits.
  const BLOCK: seq<bv8> := [0x61, 0x62, 0x63, 0x80] + Zeros(52) + [0, 0, 0, 0, 0, 0, 0, 24]

  lemma TailIs()
    ensures LengthBytes(3) == [0, 0, 0, 0, 0, 0, 0, 24]
  {
    assert Low(3) == 24 && High(3) == 0;
    assert Word(24) == 24 && Word(0) == 0;
  }

  lemma BlockIs()
    ensures ABC + Padding(3, LengthBytes(3)) == BLOCK && |BLOCK| == 64
  {
    hide LengthBytes, Zeros;
    TailIs();
    assert Gap(3) == 52;
    assert ABC + ([0x80] + Zeros(52) + [0, 0, 0, 0, 0, 0, 0, 24]) == BLOCK;
  }

  lemma WordsOfBlock()
    ensures |BLOCK| == 64 && Meant(BLOCK) == M
  {
    hide BigWord;
    BigWords();
    forall k | 0 <= k < 16 ensures Meant(BLOCK)[k] == M[k] {
      if 0 < k < 15 {
        assert BLOCK[4 * k] == 0 && BLOCK[4 * k + 1] == 0 && BLOCK[4 * k + 2] == 0 && BLOCK[4 * k + 3] == 0;
      }
    }
  }

  lemma BigWords()
    ensures BigWord(0, 0, 0, 0) == 0 && BigWord(0, 0, 0, 24) == 0x18
    ensures BigWord(0x61, 0x62, 0x63, 0x80) == 0x61626380
  {
  }

  lemma OneBlock()
    ensures |BLOCK| == 64
    ensures Absorbed(Compress, START, BLOCK) == Plus(START, Rounds(M, 80, START))
  {
    hide Rounds, Plus, Meant, BLOCK;
    WordsOfBlock();
    assert BLOCK[..64] == BLOCK && BLOCK[64..] == [];
    CompressIs(START, BLOCK);
  }

  lemma LastSum()
    ensures Plus(START, Five(0x42541B35, 0x5738D5E1, 0x21834873, 0x681E6DF6, 0xD8FDF6AD))
            == Five(0xA9993E36, 0x4706816A, 0xBA3E2571, 0x7850C26C, 0x9CD0D89D)
  {
  }

  lemma OutputIs()
    ensures Output(Five(0xA9993E36, 0x4706816A, 0xBA3E2571, 0x7850C26C, 0x9CD0D89D)) ==
            [0xA9, 0x99, 0x3E, 0x36, 0x47, 0x06, 0x81, 0x6A, 0xBA, 0x3E,
             0x25, 0x71, 0x78, 0x50, 0xC2, 0x6C, 0x9C, 0xD0, 0xD8, 0x9D]
  {
    hide Big, BigWord;
    DigestWords();
    BigIs(0xA9993E36, 0xA9, 0x99, 0x3E, 0x36);
    BigIs(0x4706816A, 0x47, 0x06, 0x81, 0x6A);
    BigIs(0xBA3E2571, 0xBA, 0x3E, 0x25, 0x71);
    BigIs(0x7850C26C, 0x78, 0x50, 0xC2, 0x6C);
    BigIs(0x9CD0D89D, 0x9C, 0xD0, 0xD8, 0x9D);
  }

  lemma DigestWords()
    ensures BigWord(0xA9, 0x99, 0x3E, 0x36) == 0xA9993E36
    ensures BigWord(0x47, 0x06, 0x81, 0x6A) == 0x4706816A
    ensures BigWord(0xBA, 0x3E, 0x25, 0x71) == 0xBA3E2571
    ensures BigWord(0x78, 0x50, 0xC2, 0x6C) == 0x7850C26C
    ensures BigWord(0x9C, 0xD0, 0xD8, 0x9D) == 0x9CD0D89D
  {
  }

  lemma BigIs(x: bv32, p: bv8, q: bv8, r: bv8, s: bv8)
    requires x == BigWord(p, q, r, s)
    ensures Big(x) == [p, q, r, s]
  {
  }

  // What SHA1Final gives for "abc".
  lemma DigestOfAbc()
    ensures Digest(ABC) ==
            [0xA9, 0x99, 0x3E, 0x36, 0x47, 0x06, 0x81, 0x6A, 0xBA, 0x3E,
             0x25, 0x71, 0x78, 0x50, 0xC2, 0x6C, 0x9C, 0xD0, 0xD8, 0x9D]
  {
    hide Rounds, Plus, Output, Absorbed, Padding, LengthBytes;
    BlockIs();
    OneBlock();
    Rounds80();
    LastSum();
    OutputIs();
  }
}

// The alphabet of section 4 of RFC 4648, character by character, and what stands at each
// place of a text, by arithmetic on the bytes; with the test vectors of its section 10.
module Base64Alphabet {
  import opened Base64Text

  // Table 1 of RFC 4648.
  lemma Alphabet()
    ensures Char(0) as char == 'A' && Char(1) as char == 'B' && Char(2) as char == 'C' && Char(3) as char == 'D'
    ensures Char(4) as char == 'E' && Char(5) as char == 'F' && Char(6) as char == 'G' && Char(7) as char == 'H'
    ensures Char(8) as char == 'I' && Char(9) as char == 'J' && Char(10) as char == 'K' && Char(11) as char == 'L'
    ensures Char(12) as char == 'M' && Char(13) as char == 'N' && Char(14) as char == 'O' && Char(15) as char == 'P'
    ensures Char(16) as char == 'Q' && Char(17) as char == 'R' && Char(18) as char == 'S' && Char(19) as char == 'T'
    ensures Char(20) as char == 'U' && Char(21) as char == 'V' && Char(22) as char == 'W' && Char(23) as char == 'X'
    ensures Char(24) as char == 'Y' && Char(25) as char == 'Z' && Char(26) as char == 'a' && Char(27) as char == 'b'
    ensures Char(28) as char == 'c' && Char(29) as char == 'd' && Char(30) as char == 'e' && Char(31) as char == 'f'
    ensures Char(32) as char == 'g' && Char(33) as char == 'h' && Char(34) as char == 'i' && Char(35) as char == 'j'
    ensures Char(36) as char == 'k' && Char(37) as char == 'l' && Char(38) as char == 'm' && Char(39) as char == 'n'
    ensures Char(40) as char == 'o' && Char(41) as char == 'p' && Char(42) as char == 'q' && Char(43) as char == 'r'
    ensures Char(44) as char == 's' && Char(45) as char == 't' && Char(46) as char == 'u' && Char(47) as char == 'v'
    ensures Char(48) as char == 'w' && Char(49) as char == 'x' && Char(50) as char == 'y' && Char(51) as char == 'z'
    ensures Char(52) as char == '0' && Char(53) as char == '1' && Char(54) as char == '2' && Char(55) as char == '3'
    ensures Char(56) as char == '4' && Char(57) as char == '5' && Char(58) as char == '6' && Char(59) as char == '7'
    ensures Char(60) as char == '8' && Char(61) as char == '9' && Char(62) as char == '+' && Char(63) as char == '/'
  {
  }

  // The two characters that are not in it but mean something.
  lemma Marks()
    ensures PAD as char == '=' && NEWLINE as char == '\n'
    ensures !IsBase64(PAD) && !IsBase64(NEWLINE)
  {
  }

  // And backwards.
  lemma ValueOf(v: bv6, c: char)
    requires Char(v) as char == c
    ensures c < 128 as char && Six(c as bv8) == v
  {
    SixOfChar(v);
    Ascii(v);
  }

  lemma Ascii(v: bv6)
    ensures Char(v) < 128 && (Char(v) as char) as bv8 == Char(v)
  {
  }

  // Nothing else is in it.
  lemma OnlyThese(c: bv8)
    ensures IsBase64(c) <==> exists v: bv6 :: Char(v) == c
  {
    if IsBase64(c) { CharOfSix(c); }
    if v: bv6 :| Char(v) == c { SixOfChar(v); }
  }

  // ---- encoding ----

  // The four pieces of three bytes: the upper six bits of the first, its lower two with the
  // upper four of the second, and so on.
  lemma PiecesAre(a: bv8, b: bv8, c: bv8)
    ensures Piece0(Group(a, b, c)) == (a / 4) as bv6
    ensures Piece1(Group(a, b, c)) == (a % 4 * 16 + b / 16) as bv6
    ensures Piece2(Group(a, b, c)) == (b % 16 * 4 + c / 64) as bv6
    ensures Piece3(Group(a, b, c)) == (c % 64) as bv6
  {
  }

  // What stands in place of the k-th group of three bytes.
  lemma {:induction false} GroupAt(x: seq<bv8>, k: nat)
    requires 3 * k + 3 <= |x|
    ensures 4 * k + 4 <= |Encoded(x)|
    ensures Encoded(x)[4 * k..4 * k + 4] == FourOf(x[3 * k], x[3 * k + 1], x[3 * k + 2])
    decreases k
  {
    hide Encoded, Letters, Group, FourOf;
    GroupInFront(x);
    LettersAre(x[0], x[1], x[2]);
    if k > 0 {
      GroupAt(x[3..], k - 1);
      var e := Encoded(x[3..]);
      assert Encoded(x)[4 * k..4 * k + 4] == e[4 * k - 4..4 * k];
    }
  }

  // Sixes as quotients and remainders of the bytes.
  function FourOf(a: bv8, b: bv8, c: bv8): seq<bv8> {
    [Char((a / 4) as bv6), Char((a % 4 * 16 + b / 16) as bv6),
     Char((b % 16 * 4 + c / 64) as bv6), Char((c % 64) as bv6)]
  }

  lemma LettersAre(a: bv8, b: bv8, c: bv8)
    ensures Letters(Group(a, b, c)) == FourOf(a, b, c) && |Letters(Group(a, b, c))| == 4
  {
    hide Char, Piece0, Piece1, Piece2, Piece3, Group;
    PiecesAre(a, b, c);
  }

  // The same for the last group, if bytes are missing from it.
  lemma OneByte(a: bv8)
    ensures Encoded([a]) == [Char((a / 4) as bv6), Char((a % 4 * 16) as bv6), PAD, PAD]
  {
    hide Char, Piece0, Piece1, Piece2, Piece3, Group;
    PiecesAre(a, 0, 0);
    NoBits();
  }

  lemma TwoBytes(a: bv8, b: bv8)
    ensures Encoded([a, b]) ==
            [Char((a / 4) as bv6), Char((a % 4 * 16 + b / 16) as bv6), Char((b % 16 * 4) as bv6), PAD]
  {
    hide Char, Piece0, Piece1, Piece2, Piece3, Group;
    PiecesAre(a, b, 0);
    NoBits();
  }

  lemma NoBits()
    ensures 0 as bv8 / 16 == 0 && 0 as bv8 / 64 == 0
  {
  }

  function Letters(w: bv24): seq<bv8> { [Char(Piece0(w)), Char(Piece1(w)), Char(Piece2(w)), Char(Piece3(w))] }

  lemma GroupInFront(x: seq<bv8>)
    requires |x| >= 3
    ensures Encoded(x) == Letters(Group(x[0], x[1], x[2])) + Encoded(x[3..])
  {
    hide Char, Piece0, Piece1, Piece2, Piece3, Group;
  }

  // The first group stands for itself.
  lemma FirstGroup(x: seq<bv8>)
    requires |x| >= 3
    ensures Encoded(x) == Encoded(x[..3]) + Encoded(x[3..])
  {
    hide Encoded, Letters, Group;
    GroupInFront(x);
    GroupInFront(x[..3]);
    EncodedNone();
    assert x[..3][3..] == [];
    assert Letters(Group(x[0], x[1], x[2])) + [] == Letters(Group(x[0], x[1], x[2]));
  }

  // Whole groups do not touch what follows them.
  lemma {:induction false} EncodedInTwo(x: seq<bv8>, y: seq<bv8>)
    requires |x| % 3 == 0
    ensures Encoded(x + y) == Encoded(x) + Encoded(y)
    decreases |x|
  {
    hide Encoded;
    if x == [] {
      EncodedNone();
      assert x + y == y;
    } else {
      EncodedInTwo(x[3..], y);
      FirstGroup(x);
      FirstGroup(x + y);
      assert (x + y)[3..] == x[3..] + y && (x + y)[..3] == x[..3];
    }
  }

  // ---- decoding ----

  lemma BytesAre(p: bv6, q: bv6, r: bv6, s: bv6)
    ensures Byte0(Joined(p, q, r, s)) == (p as bv8) * 4 + (q as bv8) / 16
    ensures Byte1(Joined(p, q, r, s)) == (q as bv8) % 16 * 16 + (r as bv8) / 4
    ensures Byte2(Joined(p, q, r, s)) == (r as bv8) % 4 * 64 + (s as bv8)
  {
  }

  // ---- the test vectors ----

  // The bytes of e are the characters of s.
  predicate Reads(e: seq<bv8>, s: string) {
    |e| == |s| && forall i :: 0 <= i < |e| ==> e[i] as char == s[i]
  }

  lemma TextOfF()
    ensures Reads(Encoded([0x66]), "Zg==")
  {
  }

  lemma TextOfFo()
    ensures Reads(Encoded([0x66, 0x6F]), "Zm8=")
  {
  }

  lemma TextOfFoo()
    ensures Reads(Encoded([0x66, 0x6F, 0x6F]), "Zm9v")
  {
  }

  lemma TextOfFoob()
    ensures Reads(Encoded([0x66, 0x6F, 0x6F, 0x62]), "Zm9vYg==")
  {
  }

  lemma TextOfFooba()
    ensures Reads(Encoded([0x66, 0x6F, 0x6F, 0x62, 0x61]), "Zm9vYmE=")
  {
  }

  lemma TextOfFoobar()
    ensures Reads(Encoded([0x66, 0x6F, 0x6F, 0x62, 0x61, 0x72]), "Zm9vYmFy")
  {
  }

  // The two characters that are neither letters nor digits.
  lemma TextOfOnes()
    ensures Reads(Encoded([0xFF, 0xFF, 0xFF]), "////") && Reads(Encoded([0xFB, 0xEF, 0xBE]), "++++")
  {
  }
}

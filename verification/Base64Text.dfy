// Base64 as section 4 of RFC 4648 defines it: the alphabet, the text of a byte string, and
// the bytes that a run of quads of characters stands for.
module Base64Text {

  const PAD: bv8 := 61
  const NEWLINE: bv8 := 10

  // ---- the alphabet ----

  // A-Z, a-z, 0-9, + and /, in this order.
  function Char(v: bv6): bv8 {
    var c := v as bv8;
    if c < 26 then c + 65 else if c < 52 then c + 71 else if c < 62 then c - 4 else if c == 62 then 43 else 47
  }

  predicate IsBase64(c: bv8) {
    65 <= c <= 90 || 97 <= c <= 122 || 48 <= c <= 57 || c == 43 || c == 47
  }

  // The value of a character of the alphabet.
  function Six(c: bv8): bv6 {
    if 65 <= c <= 90 then (c - 65) as bv6
    else if 97 <= c <= 122 then (c - 71) as bv6
    else if 48 <= c <= 57 then ((c & 0x3F) as bv6) + 4
    else if c == 43 then 62 else 63
  }

  lemma SixOfChar(v: bv6)
    ensures IsBase64(Char(v)) && Six(Char(v)) == v
  {
  }

  lemma CharOfSix(c: bv8)
    ensures IsBase64(c) ==> Char(Six(c)) == c
  {
  }

  lemma AlphabetHasNoMarks(c: bv8)
    ensures IsBase64(c) ==> c != PAD && c != NEWLINE
  {
  }

  // ---- a group of three bytes as four pieces of six bits ----

  function Group(a: bv8, b: bv8, c: bv8): bv24 {
    ((a as bv24) << 16) | ((b as bv24) << 8) | (c as bv24)
  }

  function Piece0(w: bv24): bv6 { (w >> 18) as bv6 }

  function Piece1(w: bv24): bv6 { ((w >> 12) & 0x3F) as bv6 }

  function Piece2(w: bv24): bv6 { ((w >> 6) & 0x3F) as bv6 }

  function Piece3(w: bv24): bv6 { (w & 0x3F) as bv6 }

  function Joined(p: bv6, q: bv6, r: bv6, s: bv6): bv24 {
    ((p as bv24) << 18) | ((q as bv24) << 12) | ((r as bv24) << 6) | (s as bv24)
  }

  function Byte0(w: bv24): bv8 { (w >> 16) as bv8 }

  function Byte1(w: bv24): bv8 { ((w >> 8) & 0xFF) as bv8 }

  function Byte2(w: bv24): bv8 { (w & 0xFF) as bv8 }

  lemma PiecesOfGroup(w: bv24)
    ensures Joined(Piece0(w), Piece1(w), Piece2(w), Piece3(w)) == w
  {
  }

  lemma BytesOfGroup(a: bv8, b: bv8, c: bv8)
    ensures Byte0(Group(a, b, c)) == a && Byte1(Group(a, b, c)) == b && Byte2(Group(a, b, c)) == c
  {
  }

  // Which bytes depend on which pieces.
  lemma BytesNeed(p: bv6, q: bv6, r: bv6, s: bv6, r': bv6, s': bv6)
    ensures Byte0(Joined(p, q, r, s)) == Byte0(Joined(p, q, r', s'))
    ensures Byte1(Joined(p, q, r, s)) == Byte1(Joined(p, q, r, s'))
  {
  }

  // ---- encoding ----

  // The text of a byte string: a group at a time, the last one filled up with zero bits
  // and its missing characters written as padding.
  function Encoded(x: seq<bv8>): seq<bv8>
    decreases |x|
  {
    if x == [] then []
    else if |x| == 1 then
      var w := Group(x[0], 0, 0);
      [Char(Piece0(w)), Char(Piece1(w)), PAD, PAD]
    else if |x| == 2 then
      var w := Group(x[0], x[1], 0);
      [Char(Piece0(w)), Char(Piece1(w)), Char(Piece2(w)), PAD]
    else
      var w := Group(x[0], x[1], x[2]);
      [Char(Piece0(w)), Char(Piece1(w)), Char(Piece2(w)), Char(Piece3(w))] + Encoded(x[3..])
  }

  lemma {:induction false} EncodedLength(x: seq<bv8>)
    ensures |Encoded(x)| == (|x| + 2) / 3 * 4
    decreases |x|
  {
    hide Char, Piece0, Piece1, Piece2, Piece3, Group;
    if |x| >= 3 {
      EncodedLength(x[3..]);
      assert (|x| + 2) / 3 == (|x| - 3 + 2) / 3 + 1;
    }
  }

  // ---- decoding ----

  // The bytes that stand at the head of a string of characters, as far as its first four
  // characters are in order.
  function Leading(s: seq<bv8>): seq<bv8> {
    if |s| < 2 || !IsBase64(s[0]) || !IsBase64(s[1]) then []
    else if |s| == 2 || !IsBase64(s[2]) then [Byte0(Joined(Six(s[0]), Six(s[1]), 0, 0))]
    else if |s| == 3 || !IsBase64(s[3]) then
      var w := Joined(Six(s[0]), Six(s[1]), Six(s[2]), 0);
      [Byte0(w), Byte1(w)]
    else
      var w := Joined(Six(s[0]), Six(s[1]), Six(s[2]), Six(s[3]));
      [Byte0(w), Byte1(w), Byte2(w)]
  }

  // A string starts with a full quad, padded only if nothing follows it.
  predicate Accepts(s: seq<bv8>) {
    && |s| >= 4 && IsBase64(s[0]) && IsBase64(s[1])
    && (|| (IsBase64(s[2]) && IsBase64(s[3]))
        || (IsBase64(s[2]) && s[3] == PAD && |s| == 4)
        || (s[2] == PAD && s[3] == PAD && |s| == 4))
  }

  datatype Outcome = Outcome(bytes: seq<bv8>, ok: bool, pending: seq<bv8>)

  function After(bytes: seq<bv8>, rest: Outcome): Outcome {
    rest.(bytes := bytes + rest.bytes)
  }

  // Quad by quad; fewer than four characters are left pending.
  function Quads(s: seq<bv8>): (r: Outcome)
    ensures |r.pending| < 4
    decreases |s|
  {
    if |s| < 4 then Outcome([], true, s)
    else if Accepts(s[..4]) then After(Leading(s[..4]), Quads(s[4..]))
    else Outcome(Leading(s[..4]), false, [])
  }

  // As one unit: padding ends it, and nothing may be left over.
  function Unit(s: seq<bv8>): Outcome
    decreases |s|
  {
    if s == [] then Outcome([], true, [])
    else if Accepts(s) then After(Leading(s), Unit(s[4..]))
    else Outcome(Leading(s), false, [])
  }

  lemma LeadingOfFour(s: seq<bv8>)
    requires |s| >= 4
    ensures Leading(s) == Leading(s[..4])
    ensures Accepts(s) ==> Accepts(s[..4])
  {
    hide Six, Joined, Byte0, Byte1, Byte2, IsBase64;
  }

  // ---- the decoded bytes are the encoded ones ----

  lemma TextOfGroup(a: bv8, b: bv8, c: bv8)
    ensures var w := Group(a, b, c);
            var t := [Char(Piece0(w)), Char(Piece1(w)), Char(Piece2(w)), Char(Piece3(w))];
            Accepts(t) && Leading(t) == [a, b, c]
  {
    hide Char, Six, Joined, Byte0, Byte1, Byte2, Piece0, Piece1, Piece2, Piece3, Group, IsBase64;
    var w := Group(a, b, c);
    SixOfChar(Piece0(w));
    SixOfChar(Piece1(w));
    SixOfChar(Piece2(w));
    SixOfChar(Piece3(w));
    PiecesOfGroup(w);
    BytesOfGroup(a, b, c);
  }

  lemma TextOfTwo(a: bv8, b: bv8)
    ensures var w := Group(a, b, 0);
            var t := [Char(Piece0(w)), Char(Piece1(w)), Char(Piece2(w)), PAD];
            Accepts(t) && Leading(t) == [a, b]
  {
    hide Char, Six, Joined, Byte0, Byte1, Byte2, Piece0, Piece1, Piece2, Piece3, Group, IsBase64;
    var w := Group(a, b, 0);
    SixOfChar(Piece0(w));
    SixOfChar(Piece1(w));
    SixOfChar(Piece2(w));
    PadIsNone();
    PiecesOfGroup(w);
    BytesNeed(Piece0(w), Piece1(w), Piece2(w), Piece3(w), Piece2(w), 0);
    BytesOfGroup(a, b, 0);
  }

  lemma TextOfOne(a: bv8)
    ensures var w := Group(a, 0, 0);
            var t := [Char(Piece0(w)), Char(Piece1(w)), PAD, PAD];
            Accepts(t) && Leading(t) == [a]
  {
    hide Char, Six, Joined, Byte0, Byte1, Byte2, Piece0, Piece1, Piece2, Piece3, Group, IsBase64;
    var w := Group(a, 0, 0);
    SixOfChar(Piece0(w));
    SixOfChar(Piece1(w));
    PadIsNone();
    PiecesOfGroup(w);
    BytesNeed(Piece0(w), Piece1(w), Piece2(w), Piece3(w), 0, 0);
    BytesOfGroup(a, 0, 0);
  }

  lemma PadIsNone()
    ensures !IsBase64(PAD)
  {
  }

  // One quad of the text of a nonempty byte string.
  lemma TextStep(x: seq<bv8>)
    requires x != []
    ensures var t := Encoded(x);
            && |t| >= 4 && Accepts(t[..4])
            && (if |x| <= 3 then Leading(t[..4]) == x && t[4..] == []
                else Leading(t[..4]) == x[..3] && t[4..] == Encoded(x[3..]) && Accepts(t) && Leading(t) == x[..3])
  {
    hide Char, Piece0, Piece1, Piece2, Piece3, Group, Accepts, Leading;
    var t := Encoded(x);
    if |x| == 1 {
      TextOfOne(x[0]);
      assert t[..4] == t && x == [x[0]];
    } else if |x| == 2 {
      TextOfTwo(x[0], x[1]);
      assert t[..4] == t && x == [x[0], x[1]];
    } else {
      TextOfGroup(x[0], x[1], x[2]);
      var w := Group(x[0], x[1], x[2]);
      assert t[..4] == [Char(Piece0(w)), Char(Piece1(w)), Char(Piece2(w)), Char(Piece3(w))];
      assert x[..3] == [x[0], x[1], x[2]];
      FullQuad(x[0], x[1], x[2], t);
      if |x| == 3 { assert x == x[..3]; }
    }
  }

  lemma FullQuad(a: bv8, b: bv8, c: bv8, t: seq<bv8>)
    requires |t| >= 4
    requires var w := Group(a, b, c); t[..4] == [Char(Piece0(w)), Char(Piece1(w)), Char(Piece2(w)), Char(Piece3(w))]
    ensures Accepts(t) && Leading(t) == [a, b, c]
  {
    hide Char, Six, Joined, Byte0, Byte1, Byte2, Piece0, Piece1, Piece2, Piece3, Group, IsBase64;
    var w := Group(a, b, c);
    SixOfChar(Piece0(w));
    SixOfChar(Piece1(w));
    SixOfChar(Piece2(w));
    SixOfChar(Piece3(w));
    TextOfGroup(a, b, c);
    LeadingOfFour(t);
    assert t[0] == t[..4][0] && t[1] == t[..4][1] && t[2] == t[..4][2] && t[3] == t[..4][3];
  }

  // Decoding the text of x and then s gives x and then what s gives.
  lemma {:induction false} QuadsOfText(x: seq<bv8>, s: seq<bv8>)
    ensures Quads(Encoded(x) + s) == After(x, Quads(s))
    decreases |x|
  {
    hide Encoded, Accepts, Leading;
    EncodedNone();
    if x == [] {
      assert Encoded(x) + s == s;
    } else {
      TextStep(x);
      var t := Encoded(x);
      assert (t + s)[..4] == t[..4] && (t + s)[4..] == t[4..] + s;
      if |x| <= 3 {
        assert t[4..] + s == s;
      } else {
        QuadsOfText(x[3..], s);
        assert x == x[..3] + x[3..];
        assert x[..3] + (x[3..] + Quads(s).bytes) == x + Quads(s).bytes;
      }
    }
  }

  lemma EncodedNone()
    ensures Encoded([]) == []
  {
  }

  lemma RoundTrip(x: seq<bv8>)
    ensures Quads(Encoded(x)) == Outcome(x, true, [])
  {
    hide Encoded, Accepts, Leading;
    QuadsOfText(x, []);
    assert Encoded(x) + [] == Encoded(x);
  }

  lemma {:induction false} UnitRoundTrip(x: seq<bv8>)
    ensures Unit(Encoded(x)) == Outcome(x, true, [])
    decreases |x|
  {
    hide Encoded, Accepts, Leading;
    EncodedNone();
    if x != [] {
      TextStep(x);
      var t := Encoded(x);
      if |x| <= 3 {
        assert t[..4] == t;
      } else {
        UnitRoundTrip(x[3..]);
        assert x == x[..3] + x[3..];
      }
    }
  }
}

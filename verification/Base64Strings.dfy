// The encoder and decoder of utilities/base64.c, which work on zero-terminated strings.
module Base64Strings {
  import opened Base64Text
  import opened Base64Stream
  import opened Base64Output

  // ---- Base64encode ----

  // A char promoted to int: its sign is extended where char is signed.
  function Promoted(c: bv8, signed: bool): bv16 {
    if signed && c & 0x80 != 0 then 0xFF00 | (c as bv16) else c as bv16
  }

  // An arithmetic shift of a promoted char.
  function ShiftedBy2(c: bv16): bv16 { if c & 0x8000 != 0 then 0xC000 | (c >> 2) else c >> 2 }

  function Out0(a: bv16): bv8 { Char((ShiftedBy2(a) & 0x3F) as bv6) }

  function Out1(a: bv16, b: bv16): bv8 { Char((((a & 3) << 4) | ((b & 0xF0) >> 4)) as bv6) }

  function Out2(b: bv16, c: bv16): bv8 { Char((((b & 0xF) << 2) | ((c & 0xC0) >> 6)) as bv6) }

  function Out3(c: bv16): bv8 { Char((c & 0x3F) as bv6) }

  // The masks make the sign of char irrelevant.
  lemma OutIs(a: bv8, b: bv8, c: bv8, signed: bool)
    ensures Out0(Promoted(a, signed)) == Char(Piece0(Group(a, b, c)))
    ensures Out1(Promoted(a, signed), Promoted(b, signed)) == Char(Piece1(Group(a, b, c)))
    ensures Out2(Promoted(b, signed), Promoted(c, signed)) == Char(Piece2(Group(a, b, c)))
    ensures Out3(Promoted(c, signed)) == Char(Piece3(Group(a, b, c)))
  {
    hide Char;
  }

  // Without a following byte the code leaves its bits out.
  function Out1Last(a: bv16): bv8 { Char(((a & 3) << 4) as bv6) }

  function Out2Last(b: bv16): bv8 { Char(((b & 0xF) << 2) as bv6) }

  lemma OutLast(a: bv16)
    ensures Out1(a, 0) == Out1Last(a) && Out2(a, 0) == Out2Last(a)
  {
    hide Char;
  }

  lemma PromotedZero(signed: bool)
    ensures Promoted(0, signed) == 0
  {
  }

  lemma NextQuad(x: seq<bv8>, signed: bool)
    requires x != []
    ensures var q := Encoded(x);
            var a := Promoted(x[0], signed);
            var b := if |x| > 1 then Promoted(x[1], signed) else 0;
            var c := if |x| > 2 then Promoted(x[2], signed) else 0;
            && |q| >= 4
            && q[0] == Out0(a)
            && q[1] == Out1(a, b)
            && q[2] == (if |x| > 1 then Out2(b, c) else PAD)
            && q[3] == (if |x| > 2 then Out3(c) else PAD)
            && q[4..] == (if |x| > 3 then Encoded(x[3..]) else [])
  {
    hide Char, Piece0, Piece1, Piece2, Piece3, Group, Out0, Out1, Out2, Out3, Promoted;
    PromotedZero(signed);
    OutIs(x[0], if |x| > 1 then x[1] else 0, if |x| > 2 then x[2] else 0, signed);
  }

  function Base64EncodeLen(len: nat): (r: nat)
    ensures forall x: seq<bv8> :: |x| == len ==> r == |Encoded(x)| + 1
  {
    forall x: seq<bv8> | |x| == len ensures |Encoded(x)| == (len + 2) / 3 * 4 { EncodedLength(x); }
    (len + 2) / 3 * 4 + 1
  }

  // The source computes this in an int, which overflows for longer inputs.
  lemma EncodeLenFits(len: nat)
    ensures Base64EncodeLen(len) < 0x8000_0000 <==> len <= 1_610_612_733
  {
  }

  // The string of the text of the bytes from i on.
  ghost function TextFrom(x: seq<bv8>, i: nat): Text
    requires i <= |x|
  {
    Text(Terminated(Encoded(x[i..])))
  }

  lemma TextStart(x: seq<bv8>)
    ensures Text(Terminated(Encoded(x))) == TextFrom(x, 0)
  {
    hide Encoded;
    assert x[0..] == x;
  }

  lemma QuadAhead(text: seq<bv8>, p: nat, x: seq<bv8>, i: nat, signed: bool)
    requires i < |x| && p <= |text| && Tail(text, p) == TextFrom(x, i)
    ensures p + 4 < |text|
    ensures var a := Promoted(x[i], signed);
            var b := if i + 1 < |x| then Promoted(x[i + 1], signed) else 0;
            var c := if i + 2 < |x| then Promoted(x[i + 2], signed) else 0;
            && text[p] == Out0(a)
            && text[p + 1] == (if i + 1 < |x| then Out1(a, b) else Out1Last(a))
            && text[p + 2] == (if i + 2 < |x| then Out2(b, c) else if i + 1 < |x| then Out2Last(b) else PAD)
            && text[p + 3] == (if i + 2 < |x| then Out3(c) else PAD)
    ensures Tail(text, p + 4) == TextFrom(x, if i + 3 < |x| then i + 3 else |x|)
  {
    hide Encoded, Out0, Out1, Out2, Out3, Out1Last, Out2Last, Tail, Promoted;
    var rest := x[i..];
    NextQuad(rest, signed);
    OutLast(Promoted(x[i], signed));
    if i + 1 < |x| { OutLast(Promoted(x[i + 1], signed)); }
    EncodedNone();
    var q := Encoded(rest);
    assert q + [0] == q[..4] + (q[4..] + [0]);
    TailStep(text, p, q[..4], q[4..] + [0]);
    TailEnd(text, p + 4, q[4..] + [0]);
    assert text[p + 0] == q[0] && text[p + 1] == q[1] && text[p + 2] == q[2] && text[p + 3] == q[3];
    assert if i + 3 < |x| then rest[3..] == x[i + 3..] else x[|x|..] == [];
  }

  lemma TextEnds(text: seq<bv8>, p: nat, x: seq<bv8>)
    requires p <= |text| && Tail(text, p) == TextFrom(x, |x|)
    ensures |text| == p + 1 && text[p] == 0
  {
    hide Tail;
    EncodedNone();
    assert x[|x|..] == [] && [] + [0 as bv8] == [0];
    TailEnd(text, p, [0]);
  }

  // The first len bytes; none if len is negative.
  function First(s: seq<bv8>, len: int): seq<bv8>
    requires len <= |s|
  {
    s[..if len < 0 then 0 else len]
  }

  lemma FirstLength(s: seq<bv8>, len: int)
    requires len <= |s|
    ensures |First(s, len)| == (if len < 0 then 0 else len)
  {
  }

  // Writes the text and a zero, and returns how much that was.
  method Base64Encode(encoded: array<bv8>, s: seq<bv8>, len: int, signed: bool) returns (n: nat)
    requires len <= |s|
    requires encoded.Length > |Encoded(First(s, len))|
    modifies encoded
    ensures var text := Terminated(Encoded(First(s, len)));
            n == |text| && encoded[..] == Over(text, old(encoded[..]))
  {
    hide Encoded, Out0, Out1, Out2, Out3, Out1Last, Out2Last, Part, Tail, Promoted, TextFrom, First, Over, Terminated;
    var x := First(s, len);
    FirstLength(s, len);
    ghost var start, text := encoded[..], Terminated(Encoded(x));
    var p, i := 0, 0;
    NothingWritten(text, start);
    TextStart(x);
    while i < len - 2
      invariant 0 <= i <= |x| && 0 <= p <= |text|
      invariant Text(encoded[..]) == Part(text, p, start) && Tail(text, p) == TextFrom(x, i)
      decreases len - i
    {
      QuadAhead(text, p, x, i, signed);
      Put(encoded, p, Out0(Promoted(x[i], signed)), text, start);
      Put(encoded, p + 1, Out1(Promoted(x[i], signed), Promoted(x[i + 1], signed)), text, start);
      Put(encoded, p + 2, Out2(Promoted(x[i + 1], signed), Promoted(x[i + 2], signed)), text, start);
      Put(encoded, p + 3, Out3(Promoted(x[i + 2], signed)), text, start);
      p := p + 4;
      i := i + 3;
    }
    if i < len {
      QuadAhead(text, p, x, i, signed);
      Put(encoded, p, Out0(Promoted(x[i], signed)), text, start);
      if i == len - 1 {
        Put(encoded, p + 1, Out1Last(Promoted(x[i], signed)), text, start);
        Put(encoded, p + 2, PAD, text, start);
      } else {
        Put(encoded, p + 1, Out1(Promoted(x[i], signed), Promoted(x[i + 1], signed)), text, start);
        Put(encoded, p + 2, Out2Last(Promoted(x[i + 1], signed)), text, start);
      }
      Put(encoded, p + 3, PAD, text, start);
      p := p + 4;
    }
    TextEnds(text, p, x);
    Put(encoded, p, 0, text, start);
    AllWritten(text, start);
    return p + 1;
  }

  // ---- Base64decode ----

  // The characters up to the first one that is not in the alphabet.
  function Head(s: seq<bv8>): (r: seq<bv8>)
    ensures r <= s && (|r| < |s| ==> !IsBase64(s[|r|]))
    decreases |s|
  {
    if s == [] || !IsBase64(s[0]) then [] else [s[0]] + Head(s[1..])
  }

  // What a stream gives for them, and a flush.
  function Loose(t: seq<bv8>): seq<bv8> { Quads(t).bytes + Leading(Quads(t).pending) }

  predicate AllBase64(t: seq<bv8>) { forall c :: c in t ==> IsBase64(c) }

  lemma {:induction false} HeadIsBase64(s: seq<bv8>)
    ensures AllBase64(Head(s))
    decreases |s|
  {
    hide IsBase64;
    if s != [] && IsBase64(s[0]) { HeadIsBase64(s[1..]); }
  }

  // How the code counts the characters.
  lemma {:induction false} HeadLength(s: seq<bv8>, n: nat)
    requires n < |s| && AllBase64(s[..n]) && !IsBase64(s[n])
    ensures Head(s) == s[..n]
    decreases n
  {
    hide IsBase64;
    if n > 0 {
      assert s[..n][0] == s[0];
      assert forall c :: c in s[1..][..n - 1] ==> c in s[..n];
      HeadLength(s[1..], n - 1);
      assert s[..n] == [s[0]] + s[1..][..n - 1];
    }
  }

  lemma LooseStep(t: seq<bv8>)
    requires |t| >= 4 && AllBase64(t)
    ensures Loose(t) == Leading(t[..4]) + Loose(t[4..])
    ensures AllBase64(t[4..])
  {
    hide Leading, IsBase64;
    assert t[0] in t && t[1] in t && t[2] in t && t[3] in t;
    assert Accepts(t[..4]);
    assert Quads(t) == After(Leading(t[..4]), Quads(t[4..]));
  }

  lemma LooseShort(t: seq<bv8>)
    requires |t| < 4
    ensures Loose(t) == Leading(t)
  {
    hide Leading;
    assert Quads(t) == Outcome([], true, t);
    assert [] + Leading(t) == Leading(t);
  }

  // Three bytes for four characters; a single last character gives nothing.
  lemma {:induction false} LooseLength(t: seq<bv8>)
    requires AllBase64(t)
    ensures |Loose(t)| == |t| * 3 / 4
    decreases |t|
  {
    hide Loose, Leading, IsBase64;
    LeadingLength(t);
    if |t| < 4 {
      LooseShort(t);
    } else {
      LooseStep(t);
      LeadingLength(t[..4]);
      LooseLength(t[4..]);
    }
  }

  lemma LeadingLength(t: seq<bv8>)
    requires AllBase64(t)
    ensures |t| == 0 || |t| == 1 ==> |Leading(t)| == 0
    ensures 2 <= |t| <= 4 ==> |Leading(t)| == |t| - 1
    ensures |t| >= 4 ==> AllBase64(t[..4])
  {
    hide IsBase64;
  }

  // The bytes as the code composes them.
  function Plain0(a: bv6, b: bv6): bv8 { ((((a as bv16) << 2) | ((b as bv16) >> 4)) & 0xFF) as bv8 }

  function Plain1(b: bv6, c: bv6): bv8 { ((((b as bv16) << 4) | ((c as bv16) >> 2)) & 0xFF) as bv8 }

  function Plain2(c: bv6, d: bv6): bv8 { ((((c as bv16) << 6) | (d as bv16)) & 0xFF) as bv8 }

  lemma PlainIs(a: bv6, b: bv6, c: bv6, d: bv6)
    ensures Plain0(a, b) == Byte0(Joined(a, b, c, d))
    ensures Plain1(b, c) == Byte1(Joined(a, b, c, d))
    ensures Plain2(c, d) == Byte2(Joined(a, b, c, d))
  {
  }

  // The bytes of at most four characters, in the terms of the code.
  lemma NextBytes(t: seq<bv8>)
    requires AllBase64(t) && |t| <= 4
    ensures var q := Leading(t);
            && (|t| > 1 ==> |q| > 0 && q[0] == Plain0(Six(t[0]), Six(t[1])))
            && (|t| > 2 ==> |q| > 1 && q[1] == Plain1(Six(t[1]), Six(t[2])))
            && (|t| > 3 ==> |q| > 2 && q[2] == Plain2(Six(t[2]), Six(t[3])))
  {
    hide Six, Joined, Byte0, Byte1, Byte2, Plain0, Plain1, Plain2, IsBase64;
    if |t| == 2 { PlainIs(Six(t[0]), Six(t[1]), 0, 0); }
    if |t| == 3 { PlainIs(Six(t[0]), Six(t[1]), Six(t[2]), 0); }
    if |t| == 4 { PlainIs(Six(t[0]), Six(t[1]), Six(t[2]), Six(t[3])); }
  }

  // How many there are, and these characters.
  method Count(s: seq<bv8>) returns (nprbytes: nat, t: seq<bv8>)
    requires |Head(s)| < |s|
    ensures t == Head(s) && nprbytes == |t| && AllBase64(t)
  {
    hide IsBase64, Head;
    HeadEnds(s);
    var bufin := 0;
    while IsBase64(s[bufin])
      invariant 0 <= bufin < |s| && AllBase64(s[..bufin]) && bufin <= |Head(s)|
      decreases |s| - bufin
    {
      assert s[..bufin + 1] == s[..bufin] + [s[bufin]];
      bufin := bufin + 1;
    }
    HeadLength(s, bufin);
    return bufin, s[..bufin];
  }

  lemma HeadEnds(s: seq<bv8>)
    ensures |Head(s)| < |s| ==> !IsBase64(s[|Head(s)|])
  {
  }

  // Three bytes for every four characters begun.
  function UpTo(nprbytes: nat): nat { (nprbytes + 3) / 4 * 3 }

  function Missing(nprbytes: nat): int { (4 - nprbytes) % 4 }

  // Room enough, and never more than three bytes too much.
  method Base64DecodeLen(s: seq<bv8>) returns (r: nat)
    requires |Head(s)| < |s|
    ensures r == |Loose(Head(s))| + 1 + Missing(|Head(s)| % 4)
  {
    hide Loose, Head, Missing, UpTo;
    var nprbytes, t := Count(s);
    LengthIs(t);
    return UpTo(nprbytes) + 1;
  }

  lemma LengthIs(t: seq<bv8>)
    requires AllBase64(t)
    ensures UpTo(|t|) == |Loose(t)| + Missing(|t| % 4)
  {
    hide Loose, AllBase64;
    LooseLength(t);
    var k, r := |t| / 4, |t| % 4;
    assert |t| == 4 * k + r;
    if r == 0 {
      Quarter(|t| + 3, k, 3);
      Quarter(|t| * 3, 3 * k, 0);
    } else {
      Quarter(|t| + 3, k + 1, r - 1);
      if r == 1 { Quarter(|t| * 3, 3 * k, 3); } else { Quarter(|t| * 3, 3 * k + r - 1, 4 - r); }
    }
  }

  // The string of the bytes of the characters from i on.
  ghost function BytesFrom(t: seq<bv8>, i: nat): Text
    requires i <= |t|
  {
    Text(Terminated(Loose(t[i..])))
  }

  lemma BytesStart(t: seq<bv8>)
    ensures Text(Terminated(Loose(t))) == BytesFrom(t, 0)
  {
    hide Loose;
    assert t[0..] == t;
  }

  lemma FromIsBase64(t: seq<bv8>, i: nat)
    requires AllBase64(t) && i <= |t|
    ensures AllBase64(t[i..])
  {
    hide IsBase64;
  }

  lemma StepAhead(text: seq<bv8>, p: nat, t: seq<bv8>, i: nat)
    requires AllBase64(t) && i + 4 < |t| && p <= |text| && Tail(text, p) == BytesFrom(t, i)
    ensures p + 3 < |text|
    ensures text[p] == Plain0(Six(t[i]), Six(t[i + 1]))
    ensures text[p + 1] == Plain1(Six(t[i + 1]), Six(t[i + 2]))
    ensures text[p + 2] == Plain2(Six(t[i + 2]), Six(t[i + 3]))
    ensures Tail(text, p + 3) == BytesFrom(t, i + 4)
  {
    hide Loose, Leading, Six, Plain0, Plain1, Plain2, AllBase64, Tail;
    var rest := t[i..];
    FromIsBase64(t, i);
    StepFacts(rest);
    assert rest[4..] == t[i + 4..];
    var q, more := Leading(rest[..4]), Loose(rest[4..]) + [0];
    assert Loose(rest) + [0] == q + more;
    TailStep(text, p, q, more);
    TailEnd(text, p + 3, more);
    assert text[p + 0] == q[0] && text[p + 1] == q[1] && text[p + 2] == q[2];
  }

  lemma LastAhead(text: seq<bv8>, p: nat, t: seq<bv8>, i: nat)
    requires AllBase64(t) && i <= |t| <= i + 4 && p <= |text| && Tail(text, p) == BytesFrom(t, i)
    ensures |text| == p + (if |t| > i + 1 then |t| - i - 1 else 0) + 1 && text[|text| - 1] == 0
    ensures |t| > i + 1 ==> text[p] == Plain0(Six(t[i]), Six(t[i + 1]))
    ensures |t| > i + 2 ==> text[p + 1] == Plain1(Six(t[i + 1]), Six(t[i + 2]))
    ensures |t| > i + 3 ==> text[p + 2] == Plain2(Six(t[i + 2]), Six(t[i + 3]))
  {
    hide Loose, Leading, Six, Plain0, Plain1, Plain2, AllBase64, Tail;
    var rest := t[i..];
    FromIsBase64(t, i);
    LastFacts(rest);
    var q := Leading(rest);
    TailStep(text, p, q, [0]);
    TailEnd(text, p + |q|, [0]);
    if |rest| > 1 { assert text[p + 0] == q[0]; }
  }

  // Writes the bytes that the characters before the first foreign one stand for, and a zero.
  method Base64Decode(plain: array<bv8>, s: seq<bv8>) returns (n: nat)
    requires |Head(s)| < |s|
    requires plain.Length > |Loose(Head(s))|
    modifies plain
    ensures var text := Terminated(Loose(Head(s)));
            n == |text| - 1 && plain[..] == Over(text, old(plain[..]))
  {
    hide Loose, Head, Six, Plain0, Plain1, Plain2, Part, Tail, AllBase64, UpTo, Missing, BytesFrom, Over, Terminated;
    var nprbytes, t := Count(s);
    ghost var start, text := plain[..], Terminated(Loose(t));
    var nbytesdecoded := UpTo(nprbytes);
    NothingWritten(text, start);
    BytesStart(t);
    var bufin, bufout := 0, 0;
    ghost var quads := 0;
    while nprbytes > 4
      invariant bufin + nprbytes == |t| && bufin == 4 * quads && quads >= 0 && (|t| > 0 ==> nprbytes > 0)
      invariant 0 <= bufout <= |text|
      invariant Text(plain[..]) == Part(text, bufout, start) && Tail(text, bufout) == BytesFrom(t, bufin)
      decreases nprbytes
    {
      StepAhead(text, bufout, t, bufin);
      Put(plain, bufout, Plain0(Six(t[bufin]), Six(t[bufin + 1])), text, start);
      Put(plain, bufout + 1, Plain1(Six(t[bufin + 1]), Six(t[bufin + 2])), text, start);
      Put(plain, bufout + 2, Plain2(Six(t[bufin + 2]), Six(t[bufin + 3])), text, start);
      bufout := bufout + 3;
      bufin := bufin + 4;
      nprbytes := nprbytes - 4;
      quads := quads + 1;
    }
    LastAhead(text, bufout, t, bufin);
    if nprbytes > 1 {
      Put(plain, bufout, Plain0(Six(t[bufin]), Six(t[bufin + 1])), text, start);
      bufout := bufout + 1;
    }
    if nprbytes > 2 {
      Put(plain, bufout, Plain1(Six(t[bufin + 1]), Six(t[bufin + 2])), text, start);
      bufout := bufout + 1;
    }
    if nprbytes > 3 {
      Put(plain, bufout, Plain2(Six(t[bufin + 2]), Six(t[bufin + 3])), text, start);
      bufout := bufout + 1;
    }
    Put(plain, bufout, 0, text, start);
    AllWritten(text, start);
    CountIs(t, quads, nprbytes);
    return nbytesdecoded - Missing(nprbytes);
  }

  lemma CountIs(t: seq<bv8>, k: nat, nprbytes: nat)
    requires AllBase64(t)
    requires |t| == 4 * k + nprbytes && nprbytes <= 4 && (|t| > 0 ==> nprbytes > 0)
    ensures UpTo(|t|) - Missing(nprbytes) == |Loose(t)|
  {
    hide Loose, AllBase64;
    LooseLength(t);
    var length := |t|;
    if nprbytes > 0 {
      Quarter(length + 3, k + 1, nprbytes - 1);
      if nprbytes == 1 {
        Quarter(length * 3, 3 * k, 3);
      } else {
        Quarter(length * 3, 3 * k + nprbytes - 1, 4 - nprbytes);
      }
    }
  }

  lemma Quarter(a: nat, q: nat, r: nat)
    requires a == 4 * q + r && r < 4
    ensures a / 4 == q
  {
  }

  lemma StepFacts(t: seq<bv8>)
    requires |t| > 4 && AllBase64(t)
    ensures Loose(t) == Leading(t[..4]) + Loose(t[4..]) && |Leading(t[..4])| == 3 && AllBase64(t[4..])
    ensures Leading(t[..4])[0] == Plain0(Six(t[0]), Six(t[1]))
    ensures Leading(t[..4])[1] == Plain1(Six(t[1]), Six(t[2]))
    ensures Leading(t[..4])[2] == Plain2(Six(t[2]), Six(t[3]))
  {
    hide Loose, Leading, Six, Plain0, Plain1, Plain2, AllBase64;
    LooseStep(t);
    LeadingLength(t);
    LeadingLength(t[..4]);
    NextBytes(t[..4]);
  }

  lemma LastFacts(t: seq<bv8>)
    requires |t| <= 4 && AllBase64(t)
    ensures Loose(t) == Leading(t) && |Leading(t)| == (if |t| > 1 then |t| - 1 else 0)
    ensures |t| > 1 ==> Leading(t)[0] == Plain0(Six(t[0]), Six(t[1]))
    ensures |t| > 2 ==> Leading(t)[1] == Plain1(Six(t[1]), Six(t[2]))
    ensures |t| > 3 ==> Leading(t)[2] == Plain2(Six(t[2]), Six(t[3]))
  {
    hide Loose, Leading, Six, Plain0, Plain1, Plain2, AllBase64;
    LeadingLength(t);
    NextBytes(t);
    if |t| < 4 {
      LooseShort(t);
    } else {
      LooseStep(t);
      LooseShort(t[4..]);
      LeadingOfNone();
      assert t[..4] == t && t[4..] == [];
    }
  }

  // ---- the decoder undoes the encoder ----

  lemma {:induction false} HeadAppend(t: seq<bv8>, s: seq<bv8>)
    requires AllBase64(t)
    ensures Head(t + s) == t + Head(s)
    decreases |t|
  {
    hide IsBase64;
    if t == [] {
      assert t + s == s;
    } else {
      assert (t + s)[0] == t[0] && t[0] in t && (t + s)[1..] == t[1..] + s;
      HeadAppend(t[1..], s);
    }
  }

  // A full quad without padding, and then the rest.
  lemma HeadQuad(q: seq<bv8>, s: seq<bv8>, bytes: seq<bv8>)
    requires |q| == 4 && AllBase64(q) && Leading(q) == bytes
    ensures Loose(Head(q + s)) == bytes + Loose(Head(s))
  {
    hide Loose, Leading, IsBase64, Head;
    HeadAppend(q, s);
    HeadIsBase64(s);
    var t := q + Head(s);
    assert t[..4] == q && t[4..] == Head(s);
    LooseStep(t);
  }

  // A padded quad is read up to its padding.
  lemma HeadPadded(q: seq<bv8>, s: seq<bv8>)
    requires |q| == 4 && Accepts(q) && !AllBase64(q)
    ensures Loose(Head(q + s)) == Leading(q)
  {
    hide Loose, IsBase64, Head, Six, Joined, Byte0, Byte1, Byte2;
    PadIsNone();
    var n := if IsBase64(q[2]) then 3 else 2;
    assert AllBase64(q[..n]);
    assert (q + s)[..n] == q[..n] && (q + s)[n] == q[n];
    HeadLength(q + s, n);
    LooseShort(q[..n]);
  }

  lemma TextQuad(x: seq<bv8>)
    requires x != []
    ensures var q := Encoded(x)[..4];
            |Encoded(x)| >= 4 && Accepts(q) && (AllBase64(q) <==> |x| >= 3)
  {
    hide Char, Six, Piece0, Piece1, Piece2, Piece3, Group, IsBase64, Leading;
    TextStep(x);
    PadIsNone();
    var q := Encoded(x)[..4];
    if |x| < 3 {
      assert q[3] == PAD && q[3] in q;
    } else {
      var w := Group(x[0], x[1], x[2]);
      SixOfChar(Piece0(w));
      SixOfChar(Piece1(w));
      SixOfChar(Piece2(w));
      SixOfChar(Piece3(w));
    }
  }

  lemma {:induction false} StringRoundTrip(x: seq<bv8>, after: seq<bv8>)
    ensures Loose(Head(Terminated(Encoded(x)) + after)) == x
    ensures |Head(Terminated(Encoded(x)) + after)| < |Terminated(Encoded(x)) + after|
    decreases |x|
  {
    hide Loose, Encoded, Leading, Accepts, AllBase64, IsBase64, Head;
    EncodedNone();
    var s := Terminated(Encoded(x)) + after;
    if x == [] {
      assert s == [0] + after;
      ZeroEnds(s);
    } else {
      TextStep(x);
      TextQuad(x);
      var q, more := Encoded(x)[..4], Encoded(x)[4..];
      assert s == q + (more + [0] + after);
      if |x| < 3 {
        HeadPadded(q, more + [0] + after);
      } else {
        StringRoundTrip(x[3..], after);
        HeadQuad(q, more + [0] + after, x[..3]);
        if |x| == 3 { assert x[3..] == []; }
        assert more == Encoded(x[3..]);
        assert x == x[..3] + x[3..];
      }
      HeadEndsBefore(s, |Encoded(x)|);
    }
  }

  lemma ZeroEnds(s: seq<bv8>)
    requires s != [] && s[0] == 0
    ensures Head(s) == [] && Loose([]) == []
  {
    LooseShort([]);
  }

  lemma {:induction false} HeadEndsBefore(s: seq<bv8>, n: nat)
    requires n < |s| && s[n] == 0
    ensures |Head(s)| <= n
    decreases n
  {
    if n > 0 && IsBase64(s[0]) { HeadEndsBefore(s[1..], n - 1); }
  }
}

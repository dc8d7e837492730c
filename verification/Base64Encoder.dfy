// The encoder of sources/httpd/base64.c.
module Base64Encoder {
  import opened Basics
  import opened Base64Text
  import opened Base64Output

  // The characters as the code composes them, the bytes being promoted.
  function Out0(a: bv8): bv8 { Char((a >> 2) as bv6) }

  function Out1(a: bv8, b: bv8): bv8 { Char(((((a as bv16) << 4) + ((b as bv16) >> 4)) & 0x3F) as bv6) }

  function Out2(b: bv8, c: bv8): bv8 { Char(((((b as bv16) << 2) + ((c as bv16) >> 6)) & 0x3F) as bv6) }

  function Out3(c: bv8): bv8 { Char((c & 0x3F) as bv6) }

  lemma OutIs(a: bv8, b: bv8, c: bv8)
    ensures Out0(a) == Char(Piece0(Group(a, b, c)))
    ensures Out1(a, b) == Char(Piece1(Group(a, b, c)))
    ensures Out2(b, c) == Char(Piece2(Group(a, b, c)))
    ensures Out3(c) == Char(Piece3(Group(a, b, c)))
  {
    hide Char;
  }

  lemma TextOfThree(x: seq<bv8>)
    requires |x| >= 3
    ensures Encoded(x) == [Out0(x[0]), Out1(x[0], x[1]), Out2(x[1], x[2]), Out3(x[2])] + Encoded(x[3..])
  {
    hide Char, Piece0, Piece1, Piece2, Piece3, Group, Out0, Out1, Out2, Out3;
    OutIs(x[0], x[1], x[2]);
  }

  lemma TextOfRest(x: seq<bv8>)
    ensures |x| == 1 ==> Encoded(x) == [Out0(x[0]), Out1(x[0], 0), PAD, PAD]
    ensures |x| == 2 ==> Encoded(x) == [Out0(x[0]), Out1(x[0], x[1]), Out2(x[1], 0), PAD]
    ensures |x| == 0 ==> Encoded(x) == []
  {
    hide Char, Piece0, Piece1, Piece2, Piece3, Group, Out0, Out1, Out2, Out3;
    if |x| == 1 { OutIs(x[0], 0, 0); }
    if |x| == 2 { OutIs(x[0], x[1], 0); }
  }

  // The next four characters of the text, in the terms of the code.
  lemma NextQuad(rest: seq<bv8>)
    requires rest != []
    ensures var q := Encoded(rest);
            && |q| >= 4
            && q[0] == Out0(rest[0])
            && q[1] == Out1(rest[0], if |rest| > 1 then rest[1] else 0)
            && q[2] == (if |rest| > 1 then Out2(rest[1], if |rest| > 2 then rest[2] else 0) else PAD)
            && q[3] == (if |rest| > 2 then Out3(rest[2]) else PAD)
            && q[4..] == Encoded(if |rest| > 3 then rest[3..] else [])
  {
    hide Encoded, Out0, Out1, Out2, Out3;
    TextOfRest(rest);
    TextOfRest([]);
    if |rest| >= 3 {
      TextOfThree(rest);
      if |rest| == 3 { assert rest[3..] == []; }
    }
  }

  // The text of the bytes from i on.
  ghost function TextFrom(input: seq<bv8>, i: nat): Text
    requires i <= |input|
  {
    Text(Encoded(input[i..]))
  }

  lemma TextStart(input: seq<bv8>)
    ensures Text(Encoded(input)) == TextFrom(input, 0)
  {
    hide Encoded;
    assert input[0..] == input;
  }

  lemma QuadAhead(text: seq<bv8>, p: nat, input: seq<bv8>, i: nat)
    requires i < |input| && p <= |text| && Tail(text, p) == TextFrom(input, i)
    ensures p + 4 <= |text|
    ensures text[p] == Out0(input[i])
    ensures text[p + 1] == Out1(input[i], if i + 1 < |input| then input[i + 1] else 0)
    ensures text[p + 2] ==
            if i + 1 < |input| then Out2(input[i + 1], if i + 2 < |input| then input[i + 2] else 0) else PAD
    ensures text[p + 3] == (if i + 2 < |input| then Out3(input[i + 2]) else PAD)
    ensures Tail(text, p + 4) == TextFrom(input, if i + 3 < |input| then i + 3 else |input|)
  {
    hide Encoded, Out0, Out1, Out2, Out3, Tail;
    var rest := input[i..];
    NextQuad(rest);
    var q := Encoded(rest);
    assert q == q[..4] + q[4..];
    TailStep(text, p, q[..4], q[4..]);
    assert text[p + 0] == q[0] && text[p + 1] == q[1] && text[p + 2] == q[2] && text[p + 3] == q[3];
    assert if i + 3 < |input| then rest[3..] == input[i + 3..] else input[|input|..] == [];
  }

  lemma TextEnds(text: seq<bv8>, p: nat, input: seq<bv8>)
    requires p <= |text| && Tail(text, p) == TextFrom(input, |input|)
    ensures p == |text|
  {
    EncodedNone();
    assert input[|input|..] == [];
  }

  // Whole groups only.
  method Base64EncodeFast(input: seq<bv8>, out: array<bv8>)
    requires |input| % 3 == 0 && out.Length >= |Encoded(input)|
    modifies out
    ensures out[..] == Over(Encoded(input), old(out[..]))
  {
    hide Encoded, Out0, Out1, Out2, Out3, Part, Tail, TextFrom, Over;
    ghost var start, text := out[..], Encoded(input);
    var i, inlen, outp := 0, |input|, 0;
    NothingWritten(text, start);
    TextStart(input);
    while inlen != 0
      invariant inlen % 3 == 0 && 0 <= inlen && i + inlen == |input| && 0 <= outp <= |text|
      invariant outp <= out.Length && Text(out[..]) == Part(text, outp, start) && Tail(text, outp) == TextFrom(input, i)
      decreases inlen
    {
      QuadAhead(text, outp, input, i);
      Put(out, outp, Out0(input[i]), text, start);
      Put(out, outp + 1, Out1(input[i], input[i + 1]), text, start);
      Put(out, outp + 2, Out2(input[i + 1], input[i + 2]), text, start);
      Put(out, outp + 3, Out3(input[i + 2]), text, start);
      outp := outp + 4;
      inlen := inlen - 3;
      i := i + 3;
    }
    TextEnds(text, outp, input);
    AllWritten(text, start);
  }

  // A buffer after as much of a text as fits into a length was stored in it, with a zero
  // after it if the text is shorter than the length.
  function Stored(text: seq<bv8>, buffer: seq<bv8>, outlen: nat): seq<bv8>
    requires outlen <= |buffer|
  {
    if outlen <= |text| then text[..outlen] + buffer[outlen..] else text + [0] + buffer[|text| + 1..]
  }

  lemma StoredWhole(text: seq<bv8>, buffer: seq<bv8>, outlen: nat)
    requires outlen == |text| <= |buffer|
    ensures Stored(text, buffer, outlen) == Over(text, buffer)
  {
    assert text[..outlen] == text;
  }

  // The test for the fast path: whole groups, and exactly their room.
  predicate FitsExactly(inlen: nat, outlen: nat) { outlen % 4 == 0 && inlen == outlen / 4 * 3 }

  lemma FitsText(input: seq<bv8>, outlen: nat)
    ensures FitsExactly(|input|, outlen) <==> |input| % 3 == 0 && outlen == |Encoded(input)|
  {
    hide Encoded;
    EncodedLength(input);
    if |input| % 3 == 0 {
      assert |input| == 3 * (|input| / 3);
      assert (|input| + 2) / 3 == |input| / 3;
    }
  }

  // Writes as much of the text as fits, and a zero after it if there is room.
  method Base64Encode(input: seq<bv8>, out: array<bv8>, outlen: nat)
    requires outlen <= out.Length
    modifies out
    ensures out[..] == Stored(Encoded(input), old(out[..]), outlen)
  {
    hide Encoded, Out0, Out1, Out2, Out3, Part, Tail, Stored, TextFrom, FitsExactly, Over;
    ghost var start, text := out[..], Encoded(input);
    if FitsExactly(|input|, outlen) {
      FitsText(input, outlen);
      Base64EncodeFast(input, out);
      StoredWhole(text, start, outlen);
      return;
    }
    var i, inlen, outp, room := 0, |input|, 0, outlen;
    NothingWritten(text, start);
    TextStart(input);
    while inlen != 0 && room != 0
      invariant 0 <= inlen && 0 <= i && 0 <= outp <= |text| && 0 <= room && outp + room == outlen
      invariant room > 0 ==> i + inlen == |input| && Tail(text, outp) == TextFrom(input, i)
      invariant Text(out[..]) == Part(text, outp, start)
      decreases inlen, room
    {
      QuadAhead(text, outp, input, i);
      Put(out, outp, Out0(input[i]), text, start);
      outp, room := outp + 1, room - 1;
      if room == 0 {
        break;
      }
      inlen := inlen - 1;
      Put(out, outp, Out1(input[i], if inlen != 0 then input[i + 1] else 0), text, start);
      outp, room := outp + 1, room - 1;
      if room == 0 {
        break;
      }
      if inlen != 0 {
        inlen := inlen - 1;
        Put(out, outp, Out2(input[i + 1], if inlen != 0 then input[i + 2] else 0), text, start);
      } else {
        Put(out, outp, PAD, text, start);
      }
      outp, room := outp + 1, room - 1;
      if room == 0 {
        break;
      }
      Put(out, outp, if inlen != 0 then Out3(input[i + 2]) else PAD, text, start);
      outp, room := outp + 1, room - 1;
      if room == 0 {
        break;
      }
      if inlen != 0 {
        inlen := inlen - 1;
      }
      i := if inlen != 0 then i + 3 else |input|;
    }
    if room != 0 {
      TextEnds(text, outp, input);
      StoredWithZero(text, start, outlen);
      out[outp] := 0;
    } else {
      StoredCut(text, start, outp);
    }
  }

  lemma StoredWithZero(text: seq<bv8>, start: seq<bv8>, outlen: nat)
    requires |text| < outlen <= |start|
    ensures |Part(text, |text|, start).chars| == |start|
    ensures Stored(text, start, outlen) == Part(text, |text|, start).chars[|text| := 0]
  {
    AllWritten(text, start);
  }

  lemma StoredCut(text: seq<bv8>, start: seq<bv8>, outp: nat)
    requires outp <= |text| && outp <= |start|
    ensures Text(Stored(text, start, outp)) == Part(text, outp, start)
  {
  }

  // ---- allocation ----

  // 1 + BASE64_LENGTH(inlen) in 32-bit arithmetic.
  function Size(inlen: nat): nat { (1 + (inlen + 2) % WRAP / 3 * 4 % WRAP) % WRAP }

  // The check for a result smaller than the input catches every overflow and nothing else.
  lemma OverflowIsSeen(inlen: nat)
    requires inlen < WRAP
    ensures inlen > Size(inlen) <==> 1 + (inlen + 2) / 3 * 4 >= WRAP
    ensures inlen <= Size(inlen) ==> Size(inlen) == 1 + (inlen + 2) / 3 * 4
  {
    if inlen + 2 < WRAP {
      var t := (inlen + 2) / 3;
      assert (inlen + 2) % WRAP == inlen + 2;
      if 4 * t < WRAP {
        assert 4 * t % WRAP == 4 * t && 4 * t + 1 < WRAP;
      } else {
        assert 4 * t % WRAP == 4 * t - WRAP;
      }
    }
  }

  method Base64EncodeAlloc(input: seq<bv8>, granted: bool) returns (n: nat, out: array?<bv8>)
    requires |input| < WRAP
    ensures var size := 1 + |Encoded(input)|;
            if size >= WRAP then n == 0 && out == null
            else if !granted then n == size && out == null
            else n == size - 1 && out != null && fresh(out) && out[..] == Terminated(Encoded(input))
  {
    hide Encoded, Size, Stored;
    EncodedLength(input);
    OverflowIsSeen(|input|);
    var outlen := Size(|input|);
    if |input| > outlen {
      return 0, null;
    }
    if !granted {
      return outlen, null;
    }
    out := new bv8[outlen];
    ghost var start := out[..];
    Base64Encode(input, out, outlen);
    StoredAll(Encoded(input), start);
    return outlen - 1, out;
  }

  lemma StoredAll(text: seq<bv8>, buffer: seq<bv8>)
    requires |buffer| == |text| + 1
    ensures Stored(text, buffer, |buffer|) == Terminated(text)
  {
  }
}

// The MD5 context of utilities/md5.c: words and bytes, buffered update and padding, against
// sections 3.1 to 3.5 of RFC 1321.
module Md5 {
  import opened Basics
  import opened HashBlocks
  import opened Md5Rounds

  // ---- words and bytes ----

  // The words of a string of bytes, lowest byte first.
  function Unpacked(b: seq<bv8>): (w: seq<bv32>)
    ensures |w| == |b| / 4
    decreases |b|
  {
    if |b| < 4 then [] else [LittleWord(b[0], b[1], b[2], b[3])] + Unpacked(b[4..])
  }

  lemma BytesOfWord(p: bv8, q: bv8, r: bv8, s: bv8)
    ensures Quad(LittleWord(p, q, r, s)) == [p, q, r, s]
  {
  }

  lemma {:induction false} UnpackedPacked(w: seq<bv32>)
    ensures Unpacked(Packed(w)) == w
    decreases |w|
  {
    hide ByteOf, LittleWord;
    if w != [] {
      WordOfBytes(w[0]);
      UnpackedPacked(w[1..]);
      assert Packed(w)[4..] == Packed(w[1..]);
    }
  }

  lemma {:induction false} PackedUnpacked(b: seq<bv8>)
    requires |b| % 4 == 0
    ensures Packed(Unpacked(b)) == b
    decreases |b|
  {
    hide ByteOf, LittleWord;
    if |b| >= 4 {
      BytesOfWord(b[0], b[1], b[2], b[3]);
      PackedUnpacked(b[4..]);
      var w := Unpacked(b);
      assert w[1..] == Unpacked(b[4..]);
      assert b == [b[0], b[1], b[2], b[3]] + b[4..];
    }
  }

  // The word at a place.
  function WordAt(b: seq<bv8>, p: nat): bv32
    requires p + 4 <= |b|
  {
    LittleWord(b[p], b[p + 1], b[p + 2], b[p + 3])
  }

  lemma UnpackedHead(b: seq<bv8>, n: nat)
    requires 4 <= n <= |b|
    ensures Unpacked(b[..n]) == [WordAt(b, 0)] + Unpacked(b[4..][..n - 4])
  {
    hide LittleWord;
    assert b[..n][4..] == b[4..][..n - 4];
  }

  lemma {:induction false} UnpackedMore(b: seq<bv8>, k: nat)
    requires 4 * k + 4 <= |b|
    ensures Unpacked(b[..4 * k + 4]) == Unpacked(b[..4 * k]) + [WordAt(b, 4 * k)]
    decreases k
  {
    hide LittleWord, Unpacked;
    UnpackedHead(b, 4 * k + 4);
    if k > 0 {
      UnpackedMore(b[4..], k - 1);
      UnpackedHead(b, 4 * k);
      assert WordAt(b[4..], 4 * k - 4) == WordAt(b, 4 * k);
    } else {
      UnpackedNone();
      assert b[4..][..0] == [] && b[..0] == [];
    }
  }

  lemma UnpackedNone()
    ensures Unpacked([]) == []
  {
  }

  // Writes words as bytes.
  method Encode(output: array<bv8>, input: seq<bv32>, len: nat)
    requires len % 4 == 0 && len <= 4 * |input| && len <= output.Length
    modifies output
    ensures output[..] == Replaced(old(output[..]), 0, Packed(input[..len / 4]))
  {
    hide ByteOf, Packed, Replaced;
    ghost var before := output[..];
    assert input[..0] == [];
    PackedNone();
    ReplacedNone(before, 0);
    var i, j := 0, 0;
    while j < len
      invariant j == 4 * i && 0 <= i <= len / 4 <= |input|
      invariant output[..] == Replaced(before, 0, Packed(input[..i]))
      decreases len - j
    {
      ghost var now := output[..];
      PackedMore(input, i);
      ReplacedMore(before, 0, Packed(input[..i]), Quad(input[i]));
      output[j] := ByteOf(input[i], 0);
      output[j + 1] := ByteOf(input[i], 1);
      output[j + 2] := ByteOf(input[i], 2);
      output[j + 3] := ByteOf(input[i], 3);
      assert output[..] ==
             now[j := ByteOf(input[i], 0)][j + 1 := ByteOf(input[i], 1)]
                [j + 2 := ByteOf(input[i], 2)][j + 3 := ByteOf(input[i], 3)];
      i, j := i + 1, j + 4;
    }
  }

  lemma PackedNone()
    ensures Packed([]) == []
  {
  }

  // Reads bytes as words.
  method Decode(output: array<bv32>, input: array<bv8>, at: nat, len: nat)
    requires len % 4 == 0 && len <= 4 * output.Length && at + len <= input.Length
    modifies output
    ensures output[..len / 4] == Unpacked(input[at..at + len])
  {
    hide LittleWord, Unpacked;
    ghost var b := input[at..at + len];
    UnpackedNone();
    assert b[..0] == [] && output[..0] == [];
    ghost var words := len / 4;
    var i, j := 0, 0;
    while j < len
      invariant j == 4 * i && 0 <= i <= words <= output.Length && 4 * words == len
      invariant output[..i] == Unpacked(b[..j])
      decreases len - j
    {
      ghost var now := output[..i];
      UnpackedMore(b, i);
      output[i] := LittleWord(input[at + j], input[at + j + 1], input[at + j + 2], input[at + j + 3]);
      assert output[..i + 1] == now + [WordAt(b, j)];
      i, j := i + 1, j + 4;
    }
    assert b[..len] == b;
  }

  // ---- one block ----

  function Compress(h: Four, block: Block): Four { Digested(h, Unpacked(block)) }

  function AsFour(s: seq<bv32>): Four
    requires |s| == 4
  {
    Four(s[0], s[1], s[2], s[3])
  }

  method AddTo(state: array<bv32>, r: Four)
    requires state.Length == 4
    modifies state
    ensures AsFour(state[..]) == Plus(old(AsFour(state[..])), r)
  {
    hide Sum;
    state[0] := Sum(state[0], r.a);
    state[1] := Sum(state[1], r.b);
    state[2] := Sum(state[2], r.c);
    state[3] := Sum(state[3], r.d);
  }

  method MD5Transform(state: array<bv32>, block: array<bv8>, at: nat)
    requires state.Length == 4 && at + 64 <= block.Length
    modifies state
    ensures AsFour(state[..]) == Compress(old(AsFour(state[..])), block[at..at + 64])
  {
    hide Rows, Plus, Unpacked, AsFour;
    var h := AsFour(state[..]);
    var x := new bv32[16];
    Decode(x, block, at, 64);
    assert x[..16] == x[..];
    var r := AllRows(h, x[..]);
    AddTo(state, r);
  }

  // ---- the context ----

  const START := Four(0x67452301, 0xefcdab89, 0x98badcfe, 0x10325476)

  // The whole blocks from a place on.
  method TransformAll(state: array<bv32>, input: array<bv8>, start: nat, len: nat) returns (i: nat)
    requires state.Length == 4 && start <= len <= input.Length && start <= 64 && 64 - start + len < WRAP
    modifies state
    ensures start <= i <= len
    ensures AsFour(state[..]) == Absorbed(Compress, old(AsFour(state[..])), input[start..len])
    ensures input[i..len] == Waiting(input[start..len])
  {
    hide Absorbed, Waiting, Wrapped, AsFour, Compress;
    ghost var d := input[..];
    ghost var goal, rest := Absorbed(Compress, AsFour(state[..]), d[start..len]), Waiting(d[start..len]);
    i := start;
    ghost var n := 0;
    NoWrap(i + 63);
    while Wrapped(i + 63) < len
      invariant start <= i <= len && i == start + 64 * n && Wrapped(i + 63) == i + 63
      invariant Absorbed(Compress, AsFour(state[..]), d[i..len]) == goal && Waiting(d[i..len]) == rest
      decreases len - i
    {
      NextBlock(Compress, AsFour(state[..]), d, i, len);
      assert d[i..i + 64] == input[i..i + 64];
      MD5Transform(state, input, i);
      i := i + 64;
      n := n + 1;
      TestBelow(start, len, n);
      NoWrap(i + 63);
    }
    NoBlock(Compress, AsFour(state[..]), d[i..len]);
    assert d[start..len] == input[start..len] && d[i..len] == input[i..len];
  }

  // The part of an update that moves bytes: what waits and the input go into the state
  // block by block, and the rest waits.
  method Feed(state: array<bv32>, buffer: array<bv8>, input: array<bv8>, at: nat, len: nat, ghost w: seq<bv8>)
    requires state.Length == 4 && buffer.Length == 64 && input != buffer
    requires at == |w| < 64 && buffer[..at] == w && len <= input.Length && at + len < WRAP
    modifies state, buffer
    ensures AsFour(state[..]) == Absorbed(Compress, old(AsFour(state[..])), w + input[..len])
    ensures Keeps(buffer[..], w + input[..len])
  {
    hide Absorbed, Waiting, Wrapped, Replaced, AsFour, Compress, Keeps;
    ghost var d, s := input[..len], AsFour(state[..]);
    var i, index := 0, at;
    var partLen := 64 - index;
    if len >= partLen {
      FullAfterCopy(buffer[..], index, input[0..0 + partLen]);
      assert input[0..0 + partLen] == d[..partLen];
      Copy(buffer, index, input, 0, partLen);
      assert buffer[..] == w + d[..partLen];
      assert buffer[0..0 + 64] == w + d[..partLen];
      Filled(Compress, s, w, d, partLen);
      MD5Transform(state, buffer, 0);
      assert AsFour(state[..]) == Compress(s, w + d[..partLen]);
      assert input[partLen..len] == d[partLen..];
      i := TransformAll(state, input, partLen, len);
      index := 0;
      assert Waiting(w + d) == buffer[..][..index] + input[i..i + (len - i)];
    } else {
      FewMore(Compress, s, w, d);
      assert Waiting(w + d) == buffer[..][..index] + input[i..i + (len - i)];
    }
    KeepsAfterCopy(buffer[..], index, input[i..i + (len - i)], w + d);
    Copy(buffer, index, input, i, len - i);
  }

  // The number of bits as two words, low word first.
  function LengthBytes(length: nat): (q: seq<bv8>)
    ensures |q| == 8
  {
    Packed([Word(Low(length)), Word(High(length))])
  }

  function Output(h: Four): (q: seq<bv8>)
    ensures |q| == 16
  {
    Packed([h.a, h.b, h.c, h.d])
  }

  // Sections 3.1 to 3.5 of RFC 1321.
  function Digest(m: seq<bv8>): seq<bv8> {
    Output(Absorbed(Compress, START, m + Padding(|m|, LengthBytes(|m|))))
  }

  class Context {
    const state: array<bv32>
    const buffer: array<bv8>
    var count0: nat
    var count1: nat
    ghost var message: seq<bv8>

    ghost predicate Valid()
      reads this, state, buffer
    {
      && state.Length == 4 && buffer.Length == 64
      && AsFour(state[..]) == Absorbed(Compress, START, message)
      && Keeps(buffer[..], message)
      && count0 == Low(|message|) && count1 == High(|message|)
    }

    constructor MD5Init()
      ensures Valid() && message == [] && fresh(state) && fresh(buffer)
    {
      state := new bv32[4][0x67452301, 0xefcdab89, 0x98badcfe, 0x10325476];
      buffer := new bv8[64];
      count0, count1 := 0, 0;
      message := [];
    }

    method MD5Update(input: array<bv8>, inputLen: nat)
      requires Valid() && input != buffer && inputLen <= input.Length && |Waiting(message)| + inputLen < WRAP
      modifies this, state, buffer
      ensures Valid() && message == old(message) + input[..inputLen]
    {
      hide Absorbed, Waiting, Low, High, AsFour, Keeps, Index;
      ghost var m, d := message, input[..inputLen];
      AbsorbMore(Compress, START, m, d);
      IndexIs(m);
      KeepsIs(buffer[..], m);
      var index := Index(count0);
      count0, count1 := CountUp(count0, count1, inputLen, |m|);
      message := m + d;
      Feed(state, buffer, input, index, inputLen, Waiting(m));
      KeepsSame(buffer[..], Waiting(m) + d, message);
    }

    // Pads the message and gives its digest.
    method MD5Final(digest: array<bv8>)
      requires Valid() && digest.Length >= 16 && digest != buffer
      modifies this, state, buffer, digest
      ensures digest[..16] == Digest(old(message))
      ensures buffer[..] == Zeros(64) && state[..] == [0, 0, 0, 0] && count0 == 0 && count1 == 0
    {
      hide Low, High, Index, AsFour, Keeps, Absorbed, Packed, Padding, Waiting, Gap, Zeros, Word, PadLen, Replaced,
          Output, LengthBytes;
      ghost var m := message;
      var bits, padding := new bv8[8], new bv8[64](k => if k == 0 then 0x80 else 0);
      ghost var bits0 := bits[..];
      Encode(bits, [Word(count0), Word(count1)], 8);
      BitsAre(bits0, |m|);
      assert bits[..8] == LengthBytes(|m|);
      IndexOf56(m);
      var index := Index(count0);
      var padLen := PadLen(index);
      PadLenIs(|m|);
      PaddingBytes(padding[..], padLen);
      MD5Update(padding, padLen);
      MD5Update(bits, 8);
      PaddingIs(|m|, LengthBytes(|m|));
      assert message == m + Padding(|m|, LengthBytes(|m|));
      OutputIs(digest[..], state[..]);
      Encode(digest, state[..], 16);
      Wipe(digest);
    }

    // MD5_memset over the whole context.
    method Wipe(digest: array<bv8>)
      requires buffer.Length == 64 && state.Length == 4 && digest != buffer
      modifies buffer, state, this`count0, this`count1
      ensures buffer[..] == Zeros(64) && state[..] == [0, 0, 0, 0] && count0 == 0 && count1 == 0
    {
      forall k | 0 <= k < 64 { buffer[k] := 0; }
      forall k | 0 <= k < 4 { state[k] := 0; }
      count0, count1 := 0, 0;
    }
  }

  lemma BitsAre(before: seq<bv8>, length: nat)
    requires |before| == 8
    ensures var w := [Word(Low(length)), Word(High(length))];
            Replaced(before, 0, Packed(w[..8 / 4]))[..8] == LengthBytes(length)
  {
    hide Packed;
    var w := [Word(Low(length)), Word(High(length))];
    assert w[..8 / 4] == w;
  }

  lemma OutputIs(before: seq<bv8>, state: seq<bv32>)
    requires |before| >= 16 && |state| == 4
    ensures Replaced(before, 0, Packed(state[..16 / 4]))[..16] == Output(AsFour(state))
  {
    hide Packed;
    assert state[..16 / 4] == [state[0], state[1], state[2], state[3]];
  }

  // Out to 56 modulo 64.
  function PadLen(index: nat): nat
    requires index < 64
  {
    if index < 56 then 56 - index else 120 - index
  }

  lemma PadLenIs(length: nat)
    ensures PadLen(length % 64) == 1 + Gap(length) <= 64
  {
  }

  lemma PaddingBytes(padding: seq<bv8>, n: nat)
    requires |padding| == 64 && 1 <= n <= 64
    requires forall k :: 0 <= k < 64 ==> padding[k] == if k == 0 then 0x80 else 0
    ensures padding[..n] == [0x80] + Zeros(n - 1)
  {
  }
}

// The SHA-1 context of sources/httpd/sha1.c: the transform on a block in memory, buffered
// update and padding, against section 4 and section 6.1 of RFC 3174.
module Sha1 {
  import opened Basics
  import opened HashBlocks
  import opened Sha1Rounds

  // ---- one block ----

  function Compress(h: Five, block: Block): Five { Digested(h, Meant(block)) }

  // What the transform leaves in the block: the last sixteen words of the schedule.
  function LeftBehind(block: Block): (b: Block) {
    Packed(Circular(Raw(block), Meant(block), 80))
  }

  function AsFive(s: seq<bv32>): Five
    requires |s| == 5
  {
    Five(s[0], s[1], s[2], s[3], s[4])
  }

  lemma BlockIsTurned(block: Block)
    ensures Turned(Raw(block), Meant(block))
  {
    hide Swapped, LittleWord, BigWord;
    forall k | 0 <= k < 16 ensures Meant(block)[k] == Swapped(Raw(block)[k]) {
      MeantIsSwapped(block, k);
    }
  }

  // Reads the bytes as words.
  method Load(buffer: array<bv8>, at: nat) returns (l: array<bv32>)
    requires at + 64 <= buffer.Length
    ensures fresh(l) && l.Length == 16 && l[..] == Raw(buffer[at..at + 64])
  {
    hide LittleWord;
    ghost var block := buffer[at..at + 64];
    l := new bv32[16](k requires 0 <= k < 16 && at + 64 <= buffer.Length reads buffer =>
      LittleWord(buffer[at + 4 * k], buffer[at + 4 * k + 1], buffer[at + 4 * k + 2], buffer[at + 4 * k + 3]));
    forall k | 0 <= k < 16 ensures l[k] == Raw(block)[k] {
    }
    assert l[..] == Raw(block);
  }

  // The lowest byte of each word first.
  method Store(l: array<bv32>, buffer: array<bv8>, at: nat)
    requires l.Length == 16 && at + 64 <= buffer.Length
    modifies buffer
    ensures buffer[..] == Replaced(old(buffer[..]), at, Packed(l[..]))
  {
    hide ByteOf, Replaced, Packed;
    ghost var before := buffer[..];
    PackedMore(l[..], 0);
    ReplacedNone(before, at);
    for k := 0 to 16
      invariant buffer[..] == Replaced(before, at, Packed(l[..][..k]))
    {
      ghost var now := buffer[..];
      PackedMore(l[..], k);
      var x := l[k];
      ReplacedMore(before, at, Packed(l[..][..k]), Quad(x));
      var p := at + 4 * k;
      buffer[p] := ByteOf(x, 0);
      buffer[p + 1] := ByteOf(x, 1);
      buffer[p + 2] := ByteOf(x, 2);
      buffer[p + 3] := ByteOf(x, 3);
      assert buffer[..] == now[p := ByteOf(x, 0)][p + 1 := ByteOf(x, 1)][p + 2 := ByteOf(x, 2)][p + 3 := ByteOf(x, 3)];
    }
    PackedMore(l[..], 15);
  }

  method AddTo(state: array<bv32>, r: Five)
    requires state.Length == 5
    modifies state
    ensures AsFive(state[..]) == Plus(old(AsFive(state[..])), r)
  {
    hide Sum;
    state[0] := Sum(state[0], r.a);
    state[1] := Sum(state[1], r.b);
    state[2] := Sum(state[2], r.c);
    state[3] := Sum(state[3], r.d);
    state[4] := Sum(state[4], r.e);
  }

  lemma LeftBehindIs(block: Block)
    ensures Memory(Circular(Raw(block), Meant(block), 80)) == Schedule(Raw(block), Meant(block), 80)
    ensures LeftBehind(block) == Packed(Circular(Raw(block), Meant(block), 80))
  {
    hide Raw, Meant, Circular, Packed;
  }

  lemma CompressIs(h: Five, block: Block)
    ensures Compress(h, block) == Plus(h, Rounds(Meant(block), 80, h))
  {
    hide Meant, Rounds, Plus;
  }

  method SHA1Transform(state: array<bv32>, buffer: array<bv8>, at: nat)
    requires state.Length == 5 && at + 64 <= buffer.Length
    modifies state, buffer
    ensures AsFive(state[..]) == Compress(old(AsFive(state[..])), old(buffer[at..at + 64]))
    ensures buffer[..] == Replaced(old(buffer[..]), at, LeftBehind(old(buffer[at..at + 64])))
  {
    hide Raw, Meant, Circular, Turned, Rounds, Replaced, Packed, Schedule, LeftBehind, Compress, Plus, AsFive;
    ghost var block := buffer[at..at + 64];
    var h := AsFive(state[..]);
    var l := Load(buffer, at);
    BlockIsTurned(block);
    LeftBehindIs(block);
    CompressIs(h, block);
    var r := EightyRounds(l, h, Raw(block), Meant(block));
    Store(l, buffer, at);
    AddTo(state, r);
  }

  // ---- the context ----

  const START := Five(0x67452301, 0xEFCDAB89, 0x98BADCFE, 0x10325476, 0xC3D2E1F0)

  // Data after its whole blocks from i on were transformed where they lie.
  function Used(data: seq<bv8>, i: nat, len: nat): (r: seq<bv8>)
    requires len <= |data|
    ensures |r| == |data|
    decreases len - i
  {
    if i + 64 <= len then Used(Replaced(data, i, LeftBehind(data[i..i + 64])), i + 64, len) else data
  }

  // One more block, and then the rest.
  lemma UsedStep(data: seq<bv8>, i: nat, len: nat, s: Five)
    requires i + 64 <= len <= |data|
    ensures var next := Replaced(data, i, LeftBehind(data[i..i + 64]));
            && Used(data, i, len) == Used(next, i + 64, len)
            && next[i + 64..] == data[i + 64..]
            && Absorbed(Compress, s, data[i..len])
                == Absorbed(Compress, Compress(s, data[i..i + 64]), next[i + 64..len])
            && Waiting(data[i..len]) == Waiting(next[i + 64..len])
  {
    hide Compress, Absorbed, Waiting, LeftBehind;
    var next := Replaced(data, i, LeftBehind(data[i..i + 64]));
    OneBlock(Compress, s, data[i..i + 64], data[i + 64..len]);
    assert data[i..len] == data[i..i + 64] + data[i + 64..len];
    assert next[i + 64..] == data[i + 64..];
    assert next[i + 64..len] == next[i + 64..][..len - i - 64] == data[i + 64..][..len - i - 64] == data[i + 64..len];
  }

  lemma UsedEnds(data: seq<bv8>, i: nat, len: nat, s: Five)
    requires i <= len <= |data| && len < i + 64
    ensures Used(data, i, len) == data && Absorbed(Compress, s, data[i..len]) == s
            && Waiting(data[i..len]) == data[i..len]
  {
    hide Compress, LeftBehind;
    NoBlock(Compress, s, data[i..len]);
  }

  // The whole blocks from a place on.
  method TransformAll(state: array<bv32>, data: array<bv8>, start: nat, len: nat) returns (i: nat)
    requires state.Length == 5 && start <= len <= data.Length && start <= 64 && 64 - start + len < WRAP
    modifies state, data
    ensures start <= i <= len < i + 64
    ensures AsFive(state[..]) == Absorbed(Compress, old(AsFive(state[..])), old(data[start..len]))
    ensures data[i..len] == Waiting(old(data[start..len]))
    ensures data[..] == Used(old(data[..]), start, len)
  {
    hide Absorbed, Waiting, Wrapped, Used, Replaced, LeftBehind, AsFive, Compress;
    ghost var goal, rest, end := Absorbed(Compress, AsFive(state[..]), data[start..len]), Waiting(data[start..len]),
        Used(data[..], start, len);
    i := start;
    ghost var n := 0;
    NoWrap(i + 63);
    while Wrapped(i + 63) < len
      invariant start <= i <= len && i == start + 64 * n && Wrapped(i + 63) == i + 63
      invariant Absorbed(Compress, AsFive(state[..]), data[i..len]) == goal
      invariant Waiting(data[i..len]) == rest
      invariant Used(data[..], i, len) == end
      decreases len - i
    {
      ghost var now := data[..];
      assert now[i..len] == data[i..len] && now[i..i + 64] == data[i..i + 64];
      UsedStep(now, i, len, AsFive(state[..]));
      SHA1Transform(state, data, i);
      i := i + 64;
      n := n + 1;
      assert data[..][i..len] == data[i..len];
      TestBelow(start, len, n);
      NoWrap(i + 63);
    }
    assert data[..][i..len] == data[i..len];
    UsedEnds(data[..], i, len, AsFive(state[..]));
  }

  // The part of an update that moves bytes: what waits and the data go into the state block
  // by block, and the rest waits.
  method Feed(state: array<bv32>, buffer: array<bv8>, data: array<bv8>, at: nat, len: nat, ghost w: seq<bv8>)
    requires state.Length == 5 && buffer.Length == 64 && data != buffer
    requires at == |w| < 64 && buffer[..at] == w && len <= data.Length && at + len < WRAP
    modifies state, buffer, data
    ensures AsFive(state[..]) == Absorbed(Compress, old(AsFive(state[..])), w + old(data[..len]))
    ensures Keeps(buffer[..], w + old(data[..len]))
    ensures data[..] == if at + len > 63 then Used(old(data[..]), 64 - at, len) else old(data[..])
  {
    hide Absorbed, Waiting, Wrapped, Used, Replaced, LeftBehind, AsFive, Compress, Keeps;
    ghost var d, s := data[..len], AsFive(state[..]);
    var i, j := 0, at;
    NoWrap(j + len);
    if Wrapped(j + len) > 63 {
      i := 64 - j;
      FullAfterCopy(buffer[..], j, data[0..0 + i]);
      assert data[0..0 + i] == d[..i];
      Copy(buffer, j, data, 0, i);
      assert buffer[..] == w + d[..i];
      assert buffer[0..0 + 64] == w + d[..i];
      Filled(Compress, s, w, d, i);
      SHA1Transform(state, buffer, 0);
      assert AsFive(state[..]) == Compress(s, w + d[..i]);
      assert data[i..len] == d[i..];
      i := TransformAll(state, data, i, len);
      j := 0;
      assert Waiting(w + d) == buffer[..][..j] + data[i..i + (len - i)];
    } else {
      FewMore(Compress, s, w, d);
      assert Waiting(w + d) == buffer[..][..j] + data[i..i + (len - i)];
    }
    KeepsAfterCopy(buffer[..], j, data[i..i + (len - i)], w + d);
    Copy(buffer, j, data, i, len - i);
  }

  // ---- the digest ----

  // A word, highest byte first.
  function Big(x: bv32): (q: seq<bv8>)
    ensures |q| == 4
  {
    [ByteOf(x, 3), ByteOf(x, 2), ByteOf(x, 1), ByteOf(x, 0)]
  }

  // The number of bits as two words, high word first.
  function LengthBytes(length: nat): (q: seq<bv8>)
    ensures |q| == 8
  {
    Big(Word(High(length))) + Big(Word(Low(length)))
  }

  function Output(h: Five): (q: seq<bv8>)
    ensures |q| == 20
  {
    Big(h.a) + Big(h.b) + Big(h.c) + Big(h.d) + Big(h.e)
  }

  // Section 4 and section 6.1 of RFC 3174.
  function Digest(m: seq<bv8>): seq<bv8> {
    Output(Absorbed(Compress, START, m + Padding(|m|, LengthBytes(|m|))))
  }

  lemma BigAt(x: bv32, k: nat)
    requires k < 4
    ensures Big(x)[k] == ByteOf(x, 3 - k)
  {
    hide ByteOf;
  }

  lemma Place(i: nat)
    requires i < 20
    ensures i / 4 < 5 && i % 4 == i - i / 4 * 4
    ensures i >= 4 <==> i / 4 >= 1
  {
  }

  lemma LengthByteAt(length: nat, i: nat)
    requires i < 8
    ensures LengthBytes(length)[i] == ByteOf(if i >= 4 then Word(Low(length)) else Word(High(length)), 3 - i % 4)
  {
    hide ByteOf, Big, Word, Low, High;
    Place(i);
    if i < 4 { BigAt(Word(High(length)), i); } else { BigAt(Word(Low(length)), i - 4); }
  }

  lemma OutputAt(state: seq<bv32>, i: nat)
    requires |state| == 5 && i < 20
    ensures Output(AsFive(state))[i] == ByteOf(state[i / 4], 3 - i % 4)
  {
    hide ByteOf, Big;
    Place(i);
    BigAt(state[i / 4], i % 4);
    match i / 4
    case 0 =>
    case 1 =>
    case 2 =>
    case 3 =>
    case _ =>
  }

  lemma UsedFew(data: seq<bv8>, i: nat, len: nat)
    requires len <= |data| && len < 64
    ensures Used(data, i, len) == data
  {
  }

  class Context {
    const state: array<bv32>
    const buffer: array<bv8>
    var count0: nat
    var count1: nat
    ghost var message: seq<bv8>

    ghost predicate Valid()
      reads this, state, buffer
    {
      && state.Length == 5 && buffer.Length == 64
      && AsFive(state[..]) == Absorbed(Compress, START, message)
      && Keeps(buffer[..], message)
      && count0 == Low(|message|) && count1 == High(|message|)
    }

    constructor SHA1Init()
      ensures Valid() && message == [] && fresh(state) && fresh(buffer)
    {
      state := new bv32[5][0x67452301, 0xEFCDAB89, 0x98BADCFE, 0x10325476, 0xC3D2E1F0];
      buffer := new bv8[64];
      count0, count1 := 0, 0;
      message := [];
    }

    method SHA1Update(data: array<bv8>, len: nat)
      requires Valid() && data != buffer && len <= data.Length && |Waiting(message)| + len < WRAP
      modifies this, state, buffer, data
      ensures Valid() && message == old(message + data[..len])
      ensures var j := |old(Waiting(message))|;
              data[..] == if j + len > 63 then Used(old(data[..]), 64 - j, len) else old(data[..])
    {
      hide Absorbed, Waiting, Low, High, Used, AsFive, Keeps, Index;
      ghost var m, d := message, data[..len];
      AbsorbMore(Compress, START, m, d);
      IndexIs(m);
      KeepsIs(buffer[..], m);
      var j := Index(count0);
      count0, count1 := CountUp(count0, count1, len, |m|);
      message := m + d;
      Feed(state, buffer, data, j, len, Waiting(m));
      KeepsSame(buffer[..], Waiting(m) + d, message);
    }

    // Pads the message a byte at a time and gives its digest.
    method SHA1Final(digest: array<bv8>)
      requires Valid() && digest.Length >= 20 && digest != buffer
      modifies this, state, buffer, digest
      ensures digest[..20] == Digest(old(message))
      ensures buffer[..] == Zeros(64) && state[..] == [0, 0, 0, 0, 0] && count0 == 0 && count1 == 0
    {
      hide Low, High, AsFive, Keeps, Absorbed, LengthBytes, Output, Padding, Used, Waiting;
      ghost var m := message;
      var finalcount := FinalCount();
      PadTo56();
      PaddingIs(|m|, LengthBytes(|m|));
      ghost var padded := m + Padding(|m|, LengthBytes(|m|));
      SHA1Update(finalcount, 8);
      assert message == padded;
      Write(digest);
      Wipe(digest);
    }

    // The memsets at the end, for whatever the digest was written to.
    method Wipe(digest: array<bv8>)
      requires buffer.Length == 64 && state.Length == 5 && digest != buffer
      modifies buffer, state, this`count0, this`count1
      ensures buffer[..] == Zeros(64) && state[..] == [0, 0, 0, 0, 0] && count0 == 0 && count1 == 0
    {
      forall k | 0 <= k < 64 { buffer[k] := 0; }
      forall k | 0 <= k < 5 { state[k] := 0; }
      count0, count1 := 0, 0;
    }

    // One padding byte, and zeros until eight bytes are left in the block.
    method PadTo56()
      requires Valid()
      modifies this, state, buffer
      ensures Valid() && message == old(message) + [0x80] + Zeros(Gap(old(|message|)))
    {
      hide Low, High, Index, AsFive, Keeps, Absorbed, Used, Gap, Waiting, Zeros;
      ghost var m := message;
      var one, zero := new bv8[1][0x80], new bv8[1][0];
      SHA1Update(one, 1);
      ghost var n := 0;
      GapFits(|m|);
      ZerosStep(0);
      assert message == m + [0x80] + Zeros(0);
      while Index(count0) != 56
        invariant Valid() && zero[..] == [0] && n <= Gap(|m|)
        invariant message == m + [0x80] + Zeros(n)
        decreases Gap(|m|) - n
      {
        IndexOf56(message);
        UsedFew(zero[..], 64 - |Waiting(message)|, 1);
        SHA1Update(zero, 1);
        ZerosStep(n);
        n := n + 1;
      }
      IndexOf56(message);
      GapReached(|m|, n);
    }

    method Write(digest: array<bv8>)
      requires Valid() && digest.Length >= 20 && digest != buffer
      modifies digest
      ensures digest[..20] == Output(Absorbed(Compress, START, message))
    {
      hide AsFive, Keeps, Absorbed, Output, ByteOf;
      for i := 0 to 20
        invariant Valid() && digest[..i] == Output(AsFive(state[..]))[..i]
      {
        OutputAt(state[..], i);
        digest[i] := ByteOf(state[i / 4], 3 - i % 4);
      }
    }

    method FinalCount() returns (finalcount: array<bv8>)
      requires Valid()
      ensures fresh(finalcount) && finalcount[..] == LengthBytes(|message|)
    {
      hide Low, High, ByteOf, AsFive, Keeps, Absorbed, LengthBytes, Word;
      finalcount := new bv8[8];
      for i := 0 to 8
        invariant finalcount[..i] == LengthBytes(|message|)[..i]
      {
        LengthByteAt(|message|, i);
        finalcount[i] := ByteOf(if i >= 4 then Word(count0) else Word(count1), 3 - i % 4);
      }
    }
  }
}

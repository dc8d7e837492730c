// What SHA1_Update (sources/httpd/sha1.c) does to the data it is given: SHA1_Transform
// expands its schedule in the block it reads, so whole blocks of the caller are written over.
module Sha1Overwrites {
  import opened HashBlocks
  import opened Sha1Rounds
  import opened Sha1

  // ---- when data survives ----

  // The whole block at place p comes out as it was.
  predicate Survives(data: seq<bv8>, p: nat) {
    p + 64 <= |data| ==> LeftBehind(data[p..p + 64]) == data[p..p + 64]
  }

  ghost predicate AllSurvive(data: seq<bv8>, i: nat, len: nat) {
    forall k: nat :: i + 64 * k + 64 <= len ==> Survives(data, i + 64 * k)
  }

  // Outside the whole blocks nothing is touched.
  lemma {:induction false} UsedElsewhere(data: seq<bv8>, i: nat, len: nat)
    requires i <= len <= |data|
    ensures Used(data, i, len)[..i] == data[..i]
    ensures Used(data, i, len)[len..] == data[len..]
    decreases len - i
  {
    hide LeftBehind;
    if i + 64 <= len {
      var next := Replaced(data, i, LeftBehind(data[i..i + 64]));
      UsedElsewhere(next, i + 64, len);
      assert Used(data, i, len)[..i] == Used(next, i + 64, len)[..i + 64][..i];
      assert next[..i + 64][..i] == data[..i];
      assert next[len..] == data[len..];
    }
  }

  function BlockAt(data: seq<bv8>, p: nat): Block
    requires p + 64 <= |data|
  {
    data[p..p + 64]
  }

  // Whole blocks one by one are replaced by what the transform leaves behind.
  lemma {:induction false} UsedBlock(data: seq<bv8>, i: nat, len: nat, k: nat)
    requires i + 64 * k + 64 <= len <= |data|
    ensures BlockAt(Used(data, i, len), i + 64 * k) == LeftBehind(BlockAt(data, i + 64 * k))
    decreases k
  {
    hide LeftBehind;
    var next := Replaced(data, i, LeftBehind(data[i..i + 64]));
    if k == 0 {
      UsedElsewhere(next, i + 64, len);
      assert Used(data, i, len)[i..i + 64] == Used(next, i + 64, len)[..i + 64][i..];
      assert next[..i + 64][i..] == LeftBehind(data[i..i + 64]);
    } else {
      UsedBlock(next, i + 64, len, k - 1);
      var p := i + 64 * k;
      assert next[p..p + 64] == data[p..p + 64];
    }
  }

  // The caller's data is as it was exactly if every whole block from i on is one that the
  // transform leaves as it was.
  lemma {:induction false} UntouchedIf(data: seq<bv8>, i: nat, len: nat)
    requires i <= len <= |data|
    ensures Used(data, i, len) == data <==> AllSurvive(data, i, len)
    decreases len - i
  {
    hide LeftBehind;
    if Used(data, i, len) == data {
      forall k: nat | i + 64 * k + 64 <= len ensures Survives(data, i + 64 * k) { UsedBlock(data, i, len, k); }
    }
    if AllSurvive(data, i, len) && i + 64 <= len {
      assert Survives(data, i + 64 * 0);
      var block := data[i..i + 64];
      assert Replaced(data, i, block) == data;
      forall k: nat | i + 64 + 64 * k + 64 <= len ensures Survives(data, i + 64 + 64 * k) {
        assert Survives(data, i + 64 * (k + 1));
      }
      UntouchedIf(data, i + 64, len);
    }
  }

  // What a caller can tell beforehand: with fewer than 128 bytes waiting and new together
  // nothing of the data is written over.
  lemma FewAreUntouched(data: seq<bv8>, at: nat, len: nat)
    requires at < 64 && len <= |data| && at + len < 128
    ensures 64 - at <= len ==> Used(data, 64 - at, len) == data
  {
    hide LeftBehind;
    if 64 - at <= len { UntouchedIf(data, 64 - at, len); }
  }

  // ---- blocks that do not survive ----

  // The block whose words in memory are w, and what those words mean.
  function Turn(w: Words): Words { seq(16, k requires 0 <= k < 16 => Swapped(w[k])) }

  lemma {:induction false} PackedAt(w: seq<bv32>, k: nat, j: nat)
    requires k < |w| && j < 4
    ensures Packed(w)[4 * k + j] == ByteOf(w[k], j)
    decreases k
  {
    hide ByteOf;
    if k > 0 {
      PackedAt(w[1..], k - 1, j);
      assert Packed(w)[4..] == Packed(w[1..]);
    }
  }

  lemma RawPacked(w: Words)
    ensures Raw(Packed(w)) == w
  {
    hide ByteOf, LittleWord, Packed;
    forall k | 0 <= k < 16 ensures Raw(Packed(w))[k] == w[k] {
      PackedAt(w, k, 0);
      PackedAt(w, k, 1);
      PackedAt(w, k, 2);
      PackedAt(w, k, 3);
      WordOfBytes(w[k]);
    }
  }

  lemma MeantPacked(w: Words)
    ensures Meant(Packed(w)) == Turn(w)
  {
    hide Raw, Packed, Swapped, BigWord;
    RawPacked(w);
    forall k | 0 <= k < 16 ensures Meant(Packed(w))[k] == Turn(w)[k] { MeantIsSwapped(Packed(w), k); }
  }

  // A block survives exactly if the last sixteen words of the schedule are its own words.
  lemma SurvivesIf(w: Words)
    ensures LeftBehind(Packed(w)) == Packed(w) <==> forall k :: 0 <= k < 16 ==> W(Turn(w), 64 + k) == w[k]
  {
    hide W, Raw, Meant, Packed, Turn;
    RawPacked(w);
    MeantPacked(w);
    var c := Circular(w, Turn(w), 80);
    RawPacked(c);
    forall k | 0 <= k < 16 ensures c[k] == W(Turn(w), 64 + k) { LastSlot(w, Turn(w), k); }
    if forall k :: 0 <= k < 16 ==> W(Turn(w), 64 + k) == w[k] { assert c == w; }
  }

  lemma LastSlot(raw: Words, m: Words, k: nat)
    requires k < 16
    ensures Circular(raw, m, 80)[k] == W(m, 64 + k)
  {
    hide W;
    assert (79 - k) % 16 == 15 - k;
  }

  // In a block of which every word is all ones or all zeros every word of the schedule is:
  // turning and rotating do nothing to it, and what is left is a recurrence of bits.
  function Flat(b: bool): bv32 { if b then 0xFFFF_FFFF else 0 }

  function Bit(t: nat): bool {
    if t < 16 then t == 0 else ((Bit(t - 3) != Bit(t - 8)) != Bit(t - 14)) != Bit(t - 16)
  }

  lemma FlatStays(a: bool, b: bool, c: bool, d: bool)
    ensures Rol1(Xor(Xor(Xor(Flat(a), Flat(b)), Flat(c)), Flat(d))) == Flat(((a != b) != c) != d)
    ensures Swapped(Flat(a)) == Flat(a)
  {
  }

  // The block of four bytes 0xFF and sixty zeros, as words.
  const FOUR_SET: Words := seq(16, k => Flat(k == 0))

  lemma FlatStart(t: nat)
    requires t < 16
    ensures Turn(FOUR_SET)[t] == Flat(t == 0) && FOUR_SET[t] == Flat(t == 0)
  {
    hide Rol1, Xor, Swapped, Flat;
    FlatStays(t == 0, false, false, false);
  }

  lemma FlatStep(m: Words, t: nat)
    requires t >= 16
    requires W(m, t - 3) == Flat(Bit(t - 3)) && W(m, t - 8) == Flat(Bit(t - 8))
    requires W(m, t - 14) == Flat(Bit(t - 14)) && W(m, t - 16) == Flat(Bit(t - 16))
    ensures W(m, t) == Flat(Bit(t))
  {
    hide Rol1, Xor, Flat, W;
    FlatStays(Bit(t - 3), Bit(t - 8), Bit(t - 14), Bit(t - 16));
    WordOfSchedule(m, t);
  }

  lemma {:induction false} FlatSchedule(t: nat)
    ensures W(Turn(FOUR_SET), t) == Flat(Bit(t))
    decreases t
  {
    if t < 16 {
      hide Rol1, Xor, Flat, Turn;
      FlatStart(t);
    } else {
      hide *;
      FlatSchedule(t - 3);
      FlatSchedule(t - 8);
      FlatSchedule(t - 14);
      FlatSchedule(t - 16);
      FlatStep(Turn(FOUR_SET), t);
    }
  }

  // That block does not survive: its first word comes out as zero.
  lemma FourBytesAreOverwritten()
    ensures LeftBehind(Packed(FOUR_SET)) != Packed(FOUR_SET)
  {
    hide LeftBehind, Packed, Turn, W;
    SurvivesIf(FOUR_SET);
    FlatStart(0);
    FlatSchedule(64);
    assert !Bit(64);
    assert W(Turn(FOUR_SET), 64 + 0) != FOUR_SET[0];
  }

  // So an update of an empty context with these bytes behind sixty-four others changes them.
  lemma SomeDataIsOverwritten()
    ensures var data := Zeros(64) + Packed(FOUR_SET);
            Used(data, 64, 128) == Zeros(64) + LeftBehind(Packed(FOUR_SET)) && Used(data, 64, 128) != data
  {
    hide LeftBehind, Packed;
    FourBytesAreOverwritten();
    var data := Zeros(64) + Packed(FOUR_SET);
    assert data[64..128] == Packed(FOUR_SET);
    UsedBlock(data, 64, 128, 0);
    UsedElsewhere(data, 64, 128);
    var r := Used(data, 64, 128);
    assert r == r[..64] + r[64..128];
  }
}

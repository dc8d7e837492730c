// SHA1_Transform of sources/httpd/sha1.c: eighty rounds over a schedule of sixteen words
// that is expanded in the block itself, against section 6.1 of RFC 3174.
module Sha1Rounds {
  import opened Basics
  import opened HashBlocks

  datatype Five = Five(a: bv32, b: bv32, c: bv32, d: bv32, e: bv32)

  // ---- the definition ----

  function Rol1(x: bv32): bv32 { (x << 1) | (x >> 31) }

  function Rol5(x: bv32): bv32 { (x << 5) | (x >> 27) }

  function Rol30(x: bv32): bv32 { (x << 30) | (x >> 2) }

  function Xor(x: bv32, y: bv32): bv32 { x ^ y }

  // Step b: the eighty words.
  function W(m: Words, t: nat): bv32
    decreases t
  {
    if t < 16 then m[t]
    else Rol1(Xor(Xor(Xor(W(m, t - 3), W(m, t - 8)), W(m, t - 14)), W(m, t - 16)))
  }

  lemma WordOfSchedule(m: Words, t: nat)
    requires t >= 16
    ensures W(m, t) == Rol1(Xor(Xor(Xor(W(m, t - 3), W(m, t - 8)), W(m, t - 14)), W(m, t - 16)))
  {
  }

  function Choose(b: bv32, c: bv32, d: bv32): bv32 { (b & c) | (!b & d) }

  function Parity(b: bv32, c: bv32, d: bv32): bv32 { b ^ c ^ d }

  function Majority(b: bv32, c: bv32, d: bv32): bv32 { (b & c) | (b & d) | (c & d) }

  // Section 5.
  function F(t: nat, b: bv32, c: bv32, d: bv32): bv32 {
    if t < 20 then Choose(b, c, d)
    else if t < 40 then Parity(b, c, d)
    else if t < 60 then Majority(b, c, d)
    else Parity(b, c, d)
  }

  function K(t: nat): bv32 {
    if t < 20 then 0x5A827999 else if t < 40 then 0x6ED9EBA1 else if t < 60 then 0x8F1BBCDC else 0xCA62C1D6
  }

  function Sum5(p: bv32, q: bv32, r: bv32, s: bv32, t: bv32): bv32 { p + q + r + s + t }

  // Step d.
  function Round(m: Words, t: nat, h: Five): Five {
    Five(Sum5(Rol5(h.a), F(t, h.b, h.c, h.d), h.e, W(m, t), K(t)), h.a, Rol30(h.b), h.c, h.d)
  }

  function Rounds(m: Words, t: nat, h: Five): Five
    decreases t
  {
    if t == 0 then h else Round(m, t - 1, Rounds(m, t - 1, h))
  }

  function Plus(x: Five, y: Five): Five {
    Five(Sum(x.a, y.a), Sum(x.b, y.b), Sum(x.c, y.c), Sum(x.d, y.d), Sum(x.e, y.e))
  }

  // Steps c to e.
  function Digested(h: Five, m: Words): Five { Plus(h, Rounds(m, 80, h)) }

  // ---- the block in memory ----

  // The code runs on a little-endian machine, and its block0 turns each word round.
  function Swapped(x: bv32): bv32 {
    ((((x << 24) | (x >> 8)) & 0xFF00FF00) | (((x << 8) | (x >> 24)) & 0x00FF00FF))
  }

  lemma SwappedIs(p: bv8, q: bv8, r: bv8, s: bv8)
    ensures Swapped(LittleWord(p, q, r, s)) == BigWord(p, q, r, s)
  {
  }

  // The words of the block, as they lie in memory and as they are meant.
  function Raw(block: seq<bv8>): Words
    requires |block| == 64
  {
    seq(16, k requires 0 <= k < 16 => LittleWord(block[4 * k], block[4 * k + 1], block[4 * k + 2], block[4 * k + 3]))
  }

  function Meant(block: seq<bv8>): Words
    requires |block| == 64
  {
    seq(16, k requires 0 <= k < 16 => BigWord(block[4 * k], block[4 * k + 1], block[4 * k + 2], block[4 * k + 3]))
  }

  lemma MeantIsSwapped(block: seq<bv8>, k: nat)
    requires |block| == 64 && k < 16
    ensures Meant(block)[k] == Swapped(Raw(block)[k])
  {
    hide Swapped, LittleWord, BigWord;
    SwappedIs(block[4 * k], block[4 * k + 1], block[4 * k + 2], block[4 * k + 3]);
  }

  // ---- the schedule kept in sixteen words ----

  // Before round t, place k holds the latest word of the schedule that belongs there; a
  // place not yet reached holds the word of the block as it was.
  function Slot(raw: Words, m: Words, t: nat, k: nat): bv32
    requires k < 16
  {
    if t <= k then raw[k] else W(m, t - 1 - (t - 1 - k) % 16)
  }

  function Circular(raw: Words, m: Words, t: nat): Words {
    seq(16, k requires 0 <= k < 16 => Slot(raw, m, t, k))
  }

  predicate Turned(raw: Words, m: Words) {
    forall k :: 0 <= k < 16 ==> m[k] == Swapped(raw[k])
  }

  // Words as a value of their own, so that proofs about rounds need not look inside them.
  datatype Memory = Memory(words: seq<bv32>)

  ghost function Schedule(raw: Words, m: Words, t: nat): Memory { Memory(Circular(raw, m, t)) }

  lemma ScheduleStarts(raw: Words, m: Words)
    ensures Schedule(raw, m, 0) == Memory(raw)
  {
    assert Circular(raw, m, 0) == raw;
  }

  lemma SlotMoves(raw: Words, m: Words, t: nat, k: nat)
    requires k < 16
    ensures Slot(raw, m, t + 1, k) == if k == t % 16 then W(m, t) else Slot(raw, m, t, k)
  {
    hide W;
    if t + 1 <= k {
      Remainder(t, 0, t);
    } else if t == k {
      Remainder(t, 0, t);
      Remainder(t - k, 0, 0);
    } else {
      var q, r := (t - 1 - k) / 16, (t - 1 - k) % 16;
      assert t - 1 - k == 16 * q + r;
      if r == 15 {
        Remainder(t - k, q + 1, 0);
        assert t == k + 16 * (q + 1);
        Remainder(t, q + 1, k);
      } else {
        Remainder(t - k, q, r + 1);
        if k == t % 16 { NotYet(t, k, q, r); }
      }
    }
  }

  lemma Remainder(n: nat, q: int, r: nat)
    requires n == 16 * q + r && r < 16
    ensures n % 16 == r
  {
  }

  lemma NotYet(t: nat, k: nat, q: int, r: nat)
    requires t == k + 16 * q + r + 1 && r < 15 && k < 16
    ensures k != t % 16
  {
    if k + r + 1 < 16 { Remainder(t, q, k + r + 1); } else { Remainder(t, q + 1, k + r + 1 - 16); }
  }

  lemma ScheduleMoves(raw: Words, m: Words, t: nat)
    ensures Schedule(raw, m, t + 1) == Memory(Schedule(raw, m, t).words[t % 16 := W(m, t)])
  {
    hide W, Slot;
    var now, next := Circular(raw, m, t), Circular(raw, m, t + 1);
    var after := now[t % 16 := W(m, t)];
    forall k | 0 <= k < 16 ensures next[k] == after[k] {
      SlotMoves(raw, m, t, k);
    }
    assert next == after;
  }

  // The last sixteen words can be read back.
  lemma ScheduleHolds(raw: Words, m: Words, t: nat, back: nat)
    requires 1 <= back <= 16 <= t
    ensures Schedule(raw, m, t).words[(t + (16 - back)) % 16] == W(m, t - back)
  {
    hide W;
    var k := (t + (16 - back)) % 16;
    var q := (t + (16 - back)) / 16;
    assert t + 16 - back == 16 * q + k;
    Remainder(t - 1 - k, q - 1, back - 1);
  }

  lemma ScheduleFresh(raw: Words, m: Words, t: nat)
    requires t < 16 && Turned(raw, m)
    ensures Swapped(Schedule(raw, m, t).words[t]) == W(m, t) && t % 16 == t
  {
    hide Swapped;
  }

  // blk0
  method Blk0(l: array<bv32>, i: nat, ghost raw: Words, ghost m: Words) returns (x: bv32)
    requires l.Length == 16 && i < 16 && Turned(raw, m)
    requires Memory(l[..]) == Schedule(raw, m, i)
    modifies l
    ensures x == W(m, i) && Memory(l[..]) == Schedule(raw, m, i + 1)
  {
    hide Swapped, W, Circular;
    ScheduleFresh(raw, m, i);
    ScheduleMoves(raw, m, i);
    ghost var before := l[..];
    x := Swapped(l[i]);
    l[i] := x;
    assert l[..] == before[i := x];
  }

  // blk
  method Blk(l: array<bv32>, i: nat, ghost raw: Words, ghost m: Words) returns (x: bv32)
    requires l.Length == 16 && i >= 16
    requires Memory(l[..]) == Schedule(raw, m, i)
    modifies l
    ensures x == W(m, i) && Memory(l[..]) == Schedule(raw, m, i + 1)
  {
    hide Rol1, Xor, Circular;
    ScheduleHolds(raw, m, i, 3);
    ScheduleHolds(raw, m, i, 8);
    ScheduleHolds(raw, m, i, 14);
    ScheduleHolds(raw, m, i, 16);
    ScheduleMoves(raw, m, i);
    ghost var before := l[..];
    x := Rol1(Xor(Xor(Xor(l[(i + 13) % 16], l[(i + 8) % 16]), l[(i + 2) % 16]), l[i % 16]));
    l[i % 16] := x;
    assert l[..] == before[i % 16 := x];
  }

  // ---- the rounds as the code writes them ----

  function CodeChoose(w: bv32, x: bv32, y: bv32): bv32 { (w & (x ^ y)) ^ y }

  function CodeMajority(w: bv32, x: bv32, y: bv32): bv32 { ((w | x) & y) | (w & x) }

  function Added(z: bv32, f: bv32, word: bv32, k: bv32, r: bv32): bv32 { z + (f + word + k + r) }

  lemma ChooseIs(w: bv32, x: bv32, y: bv32)
    ensures (w & (x ^ y)) ^ y == (w & x) | (!w & y)
  {
  }

  lemma MajorityIs(w: bv32, x: bv32, y: bv32)
    ensures ((w | x) & y) | (w & x) == (w & x) | (w & y) | (x & y)
  {
  }

  lemma CodeForms(w: bv32, x: bv32, y: bv32)
    ensures CodeChoose(w, x, y) == Choose(w, x, y) && CodeMajority(w, x, y) == Majority(w, x, y)
  {
    ChooseIs(w, x, y);
    MajorityIs(w, x, y);
  }

  lemma SumIs(z: bv32, f: bv32, word: bv32, k: bv32, r: bv32)
    ensures Added(z, f, word, k, r) == Sum5(r, f, z, word, k)
  {
  }

  lemma RoundsStep(m: Words, t: nat, h: Five)
    ensures Rounds(m, t + 1, h) == Round(m, t, Rounds(m, t, h))
  {
    hide Round;
  }

  method R0(l: array<bv32>, v: bv32, w: bv32, x: bv32, y: bv32, z: bv32, i: nat, ghost raw: Words, ghost m: Words,
      ghost h: Five)
    returns (z': bv32, w': bv32)
    requires l.Length == 16 && i < 16 && Turned(raw, m)
    requires Memory(l[..]) == Schedule(raw, m, i) && Five(v, w, x, y, z) == Rounds(m, i, h)
    modifies l
    ensures Memory(l[..]) == Schedule(raw, m, i + 1) && Five(z', v, w', x, y) == Rounds(m, i + 1, h)
  {
    hide W, Schedule, Rounds, Rol5, Rol30, Choose, Parity, Majority, Sum5, CodeChoose, CodeMajority, Added;
    RoundsStep(m, i, h);
    CodeForms(w, x, y);
    var word := Blk0(l, i, raw, m);
    SumIs(z, CodeChoose(w, x, y), word, 0x5A827999, Rol5(v));
    z' := Added(z, CodeChoose(w, x, y), word, 0x5A827999, Rol5(v));
    w' := Rol30(w);
  }

  method R1(l: array<bv32>, v: bv32, w: bv32, x: bv32, y: bv32, z: bv32, i: nat, ghost raw: Words, ghost m: Words,
      ghost h: Five)
    returns (z': bv32, w': bv32)
    requires l.Length == 16 && 16 <= i < 20
    requires Memory(l[..]) == Schedule(raw, m, i) && Five(v, w, x, y, z) == Rounds(m, i, h)
    modifies l
    ensures Memory(l[..]) == Schedule(raw, m, i + 1) && Five(z', v, w', x, y) == Rounds(m, i + 1, h)
  {
    hide W, Schedule, Rounds, Rol5, Rol30, Choose, Parity, Majority, Sum5, CodeChoose, CodeMajority, Added;
    RoundsStep(m, i, h);
    CodeForms(w, x, y);
    var word := Blk(l, i, raw, m);
    SumIs(z, CodeChoose(w, x, y), word, 0x5A827999, Rol5(v));
    z' := Added(z, CodeChoose(w, x, y), word, 0x5A827999, Rol5(v));
    w' := Rol30(w);
  }

  method R2(l: array<bv32>, v: bv32, w: bv32, x: bv32, y: bv32, z: bv32, i: nat, ghost raw: Words, ghost m: Words,
      ghost h: Five)
    returns (z': bv32, w': bv32)
    requires l.Length == 16 && 20 <= i < 40
    requires Memory(l[..]) == Schedule(raw, m, i) && Five(v, w, x, y, z) == Rounds(m, i, h)
    modifies l
    ensures Memory(l[..]) == Schedule(raw, m, i + 1) && Five(z', v, w', x, y) == Rounds(m, i + 1, h)
  {
    hide W, Schedule, Rounds, Rol5, Rol30, Choose, Parity, Majority, Sum5, CodeChoose, CodeMajority, Added;
    RoundsStep(m, i, h);
    CodeForms(w, x, y);
    var word := Blk(l, i, raw, m);
    SumIs(z, Parity(w, x, y), word, 0x6ED9EBA1, Rol5(v));
    z' := Added(z, Parity(w, x, y), word, 0x6ED9EBA1, Rol5(v));
    w' := Rol30(w);
  }

  method R3(l: array<bv32>, v: bv32, w: bv32, x: bv32, y: bv32, z: bv32, i: nat, ghost raw: Words, ghost m: Words,
      ghost h: Five)
    returns (z': bv32, w': bv32)
    requires l.Length == 16 && 40 <= i < 60
    requires Memory(l[..]) == Schedule(raw, m, i) && Five(v, w, x, y, z) == Rounds(m, i, h)
    modifies l
    ensures Memory(l[..]) == Schedule(raw, m, i + 1) && Five(z', v, w', x, y) == Rounds(m, i + 1, h)
  {
    hide W, Schedule, Rounds, Rol5, Rol30, Choose, Parity, Majority, Sum5, CodeChoose, CodeMajority, Added;
    RoundsStep(m, i, h);
    CodeForms(w, x, y);
    var word := Blk(l, i, raw, m);
    SumIs(z, CodeMajority(w, x, y), word, 0x8F1BBCDC, Rol5(v));
    z' := Added(z, CodeMajority(w, x, y), word, 0x8F1BBCDC, Rol5(v));
    w' := Rol30(w);
  }

  method R4(l: array<bv32>, v: bv32, w: bv32, x: bv32, y: bv32, z: bv32, i: nat, ghost raw: Words, ghost m: Words,
      ghost h: Five)
    returns (z': bv32, w': bv32)
    requires l.Length == 16 && 60 <= i < 80
    requires Memory(l[..]) == Schedule(raw, m, i) && Five(v, w, x, y, z) == Rounds(m, i, h)
    modifies l
    ensures Memory(l[..]) == Schedule(raw, m, i + 1) && Five(z', v, w', x, y) == Rounds(m, i + 1, h)
  {
    hide W, Schedule, Rounds, Rol5, Rol30, Choose, Parity, Majority, Sum5, CodeChoose, CodeMajority, Added;
    RoundsStep(m, i, h);
    CodeForms(w, x, y);
    var word := Blk(l, i, raw, m);
    SumIs(z, Parity(w, x, y), word, 0xCA62C1D6, Rol5(v));
    z' := Added(z, Parity(w, x, y), word, 0xCA62C1D6, Rol5(v));
    w' := Rol30(w);
  }

  // The unrolled lines of the code, twenty at a time; within them the roles of the five
  // variables turn once in five rounds, which is a loop here.
  method RoundsTo20(l: array<bv32>, h': Five, ghost raw: Words, ghost m: Words, ghost h: Five) returns (r: Five)
    requires l.Length == 16 && Turned(raw, m)
    requires Memory(l[..]) == Schedule(raw, m, 0) && h' == Rounds(m, 0, h)
    modifies l
    ensures Memory(l[..]) == Schedule(raw, m, 20) && r == Rounds(m, 20, h)
  {
    hide Schedule, Rounds, W, Turned;
    var a, b, c, d, e := h'.a, h'.b, h'.c, h'.d, h'.e;
    var i := 0;
    for turn := 0 to 3
      invariant i == 0 + 5 * turn
      invariant Memory(l[..]) == Schedule(raw, m, i) && Five(a, b, c, d, e) == Rounds(m, i, h)
    {
      e, b := R0(l, a, b, c, d, e, i, raw, m, h);
      d, a := R0(l, e, a, b, c, d, i + 1, raw, m, h);
      c, e := R0(l, d, e, a, b, c, i + 2, raw, m, h);
      b, d := R0(l, c, d, e, a, b, i + 3, raw, m, h);
      a, c := R0(l, b, c, d, e, a, i + 4, raw, m, h);
      i := i + 5;
    }
    e, b := R0(l, a, b, c, d, e, 15, raw, m, h);
    d, a := R1(l, e, a, b, c, d, 16, raw, m, h);
    c, e := R1(l, d, e, a, b, c, 17, raw, m, h);
    b, d := R1(l, c, d, e, a, b, 18, raw, m, h);
    a, c := R1(l, b, c, d, e, a, 19, raw, m, h);
    return Five(a, b, c, d, e);
  }

  method RoundsTo40(l: array<bv32>, h': Five, ghost raw: Words, ghost m: Words, ghost h: Five) returns (r: Five)
    requires l.Length == 16
    requires Memory(l[..]) == Schedule(raw, m, 20) && h' == Rounds(m, 20, h)
    modifies l
    ensures Memory(l[..]) == Schedule(raw, m, 40) && r == Rounds(m, 40, h)
  {
    hide Schedule, Rounds, W, Turned;
    var a, b, c, d, e := h'.a, h'.b, h'.c, h'.d, h'.e;
    var i := 20;
    for turn := 0 to 4
      invariant i == 20 + 5 * turn
      invariant Memory(l[..]) == Schedule(raw, m, i) && Five(a, b, c, d, e) == Rounds(m, i, h)
    {
      e, b := R2(l, a, b, c, d, e, i, raw, m, h);
      d, a := R2(l, e, a, b, c, d, i + 1, raw, m, h);
      c, e := R2(l, d, e, a, b, c, i + 2, raw, m, h);
      b, d := R2(l, c, d, e, a, b, i + 3, raw, m, h);
      a, c := R2(l, b, c, d, e, a, i + 4, raw, m, h);
      i := i + 5;
    }
    return Five(a, b, c, d, e);
  }

  method RoundsTo60(l: array<bv32>, h': Five, ghost raw: Words, ghost m: Words, ghost h: Five) returns (r: Five)
    requires l.Length == 16
    requires Memory(l[..]) == Schedule(raw, m, 40) && h' == Rounds(m, 40, h)
    modifies l
    ensures Memory(l[..]) == Schedule(raw, m, 60) && r == Rounds(m, 60, h)
  {
    hide Schedule, Rounds, W, Turned;
    var a, b, c, d, e := h'.a, h'.b, h'.c, h'.d, h'.e;
    var i := 40;
    for turn := 0 to 4
      invariant i == 40 + 5 * turn
      invariant Memory(l[..]) == Schedule(raw, m, i) && Five(a, b, c, d, e) == Rounds(m, i, h)
    {
      e, b := R3(l, a, b, c, d, e, i, raw, m, h);
      d, a := R3(l, e, a, b, c, d, i + 1, raw, m, h);
      c, e := R3(l, d, e, a, b, c, i + 2, raw, m, h);
      b, d := R3(l, c, d, e, a, b, i + 3, raw, m, h);
      a, c := R3(l, b, c, d, e, a, i + 4, raw, m, h);
      i := i + 5;
    }
    return Five(a, b, c, d, e);
  }

  method RoundsTo80(l: array<bv32>, h': Five, ghost raw: Words, ghost m: Words, ghost h: Five) returns (r: Five)
    requires l.Length == 16
    requires Memory(l[..]) == Schedule(raw, m, 60) && h' == Rounds(m, 60, h)
    modifies l
    ensures Memory(l[..]) == Schedule(raw, m, 80) && r == Rounds(m, 80, h)
  {
    hide Schedule, Rounds, W, Turned;
    var a, b, c, d, e := h'.a, h'.b, h'.c, h'.d, h'.e;
    var i := 60;
    for turn := 0 to 4
      invariant i == 60 + 5 * turn
      invariant Memory(l[..]) == Schedule(raw, m, i) && Five(a, b, c, d, e) == Rounds(m, i, h)
    {
      e, b := R4(l, a, b, c, d, e, i, raw, m, h);
      d, a := R4(l, e, a, b, c, d, i + 1, raw, m, h);
      c, e := R4(l, d, e, a, b, c, i + 2, raw, m, h);
      b, d := R4(l, c, d, e, a, b, i + 3, raw, m, h);
      a, c := R4(l, b, c, d, e, a, i + 4, raw, m, h);
      i := i + 5;
    }
    return Five(a, b, c, d, e);
  }

  // The eighty rounds, on the words of the block.
  method EightyRounds(l: array<bv32>, h: Five, ghost raw: Words, ghost m: Words) returns (r: Five)
    requires l.Length == 16 && Turned(raw, m) && l[..] == raw
    modifies l
    ensures r == Rounds(m, 80, h) && Memory(l[..]) == Schedule(raw, m, 80)
  {
    hide Schedule, Rounds, W, Turned;
    ScheduleStarts(raw, m);
    RoundsStart(m, h);
    r := RoundsTo20(l, h, raw, m, h);
    r := RoundsTo40(l, r, raw, m, h);
    r := RoundsTo60(l, r, raw, m, h);
    r := RoundsTo80(l, r, raw, m, h);
  }

  lemma RoundsStart(m: Words, h: Five)
    ensures Rounds(m, 0, h) == h
  {
  }
}

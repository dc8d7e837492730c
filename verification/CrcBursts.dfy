// What a cyclic checksum can tell apart, for any register that is fed one message bit at a
// time by a linear step.  Crc16, Crc32 and MbCrc give the steps of utilities/crc.c and
// sources/mbcrc.c.
module CrcBursts {
  import opened CrcTables

  // A register of some width: how a message bit is fed, exclusive or and zero, and when one
  // of the j positions fed last holds a mark.
  datatype Code<!R> = Code(step: (R, bool) -> R, xor: (R, R) -> R, zero: R, marked: (R, nat) -> bool, width: nat)

  // The register after a string of message bits.
  function Fed<R>(c: Code<R>, s: R, bits: seq<bool>): R
    decreases |bits|
  {
    if bits == [] then s else Fed(c, c.step(s, bits[0]), bits[1..])
  }

  // The n highest bits of a byte, and the bits of a message, highest bit of each byte first.
  function TopBits(byte: bv8, n: nat): seq<bool>
    decreases n
  {
    if n == 0 then [] else [Top8(byte)] + TopBits(Left8(byte), n - 1)
  }

  function MessageBits(m: seq<bv8>): seq<bool> {
    if m == [] then [] else TopBits(m[0], 8) + MessageBits(m[1..])
  }

  // ---- what is asked of a code ----

  predicate Cancels<R(==)>(c: Code<R>, x: R, y: R) { c.xor(x, y) == c.zero <==> x == y }

  predicate SameBit<R(==)>(c: Code<R>, x: R, y: R, b: bool) {
    c.xor(c.step(x, b), c.step(y, b)) == c.step(c.xor(x, y), false)
  }

  predicate OtherBit<R(==)>(c: Code<R>, x: R, y: R, b: bool, d: bool) {
    b != d ==> c.xor(c.step(x, b), c.step(y, d)) == c.step(c.xor(x, y), true)
  }

  predicate Keeps<R(==)>(c: Code<R>, x: R) { x != c.zero ==> c.step(x, false) != c.zero }

  predicate Starts<R>(c: Code<R>, j: nat) {
    1 <= j <= c.width ==> c.marked(c.step(c.zero, true), j)
  }

  predicate Climbs<R>(c: Code<R>, x: R, b: bool, j: nat) {
    1 <= j < c.width && c.marked(x, j) ==> c.marked(c.step(x, b), j + 1)
  }

  predicate Shows<R(==)>(c: Code<R>, x: R, j: nat) {
    1 <= j <= c.width && c.marked(x, j) ==> x != c.zero
  }

  // The step is linear and loses nothing.
  ghost predicate Linear<R(!new)>(c: Code<R>) {
    && (forall x, y :: Cancels(c, x, y))
    && (forall x, y, b :: SameBit(c, x, y, b))
    && (forall x, y, b, d :: OtherBit(c, x, y, b, d))
    && (forall x :: Keeps(c, x))
  }

  // Being marked on the j oldest positions is inherited by one more position at each
  // step, starts with the first difference, and within the width implies not being zero.
  ghost predicate Marks<R(!new)>(c: Code<R>) {
    && (forall j: nat :: Starts(c, j))
    && (forall x, b, j: nat :: Climbs(c, x, b, j))
    && (forall x, j: nat :: Shows(c, x, j))
  }

  // ---- what follows ----

  lemma StepPair<R(!new)>(c: Code<R>, s: R, t: R, b: bool, d: bool)
    requires Linear(c)
    ensures c.xor(s, t) == c.zero <==> s == t
    ensures c.xor(c.step(s, b), c.step(t, d)) == c.step(c.xor(s, t), b != d)
    ensures c.xor(s, t) != c.zero ==> c.step(c.xor(s, t), false) != c.zero
  {
    assert Cancels(c, s, t);
    assert Keeps(c, c.xor(s, t));
    if b == d {
      assert SameBit(c, s, t, b);
    } else {
      assert OtherBit(c, s, t, b, d);
    }
  }

  lemma MarkPair<R(!new)>(c: Code<R>, x: R, b: bool, j: nat)
    requires Marks(c)
    ensures 1 <= j <= c.width ==> c.marked(c.step(c.zero, true), j) && (c.marked(x, j) ==> x != c.zero)
    ensures 1 <= j < c.width && c.marked(x, j) ==> c.marked(c.step(x, b), j + 1)
  {
    assert Starts(c, j);
    assert Climbs(c, x, b, j);
    assert Shows(c, x, j);
  }

  // Bits fed alike keep different registers different.
  lemma {:induction false} StaysDifferent<R(!new)>(c: Code<R>, s: R, t: R, bits: seq<bool>)
    requires Linear(c) && s != t
    ensures Fed(c, s, bits) != Fed(c, t, bits)
    decreases |bits|
  {
    if bits != [] {
      hide Linear;
      StepPair(c, s, t, bits[0], bits[0]);
      StepPair(c, c.step(s, bits[0]), c.step(t, bits[0]), false, false);
      StaysDifferent(c, c.step(s, bits[0]), c.step(t, bits[0]), bits[1..]);
    }
  }

  // Bits fed unlike cannot cancel out within the width.
  lemma {:induction false} WindowDiffers<R(!new)>(c: Code<R>, s: R, t: R, x: seq<bool>, y: seq<bool>, j: nat)
    requires Linear(c) && Marks(c)
    requires |x| == |y| && j + |x| <= c.width
    requires (s == t && x != y) || (j >= 1 && c.marked(c.xor(s, t), j))
    ensures Fed(c, s, x) != Fed(c, t, y)
    decreases |x|
  {
    hide Linear, Marks;
    if x == [] {
      StepPair(c, s, t, false, false);
      MarkPair(c, c.xor(s, t), false, j);
    } else {
      var s', t' := c.step(s, x[0]), c.step(t, y[0]);
      StepPair(c, s, t, x[0], y[0]);
      MarkPair(c, c.xor(s, t), x[0] != y[0], j);
      MarkPair(c, c.zero, true, j + 1);
      assert x == [x[0]] + x[1..] && y == [y[0]] + y[1..];
      WindowDiffers(c, s', t', x[1..], y[1..], j + 1);
    }
  }

  lemma {:induction false} FedAppend<R>(c: Code<R>, s: R, a: seq<bool>, b: seq<bool>)
    ensures Fed(c, s, a + b) == Fed(c, Fed(c, s, a), b)
    decreases |a|
  {
    if a == [] {
      assert a + b == b;
    } else {
      FedAppend(c, c.step(s, a[0]), a[1..], b);
      assert (a + b)[1..] == a[1..] + b;
    }
  }

  // Two bit strings that differ, and differ only within as many consecutive bits as the
  // register is wide, leave it in different states, whatever state it started in.
  lemma BurstSeen<R(!new)>(c: Code<R>, s: R, a: seq<bool>, x: seq<bool>, y: seq<bool>, b: seq<bool>)
    requires Linear(c) && Marks(c)
    requires |x| == |y| <= c.width && x != y
    ensures Fed(c, s, a + x + b) != Fed(c, s, a + y + b)
  {
    hide Linear, Marks, Fed;
    FedAppend(c, s, a + x, b);
    FedAppend(c, s, a, x);
    FedAppend(c, s, a + y, b);
    FedAppend(c, s, a, y);
    var t := Fed(c, s, a);
    WindowDiffers(c, t, t, x, y, 0);
    StaysDifferent(c, Fed(c, t, x), Fed(c, t, y), b);
  }
}

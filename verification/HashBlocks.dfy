// What the MD5 and SHA-1 contexts of utilities/md5.c and sources/httpd/sha1.c have in common:
// a message is absorbed in blocks of 64 bytes, an incomplete block waits in a buffer, and two
// 32-bit words count the bits.
module HashBlocks {
  import opened Basics

  type Words = w: seq<bv32> | |w| == 16 witness seq(16, _ => 0)

  type Block = b: seq<bv8> | |b| == 64 witness seq(64, _ => 0)

  type Compression<!State> = (State, Block) -> State

  // The state after all complete blocks of a message, and the bytes after them.
  function Absorbed<State>(f: Compression<State>, s: State, m: seq<bv8>): State
    decreases |m|
  {
    if |m| < 64 then s else Absorbed(f, f(s, m[..64]), m[64..])
  }

  function Waiting(m: seq<bv8>): (r: seq<bv8>)
    ensures |r| < 64
    decreases |m|
  {
    if |m| < 64 then m else Waiting(m[64..])
  }

  // More of the message continues from the state and the bytes that wait.
  lemma {:induction false} AbsorbMore<State>(f: Compression<State>, s: State, m: seq<bv8>, more: seq<bv8>)
    ensures Absorbed(f, s, m + more) == Absorbed(f, Absorbed(f, s, m), Waiting(m) + more)
    ensures Waiting(m + more) == Waiting(Waiting(m) + more)
    decreases |m|
  {
    if |m| >= 64 {
      var first: Block := m[..64];
      assert (m + more)[..64] == first && (m + more)[64..] == m[64..] + more;
      AbsorbMore(f, f(s, first), m[64..], more);
    }
  }

  // Chunk after chunk, from a state and the bytes that wait.
  function AbsorbedAll<State>(f: Compression<State>, s: State, waiting: seq<bv8>, chunks: seq<seq<bv8>>)
    : (State, seq<bv8>)
    decreases |chunks|
  {
    if chunks == [] then (s, waiting)
    else AbsorbedAll(f, Absorbed(f, s, waiting + chunks[0]), Waiting(waiting + chunks[0]), chunks[1..])
  }

  // However a message is split, the state and the waiting bytes are those of the whole.
  lemma {:induction false} AnySplit<State>(f: Compression<State>, s: State, waiting: seq<bv8>, chunks: seq<seq<bv8>>)
    requires |waiting| < 64
    ensures AbsorbedAll(f, s, waiting, chunks)
            == (Absorbed(f, s, waiting + Joint(chunks)), Waiting(waiting + Joint(chunks)))
    decreases |chunks|
  {
    hide Absorbed;
    if chunks == [] {
      assert waiting + Joint(chunks) == waiting;
      NoBlock(f, s, waiting);
    } else {
      var m, rest := waiting + chunks[0], Joint(chunks[1..]);
      assert waiting + Joint(chunks) == m + rest;
      AbsorbMore(f, s, m, rest);
      AnySplit(f, Absorbed(f, s, m), Waiting(m), chunks[1..]);
    }
  }

  lemma {:induction false} WaitingLength(m: seq<bv8>)
    ensures |Waiting(m)| == |m| % 64
    decreases |m|
  {
    if |m| >= 64 {
      WaitingLength(m[64..]);
      assert |m[64..]| % 64 == |m| % 64;
    }
  }

  lemma OneBlock<State>(f: Compression<State>, s: State, first: Block, more: seq<bv8>)
    ensures Absorbed(f, s, first + more) == Absorbed(f, f(s, first), more)
    ensures Waiting(first + more) == Waiting(more)
  {
    assert (first + more)[..64] == first && (first + more)[64..] == more;
  }

  // The next block of some data.
  lemma NextBlock<State>(f: Compression<State>, s: State, data: seq<bv8>, i: nat, len: nat)
    requires i + 64 <= len <= |data|
    ensures Absorbed(f, s, data[i..len]) == Absorbed(f, f(s, data[i..i + 64]), data[i + 64..len])
    ensures Waiting(data[i..len]) == Waiting(data[i + 64..len])
  {
    hide Absorbed, Waiting;
    OneBlock(f, s, data[i..i + 64], data[i + 64..len]);
    assert data[i..len] == data[i..i + 64] + data[i + 64..len];
  }

  lemma NoBlock<State>(f: Compression<State>, s: State, m: seq<bv8>)
    requires |m| < 64
    ensures Absorbed(f, s, m) == s && Waiting(m) == m
  {
  }

  // ---- words ----

  function LittleWord(p: bv8, q: bv8, r: bv8, s: bv8): bv32 {
    (p as bv32) | ((q as bv32) << 8) | ((r as bv32) << 16) | ((s as bv32) << 24)
  }

  function BigWord(p: bv8, q: bv8, r: bv8, s: bv8): bv32 {
    ((p as bv32) << 24) | ((q as bv32) << 16) | ((r as bv32) << 8) | (s as bv32)
  }

  // The byte of weight 256 to the j.
  function ByteOf(x: bv32, j: nat): bv8
    requires j < 4
  {
    match j
    case 0 => (x & 0xFF) as bv8
    case 1 => ((x >> 8) & 0xFF) as bv8
    case 2 => ((x >> 16) & 0xFF) as bv8
    case _ => ((x >> 24) & 0xFF) as bv8
  }

  lemma WordOfBytes(x: bv32)
    ensures LittleWord(ByteOf(x, 0), ByteOf(x, 1), ByteOf(x, 2), ByteOf(x, 3)) == x
  {
  }

  // A word in memory, lowest byte first.
  function Quad(x: bv32): (q: seq<bv8>)
    ensures |q| == 4
  {
    [ByteOf(x, 0), ByteOf(x, 1), ByteOf(x, 2), ByteOf(x, 3)]
  }

  // Words in memory, one after the other.
  function Packed(w: seq<bv32>): (b: seq<bv8>)
    ensures |b| == 4 * |w|
    decreases |w|
  {
    if w == [] then [] else Quad(w[0]) + Packed(w[1..])
  }

  lemma {:induction false} PackedMore(w: seq<bv32>, k: nat)
    requires k < |w|
    ensures Packed(w[..k + 1]) == Packed(w[..k]) + Quad(w[k])
    ensures Packed(w[..0]) == [] && w[..|w|] == w
    decreases k
  {
    hide Quad;
    if k > 0 {
      PackedMore(w[1..], k - 1);
      assert w[..k + 1][1..] == w[1..][..k] && w[..k][1..] == w[1..][..k - 1];
      assert Quad(w[0]) + (Packed(w[1..][..k - 1]) + Quad(w[k])) == Quad(w[0]) + Packed(w[1..][..k - 1]) + Quad(w[k]);
    } else {
      assert w[..1] == [w[0]] && w[..1][1..] == [] && w[..0] == [];
      assert Packed(w[..1]) == Quad(w[0]) + Packed([]);
    }
  }

  function Word(n: nat): bv32
    requires n < WRAP
  {
    n as bv32
  }

  // ---- the bit counter ----

  function Low(bytes: nat): (n: nat)
    ensures n < WRAP
  {
    8 * bytes % WRAP
  }

  function High(bytes: nat): (n: nat)
    ensures n < WRAP
  {
    8 * bytes / WRAP % WRAP
  }

  // Adding len << 3 to the low word, with a carry if it wraps, and len >> 29 to the high
  // word, keeps the two words at 8 times the length modulo 2^64.
  lemma CountMore(bytes: nat, len: nat)
    requires len < WRAP
    ensures var shifted := len * 8 % WRAP;
            var low := (Low(bytes) + shifted) % WRAP;
            var carried := if low < shifted then (High(bytes) + 1) % WRAP else High(bytes);
            low == Low(bytes + len) && (carried + len / 0x2000_0000) % WRAP == High(bytes + len)
  {
    var b, l := 8 * bytes, 8 * len;
    var shifted := len * 8 % WRAP;
    var bq, br := b / WRAP, b % WRAP;
    var lq, lr := l / WRAP, l % WRAP;
    assert b == bq * WRAP + br && l == lq * WRAP + lr;
    assert lr == shifted;
    assert lq == len / 0x2000_0000;
    var carry := if br + lr >= WRAP then 1 else 0;
    var low := (br + lr) % WRAP;
    assert low == br + lr - carry * WRAP;
    assert low < shifted <==> carry == 1;
    Quotient(b + l, bq + lq + carry, low);
    ModAdd(bq, carry, lq);
  }

  lemma Quotient(n: nat, q: nat, r: nat)
    requires n == q * WRAP + r && r < WRAP
    ensures n / WRAP == q && n % WRAP == r
  {
  }

  lemma ModAdd(a: nat, b: nat, c: nat)
    ensures ((a % WRAP + b) % WRAP + c) % WRAP == (a + c + b) % WRAP
    ensures (a % WRAP + c) % WRAP == (a + c) % WRAP
  {
    var x := a % WRAP + b;
    var y := x % WRAP + c;
    var z := a % WRAP + c;
    Quotient(a + c + b, a / WRAP + x / WRAP + y / WRAP, y % WRAP);
    Quotient(a + c, a / WRAP + z / WRAP, z % WRAP);
  }

  // The place in the buffer.
  lemma CountIndex(bytes: nat)
    ensures Low(bytes) / 8 % 64 == bytes % 64
  {
    var q, r := bytes / 0x2000_0000, bytes % 0x2000_0000;
    Quotient(8 * bytes, q, 8 * r);
    Remainder64(bytes, q * 0x80_0000, r);
  }

  lemma Remainder64(n: nat, k: nat, r: nat)
    requires n == 64 * k + r
    ensures n % 64 == r % 64
  {
    var j := r / 64;
    assert n == 64 * (k + j) + r % 64;
  }

  // ---- padding ----

  function Zeros(n: nat): (z: seq<bv8>)
    ensures |z| == n
  {
    seq(n, _ => 0)
  }

  // How many zero bytes follow the first padding byte.
  function Gap(length: nat): (n: nat)
    ensures n < 64
  {
    (119 - length % 64) % 64
  }

  // A one bit, as few zero bits as possible, and the eight bytes of the length.
  function Padding(length: nat, tail: seq<bv8>): (p: seq<bv8>)
    requires |tail| == 8
    ensures (length + |p|) % 64 == 0
    ensures 9 <= |p| < 9 + 64
  {
    GapFits(length);
    [0x80] + Zeros(Gap(length)) + tail
  }

  lemma GapFits(length: nat)
    ensures (length + 1 + Gap(length) + 8) % 64 == 0
    ensures (length + 1 + Gap(length)) % 64 == 56
  {
    var r := length % 64;
    assert length == length / 64 * 64 + r;
  }

  // The first place where the length can go.
  lemma GapIsLeast(length: nat, n: nat)
    requires n < Gap(length)
    ensures (length + 1 + n) % 64 != 56
  {
    var r := length % 64;
    assert length == length / 64 * 64 + r;
  }

  lemma GapReached(length: nat, n: nat)
    requires n <= Gap(length) && (length + 1 + n) % 64 == 56
    ensures n == Gap(length)
  {
    hide Gap;
    if n < Gap(length) { GapIsLeast(length, n); }
  }

  // A padded message leaves nothing waiting.
  lemma PaddedIsWhole(m: seq<bv8>, tail: seq<bv8>)
    requires |tail| == 8
    ensures Waiting(m + Padding(|m|, tail)) == []
  {
    WaitingLength(m + Padding(|m|, tail));
  }

  // ---- a call of update ----

  // 32-bit arithmetic.
  function Wrapped(n: nat): nat { n % WRAP }

  lemma NoWrap(n: nat)
    requires n < WRAP
    ensures Wrapped(n) == n
  {
  }

  // The places i at which the loop over whole blocks tests i + 63 < len, for at bytes
  // waiting: those with i + at a multiple of 64.
  ghost predicate NoTestWraps(at: nat, len: nat) {
    forall n: nat :: TestFits(at, len, n)
  }

  predicate TestFits(at: nat, len: nat, n: nat) {
    1 <= n && 64 * n - at <= len ==> 64 * n - at + 63 < WRAP
  }

  // No test wraps exactly if the bytes waiting and the new ones are fewer than 2^32.
  lemma TestsWrapUnless(at: nat, len: nat)
    requires at < 64 && len < WRAP
    ensures NoTestWraps(at, len) <==> at + len < WRAP
  {
    if at + len < WRAP {
      forall n: nat ensures TestFits(at, len, n) {
        assert WRAP == 64 * 0x400_0000;
      }
    } else {
      assert !TestFits(at, len, 0x400_0000);
    }
  }

  lemma TestBelow(start: nat, len: nat, n: nat)
    requires start <= 64 && len < WRAP && 64 - start + len < WRAP && start + 64 * n <= len
    ensures start + 64 * n + 63 < WRAP
  {
    assert WRAP == 64 * 0x400_0000;
  }

  // What happens otherwise: the test is passed although no whole block is left, and the
  // first test of SHA1_Update, j + len > 63, fails although there are whole blocks.
  lemma WrappedTests(at: nat, len: nat)
    requires at < 64 && len < WRAP <= at + len
    ensures var i := WRAP - at;
            i <= len < i + 64 && Wrapped(i + 63) < len
    ensures Wrapped(at + len) <= 63 < len
  {
    Quotient(at + len, 1, at + len - WRAP);
    Quotient(WRAP - at + 63, 1, 63 - at);
  }

  // The place in the buffer, from the low word of the counter.
  function Index(low: nat): nat { low / 8 % 64 }

  // The counter after len more bytes, as the code computes it.
  method CountUp(low: nat, high: nat, len: nat, ghost bytes: nat) returns (low': nat, high': nat)
    requires low == Low(bytes) && high == High(bytes) && len < WRAP
    ensures low' == Low(bytes + len) && high' == High(bytes + len)
  {
    CountMore(bytes, len);
    var shifted := len * 8 % WRAP;
    low', high' := (low + shifted) % WRAP, high;
    if low' < shifted {
      high' := (high' + 1) % WRAP;
    }
    high' := (high' + len / 0x2000_0000) % WRAP;
  }

  // A buffer with some bytes written over.
  function Replaced(s: seq<bv8>, at: nat, b: seq<bv8>): (r: seq<bv8>)
    requires at + |b| <= |s|
    ensures |r| == |s|
  {
    s[..at] + b + s[at + |b|..]
  }

  lemma ReplacedStep(s: seq<bv8>, at: nat, b: seq<bv8>, c: bv8)
    requires at + |b| < |s|
    ensures Replaced(s, at, b + [c]) == Replaced(s, at, b)[at + |b| := c]
    ensures Replaced(s, at, []) == s
  {
  }

  lemma ReplacedNone(s: seq<bv8>, at: nat)
    requires at <= |s|
    ensures Replaced(s, at, []) == s
  {
  }

  lemma ReplacedMore(s: seq<bv8>, at: nat, done: seq<bv8>, q: seq<bv8>)
    requires |q| == 4 && at + |done| + 4 <= |s|
    ensures var p := at + |done|;
            Replaced(s, at, done + q) == Replaced(s, at, done)[p := q[0]][p + 1 := q[1]][p + 2 := q[2]][p + 3 := q[3]]
  {
  }

  // memcpy
  method Copy(to: array<bv8>, at: nat, from: array<bv8>, start: nat, n: nat)
    requires to != from && at + n <= to.Length && start + n <= from.Length
    modifies to
    ensures to[..] == Replaced(old(to[..]), at, from[start..start + n])
  {
    ghost var before := to[..];
    assert to[..] == Replaced(before, at, from[start..start]);
    for k := 0 to n
      invariant to[..] == Replaced(before, at, from[start..start + k])
    {
      ghost var now := to[..];
      ReplacedStep(before, at, from[start..start + k], from[start + k]);
      to[at + k] := from[start + k];
      assert to[..] == now[at + k := from[start + k]];
      assert from[start..start + k + 1] == from[start..start + k] + [from[start + k]];
    }
  }

  // Where an update leaves the bytes that wait.
  predicate Keeps(buffer: seq<bv8>, m: seq<bv8>) {
    |Waiting(m)| <= |buffer| && buffer[..|Waiting(m)|] == Waiting(m)
  }

  lemma KeepsAfterCopy(buffer: seq<bv8>, at: nat, more: seq<bv8>, m: seq<bv8>)
    requires at + |more| <= |buffer| && Waiting(m) == buffer[..at] + more
    ensures Keeps(Replaced(buffer, at, more), m)
  {
    hide Waiting;
    assert Replaced(buffer, at, more)[..at + |more|] == buffer[..at] + more;
  }

  lemma FullAfterCopy(buffer: seq<bv8>, at: nat, more: seq<bv8>)
    requires at + |more| == |buffer|
    ensures Replaced(buffer, at, more) == buffer[..at] + more
    ensures var r := Replaced(buffer, at, more); r[0..0 + |r|] == r
  {
  }

  // The buffer is filled up from the data.
  lemma Filled<State>(f: Compression<State>, s: State, w: seq<bv8>, d: seq<bv8>, i: nat)
    requires i <= |d| && |w| + i == 64
    ensures Absorbed(f, s, w + d) == Absorbed(f, f(s, w + d[..i]), d[i..]) && Waiting(w + d) == Waiting(d[i..])
  {
    hide Absorbed, Waiting;
    OneBlock(f, s, w + d[..i], d[i..]);
    assert w + d == (w + d[..i]) + d[i..];
  }

  lemma FewMore<State>(f: Compression<State>, s: State, w: seq<bv8>, d: seq<bv8>)
    ensures |w + d| < 64 ==> Absorbed(f, s, w + d) == s && Waiting(w + d) == w + d
  {
    if |w + d| < 64 { NoBlock(f, s, w + d); }
  }

  lemma ZerosStep(n: nat)
    ensures Zeros(n + 1) == Zeros(n) + [0] && Zeros(0) == []
  {
  }

  lemma IndexOf56(m: seq<bv8>)
    ensures Index(Low(|m|)) == |m| % 64
  {
    CountIndex(|m|);
  }

  lemma PaddingIs(length: nat, tail: seq<bv8>)
    requires |tail| == 8
    ensures Padding(length, tail) == [0x80] + Zeros(Gap(length)) + tail
  {
  }

  lemma KeepsIs(buffer: seq<bv8>, m: seq<bv8>)
    requires Keeps(buffer, m)
    ensures |Waiting(m)| <= |buffer| && buffer[..|Waiting(m)|] == Waiting(m)
  {
  }

  lemma KeepsSame(buffer: seq<bv8>, m: seq<bv8>, n: seq<bv8>)
    requires Keeps(buffer, m) && Waiting(m) == Waiting(n)
    ensures Keeps(buffer, n)
  {
  }

  lemma IndexIs(m: seq<bv8>)
    ensures Index(Low(|m|)) == |Waiting(m)| < 64
  {
    hide Waiting;
    CountIndex(|m|);
    WaitingLength(m);
  }
}

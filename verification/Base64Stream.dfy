// Decoding in chunks, as a matter of sequences: what one call of base64_decode_ctx
// (sources/httpd/base64.c) does to the characters it keeps between calls, and why it does
// not matter how the input was cut.
module Base64Stream {
  import opened Basics
  import opened Base64Text

  // Without newlines.
  function Strip(s: seq<bv8>): seq<bv8>
    decreases |s|
  {
    if s == [] then [] else Kept(s[0]) + Strip(s[1..])
  }

  function Kept(c: bv8): seq<bv8> { if c == NEWLINE then [] else [c] }

  lemma {:induction false} StripAppend(s: seq<bv8>, t: seq<bv8>)
    ensures Strip(s + t) == Strip(s) + Strip(t)
    decreases |s|
  {
    if s == [] {
      assert s + t == t;
    } else {
      hide Kept;
      StripAppend(s[1..], t);
      assert (s + t)[0] == s[0] && (s + t)[1..] == s[1..] + t;
      assert Kept(s[0]) + (Strip(s[1..]) + Strip(t)) == (Kept(s[0]) + Strip(s[1..])) + Strip(t);
    }
  }

  lemma {:induction false} StripNothing(s: seq<bv8>)
    requires NEWLINE !in s
    ensures Strip(s) == s
    decreases |s|
  {
    if s != [] { StripNothing(s[1..]); }
  }

  // One call with some characters pending.  An empty chunk asks for a flush: what is
  // pending is decoded as far as it goes, and the call succeeds only if that was nothing.
  function Call(pending: seq<bv8>, chunk: seq<bv8>): Outcome {
    if chunk == [] then Outcome(Leading(pending), pending == [], pending)
    else Quads(pending + Strip(chunk))
  }

  // Calls one after the other until one fails.
  function Session(pending: seq<bv8>, chunks: seq<seq<bv8>>): Outcome
    decreases |chunks|
  {
    if chunks == [] then Outcome([], true, pending)
    else
      var first := Call(pending, chunks[0]);
      if first.ok then After(first.bytes, Session(first.pending, chunks[1..])) else first
  }

  // More characters after those already decoded.
  lemma {:induction false} QuadsAppend(s: seq<bv8>, t: seq<bv8>)
    ensures var d := Quads(s);
            Quads(s + t) == if d.ok then After(d.bytes, Quads(d.pending + t)) else d
    decreases |s|
  {
    hide Accepts, Leading;
    if |s| >= 4 {
      assert (s + t)[..4] == s[..4] && (s + t)[4..] == s[4..] + t;
      if Accepts(s[..4]) {
        QuadsAppend(s[4..], t);
        var d := Quads(s[4..]);
        if d.ok {
          var e := Quads(d.pending + t);
          assert Leading(s[..4]) + (d.bytes + e.bytes) == (Leading(s[..4]) + d.bytes) + e.bytes;
        }
      }
    }
  }

  // However the input is cut into nonempty chunks, the bytes, the verdict and what is left
  // pending are those of the whole input without its newlines, quad by quad.
  lemma {:induction false} ChunksDoNotMatter(pending: seq<bv8>, chunks: seq<seq<bv8>>)
    requires |pending| < 4
    requires forall c :: c in chunks ==> c != []
    ensures Session(pending, chunks) == Quads(pending + Strip(Joint(chunks)))
    decreases |chunks|
  {
    hide Quads, Strip;
    if chunks == [] {
      StripNothing([]);
      assert pending + Strip([]) == pending;
      QuadsShort(pending);
    } else {
      var rest := Joint(chunks[1..]);
      StripAppend(chunks[0], rest);
      var s := pending + Strip(chunks[0]);
      assert pending + Strip(Joint(chunks)) == s + Strip(rest);
      QuadsAppend(s, Strip(rest));
      assert chunks[0] in chunks;
      assert Call(pending, chunks[0]) == Quads(s);
      QuadsKeepsFew(s);
      assert forall c :: c in chunks[1..] ==> c in chunks;
      ChunksDoNotMatter(Quads(s).pending, chunks[1..]);
    }
  }

  lemma QuadsKeepsFew(s: seq<bv8>)
    ensures |Quads(s).pending| < 4
  {
  }

  lemma QuadsShort(s: seq<bv8>)
    requires |s| < 4
    ensures Quads(s) == Outcome([], true, s)
  {
  }

  // Two ways of cutting the same input, newlines anywhere, give the same.
  lemma AnyTwoSplitsAgree(c1: seq<seq<bv8>>, c2: seq<seq<bv8>>)
    requires forall c :: c in c1 ==> c != []
    requires forall c :: c in c2 ==> c != []
    requires Strip(Joint(c1)) == Strip(Joint(c2))
    ensures Session([], c1) == Session([], c2)
  {
    hide Session, Joint, Strip;
    ChunksDoNotMatter([], c1);
    ChunksDoNotMatter([], c2);
  }

  // A session that ends with a flush succeeds exactly if the chunks did and the number of
  // characters, newlines aside, is a multiple of four; it then gives the same bytes.
  lemma FlushAtTheEnd(chunks: seq<seq<bv8>>)
    requires forall c :: c in chunks ==> c != []
    ensures var all := Strip(Joint(chunks));
            var s := Session([], chunks + [[]]);
            && (s.ok <==> Quads(all).ok && |all| % 4 == 0)
            && (s.ok ==> s.bytes == Quads(all).bytes && s.pending == [])
  {
    hide Joint, Strip, Quads, Leading, Accepts;
    var all := Strip(Joint(chunks));
    ChunksDoNotMatter([], chunks);
    assert [] + all == all;
    SessionAppend([], chunks, [[]]);
    var d := Session([], chunks);
    PendingLength(all);
    FlushAlone(d.pending);
    LeadingOfNone();
    assert d.bytes + [] == d.bytes;
  }

  lemma FlushAlone(pending: seq<bv8>)
    ensures var f := Session(pending, [[]]);
            && f.ok == (pending == [])
            && f.bytes == Leading(pending) && f.pending == pending
  {
    hide Leading, Quads, Strip;
    var flush: seq<seq<bv8>> := [[]];
    assert flush[1..] == [];
    assert Session(pending, []) == Outcome([], true, pending);
    assert Call(pending, []) == Outcome(Leading(pending), pending == [], pending);
    assert Leading(pending) + [] == Leading(pending);
  }

  lemma LeadingOfNone()
    ensures Leading([]) == []
  {
  }

  lemma {:induction false} SessionAppend(pending: seq<bv8>, c1: seq<seq<bv8>>, c2: seq<seq<bv8>>)
    ensures var s := Session(pending, c1);
            Session(pending, c1 + c2) == if s.ok then After(s.bytes, Session(s.pending, c2)) else s
    decreases |c1|
  {
    hide Call;
    if c1 == [] {
      assert c1 + c2 == c2;
      assert [] + Session(pending, c2).bytes == Session(pending, c2).bytes;
    } else {
      assert (c1 + c2)[0] == c1[0] && (c1 + c2)[1..] == c1[1..] + c2;
      var first := Call(pending, c1[0]);
      if first.ok {
        SessionAppend(first.pending, c1[1..], c2);
        var d := Session(first.pending, c1[1..]);
        if d.ok {
          var e := Session(d.pending, c2);
          assert first.bytes + (d.bytes + e.bytes) == (first.bytes + d.bytes) + e.bytes;
        }
      }
    }
  }

  lemma {:induction false} PendingLength(s: seq<bv8>)
    ensures Quads(s).ok ==> |Quads(s).pending| == |s| % 4
    decreases |s|
  {
    hide Leading, Accepts;
    if |s| >= 4 {
      PendingLength(s[4..]);
      FourLess(|s|);
    }
  }

  lemma FourLess(n: nat)
    requires n >= 4
    ensures (n - 4) % 4 == n % 4
  {
  }

  // What the calls give back is what was encoded: any text of x with newlines anywhere, in
  // any chunks, and a flush.
  lemma StreamRoundTrip(x: seq<bv8>, chunks: seq<seq<bv8>>)
    requires forall c :: c in chunks ==> c != []
    requires Strip(Joint(chunks)) == Encoded(x)
    ensures Session([], chunks + [[]]) == Outcome(x, true, [])
  {
    hide Session, Joint, Strip, Quads, Encoded;
    FlushAtTheEnd(chunks);
    RoundTrip(x);
    PendingLength(Encoded(x));
  }

  // How many bytes a call can give: the buffer that base64_decode_alloc_ctx asks for is
  // always large enough.
  lemma {:induction false} QuadsBound(s: seq<bv8>)
    ensures |Quads(s).bytes| <= 3 * (|s| / 4)
    decreases |s|
  {
    hide Accepts, Leading;
    if |s| >= 4 {
      LeadingBound(s[..4]);
      QuadsBound(s[4..]);
      assert |s[4..]| / 4 == |s| / 4 - 1;
    }
  }

  lemma LeadingBound(s: seq<bv8>)
    ensures |Leading(s)| <= 3 && (|s| < 4 ==> |Leading(s)| <= 2)
    ensures Accepts(s) ==> |Leading(s)| >= 1 && |s| >= 4
  {
    hide IsBase64, Six, Byte0, Byte1, Byte2, Joined;
  }

  lemma {:induction false} StripBound(s: seq<bv8>)
    ensures |Strip(s)| <= |s|
    decreases |s|
  {
    if s != [] { StripBound(s[1..]); }
  }

  lemma {:induction false} UnitBound(s: seq<bv8>)
    ensures |Unit(s).bytes| <= 3 * (|s| / 4) + 2
    decreases |s|
  {
    hide Accepts, Leading;
    LeadingBound(s);
    if Accepts(s) {
      UnitBound(s[4..]);
      assert |s[4..]| / 4 == |s| / 4 - 1;
    }
  }

  lemma CallBound(pending: seq<bv8>, chunk: seq<bv8>)
    requires |pending| < 4
    ensures |Call(pending, chunk).bytes| <= 3 * (|chunk| / 4) + 3
  {
    hide Quads, Leading, Strip;
    LeadingBound(pending);
    if chunk != [] {
      StripBound(chunk);
      QuadsBound(pending + Strip(chunk));
    }
  }

  // ---- with and without a context ----

  // Texts one after the other are decoded as if they were one: a stream may go on after
  // padding.
  lemma TextsInARow(x: seq<bv8>, y: seq<bv8>)
    ensures Quads(Encoded(x) + Encoded(y)) == Outcome(x + y, true, [])
  {
    hide Quads, Encoded;
    QuadsOfText(x, Encoded(y));
    RoundTrip(y);
  }

  // Padding stands nowhere but in the last quad.
  predicate PadsLast(s: seq<bv8>)
    decreases |s|
  {
    |s| > 4 ==> s[2] != PAD && s[3] != PAD && PadsLast(s[4..])
  }

  // Without a context the input is accepted exactly if a stream would accept it, with
  // nothing pending, and its padding is at the end; the bytes are then the same.
  lemma {:induction false} UnitIsStricter(s: seq<bv8>)
    ensures Unit(s).ok <==> Quads(s).ok && Quads(s).pending == [] && PadsLast(s)
    ensures Unit(s).ok ==> Unit(s) == Quads(s)
    decreases |s|
  {
    hide Accepts, Leading;
    AcceptsWhole(s);
    if |s| >= 4 {
      UnitIsStricter(s[4..]);
      LeadingOfFour(s);
      if |s| == 4 { assert s[4..] == []; }
    }
  }

  lemma AcceptsWhole(s: seq<bv8>)
    ensures Accepts(s) ==> |s| >= 4
    ensures |s| >= 4 ==> (Accepts(s) <==> Accepts(s[..4]) && (|s| > 4 ==> s[2] != PAD && s[3] != PAD))
  {
    if |s| >= 4 {
      AlphabetHasNoMarks(s[2]);
      AlphabetHasNoMarks(s[3]);
    }
  }

  // ---- when a call says no ----

  function QuadAt(s: seq<bv8>, k: nat): seq<bv8>
    requires 4 * k + 4 <= |s|
  {
    s[4 * k..4 * k + 4]
  }

  predicate QuadAccepted(s: seq<bv8>, k: nat) {
    4 * k + 4 <= |s| ==> Accepts(QuadAt(s, k))
  }

  // The first n quads, as far as they are whole.
  ghost predicate AcceptedBelow(s: seq<bv8>, n: nat) {
    forall k: nat :: k < n ==> QuadAccepted(s, k)
  }

  // Decoding stops at quad k.
  ghost predicate RefusedAt(s: seq<bv8>, k: nat) {
    AcceptedBelow(s, k) && !QuadAccepted(s, k)
  }

  lemma QuadLater(s: seq<bv8>, k: nat)
    requires |s| >= 4
    ensures QuadAccepted(s[4..], k) == QuadAccepted(s, k + 1)
  {
    hide Accepts;
    if 4 * k + 8 <= |s| { assert QuadAt(s[4..], k) == QuadAt(s, k + 1); }
  }

  lemma QuadFirst(s: seq<bv8>)
    ensures |s| >= 4 ==> QuadAccepted(s, 0) == Accepts(s[..4])
    ensures |s| < 4 ==> forall k: nat :: QuadAccepted(s, k)
  {
    hide Accepts;
  }

  // A call fails exactly if one of the whole quads it sees is not valid; characters that
  // do not make up a quad yet are not looked at.
  lemma {:induction false} FailsOnWholeQuads(s: seq<bv8>)
    ensures !Quads(s).ok <==> exists k: nat :: RefusedAt(s, k)
    decreases |s|
  {
    hide Accepts, Leading, QuadAccepted;
    QuadFirst(s);
    if |s| >= 4 {
      var t := s[4..];
      FailsOnWholeQuads(t);
      forall k: nat ensures QuadAccepted(t, k) == QuadAccepted(s, k + 1) { QuadLater(s, k); }
      if !Accepts(s[..4]) {
        assert RefusedAt(s, 0);
      } else {
        forall k: nat ensures RefusedAt(t, k) == RefusedAt(s, k + 1) { RefusedLater(s, k); }
        if k: nat :| RefusedAt(s, k) { assert k > 0 && RefusedAt(t, k - 1); }
      }
    }
  }

  lemma RefusedLater(s: seq<bv8>, k: nat)
    requires |s| >= 4 && QuadAccepted(s, 0)
    ensures RefusedAt(s[4..], k) == RefusedAt(s, k + 1)
  {
    hide QuadAccepted;
    var t := s[4..];
    forall j: nat ensures QuadAccepted(t, j) == QuadAccepted(s, j + 1) { QuadLater(s, j); }
    if AcceptedBelow(t, k) {
      forall j: nat | j < k + 1 ensures QuadAccepted(s, j) {
        if j > 0 { assert QuadAccepted(t, j - 1) == QuadAccepted(s, j); }
      }
    }
    if AcceptedBelow(s, k + 1) {
      forall j: nat | j < k ensures QuadAccepted(t, j) { assert QuadAccepted(s, j + 1); }
    }
  }

  // A character that is neither of the alphabet nor padding.
  predicate Foreign(c: bv8) { !IsBase64(c) && c != PAD }

  lemma ForeignQuad(s: seq<bv8>, p: nat)
    requires p < |s| && Foreign(s[p]) && p / 4 * 4 + 4 <= |s|
    ensures !QuadAccepted(s, p / 4)
  {
    var q := QuadAt(s, p / 4);
    assert q[p % 4] == s[p];
  }

  // The documented stop, exactly: a foreign character at place p is what a call fails on if
  // and only if its quad is complete and no quad before it failed.
  lemma ForeignCharacterStops(s: seq<bv8>, p: nat)
    requires p < |s| && Foreign(s[p])
    ensures RefusedAt(s, p / 4) <==> p / 4 * 4 + 4 <= |s| && AcceptedBelow(s, p / 4)
  {
    if p / 4 * 4 + 4 <= |s| { ForeignQuad(s, p); }
  }

  // So what the documentation says of every input, that a foreign character makes the call
  // fail, holds of exactly those inputs of which some whole quad is refused, or whose last,
  // incomplete quad has no foreign character.
  lemma DocumentedStopHoldsIf(s: seq<bv8>)
    ensures ((exists p :: 0 <= p < |s| && Foreign(s[p])) ==> !Quads(s).ok)
       <==> (exists k: nat :: RefusedAt(s, k)) || !(exists p :: |s| / 4 * 4 <= p < |s| && Foreign(s[p]))
  {
    hide Quads, Foreign, RefusedAt;
    FailsOnWholeQuads(s);
    if p :| 0 <= p < |s| && Foreign(s[p]) {
      if p < |s| / 4 * 4 {
        WholeQuadFails(s, p);
      }
    }
  }

  lemma WholeQuadFails(s: seq<bv8>, p: nat)
    requires p < |s| / 4 * 4 && Foreign(s[p])
    ensures !Quads(s).ok
  {
    hide Quads, Foreign, QuadAccepted;
    FailsOnWholeQuads(s);
    if Quads(s).ok {
      FirstRefused(s, p / 4);
      ForeignQuad(s, p);
    }
  }

  // If any quad is not accepted, there is a first one.
  lemma {:induction false} FirstRefused(s: seq<bv8>, k: nat)
    ensures !QuadAccepted(s, k) ==> exists j: nat :: RefusedAt(s, j)
    decreases k
  {
    hide QuadAccepted;
    if !QuadAccepted(s, k) {
      if AcceptedBelow(s, k) {
        assert RefusedAt(s, k);
      } else {
        var j: nat :| j < k && !QuadAccepted(s, j);
        FirstRefused(s, j);
      }
    }
  }

  // An asterisk alone is taken in; only the flush or the rest of its quad brings it to light.
  lemma ForeignCharacterIsNotSeenAtOnce(rest: seq<bv8>)
    requires |rest| == 3
    ensures Foreign(42) && Call([], [42]) == Outcome([], true, [42])
    ensures !Call([42], []).ok && !Quads([42] + rest).ok
  {
    hide Leading;
    assert Strip([42]) == [42] + Strip([]);
    assert [] + [42 as bv8] == [42];
    var s := [42] + rest;
    assert s[..4] == s && s[0] == 42;
    assert !Accepts(s);
  }
}

// The decoder of sources/httpd/base64.c.  A pointer into a buffer and the number of
// characters left there are the sequence of those characters.
module Base64Decoder {
  import opened Basics
  import opened Base64Text
  import opened Base64Stream

  class Context {
    var i: nat
    var buf: array<bv8>

    ghost predicate Valid()
      reads this
    {
      i <= 4 && buf.Length == 4
    }

    // The characters kept for the next call; a full buffer has been used up.
    ghost function Pending(): seq<bv8>
      requires Valid()
      reads this, buf
    {
      if i == 4 then [] else buf[..i]
    }

    constructor ()
      ensures Valid() && Pending() == [] && fresh(buf)
    {
      buf := new bv8[4];
      i := 0;
    }

    method Base64DecodeCtxInit()
      requires Valid()
      modifies `i
      ensures Valid() && Pending() == []
    {
      i := 0;
    }

    // The next four characters that are not newlines, as far as there are four: in place
    // if none is pending and none of the next four is a newline, otherwise in the buffer.
    method Get4(input: seq<bv8>) returns (quad: seq<bv8>, rest: seq<bv8>)
      requires Valid()
      modifies this`i, buf
      ensures Valid() && |rest| <= |input| && (input != [] ==> |rest| < |input|)
      ensures var s := old(Pending()) + Strip(input);
              if |s| < 4 then quad == s && rest == [] && Pending() == s
              else quad == s[..4] && Strip(rest) == s[4..] && Pending() == []
    {
      hide Strip;
      if i == 4 {
        i := 0;
      }
      if i == 0 && 4 <= |input| && NEWLINE !in input[..4] {
        StripNothing(input[..4]);
        StripAppend(input[..4], input[4..]);
        assert input == input[..4] + input[4..];
        return input[..4], input[4..];
      }
      ghost var s := buf[..i] + Strip(input);
      rest := input;
      StripHead([]);
      while rest != []
        invariant |rest| <= |input| && i < 4 && buf[..i] + Strip(rest) == s
        invariant rest == [] ==> buf[..i] == s
        decreases |rest|
      {
        var c := rest[0];
        StripHead(rest);
        rest := rest[1..];
        if c != NEWLINE {
          ghost var before := buf[..i];
          buf[i] := c;
          i := i + 1;
          assert buf[..i] == before + [c];
          assert buf[..i] + Strip(rest) == s;
          if i == 4 {
            break;
          }
        }
        StripHead([]);
      }
      quad := buf[..i];
    }
  }

  lemma StripHead(s: seq<bv8>)
    ensures Strip([]) == []
    ensures s != [] && s[0] == NEWLINE ==> Strip(s) == Strip(s[1..])
    ensures s != [] && s[0] != NEWLINE ==> Strip(s) == [s[0]] + Strip(s[1..])
  {
  }

  // The bytes of a quad as the code composes them out of alphabet values.
  function Out0(a: bv6, b: bv6): bv8 { ((((a as bv16) << 2) | ((b as bv16) >> 4)) & 0xFF) as bv8 }

  function Out1(b: bv6, c: bv6): bv8 { (((((b as bv16) << 4) & 0xF0) | ((c as bv16) >> 2)) & 0xFF) as bv8 }

  function Out2(c: bv6, d: bv6): bv8 { (((((c as bv16) << 6) & 0xC0) | (d as bv16)) & 0xFF) as bv8 }

  lemma OutIs(a: bv6, b: bv6, c: bv6, d: bv6)
    ensures Out0(a, b) == Byte0(Joined(a, b, c, d))
    ensures Out1(b, c) == Byte1(Joined(a, b, c, d))
    ensures Out2(c, d) == Byte2(Joined(a, b, c, d))
  {
  }

  function Least(m: nat, n: nat): nat { if m < n then m else n }

  // The buffer after as many of the bytes as fit in the space left were written at a place.
  function Filled(buffer: seq<bv8>, place: nat, bytes: seq<bv8>, space: nat): seq<bv8>
    requires place + space <= |buffer|
  {
    var k := Least(|bytes|, space);
    buffer[..place] + bytes[..k] + buffer[place + k..]
  }

  // The bytes, as far as they fit, have been written from a place on, and the write
  // position and the space left have moved with them.
  ghost predicate Wrote(out: array<bv8>, outp: nat, outleft: nat, start: seq<bv8>, place: nat, space: nat,
      bytes: seq<bv8>)
    reads out
  {
    var k := Least(|bytes|, space);
    && place + space <= |start|
    && out[..] == Filled(start, place, bytes, space)
    && outp == place + k && outleft == space - k
  }

  lemma WroteNothing(out: array<bv8>, outp: nat, outleft: nat)
    requires outp + outleft <= out.Length
    ensures Wrote(out, outp, outleft, out[..], outp, outleft, [])
  {
  }

  lemma FilledMore(buffer: seq<bv8>, place: nat, bytes: seq<bv8>, space: nat, b: bv8)
    requires place + space <= |buffer|
    ensures var k := Least(|bytes|, space);
            var f := Filled(buffer, place, bytes, space);
            && |f| == |buffer|
            && Filled(buffer, place, bytes + [b], space) == if k < space then f[place + k := b] else f
  {
  }

  // One more byte, if there is space.
  method Put(out: array<bv8>, outp: nat, outleft: nat, b: bv8,
             ghost start: seq<bv8>, ghost place: nat, ghost space: nat, ghost bytes: seq<bv8>)
    returns (outp': nat, outleft': nat)
    requires Wrote(out, outp, outleft, start, place, space, bytes)
    modifies out
    ensures Wrote(out, outp', outleft', start, place, space, bytes + [b])
  {
    hide Filled;
    FilledMore(start, place, bytes, space, b);
    outp', outleft' := outp, outleft;
    if outleft > 0 {
      ghost var before := out[..];
      out[outp] := b;
      assert out[..] == before[outp := b];
      outp', outleft' := outp + 1, outleft - 1;
    }
  }

  // Decodes up to four characters, writing what is in order and fits even when it fails.
  method Decode4(input: seq<bv8>, out: array<bv8>, outp: nat, outleft: nat)
    returns (ok: bool, outp': nat, outleft': nat)
    requires outp + outleft <= out.Length
    modifies out
    ensures ok == Accepts(input)
    ensures Wrote(out, outp', outleft', old(out[..]), outp, outleft, Leading(input))
  {
    hide Six, Byte0, Byte1, Byte2, Joined, Out0, Out1, Out2, IsBase64, Wrote;
    ghost var start := out[..];
    outp', outleft' := outp, outleft;
    WroteNothing(out, outp, outleft);
    if |input| < 2 {
      return false, outp', outleft';
    }
    if !IsBase64(input[0]) || !IsBase64(input[1]) {
      return false, outp', outleft';
    }
    OutIs(Six(input[0]), Six(input[1]), 0, 0);
    ghost var b0 := Out0(Six(input[0]), Six(input[1]));
    outp', outleft' := Put(out, outp', outleft', Out0(Six(input[0]), Six(input[1])), start, outp, outleft, []);
    assert [] + [b0] == [b0];
    if |input| == 2 {
      return false, outp', outleft';
    }
    PadIsNone();
    if input[2] == PAD {
      if |input| != 4 {
        return false, outp', outleft';
      }
      if input[3] != PAD {
        return false, outp', outleft';
      }
    } else {
      if !IsBase64(input[2]) {
        return false, outp', outleft';
      }
      OutIs(Six(input[0]), Six(input[1]), Six(input[2]), 0);
      ghost var b1 := Out1(Six(input[1]), Six(input[2]));
      outp', outleft' := Put(out, outp', outleft', Out1(Six(input[1]), Six(input[2])), start, outp, outleft, [b0]);
      assert [b0] + [b1] == [b0, b1];
      if |input| == 3 {
        return false, outp', outleft';
      }
      if input[3] == PAD {
        if |input| != 4 {
          return false, outp', outleft';
        }
      } else {
        if !IsBase64(input[3]) {
          return false, outp', outleft';
        }
        OutIs(Six(input[0]), Six(input[1]), Six(input[2]), Six(input[3]));
        ghost var b2 := Out2(Six(input[2]), Six(input[3]));
        outp', outleft' := Put(out, outp', outleft', Out2(Six(input[2]), Six(input[3])), start, outp, outleft,
            [b0, b1]);
        assert [b0, b1] + [b2] == [b0, b1, b2];
      }
    }
    return true, outp', outleft';
  }

  // ---- the whole call ----

  // The output so far: the bytes decoded, as far as they fit; nothing beyond the length
  // given has been touched.
  ghost predicate Holds(buffer: seq<bv8>, outp: nat, outleft: nat, start: seq<bv8>, outlen: nat, done: seq<bv8>) {
    && outlen <= |start| == |buffer|
    && outp == Least(|done|, outlen) && outleft == outlen - outp
    && buffer[..outp] == done[..outp]
    && buffer[outlen..] == start[outlen..]
  }

  lemma HoldsNothing(start: seq<bv8>, outlen: nat)
    requires outlen <= |start|
    ensures Holds(start, 0, outlen, start, outlen, [])
  {
  }

  lemma HoldsSpace(buffer: seq<bv8>, outp: nat, outleft: nat, start: seq<bv8>, outlen: nat, done: seq<bv8>)
    requires Holds(buffer, outp, outleft, start, outlen, done)
    ensures outp + outleft == outlen <= |buffer|
    ensures outp == Least(|done|, outlen) && buffer[..outp] == done[..outp] && buffer[outlen..] == start[outlen..]
  {
  }

  lemma HoldsMore(out: array<bv8>, outp': nat, outleft': nat, before: seq<bv8>, outp: nat, outleft: nat,
                  start: seq<bv8>, outlen: nat, done: seq<bv8>, bytes: seq<bv8>)
    requires Holds(before, outp, outleft, start, outlen, done)
    requires Wrote(out, outp', outleft', before, outp, outleft, bytes)
    ensures Holds(out[..], outp', outleft', start, outlen, done + bytes)
    ensures outp' >= outleft - outleft' >= 0 && outp' - (outleft - outleft') == outp
    ensures Holds(out[..], outp, outleft, start, outlen, done)
    ensures bytes == [] ==> outp' == outp && outleft' == outleft
  {
    var k := Least(|bytes|, outleft);
    var f := out[..];
    assert f[..outp] == before[..outp];
    assert f[outp..outp'] == bytes[..k];
    assert (done + bytes)[..outp'] == done[..outp] + bytes[..k];
    assert f[..outp'] == f[..outp] + f[outp..outp'];
    assert f[outlen..] == before[outlen..];
  }

  // What the rest of the input will give.
  function Remaining(ignoreNewlines: bool, pending: seq<bv8>, rest: seq<bv8>): Outcome {
    if ignoreNewlines then Quads(pending + Strip(rest)) else Unit(rest)
  }

  lemma NothingLeft(ignoreNewlines: bool, pending: seq<bv8>)
    requires |pending| < 4
    ensures Remaining(ignoreNewlines, pending, []) == Outcome([], true, if ignoreNewlines then pending else [])
  {
    hide Strip, Accepts, Leading;
    StripHead([]);
    assert pending + [] == pending;
  }

  lemma FourMore(ignoreNewlines: bool, rest: seq<bv8>)
    requires Accepts(rest)
    ensures |rest| >= 4
    ensures Remaining(ignoreNewlines, [], rest) == After(Leading(rest), Remaining(ignoreNewlines, [], rest[4..]))
  {
    hide Strip, Accepts, Leading;
    LeadingBound(rest);
    LeadingOfFour(rest);
    NoNewlineAccepted(rest);
    StripNothing(rest[..4]);
    StripAppend(rest[..4], rest[4..]);
    assert rest == rest[..4] + rest[4..];
    var s := Strip(rest);
    assert s[..4] == rest[..4] && s[4..] == Strip(rest[4..]);
    assert [] + s == s && [] + Strip(rest[4..]) == Strip(rest[4..]);
  }

  lemma NoNewlineAccepted(rest: seq<bv8>)
    requires Accepts(rest)
    ensures NEWLINE !in rest[..4]
  {
    AlphabetHasNoMarks(rest[0]);
    AlphabetHasNoMarks(rest[1]);
    AlphabetHasNoMarks(rest[2]);
    AlphabetHasNoMarks(rest[3]);
  }

  lemma NewlineFirst(pending: seq<bv8>, rest: seq<bv8>)
    requires rest != [] && rest[0] == NEWLINE
    ensures Remaining(true, pending, rest) == Remaining(true, pending, rest[1..])
    ensures Leading(rest) == []
  {
    hide Quads, Strip, Six, Joined, Byte0, Byte1, Byte2;
    AlphabetHasNoMarks(rest[0]);
    StripHead(rest);
  }

  lemma AQuad(pending: seq<bv8>, input: seq<bv8>, rest: seq<bv8>)
    requires var s := pending + Strip(input); |s| >= 4 && Strip(rest) == s[4..]
    ensures var quad := (pending + Strip(input))[..4];
            Remaining(true, pending, input) ==
            if Accepts(quad) then After(Leading(quad), Remaining(true, [], rest)) else Outcome(Leading(quad), false, [])
  {
    hide Strip, Accepts, Leading;
    assert [] + Strip(rest) == Strip(rest);
  }

  lemma TooShort(pending: seq<bv8>, input: seq<bv8>)
    requires |pending + Strip(input)| < 4
    ensures Remaining(true, pending, input) == Outcome([], true, pending + Strip(input))
  {
    hide Strip, Accepts, Leading;
  }

  lemma UnitFails(rest: seq<bv8>)
    requires rest != [] && !Accepts(rest)
    ensures Remaining(false, [], rest) == Outcome(Leading(rest), false, [])
  {
  }

  lemma ShortFails(quad: seq<bv8>)
    ensures |quad| < 4 ==> !Accepts(quad)
    ensures Leading([]) == []
  {
  }

  lemma AfterAfter(a: seq<bv8>, b: seq<bv8>, r: Outcome)
    ensures After(a, After(b, r)) == After(a + b, r)
    ensures After([], r) == r
  {
    assert a + (b + r.bytes) == a + b + r.bytes;
    assert [] + r.bytes == r.bytes;
  }

  lemma AfterIs(a: seq<bv8>, b: seq<bv8>, ok: bool, pending: seq<bv8>)
    ensures After(a, Outcome(b, ok, pending)) == Outcome(a + b, ok, pending)
    ensures a + [] == a && [] + b == b
  {
  }

  // What the call will give, from the bytes done, the characters pending and the rest.
  function Goal(ignoreNewlines: bool, flush: bool, done: seq<bv8>, pending: seq<bv8>, rest: seq<bv8>): Outcome {
    if flush then Outcome(Leading(pending), pending == [], pending)
    else After(done, Remaining(ignoreNewlines, pending, rest))
  }

  // The end of the call: it says yes exactly if it left nothing unread.
  ghost predicate Ends(goal: Outcome, left: nat, buffer: seq<bv8>, outp: nat, outleft: nat, start: seq<bv8>,
      outlen: nat) {
    goal.ok == (left == 0) && Holds(buffer, outp, outleft, start, outlen, goal.bytes)
  }

  // The inner loop: quads decoded in place until one is not accepted.  What that last one
  // wrote is not taken back here, so the space left before it is handed on.
  method DecodeRun(input: seq<bv8>, out: array<bv8>, outp: nat, outleft: nat, ghost ignoreNewlines: bool,
                   ghost start: seq<bv8>, ghost outlen: nat, ghost done: seq<bv8>, ghost goal: Outcome)
    returns (rest: seq<bv8>, outp': nat, outleft': nat, outleftSave: nat, ghost more: seq<bv8>)
    requires Holds(out[..], outp, outleft, start, outlen, done)
    requires goal == Goal(ignoreNewlines, false, done, [], input)
    modifies out
    ensures !Accepts(rest) && |rest| <= |input|
    ensures outleft' <= outleftSave && outleftSave - outleft' <= outp'
    ensures Holds(out[..], outp' - (outleftSave - outleft'), outleftSave, start, outlen, done + more)
    ensures goal == Goal(ignoreNewlines, false, done + more, [], rest)
    ensures Leading(rest) == [] ==> outleft' == outleftSave
  {
    hide Holds, Wrote, Remaining, Quads, Unit, Accepts, Leading, Strip, After, Filled, Least;
    rest, outp', outleft', outleftSave, more := input, outp, outleft, outleft, [];
    assert done + [] == done;
    while true
      invariant |rest| <= |input|
      invariant Holds(out[..], outp', outleft', start, outlen, done + more)
      invariant goal == After(done + more, Remaining(ignoreNewlines, [], rest))
      decreases |rest|
    {
      outleftSave := outleft';
      ghost var before, outpSave, tried := out[..], outp', Leading(rest);
      HoldsSpace(before, outp', outleft', start, outlen, done + more);
      var fits;
      fits, outp', outleft' := Decode4(rest, out, outp', outleft');
      HoldsMore(out, outp', outleft', before, outpSave, outleftSave, start, outlen, done + more, tried);
      if !fits {
        return;
      }
      FourMore(ignoreNewlines, rest);
      AfterAfter(done + more, tried, Remaining(ignoreNewlines, [], rest[4..]));
      assert (done + more) + tried == done + (more + tried);
      more := more + tried;
      rest := rest[4..];
    }
  }

  // The slow way on: four characters out of the buffer.  It either ends the call or decodes
  // one quad.
  method DecodeBuffered(ctx: Context?, input: seq<bv8>, flush: bool, out: array<bv8>, outp: nat, outleft: nat,
                        ghost start: seq<bv8>, ghost outlen: nat, ghost done: seq<bv8>,
                        ghost pending: seq<bv8>, ghost goal: Outcome)
    returns (stop: bool, inlen: nat, rest: seq<bv8>, outp': nat, outleft': nat, ghost done': seq<bv8>)
    requires ctx != null ==> ctx.Valid() && ctx.buf != out && ctx.Pending() == pending
    requires |pending| < 4 && (flush ==> ctx != null && input == [] && done == [])
    requires ctx == null ==> input != [] && !Accepts(input) && pending == []
    requires !flush ==> input != []
    requires Holds(out[..], outp, outleft, start, outlen, done)
    requires goal == Goal(ctx != null, flush, done, pending, input)
    modifies out, if ctx == null then {} else {ctx, ctx.buf}
    ensures ctx != null ==> ctx.Valid() && ctx.buf == old(ctx.buf)
    ensures stop ==>
              && Ends(goal, inlen, out[..], outp', outleft', start, outlen)
              && (ctx != null ==> ctx.Pending() == goal.pending)
    ensures !stop ==> ctx != null && !flush && ctx.Pending() == [] && |rest| < |input| && inlen == |rest|
    ensures !stop ==>
              && Holds(out[..], outp', outleft', start, outlen, done')
              && goal == Goal(true, false, done', [], rest)
  {
    hide Holds, Wrote, Remaining, Accepts, Leading, Strip, After, Filled, Least, Quads, Unit;
    outp', outleft', done' := outp, outleft, done;
    var quad := input;
    rest := input;
    ShortFails([]);
    if ctx != null {
      quad, rest := ctx.Get4(input);
    }
    inlen := |quad|;
    if inlen == 0 || (inlen < 4 && !flush && ctx != null) {
      if flush {
        StripHead([]);
        assert pending == [];
      } else {
        TooShort(pending, input);
      }
      AfterIs(done, [], true, quad);
      return true, 0, rest, outp', outleft', done';
    }
    ghost var before := out[..];
    HoldsSpace(before, outp, outleft, start, outlen, done);
    var fits;
    fits, outp', outleft' := Decode4(quad, out, outp, outleft);
    HoldsMore(out, outp', outleft', before, outp, outleft, start, outlen, done, Leading(quad));
    ShortFails(quad);
    if ctx == null {
      UnitFails(rest);
    } else if flush {
      StripHead([]);
      assert quad == pending;
    } else {
      AQuad(pending, input, rest);
    }
    AfterIs(done, Leading(quad), false, []);
    if !fits {
      return true, inlen, rest, outp', outleft', done';
    }
    AfterAfter(done, Leading(quad), Remaining(true, [], rest));
    done' := done + Leading(quad);
    return false, |rest|, rest, outp', outleft', done';
  }

  // With a context, decodes the pending characters and the input without its newlines, or
  // flushes if there is no input; without one, decodes the input as a unit.
  method Base64DecodeCtx(ctx: Context?, input: seq<bv8>, out: array<bv8>, outlen: nat)
    returns (ok: bool, written: nat)
    requires outlen <= out.Length
    requires ctx != null ==> ctx.Valid() && ctx.buf != out
    modifies out, if ctx == null then {} else {ctx, ctx.buf}
    ensures ctx != null ==> ctx.Valid() && ctx.buf == old(ctx.buf)
    ensures var r := if ctx == null then Unit(input) else Call(old(ctx.Pending()), input);
            && ok == r.ok
            && written == Least(|r.bytes|, outlen) && out[..written] == r.bytes[..written]
            && (ctx != null ==> ctx.Pending() == r.pending)
    ensures out[outlen..] == old(out[outlen..])
  {
    hide Holds, Goal, Ends, Remaining, Quads, Unit, Call, Accepts, Leading, Strip, After, Least;
    ghost var start := out[..];
    ghost var pending := if ctx == null then [] else ctx.Pending();
    ghost var done := [];
    ghost var goal := if ctx == null then Unit(input) else Call(pending, input);
    var rest, inlen := input, |input|;
    var outp, outleft := 0, outlen;
    var ignoreNewlines := ctx != null;
    var flush := false;
    var ctxI := 0;
    if ignoreNewlines {
      ctxI := ctx.i;
      flush := inlen == 0;
    }
    HoldsNothing(start, outlen);
    GoalStarts(ignoreNewlines, pending, input);
    while true
      invariant ctx != null ==> ctx.Valid() && ctx.buf == old(ctx.buf) && ctx.Pending() == pending
      invariant inlen == |rest| && |pending| < 4 && (flush ==> ctx != null && rest == [] && done == [])
      invariant ctxI == 0 ==> pending == []
      invariant Holds(out[..], outp, outleft, start, outlen, done)
      invariant goal == Goal(ignoreNewlines, flush, done, pending, rest)
      decreases |rest|
    {
      var outleftSave := outleft;
      HoldsSpace(out[..], outp, outleft, start, outlen, done);
      if ctxI == 0 && !flush {
        ghost var more;
        rest, outp, outleft, outleftSave, more :=
          DecodeRun(rest, out, outp, outleft, ignoreNewlines, start, outlen, done, goal);
        inlen := |rest|;
        done := done + more;
      }
      if inlen == 0 && !flush {
        GoalReached(ignoreNewlines, done, pending);
        EndsWell(goal, out[..], outp, outleft, start, outlen, done);
        break;
      }
      if inlen > 0 && rest[0] == NEWLINE && ignoreNewlines {
        GoalSkips(done, pending, rest);
        rest := rest[1..];
        inlen := inlen - 1;
        continue;
      }
      outp := outp - (outleftSave - outleft);
      outleft := outleftSave;
      var stop;
      stop, inlen, rest, outp, outleft, done :=
        DecodeBuffered(ctx, rest, flush, out, outp, outleft, start, outlen, done, pending, goal);
      pending := if ctx == null then [] else ctx.Pending();
      if stop {
        break;
      }
    }
    EndsIs(goal, inlen, out[..], outp, outleft, start, outlen);
    return inlen == 0, outlen - outleft;
  }

  lemma GoalStarts(ignoreNewlines: bool, pending: seq<bv8>, input: seq<bv8>)
    requires !ignoreNewlines ==> pending == []
    ensures (if ignoreNewlines then Call(pending, input) else Unit(input))
         == Goal(ignoreNewlines, ignoreNewlines && input == [], [], pending, input)
  {
    hide Quads, Unit, Strip, Leading, After;
    AfterAfter([], [], Remaining(ignoreNewlines, pending, input));
  }

  lemma GoalReached(ignoreNewlines: bool, done: seq<bv8>, pending: seq<bv8>)
    requires |pending| < 4
    ensures Goal(ignoreNewlines, false, done, pending, [])
            == Outcome(done, true, if ignoreNewlines then pending else [])
    ensures Leading([]) == []
  {
    hide Remaining, After, Leading;
    ShortFails([]);
    NothingLeft(ignoreNewlines, pending);
    AfterIs(done, [], true, if ignoreNewlines then pending else []);
  }

  lemma GoalSkips(done: seq<bv8>, pending: seq<bv8>, rest: seq<bv8>)
    requires rest != [] && rest[0] == NEWLINE
    ensures Goal(true, false, done, pending, rest) == Goal(true, false, done, pending, rest[1..])
    ensures Leading(rest) == []
  {
    hide Remaining, After, Leading;
    NewlineFirst(pending, rest);
  }

  lemma EndsWell(goal: Outcome, buffer: seq<bv8>, outp: nat, outleft: nat, start: seq<bv8>, outlen: nat, done: seq<bv8>)
    requires goal.ok && goal.bytes == done && Holds(buffer, outp, outleft, start, outlen, done)
    ensures Ends(goal, 0, buffer, outp, outleft, start, outlen)
  {
    hide Holds;
  }

  lemma EndsIs(goal: Outcome, left: nat, buffer: seq<bv8>, outp: nat, outleft: nat, start: seq<bv8>, outlen: nat)
    requires Ends(goal, left, buffer, outp, outleft, start, outlen)
    ensures goal.ok == (left == 0) && outp + outleft == outlen <= |buffer| == |start|
    ensures outp == Least(|goal.bytes|, outlen) <= |goal.bytes|
    ensures buffer[..outp] == goal.bytes[..outp] && buffer[outlen..] == start[outlen..]
  {
  }

  // ---- allocation ----

  // The buffer asked for, which is also what the documentation promises in *outlen when
  // there is no memory.
  function NeedLen(inlen: nat): nat { 3 * (inlen / 4) + 3 }

  // The result and what stands in *outlen afterwards.
  function Allocated(r: Outcome, granted: bool, outlen: nat): (bool, nat) {
    if !granted then (true, outlen) else if r.ok then (true, |r.bytes|) else (false, outlen)
  }

  // Without memory the documented size is there exactly if the caller had put it there.
  lemma SizeIsReportedOnlyIfThere(r: Outcome, inlen: nat, outlen: nat)
    ensures Allocated(r, false, outlen).0
    ensures Allocated(r, false, outlen).1 == NeedLen(inlen) <==> outlen == NeedLen(inlen)
  {
  }

  // Eight characters, no memory, a zero in *outlen: the call says yes and leaves the zero,
  // not the nine bytes it needed.
  lemma SizeIsNotReported(input: seq<bv8>)
    requires |input| == 8
    ensures Allocated(Unit(input), false, 0) == (true, 0) && NeedLen(|input|) == 9
  {
    hide Unit;
  }

  // Decodes into a new buffer of a size that always suffices.  outlen0 is what stands in
  // *outlen when the call is made; it is overwritten only on success.
  method Base64DecodeAllocCtx(ctx: Context?, input: seq<bv8>, granted: bool, outlen0: nat)
    returns (ok: bool, out: array?<bv8>, outlen: nat)
    requires |input| < WRAP
    requires ctx != null ==> ctx.Valid()
    modifies if ctx == null then {} else {ctx, ctx.buf}
    ensures ctx != null ==> ctx.Valid()
    ensures var r := if ctx == null then Unit(input) else Call(old(ctx.Pending()), input);
            && (ok, outlen) == Allocated(r, granted, outlen0)
            && (out != null <==> granted && ok)
            && (out != null ==> fresh(out) && outlen == |r.bytes| <= out.Length && out[..outlen] == r.bytes)
            && (ctx != null ==> ctx.Pending() == if granted then r.pending else old(ctx.Pending()))
    ensures !granted ==> (outlen == NeedLen(|input|) <==> outlen0 == NeedLen(|input|))
  {
    hide Unit, Call;
    outlen := outlen0;
    var needlen := NeedLen(|input|) % WRAP;
    if !granted {
      return true, null, outlen;
    }
    var buffer := new bv8[needlen];
    UnitBound(input);
    if ctx != null {
      CallBound(ctx.Pending(), input);
    }
    ok, needlen := Base64DecodeCtx(ctx, input, buffer, needlen);
    if !ok {
      return false, null, outlen;
    }
    return true, buffer, needlen;
  }
}

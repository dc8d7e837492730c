// A text being written into a buffer, one character after the other.
module Base64Output {

  // A string as a value of its own, so that proofs about whole strings need not look
  // inside them.
  datatype Text = Text(chars: seq<bv8>)

  // The buffer with the text written up to p, and what of the text is still to be written.
  ghost function Part(text: seq<bv8>, p: nat, start: seq<bv8>): Text
    requires p <= |text| && p <= |start|
  {
    Text(text[..p] + start[p..])
  }

  ghost function Tail(text: seq<bv8>, p: nat): Text
    requires p <= |text|
  {
    Text(text[p..])
  }

  // A buffer with a text stored at its start.
  function Over(text: seq<bv8>, buffer: seq<bv8>): seq<bv8>
    requires |text| <= |buffer|
  {
    text + buffer[|text|..]
  }

  // A zero-terminated string.
  function Terminated(text: seq<bv8>): (r: seq<bv8>)
    ensures |r| == |text| + 1 && r[|text|] == 0
  {
    text + [0]
  }

  // *out++ = c
  method Put(out: array<bv8>, p: nat, c: bv8, ghost text: seq<bv8>, ghost start: seq<bv8>)
    requires p < |text| && c == text[p] && p < out.Length == |start|
    requires Text(out[..]) == Part(text, p, start)
    modifies out
    ensures Text(out[..]) == Part(text, p + 1, start)
  {
    ghost var before := out[..];
    out[p] := c;
    assert out[..] == before[p := c];
    assert text[..p + 1] == text[..p] + [c];
  }

  lemma NothingWritten(text: seq<bv8>, start: seq<bv8>)
    ensures Part(text, 0, start) == Text(start) && Tail(text, 0) == Text(text)
  {
  }

  lemma AllWritten(text: seq<bv8>, start: seq<bv8>)
    requires |text| <= |start|
    ensures Part(text, |text|, start) == Text(Over(text, start))
  {
    assert text[..|text|] == text;
  }

  lemma TailStep(text: seq<bv8>, p: nat, first: seq<bv8>, more: seq<bv8>)
    requires p <= |text| && Tail(text, p) == Text(first + more)
    ensures p + |first| <= |text| && Tail(text, p + |first|) == Text(more)
    ensures forall k :: 0 <= k < |first| ==> text[p + k] == first[k]
  {
    var t := text[p..];
    assert forall k :: 0 <= k < |t| ==> t[k] == text[p + k];
    assert text[p + |first|..] == t[|first|..];
  }

  lemma TailEnd(text: seq<bv8>, p: nat, more: seq<bv8>)
    requires p <= |text| && Tail(text, p) == Text(more)
    ensures |text| == p + |more|
    ensures more != [] ==> text[p] == more[0]
  {
    assert more != [] ==> text[p..][0] == text[p];
  }
}

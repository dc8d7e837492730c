// The storage of a queue (utilities/FreeRTOSV7.3.0/queue.c): a byte ring buffer with four
// pointers, proved to be a bounded double-ended queue of items.
module QueueRing {

  // A position on a ring of len slots, for positions that are at most two rounds too far.
  function Wrapped(x: nat, len: nat): (s: nat)
    requires len > 0 && x <= 2 * len
    ensures s < len
  {
    if x < len then x else if x < 2 * len then x - len else 0
  }

  // Where slot s begins.
  function At(s: nat, size: nat): nat { s * size }

  // The bytes of slot s.
  function Slot(store: seq<bv8>, s: nat, size: nat): (r: seq<bv8>)
    requires At(s, size) + size <= |store|
    ensures |r| == size
  {
    store[At(s, size)..At(s, size) + size]
  }

  lemma SlotFits(s: nat, len: nat, size: nat)
    requires s < len
    ensures At(s, size) + size <= At(len, size)
    ensures size > 0 ==> (At(s, size) + size >= At(len, size) <==> s + 1 == len)
    ensures s > 0 ==> At(s, size) - size == At(s - 1, size)
    ensures At(s, size) + size == At(s + 1, size)
    ensures At(0, size) == 0 && At(s, 0) == 0
  {
    assert len * size == s * size + (len - s) * size;
    assert (len - s) * size == size + (len - s - 1) * size;
    if s + 1 < len && size > 0 { Positive(len - s - 1, size); }
  }

  lemma Positive(a: int, b: int)
    requires a > 0 && b > 0
    ensures a * b > 0
  {
  }

  lemma SlotsApart(s: nat, t: nat, size: nat)
    requires s < t
    ensures At(s, size) + size <= At(t, size)
  {
    SlotFits(s, t, size);
  }

  // The item j places behind the read position r: the slot at r itself was read last.
  function ItemAt(store: seq<bv8>, r: nat, j: nat, len: nat, size: nat): (item: seq<bv8>)
    requires r < len && j < len && At(len, size) <= |store|
    ensures |item| == size
  {
    SlotFits(Wrapped(r + 1 + j, len), len, size);
    Slot(store, Wrapped(r + 1 + j, len), size)
  }

  // The n unread items, in the order in which they will be received.
  function Items(store: seq<bv8>, r: nat, n: nat, len: nat, size: nat): (items: seq<seq<bv8>>)
    requires r < len && n <= len && At(len, size) <= |store|
    ensures |items| == n
    ensures forall j :: 0 <= j < n ==> items[j] == ItemAt(store, r, j, len, size)
  {
    seq(n, j requires 0 <= j < n => ItemAt(store, r, j, len, size))
  }

  // after is before with the item written into slot s.
  ghost predicate Wrote(before: seq<bv8>, after: seq<bv8>, s: nat, item: seq<bv8>)
    requires At(s, |item|) + |item| <= |before|
  {
    && |after| == |before|
    && after[At(s, |item|)..At(s, |item|) + |item|] == item
    && (forall k :: 0 <= k < |before| && !(At(s, |item|) <= k < At(s, |item|) + |item|) ==> after[k] == before[k])
  }

  lemma OtherSlotKept(before: seq<bv8>, after: seq<bv8>, s: nat, item: seq<bv8>, t: nat, len: nat)
    requires s < len && t < len && s != t && At(len, |item|) <= |before|
    requires At(s, |item|) + |item| <= |before| && At(t, |item|) + |item| <= |before|
    requires Wrote(before, after, s, item)
    ensures Slot(after, t, |item|) == Slot(before, t, |item|)
  {
    if s < t { SlotsApart(s, t, |item|); } else { SlotsApart(t, s, |item|); }
  }

  // Writing the slot n + 1 places behind the read position appends the item: no unread
  // item is overwritten.
  lemma WriteBack(before: seq<bv8>, after: seq<bv8>, r: nat, n: nat, len: nat, item: seq<bv8>)
    requires r < len && n < len && At(len, |item|) <= |before|
    requires (SlotFits(Wrapped(r + 1 + n, len), len, |item|); Wrote(before, after, Wrapped(r + 1 + n, len), item))
    ensures Items(after, r, n + 1, len, |item|) == Items(before, r, n, len, |item|) + [item]
  {
    var w := Wrapped(r + 1 + n, len);
    SlotFits(w, len, |item|);
    forall j | 0 <= j < n ensures ItemAt(after, r, j, len, |item|) == ItemAt(before, r, j, len, |item|) {
      var t := Wrapped(r + 1 + j, len);
      SlotFits(t, len, |item|);
      OtherSlotKept(before, after, w, item, t, len);
    }
  }

  // The slot before r on the ring.
  function Before(r: nat, len: nat): (s: nat)
    requires r < len
    ensures s < len
  {
    if r == 0 then len - 1 else r - 1
  }

  // Writing the slot at the read position and moving that position back one slot puts the
  // item in front.
  lemma WriteFront(before: seq<bv8>, after: seq<bv8>, r: nat, n: nat, len: nat, item: seq<bv8>)
    requires r < len && n < len && At(len, |item|) <= |before|
    requires (SlotFits(r, len, |item|); Wrote(before, after, r, item))
    ensures Items(after, Before(r, len), n + 1, len, |item|) == [item] + Items(before, r, n, len, |item|)
  {
    SlotFits(r, len, |item|);
    var p := Before(r, len);
    assert Wrapped(p + 1, len) == r;
    forall j | 1 <= j <= n ensures ItemAt(after, p, j, len, |item|) == ItemAt(before, r, j - 1, len, |item|) {
      var t := Wrapped(p + 1 + j, len);
      assert t == Wrapped(r + 1 + (j - 1), len) && t != r;
      SlotFits(t, len, |item|);
      OtherSlotKept(before, after, r, item, t, len);
    }
  }

  // Moving the read position on one slot takes the first item out.
  lemma ReadFront(store: seq<bv8>, r: nat, n: nat, len: nat, size: nat)
    requires r < len && 0 < n <= len && At(len, size) <= |store|
    ensures Items(store, Wrapped(r + 1, len), n - 1, len, size) == Items(store, r, n, len, size)[1..]
    ensures Items(store, r, n, len, size)[0] == ItemAt(store, r, 0, len, size)
  {
    var p := Wrapped(r + 1, len);
    forall j | 0 <= j < n - 1 ensures ItemAt(store, p, j, len, size) == ItemAt(store, r, j + 1, len, size) {
      assert Wrapped(p + 1 + j, len) == Wrapped(r + 1 + (j + 1), len);
    }
  }

  // Stepping a pointer forward, with the wrap test of the source.
  lemma StepForward(s: nat, len: nat, size: nat)
    requires s < len
    ensures At(Wrapped(s + 1, len), size) == if At(s, size) + size >= At(len, size) then 0 else At(s, size) + size
    ensures At(s, size) + size <= At(len, size)
  {
    SlotFits(s, len, size);
    if size == 0 { TimesZero(Wrapped(s + 1, len)); TimesZero(s); TimesZero(len); }
  }

  // Stepping a pointer backward, with the wrap test of the source.
  lemma StepBackward(s: nat, len: nat, size: nat)
    requires s < len
    ensures At(Before(s, len), size) == if At(s, size) - size < 0 then At(len, size) - size else At(s, size) - size
    ensures At(s, size) + size <= At(len, size)
  {
    SlotFits(s, len, size);
    SlotFits(len - 1, len, size);
    if size == 0 { TimesZero(s); TimesZero(len); TimesZero(Before(s, len)); }
  }

  // Appending moves the write slot on, prepending moves the read slot back; either way the
  // write slot stays one more than the number of items ahead of the read slot.
  lemma MoveBoth(r: nat, n: nat, len: nat)
    requires r < len && n < len
    ensures Wrapped(Wrapped(r + 1 + n, len) + 1, len) == Wrapped(r + 1 + (n + 1), len)
    ensures Wrapped(Before(r, len) + 1 + (n + 1), len) == Wrapped(r + 1 + n, len)
  {
  }

  lemma TimesZero(s: nat)
    ensures At(s, 0) == 0
  {
  }

  lemma NothingWritten(store: seq<bv8>, s: nat, item: seq<bv8>)
    requires item == []
    ensures At(s, |item|) + |item| <= |store| && Wrote(store, store, s, item)
  {
    TimesZero(s);
  }

  // A queue that is not a mutex.  Pointers are offsets from pcHead; as in
  // xQueueGenericCreate the storage is one byte longer than the items need.
  class Queue {
    const uxLength: nat
    const uxItemSize: nat
    const storage: array<bv8>
    var pcTail: nat
    var pcWriteTo: nat
    var pcReadFrom: int
    var uxMessagesWaiting: nat

    // The slots pcReadFrom and pcWriteTo point at.
    ghost var readSlot: nat
    ghost var writeSlot: nat

    ghost predicate Valid()
      reads this, storage
    {
      && uxLength > 0
      && storage.Length == At(uxLength, uxItemSize) + 1
      && pcTail == At(uxLength, uxItemSize)
      && readSlot < uxLength && pcReadFrom == At(readSlot, uxItemSize)
      && writeSlot < uxLength && pcWriteTo == At(writeSlot, uxItemSize)
      && uxMessagesWaiting <= uxLength
      && writeSlot == Wrapped(readSlot + 1 + uxMessagesWaiting, uxLength)
    }

    // What the queue holds, the next item to be received first.
    ghost function Contents(): (items: seq<seq<bv8>>)
      requires Valid()
      reads this, storage
      ensures |items| == uxMessagesWaiting
    {
      Items(storage[..], readSlot, uxMessagesWaiting, uxLength, uxItemSize)
    }

    // xQueueGenericCreate followed by xQueueGenericReset
    constructor (length: nat, itemSize: nat)
      requires length > 0
      ensures Valid() && fresh(storage) && uxLength == length && uxItemSize == itemSize
      ensures Contents() == []
    {
      uxLength, uxItemSize := length, itemSize;
      storage := new bv8[At(length, itemSize) + 1];
      pcTail, pcWriteTo, pcReadFrom, uxMessagesWaiting := At(length, itemSize), 0, At((length - 1), itemSize), 0;
      readSlot, writeSlot := length - 1, 0;
    }

    // xQueueGenericReset, its effect on the storage
    method Reset()
      requires Valid()
      modifies this
      ensures Valid() && Contents() == []
    {
      pcTail := At(uxLength, uxItemSize);
      uxMessagesWaiting := 0;
      pcWriteTo := 0;
      pcReadFrom := At((uxLength - 1), uxItemSize);
      readSlot, writeSlot := uxLength - 1, 0;
    }

    // memcpy of one item into the storage
    method Store(at: nat, item: seq<bv8>, ghost s: nat)
      requires at + |item| <= storage.Length && at == At(s, |item|)
      modifies storage
      ensures Wrote(old(storage[..]), storage[..], s, item)
    {
      forall k | 0 <= k < |item| {
        storage[at + k] := item[k];
      }
      assert storage[at..at + |item|] == item;
    }

    // prvCopyDataToQueue
    method CopyDataToQueue(pvItemToQueue: seq<bv8>, toBack: bool)
      requires Valid() && |pvItemToQueue| == uxItemSize && uxMessagesWaiting < uxLength
      modifies this, storage
      ensures Valid()
      ensures Contents() == if toBack then old(Contents()) + [pvItemToQueue] else [pvItemToQueue] + old(Contents())
    {
      hide Items, Wrote, ItemAt, Slot, Before, Wrapped, At;
      ghost var before := storage[..];
      StepForward(writeSlot, uxLength, uxItemSize);
      StepBackward(readSlot, uxLength, uxItemSize);
      MoveBoth(readSlot, uxMessagesWaiting, uxLength);
      ghost var slot := if toBack then writeSlot else readSlot;
      if uxItemSize == 0 {
        NothingWritten(before, slot, pvItemToQueue);
        TimesZero(writeSlot);
        TimesZero(readSlot);
        TimesZero(Wrapped(writeSlot + 1, uxLength));
        TimesZero(Before(readSlot, uxLength));
      } else if toBack {
        Store(pcWriteTo, pvItemToQueue, slot);
        pcWriteTo := pcWriteTo + uxItemSize;
        if pcWriteTo >= pcTail {
          pcWriteTo := 0;
        }
      } else {
        Store(pcReadFrom, pvItemToQueue, slot);
        pcReadFrom := pcReadFrom - uxItemSize;
        if pcReadFrom < 0 {
          pcReadFrom := pcTail - uxItemSize;
        }
      }
      assert Wrote(before, storage[..], slot, pvItemToQueue);
      if toBack {
        WriteBack(before, storage[..], readSlot, uxMessagesWaiting, uxLength, pvItemToQueue);
        writeSlot := Wrapped(writeSlot + 1, uxLength);
      } else {
        WriteFront(before, storage[..], readSlot, uxMessagesWaiting, uxLength, pvItemToQueue);
        readSlot := Before(readSlot, uxLength);
      }
      uxMessagesWaiting := uxMessagesWaiting + 1;
    }

    // prvCopyDataFromQueue: the read pointer moves on; the count is left to the caller.
    method CopyDataFromQueue() returns (pvBuffer: seq<bv8>)
      requires Valid() && uxMessagesWaiting > 0
      modifies this`pcReadFrom, this`readSlot
      ensures pvBuffer == old(Contents())[0]
      ensures readSlot == Wrapped(old(readSlot) + 1, uxLength) && pcReadFrom == At(readSlot, uxItemSize)
      ensures Items(storage[..], readSlot, uxMessagesWaiting - 1, uxLength, uxItemSize) == old(Contents())[1..]
    {
      hide Items, Wrapped, At;
      StepForward(readSlot, uxLength, uxItemSize);
      ReadFront(storage[..], readSlot, uxMessagesWaiting, uxLength, uxItemSize);
      pcReadFrom := pcReadFrom + uxItemSize;
      if pcReadFrom >= pcTail {
        pcReadFrom := 0;
      }
      readSlot := Wrapped(readSlot + 1, uxLength);
      SlotFits(readSlot, uxLength, uxItemSize);
      pvBuffer := storage[pcReadFrom..pcReadFrom + uxItemSize];
    }

    // The critical section of xQueueGenericSend, and of xQueueGenericSendFromISR
    method Send(pvItemToQueue: seq<bv8>, toBack: bool) returns (sent: bool)
      requires Valid() && |pvItemToQueue| == uxItemSize
      modifies this, storage
      ensures Valid() && sent == (|old(Contents())| < uxLength)
      ensures Contents() ==
              if !sent then old(Contents())
              else if toBack then old(Contents()) + [pvItemToQueue]
              else [pvItemToQueue] + old(Contents())
    {
      if uxMessagesWaiting < uxLength {
        CopyDataToQueue(pvItemToQueue, toBack);
        sent := true;
      } else {
        sent := false;
      }
    }

    // The critical section of xQueueGenericReceive
    method Receive(xJustPeeking: bool) returns (received: bool, pvBuffer: seq<bv8>)
      requires Valid()
      modifies this
      ensures Valid() && received == (old(Contents()) != [])
      ensures received ==> pvBuffer == old(Contents())[0]
      ensures Contents() == if received && !xJustPeeking then old(Contents())[1..] else old(Contents())
    {
      received, pvBuffer := false, [];
      if uxMessagesWaiting > 0 {
        var pcOriginalReadPosition := pcReadFrom;
        ghost var originalSlot := readSlot;
        pvBuffer := CopyDataFromQueue();
        if !xJustPeeking {
          uxMessagesWaiting := uxMessagesWaiting - 1;
        } else {
          pcReadFrom := pcOriginalReadPosition;
          readSlot := originalSlot;
        }
        received := true;
      }
    }

    // xQueueReceiveFromISR, up to its wake-up
    method ReceiveFromISR() returns (received: bool, pvBuffer: seq<bv8>)
      requires Valid()
      modifies this
      ensures Valid() && received == (old(Contents()) != [])
      ensures received ==> pvBuffer == old(Contents())[0]
      ensures Contents() == if received then old(Contents())[1..] else old(Contents())
    {
      received, pvBuffer := false, [];
      if uxMessagesWaiting > 0 {
        pvBuffer := CopyDataFromQueue();
        uxMessagesWaiting := uxMessagesWaiting - 1;
        received := true;
      }
    }
  }
}

/** The bridge's uplink batcher: the reserve/release ledger, frameBound and joinPending. */
module Packer {
  import opened Octets
  import opened Outcomes
  import opened Frames

  const QUEUE_LIMIT := 33554432
  const QUEUE_ITEM_LIMIT := 16384
  const BODY_FRAMES := 4096

  /** Some whole frame starts the string. */
  predicate HasFrame(b: Bytes) {
    |b| >= HEADER_SIZE && HEADER_SIZE + HeaderLength(b) <= |b|
  }

  function FirstSize(b: Bytes): (n: nat)
    requires HasFrame(b)
    ensures HEADER_SIZE <= n <= |b|
  {
    HEADER_SIZE + HeaderLength(b)
  }

  /** A string of zero or more whole frames. */
  predicate Framed(b: Bytes)
    decreases |b|
  {
    b == [] || (HasFrame(b) && Framed(b[FirstSize(b)..]))
  }

  function FrameCount(b: Bytes): nat
    requires Framed(b)
    decreases |b|
  {
    if b == [] then 0 else 1 + FrameCount(b[FirstSize(b)..])
  }

  /** What the relay takes in one request: at most 4096 frames and `limit` bytes, one frame always. */
  predicate IsBody(b: Bytes, limit: nat) {
    && b != [] && Framed(b)
    && FrameCount(b) <= BODY_FRAMES
    && (|b| <= limit || FrameCount(b) == 1)
  }

  lemma {:induction false} FramedAppend(a: Bytes, b: Bytes)
    requires Framed(a) && Framed(b)
    ensures Framed(a + b) && FrameCount(a + b) == FrameCount(a) + FrameCount(b)
    decreases |a|
  {
    if a == [] {
      assert a + b == b;
    } else {
      assert (a + b)[4..8] == a[4..8];
      assert (a + b)[FirstSize(a)..] == a[FirstSize(a)..] + b;
      FramedAppend(a[FirstSize(a)..], b);
    }
  }

  lemma {:induction false} FramedSuffix(a: Bytes, b: Bytes)
    requires Framed(a) && Framed(a + b)
    ensures Framed(b)
    decreases |a|
  {
    if a == [] {
      assert a + b == b;
    } else {
      assert (a + b)[4..8] == a[4..8];
      assert (a + b)[FirstSize(a)..] == a[FirstSize(a)..] + b;
      FramedSuffix(a[FirstSize(a)..], b);
    }
  }

  lemma OneFrame(b: Bytes)
    requires HasFrame(b)
    ensures var one := b[..FirstSize(b)];
      Framed(one) && FrameCount(one) == 1
  {
    var one := b[..FirstSize(b)];
    assert one[4..8] == b[4..8];
    assert one[FirstSize(one)..] == [];
  }

  lemma {:induction false} EncodingIsFramed(fs: seq<Frame>)
    requires AllFit(fs, MAX_PAYLOAD)
    ensures Framed(EncodeAll(fs)) && FrameCount(EncodeAll(fs)) == |fs|
  {
    if fs != [] {
      HeaderOfEncoded(fs[0], EncodeAll(fs[1..]));
      EncodingIsFramed(fs[1..]);
    }
  }

  /** The whole-frame prefix that frameBound settles on: as much as fits, but never nothing. */
  predicate IsBound(value: Bytes, maxFrames: nat, maxBytes: nat, frames: nat, bytes: nat) {
    && bytes <= |value| && Framed(value[..bytes]) && FrameCount(value[..bytes]) == frames
    && (frames > 1 ==> frames <= maxFrames && bytes <= maxBytes)
    && (value != [] ==> frames >= 1)
    && (bytes < |value| ==>
      HasFrame(value[bytes..]) && (frames >= maxFrames || bytes + FirstSize(value[bytes..]) > maxBytes))
  }

  lemma NextFrame(value: Bytes, offset: nat)
    requires offset <= |value| && Framed(value[..offset]) && HasFrame(value[offset..])
    ensures var end := offset + FirstSize(value[offset..]);
      Framed(value[..end]) && FrameCount(value[..end]) == FrameCount(value[..offset]) + 1
  {
    hide Framed, FrameCount, HeaderLength;
    var rest := value[offset..];
    var end := offset + FirstSize(rest);
    OneFrame(rest);
    assert rest[..FirstSize(rest)] == value[offset..end];
    FramedAppend(value[..offset], value[offset..end]);
    assert value[..end] == value[..offset] + value[offset..end];
  }

  lemma BrokenTail(value: Bytes, offset: nat)
    requires offset < |value| && Framed(value[..offset]) && !HasFrame(value[offset..])
    ensures !Framed(value)
  {
    assert value == value[..offset] + value[offset..];
    if Framed(value) {
      FramedSuffix(value[..offset], value[offset..]);
    }
  }

  lemma NoneRead(value: Bytes)
    ensures Framed(value[..0]) && FrameCount(value[..0]) == 0
  {
  }

  /** None is the thrown error. */
  method FrameBound(value: Bytes, maxFrames: nat, maxBytes: nat) returns (r: Option<(nat, nat)>)
    ensures r.Some? ==> IsBound(value, maxFrames, maxBytes, r.value.0, r.value.1)
    ensures r.None? ==> !Framed(value)
  {
    hide Framed, FrameCount, HeaderLength;
    NoneRead(value);
    var offset: nat, frames: nat := 0, 0;
    while offset < |value|
      invariant offset <= |value|
      invariant frames == 0 <==> offset == 0
      invariant Framed(value[..offset]) && FrameCount(value[..offset]) == frames
      invariant frames > 1 ==> frames <= maxFrames && offset <= maxBytes
    {
      if |value| - offset < HEADER_SIZE || offset + HEADER_SIZE + HeaderLength(value[offset..]) > |value| {
        BrokenTail(value, offset);
        return None;
      }
      var end := offset + HEADER_SIZE + HeaderLength(value[offset..]);
      if frames > 0 && (frames >= maxFrames || end > maxBytes) {
        return Some((frames, offset));
      }
      NextFrame(value, offset);
      frames := frames + 1;
      offset := end;
    }
    return Some((frames, offset));
  }

  predicate AllNonempty(items: seq<Bytes>) {
    forall i | 0 <= i < |items| :: items[i] != []
  }

  lemma {:induction false} FlattenAllFramed(items: seq<Bytes>)
    requires forall i | 0 <= i < |items| :: Framed(items[i])
    ensures Framed(Flatten(items))
  {
    if items != [] {
      FlattenAllFramed(items[1..]);
      FramedAppend(items[0], Flatten(items[1..]));
    }
  }

  /** Whole items chosen so far, with joinPending's running totals. */
  ghost predicate IsPacked(items: seq<Bytes>, total: nat, frames: nat, limit: nat) {
    && total == |Flatten(items)|
    && Framed(Flatten(items)) && FrameCount(Flatten(items)) == frames
    && (items != [] ==> IsBody(Flatten(items), limit))
  }

  /** A further whole item within both bounds; the first one only has to be its own bound. */
  lemma PackOne(items: seq<Bytes>, item: Bytes, total: nat, frames: nat, itemFrames: nat, bytes: nat, limit: nat)
    requires IsPacked(items, total, frames, limit) && item != []
    requires IsBound(item, BODY_FRAMES, limit, itemFrames, bytes)
    requires if items == [] then bytes == |item| else total + |item| <= limit && frames + itemFrames <= BODY_FRAMES
    ensures IsPacked(items + [item], total + |item|, frames + itemFrames, limit)
  {
    if bytes < |item| {
      assert false;
    }
    assert item[..bytes] == item;
    FlattenSnoc(items, item);
    FramedAppend(Flatten(items), item);
  }

  lemma SomeFrames(b: Bytes)
    requires Framed(b) && b != []
    ensures FrameCount(b) >= 1
  {
  }

  /** The item at which packing stops would have made the body too big, or broken its framing. */
  lemma NextOverflows(items: seq<Bytes>, item: Bytes, total: nat, frames: nat, itemFrames: nat, bytes: nat, limit: nat)
    requires IsPacked(items, total, frames, limit) && items != [] && item != []
    requires IsBound(item, BODY_FRAMES, limit, itemFrames, bytes)
    requires total + |item| > limit || frames + itemFrames > BODY_FRAMES
    ensures !IsBody(Flatten(items + [item]), limit)
  {
    hide Framed, FrameCount, HasFrame, Flatten;
    FlattenSnoc(items, item);
    if Framed(Flatten(items) + item) {
      FramedSuffix(Flatten(items), item);
      FramedAppend(Flatten(items), item);
      SomeFrames(Flatten(items));
      SomeFrames(item);
      assert item == item[..bytes] + item[bytes..];
      FramedSuffix(item[..bytes], item[bytes..]);
      FramedAppend(item[..bytes], item[bytes..]);
    }
  }

  /** An item cut at its bound is too big to be a body, or not whole frames. */
  lemma CutItemOverflows(item: Bytes, frames: nat, bytes: nat, limit: nat)
    requires IsBound(item, BODY_FRAMES, limit, frames, bytes) && bytes < |item|
    ensures !IsBody(item, limit)
  {
    hide Framed, FrameCount, HasFrame;
    var head, tail := item[..bytes], item[bytes..];
    assert item == head + tail;
    if Framed(item) {
      FramedSuffix(head, tail);
      FramedAppend(head, tail);
      OneFrame(tail);
      assert tail == tail[..FirstSize(tail)] + tail[FirstSize(tail)..];
      FramedSuffix(tail[..FirstSize(tail)], tail[FirstSize(tail)..]);
      FramedAppend(tail[..FirstSize(tail)], tail[FirstSize(tail)..]);
      if FrameCount(tail) == 1 {
        assert frames >= BODY_FRAMES || |item| > limit;
      }
    }
  }

  /** How joinPending cuts the queue: its first item in two, or after some whole items. */
  datatype Choice = Malformed | Split(bytes: nat) | Whole(items: nat, bytes: nat)

  /** joinPending's loop over the queue. */
  method Choose(values: seq<Bytes>, batchLimit: nat) returns (choice: Choice)
    requires values != [] && AllNonempty(values)
    ensures match choice
      case Malformed => exists i :: 0 <= i < |values| && !Framed(values[i])
      case Split(bytes) =>
        && 0 < bytes < |values[0]| && IsBody(values[0][..bytes], batchLimit) && !IsBody(values[0], batchLimit)
        && IsBound(values[0], BODY_FRAMES, batchLimit, FrameCount(values[0][..bytes]), bytes)
      case Whole(items, bytes) =>
        && 0 < items <= |values|
        && IsBody(Flatten(values[..items]), batchLimit) && bytes == |Flatten(values[..items])|
        && (items < |values| ==> !IsBody(Flatten(values[..items + 1]), batchLimit))
  {
    var total: nat, count: nat, frames: nat := 0, 0, 0;
    while count < |values|
      invariant count <= |values|
      invariant IsPacked(values[..count], total, frames, batchLimit)
    {
      var item := values[count];
      var bound := FrameBound(item, BODY_FRAMES, batchLimit);
      if bound.None? {
        return Malformed;
      }
      var (itemFrames, bytes) := bound.value;
      if count == 0 && bytes != |item| {
        CutItemOverflows(item, itemFrames, bytes, batchLimit);
        return Split(bytes);
      }
      if count != 0 && (total + |item| > batchLimit || frames + itemFrames > BODY_FRAMES) {
        NextOverflows(values[..count], item, total, frames, itemFrames, bytes, batchLimit);
        assert values[..count + 1] == values[..count] + [item];
        return Whole(count, total);
      }
      PackOne(values[..count], item, total, frames, itemFrames, bytes, batchLimit);
      assert values[..count + 1] == values[..count] + [item];
      total, frames, count := total + |item|, frames + itemFrames, count + 1;
    }
    return Whole(count, total);
  }

  /** upPending with its ledger (queuedBytes, queuedItems), for a carrier without lanes. */
  class Outbox {
    var pending: seq<Bytes>
    var queuedBytes: int
    var queuedItems: int
    const batchLimit: nat

    // The unacknowledged batch, and the whole history: bytes taken in, bodies sent out.
    ghost var inFlight: Bytes
    ghost var inFlightItems: nat
    ghost var accepted: Bytes
    ghost var emitted: seq<Bytes>

    /** The ledger counts pending plus in-flight; bodies then pending spell out what was accepted. */
    ghost predicate Valid()
      reads this
    {
      && AllNonempty(pending)
      && queuedBytes == |Flatten(pending)| + |inFlight|
      && queuedItems == |pending| + inFlightItems
      && accepted == Flatten(emitted) + Flatten(pending)
      && (forall i | 0 <= i < |emitted| :: IsBody(emitted[i], batchLimit))
    }

    constructor (batchLimit: nat)
      ensures Valid() && this.batchLimit == batchLimit
      ensures pending == [] && accepted == [] && emitted == [] && inFlight == [] && inFlightItems == 0
    {
      this.batchLimit := batchLimit;
      pending, queuedBytes, queuedItems := [], 0, 0;
      inFlight, inFlightItems, accepted, emitted := [], 0, [], [];
    }

    /** queueUp: reserve, then push. `buffered` is what the socket still holds. False means fail(). */
    method QueueUp(data: Bytes, buffered: nat) returns (ok: bool)
      requires Valid()
      modifies this`pending, this`queuedBytes, this`queuedItems, this`accepted
      ensures Valid()
      ensures ok <==> data != [] && old(queuedBytes) + buffered + |data| <= QUEUE_LIMIT
                      && old(queuedItems) < QUEUE_ITEM_LIMIT
      ensures ok ==> accepted == old(accepted) + data && pending == old(pending) + [data]
      ensures !ok ==> accepted == old(accepted) && pending == old(pending)
    {
      if data == [] || queuedBytes + buffered > QUEUE_LIMIT - |data| || queuedItems >= QUEUE_ITEM_LIMIT {
        return false;
      }
      FlattenSnoc(pending, data);
      pending := pending + [data];
      queuedBytes := queuedBytes + |data|;
      queuedItems := queuedItems + 1;
      accepted := accepted + data;
      return true;
    }

    /**
     * joinPending. None is the thrown error, which leaves everything in place. `total` and `count`
     * are what release() is later called with. What is left begins with bytes that would not have fit.
     */
    method JoinPending() returns (r: Option<Bytes>, total: nat, count: nat)
      requires Valid() && pending != [] && inFlight == [] && inFlightItems == 0
      modifies this`pending, this`queuedItems, this`inFlight, this`inFlightItems, this`emitted
      ensures Valid()
      ensures r.Some? ==>
        && IsBody(r.value, batchLimit) && r.value + Flatten(pending) == Flatten(old(pending))
        && emitted == old(emitted) + [r.value]
        && inFlight == r.value && total == |r.value| && inFlightItems == count > 0
        && (pending != [] ==> !IsBody(r.value + pending[0], batchLimit))
      ensures r.None? ==>
        && pending == old(pending) && emitted == old(emitted) && inFlight == [] && inFlightItems == 0
        && exists i :: 0 <= i < |pending| && !Framed(pending[i])
    {
      hide Flatten, IsBody, Framed;
      var choice := Choose(pending, batchLimit);
      match choice
      case Malformed =>
        return None, 0, 0;
      case Split(bytes) =>
        var head := pending[0][..bytes];
        SplitFirst(pending, bytes);
        EmitHead(emitted, head, pending, pending[0 := pending[0][bytes..]]);
        assert head + pending[0][bytes..] == pending[0];
        pending := pending[0 := pending[0][bytes..]];
        queuedItems := queuedItems + 1;
        inFlight, inFlightItems, emitted := head, 1, emitted + [head];
        return Some(head), bytes, 1;
      case Whole(items, bytes) =>
        var body := Flatten(pending[..items]);
        assert pending == pending[..items] + pending[items..];
        FlattenAppend(pending[..items], pending[items..]);
        EmitHead(emitted, body, pending, pending[items..]);
        if items < |pending| {
          assert pending[..items + 1] == pending[..items] + [pending[items]];
          FlattenSnoc(pending[..items], pending[items]);
        }
        pending := pending[items..];
        inFlight, inFlightItems, emitted := body, items, emitted + [body];
        return Some(body), bytes, items;
    }

    /** release(), on the acknowledgement of the batch in flight. */
    method Release(bytes: nat, items: nat)
      requires Valid() && bytes == |inFlight| && items == inFlightItems
      modifies this`queuedBytes, this`queuedItems, this`inFlight, this`inFlightItems
      ensures Valid() && inFlight == [] && inFlightItems == 0
      ensures queuedBytes == |Flatten(pending)| && queuedItems == |pending|
    {
      queuedBytes := queuedBytes - bytes;
      queuedItems := queuedItems - items;
      inFlight, inFlightItems := [], 0;
    }
  }

  /** A body leaves the front of the queue for the end of what was sent. */
  lemma EmitHead(emitted: seq<Bytes>, body: Bytes, before: seq<Bytes>, after: seq<Bytes>)
    requires Flatten(before) == body + Flatten(after)
    ensures Flatten(emitted + [body]) + Flatten(after) == Flatten(emitted) + Flatten(before)
    ensures |Flatten(before)| == |body| + |Flatten(after)|
  {
    hide Flatten;
    FlattenSnoc(emitted, body);
    assert (Flatten(emitted) + body) + Flatten(after) == Flatten(emitted) + (body + Flatten(after));
  }

  lemma SplitFirst(items: seq<Bytes>, at: nat)
    requires items != [] && at <= |items[0]|
    ensures items[0][..at] + Flatten(items[0 := items[0][at..]]) == Flatten(items)
  {
    assert items[0 := items[0][at..]][1..] == items[1..];
    assert items[0][..at] + items[0][at..] == items[0];
  }

  /** A body the packer emits, made of frames within the payload limit, parses at the relay. */
  lemma RelayParsesPackedBody(fs: seq<Frame>, batchLimit: nat, maxPayload: int)
    requires AllFit(fs, PayloadLimit(maxPayload)) && IsBody(EncodeAll(fs), batchLimit)
    ensures Parsed(EncodeAll(fs), maxPayload) == Ok(fs)
  {
    EncodingIsFramed(fs);
    ParseInvertsEncode(fs, maxPayload);
  }
}

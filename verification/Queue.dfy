/** The downlink queue as a plain list of frames: what pushing and taking mean. */
module Queue {
  import opened Octets
  import opened Outcomes
  import opened Frames
  import opened Limits

  function FrameCost(f: Frame): int {
    HEADER_SIZE + |f.payload| + QUEUE_ITEM_COST
  }

  /** Encoded length of a run of frames. */
  function Size(q: seq<Frame>): nat {
    if q == [] then 0 else Size(q[..|q| - 1]) + HEADER_SIZE + |q[|q| - 1].payload|
  }

  /** What a run of frames is charged: its encoded bytes plus 256 and one item per frame. */
  function ChargeOf(q: seq<Frame>): Charge {
    Charge(Size(q) + QUEUE_ITEM_COST * |q|, |q|)
  }

  lemma ChargeOfEmpty(q: seq<Frame>)
    requires |q| == 0
    ensures ChargeOf(q) == NOTHING
  {
  }

  predicate IsWindowOf(f: Frame, id: nat) {
    f.kind == WINDOW && f.id == id
  }

  /** Position of the latest queued WINDOW frame of a stream: what the index map remembers. */
  function LastWindow(q: seq<Frame>, id: nat): (r: Option<nat>)
    ensures r.Some? ==>
      && r.value < |q| && IsWindowOf(q[r.value], id)
      && forall j | r.value < j < |q| :: !IsWindowOf(q[j], id)
    ensures r.None? ==> forall j | 0 <= j < |q| :: !IsWindowOf(q[j], id)
  {
    if q == [] then None
    else if IsWindowOf(q[|q| - 1], id) then Some(|q| - 1)
    else LastWindow(q[..|q| - 1], id)
  }

  datatype Placement = MergeWindow(index: nat) | ExtendTail | Append

  /** Where queueFrameLocked puts a frame. */
  function Place(q: seq<Frame>, f: Frame, maxPayload: nat): (p: Placement)
    ensures p.MergeWindow? ==>
      && p.index < |q| && IsWindowOf(q[p.index], f.id) && f.kind == WINDOW
      && Amount(q[p.index].payload) + Amount(f.payload) < TWO_32
    ensures p.ExtendTail? ==> q != [] && f.kind == DATA && q[|q| - 1].kind == DATA && q[|q| - 1].id == f.id
  {
    var merge := if f.kind == WINDOW then LastWindow(q, f.id) else None;
    if merge.Some? && Amount(q[merge.value].payload) + Amount(f.payload) <= MAX_UINT32 then
      MergeWindow(merge.value)
    else if q != [] && q[|q| - 1].kind == DATA && f.kind == DATA && q[|q| - 1].id == f.id
            && |q[|q| - 1].payload| + |f.payload| <= maxPayload then ExtendTail
    else Append
  }

  function Push(q: seq<Frame>, f: Frame, maxPayload: nat): seq<Frame> {
    match Place(q, f, maxPayload)
    case MergeWindow(i) =>
      q[i := Frame(WINDOW, f.id, WindowPayload(Amount(q[i].payload) + Amount(f.payload)))]
    case ExtendTail =>
      q[|q| - 1 := Frame(DATA, f.id, q[|q| - 1].payload + f.payload)]
    case Append => q + [f]
  }

  /** The reservation a push asks for; a merged WINDOW asks for none. */
  function PushCharge(q: seq<Frame>, f: Frame, maxPayload: nat): Charge {
    match Place(q, f, maxPayload)
    case MergeWindow(_) => NOTHING
    case ExtendTail => Charge(|f.payload|, 0)
    case Append => Charge(FrameCost(f), 1)
  }

  function PushClass(f: Frame): Class {
    if f.kind == DATA then Downlink else Control
  }

  /** A frame the relay itself queues. */
  predicate Queueable(f: Frame) {
    && Fits(f, MAX_PAYLOAD)
    && (f.kind == WINDOW ==> |f.payload| == 4)
  }

  predicate AllQueueable(q: seq<Frame>) {
    forall i | 0 <= i < |q| :: Queueable(q[i])
  }

  lemma PushKeepsQueueable(q: seq<Frame>, f: Frame, maxPayload: nat)
    requires AllQueueable(q) && Queueable(f) && maxPayload <= MAX_PAYLOAD
    ensures AllQueueable(Push(q, f, maxPayload))
  {
    hide Amount, LastWindow;
  }

  /** No DATA frame would have fitted into the one of its stream just before it. */
  predicate Dense(q: seq<Frame>, maxPayload: int) {
    forall i | 0 < i < |q| && q[i - 1].kind == DATA && q[i].kind == DATA && q[i - 1].id == q[i].id ::
      |q[i - 1].payload| + |q[i].payload| > maxPayload
  }

  lemma PushKeepsDense(q: seq<Frame>, f: Frame, maxPayload: nat)
    requires Dense(q, maxPayload)
    ensures Dense(Push(q, f, maxPayload), maxPayload)
  {
    hide Amount, LastWindow, PutUint32;
    var r := Push(q, f, maxPayload);
    forall i | 0 < i < |r| && r[i - 1].kind == DATA && r[i].kind == DATA && r[i - 1].id == r[i].id
      ensures |r[i - 1].payload| + |r[i].payload| > maxPayload
    {
      if i < |q| {
        assert q[i - 1].kind == DATA && q[i].kind == DATA && q[i - 1].id == q[i].id;
      }
    }
  }

  lemma BackIsDense(q: seq<Frame>, n: nat, maxPayload: int)
    requires Dense(q, maxPayload) && n <= |q|
    ensures Dense(q[n..], maxPayload)
  {
    assert forall i | 0 <= i < |q[n..]| :: q[n..][i] == q[n + i];
  }

  // What the client learns from a run of frames: an ordered stream of bytes and closes, and credit.

  datatype Item = Payload(id: nat, octet: Byte) | Closed(id: nat) | Other(frame: Frame)

  function Tagged(id: nat, b: Bytes): (r: seq<Item>)
    ensures |r| == |b|
  {
    seq(|b|, i requires 0 <= i < |b| => Payload(id, b[i]))
  }

  function Items(f: Frame): seq<Item> {
    if f.kind == DATA then Tagged(f.id, f.payload)
    else if f.kind == CLOSE then [Closed(f.id)]
    else if f.kind == WINDOW then []
    else [Other(f)]
  }

  function Expand(q: seq<Frame>): seq<Item> {
    if q == [] then [] else Expand(q[..|q| - 1]) + Items(q[|q| - 1])
  }

  function Credit(f: Frame, id: nat): nat {
    if IsWindowOf(f, id) then Amount(f.payload) else 0
  }

  function WindowTotal(q: seq<Frame>, id: nat): nat {
    if q == [] then 0 else WindowTotal(q[..|q| - 1], id) + Credit(q[|q| - 1], id)
  }

  lemma {:induction false} ExpandAppend(a: seq<Frame>, b: seq<Frame>)
    ensures Expand(a + b) == Expand(a) + Expand(b)
  {
    hide Items;
    if |b| == 0 {
      assert a + b == a;
    } else {
      var init, last := b[..|b| - 1], Items(b[|b| - 1]);
      assert (a + b)[..|a + b| - 1] == a + init;
      ExpandAppend(a, init);
      assert (Expand(a) + Expand(init)) + last == Expand(a) + (Expand(init) + last);
    }
  }

  lemma {:induction false} WindowTotalAppend(a: seq<Frame>, b: seq<Frame>, id: nat)
    ensures WindowTotal(a + b, id) == WindowTotal(a, id) + WindowTotal(b, id)
  {
    if b == [] {
      assert a + b == a;
    } else {
      assert (a + b)[..|a + b| - 1] == a + b[..|b| - 1];
      WindowTotalAppend(a, b[..|b| - 1], id);
    }
  }

  lemma {:induction false} SizeAppend(a: seq<Frame>, b: seq<Frame>)
    ensures Size(a + b) == Size(a) + Size(b)
  {
    if b == [] {
      assert a + b == a;
    } else {
      assert (a + b)[..|a + b| - 1] == a + b[..|b| - 1];
      SizeAppend(a, b[..|b| - 1]);
    }
  }

  /** Overwriting one frame, seen by the three summaries at once. */
  lemma Overwrite(q: seq<Frame>, i: nat, f: Frame, id: nat)
    requires i < |q|
    ensures Expand(q[i := f]) == Expand(q[..i]) + Items(f) + Expand(q[i + 1..])
    ensures Expand(q) == Expand(q[..i]) + Items(q[i]) + Expand(q[i + 1..])
    ensures WindowTotal(q[i := f], id) == WindowTotal(q, id) - Credit(q[i], id) + Credit(f, id)
    ensures Size(q[i := f]) == Size(q) + |f.payload| - |q[i].payload|
  {
    Isolate(q, i, id);
    Isolate(q[i := f], i, id);
    assert q[i := f][..i] == q[..i] && q[i := f][i + 1..] == q[i + 1..];
  }

  lemma Isolate(q: seq<Frame>, i: nat, id: nat)
    requires i < |q|
    ensures Expand(q) == Expand(q[..i]) + Items(q[i]) + Expand(q[i + 1..])
    ensures WindowTotal(q, id) == WindowTotal(q[..i], id) + Credit(q[i], id) + WindowTotal(q[i + 1..], id)
    ensures Size(q) == Size(q[..i]) + HEADER_SIZE + |q[i].payload| + Size(q[i + 1..])
  {
    var head, tail := q[..i + 1], q[i + 1..];
    assert q == head + tail && head[..|head| - 1] == q[..i];
    ExpandAppend(head, tail);
    WindowTotalAppend(head, tail, id);
    SizeAppend(head, tail);
  }

  lemma MergeWindowRefines(q: seq<Frame>, i: nat, f: Frame, id: nat)
    requires i < |q| && IsWindowOf(q[i], f.id) && f.kind == WINDOW
    requires Amount(q[i].payload) + Amount(f.payload) < TWO_32
    ensures var merged := q[i := Frame(WINDOW, f.id, WindowPayload(Amount(q[i].payload) + Amount(f.payload)))];
      && Expand(merged) == Expand(q)
      && WindowTotal(merged, id) == WindowTotal(q, id) + Credit(f, id)
      && (|q[i].payload| == 4 ==> Size(merged) == Size(q))
  {
    hide Amount, Expand, WindowTotal, Size;
    var sum := Amount(q[i].payload) + Amount(f.payload);
    var f' := Frame(WINDOW, f.id, WindowPayload(sum));
    WindowRoundTrip(sum, []);
    Overwrite(q, i, f', id);
  }

  lemma ExtendTailRefines(q: seq<Frame>, f: Frame, id: nat)
    requires q != [] && f.kind == DATA && q[|q| - 1].kind == DATA && q[|q| - 1].id == f.id
    ensures var extended := q[|q| - 1 := Frame(DATA, f.id, q[|q| - 1].payload + f.payload)];
      && Expand(extended) == Expand(q) + Items(f)
      && WindowTotal(extended, id) == WindowTotal(q, id)
      && Size(extended) == Size(q) + |f.payload|
  {
    var last := q[|q| - 1];
    var longer := Frame(DATA, f.id, last.payload + f.payload);
    assert Items(longer) == Items(last) + Items(f);
    assert q[|q| - 1 := longer][..|q| - 1] == q[..|q| - 1];
  }

  lemma AppendRefines(q: seq<Frame>, f: Frame, id: nat)
    ensures Expand(q + [f]) == Expand(q) + Items(f)
    ensures WindowTotal(q + [f], id) == WindowTotal(q, id) + Credit(f, id)
    ensures Size(q + [f]) == Size(q) + HEADER_SIZE + |f.payload|
  {
    assert (q + [f])[..|q|] == q;
  }

  /**
   * Coalescing changes nothing the client can tell apart: the queue means the same as if the frame
   * had been appended, its credit arrives in full, and the charge asked for is the queue's growth.
   */
  lemma PushRefinesAppend(q: seq<Frame>, f: Frame, maxPayload: nat, id: nat)
    ensures Expand(Push(q, f, maxPayload)) == Expand(q + [f])
    ensures WindowTotal(Push(q, f, maxPayload), id) == WindowTotal(q + [f], id)
    ensures AllQueueable(q) ==>
      ChargeOf(Push(q, f, maxPayload)) == ChargeOf(q).Plus(PushCharge(q, f, maxPayload))
  {
    hide Amount, WindowPayload, Expand, WindowTotal, Size, Items;
    AppendRefines(q, f, id);
    match Place(q, f, maxPayload)
    case MergeWindow(i) =>
      MergeWindowRefines(q, i, f, id);
      WindowAddsNoItems(f);
    case ExtendTail =>
      ExtendTailRefines(q, f, id);
    case Append =>
  }

  lemma WindowAddsNoItems(f: Frame)
    ensures f.kind == WINDOW ==> Items(f) == []
  {
  }

  // Taking a batch off the front.

  lemma {:induction false} SizeIsEncodedLength(q: seq<Frame>)
    requires AllFit(q, MAX_PAYLOAD)
    ensures Size(q) == |EncodeAll(q)|
  {
    if q != [] {
      assert q == q[..|q| - 1] + [q[|q| - 1]];
      EncodeAllAppend(q[..|q| - 1], [q[|q| - 1]]);
      EncodeAllOne(q[|q| - 1]);
      SizeIsEncodedLength(q[..|q| - 1]);
    }
  }

  /** The frames one downlink batch carries: the longest front within both bounds, at least one. */
  predicate IsTake(q: seq<Frame>, batchBytes: int, count: nat) {
    && count <= |q| && count <= MAX_BATCH_FRAMES
    && (q != [] ==> count >= 1)
    && (count > 1 ==> Size(q[..count]) <= batchBytes)
    && (count < |q| ==> count == MAX_BATCH_FRAMES || Size(q[..count + 1]) > batchBytes)
  }

  /** Counts from `count` frames already chosen. */
  function TakeFrom(q: seq<Frame>, batchBytes: int, count: nat): (n: nat)
    requires count <= |q|
    ensures count <= n <= |q|
    decreases |q| - count
  {
    if count == |q| || count >= MAX_BATCH_FRAMES then count
    else if count != 0 && Size(q[..count + 1]) > batchBytes then count
    else TakeFrom(q, batchBytes, count + 1)
  }

  function TakeCount(q: seq<Frame>, batchBytes: int): (n: nat)
    ensures n <= |q|
  {
    TakeFrom(q, batchBytes, 0)
  }

  lemma {:induction false} TakeFromIsTake(q: seq<Frame>, batchBytes: int, count: nat)
    requires count <= |q| && count <= MAX_BATCH_FRAMES
    requires count > 1 ==> Size(q[..count]) <= batchBytes
    ensures IsTake(q, batchBytes, TakeFrom(q, batchBytes, count))
    decreases |q| - count
  {
    if count < |q| && count < MAX_BATCH_FRAMES && (count == 0 || Size(q[..count + 1]) <= batchBytes) {
      TakeFromIsTake(q, batchBytes, count + 1);
    }
  }

  lemma TakeIsTake(q: seq<Frame>, batchBytes: int)
    ensures IsTake(q, batchBytes, TakeCount(q, batchBytes))
  {
    TakeFromIsTake(q, batchBytes, 0);
  }

  /** A batch taken from queueable frames is a body the client's parser accepts as those frames. */
  lemma TakenBatchParses(q: seq<Frame>, batchBytes: int)
    requires q != [] && AllQueueable(q)
    ensures var batch := q[..TakeCount(q, batchBytes)];
      AllFit(batch, MAX_PAYLOAD) && Parsed(EncodeAll(batch), MAX_PAYLOAD) == Ok(batch)
  {
    TakeIsTake(q, batchBytes);
    ParseInvertsEncode(q[..TakeCount(q, batchBytes)], MAX_PAYLOAD);
  }

  /** Taking splits every summary at the cut. */
  lemma TakeSplits(q: seq<Frame>, count: nat, id: nat)
    requires count <= |q|
    ensures Expand(q) == Expand(q[..count]) + Expand(q[count..])
    ensures WindowTotal(q, id) == WindowTotal(q[..count], id) + WindowTotal(q[count..], id)
    ensures ChargeOf(q) == ChargeOf(q[..count]).Plus(ChargeOf(q[count..]))
  {
    assert q == q[..count] + q[count..];
    ExpandAppend(q[..count], q[count..]);
    WindowTotalAppend(q[..count], q[count..], id);
    SizeAppend(q[..count], q[count..]);
  }

  /** The index map's entries after a front of `count` frames is gone. */
  lemma LastWindowAfterTake(q: seq<Frame>, count: nat, id: nat)
    requires count <= |q|
    ensures LastWindow(q[count..], id) ==
      match LastWindow(q, id)
      case None => None
      case Some(i) => if i < count then None else Some(i - count)
  {
    var after := LastWindow(q[count..], id);
    if after.Some? {
      assert IsWindowOf(q[count + after.value], id);
    }
    match LastWindow(q, id)
    case None =>
    case Some(i) =>
      if i >= count {
        assert q[count..][i - count] == q[i];
      }
  }
}

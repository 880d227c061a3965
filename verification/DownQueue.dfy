/** pendingFrames with its pendingWindows index: the coalescing queue as the relay keeps it. */
module DownQueue {
  import opened Octets
  import opened Outcomes
  import opened Frames
  import opened Limits
  import opened Queue

  datatype QueuedFrame = QueuedFrame(encoded: Bytes, kind: Byte, id: nat, cost: int)

  /** The frame a queued buffer holds. */
  function Held(q: QueuedFrame): Frame
    requires |q.encoded| >= HEADER_SIZE
  {
    Frame(q.kind, q.id, q.encoded[HEADER_SIZE..])
  }

  /** The buffer is that frame's encoding and carries its cost. */
  predicate Faithful(q: QueuedFrame) {
    && |q.encoded| >= HEADER_SIZE
    && Queueable(Held(q))
    && q.encoded == Encoded(Held(q))
    && q.cost == FrameCost(Held(q))
  }

  predicate AllFaithful(qs: seq<QueuedFrame>) {
    forall i | 0 <= i < |qs| :: Faithful(qs[i])
  }

  function View(qs: seq<QueuedFrame>): (q: seq<Frame>)
    requires AllFaithful(qs)
    ensures |q| == |qs|
    ensures forall i | 0 <= i < |q| :: q[i] == Held(qs[i])
    ensures AllQueueable(q)
  {
    seq(|qs|, i requires 0 <= i < |qs| => Held(qs[i]))
  }

  /** Every entry of the index is its stream's latest queued WINDOW frame, and none is missing. */
  ghost predicate Indexes(windows: map<nat, nat>, q: seq<Frame>) {
    forall id :: LastWindow(q, id) == if id in windows then Some(windows[id]) else None
  }

  /** A WINDOW buffer with another amount written over its payload in place. */
  function Rewritten(q: QueuedFrame, total: nat): QueuedFrame
    requires |q.encoded| == HEADER_SIZE + 4 && total < TWO_32
  {
    q.(encoded := q.encoded[..HEADER_SIZE] + PutUint32(total))
  }

  /** A DATA buffer with bytes appended, its cost raised and its length field rewritten. */
  function Lengthened(q: QueuedFrame, payload: Bytes): QueuedFrame
    requires |q.encoded| >= HEADER_SIZE && |q.encoded| - HEADER_SIZE + |payload| < TWO_32
  {
    var longer := q.encoded + payload;
    q.(encoded := longer[..4] + PutUint32(|longer| - HEADER_SIZE) + longer[HEADER_SIZE..],
       cost := q.cost + |payload|)
  }

  lemma RewrittenIsFaithful(q: QueuedFrame, total: nat)
    requires Faithful(q) && q.kind == WINDOW && total < TWO_32
    ensures Faithful(Rewritten(q, total))
    ensures Held(Rewritten(q, total)) == Frame(WINDOW, q.id, WindowPayload(total))
  {
    var r := Rewritten(q, total);
    assert r.encoded[HEADER_SIZE..] == PutUint32(total);
    assert r.encoded[..HEADER_SIZE] == q.encoded[..HEADER_SIZE];
  }

  lemma LengthenedIsFaithful(q: QueuedFrame, payload: Bytes)
    requires Faithful(q) && q.kind == DATA
    requires |q.encoded| - HEADER_SIZE + |payload| <= MAX_PAYLOAD
    ensures Faithful(Lengthened(q, payload))
    ensures Held(Lengthened(q, payload)) == Frame(DATA, q.id, Held(q).payload + payload)
  {
    hide PutId, PutUint32;
    var l := Lengthened(q, payload);
    assert l.encoded[HEADER_SIZE..] == Held(q).payload + payload;
    assert l.encoded[..4] == [q.kind] + PutId(q.id);
  }

  lemma AppendIndexed(windows: map<nat, nat>, q: seq<Frame>, f: Frame)
    requires Indexes(windows, q)
    ensures Indexes(if f.kind == WINDOW then windows[f.id := |q|] else windows, q + [f])
  {
    assert (q + [f])[..|q|] == q;
  }

  /** Replacing a frame by one of the same kind and stream moves no index entry. */
  lemma {:induction false} OverwriteIndexed(q: seq<Frame>, i: nat, f: Frame, id: nat)
    requires i < |q| && q[i].kind == f.kind && q[i].id == f.id
    ensures LastWindow(q[i := f], id) == LastWindow(q, id)
  {
    if i < |q| - 1 {
      OverwriteIndexed(q[..|q| - 1], i, f, id);
      assert q[i := f][..|q| - 1] == q[..|q| - 1][i := f];
    } else {
      assert q[i := f][..|q| - 1] == q[..|q| - 1];
    }
  }

  class DownQueue {
    var frames: seq<QueuedFrame>
    var windows: map<nat, nat>
    const maxPayload: nat

    ghost predicate Valid()
      reads this
    {
      && maxPayload <= MAX_PAYLOAD
      && AllFaithful(frames)
      && Indexes(windows, View(frames))
    }

    /** The queue as a plain list of frames. */
    ghost function Contents(): (q: seq<Frame>)
      reads this
      requires Valid()
      ensures AllQueueable(q)
    {
      View(frames)
    }

    constructor (maxPayload: nat)
      requires maxPayload <= MAX_PAYLOAD
      ensures Valid() && this.maxPayload == maxPayload && Contents() == []
    {
      this.maxPayload := maxPayload;
      frames, windows := [], map[];
    }

    /**
     * queueFrameLocked. `granted` is the answer of reservePendingLocked, asked for exactly
     * PushCharge; a WINDOW merged into an earlier frame asks for nothing.
     */
    method QueueFrame(f: Frame, granted: bool) returns (ok: bool)
      requires Valid() && Queueable(f)
      modifies this
      ensures Valid()
      ensures ok == (granted || Place(old(Contents()), f, maxPayload).MergeWindow?)
      ensures Contents() == if ok then Push(old(Contents()), f, maxPayload) else old(Contents())
    {
      hide LastWindow, Amount, Encoded, Push, Place, Indexes, View, Held;
      var merged := MergeEarlier(f);
      if merged {
        return true;
      }
      if !granted {
        return false;
      }
      if frames != [] {
        var last := frames[|frames| - 1];
        if last.kind == DATA && f.kind == DATA && last.id == f.id
           && |last.encoded| - HEADER_SIZE + |f.payload| <= maxPayload {
          ExtendStep(frames, windows, f, maxPayload);
          frames := frames[|frames| - 1 := Lengthened(last, f.payload)];
          return true;
        }
      }
      PlaceIsAppend(frames, windows, f, maxPayload);
      AppendStep(frames, windows, f, maxPayload);
      frames := frames + [QueuedFrame(Encoded(f), f.kind, f.id, FrameCost(f))];
      if f.kind == WINDOW {
        windows := windows[f.id := |frames| - 1];
      }
      return true;
    }

    /** The WINDOW branch of queueFrameLocked: add to the amount of an earlier queued WINDOW, in place. */
    method MergeEarlier(f: Frame) returns (merged: bool)
      requires Valid() && Queueable(f)
      modifies this`frames
      ensures Valid()
      ensures merged == Place(old(Contents()), f, maxPayload).MergeWindow?
      ensures Contents() == if merged then Push(old(Contents()), f, maxPayload) else old(Contents())
      ensures !merged && f.kind == WINDOW && f.id in windows ==>
        && windows[f.id] < |frames| && |frames[windows[f.id]].encoded| >= HEADER_SIZE
        && Amount(frames[windows[f.id]].encoded[HEADER_SIZE..]) + Amount(f.payload) > MAX_UINT32
    {
      hide LastWindow, Amount, Encoded, Push, Place, Queueable;
      merged := false;
      if f.kind == WINDOW && f.id in windows {
        var index := windows[f.id];
        assert LastWindow(View(frames), f.id) == Some(index);
        var total := Amount(frames[index].encoded[HEADER_SIZE..]) + Amount(f.payload);
        if total <= MAX_UINT32 {
          MergeStep(frames, windows, f, index, total, maxPayload);
          frames := frames[index := Rewritten(frames[index], total)];
          return true;
        }
      }
      NoMerge(frames, windows, f, maxPayload);
    }

    /** takeDownBatchLocked's first loop: how many frames go, and what they were charged. */
    method CountBatch(batchBytes: int) returns (count: nat, cost: int)
      requires Valid()
      ensures count == TakeCount(Contents(), batchBytes)
      ensures count <= |frames| && Charge(cost, count) == ChargeOf(Contents()[..count])
    {
      hide Encoded, LastWindow;
      ghost var q := Contents();
      var size: nat := 0;
      count, cost := 0, 0;
      while count < |frames| && count < MAX_BATCH_FRAMES
        invariant count <= |frames| && count <= MAX_BATCH_FRAMES
        invariant TakeFrom(q, batchBytes, 0) == TakeFrom(q, batchBytes, count)
        invariant Size(q[..count]) == size && Charge(cost, count) == ChargeOf(q[..count])
      {
        var next := |frames[count].encoded|;
        NextSize(frames, count);
        if count != 0 && size + next > batchBytes {
          break;
        }
        size, cost, count := size + next, cost + frames[count].cost, count + 1;
      }
    }

    /** takeDownBatchLocked's second loop: the body of the first `items` frames, their entries dropped. */
    method DrainFront(items: nat) returns (body: Bytes)
      requires Valid() && items <= |frames|
      modifies this`windows
      ensures AllFit(View(frames)[..items], MAX_PAYLOAD) && body == EncodeAll(View(frames)[..items])
      ensures windows == EntriesFrom(old(windows), items)
    {
      hide Encoded, LastWindow, Faithful;
      ghost var q := Contents();
      body := [];
      EncodeNone(q);
      for index := 0 to items
        invariant windows == EntriesFrom(old(windows), index)
        invariant AllFit(q[..index], MAX_PAYLOAD) && body == EncodeAll(q[..index])
      {
        var taken := frames[index];
        DropEntry(q, old(windows), index);
        if taken.kind == WINDOW && taken.id in windows && windows[taken.id] == index {
          windows := windows - {taken.id};
        }
        EncodeNext(frames, index);
        body := body + taken.encoded;
      }
    }

    /** takeDownBatchLocked: the batch's body, cost and item count. */
    method TakeDownBatch(batchBytes: int) returns (body: Bytes, cost: int, items: nat)
      requires Valid()
      modifies this
      ensures Valid()
      ensures items == TakeCount(old(Contents()), batchBytes)
      ensures var batch := old(Contents())[..items];
        body == EncodeAll(batch) && Charge(cost, items) == ChargeOf(batch)
      ensures Contents() == old(Contents())[items..]
    {
      hide *;
      FullyValid(this);
      items, cost := CountBatch(batchBytes);
      Reindex(Contents(), windows, items);
      ViewOfRest(frames, items);
      body := DrainFront(items);
      EntriesAreBehind(old(windows), items);
      frames := frames[items..];
      windows := map id | id in windows :: windows[id] - items;
      MovedEntries(old(windows), windows, items);
      NowValid(this, View(old(frames))[items..]);
    }
  }

  lemma EntriesAreBehind(windows: map<nat, nat>, items: nat)
    ensures forall id | id in EntriesFrom(windows, items) :: EntriesFrom(windows, items)[id] >= items
  {
  }

  function Reindexed(windows: map<nat, nat>, items: nat): map<nat, nat> {
    map id | id in windows && windows[id] >= items :: windows[id] - items
  }

  lemma MovedEntries(windows: map<nat, nat>, moved: map<nat, nat>, items: nat)
    requires moved.Keys == EntriesFrom(windows, items).Keys
    requires forall id | id in moved :: moved[id] == EntriesFrom(windows, items)[id] - items
    ensures moved == Reindexed(windows, items)
  {
  }

  lemma EncodeNone(q: seq<Frame>)
    ensures AllFit(q[..0], MAX_PAYLOAD) && EncodeAll(q[..0]) == []
  {
  }

  lemma FullyValid(d: DownQueue)
    requires d.Valid()
    ensures d.maxPayload <= MAX_PAYLOAD && AllFaithful(d.frames) && Indexes(d.windows, View(d.frames))
    ensures d.Contents() == View(d.frames)
  {
  }

  lemma NowValid(d: DownQueue, q: seq<Frame>)
    requires d.maxPayload <= MAX_PAYLOAD && AllFaithful(d.frames) && View(d.frames) == q && Indexes(d.windows, q)
    ensures d.Valid() && d.Contents() == q
  {
  }

  /** The index entries at or behind a position. */
  function EntriesFrom(windows: map<nat, nat>, from: nat): map<nat, nat> {
    map id | id in windows && windows[id] >= from :: windows[id]
  }

  lemma DropEntry(q: seq<Frame>, windows: map<nat, nat>, index: nat)
    requires Indexes(windows, q) && index < |q|
    ensures var now, f := EntriesFrom(windows, index), q[index];
      EntriesFrom(windows, index + 1) ==
      if f.kind == WINDOW && f.id in now && now[f.id] == index then now - {f.id} else now
  {
    hide LastWindow;
    forall id | id in windows && windows[id] == index
      ensures IsWindowOf(q[index], id)
    {
      assert LastWindow(q, id) == Some(index);
    }
  }

  lemma Reindex(q: seq<Frame>, windows: map<nat, nat>, count: nat)
    requires Indexes(windows, q) && count <= |q|
    ensures Indexes(Reindexed(windows, count), q[count..])
  {
    hide LastWindow;
    forall id {
      LastWindowAfterTake(q, count, id);
    }
  }

  lemma ViewOfRest(qs: seq<QueuedFrame>, count: nat)
    requires AllFaithful(qs) && count <= |qs|
    ensures AllFaithful(qs[count..])
    ensures View(qs[count..]) == View(qs)[count..]
  {
    hide Faithful;
    assert forall i | 0 <= i < |qs[count..]| :: qs[count..][i] == qs[count + i];
  }

  lemma NoMerge(qs: seq<QueuedFrame>, windows: map<nat, nat>, f: Frame, maxPayload: nat)
    requires AllFaithful(qs) && Indexes(windows, View(qs))
    requires f.kind == WINDOW && f.id in windows ==>
      && windows[f.id] < |qs|
      && Amount(qs[windows[f.id]].encoded[HEADER_SIZE..]) + Amount(f.payload) > MAX_UINT32
    ensures !Place(View(qs), f, maxPayload).MergeWindow?
  {
    hide LastWindow, Encoded, Amount;
    assert LastWindow(View(qs), f.id) == if f.id in windows then Some(windows[f.id]) else None;
  }

  lemma MergeStep(qs: seq<QueuedFrame>, windows: map<nat, nat>, f: Frame, index: nat, total: nat, maxPayload: nat)
    requires AllFaithful(qs) && Indexes(windows, View(qs))
    requires f.kind == WINDOW && f.id in windows && windows[f.id] == index
    requires LastWindow(View(qs), f.id) == Some(index)
    requires index < |qs| && |qs[index].encoded| >= HEADER_SIZE
    requires total == Amount(qs[index].encoded[HEADER_SIZE..]) + Amount(f.payload) <= MAX_UINT32
    ensures |qs[index].encoded| == HEADER_SIZE + 4
    ensures Place(View(qs), f, maxPayload) == MergeWindow(index)
    ensures var qs' := qs[index := Rewritten(qs[index], total)];
      && AllFaithful(qs') && Indexes(windows, View(qs'))
      && View(qs') == Push(View(qs), f, maxPayload)
  {
    hide LastWindow, Encoded, Amount;
    var q := View(qs);
    assert IsWindowOf(q[index], f.id);
    RewrittenIsFaithful(qs[index], total);
    var qs' := qs[index := Rewritten(qs[index], total)];
    forall id {
      OverwriteIndexed(q, index, Held(qs'[index]), id);
    }
    assert View(qs') == q[index := Held(qs'[index])];
  }

  lemma ExtendStep(qs: seq<QueuedFrame>, windows: map<nat, nat>, f: Frame, maxPayload: nat)
    requires maxPayload <= MAX_PAYLOAD
    requires AllFaithful(qs) && Indexes(windows, View(qs))
    requires qs != [] && f.kind == DATA
    requires var last := qs[|qs| - 1];
      && last.kind == DATA && last.id == f.id
      && |last.encoded| >= HEADER_SIZE && |last.encoded| - HEADER_SIZE + |f.payload| <= maxPayload
    ensures Place(View(qs), f, maxPayload) == ExtendTail
    ensures var qs' := qs[|qs| - 1 := Lengthened(qs[|qs| - 1], f.payload)];
      && AllFaithful(qs') && Indexes(windows, View(qs'))
      && View(qs') == Push(View(qs), f, maxPayload)
  {
    hide LastWindow, Encoded, Amount;
    var q := View(qs);
    var last := qs[|qs| - 1];
    LengthenedIsFaithful(last, f.payload);
    var qs' := qs[|qs| - 1 := Lengthened(last, f.payload)];
    forall id {
      OverwriteIndexed(q, |q| - 1, Held(qs'[|q| - 1]), id);
    }
    assert View(qs') == q[|q| - 1 := Held(qs'[|q| - 1])];
  }

  lemma AppendStep(qs: seq<QueuedFrame>, windows: map<nat, nat>, f: Frame, maxPayload: nat)
    requires AllFaithful(qs) && Indexes(windows, View(qs)) && Queueable(f)
    ensures var qs' := qs + [QueuedFrame(Encoded(f), f.kind, f.id, FrameCost(f))];
      && AllFaithful(qs')
      && Indexes(if f.kind == WINDOW then windows[f.id := |qs|] else windows, View(qs'))
      && (Place(View(qs), f, maxPayload) == Append ==>
            View(qs') == Push(View(qs), f, maxPayload))
  {
    hide LastWindow;
    var buffer := QueuedFrame(Encoded(f), f.kind, f.id, FrameCost(f));
    assert Held(buffer) == f;
    AppendIndexed(windows, View(qs), f);
    assert View(qs + [buffer]) == View(qs) + [f];
  }

  /** Neither merge applies, as the relay tests it on its own buffers and index. */
  lemma PlaceIsAppend(qs: seq<QueuedFrame>, windows: map<nat, nat>, f: Frame, maxPayload: nat)
    requires AllFaithful(qs) && Indexes(windows, View(qs))
    requires f.kind == WINDOW && f.id in windows ==>
      && windows[f.id] < |qs|
      && Amount(qs[windows[f.id]].encoded[HEADER_SIZE..]) + Amount(f.payload) > MAX_UINT32
    requires qs != [] ==>
      var last := qs[|qs| - 1];
      !(last.kind == DATA && f.kind == DATA && last.id == f.id
        && |last.encoded| - HEADER_SIZE + |f.payload| <= maxPayload)
    ensures Place(View(qs), f, maxPayload) == Append
  {
    hide LastWindow, Encoded, Amount;
    var q := View(qs);
    assert LastWindow(q, f.id) == if f.id in windows then Some(windows[f.id]) else None;
  }

  lemma NextSize(qs: seq<QueuedFrame>, count: nat)
    requires AllFaithful(qs) && count < |qs|
    ensures var q := View(qs);
      && Size(q[..count + 1]) == Size(q[..count]) + |qs[count].encoded|
      && qs[count].cost == |qs[count].encoded| + QUEUE_ITEM_COST
  {
    var q := View(qs);
    assert q[..count + 1][..count] == q[..count];
  }

  lemma EncodeNext(qs: seq<QueuedFrame>, index: nat)
    requires AllFaithful(qs) && index < |qs|
    ensures var q := View(qs);
      && AllFit(q[..index], MAX_PAYLOAD) && AllFit(q[..index + 1], MAX_PAYLOAD)
      && EncodeAll(q[..index + 1]) == EncodeAll(q[..index]) + qs[index].encoded
  {
    hide Encoded;
    var q := View(qs);
    assert q[..index + 1] == q[..index] + [q[index]];
    EncodeAllAppend(q[..index], [q[index]]);
    EncodeAllOne(q[index]);
  }
}

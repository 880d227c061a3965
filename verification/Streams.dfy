/** One stream's write buffer, windows and counters, and the backend writer that drains it. */
module Streams {
  import opened Octets
  import opened Outcomes
  import opened Frames
  import opened Limits

  /** streamState. `backend` stands for the backendStream the state points to. */
  datatype Stream = Stream(
    backend: int, receiveWindow: int, sendCredit: nat,
    pendingWriteBytes: int, pendingWriteCost: int, pendingWriteItems: int,
    writes: seq<Bytes>)

  function NewStream(backend: int): Stream {
    Stream(backend, INITIAL_STREAM_WINDOW, INITIAL_STREAM_WINDOW, 0, 0, 0, [])
  }

  function WriteCharge(st: Stream): Charge {
    Charge(st.pendingWriteCost, st.pendingWriteItems)
  }

  /** Receive window and buffered bytes share one allowance; cost is bytes plus 256 per item. */
  predicate Balanced(st: Stream) {
    && st.receiveWindow + st.pendingWriteBytes == INITIAL_STREAM_WINDOW
    && st.receiveWindow >= 0 && st.pendingWriteBytes >= 0 && st.pendingWriteItems >= 0
    && st.pendingWriteCost == st.pendingWriteBytes + QUEUE_ITEM_COST * st.pendingWriteItems
    && st.sendCredit <= MAX_UINT32
  }

  predicate Coalesces(st: Stream, payload: Bytes) {
    st.writes != [] && |st.writes[|st.writes| - 1]| + |payload| <= DATA_CHUNK
  }

  function AppendCharge(st: Stream, payload: Bytes): Charge {
    if Coalesces(st, payload) then Charge(|payload|, 0) else Charge(|payload| + QUEUE_ITEM_COST, 1)
  }

  /** uint32 subtraction. */
  function Sub32(a: int, b: int): (r: nat)
    ensures 0 <= a - b < TWO_32 ==> r == a - b
  {
    (a - b) % TWO_32
  }

  /** appendBackendWriteLocked, with the receive window taken down as applyBatchLocked does. */
  function AcceptData(st: Stream, payload: Bytes): Stream {
    var charge := AppendCharge(st, payload);
    var last := |st.writes| - 1;
    st.(writes := if Coalesces(st, payload) then st.writes[last := st.writes[last] + payload]
                  else st.writes + [payload],
        pendingWriteBytes := st.pendingWriteBytes + |payload|,
        pendingWriteCost := st.pendingWriteCost + charge.cost,
        pendingWriteItems := st.pendingWriteItems + charge.items,
        receiveWindow := Sub32(st.receiveWindow, |payload|))
  }

  function AddCredit(st: Stream, amount: nat): Stream {
    st.(sendCredit := if st.sendCredit + amount > MAX_UINT32 then MAX_UINT32 else st.sendCredit + amount)
  }

  /** backendData's; its guard keeps the credit from running below zero. */
  function SpendCredit(st: Stream, count: nat): Stream {
    st.(sendCredit := if count <= st.sendCredit then st.sendCredit - count else 0)
  }

  /** nextWrite's pop. */
  function PopWrite(st: Stream): Stream
    requires st.writes != []
  {
    st.(writes := st.writes[1..])
  }

  /** backendDrained's guard and its effect on the stream; None is the `return false`. */
  function Drain(st: Stream, amount: int): Option<Stream> {
    if amount <= 0 || amount > st.pendingWriteBytes || amount > st.pendingWriteCost
       || st.receiveWindow + amount > INITIAL_STREAM_WINDOW then None
    else Some(st.(pendingWriteBytes := st.pendingWriteBytes - amount,
                  pendingWriteCost := st.pendingWriteCost - amount,
                  receiveWindow := st.receiveWindow + amount))
  }

  /** backendWriteFinished's guard and effect. */
  function FinishWrite(st: Stream): Option<Stream> {
    if st.pendingWriteItems == 0 || st.pendingWriteCost < QUEUE_ITEM_COST then None
    else Some(st.(pendingWriteItems := st.pendingWriteItems - 1,
                  pendingWriteCost := st.pendingWriteCost - QUEUE_ITEM_COST))
  }

  lemma StreamStepsBalanced(st: Stream, payload: Bytes, amount: int, credit: nat)
    requires Balanced(st)
    ensures |payload| <= st.receiveWindow ==> Balanced(AcceptData(st, payload))
    ensures WriteCharge(AcceptData(st, payload)) == WriteCharge(st).Plus(AppendCharge(st, payload))
    ensures Balanced(AddCredit(st, credit))
    ensures st.writes != [] ==> Balanced(PopWrite(st))
    ensures Drain(st, amount).Some? ==> Balanced(Drain(st, amount).value)
    ensures FinishWrite(st).Some? ==> Balanced(FinishWrite(st).value)
  {
  }

  // A stream together with its backend's write loop and the socket behind it.

  /** Where the write loop is: in nextWrite, in connection.Write with bytes left, or returned. */
  datatype Phase = Idle | Writing(left: Bytes) | Stopped

  /** `stream` is None once the session has deleted it. History: bytes accepted, bytes on the socket. */
  datatype Cell = Cell(stream: Option<Stream>, phase: Phase, accepted: Bytes, written: Bytes)

  datatype Step =
    | DataArrives(payload: Bytes)
    | CreditArrives(amount: nat)
    | BytesSent(count: nat)
    | NextWrite
    | SocketWrites(count: nat, windowQueued: bool)
    | WriteFinishes
    | SocketFails
    | StreamCloses

  /** One atomic step; a step that cannot happen in this state changes nothing. */
  function Take(c: Cell, e: Step): Cell {
    match e
    case DataArrives(payload) =>
      if c.stream.Some? && 0 < |payload| <= c.stream.value.receiveWindow then
        c.(stream := Some(AcceptData(c.stream.value, payload)), accepted := c.accepted + payload)
      else c
    case CreditArrives(amount) =>
      if c.stream.Some? then c.(stream := Some(AddCredit(c.stream.value, amount))) else c
    case BytesSent(count) =>
      if c.stream.Some? && count <= c.stream.value.sendCredit then
        c.(stream := Some(SpendCredit(c.stream.value, count)))
      else c
    case NextWrite =>
      if !c.phase.Idle? then c
      else if c.stream.None? then c.(phase := Stopped)
      else if c.stream.value.writes == [] then c
      else c.(stream := Some(PopWrite(c.stream.value)), phase := Writing(c.stream.value.writes[0]))
    case SocketWrites(count, windowQueued) =>
      if !c.phase.Writing? || !(0 < count <= |c.phase.left|) then c
      else
        var sent := c.(written := c.written + c.phase.left[..count]);
        if c.stream.None? || Drain(c.stream.value, count).None? then sent.(phase := Stopped)
        else
          sent.(stream := Drain(c.stream.value, count),
                phase := if windowQueued then Writing(c.phase.left[count..]) else Stopped)
    case WriteFinishes =>
      if c.phase != Writing([]) then c
      else if c.stream.None? || FinishWrite(c.stream.value).None? then c.(phase := Stopped)
      else c.(stream := FinishWrite(c.stream.value), phase := Idle)
    case SocketFails => c.(phase := Stopped)
    case StreamCloses => c.(stream := None)
  }

  function Run(c: Cell, steps: seq<Step>): Cell {
    if steps == [] then c else Take(Run(c, steps[..|steps| - 1]), steps[|steps| - 1])
  }

  function Opened(backend: int): Cell {
    Cell(Some(NewStream(backend)), Idle, [], [])
  }

  function InFlight(p: Phase): Bytes {
    if p.Writing? then p.left else []
  }

  /** While stream and loop live, the counters measure exactly what is still to be written. */
  ghost predicate Accounted(c: Cell) {
    && c.written <= c.accepted
    && (c.stream.Some? ==> Balanced(c.stream.value))
    && (c.stream.Some? && !c.phase.Stopped? ==>
      var st := c.stream.value;
      var unwritten := InFlight(c.phase) + Flatten(st.writes);
      && c.accepted == c.written + unwritten
      && st.pendingWriteBytes == |unwritten|
      && st.pendingWriteItems == |st.writes| + (if c.phase.Writing? then 1 else 0))
    && (c.phase.Writing? ==> c.written + c.phase.left <= c.accepted)
  }

  /** Coalescing or not, an accepted payload goes to the end of the buffered bytes. */
  lemma AcceptAppends(st: Stream, payload: Bytes)
    ensures var st' := AcceptData(st, payload);
      && Flatten(st'.writes) == Flatten(st.writes) + payload
      && st'.pendingWriteBytes == st.pendingWriteBytes + |payload|
      && st'.pendingWriteItems - |st'.writes| == st.pendingWriteItems - |st.writes|
  {
    if Coalesces(st, payload) {
      FlattenExtendLast(st.writes, payload);
    } else {
      FlattenSnoc(st.writes, payload);
    }
  }

  lemma AcceptAccounted(c: Cell, payload: Bytes)
    requires Accounted(c) && c.stream.Some? && 0 < |payload| <= c.stream.value.receiveWindow
    ensures Accounted(Take(c, DataArrives(payload)))
  {
    hide Flatten, AcceptData, InFlight, Balanced, WriteCharge, AppendCharge;
    var st := c.stream.value;
    StreamStepsBalanced(st, payload, 0, 0);
    AcceptAppends(st, payload);
    BufferedAtEnd(c.written, InFlight(c.phase), Flatten(st.writes), payload);
    PrefixGrows(c.written, c.accepted, payload);
    if c.phase.Writing? {
      PrefixGrows(c.written + c.phase.left, c.accepted, payload);
    }
  }

  lemma BufferedAtEnd(written: Bytes, flying: Bytes, queued: Bytes, payload: Bytes)
    ensures (written + (flying + queued)) + payload == written + (flying + (queued + payload))
    ensures |flying + (queued + payload)| == |flying + queued| + |payload|
  {
  }

  lemma PrefixGrows(a: Bytes, b: Bytes, more: Bytes)
    requires a <= b
    ensures a <= b + more
  {
  }

  /** Moving the first `count` bytes in flight to the socket. */
  lemma CutAtSocket(written: Bytes, left: Bytes, queued: Bytes, count: nat)
    requires count <= |left|
    ensures (written + left[..count]) + left[count..] == written + left
    ensures (written + left[..count]) + (left[count..] + queued) == written + (left + queued)
    ensures written + left[..count] <= written + left
    ensures |left[count..] + queued| == |left + queued| - count
  {
    assert left == left[..count] + left[count..];
  }

  lemma SocketAccounted(c: Cell, count: nat, windowQueued: bool)
    requires Accounted(c) && c.phase.Writing? && 0 < count <= |c.phase.left|
    ensures Accounted(Take(c, SocketWrites(count, windowQueued)))
  {
    hide Flatten, Balanced;
    var left := c.phase.left;
    CutAtSocket(c.written, left, if c.stream.Some? then Flatten(c.stream.value.writes) else [], count);
    if c.stream.Some? {
      StreamStepsBalanced(c.stream.value, [], count, 0);
    }
  }

  lemma TakeAccounted(c: Cell, e: Step)
    requires Accounted(c)
    ensures Accounted(Take(c, e))
  {
    match e
    case DataArrives(payload) =>
      if c.stream.Some? && 0 < |payload| <= c.stream.value.receiveWindow {
        AcceptAccounted(c, payload);
      }
    case SocketWrites(count, queued) =>
      if c.phase.Writing? && 0 < count <= |c.phase.left| {
        SocketAccounted(c, count, queued);
      }
    case _ =>
  }

  /**
   * Under every interleaving of arrivals, coalescing, popping and partial socket writes, the bytes
   * on the backend socket are a prefix of the accepted DATA, and the counters stay exact.
   */
  lemma {:induction false} WritesAreFaithful(backend: int, steps: seq<Step>)
    ensures Accounted(Run(Opened(backend), steps))
  {
    if steps != [] {
      WritesAreFaithful(backend, steps[..|steps| - 1]);
      TakeAccounted(Run(Opened(backend), steps[..|steps| - 1]), steps[|steps| - 1]);
    }
  }

  /** The guards in backendDrained and backendWriteFinished never refuse a live stream's own loop. */
  lemma GuardsNeverRefuse(backend: int, steps: seq<Step>, count: nat)
    ensures var c := Run(Opened(backend), steps);
      c.stream.Some? && c.phase.Writing? ==>
        && (0 < count <= |c.phase.left| ==> Drain(c.stream.value, count).Some?)
        && (c.phase.left == [] ==> FinishWrite(c.stream.value).Some?)
  {
    WritesAreFaithful(backend, steps);
  }

  /** With nothing left anywhere, every accepted byte has reached the socket. */
  lemma DrainedMeansDelivered(backend: int, steps: seq<Step>)
    ensures var c := Run(Opened(backend), steps);
      c.stream.Some? && !c.phase.Stopped? && c.stream.value.pendingWriteBytes == 0 ==> c.written == c.accepted
  {
    WritesAreFaithful(backend, steps);
    var c := Run(Opened(backend), steps);
    if c.stream.Some? && !c.phase.Stopped? && c.stream.value.pendingWriteBytes == 0 {
      assert InFlight(c.phase) + Flatten(c.stream.value.writes) == [];
    }
  }
}

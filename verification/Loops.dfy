/**
 * The backends' loops: each backend has one that writes its socket and one that reads it. A loop looks
 * its stream up by id alone, so a loop that outlives its stream meets a later stream under the same id.
 */
module Loops {
  import opened Octets
  import opened Outcomes
  import opened Frames
  import opened Limits
  import opened Streams
  import opened SessionState
  import opened Batch
  import opened BatchLaws
  import opened SessionSteps
  import opened UplinkSteps
  import Tales

  /**
   * A write loop with no chunk in hand: its backend is still being dialed, it is about to look, or it
   * waits in nextWrite's select with no signal pending.
   */
  datatype Stand = Dialing | Looking | Waiting

  /** The read loop: anywhere up to the return of connection.Read, with bytes for backendData, or returned. */
  datatype ReadPhase = Reading | Holding(bytes: Bytes) | Returned

  /**
   * The read side of a backend: whether its connection is open (backendStream.close has not been
   * called), the bytes read from it, and the DATA the relay has queued for the client as its stream's.
   */
  datatype Reader = Reader(phase: ReadPhase, connected: bool, sent: Bytes, queued: Bytes)

  /** A backend: its stream's id, the write loop, the DATA its own stream accepted, its socket's bytes. */
  datatype Loop = Loop(id: nat, phase: Phase, accepted: Bytes, written: Bytes, stand: Stand, reader: Reader)

  function NewLoop(id: nat): Loop {
    Loop(id, Idle, [], [], Dialing, Reader(Reading, true, [], []))
  }

  /** What a loop finds under its id, whosever stream that is. */
  function Found(stream: Option<Stream>, loop: Loop): Cell {
    Cell(stream, loop.phase, loop.accepted, loop.written)
  }

  /** The loop's own stream, while it lives. */
  function Own(stream: Option<Stream>, b: int, loop: Loop): Cell {
    Found(if stream.Some? && stream.value.backend == b then stream else None, loop)
  }

  /** DATA for its stream signals a waiting write loop. */
  function Roused(loop: Loop, e: Streams.Step): Stand {
    if e.DataArrives? && loop.stand.Waiting? then Looking else loop.stand
  }

  function After(loop: Loop, e: Streams.Step, c: Cell): Loop {
    loop.(phase := c.phase, accepted := c.accepted, written := c.written, stand := Roused(loop, e))
  }

  /** Neither loop can reach a stream again: they have returned, or have nothing left to do but return. */
  predicate Quiet(loop: Loop) {
    && (loop.phase.Stopped? || loop.stand.Waiting?)
    && (loop.reader.phase.Returned? || (loop.reader.phase.Reading? && !loop.reader.connected))
  }

  // One id: the stream under it, if any, and every backend dialed for it.

  datatype Slot = Slot(stream: Option<Stream>, loops: map<int, Loop>)

  /** `room` is whether the downlink queue takes the bytes. A backend closed while dialing starts no loop. */
  datatype Act =
    | Writes(e: Streams.Step)
    | Dials
    | Waits
    | Reads(data: Bytes)
    | Queues(room: bool)
    | Returns
    | Disconnects

  function WriterMoves(slot: Slot, b: int, e: Streams.Step): Slot
    requires b in slot.loops
  {
    var loop := slot.loops[b];
    if e.NextWrite? && !loop.stand.Looking? then slot
    else
      var c := Take(Found(slot.stream, loop), e);
      Slot(c.stream, slot.loops[b := After(loop, e, c)])
  }

  /** backendData with the bytes in hand: they are queued as the DATA of whatever stream is found. */
  function ReaderQueues(slot: Slot, b: int, room: bool): Slot
    requires b in slot.loops && slot.loops[b].reader.phase.Holding?
  {
    var loop := slot.loops[b];
    var bytes, over := loop.reader.phase.bytes, loop.(reader := loop.reader.(phase := Returned));
    if slot.stream.None? || |bytes| > slot.stream.value.sendCredit then slot.(loops := slot.loops[b := over])
    else
      var spent, owner := Some(SpendCredit(slot.stream.value, |bytes|)), slot.stream.value.backend;
      if !room || owner !in slot.loops then Slot(spent, slot.loops[b := over])
      else
        var on := slot.loops[b := loop.(reader := loop.reader.(phase := Reading))];
        var reader := on[owner].reader;
        Slot(spent, on[owner := on[owner].(reader := reader.(queued := reader.queued + bytes))])
  }

  /** A step of backend `b`, or something happening to its stream; one that cannot happen changes nothing. */
  function Move(slot: Slot, b: int, act: Act): Slot {
    if b !in slot.loops then slot
    else
      var loop := slot.loops[b];
      match act
      case Writes(e) => WriterMoves(slot, b, e)
      case Dials =>
        if loop.stand.Dialing? && loop.reader.connected then
          slot.(loops := slot.loops[b := loop.(stand := Looking)])
        else slot
      case Waits =>
        if loop.stand.Looking? && loop.phase.Idle?
           && slot.stream.Some? && slot.stream.value.backend == b && slot.stream.value.writes == [] then
          slot.(loops := slot.loops[b := loop.(stand := Waiting)])
        else slot
      case Reads(data) =>
        if !loop.stand.Dialing? && loop.reader.phase.Reading? && loop.reader.connected && 0 < |data| <= DATA_CHUNK then
          slot.(loops := slot.loops[b := loop.(reader :=
            loop.reader.(phase := Holding(data), sent := loop.reader.sent + data))])
        else slot
      case Queues(room) => if loop.reader.phase.Holding? then ReaderQueues(slot, b, room) else slot
      case Returns => slot.(loops := slot.loops[b := loop.(reader := loop.reader.(phase := Returned))])
      case Disconnects =>
        var cut := loop.(reader := loop.reader.(connected := false));
        slot.(loops := slot.loops[b :=
          if loop.stand.Dialing? then cut.(phase := Stopped, reader := cut.reader.(phase := Returned)) else cut])
  }

  /** A loop's own steps need no stream of its own; frames belong to the stream's backend. */
  predicate LoopStep(slot: Slot, b: int, act: Act) {
    act.Writes? ==>
      match act.e
      case NextWrite => true
      case SocketWrites(_, _) => true
      case WriteFinishes => true
      case SocketFails => true
      case StreamCloses => false
      case BytesSent(_) => false
      case _ => slot.stream.Some? && slot.stream.value.backend == b
  }

  datatype SlotEvent = SlotEvent(b: int, act: Act)

  /** Steps that are none of this slot's change nothing. */
  function Moves(slot: Slot, events: seq<SlotEvent>): Slot {
    if events == [] then slot
    else
      var before, last := Moves(slot, events[..|events| - 1]), events[|events| - 1];
      if LoopStep(before, last.b, last.act) then Move(before, last.b, last.act) else before
  }

  /**
   * Every socket has had a prefix of what its own stream accepted, and the client is sent, as each
   * stream's, a prefix of what its own backend said; for the stream now open that begins with `left`,
   * the DATA that was still on its way under the id when the stream opened.
   */
  ghost predicate Faithful(slot: Slot, left: Bytes) {
    && (forall b | b in slot.loops ::
          slot.loops[b].written <= slot.loops[b].accepted && slot.loops[b].reader.queued <= slot.loops[b].reader.sent)
    && (slot.stream.Some? && slot.stream.value.backend in slot.loops ==>
          var reader := slot.loops[slot.stream.value.backend].reader;
          left + reader.queued <= reader.sent)
  }

  /** What was read is queued, or in hand; only a loop that has returned may have lost some. */
  ghost predicate Fed(reader: Reader) {
    match reader.phase
    case Reading => reader.queued == reader.sent
    case Holding(bytes) => 0 < |bytes| <= DATA_CHUNK && reader.queued + bytes == reader.sent
    case Returned => reader.queued <= reader.sent
  }

  /** A waiting loop's stream has nothing for it, and a backend being dialed has written nothing. */
  ghost predicate Standing(own: Option<Stream>, loop: Loop) {
    && (loop.stand.Waiting? ==> !loop.phase.Writing?)
    && (loop.stand.Waiting? && loop.phase.Idle? && own.Some? ==> own.value.writes == [])
    && (loop.stand.Dialing? ==> !loop.phase.Writing? && (loop.phase.Stopped? || loop.reader.connected))
  }

  ghost predicate Orderly(own: Cell, loop: Loop) {
    Accounted(own) && |InFlight(loop.phase)| <= INITIAL_STREAM_WINDOW && Fed(loop.reader) && Standing(own.stream, loop)
  }

  /** Every backend accounts for its own stream's bytes, and the stream's backend is among them. */
  ghost predicate InOrder(slot: Slot) {
    && (forall b | b in slot.loops :: Orderly(Own(slot.stream, b, slot.loops[b]), slot.loops[b]))
    && (slot.stream.Some? ==> slot.stream.value.backend in slot.loops)
  }

  /** Nobody but the stream's own backend can still touch it. */
  predicate Alone(slot: Slot) {
    slot.stream.Some? ==>
      forall b | b in slot.loops && b != slot.stream.value.backend :: Quiet(slot.loops[b])
  }

  /** One backend's entry changes, and the stream with it if it is that backend's own. */
  lemma OneLoopMoves(slot: Slot, b: int, stream: Option<Stream>, loop: Loop)
    requires InOrder(slot) && b in slot.loops
    requires stream.Some? <==> slot.stream.Some?
    requires stream.Some? ==> stream.value.backend == slot.stream.value.backend
    requires stream == slot.stream || slot.stream.value.backend == b
    requires Orderly(Own(stream, b, loop), loop)
    requires (stream.Some? && stream.value.backend == b) || (Quiet(slot.loops[b]) ==> Quiet(loop))
    ensures InOrder(Slot(stream, slot.loops[b := loop]))
    ensures Alone(slot) ==> Alone(Slot(stream, slot.loops[b := loop]))
  {
    hide Orderly, Quiet;
    var after := Slot(stream, slot.loops[b := loop]);
    forall k | k in after.loops
      ensures Orderly(Own(after.stream, k, after.loops[k]), after.loops[k])
    {
      if k != b {
        assert Own(after.stream, k, after.loops[k]) == Own(slot.stream, k, slot.loops[k]);
      }
    }
  }

  lemma MoveKeeps(slot: Slot, b: int, act: Act)
    requires InOrder(slot) && Alone(slot) && LoopStep(slot, b, act)
    ensures InOrder(Move(slot, b, act)) && Alone(Move(slot, b, act))
  {
    hide InOrder, Alone, Orderly, Take, ReaderQueues, WriterMoves;
    if b in slot.loops {
      var loop := slot.loops[b];
      assert Orderly(Own(slot.stream, b, loop), loop) by {
        OrderlyIn(slot, b);
      }
      match act {
        case Writes(e) => WriterKeeps(slot, b, e);
        case Queues(room) =>
          if loop.reader.phase.Holding? {
            QueuesKeeps(slot, b, room);
          }
        case _ => OtherMovesKeep(slot, b, act);
      }
    }
  }

  lemma OrderlyIn(slot: Slot, b: int)
    requires InOrder(slot) && b in slot.loops
    ensures Orderly(Own(slot.stream, b, slot.loops[b]), slot.loops[b])
  {
    hide Orderly;
  }

  lemma OtherMovesKeep(slot: Slot, b: int, act: Act)
    requires InOrder(slot) && Alone(slot) && b in slot.loops && !act.Writes? && !act.Queues?
    ensures InOrder(Move(slot, b, act)) && Alone(Move(slot, b, act))
  {
    OrderlyIn(slot, b);
    hide InOrder, Alone, Accounted;
    var after := Move(slot, b, act);
    assert after == Slot(slot.stream, slot.loops[b := after.loops[b]]);
    assert Own(slot.stream, b, after.loops[b]).stream == Own(slot.stream, b, slot.loops[b]).stream;
    OtherMovesOrderly(slot, b, act);
    OneLoopMoves(slot, b, slot.stream, after.loops[b]);
  }

  lemma OtherMovesOrderly(slot: Slot, b: int, act: Act)
    requires b in slot.loops && !act.Writes? && !act.Queues?
    requires Orderly(Own(slot.stream, b, slot.loops[b]), slot.loops[b])
    ensures var loop := Move(slot, b, act).loops[b];
      Orderly(Own(slot.stream, b, loop), loop) && (Quiet(slot.loops[b]) ==> Quiet(loop))
  {
    var own := Own(slot.stream, b, slot.loops[b]);
    TakeAccounted(own, SocketFails);
    hide Accounted;
    var loop := Move(slot, b, act).loops[b];
    assert Own(slot.stream, b, loop) == own || Own(slot.stream, b, loop) == Take(own, SocketFails);
  }

  /** A writer that is not its stream's own leaves the stream alone, being quiet. */
  lemma WriterTakes(slot: Slot, b: int, e: Streams.Step)
    requires InOrder(slot) && Alone(slot) && LoopStep(slot, b, Writes(e)) && b in slot.loops
    requires e.NextWrite? ==> slot.loops[b].stand.Looking?
    ensures var after := WriterMoves(slot, b, e);
      && Own(after.stream, b, after.loops[b]) == Take(Own(slot.stream, b, slot.loops[b]), e)
      && (after.stream == slot.stream || slot.stream.value.backend == b)
      && (after.stream.Some? <==> slot.stream.Some?)
      && (after.stream.Some? ==> after.stream.value.backend == slot.stream.value.backend)
  {
    OrderlyIn(slot, b);
    hide InOrder, Accounted, Fed, AcceptData, Drain, FinishWrite;
    TakeShape(Found(slot.stream, slot.loops[b]), e);
  }

  lemma WriterKeeps(slot: Slot, b: int, e: Streams.Step)
    requires InOrder(slot) && Alone(slot) && LoopStep(slot, b, Writes(e)) && b in slot.loops
    ensures InOrder(WriterMoves(slot, b, e)) && Alone(WriterMoves(slot, b, e))
  {
    hide InOrder, Alone, Orderly, Take;
    if !e.NextWrite? || slot.loops[b].stand.Looking? {
      OrderlyIn(slot, b);
      WriterTakes(slot, b, e);
      var after := WriterMoves(slot, b, e);
      WriterOrderly(Own(slot.stream, b, slot.loops[b]), slot.loops[b], e);
      assert after == Slot(after.stream, slot.loops[b := after.loops[b]]);
      OneLoopMoves(slot, b, after.stream, after.loops[b]);
    }
  }

  lemma WriterOrderly(own: Cell, loop: Loop, e: Streams.Step)
    requires Orderly(own, loop) && own == Found(own.stream, loop) && !e.StreamCloses?
    requires e.NextWrite? ==> loop.stand.Looking?
    ensures var c := Take(own, e);
      Orderly(c, After(loop, e, c)) && (Quiet(loop) && !e.DataArrives? ==> Quiet(After(loop, e, c)))
  {
    TakeAccounted(own, e);
    TakeInFlight(own, e);
    hide Accounted, Fed, AcceptData, Drain, FinishWrite, InFlight;
  }

  /** A chunk in flight is at most what the window let in. */
  lemma TakeInFlight(c: Cell, e: Streams.Step)
    requires |InFlight(c.phase)| <= INITIAL_STREAM_WINDOW
    requires c.phase.Stopped? || c.stream.None? || Accounted(c)
    ensures |InFlight(Take(c, e).phase)| <= INITIAL_STREAM_WINDOW
  {
    if e.NextWrite? && c.phase.Idle? && c.stream.Some? && c.stream.value.writes != [] {
      assert |Flatten(c.stream.value.writes)| >= |c.stream.value.writes[0]|;
    }
  }

  /** A step neither moves a stream to another backend nor starts a stopped loop. */
  lemma TakeShape(c: Cell, e: Streams.Step)
    requires !e.StreamCloses?
    ensures var c' := Take(c, e);
      && (c'.stream.Some? <==> c.stream.Some?)
      && (c.stream.Some? ==> c'.stream.value.backend == c.stream.value.backend)
      && (c.phase.Stopped? ==> c'.phase.Stopped?)
      && (c.phase.Stopped? && !e.DataArrives? && !e.CreditArrives? && !e.BytesSent? ==> c' == c)
  {
  }

  lemma QueuesKeeps(slot: Slot, b: int, room: bool)
    requires InOrder(slot) && Alone(slot) && b in slot.loops && slot.loops[b].reader.phase.Holding?
    ensures InOrder(ReaderQueues(slot, b, room)) && Alone(ReaderQueues(slot, b, room))
  {
    OrderlyIn(slot, b);
    hide InOrder, Accounted, Alone;
    var loop, after := slot.loops[b], ReaderQueues(slot, b, room);
    if slot.stream.Some? {
      OnlyOwnerHolds(slot, b);
    }
    SpendingAccounted(Own(slot.stream, b, loop), |loop.reader.phase.bytes|);
    assert after == Slot(after.stream, slot.loops[b := after.loops[b]]);
    OneLoopMoves(slot, b, after.stream, after.loops[b]);
  }

  lemma OnlyOwnerHolds(slot: Slot, b: int)
    requires Alone(slot) && b in slot.loops && slot.loops[b].reader.phase.Holding? && slot.stream.Some?
    ensures slot.stream.value.backend == b
  {
  }

  lemma SpendingAccounted(c: Cell, count: nat)
    requires Accounted(c)
    ensures c.stream.Some? ==> Accounted(c.(stream := Some(SpendCredit(c.stream.value, count))))
  {
  }

  lemma {:induction false} MovesKeep(slot: Slot, events: seq<SlotEvent>)
    requires InOrder(slot) && Alone(slot)
    ensures InOrder(Moves(slot, events)) && Alone(Moves(slot, events))
    ensures slot.stream.Some? ==>
      && Moves(slot, events).stream.Some? && Moves(slot, events).stream.value.backend == slot.stream.value.backend
  {
    hide InOrder, Alone, Move, LoopStep;
    if events != [] {
      MovesKeep(slot, events[..|events| - 1]);
      var before, last := Moves(slot, events[..|events| - 1]), events[|events| - 1];
      if LoopStep(before, last.b, last.act) {
        MoveKeeps(before, last.b, last.act);
        SameOwner(before, last.b, last.act);
      }
    }
  }

  lemma SameOwner(slot: Slot, b: int, act: Act)
    requires LoopStep(slot, b, act)
    ensures var after := Move(slot, b, act);
      && (after.stream.Some? <==> slot.stream.Some?)
      && (slot.stream.Some? ==> after.stream.value.backend == slot.stream.value.backend)
      && after.loops.Keys == slot.loops.Keys
      && forall k | k in slot.loops :: after.loops[k].id == slot.loops[k].id
  {
    hide Take;
    if b in slot.loops && act.Writes? {
      TakeShape(Found(slot.stream, slot.loops[b]), act.e);
    }
  }

  /** A stream is opened under the id, with its own backend. */
  function Opened(slot: Slot, id: nat, b: int): Slot {
    Slot(Some(NewStream(b)), slot.loops[b := NewLoop(id)])
  }

  lemma OpenedInOrder(slot: Slot, id: nat, b: int)
    requires InOrder(slot) && slot.stream.None? && b !in slot.loops
    ensures InOrder(Opened(slot, id, b))
    ensures Alone(Opened(slot, id, b)) <==> forall k | k in slot.loops :: Quiet(slot.loops[k])
  {
    var reused := Opened(slot, id, b);
    NewlyOpened(id, b);
    hide Orderly, Quiet;
    forall k | k in reused.loops
      ensures Orderly(Own(reused.stream, k, reused.loops[k]), reused.loops[k])
    {
      if k != b {
        assert Own(reused.stream, k, reused.loops[k]) == Own(slot.stream, k, slot.loops[k]);
      }
    }
    assert forall k | k in slot.loops :: k != b && k in reused.loops && reused.loops[k] == slot.loops[k];
  }

  lemma NewlyOpened(id: nat, b: int)
    ensures Orderly(Cell(Some(NewStream(b)), Idle, [], []), NewLoop(id))
  {
  }

  lemma FaithfulIfInOrder(slot: Slot)
    requires InOrder(slot)
    ensures Faithful(slot, [])
  {
    forall b | b in slot.loops
      ensures slot.loops[b].written <= slot.loops[b].accepted
      ensures slot.loops[b].reader.queued <= slot.loops[b].reader.sent
    {
      OrderlyIn(slot, b);
    }
    if slot.stream.Some? && slot.stream.value.backend in slot.loops {
      var reader := slot.loops[slot.stream.value.backend].reader;
      assert [] + reader.queued == reader.queued;
    }
  }

  function Then(events: seq<SlotEvent>, b: int, act: Act): seq<SlotEvent> {
    events + [SlotEvent(b, act)]
  }

  lemma ThenMoves(slot: Slot, events: seq<SlotEvent>, b: int, act: Act)
    ensures var before := Moves(slot, events);
      Moves(slot, Then(events, b, act)) == if LoopStep(before, b, act) then Move(before, b, act) else before
  {
    assert Then(events, b, act)[..|events|] == events;
  }

  /** The id reused: `stale` is an earlier backend of it, `owner` the new stream's. */
  ghost predicate Reused(slot: Slot, id: nat, stale: int, owner: int) {
    && stale in slot.loops && owner in slot.loops && stale != owner
    && slot.stream == Some(NewStream(owner)) && slot.loops[owner] == NewLoop(id)
    && |InFlight(slot.loops[stale].phase)| <= INITIAL_STREAM_WINDOW
    && Fed(slot.loops[stale].reader) && Standing(None, slot.loops[stale])
  }

  /** Both backends have been dialed, so far as they had not. */
  lemma BothDialed(reused: Slot, id: nat, stale: int, owner: int) returns (events: seq<SlotEvent>)
    requires Reused(reused, id, stale, owner) && !Quiet(reused.loops[stale])
    ensures var slot, was := Moves(reused, events), reused.loops[stale];
      && slot.stream == Some(NewStream(owner)) && slot.loops.Keys == reused.loops.Keys
      && slot.loops[owner] == NewLoop(id).(stand := Looking)
      && slot.loops[stale] == was.(stand := slot.loops[stale].stand)
      && (!was.phase.Stopped? && !was.stand.Waiting? ==> slot.loops[stale].stand.Looking?)
      && (was.reader.connected ==> !slot.loops[stale].stand.Dialing?)
  {
    hide InFlight, Fed, Quiet;
    ThenMoves(reused, [], owner, Dials);
    events := Then([], owner, Dials);
    ThenMoves(reused, events, stale, Dials);
    events := Then(events, stale, Dials);
  }

  /** With its own bytes reported against the new stream, the old write loop is back at nextWrite. */
  lemma OldWriterReturns(reused: Slot, id: nat, stale: int, owner: int) returns (events: seq<SlotEvent>, payload: Bytes)
    requires Reused(reused, id, stale, owner)
    requires !reused.loops[stale].phase.Stopped? && !reused.loops[stale].stand.Waiting?
    ensures payload != [] && payload[0] == 0
    ensures var slot := Moves(reused, events);
      && stale in slot.loops && owner in slot.loops && slot.loops[stale].phase.Idle? && slot.loops[stale].stand.Looking?
      && slot.loops[owner] == NewLoop(id).(stand := Looking, accepted := payload)
      && slot.stream.Some? && slot.stream.value.backend == owner && slot.stream.value.writes == [payload]
      && 0 < slot.stream.value.receiveWindow
  {
    hide Flatten, Fed;
    var left := InFlight(reused.loops[stale].phase);
    payload := seq(if left == [] then 1 else |left|, i => 0);
    var dialed := BothDialed(reused, id, stale, owner);
    events := Then(dialed, owner, Writes(DataArrives(payload)));
    ThenMoves(reused, dialed, owner, Writes(DataArrives(payload)));
    if reused.loops[stale].phase.Writing? {
      if left != [] {
        ThenMoves(reused, events, stale, Writes(SocketWrites(|left|, true)));
        events := Then(events, stale, Writes(SocketWrites(|left|, true)));
      }
      ThenMoves(reused, events, stale, Writes(WriteFinishes));
      events := Then(events, stale, Writes(WriteFinishes));
    }
  }

  /** The old loop takes the new stream's first chunk; the new loop then writes what comes after it. */
  lemma OldWriterSteals(reused: Slot, id: nat, stale: int, owner: int, left: Bytes) returns (events: seq<SlotEvent>)
    requires Reused(reused, id, stale, owner)
    requires !reused.loops[stale].phase.Stopped? && !reused.loops[stale].stand.Waiting?
    ensures !Faithful(Moves(reused, events), left)
  {
    hide InFlight, Fed;
    var before, payload := OldWriterReturns(reused, id, stale, owner);
    var taken := Then(before, stale, Writes(NextWrite));
    ThenMoves(reused, before, stale, Writes(NextWrite));
    assert Moves(reused, taken).stream.value.writes == [];
    var arrived := Then(taken, owner, Writes(DataArrives([1])));
    ThenMoves(reused, taken, owner, Writes(DataArrives([1])));
    assert Moves(reused, arrived).stream.value.writes == [[1]];
    var next := Then(arrived, owner, Writes(NextWrite));
    ThenMoves(reused, arrived, owner, Writes(NextWrite));
    assert Moves(reused, next).loops[owner].phase == Writing([1]);
    events := Then(next, owner, Writes(SocketWrites(1, true)));
    ThenMoves(reused, next, owner, Writes(SocketWrites(1, true)));
    var end := Moves(reused, events);
    assert owner in end.loops && end.loops[owner].written == [1] && end.loops[owner].accepted == payload + [1];
    assert (payload + [1])[0] == 0;
  }

  /** The old read loop's bytes, in hand or still to be read, are queued as the new stream's. */
  lemma OldReaderQueues(reused: Slot, id: nat, stale: int, owner: int, left: Bytes) returns (events: seq<SlotEvent>)
    requires Reused(reused, id, stale, owner)
    requires var reader := reused.loops[stale].reader;
      reader.phase.Holding? || (reader.phase.Reading? && reader.connected)
    ensures !Faithful(Moves(reused, events), left)
  {
    hide InFlight;
    events := BothDialed(reused, id, stale, owner);
    if reused.loops[stale].reader.phase.Reading? {
      ThenMoves(reused, events, stale, Reads([0]));
      events := Then(events, stale, Reads([0]));
    }
    ThenMoves(reused, events, stale, Queues(true));
    events := Then(events, stale, Queues(true));
    var end := Moves(reused, events);
    assert owner in end.loops && end.loops[owner].reader.sent == [] && end.loops[owner].reader.queued != [];
  }

  /**
   * When an id comes back into use: whatever the loops then do, every socket gets a prefix of its own
   * stream's bytes and the client, as each stream's, a prefix of its own backend's, if and only if every
   * earlier backend of the id is quiet and no DATA of the id is still on its way.
   */
  lemma ReuseIsHarmlessIff(slot: Slot, id: nat, b: int, left: Bytes)
    requires InOrder(slot) && slot.stream.None? && b !in slot.loops
    ensures (forall events: seq<SlotEvent> :: Faithful(Moves(Opened(slot, id, b), events), left)) <==>
      left == [] && forall k | k in slot.loops :: Quiet(slot.loops[k])
  {
    hide InOrder, Alone, Moves, Faithful, Quiet;
    OpenedInOrder(slot, id, b);
    var reused := Opened(slot, id, b);
    if left != [] {
      LeftComesFirst(reused, id, b, left);
    } else if forall k | k in slot.loops :: Quiet(slot.loops[k]) {
      forall events: seq<SlotEvent>
        ensures Faithful(Moves(reused, events), left)
      {
        MovesKeep(reused, events);
        FaithfulIfInOrder(Moves(reused, events));
      }
    } else {
      var stale :| stale in slot.loops && !Quiet(slot.loops[stale]);
      StaleIsReused(slot, id, stale, b);
      var events := StaleHarms(reused, id, stale, b, left);
    }
  }

  lemma LeftComesFirst(reused: Slot, id: nat, b: int, left: Bytes)
    requires reused.stream == Some(NewStream(b)) && b in reused.loops && reused.loops[b] == NewLoop(id) && left != []
    ensures !Faithful(Moves(reused, []), left)
  {
  }

  lemma StaleIsReused(slot: Slot, id: nat, stale: int, b: int)
    requires InOrder(slot) && slot.stream.None? && b !in slot.loops && stale in slot.loops
    ensures Reused(Opened(slot, id, b), id, stale, b)
  {
    hide Accounted, Fed;
    OrderlyIn(slot, stale);
  }

  lemma StaleHarms(reused: Slot, id: nat, stale: int, owner: int, left: Bytes) returns (events: seq<SlotEvent>)
    requires Reused(reused, id, stale, owner) && !Quiet(reused.loops[stale])
    ensures !Faithful(Moves(reused, events), left)
  {
    hide Reused, Faithful, Moves;
    assert stale in reused.loops by {
      StaleThere(reused, id, stale, owner);
    }
    if !reused.loops[stale].phase.Stopped? && !reused.loops[stale].stand.Waiting? {
      events := OldWriterSteals(reused, id, stale, owner, left);
    } else {
      events := OldReaderQueues(reused, id, stale, owner, left);
    }
  }

  lemma StaleThere(reused: Slot, id: nat, stale: int, owner: int)
    requires Reused(reused, id, stale, owner)
    ensures stale in reused.loops
  {
    hide Fed, Standing, InFlight;
  }

  // The session and all its backends' loops.

  function Under(s: State, id: nat): Option<Stream> {
    if id in s.streams then Some(s.streams[id]) else None
  }

  function OfId(loops: map<int, Loop>, id: nat): map<int, Loop> {
    map b | b in loops && loops[b].id == id :: loops[b]
  }

  function SlotOf(s: State, loops: map<int, Loop>, id: nat): Slot {
    Slot(Under(s, id), OfId(loops, id))
  }

  /** Every backend accounts for its own stream, and those yet to come are not there. */
  ghost predicate Kept(s: State, loops: map<int, Loop>) {
    && (forall b | b in loops :: b < s.nextBackend)
    && forall id: nat :: InOrder(SlotOf(s, loops, id))
  }

  /** No backend can touch the stream of another. */
  ghost predicate Sole(s: State, loops: map<int, Loop>) {
    forall id: nat :: Alone(SlotOf(s, loops, id))
  }

  /** Everything under other ids is as it was. */
  ghost predicate OnlyUnder(s: State, loops: map<int, Loop>, t: State, loops': map<int, Loop>, at: nat) {
    forall id: nat | id != at :: SlotOf(t, loops', id) == SlotOf(s, loops, id)
  }

  lemma OneSlotKept(s: State, loops: map<int, Loop>, t: State, loops': map<int, Loop>, at: nat)
    requires Kept(s, loops) && OnlyUnder(s, loops, t, loops', at) && InOrder(SlotOf(t, loops', at))
    requires forall b | b in loops' :: b < t.nextBackend
    ensures Kept(t, loops')
    ensures Sole(s, loops) && Alone(SlotOf(t, loops', at)) ==> Sole(t, loops')
  {
    hide InOrder, Alone, SlotOf;
    forall id: nat
      ensures InOrder(SlotOf(t, loops', id))
      ensures Sole(s, loops) && Alone(SlotOf(t, loops', at)) ==> Alone(SlotOf(t, loops', id))
    {
      if id != at {
        assert SlotOf(t, loops', id) == SlotOf(s, loops, id);
      }
    }
  }

  /** Loops change only under one id, and so does the table of streams. */
  lemma SetUnder(s: State, loops: map<int, Loop>, t: State, b: int, loop: Loop)
    requires b in loops ==> loops[b].id == loop.id
    requires forall id: nat | id != loop.id :: Under(t, id) == Under(s, id)
    ensures OnlyUnder(s, loops, t, loops[b := loop], loop.id)
    ensures SlotOf(t, loops[b := loop], loop.id) ==
      Slot(Under(t, loop.id), SlotOf(s, loops, loop.id).loops[b := loop])
    ensures OnlyUnder(s, loops, t, loops, loop.id)
    ensures SlotOf(t, loops, loop.id) == Slot(Under(t, loop.id), SlotOf(s, loops, loop.id).loops)
  {
  }

  /** The loops with those of `part` as they are there. */
  function Renewed(loops: map<int, Loop>, part: map<int, Loop>): map<int, Loop> {
    map b | b in loops :: if b in part then part[b] else loops[b]
  }

  lemma RenewedOfId(loops: map<int, Loop>, part: map<int, Loop>, id: nat, j: nat)
    requires part.Keys == OfId(loops, id).Keys && forall b | b in part :: part[b].id == id
    ensures OfId(Renewed(loops, part), j) == if j == id then part else OfId(loops, j)
  {
    var before, found := OfId(loops, id), OfId(Renewed(loops, part), j);
    assert forall b :: b in part <==> b in before;
    assert forall b :: b in part <==> b in loops && loops[b].id == id;
    if j == id {
      assert forall b :: b in found <==> b in part;
    } else {
      assert forall b :: b in found <==> b in OfId(loops, j);
    }
  }

  /** The same with several loops of the id changed at once. */
  lemma RenewedUnder(s: State, loops: map<int, Loop>, t: State, id: nat, part: map<int, Loop>)
    requires part.Keys == OfId(loops, id).Keys && forall b | b in part :: part[b].id == id
    requires forall j: nat | j != id :: Under(t, j) == Under(s, j)
    ensures OnlyUnder(s, loops, t, Renewed(loops, part), id)
    ensures SlotOf(t, Renewed(loops, part), id) == Slot(Under(t, id), part)
    ensures Renewed(loops, part).Keys == loops.Keys
  {
    hide OfId;
    forall j: nat
      ensures OfId(Renewed(loops, part), j) == if j == id then part else OfId(loops, j)
    {
      RenewedOfId(loops, part, id, j);
    }
    assert Renewed(loops, part).Keys == loops.Keys by {
      hide OnlyUnder;
    }
  }

  /** The stream's own backend, whose loop is under its id. */
  lemma OwnerUnder(s: State, loops: map<int, Loop>, id: nat)
    requires Kept(s, loops) && id in s.streams
    ensures var b := s.streams[id].backend;
      b in loops && loops[b].id == id && SlotOf(s, loops, id).loops[b] == loops[b]
  {
    hide Orderly;
    assert InOrder(SlotOf(s, loops, id));
  }

  /** The stream under `id` ends. */
  lemma ClosedInOrder(slot: Slot)
    requires InOrder(slot)
    ensures InOrder(Slot(None, slot.loops)) && Alone(Slot(None, slot.loops))
  {
    hide Accounted, Fed;
    forall b | b in slot.loops
      ensures Orderly(Own(None, b, slot.loops[b]), slot.loops[b])
    {
      OrderlyIn(slot, b);
      TakeAccounted(Own(slot.stream, b, slot.loops[b]), StreamCloses);
      assert Own(None, b, slot.loops[b]) == Take(Own(slot.stream, b, slot.loops[b]), StreamCloses);
    }
  }

  // An uplink frame.

  predicate Admitted(cfg: Config, a: Acc, f: Frame, admit: bool) {
    f.id != 0 && f.kind == OPEN && |a.s.streams| < cfg.limits.maxStreamsPerSession && admit
  }

  function LogLoop(cfg: Config, a: Acc, loops: map<int, Loop>, f: Frame, admit: bool): map<int, Loop> {
    if Admitted(cfg, a, f, admit) then loops[a.s.nextBackend := NewLoop(f.id)]
    else if f.id != 0 && f.kind == DATA && f.id !in a.s.tombs && f.id in a.s.streams
            && a.s.streams[f.id].backend in loops && loops[a.s.streams[f.id].backend].id == f.id then
      var b := a.s.streams[f.id].backend;
      loops[b := loops[b].(accepted := loops[b].accepted + f.payload,
                           stand := Roused(loops[b], DataArrives(f.payload)))]
    else loops
  }

  /** The frame opens an id an earlier backend can still touch. */
  ghost predicate Overlaps(cfg: Config, a: Acc, loops: map<int, Loop>, f: Frame, admit: bool) {
    Admitted(cfg, a, f, admit) && exists b :: b in loops && loops[b].id == f.id && !Quiet(loops[b])
  }

  /** The id's DATA queued for the client or not yet acknowledged, of whatever stream. */
  function OnItsWay(cfg: Config, s: State, id: nat): Bytes {
    var k := cfg.LaneOf(id);
    if k in s.lanes then Tales.DataOf(s.lanes[k].down.unacked + s.lanes[k].down.queue, id) else []
  }

  lemma OpenUnder(cfg: Config, a: Acc, loops: map<int, Loop>, f: Frame, admit: bool)
    requires GoodConfig(cfg) && Kept(a.s, loops) && Tales.Applicable(cfg, a.s, f) && Admitted(cfg, a, f, admit)
    ensures ApplyFrame(cfg, a, f, admit).Going?
    ensures var t, loops' := ApplyFrame(cfg, a, f, admit).acc.s, LogLoop(cfg, a, loops, f, admit);
      && SlotOf(t, loops', f.id) == Opened(SlotOf(a.s, loops, f.id), f.id, a.s.nextBackend)
      && Kept(t, loops')
      && (Sole(a.s, loops) ==> (Sole(t, loops') <==> !Overlaps(cfg, a, loops, f, admit)))
  {
    hide InOrder, Alone, Sole;
    var t, b := ApplyFrame(cfg, a, f, admit).acc.s, a.s.nextBackend;
    var loops' := LogLoop(cfg, a, loops, f, admit);
    SetUnder(a.s, loops, t, b, NewLoop(f.id));
    assert InOrder(SlotOf(a.s, loops, f.id));
    OpenedInOrder(SlotOf(a.s, loops, f.id), f.id, b);
    OneSlotKept(a.s, loops, t, loops', f.id);
    OverlapsInSlot(cfg, a, loops, f, admit);
    if Sole(t, loops') {
      SoleMeans(t, loops', f.id);
    }
  }

  /**
   * The session's answer to an id that comes back: whatever the id's loops then do and DATA then
   * arrives, every socket gets a prefix of its own stream's bytes and the client, counting from the
   * OPEN, a prefix of its own backend's as each stream's, if and only if no earlier backend of the id can
   * still touch it and no DATA of the id is on its way.
   */
  lemma ReopeningIsHarmlessIff(cfg: Config, a: Acc, loops: map<int, Loop>, f: Frame, admit: bool)
    requires GoodConfig(cfg) && Kept(a.s, loops) && Tales.Applicable(cfg, a.s, f) && Admitted(cfg, a, f, admit)
    ensures ApplyFrame(cfg, a, f, admit).Going?
    ensures var t, left := ApplyFrame(cfg, a, f, admit).acc.s, OnItsWay(cfg, a.s, f.id);
      var slot := SlotOf(t, LogLoop(cfg, a, loops, f, admit), f.id);
      (forall events: seq<SlotEvent> :: Faithful(Moves(slot, events), left)) <==>
        left == [] && !Overlaps(cfg, a, loops, f, admit)
  {
    hide InOrder, Moves, Faithful, Overlaps, Alone, Sole, OnItsWay;
    OpenUnder(cfg, a, loops, f, admit);
    var slot := SlotOf(a.s, loops, f.id);
    assert InOrder(slot);
    assert a.s.nextBackend !in slot.loops;
    ReuseIsHarmlessIff(slot, f.id, a.s.nextBackend, OnItsWay(cfg, a.s, f.id));
    OverlapsInSlot(cfg, a, loops, f, admit);
  }

  lemma SoleMeans(s: State, loops: map<int, Loop>, id: nat)
    requires Sole(s, loops)
    ensures Alone(SlotOf(s, loops, id))
  {
  }

  lemma OverlapsInSlot(cfg: Config, a: Acc, loops: map<int, Loop>, f: Frame, admit: bool)
    requires Admitted(cfg, a, f, admit)
    ensures var slot := SlotOf(a.s, loops, f.id);
      Overlaps(cfg, a, loops, f, admit) <==> !forall k | k in slot.loops :: Quiet(slot.loops[k])
  {
    hide Quiet;
    var slot := SlotOf(a.s, loops, f.id);
    if Overlaps(cfg, a, loops, f, admit) {
      var b :| b in loops && loops[b].id == f.id && !Quiet(loops[b]);
      assert b in slot.loops && slot.loops[b] == loops[b];
    }
  }

  /** DATA and WINDOW frames are steps of the stream's own slot. */
  lemma FrameMoves(s: State, loops: map<int, Loop>, id: nat, st: Stream, e: Streams.Step)
    requires Kept(s, loops) && id in s.streams && st.backend == s.streams[id].backend
    requires e.DataArrives? || e.CreditArrives?
    requires var b := s.streams[id].backend;
      b in loops && Take(Found(Some(s.streams[id]), loops[b]), e).stream == Some(st)
    ensures var t, b := s.(streams := s.streams[id := st]), s.streams[id].backend;
      var loops' := loops[b := After(loops[b], e, Take(Found(Some(s.streams[id]), loops[b]), e))];
      Kept(t, loops') && (Sole(s, loops) ==> Sole(t, loops'))
  {
    hide InOrder, Alone, Take, Sole;
    var t, b := s.(streams := s.streams[id := st]), s.streams[id].backend;
    OwnerUnder(s, loops, id);
    var loop := After(loops[b], e, Take(Found(Some(s.streams[id]), loops[b]), e));
    SetUnder(s, loops, t, b, loop);
    var slot := SlotOf(s, loops, id);
    assert InOrder(slot);
    assert SlotOf(t, loops[b := loop], id) == WriterMoves(slot, b, e);
    OneSlotMoves(slot, b, e);
    if Sole(s, loops) {
      SoleMeans(s, loops, id);
    }
    OneSlotKept(s, loops, t, loops[b := loop], id);
  }

  lemma OneSlotMoves(slot: Slot, b: int, e: Streams.Step)
    requires InOrder(slot) && slot.stream.Some? && slot.stream.value.backend == b && b in slot.loops
    requires e.DataArrives? || e.CreditArrives?
    ensures InOrder(WriterMoves(slot, b, e)) && (Alone(slot) ==> Alone(WriterMoves(slot, b, e)))
  {
    OrderlyIn(slot, b);
    hide InOrder, Alone, Orderly, Take;
    TakeShape(Found(slot.stream, slot.loops[b]), e);
    WriterOrderly(Own(slot.stream, b, slot.loops[b]), slot.loops[b], e);
    var after := WriterMoves(slot, b, e);
    OneLoopMoves(slot, b, after.stream, after.loops[b]);
  }

  /** Streams that go, and whatever does not touch streams at all. */
  lemma RemovedKept(s: State, loops: map<int, Loop>, t: State)
    requires Kept(s, loops) && t.nextBackend == s.nextBackend
    requires forall id | id in t.streams :: id in s.streams && t.streams[id] == s.streams[id]
    ensures Kept(t, loops) && (Sole(s, loops) ==> Sole(t, loops))
  {
    hide InOrder, Alone;
    forall id: nat
      ensures InOrder(SlotOf(t, loops, id)) && (Sole(s, loops) ==> Alone(SlotOf(t, loops, id)))
    {
      assert InOrder(SlotOf(s, loops, id));
      if id in s.streams && id !in t.streams {
        ClosedInOrder(SlotOf(s, loops, id));
        assert SlotOf(t, loops, id) == Slot(None, SlotOf(s, loops, id).loops);
      } else {
        assert SlotOf(t, loops, id) == SlotOf(s, loops, id);
      }
    }
  }

  /** What a validated frame does to every loop, in either outcome. */
  ghost predicate FrameKept(cfg: Config, a: Acc, loops: map<int, Loop>, f: Frame, admit: bool)
    requires GoodConfig(cfg)
  {
    var loops' := LogLoop(cfg, a, loops, f, admit);
    match ApplyFrame(cfg, a, f, admit)
    case Going(b) =>
      Kept(b.s, loops') && (Sole(a.s, loops) && !Overlaps(cfg, a, loops, f, admit) ==> Sole(b.s, loops'))
    case Aborted(b) => Kept(b.s, loops') && (Sole(a.s, loops) ==> Sole(b.s, loops'))
    case NilStream => true
  }

  lemma DataKept(cfg: Config, a: Acc, loops: map<int, Loop>, f: Frame, admit: bool)
    requires GoodConfig(cfg) && Kept(a.s, loops) && Tales.Applicable(cfg, a.s, f) && f.id in a.s.streams && f.id != 0
    requires f.kind == DATA || f.kind == WINDOW
    ensures FrameKept(cfg, a, loops, f, admit)
  {
    hide Kept, Sole, AcceptData, AddCredit, Amount;
    OwnerUnder(a.s, loops, f.id);
    var st, b := a.s.streams[f.id], a.s.streams[f.id].backend;
    SameBackend(st, f.payload, Amount(f.payload));
    if f.kind == DATA {
      FrameMoves(a.s, loops, f.id, AcceptData(st, f.payload), DataArrives(f.payload));
    } else {
      FrameMoves(a.s, loops, f.id, AddCredit(st, Amount(f.payload)), CreditArrives(Amount(f.payload)));
      assert loops[b := After(loops[b], CreditArrives(Amount(f.payload)),
                              Take(Found(Some(st), loops[b]), CreditArrives(Amount(f.payload))))] == loops;
    }
  }

  lemma SameBackend(st: Stream, payload: Bytes, amount: nat)
    ensures AcceptData(st, payload).backend == st.backend && AddCredit(st, amount).backend == st.backend
  {
  }

  lemma FrameKeeps(cfg: Config, a: Acc, loops: map<int, Loop>, f: Frame, admit: bool)
    requires GoodConfig(cfg) && Kept(a.s, loops) && Tales.Applicable(cfg, a.s, f)
    ensures FrameKept(cfg, a, loops, f, admit)
  {
    hide Kept, Sole, OpenFrame, CloseStream, AcceptData, AddCredit, Overlaps;
    if Admitted(cfg, a, f, admit) {
      OpenUnder(cfg, a, loops, f, admit);
    } else if f.id != 0 && f.kind == OPEN {
      RefusedStreams(cfg, a, f, admit);
      match ApplyFrame(cfg, a, f, admit)
      case Going(b) => RemovedKept(a.s, loops, b.s);
      case Aborted(b) => RemovedKept(a.s, loops, b.s);
      case NilStream =>
    } else if f.id != 0 && f.id in a.s.streams && (f.kind == DATA || f.kind == WINDOW) {
      DataKept(cfg, a, loops, f, admit);
    } else if f.id != 0 && f.id in a.s.streams && f.kind == CLOSE {
      CloseStreamShape(cfg, a.s, f.id);
      RemovedKept(a.s, loops, CloseStream(cfg, a.s, f.id));
    } else {
      RemovedKept(a.s, loops, a.s);
    }
  }

  lemma RefusedStreams(cfg: Config, a: Acc, f: Frame, admit: bool)
    requires GoodConfig(cfg) && f.id != 0 && f.kind == OPEN && !Admitted(cfg, a, f, admit)
    ensures match ApplyFrame(cfg, a, f, admit)
      case Going(b) => b.s.streams == a.s.streams && b.s.nextBackend == a.s.nextBackend
      case Aborted(b) => b.s.streams == a.s.streams && b.s.nextBackend == a.s.nextBackend
      case NilStream => true
  {
    hide RememberClosed, QueueFrame;
    RememberClosedShape(cfg, a.s, f.id);
    QueueFrameShape(cfg, RememberClosed(cfg, a.s, f.id), Frame(CLOSE, f.id, []));
  }

  // An uplink batch.

  function LogLoops(cfg: Config, a: Acc, loops: map<int, Loop>, frames: seq<Frame>, admits: seq<bool>): map<int, Loop>
    requires GoodConfig(cfg) && |admits| == |frames|
    decreases |frames|
  {
    if frames == [] then loops
    else
      var next := LogLoop(cfg, a, loops, frames[0], admits[0]);
      match ApplyFrame(cfg, a, frames[0], admits[0])
      case Going(b) => LogLoops(cfg, b, next, frames[1..], admits[1..])
      case _ => next
  }

  ghost predicate OverlapsSome(cfg: Config, a: Acc, loops: map<int, Loop>, frames: seq<Frame>, admits: seq<bool>)
    requires GoodConfig(cfg) && |admits| == |frames|
    decreases |frames|
  {
    frames != [] &&
    (Overlaps(cfg, a, loops, frames[0], admits[0])
     || match ApplyFrame(cfg, a, frames[0], admits[0])
        case Going(b) =>
          OverlapsSome(cfg, b, LogLoop(cfg, a, loops, frames[0], admits[0]), frames[1..], admits[1..])
        case _ => false)
  }

  ghost predicate BatchKept(cfg: Config, a: Acc, loops: map<int, Loop>, frames: seq<Frame>, admits: seq<bool>)
    requires GoodConfig(cfg) && |admits| == |frames|
  {
    var after := LogLoops(cfg, a, loops, frames, admits);
    var sole := Sole(a.s, loops) && !OverlapsSome(cfg, a, loops, frames, admits);
    match Apply(cfg, a, frames, admits)
    case Going(b) => Kept(b.s, after) && (sole ==> Sole(b.s, after))
    case Aborted(b) => Kept(b.s, after) && (sole ==> Sole(b.s, after))
    case NilStream => true
  }

  lemma BatchKeptNext(cfg: Config, a: Acc, loops: map<int, Loop>, frames: seq<Frame>, admits: seq<bool>)
    requires GoodConfig(cfg) && |admits| == |frames| && frames != []
    requires FrameKept(cfg, a, loops, frames[0], admits[0])
    requires match ApplyFrame(cfg, a, frames[0], admits[0])
      case Going(b) => BatchKept(cfg, b, LogLoop(cfg, a, loops, frames[0], admits[0]), frames[1..], admits[1..])
      case _ => true
    ensures BatchKept(cfg, a, loops, frames, admits)
  {
    hide Kept, Sole, ApplyFrame, LogLoop, Overlaps;
  }

  lemma BatchKeptEnd(cfg: Config, a: Acc, loops: map<int, Loop>, frames: seq<Frame>, admits: seq<bool>)
    requires GoodConfig(cfg) && |admits| == |frames| == 0 && Kept(a.s, loops)
    ensures BatchKept(cfg, a, loops, frames, admits)
  {
    hide Kept, Sole;
  }

  lemma FrameKeptMeans(cfg: Config, a: Acc, loops: map<int, Loop>, f: Frame, admit: bool)
    requires GoodConfig(cfg) && FrameKept(cfg, a, loops, f, admit) && ApplyFrame(cfg, a, f, admit).Going?
    ensures Kept(ApplyFrame(cfg, a, f, admit).acc.s, LogLoop(cfg, a, loops, f, admit))
  {
    hide Kept, Sole, ApplyFrame, LogLoop, Overlaps;
  }

  lemma {:induction false} ApplyKeepsLoops(cfg: Config, t: Trial, a: Acc, loops: map<int, Loop>, frames: seq<Frame>,
                                           admits: seq<bool>, history: seq<nat>, live: set<nat>)
    requires Underway(cfg, t, a, frames, history, live) && |admits| == |frames|
    requires AllClientShaped(frames) && Kept(a.s, loops)
    ensures GoodConfig(cfg) && BatchKept(cfg, a, loops, frames, admits)
    decreases |frames|
  {
    hide *;
    Tales.UnderwayGood(cfg, t, a, frames, history, live);
    if |frames| == 0 {
      BatchKeptEnd(cfg, a, loops, frames, admits);
    } else {
      var f := frames[0];
      Tales.RestClientShaped(frames);
      Tales.ValidatedIsApplicable(cfg, t, a.s, f, history);
      FrameKeeps(cfg, a, loops, f, admits[0]);
      UnderwayStep(cfg, t, a, frames, admits[0], history, live);
      if ApplyFrame(cfg, a, f, admits[0]).Going? {
        var b := ApplyFrame(cfg, a, f, admits[0]).acc;
        FrameKeptMeans(cfg, a, loops, f, admits[0]);
        ApplyKeepsLoops(cfg, ValidateFrame(t, f).value, b, LogLoop(cfg, a, loops, f, admits[0]), frames[1..],
                        admits[1..],
                        IdsAfter(cfg, Ids(a.s.streams.Keys, history), f, admits[0]).history, LiveAfter(live, f));
      }
      BatchKeptNext(cfg, a, loops, frames, admits);
    }
  }

  /** Every id a backend can still touch is known: live, or remembered. */
  ghost predicate RunningAreKnown(t: Trial, loops: map<int, Loop>) {
    forall b | b in loops && !Quiet(loops[b]) :: KnownTo(t, loops[b].id)
  }

  /** A validated batch opens no known id, so none a backend can still touch. */
  lemma {:induction false} KnownNeverOverlaps(cfg: Config, t: Trial, a: Acc, loops: map<int, Loop>,
                                              frames: seq<Frame>, admits: seq<bool>)
    requires GoodConfig(cfg) && |admits| == |frames| && Validate(t, frames).Some? && RunningAreKnown(t, loops)
    ensures !OverlapsSome(cfg, a, loops, frames, admits)
    decreases |frames|
  {
    hide ApplyFrame;
    if frames != [] {
      var t' := ValidateFrame(t, frames[0]).value;
      var next := LogLoop(cfg, a, loops, frames[0], admits[0]);
      assert forall x :: KnownTo(t, x) ==> KnownTo(t', x);
      assert RunningAreKnown(t', next);
      if ApplyFrame(cfg, a, frames[0], admits[0]).Going? {
        KnownNeverOverlaps(cfg, t', ApplyFrame(cfg, a, frames[0], admits[0]).acc, next, frames[1..], admits[1..]);
      }
    }
  }

  // Runs of a session without lanes, each backend with its loop.

  datatype World = World(s: State, loops: map<int, Loop>)

  datatype Event =
    | Session(e: SessionSteps.Event)
    | LoopDials(b: int)
    | LoopWaits(b: int)
    | LoopTakes(b: int)
    | LoopWrites(b: int, count: nat)
    | LoopFinishes(b: int)
    | LoopFails(b: int)
    | LoopReads(b: int, data: Bytes)
    | LoopQueues(b: int)
    | LoopReturns(b: int)
    | LoopDisconnects(b: int)

  /** The batch ProcessUp's second critical section applies, if it gets that far. */
  function Applying(cfg: Config, s: State, body: Bytes, admits: seq<bool>): Option<Ready>
    requires GoodConfig(cfg)
  {
    if s.closed then None else ReadyOn(cfg, AfterParse(s), body, admits)
  }

  function LoopsAfter(cfg: Config, w: World, e: SessionSteps.Event): map<int, Loop>
    requires GoodConfig(cfg)
  {
    if !e.Finish? || cfg.UsesLanes() || SessionSteps.Crashes(cfg, w.s, e) then w.loops
    else
      match Applying(cfg, w.s, e.body, e.admits)
      case None => w.loops
      case Some(r) =>
        if |e.admits| == |r.frames| then LogLoops(cfg, r.a, w.loops, r.frames, e.admits) else w.loops
  }

  /** The slot backend `b` belongs to. */
  function SlotFor(w: World, b: int): Slot
    requires b in w.loops
  {
    SlotOf(w.s, w.loops, w.loops[b].id)
  }

  /** The session as the call leaves it, and the loops of the slot moved. */
  function Acts(w: World, b: int, s': State, act: Act): World
    requires b in w.loops
  {
    World(s', Renewed(w.loops, Move(SlotFor(w, b), b, act).loops))
  }

  /** backendClosed is called when both loops have returned, or were never started. */
  predicate HasReturned(w: World, b: int) {
    b in w.loops && w.loops[b].phase.Stopped? && w.loops[b].reader.phase.Returned?
  }

  /** The calls a backend's loops make come as its steps; every other critical section as a session event. */
  function Step(cfg: Config, w: World, e: Event): World
    requires GoodConfig(cfg)
  {
    match e
    case Session(e) =>
      if e.TakeWrite? || e.Drained? || e.WriteFinished? || e.ReadData? then w
      else if e.BackendGone? && !HasReturned(w, e.backend) then w
      else World(SessionSteps.Step(cfg, w.s, e), LoopsAfter(cfg, w, e))
    case LoopTakes(b) =>
      if b !in w.loops || !w.loops[b].phase.Idle? || !w.loops[b].stand.Looking? then w
      else Acts(w, b, WriteTaken(w.s, w.loops[b].id), Writes(NextWrite))
    case LoopWrites(b, count) =>
      if b !in w.loops || !w.loops[b].phase.Writing? || !(0 < count <= |w.loops[b].phase.left|) then w
      else
        var (s', ok) := BackendDrained(cfg, w.s, w.loops[b].id, count);
        Acts(w, b, s', Writes(SocketWrites(count, ok)))
    case LoopFinishes(b) =>
      if b !in w.loops || w.loops[b].phase != Writing([]) then w
      else Acts(w, b, BackendWriteFinished(w.s, w.loops[b].id).0, Writes(WriteFinishes))
    case LoopQueues(b) =>
      if b !in w.loops || !w.loops[b].reader.phase.Holding? then w
      else
        var (s', ok) := BackendData(cfg, w.s, w.loops[b].id, w.loops[b].reader.phase.bytes);
        Acts(w, b, s', Queues(ok))
    case LoopFails(b) => if b !in w.loops then w else Acts(w, b, w.s, Writes(SocketFails))
    case LoopDials(b) => if b !in w.loops then w else Acts(w, b, w.s, Dials)
    case LoopWaits(b) => if b !in w.loops then w else Acts(w, b, w.s, Waits)
    case LoopReads(b, data) => if b !in w.loops then w else Acts(w, b, w.s, Reads(data))
    case LoopReturns(b) => if b !in w.loops then w else Acts(w, b, w.s, Returns)
    case LoopDisconnects(b) => if b !in w.loops then w else Acts(w, b, w.s, Disconnects)
  }

  function Run(cfg: Config, pool: Charge, events: seq<Event>): World
    requires GoodConfig(cfg)
  {
    if events == [] then World(NewSession(cfg, pool), map[])
    else Step(cfg, Run(cfg, pool, events[..|events| - 1]), events[|events| - 1])
  }

  ghost predicate Sound(cfg: Config, w: World) {
    && Inv(cfg, w.s, NOTHING) && Kept(w.s, w.loops) && Sole(w.s, w.loops)
    && (w.s.closed ==> w.s.streams == map[])
  }

  /** A loop's call changes the stream under its id as its slot's step says, and no other. */
  ghost predicate CallAgrees(w: World, b: int, s': State, act: Act)
    requires b in w.loops
  {
    && s'.nextBackend == w.s.nextBackend
    && (forall id: nat | id != w.loops[b].id :: Under(s', id) == Under(w.s, id))
    && Under(s', w.loops[b].id) == Move(SlotFor(w, b), b, act).stream
    && LoopStep(SlotFor(w, b), b, act)
  }

  lemma ActsKept(w: World, b: int, s': State, act: Act)
    requires Kept(w.s, w.loops) && Sole(w.s, w.loops) && b in w.loops && CallAgrees(w, b, s', act)
    ensures Kept(s', Acts(w, b, s', act).loops) && Sole(s', Acts(w, b, s', act).loops)
  {
    hide InOrder, Alone, Move, Sole, LoopStep;
    var id, slot := w.loops[b].id, SlotFor(w, b);
    assert InOrder(slot);
    SoleMeans(w.s, w.loops, id);
    MoveKeeps(slot, b, act);
    SameOwner(slot, b, act);
    var after := Move(slot, b, act);
    RenewedUnder(w.s, w.loops, s', id, after.loops);
    assert SlotOf(s', Renewed(w.loops, after.loops), id) == after;
    OneSlotKept(w.s, w.loops, s', Renewed(w.loops, after.loops), id);
  }

  lemma TakesAgrees(w: World, b: int)
    requires b in w.loops && w.loops[b].phase.Idle? && w.loops[b].stand.Looking?
    requires w.s.closed ==> w.s.streams == map[]
    ensures CallAgrees(w, b, WriteTaken(w.s, w.loops[b].id), Writes(NextWrite))
  {
  }

  lemma WritesAgrees(cfg: Config, w: World, b: int, count: nat)
    requires GoodConfig(cfg) && b in w.loops && (w.s.closed ==> w.s.streams == map[])
    requires w.loops[b].phase.Writing? && 0 < count <= |w.loops[b].phase.left|
    ensures var (s', ok) := BackendDrained(cfg, w.s, w.loops[b].id, count);
      CallAgrees(w, b, s', Writes(SocketWrites(count, ok)))
  {
    hide QueueFrame, Release, Drain, PutUint32;
    var id := w.loops[b].id;
    ReleaseShape(w.s, Charge(count, 0));
    if id in w.s.streams && Drain(w.s.streams[id], count).Some? {
      QueueFrameShape(cfg,
                      Release(w.s,
                              Charge(count, 0)).(streams := w.s.streams[id := Drain(w.s.streams[id], count).value]),
                      Frame(WINDOW, id, WindowPayload(count % TWO_32)));
    }
  }

  lemma FinishesAgrees(w: World, b: int)
    requires b in w.loops && w.loops[b].phase == Writing([]) && (w.s.closed ==> w.s.streams == map[])
    ensures CallAgrees(w, b, BackendWriteFinished(w.s, w.loops[b].id).0, Writes(WriteFinishes))
  {
    hide Release, FinishWrite;
    ReleaseShape(w.s, Charge(QUEUE_ITEM_COST, 1));
  }

  lemma QueuesAgrees(cfg: Config, w: World, b: int)
    requires GoodConfig(cfg) && b in w.loops && w.loops[b].reader.phase.Holding? && |w.loops[b].reader.phase.bytes| > 0
    requires w.s.closed ==> w.s.streams == map[]
    ensures var (s', ok) := BackendData(cfg, w.s, w.loops[b].id, w.loops[b].reader.phase.bytes);
      CallAgrees(w, b, s', Queues(ok))
  {
    hide QueueFrame;
    var id, bytes := w.loops[b].id, w.loops[b].reader.phase.bytes;
    if id in w.s.streams {
      var spent := w.s.(streams := w.s.streams[id := SpendCredit(w.s.streams[id], |bytes|)]);
      QueueFrameShape(cfg, spent, Frame(DATA, id, bytes));
    }
  }

  lemma NoCallAgrees(w: World, b: int, act: Act)
    requires b in w.loops && (act == Writes(SocketFails) || !(act.Writes? || act.Queues?))
    ensures CallAgrees(w, b, w.s, act)
  {
  }

  lemma ClosedIsBare(cfg: Config, s: State)
    requires Inv(cfg, s, NOTHING)
    ensures GoodConfig(cfg) && (s.closed ==> s.streams == map[])
  {
    hide Inv;
    LaneFacts(cfg, s, NOTHING);
  }

  lemma LoopStepSound(cfg: Config, w: World, e: Event)
    requires Sound(cfg, w) && GoodConfig(cfg) && !e.Session?
    ensures Sound(cfg, Step(cfg, w, e))
  {
    hide Inv, Kept, Sole, WriteTaken, BackendDrained, BackendWriteFinished, BackendData, Move, CallAgrees;
    match e {
      case LoopTakes(b) =>
        if b in w.loops && w.loops[b].phase.Idle? && w.loops[b].stand.Looking? {
          TakeWriteInv(cfg, w.s, w.loops[b].id);
          TakesAgrees(w, b);
          ActsKept(w, b, WriteTaken(w.s, w.loops[b].id), Writes(NextWrite));
        }
      case LoopWrites(b, count) =>
        if b in w.loops && w.loops[b].phase.Writing? && 0 < count <= |w.loops[b].phase.left| {
          var (s', ok) := BackendDrained(cfg, w.s, w.loops[b].id, count);
          DrainedInv(cfg, w.s, w.loops[b].id, count);
          WritesAgrees(cfg, w, b, count);
          ActsKept(w, b, s', Writes(SocketWrites(count, ok)));
        }
      case LoopFinishes(b) =>
        if b in w.loops && w.loops[b].phase == Writing([]) {
          WriteFinishedInv(cfg, w.s, w.loops[b].id);
          FinishesAgrees(w, b);
          ActsKept(w, b, BackendWriteFinished(w.s, w.loops[b].id).0, Writes(WriteFinishes));
        }
      case LoopQueues(b) =>
        if b in w.loops && w.loops[b].reader.phase.Holding? {
          var (s', ok) := BackendData(cfg, w.s, w.loops[b].id, w.loops[b].reader.phase.bytes);
          HeldFits(w, b);
          ReadDataInv(cfg, w.s, w.loops[b].id, w.loops[b].reader.phase.bytes);
          QueuesAgrees(cfg, w, b);
          ActsKept(w, b, s', Queues(ok));
        }
      case LoopFails(b) => NoCallSound(w, b, Writes(SocketFails));
      case LoopDials(b) => NoCallSound(w, b, Dials);
      case LoopWaits(b) => NoCallSound(w, b, Waits);
      case LoopReads(b, data) => NoCallSound(w, b, Reads(data));
      case LoopReturns(b) => NoCallSound(w, b, Returns);
      case LoopDisconnects(b) => NoCallSound(w, b, Disconnects);
    }
    ClosedIsBare(cfg, Step(cfg, w, e).s);
  }

  lemma NoCallSound(w: World, b: int, act: Act)
    requires Kept(w.s, w.loops) && Sole(w.s, w.loops)
    requires act == Writes(SocketFails) || !(act.Writes? || act.Queues?)
    ensures b in w.loops ==> Kept(w.s, Acts(w, b, w.s, act).loops) && Sole(w.s, Acts(w, b, w.s, act).loops)
  {
    hide Kept, Sole, CallAgrees, Move;
    if b in w.loops {
      NoCallAgrees(w, b, act);
      ActsKept(w, b, w.s, act);
    }
  }

  lemma HeldFits(w: World, b: int)
    requires Kept(w.s, w.loops) && b in w.loops && w.loops[b].reader.phase.Holding?
    ensures 0 < |w.loops[b].reader.phase.bytes| <= DATA_CHUNK
  {
    hide InOrder, Accounted, Standing;
    assert InOrder(SlotFor(w, b));
    OrderlyIn(SlotFor(w, b), b);
  }

  /** What ProcessUp's second critical section does to streams: nothing, or what the apply did. */
  lemma ApplyingCases(cfg: Config, s: State, sequence: nat, body: Bytes, admits: seq<bool>)
    requires GoodConfig(cfg)
    ensures var (t, answer) := UpFinishes(cfg, s, sequence, body, admits);
      match Applying(cfg, s, body, admits)
      case None => t.streams == s.streams && t.nextBackend == s.nextBackend && !answer.Crashed?
      case Some(r) =>
        && |admits| == |r.frames| && !s.closed && Readable(cfg, body) == Some(r.frames)
        && Validate(TrialOf(AfterParse(s)), r.frames).Some? && Reserved(cfg, AfterParse(s), r.frames) == Some(r.a)
        && match Apply(cfg, r.a, r.frames, admits)
           case Going(b) => t.streams == b.s.streams && t.nextBackend == b.s.nextBackend && !answer.Crashed?
           case Aborted(b) => t.streams == b.s.streams && t.nextBackend == b.s.nextBackend && !answer.Crashed?
           case NilStream => answer.Crashed?
  {
    hide Readable, Validate, Apply, Reserved, Charge.Minus, Charge.Within;
  }

  /** No earlier backend can touch an id that a batch opens anew. */
  ghost predicate NoOverlap(cfg: Config, w: World, e: SessionSteps.Event)
    requires GoodConfig(cfg)
  {
    e.Finish? ==>
      match Applying(cfg, w.s, e.body, e.admits)
      case None => true
      case Some(r) => |e.admits| == |r.frames| ==> !OverlapsSome(cfg, r.a, w.loops, r.frames, e.admits)
  }

  lemma CommitSound(cfg: Config, w: World, e: SessionSteps.Event)
    requires Sound(cfg, w) && GoodConfig(cfg) && !cfg.UsesLanes() && e.Finish?
    requires !SessionSteps.Crashes(cfg, w.s, e) && NoOverlap(cfg, w, e)
    ensures var t := UpFinishes(cfg, w.s, e.sequence, e.body, e.admits).0;
      Kept(t, LoopsAfter(cfg, w, e)) && Sole(t, LoopsAfter(cfg, w, e))
  {
    hide Inv, Kept, Sole, UpFinishes, Applying, LogLoops, OverlapsSome, Apply, Reserved, Validate, Readable;
    var t := UpFinishes(cfg, w.s, e.sequence, e.body, e.admits).0;
    ApplyingCases(cfg, w.s, e.sequence, e.body, e.admits);
    match Applying(cfg, w.s, e.body, e.admits)
    case None => RemovedKept(w.s, w.loops, t);
    case Some(r) =>
      var a, frames := r.a, r.frames;
      CommitBatch(cfg, w, a, frames, e.body, e.admits);
      var after := LogLoops(cfg, a, w.loops, frames, e.admits);
      match Apply(cfg, a, frames, e.admits) {
        case Going(b) => RemovedKept(b.s, after, t);
        case Aborted(b) => RemovedKept(b.s, after, t);
        case NilStream =>
      }
  }

  lemma CommitBatch(cfg: Config, w: World, a: Acc, frames: seq<Frame>, body: Bytes, admits: seq<bool>)
    requires Sound(cfg, w) && GoodConfig(cfg) && !cfg.UsesLanes() && !w.s.closed && |admits| == |frames|
    requires Readable(cfg, body) == Some(frames) && Validate(TrialOf(AfterParse(w.s)), frames).Some?
    requires Reserved(cfg, AfterParse(w.s), frames) == Some(a)
    requires !OverlapsSome(cfg, a, w.loops, frames, admits)
    ensures var after := LogLoops(cfg, a, w.loops, frames, admits);
      match Apply(cfg, a, frames, admits)
      case Going(b) => Kept(b.s, after) && Sole(b.s, after)
      case Aborted(b) => Kept(b.s, after) && Sole(b.s, after)
      case NilStream => true
  {
    hide *;
    SoundMeans(cfg, w);
    var s1 := AfterParse(w.s);
    AfterParseInv(cfg, w.s);
    LanesAreReady(cfg, s1, frames);
    ReadableFits(cfg, body);
    AcceptedIf(cfg, s1, frames);
    ReservedUnderway(cfg, s1, frames);
    SameStreams(cfg, w, s1, a.s);
    ApplyKeepsLoops(cfg, TrialOf(s1), a, w.loops, frames, admits, s1.tombs, s1.streams.Keys);
    BatchKeptMeans(cfg, a, w.loops, frames, admits);
  }

  lemma SoundMeans(cfg: Config, w: World)
    requires Sound(cfg, w)
    ensures Inv(cfg, w.s, NOTHING) && Kept(w.s, w.loops) && Sole(w.s, w.loops)
  {
    hide Inv, Kept, Sole;
  }

  lemma AfterParseInv(cfg: Config, s: State)
    requires Inv(cfg, s, NOTHING) && !cfg.UsesLanes()
    ensures Inv(cfg, AfterParse(s), NOTHING) && 0 in AfterParse(s).lanes && AfterParse(s).closed == s.closed
    ensures AfterParse(s).streams == s.streams && AfterParse(s).nextBackend == s.nextBackend
  {
    hide Inv;
    LaneFacts(cfg, s, NOTHING);
    SetUpInv(cfg, s, 0, s.lanes[0].up.(active := false), NOTHING);
  }

  lemma SameStreams(cfg: Config, w: World, s1: State, t: State)
    requires Kept(w.s, w.loops) && Sole(w.s, w.loops)
    requires s1.streams == w.s.streams && s1.nextBackend == w.s.nextBackend
    requires t == s1.(pending := t.pending, pool := t.pool)
    ensures Kept(t, w.loops) && Sole(t, w.loops)
  {
    hide Kept, Sole;
    RemovedKept(w.s, w.loops, t);
  }

  lemma BatchKeptMeans(cfg: Config, a: Acc, loops: map<int, Loop>, frames: seq<Frame>, admits: seq<bool>)
    requires GoodConfig(cfg) && |admits| == |frames| && BatchKept(cfg, a, loops, frames, admits)
    requires Sole(a.s, loops) && !OverlapsSome(cfg, a, loops, frames, admits)
    ensures var after := LogLoops(cfg, a, loops, frames, admits);
      match Apply(cfg, a, frames, admits)
      case Going(b) => Kept(b.s, after) && Sole(b.s, after)
      case Aborted(b) => Kept(b.s, after) && Sole(b.s, after)
      case NilStream => true
  {
    hide Kept, Sole, Apply, LogLoops, OverlapsSome;
  }

  lemma StepSound(cfg: Config, w: World, e: Event)
    requires Sound(cfg, w) && GoodConfig(cfg) && !cfg.UsesLanes()
    requires e.Session? ==> !SessionSteps.Crashes(cfg, w.s, e.e) && NoOverlap(cfg, w, e.e)
    ensures Sound(cfg, Step(cfg, w, e))
  {
    hide Inv, Kept, Sole, SessionSteps.Step, LoopsAfter, NoOverlap;
    if !e.Session? {
      LoopStepSound(cfg, w, e);
    } else if Step(cfg, w, e) != w {
      StepInv(cfg, w.s, e.e);
      SessionEventKept(cfg, w, e.e);
      ClosedIsBare(cfg, SessionSteps.Step(cfg, w.s, e.e));
    }
  }

  lemma SessionEventKept(cfg: Config, w: World, e: SessionSteps.Event)
    requires Sound(cfg, w) && GoodConfig(cfg) && !cfg.UsesLanes()
    requires !SessionSteps.Crashes(cfg, w.s, e) && NoOverlap(cfg, w, e)
    requires !e.TakeWrite? && !e.Drained? && !e.WriteFinished? && !e.ReadData?
    ensures var t := SessionSteps.Step(cfg, w.s, e);
      Kept(t, LoopsAfter(cfg, w, e)) && Sole(t, LoopsAfter(cfg, w, e))
  {
    hide Inv, Kept, Sole, UpFinishes, NoOverlap, Applying;
    if e.Finish? {
      CommitSound(cfg, w, e);
    } else {
      if !e.UpLane? {
        hide SessionSteps.Step;
        OthersRemove(cfg, w.s, e);
      }
      RemovedKept(w.s, w.loops, SessionSteps.Step(cfg, w.s, e));
    }
  }

  /** No commit of the run crashes, or opens an id an earlier backend can still touch. */
  ghost predicate NeverOverlaps(cfg: Config, pool: Charge, events: seq<Event>)
    requires GoodConfig(cfg)
  {
    events == [] ||
    (NeverOverlaps(cfg, pool, events[..|events| - 1])
     && var w, last := Run(cfg, pool, events[..|events| - 1]), events[|events| - 1];
        last.Session? ==> !SessionSteps.Crashes(cfg, w.s, last.e) && NoOverlap(cfg, w, last.e))
  }

  lemma StartSound(cfg: Config, pool: Charge)
    requires GoodConfig(cfg) && NOTHING.Within(pool)
    ensures Sound(cfg, World(NewSession(cfg, pool), map[]))
  {
    hide Inv;
    NewSessionInv(cfg, pool);
  }

  lemma {:induction false} RunSound(cfg: Config, pool: Charge, events: seq<Event>)
    requires GoodConfig(cfg) && NOTHING.Within(pool) && !cfg.UsesLanes() && NeverOverlaps(cfg, pool, events)
    ensures Sound(cfg, Run(cfg, pool, events))
  {
    hide Sound, Step, NoOverlap, SessionSteps.Crashes, NewSession;
    if |events| == 0 {
      StartSound(cfg, pool);
    } else {
      RunSound(cfg, pool, events[..|events| - 1]);
      StepSound(cfg, Run(cfg, pool, events[..|events| - 1]), events[|events| - 1]);
    }
  }

  /**
   * Ids may be reused, and every backend still has its stream to itself: its socket gets a prefix of the
   * DATA of its own stream, and what is queued for the client as its stream's is a prefix of what it
   * said, as long as no id is opened again while an earlier backend can still touch it.
   */
  lemma EveryBackendIsFaithful(cfg: Config, pool: Charge, events: seq<Event>, b: int)
    requires GoodConfig(cfg) && NOTHING.Within(pool) && !cfg.UsesLanes() && NeverOverlaps(cfg, pool, events)
    ensures var loops := Run(cfg, pool, events).loops;
      b in loops ==>
        && loops[b].written <= loops[b].accepted
        && loops[b].reader.queued <= loops[b].reader.sent
        && (!loops[b].reader.phase.Returned? ==>
              loops[b].reader.sent == loops[b].reader.queued
                + if loops[b].reader.phase.Holding? then loops[b].reader.phase.bytes else [])
  {
    hide Inv, Sole, Run, NeverOverlaps, Accounted, Standing;
    RunSound(cfg, pool, events);
    var w := Run(cfg, pool, events);
    if b in w.loops {
      var slot := SlotFor(w, b);
      assert InOrder(slot) && b in slot.loops;
      OrderlyIn(slot, b);
      FaithfulIfInOrder(slot);
    }
  }

  /**
   * The guard at a commit: while every id a backend can touch is live or still remembered, no batch can
   * open one of them again. Only an evicted tombstone lets it.
   */
  lemma RememberedIsNotReused(cfg: Config, w: World, e: SessionSteps.Event)
    requires GoodConfig(cfg) && e.Finish?
    requires forall b | b in w.loops && !Quiet(w.loops[b]) ::
      w.loops[b].id in w.s.streams || w.loops[b].id in w.s.tombs
    ensures NoOverlap(cfg, w, e)
  {
    hide Readable, Validate, Apply, Reserved, OverlapsSome, UpFinishes, Applying, Quiet;
    ApplyingCases(cfg, w.s, e.sequence, e.body, e.admits);
    match Applying(cfg, w.s, e.body, e.admits)
    case None =>
    case Some(r) =>
      SameTrial(cfg, w.s, AfterParse(w.s));
      KnownNeverOverlaps(cfg, TrialOf(w.s), r.a, w.loops, r.frames, e.admits);
  }
}

/** Small configurations and the runs that show what goes wrong under them. */
module Witness {
  import opened Octets
  import opened Outcomes
  import opened Frames
  import opened Limits
  import opened Queue
  import opened Streams
  import opened Tombstones
  import opened Uplink
  import opened SessionState
  import opened Batch
  import opened BatchLaws
  import opened SessionSteps
  import UplinkSteps
  import Loops

  /** Two streams and one remembered id per session; 24 pending items, 22 of them kept for control. */
  const TINY := Limits(262144, 65536, 262144, 2, 1, 1048576, 24, 1048576, 24, 1)

  const CFG := Config(TINY, TINY, Https)

  /** The same with room for DATA in both directions. */
  const WIDE := Limits(262144, 65536, 262144, 2, 1, 4194304, 8192, 4194304, 8192, 1)

  const ROOM := Config(WIDE, WIDE, Https)

  /** The configuration is one config.validate and ValidateBudget accept. */
  lemma TinyIsGood()
    ensures GoodConfig(CFG) && ValidateBudget(TINY)
    ensures ControlReserve(TINY) == Charge(5896, 22)
    ensures UplinkLimits(TINY) == Charge(1042680, 2) == PoolLimits(TINY, Uplink)
  {
  }

  /** And here the numbers admit any few small charges. */
  lemma WideReserve(s: State, want: Charge, purpose: Class)
    requires 0 < want.cost <= 1000 && 0 <= want.items <= 10 && s.pool == s.pending
    requires NOTHING.Within(s.pending) && s.pending.Within(Charge(100000, 1000))
    ensures GoodConfig(ROOM) && ValidateBudget(WIDE)
    ensures Reserve(ROOM, s, want, purpose)
         == Some(s.(pending := s.pending.Plus(want), pool := s.pool.Plus(want)))
  {
    WideIsGood();
    hide ControlReserve, UplinkReserve;
  }

  lemma WideIsGood()
    ensures GoodConfig(ROOM) && ValidateBudget(WIDE)
    ensures ControlReserve(WIDE) == Charge(5896, 22) && UplinkReserve(WIDE) == Charge(1310720, 4096)
  {
  }

  /** The plain carrier with frames of up to 64 KiB. */
  predicate Plain(cfg: Config) {
    GoodConfig(cfg) && cfg.carrier.Https? && cfg.limits.maxFramePayload == 65536
  }

  lemma SmallIsPlain()
    ensures Plain(CFG) && Plain(ROOM)
  {
    TinyIsGood();
    WideIsGood();
  }

  /** A batch within the small limits is read as it was encoded. */
  lemma ReadsBack(cfg: Config, fs: seq<Frame>)
    requires Plain(cfg) && AllFit(fs, 65536) && 1 <= |fs| <= 4096 && AllClientShaped(fs)
    ensures Readable(cfg, EncodeAll(fs)) == Some(fs)
  {
    hide EncodeAll, Parsed;
    ParseInvertsEncode(fs, 65536);
  }

  /** Uplink and control reservations, in numbers. */
  lemma TinyReserve(s: State, want: Charge)
    requires want.cost > 0 && want.items >= 0 && s.pool == s.pending && s.pending.cost >= 0 && s.pending.items >= 0
    ensures GoodConfig(CFG)
    ensures want.cost <= 1000 && s.pending.cost <= 100000 ==>
      Reserve(CFG, s, want, Uplink) ==
        if s.pending.items + want.items <= 2 then Some(s.(pending := s.pending.Plus(want), pool := s.pool.Plus(want)))
        else None
    ensures want.cost <= 1000 && s.pending.cost <= 100000 ==>
      Reserve(CFG, s, want, Control) ==
        if s.pending.items + want.items <= 24 then Some(s.(pending := s.pending.Plus(want), pool := s.pool.Plus(want)))
        else None
  {
    TinyIsGood();
    hide ControlReserve;
  }

  /** One frame at the head of a batch. */
  lemma HeadOfBatch(cfg: Config, t: Trial, live: set<nat>, a: Acc, f: Frame, rest: seq<Frame>, d: bool, ds: seq<bool>)
    requires GoodConfig(cfg) && |ds| == |rest|
    ensures Validate(t, [f] + rest) ==
      if ValidateFrame(t, f).Some? then Validate(ValidateFrame(t, f).value, rest) else None
    ensures Reservation(live, [f] + rest) == ReserveFrame(live, f).Plus(Reservation(LiveAfter(live, f), rest))
    ensures Apply(cfg, a, [f] + rest, [d] + ds) ==
      var out := ApplyFrame(cfg, a, f, d);
      if out.Going? then Apply(cfg, out.acc, rest, ds) else out
  {
    hide ValidateFrame, ReserveFrame, LiveAfter, ApplyFrame, Charge.Plus;
    assert ([f] + rest)[1..] == rest && ([d] + ds)[1..] == ds;
  }

  /** A batch that validates, is reserved for and applies whole. */
  lemma WholeBatch(cfg: Config, s: State, sequence: nat, fs: seq<Frame>, admits: seq<bool>, a: Acc, b: Acc)
    returns (t: State)
    requires Plain(cfg) && AllFit(fs, 65536) && 1 <= |fs| <= 4096 && AllClientShaped(fs) && |admits| == |fs|
    requires !s.closed && 0 in s.lanes && s.lanes[0].up.lastSequence == sequence && !s.lanes[0].up.active
    requires Validate(TrialOf(s), fs).Some? && Reserved(cfg, s, fs) == Some(a) && Apply(cfg, a, fs, admits) == Going(b)
    requires b.s == Release(b.s, b.left) && SameUps(s, b.s) && 0 in b.s.lanes
    ensures var before := SessionSteps.Step(cfg, s, SessionSteps.Begin(sequence + 1, EncodeAll(fs)));
      && UpBegins(s, sequence + 1, EncodeAll(fs)).1.Parsing?
      && t == SessionSteps.Step(cfg, before, Finish(sequence + 1, EncodeAll(fs), admits))
      && !SessionSteps.Crashes(cfg, before, Finish(sequence + 1, EncodeAll(fs), admits))
      && Loops.Applying(cfg, before, EncodeAll(fs), admits) == Some(UplinkSteps.Ready(a, fs))
      && AfterParse(before) == s && Readable(cfg, EncodeAll(fs)) == Some(fs)
      && UpFinishes(cfg, before, sequence + 1, EncodeAll(fs), admits) == (t, Acked)
    ensures t == b.s.(lanes := t.lanes) && 0 in t.lanes && t.lanes[0].down == b.s.lanes[0].down
    ensures t.lanes[0].up == Up(sequence + 1, EncodeAll(fs), false)
  {
    hide Readable, Validate, Apply, Reserved, Release, EncodeAll;
    ReadsBack(cfg, fs);
    var before := SessionSteps.Step(cfg, s, SessionSteps.Begin(sequence + 1, EncodeAll(fs)));
    assert AfterParse(before) == s by {
      assert before.lanes[0 := s.lanes[0]] == s.lanes;
    }
    SameTrial(cfg, s, before);
    t := SessionSteps.Step(cfg, before, Finish(sequence + 1, EncodeAll(fs), admits));
  }

  // An id reused while its old backend's loop still runs.

  function Open(id: nat): Frame {
    Frame(OPEN, id, [])
  }

  function Close(id: nat): Frame {
    Frame(CLOSE, id, [])
  }

  function Data(id: nat, octet: Byte): Frame {
    Frame(DATA, id, [octet])
  }

  /** A body of one frame, validated, reserved for and applied. */
  lemma OneFrame(cfg: Config, s: State, f: Frame, admit: bool, a: Acc, b: Acc)
    requires GoodConfig(cfg) && ValidateFrame(TrialOf(s), f).Some? && ApplyFrame(cfg, a, f, admit) == Going(b)
    requires var want := ReserveFrame(s.streams.Keys, f);
      if want == NOTHING then a == Acc(s, NOTHING, [], [])
      else Reserve(cfg, s, want, Uplink).Some? && a == Acc(Reserve(cfg, s, want, Uplink).value, want, [], [])
    ensures Validate(TrialOf(s), [f]).Some? && Reserved(cfg, s, [f]) == Some(a)
      && Apply(cfg, a, [f], [admit]) == Going(b)
  {
    hide *;
    var none: seq<Frame>, nobody: seq<bool> := [], [];
    var t, live := TrialOf(s), s.streams.Keys;
    HeadOfBatch(cfg, t, live, a, f, none, admit, nobody);
    EndOfBatch(cfg, ValidateFrame(t, f).value, LiveAfter(live, f), b, none, nobody);
    assert [f] + none == [f] && [admit] + nobody == [admit];
    PlusNothing(ReserveFrame(live, f));
    ReservedIs(cfg, s, [f], a);
  }

  lemma EndOfBatch(cfg: Config, t: Trial, live: set<nat>, a: Acc, none: seq<Frame>, nobody: seq<bool>)
    requires GoodConfig(cfg) && |none| == |nobody| == 0
    ensures Validate(t, none) == Some(t) && Reservation(live, none) == NOTHING
    ensures Apply(cfg, a, none, nobody) == Going(a)
  {
  }

  lemma ReservedIs(cfg: Config, s: State, fs: seq<Frame>, a: Acc)
    requires GoodConfig(cfg)
    requires var want := Reservation(s.streams.Keys, fs);
      if want == NOTHING then a == Acc(s, NOTHING, [], [])
      else Reserve(cfg, s, want, Uplink).Some? && a == Acc(Reserve(cfg, s, want, Uplink).value, want, [], [])
    ensures Reserved(cfg, s, fs) == Some(a)
  {
    hide Reservation, Reserve;
  }

  lemma OneFrameShape(f: Frame)
    requires 0 < f.id <= MAX_STREAM_ID && ValidClientShape(f) && |f.payload| <= 65536
    ensures AllFit([f], 65536) && AllFit([f], MAX_PAYLOAD) && AllClientShaped([f])
  {
    hide ValidClientShape;
  }

  /** The session and its loops after one more body of one frame, from Begin to Finish. */
  function Sends(w: Loops.World, f: Frame, admit: bool): Loops.World
    requires GoodConfig(ROOM) && 0 in w.s.lanes && AllFit([f], MAX_PAYLOAD)
  {
    var sequence := w.s.lanes[0].up.lastSequence + 1;
    Loops.Step(ROOM, Loops.Step(ROOM, w, Loops.Session(SessionSteps.Begin(sequence, EncodeAll([f])))),
               Loops.Session(Finish(sequence, EncodeAll([f]), [admit])))
  }

  lemma SendsOne(w: Loops.World, f: Frame, admit: bool, a: Acc, b: Acc)
    requires GoodConfig(ROOM) && !w.s.closed && 0 in w.s.lanes && !w.s.lanes[0].up.active
    requires 0 < f.id <= MAX_STREAM_ID && ValidClientShape(f) && |f.payload| <= 65536
    requires ValidateFrame(TrialOf(w.s), f).Some? && ApplyFrame(ROOM, a, f, admit) == Going(b)
    requires var want := ReserveFrame(w.s.streams.Keys, f);
      if want == NOTHING then a == Acc(w.s, NOTHING, [], [])
      else Reserve(ROOM, w.s, want, Uplink).Some? && a == Acc(Reserve(ROOM, w.s, want, Uplink).value, want, [], [])
    requires b.left == NOTHING && SameUps(w.s, b.s) && 0 in b.s.lanes && AllFit([f], MAX_PAYLOAD)
    ensures var after := Sends(w, f, admit);
      && after.s == b.s.(lanes := after.s.lanes) && 0 in after.s.lanes
      && after.s.lanes[0].down == b.s.lanes[0].down
      && after.s.lanes[0].up.lastSequence == w.s.lanes[0].up.lastSequence + 1 && !after.s.lanes[0].up.active
      && after.loops == Loops.LogLoop(ROOM, a, w.loops, f, admit)
  {
    hide Readable, Validate, Apply, Reserved, ValidateFrame, ReserveFrame, ApplyFrame, SessionSteps.Step, EncodeAll;
    hide Loops.LogLoop, UpBegins, Loops.Applying, AllFit, AllClientShaped, ValidClientShape, Reserve, Crashes;
    OneFrame(ROOM, w.s, f, admit, a, b);
    OneFrameShape(f);
    var t := WholeBatch(ROOM, w.s, w.s.lanes[0].up.lastSequence, [f], [admit], a, b);
    LogsOne(a, w.loops, f, admit);
  }

  lemma LogsOne(a: Acc, loops: map<int, Loops.Loop>, f: Frame, admit: bool)
    requires GoodConfig(ROOM)
    ensures Loops.LogLoops(ROOM, a, loops, [f], [admit]) == Loops.LogLoop(ROOM, a, loops, f, admit)
  {
    hide Loops.LogLoop, ApplyFrame;
    assert [f][1..] == [] && [admit][1..] == [];
    if ApplyFrame(ROOM, a, f, admit).Going? {
      var b, next := ApplyFrame(ROOM, a, f, admit).acc, Loops.LogLoop(ROOM, a, loops, f, admit);
      assert Loops.LogLoops(ROOM, b, next, [], []) == next;
    }
  }

  /** The fields this run turns on; the pool holds nothing but the session. */
  ghost predicate At(w: Loops.World, sequence: nat, streams: map<nat, Stream>, tombs: seq<nat>, pending: Charge,
                     backends: int,
                     loops: map<int, Loops.Loop>)
  {
    && !w.s.closed && !w.s.panicked && w.s.streams == streams && w.s.tombs == tombs
      && w.s.pending == w.s.pool == pending
    && w.s.nextBackend == backends && w.loops == loops
    && 0 in w.s.lanes && !w.s.lanes[0].up.active && w.s.lanes[0].up.lastSequence == sequence
  }

  lemma SendsOpen(w: Loops.World, sequence: nat, streams: map<nat, Stream>, tombs: seq<nat>, pending: Charge, n: int,
                  loops: map<int, Loops.Loop>, id: nat)
    requires At(w, sequence, streams, tombs, pending, n, loops) && GoodConfig(ROOM) && AllFit([Open(id)], MAX_PAYLOAD)
    requires 0 < id <= MAX_STREAM_ID && id !in streams && id !in tombs && |streams| < 2
    ensures At(Sends(w, Open(id), true), sequence + 1, streams[id := NewStream(n)], tombs, pending, n + 1,
               loops[n := Loops.NewLoop(id)])
    ensures 0 in Sends(w, Open(id), true).s.lanes
    ensures Sends(w, Open(id), true).s.lanes[0].down == w.s.lanes[0].down
  {
    hide ControlReserve, Sends;
    var a := Acc(w.s, NOTHING, [], []);
    var b := ApplyFrame(ROOM, a, Open(id), true).acc;
    SendsOne(w, Open(id), true, a, b);
  }

  lemma SendsData(w: Loops.World, sequence: nat, streams: map<nat, Stream>, tombs: seq<nat>, pending: Charge, n: int,
                  loops: map<int, Loops.Loop>, id: nat, octet: Byte)
    requires At(w, sequence, streams, tombs, pending, n, loops) && GoodConfig(ROOM)
      && AllFit([Data(id, octet)], MAX_PAYLOAD)
    requires 0 < id <= MAX_STREAM_ID && id in streams && id !in tombs
    requires streams[id].writes == [] && streams[id].receiveWindow >= 1 && streams[id].backend in loops
    requires loops[streams[id].backend].id == id && !loops[streams[id].backend].stand.Waiting?
    requires NOTHING.Within(pending) && pending.Within(Charge(1000, 1))
    ensures var b := streams[id].backend;
      At(Sends(w, Data(id, octet), true), sequence + 1, streams[id := AcceptData(streams[id], [octet])], tombs,
         pending.Plus(Charge(257, 1)), n, loops[b := loops[b].(accepted := loops[b].accepted + [octet])])
    ensures 0 in Sends(w, Data(id, octet), true).s.lanes
    ensures Sends(w, Data(id, octet), true).s.lanes[0].down == w.s.lanes[0].down
  {
    hide ControlReserve, Sends, AcceptData, Reserve;
    WideReserve(w.s, Charge(257, 1), Uplink);
    var f := Data(id, octet);
    var a := Acc(Reserve(ROOM, w.s, Charge(257, 1), Uplink).value, Charge(257, 1), [], []);
    var b := ApplyFrame(ROOM, a, f, true).acc;
    assert ReserveFrame(w.s.streams.Keys, f) == Charge(257, 1);
    assert AppendCharge(streams[id], f.payload) == Charge(257, 1);
    SendsOne(w, f, true, a, b);
  }

  lemma SendsClose(w: Loops.World, sequence: nat, streams: map<nat, Stream>, tombs: seq<nat>, pending: Charge, n: int,
                   loops: map<int, Loops.Loop>, id: nat)
    requires At(w, sequence, streams, tombs, pending, n, loops) && GoodConfig(ROOM) && AllFit([Close(id)], MAX_PAYLOAD)
    requires 0 < id <= MAX_STREAM_ID && id in streams && id !in tombs
    requires NOTHING.Within(WriteCharge(streams[id])) && WriteCharge(streams[id]).Within(pending)
    ensures At(Sends(w, Close(id), true), sequence + 1, streams - {id}, Remember(tombs, id, 1),
               pending.Minus(WriteCharge(streams[id])),
               n, loops)
    ensures 0 in Sends(w, Close(id), true).s.lanes
    ensures Sends(w, Close(id), true).s.lanes[0].down == w.s.lanes[0].down
  {
    hide ControlReserve, Sends, Remember, Evicted;
    var a := Acc(w.s, NOTHING, [], []);
    var b := ApplyFrame(ROOM, a, Close(id), true).acc;
    SendsOne(w, Close(id), true, a, b);
  }

  lemma LoopTakesAt(w: Loops.World, sequence: nat, streams: map<nat, Stream>, tombs: seq<nat>, pending: Charge, n: int,
                    loops: map<int, Loops.Loop>, b: int)
    requires At(w, sequence, streams, tombs, pending, n, loops) && GoodConfig(ROOM)
    requires b in loops && loops[b].phase.Idle? && loops[b].stand.Looking?
    requires loops[b].id in streams && streams[loops[b].id].writes != []
    ensures var w', id := Loops.Step(ROOM, w, Loops.LoopTakes(b)), loops[b].id;
      At(w', sequence, streams[id := PopWrite(streams[id])], tombs, pending, n,
         loops[b := loops[b].(phase := Writing(streams[id].writes[0]))])
      && w'.s.lanes == w.s.lanes
  {
    RenewsOne(loops, b, loops[b].(phase := Writing(streams[loops[b].id].writes[0])));
  }

  lemma RenewsOne(loops: map<int, Loops.Loop>, b: int, loop: Loops.Loop)
    requires b in loops
    ensures Loops.Renewed(loops, Loops.OfId(loops, loops[b].id)[b := loop]) == loops[b := loop]
  {
  }

  /** A step of one backend that makes no call. */
  lemma LoopDialsAt(w: Loops.World, sequence: nat, streams: map<nat, Stream>, tombs: seq<nat>, pending: Charge, n: int,
                    loops: map<int, Loops.Loop>, b: int)
    requires At(w, sequence, streams, tombs, pending, n, loops) && GoodConfig(ROOM)
    requires b in loops && loops[b].stand.Dialing? && loops[b].reader.connected
    ensures var w' := Loops.Step(ROOM, w, Loops.LoopDials(b));
      At(w', sequence, streams, tombs, pending, n, loops[b := loops[b].(stand := Loops.Looking)]) && w'.s == w.s
  {
    RenewsOne(loops, b, loops[b].(stand := Loops.Looking));
  }

  /** The first WINDOW frame of an otherwise empty queue. */
  lemma QueuesWindow(s: State, id: nat)
    requires GoodConfig(ROOM) && 0 in s.lanes && s.lanes[0].down.queue == [] && s.pool == s.pending
    requires NOTHING.Within(s.pending) && s.pending.Within(Charge(1000, 2))
    ensures var r := QueueFrame(ROOM, s, Frame(WINDOW, id, WindowPayload(1)));
      && r.Some? && r.value == s.(pending := r.value.pending, pool := r.value.pool, lanes := r.value.lanes)
      && r.value.pending == r.value.pool == s.pending.Plus(Charge(268, 1))
      && 0 in r.value.lanes && r.value.lanes[0].up == s.lanes[0].up
  {
    hide ControlReserve, Reserve;
    var f := Frame(WINDOW, id, WindowPayload(1));
    assert Place([], f, 65536) == Append;
    assert PushCharge([], f, 65536) == Charge(268, 1);
    WideReserve(s, Charge(268, 1), Control);
  }

  /** One byte of a stream found under the loop's id is reported; its WINDOW frame is the first queued. */
  lemma LoopWritesAt(w: Loops.World, sequence: nat, streams: map<nat, Stream>, tombs: seq<nat>, pending: Charge, n: int,
                     loops: map<int, Loops.Loop>, b: int)
    requires At(w, sequence, streams, tombs, pending, n, loops) && GoodConfig(ROOM)
    requires w.s.lanes[0].down.queue == [] && Charge(1, 0).Within(pending) && pending.Within(Charge(1000, 2))
    requires b in loops && loops[b].phase.Writing? && |loops[b].phase.left| == 1 && loops[b].id in streams
    requires Drain(streams[loops[b].id], 1).Some? && loops[b].id <= MAX_STREAM_ID
    ensures var w', id := Loops.Step(ROOM, w, Loops.LoopWrites(b, 1)), loops[b].id;
      At(w', sequence, streams[id := Drain(streams[id], 1).value], tombs, Charge(pending.cost + 267, pending.items + 1),
         n, loops[b := loops[b].(phase := Writing([]), written := loops[b].written + loops[b].phase.left)])
  {
    hide QueueFrame, Drain, ControlReserve;
    var id, st := loops[b].id, Drain(streams[loops[b].id], 1).value;
    var drained := Release(w.s, Charge(1, 0)).(streams := streams[id := st]);
    QueuesWindow(drained, id);
    RenewsOne(loops, b, loops[b].(phase := Writing([]), written := loops[b].written + loops[b].phase.left));
    assert loops[b].phase.left[..1] == loops[b].phase.left && loops[b].phase.left[1..] == [];
  }

  lemma LoopFinishesAt(w: Loops.World, sequence: nat, streams: map<nat, Stream>, tombs: seq<nat>, pending: Charge,
                       n: int, loops: map<int, Loops.Loop>, b: int)
    requires At(w, sequence, streams, tombs, pending, n, loops) && GoodConfig(ROOM) && Charge(256, 1).Within(pending)
    requires b in loops && loops[b].phase == Writing([]) && loops[b].id in streams
    requires FinishWrite(streams[loops[b].id]).Some?
    ensures var w', id := Loops.Step(ROOM, w, Loops.LoopFinishes(b)), loops[b].id;
      At(w', sequence, streams[id := FinishWrite(streams[id]).value], tombs, pending.Minus(Charge(256, 1)), n,
         loops[b := loops[b].(phase := Idle)])
  {
    RenewsOne(loops, b, loops[b].(phase := Idle));
    hide FinishWrite, ControlReserve;
  }

  /** A new stream's first byte, through buffer, report and completion. */
  lemma OneByteStream(backend: int, octet: Byte)
    ensures var st := AcceptData(NewStream(backend), [octet]);
      && st.backend == backend && st.writes == [[octet]] && WriteCharge(st) == Charge(257, 1)
      && var drained := Drain(PopWrite(st), 1);
         && Drain(st, 1).Some? && Drain(st, 1).value.writes == [[octet]] && Drain(st, 1).value.backend == backend
         && FinishWrite(Drain(st, 1).value).Some?
         && var left := FinishWrite(Drain(st, 1).value).value;
            && left.backend == backend && left.writes == [[octet]]
            && PopWrite(left).writes == [] && PopWrite(left).receiveWindow >= 1 && PopWrite(left).backend == backend
            && AcceptData(PopWrite(left), [8]).writes == [[8]]
  {
  }

  /** A backend that has been dialed and has read nothing. */
  function Backend(id: nat, phase: Phase, accepted: Bytes, written: Bytes): Loops.Loop {
    Loops.NewLoop(id).(phase := phase, accepted := accepted, written := written, stand := Loops.Looking)
  }

  function BeginAndFinish(sequence: nat, f: Frame): seq<Loops.Event>
    requires AllFit([f], MAX_PAYLOAD)
  {
    [Loops.Session(SessionSteps.Begin(sequence, EncodeAll([f]))),
     Loops.Session(Finish(sequence, EncodeAll([f]), [true]))]
  }

  lemma RunSends(events: seq<Loops.Event>, sequence: nat, f: Frame)
    requires GoodConfig(ROOM) && AllFit([f], MAX_PAYLOAD)
    requires var w := Loops.Run(ROOM, NOTHING, events);
      0 in w.s.lanes && w.s.lanes[0].up.lastSequence + 1 == sequence
    ensures Loops.Run(ROOM, NOTHING, events + BeginAndFinish(sequence, f))
         == Sends(Loops.Run(ROOM, NOTHING, events), f, true)
  {
    hide Loops.Step, EncodeAll;
    var all := events + BeginAndFinish(sequence, f);
    assert all[..|all| - 1][..|all| - 2] == events;
  }

  lemma RunLoops(events: seq<Loops.Event>, e: Loops.Event)
    requires GoodConfig(ROOM)
    ensures Loops.Run(ROOM, NOTHING, events + [e]) == Loops.Step(ROOM, Loops.Run(ROOM, NOTHING, events), e)
  {
    hide Loops.Step;
    assert (events + [e])[..|events|] == events;
  }

  lemma SmallFrames(id: nat, octet: Byte)
    requires id <= MAX_STREAM_ID
    ensures AllFit([Open(id)], MAX_PAYLOAD) && AllFit([Close(id)], MAX_PAYLOAD)
      && AllFit([Data(id, octet)], MAX_PAYLOAD)
  {
  }

  /** Streams 1 and 2 are opened. */
  lemma UntilOpened() returns (events: seq<Loops.Event>)
    ensures GoodConfig(ROOM)
    ensures var w := Loops.Run(ROOM, NOTHING, events);
      && At(w, 2, map[1 := NewStream(0), 2 := NewStream(1)], [], NOTHING, 2,
            map[0 := Loops.NewLoop(1), 1 := Loops.NewLoop(2)])
      && w.s.lanes[0].down.queue == []
  {
    hide Loops.Step, Sends, NewStream, Loops.Run;
    WideIsGood();
    SmallFrames(1, 0);
    SmallFrames(2, 0);
    var none: map<nat, Stream>, idle: map<int, Loops.Loop> := map[], map[];
    var start := Loops.Run(ROOM, NOTHING, []);
    StartsAt(start);
    SendsOpen(start, 0, none, [], NOTHING, 0, idle, 1);
    RunSends([], 1, Open(1));
    var first := [] + BeginAndFinish(1, Open(1));
    SendsOpen(Loops.Run(ROOM, NOTHING, first), 1, none[1 := NewStream(0)], [], NOTHING, 1,
              idle[0 := Loops.NewLoop(1)], 2);
    RunSends(first, 2, Open(2));
    events := first + BeginAndFinish(2, Open(2));
  }

  /** The backend of stream 1 has a byte in hand. */
  lemma UntilTaken() returns (events: seq<Loops.Event>, st: Stream)
    ensures GoodConfig(ROOM) && WriteCharge(st) == Charge(257, 1)
    ensures var w := Loops.Run(ROOM, NOTHING, events);
      && At(w, 3, map[1 := st, 2 := NewStream(1)], [], Charge(257, 1), 2,
            map[0 := Backend(1, Writing([5]), [5], []), 1 := Loops.NewLoop(2)])
      && w.s.lanes[0].down.queue == []
  {
    hide Loops.Step, Sends, AcceptData, Loops.Run;
    var before := UntilOpened();
    SmallFrames(1, 5);
    OneByteStream(0, 5);
    var streams := map[1 := NewStream(0), 2 := NewStream(1)];
    var undialed := map[0 := Loops.NewLoop(1), 1 := Loops.NewLoop(2)];
    LoopDialsAt(Loops.Run(ROOM, NOTHING, before), 2, streams, [], NOTHING, 2, undialed, 0);
    RunLoops(before, Loops.LoopDials(0));
    var dialed, loops := before + [Loops.LoopDials(0)], undialed[0 := Backend(1, Idle, [], [])];
    SendsData(Loops.Run(ROOM, NOTHING, dialed), 2, streams, [], NOTHING, 2, loops, 1, 5);
    RunSends(dialed, 3, Data(1, 5));
    assert loops[0].accepted + [5] == [5];
    var sent := dialed + BeginAndFinish(3, Data(1, 5));
    var full := AcceptData(NewStream(0), [5]);
    LoopTakesAt(Loops.Run(ROOM, NOTHING, sent), 3, streams[1 := full], [], Charge(257, 1), 2,
                loops[0 := Backend(1, Idle, [5], [])], 0);
    RunLoops(sent, Loops.LoopTakes(0));
    events, st := sent + [Loops.LoopTakes(0)], PopWrite(full);
  }

  /** The client closes both streams; the second closure pushes the first id out of the ring. */
  lemma UntilClosed() returns (events: seq<Loops.Event>)
    ensures GoodConfig(ROOM)
    ensures var w := Loops.Run(ROOM, NOTHING, events);
      && At(w, 5, map[], [2], NOTHING, 2,
            map[0 := Backend(1, Writing([5]), [5], []), 1 := Loops.NewLoop(2)])
      && w.s.lanes[0].down.queue == []
  {
    hide Loops.Step, Sends, Loops.Run;
    var before, st := UntilTaken();
    SmallFrames(1, 0);
    SmallFrames(2, 0);
    var w := Loops.Run(ROOM, NOTHING, before);
    var streams := map[1 := st, 2 := NewStream(1)];
    var loops := map[0 := Backend(1, Writing([5]), [5], []), 1 := Loops.NewLoop(2)];
    SendsClose(w, 3, streams, [], Charge(257, 1), 2, loops, 1);
    RunSends(before, 4, Close(1));
    var closed := before + BeginAndFinish(4, Close(1));
    assert streams - {1} == map[2 := NewStream(1)];
    SendsClose(Loops.Run(ROOM, NOTHING, closed), 4, streams - {1}, [1], NOTHING, 2, loops, 2);
    RunSends(closed, 5, Close(2));
    events := closed + BeginAndFinish(5, Close(2));
    assert streams - {1} - {2} == map[];
  }

  /** Id 1 is opened again, and its old backend's byte is reported against the new stream. */
  lemma UntilReported() returns (events: seq<Loops.Event>, st: Stream)
    ensures GoodConfig(ROOM) && st.backend == 2 && st.writes == [[7]] && FinishWrite(st).Some?
    ensures st == Drain(AcceptData(NewStream(2), [7]), 1).value
    ensures At(Loops.Run(ROOM, NOTHING, events), 7, map[1 := st], [2], Charge(524, 2), 3,
               map[0 := Backend(1, Writing([]), [5], [5]), 1 := Loops.NewLoop(2),
                   2 := Backend(1, Idle, [7], [])])
  {
    hide Loops.Step, Sends, Loops.Run, AcceptData, Drain, FinishWrite;
    var before := UntilClosed();
    SmallFrames(1, 7);
    OneByteStream(2, 7);
    var none: map<nat, Stream> := map[];
    var loops := map[0 := Backend(1, Writing([5]), [5], []), 1 := Loops.NewLoop(2)];
    SendsOpen(Loops.Run(ROOM, NOTHING, before), 5, none, [2], NOTHING, 2, loops, 1);
    RunSends(before, 6, Open(1));
    var again := before + BeginAndFinish(6, Open(1));
    LoopDialsAt(Loops.Run(ROOM, NOTHING, again), 6, none[1 := NewStream(2)], [2], NOTHING, 3,
                loops[2 := Loops.NewLoop(1)], 2);
    RunLoops(again, Loops.LoopDials(2));
    var reused, running := again + [Loops.LoopDials(2)], loops[2 := Backend(1, Idle, [], [])];
    SendsData(Loops.Run(ROOM, NOTHING, reused), 6, none[1 := NewStream(2)], [2], NOTHING, 3, running, 1, 7);
    RunSends(reused, 7, Data(1, 7));
    assert running[2].accepted + [7] == [7] && running[0].written + running[0].phase.left == [5];
    var sent := reused + BeginAndFinish(7, Data(1, 7));
    var full := AcceptData(NewStream(2), [7]);
    LoopWritesAt(Loops.Run(ROOM, NOTHING, sent), 7, none[1 := full], [2], Charge(257, 1), 3,
                 running[2 := Backend(1, Idle, [7], [])], 0);
    RunLoops(sent, Loops.LoopWrites(0, 1));
    events, st := sent + [Loops.LoopWrites(0, 1)], Drain(full, 1).value;
  }

  /** The old loop finishes its chunk and takes the new stream's first. */
  lemma UntilStolen() returns (events: seq<Loops.Event>, st: Stream)
    ensures GoodConfig(ROOM) && st.backend == 2 && st.writes == [] && st.receiveWindow >= 1
    ensures AcceptData(st, [8]).writes == [[8]]
    ensures At(Loops.Run(ROOM, NOTHING, events), 7, map[1 := st], [2], Charge(268, 1), 3,
               map[0 := Backend(1, Writing([7]), [5], [5]), 1 := Loops.NewLoop(2),
                   2 := Backend(1, Idle, [7], [])])
  {
    hide Loops.Step, Loops.Run, AcceptData, Drain, FinishWrite;
    var before, drained := UntilReported();
    OneByteStream(2, 7);
    var loops := map[0 := Backend(1, Writing([]), [5], [5]), 1 := Loops.NewLoop(2),
                     2 := Backend(1, Idle, [7], [])];
    LoopFinishesAt(Loops.Run(ROOM, NOTHING, before), 7, map[1 := drained], [2], Charge(524, 2), 3, loops, 0);
    RunLoops(before, Loops.LoopFinishes(0));
    var finished := before + [Loops.LoopFinishes(0)];
    var left := FinishWrite(drained).value;
    LoopTakesAt(Loops.Run(ROOM, NOTHING, finished), 7, map[1 := left], [2], Charge(268, 1), 3,
                loops[0 := Backend(1, Idle, [5], [5])], 0);
    RunLoops(finished, Loops.LoopTakes(0));
    events, st := finished + [Loops.LoopTakes(0)], PopWrite(left);
  }

  /**
   * The loss in full: a ring of one tombstone, an id reused after its eviction, an old write loop that
   * had a byte in hand at the closure. The new backend's stream accepts 7 and then 8; its socket gets 8.
   */
  lemma ReusedIdLosesBytes() returns (events: seq<Loops.Event>)
    ensures GoodConfig(ROOM)
    ensures var loops := Loops.Run(ROOM, NOTHING, events).loops;
      2 in loops && loops[2].id == 1 && loops[2].accepted == [7, 8] && loops[2].written == [8]
  {
    hide Loops.Step, Sends, Loops.Run, AcceptData;
    var before, st := UntilStolen();
    SmallFrames(1, 8);
    var loops := map[0 := Backend(1, Writing([7]), [5], [5]), 1 := Loops.NewLoop(2),
                     2 := Backend(1, Idle, [7], [])];
    SendsData(Loops.Run(ROOM, NOTHING, before), 7, map[1 := st], [2], Charge(268, 1), 3, loops, 1, 8);
    RunSends(before, 8, Data(1, 8));
    assert loops[2].accepted + [8] == [7, 8];
    var sent := before + BeginAndFinish(8, Data(1, 8));
    var full := AcceptData(st, [8]);
    LoopTakesAt(Loops.Run(ROOM, NOTHING, sent), 8, map[1 := full], [2], Charge(525, 2), 3,
                loops[2 := Backend(1, Idle, [7, 8], [])], 2);
    RunLoops(sent, Loops.LoopTakes(2));
    var taken := sent + [Loops.LoopTakes(2)];
    WritesByte(Loops.Run(ROOM, NOTHING, taken), 2);
    RunLoops(taken, Loops.LoopWrites(2, 1));
    events := taken + [Loops.LoopWrites(2, 1)];
  }

  lemma WritesByte(w: Loops.World, b: int)
    requires GoodConfig(ROOM) && b in w.loops && w.loops[b].phase.Writing? && |w.loops[b].phase.left| == 1
    ensures var w' := Loops.Step(ROOM, w, Loops.LoopWrites(b, 1));
      && b in w'.loops && w'.loops[b].id == w.loops[b].id && w'.loops[b].accepted == w.loops[b].accepted
      && w'.loops[b].written == w.loops[b].written + w.loops[b].phase.left
  {
    hide BackendDrained;
    assert w.loops[b].phase.left[..1] == w.loops[b].phase.left;
  }

  // The same with the old backend's read loop.

  lemma LoopReadsAt(w: Loops.World, sequence: nat, streams: map<nat, Stream>, tombs: seq<nat>, pending: Charge, n: int,
                    loops: map<int, Loops.Loop>, b: int, data: Bytes)
    requires At(w, sequence, streams, tombs, pending, n, loops) && GoodConfig(ROOM) && 0 < |data| <= DATA_CHUNK
    requires b in loops && !loops[b].stand.Dialing? && loops[b].reader == Loops.Reader(Loops.Reading, true, [], [])
    ensures var w' := Loops.Step(ROOM, w, Loops.LoopReads(b, data));
      At(w', sequence, streams, tombs, pending, n,
         loops[b := loops[b].(reader := Loops.Reader(Loops.Holding(data), true, data, []))]) && w'.s == w.s
  {
    assert [] + data == data;
    RenewsOne(loops, b, loops[b].(reader := Loops.Reader(Loops.Holding(data), true, data, [])));
  }

  lemma LoopEndsAt(w: Loops.World, sequence: nat, streams: map<nat, Stream>, tombs: seq<nat>, pending: Charge, n: int,
                   loops: map<int, Loops.Loop>, b: int, e: Loops.Event)
    requires At(w, sequence, streams, tombs, pending, n, loops) && GoodConfig(ROOM) && b in loops
    requires loops[b].stand.Looking? && (e == Loops.LoopFails(b) || e == Loops.LoopDisconnects(b))
    ensures var w' := Loops.Step(ROOM, w, e);
      At(w', sequence, streams, tombs, pending, n,
         loops[b := if e.LoopFails? then loops[b].(phase := Stopped)
                    else loops[b].(reader := loops[b].reader.(connected := false))]) && w'.s == w.s
  {
    var ended := if e.LoopFails? then loops[b].(phase := Stopped)
                 else loops[b].(reader := loops[b].reader.(connected := false));
    RenewsOne(loops, b, ended);
  }

  /** The backend of stream 1 has given its read loop a byte; its write loop has returned, its connection is closed. */
  function Held(): Loops.Loop {
    Backend(1, Stopped, [], []).(reader := Loops.Reader(Loops.Holding([9]), false, [9], []))
  }

  lemma UntilHeld() returns (events: seq<Loops.Event>)
    ensures GoodConfig(ROOM)
    ensures var w := Loops.Run(ROOM, NOTHING, events);
      && At(w, 3, map[2 := NewStream(1)], [1], NOTHING, 2, map[0 := Held(), 1 := Loops.NewLoop(2)])
      && w.s.lanes[0].down.queue == []
  {
    hide Loops.Step, Sends, Loops.Run;
    var before := UntilOpened();
    SmallFrames(1, 0);
    NothingBuffered(0);
    var streams := map[1 := NewStream(0), 2 := NewStream(1)];
    var undialed := map[0 := Loops.NewLoop(1), 1 := Loops.NewLoop(2)];
    LoopDialsAt(Loops.Run(ROOM, NOTHING, before), 2, streams, [], NOTHING, 2, undialed, 0);
    RunLoops(before, Loops.LoopDials(0));
    var dialed, loops := before + [Loops.LoopDials(0)], undialed[0 := Backend(1, Idle, [], [])];
    LoopReadsAt(Loops.Run(ROOM, NOTHING, dialed), 2, streams, [], NOTHING, 2, loops, 0, [9]);
    RunLoops(dialed, Loops.LoopReads(0, [9]));
    var read := dialed + [Loops.LoopReads(0, [9])];
    var holding := loops[0 := loops[0].(reader := Loops.Reader(Loops.Holding([9]), true, [9], []))];
    SendsClose(Loops.Run(ROOM, NOTHING, read), 2, streams, [], NOTHING, 2, holding, 1);
    RunSends(read, 3, Close(1));
    var closed := read + BeginAndFinish(3, Close(1));
    assert streams - {1} == map[2 := NewStream(1)] && Remember([], 1, 1) == [1];
    LoopEndsAt(Loops.Run(ROOM, NOTHING, closed), 3, streams - {1}, [1], NOTHING, 2, holding, 0, Loops.LoopFails(0));
    RunLoops(closed, Loops.LoopFails(0));
    var failed := closed + [Loops.LoopFails(0)];
    LoopEndsAt(Loops.Run(ROOM, NOTHING, failed), 3, streams - {1}, [1], NOTHING, 2,
               holding[0 := holding[0].(phase := Stopped)], 0, Loops.LoopDisconnects(0));
    RunLoops(failed, Loops.LoopDisconnects(0));
    events := failed + [Loops.LoopDisconnects(0)];
  }

  /** The first DATA frame of an otherwise empty queue. */
  lemma QueuesData(s: State, id: nat, octet: Byte)
    requires GoodConfig(ROOM) && 0 in s.lanes && s.lanes[0].down.queue == [] && s.pool == s.pending == NOTHING
    ensures QueueFrame(ROOM, s, Frame(DATA, id, [octet])).Some?
  {
    hide ControlReserve, Reserve;
    var f := Frame(DATA, id, [octet]);
    assert Place([], f, 65536) == Append;
    assert PushCharge([], f, 65536) == Charge(265, 1);
    WideReserve(s, Charge(265, 1), Downlink);
  }

  /**
   * The downlink mixed up in full: a ring of one tombstone, an id reused after its eviction, an old read
   * loop with a byte in hand at the closure. The byte is queued as the new stream's DATA, though the new
   * stream's backend has said nothing and the old write loop has long returned.
   */
  lemma ReusedIdMixesStreams() returns (events: seq<Loops.Event>)
    ensures GoodConfig(ROOM)
    ensures var loops := Loops.Run(ROOM, NOTHING, events).loops;
      && 0 in loops && loops[0].id == 1 && loops[0].phase.Stopped?
      && 2 in loops && loops[2].id == 1 && loops[2].reader.sent == [] && loops[2].reader.queued == [9]
  {
    hide Loops.Step, Sends, Loops.Run;
    var before := UntilHeld();
    SmallFrames(1, 0);
    SmallFrames(2, 0);
    NothingBuffered(1);
    var none: map<nat, Stream> := map[];
    var loops := map[0 := Held(), 1 := Loops.NewLoop(2)];
    SendsClose(Loops.Run(ROOM, NOTHING, before), 3, map[2 := NewStream(1)], [1], NOTHING, 2, loops, 2);
    RunSends(before, 4, Close(2));
    var closed := before + BeginAndFinish(4, Close(2));
    assert map[2 := NewStream(1)] - {2} == none && Remember([1], 2, 1) == [2];
    SendsOpen(Loops.Run(ROOM, NOTHING, closed), 4, none, [2], NOTHING, 2, loops, 1);
    RunSends(closed, 5, Open(1));
    var reused := closed + BeginAndFinish(5, Open(1));
    QueuesHeld(Loops.Run(ROOM, NOTHING, reused), loops[2 := Loops.NewLoop(1)]);
    RunLoops(reused, Loops.LoopQueues(0));
    events := reused + [Loops.LoopQueues(0)];
  }

  lemma QueuesHeld(w: Loops.World, loops: map<int, Loops.Loop>)
    requires At(w, 5, map[1 := NewStream(2)], [2], NOTHING, 3, loops) && GoodConfig(ROOM)
    requires w.s.lanes[0].down.queue == []
    requires 0 in loops && loops[0] == Held() && 2 in loops && loops[2] == Loops.NewLoop(1)
    ensures var after := Loops.Step(ROOM, w, Loops.LoopQueues(0)).loops;
      && 0 in after && after[0].id == 1 && after[0].phase.Stopped?
      && 2 in after && after[2].id == 1 && after[2].reader.sent == [] && after[2].reader.queued == [9]
  {
    hide QueueFrame;
    var spent := w.s.(streams := w.s.streams[1 := SpendCredit(NewStream(2), 1)]);
    QueuesData(spent, 1, 9);
    assert BackendData(ROOM, w.s, 1, [9]).1;
    assert [] + [9] == [9];
  }

  lemma StartsAt(w: Loops.World)
    requires GoodConfig(ROOM) && w == Loops.Run(ROOM, NOTHING, [])
    ensures At(w, 0, map[], [], NOTHING, 0, map[]) && w.s.lanes[0].down.queue == []
  {
  }

  // A batch that outlives one of its tombstones.

  /**
   * The crash in full: with stream 1 closed and remembered in a ring of one, stream 2 live, a body that
   * closes stream 2 and carries a late byte for stream 1 dereferences a missing stream.
   */
  lemma CrashIsReached() returns (events: seq<Loops.Event>, body: Bytes)
    ensures GoodConfig(ROOM)
    ensures var s := SessionSteps.Step(ROOM, Loops.Run(ROOM, NOTHING, events).s, SessionSteps.Begin(4, body));
      && UpBegins(Loops.Run(ROOM, NOTHING, events).s, 4, body).1.Parsing?
      && SessionSteps.Crashes(ROOM, s, Finish(4, body, [true, true]))
  {
    hide Loops.Step, Sends, Loops.Run, NewStream, ControlReserve, SessionSteps.Step, Crashes, EncodeAll;
    var before := UntilOpened();
    SmallFrames(1, 0);
    var w := Loops.Run(ROOM, NOTHING, before);
    var streams := map[1 := NewStream(0), 2 := NewStream(1)];
    var loops := map[0 := Loops.NewLoop(1), 1 := Loops.NewLoop(2)];
    NothingBuffered(0);
    SendsClose(w, 2, streams, [], NOTHING, 2, loops, 1);
    RunSends(before, 3, Close(1));
    events := before + BeginAndFinish(3, Close(1));
    assert streams - {1} == map[2 := NewStream(1)];
    CloseThenLate();
    body := EncodeAll([Close(2), Data(1, 5)]);
    LateByteCrashes(Loops.Run(ROOM, NOTHING, events).s);
  }

  lemma NothingBuffered(backend: int)
    ensures WriteCharge(NewStream(backend)) == NOTHING
  {
  }

  lemma CloseThenLate()
    ensures AllFit([Close(2), Data(1, 5)], 65536) && AllFit([Close(2), Data(1, 5)], MAX_PAYLOAD)
    ensures AllClientShaped([Close(2), Data(1, 5)])
  {
  }

  lemma LateByteIsMissed(s: State)
    requires GoodConfig(ROOM) && s.streams == map[2 := NewStream(1)] && s.tombs == [1]
    ensures var fs := [Close(2), Data(1, 5)];
      && Validate(TrialOf(s), fs).Some? && Reserved(ROOM, s, fs) == Some(Acc(s, NOTHING, [], []))
      && Apply(ROOM, Acc(s, NOTHING, [], []), fs, [true, true]) == NilStream
  {
    hide *;
    var fs, admits, a := [Close(2), Data(1, 5)], [true, true], Acc(s, NOTHING, [], []);
    LateByteFacts(s);
    EvictionSteps(ROOM, a, fs[0], fs[1], admits);
    TwoFrames(ROOM, TrialOf(s), a, s.streams.Keys, fs, admits);
    PlusNothing(NOTHING);
    ReservedIs(ROOM, s, fs, a);
  }

  lemma LateByteFacts(s: State)
    requires s.streams == map[2 := NewStream(1)] && s.tombs == [1]
    ensures ROOM.limits.maxClosedStreamIDs == 1 && WellFormed(s.tombs, 1)
    ensures Close(2) == Frame(CLOSE, 2, []) && Data(1, 5) == Frame(DATA, 1, [5])
  {
  }

  lemma LateByteCrashes(s: State)
    requires GoodConfig(ROOM) && !s.closed && s.streams == map[2 := NewStream(1)] && s.tombs == [1]
    requires 0 in s.lanes && s.lanes[0].up.lastSequence == 3 && !s.lanes[0].up.active
    requires AllFit([Close(2), Data(1, 5)], MAX_PAYLOAD)
    ensures var body := EncodeAll([Close(2), Data(1, 5)]);
      && UpBegins(s, 4, body).1.Parsing?
      && SessionSteps.Crashes(ROOM, SessionSteps.Step(ROOM, s, SessionSteps.Begin(4, body)),
                              Finish(4, body, [true, true]))
  {
    hide Readable, Validate, Apply, Reserved, EncodeAll, NewStream, TrialOf;
    CloseThenLate();
    ReadsBack(ROOM, [Close(2), Data(1, 5)]);
    LateByteIsMissed(s);
    var before := SessionSteps.Step(ROOM, s, SessionSteps.Begin(4, EncodeAll([Close(2), Data(1, 5)])));
    assert AfterParse(before) == s by {
      assert before.lanes[0 := s.lanes[0]] == s.lanes;
    }
  }

  // Lanes without a stream.

  const LANES := Config(TINY, TINY, HttpsLanes)

  /** The pool as other sessions may fill it. */
  const FULL_POOL := Charge(1048576, 24)

  function OpenWithByte(id: nat): (fs: seq<Frame>)
    ensures fs == [Open(id)] + [Data(id, 7)]
  {
    [Open(id), Data(id, 7)]
  }

  /** One more lane, and nothing else, from a batch that finds the pool full. */
  lemma RefusedOpenLeavesLane(s: State, id: nat)
    requires GoodConfig(LANES) && 0 < id <= MAX_STREAM_ID && !s.closed && id !in s.lanes && s.streams == map[]
    requires s.tombs == [] && s.pool == FULL_POOL && s.pending == NOTHING && AllFit(OpenWithByte(id), MAX_PAYLOAD)
    ensures UpOnLane(LANES, s, id, 1, EncodeAll(OpenWithByte(id)), [true, true]) == (AddLane(s, id), Backpressure)
  {
    hide Readable, Validate, Apply, Reservation, EncodeAll, ControlReserve;
    var fs := OpenWithByte(id);
    assert AllClientShaped(fs);
    assert AllFit(fs, 65536);
    ReadsBack(CFG, fs);
    SameReader(EncodeAll(fs));
    RefusedByPool(AddLane(s, id), id);
  }

  lemma SameReader(body: Bytes)
    ensures Readable(LANES, body) == Readable(CFG, body)
  {
    hide Parsed;
  }

  lemma RefusedByPool(s: State, id: nat)
    requires GoodConfig(LANES) && 0 < id && s.streams == map[] && s.tombs == [] && s.pool == FULL_POOL
    ensures Validate(TrialOf(s), OpenWithByte(id)).Some? && Reserved(LANES, s, OpenWithByte(id)).None?
  {
    hide ControlReserve, Validate, Reservation, Apply;
    var t, fs, a := TrialOf(s), OpenWithByte(id), Acc(s, NOTHING, [], []);
    var none: seq<Frame>, nobody: seq<bool> := [], [];
    var t1 := ValidateFrame(t, Open(id)).value;
    assert [Data(id, 7)] + none == [Data(id, 7)];
    HeadOfBatch(LANES, t, s.streams.Keys, a, Open(id), [Data(id, 7)], true, [true]);
    HeadOfBatch(LANES, t1, {id}, a, Data(id, 7), none, true, nobody);
    EndOfBatch(LANES, ValidateFrame(t1, Data(id, 7)).value, {id}, a, none, nobody);
    assert LiveAfter(s.streams.Keys, Open(id)) == {id};
  }

  /**
   * Nothing bounds the lanes of an HTTPS session: while the pool is full, every new stream's first
   * batch leaves a lane with neither a stream nor a tombstone.
   */
  lemma {:induction false} LanesGrow(n: nat) returns (events: seq<SessionSteps.Event>)
    requires n <= MAX_STREAM_ID
    ensures GoodConfig(LANES)
    ensures var s := SessionSteps.Run(LANES, NOTHING, events);
      && |s.lanes| == n + 1 && (forall k | k in s.lanes :: k <= n) && s.streams == map[] && s.tombs == [] && !s.closed
      && s.pool == FULL_POOL && s.pending == NOTHING
    decreases n
  {
    hide UpOnLane, EncodeAll;
    assert GoodConfig(LANES) by {
      TinyIsGood();
    }
    if n == 0 {
      events := [OthersMovePool(FULL_POOL)];
      assert events[..0] == [];
      assert SessionSteps.Run(LANES, NOTHING, events[..0]) == NewSession(LANES, NOTHING);
    } else {
      var before := LanesGrow(n - 1);
      assert AllFit(OpenWithByte(n), MAX_PAYLOAD);
      var e := UpLane(n, 1, EncodeAll(OpenWithByte(n)), [true, true]);
      events := before + [e];
      assert events[..|events| - 1] == before;
      var s := SessionSteps.Run(LANES, NOTHING, before);
      RefusedOpenLeavesLane(s, n);
      assert AddLane(s, n).lanes.Keys == s.lanes.Keys + {n};
    }
  }
}

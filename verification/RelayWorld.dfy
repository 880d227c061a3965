/**
 * The whole path of a session without lanes: the app and its bridge, the network, the session as it
 * is, and the backend loops. The uplink and downlink protocols run on the session's own carrier.
 */
module RelayWorld {
  import opened Octets
  import opened Outcomes
  import opened Frames
  import opened Limits
  import opened Queue
  import opened Streams
  import opened Poll
  import opened Uplink
  import opened SessionState
  import opened Batch
  import opened BatchLaws
  import opened SessionSteps
  import opened OneCarrier
  import opened Tales
  import UplinkRun
  import DownlinkRun

  /** `frames` are the frames applied so far; `aborted` says an apply stopped halfway. */
  datatype World = World(
    s: State, up: UplinkRun.Net, down: DownlinkRun.Net, tales: map<nat, Tale>, frames: seq<Frame>, aborted: bool)

  function Start(cfg: Config, pool: Charge): World {
    World(NewSession(cfg, pool), UplinkRun.START, DownlinkRun.START, map[], [], false)
  }

  datatype Event =
    | AppSends(data: Bytes)
    | BridgeUp(upEvent: UplinkRun.Event)
    | UpArrives(request: UplinkRun.Request)
    | UpCommits(worker: nat, admits: seq<bool>)
    | BridgeDown(downEvent: DownlinkRun.Event)
    | PollArrives(cursor: nat)
    | PollWakes(poll: PollId, why: Wake)
    | TakeWrite(id: nat)
    | SocketWrites(id: nat, count: nat)
    | WriteFinishes(id: nat)
    | SocketFails(id: nat)
    | ReadData(id: nat, data: Bytes)
    | BackendGone(id: nat, backend: int)
    | Closes
    | OthersMovePool(pool: Charge)

  function DownStep(cfg: Config, n: DownlinkRun.Net, e: DownlinkRun.Event): DownlinkRun.Net
    requires GoodConfig(cfg)
  {
    DownlinkRun.Step(n, e, cfg.limits.carrierBatchBytes, cfg.limits.maxFramePayload)
  }

  /** The relay's half of the downlink hears the frames a step has queued. */
  function Hear(cfg: Config, n: DownlinkRun.Net, fs: seq<Frame>): DownlinkRun.Net
    requires GoodConfig(cfg)
  {
    if fs == [] then n else DownStep(cfg, Hear(cfg, n, fs[..|fs| - 1]), DownlinkRun.RelayQueues(fs[|fs| - 1]))
  }

  function SessionOver(w: World, cfg: Config): World
    requires GoodConfig(cfg)
  {
    w.(up := UplinkRun.Step(w.up, UplinkRun.SessionCloses), down := DownStep(cfg, w.down, DownlinkRun.SessionCloses))
  }

  function VerdictOf(a: UpAnswer): UplinkRun.Verdict {
    match a
    case Acked => UplinkRun.Applied
    case Backpressure => UplinkRun.Verdict.Backpressure
    case Aborted => UplinkRun.Verdict.Aborted
    case _ => UplinkRun.Invalid
  }

  function Commits(cfg: Config, w: World, worker: nat, admits: seq<bool>): World
    requires GoodConfig(cfg)
  {
    if worker !in w.up.workers then w
    else
      var r := w.up.workers[worker];
      var (s', answer) := UpFinishes(cfg, w.s, r.sequence, r.body, admits);
      var w1 := w.(s := s', up := UplinkRun.Finish(w.up, worker, VerdictOf(answer)));
      if !(answer.Acked? || answer.Aborted?) then w1
      else
        var frames := Readable(cfg, r.body);
        if frames.None? || |admits| != |frames.value| || Reserved(cfg, AfterParse(w.s), frames.value).None? then w1
        else
          var a := Reserved(cfg, AfterParse(w.s), frames.value).value;
          w1.(down := Hear(cfg, w.down, Refusals(cfg, a, frames.value, admits)),
              tales := Log(cfg, a, w.tales, frames.value, admits),
              frames := w.frames + frames.value[..Reached(cfg, a, frames.value, admits)],
              aborted := w.aborted || answer.Aborted?)
  }

  function SetTale(w: World, id: nat, tale: Tale): World {
    w.(tales := w.tales[id := tale])
  }

  function Step(cfg: Config, app: seq<Frame>, w: World, e: Event): World
    requires GoodConfig(cfg) && AllFit(app, MAX_PAYLOAD)
  {
    match e
    case AppSends(data) =>
      if w.up.source + data <= EncodeAll(app) then w.(up := UplinkRun.Step(w.up, UplinkRun.AppQueues(data))) else w
    case BridgeUp(e) =>
      if e.BridgePacks? || e.BridgeSends? || e.BridgeReceives? then w.(up := UplinkRun.Step(w.up, e)) else w
    case UpArrives(r) =>
      if r !in w.up.sent then w
      else w.(s := UpBegins(w.s, r.sequence, r.body).0, up := UplinkRun.Arrive(w.up, r))
    case UpCommits(worker, admits) => Commits(cfg, w, worker, admits)
    case BridgeDown(e) =>
      if e.BridgeSends? || e.BridgeReceives? then w.(down := DownStep(cfg, w.down, e)) else w
    case PollArrives(cursor) =>
      if cursor !in w.down.requests then w
      else
        w.(s := SessionSteps.PollArrives(cfg, w.s, 0, PollId(w.down.nextToken, cursor)).0,
           down := DownStep(cfg, w.down, DownlinkRun.RequestArrives(cursor)))
    case PollWakes(poll, why) =>
      if poll !in w.down.polls || (why.DisplacedByNewer? && w.down.relay.waiter == Some(poll)) || 0 !in w.s.lanes then w
      else
        w.(s := SessionSteps.PollWakes(cfg, w.s, 0, w.s.lanes[0].birth, poll, why).0,
           down := DownStep(cfg, w.down, DownlinkRun.PollWakes(poll, why)))
    case TakeWrite(id) =>
      if !Of(w.tales, id).phase.Idle? then w
      else
        SetTale(w, id, Of(w.tales, id).(phase := Take(CellOf(w.s, w.tales, id), NextWrite).phase))
        .(s := WriteTaken(w.s, id))
    case SocketWrites(id, count) =>
      if !Of(w.tales, id).phase.Writing? || !(0 < count <= |Of(w.tales, id).phase.left|) then w
      else
        var (s', ok) := BackendDrained(cfg, w.s, id, count);
        var cell := Take(CellOf(w.s, w.tales, id), Streams.SocketWrites(count, ok));
        SetTale(w, id, Of(w.tales, id).(phase := cell.phase, written := cell.written))
        .(s := s', down := if ok then Hear(cfg, w.down, [Frame(WINDOW, id, WindowPayload(count % TWO_32))]) else w.down)
    case WriteFinishes(id) =>
      if Of(w.tales, id).phase != Writing([]) then w
      else
        SetTale(w, id, Of(w.tales, id).(phase := Take(CellOf(w.s, w.tales, id), Streams.WriteFinishes).phase))
        .(s := BackendWriteFinished(w.s, id).0)
    case SocketFails(id) => SetTale(w, id, Of(w.tales, id).(phase := Streams.Stopped))
    case ReadData(id, data) =>
      if !Of(w.tales, id).reading || data == [] || |data| > DATA_CHUNK then w
      else
        var (s', ok) := BackendData(cfg, w.s, id, data);
        var tale := Of(w.tales, id);
        SetTale(w, id, AfterRead(tale, data, ok))
        .(s := s', down := if ok then Hear(cfg, w.down, [Frame(DATA, id, data)]) else w.down)
    case BackendGone(id, backend) =>
      var w1 := w.(s := BackendClosed(cfg, w.s, id, backend));
      if w1.s.closed && !w.s.closed then SessionOver(w1, cfg)
      else if id in w.s.streams && id !in w1.s.streams then w1.(down := Hear(cfg, w.down, [Frame(CLOSE, id, [])]))
      else w1
    case Closes => SessionOver(w.(s := CloseSession(w.s)), cfg)
    case OthersMovePool(pool) => if w.s.pending.Within(pool) then w.(s := w.s.(pool := pool)) else w
  }

  // The invariant.

  /** The protocols' relay halves are the session's own carrier. */
  ghost predicate Coupled(cfg: Config, w: World) {
    && !cfg.UsesLanes() && Inv(cfg, w.s, NOTHING)
    && 0 in w.s.lanes && w.s.lanes[0].up == w.up.up && w.s.lanes[0].down == w.down.relay
    && w.up.closed == w.s.closed && w.down.closed == w.s.closed
  }

  /** What has been applied is what the bridge sent, and that is what the app sent. */
  ghost predicate Upstream(app: seq<Frame>, w: World) {
    && AllFit(app, MAX_PAYLOAD) && AllFit(w.frames, MAX_PAYLOAD)
    && Flatten(w.up.applied) <= EncodeAll(w.frames) <= w.up.source <= EncodeAll(app)
    && (!w.aborted ==> EncodeAll(w.frames) == Flatten(w.up.applied))
  }

  /** No apply has followed one that stopped halfway. */
  ghost predicate HaltsOnce(w: World) {
    && UplinkRun.HaltsLast(w.up.effects)
    && (!w.aborted ==> forall i | 0 <= i < |w.up.effects| :: w.up.effects[i].whole)
  }

  /** The bytes of a stream among the items the client sees. */
  function PayloadOf(items: seq<Item>, id: nat): Bytes {
    if items == [] then []
    else
      var last := items[|items| - 1];
      PayloadOf(items[..|items| - 1], id) + (if last.Payload? && last.id == id then [last.octet] else [])
  }

  ghost predicate Downstream(w: World) {
    forall id: nat :: PayloadOf(Expand(w.down.pushed), id) == Of(w.tales, id).queued
  }

  ghost predicate Sound(cfg: Config, app: seq<Frame>, w: World) {
    && Coupled(cfg, w)
    && UplinkRun.Sound(w.up) && DownlinkRun.Sound(w.down)
    && AllTold(w.s, w.tales, w.frames) && Upstream(app, w) && Downstream(w) && HaltsOnce(w)
  }

  lemma {:induction false} PayloadOfAppend(a: seq<Item>, b: seq<Item>, id: nat)
    ensures PayloadOf(a + b, id) == PayloadOf(a, id) + PayloadOf(b, id)
  {
    if |b| == 0 {
      assert a + b == a;
      assert PayloadOf(a, id) + [] == PayloadOf(a, id);
    } else {
      var init := b[..|b| - 1];
      PayloadOfAppend(a, init, id);
      assert (a + b)[..|a + b| - 1] == a + init;
      var last := if b[|b| - 1].Payload? && b[|b| - 1].id == id then [b[|b| - 1].octet] else [];
      assert (PayloadOf(a, id) + PayloadOf(init, id)) + last == PayloadOf(a, id) + (PayloadOf(init, id) + last);
    }
  }

  lemma {:induction false} PayloadOfTagged(k: nat, b: Bytes, id: nat)
    ensures PayloadOf(Tagged(k, b), id) == if k == id then b else []
  {
    if |b| > 0 {
      PayloadOfTagged(k, b[..|b| - 1], id);
      assert Tagged(k, b)[..|b| - 1] == Tagged(k, b[..|b| - 1]);
    }
  }

  lemma PayloadOfFrame(f: Frame, id: nat)
    ensures PayloadOf(Items(f), id) == if f.kind == DATA && f.id == id then f.payload else []
  {
    if f.kind == DATA {
      PayloadOfTagged(f.id, f.payload, id);
    }
  }

  /** Frames that are not DATA of a stream add nothing to its bytes. */
  lemma PushedPayload(pushed: seq<Frame>, f: Frame, id: nat)
    ensures PayloadOf(Expand(pushed + [f]), id)
         == PayloadOf(Expand(pushed), id) + (if f.kind == DATA && f.id == id then f.payload else [])
  {
    hide Expand, PayloadOf, Items;
    AppendRefines(pushed, f, id);
    PayloadOfAppend(Expand(pushed), Items(f), id);
    PayloadOfFrame(f, id);
  }

  predicate NoData(fs: seq<Frame>) {
    forall i | 0 <= i < |fs| :: fs[i].kind != DATA
  }

  lemma {:induction false} PushedQuietly(pushed: seq<Frame>, fs: seq<Frame>, id: nat)
    requires NoData(fs)
    ensures PayloadOf(Expand(pushed + fs), id) == PayloadOf(Expand(pushed), id)
  {
    hide Expand, PayloadOf;
    if |fs| == 0 {
      assert pushed + fs == pushed;
    } else {
      var init, last := fs[..|fs| - 1], fs[|fs| - 1];
      PushedQuietly(pushed, init, id);
      PushedPayload(pushed + init, last, id);
      assert pushed + fs == (pushed + init) + [last];
      assert PayloadOf(Expand(pushed), id) + [] == PayloadOf(Expand(pushed), id);
    }
  }

  // The relay queues a run of frames.

  lemma {:induction false} HearIs(cfg: Config, n: DownlinkRun.Net, fs: seq<Frame>)
    requires GoodConfig(cfg) && !n.closed
    ensures Hear(cfg, n, fs) ==
      n.(relay := n.relay.(queue := PushAll(n.relay.queue, fs, cfg.limits.maxFramePayload)), pushed := n.pushed + fs)
  {
    hide Push;
    if |fs| == 0 {
      assert n.pushed + fs == n.pushed;
    } else {
      HearIs(cfg, n, fs[..|fs| - 1]);
      assert (n.pushed + fs[..|fs| - 1]) + [fs[|fs| - 1]] == n.pushed + fs;
    }
  }

  lemma {:induction false} HearSound(cfg: Config, n: DownlinkRun.Net, fs: seq<Frame>)
    requires GoodConfig(cfg) && DownlinkRun.Sound(n)
    ensures DownlinkRun.Sound(Hear(cfg, n, fs))
  {
    hide DownlinkRun.Sound, DownlinkRun.Step;
    if |fs| > 0 {
      HearSound(cfg, n, fs[..|fs| - 1]);
      DownlinkRun.StepSound(Hear(cfg, n, fs[..|fs| - 1]), DownlinkRun.RelayQueues(fs[|fs| - 1]),
                            cfg.limits.carrierBatchBytes, cfg.limits.maxFramePayload);
    }
  }

  /** A session step that queues `fs` and leaves the rest of the carrier alone. */
  lemma QueuesCoupled(cfg: Config, w: World, s': State, fs: seq<Frame>)
    requires Coupled(cfg, w) && Inv(cfg, s', NOTHING) && Queued(cfg, 0, w.s, s', fs)
    requires w.s.closed ==> |fs| == 0
    ensures Coupled(cfg, w.(s := s', down := Hear(cfg, w.down, fs)))
  {
    hide Inv, PushAll, DownlinkRun.Step;
    PanicOff(cfg, s', NOTHING);
    if !w.s.closed {
      HearIs(cfg, w.down, fs);
    } else {
      NothingPushed(w.down.relay.queue, fs, cfg.limits.maxFramePayload);
    }
  }

  lemma NothingPushed(q: seq<Frame>, none: seq<Frame>, maxPayload: nat)
    requires |none| == 0
    ensures PushAll(q, none, maxPayload) == q
  {
    hide Push;
  }

  /** ... and DATA of stream `id` only, if any. */
  lemma QueuesSound(cfg: Config, app: seq<Frame>, w: World, w': World, fs: seq<Frame>)
    requires Sound(cfg, app, w) && Inv(cfg, w'.s, NOTHING) && Queued(cfg, 0, w.s, w'.s, fs)
    requires w.s.closed ==> |fs| == 0
    requires w' == w.(s := w'.s, tales := w'.tales, down := Hear(cfg, w.down, fs))
    requires AllTold(w'.s, w'.tales, w.frames)
    requires forall id: nat :: PayloadOf(Expand(w.down.pushed + fs), id) == Of(w'.tales, id).queued
    ensures Sound(cfg, app, w')
  {
    hide Inv, AllTold, UplinkRun.Sound, DownlinkRun.Sound, Expand, PayloadOf, PushAll, Queued, EncodeAll, Flatten;
    hide DownlinkRun.Step;
    PanicOff(cfg, w'.s, NOTHING);
    QueuesCoupled(cfg, w, w'.s, fs);
    HearSound(cfg, w.down, fs);
    if w.s.closed {
      assert w.down.pushed + fs == w.down.pushed;
    } else {
      HearIs(cfg, w.down, fs);
    }
  }

  // Steps of the two protocols.

  /** A step of the uplink protocol, and at most the carrier's uplink half of the session. */
  lemma UpSound(cfg: Config, app: seq<Frame>, w: World, s': State, up': UplinkRun.Net)
    requires Sound(cfg, app, w) && Inv(cfg, s', NOTHING) && UplinkRun.Sound(up')
    requires s'.streams == w.s.streams && s'.tombs == w.s.tombs && s'.closed == w.s.closed == up'.closed
    requires 0 in s'.lanes && s'.lanes[0].down == w.s.lanes[0].down && s'.lanes[0].up == up'.up
    requires w.up.source <= up'.source <= EncodeAll(app) && up'.applied == w.up.applied
    requires up'.effects == w.up.effects
    ensures Sound(cfg, app, w.(s := s', up := up'))
  {
    hide Inv, AllTold, UplinkRun.Sound, DownlinkRun.Sound, EncodeAll, Flatten, Downstream;
    SameTold(w.s, s', w.tales, w.frames);
    SameDownstream(w, w.(s := s', up := up'));
  }

  lemma SameDownstream(w: World, w': World)
    requires Downstream(w) && w'.down.pushed == w.down.pushed && w'.tales == w.tales
    ensures Downstream(w')
  {
  }

  /** A step of the downlink protocol, and at most the carrier's downlink half of the session. */
  lemma DownSound(cfg: Config, app: seq<Frame>, w: World, s': State, down': DownlinkRun.Net)
    requires Sound(cfg, app, w) && Inv(cfg, s', NOTHING) && DownlinkRun.Sound(down')
    requires s'.streams == w.s.streams && s'.tombs == w.s.tombs && s'.closed == w.s.closed == down'.closed
    requires 0 in s'.lanes && s'.lanes[0].up == w.s.lanes[0].up && s'.lanes[0].down == down'.relay
    requires down'.pushed == w.down.pushed
    ensures Sound(cfg, app, w.(s := s', down := down'))
  {
    hide Inv, AllTold, UplinkRun.Sound, DownlinkRun.Sound, EncodeAll, Flatten, Downstream;
    SameTold(w.s, s', w.tales, w.frames);
    SameDownstream(w, w.(s := s', down := down'));
  }

  lemma BridgeUpSound(cfg: Config, app: seq<Frame>, w: World, e: UplinkRun.Event)
    requires Sound(cfg, app, w) && (e.BridgePacks? || e.BridgeSends? || e.BridgeReceives?)
    ensures Sound(cfg, app, w.(up := UplinkRun.Step(w.up, e)))
  {
    hide Inv, AllTold, UplinkRun.Sound, DownlinkRun.Sound, EncodeAll, Flatten, Downstream;
    UplinkRun.StepSound(w.up, e);
    UpSound(cfg, app, w, w.s, UplinkRun.Step(w.up, e));
  }

  lemma AppSendsSound(cfg: Config, app: seq<Frame>, w: World, data: Bytes)
    requires Sound(cfg, app, w) && w.up.source + data <= EncodeAll(app)
    ensures Sound(cfg, app, w.(up := UplinkRun.Step(w.up, UplinkRun.AppQueues(data))))
  {
    hide Inv, AllTold, UplinkRun.Sound, DownlinkRun.Sound, EncodeAll, Flatten, Downstream;
    UplinkRun.StepSound(w.up, UplinkRun.AppQueues(data));
    UpSound(cfg, app, w, w.s, UplinkRun.Step(w.up, UplinkRun.AppQueues(data)));
  }

  lemma UpArrivesSound(cfg: Config, app: seq<Frame>, w: World, r: UplinkRun.Request)
    requires Sound(cfg, app, w) && r in w.up.sent
    ensures Sound(cfg, app, w.(s := UpBegins(w.s, r.sequence, r.body).0, up := UplinkRun.Arrive(w.up, r)))
  {
    hide Inv, AllTold, UplinkRun.Sound, DownlinkRun.Sound, EncodeAll, Flatten, Downstream;
    UplinkRun.ArriveSound(w.up, r);
    BeginsInv(cfg, w.s, r.sequence, r.body);
    UpSound(cfg, app, w, UpBegins(w.s, r.sequence, r.body).0, UplinkRun.Arrive(w.up, r));
  }

  lemma BridgeDownSound(cfg: Config, app: seq<Frame>, w: World, e: DownlinkRun.Event)
    requires Sound(cfg, app, w) && GoodConfig(cfg) && (e.BridgeSends? || e.BridgeReceives?)
    ensures Sound(cfg, app, w.(down := DownStep(cfg, w.down, e)))
  {
    hide Inv, AllTold, UplinkRun.Sound, DownlinkRun.Sound, EncodeAll, Flatten, Downstream;
    DownlinkRun.StepSound(w.down, e, cfg.limits.carrierBatchBytes, cfg.limits.maxFramePayload);
    DownSound(cfg, app, w, w.s, DownStep(cfg, w.down, e));
  }

  /** An arriving poll does to the session's carrier what it does in the protocol. */
  lemma ArrivalAgrees(cfg: Config, s: State, poll: PollId)
    requires GoodConfig(cfg) && !cfg.UsesLanes() && 0 in s.lanes && !s.closed
    ensures var t, d := SessionSteps.PollArrives(cfg, s, 0, poll).0, s.lanes[0].down;
      && t.streams == s.streams && t.tombs == s.tombs && t.closed == s.closed
      && 0 in t.lanes && t.lanes[0].up == s.lanes[0].up
      && t.lanes[0].down == Enter(d, poll, cfg.limits.carrierBatchBytes, false).0
  {
    hide Enter, Acknowledged, Release, ChargeOf;
    ReleaseShape(s, ChargeOf(Acknowledged(s.lanes[0].down, poll.cursor)));
  }

  lemma PollArrivesSound(cfg: Config, app: seq<Frame>, w: World, cursor: nat)
    requires Sound(cfg, app, w) && GoodConfig(cfg) && cursor in w.down.requests
    ensures Sound(cfg, app,
      w.(s := SessionSteps.PollArrives(cfg, w.s, 0, PollId(w.down.nextToken, cursor)).0,
         down := DownStep(cfg, w.down, DownlinkRun.RequestArrives(cursor))))
  {
    hide Inv, AllTold, UplinkRun.Sound, DownlinkRun.Sound, EncodeAll, Flatten, Downstream, Enter, Acknowledging;
    var poll := PollId(w.down.nextToken, cursor);
    DownlinkRun.StepSound(w.down, DownlinkRun.RequestArrives(cursor), cfg.limits.carrierBatchBytes,
                          cfg.limits.maxFramePayload);
    PollArrivesInv(cfg, w.s, 0, poll);
    var s' := SessionSteps.PollArrives(cfg, w.s, 0, poll).0;
    if w.s.closed {
      assert s' == w.s;
    } else {
      ArrivalAgrees(cfg, w.s, poll);
      RefusedStays(w.down.relay, poll, cfg.limits.carrierBatchBytes);
    }
    DownSound(cfg, app, w, s', DownStep(cfg, w.down, DownlinkRun.RequestArrives(cursor)));
  }

  lemma RefusedStays(d: Down, poll: PollId, batchBytes: int)
    ensures Enter(d, poll, batchBytes, false).1.Refused? ==> Enter(d, poll, batchBytes, false).0 == d
  {
  }

  lemma PollWakesSound(cfg: Config, app: seq<Frame>, w: World, poll: PollId, why: Wake)
    requires Sound(cfg, app, w) && GoodConfig(cfg) && poll in w.down.polls && 0 in w.s.lanes
    requires !(why.DisplacedByNewer? && w.down.relay.waiter == Some(poll))
    ensures Sound(cfg, app,
      w.(s := SessionSteps.PollWakes(cfg, w.s, 0, w.s.lanes[0].birth, poll, why).0,
         down := DownStep(cfg, w.down, DownlinkRun.PollWakes(poll, why))))
  {
    hide Inv, AllTold, UplinkRun.Sound, DownlinkRun.Sound, EncodeAll, Flatten, Downstream, Resume;
    DownlinkRun.StepSound(w.down, DownlinkRun.PollWakes(poll, why), cfg.limits.carrierBatchBytes,
                          cfg.limits.maxFramePayload);
    PollWakesInv(cfg, w.s, 0, w.s.lanes[0].birth, poll, why);
    DownSound(cfg, app, w, SessionSteps.PollWakes(cfg, w.s, 0, w.s.lanes[0].birth, poll, why).0,
              DownStep(cfg, w.down, DownlinkRun.PollWakes(poll, why)));
  }

  // Backend steps.

  lemma HearNone(cfg: Config, n: DownlinkRun.Net)
    requires GoodConfig(cfg)
    ensures Hear(cfg, n, []) == n
  {
  }

  lemma QuietDownstream(w: World, fs: seq<Frame>, h: map<nat, Tale>)
    requires Downstream(w) && NoData(fs) && forall id: nat :: Of(h, id).queued == Of(w.tales, id).queued
    ensures forall id: nat :: PayloadOf(Expand(w.down.pushed + fs), id) == Of(h, id).queued
  {
    hide Expand, PayloadOf;
    forall id: nat {
      PushedQuietly(w.down.pushed, fs, id);
    }
  }

  /** A step of one write loop. */
  lemma LoopSound(cfg: Config, app: seq<Frame>, w: World, s': State, id: nat, tale: Tale, fs: seq<Frame>)
    requires Sound(cfg, app, w) && Inv(cfg, s', NOTHING) && Queued(cfg, 0, w.s, s', fs) && NoData(fs)
    requires w.s.closed ==> |fs| == 0
    requires tale == Of(w.tales, id).(phase := tale.phase, written := tale.written)
    requires AllTold(s', w.tales[id := tale], w.frames)
    ensures Sound(cfg, app, w.(s := s', tales := w.tales[id := tale], down := Hear(cfg, w.down, fs)))
  {
    hide Inv, AllTold, UplinkRun.Sound, DownlinkRun.Sound, EncodeAll, Flatten, Expand, PayloadOf, Queued, Hear;
    PanicOff(cfg, s', NOTHING);
    QuietDownstream(w, fs, w.tales[id := tale]);
    QueuesSound(cfg, app, w, w.(s := s', tales := w.tales[id := tale], down := Hear(cfg, w.down, fs)), fs);
  }

  lemma ClosedHasNoStreams(cfg: Config, app: seq<Frame>, w: World)
    requires Sound(cfg, app, w)
    ensures GoodConfig(cfg) && (w.s.closed ==> w.s.streams == map[])
  {
    hide Inv;
    LaneFacts(cfg, w.s, NOTHING);
  }

  lemma TakeWriteSound(cfg: Config, app: seq<Frame>, w: World, id: nat)
    requires Sound(cfg, app, w) && GoodConfig(cfg)
    ensures Sound(cfg, app, Step(cfg, app, w, Event.TakeWrite(id)))
  {
    hide Inv, AllTold, UplinkRun.Sound, DownlinkRun.Sound, EncodeAll, Flatten, Downstream, Queued, Take;
    if Of(w.tales, id).phase.Idle? {
      var tale := Of(w.tales, id).(phase := Take(CellOf(w.s, w.tales, id), NextWrite).phase);
      ClosedHasNoStreams(cfg, app, w);
      TakeWriteInv(cfg, w.s, id);
      TakeWriteTold(w.s, w.tales, w.frames, id);
      NoneQueued(cfg, 0, w.s, WriteTaken(w.s, id), []);
      LoopSound(cfg, app, w, WriteTaken(w.s, id), id, tale, []);
      HearNone(cfg, w.down);
    }
  }

  lemma SocketWritesSound(cfg: Config, app: seq<Frame>, w: World, id: nat, count: nat)
    requires Sound(cfg, app, w) && GoodConfig(cfg)
    ensures Sound(cfg, app, Step(cfg, app, w, Event.SocketWrites(id, count)))
  {
    hide Inv, AllTold, UplinkRun.Sound, DownlinkRun.Sound, EncodeAll, Flatten, Downstream, Queued, Take;
    hide BackendDrained, PutUint32;
    if Of(w.tales, id).phase.Writing? && 0 < count <= |Of(w.tales, id).phase.left| {
      var (s', ok) := BackendDrained(cfg, w.s, id, count);
      var cell := Take(CellOf(w.s, w.tales, id), Streams.SocketWrites(count, ok));
      ClosedHasNoStreams(cfg, app, w);
      DrainedInv(cfg, w.s, id, count);
      SocketWritesTold(cfg, w.s, w.tales, w.frames, id, count);
      DrainedQueued(cfg, 0, w.s, id, count);
      LoopSound(cfg, app, w, s', id, Of(w.tales, id).(phase := cell.phase, written := cell.written),
                QueuedIf(ok, Frame(WINDOW, id, WindowPayload(count % TWO_32))));
      HearNone(cfg, w.down);
    }
  }

  lemma WriteFinishesSound(cfg: Config, app: seq<Frame>, w: World, id: nat)
    requires Sound(cfg, app, w) && GoodConfig(cfg)
    ensures Sound(cfg, app, Step(cfg, app, w, Event.WriteFinishes(id)))
  {
    hide Inv, AllTold, UplinkRun.Sound, DownlinkRun.Sound, EncodeAll, Flatten, Downstream, Queued, Take, Release;
    hide FinishWrite;
    if Of(w.tales, id).phase == Writing([]) {
      var tale := Of(w.tales, id).(phase := Take(CellOf(w.s, w.tales, id), Streams.WriteFinishes).phase);
      var s' := BackendWriteFinished(w.s, id).0;
      ClosedHasNoStreams(cfg, app, w);
      WriteFinishedInv(cfg, w.s, id);
      WriteFinishesTold(w.s, w.tales, w.frames, id);
      ReleaseShape(w.s, Charge(QUEUE_ITEM_COST, 1));
      NoneQueued(cfg, 0, w.s, s', []);
      LoopSound(cfg, app, w, s', id, tale, []);
      HearNone(cfg, w.down);
    }
  }

  lemma SocketFailsSound(cfg: Config, app: seq<Frame>, w: World, id: nat)
    requires Sound(cfg, app, w) && GoodConfig(cfg)
    ensures Sound(cfg, app, Step(cfg, app, w, Event.SocketFails(id)))
  {
    hide Inv, AllTold, UplinkRun.Sound, DownlinkRun.Sound, EncodeAll, Flatten, Downstream, Queued;
    SocketFailsTold(w.s, w.tales, w.frames, id);
    NoneQueued(cfg, 0, w.s, w.s, []);
    LoopSound(cfg, app, w, w.s, id, Of(w.tales, id).(phase := Streams.Stopped), []);
    HearNone(cfg, w.down);
  }

  lemma ReadDataSound(cfg: Config, app: seq<Frame>, w: World, id: nat, data: Bytes)
    requires Sound(cfg, app, w) && GoodConfig(cfg)
    ensures Sound(cfg, app, Step(cfg, app, w, Event.ReadData(id, data)))
  {
    hide Inv, AllTold, UplinkRun.Sound, DownlinkRun.Sound, EncodeAll, Flatten, Queued, BackendData, Expand, PayloadOf;
    if Of(w.tales, id).reading && data != [] && |data| <= DATA_CHUNK {
      var (s', ok) := BackendData(cfg, w.s, id, data);
      var fs, h := QueuedIf(ok, Frame(DATA, id, data)), w.tales[id := AfterRead(Of(w.tales, id), data, ok)];
      ReadDataInv(cfg, w.s, id, data);
      ReadDataTold(cfg, w.s, w.tales, w.frames, id, data);
      ReadQueued(cfg, 0, w.s, id, data);
      forall k: nat
        ensures PayloadOf(Expand(w.down.pushed + fs), k) == Of(h, k).queued
      {
        PushedPayload(w.down.pushed, Frame(DATA, id, data), k);
        assert w.down.pushed + [] == w.down.pushed;
        assert Of(w.tales, k).queued + [] == Of(w.tales, k).queued;
      }
      HearNone(cfg, w.down);
      QueuesSound(cfg, app, w, w.(s := s', tales := h, down := Hear(cfg, w.down, fs)), fs);
    }
  }

  /** The session closes, and both protocols with it. */
  lemma OverSound(cfg: Config, app: seq<Frame>, w: World, s': State)
    requires Sound(cfg, app, w) && Inv(cfg, s', NOTHING) && s'.closed && AllTold(s', w.tales, w.frames)
    requires GoodConfig(cfg) && 0 in s'.lanes && (s'.lanes[0] == Emptied(w.s.lanes[0]) || (w.s.closed && s' == w.s))
    ensures Sound(cfg, app, SessionOver(w.(s := s'), cfg))
  {
    hide Inv, AllTold, UplinkRun.Sound, DownlinkRun.Sound, EncodeAll, Flatten, Downstream;
    UplinkRun.StepSound(w.up, UplinkRun.SessionCloses);
    DownlinkRun.StepSound(w.down, DownlinkRun.SessionCloses, cfg.limits.carrierBatchBytes, cfg.limits.maxFramePayload);
    LaneFacts(cfg, w.s, NOTHING);
    SameDownstream(w, SessionOver(w.(s := s'), cfg));
  }

  lemma ClosesSound(cfg: Config, app: seq<Frame>, w: World)
    requires Sound(cfg, app, w) && GoodConfig(cfg)
    ensures Sound(cfg, app, Step(cfg, app, w, Event.Closes))
  {
    hide Inv, AllTold, UplinkRun.Sound, DownlinkRun.Sound, EncodeAll, Flatten, Downstream, SessionOver;
    CloseSessionInv(cfg, w.s);
    ClosingTold(w.s, w.tales, w.frames);
    OverSound(cfg, app, w, CloseSession(w.s));
  }

  lemma BackendGoneSound(cfg: Config, app: seq<Frame>, w: World, id: nat, backend: int)
    requires Sound(cfg, app, w) && GoodConfig(cfg)
    ensures Sound(cfg, app, Step(cfg, app, w, Event.BackendGone(id, backend)))
  {
    hide Inv, AllTold, UplinkRun.Sound, DownlinkRun.Sound, EncodeAll, Flatten, Queued, BackendClosed, SessionOver;
    hide Emptied, Expand, PayloadOf;
    var s' := BackendClosed(cfg, w.s, id, backend);
    BackendClosedInv(cfg, w.s, id, backend);
    BackendGoneTold(cfg, w.s, w.tales, w.frames, id, backend);
    GoneQueued(cfg, 0, w.s, id, backend);
    if s'.closed && !w.s.closed {
      OverSound(cfg, app, w, s');
    } else {
      ClosedHasNoStreams(cfg, app, w);
      var fs := QueuedIf(id in w.s.streams && id !in s'.streams, Frame(CLOSE, id, []));
      QuietDownstream(w, fs, w.tales);
      HearNone(cfg, w.down);
      QueuesSound(cfg, app, w, w.(s := s', down := Hear(cfg, w.down, fs)), fs);
    }
  }

  lemma PoolMovesSound(cfg: Config, app: seq<Frame>, w: World, pool: Charge)
    requires Sound(cfg, app, w) && w.s.pending.Within(pool)
    ensures Sound(cfg, app, w.(s := w.s.(pool := pool)))
  {
    hide Inv, AllTold, UplinkRun.Sound, DownlinkRun.Sound, EncodeAll, Flatten, Downstream;
    PoolMoveInv(cfg, w.s, pool);
    Tales.SameTold(w.s, w.s.(pool := pool), w.tales, w.frames);
    SameDownstream(w, w.(s := w.s.(pool := pool)));
  }

  // The uplink commit.

  /** What UpFinishes comes to when it applies nothing, and when it does. */
  lemma FinishCases(cfg: Config, s: State, sequence: nat, body: Bytes, admits: seq<bool>)
    requires GoodConfig(cfg)
    ensures var (t, answer) := UpFinishes(cfg, s, sequence, body, admits);
      if answer.Acked? || answer.Aborted? then
        && !s.closed && Readable(cfg, body).Some? && |admits| == |Readable(cfg, body).value|
        && var frames := Readable(cfg, body).value;
           && Validate(TrialOf(AfterParse(s)), frames).Some? && Reserved(cfg, AfterParse(s), frames).Some?
           && Ends(Apply(cfg, Reserved(cfg, AfterParse(s), frames).value, frames, admits), t, answer, sequence, body)
      else answer.Crashed? || t == AfterParse(s)
  {
    hide Readable, Validate, Apply, Reserved, Release;
  }

  /** The state and answer an apply leads to. */
  ghost predicate Ends(r: Applied, t: State, answer: UpAnswer, sequence: nat, body: Bytes) {
    match r
    case Going(b) =>
      var settled := Release(b.s, b.left);
      answer.Acked? &&
      t == SetUp(settled, 0, if 0 in settled.lanes then Commit(settled.lanes[0].up, sequence, body, true) else NEW_UP)
    case Aborted(b) => answer.Aborted? && t == Release(b.s, b.left)
    case NilStream => false
  }

  lemma QuietCommit(cfg: Config, app: seq<Frame>, w: World, worker: nat, admits: seq<bool>)
    requires Sound(cfg, app, w) && GoodConfig(cfg) && worker in w.up.workers
    requires var r := w.up.workers[worker];
      var answer := UpFinishes(cfg, w.s, r.sequence, r.body, admits).1;
      !answer.Acked? && !answer.Aborted? && !answer.Crashed?
    ensures Sound(cfg, app, Commits(cfg, w, worker, admits))
  {
    hide Inv, AllTold, UplinkRun.Sound, DownlinkRun.Sound, EncodeAll, Flatten, Downstream, UpFinishes, Ends, Readable;
    var r := w.up.workers[worker];
    FinishCases(cfg, w.s, r.sequence, r.body, admits);
    FinishesInv(cfg, w.s, r.sequence, r.body, admits);
    UplinkRun.FinishSound(w.up, worker, VerdictOf(UpFinishes(cfg, w.s, r.sequence, r.body, admits).1));
    UpSound(cfg, app, w, AfterParse(w.s),
            UplinkRun.Finish(w.up, worker, VerdictOf(UpFinishes(cfg, w.s, r.sequence, r.body, admits).1)));
  }

  lemma {:induction false} RefusalsAreNotData(cfg: Config, a: Acc, frames: seq<Frame>, admits: seq<bool>)
    requires GoodConfig(cfg) && |admits| == |frames|
    ensures NoData(Refusals(cfg, a, frames, admits))
    decreases |frames|
  {
    hide ApplyFrame, QueueFrame, RememberClosed;
    if |frames| > 0 && ApplyFrame(cfg, a, frames[0], admits[0]).Going? {
      RefusalsAreNotData(cfg, ApplyFrame(cfg, a, frames[0], admits[0]).acc, frames[1..], admits[1..]);
    }
  }

  /** From the state before the apply to the state after it, as the carrier and the tales see it. */
  lemma EndsQueued(cfg: Config, s: State, a: Acc, t: State, answer: UpAnswer, frames: seq<Frame>, admits: seq<bool>,
                   sequence: nat, body: Bytes)
    requires GoodConfig(cfg) && !cfg.UsesLanes() && |admits| == |frames| && 0 in s.lanes && !s.closed
    requires a.s.lanes == s.lanes && a.s.closed == s.closed
    requires Ends(Apply(cfg, a, frames, admits), t, answer, sequence, body)
    ensures var fs, up := Refusals(cfg, a, frames, admits), s.lanes[0].up;
      && t.closed == s.closed && 0 in t.lanes
      && t.lanes[0] ==
         WithQueued(cfg, s.lanes[0], fs).(up := if answer.Acked? then Commit(up, sequence, body, true) else up)
  {
    hide Apply, Refusals, PushAll, Release;
    ApplyQueued(cfg, a, frames, admits);
    match Apply(cfg, a, frames, admits)
    case Going(b) => ReleaseShape(b.s, b.left);
    case Aborted(b) => ReleaseShape(b.s, b.left);
    case NilStream =>
  }

  lemma EndsTold(cfg: Config, a: Acc, t: State, answer: UpAnswer, h: map<nat, Tale>, fs: seq<Frame>, frames: seq<Frame>,
                 admits: seq<bool>, sequence: nat, body: Bytes)
    requires GoodConfig(cfg) && |admits| == |frames| && BatchTold(cfg, a, h, fs, frames, admits)
    requires Ends(Apply(cfg, a, frames, admits), t, answer, sequence, body)
    ensures AllTold(t, Log(cfg, a, h, frames, admits), fs + frames[..Reached(cfg, a, frames, admits)])
    ensures SameQueued(h, Log(cfg, a, h, frames, admits))
    ensures answer.Acked? ==> Reached(cfg, a, frames, admits) == |frames|
  {
    hide Apply, Log, AllTold, Release, SameQueued;
    match Apply(cfg, a, frames, admits)
    case Going(b) =>
      ReleaseShape(b.s, b.left);
      assert frames[..|frames|] == frames;
      Tales.SameTold(b.s, t, Log(cfg, a, h, frames, admits), fs + frames);
    case Aborted(b) =>
      ReleaseShape(b.s, b.left);
      Tales.SameTold(b.s, t, Log(cfg, a, h, frames, admits), fs + frames[..Reached(cfg, a, frames, admits)]);
    case NilStream =>
  }

  lemma PrefixOpensOnce(fs: seq<Frame>, all: seq<Frame>)
    requires fs <= all && OpensOnce(all)
    ensures OpensOnce(fs)
  {
    forall i, j, id | 0 <= i < j < |fs|
      ensures !(IsOpenOf(fs[i], id) && IsOpenOf(fs[j], id))
    {
      assert fs[i] == all[i] && fs[j] == all[j];
    }
  }

  /** A committed body's frames continue the app's own. */
  lemma NextFramesAreApps(cfg: Config, app: seq<Frame>, w: World, worker: nat, frames: seq<Frame>)
    requires UplinkRun.Sound(w.up) && Upstream(app, w) && !w.aborted && worker in w.up.workers
    requires Readable(cfg, w.up.workers[worker].body) == Some(frames)
    ensures AllFit(frames, MAX_PAYLOAD) && EncodeAll(frames) == w.up.workers[worker].body
    ensures AllFit(w.frames + frames, MAX_PAYLOAD)
      && EncodeAll(w.frames + frames) == Flatten(w.up.applied) + w.up.workers[worker].body
    ensures EncodeAll(w.frames + frames) <= w.up.source && w.frames + frames <= app
  {
    hide UplinkRun.Sound, Parsed, EncodeAll, Flatten, AllClientShaped;
    ParseIsCanonical(w.up.workers[worker].body, cfg.limits.maxFramePayload);
    EncodeAllAppend(w.frames, frames);
    UplinkRun.NextBodyFollows(w.up, worker);
    EncodedPrefixIsFramePrefix(w.frames + frames, app);
  }

  lemma EncodedTake(fs: seq<Frame>, frames: seq<Frame>, n: nat)
    requires n <= |frames| && AllFit(fs + frames, MAX_PAYLOAD)
    ensures AllFit(fs + frames[..n], MAX_PAYLOAD) && EncodeAll(fs + frames[..n]) <= EncodeAll(fs + frames)
  {
    var head, tail := fs + frames[..n], frames[n..];
    assert fs + frames == head + tail;
    forall i | 0 <= i < |head|
      ensures Fits(head[i], MAX_PAYLOAD)
    {
      assert head[i] == (fs + frames)[i];
    }
    forall i | 0 <= i < |tail|
      ensures Fits(tail[i], MAX_PAYLOAD)
    {
      assert tail[i] == (fs + frames)[|head| + i];
    }
    EncodeAllAppend(head, tail);
  }

  /** The session's side of an applied batch: the histories take in exactly the frames reached. */
  lemma CommitTold(cfg: Config, s1: State, a: Acc, t: State, answer: UpAnswer, h: map<nat, Tale>, fs: seq<Frame>,
                   frames: seq<Frame>, admits: seq<bool>, sequence: nat, body: Bytes)
    requires !cfg.UsesLanes() && Inv(cfg, s1, NOTHING) && !s1.closed && 0 in s1.lanes && GoodConfig(cfg)
    requires AllFit(frames, MAX_PAYLOAD) && AllClientShaped(frames) && |admits| == |frames|
    requires Validate(TrialOf(s1), frames).Some? && Reserved(cfg, s1, frames) == Some(a)
    requires AllTold(s1, h, fs) && OpensOnce(fs + frames)
    requires Ends(Apply(cfg, a, frames, admits), t, answer, sequence, body)
    ensures AllTold(t, Log(cfg, a, h, frames, admits), fs + frames[..Reached(cfg, a, frames, admits)])
    ensures SameQueued(h, Log(cfg, a, h, frames, admits))
    ensures answer.Acked? ==> Reached(cfg, a, frames, admits) == |frames|
    ensures a.s == s1.(pending := a.s.pending, pool := a.s.pool)
  {
    hide *;
    LanesAreReady(cfg, s1, frames);
    AcceptedIf(cfg, s1, frames);
    ReservedUnderway(cfg, s1, frames);
    Tales.SameTold(s1, a.s, h, fs);
    ApplyTold(cfg, TrialOf(s1), a, h, fs, frames, admits, s1.tombs, s1.streams.Keys);
    EndsTold(cfg, a, t, answer, h, fs, frames, admits, sequence, body);
  }

  /** The frames reached join those applied before. */
  lemma UpstreamGrows(app: seq<Frame>, w: World, w': World, body: Bytes, frames: seq<Frame>, n: nat)
    requires Upstream(app, w) && !w.aborted && n <= |frames| && (!w'.aborted ==> n == |frames|)
    requires AllFit(w.frames + frames, MAX_PAYLOAD) && EncodeAll(w.frames + frames) <= w.up.source
    requires EncodeAll(w.frames + frames) == Flatten(w.up.applied) + body
    requires w'.frames == w.frames + frames[..n] && w'.up.source == w.up.source
    requires w'.up.applied == if w'.aborted then w.up.applied else w.up.applied + [body]
    ensures Upstream(app, w')
  {
    hide EncodeAll, Flatten, Fits;
    EncodedTake(w.frames, frames, n);
    EncodedTake(w.frames, frames[..n], 0);
    assert w.frames + frames[..n][..0] == w.frames;
    FlattenSnoc(w.up.applied, body);
    assert frames[..|frames|] == frames;
  }

  /** The world after an applied commit, put together from its parts. */
  lemma CommitAssembled(cfg: Config, app: seq<Frame>, w: World, w': World, worker: nat, answer: UpAnswer,
                        fs: seq<Frame>,
                        frames: seq<Frame>, n: nat)
    requires Sound(cfg, app, w) && GoodConfig(cfg) && !w.s.closed && !w.aborted && worker in w.up.workers
    requires answer.Acked? || answer.Aborted?
    requires n <= |frames| && (answer.Acked? ==> n == |frames|)
    requires AllFit(w.frames + frames, MAX_PAYLOAD) && EncodeAll(w.frames + frames) <= w.up.source
    requires EncodeAll(w.frames + frames) == Flatten(w.up.applied) + w.up.workers[worker].body
    requires w'.up == UplinkRun.Finish(w.up, worker, VerdictOf(answer)) && w'.down == Hear(cfg, w.down, fs)
      && NoData(fs)
    requires w'.frames == w.frames + frames[..n] && w'.aborted == answer.Aborted?
    requires Inv(cfg, w'.s, NOTHING) && AllTold(w'.s, w'.tales, w'.frames) && SameQueued(w.tales, w'.tales)
    requires !w'.s.closed && 0 in w'.s.lanes
    requires var r := w.up.workers[worker];
      w'.s.lanes[0] == WithQueued(cfg, w.s.lanes[0].(up := w.up.up.(active := false)), fs)
        .(up := if answer.Acked? then Commit(w.up.up.(active := false), r.sequence, r.body, true)
                else w.up.up.(active := false))
    ensures Sound(cfg, app, w')
  {
    hide Inv, AllTold, UplinkRun.Sound, DownlinkRun.Sound, EncodeAll, Flatten, Expand, PayloadOf, PushAll, Hear;
    hide SameQueued, NoData, Upstream;
    UplinkRun.FinishSound(w.up, worker, VerdictOf(answer));
    HearIs(cfg, w.down, fs);
    HearSound(cfg, w.down, fs);
    SameQueuedMeans(w.tales, w'.tales);
    QuietDownstream(w, fs, w'.tales);
    UpstreamGrows(app, w, w', w.up.workers[worker].body, frames, n);
  }

  lemma SameQueuedMeans(h: map<nat, Tale>, h': map<nat, Tale>)
    requires SameQueued(h, h')
    ensures forall id: nat :: Of(h', id).queued == Of(h, id).queued
  {
  }

  // What the ring has to hold for a commit to go as the client expects.

  /** Some OPEN of the batch names an id the session still remembers. */
  predicate Remembers(s: State, frames: seq<Frame>) {
    exists i :: 0 <= i < |frames| && frames[i].kind == OPEN && frames[i].id in s.tombs
  }

  /**
   * The tombstones a commit depends on are still in the ring: those of the batch's own late frames, and
   * after an apply stopped halfway one of the OPEN frames that the bridge, unaware, sends again.
   */
  predicate RingCovers(cfg: Config, w: World, frames: seq<Frame>, admits: seq<bool>)
    requires GoodConfig(cfg) && |admits| == |frames|
  {
    if w.aborted then Remembers(w.s, frames)
    else Validate(TrialOf(w.s), frames).Some? ==> !LosesSome(cfg, IdsOf(w.s), frames, admits)
  }

  predicate RingHolds(cfg: Config, w: World, e: Event)
    requires GoodConfig(cfg)
  {
    e.UpCommits? && e.worker in w.up.workers && !w.s.closed ==>
      var frames := Readable(cfg, w.up.workers[e.worker].body);
      frames.Some? && |e.admits| == |frames.value| ==> RingCovers(cfg, w, frames.value, e.admits)
  }

  /** A batch that opens a remembered id is rejected. */
  lemma RememberedIsRejected(cfg: Config, s: State, sequence: nat, body: Bytes, frames: seq<Frame>, admits: seq<bool>)
    requires GoodConfig(cfg) && !s.closed && Readable(cfg, body) == Some(frames) && |admits| == |frames|
    requires Remembers(s, frames)
    ensures UpFinishes(cfg, s, sequence, body, admits).1.Rejected?
  {
    hide Readable, Validate, Apply, Reserved;
    if Validate(TrialOf(AfterParse(s)), frames).Some? {
      OpensAreNew(TrialOf(AfterParse(s)), frames);
    }
  }

  /** While the ring holds what it must, no commit crashes and none follows an apply stopped halfway. */
  lemma HeldRingIsRegular(cfg: Config, w: World, worker: nat, admits: seq<bool>)
    requires Coupled(cfg, w) && worker in w.up.workers && RingHolds(cfg, w, UpCommits(worker, admits))
    ensures GoodConfig(cfg)
    ensures var answer := UpFinishes(cfg, w.s, w.up.workers[worker].sequence, w.up.workers[worker].body, admits).1;
      !answer.Crashed? && (w.aborted ==> !answer.Acked? && !answer.Aborted?)
  {
    hide *;
    CoupledMeans(cfg, w);
    var r := w.up.workers[worker];
    var answer := UpFinishes(cfg, w.s, r.sequence, r.body, admits).1;
    OnlyReadIsApplied(cfg, w.s, r.sequence, r.body, admits);
    if answer.Crashed? || answer.Acked? || answer.Aborted? {
      var frames := Readable(cfg, r.body).value;
      CoversIfHeld(cfg, w, worker, admits);
      if w.aborted {
        RememberedIsRejected(cfg, w.s, r.sequence, r.body, frames, admits);
      } else if answer.Crashed? {
        FinishesInv(cfg, w.s, r.sequence, r.body, admits);
        CoversMeans(cfg, w, frames, admits);
      }
    }
  }

  lemma CoupledMeans(cfg: Config, w: World)
    requires Coupled(cfg, w)
    ensures GoodConfig(cfg) && !cfg.UsesLanes() && Inv(cfg, w.s, NOTHING)
  {
    PanicOff(cfg, w.s, NOTHING);
    hide Inv;
  }

  lemma CoversIfHeld(cfg: Config, w: World, worker: nat, admits: seq<bool>)
    requires GoodConfig(cfg) && worker in w.up.workers && RingHolds(cfg, w, UpCommits(worker, admits)) && !w.s.closed
    requires Readable(cfg, w.up.workers[worker].body).Some?
    requires |admits| == |Readable(cfg, w.up.workers[worker].body).value|
    ensures RingCovers(cfg, w, Readable(cfg, w.up.workers[worker].body).value, admits)
    ensures w.aborted ==> Remembers(w.s, Readable(cfg, w.up.workers[worker].body).value)
  {
    hide Readable, Remembers, LosesSome, Validate, TrialOf;
  }

  lemma CoversMeans(cfg: Config, w: World, frames: seq<Frame>, admits: seq<bool>)
    requires GoodConfig(cfg) && |admits| == |frames| && RingCovers(cfg, w, frames, admits) && !w.aborted
    ensures Validate(TrialOf(w.s), frames).Some? ==> !LosesSome(cfg, IdsOf(w.s), frames, admits)
  {
    hide LosesSome, Validate, TrialOf;
  }

  /** Only a body that parses, at an open session, is applied in any part; only a validated one crashes. */
  lemma OnlyReadIsApplied(cfg: Config, s: State, sequence: nat, body: Bytes, admits: seq<bool>)
    requires GoodConfig(cfg)
    ensures var answer := UpFinishes(cfg, s, sequence, body, admits).1;
      answer.Crashed? || answer.Acked? || answer.Aborted? ==>
        && !s.closed && Readable(cfg, body).Some? && |admits| == |Readable(cfg, body).value|
        && Validate(TrialOf(s), Readable(cfg, body).value).Some?
  {
    hide Readable, Validate, Apply, Reserved, TrialOf, Release;
    SameTrial(cfg, s, AfterParse(s));
  }

  /**
   * After an apply stopped halfway and before the session closes, the same body takes effect again
   * exactly when the session no longer knows any of the ids it opens, the rest of it still fits, and
   * the budget has room. One remembered id is enough to refuse it.
   */
  lemma BodyRepeatsIff(cfg: Config, s: State, sequence: nat, body: Bytes, frames: seq<Frame>, admits: seq<bool>)
    requires GoodConfig(cfg) && !s.closed && Readable(cfg, body) == Some(frames) && |admits| == |frames|
    ensures var answer := UpFinishes(cfg, s, sequence, body, admits).1;
      answer.Acked? || answer.Aborted? || answer.Crashed? <==>
        && FreshOpens(TrialOf(s), frames) && ValidateRest(TrialOf(s), frames).Some?
        && Reserved(cfg, AfterParse(s), frames).Some?
    ensures Remembers(s, frames) ==> !FreshOpens(TrialOf(s), frames)
  {
    hide Readable, Validate, ValidateRest, Apply, Reserved, Release;
    ValidateIff(TrialOf(s), frames);
    SameTrial(cfg, s, AfterParse(s));
  }

  lemma ApplyingCommit(cfg: Config, app: seq<Frame>, w: World, worker: nat, admits: seq<bool>)
    requires Sound(cfg, app, w) && GoodConfig(cfg) && OpensOnce(app) && worker in w.up.workers && !w.aborted
    requires var r := w.up.workers[worker];
      var answer := UpFinishes(cfg, w.s, r.sequence, r.body, admits).1;
      answer.Acked? || answer.Aborted?
    ensures Sound(cfg, app, Commits(cfg, w, worker, admits))
  {
    hide Inv, AllTold, UplinkRun.Sound, DownlinkRun.Sound, EncodeAll, Flatten, Downstream, UpFinishes, Ends;
    hide Readable, Validate, Apply;
    hide Reserved, Log, Reached, Refusals, Hear, WithQueued, OpensOnce, SameQueued, NoData, TrialOf, UplinkRun.Finish;
    var r := w.up.workers[worker];
    var (t, answer) := UpFinishes(cfg, w.s, r.sequence, r.body, admits);
    var s1 := AfterParse(w.s);
    FinishCases(cfg, w.s, r.sequence, r.body, admits);
    FinishesInv(cfg, w.s, r.sequence, r.body, admits);
    var frames := Readable(cfg, r.body).value;
    var a := Reserved(cfg, s1, frames).value;
    NextFramesAreApps(cfg, app, w, worker, frames);
    PrefixOpensOnce(w.frames + frames, app);
    SetUpInv(cfg, w.s, 0, w.s.lanes[0].up.(active := false), NOTHING);
    Tales.SameTold(w.s, s1, w.tales, w.frames);
    CommitTold(cfg, s1, a, t, answer, w.tales, w.frames, frames, admits, r.sequence, r.body);
    EndsQueued(cfg, s1, a, t, answer, frames, admits, r.sequence, r.body);
    RefusalsAreNotData(cfg, a, frames, admits);
    CommitAssembled(cfg, app, w, Commits(cfg, w, worker, admits), worker, answer,
                    Refusals(cfg, a, frames, admits), frames, Reached(cfg, a, frames, admits));
  }

  lemma CommitsSound(cfg: Config, app: seq<Frame>, w: World, worker: nat, admits: seq<bool>)
    requires Sound(cfg, app, w) && GoodConfig(cfg) && OpensOnce(app) && RingHolds(cfg, w, UpCommits(worker, admits))
    ensures Sound(cfg, app, Commits(cfg, w, worker, admits))
  {
    hide UpFinishes, OpensOnce, RingHolds, Coupled, AllTold, Upstream, Downstream, UplinkRun.Sound, DownlinkRun.Sound;
    if worker in w.up.workers {
      HeldRingIsRegular(cfg, w, worker, admits);
      var r := w.up.workers[worker];
      var answer := UpFinishes(cfg, w.s, r.sequence, r.body, admits).1;
      if answer.Acked? || answer.Aborted? {
        ApplyingCommit(cfg, app, w, worker, admits);
      } else {
        QuietCommit(cfg, app, w, worker, admits);
      }
    }
  }

  // Runs.

  lemma StepSound(cfg: Config, app: seq<Frame>, w: World, e: Event)
    requires Sound(cfg, app, w) && GoodConfig(cfg) && AllFit(app, MAX_PAYLOAD) && OpensOnce(app)
      && RingHolds(cfg, w, e)
    ensures Sound(cfg, app, Step(cfg, app, w, e))
  {
    hide Sound, Commits, RingHolds, OpensOnce, SessionOver, EncodeAll, DownStep, UplinkRun.Step;
    match e
    case AppSends(data) =>
      if w.up.source + data <= EncodeAll(app) {
        AppSendsSound(cfg, app, w, data);
      }
    case BridgeUp(up) =>
      if up.BridgePacks? || up.BridgeSends? || up.BridgeReceives? {
        BridgeUpSound(cfg, app, w, up);
      }
    case UpArrives(r) =>
      if r in w.up.sent {
        UpArrivesSound(cfg, app, w, r);
      }
    case UpCommits(worker, admits) => CommitsSound(cfg, app, w, worker, admits);
    case BridgeDown(down) =>
      if down.BridgeSends? || down.BridgeReceives? {
        BridgeDownSound(cfg, app, w, down);
      }
    case PollArrives(cursor) =>
      if cursor in w.down.requests {
        PollArrivesSound(cfg, app, w, cursor);
      }
    case PollWakes(poll, why) =>
      if poll in w.down.polls && !(why.DisplacedByNewer? && w.down.relay.waiter == Some(poll)) && 0 in w.s.lanes {
        PollWakesSound(cfg, app, w, poll, why);
      }
    case TakeWrite(id) => TakeWriteSound(cfg, app, w, id);
    case SocketWrites(id, count) => SocketWritesSound(cfg, app, w, id, count);
    case WriteFinishes(id) => WriteFinishesSound(cfg, app, w, id);
    case SocketFails(id) => SocketFailsSound(cfg, app, w, id);
    case ReadData(id, data) => ReadDataSound(cfg, app, w, id, data);
    case BackendGone(id, backend) => BackendGoneSound(cfg, app, w, id, backend);
    case Closes => ClosesSound(cfg, app, w);
    case OthersMovePool(pool) =>
      if w.s.pending.Within(pool) {
        PoolMovesSound(cfg, app, w, pool);
      }
  }

  function Run(cfg: Config, pool: Charge, app: seq<Frame>, events: seq<Event>): World
    requires GoodConfig(cfg) && AllFit(app, MAX_PAYLOAD)
  {
    if events == [] then Start(cfg, pool)
    else Step(cfg, app, Run(cfg, pool, app, events[..|events| - 1]), events[|events| - 1])
  }

  /** The ring holds what every commit of the run depends on. */
  ghost predicate RingLasts(cfg: Config, pool: Charge, app: seq<Frame>, events: seq<Event>)
    requires GoodConfig(cfg) && AllFit(app, MAX_PAYLOAD)
  {
    events == [] ||
    (RingLasts(cfg, pool, app, events[..|events| - 1])
     && RingHolds(cfg, Run(cfg, pool, app, events[..|events| - 1]), events[|events| - 1]))
  }

  /** A client that never uses a stream id twice, on a carrier without lanes. */
  ghost predicate Setting(cfg: Config, pool: Charge, app: seq<Frame>) {
    GoodConfig(cfg) && !cfg.UsesLanes() && NOTHING.Within(pool) && AllFit(app, MAX_PAYLOAD) && OpensOnce(app)
  }

  lemma StartSound(cfg: Config, pool: Charge, app: seq<Frame>)
    requires Setting(cfg, pool, app)
    ensures Sound(cfg, app, Start(cfg, pool))
  {
    hide Inv, UplinkRun.Sound, DownlinkRun.Sound, OpensOnce, Accounted;
    NewSessionInv(cfg, pool);
    UplinkRun.RunSound([]);
    DownlinkRun.RunSound([], cfg.limits.carrierBatchBytes, cfg.limits.maxFramePayload);
    ClosedCellAccounted();
  }

  lemma ClosedCellAccounted()
    ensures Accounted(Cell(None, Idle, [], []))
  {
  }

  lemma {:induction false} RunSound(cfg: Config, pool: Charge, app: seq<Frame>, events: seq<Event>)
    requires Setting(cfg, pool, app) && RingLasts(cfg, pool, app, events)
    ensures Sound(cfg, app, Run(cfg, pool, app, events))
  {
    hide Sound, Step, RingHolds, Start, OpensOnce;
    if |events| == 0 {
      StartSound(cfg, pool, app);
    } else {
      RunSound(cfg, pool, app, events[..|events| - 1]);
      StepSound(cfg, app, Run(cfg, pool, app, events[..|events| - 1]), events[|events| - 1]);
    }
  }

  lemma {:induction false} DataOfAppend(a: seq<Frame>, b: seq<Frame>, id: nat)
    ensures DataOf(a, id) <= DataOf(a + b, id)
  {
    if |b| == 0 {
      assert a + b == a;
    } else {
      DataOfAppend(a, b[..|b| - 1], id);
      DataOfSnoc(a + b[..|b| - 1], b[|b| - 1], id);
      assert a + b == (a + b[..|b| - 1]) + [b[|b| - 1]];
    }
  }

  lemma SoundMeans(cfg: Config, app: seq<Frame>, w: World, id: nat)
    requires Sound(cfg, app, w)
    ensures Told(w.s, w.tales, w.frames, id)
    ensures w.frames <= app && DataOf(w.frames, id) <= DataOf(app, id)
    ensures PayloadOf(Expand(w.down.pushed), id) == Of(w.tales, id).queued
    ensures DownlinkRun.Sound(w.down)
    ensures Flatten(w.up.applied) <= EncodeAll(w.frames) && UplinkRun.HaltsLast(w.up.effects)
    ensures !w.aborted ==> Flatten(w.up.applied) == EncodeAll(w.frames)
    ensures !w.aborted && Flatten(w.up.applied) == EncodeAll(app) ==> w.frames == app
  {
    hide Coupled, UplinkRun.Sound, DownlinkRun.Sound, Told, EncodeAll, Flatten, Expand, PayloadOf, DataOf;
    EncodedPrefixIsFramePrefix(w.frames, app);
    assert app == w.frames + app[|w.frames|..];
    DataOfAppend(w.frames, app[|w.frames|..], id);
    if !w.aborted && Flatten(w.up.applied) == EncodeAll(app) {
      EncodedPrefixIsFramePrefix(app, w.frames);
    }
  }

  // A ring with room for all the app's streams.

  function OpenedIds(fs: seq<Frame>): set<nat> {
    set i | 0 <= i < |fs| && fs[i].kind == OPEN :: fs[i].id
  }

  lemma {:induction false} ClosingsAppend(a: seq<Frame>, b: seq<Frame>)
    ensures Closings(a + b) == Closings(a) + Closings(b)
  {
    if |a| == 0 {
      assert a + b == b;
    } else {
      assert (a + b)[1..] == a[1..] + b;
      ClosingsAppend(a[1..], b);
    }
  }

  lemma {:induction false} OpenedWithinClosings(fs: seq<Frame>)
    ensures |OpenedIds(fs)| <= Closings(fs)
  {
    if |fs| > 0 {
      var rest := OpenedIds(fs[1..]);
      OpenedWithinClosings(fs[1..]);
      if fs[0].kind == OPEN {
        forall x | x in OpenedIds(fs)
          ensures x in rest + {fs[0].id}
        {
          var i :| 0 <= i < |fs| && fs[i].kind == OPEN && fs[i].id == x;
          assert i > 0 ==> fs[1..][i - 1] == fs[i];
        }
        SubsetSize(OpenedIds(fs), rest + {fs[0].id});
      } else {
        forall x | x in OpenedIds(fs)
          ensures x in rest
        {
          var i :| 0 <= i < |fs| && fs[i].kind == OPEN && fs[i].id == x;
          assert fs[1..][i - 1] == fs[i];
        }
        SubsetSize(OpenedIds(fs), rest);
      }
    }
  }

  lemma SubsetSize(a: set<nat>, b: set<nat>)
    requires a <= b
    ensures |a| <= |b|
  {
    assert b == a + (b - a);
  }

  function Members(s: seq<nat>): set<nat> {
    set x | x in s
  }

  lemma {:induction false} DistinctSize(s: seq<nat>)
    requires Tombstones.Distinct(s)
    ensures |Members(s)| == |s|
  {
    if |s| > 0 {
      var init, last := s[..|s| - 1], s[|s| - 1];
      DistinctSize(init);
      assert s == init + [last];
      assert Members(s) == Members(init) + {last};
      assert last !in init;
    }
  }

  /** Every remembered id was opened by a frame applied before, so the ring holds no more than those. */
  lemma TombsWithinClosings(cfg: Config, app: seq<Frame>, w: World)
    requires Sound(cfg, app, w)
    ensures |w.s.tombs| <= Closings(w.frames)
  {
    hide Inv, UplinkRun.Sound, DownlinkRun.Sound, Accounted, DataOf, Upstream, Downstream, EncodeAll;
    PanicOff(cfg, w.s, NOTHING);
    DistinctSize(w.s.tombs);
    forall id | id in w.s.tombs
      ensures id in OpenedIds(w.frames)
    {
      assert Told(w.s, w.tales, w.frames, id);
      var i :| 0 <= i < |w.frames| && IsOpenOf(w.frames[i], id);
    }
    SubsetSize(Members(w.s.tombs), OpenedIds(w.frames));
    OpenedWithinClosings(w.frames);
  }

  ghost predicate Roomy(cfg: Config, app: seq<Frame>) {
    Closings(app) <= cfg.limits.maxClosedStreamIDs
  }

  lemma ClosingsOfPrefix(a: seq<Frame>, b: seq<Frame>)
    requires a <= b
    ensures Closings(a) <= Closings(b)
  {
    assert b == a + b[|a|..];
    ClosingsAppend(a, b[|a|..]);
  }

  /** The bridge's next body after an apply stopped halfway, while the session is still open. */
  ghost predicate NextIsBarred(cfg: Config, w: World) {
    w.aborted && !w.s.closed ==>
      && w.up.up.lastSequence < |w.up.bodies|
      && Readable(cfg, w.up.bodies[w.up.up.lastSequence]).Some?
      && Remembers(w.s, Readable(cfg, w.up.bodies[w.up.up.lastSequence]).value)
  }

  /** A step that forgets no id and leaves the uplink protocol at the same body. */
  lemma StaysBarred(cfg: Config, w: World, w': World)
    requires NextIsBarred(cfg, w) && w'.aborted == w.aborted
    requires !w'.s.closed ==> !w.s.closed && (forall id | id in w.s.tombs :: id in w'.s.tombs)
    requires w'.up.up.lastSequence == w.up.up.lastSequence && w.up.bodies <= w'.up.bodies
    ensures NextIsBarred(cfg, w')
  {
    hide Readable;
  }

  /** With room for one more, a closure forgets nothing. */
  lemma GoneForgetsNothing(cfg: Config, app: seq<Frame>, w: World, id: nat, backend: int)
    requires Sound(cfg, app, w) && GoodConfig(cfg) && Roomy(cfg, app)
    ensures var t := BackendClosed(cfg, w.s, id, backend);
      (w.s.closed ==> t.closed) && forall x | x in w.s.tombs :: x in t.tombs
  {
    hide Inv, UplinkRun.Sound, DownlinkRun.Sound, AllTold, Upstream, Downstream, QueueFrame, CloseStream, CloseSession;
    if !w.s.closed && id in w.s.streams && w.s.streams[id].backend == backend {
      RoomForOneMore(cfg, app, w, id);
      CloseStreamShape(cfg, w.s, id);
      QueueFrameShape(cfg, CloseStream(cfg, w.s, id), Frame(CLOSE, id, []));
      ClosedKeepsTombs(CloseStream(cfg, w.s, id));
    }
  }

  lemma ClosedKeepsTombs(s: State)
    ensures CloseSession(s).tombs == s.tombs && CloseSession(s).closed
  {
  }

  lemma RoomForOneMore(cfg: Config, app: seq<Frame>, w: World, id: nat)
    requires Sound(cfg, app, w) && GoodConfig(cfg) && Roomy(cfg, app) && id in w.s.streams
    ensures Tombstones.Remember(w.s.tombs, id, cfg.limits.maxClosedStreamIDs) == w.s.tombs + [id]
  {
    hide Inv, UplinkRun.Sound, DownlinkRun.Sound, Accounted, DataOf, Downstream, EncodeAll, OpenedIds, Closings;
    PanicOff(cfg, w.s, NOTHING);
    assert GoodStream(cfg, w.s, id);
    DistinctSize(w.s.tombs);
    forall x | x in Members(w.s.tombs) + {id}
      ensures x in OpenedIds(w.frames)
    {
      assert Told(w.s, w.tales, w.frames, x);
      OpenedIsListed(w.frames, x);
    }
    SubsetSize(Members(w.s.tombs) + {id}, OpenedIds(w.frames));
    OpenedWithinClosings(w.frames);
    EncodedPrefixIsFramePrefix(w.frames, app);
    ClosingsOfPrefix(w.frames, app);
  }

  lemma OpenedIsListed(fs: seq<Frame>, id: nat)
    requires OpenedIn(fs, id)
    ensures id in OpenedIds(fs)
  {
    var i :| 0 <= i < |fs| && IsOpenOf(fs[i], id);
  }

  /** Where an apply stops halfway, the session remembers an id its batch opens. */
  lemma AbortRemembers(cfg: Config, a: Acc, frames: seq<Frame>, admits: seq<bool>)
    requires GoodConfig(cfg) && |admits| == |frames| && Apply(cfg, a, frames, admits).Aborted?
    ensures Remembers(Apply(cfg, a, frames, admits).acc.s, frames)
  {
    hide Apply, RememberClosed, QueueFrame;
    var n := AbortHaltsAt(cfg, a, frames, admits);
    var c := Apply(cfg, a, frames[..n], admits[..n]).acc;
    RememberClosedShape(cfg, c.s, frames[n].id);
  }

  /** A commit stopped halfway bars its body from being applied again. */
  lemma AbortBars(cfg: Config, w: World, worker: nat, admits: seq<bool>)
    requires Coupled(cfg, w) && GoodConfig(cfg) && UplinkRun.Sound(w.up) && worker in w.up.workers
    requires var r := w.up.workers[worker];
      UpFinishes(cfg, w.s, r.sequence, r.body, admits).1.Aborted?
    ensures NextIsBarred(cfg, Commits(cfg, w, worker, admits))
  {
    hide Inv, Readable, Validate, Apply, Reserved, UpFinishes, Log, Hear, Refusals, Reached, Release;
    var r := w.up.workers[worker];
    FinishCases(cfg, w.s, r.sequence, r.body, admits);
    var frames := Readable(cfg, r.body).value;
    var a := Reserved(cfg, AfterParse(w.s), frames).value;
    AbortRemembers(cfg, a, frames, admits);
    var b := Apply(cfg, a, frames, admits).acc;
    ReleaseShape(b.s, b.left);
    assert UplinkRun.GoodRequest(r, w.up.bodies, w.up.acked);
  }

  /** A commit that applies nothing leaves ring, protocol position and history alone. */
  lemma QuietFinish(cfg: Config, w: World, worker: nat, admits: seq<bool>)
    requires GoodConfig(cfg) && worker in w.up.workers
    requires var r := w.up.workers[worker];
      var answer := UpFinishes(cfg, w.s, r.sequence, r.body, admits).1;
      !answer.Acked? && !answer.Aborted? && !answer.Crashed?
    ensures var w' := Commits(cfg, w, worker, admits);
      && w'.s.tombs == w.s.tombs && w'.s.closed == w.s.closed && w'.aborted == w.aborted
      && w'.up.up.lastSequence == w.up.up.lastSequence && w'.up.bodies == w.up.bodies
  {
    hide Readable, UpFinishes, Log, Hear, Refusals, Reached, Ends;
    var r := w.up.workers[worker];
    FinishCases(cfg, w.s, r.sequence, r.body, admits);
  }

  lemma CommitStaysBarred(cfg: Config, w: World, worker: nat, admits: seq<bool>)
    requires Coupled(cfg, w) && GoodConfig(cfg) && UplinkRun.Sound(w.up) && worker in w.up.workers
    requires NextIsBarred(cfg, w) && RingHolds(cfg, w, UpCommits(worker, admits))
    ensures NextIsBarred(cfg, Commits(cfg, w, worker, admits))
  {
    hide Inv, UpFinishes, Log, Hear, Refusals, Reached, RingHolds, Readable, Validate, Apply, Reserved;
    HeldRingIsRegular(cfg, w, worker, admits);
    var r := w.up.workers[worker];
    var answer := UpFinishes(cfg, w.s, r.sequence, r.body, admits).1;
    if answer.Aborted? {
      AbortBars(cfg, w, worker, admits);
    } else if w.aborted {
      QuietFinish(cfg, w, worker, admits);
      StaysBarred(cfg, w, Commits(cfg, w, worker, admits));
    }
  }

  /** What NextIsBarred looks at, before and after a step that commits nothing. */
  ghost predicate Undisturbed(w: World, w': World) {
    && w'.aborted == w.aborted
    && (!w'.s.closed ==> !w.s.closed && forall id | id in w.s.tombs :: id in w'.s.tombs)
    && w'.up.up.lastSequence == w.up.up.lastSequence && w.up.bodies <= w'.up.bodies
  }

  lemma SessionStepTombs(cfg: Config, s: State, id: nat, count: nat, data: Bytes)
    requires GoodConfig(cfg)
    ensures WriteTaken(s, id).tombs == s.tombs && WriteTaken(s, id).closed == s.closed
    ensures BackendDrained(cfg, s, id, count).0.tombs == s.tombs
    ensures BackendDrained(cfg, s, id, count).0.closed == s.closed
    ensures BackendWriteFinished(s, id).0.tombs == s.tombs && BackendWriteFinished(s, id).0.closed == s.closed
    ensures BackendData(cfg, s, id, data).0.tombs == s.tombs && BackendData(cfg, s, id, data).0.closed == s.closed
  {
    hide Drain, FinishWrite, Release, QueueFrame, PutUint32;
    ReleaseShape(s, Charge(count, 0));
    ReleaseShape(s, Charge(QUEUE_ITEM_COST, 1));
    if id in s.streams {
      if Drain(s.streams[id], count).Some? {
        QueueFrameShape(cfg,
                        Release(s, Charge(count, 0)).(streams := s.streams[id := Drain(s.streams[id], count).value]),
                        Frame(WINDOW, id, WindowPayload(count % TWO_32)));
      }
      QueueFrameShape(cfg, s.(streams := s.streams[id := SpendCredit(s.streams[id], |data|)]), Frame(DATA, id, data));
    }
  }

  lemma PollTombs(cfg: Config, s: State, poll: PollId, why: Wake)
    ensures SessionSteps.PollArrives(cfg, s, 0, poll).0.tombs == s.tombs
    ensures SessionSteps.PollArrives(cfg, s, 0, poll).0.closed == s.closed
    ensures 0 in s.lanes ==> var t := SessionSteps.PollWakes(cfg, s, 0, s.lanes[0].birth, poll, why).0;
      t.tombs == s.tombs && t.closed == s.closed
  {
    hide Enter, Resume, Acknowledged, LaneOver, Release, ChargeOf;
    if 0 in s.lanes {
      ReleaseShape(s, ChargeOf(Acknowledged(s.lanes[0].down, poll.cursor)));
    }
  }

  lemma UpBeginTombs(s: State, sequence: nat, body: Bytes)
    ensures UpBegins(s, sequence, body).0.tombs == s.tombs && UpBegins(s, sequence, body).0.closed == s.closed
  {
  }

  lemma ForgetsNothing(cfg: Config, app: seq<Frame>, w: World, e: Event)
    requires Sound(cfg, app, w) && GoodConfig(cfg) && AllFit(app, MAX_PAYLOAD) && Roomy(cfg, app) && !e.UpCommits?
    ensures Undisturbed(w, Step(cfg, app, w, e))
  {
    hide Sound, UpBegins, SessionSteps.PollArrives, SessionSteps.PollWakes, WriteTaken, BackendDrained;
    hide BackendWriteFinished, BackendData, BackendClosed, CloseSession, Hear, DownlinkRun.Step, EncodeAll, Take, Roomy;
    hide Commits, CellOf, Of, Uplink.Admit;
    match e
    case UpArrives(r) => UpBeginTombs(w.s, r.sequence, r.body);
    case PollArrives(cursor) => PollTombs(cfg, w.s, PollId(w.down.nextToken, cursor), ContextDone);
    case PollWakes(poll, why) => PollTombs(cfg, w.s, poll, why);
    case TakeWrite(id) => SessionStepTombs(cfg, w.s, id, 0, []);
    case SocketWrites(id, count) => SessionStepTombs(cfg, w.s, id, count, []);
    case WriteFinishes(id) => SessionStepTombs(cfg, w.s, id, 0, []);
    case ReadData(id, data) => SessionStepTombs(cfg, w.s, id, 0, data);
    case BackendGone(id, backend) => GoneForgetsNothing(cfg, app, w, id, backend);
    case Closes => ClosedKeepsTombs(w.s);
    case _ =>
  }

  lemma StepStaysBarred(cfg: Config, app: seq<Frame>, w: World, e: Event)
    requires Sound(cfg, app, w) && GoodConfig(cfg) && AllFit(app, MAX_PAYLOAD) && Roomy(cfg, app)
    requires NextIsBarred(cfg, w) && RingHolds(cfg, w, e)
    ensures NextIsBarred(cfg, Step(cfg, app, w, e))
  {
    hide Roomy, Commits, NextIsBarred, Coupled, UplinkRun.Sound, DownlinkRun.Sound, AllTold, Upstream, Downstream;
    hide RingHolds, UplinkRun.Step, DownStep, UplinkRun.Arrive, EncodeAll;
    if e.UpCommits? {
      if e.worker in w.up.workers {
        CommitStaysBarred(cfg, w, e.worker, e.admits);
      } else {
        NobodyCommits(cfg, w, e.worker, e.admits);
      }
    } else {
      ForgetsNothing(cfg, app, w, e);
      UndisturbedStaysBarred(cfg, w, Step(cfg, app, w, e));
    }
  }

  lemma NobodyCommits(cfg: Config, w: World, worker: nat, admits: seq<bool>)
    requires GoodConfig(cfg) && worker !in w.up.workers
    ensures Commits(cfg, w, worker, admits) == w
  {
  }

  lemma UndisturbedStaysBarred(cfg: Config, w: World, w': World)
    requires NextIsBarred(cfg, w) && Undisturbed(w, w')
    ensures NextIsBarred(cfg, w')
  {
    StaysBarred(cfg, w, w');
  }

  /** The ring has held so far, so it holds for the next step. */
  lemma RoomyRingHolds(cfg: Config, app: seq<Frame>, w: World, e: Event)
    requires Sound(cfg, app, w) && GoodConfig(cfg) && Roomy(cfg, app) && NextIsBarred(cfg, w)
    ensures RingHolds(cfg, w, e)
  {
    hide Coupled, UplinkRun.Sound, DownlinkRun.Sound, AllTold, Downstream, Roomy, Readable, Validate, LosesSome;
    hide EncodeAll, Flatten, Remembers, TrialOf;
    if e.UpCommits? && e.worker in w.up.workers && !w.s.closed {
      var r := w.up.workers[e.worker];
      NextBodyIsHeld(w.up, e.worker);
      if Readable(cfg, r.body).Some? && |e.admits| == |Readable(cfg, r.body).value| && !w.aborted {
        RoomForBatch(cfg, app, w, e.worker, Readable(cfg, r.body).value, e.admits);
      }
    }
  }

  /** The handler between the locks holds the body that comes next. */
  lemma NextBodyIsHeld(n: UplinkRun.Net, worker: nat)
    requires UplinkRun.Sound(n) && worker in n.workers
    ensures n.up.lastSequence < |n.bodies| && n.workers[worker].body == n.bodies[n.up.lastSequence]
  {
    assert UplinkRun.GoodRequest(n.workers[worker], n.bodies, n.acked);
  }

  lemma RoomForBatch(cfg: Config, app: seq<Frame>, w: World, worker: nat, frames: seq<Frame>, admits: seq<bool>)
    requires Sound(cfg, app, w) && GoodConfig(cfg) && Roomy(cfg, app) && !w.aborted && worker in w.up.workers
    requires Readable(cfg, w.up.workers[worker].body) == Some(frames) && |admits| == |frames|
    ensures Validate(TrialOf(w.s), frames).Some? ==> !LosesSome(cfg, IdsOf(w.s), frames, admits)
  {
    hide Inv, UplinkRun.Sound, DownlinkRun.Sound, AllTold, Downstream, EncodeAll, Flatten, Readable, Closings;
    hide LosesSome, Validate, TrialOf;
    NextFramesAreApps(cfg, app, w, worker, frames);
    TombsWithinClosings(cfg, app, w);
    ClosingsAppend(w.frames, frames);
    ClosingsOfPrefix(w.frames + frames, app);
    StartTracked(w.s);
    if Validate(TrialOf(w.s), frames).Some? {
      RoomLosesNothing(cfg, TrialOf(w.s), IdsOf(w.s), frames, admits);
    }
  }

  /**
   * A client whose OPEN and CLOSE frames together number at most MaxClosedStreamIDs is safe in every
   * run: no commit crashes, and a body whose apply stopped halfway is never applied again.
   */
  lemma {:induction false} RoomForAppIsEnough(cfg: Config, pool: Charge, app: seq<Frame>, events: seq<Event>)
    requires Setting(cfg, pool, app) && Roomy(cfg, app)
    ensures RingLasts(cfg, pool, app, events)
    ensures NextIsBarred(cfg, Run(cfg, pool, app, events))
  {
    hide Step, RingHolds, Start, OpensOnce, Roomy, Sound;
    if |events| == 0 {
      NothingAborted(cfg, pool);
    } else {
      var before, e := events[..|events| - 1], events[|events| - 1];
      RoomForAppIsEnough(cfg, pool, app, before);
      RunSound(cfg, pool, app, before);
      RoomyRingHolds(cfg, app, Run(cfg, pool, app, before), e);
      StepStaysBarred(cfg, app, Run(cfg, pool, app, before), e);
    }
  }

  lemma NothingAborted(cfg: Config, pool: Charge)
    ensures NextIsBarred(cfg, Start(cfg, pool))
  {
  }

  /** The app has room in the ring for all its streams, or the ring lasts anyway. */
  ghost predicate Sheltered(cfg: Config, pool: Charge, app: seq<Frame>, events: seq<Event>)
    requires GoodConfig(cfg) && AllFit(app, MAX_PAYLOAD)
  {
    Roomy(cfg, app) || RingLasts(cfg, pool, app, events)
  }

  lemma ShelteredSound(cfg: Config, pool: Charge, app: seq<Frame>, events: seq<Event>)
    requires Setting(cfg, pool, app) && Sheltered(cfg, pool, app, events)
    ensures Sound(cfg, app, Run(cfg, pool, app, events))
  {
    hide Sound, RingLasts, Run, OpensOnce, Roomy;
    if Roomy(cfg, app) {
      RoomForAppIsEnough(cfg, pool, app, events);
    }
    RunSound(cfg, pool, app, events);
  }

  /**
   * Nothing the app sends takes effect twice, also where an apply stops halfway: the frames put into
   * effect are a prefix of the app's own, and hold all those of the bodies committed. No body is
   * applied after one that stopped halfway.
   */
  lemma FramesTakeEffectOnce(cfg: Config, pool: Charge, app: seq<Frame>, events: seq<Event>)
    requires Setting(cfg, pool, app) && Sheltered(cfg, pool, app, events)
    ensures var w := Run(cfg, pool, app, events);
      && w.frames <= app && Flatten(w.up.applied) <= EncodeAll(w.frames)
      && (!w.aborted ==> Flatten(w.up.applied) == EncodeAll(w.frames))
      && UplinkRun.HaltsLast(w.up.effects)
  {
    hide Sound, Run, Sheltered;
    ShelteredSound(cfg, pool, app, events);
    SoundMeans(cfg, app, Run(cfg, pool, app, events), 0);
  }

  /**
   * From the app to a backend's socket: however the bridge packs and resends, whatever the network
   * loses, delays, repeats or reorders, however the session coalesces, backs up, refuses or closes,
   * the bytes written to a stream's socket are a prefix of the DATA the app sent for that stream.
   */
  lemma BackendGetsPrefixOfApp(cfg: Config, pool: Charge, app: seq<Frame>, events: seq<Event>, id: nat)
    requires Setting(cfg, pool, app) && Sheltered(cfg, pool, app, events)
    ensures var tale := Of(Run(cfg, pool, app, events).tales, id);
      && tale.written <= DataOf(app, id)
      && (tale.phase.Writing? ==> tale.written + tale.phase.left <= DataOf(app, id))
  {
    hide Sound, Run, Sheltered, DataOf, OpenedIn;
    ShelteredSound(cfg, pool, app, events);
    SoundMeans(cfg, app, Run(cfg, pool, app, events), id);
  }

  /** And the other way: the bytes the app is given for a stream are a prefix of what its backend sent. */
  lemma AppGetsPrefixOfBackend(cfg: Config, pool: Charge, app: seq<Frame>, events: seq<Event>, id: nat)
    requires Setting(cfg, pool, app) && Sheltered(cfg, pool, app, events)
    ensures var w := Run(cfg, pool, app, events);
      PayloadOf(Expand(Flatten(w.down.posted)), id) <= Of(w.tales, id).fromBackend
  {
    hide Sound, Run, Sheltered, DataOf, OpenedIn, Expand, Flatten, DownlinkRun.Sound, Accounted;
    ShelteredSound(cfg, pool, app, events);
    var w := Run(cfg, pool, app, events);
    SoundMeans(cfg, app, w, id);
    DownlinkRun.PostedPrefix(w.down, id);
    PayloadOfPrefix(Expand(Flatten(w.down.posted)), Expand(w.down.pushed), id);
  }

  lemma PayloadOfPrefix(a: seq<Item>, b: seq<Item>, id: nat)
    requires a <= b
    ensures PayloadOf(a, id) <= PayloadOf(b, id)
  {
    hide PayloadOf;
    assert b == a + b[|a|..];
    PayloadOfAppend(a, b[|a|..], id);
  }

  lemma WindowTotalOfPrefix(a: seq<Frame>, b: seq<Frame>, id: nat)
    requires a <= b
    ensures WindowTotal(a, id) <= WindowTotal(b, id)
  {
    hide WindowTotal;
    assert b == a + b[|a|..];
    WindowTotalAppend(a, b[|a|..], id);
  }

  lemma SoundGrants(cfg: Config, app: seq<Frame>, w: World, id: nat)
    requires Sound(cfg, app, w)
    ensures |Of(w.tales, id).queued| <= INITIAL_STREAM_WINDOW + WindowTotal(w.frames, id)
    ensures id in w.s.streams ==> WithinGrants(w.s.streams[id], Of(w.tales, id), w.frames, id)
  {
    hide Inv, UplinkRun.Sound, DownlinkRun.Sound, Accounted, DataOf, OpenedIn, EncodeAll, Flatten, WindowTotal;
    hide WithinGrants, Downstream;
    assert Told(w.s, w.tales, w.frames, id);
  }

  /**
   * The app's flow control holds end to end: what a live stream may still send and what has been queued
   * for it never exceed the initial window and the WINDOW frames applied, so the app is never given more
   * of a stream than the window and its own WINDOW frames allow.
   */
  lemma AppIsNeverOversent(cfg: Config, pool: Charge, app: seq<Frame>, events: seq<Event>, id: nat)
    requires Setting(cfg, pool, app) && Sheltered(cfg, pool, app, events)
    ensures var w := Run(cfg, pool, app, events);
      && (id in w.s.streams ==>
            w.s.streams[id].sendCredit + |Of(w.tales, id).queued| <= INITIAL_STREAM_WINDOW + WindowTotal(w.frames, id))
      && |PayloadOf(Expand(Flatten(w.down.posted)), id)| <= INITIAL_STREAM_WINDOW + WindowTotal(app, id)
  {
    hide Sound, Run, Sheltered, DataOf, OpenedIn, Expand, Flatten, DownlinkRun.Sound, Accounted, WindowTotal, PayloadOf;
    ShelteredSound(cfg, pool, app, events);
    var w := Run(cfg, pool, app, events);
    SoundMeans(cfg, app, w, id);
    SoundGrants(cfg, app, w, id);
    DownlinkRun.PostedPrefix(w.down, id);
    PayloadOfPrefix(Expand(Flatten(w.down.posted)), Expand(w.down.pushed), id);
    WindowTotalOfPrefix(w.frames, app, id);
  }

  /**
   * Nothing is held back: once all the app's bytes are applied and a live stream's buffer is empty, its
   * socket has them all.
   */
  lemma QuietMeansAllDelivered(cfg: Config, pool: Charge, app: seq<Frame>, events: seq<Event>, id: nat)
    requires Setting(cfg, pool, app) && Sheltered(cfg, pool, app, events)
    ensures var w := Run(cfg, pool, app, events);
      && !w.aborted && Flatten(w.up.applied) == EncodeAll(app)
      && id in w.s.streams && !Of(w.tales, id).phase.Stopped? && w.s.streams[id].pendingWriteBytes == 0
      ==> Of(w.tales, id).written == DataOf(app, id)
  {
    hide Sound, Run, Sheltered, DataOf, OpenedIn, EncodeAll;
    ShelteredSound(cfg, pool, app, events);
    var w := Run(cfg, pool, app, events);
    SoundMeans(cfg, app, w, id);
    if id in w.s.streams && !Of(w.tales, id).phase.Stopped? && w.s.streams[id].pendingWriteBytes == 0 {
      NothingUnwritten(CellOf(w.s, w.tales, id));
    }
  }

  lemma NothingUnwritten(c: Cell)
    requires Accounted(c) && c.stream.Some? && !c.phase.Stopped? && c.stream.value.pendingWriteBytes == 0
    ensures c.written == c.accepted
  {
    hide Flatten;
    assert InFlight(c.phase) + Flatten(c.stream.value.writes) == [];
  }
}

/** Many sessions sharing the manager's pending pool. */
module PoolRun {
  import opened Octets
  import opened Frames
  import opened Limits
  import opened Charges
  import opened Queue
  import opened Streams
  import opened Tombstones
  import opened Poll
  import opened Uplink
  import opened SessionState
  import opened Batch
  import opened BatchLaws
  import opened SessionSteps

  function PoolCap(l: Limits): Charge {
    Charge(l.maxPendingGlobal, l.maxPendingItemsGlobal)
  }

  ghost predicate WritesCounted(s: State) {
    forall id | id in s.streams :: NOTHING.Within(WriteCharge(s.streams[id]))
  }

  /**
   * What a session may do to the two counters: it moves them together, and raises neither past its
   * limit.
   */
  ghost predicate Fair(cfg: Config, s: State, t: State) {
    && t.pool.Minus(t.pending) == s.pool.Minus(s.pending)
    && (s.pending.Within(SessionCap(cfg.limits)) ==> t.pending.Within(SessionCap(cfg.limits)))
    && (s.pool.Within(PoolCap(cfg.global)) ==> t.pool.Within(PoolCap(cfg.global)))
  }

  ghost predicate FairStep(cfg: Config, s: State, t: State) {
    WritesCounted(s) ==> Fair(cfg, s, t) && WritesCounted(t)
  }

  lemma FairTrans(cfg: Config, s: State, t: State, u: State)
    requires FairStep(cfg, s, t) && FairStep(cfg, t, u)
    ensures FairStep(cfg, s, u)
  {
    hide WritesCounted, SessionCap, PoolCap;
  }

  /** Everything but the counters, the streams' charges and the panic flag is free to change. */
  lemma SameCounters(cfg: Config, s: State, t: State)
    requires t.pending == s.pending && t.pool == s.pool && t.streams == s.streams
    ensures FairStep(cfg, s, t)
  {
  }

  lemma ReserveFair(cfg: Config, s: State, want: Charge, purpose: Class)
    requires GoodConfig(cfg)
    ensures Reserve(cfg, s, want, purpose).Some? ==> FairStep(cfg, s, Reserve(cfg, s, want, purpose).value)
  {
    hide WritesCounted, ControlReserve, UplinkReserve;
    var r := Reserve(cfg, s, want, purpose);
    if r.Some? {
      assert WritesCounted(s) ==> WritesCounted(r.value) by {
        SameWrites(s, r.value);
      }
      PoolLimitWithin(cfg.global, purpose);
      SessionLimitWithin(cfg.limits, purpose);
      hide PoolLimits, ClassLimits;
    }
  }

  lemma SameWrites(s: State, t: State)
    requires s.streams == t.streams
    ensures WritesCounted(s) ==> WritesCounted(t)
  {
  }

  lemma PoolLimitWithin(l: Limits, purpose: Class)
    requires Sane(l)
    ensures PoolLimits(l, purpose).Within(PoolCap(l))
  {
    var reserve := ControlReserve(l);
    hide ControlReserve;
    assert reserve.cost * l.maxSessionsGlobal >= 0 && reserve.items * l.maxSessionsGlobal >= 0;
  }

  lemma SessionLimitWithin(l: Limits, purpose: Class)
    requires Sane(l)
    ensures ClassLimits(l, purpose).Within(SessionCap(l))
  {
    UplinkReservePositive(l);
    hide ControlReserve, UplinkReserve;
  }

  lemma UplinkReservePositive(l: Limits)
    requires Sane(l)
    ensures UplinkReserve(l).cost >= 0 && UplinkReserve(l).items >= 0
  {
  }

  lemma ReleaseFair(cfg: Config, s: State, c: Charge)
    requires c.cost >= 0 && c.items >= 0
    ensures FairStep(cfg, s, Release(s, c))
  {
    SameWrites(s, Release(s, c));
    hide WritesCounted;
  }

  lemma SetStreamFair(cfg: Config, s: State, id: nat, st: Stream)
    requires WritesCounted(s) ==> NOTHING.Within(WriteCharge(st))
    ensures FairStep(cfg, s, s.(streams := s.streams[id := st]))
  {
  }

  lemma RemoveStreamFair(cfg: Config, s: State, id: nat)
    ensures FairStep(cfg, s, s.(streams := s.streams - {id}))
  {
  }

  lemma QueueFrameFair(cfg: Config, s: State, f: Frame)
    requires GoodConfig(cfg)
    ensures QueueFrame(cfg, s, f).Some? ==> FairStep(cfg, s, QueueFrame(cfg, s, f).value)
  {
    hide FairStep, Reserve, Place, Push;
    var k, limit := cfg.LaneOf(f.id), cfg.limits.maxFramePayload;
    if k in s.lanes && QueueFrame(cfg, s, f).Some? {
      var q := s.lanes[k].down.queue;
      var t := QueueFrame(cfg, s, f).value;
      if Place(q, f, limit).MergeWindow? {
        SameCounters(cfg, s, t);
      } else {
        ReserveFair(cfg, s, PushCharge(q, f, limit), PushClass(f));
        var r := Reserve(cfg, s, PushCharge(q, f, limit), PushClass(f)).value;
        SameCounters(cfg, r, t);
        FairTrans(cfg, s, r, t);
      }
    }
  }

  lemma LaneChargeNonnegative(lane: Lane)
    ensures LaneCharge(lane).cost >= 0 && LaneCharge(lane).items >= 0
  {
    ChargeOfNonnegative(lane.down.queue);
    ChargeOfNonnegative(lane.down.unacked);
    hide ChargeOf;
  }

  lemma DropLaneFair(cfg: Config, s: State, k: nat)
    ensures FairStep(cfg, s, DropLane(s, k))
  {
    hide FairStep, LaneCharge, Release;
    if k in s.lanes {
      LaneChargeNonnegative(s.lanes[k]);
      var r := Release(s, LaneCharge(s.lanes[k]));
      ReleaseFair(cfg, s, LaneCharge(s.lanes[k]));
      SameCounters(cfg, r, DropLane(s, k));
      FairTrans(cfg, s, r, DropLane(s, k));
    } else {
      SameCounters(cfg, s, s);
    }
  }

  lemma RememberClosedFair(cfg: Config, s: State, id: nat)
    requires GoodConfig(cfg)
    ensures FairStep(cfg, s, RememberClosed(cfg, s, id))
  {
    hide FairStep, DropLane, Remember, Evicted;
    var cap := cfg.limits.maxClosedStreamIDs;
    var remembered := s.(tombs := Remember(s.tombs, id, cap));
    SameCounters(cfg, s, remembered);
    match Evicted(s.tombs, id, cap)
    case Some(oldest) =>
      DropLaneFair(cfg, remembered, oldest);
      FairTrans(cfg, s, remembered, DropLane(remembered, oldest));
    case None =>
  }

  lemma CloseStreamFair(cfg: Config, s: State, id: nat)
    requires GoodConfig(cfg) && id in s.streams
    ensures FairStep(cfg, s, CloseStream(cfg, s, id))
  {
    hide RememberClosed, Release, Fair;
    if WritesCounted(s) {
      var r := Release(s, WriteCharge(s.streams[id]));
      ReleaseFair(cfg, s, WriteCharge(s.streams[id]));
      ReleaseShape(s, WriteCharge(s.streams[id]));
      var u := r.(streams := s.streams - {id});
      RemoveStreamFair(cfg, r, id);
      RememberClosedFair(cfg, u, id);
      hide FairStep, WritesCounted;
      FairTrans(cfg, s, r, u);
      FairTrans(cfg, s, u, CloseStream(cfg, s, id));
    }
  }

  lemma CloseSessionFair(cfg: Config, s: State, held: Charge)
    requires Inv(cfg, s, held)
    ensures FairStep(cfg, s, CloseSession(s))
  {
    hide Charged, Structured;
    if s.closed {
      SameCounters(cfg, s, s);
    } else {
      PanicOff(cfg, s, held);
      ChargesNonnegative(cfg, s);
    }
  }

  lemma OpenFrameFair(cfg: Config, a: Acc, f: Frame, admit: bool)
    requires GoodConfig(cfg)
    ensures match OpenFrame(cfg, a, f, admit)
      case Going(a') => FairStep(cfg, a.s, a'.s)
      case Aborted(a') => FairStep(cfg, a.s, a'.s)
      case NilStream => true
  {
    hide FairStep, QueueFrame, RememberClosed;
    var r := RememberClosed(cfg, a.s, f.id);
    RememberClosedFair(cfg, a.s, f.id);
    QueueFrameFair(cfg, r, Frame(CLOSE, f.id, []));
    if QueueFrame(cfg, r, Frame(CLOSE, f.id, [])).Some? {
      FairTrans(cfg, a.s, r, QueueFrame(cfg, r, Frame(CLOSE, f.id, [])).value);
    }
    var st := NewStream(a.s.nextBackend);
    var entered := a.s.(streams := a.s.streams[f.id := st]);
    SetStreamFair(cfg, a.s, f.id, st);
    SameCounters(cfg, entered, entered.(nextBackend := a.s.nextBackend + 1));
    FairTrans(cfg, a.s, entered, entered.(nextBackend := a.s.nextBackend + 1));
  }

  lemma ApplyFrameFair(cfg: Config, a: Acc, f: Frame, admit: bool)
    requires GoodConfig(cfg)
    ensures match ApplyFrame(cfg, a, f, admit)
      case Going(a') => FairStep(cfg, a.s, a'.s)
      case Aborted(a') => FairStep(cfg, a.s, a'.s)
      case NilStream => true
  {
    hide Fair, OpenFrame, CloseStream, AcceptData, AddCredit;
    OpenFrameFair(cfg, a, f, admit);
    SameCounters(cfg, a.s, a.s);
    if f.id in a.s.streams {
      var st := a.s.streams[f.id];
      AcceptCharges(st, f.payload);
      CreditKeepsCharge(st, Amount(f.payload));
      SetStreamFair(cfg, a.s, f.id, AcceptData(st, f.payload));
      SetStreamFair(cfg, a.s, f.id, AddCredit(st, Amount(f.payload)));
      CloseStreamFair(cfg, a.s, f.id);
    }
  }

  lemma AcceptCharges(st: Stream, payload: Bytes)
    ensures NOTHING.Within(WriteCharge(st)) ==> NOTHING.Within(WriteCharge(AcceptData(st, payload)))
  {
  }

  lemma {:induction false} ApplyFair(cfg: Config, a: Acc, frames: seq<Frame>, admits: seq<bool>)
    requires GoodConfig(cfg) && |admits| == |frames|
    ensures match Apply(cfg, a, frames, admits)
      case Going(a') => FairStep(cfg, a.s, a'.s)
      case Aborted(a') => FairStep(cfg, a.s, a'.s)
      case NilStream => true
    decreases |frames|
  {
    hide FairStep, ApplyFrame;
    if |frames| == 0 {
      SameCounters(cfg, a.s, a.s);
    } else {
      ApplyFrameFair(cfg, a, frames[0], admits[0]);
      match ApplyFrame(cfg, a, frames[0], admits[0])
      case Going(b) =>
        ApplyFair(cfg, b, frames[1..], admits[1..]);
        match Apply(cfg, b, frames[1..], admits[1..]) {
          case Going(c) => FairTrans(cfg, a.s, b.s, c.s);
          case Aborted(c) => FairTrans(cfg, a.s, b.s, c.s);
          case NilStream =>
        }
      case _ =>
    }
  }

  lemma ReservedFair(cfg: Config, s: State, frames: seq<Frame>)
    requires GoodConfig(cfg)
    ensures Reserved(cfg, s, frames).Some? ==> FairStep(cfg, s, Reserved(cfg, s, frames).value.s)
  {
    hide FairStep, Reserve, Reservation;
    SameCounters(cfg, s, s);
    ReserveFair(cfg, s, ReservationFor(s, frames), Uplink);
  }

  lemma SetUpFair(cfg: Config, s: State, k: nat, up: Up)
    ensures FairStep(cfg, s, SetUp(s, k, up))
  {
    SameCounters(cfg, s, SetUp(s, k, up));
  }

  lemma AfterApplyFair(cfg: Config, s: State, a: Acc, b: Acc)
    requires FairStep(cfg, s, a.s) && FairStep(cfg, a.s, b.s) && b.left.cost >= 0 && b.left.items >= 0
    ensures FairStep(cfg, s, Release(b.s, b.left))
  {
    hide FairStep, Release;
    ReleaseFair(cfg, b.s, b.left);
    FairTrans(cfg, s, a.s, b.s);
    FairTrans(cfg, s, b.s, Release(b.s, b.left));
  }

  lemma ReceiveFair(cfg: Config, s: State, k: nat, sequence: nat, body: Bytes, frames: seq<Frame>, admits: seq<bool>)
    requires Inv(cfg, s, NOTHING) && !s.closed && |admits| == |frames|
    requires AllFit(frames, MAX_PAYLOAD) && LanesReady(cfg, s, frames)
    ensures FairStep(cfg, s, Receive(cfg, s, k, sequence, body, frames, admits).0)
  {
    hide Inv, FairStep, Validate, Apply, Release, SetUp, LosesSome, LanesReady, Reserved;
    PanicOff(cfg, s, NOTHING);
    SameCounters(cfg, s, s);
    SameCounters(cfg, s, s.(panicked := true));
    if Validate(TrialOf(s), frames).Some? && Reserved(cfg, s, frames).Some? {
      var a := Reserved(cfg, s, frames).value;
      ReservedFair(cfg, s, frames);
      ApplyFair(cfg, a, frames, admits);
      ValidatedBatchApplies(cfg, s, a, frames, admits);
      match Apply(cfg, a, frames, admits)
      case NilStream =>
      case Aborted(b) =>
        HeldNonnegative(cfg, b.s, b.left);
        AfterApplyFair(cfg, s, a, b);
      case Going(b) =>
        HeldNonnegative(cfg, b.s, b.left);
        AfterApplyFair(cfg, s, a, b);
        var settled := Release(b.s, b.left);
        var up := if k in settled.lanes then Commit(settled.lanes[k].up, sequence, body, true) else NEW_UP;
        SetUpFair(cfg, settled, k, up);
        FairTrans(cfg, s, settled, SetUp(settled, k, up));
    }
  }

  lemma FinishesFair(cfg: Config, s: State, sequence: nat, body: Bytes, admits: seq<bool>)
    requires Inv(cfg, s, NOTHING) && !cfg.UsesLanes()
    ensures FairStep(cfg, s, UpFinishes(cfg, s, sequence, body, admits).0)
  {
    hide Inv, FairStep, Readable, Receive;
    LaneFacts(cfg, s, NOTHING);
    var up := s.lanes[0].up.(active := false);
    var s1 := SetUp(s, 0, up);
    SetUpInv(cfg, s, 0, up, NOTHING);
    SetUpFair(cfg, s, 0, up);
    ReadableFits(cfg, body);
    if !s.closed && Readable(cfg, body).Some? && |admits| == |Readable(cfg, body).value| {
      var frames := Readable(cfg, body).value;
      ReceiveFair(cfg, s1, 0, sequence, body, frames, admits);
      FairTrans(cfg, s, s1, Receive(cfg, s1, 0, sequence, body, frames, admits).0);
    }
  }

  lemma OpenLaneFair(cfg: Config, s: State, k: nat, sequence: nat, body: Bytes, frames: seq<Frame>, admits: seq<bool>)
    requires Inv(cfg, s, NOTHING) && !s.closed && |admits| == |frames| && k in s.lanes && cfg.UsesLanes()
    requires AllFit(frames, MAX_PAYLOAD) && AllOn(frames, k)
    ensures FairStep(cfg, s, UpOnOpenLane(cfg, s, k, sequence, body, frames, admits).0)
  {
    hide Inv, FairStep, Receive;
    PanicOff(cfg, s, NOTHING);
    SameCounters(cfg, s, s);
    if Admit(s.lanes[k].up, sequence, body).Begin? {
      assert LanesReady(cfg, s, frames);
      ReceiveFair(cfg, s, k, sequence, body, frames, admits);
    }
  }

  lemma UpOnLaneFair(cfg: Config, s: State, k: nat, sequence: nat, body: Bytes, admits: seq<bool>)
    requires Inv(cfg, s, NOTHING) && cfg.UsesLanes()
    ensures FairStep(cfg, s, UpOnLane(cfg, s, k, sequence, body, admits).0)
  {
    hide Inv, FairStep, Readable, UpOnOpenLane, AddLane, OnlyLate, AllOn;
    ReadableFits(cfg, body);
    SameCounters(cfg, s, s);
    if Readable(cfg, body).Some? && !s.closed {
      var frames := Readable(cfg, body).value;
      if AllOn(frames, k) && |admits| == |frames| {
        if k in s.lanes {
          OpenLaneFair(cfg, s, k, sequence, body, frames, admits);
        } else {
          var s1 := AddLane(s, k);
          PanicOff(cfg, s, NOTHING);
          AddLaneInv(cfg, s, k, NOTHING);
          AddLaneShape(s, k);
          AddLaneFair(cfg, s, k);
          OpenLaneFair(cfg, s1, k, sequence, body, frames, admits);
          FairTrans(cfg, s, s1, UpOnOpenLane(cfg, s1, k, sequence, body, frames, admits).0);
        }
      }
    }
  }

  lemma AddLaneFair(cfg: Config, s: State, k: nat)
    ensures FairStep(cfg, s, AddLane(s, k))
  {
    SameCounters(cfg, s, AddLane(s, k));
  }

  lemma PollArrivesFair(cfg: Config, s: State, k: nat, poll: PollId)
    ensures FairStep(cfg, s, PollArrives(cfg, s, k, poll).0)
  {
    hide FairStep, Enter, Acknowledged, LaneOver, Release, ChargeOf;
    SameCounters(cfg, s, s);
    if !s.closed && k in s.lanes {
      var c := ChargeOf(Acknowledged(s.lanes[k].down, poll.cursor));
      ChargeOfNonnegative(Acknowledged(s.lanes[k].down, poll.cursor));
      ReleaseFair(cfg, s, c);
      ReleaseShape(s, c);
      var t := PollArrives(cfg, s, k, poll).0;
      SameCounters(cfg, Release(s, c), t);
      FairTrans(cfg, s, Release(s, c), t);
    }
  }

  lemma DrainedFair(cfg: Config, s: State, id: nat, amount: int)
    requires Inv(cfg, s, NOTHING)
    ensures FairStep(cfg, s, BackendDrained(cfg, s, id, amount).0)
  {
    hide Inv, FairStep, Drain, Release, QueueFrame, WriteCharge, Balanced, PutUint32;
    PanicOff(cfg, s, NOTHING);
    SameCounters(cfg, s, s);
    if !s.closed && id in s.streams && Drain(s.streams[id], amount).Some? {
      StreamFacts(cfg, s, NOTHING);
      var c, st := Charge(amount, 0), Drain(s.streams[id], amount).value;
      DrainCharge(s.streams[id], amount);
      BalancedCharge(st);
      ReleaseFair(cfg, s, c);
      ReleaseShape(s, c);
      var r := Release(s, c);
      var drained := r.(streams := s.streams[id := st]);
      SetStreamFair(cfg, r, id, st);
      FairTrans(cfg, s, r, drained);
      var f := Frame(WINDOW, id, WindowPayload(amount % TWO_32));
      QueueFrameFair(cfg, drained, f);
      if QueueFrame(cfg, drained, f).Some? {
        FairTrans(cfg, s, drained, QueueFrame(cfg, drained, f).value);
      }
    }
  }

  lemma BalancedCharge(st: Stream)
    requires Balanced(st)
    ensures NOTHING.Within(WriteCharge(st))
  {
  }

  lemma WriteFinishedFair(cfg: Config, s: State, id: nat)
    requires Inv(cfg, s, NOTHING)
    ensures FairStep(cfg, s, BackendWriteFinished(s, id).0)
  {
    hide Inv, FairStep, FinishWrite, Release, WriteCharge, Balanced;
    SameCounters(cfg, s, s);
    if !s.closed && id in s.streams && FinishWrite(s.streams[id]).Some? {
      StreamFacts(cfg, s, NOTHING);
      var c, st := Charge(QUEUE_ITEM_COST, 1), FinishWrite(s.streams[id]).value;
      FinishCharge(s.streams[id]);
      BalancedCharge(st);
      ReleaseFair(cfg, s, c);
      ReleaseShape(s, c);
      SetStreamFair(cfg, Release(s, c), id, st);
      FairTrans(cfg, s, Release(s, c), Release(s, c).(streams := s.streams[id := st]));
    }
  }

  lemma ReadDataFair(cfg: Config, s: State, id: nat, data: Bytes)
    requires Inv(cfg, s, NOTHING)
    ensures FairStep(cfg, s, BackendData(cfg, s, id, data).0)
  {
    hide Inv, FairStep, QueueFrame, WriteCharge, Balanced, SpendCredit;
    PanicOff(cfg, s, NOTHING);
    SameCounters(cfg, s, s);
    if !s.closed && id in s.streams {
      StreamFacts(cfg, s, NOTHING);
      var st := SpendCredit(s.streams[id], |data|);
      SpendKeeps(s.streams[id], |data|);
      BalancedCharge(st);
      var spent, f := s.(streams := s.streams[id := st]), Frame(DATA, id, data);
      SetStreamFair(cfg, s, id, st);
      QueueFrameFair(cfg, spent, f);
      if QueueFrame(cfg, spent, f).Some? {
        FairTrans(cfg, s, spent, QueueFrame(cfg, spent, f).value);
      }
    }
  }

  lemma TakeWriteFair(cfg: Config, s: State, id: nat)
    requires Inv(cfg, s, NOTHING)
    ensures FairStep(cfg, s, WriteTaken(s, id))
  {
    hide Inv, FairStep;
    SameCounters(cfg, s, s);
    if !s.closed && id in s.streams && s.streams[id].writes != [] {
      StreamFacts(cfg, s, NOTHING);
      SetStreamFair(cfg, s, id, PopWrite(s.streams[id]));
    }
  }

  lemma BackendClosedFair(cfg: Config, s: State, id: nat, backend: int)
    requires Inv(cfg, s, NOTHING)
    ensures FairStep(cfg, s, BackendClosed(cfg, s, id, backend))
  {
    hide Inv, FairStep, QueueFrame, CloseStream, CloseSession;
    PanicOff(cfg, s, NOTHING);
    SameCounters(cfg, s, s);
    if !s.closed && id in s.streams {
      var gone, f := CloseStream(cfg, s, id), Frame(CLOSE, id, []);
      CloseStreamInv(cfg, s, id, NOTHING);
      CloseStreamFair(cfg, s, id);
      CloseSessionFair(cfg, gone, NOTHING);
      QueueFrameFair(cfg, gone, f);
      FairTrans(cfg, s, gone, CloseSession(gone));
      if QueueFrame(cfg, gone, f).Some? {
        FairTrans(cfg, s, gone, QueueFrame(cfg, gone, f).value);
      }
    }
  }

  lemma LaneReleasedFair(cfg: Config, s: State, k: nat)
    requires GoodConfig(cfg)
    ensures FairStep(cfg, s, LaneReleased(cfg, s, k))
  {
    hide FairStep, CloseStream, DropLane;
    SameCounters(cfg, s, s);
    DropLaneFair(cfg, s, k);
    if k in s.streams {
      CloseStreamFair(cfg, s, k);
      DropLaneFair(cfg, CloseStream(cfg, s, k), k);
      FairTrans(cfg, s, CloseStream(cfg, s, k), DropLane(CloseStream(cfg, s, k), k));
    }
  }

  lemma LaneAcquiredFair(cfg: Config, s: State, k: nat)
    ensures FairStep(cfg, s, LaneAcquired(cfg, s, k).0)
  {
    hide FairStep;
    SameCounters(cfg, s, LaneAcquired(cfg, s, k).0);
  }

  /** A session's own steps, whatever they are. */
  lemma StepFair(cfg: Config, s: State, e: Event)
    requires Inv(cfg, s, NOTHING) && !e.OthersMovePool?
    ensures FairStep(cfg, s, SessionSteps.Step(cfg, s, e))
  {
    hide Inv, FairStep, UpBegins, UpFinishes, UpOnLane, PollArrives, PollWakes, WriteTaken, BackendDrained;
    hide BackendWriteFinished, BackendData, BackendClosed, SocketAcquired, LaneAcquired, LaneReleased, CloseSession;
    PanicOff(cfg, s, NOTHING);
    SameCounters(cfg, s, s);
    match e
    case Begin(sequence, body) => BeginsFair(cfg, s, sequence, body);
    case Finish(sequence, body, admits) =>
      if !cfg.UsesLanes() {
        FinishesFair(cfg, s, sequence, body, admits);
      }
    case UpLane(k, sequence, body, admits) =>
      if cfg.UsesLanes() {
        UpOnLaneFair(cfg, s, k, sequence, body, admits);
      }
    case FailLane(k) =>
      CloseSessionFair(cfg, s, NOTHING);
      LaneReleasedFair(cfg, s, k);
    case Arrive(k, poll) => PollArrivesFair(cfg, s, k, poll);
    case Wake(k, birth, poll, why) => WakeFair(cfg, s, k, birth, poll, why);
    case TakeWrite(id) => TakeWriteFair(cfg, s, id);
    case Drained(id, amount) => DrainedFair(cfg, s, id, amount);
    case WriteFinished(id) => WriteFinishedFair(cfg, s, id);
    case ReadData(id, data) => ReadDataFair(cfg, s, id, data);
    case BackendGone(id, backend) => BackendClosedFair(cfg, s, id, backend);
    case AcquireSocket => SocketFair(cfg, s);
    case AcquireLane(k) => LaneAcquiredFair(cfg, s, k);
    case ReleaseLane(k) => LaneReleasedFair(cfg, s, k);
    case CloseAll => CloseSessionFair(cfg, s, NOTHING);
  }

  lemma BeginsFair(cfg: Config, s: State, sequence: nat, body: Bytes)
    ensures FairStep(cfg, s, UpBegins(s, sequence, body).0)
  {
    hide FairStep;
    SameCounters(cfg, s, UpBegins(s, sequence, body).0);
  }

  lemma WakeFair(cfg: Config, s: State, k: nat, birth: int, poll: PollId, why: Wake)
    ensures FairStep(cfg, s, PollWakes(cfg, s, k, birth, poll, why).0)
  {
    hide FairStep, Resume, LaneOver;
    SameCounters(cfg, s, PollWakes(cfg, s, k, birth, poll, why).0);
  }

  lemma SocketFair(cfg: Config, s: State)
    ensures FairStep(cfg, s, SocketAcquired(cfg, s).0)
  {
    hide FairStep;
    SameCounters(cfg, s, SocketAcquired(cfg, s).0);
  }

  // The manager with all its sessions.

  datatype Member = Member(cfg: Config, s: State)

  /** The live sessions and pendingGlobalCost/Items; a member's own `pool` field is not looked at. */
  datatype System = System(members: map<nat, Member>, pool: Charge)

  datatype SystemEvent = Joins(i: nat, cfg: Config) | Acts(i: nat, e: Event) | Leaves(i: nat)

  function At(sys: System, i: nat): State
    requires i in sys.members
  {
    sys.members[i].s.(pool := sys.pool)
  }

  /** A configuration Create may hand a session under these global limits. */
  predicate Issued(global: Limits, cfg: Config) {
    GoodConfig(cfg) && cfg.global == global
  }

  function Move(global: Limits, sys: System, e: SystemEvent): System
    requires forall i | i in sys.members :: Issued(global, sys.members[i].cfg)
  {
    match e
    case Joins(i, cfg) =>
      if i in sys.members || !Issued(global, cfg) || |sys.members| >= global.maxSessionsGlobal then sys
      else sys.(members := sys.members[i := Member(cfg, NewSession(cfg, sys.pool))])
    case Acts(i, e) =>
      if i !in sys.members || e.OthersMovePool? then sys
      else
        assert Issued(global, sys.members[i].cfg);
        var t := SessionSteps.Step(sys.members[i].cfg, At(sys, i), e);
        System(sys.members[i := sys.members[i].(s := t)], t.pool)
    case Leaves(i) =>
      if i in sys.members && sys.members[i].s.closed then sys.(members := sys.members - {i}) else sys
  }

  function Pendings(sys: System): map<nat, Charge> {
    map i | i in sys.members :: sys.members[i].s.pending
  }

  ghost predicate GoodMember(global: Limits, sys: System, i: nat)
    requires i in sys.members
  {
    var cfg := sys.members[i].cfg;
    && Issued(global, cfg)
    && Inv(cfg, At(sys, i), NOTHING)
    && sys.members[i].s.pending.Within(SessionCap(cfg.limits))
  }

  ghost predicate GoodSystem(global: Limits, sys: System) {
    && sys.pool == Sum(Pendings(sys))
    && sys.pool.Within(PoolCap(global))
    && forall i | i in sys.members :: GoodMember(global, sys, i)
  }

  lemma InvPending(cfg: Config, s: State)
    requires Inv(cfg, s, NOTHING)
    ensures NOTHING.Within(s.pending) && s.pending.Within(s.pool) && WritesCounted(s)
  {
    ChargesNonnegative(cfg, s);
    hide Charged, Structured;
  }

  /** A member none of whose own state changed, once the pool still covers it. */
  lemma BystanderStays(global: Limits, sys: System, sys': System, i: nat)
    requires i in sys.members && i in sys'.members && sys.members[i] == sys'.members[i]
    requires GoodMember(global, sys, i) && sys.members[i].s.pending.Within(sys'.pool)
    ensures GoodMember(global, sys', i)
  {
    hide Inv, Issued;
    PoolMoveInv(sys.members[i].cfg, At(sys, i), sys'.pool);
    assert At(sys', i) == At(sys, i).(pool := sys'.pool);
  }

  lemma PendingsNonnegative(global: Limits, sys: System)
    requires forall i | i in sys.members :: NOTHING.Within(sys.members[i].s.pending)
    ensures NOTHING.Within(Sum(Pendings(sys)))
    ensures forall i | i in sys.members :: sys.members[i].s.pending.Within(Sum(Pendings(sys)))
  {
    hide Sum;
    SumNonnegative(Pendings(sys));
    forall i | i in sys.members
      ensures sys.members[i].s.pending.Within(Sum(Pendings(sys)))
    {
      EntryWithinSum(Pendings(sys), i);
    }
  }

  lemma MembersNonnegative(global: Limits, sys: System)
    requires GoodSystem(global, sys)
    ensures forall i | i in sys.members ::
      Issued(global, sys.members[i].cfg) && NOTHING.Within(sys.members[i].s.pending)
  {
    hide Inv, Sum, Issued, Charge.Within;
    forall i | i in sys.members
      ensures NOTHING.Within(sys.members[i].s.pending)
    {
      assert GoodMember(global, sys, i);
      InvPending(sys.members[i].cfg, At(sys, i));
    }
  }

  lemma ActsGood(global: Limits, sys: System, i: nat, e: Event)
    requires GoodSystem(global, sys) && i in sys.members && !e.OthersMovePool?
    requires Issued(global, sys.members[i].cfg) && !Crashes(sys.members[i].cfg, At(sys, i), e)
    ensures var t := SessionSteps.Step(sys.members[i].cfg, At(sys, i), e);
      GoodSystem(global, System(sys.members[i := sys.members[i].(s := t)], t.pool))
  {
    hide Inv, Sum, SessionSteps.Step, Crashes, WritesCounted, SessionCap, PoolCap, Issued;
    MembersNonnegative(global, sys);
    var cfg, s := sys.members[i].cfg, At(sys, i);
    assert GoodMember(global, sys, i);
    IssuedMeans(global, cfg);
    var t := SessionSteps.Step(cfg, s, e);
    StepInv(cfg, s, e);
    StepFair(cfg, s, e);
    InvPending(cfg, s);
    InvPending(cfg, t);
    var sys' := System(sys.members[i := sys.members[i].(s := t)], t.pool);
    SumUpdate(Pendings(sys), i, t.pending);
    assert Pendings(sys') == Pendings(sys)[i := t.pending];
    PendingsNonnegative(global, sys');
    assert At(sys', i) == t;
    forall j | j in sys'.members
      ensures GoodMember(global, sys', j)
    {
      if j != i {
        assert GoodMember(global, sys, j);
        BystanderStays(global, sys, sys', j);
      }
    }
  }

  lemma IssuedMeans(global: Limits, cfg: Config)
    requires Issued(global, cfg)
    ensures GoodConfig(cfg) && cfg.global == global
  {
  }

  lemma JoinsGood(global: Limits, sys: System, i: nat, cfg: Config)
    requires GoodSystem(global, sys) && i !in sys.members && Issued(global, cfg)
    ensures GoodSystem(global, sys.(members := sys.members[i := Member(cfg, NewSession(cfg, sys.pool))]))
  {
    hide Inv, Sum, Charge.Plus;
    var sys' := sys.(members := sys.members[i := Member(cfg, NewSession(cfg, sys.pool))]);
    MembersNonnegative(global, sys);
    PendingsNonnegative(global, sys);
    SumUpdate(Pendings(sys), i, NOTHING);
    assert Pendings(sys') == Pendings(sys)[i := NOTHING];
    PlusNothing(sys.pool);
    NewSessionInv(cfg, sys.pool);
    assert At(sys', i) == NewSession(cfg, sys.pool);
    forall j | j in sys'.members
      ensures GoodMember(global, sys', j)
    {
      if j != i {
        assert GoodMember(global, sys, j);
        BystanderStays(global, sys, sys', j);
      }
    }
  }

  lemma LeavesGood(global: Limits, sys: System, i: nat)
    requires GoodSystem(global, sys) && i in sys.members && sys.members[i].s.closed
    ensures GoodSystem(global, sys.(members := sys.members - {i}))
  {
    hide Inv, Sum, Charge.Minus;
    var sys' := sys.(members := sys.members - {i});
    assert GoodMember(global, sys, i);
    CloseSessionInv(sys.members[i].cfg, At(sys, i));
    assert CloseSession(At(sys, i)) == At(sys, i);
    SumDelete(Pendings(sys), i);
    assert Pendings(sys') == Pendings(sys) - {i};
    PlusNothing(sys.pool);
    forall j | j in sys'.members
      ensures GoodMember(global, sys', j)
    {
      assert GoodMember(global, sys, j);
    }
  }

  // Every run of the whole relay.

  ghost function RunAll(global: Limits, events: seq<SystemEvent>): (sys: System)
    requires Sane(global)
    ensures forall i | i in sys.members :: Issued(global, sys.members[i].cfg)
  {
    if events == [] then System(map[], NOTHING)
    else Move(global, RunAll(global, events[..|events| - 1]), events[|events| - 1])
  }

  ghost predicate NoneCrashes(global: Limits, events: seq<SystemEvent>)
    requires Sane(global)
  {
    events == [] ||
    (NoneCrashes(global, events[..|events| - 1])
     && var sys, last := RunAll(global, events[..|events| - 1]), events[|events| - 1];
        last.Acts? && last.i in sys.members ==> !Crashes(sys.members[last.i].cfg, At(sys, last.i), last.e))
  }

  lemma StartGood(global: Limits)
    requires Sane(global)
    ensures GoodSystem(global, System(map[], NOTHING))
  {
    var sys := System(map[], NOTHING);
    hide Sum;
    SumOfNothing(Pendings(sys));
  }

  lemma {:induction false} RunAllGood(global: Limits, events: seq<SystemEvent>)
    requires Sane(global) && NoneCrashes(global, events)
    ensures GoodSystem(global, RunAll(global, events))
  {
    hide GoodSystem, Crashes, SessionSteps.Step, Issued;
    if |events| == 0 {
      StartGood(global);
    } else {
      RunAllGood(global, events[..|events| - 1]);
      var sys := RunAll(global, events[..|events| - 1]);
      match events[|events| - 1]
      case Joins(i, cfg) =>
        if i !in sys.members && Issued(global, cfg) {
          JoinsGood(global, sys, i, cfg);
        }
      case Acts(i, e) =>
        if i in sys.members && !e.OthersMovePool? {
          ActsGood(global, sys, i, e);
        }
      case Leaves(i) =>
        if i in sys.members && sys.members[i].s.closed {
          LeavesGood(global, sys, i);
        }
    }
  }

  /**
   * Over every run of the whole relay, whatever its sessions do and in whatever order they come and
   * go: the pool counter is exactly the sum of the sessions' counters, never negative and never past
   * its limit; each session stays within its own limit; and no release or budget change panics.
   */
  lemma PoolIsConserved(global: Limits, events: seq<SystemEvent>)
    requires Sane(global) && NoneCrashes(global, events)
    ensures var sys := RunAll(global, events);
      && sys.pool == Sum(Pendings(sys))
      && 0 <= sys.pool.cost <= global.maxPendingGlobal
      && 0 <= sys.pool.items <= global.maxPendingItemsGlobal
      && forall i | i in sys.members ::
           && !sys.members[i].s.panicked
           && sys.members[i].s.pending.cost <= sys.members[i].cfg.limits.maxPendingPerSession
           && sys.members[i].s.pending.items <= sys.members[i].cfg.limits.maxPendingItemsPerSession
  {
    hide Inv, Sum, RunAll, NoneCrashes;
    RunAllGood(global, events);
    var sys := RunAll(global, events);
    MembersNonnegative(global, sys);
    PendingsNonnegative(global, sys);
    forall i | i in sys.members
      ensures !sys.members[i].s.panicked
    {
      assert GoodMember(global, sys, i);
      PanicOff(sys.members[i].cfg, At(sys, i), NOTHING);
    }
  }
}

/**
 * Charges by class: what the pool counts for DATA, buffered or queued, against what it counts for
 * control frames. DATA never takes the share of the pool kept for control.
 */
module DataShare {
  import opened Octets
  import opened Frames
  import opened Limits
  import opened Charges
  import opened Queue
  import opened Streams
  import opened Tombstones
  import opened Poll
  import opened Uplink
  import opened SessionState
  import opened Batch
  import opened BatchLaws
  import opened SessionSteps
  import opened PoolRun

  function ControlCost(q: seq<Frame>): (n: int)
    ensures n >= 0
  {
    if q == [] then 0
    else ControlCost(q[..|q| - 1]) + if PushClass(q[|q| - 1]) == Control then FrameCost(q[|q| - 1]) else 0
  }

  function ControlItems(q: seq<Frame>): (n: int)
    ensures n >= 0
  {
    if q == [] then 0 else ControlItems(q[..|q| - 1]) + if PushClass(q[|q| - 1]) == Control then 1 else 0
  }

  /** What the control frames of a queue are charged. */
  function ControlOf(q: seq<Frame>): Charge {
    Charge(ControlCost(q), ControlItems(q))
  }

  function LaneControl(lane: Lane): Charge {
    ControlOf(lane.down.queue).Plus(ControlOf(lane.down.unacked))
  }

  function LaneControls(lanes: map<nat, Lane>): map<nat, Charge> {
    map k | k in lanes :: LaneControl(lanes[k])
  }

  /** The session's control frames, queued or unacknowledged, on every carrier. */
  ghost function ControlCharged(s: State): Charge {
    Sum(LaneControls(s.lanes))
  }

  /** Everything else the session is charged: DATA frames, buffered writes, a reservation in hand. */
  ghost function DataPart(s: State): Charge {
    s.pending.Minus(ControlCharged(s))
  }

  /** The data share of a counter: it has not grown, or with what others hold it is within the limit for data. */
  predicate Contained(before: int, after: int, others: int, limit: int) {
    after <= before || after + others <= limit
  }

  /** What a step without a panic may do to the data share, given what other sessions hold. */
  ghost predicate Shared(cfg: Config, s: State, t: State)
    requires GoodConfig(cfg)
  {
    !t.panicked ==>
      && !s.panicked
      && t.pool.Minus(t.pending) == s.pool.Minus(s.pending)
      && var limit, own := PoolLimits(cfg.global, Downlink), UplinkLimits(cfg.limits);
         && Contained(DataPart(s).cost, DataPart(t).cost, s.pool.cost - s.pending.cost, limit.cost)
         && Contained(DataPart(s).items, DataPart(t).items, s.pool.items - s.pending.items, limit.items)
         && Contained(DataPart(s).cost, DataPart(t).cost, 0, own.cost)
         && Contained(DataPart(s).items, DataPart(t).items, 0, own.items)
  }

  lemma SharedTrans(cfg: Config, s: State, t: State, u: State)
    requires GoodConfig(cfg) && Shared(cfg, s, t) && Shared(cfg, t, u)
    ensures Shared(cfg, s, u)
  {
    hide DataPart, PoolLimits, UplinkLimits;
  }

  /** Same counters, same carriers' contents: nothing moves. */
  lemma SameShare(cfg: Config, s: State, t: State)
    requires GoodConfig(cfg) && t.pending == s.pending && t.pool == s.pool && t.panicked == s.panicked
    requires ControlCharged(t) == ControlCharged(s)
    ensures Shared(cfg, s, t)
  {
    hide ControlCharged, PoolLimits, UplinkLimits;
  }

  lemma SameLanesShare(cfg: Config, s: State, t: State)
    requires GoodConfig(cfg) && t.pending == s.pending && t.pool == s.pool && t.panicked == s.panicked
    requires t.lanes == s.lanes
    ensures Shared(cfg, s, t)
  {
    hide PoolLimits, UplinkLimits, LaneControls;
  }

  lemma ControlsNonnegative(s: State)
    ensures ControlCharged(s).cost >= 0 && ControlCharged(s).items >= 0
    ensures forall k | k in s.lanes :: LaneControl(s.lanes[k]).Within(ControlCharged(s))
  {
    hide ControlCost, ControlItems, Sum;
    SumNonnegative(LaneControls(s.lanes));
    forall k | k in s.lanes
      ensures LaneControl(s.lanes[k]).Within(ControlCharged(s))
    {
      EntryWithinSum(LaneControls(s.lanes), k);
    }
  }

  lemma SetLaneControl(s: State, k: nat, lane: Lane)
    requires k in s.lanes
    ensures ControlCharged(s.(lanes := s.lanes[k := lane]))
         == ControlCharged(s).Minus(LaneControl(s.lanes[k])).Plus(LaneControl(lane))
  {
    hide LaneControl, Sum;
    SumUpdate(LaneControls(s.lanes), k, LaneControl(lane));
    assert LaneControls(s.lanes[k := lane]) == LaneControls(s.lanes)[k := LaneControl(lane)];
  }

  lemma DropLaneControl(s: State, k: nat)
    requires k in s.lanes
    ensures ControlCharged(s.(lanes := s.lanes - {k})) == ControlCharged(s).Minus(LaneControl(s.lanes[k]))
  {
    hide LaneControl, Sum;
    SumDelete(LaneControls(s.lanes), k);
    assert LaneControls(s.lanes - {k}) == LaneControls(s.lanes) - {k};
  }

  lemma {:induction false} ControlAppend(a: seq<Frame>, b: seq<Frame>)
    ensures ControlCost(a + b) == ControlCost(a) + ControlCost(b)
    ensures ControlItems(a + b) == ControlItems(a) + ControlItems(b)
  {
    hide FrameCost, PushClass;
    if |b| == 0 {
      assert a + b == a;
    } else {
      assert (a + b)[..|a + b| - 1] == a + b[..|b| - 1];
      ControlAppend(a, b[..|b| - 1]);
    }
  }

  lemma OneControl(f: Frame)
    ensures ControlCost([f]) == if PushClass(f) == Control then FrameCost(f) else 0
    ensures ControlItems([f]) == if PushClass(f) == Control then 1 else 0
  {
    hide FrameCost, PushClass;
    assert [f][..0] == [];
  }

  /** One frame replaced by another. */
  lemma ControlReplace(q: seq<Frame>, i: nat, f: Frame)
    requires i < |q|
    ensures ControlCost(q[i := f]) == ControlCost(q) - ControlCost([q[i]]) + ControlCost([f])
    ensures ControlItems(q[i := f]) == ControlItems(q) - ControlItems([q[i]]) + ControlItems([f])
  {
    hide ControlCost, ControlItems;
    var head, tail := q[..i], q[i + 1..];
    ControlAppend(head + [q[i]], tail);
    ControlAppend(head + [f], tail);
    ControlAppend(head, [q[i]]);
    ControlAppend(head, [f]);
    assert q == (head + [q[i]]) + tail;
    assert q[i := f] == (head + [f]) + tail;
  }

  lemma {:induction false} ControlWithinCharge(q: seq<Frame>)
    ensures ControlCost(q) <= ChargeOf(q).cost && ControlItems(q) <= ChargeOf(q).items
  {
    if |q| > 0 {
      ControlWithinCharge(q[..|q| - 1]);
    }
  }

  /** A control frame adds to control what it is charged; a DATA frame adds nothing. */
  lemma PushControl(q: seq<Frame>, f: Frame, maxPayload: nat)
    requires f.kind == WINDOW ==> AllQueueable(q)
    ensures ControlOf(Push(q, f, maxPayload)) ==
      ControlOf(q).Plus(if PushClass(f) == Control then PushCharge(q, f, maxPayload) else NOTHING)
  {
    hide ControlCost, ControlItems, PutUint32;
    match Place(q, f, maxPayload)
    case MergeWindow(i) =>
      assert Queueable(q[i]);
      var merged := Frame(WINDOW, f.id, WindowPayload(Amount(q[i].payload) + Amount(f.payload)));
      ControlReplace(q, i, merged);
      OneControl(q[i]);
      OneControl(merged);
    case ExtendTail =>
      var longer := Frame(DATA, f.id, q[|q| - 1].payload + f.payload);
      ControlReplace(q, |q| - 1, longer);
      OneControl(q[|q| - 1]);
      OneControl(longer);
    case Append =>
      ControlAppend(q, [f]);
      OneControl(f);
  }

  // Primitives.

  lemma ReserveShare(cfg: Config, s: State, want: Charge, purpose: Class)
    requires GoodConfig(cfg) && purpose != Control
    ensures Reserve(cfg, s, want, purpose).Some? ==> Shared(cfg, s, Reserve(cfg, s, want, purpose).value)
  {
    hide PoolLimits, ClassLimits, UplinkLimits, Sum, LaneControls;
    ControlsNonnegative(s);
    SameClassLimit(cfg.global, purpose);
    DataWithinUplink(cfg.limits, purpose);
  }

  lemma DataWithinUplink(l: Limits, purpose: Class)
    requires Sane(l) && purpose != Control
    ensures ClassLimits(l, purpose).Within(UplinkLimits(l))
  {
    UplinkReservePositive(l);
    hide ControlReserve, UplinkReserve;
  }

  lemma SameClassLimit(l: Limits, purpose: Class)
    requires Sane(l) && purpose != Control
    ensures PoolLimits(l, purpose) == PoolLimits(l, Downlink)
  {
    hide ControlReserve;
  }

  lemma ReleaseShare(cfg: Config, s: State, c: Charge)
    requires GoodConfig(cfg) && c.cost >= 0 && c.items >= 0
    ensures Shared(cfg, s, Release(s, c))
  {
    hide PoolLimits, UplinkLimits, Sum, LaneControls;
  }

  lemma QueueFrameShare(cfg: Config, s: State, f: Frame)
    requires GoodConfig(cfg)
    requires f.kind == WINDOW ==> forall k | k in s.lanes :: AllQueueable(s.lanes[k].down.queue)
    ensures QueueFrame(cfg, s, f).Some? ==> Shared(cfg, s, QueueFrame(cfg, s, f).value)
  {
    hide Shared, Push, Place, PushCharge, Reserve, LaneControl, ControlCharged, AllQueueable;
    if QueueFrame(cfg, s, f).Some? {
      var k, limit := cfg.LaneOf(f.id), cfg.limits.maxFramePayload;
      var q, lane := s.lanes[k].down.queue, WithPushed(cfg, s.lanes[k], f);
      var want, t := PushCharge(q, f, limit), QueueFrame(cfg, s, f).value;
      PushedControl(cfg, s.lanes[k], f);
      SetLaneControl(s, k, lane);
      if Place(q, f, limit).MergeWindow? {
        MergeIsFree(q, f, limit);
        MergeShare(cfg, s, k, lane, want);
      } else if PushClass(f) == Control {
        ReservesOnly(cfg, s, want, Control);
        ControlShare(cfg, s, Reserve(cfg, s, want, Control).value, k, lane, want);
      } else {
        var r := Reserve(cfg, s, want, PushClass(f)).value;
        ReserveShare(cfg, s, want, PushClass(f));
        ReservesOnly(cfg, s, want, PushClass(f));
        SetLaneControl(r, k, lane);
        MergeShare(cfg, r, k, lane, NOTHING);
        SharedTrans(cfg, s, r, t);
      }
    }
  }

  lemma ReservesOnly(cfg: Config, s: State, want: Charge, purpose: Class)
    requires GoodConfig(cfg)
    ensures Reserve(cfg, s, want, purpose).Some? ==>
      Reserve(cfg, s, want, purpose).value == s.(pending := s.pending.Plus(want), pool := s.pool.Plus(want))
  {
    hide SessionAdmits, PoolAdmits;
  }

  lemma PushedControl(cfg: Config, lane: Lane, f: Frame)
    requires GoodConfig(cfg) && (f.kind == WINDOW ==> AllQueueable(lane.down.queue))
    ensures LaneControl(WithPushed(cfg, lane, f)) == LaneControl(lane).Plus(
      if PushClass(f) == Control then PushCharge(lane.down.queue, f, cfg.limits.maxFramePayload) else NOTHING)
  {
    hide Push, PushCharge, ControlOf, Place;
    PushControl(lane.down.queue, f, cfg.limits.maxFramePayload);
  }

  lemma MergeShare(cfg: Config, s: State, k: nat, lane: Lane, none: Charge)
    requires GoodConfig(cfg) && k in s.lanes && none.cost == 0 && none.items == 0
    requires LaneControl(lane) == LaneControl(s.lanes[k]).Plus(none)
    requires ControlCharged(s.(lanes := s.lanes[k := lane]))
          == ControlCharged(s).Minus(LaneControl(s.lanes[k])).Plus(LaneControl(lane))
    ensures Shared(cfg, s, s.(lanes := s.lanes[k := lane]))
  {
    hide ControlCharged, LaneControl, PoolLimits, UplinkLimits;
  }

  /** A control reservation and the frame it is for. */
  lemma ControlShare(cfg: Config, s: State, r: State, k: nat, lane: Lane, want: Charge)
    requires GoodConfig(cfg) && k in s.lanes
    requires r == s.(pending := s.pending.Plus(want), pool := s.pool.Plus(want))
    requires LaneControl(lane) == LaneControl(s.lanes[k]).Plus(want)
    requires ControlCharged(s.(lanes := s.lanes[k := lane]))
          == ControlCharged(s).Minus(LaneControl(s.lanes[k])).Plus(LaneControl(lane))
    ensures Shared(cfg, s, r.(lanes := r.lanes[k := lane]))
  {
    hide LaneControl, PoolLimits, UplinkLimits, LaneControls, Sum;
  }

  lemma LaneControlWithin(lane: Lane)
    ensures LaneControl(lane).Within(LaneCharge(lane))
  {
    hide ControlCost, ControlItems, ChargeOf;
    ControlWithinCharge(lane.down.queue);
    ControlWithinCharge(lane.down.unacked);
  }

  lemma DropLaneShare(cfg: Config, s: State, k: nat)
    requires GoodConfig(cfg)
    ensures Shared(cfg, s, DropLane(s, k))
  {
    hide PoolLimits, UplinkLimits, LaneCharge, LaneControl, ControlCharged;
    if k in s.lanes {
      LaneControlWithin(s.lanes[k]);
      DropLaneControl(s, k);
      var t := DropLane(s, k);
      DroppedLanes(s, k, t);
    } else {
      SameLanesShare(cfg, s, s);
    }
  }

  lemma DroppedLanes(s: State, k: nat, t: State)
    requires t.lanes == s.lanes - {k}
    ensures ControlCharged(t) == ControlCharged(s.(lanes := s.lanes - {k}))
  {
  }

  lemma RememberClosedShare(cfg: Config, s: State, id: nat)
    requires GoodConfig(cfg)
    ensures Shared(cfg, s, RememberClosed(cfg, s, id))
  {
    hide Shared, DropLane, Remember, Evicted;
    var remembered := s.(tombs := Remember(s.tombs, id, cfg.limits.maxClosedStreamIDs));
    SameLanesShare(cfg, s, remembered);
    match Evicted(s.tombs, id, cfg.limits.maxClosedStreamIDs)
    case Some(oldest) =>
      DropLaneShare(cfg, remembered, oldest);
      SharedTrans(cfg, s, remembered, DropLane(remembered, oldest));
    case None =>
  }

  lemma CloseStreamShare(cfg: Config, s: State, id: nat)
    requires GoodConfig(cfg) && id in s.streams && NOTHING.Within(WriteCharge(s.streams[id]))
    ensures Shared(cfg, s, CloseStream(cfg, s, id))
  {
    hide Shared, RememberClosed, Release, WriteCharge;
    var r := Release(s, WriteCharge(s.streams[id]));
    var u := r.(streams := s.streams - {id});
    ReleaseShare(cfg, s, WriteCharge(s.streams[id]));
    SameLanesShare(cfg, r, u);
    RememberClosedShare(cfg, u, id);
    SharedTrans(cfg, s, r, u);
    SharedTrans(cfg, s, u, CloseStream(cfg, s, id));
  }

  // An uplink batch.

  lemma OpenFrameShare(cfg: Config, a: Acc, f: Frame, admit: bool)
    requires GoodConfig(cfg)
    ensures match OpenFrame(cfg, a, f, admit)
      case Going(b) => Shared(cfg, a.s, b.s)
      case Aborted(b) => Shared(cfg, a.s, b.s)
      case NilStream => true
  {
    hide Shared, RememberClosed, QueueFrame;
    var r, close := RememberClosed(cfg, a.s, f.id), Frame(CLOSE, f.id, []);
    RememberClosedShare(cfg, a.s, f.id);
    QueueFrameShare(cfg, r, close);
    if QueueFrame(cfg, r, close).Some? {
      SharedTrans(cfg, a.s, r, QueueFrame(cfg, r, close).value);
    }
    SameLanesShare(cfg, a.s, a.s.(streams := a.s.streams[f.id := NewStream(a.s.nextBackend)],
                                  nextBackend := a.s.nextBackend + 1));
  }

  lemma ApplyFrameShare(cfg: Config, a: Acc, f: Frame, admit: bool)
    requires GoodConfig(cfg) && WritesCounted(a.s)
    ensures match ApplyFrame(cfg, a, f, admit)
      case Going(b) => Shared(cfg, a.s, b.s) && WritesCounted(b.s)
      case Aborted(b) => Shared(cfg, a.s, b.s)
      case NilStream => true
  {
    hide Shared, OpenFrame, CloseStream, AcceptData, AddCredit, FairStep, Amount;
    ApplyFrameFair(cfg, a, f, admit);
    OpenFrameShare(cfg, a, f, admit);
    SameLanesShare(cfg, a.s, a.s);
    if f.id in a.s.streams {
      var st := a.s.streams[f.id];
      SameLanesShare(cfg, a.s, SetStream(a, f.id, AcceptData(st, f.payload)).s);
      SameLanesShare(cfg, a.s, SetStream(a, f.id, AddCredit(st, Amount(f.payload))).s);
      CloseStreamShare(cfg, a.s, f.id);
    }
    match ApplyFrame(cfg, a, f, admit)
    case Going(b) => StaysCounted(cfg, a.s, b.s);
    case _ =>
  }

  lemma StaysCounted(cfg: Config, s: State, t: State)
    requires FairStep(cfg, s, t) && WritesCounted(s)
    ensures WritesCounted(t)
  {
  }

  lemma {:induction false} ApplyShare(cfg: Config, a: Acc, frames: seq<Frame>, admits: seq<bool>)
    requires GoodConfig(cfg) && |admits| == |frames| && WritesCounted(a.s)
    ensures match Apply(cfg, a, frames, admits)
      case Going(b) => Shared(cfg, a.s, b.s)
      case Aborted(b) => Shared(cfg, a.s, b.s)
      case NilStream => true
    decreases |frames|
  {
    hide Shared, ApplyFrame, WritesCounted;
    if |frames| == 0 {
      SameLanesShare(cfg, a.s, a.s);
    } else {
      ApplyFrameShare(cfg, a, frames[0], admits[0]);
      match ApplyFrame(cfg, a, frames[0], admits[0])
      case Going(b) =>
        ApplyShare(cfg, b, frames[1..], admits[1..]);
        match Apply(cfg, b, frames[1..], admits[1..]) {
          case Going(c) => SharedTrans(cfg, a.s, b.s, c.s);
          case Aborted(c) => SharedTrans(cfg, a.s, b.s, c.s);
          case NilStream =>
        }
      case _ =>
    }
  }

  lemma SettledShare(cfg: Config, s: State, a: Acc, b: Acc)
    requires GoodConfig(cfg) && Shared(cfg, s, a.s) && Shared(cfg, a.s, b.s)
    requires b.left.cost >= 0 && b.left.items >= 0
    ensures Shared(cfg, s, Release(b.s, b.left))
  {
    hide Shared, Release;
    ReleaseShare(cfg, b.s, b.left);
    SharedTrans(cfg, s, a.s, b.s);
    SharedTrans(cfg, s, b.s, Release(b.s, b.left));
  }

  lemma ReservedShare(cfg: Config, s: State, frames: seq<Frame>)
    requires GoodConfig(cfg) && Reserved(cfg, s, frames).Some?
    ensures Shared(cfg, s, Reserved(cfg, s, frames).value.s)
    ensures Reserved(cfg, s, frames).value.s.streams == s.streams
  {
    hide Shared, Reservation, SessionAdmits, PoolAdmits;
    SameLanesShare(cfg, s, s);
    ReserveShare(cfg, s, ReservationFor(s, frames), Uplink);
  }

  lemma SetUpShare(cfg: Config, s: State, k: nat, up: Up)
    requires GoodConfig(cfg)
    ensures Shared(cfg, s, SetUp(s, k, up))
  {
    hide Shared, LaneControl, ControlCharged;
    if k in s.lanes {
      var lane := s.lanes[k].(up := up);
      SetLaneControl(s, k, lane);
      SameLaneControl(s.lanes[k], lane);
      MergeShare(cfg, s, k, lane, NOTHING);
    } else {
      SameLanesShare(cfg, s, s);
    }
  }

  lemma SameLaneControl(lane: Lane, lane': Lane)
    requires lane'.down == lane.down
    ensures LaneControl(lane') == LaneControl(lane).Plus(NOTHING)
  {
    hide ControlOf;
  }

  lemma ReceiveShare(cfg: Config, s: State, k: nat, sequence: nat, body: Bytes, frames: seq<Frame>, admits: seq<bool>)
    requires Inv(cfg, s, NOTHING) && !s.closed && |admits| == |frames| && GoodConfig(cfg)
    requires AllFit(frames, MAX_PAYLOAD) && LanesReady(cfg, s, frames)
    ensures Shared(cfg, s, Receive(cfg, s, k, sequence, body, frames, admits).0)
  {
    hide Inv, Shared, Validate, Apply, Release, SetUp, LosesSome, LanesReady, Reserved, WritesCounted;
    InvPending(cfg, s);
    SameLanesShare(cfg, s, s);
    assert Shared(cfg, s, s.(panicked := true)) by {
      PanicShare(cfg, s);
    }
    if Validate(TrialOf(s), frames).Some? && Reserved(cfg, s, frames).Some? {
      var a := Reserved(cfg, s, frames).value;
      ReservedShare(cfg, s, frames);
      SameWrites(s, a.s);
      ApplyShare(cfg, a, frames, admits);
      ValidatedBatchApplies(cfg, s, a, frames, admits);
      match Apply(cfg, a, frames, admits)
      case NilStream =>
      case Aborted(b) =>
        HeldNonnegative(cfg, b.s, b.left);
        SettledShare(cfg, s, a, b);
      case Going(b) =>
        HeldNonnegative(cfg, b.s, b.left);
        SettledShare(cfg, s, a, b);
        var settled := Release(b.s, b.left);
        var up := if k in settled.lanes then Commit(settled.lanes[k].up, sequence, body, true) else NEW_UP;
        SetUpShare(cfg, settled, k, up);
        SharedTrans(cfg, s, settled, SetUp(settled, k, up));
    }
  }

  lemma PanicShare(cfg: Config, s: State)
    requires GoodConfig(cfg)
    ensures Shared(cfg, s, s.(panicked := true))
  {
  }

  lemma FinishesShare(cfg: Config, s: State, sequence: nat, body: Bytes, admits: seq<bool>)
    requires Inv(cfg, s, NOTHING) && !cfg.UsesLanes() && GoodConfig(cfg)
    ensures Shared(cfg, s, UpFinishes(cfg, s, sequence, body, admits).0)
  {
    hide Inv, Shared, Readable, Receive;
    LaneFacts(cfg, s, NOTHING);
    var up := s.lanes[0].up.(active := false);
    SetUpInv(cfg, s, 0, up, NOTHING);
    SetUpShare(cfg, s, 0, up);
    ReadableFits(cfg, body);
    if !s.closed && Readable(cfg, body).Some? && |admits| == |Readable(cfg, body).value| {
      var frames := Readable(cfg, body).value;
      ReceiveShare(cfg, AfterParse(s), 0, sequence, body, frames, admits);
      SharedTrans(cfg, s, AfterParse(s), Receive(cfg, AfterParse(s), 0, sequence, body, frames, admits).0);
    }
  }

  lemma OpenLaneShare(cfg: Config, s: State, k: nat, sequence: nat, body: Bytes, frames: seq<Frame>, admits: seq<bool>)
    requires Inv(cfg, s, NOTHING) && !s.closed && |admits| == |frames| && k in s.lanes && cfg.UsesLanes()
    requires AllFit(frames, MAX_PAYLOAD) && AllOn(frames, k) && GoodConfig(cfg)
    ensures Shared(cfg, s, UpOnOpenLane(cfg, s, k, sequence, body, frames, admits).0)
  {
    hide Inv, Shared, Receive;
    SameLanesShare(cfg, s, s);
    if Admit(s.lanes[k].up, sequence, body).Begin? {
      assert LanesReady(cfg, s, frames);
      ReceiveShare(cfg, s, k, sequence, body, frames, admits);
    }
  }

  lemma NoControl(q: seq<Frame>)
    requires |q| == 0
    ensures ControlOf(q) == NOTHING
  {
  }

  lemma NewLaneControl(birth: int)
    ensures LaneControl(NewLane(birth)) == NOTHING
  {
    hide ControlOf;
    NoControl(NewLane(birth).down.queue);
    NoControl(NewLane(birth).down.unacked);
  }

  lemma AddLaneShare(cfg: Config, s: State, k: nat)
    requires GoodConfig(cfg) && k !in s.lanes
    ensures Shared(cfg, s, AddLane(s, k))
  {
    hide Sum, Shared, LaneControl, NewLane, Charge.Plus, Charge.Minus;
    var lanes, none := LaneControls(s.lanes), LaneControl(NewLane(s.nextBirth));
    NewLaneControl(s.nextBirth);
    SumUpdate(lanes, k, none);
    assert LaneControls(AddLane(s, k).lanes) == lanes[k := none];
    PlusNothing(Sum(lanes));
    SameShare(cfg, s, AddLane(s, k));
  }

  lemma UpOnLaneShare(cfg: Config, s: State, k: nat, sequence: nat, body: Bytes, admits: seq<bool>)
    requires Inv(cfg, s, NOTHING) && cfg.UsesLanes() && GoodConfig(cfg)
    ensures Shared(cfg, s, UpOnLane(cfg, s, k, sequence, body, admits).0)
  {
    hide Inv, Shared, Readable, UpOnOpenLane, AddLane, OnlyLate, AllOn;
    ReadableFits(cfg, body);
    SameLanesShare(cfg, s, s);
    if Readable(cfg, body).Some? && !s.closed {
      var frames := Readable(cfg, body).value;
      if AllOn(frames, k) && |admits| == |frames| {
        if k in s.lanes {
          OpenLaneShare(cfg, s, k, sequence, body, frames, admits);
        } else {
          var s1 := AddLane(s, k);
          AddLaneInv(cfg, s, k, NOTHING);
          AddLaneShape(s, k);
          AddLaneShare(cfg, s, k);
          OpenLaneShare(cfg, s1, k, sequence, body, frames, admits);
          SharedTrans(cfg, s, s1, UpOnOpenLane(cfg, s1, k, sequence, body, frames, admits).0);
        }
      }
    }
  }

  // Polls.

  lemma MovedControl(lane: Lane, d': Down, acked: seq<Frame>)
    requires Moved(lane.down, d', acked)
    ensures LaneControl(lane) == LaneControl(lane.(down := d')).Plus(ControlOf(acked))
  {
    hide ControlCost, ControlItems, ChargeOf;
    ControlAppend(acked + d'.unacked, d'.queue);
    ControlAppend(acked, d'.unacked);
    ControlAppend(lane.down.unacked, lane.down.queue);
  }

  lemma MoveShare(cfg: Config, s: State, k: nat, d': Down, acked: seq<Frame>)
    requires GoodConfig(cfg) && k in s.lanes && Moved(s.lanes[k].down, d', acked)
    ensures Shared(cfg, s, Acknowledging(s, ChargeOf(acked), k, d'))
  {
    hide PoolLimits, UplinkLimits, ControlCharged, LaneControl, ChargeOf, ControlCost, ControlItems, Moved;
    var c, lane := ChargeOf(acked), s.lanes[k].(down := d');
    ChargeOfNonnegative(acked);
    MovedControl(s.lanes[k], d', acked);
    ControlWithinCharge(acked);
    SetLaneControl(s, k, lane);
    SwappedLanes(s, k, lane, Acknowledging(s, c, k, d'));
  }

  lemma SwappedLanes(s: State, k: nat, lane: Lane, t: State)
    requires t.lanes == s.lanes[k := lane]
    ensures ControlCharged(t) == ControlCharged(s.(lanes := s.lanes[k := lane]))
  {
  }

  lemma PollArrivesShare(cfg: Config, s: State, k: nat, poll: PollId)
    requires Inv(cfg, s, NOTHING) && GoodConfig(cfg)
    ensures Shared(cfg, s, SessionSteps.PollArrives(cfg, s, k, poll).0)
  {
    hide Inv, Shared, Enter, Acknowledged, Moved, LaneOver, Release, ChargeOf, HandedOver;
    SameLanesShare(cfg, s, s);
    if !s.closed && k in s.lanes {
      LaneFacts(cfg, s, NOTHING);
      var d := s.lanes[k].down;
      EnterMoves(d, poll, cfg.limits.carrierBatchBytes, LaneOver(cfg, s, k));
      MoveShare(cfg, s, k, Enter(d, poll, cfg.limits.carrierBatchBytes, LaneOver(cfg, s, k)).0,
                Acknowledged(d, poll.cursor));
    }
  }

  lemma PollWakesShare(cfg: Config, s: State, k: nat, birth: int, poll: PollId, why: Wake)
    requires Inv(cfg, s, NOTHING) && GoodConfig(cfg)
    ensures Shared(cfg, s, SessionSteps.PollWakes(cfg, s, k, birth, poll, why).0)
  {
    hide Inv, Shared, Resume, Moved, LaneOver, Release, ChargeOf, HandedOver;
    SameLanesShare(cfg, s, s);
    if k in s.lanes && s.lanes[k].birth == birth {
      LaneFacts(cfg, s, NOTHING);
      var d, none: seq<Frame> := s.lanes[k].down, [];
      ResumeMoves(d, poll, why, cfg.limits.carrierBatchBytes, s.closed, LaneOver(cfg, s, k), none);
      MoveShare(cfg, s, k, Resume(d, poll, why, cfg.limits.carrierBatchBytes, s.closed, LaneOver(cfg, s, k)).0, none);
      ReleaseOfNoFrames(s, none);
    }
  }

  // Backends.

  lemma DrainedShare(cfg: Config, s: State, id: nat, amount: int)
    requires Inv(cfg, s, NOTHING) && GoodConfig(cfg)
    ensures Shared(cfg, s, BackendDrained(cfg, s, id, amount).0)
  {
    hide Inv, Shared, Drain, Release, QueueFrame, PutUint32, GoodLane;
    SameLanesShare(cfg, s, s);
    if !s.closed && id in s.streams && Drain(s.streams[id], amount).Some? {
      StreamFacts(cfg, s, NOTHING);
      DrainCharge(s.streams[id], amount);
      var r := Release(s, Charge(amount, 0));
      ReleaseShare(cfg, s, Charge(amount, 0));
      ReleaseShape(s, Charge(amount, 0));
      var drained := r.(streams := s.streams[id := Drain(s.streams[id], amount).value]);
      SameLanesShare(cfg, r, drained);
      SharedTrans(cfg, s, r, drained);
      var f := Frame(WINDOW, id, WindowPayload(amount % TWO_32));
      QueuesQueueable(cfg, s);
      QueueFrameShare(cfg, drained, f);
      if QueueFrame(cfg, drained, f).Some? {
        SharedTrans(cfg, s, drained, QueueFrame(cfg, drained, f).value);
      }
    }
  }

  lemma QueuesQueueable(cfg: Config, s: State)
    requires Inv(cfg, s, NOTHING)
    ensures forall k | k in s.lanes :: AllQueueable(s.lanes[k].down.queue)
  {
    hide Inv, AllQueueable;
    LaneFacts(cfg, s, NOTHING);
  }

  lemma WriteFinishedShare(cfg: Config, s: State, id: nat)
    requires GoodConfig(cfg)
    ensures Shared(cfg, s, BackendWriteFinished(s, id).0)
  {
    hide Shared, FinishWrite, Release;
    SameLanesShare(cfg, s, s);
    if !s.closed && id in s.streams && FinishWrite(s.streams[id]).Some? {
      var r := Release(s, Charge(QUEUE_ITEM_COST, 1));
      ReleaseShare(cfg, s, Charge(QUEUE_ITEM_COST, 1));
      var t := r.(streams := s.streams[id := FinishWrite(s.streams[id]).value]);
      SameLanesShare(cfg, r, t);
      SharedTrans(cfg, s, r, t);
    }
  }

  lemma ReadDataShare(cfg: Config, s: State, id: nat, data: Bytes)
    requires GoodConfig(cfg)
    ensures Shared(cfg, s, BackendData(cfg, s, id, data).0)
  {
    hide Shared, QueueFrame, SpendCredit;
    SameLanesShare(cfg, s, s);
    if !s.closed && id in s.streams {
      var spent, f := s.(streams := s.streams[id := SpendCredit(s.streams[id], |data|)]), Frame(DATA, id, data);
      SameLanesShare(cfg, s, spent);
      QueueFrameShare(cfg, spent, f);
      if QueueFrame(cfg, spent, f).Some? {
        SharedTrans(cfg, s, spent, QueueFrame(cfg, spent, f).value);
      }
    }
  }

  /** At a lock release the data share is a part of what the session is charged. */
  lemma DataPartBounds(cfg: Config, s: State)
    requires Inv(cfg, s, NOTHING)
    ensures NOTHING.Within(DataPart(s)) && DataPart(s).Within(s.pending)
  {
    hide Sum, LaneControls, LaneCharges, WriteCharges, Structured, LaneControl, LaneCharge;
    ControlsNonnegative(s);
    ChargesNonnegative(cfg, s);
    ControlsWithinCharges(s);
    WritesNonnegative(cfg, s);
  }

  lemma WritesNonnegative(cfg: Config, s: State)
    requires Structured(cfg, s)
    ensures Sum(WriteCharges(s.streams)).cost >= 0 && Sum(WriteCharges(s.streams)).items >= 0
  {
    hide Sum;
    ChargesNonnegative(cfg, s);
    SumNonnegative(WriteCharges(s.streams));
  }

  lemma ControlsWithinCharges(s: State)
    ensures Sum(LaneControls(s.lanes)).Within(Sum(LaneCharges(s.lanes)))
  {
    hide Sum, LaneControl, LaneCharge;
    forall k | k in s.lanes
      ensures LaneControl(s.lanes[k]).Within(LaneCharge(s.lanes[k]))
    {
      LaneControlWithin(s.lanes[k]);
    }
    SumMonotone(LaneControls(s.lanes), LaneCharges(s.lanes));
  }

  lemma CloseSessionShare(cfg: Config, s: State)
    requires Inv(cfg, s, NOTHING) && GoodConfig(cfg)
    ensures Shared(cfg, s, CloseSession(s))
  {
    hide Inv, PoolLimits, UplinkLimits, Sum;
    if s.closed {
      SameLanesShare(cfg, s, s);
    } else {
      DataPartBounds(cfg, s);
      PanicOff(cfg, s, NOTHING);
      ControlsNonnegative(CloseSession(s));
    }
  }

  lemma BackendClosedShare(cfg: Config, s: State, id: nat, backend: int)
    requires Inv(cfg, s, NOTHING) && GoodConfig(cfg)
    ensures Shared(cfg, s, BackendClosed(cfg, s, id, backend))
  {
    hide Inv, Shared, QueueFrame, CloseStream, CloseSession, WriteCharge;
    SameLanesShare(cfg, s, s);
    if !s.closed && id in s.streams {
      var gone, f := CloseStream(cfg, s, id), Frame(CLOSE, id, []);
      InvPending(cfg, s);
      CloseStreamInv(cfg, s, id, NOTHING);
      CloseStreamShare(cfg, s, id);
      CloseSessionShare(cfg, gone);
      QueueFrameShare(cfg, gone, f);
      SharedTrans(cfg, s, gone, CloseSession(gone));
      if QueueFrame(cfg, gone, f).Some? {
        SharedTrans(cfg, s, gone, QueueFrame(cfg, gone, f).value);
      }
    }
  }

  lemma LaneReleasedShare(cfg: Config, s: State, k: nat)
    requires GoodConfig(cfg) && WritesCounted(s)
    ensures Shared(cfg, s, LaneReleased(cfg, s, k))
  {
    hide Shared, CloseStream, DropLane;
    SameLanesShare(cfg, s, s);
    DropLaneShare(cfg, s, k);
    if k in s.streams {
      CloseStreamShare(cfg, s, k);
      DropLaneShare(cfg, CloseStream(cfg, s, k), k);
      SharedTrans(cfg, s, CloseStream(cfg, s, k), DropLane(CloseStream(cfg, s, k), k));
    }
  }

  lemma LaneAcquiredShare(cfg: Config, s: State, k: nat)
    requires GoodConfig(cfg)
    ensures Shared(cfg, s, LaneAcquired(cfg, s, k).0)
  {
    hide Shared, LaneControl, ControlCharged, AddLane;
    SameLanesShare(cfg, s, s);
    var s1 := if k in s.lanes then s else AddLane(s, k);
    AddLaneShape(s, k);
    if k !in s.lanes {
      AddLaneShare(cfg, s, k);
    }
    var lane := s1.lanes[k].(websocketActive := true);
    SetLaneControl(s1, k, lane);
    SameLaneControl(s1.lanes[k], lane);
    MergeShare(cfg, s1, k, lane, NOTHING);
    SharedTrans(cfg, s, s1, s1.(lanes := s1.lanes[k := lane]));
  }

  lemma StepShare(cfg: Config, s: State, e: Event)
    requires Inv(cfg, s, NOTHING) && !e.OthersMovePool? && GoodConfig(cfg)
    ensures Shared(cfg, s, SessionSteps.Step(cfg, s, e))
  {
    hide Inv, Shared, UpBegins, UpFinishes, UpOnLane, SessionSteps.PollArrives, SessionSteps.PollWakes, WriteTaken;
    hide BackendDrained, BackendWriteFinished, BackendData, BackendClosed, SocketAcquired, LaneAcquired, LaneReleased;
    hide CloseSession, WritesCounted;
    InvPending(cfg, s);
    SameLanesShare(cfg, s, s);
    match e
    case Begin(sequence, body) => BeginsShare(cfg, s, sequence, body);
    case Finish(sequence, body, admits) =>
      if !cfg.UsesLanes() {
        FinishesShare(cfg, s, sequence, body, admits);
      }
    case UpLane(k, sequence, body, admits) =>
      if cfg.UsesLanes() {
        UpOnLaneShare(cfg, s, k, sequence, body, admits);
      }
    case FailLane(k) =>
      CloseSessionShare(cfg, s);
      LaneReleasedShare(cfg, s, k);
    case Arrive(k, poll) => PollArrivesShare(cfg, s, k, poll);
    case Wake(k, birth, poll, why) => PollWakesShare(cfg, s, k, birth, poll, why);
    case TakeWrite(id) => TakeWriteShare(cfg, s, id);
    case Drained(id, amount) => DrainedShare(cfg, s, id, amount);
    case WriteFinished(id) => WriteFinishedShare(cfg, s, id);
    case ReadData(id, data) => ReadDataShare(cfg, s, id, data);
    case BackendGone(id, backend) => BackendClosedShare(cfg, s, id, backend);
    case AcquireSocket => SocketShare(cfg, s);
    case AcquireLane(k) => LaneAcquiredShare(cfg, s, k);
    case ReleaseLane(k) => LaneReleasedShare(cfg, s, k);
    case CloseAll => CloseSessionShare(cfg, s);
  }

  lemma BeginsShare(cfg: Config, s: State, sequence: nat, body: Bytes)
    requires GoodConfig(cfg)
    ensures Shared(cfg, s, UpBegins(s, sequence, body).0)
  {
    hide Shared;
    SameLanesShare(cfg, s, s);
    if 0 in s.lanes {
      SetUpShare(cfg, s, 0, s.lanes[0].up.(active := true));
    }
  }

  lemma TakeWriteShare(cfg: Config, s: State, id: nat)
    requires GoodConfig(cfg)
    ensures Shared(cfg, s, WriteTaken(s, id))
  {
    hide Shared;
    SameLanesShare(cfg, s, WriteTaken(s, id));
  }

  lemma SocketShare(cfg: Config, s: State)
    requires GoodConfig(cfg)
    ensures Shared(cfg, s, SocketAcquired(cfg, s).0)
  {
    hide Shared;
    SameLanesShare(cfg, s, SocketAcquired(cfg, s).0);
  }

  // The manager with all its sessions.

  ghost function DataParts(sys: System): map<nat, Charge> {
    map i | i in sys.members :: DataPart(sys.members[i].s)
  }

  ghost predicate WithinShares(global: Limits, sys: System)
    requires Sane(global)
  {
    && Sum(DataParts(sys)).Within(PoolLimits(global, Downlink))
    && |sys.members| <= global.maxSessionsGlobal
    && forall i | i in sys.members ::
         GoodConfig(sys.members[i].cfg) && DataPart(sys.members[i].s).Within(UplinkLimits(sys.members[i].cfg.limits))
  }

  lemma PoolLimitNonnegative(l: Limits)
    requires Sane(l)
    ensures NOTHING.Within(PoolLimits(l, Downlink))
  {
    QuotientBound(ControlReserve(l).cost, l.maxPendingGlobal, l.maxSessionsGlobal);
    QuotientBound(ControlReserve(l).items, l.maxPendingItemsGlobal, l.maxSessionsGlobal);
    hide ControlReserve;
  }

  lemma SumLess(m: map<nat, Charge>, n: map<nat, Charge>, k: nat)
    requires m.Keys == n.Keys && (forall j | j in m :: m[j].Within(n[j])) && k in m
    ensures Sum(m - {k}).Within(Sum(n).Minus(n[k]))
  {
    hide Sum;
    SumMonotone(m - {k}, n - {k});
    SumDelete(n, k);
  }

  /** One session acts; the others' data stays within what they hold of the pool. */
  lemma ActsWithinShares(global: Limits, sys: System, i: nat, e: Event)
    requires Sane(global) && GoodSystem(global, sys) && WithinShares(global, sys)
    requires i in sys.members && !e.OthersMovePool? && Issued(global, sys.members[i].cfg)
    requires !Crashes(sys.members[i].cfg, At(sys, i), e)
    ensures var t := SessionSteps.Step(sys.members[i].cfg, At(sys, i), e);
      WithinShares(global, System(sys.members[i := sys.members[i].(s := t)], t.pool))
  {
    hide Inv, Sum, SessionSteps.Step, Crashes, DataPart, PoolLimits, UplinkLimits, Issued, Pendings;
    var cfg, s := sys.members[i].cfg, At(sys, i);
    assert GoodMember(global, sys, i);
    IssuedMeans(global, cfg);
    var t := SessionSteps.Step(cfg, s, e);
    StepShare(cfg, s, e);
    StepInv(cfg, s, e);
    PanicOff(cfg, t, NOTHING);
    SamePart(s, sys.members[i].s);
    OthersHold(global, sys, i);
    ShareMoves(global, DataParts(sys), i, DataPart(t), sys.pool.Minus(s.pending));
    hide GoodSystem, GoodMember, WithinShares;
    SharesAssembled(global, sys, i, t);
  }

  /** One session's share moves, within its own limit and with the pool's total within the pool's. */
  lemma SharesAssembled(global: Limits, sys: System, i: nat, t: State)
    requires Sane(global) && WithinShares(global, sys) && i in sys.members && GoodConfig(sys.members[i].cfg)
    requires Sum(DataParts(sys)[i := DataPart(t)]).Within(PoolLimits(global, Downlink))
    requires DataPart(t).Within(UplinkLimits(sys.members[i].cfg.limits))
    ensures WithinShares(global, System(sys.members[i := sys.members[i].(s := t)], t.pool))
  {
    hide Sum, DataPart, PoolLimits, UplinkLimits;
    var sys' := System(sys.members[i := sys.members[i].(s := t)], t.pool);
    assert DataParts(sys') == DataParts(sys)[i := DataPart(t)];
    assert sys'.members.Keys == sys.members.Keys;
    SameCount(sys.members, sys'.members);
  }

  /** One entry of the data shares changes; the others' are within `others`. */
  lemma ShareMoves(global: Limits, parts: map<nat, Charge>, i: nat, part: Charge, others: Charge)
    requires Sane(global) && i in parts && Sum(parts).Within(PoolLimits(global, Downlink))
    requires Sum(parts - {i}).Within(others)
    requires Contained(parts[i].cost, part.cost, others.cost, PoolLimits(global, Downlink).cost)
    requires Contained(parts[i].items, part.items, others.items, PoolLimits(global, Downlink).items)
    ensures Sum(parts[i := part]).Within(PoolLimits(global, Downlink))
  {
    hide Sum, PoolLimits;
    SumUpdate(parts, i, part);
    SumDelete(parts, i);
  }

  lemma SameCount(m: map<nat, Member>, n: map<nat, Member>)
    requires m.Keys == n.Keys
    ensures |m| == |n|
  {
    assert |m| == |m.Keys| && |n| == |n.Keys|;
  }

  lemma SamePart(s: State, t: State)
    requires s.lanes == t.lanes && s.pending == t.pending
    ensures DataPart(s) == DataPart(t)
  {
  }

  lemma OthersHold(global: Limits, sys: System, i: nat)
    requires GoodSystem(global, sys) && i in sys.members
    ensures Sum(DataParts(sys) - {i}).Within(sys.pool.Minus(sys.members[i].s.pending))
  {
    hide Inv, Sum, DataPart, Issued;
    forall j | j in sys.members
      ensures DataPart(sys.members[j].s).Within(sys.members[j].s.pending)
    {
      assert GoodMember(global, sys, j);
      DataPartBounds(sys.members[j].cfg, At(sys, j));
      SamePart(At(sys, j), sys.members[j].s);
    }
    SumLess(DataParts(sys), Pendings(sys), i);
  }

  lemma NothingJoins(parts: map<nat, Charge>, i: nat)
    requires i !in parts
    ensures Sum(parts[i := NOTHING]) == Sum(parts)
  {
    hide Sum;
    SumUpdate(parts, i, NOTHING);
  }

  lemma JoinsWithinShares(global: Limits, sys: System, i: nat, cfg: Config)
    requires Sane(global) && WithinShares(global, sys) && i !in sys.members && GoodConfig(cfg)
    requires |sys.members| < global.maxSessionsGlobal
    ensures WithinShares(global, sys.(members := sys.members[i := Member(cfg, NewSession(cfg, sys.pool))]))
  {
    hide Sum, DataPart, PoolLimits, UplinkLimits, NewSession, WithinShares;
    NewSessionPart(cfg, sys.pool);
    NothingJoins(DataParts(sys), i);
    UplinkNonnegative(cfg.limits);
    JoinAssembled(global, sys, i, cfg, NewSession(cfg, sys.pool));
  }

  lemma JoinAssembled(global: Limits, sys: System, i: nat, cfg: Config, s: State)
    requires Sane(global) && WithinShares(global, sys) && i !in sys.members && GoodConfig(cfg)
    requires |sys.members| < global.maxSessionsGlobal && DataPart(s) == NOTHING
    requires Sum(DataParts(sys)[i := NOTHING]) == Sum(DataParts(sys)) && NOTHING.Within(UplinkLimits(cfg.limits))
    ensures WithinShares(global, sys.(members := sys.members[i := Member(cfg, s)]))
  {
    hide Sum, DataPart, PoolLimits, UplinkLimits, DataParts, Sane;
    JoinedParts(sys, i, cfg, s);
    OneMoreMember(sys.members, i, Member(cfg, s));
  }

  lemma JoinedParts(sys: System, i: nat, cfg: Config, s: State)
    ensures DataParts(sys.(members := sys.members[i := Member(cfg, s)])) == DataParts(sys)[i := DataPart(s)]
  {
    hide DataPart;
  }

  lemma OneMoreMember(m: map<nat, Member>, i: nat, x: Member)
    requires i !in m
    ensures |m[i := x]| == |m| + 1
  {
    assert m[i := x].Keys == m.Keys + {i};
    assert |m[i := x]| == |m[i := x].Keys| && |m| == |m.Keys|;
  }

  lemma UplinkNonnegative(l: Limits)
    requires Sane(l)
    ensures NOTHING.Within(UplinkLimits(l))
  {
    hide ControlReserve;
  }

  lemma NewSessionPart(cfg: Config, pool: Charge)
    requires GoodConfig(cfg)
    ensures DataPart(NewSession(cfg, pool)) == NOTHING
  {
    hide Sum, LaneControl;
    NewLaneControl(0);
    SumOfNothing(LaneControls(NewSession(cfg, pool).lanes));
  }

  lemma LeavesWithinShares(global: Limits, sys: System, i: nat)
    requires Sane(global) && GoodSystem(global, sys) && WithinShares(global, sys) && i in sys.members
    ensures WithinShares(global, sys.(members := sys.members - {i}))
  {
    hide Sum, DataPart, PoolLimits, UplinkLimits, Inv, Issued;
    var sys' := sys.(members := sys.members - {i});
    assert GoodMember(global, sys, i);
    DataPartBounds(sys.members[i].cfg, At(sys, i));
    SamePart(At(sys, i), sys.members[i].s);
    SumDelete(DataParts(sys), i);
    assert DataParts(sys') == DataParts(sys) - {i};
    assert sys'.members.Keys == sys.members.Keys - {i};
  }

  lemma StartWithinShares(global: Limits)
    requires Sane(global)
    ensures WithinShares(global, System(map[], NOTHING))
  {
    hide Sum, PoolLimits;
    SumOfNothing(DataParts(System(map[], NOTHING)));
    PoolLimitNonnegative(global);
  }

  /**
   * Over every run of the whole relay, the charges for DATA, buffered, queued or unacknowledged, stay
   * within the pool's limit for data all together, and within the session's own limit one by one.
   */
  lemma {:induction false} DataStaysInItsShare(global: Limits, events: seq<SystemEvent>)
    requires Sane(global) && NoneCrashes(global, events)
    ensures WithinShares(global, RunAll(global, events))
  {
    hide GoodSystem, WithinShares, Crashes, SessionSteps.Step, Issued;
    if |events| == 0 {
      StartWithinShares(global);
    } else {
      var sys := RunAll(global, events[..|events| - 1]);
      DataStaysInItsShare(global, events[..|events| - 1]);
      RunAllGood(global, events[..|events| - 1]);
      match events[|events| - 1]
      case Joins(i, cfg) =>
        if i !in sys.members && Issued(global, cfg) && |sys.members| < global.maxSessionsGlobal {
          IssuedMeans(global, cfg);
          JoinsWithinShares(global, sys, i, cfg);
        }
      case Acts(i, e) =>
        if i in sys.members && !e.OthersMovePool? {
          ActsWithinShares(global, sys, i, e);
        }
      case Leaves(i) =>
        if i in sys.members && sys.members[i].s.closed {
          LeavesWithinShares(global, sys, i);
        }
    }
  }

  ghost function ControlParts(sys: System): map<nat, Charge> {
    map i | i in sys.members :: ControlCharged(sys.members[i].s)
  }

  lemma Regroup(a: Charge, b: Charge, c: Charge, d: Charge)
    ensures a.Plus(b).Plus(c.Plus(d)) == a.Plus(c).Plus(b.Plus(d))
  {
  }

  lemma {:induction false} SumSplits(m: map<nat, Charge>, a: map<nat, Charge>, b: map<nat, Charge>)
    requires m.Keys == a.Keys == b.Keys && forall k | k in m :: m[k] == a[k].Plus(b[k])
    ensures Sum(m) == Sum(a).Plus(Sum(b))
    decreases |m|
  {
    hide Sum, Charge.Plus;
    if |m| == 0 {
      SumOfNothing(m);
      SumOfNothing(a);
      SumOfNothing(b);
      PlusNothing(Sum(a));
    } else {
      var k := Pick(m);
      SumRemove(m, k);
      SumRemove(a, k);
      SumRemove(b, k);
      SumSplits(m - {k}, a - {k}, b - {k});
      Regroup(a[k], b[k], Sum(a - {k}), Sum(b - {k}));
    }
  }

  lemma OneMore(n: nat, c: int)
    ensures (n + 1) * c == n * c + c
  {
  }

  lemma {:induction false} SumBounded(m: map<nat, Charge>, c: Charge)
    requires forall k | k in m :: m[k].Within(c)
    ensures Sum(m).cost <= |m| * c.cost && Sum(m).items <= |m| * c.items
    decreases |m|
  {
    hide Sum;
    if |m| == 0 {
      SumOfNothing(m);
    } else {
      var k := Pick(m);
      SumRemove(m, k);
      SumBounded(m - {k}, c);
      assert (m - {k}).Keys == m.Keys - {k};
      OneMore(|m - {k}|, c.cost);
      OneMore(|m - {k}|, c.items);
    }
  }

  lemma PoolIsDataAndControl(sys: System)
    ensures Sum(Pendings(sys)) == Sum(DataParts(sys)).Plus(Sum(ControlParts(sys)))
  {
    hide Sum, ControlCharged;
    SumSplits(Pendings(sys), DataParts(sys), ControlParts(sys));
  }

  /** Every session's control frames, and the further `want` of session `i`, are within one session's reserve. */
  ghost predicate ControlWithinReserves(global: Limits, sys: System, i: nat, want: Charge)
    requires Sane(global)
  {
    forall j | j in sys.members ::
      ControlCharged(sys.members[j].s).Plus(if j == i then want else NOTHING).Within(ControlReserve(global))
  }

  lemma ControlTotal(global: Limits, sys: System, i: nat, want: Charge)
    requires Sane(global) && i in sys.members && |sys.members| <= global.maxSessionsGlobal
    requires ControlWithinReserves(global, sys, i, want)
    ensures var total := Sum(ControlParts(sys)).Plus(want);
      && total.cost <= ControlReserve(global).cost * global.maxSessionsGlobal
      && total.items <= ControlReserve(global).items * global.maxSessionsGlobal
  {
    hide Sum, ControlCharged, ControlReserve;
    var parts := ControlParts(sys);
    var with := parts[i := parts[i].Plus(want)];
    SumUpdate(parts, i, parts[i].Plus(want));
    assert with.Keys == sys.members.Keys;
    assert |with| == |with.Keys| && |sys.members| == |sys.members.Keys|;
    forall j | j in with
      ensures with[j].Within(ControlReserve(global))
    {
      assert j in sys.members;
    }
    SumBounded(with, ControlReserve(global));
    Scale(|with|, global.maxSessionsGlobal, ControlReserve(global).cost);
    Scale(|with|, global.maxSessionsGlobal, ControlReserve(global).items);
  }

  lemma PoolHasControlRoom(l: Limits, data: Charge, control: Charge, want: Charge)
    requires Sane(l) && ValidateBudget(l) && data.Within(PoolLimits(l, Downlink))
    requires control.cost + want.cost <= ControlReserve(l).cost * l.maxSessionsGlobal
    requires control.items + want.items <= ControlReserve(l).items * l.maxSessionsGlobal
    requires data.cost >= 0 && data.items >= 0 && control.cost >= 0 && control.items >= 0
    ensures PoolAdmits(l, data.Plus(control), want, Control)
  {
    QuotientBound(ControlReserve(l).cost, l.maxPendingGlobal, l.maxSessionsGlobal);
    QuotientBound(ControlReserve(l).items, l.maxPendingItemsGlobal, l.maxSessionsGlobal);
    hide ControlReserve;
  }

  lemma PartsNonnegative(global: Limits, sys: System)
    requires GoodSystem(global, sys)
    ensures NOTHING.Within(Sum(DataParts(sys))) && NOTHING.Within(Sum(ControlParts(sys)))
  {
    hide Inv, Sum, DataPart, Issued, ControlCharged;
    forall j | j in sys.members
      ensures NOTHING.Within(DataPart(sys.members[j].s))
      ensures NOTHING.Within(ControlCharged(sys.members[j].s))
    {
      assert GoodMember(global, sys, j);
      DataPartBounds(sys.members[j].cfg, At(sys, j));
      SamePart(At(sys, j), sys.members[j].s);
      ControlsNonnegative(sys.members[j].s);
    }
    SumNonnegative(DataParts(sys));
    SumNonnegative(ControlParts(sys));
  }

  /**
   * What the reserves are for: in every run of the whole relay, while each session's control frames
   * stay within one session's reserve, the pool never refuses a control frame, however much DATA the
   * sessions have tried to hold.
   */
  lemma ControlIsNeverRefused(global: Limits, events: seq<SystemEvent>, i: nat, want: Charge)
    requires Sane(global) && ValidateBudget(global) && NoneCrashes(global, events)
    requires i in RunAll(global, events).members
    requires ControlWithinReserves(global, RunAll(global, events), i, want)
    ensures PoolAdmits(global, RunAll(global, events).pool, want, Control)
  {
    hide Sum, RunAll, NoneCrashes, ControlReserve, PoolLimits, DataPart, ControlCharged, PoolAdmits, ValidateBudget;
    hide ControlWithinReserves;
    var sys := RunAll(global, events);
    RunAllGood(global, events);
    DataStaysInItsShare(global, events);
    PartsNonnegative(global, sys);
    PoolIsDataAndControl(sys);
    ControlTotal(global, sys, i, want);
    PoolHasControlRoom(global, Sum(DataParts(sys)), Sum(ControlParts(sys)), want);
  }

  /** Nor does the session itself, so the frame is queued. */
  lemma ControlFrameIsQueued(global: Limits, events: seq<SystemEvent>, i: nat, f: Frame)
    requires Sane(global) && ValidateBudget(global) && NoneCrashes(global, events) && PushClass(f) == Control
    requires var sys := RunAll(global, events);
      && i in sys.members && sys.members[i].cfg.LaneOf(f.id) in sys.members[i].s.lanes
      && ControlWithinReserves(global, sys, i, Charge(FrameCost(f), 1))
      && var cfg := sys.members[i].cfg;
         && GoodConfig(cfg) && ControlReserve(cfg.limits).Within(SessionCap(cfg.limits))
         && ControlCharged(sys.members[i].s).Plus(Charge(FrameCost(f), 1)).Within(ControlReserve(cfg.limits))
    ensures var sys := RunAll(global, events);
      QueueFrame(sys.members[i].cfg, At(sys, i), f).Some?
  {
    hide Sum, RunAll, NoneCrashes, ControlReserve, PoolLimits, ControlCharged, PoolAdmits, ValidateBudget, Place, Push;
    hide ControlWithinReserves;
    var sys := RunAll(global, events);
    ControlIsNeverRefused(global, events, i, Charge(FrameCost(f), 1));
    DataStaysInItsShare(global, events);
    RunAllGood(global, events);
    assert GoodMember(global, sys, i);
    IssuedMeans(global, sys.members[i].cfg);
    SamePart(At(sys, i), sys.members[i].s);
    ControlsNonnegative(sys.members[i].s);
    DataPartBounds(sys.members[i].cfg, At(sys, i));
  }
}

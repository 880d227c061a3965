/**
 * A session as a value: its streams, tombstones, carriers and pending budget, the primitives every
 * operation is made of, and the equations they keep.
 *
 * A carrier that is not split into lanes is lane zero here, and the frames of every stream go to it.
 */
module SessionState {
  import opened Outcomes
  import opened Frames
  import opened Limits
  import opened Charges
  import opened Queue
  import opened Streams
  import opened Tombstones
  import opened Poll
  import opened Uplink

  datatype Carrier = Https | HttpsLanes | WebSocket | WebSocketLanes

  /** `limits` are the session's own, `global` the manager's. */
  datatype Config = Config(limits: Limits, global: Limits, carrier: Carrier) {
    predicate UsesLanes() {
      carrier.HttpsLanes? || carrier.WebSocketLanes?
    }

    /** The carrier whose queue takes a stream's frames. */
    function LaneOf(id: nat): nat {
      if UsesLanes() then id else 0
    }
  }

  predicate GoodConfig(cfg: Config) {
    Sane(cfg.limits) && Sane(cfg.global)
  }

  /** `birth` tells a lane from a later one under the same id, as the pointer does. */
  datatype Lane = Lane(birth: int, up: Up, websocketActive: bool, down: Down)

  function NewLane(birth: int): Lane {
    Lane(birth, NEW_UP, false, NEW_DOWN)
  }

  /** `pool` is the manager's global count; `panicked` records a release either count could not cover. */
  datatype State = State(
    streams: map<nat, Stream>,
    tombs: seq<nat>,
    lanes: map<nat, Lane>,
    pending: Charge,
    pool: Charge,
    closed: bool,
    websocketActive: bool,
    nextBackend: int,
    nextBirth: int,
    panicked: bool)

  function NewSession(cfg: Config, pool: Charge): State {
    var lanes := if cfg.carrier.WebSocketLanes? then map[] else map[0 := NewLane(0)];
    State(map[], [], lanes, NOTHING, pool, false, false, 0, 1, false)
  }

  // Primitives.

  /** reservePendingLocked. */
  function Reserve(cfg: Config, s: State, want: Charge, purpose: Class): Option<State>
    requires GoodConfig(cfg)
  {
    if SessionAdmits(cfg.limits, s.pending, want, purpose) && PoolAdmits(cfg.global, s.pool, want, purpose) then
      Some(s.(pending := s.pending.Plus(want), pool := s.pool.Plus(want)))
    else None
  }

  /** releasePendingLocked; it panics before touching anything, the manager's count only after. */
  function Release(s: State, c: Charge): State {
    if c == NOTHING then s
    else if c.cost < 0 || c.items < 0 || !c.Within(s.pending) then s.(panicked := true)
    else s.(pending := s.pending.Minus(c), pool := s.pool.Minus(c), panicked := s.panicked || !c.Within(s.pool))
  }

  /** queueFrameLocked and queueLaneFrameLocked. None is the `return false`. */
  function QueueFrame(cfg: Config, s: State, f: Frame): Option<State>
    requires GoodConfig(cfg)
  {
    var k := cfg.LaneOf(f.id);
    if k !in s.lanes then None
    else
      var lane, limit := s.lanes[k], cfg.limits.maxFramePayload;
      var q := lane.down.queue;
      var queued := lane.(down := lane.down.(queue := Push(q, f, limit)));
      if Place(q, f, limit).MergeWindow? then Some(s.(lanes := s.lanes[k := queued]))
      else
        match Reserve(cfg, s, PushCharge(q, f, limit), PushClass(f))
        case None => None
        case Some(r) => Some(r.(lanes := r.lanes[k := queued]))
  }

  function LaneCharge(lane: Lane): Charge {
    ChargeOf(lane.down.queue).Plus(ChargeOf(lane.down.unacked))
  }

  /** releaseLaneLocked followed by the lane's removal. */
  function DropLane(s: State, k: nat): State {
    if k in s.lanes then Release(s, LaneCharge(s.lanes[k])).(lanes := s.lanes - {k}) else s
  }

  /** rememberClosedLocked; in lane modes the evicted id's lane goes too. */
  function RememberClosed(cfg: Config, s: State, id: nat): State
    requires GoodConfig(cfg)
  {
    var cap := cfg.limits.maxClosedStreamIDs;
    var remembered := s.(tombs := Remember(s.tombs, id, cap));
    match Evicted(s.tombs, id, cap)
    case Some(oldest) => if cfg.UsesLanes() then DropLane(remembered, oldest) else remembered
    case None => remembered
  }

  /** releaseStreamWritesLocked, the deletion, and the tombstone. */
  function CloseStream(cfg: Config, s: State, id: nat): State
    requires GoodConfig(cfg) && id in s.streams
  {
    var released := Release(s, WriteCharge(s.streams[id]));
    RememberClosed(cfg, released.(streams := s.streams - {id}), id)
  }

  function Emptied(lane: Lane): Lane {
    lane.(down := lane.down.(queue := [], unacked := []))
  }

  /** closeLocked. */
  function CloseSession(s: State): State {
    if s.closed then s
    else
      s.(closed := true, streams := map[], pending := NOTHING, pool := s.pool.Minus(s.pending),
         panicked := s.panicked || !s.pending.Within(s.pool),
         lanes := map k | k in s.lanes :: Emptied(s.lanes[k]))
  }

  // What the session is charged for.

  function LaneCharges(lanes: map<nat, Lane>): map<nat, Charge> {
    map k | k in lanes :: LaneCharge(lanes[k])
  }

  function WriteCharges(streams: map<nat, Stream>): map<nat, Charge> {
    map id | id in streams :: WriteCharge(streams[id])
  }

  /** Queued and unacknowledged frames on every carrier, and every live stream's buffered writes. */
  ghost function Charged(s: State): Charge {
    Sum(LaneCharges(s.lanes)).Plus(Sum(WriteCharges(s.streams)))
  }

  predicate OwnFrames(q: seq<Frame>, k: nat) {
    forall i | 0 <= i < |q| :: q[i].id == k
  }

  predicate GoodLane(cfg: Config, k: nat, lane: Lane) {
    && AllQueueable(lane.down.queue) && AllQueueable(lane.down.unacked)
    && HandedOver(lane.down)
    && Dense(lane.down.queue, cfg.limits.maxFramePayload)
    && (cfg.UsesLanes() ==> OwnFrames(lane.down.queue, k) && OwnFrames(lane.down.unacked, k))
  }

  predicate EmptyLane(lane: Lane) {
    lane.down.queue == [] && lane.down.unacked == []
  }

  predicate GoodStream(cfg: Config, s: State, id: nat)
    requires id in s.streams
  {
    && Balanced(s.streams[id])
    && 0 < id <= MAX_STREAM_ID && id !in s.tombs
    && cfg.LaneOf(id) in s.lanes
  }

  predicate Structured(cfg: Config, s: State) {
    && GoodConfig(cfg)
    && WellFormed(s.tombs, cfg.limits.maxClosedStreamIDs)
    && (forall id | id in s.streams :: GoodStream(cfg, s, id))
    && |s.streams| <= cfg.limits.maxStreamsPerSession
    && (forall k | k in s.lanes :: GoodLane(cfg, k, s.lanes[k]))
    && (!cfg.UsesLanes() ==> 0 in s.lanes)
    && (s.closed ==> s.streams == map[] && forall k | k in s.lanes :: EmptyLane(s.lanes[k]))
  }

  /** The session's count is what it is charged for plus `held`, a reservation not yet used. */
  ghost predicate Books(s: State, held: Charge) {
    && s.pending.cost == Charged(s).cost + held.cost && s.pending.items == Charged(s).items + held.items
    && held.cost >= 0 && held.items >= 0
    && s.pending.Within(s.pool)
    && !s.panicked
  }

  ghost predicate Inv(cfg: Config, s: State, held: Charge) {
    Structured(cfg, s) && Books(s, held)
  }

  lemma NewSessionStructured(cfg: Config, pool: Charge)
    requires GoodConfig(cfg)
    ensures Structured(cfg, NewSession(cfg, pool))
  {
  }

  lemma NewSessionUncharged(cfg: Config, pool: Charge)
    ensures Charged(NewSession(cfg, pool)) == NOTHING
  {
    hide Charged;
    ChargedWhenEmpty(NewSession(cfg, pool));
  }

  lemma NewSessionInv(cfg: Config, pool: Charge)
    requires GoodConfig(cfg) && pool.cost >= 0 && pool.items >= 0
    ensures Inv(cfg, NewSession(cfg, pool), NOTHING)
  {
    hide Charged, Structured, Charge.Plus;
    NewSessionStructured(cfg, pool);
    NewSessionUncharged(cfg, pool);
    PlusNothing(NOTHING);
  }

  // Charges of single entries.

  lemma ChargesNonnegative(cfg: Config, s: State)
    requires Structured(cfg, s)
    ensures Charged(s).cost >= 0 && Charged(s).items >= 0
    ensures forall k | k in s.lanes ::
      NOTHING.Within(LaneCharge(s.lanes[k])) && LaneCharge(s.lanes[k]).Within(Charged(s))
    ensures forall id | id in s.streams ::
      NOTHING.Within(WriteCharge(s.streams[id])) && WriteCharge(s.streams[id]).Within(Charged(s))
  {
    hide Sum, Size;
    var lanes, writes := LaneCharges(s.lanes), WriteCharges(s.streams);
    SumNonnegative(lanes);
    forall id | id in s.streams
      ensures writes[id].cost >= 0 && writes[id].items >= 0
    {
      assert GoodStream(cfg, s, id);
    }
    SumNonnegative(writes);
    forall k | k in s.lanes
      ensures NOTHING.Within(LaneCharge(s.lanes[k])) && LaneCharge(s.lanes[k]).Within(Charged(s))
    {
      EntryWithinSum(lanes, k);
    }
    forall id | id in s.streams
      ensures NOTHING.Within(WriteCharge(s.streams[id])) && WriteCharge(s.streams[id]).Within(Charged(s))
    {
      EntryWithinSum(writes, id);
    }
  }

  lemma SameCharged(s: State, t: State)
    requires s.lanes == t.lanes && s.streams == t.streams
    ensures Charged(s) == Charged(t)
  {
  }

  lemma SameStructured(cfg: Config, s: State, t: State)
    requires Structured(cfg, s)
    requires t == s.(pending := t.pending, pool := t.pool, panicked := t.panicked)
    ensures Structured(cfg, t)
  {
    hide WellFormed, Balanced, Sane, GoodLane;
    assert forall id | id in t.streams :: GoodStream(cfg, s, id) ==> GoodStream(cfg, t, id);
  }

  lemma ChargedWhenEmpty(s: State)
    requires s.streams == map[] && forall k | k in s.lanes :: EmptyLane(s.lanes[k])
    ensures Charged(s) == NOTHING
  {
    hide Sum, ChargeOf, LaneCharge, EmptyLane;
    forall k | k in s.lanes
      ensures LaneCharge(s.lanes[k]) == NOTHING
    {
      EmptyLaneCharge(s.lanes[k]);
    }
    SumOfNothing(LaneCharges(s.lanes));
    SumOfNothing(WriteCharges(s.streams));
  }

  lemma EmptyLaneCharge(lane: Lane)
    requires EmptyLane(lane)
    ensures LaneCharge(lane) == NOTHING
  {
    hide ChargeOf;
    ChargeOfEmpty(lane.down.queue);
    ChargeOfEmpty(lane.down.unacked);
  }

  lemma LaneChargesOf(lanes: map<nat, Lane>, k: nat, lane: Lane)
    ensures LaneCharges(lanes[k := lane]) == LaneCharges(lanes)[k := LaneCharge(lane)]
    ensures LaneCharges(lanes - {k}) == LaneCharges(lanes) - {k}
    ensures Entry(LaneCharges(lanes), k) == if k in lanes then LaneCharge(lanes[k]) else NOTHING
  {
    hide LaneCharge;
  }

  lemma WriteChargesOf(streams: map<nat, Stream>, id: nat, st: Stream)
    ensures WriteCharges(streams[id := st]) == WriteCharges(streams)[id := WriteCharge(st)]
    ensures WriteCharges(streams - {id}) == WriteCharges(streams) - {id}
    ensures Entry(WriteCharges(streams), id) == if id in streams then WriteCharge(streams[id]) else NOTHING
  {
    hide WriteCharge;
  }

  lemma SwapFirst(a: Charge, b: Charge, c: Charge, d: Charge)
    ensures a.Minus(c).Plus(d).Plus(b) == a.Plus(b).Minus(c).Plus(d)
    ensures a.Minus(c).Plus(b) == a.Plus(b).Minus(c)
  {
  }

  lemma SwapSecond(a: Charge, b: Charge, c: Charge, d: Charge)
    ensures a.Plus(b.Minus(c).Plus(d)) == a.Plus(b).Minus(c).Plus(d)
    ensures a.Plus(b.Minus(c)) == a.Plus(b).Minus(c)
  {
  }

  lemma SetLaneCharged(s: State, k: nat, lane: Lane)
    ensures var s' := s.(lanes := s.lanes[k := lane]);
      Charged(s') == Charged(s).Minus(if k in s.lanes then LaneCharge(s.lanes[k]) else NOTHING).Plus(LaneCharge(lane))
  {
    hide Sum, LaneCharges, WriteCharges, LaneCharge, Charge.Plus, Charge.Minus, Entry;
    var lanes := LaneCharges(s.lanes);
    LaneChargesOf(s.lanes, k, lane);
    SumUpdate(lanes, k, LaneCharge(lane));
    SwapFirst(Sum(lanes), Sum(WriteCharges(s.streams)), Entry(lanes, k), LaneCharge(lane));
  }

  lemma RemoveLaneCharged(s: State, k: nat)
    requires k in s.lanes
    ensures Charged(s.(lanes := s.lanes - {k})) == Charged(s).Minus(LaneCharge(s.lanes[k]))
  {
    hide Sum, LaneCharges, WriteCharges, LaneCharge, Charge.Plus, Charge.Minus, Entry;
    var lanes := LaneCharges(s.lanes);
    LaneChargesOf(s.lanes, k, s.lanes[k]);
    SumDelete(lanes, k);
    SwapFirst(Sum(lanes), Sum(WriteCharges(s.streams)), Entry(lanes, k), NOTHING);
  }

  lemma SetStreamCharged(s: State, id: nat, st: Stream)
    ensures var s' := s.(streams := s.streams[id := st]);
      Charged(s') ==
      Charged(s).Minus(if id in s.streams then WriteCharge(s.streams[id]) else NOTHING).Plus(WriteCharge(st))
  {
    hide Sum, LaneCharges, WriteCharges, WriteCharge, Charge.Plus, Charge.Minus, Entry;
    var writes := WriteCharges(s.streams);
    WriteChargesOf(s.streams, id, st);
    SumUpdate(writes, id, WriteCharge(st));
    SwapSecond(Sum(LaneCharges(s.lanes)), Sum(writes), Entry(writes, id), WriteCharge(st));
  }

  lemma RemoveStreamCharged(s: State, id: nat)
    requires id in s.streams
    ensures Charged(s.(streams := s.streams - {id})) == Charged(s).Minus(WriteCharge(s.streams[id]))
  {
    hide Sum, LaneCharges, WriteCharges, WriteCharge, Charge.Plus, Charge.Minus, Entry;
    var writes := WriteCharges(s.streams);
    WriteChargesOf(s.streams, id, s.streams[id]);
    SumDelete(writes, id);
    SwapSecond(Sum(LaneCharges(s.lanes)), Sum(writes), Entry(writes, id), NOTHING);
  }

  // Each primitive keeps the equations, and accounts for what is held.

  lemma ReserveInv(cfg: Config, s: State, want: Charge, purpose: Class, held: Charge)
    requires Inv(cfg, s, held) && Reserve(cfg, s, want, purpose).Some?
    ensures Inv(cfg, Reserve(cfg, s, want, purpose).value, held.Plus(want))
  {
    hide Charged, Sum, LaneCharges, WriteCharges, ChargeOf, WellFormed, Balanced, Sane, AllQueueable, OwnFrames, Dense;
    hide HandedOver;
    var s' := Reserve(cfg, s, want, purpose).value;
    SameCharged(s, s');
    assert forall id | id in s'.streams :: GoodStream(cfg, s, id) ==> GoodStream(cfg, s', id);
  }

  lemma ReleaseInv(cfg: Config, s: State, c: Charge, held: Charge)
    requires Inv(cfg, s, held) && c.cost >= 0 && c.items >= 0 && c.Within(held)
    ensures Inv(cfg, Release(s, c), held.Minus(c))
  {
    hide Charged, Sum, LaneCharges, WriteCharges, ChargeOf, WellFormed, Balanced, Sane, AllQueueable, OwnFrames, Dense;
    hide HandedOver;
    ChargesNonnegative(cfg, s);
    var s' := Release(s, c);
    SameCharged(s, s');
    assert forall id | id in s'.streams :: GoodStream(cfg, s, id) ==> GoodStream(cfg, s', id);
  }

  /** Replacing one lane; whatever it is charged more comes out of what is held. */
  lemma SetLaneInv(cfg: Config, s: State, k: nat, lane: Lane, held: Charge, held': Charge)
    requires Inv(cfg, s, held) && GoodLane(cfg, k, lane)
    requires s.closed ==> EmptyLane(lane)
    requires held' ==
      held.Plus(if k in s.lanes then LaneCharge(s.lanes[k]) else NOTHING).Minus(LaneCharge(lane))
    requires held'.cost >= 0 && held'.items >= 0
    ensures Inv(cfg, s.(lanes := s.lanes[k := lane]), held')
  {
    hide Charged, Sum, LaneCharges, WriteCharges, ChargeOf, WellFormed, Balanced, Sane, AllQueueable, OwnFrames, Dense;
    hide HandedOver;
    var s' := s.(lanes := s.lanes[k := lane]);
    SetLaneCharged(s, k, lane);
    assert forall id | id in s'.streams :: GoodStream(cfg, s, id) ==> GoodStream(cfg, s', id);
  }

  lemma SetStreamInv(cfg: Config, s: State, id: nat, st: Stream, held: Charge, held': Charge)
    requires Inv(cfg, s, held) && Balanced(st) && !s.closed
    requires 0 < id <= MAX_STREAM_ID && id !in s.tombs && cfg.LaneOf(id) in s.lanes
    requires id in s.streams || |s.streams| < cfg.limits.maxStreamsPerSession
    requires held' ==
      held.Plus(if id in s.streams then WriteCharge(s.streams[id]) else NOTHING).Minus(WriteCharge(st))
    requires held'.cost >= 0 && held'.items >= 0
    ensures Inv(cfg, s.(streams := s.streams[id := st]), held')
  {
    hide Charged, Sum, LaneCharges, WriteCharges, ChargeOf, WellFormed, Balanced, Sane, AllQueueable, OwnFrames, Dense;
    hide HandedOver;
    var s' := s.(streams := s.streams[id := st]);
    SetStreamCharged(s, id, st);
    assert s'.streams.Keys == s.streams.Keys + {id};
    assert forall j | j in s.streams :: GoodStream(cfg, s, j);
  }

  lemma {:induction false} PushOwn(cfg: Config, k: nat, q: seq<Frame>, f: Frame)
    requires GoodConfig(cfg) && AllQueueable(q) && Queueable(f) && k == cfg.LaneOf(f.id)
    requires cfg.UsesLanes() ==> OwnFrames(q, k)
    ensures AllQueueable(Push(q, f, cfg.limits.maxFramePayload))
    ensures cfg.UsesLanes() ==> OwnFrames(Push(q, f, cfg.limits.maxFramePayload), k)
  {
    hide Amount, LastWindow;
    PushKeepsQueueable(q, f, cfg.limits.maxFramePayload);
  }

  /** A carrier with one more frame on its queue. */
  function WithPushed(cfg: Config, lane: Lane, f: Frame): Lane
    requires GoodConfig(cfg)
  {
    lane.(down := lane.down.(queue := Push(lane.down.queue, f, cfg.limits.maxFramePayload)))
  }

  lemma PushedLane(cfg: Config, k: nat, lane: Lane, f: Frame)
    requires GoodConfig(cfg) && GoodLane(cfg, k, lane) && Queueable(f) && k == cfg.LaneOf(f.id)
    ensures GoodLane(cfg, k, WithPushed(cfg, lane, f))
    ensures LaneCharge(WithPushed(cfg, lane, f)) ==
      LaneCharge(lane).Plus(PushCharge(lane.down.queue, f, cfg.limits.maxFramePayload))
  {
    hide Push, PushCharge, ChargeOf, AllQueueable, OwnFrames, Dense;
    PushOwn(cfg, k, lane.down.queue, f);
    PushKeepsDense(lane.down.queue, f, cfg.limits.maxFramePayload);
    PushRefinesAppend(lane.down.queue, f, cfg.limits.maxFramePayload, 0);
  }

  lemma MovesCharge(held: Charge, a: Charge, want: Charge)
    ensures want.cost == 0 && want.items == 0 ==> held.Plus(a).Minus(a.Plus(want)) == held
    ensures held.Plus(want).Plus(a).Minus(a.Plus(want)) == held
  {
  }

  lemma MergeIsFree(q: seq<Frame>, f: Frame, maxPayload: nat)
    requires Place(q, f, maxPayload).MergeWindow?
    ensures PushCharge(q, f, maxPayload).cost == 0 && PushCharge(q, f, maxPayload).items == 0
  {
  }

  lemma InvFacts(cfg: Config, s: State, held: Charge)
    requires Inv(cfg, s, held)
    ensures GoodConfig(cfg) && cfg.limits.maxFramePayload > 0 && held.cost >= 0 && held.items >= 0
    ensures forall k | k in s.lanes :: GoodLane(cfg, k, s.lanes[k])
  {
    hide Charged, GoodLane, GoodStream, WellFormed;
  }

  /** What QueueFrame does when it succeeds. */
  lemma QueuedFrame(cfg: Config, s: State, f: Frame)
    requires GoodConfig(cfg) && QueueFrame(cfg, s, f).Some?
    ensures var k := cfg.LaneOf(f.id);
      && k in s.lanes
      && var q, limit := s.lanes[k].down.queue, cfg.limits.maxFramePayload;
         var lane := WithPushed(cfg, s.lanes[k], f);
         if Place(q, f, limit).MergeWindow? then QueueFrame(cfg, s, f).value == s.(lanes := s.lanes[k := lane])
         else
           && Reserve(cfg, s, PushCharge(q, f, limit), PushClass(f)).Some?
           && var r := Reserve(cfg, s, PushCharge(q, f, limit), PushClass(f)).value;
              r.lanes == s.lanes && r.closed == s.closed
              && QueueFrame(cfg, s, f).value == r.(lanes := r.lanes[k := lane])
  {
    hide Push, Place, PushCharge, SessionAdmits, PoolAdmits, Charge.Plus;
  }

  /** Queuing charges exactly what it reserves. */
  lemma QueueFrameInv(cfg: Config, s: State, f: Frame, held: Charge)
    requires Inv(cfg, s, held) && !s.closed && Queueable(f)
    ensures QueueFrame(cfg, s, f).Some? ==> Inv(cfg, QueueFrame(cfg, s, f).value, held)
  {
    hide *;
    InvFacts(cfg, s, held);
    if QueueFrame(cfg, s, f).Some? {
      QueuedFrame(cfg, s, f);
      var k, limit := cfg.LaneOf(f.id), cfg.limits.maxFramePayload;
      var lane := s.lanes[k];
      var want := PushCharge(lane.down.queue, f, limit);
      PushedLane(cfg, k, lane, f);
      MovesCharge(held, LaneCharge(lane), want);
      if Place(lane.down.queue, f, limit).MergeWindow? {
        MergeIsFree(lane.down.queue, f, limit);
        SetLaneInv(cfg, s, k, WithPushed(cfg, lane, f), held, held);
      } else {
        ReserveInv(cfg, s, want, PushClass(f), held);
        SetLaneInv(cfg, Reserve(cfg, s, want, PushClass(f)).value, k, WithPushed(cfg, lane, f), held.Plus(want), held);
      }
    }
  }

  lemma DropLaneStructured(cfg: Config, s: State, k: nat)
    requires Structured(cfg, s) && cfg.UsesLanes() && k !in s.streams
    ensures Structured(cfg, s.(lanes := s.lanes - {k}))
  {
    hide WellFormed, Balanced, Sane, GoodLane;
    var s' := s.(lanes := s.lanes - {k});
    assert forall id | id in s'.streams :: GoodStream(cfg, s, id) ==> GoodStream(cfg, s', id);
  }

  lemma DropLaneInv(cfg: Config, s: State, k: nat, held: Charge)
    requires Inv(cfg, s, held) && cfg.UsesLanes() && k !in s.streams
    ensures Inv(cfg, DropLane(s, k), held)
  {
    hide Charged, Structured, LaneCharge, WriteCharge, ChargeOf;
    if k in s.lanes {
      ChargesNonnegative(cfg, s);
      DropLaneStructured(cfg, s, k);
      RemoveLaneCharged(s, k);
      var without := s.(lanes := s.lanes - {k});
      SameCharged(without, DropLane(s, k));
      SameStructured(cfg, without, DropLane(s, k));

    }
  }

  /** Remembering an id that is not live keeps live and remembered ids apart, and live streams' lanes. */
  lemma RememberClosedInv(cfg: Config, s: State, id: nat, held: Charge)
    requires Inv(cfg, s, held) && id !in s.streams
    ensures Inv(cfg, RememberClosed(cfg, s, id), held)
  {
    var cap := cfg.limits.maxClosedStreamIDs;
    RememberKeeps(s.tombs, id, cap);
    hide Remember;
    var r := s.(tombs := Remember(s.tombs, id, cap));
    SameCharged(s, r);
    forall j | j in r.streams
      ensures GoodStream(cfg, r, j)
    {
      assert GoodStream(cfg, s, j);
    }
    match Evicted(s.tombs, id, cap)
    case Some(oldest) =>
      if cfg.UsesLanes() {
        assert forall j | j in s.streams :: GoodStream(cfg, s, j);
        DropLaneInv(cfg, r, oldest, held);
      }
    case None =>
  }

  lemma RemoveStreamStructured(cfg: Config, s: State, id: nat)
    requires Structured(cfg, s) && id in s.streams
    ensures Structured(cfg, s.(streams := s.streams - {id}))
  {
    hide WellFormed, Balanced, Sane, GoodLane;
    var s' := s.(streams := s.streams - {id});
    assert s.streams.Keys == s'.streams.Keys + {id};
    assert forall j | j in s'.streams :: GoodStream(cfg, s, j) ==> GoodStream(cfg, s', j);
  }

  lemma RemoveStreamInv(cfg: Config, s: State, id: nat, held: Charge)
    requires Inv(cfg, s, held) && id in s.streams
    ensures Inv(cfg, Release(s, WriteCharge(s.streams[id])).(streams := s.streams - {id}), held)
  {
    hide Charged, Structured, LaneCharge, WriteCharge, ChargeOf;
    ChargesNonnegative(cfg, s);
    RemoveStreamStructured(cfg, s, id);
    RemoveStreamCharged(s, id);
    var without := s.(streams := s.streams - {id});
    var s' := Release(s, WriteCharge(s.streams[id])).(streams := s.streams - {id});
    SameCharged(without, s');
    SameStructured(cfg, without, s');
  }

  lemma CloseStreamInv(cfg: Config, s: State, id: nat, held: Charge)
    requires Inv(cfg, s, held) && id in s.streams
    ensures Inv(cfg, CloseStream(cfg, s, id), held)
  {
    RemoveStreamInv(cfg, s, id, held);
    RememberClosedInv(cfg, Release(s, WriteCharge(s.streams[id])).(streams := s.streams - {id}), id, held);
  }

  lemma CloseSessionStructured(cfg: Config, s: State)
    requires Structured(cfg, s) && !s.closed
    ensures Structured(cfg, CloseSession(s))
  {
    hide Sane, WellFormed, Balanced, GoodLane;
    var s' := CloseSession(s);
    forall k | k in s'.lanes
      ensures GoodLane(cfg, k, s'.lanes[k])
    {
      EmptiedGood(cfg, k, s.lanes[k]);
    }
  }

  lemma ClosedUncharged(s: State)
    requires !s.closed
    ensures Charged(CloseSession(s)) == NOTHING
  {
    hide Charged;
    ChargedWhenEmpty(CloseSession(s));
  }

  lemma ClosedIsEmpty(cfg: Config, s: State)
    requires Structured(cfg, s) && s.closed
    ensures Charged(s) == NOTHING
  {
    hide Charged;
    ChargedWhenEmpty(s);
  }

  lemma CloseSessionInv(cfg: Config, s: State)
    requires Inv(cfg, s, NOTHING)
    ensures Inv(cfg, CloseSession(s), NOTHING)
    ensures CloseSession(s).pending == NOTHING
  {
    hide Charged, Structured, Charge.Plus;
    PlusNothing(NOTHING);
    PlusNothing(Charged(s));
    if s.closed {
      ClosedIsEmpty(cfg, s);
    } else {
      CloseSessionStructured(cfg, s);
      ChargesNonnegative(cfg, s);
      ClosedUncharged(s);
    }
  }

  lemma EmptiedGood(cfg: Config, k: nat, lane: Lane)
    requires GoodLane(cfg, k, lane)
    ensures GoodLane(cfg, k, Emptied(lane))
  {
  }
}

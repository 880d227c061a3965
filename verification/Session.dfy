/** The session object: its fields, and its methods against the specification of each critical section. */
module Session {
  import opened Octets
  import opened Outcomes
  import opened Frames
  import opened Limits
  import opened Queue
  import opened Streams
  import opened Tombstones
  import opened Poll
  import opened Uplink
  import opened SessionState
  import opened Batch
  import opened BatchLaws
  import opened SessionSteps

  /** The manager's pendingGlobalCost and pendingGlobalItems. `panicked` marks a reached panic. */
  class PendingPool {
    const limits: Limits
    var cost: int
    var items: int
    var panicked: bool

    ghost function Held(): Charge
      reads this
    {
      Charge(cost, items)
    }

    ghost predicate Valid()
      reads this
    {
      Sane(limits) && (panicked || (cost >= 0 && items >= 0))
    }

    constructor (limits: Limits)
      requires Sane(limits)
      ensures Valid() && this.limits == limits && Held() == NOTHING && !panicked
    {
      this.limits := limits;
      cost, items, panicked := 0, 0, false;
    }

    /** changePendingBudget. */
    method ChangePendingBudget(costDelta: int, itemDelta: int, purpose: Class) returns (ok: bool)
      requires Valid()
      modifies this
      ensures Valid()
      ensures ok <==>
        (costDelta > 0 || itemDelta > 0 ==> PoolAdmits(limits, old(Held()), Charge(costDelta, itemDelta), purpose))
      ensures Held() == if ok then old(Held()).Plus(Charge(costDelta, itemDelta)) else old(Held())
      ensures panicked == (old(panicked) || cost < 0 || items < 0)
    {
      if costDelta > 0 || itemDelta > 0 {
        var costLimit, itemLimit := limits.maxPendingGlobal, limits.maxPendingItemsGlobal;
        if purpose != Control {
          var reserve, sessions := ControlReserve(limits), limits.maxSessionsGlobal;
          if reserve.cost > costLimit / sessions {
            costLimit := 0;
          } else {
            costLimit := costLimit - reserve.cost * sessions;
          }
          if reserve.items > itemLimit / sessions {
            itemLimit := 0;
          } else {
            itemLimit := itemLimit - reserve.items * sessions;
          }
        }
        assert Charge(costLimit, itemLimit) == PoolLimits(limits, purpose);
        if costDelta > costLimit || cost > costLimit - costDelta {
          return false;
        }
        if itemDelta > itemLimit || items > itemLimit - itemDelta {
          return false;
        }
      }
      cost, items := cost + costDelta, items + itemDelta;
      if cost < 0 || items < 0 {
        panicked := true;
      }
      return true;
    }
  }

  class Session {
    const cfg: Config
    const pool: PendingPool
    var streams: map<nat, Stream>
    const ring: TombstoneRing
    var lanes: map<nat, Lane>
    var pendingCost: int
    var pendingItems: int
    var closed: bool
    var websocketActive: bool
    var nextBackend: int
    var nextBirth: int
    var panicked: bool

    ghost predicate Valid()
      reads this, ring, pool
    {
      && GoodConfig(cfg)
      && ring.Valid() && ring.cap == cfg.limits.maxClosedStreamIDs
      && pool.Valid() && pool.limits == cfg.global
      && pendingCost >= 0 && pendingItems >= 0
      && (!cfg.UsesLanes() ==> 0 in lanes)
    }

    /** The session as the specification sees it. */
    ghost function State(): State
      reads this, ring, pool
      requires Valid()
    {
      SessionState.State(
        streams, ring.Order(), lanes, Charge(pendingCost, pendingItems), pool.Held(),
        closed, websocketActive, nextBackend, nextBirth, panicked || pool.panicked)
    }

    /** The session's own equations, at a release of its lock. */
    ghost predicate Sound()
      reads this, ring, pool
      requires Valid()
    {
      Inv(cfg, State(), NOTHING)
    }

    /** newSession. */
    constructor (cfg: Config, pool: PendingPool)
      requires GoodConfig(cfg) && pool.Valid() && pool.limits == cfg.global
      ensures Valid() && this.cfg == cfg && this.pool == pool && fresh(ring)
      ensures State() == NewSession(cfg, pool.Held()).(panicked := pool.panicked)
    {
      this.cfg, this.pool := cfg, pool;
      streams := map[];
      ring := new TombstoneRing(cfg.limits.maxClosedStreamIDs);
      lanes := if cfg.carrier.WebSocketLanes? then map[] else map[0 := NewLane(0)];
      pendingCost, pendingItems := 0, 0;
      closed, websocketActive, nextBackend, nextBirth, panicked := false, false, 0, 1, false;
    }

    // The pending budget.

    /** reservePendingLocked. */
    method ReservePending(cost: int, items: int, purpose: Class) returns (ok: bool)
      requires Valid()
      modifies this`pendingCost, this`pendingItems, pool
      ensures Valid()
      ensures match Reserve(cfg, old(State()), Charge(cost, items), purpose)
        case None => !ok && State() == old(State())
        case Some(s) => ok && State() == s
    {
      hide ControlReserve, UplinkReserve, PoolLimits;
      var limit := SessionCap(cfg.limits);
      if purpose == Class.Uplink {
        limit := UplinkLimits(cfg.limits);
      } else if purpose == Downlink {
        limit := DownlinkLimits(cfg.limits);
      }
      if cost <= 0 || items < 0 || cost > limit.cost || items > limit.items
         || pendingCost > limit.cost - cost || pendingItems > limit.items - items {
        return false;
      }
      ok := pool.ChangePendingBudget(cost, items, purpose);
      if ok {
        pendingCost, pendingItems := pendingCost + cost, pendingItems + items;
      }
    }

    /** releasePendingLocked. */
    method ReleasePending(cost: int, items: int)
      requires Valid()
      modifies this`pendingCost, this`pendingItems, this`panicked, pool
      ensures Valid()
      ensures State() == Release(old(State()), Charge(cost, items))
    {
      if cost == 0 && items == 0 {
        return;
      }
      if cost < 0 || items < 0 || cost > pendingCost || items > pendingItems {
        panicked := true;
        return;
      }
      pendingCost, pendingItems := pendingCost - cost, pendingItems - items;
      var released := pool.ChangePendingBudget(-cost, -items, Class.Uplink);
    }

    /** dataFrameAllowanceLocked. */
    method DataFrameAllowance(limit: int) returns (n: int)
      requires Valid()
      ensures n == DataAllowance(cfg, State(), limit)
    {
      hide ControlReserve, UplinkReserve;
      var limits := DownlinkLimits(cfg.limits);
      if pendingItems >= limits.items {
        return 0;
      }
      var available := limits.cost - pendingCost - QUEUE_ITEM_COST - HEADER_SIZE;
      if available <= 0 {
        return 0;
      }
      n := limit;
      if limit > available {
        n := available;
      }
    }

    // Carriers and tombstones.

    /** releaseLaneLocked, then the deletion of the lane. */
    method DropLane(k: nat)
      requires Valid() && cfg.UsesLanes()
      modifies this`lanes, this`pendingCost, this`pendingItems, this`panicked, pool
      ensures Valid()
      ensures State() == SessionState.DropLane(old(State()), k)
    {
      hide LaneCharge, Release;
      if k in lanes {
        var cost, items := LaneTotals(lanes[k]);
        ReleasePending(cost, items);
        lanes := lanes - {k};
      }
    }

    /** rememberClosedLocked. */
    method RememberClosed(id: nat)
      requires Valid()
      modifies this`lanes, this`pendingCost, this`pendingItems, this`panicked, pool, ring
      ensures Valid()
      ensures State() == SessionState.RememberClosed(cfg, old(State()), id)
    {
      hide Remember, Evicted, SessionState.DropLane;
      var evicted := ring.RememberClosed(id);
      if evicted.Some? && cfg.UsesLanes() {
        DropLane(evicted.value);
      }
    }

    /** queueFrameLocked and queueLaneFrameLocked; DownQueue shows the queue itself at work. */
    method QueueFrame(f: Frame) returns (ok: bool)
      requires Valid()
      modifies this`lanes, this`pendingCost, this`pendingItems, pool
      ensures Valid()
      ensures match SessionState.QueueFrame(cfg, old(State()), f)
        case None => !ok && State() == old(State())
        case Some(s) => ok && State() == s
    {
      hide Push, Place, Reserve;
      var k, limit := cfg.LaneOf(f.id), cfg.limits.maxFramePayload;
      if k !in lanes {
        return false;
      }
      var lane := lanes[k];
      var q := lane.down.queue;
      if !Place(q, f, limit).MergeWindow? {
        var want := PushCharge(q, f, limit);
        ok := ReservePending(want.cost, want.items, PushClass(f));
        if !ok {
          return false;
        }
      }
      lanes := lanes[k := lane.(down := lane.down.(queue := Push(q, f, limit)))];
      return true;
    }

    /** releaseStreamWritesLocked, the deletion of the stream, and its tombstone. */
    method CloseStream(id: nat)
      requires Valid() && id in streams
      modifies this`streams, this`lanes, this`pendingCost, this`pendingItems, this`panicked, pool, ring
      ensures Valid()
      ensures State() == SessionState.CloseStream(cfg, old(State()), id)
    {
      hide Release, SessionState.RememberClosed;
      var st := streams[id];
      ReleasePending(st.pendingWriteCost, st.pendingWriteItems);
      streams := streams - {id};
      RememberClosed(id);
    }

    /** closeLocked's loop over the lanes. */
    method EmptyLanes()
      modifies this`lanes
      ensures lanes == map k | k in old(lanes) :: Emptied(old(lanes)[k])
    {
      var todo := lanes.Keys;
      while todo != {}
        invariant todo <= lanes.Keys == old(lanes).Keys
        invariant forall k | k in lanes :: lanes[k] == if k in todo then old(lanes)[k] else Emptied(old(lanes)[k])
        decreases |todo|
      {
        var k :| k in todo;
        lanes := lanes[k := Emptied(lanes[k])];
        todo := todo - {k};
      }
    }

    /** closeLocked's settlement with the pool. */
    method ReturnAllPending()
      requires Valid()
      modifies this`pendingCost, this`pendingItems, pool
      ensures Valid()
      ensures var s := old(State());
        State() == s.(pending := NOTHING, pool := s.pool.Minus(s.pending),
                      panicked := s.panicked || !s.pending.Within(s.pool))
    {
      if pendingCost != 0 || pendingItems != 0 {
        var released := pool.ChangePendingBudget(-pendingCost, -pendingItems, Class.Uplink);
        pendingCost, pendingItems := 0, 0;
      }
    }

    /** closeLocked. */
    method Close()
      requires Valid()
      modifies this`streams, this`lanes, this`pendingCost, this`pendingItems, this`closed, pool
      ensures Valid()
      ensures State() == CloseSession(old(State()))
      ensures old(Sound()) ==> Sound()
    {
      hide Inv, Emptied;
      if Sound() {
        CloseSessionInv(cfg, State());
      }
      if closed {
        return;
      }
      closed := true;
      EmptyLanes();
      streams := map[];
      ReturnAllPending();
    }

    // One uplink batch.

    /** validateBatchLocked. */
    method ValidateBatch(frames: seq<Frame>) returns (ok: bool)
      requires Valid()
      ensures ok == Validate(TrialOf(State()), frames).Some?
    {
      hide Validate;
      var live: map<nat, Snapshot> := map id | id in streams :: SnapshotOf(streams[id]);
      assert TrialOf(State()) == Trial(live, ring.closedStreams);
      ok := ValidateFrames(live, ring.closedStreams, frames);
    }

    /** backendWriteReservationLocked. */
    method BackendWriteReservation(frames: seq<Frame>) returns (cost: int, items: int)
      requires Valid()
      ensures Charge(cost, items) == ReservationFor(State(), frames)
    {
      hide Reservation;
      cost, items := ReservationTotals(streams.Keys, frames);
    }

    /** One turn of applyBatchLocked's loop. The lists are the backends opened and closed so far. */
    method ApplyOne(f: Frame, admit: bool, unused: Charge, opened0: seq<int>, closed0: seq<int>)
      returns (r: Outcome, left: Charge, backends: seq<int>, gone: seq<int>)
      requires Valid()
      modifies this`streams, this`lanes, this`pendingCost, this`pendingItems, this`panicked, this`nextBackend, pool,
          ring
      ensures Valid()
      ensures Shows(ApplyFrame(cfg, Acc(old(State()), unused, opened0, closed0), f, admit), r,
                    Acc(State(), left, backends, gone))
    {
      hide SessionState.RememberClosed, SessionState.QueueFrame, SessionState.CloseStream, AcceptData, AddCredit;
      hide AppendCharge;
      r, left, backends, gone := Continues, unused, opened0, closed0;
      if f.id == 0 {
        return;
      }
      var wasClosed := f.id in ring.closedStreams;
      if f.kind == OPEN {
        if |streams| >= cfg.limits.maxStreamsPerSession || !admit {
          RememberClosed(f.id);
          var queued := QueueFrame(Frame(CLOSE, f.id, []));
          r := if queued then Continues else NoRoom;
          return;
        }
        streams := streams[f.id := NewStream(nextBackend)];
        backends, nextBackend := backends + [nextBackend], nextBackend + 1;
      } else if (f.kind == DATA || f.kind == WINDOW || f.kind == CLOSE) && !wasClosed {
        if f.id !in streams {
          r := NilDereference;
          return;
        }
        var st := streams[f.id];
        if f.kind == DATA {
          left := left.Minus(AppendCharge(st, f.payload));
          streams := streams[f.id := AcceptData(st, f.payload)];
        } else if f.kind == WINDOW {
          streams := streams[f.id := AddCredit(st, Amount(f.payload))];
        } else {
          CloseStream(f.id);
          gone := gone + [st.backend];
        }
      }
    }

    /** applyBatchLocked; `admits` are acquireStream's answers. */
    method ApplyBatch(frames: seq<Frame>, reserved: Charge, admits: seq<bool>)
      returns (r: Outcome, left: Charge, backends: seq<int>, gone: seq<int>)
      requires Valid() && |admits| == |frames|
      modifies this`streams, this`lanes, this`pendingCost, this`pendingItems, this`panicked, this`nextBackend, pool,
          ring
      ensures Valid()
      ensures Shows(Apply(cfg, Acc(old(State()), reserved, [], []), frames, admits), r,
                    Acc(State(), left, backends, gone))
    {
      hide ApplyFrame;
      r, left, backends, gone := Continues, reserved, [], [];
      ghost var all := Apply(cfg, Acc(State(), reserved, [], []), frames, admits);
      assert frames[0..] == frames && admits[0..] == admits;
      var i := 0;
      while i < |frames|
        invariant i <= |frames| && r.Continues? && Valid()
        invariant all == Apply(cfg, Acc(State(), left, backends, gone), frames[i..], admits[i..])
      {
        ApplyNext(cfg, Acc(State(), left, backends, gone), frames, admits, i);
        r, left, backends, gone := ApplyOne(frames[i], admits[i], left, backends, gone);
        if !r.Continues? {
          return;
        }
        i := i + 1;
      }
    }

    /** The batch's reservation, charged if there is any. */
    method ReserveBatch(frames: seq<Frame>) returns (ok: bool, want: Charge)
      requires Valid()
      modifies this`pendingCost, this`pendingItems, pool
      ensures Valid()
      ensures match Reserved(cfg, old(State()), frames)
        case None => !ok && State() == old(State())
        case Some(a) => ok && a == Acc(State(), want, [], [])
    {
      hide Reservation, Reserve;
      var cost, items := BackendWriteReservation(frames);
      want, ok := Charge(cost, items), true;
      if cost != 0 || items != 0 {
        ok := ReservePending(cost, items, Class.Uplink);
      }
    }

    /** The common tail of ProcessUp and ProcessUpLane: validate, reserve, apply, release, commit. */
    method Receive(k: nat, sequence: nat, body: Bytes, frames: seq<Frame>, admits: seq<bool>) returns (answer: UpAnswer)
      requires Valid() && |admits| == |frames|
      modifies this, pool, ring
      ensures Valid()
      ensures answer == SessionSteps.Receive(cfg, old(State()), k, sequence, body, frames, admits).1
      ensures !answer.Crashed? ==>
        State() == SessionSteps.Receive(cfg, old(State()), k, sequence, body, frames, admits).0
    {
      hide Validate, Reserved, Apply, Release, Commit;
      var valid := ValidateBatch(frames);
      if !valid {
        return Rejected;
      }
      var reserved, want := ReserveBatch(frames);
      if !reserved {
        return Backpressure;
      }
      var r, left, backends, gone := ApplyBatch(frames, want, admits);
      if r.NilDereference? {
        return Crashed;
      }
      ReleasePending(left.cost, left.items);
      if r.NoRoom? {
        return UpAnswer.Aborted;
      }
      if k in lanes {
        lanes := lanes[k := lanes[k].(up := Commit(lanes[k].up, sequence, body, true))];
      }
      return Acked;
    }

    /** ProcessUp's first critical section. */
    method UpBegin(sequence: nat, body: Bytes) returns (answer: UpAnswer)
      requires Valid()
      modifies this`lanes
      ensures Valid()
      ensures if cfg.UsesLanes() then answer.Misrouted? && State() == old(State())
              else (State(), answer) == UpBegins(old(State()), sequence, body)
      ensures old(Sound()) ==> Sound()
    {
      hide Inv;
      if Sound() {
        BeginsInv(cfg, State(), sequence, body);
      }
      if cfg.UsesLanes() {
        return Misrouted;
      }
      if closed {
        return Over;
      }
      var up := lanes[0].up;
      if sequence == up.lastSequence && sequence != 0 {
        return if body == up.lastBody then Acked else Rejected;
      }
      if sequence != up.lastSequence + 1 || sequence == 0 {
        return Rejected;
      }
      if up.active {
        return UpAnswer.Busy;
      }
      lanes := lanes[0 := lanes[0].(up := up.(active := true))];
      return Parsing;
    }

    /** ProcessUp from the parse on. */
    method UpFinish(sequence: nat, body: Bytes, admits: seq<bool>) returns (answer: UpAnswer)
      requires Valid() && !cfg.UsesLanes()
      requires Readable(cfg, body).Some? ==> |admits| == |Readable(cfg, body).value|
      modifies this, pool, ring
      ensures Valid()
      ensures answer == UpFinishes(cfg, old(State()), sequence, body, admits).1
      ensures !answer.Crashed? ==> State() == UpFinishes(cfg, old(State()), sequence, body, admits).0
      ensures old(Sound()) && !answer.Crashed? ==> Sound()
    {
      hide Inv, Parsed, AllClientShaped, SessionSteps.Receive;
      if Sound() {
        FinishesInv(cfg, State(), sequence, body, admits);
      }
      var frames := ReadFrames(cfg, body);
      lanes := lanes[0 := lanes[0].(up := lanes[0].up.(active := false))];
      if closed {
        return Over;
      }
      if frames.None? {
        return Rejected;
      }
      answer := Receive(0, sequence, body, frames.value, admits);
    }

    /** ProcessUpLane from the point where the lane exists. */
    method UpOpenLane(k: nat, sequence: nat, body: Bytes, frames: seq<Frame>, admits: seq<bool>)
      returns (answer: UpAnswer)
      requires Valid() && |admits| == |frames| && k in lanes
      modifies this, pool, ring
      ensures Valid()
      ensures answer == UpOnOpenLane(cfg, old(State()), k, sequence, body, frames, admits).1
      ensures !answer.Crashed? ==> State() == UpOnOpenLane(cfg, old(State()), k, sequence, body, frames, admits).0
    {
      hide SessionSteps.Receive;
      var up := lanes[k].up;
      if sequence == up.lastSequence && sequence != 0 {
        return if body == up.lastBody then Acked else Rejected;
      }
      if sequence != up.lastSequence + 1 || sequence == 0 {
        return Rejected;
      }
      if up.active {
        return UpAnswer.Busy;
      }
      answer := Receive(k, sequence, body, frames, admits);
    }

    /** ProcessUpLane. */
    method UpLane(k: nat, sequence: nat, body: Bytes, admits: seq<bool>) returns (answer: UpAnswer)
      requires Valid()
      requires Readable(cfg, body).Some? ==> |admits| == |Readable(cfg, body).value|
      modifies this, pool, ring
      ensures Valid()
      ensures if !cfg.UsesLanes() || k > MAX_STREAM_ID then answer.Misrouted? && State() == old(State())
              else answer == UpOnLane(cfg, old(State()), k, sequence, body, admits).1
      ensures cfg.UsesLanes() && k <= MAX_STREAM_ID && !answer.Crashed? ==>
        State() == UpOnLane(cfg, old(State()), k, sequence, body, admits).0
      ensures old(Sound()) ==> Sound() && !answer.Crashed?
    {
      hide Inv, Parsed, AllClientShaped, UpOnOpenLane, OnlyLate, AllOn;
      if Sound() && cfg.UsesLanes() {
        UpOnLaneInv(cfg, State(), k, sequence, body, admits);
      }
      if !cfg.UsesLanes() || k > MAX_STREAM_ID {
        return Misrouted;
      }
      var read := ReadFrames(cfg, body);
      if read.None? || !AllOn(read.value, k) {
        return Rejected;
      }
      var frames := read.value;
      if closed {
        return Over;
      }
      if k !in lanes {
        if k != 0 && frames != [] && frames[0].kind != OPEN && OnlyLate(frames) {
          return Acked;
        }
        if k == 0 || frames == [] || frames[0].kind != OPEN {
          return Rejected;
        }
        lanes, nextBirth := lanes[k := NewLane(nextBirth)], nextBirth + 1;
      }
      answer := UpOpenLane(k, sequence, body, frames, admits);
    }

    // Polls.

    /** Poll and PollLane up to the first wait. */
    method PollEnter(k: nat, poll: PollId) returns (answer: Option<Answer>)
      requires Valid()
      modifies this`lanes, this`pendingCost, this`pendingItems, this`panicked, pool
      ensures Valid()
      ensures (State(), answer) == PollArrives(cfg, old(State()), k, poll)
      ensures old(Sound()) ==> Sound()
    {
      hide Inv, Release, ChargeOf, Loop;
      if Sound() {
        PollArrivesInv(cfg, State(), k, poll);
      }
      if closed {
        return Some(Ended);
      }
      if k !in lanes {
        return None;
      }
      var down := lanes[k].down;
      var laneOver := cfg.UsesLanes() && k != 0 && k !in streams && k in ring.closedStreams;
      if down.unacked != [] {
        if poll.cursor == down.base {
          NothingAcknowledged(State(), down, poll, k);
          return Some(Answer.Batch(down.unacked, down.cursor));
        }
        if poll.cursor != down.cursor {
          NothingAcknowledged(State(), down, poll, k);
          return Some(Refused);
        }
        var charge := ChargeOf(down.unacked);
        ReleasePending(charge.cost, charge.items);
      } else {
        NothingAcknowledged(State(), down, poll, k);
        if poll.cursor != down.cursor {
          return Some(Refused);
        }
      }
      var (down', result) :=
        Loop(down.(unacked := [], waiter := Some(poll)), poll, cfg.limits.carrierBatchBytes, false, laneOver);
      lanes := lanes[k := lanes[k].(down := down')];
      return Some(result);
    }

    /** A parked poll waking; its lane is told from a later one by `birth`. */
    method PollWake(k: nat, birth: int, poll: PollId, why: Wake) returns (answer: Option<Answer>)
      requires Valid()
      modifies this`lanes
      ensures Valid()
      ensures (State(), answer) == PollWakes(cfg, old(State()), k, birth, poll, why)
      ensures old(Sound()) ==> Sound()
    {
      hide Inv, Resume;
      if Sound() {
        PollWakesInv(cfg, State(), k, birth, poll, why);
      }
      if k !in lanes || lanes[k].birth != birth {
        return None;
      }
      var laneOver := cfg.UsesLanes() && k != 0 && k !in streams && k in ring.closedStreams;
      var (down, result) := Resume(lanes[k].down, poll, why, cfg.limits.carrierBatchBytes, closed, laneOver);
      lanes := lanes[k := lanes[k].(down := down)];
      return Some(result);
    }

    // Backends.

    /** nextWrite, without the wait. */
    method NextWrite(id: nat) returns (chunk: Option<Bytes>)
      requires Valid()
      modifies this`streams
      ensures Valid()
      ensures State() == WriteTaken(old(State()), id)
      ensures chunk == if !closed && id in old(streams) && old(streams)[id].writes != []
                       then Some(old(streams)[id].writes[0]) else None
      ensures old(Sound()) ==> Sound()
    {
      hide Inv;
      if Sound() {
        TakeWriteInv(cfg, State(), id);
      }
      if closed || id !in streams || streams[id].writes == [] {
        return None;
      }
      chunk := Some(streams[id].writes[0]);
      streams := streams[id := PopWrite(streams[id])];
    }

    /** backendDrained. */
    method BackendDrained(id: nat, amount: int) returns (ok: bool)
      requires Valid()
      modifies this`streams, this`lanes, this`pendingCost, this`pendingItems, this`panicked, pool
      ensures Valid()
      ensures (State(), ok) == SessionSteps.BackendDrained(cfg, old(State()), id, amount)
      ensures old(Sound()) ==> Sound()
    {
      hide Inv, Release, SessionState.QueueFrame, PutUint32;
      if Sound() {
        DrainedInv(cfg, State(), id, amount);
      }
      if closed || id !in streams || Drain(streams[id], amount).None? {
        return false;
      }
      ReleasePending(amount, 0);
      streams := streams[id := Drain(streams[id], amount).value];
      ok := QueueFrame(Frame(WINDOW, id, WindowPayload(amount % TWO_32)));
    }

    /** backendWriteFinished. */
    method BackendWriteFinished(id: nat) returns (ok: bool)
      requires Valid()
      modifies this`streams, this`pendingCost, this`pendingItems, this`panicked, pool
      ensures Valid()
      ensures (State(), ok) == SessionSteps.BackendWriteFinished(old(State()), id)
      ensures old(Sound()) ==> Sound()
    {
      hide Inv, Release;
      if Sound() {
        WriteFinishedInv(cfg, State(), id);
      }
      if closed || id !in streams || FinishWrite(streams[id]).None? {
        return false;
      }
      ReleasePending(QUEUE_ITEM_COST, 1);
      streams := streams[id := FinishWrite(streams[id]).value];
      return true;
    }

    /** nextReadAllowance, without the wait: how much the backend may be read for. */
    method NextReadAllowance(id: nat) returns (n: int)
      requires Valid()
      ensures IsAllowance(cfg, State(), id, n)
    {
      hide DataAllowance;
      if closed || id !in streams || streams[id].sendCredit == 0 {
        return 0;
      }
      n := streams[id].sendCredit;
      if n > DATA_CHUNK {
        n := DATA_CHUNK;
      }
      AllowanceIsExact(cfg, State(), n);
      n := DataFrameAllowance(n);
    }

    /** backendData. */
    method BackendData(id: nat, data: Bytes) returns (ok: bool)
      requires Valid() && |data| <= DATA_CHUNK
      modifies this`streams, this`lanes, this`pendingCost, this`pendingItems, pool
      ensures Valid()
      ensures (State(), ok) == SessionSteps.BackendData(cfg, old(State()), id, data)
      ensures old(Sound()) ==> Sound()
    {
      hide Inv, SessionState.QueueFrame;
      if Sound() {
        ReadDataInv(cfg, State(), id, data);
      }
      if closed || id !in streams || data == [] || |data| > streams[id].sendCredit {
        return false;
      }
      streams := streams[id := SpendCredit(streams[id], |data|)];
      ok := QueueFrame(Frame(DATA, id, data));
    }

    /** backendClosed. */
    method BackendClosed(id: nat, backend: int)
      requires Valid()
      modifies this, pool, ring
      ensures Valid()
      ensures State() == SessionSteps.BackendClosed(cfg, old(State()), id, backend)
      ensures old(Sound()) ==> Sound()
    {
      hide Inv, SessionState.QueueFrame, SessionState.CloseStream, CloseSession;
      if Sound() {
        BackendClosedInv(cfg, State(), id, backend);
      }
      if !closed && id in streams && streams[id].backend == backend {
        CloseStream(id);
        var queued := QueueFrame(Frame(CLOSE, id, []));
        if !queued {
          Close();
        }
      }
    }

    // WebSocket carriers.

    /** AcquireWebSocketLane. */
    method AcquireWebSocketLane(k: nat) returns (ok: bool)
      requires Valid()
      modifies this`lanes, this`nextBirth
      ensures Valid()
      ensures (State(), ok) == LaneAcquired(cfg, old(State()), k)
      ensures old(Sound()) ==> Sound()
    {
      hide Inv;
      if Sound() {
        LaneAcquiredInv(cfg, State(), k);
      }
      if closed || !cfg.carrier.WebSocketLanes? || k == 0 || k > MAX_STREAM_ID || k in ring.closedStreams {
        return false;
      }
      if k !in lanes {
        if |lanes| >= cfg.limits.maxStreamsPerSession {
          return false;
        }
        lanes, nextBirth := lanes[k := NewLane(nextBirth)], nextBirth + 1;
      }
      if lanes[k].websocketActive {
        return false;
      }
      lanes := lanes[k := lanes[k].(websocketActive := true)];
      return true;
    }

    /** ReleaseWebSocketLane. */
    method ReleaseWebSocketLane(k: nat)
      requires Valid()
      modifies this, pool, ring
      ensures Valid()
      ensures State() == LaneReleased(cfg, old(State()), k)
      ensures old(Sound()) ==> Sound()
    {
      hide Inv, SessionState.CloseStream, SessionState.DropLane;
      if Sound() {
        LaneReleasedInv(cfg, State(), k);
      }
      if !cfg.carrier.WebSocketLanes? || k !in lanes {
        return;
      }
      if k in streams {
        CloseStream(k);
      }
      DropLane(k);
    }
  }

  /** What a DATA frame of `m` bytes is charged when it joins no other. */
  function DataCharge(m: int): Charge {
    Charge(m + HEADER_SIZE + QUEUE_ITEM_COST, 1)
  }

  /** `n` is the most a live stream's backend may be read for: by credit, chunk size and downlink budget. */
  ghost predicate IsAllowance(cfg: Config, s: State, id: nat, n: int)
    requires GoodConfig(cfg)
  {
    if s.closed || id !in s.streams then n == 0
    else
      && 0 <= n <= s.streams[id].sendCredit && n <= DATA_CHUNK
      && forall m | 1 <= m <= s.streams[id].sendCredit && m <= DATA_CHUNK ::
           m <= n <==> SessionAdmits(cfg.limits, s.pending, DataCharge(m), Downlink)
  }

  lemma AllowanceIsExact(cfg: Config, s: State, limit: int)
    requires GoodConfig(cfg) && s.pending.cost >= 0 && s.pending.items >= 0 && limit >= 1
    ensures 0 <= DataAllowance(cfg, s, limit) <= limit
    ensures forall m | 1 <= m <= limit ::
      m <= DataAllowance(cfg, s, limit) <==> SessionAdmits(cfg.limits, s.pending, DataCharge(m), Downlink)
  {
    hide ControlReserve, UplinkReserve;
  }

  /**
   * An allowance is a promise by this session: until something else is charged to it, DATA of up to
   * that length is within the stream's credit and its own limits, wherever the queue puts it.
   */
  lemma AllowanceMeaning(cfg: Config, s: State, id: nat, n: int, q: seq<Frame>, data: Bytes)
    requires GoodConfig(cfg) && NOTHING.Within(s.pending) && IsAllowance(cfg, s, id, n) && 0 < |data| <= n
    ensures !s.closed && id in s.streams && |data| <= s.streams[id].sendCredit
    ensures SessionAdmits(cfg.limits, s.pending, PushCharge(q, Frame(DATA, id, data), cfg.limits.maxFramePayload),
                          Downlink)
  {
    hide ControlReserve, UplinkReserve, Place;
    assert SessionAdmits(cfg.limits, s.pending, DataCharge(|data|), Downlink);
  }

  /** frame.ParseAll and frame.ValidateClientShape, as ProcessUp and ProcessUpLane call them. */
  method ReadFrames(cfg: Config, body: Bytes) returns (r: Option<seq<Frame>>)
    ensures r == Readable(cfg, body)
  {
    hide Parsed;
    var parsed := ParseAll(body, cfg.limits.maxFramePayload);
    if parsed.Err? {
      return None;
    }
    for i := 0 to |parsed.value|
      invariant AllClientShaped(parsed.value[..i])
    {
      if !ValidClientShape(parsed.value[i]) {
        return None;
      }
    }
    assert parsed.value[..|parsed.value|] == parsed.value;
    return Some(parsed.value);
  }

  lemma NothingAcknowledged(s: State, d: Down, poll: PollId, k: nat)
    requires k in s.lanes && s.lanes[k].down == d
    requires d.unacked == [] || poll.cursor == d.base || poll.cursor != d.cursor
    ensures Acknowledging(s, ChargeOf(Acknowledged(d, poll.cursor)), k, d) == s
    ensures Release(s, ChargeOf(Acknowledged(d, poll.cursor))) == s
  {
    ReleaseOfNoFrames(s, Acknowledged(d, poll.cursor));
    hide Release, ChargeOf;
    assert s.lanes[k := s.lanes[k].(down := d)] == s.lanes;
  }

  datatype Outcome = Continues | NoRoom | NilDereference

  /** A method's results agree with the specification's. */
  ghost predicate Shows(out: Applied, r: Outcome, a: Acc) {
    match out
    case Going(b) => r.Continues? && a == b
    case Aborted(b) => r.NoRoom? && a == b
    case NilStream => r.NilDereference?
  }

  lemma ApplyNext(cfg: Config, a: Acc, frames: seq<Frame>, admits: seq<bool>, i: nat)
    requires GoodConfig(cfg) && |admits| == |frames| && i < |frames|
    ensures Apply(cfg, a, frames[i..], admits[i..]) ==
      match ApplyFrame(cfg, a, frames[i], admits[i])
      case Going(b) => Apply(cfg, b, frames[i + 1..], admits[i + 1..])
      case stop => stop
  {
    hide ApplyFrame;
    assert frames[i..][0] == frames[i] && frames[i..][1..] == frames[i + 1..];
    assert admits[i..][0] == admits[i] && admits[i..][1..] == admits[i + 1..];
  }

  /** validateBatchLocked's loop, on its own tables. */
  method ValidateFrames(start: map<nat, Snapshot>, remembered: set<nat>, frames: seq<Frame>) returns (ok: bool)
    ensures ok == Validate(Trial(start, remembered), frames).Some?
  {
    hide Amount;
    var live: map<nat, Snapshot> := start;
    var closedHere: set<nat> := {};
    assert remembered + closedHere == remembered && frames[0..] == frames;
    var i := 0;
    while i < |frames|
      invariant i <= |frames|
      invariant Validate(Trial(start, remembered), frames) ==
        Validate(Trial(live, remembered + closedHere), frames[i..])
    {
      var f := frames[i];
      ghost var trial := Trial(live, remembered + closedHere);
      assert frames[i..][0] == f && frames[i..][1..] == frames[i + 1..];
      var isLive, wasClosed := f.id in live, f.id in remembered || f.id in closedHere;
      if f.id == 0 {
        if f.kind != PONG {
          return false;
        }
      } else if f.kind == OPEN {
        if isLive || wasClosed {
          return false;
        }
        live := live[f.id := Snapshot(INITIAL_STREAM_WINDOW, INITIAL_STREAM_WINDOW)];
      } else if f.kind == DATA {
        if !wasClosed {
          if !isLive || |f.payload| > live[f.id].receiveWindow {
            return false;
          }
          live := live[f.id := live[f.id].(receiveWindow := live[f.id].receiveWindow - |f.payload|)];
        }
      } else if f.kind == WINDOW {
        if !wasClosed {
          if !isLive {
            return false;
          }
          var credit := live[f.id].sendCredit + Amount(f.payload);
          if credit > MAX_UINT32 {
            credit := MAX_UINT32;
          }
          live := live[f.id := live[f.id].(sendCredit := credit)];
        }
      } else if f.kind == CLOSE {
        if !wasClosed {
          if !isLive {
            return false;
          }
          live := live - {f.id};
          assert remembered + (closedHere + {f.id}) == trial.closed + {f.id};
          closedHere := closedHere + {f.id};
        }
      } else {
        return false;
      }
      assert ValidateFrame(trial, f) == Some(Trial(live, remembered + closedHere));
      i := i + 1;
    }
    return true;
  }

  /** backendWriteReservationLocked's loop, on its own table. */
  method ReservationTotals(start: set<nat>, frames: seq<Frame>) returns (cost: int, items: int)
    ensures Charge(cost, items) == Reservation(start, frames)
  {
    hide Reservation, Charge.Plus;
    var live: set<nat> := start;
    cost, items := 0, 0;
    assert frames[0..] == frames;
    NothingPlus(Reservation(start, frames));
    var i := 0;
    while i < |frames|
      invariant i <= |frames|
      invariant Charge(cost, items).Plus(Reservation(live, frames[i..])) == Reservation(start, frames)
    {
      var f := frames[i];
      ReservationNext(cost, items, live, frames, i);
      if f.id != 0 {
        if f.kind == OPEN {
          live := live + {f.id};
        } else if f.kind == DATA {
          if f.id in live {
            cost, items := cost + |f.payload| + QUEUE_ITEM_COST, items + 1;
          }
        } else if f.kind == CLOSE {
          live := live - {f.id};
        }
      }
      i := i + 1;
    }
    NoFrames(live, frames[i..]);
    PlusNothing(Charge(cost, items));
  }

  lemma ReservationNext(cost: int, items: int, live: set<nat>, frames: seq<Frame>, i: nat)
    requires i < |frames|
    ensures var share := ReserveFrame(live, frames[i]);
      Charge(cost, items).Plus(Reservation(live, frames[i..]))
      == Charge(cost + share.cost, items + share.items).Plus(Reservation(LiveAfter(live, frames[i]), frames[i + 1..]))
  {
    hide ReserveFrame, LiveAfter;
    assert frames[i..][0] == frames[i] && frames[i..][1..] == frames[i + 1..];
  }

  /** releaseLaneLocked's loop: what a lane is still charged. */
  method LaneTotals(lane: Lane) returns (cost: int, items: int)
    ensures Charge(cost, items) == LaneCharge(lane)
  {
    hide Size;
    var q, unacked := lane.down.queue, ChargeOf(lane.down.unacked);
    cost, items := unacked.cost, unacked.items;
    ChargeOfEmpty(q[..0]);
    for i := 0 to |q|
      invariant Charge(cost, items) == ChargeOf(q[..i]).Plus(unacked)
    {
      NextCost(q, i);
      cost, items := cost + FrameCost(q[i]), items + 1;
    }
    assert q[..|q|] == q;
  }

  /** dataFrameAllowanceLocked's answer. */
  function DataAllowance(cfg: Config, s: State, limit: int): int
    requires GoodConfig(cfg)
  {
    var limits := DownlinkLimits(cfg.limits);
    var available := limits.cost - s.pending.cost - QUEUE_ITEM_COST - HEADER_SIZE;
    if s.pending.items >= limits.items || available <= 0 then 0
    else if limit > available then available else limit
  }

  lemma NextCost(q: seq<Frame>, i: nat)
    requires i < |q|
    ensures ChargeOf(q[..i + 1]) == ChargeOf(q[..i]).Plus(Charge(FrameCost(q[i]), 1))
  {
    assert q[..i + 1][..i] == q[..i];
  }
}

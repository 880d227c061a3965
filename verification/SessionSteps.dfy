/** Every critical section of a session, as a step on its state, and what every run of them keeps. */
module SessionSteps {
  import opened Octets
  import opened Outcomes
  import opened Frames
  import opened Limits
  import opened Queue
  import opened Streams
  import opened Tombstones
  import opened Poll
  import opened Uplink
  import opened SessionState
  import opened Batch
  import opened BatchLaws

  // Uplink.

  /**
   * What the critical section leaves its caller to do: Rejected is followed by a protocol failure,
   * Aborted by Close. Misrouted is the protocol error of a call the carrier mode does not have.
   * Crashed is the nil dereference a lost tombstone leads to.
   */
  datatype UpAnswer = Acked | Parsing | Rejected | Misrouted | Busy | Backpressure | Over | Aborted | Crashed

  function SetUp(s: State, k: nat, up: Up): State {
    if k in s.lanes then s.(lanes := s.lanes[k := s.lanes[k].(up := up)]) else s
  }

  /** validateBatchLocked, the reservation, applyBatchLocked, the release of what is left, the commit. */
  function Receive(cfg: Config, s: State, k: nat, sequence: nat, body: Bytes, frames: seq<Frame>,
                   admits: seq<bool>): (State, UpAnswer)
    requires GoodConfig(cfg) && |admits| == |frames|
  {
    if Validate(TrialOf(s), frames).None? then (s, Rejected)
    else
      match Reserved(cfg, s, frames)
      case None => (s, Backpressure)
      case Some(a) =>
        match Apply(cfg, a, frames, admits)
        case NilStream => (s.(panicked := true), Crashed)
        case Aborted(a') => (Release(a'.s, a'.left), UpAnswer.Aborted)
        case Going(a') =>
          var settled := Release(a'.s, a'.left);
          var up := if k in settled.lanes then Commit(settled.lanes[k].up, sequence, body, true) else NEW_UP;
          (SetUp(settled, k, up), Acked)
  }

  /** ProcessUp's first critical section. */
  function UpBegins(s: State, sequence: nat, body: Bytes): (State, UpAnswer) {
    if s.closed || 0 !in s.lanes then (s, Over)
    else
      match Admit(s.lanes[0].up, sequence, body)
      case Acknowledge => (s, Acked)
      case Begin => (SetUp(s, 0, s.lanes[0].up.(active := true)), Parsing)
      case Busy => (s, UpAnswer.Busy)
      case _ => (s, Rejected)
  }

  /** Frames a carrier's parser and shape check let through; None is either error. */
  function Readable(cfg: Config, body: Bytes): (r: Option<seq<Frame>>)
    ensures r.Some? ==> AllClientShaped(r.value)
  {
    match Parsed(body, cfg.limits.maxFramePayload)
    case Err(_) => None
    case Ok(frames) => if AllClientShaped(frames) then Some(frames) else None
  }

  /** The state ProcessUp's second critical section starts from. */
  function AfterParse(s: State): State {
    SetUp(s, 0, if 0 in s.lanes then s.lanes[0].up.(active := false) else NEW_UP)
  }

  /** ProcessUp's second critical section, after the parse made without the lock. */
  function UpFinishes(cfg: Config, s: State, sequence: nat, body: Bytes, admits: seq<bool>): (State, UpAnswer)
    requires GoodConfig(cfg)
  {
    var s1 := AfterParse(s);
    if s.closed then (s1, Over)
    else
      match Readable(cfg, body)
      case None => (s1, Rejected)
      case Some(frames) =>
        if |admits| != |frames| then (s1, Rejected)
        else Receive(cfg, s1, 0, sequence, body, frames, admits)
  }

  predicate OnlyLate(frames: seq<Frame>) {
    frames != [] && forall i | 0 <= i < |frames| ::
      frames[i].kind == DATA || frames[i].kind == WINDOW || frames[i].kind == CLOSE
  }

  predicate AllOn(frames: seq<Frame>, k: nat) {
    forall i | 0 <= i < |frames| :: frames[i].id == k
  }

  function AddLane(s: State, k: nat): State {
    s.(lanes := s.lanes[k := NewLane(s.nextBirth)], nextBirth := s.nextBirth + 1)
  }

  /** ProcessUpLane from the point where the lane exists. */
  function UpOnOpenLane(cfg: Config, s: State, k: nat, sequence: nat, body: Bytes, frames: seq<Frame>,
                        admits: seq<bool>): (State, UpAnswer)
    requires GoodConfig(cfg) && |admits| == |frames| && k in s.lanes
  {
    match Admit(s.lanes[k].up, sequence, body)
    case Acknowledge => (s, Acked)
    case Begin => Receive(cfg, s, k, sequence, body, frames, admits)
    case Busy => (s, UpAnswer.Busy)
    case _ => (s, Rejected)
  }

  /** ProcessUpLane: one critical section, the body parsed before it. */
  function UpOnLane(cfg: Config, s: State, k: nat, sequence: nat, body: Bytes, admits: seq<bool>): (State, UpAnswer)
    requires GoodConfig(cfg)
  {
    match Readable(cfg, body)
    case None => (s, Rejected)
    case Some(frames) =>
      if !AllOn(frames, k) || |admits| != |frames| then (s, Rejected)
      else if s.closed then (s, Over)
      else if k in s.lanes then UpOnOpenLane(cfg, s, k, sequence, body, frames, admits)
      else if k != 0 && frames != [] && frames[0].kind != OPEN && OnlyLate(frames) then (s, Acked)
      else if k == 0 || frames == [] || frames[0].kind != OPEN then (s, Rejected)
      else UpOnOpenLane(cfg, AddLane(s, k), k, sequence, body, frames, admits)
  }

  // Downlink.

  /** Whether a lane's poll is told the lane is over: its stream is gone and remembered. */
  predicate LaneOver(cfg: Config, s: State, k: nat) {
    cfg.UsesLanes() && k != 0 && k !in s.streams && k in s.tombs
  }

  function SetDown(s: State, k: nat, down: Down): State
    requires k in s.lanes
  {
    s.(lanes := s.lanes[k := s.lanes[k].(down := down)])
  }

  /** A release followed by the carrier's new downlink half. */
  function Acknowledging(s: State, c: Charge, k: nat, d: Down): State
    requires k in s.lanes
  {
    SetDown(Release(s, c), k, d)
  }

  /** Poll and PollLane up to the first wait; None when there is no such carrier. */
  function PollArrives(cfg: Config, s: State, k: nat, poll: PollId): (State, Option<Answer>) {
    if s.closed then (s, Some(Ended))
    else if k !in s.lanes then (s, None)
    else
      var d := s.lanes[k].down;
      var (d', answer) := Enter(d, poll, cfg.limits.carrierBatchBytes, LaneOver(cfg, s, k));
      (Acknowledging(s, ChargeOf(Acknowledged(d, poll.cursor)), k, d'), Some(answer))
  }

  /** A parked poll waking; a poll parked on a lane that is gone touches nothing. */
  function PollWakes(cfg: Config, s: State, k: nat, birth: int, poll: PollId, why: Wake): (State, Option<Answer>) {
    if k !in s.lanes || s.lanes[k].birth != birth then (s, None)
    else
      var (d', answer) :=
        Resume(s.lanes[k].down, poll, why, cfg.limits.carrierBatchBytes, s.closed, LaneOver(cfg, s, k));
      (SetDown(s, k, d'), Some(answer))
  }

  // Backends.

  /** nextWrite's pop. */
  function WriteTaken(s: State, id: nat): State {
    if s.closed || id !in s.streams || s.streams[id].writes == [] then s
    else s.(streams := s.streams[id := PopWrite(s.streams[id])])
  }

  /** backendDrained. */
  function BackendDrained(cfg: Config, s: State, id: nat, amount: int): (State, bool)
    requires GoodConfig(cfg)
  {
    if s.closed || id !in s.streams || Drain(s.streams[id], amount).None? then (s, false)
    else
      var drained := Release(s, Charge(amount, 0)).(streams := s.streams[id := Drain(s.streams[id], amount).value]);
      var n: nat := amount % TWO_32;
      match QueueFrame(cfg, drained, Frame(WINDOW, id, WindowPayload(n)))
      case None => (drained, false)
      case Some(s') => (s', true)
  }

  /** backendWriteFinished. */
  function BackendWriteFinished(s: State, id: nat): (State, bool) {
    if s.closed || id !in s.streams || FinishWrite(s.streams[id]).None? then (s, false)
    else (Release(s, Charge(QUEUE_ITEM_COST, 1)).(streams := s.streams[id := FinishWrite(s.streams[id]).value]), true)
  }

  /** backendData. */
  function BackendData(cfg: Config, s: State, id: nat, data: Bytes): (State, bool)
    requires GoodConfig(cfg)
  {
    if s.closed || id !in s.streams || data == [] || |data| > s.streams[id].sendCredit then (s, false)
    else
      var spent := s.(streams := s.streams[id := SpendCredit(s.streams[id], |data|)]);
      match QueueFrame(cfg, spent, Frame(DATA, id, data))
      case None => (spent, false)
      case Some(s') => (s', true)
  }

  /** backendClosed: only the backend that owns the stream closes it. */
  function BackendClosed(cfg: Config, s: State, id: nat, backend: int): State
    requires GoodConfig(cfg)
  {
    if s.closed || id !in s.streams || s.streams[id].backend != backend then s
    else
      var gone := CloseStream(cfg, s, id);
      match QueueFrame(cfg, gone, Frame(CLOSE, id, []))
      case None => CloseSession(gone)
      case Some(s') => s'
  }

  // WebSocket carriers.

  /** AcquireWebSocket. */
  function SocketAcquired(cfg: Config, s: State): (State, bool) {
    if s.closed || !cfg.carrier.WebSocket? || s.websocketActive then (s, false)
    else (s.(websocketActive := true), true)
  }

  /** AcquireWebSocketLane. */
  function LaneAcquired(cfg: Config, s: State, k: nat): (State, bool) {
    if s.closed || !cfg.carrier.WebSocketLanes? || k == 0 || k > MAX_STREAM_ID || k in s.tombs then (s, false)
    else if k !in s.lanes && |s.lanes| >= cfg.limits.maxStreamsPerSession then (s, false)
    else
      var s1 := if k in s.lanes then s else AddLane(s, k);
      if s1.lanes[k].websocketActive then (s1, false)
      else (s1.(lanes := s1.lanes[k := s1.lanes[k].(websocketActive := true)]), true)
  }

  /** ReleaseWebSocketLane. */
  function LaneReleased(cfg: Config, s: State, k: nat): State
    requires GoodConfig(cfg)
  {
    if !cfg.carrier.WebSocketLanes? || k !in s.lanes then s
    else DropLane(if k in s.streams then CloseStream(cfg, s, k) else s, k)
  }

  // Steps and runs.

  datatype Event =
    | Begin(sequence: nat, body: Bytes)
    | Finish(sequence: nat, body: Bytes, admits: seq<bool>)
    | UpLane(lane: nat, sequence: nat, body: Bytes, admits: seq<bool>)
    | FailLane(lane: nat)
    | Arrive(lane: nat, poll: PollId)
    | Wake(lane: nat, birth: int, poll: PollId, why: Wake)
    | TakeWrite(id: nat)
    | Drained(id: nat, amount: int)
    | WriteFinished(id: nat)
    | ReadData(id: nat, data: Bytes)
    | BackendGone(id: nat, backend: int)
    | AcquireSocket
    | AcquireLane(lane: nat)
    | ReleaseLane(lane: nat)
    | CloseAll
    | OthersMovePool(pool: Charge)

  /** laneProtocolFailure. */
  function LaneFails(cfg: Config, s: State, k: nat): State
    requires GoodConfig(cfg)
  {
    if cfg.carrier.WebSocketLanes? then LaneReleased(cfg, s, k) else CloseSession(s)
  }

  /** A call the carrier mode or the source's callers rule out changes nothing. */
  function Step(cfg: Config, s: State, e: Event): State
    requires GoodConfig(cfg)
  {
    match e
    case Begin(sequence, body) => if cfg.UsesLanes() then s else UpBegins(s, sequence, body).0
    case Finish(sequence, body, admits) =>
      if cfg.UsesLanes() then s else UpFinishes(cfg, s, sequence, body, admits).0
    case UpLane(k, sequence, body, admits) =>
      if !cfg.UsesLanes() || k > MAX_STREAM_ID then s else UpOnLane(cfg, s, k, sequence, body, admits).0
    case FailLane(k) => LaneFails(cfg, s, k)
    case Arrive(k, poll) => PollArrives(cfg, s, k, poll).0
    case Wake(k, birth, poll, why) => PollWakes(cfg, s, k, birth, poll, why).0
    case TakeWrite(id) => WriteTaken(s, id)
    case Drained(id, amount) => BackendDrained(cfg, s, id, amount).0
    case WriteFinished(id) => BackendWriteFinished(s, id).0
    case ReadData(id, data) => if |data| > DATA_CHUNK then s else BackendData(cfg, s, id, data).0
    case BackendGone(id, backend) => BackendClosed(cfg, s, id, backend)
    case AcquireSocket => SocketAcquired(cfg, s).0
    case AcquireLane(k) => LaneAcquired(cfg, s, k).0
    case ReleaseLane(k) => LaneReleased(cfg, s, k)
    case CloseAll => CloseSession(s)
    case OthersMovePool(pool) => if s.pending.Within(pool) then s.(pool := pool) else s
  }

  // Each critical section keeps the equations.

  lemma LaneFacts(cfg: Config, s: State, held: Charge)
    requires Inv(cfg, s, held)
    ensures GoodConfig(cfg)
    ensures forall k | k in s.lanes :: GoodLane(cfg, k, s.lanes[k]) && (s.closed ==> EmptyLane(s.lanes[k]))
    ensures !cfg.UsesLanes() ==> 0 in s.lanes
    ensures s.closed ==> s.streams == map[]
  {
    hide Charged, WellFormed, Sane, GoodLane, GoodStream;
  }

  lemma StreamFacts(cfg: Config, s: State, held: Charge)
    requires Inv(cfg, s, held)
    ensures GoodConfig(cfg)
    ensures forall id | id in s.streams ::
      !s.closed && Balanced(s.streams[id]) && 0 < id <= MAX_STREAM_ID && id !in s.tombs && cfg.LaneOf(id) in s.lanes
  {
    hide Charged, WellFormed, Sane, GoodLane, Balanced;
    assert forall id | id in s.streams :: GoodStream(cfg, s, id);
  }

  /** Replacing a carrier by one charged the same. */
  lemma SwapLaneInv(cfg: Config, s: State, k: nat, lane: Lane, held: Charge)
    requires Inv(cfg, s, held) && k in s.lanes
    requires GoodLane(cfg, k, lane) && (s.closed ==> EmptyLane(lane))
    requires LaneCharge(lane) == LaneCharge(s.lanes[k])
    ensures Inv(cfg, s.(lanes := s.lanes[k := lane]), held)
  {
    hide *;
    PlusMinus(held, LaneCharge(lane));
    HeldNonnegative(cfg, s, held);
    SetLaneInv(cfg, s, k, lane, held, held);
  }

  lemma PlusMinus(a: Charge, b: Charge)
    ensures a.Plus(b).Minus(b) == a
  {
  }

  lemma HeldNonnegative(cfg: Config, s: State, held: Charge)
    requires Inv(cfg, s, held)
    ensures held.cost >= 0 && held.items >= 0
  {
    hide Charged, Structured;
  }

  lemma SetUpInv(cfg: Config, s: State, k: nat, up: Up, held: Charge)
    requires Inv(cfg, s, held)
    ensures Inv(cfg, SetUp(s, k, up), held)
  {
    if k in s.lanes {
      LaneFacts(cfg, s, held);
      hide Inv;
      SwapLaneInv(cfg, s, k, s.lanes[k].(up := up), held);
    }
  }

  lemma PanicOff(cfg: Config, s: State, held: Charge)
    requires Inv(cfg, s, held)
    ensures !s.panicked && GoodConfig(cfg) && Structured(cfg, s)
  {
  }

  lemma MinusSelf(c: Charge)
    ensures c.Minus(c) == NOTHING && c.Within(c)
  {
  }

  lemma ReleaseLeft(cfg: Config, s: State, left: Charge)
    requires Inv(cfg, s, left)
    ensures Inv(cfg, Release(s, left), NOTHING)
  {
    hide *;
    MinusSelf(left);
    HeldNonnegative(cfg, s, left);
    ReleaseInv(cfg, s, left, left);
  }

  /** A crash is a lost tombstone. */
  ghost predicate Received(cfg: Config, s: State, r: (State, UpAnswer), frames: seq<Frame>, admits: seq<bool>)
    requires GoodConfig(cfg) && |admits| == |frames|
  {
    if r.1.Crashed? then LosesSome(cfg, IdsOf(s), frames, admits) else Inv(cfg, r.0, NOTHING)
  }

  lemma ReceiveInv(cfg: Config, s: State, k: nat, sequence: nat, body: Bytes, frames: seq<Frame>, admits: seq<bool>)
    requires Inv(cfg, s, NOTHING) && !s.closed && |admits| == |frames|
    requires AllFit(frames, MAX_PAYLOAD) && LanesReady(cfg, s, frames)
    ensures Received(cfg, s, Receive(cfg, s, k, sequence, body, frames, admits), frames, admits)
  {
    hide Inv, Validate, Reservation, Apply, Release, SetUp, LosesSome, LanesReady, Reserved, Charge.Plus;
    PanicOff(cfg, s, NOTHING);
    if Validate(TrialOf(s), frames).Some? && Reserved(cfg, s, frames).Some? {
      var a := Reserved(cfg, s, frames).value;
      ValidatedBatchApplies(cfg, s, a, frames, admits);
      match Apply(cfg, a, frames, admits)
      case NilStream =>
      case Aborted(a') => ReleaseLeft(cfg, a'.s, a'.left);
      case Going(a') =>
        ReleaseLeft(cfg, a'.s, a'.left);
        var settled := Release(a'.s, a'.left);
        SetUpInv(cfg, settled, k,
                 if k in settled.lanes then Commit(settled.lanes[k].up, sequence, body, true) else NEW_UP, NOTHING);
    }
  }

  lemma ReadableFits(cfg: Config, body: Bytes)
    ensures Readable(cfg, body).Some? ==> AllFit(Readable(cfg, body).value, MAX_PAYLOAD)
  {
    hide Parsed;
    ParseIsCanonical(body, cfg.limits.maxFramePayload);
  }

  lemma AddLaneInv(cfg: Config, s: State, k: nat, held: Charge)
    requires Inv(cfg, s, held) && k !in s.lanes
    ensures Inv(cfg, AddLane(s, k), held)
  {
    hide *;
    HeldNonnegative(cfg, s, held);
    PlusNothing(held);
    NewLaneIsGood(cfg, s, k);
    SetLaneInv(cfg, s, k, NewLane(s.nextBirth), held, held);
    BirthInv(cfg, s.(lanes := s.lanes[k := NewLane(s.nextBirth)]), s.nextBirth + 1, held);
    AddLaneIs(s, k);
  }

  lemma AddLaneIs(s: State, k: nat)
    ensures AddLane(s, k) == s.(lanes := s.lanes[k := NewLane(s.nextBirth)]).(nextBirth := s.nextBirth + 1)
  {
  }

  lemma NewLaneIsGood(cfg: Config, s: State, k: nat)
    ensures GoodLane(cfg, k, NewLane(s.nextBirth)) && EmptyLane(NewLane(s.nextBirth))
    ensures LaneCharge(NewLane(s.nextBirth)) == NOTHING
  {
    hide LaneCharge, AllQueueable;
    EmptyLaneCharge(NewLane(s.nextBirth));
    NoFramesQueueable(NewLane(s.nextBirth).down.queue);
  }

  lemma NoFramesQueueable(q: seq<Frame>)
    requires |q| == 0
    ensures AllQueueable(q)
  {
  }

  lemma BirthInv(cfg: Config, s: State, birth: int, held: Charge)
    requires Inv(cfg, s, held)
    ensures Inv(cfg, s.(nextBirth := birth), held)
  {
    hide Charged, WellFormed, Balanced, Sane, GoodLane;
    var s' := s.(nextBirth := birth);
    SameCharged(s, s');
    assert forall id | id in s'.streams :: GoodStream(cfg, s, id) ==> GoodStream(cfg, s', id);
  }

  lemma FinishesInv(cfg: Config, s: State, sequence: nat, body: Bytes, admits: seq<bool>)
    requires Inv(cfg, s, NOTHING) && !cfg.UsesLanes()
    ensures var (s', answer) := UpFinishes(cfg, s, sequence, body, admits);
      if answer.Crashed? then
        && Readable(cfg, body).Some? && |admits| == |Readable(cfg, body).value|
        && LosesSome(cfg, IdsOf(s), Readable(cfg, body).value, admits)
      else Inv(cfg, s', NOTHING)
  {
    hide Inv, Readable, Receive, LosesSome;
    LaneFacts(cfg, s, NOTHING);
    var up := s.lanes[0].up.(active := false);
    SetUpInv(cfg, s, 0, up, NOTHING);
    ReadableFits(cfg, body);
    if !s.closed && Readable(cfg, body).Some? && |admits| == |Readable(cfg, body).value| {
      ReceiveInv(cfg, SetUp(s, 0, up), 0, sequence, body, Readable(cfg, body).value, admits);
    }
  }

  lemma BeginsInv(cfg: Config, s: State, sequence: nat, body: Bytes)
    requires Inv(cfg, s, NOTHING)
    ensures Inv(cfg, UpBegins(s, sequence, body).0, NOTHING)
  {
    hide Inv;
    if 0 in s.lanes {
      SetUpInv(cfg, s, 0, s.lanes[0].up.(active := true), NOTHING);
    }
  }

  lemma OpenLaneInv(cfg: Config, s: State, k: nat, sequence: nat, body: Bytes, frames: seq<Frame>, admits: seq<bool>)
    requires Inv(cfg, s, NOTHING) && !s.closed && |admits| == |frames| && k in s.lanes && cfg.UsesLanes()
    requires AllFit(frames, MAX_PAYLOAD) && AllOn(frames, k)
    ensures Inv(cfg, UpOnOpenLane(cfg, s, k, sequence, body, frames, admits).0, NOTHING)
    ensures !UpOnOpenLane(cfg, s, k, sequence, body, frames, admits).1.Crashed?
  {
    hide Inv, Receive, LosesSome, Validate, Apply, Reserved;
    PanicOff(cfg, s, NOTHING);
    if Admit(s.lanes[k].up, sequence, body).Begin? {
      assert LanesReady(cfg, s, frames);
      ReceiveInv(cfg, s, k, sequence, body, frames, admits);
      if Receive(cfg, s, k, sequence, body, frames, admits).1.Crashed? {
        CrashWasAccepted(cfg, s, k, sequence, body, frames, admits);
        LaneBatchNeverLoses(cfg, s, k, frames, admits);
      }
    }
  }

  lemma CrashWasAccepted(cfg: Config, s: State, k: nat, sequence: nat, body: Bytes, frames: seq<Frame>,
                         admits: seq<bool>)
    requires GoodConfig(cfg) && |admits| == |frames|
    ensures Receive(cfg, s, k, sequence, body, frames, admits).1.Crashed? ==> Validate(TrialOf(s), frames).Some?
  {
    hide Validate, Apply, Reserved;
  }

  /** In lane modes an uplink request never loses a tombstone, so it never crashes. */
  lemma UpOnLaneInv(cfg: Config, s: State, k: nat, sequence: nat, body: Bytes, admits: seq<bool>)
    requires Inv(cfg, s, NOTHING) && cfg.UsesLanes()
    ensures Inv(cfg, UpOnLane(cfg, s, k, sequence, body, admits).0, NOTHING)
    ensures !UpOnLane(cfg, s, k, sequence, body, admits).1.Crashed?
  {
    hide Inv, Readable, UpOnOpenLane, AddLane, OnlyLate, AllOn;
    ReadableFits(cfg, body);
    if Readable(cfg, body).Some? && !s.closed {
      var frames := Readable(cfg, body).value;
      if AllOn(frames, k) && |admits| == |frames| {
        if k in s.lanes {
          OpenLaneInv(cfg, s, k, sequence, body, frames, admits);
        } else {
          AddLaneInv(cfg, s, k, NOTHING);
          AddLaneShape(s, k);
          OpenLaneInv(cfg, AddLane(s, k), k, sequence, body, frames, admits);
        }
      }
    }
  }

  lemma AddLaneShape(s: State, k: nat)
    ensures k in AddLane(s, k).lanes && AddLane(s, k).closed == s.closed
  {
  }

  // Polls.

  function DownCharge(d: Down): Charge {
    ChargeOf(d.queue).Plus(ChargeOf(d.unacked))
  }

  /** Frames moved from a carrier's queue to its unacknowledged batch, or acknowledged. */
  ghost predicate Moved(d: Down, d': Down, acked: seq<Frame>) {
    && acked + d'.unacked + d'.queue == d.unacked + d.queue && |d'.queue| <= |d.queue|
    && DownCharge(d) == DownCharge(d').Plus(ChargeOf(acked))
  }

  /** Acknowledging some frames and taking the next `n` of an otherwise acknowledged carrier. */
  lemma TakingMoves(d: Down, d': Down, acked: seq<Frame>, n: nat)
    requires n <= |d.queue| && acked == d.unacked && d'.unacked == d.queue[..n] && d'.queue == d.queue[n..]
    ensures Moved(d, d', acked)
  {
    hide ChargeOf, Charge.Plus;
    TakeSplits(d.queue, n, 0);
    Rearranged(ChargeOf(d'.unacked), ChargeOf(d'.queue), ChargeOf(acked));
    assert acked + d.queue[..n] + d.queue[n..] == acked + d.queue;
  }

  lemma Rearranged(a: Charge, b: Charge, c: Charge)
    ensures a.Plus(b).Plus(c) == b.Plus(a).Plus(c)
  {
  }

  lemma NothingMoves(d: Down, d': Down, acked: seq<Frame>)
    requires |acked| == 0 && d'.unacked == d.unacked && d'.queue == d.queue
    ensures Moved(d, d', acked)
  {
    hide ChargeOf, Charge.Plus;
    ChargeOfEmpty(acked);
    PlusNothing(DownCharge(d));
    assert acked + d'.unacked == d.unacked;
  }

  lemma EmptyTake(q: seq<Frame>)
    ensures q[..0] == [] && q[0..] == q
  {
  }

  lemma EnterMoves(d: Down, poll: PollId, batchBytes: int, laneOver: bool)
    requires HandedOver(d)
    ensures Moved(d, Enter(d, poll, batchBytes, laneOver).0, Acknowledged(d, poll.cursor))
  {
    hide Moved, TakeCount;
    var d', acked := Enter(d, poll, batchBytes, laneOver).0, Acknowledged(d, poll.cursor);
    EmptyTake(d.queue);
    if poll.cursor == d.cursor && !(d.unacked != [] && poll.cursor == d.base) {
      TakingMoves(d, d', acked, if d.queue == [] then 0 else TakeCount(d.queue, batchBytes));
    } else {
      NothingMoves(d, d', acked);
    }
  }

  lemma ResumeMoves(d: Down, poll: PollId, why: Wake, batchBytes: int, closed: bool, laneOver: bool, none: seq<Frame>)
    requires HandedOver(d) && |none| == 0
    ensures Moved(d, Resume(d, poll, why, batchBytes, closed, laneOver).0, none)
  {
    hide Moved, TakeCount;
    var (d', answer) := Resume(d, poll, why, batchBytes, closed, laneOver);
    if answer.Batch? {
      TakingMoves(d, d', none, TakeCount(d.queue, batchBytes));
    } else {
      NothingMoves(d, d', none);
    }
  }

  lemma MovedKeepsFrames(cfg: Config, k: nat, lane: Lane, d': Down, acked: seq<Frame>)
    requires GoodLane(cfg, k, lane) && Moved(lane.down, d', acked) && HandedOver(d')
    ensures GoodLane(cfg, k, lane.(down := d'))
    ensures EmptyLane(lane) ==> EmptyLane(lane.(down := d'))
  {
    hide ChargeOf, DownCharge, Queueable, HandedOver;
    var all := lane.down.unacked + lane.down.queue;
    forall i | 0 <= i < |d'.unacked|
      ensures d'.unacked[i] in lane.down.unacked || d'.unacked[i] in lane.down.queue
    {
      assert all[|acked| + i] == d'.unacked[i];
    }
    forall i | 0 <= i < |d'.queue|
      ensures d'.queue[i] in lane.down.unacked || d'.queue[i] in lane.down.queue
    {
      assert all[|acked| + |d'.unacked| + i] == d'.queue[i];
    }
    BackOfQueue(lane.down.unacked, lane.down.queue, acked + d'.unacked, d'.queue);
    BackIsDense(lane.down.queue, |lane.down.queue| - |d'.queue|, cfg.limits.maxFramePayload);
  }

  lemma BackOfQueue(a: seq<Frame>, q: seq<Frame>, b: seq<Frame>, back: seq<Frame>)
    requires a + q == b + back && |back| <= |q|
    ensures back == q[|q| - |back|..]
  {
    assert (a + q)[|a| + |q| - |back|..] == q[|q| - |back|..];
    assert (b + back)[|b|..] == back;
  }

  lemma MoveInv(cfg: Config, s: State, k: nat, d': Down, acked: seq<Frame>, c: Charge)
    requires Inv(cfg, s, NOTHING) && k in s.lanes && Moved(s.lanes[k].down, d', acked) && HandedOver(d')
    requires c == ChargeOf(acked)
    ensures Inv(cfg, Acknowledging(s, c, k, d'), NOTHING)
  {
    hide Inv, GoodLane, ChargeOf, Charge.Plus, HandedOver;
    LaneFacts(cfg, s, NOTHING);
    var lane := s.lanes[k];
    MovedKeepsFrames(cfg, k, lane, d', acked);
    NothingPlus(LaneCharge(lane));
    PlusCancelsFirst(LaneCharge(lane.(down := d')), c);
    ChargeOfNonnegative(acked);
    SetLaneInv(cfg, s, k, lane.(down := d'), NOTHING, c);
    ReleaseLeft(cfg, SetDown(s, k, d'), c);
    ReleaseThenSet(s, c, k, d');
  }

  lemma ReleaseThenSet(s: State, c: Charge, k: nat, d: Down)
    requires k in s.lanes
    ensures SetDown(Release(s, c), k, d) == Release(SetDown(s, k, d), c)
  {
    hide Charge.Minus, Charge.Within;
  }

  lemma PlusCancelsFirst(a: Charge, b: Charge)
    ensures a.Plus(b).Minus(a) == b
  {
  }

  lemma ChargeOfNonnegative(q: seq<Frame>)
    ensures ChargeOf(q).cost >= 0 && ChargeOf(q).items >= 0
  {
    hide Size;
  }

  lemma PollArrivesInv(cfg: Config, s: State, k: nat, poll: PollId)
    requires Inv(cfg, s, NOTHING)
    ensures Inv(cfg, PollArrives(cfg, s, k, poll).0, NOTHING)
  {
    hide Inv, Enter, Acknowledged, Moved, HandedOver, LaneOver, Release, ChargeOf;
    if !s.closed && k in s.lanes {
      LaneFacts(cfg, s, NOTHING);
      var d := s.lanes[k].down;
      EnterMoves(d, poll, cfg.limits.carrierBatchBytes, LaneOver(cfg, s, k));
      EnterKeepsHandOver(d, poll, cfg.limits.carrierBatchBytes, LaneOver(cfg, s, k));
      MoveInv(cfg, s, k, Enter(d, poll, cfg.limits.carrierBatchBytes, LaneOver(cfg, s, k)).0,
              Acknowledged(d, poll.cursor),
              ChargeOf(Acknowledged(d, poll.cursor)));
    }
  }

  lemma ReleaseOfNoFrames(s: State, none: seq<Frame>)
    requires |none| == 0
    ensures Release(s, ChargeOf(none)) == s
  {
    hide ChargeOf;
    ChargeOfEmpty(none);
  }

  lemma PollWakesInv(cfg: Config, s: State, k: nat, birth: int, poll: PollId, why: Wake)
    requires Inv(cfg, s, NOTHING)
    ensures Inv(cfg, PollWakes(cfg, s, k, birth, poll, why).0, NOTHING)
  {
    hide Inv, Resume, Moved, HandedOver, LaneOver, Release, ChargeOf;
    if k in s.lanes && s.lanes[k].birth == birth {
      LaneFacts(cfg, s, NOTHING);
      var d, none: seq<Frame> := s.lanes[k].down, [];
      ResumeMoves(d, poll, why, cfg.limits.carrierBatchBytes, s.closed, LaneOver(cfg, s, k), none);
      ResumeKeepsHandOver(d, poll, why, cfg.limits.carrierBatchBytes, s.closed, LaneOver(cfg, s, k));
      MoveInv(cfg, s, k, Resume(d, poll, why, cfg.limits.carrierBatchBytes, s.closed, LaneOver(cfg, s, k)).0, none,
              ChargeOf(none));
      ReleaseOfNoFrames(s, none);
    }
  }

  // Backends.

  /** Replacing a live stream by one charged `c` less, and releasing `c`. */
  lemma LighterStreamInv(cfg: Config, s: State, id: nat, st: Stream, c: Charge)
    requires Inv(cfg, s, NOTHING) && id in s.streams && Balanced(st)
    requires WriteCharge(s.streams[id]) == WriteCharge(st).Plus(c) && c.cost >= 0 && c.items >= 0
    ensures Inv(cfg, Release(s, c).(streams := s.streams[id := st]), NOTHING)
  {
    hide *;
    StreamFacts(cfg, s, NOTHING);
    NothingPlus(WriteCharge(s.streams[id]));
    PlusCancelsFirst(WriteCharge(st), c);
    SetStreamInv(cfg, s, id, st, NOTHING, c);
    ReleaseLeft(cfg, s.(streams := s.streams[id := st]), c);
    ReleaseThenSetStream(s, c, id, st);
  }

  lemma ReleaseThenSetStream(s: State, c: Charge, id: nat, st: Stream)
    ensures Release(s, c).(streams := s.streams[id := st]) == Release(s.(streams := s.streams[id := st]), c)
  {
    hide Charge.Minus, Charge.Within;
  }

  lemma SameChargeStreamInv(cfg: Config, s: State, id: nat, st: Stream)
    requires Inv(cfg, s, NOTHING) && id in s.streams && Balanced(st) && WriteCharge(s.streams[id]) == WriteCharge(st)
    ensures Inv(cfg, s.(streams := s.streams[id := st]), NOTHING)
  {
    hide *;
    StreamFacts(cfg, s, NOTHING);
    PlusMinus(NOTHING, WriteCharge(st));
    NothingIsZero();
    SetStreamInv(cfg, s, id, st, NOTHING, NOTHING);
  }

  lemma NothingIsZero()
    ensures NOTHING.cost == 0 && NOTHING.items == 0
  {
  }

  lemma TakeWriteInv(cfg: Config, s: State, id: nat)
    requires Inv(cfg, s, NOTHING)
    ensures Inv(cfg, WriteTaken(s, id), NOTHING)
  {
    hide Inv;
    if !s.closed && id in s.streams && s.streams[id].writes != [] {
      StreamFacts(cfg, s, NOTHING);
      SameChargeStreamInv(cfg, s, id, PopWrite(s.streams[id]));
    }
  }

  lemma DrainCharge(st: Stream, amount: int)
    requires Balanced(st) && Drain(st, amount).Some?
    ensures Balanced(Drain(st, amount).value) && 0 < amount < TWO_32
    ensures WriteCharge(st) == WriteCharge(Drain(st, amount).value).Plus(Charge(amount, 0))
  {
  }

  lemma FinishCharge(st: Stream)
    requires Balanced(st) && FinishWrite(st).Some?
    ensures Balanced(FinishWrite(st).value)
    ensures WriteCharge(st) == WriteCharge(FinishWrite(st).value).Plus(Charge(QUEUE_ITEM_COST, 1))
  {
  }

  lemma SpendKeeps(st: Stream, count: nat)
    requires Balanced(st)
    ensures Balanced(SpendCredit(st, count)) && WriteCharge(SpendCredit(st, count)) == WriteCharge(st)
  {
  }

  lemma DrainedInv(cfg: Config, s: State, id: nat, amount: int)
    requires Inv(cfg, s, NOTHING)
    ensures Inv(cfg, BackendDrained(cfg, s, id, amount).0, NOTHING)
  {
    hide Inv, Drain, Release, QueueFrame, WriteCharge, Balanced, PutUint32;
    PanicOff(cfg, s, NOTHING);
    if !s.closed && id in s.streams && Drain(s.streams[id], amount).Some? {
      StreamFacts(cfg, s, NOTHING);
      var st := Drain(s.streams[id], amount).value;
      DrainCharge(s.streams[id], amount);
      LighterStreamInv(cfg, s, id, st, Charge(amount, 0));
      var drained := Release(s, Charge(amount, 0)).(streams := s.streams[id := st]);
      ReleaseShape(s, Charge(amount, 0));
      QueueFrameInv(cfg, drained, Frame(WINDOW, id, WindowPayload(amount % TWO_32)), NOTHING);
    }
  }

  lemma ReleaseShape(s: State, c: Charge)
    ensures var r := Release(s, c);
      r == s.(pending := r.pending, pool := r.pool, panicked := r.panicked)
  {
    hide Charge.Minus, Charge.Within;
  }

  lemma WriteFinishedInv(cfg: Config, s: State, id: nat)
    requires Inv(cfg, s, NOTHING)
    ensures Inv(cfg, BackendWriteFinished(s, id).0, NOTHING)
  {
    hide Inv, FinishWrite, Release, WriteCharge, Balanced;
    if !s.closed && id in s.streams && FinishWrite(s.streams[id]).Some? {
      StreamFacts(cfg, s, NOTHING);
      FinishCharge(s.streams[id]);
      LighterStreamInv(cfg, s, id, FinishWrite(s.streams[id]).value, Charge(QUEUE_ITEM_COST, 1));
    }
  }

  lemma ReadDataInv(cfg: Config, s: State, id: nat, data: Bytes)
    requires Inv(cfg, s, NOTHING) && |data| <= DATA_CHUNK
    ensures Inv(cfg, BackendData(cfg, s, id, data).0, NOTHING)
  {
    hide Inv, QueueFrame, WriteCharge, Balanced, SpendCredit;
    PanicOff(cfg, s, NOTHING);
    if !s.closed && id in s.streams {
      StreamFacts(cfg, s, NOTHING);
      var st := SpendCredit(s.streams[id], |data|);
      SpendKeeps(s.streams[id], |data|);
      SameChargeStreamInv(cfg, s, id, st);
      QueueFrameInv(cfg, s.(streams := s.streams[id := st]), Frame(DATA, id, data), NOTHING);
    }
  }

  lemma BackendClosedInv(cfg: Config, s: State, id: nat, backend: int)
    requires Inv(cfg, s, NOTHING)
    ensures Inv(cfg, BackendClosed(cfg, s, id, backend), NOTHING)
  {
    hide Inv, QueueFrame, CloseStream, CloseSession;
    PanicOff(cfg, s, NOTHING);
    if !s.closed && id in s.streams {
      StreamFacts(cfg, s, NOTHING);
      CloseStreamInv(cfg, s, id, NOTHING);
      CloseStreamShape(cfg, s, id);
      var gone := CloseStream(cfg, s, id);
      QueueFrameInv(cfg, gone, Frame(CLOSE, id, []), NOTHING);
      CloseSessionInv(cfg, gone);
    }
  }

  lemma LaneReleasedInv(cfg: Config, s: State, k: nat)
    requires Inv(cfg, s, NOTHING)
    ensures Inv(cfg, LaneReleased(cfg, s, k), NOTHING)
  {
    hide Inv, CloseStream, DropLane;
    PanicOff(cfg, s, NOTHING);
    if cfg.carrier.WebSocketLanes? && k in s.lanes {
      if k in s.streams {
        CloseStreamInv(cfg, s, k, NOTHING);
        CloseStreamShape(cfg, s, k);
        DropLaneInv(cfg, CloseStream(cfg, s, k), k, NOTHING);
      } else {
        DropLaneInv(cfg, s, k, NOTHING);
      }
    }
  }

  lemma LaneAcquiredInv(cfg: Config, s: State, k: nat)
    requires Inv(cfg, s, NOTHING)
    ensures Inv(cfg, LaneAcquired(cfg, s, k).0, NOTHING)
  {
    hide Inv, LaneCharge, GoodLane;
    if k !in s.lanes {
      AddLaneInv(cfg, s, k, NOTHING);
    }
    var s1 := if k in s.lanes then s else AddLane(s, k);
    LaneFacts(cfg, s1, NOTHING);
    var lane := s1.lanes[k];
    SocketFlag(cfg, k, lane);
    SwapLaneInv(cfg, s1, k, lane.(websocketActive := true), NOTHING);
  }

  lemma SocketFlag(cfg: Config, k: nat, lane: Lane)
    ensures LaneCharge(lane.(websocketActive := true)) == LaneCharge(lane)
    ensures GoodLane(cfg, k, lane) ==> GoodLane(cfg, k, lane.(websocketActive := true))
    ensures EmptyLane(lane) ==> EmptyLane(lane.(websocketActive := true))
  {
  }

  lemma SocketInv(cfg: Config, s: State)
    requires Inv(cfg, s, NOTHING)
    ensures Inv(cfg, SocketAcquired(cfg, s).0, NOTHING)
  {
    hide Charged, WellFormed, Balanced, Sane, GoodLane;
    var s' := s.(websocketActive := true);
    SameCharged(s, s');
    assert forall id | id in s'.streams :: GoodStream(cfg, s, id) ==> GoodStream(cfg, s', id);
  }

  lemma PoolMoveInv(cfg: Config, s: State, pool: Charge)
    requires Inv(cfg, s, NOTHING) && s.pending.Within(pool)
    ensures Inv(cfg, s.(pool := pool), NOTHING)
  {
    hide Charged, Structured;
    SameCharged(s, s.(pool := pool));
    SameStructured(cfg, s, s.(pool := pool));
  }

  lemma LanesAreReady(cfg: Config, s: State, frames: seq<Frame>)
    requires !cfg.UsesLanes() && 0 in s.lanes
    ensures LanesReady(cfg, s, frames)
  {
  }

  lemma AcceptedIf(cfg: Config, s: State, frames: seq<Frame>)
    requires Inv(cfg, s, NOTHING) && !s.closed && AllFit(frames, MAX_PAYLOAD) && LanesReady(cfg, s, frames)
    requires Validate(TrialOf(s), frames).Some?
    ensures Accepted(cfg, s, frames)
  {
  }

  // What a batch that is not acknowledged leaves behind.

  predicate TookEffect(answer: UpAnswer) {
    answer.Acked? || answer.Aborted? || answer.Crashed?
  }

  /** From `s` the batch was applied up to a refused OPEN at frame `n`, which left its tombstone, and no further. */
  ghost predicate Halted(cfg: Config, s: State, t: State, frames: seq<Frame>, admits: seq<bool>, n: nat)
    requires GoodConfig(cfg) && |admits| == |frames|
  {
    && Reserved(cfg, s, frames).Some?
    && var a := Reserved(cfg, s, frames).value;
       && Apply(cfg, a, frames, admits).Aborted?
       && var b := Apply(cfg, a, frames, admits).acc;
          HaltsAt(cfg, a, frames, admits, n, b) && t == Release(b.s, b.left) && SameUps(s, t)
  }

  lemma ReceiveLeaves(cfg: Config, s: State, k: nat, sequence: nat, body: Bytes, frames: seq<Frame>, admits: seq<bool>)
    returns (n: nat)
    requires GoodConfig(cfg) && |admits| == |frames|
    ensures var (t, answer) := Receive(cfg, s, k, sequence, body, frames, admits);
      && (!TookEffect(answer) ==> t == s) && !answer.Over?
      && (answer.Aborted? ==> Halted(cfg, s, t, frames, admits, n))
  {
    hide Apply, Validate, Reservation, HaltsAt, SessionAdmits, PoolAdmits, Charge.Plus, Charge.Minus, Charge.Within;
    n := 0;
    if Receive(cfg, s, k, sequence, body, frames, admits).1.Aborted? {
      var a := Reserved(cfg, s, frames).value;
      n := AbortHaltsAt(cfg, a, frames, admits);
      ApplyKeepsUps(cfg, a, frames, admits);
      var b := Apply(cfg, a, frames, admits).acc;
      ReleaseShape(b.s, b.left);
    }
  }

  /**
   * ProcessUp at any state: a rejected batch, backpressure, a closed session and a busy, repeated or
   * misnumbered request change nothing but upActive. A batch stopped halfway has put exactly the frames
   * before a refused OPEN into effect, with that OPEN's tombstone, and moved no sequence.
   */
  lemma RefusalsCommitNothing(cfg: Config, s: State, sequence: nat, body: Bytes, admits: seq<bool>) returns (n: nat)
    requires GoodConfig(cfg)
    ensures !UpBegins(s, sequence, body).1.Parsing? ==> UpBegins(s, sequence, body).0 == s
    ensures var (t, answer) := UpFinishes(cfg, s, sequence, body, admits);
      && (!TookEffect(answer) ==> t == AfterParse(s))
      && (answer.Over? <==> s.closed)
      && (answer.Aborted? ==>
            && Readable(cfg, body).Some? && |admits| == |Readable(cfg, body).value|
            && Halted(cfg, AfterParse(s), t, Readable(cfg, body).value, admits, n))
  {
    hide Readable, Receive, Halted, AfterParse;
    n := 0;
    if Readable(cfg, body).Some? && |admits| == |Readable(cfg, body).value| {
      n := ReceiveLeaves(cfg, AfterParse(s), 0, sequence, body, Readable(cfg, body).value, admits);
    }
  }

  /** ProcessUpLane likewise, but for a carrier that the batch's first OPEN may have entered before. */
  lemma LaneRefusalsCommitNothing(cfg: Config, s: State, k: nat, sequence: nat, body: Bytes, admits: seq<bool>)
    returns (n: nat)
    requires GoodConfig(cfg)
    ensures var (t, answer) := UpOnLane(cfg, s, k, sequence, body, admits);
      && (!TookEffect(answer) ==> t == s || (k !in s.lanes && t == AddLane(s, k)))
      && (s.closed ==> t == s && !TookEffect(answer))
      && (answer.Aborted? ==>
            && Readable(cfg, body).Some? && |admits| == |Readable(cfg, body).value|
            && Halted(cfg, if k in s.lanes then s else AddLane(s, k), t, Readable(cfg, body).value, admits, n))
  {
    hide Readable, Receive, Halted, AddLane, OnlyLate, AllOn;
    n := 0;
    AddLaneShape(s, k);
    if Readable(cfg, body).Some? && |admits| == |Readable(cfg, body).value| {
      n := ReceiveLeaves(cfg, if k in s.lanes then s else AddLane(s, k), k, sequence, body,
                         Readable(cfg, body).value, admits);
    }
  }

  // Runs.

  /** This step applies an uplink batch and meets a stream neither live nor remembered. */
  predicate Crashes(cfg: Config, s: State, e: Event)
    requires GoodConfig(cfg)
  {
    match e
    case Finish(sequence, body, admits) => !cfg.UsesLanes() && UpFinishes(cfg, s, sequence, body, admits).1.Crashed?
    case UpLane(k, sequence, body, admits) => cfg.UsesLanes() && UpOnLane(cfg, s, k, sequence, body, admits).1.Crashed?
    case _ => false
  }

  lemma StepInv(cfg: Config, s: State, e: Event)
    requires Inv(cfg, s, NOTHING) && !Crashes(cfg, s, e)
    ensures Inv(cfg, Step(cfg, s, e), NOTHING)
  {
    hide Inv, UpBegins, UpFinishes, UpOnLane, PollArrives, PollWakes, WriteTaken, BackendDrained, BackendWriteFinished;
    hide BackendData, BackendClosed, SocketAcquired, LaneAcquired, LaneReleased, CloseSession;
    PanicOff(cfg, s, NOTHING);
    match e
    case Begin(sequence, body) => BeginsInv(cfg, s, sequence, body);
    case Finish(sequence, body, admits) =>
      if !cfg.UsesLanes() {
        FinishesInv(cfg, s, sequence, body, admits);
      }
    case UpLane(k, sequence, body, admits) =>
      if cfg.UsesLanes() {
        UpOnLaneInv(cfg, s, k, sequence, body, admits);
      }
    case FailLane(k) =>
      CloseSessionInv(cfg, s);
      LaneReleasedInv(cfg, s, k);
    case Arrive(k, poll) => PollArrivesInv(cfg, s, k, poll);
    case Wake(k, birth, poll, why) => PollWakesInv(cfg, s, k, birth, poll, why);
    case TakeWrite(id) => TakeWriteInv(cfg, s, id);
    case Drained(id, amount) => DrainedInv(cfg, s, id, amount);
    case WriteFinished(id) => WriteFinishedInv(cfg, s, id);
    case ReadData(id, data) =>
      if |data| <= DATA_CHUNK {
        ReadDataInv(cfg, s, id, data);
      }
    case BackendGone(id, backend) => BackendClosedInv(cfg, s, id, backend);
    case AcquireSocket => SocketInv(cfg, s);
    case AcquireLane(k) => LaneAcquiredInv(cfg, s, k);
    case ReleaseLane(k) => LaneReleasedInv(cfg, s, k);
    case CloseAll => CloseSessionInv(cfg, s);
    case OthersMovePool(pool) =>
      if s.pending.Within(pool) {
        PoolMoveInv(cfg, s, pool);
      }
  }

  function Run(cfg: Config, pool: Charge, events: seq<Event>): State
    requires GoodConfig(cfg)
  {
    if events == [] then NewSession(cfg, pool)
    else Step(cfg, Run(cfg, pool, events[..|events| - 1]), events[|events| - 1])
  }

  predicate CrashFree(cfg: Config, pool: Charge, events: seq<Event>)
    requires GoodConfig(cfg)
  {
    events == [] ||
    (CrashFree(cfg, pool, events[..|events| - 1])
     && !Crashes(cfg, Run(cfg, pool, events[..|events| - 1]), events[|events| - 1]))
  }

  lemma {:induction false} RunInv(cfg: Config, pool: Charge, events: seq<Event>)
    requires GoodConfig(cfg) && NOTHING.Within(pool) && CrashFree(cfg, pool, events)
    ensures Inv(cfg, Run(cfg, pool, events), NOTHING)
  {
    hide Inv, Step, Crashes, NewSession;
    if |events| == 0 {
      NewSessionInv(cfg, pool);
    } else {
      RunInv(cfg, pool, events[..|events| - 1]);
      StepInv(cfg, Run(cfg, pool, events[..|events| - 1]), events[|events| - 1]);
    }
  }

  /**
   * At every lock release of every run, in every carrier mode: the counters equal what is queued,
   * unacknowledged and buffered; no release ever panics; a closed session holds nothing.
   */
  lemma BudgetIsConserved(cfg: Config, pool: Charge, events: seq<Event>)
    requires GoodConfig(cfg) && NOTHING.Within(pool) && CrashFree(cfg, pool, events)
    ensures var s := Run(cfg, pool, events);
      && s.pending == Charged(s) && !s.panicked
      && NOTHING.Within(s.pending) && s.pending.Within(s.pool)
      && (s.closed ==> s.pending == NOTHING && s.streams == map[])
  {
    hide Charged, Charge.Plus, Structured, Run, CrashFree;
    RunInv(cfg, pool, events);
    var s := Run(cfg, pool, events);
    PlusNothing(Charged(s));
    ChargesNonnegative(cfg, s);
    LaneFacts(cfg, s, NOTHING);
    if s.closed {
      ClosedIsEmpty(cfg, s);
    }
  }

  /**
   * At every lock release: each live stream's window and buffer share one allowance, no live id is
   * a remembered one, every live stream has its carrier, the ring stays duplicate-free and bounded,
   * and every carrier's poll hand-over holds; and no DATA frame queued on it would have fitted into the one
   * of its stream just before it.
   */
  lemma StructureIsKept(cfg: Config, pool: Charge, events: seq<Event>, id: nat, k: nat)
    requires GoodConfig(cfg) && NOTHING.Within(pool) && CrashFree(cfg, pool, events)
    ensures var s := Run(cfg, pool, events);
      && (id in s.streams ==>
            && s.streams[id].receiveWindow + s.streams[id].pendingWriteBytes == INITIAL_STREAM_WINDOW
            && s.streams[id].pendingWriteCost
                 == s.streams[id].pendingWriteBytes + QUEUE_ITEM_COST * s.streams[id].pendingWriteItems
            && s.streams[id].receiveWindow >= 0
            && id !in s.tombs && cfg.LaneOf(id) in s.lanes)
      && |s.streams| <= cfg.limits.maxStreamsPerSession
      && Distinct(s.tombs) && |s.tombs| <= cfg.limits.maxClosedStreamIDs
      && (k in s.lanes ==> HandedOver(s.lanes[k].down))
      && (k in s.lanes ==>
            var q := s.lanes[k].down.queue;
            forall i | 0 < i < |q| && q[i - 1].kind == DATA && q[i].kind == DATA && q[i - 1].id == q[i].id ::
              |q[i - 1].payload| + |q[i].payload| > cfg.limits.maxFramePayload)
  {
    hide Charged, Run, CrashFree, Distinct, HandedOver;
    RunInv(cfg, pool, events);
    StreamFacts(cfg, Run(cfg, pool, events), NOTHING);
    LaneFacts(cfg, Run(cfg, pool, events), NOTHING);
  }

  /** In lane modes no run crashes, so the two theorems above hold of all of them. */
  lemma {:induction false} LaneModesNeverCrash(cfg: Config, pool: Charge, events: seq<Event>)
    requires GoodConfig(cfg) && NOTHING.Within(pool) && cfg.UsesLanes()
    ensures CrashFree(cfg, pool, events)
  {
    hide Inv, UpOnLane, Step;
    if events != [] {
      var before, e := events[..|events| - 1], events[|events| - 1];
      LaneModesNeverCrash(cfg, pool, before);
      RunInv(cfg, pool, before);
      if e.UpLane? {
        UpOnLaneInv(cfg, Run(cfg, pool, before), e.lane, e.sequence, e.body, e.admits);
      }
    }
  }

  /**
   * Elsewhere a run crashes only where a batch outlives one of its streams' tombstones, which takes
   * more OPEN and CLOSE frames than the ring has room for.
   */
  lemma CrashMeansLostTombstone(cfg: Config, s: State, e: Event)
    requires Inv(cfg, s, NOTHING) && Crashes(cfg, s, e)
    ensures !cfg.UsesLanes() && e.Finish? && Readable(cfg, e.body).Some? && |e.admits| == |Readable(cfg, e.body).value|
    ensures LosesSome(cfg, IdsOf(s), Readable(cfg, e.body).value, e.admits)
    ensures |s.tombs| + Closings(Readable(cfg, e.body).value) > cfg.limits.maxClosedStreamIDs
  {
    hide Inv, UpOnLane, Readable, LosesSome, Receive, Validate, TrialOf;
    PanicOff(cfg, s, NOTHING);
    if e.UpLane? {
      UpOnLaneInv(cfg, s, e.lane, e.sequence, e.body, e.admits);
    } else {
      FinishesInv(cfg, s, e.sequence, e.body, e.admits);
      var frames := Readable(cfg, e.body).value;
      var s1 := AfterParse(s);
      CrashWasAccepted(cfg, s1, 0, e.sequence, e.body, frames, e.admits);
      SameTrial(cfg, s, s1);
      StartTracked(s);
      if |s.tombs| + Closings(frames) <= cfg.limits.maxClosedStreamIDs {
        RoomLosesNothing(cfg, TrialOf(s), IdsOf(s), frames, e.admits);
      }
    }
  }

  lemma StartTracked(s: State)
    ensures Tracked(TrialOf(s), IdsOf(s))
  {
  }
}

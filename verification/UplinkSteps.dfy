/** The one batch an uplink step may apply, in every carrier mode, and what all other steps do to streams. */
module UplinkSteps {
  import opened Octets
  import opened Outcomes
  import opened Frames
  import opened Limits
  import opened Queue
  import opened Poll
  import opened Uplink
  import opened SessionState
  import opened Batch
  import opened BatchLaws
  import opened SessionSteps

  /** A validated batch and the session with its reservation charged. */
  datatype Ready = Ready(a: Acc, frames: seq<Frame>)

  /** What is left of a body, once `s` has the lock, to be applied: it reads, is valid and finds room. */
  function ReadyOn(cfg: Config, s: State, body: Bytes, admits: seq<bool>): (r: Option<Ready>)
    requires GoodConfig(cfg)
    ensures r.Some? ==> |admits| == |r.value.frames|
  {
    var frames := Readable(cfg, body);
    if frames.None? || |admits| != |frames.value| || Validate(TrialOf(s), frames.value).None? then None
    else
      match Reserved(cfg, s, frames.value)
      case None => None
      case Some(a) => Some(Ready(a, frames.value))
  }

  /** The session a lane's body is applied to: its lane may be new. */
  function Entered(s: State, k: nat): State {
    if k in s.lanes then s else AddLane(s, k)
  }

  /** A body ProcessUpLane looks at: readable, on its lane, and for a lane that is there or that it opens. */
  predicate ForLane(cfg: Config, s: State, k: nat, body: Bytes) {
    && Readable(cfg, body).Some?
    && var frames := Readable(cfg, body).value;
       AllOn(frames, k) && (k in s.lanes || (k != 0 && frames != [] && frames[0].kind == OPEN))
  }

  /** The batch this step applies, if it applies one. */
  function Batched(cfg: Config, s: State, e: Event): (r: Option<Ready>)
    requires GoodConfig(cfg)
    ensures r.Some? ==> (e.Finish? || e.UpLane?) && |e.admits| == |r.value.frames|
  {
    match e
    case Finish(sequence, body, admits) =>
      if cfg.UsesLanes() || s.closed then None else ReadyOn(cfg, AfterParse(s), body, admits)
    case UpLane(k, sequence, body, admits) =>
      if !cfg.UsesLanes() || k > MAX_STREAM_ID || s.closed || !ForLane(cfg, s, k, body)
         || !Admit(Entered(s, k).lanes[k].up, sequence, body).Begin? then None
      else ReadyOn(cfg, Entered(s, k), body, admits)
    case _ => None
  }

  /** The session an apply leaves, as far as streams go; the one it began with if it met a missing stream. */
  function StateAfter(cfg: Config, r: Ready, admits: seq<bool>): State
    requires GoodConfig(cfg) && |admits| == |r.frames|
  {
    match Apply(cfg, r.a, r.frames, admits)
    case Going(b) => b.s
    case Aborted(b) => b.s
    case NilStream => r.a.s
  }

  /** The same streams, and the same backends yet to come. */
  predicate SameStreams(s: State, t: State) {
    t.streams == s.streams && t.nextBackend == s.nextBackend
  }

  lemma ReceiveStreams(cfg: Config, s: State, k: nat, sequence: nat, body: Bytes, admits: seq<bool>)
    requires GoodConfig(cfg) && Readable(cfg, body).Some? && |admits| == |Readable(cfg, body).value|
    ensures var t := Receive(cfg, s, k, sequence, body, Readable(cfg, body).value, admits).0;
      match ReadyOn(cfg, s, body, admits)
      case None => SameStreams(s, t)
      case Some(r) => SameStreams(s, r.a.s) && SameStreams(StateAfter(cfg, r, admits), t)
  {
    hide Readable, Validate, Apply, Reservation, Release, SessionAdmits, PoolAdmits, Charge.Plus, Commit;
    var frames := Readable(cfg, body).value;
    match ReadyOn(cfg, s, body, admits)
    case None =>
    case Some(r) =>
      match Apply(cfg, r.a, frames, admits) {
        case Going(b) => ReleaseShape(b.s, b.left);
        case Aborted(b) => ReleaseShape(b.s, b.left);
        case NilStream =>
      }
  }

  lemma FinishStreams(cfg: Config, s: State, sequence: nat, body: Bytes, admits: seq<bool>)
    requires GoodConfig(cfg) && !s.closed
    ensures var t := UpFinishes(cfg, s, sequence, body, admits).0;
      match ReadyOn(cfg, AfterParse(s), body, admits)
      case None => SameStreams(s, t)
      case Some(r) => SameStreams(s, r.a.s) && SameStreams(StateAfter(cfg, r, admits), t)
  {
    hide Readable, Receive, ReadyOn, StateAfter;
    if Readable(cfg, body).Some? && |admits| == |Readable(cfg, body).value| {
      ReceiveStreams(cfg, AfterParse(s), 0, sequence, body, admits);
    } else {
      UnreadyOn(cfg, AfterParse(s), body, admits);
    }
  }

  lemma OpenLaneStreams(cfg: Config, s: State, k: nat, sequence: nat, body: Bytes, admits: seq<bool>)
    requires GoodConfig(cfg) && k in s.lanes
    requires Readable(cfg, body).Some? && |admits| == |Readable(cfg, body).value|
    ensures var t := UpOnOpenLane(cfg, s, k, sequence, body, Readable(cfg, body).value, admits).0;
      if !Admit(s.lanes[k].up, sequence, body).Begin? then SameStreams(s, t)
      else
        match ReadyOn(cfg, s, body, admits)
        case None => SameStreams(s, t)
        case Some(r) => SameStreams(s, r.a.s) && SameStreams(StateAfter(cfg, r, admits), t)
  {
    hide Readable, Receive, ReadyOn, StateAfter;
    ReceiveStreams(cfg, s, k, sequence, body, admits);
  }

  lemma UpLaneStreams(cfg: Config, s: State, e: Event)
    requires GoodConfig(cfg) && e.UpLane?
    ensures var t := SessionSteps.Step(cfg, s, e);
      match Batched(cfg, s, e)
      case None => SameStreams(s, t)
      case Some(r) => SameStreams(s, r.a.s) && SameStreams(StateAfter(cfg, r, e.admits), t)
  {
    hide Readable, UpOnOpenLane, ReadyOn, StateAfter, OnlyLate, AllOn;
    AddLaneShape(s, e.lane);
    if Readable(cfg, e.body).Some? && |e.admits| == |Readable(cfg, e.body).value| {
      OpenLaneStreams(cfg, Entered(s, e.lane), e.lane, e.sequence, e.body, e.admits);
    } else {
      UnreadyOn(cfg, Entered(s, e.lane), e.body, e.admits);
    }
  }

  /** An uplink step changes streams by the batch it applies, and by nothing else. */
  lemma UplinkStreams(cfg: Config, s: State, e: Event)
    requires GoodConfig(cfg) && (e.Finish? || e.UpLane?)
    ensures var t := SessionSteps.Step(cfg, s, e);
      match Batched(cfg, s, e)
      case None => SameStreams(s, t)
      case Some(r) => SameStreams(s, r.a.s) && SameStreams(StateAfter(cfg, r, e.admits), t)
  {
    hide UpOnLane, UpFinishes, ReadyOn, StateAfter, ForLane, Readable;
    if e.UpLane? {
      UpLaneStreams(cfg, s, e);
    } else if !s.closed {
      FinishStreams(cfg, s, e.sequence, e.body, e.admits);
    } else {
      ClosedFinish(cfg, s, e.sequence, e.body, e.admits);
    }
  }

  lemma ClosedFinish(cfg: Config, s: State, sequence: nat, body: Bytes, admits: seq<bool>)
    requires GoodConfig(cfg) && s.closed
    ensures UpFinishes(cfg, s, sequence, body, admits) == (AfterParse(s), Over) && SameStreams(s, AfterParse(s))
  {
  }

  lemma UnreadyOn(cfg: Config, s: State, body: Bytes, admits: seq<bool>)
    requires GoodConfig(cfg) && (Readable(cfg, body).Some? ==> |admits| != |Readable(cfg, body).value|)
    ensures ReadyOn(cfg, s, body, admits).None?
  {
    hide Readable, Validate, Reserved;
  }

  /** The body is readable, valid and within the budget, and applies to its end. */
  predicate Whole(cfg: Config, s: State, body: Bytes, admits: seq<bool>)
    requires GoodConfig(cfg)
  {
    match ReadyOn(cfg, s, body, admits)
    case None => false
    case Some(r) => Apply(cfg, r.a, r.frames, admits).Going?
  }

  lemma UnreadNotWhole(cfg: Config, s: State, body: Bytes, admits: seq<bool>)
    requires GoodConfig(cfg) && (Readable(cfg, body).Some? ==> |admits| != |Readable(cfg, body).value|)
    ensures !Whole(cfg, s, body, admits)
  {
    hide ReadyOn, Readable;
    UnreadyOn(cfg, s, body, admits);
  }

  /** A backend's own calls. */
  predicate LoopCall(e: Event) {
    e.TakeWrite? || e.Drained? || e.WriteFinished? || e.ReadData?
  }

  /** Every other step lets streams go, if it touches them at all. */
  lemma OthersRemove(cfg: Config, s: State, e: Event)
    requires GoodConfig(cfg) && !e.Finish? && !e.UpLane? && !LoopCall(e)
    ensures var t := SessionSteps.Step(cfg, s, e);
      && t.nextBackend == s.nextBackend
      && forall id | id in t.streams :: id in s.streams && t.streams[id] == s.streams[id]
  {
    hide Enter, Resume, Acknowledged, LaneOver, Release, ChargeOf, QueueFrame, CloseStream, LaneReleased;
    hide LaneAcquired;
    match e
    case Arrive(k, poll) =>
      if k in s.lanes {
        ReleaseShape(s, ChargeOf(Acknowledged(s.lanes[k].down, poll.cursor)));
      }
    case BackendGone(id, backend) =>
      if id in s.streams {
        CloseStreamShape(cfg, s, id);
        QueueFrameShape(cfg, CloseStream(cfg, s, id), Frame(CLOSE, id, []));
      }
    case AcquireLane(k) => AcquiredStreams(cfg, s, k);
    case FailLane(k) => ReleasedStreams(cfg, s, k);
    case ReleaseLane(k) => ReleasedStreams(cfg, s, k);
    case _ =>
  }

  lemma AcquiredStreams(cfg: Config, s: State, k: nat)
    ensures LaneAcquired(cfg, s, k).0.streams == s.streams && LaneAcquired(cfg, s, k).0.nextBackend == s.nextBackend
  {
  }

  lemma ReleasedStreams(cfg: Config, s: State, k: nat)
    requires GoodConfig(cfg)
    ensures var t := LaneReleased(cfg, s, k);
      && t.nextBackend == s.nextBackend
      && forall id | id in t.streams :: id in s.streams && t.streams[id] == s.streams[id]
  {
    hide CloseStream, DropLane;
    if k in s.streams {
      CloseStreamShape(cfg, s, k);
      DropLaneShape(CloseStream(cfg, s, k), k);
    } else {
      DropLaneShape(s, k);
    }
  }
}

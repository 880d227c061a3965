/** What each critical section does to the carriers: their uplink halves, their sockets, their comings and goings. */
module Carriers {
  import opened Octets
  import opened Frames
  import opened Limits
  import opened Queue
  import opened Streams
  import opened Poll
  import opened Uplink
  import opened SessionState
  import opened Batch
  import opened BatchLaws
  import opened SessionSteps
  import opened UplinkSteps

  /** From `s` to `t` carriers may go, and only carrier `k` has its uplink half changed, to `up`. */
  ghost predicate OnlyUp(s: State, t: State, k: nat, up: Up) {
    && t.nextBirth == s.nextBirth && (s.websocketActive ==> t.websocketActive)
    && forall j | j in t.lanes ::
         j in s.lanes
         && t.lanes[j] == s.lanes[j].(down := t.lanes[j].down, up := if j == k then up else s.lanes[j].up)
  }

  lemma ReceiveCarriers(cfg: Config, s: State, k: nat, sequence: nat, body: Bytes, admits: seq<bool>)
    requires GoodConfig(cfg) && k in s.lanes
    requires Readable(cfg, body).Some? && |admits| == |Readable(cfg, body).value|
    ensures var (t, answer) := Receive(cfg, s, k, sequence, body, Readable(cfg, body).value, admits);
      && (answer.Acked? <==> Whole(cfg, s, body, admits))
      && OnlyUp(s, t, k, if answer.Acked? then Up(sequence, body, false) else s.lanes[k].up)
  {
    hide Readable, Validate, Apply, Reservation, Release, SessionAdmits, PoolAdmits, Charge.Plus, TrialOf;
    var frames := Readable(cfg, body).value;
    match ReadyOn(cfg, s, body, admits)
    case None =>
    case Some(r) =>
      ApplyKeepsUps(cfg, r.a, frames, admits);
      match Apply(cfg, r.a, frames, admits) {
        case Going(b) => ReleaseShape(b.s, b.left);
        case Aborted(b) => ReleaseShape(b.s, b.left);
        case NilStream =>
      }
  }

  lemma FinishCarriers(cfg: Config, s: State, sequence: nat, body: Bytes, admits: seq<bool>)
    requires GoodConfig(cfg) && 0 in s.lanes
    ensures var (t, answer) := UpFinishes(cfg, s, sequence, body, admits);
      && (answer.Acked? <==> !s.closed && Whole(cfg, AfterParse(s), body, admits))
      && OnlyUp(s, t, 0, if answer.Acked? then Up(sequence, body, false) else s.lanes[0].up.(active := false))
  {
    hide Readable, Receive, Whole;
    if Readable(cfg, body).Some? && |admits| == |Readable(cfg, body).value| {
      ReceiveCarriers(cfg, AfterParse(s), 0, sequence, body, admits);
    } else {
      UnreadNotWhole(cfg, AfterParse(s), body, admits);
    }
  }

  /** ProcessUpLane for a body it looks at, from the point where the lane exists. */
  lemma UpLaneCarriers(cfg: Config, s: State, k: nat, sequence: nat, body: Bytes, admits: seq<bool>)
    requires GoodConfig(cfg) && !s.closed && ForLane(cfg, s, k, body)
    requires |admits| == |Readable(cfg, body).value|
    ensures k in Entered(s, k).lanes
    ensures var (t, answer), s1 := UpOnLane(cfg, s, k, sequence, body, admits), Entered(s, k);
      if !Admit(s1.lanes[k].up, sequence, body).Begin? then t == s1
      else
        && (answer.Acked? <==> Whole(cfg, s1, body, admits))
        && OnlyUp(s1, t, k, if answer.Acked? then Up(sequence, body, false) else s1.lanes[k].up)
  {
    hide Readable, Receive, Whole, AllOn, OnlyUp;
    AddLaneShape(s, k);
    ReceiveCarriers(cfg, Entered(s, k), k, sequence, body, admits);
  }

  /** Any other body changes nothing. */
  lemma UnreadUplink(cfg: Config, s: State, k: nat, sequence: nat, body: Bytes, admits: seq<bool>)
    requires GoodConfig(cfg)
    requires s.closed || !ForLane(cfg, s, k, body) || |admits| != |Readable(cfg, body).value|
    ensures UpOnLane(cfg, s, k, sequence, body, admits).0 == s
  {
    hide Readable, UpOnOpenLane, AllOn, OnlyLate;
  }

  /** Steps that are no uplink's and enter no lane leave all but downlink halves as they were. */
  lemma OthersKeepCarriers(cfg: Config, s: State, e: SessionSteps.Event)
    requires GoodConfig(cfg) && !e.Begin? && !e.Finish? && !e.UpLane? && !e.AcquireLane?
    ensures SameCarriers(s, SessionSteps.Step(cfg, s, e)) && SessionSteps.Step(cfg, s, e).nextBirth == s.nextBirth
  {
    hide SameCarriers, PollArrives, PollWakes, WriteTaken, BackendDrained, BackendWriteFinished, BackendData;
    hide BackendClosed, LaneReleased, CloseSession;
    match e
    case FailLane(k) =>
      ReleasedCarriers(cfg, s, k);
      ClosedCarriers(s);
    case Arrive(k, poll) => PolledCarriers(cfg, s, k, poll, 0, Notified);
    case Wake(k, birth, poll, why) => PolledCarriers(cfg, s, k, poll, birth, why);
    case TakeWrite(id) => CalledCarriers(cfg, s, id, 0, [], 0);
    case Drained(id, amount) => CalledCarriers(cfg, s, id, amount, [], 0);
    case WriteFinished(id) => CalledCarriers(cfg, s, id, 0, [], 0);
    case ReadData(id, data) =>
      CalledCarriers(cfg, s, id, 0, data, 0);
      SameAsItself(s, s);
    case BackendGone(id, backend) => GoneCarriers(cfg, s, id, backend);
    case ReleaseLane(k) => ReleasedCarriers(cfg, s, k);
    case CloseAll => ClosedCarriers(s);
    case AcquireSocket => SameAsItself(s, SocketAcquired(cfg, s).0);
    case OthersMovePool(pool) => SameAsItself(s, SessionSteps.Step(cfg, s, e));
  }

  lemma SameAsItself(s: State, t: State)
    requires t.lanes == s.lanes && (s.websocketActive ==> t.websocketActive)
    ensures SameCarriers(s, t)
  {
  }

  lemma CarriersTrans(s: State, t: State, u: State)
    requires SameCarriers(s, t) && SameCarriers(t, u)
    ensures SameCarriers(s, u)
  {
  }

  lemma ClosedCarriers(s: State)
    ensures SameCarriers(s, CloseSession(s)) && CloseSession(s).nextBirth == s.nextBirth
  {
  }

  lemma ReleasedCarriers(cfg: Config, s: State, k: nat)
    requires GoodConfig(cfg)
    ensures SameCarriers(s, LaneReleased(cfg, s, k)) && LaneReleased(cfg, s, k).nextBirth == s.nextBirth
  {
    hide CloseStream, SameCarriers, LaneCharge;
    SameAsItself(s, s);
    if k in s.streams {
      CloseKeepsUps(cfg, s, k);
      DroppedCarriers(CloseStream(cfg, s, k), k);
      assert SameUps(s, CloseStream(cfg, s, k));
      CarriersTrans(s, CloseStream(cfg, s, k), DropLane(CloseStream(cfg, s, k), k));
    } else {
      DroppedCarriers(s, k);
    }
  }

  lemma DroppedCarriers(s: State, k: nat)
    ensures SameCarriers(s, DropLane(s, k)) && DropLane(s, k).nextBirth == s.nextBirth
  {
    hide LaneCharge, Charge.Minus, Charge.Within;
  }

  lemma PolledCarriers(cfg: Config, s: State, k: nat, poll: PollId, birth: int, why: Wake)
    ensures var t := PollArrives(cfg, s, k, poll).0; SameCarriers(s, t) && t.nextBirth == s.nextBirth
    ensures var t := PollWakes(cfg, s, k, birth, poll, why).0; SameCarriers(s, t) && t.nextBirth == s.nextBirth
  {
    hide Enter, Resume, Acknowledged, LaneOver, Release, ChargeOf;
    if k in s.lanes {
      ReleaseShape(s, ChargeOf(Acknowledged(s.lanes[k].down, poll.cursor)));
    }
  }

  lemma QueuedCarriers(cfg: Config, s: State, before: State, f: Frame)
    requires GoodConfig(cfg) && before.lanes == s.lanes && before.nextBirth == s.nextBirth
    requires before.websocketActive == s.websocketActive
    ensures QueueFrame(cfg, before, f).Some? ==>
      SameCarriers(s, QueueFrame(cfg, before, f).value) && QueueFrame(cfg, before, f).value.nextBirth == s.nextBirth
  {
    hide QueueFrame;
    QueueKeepsUps(cfg, before, f);
  }

  lemma CalledCarriers(cfg: Config, s: State, id: nat, amount: int, data: Bytes, backend: int)
    requires GoodConfig(cfg)
    ensures SameCarriers(s, WriteTaken(s, id)) && WriteTaken(s, id).nextBirth == s.nextBirth
    ensures var t := BackendDrained(cfg, s, id, amount).0; SameCarriers(s, t) && t.nextBirth == s.nextBirth
    ensures var t := BackendWriteFinished(s, id).0; SameCarriers(s, t) && t.nextBirth == s.nextBirth
    ensures var t := BackendData(cfg, s, id, data).0; SameCarriers(s, t) && t.nextBirth == s.nextBirth
  {
    hide QueueFrame, Release, Drain, FinishWrite, PutUint32, SpendCredit, SameCarriers;
    SameAsItself(s, WriteTaken(s, id));
    SameAsItself(s, s);
    ReleaseShape(s, Charge(amount, 0));
    ReleaseShape(s, Charge(QUEUE_ITEM_COST, 1));
    SameAsItself(s, BackendWriteFinished(s, id).0);
    if id in s.streams {
      var spent := s.(streams := s.streams[id := SpendCredit(s.streams[id], |data|)]);
      SameAsItself(s, spent);
      QueuedCarriers(cfg, s, spent, Frame(DATA, id, data));
      if Drain(s.streams[id], amount).Some? {
        var drained := Release(s, Charge(amount, 0)).(streams := s.streams[id := Drain(s.streams[id], amount).value]);
        SameAsItself(s, drained);
        QueuedCarriers(cfg, s, drained, Frame(WINDOW, id, WindowPayload(amount % TWO_32)));
      }
    }
  }

  lemma GoneCarriers(cfg: Config, s: State, id: nat, backend: int)
    requires GoodConfig(cfg)
    ensures var t := BackendClosed(cfg, s, id, backend); SameCarriers(s, t) && t.nextBirth == s.nextBirth
  {
    hide QueueFrame, CloseStream, CloseSession, SameCarriers;
    SameAsItself(s, s);
    if id in s.streams {
      var gone := CloseStream(cfg, s, id);
      CloseKeepsUps(cfg, s, id);
      assert SameUps(s, gone);
      ClosedCarriers(gone);
      CarriersTrans(s, gone, CloseSession(gone));
      QueuedCarriers(cfg, gone, gone, Frame(CLOSE, id, []));
      if QueueFrame(cfg, gone, Frame(CLOSE, id, [])).Some? {
        CarriersTrans(s, gone, QueueFrame(cfg, gone, Frame(CLOSE, id, [])).value);
      }
    }
  }
}

/**
 * One lane of a session in HTTPS lane mode, end to end: the app's frames of one stream, the bridge's two
 * loops for its lane, the network, the session and the stream's backend. Whatever the session's other
 * lanes and streams do goes on beside it.
 */
module LaneWorld {
  import opened Octets
  import opened Outcomes
  import opened Frames
  import opened Limits
  import opened Queue
  import opened Streams
  import opened Tombstones
  import opened Poll
  import opened Uplink
  import opened SessionState
  import opened Batch
  import opened BatchLaws
  import opened SessionSteps
  import opened UplinkSteps
  import opened OneCarrier
  import opened Tales
  import UplinkRun
  import DownlinkRun
  import RelayWorld

  /** The lane's two protocols, its stream's history, the frames applied on it. */
  datatype World = World(
    s: State, up: UplinkRun.Net, down: DownlinkRun.Net, tale: Tale, frames: seq<Frame>, aborted: bool)

  function Start(cfg: Config, pool: Charge): World {
    World(NewSession(cfg, pool), UplinkRun.START, DownlinkRun.START, NEW_TALE, [], false)
  }

  // What the rest of the session does to this lane: nothing, unless it makes the ring forget the stream.

  predicate RingInOrder(cfg: Config, s: State) {
    cfg.limits.maxClosedStreamIDs > 0 && WellFormed(s.tombs, cfg.limits.maxClosedStreamIDs)
  }

  /** The remembered ids other than `k`. */
  function Others(k: nat, s: State): int {
    |s.tombs| - if k in s.tombs then 1 else 0
  }

  /** With `closings` frames or events that can remember an id: if the ring has room for them, `k` stays in it. */
  ghost predicate Leaves(cfg: Config, k: nat, s: State, t: State, closings: nat) {
    RingInOrder(cfg, s) ==>
      && (Others(k, s) + closings < cfg.limits.maxClosedStreamIDs ==>
            Others(k, t) <= Others(k, s) + closings && (k in s.tombs ==> k in t.tombs))
      && RingInOrder(cfg, t) && t.closed == s.closed
      && (k in t.streams <==> k in s.streams) && (k in s.streams ==> t.streams[k] == s.streams[k])
      && (k in t.tombs ==> k in s.tombs)
      && ((k in s.tombs ==> k in t.tombs) ==>
            (k in t.lanes <==> k in s.lanes) && (k in s.lanes ==> t.lanes[k] == s.lanes[k]))
  }

  lemma LeavesTrans(cfg: Config, k: nat, s: State, t: State, u: State, m: nat, n: nat)
    requires Leaves(cfg, k, s, t, m) && Leaves(cfg, k, t, u, n)
    ensures Leaves(cfg, k, s, u, m + n)
  {
    hide RingInOrder;
  }

  /** Tombstones as they were, and everything of this lane's. */
  lemma SameLeaves(cfg: Config, k: nat, s: State, t: State)
    requires t.tombs == s.tombs && t.closed == s.closed
    requires (k in t.streams <==> k in s.streams) && (k in s.streams ==> t.streams[k] == s.streams[k])
    requires (k in t.lanes <==> k in s.lanes) && (k in s.lanes ==> t.lanes[k] == s.lanes[k])
    ensures forall n: nat :: Leaves(cfg, k, s, t, n)
  {
  }

  lemma RingAfter(cfg: Config, k: nat, s: State, id: nat)
    requires GoodConfig(cfg) && id != k && RingInOrder(cfg, s)
    ensures var cap := cfg.limits.maxClosedStreamIDs;
      && WellFormed(Remember(s.tombs, id, cap), cap)
      && (k in Remember(s.tombs, id, cap) <==> k in s.tombs && Evicted(s.tombs, id, cap) != Some(k))
      && (Evicted(s.tombs, id, cap) == Some(k) ==> k in s.tombs)
      && (|s.tombs| < cap ==> Evicted(s.tombs, id, cap).None? && |Remember(s.tombs, id, cap)| <= |s.tombs| + 1)
  {
    RememberKeeps(s.tombs, id, cfg.limits.maxClosedStreamIDs);
  }

  lemma RememberLeaves(cfg: Config, k: nat, s: State, id: nat)
    requires GoodConfig(cfg) && id != k
    ensures Leaves(cfg, k, s, RememberClosed(cfg, s, id), 1)
  {
    hide Remember, WellFormed, Evicted, DropLane;
    if RingInOrder(cfg, s) {
      RingAfter(cfg, k, s, id);
      var cap := cfg.limits.maxClosedStreamIDs;
      var remembered := s.(tombs := Remember(s.tombs, id, cap));
      if Evicted(s.tombs, id, cap).Some? {
        DropLaneShape(remembered, Evicted(s.tombs, id, cap).value);
      }
    }
  }

  lemma CloseLeaves(cfg: Config, k: nat, s: State, id: nat)
    requires GoodConfig(cfg) && id != k && id in s.streams
    ensures Leaves(cfg, k, s, CloseStream(cfg, s, id), 1)
  {
    hide RememberClosed, Leaves, WriteCharge;
    var gone := Release(s, WriteCharge(s.streams[id])).(streams := s.streams - {id});
    ReleaseShape(s, WriteCharge(s.streams[id]));
    SameLeaves(cfg, k, s, gone);
    RememberLeaves(cfg, k, gone, id);
    LeavesTrans(cfg, k, s, gone, CloseStream(cfg, s, id), 0, 1);
  }

  lemma QueueLeaves(cfg: Config, k: nat, s: State, f: Frame)
    requires GoodConfig(cfg) && cfg.UsesLanes() && f.id != k
    ensures QueueFrame(cfg, s, f).Some? ==> Leaves(cfg, k, s, QueueFrame(cfg, s, f).value, 0)
  {
    hide Leaves, Push, Place, PushCharge, SessionAdmits, PoolAdmits;
    if QueueFrame(cfg, s, f).Some? {
      SameLeaves(cfg, k, s, QueueFrame(cfg, s, f).value);
    }
  }

  lemma OpenLeaves(cfg: Config, k: nat, a: Acc, f: Frame, admit: bool)
    requires GoodConfig(cfg) && cfg.UsesLanes() && f.id != k
    ensures match OpenFrame(cfg, a, f, admit)
      case Going(b) => Leaves(cfg, k, a.s, b.s, 1)
      case Aborted(b) => Leaves(cfg, k, a.s, b.s, 1)
      case NilStream => true
  {
    hide Leaves, RememberClosed, QueueFrame;
    var r, close := RememberClosed(cfg, a.s, f.id), Frame(CLOSE, f.id, []);
    RememberLeaves(cfg, k, a.s, f.id);
    QueueLeaves(cfg, k, r, close);
    if QueueFrame(cfg, r, close).Some? {
      LeavesTrans(cfg, k, a.s, r, QueueFrame(cfg, r, close).value, 1, 0);
    }
    SameLeaves(cfg, k, a.s, a.s.(streams := a.s.streams[f.id := NewStream(a.s.nextBackend)],
                                 nextBackend := a.s.nextBackend + 1));
  }

  function ClosingOf(f: Frame): nat {
    if f.kind == OPEN || f.kind == CLOSE then 1 else 0
  }

  lemma FrameLeaves(cfg: Config, k: nat, a: Acc, f: Frame, admit: bool)
    requires GoodConfig(cfg) && cfg.UsesLanes() && f.id != k
    ensures match ApplyFrame(cfg, a, f, admit)
      case Going(b) => Leaves(cfg, k, a.s, b.s, ClosingOf(f))
      case Aborted(b) => Leaves(cfg, k, a.s, b.s, ClosingOf(f))
      case NilStream => true
  {
    hide Leaves, OpenFrame, CloseStream, AcceptData, AddCredit, Amount;
    OpenLeaves(cfg, k, a, f, admit);
    SameLeaves(cfg, k, a.s, a.s);
    if f.id in a.s.streams {
      var st := a.s.streams[f.id];
      SameLeaves(cfg, k, a.s, SetStream(a, f.id, AcceptData(st, f.payload)).s);
      SameLeaves(cfg, k, a.s, SetStream(a, f.id, AddCredit(st, Amount(f.payload))).s);
      CloseLeaves(cfg, k, a.s, f.id);
    }
  }

  lemma {:induction false} ApplyLeaves(cfg: Config, k: nat, a: Acc, frames: seq<Frame>, admits: seq<bool>)
    requires GoodConfig(cfg) && cfg.UsesLanes() && |admits| == |frames|
    requires forall i | 0 <= i < |frames| :: frames[i].id != k
    ensures match Apply(cfg, a, frames, admits)
      case Going(b) => Leaves(cfg, k, a.s, b.s, Closings(frames))
      case Aborted(b) => Leaves(cfg, k, a.s, b.s, Closings(frames))
      case NilStream => true
    decreases |frames|
  {
    hide Leaves, ApplyFrame;
    if |frames| == 0 {
      SameLeaves(cfg, k, a.s, a.s);
    } else {
      FrameLeaves(cfg, k, a, frames[0], admits[0]);
      match ApplyFrame(cfg, a, frames[0], admits[0])
      case Going(b) =>
        ApplyLeaves(cfg, k, b, frames[1..], admits[1..]);
        match Apply(cfg, b, frames[1..], admits[1..]) {
          case Going(c) => LeavesTrans(cfg, k, a.s, b.s, c.s, ClosingOf(frames[0]), Closings(frames[1..]));
          case Aborted(c) => LeavesTrans(cfg, k, a.s, b.s, c.s, ClosingOf(frames[0]), Closings(frames[1..]));
          case NilStream =>
        }
      case Aborted(b) => MoreLeaves(cfg, k, a.s, b.s, ClosingOf(frames[0]), Closings(frames));
      case NilStream =>
    }
  }

  lemma MoreLeaves(cfg: Config, k: nat, s: State, t: State, m: nat, n: nat)
    requires Leaves(cfg, k, s, t, m) && m <= n
    ensures Leaves(cfg, k, s, t, n)
  {
    hide RingInOrder;
  }

  lemma ReceiveLeaves(cfg: Config, k: nat, s: State, j: nat, sequence: nat, body: Bytes, frames: seq<Frame>,
                      admits: seq<bool>)
    requires GoodConfig(cfg) && cfg.UsesLanes() && |admits| == |frames| && j != k && AllOn(frames, j)
    ensures Leaves(cfg, k, s, Receive(cfg, s, j, sequence, body, frames, admits).0, Closings(frames))
  {
    hide Leaves, Closings, Apply, Validate, Reservation, Release, SessionAdmits, PoolAdmits;
    SameLeaves(cfg, k, s, s);
    SameLeaves(cfg, k, s, s.(panicked := true));
    if Validate(TrialOf(s), frames).Some? && Reserved(cfg, s, frames).Some? {
      var a := Reserved(cfg, s, frames).value;
      SameLeaves(cfg, k, s, a.s);
      ApplyLeaves(cfg, k, a, frames, admits);
      match Apply(cfg, a, frames, admits)
      case NilStream =>
      case Aborted(b) => SettledLeaves(cfg, k, s, a.s, b, Release(b.s, b.left), Closings(frames));
      case Going(b) =>
        var settled := Release(b.s, b.left);
        ReleaseShape(b.s, b.left);
        var up := if j in settled.lanes then Commit(settled.lanes[j].up, sequence, body, true) else NEW_UP;
        SettledLeaves(cfg, k, s, a.s, b, SetUp(settled, j, up), Closings(frames));
    }
  }

  lemma SettledLeaves(cfg: Config, k: nat, s: State, s1: State, b: Acc, t: State, n: nat)
    requires Leaves(cfg, k, s, s1, 0) && Leaves(cfg, k, s1, b.s, n)
    requires var r := Release(b.s, b.left);
      && t.tombs == r.tombs && t.closed == r.closed && t.streams == r.streams
      && (k in t.lanes <==> k in r.lanes) && (k in r.lanes ==> t.lanes[k] == r.lanes[k])
    ensures Leaves(cfg, k, s, t, n)
  {
    hide Leaves, Release;
    ReleaseShape(b.s, b.left);
    SameLeaves(cfg, k, b.s, t);
    LeavesTrans(cfg, k, s, s1, b.s, 0, n);
    LeavesTrans(cfg, k, s, b.s, t, n, 0);
  }

  function ClosingsIn(cfg: Config, body: Bytes): nat {
    if Readable(cfg, body).Some? then Closings(Readable(cfg, body).value) else 0
  }

  lemma LaneUplinkLeaves(cfg: Config, k: nat, s: State, j: nat, sequence: nat, body: Bytes, admits: seq<bool>)
    requires GoodConfig(cfg) && cfg.UsesLanes() && j != k
    ensures Leaves(cfg, k, s, UpOnLane(cfg, s, j, sequence, body, admits).0, ClosingsIn(cfg, body))
  {
    hide Leaves, Closings, Readable, Receive, OnlyLate, AllOn;
    SameLeaves(cfg, k, s, s);
    if Readable(cfg, body).Some? {
      var frames := Readable(cfg, body).value;
      if AllOn(frames, j) && |admits| == |frames| && !s.closed {
        var s1 := if j in s.lanes then s else AddLane(s, j);
        SameLeaves(cfg, k, s, s1);
        ReceiveLeaves(cfg, k, s1, j, sequence, body, frames, admits);
        LeavesTrans(cfg, k, s, s1, Receive(cfg, s1, j, sequence, body, frames, admits).0, 0, Closings(frames));
      }
    }
  }

  /** Events of other lanes and streams. In this mode a failing lane closes the session, which is Closes here. */
  predicate Beside(k: nat, e: SessionSteps.Event) {
    match e
    case UpLane(j, _, _, _) => j != k
    case Arrive(j, _) => j != k
    case Wake(j, _, _, _) => j != k
    case TakeWrite(id) => id != k
    case Drained(id, _) => id != k
    case WriteFinished(id) => id != k
    case ReadData(id, _) => id != k
    case BackendGone(id, _) => id != k
    case FailLane(_) => false
    case CloseAll => false
    case _ => true
  }

  lemma StreamStepLeaves(cfg: Config, k: nat, s: State, e: SessionSteps.Event)
    requires GoodConfig(cfg) && cfg.UsesLanes() && Beside(k, e)
    requires e.TakeWrite? || e.Drained? || e.WriteFinished? || e.ReadData?
    ensures Leaves(cfg, k, s, SessionSteps.Step(cfg, s, e), 0)
  {
    hide Leaves, Drain, FinishWrite, QueueFrame, Release, PutUint32, SpendCredit;
    SameLeaves(cfg, k, s, s);
    match e
    case TakeWrite(id) => SameLeaves(cfg, k, s, WriteTaken(s, id));
    case Drained(id, amount) =>
      if !s.closed && id in s.streams && Drain(s.streams[id], amount).Some? {
        var drained := Release(s, Charge(amount, 0)).(streams := s.streams[id := Drain(s.streams[id], amount).value]);
        ReleaseShape(s, Charge(amount, 0));
        SameLeaves(cfg, k, s, drained);
        ThenQueueLeaves(cfg, k, s, drained, Frame(WINDOW, id, WindowPayload(amount % TWO_32)), 0);
      }
    case WriteFinished(id) =>
      ReleaseShape(s, Charge(QUEUE_ITEM_COST, 1));
      SameLeaves(cfg, k, s, BackendWriteFinished(s, id).0);
    case ReadData(id, data) =>
      if !s.closed && id in s.streams {
        var spent := s.(streams := s.streams[id := SpendCredit(s.streams[id], |data|)]);
        SameLeaves(cfg, k, s, spent);
        ThenQueueLeaves(cfg, k, s, spent, Frame(DATA, id, data), 0);
      }
  }

  lemma ThenQueueLeaves(cfg: Config, k: nat, s: State, t: State, f: Frame, n: nat)
    requires GoodConfig(cfg) && cfg.UsesLanes() && f.id != k && Leaves(cfg, k, s, t, n)
    ensures QueueFrame(cfg, t, f).Some? ==> Leaves(cfg, k, s, QueueFrame(cfg, t, f).value, n)
  {
    hide Leaves, QueueFrame;
    QueueLeaves(cfg, k, t, f);
    if QueueFrame(cfg, t, f).Some? {
      LeavesTrans(cfg, k, s, t, QueueFrame(cfg, t, f).value, n, 0);
    }
  }

  /** Another backend's end leaves this lane, or closes the session. */
  lemma GoneLeaves(cfg: Config, k: nat, s: State, id: nat, backend: int)
    requires GoodConfig(cfg) && cfg.UsesLanes() && id != k
    ensures var t := BackendClosed(cfg, s, id, backend);
      Leaves(cfg, k, s, t, 1) || exists u :: Leaves(cfg, k, s, u, 1) && t == CloseSession(u)
  {
    hide Leaves, QueueFrame, CloseStream, CloseSession;
    SameLeaves(cfg, k, s, s);
    if !s.closed && id in s.streams && s.streams[id].backend == backend {
      var gone := CloseStream(cfg, s, id);
      CloseLeaves(cfg, k, s, id);
      ThenQueueLeaves(cfg, k, s, gone, Frame(CLOSE, id, []), 1);
    }
  }

  lemma PollLeaves(cfg: Config, k: nat, s: State, e: SessionSteps.Event)
    requires GoodConfig(cfg) && Beside(k, e) && (e.Arrive? || e.Wake?)
    ensures Leaves(cfg, k, s, SessionSteps.Step(cfg, s, e), 0)
  {
    hide Leaves, Enter, Resume, Acknowledged, LaneOver, ChargeOf, Release;
    SameLeaves(cfg, k, s, s);
    if e.Arrive? && e.lane in s.lanes {
      ReleaseShape(s, ChargeOf(Acknowledged(s.lanes[e.lane].down, e.poll.cursor)));
    }
    SameLeaves(cfg, k, s, SessionSteps.Step(cfg, s, e));
  }

  /** How many ids an event can make the ring remember. */
  function MayClose(cfg: Config, e: SessionSteps.Event): nat {
    match e
    case UpLane(_, _, body, _) => ClosingsIn(cfg, body)
    case BackendGone(_, _) => 1
    case _ => 0
  }

  lemma BesideLeaves(cfg: Config, k: nat, s: State, e: SessionSteps.Event)
    requires GoodConfig(cfg) && cfg.carrier.HttpsLanes? && Beside(k, e)
    ensures var t, n := SessionSteps.Step(cfg, s, e), MayClose(cfg, e);
      Leaves(cfg, k, s, t, n) || exists u :: Leaves(cfg, k, s, u, n) && t == CloseSession(u)
  {
    hide Leaves, ClosingsIn, UpOnLane, BackendClosed, CloseSession, SessionSteps.PollArrives, SessionSteps.PollWakes;
    hide WriteTaken, BackendDrained, BackendWriteFinished, BackendData;
    SameLeaves(cfg, k, s, s);
    match e
    case UpLane(j, sequence, body, admits) => LaneUplinkLeaves(cfg, k, s, j, sequence, body, admits);
    case BackendGone(id, backend) => GoneLeaves(cfg, k, s, id, backend);
    case Arrive(_, _) => PollLeaves(cfg, k, s, e);
    case Wake(_, _, _, _) => PollLeaves(cfg, k, s, e);
    case TakeWrite(_) => StreamStepLeaves(cfg, k, s, e);
    case Drained(_, _) => StreamStepLeaves(cfg, k, s, e);
    case WriteFinished(_) => StreamStepLeaves(cfg, k, s, e);
    case ReadData(_, _) => StreamStepLeaves(cfg, k, s, e);
    case OthersMovePool(pool) => SameLeaves(cfg, k, s, SessionSteps.Step(cfg, s, e));
    case _ =>
  }

  // A batch on this lane.

  lemma OwnFrameTold(cfg: Config, k: nat, a: Acc, h: map<nat, Tale>, fs: seq<Frame>, f: Frame, admit: bool)
    requires GoodConfig(cfg) && k != 0 && f.id == k && Told(a.s, h, fs, k) && Applicable(cfg, a.s, f)
    requires f.kind == OPEN ==> !OpenedIn(fs, k)
    ensures SameQueued(h, LogFrame(cfg, a, h, f, admit))
    ensures match ApplyFrame(cfg, a, f, admit)
      case Going(b) => Told(b.s, LogFrame(cfg, a, h, f, admit), fs + [f], k)
      case Aborted(b) => Told(b.s, LogFrame(cfg, a, h, f, admit), fs + [f], k) && k in b.s.tombs
      case NilStream => true
  {
    hide Told, OnlyAt, CloseStream, AcceptData, AddCredit, OpenedIn, Amount, SameQueued, RememberClosed, QueueFrame;
    LogFrameQueues(cfg, a, h, fs, f, admit);
    if f.kind == OPEN {
      OpenTold(cfg, a, h, fs, f, admit);
      RememberClosedShape(cfg, a.s, k);
    } else if k in a.s.tombs {
      IgnoredTold(a.s, h, fs, f);
    } else if k in a.s.streams && f.kind == DATA {
      DataTold(cfg, a, h, fs, f, admit);
    } else if k in a.s.streams && f.kind == WINDOW {
      WindowTold(cfg, a, h, fs, f);
    } else if k in a.s.streams && f.kind == CLOSE {
      CloseTold(cfg, a, h, fs, f);
    }
  }

  /** What a batch leaves: its stream's history up to the frames reached, and a CLOSE queued if it was refused. */
  ghost predicate BatchDone(cfg: Config, k: nat, a: Acc, h: map<nat, Tale>, fs: seq<Frame>, frames: seq<Frame>,
                            admits: seq<bool>)
    requires GoodConfig(cfg) && |admits| == |frames|
  {
    var n := Reached(cfg, a, frames, admits);
    && SameQueued(h, Log(cfg, a, h, frames, admits))
    && match Apply(cfg, a, frames, admits)
       case Going(b) =>
         && n == |frames| && Told(b.s, Log(cfg, a, h, frames, admits), fs + frames, k)
         && Queued(cfg, k, a.s, b.s, Refusals(cfg, a, frames, admits))
       case Aborted(b) =>
         && Told(b.s, Log(cfg, a, h, frames, admits), fs + frames[..n], k) && k in b.s.tombs
         && Queued(cfg, k, a.s, b.s, Refusals(cfg, a, frames, admits))
       case NilStream => true
  }

  lemma BatchDoneEnd(cfg: Config, k: nat, a: Acc, h: map<nat, Tale>, fs: seq<Frame>, frames: seq<Frame>,
                     admits: seq<bool>)
    requires GoodConfig(cfg) && |admits| == |frames| == 0 && Told(a.s, h, fs, k)
    ensures BatchDone(cfg, k, a, h, fs, frames, admits)
  {
    hide Told, Queued;
    assert fs + frames == fs;
    NoneQueued(cfg, k, a.s, a.s, Refusals(cfg, a, frames, admits));
  }

  lemma BatchDoneNext(cfg: Config, k: nat, a: Acc, h: map<nat, Tale>, fs: seq<Frame>, frames: seq<Frame>,
                      admits: seq<bool>)
    requires GoodConfig(cfg) && |admits| == |frames| && frames != []
    requires var f, h' := frames[0], LogFrame(cfg, a, h, frames[0], admits[0]);
      && SameQueued(h, h')
      && AppliedQueued(cfg, k, a.s, ApplyFrame(cfg, a, f, admits[0]), RefusalOf(cfg, a, f, admits[0]))
      && match ApplyFrame(cfg, a, f, admits[0])
         case Going(b) => BatchDone(cfg, k, b, h', fs + [f], frames[1..], admits[1..])
         case Aborted(b) => Told(b.s, h', fs + [f], k) && k in b.s.tombs
         case NilStream => true
    ensures BatchDone(cfg, k, a, h, fs, frames, admits)
  {
    hide Told, ApplyFrame, LogFrame, Queued, RefusalOf;
    var rs := RefusalOf(cfg, a, frames[0], admits[0]);
    match ApplyFrame(cfg, a, frames[0], admits[0])
    case Going(b) =>
      var n := Reached(cfg, b, frames[1..], admits[1..]);
      assert (fs + [frames[0]]) + frames[1..][..n] == fs + frames[..n + 1];
      assert (fs + [frames[0]]) + frames[1..] == fs + frames;
      match Apply(cfg, b, frames[1..], admits[1..]) {
        case Going(c) => QueuedTrans(cfg, k, a.s, b.s, c.s, rs, Refusals(cfg, b, frames[1..], admits[1..]));
        case Aborted(c) => QueuedTrans(cfg, k, a.s, b.s, c.s, rs, Refusals(cfg, b, frames[1..], admits[1..]));
        case NilStream =>
      }
    case Aborted(_) =>
      assert fs + [frames[0]] == fs + frames[..1];
      assert rs + [] == rs;
    case NilStream =>
  }

  lemma OwnFrameCarried(cfg: Config, k: nat, s: State, f: Frame)
    requires Applicable(cfg, s, f) && cfg.UsesLanes() && f.id == k
    ensures Carries(cfg, k, s, f)
  {
  }

  lemma AllOnRest(frames: seq<Frame>, k: nat)
    requires AllOn(frames, k) && frames != []
    ensures frames[0].id == k && AllOn(frames[1..], k)
  {
  }

  lemma {:induction false} OwnBatchDone(cfg: Config, k: nat, t: Trial, a: Acc, h: map<nat, Tale>, fs: seq<Frame>,
                                        frames: seq<Frame>, admits: seq<bool>, history: seq<nat>, live: set<nat>)
    requires Underway(cfg, t, a, frames, history, live) && |admits| == |frames| && cfg.UsesLanes() && k != 0
    requires AllClientShaped(frames) && AllOn(frames, k) && Told(a.s, h, fs, k) && OpensOnce(fs + frames)
    ensures GoodConfig(cfg) && BatchDone(cfg, k, a, h, fs, frames, admits)
    decreases |frames|
  {
    hide *;
    UnderwayGood(cfg, t, a, frames, history, live);
    if |frames| == 0 {
      BatchDoneEnd(cfg, k, a, h, fs, frames, admits);
    } else {
      var f := frames[0];
      AllOnRest(frames, k);
      RestClientShaped(frames);
      OpensOnceNext(fs, frames);
      ValidatedIsApplicable(cfg, t, a.s, f, history);
      OwnFrameTold(cfg, k, a, h, fs, f, admits[0]);
      OwnFrameCarried(cfg, k, a.s, f);
      ApplyFrameQueued(cfg, k, a, f, admits[0]);
      UnderwayStep(cfg, t, a, frames, admits[0], history, live);
      if ApplyFrame(cfg, a, f, admits[0]).Going? {
        OwnBatchDone(cfg, k, ValidateFrame(t, f).value, ApplyFrame(cfg, a, f, admits[0]).acc,
                     LogFrame(cfg, a, h, f, admits[0]), fs + [f], frames[1..], admits[1..],
                     IdsAfter(cfg, Ids(a.s.streams.Keys, history), f, admits[0]).history, LiveAfter(live, f));
      }
      BatchDoneNext(cfg, k, a, h, fs, frames, admits);
    }
  }

  // The lane and all that goes on beside it.

  datatype Event =
    | AppSends(data: Bytes)
    | BridgeUp(upEvent: UplinkRun.Event)
    | UpArrives(request: UplinkRun.Request, admits: seq<bool>)
    | BridgeDown(downEvent: DownlinkRun.Event)
    | PollArrives(cursor: nat)
    | PollWakes(poll: PollId, why: Wake)
    | TakeWrite
    | SocketWrites(count: nat)
    | WriteFinishes
    | SocketFails
    | ReadData(data: Bytes)
    | BackendGone(backend: int)
    | Elsewhere(e: SessionSteps.Event)
    | Closes

  function DownStep(cfg: Config, n: DownlinkRun.Net, e: DownlinkRun.Event): DownlinkRun.Net
    requires GoodConfig(cfg)
  {
    DownlinkRun.Step(n, e, cfg.limits.carrierBatchBytes, cfg.limits.maxFramePayload)
  }

  function SessionOver(cfg: Config, w: World, s': State): World
    requires GoodConfig(cfg)
  {
    w.(s := s', up := UplinkRun.Step(w.up, UplinkRun.SessionCloses),
       down := DownStep(cfg, w.down, DownlinkRun.SessionCloses))
  }

  function History(k: nat, w: World): map<nat, Tale> {
    map[k := w.tale]
  }

  function LaneUp(s: State, k: nat): Up {
    if k in s.lanes then s.lanes[k].up else NEW_UP
  }

  function LaneDown(s: State, k: nat): Down {
    if k in s.lanes then s.lanes[k].down else NEW_DOWN
  }

  /** ProcessUpLane is one critical section: a request arrives and is settled at once. */
  function Uplinks(cfg: Config, k: nat, w: World, r: UplinkRun.Request, admits: seq<bool>): World
    requires GoodConfig(cfg)
  {
    var (s', answer) := UpOnLane(cfg, w.s, k, r.sequence, r.body, admits);
    if !(answer.Acked? || answer.Aborted? || answer.Backpressure?) then w.(s := s')
    else if !Admit(w.up.up, r.sequence, r.body).Begin? then w.(s := s', up := UplinkRun.Arrive(w.up, r))
    else
      var up := UplinkRun.Finish(UplinkRun.Arrive(w.up, r), w.up.nextWorker, RelayWorld.VerdictOf(answer));
      var w1, frames := w.(s := s', up := up), Readable(cfg, r.body);
      if answer.Backpressure? || frames.None? || |admits| != |frames.value|
         || Reserved(cfg, Entered(w.s, k), frames.value).None? then w1
      else
        var a := Reserved(cfg, Entered(w.s, k), frames.value).value;
        w1.(down := RelayWorld.Hear(cfg, w.down, Refusals(cfg, a, frames.value, admits)),
            tale := Of(Log(cfg, a, History(k, w), frames.value, admits), k),
            frames := w.frames + frames.value[..Reached(cfg, a, frames.value, admits)],
            aborted := w.aborted || answer.Aborted?)
  }

  /** A step of this stream's session state that queues at most `f`. */
  function Moves(cfg: Config, w: World, s': State, tale: Tale, queued: bool, f: Frame): World
    requires GoodConfig(cfg)
  {
    w.(s := s', tale := tale, down := RelayWorld.Hear(cfg, w.down, QueuedIf(queued, f)))
  }

  function OwnCell(k: nat, w: World): Cell {
    CellOf(w.s, History(k, w), k)
  }

  function NoFrame(k: nat): Frame {
    Frame(CLOSE, k, [])
  }

  function Takes(cfg: Config, k: nat, w: World): World
    requires GoodConfig(cfg)
  {
    if !w.tale.phase.Idle? then w
    else
      var cell := Take(OwnCell(k, w), NextWrite);
      Moves(cfg, w, WriteTaken(w.s, k), w.tale.(phase := cell.phase), false, NoFrame(k))
  }

  function Writes(cfg: Config, k: nat, w: World, count: nat): World
    requires GoodConfig(cfg)
  {
    if !w.tale.phase.Writing? || !(0 < count <= |w.tale.phase.left|) then w
    else
      var (s', ok) := BackendDrained(cfg, w.s, k, count);
      var cell := Take(OwnCell(k, w), Streams.SocketWrites(count, ok));
      Moves(cfg, w, s', w.tale.(phase := cell.phase, written := cell.written), ok,
            Frame(WINDOW, k, WindowPayload(count % TWO_32)))
  }

  function Finishes(cfg: Config, k: nat, w: World): World
    requires GoodConfig(cfg)
  {
    if w.tale.phase != Writing([]) then w
    else
      var cell := Take(OwnCell(k, w), Streams.WriteFinishes);
      Moves(cfg, w, BackendWriteFinished(w.s, k).0, w.tale.(phase := cell.phase), false, NoFrame(k))
  }

  function Fails(cfg: Config, k: nat, w: World): World
    requires GoodConfig(cfg)
  {
    Moves(cfg, w, w.s, w.tale.(phase := Streams.Stopped), false, NoFrame(k))
  }

  function Reads(cfg: Config, k: nat, w: World, data: Bytes): World
    requires GoodConfig(cfg)
  {
    if !w.tale.reading || data == [] || |data| > DATA_CHUNK then w
    else
      var (s', ok) := BackendData(cfg, w.s, k, data);
      Moves(cfg, w, s', AfterRead(w.tale, data, ok), ok, Frame(DATA, k, data))
  }

  function Goes(cfg: Config, k: nat, w: World, backend: int): World
    requires GoodConfig(cfg)
  {
    var s' := BackendClosed(cfg, w.s, k, backend);
    if s'.closed && !w.s.closed then SessionOver(cfg, w, s')
    else Moves(cfg, w, s', w.tale, k in w.s.streams && k !in s'.streams, NoFrame(k))
  }

  /** Something else happens to the session, which may close it. */
  function Passes(cfg: Config, w: World, s': State): World
    requires GoodConfig(cfg)
  {
    if s'.closed && !w.s.closed then SessionOver(cfg, w, s') else w.(s := s')
  }

  function Polls(cfg: Config, k: nat, w: World, cursor: nat): World
    requires GoodConfig(cfg)
  {
    if cursor !in w.down.requests || k !in w.s.lanes then w
    else
      w.(s := SessionSteps.PollArrives(cfg, w.s, k, PollId(w.down.nextToken, cursor)).0,
         down := DownStep(cfg, w.down, DownlinkRun.LaneRequestArrives(cursor, LaneOver(cfg, w.s, k))))
  }

  function WakesUp(cfg: Config, k: nat, w: World, poll: PollId, why: Wake): World
    requires GoodConfig(cfg)
  {
    if poll !in w.down.polls || (why.DisplacedByNewer? && w.down.relay.waiter == Some(poll)) || k !in w.s.lanes then w
    else
      w.(s := SessionSteps.PollWakes(cfg, w.s, k, w.s.lanes[k].birth, poll, why).0,
         down := DownStep(cfg, w.down, DownlinkRun.LanePollWakes(poll, why, LaneOver(cfg, w.s, k))))
  }

  function Step(cfg: Config, k: nat, app: seq<Frame>, w: World, e: Event): World
    requires GoodConfig(cfg) && AllFit(app, MAX_PAYLOAD)
  {
    match e
    case AppSends(data) =>
      if w.up.source + data <= EncodeAll(app) then w.(up := UplinkRun.Step(w.up, UplinkRun.AppQueues(data))) else w
    case BridgeUp(e) =>
      if e.BridgePacks? || e.BridgeSends? || e.BridgeReceives? then w.(up := UplinkRun.Step(w.up, e)) else w
    case UpArrives(r, admits) => if r in w.up.sent then Uplinks(cfg, k, w, r, admits) else w
    case BridgeDown(e) =>
      if e.BridgeSends? || e.BridgeReceives? then w.(down := DownStep(cfg, w.down, e)) else w
    case PollArrives(cursor) => Polls(cfg, k, w, cursor)
    case PollWakes(poll, why) => WakesUp(cfg, k, w, poll, why)
    case TakeWrite => Takes(cfg, k, w)
    case SocketWrites(count) => Writes(cfg, k, w, count)
    case WriteFinishes => Finishes(cfg, k, w)
    case SocketFails => Fails(cfg, k, w)
    case ReadData(data) => Reads(cfg, k, w, data)
    case BackendGone(backend) => Goes(cfg, k, w, backend)
    case Elsewhere(e) => if Beside(k, e) then Passes(cfg, w, SessionSteps.Step(cfg, w.s, e)) else w
    case Closes => SessionOver(cfg, w, CloseSession(w.s))
  }

  // The invariant.

  /** The protocols' relay halves are the session's lane, or what a new lane would be. */
  ghost predicate Coupled(cfg: Config, k: nat, w: World) {
    && cfg.carrier.HttpsLanes? && 0 < k <= MAX_STREAM_ID && Inv(cfg, w.s, NOTHING)
    && LaneUp(w.s, k) == w.up.up && LaneDown(w.s, k) == w.down.relay && !w.up.up.active
    && w.up.closed == w.s.closed == w.down.closed
    && (k !in w.s.lanes ==> k !in w.s.streams && k !in w.s.tombs && w.frames == [])
  }

  ghost predicate Upstream(app: seq<Frame>, k: nat, w: World) {
    && AllFit(app, MAX_PAYLOAD) && AllFit(w.frames, MAX_PAYLOAD)
    && Flatten(w.up.applied) <= EncodeAll(w.frames) <= w.up.source <= EncodeAll(app)
    && (!w.aborted ==> EncodeAll(w.frames) == Flatten(w.up.applied))
    && (w.aborted ==> Flatten(w.up.applied) == [] && (w.s.closed || k in w.s.tombs))
  }

  ghost predicate HaltsOnce(w: World) {
    && UplinkRun.HaltsLast(w.up.effects)
    && (!w.aborted ==> forall i | 0 <= i < |w.up.effects| :: w.up.effects[i].whole)
  }

  ghost predicate Downstream(k: nat, w: World) {
    RelayWorld.PayloadOf(Expand(w.down.pushed), k) == w.tale.queued
  }

  ghost predicate Sound(cfg: Config, k: nat, app: seq<Frame>, w: World) {
    && Coupled(cfg, k, w)
    && UplinkRun.Sound(w.up) && DownlinkRun.Sound(w.down)
    && Told(w.s, History(k, w), w.frames, k) && Upstream(app, k, w) && Downstream(k, w) && HaltsOnce(w)
  }

  /** The client's frames on one lane: of one stream, opened first and once. */
  ghost predicate Setting(cfg: Config, k: nat, app: seq<Frame>) {
    && GoodConfig(cfg) && cfg.carrier.HttpsLanes? && 0 < k <= MAX_STREAM_ID
    && AllFit(app, MAX_PAYLOAD) && AllOn(app, k) && OpensOnce(app) && (app != [] ==> app[0].kind == OPEN)
  }

  lemma RingIsInOrder(cfg: Config, s: State)
    requires Structured(cfg, s)
    ensures RingInOrder(cfg, s)
  {
    hide WellFormed;
  }

  /** What the steps below use of it. */
  lemma Facts(cfg: Config, k: nat, app: seq<Frame>, w: World)
    requires Sound(cfg, k, app, w)
    ensures GoodConfig(cfg) && cfg.carrier.HttpsLanes? && cfg.LaneOf(k) == k && Inv(cfg, w.s, NOTHING)
    ensures w.s.closed ==> w.s.streams == map[]
    ensures k in w.s.streams ==> k !in w.s.tombs && k in w.s.lanes
    ensures k !in w.s.lanes ==> k !in w.s.streams && k !in w.s.tombs
    ensures RingInOrder(cfg, w.s) && Told(w.s, History(k, w), w.frames, k) && Downstream(k, w)
  {
    PanicOff(cfg, w.s, NOTHING);
    LaneFacts(cfg, w.s, NOTHING);
    StreamFacts(cfg, w.s, NOTHING);
    RingIsInOrder(cfg, w.s);
    hide Inv, Told, Downstream;
  }

  // Steps of the stream's own loops.

  lemma MovesSound(cfg: Config, k: nat, app: seq<Frame>, w: World, s': State, tale: Tale, queued: bool, f: Frame)
    requires Sound(cfg, k, app, w) && GoodConfig(cfg) && Inv(cfg, s', NOTHING)
    requires Queued(cfg, k, w.s, s', QueuedIf(queued, f)) && (w.s.closed || k !in w.s.lanes ==> !queued)
    requires k in s'.streams ==> k in w.s.streams
    requires k in s'.tombs ==> k in w.s.tombs || k in w.s.streams
    requires k in w.s.tombs ==> k in s'.tombs
    requires Told(s', map[k := tale], w.frames, k)
    requires RelayWorld.PayloadOf(Expand(w.down.pushed + QueuedIf(queued, f)), k) == tale.queued
    ensures Sound(cfg, k, app, Moves(cfg, w, s', tale, queued, f))
  {
    hide Inv, Told, UplinkRun.Sound, DownlinkRun.Sound, Expand, RelayWorld.PayloadOf, PushAll, EncodeAll, Flatten;
    hide RelayWorld.Hear, DownlinkRun.Step;
    var fs, after := QueuedIf(queued, f), Moves(cfg, w, s', tale, queued, f);
    RelayWorld.HearSound(cfg, w.down, fs);
    if queued {
      RelayWorld.HearIs(cfg, w.down, fs);
    } else {
      RelayWorld.HearNone(cfg, w.down);
      RelayWorld.NothingPushed(LaneDown(w.s, k).queue, fs, cfg.limits.maxFramePayload);
      assert w.down.pushed + fs == w.down.pushed;
    }
    assert History(k, after) == map[k := tale];
  }

  /** A loop's step that queues no DATA. */
  lemma WriterSound(cfg: Config, k: nat, app: seq<Frame>, w: World, s': State, e: Streams.Step, tale: Tale,
                    queued: bool, f: Frame)
    requires Sound(cfg, k, app, w) && GoodConfig(cfg) && Inv(cfg, s', NOTHING)
    requires Queued(cfg, k, w.s, s', QueuedIf(queued, f)) && (w.s.closed || k !in w.s.lanes ==> !queued)
    requires s'.tombs == w.s.tombs && (k in s'.streams ==> k in w.s.streams) && f.kind != DATA
    requires tale == w.tale.(phase := tale.phase, written := tale.written)
    requires CellOf(s', map[k := tale], k) == Take(OwnCell(k, w), e)
    requires !e.CreditArrives? && !e.BytesSent? && !e.DataArrives?
    ensures Sound(cfg, k, app, Moves(cfg, w, s', tale, queued, f))
  {
    hide Inv, Told, UplinkRun.Sound, DownlinkRun.Sound, Expand, RelayWorld.PayloadOf, PushAll, EncodeAll, Flatten;
    hide Take, Queued, CellOf;
    assert History(k, w)[k := tale] == map[k := tale];
    CellStepTold(w.s, s', History(k, w), w.frames, k, e, tale);
    RelayWorld.PushedQuietly(w.down.pushed, QueuedIf(queued, f), k);
    MovesSound(cfg, k, app, w, s', tale, queued, f);
  }

  lemma TakeWriteSound(cfg: Config, k: nat, app: seq<Frame>, w: World)
    requires Sound(cfg, k, app, w) && GoodConfig(cfg)
    ensures Sound(cfg, k, app, Takes(cfg, k, w))
  {
    hide Inv, Sound, Queued, EncodeAll;
    Facts(cfg, k, app, w);
    if w.tale.phase.Idle? {
      var tale := w.tale.(phase := Take(OwnCell(k, w), NextWrite).phase);
      TakeWriteInv(cfg, w.s, k);
      NoneQueued(cfg, k, w.s, WriteTaken(w.s, k), []);
      WriterSound(cfg, k, app, w, WriteTaken(w.s, k), NextWrite, tale, false, NoFrame(k));
    }
  }

  lemma DrainedShape(cfg: Config, s: State, id: nat, count: nat)
    requires GoodConfig(cfg) && (s.closed ==> s.streams == map[])
    ensures var (t, ok) := BackendDrained(cfg, s, id, count);
      && t.tombs == s.tombs && (id !in s.streams ==> !ok && t == s)
      && (id in t.streams <==> id in s.streams)
      && (id in s.streams ==>
            var drained := Drain(s.streams[id], count);
            t.streams[id] == if drained.None? then s.streams[id] else drained.value)
      && (id in s.streams && Drain(s.streams[id], count).None? ==> !ok)
  {
    hide QueueFrame, Release, Drain, PutUint32;
    ReleaseShape(s, Charge(count, 0));
    if id in s.streams && Drain(s.streams[id], count).Some? {
      QueueFrameShape(cfg, Release(s, Charge(count, 0)).(streams := s.streams[id := Drain(s.streams[id], count).value]),
                      Frame(WINDOW, id, WindowPayload(count % TWO_32)));
    }
  }

  lemma SocketWritesSound(cfg: Config, k: nat, app: seq<Frame>, w: World, count: nat)
    requires Sound(cfg, k, app, w) && GoodConfig(cfg)
    ensures Sound(cfg, k, app, Writes(cfg, k, w, count))
  {
    hide Inv, Sound, Queued, EncodeAll, BackendDrained, Drain, PutUint32;
    Facts(cfg, k, app, w);
    if w.tale.phase.Writing? && 0 < count <= |w.tale.phase.left| {
      var (s', ok) := BackendDrained(cfg, w.s, k, count);
      var cell := Take(OwnCell(k, w), Streams.SocketWrites(count, ok));
      DrainedInv(cfg, w.s, k, count);
      DrainedShape(cfg, w.s, k, count);
      DrainedQueued(cfg, k, w.s, k, count);
      WriterSound(cfg, k, app, w, s', Streams.SocketWrites(count, ok),
                  w.tale.(phase := cell.phase, written := cell.written), ok,
                  Frame(WINDOW, k, WindowPayload(count % TWO_32)));
    }
  }

  lemma WriteFinishesSound(cfg: Config, k: nat, app: seq<Frame>, w: World)
    requires Sound(cfg, k, app, w) && GoodConfig(cfg)
    ensures Sound(cfg, k, app, Finishes(cfg, k, w))
  {
    hide Inv, Sound, Queued, EncodeAll, Release, FinishWrite;
    Facts(cfg, k, app, w);
    if w.tale.phase == Writing([]) {
      var tale := w.tale.(phase := Take(OwnCell(k, w), Streams.WriteFinishes).phase);
      var s' := BackendWriteFinished(w.s, k).0;
      WriteFinishedInv(cfg, w.s, k);
      ReleaseShape(w.s, Charge(QUEUE_ITEM_COST, 1));
      NoneQueued(cfg, k, w.s, s', []);
      WriterSound(cfg, k, app, w, s', Streams.WriteFinishes, tale, false, NoFrame(k));
    }
  }

  lemma SocketFailsSound(cfg: Config, k: nat, app: seq<Frame>, w: World)
    requires Sound(cfg, k, app, w) && GoodConfig(cfg)
    ensures Sound(cfg, k, app, Fails(cfg, k, w))
  {
    hide Inv, Sound, Queued, EncodeAll;
    Facts(cfg, k, app, w);
    NoneQueued(cfg, k, w.s, w.s, []);
    WriterSound(cfg, k, app, w, w.s, Streams.SocketFails, w.tale.(phase := Streams.Stopped), false,
                NoFrame(k));
  }

  lemma ReadShape(cfg: Config, s: State, id: nat, data: Bytes)
    requires GoodConfig(cfg)
    ensures var (t, ok) := BackendData(cfg, s, id, data);
      && t.tombs == s.tombs && (id !in s.streams ==> !ok && t == s) && (id in t.streams <==> id in s.streams)
  {
    hide QueueFrame;
    if id in s.streams {
      QueueFrameShape(cfg, s.(streams := s.streams[id := SpendCredit(s.streams[id], |data|)]), Frame(DATA, id, data));
    }
  }

  /** The one history, after a read: as ReadDataTold has it for a session of one stream's history. */
  lemma OwnReadTold(cfg: Config, k: nat, s: State, h: map<nat, Tale>, fs: seq<Frame>, data: Bytes)
    requires GoodConfig(cfg) && Told(s, h, fs, k) && Of(h, k).reading
    ensures var (t, ok) := BackendData(cfg, s, k, data);
      Told(t, h[k := AfterRead(Of(h, k), data, ok)], fs, k)
  {
    hide QueueFrame, DataOf, OpenedIn, Accounted;
    var (t, ok) := BackendData(cfg, s, k, data);
    var h' := h[k := AfterRead(Of(h, k), data, ok)];
    if k in s.streams {
      QueueFrameShape(cfg, s.(streams := s.streams[k := SpendCredit(s.streams[k], |data|)]), Frame(DATA, k, data));
    }
    TakeAccounted(CellOf(s, h, k), BytesSent(|data|));
    assert CellOf(t, h', k) == CellOf(s, h, k) || CellOf(t, h', k) == Take(CellOf(s, h, k), BytesSent(|data|));
  }

  lemma ReadDataSound(cfg: Config, k: nat, app: seq<Frame>, w: World, data: Bytes)
    requires Sound(cfg, k, app, w) && GoodConfig(cfg)
    ensures Sound(cfg, k, app, Reads(cfg, k, w, data))
  {
    hide Inv, Sound, Queued, EncodeAll, BackendData, Told, Expand, RelayWorld.PayloadOf;
    Facts(cfg, k, app, w);
    if w.tale.reading && data != [] && |data| <= DATA_CHUNK {
      var (s', ok) := BackendData(cfg, w.s, k, data);
      var f, tale := Frame(DATA, k, data), AfterRead(w.tale, data, ok);
      ReadDataInv(cfg, w.s, k, data);
      OwnReadTold(cfg, k, w.s, History(k, w), w.frames, data);
      assert History(k, w)[k := tale] == map[k := tale];
      ReadQueued(cfg, k, w.s, k, data);
      ReadShape(cfg, w.s, k, data);
      RelayWorld.PushedPayload(w.down.pushed, f, k);
      assert w.down.pushed + [] == w.down.pushed;
      MovesSound(cfg, k, app, w, s', tale, ok, f);
    }
  }

  // The session closes, and other things happen to it.

  lemma OverSound(cfg: Config, k: nat, app: seq<Frame>, w: World, s': State)
    requires Sound(cfg, k, app, w) && GoodConfig(cfg) && Inv(cfg, s', NOTHING) && s'.closed
    requires (k in s'.lanes <==> k in w.s.lanes) && k !in s'.streams
    requires k in w.s.lanes ==> s'.lanes[k] == Emptied(w.s.lanes[k]) || (w.s.closed && s'.lanes[k] == w.s.lanes[k])
    requires k !in w.s.lanes ==> k !in s'.tombs
    requires Told(s', History(k, w), w.frames, k)
    ensures Sound(cfg, k, app, SessionOver(cfg, w, s'))
  {
    hide Inv, Told, UplinkRun.Sound, DownlinkRun.Sound, EncodeAll, Flatten, Downstream;
    UplinkRun.StepSound(w.up, UplinkRun.SessionCloses);
    DownlinkRun.StepSound(w.down, DownlinkRun.SessionCloses, cfg.limits.carrierBatchBytes, cfg.limits.maxFramePayload);
    if w.s.closed {
      ClosedDown(cfg, k, app, w);
    }
    assert Downstream(k, SessionOver(cfg, w, s')) <==> Downstream(k, w) by {
      SameDownstream(k, w, SessionOver(cfg, w, s'));
    }
  }

  lemma SameDownstream(k: nat, w: World, w': World)
    requires w'.down.pushed == w.down.pushed && w'.tale == w.tale
    ensures Downstream(k, w') <==> Downstream(k, w)
  {
  }

  /** A closed session's lane holds nothing. */
  lemma ClosedDown(cfg: Config, k: nat, app: seq<Frame>, w: World)
    requires Sound(cfg, k, app, w) && w.s.closed
    ensures LaneDown(w.s, k).queue == [] == LaneDown(w.s, k).unacked
  {
    LaneFacts(cfg, w.s, NOTHING);
    hide Inv;
  }

  lemma ClosesSound(cfg: Config, k: nat, app: seq<Frame>, w: World)
    requires Sound(cfg, k, app, w) && GoodConfig(cfg)
    ensures Sound(cfg, k, app, SessionOver(cfg, w, CloseSession(w.s)))
  {
    hide Inv, Sound, EncodeAll, Told, SessionOver, Emptied;
    Facts(cfg, k, app, w);
    CloseSessionInv(cfg, w.s);
    OwnClosingTold(k, w.s, History(k, w), w.frames);
    OverSound(cfg, k, app, w, CloseSession(w.s));
  }

  lemma OwnClosingTold(k: nat, s: State, h: map<nat, Tale>, fs: seq<Frame>)
    requires Told(s, h, fs, k)
    ensures Told(CloseSession(s), h, fs, k)
  {
    hide Told;
    var t := CloseSession(s);
    if k in s.streams && !s.closed {
      GoneTold(s, t, h, fs, k);
    } else {
      StillTold(s, t, h, fs, k);
    }
  }

  lemma BackendGoneSound(cfg: Config, k: nat, app: seq<Frame>, w: World, backend: int)
    requires Sound(cfg, k, app, w) && GoodConfig(cfg)
    ensures Sound(cfg, k, app, Goes(cfg, k, w, backend))
  {
    hide Inv, Sound, Queued, EncodeAll, Told, Expand, RelayWorld.PayloadOf, SessionOver, Emptied, BackendClosed;
    Facts(cfg, k, app, w);
    var s', f := BackendClosed(cfg, w.s, k, backend), NoFrame(k);
    BackendClosedInv(cfg, w.s, k, backend);
    OwnGone(cfg, k, w.s, backend, History(k, w), w.frames);
    if k in w.s.lanes {
      GoneQueued(cfg, k, w.s, k, backend);
    } else {
      NoneQueued(cfg, k, w.s, s', []);
    }
    if s'.closed && !w.s.closed {
      OverSound(cfg, k, app, w, s');
    } else {
      RelayWorld.PushedQuietly(w.down.pushed, QueuedIf(k in w.s.streams && k !in s'.streams, f), k);
      MovesSound(cfg, k, app, w, s', w.tale, k in w.s.streams && k !in s'.streams, f);
    }
  }

  lemma OwnGone(cfg: Config, k: nat, s: State, backend: int, h: map<nat, Tale>, fs: seq<Frame>)
    requires GoodConfig(cfg) && Told(s, h, fs, k) && (s.closed ==> s.streams == map[])
    ensures var t := BackendClosed(cfg, s, k, backend);
      && Told(t, h, fs, k) && (k in t.streams ==> k in s.streams) && (k in t.tombs ==> k in s.tombs || k in s.streams)
      && (k in s.tombs ==> k in t.tombs) && (k !in s.streams ==> t == s)
      && (t.closed && !s.closed ==> k !in t.streams)
  {
    hide QueueFrame, CloseStream, Told, Remember;
    var t := BackendClosed(cfg, s, k, backend);
    if !s.closed && k in s.streams && s.streams[k].backend == backend {
      var gone := CloseStream(cfg, s, k);
      CloseStreamShape(cfg, s, k);
      GoneTold(s, gone, h, fs, k);
      QueueFrameShape(cfg, gone, NoFrame(k));
      if QueueFrame(cfg, gone, NoFrame(k)).Some? {
        StillTold(gone, t, h, fs, k);
      } else {
        OwnClosingTold(k, gone, h, fs);
      }
    }
  }

  lemma ElsewhereSound(cfg: Config, k: nat, app: seq<Frame>, w: World, e: SessionSteps.Event)
    requires Sound(cfg, k, app, w) && GoodConfig(cfg) && Beside(k, e)
    requires (k in w.s.tombs ==> k in SessionSteps.Step(cfg, w.s, e).tombs) && !SessionSteps.Crashes(cfg, w.s, e)
    ensures Sound(cfg, k, app, Passes(cfg, w, SessionSteps.Step(cfg, w.s, e)))
  {
    hide Inv, Sound, Queued, EncodeAll, Told, SessionOver, Emptied, SessionSteps.Step, Leaves, CloseSession, Crashes;
    hide MayClose;
    Facts(cfg, k, app, w);
    var s' := SessionSteps.Step(cfg, w.s, e);
    StepInv(cfg, w.s, e);
    BesideLeaves(cfg, k, w.s, e);
    var n := MayClose(cfg, e);
    if Leaves(cfg, k, w.s, s', n) {
      LeftAlone(cfg, k, app, w, s', n);
      assert Passes(cfg, w, s') == w.(s := s');
    } else {
      var u :| Leaves(cfg, k, w.s, u, n) && s' == CloseSession(u);
      ClosingKeepsTombs(u);
      ClosedBeside(cfg, k, app, w, u, n);
    }
  }

  lemma ClosingKeepsTombs(s: State)
    ensures CloseSession(s).tombs == s.tombs
  {
  }

  lemma LeavesMeans(cfg: Config, k: nat, s: State, t: State, n: nat)
    requires Leaves(cfg, k, s, t, n) && RingInOrder(cfg, s) && (k in s.tombs ==> k in t.tombs)
    ensures t.closed == s.closed && (k in t.streams <==> k in s.streams)
    ensures k in s.streams ==> t.streams[k] == s.streams[k]
    ensures (k in t.tombs <==> k in s.tombs) && (k in t.lanes <==> k in s.lanes)
    ensures k in s.lanes ==> t.lanes[k] == s.lanes[k]
  {
    hide RingInOrder;
  }

  lemma OwnStillTold(k: nat, s: State, t: State, h: map<nat, Tale>, fs: seq<Frame>)
    requires Told(s, h, fs, k) && (k in t.tombs <==> k in s.tombs)
    requires (k in t.streams <==> k in s.streams) && (k in s.streams ==> t.streams[k] == s.streams[k])
    ensures Told(t, h, fs, k)
  {
    hide Accounted, DataOf, OpenedIn;
    assert CellOf(t, h, k) == CellOf(s, h, k);
  }

  lemma LeftAlone(cfg: Config, k: nat, app: seq<Frame>, w: World, s': State, n: nat)
    requires Sound(cfg, k, app, w) && GoodConfig(cfg) && Inv(cfg, s', NOTHING) && Leaves(cfg, k, w.s, s', n)
    requires k in w.s.tombs ==> k in s'.tombs
    ensures Sound(cfg, k, app, w.(s := s')) && s'.closed == w.s.closed
  {
    hide Inv, Told, UplinkRun.Sound, DownlinkRun.Sound, EncodeAll, Flatten, Downstream, Leaves;
    Facts(cfg, k, app, w);
    LeavesMeans(cfg, k, w.s, s', n);
    OwnStillTold(k, w.s, s', History(k, w), w.frames);
    SameDownstream(k, w, w.(s := s'));
  }

  lemma ClosedBeside(cfg: Config, k: nat, app: seq<Frame>, w: World, u: State, n: nat)
    requires Sound(cfg, k, app, w) && GoodConfig(cfg) && Leaves(cfg, k, w.s, u, n)
    requires Inv(cfg, CloseSession(u), NOTHING) && (k in w.s.tombs ==> k in u.tombs)
    ensures var s' := CloseSession(u);
      Sound(cfg, k, app, Passes(cfg, w, s'))
  {
    hide Inv, Sound, Told, SessionOver, Emptied, Leaves;
    Facts(cfg, k, app, w);
    LeavesMeans(cfg, k, w.s, u, n);
    OwnStillTold(k, w.s, u, History(k, w), w.frames);
    OwnClosingTold(k, u, History(k, w), w.frames);
    if u.closed {
      OwnLeft(cfg, k, w.s, u);
      LeftAlone(cfg, k, app, w, u, n);
    } else {
      OverSound(cfg, k, app, w, CloseSession(u));
    }
  }

  lemma OwnLeft(cfg: Config, k: nat, s: State, u: State)
    requires u.closed
    ensures CloseSession(u) == u
  {
  }

  // Steps of the two protocols.

  lemma BridgeSound(cfg: Config, k: nat, app: seq<Frame>, w: World, up: UplinkRun.Net)
    requires Sound(cfg, k, app, w) && UplinkRun.Sound(up) && up.up == w.up.up && up.closed == w.up.closed
    requires w.up.source <= up.source <= EncodeAll(app) && up.applied == w.up.applied && up.effects == w.up.effects
    ensures Sound(cfg, k, app, w.(up := up))
  {
    hide Inv, Told, UplinkRun.Sound, DownlinkRun.Sound, EncodeAll, Flatten, Downstream;
    SameDownstream(k, w, w.(up := up));
  }

  lemma UpEventSound(cfg: Config, k: nat, app: seq<Frame>, w: World, e: UplinkRun.Event)
    requires Sound(cfg, k, app, w)
    requires e.BridgePacks? || e.BridgeSends? || e.BridgeReceives? || e.AppQueues?
    requires e.AppQueues? ==> w.up.source + e.data <= EncodeAll(app)
    ensures Sound(cfg, k, app, w.(up := UplinkRun.Step(w.up, e)))
  {
    hide Inv, Told, UplinkRun.Sound, DownlinkRun.Sound, EncodeAll, Flatten, Downstream;
    UplinkRun.StepSound(w.up, e);
    BridgeSound(cfg, k, app, w, UplinkRun.Step(w.up, e));
  }

  lemma DownSound(cfg: Config, k: nat, app: seq<Frame>, w: World, s': State, down: DownlinkRun.Net)
    requires Sound(cfg, k, app, w) && Inv(cfg, s', NOTHING) && DownlinkRun.Sound(down)
    requires s'.streams == w.s.streams && s'.tombs == w.s.tombs && s'.closed == w.s.closed == down.closed
    requires (k in s'.lanes <==> k in w.s.lanes) && LaneUp(s', k) == LaneUp(w.s, k) && LaneDown(s', k) == down.relay
    requires down.pushed == w.down.pushed
    ensures Sound(cfg, k, app, w.(s := s', down := down))
  {
    hide Inv, Told, UplinkRun.Sound, DownlinkRun.Sound, EncodeAll, Flatten, Downstream;
    StillTold(w.s, s', History(k, w), w.frames, k);
    SameDownstream(k, w, w.(s := s', down := down));
  }

  lemma DownEventSound(cfg: Config, k: nat, app: seq<Frame>, w: World, e: DownlinkRun.Event)
    requires Sound(cfg, k, app, w) && GoodConfig(cfg) && (e.BridgeSends? || e.BridgeReceives?)
    ensures Sound(cfg, k, app, w.(down := DownStep(cfg, w.down, e)))
  {
    hide Inv, Told, UplinkRun.Sound, DownlinkRun.Sound, EncodeAll, Flatten, Downstream;
    DownlinkRun.StepSound(w.down, e, cfg.limits.carrierBatchBytes, cfg.limits.maxFramePayload);
    DownSound(cfg, k, app, w, w.s, DownStep(cfg, w.down, e));
  }

  lemma ArrivalAgrees(cfg: Config, s: State, k: nat, poll: PollId)
    requires GoodConfig(cfg) && k in s.lanes && !s.closed
    ensures var t, d := SessionSteps.PollArrives(cfg, s, k, poll).0, s.lanes[k].down;
      && t.streams == s.streams && t.tombs == s.tombs && t.closed == s.closed
      && k in t.lanes && t.lanes[k].up == s.lanes[k].up
      && t.lanes[k].down == Enter(d, poll, cfg.limits.carrierBatchBytes, LaneOver(cfg, s, k)).0
  {
    hide Enter, Acknowledged, Release, ChargeOf, LaneOver;
    ReleaseShape(s, ChargeOf(Acknowledged(s.lanes[k].down, poll.cursor)));
  }

  lemma RefusedStays(d: Down, poll: PollId, batchBytes: int, over: bool)
    ensures Enter(d, poll, batchBytes, over).1.Refused? ==> Enter(d, poll, batchBytes, over).0 == d
  {
  }

  lemma PollsSound(cfg: Config, k: nat, app: seq<Frame>, w: World, cursor: nat)
    requires Sound(cfg, k, app, w) && GoodConfig(cfg)
    ensures Sound(cfg, k, app, Polls(cfg, k, w, cursor))
  {
    hide Inv, Told, UplinkRun.Sound, DownlinkRun.Sound, EncodeAll, Flatten, Downstream, Enter, Acknowledging, LaneOver;
    if cursor in w.down.requests && k in w.s.lanes {
      var poll, over := PollId(w.down.nextToken, cursor), LaneOver(cfg, w.s, k);
      var e := DownlinkRun.LaneRequestArrives(cursor, over);
      DownlinkRun.StepSound(w.down, e, cfg.limits.carrierBatchBytes, cfg.limits.maxFramePayload);
      PollArrivesInv(cfg, w.s, k, poll);
      var s' := SessionSteps.PollArrives(cfg, w.s, k, poll).0;
      if w.s.closed {
        assert s' == w.s;
      } else {
        ArrivalAgrees(cfg, w.s, k, poll);
        RefusedStays(w.down.relay, poll, cfg.limits.carrierBatchBytes, over);
      }
      DownSound(cfg, k, app, w, s', DownStep(cfg, w.down, e));
    }
  }

  lemma WakesSound(cfg: Config, k: nat, app: seq<Frame>, w: World, poll: PollId, why: Wake)
    requires Sound(cfg, k, app, w) && GoodConfig(cfg)
    ensures Sound(cfg, k, app, WakesUp(cfg, k, w, poll, why))
  {
    hide Inv, Told, UplinkRun.Sound, DownlinkRun.Sound, EncodeAll, Flatten, Downstream, Resume, LaneOver;
    if poll in w.down.polls && !(why.DisplacedByNewer? && w.down.relay.waiter == Some(poll)) && k in w.s.lanes {
      var e := DownlinkRun.LanePollWakes(poll, why, LaneOver(cfg, w.s, k));
      DownlinkRun.StepSound(w.down, e, cfg.limits.carrierBatchBytes, cfg.limits.maxFramePayload);
      PollWakesInv(cfg, w.s, k, w.s.lanes[k].birth, poll, why);
      DownSound(cfg, k, app, w, SessionSteps.PollWakes(cfg, w.s, k, w.s.lanes[k].birth, poll, why).0,
                DownStep(cfg, w.down, e));
    }
  }

  // An uplink request.

  /** A body that begins is what follows those applied, of the app's own frames. */
  lemma NextFramesAreApps(cfg: Config, k: nat, app: seq<Frame>, w: World, r: UplinkRun.Request, frames: seq<Frame>)
    requires UplinkRun.Sound(w.up) && Upstream(app, k, w) && r in w.up.sent && !w.up.closed
    requires Admit(w.up.up, r.sequence, r.body).Begin? && Readable(cfg, r.body) == Some(frames)
    ensures AllFit(frames, MAX_PAYLOAD) && EncodeAll(frames) == r.body && frames != []
    ensures w.aborted ==> frames <= app
    ensures !w.aborted ==>
      && AllFit(w.frames + frames, MAX_PAYLOAD) && EncodeAll(w.frames + frames) == Flatten(w.up.applied) + r.body
      && EncodeAll(w.frames + frames) <= w.up.source && w.frames + frames <= app
  {
    hide UplinkRun.Sound, Parsed, EncodeAll, Flatten, AllClientShaped;
    ParseIsCanonical(r.body, cfg.limits.maxFramePayload);
    UplinkRun.ArriveSound(w.up, r);
    UplinkRun.NextBodyFollows(UplinkRun.Arrive(w.up, r), w.up.nextWorker);
    EncodeAllAppend(w.frames, frames);
    if w.aborted {
      assert [] + r.body == r.body;
      EncodedPrefixIsFramePrefix(frames, app);
    } else {
      EncodedPrefixIsFramePrefix(w.frames + frames, app);
    }
  }

  /** What Receive comes to on this lane. */
  ghost predicate Received(cfg: Config, k: nat, s: State, h: map<nat, Tale>, fs: seq<Frame>, sequence: nat, body: Bytes,
                           frames: seq<Frame>, admits: seq<bool>)
    requires GoodConfig(cfg) && |admits| == |frames| && k in s.lanes
  {
    var (t, answer) := Receive(cfg, s, k, sequence, body, frames, admits);
    if answer.Acked? || answer.Aborted? then
      && Validate(TrialOf(s), frames).Some? && Reserved(cfg, s, frames).Some?
      && var a := Reserved(cfg, s, frames).value;
         var log, n, up := Log(cfg, a, h, frames, admits), Reached(cfg, a, frames, admits), s.lanes[k].up;
         && SameQueued(h, log) && Told(t, log, fs + frames[..n], k) && (answer.Acked? ==> n == |frames|)
         && !t.closed && k in t.lanes && (answer.Aborted? ==> k in t.tombs)
         && t.lanes[k] == WithQueued(cfg, s.lanes[k], Refusals(cfg, a, frames, admits))
                            .(up := if answer.Acked? then Commit(up, sequence, body, true) else up)
    else answer.Crashed? || t == s
  }

  lemma ReservedKeeps(cfg: Config, s: State, frames: seq<Frame>)
    requires GoodConfig(cfg) && Reserved(cfg, s, frames).Some?
    ensures var a := Reserved(cfg, s, frames).value; a.s == s.(pending := a.s.pending, pool := a.s.pool)
  {
    hide Reservation, SessionAdmits, PoolAdmits;
  }

  lemma OwnReceived(cfg: Config, k: nat, s: State, h: map<nat, Tale>, fs: seq<Frame>, sequence: nat, body: Bytes,
                    frames: seq<Frame>, admits: seq<bool>)
    requires GoodConfig(cfg) && cfg.UsesLanes() && Inv(cfg, s, NOTHING) && !s.closed && k in s.lanes && k != 0
    requires |admits| == |frames| && AllFit(frames, MAX_PAYLOAD) && AllClientShaped(frames) && AllOn(frames, k)
    requires Told(s, h, fs, k) && OpensOnce(fs + frames)
    ensures Received(cfg, k, s, h, fs, sequence, body, frames, admits)
  {
    if Validate(TrialOf(s), frames).Some? && Reserved(cfg, s, frames).Some? {
      assert LanesReady(cfg, s, frames);
      hide *;
      var a := Reserved(cfg, s, frames).value;
      AcceptedIf(cfg, s, frames);
      ReservedUnderway(cfg, s, frames);
      ReservedKeeps(cfg, s, frames);
      OwnStillTold(k, s, a.s, h, fs);
      OwnBatchDone(cfg, k, TrialOf(s), a, h, fs, frames, admits, s.tombs, s.streams.Keys);
      DoneReceived(cfg, k, s, a, h, fs, sequence, body, frames, admits);
    } else {
      hide Validate, Apply, Reserved, Inv, Told, Queued;
    }
  }

  lemma DoneReceived(cfg: Config, k: nat, s: State, a: Acc, h: map<nat, Tale>, fs: seq<Frame>, sequence: nat,
                     body: Bytes, frames: seq<Frame>, admits: seq<bool>)
    requires GoodConfig(cfg) && |admits| == |frames| && k in s.lanes && !s.closed
    requires Validate(TrialOf(s), frames).Some? && Reserved(cfg, s, frames) == Some(a)
    requires a.s == s.(pending := a.s.pending, pool := a.s.pool) && BatchDone(cfg, k, a, h, fs, frames, admits)
    ensures Received(cfg, k, s, h, fs, sequence, body, frames, admits)
  {
    hide Validate, Apply, Reserved, Told, Release, Log, Reached, Refusals, SameQueued, PushAll;
    match Apply(cfg, a, frames, admits)
    case Going(b) =>
      ReleaseShape(b.s, b.left);
      assert frames[..|frames|] == frames;
      var settled := Release(b.s, b.left);
      var up := if k in settled.lanes then Commit(settled.lanes[k].up, sequence, body, true) else NEW_UP;
      OwnStillTold(k, b.s, SetUp(settled, k, up), Log(cfg, a, h, frames, admits), fs + frames);
    case Aborted(b) =>
      ReleaseShape(b.s, b.left);
      OwnStillTold(k, b.s, Release(b.s, b.left), Log(cfg, a, h, frames, admits),
                   fs + frames[..Reached(cfg, a, frames, admits)]);
    case NilStream =>
  }

  /** A batch that opens a stream still remembered is rejected. */
  lemma RememberedIsRejected(cfg: Config, k: nat, s: State, sequence: nat, body: Bytes, frames: seq<Frame>,
                             admits: seq<bool>)
    requires GoodConfig(cfg) && |admits| == |frames| && frames != [] && frames[0].kind == OPEN && frames[0].id == k
    requires k in s.tombs
    ensures Receive(cfg, s, k, sequence, body, frames, admits) == (s, Rejected)
  {
    hide Validate, Apply, Reserved;
    if Validate(TrialOf(s), frames).Some? {
      OpensAreNew(TrialOf(s), frames);
    }
  }

  /** How an uplink request is settled, once its body reads well at an open session. */
  lemma UplinkSettled(cfg: Config, k: nat, app: seq<Frame>, w: World, r: UplinkRun.Request, frames: seq<Frame>,
                      admits: seq<bool>)
    requires Setting(cfg, k, app) && Sound(cfg, k, app, w) && r in w.up.sent && !w.s.closed
    requires Readable(cfg, r.body) == Some(frames) && AllOn(frames, k) && |admits| == |frames|
    ensures var s1 := Entered(w.s, k);
      if Admit(w.up.up, r.sequence, r.body).Begin? then
        UpOnLane(cfg, w.s, k, r.sequence, r.body, admits)
          == Receive(cfg, s1, k, r.sequence, r.body, frames, admits)
      else
        var (t, answer) := UpOnLane(cfg, w.s, k, r.sequence, r.body, admits);
        t == w.s && !answer.Aborted? && !answer.Backpressure?
        && (answer.Acked? ==> Admit(w.up.up, r.sequence, r.body).Acknowledge?)
  {
    hide Inv, Told, DownlinkRun.Sound, EncodeAll, Flatten, Downstream, Readable, Receive, OnlyLate, UplinkRun.Sound;
    FirstRequest(w.up, r);
    if k !in w.s.lanes {
      NextFramesAreApps(cfg, k, app, w, r, frames);
      assert w.frames + frames == frames;
      assert frames[0] == app[0];
    }
  }

  /** Before anything is committed, the only request there is begins. */
  lemma FirstRequest(n: UplinkRun.Net, r: UplinkRun.Request)
    requires UplinkRun.Sound(n) && r in n.sent
    ensures n.up == NEW_UP ==> Admit(n.up, r.sequence, r.body).Begin?
  {
    assert UplinkRun.GoodRequest(r, n.bodies, n.acked);
  }

  lemma EnteredSound(cfg: Config, k: nat, app: seq<Frame>, w: World)
    requires Sound(cfg, k, app, w) && GoodConfig(cfg)
    ensures Sound(cfg, k, app, w.(s := Entered(w.s, k))) && k in Entered(w.s, k).lanes
    ensures Entered(w.s, k).lanes[k].up == w.up.up && Entered(w.s, k).lanes[k].down == w.down.relay
  {
    hide Inv, Told, UplinkRun.Sound, DownlinkRun.Sound, EncodeAll, Flatten, Downstream;
    if k !in w.s.lanes {
      AddLaneInv(cfg, w.s, k, NOTHING);
      StillTold(w.s, Entered(w.s, k), History(k, w), w.frames, k);
    }
    SameDownstream(k, w, w.(s := Entered(w.s, k)));
  }

  /** A duplicate acknowledged, a busy lane, a refusal: nothing of the lane's changes. */
  lemma QuietUplink(cfg: Config, k: nat, app: seq<Frame>, w: World, r: UplinkRun.Request, s': State)
    requires Sound(cfg, k, app, w) && GoodConfig(cfg) && r in w.up.sent && !Admit(w.up.up, r.sequence, r.body).Begin?
    ensures Sound(cfg, k, app, w.(up := UplinkRun.Arrive(w.up, r)))
  {
    hide Inv, Told, UplinkRun.Sound, DownlinkRun.Sound, EncodeAll, Flatten, Downstream;
    UplinkRun.ArriveSound(w.up, r);
    BridgeSound(cfg, k, app, w, UplinkRun.Arrive(w.up, r));
  }

  /** A body refused for want of budget: the exchange is where it was. */
  lemma BackedUp(cfg: Config, k: nat, app: seq<Frame>, w: World, r: UplinkRun.Request)
    requires Sound(cfg, k, app, w) && GoodConfig(cfg) && r in w.up.sent && Admit(w.up.up, r.sequence, r.body).Begin?
    requires !w.s.closed
    ensures var up := UplinkRun.Finish(UplinkRun.Arrive(w.up, r), w.up.nextWorker, UplinkRun.Verdict.Backpressure);
      Sound(cfg, k, app, w.(up := up))
  {
    hide Inv, Told, UplinkRun.Sound, DownlinkRun.Sound, EncodeAll, Flatten, Downstream;
    UplinkRun.ArriveSound(w.up, r);
    UplinkRun.FinishSound(UplinkRun.Arrive(w.up, r), w.up.nextWorker, UplinkRun.Verdict.Backpressure);
    BridgeSound(cfg, k, app, w,
                UplinkRun.Finish(UplinkRun.Arrive(w.up, r), w.up.nextWorker, UplinkRun.Verdict.Backpressure));
  }

  lemma SameOfTold(s: State, h: map<nat, Tale>, h': map<nat, Tale>, fs: seq<Frame>, k: nat)
    requires Told(s, h, fs, k) && Of(h', k) == Of(h, k)
    ensures Told(s, h', fs, k)
  {
    hide Accounted, DataOf, OpenedIn;
    assert CellOf(s, h', k) == CellOf(s, h, k);
  }

  /** The frames reached join those applied before. */
  lemma UpstreamGrows(app: seq<Frame>, k: nat, w: World, w': World, body: Bytes, frames: seq<Frame>, n: nat)
    requires Upstream(app, k, w) && !w.aborted && n <= |frames| && (!w'.aborted ==> n == |frames|)
    requires AllFit(w.frames + frames, MAX_PAYLOAD) && EncodeAll(w.frames + frames) <= w.up.source
    requires EncodeAll(w.frames + frames) == Flatten(w.up.applied) + body
    requires w'.frames == w.frames + frames[..n] && w'.up.source == w.up.source
    requires w'.up.applied == if w'.aborted then w.up.applied else w.up.applied + [body]
    requires w'.aborted ==> k in w'.s.tombs && w.frames == []
    ensures Upstream(app, k, w')
  {
    hide EncodeAll, Flatten, Fits;
    RelayWorld.EncodedTake(w.frames, frames, n);
    RelayWorld.EncodedTake(w.frames, frames[..n], 0);
    assert w.frames + frames[..n][..0] == w.frames;
    FlattenSnoc(w.up.applied, body);
    assert frames[..|frames|] == frames;
    if w'.aborted {
      NothingEncoded(w.frames);
    }
  }

  lemma NothingEncoded(fs: seq<Frame>)
    requires |fs| == 0
    ensures EncodeAll(fs) == []
  {
  }

  /** The world after an applied body, put together from its parts. */
  lemma UplinkAssembled(cfg: Config, k: nat, app: seq<Frame>, w: World, w': World, r: UplinkRun.Request,
                        answer: UpAnswer, fs: seq<Frame>, frames: seq<Frame>, n: nat)
    requires Sound(cfg, k, app, w) && GoodConfig(cfg) && !w.s.closed && !w.aborted && r in w.up.sent && k in w.s.lanes
    requires Admit(w.up.up, r.sequence, r.body).Begin? && (answer.Acked? || answer.Aborted?)
    requires n <= |frames| && (answer.Acked? ==> n == |frames|)
    requires AllFit(w.frames + frames, MAX_PAYLOAD) && EncodeAll(w.frames + frames) <= w.up.source
    requires EncodeAll(w.frames + frames) == Flatten(w.up.applied) + r.body
    requires w'.up == UplinkRun.Finish(UplinkRun.Arrive(w.up, r), w.up.nextWorker, RelayWorld.VerdictOf(answer))
    requires w'.down == RelayWorld.Hear(cfg, w.down, fs) && RelayWorld.NoData(fs)
    requires w'.frames == w.frames + frames[..n] && w'.aborted == answer.Aborted?
    requires Inv(cfg, w'.s, NOTHING) && Told(w'.s, History(k, w'), w'.frames, k) && w'.tale.queued == w.tale.queued
    requires !w'.s.closed && k in w'.s.lanes && (w'.aborted ==> k in w'.s.tombs && w.frames == [])
    requires w'.s.lanes[k] == WithQueued(cfg, w.s.lanes[k], fs)
      .(up := if answer.Acked? then Commit(w.up.up, r.sequence, r.body, true) else w.up.up)
    ensures Sound(cfg, k, app, w')
  {
    hide Inv, Told, UplinkRun.Sound, DownlinkRun.Sound, EncodeAll, Flatten, Expand, RelayWorld.PayloadOf, PushAll;
    hide RelayWorld.Hear, RelayWorld.NoData, Upstream;
    UplinkRun.ArriveSound(w.up, r);
    UplinkRun.FinishSound(UplinkRun.Arrive(w.up, r), w.up.nextWorker, RelayWorld.VerdictOf(answer));
    RelayWorld.HearIs(cfg, w.down, fs);
    RelayWorld.HearSound(cfg, w.down, fs);
    RelayWorld.PushedQuietly(w.down.pushed, fs, k);
    UpstreamGrows(app, k, w, w', r.body, frames, n);
  }

  /** A body that does not read, is of another lane, or comes too late changes nothing. */
  lemma UnreadUplink(cfg: Config, k: nat, s: State, sequence: nat, body: Bytes, admits: seq<bool>)
    requires GoodConfig(cfg)
    requires s.closed || Readable(cfg, body).None? || !AllOn(Readable(cfg, body).value, k)
             || |admits| != |Readable(cfg, body).value|
    ensures UpOnLane(cfg, s, k, sequence, body, admits).0 == s
    ensures var answer := UpOnLane(cfg, s, k, sequence, body, admits).1; answer.Rejected? || answer.Over?
  {
    hide Readable, UpOnOpenLane, AllOn;
  }

  /** An apply stops halfway only at the stream's OPEN, the first frame of all. */
  lemma HaltsAtFirst(cfg: Config, k: nat, app: seq<Frame>, fs: seq<Frame>, a: Acc, frames: seq<Frame>,
                     admits: seq<bool>)
    requires Setting(cfg, k, app) && fs + frames <= app && |admits| == |frames|
    requires Apply(cfg, a, frames, admits).Aborted?
    ensures fs == []
  {
    hide Apply, HaltsAt;
    var n := AbortHaltsAt(cfg, a, frames, admits);
    HaltsAtOpen(cfg, a, frames, admits, n, Apply(cfg, a, frames, admits).acc);
    var i := |fs| + n;
    assert app[i] == (fs + frames)[i] == frames[n];
    assert app[i].id == k && app[0].id == k;
    assert i > 0 ==> !(IsOpenOf(app[0], k) && IsOpenOf(app[i], k));
  }

  lemma HaltsAtOpen(cfg: Config, a: Acc, frames: seq<Frame>, admits: seq<bool>, n: nat, b: Acc)
    requires GoodConfig(cfg) && |admits| == |frames| && HaltsAt(cfg, a, frames, admits, n, b)
    ensures n < |frames| && frames[n].kind == OPEN
  {
    hide Apply, RememberClosed, QueueFrame;
  }

  lemma ReceiveAborts(cfg: Config, s: State, k: nat, sequence: nat, body: Bytes, frames: seq<Frame>, admits: seq<bool>)
    requires GoodConfig(cfg) && |admits| == |frames| && Reserved(cfg, s, frames).Some?
    requires Receive(cfg, s, k, sequence, body, frames, admits).1.Aborted?
    ensures Apply(cfg, Reserved(cfg, s, frames).value, frames, admits).Aborted?
  {
    hide Apply, Validate, Reserved;
  }

  lemma AppliedUplink(cfg: Config, k: nat, app: seq<Frame>, w: World, r: UplinkRun.Request, frames: seq<Frame>,
                      admits: seq<bool>, w': World)
    requires Setting(cfg, k, app) && Sound(cfg, k, app, w) && !w.s.closed && !w.aborted && r in w.up.sent
    requires k in w.s.lanes && Admit(w.up.up, r.sequence, r.body).Begin?
    requires Readable(cfg, r.body) == Some(frames) && AllOn(frames, k) && |admits| == |frames|
    requires var (t, answer) := Receive(cfg, w.s, k, r.sequence, r.body, frames, admits);
      && (answer.Acked? || answer.Aborted?) && Inv(cfg, t, NOTHING) && Reserved(cfg, w.s, frames).Some?
      && var a := Reserved(cfg, w.s, frames).value;
         w' == w.(s := t,
                  up := UplinkRun.Finish(UplinkRun.Arrive(w.up, r), w.up.nextWorker, RelayWorld.VerdictOf(answer)),
                  down := RelayWorld.Hear(cfg, w.down, Refusals(cfg, a, frames, admits)),
                  tale := Of(Log(cfg, a, History(k, w), frames, admits), k),
                  frames := w.frames + frames[..Reached(cfg, a, frames, admits)],
                  aborted := answer.Aborted?)
    ensures Sound(cfg, k, app, w')
  {
    var (t, answer) := Receive(cfg, w.s, k, r.sequence, r.body, frames, admits);
    Parts(cfg, k, app, w);
    hide *;
    Facts(cfg, k, app, w);
    SettingGood(cfg, k, app);
    var a := Reserved(cfg, w.s, frames).value;
    NextFramesAreApps(cfg, k, app, w, r, frames);
    RelayWorld.PrefixOpensOnce(w.frames + frames, app);
    ReadableShaped(cfg, r.body);
    OwnReceived(cfg, k, w.s, History(k, w), w.frames, r.sequence, r.body, frames, admits);
    ReceivedMeans(cfg, k, w.s, History(k, w), w.frames, r.sequence, r.body, frames, admits);
    HistoryOf(k, w);
    HistoryOf(k, w');
    SameOfTold(t, Log(cfg, a, History(k, w), frames, admits), History(k, w'), w'.frames, k);
    RelayWorld.RefusalsAreNotData(cfg, a, frames, admits);
    if answer.Aborted? {
      ReceiveAborts(cfg, w.s, k, r.sequence, r.body, frames, admits);
      HaltsAtFirst(cfg, k, app, w.frames, a, frames, admits);
    }
    UplinkAssembled(cfg, k, app, w, w', r, answer, Refusals(cfg, a, frames, admits), frames,
                    Reached(cfg, a, frames, admits));
  }

  lemma ReadableShaped(cfg: Config, body: Bytes)
    ensures Readable(cfg, body).Some? ==> AllClientShaped(Readable(cfg, body).value)
  {
  }

  lemma SettingGood(cfg: Config, k: nat, app: seq<Frame>)
    requires Setting(cfg, k, app)
    ensures GoodConfig(cfg) && cfg.carrier.HttpsLanes? && cfg.UsesLanes() && 0 < k && OpensOnce(app)
  {
    hide OpensOnce;
  }

  lemma Parts(cfg: Config, k: nat, app: seq<Frame>, w: World)
    requires Sound(cfg, k, app, w)
    ensures UplinkRun.Sound(w.up) && Upstream(app, k, w) && w.up.closed == w.s.closed
    ensures k in w.s.lanes ==> w.s.lanes[k].up == w.up.up
  {
    hide UplinkRun.Sound, Upstream, Inv;
  }

  lemma HistoryOf(k: nat, w: World)
    ensures Of(History(k, w), k) == w.tale
  {
  }

  lemma ReceivedMeans(cfg: Config, k: nat, s: State, h: map<nat, Tale>, fs: seq<Frame>, sequence: nat, body: Bytes,
                      frames: seq<Frame>, admits: seq<bool>)
    requires GoodConfig(cfg) && |admits| == |frames| && k in s.lanes && Reserved(cfg, s, frames).Some?
    requires Received(cfg, k, s, h, fs, sequence, body, frames, admits)
    requires var answer := Receive(cfg, s, k, sequence, body, frames, admits).1; answer.Acked? || answer.Aborted?
    ensures var (t, answer) := Receive(cfg, s, k, sequence, body, frames, admits);
      var a := Reserved(cfg, s, frames).value;
      var log, n, up := Log(cfg, a, h, frames, admits), Reached(cfg, a, frames, admits), s.lanes[k].up;
      && Of(log, k).queued == Of(h, k).queued && Told(t, log, fs + frames[..n], k) && (answer.Acked? ==> n == |frames|)
      && !t.closed && k in t.lanes && (answer.Aborted? ==> k in t.tombs)
      && t.lanes[k] == WithQueued(cfg, s.lanes[k], Refusals(cfg, a, frames, admits))
                         .(up := if answer.Acked? then Commit(up, sequence, body, true) else up)
  {
    hide Receive, Reserved, Told, Log, Reached, Refusals, WithQueued;
  }

  lemma ReceiveCases(cfg: Config, s: State, k: nat, sequence: nat, body: Bytes, frames: seq<Frame>, admits: seq<bool>)
    requires GoodConfig(cfg) && |admits| == |frames|
    ensures var (t, answer) := Receive(cfg, s, k, sequence, body, frames, admits);
      if answer.Acked? || answer.Aborted? then Reserved(cfg, s, frames).Some? else answer.Crashed? || t == s
  {
    hide Validate, Apply, Reserved;
  }

  /** After a halt the same body is barred: its OPEN is remembered. */
  lemma HaltedIsBarred(cfg: Config, k: nat, app: seq<Frame>, w: World, r: UplinkRun.Request, frames: seq<Frame>,
                       admits: seq<bool>)
    requires Setting(cfg, k, app) && Sound(cfg, k, app, w) && !w.s.closed && r in w.up.sent && w.aborted
    requires Admit(w.up.up, r.sequence, r.body).Begin?
    requires Readable(cfg, r.body) == Some(frames) && |admits| == |frames|
    ensures Receive(cfg, w.s, k, r.sequence, r.body, frames, admits) == (w.s, Rejected)
  {
    Parts(cfg, k, app, w);
    hide Sound, UplinkRun.Sound, EncodeAll, Flatten, Readable, OpensOnce, Receive;
    NextFramesAreApps(cfg, k, app, w, r, frames);
    assert frames[0] == app[0];
    RememberedIsRejected(cfg, k, w.s, r.sequence, r.body, frames, admits);
  }

  lemma UplinksSound(cfg: Config, k: nat, app: seq<Frame>, w: World, r: UplinkRun.Request, admits: seq<bool>)
    requires Setting(cfg, k, app) && Sound(cfg, k, app, w) && r in w.up.sent
    ensures Sound(cfg, k, app, Uplinks(cfg, k, w, r, admits))
  {
    hide Sound, Setting, Readable, Receive, Reserved, UpOnLane, Inv, Log, Reached, Refusals, RelayWorld.Hear, AllOn;
    hide Entered, UplinkRun.Finish, UplinkRun.Arrive, Admit, Received;
    SettingGood(cfg, k, app);
    Facts(cfg, k, app, w);
    var (s', answer) := UpOnLane(cfg, w.s, k, r.sequence, r.body, admits);
    UpOnLaneInv(cfg, w.s, k, r.sequence, r.body, admits);
    if w.s.closed || Readable(cfg, r.body).None? || !AllOn(Readable(cfg, r.body).value, k)
       || |admits| != |Readable(cfg, r.body).value| {
      UnreadUplink(cfg, k, w.s, r.sequence, r.body, admits);
    } else {
      var frames := Readable(cfg, r.body).value;
      UplinkSettled(cfg, k, app, w, r, frames, admits);
      if !Admit(w.up.up, r.sequence, r.body).Begin? {
        QuietUplink(cfg, k, app, w, r, s');
      } else {
        var s1 := Entered(w.s, k);
        EnteredSound(cfg, k, app, w);
        EnteredOpen(w.s, k);
        ReceiveCases(cfg, s1, k, r.sequence, r.body, frames, admits);
        if w.aborted {
          HaltedIsBarred(cfg, k, app, w.(s := s1), r, frames, admits);
        }
        if answer.Acked? || answer.Aborted? {
          AppliedUplink(cfg, k, app, w.(s := s1), r, frames, admits, Uplinks(cfg, k, w, r, admits));
        } else if answer.Backpressure? {
          BackedUp(cfg, k, app, w.(s := s1), r);
        }
      }
    }
  }

  lemma EnteredOpen(s: State, k: nat)
    ensures Entered(s, k).closed == s.closed && k in Entered(s, k).lanes
  {
  }

  // Runs.

  /** No step makes the ring forget this lane's stream, once it remembers it. */
  predicate Keeps(k: nat, w: World, w': World) {
    k in w.s.tombs ==> k in w'.s.tombs
  }

  lemma PassesState(cfg: Config, w: World, s': State)
    requires GoodConfig(cfg)
    ensures Passes(cfg, w, s').s == s'
  {
  }

  lemma NoneCrashesBeside(cfg: Config, s: State, e: SessionSteps.Event)
    requires GoodConfig(cfg) && cfg.UsesLanes() && Inv(cfg, s, NOTHING)
    ensures !SessionSteps.Crashes(cfg, s, e)
  {
    hide Inv, UpOnLane;
    if e.UpLane? {
      UpOnLaneInv(cfg, s, e.lane, e.sequence, e.body, e.admits);
    }
  }

  lemma StepSound(cfg: Config, k: nat, app: seq<Frame>, w: World, e: Event)
    requires Setting(cfg, k, app) && Sound(cfg, k, app, w) && AllFit(app, MAX_PAYLOAD)
    requires GoodConfig(cfg) && Keeps(k, w, Step(cfg, k, app, w, e))
    ensures Sound(cfg, k, app, Step(cfg, k, app, w, e))
  {
    hide Setting, Sound, Uplinks, Polls, WakesUp, Takes, Writes, Finishes, Fails, Reads, Goes, Passes, SessionOver;
    hide EncodeAll, DownStep, UplinkRun.Step, Inv, SessionSteps.Step, SessionSteps.Crashes;
    SettingGood(cfg, k, app);
    match e
    case AppSends(data) =>
      if w.up.source + data <= EncodeAll(app) {
        UpEventSound(cfg, k, app, w, UplinkRun.AppQueues(data));
      }
    case BridgeUp(up) =>
      if up.BridgePacks? || up.BridgeSends? || up.BridgeReceives? {
        UpEventSound(cfg, k, app, w, up);
      }
    case UpArrives(r, admits) =>
      if r in w.up.sent {
        UplinksSound(cfg, k, app, w, r, admits);
      }
    case BridgeDown(down) =>
      if down.BridgeSends? || down.BridgeReceives? {
        DownEventSound(cfg, k, app, w, down);
      }
    case PollArrives(cursor) => PollsSound(cfg, k, app, w, cursor);
    case PollWakes(poll, why) => WakesSound(cfg, k, app, w, poll, why);
    case TakeWrite => TakeWriteSound(cfg, k, app, w);
    case SocketWrites(count) => SocketWritesSound(cfg, k, app, w, count);
    case WriteFinishes => WriteFinishesSound(cfg, k, app, w);
    case SocketFails => SocketFailsSound(cfg, k, app, w);
    case ReadData(data) => ReadDataSound(cfg, k, app, w, data);
    case BackendGone(backend) => BackendGoneSound(cfg, k, app, w, backend);
    case Elsewhere(e) =>
      if Beside(k, e) {
        Facts(cfg, k, app, w);
        PassesState(cfg, w, SessionSteps.Step(cfg, w.s, e));
        NoneCrashesBeside(cfg, w.s, e);
        ElsewhereSound(cfg, k, app, w, e);
      }
    case Closes => ClosesSound(cfg, k, app, w);
  }

  function Run(cfg: Config, pool: Charge, k: nat, app: seq<Frame>, events: seq<Event>): World
    requires GoodConfig(cfg) && AllFit(app, MAX_PAYLOAD)
  {
    if events == [] then Start(cfg, pool)
    else Step(cfg, k, app, Run(cfg, pool, k, app, events[..|events| - 1]), events[|events| - 1])
  }

  /** The ring keeps the stream's tombstone to the end of the run. */
  ghost predicate KeptThrough(cfg: Config, pool: Charge, k: nat, app: seq<Frame>, events: seq<Event>)
    requires GoodConfig(cfg) && AllFit(app, MAX_PAYLOAD)
  {
    events == [] ||
    (KeptThrough(cfg, pool, k, app, events[..|events| - 1])
     && Keeps(k, Run(cfg, pool, k, app, events[..|events| - 1]), Run(cfg, pool, k, app, events)))
  }

  /** Nor does it need to be watched: the ring keeps the stream while it has room for everything else that closes. */
  function ClosedBesides(cfg: Config, k: nat, events: seq<Event>): nat {
    if events == [] then 0
    else
      var last := events[|events| - 1];
      ClosedBesides(cfg, k, events[..|events| - 1])
      + if last.Elsewhere? && Beside(k, last.e) then MayClose(cfg, last.e) else 0
  }

  /** A step of this lane's own remembers no other id. */
  ghost predicate OwnRing(cfg: Config, k: nat, s: State, t: State)
    requires GoodConfig(cfg)
  {
    t.tombs == s.tombs || t.tombs == Remember(s.tombs, k, cfg.limits.maxClosedStreamIDs)
  }

  lemma OwnRingMeans(cfg: Config, k: nat, s: State, t: State)
    requires GoodConfig(cfg) && OwnRing(cfg, k, s, t) && RingInOrder(cfg, s)
    ensures RingInOrder(cfg, t) && Others(k, t) <= Others(k, s) && (k in s.tombs ==> k in t.tombs)
  {
    RememberKeeps(s.tombs, k, cfg.limits.maxClosedStreamIDs);
  }

  lemma OwnRingTrans(cfg: Config, k: nat, s: State, t: State, u: State)
    requires GoodConfig(cfg) && OwnRing(cfg, k, s, t) && OwnRing(cfg, k, t, u)
    ensures OwnRing(cfg, k, s, u)
  {
    hide Remember;
    RememberTwice(s.tombs, k, cfg.limits.maxClosedStreamIDs);
  }

  lemma RememberTwice(order: seq<nat>, id: nat, cap: nat)
    requires cap > 0
    ensures Remember(Remember(order, id, cap), id, cap) == Remember(order, id, cap)
  {
  }

  lemma OwnFrameRing(cfg: Config, k: nat, a: Acc, f: Frame, admit: bool)
    requires GoodConfig(cfg) && f.id == k
    ensures match ApplyFrame(cfg, a, f, admit)
      case Going(b) => OwnRing(cfg, k, a.s, b.s)
      case Aborted(b) => OwnRing(cfg, k, a.s, b.s)
      case NilStream => true
  {
    hide RememberClosed, CloseStream, QueueFrame, AcceptData, AddCredit, Remember;
    var r, close := RememberClosed(cfg, a.s, k), Frame(CLOSE, k, []);
    RememberClosedShape(cfg, a.s, k);
    QueueFrameShape(cfg, r, close);
    if k in a.s.streams {
      CloseStreamShape(cfg, a.s, k);
    }
  }

  lemma {:induction false} OwnApplyRing(cfg: Config, k: nat, a: Acc, frames: seq<Frame>, admits: seq<bool>)
    requires GoodConfig(cfg) && |admits| == |frames| && AllOn(frames, k)
    ensures match Apply(cfg, a, frames, admits)
      case Going(b) => OwnRing(cfg, k, a.s, b.s)
      case Aborted(b) => OwnRing(cfg, k, a.s, b.s)
      case NilStream => true
    decreases |frames|
  {
    hide OwnRing, ApplyFrame;
    if |frames| == 0 {
      OwnRingStays(cfg, k, a.s, a.s);
    } else {
      AllOnRest(frames, k);
      OwnFrameRing(cfg, k, a, frames[0], admits[0]);
      if ApplyFrame(cfg, a, frames[0], admits[0]).Going? {
        var b := ApplyFrame(cfg, a, frames[0], admits[0]).acc;
        OwnApplyRing(cfg, k, b, frames[1..], admits[1..]);
        match Apply(cfg, b, frames[1..], admits[1..]) {
          case Going(c) => OwnRingTrans(cfg, k, a.s, b.s, c.s);
          case Aborted(c) => OwnRingTrans(cfg, k, a.s, b.s, c.s);
          case NilStream =>
        }
      }
    }
  }

  lemma OwnRingStays(cfg: Config, k: nat, s: State, t: State)
    requires GoodConfig(cfg) && t.tombs == s.tombs
    ensures OwnRing(cfg, k, s, t)
  {
  }

  lemma OwnUplinkRing(cfg: Config, k: nat, s: State, sequence: nat, body: Bytes, admits: seq<bool>)
    requires GoodConfig(cfg)
    ensures OwnRing(cfg, k, s, UpOnLane(cfg, s, k, sequence, body, admits).0)
  {
    hide OwnRing, Readable, Apply, Validate, Reserved, Release, OnlyLate, AllOn;
    var t := UpOnLane(cfg, s, k, sequence, body, admits).0;
    OwnRingStays(cfg, k, s, s);
    OwnRingStays(cfg, k, s, AddLane(s, k));
    OwnRingStays(cfg, k, s, s.(panicked := true));
    OwnRingStays(cfg, k, s, AddLane(s, k).(panicked := true));
    if Readable(cfg, body).Some? && AllOn(Readable(cfg, body).value, k) && |admits| == |Readable(cfg, body).value| {
      var s1, frames := Entered(s, k), Readable(cfg, body).value;
      if Reserved(cfg, s1, frames).Some? {
        var a := Reserved(cfg, s1, frames).value;
        ReservedKeeps(cfg, s1, frames);
        OwnApplyRing(cfg, k, a, frames, admits);
        match Apply(cfg, a, frames, admits)
        case Going(b) =>
          ReleaseShape(b.s, b.left);
          SameTombsRing(cfg, k, s, a.s, b.s, t);
        case Aborted(b) =>
          ReleaseShape(b.s, b.left);
          SameTombsRing(cfg, k, s, a.s, b.s, t);
        case NilStream =>
      }
    }
  }

  lemma SameTombsRing(cfg: Config, k: nat, s: State, s1: State, t: State, u: State)
    requires GoodConfig(cfg) && s1.tombs == s.tombs && OwnRing(cfg, k, s1, t)
    ensures u.tombs == t.tombs ==> OwnRing(cfg, k, s, u)
  {
  }

  lemma OwnStepRing(cfg: Config, k: nat, app: seq<Frame>, w: World, e: Event)
    requires GoodConfig(cfg) && AllFit(app, MAX_PAYLOAD) && !e.Elsewhere?
    ensures OwnRing(cfg, k, w.s, Step(cfg, k, app, w, e).s)
  {
    hide OwnRing, UpOnLane, BackendDrained, BackendWriteFinished, BackendData, BackendClosed, CloseSession, EncodeAll;
    hide SessionSteps.PollArrives, SessionSteps.PollWakes, DownStep, UplinkRun.Step, Take, RelayWorld.Hear, Log;
    hide Readable, Reserved, Reached, Refusals, Admit;
    OwnRingStays(cfg, k, w.s, w.s);
    match e
    case UpArrives(r, admits) => OwnUplinkRing(cfg, k, w.s, r.sequence, r.body, admits);
    case PollArrives(cursor) => PollRing(cfg, k, w.s, PollId(w.down.nextToken, cursor), ContextDone);
    case PollWakes(poll, why) => PollRing(cfg, k, w.s, poll, why);
    case TakeWrite => LoopRing(cfg, k, w.s, 0, []);
    case SocketWrites(count) => LoopRing(cfg, k, w.s, count, []);
    case WriteFinishes => LoopRing(cfg, k, w.s, 0, []);
    case ReadData(data) => LoopRing(cfg, k, w.s, 0, data);
    case BackendGone(backend) => GoneRing(cfg, k, w.s, backend);
    case Closes =>
      ClosingKeepsTombs(w.s);
      OwnRingStays(cfg, k, w.s, CloseSession(w.s));
    case _ =>
  }

  lemma PollRing(cfg: Config, k: nat, s: State, poll: PollId, why: Wake)
    requires GoodConfig(cfg)
    ensures OwnRing(cfg, k, s, SessionSteps.PollArrives(cfg, s, k, poll).0)
    ensures k in s.lanes ==> OwnRing(cfg, k, s, SessionSteps.PollWakes(cfg, s, k, s.lanes[k].birth, poll, why).0)
  {
    hide Enter, Resume, Acknowledged, LaneOver, Release, ChargeOf;
    if k in s.lanes {
      ReleaseShape(s, ChargeOf(Acknowledged(s.lanes[k].down, poll.cursor)));
    }
  }

  lemma LoopRing(cfg: Config, k: nat, s: State, count: nat, data: Bytes)
    requires GoodConfig(cfg)
    ensures OwnRing(cfg, k, s, WriteTaken(s, k)) && OwnRing(cfg, k, s, BackendDrained(cfg, s, k, count).0)
    ensures OwnRing(cfg, k, s, BackendWriteFinished(s, k).0) && OwnRing(cfg, k, s, BackendData(cfg, s, k, data).0)
  {
    hide BackendDrained, BackendWriteFinished, BackendData;
    RelayWorld.SessionStepTombs(cfg, s, k, count, data);
  }

  lemma GoneRing(cfg: Config, k: nat, s: State, backend: int)
    requires GoodConfig(cfg)
    ensures OwnRing(cfg, k, s, BackendClosed(cfg, s, k, backend))
  {
    hide QueueFrame, CloseStream, Remember;
    if !s.closed && k in s.streams && s.streams[k].backend == backend {
      CloseStreamShape(cfg, s, k);
      QueueFrameShape(cfg, CloseStream(cfg, s, k), Frame(CLOSE, k, []));
    }
  }

  lemma BesideRing(cfg: Config, k: nat, s: State, e: SessionSteps.Event)
    requires GoodConfig(cfg) && cfg.carrier.HttpsLanes? && Beside(k, e) && RingInOrder(cfg, s)
    requires Others(k, s) + MayClose(cfg, e) < cfg.limits.maxClosedStreamIDs
    ensures var t := SessionSteps.Step(cfg, s, e);
      Others(k, t) <= Others(k, s) + MayClose(cfg, e) && (k in s.tombs ==> k in t.tombs)
  {
    hide Leaves, RingInOrder, SessionSteps.Step, CloseSession, MayClose;
    BesideLeaves(cfg, k, s, e);
    var t, n := SessionSteps.Step(cfg, s, e), MayClose(cfg, e);
    if Leaves(cfg, k, s, t, n) {
      LeavesRoom(cfg, k, s, t, n);
    } else {
      var u :| Leaves(cfg, k, s, u, n) && t == CloseSession(u);
      LeavesRoom(cfg, k, s, u, n);
      ClosingKeepsTombs(u);
    }
  }

  lemma LeavesRoom(cfg: Config, k: nat, s: State, t: State, n: nat)
    requires Leaves(cfg, k, s, t, n) && RingInOrder(cfg, s) && Others(k, s) + n < cfg.limits.maxClosedStreamIDs
    ensures Others(k, t) <= Others(k, s) + n && (k in s.tombs ==> k in t.tombs)
  {
    hide RingInOrder;
  }

  /**
   * The guard: while fewer than MaxClosedStreamIDs streams are opened, closed or ended beside this lane's,
   * the ring keeps this one's tombstone in every run.
   */
  lemma {:induction false} RoomKeepsLane(cfg: Config, pool: Charge, k: nat, app: seq<Frame>, events: seq<Event>)
    requires Setting(cfg, k, app) && GoodConfig(cfg) && AllFit(app, MAX_PAYLOAD) && NOTHING.Within(pool)
    requires ClosedBesides(cfg, k, events) < cfg.limits.maxClosedStreamIDs
    ensures KeptThrough(cfg, pool, k, app, events)
    ensures Others(k, Run(cfg, pool, k, app, events).s) <= ClosedBesides(cfg, k, events)
  {
    hide Setting, Sound, Step, SessionSteps.Step, RingInOrder, OwnRing, MayClose;
    if |events| == 0 {
      NothingRemembered(cfg, pool, k);
    } else {
      var before, e := events[..|events| - 1], events[|events| - 1];
      RoomKeepsLane(cfg, pool, k, app, before);
      RunSound(cfg, pool, k, app, before);
      SettingGood(cfg, k, app);
      var w := Run(cfg, pool, k, app, before);
      Facts(cfg, k, app, w);
      if e.Elsewhere? {
        ElsewhereState(cfg, k, app, w, e.e);
        if Beside(k, e.e) {
          BesideRing(cfg, k, w.s, e.e);
        }
      } else {
        OwnStepRing(cfg, k, app, w, e);
        OwnRingMeans(cfg, k, w.s, Step(cfg, k, app, w, e).s);
      }
    }
  }

  lemma NothingRemembered(cfg: Config, pool: Charge, k: nat)
    ensures Others(k, Start(cfg, pool).s) == 0
  {
  }

  lemma ElsewhereState(cfg: Config, k: nat, app: seq<Frame>, w: World, e: SessionSteps.Event)
    requires GoodConfig(cfg) && AllFit(app, MAX_PAYLOAD)
    ensures Step(cfg, k, app, w, Elsewhere(e)).s == if Beside(k, e) then SessionSteps.Step(cfg, w.s, e) else w.s
  {
    hide SessionSteps.Step;
  }

  ghost predicate InSetting(cfg: Config, pool: Charge, k: nat, app: seq<Frame>, events: seq<Event>) {
    && Setting(cfg, k, app) && GoodConfig(cfg) && AllFit(app, MAX_PAYLOAD) && NOTHING.Within(pool)
    && KeptThrough(cfg, pool, k, app, events)
  }

  lemma StartSound(cfg: Config, pool: Charge, k: nat, app: seq<Frame>)
    requires Setting(cfg, k, app) && NOTHING.Within(pool)
    ensures Sound(cfg, k, app, Start(cfg, pool))
  {
    hide Inv, UplinkRun.Sound, DownlinkRun.Sound, OpensOnce, Accounted;
    NewSessionInv(cfg, pool);
    UplinkRun.RunSound([]);
    DownlinkRun.RunSound([], cfg.limits.carrierBatchBytes, cfg.limits.maxFramePayload);
    RelayWorld.ClosedCellAccounted();
  }

  lemma {:induction false} RunSound(cfg: Config, pool: Charge, k: nat, app: seq<Frame>, events: seq<Event>)
    requires InSetting(cfg, pool, k, app, events)
    ensures GoodConfig(cfg) && AllFit(app, MAX_PAYLOAD) && Sound(cfg, k, app, Run(cfg, pool, k, app, events))
  {
    hide Sound, Step, Start, Setting, Keeps;
    if |events| == 0 {
      StartSound(cfg, pool, k, app);
    } else {
      RunSound(cfg, pool, k, app, events[..|events| - 1]);
      StepSound(cfg, k, app, Run(cfg, pool, k, app, events[..|events| - 1]), events[|events| - 1]);
    }
  }

  /** Few enough closures beside this lane, or a ring that lasts anyway. */
  ghost predicate Guarded(cfg: Config, pool: Charge, k: nat, app: seq<Frame>, events: seq<Event>) {
    && Setting(cfg, k, app) && GoodConfig(cfg) && AllFit(app, MAX_PAYLOAD) && NOTHING.Within(pool)
    && (ClosedBesides(cfg, k, events) < cfg.limits.maxClosedStreamIDs || KeptThrough(cfg, pool, k, app, events))
  }

  lemma GuardedSound(cfg: Config, pool: Charge, k: nat, app: seq<Frame>, events: seq<Event>)
    requires Guarded(cfg, pool, k, app, events)
    ensures GoodConfig(cfg) && AllFit(app, MAX_PAYLOAD) && Sound(cfg, k, app, Run(cfg, pool, k, app, events))
  {
    hide Sound, Run, KeptThrough, Setting, ClosedBesides;
    if ClosedBesides(cfg, k, events) < cfg.limits.maxClosedStreamIDs {
      RoomKeepsLane(cfg, pool, k, app, events);
    }
    RunSound(cfg, pool, k, app, events);
  }

  lemma {:induction false} DataOfPrefix(fs: seq<Frame>, all: seq<Frame>, id: nat)
    requires fs <= all
    ensures DataOf(fs, id) <= DataOf(all, id)
    decreases |all|
  {
    if |fs| < |all| {
      DataOfPrefix(fs, all[..|all| - 1], id);
    } else {
      assert fs == all;
    }
  }

  /** What a sound world says of the two ends. */
  lemma SoundMeans(cfg: Config, k: nat, app: seq<Frame>, w: World)
    requires Sound(cfg, k, app, w)
    ensures w.frames <= app && UplinkRun.HaltsLast(w.up.effects)
    ensures !w.aborted ==> Flatten(w.up.applied) == EncodeAll(w.frames)
    ensures Accounted(OwnCell(k, w)) && w.tale.accepted <= DataOf(app, k)
    ensures k in w.s.streams && w.frames == app ==> w.tale.accepted == DataOf(app, k)
    ensures DownlinkRun.Sound(w.down) && Downstream(k, w) && w.tale.queued <= w.tale.fromBackend
    ensures |w.tale.queued| <= INITIAL_STREAM_WINDOW + WindowTotal(w.frames, k)
    ensures k in w.s.streams ==> WithinGrants(w.s.streams[k], w.tale, w.frames, k)
  {
    hide Inv, UplinkRun.Sound, DownlinkRun.Sound, Accounted, DataOf, OpenedIn, EncodeAll, Flatten, Expand;
    hide RelayWorld.PayloadOf, UplinkRun.HaltsLast, WindowTotal, WithinGrants;
    EncodedPrefixIsFramePrefix(w.frames, app);
    DataOfPrefix(w.frames, app, k);
    assert Of(History(k, w), k) == w.tale;
  }

  /**
   * A lane from the app to its backend: whatever the bridge, the network and the session do, and whatever
   * goes on beside this lane, the bytes on the backend's socket are a prefix of the DATA the app sent for
   * the stream, as long as the ring has room for what closes there, or keeps the stream anyway.
   */
  lemma LaneBackendGetsPrefixOfApp(cfg: Config, pool: Charge, k: nat, app: seq<Frame>, events: seq<Event>)
    requires Guarded(cfg, pool, k, app, events)
    ensures GoodConfig(cfg) && AllFit(app, MAX_PAYLOAD)
    ensures var tale := Run(cfg, pool, k, app, events).tale;
      && tale.written <= DataOf(app, k)
      && (tale.phase.Writing? ==> tale.written + tale.phase.left <= DataOf(app, k))
  {
    hide Sound, Run, DataOf, Guarded;
    GuardedSound(cfg, pool, k, app, events);
    SoundMeans(cfg, k, app, Run(cfg, pool, k, app, events));
  }

  /** And back: what the app is given on the lane is a prefix of what the backend sent. */
  lemma LaneAppGetsPrefixOfBackend(cfg: Config, pool: Charge, k: nat, app: seq<Frame>, events: seq<Event>)
    requires Guarded(cfg, pool, k, app, events)
    ensures GoodConfig(cfg) && AllFit(app, MAX_PAYLOAD)
    ensures var w := Run(cfg, pool, k, app, events);
      RelayWorld.PayloadOf(Expand(Flatten(w.down.posted)), k) <= w.tale.fromBackend
  {
    hide Sound, Run, Guarded, Expand, Flatten, DownlinkRun.Sound, Accounted, RelayWorld.PayloadOf;
    GuardedSound(cfg, pool, k, app, events);
    var w := Run(cfg, pool, k, app, events);
    SoundMeans(cfg, k, app, w);
    DownlinkRun.PostedPrefix(w.down, k);
    RelayWorld.PayloadOfPrefix(Expand(Flatten(w.down.posted)), Expand(w.down.pushed), k);
  }

  /** On the lane too the app is given no more than the window and its own WINDOW frames allow. */
  lemma LaneAppIsNeverOversent(cfg: Config, pool: Charge, k: nat, app: seq<Frame>, events: seq<Event>)
    requires Guarded(cfg, pool, k, app, events)
    ensures GoodConfig(cfg) && AllFit(app, MAX_PAYLOAD)
    ensures var w := Run(cfg, pool, k, app, events);
      && (k in w.s.streams ==>
            w.s.streams[k].sendCredit + |w.tale.queued| <= INITIAL_STREAM_WINDOW + WindowTotal(w.frames, k))
      && |RelayWorld.PayloadOf(Expand(Flatten(w.down.posted)), k)| <= INITIAL_STREAM_WINDOW + WindowTotal(app, k)
  {
    hide Sound, Run, Guarded, Expand, Flatten, DownlinkRun.Sound, Accounted, RelayWorld.PayloadOf, WindowTotal;
    GuardedSound(cfg, pool, k, app, events);
    var w := Run(cfg, pool, k, app, events);
    SoundMeans(cfg, k, app, w);
    DownlinkRun.PostedPrefix(w.down, k);
    RelayWorld.PayloadOfPrefix(Expand(Flatten(w.down.posted)), Expand(w.down.pushed), k);
    RelayWorld.WindowTotalOfPrefix(w.frames, app, k);
  }

  /** No frame of the lane takes effect twice, and none out of order. */
  lemma LaneFramesTakeEffectOnce(cfg: Config, pool: Charge, k: nat, app: seq<Frame>, events: seq<Event>)
    requires Guarded(cfg, pool, k, app, events)
    ensures GoodConfig(cfg) && AllFit(app, MAX_PAYLOAD)
    ensures var w := Run(cfg, pool, k, app, events);
      w.frames <= app && (!w.aborted ==> Flatten(w.up.applied) == EncodeAll(w.frames))
      && UplinkRun.HaltsLast(w.up.effects)
  {
    hide Sound, Run, Guarded;
    GuardedSound(cfg, pool, k, app, events);
    SoundMeans(cfg, k, app, Run(cfg, pool, k, app, events));
  }

  /** With all the app's frames applied and a live stream's buffer empty, its socket has all its DATA. */
  lemma LaneQuietMeansAllDelivered(cfg: Config, pool: Charge, k: nat, app: seq<Frame>, events: seq<Event>)
    requires Guarded(cfg, pool, k, app, events)
    ensures GoodConfig(cfg) && AllFit(app, MAX_PAYLOAD)
    ensures var w := Run(cfg, pool, k, app, events);
      && w.frames == app && k in w.s.streams && !w.tale.phase.Stopped? && w.s.streams[k].pendingWriteBytes == 0
      ==> w.tale.written == DataOf(app, k)
  {
    hide Sound, Run, Guarded, DataOf;
    GuardedSound(cfg, pool, k, app, events);
    var w := Run(cfg, pool, k, app, events);
    SoundMeans(cfg, k, app, w);
    if k in w.s.streams && !w.tale.phase.Stopped? && w.s.streams[k].pendingWriteBytes == 0 {
      RelayWorld.NothingUnwritten(OwnCell(k, w));
    }
  }

  /**
   * Why the ring matters: once a stream is over, its first body sent again takes effect again exactly when
   * its lane is gone with its tombstone, the batch is otherwise valid and the budget has room. While the
   * lane is there it is a duplicate or out of order.
   */
  lemma FirstBodyRepeatsIff(cfg: Config, s: State, k: nat, body: Bytes, frames: seq<Frame>, admits: seq<bool>)
    requires GoodConfig(cfg) && cfg.UsesLanes() && 0 < k <= MAX_STREAM_ID && !s.closed
    requires Readable(cfg, body) == Some(frames) && AllOn(frames, k) && |admits| == |frames|
    requires frames != [] && frames[0].kind == OPEN
    requires k in s.lanes ==> s.lanes[k].up.lastSequence >= 1
    ensures var (t, answer) := UpOnLane(cfg, s, k, 1, body, admits);
      (k in s.lanes ==> t == s)
      && (k !in s.lanes ==>
            (TookEffect(answer) <==>
               FreshOpens(TrialOf(s), frames) && ValidateRest(TrialOf(s), frames).Some?
               && Reserved(cfg, AddLane(s, k), frames).Some?))
  {
    hide Readable, Validate, ValidateRest, FreshOpens, Apply, Reserved, Release, OnlyLate;
    ValidateIff(TrialOf(s), frames);
    if k !in s.lanes {
      SameTrial(cfg, s, AddLane(s, k));
    }
  }
}

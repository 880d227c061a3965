/** What a session does to one of its carriers: each step of a stream of its own queues a run of frames on it. */
module OneCarrier {
  import opened Octets
  import opened Frames
  import opened Limits
  import opened Tombstones
  import opened Queue
  import opened Streams
  import opened SessionState
  import opened Batch
  import opened SessionSteps

  function PushAll(q: seq<Frame>, fs: seq<Frame>, maxPayload: nat): seq<Frame> {
    if fs == [] then q else Push(PushAll(q, fs[..|fs| - 1], maxPayload), fs[|fs| - 1], maxPayload)
  }

  lemma {:induction false} PushAllAppend(q: seq<Frame>, fs: seq<Frame>, gs: seq<Frame>, maxPayload: nat)
    ensures PushAll(PushAll(q, fs, maxPayload), gs, maxPayload) == PushAll(q, fs + gs, maxPayload)
  {
    hide Push;
    if |gs| == 0 {
      assert fs + gs == fs;
    } else {
      PushAllAppend(q, fs, gs[..|gs| - 1], maxPayload);
      assert (fs + gs)[..|fs + gs| - 1] == fs + gs[..|gs| - 1];
    }
  }

  /** The carrier after `fs` have been queued on it. */
  function WithQueued(cfg: Config, lane: Lane, fs: seq<Frame>): Lane
    requires GoodConfig(cfg)
  {
    lane.(down := lane.down.(queue := PushAll(lane.down.queue, fs, cfg.limits.maxFramePayload)))
  }

  /** From s to t carrier `k` has had `fs` queued on it, and nothing else. */
  ghost predicate Queued(cfg: Config, k: nat, s: State, t: State, fs: seq<Frame>)
    requires GoodConfig(cfg)
  {
    && t.closed == s.closed && (k in t.lanes <==> k in s.lanes)
    && (k in s.lanes ==> t.lanes[k] == WithQueued(cfg, s.lanes[k], fs))
  }

  lemma NoneQueued(cfg: Config, k: nat, s: State, t: State, none: seq<Frame>)
    requires GoodConfig(cfg) && t.closed == s.closed && |none| == 0
    requires (k in t.lanes <==> k in s.lanes) && (k in s.lanes ==> t.lanes[k] == s.lanes[k])
    ensures Queued(cfg, k, s, t, none)
  {
    hide Push;
  }

  lemma QueuedTrans(cfg: Config, k: nat, s: State, t: State, u: State, fs: seq<Frame>, gs: seq<Frame>)
    requires GoodConfig(cfg) && Queued(cfg, k, s, t, fs) && Queued(cfg, k, t, u, gs)
    ensures Queued(cfg, k, s, u, fs + gs)
  {
    hide PushAll;
    if k in s.lanes {
      PushAllAppend(s.lanes[k].down.queue, fs, gs, cfg.limits.maxFramePayload);
    }
  }

  lemma OnePushed(q: seq<Frame>, f: Frame, maxPayload: nat)
    ensures PushAll(q, [f], maxPayload) == Push(q, f, maxPayload)
  {
    hide Push;
    assert [f][..0] == [];
    assert PushAll(q, [f][..0], maxPayload) == q;
  }

  lemma FrameQueued(cfg: Config, k: nat, s: State, f: Frame)
    requires GoodConfig(cfg) && cfg.LaneOf(f.id) == k
    ensures QueueFrame(cfg, s, f).Some? ==> Queued(cfg, k, s, QueueFrame(cfg, s, f).value, [f])
  {
    hide Push, PushAll, Place, PushCharge, SessionAdmits, PoolAdmits;
    if k in s.lanes {
      OnePushed(s.lanes[k].down.queue, f, cfg.limits.maxFramePayload);
    }
  }

  // A batch.

  /** The CLOSE frame a refused OPEN is answered with. */
  function RefusalOf(cfg: Config, a: Acc, f: Frame, admit: bool): seq<Frame>
    requires GoodConfig(cfg)
  {
    if f.id != 0 && f.kind == OPEN && (|a.s.streams| >= cfg.limits.maxStreamsPerSession || !admit)
       && QueueFrame(cfg, RememberClosed(cfg, a.s, f.id), Frame(CLOSE, f.id, [])).Some? then [Frame(CLOSE, f.id, [])]
    else []
  }

  function Refusals(cfg: Config, a: Acc, frames: seq<Frame>, admits: seq<bool>): seq<Frame>
    requires GoodConfig(cfg) && |admits| == |frames|
    decreases |frames|
  {
    if frames == [] then []
    else
      RefusalOf(cfg, a, frames[0], admits[0]) +
      match ApplyFrame(cfg, a, frames[0], admits[0])
      case Going(a') => Refusals(cfg, a', frames[1..], admits[1..])
      case _ => []
  }

  ghost predicate AppliedQueued(cfg: Config, k: nat, s: State, r: Applied, fs: seq<Frame>)
    requires GoodConfig(cfg)
  {
    match r
    case Going(a) => Queued(cfg, k, s, a.s, fs)
    case Aborted(a) => Queued(cfg, k, s, a.s, fs)
    case NilStream => true
  }

  /** A closure leaves a carrier whose own stream is not the one forgotten. */
  lemma RememberKeepsLane(cfg: Config, k: nat, s: State, id: nat)
    requires GoodConfig(cfg) && (cfg.UsesLanes() ==> k !in s.tombs)
    ensures Queued(cfg, k, s, RememberClosed(cfg, s, id), [])
  {
    hide DropLane, Remember, Queued;
    var remembered := s.(tombs := Remember(s.tombs, id, cfg.limits.maxClosedStreamIDs));
    match Evicted(s.tombs, id, cfg.limits.maxClosedStreamIDs)
    case Some(oldest) =>
      DropLaneShape(remembered, oldest);
      NoneQueued(cfg, k, s, RememberClosed(cfg, s, id), []);
    case None => NoneQueued(cfg, k, s, remembered, []);
  }

  lemma CloseKeepsLane(cfg: Config, k: nat, s: State, id: nat)
    requires GoodConfig(cfg) && id in s.streams && (cfg.UsesLanes() ==> k !in s.tombs)
    ensures Queued(cfg, k, s, CloseStream(cfg, s, id), [])
  {
    hide RememberClosed, Queued, WriteCharge;
    var gone := Release(s, WriteCharge(s.streams[id])).(streams := s.streams - {id});
    ReleaseShape(s, WriteCharge(s.streams[id]));
    NoneQueued(cfg, k, s, gone, []);
    RememberKeepsLane(cfg, k, gone, id);
    var none: seq<Frame> := [];
    QueuedTrans(cfg, k, s, gone, CloseStream(cfg, s, id), none, none);
    assert none + none == none;
  }

  /** `k` carries the frame's stream, which is not a remembered one if the frame opens or ends it. */
  predicate Carries(cfg: Config, k: nat, s: State, f: Frame) {
    cfg.LaneOf(f.id) == k && (cfg.UsesLanes() && (f.kind == OPEN || f.id in s.streams) ==> k !in s.tombs)
  }

  lemma ApplyFrameQueued(cfg: Config, k: nat, a: Acc, f: Frame, admit: bool)
    requires GoodConfig(cfg) && Carries(cfg, k, a.s, f)
    ensures AppliedQueued(cfg, k, a.s, ApplyFrame(cfg, a, f, admit), RefusalOf(cfg, a, f, admit))
  {
    hide Queued, QueueFrame, RememberClosed, CloseStream, AcceptData, AddCredit;
    var r, close := RememberClosed(cfg, a.s, f.id), Frame(CLOSE, f.id, []);
    if f.kind == OPEN {
      RememberKeepsLane(cfg, k, a.s, f.id);
    }
    FrameQueued(cfg, k, r, close);
    if f.kind == OPEN && QueueFrame(cfg, r, close).Some? {
      QueuedTrans(cfg, k, a.s, r, QueueFrame(cfg, r, close).value, [], [close]);
      assert [] + [close] == [close];
    }
    if f.id in a.s.streams {
      if f.kind == CLOSE {
        CloseKeepsLane(cfg, k, a.s, f.id);
      }
    }
    match ApplyFrame(cfg, a, f, admit)
    case Going(b) =>
      if b.s.lanes == a.s.lanes && b.s.closed == a.s.closed {
        NoneQueued(cfg, k, a.s, b.s, []);
      }
    case _ =>
  }

  lemma {:induction false} ApplyQueued(cfg: Config, a: Acc, frames: seq<Frame>, admits: seq<bool>)
    requires GoodConfig(cfg) && !cfg.UsesLanes() && |admits| == |frames|
    ensures AppliedQueued(cfg, 0, a.s, Apply(cfg, a, frames, admits), Refusals(cfg, a, frames, admits))
    decreases |frames|
  {
    hide Queued, ApplyFrame, RefusalOf;
    if |frames| == 0 {
      NoneQueued(cfg, 0, a.s, a.s, Refusals(cfg, a, frames, admits));
    } else {
      ApplyFrameQueued(cfg, 0, a, frames[0], admits[0]);
      var fs := RefusalOf(cfg, a, frames[0], admits[0]);
      match ApplyFrame(cfg, a, frames[0], admits[0])
      case Going(b) =>
        ApplyQueued(cfg, b, frames[1..], admits[1..]);
        var gs := Refusals(cfg, b, frames[1..], admits[1..]);
        match Apply(cfg, b, frames[1..], admits[1..]) {
          case Going(c) => QueuedTrans(cfg, 0, a.s, b.s, c.s, fs, gs);
          case Aborted(c) => QueuedTrans(cfg, 0, a.s, b.s, c.s, fs, gs);
          case NilStream =>
        }
      case _ =>
        assert fs + [] == fs;
    }
  }

  // Backend steps.

  function QueuedIf(ok: bool, f: Frame): seq<Frame> {
    if ok then [f] else []
  }

  lemma FrameQueuedAfter(cfg: Config, k: nat, s: State, before: State, f: Frame)
    requires GoodConfig(cfg) && cfg.LaneOf(f.id) == k && Queued(cfg, k, s, before, [])
    ensures QueueFrame(cfg, before, f).Some? ==> Queued(cfg, k, s, QueueFrame(cfg, before, f).value, [f])
  {
    hide Queued, QueueFrame;
    FrameQueued(cfg, k, before, f);
    if QueueFrame(cfg, before, f).Some? {
      QueuedTrans(cfg, k, s, before, QueueFrame(cfg, before, f).value, [], [f]);
      assert [] + [f] == [f];
    }
  }

  lemma DrainedQueued(cfg: Config, k: nat, s: State, id: nat, count: nat)
    requires GoodConfig(cfg) && cfg.LaneOf(id) == k
    ensures var (t, ok) := BackendDrained(cfg, s, id, count);
      Queued(cfg, k, s, t, QueuedIf(ok, Frame(WINDOW, id, WindowPayload(count % TWO_32)))) && (s.closed ==> !ok)
  {
    hide Queued, QueueFrame, Release, Drain, PutUint32;
    NoneQueued(cfg, k, s, s, []);
    if !s.closed && id in s.streams && Drain(s.streams[id], count).Some? {
      ReleaseShape(s, Charge(count, 0));
      var drained := Release(s, Charge(count, 0)).(streams := s.streams[id := Drain(s.streams[id], count).value]);
      NoneQueued(cfg, k, s, drained, []);
      FrameQueuedAfter(cfg, k, s, drained, Frame(WINDOW, id, WindowPayload(count % TWO_32)));
    }
  }

  lemma ReadQueued(cfg: Config, k: nat, s: State, id: nat, data: Bytes)
    requires GoodConfig(cfg) && cfg.LaneOf(id) == k
    ensures var (t, ok) := BackendData(cfg, s, id, data);
      Queued(cfg, k, s, t, QueuedIf(ok, Frame(DATA, id, data))) && (s.closed ==> !ok)
  {
    hide Queued, QueueFrame;
    NoneQueued(cfg, k, s, s, []);
    if !s.closed && id in s.streams {
      var spent := s.(streams := s.streams[id := SpendCredit(s.streams[id], |data|)]);
      NoneQueued(cfg, k, s, spent, []);
      FrameQueuedAfter(cfg, k, s, spent, Frame(DATA, id, data));
    }
  }

  /** When a backend is gone: its stream is closed and CLOSE queued, or the session closes, or nothing. */
  lemma GoneQueued(cfg: Config, k: nat, s: State, id: nat, backend: int)
    requires GoodConfig(cfg) && cfg.LaneOf(id) == k && k in s.lanes
    requires cfg.UsesLanes() && id in s.streams ==> k !in s.tombs
    ensures var t := BackendClosed(cfg, s, id, backend);
      if t.closed && !s.closed then
        k in t.lanes && t.lanes[k] == Emptied(s.lanes[k])
      else Queued(cfg, k, s, t, QueuedIf(id in s.streams && id !in t.streams, Frame(CLOSE, id, [])))
  {
    hide Queued, QueueFrame, CloseStream;
    NoneQueued(cfg, k, s, s, []);
    if !s.closed && id in s.streams && s.streams[id].backend == backend {
      var gone := CloseStream(cfg, s, id);
      CloseStreamShape(cfg, s, id);
      CloseKeepsLane(cfg, k, s, id);
      FrameQueuedAfter(cfg, k, s, gone, Frame(CLOSE, id, []));
      KeptLane(cfg, k, s, gone);
      QueueFrameShape(cfg, gone, Frame(CLOSE, id, []));
    }
  }

  lemma KeptLane(cfg: Config, k: nat, s: State, t: State)
    requires GoodConfig(cfg) && Queued(cfg, k, s, t, []) && k in s.lanes
    ensures t.closed == s.closed && k in t.lanes && t.lanes[k] == s.lanes[k]
  {
    hide Push;
  }
}

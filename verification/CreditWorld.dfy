/**
 * Credit over whole runs: what the relay has granted a stream's client against what its window still
 * allows. An app that keeps within the credit posted to it never overruns a receive window.
 */
module CreditWorld {
  import opened Octets
  import opened Outcomes
  import opened Frames
  import opened Limits
  import opened Queue
  import opened Streams
  import opened Poll
  import opened SessionState
  import opened Batch
  import opened BatchLaws
  import opened SessionSteps
  import opened OneCarrier
  import opened Tales
  import opened RelayWorld

  /** Granted so far and still buffered together are within what the stream has accepted. */
  ghost predicate Owed(s: State, h: map<nat, Tale>, fs: seq<Frame>, id: nat, granted: nat) {
    && (id in s.streams ==> granted + s.streams[id].pendingWriteBytes <= |Of(h, id).accepted|)
    && (!OpenedIn(fs, id) ==> granted == 0)
  }

  // One uplink batch.

  lemma FrameOwed(cfg: Config, a: Acc, h: map<nat, Tale>, fs: seq<Frame>, f: Frame, admit: bool, id: nat, granted: nat)
    requires GoodConfig(cfg) && Owed(a.s, h, fs, id, granted) && Applicable(cfg, a.s, f)
    requires f.kind == OPEN ==> !OpenedIn(fs, f.id)
    ensures match ApplyFrame(cfg, a, f, admit)
      case Going(b) => Owed(b.s, LogFrame(cfg, a, h, f, admit), fs + [f], id, granted)
      case Aborted(b) => Owed(b.s, LogFrame(cfg, a, h, f, admit), fs + [f], id, granted)
      case NilStream => true
  {
    hide OpenedIn, RememberClosed, QueueFrame, CloseStream, Amount, Coalesces;
    OpenedSnoc(fs, f, id);
    RememberClosedShape(cfg, a.s, f.id);
    QueueFrameShape(cfg, RememberClosed(cfg, a.s, f.id), Frame(CLOSE, f.id, []));
    if f.id in a.s.streams {
      CloseStreamShape(cfg, a.s, f.id);
    }
  }

  ghost predicate BatchOwed(cfg: Config, a: Acc, h: map<nat, Tale>, fs: seq<Frame>, frames: seq<Frame>,
                            admits: seq<bool>, id: nat, granted: nat)
    requires GoodConfig(cfg) && |admits| == |frames|
  {
    var after, done := Log(cfg, a, h, frames, admits), fs + frames[..Reached(cfg, a, frames, admits)];
    match Apply(cfg, a, frames, admits)
    case Going(b) => Owed(b.s, after, done, id, granted)
    case Aborted(b) => Owed(b.s, after, done, id, granted)
    case NilStream => true
  }

  lemma BatchOwedNext(cfg: Config, a: Acc, h: map<nat, Tale>, fs: seq<Frame>, frames: seq<Frame>, admits: seq<bool>,
                      id: nat, granted: nat)
    requires GoodConfig(cfg) && |admits| == |frames| && frames != []
    requires match ApplyFrame(cfg, a, frames[0], admits[0])
      case Going(b) =>
        BatchOwed(cfg, b, LogFrame(cfg, a, h, frames[0], admits[0]), fs + [frames[0]], frames[1..], admits[1..], id,
                  granted)
      case Aborted(b) => Owed(b.s, LogFrame(cfg, a, h, frames[0], admits[0]), fs + [frames[0]], id, granted)
      case NilStream => true
    ensures BatchOwed(cfg, a, h, fs, frames, admits, id, granted)
  {
    hide Owed, ApplyFrame, LogFrame;
    match ApplyFrame(cfg, a, frames[0], admits[0])
    case Going(b) =>
      var n := Reached(cfg, b, frames[1..], admits[1..]);
      assert (fs + [frames[0]]) + frames[1..][..n] == fs + frames[..n + 1];
    case Aborted(_) => assert fs + [frames[0]] == fs + frames[..1];
    case NilStream =>
  }

  lemma BatchOwedEnd(cfg: Config, a: Acc, h: map<nat, Tale>, fs: seq<Frame>, frames: seq<Frame>, admits: seq<bool>,
                     id: nat, granted: nat)
    requires GoodConfig(cfg) && |admits| == |frames| == 0 && Owed(a.s, h, fs, id, granted)
    ensures BatchOwed(cfg, a, h, fs, frames, admits, id, granted)
  {
    hide Owed;
    assert fs + frames[..0] == fs;
  }

  lemma {:induction false} ApplyOwed(cfg: Config, t: Trial, a: Acc, h: map<nat, Tale>, fs: seq<Frame>,
                                     frames: seq<Frame>, admits: seq<bool>, history: seq<nat>, live: set<nat>,
                                     id: nat, granted: nat)
    requires Underway(cfg, t, a, frames, history, live) && |admits| == |frames|
    requires AllClientShaped(frames) && OpensOnce(fs + frames) && Owed(a.s, h, fs, id, granted)
    ensures GoodConfig(cfg) && BatchOwed(cfg, a, h, fs, frames, admits, id, granted)
    decreases |frames|
  {
    hide *;
    UnderwayGood(cfg, t, a, frames, history, live);
    if |frames| == 0 {
      BatchOwedEnd(cfg, a, h, fs, frames, admits, id, granted);
    } else {
      var f := frames[0];
      RestClientShaped(frames);
      OpensOnceNext(fs, frames);
      ValidatedIsApplicable(cfg, t, a.s, f, history);
      FrameOwed(cfg, a, h, fs, f, admits[0], id, granted);
      UnderwayStep(cfg, t, a, frames, admits[0], history, live);
      if ApplyFrame(cfg, a, f, admits[0]).Going? {
        var b := ApplyFrame(cfg, a, f, admits[0]).acc;
        ApplyOwed(cfg, ValidateFrame(t, f).value, b, LogFrame(cfg, a, h, f, admits[0]), fs + [f], frames[1..],
                  admits[1..], IdsAfter(cfg, Ids(a.s.streams.Keys, history), f, admits[0]).history,
                  LiveAfter(live, f), id, granted);
      }
      BatchOwedNext(cfg, a, h, fs, frames, admits, id, granted);
    }
  }

  // Every step of the world.

  ghost predicate Credited(w: World) {
    forall id: nat :: Owed(w.s, w.tales, w.frames, id, WindowTotal(w.down.pushed, id))
  }

  /** A step that accepts nothing, opens nothing, buffers nothing more and queues no WINDOW. */
  lemma QuietCredited(w: World, w': World)
    requires Credited(w) && w'.frames == w.frames
    requires forall id | id in w'.s.streams ::
      id in w.s.streams && w'.s.streams[id].pendingWriteBytes == w.s.streams[id].pendingWriteBytes
    requires forall id: nat :: |Of(w'.tales, id).accepted| == |Of(w.tales, id).accepted|
    requires forall id: nat :: WindowTotal(w'.down.pushed, id) == WindowTotal(w.down.pushed, id)
    ensures Credited(w')
  {
    hide OpenedIn, WindowTotal;
    forall id: nat
      ensures Owed(w'.s, w'.tales, w'.frames, id, WindowTotal(w'.down.pushed, id))
    {
      assert Owed(w.s, w.tales, w.frames, id, WindowTotal(w.down.pushed, id));
    }
  }

  lemma {:induction false} HearsNoWindow(pushed: seq<Frame>, fs: seq<Frame>, id: nat)
    requires forall i | 0 <= i < |fs| :: fs[i].kind != WINDOW
    ensures WindowTotal(pushed + fs, id) == WindowTotal(pushed, id)
  {
    if |fs| == 0 {
      assert pushed + fs == pushed;
    } else {
      var init, last := fs[..|fs| - 1], fs[|fs| - 1];
      HearsNoWindow(pushed, init, id);
      assert (pushed + fs)[..|pushed + fs| - 1] == pushed + init;
    }
  }

  lemma {:induction false} RefusalsAreCloses(cfg: Config, a: Acc, frames: seq<Frame>, admits: seq<bool>)
    requires GoodConfig(cfg) && |admits| == |frames|
    ensures forall i | 0 <= i < |Refusals(cfg, a, frames, admits)| :: Refusals(cfg, a, frames, admits)[i].kind == CLOSE
    decreases |frames|
  {
    hide ApplyFrame, QueueFrame, RememberClosed;
    if |frames| > 0 && ApplyFrame(cfg, a, frames[0], admits[0]).Going? {
      RefusalsAreCloses(cfg, ApplyFrame(cfg, a, frames[0], admits[0]).acc, frames[1..], admits[1..]);
    }
  }

  /** What an applied commit leaves each stream owed. */
  lemma CommitOwed(cfg: Config, s1: State, a: Acc, t: State, answer: UpAnswer, h: map<nat, Tale>, fs: seq<Frame>,
                   frames: seq<Frame>, admits: seq<bool>, sequence: nat, body: Bytes, id: nat, granted: nat)
    requires !cfg.UsesLanes() && Inv(cfg, s1, NOTHING) && !s1.closed && 0 in s1.lanes && GoodConfig(cfg)
    requires AllFit(frames, MAX_PAYLOAD) && AllClientShaped(frames) && |admits| == |frames|
    requires Validate(TrialOf(s1), frames).Some? && Reserved(cfg, s1, frames) == Some(a)
    requires OpensOnce(fs + frames) && Owed(s1, h, fs, id, granted)
    requires Ends(Apply(cfg, a, frames, admits), t, answer, sequence, body)
    ensures Owed(t, Log(cfg, a, h, frames, admits), fs + frames[..Reached(cfg, a, frames, admits)], id, granted)
  {
    hide *;
    LanesAreReady(cfg, s1, frames);
    AcceptedIf(cfg, s1, frames);
    ReservedUnderway(cfg, s1, frames);
    SameOwed(s1, a.s, h, fs, id, granted);
    ApplyOwed(cfg, TrialOf(s1), a, h, fs, frames, admits, s1.tombs, s1.streams.Keys, id, granted);
    EndsOwed(cfg, a, t, answer, h, fs, frames, admits, sequence, body, id, granted);
  }

  lemma SameOwed(s: State, t: State, h: map<nat, Tale>, fs: seq<Frame>, id: nat, granted: nat)
    requires Owed(s, h, fs, id, granted) && t == s.(pending := t.pending, pool := t.pool)
    ensures Owed(t, h, fs, id, granted)
  {
    hide OpenedIn;
  }

  lemma EndsOwed(cfg: Config, a: Acc, t: State, answer: UpAnswer, h: map<nat, Tale>, fs: seq<Frame>, frames: seq<Frame>,
                 admits: seq<bool>, sequence: nat, body: Bytes, id: nat, granted: nat)
    requires GoodConfig(cfg) && |admits| == |frames| && BatchOwed(cfg, a, h, fs, frames, admits, id, granted)
    requires Ends(Apply(cfg, a, frames, admits), t, answer, sequence, body)
    ensures Owed(t, Log(cfg, a, h, frames, admits), fs + frames[..Reached(cfg, a, frames, admits)], id, granted)
  {
    hide Apply, Log, OpenedIn, Release, Reached;
    match Apply(cfg, a, frames, admits)
    case Going(b) => ReleaseShape(b.s, b.left);
    case Aborted(b) => ReleaseShape(b.s, b.left);
    case NilStream =>
  }

  /** A commit that applies a batch. */
  lemma ApplyingCredited(cfg: Config, app: seq<Frame>, w: World, worker: nat, admits: seq<bool>)
    requires Sound(cfg, app, w) && Credited(w) && GoodConfig(cfg) && OpensOnce(app)
    requires worker in w.up.workers && !w.aborted
    requires var r := w.up.workers[worker];
      var answer := UpFinishes(cfg, w.s, r.sequence, r.body, admits).1;
      answer.Acked? || answer.Aborted?
    ensures Credited(Commits(cfg, w, worker, admits))
  {
    hide Inv, AllTold, UplinkRun.Sound, DownlinkRun.Sound, EncodeAll, Flatten, Downstream, UpFinishes, Ends, Owed;
    hide Readable, Validate, Apply, WindowTotal, HaltsOnce;
    hide Reserved, Log, Reached, Refusals, Hear, OpensOnce, TrialOf, UplinkRun.Finish;
    var r := w.up.workers[worker];
    var (t, answer) := UpFinishes(cfg, w.s, r.sequence, r.body, admits);
    var s1 := AfterParse(w.s);
    FinishCases(cfg, w.s, r.sequence, r.body, admits);
    var frames := Readable(cfg, r.body).value;
    var a := Reserved(cfg, s1, frames).value;
    NextFramesAreApps(cfg, app, w, worker, frames);
    PrefixOpensOnce(w.frames + frames, app);
    SetUpInv(cfg, w.s, 0, w.s.lanes[0].up.(active := false), NOTHING);
    HearIs(cfg, w.down, Refusals(cfg, a, frames, admits));
    RefusalsAreCloses(cfg, a, frames, admits);
    forall id: nat
      ensures var w' := Commits(cfg, w, worker, admits);
        Owed(w'.s, w'.tales, w'.frames, id, WindowTotal(w'.down.pushed, id))
    {
      HearsNoWindow(w.down.pushed, Refusals(cfg, a, frames, admits), id);
      SameOwedStreams(w.s, s1, w.tales, w.frames, id, WindowTotal(w.down.pushed, id));
      CommitOwed(cfg, s1, a, t, answer, w.tales, w.frames, frames, admits, r.sequence, r.body, id,
                 WindowTotal(w.down.pushed, id));
    }
  }

  lemma SameOwedStreams(s: State, t: State, h: map<nat, Tale>, fs: seq<Frame>, id: nat, granted: nat)
    requires Owed(s, h, fs, id, granted) && t.streams == s.streams
    ensures Owed(t, h, fs, id, granted)
  {
    hide OpenedIn;
  }

  lemma CommitsCredited(cfg: Config, app: seq<Frame>, w: World, worker: nat, admits: seq<bool>)
    requires Sound(cfg, app, w) && Credited(w) && GoodConfig(cfg) && OpensOnce(app)
    requires RingHolds(cfg, w, UpCommits(worker, admits))
    ensures Credited(Commits(cfg, w, worker, admits))
  {
    hide UpFinishes, OpensOnce, RingHolds, Coupled, AllTold, Upstream, Downstream, UplinkRun.Sound, DownlinkRun.Sound;
    hide Credited, Commits, HaltsOnce;
    if worker in w.up.workers {
      HeldRingIsRegular(cfg, w, worker, admits);
      var r := w.up.workers[worker];
      var answer := UpFinishes(cfg, w.s, r.sequence, r.body, admits).1;
      if answer.Acked? || answer.Aborted? {
        ApplyingCredited(cfg, app, w, worker, admits);
      } else {
        QuietCommitCredited(cfg, w, worker, admits);
      }
    } else {
      NobodyCommits(cfg, w, worker, admits);
    }
  }

  lemma QuietCommitCredited(cfg: Config, w: World, worker: nat, admits: seq<bool>)
    requires Credited(w) && GoodConfig(cfg) && worker in w.up.workers
    requires var r := w.up.workers[worker];
      var answer := UpFinishes(cfg, w.s, r.sequence, r.body, admits).1;
      !answer.Acked? && !answer.Aborted? && !answer.Crashed?
    ensures Credited(Commits(cfg, w, worker, admits))
  {
    hide Readable, UpFinishes, Log, Hear, Refusals, Reached, Ends, Credited, UplinkRun.Finish, WindowTotal;
    var r := w.up.workers[worker];
    FinishCases(cfg, w.s, r.sequence, r.body, admits);
    QuietCredited(w, Commits(cfg, w, worker, admits));
  }

  lemma LiveIsOpened(cfg: Config, app: seq<Frame>, w: World, id: nat)
    requires Sound(cfg, app, w)
    ensures id in w.s.streams ==> OpenedIn(w.frames, id)
  {
    hide Coupled, UplinkRun.Sound, DownlinkRun.Sound, Upstream, Downstream, HaltsOnce, Accounted, DataOf, OpenedIn;
    assert Told(w.s, w.tales, w.frames, id);
  }

  /** A drain report gives back exactly what it grants. */
  lemma SocketWritesCredited(cfg: Config, app: seq<Frame>, w: World, id: nat, count: nat)
    requires Sound(cfg, app, w) && Credited(w) && GoodConfig(cfg) && AllFit(app, MAX_PAYLOAD)
    ensures Credited(RelayWorld.Step(cfg, app, w, RelayWorld.SocketWrites(id, count)))
  {
    hide Inv, AllTold, UplinkRun.Sound, DownlinkRun.Sound, Upstream, Downstream, WindowTotal, OpenedIn, Owed, HaltsOnce;
    hide Hear, PutUint32, WindowPayload;
    if Of(w.tales, id).phase.Writing? && 0 < count <= |Of(w.tales, id).phase.left| {
      var w' := RelayWorld.Step(cfg, app, w, RelayWorld.SocketWrites(id, count));
      DrainedStreams(cfg, w.s, id, count);
      StreamFacts(cfg, w.s, NOTHING);
      LiveIsOpened(cfg, app, w, id);
      var (s', ok) := BackendDrained(cfg, w.s, id, count);
      hide BackendDrained, Take;
      if ok {
        HearIs(cfg, w.down, [Frame(WINDOW, id, WindowPayload(count % TWO_32))]);
      }
      forall k: nat
        ensures Owed(w'.s, w'.tales, w'.frames, k, WindowTotal(w'.down.pushed, k))
      {
        if ok {
          GrantOf(w.down.pushed, id, count, k);
        }
        DrainOwed(w.s, s', w.tales, w'.tales, w.frames, id, count, ok, k, WindowTotal(w.down.pushed, k));
      }
    }
  }

  lemma GrantOf(pushed: seq<Frame>, id: nat, count: nat, k: nat)
    requires 0 < count < TWO_32
    ensures WindowTotal(pushed + [Frame(WINDOW, id, WindowPayload(count % TWO_32))], k)
         == WindowTotal(pushed, k) + if k == id then count else 0
  {
    hide WindowTotal;
    WindowRoundTrip(count, []);
    AppendRefines(pushed, Frame(WINDOW, id, WindowPayload(count)), k);
  }

  lemma DrainedStreams(cfg: Config, s: State, id: nat, count: nat)
    requires GoodConfig(cfg)
    ensures var (t, ok) := BackendDrained(cfg, s, id, count);
      && (ok ==> !s.closed && id in s.streams && Drain(s.streams[id], count).Some?)
      && (t.streams == s.streams
          || (id in s.streams && Drain(s.streams[id], count).Some?
              && t.streams == s.streams[id := Drain(s.streams[id], count).value]))
      && (ok ==> t.streams == s.streams[id := Drain(s.streams[id], count).value])
  {
    hide QueueFrame, Release, Drain, PutUint32;
    ReleaseShape(s, Charge(count, 0));
    if id in s.streams && Drain(s.streams[id], count).Some? {
      QueueFrameShape(cfg, Release(s, Charge(count, 0)).(streams := s.streams[id := Drain(s.streams[id], count).value]),
                      Frame(WINDOW, id, WindowPayload(count % TWO_32)));
    }
  }

  lemma DrainOwed(s: State, t: State, h: map<nat, Tale>, h': map<nat, Tale>, fs: seq<Frame>, id: nat, count: nat,
                  ok: bool, k: nat, granted: nat)
    requires Owed(s, h, fs, k, granted) && |Of(h', k).accepted| == |Of(h, k).accepted|
    requires id in s.streams ==> OpenedIn(fs, id)
    requires ok ==> id in s.streams && Drain(s.streams[id], count).Some?
    requires t.streams == s.streams || (id in s.streams && Drain(s.streams[id], count).Some?
                                        && t.streams == s.streams[id := Drain(s.streams[id], count).value])
    requires ok ==> t.streams == s.streams[id := Drain(s.streams[id], count).value]
    ensures Owed(t, h', fs, k, granted + if ok && k == id then count else 0)
  {
    hide OpenedIn;
  }

  lemma SameStreamsCredited(w: World, w': World)
    requires Credited(w) && w'.frames == w.frames && w'.tales == w.tales && w'.down.pushed == w.down.pushed
    requires forall id | id in w'.s.streams ::
      id in w.s.streams && w'.s.streams[id].pendingWriteBytes == w.s.streams[id].pendingWriteBytes
    ensures Credited(w')
  {
    QuietCredited(w, w');
  }

  lemma PollStreams(cfg: Config, s: State, poll: PollId, why: Wake)
    ensures SessionSteps.PollArrives(cfg, s, 0, poll).0.streams == s.streams
    ensures 0 in s.lanes ==> SessionSteps.PollWakes(cfg, s, 0, s.lanes[0].birth, poll, why).0.streams == s.streams
  {
    hide Enter, Resume, Poll.Acknowledged, LaneOver, Release, ChargeOf;
    if 0 in s.lanes {
      ReleaseShape(s, ChargeOf(Poll.Acknowledged(s.lanes[0].down, poll.cursor)));
    }
  }

  lemma UpBeginStreams(s: State, sequence: nat, body: Bytes)
    ensures UpBegins(s, sequence, body).0.streams == s.streams
  {
  }

  lemma UpStepsKeepPushed(w: World, cfg: Config, e: DownlinkRun.Event)
    requires GoodConfig(cfg) && !e.RelayQueues?
    ensures DownStep(cfg, w.down, e).pushed == w.down.pushed
  {
    hide Enter, Resume;
  }

  lemma TakeWriteCredited(cfg: Config, app: seq<Frame>, w: World, id: nat)
    requires Credited(w) && GoodConfig(cfg) && AllFit(app, MAX_PAYLOAD)
    ensures Credited(RelayWorld.Step(cfg, app, w, RelayWorld.TakeWrite(id)))
  {
    hide Credited, Take, WindowTotal;
    QuietCredited(w, RelayWorld.Step(cfg, app, w, RelayWorld.TakeWrite(id)));
  }

  lemma WriteFinishesCredited(cfg: Config, app: seq<Frame>, w: World, id: nat)
    requires Credited(w) && GoodConfig(cfg) && AllFit(app, MAX_PAYLOAD)
    ensures Credited(RelayWorld.Step(cfg, app, w, RelayWorld.WriteFinishes(id)))
  {
    hide Credited, Take, WindowTotal, Release;
    ReleaseShape(w.s, Charge(QUEUE_ITEM_COST, 1));
    QuietCredited(w, RelayWorld.Step(cfg, app, w, RelayWorld.WriteFinishes(id)));
  }

  lemma ReadDataCredited(cfg: Config, app: seq<Frame>, w: World, id: nat, data: Bytes)
    requires Sound(cfg, app, w) && Credited(w) && GoodConfig(cfg) && AllFit(app, MAX_PAYLOAD)
    ensures Credited(RelayWorld.Step(cfg, app, w, RelayWorld.ReadData(id, data)))
  {
    hide Inv, AllTold, UplinkRun.Sound, DownlinkRun.Sound, Upstream, Downstream, WindowTotal, Credited, QueueFrame;
    hide HaltsOnce, Hear;
    if id in w.s.streams {
      QueueFrameShape(cfg, w.s.(streams := w.s.streams[id := SpendCredit(w.s.streams[id], |data|)]),
                      Frame(DATA, id, data));
    }
    var (t, ok) := BackendData(cfg, w.s, id, data);
    if ok {
      HearIs(cfg, w.down, [Frame(DATA, id, data)]);
    }
    forall k: nat {
      HearsNoWindow(w.down.pushed, [Frame(DATA, id, data)], k);
    }
    QuietCredited(w, RelayWorld.Step(cfg, app, w, RelayWorld.ReadData(id, data)));
  }

  lemma GoneStreams(cfg: Config, s: State, id: nat, backend: int)
    requires GoodConfig(cfg)
    ensures forall k | k in BackendClosed(cfg, s, id, backend).streams ::
      k in s.streams && BackendClosed(cfg, s, id, backend).streams[k] == s.streams[k]
  {
    hide QueueFrame, CloseStream;
    if id in s.streams {
      CloseStreamShape(cfg, s, id);
      QueueFrameShape(cfg, CloseStream(cfg, s, id), Frame(CLOSE, id, []));
    }
  }

  lemma BackendGoneCredited(cfg: Config, app: seq<Frame>, w: World, id: nat, backend: int)
    requires Credited(w) && GoodConfig(cfg) && AllFit(app, MAX_PAYLOAD)
    ensures Credited(RelayWorld.Step(cfg, app, w, RelayWorld.BackendGone(id, backend)))
  {
    hide WindowTotal, Credited, BackendClosed, DownlinkRun.Closed, Push;
    GoneStreams(cfg, w.s, id, backend);
    HearClose(cfg, w.down, id);
    QuietCredited(w, RelayWorld.Step(cfg, app, w, RelayWorld.BackendGone(id, backend)));
  }

  lemma HearClose(cfg: Config, n: DownlinkRun.Net, id: nat)
    requires GoodConfig(cfg)
    ensures forall k: nat :: WindowTotal(Hear(cfg, n, [Frame(CLOSE, id, [])]).pushed, k) == WindowTotal(n.pushed, k)
    ensures forall k: nat :: WindowTotal(DownlinkRun.Closed(n).pushed, k) == WindowTotal(n.pushed, k)
  {
    hide WindowTotal, Push;
    forall k: nat {
      HearsNoWindow(n.pushed, [Frame(CLOSE, id, [])], k);
    }
    assert [Frame(CLOSE, id, [])][..0] == [];
    assert Hear(cfg, n, [Frame(CLOSE, id, [])][..0]) == n;
  }

  lemma StepCredited(cfg: Config, app: seq<Frame>, w: World, e: RelayWorld.Event)
    requires Sound(cfg, app, w) && Credited(w) && GoodConfig(cfg) && AllFit(app, MAX_PAYLOAD) && OpensOnce(app)
    requires RingHolds(cfg, w, e)
    ensures Credited(RelayWorld.Step(cfg, app, w, e))
  {
    hide Sound, Credited, Commits, RingHolds, OpensOnce, EncodeAll, DownStep, UplinkRun.Step, UpBegins, Of, CellOf;
    hide SessionSteps.PollArrives, SessionSteps.PollWakes, BackendClosed, BackendData, BackendDrained, WriteTaken;
    hide BackendWriteFinished, Take, Hear, UplinkRun.Arrive;
    var w' := RelayWorld.Step(cfg, app, w, e);
    match e
    case UpArrives(r) =>
      UpBeginStreams(w.s, r.sequence, r.body);
      SameStreamsCredited(w, w');
    case UpCommits(worker, admits) => CommitsCredited(cfg, app, w, worker, admits);
    case BridgeDown(down) =>
      if down.BridgeSends? || down.BridgeReceives? {
        UpStepsKeepPushed(w, cfg, down);
      }
      SameStreamsCredited(w, w');
    case PollArrives(cursor) =>
      PollStreams(cfg, w.s, PollId(w.down.nextToken, cursor), ContextDone);
      UpStepsKeepPushed(w, cfg, DownlinkRun.RequestArrives(cursor));
      SameStreamsCredited(w, w');
    case PollWakes(poll, why) =>
      PollStreams(cfg, w.s, poll, why);
      UpStepsKeepPushed(w, cfg, DownlinkRun.PollWakes(poll, why));
      SameStreamsCredited(w, w');
    case TakeWrite(id) => TakeWriteCredited(cfg, app, w, id);
    case SocketWrites(id, count) => SocketWritesCredited(cfg, app, w, id, count);
    case WriteFinishes(id) => WriteFinishesCredited(cfg, app, w, id);
    case SocketFails(id) => SocketFailsCredited(cfg, app, w, id);
    case ReadData(id, data) => ReadDataCredited(cfg, app, w, id, data);
    case BackendGone(id, backend) => BackendGoneCredited(cfg, app, w, id, backend);
    case Closes =>
      UpStepsKeepPushed(w.(s := CloseSession(w.s)), cfg, DownlinkRun.SessionCloses);
      SameStreamsCredited(w, w');
    case _ => SameStreamsCredited(w, w');
  }

  lemma SocketFailsCredited(cfg: Config, app: seq<Frame>, w: World, id: nat)
    requires Credited(w) && GoodConfig(cfg) && AllFit(app, MAX_PAYLOAD)
    ensures Credited(RelayWorld.Step(cfg, app, w, RelayWorld.SocketFails(id)))
  {
    hide Credited, WindowTotal;
    QuietCredited(w, RelayWorld.Step(cfg, app, w, RelayWorld.SocketFails(id)));
  }

  lemma {:induction false} RunCredited(cfg: Config, pool: Charge, app: seq<Frame>, events: seq<RelayWorld.Event>)
    requires Setting(cfg, pool, app) && RingLasts(cfg, pool, app, events)
    ensures Credited(RelayWorld.Run(cfg, pool, app, events))
  {
    hide Sound, Credited, RelayWorld.Step, RingHolds, Start, OpensOnce;
    if |events| == 0 {
      StartCredited(cfg, pool);
    } else {
      RunCredited(cfg, pool, app, events[..|events| - 1]);
      RunSound(cfg, pool, app, events[..|events| - 1]);
      StepCredited(cfg, app, RelayWorld.Run(cfg, pool, app, events[..|events| - 1]), events[|events| - 1]);
    }
  }

  lemma StartCredited(cfg: Config, pool: Charge)
    ensures Credited(Start(cfg, pool))
  {
  }

  // What it means for the client.

  lemma {:induction false} DataOfCons(fs: seq<Frame>, id: nat)
    requires fs != []
    ensures |DataOf(fs, id)|
         == |DataOf(fs[1..], id)| + if fs[0].kind == DATA && fs[0].id == id then |fs[0].payload| else 0
  {
    if |fs| == 1 {
      assert fs[..0] == [] && fs[1..] == [];
    } else {
      var init := fs[..|fs| - 1];
      DataOfCons(init, id);
      assert init[1..] == fs[1..][..|fs[1..]| - 1] && fs[1..][|fs[1..]| - 1] == fs[|fs| - 1];
    }
  }

  lemma {:induction false} DataOfSum(a: seq<Frame>, b: seq<Frame>, id: nat)
    ensures |DataOf(a + b, id)| == |DataOf(a, id)| + |DataOf(b, id)|
  {
    if |b| == 0 {
      assert a + b == a;
    } else {
      var init := b[..|b| - 1];
      DataOfSum(a, init, id);
      assert (a + b)[..|a + b| - 1] == a + init;
    }
  }

  /** Validation of the batch ends at a DATA frame larger than its live stream's window. */
  predicate Overruns(t: Trial, frames: seq<Frame>)
    decreases |frames|
  {
    frames != [] &&
    match ValidateFrame(t, frames[0])
    case None => frames[0].kind == DATA && frames[0].id != 0 && frames[0].id in t.live && frames[0].id !in t.closed
    case Some(t') => Overruns(t', frames[1..])
  }

  /** Every stream's DATA in the batch is within what its window allows, or will once it is opened. */
  ghost predicate RoomFor(t: Trial, frames: seq<Frame>) {
    forall id: nat ::
      && (id in t.live ==> |DataOf(frames, id)| <= t.live[id].receiveWindow)
      && (!KnownTo(t, id) && OpenedIn(frames, id) ==> |DataOf(frames, id)| <= INITIAL_STREAM_WINDOW)
  }

  lemma RoomForNext(t: Trial, frames: seq<Frame>)
    requires frames != [] && RoomFor(t, frames) && ValidateFrame(t, frames[0]).Some?
    ensures RoomFor(ValidateFrame(t, frames[0]).value, frames[1..])
  {
    hide DataOf, Amount, OpenedIn;
    var t' := ValidateFrame(t, frames[0]).value;
    forall id: nat
      ensures id in t'.live ==> |DataOf(frames[1..], id)| <= t'.live[id].receiveWindow
      ensures !KnownTo(t', id) && OpenedIn(frames[1..], id) ==> |DataOf(frames[1..], id)| <= INITIAL_STREAM_WINDOW
    {
      DataOfCons(frames, id);
      OpenedCons(frames, id);
    }
  }

  lemma OpenedCons(frames: seq<Frame>, id: nat)
    requires frames != []
    ensures OpenedIn(frames, id) <==> IsOpenOf(frames[0], id) || OpenedIn(frames[1..], id)
  {
    if OpenedIn(frames, id) {
      var i :| 0 <= i < |frames| && IsOpenOf(frames[i], id);
      assert i > 0 ==> frames[1..][i - 1] == frames[i];
    }
    if OpenedIn(frames[1..], id) {
      var i :| 0 <= i < |frames[1..]| && IsOpenOf(frames[1..][i], id);
      assert frames[i + 1] == frames[1..][i];
    }
  }

  lemma {:induction false} NoOverrun(t: Trial, frames: seq<Frame>)
    requires RoomFor(t, frames)
    ensures !Overruns(t, frames)
    decreases |frames|
  {
    hide RoomFor;
    if frames != [] {
      if ValidateFrame(t, frames[0]).None? {
        RoomForFirst(t, frames);
      } else {
        RoomForNext(t, frames);
        NoOverrun(ValidateFrame(t, frames[0]).value, frames[1..]);
      }
    }
  }

  lemma RoomForFirst(t: Trial, frames: seq<Frame>)
    requires frames != [] && RoomFor(t, frames) && ValidateFrame(t, frames[0]).None?
    ensures !(frames[0].kind == DATA && frames[0].id != 0 && frames[0].id in t.live && frames[0].id !in t.closed)
  {
    hide DataOf, OpenedIn;
    DataOfCons(frames, frames[0].id);
  }

  /** Every stream's DATA among the frames is within the first window and the credit posted to the app. */
  ghost predicate WithinCredit(fs: seq<Frame>, posted: seq<seq<Frame>>) {
    forall id: nat :: |DataOf(fs, id)| <= INITIAL_STREAM_WINDOW + WindowTotal(Flatten(posted), id)
  }

  lemma CreditLeavesRoom(cfg: Config, app: seq<Frame>, w: World, frames: seq<Frame>)
    requires Sound(cfg, app, w) && Credited(w) && WithinCredit(w.frames + frames, w.down.posted)
    requires OpensOnce(w.frames + frames)
    ensures RoomFor(TrialOf(w.s), frames)
  {
    hide Inv, UplinkRun.Sound, DownlinkRun.Sound, Upstream, Downstream, HaltsOnce, DataOf, WindowTotal, Flatten;
    hide OpenedIn, Accounted;
    StreamFacts(cfg, w.s, NOTHING);
    forall id: nat
      ensures id in TrialOf(w.s).live ==> |DataOf(frames, id)| <= TrialOf(w.s).live[id].receiveWindow
      ensures !KnownTo(TrialOf(w.s), id) && OpenedIn(frames, id) ==> |DataOf(frames, id)| <= INITIAL_STREAM_WINDOW
    {
      if OpenedIn(frames, id) {
        OpenedAnew(w.frames, frames, id);
      }
      assert Told(w.s, w.tales, w.frames, id) && Owed(w.s, w.tales, w.frames, id, WindowTotal(w.down.pushed, id));
      DownlinkRun.PostedPrefix(w.down, id);
      DataOfSum(w.frames, frames, id);
      if id in w.s.streams {
        assert Balanced(w.s.streams[id]);
      }
    }
  }

  lemma OpenedAnew(fs: seq<Frame>, frames: seq<Frame>, id: nat)
    requires OpensOnce(fs + frames) && OpenedIn(frames, id)
    ensures !OpenedIn(fs, id)
  {
    var j :| 0 <= j < |frames| && IsOpenOf(frames[j], id);
    assert (fs + frames)[|fs| + j] == frames[j];
    forall i | 0 <= i < |fs|
      ensures !IsOpenOf(fs[i], id)
    {
      assert (fs + frames)[i] == fs[i];
    }
  }

  /**
   * An app that has sent no stream more than its first window and the credit posted to it since never
   * has a body rejected for overrunning a window: not the next frames it sends, however they were
   * packed, whatever the relay coalesced and the network lost or repeated.
   */
  lemma CreditIsNeverOverrun(cfg: Config, pool: Charge, app: seq<Frame>, events: seq<RelayWorld.Event>,
                             frames: seq<Frame>)
    requires Setting(cfg, pool, app) && Sheltered(cfg, pool, app, events)
    requires var w := RelayWorld.Run(cfg, pool, app, events);
      w.frames + frames <= app && WithinCredit(w.frames + frames, w.down.posted)
    ensures !Overruns(TrialOf(RelayWorld.Run(cfg, pool, app, events).s), frames)
  {
    hide Sound, RelayWorld.Run, Sheltered, Credited, WithinCredit, RoomFor, Overruns, TrialOf, RingLasts, Roomy;
    ShelteredSound(cfg, pool, app, events);
    ShelteredLasts(cfg, pool, app, events);
    RunCredited(cfg, pool, app, events);
    var w := RelayWorld.Run(cfg, pool, app, events);
    PrefixOpensOnce(w.frames + frames, app);
    CreditLeavesRoom(cfg, app, w, frames);
    NoOverrun(TrialOf(w.s), frames);
  }

  lemma ShelteredLasts(cfg: Config, pool: Charge, app: seq<Frame>, events: seq<RelayWorld.Event>)
    requires Setting(cfg, pool, app) && Sheltered(cfg, pool, app, events)
    ensures RingLasts(cfg, pool, app, events)
  {
    hide RingLasts, OpensOnce;
    if Roomy(cfg, app) {
      RoomForAppIsEnough(cfg, pool, app, events);
    }
  }
}

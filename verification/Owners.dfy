/** Which backend owns which stream: every backend started has one stream, and is told once when it ends. */
module Owners {
  import opened Octets
  import opened Outcomes
  import opened Frames
  import opened Limits
  import opened Streams
  import opened Tombstones
  import opened SessionState
  import opened Batch
  import opened BatchLaws
  import opened SessionSteps
  import opened UplinkSteps

  /** A live stream has this backend. */
  ghost predicate Lives(s: State, b: int) {
    exists id :: id in s.streams && s.streams[id].backend == b
  }

  /** No two live streams share a backend, and none has one yet to come. */
  ghost predicate Owned(s: State) {
    && (forall id | id in s.streams :: s.streams[id].backend < s.nextBackend)
    && (forall i, j | i in s.streams && j in s.streams && i != j :: s.streams[i].backend != s.streams[j].backend)
  }

  predicate EachOnce(xs: seq<int>) {
    forall i, j | 0 <= i < j < |xs| :: xs[i] != xs[j]
  }

  predicate AllBelow(xs: seq<int>, n: int) {
    forall i | 0 <= i < |xs| :: xs[i] < n
  }

  /**
   * Since `s` every backend is accounted for: those live or ended are those that lived or were started, each
   * started and ended at most once, and none both live and ended.
   */
  ghost predicate Settled(s: State, a: Acc) {
    && Owned(a.s) && EachOnce(a.started) && EachOnce(a.ended)
    && AllBelow(a.started, a.s.nextBackend) && AllBelow(a.ended, a.s.nextBackend)
    && (forall b :: Lives(a.s, b) || b in a.ended <==> Lives(s, b) || b in a.started)
    && (forall b | Lives(a.s, b) :: b !in a.ended)
  }

  lemma OneMore(xs: seq<int>, x: int, n: int)
    requires EachOnce(xs) && AllBelow(xs, n) && x !in xs && x < n
    ensures EachOnce(xs + [x]) && AllBelow(xs + [x], n)
  {
  }

  lemma MoreBelow(xs: seq<int>, n: int)
    requires AllBelow(xs, n)
    ensures n !in xs && AllBelow(xs, n + 1)
  {
  }

  lemma SetLives(s: State, t: State, id: nat, st: Stream)
    requires t.streams == s.streams[id := st] && id !in s.streams
    ensures forall b :: Lives(t, b) <==> Lives(s, b) || b == st.backend
  {
    forall b
      ensures Lives(t, b) <==> Lives(s, b) || b == st.backend
    {
      if Lives(s, b) {
        var j :| j in s.streams && s.streams[j].backend == b;
        assert j in t.streams && t.streams[j].backend == b;
      }
      assert id in t.streams && t.streams[id].backend == st.backend;
    }
  }

  lemma EndLives(s: State, t: State, id: nat)
    requires Owned(s) && id in s.streams && t.streams == s.streams - {id}
    ensures forall b :: Lives(t, b) <==> Lives(s, b) && b != s.streams[id].backend
  {
    forall b
      ensures Lives(t, b) <==> Lives(s, b) && b != s.streams[id].backend
    {
      if Lives(s, b) && b != s.streams[id].backend {
        var j :| j in s.streams && s.streams[j].backend == b;
        assert j in t.streams && t.streams[j].backend == b;
      }
    }
  }

  lemma SameLives(s: State, t: State)
    requires t.streams.Keys == s.streams.Keys && t.nextBackend == s.nextBackend
    requires forall id | id in s.streams :: t.streams[id].backend == s.streams[id].backend
    ensures forall b :: Lives(t, b) <==> Lives(s, b)
    ensures Owned(s) ==> Owned(t)
  {
    forall b
      ensures Lives(t, b) <==> Lives(s, b)
    {
      if Lives(s, b) {
        var j :| j in s.streams && s.streams[j].backend == b;
        assert j in t.streams && t.streams[j].backend == b;
      }
      if Lives(t, b) {
        var j :| j in t.streams && t.streams[j].backend == b;
        assert j in s.streams && s.streams[j].backend == b;
      }
    }
  }

  // What one frame does to streams and to the two lists.

  predicate OpensOne(a: Acc, b: Acc, id: nat) {
    && id !in a.s.streams && b.s.streams == a.s.streams[id := NewStream(a.s.nextBackend)]
    && b.s.nextBackend == a.s.nextBackend + 1
    && b.started == a.started + [a.s.nextBackend] && b.ended == a.ended
  }

  predicate EndsOne(a: Acc, b: Acc, id: nat) {
    && id in a.s.streams && b.s.streams == a.s.streams - {id} && b.s.nextBackend == a.s.nextBackend
    && b.started == a.started && b.ended == a.ended + [a.s.streams[id].backend]
  }

  predicate KeepsAll(a: Acc, b: Acc) {
    && b.s.streams.Keys == a.s.streams.Keys && b.s.nextBackend == a.s.nextBackend
    && (forall id | id in a.s.streams :: b.s.streams[id].backend == a.s.streams[id].backend)
    && b.started == a.started && b.ended == a.ended
  }

  lemma OpenSettled(s: State, a: Acc, b: Acc, id: nat)
    requires Settled(s, a) && OpensOne(a, b, id)
    ensures Settled(s, b)
  {
    SetLives(a.s, b.s, id, NewStream(a.s.nextBackend));
    MoreBelow(a.started, a.s.nextBackend);
    MoreBelow(a.ended, a.s.nextBackend);
    OneMore(a.started, a.s.nextBackend, b.s.nextBackend);
    NextIsUnused(a.s);
    hide EachOnce, AllBelow, Lives;
  }

  lemma NextIsUnused(s: State)
    requires Owned(s)
    ensures !Lives(s, s.nextBackend)
  {
  }

  lemma EndSettled(s: State, a: Acc, b: Acc, id: nat)
    requires Settled(s, a) && EndsOne(a, b, id)
    ensures Settled(s, b)
  {
    EndLives(a.s, b.s, id);
    assert Lives(a.s, a.s.streams[id].backend);
    OneMore(a.ended, a.s.streams[id].backend, a.s.nextBackend);
    hide EachOnce, AllBelow, Lives;
  }

  lemma SameSettled(s: State, a: Acc, b: Acc)
    requires Settled(s, a) && KeepsAll(a, b)
    ensures Settled(s, b)
  {
    SameLives(a.s, b.s);
    hide EachOnce, AllBelow, Lives, Owned;
  }

  lemma OpenChanges(cfg: Config, a: Acc, f: Frame, admit: bool)
    requires GoodConfig(cfg) && f.id !in a.s.streams
    ensures match OpenFrame(cfg, a, f, admit)
      case Going(b) => KeepsAll(a, b) || OpensOne(a, b, f.id)
      case Aborted(b) => KeepsAll(a, b)
      case NilStream => false
  {
    hide RememberClosed, QueueFrame;
    RememberClosedShape(cfg, a.s, f.id);
    QueueFrameShape(cfg, RememberClosed(cfg, a.s, f.id), Frame(CLOSE, f.id, []));
  }

  lemma FrameChanges(cfg: Config, a: Acc, f: Frame, admit: bool)
    requires GoodConfig(cfg) && (f.kind == OPEN ==> f.id !in a.s.streams)
    ensures match ApplyFrame(cfg, a, f, admit)
      case Going(b) => KeepsAll(a, b) || OpensOne(a, b, f.id) || EndsOne(a, b, f.id)
      case Aborted(b) => KeepsAll(a, b)
      case NilStream => true
  {
    hide OpenFrame, CloseStream, AcceptData, AddCredit, Amount, OpensOne;
    if f.id != 0 && f.kind == OPEN {
      hide KeepsAll, EndsOne;
      OpenChanges(cfg, a, f, admit);
    } else if f.id in a.s.streams {
      CloseStreamShape(cfg, a.s, f.id);
      BackendStays(a.s.streams[f.id], f.payload);
    }
  }

  lemma FrameSettled(cfg: Config, t: Trial, s: State, a: Acc, frames: seq<Frame>, admit: bool, history: seq<nat>,
                     live: set<nat>)
    requires frames != [] && Underway(cfg, t, a, frames, history, live) && Settled(s, a)
    ensures GoodConfig(cfg)
    ensures match ApplyFrame(cfg, a, frames[0], admit)
      case Going(b) => Settled(s, b)
      case Aborted(b) => Settled(s, b)
      case NilStream => true
  {
    NextIsFresh(cfg, t, a, frames, history, live);
    hide Underway, Settled, ApplyFrame, OpensOne, EndsOne, KeepsAll;
    FrameChanges(cfg, a, frames[0], admit);
    match ApplyFrame(cfg, a, frames[0], admit)
    case Going(b) =>
      if OpensOne(a, b, frames[0].id) {
        OpenSettled(s, a, b, frames[0].id);
      } else if EndsOne(a, b, frames[0].id) {
        EndSettled(s, a, b, frames[0].id);
      } else {
        SameSettled(s, a, b);
      }
    case Aborted(b) => SameSettled(s, a, b);
    case NilStream =>
  }

  lemma BackendStays(st: Stream, payload: Bytes)
    ensures AcceptData(st, payload).backend == st.backend && AddCredit(st, Amount(payload)).backend == st.backend
  {
  }

  lemma NextIsFresh(cfg: Config, t: Trial, a: Acc, frames: seq<Frame>, history: seq<nat>, live: set<nat>)
    requires frames != [] && Underway(cfg, t, a, frames, history, live)
    ensures GoodConfig(cfg) && (frames[0].kind == OPEN ==> frames[0].id !in a.s.streams)
  {
    hide Inv, Agrees, LanesReady, Covers;
    PanicOff(cfg, a.s, a.left);
    FrameSnapshot(cfg, t, a.s, frames[0], history);
  }

  lemma {:induction false} BatchSettled(cfg: Config, t: Trial, s: State, a: Acc, frames: seq<Frame>, admits: seq<bool>,
                                        history: seq<nat>, live: set<nat>)
    requires Underway(cfg, t, a, frames, history, live) && |admits| == |frames| && Settled(s, a)
    ensures GoodConfig(cfg)
    ensures match Apply(cfg, a, frames, admits)
      case Going(b) => Settled(s, b)
      case Aborted(b) => Settled(s, b)
      case NilStream => true
    decreases |frames|
  {
    UnderwayIsGood(cfg, t, a, frames, history, live);
    hide Underway, Settled, ApplyFrame, ValidateFrame, IdsAfter, LosesTombstone;
    if frames != [] {
      FrameSettled(cfg, t, s, a, frames, admits[0], history, live);
      UnderwayStep(cfg, t, a, frames, admits[0], history, live);
      match ApplyFrame(cfg, a, frames[0], admits[0])
      case Going(b) =>
        UnderwayValid(cfg, t, a, frames, history, live);
        BatchSettled(cfg, ValidateFrame(t, frames[0]).value, s, b, frames[1..], admits[1..],
                     IdsAfter(cfg, Ids(a.s.streams.Keys, history), frames[0], admits[0]).history,
                     LiveAfter(live, frames[0]));
      case _ =>
    }
  }

  lemma UnderwayIsGood(cfg: Config, t: Trial, a: Acc, frames: seq<Frame>, history: seq<nat>, live: set<nat>)
    requires Underway(cfg, t, a, frames, history, live)
    ensures GoodConfig(cfg)
  {
    hide Inv, Agrees, LanesReady, Covers;
    PanicOff(cfg, a.s, a.left);
  }

  lemma UnderwayValid(cfg: Config, t: Trial, a: Acc, frames: seq<Frame>, history: seq<nat>, live: set<nat>)
    requires Underway(cfg, t, a, frames, history, live) && frames != []
    ensures ValidateFrame(t, frames[0]).Some?
  {
    hide Inv, Agrees, LanesReady, Covers, ValidateFrame;
  }

  lemma AcceptedSettles(cfg: Config, s: State, a: Acc, frames: seq<Frame>, admits: seq<bool>)
    requires Accepted(cfg, s, frames) && Reserved(cfg, s, frames) == Some(a) && |admits| == |frames| && Owned(s)
    ensures match Apply(cfg, a, frames, admits)
      case Going(b) => Settled(s, b)
      case Aborted(b) => Settled(s, b)
      case NilStream => true
  {
    hide Underway, Accepted, Owned, Lives, Reservation, SessionAdmits, PoolAdmits, Charge.Plus;
    ReservedUnderway(cfg, s, frames);
    SameLives(s, a.s);
    BatchSettled(cfg, TrialOf(s), s, a, frames, admits, s.tombs, s.streams.Keys);
  }

  // Every run.

  lemma FewerOwned(s: State, t: State)
    requires Owned(s) && t.nextBackend == s.nextBackend
    requires forall id | id in t.streams :: id in s.streams && t.streams[id].backend == s.streams[id].backend
    ensures Owned(t)
  {
  }

  lemma CallKeepsOwners(cfg: Config, s: State, e: Event)
    requires GoodConfig(cfg) && LoopCall(e)
    ensures var t := SessionSteps.Step(cfg, s, e);
      && t.nextBackend == s.nextBackend
      && forall id | id in t.streams :: id in s.streams && t.streams[id].backend == s.streams[id].backend
  {
    hide Release, QueueFrame, PutUint32;
    match e
    case TakeWrite(id) =>
    case Drained(id, amount) =>
      ReleaseShape(s, Charge(amount, 0));
      if id in s.streams && Drain(s.streams[id], amount).Some? {
        var drained := Release(s, Charge(amount, 0)).(streams := s.streams[id := Drain(s.streams[id], amount).value]);
        QueueFrameShape(cfg, drained, Frame(WINDOW, id, WindowPayload(amount % TWO_32)));
      }
    case WriteFinished(id) => ReleaseShape(s, Charge(QUEUE_ITEM_COST, 1));
    case ReadData(id, data) =>
      if id in s.streams {
        var spent := s.(streams := s.streams[id := SpendCredit(s.streams[id], |data|)]);
        QueueFrameShape(cfg, spent, Frame(DATA, id, data));
      }
  }

  /** The state a batch is applied to, once the parse is over or the lane is there. */
  function Base(s: State, e: Event): State
    requires e.Finish? || e.UpLane?
  {
    if e.Finish? then AfterParse(s) else Entered(s, e.lane)
  }

  lemma BaseInv(cfg: Config, s: State, e: Event)
    requires Inv(cfg, s, NOTHING) && (if cfg.UsesLanes() then e.UpLane? else e.Finish?)
    ensures Inv(cfg, Base(s, e), NOTHING) && SameStreams(s, Base(s, e)) && Base(s, e).closed == s.closed
    ensures cfg.UsesLanes() ==> e.lane in Base(s, e).lanes
    ensures !cfg.UsesLanes() ==> 0 in Base(s, e).lanes
  {
    hide Inv;
    LaneFacts(cfg, s, NOTHING);
    if e.Finish? {
      SetUpInv(cfg, s, 0, s.lanes[0].up.(active := false), NOTHING);
    } else if e.lane !in s.lanes {
      AddLaneInv(cfg, s, e.lane, NOTHING);
    }
  }

  lemma BatchedIsReady(cfg: Config, s: State, e: Event)
    requires GoodConfig(cfg) && Batched(cfg, s, e).Some?
    ensures !s.closed && (if cfg.UsesLanes() then e.UpLane? else e.Finish?)
    ensures var frames, s1 := Batched(cfg, s, e).value.frames, Base(s, e);
      && Readable(cfg, e.body) == Some(frames) && Validate(TrialOf(s1), frames).Some?
      && Reserved(cfg, s1, frames) == Some(Batched(cfg, s, e).value.a)
      && (cfg.UsesLanes() ==> AllOn(frames, e.lane))
  {
    hide Validate, Readable, AllOn, Reserved;
  }

  lemma OnLaneIsReady(cfg: Config, s: State, frames: seq<Frame>, k: nat)
    requires cfg.UsesLanes() && AllOn(frames, k) && k in s.lanes
    ensures LanesReady(cfg, s, frames)
  {
  }

  /** The batch of a step is an accepted one. */
  lemma BatchedIsAccepted(cfg: Config, s: State, e: Event)
    requires Inv(cfg, s, NOTHING) && GoodConfig(cfg) && Batched(cfg, s, e).Some?
    ensures e.Finish? || e.UpLane?
    ensures var r, s1 := Batched(cfg, s, e).value, Base(s, e);
      Accepted(cfg, s1, r.frames) && Reserved(cfg, s1, r.frames) == Some(r.a) && SameStreams(s, s1)
  {
    hide Inv, Readable, Validate, Reserved, AllOn, LanesReady, Batched, Base;
    BatchedIsReady(cfg, s, e);
    BaseInv(cfg, s, e);
    ReadableFits(cfg, e.body);
    var frames, s1 := Batched(cfg, s, e).value.frames, Base(s, e);
    if cfg.UsesLanes() {
      OnLaneIsReady(cfg, s1, frames, e.lane);
    } else {
      LanesAreReady(cfg, s1, frames);
    }
    AcceptedIf(cfg, s1, frames);
  }

  lemma SettledMeans(s: State, a: Acc)
    requires Settled(s, a)
    ensures Owned(a.s)
  {
  }

  lemma UplinkOwned(cfg: Config, s: State, e: Event)
    requires Inv(cfg, s, NOTHING) && GoodConfig(cfg) && Owned(s) && (e.Finish? || e.UpLane?)
    requires !Crashes(cfg, s, e)
    ensures Owned(SessionSteps.Step(cfg, s, e))
  {
    hide Inv, Owned, Settled, SessionSteps.Step, Batched, Apply, Accepted, Crashes, Reserved;
    UplinkStreams(cfg, s, e);
    var t := SessionSteps.Step(cfg, s, e);
    match Batched(cfg, s, e)
    case None => SameLives(s, t);
    case Some(r) =>
      BatchedIsAccepted(cfg, s, e);
      SameLives(s, Base(s, e));
      SameLives(s, r.a.s);
      AcceptedSettles(cfg, Base(s, e), r.a, r.frames, e.admits);
      match Apply(cfg, r.a, r.frames, e.admits) {
        case Going(b) =>
          SettledMeans(Base(s, e), b);
          SameLives(b.s, t);
        case Aborted(b) =>
          SettledMeans(Base(s, e), b);
          SameLives(b.s, t);
        case NilStream => SameLives(r.a.s, t);
      }
  }

  lemma StepOwned(cfg: Config, s: State, e: Event)
    requires Inv(cfg, s, NOTHING) && GoodConfig(cfg) && Owned(s) && !Crashes(cfg, s, e)
    ensures Owned(SessionSteps.Step(cfg, s, e))
  {
    hide Inv, Owned, SessionSteps.Step, Crashes;
    if e.Finish? || e.UpLane? {
      UplinkOwned(cfg, s, e);
    } else if LoopCall(e) {
      CallKeepsOwners(cfg, s, e);
      FewerOwned(s, SessionSteps.Step(cfg, s, e));
    } else {
      OthersRemove(cfg, s, e);
      FewerOwned(s, SessionSteps.Step(cfg, s, e));
    }
  }

  /** In every run no two live streams have the same backend. */
  lemma {:induction false} RunOwned(cfg: Config, pool: Charge, events: seq<Event>)
    requires GoodConfig(cfg) && NOTHING.Within(pool) && CrashFree(cfg, pool, events)
    ensures Owned(SessionSteps.Run(cfg, pool, events))
  {
    hide Inv, SessionSteps.Step, Crashes, Owned;
    if |events| == 0 {
      StartOwned(cfg, pool);
    } else {
      var before := events[..|events| - 1];
      RunOwned(cfg, pool, before);
      RunInv(cfg, pool, before);
      StepOwned(cfg, SessionSteps.Run(cfg, pool, before), events[|events| - 1]);
    }
  }

  lemma StartOwned(cfg: Config, pool: Charge)
    requires GoodConfig(cfg)
    ensures Owned(NewSession(cfg, pool))
  {
  }

  /** Only which backends live before the batch matters. */
  lemma SettledFrom(s: State, s1: State, a: Acc)
    requires Settled(s1, a) && forall b :: Lives(s1, b) <==> Lives(s, b)
    ensures Settled(s, a)
  {
    hide Owned, EachOnce, AllBelow, Lives;
  }

  /**
   * In every run, through the batch of an uplink step, whole or halted: the backends of the streams live
   * before it and those it starts are the backends of the streams live after it and those it ends, each
   * started and ended at most once; no two streams share one.
   */
  lemma BackendsAreAccountedFor(cfg: Config, pool: Charge, events: seq<Event>, e: Event)
    requires GoodConfig(cfg) && NOTHING.Within(pool) && CrashFree(cfg, pool, events)
    ensures var s := SessionSteps.Run(cfg, pool, events);
      match Batched(cfg, s, e)
      case None => true
      case Some(r) =>
        match Apply(cfg, r.a, r.frames, e.admits)
        case NilStream => true
        case Going(b) => Settled(s, b)
        case Aborted(b) => Settled(s, b)
  {
    hide SessionSteps.Run, CrashFree, Inv, Owned, Settled, Batched, Apply, Accepted, Reserved, Lives;
    RunOwned(cfg, pool, events);
    RunInv(cfg, pool, events);
    var s := SessionSteps.Run(cfg, pool, events);
    match Batched(cfg, s, e)
    case None =>
    case Some(r) =>
      BatchedIsAccepted(cfg, s, e);
      var s1 := Base(s, e);
      SameLives(s, s1);
      AcceptedSettles(cfg, s1, r.a, r.frames, e.admits);
      match Apply(cfg, r.a, r.frames, e.admits) {
        case Going(b) => SettledFrom(s, s1, b);
        case Aborted(b) => SettledFrom(s, s1, b);
        case NilStream =>
      }
  }

  /**
   * The end of a backend is the end of its own stream and of no other: named under an id that another
   * backend has meanwhile, it changes nothing. Its own stream goes and is remembered, and every other stays,
   * unless the session closes for want of room for the CLOSE.
   */
  lemma OnlyItsOwnStreamEnds(cfg: Config, pool: Charge, events: seq<Event>, id: nat, backend: int)
    requires GoodConfig(cfg) && NOTHING.Within(pool) && CrashFree(cfg, pool, events)
    ensures var s := SessionSteps.Run(cfg, pool, events);
      var t := BackendClosed(cfg, s, id, backend);
      var own := !s.closed && id in s.streams && s.streams[id].backend == backend;
      && (!own ==> t == s)
      && (own ==>
            && !Lives(t, backend)
            && (t.closed || id in t.tombs)
            && (!t.closed ==> forall j | j in s.streams && j != id :: j in t.streams && t.streams[j] == s.streams[j]))
  {
    hide SessionSteps.Run, CrashFree, QueueFrame, CloseStream, Remember;
    RunOwned(cfg, pool, events);
    var s := SessionSteps.Run(cfg, pool, events);
    if id in s.streams {
      CloseStreamShape(cfg, s, id);
      QueueFrameShape(cfg, CloseStream(cfg, s, id), Frame(CLOSE, id, []));
    }
  }
}

/** A run of app, bridge, network, session and backend loops is, for its session, a run of session steps. */
module WorldRuns {
  import opened Octets
  import opened Outcomes
  import opened Frames
  import opened Limits
  import opened Streams
  import opened Poll
  import opened SessionState
  import opened SessionSteps
  import opened Accounts
  import RelayWorld
  import opened Tales

  /** What a step of the world has the session do. */
  function SessionPart(cfg: Config, w: RelayWorld.World, e: RelayWorld.Event): seq<Event>
    requires GoodConfig(cfg)
  {
    match e
    case AppSends(_) => []
    case BridgeUp(_) => []
    case UpArrives(r) => if r !in w.up.sent then [] else [Event.Begin(r.sequence, r.body)]
    case UpCommits(worker, admits) =>
      if worker !in w.up.workers then []
      else [Finish(w.up.workers[worker].sequence, w.up.workers[worker].body, admits)]
    case BridgeDown(_) => []
    case PollArrives(cursor) =>
      if cursor !in w.down.requests then [] else [Arrive(0, PollId(w.down.nextToken, cursor))]
    case PollWakes(poll, why) =>
      if poll !in w.down.polls || (why.DisplacedByNewer? && w.down.relay.waiter == Some(poll))
         || 0 !in w.s.lanes then []
      else [Wake(0, w.s.lanes[0].birth, poll, why)]
    case TakeWrite(id) => if !Of(w.tales, id).phase.Idle? then [] else [Event.TakeWrite(id)]
    case SocketWrites(id, count) =>
      var phase := Of(w.tales, id).phase;
      if !phase.Writing? || !(0 < count <= |phase.left|) then [] else [Drained(id, count)]
    case WriteFinishes(id) => if Of(w.tales, id).phase != Writing([]) then [] else [WriteFinished(id)]
    case SocketFails(_) => []
    case ReadData(id, data) =>
      if !Of(w.tales, id).reading || data == [] || |data| > DATA_CHUNK then [] else [Event.ReadData(id, data)]
    case BackendGone(id, backend) => [Event.BackendGone(id, backend)]
    case Closes => [CloseAll]
    case OthersMovePool(pool) => [Event.OthersMovePool(pool)]
  }

  function SessionTrace(cfg: Config, pool: Charge, app: seq<Frame>, events: seq<RelayWorld.Event>): seq<Event>
    requires GoodConfig(cfg) && AllFit(app, MAX_PAYLOAD)
  {
    if events == [] then []
    else
      var before := events[..|events| - 1];
      SessionTrace(cfg, pool, app, before)
      + SessionPart(cfg, RelayWorld.Run(cfg, pool, app, before), events[|events| - 1])
  }

  lemma CommitIsFinish(cfg: Config, w: RelayWorld.World, worker: nat, admits: seq<bool>)
    requires GoodConfig(cfg)
    ensures RelayWorld.Commits(cfg, w, worker, admits).s ==
      if worker !in w.up.workers then w.s
      else UpFinishes(cfg, w.s, w.up.workers[worker].sequence, w.up.workers[worker].body, admits).0
  {
    hide UpFinishes, RelayWorld.Hear, Readable;
  }

  /** `part` is all the session does in this step. */
  predicate Does(cfg: Config, s: State, t: State, part: seq<Event>)
    requires GoodConfig(cfg)
  {
    |part| <= 1 && t == (if part == [] then s else SessionSteps.Step(cfg, s, part[0]))
  }

  predicate OfBackend(e: RelayWorld.Event) {
    e.TakeWrite? || e.SocketWrites? || e.WriteFinishes? || e.SocketFails? || e.ReadData? || e.BackendGone?
  }

  lemma BackendStepDoes(cfg: Config, app: seq<Frame>, w: RelayWorld.World, e: RelayWorld.Event)
    requires GoodConfig(cfg) && AllFit(app, MAX_PAYLOAD) && OfBackend(e)
    ensures Does(cfg, w.s, RelayWorld.Step(cfg, app, w, e).s, SessionPart(cfg, w, e))
  {
    hide UpBegins, UpFinishes, SessionSteps.PollArrives, SessionSteps.PollWakes, WriteTaken, BackendDrained;
    hide BackendWriteFinished, BackendData, BackendClosed, CloseSession, Take, EncodeAll, RelayWorld.Hear;
    hide RelayWorld.Commits, RelayWorld.DownStep, CellOf;
  }

  lemma CarrierStepDoes(cfg: Config, app: seq<Frame>, w: RelayWorld.World, e: RelayWorld.Event)
    requires GoodConfig(cfg) && AllFit(app, MAX_PAYLOAD) && !cfg.UsesLanes() && !OfBackend(e)
    ensures Does(cfg, w.s, RelayWorld.Step(cfg, app, w, e).s, SessionPart(cfg, w, e))
  {
    hide UpBegins, UpFinishes, SessionSteps.PollArrives, SessionSteps.PollWakes, WriteTaken, BackendDrained;
    hide BackendWriteFinished, BackendData, BackendClosed, CloseSession, Take, EncodeAll, RelayWorld.Hear;
    hide RelayWorld.Commits, RelayWorld.DownStep, CellOf;
    if e.UpCommits? {
      CommitIsFinish(cfg, w, e.worker, e.admits);
    }
  }

  lemma StepIsSessionStep(cfg: Config, app: seq<Frame>, w: RelayWorld.World, e: RelayWorld.Event)
    requires GoodConfig(cfg) && AllFit(app, MAX_PAYLOAD) && !cfg.UsesLanes()
    ensures Does(cfg, w.s, RelayWorld.Step(cfg, app, w, e).s, SessionPart(cfg, w, e))
  {
    hide Does, RelayWorld.Step, SessionPart;
    if OfBackend(e) {
      BackendStepDoes(cfg, app, w, e);
    } else {
      CarrierStepDoes(cfg, app, w, e);
    }
  }

  lemma {:induction false} WorldRunsSession(cfg: Config, pool: Charge, app: seq<Frame>, events: seq<RelayWorld.Event>)
    requires GoodConfig(cfg) && AllFit(app, MAX_PAYLOAD) && !cfg.UsesLanes()
    ensures RelayWorld.Run(cfg, pool, app, events).s
         == SessionSteps.Run(cfg, pool, SessionTrace(cfg, pool, app, events))
  {
    hide RelayWorld.Step, SessionSteps.Step, SessionPart;
    if events != [] {
      var before, e := events[..|events| - 1], events[|events| - 1];
      WorldRunsSession(cfg, pool, app, before);
      var w := RelayWorld.Run(cfg, pool, app, before);
      StepIsSessionStep(cfg, app, w, e);
      var trace, part := SessionTrace(cfg, pool, app, before), SessionPart(cfg, w, e);
      if part == [] {
        assert trace + part == trace;
      } else {
        assert (trace + part)[..|trace + part| - 1] == trace;
      }
    }
  }

  /**
   * While a backend's write loop runs, its stream's items and bytes bound each other: every two buffered
   * chunks hold more than DATA_CHUNK bytes, and no chunk more than the largest there can be.
   */
  lemma LiveBufferIsBounded(cfg: Config, pool: Charge, app: seq<Frame>, events: seq<RelayWorld.Event>, id: nat)
    requires RelayWorld.Setting(cfg, pool, app) && RelayWorld.Sheltered(cfg, pool, app, events)
    requires var w := RelayWorld.Run(cfg, pool, app, events);
      id in w.s.streams && !Of(w.tales, id).phase.Stopped?
    ensures var w := RelayWorld.Run(cfg, pool, app, events);
      var st, inHand := w.s.streams[id], InFlight(Of(w.tales, id).phase);
      && st.pendingWriteItems <= 2 * (st.pendingWriteBytes / (DATA_CHUNK + 1)) + 2
      && st.pendingWriteBytes <= |inHand| + st.pendingWriteItems * LargestChunk(cfg)
  {
    hide RelayWorld.Run, RelayWorld.Sound, RelayWorld.Sheltered, SessionSteps.Run, AccountsAfter, Flatten, OpensOnce;
    hide Settles;
    var w, trace := RelayWorld.Run(cfg, pool, app, events), SessionTrace(cfg, pool, app, events);
    RelayWorld.ShelteredSound(cfg, pool, app, events);
    SoundAccounts(cfg, app, w, id);
    WorldRunsSession(cfg, pool, app, events);
    ItemsFollowBytes(cfg, pool, trace, id);
    AccountedFor(cfg, pool, trace, id);
    BufferFollows(cfg, CellOf(w.s, w.tales, id), At(AccountsAfter(cfg, pool, trace), id));
  }

  lemma SoundAccounts(cfg: Config, app: seq<Frame>, w: RelayWorld.World, id: nat)
    requires RelayWorld.Sound(cfg, app, w)
    ensures Accounted(CellOf(w.s, w.tales, id))
  {
    hide Accounted;
    assert Told(w.s, w.tales, w.frames, id);
  }

  /** What the account says of the chunks still buffered. */
  lemma AccountedFor(cfg: Config, pool: Charge, events: seq<Event>, id: nat)
    requires GoodConfig(cfg) && id in SessionSteps.Run(cfg, pool, events).streams
    ensures Buffered(SessionSteps.Run(cfg, pool, events).streams[id], At(AccountsAfter(cfg, pool, events), id))
  {
    hide SessionSteps.Run, AccountsAfter, Buffered;
    RunSettled(cfg, pool, events);
    SettledAt(SessionSteps.Run(cfg, pool, events), AccountsAfter(cfg, pool, events), id);
  }

  lemma BufferFollows(cfg: Config, c: Cell, acct: Account)
    requires GoodConfig(cfg) && Accounted(c) && c.stream.Some? && !c.phase.Stopped? && Buffered(c.stream.value, acct)
    requires var st := c.stream.value;
      var items := st.pendingWriteItems - (|acct.taken| - acct.finished);
      var bytes := st.pendingWriteBytes - (|Flatten(acct.taken)| - acct.drained);
      0 <= items <= bytes <= items * LargestChunk(cfg) && items <= 2 * (bytes / (DATA_CHUNK + 1)) + 1
    ensures var st, inHand := c.stream.value, InFlight(c.phase);
      && st.pendingWriteItems <= 2 * (st.pendingWriteBytes / (DATA_CHUNK + 1)) + 2
      && st.pendingWriteBytes <= |inHand| + st.pendingWriteItems * LargestChunk(cfg)
  {
    hide GoodChunks, Packed, Flatten, Balanced;
    var st := c.stream.value;
    assert |st.writes| == st.pendingWriteItems - (|acct.taken| - acct.finished);
    assert |Flatten(st.writes)| == st.pendingWriteBytes - (|Flatten(acct.taken)| - acct.drained);
    LongerQuotient(|Flatten(st.writes)|, st.pendingWriteBytes);
    MoreItems(|st.writes|, st.pendingWriteItems, LargestChunk(cfg));
  }

  lemma LongerQuotient(a: nat, b: nat)
    requires a <= b
    ensures a / (DATA_CHUNK + 1) <= b / (DATA_CHUNK + 1)
  {
  }

  lemma MoreItems(a: int, b: int, limit: int)
    requires a <= b && limit >= 0
    ensures a * limit <= b * limit
  {
  }
}

/** A lane's life, in every run of a session with lanes: how it is entered, told it is over, and given up. */
module LaneLives {
  import opened Octets
  import opened Outcomes
  import opened Frames
  import opened Limits
  import opened Queue
  import opened Streams
  import opened Tombstones
  import opened Poll
  import opened Uplink
  import opened SessionState
  import opened Batch
  import opened BatchLaws
  import opened SessionSteps
  import opened UplinkSteps
  import opened Carriers

  // A lane entered again is another lane.

  /** From `s` to `t` every lane is the same one, or one entered since. */
  ghost predicate Descends(s: State, t: State) {
    && t.nextBirth >= s.nextBirth
    && forall k | k in t.lanes ::
         t.lanes[k].birth < t.nextBirth
         && ((k in s.lanes && t.lanes[k].birth == s.lanes[k].birth) || t.lanes[k].birth >= s.nextBirth)
  }

  ghost predicate Born(s: State) {
    forall k | k in s.lanes :: s.lanes[k].birth < s.nextBirth
  }

  lemma DescendsTrans(s: State, t: State, u: State)
    requires Descends(s, t) && Descends(t, u)
    ensures Descends(s, u)
  {
  }

  lemma SameDescends(s: State, t: State)
    requires Born(s) && SameCarriers(s, t) && t.nextBirth == s.nextBirth
    ensures Descends(s, t)
  {
  }

  lemma EnteredDescends(s: State, k: nat)
    requires Born(s)
    ensures Descends(s, Entered(s, k)) && Born(Entered(s, k))
  {
  }

  lemma OnlyUpDescends(s: State, t: State, k: nat, up: Up)
    requires Born(s) && OnlyUp(s, t, k, up)
    ensures Descends(s, t)
  {
  }

  lemma UpLaneDescends(cfg: Config, s: State, k: nat, sequence: nat, body: Bytes, admits: seq<bool>)
    requires GoodConfig(cfg) && Born(s)
    ensures Descends(s, UpOnLane(cfg, s, k, sequence, body, admits).0)
  {
    hide Descends, Born, UpOnLane, ForLane, Readable, OnlyUp, Whole, SameCarriers;
    EnteredDescends(s, k);
    if s.closed || !ForLane(cfg, s, k, body) {
      UnreadUplink(cfg, s, k, sequence, body, admits);
      SameAsItself(s, s);
      SameDescends(s, s);
    } else {
      ForLaneReads(cfg, s, k, body);
      if |admits| != |Readable(cfg, body).value| {
        UnreadUplink(cfg, s, k, sequence, body, admits);
        SameAsItself(s, s);
        SameDescends(s, s);
      } else {
        UpLaneCarriers(cfg, s, k, sequence, body, admits);
        var s1 := Entered(s, k);
        var (t, answer) := UpOnLane(cfg, s, k, sequence, body, admits);
        if t != s1 {
          OnlyUpDescends(s1, t, k, if answer.Acked? then Up(sequence, body, false) else s1.lanes[k].up);
          DescendsTrans(s, s1, t);
        }
      }
    }
  }

  lemma ForLaneReads(cfg: Config, s: State, k: nat, body: Bytes)
    requires ForLane(cfg, s, k, body)
    ensures Readable(cfg, body).Some?
  {
    hide Readable;
  }

  lemma AcquireDescends(cfg: Config, s: State, k: nat)
    requires Born(s)
    ensures Descends(s, LaneAcquired(cfg, s, k).0)
  {
  }

  lemma StepDescends(cfg: Config, s: State, e: Event)
    requires GoodConfig(cfg) && cfg.UsesLanes() && Born(s)
    ensures Descends(s, SessionSteps.Step(cfg, s, e))
  {
    hide Descends, Born, UpOnLane, LaneAcquired, SameCarriers;
    SameAsItself(s, s);
    SameDescends(s, s);
    match e
    case UpLane(k, sequence, body, admits) => UpLaneDescends(cfg, s, k, sequence, body, admits);
    case AcquireLane(k) => AcquireDescends(cfg, s, k);
    case Begin(_, _) =>
    case Finish(_, _, _) =>
    case _ =>
      OthersKeepCarriers(cfg, s, e);
      SameDescends(s, SessionSteps.Step(cfg, s, e));
  }

  lemma {:induction false} RunBorn(cfg: Config, pool: Charge, events: seq<Event>)
    requires GoodConfig(cfg) && cfg.UsesLanes()
    ensures Born(SessionSteps.Run(cfg, pool, events))
  {
    hide SessionSteps.Step, Descends, Born;
    if |events| == 0 {
      assert events == [];
      StartBorn(cfg, pool);
    } else {
      var s := SessionSteps.Run(cfg, pool, events[..|events| - 1]);
      RunBorn(cfg, pool, events[..|events| - 1]);
      StepDescends(cfg, s, events[|events| - 1]);
      DescendedBorn(s, SessionSteps.Step(cfg, s, events[|events| - 1]));
    }
  }

  lemma {:induction false} RunDescends(cfg: Config, pool: Charge, events: seq<Event>, more: seq<Event>)
    requires GoodConfig(cfg) && cfg.UsesLanes()
    ensures Descends(SessionSteps.Run(cfg, pool, events), SessionSteps.Run(cfg, pool, events + more))
  {
    hide SessionSteps.Step, Descends, Born;
    var s := SessionSteps.Run(cfg, pool, events);
    if |more| == 0 {
      assert events + more == events;
      RunBorn(cfg, pool, events);
      SameAsItself(s, s);
      SameDescends(s, s);
    } else {
      var init := more[..|more| - 1];
      RunDescends(cfg, pool, events, init);
      RunBorn(cfg, pool, events + init);
      assert (events + more)[..|events + more| - 1] == events + init;
      var t := SessionSteps.Run(cfg, pool, events + init);
      StepDescends(cfg, t, more[|more| - 1]);
      DescendsTrans(s, t, SessionSteps.Step(cfg, t, more[|more| - 1]));
    }
  }

  lemma DescendedBorn(s: State, t: State)
    requires Descends(s, t)
    ensures Born(t)
  {
  }

  lemma StartBorn(cfg: Config, pool: Charge)
    requires GoodConfig(cfg)
    ensures Born(SessionSteps.Run(cfg, pool, []))
  {
  }

  /**
   * A poll parked on a lane that has since been given up touches nothing, whether or not there is a later
   * lane of the same number.
   */
  lemma ForgottenPollIsHarmless(cfg: Config, pool: Charge, events: seq<Event>, middle: seq<Event>, after: seq<Event>,
                                k: nat, poll: PollId, why: Wake)
    requires GoodConfig(cfg) && cfg.UsesLanes() && k in SessionSteps.Run(cfg, pool, events).lanes
    requires k !in SessionSteps.Run(cfg, pool, events + middle).lanes
    ensures var birth := SessionSteps.Run(cfg, pool, events).lanes[k].birth;
      var t := SessionSteps.Run(cfg, pool, events + middle + after);
      PollWakes(cfg, t, k, birth, poll, why) == (t, None)
  {
    hide SessionSteps.Run, Resume;
    RunBorn(cfg, pool, events);
    RunDescends(cfg, pool, events, middle);
    RunDescends(cfg, pool, events + middle, after);
  }

  // A lane goes with its tombstone.

  /** From `s` to `t` every id forgotten has lost its lane. */
  ghost predicate Forgets(s: State, t: State) {
    forall k | k in s.tombs && k !in t.tombs :: k !in t.lanes
  }

  lemma ForgetsTrans(s: State, t: State, u: State)
    requires Forgets(s, t) && Forgets(t, u) && SameCarriers(t, u)
    ensures Forgets(s, u)
  {
  }

  lemma KeepsTombs(s: State, t: State)
    requires t.tombs == s.tombs
    ensures Forgets(s, t)
  {
  }

  lemma RememberForgets(cfg: Config, s: State, id: nat)
    requires GoodConfig(cfg) && cfg.UsesLanes()
    ensures Forgets(s, RememberClosed(cfg, s, id))
  {
    var cap := cfg.limits.maxClosedStreamIDs;
    var remembered := s.(tombs := Remember(s.tombs, id, cap));
    OnlyEvictedGoes(s.tombs, id, cap);
    match Evicted(s.tombs, id, cap)
    case Some(oldest) => DropLaneShape(remembered, oldest);
    case None =>
  }

  lemma OnlyEvictedGoes(order: seq<nat>, id: nat, cap: nat)
    requires cap > 0
    ensures forall k | k in order :: k in Remember(order, id, cap) || Evicted(order, id, cap) == Some(k)
  {
    forall k | k in order
      ensures k in Remember(order, id, cap) || Evicted(order, id, cap) == Some(k)
    {
      var i :| 0 <= i < |order| && order[i] == k;
      if id !in order && |order| < cap {
        assert Remember(order, id, cap)[i] == k;
      } else if id !in order && i > 0 {
        assert Remember(order, id, cap)[i - 1] == k;
      }
    }
  }

  lemma CloseForgets(cfg: Config, s: State, id: nat)
    requires GoodConfig(cfg) && cfg.UsesLanes() && id in s.streams
    ensures Forgets(s, CloseStream(cfg, s, id))
  {
    hide RememberClosed, WriteCharge;
    ReleaseShape(s, WriteCharge(s.streams[id]));
    RememberForgets(cfg, Release(s, WriteCharge(s.streams[id])).(streams := s.streams - {id}), id);
  }

  lemma FrameForgets(cfg: Config, a: Acc, f: Frame, admit: bool)
    requires GoodConfig(cfg) && cfg.UsesLanes()
    ensures match ApplyFrame(cfg, a, f, admit)
      case Going(b) => Forgets(a.s, b.s)
      case Aborted(b) => Forgets(a.s, b.s)
      case NilStream => true
  {
    hide RememberClosed, CloseStream, QueueFrame, AcceptData, AddCredit, Forgets;
    var r, close := RememberClosed(cfg, a.s, f.id), Frame(CLOSE, f.id, []);
    RememberForgets(cfg, a.s, f.id);
    QueueFrameShape(cfg, r, close);
    if QueueFrame(cfg, r, close).Some? {
      QueuedForgets(a.s, r, QueueFrame(cfg, r, close).value);
    }
    if f.id in a.s.streams {
      CloseForgets(cfg, a.s, f.id);
    }
    match ApplyFrame(cfg, a, f, admit)
    case Going(b) =>
      if b.s.tombs == a.s.tombs {
        KeepsTombs(a.s, b.s);
      }
    case _ =>
  }

  lemma QueuedForgets(s: State, t: State, u: State)
    requires Forgets(s, t) && u.tombs == t.tombs && u.lanes.Keys == t.lanes.Keys
    ensures Forgets(s, u)
  {
    assert forall k :: k in u.lanes <==> k in u.lanes.Keys;
  }

  lemma {:induction false} ApplyForgets(cfg: Config, a: Acc, frames: seq<Frame>, admits: seq<bool>)
    requires GoodConfig(cfg) && cfg.UsesLanes() && |admits| == |frames|
    ensures match Apply(cfg, a, frames, admits)
      case Going(b) => Forgets(a.s, b.s)
      case Aborted(b) => Forgets(a.s, b.s)
      case NilStream => true
    decreases |frames|
  {
    hide ApplyFrame, Forgets, SameCarriers;
    if frames == [] {
      KeepsTombs(a.s, a.s);
    } else {
      FrameForgets(cfg, a, frames[0], admits[0]);
      match ApplyFrame(cfg, a, frames[0], admits[0])
      case Going(b) =>
        ApplyForgets(cfg, b, frames[1..], admits[1..]);
        ApplyKeepsUps(cfg, b, frames[1..], admits[1..]);
        match Apply(cfg, b, frames[1..], admits[1..]) {
          case Going(c) => ForgetsTrans(a.s, b.s, c.s);
          case Aborted(c) => ForgetsTrans(a.s, b.s, c.s);
          case NilStream =>
        }
      case _ =>
    }
  }

  lemma ReceiveForgets(cfg: Config, s: State, k: nat, sequence: nat, body: Bytes, frames: seq<Frame>,
                       admits: seq<bool>)
    requires GoodConfig(cfg) && cfg.UsesLanes() && |admits| == |frames|
    ensures Forgets(s, Receive(cfg, s, k, sequence, body, frames, admits).0)
  {
    hide Validate, Apply, Reservation, Release, SessionAdmits, PoolAdmits, Charge.Plus, Forgets;
    KeepsTombs(s, s);
    KeepsTombs(s, s.(panicked := true));
    if Validate(TrialOf(s), frames).Some? && Reserved(cfg, s, frames).Some? {
      var a := Reserved(cfg, s, frames).value;
      ApplyForgets(cfg, a, frames, admits);
      var t := Receive(cfg, s, k, sequence, body, frames, admits).0;
      match Apply(cfg, a, frames, admits)
      case Going(b) =>
        ReleaseShape(b.s, b.left);
        SettledForgets(s, a.s, b.s, t);
      case Aborted(b) =>
        ReleaseShape(b.s, b.left);
        SettledForgets(s, a.s, b.s, t);
      case NilStream =>
    }
  }

  lemma SettledForgets(s: State, s1: State, t: State, u: State)
    requires Forgets(s1, t) && s1.tombs == s.tombs && u.tombs == t.tombs && u.lanes.Keys == t.lanes.Keys
    ensures Forgets(s, u)
  {
    assert forall k :: k in u.lanes <==> k in u.lanes.Keys;
  }

  lemma UpLaneForgets(cfg: Config, s: State, k: nat, sequence: nat, body: Bytes, admits: seq<bool>)
    requires GoodConfig(cfg) && cfg.UsesLanes()
    ensures Forgets(s, UpOnLane(cfg, s, k, sequence, body, admits).0)
  {
    hide Forgets, Readable, Receive, OnlyLate, AllOn;
    KeepsTombs(s, s);
    KeepsTombs(s, Entered(s, k));
    if Readable(cfg, body).Some? && |admits| == |Readable(cfg, body).value| {
      ReceiveForgets(cfg, Entered(s, k), k, sequence, body, Readable(cfg, body).value, admits);
      var t := Receive(cfg, Entered(s, k), k, sequence, body, Readable(cfg, body).value, admits).0;
      ForgetsFrom(s, Entered(s, k), t);
    }
  }

  lemma ForgetsFrom(s: State, s1: State, t: State)
    requires s1.tombs == s.tombs && Forgets(s1, t)
    ensures Forgets(s, t)
  {
  }

  lemma ReleasedForgets(cfg: Config, s: State, k: nat)
    requires GoodConfig(cfg) && cfg.UsesLanes()
    ensures Forgets(s, LaneReleased(cfg, s, k))
  {
    hide CloseStream, DropLane;
    if k in s.streams {
      CloseForgets(cfg, s, k);
      DropLaneShape(CloseStream(cfg, s, k), k);
    } else {
      DropLaneShape(s, k);
    }
  }

  lemma GoneForgets(cfg: Config, s: State, id: nat, backend: int)
    requires GoodConfig(cfg) && cfg.UsesLanes()
    ensures Forgets(s, BackendClosed(cfg, s, id, backend))
  {
    hide CloseStream, QueueFrame;
    if id in s.streams {
      CloseForgets(cfg, s, id);
      var gone := CloseStream(cfg, s, id);
      QueueFrameShape(cfg, gone, Frame(CLOSE, id, []));
      if QueueFrame(cfg, gone, Frame(CLOSE, id, [])).Some? {
        QueuedForgets(s, gone, QueueFrame(cfg, gone, Frame(CLOSE, id, [])).value);
      }
    }
  }

  /** In lane modes no step leaves a lane whose tombstone it has let go. */
  lemma LaneGoesWithItsTombstone(cfg: Config, s: State, e: Event, k: nat)
    requires GoodConfig(cfg) && cfg.UsesLanes() && k in s.tombs && k !in SessionSteps.Step(cfg, s, e).tombs
    ensures k !in SessionSteps.Step(cfg, s, e).lanes
  {
    hide UpOnLane, LaneReleased, BackendClosed, PollArrives, PollWakes, WriteTaken, BackendDrained;
    hide BackendWriteFinished, BackendData, LaneAcquired;
    match e
    case UpLane(j, sequence, body, admits) => UpLaneForgets(cfg, s, j, sequence, body, admits);
    case FailLane(j) => ReleasedForgets(cfg, s, j);
    case ReleaseLane(j) => ReleasedForgets(cfg, s, j);
    case BackendGone(id, backend) => GoneForgets(cfg, s, id, backend);
    case _ => TombsKept(cfg, s, e);
  }

  lemma TombsKept(cfg: Config, s: State, e: Event)
    requires GoodConfig(cfg) && cfg.UsesLanes()
    requires !e.UpLane? && !e.FailLane? && !e.ReleaseLane? && !e.BackendGone?
    ensures SessionSteps.Step(cfg, s, e).tombs == s.tombs
  {
    hide Enter, Resume, Acknowledged, LaneOver, Release, ChargeOf, QueueFrame, Drain, FinishWrite, PutUint32;
    match e
    case Arrive(k, poll) =>
      if k in s.lanes {
        ReleaseShape(s, ChargeOf(Acknowledged(s.lanes[k].down, poll.cursor)));
      }
    case Drained(id, amount) =>
      ReleaseShape(s, Charge(amount, 0));
      if id in s.streams && Drain(s.streams[id], amount).Some? {
        var drained := Release(s, Charge(amount, 0)).(streams := s.streams[id := Drain(s.streams[id], amount).value]);
        QueueFrameShape(cfg, drained, Frame(WINDOW, id, WindowPayload(amount % TWO_32)));
      }
    case WriteFinished(id) => ReleaseShape(s, Charge(QUEUE_ITEM_COST, 1));
    case ReadData(id, data) =>
      if id in s.streams {
        var spent := s.(streams := s.streams[id := SpendCredit(s.streams[id], |data|)]);
        QueueFrameShape(cfg, spent, Frame(DATA, id, data));
      }
    case _ =>
  }

  // When a lane's poll is told that its lane is over.

  /**
   * An accepted poll, arriving or notified, gets the frames queued for its lane as long as there are any.
   * With none it waits while the lane's stream may still come to something, and is told the lane is over
   * once that stream has ended; a live stream's lane is never over.
   */
  lemma LaneIsOverIff(cfg: Config, pool: Charge, events: seq<Event>, k: nat, poll: PollId)
    requires GoodConfig(cfg) && NOTHING.Within(pool) && cfg.UsesLanes() && k != 0
    requires var s := SessionSteps.Run(cfg, pool, events);
      !s.closed && k in s.lanes && poll.cursor == s.lanes[k].down.cursor
    ensures var s := SessionSteps.Run(cfg, pool, events);
      var d, ended := s.lanes[k].down, k in s.tombs;
      var arrived := PollArrives(cfg, s, k, poll).1;
      var notified := PollWakes(cfg, s, k, s.lanes[k].birth, poll, Notified).1;
      && (k in s.streams ==> !ended)
      && arrived.Some? && (d.waiter == Some(poll) ==> notified.Some?)
      && (arrived.value.Batch? <==> d.queue != [])
      && (arrived.value.LaneClosed? <==> d.queue == [] && ended)
      && (arrived.value.Parked? <==> d.queue == [] && !ended)
      && (d.waiter == Some(poll) ==>
            && (notified.value.Batch? <==> d.queue != [])
            && (notified.value.LaneClosed? <==> d.queue == [] && ended)
            && (notified.value.Parked? <==> d.queue == [] && !ended))
  {
    hide SessionSteps.Run, Inv, CrashFree, Enter, Resume, Release, ChargeOf, TakeCount;
    LaneModesNeverCrash(cfg, pool, events);
    RunInv(cfg, pool, events);
    var s := SessionSteps.Run(cfg, pool, events);
    StreamFacts(cfg, s, NOTHING);
    LaneFacts(cfg, s, NOTHING);
    EnterMeaning(s.lanes[k].down, poll, cfg.limits.carrierBatchBytes, LaneOver(cfg, s, k));
    if s.lanes[k].down.waiter == Some(poll) {
      ResumeMeaning(s.lanes[k].down, poll, Notified, cfg.limits.carrierBatchBytes, s.closed, LaneOver(cfg, s, k));
    }
  }

  /** A poll at a closed session, or at a lane that is not there, changes nothing and is never left waiting. */
  lemma NoLaneToPoll(cfg: Config, s: State, k: nat, poll: PollId)
    ensures s.closed ==> PollArrives(cfg, s, k, poll) == (s, Some(Ended))
    ensures PollArrives(cfg, s, k, poll).1.None? <==> !s.closed && k !in s.lanes
    ensures s.closed || k !in s.lanes ==> PollArrives(cfg, s, k, poll).0 == s
  {
  }

  // What a protocol failure on a lane brings down.

  /** Everything but lane `k` and its stream is as it was, save a lane whose tombstone made room. */
  ghost predicate ElseSame(s: State, t: State, k: nat) {
    && t.closed == s.closed
    && (forall id | id != k :: (id in t.streams <==> id in s.streams)
          && (id in s.streams ==> t.streams[id] == s.streams[id]))
    && (forall j | j in s.lanes && j != k && (j !in s.tombs || j in t.tombs) ::
          j in t.lanes && t.lanes[j] == s.lanes[j])
  }

  lemma RememberElse(cfg: Config, s: State, id: nat)
    requires GoodConfig(cfg) && WellFormed(s.tombs, cfg.limits.maxClosedStreamIDs)
    ensures ElseSame(s, RememberClosed(cfg, s, id), id) && id in RememberClosed(cfg, s, id).tombs
  {
    var cap := cfg.limits.maxClosedStreamIDs;
    RememberKeeps(s.tombs, id, cap);
    var t := RememberClosed(cfg, s, id);
    RememberClosedShape(cfg, s, id);
    RememberedLanes(cfg, s, id);
    hide RememberClosed, Remember, WellFormed, Evicted;
    assert t.tombs == Remember(s.tombs, id, cap);
  }

  lemma RememberedLanes(cfg: Config, s: State, id: nat)
    requires GoodConfig(cfg)
    ensures forall j | j in s.lanes && Evicted(s.tombs, id, cfg.limits.maxClosedStreamIDs) != Some(j) ::
      j in RememberClosed(cfg, s, id).lanes && RememberClosed(cfg, s, id).lanes[j] == s.lanes[j]
  {
    hide DropLane, Remember;
    var cap := cfg.limits.maxClosedStreamIDs;
    match Evicted(s.tombs, id, cap)
    case Some(oldest) => DropLaneShape(s.(tombs := Remember(s.tombs, id, cap)), oldest);
    case None =>
  }

  lemma ElseAfter(s: State, s1: State, t: State, k: nat)
    requires ElseSame(s1, t, k) && s1.lanes == s.lanes && s1.tombs == s.tombs && s1.closed == s.closed
    requires s1.streams == s.streams - {k}
    ensures ElseSame(s, t, k)
  {
  }

  lemma CloseElse(cfg: Config, s: State, k: nat)
    requires GoodConfig(cfg) && WellFormed(s.tombs, cfg.limits.maxClosedStreamIDs) && k in s.streams
    ensures ElseSame(s, CloseStream(cfg, s, k), k) && k in CloseStream(cfg, s, k).tombs
    ensures k !in CloseStream(cfg, s, k).streams
  {
    hide RememberClosed, WriteCharge, WellFormed, ElseSame, Remember;
    ReleaseShape(s, WriteCharge(s.streams[k]));
    var gone := Release(s, WriteCharge(s.streams[k])).(streams := s.streams - {k});
    RememberElse(cfg, gone, k);
    ElseAfter(s, gone, RememberClosed(cfg, gone, k), k);
    CloseStreamShape(cfg, s, k);
  }

  lemma DropElse(s: State, t: State, k: nat)
    requires ElseSame(s, t, k)
    ensures ElseSame(s, DropLane(t, k), k) && k !in DropLane(t, k).lanes
  {
    hide LaneCharge;
    DropLaneShape(t, k);
  }

  lemma ElseItself(s: State, k: nat)
    ensures ElseSame(s, s, k)
  {
  }

  /**
   * A protocol failure on a lane: over WebSockets it ends that lane and its stream, which is remembered,
   * and nothing else but a lane whose tombstone that pushes out; over HTTPS it ends the session.
   */
  lemma LaneFailureIsLocal(cfg: Config, s: State, k: nat)
    requires Structured(cfg, s)
    ensures var t := LaneFails(cfg, s, k);
      if cfg.carrier.WebSocketLanes? then
        && ElseSame(s, t, k) && k !in t.lanes
        && (k in s.streams && k in s.lanes ==> k !in t.streams && k in t.tombs)
        && (k !in s.lanes ==> t == s)
      else t.closed && t.streams == (if s.closed then s.streams else map[])
  {
    hide CloseStream, DropLane, ElseSame, WellFormed, GoodStream, GoodLane;
    ElseItself(s, k);
    DropElse(s, s, k);
    if k in s.streams {
      CloseElse(cfg, s, k);
      DropElse(s, CloseStream(cfg, s, k), k);
      DropLaneShape(CloseStream(cfg, s, k), k);
    }
  }

  /** A session's one WebSocket: from the first grant on, no other is granted. */
  lemma OneSocketEver(cfg: Config, pool: Charge, events: seq<Event>, more: seq<Event>)
    requires GoodConfig(cfg) && NOTHING.Within(pool) && SocketAcquired(cfg, SessionSteps.Run(cfg, pool, events)).1
    requires CrashFree(cfg, pool, events + [AcquireSocket] + more)
    ensures !SocketAcquired(cfg, SessionSteps.Run(cfg, pool, events + [AcquireSocket] + more)).1
  {
    hide SessionSteps.Run, CrashFree;
    var granted := events + [AcquireSocket];
    SocketGranted(cfg, pool, events);
    SocketStays(cfg, pool, granted, more);
  }

  lemma SocketGranted(cfg: Config, pool: Charge, events: seq<Event>)
    requires GoodConfig(cfg) && SocketAcquired(cfg, SessionSteps.Run(cfg, pool, events)).1
    ensures SessionSteps.Run(cfg, pool, events + [AcquireSocket]).websocketActive && cfg.carrier.WebSocket?
  {
    assert (events + [AcquireSocket])[..|events|] == events;
  }

  lemma StepKeepsSocket(cfg: Config, s: State, e: Event)
    requires GoodConfig(cfg) && !cfg.UsesLanes() && s.websocketActive && 0 in s.lanes
    ensures SessionSteps.Step(cfg, s, e).websocketActive
  {
    hide UpFinishes, LaneAcquired;
    match e
    case Begin(_, _) =>
    case Finish(sequence, body, admits) => FinishCarriers(cfg, s, sequence, body, admits);
    case UpLane(_, _, _, _) =>
    case AcquireLane(k) => NoLaneAcquired(cfg, s, k);
    case _ => OthersKeepCarriers(cfg, s, e);
  }

  lemma NoLaneAcquired(cfg: Config, s: State, k: nat)
    requires !cfg.UsesLanes()
    ensures LaneAcquired(cfg, s, k).0 == s
  {
  }

  lemma {:induction false} SocketStays(cfg: Config, pool: Charge, events: seq<Event>, more: seq<Event>)
    requires GoodConfig(cfg) && NOTHING.Within(pool) && !cfg.UsesLanes() && CrashFree(cfg, pool, events + more)
    requires SessionSteps.Run(cfg, pool, events).websocketActive
    ensures SessionSteps.Run(cfg, pool, events + more).websocketActive
  {
    hide SessionSteps.Step, Inv, Crashes;
    if |more| == 0 {
      assert events + more == events;
    } else {
      var init := more[..|more| - 1];
      assert (events + more)[..|events + more| - 1] == events + init;
      SocketStays(cfg, pool, events, init);
      RunInv(cfg, pool, events + init);
      LaneFacts(cfg, SessionSteps.Run(cfg, pool, events + init), NOTHING);
      StepKeepsSocket(cfg, SessionSteps.Run(cfg, pool, events + init), more[|more| - 1]);
    }
  }
}

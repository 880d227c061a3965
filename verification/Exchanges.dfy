/**
 * Every carrier's uplink exchange and socket through a run: which numbered bodies it has taken whole, and
 * what it therefore answers to any request, whoever sends it.
 */
module Exchanges {
  import opened Octets
  import opened Frames
  import opened Limits
  import opened Poll
  import opened Uplink
  import opened SessionState
  import opened BatchLaws
  import opened SessionSteps
  import opened UplinkSteps
  import opened Carriers
  import opened UplinkRun

  /**
   * `done` are the requests whose bodies the carrier has applied whole, in order. `parsing` is set between
   * ProcessUp's two critical sections. `held` is set while a socket has the lane.
   */
  datatype Exchange = Exchange(done: seq<Request>, parsing: bool, held: bool)

  const NEW_EXCHANGE := Exchange([], false, false)

  /** The number of the last body taken; numbers begin with one. */
  function LastNumber(done: seq<Request>): nat {
    if done == [] then 0 else done[|done| - 1].sequence
  }

  /** The request is the last one taken, sent again. */
  predicate Repeats(done: seq<Request>, sequence: nat, body: Bytes) {
    done != [] && done[|done| - 1] == Request(sequence, body)
  }

  predicate Follows(done: seq<Request>, sequence: nat) {
    sequence == LastNumber(done) + 1
  }

  /** What an event adds to the exchange of a carrier that is there after it. */
  function Noted(cfg: Config, s: State, x: Exchange, k: nat, e: SessionSteps.Event): Exchange
    requires GoodConfig(cfg)
  {
    match e
    case Begin(sequence, body) =>
      if !cfg.UsesLanes() && k == 0 && !s.closed && Follows(x.done, sequence) then x.(parsing := true) else x
    case Finish(sequence, body, admits) =>
      if cfg.UsesLanes() || k != 0 then x
      else
        x.(parsing := false,
           done := if !s.closed && Whole(cfg, AfterParse(s), body, admits) then x.done + [Request(sequence, body)]
                   else x.done)
    case UpLane(lane, sequence, body, admits) =>
      if cfg.UsesLanes() && lane == k <= MAX_STREAM_ID && !s.closed && ForLane(cfg, s, k, body)
         && Follows(x.done, sequence) && Whole(cfg, Entered(s, k), body, admits) then
        x.(done := x.done + [Request(sequence, body)])
      else x
    case AcquireLane(lane) => if lane == k && LaneAcquired(cfg, s, k).1 then x.(held := true) else x
    case _ => x
  }

  /** A carrier's exchange goes with it; one that comes back begins anew. */
  function NotedAll(cfg: Config, s: State, h: map<nat, Exchange>, e: SessionSteps.Event): map<nat, Exchange>
    requires GoodConfig(cfg)
  {
    var t := SessionSteps.Step(cfg, s, e);
    map k | k in t.lanes :: Noted(cfg, s, if k in s.lanes && k in h then h[k] else NEW_EXCHANGE, k, e)
  }

  function ExchangesAfter(cfg: Config, pool: Charge, events: seq<SessionSteps.Event>): map<nat, Exchange>
    requires GoodConfig(cfg)
  {
    if events == [] then map k | k in NewSession(cfg, pool).lanes :: NEW_EXCHANGE
    else
      var before := events[..|events| - 1];
      NotedAll(cfg, SessionSteps.Run(cfg, pool, before), ExchangesAfter(cfg, pool, before), events[|events| - 1])
  }

  // The carrier's own fields say what its exchange says.

  predicate Numbered(done: seq<Request>) {
    forall i | 0 <= i < |done| :: done[i].sequence == i + 1
  }

  predicate Matches(cfg: Config, lane: Lane, x: Exchange) {
    && lane.up.lastSequence == LastNumber(x.done)
    && lane.up.lastBody == (if x.done == [] then [] else x.done[|x.done| - 1].body)
    && lane.up.active == x.parsing && lane.websocketActive == x.held
    && (cfg.UsesLanes() ==> !x.parsing && Numbered(x.done))
  }

  ghost predicate Tracks(cfg: Config, s: State, h: map<nat, Exchange>) {
    forall k | k in s.lanes :: k in h && Matches(cfg, s.lanes[k], h[k])
  }

  lemma MatchesNew(cfg: Config, birth: int)
    ensures Matches(cfg, NewLane(birth), NEW_EXCHANGE)
  {
  }

  lemma TracksAt(cfg: Config, s: State, h: map<nat, Exchange>, k: nat)
    requires Tracks(cfg, s, h) && k in s.lanes
    ensures k in h && Matches(cfg, s.lanes[k], h[k])
  {
    hide Matches;
  }

  /** What a body taken whole adds. */
  lemma TakenMatches(cfg: Config, lane: Lane, x: Exchange, sequence: nat, body: Bytes)
    requires Matches(cfg, lane, x) && (cfg.UsesLanes() ==> Follows(x.done, sequence))
    ensures Matches(cfg, lane.(up := Up(sequence, body, false)),
                    x.(done := x.done + [Request(sequence, body)], parsing := false))
  {
    if cfg.UsesLanes() {
      NumberedLast(x.done);
    }
  }

  lemma NumberedLast(done: seq<Request>)
    requires Numbered(done)
    ensures LastNumber(done) == |done|
  {
  }

  /** Every step that changes no uplink half and enters no lane notes nothing. */
  lemma QuietTracks(cfg: Config, s: State, h: map<nat, Exchange>, e: SessionSteps.Event)
    requires GoodConfig(cfg) && Tracks(cfg, s, h) && SameCarriers(s, SessionSteps.Step(cfg, s, e))
    requires forall k | k in SessionSteps.Step(cfg, s, e).lanes && k in h :: Noted(cfg, s, h[k], k, e) == h[k]
    ensures Tracks(cfg, SessionSteps.Step(cfg, s, e), NotedAll(cfg, s, h, e))
  {
    hide SessionSteps.Step, Noted;
  }

  lemma OtherTracks(cfg: Config, s: State, h: map<nat, Exchange>, e: SessionSteps.Event)
    requires GoodConfig(cfg) && Tracks(cfg, s, h)
    requires !e.Begin? && !e.Finish? && !e.UpLane? && !e.AcquireLane?
    ensures Tracks(cfg, SessionSteps.Step(cfg, s, e), NotedAll(cfg, s, h, e))
  {
    hide SessionSteps.Step, Tracks, SameCarriers;
    OthersKeepCarriers(cfg, s, e);
    QuietTracks(cfg, s, h, e);
  }

  /** A step that may enter carrier `k` and then changes only its uplink half. */
  lemma OneTracks(cfg: Config, s: State, h: map<nat, Exchange>, e: SessionSteps.Event, s1: State, k: nat, up: Up,
                  x: Exchange)
    requires GoodConfig(cfg) && Tracks(cfg, s, h) && (s1 == s || s1 == Entered(s, k)) && k in s1.lanes
    requires OnlyUp(s1, SessionSteps.Step(cfg, s, e), k, up) && Matches(cfg, s1.lanes[k].(up := up), x)
    requires Noted(cfg, s, if k in s.lanes && k in h then h[k] else NEW_EXCHANGE, k, e) == x
    requires forall j | j in h && j != k :: Noted(cfg, s, h[j], j, e) == h[j]
    ensures Tracks(cfg, SessionSteps.Step(cfg, s, e), NotedAll(cfg, s, h, e))
  {
    hide SessionSteps.Step, Noted, Matches;
    var t, h' := SessionSteps.Step(cfg, s, e), NotedAll(cfg, s, h, e);
    forall j | j in t.lanes
      ensures j in h' && Matches(cfg, t.lanes[j], h'[j])
    {
      if j == k {
        DownIsNotTracked(cfg, s1.lanes[k].(up := up), t.lanes[k].down, x);
      } else {
        assert j in s.lanes && s1.lanes[j] == s.lanes[j];
        TracksAt(cfg, s, h, j);
        DownIsNotTracked(cfg, s.lanes[j], t.lanes[j].down, h[j]);
      }
    }
  }

  lemma DownIsNotTracked(cfg: Config, lane: Lane, down: Down, x: Exchange)
    requires Matches(cfg, lane, x)
    ensures Matches(cfg, lane.(down := down), x)
  {
  }

  lemma AdmitsNext(cfg: Config, lane: Lane, x: Exchange, sequence: nat, body: Bytes)
    requires Matches(cfg, lane, x)
    ensures Admit(lane.up, sequence, body).Begin? <==> Follows(x.done, sequence) && !x.parsing
    ensures Admit(lane.up, sequence, body).Busy? <==> Follows(x.done, sequence) && x.parsing
    ensures Admit(lane.up, sequence, body).Acknowledge? <==> sequence != 0 && Repeats(x.done, sequence, body)
    ensures cfg.UsesLanes() ==> !x.parsing
  {
  }

  lemma ParsingMatches(cfg: Config, lane: Lane, x: Exchange, parsing: bool)
    requires Matches(cfg, lane, x) && !cfg.UsesLanes()
    ensures Matches(cfg, lane.(up := lane.up.(active := parsing)), x.(parsing := parsing))
  {
  }

  lemma BeginTracks(cfg: Config, s: State, h: map<nat, Exchange>, e: SessionSteps.Event)
    requires GoodConfig(cfg) && Tracks(cfg, s, h) && e.Begin? && !cfg.UsesLanes() && 0 in s.lanes
    ensures Tracks(cfg, SessionSteps.Step(cfg, s, e), NotedAll(cfg, s, h, e))
  {
    hide Matches, Tracks, NotedAll, Admit, Follows;
    TracksAt(cfg, s, h, 0);
    AdmitsNext(cfg, s.lanes[0], h[0], e.sequence, e.body);
    ParsingMatches(cfg, s.lanes[0], h[0], true);
    ActiveIsParsing(cfg, s.lanes[0], h[0]);
    var up := if s.closed || !Follows(h[0].done, e.sequence) then s.lanes[0].up else s.lanes[0].up.(active := true);
    OneTracks(cfg, s, h, e, s, 0, up, Noted(cfg, s, h[0], 0, e));
  }

  lemma ActiveIsParsing(cfg: Config, lane: Lane, x: Exchange)
    requires Matches(cfg, lane, x)
    ensures lane.up.active == x.parsing
  {
  }

  lemma FinishTracks(cfg: Config, s: State, h: map<nat, Exchange>, e: SessionSteps.Event)
    requires GoodConfig(cfg) && Tracks(cfg, s, h) && e.Finish? && !cfg.UsesLanes() && 0 in s.lanes
    ensures Tracks(cfg, SessionSteps.Step(cfg, s, e), NotedAll(cfg, s, h, e))
  {
    hide Whole, UpFinishes, Matches, Tracks, NotedAll, OnlyUp;
    FinishCarriers(cfg, s, e.sequence, e.body, e.admits);
    TracksAt(cfg, s, h, 0);
    TakenMatches(cfg, s.lanes[0], h[0], e.sequence, e.body);
    ParsingMatches(cfg, s.lanes[0], h[0], false);
    var up := if UpFinishes(cfg, s, e.sequence, e.body, e.admits).1.Acked? then Up(e.sequence, e.body, false)
              else s.lanes[0].up.(active := false);
    OneTracks(cfg, s, h, e, s, 0, up, Noted(cfg, s, h[0], 0, e));
  }

  lemma UpLaneTracks(cfg: Config, s: State, h: map<nat, Exchange>, e: SessionSteps.Event)
    requires GoodConfig(cfg) && Tracks(cfg, s, h) && e.UpLane? && cfg.UsesLanes() && e.lane <= MAX_STREAM_ID
    ensures Tracks(cfg, SessionSteps.Step(cfg, s, e), NotedAll(cfg, s, h, e))
  {
    hide Whole, UpOnLane, ForLane, Readable, Matches, Tracks, NotedAll, OnlyUp, SameCarriers, Follows;
    var k := e.lane;
    var x := if k in s.lanes && k in h then h[k] else NEW_EXCHANGE;
    if s.closed || !ForLane(cfg, s, k, e.body) || Unread(cfg, e) {
      UnreadLeaves(cfg, s, e);
      SameAsItself(s, s);
      QuietTracks(cfg, s, h, e);
    } else {
      ReadIsRead(cfg, e);
      UpLaneCarriers(cfg, s, k, e.sequence, e.body, e.admits);
      var lane := Entered(s, k).lanes[k];
      EnteredMatches(cfg, s, h, k);
      AdmitsNext(cfg, lane, x, e.sequence, e.body);
      if Follows(x.done, e.sequence) {
        TakenMatches(cfg, lane, x, e.sequence, e.body);
        var taken := UpOnLane(cfg, s, k, e.sequence, e.body, e.admits).1.Acked?;
        OneTracks(cfg, s, h, e, Entered(s, k), k, if taken then Up(e.sequence, e.body, false) else lane.up,
                  Noted(cfg, s, x, k, e));
      } else {
        AsItWas(Entered(s, k), k);
        OneTracks(cfg, s, h, e, Entered(s, k), k, lane.up, x);
      }
    }
  }

  predicate Unread(cfg: Config, e: SessionSteps.Event)
    requires e.UpLane?
  {
    Readable(cfg, e.body).Some? ==> |e.admits| != |Readable(cfg, e.body).value|
  }

  lemma UnreadLeaves(cfg: Config, s: State, e: SessionSteps.Event)
    requires GoodConfig(cfg) && e.UpLane? && (s.closed || !ForLane(cfg, s, e.lane, e.body) || Unread(cfg, e))
    ensures UpOnLane(cfg, s, e.lane, e.sequence, e.body, e.admits).0 == s
    ensures Unread(cfg, e) ==> !Whole(cfg, Entered(s, e.lane), e.body, e.admits)
  {
    hide Whole, Readable, UpOnLane, AllOn;
    UnreadUplink(cfg, s, e.lane, e.sequence, e.body, e.admits);
    if Unread(cfg, e) {
      UnreadNotWhole(cfg, Entered(s, e.lane), e.body, e.admits);
    }
  }

  lemma ReadIsRead(cfg: Config, e: SessionSteps.Event)
    requires e.UpLane? && !Unread(cfg, e)
    ensures Readable(cfg, e.body).Some? && |e.admits| == |Readable(cfg, e.body).value|
  {
    hide Readable;
  }

  lemma EnteredMatches(cfg: Config, s: State, h: map<nat, Exchange>, k: nat)
    requires Tracks(cfg, s, h)
    ensures k in Entered(s, k).lanes
    ensures Matches(cfg, Entered(s, k).lanes[k], if k in s.lanes && k in h then h[k] else NEW_EXCHANGE)
  {
    hide Matches;
    MatchesNew(cfg, s.nextBirth);
  }

  lemma AsItWas(s: State, k: nat)
    requires k in s.lanes
    ensures OnlyUp(s, s, k, s.lanes[k].up)
  {
  }

  lemma AcquiredShape(cfg: Config, s: State, k: nat)
    ensures var (t, ok) := LaneAcquired(cfg, s, k);
      && (forall j | j in t.lanes && j != k :: j in s.lanes && t.lanes[j] == s.lanes[j])
      && (k in t.lanes ==>
            k in Entered(s, k).lanes
            && t.lanes[k] == (if ok then Entered(s, k).lanes[k].(websocketActive := true) else Entered(s, k).lanes[k]))
  {
  }

  lemma AcquireTracks(cfg: Config, s: State, h: map<nat, Exchange>, e: SessionSteps.Event)
    requires GoodConfig(cfg) && Tracks(cfg, s, h) && e.AcquireLane?
    ensures Tracks(cfg, SessionSteps.Step(cfg, s, e), NotedAll(cfg, s, h, e))
  {
    hide Matches, Tracks, LaneAcquired, Entered;
    var k, t, h' := e.lane, SessionSteps.Step(cfg, s, e), NotedAll(cfg, s, h, e);
    AcquiredShape(cfg, s, k);
    EnteredMatches(cfg, s, h, k);
    SocketIsHeld(cfg, Entered(s, k).lanes[k], if k in s.lanes && k in h then h[k] else NEW_EXCHANGE);
    forall j | j in t.lanes
      ensures j in h' && Matches(cfg, t.lanes[j], h'[j])
    {
      if j in s.lanes {
        TracksAt(cfg, s, h, j);
      }
    }
    TracksAll(cfg, t, h');
  }

  lemma SocketIsHeld(cfg: Config, lane: Lane, x: Exchange)
    requires Matches(cfg, lane, x)
    ensures Matches(cfg, lane.(websocketActive := true), x.(held := true))
    ensures lane.websocketActive == x.held
  {
  }

  lemma TracksAll(cfg: Config, s: State, h: map<nat, Exchange>)
    requires forall k | k in s.lanes :: k in h && Matches(cfg, s.lanes[k], h[k])
    ensures Tracks(cfg, s, h)
  {
    hide Matches;
  }

  lemma IdleTracks(cfg: Config, s: State, h: map<nat, Exchange>, e: SessionSteps.Event)
    requires GoodConfig(cfg) && Tracks(cfg, s, h) && SessionSteps.Step(cfg, s, e) == s
    requires if cfg.UsesLanes() then e.Begin? || e.Finish? else e.UpLane?
    ensures Tracks(cfg, SessionSteps.Step(cfg, s, e), NotedAll(cfg, s, h, e))
  {
    hide SessionSteps.Step, Matches, Whole, ForLane;
  }

  lemma FarTracks(cfg: Config, s: State, h: map<nat, Exchange>, e: SessionSteps.Event)
    requires GoodConfig(cfg) && Tracks(cfg, s, h) && e.UpLane? && e.lane > MAX_STREAM_ID
    ensures Tracks(cfg, SessionSteps.Step(cfg, s, e), NotedAll(cfg, s, h, e))
  {
    hide UpOnLane, Matches, Whole, ForLane;
  }

  lemma StepTracks(cfg: Config, s: State, h: map<nat, Exchange>, e: SessionSteps.Event)
    requires GoodConfig(cfg) && Tracks(cfg, s, h) && (!cfg.UsesLanes() ==> 0 in s.lanes)
    ensures Tracks(cfg, SessionSteps.Step(cfg, s, e), NotedAll(cfg, s, h, e))
  {
    hide Tracks, NotedAll, UpBegins, UpFinishes, UpOnLane;
    match e
    case Begin(_, _) => if cfg.UsesLanes() { IdleTracks(cfg, s, h, e); } else { BeginTracks(cfg, s, h, e); }
    case Finish(_, _, _) => if cfg.UsesLanes() { IdleTracks(cfg, s, h, e); } else { FinishTracks(cfg, s, h, e); }
    case UpLane(k, _, _, _) =>
      if !cfg.UsesLanes() {
        IdleTracks(cfg, s, h, e);
      } else if k > MAX_STREAM_ID {
        FarTracks(cfg, s, h, e);
      } else {
        UpLaneTracks(cfg, s, h, e);
      }
    case AcquireLane(_) => AcquireTracks(cfg, s, h, e);
    case _ => OtherTracks(cfg, s, h, e);
  }

  lemma StartTracks(cfg: Config, pool: Charge)
    requires GoodConfig(cfg)
    ensures Tracks(cfg, NewSession(cfg, pool), ExchangesAfter(cfg, pool, []))
  {
  }

  lemma {:induction false} RunTracks(cfg: Config, pool: Charge, events: seq<SessionSteps.Event>)
    requires GoodConfig(cfg) && NOTHING.Within(pool) && CrashFree(cfg, pool, events)
    ensures Tracks(cfg, SessionSteps.Run(cfg, pool, events), ExchangesAfter(cfg, pool, events))
    ensures !cfg.UsesLanes() ==> 0 in SessionSteps.Run(cfg, pool, events).lanes
  {
    hide Tracks, NotedAll, SessionSteps.Step, Inv, Crashes, NewSession;
    RunInv(cfg, pool, events);
    LaneFacts(cfg, SessionSteps.Run(cfg, pool, events), NOTHING);
    if |events| == 0 {
      assert events == [];
      StartTracks(cfg, pool);
    } else {
      var before := events[..|events| - 1];
      RunTracks(cfg, pool, before);
      StepTracks(cfg, SessionSteps.Run(cfg, pool, before), ExchangesAfter(cfg, pool, before), events[|events| - 1]);
    }
  }

  /**
   * ProcessUp's first critical section, whoever sends the request: it is acknowledged exactly when it is
   * the last body taken, under its own number, and begun or told to wait when its number comes next; every
   * other repeated or misnumbered request is rejected. Nothing moves unless it begins.
   */
  lemma RepeatIsAcknowledgedIff(cfg: Config, pool: Charge, events: seq<SessionSteps.Event>, sequence: nat, body: Bytes)
    requires GoodConfig(cfg) && NOTHING.Within(pool) && CrashFree(cfg, pool, events) && !cfg.UsesLanes()
    ensures 0 in ExchangesAfter(cfg, pool, events)
    ensures var s, x := SessionSteps.Run(cfg, pool, events), ExchangesAfter(cfg, pool, events)[0];
      var (t, answer) := UpBegins(s, sequence, body);
      && (answer.Over? <==> s.closed)
      && (!s.closed ==>
            && (answer.Acked? <==> sequence != 0 && Repeats(x.done, sequence, body))
            && (answer.Parsing? <==> sequence == LastNumber(x.done) + 1 && !x.parsing)
            && (answer.Busy? <==> sequence == LastNumber(x.done) + 1 && x.parsing)
            && (answer.Rejected? <==>
                  sequence != LastNumber(x.done) + 1 && !(sequence != 0 && Repeats(x.done, sequence, body))))
      && (!answer.Parsing? ==> t == s)
  {
    hide SessionSteps.Run, ExchangesAfter, CrashFree, Matches, Tracks, Admit, Repeats, LastNumber;
    RunTracks(cfg, pool, events);
    var s, h := SessionSteps.Run(cfg, pool, events), ExchangesAfter(cfg, pool, events);
    TracksAt(cfg, s, h, 0);
    AdmitsNext(cfg, s.lanes[0], h[0], sequence, body);
  }

  lemma LaneCases(cfg: Config, s: State, k: nat, sequence: nat, body: Bytes, admits: seq<bool>)
    requires GoodConfig(cfg) && cfg.UsesLanes() && !s.closed && k in s.lanes && ForLane(cfg, s, k, body)
    requires |admits| == |Readable(cfg, body).value|
    ensures var (t, answer) := UpOnLane(cfg, s, k, sequence, body, admits);
      match Admit(s.lanes[k].up, sequence, body)
      case Acknowledge => answer.Acked? && t == s
      case Begin => answer.Acked? <==> Whole(cfg, s, body, admits)
      case Busy => true
      case _ => answer.Rejected? && t == s
  {
    hide Readable, AllOn, Receive, Whole, OnlyUp;
    ReceiveCarriers(cfg, s, k, sequence, body, admits);
  }

  lemma NumberedRepeat(done: seq<Request>, sequence: nat, body: Bytes)
    requires Numbered(done)
    ensures LastNumber(done) == |done| && (Repeats(done, sequence, body) ==> sequence == |done| != 0)
  {
  }

  /**
   * ProcessUpLane on a lane that is there, for a readable body on it: the last body taken, under its own
   * number, is acknowledged and changes nothing; any number but the next is rejected and changes nothing;
   * the next body is acknowledged exactly when it is taken whole. A lane's bodies are numbered from one.
   */
  lemma LaneRepeatIsAcknowledgedIff(cfg: Config, pool: Charge, events: seq<SessionSteps.Event>, k: nat, sequence: nat,
                                    body: Bytes, admits: seq<bool>)
    requires GoodConfig(cfg) && NOTHING.Within(pool) && cfg.UsesLanes()
    requires var s := SessionSteps.Run(cfg, pool, events);
      !s.closed && k in s.lanes && ForLane(cfg, s, k, body) && |admits| == |Readable(cfg, body).value|
    ensures k in ExchangesAfter(cfg, pool, events)
    ensures var s, done := SessionSteps.Run(cfg, pool, events), ExchangesAfter(cfg, pool, events)[k].done;
      var (t, answer) := UpOnLane(cfg, s, k, sequence, body, admits);
      && (forall i | 0 <= i < |done| :: done[i].sequence == i + 1)
      && if done != [] && done[|done| - 1] == Request(sequence, body) then answer.Acked? && t == s
         else if sequence != |done| + 1 then answer.Rejected? && t == s
         else answer.Acked? <==> Whole(cfg, s, body, admits)
  {
    hide SessionSteps.Run, ExchangesAfter, CrashFree, Matches, Tracks, Admit, LastNumber, ForLane, Readable;
    hide UpOnLane, Whole;
    LaneModesNeverCrash(cfg, pool, events);
    RunTracks(cfg, pool, events);
    var s, h := SessionSteps.Run(cfg, pool, events), ExchangesAfter(cfg, pool, events);
    TracksAt(cfg, s, h, k);
    AdmitsNext(cfg, s.lanes[k], h[k], sequence, body);
    LaneIsNumbered(cfg, s.lanes[k], h[k]);
    NumberedRepeat(h[k].done, sequence, body);
    LaneCases(cfg, s, k, sequence, body, admits);
  }

  lemma LaneIsNumbered(cfg: Config, lane: Lane, x: Exchange)
    requires Matches(cfg, lane, x) && cfg.UsesLanes()
    ensures Numbered(x.done)
  {
  }

  /**
   * ProcessUpLane where there is no lane, for a readable body on it: late frames alone are acknowledged,
   * whatever their number, and change nothing; a body that does not begin with OPEN is rejected and changes
   * nothing; any other enters the lane, which takes it whole or not as its number one.
   */
  lemma LateFramesAreAcknowledged(cfg: Config, s: State, k: nat, sequence: nat, body: Bytes, admits: seq<bool>)
    requires GoodConfig(cfg) && !s.closed && k !in s.lanes && k != 0
    requires Readable(cfg, body).Some? && |admits| == |Readable(cfg, body).value|
    ensures var frames, (t, answer) := Readable(cfg, body).value, UpOnLane(cfg, s, k, sequence, body, admits);
      if frames == [] || (exists i :: 0 <= i < |frames| && frames[i].id != k) then answer.Rejected? && t == s
      else if forall i | 0 <= i < |frames| ::
        frames[i].kind == DATA || frames[i].kind == WINDOW || frames[i].kind == CLOSE then answer.Acked? && t == s
      else if frames[0].kind != OPEN then answer.Rejected? && t == s
      else if sequence != 1 then answer.Rejected? && t == AddLane(s, k)
      else answer.Acked? <==> Whole(cfg, AddLane(s, k), body, admits)
  {
    hide Readable, Receive, Whole, OnlyUp;
    AddLaneShape(s, k);
    ReceiveCarriers(cfg, AddLane(s, k), k, sequence, body, admits);
    var frames := Readable(cfg, body).value;
    assert frames != [] && OnlyLate(frames) ==> frames[0].kind != OPEN;
  }

  /** AcquireWebSocketLane: granted exactly to a lane no socket holds, of an id not remembered, within the bound. */
  lemma SocketIsGrantedIff(cfg: Config, pool: Charge, events: seq<SessionSteps.Event>, k: nat)
    requires GoodConfig(cfg) && NOTHING.Within(pool) && cfg.carrier.WebSocketLanes?
    ensures var s, h := SessionSteps.Run(cfg, pool, events), ExchangesAfter(cfg, pool, events);
      h.Keys == s.lanes.Keys
      && (LaneAcquired(cfg, s, k).1 <==>
            && !s.closed && 0 < k <= MAX_STREAM_ID && k !in s.tombs
            && if k in h then !h[k].held else |h| < cfg.limits.maxStreamsPerSession)
  {
    hide SessionSteps.Run, CrashFree, Tracks, SessionSteps.Step, Noted;
    LaneModesNeverCrash(cfg, pool, events);
    RunTracks(cfg, pool, events);
    var s, h := SessionSteps.Run(cfg, pool, events), ExchangesAfter(cfg, pool, events);
    SameKeys(cfg, pool, events);
    assert |h| == |h.Keys| && |s.lanes| == |s.lanes.Keys|;
    if k in s.lanes {
      TracksAt(cfg, s, h, k);
    }
  }

  lemma SameKeys(cfg: Config, pool: Charge, events: seq<SessionSteps.Event>)
    requires GoodConfig(cfg)
    ensures ExchangesAfter(cfg, pool, events).Keys == SessionSteps.Run(cfg, pool, events).lanes.Keys
  {
    hide SessionSteps.Step, Noted;
  }

  /** Carrier `k` is there after every event of `more`. */
  predicate StaysThrough(cfg: Config, pool: Charge, events: seq<SessionSteps.Event>, more: seq<SessionSteps.Event>,
                         k: nat)
    requires GoodConfig(cfg)
  {
    forall n | 0 <= n <= |more| :: k in SessionSteps.Run(cfg, pool, events + more[..n]).lanes
  }

  lemma HeldStays(cfg: Config, s: State, h: map<nat, Exchange>, e: SessionSteps.Event, k: nat)
    requires GoodConfig(cfg) && k in s.lanes && k in SessionSteps.Step(cfg, s, e).lanes && k in h && h[k].held
    ensures k in NotedAll(cfg, s, h, e) && NotedAll(cfg, s, h, e)[k].held
  {
    hide SessionSteps.Step, Whole, ForLane;
  }

  lemma {:induction false} StillHeld(cfg: Config, pool: Charge, events: seq<SessionSteps.Event>,
                                     more: seq<SessionSteps.Event>, k: nat)
    requires GoodConfig(cfg) && StaysThrough(cfg, pool, events, more, k)
    requires k in ExchangesAfter(cfg, pool, events) && ExchangesAfter(cfg, pool, events)[k].held
    ensures k in ExchangesAfter(cfg, pool, events + more) && ExchangesAfter(cfg, pool, events + more)[k].held
  {
    hide SessionSteps.Run, SessionSteps.Step, NotedAll, StaysThrough;
    if |more| == 0 {
      assert events + more == events;
    } else {
      var init := more[..|more| - 1];
      StaysBefore(cfg, pool, events, more, k);
      StillHeld(cfg, pool, events, init, k);
      assert (events + more)[..|events + more| - 1] == events + init;
      StaysAt(cfg, pool, events, more, k);
      HeldStays(cfg, SessionSteps.Run(cfg, pool, events + init), ExchangesAfter(cfg, pool, events + init),
                more[|more| - 1], k);
    }
  }

  lemma StaysBefore(cfg: Config, pool: Charge, events: seq<SessionSteps.Event>, more: seq<SessionSteps.Event>, k: nat)
    requires GoodConfig(cfg) && StaysThrough(cfg, pool, events, more, k) && more != []
    ensures StaysThrough(cfg, pool, events, more[..|more| - 1], k)
  {
    hide SessionSteps.Run;
    var init := more[..|more| - 1];
    assert forall n | 0 <= n <= |init| :: init[..n] == more[..n];
  }

  lemma StaysAt(cfg: Config, pool: Charge, events: seq<SessionSteps.Event>, more: seq<SessionSteps.Event>, k: nat)
    requires GoodConfig(cfg) && StaysThrough(cfg, pool, events, more, k) && more != []
    ensures k in SessionSteps.Run(cfg, pool, events + more[..|more| - 1]).lanes
    ensures var before, last := SessionSteps.Run(cfg, pool, events + more[..|more| - 1]), more[|more| - 1];
      k in SessionSteps.Step(cfg, before, last).lanes
  {
    hide SessionSteps.Step;
    assert more[..|more|] == more;
    assert (events + more)[..|events + more| - 1] == events + more[..|more| - 1];
  }

  /** From the grant of a lane to a socket until the lane is gone, no other socket is granted it. */
  lemma OneSocketPerLane(cfg: Config, pool: Charge, events: seq<SessionSteps.Event>, more: seq<SessionSteps.Event>,
                         k: nat)
    requires GoodConfig(cfg) && NOTHING.Within(pool) && cfg.carrier.WebSocketLanes?
    requires LaneAcquired(cfg, SessionSteps.Run(cfg, pool, events), k).1
    requires StaysThrough(cfg, pool, events + [AcquireLane(k)], more, k)
    ensures !LaneAcquired(cfg, SessionSteps.Run(cfg, pool, events + [AcquireLane(k)] + more), k).1
  {
    hide StaysThrough;
    var granted := events + [AcquireLane(k)];
    assert granted[..|granted| - 1] == events;
    GrantHolds(cfg, pool, events, k);
    StillHeld(cfg, pool, granted, more, k);
    hide *;
    SocketIsGrantedIff(cfg, pool, granted + more, k);
  }

  lemma GrantHolds(cfg: Config, pool: Charge, events: seq<SessionSteps.Event>, k: nat)
    requires GoodConfig(cfg) && LaneAcquired(cfg, SessionSteps.Run(cfg, pool, events), k).1
    ensures var h := ExchangesAfter(cfg, pool, events + [AcquireLane(k)]); k in h && h[k].held
  {
    hide SessionSteps.Run;
    var granted := events + [AcquireLane(k)];
    assert granted[..|granted| - 1] == events && granted[|granted| - 1] == AcquireLane(k);
  }
}

/** What validation, reservation and application of an uplink batch promise each other. */
module BatchLaws {
  import opened Octets
  import opened Outcomes
  import opened Frames
  import opened Limits
  import opened Queue
  import opened Streams
  import opened Tombstones
  import opened SessionState
  import opened Batch

  function ReservationFor(s: State, frames: seq<Frame>): Charge {
    Reservation(s.streams.Keys, frames)
  }

  /** A batch the relay has validated at an open session, ready to be reserved for and applied. */
  ghost predicate Accepted(cfg: Config, s: State, frames: seq<Frame>) {
    && Inv(cfg, s, NOTHING) && !s.closed
    && AllFit(frames, MAX_PAYLOAD) && LanesReady(cfg, s, frames)
    && Validate(TrialOf(s), frames).Some?
  }

  /** applyBatchLocked's start: the reservation is charged, if there is any. */
  function Reserved(cfg: Config, s: State, frames: seq<Frame>): Option<Acc>
    requires GoodConfig(cfg)
  {
    var want := ReservationFor(s, frames);
    if want == NOTHING then Some(Acc(s, want, [], []))
    else
      match Reserve(cfg, s, want, Uplink)
      case None => None
      case Some(s') => Some(Acc(s', want, [], []))
  }

  lemma StartUnderway(cfg: Config, s: State, s': State, want: Charge, frames: seq<Frame>)
    requires Structured(cfg, s) && !s.closed && Inv(cfg, s', want)
    requires AllFit(frames, MAX_PAYLOAD) && LanesReady(cfg, s, frames) && Validate(TrialOf(s), frames).Some?
    requires want == ReservationFor(s, frames) && s' == s.(pending := s'.pending, pool := s'.pool)
    ensures Underway(cfg, TrialOf(s), Acc(s', want, [], []), frames, s.tombs, s.streams.Keys)
  {
    hide Inv, Agrees, Validate, AllFit, Reservation, Charge.Plus, TrialOf;
    StartAgrees(cfg, s);
    PlusNothing(want);
    SameTrial(cfg, s, s');
  }

  lemma AcceptedMeans(cfg: Config, s: State, frames: seq<Frame>)
    requires Accepted(cfg, s, frames)
    ensures Structured(cfg, s) && Inv(cfg, s, NOTHING) && !s.closed
    ensures AllFit(frames, MAX_PAYLOAD) && LanesReady(cfg, s, frames) && Validate(TrialOf(s), frames).Some?
  {
  }

  lemma ReservedUnderway(cfg: Config, s: State, frames: seq<Frame>)
    requires Accepted(cfg, s, frames) && Reserved(cfg, s, frames).Some?
    ensures var a := Reserved(cfg, s, frames).value;
      && Underway(cfg, TrialOf(s), a, frames, s.tombs, s.streams.Keys)
      && a.s == s.(pending := a.s.pending, pool := a.s.pool)
  {
    hide Inv, Accepted, Underway, Reservation, Charge.Plus, TrialOf, SessionAdmits, PoolAdmits, Structured;
    hide LanesReady, Validate;
    AcceptedMeans(cfg, s, frames);
    var want := ReservationFor(s, frames);
    if want == NOTHING {
      StartUnderway(cfg, s, s, want, frames);
    } else {
      ReserveInv(cfg, s, want, Uplink, NOTHING);
      NothingPlus(want);
      StartUnderway(cfg, s, Reserve(cfg, s, want, Uplink).value, want, frames);
    }
  }

  lemma NothingPlus(c: Charge)
    ensures NOTHING.Plus(c) == c
  {
  }

  lemma SameTrial(cfg: Config, s: State, t: State)
    requires GoodConfig(cfg) && s.streams == t.streams && s.tombs == t.tombs
    ensures TrialOf(s) == TrialOf(t)
    ensures Agrees(cfg, TrialOf(s), s, s.tombs) <==> Agrees(cfg, TrialOf(t), t, t.tombs)
  {
  }

  /** The books balance with what is left of the reservation, unless a tombstone was lost. */
  ghost predicate Settled(cfg: Config, r: Applied, lost: bool) {
    match r
    case Going(a) => !lost && Inv(cfg, a.s, a.left) && !a.s.closed
    case Aborted(a) => Inv(cfg, a.s, a.left)
    case NilStream => lost
  }

  /**
   * A validated batch applies: no missing stream, no window underflow (every stream stays balanced
   * within Inv), charges within the reservation, and the books balanced with what is left of it
   * (which Inv says is nonnegative). The one way to fail is a tombstone pushed out of the ring before
   * a later frame of its stream, and then it always fails unless a full control queue stopped the
   * batch first.
   */
  lemma ValidatedBatchApplies(cfg: Config, s: State, a: Acc, frames: seq<Frame>, admits: seq<bool>)
    requires Accepted(cfg, s, frames) && Reserved(cfg, s, frames) == Some(a) && |admits| == |frames|
    ensures Settled(cfg, Apply(cfg, a, frames, admits), LosesSome(cfg, IdsOf(s), frames, admits))
  {
    ReservedUnderway(cfg, s, frames);
    ApplyUnderway(cfg, TrialOf(s), a, frames, admits, s.tombs, s.streams.Keys);
  }

  // When no tombstone can be lost.

  /** Frames that can close a stream: each leaves at most one tombstone. */
  function Closings(frames: seq<Frame>): nat {
    if frames == [] then 0
    else (if frames[0].kind == OPEN || frames[0].kind == CLOSE then 1 else 0) + Closings(frames[1..])
  }

  ghost predicate Tracked(t: Trial, ids: Ids) {
    forall id :: KnownTo(t, id) ==> id in ids.live || id in ids.history
  }

  lemma TrackedStep(cfg: Config, t: Trial, ids: Ids, f: Frame, admit: bool)
    requires GoodConfig(cfg) && Tracked(t, ids) && ValidateFrame(t, f).Some?
    ensures Tracked(ValidateFrame(t, f).value, IdsAfter(cfg, ids, f, admit))
  {
    var t', ids' := ValidateFrame(t, f).value, IdsAfter(cfg, ids, f, admit);
    forall id | KnownTo(t', id)
      ensures id in ids'.live || id in ids'.history
    {
      assert KnownTo(t, id) || id == f.id;
      if ids'.history == ids.history + [f.id] {
        assert ids'.history[|ids.history|] == f.id;
      }
    }
  }

  lemma {:induction false} RoomLosesNothing(cfg: Config, t: Trial, ids: Ids, frames: seq<Frame>, admits: seq<bool>)
    requires GoodConfig(cfg) && |admits| == |frames| && Tracked(t, ids) && Validate(t, frames).Some?
    requires |ids.history| + Closings(frames) <= cfg.limits.maxClosedStreamIDs
    ensures !LosesSome(cfg, ids, frames, admits)
    decreases |frames|
  {
    if frames != [] {
      TrackedStep(cfg, t, ids, frames[0], admits[0]);
      assert frames[0].id != 0 && (frames[0].kind == DATA || frames[0].kind == WINDOW || frames[0].kind == CLOSE)
        ==> KnownTo(t, frames[0].id);
      RoomLosesNothing(cfg, ValidateFrame(t, frames[0]).value, IdsAfter(cfg, ids, frames[0], admits[0]),
                       frames[1..], admits[1..]);
    }
  }

  /**
   * The guard a caller can check: with room in the ring for every OPEN and CLOSE of the batch, it
   * never meets a missing stream, whatever admission control answers.
   */
  lemma RoomInRingIsEnough(cfg: Config, s: State, a: Acc, frames: seq<Frame>, admits: seq<bool>)
    requires Accepted(cfg, s, frames) && Reserved(cfg, s, frames) == Some(a) && |admits| == |frames|
    requires |s.tombs| + Closings(frames) <= cfg.limits.maxClosedStreamIDs
    ensures !Apply(cfg, a, frames, admits).NilStream?
  {
    ValidatedBatchApplies(cfg, s, a, frames, admits);
    RoomLosesNothing(cfg, TrialOf(s), IdsOf(s), frames, admits);
    hide Apply, Inv;
  }

  /** Only one id, and it is among the newest: the history of a lane's batch. */
  ghost predicate LaneHistory(cfg: Config, t: Trial, ids: Ids, start: seq<nat>, lane: nat) {
    && (ids.history == start || ids.history == start + [lane])
    && (KnownTo(t, lane) ==> lane in ids.live || lane in ids.history)
    && (lane in ids.live ==> ids.history == start && KnownTo(t, lane))
    && (lane in ids.history ==> KnownTo(t, lane) && lane !in ids.live)
  }

  lemma {:induction false} LaneLosesNothing(cfg: Config, t: Trial, ids: Ids, start: seq<nat>, lane: nat,
                                            frames: seq<Frame>, admits: seq<bool>)
    requires GoodConfig(cfg) && |admits| == |frames| && Validate(t, frames).Some?
    requires |start| <= cfg.limits.maxClosedStreamIDs && LaneHistory(cfg, t, ids, start, lane)
    requires forall i | 0 <= i < |frames| :: frames[i].id == lane
    ensures !LosesSome(cfg, ids, frames, admits)
    decreases |frames|
  {
    if frames != [] {
      var f := frames[0];
      var t', ids' := ValidateFrame(t, f).value, IdsAfter(cfg, ids, f, admits[0]);
      assert (start + [lane])[|start|] == lane;
      assert f.id == lane;
      if ids.history == start + [lane] {
        assert Newest(ids.history, cfg.limits.maxClosedStreamIDs)[
          |Newest(ids.history, cfg.limits.maxClosedStreamIDs)| - 1] == lane;
      }
      LaneLosesNothing(cfg, t', ids', start, lane, frames[1..], admits[1..]);
    }
  }

  /** A lane's batch carries one stream, so its tombstone cannot be lost in passing. */
  lemma LaneBatchNeverLoses(cfg: Config, s: State, lane: nat, frames: seq<Frame>, admits: seq<bool>)
    requires Accepted(cfg, s, frames) && |admits| == |frames|
    requires forall i | 0 <= i < |frames| :: frames[i].id == lane
    ensures !LosesSome(cfg, IdsOf(s), frames, admits)
  {
    assert forall id | id in s.streams :: GoodStream(cfg, s, id);
    LaneLosesNothing(cfg, TrialOf(s), IdsOf(s), s.tombs, lane, frames, admits);
  }

  /**
   * The failing family is real: with the ring full, closing one stream and then sending late DATA
   * of the oldest remembered one passes validation and dereferences a missing stream.
   */
  lemma EvictedTombstoneIsMissed(cfg: Config, a: Acc, close: Frame, late: Frame, admits: seq<bool>)
    requires Structured(cfg, a.s) && |admits| == 2
    requires |a.s.tombs| == cfg.limits.maxClosedStreamIDs
    requires close.kind == CLOSE && close.id in a.s.streams
    requires late.kind == DATA && late.id == a.s.tombs[0] && 0 < late.id
    ensures Validate(TrialOf(a.s), [close, late]).Some?
    ensures ReservationFor(a.s, [close, late]) == NOTHING
    ensures Apply(cfg, a, [close, late], admits) == NilStream
  {
    hide *;
    LiveIsNotRemembered(cfg, a.s);
    var frames := [close, late];
    EvictionSteps(cfg, a, close, late, admits);
    TwoFrames(cfg, TrialOf(a.s), a, a.s.streams.Keys, frames, admits);
    NothingPlus(NOTHING);
    assert ReservationFor(a.s, frames) == Reservation(a.s.streams.Keys, frames) by {
      ReservationIsForLive(a.s, frames);
    }
  }

  lemma ReservationIsForLive(s: State, frames: seq<Frame>)
    ensures ReservationFor(s, frames) == Reservation(s.streams.Keys, frames)
  {
  }

  lemma LiveIsNotRemembered(cfg: Config, s: State)
    requires Structured(cfg, s)
    ensures GoodConfig(cfg) && WellFormed(s.tombs, cfg.limits.maxClosedStreamIDs)
    ensures cfg.limits.maxClosedStreamIDs > 0
    ensures forall id | id in s.streams :: id != 0 && id !in s.tombs
  {
    assert forall id | id in s.streams :: GoodStream(cfg, s, id);
  }

  lemma TwoFrames(cfg: Config, t: Trial, a: Acc, live: set<nat>, frames: seq<Frame>, admits: seq<bool>)
    requires GoodConfig(cfg) && |admits| == 2 && |frames| == 2
    ensures Validate(t, frames) ==
      match ValidateFrame(t, frames[0])
      case Some(t') => ValidateFrame(t', frames[1])
      case None => None
    ensures Reservation(live, frames) ==
      ReserveFrame(live, frames[0]).Plus(ReserveFrame(LiveAfter(live, frames[0]), frames[1]))
    ensures Apply(cfg, a, frames, admits) ==
      match ApplyFrame(cfg, a, frames[0], admits[0])
      case Going(a') => ApplyFrame(cfg, a', frames[1], admits[1])
      case stop => stop
  {
    hide ValidateFrame, ApplyFrame, ReserveFrame, LiveAfter, Charge.Plus;
    var rest := frames[1..];
    var live' := LiveAfter(live, frames[0]);
    PlusNothing(ReserveFrame(live', rest[0]));
    NoFrames(LiveAfter(live', rest[0]), rest[1..]);
    if ValidateFrame(t, frames[0]).Some? {
      var t' := ValidateFrame(t, frames[0]).value;
      assert Validate(t', rest) == ValidateFrame(t', rest[0]);
    }
    if ApplyFrame(cfg, a, frames[0], admits[0]).Going? {
      var a' := ApplyFrame(cfg, a, frames[0], admits[0]).acc;
      assert Apply(cfg, a', rest, admits[1..]) == ApplyFrame(cfg, a', rest[0], admits[1..][0]);
    }
  }

  lemma EvictionSteps(cfg: Config, a: Acc, close: Frame, late: Frame, admits: seq<bool>)
    requires GoodConfig(cfg) && |admits| == 2 && WellFormed(a.s.tombs, cfg.limits.maxClosedStreamIDs)
    requires |a.s.tombs| == cfg.limits.maxClosedStreamIDs
    requires close.kind == CLOSE && close.id in a.s.streams && close.id != 0 && close.id !in a.s.tombs
    requires late.kind == DATA && late.id == a.s.tombs[0] && 0 < late.id && late.id !in a.s.streams
    ensures ValidateFrame(TrialOf(a.s), close).Some?
    ensures ValidateFrame(ValidateFrame(TrialOf(a.s), close).value, late).Some?
    ensures ReserveFrame(a.s.streams.Keys, close) == NOTHING
    ensures ReserveFrame(LiveAfter(a.s.streams.Keys, close), late) == NOTHING
    ensures ApplyFrame(cfg, a, close, admits[0]).Going?
    ensures ApplyFrame(cfg, ApplyFrame(cfg, a, close, admits[0]).acc, late, admits[1]) == NilStream
  {
    CloseStreamShape(cfg, a.s, close.id);
    RememberKeeps(a.s.tombs, close.id, cfg.limits.maxClosedStreamIDs);
    assert Evicted(a.s.tombs, close.id, cfg.limits.maxClosedStreamIDs) == Some(late.id);
    hide CloseStream, Remember, Evicted;
  }

  // The exact condition for a batch whose OPENs are all admitted, by frame positions alone.

  predicate IsLate(f: Frame) {
    f.id != 0 && (f.kind == DATA || f.kind == WINDOW || f.kind == CLOSE)
  }

  /** The ids closed so far, oldest first: those remembered before the batch, then one for each first CLOSE. */
  function ClosedSoFar(tombs: seq<nat>, frames: seq<Frame>): seq<nat> {
    if frames == [] then tombs
    else
      var before, last := ClosedSoFar(tombs, frames[..|frames| - 1]), frames[|frames| - 1];
      if last.kind == CLOSE && last.id !in before then before + [last.id] else before
  }

  function OpensIn(frames: seq<Frame>): nat {
    if frames == [] then 0 else OpensIn(frames[..|frames| - 1]) + if frames[|frames| - 1].kind == OPEN then 1 else 0
  }

  /** Frame `n` is of the `p`th id closed by then, and `cap` ids or more were closed after that one. */
  predicate Outlives(tombs: seq<nat>, frames: seq<Frame>, cap: nat, n: nat, p: nat)
    requires n < |frames|
  {
    var closed := ClosedSoFar(tombs, frames[..n]);
    IsLate(frames[n]) && p + cap < |closed| && closed[p] == frames[n].id
  }

  predicate OutlivedFrom(tombs: seq<nat>, frames: seq<Frame>, cap: nat, from: nat)
    requires from <= |frames|
  {
    exists n: nat, p: nat | from <= n < |frames| && p < |ClosedSoFar(tombs, frames[..n])| ::
      Outlives(tombs, frames, cap, n, p)
  }

  /** Streams live at frame `n`: those at the start, and those opened, less those closed. */
  function LiveAt(s: State, frames: seq<Frame>, n: nat): int
    requires n <= |frames|
  {
    |s.streams| + OpensIn(frames[..n]) - (|ClosedSoFar(s.tombs, frames[..n])| - |s.tombs|)
  }

  /** Admission control grants every OPEN, and the session is below its stream limit at each. */
  predicate AllAdmitted(cfg: Config, s: State, frames: seq<Frame>, admits: seq<bool>)
    requires |admits| == |frames|
  {
    forall n | 0 <= n < |frames| && frames[n].kind == OPEN ::
      admits[n] && LiveAt(s, frames, n) < cfg.limits.maxStreamsPerSession
  }

  lemma PrefixNext(tombs: seq<nat>, frames: seq<Frame>, n: nat)
    requires n < |frames|
    ensures OpensIn(frames[..n + 1]) == OpensIn(frames[..n]) + if frames[n].kind == OPEN then 1 else 0
    ensures var before := ClosedSoFar(tombs, frames[..n]);
      ClosedSoFar(tombs, frames[..n + 1]) ==
        if frames[n].kind == CLOSE && frames[n].id !in before then before + [frames[n].id] else before
  {
    assert frames[..n + 1][..n] == frames[..n];
  }

  lemma NewestFrom(history: seq<nat>, cap: nat, p: nat)
    requires Distinct(history) && p < |history|
    ensures history[p] in Newest(history, cap) <==> |history| <= p + cap
  {
    if |history| > cap {
      var k := |history| - cap;
      if p >= k {
        assert Newest(history, cap)[p - k] == history[p];
      }
    }
  }

  /** At a frame the batch reaches: its tombstone is lost exactly if `cap` ids were closed after its own. */
  lemma LosesIfOutlived(cfg: Config, t: Trial, s: State, f: Frame, history: seq<nat>)
    requires GoodConfig(cfg) && Agrees(cfg, t, s, history) && ValidateFrame(t, f).Some?
    ensures LosesTombstone(cfg, Ids(s.streams.Keys, history), f) <==>
      IsLate(f) && exists p | 0 <= p < |history| :: history[p] == f.id && p + cfg.limits.maxClosedStreamIDs < |history|
  {
    hide Newest;
    var cap := cfg.limits.maxClosedStreamIDs;
    if IsLate(f) && f.id in history {
      var p :| 0 <= p < |history| && history[p] == f.id;
      NewestFrom(history, cap, p);
    }
  }

  /** Ids and counts after a frame, when an OPEN is admitted. */
  lemma AdmittedNext(cfg: Config, t: Trial, a: Acc, f: Frame, admit: bool, history: seq<nat>)
    requires GoodConfig(cfg) && Agrees(cfg, t, a.s, history) && ValidateFrame(t, f).Some?
    requires f.kind == OPEN ==> admit && |a.s.streams| < cfg.limits.maxStreamsPerSession
    ensures !ApplyFrame(cfg, a, f, admit).Aborted?
    ensures var ids := IdsAfter(cfg, Ids(a.s.streams.Keys, history), f, admit);
      && ids.history == (if f.kind == CLOSE && f.id !in history then history + [f.id] else history)
      && |ids.live| == |a.s.streams| + (if f.kind == OPEN then 1 else 0) - (|ids.history| - |history|)
  {
    hide Distinct, Newest, SnapshotOf, AcceptData, CloseStream, AddCredit;
    assert |a.s.streams| == |a.s.streams.Keys|;
  }

  /** The batch at frame `n`, its history the ids closed so far. */
  ghost predicate Reaches(cfg: Config, s: State, t: Trial, a: Acc, frames: seq<Frame>, n: nat, history: seq<nat>,
                          live: set<nat>)
    requires n <= |frames|
  {
    && Underway(cfg, t, a, frames[n..], history, live)
    && history == ClosedSoFar(s.tombs, frames[..n]) && |a.s.streams| == LiveAt(s, frames, n)
  }

  lemma AdmittedStep(cfg: Config, s: State, t: Trial, a: Acc, frames: seq<Frame>, admits: seq<bool>, n: nat,
                     history: seq<nat>, live: set<nat>)
    requires |admits| == |frames| && n < |frames| && AllAdmitted(cfg, s, frames, admits)
    requires Reaches(cfg, s, t, a, frames, n, history, live)
    ensures GoodConfig(cfg) && ValidateFrame(t, frames[n]).Some?
    ensures var cap, out := cfg.limits.maxClosedStreamIDs, ApplyFrame(cfg, a, frames[n], admits[n]);
      var ids := IdsAfter(cfg, Ids(a.s.streams.Keys, history), frames[n], admits[n]);
      && !out.Aborted?
      && (out.NilStream? ==> OutlivedFrom(s.tombs, frames, cap, n))
      && (out.Going? ==>
            && (OutlivedFrom(s.tombs, frames, cap, n) <==> OutlivedFrom(s.tombs, frames, cap, n + 1))
            && Reaches(cfg, s, ValidateFrame(t, frames[n]).value, out.acc, frames, n + 1, ids.history,
                       LiveAfter(live, frames[n])))
  {
    hide *;
    ReachesMeans(cfg, s, t, a, frames, n, history, live);
    AdmittedAt(cfg, s, frames, admits, n);
    UnderwayStep(cfg, t, a, frames[n..], admits[n], history, live);
    AdmittedNext(cfg, t, a, frames[n], admits[n], history);
    LosesIfOutlived(cfg, t, a.s, frames[n], history);
    OutlivedStep(s.tombs, frames, cfg.limits.maxClosedStreamIDs, n);
    if ApplyFrame(cfg, a, frames[n], admits[n]).Going? {
      var ids := IdsAfter(cfg, Ids(a.s.streams.Keys, history), frames[n], admits[n]);
      NextReaches(cfg, s, a, ValidateFrame(t, frames[n]).value, ApplyFrame(cfg, a, frames[n], admits[n]).acc, frames, n,
                  history, ids, LiveAfter(live, frames[n]));
    }
  }

  lemma ReachesMeans(cfg: Config, s: State, t: Trial, a: Acc, frames: seq<Frame>, n: nat, history: seq<nat>,
                     live: set<nat>)
    requires n < |frames| && Reaches(cfg, s, t, a, frames, n, history, live)
    ensures Underway(cfg, t, a, frames[n..], history, live) && frames[n..] != [] && frames[n..][0] == frames[n]
    ensures frames[n..][1..] == frames[n + 1..]
    ensures GoodConfig(cfg) && cfg.limits.maxClosedStreamIDs > 0
    ensures Agrees(cfg, t, a.s, history) && ValidateFrame(t, frames[n]).Some?
    ensures history == ClosedSoFar(s.tombs, frames[..n]) && |a.s.streams| == LiveAt(s, frames, n)
  {
    hide Underway, Agrees, ValidateFrame, LiveAt, ClosedSoFar;
    UnderwayAgrees(cfg, t, a, frames[n..], history, live);
  }

  lemma NextReaches(cfg: Config, s: State, a: Acc, t: Trial, b: Acc, frames: seq<Frame>, n: nat, history: seq<nat>,
                    ids: Ids, live: set<nat>)
    requires n < |frames| && Underway(cfg, t, b, frames[n + 1..], ids.history, live)
    requires history == ClosedSoFar(s.tombs, frames[..n]) && |a.s.streams| == LiveAt(s, frames, n)
    requires ids.live == b.s.streams.Keys
    requires ids.history ==
      if frames[n].kind == CLOSE && frames[n].id !in history then history + [frames[n].id] else history
    requires |ids.live| == |a.s.streams| + (if frames[n].kind == OPEN then 1 else 0) - (|ids.history| - |history|)
    ensures Reaches(cfg, s, t, b, frames, n + 1, ids.history, live)
  {
    hide Underway, ClosedSoFar, OpensIn;
    PrefixNext(s.tombs, frames, n);
    assert |b.s.streams| == |b.s.streams.Keys|;
  }

  lemma {:induction false} AdmittedUnderway(cfg: Config, s: State, t: Trial, a: Acc, frames: seq<Frame>,
                                            admits: seq<bool>, n: nat, history: seq<nat>, live: set<nat>)
    requires |admits| == |frames| && n <= |frames| && AllAdmitted(cfg, s, frames, admits)
    requires GoodConfig(cfg) && Reaches(cfg, s, t, a, frames, n, history, live)
    ensures !Apply(cfg, a, frames[n..], admits[n..]).Aborted?
    ensures Apply(cfg, a, frames[n..], admits[n..]).NilStream? <==>
      OutlivedFrom(s.tombs, frames, cfg.limits.maxClosedStreamIDs, n)
    decreases |frames| - n
  {
    hide Reaches, AllAdmitted, Outlives, ApplyFrame, IdsAfter, ValidateFrame;
    if n < |frames| {
      AdmittedStep(cfg, s, t, a, frames, admits, n, history, live);
      assert frames[n..][1..] == frames[n + 1..] && admits[n..][1..] == admits[n + 1..];
      if ApplyFrame(cfg, a, frames[n], admits[n]).Going? {
        var ids := IdsAfter(cfg, Ids(a.s.streams.Keys, history), frames[n], admits[n]);
        AdmittedUnderway(cfg, s, ValidateFrame(t, frames[n]).value, ApplyFrame(cfg, a, frames[n], admits[n]).acc,
                         frames, admits, n + 1, ids.history, LiveAfter(live, frames[n]));
      }
    }
  }

  lemma AdmittedAt(cfg: Config, s: State, frames: seq<Frame>, admits: seq<bool>, n: nat)
    requires |admits| == |frames| && n < |frames| && AllAdmitted(cfg, s, frames, admits)
    ensures frames[n].kind == OPEN ==> admits[n] && LiveAt(s, frames, n) < cfg.limits.maxStreamsPerSession
  {
  }

  lemma UnderwayAgrees(cfg: Config, t: Trial, a: Acc, frames: seq<Frame>, history: seq<nat>, live: set<nat>)
    requires Underway(cfg, t, a, frames, history, live)
    ensures GoodConfig(cfg) && Agrees(cfg, t, a.s, history)
    ensures frames != [] ==> ValidateFrame(t, frames[0]).Some?
  {
    hide Agrees, ValidateFrame;
  }

  lemma OutlivedStep(tombs: seq<nat>, frames: seq<Frame>, cap: nat, n: nat)
    requires n < |frames|
    ensures var closed := ClosedSoFar(tombs, frames[..n]);
      OutlivedFrom(tombs, frames, cap, n) <==>
        || (IsLate(frames[n]) && exists p | 0 <= p < |closed| :: closed[p] == frames[n].id && p + cap < |closed|)
        || OutlivedFrom(tombs, frames, cap, n + 1)
  {
    hide ClosedSoFar;
    var closed := ClosedSoFar(tombs, frames[..n]);
    if IsLate(frames[n]) && exists p | 0 <= p < |closed| :: closed[p] == frames[n].id && p + cap < |closed| {
      var p :| 0 <= p < |closed| && closed[p] == frames[n].id && p + cap < |closed|;
      assert Outlives(tombs, frames, cap, n, p);
    }
  }

  lemma AcceptedGood(cfg: Config, s: State, frames: seq<Frame>)
    requires Accepted(cfg, s, frames)
    ensures GoodConfig(cfg)
  {
    hide Validate, AllFit;
  }

  lemma StartReaches(cfg: Config, s: State, a: Acc, frames: seq<Frame>)
    requires GoodConfig(cfg) && a.s.streams == s.streams
    requires Underway(cfg, TrialOf(s), a, frames, s.tombs, s.streams.Keys)
    ensures Reaches(cfg, s, TrialOf(s), a, frames, 0, s.tombs, s.streams.Keys)
  {
    hide Underway, TrialOf;
    assert frames[0..] == frames && frames[..0] == [];
  }

  /**
   * A batch whose OPENs are all admitted meets a missing stream if and only if some frame of it is of an
   * id with MaxClosedStreamIDs or more closures after its own: remembered before the batch or closed in
   * it, and told from the ring and the frames alone.
   */
  lemma AdmittedBatchCrashesIff(cfg: Config, s: State, a: Acc, frames: seq<Frame>, admits: seq<bool>)
    requires Accepted(cfg, s, frames) && Reserved(cfg, s, frames) == Some(a) && |admits| == |frames|
    requires AllAdmitted(cfg, s, frames, admits)
    ensures !Apply(cfg, a, frames, admits).Aborted?
    ensures Apply(cfg, a, frames, admits).NilStream? <==>
      OutlivedFrom(s.tombs, frames, cfg.limits.maxClosedStreamIDs, 0)
  {
    hide *;
    AcceptedGood(cfg, s, frames);
    ReservedUnderway(cfg, s, frames);
    StartReaches(cfg, s, a, frames);
    assert frames[0..] == frames && admits[0..] == admits;
    AdmittedUnderway(cfg, s, TrialOf(s), a, frames, admits, 0, s.tombs, s.streams.Keys);
  }

  // Where validation refuses a batch.

  /** ValidateFrame, with an OPEN let through whatever is known of its id. */
  function ValidateRestFrame(t: Trial, f: Frame): Option<Trial> {
    if f.id != 0 && f.kind == OPEN then
      Some(t.(live := t.live[f.id := Snapshot(INITIAL_STREAM_WINDOW, INITIAL_STREAM_WINDOW)]))
    else ValidateFrame(t, f)
  }

  function ValidateRest(t: Trial, frames: seq<Frame>): Option<Trial>
    decreases |frames|
  {
    if frames == [] then Some(t)
    else
      match ValidateRestFrame(t, frames[0])
      case None => None
      case Some(t') => ValidateRest(t', frames[1..])
  }

  /** No OPEN names an id that is live or remembered, and no two name the same. */
  predicate FreshOpens(t: Trial, frames: seq<Frame>) {
    forall i | 0 <= i < |frames| && frames[i].kind == OPEN ::
      !KnownTo(t, frames[i].id) && forall j | 0 <= j < i :: !(frames[j].kind == OPEN && frames[j].id == frames[i].id)
  }

  lemma FreshStep(t: Trial, t': Trial, frames: seq<Frame>)
    requires |frames| > 0 && ValidateRestFrame(t, frames[0]) == Some(t')
    ensures FreshOpens(t, frames) <==>
      (frames[0].kind == OPEN ==> !KnownTo(t, frames[0].id)) && FreshOpens(t', frames[1..])
  {
    var f, rest := frames[0], frames[1..];
    assert forall x :: KnownTo(t', x) <==> KnownTo(t, x) || (f.kind == OPEN && x == f.id);
    if FreshOpens(t, frames) {
      forall i | 0 <= i < |rest| && rest[i].kind == OPEN
        ensures !KnownTo(t', rest[i].id) && forall j | 0 <= j < i :: !(rest[j].kind == OPEN && rest[j].id == rest[i].id)
      {
        assert rest[i] == frames[i + 1];
        assert forall j | 0 <= j < i :: rest[j] == frames[j + 1];
      }
    }
    if (f.kind == OPEN ==> !KnownTo(t, f.id)) && FreshOpens(t', rest) {
      forall i | 0 <= i < |frames| && frames[i].kind == OPEN
        ensures !KnownTo(t, frames[i].id)
        ensures forall j | 0 <= j < i :: !(frames[j].kind == OPEN && frames[j].id == frames[i].id)
      {
        assert i > 0 ==> rest[i - 1] == frames[i];
        assert forall j | 0 < j < i :: rest[j - 1] == frames[j];
      }
    }
  }

  /** A batch is valid exactly when its OPENs are fresh and everything else in it fits. */
  lemma {:induction false} ValidateIff(t: Trial, frames: seq<Frame>)
    ensures Validate(t, frames).Some? <==> FreshOpens(t, frames) && ValidateRest(t, frames).Some?
    decreases |frames|
  {
    hide FreshOpens;
    if |frames| == 0 {
      NoOpens(t, frames);
    } else {
      match ValidateRestFrame(t, frames[0])
      case None =>
      case Some(t') =>
        FreshStep(t, t', frames);
        ValidateIff(t', frames[1..]);
    }
  }

  lemma NoOpens(t: Trial, frames: seq<Frame>)
    requires |frames| == 0
    ensures FreshOpens(t, frames)
  {
  }

  // One frame at a time.

  /** Each frame would be accepted on its own at the point where the batch reaches it. */
  predicate EachAlone(cfg: Config, a: Acc, frames: seq<Frame>, admits: seq<bool>)
    requires GoodConfig(cfg) && |admits| == |frames|
    decreases |frames|
  {
    frames == [] ||
    (ValidateFrame(TrialOf(a.s), frames[0]).Some?
     && match ApplyFrame(cfg, a, frames[0], admits[0])
        case Going(a') => EachAlone(cfg, a', frames[1..], admits[1..])
        case _ => true)
  }

  lemma AloneStep(cfg: Config, t: Trial, s: State, f: Frame, history: seq<nat>)
    requires GoodConfig(cfg) && Agrees(cfg, t, s, history) && ValidateFrame(t, f).Some?
    requires !LosesTombstone(cfg, Ids(s.streams.Keys, history), f)
    ensures ValidateFrame(TrialOf(s), f).Some?
  {
    assert f.id in s.tombs ==> f.id in history;
  }

  lemma {:induction false} UnderwayEachAlone(cfg: Config, t: Trial, a: Acc, frames: seq<Frame>, admits: seq<bool>,
                                             history: seq<nat>, live: set<nat>)
    requires Underway(cfg, t, a, frames, history, live) && |admits| == |frames|
    requires !LosesSome(cfg, Ids(a.s.streams.Keys, history), frames, admits)
    ensures EachAlone(cfg, a, frames, admits)
    decreases |frames|
  {
    if frames != [] {
      AloneStep(cfg, t, a.s, frames[0], history);
      UnderwayStep(cfg, t, a, frames, admits[0], history, live);
      hide Inv, Agrees, ApplyFrame, ValidateFrame, LosesTombstone;
      match ApplyFrame(cfg, a, frames[0], admits[0])
      case Going(a') =>
        UnderwayEachAlone(cfg, ValidateFrame(t, frames[0]).value, a', frames[1..], admits[1..],
                          IdsAfter(cfg, Ids(a.s.streams.Keys, history), frames[0], admits[0]).history,
                          LiveAfter(live, frames[0]));
      case _ =>
    }
  }

  /** Validating a batch against one snapshot is as strict as validating it frame by frame. */
  lemma BatchIsFrameByFrame(cfg: Config, s: State, frames: seq<Frame>, admits: seq<bool>)
    requires Accepted(cfg, s, frames) && Reserved(cfg, s, frames).Some? && |admits| == |frames|
    requires !LosesSome(cfg, IdsOf(s), frames, admits)
    ensures EachAlone(cfg, Reserved(cfg, s, frames).value, frames, admits)
  {
    ReservedUnderway(cfg, s, frames);
    UnderwayEachAlone(cfg, TrialOf(s), Reserved(cfg, s, frames).value, frames, admits, s.tombs, s.streams.Keys);
  }

  /** A refused OPEN swallows the rest of its stream: later frames leave everything as it is. */
  lemma RefusedOpenSwallows(cfg: Config, a: Acc, f: Frame, later: Frame, admit: bool, admit': bool)
    requires GoodConfig(cfg) && f.id != 0 && f.kind == OPEN && later.id == f.id && later.kind != OPEN
    requires |a.s.streams| >= cfg.limits.maxStreamsPerSession || !admit
    ensures match ApplyFrame(cfg, a, f, admit)
      case Going(a') =>
        && ApplyFrame(cfg, a', later, admit') == Going(a')
        && a'.s.streams == a.s.streams && a'.started == a.started && a'.ended == a.ended
      case _ => true
  {
    RememberClosedShape(cfg, a.s, f.id);
    QueueFrameShape(cfg, RememberClosed(cfg, a.s, f.id), Frame(CLOSE, f.id, []));
    hide RememberClosed, QueueFrame;
  }

  /** Frame `n` is a refused OPEN whose CLOSE finds no room; all the frames before it are applied. */
  ghost predicate HaltsAt(cfg: Config, a: Acc, frames: seq<Frame>, admits: seq<bool>, n: nat, b: Acc)
    requires GoodConfig(cfg) && |admits| == |frames|
  {
    && n < |frames| && frames[n].id != 0 && frames[n].kind == OPEN
    && Apply(cfg, a, frames[..n], admits[..n]).Going?
    && var c := Apply(cfg, a, frames[..n], admits[..n]).acc;
       && (|c.s.streams| >= cfg.limits.maxStreamsPerSession || !admits[n])
       && b == c.(s := RememberClosed(cfg, c.s, frames[n].id))
       && QueueFrame(cfg, b.s, Frame(CLOSE, frames[n].id, [])).None?
  }

  /** What an apply stopped halfway has put into effect: the frames before a refused OPEN, and its tombstone. */
  lemma {:induction false} AbortHaltsAt(cfg: Config, a: Acc, frames: seq<Frame>, admits: seq<bool>) returns (n: nat)
    requires GoodConfig(cfg) && |admits| == |frames| && Apply(cfg, a, frames, admits).Aborted?
    ensures HaltsAt(cfg, a, frames, admits, n, Apply(cfg, a, frames, admits).acc)
    decreases |frames|
  {
    hide RememberClosed, QueueFrame, CloseStream;
    n := 0;
    if ApplyFrame(cfg, a, frames[0], admits[0]).Going? {
      var k := AbortHaltsAt(cfg, ApplyFrame(cfg, a, frames[0], admits[0]).acc, frames[1..], admits[1..]);
      n := k + 1;
      assert frames[..n][1..] == frames[1..][..k] && admits[..n][1..] == admits[1..][..k];
    } else {
      assert frames[..0] == [] && admits[..0] == [];
    }
  }

  /** Carriers may go, but none is entered, and none changes but in its downlink half; a socket stays. */
  ghost predicate SameCarriers(s: State, t: State) {
    && (s.websocketActive ==> t.websocketActive)
    && forall k | k in t.lanes :: k in s.lanes && t.lanes[k] == s.lanes[k].(down := t.lanes[k].down)
  }

  ghost predicate SameUps(s: State, t: State) {
    t.closed == s.closed && t.nextBirth == s.nextBirth && SameCarriers(s, t)
  }

  lemma RememberKeepsUps(cfg: Config, s: State, id: nat)
    requires GoodConfig(cfg)
    ensures SameUps(s, RememberClosed(cfg, s, id))
  {
    hide Remember, Evicted, LaneCharge, Charge.Minus, Charge.Within;
  }

  lemma CloseKeepsUps(cfg: Config, s: State, id: nat)
    requires GoodConfig(cfg) && id in s.streams
    ensures SameUps(s, CloseStream(cfg, s, id))
  {
    hide RememberClosed, WriteCharge, Charge.Minus, Charge.Within;
    var released := Release(s, WriteCharge(s.streams[id]));
    RememberKeepsUps(cfg, released.(streams := s.streams - {id}), id);
  }

  lemma QueueKeepsUps(cfg: Config, s: State, f: Frame)
    requires GoodConfig(cfg)
    ensures QueueFrame(cfg, s, f).Some? ==> SameUps(s, QueueFrame(cfg, s, f).value)
  {
    hide Push, Place, PushCharge, SessionAdmits, PoolAdmits, Charge.Plus;
  }

  lemma UpsUntouched(s: State, t: State)
    requires t.lanes == s.lanes && t.closed == s.closed && t.nextBirth == s.nextBirth
    requires t.websocketActive == s.websocketActive
    ensures SameUps(s, t)
  {
  }

  lemma UpsTrans(s: State, t: State, u: State)
    requires SameUps(s, t) && SameUps(t, u)
    ensures SameUps(s, u)
  {
  }

  lemma FrameKeepsUps(cfg: Config, a: Acc, f: Frame, admit: bool)
    requires GoodConfig(cfg)
    ensures match ApplyFrame(cfg, a, f, admit)
      case Going(b) => SameUps(a.s, b.s)
      case Aborted(b) => SameUps(a.s, b.s)
      case NilStream => true
  {
    hide RememberClosed, CloseStream, QueueFrame, AcceptData, AddCredit, SameUps;
    var r, close := RememberClosed(cfg, a.s, f.id), Frame(CLOSE, f.id, []);
    RememberKeepsUps(cfg, a.s, f.id);
    QueueKeepsUps(cfg, r, close);
    if QueueFrame(cfg, r, close).Some? {
      UpsTrans(a.s, r, QueueFrame(cfg, r, close).value);
    }
    if f.id in a.s.streams {
      CloseKeepsUps(cfg, a.s, f.id);
    }
    match ApplyFrame(cfg, a, f, admit)
    case Going(b) =>
      if b.s.lanes == a.s.lanes && b.s.closed == a.s.closed && b.s.nextBirth == a.s.nextBirth
         && b.s.websocketActive == a.s.websocketActive {
        UpsUntouched(a.s, b.s);
      }
    case _ =>
  }

  lemma {:induction false} ApplyKeepsUps(cfg: Config, a: Acc, frames: seq<Frame>, admits: seq<bool>)
    requires GoodConfig(cfg) && |admits| == |frames|
    ensures match Apply(cfg, a, frames, admits)
      case Going(b) => SameUps(a.s, b.s)
      case Aborted(b) => SameUps(a.s, b.s)
      case NilStream => true
    decreases |frames|
  {
    hide ApplyFrame;
    if frames != [] {
      FrameKeepsUps(cfg, a, frames[0], admits[0]);
      if ApplyFrame(cfg, a, frames[0], admits[0]).Going? {
        ApplyKeepsUps(cfg, ApplyFrame(cfg, a, frames[0], admits[0]).acc, frames[1..], admits[1..]);
      }
    }
  }

  /** acquireStream's grants: asked only below the session's own stream limit. */
  function Grants(cfg: Config, a: Acc, frames: seq<Frame>, admits: seq<bool>): nat
    requires GoodConfig(cfg) && |admits| == |frames|
    decreases |frames|
  {
    if frames == [] then 0
    else
      var granted := if frames[0].id != 0 && frames[0].kind == OPEN && admits[0]
                        && |a.s.streams| < cfg.limits.maxStreamsPerSession then 1 else 0;
      match ApplyFrame(cfg, a, frames[0], admits[0])
      case Going(a') => granted + Grants(cfg, a', frames[1..], admits[1..])
      case _ => granted
  }

  /**
   * Every grant is matched by exactly one started backend, also when apply stops halfway; only a
   * missing stream's panic loses them.
   */
  lemma {:induction false} OneBackendPerGrant(cfg: Config, a: Acc, frames: seq<Frame>, admits: seq<bool>)
    requires GoodConfig(cfg) && |admits| == |frames|
    ensures match Apply(cfg, a, frames, admits)
      case Going(a') => |a'.started| == |a.started| + Grants(cfg, a, frames, admits)
      case Aborted(a') => |a'.started| == |a.started| + Grants(cfg, a, frames, admits)
      case NilStream => true
    decreases |frames|
  {
    if frames != [] {
      StartedByFrame(cfg, a, frames[0], admits[0]);
      hide ApplyFrame;
      match ApplyFrame(cfg, a, frames[0], admits[0])
      case Going(a') => OneBackendPerGrant(cfg, a', frames[1..], admits[1..]);
      case _ =>
    }
  }

  lemma StartedByFrame(cfg: Config, a: Acc, f: Frame, admit: bool)
    requires GoodConfig(cfg)
    ensures var granted := if f.id != 0 && f.kind == OPEN && admit
                              && |a.s.streams| < cfg.limits.maxStreamsPerSession then 1 else 0;
      match ApplyFrame(cfg, a, f, admit)
      case Going(a') => |a'.started| == |a.started| + granted
      case Aborted(a') => |a'.started| == |a.started| + granted
      case NilStream => true
  {
    hide RememberClosed, QueueFrame, CloseStream, AcceptData;
  }

  // One uplink batch always fits.

  lemma ReservationStep(live: set<nat>, frames: seq<Frame>)
    requires |frames| > 0 && AllFit(frames, MAX_PAYLOAD)
    ensures var r, rest := Reservation(live, frames), Reservation(LiveAfter(live, frames[0]), frames[1..]);
      && 0 <= r.items - rest.items <= 1
      && 0 <= r.cost - rest.cost <= |frames[0].payload| + QUEUE_ITEM_COST * (r.items - rest.items)
      && |EncodeAll(frames)| == HEADER_SIZE + |frames[0].payload| + |EncodeAll(frames[1..])|
  {
    hide PutId, PutUint32;
  }

  lemma NoFrames(live: set<nat>, frames: seq<Frame>)
    requires |frames| == 0
    ensures Reservation(live, frames) == NOTHING && |EncodeAll(frames)| == 0
  {
  }

  lemma {:induction false} ReservationWithinBody(live: set<nat>, frames: seq<Frame>)
    requires AllFit(frames, MAX_PAYLOAD)
    ensures var r := Reservation(live, frames);
      && 0 <= r.items <= |frames|
      && 0 <= r.cost <= |EncodeAll(frames)| - HEADER_SIZE * |frames| + QUEUE_ITEM_COST * r.items
    decreases |frames|
  {
    hide Encoded, EncodeAll, Reservation, LiveAfter;
    if |frames| == 0 {
      NoFrames(live, frames);
    } else {
      ReservationStep(live, frames);
      ReservationWithinBody(LiveAfter(live, frames[0]), frames[1..]);
    }
  }

  /** A reservation with items costs something, so reservePendingLocked does not refuse it as empty. */
  lemma {:induction false} ReservationCostsItems(live: set<nat>, frames: seq<Frame>)
    ensures var r := Reservation(live, frames);
      r.cost >= QUEUE_ITEM_COST * r.items && r.items >= 0 && (r.items == 0 ==> r.cost == 0)
    decreases |frames|
  {
    if |frames| > 0 {
      ReservationCostsItems(LiveAfter(live, frames[0]), frames[1..]);
    }
  }

  /**
   * The reserve formulas keep their promise: unless the downlink limits are saturated to zero, a
   * session within them has room for any body the parser accepts.
   */
  lemma OneUplinkBatchFits(l: Limits, held: Charge, live: set<nat>, body: Bytes)
    requires Sane(l) && DownlinkLimits(l).cost > 0 && DownlinkLimits(l).items > 0
    requires held.Within(DownlinkLimits(l)) && |body| <= l.maxBodyBytes
    requires Parsed(body, l.maxFramePayload).Ok?
    ensures var want := Reservation(live, Parsed(body, l.maxFramePayload).value);
      want == NOTHING || SessionAdmits(l, held, want, Uplink)
  {
    hide Parsed, Encoded, Reservation;
    ParseIsCanonical(body, l.maxFramePayload);
    var frames := Parsed(body, l.maxFramePayload).value;
    ReservationWithinBody(live, frames);
    ReservationCostsItems(live, frames);
    var want := Reservation(live, frames);
    assert want.items * HEADER_SIZE <= |body| by {
      EncodingLength(frames);
    }
    hide ControlReserve, EncodeAll;
    assert want.items <= l.maxBodyBytes / HEADER_SIZE;
    assert want.items <= UplinkReserve(l).items && want.cost <= UplinkReserve(l).cost;
  }

  lemma {:induction false} EncodingLength(frames: seq<Frame>)
    requires AllFit(frames, MAX_PAYLOAD)
    ensures |EncodeAll(frames)| >= HEADER_SIZE * |frames|
  {
    hide Encoded;
    if frames != [] {
      EncodingLength(frames[1..]);
    }
  }
}

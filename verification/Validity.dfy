/**
 * Which batches validateBatchLocked accepts and what backendWriteReservationLocked asks for, said of the
 * session and the frames alone: no table that changes from frame to frame.
 */
module Validity {
  import opened Octets
  import opened Frames
  import opened Limits
  import opened Streams
  import opened Tombstones
  import opened SessionState
  import opened Batch
  import opened BatchLaws
  import opened SessionSteps

  predicate Names(f: Frame, kind: Byte, id: nat) {
    f.kind == kind && f.id == id
  }

  /** Some frame of this kind names the id. */
  ghost predicate Has(frames: seq<Frame>, kind: Byte, id: nat) {
    exists i :: 0 <= i < |frames| && Names(frames[i], kind, id)
  }

  /** The bytes of the id's DATA frames. */
  function DataBytes(frames: seq<Frame>, id: nat): nat {
    if frames == [] then 0
    else
      var last := frames[|frames| - 1];
      DataBytes(frames[..|frames| - 1], id) + if Names(last, DATA, id) then |last.payload| else 0
  }

  /** The window a stream starts the batch with, there already or opened by it. */
  function WindowAtStart(t: Trial, id: nat): int {
    if id in t.live then t.live[id].receiveWindow else INITIAL_STREAM_WINDOW
  }

  /**
   * Frame `f` after `before` in a batch: a session frame is a PONG; an OPEN names an id neither live, nor
   * remembered, nor opened before; any other names one that is, and DATA of a stream not closed keeps all
   * the batch brings it within its window.
   */
  ghost predicate FitsAfter(t: Trial, before: seq<Frame>, f: Frame) {
    if f.id == 0 then f.kind == PONG
    else if f.kind == OPEN then f.id !in t.live && f.id !in t.closed && !Has(before, OPEN, f.id)
    else
      && (f.kind == DATA || f.kind == WINDOW || f.kind == CLOSE)
      && (f.id in t.closed
          || ((f.id in t.live || Has(before, OPEN, f.id))
              && (f.kind == DATA && !Has(before, CLOSE, f.id) ==>
                    DataBytes(before, f.id) + |f.payload| <= WindowAtStart(t, f.id))))
  }

  ghost predicate AllFitFrom(t: Trial, frames: seq<Frame>, n: nat) {
    forall m | n <= m < |frames| :: FitsAfter(t, frames[..m], frames[m])
  }

  /** The validator's tables `u` after `before`, all of which fits. */
  ghost predicate Reached(t: Trial, before: seq<Frame>, u: Trial) {
    && (forall id :: id in u.closed <==> id in t.closed || (id != 0 && Has(before, CLOSE, id)))
    && (forall id :: id in u.live <==>
          (id in t.live || (id != 0 && Has(before, OPEN, id))) && !(id != 0 && Has(before, CLOSE, id)))
    && (forall id | id in u.live && id != 0 :: u.live[id].receiveWindow == WindowAtStart(t, id) - DataBytes(before, id))
    && (forall id: nat | id != 0 && id !in t.closed && id !in t.live && !Has(before, OPEN, id) ::
          !Has(before, CLOSE, id) && DataBytes(before, id) == 0)
    && (forall id | id in t.live :: id !in t.closed)
    && (forall id: nat | id != 0 && Has(before, OPEN, id) :: id !in t.closed)
  }

  lemma HasSnoc(before: seq<Frame>, f: Frame, kind: Byte, id: nat)
    ensures Has(before + [f], kind, id) <==> Has(before, kind, id) || Names(f, kind, id)
  {
    if Has(before, kind, id) {
      var i :| 0 <= i < |before| && Names(before[i], kind, id);
      assert (before + [f])[i] == before[i];
    }
    assert (before + [f])[|before|] == f;
  }

  lemma DataBytesSnoc(before: seq<Frame>, f: Frame, id: nat)
    ensures DataBytes(before + [f], id) == DataBytes(before, id) + if Names(f, DATA, id) then |f.payload| else 0
  {
    assert (before + [f])[..|before|] == before;
  }

  lemma Snocs(before: seq<Frame>, f: Frame)
    ensures forall kind, id :: Has(before + [f], kind, id) <==> Has(before, kind, id) || Names(f, kind, id)
    ensures forall id ::
      DataBytes(before + [f], id) == DataBytes(before, id) + if Names(f, DATA, id) then |f.payload| else 0
  {
    forall kind, id {
      HasSnoc(before, f, kind, id);
    }
    forall id {
      DataBytesSnoc(before, f, id);
    }
  }

  lemma FrameFitsIff(t: Trial, before: seq<Frame>, u: Trial, f: Frame)
    requires Reached(t, before, u)
    ensures ValidateFrame(u, f).Some? <==> FitsAfter(t, before, f)
  {
    hide Has, DataBytes, Amount;
  }

  lemma FrameReaches(t: Trial, before: seq<Frame>, u: Trial, f: Frame)
    requires Reached(t, before, u) && ValidateFrame(u, f).Some?
    ensures Reached(t, before + [f], ValidateFrame(u, f).value)
  {
    Snocs(before, f);
    hide Has, DataBytes, Amount;
  }

  lemma {:induction false} ValidFrom(t: Trial, frames: seq<Frame>, n: nat, u: Trial)
    requires n <= |frames| && Reached(t, frames[..n], u)
    ensures Validate(u, frames[n..]).Some? <==> AllFitFrom(t, frames, n)
    decreases |frames| - n
  {
    hide Reached, FitsAfter, ValidateFrame;
    if n < |frames| {
      var f := frames[n];
      assert frames[n..][0] == f && frames[n..][1..] == frames[n + 1..];
      FrameFitsIff(t, frames[..n], u, f);
      if ValidateFrame(u, f).Some? {
        FrameReaches(t, frames[..n], u, f);
        assert frames[..n] + [f] == frames[..n + 1];
        ValidFrom(t, frames, n + 1, ValidateFrame(u, f).value);
      }
    }
  }

  lemma NothingReached(t: Trial, none: seq<Frame>)
    requires |none| == 0 && forall id | id in t.live :: id !in t.closed
    ensures Reached(t, none, t)
  {
  }

  lemma ApartAtStart(cfg: Config, s: State)
    requires Structured(cfg, s)
    ensures forall id | id in TrialOf(s).live :: id !in TrialOf(s).closed
  {
    hide Balanced, WellFormed, Sane, GoodLane;
    assert forall id | id in s.streams :: GoodStream(cfg, s, id);
  }

  /** A frame of the batch, judged by the session and the frames before it. */
  ghost predicate Acceptable(s: State, before: seq<Frame>, f: Frame) {
    if f.id == 0 then f.kind == PONG
    else if f.kind == OPEN then f.id !in s.streams && f.id !in s.tombs && !Has(before, OPEN, f.id)
    else
      && (f.kind == DATA || f.kind == WINDOW || f.kind == CLOSE)
      && (f.id in s.tombs
          || ((f.id in s.streams || Has(before, OPEN, f.id))
              && (f.kind == DATA && !Has(before, CLOSE, f.id) ==>
                    DataBytes(before, f.id) + |f.payload|
                      <= if f.id in s.streams then s.streams[f.id].receiveWindow else INITIAL_STREAM_WINDOW)))
  }

  lemma AcceptableIff(s: State, before: seq<Frame>, f: Frame)
    ensures FitsAfter(TrialOf(s), before, f) <==> Acceptable(s, before, f)
  {
    hide Has, DataBytes;
  }

  /**
   * A batch is valid if and only if every frame of it is acceptable after those before it: OPENs name new ids,
   * everything else an id live, remembered or opened before it, and the DATA of each stream not closed,
   * added up, stays within the window it starts with.
   */
  lemma ValidBatchIff(cfg: Config, s: State, frames: seq<Frame>)
    requires Structured(cfg, s)
    ensures Validate(TrialOf(s), frames).Some? <==>
      forall m | 0 <= m < |frames| :: Acceptable(s, frames[..m], frames[m])
  {
    hide Validate, FitsAfter, Acceptable, Structured;
    ApartAtStart(cfg, s);
    assert frames[0..] == frames;
    NothingReached(TrialOf(s), frames[..0]);
    ValidFrom(TrialOf(s), frames, 0, TrialOf(s));
    forall m | 0 <= m < |frames|
      ensures FitsAfter(TrialOf(s), frames[..m], frames[m]) <==> Acceptable(s, frames[..m], frames[m])
    {
      AcceptableIff(s, frames[..m], frames[m]);
    }
  }

  // What a valid batch reserves.

  /** The charge of the batch's DATA for streams that are neither remembered nor closed before it. */
  ghost function DataShares(s: State, frames: seq<Frame>): Charge {
    if frames == [] then NOTHING
    else
      var before, f := frames[..|frames| - 1], frames[|frames| - 1];
      DataShares(s, before).Plus(
        if f.kind == DATA && f.id != 0 && f.id !in s.tombs && !Has(before, CLOSE, f.id) then
          Charge(|f.payload| + QUEUE_ITEM_COST, 1)
        else NOTHING)
  }

  function LiveAfterAll(live: set<nat>, frames: seq<Frame>): set<nat> {
    if frames == [] then live else LiveAfter(LiveAfterAll(live, frames[..|frames| - 1]), frames[|frames| - 1])
  }

  lemma {:induction false} ReservationSplits(live: set<nat>, frames: seq<Frame>, n: nat)
    requires n < |frames|
    ensures LiveAfterAll(live, frames[..n + 1]) == LiveAfter(LiveAfterAll(live, frames[..n]), frames[n])
    ensures Reservation(LiveAfterAll(live, frames[..n]), frames[n..])
         == ReserveFrame(LiveAfterAll(live, frames[..n]), frames[n])
            .Plus(Reservation(LiveAfterAll(live, frames[..n + 1]), frames[n + 1..]))
  {
    hide LiveAfter, ReserveFrame, Charge.Plus;
    assert frames[..n + 1][..n] == frames[..n] && frames[n..][0] == frames[n] && frames[n..][1..] == frames[n + 1..];
  }

  /** Live ids of the reservation's loop are those the validator's table has. */
  lemma {:induction false} LoopKnows(s: State, frames: seq<Frame>, n: nat)
    requires n <= |frames| && forall m | 0 <= m < n :: Acceptable(s, frames[..m], frames[m])
    ensures forall id: nat | id != 0 :: id in LiveAfterAll(s.streams.Keys, frames[..n]) <==>
      (id in s.streams || Has(frames[..n], OPEN, id)) && !Has(frames[..n], CLOSE, id)
    ensures forall id: nat | id != 0 && Has(frames[..n], CLOSE, id) ::
      id in s.tombs || id in s.streams || Has(frames[..n], OPEN, id)
  {
    if n > 0 {
      var f := frames[n - 1];
      LoopKnows(s, frames, n - 1);
      assert frames[..n] == frames[..n - 1] + [f] && frames[..n][..n - 1] == frames[..n - 1];
      Snocs(frames[..n - 1], f);
      assert Acceptable(s, frames[..n - 1], f);
      hide Has, DataBytes;
    }
  }

  lemma OpenedIsNotRemembered(s: State, frames: seq<Frame>, n: nat, id: nat)
    requires n <= |frames| && forall m | 0 <= m < n :: Acceptable(s, frames[..m], frames[m])
    requires id != 0 && Has(frames[..n], OPEN, id)
    ensures id !in s.tombs
  {
    var i :| 0 <= i < n && Names(frames[..n][i], OPEN, id);
    hide Has, DataBytes;
    assert Acceptable(s, frames[..i], frames[i]);
  }

  lemma ShareIs(cfg: Config, s: State, frames: seq<Frame>, n: nat)
    requires Structured(cfg, s) && n < |frames|
    requires forall m | 0 <= m <= n :: Acceptable(s, frames[..m], frames[m])
    ensures DataShares(s, frames[..n + 1]) ==
      DataShares(s, frames[..n]).Plus(ReserveFrame(LiveAfterAll(s.streams.Keys, frames[..n]), frames[n]))
  {
    var f := frames[n];
    assert frames[..n + 1][..n] == frames[..n];
    LoopKnows(s, frames, n);
    ApartAtStart(cfg, s);
    assert Acceptable(s, frames[..n], f);
    if f.id != 0 && Has(frames[..n], OPEN, f.id) {
      OpenedIsNotRemembered(s, frames, n, f.id);
    }
    hide Has, DataBytes, Structured, LiveAfterAll;
  }

  lemma {:induction false} SharesSum(cfg: Config, s: State, frames: seq<Frame>, n: nat)
    requires Structured(cfg, s) && n <= |frames|
    requires forall m | 0 <= m < |frames| :: Acceptable(s, frames[..m], frames[m])
    ensures DataShares(s, frames[..n]).Plus(Reservation(LiveAfterAll(s.streams.Keys, frames[..n]), frames[n..]))
         == Reservation(s.streams.Keys, frames)
  {
    hide Acceptable, Structured, DataShares, Reservation, LiveAfterAll, ReserveFrame;
    if n == 0 {
      NoShares(s, frames[..0]);
      assert frames[0..] == frames;
    } else {
      SharesSum(cfg, s, frames, n - 1);
      ShareIs(cfg, s, frames, n - 1);
      ReservationSplits(s.streams.Keys, frames, n - 1);
    }
  }

  lemma NoShares(s: State, none: seq<Frame>)
    requires |none| == 0
    ensures DataShares(s, none) == NOTHING && LiveAfterAll(s.streams.Keys, none) == s.streams.Keys
  {
  }

  /** A valid batch reserves for each DATA frame of a stream neither remembered nor closed before it, and no more. */
  lemma ReservationIsForData(cfg: Config, s: State, frames: seq<Frame>)
    requires Structured(cfg, s) && Validate(TrialOf(s), frames).Some?
    ensures ReservationFor(s, frames) == DataShares(s, frames)
  {
    hide Acceptable, Structured, DataShares, Reservation, LiveAfterAll, Validate;
    ValidBatchIff(cfg, s, frames);
    SharesSum(cfg, s, frames, |frames|);
    assert frames[..|frames|] == frames;
    NoFrames(LiveAfterAll(s.streams.Keys, frames), frames[|frames|..]);
    PlusNothing(DataShares(s, frames));
  }

  /** Room for a batch's DATA beside everyone's control reserves, in the session and in the pool. */
  predicate HasRoom(cfg: Config, s: State, want: Charge)
    requires GoodConfig(cfg)
  {
    var own, all := ControlReserve(cfg.limits), ControlReserve(cfg.global);
    && s.pending.cost + want.cost + own.cost <= cfg.limits.maxPendingPerSession
    && s.pending.items + want.items + own.items <= cfg.limits.maxPendingItemsPerSession
    && s.pool.cost + want.cost + all.cost * cfg.global.maxSessionsGlobal <= cfg.global.maxPendingGlobal
    && s.pool.items + want.items + all.items * cfg.global.maxSessionsGlobal <= cfg.global.maxPendingItemsGlobal
  }

  lemma ReserveIffRoom(cfg: Config, s: State, want: Charge)
    requires GoodConfig(cfg) && ValidateBudget(cfg.global) && NOTHING.Within(s.pending) && s.pending.Within(s.pool)
    requires want.cost > 0 && want.items > 0
    ensures Reserve(cfg, s, want, Uplink).Some? <==> HasRoom(cfg, s, want)
  {
    SessionAdmitsIff(cfg.limits, s.pending, want, Uplink);
    PoolAdmitsIff(cfg.global, s.pool, want, Uplink);
    hide SessionAdmits, PoolAdmits, ControlReserve;
  }

  lemma PendingIsNonnegative(cfg: Config, s: State)
    requires Inv(cfg, s, NOTHING)
    ensures GoodConfig(cfg) && Structured(cfg, s) && NOTHING.Within(s.pending) && s.pending.Within(s.pool)
  {
    hide Charged, Structured;
    PanicOff(cfg, s, NOTHING);
    ChargesNonnegative(cfg, s);
  }

  lemma ReceiveCases(cfg: Config, s: State, k: nat, sequence: nat, body: Bytes, frames: seq<Frame>, admits: seq<bool>)
    requires GoodConfig(cfg) && |admits| == |frames|
    ensures var answer, want := Receive(cfg, s, k, sequence, body, frames, admits).1, ReservationFor(s, frames);
      && (answer.Rejected? <==> Validate(TrialOf(s), frames).None?)
      && (answer.Backpressure? <==>
            && Validate(TrialOf(s), frames).Some?
            && want != NOTHING && Reserve(cfg, s, want, Uplink).None?)
  {
    hide Validate, Apply, Reserve, Reservation, TrialOf, Release, Charge.Plus;
  }

  /**
   * What the locked part of an uplink request answers before anything is applied: rejected exactly when some
   * frame is unacceptable, and backpressure exactly when the batch is valid, brings DATA to write and finds
   * no room for it beside the control reserves.
   */
  lemma BackpressureIff(cfg: Config, s: State, k: nat, sequence: nat, body: Bytes, frames: seq<Frame>,
                        admits: seq<bool>)
    requires Inv(cfg, s, NOTHING) && GoodConfig(cfg) && ValidateBudget(cfg.global) && |admits| == |frames|
    ensures var answer, want := Receive(cfg, s, k, sequence, body, frames, admits).1, DataShares(s, frames);
      var valid := forall m | 0 <= m < |frames| :: Acceptable(s, frames[..m], frames[m]);
      && (answer.Rejected? <==> !valid)
      && (answer.Backpressure? <==> valid && want != NOTHING && !HasRoom(cfg, s, want))
  {
    hide Inv, Receive, Acceptable, DataShares, Reservation, Validate, Structured, Reserve, HasRoom, ValidateBudget;
    PendingIsNonnegative(cfg, s);
    ReceiveCases(cfg, s, k, sequence, body, frames, admits);
    ValidBatchIff(cfg, s, frames);
    if Validate(TrialOf(s), frames).Some? {
      ReservationIsForData(cfg, s, frames);
      ReservationCostsItems(s.streams.Keys, frames);
      if DataShares(s, frames) != NOTHING {
        ReserveIffRoom(cfg, s, DataShares(s, frames));
      }
    }
  }
}

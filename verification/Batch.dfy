/**
 * One uplink batch: validateBatchLocked on snapshots, backendWriteReservationLocked, and
 * applyBatchLocked on the session, with the agreement between the three.
 */
module Batch {
  import opened Octets
  import opened Outcomes
  import opened Frames
  import opened Limits
  import opened Queue
  import opened Streams
  import opened Tombstones
  import opened SessionState

  // Validation.

  datatype Snapshot = Snapshot(receiveWindow: int, sendCredit: int)

  /** The validator's tables: snapshots of live streams, and every id closed before or in the batch. */
  datatype Trial = Trial(live: map<nat, Snapshot>, closed: set<nat>)

  function SnapshotOf(st: Stream): Snapshot {
    Snapshot(st.receiveWindow, st.sendCredit)
  }

  function TrialOf(s: State): Trial {
    Trial(map id | id in s.streams :: SnapshotOf(s.streams[id]), set id | id in s.tombs)
  }

  function ValidateFrame(t: Trial, f: Frame): Option<Trial> {
    if f.id == 0 then (if f.kind == PONG then Some(t) else None)
    else if f.kind == OPEN then
      if f.id in t.live || f.id in t.closed then None
      else Some(t.(live := t.live[f.id := Snapshot(INITIAL_STREAM_WINDOW, INITIAL_STREAM_WINDOW)]))
    else if f.kind == DATA then
      if f.id in t.closed then Some(t)
      else if f.id !in t.live || |f.payload| > t.live[f.id].receiveWindow then None
      else
        var snap := t.live[f.id];
        Some(t.(live := t.live[f.id := snap.(receiveWindow := snap.receiveWindow - |f.payload|)]))
    else if f.kind == WINDOW then
      if f.id in t.closed then Some(t)
      else if f.id !in t.live then None
      else
        var snap := t.live[f.id];
        var credit := snap.sendCredit + Amount(f.payload);
        Some(t.(live := t.live[f.id := snap.(sendCredit := if credit > MAX_UINT32 then MAX_UINT32 else credit)]))
    else if f.kind == CLOSE then
      if f.id in t.closed then Some(t)
      else if f.id !in t.live then None
      else Some(Trial(t.live - {f.id}, t.closed + {f.id}))
    else None
  }

  function Validate(t: Trial, frames: seq<Frame>): Option<Trial>
    decreases |frames|
  {
    if frames == [] then Some(t)
    else
      match ValidateFrame(t, frames[0])
      case None => None
      case Some(t') => Validate(t', frames[1..])
  }

  // Reservation.

  function ReserveFrame(live: set<nat>, f: Frame): Charge {
    if f.id != 0 && f.kind == DATA && f.id in live then Charge(|f.payload| + QUEUE_ITEM_COST, 1) else NOTHING
  }

  function LiveAfter(live: set<nat>, f: Frame): set<nat> {
    if f.id == 0 then live
    else if f.kind == OPEN then live + {f.id}
    else if f.kind == CLOSE then live - {f.id}
    else live
  }

  function Reservation(live: set<nat>, frames: seq<Frame>): Charge
    decreases |frames|
  {
    if frames == [] then NOTHING
    else ReserveFrame(live, frames[0]).Plus(Reservation(LiveAfter(live, frames[0]), frames[1..]))
  }

  // Application.

  /** The running state of applyBatchLocked; `left` is what remains of the reservation. */
  datatype Acc = Acc(s: State, left: Charge, started: seq<int>, ended: seq<int>)

  /** NilStream is the dereference of a stream that is neither live nor remembered as closed. */
  datatype Applied = Going(acc: Acc) | Aborted(acc: Acc) | NilStream

  /** `admit` is acquireStream's answer, should this frame ask. */
  function OpenFrame(cfg: Config, a: Acc, f: Frame, admit: bool): Applied
    requires GoodConfig(cfg)
  {
    if |a.s.streams| >= cfg.limits.maxStreamsPerSession || !admit then
      match QueueFrame(cfg, RememberClosed(cfg, a.s, f.id), Frame(CLOSE, f.id, []))
      case None => Aborted(a.(s := RememberClosed(cfg, a.s, f.id)))
      case Some(s') => Going(a.(s := s'))
    else
      Going(a.(s := a.s.(streams := a.s.streams[f.id := NewStream(a.s.nextBackend)],
                         nextBackend := a.s.nextBackend + 1),
               started := a.started + [a.s.nextBackend]))
  }

  function SetStream(a: Acc, id: nat, st: Stream): Acc {
    a.(s := a.s.(streams := a.s.streams[id := st]))
  }

  function ApplyFrame(cfg: Config, a: Acc, f: Frame, admit: bool): Applied
    requires GoodConfig(cfg)
  {
    if f.id == 0 then Going(a)
    else if f.kind == OPEN then OpenFrame(cfg, a, f, admit)
    else if f.kind != DATA && f.kind != WINDOW && f.kind != CLOSE then Going(a)
    else if f.id in a.s.tombs then Going(a)
    else if f.id !in a.s.streams then NilStream
    else
      var st := a.s.streams[f.id];
      if f.kind == DATA then
        Going(SetStream(a, f.id, AcceptData(st, f.payload)).(left := a.left.Minus(AppendCharge(st, f.payload))))
      else if f.kind == WINDOW then Going(SetStream(a, f.id, AddCredit(st, Amount(f.payload))))
      else Going(a.(s := CloseStream(cfg, a.s, f.id), ended := a.ended + [st.backend]))
  }

  function Apply(cfg: Config, a: Acc, frames: seq<Frame>, admits: seq<bool>): Applied
    requires GoodConfig(cfg) && |admits| == |frames|
    decreases |frames|
  {
    if frames == [] then Going(a)
    else
      match ApplyFrame(cfg, a, frames[0], admits[0])
      case Going(a') => Apply(cfg, a', frames[1..], admits[1..])
      case stop => stop
  }

  // Which tombstones a batch leaves, ignoring windows, queues and budgets.

  /** Live ids and the history of closed ids, oldest first. */
  datatype Ids = Ids(live: set<nat>, history: seq<nat>)

  function IdsOf(s: State): Ids {
    Ids(s.streams.Keys, s.tombs)
  }

  function IdsAfter(cfg: Config, ids: Ids, f: Frame, admit: bool): Ids {
    if f.id == 0 then ids
    else if f.kind == OPEN then
      if |ids.live| >= cfg.limits.maxStreamsPerSession || !admit then ids.(history := ids.history + [f.id])
      else ids.(live := ids.live + {f.id})
    else if f.kind == CLOSE && f.id in ids.live then Ids(ids.live - {f.id}, ids.history + [f.id])
    else ids
  }

  /** A later frame of a closed stream whose tombstone the ring has already given up. */
  predicate LosesTombstone(cfg: Config, ids: Ids, f: Frame)
    requires GoodConfig(cfg)
  {
    && f.id != 0 && (f.kind == DATA || f.kind == WINDOW || f.kind == CLOSE)
    && f.id !in ids.live && f.id !in Newest(ids.history, cfg.limits.maxClosedStreamIDs)
  }

  /** Some frame of the batch falls more than MaxClosedStreamIDs closures behind its stream's own. */
  predicate LosesSome(cfg: Config, ids: Ids, frames: seq<Frame>, admits: seq<bool>)
    requires GoodConfig(cfg) && |admits| == |frames|
    decreases |frames|
  {
    frames != [] &&
    (LosesTombstone(cfg, ids, frames[0])
     || LosesSome(cfg, IdsAfter(cfg, ids, frames[0], admits[0]), frames[1..], admits[1..]))
  }

  // The relation between validator, session and history at every frame.

  predicate KnownTo(t: Trial, id: nat) {
    id in t.live || id in t.closed
  }

  ghost predicate Agrees(cfg: Config, t: Trial, s: State, history: seq<nat>)
    requires GoodConfig(cfg)
  {
    && (forall id | id in s.streams :: id in t.live && t.live[id] == SnapshotOf(s.streams[id]))
    && (forall id | id in t.live :: id !in t.closed)
    && Distinct(history)
    && s.tombs == Newest(history, cfg.limits.maxClosedStreamIDs)
    && (forall id :: id in history <==> KnownTo(t, id) && id !in s.streams)
  }

  lemma StartAgrees(cfg: Config, s: State)
    requires Structured(cfg, s)
    ensures Agrees(cfg, TrialOf(s), s, s.tombs)
  {
    forall id | id in s.streams
      ensures id !in s.tombs
    {
      assert GoodStream(cfg, s, id);
    }
  }

  lemma DropLaneShape(s: State, k: nat)
    ensures var s' := DropLane(s, k);
      && s'.streams == s.streams && s'.tombs == s.tombs && s'.closed == s.closed
      && s'.nextBackend == s.nextBackend
      && s'.lanes == s.lanes - {k}
  {
    hide LaneCharge, Charge.Minus;
    if k !in s.lanes {
      assert s.lanes - {k} == s.lanes;
    }
  }

  /** Only the oldest tombstone's lane can go. */
  lemma RememberClosedShape(cfg: Config, s: State, id: nat)
    requires GoodConfig(cfg)
    ensures var s' := RememberClosed(cfg, s, id);
      && s'.streams == s.streams && s'.closed == s.closed && s'.nextBackend == s.nextBackend
      && s'.tombs == Remember(s.tombs, id, cfg.limits.maxClosedStreamIDs)
      && (forall k | k in s.lanes && k !in s.tombs :: k in s'.lanes)
      && (!cfg.UsesLanes() ==> s'.lanes == s.lanes)
  {
    match Evicted(s.tombs, id, cfg.limits.maxClosedStreamIDs)
    case Some(oldest) =>
      DropLaneShape(s.(tombs := Remember(s.tombs, id, cfg.limits.maxClosedStreamIDs)), oldest);
    case None =>
  }

  lemma QueueFrameShape(cfg: Config, s: State, f: Frame)
    requires GoodConfig(cfg)
    ensures QueueFrame(cfg, s, f).Some? ==>
      var s' := QueueFrame(cfg, s, f).value;
      && s'.streams == s.streams && s'.tombs == s.tombs && s'.closed == s.closed
      && s'.nextBackend == s.nextBackend && s'.lanes.Keys == s.lanes.Keys
  {
    hide Push, Place, PushCharge, SessionAdmits, PoolAdmits;
  }

  lemma HistoryGrows(cfg: Config, t: Trial, s: State, history: seq<nat>, id: nat)
    requires GoodConfig(cfg) && Agrees(cfg, t, s, history) && id !in history
    ensures Distinct(history + [id])
    ensures Remember(s.tombs, id, cfg.limits.maxClosedStreamIDs)
         == Newest(history + [id], cfg.limits.maxClosedStreamIDs)
  {
    RememberIsNewest(history, id, cfg.limits.maxClosedStreamIDs);
  }

  lemma CloseStreamShape(cfg: Config, s: State, id: nat)
    requires GoodConfig(cfg) && id in s.streams
    ensures var s' := CloseStream(cfg, s, id);
      && s'.streams == s.streams - {id} && s'.closed == s.closed && s'.nextBackend == s.nextBackend
      && s'.tombs == Remember(s.tombs, id, cfg.limits.maxClosedStreamIDs)
      && (forall k | k in s.lanes && k !in s.tombs :: k in s'.lanes)
      && (!cfg.UsesLanes() ==> s'.lanes == s.lanes)
  {
    hide Remember;
    RememberClosedShape(cfg, Release(s, WriteCharge(s.streams[id])).(streams := s.streams - {id}), id);
  }

  /** What a later frame does to validator, session and history alike. */
  ghost predicate StepAgrees(cfg: Config, t: Trial, a: Acc, f: Frame, admit: bool, history: seq<nat>)
    requires GoodConfig(cfg) && ValidateFrame(t, f).Some?
  {
    var ids := IdsAfter(cfg, Ids(a.s.streams.Keys, history), f, admit);
    match ApplyFrame(cfg, a, f, admit)
    case Going(a') =>
      && !LosesTombstone(cfg, Ids(a.s.streams.Keys, history), f)
      && ids.live == a'.s.streams.Keys
      && Agrees(cfg, ValidateFrame(t, f).value, a'.s, ids.history)
    case Aborted(_) => f.id != 0 && f.kind == OPEN
    case NilStream => LosesTombstone(cfg, Ids(a.s.streams.Keys, history), f)
  }

  /** An id closed, or refused on arrival: it joins the history. */
  lemma AgreesAfterRemember(cfg: Config, t: Trial, t': Trial, s: State, s': State, history: seq<nat>, id: nat)
    requires GoodConfig(cfg) && Agrees(cfg, t, s, history) && id !in history
    requires s'.streams == s.streams - {id}
    requires s'.tombs == Remember(s.tombs, id, cfg.limits.maxClosedStreamIDs)
    requires forall x :: KnownTo(t', x) <==> KnownTo(t, x) || x == id
    requires forall x | x in t.live && x != id :: x in t'.live && t'.live[x] == t.live[x]
    requires forall x | x in t'.live :: x !in t'.closed
    ensures Agrees(cfg, t', s', history + [id])
  {
    hide Newest, Remember, Distinct;
    HistoryGrows(cfg, t, s, history, id);
  }

  lemma RejectAgrees(cfg: Config, t: Trial, a: Acc, f: Frame, admit: bool, history: seq<nat>)
    requires GoodConfig(cfg) && Agrees(cfg, t, a.s, history)
    requires f.id != 0 && f.kind == OPEN && ValidateFrame(t, f).Some?
    requires |a.s.streams| >= cfg.limits.maxStreamsPerSession || !admit
    ensures StepAgrees(cfg, t, a, f, admit, history)
  {
    OpenIsNew(cfg, t, a.s, f, history);
    OpenLosesNothing(cfg, Ids(a.s.streams.Keys, history), f);
    hide Agrees, Remember, RememberClosed, QueueFrame, LosesTombstone;
    var s1 := RememberClosed(cfg, a.s, f.id);
    RememberClosedShape(cfg, a.s, f.id);
    assert a.s.streams - {f.id} == a.s.streams;
    AgreesAfterRemember(cfg, t, ValidateFrame(t, f).value, a.s, s1, history, f.id);
    QueueFrameShape(cfg, s1, Frame(CLOSE, f.id, []));
    if QueueFrame(cfg, s1, Frame(CLOSE, f.id, [])).Some? {
      SameAgrees(cfg, ValidateFrame(t, f).value, s1, QueueFrame(cfg, s1, Frame(CLOSE, f.id, [])).value,
                 history + [f.id]);
    }
  }

  lemma SameAgrees(cfg: Config, t: Trial, s: State, s': State, history: seq<nat>)
    requires GoodConfig(cfg) && Agrees(cfg, t, s, history) && s'.streams == s.streams && s'.tombs == s.tombs
    ensures Agrees(cfg, t, s', history)
  {
  }

  lemma OpenIsNew(cfg: Config, t: Trial, s: State, f: Frame, history: seq<nat>)
    requires GoodConfig(cfg) && Agrees(cfg, t, s, history)
    requires f.id != 0 && f.kind == OPEN && ValidateFrame(t, f).Some?
    ensures f.id !in history && f.id !in s.streams
    ensures forall x | x in ValidateFrame(t, f).value.live :: x !in ValidateFrame(t, f).value.closed
  {
  }

  /** A stream entered or changed, and its snapshot with it. */
  lemma AgreesAfterSet(cfg: Config, t: Trial, s: State, s': State, history: seq<nat>, id: nat, st: Stream)
    requires GoodConfig(cfg) && Agrees(cfg, t, s, history)
    requires s'.streams == s.streams[id := st] && s'.tombs == s.tombs
    requires id in s.streams || !KnownTo(t, id)
    ensures Agrees(cfg, t.(live := t.live[id := SnapshotOf(st)]), s', history)
  {
    hide Newest, SnapshotOf, Distinct;
  }

  lemma AdmitAgrees(cfg: Config, t: Trial, a: Acc, f: Frame, history: seq<nat>)
    requires GoodConfig(cfg) && Agrees(cfg, t, a.s, history)
    requires f.id != 0 && f.kind == OPEN && ValidateFrame(t, f).Some?
    requires |a.s.streams| < cfg.limits.maxStreamsPerSession
    ensures StepAgrees(cfg, t, a, f, true, history)
  {
    hide Agrees, RememberClosed, QueueFrame, LosesTombstone;
    OpenLosesNothing(cfg, Ids(a.s.streams.Keys, history), f);
    var st := NewStream(a.s.nextBackend);
    var s' := a.s.(streams := a.s.streams[f.id := st], nextBackend := a.s.nextBackend + 1);
    AgreesAfterSet(cfg, t, a.s, s', history, f.id, st);
    assert SnapshotOf(st) == Snapshot(INITIAL_STREAM_WINDOW, INITIAL_STREAM_WINDOW);
    assert s'.streams.Keys == a.s.streams.Keys + {f.id};
  }

  lemma OpenLosesNothing(cfg: Config, ids: Ids, f: Frame)
    requires GoodConfig(cfg) && f.kind == OPEN
    ensures !LosesTombstone(cfg, ids, f)
  {
  }

  lemma DataAgrees(cfg: Config, t: Trial, a: Acc, f: Frame, admit: bool, history: seq<nat>)
    requires GoodConfig(cfg) && Agrees(cfg, t, a.s, history)
    requires f.id in a.s.streams && f.id !in a.s.tombs && f.id != 0
    requires f.kind == DATA || f.kind == WINDOW
    requires ValidateFrame(t, f).Some? && Balanced(a.s.streams[f.id])
    ensures StepAgrees(cfg, t, a, f, admit, history)
  {
    var st := a.s.streams[f.id];
    SnapshotsMove(st, f);
    LiveIsKnown(cfg, t, a.s, history, f.id);
    hide Agrees, Amount, AcceptData, AddCredit, SnapshotOf, Balanced;
    var st' := if f.kind == DATA then AcceptData(st, f.payload) else AddCredit(st, Amount(f.payload));
    AgreesAfterSet(cfg, t, a.s, SetStream(a, f.id, st').s, history, f.id, st');
    assert a.s.streams[f.id := st'].Keys == a.s.streams.Keys;
  }

  lemma LiveIsKnown(cfg: Config, t: Trial, s: State, history: seq<nat>, id: nat)
    requires GoodConfig(cfg) && Agrees(cfg, t, s, history) && id in s.streams
    ensures id in t.live && id !in t.closed && t.live[id] == SnapshotOf(s.streams[id])
  {
  }

  lemma SnapshotsMove(st: Stream, f: Frame)
    requires Balanced(st)
    ensures |f.payload| <= st.receiveWindow ==>
      SnapshotOf(AcceptData(st, f.payload)) == SnapshotOf(st).(receiveWindow := st.receiveWindow - |f.payload|)
    ensures SnapshotOf(AddCredit(st, Amount(f.payload))) ==
      SnapshotOf(st).(sendCredit := if st.sendCredit + Amount(f.payload) > MAX_UINT32 then MAX_UINT32
                                    else st.sendCredit + Amount(f.payload))
    ensures SnapshotOf(st) == Snapshot(st.receiveWindow, st.sendCredit)
  {
    hide Amount, AppendCharge, Coalesces;
  }

  lemma CloseAgrees(cfg: Config, t: Trial, a: Acc, f: Frame, admit: bool, history: seq<nat>)
    requires GoodConfig(cfg) && Agrees(cfg, t, a.s, history)
    requires f.id in a.s.streams && f.id !in a.s.tombs && f.id != 0 && f.kind == CLOSE
    requires ValidateFrame(t, f).Some?
    ensures StepAgrees(cfg, t, a, f, admit, history)
  {
    LiveIsKnown(cfg, t, a.s, history, f.id);
    LiveStaysApart(cfg, t, a.s, history, f.id);
    hide Agrees, Remember, CloseStream;
    CloseStreamShape(cfg, a.s, f.id);
    AgreesAfterRemember(cfg, t, Trial(t.live - {f.id}, t.closed + {f.id}), a.s, CloseStream(cfg, a.s, f.id),
                        history, f.id);
    assert (a.s.streams - {f.id}).Keys == a.s.streams.Keys - {f.id};
  }

  lemma LiveStaysApart(cfg: Config, t: Trial, s: State, history: seq<nat>, id: nat)
    requires GoodConfig(cfg) && Agrees(cfg, t, s, history) && id in s.streams
    ensures id !in history && forall x | x in t.live :: x !in t.closed
  {
  }

  /** Validation may still track a stream the session has given up; nothing else depends on that. */
  lemma AgreesIgnoring(cfg: Config, t: Trial, t': Trial, s: State, history: seq<nat>, id: nat)
    requires GoodConfig(cfg) && Agrees(cfg, t, s, history) && id !in s.streams
    requires forall x :: KnownTo(t', x) <==> KnownTo(t, x)
    requires forall x | x in t.live && x != id :: x in t'.live && t'.live[x] == t.live[x]
    requires forall x | x in t'.live :: x !in t'.closed
    ensures Agrees(cfg, t', s, history)
  {
    hide Newest, Distinct;
  }

  lemma RememberedIsGone(cfg: Config, t: Trial, s: State, history: seq<nat>, id: nat)
    requires GoodConfig(cfg) && Agrees(cfg, t, s, history)
    ensures id in Newest(history, cfg.limits.maxClosedStreamIDs) <==> id in s.tombs
    ensures id in s.tombs ==> id !in s.streams
    ensures forall x | x in t.live :: x !in t.closed
  {
    assert id in s.tombs ==> id in history;
  }

  /** Session frames, frames of remembered ids, and frames of ids no longer remembered. */
  lemma SkippedAgrees(cfg: Config, t: Trial, a: Acc, f: Frame, admit: bool, history: seq<nat>)
    requires GoodConfig(cfg) && Agrees(cfg, t, a.s, history)
    requires f.id == 0 || (f.kind != OPEN && (f.id in a.s.tombs || f.id !in a.s.streams))
    requires ValidateFrame(t, f).Some?
    ensures StepAgrees(cfg, t, a, f, admit, history)
  {
    hide Amount, Agrees, Newest, AcceptData, AddCredit, CloseStream;
    RememberedIsGone(cfg, t, a.s, history, f.id);
    if f.id != 0 {
      AgreesIgnoring(cfg, t, ValidateFrame(t, f).value, a.s, history, f.id);
    }
  }

  lemma FrameAgrees(cfg: Config, t: Trial, a: Acc, f: Frame, admit: bool, history: seq<nat>)
    requires Structured(cfg, a.s) && Agrees(cfg, t, a.s, history) && ValidateFrame(t, f).Some?
    ensures StepAgrees(cfg, t, a, f, admit, history)
  {
    hide Agrees;
    if f.id == 0 || (f.kind != OPEN && (f.id in a.s.tombs || f.id !in a.s.streams)) {
      SkippedAgrees(cfg, t, a, f, admit, history);
    } else if f.kind == OPEN {
      if |a.s.streams| >= cfg.limits.maxStreamsPerSession || !admit {
        RejectAgrees(cfg, t, a, f, admit, history);
      } else {
        AdmitAgrees(cfg, t, a, f, history);
      }
    } else if f.kind == CLOSE {
      CloseAgrees(cfg, t, a, f, admit, history);
    } else {
      assert GoodStream(cfg, a.s, f.id);
      DataAgrees(cfg, t, a, f, admit, history);
    }
  }

  // The budget through a batch.

  /** Every OPEN has the carrier its stream's frames will go to. */
  predicate LanesReady(cfg: Config, s: State, frames: seq<Frame>) {
    forall i | 0 <= i < |frames| && frames[i].kind == OPEN :: cfg.LaneOf(frames[i].id) in s.lanes
  }

  lemma OpenInv(cfg: Config, a: Acc, f: Frame, admit: bool)
    requires Inv(cfg, a.s, a.left) && !a.s.closed
    requires 0 < f.id <= MAX_STREAM_ID && f.kind == OPEN
    requires f.id !in a.s.streams && f.id !in a.s.tombs && cfg.LaneOf(f.id) in a.s.lanes
    ensures match ApplyFrame(cfg, a, f, admit)
      case Going(a') => Inv(cfg, a'.s, a'.left) && a'.left == a.left
      case Aborted(a') => Inv(cfg, a'.s, a'.left)
      case NilStream => false
  {
    hide Inv, RememberClosed, QueueFrame;
    InvFacts(cfg, a.s, a.left);
    if |a.s.streams| >= cfg.limits.maxStreamsPerSession || !admit {
      var close := Frame(CLOSE, f.id, []);
      RememberClosedInv(cfg, a.s, f.id, a.left);
      RememberClosedShape(cfg, a.s, f.id);
      CloseIsQueueable(f.id);
      QueueFrameInv(cfg, RememberClosed(cfg, a.s, f.id), close, a.left);
    } else {
      var st := NewStream(a.s.nextBackend);
      PlusNothing(a.left);
      SetStreamInv(cfg, a.s, f.id, st, a.left, a.left);
      RenumberInv(cfg, a.s.(streams := a.s.streams[f.id := st]), a.s.nextBackend + 1, a.left);
    }
  }

  lemma CloseIsQueueable(id: nat)
    requires id <= MAX_STREAM_ID
    ensures Queueable(Frame(CLOSE, id, []))
  {
  }

  lemma RenumberInv(cfg: Config, s: State, nextBackend: int, held: Charge)
    requires Inv(cfg, s, held)
    ensures Inv(cfg, s.(nextBackend := nextBackend), held)
  {
    hide Charged, WellFormed, Balanced, Sane, GoodLane;
    var s' := s.(nextBackend := nextBackend);
    SameCharged(s, s');
    assert forall id | id in s'.streams :: GoodStream(cfg, s, id) ==> GoodStream(cfg, s', id);
  }

  lemma AcceptInv(cfg: Config, s: State, id: nat, payload: Bytes, left: Charge)
    requires Inv(cfg, s, left) && !s.closed && id in s.streams
    requires |payload| <= s.streams[id].receiveWindow && AppendCharge(s.streams[id], payload).Within(left)
    ensures Inv(cfg, s.(streams := s.streams[id := AcceptData(s.streams[id], payload)]),
                left.Minus(AppendCharge(s.streams[id], payload)))
  {
    assert GoodStream(cfg, s, id);
    var st := s.streams[id];
    StreamStepsBalanced(st, payload, 0, 0);
    hide Inv, Books, Structured, Balanced, AcceptData, AppendCharge, WriteCharge, Charge.Plus;
    PlusCancels(left, WriteCharge(st), AppendCharge(st, payload));
    SetStreamInv(cfg, s, id, AcceptData(st, payload), left, left.Minus(AppendCharge(st, payload)));
  }

  lemma CreditInv(cfg: Config, s: State, id: nat, amount: nat, left: Charge)
    requires Inv(cfg, s, left) && !s.closed && id in s.streams
    ensures Inv(cfg, s.(streams := s.streams[id := AddCredit(s.streams[id], amount)]), left)
  {
    assert GoodStream(cfg, s, id);
    var st := s.streams[id];
    StreamStepsBalanced(st, [], 0, amount);
    CreditKeepsCharge(st, amount);
    PlusCancels(left, WriteCharge(st), NOTHING);
    hide Structured, Balanced, AddCredit, WriteCharge, Charge.Plus;
    SetStreamInv(cfg, s, id, AddCredit(st, amount), left, left);
  }

  lemma CreditKeepsCharge(st: Stream, amount: nat)
    ensures WriteCharge(AddCredit(st, amount)) == WriteCharge(st)
  {
  }

  /** The reservation in hand covers what the rest of the batch may still be charged. */
  predicate Covers(left: Charge, live: set<nat>, s: State, frames: seq<Frame>) {
    s.streams.Keys <= live && Reservation(live, frames).Within(left)
  }

  lemma {:induction false} ReservationNonnegative(live: set<nat>, frames: seq<Frame>)
    ensures NOTHING.Within(Reservation(live, frames))
    decreases |frames|
  {
    if frames != [] {
      ReservationNonnegative(LiveAfter(live, frames[0]), frames[1..]);
    }
  }

  lemma {:induction false} OpensAreNew(t: Trial, frames: seq<Frame>)
    requires Validate(t, frames).Some?
    ensures forall i | 0 <= i < |frames| && frames[i].kind == OPEN :: !KnownTo(t, frames[i].id)
    decreases |frames|
  {
    if frames != [] {
      var t' := ValidateFrame(t, frames[0]).value;
      OpensAreNew(t', frames[1..]);
      forall i | 0 <= i < |frames| && frames[i].kind == OPEN
        ensures !KnownTo(t, frames[i].id)
      {
        if i > 0 {
          assert frames[1..][i - 1] == frames[i];
          assert !KnownTo(t', frames[i].id);
        }
      }
    }
  }

  /** What applying one frame keeps, with `rest` still needed for the frames after it. */
  ghost predicate Kept(cfg: Config, a: Acc, f: Frame, live: set<nat>, rest: Charge, out: Applied)
  {
    match out
    case Going(b) =>
      && Inv(cfg, b.s, b.left) && !b.s.closed && rest.Within(b.left)
      && b.s.streams.Keys <= LiveAfter(live, f)
      && (forall k | k in a.s.lanes && k !in a.s.tombs :: k in b.s.lanes)
      && (!cfg.UsesLanes() ==> b.s.lanes.Keys == a.s.lanes.Keys)
    case Aborted(b) => Inv(cfg, b.s, b.left)
    case NilStream => true
  }

  lemma OpenKept(cfg: Config, a: Acc, f: Frame, admit: bool, live: set<nat>, rest: Charge)
    requires Inv(cfg, a.s, a.left) && !a.s.closed && GoodConfig(cfg)
    requires 0 < f.id <= MAX_STREAM_ID && f.kind == OPEN && f.id !in a.s.streams && f.id !in a.s.tombs
    requires cfg.LaneOf(f.id) in a.s.lanes && a.s.streams.Keys <= live && rest.Within(a.left)
    ensures Kept(cfg, a, f, live, rest, ApplyFrame(cfg, a, f, admit))
  {
    hide Inv, RememberClosed, QueueFrame;
    OpenInv(cfg, a, f, admit);
    RememberClosedShape(cfg, a.s, f.id);
    QueueFrameShape(cfg, RememberClosed(cfg, a.s, f.id), Frame(CLOSE, f.id, []));
  }

  lemma CloseKept(cfg: Config, a: Acc, f: Frame, admit: bool, live: set<nat>, rest: Charge)
    requires Inv(cfg, a.s, a.left) && !a.s.closed && GoodConfig(cfg)
    requires f.id != 0 && f.kind == CLOSE && f.id in a.s.streams && f.id !in a.s.tombs
    requires a.s.streams.Keys <= live && rest.Within(a.left)
    ensures Kept(cfg, a, f, live, rest, ApplyFrame(cfg, a, f, admit))
  {
    hide Inv, CloseStream;
    CloseStreamInv(cfg, a.s, f.id, a.left);
    CloseStreamShape(cfg, a.s, f.id);
  }

  lemma DataKept(cfg: Config, a: Acc, f: Frame, admit: bool, live: set<nat>, rest: Charge)
    requires Inv(cfg, a.s, a.left) && !a.s.closed && GoodConfig(cfg)
    requires f.id != 0 && (f.kind == DATA || f.kind == WINDOW) && f.id in a.s.streams && f.id !in a.s.tombs
    requires f.kind == DATA ==> |f.payload| <= a.s.streams[f.id].receiveWindow
    requires a.s.streams.Keys <= live && NOTHING.Within(rest) && ReserveFrame(live, f).Plus(rest).Within(a.left)
    ensures Kept(cfg, a, f, live, rest, ApplyFrame(cfg, a, f, admit))
  {
    hide Inv, AcceptData, AddCredit, Amount;
    if f.kind == DATA {
      AcceptInv(cfg, a.s, f.id, f.payload, a.left);
    } else {
      CreditInv(cfg, a.s, f.id, Amount(f.payload), a.left);
    }
    assert a.s.streams[f.id := a.s.streams[f.id]].Keys == a.s.streams.Keys;
  }

  /** One validated frame: the equations survive, and the charge stays within its share. */
  lemma FrameInv(cfg: Config, t: Trial, a: Acc, f: Frame, admit: bool, history: seq<nat>, live: set<nat>, rest: Charge)
    requires Inv(cfg, a.s, a.left) && !a.s.closed && GoodConfig(cfg) && Agrees(cfg, t, a.s, history)
    requires ValidateFrame(t, f).Some? && f.id <= MAX_STREAM_ID
    requires f.kind == OPEN ==> cfg.LaneOf(f.id) in a.s.lanes
    requires a.s.streams.Keys <= live && NOTHING.Within(rest)
    requires ReserveFrame(live, f).Plus(rest).Within(a.left)
    ensures Kept(cfg, a, f, live, rest, ApplyFrame(cfg, a, f, admit))
  {
    hide Inv, Agrees, OpenFrame, CloseStream, AcceptData, AddCredit, ValidateFrame;
    FrameSnapshot(cfg, t, a.s, f, history);
    RememberedIsGone(cfg, t, a.s, history, f.id);
    if f.id == 0 || (f.kind != OPEN && (f.id in a.s.tombs || f.id !in a.s.streams)) {
    } else if f.kind == OPEN {
      hide Kept;
      OpenKept(cfg, a, f, admit, live, rest);
    } else if f.kind == CLOSE {
      hide Kept;
      CloseKept(cfg, a, f, admit, live, rest);
    } else {
      hide Kept;
      ValidatedKinds(t, f);
      DataKept(cfg, a, f, admit, live, rest);
    }
  }

  lemma ValidatedKinds(t: Trial, f: Frame)
    requires ValidateFrame(t, f).Some? && f.id != 0
    ensures f.kind == OPEN || f.kind == DATA || f.kind == WINDOW || f.kind == CLOSE
  {
  }

  /** What validation of a frame says about the session it is applied to. */
  lemma FrameSnapshot(cfg: Config, t: Trial, s: State, f: Frame, history: seq<nat>)
    requires GoodConfig(cfg) && Agrees(cfg, t, s, history) && ValidateFrame(t, f).Some?
    ensures f.kind == OPEN ==> f.id != 0 && f.id !in s.streams && f.id !in s.tombs
    ensures f.kind == DATA && f.id in s.streams ==> |f.payload| <= s.streams[f.id].receiveWindow
  {
    assert f.id in s.tombs ==> f.id in history;
  }

  /** Everything the batch theorem keeps from frame to frame. */
  ghost predicate Underway(cfg: Config, t: Trial, a: Acc, frames: seq<Frame>, history: seq<nat>, live: set<nat>) {
    && Inv(cfg, a.s, a.left) && !a.s.closed
    && Agrees(cfg, t, a.s, history)
    && Validate(t, frames).Some? && AllFit(frames, MAX_PAYLOAD)
    && LanesReady(cfg, a.s, frames) && Covers(a.left, live, a.s, frames)
  }

  lemma UnderwayStep(cfg: Config, t: Trial, a: Acc, frames: seq<Frame>, admit: bool, history: seq<nat>, live: set<nat>)
    requires frames != [] && Underway(cfg, t, a, frames, history, live)
    ensures match ApplyFrame(cfg, a, frames[0], admit)
      case Going(a') =>
        && !LosesTombstone(cfg, Ids(a.s.streams.Keys, history), frames[0])
        && IdsAfter(cfg, Ids(a.s.streams.Keys, history), frames[0], admit).live == a'.s.streams.Keys
        && Underway(cfg, ValidateFrame(t, frames[0]).value, a', frames[1..],
                    IdsAfter(cfg, Ids(a.s.streams.Keys, history), frames[0], admit).history,
                    LiveAfter(live, frames[0]))
      case Aborted(a') => Inv(cfg, a'.s, a'.left) && frames[0].kind == OPEN
      case NilStream => LosesTombstone(cfg, Ids(a.s.streams.Keys, history), frames[0])
  {
    var f, rest := frames[0], Reservation(LiveAfter(live, frames[0]), frames[1..]);
    ReservationNonnegative(LiveAfter(live, f), frames[1..]);
    OpensAreNew(t, frames);
    RememberedIsKnown(cfg, t, a.s, history);
    assert Fits(f, MAX_PAYLOAD);
    FrameInv(cfg, t, a, f, admit, history, live, rest);
    FrameAgrees(cfg, t, a, f, admit, history);
    hide Inv, Agrees, ApplyFrame, ValidateFrame, IdsAfter, LosesTombstone, ReserveFrame, LiveAfter, Fits, Charge.Plus;
    match ApplyFrame(cfg, a, f, admit)
    case Going(a') =>
      forall i | 0 <= i < |frames[1..]| && frames[1..][i].kind == OPEN
        ensures cfg.LaneOf(frames[1..][i].id) in a'.s.lanes
      {
        assert frames[1..][i] == frames[i + 1];
      }
    case _ =>
  }

  lemma RememberedIsKnown(cfg: Config, t: Trial, s: State, history: seq<nat>)
    requires GoodConfig(cfg) && Agrees(cfg, t, s, history)
    ensures forall id | id in s.tombs :: KnownTo(t, id)
  {
    forall id | id in s.tombs
      ensures KnownTo(t, id)
    {
      assert id in history;
    }
  }

  /** The batch theorem, from any point of the batch on. */
  lemma {:induction false} ApplyUnderway(cfg: Config, t: Trial, a: Acc, frames: seq<Frame>, admits: seq<bool>,
                                         history: seq<nat>, live: set<nat>)
    requires Underway(cfg, t, a, frames, history, live) && |admits| == |frames|
    ensures var lost := LosesSome(cfg, Ids(a.s.streams.Keys, history), frames, admits);
      match Apply(cfg, a, frames, admits)
      case Going(a') => !lost && Inv(cfg, a'.s, a'.left) && !a'.s.closed
      case Aborted(a') => Inv(cfg, a'.s, a'.left)
      case NilStream => lost
    decreases |frames|
  {
    if frames != [] {
      UnderwayStep(cfg, t, a, frames, admits[0], history, live);
      hide Inv, Agrees, ApplyFrame, ValidateFrame, LosesTombstone;
      match ApplyFrame(cfg, a, frames[0], admits[0])
      case Going(a') =>
        ApplyUnderway(cfg, ValidateFrame(t, frames[0]).value, a', frames[1..], admits[1..],
                      IdsAfter(cfg, Ids(a.s.streams.Keys, history), frames[0], admits[0]).history,
                      LiveAfter(live, frames[0]));
      case _ =>
    }
  }
}

/**
 * Which runs keep a session's control frames within its reserve: three frames for every stream opened,
 * a WINDOW queued, a WINDOW unacknowledged and a CLOSE.
 */
module Reserves {
  import opened Octets
  import opened Frames
  import opened Limits
  import opened Charges
  import opened Queue
  import opened Streams
  import opened Tombstones
  import opened Poll
  import opened Uplink
  import opened SessionState
  import opened Batch
  import opened BatchLaws
  import opened SessionSteps
  import opened PoolRun
  import opened DataShare

  /** The ids of a run of frames' frames of one kind. */
  function Named(q: seq<Frame>, kind: Byte): multiset<nat> {
    if q == [] then multiset{}
    else Named(q[..|q| - 1], kind) + if q[|q| - 1].kind == kind then multiset{q[|q| - 1].id} else multiset{}
  }

  lemma {:induction false} NamedAppend(a: seq<Frame>, b: seq<Frame>, kind: Byte)
    ensures Named(a + b, kind) == Named(a, kind) + Named(b, kind)
  {
    if |b| == 0 {
      assert a + b == a;
    } else {
      assert (a + b)[..|a + b| - 1] == a + b[..|b| - 1];
      NamedAppend(a, b[..|b| - 1], kind);
    }
  }

  lemma NamedOne(f: Frame, kind: Byte)
    ensures Named([f], kind) == if f.kind == kind then multiset{f.id} else multiset{}
  {
    assert [f][..0] == [];
  }

  /** One frame replaced by another of its kind and stream. */
  lemma NamedReplace(q: seq<Frame>, i: nat, f: Frame, kind: Byte)
    requires i < |q| && q[i].kind == f.kind && q[i].id == f.id
    ensures Named(q[i := f], kind) == Named(q, kind)
  {
    hide Named;
    var head, tail := q[..i], q[i + 1..];
    NamedOne(q[i], kind);
    NamedOne(f, kind);
    NamedAppend(head + [q[i]], tail, kind);
    NamedAppend(head + [f], tail, kind);
    NamedAppend(head, [q[i]], kind);
    NamedAppend(head, [f], kind);
    assert q == (head + [q[i]]) + tail && q[i := f] == (head + [f]) + tail;
  }

  lemma {:induction false} NamedAt(q: seq<Frame>, i: nat, kind: Byte)
    requires i < |q| && q[i].kind == kind
    ensures Named(q, kind)[q[i].id] >= 1
  {
    if i < |q| - 1 {
      NamedAt(q[..|q| - 1], i, kind);
    }
  }

  // What a carrier holds for the client.

  /** A frame the relay queues on carrier `k`: DATA, or a WINDOW or CLOSE of a stream that was opened. */
  predicate Due(cfg: Config, k: nat, f: Frame, opens: multiset<nat>) {
    f.kind == DATA ||
    (((f.kind == WINDOW && |f.payload| == 4) || (f.kind == CLOSE && |f.payload| == 0))
     && f.id in opens && cfg.LaneOf(f.id) == k)
  }

  predicate AllDue(cfg: Config, k: nat, q: seq<Frame>, opens: multiset<nat>) {
    forall i | 0 <= i < |q| :: Due(cfg, k, q[i], opens)
  }

  ghost predicate OneWindowEach(q: seq<Frame>) {
    forall id: nat :: Named(q, WINDOW)[id] <= 1
  }

  ghost predicate Tidy(cfg: Config, k: nat, d: Down, opens: multiset<nat>) {
    && AllDue(cfg, k, d.queue, opens) && AllDue(cfg, k, d.unacked, opens)
    && OneWindowEach(d.queue) && OneWindowEach(d.unacked)
  }

  function Closes(d: Down, id: nat): nat {
    Named(d.queue, CLOSE)[id] + Named(d.unacked, CLOSE)[id]
  }

  /** The CLOSE frames of a stream on its carrier, and the one it will still have. */
  function ClosesOf(cfg: Config, s: State, id: nat): nat {
    (if cfg.LaneOf(id) in s.lanes then Closes(s.lanes[cfg.LaneOf(id)].down, id) else 0)
    + if id in s.streams then 1 else 0
  }

  /** `opens` counts the OPEN frames of each id that took effect, admitted or refused. */
  ghost predicate Frugal(cfg: Config, s: State, opens: multiset<nat>) {
    && (forall k | k in s.lanes :: Tidy(cfg, k, s.lanes[k].down, opens))
    && (forall id: nat :: ClosesOf(cfg, s, id) <= opens[id])
  }

  lemma TidyGrows(cfg: Config, k: nat, d: Down, opens: multiset<nat>, more: multiset<nat>)
    requires Tidy(cfg, k, d, opens)
    ensures Tidy(cfg, k, d, opens + more)
  {
    hide Named;
  }

  lemma FrugalGrows(cfg: Config, s: State, opens: multiset<nat>, more: multiset<nat>)
    requires Frugal(cfg, s, opens)
    ensures Frugal(cfg, s, opens + more)
  {
    hide Tidy, ClosesOf;
    forall k | k in s.lanes
      ensures Tidy(cfg, k, s.lanes[k].down, opens + more)
    {
      TidyGrows(cfg, k, s.lanes[k].down, opens, more);
    }
  }

  // Steps that queue nothing.

  /** Frames acknowledged, taken off the front or dropped. */
  ghost predicate Fewer(d: Down, d': Down) {
    || (d'.queue == d.queue && d'.unacked == d.unacked)
    || (d'.unacked == [] && (d'.queue == [] || d'.queue == d.queue))
    || exists n: nat :: n <= |d.queue| && d'.unacked == d.queue[..n] && d'.queue == d.queue[n..]
  }

  lemma FewerTidy(cfg: Config, k: nat, d: Down, d': Down, opens: multiset<nat>)
    requires Tidy(cfg, k, d, opens) && Fewer(d, d')
    ensures Tidy(cfg, k, d', opens) && forall id: nat :: Closes(d', id) <= Closes(d, id)
  {
    if n: nat :| n <= |d.queue| && d'.unacked == d.queue[..n] && d'.queue == d.queue[n..] {
      hide *;
      TakenTidy(cfg, k, d, d', n, opens);
    } else {
      hide Due, Named;
      NoneNamed(d'.unacked);
      NoneNamed(d'.queue);
    }
  }

  lemma NoneNamed(q: seq<Frame>)
    ensures |q| == 0 ==> Named(q, WINDOW) == multiset{} && Named(q, CLOSE) == multiset{}
  {
  }

  lemma TakenTidy(cfg: Config, k: nat, d: Down, d': Down, n: nat, opens: multiset<nat>)
    requires Tidy(cfg, k, d, opens) && n <= |d.queue| && d'.unacked == d.queue[..n] && d'.queue == d.queue[n..]
    ensures Tidy(cfg, k, d', opens) && forall id: nat :: Closes(d', id) <= Closes(d, id)
  {
    hide Due, Named;
    assert AllDue(cfg, k, d'.queue, opens) by {
      assert forall i | 0 <= i < |d'.queue| :: d'.queue[i] == d.queue[n + i];
    }
    assert d.queue == d.queue[..n] + d.queue[n..];
    assert forall id: nat :: Named(d.queue, WINDOW)[id] <= 1;
    NamedAppend(d.queue[..n], d.queue[n..], WINDOW);
    NamedAppend(d.queue[..n], d.queue[n..], CLOSE);
    assert Named(d.queue, WINDOW) == Named(d'.unacked, WINDOW) + Named(d'.queue, WINDOW);
    forall id: nat
      ensures Named(d'.unacked, WINDOW)[id] <= 1 && Named(d'.queue, WINDOW)[id] <= 1
    {
      assert Named(d.queue, WINDOW)[id] <= 1;
    }
  }

  ghost predicate QueuesNothing(s: State, t: State) {
    && t.streams.Keys <= s.streams.Keys
    && forall k | k in t.lanes ::
         if k in s.lanes then Fewer(s.lanes[k].down, t.lanes[k].down)
         else t.lanes[k].down.queue == [] == t.lanes[k].down.unacked
  }

  lemma FrugalKept(cfg: Config, s: State, t: State, opens: multiset<nat>)
    requires Frugal(cfg, s, opens) && QueuesNothing(s, t)
    ensures Frugal(cfg, t, opens)
    ensures forall id: nat ::
      ClosesOf(cfg, t, id) <= ClosesOf(cfg, s, id) - if id in s.streams && id !in t.streams then 1 else 0
  {
    hide Tidy, Fewer, Closes;
    forall k | k in t.lanes
      ensures Tidy(cfg, k, t.lanes[k].down, opens)
      ensures forall id: nat ::
        Closes(t.lanes[k].down, id) <= if k in s.lanes then Closes(s.lanes[k].down, id) else 0
    {
      if k in s.lanes {
        FewerTidy(cfg, k, s.lanes[k].down, t.lanes[k].down, opens);
      } else {
        EmptyTidy(cfg, k, t.lanes[k].down, opens);
      }
    }
    forall id: nat
      ensures ClosesOf(cfg, t, id) <= opens[id]
    {
      assert ClosesOf(cfg, s, id) <= opens[id];
    }
  }

  lemma EmptyTidy(cfg: Config, k: nat, d: Down, opens: multiset<nat>)
    requires d.queue == [] == d.unacked
    ensures Tidy(cfg, k, d, opens) && forall id: nat :: Closes(d, id) == 0
  {
  }

  lemma NothingTrans(s: State, t: State, u: State)
    requires QueuesNothing(s, t) && t.lanes == u.lanes && u.streams.Keys <= t.streams.Keys
    ensures QueuesNothing(s, u)
  {
  }

  lemma SameQueues(s: State, t: State)
    requires t.lanes == s.lanes && t.streams.Keys <= s.streams.Keys
    ensures QueuesNothing(s, t)
  {
  }

  lemma DropLaneQueues(s: State, k: nat)
    ensures QueuesNothing(s, DropLane(s, k)) && DropLane(s, k).streams == s.streams
  {
    hide LaneCharge;
    DropLaneShape(s, k);
  }

  lemma RememberQueues(cfg: Config, s: State, id: nat)
    requires GoodConfig(cfg)
    ensures QueuesNothing(s, RememberClosed(cfg, s, id)) && RememberClosed(cfg, s, id).streams == s.streams
  {
    hide DropLane, Remember, Evicted;
    var remembered := s.(tombs := Remember(s.tombs, id, cfg.limits.maxClosedStreamIDs));
    match Evicted(s.tombs, id, cfg.limits.maxClosedStreamIDs)
    case Some(oldest) => DropLaneQueues(remembered, oldest);
    case None =>
  }

  lemma CloseStreamQueues(cfg: Config, s: State, id: nat)
    requires GoodConfig(cfg) && id in s.streams
    ensures QueuesNothing(s, CloseStream(cfg, s, id)) && CloseStream(cfg, s, id).streams == s.streams - {id}
  {
    hide RememberClosed, WriteCharge;
    ReleaseShape(s, WriteCharge(s.streams[id]));
    RememberQueues(cfg, Release(s, WriteCharge(s.streams[id])).(streams := s.streams - {id}), id);
  }

  lemma CloseSessionQueues(s: State)
    ensures QueuesNothing(s, CloseSession(s))
  {
  }

  // Steps that queue a frame.

  /** Credit waiting in a queue is below what one WINDOW frame can carry. */
  ghost predicate SmallCredit(q: seq<Frame>) {
    forall id: nat :: WindowTotal(q, id) < TWO_32
  }

  lemma {:induction false} CreditCounts(q: seq<Frame>, i: nat, id: nat)
    requires i < |q| && IsWindowOf(q[i], id)
    ensures WindowTotal(q, id) >= Amount(q[i].payload)
  {
    hide Amount;
    if i < |q| - 1 {
      CreditCounts(q[..|q| - 1], i, id);
    }
  }

  lemma {:induction false} NoWindowNamed(q: seq<Frame>, id: nat)
    requires forall j | 0 <= j < |q| :: !IsWindowOf(q[j], id)
    ensures Named(q, WINDOW)[id] == 0
  {
    if q != [] {
      NoWindowNamed(q[..|q| - 1], id);
    }
  }

  /** Pushing adds a CLOSE for a CLOSE, and a WINDOW only for a stream that had none queued. */
  lemma PushNames(q: seq<Frame>, f: Frame, maxPayload: nat)
    requires f.kind == WINDOW ==> WindowTotal(Push(q, f, maxPayload), f.id) < TWO_32
    ensures var q' := Push(q, f, maxPayload);
      && Named(q', CLOSE) == Named(q, CLOSE) + (if f.kind == CLOSE then multiset{f.id} else multiset{})
      && (Named(q', WINDOW) == Named(q, WINDOW)
          || (f.kind == WINDOW && Named(q, WINDOW)[f.id] == 0
              && Named(q', WINDOW) == Named(q, WINDOW) + multiset{f.id}))
  {
    hide Named, WindowTotal, PutUint32, Amount;
    match Place(q, f, maxPayload)
    case MergeWindow(i) =>
      var merged := Frame(WINDOW, f.id, WindowPayload(Amount(q[i].payload) + Amount(f.payload)));
      NamedReplace(q, i, merged, WINDOW);
      NamedReplace(q, i, merged, CLOSE);
    case ExtendTail =>
      var longer := Frame(DATA, f.id, q[|q| - 1].payload + f.payload);
      NamedReplace(q, |q| - 1, longer, WINDOW);
      NamedReplace(q, |q| - 1, longer, CLOSE);
    case Append =>
      NamedAppend(q, [f], WINDOW);
      NamedAppend(q, [f], CLOSE);
      NamedOne(f, WINDOW);
      NamedOne(f, CLOSE);
      if f.kind == WINDOW {
        AppendsFirstWindow(q, f, maxPayload);
      }
  }

  lemma AppendsFirstWindow(q: seq<Frame>, f: Frame, maxPayload: nat)
    requires f.kind == WINDOW && Place(q, f, maxPayload).Append? && WindowTotal(q + [f], f.id) < TWO_32
    ensures Named(q, WINDOW)[f.id] == 0
  {
    hide Named, WindowTotal, Amount;
    AppendRefines(q, f, f.id);
    var last := LastWindow(q, f.id);
    if last.Some? {
      CreditCounts(q, last.value, f.id);
    } else {
      NoWindowNamed(q, f.id);
    }
  }

  lemma PushDue(cfg: Config, k: nat, q: seq<Frame>, f: Frame, maxPayload: nat, opens: multiset<nat>)
    requires AllDue(cfg, k, q, opens) && Due(cfg, k, f, opens)
    ensures AllDue(cfg, k, Push(q, f, maxPayload), opens)
  {
    hide PutUint32, Amount;
  }

  ghost predicate CreditSmall(s: State) {
    forall k | k in s.lanes :: SmallCredit(s.lanes[k].down.queue)
  }

  /** What `f` may be, with room left for its CLOSE and its credit still in one frame. */
  ghost predicate Payable(cfg: Config, s: State, f: Frame, opens: multiset<nat>)
    requires GoodConfig(cfg)
  {
    && Due(cfg, cfg.LaneOf(f.id), f, opens)
    && (f.kind == CLOSE ==> ClosesOf(cfg, s, f.id) < opens[f.id])
    && (f.kind == WINDOW && QueueFrame(cfg, s, f).Some? ==> CreditSmall(QueueFrame(cfg, s, f).value))
  }

  lemma QueueFrameFrugal(cfg: Config, s: State, f: Frame, opens: multiset<nat>)
    requires GoodConfig(cfg) && Frugal(cfg, s, opens) && Payable(cfg, s, f, opens)
    ensures QueueFrame(cfg, s, f).Some? ==> Frugal(cfg, QueueFrame(cfg, s, f).value, opens)
  {
    hide *;
    if QueueFrame(cfg, s, f).Some? {
      QueuedLane(cfg, s, f);
      var k, t := cfg.LaneOf(f.id), QueueFrame(cfg, s, f).value;
      PayableMeans(cfg, s, f, opens);
      var d := s.lanes[k].down;
      LaneOfFrugal(cfg, s, k, opens);
      PushNames(d.queue, f, cfg.limits.maxFramePayload);
      PushTidy(cfg, k, d, f, cfg.limits.maxFramePayload, opens);
      PushFrugal(cfg, s, t, f, opens);
    }
  }

  lemma QueuedLane(cfg: Config, s: State, f: Frame)
    requires GoodConfig(cfg) && QueueFrame(cfg, s, f).Some?
    ensures cfg.limits.maxFramePayload > 0
    ensures var k, t := cfg.LaneOf(f.id), QueueFrame(cfg, s, f).value;
      && k in s.lanes && k in t.lanes && t.streams == s.streams
      && t.lanes == s.lanes[k := t.lanes[k]]
      && t.lanes[k].down == s.lanes[k].down.(queue := Push(s.lanes[k].down.queue, f, cfg.limits.maxFramePayload))
  {
    hide Push, Place, PushCharge, SessionAdmits, PoolAdmits;
  }

  lemma PayableMeans(cfg: Config, s: State, f: Frame, opens: multiset<nat>)
    requires GoodConfig(cfg) && Payable(cfg, s, f, opens) && QueueFrame(cfg, s, f).Some?
    requires cfg.LaneOf(f.id) in QueueFrame(cfg, s, f).value.lanes
    ensures Due(cfg, cfg.LaneOf(f.id), f, opens) && (f.kind == CLOSE ==> ClosesOf(cfg, s, f.id) < opens[f.id])
    ensures f.kind == WINDOW ==>
      WindowTotal(QueueFrame(cfg, s, f).value.lanes[cfg.LaneOf(f.id)].down.queue, f.id) < TWO_32
  {
    hide QueueFrame, Due, ClosesOf, WindowTotal;
  }

  lemma LaneOfFrugal(cfg: Config, s: State, k: nat, opens: multiset<nat>)
    requires Frugal(cfg, s, opens) && k in s.lanes
    ensures Tidy(cfg, k, s.lanes[k].down, opens)
  {
    hide Tidy, ClosesOf;
  }

  lemma PushTidy(cfg: Config, k: nat, d: Down, f: Frame, maxPayload: nat, opens: multiset<nat>)
    requires Tidy(cfg, k, d, opens) && Due(cfg, k, f, opens)
    requires var q, q' := d.queue, Push(d.queue, f, maxPayload);
      Named(q', WINDOW) == Named(q, WINDOW)
      || (Named(q, WINDOW)[f.id] == 0 && Named(q', WINDOW) == Named(q, WINDOW) + multiset{f.id})
    ensures Tidy(cfg, k, d.(queue := Push(d.queue, f, maxPayload)), opens)
  {
    hide Due, Push, Named;
    PushDue(cfg, k, d.queue, f, maxPayload, opens);
  }

  lemma PushFrugal(cfg: Config, s: State, t: State, f: Frame, opens: multiset<nat>)
    requires Frugal(cfg, s, opens) && t.streams == s.streams
    requires var k := cfg.LaneOf(f.id);
      && k in s.lanes && k in t.lanes && t.lanes == s.lanes[k := t.lanes[k]] && Tidy(cfg, k, t.lanes[k].down, opens)
      && t.lanes[k].down.unacked == s.lanes[k].down.unacked
      && Named(t.lanes[k].down.queue, CLOSE)
           == Named(s.lanes[k].down.queue, CLOSE) + (if f.kind == CLOSE then multiset{f.id} else multiset{})
    requires f.kind == CLOSE ==> ClosesOf(cfg, s, f.id) < opens[f.id]
    ensures Frugal(cfg, t, opens)
  {
    hide Tidy, Named;
    forall id: nat
      ensures ClosesOf(cfg, t, id) <= opens[id]
    {
      assert ClosesOf(cfg, s, id) <= opens[id];
    }
  }

  // An uplink batch.

  lemma OpenFrugal(cfg: Config, a: Acc, f: Frame, admit: bool, opens: multiset<nat>)
    requires GoodConfig(cfg) && Frugal(cfg, a.s, opens)
    ensures match OpenFrame(cfg, a, f, admit)
      case Going(b) => Frugal(cfg, b.s, opens + multiset{f.id})
      case Aborted(b) => Frugal(cfg, b.s, opens + multiset{f.id})
      case NilStream => true
  {
    if |a.s.streams| >= cfg.limits.maxStreamsPerSession || !admit {
      hide Frugal, RememberClosed, QueueFrame, QueuesNothing, Payable;
      var r, close := RememberClosed(cfg, a.s, f.id), Frame(CLOSE, f.id, []);
      RememberQueues(cfg, a.s, f.id);
      FrugalKept(cfg, a.s, r, opens);
      ClosePayable(cfg, r, f.id, opens);
      FrugalGrows(cfg, r, opens, multiset{f.id});
      QueueFrameFrugal(cfg, r, close, opens + multiset{f.id});
    } else {
      hide Tidy, Closes;
      FrugalGrows(cfg, a.s, opens, multiset{f.id});
      assert forall id: nat :: ClosesOf(cfg, a.s, id) <= opens[id];
    }
  }

  lemma ClosePayable(cfg: Config, s: State, id: nat, opens: multiset<nat>)
    requires GoodConfig(cfg) && Frugal(cfg, s, opens)
    ensures Payable(cfg, s, Frame(CLOSE, id, []), opens + multiset{id})
  {
    hide ClosesOf, Tidy, QueueFrame;
    assert ClosesOf(cfg, s, id) <= opens[id];
  }

  lemma ApplyFrameFrugal(cfg: Config, a: Acc, f: Frame, admit: bool, opens: multiset<nat>)
    requires GoodConfig(cfg) && Frugal(cfg, a.s, opens)
    ensures match ApplyFrame(cfg, a, f, admit)
      case Going(b) => Frugal(cfg, b.s, opens + Named([f], OPEN))
      case Aborted(b) => Frugal(cfg, b.s, opens + Named([f], OPEN))
      case NilStream => true
  {
    hide Frugal, OpenFrame, CloseStream, AcceptData, AddCredit, Amount, Named, QueuesNothing;
    NamedOne(f, OPEN);
    OpenFrugal(cfg, a, f, admit, opens);
    FrugalGrows(cfg, a.s, opens, Named([f], OPEN));
    if f.id in a.s.streams && f.kind != OPEN {
      var st := a.s.streams[f.id];
      SetStreamQueues(a, f.id, AcceptData(st, f.payload));
      SetStreamQueues(a, f.id, AddCredit(st, Amount(f.payload)));
      CloseStreamQueues(cfg, a.s, f.id);
      SameQueues(a.s, a.s);
      match ApplyFrame(cfg, a, f, admit) {
        case Going(b) => FrugalKept(cfg, a.s, b.s, opens + Named([f], OPEN));
        case _ =>
      }
    }
  }

  lemma SetStreamQueues(a: Acc, id: nat, st: Stream)
    requires id in a.s.streams
    ensures QueuesNothing(a.s, SetStream(a, id, st).s)
  {
    SameQueues(a.s, SetStream(a, id, st).s);
  }

  lemma {:induction false} ApplyFrugal(cfg: Config, a: Acc, frames: seq<Frame>, admits: seq<bool>,
                                       opens: multiset<nat>)
    requires GoodConfig(cfg) && |admits| == |frames| && Frugal(cfg, a.s, opens)
    ensures match Apply(cfg, a, frames, admits)
      case Going(b) => Frugal(cfg, b.s, opens + Named(frames, OPEN))
      case Aborted(b) => Frugal(cfg, b.s, opens + Named(frames, OPEN))
      case NilStream => true
    decreases |frames|
  {
    hide Frugal, ApplyFrame, Named;
    if |frames| == 0 {
      FrugalGrows(cfg, a.s, opens, Named(frames, OPEN));
    } else {
      var f, rest := frames[0], frames[1..];
      assert frames == [f] + rest;
      NamedAppend([f], rest, OPEN);
      ApplyFrameFrugal(cfg, a, f, admits[0], opens);
      assert opens + Named([f], OPEN) + Named(rest, OPEN) == opens + Named(frames, OPEN);
      match ApplyFrame(cfg, a, f, admits[0])
      case Going(b) => ApplyFrugal(cfg, b, rest, admits[1..], opens + Named([f], OPEN));
      case Aborted(b) => FrugalGrows(cfg, b.s, opens + Named([f], OPEN), Named(rest, OPEN));
      case NilStream =>
    }
  }

  /** The ids a batch opens, if it was applied, whole or halfway. */
  function Taken(frames: seq<Frame>, answer: UpAnswer): multiset<nat> {
    if answer.Acked? || answer.Aborted? then Named(frames, OPEN) else multiset{}
  }

  lemma SetUpQueues(s: State, k: nat, up: Up)
    ensures QueuesNothing(s, SetUp(s, k, up))
  {
  }

  lemma ReceiveFrugal(cfg: Config, s: State, k: nat, sequence: nat, body: Bytes, frames: seq<Frame>,
                      admits: seq<bool>, opens: multiset<nat>)
    requires GoodConfig(cfg) && |admits| == |frames| && Frugal(cfg, s, opens)
    ensures var (t, answer) := Receive(cfg, s, k, sequence, body, frames, admits);
      Frugal(cfg, t, opens + Taken(frames, answer))
  {
    hide Frugal, Apply, Validate, Reservation, Release, SetUp, Named, QueuesNothing, SessionAdmits, PoolAdmits;
    PlusNone(opens);
    SameQueues(s, s.(panicked := true));
    FrugalKept(cfg, s, s.(panicked := true), opens);
    if Validate(TrialOf(s), frames).Some? && Reserved(cfg, s, frames).Some? {
      var a := Reserved(cfg, s, frames).value;
      SameQueues(s, a.s);
      FrugalKept(cfg, s, a.s, opens);
      ApplyFrugal(cfg, a, frames, admits, opens);
      match Apply(cfg, a, frames, admits)
      case NilStream =>
      case Aborted(b) => ReleaseFrugal(cfg, b.s, b.left, opens + Named(frames, OPEN));
      case Going(b) =>
        var settled := Release(b.s, b.left);
        ReleaseFrugal(cfg, b.s, b.left, opens + Named(frames, OPEN));
        var up := if k in settled.lanes then Commit(settled.lanes[k].up, sequence, body, true) else NEW_UP;
        SetUpQueues(settled, k, up);
        FrugalKept(cfg, settled, SetUp(settled, k, up), opens + Named(frames, OPEN));
    }
  }

  lemma PlusNone(opens: multiset<nat>)
    ensures opens + multiset{} == opens
  {
  }

  lemma ReleaseFrugal(cfg: Config, s: State, c: Charge, opens: multiset<nat>)
    requires Frugal(cfg, s, opens)
    ensures Frugal(cfg, Release(s, c), opens)
  {
    hide Frugal, QueuesNothing;
    ReleaseShape(s, c);
    SameQueues(s, Release(s, c));
    FrugalKept(cfg, s, Release(s, c), opens);
  }

  /** Whether the lane's exchange lets this body through to be applied. */
  predicate LaneBegins(s: State, k: nat, sequence: nat, body: Bytes) {
    k in s.lanes ==> Admit(s.lanes[k].up, sequence, body).Begin?
  }

  /** The ids of the OPEN frames a step puts into effect. */
  function Opening(cfg: Config, s: State, e: Event): multiset<nat>
    requires GoodConfig(cfg)
  {
    match e
    case Finish(sequence, body, admits) =>
      if cfg.UsesLanes() || Readable(cfg, body).None? then multiset{}
      else Taken(Readable(cfg, body).value, UpFinishes(cfg, s, sequence, body, admits).1)
    case UpLane(k, sequence, body, admits) =>
      if !cfg.UsesLanes() || k > MAX_STREAM_ID || Readable(cfg, body).None? || !LaneBegins(s, k, sequence, body) then
        multiset{}
      else Taken(Readable(cfg, body).value, UpOnLane(cfg, s, k, sequence, body, admits).1)
    case _ => multiset{}
  }

  lemma FinishesFrugal(cfg: Config, s: State, sequence: nat, body: Bytes, admits: seq<bool>, opens: multiset<nat>)
    requires GoodConfig(cfg) && Frugal(cfg, s, opens)
    ensures var (t, answer) := UpFinishes(cfg, s, sequence, body, admits);
      Frugal(cfg, t, opens + if Readable(cfg, body).Some? then Taken(Readable(cfg, body).value, answer) else multiset{})
  {
    hide Frugal, Readable, Receive, SetUp, Taken, QueuesNothing;
    PlusNone(opens);
    var up := if 0 in s.lanes then s.lanes[0].up.(active := false) else NEW_UP;
    SetUpQueues(s, 0, up);
    FrugalKept(cfg, s, AfterParse(s), opens);
    if Readable(cfg, body).Some? {
      var frames := Readable(cfg, body).value;
      if !s.closed && |admits| == |frames| {
        ReceiveFrugal(cfg, AfterParse(s), 0, sequence, body, frames, admits, opens);
      } else {
        FrugalGrows(cfg, AfterParse(s), opens, Taken(frames, UpFinishes(cfg, s, sequence, body, admits).1));
      }
    }
  }

  lemma AddLaneQueues(s: State, k: nat)
    requires k !in s.lanes
    ensures QueuesNothing(s, AddLane(s, k))
  {
  }

  lemma OpenLaneFrugal(cfg: Config, s: State, k: nat, sequence: nat, body: Bytes, frames: seq<Frame>,
                       admits: seq<bool>, opens: multiset<nat>)
    requires GoodConfig(cfg) && |admits| == |frames| && k in s.lanes && Frugal(cfg, s, opens)
    ensures var (t, answer) := UpOnOpenLane(cfg, s, k, sequence, body, frames, admits);
      && Frugal(cfg, t, opens + Taken(frames, answer))
      && (!Admit(s.lanes[k].up, sequence, body).Begin? ==> Frugal(cfg, t, opens))
  {
    hide Frugal, Receive, Taken;
    if Admit(s.lanes[k].up, sequence, body).Begin? {
      ReceiveFrugal(cfg, s, k, sequence, body, frames, admits, opens);
    } else {
      FrugalGrows(cfg, s, opens, Taken(frames, UpOnOpenLane(cfg, s, k, sequence, body, frames, admits).1));
    }
  }

  lemma UpOnLaneFrugal(cfg: Config, s: State, k: nat, sequence: nat, body: Bytes, admits: seq<bool>,
                       opens: multiset<nat>)
    requires GoodConfig(cfg) && Frugal(cfg, s, opens)
    ensures var (t, answer) := UpOnLane(cfg, s, k, sequence, body, admits);
      Frugal(cfg, t, opens + if Readable(cfg, body).None? || !LaneBegins(s, k, sequence, body) then multiset{}
                             else Taken(Readable(cfg, body).value, answer))
  {
    hide Frugal, Readable, UpOnOpenLane, AddLane, OnlyLate, AllOn, Taken, QueuesNothing;
    PlusNone(opens);
    var (t, answer) := UpOnLane(cfg, s, k, sequence, body, admits);
    if Readable(cfg, body).Some? {
      var frames := Readable(cfg, body).value;
      FrugalGrows(cfg, s, opens, Taken(frames, answer));
      if !s.closed && AllOn(frames, k) && |admits| == |frames| {
        if k in s.lanes {
          OpenLaneFrugal(cfg, s, k, sequence, body, frames, admits, opens);
        } else {
          var s1 := AddLane(s, k);
          AddLaneShape(s, k);
          AddLaneQueues(s, k);
          FrugalKept(cfg, s, s1, opens);
          OpenLaneFrugal(cfg, s1, k, sequence, body, frames, admits, opens);
        }
      }
    }
  }

  // Every critical section.

  lemma EnterFewer(d: Down, poll: PollId, batchBytes: int, laneOver: bool)
    ensures Fewer(d, Enter(d, poll, batchBytes, laneOver).0)
  {
    var n := TakeCount(d.queue, batchBytes);
    assert d.queue == [] ==> d.queue[..n] == [];
  }

  lemma ResumeFewer(d: Down, poll: PollId, why: Wake, batchBytes: int, closed: bool, laneOver: bool)
    ensures Fewer(d, Resume(d, poll, why, batchBytes, closed, laneOver).0)
  {
    var n := TakeCount(d.queue, batchBytes);
  }

  lemma SetDownQueues(s: State, c: Charge, k: nat, d: Down)
    requires k in s.lanes && Fewer(s.lanes[k].down, d)
    ensures QueuesNothing(s, Acknowledging(s, c, k, d)) && QueuesNothing(s, SetDown(s, k, d))
  {
    hide Fewer;
    ReleaseShape(s, c);
    hide Release;
    assert forall j | j in s.lanes :: Fewer(s.lanes[j].down, s.lanes[j].down) by {
      forall j | j in s.lanes
        ensures Fewer(s.lanes[j].down, s.lanes[j].down)
      {
        SameFewer(s.lanes[j].down);
      }
    }
  }

  lemma SameFewer(d: Down)
    ensures Fewer(d, d)
  {
  }

  lemma PollQueues(cfg: Config, s: State, k: nat, poll: PollId)
    ensures QueuesNothing(s, SessionSteps.PollArrives(cfg, s, k, poll).0)
  {
    hide Enter, Fewer, QueuesNothing, Release, ChargeOf, Acknowledged, LaneOver;
    SameQueues(s, s);
    if !s.closed && k in s.lanes {
      var d := s.lanes[k].down;
      EnterFewer(d, poll, cfg.limits.carrierBatchBytes, LaneOver(cfg, s, k));
      SetDownQueues(s, ChargeOf(Acknowledged(d, poll.cursor)), k,
                    Enter(d, poll, cfg.limits.carrierBatchBytes, LaneOver(cfg, s, k)).0);
    }
  }

  lemma WakeQueues(cfg: Config, s: State, k: nat, birth: int, poll: PollId, why: Wake)
    ensures QueuesNothing(s, SessionSteps.PollWakes(cfg, s, k, birth, poll, why).0)
  {
    hide Resume, Fewer, QueuesNothing, LaneOver, Release;
    SameQueues(s, s);
    if k in s.lanes && s.lanes[k].birth == birth {
      var d := s.lanes[k].down;
      ResumeFewer(d, poll, why, cfg.limits.carrierBatchBytes, s.closed, LaneOver(cfg, s, k));
      SetDownQueues(s, NOTHING, k, Resume(d, poll, why, cfg.limits.carrierBatchBytes, s.closed, LaneOver(cfg, s, k)).0);
    }
  }

  lemma DrainedFrugal(cfg: Config, s: State, id: nat, amount: int, opens: multiset<nat>)
    requires GoodConfig(cfg) && Frugal(cfg, s, opens)
    requires CreditSmall(BackendDrained(cfg, s, id, amount).0)
    ensures Frugal(cfg, BackendDrained(cfg, s, id, amount).0, opens)
  {
    hide Frugal, Drain, Release, QueueFrame, PutUint32, QueuesNothing, CreditSmall;
    if !s.closed && id in s.streams && Drain(s.streams[id], amount).Some? {
      var drained := Release(s, Charge(amount, 0)).(streams := s.streams[id := Drain(s.streams[id], amount).value]);
      ReleaseShape(s, Charge(amount, 0));
      SameQueues(s, drained);
      FrugalKept(cfg, s, drained, opens);
      var f := Frame(WINDOW, id, WindowPayload(amount % TWO_32));
      LiveIsOpened(cfg, s, id, opens);
      QueueFrameFrugal(cfg, drained, f, opens);
    }
  }

  lemma LiveIsOpened(cfg: Config, s: State, id: nat, opens: multiset<nat>)
    requires Frugal(cfg, s, opens) && id in s.streams
    ensures id in opens
  {
    hide Tidy, Closes;
    assert ClosesOf(cfg, s, id) <= opens[id];
  }

  lemma ReadDataFrugal(cfg: Config, s: State, id: nat, data: Bytes, opens: multiset<nat>)
    requires GoodConfig(cfg) && Frugal(cfg, s, opens)
    ensures Frugal(cfg, BackendData(cfg, s, id, data).0, opens)
  {
    hide Frugal, QueueFrame, SpendCredit, QueuesNothing;
    if !s.closed && id in s.streams {
      var spent := s.(streams := s.streams[id := SpendCredit(s.streams[id], |data|)]);
      SameQueues(s, spent);
      FrugalKept(cfg, s, spent, opens);
      QueueFrameFrugal(cfg, spent, Frame(DATA, id, data), opens);
    }
  }

  lemma BackendClosedFrugal(cfg: Config, s: State, id: nat, backend: int, opens: multiset<nat>)
    requires GoodConfig(cfg) && Frugal(cfg, s, opens)
    ensures Frugal(cfg, BackendClosed(cfg, s, id, backend), opens)
  {
    hide Frugal, QueueFrame, CloseStream, CloseSession, QueuesNothing, ClosesOf;
    if !s.closed && id in s.streams {
      var gone := CloseStream(cfg, s, id);
      CloseStreamQueues(cfg, s, id);
      FrugalKept(cfg, s, gone, opens);
      LiveIsOpened(cfg, s, id, opens);
      assert ClosesOf(cfg, s, id) <= opens[id] by {
        ClosesWithin(cfg, s, id, opens);
      }
      QueueFrameFrugal(cfg, gone, Frame(CLOSE, id, []), opens);
      CloseSessionQueues(gone);
      FrugalKept(cfg, gone, CloseSession(gone), opens);
    }
  }

  lemma ClosesWithin(cfg: Config, s: State, id: nat, opens: multiset<nat>)
    requires Frugal(cfg, s, opens)
    ensures ClosesOf(cfg, s, id) <= opens[id]
  {
    hide Tidy, ClosesOf;
  }

  lemma LaneReleasedFrugal(cfg: Config, s: State, k: nat, opens: multiset<nat>)
    requires GoodConfig(cfg) && Frugal(cfg, s, opens)
    ensures Frugal(cfg, LaneReleased(cfg, s, k), opens)
  {
    hide Frugal, CloseStream, DropLane, QueuesNothing;
    if k in s.streams {
      CloseStreamQueues(cfg, s, k);
      FrugalKept(cfg, s, CloseStream(cfg, s, k), opens);
      DropLaneQueues(CloseStream(cfg, s, k), k);
      FrugalKept(cfg, CloseStream(cfg, s, k), DropLane(CloseStream(cfg, s, k), k), opens);
    } else {
      DropLaneQueues(s, k);
      FrugalKept(cfg, s, DropLane(s, k), opens);
    }
  }

  lemma LaneAcquiredQueues(cfg: Config, s: State, k: nat)
    ensures QueuesNothing(s, LaneAcquired(cfg, s, k).0)
  {
  }

  /** A step opens what Opening says and keeps three frames a stream enough, while credit stays small. */
  lemma StepFrugal(cfg: Config, s: State, e: Event, opens: multiset<nat>)
    requires GoodConfig(cfg) && Frugal(cfg, s, opens)
    requires CreditSmall(SessionSteps.Step(cfg, s, e))
    ensures Frugal(cfg, SessionSteps.Step(cfg, s, e), opens + Opening(cfg, s, e))
  {
    hide Frugal, UpFinishes, UpOnLane, BackendDrained, BackendData, BackendClosed, LaneReleased, CreditSmall, Taken;
    hide QueuesNothing, LaneBegins, Readable;
    PlusNone(opens);
    match e {
      case Finish(sequence, body, admits) =>
        if !cfg.UsesLanes() {
          FinishesFrugal(cfg, s, sequence, body, admits, opens);
        }
      case UpLane(k, sequence, body, admits) =>
        if cfg.UsesLanes() {
          UpOnLaneFrugal(cfg, s, k, sequence, body, admits, opens);
        }
      case FailLane(k) =>
        LaneReleasedFrugal(cfg, s, k, opens);
        CloseSessionQueues(s);
        FrugalKept(cfg, s, CloseSession(s), opens);
      case Drained(id, amount) => DrainedFrugal(cfg, s, id, amount, opens);
      case ReadData(id, data) => ReadDataFrugal(cfg, s, id, data, opens);
      case BackendGone(id, backend) => BackendClosedFrugal(cfg, s, id, backend, opens);
      case ReleaseLane(k) => LaneReleasedFrugal(cfg, s, k, opens);
      case _ =>
        OtherQueues(cfg, s, e);
        FrugalKept(cfg, s, SessionSteps.Step(cfg, s, e), opens);
    }
  }

  lemma OtherQueues(cfg: Config, s: State, e: Event)
    requires GoodConfig(cfg) && !(e.Finish? || e.UpLane? || e.FailLane? || e.Drained? || e.ReadData?)
    requires !(e.BackendGone? || e.ReleaseLane?)
    ensures QueuesNothing(s, SessionSteps.Step(cfg, s, e))
  {
    hide QueuesNothing, SetUp, SessionSteps.PollArrives, SessionSteps.PollWakes, LaneAcquired, CloseSession;
    hide FinishWrite, Release;
    SameQueues(s, s);
    match e
    case Begin(sequence, body) =>
      if 0 in s.lanes {
        SetUpQueues(s, 0, s.lanes[0].up.(active := true));
      }
    case Arrive(k, poll) => PollQueues(cfg, s, k, poll);
    case Wake(k, birth, poll, why) => WakeQueues(cfg, s, k, birth, poll, why);
    case AcquireLane(k) => LaneAcquiredQueues(cfg, s, k);
    case CloseAll => CloseSessionQueues(s);
    case WriteFinished(id) =>
      ReleaseShape(s, Charge(QUEUE_ITEM_COST, 1));
      SameQueues(s, SessionSteps.Step(cfg, s, e));
    case TakeWrite(id) => SameQueues(s, SessionSteps.Step(cfg, s, e));
    case AcquireSocket => SameQueues(s, SessionSteps.Step(cfg, s, e));
    case OthersMovePool(pool) => SameQueues(s, SessionSteps.Step(cfg, s, e));
    case _ =>
  }

  // What a frugal session's control frames are charged.

  lemma {:induction false} NamedFrom(q: seq<Frame>, id: nat, kind: Byte) returns (i: nat)
    requires id in Named(q, kind)
    ensures i < |q| && q[i].kind == kind && q[i].id == id
  {
    if q[|q| - 1].kind == kind && q[|q| - 1].id == id {
      i := |q| - 1;
    } else {
      i := NamedFrom(q[..|q| - 1], id, kind);
    }
  }

  lemma {:induction false} ControlIsNamed(cfg: Config, k: nat, q: seq<Frame>, opens: multiset<nat>)
    requires AllDue(cfg, k, q, opens)
    ensures ControlItems(q) == |Named(q, WINDOW)| + |Named(q, CLOSE)|
    ensures ControlCost(q) <= CONTROL_ITEM_COST * ControlItems(q)
  {
    if q != [] {
      assert Due(cfg, k, q[|q| - 1], opens);
      LastIsNamed(q, cfg, k, opens);
      hide Due;
      ControlIsNamed(cfg, k, q[..|q| - 1], opens);
      hide ControlItems, ControlCost, Named;
    }
  }

  /** What the last frame adds to the items, the cost and the names. */
  lemma LastIsNamed(q: seq<Frame>, cfg: Config, k: nat, opens: multiset<nat>)
    requires q != [] && Due(cfg, k, q[|q| - 1], opens)
    ensures var init, n := q[..|q| - 1], if q[|q| - 1].kind == DATA then 0 else 1;
      && ControlItems(q) == ControlItems(init) + n
      && ControlCost(q) <= ControlCost(init) + CONTROL_ITEM_COST * n
      && |Named(q, WINDOW)| + |Named(q, CLOSE)| == |Named(init, WINDOW)| + |Named(init, CLOSE)| + n
  {
  }

  /** The part of the ids opened whose frames carrier `k` takes. */
  function Part(cfg: Config, k: nat, opens: multiset<nat>): multiset<nat> {
    if cfg.UsesLanes() then multiset{}[k := opens[k]] else if k == 0 then opens else multiset{}
  }

  lemma SubSize(a: multiset<nat>, b: multiset<nat>)
    requires a <= b
    ensures |a| <= |b|
  {
    assert b == a + (b - a);
  }

  lemma NamedInPart(cfg: Config, k: nat, q: seq<Frame>, kind: Byte, opens: multiset<nat>)
    requires AllDue(cfg, k, q, opens) && (kind == WINDOW || kind == CLOSE)
    ensures forall id: nat | id in Named(q, kind) :: id in opens && Part(cfg, k, opens)[id] == opens[id]
  {
    hide Named;
    forall id: nat | id in Named(q, kind)
      ensures id in opens && Part(cfg, k, opens)[id] == opens[id]
    {
      var i := NamedFrom(q, id, kind);
      assert Due(cfg, k, q[i], opens);
    }
  }

  function ThreeOf(n: nat): Charge {
    Charge(CONTROL_ITEM_COST * (3 * n), 3 * n)
  }

  lemma WindowsInPart(cfg: Config, k: nat, q: seq<Frame>, opens: multiset<nat>)
    requires AllDue(cfg, k, q, opens) && OneWindowEach(q)
    ensures |Named(q, WINDOW)| <= |Part(cfg, k, opens)|
  {
    NamedInPart(cfg, k, q, WINDOW, opens);
    hide Named, Due, Part, AllDue;
    assert Named(q, WINDOW) <= Part(cfg, k, opens);
    SubSize(Named(q, WINDOW), Part(cfg, k, opens));
  }

  lemma LaneWithinPart(cfg: Config, s: State, k: nat, opens: multiset<nat>)
    requires Frugal(cfg, s, opens) && k in s.lanes
    ensures LaneControl(s.lanes[k]).Within(ThreeOf(|Part(cfg, k, opens)|))
  {
    LaneOfFrugal(cfg, s, k, opens);
    hide Frugal, AllDue, OneWindowEach, Named, Part, ControlItems, ControlCost, ThreeOf;
    var d := s.lanes[k].down;
    ControlIsNamed(cfg, k, d.queue, opens);
    ControlIsNamed(cfg, k, d.unacked, opens);
    WindowsInPart(cfg, k, d.queue, opens);
    WindowsInPart(cfg, k, d.unacked, opens);
    ClosesInPart(cfg, s, k, opens);
    SubSize(Named(d.queue, CLOSE) + Named(d.unacked, CLOSE), Part(cfg, k, opens));
    ThreeEach(ControlOf(d.queue), ControlOf(d.unacked), |Named(d.queue, WINDOW)|, |Named(d.unacked, WINDOW)|,
              |Named(d.queue, CLOSE)|, |Named(d.unacked, CLOSE)|, |Part(cfg, k, opens)|);
  }

  lemma ThreeEach(a: Charge, b: Charge, w: nat, x: nat, c: nat, d: nat, n: nat)
    requires a.items == w + c && b.items == x + d && w <= n && x <= n && c + d <= n
    requires a.cost <= CONTROL_ITEM_COST * a.items && b.cost <= CONTROL_ITEM_COST * b.items
    ensures a.Plus(b).Within(ThreeOf(n))
  {
  }

  lemma ClosesInPart(cfg: Config, s: State, k: nat, opens: multiset<nat>)
    requires Frugal(cfg, s, opens) && k in s.lanes
    ensures Named(s.lanes[k].down.queue, CLOSE) + Named(s.lanes[k].down.unacked, CLOSE) <= Part(cfg, k, opens)
  {
    LaneOfFrugal(cfg, s, k, opens);
    hide Named;
    var d := s.lanes[k].down;
    forall id: nat
      ensures Closes(d, id) <= Part(cfg, k, opens)[id]
    {
      if id in Named(d.queue, CLOSE) {
        CloseInPart(cfg, s, k, d.queue, id, opens);
      } else if id in Named(d.unacked, CLOSE) {
        CloseInPart(cfg, s, k, d.unacked, id, opens);
      }
    }
  }

  lemma CloseInPart(cfg: Config, s: State, k: nat, q: seq<Frame>, id: nat, opens: multiset<nat>)
    requires Frugal(cfg, s, opens) && k in s.lanes && AllDue(cfg, k, q, opens) && id in Named(q, CLOSE)
    ensures Closes(s.lanes[k].down, id) <= Part(cfg, k, opens)[id]
  {
    hide Named, Tidy;
    var i := NamedFrom(q, id, CLOSE);
    assert Due(cfg, k, q[i], opens);
    assert ClosesOf(cfg, s, id) <= opens[id];
  }

  lemma PartsApart(cfg: Config, k: nat, opens: multiset<nat>)
    ensures var rest := opens - Part(cfg, k, opens);
      && |opens| == |Part(cfg, k, opens)| + |rest|
      && forall j: nat | j != k :: Part(cfg, j, rest) == Part(cfg, j, opens)
  {
    var part := Part(cfg, k, opens);
    assert part <= opens && opens == part + (opens - part);
  }

  lemma ThreeOfBoth(a: Charge, b: Charge, m: nat, n: nat)
    requires a.Within(ThreeOf(m)) && b.Within(ThreeOf(n))
    ensures a.Plus(b).Within(ThreeOf(m + n))
  {
  }

  lemma {:induction false} PartsWithin(cfg: Config, controls: map<nat, Charge>, opens: multiset<nat>)
    requires forall k | k in controls :: controls[k].Within(ThreeOf(|Part(cfg, k, opens)|))
    ensures Sum(controls).Within(ThreeOf(|opens|))
    decreases |controls|
  {
    hide Sum, Part, ThreeOf, Charge.Within, Charge.Plus;
    if |controls| == 0 {
      SumOfNothing(controls);
      NothingWithin(|opens|);
    } else {
      var k := Pick(controls);
      var rest := opens - Part(cfg, k, opens);
      PartsApart(cfg, k, opens);
      PartsWithin(cfg, controls - {k}, rest);
      SumRemove(controls, k);
      ThreeOfBoth(controls[k], Sum(controls - {k}), |Part(cfg, k, opens)|, |rest|);
    }
  }

  lemma NothingWithin(n: nat)
    ensures NOTHING.Within(ThreeOf(n))
  {
  }

  /** Three frames for every OPEN that took effect are all the control frames there can be. */
  lemma FrugalWithin(cfg: Config, s: State, opens: multiset<nat>)
    requires Frugal(cfg, s, opens)
    ensures ControlCharged(s).Within(ThreeOf(|opens|))
  {
    hide LaneControl, Part, Frugal, Sum;
    forall k | k in s.lanes
      ensures LaneControl(s.lanes[k]).Within(ThreeOf(|Part(cfg, k, opens)|))
    {
      LaneWithinPart(cfg, s, k, opens);
    }
    PartsWithin(cfg, LaneControls(s.lanes), opens);
  }

  // Runs of the whole relay.

  /** The ids session `i` has opened since it joined, one for each OPEN frame that took effect. */
  ghost function OpenedBy(global: Limits, events: seq<SystemEvent>, i: nat): multiset<nat>
    requires Sane(global)
  {
    if events == [] then multiset{}
    else
      var sys, last := RunAll(global, events[..|events| - 1]), events[|events| - 1];
      var before := OpenedBy(global, events[..|events| - 1], i);
      match last
      case Joins(j, _) => if j == i && i !in sys.members then multiset{} else before
      case Acts(j, e) =>
        if j == i && i in sys.members && !e.OthersMovePool? then
          assert Issued(global, sys.members[i].cfg);
          before + Opening(sys.members[i].cfg, At(sys, i), e)
        else before
      case Leaves(_) => before
  }

  /** Credit queued for session `i`'s client stays below 4 GiB a stream; a client that takes it up never gets near. */
  ghost predicate CreditStaysSmall(global: Limits, events: seq<SystemEvent>, i: nat)
    requires Sane(global)
  {
    (events != [] ==> CreditStaysSmall(global, events[..|events| - 1], i))
    && (i in RunAll(global, events).members ==> CreditSmall(RunAll(global, events).members[i].s))
  }

  lemma NewIsFrugal(cfg: Config, pool: Charge, opens: multiset<nat>)
    ensures Frugal(cfg, NewSession(cfg, pool), opens)
  {
  }

  lemma PoolAside(cfg: Config, s: State, t: State, opens: multiset<nat>)
    requires Frugal(cfg, s, opens) && t.lanes == s.lanes && t.streams == s.streams
    ensures Frugal(cfg, t, opens)
  {
    hide Tidy, Closes;
    assert forall id: nat :: ClosesOf(cfg, t, id) == ClosesOf(cfg, s, id);
  }

  lemma {:induction false} RunsAreFrugal(global: Limits, events: seq<SystemEvent>, i: nat)
    requires Sane(global) && CreditStaysSmall(global, events, i)
    ensures var sys := RunAll(global, events);
      i in sys.members ==> Frugal(sys.members[i].cfg, sys.members[i].s, OpenedBy(global, events, i))
  {
    hide Frugal, CreditSmall, SessionSteps.Step, Opening, Issued, NewSession;
    if |events| > 0 {
      var sys := RunAll(global, events[..|events| - 1]);
      RunsAreFrugal(global, events[..|events| - 1], i);
      match events[|events| - 1]
      case Joins(j, cfg) =>
        if j == i && i !in sys.members {
          NewIsFrugal(cfg, sys.pool, multiset{});
        }
      case Acts(j, e) =>
        if j == i && i in sys.members && !e.OthersMovePool? {
          var before := OpenedBy(global, events[..|events| - 1], i);
          IssuedMeans(global, sys.members[i].cfg);
          PoolAside(sys.members[i].cfg, sys.members[i].s, At(sys, i), before);
          StepFrugal(sys.members[i].cfg, At(sys, i), e, before);
        }
      case Leaves(_) =>
    }
  }

  /** One more control frame, too, while no more than five OPENs above the stream limit took effect. */
  lemma FiveMoreFit(l: Limits, opens: nat, control: Charge, want: Charge)
    requires Sane(l) && Unsaturated(l) && opens <= l.maxStreamsPerSession + 5
    requires control.Within(ThreeOf(opens)) && want.Within(Charge(CONTROL_ITEM_COST, 1))
    ensures control.Plus(want).Within(ControlReserve(l))
  {
  }

  /** A session that has opened at most MaxStreamsPerSession + 5 streams keeps within its reserve. */
  lemma FewOpensKeepReserves(global: Limits, events: seq<SystemEvent>, i: nat, want: Charge)
    requires Sane(global) && Unsaturated(global)
    requires NOTHING.Within(want) && want.Within(Charge(CONTROL_ITEM_COST, 1))
    requires forall j | j in RunAll(global, events).members ::
      CreditStaysSmall(global, events, j) && |OpenedBy(global, events, j)| <= global.maxStreamsPerSession + 5
    ensures ControlWithinReserves(global, RunAll(global, events), i, want)
  {
    hide Frugal, RunAll, CreditStaysSmall, OpenedBy, ControlCharged, ControlReserve, Unsaturated;
    var sys := RunAll(global, events);
    forall j | j in sys.members
      ensures ControlCharged(sys.members[j].s).Plus(if j == i then want else NOTHING).Within(ControlReserve(global))
    {
      RunsAreFrugal(global, events, j);
      FrugalWithin(sys.members[j].cfg, sys.members[j].s, OpenedBy(global, events, j));
      FiveMoreFit(global, |OpenedBy(global, events, j)|, ControlCharged(sys.members[j].s),
                  if j == i then want else NOTHING);
    }
  }

  /**
   * In every run of the whole relay in which no session has had more than MaxStreamsPerSession + 5 OPEN
   * frames take effect, admitted or refused, and queued credit stays small: the next control frame of a
   * session is never refused by the pool.
   */
  lemma FewOpensNeverRefuseControl(global: Limits, events: seq<SystemEvent>, i: nat, want: Charge)
    requires Sane(global) && ValidateBudget(global) && NoneCrashes(global, events) && Unsaturated(global)
    requires i in RunAll(global, events).members
    requires NOTHING.Within(want) && want.Within(Charge(CONTROL_ITEM_COST, 1))
    requires forall j | j in RunAll(global, events).members ::
      CreditStaysSmall(global, events, j) && |OpenedBy(global, events, j)| <= global.maxStreamsPerSession + 5
    ensures PoolAdmits(global, RunAll(global, events).pool, want, Control)
  {
    hide *;
    FewOpensKeepReserves(global, events, i, want);
    ControlIsNeverRefused(global, events, i, want);
  }

  /** Nor by the session, with its own stream limit in the same place: the frame is queued. */
  lemma FewOpensQueueControl(global: Limits, events: seq<SystemEvent>, i: nat, f: Frame)
    requires Sane(global) && ValidateBudget(global) && NoneCrashes(global, events) && Unsaturated(global)
    requires PushClass(f) == Control && |f.payload| <= 4
    requires var sys := RunAll(global, events);
      && i in sys.members && sys.members[i].cfg.LaneOf(f.id) in sys.members[i].s.lanes
      && var own := sys.members[i].cfg.limits;
         && Sane(own) && Unsaturated(own) && ControlReserve(own).Within(SessionCap(own))
         && |OpenedBy(global, events, i)| <= own.maxStreamsPerSession + 5
    requires forall j | j in RunAll(global, events).members ::
      CreditStaysSmall(global, events, j) && |OpenedBy(global, events, j)| <= global.maxStreamsPerSession + 5
    ensures var sys := RunAll(global, events);
      GoodConfig(sys.members[i].cfg) && QueueFrame(sys.members[i].cfg, At(sys, i), f).Some?
  {
    hide *;
    var sys, want := RunAll(global, events), Charge(FrameCost(f), 1);
    IssuedMeans(global, sys.members[i].cfg);
    SmallFrame(f);
    FewOpensKeepReserves(global, events, i, want);
    RunsAreFrugal(global, events, i);
    FrugalWithin(sys.members[i].cfg, sys.members[i].s, OpenedBy(global, events, i));
    FiveMoreFit(sys.members[i].cfg.limits, |OpenedBy(global, events, i)|, ControlCharged(sys.members[i].s), want);
    ControlFrameIsQueued(global, events, i, f);
  }

  lemma SmallFrame(f: Frame)
    requires |f.payload| <= 4
    ensures NOTHING.Within(Charge(FrameCost(f), 1)) && Charge(FrameCost(f), 1).Within(Charge(CONTROL_ITEM_COST, 1))
  {
  }
}

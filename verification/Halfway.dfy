/**
 * A body applied halfway and then again: a run of the whole relay, with a ring of one tombstone, in
 * which the tombstone that should refuse the bridge's retry is evicted before the session closes.
 */
module Halfway {
  import opened Octets
  import opened Outcomes
  import opened Frames
  import opened Limits
  import opened Queue
  import opened Streams
  import opened Tombstones
  import opened Poll
  import opened Uplink
  import opened SessionState
  import opened Batch
  import opened BatchLaws
  import opened SessionSteps
  import opened Witness
  import OneCarrier
  import Tales
  import UplinkRun
  import DownlinkRun
  import RelayWorld

  // A run of refused OPENs.

  function Opens(first: nat, n: nat): (fs: seq<Frame>)
    ensures |fs| == n && forall i | 0 <= i < n :: fs[i] == Open(first + i)
    decreases n
  {
    if n == 0 then [] else [Open(first)] + Opens(first + 1, n - 1)
  }

  function Closes(first: nat, n: nat): (fs: seq<Frame>)
    ensures |fs| == n && forall i | 0 <= i < n :: fs[i] == Close(first + i)
    decreases n
  {
    if n == 0 then [] else [Close(first)] + Closes(first + 1, n - 1)
  }

  function Nos(n: nat): (ds: seq<bool>)
    ensures |ds| == n
    decreases n
  {
    if n == 0 then [] else [false] + Nos(n - 1)
  }

  /** What `n` refused OPENs leave of a session that had room for `n` CLOSE frames. */
  function Refused(s: State, first: nat, n: nat): State
    requires 0 in s.lanes
  {
    var c := Charge(264 * n, n);
    s.(tombs := if n == 0 then s.tombs else [first + n - 1], pending := s.pending.Plus(c), pool := s.pool.Plus(c),
       lanes := s.lanes[0 := s.lanes[0].(down := s.lanes[0].down.(queue := s.lanes[0].down.queue + Closes(first, n)))])
  }

  predicate Refusable(s: State, first: nat) {
    && 0 in s.lanes && s.pool == s.pending && 0 <= s.pending.cost && 0 <= s.pending.items <= 24
    && s.pending.cost <= 10000 + 264 * s.pending.items
    && |s.tombs| <= 1 && (forall id | id in s.tombs :: id < first)
  }

  lemma RefusesOne(a: Acc, first: nat)
    requires GoodConfig(CFG) && Refusable(a.s, first) && 0 < first
    ensures var c, remembered := Charge(264, 1), a.s.(tombs := [first]);
      ApplyFrame(CFG, a, Open(first), false) ==
        if a.s.pending.items < 24 then Going(a.(s := Refused(a.s, first, 1))) else Applied.Aborted(a.(s := remembered))
  {
    hide ControlReserve, Reserve;
    var remembered := a.s.(tombs := [first]);
    assert Remember(a.s.tombs, first, 1) == [first];
    assert RememberClosed(CFG, a.s, first) == remembered;
    TinyReserve(remembered, Charge(264, 1));
    assert Closes(first, 1) == [Close(first)];
  }

  lemma RefusedTwice(s: State, first: nat, n: nat)
    requires 0 in s.lanes
    ensures Refused(Refused(s, first, 1), first + 1, n) == Refused(s, first, n + 1)
  {
    var q := s.lanes[0].down.queue;
    assert Closes(first, 1) == [Close(first)];
    assert (q + Closes(first, 1)) + Closes(first + 1, n) == q + Closes(first, n + 1);
  }

  lemma RefusedNone(s: State, first: nat)
    requires 0 in s.lanes
    ensures Refused(s, first, 0) == s
  {
    assert s.lanes[0].down.queue + Closes(first, 0) == s.lanes[0].down.queue;
  }

  /** As many are refused as the session has room for CLOSE frames; the next one stops the batch. */
  lemma {:induction false} RefusesAll(a: Acc, first: nat, n: nat)
    requires GoodConfig(CFG) && Refusable(a.s, first) && 0 < first
    ensures var room := 24 - a.s.pending.items;
      Apply(CFG, a, Opens(first, n), Nos(n)) ==
        if n <= room then Going(a.(s := Refused(a.s, first, n)))
        else Applied.Aborted(a.(s := Refused(a.s, first, room).(tombs := [first + room])))
    decreases n
  {
    hide ApplyFrame, Refused;
    if n == 0 {
      RefusedNone(a.s, first);
    } else {
      var room := 24 - a.s.pending.items;
      HeadOfBatch(CFG, TrialOf(a.s), {}, a, Open(first), Opens(first + 1, n - 1), false, Nos(n - 1));
      RefusesOne(a, first);
      RefusedNone(a.s, first);
      if room > 0 {
        RefusedIsRefusable(a.s, first);
        RefusesAll(a.(s := Refused(a.s, first, 1)), first + 1, n - 1);
        RefusedTwice(a.s, first, n - 1);
        RefusedTwice(a.s, first, room - 1);
      }
    }
  }

  lemma RefusedIsRefusable(s: State, first: nat)
    requires Refusable(s, first) && s.pending.items < 24
    ensures Refusable(Refused(s, first, 1), first + 1)
    ensures Refused(s, first, 1).pending.items == s.pending.items + 1
  {
  }

  /** New ids are valid to open, and reserve nothing. */
  lemma {:induction false} OpensValidate(t: Trial, live: set<nat>, a: Acc, first: nat, n: nat)
    requires GoodConfig(CFG) && 0 < first && forall id: nat | id >= first :: !KnownTo(t, id)
    ensures Validate(t, Opens(first, n)).Some? && Reservation(live, Opens(first, n)) == NOTHING
    decreases n
  {
    hide *;
    if n == 0 {
      EndOfBatch(CFG, t, live, a, Opens(first, n), Nos(n));
    } else {
      HeadOfBatch(CFG, t, live, a, Open(first), Opens(first + 1, n - 1), false, Nos(n - 1));
      OpensUnroll(first, n);
      OpenValidates(t, live, first);
      OpensValidate(ValidateFrame(t, Open(first)).value, LiveAfter(live, Open(first)), a, first + 1, n - 1);
      NothingPlus(NOTHING);
    }
  }

  lemma OpensUnroll(first: nat, n: nat)
    requires n > 0
    ensures Opens(first, n) == [Open(first)] + Opens(first + 1, n - 1) && Nos(n) == [false] + Nos(n - 1)
  {
  }

  lemma OpenValidates(t: Trial, live: set<nat>, first: nat)
    requires 0 < first && forall id: nat | id >= first :: !KnownTo(t, id)
    ensures ValidateFrame(t, Open(first)).Some? && ReserveFrame(live, Open(first)) == NOTHING
    ensures forall id: nat | id >= first + 1 :: !KnownTo(ValidateFrame(t, Open(first)).value, id)
  {
    assert !KnownTo(t, first);
    forall id: nat | id >= first + 1
      ensures !KnownTo(ValidateFrame(t, Open(first)).value, id)
    {
      assert !KnownTo(t, id);
    }
  }

  /** The body that is applied halfway: a byte for stream 1, then 23 OPENs the relay refuses. */
  function HalfBatch(): (fs: seq<Frame>)
    ensures |fs| == 24
  {
    [Data(1, 7)] + Opens(3, 23)
  }

  function HalfAdmits(): (ds: seq<bool>)
    ensures |ds| == 24
  {
    [true] + Nos(23)
  }

  /** A session with stream 1 live, one item pending, and room for 22 CLOSE frames beside the reservation. */
  predicate HalfReady(s: State) {
    && !s.closed && 0 in s.lanes && s.pool == s.pending == Charge(257, 1)
    && 1 in s.streams && s.streams[1].receiveWindow >= 1 && (forall id | id in s.streams :: id < 3)
    && |s.tombs| <= 1 && 1 !in s.tombs && (forall id | id in s.tombs :: id < 3)
  }

  function WithByte(s: State): State
    requires 1 in s.streams
  {
    s.(streams := s.streams[1 := AcceptData(s.streams[1], [7])], pending := Charge(514, 2), pool := Charge(514, 2))
  }

  function HalfStart(s: State): Acc {
    Acc(s.(pending := Charge(514, 2), pool := Charge(514, 2)), Charge(257, 1), [], [])
  }

  /** Where the batch stops: its byte in effect, 22 OPENs refused, and the last one's tombstone. */
  function HalfEnd(s: State): Acc
    requires HalfReady(s)
  {
    Acc(Refused(WithByte(s), 3, 22).(tombs := [25]), Charge(257, 1).Minus(AppendCharge(s.streams[1], [7])), [], [])
  }

  lemma HalfBatchReserved(s: State)
    requires GoodConfig(CFG) && HalfReady(s)
    ensures Validate(TrialOf(s), HalfBatch()).Some? && Reserved(CFG, s, HalfBatch()) == Some(HalfStart(s))
  {
    hide *;
    var f, t, live := Data(1, 7), TrialOf(s), s.streams.Keys;
    HalfBatchIs();
    HeadOfBatch(CFG, t, live, HalfStart(s), f, Opens(3, 23), true, Nos(23));
    DataIsValid(s);
    OpensValidate(ValidateFrame(t, f).value, LiveAfter(live, f), HalfStart(s), 3, 23);
    PlusNothing(Charge(257, 1));
    HalfReserves(s);
    ReservedIs(CFG, s, HalfBatch(), HalfStart(s));
  }

  lemma HalfBatchIs()
    ensures HalfBatch() == [Data(1, 7)] + Opens(3, 23) && HalfAdmits() == [true] + Nos(23)
    ensures Charge(257, 1) != NOTHING
  {
  }

  lemma HalfReserves(s: State)
    requires GoodConfig(CFG) && HalfReady(s)
    ensures Reserve(CFG, s, Charge(257, 1), Uplink) == Some(HalfStart(s).s)
    ensures HalfStart(s) == Acc(HalfStart(s).s, Charge(257, 1), [], [])
  {
    hide Reserve, ControlReserve;
    TinyReserve(s, Charge(257, 1));
  }

  lemma HalfBatchApplies(s: State)
    requires GoodConfig(CFG) && HalfReady(s)
    ensures Apply(CFG, HalfStart(s), HalfBatch(), HalfAdmits()) == Applied.Aborted(HalfEnd(s))
  {
    hide Validate, Reservation, Apply, ApplyFrame, Opens, Nos, ReserveFrame, ValidateFrame, LiveAfter, Refused;
    hide AcceptData, AppendCharge, Charge.Minus, Refusable;
    HeadOfBatch(CFG, TrialOf(s), {}, HalfStart(s), Data(1, 7), Opens(3, 23), true, Nos(23));
    DataApplies(s, HalfStart(s));
    RefusesAll(ApplyFrame(CFG, HalfStart(s), Data(1, 7), true).acc, 3, 23);
  }

  lemma DataIsValid(s: State)
    requires HalfReady(s)
    ensures ValidateFrame(TrialOf(s), Data(1, 7)).Some?
    ensures forall id: nat | id >= 3 :: !KnownTo(ValidateFrame(TrialOf(s), Data(1, 7)).value, id)
    ensures ReserveFrame(s.streams.Keys, Data(1, 7)) == Charge(257, 1)
  {
  }

  lemma DataApplies(s: State, a: Acc)
    requires GoodConfig(CFG) && HalfReady(s)
    requires a == Acc(s.(pending := Charge(514, 2), pool := Charge(514, 2)), Charge(257, 1), [], [])
    ensures ApplyFrame(CFG, a, Data(1, 7), true)
         == Going(Acc(WithByte(s), Charge(257, 1).Minus(AppendCharge(s.streams[1], [7])), [], []))
    ensures Refusable(WithByte(s), 3)
  {
    hide AcceptData, AppendCharge, Charge.Minus;
  }

  // The run.

  /** All the app ever sends: each frame once. */
  function App(): seq<Frame> {
    [Open(1)] + ([Open(2)] + ([Data(2, 9)] + HalfBatch()))
  }

  lemma AppFrame(i: nat)
    requires i < |App()|
    ensures |App()| == 27 && App()[i] == (
      if i == 0 then Open(1) else if i == 1 then Open(2) else if i == 2 then Data(2, 9) else if i == 3 then Data(1, 7)
      else Open(i - 1))
  {
  }

  lemma AppOpensOnce()
    ensures Tales.OpensOnce(App()) && AllFit(App(), MAX_PAYLOAD)
  {
    hide App;
    forall i | 0 <= i < |App()|
      ensures Fits(App()[i], MAX_PAYLOAD)
    {
      AppFrame(i);
    }
    forall i, j, id | 0 <= i < j < |App()|
      ensures !(Tales.IsOpenOf(App()[i], id) && Tales.IsOpenOf(App()[j], id))
    {
      AppFrame(i);
      AppFrame(j);
    }
  }

  lemma AppIsAllowed()
    ensures RelayWorld.Setting(CFG, NOTHING, App())
    ensures Tales.DataOf(App(), 1) == [7]
  {
    hide App, Tales.DataOf, ControlReserve, Tales.OpensOnce, AllFit;
    TinyIsGood();
    AppOpensOnce();
    AppData();
  }

  lemma AppData()
    ensures Tales.DataOf(App(), 1) == [7]
  {
    hide Opens;
    var head := [Open(1)] + ([Open(2)] + ([Data(2, 9)] + [Data(1, 7)]));
    assert App() == head + Opens(3, 23);
    OpensCarryNothing(head, 3, 23);
    assert head[..3][..2] == [Open(1), Open(2)] && head[..3][..2][..1] == [Open(1)] && [Open(1)][..0] == [];
    Tales.DataOfSnoc(head[..3], head[3], 1);
    Tales.DataOfSnoc([Open(1), Open(2)], head[2], 1);
    Tales.DataOfSnoc([Open(1)], head[1], 1);
    assert head == head[..3] + [head[3]] && head[..3] == [Open(1), Open(2)] + [head[2]];
    assert [Open(1), Open(2)] == [Open(1)] + [Open(2)];
  }

  lemma {:induction false} OpensCarryNothing(head: seq<Frame>, first: nat, n: nat)
    ensures Tales.DataOf(head + Opens(first, n), 1) == Tales.DataOf(head, 1)
    decreases n
  {
    if n == 0 {
      assert head + Opens(first, 0) == head;
    } else {
      assert head + Opens(first, n) == (head + [Open(first)]) + Opens(first + 1, n - 1);
      OpensCarryNothing(head + [Open(first)], first + 1, n - 1);
      Tales.DataOfSnoc(head, Open(first), 1);
      assert Tales.DataOf(head, 1) + [] == Tales.DataOf(head, 1);
    }
  }

  /** And the bridge: `k` bodies formed, all acknowledged, spelling `done`. */
  ghost predicate Waiting(app: seq<Frame>, n: UplinkRun.Net, k: nat, done: seq<Frame>, up: Up) {
    && AllFit(app, MAX_PAYLOAD) && AllFit(done, MAX_PAYLOAD)
    && !n.closed && n.workers == map[] && n.acked == k == |n.bodies| && n.up == up
    && Flatten(n.bodies) == EncodeAll(done) && n.source == EncodeAll(app)
    && up.lastSequence == k && !up.active
  }

  function NextRequest(k: nat, frames: seq<Frame>): UplinkRun.Request
    requires AllFit(frames, MAX_PAYLOAD)
  {
    UplinkRun.Request(k + 1, EncodeAll(frames))
  }

  /** The one handler between the locks holds the request. */
  function Handling(n: UplinkRun.Net, r: UplinkRun.Request): UplinkRun.Net {
    n.(bodies := n.bodies + [r.body], sent := n.sent + {r}, up := n.up.(active := true),
       workers := map[n.nextWorker := r], nextWorker := n.nextWorker + 1)
  }

  /** A body packed, sent, received and begun. */
  lemma Begins(app: seq<Frame>, n: UplinkRun.Net, k: nat, done: seq<Frame>, frames: seq<Frame>)
    requires Waiting(app, n, k, done, n.up) && AllFit(frames, MAX_PAYLOAD) && done + frames <= app
    ensures AllFit(done + frames, MAX_PAYLOAD)
    ensures var r := NextRequest(k, frames);
      var packed := UplinkRun.Step(n, UplinkRun.BridgePacks(r.body));
      var sent := UplinkRun.Step(packed, UplinkRun.BridgeSends);
      && r in sent.sent && UplinkRun.Arrive(sent, r) == Handling(n, r)
      && Flatten(Handling(n, r).bodies) == EncodeAll(done + frames)
  {
    hide EncodeAll, Flatten, Fits;
    var r := NextRequest(k, frames);
    assert AllFit(done + frames, MAX_PAYLOAD);
    EncodeAllAppend(done, frames);
    FlattenSnoc(n.bodies, r.body);
    EncodesPrefix(done + frames, app);
  }

  lemma EncodesPrefix(a: seq<Frame>, b: seq<Frame>)
    requires AllFit(a, MAX_PAYLOAD) && AllFit(b, MAX_PAYLOAD) && a <= b
    ensures EncodeAll(a) <= EncodeAll(b)
  {
    hide EncodeAll;
    var rest := b[|a|..];
    assert b == a + rest;
    forall i | 0 <= i < |rest|
      ensures Fits(rest[i], MAX_PAYLOAD)
    {
      assert rest[i] == b[|a| + i];
    }
    EncodeAllAppend(a, rest);
  }

  function Go(app: seq<Frame>, w: RelayWorld.World, e: RelayWorld.Event): RelayWorld.World
    requires GoodConfig(CFG) && AllFit(app, MAX_PAYLOAD)
  {
    RelayWorld.Step(CFG, app, w, e)
  }

  /** The bridge's next body on its way to the relay. */
  function Delivery(k: nat, frames: seq<Frame>): seq<RelayWorld.Event>
    requires AllFit(frames, MAX_PAYLOAD)
  {
    var r := NextRequest(k, frames);
    [RelayWorld.BridgeUp(UplinkRun.BridgePacks(r.body)), RelayWorld.BridgeUp(UplinkRun.BridgeSends),
     RelayWorld.UpArrives(r)]
  }

  function GoAll(app: seq<Frame>, w: RelayWorld.World, events: seq<RelayWorld.Event>): RelayWorld.World
    requires GoodConfig(CFG) && AllFit(app, MAX_PAYLOAD)
    decreases |events|
  {
    if events == [] then w else GoAll(app, Go(app, w, events[0]), events[1..])
  }

  /** The request begun, in session and protocol alike. */
  function BegunWith(w: RelayWorld.World, k: nat, frames: seq<Frame>): RelayWorld.World
    requires GoodConfig(CFG) && AllFit(frames, MAX_PAYLOAD)
  {
    var r := NextRequest(k, frames);
    w.(s := SessionSteps.Step(CFG, w.s, SessionSteps.Begin(k + 1, r.body)), up := Handling(w.up, r))
  }

  /** From a waiting bridge, its next body reaches the relay and is begun. */
  lemma WorldBegins(app: seq<Frame>, w: RelayWorld.World, k: nat, done: seq<Frame>, frames: seq<Frame>)
    requires GoodConfig(CFG) && AllFit(app, MAX_PAYLOAD) && AllFit(frames, MAX_PAYLOAD) && done + frames <= app
    requires Waiting(app, w.up, k, done, w.up.up)
    ensures AllFit(done + frames, MAX_PAYLOAD)
    ensures GoAll(app, w, Delivery(k, frames)) == BegunWith(w, k, frames)
    ensures Flatten(BegunWith(w, k, frames).up.bodies) == EncodeAll(done + frames)
  {
    hide EncodeAll, Flatten, Fits;
    var r, es := NextRequest(k, frames), Delivery(k, frames);
    Begins(app, w.up, k, done, frames);
    assert es[1..] == [es[1], es[2]] && es[1..][1..] == [es[2]] && es[1..][1..][1..] == [];
    var packed := Go(app, w, es[0]);
    var sent := Go(app, packed, es[1]);
    assert GoAll(app, w, es) == GoAll(app, packed, es[1..]) == GoAll(app, sent, es[1..][1..])
        == GoAll(app, Go(app, sent, es[2]), es[1..][1..][1..]);
  }

  /** A frame that neither loses a tombstone nor is refused. */
  predicate Smooth(s: State, f: Frame) {
    || (f.kind == OPEN && |s.streams| < 2)
    || (f.kind == DATA && f.id in s.streams)
  }

  /** One smooth frame is logged once and refused nothing. */
  lemma SmoothLogged(a: Acc, tales: map<nat, Tales.Tale>, f: Frame)
    requires GoodConfig(CFG) && Smooth(a.s, f)
    ensures Tales.Log(CFG, a, tales, [f], [true]) == Tales.LogFrame(CFG, a, tales, f, true)
    ensures OneCarrier.Refusals(CFG, a, [f], [true]) == []
  {
    hide ApplyFrame, Tales.LogFrame, QueueFrame, RememberClosed;
    assert [f][1..] == [] && [true][1..] == [];
    var next := Tales.LogFrame(CFG, a, tales, f, true);
    if ApplyFrame(CFG, a, f, true).Going? {
      var b := ApplyFrame(CFG, a, f, true).acc;
      assert Tales.Log(CFG, b, next, [], []) == next && OneCarrier.Refusals(CFG, b, [], []) == [];
    }
  }

  function Committing(worker: nat, k: nat): seq<RelayWorld.Event> {
    [RelayWorld.UpCommits(worker, [true]), RelayWorld.BridgeUp(UplinkRun.BridgeReceives(k + 1))]
  }

  /** The commit and its acknowledgement, in session, protocols and histories. */
  lemma CommitWorld(app: seq<Frame>, w: RelayWorld.World, k: nat, done: seq<Frame>, f: Frame, a: Acc, t: State)
    requires GoodConfig(CFG) && AllFit(app, MAX_PAYLOAD) && AllFit([f], MAX_PAYLOAD) && AllFit(done + [f], MAX_PAYLOAD)
    requires Waiting(app, w.up, k, done, w.up.up) && !w.aborted && Smooth(a.s, f)
    requires var v := BegunWith(w, k, [f]);
      && Flatten(v.up.bodies) == EncodeAll(done + [f])
      && UpFinishes(CFG, v.s, k + 1, EncodeAll([f]), [true]) == (t, Acked)
      && Reserved(CFG, AfterParse(v.s), [f]) == Some(a)
    requires Readable(CFG, EncodeAll([f])) == Some([f])
    requires 0 in t.lanes && t.lanes[0].up == Up(k + 1, EncodeAll([f]), false)
    ensures var u := GoAll(app, BegunWith(w, k, [f]), Committing(w.up.nextWorker, k));
      && u.s == t && !u.aborted && u.down == w.down && u.tales == Tales.LogFrame(CFG, a, w.tales, f, true)
      && Waiting(app, u.up, k + 1, done + [f], t.lanes[0].up)
  {
    hide EncodeAll, Flatten, Fits, UpFinishes, Readable, Reserved, Tales.LogFrame, Tales.Log, OneCarrier.Refusals;
    hide Tales.Reached, SessionSteps.Step;
    SmoothLogged(a, w.tales, f);
    RelayWorld.HearNone(CFG, w.down);
    var v, worker := BegunWith(w, k, [f]), w.up.nextWorker;
    var es := Committing(worker, k);
    assert es[1..] == [es[1]] && es[1..][1..] == [];
    var committed := Go(app, v, es[0]);
    assert GoAll(app, v, es) == GoAll(app, committed, es[1..]) == GoAll(app, Go(app, committed, es[1]), es[1..][1..]);
    assert v.up.workers - {worker} == map[];
  }

  lemma SmoothHolds(w: RelayWorld.World, worker: nat, f: Frame)
    requires GoodConfig(CFG) && !w.aborted && Smooth(w.s, f) && AllFit([f], MAX_PAYLOAD)
    requires worker in w.up.workers && w.up.workers[worker].body == EncodeAll([f])
    requires Readable(CFG, EncodeAll([f])) == Some([f])
    ensures RelayWorld.RingHolds(CFG, w, RelayWorld.UpCommits(worker, [true]))
  {
    hide EncodeAll, Readable, Validate, TrialOf;
    var ids := IdsOf(w.s);
    assert [f][1..] == [] && [true][1..] == [];
    assert !LosesTombstone(CFG, ids, f);
    assert !LosesSome(CFG, IdsAfter(CFG, ids, f, true), [], []);
    assert !LosesSome(CFG, ids, [f], [true]);
  }

  /** A body of one smooth frame, from the waiting bridge to its acknowledgement. */
  lemma Delivers(app: seq<Frame>, w: RelayWorld.World, k: nat, done: seq<Frame>, f: Frame, a: Acc, b: Acc)
    requires GoodConfig(CFG) && AllFit(app, MAX_PAYLOAD) && AllFit([f], MAX_PAYLOAD) && done + [f] <= app
    requires Waiting(app, w.up, k, done, w.up.up) && !w.aborted && !w.s.closed
    requires 0 in w.s.lanes && w.s.lanes[0].up == w.up.up
    requires 0 < f.id <= MAX_STREAM_ID && ValidClientShape(f) && |f.payload| <= 65536
    requires Smooth(w.s, f) && a.s.streams == w.s.streams
    requires ValidateFrame(TrialOf(w.s), f).Some? && ApplyFrame(CFG, a, f, true) == Going(b)
    requires var want := ReserveFrame(w.s.streams.Keys, f);
      if want == NOTHING then a == Acc(w.s, NOTHING, [], [])
      else Reserve(CFG, w.s, want, Uplink).Some? && a == Acc(Reserve(CFG, w.s, want, Uplink).value, want, [], [])
    requires b.left == NOTHING && SameUps(w.s, b.s) && 0 in b.s.lanes
    ensures AllFit(done + [f], MAX_PAYLOAD)
    ensures GoAll(app, w, Delivery(k, [f])) == BegunWith(w, k, [f])
    ensures RelayWorld.RingHolds(CFG, BegunWith(w, k, [f]), RelayWorld.UpCommits(w.up.nextWorker, [true]))
    ensures var u := GoAll(app, BegunWith(w, k, [f]), Committing(w.up.nextWorker, k));
      && u.s == b.s.(lanes := u.s.lanes) && 0 in u.s.lanes && u.s.lanes[0].down == b.s.lanes[0].down
      && u.s.lanes[0].up == u.up.up && Waiting(app, u.up, k + 1, done + [f], u.up.up)
      && !u.aborted && u.down == w.down && u.tales == Tales.LogFrame(CFG, a, w.tales, f, true)
  {
    hide *;
    WaitingMeans(app, w.up, k, done, w.up.up);
    WorldBegins(app, w, k, done, [f]);
    OneFrame(CFG, w.s, f, true, a, b);
    OneFrameShape(f);
    LeftNothing(b);
    SmallIsPlain();
    var t := WholeBatch(CFG, w.s, k, [f], [true], a, b);
    BegunMeans(w, k, f);
    SameSmooth(w.s, a.s, f);
    CommitWorld(app, w, k, done, f, a, t);
    SmoothHolds(BegunWith(w, k, [f]), w.up.nextWorker, f);
    WaitingMeans(app, GoAll(app, BegunWith(w, k, [f]), Committing(w.up.nextWorker, k)).up, k + 1, done + [f],
                 t.lanes[0].up);
  }

  lemma WaitingMeans(app: seq<Frame>, n: UplinkRun.Net, k: nat, done: seq<Frame>, up: Up)
    requires Waiting(app, n, k, done, up)
    ensures n.up == up && up.lastSequence == k && !up.active
  {
    hide EncodeAll, Flatten, Fits;
  }

  lemma SameSmooth(s: State, t: State, f: Frame)
    requires Smooth(s, f) && s.streams == t.streams
    ensures Smooth(t, f)
  {
  }

  lemma BegunMeans(w: RelayWorld.World, k: nat, f: Frame)
    requires GoodConfig(CFG) && AllFit([f], MAX_PAYLOAD) && 0 in w.s.lanes
    ensures var v := BegunWith(w, k, [f]);
      && v.s == SessionSteps.Step(CFG, w.s, SessionSteps.Begin(k + 1, EncodeAll([f])))
      && v.aborted == w.aborted && w.up.nextWorker in v.up.workers
      && v.up.workers[w.up.nextWorker].body == EncodeAll([f])
    ensures Smooth(w.s, f) ==> Smooth(BegunWith(w, k, [f]).s, f)
  {
    hide EncodeAll;
  }

  lemma LeftNothing(b: Acc)
    requires b.left == NOTHING
    ensures b.s == Release(b.s, b.left)
  {
  }

  /** The world between two bodies, with nothing ever queued for the client. */
  ghost predicate Stage(app: seq<Frame>, w: RelayWorld.World, k: nat, done: seq<Frame>, streams: map<nat, Stream>,
                        pending: Charge, n: int)
  {
    && Waiting(app, w.up, k, done, w.up.up) && !w.aborted && w.down == DownlinkRun.START
    && !w.s.closed && !w.s.panicked && w.s.streams == streams && w.s.tombs == []
    && w.s.pending == w.s.pool == pending && w.s.nextBackend == n
    && 0 in w.s.lanes && w.s.lanes[0].up == w.up.up && w.s.lanes[0].down == NEW_DOWN
    && Tales.Of(w.tales, 1) == Tales.NEW_TALE
  }

  /** The world after one body of one frame. */
  function Delivered(app: seq<Frame>, w: RelayWorld.World, k: nat, f: Frame): RelayWorld.World
    requires GoodConfig(CFG) && AllFit(app, MAX_PAYLOAD) && AllFit([f], MAX_PAYLOAD)
  {
    GoAll(app, BegunWith(w, k, [f]), Committing(w.up.nextWorker, k))
  }

  /** The body goes through, and its commit finds the ring in order. */
  ghost predicate Through(app: seq<Frame>, w: RelayWorld.World, k: nat, f: Frame)
    requires GoodConfig(CFG) && AllFit(app, MAX_PAYLOAD) && AllFit([f], MAX_PAYLOAD)
  {
    && GoAll(app, w, Delivery(k, [f])) == BegunWith(w, k, [f])
    && RelayWorld.RingHolds(CFG, BegunWith(w, k, [f]), RelayWorld.UpCommits(w.up.nextWorker, [true]))
  }

  lemma DeliversOpen(app: seq<Frame>, w: RelayWorld.World, k: nat, done: seq<Frame>, streams: map<nat, Stream>,
                     pending: Charge, n: int, id: nat)
    requires GoodConfig(CFG) && AllFit(app, MAX_PAYLOAD) && AllFit([Open(id)], MAX_PAYLOAD) && done + [Open(id)] <= app
    requires Stage(app, w, k, done, streams, pending, n) && 0 < id <= MAX_STREAM_ID && id !in streams && |streams| < 2
    ensures Through(app, w, k, Open(id)) && AllFit(done + [Open(id)], MAX_PAYLOAD)
    ensures Stage(app, Delivered(app, w, k, Open(id)), k + 1, done + [Open(id)], streams[id := NewStream(n)], pending,
                  n + 1)
  {
    hide ControlReserve, GoAll, BegunWith, Waiting, Delivery, Committing, RelayWorld.RingHolds;
    var a := Acc(w.s, NOTHING, [], []);
    var b := ApplyFrame(CFG, a, Open(id), true).acc;
    Delivers(app, w, k, done, Open(id), a, b);
  }

  /** DATA for a stream other than the first. */
  lemma DeliversData(app: seq<Frame>, w: RelayWorld.World, k: nat, done: seq<Frame>, streams: map<nat, Stream>,
                     n: int, id: nat, octet: Byte)
    requires GoodConfig(CFG) && AllFit(app, MAX_PAYLOAD) && AllFit([Data(id, octet)], MAX_PAYLOAD)
    requires done + [Data(id, octet)] <= app && id != 1
    requires Stage(app, w, k, done, streams, NOTHING, n) && 0 < id <= MAX_STREAM_ID && id in streams
    requires streams[id].writes == [] && streams[id].receiveWindow >= 1
    ensures Through(app, w, k, Data(id, octet)) && AllFit(done + [Data(id, octet)], MAX_PAYLOAD)
    ensures Stage(app, Delivered(app, w, k, Data(id, octet)), k + 1, done + [Data(id, octet)],
                  streams[id := AcceptData(streams[id], [octet])], Charge(257, 1), n)
  {
    hide Waiting, Stage, GoAll, BegunWith, Delivery, Committing, RelayWorld.RingHolds, AcceptData, Reserve, ApplyFrame;
    hide ValidateFrame, ReserveFrame, TrialOf, Smooth, Tales.LogFrame, SameUps, ValidClientShape;
    StageMeans(app, w, k, done, streams, NOTHING, n);
    var f := Data(id, octet);
    var a, b := DataSteps(w.s, id, octet);
    Delivers(app, w, k, done, f, a, b);
    LoggedElsewhere(a, w.tales, f);
    StageAfter(app, w, Delivered(app, w, k, f), k, done, f, streams, n, id, octet, a, b);
  }

  lemma StageMeans(app: seq<Frame>, w: RelayWorld.World, k: nat, done: seq<Frame>, streams: map<nat, Stream>,
                   pending: Charge, n: int)
    requires Stage(app, w, k, done, streams, pending, n)
    ensures Waiting(app, w.up, k, done, w.up.up) && !w.aborted && !w.s.closed && w.s.tombs == []
    ensures w.s.streams == streams && w.s.pending == w.s.pool == pending && w.s.nextBackend == n
    ensures 0 in w.s.lanes && w.s.lanes[0].up == w.up.up
  {
    hide Waiting;
  }

  lemma DataSteps(s: State, id: nat, octet: Byte) returns (a: Acc, b: Acc)
    requires GoodConfig(CFG) && s.pending == s.pool == NOTHING && s.tombs == [] && 0 in s.lanes
    requires 0 < id <= MAX_STREAM_ID && id in s.streams && s.streams[id].writes == []
      && s.streams[id].receiveWindow >= 1
    ensures var f := Data(id, octet);
      && ValidClientShape(f) && |f.payload| <= 65536 && Smooth(s, f)
      && ValidateFrame(TrialOf(s), f).Some? && ApplyFrame(CFG, a, f, true) == Going(b)
      && ReserveFrame(s.streams.Keys, f) != NOTHING
      && Reserve(CFG, s, ReserveFrame(s.streams.Keys, f), Uplink).Some?
      && a == Acc(Reserve(CFG, s, ReserveFrame(s.streams.Keys, f), Uplink).value, ReserveFrame(s.streams.Keys, f),
                  [], [])
    ensures a.s.streams == s.streams && b.left == NOTHING && SameUps(s, b.s) && 0 in b.s.lanes
    ensures b.s == s.(streams := s.streams[id := AcceptData(s.streams[id], [octet])], pending := Charge(257, 1),
                      pool := Charge(257, 1))
  {
    hide ControlReserve, Reserve, AcceptData;
    TinyReserve(s, Charge(257, 1));
    assert ReserveFrame(s.streams.Keys, Data(id, octet)) == Charge(257, 1);
    assert AppendCharge(s.streams[id], [octet]) == Charge(257, 1);
    a := Acc(Reserve(CFG, s, Charge(257, 1), Uplink).value, Charge(257, 1), [], []);
    b := ApplyFrame(CFG, a, Data(id, octet), true).acc;
  }

  lemma LoggedElsewhere(a: Acc, tales: map<nat, Tales.Tale>, f: Frame)
    ensures f.id != 1 ==> Tales.Of(Tales.LogFrame(CFG, a, tales, f, true), 1) == Tales.Of(tales, 1)
  {
  }

  lemma StageAfter(app: seq<Frame>, w: RelayWorld.World, u: RelayWorld.World, k: nat, done: seq<Frame>, f: Frame,
                   streams: map<nat, Stream>, n: int, id: nat, octet: Byte, a: Acc, b: Acc)
    requires Stage(app, w, k, done, streams, NOTHING, n) && id in streams
    requires b.s == w.s.(streams := w.s.streams[id := AcceptData(w.s.streams[id], [octet])], pending := Charge(257, 1),
                         pool := Charge(257, 1))
    requires u.s == b.s.(lanes := u.s.lanes) && 0 in u.s.lanes && u.s.lanes[0].down == b.s.lanes[0].down
    requires u.s.lanes[0].up == u.up.up && Waiting(app, u.up, k + 1, done + [f], u.up.up)
    requires !u.aborted && u.down == w.down && Tales.Of(u.tales, 1) == Tales.Of(w.tales, 1)
    ensures Stage(app, u, k + 1, done + [f], streams[id := AcceptData(streams[id], [octet])], Charge(257, 1), n)
  {
    hide Waiting, AcceptData;
  }

  // Runs put together from their parts.

  /** The ring holds at every one of these events. */
  ghost predicate HoldsAll(app: seq<Frame>, w: RelayWorld.World, events: seq<RelayWorld.Event>)
    requires GoodConfig(CFG) && AllFit(app, MAX_PAYLOAD)
    decreases |events|
  {
    events == [] || (RelayWorld.RingHolds(CFG, w, events[0]) && HoldsAll(app, Go(app, w, events[0]), events[1..]))
  }

  /** The run so far leads to `w`, and the ring has held. */
  ghost predicate Reaches(app: seq<Frame>, events: seq<RelayWorld.Event>, w: RelayWorld.World)
    requires GoodConfig(CFG) && AllFit(app, MAX_PAYLOAD)
  {
    RelayWorld.Run(CFG, NOTHING, app, events) == w && RelayWorld.RingLasts(CFG, NOTHING, app, events)
  }

  lemma ReachesNext(app: seq<Frame>, events: seq<RelayWorld.Event>, w: RelayWorld.World, e: RelayWorld.Event)
    requires GoodConfig(CFG) && AllFit(app, MAX_PAYLOAD)
    requires RelayWorld.Run(CFG, NOTHING, app, events) == w
    ensures RelayWorld.Run(CFG, NOTHING, app, events + [e]) == Go(app, w, e)
    ensures Reaches(app, events, w) && RelayWorld.RingHolds(CFG, w, e) ==> Reaches(app, events + [e], Go(app, w, e))
  {
    hide RelayWorld.Step, RelayWorld.RingHolds;
    assert (events + [e])[..|events|] == events;
  }

  lemma {:induction false} ReachesAll(app: seq<Frame>, events: seq<RelayWorld.Event>, w: RelayWorld.World,
                                      more: seq<RelayWorld.Event>)
    requires GoodConfig(CFG) && AllFit(app, MAX_PAYLOAD) && Reaches(app, events, w) && HoldsAll(app, w, more)
    ensures Reaches(app, events + more, GoAll(app, w, more))
    decreases |more|
  {
    hide Go, Reaches, RelayWorld.RingHolds, RelayWorld.Run, RelayWorld.RingLasts, GoodConfig, AllFit;
    if |more| == 0 {
      assert events + more == events;
    } else {
      var e, rest := more[0], more[1..];
      ReachesIs(app, events, w);
      ReachesNext(app, events, w, e);
      ReachesAll(app, events + [e], Go(app, w, e), rest);
      assert events + more == (events + [e]) + rest;
    }
  }

  lemma ReachesIs(app: seq<Frame>, events: seq<RelayWorld.Event>, w: RelayWorld.World)
    requires GoodConfig(CFG) && AllFit(app, MAX_PAYLOAD) && Reaches(app, events, w)
    ensures RelayWorld.Run(CFG, NOTHING, app, events) == w && RelayWorld.RingLasts(CFG, NOTHING, app, events)
  {
    hide RelayWorld.Run, RelayWorld.RingLasts;
  }

  /** Only a commit asks anything of the ring. */
  lemma NoCommitHolds(w: RelayWorld.World, e: RelayWorld.Event)
    requires GoodConfig(CFG) && !e.UpCommits?
    ensures RelayWorld.RingHolds(CFG, w, e)
  {
  }

  lemma DeliveryHolds(app: seq<Frame>, w: RelayWorld.World, k: nat, frames: seq<Frame>)
    requires GoodConfig(CFG) && AllFit(app, MAX_PAYLOAD) && AllFit(frames, MAX_PAYLOAD)
    ensures HoldsAll(app, w, Delivery(k, frames))
  {
    hide Go, RelayWorld.RingHolds, EncodeAll;
    var es := Delivery(k, frames);
    assert es[1..] == [es[1], es[2]] && es[1..][1..] == [es[2]] && es[1..][1..][1..] == [];
    NoCommitHolds(w, es[0]);
    NoCommitHolds(Go(app, w, es[0]), es[1]);
    NoCommitHolds(Go(app, Go(app, w, es[0]), es[1]), es[2]);
    assert HoldsAll(app, Go(app, Go(app, Go(app, w, es[0]), es[1]), es[2]), []);
    assert HoldsAll(app, Go(app, Go(app, w, es[0]), es[1]), es[1..][1..]);
    assert HoldsAll(app, Go(app, w, es[0]), es[1..]);
  }

  lemma CommittingHolds(app: seq<Frame>, v: RelayWorld.World, worker: nat, k: nat)
    requires GoodConfig(CFG) && AllFit(app, MAX_PAYLOAD)
    requires RelayWorld.RingHolds(CFG, v, RelayWorld.UpCommits(worker, [true]))
    ensures HoldsAll(app, v, Committing(worker, k))
  {
    hide Go, RelayWorld.RingHolds;
    var es := Committing(worker, k);
    assert es[1..] == [es[1]] && es[1..][1..] == [];
    NoCommitHolds(Go(app, v, es[0]), es[1]);
    assert HoldsAll(app, Go(app, Go(app, v, es[0]), es[1]), []);
    assert HoldsAll(app, Go(app, v, es[0]), es[1..]);
  }

  /** A body gone through extends the run. */
  lemma ReachesBody(app: seq<Frame>, events: seq<RelayWorld.Event>, w: RelayWorld.World, k: nat, f: Frame)
    requires GoodConfig(CFG) && AllFit(app, MAX_PAYLOAD) && AllFit([f], MAX_PAYLOAD)
    requires Reaches(app, events, w) && Through(app, w, k, f)
    ensures Reaches(app, (events + Delivery(k, [f])) + Committing(w.up.nextWorker, k), Delivered(app, w, k, f))
  {
    hide GoAll, HoldsAll, Reaches, BegunWith, Delivery, Committing, RelayWorld.RingHolds;
    DeliveryHolds(app, w, k, [f]);
    ReachesAll(app, events, w, Delivery(k, [f]));
    CommittingHolds(app, BegunWith(w, k, [f]), w.up.nextWorker, k);
    ReachesAll(app, events + Delivery(k, [f]), BegunWith(w, k, [f]), Committing(w.up.nextWorker, k));
  }

  /** The app hands the bridge everything it will ever send. */
  lemma AppHandsOver(app: seq<Frame>) returns (w: RelayWorld.World)
    requires GoodConfig(CFG) && AllFit(app, MAX_PAYLOAD)
    ensures Reaches(app, [RelayWorld.AppSends(EncodeAll(app))], w) && Stage(app, w, 0, [], map[], NOTHING, 0)
  {
    hide EncodeAll;
    var e := RelayWorld.AppSends(EncodeAll(app));
    var start := RelayWorld.Start(CFG, NOTHING);
    assert Reaches(app, [], start);
    NoCommitHolds(start, e);
    ReachesNext(app, [], start, e);
    assert [] + [e] == [e];
    assert start.up.source + EncodeAll(app) == EncodeAll(app);
    w := Go(app, start, e);
    EncodesNothing();
  }

  lemma EncodesNothing()
    ensures EncodeAll([]) == [] && Flatten<Byte>([]) == []
  {
  }

  predicate StartsApp(app: seq<Frame>) {
    |app| == 27 && app[0] == Open(1) && app[1] == Open(2) && app[2] == Data(2, 9) && app[3..] == HalfBatch()
  }

  lemma FirstThree(app: seq<Frame>)
    requires StartsApp(app)
    ensures [] + [Open(1)] <= app && [Open(1)] + [Open(2)] <= app && [Open(1), Open(2)] + [Data(2, 9)] <= app
    ensures [Open(1)] + [Open(2)] == [Open(1), Open(2)] && [] + [Open(1)] == [Open(1)]
    ensures [Open(1), Open(2)] + [Data(2, 9)] == [Open(1), Open(2), Data(2, 9)]
    ensures [Open(1), Open(2), Data(2, 9)] + HalfBatch() == app
  {
    hide HalfBatch;
    assert app == app[..3] + app[3..];
  }

  function Full(): Stream {
    AcceptData(NewStream(1), [9])
  }

  /** Streams 1 and 2 are open, and stream 2 holds a byte for its backend. */
  lemma UntilThree(app: seq<Frame>) returns (events: seq<RelayWorld.Event>, w: RelayWorld.World)
    requires GoodConfig(CFG) && AllFit(app, MAX_PAYLOAD) && StartsApp(app)
    ensures Reaches(app, events, w)
    ensures Stage(app, w, 3, [Open(1), Open(2), Data(2, 9)], map[1 := NewStream(0), 2 := Full()], Charge(257, 1), 2)
  {
    hide Stage, Reaches, Through, Delivered, StartsApp, AcceptData, ControlReserve, EncodeAll, Delivery, Committing;
    FirstThree(app);
    SmallFrames(1, 9);
    SmallFrames(2, 9);
    var w0 := AppHandsOver(app);
    var none: map<nat, Stream> := map[];
    DeliversOpen(app, w0, 0, [], none, NOTHING, 0, 1);
    var e0 := [RelayWorld.AppSends(EncodeAll(app))];
    ReachesBody(app, e0, w0, 0, Open(1));
    var w1 := Delivered(app, w0, 0, Open(1));
    var e1 := (e0 + Delivery(0, [Open(1)])) + Committing(w0.up.nextWorker, 0);
    DeliversOpen(app, w1, 1, [Open(1)], none[1 := NewStream(0)], NOTHING, 1, 2);
    ReachesBody(app, e1, w1, 1, Open(2));
    var w2 := Delivered(app, w1, 1, Open(2));
    var e2 := (e1 + Delivery(1, [Open(2)])) + Committing(w1.up.nextWorker, 1);
    var two := none[1 := NewStream(0)][2 := NewStream(1)];
    DeliversData(app, w2, 2, [Open(1), Open(2)], two, 2, 2, 9);
    ReachesBody(app, e2, w2, 2, Data(2, 9));
    w := Delivered(app, w2, 2, Data(2, 9));
    events := (e2 + Delivery(2, [Data(2, 9)])) + Committing(w2.up.nextWorker, 2);
    assert two[2 := Full()] == map[1 := NewStream(0), 2 := Full()];
  }

  // The body that stops halfway.

  lemma HalfBatchReads()
    ensures AllFit(HalfBatch(), 65536) && AllFit(HalfBatch(), MAX_PAYLOAD) && AllClientShaped(HalfBatch())
    ensures Readable(CFG, EncodeAll(HalfBatch())) == Some(HalfBatch())
  {
    hide EncodeAll, Readable;
    ReadsBack(CFG, HalfBatch());
  }

  lemma HalfFinishes(s: State, k: nat)
    requires GoodConfig(CFG) && HalfReady(s) && AllFit(HalfBatch(), MAX_PAYLOAD)
    requires s.lanes[0].up.lastSequence == k && !s.lanes[0].up.active
    ensures var body := EncodeAll(HalfBatch());
      var before := SessionSteps.Step(CFG, s, SessionSteps.Begin(k + 1, body));
      && before == s.(lanes := before.lanes) && !before.closed
      && AfterParse(before) == s && Readable(CFG, body) == Some(HalfBatch())
      && Reserved(CFG, s, HalfBatch()) == Some(HalfStart(s))
      && UpFinishes(CFG, before, k + 1, body, HalfAdmits())
           == (Release(HalfEnd(s).s, HalfEnd(s).left), UpAnswer.Aborted)
  {
    hide EncodeAll, Readable, Validate, Apply, Reserved, Release, HalfBatch, HalfAdmits, HalfEnd, HalfStart, TrialOf;
    HalfBatchReads();
    HalfBatchReserved(s);
    HalfBatchApplies(s);
    var before := SessionSteps.Step(CFG, s, SessionSteps.Begin(k + 1, EncodeAll(HalfBatch())));
    assert AfterParse(before) == s by {
      assert before.lanes[0 := s.lanes[0]] == s.lanes;
    }
  }

  lemma {:induction false} RefusalsLogNothing(a: Acc, tales: map<nat, Tales.Tale>, first: nat, n: nat)
    requires GoodConfig(CFG)
    ensures Tales.Log(CFG, a, tales, Opens(first, n), Nos(n)) == tales
    decreases n
  {
    hide ApplyFrame;
    if n > 0 {
      OpensUnroll(first, n);
      assert Opens(first, n)[1..] == Opens(first + 1, n - 1) && Nos(n)[1..] == Nos(n - 1);
      if ApplyFrame(CFG, a, Open(first), false).Going? {
        RefusalsLogNothing(ApplyFrame(CFG, a, Open(first), false).acc, tales, first + 1, n - 1);
      }
    }
  }

  /** Of all the body, the histories hear of its one byte. */
  lemma HalfLogged(s: State, tales: map<nat, Tales.Tale>)
    requires GoodConfig(CFG) && HalfReady(s)
    ensures Tales.Log(CFG, HalfStart(s), tales, HalfBatch(), HalfAdmits())
         == tales[1 := Tales.Of(tales, 1).(accepted := Tales.Of(tales, 1).accepted + [7])]
  {
    hide ApplyFrame, HalfEnd, Opens, Nos, Tales.Of;
    var next := Tales.LogFrame(CFG, HalfStart(s), tales, Data(1, 7), true);
    assert HalfBatch()[1..] == Opens(3, 23) && HalfAdmits()[1..] == Nos(23);
    DataApplies(s, HalfStart(s));
    RefusalsLogNothing(ApplyFrame(CFG, HalfStart(s), Data(1, 7), true).acc, next, 3, 23);
  }

  lemma {:induction false} OpensLoseNothing(ids: Ids, first: nat, n: nat)
    requires GoodConfig(CFG)
    ensures !LosesSome(CFG, ids, Opens(first, n), Nos(n))
    decreases n
  {
    if n > 0 {
      OpensUnroll(first, n);
      assert Opens(first, n)[1..] == Opens(first + 1, n - 1) && Nos(n)[1..] == Nos(n - 1);
      Batch.OpenLosesNothing(CFG, ids, Open(first));
      OpensLoseNothing(IdsAfter(CFG, ids, Open(first), false), first + 1, n - 1);
    }
  }

  lemma HalfLosesNothing(s: State)
    requires GoodConfig(CFG) && 1 in s.streams
    ensures !LosesSome(CFG, IdsOf(s), HalfBatch(), HalfAdmits())
  {
    hide Opens, Nos, IdsAfter;
    assert HalfBatch()[1..] == Opens(3, 23) && HalfAdmits()[1..] == Nos(23);
    OpensLoseNothing(IdsAfter(CFG, IdsOf(s), Data(1, 7), true), 3, 23);
  }

  lemma HalfHolds(v: RelayWorld.World, worker: nat)
    requires GoodConfig(CFG) && AllFit(HalfBatch(), MAX_PAYLOAD) && !v.aborted && 1 in v.s.streams
    requires worker in v.up.workers && v.up.workers[worker].body == EncodeAll(HalfBatch())
    ensures RelayWorld.RingHolds(CFG, v, RelayWorld.UpCommits(worker, HalfAdmits()))
  {
    hide EncodeAll, Readable, HalfBatch, HalfAdmits, Validate, LosesSome;
    HalfBatchReads();
    HalfLosesNothing(v.s);
  }

  /** The bridge after an apply stopped halfway: nothing acknowledged, the request still about. */
  ghost predicate Stuck(n: UplinkRun.Net, k: nat, r: UplinkRun.Request, up: Up) {
    !n.closed && n.workers == map[] && n.up == up && up.lastSequence == k && !up.active && r in n.sent
  }

  /** The commit that stops halfway, as far as session, uplink and histories tell. */
  lemma HalfCommits(app: seq<Frame>, v: RelayWorld.World, s: State, k: nat, r: UplinkRun.Request, worker: nat)
    requires GoodConfig(CFG) && AllFit(app, MAX_PAYLOAD) && AllFit(HalfBatch(), MAX_PAYLOAD)
    requires HalfReady(s) && s.lanes[0].up.lastSequence == k && !s.lanes[0].up.active
    requires v.s == SessionSteps.Step(CFG, s, SessionSteps.Begin(k + 1, EncodeAll(HalfBatch())))
    requires r == NextRequest(k, HalfBatch()) && r in v.up.sent && v.up.workers == map[worker := r] && !v.up.closed
    requires v.up.up == s.lanes[0].up.(active := true)
    ensures var h := Go(app, v, RelayWorld.UpCommits(worker, HalfAdmits()));
      && h.s == Release(HalfEnd(s).s, HalfEnd(s).left) && h.aborted
      && Stuck(h.up, k, r, s.lanes[0].up)
      && h.tales == v.tales[1 := Tales.Of(v.tales, 1).(accepted := Tales.Of(v.tales, 1).accepted + [7])]
      && (v.down == DownlinkRun.START ==>
            h.down == DownlinkRun.START.(relay := h.down.relay, pushed := h.down.pushed))
  {
    hide EncodeAll, Readable, UpFinishes, HalfBatch, HalfAdmits, HalfEnd, HalfStart, Tales.Log, OneCarrier.Refusals;
    hide Tales.Reached, SessionSteps.Step, Release, HalfReady, Reserved, Tales.Of, RelayWorld.Hear;
    HalfFinishes(s, k);
    HalfLogged(s, v.tales);
    if v.down == DownlinkRun.START {
      RelayWorld.HearIs(CFG, v.down, OneCarrier.Refusals(CFG, HalfStart(s), HalfBatch(), HalfAdmits()));
    }
    assert v.up.workers - {worker} == map[];
  }

  // From the halt to the retry.

  ghost predicate Sess(s: State, up: Up, streams: map<nat, Stream>, tombs: seq<nat>, pending: Charge, d: Down) {
    && !s.closed && !s.panicked && s.streams == streams && s.tombs == tombs && s.pending == s.pool == pending
    && 0 in s.lanes && s.lanes[0].up == up && s.lanes[0].down == d
  }

  /** Stream 1 with the byte it was sent. */
  function One(): Stream {
    AcceptData(NewStream(0), [7])
  }

  lemma ByteStreams()
    ensures One().writes == [[7]] && WriteCharge(Full()) == Charge(257, 1) && Full().backend == 1
    ensures AppendCharge(NewStream(0), [7]) == Charge(257, 1) && NewStream(0).receiveWindow >= 1
    ensures One().receiveWindow >= 1 && AppendCharge(One(), [7]) == Charge(1, 0)
    ensures AcceptData(One(), [7]).writes == [[7, 7]]
  {
    assert [7] + [7] == [7, 7];
  }

  lemma HaltedSession(s: State, up: Up)
    requires Sess(s, up, map[1 := NewStream(0), 2 := Full()], [], Charge(257, 1), NEW_DOWN)
    ensures HalfReady(s)
    ensures Sess(Release(HalfEnd(s).s, HalfEnd(s).left), up, map[1 := One(), 2 := Full()], [25], Charge(6322, 24),
                 NEW_DOWN.(queue := Closes(3, 22)))
  {
    hide AcceptData, AppendCharge, Closes, NewStream, Full;
    ByteStreams();
    assert [] + Closes(3, 22) == Closes(3, 22);
    assert map[1 := NewStream(0), 2 := Full()][1 := One()] == map[1 := One(), 2 := Full()];
  }

  lemma QueuesClose(s: State, id: nat)
    requires GoodConfig(CFG) && 0 in s.lanes && s.pool == s.pending && s.pending == Charge(6065, 23)
    ensures var r := QueueFrame(CFG, s, Close(id));
      && r.Some? && r.value == s.(pending := Charge(6329, 24), pool := Charge(6329, 24), lanes := r.value.lanes)
      && 0 in r.value.lanes && r.value.lanes[0].up == s.lanes[0].up
      && r.value.lanes[0].down == s.lanes[0].down.(queue := s.lanes[0].down.queue + [Close(id)])
  {
    hide ControlReserve, Reserve;
    TinyReserve(s, Charge(264, 1));
    assert PushCharge(s.lanes[0].down.queue, Close(id), 65536) == Charge(264, 1);
  }

  /** Stream 2's backend goes: its closure evicts the tombstone the retry depends on. */
  lemma GoneSession(s: State, up: Up)
    requires GoodConfig(CFG)
    requires Sess(s, up, map[1 := One(), 2 := Full()], [25], Charge(6322, 24), NEW_DOWN.(queue := Closes(3, 22)))
    ensures Sess(SessionSteps.BackendClosed(CFG, s, 2, 1), up, map[1 := One()], [2], Charge(6329, 24),
                 NEW_DOWN.(queue := Closes(3, 22) + [Close(2)]))
  {
    hide AcceptData, AppendCharge, Closes, NewStream, Full, One, QueueFrame, ControlReserve;
    ByteStreams();
    var gone := CloseStream(CFG, s, 2);
    assert map[1 := One(), 2 := Full()] - {2} == map[1 := One()];
    assert Remember([25], 2, 1) == [2];
    QueuesClose(gone, 2);
  }

  lemma {:induction false} SizeOfCloses(q: seq<Frame>)
    requires forall i | 0 <= i < |q| :: q[i].payload == []
    ensures Size(q) == 8 * |q|
  {
    if |q| > 0 {
      SizeOfCloses(q[..|q| - 1]);
    }
  }

  lemma TakesAll(q: seq<Frame>)
    requires 0 < |q| <= 4096 && forall i | 0 <= i < |q| :: q[i].payload == []
    ensures TakeCount(q, 262144) == |q| && ChargeOf(q) == Charge(264 * |q|, |q|)
  {
    hide Size;
    var n := TakeCount(q, 262144);
    TakeIsTake(q, 262144);
    SizeOfCloses(q);
    if n < |q| {
      SizeOfCloses(q[..n + 1]);
    }
  }

  /** What the client has to fetch: 23 CLOSE frames. */
  function Fetched(): (q: seq<Frame>)
    ensures |q| == 23 && forall i | 0 <= i < |q| :: q[i].payload == []
  {
    Closes(3, 22) + [Close(2)]
  }

  /** The poll takes the whole queue. */
  lemma PollTakes(s: State, up: Up, streams: map<nat, Stream>, tombs: seq<nat>, pending: Charge, token: nat)
    requires GoodConfig(CFG) && Sess(s, up, streams, tombs, pending, NEW_DOWN.(queue := Fetched()))
    ensures var (t, answer) := SessionSteps.PollArrives(CFG, s, 0, PollId(token, 0));
      && Sess(t, up, streams, tombs, pending, Down([], Fetched(), 0, 1, None))
      && Enter(s.lanes[0].down, PollId(token, 0), CFG.limits.carrierBatchBytes, false)
           == (Down([], Fetched(), 0, 1, None), Answer.Batch(Fetched(), 1))
  {
    hide Fetched, TakeCount, ChargeOf;
    TakesAll(Fetched());
    assert Fetched()[..23] == Fetched() && Fetched()[23..] == [];
    ReleaseOfNoFrames(s, []);
  }

  /** The next poll acknowledges it, and the budget comes back. */
  lemma PollAcknowledges(s: State, up: Up, streams: map<nat, Stream>, tombs: seq<nat>, token: nat)
    requires GoodConfig(CFG) && Sess(s, up, streams, tombs, Charge(6329, 24), Down([], Fetched(), 0, 1, None))
    ensures var t := SessionSteps.PollArrives(CFG, s, 0, PollId(token, 1)).0;
      Sess(t, up, streams, tombs, Charge(257, 1), Down([], [], 0, 1, Some(PollId(token, 1))))
  {
    hide Fetched, ChargeOf;
    TakesAll(Fetched());
  }

  /** Nothing has happened on the downlink but queueing. */
  predicate OnlyQueued(n: DownlinkRun.Net) {
    n == DownlinkRun.START.(relay := n.relay, pushed := n.pushed)
  }

  /** Since the halt: stream 1's byte accepted once, the request still about. */
  ghost predicate Since(w: RelayWorld.World, r: UplinkRun.Request, up: Up) {
    w.aborted && Stuck(w.up, 3, r, up) && Tales.Of(w.tales, 1) == Tales.NEW_TALE.(accepted := [7])
  }

  lemma HaltsFrom(app: seq<Frame>, w: RelayWorld.World, done: seq<Frame>)
    requires GoodConfig(CFG) && AllFit(app, MAX_PAYLOAD) && AllFit(HalfBatch(), MAX_PAYLOAD)
      && done + HalfBatch() <= app
    requires Stage(app, w, 3, done, map[1 := NewStream(0), 2 := Full()], Charge(257, 1), 2)
    ensures GoAll(app, w, Delivery(3, HalfBatch())) == BegunWith(w, 3, HalfBatch())
    ensures var v, e := BegunWith(w, 3, HalfBatch()), RelayWorld.UpCommits(w.up.nextWorker, HalfAdmits());
      var h := Go(app, v, e);
      && RelayWorld.RingHolds(CFG, v, e)
      && OnlyQueued(h.down) && Since(h, NextRequest(3, HalfBatch()), w.up.up)
      && Sess(h.s, w.up.up, map[1 := One(), 2 := Full()], [25], Charge(6322, 24), NEW_DOWN.(queue := Closes(3, 22)))
  {
    hide Stage, EncodeAll, Delivery, GoAll, HalfBatch, HalfAdmits, HalfEnd, Go, Waiting, Stuck, Sess, Flatten;
    hide RelayWorld.RingHolds, One, Full, NewStream, Release, Closes, Tales.NEW_TALE, SessionSteps.Step, Tales.Of;
    StageIs(app, w, 3, done, map[1 := NewStream(0), 2 := Full()], Charge(257, 1), 2);
    HaltedSession(w.s, w.up.up);
    WorldBegins(app, w, 3, done, HalfBatch());
    var v, worker := BegunWith(w, 3, HalfBatch()), w.up.nextWorker;
    BegunStreams(w, 3);
    HasStreamOne(w.s, v.s, w.up.up);
    HalfHolds(v, worker);
    HalfCommits(app, v, w.s, 3, NextRequest(3, HalfBatch()), worker);
    OneMoreByte(w.tales);
  }

  lemma HasStreamOne(s: State, t: State, up: Up)
    requires Sess(s, up, map[1 := NewStream(0), 2 := Full()], [], Charge(257, 1), NEW_DOWN) && t.streams == s.streams
    ensures 1 in t.streams
  {
  }

  lemma OneMoreByte(tales: map<nat, Tales.Tale>)
    requires Tales.Of(tales, 1) == Tales.NEW_TALE
    ensures Tales.Of(tales[1 := Tales.Of(tales, 1).(accepted := Tales.Of(tales, 1).accepted + [7])], 1)
         == Tales.NEW_TALE.(accepted := [7])
  {
    assert Tales.Of(tales, 1).accepted + [7] == [7];
  }

  lemma UntilHalted(app: seq<Frame>) returns (events: seq<RelayWorld.Event>, h: RelayWorld.World, up: Up)
    requires GoodConfig(CFG) && AllFit(app, MAX_PAYLOAD) && StartsApp(app) && AllFit(HalfBatch(), MAX_PAYLOAD)
    ensures Reaches(app, events, h) && OnlyQueued(h.down) && Since(h, NextRequest(3, HalfBatch()), up)
    ensures Sess(h.s, up, map[1 := One(), 2 := Full()], [25], Charge(6322, 24), NEW_DOWN.(queue := Closes(3, 22)))
  {
    hide *;
    var before, w := UntilThree(app);
    FirstThree(app);
    var body, worker := HalfBatch(), w.up.nextWorker;
    var e := RelayWorld.UpCommits(worker, HalfAdmits());
    HaltsFrom(app, w, [Open(1), Open(2), Data(2, 9)]);
    DeliveryHolds(app, w, 3, body);
    ReachesAll(app, before, w, Delivery(3, body));
    ReachesIs(app, before + Delivery(3, body), BegunWith(w, 3, body));
    ReachesNext(app, before + Delivery(3, body), BegunWith(w, 3, body), e);
    events, h, up := (before + Delivery(3, body)) + [e], Go(app, BegunWith(w, 3, body), e), w.up.up;
  }

  lemma BegunStreams(w: RelayWorld.World, k: nat)
    requires GoodConfig(CFG) && AllFit(HalfBatch(), MAX_PAYLOAD)
    ensures BegunWith(w, k, HalfBatch()).s.streams == w.s.streams
  {
    hide EncodeAll, HalfBatch;
  }

  lemma StageIs(app: seq<Frame>, w: RelayWorld.World, k: nat, done: seq<Frame>, streams: map<nat, Stream>,
                pending: Charge, n: int)
    requires Stage(app, w, k, done, streams, pending, n)
    ensures Waiting(app, w.up, k, done, w.up.up) && !w.aborted && w.down == DownlinkRun.START
    ensures 0 in w.s.lanes && w.s.lanes[0].up == w.up.up && w.up.up.lastSequence == k && !w.up.up.active
    ensures Sess(w.s, w.up.up, streams, [], pending, NEW_DOWN)
    ensures Tales.Of(w.tales, 1) == Tales.NEW_TALE && !w.up.closed
  {
    hide EncodeAll, Flatten, Fits;
  }

  /** While the ring holds, the protocols' relay halves are the session's own. */
  lemma StaysCoupled(app: seq<Frame>, events: seq<RelayWorld.Event>, w: RelayWorld.World)
    requires RelayWorld.Setting(CFG, NOTHING, app) && AllFit(app, MAX_PAYLOAD) && GoodConfig(CFG)
    requires Reaches(app, events, w)
    ensures 0 in w.s.lanes && w.s.lanes[0].down == w.down.relay && w.down.closed == w.s.closed
  {
    hide Reaches, RelayWorld.Setting, RelayWorld.Run, RelayWorld.RingLasts;
    ReachesIs(app, events, w);
    RelayWorld.RunSound(CFG, NOTHING, app, events);
    SoundIsCoupled(app, w);
  }

  lemma SoundIsCoupled(app: seq<Frame>, w: RelayWorld.World)
    requires RelayWorld.Sound(CFG, app, w)
    ensures 0 in w.s.lanes && w.s.lanes[0].down == w.down.relay && w.down.closed == w.s.closed
  {
    hide Inv, UplinkRun.Sound, DownlinkRun.Sound, Tales.AllTold, RelayWorld.Upstream, RelayWorld.Downstream;
  }

  lemma GoesGone(app: seq<Frame>, h: RelayWorld.World, r: UplinkRun.Request, up: Up)
    requires GoodConfig(CFG) && AllFit(app, MAX_PAYLOAD) && OnlyQueued(h.down) && Since(h, r, up)
    requires Sess(h.s, up, map[1 := One(), 2 := Full()], [25], Charge(6322, 24), NEW_DOWN.(queue := Closes(3, 22)))
    ensures var t := Go(app, h, RelayWorld.BackendGone(2, 1));
      && OnlyQueued(t.down) && Since(t, r, up)
      && Sess(t.s, up, map[1 := One()], [2], Charge(6329, 24), NEW_DOWN.(queue := Fetched()))
  {
    hide SessionSteps.BackendClosed, One, Full, Closes, RelayWorld.Hear, Stuck, Tales.Of;
    GoneSession(h.s, up);
    RelayWorld.HearIs(CFG, h.down, [Frame(CLOSE, 2, [])]);
  }

  /** The bridge asks with cursor 0, and its first poll takes the queue. */
  lemma GoesPolled(app: seq<Frame>, w: RelayWorld.World, r: UplinkRun.Request, up: Up)
    requires GoodConfig(CFG) && AllFit(app, MAX_PAYLOAD) && OnlyQueued(w.down) && Since(w, r, up)
    requires 0 in w.s.lanes && w.s.lanes[0].down == w.down.relay
    requires Sess(w.s, up, map[1 := One()], [2], Charge(6329, 24), NEW_DOWN.(queue := Fetched()))
    ensures var asked := Go(app, w, RelayWorld.BridgeDown(DownlinkRun.BridgeSends));
      var t := Go(app, asked, RelayWorld.PollArrives(0));
      && Since(t, r, up) && !t.down.closed && t.down.cursor == 0
      && DownlinkRun.Response(0, Fetched(), 1) in t.down.responses
      && Sess(t.s, up, map[1 := One()], [2], Charge(6329, 24), Down([], Fetched(), 0, 1, None))
  {
    hide One, Stuck, Tales.Of, Fetched, SessionSteps.PollArrives, Enter;
    PollTakes(w.s, up, map[1 := One()], [2], Charge(6329, 24), w.down.nextToken);
  }

  /** The answer reaches it, and its next poll acknowledges. */
  lemma GoesAcknowledged(app: seq<Frame>, w: RelayWorld.World, r: UplinkRun.Request, up: Up)
    requires GoodConfig(CFG) && AllFit(app, MAX_PAYLOAD) && Since(w, r, up) && !w.down.closed && w.down.cursor == 0
    requires DownlinkRun.Response(0, Fetched(), 1) in w.down.responses
    requires Sess(w.s, up, map[1 := One()], [2], Charge(6329, 24), Down([], Fetched(), 0, 1, None))
    ensures var got := Go(app, w,
                          RelayWorld.BridgeDown(DownlinkRun.BridgeReceives(DownlinkRun.Response(0, Fetched(), 1))));
      var asked := Go(app, got, RelayWorld.BridgeDown(DownlinkRun.BridgeSends));
      var t := Go(app, asked, RelayWorld.PollArrives(1));
      Since(t, r, up) && exists d :: Sess(t.s, up, map[1 := One()], [2], Charge(257, 1), d)
  {
    hide One, Stuck, Tales.Of, Fetched, SessionSteps.PollArrives, Enter;
    PollAcknowledges(w.s, up, map[1 := One()], [2], w.down.nextToken);
  }

  /** The bridge's retry is begun again, the session as ready as before. */
  lemma GoesRetried(app: seq<Frame>, w: RelayWorld.World, up: Up, d: Down)
    requires GoodConfig(CFG) && AllFit(app, MAX_PAYLOAD) && AllFit(HalfBatch(), MAX_PAYLOAD)
    requires Since(w, NextRequest(3, HalfBatch()), up) && Sess(w.s, up, map[1 := One()], [2], Charge(257, 1), d)
    ensures HalfReady(w.s)
    ensures var r, v := NextRequest(3, HalfBatch()), Go(app, w, RelayWorld.UpArrives(NextRequest(3, HalfBatch())));
      && v.s == SessionSteps.Step(CFG, w.s, SessionSteps.Begin(4, EncodeAll(HalfBatch()))) && v.tales == w.tales
      && r in v.up.sent && v.up.workers == map[w.up.nextWorker := r] && !v.up.closed
      && v.up.up == w.s.lanes[0].up.(active := true) && v.aborted
  {
    hide One, Tales.Of, EncodeAll, HalfBatch;
    ByteStreams();
  }

  /** The run up to the retry's second visit to the relay. */
  lemma UntilRetried(app: seq<Frame>)
    returns (events: seq<RelayWorld.Event>, w: RelayWorld.World, v: RelayWorld.World, up: Up, d: Down)
    requires RelayWorld.Setting(CFG, NOTHING, app) && GoodConfig(CFG) && AllFit(app, MAX_PAYLOAD) && StartsApp(app)
    requires AllFit(HalfBatch(), MAX_PAYLOAD)
    ensures Reaches(app, events, v) && v == Go(app, w, RelayWorld.UpArrives(NextRequest(3, HalfBatch())))
    ensures Since(w, NextRequest(3, HalfBatch()), up) && Sess(w.s, up, map[1 := One()], [2], Charge(257, 1), d)
  {
    hide *;
    var r := NextRequest(3, HalfBatch());
    var e0, h, at := UntilHalted(app);
    up := at;
    var gone := RelayWorld.BackendGone(2, 1);
    var asks, poll0, poll1 := RelayWorld.BridgeDown(DownlinkRun.BridgeSends), RelayWorld.PollArrives(0),
        RelayWorld.PollArrives(1);
    var gets := RelayWorld.BridgeDown(DownlinkRun.BridgeReceives(DownlinkRun.Response(0, Fetched(), 1)));
    GoesGone(app, h, r, up);
    var w1 := GoesOn(app, e0, h, gone);
    StaysCoupled(app, e0 + [gone], w1);
    GoesPolled(app, w1, r, up);
    var w2 := GoesOn(app, e0 + [gone], w1, asks);
    var e2 := e0 + [gone] + [asks];
    var w3 := GoesOn(app, e2, w2, poll0);
    GoesAcknowledged(app, w3, r, up);
    var w4 := GoesOn(app, e2 + [poll0], w3, gets);
    var e4 := e2 + [poll0] + [gets];
    var w5 := GoesOn(app, e4, w4, asks);
    w := GoesOn(app, e4 + [asks], w5, poll1);
    d :| Sess(w.s, up, map[1 := One()], [2], Charge(257, 1), d);
    var e6 := e4 + [asks] + [poll1];
    v := GoesOn(app, e6, w, RelayWorld.UpArrives(r));
    events := e6 + [RelayWorld.UpArrives(r)];
  }

  lemma GoesOn(app: seq<Frame>, events: seq<RelayWorld.Event>, w: RelayWorld.World, e: RelayWorld.Event)
    returns (t: RelayWorld.World)
    requires GoodConfig(CFG) && AllFit(app, MAX_PAYLOAD) && Reaches(app, events, w) && !e.UpCommits?
    ensures t == Go(app, w, e) && Reaches(app, events + [e], t)
  {
    hide Reaches, Go, RelayWorld.RingHolds;
    t := Go(app, w, e);
    NoCommitHolds(w, e);
    ReachesIs(app, events, w);
    ReachesNext(app, events, w, e);
  }

  /** Applied again, the body leaves two copies of its byte in the stream's buffer. */
  lemma AppliedAgain(s: State, up: Up, d: Down)
    requires HalfReady(s) && Sess(s, up, map[1 := One()], [2], Charge(257, 1), d)
    ensures var t := Release(HalfEnd(s).s, HalfEnd(s).left);
      !t.closed && 1 in t.streams && t.streams[1].writes == [[7, 7]]
  {
    hide One, AppendCharge, AcceptData;
    ByteStreams();
  }

  /** The write loop takes what is buffered and writes it out. */
  lemma WritesOut(app: seq<Frame>, w: RelayWorld.World, bytes: Bytes)
    requires GoodConfig(CFG) && AllFit(app, MAX_PAYLOAD) && !w.s.closed && 1 in w.s.streams
    requires w.s.streams[1].writes == [bytes] && bytes != []
    requires Tales.Of(w.tales, 1).phase.Idle? && Tales.Of(w.tales, 1).written == []
    ensures var taken := Go(app, w, RelayWorld.TakeWrite(1));
      Tales.Of(Go(app, taken, RelayWorld.SocketWrites(1, |bytes|)).tales, 1).written == bytes
  {
    hide BackendDrained, RelayWorld.Hear;
    assert bytes[..|bytes|] == bytes && [] + bytes == bytes;
  }

  /**
   * A run of the whole relay in which the app sends one byte on stream 1 and its backend's socket gets
   * it twice. Up to the last commit the ring holds what every commit needs; then the bridge's retry of
   * the body that stopped halfway finds all its tombstones gone, and the session still open.
   */
  lemma ByteIsWrittenTwice() returns (before: seq<RelayWorld.Event>, commit: RelayWorld.Event)
    ensures RelayWorld.Setting(CFG, NOTHING, App()) && RelayWorld.RingLasts(CFG, NOTHING, App(), before)
    ensures !RelayWorld.RingHolds(CFG, RelayWorld.Run(CFG, NOTHING, App(), before), commit)
    ensures var events := before + [commit] + [RelayWorld.TakeWrite(1)] + [RelayWorld.SocketWrites(1, 2)];
      Tales.Of(RelayWorld.Run(CFG, NOTHING, App(), events).tales, 1).written == [7, 7]
    ensures Tales.DataOf(App(), 1) == [7]
  {
    hide *;
    AppIsAllowed();
    SettingMeans();
    var w, v, up, d;
    before, w, v, up, d := UntilRetried(App());
    GoesRetried(App(), w, up, d);
    SinceMeans(w, NextRequest(3, HalfBatch()), up);
    var r, worker := NextRequest(3, HalfBatch()), w.up.nextWorker;
    SessUp(w.s, up, d);
    HalfCommits(App(), v, w.s, 3, r, worker);
    AppliedAgain(w.s, up, d);
    commit := RelayWorld.UpCommits(worker, HalfAdmits());
    ReachesIs(App(), before, v);
    ReachesNext(App(), before, v, commit);
    var c := Go(App(), v, commit);
    AnotherByte(v.tales);
    WritesOut(App(), c, [7, 7]);
    ReachesNext(App(), before + [commit], c, RelayWorld.TakeWrite(1));
    ReachesNext(App(), before + [commit] + [RelayWorld.TakeWrite(1)], Go(App(), c, RelayWorld.TakeWrite(1)),
                RelayWorld.SocketWrites(1, 2));
    RetryNotHeld(v, w.s, up, d, worker);
  }

  lemma SettingMeans()
    requires RelayWorld.Setting(CFG, NOTHING, App())
    ensures GoodConfig(CFG) && AllFit(App(), MAX_PAYLOAD) && AllFit(HalfBatch(), MAX_PAYLOAD) && StartsApp(App())
  {
    hide ControlReserve, Tales.OpensOnce, HalfBatch, AllFit;
    HalfBatchReads();
    AppStarts();
  }

  lemma AppStarts()
    ensures StartsApp(App())
  {
    hide Opens;
  }

  lemma SinceMeans(w: RelayWorld.World, r: UplinkRun.Request, up: Up)
    requires Since(w, r, up)
    ensures Tales.Of(w.tales, 1) == Tales.NEW_TALE.(accepted := [7]) && w.aborted
    ensures up.lastSequence == 3 && !up.active
  {
  }

  lemma SessUp(s: State, up: Up, d: Down)
    requires Sess(s, up, map[1 := One()], [2], Charge(257, 1), d)
    ensures 0 in s.lanes && s.lanes[0].up == up && s.streams.Keys == {1} && s.tombs == [2] && !s.closed
  {
  }

  lemma AnotherByte(tales: map<nat, Tales.Tale>)
    requires Tales.Of(tales, 1) == Tales.NEW_TALE.(accepted := [7])
    ensures var tale := Tales.Of(tales[1 := Tales.Of(tales, 1).(accepted := Tales.Of(tales, 1).accepted + [7])], 1);
      tale.phase.Idle? && tale.written == []
  {
  }

  lemma RetryNotHeld(v: RelayWorld.World, s: State, up: Up, d: Down, worker: nat)
    requires GoodConfig(CFG) && AllFit(HalfBatch(), MAX_PAYLOAD) && v.aborted
    requires Sess(s, up, map[1 := One()], [2], Charge(257, 1), d)
    requires v.s == SessionSteps.Step(CFG, s, SessionSteps.Begin(4, EncodeAll(HalfBatch())))
    requires v.up.workers == map[worker := NextRequest(3, HalfBatch())]
    ensures !RelayWorld.RingHolds(CFG, v, RelayWorld.UpCommits(worker, HalfAdmits()))
  {
    hide EncodeAll, Readable, One;
    HalfBatchReads();
    assert v.s.tombs == [2] && !v.s.closed;
    assert forall i | 0 <= i < 24 && HalfBatch()[i].kind == OPEN :: HalfBatch()[i].id >= 3;
  }
}

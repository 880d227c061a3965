/**
 * Each stream's history through a session: the DATA accepted for it, the bytes its backend's socket
 * has had, and the bytes its backend has sent, kept in step with the session's own fields.
 */
module Tales {
  import opened Octets
  import opened Outcomes
  import opened Frames
  import opened Limits
  import opened Queue
  import opened Streams
  import opened Tombstones
  import opened SessionState
  import opened Batch
  import opened SessionSteps

  /**
   * The write loop's phase, the bytes accepted and written; whether the read loop runs, the bytes it
   * has had queued, and all it has read.
   */
  datatype Tale = Tale(phase: Phase, accepted: Bytes, written: Bytes, reading: bool, queued: Bytes, fromBackend: Bytes)

  const NEW_TALE := Tale(Idle, [], [], true, [], [])

  function Of(h: map<nat, Tale>, id: nat): Tale {
    if id in h then h[id] else NEW_TALE
  }

  function CellOf(s: State, h: map<nat, Tale>, id: nat): Cell {
    Cell(if id in s.streams then Some(s.streams[id]) else None, Of(h, id).phase, Of(h, id).accepted, Of(h, id).written)
  }

  /** The payloads of a stream's DATA frames, end to end. */
  function DataOf(fs: seq<Frame>, id: nat): Bytes {
    if fs == [] then []
    else
      var last := fs[|fs| - 1];
      DataOf(fs[..|fs| - 1], id) + (if last.kind == DATA && last.id == id then last.payload else [])
  }

  predicate IsOpenOf(f: Frame, id: nat) {
    f.kind == OPEN && f.id == id
  }

  ghost predicate OpenedIn(fs: seq<Frame>, id: nat) {
    exists i :: 0 <= i < |fs| && IsOpenOf(fs[i], id)
  }

  /** The client never uses a stream id twice. */
  ghost predicate OpensOnce(fs: seq<Frame>) {
    forall i, j, id | 0 <= i < j < |fs| :: !(IsOpenOf(fs[i], id) && IsOpenOf(fs[j], id))
  }

  /** `fs` are the frames applied so far. */
  ghost predicate Told(s: State, h: map<nat, Tale>, fs: seq<Frame>, id: nat) {
    var tale := Of(h, id);
    && Accounted(CellOf(s, h, id))
    && tale.accepted <= DataOf(fs, id)
    && (id in s.streams ==> tale.accepted == DataOf(fs, id))
    && (id in s.streams || id in s.tombs ==> OpenedIn(fs, id))
    && (!OpenedIn(fs, id) ==> DataOf(fs, id) == [] && tale.queued == [])
    && tale.queued <= tale.fromBackend && (tale.reading ==> tale.queued == tale.fromBackend)
    && |tale.queued| <= INITIAL_STREAM_WINDOW + WindowTotal(fs, id)
    && (id in s.streams ==> WithinGrants(s.streams[id], tale, fs, id))
  }

  /** What a stream may still send and what has been queued for it come out of the window and its WINDOWs. */
  predicate WithinGrants(st: Stream, tale: Tale, fs: seq<Frame>, id: nat) {
    st.sendCredit + |tale.queued| <= INITIAL_STREAM_WINDOW + WindowTotal(fs, id)
  }

  ghost predicate AllTold(s: State, h: map<nat, Tale>, fs: seq<Frame>) {
    forall id: nat :: Told(s, h, fs, id)
  }

  lemma DataOfSnoc(fs: seq<Frame>, f: Frame, id: nat)
    ensures DataOf(fs + [f], id) == DataOf(fs, id) + (if f.kind == DATA && f.id == id then f.payload else [])
  {
    assert (fs + [f])[..|fs|] == fs;
  }

  lemma WindowSnoc(fs: seq<Frame>, f: Frame, id: nat)
    ensures WindowTotal(fs + [f], id) == WindowTotal(fs, id) + Credit(f, id)
  {
    assert (fs + [f])[..|fs|] == fs;
  }

  lemma OpenedSnoc(fs: seq<Frame>, f: Frame, id: nat)
    ensures OpenedIn(fs + [f], id) <==> OpenedIn(fs, id) || IsOpenOf(f, id)
  {
    if OpenedIn(fs, id) {
      var i :| 0 <= i < |fs| && IsOpenOf(fs[i], id);
      assert (fs + [f])[i] == fs[i];
    }
    assert (fs + [f])[|fs|] == f;
  }

  lemma OpensOnceNext(fs: seq<Frame>, frames: seq<Frame>)
    requires frames != [] && OpensOnce(fs + frames)
    ensures frames[0].kind == OPEN ==> !OpenedIn(fs, frames[0].id)
    ensures fs + frames == (fs + [frames[0]]) + frames[1..]
  {
    var all := fs + frames;
    assert all == (fs + [frames[0]]) + frames[1..];
    if frames[0].kind == OPEN && OpenedIn(fs, frames[0].id) {
      var i :| 0 <= i < |fs| && IsOpenOf(fs[i], frames[0].id);
      assert IsOpenOf(all[i], frames[0].id) && IsOpenOf(all[|fs|], frames[0].id);
    }
  }

  // One uplink frame.

  function LogFrame(cfg: Config, a: Acc, h: map<nat, Tale>, f: Frame, admit: bool): map<nat, Tale> {
    if f.id == 0 then h
    else if f.kind == OPEN then
      if |a.s.streams| >= cfg.limits.maxStreamsPerSession || !admit then h else h[f.id := NEW_TALE]
    else if f.kind == DATA && f.id !in a.s.tombs && f.id in a.s.streams then
      h[f.id := Of(h, f.id).(accepted := Of(h, f.id).accepted + f.payload)]
    else h
  }

  /** The session and the history after a frame, as far as one stream can tell. */
  ghost predicate OnlyAt(s: State, t: State, h: map<nat, Tale>, h': map<nat, Tale>, at: nat) {
    && (forall id | id != at ::
      (id in t.streams <==> id in s.streams) && (id in s.streams ==> t.streams[id] == s.streams[id]))
    && (forall id | id != at :: Of(h', id) == Of(h, id))
    && (forall id | id in t.tombs && id != at :: id in s.tombs)
  }

  lemma OthersTold(s: State, t: State, h: map<nat, Tale>, h': map<nat, Tale>, fs: seq<Frame>, f: Frame, id: nat)
    requires OnlyAt(s, t, h, h', f.id) && id != f.id && Told(s, h, fs, id)
    ensures Told(t, h', fs + [f], id)
  {
    hide Accounted, DataOf, OpenedIn, WindowTotal;
    DataOfSnoc(fs, f, id);
    OpenedSnoc(fs, f, id);
    WindowSnoc(fs, f, id);
    assert CellOf(t, h', id) == CellOf(s, h, id);
    assert DataOf(fs, id) + [] == DataOf(fs, id);
  }

  /** What a validated frame is known to satisfy when it is applied. */
  ghost predicate Applicable(cfg: Config, s: State, f: Frame) {
    && ValidClientShape(f)
    && (f.kind == OPEN ==> f.id != 0 && f.id !in s.streams && f.id !in s.tombs)
    && (f.kind == DATA && f.id in s.streams ==> |f.payload| <= s.streams[f.id].receiveWindow)
    && (f.id in s.streams ==> f.id !in s.tombs)
  }

  lemma OpenTold(cfg: Config, a: Acc, h: map<nat, Tale>, fs: seq<Frame>, f: Frame, admit: bool)
    requires GoodConfig(cfg) && Told(a.s, h, fs, f.id) && Applicable(cfg, a.s, f) && f.kind == OPEN
      && !OpenedIn(fs, f.id)
    ensures match OpenFrame(cfg, a, f, admit)
      case Going(b) =>
        && Told(b.s, LogFrame(cfg, a, h, f, admit), fs + [f], f.id)
        && OnlyAt(a.s, b.s, h, LogFrame(cfg, a, h, f, admit), f.id)
      case Aborted(b) =>
        && Told(b.s, LogFrame(cfg, a, h, f, admit), fs + [f], f.id)
        && OnlyAt(a.s, b.s, h, LogFrame(cfg, a, h, f, admit), f.id)
      case NilStream => true
  {
    hide DataOf, OpenedIn, WindowTotal, RememberClosed, QueueFrame, Remember;
    DataOfSnoc(fs, f, f.id);
    OpenedSnoc(fs, f, f.id);
    WindowSnoc(fs, f, f.id);
    assert DataOf(fs, f.id) + [] == DataOf(fs, f.id);
    RememberClosedShape(cfg, a.s, f.id);
    RememberMembers(cfg, a.s, f.id);
    QueueFrameShape(cfg, RememberClosed(cfg, a.s, f.id), Frame(CLOSE, f.id, []));
    NewCell(a.s.nextBackend);
  }

  lemma NewCell(backend: int)
    ensures Accounted(Cell(Some(NewStream(backend)), Idle, [], []))
  {
  }

  lemma RememberMembers(cfg: Config, s: State, id: nat)
    requires GoodConfig(cfg)
    ensures forall x | x in Remember(s.tombs, id, cfg.limits.maxClosedStreamIDs) :: x == id || x in s.tombs
  {
    var cap := cfg.limits.maxClosedStreamIDs;
    forall x | x in Remember(s.tombs, id, cap)
      ensures x == id || x in s.tombs
    {
      if id !in s.tombs && |s.tombs| >= cap {
        var k :| 0 <= k < |s.tombs[1..] + [id]| && (s.tombs[1..] + [id])[k] == x;
      }
    }
  }

  lemma CreditMoves(st: Stream, payload: Bytes, amount: nat)
    ensures AcceptData(st, payload).sendCredit == st.sendCredit
    ensures AddCredit(st, amount).sendCredit <= st.sendCredit + amount
  {
    hide AppendCharge, Coalesces;
  }

  lemma DataTold(cfg: Config, a: Acc, h: map<nat, Tale>, fs: seq<Frame>, f: Frame, admit: bool)
    requires Told(a.s, h, fs, f.id) && Applicable(cfg, a.s, f) && f.kind == DATA && f.id in a.s.streams
    ensures var t := a.s.(streams := a.s.streams[f.id := AcceptData(a.s.streams[f.id], f.payload)]);
      Told(t, LogFrame(cfg, a, h, f, admit), fs + [f], f.id)
  {
    hide DataOf, OpenedIn, WindowTotal, Accounted, AcceptData;
    DataOfSnoc(fs, f, f.id);
    OpenedSnoc(fs, f, f.id);
    WindowSnoc(fs, f, f.id);
    CreditMoves(a.s.streams[f.id], f.payload, 0);
    TakeAccounted(CellOf(a.s, h, f.id), DataArrives(f.payload));
  }

  lemma WindowTold(cfg: Config, a: Acc, h: map<nat, Tale>, fs: seq<Frame>, f: Frame)
    requires Told(a.s, h, fs, f.id) && f.kind == WINDOW && f.id in a.s.streams
    ensures var t := a.s.(streams := a.s.streams[f.id := AddCredit(a.s.streams[f.id], Amount(f.payload))]);
      Told(t, h, fs + [f], f.id)
  {
    hide DataOf, OpenedIn, WindowTotal, Accounted, AddCredit, Amount;
    DataOfSnoc(fs, f, f.id);
    OpenedSnoc(fs, f, f.id);
    WindowSnoc(fs, f, f.id);
    assert DataOf(fs, f.id) + [] == DataOf(fs, f.id);
    CreditMoves(a.s.streams[f.id], [], Amount(f.payload));
    TakeAccounted(CellOf(a.s, h, f.id), CreditArrives(Amount(f.payload)));
  }

  /** A stream's end: the cell loses its stream, and the id is remembered. */
  lemma GoneTold(s: State, t: State, h: map<nat, Tale>, fs: seq<Frame>, id: nat)
    requires Told(s, h, fs, id) && id in s.streams && id !in t.streams
    ensures Told(t, h, fs, id)
  {
    hide DataOf, OpenedIn, WindowTotal, Accounted;
    TakeAccounted(CellOf(s, h, id), StreamCloses);
    assert CellOf(t, h, id) == Take(CellOf(s, h, id), StreamCloses);
  }

  lemma CloseTold(cfg: Config, a: Acc, h: map<nat, Tale>, fs: seq<Frame>, f: Frame)
    requires GoodConfig(cfg) && Told(a.s, h, fs, f.id) && f.kind == CLOSE && f.id in a.s.streams
    ensures Told(CloseStream(cfg, a.s, f.id), h, fs + [f], f.id)
    ensures OnlyAt(a.s, CloseStream(cfg, a.s, f.id), h, h, f.id)
  {
    hide DataOf, OpenedIn, WindowTotal, Accounted, CloseStream, Remember;
    CloseStreamShape(cfg, a.s, f.id);
    RememberMembers(cfg, a.s, f.id);
    GoneTold(a.s, CloseStream(cfg, a.s, f.id), h, fs, f.id);
    DataOfSnoc(fs, f, f.id);
    OpenedSnoc(fs, f, f.id);
    WindowSnoc(fs, f, f.id);
    assert DataOf(fs, f.id) + [] == DataOf(fs, f.id);
  }

  /** Frames of the session, and late frames, leave every tale as it was. */
  lemma IgnoredTold(s: State, h: map<nat, Tale>, fs: seq<Frame>, f: Frame)
    requires Told(s, h, fs, f.id) && ValidClientShape(f)
    requires f.id == 0 || (f.kind != OPEN && f.id !in s.streams && f.id in s.tombs)
    ensures Told(s, h, fs + [f], f.id)
  {
    hide DataOf, OpenedIn, WindowTotal, Accounted;
    DataOfSnoc(fs, f, f.id);
    OpenedSnoc(fs, f, f.id);
    WindowSnoc(fs, f, f.id);
    assert DataOf(fs, f.id) + [] == DataOf(fs, f.id);
    assert DataOf(fs, f.id) <= DataOf(fs, f.id) + f.payload;
  }

  ghost predicate FrameTold(cfg: Config, a: Acc, h: map<nat, Tale>, fs: seq<Frame>, f: Frame, admit: bool)
    requires GoodConfig(cfg)
  {
    && SameQueued(h, LogFrame(cfg, a, h, f, admit))
    && match ApplyFrame(cfg, a, f, admit)
       case Going(b) => AllTold(b.s, LogFrame(cfg, a, h, f, admit), fs + [f])
       case Aborted(b) => AllTold(b.s, LogFrame(cfg, a, h, f, admit), fs + [f])
       case NilStream => true
  }

  /** Uplink frames queue nothing for the client on a stream's behalf. */
  ghost predicate SameQueued(h: map<nat, Tale>, h': map<nat, Tale>) {
    forall id: nat :: Of(h', id).queued == Of(h, id).queued
  }

  lemma LogFrameQueues(cfg: Config, a: Acc, h: map<nat, Tale>, fs: seq<Frame>, f: Frame, admit: bool)
    requires Told(a.s, h, fs, f.id) && (f.kind == OPEN ==> !OpenedIn(fs, f.id))
    ensures SameQueued(h, LogFrame(cfg, a, h, f, admit))
  {
    hide Accounted, DataOf, OpenedIn, WindowTotal;
  }

  lemma SpreadTold(s: State, t: State, h: map<nat, Tale>, h': map<nat, Tale>, fs: seq<Frame>, f: Frame)
    requires AllTold(s, h, fs) && OnlyAt(s, t, h, h', f.id) && Told(t, h', fs + [f], f.id)
    ensures AllTold(t, h', fs + [f])
  {
    hide Told, OnlyAt;
    forall id: nat
      ensures Told(t, h', fs + [f], id)
    {
      if id != f.id {
        OthersTold(s, t, h, h', fs, f, id);
      }
    }
  }

  lemma SetOnlyAt(s: State, h: map<nat, Tale>, id: nat, st: Stream, tale: Tale)
    ensures OnlyAt(s, s.(streams := s.streams[id := st]), h, h, id)
    ensures OnlyAt(s, s.(streams := s.streams[id := st]), h, h[id := tale], id)
    ensures OnlyAt(s, s, h, h, id)
  {
  }

  lemma LogFrameTold(cfg: Config, a: Acc, h: map<nat, Tale>, fs: seq<Frame>, f: Frame, admit: bool)
    requires GoodConfig(cfg) && AllTold(a.s, h, fs) && Applicable(cfg, a.s, f)
    requires f.kind == OPEN ==> !OpenedIn(fs, f.id)
    ensures FrameTold(cfg, a, h, fs, f, admit)
  {
    hide Told, OnlyAt, OpenFrame, CloseStream, AcceptData, AddCredit, OpenedIn, Amount, SameQueued;
    assert Told(a.s, h, fs, f.id);
    LogFrameQueues(cfg, a, h, fs, f, admit);
    if f.id == 0 || (f.kind != OPEN && f.id !in a.s.streams) {
      if f.id == 0 || f.id in a.s.tombs {
        IgnoredTold(a.s, h, fs, f);
        SetOnlyAt(a.s, h, f.id, NewStream(0), NEW_TALE);
        SpreadTold(a.s, a.s, h, h, fs, f);
      }
    } else if f.kind == OPEN {
      OpenTold(cfg, a, h, fs, f, admit);
      match OpenFrame(cfg, a, f, admit)
      case Going(b) => SpreadTold(a.s, b.s, h, LogFrame(cfg, a, h, f, admit), fs, f);
      case Aborted(b) => SpreadTold(a.s, b.s, h, LogFrame(cfg, a, h, f, admit), fs, f);
      case NilStream =>
    } else if f.kind == DATA {
      DataTold(cfg, a, h, fs, f, admit);
      var st := AcceptData(a.s.streams[f.id], f.payload);
      SetOnlyAt(a.s, h, f.id, st, Of(h, f.id).(accepted := Of(h, f.id).accepted + f.payload));
      SpreadTold(a.s, a.s.(streams := a.s.streams[f.id := st]), h, LogFrame(cfg, a, h, f, admit), fs, f);
    } else if f.kind == WINDOW {
      WindowTold(cfg, a, h, fs, f);
      var st := AddCredit(a.s.streams[f.id], Amount(f.payload));
      SetOnlyAt(a.s, h, f.id, st, NEW_TALE);
      SpreadTold(a.s, a.s.(streams := a.s.streams[f.id := st]), h, h, fs, f);
    } else {
      CloseTold(cfg, a, h, fs, f);
      SpreadTold(a.s, CloseStream(cfg, a.s, f.id), h, h, fs, f);
    }
  }

  // One uplink batch.

  function Log(cfg: Config, a: Acc, h: map<nat, Tale>, frames: seq<Frame>, admits: seq<bool>): map<nat, Tale>
    requires GoodConfig(cfg) && |admits| == |frames|
    decreases |frames|
  {
    if frames == [] then h
    else
      var h' := LogFrame(cfg, a, h, frames[0], admits[0]);
      match ApplyFrame(cfg, a, frames[0], admits[0])
      case Going(b) => Log(cfg, b, h', frames[1..], admits[1..])
      case _ => h'
  }

  /** How many frames of a batch are applied: all of them, unless a refused OPEN finds no room for its CLOSE. */
  function Reached(cfg: Config, a: Acc, frames: seq<Frame>, admits: seq<bool>): (n: nat)
    requires GoodConfig(cfg) && |admits| == |frames|
    ensures n <= |frames|
    decreases |frames|
  {
    if frames == [] then 0
    else
      match ApplyFrame(cfg, a, frames[0], admits[0])
      case Going(b) => 1 + Reached(cfg, b, frames[1..], admits[1..])
      case _ => 1
  }

  ghost predicate BatchTold(cfg: Config, a: Acc, h: map<nat, Tale>, fs: seq<Frame>, frames: seq<Frame>,
                            admits: seq<bool>)
    requires GoodConfig(cfg) && |admits| == |frames|
  {
    var n := Reached(cfg, a, frames, admits);
    && SameQueued(h, Log(cfg, a, h, frames, admits))
    && match Apply(cfg, a, frames, admits)
       case Going(b) => n == |frames| && AllTold(b.s, Log(cfg, a, h, frames, admits), fs + frames)
       case Aborted(b) => AllTold(b.s, Log(cfg, a, h, frames, admits), fs + frames[..n])
       case NilStream => true
  }

  lemma ValidatedIsApplicable(cfg: Config, t: Trial, s: State, f: Frame, history: seq<nat>)
    requires Structured(cfg, s) && Agrees(cfg, t, s, history) && ValidateFrame(t, f).Some? && ValidClientShape(f)
    ensures Applicable(cfg, s, f)
  {
    FrameSnapshot(cfg, t, s, f, history);
    assert f.id in s.streams ==> GoodStream(cfg, s, f.id);
  }

  lemma RestClientShaped(frames: seq<Frame>)
    requires |frames| > 0 && AllClientShaped(frames)
    ensures ValidClientShape(frames[0]) && AllClientShaped(frames[1..])
  {
    hide ValidClientShape;
  }

  lemma BatchToldNext(cfg: Config, a: Acc, h: map<nat, Tale>, fs: seq<Frame>, frames: seq<Frame>, admits: seq<bool>)
    requires GoodConfig(cfg) && |admits| == |frames| && frames != []
    requires FrameTold(cfg, a, h, fs, frames[0], admits[0])
    requires var h' := LogFrame(cfg, a, h, frames[0], admits[0]);
      match ApplyFrame(cfg, a, frames[0], admits[0])
      case Going(b) => BatchTold(cfg, b, h', fs + [frames[0]], frames[1..], admits[1..])
      case _ => true
    ensures BatchTold(cfg, a, h, fs, frames, admits)
  {
    hide AllTold, ApplyFrame, LogFrame;
    match ApplyFrame(cfg, a, frames[0], admits[0])
    case Going(b) =>
      var n := Reached(cfg, b, frames[1..], admits[1..]);
      assert (fs + [frames[0]]) + frames[1..][..n] == fs + frames[..n + 1];
      assert (fs + [frames[0]]) + frames[1..] == fs + frames;
    case Aborted(_) =>
      assert fs + [frames[0]] == fs + frames[..1];
    case NilStream =>
  }

  lemma BatchToldEnd(cfg: Config, a: Acc, h: map<nat, Tale>, fs: seq<Frame>, frames: seq<Frame>, admits: seq<bool>)
    requires GoodConfig(cfg) && |admits| == |frames| == 0 && AllTold(a.s, h, fs)
    ensures BatchTold(cfg, a, h, fs, frames, admits)
  {
    hide AllTold;
    assert fs + frames == fs;
  }

  /** What the proof below needs at each frame. */
  lemma NextFrameTold(cfg: Config, t: Trial, a: Acc, h: map<nat, Tale>, fs: seq<Frame>, frames: seq<Frame>,
                      admit: bool, history: seq<nat>, live: set<nat>)
    requires frames != [] && Underway(cfg, t, a, frames, history, live)
    requires AllClientShaped(frames) && AllTold(a.s, h, fs) && OpensOnce(fs + frames)
    ensures FrameTold(cfg, a, h, fs, frames[0], admit)
    ensures AllClientShaped(frames[1..]) && OpensOnce((fs + [frames[0]]) + frames[1..])
  {
    hide AllTold, Agrees, ApplyFrame, ValidateFrame, LogFrame, OpensOnce, ValidClientShape, OpenedIn, FrameTold;
    hide Underway, Applicable;
    UnderwayGood(cfg, t, a, frames, history, live);
    OpensOnceNext(fs, frames);
    ValidatedIsApplicable(cfg, t, a.s, frames[0], history);
    LogFrameTold(cfg, a, h, fs, frames[0], admit);
  }

  lemma {:induction false} ApplyTold(cfg: Config, t: Trial, a: Acc, h: map<nat, Tale>, fs: seq<Frame>,
                                     frames: seq<Frame>,
                                     admits: seq<bool>, history: seq<nat>, live: set<nat>)
    requires Underway(cfg, t, a, frames, history, live) && |admits| == |frames|
    requires AllClientShaped(frames) && AllTold(a.s, h, fs) && OpensOnce(fs + frames)
    ensures BatchTold(cfg, a, h, fs, frames, admits)
    decreases |frames|
  {
    hide *;
    UnderwayGood(cfg, t, a, frames, history, live);
    if |frames| == 0 {
      BatchToldEnd(cfg, a, h, fs, frames, admits);
    } else {
      var f := frames[0];
      NextFrameTold(cfg, t, a, h, fs, frames, admits[0], history, live);
      FrameToldMeans(cfg, a, h, fs, f, admits[0]);
      UnderwayStep(cfg, t, a, frames, admits[0], history, live);
      match ApplyFrame(cfg, a, f, admits[0]) {
        case Going(b) =>
          ApplyTold(cfg, ValidateFrame(t, f).value, b, LogFrame(cfg, a, h, f, admits[0]), fs + [f], frames[1..],
                    admits[1..],
                    IdsAfter(cfg, Ids(a.s.streams.Keys, history), f, admits[0]).history, LiveAfter(live, f));
        case _ =>
      }
      BatchToldNext(cfg, a, h, fs, frames, admits);
    }
  }

  lemma FrameToldMeans(cfg: Config, a: Acc, h: map<nat, Tale>, fs: seq<Frame>, f: Frame, admit: bool)
    requires GoodConfig(cfg) && FrameTold(cfg, a, h, fs, f, admit)
    ensures match ApplyFrame(cfg, a, f, admit)
      case Going(b) => AllTold(b.s, LogFrame(cfg, a, h, f, admit), fs + [f])
      case _ => true
  {
    hide AllTold, ApplyFrame, LogFrame;
  }

  lemma UnderwayGood(cfg: Config, t: Trial, a: Acc, frames: seq<Frame>, history: seq<nat>, live: set<nat>)
    requires Underway(cfg, t, a, frames, history, live)
    ensures GoodConfig(cfg) && Structured(cfg, a.s) && Agrees(cfg, t, a.s, history)
    ensures frames != [] ==> ValidateFrame(t, frames[0]).Some?
  {
    hide Agrees, Inv;
    PanicOff(cfg, a.s, a.left);
  }

  // Backend steps: no frame is applied, and one stream's tale goes on.

  lemma SpreadStill(s: State, t: State, h: map<nat, Tale>, h': map<nat, Tale>, fs: seq<Frame>, at: nat)
    requires AllTold(s, h, fs) && OnlyAt(s, t, h, h', at) && Told(t, h', fs, at)
    ensures AllTold(t, h', fs)
  {
    hide Accounted, DataOf, OpenedIn, WindowTotal;
    forall id: nat
      ensures Told(t, h', fs, id)
    {
      if id != at {
        assert Told(s, h, fs, id);
        assert CellOf(t, h', id) == CellOf(s, h, id);
      }
    }
  }

  /** The write loop's steps leave the stream's credit alone. */
  lemma LoopKeepsCredit(c: Cell, e: Streams.Step)
    requires !e.CreditArrives? && !e.BytesSent? && !e.DataArrives?
    ensures var c' := Take(c, e);
      c'.stream.Some? ==> c.stream.Some? && c'.stream.value.sendCredit == c.stream.value.sendCredit
  {
  }

  /** A cell step that changes neither what was accepted nor what was queued. */
  lemma CellStepTold(s: State, t: State, h: map<nat, Tale>, fs: seq<Frame>, id: nat, e: Streams.Step, tale: Tale)
    requires Told(s, h, fs, id) && t.tombs == s.tombs && (id in t.streams ==> id in s.streams)
    requires tale == Of(h, id).(phase := tale.phase, written := tale.written)
    requires CellOf(t, h[id := tale], id) == Take(CellOf(s, h, id), e)
    requires !e.CreditArrives? && !e.BytesSent? && !e.DataArrives?
    ensures Told(t, h[id := tale], fs, id)
  {
    LoopKeepsCredit(CellOf(s, h, id), e);
    hide Accounted, DataOf, OpenedIn, Take;
    TakeAccounted(CellOf(s, h, id), e);
  }

  lemma TakeWriteTold(s: State, h: map<nat, Tale>, fs: seq<Frame>, id: nat)
    requires AllTold(s, h, fs) && Of(h, id).phase.Idle? && (s.closed ==> s.streams == map[])
    ensures AllTold(WriteTaken(s, id), h[id := Of(h, id).(phase := Take(CellOf(s, h, id), NextWrite).phase)], fs)
  {
    hide Told;
    var tale := Of(h, id).(phase := Take(CellOf(s, h, id), NextWrite).phase);
    var t := WriteTaken(s, id);
    assert Told(s, h, fs, id);
    CellStepTold(s, t, h, fs, id, NextWrite, tale);
    SpreadStill(s, t, h, h[id := tale], fs, id);
  }

  lemma SocketWritesTold(cfg: Config, s: State, h: map<nat, Tale>, fs: seq<Frame>, id: nat, count: nat)
    requires GoodConfig(cfg) && AllTold(s, h, fs) && (s.closed ==> s.streams == map[])
    requires Of(h, id).phase.Writing? && 0 < count <= |Of(h, id).phase.left|
    ensures var (t, ok) := BackendDrained(cfg, s, id, count);
      var cell := Take(CellOf(s, h, id), SocketWrites(count, ok));
      AllTold(t, h[id := Of(h, id).(phase := cell.phase, written := cell.written)], fs)
  {
    hide Told, QueueFrame, Release, Drain, PutUint32;
    var (t, ok) := BackendDrained(cfg, s, id, count);
    var cell := Take(CellOf(s, h, id), SocketWrites(count, ok));
    var tale := Of(h, id).(phase := cell.phase, written := cell.written);
    ReleaseShape(s, Charge(count, 0));
    if id in s.streams && Drain(s.streams[id], count).Some? {
      QueueFrameShape(cfg, Release(s, Charge(count, 0)).(streams := s.streams[id := Drain(s.streams[id], count).value]),
                      Frame(WINDOW, id, WindowPayload(count % TWO_32)));
    }
    assert Told(s, h, fs, id);
    CellStepTold(s, t, h, fs, id, SocketWrites(count, ok), tale);
    SpreadStill(s, t, h, h[id := tale], fs, id);
  }

  lemma WriteFinishesTold(s: State, h: map<nat, Tale>, fs: seq<Frame>, id: nat)
    requires AllTold(s, h, fs) && Of(h, id).phase == Writing([]) && (s.closed ==> s.streams == map[])
    ensures AllTold(BackendWriteFinished(s, id).0,
                    h[id := Of(h, id).(phase := Take(CellOf(s, h, id), WriteFinishes).phase)], fs)
  {
    hide Told, Release, FinishWrite;
    var tale := Of(h, id).(phase := Take(CellOf(s, h, id), WriteFinishes).phase);
    var t := BackendWriteFinished(s, id).0;
    ReleaseShape(s, Charge(QUEUE_ITEM_COST, 1));
    assert Told(s, h, fs, id);
    CellStepTold(s, t, h, fs, id, WriteFinishes, tale);
    SpreadStill(s, t, h, h[id := tale], fs, id);
  }

  lemma SocketFailsTold(s: State, h: map<nat, Tale>, fs: seq<Frame>, id: nat)
    requires AllTold(s, h, fs)
    ensures AllTold(s, h[id := Of(h, id).(phase := Streams.Stopped)], fs)
  {
    hide Told;
    var tale := Of(h, id).(phase := Streams.Stopped);
    assert Told(s, h, fs, id);
    CellStepTold(s, s, h, fs, id, SocketFails, tale);
    SpreadStill(s, s, h, h[id := tale], fs, id);
  }

  /** What ReadData leaves in a tale. */
  function AfterRead(tale: Tale, data: Bytes, ok: bool): Tale {
    tale.(fromBackend := tale.fromBackend + data, reading := ok,
          queued := if ok then tale.queued + data else tale.queued)
  }

  lemma ReadDataTold(cfg: Config, s: State, h: map<nat, Tale>, fs: seq<Frame>, id: nat, data: Bytes)
    requires GoodConfig(cfg) && AllTold(s, h, fs) && Of(h, id).reading
    ensures var (t, ok) := BackendData(cfg, s, id, data);
      AllTold(t, h[id := AfterRead(Of(h, id), data, ok)], fs)
  {
    hide QueueFrame, DataOf, OpenedIn, Accounted;
    var (t, ok) := BackendData(cfg, s, id, data);
    var h' := h[id := AfterRead(Of(h, id), data, ok)];
    if id in s.streams {
      QueueFrameShape(cfg, s.(streams := s.streams[id := SpendCredit(s.streams[id], |data|)]), Frame(DATA, id, data));
    }
    assert Told(s, h, fs, id);
    TakeAccounted(CellOf(s, h, id), BytesSent(|data|));
    assert CellOf(t, h', id) == CellOf(s, h, id) || CellOf(t, h', id) == Take(CellOf(s, h, id), BytesSent(|data|));
    SpreadStill(s, t, h, h', fs, id);
  }

  lemma BackendGoneTold(cfg: Config, s: State, h: map<nat, Tale>, fs: seq<Frame>, id: nat, backend: int)
    requires GoodConfig(cfg) && AllTold(s, h, fs)
    ensures AllTold(BackendClosed(cfg, s, id, backend), h, fs)
  {
    hide QueueFrame, CloseStream, CloseSession, Told, Remember;
    var t := BackendClosed(cfg, s, id, backend);
    if !s.closed && id in s.streams && s.streams[id].backend == backend {
      var gone := CloseStream(cfg, s, id);
      CloseStreamShape(cfg, s, id);
      RememberMembers(cfg, s, id);
      assert Told(s, h, fs, id);
      GoneTold(s, gone, h, fs, id);
      SpreadStill(s, gone, h, h, fs, id);
      QueueFrameShape(cfg, gone, Frame(CLOSE, id, []));
      if QueueFrame(cfg, gone, Frame(CLOSE, id, [])).Some? {
        SameTold(gone, t, h, fs);
      } else {
        ClosingTold(gone, h, fs);
      }
    }
  }

  lemma SameTold(s: State, t: State, h: map<nat, Tale>, fs: seq<Frame>)
    requires AllTold(s, h, fs) && t.streams == s.streams && t.tombs == s.tombs
    ensures AllTold(t, h, fs)
  {
    hide Accounted, DataOf, OpenedIn, WindowTotal;
    forall id: nat
      ensures Told(t, h, fs, id)
    {
      assert Told(s, h, fs, id);
      assert CellOf(t, h, id) == CellOf(s, h, id);
    }
  }

  lemma ClosingTold(s: State, h: map<nat, Tale>, fs: seq<Frame>)
    requires AllTold(s, h, fs)
    ensures AllTold(CloseSession(s), h, fs)
  {
    hide Told;
    var t := CloseSession(s);
    forall id: nat
      ensures Told(t, h, fs, id)
    {
      assert Told(s, h, fs, id);
      if id in s.streams && !s.closed {
        GoneTold(s, t, h, fs, id);
      } else {
        StillTold(s, t, h, fs, id);
      }
    }
  }

  lemma StillTold(s: State, t: State, h: map<nat, Tale>, fs: seq<Frame>, id: nat)
    requires Told(s, h, fs, id) && t.tombs == s.tombs
    requires (id in t.streams <==> id in s.streams) && (id in s.streams ==> t.streams[id] == s.streams[id])
    ensures Told(t, h, fs, id)
  {
    hide Accounted, DataOf, OpenedIn, WindowTotal;
    assert CellOf(t, h, id) == CellOf(s, h, id);
  }
}

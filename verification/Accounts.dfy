/**
 * What each live stream of a session has had since its OPEN: credit granted and spent, payloads accepted,
 * chunks handed to its write loop. It is written down from the frames applied and the calls answered, in
 * every run of a session, whatever its carrier mode, its clients and the backends' loops do.
 */
module Accounts {
  import opened Octets
  import opened Outcomes
  import opened Frames
  import opened Limits
  import opened Queue
  import opened Streams
  import opened SessionState
  import opened Batch
  import opened SessionSteps
  import opened UplinkSteps

  /**
   * `granted` sums the WINDOW amounts applied. `sent` counts the DATA bytes queued for the client, `burned`
   * those within the credit that found no room in its queue. `capped` is set once a WINDOW has taken the
   * credit owed past MAX_UINT32. `accepted` are the payloads of the DATA frames applied, `taken` the chunks
   * nextWrite has handed out, `drained` and `finished` the bytes and chunks reported back.
   */
  datatype Account = Account(granted: nat, sent: nat, burned: nat, capped: bool,
                             accepted: seq<Bytes>, taken: seq<Bytes>, drained: int, finished: nat)

  const NEW_ACCOUNT := Account(0, 0, 0, false, [], [], 0, 0)

  function At(h: map<nat, Account>, id: nat): Account {
    if id in h then h[id] else NEW_ACCOUNT
  }

  function Owed(acct: Account): int {
    INITIAL_STREAM_WINDOW + acct.granted - acct.sent - acct.burned
  }

  function Granting(acct: Account, amount: nat): Account {
    acct.(granted := acct.granted + amount, capped := acct.capped || Owed(acct) + amount > MAX_UINT32)
  }

  function Reading(acct: Account, data: Bytes, ok: bool): Account {
    if ok then acct.(sent := acct.sent + |data|)
    else if 0 < |data| <= Owed(acct) then acct.(burned := acct.burned + |data|)
    else acct
  }

  /** From `s` to `t` one frame of a batch has been applied. */
  function FrameBooked(s: State, t: State, h: map<nat, Account>, f: Frame): map<nat, Account> {
    if f.id == 0 || f.id !in t.streams then h
    else if f.kind == OPEN then if t.nextBackend != s.nextBackend then h[f.id := NEW_ACCOUNT] else h
    else if f.id in s.tombs then h
    else if f.kind == DATA then h[f.id := At(h, f.id).(accepted := At(h, f.id).accepted + [f.payload])]
    else if f.kind == WINDOW then h[f.id := Granting(At(h, f.id), Amount(f.payload))]
    else h
  }

  function BatchBooked(cfg: Config, a: Acc, h: map<nat, Account>, frames: seq<Frame>,
                       admits: seq<bool>): map<nat, Account>
    requires GoodConfig(cfg) && |admits| == |frames|
    decreases |frames|
  {
    if frames == [] then h
    else
      match ApplyFrame(cfg, a, frames[0], admits[0])
      case Going(b) => BatchBooked(cfg, b, FrameBooked(a.s, b.s, h, frames[0]), frames[1..], admits[1..])
      case Aborted(b) => FrameBooked(a.s, b.s, h, frames[0])
      case NilStream => h
  }

  /** The account of a live stream after a call of its backend's loops. */
  function CallBooked(cfg: Config, s: State, acct: Account, id: nat, e: Event): Account
    requires GoodConfig(cfg) && id in s.streams
  {
    match e
    case TakeWrite(_) =>
      if s.streams[id].writes == [] then acct else acct.(taken := acct.taken + [s.streams[id].writes[0]])
    case Drained(_, amount) =>
      if Drain(s.streams[id], amount).Some? then acct.(drained := acct.drained + amount) else acct
    case WriteFinished(_) =>
      if FinishWrite(s.streams[id]).Some? then acct.(finished := acct.finished + 1) else acct
    case ReadData(_, data) =>
      if |data| > DATA_CHUNK then acct else Reading(acct, data, BackendData(cfg, s, id, data).1)
    case _ => acct
  }

  function Booked(cfg: Config, s: State, h: map<nat, Account>, e: Event): map<nat, Account>
    requires GoodConfig(cfg)
  {
    if LoopCall(e) then
      if s.closed || e.id !in s.streams then h else h[e.id := CallBooked(cfg, s, At(h, e.id), e.id, e)]
    else
      match Batched(cfg, s, e)
      case None => h
      case Some(r) =>
        if Apply(cfg, r.a, r.frames, e.admits).NilStream? then h else BatchBooked(cfg, r.a, h, r.frames, e.admits)
  }

  function AccountsAfter(cfg: Config, pool: Charge, events: seq<Event>): map<nat, Account>
    requires GoodConfig(cfg)
  {
    if events == [] then map[]
    else
      var before := events[..|events| - 1];
      Booked(cfg, SessionSteps.Run(cfg, pool, before), AccountsAfter(cfg, pool, before), events[|events| - 1])
  }

  // What an account says of its stream.

  ghost predicate Credited(st: Stream, acct: Account) {
    && st.sendCredit + acct.sent <= INITIAL_STREAM_WINDOW + acct.granted
    && (!acct.capped ==> st.sendCredit == Owed(acct) <= MAX_UINT32)
  }

  /** A chunk is nonempty, and larger than DATA_CHUNK only as one payload accepted. */
  predicate GoodChunk(chunk: Bytes, accepted: seq<Bytes>) {
    chunk != [] && (|chunk| <= DATA_CHUNK || chunk in accepted)
  }

  predicate GoodChunks(writes: seq<Bytes>, accepted: seq<Bytes>) {
    forall i | 0 <= i < |writes| :: GoodChunk(writes[i], accepted)
  }

  /** No chunk would have fitted into the one before it. */
  predicate Packed(writes: seq<Bytes>) {
    forall i | 0 < i < |writes| :: |writes[i - 1]| + |writes[i]| > DATA_CHUNK
  }

  ghost predicate Buffered(st: Stream, acct: Account) {
    && GoodChunks(st.writes, acct.accepted) && Packed(st.writes)
    && Flatten(acct.accepted) == Flatten(acct.taken) + Flatten(st.writes)
    && st.pendingWriteBytes == |Flatten(acct.accepted)| - acct.drained
    && st.pendingWriteItems == |acct.taken| + |st.writes| - acct.finished
  }

  ghost predicate Settles(st: Stream, acct: Account) {
    Credited(st, acct) && Buffered(st, acct)
  }

  ghost predicate AllSettled(s: State, h: map<nat, Account>) {
    forall id | id in s.streams :: Settles(s.streams[id], At(h, id))
  }

  lemma NewSettles(backend: int)
    ensures Settles(NewStream(backend), NEW_ACCOUNT)
  {
  }

  lemma MoreAccepted(writes: seq<Bytes>, accepted: seq<Bytes>, payload: Bytes)
    requires GoodChunks(writes, accepted)
    ensures GoodChunks(writes, accepted + [payload])
  {
  }

  /** Where a payload goes keeps the shape of the buffer. */
  lemma AcceptKeepsShape(st: Stream, accepted: seq<Bytes>, payload: Bytes)
    requires GoodChunks(st.writes, accepted) && Packed(st.writes) && payload != []
    ensures GoodChunks(AcceptData(st, payload).writes, accepted + [payload]) && Packed(AcceptData(st, payload).writes)
  {
    MoreAccepted(st.writes, accepted, payload);
    hide AppendCharge;
    var writes := AcceptData(st, payload).writes;
    assert payload in accepted + [payload];
    forall i | 0 <= i < |writes|
      ensures GoodChunk(writes[i], accepted + [payload])
    {
      if i < |st.writes| - 1 {
        assert writes[i] == st.writes[i];
      } else if i < |st.writes| {
        assert GoodChunk(st.writes[i], accepted + [payload]);
      }
    }
  }

  lemma AcceptSettles(st: Stream, acct: Account, payload: Bytes)
    requires Settles(st, acct) && payload != []
    ensures Settles(AcceptData(st, payload), acct.(accepted := acct.accepted + [payload]))
  {
    AcceptKeepsShape(st, acct.accepted, payload);
    AcceptAppends(st, payload);
    FlattenSnoc(acct.accepted, payload);
    assert Flatten(acct.taken) + (Flatten(st.writes) + payload) == (Flatten(acct.taken) + Flatten(st.writes)) + payload;
    hide GoodChunks, Packed, Flatten, Coalesces;
  }

  lemma GrantSettles(st: Stream, acct: Account, amount: nat)
    requires Settles(st, acct)
    ensures Settles(AddCredit(st, amount), Granting(acct, amount))
  {
    hide GoodChunks, Packed, Flatten;
  }

  // One uplink batch.

  /** The table of streams after one changes, and the accounts with it. */
  lemma OneSettled(s: State, t: State, h: map<nat, Account>, id: nat, st: Stream, acct: Account)
    requires AllSettled(s, h) && Settles(st, acct)
    requires t.streams == s.streams[id := st]
    ensures AllSettled(t, h[id := acct])
  {
    hide Settles;
  }

  lemma FewerSettled(s: State, t: State, h: map<nat, Account>)
    requires AllSettled(s, h)
    requires forall id | id in t.streams :: id in s.streams && t.streams[id] == s.streams[id]
    ensures AllSettled(t, h)
  {
    hide Settles;
  }

  /** A refused OPEN touches no stream; an admitted one starts a new account. */
  lemma OpenSettled(cfg: Config, a: Acc, h: map<nat, Account>, f: Frame, admit: bool)
    requires GoodConfig(cfg) && AllSettled(a.s, h) && f.id != 0 && f.kind == OPEN
    ensures match OpenFrame(cfg, a, f, admit)
      case Going(b) => AllSettled(b.s, FrameBooked(a.s, b.s, h, f))
      case Aborted(b) => AllSettled(b.s, FrameBooked(a.s, b.s, h, f))
      case NilStream => true
  {
    hide Settles, AllSettled, RememberClosed, QueueFrame;
    RememberClosedShape(cfg, a.s, f.id);
    QueueFrameShape(cfg, RememberClosed(cfg, a.s, f.id), Frame(CLOSE, f.id, []));
    match OpenFrame(cfg, a, f, admit)
    case Going(b) =>
      if b.s.nextBackend != a.s.nextBackend {
        NewSettles(a.s.nextBackend);
        OneSettled(a.s, b.s, h, f.id, NewStream(a.s.nextBackend), NEW_ACCOUNT);
      } else {
        FewerSettled(a.s, b.s, h);
      }
    case Aborted(b) => FewerSettled(a.s, b.s, h);
    case NilStream =>
  }

  lemma FrameSettled(cfg: Config, a: Acc, h: map<nat, Account>, f: Frame, admit: bool)
    requires GoodConfig(cfg) && AllSettled(a.s, h) && ValidClientShape(f)
    ensures match ApplyFrame(cfg, a, f, admit)
      case Going(b) => AllSettled(b.s, FrameBooked(a.s, b.s, h, f))
      case Aborted(b) => AllSettled(b.s, FrameBooked(a.s, b.s, h, f))
      case NilStream => true
  {
    hide Settles, AllSettled, OpenFrame, CloseStream, AcceptData, AddCredit, AppendCharge, Granting, Amount;
    if f.id != 0 && f.kind == OPEN {
      OpenSettled(cfg, a, h, f, admit);
    } else if f.id != 0 && f.id !in a.s.tombs && f.id in a.s.streams {
      var st, acct := a.s.streams[f.id], At(h, f.id);
      assert Settles(st, acct) by {
        SettledAt(a.s, h, f.id);
      }
      if f.kind == DATA {
        AcceptSettles(st, acct, f.payload);
        var st' := AcceptData(st, f.payload);
        OneSettled(a.s, a.s.(streams := a.s.streams[f.id := st']), h, f.id, st',
                   acct.(accepted := acct.accepted + [f.payload]));
      } else if f.kind == WINDOW {
        GrantSettles(st, acct, Amount(f.payload));
        var st' := AddCredit(st, Amount(f.payload));
        OneSettled(a.s, a.s.(streams := a.s.streams[f.id := st']), h, f.id, st', Granting(acct, Amount(f.payload)));
      } else if f.kind == CLOSE {
        CloseStreamShape(cfg, a.s, f.id);
        FewerSettled(a.s, CloseStream(cfg, a.s, f.id), h);
      }
    }
  }

  lemma SettledAt(s: State, h: map<nat, Account>, id: nat)
    requires AllSettled(s, h) && id in s.streams
    ensures Settles(s.streams[id], At(h, id))
  {
    hide Settles;
  }

  lemma {:induction false} BatchSettled(cfg: Config, a: Acc, h: map<nat, Account>, frames: seq<Frame>,
                                        admits: seq<bool>)
    requires GoodConfig(cfg) && |admits| == |frames| && AllSettled(a.s, h) && AllClientShaped(frames)
    ensures match Apply(cfg, a, frames, admits)
      case Going(b) => AllSettled(b.s, BatchBooked(cfg, a, h, frames, admits))
      case Aborted(b) => AllSettled(b.s, BatchBooked(cfg, a, h, frames, admits))
      case NilStream => true
    decreases |frames|
  {
    hide AllSettled, ApplyFrame, FrameBooked, ValidClientShape;
    if frames != [] {
      FrameSettled(cfg, a, h, frames[0], admits[0]);
      match ApplyFrame(cfg, a, frames[0], admits[0])
      case Going(b) => BatchSettled(cfg, b, FrameBooked(a.s, b.s, h, frames[0]), frames[1..], admits[1..]);
      case _ =>
    }
  }

  lemma UplinkSettled(cfg: Config, s: State, h: map<nat, Account>, e: Event)
    requires GoodConfig(cfg) && AllSettled(s, h) && (e.Finish? || e.UpLane?)
    ensures AllSettled(SessionSteps.Step(cfg, s, e), Booked(cfg, s, h, e))
  {
    hide AllSettled, Apply, BatchBooked, SessionSteps.Step, Batched;
    UplinkStreams(cfg, s, e);
    var t := SessionSteps.Step(cfg, s, e);
    match Batched(cfg, s, e)
    case None => SameSettled(s, t, h);
    case Some(r) =>
      BatchedShaped(cfg, s, e);
      SameSettled(s, r.a.s, h);
      BatchSettled(cfg, r.a, h, r.frames, e.admits);
      match Apply(cfg, r.a, r.frames, e.admits) {
        case Going(b) => SameSettled(b.s, t, BatchBooked(cfg, r.a, h, r.frames, e.admits));
        case Aborted(b) => SameSettled(b.s, t, BatchBooked(cfg, r.a, h, r.frames, e.admits));
        case NilStream => SameSettled(s, t, h);
      }
  }

  lemma SameSettled(s: State, t: State, h: map<nat, Account>)
    requires AllSettled(s, h) && t.streams == s.streams
    ensures AllSettled(t, h)
  {
    hide Settles;
  }

  // The calls of a backend's loops.

  lemma TakingSettles(st: Stream, acct: Account)
    requires Settles(st, acct) && st.writes != []
    ensures Settles(PopWrite(st), acct.(taken := acct.taken + [st.writes[0]]))
  {
    var writes := st.writes[1..];
    FlattenSnoc(acct.taken, st.writes[0]);
    var taken := Flatten(acct.taken);
    assert (taken + st.writes[0]) + Flatten(writes) == taken + (st.writes[0] + Flatten(writes));
    assert GoodChunks(writes, acct.accepted) by {
      assert forall i | 0 <= i < |writes| :: writes[i] == st.writes[i + 1];
    }
    assert Packed(writes);
  }

  lemma ReportsSettle(st: Stream, acct: Account, amount: int)
    requires Settles(st, acct)
    ensures Drain(st, amount).Some? ==>
      Settles(Drain(st, amount).value, acct.(drained := acct.drained + amount))
    ensures FinishWrite(st).Some? ==>
      Settles(FinishWrite(st).value, acct.(finished := acct.finished + 1))
  {
    hide GoodChunks, Packed, Flatten;
  }

  /** backendData spends what it sends, and what it fails to send for want of room. */
  lemma ReadingSettles(cfg: Config, s: State, id: nat, acct: Account, data: Bytes)
    requires GoodConfig(cfg) && !s.closed && id in s.streams && Settles(s.streams[id], acct)
    ensures var (t, ok) := BackendData(cfg, s, id, data);
      && id in t.streams && t.streams == s.streams[id := t.streams[id]]
      && Settles(t.streams[id], Reading(acct, data, ok))
  {
    hide GoodChunks, Packed, Flatten, QueueFrame;
    var spent := s.(streams := s.streams[id := SpendCredit(s.streams[id], |data|)]);
    QueueFrameShape(cfg, spent, Frame(DATA, id, data));
    assert s.streams == s.streams[id := s.streams[id]];
  }

  lemma CallShape(cfg: Config, s: State, id: nat, amount: int)
    requires GoodConfig(cfg)
    ensures var t := BackendDrained(cfg, s, id, amount).0;
      t.streams == if s.closed || id !in s.streams || Drain(s.streams[id], amount).None? then s.streams
                   else s.streams[id := Drain(s.streams[id], amount).value]
    ensures var t := BackendWriteFinished(s, id).0;
      t.streams == if s.closed || id !in s.streams || FinishWrite(s.streams[id]).None? then s.streams
                   else s.streams[id := FinishWrite(s.streams[id]).value]
  {
    hide Release, QueueFrame, Drain, FinishWrite, PutUint32;
    ReleaseShape(s, Charge(amount, 0));
    ReleaseShape(s, Charge(QUEUE_ITEM_COST, 1));
    if id in s.streams && Drain(s.streams[id], amount).Some? {
      var drained := Release(s, Charge(amount, 0)).(streams := s.streams[id := Drain(s.streams[id], amount).value]);
      QueueFrameShape(cfg, drained, Frame(WINDOW, id, WindowPayload(amount % TWO_32)));
    }
  }

  lemma CallSettled(cfg: Config, s: State, h: map<nat, Account>, e: Event)
    requires GoodConfig(cfg) && AllSettled(s, h) && LoopCall(e)
    ensures AllSettled(SessionSteps.Step(cfg, s, e), Booked(cfg, s, h, e))
  {
    hide AllSettled, Settles, Drain, FinishWrite, BackendData, BackendDrained, BackendWriteFinished, Reading;
    var t, id := SessionSteps.Step(cfg, s, e), e.id;
    if s.closed || id !in s.streams {
      IdleCall(cfg, s, e);
      SameSettled(s, t, h);
    } else {
      var st, acct := s.streams[id], At(h, id);
      SettledAt(s, h, id);
      assert s.streams == s.streams[id := st];
      match e {
        case TakeWrite(_) =>
          if st.writes == [] {
            OneSettled(s, t, h, id, st, acct);
          } else {
            TakingSettles(st, acct);
            OneSettled(s, t, h, id, PopWrite(st), acct.(taken := acct.taken + [st.writes[0]]));
          }
        case Drained(_, amount) =>
          ReportsSettle(st, acct, amount);
          CallShape(cfg, s, id, amount);
          OneSettled(s, t, h, id, t.streams[id], CallBooked(cfg, s, acct, id, e));
        case WriteFinished(_) =>
          ReportsSettle(st, acct, 0);
          CallShape(cfg, s, id, 0);
          OneSettled(s, t, h, id, t.streams[id], CallBooked(cfg, s, acct, id, e));
        case ReadData(_, data) =>
          ReadingSettles(cfg, s, id, acct, data);
          OneSettled(s, t, h, id, t.streams[id], CallBooked(cfg, s, acct, id, e));
      }
    }
  }

  lemma IdleCall(cfg: Config, s: State, e: Event)
    requires GoodConfig(cfg) && LoopCall(e) && (s.closed || e.id !in s.streams)
    ensures SessionSteps.Step(cfg, s, e) == s
  {
  }

  lemma BatchedShaped(cfg: Config, s: State, e: Event)
    requires GoodConfig(cfg) && Batched(cfg, s, e).Some?
    ensures Readable(cfg, e.body) == Some(Batched(cfg, s, e).value.frames)
    ensures AllClientShaped(Batched(cfg, s, e).value.frames)
  {
    hide Validate, AllClientShaped, Parsed;
  }

  lemma StepSettled(cfg: Config, s: State, h: map<nat, Account>, e: Event)
    requires GoodConfig(cfg) && AllSettled(s, h)
    ensures AllSettled(SessionSteps.Step(cfg, s, e), Booked(cfg, s, h, e))
  {
    hide AllSettled, SessionSteps.Step, Booked;
    if e.Finish? || e.UpLane? {
      UplinkSettled(cfg, s, h, e);
    } else if LoopCall(e) {
      CallSettled(cfg, s, h, e);
    } else {
      OthersRemove(cfg, s, e);
      FewerSettled(s, SessionSteps.Step(cfg, s, e), h);
      NothingBooked(cfg, s, h, e);
    }
  }

  lemma NothingBooked(cfg: Config, s: State, h: map<nat, Account>, e: Event)
    requires GoodConfig(cfg) && !e.Finish? && !e.UpLane? && !LoopCall(e)
    ensures Booked(cfg, s, h, e) == h
  {
  }

  lemma {:induction false} RunSettled(cfg: Config, pool: Charge, events: seq<Event>)
    requires GoodConfig(cfg)
    ensures AllSettled(SessionSteps.Run(cfg, pool, events), AccountsAfter(cfg, pool, events))
  {
    hide AllSettled, SessionSteps.Step, Booked;
    if |events| == 0 {
      StartSettled(cfg, pool);
    } else {
      var before := events[..|events| - 1];
      RunSettled(cfg, pool, before);
      StepSettled(cfg, SessionSteps.Run(cfg, pool, before), AccountsAfter(cfg, pool, before), events[|events| - 1]);
    }
  }

  lemma StartSettled(cfg: Config, pool: Charge)
    requires GoodConfig(cfg)
    ensures AllSettled(NewSession(cfg, pool), map[])
  {
  }

  /**
   * A live stream's credit is the initial window and every WINDOW applied since its OPEN, less every byte
   * queued for the client or lost for want of room in its queue. Once a WINDOW has taken it past MAX_UINT32
   * it is at most that.
   */
  lemma CreditIsExact(cfg: Config, pool: Charge, events: seq<Event>, id: nat)
    requires GoodConfig(cfg) && id in SessionSteps.Run(cfg, pool, events).streams
    ensures var credit, acct :=
        SessionSteps.Run(cfg, pool, events).streams[id].sendCredit, At(AccountsAfter(cfg, pool, events), id);
      && credit + acct.sent <= INITIAL_STREAM_WINDOW + acct.granted
      && (!acct.capped ==> credit + acct.sent + acct.burned == INITIAL_STREAM_WINDOW + acct.granted)
  {
    hide SessionSteps.Run, AccountsAfter, Buffered;
    RunSettled(cfg, pool, events);
    SettledAt(SessionSteps.Run(cfg, pool, events), AccountsAfter(cfg, pool, events), id);
  }

  /** What a backend has read is queued if and only if its history leaves credit for it and the budget has room. */
  lemma DataIsQueuedIff(cfg: Config, pool: Charge, events: seq<Event>, id: nat, data: Bytes)
    requires GoodConfig(cfg) && id in SessionSteps.Run(cfg, pool, events).streams
    requires !At(AccountsAfter(cfg, pool, events), id).capped
    ensures var s, acct := SessionSteps.Run(cfg, pool, events), At(AccountsAfter(cfg, pool, events), id);
      var k, f := cfg.LaneOf(id), Frame(DATA, id, data);
      BackendData(cfg, s, id, data).1 <==>
        && !s.closed && k in s.lanes
        && data != [] && acct.sent + acct.burned + |data| <= INITIAL_STREAM_WINDOW + acct.granted
        && Reserve(cfg, s, PushCharge(s.lanes[k].down.queue, f, cfg.limits.maxFramePayload), Downlink).Some?
  {
    hide SessionSteps.Run, AccountsAfter, SessionAdmits, PoolAdmits, Push, PushCharge, Charge.Plus;
    CreditIsExact(cfg, pool, events, id);
    var s := SessionSteps.Run(cfg, pool, events);
    if cfg.LaneOf(id) in s.lanes {
      DataIsNotMerged(s.lanes[cfg.LaneOf(id)].down.queue, Frame(DATA, id, data), cfg.limits.maxFramePayload);
    }
  }

  lemma DataIsNotMerged(q: seq<Frame>, f: Frame, maxPayload: nat)
    requires f.kind == DATA
    ensures !Place(q, f, maxPayload).MergeWindow? && PushClass(f) == Downlink
  {
  }

  /**
   * Every buffered chunk of a live stream is nonempty, and at most DATA_CHUNK bytes or exactly one DATA
   * frame's payload; any two neighbours together exceed DATA_CHUNK. The chunks handed out and those still
   * buffered spell the accepted payloads, in order.
   */
  lemma BufferIsPacked(cfg: Config, pool: Charge, events: seq<Event>, id: nat)
    requires GoodConfig(cfg) && id in SessionSteps.Run(cfg, pool, events).streams
    ensures var writes, acct :=
        SessionSteps.Run(cfg, pool, events).streams[id].writes, At(AccountsAfter(cfg, pool, events), id);
      && (forall i | 0 <= i < |writes| ::
            writes[i] != [] && (|writes[i]| <= DATA_CHUNK || writes[i] in acct.accepted))
      && (forall i | 0 < i < |writes| :: |writes[i - 1]| + |writes[i]| > DATA_CHUNK)
      && Flatten(acct.accepted) == Flatten(acct.taken) + Flatten(writes)
  {
    hide SessionSteps.Run, AccountsAfter, Credited, Flatten;
    RunSettled(cfg, pool, events);
    SettledAt(SessionSteps.Run(cfg, pool, events), AccountsAfter(cfg, pool, events), id);
    var writes, acct :=
      SessionSteps.Run(cfg, pool, events).streams[id].writes, At(AccountsAfter(cfg, pool, events), id);
    assert forall i | 0 <= i < |writes| :: GoodChunk(writes[i], acct.accepted);
  }

  // How many items a buffer is counted as.

  function LargestChunk(cfg: Config): int {
    if cfg.limits.maxFramePayload > DATA_CHUNK then cfg.limits.maxFramePayload else DATA_CHUNK
  }

  predicate AllWithin(chunks: seq<Bytes>, limit: int) {
    forall i | 0 <= i < |chunks| :: |chunks[i]| <= limit
  }

  /** Packed chunks: every second one brings more than DATA_CHUNK bytes with its neighbour. */
  lemma {:induction false} PackedBytes(writes: seq<Bytes>, limit: int)
    requires Packed(writes) && AllWithin(writes, limit) && forall i | 0 <= i < |writes| :: writes[i] != []
    ensures |writes| <= |Flatten(writes)| && |writes| / 2 * (DATA_CHUNK + 1) <= |Flatten(writes)|
    ensures |Flatten(writes)| <= |writes| * limit
  {
    if |writes| == 1 {
      FlattenOne(writes[0]);
      assert writes == [writes[0]];
    } else if |writes| >= 2 {
      var rest := writes[2..];
      assert Packed(rest) by {
        assert forall i | 0 <= i < |rest| :: rest[i] == writes[i + 2];
      }
      PackedBytes(rest, limit);
      assert writes[1..][1..] == rest;
      assert |Flatten(writes)| == |writes[0]| + |writes[1]| + |Flatten(rest)|;
      assert |writes[0]| + |writes[1]| > DATA_CHUNK;
      TwoMore(|rest|, limit);
    }
  }

  lemma TwoMore(n: nat, limit: int)
    ensures (n + 2) * limit == n * limit + limit + limit
    ensures (n + 2) / 2 == n / 2 + 1
  {
  }

  ghost predicate AcceptedWithin(h: map<nat, Account>, limit: int) {
    forall id | id in h :: AllWithin(h[id].accepted, limit)
  }

  lemma FrameWithin(s: State, t: State, h: map<nat, Account>, f: Frame, limit: int)
    requires AcceptedWithin(h, limit) && |f.payload| <= limit
    ensures AcceptedWithin(FrameBooked(s, t, h, f), limit)
  {
    hide Amount;
  }

  lemma {:induction false} BatchWithin(cfg: Config, a: Acc, h: map<nat, Account>, frames: seq<Frame>,
                                       admits: seq<bool>, limit: nat)
    requires GoodConfig(cfg) && |admits| == |frames| && AcceptedWithin(h, limit) && AllFit(frames, limit)
    ensures AcceptedWithin(BatchBooked(cfg, a, h, frames, admits), limit)
    decreases |frames|
  {
    hide AcceptedWithin, ApplyFrame, FrameBooked;
    if frames != [] {
      match ApplyFrame(cfg, a, frames[0], admits[0])
      case Going(b) =>
        FrameWithin(a.s, b.s, h, frames[0], limit);
        BatchWithin(cfg, b, FrameBooked(a.s, b.s, h, frames[0]), frames[1..], admits[1..], limit);
      case Aborted(b) => FrameWithin(a.s, b.s, h, frames[0], limit);
      case NilStream =>
    }
  }

  lemma ReadableWithin(cfg: Config, body: Bytes)
    requires GoodConfig(cfg)
    ensures Readable(cfg, body).Some? ==> AllFit(Readable(cfg, body).value, cfg.limits.maxFramePayload)
  {
    hide Parsed;
    ParseIsCanonical(body, cfg.limits.maxFramePayload);
  }

  lemma StepWithin(cfg: Config, s: State, h: map<nat, Account>, e: Event)
    requires GoodConfig(cfg) && AcceptedWithin(h, cfg.limits.maxFramePayload)
    ensures AcceptedWithin(Booked(cfg, s, h, e), cfg.limits.maxFramePayload)
  {
    hide Batched, BatchBooked, Apply, BackendData, Drain, FinishWrite, Readable;
    match Batched(cfg, s, e)
    case Some(r) =>
      BatchedShaped(cfg, s, e);
      ReadableWithin(cfg, e.body);
      BatchWithin(cfg, r.a, h, r.frames, e.admits, cfg.limits.maxFramePayload);
    case None =>
  }

  lemma {:induction false} RunWithin(cfg: Config, pool: Charge, events: seq<Event>)
    requires GoodConfig(cfg)
    ensures AcceptedWithin(AccountsAfter(cfg, pool, events), cfg.limits.maxFramePayload)
  {
    hide SessionSteps.Run, Booked, AllWithin;
    if |events| > 0 {
      var before := events[..|events| - 1];
      RunWithin(cfg, pool, before);
      StepWithin(cfg, SessionSteps.Run(cfg, pool, before), AccountsAfter(cfg, pool, before), events[|events| - 1]);
    }
  }

  lemma ChunksWithin(cfg: Config, writes: seq<Bytes>, accepted: seq<Bytes>)
    requires GoodConfig(cfg) && GoodChunks(writes, accepted) && AllWithin(accepted, cfg.limits.maxFramePayload)
    ensures AllWithin(writes, LargestChunk(cfg)) && forall i | 0 <= i < |writes| :: writes[i] != []
  {
    forall i | 0 <= i < |writes|
      ensures |writes[i]| <= LargestChunk(cfg) && writes[i] != []
    {
      assert GoodChunk(writes[i], accepted);
    }
  }

  lemma TimesChunk(a: int, b: int)
    ensures a >= b ==> a * (DATA_CHUNK + 1) >= b * (DATA_CHUNK + 1)
  {
  }

  lemma Halves(items: nat, bytes: nat, more: int, total: int)
    requires items / 2 * (DATA_CHUNK + 1) <= bytes <= total && more <= 1
    ensures items <= 2 * (bytes / (DATA_CHUNK + 1)) + 1
    ensures items + more <= 2 * (total / (DATA_CHUNK + 1)) + 2
  {
    var q := bytes / (DATA_CHUNK + 1);
    assert bytes < (q + 1) * (DATA_CHUNK + 1);
    TimesChunk(items / 2, q + 1);
  }

  /**
   * The items a live stream is counted as and its pending bytes bound each other: apart from what has been
   * handed out and not reported back, every two items hold more than DATA_CHUNK bytes and none more than the
   * largest chunk. So do the counters as they are, if the loop has at most one chunk in hand and has
   * reported no more than it was given.
   */
  lemma ItemsFollowBytes(cfg: Config, pool: Charge, events: seq<Event>, id: nat)
    requires GoodConfig(cfg) && id in SessionSteps.Run(cfg, pool, events).streams
    ensures var st, acct := SessionSteps.Run(cfg, pool, events).streams[id], At(AccountsAfter(cfg, pool, events), id);
      var inHand, unreported := |acct.taken| - acct.finished, |Flatten(acct.taken)| - acct.drained;
      var items, bytes := st.pendingWriteItems - inHand, st.pendingWriteBytes - unreported;
      && 0 <= items <= bytes <= items * LargestChunk(cfg)
      && items <= 2 * (bytes / (DATA_CHUNK + 1)) + 1
      && (inHand <= 1 && unreported >= 0 ==>
            st.pendingWriteItems <= 2 * (st.pendingWriteBytes / (DATA_CHUNK + 1)) + 2)
      && (0 <= inHand && unreported <= inHand * LargestChunk(cfg) ==>
            st.pendingWriteBytes <= st.pendingWriteItems * LargestChunk(cfg))
  {
    hide SessionSteps.Run, AccountsAfter, Credited, Flatten, GoodChunks, Packed, AllWithin, AcceptedWithin;
    RunSettled(cfg, pool, events);
    RunWithin(cfg, pool, events);
    var h := AccountsAfter(cfg, pool, events);
    var st, acct := SessionSteps.Run(cfg, pool, events).streams[id], At(h, id);
    SettledAt(SessionSteps.Run(cfg, pool, events), h, id);
    AccountWithin(h, id, cfg.limits.maxFramePayload);
    ChunksWithin(cfg, st.writes, acct.accepted);
    PackedBytes(st.writes, LargestChunk(cfg));
    var inHand, unreported := |acct.taken| - acct.finished, |Flatten(acct.taken)| - acct.drained;
    if unreported >= 0 && inHand <= 1 {
      Halves(|st.writes|, |Flatten(st.writes)|, inHand, st.pendingWriteBytes);
    } else {
      Halves(|st.writes|, |Flatten(st.writes)|, 0, |Flatten(st.writes)|);
    }
    Spread(|st.writes|, inHand, LargestChunk(cfg));
  }

  lemma Spread(a: int, b: int, limit: int)
    ensures (a + b) * limit == a * limit + b * limit
  {
  }

  lemma AccountWithin(h: map<nat, Account>, id: nat, limit: int)
    requires AcceptedWithin(h, limit)
    ensures AllWithin(At(h, id).accepted, limit)
  {
  }
}

/** One stream's credit end to end: the client's, the relay's, and what is on its way between them. */
module FlowRun {
  import opened Octets
  import opened Frames
  import opened Queue
  import opened Streams

  /**
   * `upstream` are the client's DATA frames sent and not yet applied; `downstream` are the frames the
   * relay has queued and the client has not yet seen, coalesced as queueFrameLocked does. `given` and
   * `sent` count what the client has granted the relay and what the relay has sent it.
   */
  datatype Flow = Flow(
    id: nat, stream: Stream,
    credit: int, upstream: seq<Frame>, downstream: seq<Frame>,
    given: nat, sent: nat,
    rejected: bool, windowRefused: bool)

  datatype Event =
    | ClientSends(payload: Bytes)
    | RelayApplies
    | BackendDrains(amount: nat, granted: bool)
    | OtherFrameQueued(f: Frame)
    | ClientReceives(count: nat)
    | ClientGrants(amount: nat)
    | BackendSends(data: Bytes, granted: bool)

  function Start(id: nat, backend: int): Flow {
    Flow(id, NewStream(backend), INITIAL_STREAM_WINDOW, [], [], 0, 0, false, false)
  }

  function DataTotal(q: seq<Frame>): nat {
    if q == [] then 0 else |q[0].payload| + DataTotal(q[1..])
  }

  function Step(w: Flow, e: Event, maxPayload: nat): Flow {
    match e
    case ClientSends(payload) =>
      if 0 < |payload| <= w.credit then
        w.(credit := w.credit - |payload|, upstream := w.upstream + [Frame(DATA, w.id, payload)])
      else w
    case RelayApplies =>
      if w.upstream == [] then w
      else if |w.upstream[0].payload| > w.stream.receiveWindow then w.(rejected := true)
      else w.(stream := AcceptData(w.stream, w.upstream[0].payload), upstream := w.upstream[1..])
    case BackendDrains(amount, granted) =>
      if amount >= TWO_32 || Drain(w.stream, amount).None? then w
      else
        var f := Frame(WINDOW, w.id, WindowPayload(amount));
        var drained := w.(stream := Drain(w.stream, amount).value);
        if granted || Place(w.downstream, f, maxPayload).MergeWindow? then
          drained.(downstream := Push(w.downstream, f, maxPayload))
        else drained.(windowRefused := true)
    case OtherFrameQueued(f) =>
      if IsWindowOf(f, w.id) then w else w.(downstream := Push(w.downstream, f, maxPayload))
    case ClientReceives(count) =>
      if count > |w.downstream| then w
      else w.(credit := w.credit + WindowTotal(w.downstream[..count], w.id), downstream := w.downstream[count..])
    case ClientGrants(amount) =>
      w.(given := w.given + amount, stream := AddCredit(w.stream, amount))
    case BackendSends(data, granted) =>
      if data == [] || |data| > w.stream.sendCredit then w
      else
        var spent := w.(stream := SpendCredit(w.stream, |data|));
        if granted then
          spent.(downstream := Push(w.downstream, Frame(DATA, w.id, data), maxPayload), sent := w.sent + |data|)
        else spent
  }

  function Run(start: Flow, events: seq<Event>, maxPayload: nat): Flow {
    if events == [] then start
    else Step(Run(start, events[..|events| - 1], maxPayload), events[|events| - 1], maxPayload)
  }

  /** The client's credit, its DATA under way and its WINDOW under way add up to the relay's window. */
  ghost predicate Conserved(w: Flow) {
    var onTheWay := w.credit + DataTotal(w.upstream) + WindowTotal(w.downstream, w.id);
    && Balanced(w.stream)
    && onTheWay <= w.stream.receiveWindow
    && (!w.windowRefused ==> onTheWay == w.stream.receiveWindow)
    && w.credit >= 0
    && !w.rejected
    && w.stream.sendCredit + w.sent <= INITIAL_STREAM_WINDOW + w.given
  }

  lemma {:induction false} DataTotalSnoc(q: seq<Frame>, f: Frame)
    ensures DataTotal(q + [f]) == DataTotal(q) + |f.payload|
  {
    if q == [] {
      assert [f][1..] == [];
    } else {
      assert (q + [f])[1..] == q[1..] + [f];
      DataTotalSnoc(q[1..], f);
    }
  }

  lemma PushedWindows(q: seq<Frame>, f: Frame, maxPayload: nat, id: nat)
    ensures WindowTotal(Push(q, f, maxPayload), id) == WindowTotal(q, id) + Credit(f, id)
  {
    hide Push, Expand;
    PushRefinesAppend(q, f, maxPayload, id);
    AppendRefines(q, f, id);
  }

  lemma DrainsConserved(w: Flow, amount: nat, granted: bool, maxPayload: nat)
    requires Conserved(w)
    ensures Conserved(Step(w, BackendDrains(amount, granted), maxPayload))
  {
    hide Push, Place, WindowTotal, DataTotal, WindowPayload, Amount, AcceptData;
    if amount < TWO_32 && Drain(w.stream, amount).Some? {
      StreamStepsBalanced(w.stream, [], amount, 0);
      WindowRoundTrip(amount, []);
      PushedWindows(w.downstream, Frame(WINDOW, w.id, WindowPayload(amount)), maxPayload, w.id);
    }
  }

  lemma StepConserved(w: Flow, e: Event, maxPayload: nat)
    requires Conserved(w)
    ensures Conserved(Step(w, e, maxPayload))
  {
    hide Push, Place, WindowTotal, WindowPayload, Amount;
    match e
    case ClientSends(payload) => DataTotalSnoc(w.upstream, Frame(DATA, w.id, payload));
    case RelayApplies =>
      if w.upstream != [] {
        StreamStepsBalanced(w.stream, w.upstream[0].payload, 0, 0);
      }
    case BackendDrains(amount, granted) => DrainsConserved(w, amount, granted, maxPayload);
    case OtherFrameQueued(f) => PushedWindows(w.downstream, f, maxPayload, w.id);
    case ClientReceives(count) =>
      if count <= |w.downstream| {
        TakeSplits(w.downstream, count, w.id);
      }
    case ClientGrants(amount) =>
    case BackendSends(data, _) => PushedWindows(w.downstream, Frame(DATA, w.id, data), maxPayload, w.id);
  }

  lemma {:induction false} RunConserved(id: nat, backend: int, events: seq<Event>, maxPayload: nat)
    ensures Conserved(Run(Start(id, backend), events, maxPayload))
  {
    hide Conserved, Step;
    if |events| == 0 {
      StartConserved(id, backend);
    } else {
      RunConserved(id, backend, events[..|events| - 1], maxPayload);
      StepConserved(Run(Start(id, backend), events[..|events| - 1], maxPayload), events[|events| - 1], maxPayload);
    }
  }

  lemma StartConserved(id: nat, backend: int)
    ensures Conserved(Start(id, backend))
  {
  }

  /**
   * A client that only sends what its credit covers is never refused for overrunning the window, however
   * DATA, WINDOW and their coalescing interleave; and while no WINDOW was refused, no credit leaks.
   */
  lemma CreditIsConserved(id: nat, backend: int, events: seq<Event>, maxPayload: nat)
    ensures var w := Run(Start(id, backend), events, maxPayload);
      && !w.rejected
      && (forall i | 0 <= i < |w.upstream| :: |w.upstream[i].payload| <= w.stream.receiveWindow)
      && (!w.windowRefused ==>
            w.credit + DataTotal(w.upstream) + WindowTotal(w.downstream, id) + w.stream.pendingWriteBytes
              == INITIAL_STREAM_WINDOW)
  {
    hide Run, WindowTotal;
    RunConserved(id, backend, events, maxPayload);
    var w := Run(Start(id, backend), events, maxPayload);
    RunKeepsId(id, backend, events, maxPayload);
    forall i | 0 <= i < |w.upstream|
      ensures |w.upstream[i].payload| <= DataTotal(w.upstream)
    {
      OneWithinTotal(w.upstream, i);
    }
  }

  /** What the relay has sent a stream and may still send it never exceeds what the client has granted. */
  lemma SentWithinGrants(id: nat, backend: int, events: seq<Event>, maxPayload: nat)
    ensures var w := Run(Start(id, backend), events, maxPayload);
      w.stream.sendCredit + w.sent <= INITIAL_STREAM_WINDOW + w.given
  {
    hide Run, WindowTotal, DataTotal;
    RunConserved(id, backend, events, maxPayload);
  }

  lemma {:induction false} RunKeepsId(id: nat, backend: int, events: seq<Event>, maxPayload: nat)
    ensures Run(Start(id, backend), events, maxPayload).id == id
  {
    if |events| > 0 {
      RunKeepsId(id, backend, events[..|events| - 1], maxPayload);
    }
  }

  lemma {:induction false} OneWithinTotal(q: seq<Frame>, i: nat)
    requires i < |q|
    ensures |q[i].payload| <= DataTotal(q)
  {
    if i > 0 {
      OneWithinTotal(q[1..], i - 1);
    }
  }
}

/**
 * The downlink end to end: the relay's Poll against the bridge's poll loop, over a network that may
 * lose, delay, duplicate and reorder requests and responses.
 */
module DownlinkRun {
  import opened Octets
  import opened Outcomes
  import opened Frames
  import opened Queue
  import opened Poll

  /** The answer to a request that carried cursor `to`; an empty body is the 204. */
  datatype Response = Response(to: nat, body: seq<Frame>, next: nat)

  datatype Net = Net(
    relay: Down, closed: bool,
    polls: set<PollId>,          // parked polls
    nextToken: nat,
    requests: set<nat>,          // cursors of every request ever sent
    responses: set<Response>,    // every answer ever written
    cursor: nat,                 // the bridge's downCursor
    posted: seq<seq<Frame>>,     // batches posted to the app
    pushed: seq<Frame>,          // frames the relay queued, before coalescing
    taken: seq<seq<Frame>>)      // batches in the order Poll took them

  const START := Net(NEW_DOWN, false, {}, 0, {}, {}, 0, [], [], [])

  datatype Event =
    | RelayQueues(f: Frame)
    | BridgeSends
    | RequestArrives(cursor: nat)
    | PollWakes(poll: PollId, why: Wake)
    | LaneRequestArrives(cursor: nat, over: bool)
    | LanePollWakes(poll: PollId, why: Wake, over: bool)
    | BridgeReceives(response: Response)
    | SessionCloses

  /** closeLocked, as far as the downlink sees it. */
  function Closed(n: Net): Net {
    n.(closed := true, relay := n.relay.(queue := [], unacked := []))
  }

  /** The poll's handler returns: a batch or an empty body is written back, anything else is not a 2xx. */
  function Answered(n: Net, cursor: nat, a: Answer): Net {
    match a
    case Batch(frames, next) => n.(responses := n.responses + {Response(cursor, frames, next)})
    case Empty => n.(responses := n.responses + {Response(cursor, [], cursor)})
    case _ => n
  }

  /** Record the batch if this answer took one off the queue. */
  function Logged(n: Net, before: Down, a: Answer): Net {
    if a.Batch? && n.relay.cursor != before.cursor then n.(taken := n.taken + [a.frames]) else n
  }

  /**
   * A refused poll is followed by the session's closing, under a lock of its own. `over` is what a lane's
   * poll finds out about its stream, once nothing is queued for it.
   */
  function ArriveOn(n: Net, cursor: nat, batchBytes: int, over: bool): Net {
    if n.closed || cursor !in n.requests then n
    else
      var poll := PollId(n.nextToken, cursor);
      var (d, a) := Enter(n.relay, poll, batchBytes, over);
      if a.Refused? then n
      else
        var n1 := n.(relay := d, nextToken := n.nextToken + 1,
                     polls := if a.Parked? then n.polls + {poll} else n.polls);
        Answered(Logged(n1, n.relay, a), cursor, a)
  }

  function Arrive(n: Net, cursor: nat, batchBytes: int): Net {
    ArriveOn(n, cursor, batchBytes, false)
  }

  function WakeOn(n: Net, poll: PollId, why: Wake, batchBytes: int, over: bool): Net {
    if poll !in n.polls || (why.DisplacedByNewer? && n.relay.waiter == Some(poll)) then n
    else
      var (d, a) := Resume(n.relay, poll, why, batchBytes, n.closed, over);
      var n1 := n.(relay := d, polls := if a.Parked? then n.polls else n.polls - {poll});
      Answered(Logged(n1, n.relay, a), poll.cursor, a)
  }

  /** The bridge's fetch resolves: it only ever awaits answers to its current cursor. */
  function Receive(n: Net, r: Response): Net {
    if r !in n.responses || r.to != n.cursor || r.body == [] then n
    else n.(posted := n.posted + [r.body], cursor := r.next)
  }

  function Step(n: Net, e: Event, batchBytes: int, maxPayload: nat): Net {
    match e
    case RelayQueues(f) =>
      if n.closed then n
      else n.(relay := n.relay.(queue := Push(n.relay.queue, f, maxPayload)), pushed := n.pushed + [f])
    case BridgeSends => n.(requests := n.requests + {n.cursor})
    case RequestArrives(cursor) => Arrive(n, cursor, batchBytes)
    case PollWakes(poll, why) => WakeOn(n, poll, why, batchBytes, false)
    case LaneRequestArrives(cursor, over) => ArriveOn(n, cursor, batchBytes, over)
    case LanePollWakes(poll, why, over) => WakeOn(n, poll, why, batchBytes, over)
    case BridgeReceives(r) => Receive(n, r)
    case SessionCloses => Closed(n)
  }

  function Run(events: seq<Event>, batchBytes: int, maxPayload: nat): Net {
    if events == [] then START
    else Step(Run(events[..|events| - 1], batchBytes, maxPayload), events[|events| - 1], batchBytes, maxPayload)
  }

  predicate GoodResponse(r: Response, taken: seq<seq<Frame>>) {
    r.body != [] ==> r.to < |taken| && r.body == taken[r.to] && r.next == r.to + 1
  }

  ghost predicate Ordered(n: Net) {
    && |n.taken| == n.relay.cursor
    && n.cursor <= |n.taken| <= n.cursor + 1
    && n.posted == n.taken[..n.cursor]
    && (forall r | r in n.responses :: GoodResponse(r, n.taken))
    && (forall c | c in n.requests :: c <= n.cursor)
  }

  ghost predicate Polling(n: Net) {
    && HandedOver(n.relay)
    && (forall p | p in n.polls :: p.token < n.nextToken && p.cursor in n.requests)
    && (n.relay.waiter.Some? ==> n.relay.waiter.value in n.polls)
    && (!n.closed ==>
          if n.relay.unacked == [] then n.cursor == |n.taken|
          else n.relay.base < |n.taken| && n.relay.unacked == n.taken[n.relay.base])
    && (n.closed ==> n.relay.queue == [] && n.relay.unacked == [])
  }

  /** Nothing queued is lost, reordered or repeated on its way into batches. */
  ghost predicate Conserved(n: Net) {
    var out := Flatten(n.taken);
    && (!n.closed ==> Expand(out + n.relay.queue) == Expand(n.pushed))
    && (!n.closed ==> forall id :: WindowTotal(out + n.relay.queue, id) == WindowTotal(n.pushed, id))
    && (n.closed ==> Expand(out) <= Expand(n.pushed))
    && (n.closed ==> forall id :: WindowTotal(out, id) <= WindowTotal(n.pushed, id))
  }

  ghost predicate Sound(n: Net) {
    Ordered(n) && Polling(n) && Conserved(n)
  }

  lemma CloseSound(n: Net)
    requires Sound(n)
    ensures Sound(Closed(n))
  {
    var out := Flatten(n.taken);
    if !n.closed {
      ExpandAppend(out, n.relay.queue);
      forall id {
        WindowTotalAppend(out, n.relay.queue, id);
      }
    }
  }

  lemma PushConserves(out: seq<Frame>, q: seq<Frame>, pushed: seq<Frame>, f: Frame, maxPayload: nat, id: nat)
    ensures Expand(out + q) == Expand(pushed) ==>
      Expand(out + Push(q, f, maxPayload)) == Expand(pushed + [f])
    ensures WindowTotal(out + q, id) == WindowTotal(pushed, id) ==>
      WindowTotal(out + Push(q, f, maxPayload), id) == WindowTotal(pushed + [f], id)
  {
    hide Expand, WindowTotal, Push, Items, Credit;
    PushRefinesAppend(q, f, maxPayload, id);
    ExpandAppend(out, Push(q, f, maxPayload));
    ExpandAppend(out, q + [f]);
    WindowTotalAppend(out, Push(q, f, maxPayload), id);
    WindowTotalAppend(out, q + [f], id);
    assert out + (q + [f]) == (out + q) + [f];
    ExpandAppend(out + q, [f]);
    ExpandAppend(pushed, [f]);
    WindowTotalAppend(out + q, [f], id);
    WindowTotalAppend(pushed, [f], id);
  }

  lemma PushSound(n: Net, f: Frame, maxPayload: nat)
    requires Sound(n) && !n.closed
    ensures Sound(n.(relay := n.relay.(queue := Push(n.relay.queue, f, maxPayload)), pushed := n.pushed + [f]))
  {
    hide Expand, WindowTotal, Push, Flatten;
    var out, q' := Flatten(n.taken), Push(n.relay.queue, f, maxPayload);
    PushConserves(out, n.relay.queue, n.pushed, f, maxPayload, 0);
    forall id
      ensures WindowTotal(out + q', id) == WindowTotal(n.pushed + [f], id)
    {
      PushConserves(out, n.relay.queue, n.pushed, f, maxPayload, id);
    }
  }

  /** A batch moves from the queue to the log without changing what they spell out together. */
  lemma LogKeepsConserved(taken: seq<seq<Frame>>, batch: seq<Frame>, rest: seq<Frame>)
    ensures Flatten(taken + [batch]) + rest == Flatten(taken) + (batch + rest)
  {
    FlattenSnoc(taken, batch);
  }

  lemma LogKeepsResponses(n: Net, batch: seq<Frame>)
    requires Ordered(n)
    ensures forall r | r in n.responses :: GoodResponse(r, n.taken + [batch])
  {
  }

  /** An answer from the loop, whoever reached it, when the poll's cursor is the bridge's. */
  lemma TakeSound(n: Net, cursor: nat, a: Answer, d: Down)
    requires Sound(n) && !n.closed && n.cursor == n.relay.cursor == cursor
    requires a.Batch? && a.frames != [] && a.frames + d.queue == n.relay.queue
    requires d.unacked == a.frames && d.base == cursor && d.cursor == cursor + 1 == a.next && d.waiter == None
    ensures Sound(Answered(Logged(n.(relay := d), n.relay, a), cursor, a))
  {
    LogKeepsConserved(n.taken, a.frames, d.queue);
    LogKeepsResponses(n, a.frames);
    var n' := Answered(Logged(n.(relay := d), n.relay, a), cursor, a);
    assert n'.taken[..n.cursor] == n.taken[..n.cursor];
  }

  lemma AnswerSound(n: Net, cursor: nat, a: Answer)
    requires Sound(n)
    requires a.Batch? ==> GoodResponse(Response(cursor, a.frames, a.next), n.taken)
    ensures Sound(Answered(n, cursor, a))
  {
  }

  lemma SoundFacts(n: Net, cursor: nat)
    requires Sound(n) && !n.closed && cursor in n.requests
    ensures HandedOver(n.relay) && cursor <= n.cursor <= n.relay.cursor
    ensures n.relay.unacked != [] && cursor == n.relay.base ==>
      GoodResponse(Response(cursor, n.relay.unacked, n.relay.cursor), n.taken)
  {
    hide Conserved;
  }

  lemma ArriveSound(n: Net, cursor: nat, batchBytes: int, over: bool)
    requires Sound(n)
    ensures Sound(ArriveOn(n, cursor, batchBytes, over))
  {
    hide Sound, Expand, WindowTotal, Flatten, TakeCount, HandedOver;
    if n.closed || cursor !in n.requests {
      return;
    }
    var poll := PollId(n.nextToken, cursor);
    var (d, a) := Enter(n.relay, poll, batchBytes, over);
    SoundFacts(n, cursor);
    EnterMeaning(n.relay, poll, batchBytes, over);
    EnterKeepsHandOver(n.relay, poll, batchBytes, over);
    LaterSound(n);
    if a.Refused? {
    } else if n.relay.unacked != [] && cursor == n.relay.base {
      AnswerSound(n.(nextToken := n.nextToken + 1), cursor, a);
    } else if a.Batch? {
      TakeSound(n.(nextToken := n.nextToken + 1), cursor, a, d);
    } else {
      QuietSound(n, poll, d);
    }
  }

  lemma LaterSound(n: Net)
    requires Sound(n)
    ensures Sound(n.(nextToken := n.nextToken + 1))
  {
    hide Conserved, HandedOver;
    assert Conserved(n) ==> Conserved(n.(nextToken := n.nextToken + 1)) by {
      SameConserved(n, n.(nextToken := n.nextToken + 1));
    }
  }

  lemma SameConserved(n: Net, n': Net)
    requires Conserved(n) && n'.taken == n.taken && n'.relay == n.relay
    requires n'.pushed == n.pushed && n'.closed == n.closed
    ensures Conserved(n')
  {
  }

  /** A poll accepted with nothing to take: it parks, or learns that its lane is over. */
  lemma QuietSound(n: Net, poll: PollId, d: Down)
    requires Sound(n) && !n.closed && poll == PollId(n.nextToken, n.cursor) && n.cursor == n.relay.cursor
    requires n.cursor in n.requests && n.relay.queue == [] && HandedOver(d)
    requires d == n.relay.(unacked := [], waiter := d.waiter) && (d.waiter.Some? ==> d.waiter.value == poll)
    ensures d.waiter.None? ==> Sound(n.(relay := d, nextToken := n.nextToken + 1))
    ensures Sound(n.(relay := d, nextToken := n.nextToken + 1, polls := n.polls + {poll}))
  {
    hide Expand, WindowTotal, Flatten, HandedOver;
  }

  lemma FewerPolls(n: Net, poll: PollId)
    requires Sound(n) && n.relay.waiter != Some(poll)
    ensures Sound(n.(polls := n.polls - {poll}))
  {
    hide HandedOver;
    SameConserved(n, n.(polls := n.polls - {poll}));
  }

  /** The slot's owner is one of the parked polls, and waits where the bridge and the relay both are. */
  lemma OwnerFacts(n: Net)
    requires Sound(n)
    ensures HandedOver(n.relay)
    ensures n.relay.waiter.Some? ==> n.relay.waiter.value in n.polls
    ensures n.relay.waiter.Some? && n.relay.queue != [] ==>
      !n.closed && n.relay.waiter.value.cursor == n.relay.cursor == n.cursor
  {
    hide Conserved;
  }

  lemma WakeSound(n: Net, poll: PollId, why: Wake, batchBytes: int, over: bool)
    requires Sound(n)
    ensures Sound(WakeOn(n, poll, why, batchBytes, over))
  {
    hide Expand, WindowTotal, Flatten, TakeCount, Sound, HandedOver;
    OwnerFacts(n);
    if poll !in n.polls || (why.DisplacedByNewer? && n.relay.waiter == Some(poll)) {
      return;
    }
    var (d, a) := Resume(n.relay, poll, why, batchBytes, n.closed, over);
    DisplacedPollIsHarmless(n.relay, poll, why, batchBytes, n.closed, over);
    ResumeKeepsHandOver(n.relay, poll, why, batchBytes, n.closed, over);
    if a.Batch? {
      TakeSound(n, poll.cursor, a, d);
      FewerPolls(Answered(Logged(n.(relay := d), n.relay, a), poll.cursor, a), poll);
    } else {
      assert Logged(n.(relay := d), n.relay, a) == n.(relay := d);
      SlotGivenUp(n, d);
      if !a.Parked? {
        FewerPolls(n.(relay := d), poll);
        AnswerSound(n.(relay := d, polls := n.polls - {poll}), poll.cursor, a);
      }
    }
  }

  /** A poll's answer other than a batch leaves the carrier as it was, or without its owner. */
  lemma SlotGivenUp(n: Net, d: Down)
    requires Sound(n) && HandedOver(d) && (d == n.relay || d == n.relay.(waiter := None))
    ensures Sound(n.(relay := d))
  {
    hide Expand, WindowTotal, Flatten, HandedOver;
  }

  lemma ReceiveSound(n: Net, r: Response)
    requires Sound(n)
    ensures Sound(Receive(n, r))
  {
    hide Expand, WindowTotal, Flatten, HandedOver;
    if r in n.responses && r.to == n.cursor && r.body != [] {
      assert GoodResponse(r, n.taken);
      assert n.taken[..n.cursor] + [r.body] == n.taken[..n.cursor + 1];
    }
  }

  lemma SendSound(n: Net)
    requires Sound(n)
    ensures Sound(n.(requests := n.requests + {n.cursor}))
  {
    hide Expand, WindowTotal, Flatten, HandedOver;
  }

  lemma StepSound(n: Net, e: Event, batchBytes: int, maxPayload: nat)
    requires Sound(n)
    ensures Sound(Step(n, e, batchBytes, maxPayload))
  {
    hide Sound, ArriveOn, WakeOn, Receive, Closed, Push;
    match e
    case RelayQueues(f) =>
      if !n.closed {
        PushSound(n, f, maxPayload);
      }
    case BridgeSends => SendSound(n);
    case RequestArrives(cursor) => ArriveSound(n, cursor, batchBytes, false);
    case PollWakes(poll, why) => WakeSound(n, poll, why, batchBytes, false);
    case LaneRequestArrives(cursor, over) => ArriveSound(n, cursor, batchBytes, over);
    case LanePollWakes(poll, why, over) => WakeSound(n, poll, why, batchBytes, over);
    case BridgeReceives(r) => ReceiveSound(n, r);
    case SessionCloses => CloseSound(n);
  }

  lemma {:induction false} RunSound(events: seq<Event>, batchBytes: int, maxPayload: nat)
    ensures Sound(Run(events, batchBytes, maxPayload))
  {
    if events != [] {
      RunSound(events[..|events| - 1], batchBytes, maxPayload);
      StepSound(Run(events[..|events| - 1], batchBytes, maxPayload), events[|events| - 1], batchBytes, maxPayload);
    }
  }

  /** The app gets the batches in the order taken, none skipped or repeated, at most one outstanding. */
  lemma PostedIsPrefixOfTaken(events: seq<Event>, batchBytes: int, maxPayload: nat)
    ensures var n := Run(events, batchBytes, maxPayload);
      n.posted <= n.taken && |n.taken| <= |n.posted| + 1
  {
    RunSound(events, batchBytes, maxPayload);
  }

  lemma PostedPrefix(n: Net, id: nat)
    requires Sound(n)
    ensures Expand(Flatten(n.posted)) <= Expand(n.pushed)
    ensures WindowTotal(Flatten(n.posted), id) <= WindowTotal(n.pushed, id)
  {
    var rest := Flatten(n.taken[n.cursor..]);
    assert n.taken == n.posted + n.taken[n.cursor..];
    FlattenAppend(n.posted, n.taken[n.cursor..]);
    ExpandAppend(Flatten(n.posted), rest);
    WindowTotalAppend(Flatten(n.posted), rest, id);
    ExpandAppend(Flatten(n.taken), n.relay.queue);
    WindowTotalAppend(Flatten(n.taken), n.relay.queue, id);
  }

  /**
   * Everything the relay queued reaches the app exactly once and in order: the bytes and closes
   * posted are a prefix of those queued, and no stream is ever granted more credit than was queued.
   */
  lemma AppSeesPrefixOfQueued(events: seq<Event>, batchBytes: int, maxPayload: nat, id: nat)
    ensures var n := Run(events, batchBytes, maxPayload);
      && Expand(Flatten(n.posted)) <= Expand(n.pushed)
      && WindowTotal(Flatten(n.posted), id) <= WindowTotal(n.pushed, id)
  {
    hide Expand, WindowTotal, Flatten, Sound;
    RunSound(events, batchBytes, maxPayload);
    PostedPrefix(Run(events, batchBytes, maxPayload), id);
  }

  /** Once the queue is empty and the last batch is acknowledged, the app has seen all of it. */
  lemma QuietMeansDelivered(events: seq<Event>, batchBytes: int, maxPayload: nat, id: nat)
    ensures var n := Run(events, batchBytes, maxPayload);
      !n.closed && n.relay.queue == [] && n.cursor == n.relay.cursor ==>
        && Expand(Flatten(n.posted)) == Expand(n.pushed)
        && WindowTotal(Flatten(n.posted), id) == WindowTotal(n.pushed, id)
  {
    RunSound(events, batchBytes, maxPayload);
    var n := Run(events, batchBytes, maxPayload);
    if n.cursor == n.relay.cursor {
      assert n.taken[..n.cursor] == n.taken;
    }
    assert Flatten(n.taken) + [] == Flatten(n.taken);
  }

  /** Whatever was lost on the way, the bridge's next request is never refused by an open session. */
  lemma RetryIsNeverRefused(events: seq<Event>, batchBytes: int, maxPayload: nat, token: nat)
    ensures var n := Run(events, batchBytes, maxPayload);
      !n.closed ==> !Enter(n.relay, PollId(token, n.cursor), batchBytes, false).1.Refused?
  {
    RunSound(events, batchBytes, maxPayload);
  }

  /**
   * A request with any cursor ever sent is answered with exactly the batch taken at that cursor, or
   * parked, or refused; a delayed duplicate can never make the relay skip ahead.
   */
  lemma StaleRequestIsReplayedOrRefused(events: seq<Event>, batchBytes: int, maxPayload: nat, cursor: nat)
    ensures var n := Run(events, batchBytes, maxPayload);
      var n' := Arrive(n, cursor, batchBytes);
      !n.closed && cursor in n.requests && cursor != n.relay.cursor ==>
        if n.relay.unacked != [] && cursor == n.relay.base then
          && cursor < |n.taken| && n'.relay == n.relay && n'.taken == n.taken
          && n'.responses == n.responses + {Response(cursor, n.taken[cursor], cursor + 1)}
        else n' == n && Enter(n.relay, PollId(n.nextToken, cursor), batchBytes, false).1.Refused?
  {
    hide Run, Conserved, Flatten;
    RunSound(events, batchBytes, maxPayload);
    var n := Run(events, batchBytes, maxPayload);
    EnterMeaning(n.relay, PollId(n.nextToken, cursor), batchBytes, false);
    hide Loop;
  }

  /**
   * The one parked poll that owns the slot is never left waiting: notified with frames queued it takes the
   * longest batch and is answered with it, and with none it stays parked while the session is open.
   */
  lemma NotifiedOwnerTakes(events: seq<Event>, batchBytes: int, maxPayload: nat, poll: PollId, over: bool)
    requires Run(events, batchBytes, maxPayload).relay.waiter == Some(poll)
    ensures var n := Run(events, batchBytes, maxPayload);
      var woken := [Step(n, PollWakes(poll, Notified), batchBytes, maxPayload),
                    Step(n, LanePollWakes(poll, Notified, over), batchBytes, maxPayload)];
      && poll in n.polls
      && (n.relay.queue != [] ==>
            forall i | 0 <= i < 2 ::
              && |woken[i].taken| == |n.taken| + 1 && woken[i].taken[..|n.taken|] == n.taken
              && var batch := woken[i].taken[|n.taken|];
                 && batch + woken[i].relay.queue == n.relay.queue
                 && IsTake(n.relay.queue, batchBytes, |batch|)
                 && Response(poll.cursor, batch, poll.cursor + 1) in woken[i].responses
                 && poll !in woken[i].polls)
      && (n.relay.queue == [] && !n.closed ==> woken[0] == n)
  {
    hide Run, Sound, TakeCount, Size, HandedOver;
    RunSound(events, batchBytes, maxPayload);
    var n := Run(events, batchBytes, maxPayload);
    OwnerFacts(n);
    ResumeMeaning(n.relay, poll, Notified, batchBytes, n.closed, false);
    ResumeMeaning(n.relay, poll, Notified, batchBytes, n.closed, over);
    hide Resume;
  }

  // Nothing gets stuck.

  lemma RunAppend(events: seq<Event>, e: Event, batchBytes: int, maxPayload: nat)
    ensures Run(events + [e], batchBytes, maxPayload)
         == Step(Run(events, batchBytes, maxPayload), e, batchBytes, maxPayload)
  {
    assert (events + [e])[..|events|] == events;
  }

  /** One round trip: the bridge asks with its cursor, is answered with a batch, and posts it. */
  function RoundTrip(n: Net, body: seq<Frame>): seq<Event> {
    [BridgeSends, RequestArrives(n.cursor), BridgeReceives(Response(n.cursor, body, n.cursor + 1))]
  }

  lemma {:induction false} RunRoundTrip(events: seq<Event>, body: seq<Frame>, batchBytes: int, maxPayload: nat)
    ensures var n := Run(events, batchBytes, maxPayload);
      var asked := n.(requests := n.requests + {n.cursor});
      Run(events + RoundTrip(n, body), batchBytes, maxPayload)
      == Receive(Arrive(asked, n.cursor, batchBytes), Response(n.cursor, body, n.cursor + 1))
  {
    hide Arrive, Receive;
    var n := Run(events, batchBytes, maxPayload);
    var trip := RoundTrip(n, body);
    RunAppend(events, trip[0], batchBytes, maxPayload);
    RunAppend(events + [trip[0]], trip[1], batchBytes, maxPayload);
    RunAppend(events + [trip[0]] + [trip[1]], trip[2], batchBytes, maxPayload);
    assert events + [trip[0]] + [trip[1]] + [trip[2]] == events + trip;
  }

  /** Where the bridge lags behind, its request replays the outstanding batch; elsewhere it takes the next. */
  lemma TripDelivers(n: Net, batchBytes: int) returns (body: seq<Frame>)
    requires Sound(n) && !n.closed && (n.cursor != n.relay.cursor || n.relay.queue != [])
    ensures var asked := n.(requests := n.requests + {n.cursor});
      var n' := Receive(Arrive(asked, n.cursor, batchBytes), Response(n.cursor, body, n.cursor + 1));
      && !n'.closed && n'.pushed == n.pushed && n'.cursor == n'.relay.cursor == n.cursor + 1
      && (if n.cursor == n.relay.cursor then |n'.relay.queue| < |n.relay.queue| else n'.relay.queue == n.relay.queue)
  {
    hide Conserved, TakeCount, Size;
    var asked := n.(requests := n.requests + {n.cursor});
    var poll := PollId(n.nextToken, n.cursor);
    EnterMeaning(n.relay, poll, batchBytes, false);
    body := if n.cursor == n.relay.cursor then Enter(n.relay, poll, batchBytes, false).1.frames else n.relay.unacked;
    assert body != [];
    hide Enter;
  }

  /**
   * From every reachable open state some continuation delivers all that has been queued: the protocol is
   * never stuck.
   */
  lemma {:induction false} CanAlwaysDeliver(events: seq<Event>, batchBytes: int, maxPayload: nat)
    returns (more: seq<Event>)
    requires !Run(events, batchBytes, maxPayload).closed
    ensures var n, n' := Run(events, batchBytes, maxPayload), Run(events + more, batchBytes, maxPayload);
      && !n'.closed && n'.pushed == n.pushed && n'.relay.queue == [] && n'.cursor == n'.relay.cursor
      && Expand(Flatten(n'.posted)) == Expand(n.pushed)
    decreases |Run(events, batchBytes, maxPayload).relay.queue|,
      if Run(events, batchBytes, maxPayload).cursor == Run(events, batchBytes, maxPayload).relay.cursor then 0 else 1
  {
    hide Run, Sound, Expand, WindowTotal, Flatten, Receive, Arrive, RoundTrip;
    RunSound(events, batchBytes, maxPayload);
    var n := Run(events, batchBytes, maxPayload);
    if n.cursor == n.relay.cursor && n.relay.queue == [] {
      more := [];
      assert events + more == events;
      QuietMeansDelivered(events, batchBytes, maxPayload, 0);
    } else {
      var body := TripDelivers(n, batchBytes);
      RunRoundTrip(events, body, batchBytes, maxPayload);
      var rest := CanAlwaysDeliver(events + RoundTrip(n, body), batchBytes, maxPayload);
      more := RoundTrip(n, body) + rest;
      assert events + more == events + RoundTrip(n, body) + rest;
    }
  }
}

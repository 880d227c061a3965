/** The uplink half of a carrier: sequence numbers, the retry digest, and the single batch in flight. */
module Uplink {
  import opened Octets

  /** lastUpSequence, lastUpDigest (the body itself: digests are taken as injective) and upActive. */
  datatype Up = Up(lastSequence: nat, lastBody: Bytes, active: bool)

  const NEW_UP := Up(0, [], false)

  datatype Admission = Acknowledge | Mismatch | OutOfOrder | Busy | Begin

  /** The sequence checks made under the first lock. */
  function Admit(u: Up, sequence: nat, body: Bytes): Admission {
    if sequence == u.lastSequence && sequence != 0 then
      if body == u.lastBody then Acknowledge else Mismatch
    else if sequence != u.lastSequence + 1 || sequence == 0 then OutOfOrder
    else if u.active then Busy
    else Begin
  }

  /** The second lock: only an applied batch moves the sequence. */
  function Commit(u: Up, sequence: nat, body: Bytes, applied: bool): Up {
    if applied then Up(sequence, body, false) else u.(active := false)
  }
}

/**
 * The uplink end to end: the bridge resending one body under one sequence until it is acknowledged,
 * against ProcessUp with its two lock regions, over a network that may lose, delay, duplicate and
 * reorder requests and acknowledgements.
 */
module UplinkRun {
  import opened Octets
  import opened Frames
  import opened Uplink

  datatype Request = Request(sequence: nat, body: Bytes)

  datatype Net = Net(
    up: Up, closed: bool,
    workers: map<nat, Request>,   // handlers between the two lock regions
    nextWorker: nat,
    sent: set<Request>,           // every request ever sent
    acks: set<nat>,               // every sequence ever acknowledged
    acked: nat,                   // the bridge's upSequence - 1
    bodies: seq<Bytes>,           // bodies the bridge has formed, in order
    source: Bytes,                // all bytes the app has queued
    applied: seq<Bytes>,          // bodies the relay has applied and committed, in order
    effects: seq<Effect>)         // every apply that put frames into effect, in order

  /** One apply of the body numbered `sequence`: whole, or stopped halfway. */
  datatype Effect = Effect(sequence: nat, whole: bool)

  const START := Net(NEW_UP, false, map[], 0, {}, {}, 0, [], [], [], [])

  /**
   * What the second lock region comes to. Invalid and Aborted, an apply that ran out of control
   * budget, are followed by the session's closing under a lock of its own.
   */
  datatype Verdict = Applied | Backpressure | Invalid | Aborted

  datatype Event =
    | AppQueues(data: Bytes)
    | BridgePacks(body: Bytes)
    | BridgeSends
    | RequestArrives(request: Request)
    | WorkerCommits(worker: nat, verdict: Verdict)
    | BridgeReceives(ack: nat)
    | SessionCloses

  function Arrive(n: Net, r: Request): Net {
    if n.closed || r !in n.sent then n
    else
      match Admit(n.up, r.sequence, r.body)
      case Acknowledge => n.(acks := n.acks + {r.sequence})
      case Busy => n
      case Begin =>
        n.(up := n.up.(active := true), workers := n.workers[n.nextWorker := r], nextWorker := n.nextWorker + 1)
      case _ => n
  }

  function Finish(n: Net, worker: nat, verdict: Verdict): Net {
    if worker !in n.workers then n
    else
      var r := n.workers[worker];
      var n1 := n.(workers := n.workers - {worker},
                   up := Commit(n.up, r.sequence, r.body, !n.closed && verdict.Applied?),
                   effects := if !n.closed && (verdict.Applied? || verdict.Aborted?) then
                                n.effects + [Effect(r.sequence, verdict.Applied?)]
                              else n.effects);
      if n.closed || !verdict.Applied? then n1
      else n1.(applied := n.applied + [r.body], acks := n.acks + {r.sequence})
  }

  function Step(n: Net, e: Event): Net {
    match e
    case AppQueues(data) => n.(source := n.source + data)
    case BridgePacks(body) =>
      if |n.bodies| == n.acked && Flatten(n.bodies) + body <= n.source then n.(bodies := n.bodies + [body]) else n
    case BridgeSends =>
      if |n.bodies| == n.acked + 1 then n.(sent := n.sent + {Request(n.acked + 1, n.bodies[n.acked])}) else n
    case RequestArrives(r) => Arrive(n, r)
    case WorkerCommits(worker, verdict) => Finish(n, worker, verdict)
    case BridgeReceives(ack) => if ack in n.acks && ack == n.acked + 1 then n.(acked := n.acked + 1) else n
    case SessionCloses => n.(closed := true)
  }

  function Run(events: seq<Event>): Net {
    if events == [] then START else Step(Run(events[..|events| - 1]), events[|events| - 1])
  }

  predicate GoodRequest(r: Request, bodies: seq<Bytes>, acked: nat) {
    1 <= r.sequence <= |bodies| && r.sequence <= acked + 1 && r.body == bodies[r.sequence - 1]
  }

  ghost predicate Bridge(n: Net) {
    && n.acked <= |n.bodies| <= n.acked + 1
    && Flatten(n.bodies) <= n.source
    && (forall r | r in n.sent :: GoodRequest(r, n.bodies, n.acked))
    && (forall a | a in n.acks :: a <= n.up.lastSequence)
  }

  ghost predicate Relay(n: Net) {
    && n.acked <= n.up.lastSequence <= |n.bodies|
    && n.applied == n.bodies[..n.up.lastSequence]
    && (n.up.lastSequence > 0 ==> n.up.lastBody == n.bodies[n.up.lastSequence - 1])
    && Wholes(n.effects) == n.up.lastSequence
    && forall i | 0 <= i < |n.effects| :: n.effects[i].sequence == Wholes(n.effects[..i]) + 1
  }

  function Wholes(effects: seq<Effect>): nat {
    if effects == [] then 0 else Wholes(effects[..|effects| - 1]) + if effects[|effects| - 1].whole then 1 else 0
  }

  lemma EffectJoins(effects: seq<Effect>, e: Effect)
    requires forall i | 0 <= i < |effects| :: effects[i].sequence == Wholes(effects[..i]) + 1
    requires e.sequence == Wholes(effects) + 1
    ensures Wholes(effects + [e]) == Wholes(effects) + if e.whole then 1 else 0
    ensures forall i | 0 <= i < |effects + [e]| :: (effects + [e])[i].sequence == Wholes((effects + [e])[..i]) + 1
  {
    var more := effects + [e];
    assert more[..|effects|] == effects;
    forall i | 0 <= i < |more|
      ensures more[i].sequence == Wholes(more[..i]) + 1
    {
      if i < |effects| {
        assert more[..i] == effects[..i];
      }
    }
  }

  /** At most one handler is between the locks, `upActive` says so, and it holds the next batch. */
  ghost predicate OneWorker(n: Net) {
    && (forall w | w in n.workers ::
          && w < n.nextWorker && n.workers.Keys == {w} && n.up.active
          && n.workers[w] in n.sent && n.workers[w].sequence == n.up.lastSequence + 1)
    && (n.up.active ==> n.workers != map[])
  }

  ghost predicate Sound(n: Net) {
    Bridge(n) && Relay(n) && OneWorker(n)
  }

  lemma PackSound(n: Net, body: Bytes)
    requires Sound(n) && |n.bodies| == n.acked && Flatten(n.bodies) + body <= n.source
    ensures Sound(n.(bodies := n.bodies + [body]))
  {
    hide Wholes, Flatten;
    FlattenSnoc(n.bodies, body);
    assert (n.bodies + [body])[..n.up.lastSequence] == n.bodies[..n.up.lastSequence];
  }

  lemma FinishSound(n: Net, worker: nat, verdict: Verdict)
    requires Sound(n)
    ensures Sound(Finish(n, worker, verdict))
  {
    hide Wholes, Flatten;
    if worker in n.workers {
      var r := n.workers[worker];
      assert GoodRequest(r, n.bodies, n.acked);
      assert n.workers - {worker} == map[];
      EffectJoins(n.effects, Effect(r.sequence, verdict.Applied?));
      assert n.bodies[..n.up.lastSequence] + [r.body] == n.bodies[..n.up.lastSequence + 1];
    }
  }

  lemma ArriveSound(n: Net, r: Request)
    requires Sound(n)
    ensures Sound(Arrive(n, r))
  {
    hide Wholes, Flatten;
    if !n.closed && r in n.sent && Admit(n.up, r.sequence, r.body).Begin? {
      assert n.workers == map[];
      assert n.workers[n.nextWorker := r].Keys == {n.nextWorker};
    }
  }

  lemma StepSound(n: Net, e: Event)
    requires Sound(n)
    ensures Sound(Step(n, e))
  {
    match e
    case BridgePacks(body) =>
      if |n.bodies| == n.acked && Flatten(n.bodies) + body <= n.source {
        PackSound(n, body);
      }
    case WorkerCommits(worker, verdict) => FinishSound(n, worker, verdict);
    case RequestArrives(r) => ArriveSound(n, r);
    case _ =>
  }

  lemma {:induction false} RunSound(events: seq<Event>)
    ensures Sound(Run(events))
  {
    if events != [] {
      RunSound(events[..|events| - 1]);
      StepSound(Run(events[..|events| - 1]), events[|events| - 1]);
    }
  }

  /**
   * The relay commits the bridge's bodies in order, each once: what it has applied whole is a prefix of
   * what the bridge formed, acknowledged bodies are all in it, and at most one more is.
   */
  lemma AppliedInOrderOnce(events: seq<Event>)
    ensures var n := Run(events);
      && n.up.lastSequence <= |n.bodies| && n.applied == n.bodies[..n.up.lastSequence]
      && n.acked <= |n.applied| <= n.acked + 1
      && (forall a | a in n.acks :: a <= |n.applied|)
  {
    hide Wholes, Flatten, Run;
    RunSound(events);
  }

  lemma AppliedPrefix(n: Net)
    requires Sound(n)
    ensures n.acked <= |n.bodies| && Flatten(n.bodies[..n.acked]) <= Flatten(n.applied) <= n.source
  {
    hide Wholes, Flatten, OneWorker;
    var k := n.up.lastSequence;
    assert n.bodies == n.bodies[..k] + n.bodies[k..];
    FlattenAppend(n.bodies[..k], n.bodies[k..]);
    assert n.bodies[..k] == n.bodies[..n.acked] + n.bodies[n.acked..k];
    FlattenAppend(n.bodies[..n.acked], n.bodies[n.acked..k]);
  }

  /** The body a handler holds comes next after those applied. */
  lemma NextBodyFollows(n: Net, worker: nat)
    requires Sound(n) && worker in n.workers
    ensures Flatten(n.applied) + n.workers[worker].body <= n.source
  {
    hide Wholes, Flatten;
    var r, k := n.workers[worker], n.up.lastSequence;
    assert GoodRequest(r, n.bodies, n.acked);
    assert n.bodies == (n.bodies[..k] + [r.body]) + n.bodies[k + 1..];
    FlattenAppend(n.bodies[..k] + [r.body], n.bodies[k + 1..]);
    FlattenSnoc(n.bodies[..k], r.body);
  }

  /** As bytes: the relay applies a prefix of what the app queued. */
  lemma AppliedBytesArePrefixOfSource(events: seq<Event>)
    ensures var n := Run(events);
      n.acked <= |n.bodies| && Flatten(n.bodies[..n.acked]) <= Flatten(n.applied) <= n.source
  {
    hide Sound, Flatten;
    RunSound(events);
    AppliedPrefix(Run(events));
  }

  /** Among the first `n` effects, as many were whole as the next one's sequence says. */
  lemma {:induction false} AllWhole(effects: seq<Effect>, n: nat)
    requires n <= |effects| && forall i | 0 <= i < n :: effects[i].whole
    ensures Wholes(effects[..n]) == n
  {
    if n > 0 {
      assert effects[..n][..n - 1] == effects[..n - 1];
      AllWhole(effects, n - 1);
    }
  }

  /** Every apply but the last has been whole. */
  predicate HaltsLast(effects: seq<Effect>) {
    forall i | 0 <= i < |effects| - 1 :: effects[i].whole
  }

  /**
   * Every apply, halfway ones included, is of the body that follows those committed; so bodies take
   * effect in order, and each at most once exactly when none is applied after one that stopped halfway.
   */
  lemma EachTakesEffectOnceIff(events: seq<Event>)
    ensures var effects := Run(events).effects;
      && (forall i | 0 <= i < |effects| :: effects[i].sequence == Wholes(effects[..i]) + 1)
      && ((forall i, j | 0 <= i < j < |effects| :: effects[i].sequence != effects[j].sequence) <==> HaltsLast(effects))
  {
    hide Run, Bridge, OneWorker;
    RunSound(events);
    var effects := Run(events).effects;
    if HaltsLast(effects) {
      forall i, j | 0 <= i < j < |effects|
        ensures effects[i].sequence != effects[j].sequence
      {
        AllWhole(effects, i);
        AllWhole(effects, j);
      }
    } else {
      var i :| 0 <= i < |effects| - 1 && !effects[i].whole;
      assert effects[..i + 1][..i] == effects[..i];
      assert effects[i].sequence == effects[i + 1].sequence;
    }
  }

  /** A body resent under its own sequence never closes the session, at any point of the exchange. */
  lemma RetryIsNeverRefused(events: seq<Event>)
    ensures var n := Run(events);
      !n.closed && |n.bodies| == n.acked + 1 ==>
        match Admit(n.up, n.acked + 1, n.bodies[n.acked])
        case Mismatch => false
        case OutOfOrder => false
        case Acknowledge => n.acked < |n.applied|
        case Busy => n.acked == |n.applied| && n.workers != map[]
        case Begin => n.acked == |n.applied| && n.workers == map[]
  {
    hide Wholes, Flatten, Run;
    RunSound(events);
  }

  // Nothing gets stuck.

  lemma RunAppend(events: seq<Event>, e: Event)
    ensures Run(events + [e]) == Step(Run(events), e)
  {
    assert (events + [e])[..|events|] == events;
  }

  lemma RunThree(events: seq<Event>, a: Event, b: Event, c: Event)
    ensures Run(events + [a, b, c]) == Step(Step(Step(Run(events), a), b), c)
  {
    hide Run, Step;
    RunAppend(events, a);
    RunAppend(events + [a], b);
    RunAppend(events + [a] + [b], c);
    assert events + [a] + [b] + [c] == events + [a, b, c];
  }

  /** The bridge's body, sent again, is taken up by a handler unless one has it or it is already applied. */
  lemma HandlerTakesUp(events: seq<Event>) returns (more: seq<Event>, worker: nat)
    requires var n := Run(events); !n.closed && |n.bodies| == n.acked + 1 && |n.applied| == n.acked
    ensures var n, n' := Run(events), Run(events + more);
      && n' == n.(sent := n'.sent, up := n'.up, workers := n'.workers, nextWorker := n'.nextWorker)
      && n'.up.lastSequence == n.up.lastSequence && worker in n'.workers
  {
    hide Wholes, Flatten, Run;
    RunSound(events);
    var n := Run(events);
    var r := Request(n.acked + 1, n.bodies[n.acked]);
    if n.workers != map[] {
      worker :| worker in n.workers;
      more := [];
      assert events + more == events;
    } else {
      worker := n.nextWorker;
      more := [BridgeSends, RequestArrives(r)];
      RunAppend(events, BridgeSends);
      RunAppend(events + [BridgeSends], RequestArrives(r));
      assert events + [BridgeSends] + [RequestArrives(r)] == events + more;
    }
  }

  /**
   * From every reachable open state some continuation has the bridge's outstanding body applied, if it is
   * not, and acknowledged: the exchange is never stuck.
   */
  lemma CanAlwaysAcknowledge(events: seq<Event>) returns (more: seq<Event>)
    requires !Run(events).closed && |Run(events).bodies| == Run(events).acked + 1
    ensures var n, n' := Run(events), Run(events + more);
      !n'.closed && n'.bodies == n.bodies && n'.acked == |n.bodies| && n'.applied == n.bodies
  {
    hide Wholes, Flatten, Run;
    RunSound(events);
    var n := Run(events);
    var r := Request(n.acked + 1, n.bodies[n.acked]);
    if |n.applied| == n.acked + 1 {
      more := [BridgeSends, RequestArrives(r), BridgeReceives(r.sequence)];
      RunThree(events, more[0], more[1], more[2]);
    } else {
      var before, worker := HandlerTakesUp(events);
      RunSound(events + before);
      var m := Run(events + before);
      assert GoodRequest(m.workers[worker], m.bodies, m.acked);
      RunAppend(events + before, WorkerCommits(worker, Applied));
      RunAppend(events + before + [WorkerCommits(worker, Applied)], BridgeReceives(r.sequence));
      more := before + [WorkerCommits(worker, Applied), BridgeReceives(r.sequence)];
      assert events + before + [WorkerCommits(worker, Applied)] + [BridgeReceives(r.sequence)] == events + more;
    }
    RunSound(events + more);
  }

  /** A closed session applies nothing more, whatever handlers were still parsing. */
  lemma {:induction false} ClosedStaysQuiet(before: seq<Event>, after: seq<Event>)
    requires Run(before).closed
    ensures Run(before + after).closed && Run(before + after).applied == Run(before).applied
  {
    if after == [] {
      assert before + after == before;
    } else {
      assert (before + after)[..|before + after| - 1] == before + after[..|after| - 1];
      ClosedStaysQuiet(before, after[..|after| - 1]);
    }
  }

  /** The frames of a run of bodies the parser accepted. */
  ghost function FramesOf(bodies: seq<Bytes>, maxPayload: int): seq<Frame>
    requires forall i | 0 <= i < |bodies| :: Parsed(bodies[i], maxPayload).Ok?
  {
    if bodies == [] then []
    else FramesOf(bodies[..|bodies| - 1], maxPayload) + Parsed(bodies[|bodies| - 1], maxPayload).value
  }

  lemma {:induction false} FramesReencode(bodies: seq<Bytes>, maxPayload: int)
    requires forall i | 0 <= i < |bodies| :: Parsed(bodies[i], maxPayload).Ok?
    ensures AllFit(FramesOf(bodies, maxPayload), MAX_PAYLOAD)
    ensures EncodeAll(FramesOf(bodies, maxPayload)) == Flatten(bodies)
  {
    hide Parsed, Encoded;
    if bodies != [] {
      var init, last := bodies[..|bodies| - 1], bodies[|bodies| - 1];
      FramesReencode(init, maxPayload);
      ParseIsCanonical(last, maxPayload);
      EncodeAllAppend(FramesOf(init, maxPayload), Parsed(last, maxPayload).value);
      FlattenSnoc(init, last);
      assert bodies == init + [last];
    }
  }

  /** As frames: however the bridge cut its bodies, the relay applies a prefix of the app's frames. */
  lemma AppliedFramesArePrefixOfApp(events: seq<Event>, app: seq<Frame>, maxPayload: int)
    requires AllFit(app, MAX_PAYLOAD) && Run(events).source == EncodeAll(app)
    requires forall i | 0 <= i < |Run(events).applied| :: Parsed(Run(events).applied[i], maxPayload).Ok?
    ensures FramesOf(Run(events).applied, maxPayload) <= app
  {
    hide Parsed, Run, EncodeAll, Flatten;
    AppliedBytesArePrefixOfSource(events);
    FramesReencode(Run(events).applied, maxPayload);
    EncodedPrefixIsFramePrefix(FramesOf(Run(events).applied, maxPayload), app);
  }
}

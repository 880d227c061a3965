/** The manager's stream and dial counters against the backend goroutines they count. */
module Accounting {
  import opened Outcomes
  import opened PairedRates
  import opened Tallies

  /** MaxStreamsGlobal, MaxBackendDialsInFlight, and the same two per profile. */
  datatype Caps = Caps(streams: int, dials: int, streamsOf: string -> int, dialsOf: string -> int, quotas: Quotas)

  /** The counters a Manager keeps under its lock, and the stream buckets. */
  datatype Ledger = Ledger(
    streamsLive: int, dialsInFlight: int,
    streamsPer: map<string, int>, dialsPer: map<string, int>,
    rate: Pair, closed: bool)

  const NEW_LEDGER := Ledger(0, 0, map[], map[], NEW_PAIR, false)

  predicate Full(l: Ledger, p: string, caps: Caps) {
    || l.closed
    || l.streamsLive >= caps.streams || l.dialsInFlight >= caps.dials
    || Entry(l.streamsPer, p) >= caps.streamsOf(p) || Entry(l.dialsPer, p) >= caps.dialsOf(p)
  }

  /** acquireStream. */
  function Acquire(l: Ledger, p: string, now: real, caps: Caps): (Ledger, bool) {
    if Full(l, p, caps) then (l, false)
    else
      var (rate, allowed) := TakePair(l.rate, Call(now, p), caps.quotas);
      if !allowed then (l.(rate := rate), false)
      else
        (Ledger(l.streamsLive + 1, l.dialsInFlight + 1,
                Raised(l.streamsPer, p), Raised(l.dialsPer, p),
                rate, l.closed), true)
  }

  /** backendDialFinished; None is its panic. */
  function EndDial(l: Ledger, p: string): Option<Ledger> {
    if l.dialsInFlight <= 0 || Entry(l.dialsPer, p) <= 0 then None
    else Some(l.(dialsInFlight := l.dialsInFlight - 1, dialsPer := Lowered(l.dialsPer, p)))
  }

  /** streamFinished; None is its panic. */
  function EndStream(l: Ledger, p: string): Option<Ledger> {
    if l.streamsLive <= 0 || Entry(l.streamsPer, p) <= 0 then None
    else Some(l.(streamsLive := l.streamsLive - 1, streamsPer := Lowered(l.streamsPer, p)))
  }

  /** The Manager's fields that count streams, updated in place. */
  class StreamCounters {
    var streamsLive: int
    var backendDialsInFlight: int
    var streamsPerProfile: map<string, int>
    var dialsPerProfile: map<string, int>
    var closed: bool
    const streamRate: PairedBucket

    function View(): Ledger
      reads this, streamRate
    {
      Ledger(streamsLive, backendDialsInFlight, streamsPerProfile, dialsPerProfile,
             Pair(streamRate.global, streamRate.profiles), closed)
    }

    constructor ()
      ensures View() == NEW_LEDGER && fresh(streamRate)
    {
      streamsLive, backendDialsInFlight, streamsPerProfile, dialsPerProfile, closed := 0, 0, map[], map[], false;
      streamRate := new PairedBucket();
    }

    method AcquireStream(p: string, now: real, caps: Caps) returns (ok: bool)
      modifies this, streamRate
      ensures (View(), ok) == Acquire(old(View()), p, now, caps)
    {
      hide TakePair;
      if closed || streamsLive >= caps.streams || backendDialsInFlight >= caps.dials
         || (if p in streamsPerProfile then streamsPerProfile[p] else 0) >= caps.streamsOf(p)
         || (if p in dialsPerProfile then dialsPerProfile[p] else 0) >= caps.dialsOf(p) {
        return false;
      }
      var allowed := streamRate.Allow(now, p, caps.quotas);
      if !allowed {
        return false;
      }
      streamsLive, backendDialsInFlight := streamsLive + 1, backendDialsInFlight + 1;
      streamsPerProfile := streamsPerProfile[p := (if p in streamsPerProfile then streamsPerProfile[p] else 0) + 1];
      dialsPerProfile := dialsPerProfile[p := (if p in dialsPerProfile then dialsPerProfile[p] else 0) + 1];
      return true;
    }

    /** Shutdown's refusal of further streams. */
    method Shutdown()
      modifies this`closed
      ensures View() == old(View()).(closed := true)
    {
      closed := true;
    }

    /** False is the panic. */
    method BackendDialFinished(p: string) returns (ok: bool)
      modifies this
      ensures match EndDial(old(View()), p)
        case None => !ok && View() == old(View())
        case Some(l) => ok && View() == l
    {
      if backendDialsInFlight <= 0 || Entry(dialsPerProfile, p) <= 0 {
        return false;
      }
      backendDialsInFlight := backendDialsInFlight - 1;
      dialsPerProfile := dialsPerProfile[p := dialsPerProfile[p] - 1];
      if dialsPerProfile[p] == 0 {
        dialsPerProfile := dialsPerProfile - {p};
        assert dialsPerProfile == old(dialsPerProfile) - {p};
      }
      return true;
    }

    /** False is the panic. */
    method StreamFinished(p: string) returns (ok: bool)
      modifies this
      ensures match EndStream(old(View()), p)
        case None => !ok && View() == old(View())
        case Some(l) => ok && View() == l
    {
      if streamsLive <= 0 || Entry(streamsPerProfile, p) <= 0 {
        return false;
      }
      streamsLive := streamsLive - 1;
      streamsPerProfile := streamsPerProfile[p := streamsPerProfile[p] - 1];
      if streamsPerProfile[p] == 0 {
        streamsPerProfile := streamsPerProfile - {p};
        assert streamsPerProfile == old(streamsPerProfile) - {p};
      }
      return true;
    }
  }

  // The goroutines.

  /** One admitted stream's runBackend: dialing until backendDialFinished, then serving until its end. */
  datatype Task = Task(profile: string, dialing: bool)

  datatype World = World(ledger: Ledger, tasks: map<int, Task>, nextTask: int, panicked: bool)

  const START := World(NEW_LEDGER, map[], 0, false)

  /**
   * Opens: an OPEN frame asks for a stream; granted, its goroutine is started, whether or not the rest
   * of the batch applies. DialEnds: connected, failed or cancelled by a closing session. RunEnds: run
   * returns. A step out of order for its task does not happen.
   */
  datatype Event = Opens(profile: string, now: real) | DialEnds(task: int) | RunEnds(task: int) | Shutdown

  function Settle(w: World, l: Option<Ledger>, tasks: map<int, Task>): World {
    match l
    case None => w.(panicked := true)
    case Some(ledger) => w.(ledger := ledger, tasks := tasks)
  }

  function Step(w: World, e: Event, caps: Caps): World {
    match e
    case Opens(p, now) =>
      var (ledger, granted) := Acquire(w.ledger, p, now, caps);
      if granted then World(ledger, w.tasks[w.nextTask := Task(p, true)], w.nextTask + 1, w.panicked)
      else w.(ledger := ledger)
    case DialEnds(t) =>
      if t !in w.tasks || !w.tasks[t].dialing then w
      else Settle(w, EndDial(w.ledger, w.tasks[t].profile), w.tasks[t := w.tasks[t].(dialing := false)])
    case RunEnds(t) =>
      if t !in w.tasks || w.tasks[t].dialing then w
      else Settle(w, EndStream(w.ledger, w.tasks[t].profile), w.tasks - {t})
    case Shutdown => w.(ledger := w.ledger.(closed := true))
  }

  function Run(events: seq<Event>, caps: Caps): World {
    if events == [] then START else Step(Run(events[..|events| - 1], caps), events[|events| - 1], caps)
  }

  function Of(tasks: map<int, Task>): string -> set<int> {
    p => set t | t in tasks && tasks[t].profile == p
  }

  function Dialing(tasks: map<int, Task>): set<int> {
    set t | t in tasks && tasks[t].dialing
  }

  function DialingOf(tasks: map<int, Task>): string -> set<int> {
    p => set t | t in tasks && tasks[t].dialing && tasks[t].profile == p
  }

  /** Every counter equals the number of tasks it counts. */
  ghost predicate Counted(w: World) {
    var l := w.ledger;
    && l.streamsLive == |w.tasks.Keys| && l.dialsInFlight == |Dialing(w.tasks)|
    && Tallied(l.streamsPer, Of(w.tasks)) && Tallied(l.dialsPer, DialingOf(w.tasks))
    && (forall t | t in w.tasks :: t < w.nextTask)
  }

  ghost predicate Capped(w: World, caps: Caps) {
    && 0 <= w.ledger.streamsLive <= caps.streams && 0 <= w.ledger.dialsInFlight <= caps.dials
    && Within(w.ledger.streamsPer, caps.streamsOf) && Within(w.ledger.dialsPer, caps.dialsOf)
  }

  lemma OpensCounted(w: World, p: string, now: real, caps: Caps)
    requires Counted(w) && Capped(w, caps)
    ensures Counted(Step(w, Opens(p, now), caps)) && Capped(Step(w, Opens(p, now), caps), caps)
  {
    hide TakePair, Counted, Capped;
    if Acquire(w.ledger, p, now, caps).1 {
      GrantCounted(w, p, caps, Acquire(w.ledger, p, now, caps).0);
      GrantCapped(w, p, caps, Acquire(w.ledger, p, now, caps).0);
    } else {
      SameCounters(w, Acquire(w.ledger, p, now, caps).0, caps);
    }
  }

  lemma SameCounters(w: World, l: Ledger, caps: Caps)
    requires Counted(w) && Capped(w, caps)
    requires l == w.ledger.(rate := l.rate, closed := l.closed)
    ensures Counted(w.(ledger := l)) && Capped(w.(ledger := l), caps)
  {
    hide Tallied, Within, Of, DialingOf, Dialing;
  }

  predicate Granted(w: World, p: string, caps: Caps, l: Ledger) {
    && !Full(w.ledger, p, caps)
    && l.streamsLive == w.ledger.streamsLive + 1 && l.dialsInFlight == w.ledger.dialsInFlight + 1
    && l.streamsPer == Raised(w.ledger.streamsPer, p)
    && l.dialsPer == Raised(w.ledger.dialsPer, p)
  }

  lemma GrantCounted(w: World, p: string, caps: Caps, l: Ledger)
    requires Counted(w) && Granted(w, p, caps, l)
    ensures Counted(World(l, w.tasks[w.nextTask := Task(p, true)], w.nextTask + 1, w.panicked))
  {
    hide Tallied, Of, DialingOf, Entry, Dialing, Full;
    CountsOpen(w.tasks, w.nextTask, p);
    TablesOpen(w.tasks, w.nextTask, p, w.ledger.streamsPer, w.ledger.dialsPer);
  }

  lemma TablesOpen(tasks: map<int, Task>, t: int, p: string, streamsPer: map<string, int>, dialsPer: map<string, int>)
    requires t !in tasks && Tallied(streamsPer, Of(tasks)) && Tallied(dialsPer, DialingOf(tasks))
    ensures var more := tasks[t := Task(p, true)];
      && Tallied(Raised(streamsPer, p), Of(more))
      && Tallied(Raised(dialsPer, p), DialingOf(more))
  {
    hide Tallied, Of, DialingOf, Entry;
    var more := tasks[t := Task(p, true)];
    TaskOpens(tasks, t, p);
    RaiseTally(streamsPer, Of(tasks), Of(more), p, t);
    RaiseTally(dialsPer, DialingOf(tasks), DialingOf(more), p, t);
  }

  lemma GrantCapped(w: World, p: string, caps: Caps, l: Ledger)
    requires Capped(w, caps) && Granted(w, p, caps, l)
    ensures Capped(World(l, w.tasks[w.nextTask := Task(p, true)], w.nextTask + 1, w.panicked), caps)
  {
    hide Within, Entry;
    RaiseWithin(w.ledger.streamsPer, p, caps.streamsOf);
    RaiseWithin(w.ledger.dialsPer, p, caps.dialsOf);
  }

  lemma TaskOpens(tasks: map<int, Task>, t: int, p: string)
    requires t !in tasks
    ensures var more := tasks[t := Task(p, true)];
      && t !in Of(tasks)(p) && t !in DialingOf(tasks)(p)
      && (forall q :: Of(more)(q) == if q == p then Of(tasks)(q) + {t} else Of(tasks)(q))
      && (forall q :: DialingOf(more)(q) == if q == p then DialingOf(tasks)(q) + {t} else DialingOf(tasks)(q))
  {
  }

  lemma CountsOpen(tasks: map<int, Task>, t: int, p: string)
    requires t !in tasks
    ensures var more := tasks[t := Task(p, true)];
      |more.Keys| == |tasks.Keys| + 1 && |Dialing(more)| == |Dialing(tasks)| + 1
  {
    var more := tasks[t := Task(p, true)];
    assert more.Keys == tasks.Keys + {t};
    OneMore(Dialing(tasks), Dialing(more), t);
  }

  lemma DialEndsCounted(w: World, t: int, caps: Caps)
    requires Counted(w) && Capped(w, caps) && t in w.tasks && w.tasks[t].dialing
    ensures EndDial(w.ledger, w.tasks[t].profile).Some?
    ensures Counted(Step(w, DialEnds(t), caps)) && Capped(Step(w, DialEnds(t), caps), caps)
  {
    hide Tallied, Within;
    var tasks, p := w.tasks, w.tasks[t].profile;
    var after := tasks[t := tasks[t].(dialing := false)];
    assert after.Keys == tasks.Keys && Dialing(after) == Dialing(tasks) - {t} && t in Dialing(tasks);
    SameTally(w.ledger.streamsPer, Of(tasks), Of(after));
    LowerTally(w.ledger.dialsPer, DialingOf(tasks), DialingOf(after), p, t);
    LowerWithin(w.ledger.dialsPer, p, caps.dialsOf);
  }

  lemma RunEndsCounted(w: World, t: int, caps: Caps)
    requires Counted(w) && Capped(w, caps) && t in w.tasks && !w.tasks[t].dialing
    ensures EndStream(w.ledger, w.tasks[t].profile).Some?
    ensures Counted(Step(w, RunEnds(t), caps)) && Capped(Step(w, RunEnds(t), caps), caps)
  {
    hide Tallied, Within;
    var tasks, p := w.tasks, w.tasks[t].profile;
    var after := tasks - {t};
    assert after.Keys == tasks.Keys - {t} && Dialing(after) == Dialing(tasks);
    SameTally(w.ledger.dialsPer, DialingOf(tasks), DialingOf(after));
    LowerTally(w.ledger.streamsPer, Of(tasks), Of(after), p, t);
    LowerWithin(w.ledger.streamsPer, p, caps.streamsOf);
  }

  ghost predicate NonnegativeCaps(caps: Caps) {
    caps.streams >= 0 && caps.dials >= 0 && forall p :: caps.streamsOf(p) >= 0 && caps.dialsOf(p) >= 0
  }

  /**
   * Over every interleaving of opens, dials ending, backends returning and shutdown: the four counters
   * equal the tasks they count, stay within the global and profile caps, and neither accounting panic
   * is reached.
   */
  lemma {:induction false} CountersMatchTasks(events: seq<Event>, caps: Caps)
    requires NonnegativeCaps(caps)
    ensures var w := Run(events, caps);
      Counted(w) && Capped(w, caps) && !w.panicked
  {
    hide Counted, Capped, Acquire, EndDial, EndStream;
    if |events| == 0 {
      StartCounted(caps);
    } else {
      CountersMatchTasks(events[..|events| - 1], caps);
      var w := Run(events[..|events| - 1], caps);
      match events[|events| - 1]
      case Opens(p, now) => OpensCounted(w, p, now, caps);
      case DialEnds(t) =>
        if t in w.tasks && w.tasks[t].dialing {
          DialEndsCounted(w, t, caps);
        }
      case RunEnds(t) =>
        if t in w.tasks && !w.tasks[t].dialing {
          RunEndsCounted(w, t, caps);
        }
      case Shutdown => SameCounters(w, w.ledger.(closed := true), caps);
    }
  }

  lemma StartCounted(caps: Caps)
    requires NonnegativeCaps(caps)
    ensures Counted(START) && Capped(START, caps)
  {
  }

  /** When the last backend has returned, every counter is back to zero and both tables are empty. */
  lemma QuietMeansZero(events: seq<Event>, caps: Caps)
    requires NonnegativeCaps(caps) && Run(events, caps).tasks == map[]
    ensures var l := Run(events, caps).ledger;
      l.streamsLive == 0 && l.dialsInFlight == 0 && l.streamsPer == map[] && l.dialsPer == map[]
  {
    CountersMatchTasks(events, caps);
    var w := Run(events, caps);
    assert w.tasks.Keys == {} && Dialing(w.tasks) == {};
    forall p
      ensures p !in w.ledger.streamsPer && p !in w.ledger.dialsPer
    {
      assert Of(w.tasks)(p) == {} && DialingOf(w.tasks)(p) == {};
      assert Entry(w.ledger.streamsPer, p) == 0 && Entry(w.ledger.dialsPer, p) == 0;
    }
  }

  // Which opens start a backend.

  /** Room for one more stream of profile `p`, counting the backends there are. */
  predicate HasRoom(tasks: map<int, Task>, p: string, caps: Caps) {
    && |tasks| < caps.streams && |Dialing(tasks)| < caps.dials
    && |Of(tasks)(p)| < caps.streamsOf(p) && |DialingOf(tasks)(p)| < caps.dialsOf(p)
  }

  /** The calls that reach the rate buckets: opens before Shutdown that find room. */
  function Asked(events: seq<Event>, caps: Caps): seq<Call> {
    if events == [] then []
    else
      var before, last := events[..|events| - 1], events[|events| - 1];
      if last.Opens? && Shutdown !in before && HasRoom(Run(before, caps).tasks, last.profile, caps) then
        Asked(before, caps) + [Call(last.now, last.profile)]
      else Asked(before, caps)
  }

  lemma FullIffNoRoom(w: World, p: string, caps: Caps)
    requires Counted(w)
    ensures Full(w.ledger, p, caps) <==> w.ledger.closed || !HasRoom(w.tasks, p, caps)
  {
    assert |w.tasks| == |w.tasks.Keys|;
    assert Entry(w.ledger.streamsPer, p) == |Of(w.tasks)(p)| && Entry(w.ledger.dialsPer, p) == |DialingOf(w.tasks)(p)|;
  }

  /** The buckets are as the calls that reached them left them, and Shutdown is never undone. */
  lemma {:induction false} BucketsAfterAsked(events: seq<Event>, caps: Caps)
    requires NonnegativeCaps(caps)
    ensures var l, calls := Run(events, caps).ledger, Asked(events, caps);
      l.rate == AfterCalls(calls, |calls|, caps.quotas) && (l.closed <==> Shutdown in events)
  {
    hide Counted, Capped, HasRoom, TakePair, Full;
    if events != [] {
      var before, last := events[..|events| - 1], events[|events| - 1];
      BucketsAfterAsked(before, caps);
      CountersMatchTasks(before, caps);
      assert Shutdown in events <==> Shutdown in before || last == Shutdown;
      if last.Opens? {
        FullIffNoRoom(Run(before, caps), last.profile, caps);
        EarlierPairs(Asked(before, caps), Call(last.now, last.profile), |Asked(before, caps)|, caps.quotas);
      }
    }
  }

  /**
   * In every run an open starts exactly one backend, or none; it starts one if and only if there was no
   * Shutdown, the backends, those dialing, the profile's and the profile's dialing are each below their
   * caps, and both buckets allow the call. With times in order the buckets allow it exactly when every
   * window of both has room.
   */
  lemma OpensStartIff(events: seq<Event>, p: string, now: real, caps: Caps)
    requires NonnegativeCaps(caps)
    ensures var tasks, calls := Run(events, caps).tasks, Asked(events, caps) + [Call(now, p)];
      var i, next := |calls| - 1, Run(events, caps).nextTask;
      && next !in tasks
      && Run(events + [Opens(p, now)], caps).tasks ==
           (if && Shutdown !in events
               && |tasks| < caps.streams && |Dialing(tasks)| < caps.dials
               && |Of(tasks)(p)| < caps.streamsOf(p) && |DialingOf(tasks)(p)| < caps.dialsOf(p)
               && Allowed(calls, i, caps.quotas)
            then tasks[next := Task(p, true)] else tasks)
      && (InOrder(calls) && GoodQuotas(caps.quotas, calls) ==>
            (Allowed(calls, i, caps.quotas) <==>
               AllWindowsHaveRoom(calls, Global, i, caps.quotas)
               && AllWindowsHaveRoom(calls, Profile(p), i, caps.quotas)))
  {
    hide Run, Capped, TakePair, Full, InOrder, GoodQuotas, AllWindowsHaveRoom, Tallied, Asked;
    CountersMatchTasks(events, caps);
    BucketsAfterAsked(events, caps);
    var w, calls := Run(events, caps), Asked(events, caps) + [Call(now, p)];
    FullIffNoRoom(w, p, caps);
    EarlierPairs(Asked(events, caps), Call(now, p), |calls| - 1, caps.quotas);
    OneMoreEvent(events, Opens(p, now), caps);
    if InOrder(calls) && GoodQuotas(caps.quotas, calls) {
      PairedAllowedIff(calls, |calls| - 1, caps.quotas);
    }
  }

  lemma OneMoreEvent(events: seq<Event>, e: Event, caps: Caps)
    ensures Run(events + [e], caps) == Step(Run(events, caps), e, caps)
  {
    hide Step;
    assert (events + [e])[..|events|] == events;
  }
}

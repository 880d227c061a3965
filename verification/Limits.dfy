/** Pending-budget arithmetic: per-session classes, the global pool and the reserves between them. */
module Limits {
  import opened Frames

  const MAX_INT := 0x7FFF_FFFF_FFFF_FFFF
  const QUEUE_ITEM_COST := 256
  const CONTROL_EXTRA_ITEMS := 16
  const CONTROL_ITEMS_PER_STREAM := 3
  const CONTROL_ITEM_COST := QUEUE_ITEM_COST + HEADER_SIZE + 4

  datatype Limits = Limits(
    maxBodyBytes: int, maxFramePayload: int, carrierBatchBytes: int,
    maxStreamsPerSession: int, maxClosedStreamIDs: int,
    maxPendingPerSession: int, maxPendingItemsPerSession: int,
    maxPendingGlobal: int, maxPendingItemsGlobal: int, maxSessionsGlobal: int)

  /** The inequalities config.validate enforces on these fields. */
  predicate Sane(l: Limits) {
    && 1024 <= l.maxBodyBytes <= MAX_INT
    && 0 < l.maxFramePayload <= MAX_PAYLOAD
    && 256 * 1024 <= l.carrierBatchBytes <= l.maxBodyBytes
    && 0 < l.maxStreamsPerSession <= MAX_INT
    && 0 < l.maxClosedStreamIDs
    && 0 < l.maxPendingPerSession <= l.maxPendingGlobal <= MAX_INT
    && 0 < l.maxPendingItemsPerSession <= l.maxPendingItemsGlobal <= MAX_INT
    && 0 < l.maxSessionsGlobal
  }

  datatype Class = Uplink | Downlink | Control

  /** A byte cost with an item count. */
  datatype Charge = Charge(cost: int, items: int) {
    predicate Within(limit: Charge) {
      cost <= limit.cost && items <= limit.items
    }
    function Plus(more: Charge): Charge {
      Charge(cost + more.cost, items + more.items)
    }
    function Minus(less: Charge): Charge {
      Charge(cost - less.cost, items - less.items)
    }
  }

  const NOTHING := Charge(0, 0)

  lemma PlusNothing(c: Charge)
    ensures c.Plus(NOTHING) == c && c.Minus(NOTHING) == c && c.Within(c)
  {
  }

  lemma PlusCancels(a: Charge, b: Charge, c: Charge)
    ensures a.Plus(b).Minus(b.Plus(c)) == a.Minus(c)
    ensures a.Plus(b).Minus(b) == a
  {
  }

  function SessionCap(l: Limits): Charge {
    Charge(l.maxPendingPerSession, l.maxPendingItemsPerSession)
  }

  function ControlReserve(l: Limits): (r: Charge)
    requires Sane(l)
    ensures r.cost > 0 && r.items > 0
  {
    if l.maxStreamsPerSession > (MAX_INT - CONTROL_EXTRA_ITEMS) / CONTROL_ITEMS_PER_STREAM then SessionCap(l)
    else
      var items := CONTROL_EXTRA_ITEMS + l.maxStreamsPerSession * CONTROL_ITEMS_PER_STREAM;
      if items > MAX_INT / CONTROL_ITEM_COST then SessionCap(l)
      else Charge(items * CONTROL_ITEM_COST, items)
  }

  function UplinkReserve(l: Limits): Charge
    requires Sane(l)
  {
    var byHeader := l.maxBodyBytes / HEADER_SIZE;
    var items := if byHeader > MAX_BATCH_FRAMES then MAX_BATCH_FRAMES else byHeader;
    if items > (MAX_INT - l.maxBodyBytes) / QUEUE_ITEM_COST then SessionCap(l)
    else Charge(l.maxBodyBytes + items * QUEUE_ITEM_COST, items)
  }

  function SubtractReserve(limit: Charge, reserve: Charge): Charge {
    Charge(
      if reserve.cost >= limit.cost then 0 else limit.cost - reserve.cost,
      if reserve.items >= limit.items then 0 else limit.items - reserve.items)
  }

  function UplinkLimits(l: Limits): Charge
    requires Sane(l)
  {
    SubtractReserve(SessionCap(l), ControlReserve(l))
  }

  function DownlinkLimits(l: Limits): Charge
    requires Sane(l)
  {
    SubtractReserve(UplinkLimits(l), UplinkReserve(l))
  }

  function ClassLimits(l: Limits, purpose: Class): Charge
    requires Sane(l)
  {
    match purpose
    case Uplink => UplinkLimits(l)
    case Downlink => DownlinkLimits(l)
    case Control => SessionCap(l)
  }

  /** changePendingBudget's limits: data leaves every session's control reserve untouched. */
  function PoolLimits(l: Limits, purpose: Class): Charge
    requires Sane(l)
  {
    var cap := Charge(l.maxPendingGlobal, l.maxPendingItemsGlobal);
    if purpose == Control then cap
    else
      var reserve := ControlReserve(l);
      var sessions := l.maxSessionsGlobal;
      Charge(
        if reserve.cost > cap.cost / sessions then 0 else cap.cost - reserve.cost * sessions,
        if reserve.items > cap.items / sessions then 0 else cap.items - reserve.items * sessions)
  }

  /** reservePendingLocked's test against one session's limits. */
  predicate SessionAdmits(l: Limits, held: Charge, want: Charge, purpose: Class)
    requires Sane(l)
  {
    var limit := ClassLimits(l, purpose);
    && want.cost > 0 && want.items >= 0 && want.Within(limit)
    && held.cost <= limit.cost - want.cost && held.items <= limit.items - want.items
  }

  /** changePendingBudget's test for a positive change. */
  predicate PoolAdmits(l: Limits, pool: Charge, want: Charge, purpose: Class)
    requires Sane(l)
  {
    var limit := PoolLimits(l, purpose);
    && want.Within(limit)
    && pool.cost <= limit.cost - want.cost && pool.items <= limit.items - want.items
  }

  predicate ValidateBudget(l: Limits)
    requires Sane(l)
  {
    var reserve := ControlReserve(l);
    && reserve.cost <= l.maxPendingGlobal / l.maxSessionsGlobal
    && reserve.items <= l.maxPendingItemsGlobal / l.maxSessionsGlobal
  }

  lemma QuotientBound(a: int, limit: int, n: int)
    requires n > 0
    ensures a <= limit / n <==> a * n <= limit
  {
    var q := limit / n;
    assert limit == q * n + limit % n;
    if a <= q {
      assert a * n <= q * n;
    } else {
      assert a * n >= (q + 1) * n == q * n + n;
    }
  }

  lemma Scale(a: int, b: int, n: int)
    requires n > 0 && a <= b
    ensures a * n <= b * n
  {
  }

  /**
   * ValidateBudget accepts exactly the configurations whose summed reserve does not exceed the pool.
   * Its comment promises a data budget above zero; that holds unless a reserve equals the pool.
   */
  lemma ValidateBudgetMeaning(l: Limits)
    requires Sane(l)
    ensures ValidateBudget(l) <==>
      && ControlReserve(l).cost * l.maxSessionsGlobal <= l.maxPendingGlobal
      && ControlReserve(l).items * l.maxSessionsGlobal <= l.maxPendingItemsGlobal
    ensures ValidateBudget(l) ==>
      ((PoolLimits(l, Downlink).cost > 0 && PoolLimits(l, Downlink).items > 0) <==>
        && ControlReserve(l).cost * l.maxSessionsGlobal != l.maxPendingGlobal
        && ControlReserve(l).items * l.maxSessionsGlobal != l.maxPendingItemsGlobal)
  {
    QuotientBound(ControlReserve(l).cost, l.maxPendingGlobal, l.maxSessionsGlobal);
    QuotientBound(ControlReserve(l).items, l.maxPendingItemsGlobal, l.maxSessionsGlobal);
  }

  /** The equality case: an accepted configuration in which no DATA frame is ever admitted. */
  lemma ValidateBudgetAdmitsZeroDataBudget() returns (l: Limits)
    ensures Sane(l) && ValidateBudget(l)
    ensures forall pool: Charge, want: Charge, purpose: Class |
      want.cost > 0 && pool.cost >= 0 && purpose != Control :: !PoolAdmits(l, pool, want, purpose)
  {
    l := Limits(2097152, 1048576, 2097152, 128, 4096, 107200, 400, 107200, 400, 1);
    assert ControlReserve(l) == Charge(400 * CONTROL_ITEM_COST, 400);
    assert PoolLimits(l, Downlink).cost == 0;
  }

  /** The reserve is what pendingControlReserve's formula says, not cut off for overflow. */
  predicate Unsaturated(l: Limits)
    requires Sane(l)
  {
    (CONTROL_EXTRA_ITEMS + l.maxStreamsPerSession * CONTROL_ITEMS_PER_STREAM) * CONTROL_ITEM_COST <= MAX_INT
  }

  /** The control reserve holds three control frames a stream and sixteen more, and not one beyond them. */
  lemma ControlReserveHolds(l: Limits, frames: nat)
    requires Sane(l)
    ensures Unsaturated(l) ==>
      (Charge(frames * CONTROL_ITEM_COST, frames).Within(ControlReserve(l)) <==>
         frames <= CONTROL_EXTRA_ITEMS + CONTROL_ITEMS_PER_STREAM * l.maxStreamsPerSession)
    ensures !Unsaturated(l) ==> ControlReserve(l) == SessionCap(l)
  {
  }

  /** The uplink reserve holds the longest body with as many frames as a body can have, and no more. */
  lemma UplinkReserveHolds(l: Limits, frames: nat)
    requires Sane(l)
    ensures l.maxBodyBytes + MAX_BATCH_FRAMES * QUEUE_ITEM_COST <= MAX_INT ==>
      && (frames <= UplinkReserve(l).items <==> frames <= MAX_BATCH_FRAMES && frames * HEADER_SIZE <= l.maxBodyBytes)
      && UplinkReserve(l).cost == l.maxBodyBytes + UplinkReserve(l).items * QUEUE_ITEM_COST
  {
  }

  /**
   * The pool admits a control frame as long as it fits, and DATA exactly when it leaves all sessions'
   * control reserves free.
   */
  lemma PoolAdmitsIff(l: Limits, pool: Charge, want: Charge, purpose: Class)
    requires Sane(l) && ValidateBudget(l) && NOTHING.Within(pool)
    ensures PoolAdmits(l, pool, want, purpose) <==>
      var reserve := if purpose == Control then NOTHING else ControlReserve(l);
      && pool.cost + want.cost + reserve.cost * l.maxSessionsGlobal <= l.maxPendingGlobal
      && pool.items + want.items + reserve.items * l.maxSessionsGlobal <= l.maxPendingItemsGlobal
  {
  }

  /** What a session keeps back from one class of charges for the classes above it. */
  function KeptFrom(l: Limits, purpose: Class): Charge
    requires Sane(l)
  {
    match purpose
    case Control => NOTHING
    case Uplink => ControlReserve(l)
    case Downlink => ControlReserve(l).Plus(UplinkReserve(l))
  }

  /**
   * A session admits a charge exactly when, with what it holds and keeps back, it stays within its own
   * bounds; a charge without items needs none, where nothing is held.
   */
  lemma SessionAdmitsIff(l: Limits, held: Charge, want: Charge, purpose: Class)
    requires Sane(l) && NOTHING.Within(held) && NOTHING.Within(want) && want.cost > 0
    ensures var kept := KeptFrom(l, purpose);
      SessionAdmits(l, held, want, purpose) <==>
        && held.cost + want.cost + kept.cost <= l.maxPendingPerSession
        && (held.items + want.items + kept.items <= l.maxPendingItemsPerSession || held.items + want.items == 0)
  {
    UplinkReserveNonnegative(l);
    hide ControlReserve, UplinkReserve;
  }

  lemma UplinkReserveNonnegative(l: Limits)
    requires Sane(l)
    ensures NOTHING.Within(UplinkReserve(l))
  {
  }

  /** Every admitted DATA reservation leaves all sessions' control reserves free in the pool. */
  lemma DataAdmissionLeavesHeadroom(l: Limits, pool: Charge, want: Charge, purpose: Class)
    requires Sane(l) && ValidateBudget(l)
    requires purpose != Control && PoolAdmits(l, pool, want, purpose)
    ensures pool.cost + want.cost + ControlReserve(l).cost * l.maxSessionsGlobal <= l.maxPendingGlobal
    ensures pool.items + want.items + ControlReserve(l).items * l.maxSessionsGlobal <= l.maxPendingItemsGlobal
  {
  }
}

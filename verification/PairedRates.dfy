/** A global bucket paired with one bucket per profile: a call passes only if both allow it. */
module PairedRates {
  import opened Outcomes
  import opened Rates

  datatype Call = Call(now: real, profile: string)

  /** sessionRate with profileSessionRates, or streamRate with profileStreamRates. */
  datatype Pair = Pair(global: Rate, profiles: map<string, Rate>)

  const NEW_PAIR := Pair(FRESH, map[])

  datatype Quotas = Quotas(global: Quota, own: string -> Quota)

  /** One of the buckets. */
  datatype Which = Global | Profile(name: string)

  function BucketOf(p: Pair, w: Which): Rate {
    match w
    case Global => p.global
    case Profile(name) => if name in p.profiles then p.profiles[name] else FRESH
  }

  function QuotaOf(qs: Quotas, w: Which): Quota {
    match w
    case Global => qs.global
    case Profile(name) => qs.own(name)
  }

  predicate Uses(c: Call, w: Which) {
    w.Profile? ==> w.name == c.profile
  }

  /** allowProfileRateLocked: a denial leaves both buckets as they were. */
  function TakePair(p: Pair, c: Call, qs: Quotas): (Pair, bool) {
    var own := Profile(c.profile);
    var (global', globalAllowed) := TakeRate(p.global, c.now, qs.global);
    var (own', ownAllowed) := TakeRate(BucketOf(p, own), c.now, QuotaOf(qs, own));
    if !globalAllowed || !ownAllowed then (p, false)
    else (Pair(global', p.profiles[c.profile := own']), true)
  }

  /** The bucket that stores every refill, and takes from both or from neither. */
  function TakeBoth(p: Pair, c: Call, qs: Quotas): (Pair, bool) {
    var own := Profile(c.profile);
    var g, o := Refill(p.global, c.now, qs.global), Refill(BucketOf(p, own), c.now, QuotaOf(qs, own));
    var allowed := g >= 1.0 && o >= 1.0;
    var spent := if allowed then 1.0 else 0.0;
    (Pair(Rate(g - spent, Some(c.now)), p.profiles[c.profile := Rate(o - spent, Some(c.now))]), allowed)
  }

  // Runs.

  function AfterCalls(calls: seq<Call>, n: nat, qs: Quotas): Pair
    requires n <= |calls|
  {
    if n == 0 then NEW_PAIR else TakePair(AfterCalls(calls, n - 1, qs), calls[n - 1], qs).0
  }

  predicate Allowed(calls: seq<Call>, i: nat, qs: Quotas)
    requires i < |calls|
  {
    TakePair(AfterCalls(calls, i, qs), calls[i], qs).1
  }

  /** Calls using a bucket that were allowed among those from `s` up to but not including `i`. */
  function Count(calls: seq<Call>, w: Which, s: nat, i: nat, qs: Quotas): nat
    requires s <= i <= |calls|
  {
    if s == i then 0
    else Count(calls, w, s, i - 1, qs) + if Uses(calls[i - 1], w) && Allowed(calls, i - 1, qs) then 1 else 0
  }

  // With times in any order: an upper bound.

  /** What is left in a bucket and what was taken since an admission fit in burst plus refill. */
  lemma {:induction false} LeftPlusTaken(calls: seq<Call>, w: Which, s: nat, n: nat, qs: Quotas)
    requires s < n <= |calls| && Uses(calls[s], w) && Allowed(calls, s, qs)
    ensures var b := BucketOf(AfterCalls(calls, n, qs), w);
      && b.last.Some?
      && b.tokens + Count(calls, w, s, n, qs) as real
           <= QuotaOf(qs, w).Burst() + Gain(calls[s].now, b.last.value, QuotaOf(qs, w))
  {
    hide Gain, Quota.Burst, QuotaOf, AfterCalls;
    var q := QuotaOf(qs, w);
    var c := calls[n - 1];
    BucketStep(calls, w, n, qs);
    if n == s + 1 {
      GainAdds(c.now, c.now, c.now, q);
      assert Count(calls, w, s, s, qs) == 0;
    } else {
      LeftPlusTaken(calls, w, s, n - 1, qs);
      GainAdds(calls[s].now, BucketOf(AfterCalls(calls, n - 1, qs), w).last.value, c.now, q);
    }
  }

  /** Only an admission moves a bucket, and then by its refill less one. */
  lemma BucketStep(calls: seq<Call>, w: Which, n: nat, qs: Quotas)
    requires 0 < n <= |calls|
    ensures var b, b' := BucketOf(AfterCalls(calls, n - 1, qs), w), BucketOf(AfterCalls(calls, n, qs), w);
      if Uses(calls[n - 1], w) && Allowed(calls, n - 1, qs) then
        b' == Rate(Refill(b, calls[n - 1].now, QuotaOf(qs, w)) - 1.0, Some(calls[n - 1].now))
      else b' == b
  {
    hide Refill;
  }

  /**
   * Whatever the order of the timestamps: from one admission to a later one, both included, each of
   * the two buckets admits at most its burst plus its rate times the time between them.
   */
  lemma PairedWindowBound(calls: seq<Call>, w: Which, s: nat, i: nat, qs: Quotas)
    requires s <= i < |calls| && Uses(calls[s], w) && Uses(calls[i], w)
    requires Allowed(calls, s, qs) && Allowed(calls, i, qs)
    ensures Count(calls, w, s, i + 1, qs) as real
         <= QuotaOf(qs, w).Burst() + Gain(calls[s].now, calls[i].now, QuotaOf(qs, w))
  {
    hide Gain, Quota.Burst, Count, AfterCalls, BucketOf, QuotaOf;
    LeftPlusTaken(calls, w, s, i + 1, qs);
    BucketStep(calls, w, i + 1, qs);
    AllowedHasToken(calls, w, i, qs);
  }

  lemma AllowedHasToken(calls: seq<Call>, w: Which, i: nat, qs: Quotas)
    requires i < |calls| && Allowed(calls, i, qs) && Uses(calls[i], w)
    ensures Refill(BucketOf(AfterCalls(calls, i, qs), w), calls[i].now, QuotaOf(qs, w)) >= 1.0
  {
    hide AfterCalls, Refill;
  }

  // With nondecreasing times: what is decided, exactly.

  predicate InOrder(calls: seq<Call>) {
    forall i, j | 0 <= i <= j < |calls| :: calls[i].now <= calls[j].now
  }

  function AfterBoth(calls: seq<Call>, n: nat, qs: Quotas): Pair
    requires n <= |calls|
  {
    if n == 0 then NEW_PAIR else TakeBoth(AfterBoth(calls, n - 1, qs), calls[n - 1], qs).0
  }

  predicate AllowedBoth(calls: seq<Call>, i: nat, qs: Quotas)
    requires i < |calls|
  {
    TakeBoth(AfterBoth(calls, i, qs), calls[i], qs).1
  }

  /** Two states of a bucket no call from time `t` on can tell apart. */
  ghost predicate SameFrom(a: Rate, b: Rate, t: real, q: Quota) {
    forall now: real | now >= t :: Refill(a, now, q) == Refill(b, now, q)
  }

  lemma GainNonnegative(start: real, end: real, q: Quota)
    requires start <= end && GoodQuota(q)
    ensures Gain(start, end, q) >= 0.0
  {
    var elapsed, r := end - start, q.PerSecond();
    assert elapsed * r >= 0.0;
  }

  /** Refilling twice is refilling once. */
  lemma RefillTwice(a: Rate, mid: real, now: real, q: Quota)
    requires mid <= now && GoodQuota(q)
    ensures Refill(Rate(Refill(a, mid, q), Some(mid)), now, q) == Refill(a, now, q)
  {
    hide Gain, Quota.Burst;
    GainNonnegative(mid, now, q);
    if a.last.Some? {
      GainAdds(a.last.value, mid, now, q);
    }
  }

  lemma DiscardedRefill(a: Rate, b: Rate, t: real, now: real, q: Quota)
    requires SameFrom(a, b, t, q) && t <= now && GoodQuota(q)
    ensures SameFrom(a, Rate(Refill(b, now, q), Some(now)), now, q)
  {
    hide Refill;
    forall later: real | later >= now
      ensures Refill(a, later, q) == Refill(Rate(Refill(b, now, q), Some(now)), later, q)
    {
      RefillTwice(b, now, later, q);
    }
  }

  predicate GoodQuotas(qs: Quotas, calls: seq<Call>) {
    GoodQuota(qs.global) && forall i | 0 <= i < |calls| :: GoodQuota(qs.own(calls[i].profile))
  }

  lemma StepAlike(p: Pair, b: Pair, c: Call, t: real, qs: Quotas, w: Which)
    requires c.now >= t && GoodQuota(qs.global) && GoodQuota(qs.own(c.profile))
    requires SameFrom(BucketOf(p, Global), BucketOf(b, Global), t, qs.global)
    requires SameFrom(BucketOf(p, Profile(c.profile)), BucketOf(b, Profile(c.profile)), t, qs.own(c.profile))
    requires SameFrom(BucketOf(p, w), BucketOf(b, w), t, QuotaOf(qs, w))
    ensures TakePair(p, c, qs).1 == TakeBoth(b, c, qs).1
    ensures SameFrom(BucketOf(TakePair(p, c, qs).0, w), BucketOf(TakeBoth(b, c, qs).0, w), c.now, QuotaOf(qs, w))
  {
    hide Refill;
    var own := Profile(c.profile);
    DiscardedRefill(p.global, b.global, t, c.now, qs.global);
    DiscardedRefill(BucketOf(p, own), BucketOf(b, own), t, c.now, qs.own(c.profile));
  }

  lemma {:induction false} RunsAlike(calls: seq<Call>, n: nat, qs: Quotas, w: Which, t: real)
    requires n <= |calls| && InOrder(calls) && GoodQuotas(qs, calls)
    requires forall i | 0 <= i < n :: calls[i].now <= t
    ensures SameFrom(BucketOf(AfterCalls(calls, n, qs), w), BucketOf(AfterBoth(calls, n, qs), w), t, QuotaOf(qs, w))
    ensures forall i | 0 <= i < n :: Allowed(calls, i, qs) == AllowedBoth(calls, i, qs)
    decreases n
  {
    hide SameFrom, TakePair, TakeBoth, BucketOf, GoodQuota;
    if n == 0 {
      FreshAlike(w, t, QuotaOf(qs, w));
    } else {
      var c, at := calls[n - 1], calls[n - 1].now;
      RunsAlike(calls, n - 1, qs, Global, at);
      RunsAlike(calls, n - 1, qs, Profile(c.profile), at);
      RunsAlike(calls, n - 1, qs, w, at);
      StepAlike(AfterCalls(calls, n - 1, qs), AfterBoth(calls, n - 1, qs), c, at, qs, w);
      Narrow(BucketOf(AfterCalls(calls, n, qs), w), BucketOf(AfterBoth(calls, n, qs), w), at, t, QuotaOf(qs, w));
    }
  }

  lemma FreshAlike(w: Which, t: real, q: Quota)
    ensures SameFrom(BucketOf(NEW_PAIR, w), BucketOf(NEW_PAIR, w), t, q)
  {
  }

  lemma Narrow(a: Rate, b: Rate, t: real, later: real, q: Quota)
    requires SameFrom(a, b, t, q) && t <= later
    ensures SameFrom(a, b, later, q)
  {
  }

  /** With times in order, throwing a denied call's refill away decides every call as storing it would. */
  lemma DenialMayDiscardRefill(calls: seq<Call>, i: nat, qs: Quotas)
    requires i < |calls| && InOrder(calls) && GoodQuotas(qs, calls)
    ensures Allowed(calls, i, qs) == AllowedBoth(calls, i, qs)
  {
    RunsAlike(calls, i + 1, qs, Global, calls[i].now);
  }

  /** What the window from call `s` leaves in a bucket at time `now`, after `n` calls. */
  function Room(calls: seq<Call>, w: Which, s: nat, n: nat, now: real, qs: Quotas): real
    requires s < n <= |calls|
  {
    QuotaOf(qs, w).Burst() + Gain(calls[s].now, now, QuotaOf(qs, w)) - Count(calls, w, s, n, qs) as real
  }

  /** What the latest call leaves to later ones: its own window, and every earlier one's. */
  lemma RoomAfterCall(calls: seq<Call>, w: Which, n: nat, now: real, qs: Quotas)
    requires 0 < n <= |calls| && Uses(calls[n - 1], w)
    ensures var c, q := calls[n - 1], QuotaOf(qs, w);
      var spent := if Allowed(calls, n - 1, qs) then 1.0 else 0.0;
      && Room(calls, w, n - 1, n, now, qs) == q.Burst() - spent + Gain(c.now, now, q)
      && forall v | 0 <= v < n - 1 ::
           Room(calls, w, v, n, now, qs) == Room(calls, w, v, n - 1, c.now, qs) - spent + Gain(c.now, now, q)
  {
    hide Gain, Quota.Burst, Allowed;
    var c, q := calls[n - 1], QuotaOf(qs, w);
    assert Count(calls, w, n - 1, n - 1, qs) == 0;
    forall v | 0 <= v < n - 1
      ensures Room(calls, w, v, n, now, qs)
           == Room(calls, w, v, n - 1, c.now, qs) - (if Allowed(calls, n - 1, qs) then 1.0 else 0.0)
              + Gain(c.now, now, q)
    {
      GainAdds(calls[v].now, c.now, now, q);
    }
  }

  lemma RoomUnchanged(calls: seq<Call>, w: Which, n: nat, now: real, qs: Quotas)
    requires 0 < n <= |calls| && !Uses(calls[n - 1], w)
    ensures BucketOf(AfterBoth(calls, n, qs), w) == BucketOf(AfterBoth(calls, n - 1, qs), w)
    ensures forall v | 0 <= v < n - 1 :: Room(calls, w, v, n, now, qs) == Room(calls, w, v, n - 1, now, qs)
  {
    hide Gain, Quota.Burst, Allowed, Refill;
  }

  lemma LevelAfterCall(calls: seq<Call>, w: Which, n: nat, now: real, qs: Quotas)
    requires 0 < n <= |calls| && Uses(calls[n - 1], w)
    ensures var c, q := calls[n - 1], QuotaOf(qs, w);
      var found := Refill(BucketOf(AfterBoth(calls, n - 1, qs), w), c.now, q);
      Refill(BucketOf(AfterBoth(calls, n, qs), w), now, q)
      == Least(found - (if AllowedBoth(calls, n - 1, qs) then 1.0 else 0.0) + Gain(c.now, now, q), q.Burst())
  {
    hide Gain, Quota.Burst;
  }

  /**
   * A bucket's level is the least room any window starting at one of its calls leaves, capped at the
   * burst; `s` is such a window, or `n` when the cap decides.
   */
  lemma {:induction false} LevelIsLeastRoom(calls: seq<Call>, w: Which, n: nat, now: real, qs: Quotas) returns (s: nat)
    requires n <= |calls|
    requires forall i | 0 <= i < n :: Allowed(calls, i, qs) == AllowedBoth(calls, i, qs)
    ensures var level := Refill(BucketOf(AfterBoth(calls, n, qs), w), now, QuotaOf(qs, w));
      && level <= QuotaOf(qs, w).Burst()
      && (forall v | 0 <= v < n && Uses(calls[v], w) :: level <= Room(calls, w, v, n, now, qs))
      && s <= n
      && (s == n ==> level == QuotaOf(qs, w).Burst())
      && (s < n ==> Uses(calls[s], w) && level == Room(calls, w, s, n, now, qs))
    decreases n
  {
    hide Gain, Quota.Burst, Allowed, AllowedBoth, Room, Refill, AfterBoth;
    if n == 0 {
      s := 0;
      FreshLevel(calls, w, now, qs);
    } else if !Uses(calls[n - 1], w) {
      s := LevelIsLeastRoom(calls, w, n - 1, now, qs);
      RoomUnchanged(calls, w, n, now, qs);
      s := if s == n - 1 then n else s;
    } else {
      s := LevelIsLeastRoom(calls, w, n - 1, calls[n - 1].now, qs);
      RoomAfterCall(calls, w, n, now, qs);
      LevelAfterCall(calls, w, n, now, qs);
      s := if Refill(BucketOf(AfterBoth(calls, n, qs), w), now, QuotaOf(qs, w)) == QuotaOf(qs, w).Burst() then n else s;
    }
  }

  lemma FreshLevel(calls: seq<Call>, w: Which, now: real, qs: Quotas)
    ensures Refill(BucketOf(AfterBoth(calls, 0, qs), w), now, QuotaOf(qs, w)) == QuotaOf(qs, w).Burst()
  {
  }

  /** Every window of a bucket's calls has room for one more at call `i`. */
  ghost predicate AllWindowsHaveRoom(calls: seq<Call>, w: Which, i: nat, qs: Quotas)
    requires i < |calls|
  {
    && QuotaOf(qs, w).Burst() >= 1.0
    && forall s | 0 <= s < i && Uses(calls[s], w) :: Room(calls, w, s, i, calls[i].now, qs) >= 1.0
  }

  lemma LevelMeansRoom(calls: seq<Call>, w: Which, i: nat, qs: Quotas)
    requires i < |calls| && forall j | 0 <= j < i :: Allowed(calls, j, qs) == AllowedBoth(calls, j, qs)
    ensures Refill(BucketOf(AfterBoth(calls, i, qs), w), calls[i].now, QuotaOf(qs, w)) >= 1.0
       <==> AllWindowsHaveRoom(calls, w, i, qs)
  {
    hide Room, Refill, AfterBoth, BucketOf, Allowed, AllowedBoth;
    var s := LevelIsLeastRoom(calls, w, i, calls[i].now, qs);
  }

  /**
   * With times in order, a call passes exactly when one more admission keeps every window of the
   * global bucket and every window of its own profile's bucket within burst plus rate times elapsed.
   */
  lemma PairedAllowedIff(calls: seq<Call>, i: nat, qs: Quotas)
    requires i < |calls| && InOrder(calls) && GoodQuotas(qs, calls)
    ensures Allowed(calls, i, qs) <==>
      AllWindowsHaveRoom(calls, Global, i, qs) && AllWindowsHaveRoom(calls, Profile(calls[i].profile), i, qs)
  {
    hide AllWindowsHaveRoom, Refill, GoodQuotas, Allowed;
    forall j | 0 <= j <= i
      ensures Allowed(calls, j, qs) == AllowedBoth(calls, j, qs)
    {
      DenialMayDiscardRefill(calls, j, qs);
    }
    LevelMeansRoom(calls, Global, i, qs);
    LevelMeansRoom(calls, Profile(calls[i].profile), i, qs);
  }

  /** Later calls change nothing about earlier ones. */
  lemma {:induction false} EarlierPairs(calls: seq<Call>, c: Call, n: nat, qs: Quotas)
    requires n <= |calls|
    ensures AfterCalls(calls + [c], n, qs) == AfterCalls(calls, n, qs)
  {
    hide TakePair;
    if n > 0 {
      EarlierPairs(calls, c, n - 1, qs);
    }
  }

  /** The two rateStates behind their pointers, with the calls made to them. */
  class PairedBucket {
    var global: Rate
    var profiles: map<string, Rate>
    ghost var calls: seq<Call>

    constructor ()
      ensures Pair(global, profiles) == NEW_PAIR && calls == []
    {
      global, profiles, calls := FRESH, map[], [];
    }

    /** Every call so far was made under these quotas. */
    ghost predicate Under(qs: Quotas)
      reads this
    {
      Pair(global, profiles) == AfterCalls(calls, |calls|, qs)
    }

    /**
     * allowProfileRateLocked. A denied call changes neither bucket. Under the same quotas throughout and
     * with times in order, a call is allowed exactly when it keeps every window of the global bucket and
     * of its own profile's within burst plus rate times elapsed.
     */
    method Allow(now: real, profile: string, qs: Quotas) returns (allowed: bool)
      modifies this
      ensures calls == old(calls) + [Call(now, profile)]
      ensures (Pair(global, profiles), allowed) == TakePair(old(Pair(global, profiles)), Call(now, profile), qs)
      ensures !allowed ==> global == old(global) && profiles == old(profiles)
      ensures old(Under(qs)) ==> Under(qs)
      ensures old(Under(qs)) && InOrder(calls) && GoodQuotas(qs, calls) ==>
        (allowed <==> && AllWindowsHaveRoom(calls, Global, |old(calls)|, qs)
                      && AllWindowsHaveRoom(calls, Profile(profile), |old(calls)|, qs))
    {
      hide TakeRate, AllWindowsHaveRoom, InOrder, GoodQuotas;
      ghost var more := calls + [Call(now, profile)];
      EarlierPairs(calls, Call(now, profile), |calls|, qs);
      if InOrder(more) && GoodQuotas(qs, more) {
        PairedAllowedIff(more, |calls|, qs);
      }
      calls := more;
      var (updatedGlobal, globalAllowed) := TakeRate(global, now, qs.global);
      var (updatedProfile, profileAllowed) :=
        TakeRate(if profile in profiles then profiles[profile] else FRESH, now, qs.own(profile));
      if !globalAllowed || !profileAllowed {
        return false;
      }
      global := updatedGlobal;
      profiles := profiles[profile := updatedProfile];
      return true;
    }
  }
}

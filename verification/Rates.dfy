/** The manager's token buckets, over real-valued tokens and times. */
module Rates {
  import opened Outcomes

  /** rateState; `last` is None for the zero time. */
  datatype Rate = Rate(tokens: real, last: Option<real>)

  const FRESH := Rate(0.0, None)

  /** A bucket's settings: perMinute and burst. */
  datatype Quota = Quota(perMinute: int, burst: int) {
    function PerSecond(): real {
      perMinute as real / 60.0
    }
    function Burst(): real {
      burst as real
    }
  }

  predicate GoodQuota(q: Quota) {
    q.perMinute > 0 && q.burst > 0
  }

  /** The refill earned between two times. */
  function Gain(start: real, end: real, q: Quota): real {
    (end - start) * q.PerSecond()
  }

  lemma GainAdds(a: real, b: real, c: real, q: Quota)
    ensures Gain(a, b, q) + Gain(b, c, q) == Gain(a, c, q)
    ensures Gain(a, a, q) == 0.0
  {
    var r := q.PerSecond();
    assert (b - a) * r + (c - b) * r == (c - a) * r;
  }

  function Least(a: real, b: real): real {
    if a > b then b else a
  }

  /** The tokens a call at `now` finds. The refill is negative when `now` is before the last call's time. */
  function Refill(s: Rate, now: real, q: Quota): real {
    match s.last
    case None => q.Burst()
    case Some(last) => Least(s.tokens + Gain(last, now, q), q.Burst())
  }

  /** takeRate. */
  function TakeRate(s: Rate, now: real, q: Quota): (Rate, bool) {
    var tokens := Refill(s, now, q);
    if tokens < 1.0 then (Rate(tokens, Some(now)), false) else (Rate(tokens - 1.0, Some(now)), true)
  }

  // A bucket over a whole run of calls.

  /** The bucket after the first `n` of the calls made at `times`. */
  function After(times: seq<real>, n: nat, q: Quota): Rate
    requires n <= |times|
  {
    if n == 0 then FRESH else TakeRate(After(times, n - 1, q), times[n - 1], q).0
  }

  predicate Allowed(times: seq<real>, i: nat, q: Quota)
    requires i < |times|
  {
    TakeRate(After(times, i, q), times[i], q).1
  }

  /** Calls allowed among those numbered from `s` up to but not including `i`. */
  function Count(times: seq<real>, s: nat, i: nat, q: Quota): nat
    requires s <= i <= |times|
  {
    if s == i then 0 else Count(times, s, i - 1, q) + if Allowed(times, i - 1, q) then 1 else 0
  }

  /** What the window from call `s` leaves for call `i`. */
  function Room(times: seq<real>, s: nat, i: nat, q: Quota): real
    requires s <= i < |times|
  {
    q.Burst() + Gain(times[s], times[i], q) - Count(times, s, i, q) as real
  }

  /** The tokens call `i` finds are the least any window leaves it; `s` is a window that leaves that. */
  lemma {:induction false} TokensAreLeastRoom(times: seq<real>, i: nat, q: Quota) returns (s: nat)
    requires i < |times|
    ensures s <= i && Refill(After(times, i, q), times[i], q) == Room(times, s, i, q)
    ensures forall w | 0 <= w <= i :: Refill(After(times, i, q), times[i], q) <= Room(times, w, i, q)
  {
    hide Gain, Quota.Burst;
    var now := Refill(After(times, i, q), times[i], q);
    GainAdds(times[i], times[i], times[i], q);
    if i == 0 {
      s := 0;
    } else {
      var before := TokensAreLeastRoom(times, i - 1, q);
      var found := Refill(After(times, i - 1, q), times[i - 1], q);
      var spent := if Allowed(times, i - 1, q) then 1.0 else 0.0;
      var step := Gain(times[i - 1], times[i], q);
      assert now == Least(found - spent + step, q.Burst());
      forall w | 0 <= w <= i - 1
        ensures Room(times, w, i, q) == Room(times, w, i - 1, q) - spent + step
      {
        GainAdds(times[w], times[i - 1], times[i], q);
        assert Count(times, w, i, q) == Count(times, w, i - 1, q) + if Allowed(times, i - 1, q) then 1 else 0;
      }
      s := if found - spent + step > q.Burst() then i else before;
    }
  }

  /**
   * What the bucket decides, over any sequence of times, in order or not: a call is allowed exactly
   * when it keeps every window ending with it within burst plus rate times elapsed.
   */
  lemma AllowedIffEveryWindowHasRoom(times: seq<real>, i: nat, q: Quota)
    requires i < |times|
    ensures Allowed(times, i, q) <==>
      forall s | 0 <= s <= i :: Count(times, s, i, q) as real + 1.0 <= q.Burst() + Gain(times[s], times[i], q)
  {
    hide Gain, Quota.Burst, After;
    var s := TokensAreLeastRoom(times, i, q);
    forall w | 0 <= w <= i
      ensures Room(times, w, i, q) >= 1.0 <==>
        Count(times, w, i, q) as real + 1.0 <= q.Burst() + Gain(times[w], times[i], q)
    {
    }
  }

  /** From any call to a later admission, both included, no more is admitted than burst plus refill. */
  lemma WindowBound(times: seq<real>, s: nat, i: nat, q: Quota)
    requires s <= i < |times| && Allowed(times, i, q)
    ensures Count(times, s, i + 1, q) as real <= q.Burst() + Gain(times[s], times[i], q)
  {
    AllowedIffEveryWindowHasRoom(times, i, q);
    hide Gain, Quota.Burst, Allowed;
  }

  /** Later calls change nothing about earlier ones. */
  lemma {:induction false} EarlierCalls(times: seq<real>, now: real, n: nat, q: Quota)
    requires n <= |times|
    ensures After(times + [now], n, q) == After(times, n, q)
  {
    hide Refill;
    if n > 0 {
      EarlierCalls(times, now, n - 1, q);
    }
  }

  /** A rateState behind a pointer, with the times of the calls made to it. */
  class Bucket {
    var state: Rate
    ghost var times: seq<real>

    constructor ()
      ensures state == FRESH && times == []
    {
      state, times := FRESH, [];
    }

    /** Every call so far was made under this quota. */
    ghost predicate Under(q: Quota)
      reads this
    {
      state == After(times, |times|, q)
    }

    /**
     * allowRateLocked. Under one quota a call is allowed exactly when it keeps every window of calls
     * ending with it within burst plus rate times elapsed, whatever the order of the times.
     */
    method Allow(now: real, q: Quota) returns (allowed: bool)
      modifies this
      ensures times == old(times) + [now]
      ensures (state, allowed) == TakeRate(old(state), now, q)
      ensures old(Under(q)) ==> Under(q)
      ensures old(Under(q)) ==> (allowed <==> forall s | 0 <= s <= |old(times)| ::
        Count(times, s, |old(times)|, q) as real + 1.0 <= q.Burst() + Gain(times[s], now, q))
    {
      hide Refill, Gain, Quota.Burst;
      var (updated, answer) := TakeRate(state, now, q);
      EarlierCalls(times, now, |times|, q);
      AllowedIffEveryWindowHasRoom(times + [now], |times|, q);
      state := updated;
      times := times + [now];
      return answer;
    }
  }
}

/** Remembered closed stream ids: the relay's ring against a first-in first-out list. */
module Tombstones {
  import opened Outcomes

  predicate Distinct(s: seq<nat>) {
    forall i, j | 0 <= i < j < |s| :: s[i] != s[j]
  }

  /** Oldest first: a new id goes last, and pushes the oldest out of a full list. */
  function Remember(order: seq<nat>, id: nat, cap: nat): (r: seq<nat>)
    requires cap > 0
    ensures id in r
  {
    if id in order then order
    else if |order| < cap then order + [id]
    else order[1..] + [id]
  }

  /** The id a Remember pushes out. */
  function Evicted(order: seq<nat>, id: nat, cap: nat): (r: Option<nat>)
    requires cap > 0
    ensures r.Some? ==> r.value in order && id !in order
  {
    if id in order || |order| < cap then None else Some(order[0])
  }

  predicate WellFormed(order: seq<nat>, cap: nat) {
    Distinct(order) && |order| <= cap
  }

  lemma RememberKeeps(order: seq<nat>, id: nat, cap: nat)
    requires cap > 0 && WellFormed(order, cap)
    ensures WellFormed(Remember(order, id, cap), cap)
    ensures forall x :: x in Remember(order, id, cap) <==>
      x == id || (x in order && Evicted(order, id, cap) != Some(x))
  {
    var r := Remember(order, id, cap);
    if id !in order && |order| >= cap {
      forall x | x in order && x != order[0]
        ensures x in r
      {
        var k :| 0 <= k < |order| && order[k] == x;
        assert r[k - 1] == x;
      }
      assert r[|r| - 1] == id;
    }
  }

  /** The newest `cap` entries of a history. */
  function Newest(history: seq<nat>, cap: nat): seq<nat> {
    if |history| <= cap then history else history[|history| - cap..]
  }

  /** Remembering a duplicate-free history one id at a time keeps exactly its newest `cap` ids. */
  lemma RememberIsNewest(history: seq<nat>, id: nat, cap: nat)
    requires cap > 0 && Distinct(history) && id !in history
    ensures Remember(Newest(history, cap), id, cap) == Newest(history + [id], cap)
  {
    hide Distinct;
    var order := Newest(history, cap);
    assert id !in order;
    if |history| >= cap {
      assert order[1..] == history[|history| - cap + 1..];
    }
  }

  /** closedStreams, closedOrder and closedStart. */
  class TombstoneRing {
    var closedStreams: set<nat>
    var closedOrder: seq<nat>
    var closedStart: nat
    const cap: nat

    ghost predicate Valid()
      reads this
    {
      && cap > 0 && WellFormed(closedOrder, cap)
      && closedStart <= |closedOrder|
      && (|closedOrder| < cap ==> closedStart == 0)
      && (|closedOrder| == cap ==> closedStart < cap)
      && closedStreams == set id | id in closedOrder
    }

    /** The remembered ids, oldest first. */
    ghost function Order(): (r: seq<nat>)
      reads this
      requires Valid()
      ensures WellFormed(r, cap)
      ensures forall id :: id in r <==> id in closedStreams
    {
      RotationKeeps(closedOrder, closedStart);
      Rotated(closedOrder, closedStart)
    }

    constructor (cap: nat)
      requires cap > 0
      ensures Valid() && this.cap == cap && Order() == []
    {
      this.cap := cap;
      closedStreams, closedOrder, closedStart := {}, [], 0;
    }

    /** rememberClosedLocked, reporting the id whose lane has to go. */
    method RememberClosed(id: nat) returns (evicted: Option<nat>)
      requires Valid()
      modifies this
      ensures Valid()
      ensures Order() == Remember(old(Order()), id, cap)
      ensures evicted == Evicted(old(Order()), id, cap)
    {
      hide Rotated, Distinct;
      RotationKeeps(closedOrder, closedStart);
      RotatedShape(closedOrder, closedStart);
      evicted := None;
      if id in closedStreams {
        return;
      }
      closedStreams := closedStreams + {id};
      if |closedOrder| < cap {
        AppendSlot(closedOrder, id);
        closedOrder := closedOrder + [id];
      } else {
        var oldest := closedOrder[closedStart];
        closedStreams := closedStreams - {oldest};
        OverwriteSlot(closedOrder, closedStart, id);
        OverwriteRotates(closedOrder, closedStart, id);
        Wraps(closedStart, |closedOrder|);
        closedOrder := closedOrder[closedStart := id];
        closedStart := (closedStart + 1) % |closedOrder|;
        evicted := Some(oldest);
      }
      RotationKeeps(closedOrder, closedStart);
    }
  }

  lemma RotationKeeps(s: seq<nat>, at: nat)
    requires Distinct(s) && at <= |s|
    ensures Distinct(Rotated(s, at))
    ensures forall x :: x in Rotated(s, at) <==> x in s
  {
    assert s == s[..at] + s[at..];
  }

  lemma RotatedShape(s: seq<nat>, at: nat)
    requires at <= |s|
    ensures |Rotated(s, at)| == |s|
    ensures at < |s| ==> Rotated(s, at)[0] == s[at]
  {
  }

  lemma AppendSlot(s: seq<nat>, id: nat)
    requires Distinct(s) && id !in s
    ensures Distinct(s + [id])
    ensures Rotated(s + [id], 0) == Rotated(s, 0) + [id]
  {
    assert s[0..] + s[..0] == s && (s + [id])[0..] + (s + [id])[..0] == s + [id];
  }

  lemma OverwriteSlot(s: seq<nat>, at: nat, id: nat)
    requires Distinct(s) && at < |s| && id !in s
    ensures Distinct(s[at := id])
    ensures forall x :: x in s[at := id] <==> x == id || (x in s && x != s[at])
  {
    var s' := s[at := id];
    assert s'[at] == id;
    forall x | x in s && x != s[at]
      ensures x in s'
    {
      var k :| 0 <= k < |s| && s[k] == x;
      assert s'[k] == x;
    }
  }

  function Rotated(s: seq<nat>, at: nat): seq<nat>
    requires at <= |s|
  {
    s[at..] + s[..at]
  }

  lemma OverwriteRotates(s: seq<nat>, at: nat, id: nat)
    requires at < |s|
    ensures Rotated(s[at := id], if at + 1 == |s| then 0 else at + 1) == Rotated(s, at)[1..] + [id]
  {
    var s' := s[at := id];
    assert s'[..at + 1] == s[..at] + [id] && s'[at + 1..] == s[at + 1..];
    assert Rotated(s, at)[1..] == s[at + 1..] + s[..at];
    if at + 1 == |s| {
      assert Rotated(s', 0) == s';
    }
  }

  lemma Wraps(at: nat, n: nat)
    requires at < n
    ensures (at + 1) % n == if at + 1 == n then 0 else at + 1
  {
  }
}

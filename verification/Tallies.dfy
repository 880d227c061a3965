/** Tables of counts kept beside the things they count, as the manager keeps its per-key maps. */
module Tallies {
  function Entry(m: map<string, int>, p: string): int {
    if p in m then m[p] else 0
  }

  function Raised(m: map<string, int>, p: string): map<string, int> {
    m[p := Entry(m, p) + 1]
  }

  /** Decrement, deleting an entry that reaches zero. */
  function Lowered(m: map<string, int>, p: string): map<string, int> {
    if Entry(m, p) - 1 == 0 then m - {p} else m[p := Entry(m, p) - 1]
  }

  /** The table counts these sets, and keeps no entry at zero. */
  ghost predicate Tallied<T>(m: map<string, int>, of: string -> set<T>) {
    (forall p :: Entry(m, p) == |of(p)|) && (forall p | p in m :: m[p] > 0)
  }

  ghost predicate Within(m: map<string, int>, cap: string -> int) {
    forall p :: 0 <= Entry(m, p) <= cap(p)
  }

  lemma RaiseTally<T>(m: map<string, int>, of: string -> set<T>, of': string -> set<T>, p: string, t: T)
    requires Tallied(m, of) && t !in of(p)
    requires forall q :: of'(q) == if q == p then of(q) + {t} else of(q)
    ensures Tallied(Raised(m, p), of')
  {
    var m' := Raised(m, p);
    forall q
      ensures Entry(m', q) == |of'(q)|
    {
      assert Entry(m, q) == |of(q)|;
    }
  }

  lemma LowerTally<T>(m: map<string, int>, of: string -> set<T>, of': string -> set<T>, p: string, t: T)
    requires Tallied(m, of) && t in of(p)
    requires forall q :: of'(q) == if q == p then of(q) - {t} else of(q)
    ensures Entry(m, p) > 0 && Tallied(Lowered(m, p), of')
  {
    var m' := Lowered(m, p);
    assert Entry(m, p) == |of(p)| > 0;
    forall q
      ensures Entry(m', q) == |of'(q)|
    {
      assert Entry(m, q) == |of(q)|;
    }
  }

  lemma SameTally<T>(m: map<string, int>, of: string -> set<T>, of': string -> set<T>)
    requires Tallied(m, of) && forall q :: of'(q) == of(q)
    ensures Tallied(m, of')
  {
    forall q
      ensures Entry(m, q) == |of'(q)|
    {
      assert Entry(m, q) == |of(q)|;
    }
  }

  lemma RaiseWithin(m: map<string, int>, p: string, cap: string -> int)
    requires Within(m, cap) && Entry(m, p) < cap(p)
    ensures Within(Raised(m, p), cap)
  {
    forall q
      ensures 0 <= Entry(Raised(m, p), q) <= cap(q)
    {
      assert 0 <= Entry(m, q) <= cap(q);
    }
  }

  lemma LowerWithin(m: map<string, int>, p: string, cap: string -> int)
    requires Within(m, cap) && Entry(m, p) > 0
    ensures Within(Lowered(m, p), cap)
  {
    forall q
      ensures 0 <= Entry(Lowered(m, p), q) <= cap(q)
    {
      assert 0 <= Entry(m, q) <= cap(q);
    }
  }

  lemma OneMore<T>(a: set<T>, b: set<T>, t: T)
    requires t !in a && forall x :: x in b <==> x in a || x == t
    ensures |b| == |a| + 1
  {
    assert b == a + {t};
  }
}

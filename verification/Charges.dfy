/** Sums of charges over a table. */
module Charges {
  import opened Limits

  ghost function Pick(m: map<nat, Charge>): (k: nat)
    requires m != map[]
    ensures k in m
  {
    var k :| k in m;
    k
  }

  ghost function Sum(m: map<nat, Charge>): Charge
    decreases |m|
  {
    if m == map[] then NOTHING else m[Pick(m)].Plus(Sum(m - {Pick(m)}))
  }

  lemma {:induction false} SumRemove(m: map<nat, Charge>, k: nat)
    requires k in m
    ensures Sum(m) == m[k].Plus(Sum(m - {k}))
    decreases |m|
  {
    var j := Pick(m);
    if j != k {
      SumRemove(m - {j}, k);
      SumRemove(m - {k}, j);
      assert m - {j} - {k} == m - {k} - {j};
    }
  }

  function Entry(m: map<nat, Charge>, k: nat): Charge {
    if k in m then m[k] else NOTHING
  }

  lemma SumUpdate(m: map<nat, Charge>, k: nat, c: Charge)
    ensures Sum(m[k := c]) == Sum(m).Minus(Entry(m, k)).Plus(c)
  {
    SumRemove(m[k := c], k);
    assert m[k := c] - {k} == m - {k};
    if k in m {
      SumRemove(m, k);
    } else {
      assert m - {k} == m;
    }
  }

  lemma SumDelete(m: map<nat, Charge>, k: nat)
    ensures Sum(m - {k}) == Sum(m).Minus(Entry(m, k))
  {
    if k in m {
      SumRemove(m, k);
    } else {
      assert m - {k} == m;
    }
  }

  lemma {:induction false} SumNonnegative(m: map<nat, Charge>)
    requires forall k | k in m :: m[k].cost >= 0 && m[k].items >= 0
    ensures Sum(m).cost >= 0 && Sum(m).items >= 0
    decreases |m|
  {
    if m != map[] {
      var k := Pick(m);
      SumNonnegative(m - {k});
    }
  }

  lemma EntryWithinSum(m: map<nat, Charge>, k: nat)
    requires forall j | j in m :: m[j].cost >= 0 && m[j].items >= 0
    ensures Entry(m, k).Within(Sum(m))
  {
    SumNonnegative(m);
    if k in m {
      SumRemove(m, k);
      SumNonnegative(m - {k});
    }
  }

  lemma {:induction false} SumOfNothing(m: map<nat, Charge>)
    requires forall k | k in m :: m[k] == NOTHING
    ensures Sum(m) == NOTHING
    decreases |m|
  {
    if m != map[] {
      var k := Pick(m);
      SumOfNothing(m - {k});
    }
  }

  lemma {:induction false} SumMonotone(a: map<nat, Charge>, b: map<nat, Charge>)
    requires a.Keys == b.Keys && forall k | k in a :: a[k].Within(b[k])
    ensures Sum(a).Within(Sum(b))
    decreases |a|
  {
    if a != map[] {
      var k := Pick(a);
      SumRemove(b, k);
      SumMonotone(a - {k}, b - {k});
    } else {
      assert b == map[];
    }
  }
}

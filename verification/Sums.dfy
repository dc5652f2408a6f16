/** Finite sums over a map of weights, independent of enumeration order. */
module Sums {
  import opened Words

  ghost function Sum(w: map<U64, nat>): nat
    decreases |w|
  {
    if w == map[] then 0 else
      var k :| k in w;
      w[k] + Sum(w - {k})
  }

  lemma {:induction false} SumPick(w: map<U64, nat>, k: U64)
    requires k in w
    ensures Sum(w) == w[k] + Sum(w - {k})
    decreases |w|
  {
    var first :| first in w && Sum(w) == w[first] + Sum(w - {first});
    if first != k {
      SumPick(w - {first}, k);
      SumPick(w - {k}, first);
      assert w - {first} - {k} == w - {k} - {first};
    }
  }

  lemma SumUpdate(w: map<U64, nat>, k: U64, v: nat)
    ensures Sum(w[k := v]) == v + Sum(w - {k})
    ensures k in w ==> Sum(w[k := v]) + w[k] == Sum(w) + v
    ensures k !in w ==> Sum(w[k := v]) == Sum(w) + v
  {
    SumPick(w[k := v], k);
    assert w[k := v] - {k} == w - {k};
    if k in w { SumPick(w, k); } else { assert w - {k} == w; }
  }

  lemma {:induction false} SumMonotone(w: map<U64, nat>, x: map<U64, nat>)
    requires w.Keys == x.Keys && forall k :: k in w ==> w[k] <= x[k]
    ensures Sum(w) <= Sum(x)
    decreases |w|
  {
    if w != map[] {
      var k :| k in w;
      SumPick(w, k);
      SumPick(x, k);
      SumMonotone(w - {k}, x - {k});
    } else {
      assert x == map[];
    }
  }

  lemma {:induction false} SumZero(w: map<U64, nat>)
    requires forall k :: k in w ==> w[k] == 0
    ensures Sum(w) == 0
    decreases |w|
  {
    if w != map[] {
      var k :| k in w;
      SumPick(w, k);
      SumZero(w - {k});
    }
  }

  lemma SumAtLeast(w: map<U64, nat>, k: U64)
    requires k in w
    ensures w[k] <= Sum(w)
  {
    SumPick(w, k);
  }
}

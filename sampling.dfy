/**
 * `weighted_choice`: cumulative-weight selection over a table in insertion
 * order. The uniform draw `random.uniform(0, total_weight)` is the parameter `r`.
 */
module Sampling {
  import opened Wrappers
  import opened Dicts

  /** Running total of the first n weights, in the table's iteration order. */
  function PrefixWeight<K>(t: Dict<K, real>, n: nat): real
    requires t.Valid() && n <= |t.order|
  {
    if n == 0 then 0.0 else PrefixWeight(t, n - 1) + t.entries[t.order[n - 1]]
  }

  /** `sum(weights)` */
  function TotalWeight<K>(t: Dict<K, real>): real
    requires t.Valid()
  {
    PrefixWeight(t, |t.order|)
  }

  ghost predicate NonNegative<K>(t: Dict<K, real>) {
    forall k | k in t.entries :: t.entries[k] >= 0.0
  }

  /** The key at the first position, at or after i, whose running total exceeds r. */
  function ChooseFrom<K>(t: Dict<K, real>, r: real, i: nat): (c: Option<K>)
    requires t.Valid() && i <= |t.order|
    ensures c.Some? ==> c.value in t.entries
    decreases |t.order| - i
  {
    if i == |t.order| then None
    else if r < PrefixWeight(t, i + 1) then Some(t.order[i])
    else ChooseFrom(t, r, i + 1)
  }

  /** What `weighted_choice` returns for the draw r; None when it falls off the end. */
  function Choose<K>(t: Dict<K, real>, r: real): (c: Option<K>)
    requires t.Valid()
    ensures c.Some? ==> c.value in t.entries
  {
    ChooseFrom(t, r, 0)
  }

  /** Position j is the first at or after i whose running total exceeds r. */
  ghost predicate FirstAboveFrom<K>(t: Dict<K, real>, r: real, i: nat, j: int)
    requires t.Valid()
  {
    && i <= j < |t.order|
    && r < PrefixWeight(t, j + 1)
    && forall m | i < m <= j :: PrefixWeight(t, m) <= r
  }

  /** Scanning from position i yields the first later position whose running total exceeds r. */
  lemma {:induction false} ChooseFromFirstAbove<K>(t: Dict<K, real>, r: real, i: nat)
    requires t.Valid() && i <= |t.order|
    ensures ChooseFrom(t, r, i).Some? ==>
      exists j :: FirstAboveFrom(t, r, i, j) && t.order[j] == ChooseFrom(t, r, i).value
    ensures ChooseFrom(t, r, i).None? ==> forall m | i < m <= |t.order| :: PrefixWeight(t, m) <= r
    decreases |t.order| - i
  {
    if i < |t.order| && PrefixWeight(t, i + 1) <= r {
      ChooseFromFirstAbove(t, r, i + 1);
      var c := ChooseFrom(t, r, i);
      assert c == ChooseFrom(t, r, i + 1);
      if c.Some? {
        var j :| FirstAboveFrom(t, r, i + 1, j) && t.order[j] == c.value;
        assert FirstAboveFrom(t, r, i, j);
      }
    }
  }

  /**
   * `weighted_choice` returns the key at the first position whose running
   * total exceeds the draw, and None exactly when no running total does.
   */
  lemma ChooseFirstAbove<K>(t: Dict<K, real>, r: real)
    requires t.Valid()
    ensures Choose(t, r).Some? ==> exists j :: FirstAboveFrom(t, r, 0, j) && t.order[j] == Choose(t, r).value
    ensures Choose(t, r).None? ==> forall m: nat | 0 < m <= |t.order| :: PrefixWeight(t, m) <= r
    ensures (forall m: nat | 0 < m <= |t.order| :: PrefixWeight(t, m) <= r) ==> Choose(t, r).None?
  {
    ChooseFromFirstAbove(t, r, 0);
    if Choose(t, r).Some? {
      var j :| FirstAboveFrom(t, r, 0, j) && t.order[j] == Choose(t, r).value;
      assert r < PrefixWeight(t, j + 1);
    }
  }

  /** `weighted_choice(table)` with the draw `rand` given as r. */
  method WeightedChoice<K>(table: Dict<K, real>, r: real) returns (choice: Option<K>)
    requires table.Valid()
    ensures choice == Choose(table, r)
  {
    var cumulative := 0.0;
    for i := 0 to |table.order|
      invariant cumulative == PrefixWeight(table, i)
      invariant Choose(table, r) == ChooseFrom(table, r, i)
    {
      var item := table.order[i];
      cumulative := cumulative + table.entries[item];
      if r < cumulative {
        return Some(item);
      }
    }
    return None;
  }

  /** With non-negative weights the running total never decreases. */
  lemma {:induction false} PrefixWeightMonotone<K>(t: Dict<K, real>, m: nat, n: nat)
    requires t.Valid() && NonNegative(t) && m <= n <= |t.order|
    ensures PrefixWeight(t, m) <= PrefixWeight(t, n)
    decreases n - m
  {
    if m < n {
      PrefixWeightMonotone(t, m, n - 1);
      assert t.entries[t.order[n - 1]] >= 0.0;
    }
  }

  /** A draw in [0, total_weight) always selects a key of the table. */
  lemma ChooseBelowTotal<K>(t: Dict<K, real>, r: real)
    requires t.Valid() && 0.0 <= r < TotalWeight(t)
    ensures Choose(t, r).Some? && Choose(t, r).value in t.entries
  {
    ChooseFirstAbove(t, r);
    assert |t.order| != 0;
    assert r < PrefixWeight(t, |t.order|);
  }

  /** A draw equal to (or above) total_weight, which `random.uniform` can return, selects nothing. */
  lemma ChooseAtTotal<K>(t: Dict<K, real>, r: real)
    requires t.Valid() && NonNegative(t) && TotalWeight(t) <= r
    ensures Choose(t, r) == None
  {
    forall m | 0 < m <= |t.order| ensures PrefixWeight(t, m) <= r {
      PrefixWeightMonotone(t, m, |t.order|);
    }
    ChooseFirstAbove(t, r);
  }

  /**
   * The key at position j is selected exactly by the draws in
   * [PrefixWeight(j), PrefixWeight(j + 1)), an interval as long as its weight.
   */
  lemma ChooseInterval<K>(t: Dict<K, real>, r: real, j: nat)
    requires t.Valid() && NonNegative(t) && 0.0 <= r && j < |t.order|
    ensures Choose(t, r) == Some(t.order[j]) <==> PrefixWeight(t, j) <= r < PrefixWeight(t, j + 1)
  {
    if PrefixWeight(t, j) <= r < PrefixWeight(t, j + 1) {
      forall m | 0 < m <= j ensures PrefixWeight(t, m) <= r {
        PrefixWeightMonotone(t, m, j);
      }
      assert FirstAboveFrom(t, r, 0, j);
      FirstAboveUnique(t, r, j);
    }
    if Choose(t, r) == Some(t.order[j]) {
      ChooseFirstAbove(t, r);
      var j' :| FirstAboveFrom(t, r, 0, j') && t.order[j'] == t.order[j];
      assert j' == j;
    }
  }

  lemma FirstAboveUnique<K>(t: Dict<K, real>, r: real, j: nat)
    requires t.Valid() && FirstAboveFrom(t, r, 0, j)
    ensures Choose(t, r) == Some(t.order[j])
  {
    ChooseFromReaches(t, r, j, 0);
  }

  /** Scanning from any position up to the first one above r stops there. */
  lemma {:induction false} ChooseFromReaches<K>(t: Dict<K, real>, r: real, j: nat, i: nat)
    requires t.Valid() && FirstAboveFrom(t, r, 0, j) && i <= j
    ensures ChooseFrom(t, r, i) == Some(t.order[j])
    decreases j - i
  {
    if i < j {
      assert PrefixWeight(t, i + 1) <= r;
      ChooseFromReaches(t, r, j, i + 1);
    }
  }
}

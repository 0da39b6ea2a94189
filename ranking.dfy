/**
 * The report of `simulate_corpse`: one `(item, amount, total_sell_cost)`
 * row per item won, and `sorted_results.sort(key=lambda x: x[2], reverse=True)`.
 * Python's sort is stable also with `reverse=True`: rows of equal value keep
 * their order.
 */
module Ranking {
  import opened Loot

  /** `(item, amount, total_sell_cost)` */
  datatype Ranked = Ranked(item: ItemId, amount: int, value: real)

  /** Highest value first. */
  ghost predicate Descending(s: seq<Ranked>) {
    forall i, j | 0 <= i < j < |s| :: s[i].value >= s[j].value
  }

  /** Places x after every row worth at least as much, before the first row worth less. */
  function Insert(x: Ranked, s: seq<Ranked>): seq<Ranked> {
    if s == [] then [x]
    else if s[0].value < x.value then [x] + s
    else [s[0]] + Insert(x, s[1..])
  }

  /** `rows.sort(key=value, reverse=True)`: each row in turn inserted into the rows sorted so far. */
  function SortByValue(s: seq<Ranked>): seq<Ranked> {
    if s == [] then [] else Insert(s[|s| - 1], SortByValue(s[..|s| - 1]))
  }

  /** The rows of value v, in order. */
  function Filter(s: seq<Ranked>, v: real): seq<Ranked> {
    if s == [] then []
    else (if s[0].value == v then [s[0]] else []) + Filter(s[1..], v)
  }

  /** Σ total_sell_cost */
  function SumValues(s: seq<Ranked>): real {
    if s == [] then 0.0 else s[0].value + SumValues(s[1..])
  }

  /** Inserting keeps every row and adds x. */
  lemma {:induction false} InsertPermutes(x: Ranked, s: seq<Ranked>)
    ensures multiset(Insert(x, s)) == multiset(s) + multiset{x}
  {
    if s != [] && !(s[0].value < x.value) {
      InsertPermutes(x, s[1..]);
      assert s == [s[0]] + s[1..];
    }
  }

  /** Whatever bounds x and the rows of s bounds the rows after insertion. */
  lemma {:induction false} InsertBounded(x: Ranked, s: seq<Ranked>, v: real)
    requires x.value <= v && forall k | 0 <= k < |s| :: s[k].value <= v
    ensures forall k | 0 <= k < |Insert(x, s)| :: Insert(x, s)[k].value <= v
  {
    if s != [] && !(s[0].value < x.value) {
      InsertBounded(x, s[1..], v);
    }
  }

  /** Inserting into rows sorted highest first keeps them sorted. */
  lemma {:induction false} InsertDescending(x: Ranked, s: seq<Ranked>)
    requires Descending(s)
    ensures Descending(Insert(x, s))
  {
    if s != [] && !(s[0].value < x.value) {
      InsertDescending(x, s[1..]);
      InsertBounded(x, s[1..], s[0].value);
      var r := Insert(x, s[1..]);
      assert Insert(x, s) == [s[0]] + r;
      forall i, j | 0 <= i < j < |[s[0]] + r| ensures ([s[0]] + r)[i].value >= ([s[0]] + r)[j].value {
        if i > 0 {
          assert ([s[0]] + r)[i] == r[i - 1];
        }
      }
    }
  }

  /** The rows come out highest value first. */
  lemma {:induction false} SortDescending(s: seq<Ranked>)
    ensures Descending(SortByValue(s))
  {
    if s != [] {
      SortDescending(s[..|s| - 1]);
      InsertDescending(s[|s| - 1], SortByValue(s[..|s| - 1]));
    }
  }

  /** Sorting rearranges the rows: the same rows, each as often. */
  lemma {:induction false} SortPermutes(s: seq<Ranked>)
    ensures multiset(SortByValue(s)) == multiset(s)
  {
    if s != [] {
      SortPermutes(s[..|s| - 1]);
      InsertPermutes(s[|s| - 1], SortByValue(s[..|s| - 1]));
      assert s == s[..|s| - 1] + [s[|s| - 1]];
    }
  }

  lemma {:induction false} FilterAppend(a: seq<Ranked>, b: seq<Ranked>, v: real)
    ensures Filter(a + b, v) == Filter(a, v) + Filter(b, v)
  {
    if a != [] {
      FilterAppend(a[1..], b, v);
      assert (a + b)[1..] == a[1..] + b;
    } else {
      assert a + b == b;
    }
  }

  lemma {:induction false} FilterBelow(s: seq<Ranked>, v: real)
    requires forall k | 0 <= k < |s| :: s[k].value < v
    ensures Filter(s, v) == []
  {
    if s != [] {
      FilterBelow(s[1..], v);
    }
  }

  /** In rows sorted highest first, x goes after every row of its own value. */
  lemma {:induction false} InsertStable(x: Ranked, s: seq<Ranked>, v: real)
    requires Descending(s)
    ensures Filter(Insert(x, s), v) == Filter(s, v) + (if x.value == v then [x] else [])
  {
    if s == [] {
    } else if s[0].value < x.value {
      if x.value == v {
        FilterBelow(s, v);
      }
      assert ([x] + s)[1..] == s;
    } else {
      InsertStable(x, s[1..], v);
      assert ([s[0]] + Insert(x, s[1..]))[1..] == Insert(x, s[1..]);
    }
  }

  /** Sorting is stable: the rows of each value keep their relative order. */
  lemma {:induction false} SortStable(s: seq<Ranked>, v: real)
    ensures Filter(SortByValue(s), v) == Filter(s, v)
  {
    if s != [] {
      var init := s[..|s| - 1];
      var last := s[|s| - 1];
      SortStable(init, v);
      SortDescending(init);
      InsertStable(last, SortByValue(init), v);
      assert s == init + [last];
      FilterAppend(init, [last], v);
    }
  }

  lemma {:induction false} SumValuesAppend(a: seq<Ranked>, b: seq<Ranked>)
    ensures SumValues(a + b) == SumValues(a) + SumValues(b)
  {
    if a != [] {
      SumValuesAppend(a[1..], b);
      assert (a + b)[1..] == a[1..] + b;
    } else {
      assert a + b == b;
    }
  }

  lemma {:induction false} InsertSum(x: Ranked, s: seq<Ranked>)
    ensures SumValues(Insert(x, s)) == x.value + SumValues(s)
  {
    if s != [] && !(s[0].value < x.value) {
      InsertSum(x, s[1..]);
    }
  }

  /** Sorting does not change the sum of the values. */
  lemma {:induction false} SortSum(s: seq<Ranked>)
    ensures SumValues(SortByValue(s)) == SumValues(s)
  {
    if s != [] {
      var init := s[..|s| - 1];
      var last := s[|s| - 1];
      SortSum(init);
      InsertSum(last, SortByValue(init));
      assert s == init + [last];
      SumValuesAppend(init, [last]);
    }
  }
}

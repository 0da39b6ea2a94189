/**
 * Python's `dict`: a finite map whose keys remember the order in which they
 * were first inserted. Iteration (`.keys()`, `.items()`) follows `order`.
 */
module Dicts {

  datatype Dict<K, V> = Dict(order: seq<K>, entries: map<K, V>) {

    /**
     * Every key is listed once in `order`, and `order` lists exactly the keys
     * of `entries` (as many distinct listed keys as there are keys; see KeyListed).
     */
    ghost predicate Valid() {
      && Distinct(order)
      && (forall i | 0 <= i < |order| :: order[i] in entries)
      && |entries| == |order|
    }
  }

  /** No element occurs twice. */
  ghost predicate Distinct<K>(s: seq<K>) {
    forall i, j | 0 <= i < j < |s| :: s[i] != s[j]
  }

  /** In a sequence without repetitions, an element does not occur before its position. */
  lemma FreshAfter<K>(s: seq<K>, i: nat)
    requires Distinct(s) && i < |s|
    ensures s[i] !in s[..i]
  {
    forall j | 0 <= j < i ensures s[..i][j] != s[i] { }
  }

  /** Distinct elements drawn from a set exhaust it when there are as many of them as it has members. */
  lemma {:induction false} ListsAll<K>(s: seq<K>, keys: set<K>, k: K)
    requires Distinct(s) && (forall i | 0 <= i < |s| :: s[i] in keys) && |s| == |keys|
    requires k in keys
    ensures k in s
  {
    var last := s[|s| - 1];
    var init := s[..|s| - 1];
    if k != last {
      var rest := keys - {last};
      assert keys == rest + {last};
      forall i | 0 <= i < |init| ensures init[i] in rest {
        assert init[i] == s[i] && s[i] != s[|s| - 1];
      }
      ListsAll(init, rest, k);
    }
  }

  /** In a valid dict, the keys are exactly the listed ones. */
  lemma KeyListed<K, V>(d: Dict<K, V>, k: K)
    requires d.Valid()
    ensures k in d.entries <==> k in d.order
  {
    if k in d.entries {
      ListsAll(d.order, d.entries.Keys, k);
    }
  }

  /** `{}` */
  function Empty<K, V>(): (d: Dict<K, V>)
    ensures d.Valid() && d.order == [] && d.entries == map[]
  {
    Dict([], map[])
  }

  /** `d[k] = v`: an existing key keeps its place in the order, a new key goes last. */
  function Set<K, V>(d: Dict<K, V>, k: K, v: V): (d': Dict<K, V>)
    requires d.Valid()
    ensures d'.Valid() && d'.entries == d.entries[k := v]
    ensures d'.order == if k in d.entries then d.order else d.order + [k]
  {
    if k in d.entries then Dict(d.order, d.entries[k := v])
    else
      assert Distinct(d.order + [k]) by {
        forall i | 0 <= i < |d.order| ensures d.order[i] != k { }
      }
      Dict(d.order + [k], d.entries[k := v])
  }

  /** `d.get(k, default)` */
  function GetOr<K, V>(d: Dict<K, V>, k: K, default: V): V {
    if k in d.entries then d.entries[k] else default
  }

  /** `if k not in d: d[k] = 0` followed by `d[k] += a`, the counting idiom of the simulator. */
  function AddTo<K>(d: Dict<K, int>, k: K, a: int): (d': Dict<K, int>)
    requires d.Valid()
    ensures d'.Valid()
  {
    Set(d, k, GetOr(d, k, 0) + a)
  }

  /** Counting raises the count of its key by the amount added and leaves every other count alone. */
  lemma AddToGet<K>(d: Dict<K, int>, k: K, a: int, other: K)
    requires d.Valid()
    ensures GetOr(AddTo(d, k, a), other, 0) == GetOr(d, other, 0) + (if other == k then a else 0)
  {
  }

  /** Counting adds the key, and no other, to the keys. */
  lemma AddToKeys<K>(d: Dict<K, int>, k: K, a: int)
    requires d.Valid()
    ensures AddTo(d, k, a).entries.Keys == d.entries.Keys + {k}
  {
  }
}

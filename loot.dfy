/**
 * Loot specifications of a corpse (`corpse_dict`) and `prepare_loot_table`,
 * which compiles one into an item -> drop-weight table.
 */
module Loot {
  import opened Dicts

  type ItemId = string

  /** One `{amount, weight}` sub-entry of a list-form item. */
  datatype Drop = Drop(amount: int, weight: real)

  /** A dict-form entry (fixed amount) or a list-form entry (an amount drawn from its drops). */
  datatype LootEntry = Fixed(weight: real, amount: int) | Variable(drops: seq<Drop>)

  /** `corpse_dict`: item -> loot entry, in the order it was written. */
  type LootSpec = Dict<ItemId, LootEntry>

  /** `sum(entry['weight'] for entry in details)` */
  function SumWeights(drops: seq<Drop>): real {
    if drops == [] then 0.0 else SumWeights(drops[..|drops| - 1]) + drops[|drops| - 1].weight
  }

  /** The drop weight an entry contributes to the loot table. */
  function EntryWeight(e: LootEntry): real {
    match e
    case Fixed(w, _) => w
    case Variable(drops) => SumWeights(drops)
  }

  /** The table after the first n items of the spec have been compiled, one after another. */
  function LootTablePrefix(spec: LootSpec, n: nat): (t: Dict<ItemId, real>)
    requires spec.Valid() && n <= |spec.order|
    ensures t.Valid() && forall k | k in t.entries :: k in spec.entries
  {
    if n == 0 then Empty()
    else
      var item := spec.order[n - 1];
      Set(LootTablePrefix(spec, n - 1), item, EntryWeight(spec.entries[item]))
  }

  /** The compiled table: every item of the spec, in the spec's order. */
  function LootTable(spec: LootSpec): (t: Dict<ItemId, real>)
    requires spec.Valid()
    ensures t.Valid() && forall k | k in t.entries :: k in spec.entries
  {
    LootTablePrefix(spec, |spec.order|)
  }

  /** After n items, the table lists exactly those items, in the spec's order. */
  lemma {:induction false} LootTablePrefixOrder(spec: LootSpec, n: nat)
    requires spec.Valid() && n <= |spec.order|
    ensures LootTablePrefix(spec, n).order == spec.order[..n]
  {
    if n > 0 {
      var t := LootTablePrefix(spec, n - 1);
      var item := spec.order[n - 1];
      LootTablePrefixOrder(spec, n - 1);
      FreshAfter(spec.order, n - 1);
      KeyListed(t, item);
      assert LootTablePrefix(spec, n).order == t.order + [item];
      assert spec.order[..n] == spec.order[..n - 1] + [item];
    }
  }

  /** After n items, every item in the table carries its entry's weight. */
  lemma {:induction false} LootTablePrefixWeight(spec: LootSpec, n: nat, k: ItemId)
    requires spec.Valid() && n <= |spec.order|
    ensures k in LootTablePrefix(spec, n).entries ==>
      k in spec.entries && LootTablePrefix(spec, n).entries[k] == EntryWeight(spec.entries[k])
  {
    if n > 0 {
      LootTablePrefixWeight(spec, n - 1, k);
      var item := spec.order[n - 1];
      assert LootTablePrefix(spec, n).entries
        == LootTablePrefix(spec, n - 1).entries[item := EntryWeight(spec.entries[item])];
    }
  }

  /** The table has exactly the spec's items, in the spec's order, each weighted by its entry. */
  lemma LootTableWeights(spec: LootSpec)
    requires spec.Valid()
    ensures LootTable(spec).order == spec.order
    ensures LootTable(spec).entries.Keys == spec.entries.Keys
    ensures forall k | k in spec.entries :: LootTable(spec).entries[k] == EntryWeight(spec.entries[k])
  {
    var t := LootTable(spec);
    LootTablePrefixOrder(spec, |spec.order|);
    assert spec.order[..|spec.order|] == spec.order;
    forall k | k in t.entries ensures k in spec.entries && t.entries[k] == EntryWeight(spec.entries[k]) {
      LootTablePrefixWeight(spec, |spec.order|, k);
    }
    forall k | k in spec.entries ensures k in t.entries {
      KeyListed(spec, k);
      KeyListed(t, k);
    }
  }

  /** `prepare_loot_table(corpse_dict)` */
  method PrepareLootTable(spec: LootSpec) returns (table: Dict<ItemId, real>)
    requires spec.Valid()
    ensures table == LootTable(spec)
    ensures table.order == spec.order && table.entries.Keys == spec.entries.Keys
    ensures forall k | k in spec.entries && spec.entries[k].Fixed? ::
      table.entries[k] == spec.entries[k].weight
    ensures forall k | k in spec.entries && spec.entries[k].Variable? ::
      table.entries[k] == SumWeights(spec.entries[k].drops)
  {
    table := Empty();
    for i := 0 to |spec.order|
      invariant table == LootTablePrefix(spec, i)
    {
      var item := spec.order[i];
      var weight;
      match spec.entries[item] {
        case Variable(drops) => weight := SumWeights(drops);
        case Fixed(w, _) => weight := w;
      }
      table := Set(table, item, weight);
    }
    LootTableWeights(spec);
  }

  /** `{entry['amount']: entry['weight'] for entry in details}`: a later drop with the same amount overwrites the weight. */
  function AmountWeights(drops: seq<Drop>): (t: Dict<int, real>)
    ensures t.Valid()
  {
    if drops == [] then Empty()
    else
      var last := drops[|drops| - 1];
      Set(AmountWeights(drops[..|drops| - 1]), last.amount, last.weight)
  }

  /** The amount table has exactly the amounts that occur among the drops. */
  lemma {:induction false} AmountWeightsKeys(drops: seq<Drop>, a: int)
    ensures a in AmountWeights(drops).entries <==> exists i :: 0 <= i < |drops| && drops[i].amount == a
  {
    if drops != [] {
      var init := drops[..|drops| - 1];
      AmountWeightsKeys(init, a);
      if exists i :: 0 <= i < |init| && init[i].amount == a {
        var i :| 0 <= i < |init| && init[i].amount == a;
        assert drops[i].amount == a;
      }
      if exists i :: 0 <= i < |drops| && drops[i].amount == a {
        var i :| 0 <= i < |drops| && drops[i].amount == a;
        if i < |init| { assert init[i].amount == a; }
      }
    }
  }

  /** When an amount is listed more than once, the weight of its last listing is the one kept. */
  lemma {:induction false} AmountWeightsLastWins(drops: seq<Drop>, i: nat)
    requires i < |drops|
    requires forall j | i < j < |drops| :: drops[j].amount != drops[i].amount
    ensures drops[i].amount in AmountWeights(drops).entries
    ensures AmountWeights(drops).entries[drops[i].amount] == drops[i].weight
  {
    var init := drops[..|drops| - 1];
    if i < |init| {
      assert forall j | i < j < |init| :: init[j] == drops[j];
      AmountWeightsLastWins(init, i);
      assert drops[|drops| - 1].amount != drops[i].amount;
    }
  }
}

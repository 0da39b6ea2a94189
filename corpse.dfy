/**
 * `simulate_corpse`: `num_simulations` openings of one corpse, the amounts
 * won summed over all of them, one report row per item ranked by value,
 * and the average profit per opening. The random draws of opening i are
 * given as `trials[i]`.
 */
module Corpse {
  import opened Wrappers
  import opened Dicts
  import opened Loot
  import opened Bazaar
  import opened Rolls
  import opened Ranking

  /** The draws `random` makes for one opening (see Rolls.SimulateRolls). */
  datatype Trial = Trial(baseRoll: int, bonusR: real, draws: seq<Draw>)

  /** What `simulate_corpse` has computed when it starts printing. */
  datatype Summary = Summary(totals: Dict<ItemId, int>, ranked: seq<Ranked>, totalProfit: real, averageProfit: real)

  /** Draws `random` can make: the randint lies in the roll range, and every roll has its draw. */
  predicate TrialFits(minRolls: int, maxRolls: int, t: Trial) {
    && (minRolls <= maxRolls ==> minRolls <= t.baseRoll <= maxRolls)
    && Iterations(RollCount(t.baseRoll, t.bonusR)) <= |t.draws|
  }

  ghost predicate AllFit(minRolls: int, maxRolls: int, trials: seq<Trial>) {
    forall i | 0 <= i < |trials| :: TrialFits(minRolls, maxRolls, trials[i])
  }

  /** `simulate_rolls(...)` on the draws of one trial. */
  function OpenTrial(spec: LootSpec, prices: PriceBook, minRolls: int, maxRolls: int, key: ItemId, t: Trial)
    : Result<Opening, Raised>
    requires spec.Valid() && TrialFits(minRolls, maxRolls, t)
  {
    Open(spec, prices, minRolls, maxRolls, key, t.baseRoll, t.bonusR, t.draws)
  }

  /** The outcome of each opening, in order. */
  function Opened(spec: LootSpec, prices: PriceBook, minRolls: int, maxRolls: int, key: ItemId, trials: seq<Trial>)
    : seq<Result<Opening, Raised>>
    requires spec.Valid() && AllFit(minRolls, maxRolls, trials)
  {
    seq(|trials|, i requires 0 <= i < |trials| => OpenTrial(spec, prices, minRolls, maxRolls, key, trials[i]))
  }

  /** `d.items()` restricted to the first n items: the (item, amount) pairs in the dict's order. */
  function ItemsUpTo(d: Dict<ItemId, int>, n: nat): (pairs: seq<(ItemId, int)>)
    requires d.Valid() && n <= |d.order|
    ensures |pairs| == n
  {
    if n == 0 then [] else ItemsUpTo(d, n - 1) + [(d.order[n - 1], d.entries[d.order[n - 1]])]
  }

  /** `d.items()` */
  function Items(d: Dict<ItemId, int>): seq<(ItemId, int)>
    requires d.Valid()
  {
    ItemsUpTo(d, |d.order|)
  }

  /** `totals` after the given (item, amount) pairs were counted into it in order. */
  function AddAll(totals: Dict<ItemId, int>, pairs: seq<(ItemId, int)>): (d: Dict<ItemId, int>)
    requires totals.Valid()
    ensures d.Valid()
  {
    if pairs == [] then totals
    else
      var last := pairs[|pairs| - 1];
      AddTo(AddAll(totals, pairs[..|pairs| - 1]), last.0, last.1)
  }

  /** `total_results` after one opening's `results` were added to `totals`. */
  function Merge(totals: Dict<ItemId, int>, results: Dict<ItemId, int>): (d: Dict<ItemId, int>)
    requires totals.Valid() && results.Valid()
    ensures d.Valid()
  {
    AddAll(totals, Items(results))
  }

  ghost predicate AllValid(openings: seq<Opening>) {
    forall i | 0 <= i < |openings| :: openings[i].results.Valid()
  }

  /** `total_results` after the given openings. */
  function MergeAll(openings: seq<Opening>): (d: Dict<ItemId, int>)
    requires AllValid(openings)
    ensures d.Valid()
  {
    if openings == [] then Empty()
    else Merge(MergeAll(openings[..|openings| - 1]), openings[|openings| - 1].results)
  }

  /** `total_profit` after the given openings. */
  function ProfitSum(openings: seq<Opening>): real {
    if openings == [] then 0.0
    else ProfitSum(openings[..|openings| - 1]) + openings[|openings| - 1].profit
  }

  /** The amount of one item won over the given openings, counted opening by opening. */
  function AmountWon(openings: seq<Opening>, item: ItemId): int {
    if openings == [] then 0
    else AmountWon(openings[..|openings| - 1], item) + GetOr(openings[|openings| - 1].results, item, 0)
  }

  /** The sell value of what the given openings won, counted opening by opening. */
  function ValueWon(openings: seq<Opening>, prices: PriceBook): real
    requires AllValid(openings)
  {
    if openings == [] then 0.0
    else ValueWon(openings[..|openings| - 1], prices) + Valuation(openings[|openings| - 1].results, prices)
  }

  /** `(item, amount, total_sell_cost)` for one item of `total_results`. */
  function RowOf(totals: Dict<ItemId, int>, prices: PriceBook, item: ItemId): Ranked
    requires item in totals.entries
  {
    Ranked(item, totals.entries[item], Worth(totals.entries[item], SellPrice(prices, item)))
  }

  /** `sorted_results` before sorting, after the first n items of `total_results`. */
  function RowsUpTo(totals: Dict<ItemId, int>, prices: PriceBook, n: nat): seq<Ranked>
    requires totals.Valid() && n <= |totals.order|
  {
    if n == 0 then []
    else RowsUpTo(totals, prices, n - 1) + [RowOf(totals, prices, totals.order[n - 1])]
  }

  /** `sorted_results` before sorting. */
  function Rows(totals: Dict<ItemId, int>, prices: PriceBook): seq<Ranked>
    requires totals.Valid()
  {
    RowsUpTo(totals, prices, |totals.order|)
  }

  /** `total_results` and `total_profit` after every opening, or the failure of the first opening that raises. */
  function Accumulated(spec: LootSpec, prices: PriceBook, minRolls: int, maxRolls: int, key: ItemId,
                       trials: seq<Trial>): (r: Result<(Dict<ItemId, int>, real), Raised>)
    requires spec.Valid() && AllFit(minRolls, maxRolls, trials)
    ensures r.Success? ==> r.value.0.Valid()
  {
    var outcome := Collect(Opened(spec, prices, minRolls, maxRolls, key, trials));
    if outcome.Failure? then Failure(outcome.error)
    else
      OpenedValid(spec, prices, minRolls, maxRolls, key, trials);
      Success((MergeAll(outcome.value), ProfitSum(outcome.value)))
  }

  /**
   * `simulate_corpse` as a value: the first opening that raises decides the
   * failure; with no failure, zero simulations divide by zero; otherwise the
   * totals, the ranked rows, the total profit and its average.
   */
  function Simulate(spec: LootSpec, prices: PriceBook, numSimulations: int, minRolls: int, maxRolls: int,
                    key: ItemId, trials: seq<Trial>): Result<Summary, Raised>
    requires spec.Valid() && AllFit(minRolls, maxRolls, trials) && |trials| == Iterations(numSimulations)
  {
    match Accumulated(spec, prices, minRolls, maxRolls, key, trials)
    case Failure(e) => Failure(e)
    case Success((totals, total)) =>
      if numSimulations == 0 then Failure(NoSimulations)
      else Success(Summarize(totals, total, prices, numSimulations))
  }

  /** `total_profit / num_simulations`: the average that, taken n times, gives the total. */
  function Average(total: real, n: int): (a: real)
    requires n != 0
    ensures a * n as real == total
    ensures n == 1 ==> a == total
  {
    total / n as real
  }

  /** Lines 147-155: the totals, their rows ranked by value, the total profit and its average. */
  function Summarize(totals: Dict<ItemId, int>, total: real, prices: PriceBook, numSimulations: int): Summary
    requires totals.Valid() && numSimulations != 0
  {
    Summary(totals, SortByValue(Rows(totals, prices)), total, Average(total, numSimulations))
  }

  /** Lines 142-145: one opening's `results` added, item by item, into `total_results`. */
  method MergeInto(totals: Dict<ItemId, int>, results: Dict<ItemId, int>) returns (merged: Dict<ItemId, int>)
    requires totals.Valid() && results.Valid()
    ensures merged == Merge(totals, results)
  {
    merged := totals;
    for i := 0 to |results.order|
      invariant merged == AddAll(totals, ItemsUpTo(results, i))
    {
      var item := results.order[i];
      var amount := results.entries[item];
      AddAllSnoc(totals, ItemsUpTo(results, i), (item, amount));
      merged := AddTo(merged, item, amount);
    }
  }

  /** Lines 147-151: one row per item of `total_results`, in its order. */
  method RankTotals(totals: Dict<ItemId, int>, prices: PriceBook) returns (rows: seq<Ranked>)
    requires totals.Valid()
    ensures rows == Rows(totals, prices)
  {
    rows := [];
    for i := 0 to |totals.order|
      invariant rows == RowsUpTo(totals, prices, i)
    {
      var item := totals.order[i];
      var amount := totals.entries[item];
      var sellPrice := SellPrice(prices, item);
      rows := rows + [Ranked(item, amount, Worth(amount, sellPrice))];
    }
  }

  /** Lines 136-145: the openings one after another, summing their `results` and `profit`. */
  method AccumulateOpenings(spec: LootSpec, prices: PriceBook, minRolls: int, maxRolls: int, key: ItemId,
                            trials: seq<Trial>) returns (acc: Result<(Dict<ItemId, int>, real), Raised>)
    requires spec.Valid() && AllFit(minRolls, maxRolls, trials)
    ensures acc == Accumulated(spec, prices, minRolls, maxRolls, key, trials)
  {
    var totalResults := Empty();
    var totalProfit := 0.0;
    ghost var os := Opened(spec, prices, minRolls, maxRolls, key, trials);
    ghost var openings: seq<Opening> := [];
    assert os[..0] == [];
    for i := 0 to |trials|
      invariant Collect(os[..i]) == Success(openings)
      invariant AllValid(openings)
      invariant totalResults == MergeAll(openings)
      invariant totalProfit == ProfitSum(openings)
    {
      var t := trials[i];
      var outcome := SimulateRolls(spec, prices, minRolls, maxRolls, key, t.baseRoll, t.bonusR, t.draws);
      assert os[i] == outcome;
      if outcome.Failure? {
        CollectStopsAt(os, i, |os|);
        assert os[..|os|] == os;
        return Failure(outcome.error);
      }
      var opening := outcome.value;
      OpenValid(spec, prices, minRolls, maxRolls, key, t);
      totalProfit := totalProfit + opening.profit;
      totalResults := MergeInto(totalResults, opening.results);
      CollectSnoc(os, i);
      OpeningsSnoc(openings, opening);
      openings := openings + [opening];
    }
    assert os[..|os|] == os;
    return Success((totalResults, totalProfit));
  }

  /** `simulate_corpse(corpse_dict, bazaardict, num_simulations, min_rolls, max_rolls, key)` up to its printing. */
  method SimulateCorpse(spec: LootSpec, prices: PriceBook, numSimulations: int, minRolls: int, maxRolls: int,
                        key: ItemId, trials: seq<Trial>) returns (summary: Result<Summary, Raised>)
    requires spec.Valid() && AllFit(minRolls, maxRolls, trials) && |trials| == Iterations(numSimulations)
    ensures summary == Simulate(spec, prices, numSimulations, minRolls, maxRolls, key, trials)
  {
    var lootTable := PrepareLootTable(spec);  // computed and never used
    var acc := AccumulateOpenings(spec, prices, minRolls, maxRolls, key, trials);
    if acc.Failure? {
      return Failure(acc.error);
    }
    var (totalResults, totalProfit) := acc.value;
    var rows := RankTotals(totalResults, prices);
    rows := SortByValue(rows);
    if numSimulations == 0 {
      return Failure(NoSimulations);
    }
    return Success(Summary(totalResults, rows, totalProfit, Average(totalProfit, numSimulations)));
  }

  /** A successful opening's `results` is a well-formed dict. */
  lemma OpenValid(spec: LootSpec, prices: PriceBook, minRolls: int, maxRolls: int, key: ItemId, t: Trial)
    requires spec.Valid() && TrialFits(minRolls, maxRolls, t)
    ensures OpenTrial(spec, prices, minRolls, maxRolls, key, t).Success? ==>
      OpenTrial(spec, prices, minRolls, maxRolls, key, t).value.results.Valid()
  {
    if OpenTrial(spec, prices, minRolls, maxRolls, key, t).Success? {
      OpeningProfit(spec, prices, minRolls, maxRolls, key, t.baseRoll, t.bonusR, t.draws);
    }
  }

  /** When every opening succeeds, each `results` is a well-formed dict. */
  lemma OpenedValid(spec: LootSpec, prices: PriceBook, minRolls: int, maxRolls: int, key: ItemId, trials: seq<Trial>)
    requires spec.Valid() && AllFit(minRolls, maxRolls, trials)
    ensures Collect(Opened(spec, prices, minRolls, maxRolls, key, trials)).Success? ==>
      AllValid(Collect(Opened(spec, prices, minRolls, maxRolls, key, trials)).value)
  {
    var os := Opened(spec, prices, minRolls, maxRolls, key, trials);
    CollectAll(os);
    if Collect(os).Success? {
      var openings := Collect(os).value;
      forall i | 0 <= i < |openings| ensures openings[i].results.Valid() {
        assert os[i] == Success(openings[i]);
        OpenValid(spec, prices, minRolls, maxRolls, key, trials[i]);
      }
    }
  }

  /** One more opening extends the totals by its results and the profit by its profit. */
  lemma OpeningsSnoc(openings: seq<Opening>, o: Opening)
    requires AllValid(openings) && o.results.Valid()
    ensures AllValid(openings + [o])
    ensures MergeAll(openings + [o]) == Merge(MergeAll(openings), o.results)
    ensures ProfitSum(openings + [o]) == ProfitSum(openings) + o.profit
  {
    assert (openings + [o])[..|openings|] == openings;
  }

  /** Counting one more pair. */
  lemma AddAllSnoc(totals: Dict<ItemId, int>, pairs: seq<(ItemId, int)>, p: (ItemId, int))
    requires totals.Valid()
    ensures AddAll(totals, pairs + [p]) == AddTo(AddAll(totals, pairs), p.0, p.1)
  {
    assert (pairs + [p])[..|pairs|] == pairs;
  }

  /** Counting pairs adds their items, and no others, to the keys. */
  lemma {:induction false} AddAllKeys(totals: Dict<ItemId, int>, pairs: seq<(ItemId, int)>)
    requires totals.Valid()
    ensures AddAll(totals, pairs).entries.Keys == totals.entries.Keys + ItemsOf(pairs)
  {
    if pairs != [] {
      var init := pairs[..|pairs| - 1];
      var last := pairs[|pairs| - 1];
      AddAllKeys(totals, init);
      AddToKeys(AddAll(totals, init), last.0, last.1);
    }
  }

  /** Counting pairs raises each item's count by the sum of its amounts among them. */
  lemma {:induction false} AddAllAmount(totals: Dict<ItemId, int>, pairs: seq<(ItemId, int)>, item: ItemId)
    requires totals.Valid()
    ensures GetOr(AddAll(totals, pairs), item, 0) == GetOr(totals, item, 0) + AmountDrawn(pairs, item)
  {
    if pairs != [] {
      var init := pairs[..|pairs| - 1];
      var last := pairs[|pairs| - 1];
      AddAllAmount(totals, init, item);
      AddToGet(AddAll(totals, init), last.0, last.1, item);
    }
  }

  /** Counting pairs raises the sell value by theirs. */
  lemma {:induction false} AddAllValuation(totals: Dict<ItemId, int>, pairs: seq<(ItemId, int)>, prices: PriceBook)
    requires totals.Valid()
    ensures Valuation(AddAll(totals, pairs), prices) == Valuation(totals, prices) + Revenue(pairs, prices)
  {
    if pairs != [] {
      var init := pairs[..|pairs| - 1];
      var last := pairs[|pairs| - 1];
      AddAllValuation(totals, init, prices);
      ValuationAddTo(AddAll(totals, init), prices, last.0, last.1);
    }
  }

  /** The items of the first n pairs are the first n keys. */
  lemma {:induction false} ItemsUpToKeys(d: Dict<ItemId, int>, n: nat, item: ItemId)
    requires d.Valid() && n <= |d.order|
    ensures item in ItemsOf(ItemsUpTo(d, n)) <==> item in d.order[..n]
  {
    if n > 0 {
      ItemsUpToKeys(d, n - 1, item);
      assert ItemsUpTo(d, n)[..n - 1] == ItemsUpTo(d, n - 1);
      assert d.order[..n] == d.order[..n - 1] + [d.order[n - 1]];
    }
  }

  /** Among the first n pairs, a key occurs once, with its amount, once it has been reached. */
  lemma {:induction false} ItemsUpToAmount(d: Dict<ItemId, int>, n: nat, item: ItemId)
    requires d.Valid() && n <= |d.order|
    ensures AmountDrawn(ItemsUpTo(d, n), item) == if item in d.order[..n] then d.entries[item] else 0
  {
    if n > 0 {
      ItemsUpToAmount(d, n - 1, item);
      assert ItemsUpTo(d, n)[..n - 1] == ItemsUpTo(d, n - 1);
      assert d.order[..n] == d.order[..n - 1] + [d.order[n - 1]];
      if d.order[n - 1] == item {
        FreshAfter(d.order, n - 1);
      }
    }
  }

  /** The first n pairs are worth the first n items. */
  lemma {:induction false} ItemsUpToRevenue(d: Dict<ItemId, int>, n: nat, prices: PriceBook)
    requires d.Valid() && n <= |d.order|
    ensures Revenue(ItemsUpTo(d, n), prices) == ValuationUpTo(d, prices, n)
  {
    if n > 0 {
      ItemsUpToRevenue(d, n - 1, prices);
      assert ItemsUpTo(d, n)[..n - 1] == ItemsUpTo(d, n - 1);
    }
  }

  /** `d.items()` lists every key once with its amount, and is worth what d is worth. */
  lemma ItemsOfDict(d: Dict<ItemId, int>, prices: PriceBook, item: ItemId)
    requires d.Valid()
    ensures item in ItemsOf(Items(d)) <==> item in d.entries
    ensures AmountDrawn(Items(d), item) == GetOr(d, item, 0)
    ensures Revenue(Items(d), prices) == Valuation(d, prices)
  {
    ItemsUpToKeys(d, |d.order|, item);
    ItemsUpToAmount(d, |d.order|, item);
    ItemsUpToRevenue(d, |d.order|, prices);
    assert d.order[..|d.order|] == d.order;
    KeyListed(d, item);
  }

  /** Merging an opening adds the items it won, and no others, to the totals. */
  lemma MergeKeys(totals: Dict<ItemId, int>, results: Dict<ItemId, int>)
    requires totals.Valid() && results.Valid()
    ensures Merge(totals, results).entries.Keys == totals.entries.Keys + results.entries.Keys
  {
    AddAllKeys(totals, Items(results));
    forall item ensures item in ItemsOf(Items(results)) <==> item in results.entries {
      ItemsOfDict(results, map[], item);
    }
  }

  /** Merging an opening raises each item's total by the amount the opening won of it. */
  lemma MergeAmount(totals: Dict<ItemId, int>, results: Dict<ItemId, int>, item: ItemId)
    requires totals.Valid() && results.Valid()
    ensures GetOr(Merge(totals, results), item, 0) == GetOr(totals, item, 0) + GetOr(results, item, 0)
  {
    AddAllAmount(totals, Items(results), item);
    ItemsOfDict(results, map[], item);
  }

  /** Each item's total in `total_results` is the sum of its amounts over the openings. */
  lemma {:induction false} MergeAllAmount(openings: seq<Opening>, item: ItemId)
    requires AllValid(openings)
    ensures GetOr(MergeAll(openings), item, 0) == AmountWon(openings, item)
  {
    if openings != [] {
      var init := openings[..|openings| - 1];
      MergeAllAmount(init, item);
      assert MergeAll(openings) == Merge(MergeAll(init), openings[|openings| - 1].results);
      MergeAmount(MergeAll(init), openings[|openings| - 1].results, item);
    }
  }

  /** The items won by the given openings. */
  function WonItems(openings: seq<Opening>): set<ItemId> {
    if openings == [] then {}
    else WonItems(openings[..|openings| - 1]) + openings[|openings| - 1].results.entries.Keys
  }

  /** An item is among the items won exactly when some opening won it. */
  lemma {:induction false} WonItemsAt(openings: seq<Opening>, item: ItemId)
    ensures item in WonItems(openings) ==> exists i :: 0 <= i < |openings| && item in openings[i].results.entries
    ensures (exists i :: 0 <= i < |openings| && item in openings[i].results.entries) ==> item in WonItems(openings)
  {
    if openings != [] {
      var init := openings[..|openings| - 1];
      WonItemsAt(init, item);
      if exists i :: 0 <= i < |init| && item in init[i].results.entries {
        var i :| 0 <= i < |init| && item in init[i].results.entries;
        assert openings[i] == init[i];
      }
      if exists i :: 0 <= i < |openings| && item in openings[i].results.entries {
        var i :| 0 <= i < |openings| && item in openings[i].results.entries;
        if i < |init| {
          assert init[i] == openings[i];
        }
      }
    }
  }

  /** `total_results` lists exactly the items some opening won. */
  lemma {:induction false} MergeAllKeys(openings: seq<Opening>)
    requires AllValid(openings)
    ensures MergeAll(openings).entries.Keys == WonItems(openings)
  {
    if openings != [] {
      var init := openings[..|openings| - 1];
      MergeAllKeys(init);
      assert MergeAll(openings) == Merge(MergeAll(init), openings[|openings| - 1].results);
      MergeKeys(MergeAll(init), openings[|openings| - 1].results);
    }
  }

  /** Merging an opening adds its sell value to that of the totals. */
  lemma MergeValuation(totals: Dict<ItemId, int>, results: Dict<ItemId, int>, prices: PriceBook)
    requires totals.Valid() && results.Valid()
    ensures Valuation(Merge(totals, results), prices) == Valuation(totals, prices) + Valuation(results, prices)
  {
    AddAllValuation(totals, Items(results), prices);
    ItemsUpToRevenue(results, |results.order|, prices);
  }

  /** The sell value of `total_results` is the sum of the openings' sell values. */
  lemma {:induction false} MergeAllValuation(openings: seq<Opening>, prices: PriceBook)
    requires AllValid(openings)
    ensures Valuation(MergeAll(openings), prices) == ValueWon(openings, prices)
  {
    if openings != [] {
      var init := openings[..|openings| - 1];
      var last := openings[|openings| - 1];
      MergeAllValuation(init, prices);
      MergeValuation(MergeAll(init), last.results, prices);
    }
  }

  /** The first n rows are those of the first n items, in order. */
  lemma {:induction false} RowsUpToAt(totals: Dict<ItemId, int>, prices: PriceBook, n: nat)
    requires totals.Valid() && n <= |totals.order|
    ensures |RowsUpTo(totals, prices, n)| == n
    ensures forall i | 0 <= i < n :: RowsUpTo(totals, prices, n)[i] == RowOf(totals, prices, totals.order[i])
  {
    if n > 0 {
      RowsUpToAt(totals, prices, n - 1);
    }
  }

  /** One row per item of the totals, in their order: the item, its total amount, and amount × sell price. */
  lemma RowsAt(totals: Dict<ItemId, int>, prices: PriceBook)
    requires totals.Valid()
    ensures |Rows(totals, prices)| == |totals.order|
    ensures forall i | 0 <= i < |totals.order| ::
      && Rows(totals, prices)[i].item == totals.order[i]
      && Rows(totals, prices)[i].amount == totals.entries[totals.order[i]]
      && Rows(totals, prices)[i].value == Worth(totals.entries[totals.order[i]], SellPrice(prices, totals.order[i]))
  {
    RowsUpToAt(totals, prices, |totals.order|);
  }

  /** The values of the first n rows add up to the sell value of the first n items. */
  lemma {:induction false} RowsUpToSum(totals: Dict<ItemId, int>, prices: PriceBook, n: nat)
    requires totals.Valid() && n <= |totals.order|
    ensures SumValues(RowsUpTo(totals, prices, n)) == ValuationUpTo(totals, prices, n)
  {
    if n > 0 {
      RowsUpToSum(totals, prices, n - 1);
      var row := RowOf(totals, prices, totals.order[n - 1]);
      SumValuesAppend(RowsUpTo(totals, prices, n - 1), [row]);
      assert SumValues([row]) == row.value;
    }
  }

  /** With every opening paying the key once, the total profit is the value won less one key per opening. */
  lemma {:induction false} ProfitSumKeys(openings: seq<Opening>, prices: PriceBook, keyPrice: real)
    requires AllValid(openings)
    requires forall i | 0 <= i < |openings| ::
      openings[i].profit == Valuation(openings[i].results, prices) - keyPrice
    ensures ProfitSum(openings) == ValueWon(openings, prices) - Worth(|openings|, keyPrice)
  {
    if openings != [] {
      var init := openings[..|openings| - 1];
      assert forall i | 0 <= i < |init| :: init[i] == openings[i];
      ProfitSumKeys(init, prices, keyPrice);
      WorthAdd(|init|, 1, keyPrice);
    }
  }

  /** The simulation succeeds exactly when every opening succeeds and the number of simulations is not zero. */
  lemma SimulateSucceeds(spec: LootSpec, prices: PriceBook, numSimulations: int, minRolls: int, maxRolls: int,
                         key: ItemId, trials: seq<Trial>)
    requires spec.Valid() && AllFit(minRolls, maxRolls, trials) && |trials| == Iterations(numSimulations)
    ensures Simulate(spec, prices, numSimulations, minRolls, maxRolls, key, trials).Success? ==>
      && numSimulations != 0
      && forall i | 0 <= i < |trials| :: OpenTrial(spec, prices, minRolls, maxRolls, key, trials[i]).Success?
    ensures
      && numSimulations != 0
      && (forall i | 0 <= i < |trials| :: OpenTrial(spec, prices, minRolls, maxRolls, key, trials[i]).Success?)
      ==> Simulate(spec, prices, numSimulations, minRolls, maxRolls, key, trials).Success?
  {
    var os := Opened(spec, prices, minRolls, maxRolls, key, trials);
    CollectAll(os);
    assert forall i | 0 <= i < |trials| :: os[i] == OpenTrial(spec, prices, minRolls, maxRolls, key, trials[i]);
  }

  /** Zero simulations fail with a division by zero. */
  lemma SimulateNone(spec: LootSpec, prices: PriceBook, minRolls: int, maxRolls: int, key: ItemId, trials: seq<Trial>)
    requires spec.Valid() && AllFit(minRolls, maxRolls, trials) && |trials| == Iterations(0)
    ensures Simulate(spec, prices, 0, minRolls, maxRolls, key, trials) == Failure(NoSimulations)
  {
    assert trials == [];
  }

  /** The first opening that fails decides the simulation's failure; the later openings do not run. */
  lemma SimulateFailure(spec: LootSpec, prices: PriceBook, numSimulations: int, minRolls: int, maxRolls: int,
                        key: ItemId, trials: seq<Trial>, i: nat)
    requires spec.Valid() && AllFit(minRolls, maxRolls, trials) && |trials| == Iterations(numSimulations)
    requires i < |trials| && OpenTrial(spec, prices, minRolls, maxRolls, key, trials[i]).Failure?
    requires forall j | 0 <= j < i :: OpenTrial(spec, prices, minRolls, maxRolls, key, trials[j]).Success?
    ensures Simulate(spec, prices, numSimulations, minRolls, maxRolls, key, trials)
      == Failure(OpenTrial(spec, prices, minRolls, maxRolls, key, trials[i]).error)
  {
    var os := Opened(spec, prices, minRolls, maxRolls, key, trials);
    CollectAll(os[..i]);
    assert forall j | 0 <= j < i :: os[..i][j] == os[j];
    CollectStopsAt(os, i, |os|);
    assert os[..|os|] == os;
  }

  /** A simulation that succeeds ran a non-zero number of times, and reports the average of its total profit over them. */
  lemma SimulateAverage(spec: LootSpec, prices: PriceBook, numSimulations: int, minRolls: int, maxRolls: int,
                        key: ItemId, trials: seq<Trial>)
    requires spec.Valid() && AllFit(minRolls, maxRolls, trials) && |trials| == Iterations(numSimulations)
    requires Simulate(spec, prices, numSimulations, minRolls, maxRolls, key, trials).Success?
    ensures var s := Simulate(spec, prices, numSimulations, minRolls, maxRolls, key, trials).value;
      && numSimulations != 0 && s.averageProfit == Average(s.totalProfit, numSimulations)
  {
    OpenedValid(spec, prices, minRolls, maxRolls, key, trials);
  }

  /**
   * The total profit is the sum of the openings' profits, each item's total
   * is the sum of its amounts over the openings, and the totals list exactly
   * the items some opening won.
   */
  lemma SimulateTotals(spec: LootSpec, prices: PriceBook, numSimulations: int, minRolls: int, maxRolls: int,
                       key: ItemId, trials: seq<Trial>, item: ItemId)
    requires spec.Valid() && AllFit(minRolls, maxRolls, trials) && |trials| == Iterations(numSimulations)
    requires Simulate(spec, prices, numSimulations, minRolls, maxRolls, key, trials).Success?
    ensures var s := Simulate(spec, prices, numSimulations, minRolls, maxRolls, key, trials).value;
      var openings := Collect(Opened(spec, prices, minRolls, maxRolls, key, trials)).value;
      && |openings| == |trials|
      && (forall i | 0 <= i < |trials| ::
            OpenTrial(spec, prices, minRolls, maxRolls, key, trials[i]) == Success(openings[i]))
      && s.totalProfit == ProfitSum(openings)
      && GetOr(s.totals, item, 0) == AmountWon(openings, item)
      && (item in s.totals.entries <==> exists i :: 0 <= i < |openings| && item in openings[i].results.entries)
  {
    var os := Opened(spec, prices, minRolls, maxRolls, key, trials);
    CollectAll(os);
    OpenedValid(spec, prices, minRolls, maxRolls, key, trials);
    MergeAllAmount(Collect(os).value, item);
    MergeAllKeys(Collect(os).value);
    WonItemsAt(Collect(os).value, item);
  }

  /**
   * The report lists one row per item of the totals, highest value first,
   * and rows of equal value keep the order of the totals.
   */
  lemma SimulateRanked(spec: LootSpec, prices: PriceBook, numSimulations: int, minRolls: int, maxRolls: int,
                       key: ItemId, trials: seq<Trial>)
    requires spec.Valid() && AllFit(minRolls, maxRolls, trials) && |trials| == Iterations(numSimulations)
    requires Simulate(spec, prices, numSimulations, minRolls, maxRolls, key, trials).Success?
    ensures var s := Simulate(spec, prices, numSimulations, minRolls, maxRolls, key, trials).value;
      && s.totals.Valid()
      && Descending(s.ranked)
      && multiset(s.ranked) == multiset(Rows(s.totals, prices))
      && forall v :: Filter(s.ranked, v) == Filter(Rows(s.totals, prices), v)
  {
    var s := Simulate(spec, prices, numSimulations, minRolls, maxRolls, key, trials).value;
    var rows := Rows(s.totals, prices);
    SortDescending(rows);
    SortPermutes(rows);
    forall v ensures Filter(s.ranked, v) == Filter(rows, v) {
      SortStable(rows, v);
    }
  }

  /**
   * The report adds up: the values of the ranked rows sum to the total
   * profit plus the price of the key paid at every opening.
   */
  lemma SimulateReport(spec: LootSpec, prices: PriceBook, numSimulations: int, minRolls: int, maxRolls: int,
                       key: ItemId, trials: seq<Trial>)
    requires spec.Valid() && AllFit(minRolls, maxRolls, trials) && |trials| == Iterations(numSimulations)
    requires Simulate(spec, prices, numSimulations, minRolls, maxRolls, key, trials).Success?
    ensures var s := Simulate(spec, prices, numSimulations, minRolls, maxRolls, key, trials).value;
      SumValues(s.ranked) == s.totalProfit + Worth(|trials|, SellPrice(prices, key))
  {
    var os := Opened(spec, prices, minRolls, maxRolls, key, trials);
    CollectAll(os);
    OpenedValid(spec, prices, minRolls, maxRolls, key, trials);
    var openings := Collect(os).value;
    var s := Simulate(spec, prices, numSimulations, minRolls, maxRolls, key, trials).value;
    forall i | 0 <= i < |openings|
      ensures openings[i].profit == Valuation(openings[i].results, prices) - SellPrice(prices, key)
    {
      assert os[i] == Success(openings[i]);
      var t := trials[i];
      OpeningProfit(spec, prices, minRolls, maxRolls, key, t.baseRoll, t.bonusR, t.draws);
    }
    ProfitSumKeys(openings, prices, SellPrice(prices, key));
    MergeAllValuation(openings, prices);
    RowsUpToSum(s.totals, prices, |s.totals.order|);
    SortSum(Rows(s.totals, prices));
  }
}

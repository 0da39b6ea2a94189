# frozen-corpse-sim in Dafny

A model of the deterministic core of `simulation.py`, a Monte-Carlo estimate
of what opening a loot "corpse" is worth at market prices:

- **Sampling** — `weighted_choice`: walk a weight table in insertion order with
  a running total and return the first key whose running total exceeds the
  uniform draw, or nothing when the walk falls off the end.
- **Loot** — `prepare_loot_table`: compile a corpse's loot spec (dict-form
  entries with a fixed amount, list-form entries with weighted amounts) into an
  item → weight table. Also the `{amount: weight}` table of a list-form item.
- **Bazaar** — the price map `bazaardict` that `main` builds from the market's
  products, and the perfect-gem adjustment: each perfect gem's sell and buy
  price lose five times the matching flawless gem's price.
- **Rolls** — `simulate_rolls`, one opening: the number of rolls, each roll's
  item and amount, the per-item `results`, and the profit less the key's price.
- **Ranking** — `sorted_results.sort(key=value, reverse=True)`.
- **Corpse** — `simulate_corpse`: `num_simulations` openings folded into
  `total_results` and `total_profit`, one report row per item ranked by value,
  and the average profit.

How Python is represented:

- Python dicts remember insertion order, and that order decides which key
  `weighted_choice` picks and how the report rows are laid out. They are
  therefore `Dicts.Dict` values: an `order` sequence plus an `entries` map.
  `Dicts.Set` keeps an existing key in its place, as `d[k] = v` does.
- The price map is only looked up, never iterated by the core, so it is a plain
  `map` (`Bazaar.PriceBook`).
- Every call to `random` is an input:
  - `Rolls.Draw(itemR, amountR)` holds the two `random.uniform` draws of one roll;
  - `Corpse.Trial(baseRoll, bonusR, draws)` holds the `randint` result, the
    `random.random()` result and the per-roll draws of one opening.

  `Corpse.TrialFits` constrains only the randint result, which must lie in the
  roll range, and the number of draws, which must cover every roll. The
  `random()` and `uniform` draws may be any real. The lemmas therefore cover
  more inputs than `random` can produce, including the draws it can.
- Weights and prices are `real`.
- Every exception the code can raise becomes a `Rolls.Raised` value, carried in
  the `Failure` case of a `Result`:

  | `Raised` | exception in the source |
  |---|---|
  | `RollRangeEmpty` | `randint(min, max)` with `min > max` |
  | `NoItemDrawn` | `corpse_dict[None]` |
  | `NoAmountDrawn` | `+= None` |
  | `KeyNotPriced` | `bazaardict[key]` |
  | `NoSimulations` | division by zero |

  An exception ends the whole simulation, so the first failing roll decides the
  opening's failure, and the first failing opening decides the simulation's
  (`Rolls.Collect`).

Each imperative routine is a method with loop invariants, proved equal to a
specification function. The properties are lemmas about those functions:

| method | specification function |
|---|---|
| `Sampling.WeightedChoice` | `Choose` |
| `Loot.PrepareLootTable` | `LootTable` |
| `Rolls.SimulateRolls` | `Open` |
| `Corpse.SimulateCorpse` | `Simulate` |
| `Bazaar.AdjustPerfectPrices` | `Adjusted` |

Edge behaviour of the code, as modelled:

- An empty or zero-weight loot spec is not rejected. `weighted_choice` then
  returns `None` on the first roll, and `corpse_dict[None]` raises `KeyError`
  (`NoItemDrawn`).
- `min_rolls > max_rolls` makes `randint` raise `ValueError` (`RollRangeEmpty`).
- Zero simulations raise `ZeroDivisionError` at the average (`NoSimulations`).
  A negative roll count or simulation count gives an empty `range`
  (`Rolls.Iterations`).
- An unpriced item won is worth 0, but an unpriced key raises `KeyError` at
  `bazaardict[key]` (`KeyNotPriced`).

## Model

| member | source | states |
|---|---|---|
| Sampling.WeightedChoice | simulation.py:73-82 | the running-total walk returns exactly `Choose(table, r)` |
| Sampling.ChooseFirstAbove | simulation.py:78-82 | a chosen key sits at the first position whose running total exceeds r; nothing is chosen exactly when no running total exceeds r |
| Sampling.ChooseBelowTotal | simulation.py:76-82 | a draw in [0, total_weight) always selects a key of the table |
| Sampling.ChooseAtTotal | simulation.py:76-82 | with non-negative weights, a draw at or above total_weight (which `uniform` can return) selects nothing |
| Sampling.ChooseInterval | simulation.py:78-82 | with non-negative weights, the key at position j is chosen iff r lies in [running total before j, running total through j) |
| Sampling.PrefixWeightMonotone | simulation.py:79-80 | with non-negative weights the running total never decreases |
| Loot.PrepareLootTable | simulation.py:85-95 | the table lists the spec's items in the spec's order; a dict entry gets its weight, a list entry the sum of its sub-entry weights |
| Loot.LootTableWeights | simulation.py:85-95 | the compiled table has exactly the spec's keys, in its order, each with its entry's weight |
| Loot.LootTablePrefixOrder | simulation.py:87-93 | after n items, the table lists exactly the first n items of the spec, in order |
| Loot.AmountWeightsKeys | simulation.py:114 | the amount table's keys are exactly the amounts listed among the drops |
| Loot.AmountWeightsLastWins | simulation.py:114 | a repeated amount keeps the weight of its last listing |
| Dicts.Set | simulation.py:91 | assignment updates the entry; an existing key keeps its place, a new key goes last; the dict stays well formed |
| Dicts.AddToGet | simulation.py:119-121 | counting raises the count of its key by the amount and leaves every other count alone |
| Dicts.AddToKeys | simulation.py:119-121 | counting adds its key, and no other, to the keys |
| Bazaar.BuildPriceBook | simulation.py:13-26 | an item is priced iff it is a wanted product with a quick status, with that status's prices; the missing items are the wanted ones left unpriced |
| Bazaar.AdjustPerfectPrices | simulation.py:28-35 | the in-place loop over the perfect→flawless pairs ends in `Adjusted(prices, pairs)` |
| Bazaar.AdjustedKeys | simulation.py:29-35 | the adjustment neither adds nor removes an item |
| Bazaar.AdjustedOthersUnchanged | simulation.py:29-35 | an item that is not a perfect gem keeps its quote |
| Bazaar.AdjustedPerfect | simulation.py:29-35 | a priced perfect gem loses 5× the flawless sell price from its sell price and 5× the flawless buy price from its buy price when the flawless gem is priced, and is unchanged otherwise |
| Bazaar.AdjustedBeforeUntouched | simulation.py:29-35 | a perfect gem's quote is untouched until its own pair is reached |
| Rolls.RollCountRange | simulation.py:102-106 | the roll count lies in [min_rolls, max_rolls + 1], and is the randint draw plus 1 exactly when the bonus test passes |
| Rolls.Roll | simulation.py:111-117 | one roll yields the item chosen from the loot table and its amount, or the failure of either choice |
| Rolls.RollAmount | simulation.py:113-117 | a rolled item belongs to the spec; its amount is the fixed amount of a dict entry, or one of the amounts listed in a list entry |
| Rolls.RollAll | simulation.py:108-125 | the roll loop gives the tally and the revenue of all rolls, or the first roll's failure |
| Rolls.SimulateRolls | simulation.py:98-130 | `simulate_rolls` returns exactly `Open(...)`: a failure, or the results and the profit less the key price |
| Rolls.CollectAll | simulation.py:110-117 | a sequence of steps succeeds iff every step succeeds, and then yields every value in order; otherwise it fails with the first failing step's error |
| Rolls.ItemsOfDrawn | simulation.py:119-121 | an item is among the items drawn iff some roll drew it |
| Rolls.TallyKeys | simulation.py:119-121 | `results` has exactly the drawn items as keys |
| Rolls.TallyAmounts | simulation.py:119-121 | each item's value in `results` is the sum of the amounts drawn for it |
| Rolls.ValuationAddTo | simulation.py:119-125 | counting an amount raises the sell value of the results by amount × sell price |
| Rolls.TallyValuation | simulation.py:119-125 | the sell value of `results` equals the profit summed roll by roll (unpriced items count 0) |
| Rolls.OpeningDraws | simulation.py:98-130 | a successful opening made one roll per roll count; its results are their tally, and its profit is their revenue less the key's sell price |
| Rolls.OpeningSucceeds | simulation.py:98-130 | an opening succeeds iff the roll range is non-empty, every roll draws an item and an amount, and the key is priced |
| Rolls.OpeningFailure | simulation.py:110-128 | the first failing roll decides the opening's failure, before the key's price is looked up |
| Rolls.OpeningProfit | simulation.py:123-128 | the key is paid once however many rolls there were: profit = sell value of results − key sell price |
| Ranking.SortDescending | simulation.py:153 | the sorted rows are ordered by value, highest first |
| Ranking.SortPermutes | simulation.py:153 | sorting keeps every row, each as often |
| Ranking.SortStable | simulation.py:153 | rows of equal value keep their relative order |
| Ranking.SortSum | simulation.py:153 | sorting does not change the sum of the values |
| Corpse.MergeInto | simulation.py:142-145 | the inner loop adds one opening's results into `total_results`, giving `Merge(totals, results)` |
| Corpse.ItemsOfDict | simulation.py:142 | `results.items()` lists each key once with its amount, and is worth what the dict is worth |
| Corpse.AddAllKeys | simulation.py:142-145 | counting pairs adds their items, and no others, to the keys |
| Corpse.AddAllAmount | simulation.py:142-145 | counting pairs raises each item's count by its amounts among them |
| Corpse.AddAllValuation | simulation.py:142-145 | counting pairs raises the sell value by theirs |
| Corpse.MergeKeys | simulation.py:142-145 | merging an opening adds the items it won, and no others, to the totals |
| Corpse.MergeAmount | simulation.py:142-145 | merging raises each item's total by the opening's amount of it |
| Corpse.MergeValuation | simulation.py:142-145 | merging adds the opening's sell value to the totals' |
| Corpse.OpeningsSnoc | simulation.py:139-145 | one more opening extends `total_results` by its results and `total_profit` by its profit |
| Corpse.AccumulateOpenings | simulation.py:136-145 | the openings loop gives `total_results` and `total_profit` over all openings, or the first opening's failure |
| Corpse.MergeAllAmount | simulation.py:136-145 | each item's total is the sum of its amounts over the openings |
| Corpse.WonItemsAt | simulation.py:136-145 | an item is among the items won iff some opening won it |
| Corpse.MergeAllKeys | simulation.py:136-145 | `total_results` lists exactly the items won |
| Corpse.MergeAllValuation | simulation.py:136-145 | the sell value of `total_results` is the sum of the openings' sell values |
| Corpse.ProfitSumKeys | simulation.py:137-141 | when each opening's profit is its sell value less the key price, the total profit is the value won less one key per opening |
| Corpse.RankTotals | simulation.py:147-151 | the row loop builds exactly `Rows(totals, prices)` |
| Corpse.RowsAt | simulation.py:147-151 | one row per item of the totals, in their order: the item, its total, total × sell price (0 when unpriced) |
| Corpse.RowsUpToSum | simulation.py:147-151 | the row values add up to the sell value of the totals |
| Corpse.Average | simulation.py:155 | the average times the number of simulations is the total profit |
| Corpse.SimulateCorpse | simulation.py:132-155 | `simulate_corpse`, up to its printing, returns exactly `Simulate(...)` |
| Corpse.SimulateSucceeds | simulation.py:132-155 | the simulation succeeds iff every opening succeeds and the number of simulations is not zero |
| Corpse.SimulateNone | simulation.py:155 | zero simulations fail with a division by zero |
| Corpse.SimulateFailure | simulation.py:139-141 | the first failing opening decides the simulation's failure |
| Corpse.SimulateAverage | simulation.py:155 | a successful simulation ran a non-zero number of times and reports total_profit / num_simulations |
| Corpse.SimulateTotals | simulation.py:136-145 | there is one successful opening per trial; total_profit is the sum of their profits; each item's total is the sum of its amounts; the totals list exactly the items some opening won |
| Corpse.SimulateRanked | simulation.py:147-153 | the report has the rows of the totals, each once, highest value first, with rows of equal value in the totals' order |
| Corpse.SimulateReport | simulation.py:139-153 | the report's values add up to the total profit plus one key price per opening |

## Left out

- The HTTP request to the market API and the JSON handling
  (simulation.py:7-11, 60-61): network I/O. The products are a parameter of
  `Bazaar.BuildPriceBook`.
- All printing and number formatting, including
  `print_bazaardict_sorted_by_sell_price` and the missing-items listing
  (simulation.py:37-45, 63-71, 156-165): presentation only.
  `Corpse.SimulateCorpse` returns what it would print as a `Corpse.Summary`.
- The pseudo-random generator. Its draws are inputs. `Corpse.TrialFits` keeps
  the randint result in the roll range; the `random()` and `uniform` draws
  range over all reals, a superset of what `random` returns. Convergence to
  the weight proportions is a statistical property and is not stated.
- Floating-point rounding: weights and prices are exact reals.
- The contents of `corpse_data` (loot specs, product list, perfect→flawless
  pairs): static data. The model takes them as parameters.
- A quote whose `sellPrice` or `buyPrice` is absent (`None`) is not
  represented: `Bazaar.Quote` always holds two numbers.
- The order of `bazaardict`: the simulation only looks prices up.
- The `loot_table` computed at simulation.py:134: `Corpse.SimulateCorpse`
  computes it and never uses it, as the source does.
- `list.sort` is a library call. It is modelled as the stable insertion-sort
  function `Ranking.SortByValue` over a sequence of rows, not as an in-place
  sort of a list.
- Bazaar.AdjustedPerfect: assumes that no flawless gem is itself a perfect gem
  of the mapping. Otherwise the result depends on the order of the pairs, which
  `Bazaar.Adjusted` still models step by step but no lemma describes.
- Sampling.ChooseAtTotal, Sampling.ChooseInterval: assume non-negative
  weights. With a negative weight the running total can drop back below the
  draw, and the weight-interval reading no longer holds.

/**
 * The price map (`bazaardict`) that `main` builds from the market's products
 * and then corrects for perfect gems.
 */
module Bazaar {
  import opened Wrappers
  import opened Dicts
  import opened Loot

  /** `{"sellPrice": ..., "buyPrice": ...}` of one product. */
  datatype Quote = Quote(sellPrice: real, buyPrice: real)

  /** `bazaardict`: item -> quote. Only its contents matter to the simulation, not its order. */
  type PriceBook = map<ItemId, Quote>

  /** `bazaardict.get(item, {}).get("sellPrice", 0)`: an item without a quote is worth 0. */
  function SellPrice(prices: PriceBook, item: ItemId): real {
    if item in prices then prices[item].sellPrice else 0.0
  }

  /**
   * Building `bazaardict` and `missing_items` from the market's products:
   * a product is kept when it is a wanted item and its `quick_status` is
   * present (`None` stands for an absent or empty `quick_status`).
   */
  method BuildPriceBook(products: Dict<ItemId, Option<Quote>>, productItems: set<ItemId>)
    returns (prices: PriceBook, missing: set<ItemId>)
    requires products.Valid()
    ensures forall item :: item in prices <==>
      item in products.entries && item in productItems && products.entries[item].Some?
    ensures forall item | item in prices :: prices[item] == products.entries[item].value
    ensures missing == productItems - prices.Keys
  {
    prices := map[];
    missing := productItems;
    for i := 0 to |products.order|
      invariant forall item :: item in prices <==>
        item in products.order[..i] && item in productItems && products.entries[item].Some?
      invariant forall item | item in prices :: prices[item] == products.entries[item].value
      invariant missing == productItems - prices.Keys
    {
      var productId := products.order[i];
      if productId in productItems {
        var quickStatus := products.entries[productId];
        if quickStatus.Some? {
          prices := prices[productId := quickStatus.value];
          missing := missing - {productId};
        }
      }
      assert products.order[..i + 1] == products.order[..i] + [productId];
    }
    assert products.order[..|products.order|] == products.order;
    forall item | item in products.entries ensures item in products.order {
      KeyListed(products, item);
    }
  }

  /** A perfect gem is worth its price less this many flawless gems. */
  const FLAWLESS_PER_PERFECT: real := 5.0

  /** One step of the adjustment loop: lines 30-35 for the pair (perfect, flawless). */
  function AdjustPair(prices: PriceBook, perfect: ItemId, flawless: ItemId): PriceBook {
    if perfect in prices && flawless in prices then
      var f := prices[flawless];
      var p := prices[perfect];
      prices[perfect := Quote(p.sellPrice - FLAWLESS_PER_PERFECT * f.sellPrice,
                              p.buyPrice - FLAWLESS_PER_PERFECT * f.buyPrice)]
    else prices
  }

  /** The price map after the first n pairs of `perfect_to_flawless` were applied in order. */
  function AdjustedUpTo(prices: PriceBook, pairs: Dict<ItemId, ItemId>, n: nat): PriceBook
    requires pairs.Valid() && n <= |pairs.order|
  {
    if n == 0 then prices
    else
      var perfect := pairs.order[n - 1];
      AdjustPair(AdjustedUpTo(prices, pairs, n - 1), perfect, pairs.entries[perfect])
  }

  function Adjusted(prices: PriceBook, pairs: Dict<ItemId, ItemId>): PriceBook
    requires pairs.Valid()
  {
    AdjustedUpTo(prices, pairs, |pairs.order|)
  }

  /** The perfect/flawless loop of `main`, updating the price map in place. */
  method AdjustPerfectPrices(prices: PriceBook, perfectToFlawless: Dict<ItemId, ItemId>)
    returns (adjusted: PriceBook)
    requires perfectToFlawless.Valid()
    ensures adjusted == Adjusted(prices, perfectToFlawless)
  {
    adjusted := prices;
    for i := 0 to |perfectToFlawless.order|
      invariant adjusted == AdjustedUpTo(prices, perfectToFlawless, i)
    {
      var perfectItem := perfectToFlawless.order[i];
      var flawlessItem := perfectToFlawless.entries[perfectItem];
      if perfectItem in adjusted && flawlessItem in adjusted {
        var flawlessSellPrice := adjusted[flawlessItem].sellPrice;
        var flawlessBuyPrice := adjusted[flawlessItem].buyPrice;
        var quote := adjusted[perfectItem];
        adjusted := adjusted[perfectItem := quote.(sellPrice := quote.sellPrice - FLAWLESS_PER_PERFECT * flawlessSellPrice)];
        quote := adjusted[perfectItem];
        adjusted := adjusted[perfectItem := quote.(buyPrice := quote.buyPrice - FLAWLESS_PER_PERFECT * flawlessBuyPrice)];
      }
    }
  }

  /** The adjustment never adds or removes an item. */
  lemma {:induction false} AdjustedKeys(prices: PriceBook, pairs: Dict<ItemId, ItemId>, n: nat)
    requires pairs.Valid() && n <= |pairs.order|
    ensures AdjustedUpTo(prices, pairs, n).Keys == prices.Keys
  {
    if n > 0 {
      AdjustedKeys(prices, pairs, n - 1);
    }
  }

  /** An item that is not a perfect gem keeps its quote. */
  lemma {:induction false} AdjustedOthersUnchanged(prices: PriceBook, pairs: Dict<ItemId, ItemId>, n: nat, item: ItemId)
    requires pairs.Valid() && n <= |pairs.order|
    requires item in prices && item !in pairs.entries
    ensures item in AdjustedUpTo(prices, pairs, n) && AdjustedUpTo(prices, pairs, n)[item] == prices[item]
  {
    if n > 0 {
      AdjustedOthersUnchanged(prices, pairs, n - 1, item);
      assert pairs.order[n - 1] != item;
      AdjustedKeys(prices, pairs, n - 1);
    }
  }

  /**
   * When no flawless gem is itself adjusted, every perfect gem whose perfect and
   * flawless quotes are both present loses five flawless sell prices from its
   * sell price and five flawless buy prices from its buy price; the others keep
   * their quote.
   */
  lemma AdjustedPerfect(prices: PriceBook, pairs: Dict<ItemId, ItemId>, perfect: ItemId)
    requires pairs.Valid() && perfect in pairs.entries && perfect in prices
    requires forall p | p in pairs.entries :: pairs.entries[p] !in pairs.entries
    ensures var flawless := pairs.entries[perfect];
      var after := Adjusted(prices, pairs);
      && perfect in after
      && after[perfect] == if flawless in prices then
           Quote(prices[perfect].sellPrice - FLAWLESS_PER_PERFECT * prices[flawless].sellPrice,
                 prices[perfect].buyPrice - FLAWLESS_PER_PERFECT * prices[flawless].buyPrice)
         else prices[perfect]
  {
    KeyListed(pairs, perfect);
    var j :| 0 <= j < |pairs.order| && pairs.order[j] == perfect;
    AdjustedStep(prices, pairs, |pairs.order|, j);
  }

  lemma {:induction false} AdjustedStep(prices: PriceBook, pairs: Dict<ItemId, ItemId>, n: nat, j: nat)
    requires pairs.Valid() && j < n <= |pairs.order| && pairs.order[j] in prices
    requires forall p | p in pairs.entries :: pairs.entries[p] !in pairs.entries
    ensures var perfect := pairs.order[j];
      var flawless := pairs.entries[perfect];
      var after := AdjustedUpTo(prices, pairs, n);
      && perfect in after
      && after[perfect] == if flawless in prices then
           Quote(prices[perfect].sellPrice - FLAWLESS_PER_PERFECT * prices[flawless].sellPrice,
                 prices[perfect].buyPrice - FLAWLESS_PER_PERFECT * prices[flawless].buyPrice)
         else prices[perfect]
  {
    var perfect := pairs.order[j];
    var flawless := pairs.entries[perfect];
    AdjustedKeys(prices, pairs, n - 1);
    if j < n - 1 {
      AdjustedStep(prices, pairs, n - 1, j);
      assert pairs.order[n - 1] != perfect;
    } else {
      assert flawless !in pairs.entries;
      if flawless in prices {
        AdjustedOthersUnchanged(prices, pairs, n - 1, flawless);
      }
      if n - 1 > 0 {
        assert perfect !in pairs.order[..n - 1];
        AdjustedBeforeUntouched(prices, pairs, n - 1, perfect);
      }
    }
  }

  /** A perfect gem's quote is untouched until its own pair comes up. */
  lemma {:induction false} AdjustedBeforeUntouched(prices: PriceBook, pairs: Dict<ItemId, ItemId>, n: nat, item: ItemId)
    requires pairs.Valid() && n <= |pairs.order| && item in prices && item !in pairs.order[..n]
    ensures item in AdjustedUpTo(prices, pairs, n) && AdjustedUpTo(prices, pairs, n)[item] == prices[item]
  {
    if n > 0 {
      assert pairs.order[n - 1] in pairs.order[..n];
      assert pairs.order[..n - 1] <= pairs.order[..n];
      assert item !in pairs.order[..n - 1] by {
        assert forall x | x in pairs.order[..n - 1] :: x in pairs.order[..n];
      }
      AdjustedBeforeUntouched(prices, pairs, n - 1, item);
      AdjustedKeys(prices, pairs, n - 1);
    }
  }
}

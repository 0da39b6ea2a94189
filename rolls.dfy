/**
 * `simulate_rolls`: one opening of a corpse. The random draws are inputs:
 * `baseRoll` is what `random.randint(min_rolls, max_rolls)` returned,
 * `bonusR` what `random.random()` returned, and `draws[i]` the uniform
 * draws of roll i.
 */
module Rolls {
  import opened Wrappers
  import opened Dicts
  import opened Sampling
  import opened Loot
  import opened Bazaar

  /** `random.random() < 0.2` grants one extra roll. */
  const BONUS_ROLL_CHANCE: real := 0.2

  /** The uniform draws one roll may use: for the item, and for the amount of a list-form item. */
  datatype Draw = Draw(itemR: real, amountR: real)

  /** The exceptions an opening or a whole simulation can raise. */
  datatype Raised =
    | RollRangeEmpty  // `random.randint(min_rolls, max_rolls)` with min_rolls > max_rolls: ValueError
    | NoItemDrawn     // the item draw fell off the end: `corpse_dict[None]` raises KeyError
    | NoAmountDrawn   // the amount draw fell off the end: `results[item] += None` raises TypeError
    | KeyNotPriced    // `bazaardict[key]` raises KeyError
    | NoSimulations   // `total_profit / num_simulations` with 0 simulations: ZeroDivisionError

  /** What one opening returns: `results` (item -> amount won) and `total_profit`. */
  datatype Opening = Opening(results: Dict<ItemId, int>, profit: real)

  /** `total_rolls`: the randint draw, plus one when the bonus test passes. */
  function RollCount(baseRoll: int, bonusR: real): int {
    if bonusR < BONUS_ROLL_CHANCE then baseRoll + 1 else baseRoll
  }

  /** The number of iterations of `range(n)`. */
  function Iterations(n: int): nat {
    if n < 0 then 0 else n
  }

  /** The number of rolls lies in [min_rolls, max_rolls + 1], and is one above the randint draw exactly on a bonus. */
  lemma RollCountRange(minRolls: int, maxRolls: int, baseRoll: int, bonusR: real)
    requires minRolls <= baseRoll <= maxRolls
    ensures minRolls <= RollCount(baseRoll, bonusR) <= maxRolls + 1
    ensures RollCount(baseRoll, bonusR) == baseRoll + 1 <==> bonusR < BONUS_ROLL_CHANCE
    ensures RollCount(baseRoll, bonusR) == baseRoll <==> !(bonusR < BONUS_ROLL_CHANCE)
  {
  }

  /** One roll (lines 111-117): the item chosen and the amount it yields. */
  function RollItem(spec: LootSpec, d: Draw): Result<(ItemId, int), Raised>
    requires spec.Valid()
  {
    match Choose(LootTable(spec), d.itemR)
    case None => Failure(NoItemDrawn)
    case Some(item) =>
      match spec.entries[item]
      case Fixed(_, amount) => Success((item, amount))
      case Variable(drops) =>
        match Choose(AmountWeights(drops), d.amountR)
        case None => Failure(NoAmountDrawn)
        case Some(amount) => Success((item, amount))
  }

  /** The outcome of each roll, in order. */
  function Rolled(spec: LootSpec, draws: seq<Draw>): seq<Result<(ItemId, int), Raised>>
    requires spec.Valid()
  {
    seq(|draws|, i requires 0 <= i < |draws| => RollItem(spec, draws[i]))
  }

  /** Every value when all outcomes succeed; otherwise the first failure, which aborts the rest. */
  function Collect<T, E>(rs: seq<Result<T, E>>): Result<seq<T>, E> {
    if rs == [] then Success([]) else Then(Collect(rs[..|rs| - 1]), rs[|rs| - 1])
  }

  /** The outcomes so far, followed by one more. */
  function Then<T, E>(sofar: Result<seq<T>, E>, next: Result<T, E>): Result<seq<T>, E> {
    match sofar
    case Failure(e) => Failure(e)
    case Success(values) =>
      match next
      case Failure(e) => Failure(e)
      case Success(v) => Success(values + [v])
  }

  /** The rolls of an opening, in order; the first roll that fails aborts the opening. */
  function DrawItems(spec: LootSpec, draws: seq<Draw>): Result<seq<(ItemId, int)>, Raised>
    requires spec.Valid()
  {
    Collect(Rolled(spec, draws))
  }

  /** `results` after the given rolls: amounts summed per item, items in order of first draw. */
  function Tally(drawn: seq<(ItemId, int)>): (d: Dict<ItemId, int>)
    ensures d.Valid()
  {
    if drawn == [] then Empty()
    else
      var last := drawn[|drawn| - 1];
      AddTo(Tally(drawn[..|drawn| - 1]), last.0, last.1)
  }

  /** Total amount of one item over the given rolls, counted roll by roll. */
  function AmountDrawn(drawn: seq<(ItemId, int)>, item: ItemId): int {
    if drawn == [] then 0
    else
      var last := drawn[|drawn| - 1];
      AmountDrawn(drawn[..|drawn| - 1], item) + (if last.0 == item then last.1 else 0)
  }

  /** `amount * sell_price` */
  function Worth(amount: int, price: real): real {
    amount as real * price
  }

  /** The profit added by the given rolls: amount × sell price for each roll whose item is quoted. */
  function Revenue(drawn: seq<(ItemId, int)>, prices: PriceBook): real {
    if drawn == [] then 0.0
    else
      var last := drawn[|drawn| - 1];
      Revenue(drawn[..|drawn| - 1], prices)
        + Worth(last.1, SellPrice(prices, last.0))
  }

  /** Σ amount × sell price over the first n items of an item -> amount dict (price 0 when absent). */
  function ValuationUpTo(d: Dict<ItemId, int>, prices: PriceBook, n: nat): real
    requires d.Valid() && n <= |d.order|
  {
    if n == 0 then 0.0
    else
      var item := d.order[n - 1];
      ValuationUpTo(d, prices, n - 1) + Worth(d.entries[item], SellPrice(prices, item))
  }

  function Valuation(d: Dict<ItemId, int>, prices: PriceBook): real
    requires d.Valid()
  {
    ValuationUpTo(d, prices, |d.order|)
  }

  /** `simulate_rolls`, as a value: the failure it raises or the opening it returns. */
  function Open(spec: LootSpec, prices: PriceBook, minRolls: int, maxRolls: int, key: ItemId,
                baseRoll: int, bonusR: real, draws: seq<Draw>): Result<Opening, Raised>
    requires spec.Valid()
    requires Iterations(RollCount(baseRoll, bonusR)) <= |draws|
  {
    if maxRolls < minRolls then Failure(RollRangeEmpty)
    else Settle(DrawItems(spec, draws[..Iterations(RollCount(baseRoll, bonusR))]), prices, key)
  }

  /** What the rolls earn: the tally of the items and the revenue of their sale, or the failure of a roll. */
  function Gain(rolls: Result<seq<(ItemId, int)>, Raised>, prices: PriceBook): Result<Opening, Raised> {
    match rolls
    case Failure(e) => Failure(e)
    case Success(drawn) => Success(Opening(Tally(drawn), Revenue(drawn, prices)))
  }

  /** After the rolls: a failed roll propagates, else the key is priced and paid for once. */
  function Settle(rolls: Result<seq<(ItemId, int)>, Raised>, prices: PriceBook, key: ItemId): Result<Opening, Raised> {
    match Gain(rolls, prices)
    case Failure(e) => Failure(e)
    case Success(gain) =>
      if key !in prices then Failure(KeyNotPriced)
      else Success(Opening(gain.results, gain.profit - prices[key].sellPrice))
  }

  /** Lines 111-117 of one roll: choose the item, then its amount. */
  method Roll(spec: LootSpec, lootTable: Dict<ItemId, real>, d: Draw) returns (roll: Result<(ItemId, int), Raised>)
    requires spec.Valid() && lootTable == LootTable(spec)
    ensures roll == RollItem(spec, d)
  {
    var chosen := WeightedChoice(lootTable, d.itemR);
    if chosen.None? {
      return Failure(NoItemDrawn);
    }
    var item := chosen.value;
    match spec.entries[item] {
      case Fixed(_, amount) =>
        return Success((item, amount));
      case Variable(drops) =>
        var amountsWeights := AmountWeights(drops);
        var amount := WeightedChoice(amountsWeights, d.amountR);
        if amount.None? {
          return Failure(NoAmountDrawn);
        }
        return Success((item, amount.value));
    }
  }

  /** The loop of `simulate_rolls` over the draws of its rolls: `results` and `total_profit` before the key is paid for. */
  method RollAll(spec: LootSpec, lootTable: Dict<ItemId, real>, prices: PriceBook, draws: seq<Draw>)
    returns (rolled: Result<Opening, Raised>)
    requires spec.Valid() && lootTable == LootTable(spec)
    ensures rolled == Gain(DrawItems(spec, draws), prices)
  {
    var results := Empty();
    var totalProfit := 0.0;
    ghost var drawn: seq<(ItemId, int)> := [];
    ghost var rs := Rolled(spec, draws);
    assert rs[..0] == [];
    for i := 0 to |draws|
      invariant Collect(rs[..i]) == Success(drawn)
      invariant results == Tally(drawn)
      invariant totalProfit == Revenue(drawn, prices)
    {
      var roll := Roll(spec, lootTable, draws[i]);
      assert rs[i] == roll;
      if roll.Failure? {
        CollectStopsAt(rs, i, |rs|);
        assert rs[..|rs|] == rs;
        return Failure(roll.error);
      }
      var (item, amount) := roll.value;
      results := AddTo(results, item, amount);
      if item in prices {
        var sellPrice := prices[item].sellPrice;
        totalProfit := totalProfit + Worth(amount, sellPrice);
      }
      CollectSnoc(rs, i);
      RollsSnoc(drawn, (item, amount), prices);
      drawn := drawn + [(item, amount)];
    }
    assert rs[..|rs|] == rs;
    return Success(Opening(results, totalProfit));
  }

  /** `simulate_rolls(corpse_dict, bazaardict, min_rolls, max_rolls, key)` */
  method SimulateRolls(spec: LootSpec, prices: PriceBook, minRolls: int, maxRolls: int, key: ItemId,
                       baseRoll: int, bonusR: real, draws: seq<Draw>)
    returns (outcome: Result<Opening, Raised>)
    requires spec.Valid()
    requires minRolls <= maxRolls ==> minRolls <= baseRoll <= maxRolls
    requires Iterations(RollCount(baseRoll, bonusR)) <= |draws|
    ensures outcome == Open(spec, prices, minRolls, maxRolls, key, baseRoll, bonusR, draws)
  {
    var lootTable := PrepareLootTable(spec);
    if maxRolls < minRolls {
      return Failure(RollRangeEmpty);
    }
    var totalRolls := baseRoll;
    if bonusR < BONUS_ROLL_CHANCE {
      totalRolls := totalRolls + 1;
    }
    assert Iterations(totalRolls) == Iterations(RollCount(baseRoll, bonusR));
    var rolled := RollAll(spec, lootTable, prices, draws[..Iterations(totalRolls)]);
    if rolled.Failure? {
      return Failure(rolled.error);
    }
    if key !in prices {
      return Failure(KeyNotPriced);
    }
    return Success(Opening(rolled.value.results, rolled.value.profit - prices[key].sellPrice));
  }

  /** Appending one roll extends the tally and the revenue by that roll alone. */
  lemma RollsSnoc(drawn: seq<(ItemId, int)>, p: (ItemId, int), prices: PriceBook)
    ensures Tally(drawn + [p]) == AddTo(Tally(drawn), p.0, p.1)
    ensures Revenue(drawn + [p], prices)
      == Revenue(drawn, prices) + Worth(p.1, SellPrice(prices, p.0))
  {
    assert (drawn + [p])[..|drawn|] == drawn;
  }

  /** Collecting one more outcome. */
  lemma CollectSnoc<T, E>(rs: seq<Result<T, E>>, i: nat)
    requires i < |rs|
    ensures Collect(rs[..i + 1]) == Then(Collect(rs[..i]), rs[i])
  {
    assert rs[..i + 1][..i] == rs[..i];
  }

  /** Once outcome i fails after i successes, every longer run of outcomes fails with its error. */
  lemma {:induction false} CollectStopsAt<T, E>(rs: seq<Result<T, E>>, i: nat, n: nat)
    requires i < n <= |rs|
    requires Collect(rs[..i]).Success? && rs[i].Failure?
    ensures Collect(rs[..n]) == Failure(rs[i].error)
    decreases n - i
  {
    var prefix := rs[..n];
    assert prefix[..n - 1] == rs[..n - 1];
    if n - 1 > i {
      CollectStopsAt(rs, i, n - 1);
    }
  }

  /** The item a successful roll yields comes from the spec, and so does its amount: the fixed one, or one listed in its drops. */
  lemma RollAmount(spec: LootSpec, d: Draw)
    requires spec.Valid() && RollItem(spec, d).Success?
    ensures var (item, amount) := RollItem(spec, d).value;
      && item in spec.entries
      && (spec.entries[item].Fixed? ==> amount == spec.entries[item].amount)
      && (spec.entries[item].Variable? ==>
            exists i :: 0 <= i < |spec.entries[item].drops| && spec.entries[item].drops[i].amount == amount)
  {
    var (item, amount) := RollItem(spec, d).value;
    if spec.entries[item].Variable? {
      AmountWeightsKeys(spec.entries[item].drops, amount);
    }
  }

  /** The outcomes succeed together, giving their values in order, or the first failing one decides the failure. */
  lemma {:induction false} CollectAll<T, E>(rs: seq<Result<T, E>>)
    ensures Collect(rs).Success? ==> forall i | 0 <= i < |rs| :: rs[i].Success?
    ensures (forall i | 0 <= i < |rs| :: rs[i].Success?) ==> Collect(rs).Success?
    ensures Collect(rs).Success? ==> (|Collect(rs).value| == |rs|
      && forall i | 0 <= i < |rs| :: rs[i] == Success(Collect(rs).value[i]))
    ensures Collect(rs).Failure? ==>
      exists i :: FirstFailure(rs, i) && rs[i] == Failure(Collect(rs).error)
  {
    if rs != [] {
      var init := rs[..|rs| - 1];
      CollectAll(init);
      assert forall i | 0 <= i < |init| :: init[i] == rs[i];
      if Collect(init).Failure? {
        var i :| FirstFailure(init, i) && init[i] == Failure(Collect(init).error);
        assert FirstFailure(rs, i);
      } else if rs[|rs| - 1].Failure? {
        assert FirstFailure(rs, |rs| - 1);
      }
    }
  }

  /** Outcome i is the first that fails. */
  ghost predicate FirstFailure<T, E>(rs: seq<Result<T, E>>, i: int) {
    && 0 <= i < |rs|
    && rs[i].Failure?
    && forall j | 0 <= j < i :: rs[j].Success?
  }

  /** The items of the given rolls. */
  function ItemsOf(drawn: seq<(ItemId, int)>): set<ItemId> {
    if drawn == [] then {} else ItemsOf(drawn[..|drawn| - 1]) + {drawn[|drawn| - 1].0}
  }

  /** An item is among the items of the rolls exactly when some roll drew it. */
  lemma {:induction false} ItemsOfDrawn(drawn: seq<(ItemId, int)>, item: ItemId)
    ensures item in ItemsOf(drawn) <==> exists i :: 0 <= i < |drawn| && drawn[i].0 == item
  {
    if drawn != [] {
      var init := drawn[..|drawn| - 1];
      ItemsOfDrawn(init, item);
      if exists i :: 0 <= i < |init| && init[i].0 == item {
        var i :| 0 <= i < |init| && init[i].0 == item;
        assert drawn[i].0 == item;
      }
      if exists i :: 0 <= i < |drawn| && drawn[i].0 == item {
        var i :| 0 <= i < |drawn| && drawn[i].0 == item;
        if i < |init| { assert init[i].0 == item; }
      }
    }
  }

  /** The tally has exactly the items that were drawn. */
  lemma {:induction false} TallyKeys(drawn: seq<(ItemId, int)>)
    ensures Tally(drawn).entries.Keys == ItemsOf(drawn)
  {
    if drawn != [] {
      var init := drawn[..|drawn| - 1];
      var last := drawn[|drawn| - 1];
      TallyKeys(init);
      AddToKeys(Tally(init), last.0, last.1);
    }
  }

  /** Each item's tallied amount is the sum of the amounts of its rolls. */
  lemma {:induction false} TallyAmounts(drawn: seq<(ItemId, int)>, item: ItemId)
    ensures GetOr(Tally(drawn), item, 0) == AmountDrawn(drawn, item)
  {
    if drawn != [] {
      TallyAmounts(drawn[..|drawn| - 1], item);
    }
  }

  /** `(v + a) * p == v * p + a * p` */
  lemma WorthAdd(v: int, a: int, price: real)
    ensures Worth(v + a, price) == Worth(v, price) + Worth(a, price)
  {
    assert (v + a) as real * price == v as real * price + a as real * price;
  }

  /** Adding to the amount of a listed item raises the valuation by the worth of what was added. */
  lemma {:induction false} ValuationAdd(d: Dict<ItemId, int>, prices: PriceBook, k: ItemId, a: int, n: nat)
    requires d.Valid() && k in d.entries && n <= |d.order|
    ensures Dict(d.order, d.entries[k := d.entries[k] + a]).Valid()
    ensures ValuationUpTo(Dict(d.order, d.entries[k := d.entries[k] + a]), prices, n)
      == ValuationUpTo(d, prices, n) + (if k in d.order[..n] then Worth(a, SellPrice(prices, k)) else 0.0)
  {
    if n > 0 {
      ValuationAdd(d, prices, k, a, n - 1);
      assert d.order[..n] == d.order[..n - 1] + [d.order[n - 1]];
      if d.order[n - 1] == k {
        assert k !in d.order[..n - 1];
        WorthAdd(d.entries[k], a, SellPrice(prices, k));
      }
    }
  }

  /** Appending a new item leaves the valuation of the earlier items alone. */
  lemma {:induction false} ValuationAppend(d: Dict<ItemId, int>, prices: PriceBook, k: ItemId, v: int, n: nat)
    requires d.Valid() && k !in d.entries && n <= |d.order|
    ensures Set(d, k, v).order == d.order + [k]
    ensures ValuationUpTo(Set(d, k, v), prices, n) == ValuationUpTo(d, prices, n)
  {
    if n > 0 {
      ValuationAppend(d, prices, k, v, n - 1);
    }
  }

  /** Counting one more roll raises the valuation by that roll's worth. */
  lemma ValuationAddTo(t: Dict<ItemId, int>, prices: PriceBook, item: ItemId, amount: int)
    requires t.Valid()
    ensures Valuation(AddTo(t, item, amount), prices) == Valuation(t, prices) + Worth(amount, SellPrice(prices, item))
  {
    if item in t.entries {
      KeyListed(t, item);
      ValuationAdd(t, prices, item, amount, |t.order|);
      assert t.order[..|t.order|] == t.order;
    } else {
      ValuationAppend(t, prices, item, amount, |t.order|);
    }
  }

  /**
   * Valuing the tallied amounts gives the profit summed roll by roll:
   * Σ amount × sell price over the items won equals Σ over the rolls.
   */
  lemma {:induction false} TallyValuation(drawn: seq<(ItemId, int)>, prices: PriceBook)
    ensures Valuation(Tally(drawn), prices) == Revenue(drawn, prices)
  {
    if drawn != [] {
      var init := drawn[..|drawn| - 1];
      var last := drawn[|drawn| - 1];
      assert drawn == init + [last];
      RollsSnoc(init, last, prices);
      TallyValuation(init, prices);
      ValuationAddTo(Tally(init), prices, last.0, last.1);
    }
  }

  /**
   * A successful opening rolled once per draw: its results are the tally of
   * those rolls and its profit their revenue less the key's sell price.
   */
  lemma OpeningDraws(spec: LootSpec, prices: PriceBook, minRolls: int, maxRolls: int, key: ItemId,
                     baseRoll: int, bonusR: real, draws: seq<Draw>)
    requires spec.Valid() && Iterations(RollCount(baseRoll, bonusR)) <= |draws|
    requires Open(spec, prices, minRolls, maxRolls, key, baseRoll, bonusR, draws).Success?
    ensures DrawItems(spec, draws[..Iterations(RollCount(baseRoll, bonusR))]).Success?
    ensures var o := Open(spec, prices, minRolls, maxRolls, key, baseRoll, bonusR, draws).value;
      var drawn := DrawItems(spec, draws[..Iterations(RollCount(baseRoll, bonusR))]).value;
      && |drawn| == Iterations(RollCount(baseRoll, bonusR))
      && (forall i | 0 <= i < |drawn| :: RollItem(spec, draws[i]) == Success(drawn[i]))
      && o.results == Tally(drawn)
      && key in prices
      && o.profit == Revenue(drawn, prices) - prices[key].sellPrice
  {
    var n := Iterations(RollCount(baseRoll, bonusR));
    var rs := Rolled(spec, draws[..n]);
    CollectAll(rs);
    assert forall i | 0 <= i < n :: rs[i] == RollItem(spec, draws[i]);
  }

  /** An opening succeeds exactly when the roll range is non-empty, every roll draws an item and an amount, and the key is quoted. */
  lemma OpeningSucceeds(spec: LootSpec, prices: PriceBook, minRolls: int, maxRolls: int, key: ItemId,
                        baseRoll: int, bonusR: real, draws: seq<Draw>)
    requires spec.Valid() && Iterations(RollCount(baseRoll, bonusR)) <= |draws|
    ensures Open(spec, prices, minRolls, maxRolls, key, baseRoll, bonusR, draws).Success? ==>
      && minRolls <= maxRolls
      && (forall i | 0 <= i < Iterations(RollCount(baseRoll, bonusR)) :: RollItem(spec, draws[i]).Success?)
      && key in prices
    ensures
      && minRolls <= maxRolls
      && (forall i | 0 <= i < Iterations(RollCount(baseRoll, bonusR)) :: RollItem(spec, draws[i]).Success?)
      && key in prices
      ==> Open(spec, prices, minRolls, maxRolls, key, baseRoll, bonusR, draws).Success?
  {
    var n := Iterations(RollCount(baseRoll, bonusR));
    var rs := Rolled(spec, draws[..n]);
    CollectAll(rs);
    assert forall i | 0 <= i < n :: rs[i] == RollItem(spec, draws[i]);
  }

  /**
   * The first roll that fails decides why an opening with a non-empty roll
   * range fails; the key's price is looked up only after all rolls succeed.
   */
  lemma OpeningFailure(spec: LootSpec, prices: PriceBook, minRolls: int, maxRolls: int, key: ItemId,
                       baseRoll: int, bonusR: real, draws: seq<Draw>, i: nat)
    requires spec.Valid() && Iterations(RollCount(baseRoll, bonusR)) <= |draws|
    requires minRolls <= maxRolls && i < Iterations(RollCount(baseRoll, bonusR))
    requires RollItem(spec, draws[i]).Failure?
    requires forall j | 0 <= j < i :: RollItem(spec, draws[j]).Success?
    ensures Open(spec, prices, minRolls, maxRolls, key, baseRoll, bonusR, draws) == Failure(RollItem(spec, draws[i]).error)
  {
    var n := Iterations(RollCount(baseRoll, bonusR));
    var rs := Rolled(spec, draws[..n]);
    CollectAll(rs[..i]);
    assert forall j | 0 <= j < i :: rs[..i][j] == RollItem(spec, draws[j]);
    CollectStopsAt(rs, i, n);
    assert rs[..n] == rs;
  }

  /** The key is paid for once per opening, however many rolls it had: profit = value of the items won − key price. */
  lemma OpeningProfit(spec: LootSpec, prices: PriceBook, minRolls: int, maxRolls: int, key: ItemId,
                      baseRoll: int, bonusR: real, draws: seq<Draw>)
    requires spec.Valid() && Iterations(RollCount(baseRoll, bonusR)) <= |draws|
    requires Open(spec, prices, minRolls, maxRolls, key, baseRoll, bonusR, draws).Success?
    ensures var o := Open(spec, prices, minRolls, maxRolls, key, baseRoll, bonusR, draws).value;
      key in prices && o.results.Valid() && o.profit == Valuation(o.results, prices) - prices[key].sellPrice
  {
    var drawn := DrawItems(spec, draws[..Iterations(RollCount(baseRoll, bonusR))]).value;
    TallyValuation(drawn, prices);
  }
}

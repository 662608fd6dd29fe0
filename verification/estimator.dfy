/** The daily-revenue estimate for mining one coin with a given power draw. */
module Estimator {
  import opened Wrappers
  import opened Config

  /** The price oracle. Prices are fetched over the network in the real
      system; here they are a fixed input for the duration of one cycle. */
  type PriceFeed = Coin -> Option<real>

  /** A price counts as present only when it is neither missing nor zero:
      the estimate tests it for truthiness, and 0 is falsy. */
  predicate Available(price: Option<real>)
  {
    price.Some? && price.value != 0.0
  }

  /** No coin is quoted at a negative price. */
  predicate NonNegativePrices(prices: PriceFeed)
  {
    forall c: Coin :: prices(c).Some? ==> prices(c).value >= 0.0
  }

  /** The same feed with one coin's quote missing. */
  function WithoutPrice(prices: PriceFeed, missing: Coin): PriceFeed
  {
    c => if c == missing then None else prices(c)
  }

  /** Expected blocks found per day: the hashrate that `powerWatts` buys,
      divided by the network difficulty, times the seconds in a day. */
  function BlocksPerDay(c: Coin, powerWatts: real): real
  {
    (powerWatts * HashrateCoefficient(c) / Difficulty(c)) * SecondsPerDay
  }

  /** The merged-mining credit: LTC mining also earns 80% of the DOGE block
      reward per LTC block found, when a DOGE price is available. */
  function MergedBonus(prices: PriceFeed, c: Coin, blocks: real): real
  {
    if c == LTC && Available(prices(DOGE)) then
      blocks * MergedReward * prices(DOGE).value * MergedRewardFraction
    else
      0.0
  }

  /** Estimated revenue in dollars per day for mining `c` with `powerWatts`.
      The pool's efficiency multiplier scales the coin's own revenue only;
      the merged-mining credit is added afterwards. */
  function Profitability(prices: PriceFeed, c: Coin, powerWatts: real): (r: real)
    ensures !Available(prices(c)) ==> r == 0.0
    ensures powerWatts >= 0.0 && NonNegativePrices(prices) ==> r >= 0.0
  {
    if !Available(prices(c)) then 0.0
    else
      var blocks := BlocksPerDay(c, powerWatts);
      var revenue := blocks * BlockReward(c) * prices(c).value;
      var scaled := revenue * PoolOf(c).powerEfficiency;
      scaled + MergedBonus(prices, c, blocks)
  }

  /** The blocks-per-day estimate is proportional to power. */
  lemma BlocksScale(c: Coin, powerWatts: real)
    ensures BlocksPerDay(c, powerWatts) == powerWatts * BlocksPerDay(c, 1.0)
  {
  }

  /** The estimate is a fixed per-watt rate times the power: every term is
      proportional to the blocks found, which is proportional to power. */
  lemma ProfitPerWatt(prices: PriceFeed, c: Coin, powerWatts: real)
    ensures Profitability(prices, c, powerWatts) == powerWatts * Profitability(prices, c, 1.0)
  {
  }

  /** Running on two power budgets earns the sum of what each earns alone. */
  lemma ProfitAdditive(prices: PriceFeed, c: Coin, w1: real, w2: real)
    ensures Profitability(prices, c, w1 + w2) == Profitability(prices, c, w1) + Profitability(prices, c, w2)
  {
    ProfitPerWatt(prices, c, w1);
    ProfitPerWatt(prices, c, w2);
    ProfitPerWatt(prices, c, w1 + w2);
  }

  /** With non-negative prices, more power never lowers the estimate. */
  lemma ProfitMonotone(prices: PriceFeed, c: Coin, w1: real, w2: real)
    requires NonNegativePrices(prices)
    requires w1 <= w2
    ensures Profitability(prices, c, w1) <= Profitability(prices, c, w2)
  {
    ProfitPerWatt(prices, c, w1);
    ProfitPerWatt(prices, c, w2);
    ScaleMonotone(Profitability(prices, c, w1), Profitability(prices, c, w2),
                  w1, w2, Profitability(prices, c, 1.0));
  }

  /** Two amounts at the same non-negative rate are ordered like their bases. */
  lemma ScaleMonotone(p1: real, p2: real, w1: real, w2: real, rate: real)
    requires p1 == w1 * rate && p2 == w2 * rate
    requires w1 <= w2 && rate >= 0.0
    ensures p1 <= p2
  {
  }

  /** The estimate for a coin reads only that coin's price, plus DOGE's
      price when the coin is LTC. */
  lemma ProfitReadsOwnPrice(p1: PriceFeed, p2: PriceFeed, c: Coin, powerWatts: real)
    requires p1(c) == p2(c)
    requires c == LTC ==> p1(DOGE) == p2(DOGE)
    ensures Profitability(p1, c, powerWatts) == Profitability(p2, c, powerWatts)
  {
  }

  /** Losing the DOGE quote lowers the LTC estimate by exactly the merged
      credit, and that credit is not multiplied by LTC's 1.2 efficiency. */
  lemma MergedBonusUnscaled(prices: PriceFeed, powerWatts: real)
    requires Available(prices(LTC))
    requires Available(prices(DOGE))
    ensures Profitability(prices, LTC, powerWatts)
         == Profitability(WithoutPrice(prices, DOGE), LTC, powerWatts)
            + BlocksPerDay(LTC, powerWatts) * 10000.0 * prices(DOGE).value * 0.8
  {
  }
}

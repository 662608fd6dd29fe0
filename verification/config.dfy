/** The fixed configuration of the optimizer: the coins it can mine, their
    pools, and the constant tables the profitability estimate reads. */
module Config {

  /** The configured coins. Every table in the optimizer is keyed by these
      three, so the `.get(coin, default)` fallbacks can never be taken. */
  datatype Coin = BTC | LTC | DOGE

  /** The fixed order in which the optimizer scans coins; ties for the best
      profit go to the coin that comes first here. */
  const Order: seq<Coin> := [BTC, LTC, DOGE]

  /** Position of a coin in `Order`. */
  function Rank(c: Coin): (k: nat)
    ensures k < |Order| && Order[k] == c
  {
    match c
    case BTC => 0
    case LTC => 1
    case DOGE => 2
  }

  /** Relative revenue loss a switch is assumed to cost: 5%. */
  const SwitchingPenalty: real := 0.05

  /** Seconds per day, used to turn a per-second block rate into a daily one. */
  const SecondsPerDay: real := 86400.0

  /** DOGE block reward and the share of it credited to LTC merged mining. */
  const MergedReward: real := 10000.0
  const MergedRewardFraction: real := 0.8

  /** One entry of the pool table. `mergedCoins` lists the coins a pool
      rewards alongside its own. */
  datatype Pool = Pool(url: string, algorithm: string, powerEfficiency: real, mergedCoins: seq<Coin>)

  function PoolOf(c: Coin): (p: Pool)
    ensures p.powerEfficiency >= 1.0
    ensures p.mergedCoins != [] <==> c == LTC
    ensures p.mergedCoins != [] ==> p.mergedCoins == [DOGE]
  {
    match c
    case BTC => Pool("stratum+tcp://btc.pool.com:3333", "SHA-256", 1.0, [])
    case LTC => Pool("stratum+tcp://ltc.pool.com:3333", "Scrypt", 1.2, [DOGE])
    case DOGE => Pool("stratum+tcp://doge.pool.com:3333", "Scrypt", 1.15, [])
  }

  /** Placeholder network difficulties. */
  function Difficulty(c: Coin): (d: real)
    ensures d > 0.0
  {
    match c
    case BTC => 62460000000000.0
    case LTC => 25800000.0
    case DOGE => 10200000.0
  }

  /** Assumed hashes per second delivered per watt of power. */
  function HashrateCoefficient(c: Coin): (k: real)
    ensures k > 0.0
  {
    match c
    case BTC => 100000000000.0
    case LTC => 2500000.0
    case DOGE => 2500000.0
  }

  /** Coins paid per block found. */
  function BlockReward(c: Coin): (b: real)
    ensures b > 0.0
  {
    match c
    case BTC => 6.25
    case LTC => 12.5
    case DOGE => 10000.0
  }
}

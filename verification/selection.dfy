/** Picking the most profitable coin. */
module Selection {
  import opened Config

  /** The estimate for every configured coin in one cycle. */
  datatype Profits = Profits(btc: real, ltc: real, doge: real) {
    function Get(c: Coin): real
    {
      match c
      case BTC => btc
      case LTC => ltc
      case DOGE => doge
    }
  }

  /** Index of the first element of `xs` with the highest score. The scan
      goes left to right and moves to a later element only when its score is
      strictly larger, so the earliest of several tied maxima wins. */
  function MaxBy<T>(xs: seq<T>, score: T -> real): (k: nat)
    requires |xs| > 0
    ensures k < |xs|
    ensures forall j :: 0 <= j < |xs| ==> score(xs[j]) <= score(xs[k])
    ensures forall j :: 0 <= j < k ==> score(xs[j]) < score(xs[k])
    decreases |xs|
  {
    if |xs| == 1 then 0
    else
      var k := MaxBy(xs[..|xs| - 1], score);
      if score(xs[|xs| - 1]) > score(xs[k]) then |xs| - 1 else k
  }

  /** Being a maximum that beats every earlier element determines the index
      uniquely, so `MaxBy` is the only such index. */
  lemma FirstMaxUnique<T>(xs: seq<T>, score: T -> real, k: nat)
    requires k < |xs|
    requires forall j :: 0 <= j < |xs| ==> score(xs[j]) <= score(xs[k])
    requires forall j :: 0 <= j < k ==> score(xs[j]) < score(xs[k])
    ensures k == MaxBy(xs, score)
  {
  }

  /** The coin with the highest estimate; ties go to the coin that comes
      first in BTC, LTC, DOGE order. */
  function BestCoin(profits: Profits): (best: Coin)
    ensures forall c: Coin :: profits.Get(c) <= profits.Get(best)
    ensures forall c: Coin :: Rank(c) < Rank(best) ==> profits.Get(c) < profits.Get(best)
  {
    var score := (c: Coin) => profits.Get(c);
    var k := MaxBy(Order, score);
    assert forall c: Coin :: Order[Rank(c)] == c;
    Order[k]
  }

  /** The best coin differs from `current` exactly when some coin earns
      more than `current`, or earns the same and comes earlier in the order. */
  lemma BestDiffersIff(profits: Profits, current: Coin)
    ensures BestCoin(profits) != current <==>
      exists c: Coin :: profits.Get(c) > profits.Get(current)
                     || (Rank(c) < Rank(current) && profits.Get(c) == profits.Get(current))
  {
  }
}

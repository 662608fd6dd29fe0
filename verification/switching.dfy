/** The hysteresis rule that decides whether to leave the current coin. */
module Switching {
  import opened Wrappers
  import opened Config
  import opened Selection

  /** A recommendation: move to `to`, or stay on `current` (carrying every
      coin's estimate for display). */
  datatype SwitchDecision =
    | Switch(to: Coin, currentProfit: real, newProfit: real, gainPercent: real)
    | Stay(current: Coin, profits: Profits)

  /** Recommends a switch to the best coin only when it differs from
      `current` and beats `currentProfit` by more than the switching penalty,
      measured relative to `currentProfit`. That relative gain divides by
      `currentProfit`, so a zero current profit with a different best coin
      is the division-by-zero fault. */
  function ShouldSwitch(current: Coin, currentProfit: real, profits: Profits): (r: Result<SwitchDecision>)
    ensures r.Err? <==> BestCoin(profits) != current && currentProfit == 0.0
    ensures r.Ok? && r.value.Stay? ==> r.value == Stay(current, profits)
    ensures r.Ok? && r.value.Switch? ==>
      && r.value.to != current
      && r.value.to == BestCoin(profits)
      && r.value.currentProfit == currentProfit
      && r.value.newProfit == profits.Get(r.value.to)
      && r.value.gainPercent > SwitchingPenalty * 100.0
      && r.value.gainPercent * currentProfit == (r.value.newProfit - currentProfit) * 100.0
    ensures BestCoin(profits) == current ==> r == Ok(Stay(current, profits))
    ensures r.Ok? ==>
      (r.value.Switch? <==>
         BestCoin(profits) != current
         && (profits.Get(BestCoin(profits)) - currentProfit) / currentProfit > SwitchingPenalty)
  {
    var best := BestCoin(profits);
    var bestProfit := profits.Get(best);
    if best != current then
      if currentProfit == 0.0 then Err(ZeroDivision)
      else
        var increase := (bestProfit - currentProfit) / currentProfit;
        if increase > SwitchingPenalty then
          Ok(Switch(best, currentProfit, bestProfit, increase * 100.0))
        else
          Ok(Stay(current, profits))
    else
      Ok(Stay(current, profits))
  }

  /** When the current profit is the current coin's own positive estimate,
      the rule switches exactly when some other coin earns more than 105% of
      it. */
  lemma SwitchIffBeatsMargin(current: Coin, currentProfit: real, profits: Profits)
    requires profits.Get(current) == currentProfit
    requires currentProfit > 0.0
    ensures ShouldSwitch(current, currentProfit, profits).Ok?
    ensures ShouldSwitch(current, currentProfit, profits).value.Switch? <==>
      exists c: Coin :: c != current && profits.Get(c) > (1.0 + SwitchingPenalty) * currentProfit
  {
    var best := BestCoin(profits);
    var b := profits.Get(best);
    var r := ShouldSwitch(current, currentProfit, profits);
    if best != current {
      RelativeGainIff(b, currentProfit);
    } else {
      forall c: Coin | c != current
        ensures profits.Get(c) <= (1.0 + SwitchingPenalty) * currentProfit
      {
        assert profits.Get(c) <= b;
      }
    }
  }

  /** For a positive base, a relative gain above the penalty is the same as
      exceeding 105% of the base. */
  lemma RelativeGainIff(best: real, current: real)
    requires current > 0.0
    ensures (best - current) / current > SwitchingPenalty <==> best > (1.0 + SwitchingPenalty) * current
  {
    var q := (best - current) / current;
    assert q * current == best - current;
  }

  /** The penalty comparison is strict: against a current coin earning 100,
      a best coin earning 104 or exactly 105 keeps the current coin, and one
      earning 106 triggers a switch reporting a 6% gain. */
  lemma PenaltyIsStrict()
    ensures ShouldSwitch(LTC, 100.0, Profits(104.0, 100.0, 90.0)) == Ok(Stay(LTC, Profits(104.0, 100.0, 90.0)))
    ensures ShouldSwitch(LTC, 100.0, Profits(105.0, 100.0, 90.0)) == Ok(Stay(LTC, Profits(105.0, 100.0, 90.0)))
    ensures ShouldSwitch(LTC, 100.0, Profits(106.0, 100.0, 90.0)) == Ok(Switch(BTC, 100.0, 106.0, 6.0))
  {
  }

  /** A coin tied with an earlier coin in the order is never left for it:
      the relative gain is zero. */
  lemma TieKeepsCurrent(current: Coin, profits: Profits)
    requires Rank(BestCoin(profits)) < Rank(current)
    requires profits.Get(current) == profits.Get(BestCoin(profits))
    requires profits.Get(current) != 0.0
    ensures ShouldSwitch(current, profits.Get(current), profits) == Ok(Stay(current, profits))
  {
  }

  /** With every price missing all estimates are zero; on any coin but the
      first in the order, the zero-profit tie then raises the division fault. */
  lemma AllZeroFaultsOffFirstCoin(current: Coin)
    requires current != BTC
    ensures ShouldSwitch(current, 0.0, Profits(0.0, 0.0, 0.0)) == Err(ZeroDivision)
  {
  }
}

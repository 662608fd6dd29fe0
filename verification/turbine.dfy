/** The turbine speed adviser: compares the current RPM with the optimal RPM
    derived from the turbine's geometry and head of water. */
module Turbine {

  datatype Action = Increase | Decrease | Optimal

  /** Advice for one cycle: what to do, the RPM to aim for and the expected
      fractional gain in power. */
  datatype Adjustment = Adjustment(action: Action, targetRpm: real, expectedGain: real)

  /** Deviations of at most this many RPM from the optimum are left alone. */
  const Deadband: real := 50.0

  /** Fraction of power assumed recoverable by a full-scale correction. */
  const GainScale: real := 0.15

  function Abs(x: real): real
  {
    if x < 0.0 then -x else x
  }

  /** Advice for a turbine spinning at `currentRpm` when `optimalRpm` is the
      speed at the optimal tip-speed ratio. Flow rate and power output are
      accepted but not consulted. */
  function AdviseRpm(optimalRpm: real, currentRpm: real, flowRate: real, powerOutput: real): (a: Adjustment)
    requires optimalRpm > 0.0
    ensures a.action == Increase <==> currentRpm < optimalRpm - Deadband
    ensures a.action == Decrease <==> currentRpm > optimalRpm + Deadband
    ensures a.action == Optimal <==> optimalRpm - Deadband <= currentRpm <= optimalRpm + Deadband
    ensures a.action != Optimal ==>
      && a.targetRpm == optimalRpm
      && a.expectedGain > 0.0
      && a.expectedGain * optimalRpm == Abs(optimalRpm - currentRpm) * GainScale
    ensures a.action == Optimal ==> a.targetRpm == currentRpm && a.expectedGain == 0.0
  {
    var diff := optimalRpm - currentRpm;
    if Abs(diff) > Deadband then
      var action := if diff > 0.0 then Increase else Decrease;
      Adjustment(action, optimalRpm, Abs(diff) / optimalRpm * GainScale)
    else
      Adjustment(Optimal, currentRpm, 0.0)
  }

  /** Following the advice is stable: asking again at the recommended
      target yields `Optimal` with that same target. */
  lemma AdviceIdempotent(optimalRpm: real, currentRpm: real, flowRate: real, powerOutput: real)
    requires optimalRpm > 0.0
    ensures var a := AdviseRpm(optimalRpm, currentRpm, flowRate, powerOutput);
      AdviseRpm(optimalRpm, a.targetRpm, flowRate, powerOutput) == Adjustment(Optimal, a.targetRpm, 0.0)
  {
  }

  /** The advice moves the speed toward the optimum and never past it. */
  lemma AdviceMovesTowardOptimum(optimalRpm: real, currentRpm: real, flowRate: real, powerOutput: real)
    requires optimalRpm > 0.0
    ensures var a := AdviseRpm(optimalRpm, currentRpm, flowRate, powerOutput);
      Abs(optimalRpm - a.targetRpm) <= Abs(optimalRpm - currentRpm)
  {
  }

  /** Flow rate and power output do not influence the advice. */
  lemma AdviceIgnoresFlowAndPower(optimalRpm: real, currentRpm: real, f1: real, p1: real, f2: real, p2: real)
    requires optimalRpm > 0.0
    ensures AdviseRpm(optimalRpm, currentRpm, f1, p1) == AdviseRpm(optimalRpm, currentRpm, f2, p2)
  {
  }

  /** The expected gain stays within 15% when speeding up from a
      non-negative RPM, but is not capped when slowing down: from above twice
      the optimum it exceeds 15%. */
  lemma GainBound(optimalRpm: real, currentRpm: real, flowRate: real, powerOutput: real)
    requires optimalRpm > 0.0
    ensures var a := AdviseRpm(optimalRpm, currentRpm, flowRate, powerOutput);
      && (a.action == Increase && currentRpm >= 0.0 ==> a.expectedGain <= GainScale)
      && (a.action == Decrease && currentRpm > 2.0 * optimalRpm ==> a.expectedGain > GainScale)
  {
    var a := AdviseRpm(optimalRpm, currentRpm, flowRate, powerOutput);
    var d := Abs(optimalRpm - currentRpm);
    if a.action == Increase && currentRpm >= 0.0 {
      QuotientAtMostOne(d, optimalRpm);
    }
    if a.action == Decrease && currentRpm > 2.0 * optimalRpm {
      QuotientAboveOne(d, optimalRpm);
    }
  }

  /** Helpers for `GainBound`: scaling a quotient by the gain factor. */
  lemma QuotientAtMostOne(x: real, y: real)
    requires y > 0.0 && x <= y
    ensures x / y * GainScale <= GainScale
  {
  }

  lemma QuotientAboveOne(x: real, y: real)
    requires y > 0.0 && x > y
    ensures x / y * GainScale > GainScale
  {
  }
}

/** One optimization cycle of the hydro-powered miner: update the observed
    power, advise on turbine speed, choose or re-check the mined coin, raise
    threshold alerts and append a history record. */
module Optimizer {
  import opened Wrappers
  import opened Config
  import opened Estimator
  import opened Selection
  import opened Switching
  import opened Turbine

  /** One sensor reading. */
  datatype Sensor = Sensor(flowRate: real, turbineRpm: real, powerOutput: real, efficiency: real)

  /** One history entry, minus its wall-clock timestamp. */
  datatype Record = Record(coin: Coin, power: real, efficiency: real, profit: real)

  /** The optimizer's state: the coin being mined (none before the first
      cycle), the last observed power and the append-only history. */
  datatype State = State(coin: Option<Coin>, power: real, history: seq<Record>)

  /** The state at start-up. */
  const Initial: State := State(None, 0.0, [])

  datatype Alert = LowEfficiency | ExcellentEfficiency | LowFlow

  const LowEfficiencyBelow: real := 70.0
  const ExcellentEfficiencyAbove: real := 85.0
  const LowFlowBelow: real := 10.0

  /** What a completed cycle reports: the turbine advice, the coin switched
      to (if the miner was reconfigured) and the alerts raised. */
  datatype Report = Report(adjustment: Adjustment, switchedTo: Option<Coin>, alerts: seq<Alert>)

  /** A cycle either completes, or stops at the division-by-zero fault after
      having recorded the new power reading. */
  datatype CycleOutcome =
    | Completed(state: State, report: Report)
    | Failed(state: State, fault: Fault)

  /** Every coin's estimate at the given power. */
  function AllProfits(prices: PriceFeed, powerWatts: real): (p: Profits)
    ensures forall c: Coin :: p.Get(c) == Profitability(prices, c, powerWatts)
  {
    Profits(Profitability(prices, BTC, powerWatts),
            Profitability(prices, LTC, powerWatts),
            Profitability(prices, DOGE, powerWatts))
  }

  /** The alerts for one reading: a low-efficiency alert or an excellent
      notice (never both), then a low-flow alert. */
  function Alerts(sensor: Sensor): (alerts: seq<Alert>)
    ensures multiset(alerts)[LowEfficiency] == (if sensor.efficiency < LowEfficiencyBelow then 1 else 0)
    ensures multiset(alerts)[ExcellentEfficiency] == (if sensor.efficiency > ExcellentEfficiencyAbove then 1 else 0)
    ensures multiset(alerts)[LowFlow] == (if sensor.flowRate < LowFlowBelow then 1 else 0)
    ensures !(LowEfficiency in alerts && ExcellentEfficiency in alerts)
  {
    var efficiency :=
      if sensor.efficiency < LowEfficiencyBelow then [LowEfficiency]
      else if sensor.efficiency > ExcellentEfficiencyAbove then [ExcellentEfficiency]
      else [];
    var flow := if sensor.flowRate < LowFlowBelow then [LowFlow] else [];
    efficiency + flow
  }

  /** Reconfiguring the miner: only the current coin changes. */
  function SwitchTo(s: State, c: Coin): (t: State)
    ensures t.coin == Some(c) && t.power == s.power && t.history == s.history
  {
    s.(coin := Some(c))
  }

  /** The tail of a cycle once the coin is settled: alerts and the history
      record carrying the settled coin's estimate. */
  function Finish(s: State, sensor: Sensor, prices: PriceFeed, advice: Adjustment, switchedTo: Option<Coin>): (o: CycleOutcome)
    requires s.coin.Some?
    ensures o.Completed?
    ensures o.state.coin == s.coin && o.state.power == s.power
    ensures o.state.history == s.history + [Record(s.coin.value, sensor.powerOutput, sensor.efficiency,
                                                   Profitability(prices, s.coin.value, sensor.powerOutput))]
    ensures o.report == Report(advice, switchedTo, Alerts(sensor))
  {
    var c := s.coin.value;
    var record := Record(c, sensor.powerOutput, sensor.efficiency, Profitability(prices, c, sensor.powerOutput));
    Completed(s.(history := s.history + [record]), Report(advice, switchedTo, Alerts(sensor)))
  }

  /** One cycle. The first cycle mines the best coin unconditionally; later
      cycles move only on the hysteresis rule's recommendation. */
  function Cycle(s: State, sensor: Sensor, prices: PriceFeed, optimalRpm: real): (o: CycleOutcome)
    requires optimalRpm > 0.0
    ensures o.state.power == sensor.powerOutput
    ensures o.state.coin.Some?
    ensures s.coin == None ==> o.Completed? && o.state.coin == Some(BestCoin(AllProfits(prices, sensor.powerOutput)))
    ensures o.Failed? ==> o.state.coin == s.coin && o.state.history == s.history
    ensures o.Completed? ==>
      && |o.state.history| == |s.history| + 1
      && o.state.history[..|s.history|] == s.history
      && o.state.history[|s.history|]
           == Record(o.state.coin.value, sensor.powerOutput, sensor.efficiency,
                     Profitability(prices, o.state.coin.value, sensor.powerOutput))
      && o.report.alerts == Alerts(sensor)
      && o.report.adjustment == AdviseRpm(optimalRpm, sensor.turbineRpm, sensor.flowRate, sensor.powerOutput)
      && (o.report.switchedTo.Some? <==> o.state.coin != s.coin)
      && (o.report.switchedTo.Some? ==> o.state.coin == o.report.switchedTo)
  {
    var observed := s.(power := sensor.powerOutput);
    var advice := AdviseRpm(optimalRpm, sensor.turbineRpm, sensor.flowRate, sensor.powerOutput);
    var profits := AllProfits(prices, sensor.powerOutput);
    match s.coin
    case None =>
      var best := BestCoin(profits);
      Finish(SwitchTo(observed, best), sensor, prices, advice, Some(best))
    case Some(current) =>
      var currentProfit := Profitability(prices, current, sensor.powerOutput);
      match ShouldSwitch(current, currentProfit, profits)
      case Err(fault) => Failed(observed, fault)
      case Ok(Switch(to, _, _, _)) => Finish(SwitchTo(observed, to), sensor, prices, advice, Some(to))
      case Ok(Stay(_, _)) => Finish(observed, sensor, prices, advice, None)
  }

  /** Once a coin is mined, a cycle keeps it unless the hysteresis rule
      recommends a switch, and then it mines exactly the recommended coin. */
  lemma CycleFollowsPolicy(s: State, sensor: Sensor, prices: PriceFeed, optimalRpm: real)
    requires optimalRpm > 0.0
    requires s.coin.Some?
    ensures var d := ShouldSwitch(s.coin.value, Profitability(prices, s.coin.value, sensor.powerOutput),
                                  AllProfits(prices, sensor.powerOutput));
            var o := Cycle(s, sensor, prices, optimalRpm);
            && (d.Err? <==> o.Failed?)
            && (d.Ok? && d.value.Switch? ==> o.state.coin == Some(d.value.to) && o.state.coin != s.coin)
            && (d.Ok? && d.value.Stay? ==> o.state.coin == s.coin)
  {
  }

  /** A cycle on a mined coin fails exactly when a different coin is best
      and the mined coin's estimate is zero. */
  lemma CycleFailsIff(s: State, sensor: Sensor, prices: PriceFeed, optimalRpm: real)
    requires optimalRpm > 0.0
    ensures Cycle(s, sensor, prices, optimalRpm).Failed? <==>
      && s.coin.Some?
      && Profitability(prices, s.coin.value, sensor.powerOutput) == 0.0
      && BestCoin(AllProfits(prices, sensor.powerOutput)) != s.coin.value
  {
  }

  /** A missing BTC quote while mining LTC at a non-zero estimate only zeroes
      BTC's estimate for that cycle; the cycle still completes. */
  lemma BtcOutageWhileOnLtc(s: State, sensor: Sensor, prices: PriceFeed, optimalRpm: real)
    requires optimalRpm > 0.0
    requires s.coin == Some(LTC)
    requires prices(BTC) == None
    requires Profitability(prices, LTC, sensor.powerOutput) != 0.0
    ensures AllProfits(prices, sensor.powerOutput).Get(BTC) == 0.0
    ensures Cycle(s, sensor, prices, optimalRpm).Completed?
  {
    CycleFailsIff(s, sensor, prices, optimalRpm);
  }

  /** One cycle's input: the sensor reading and the prices seen during it. */
  datatype Input = Input(sensor: Sensor, prices: PriceFeed)

  /** `later` is `earlier` with records appended. */
  predicate Extends(earlier: seq<Record>, later: seq<Record>)
  {
    |earlier| <= |later| && later[..|earlier|] == earlier
  }

  /** Appending twice is appending once. */
  lemma ExtendsTransitive(a: seq<Record>, b: seq<Record>, c: seq<Record>)
    requires Extends(a, b) && Extends(b, c)
    ensures Extends(a, c)
  {
  }

  /** The state a cycle leaves behind, whether it completed or failed. */
  function Step(s: State, input: Input, optimalRpm: real): (t: State)
    requires optimalRpm > 0.0
    ensures t.coin.Some?
    ensures t.power == input.sensor.powerOutput
    ensures Extends(s.history, t.history) && |t.history| <= |s.history| + 1
  {
    Cycle(s, input.sensor, input.prices, optimalRpm).state
  }

  /** Successive cycles. A failed cycle is reported and the next one starts
      from the state it left behind. */
  function Run(s: State, inputs: seq<Input>, optimalRpm: real): (t: State)
    requires optimalRpm > 0.0
    ensures |inputs| > 0 ==> t.coin.Some?
    ensures s.coin.Some? ==> t.coin.Some?
    ensures |inputs| > 0 ==> t.power == inputs[|inputs| - 1].sensor.powerOutput
    ensures Extends(s.history, t.history) && |t.history| <= |s.history| + |inputs|
    decreases |inputs|
  {
    if |inputs| == 0 then s
    else
      var before := Run(s, inputs[..|inputs| - 1], optimalRpm);
      var t := Step(before, inputs[|inputs| - 1], optimalRpm);
      ExtendsTransitive(s.history, before.history, t.history);
      t
  }

  /** Every cycle of a run where no estimate is ever zero completes, so the
      history gains exactly one record per cycle. */
  lemma {:induction false} RunWithoutZeroEstimates(s: State, inputs: seq<Input>, optimalRpm: real)
    requires optimalRpm > 0.0
    requires forall i, c: Coin :: 0 <= i < |inputs| ==>
      Profitability(inputs[i].prices, c, inputs[i].sensor.powerOutput) != 0.0
    ensures |Run(s, inputs, optimalRpm).history| == |s.history| + |inputs|
    decreases |inputs|
  {
    if |inputs| > 0 {
      var init := inputs[..|inputs| - 1];
      var last := inputs[|inputs| - 1];
      RunWithoutZeroEstimates(s, init, optimalRpm);
      var before := Run(s, init, optimalRpm);
      CycleFailsIff(before, last.sensor, last.prices, optimalRpm);
      assert Cycle(before, last.sensor, last.prices, optimalRpm).Completed?;
    }
  }

  /** From start-up, with 1000 W and prices BTC $60000, LTC $0.10 and
      DOGE $0.08, the first cycle starts mining BTC. */
  lemma FirstCycleScenario(optimalRpm: real)
    requires optimalRpm > 0.0
    ensures var prices := (c: Coin) => match c case BTC => Some(60000.0) case LTC => Some(0.10) case DOGE => Some(0.08);
            var o := Cycle(Initial, Sensor(20.0, 300.0, 1000.0, 80.0), prices, optimalRpm);
            && o.Completed?
            && o.state.coin == Some(BTC)
            && o.report.switchedTo == Some(BTC)
            && o.report.alerts == []
            && |o.state.history| == 1
  {
    var prices := (c: Coin) => match c case BTC => Some(60000.0) case LTC => Some(0.10) case DOGE => Some(0.08);
    var p := AllProfits(prices, 1000.0);
    assert p.Get(BTC) > p.Get(DOGE) > p.Get(LTC);
  }
}

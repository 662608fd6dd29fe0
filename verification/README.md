# HydroCharge optimizer decision engine in Dafny

This project models the decision engine of the HydroCharge miner optimizer (`HydroChargeOptimizer` in `backend/ai_optimizer.py`). The engine has four parts:

- **Profitability estimate.** It estimates dollars per day for mining BTC, LTC or DOGE with a given power draw. When the coin's price is missing or zero, the estimate is 0. The pool's efficiency multiplier scales the coin's own revenue. LTC also gets a DOGE merged-mining credit, which is added after that multiplier.
- **Coin-switch rule.** It finds the best coin, taking the first maximum in the order BTC, LTC, DOGE. It recommends leaving the current coin only when the best coin beats it by strictly more than the 5% switching penalty, measured relative to the current profit.
- **Turbine adviser.** It compares the turbine RPM with the optimal RPM, using a 50 RPM deadband.
- **Optimization cycle.** One cycle records the observed power, asks for turbine advice, and picks a coin. On the first cycle it picks unconditionally; on later cycles it re-checks the coin with the switch rule. It then raises efficiency and flow alerts and appends one history record.

All arithmetic is over Dafny's exact `real`. The price feed is an oracle `Coin -> Option<real>` that stays fixed during one cycle. The optimal RPM is a positive parameter: the source derives it with `sqrt` and `pi` from a 3 m head, a 0.2 m diameter and a tip-speed ratio of 0.47.

Modules, leaf first:

- `wrappers.dfy` (`Wrappers`): `Option`, `Result` and the one fault, `ZeroDivision`.
- `config.dfy` (`Config`): the coins, their scan order, the pool table and the constant tables.
- `estimator.dfy` (`Estimator`): the profitability estimate and its algebraic properties.
- `selection.dfy` (`Selection`): the first-maximum selection behind `max(profits, key=profits.get)`.
- `switching.dfy` (`Switching`): the hysteresis rule.
- `turbine.dfy` (`Turbine`): the RPM adviser.
- `optimizer.dfy` (`Optimizer`): the cycle as a function from one state to the next, and a run of cycles.

Where the source's behaviour differs from what its own comments and configuration suggest, the model follows the source:

- **Zero current profit.** The source computes `(best - current) / current` even when the current coin's estimate is 0. That raises `ZeroDivisionError`; it happens, for example, when every price fetch fails while mining LTC or DOGE. The model returns `Err(ZeroDivision)`. The cycle then ends as `Failed`: the power reading has already been stored, and no history record is added.
- **Expected gain is not capped.** The comment on line 140 calls 0.15 a "~15% max gain", but the turbine's expected gain is `abs(diff) / optimal * 0.15` with no cap. It exceeds 0.15 when slowing down from above twice the optimum (`Turbine.GainBound`).
- **Merged mining is hard-coded.** The bonus is written for LTC/DOGE directly. The pool table's `merged_coins` entry (line 31) is never read. `Config.PoolOf` shows that the table agrees with the hard-coded case.
- **Power is not validated.** Power is not checked for sign. The estimate accepts any real, and is non-negative when power and prices are.

## Model

| member | source | states |
|---|---|---|
| Config.Rank | backend/ai_optimizer.py:152 | each coin sits at one position of the fixed scan order BTC, LTC, DOGE |
| Config.PoolOf | backend/ai_optimizer.py:21-38 | every pool is at least as efficient as the 1.0 baseline; only LTC declares a merged coin, and it is DOGE |
| Config.Difficulty | backend/ai_optimizer.py:60-68 | every configured difficulty is positive, so the estimate never divides by zero |
| Config.HashrateCoefficient | backend/ai_optimizer.py:82-86 | every coin's hashrate per watt is positive |
| Config.BlockReward | backend/ai_optimizer.py:88-95 | every block reward is positive |
| Estimator.Profitability | backend/ai_optimizer.py:70-112 | a missing or zero price gives exactly 0; with non-negative power and prices the estimate is non-negative |
| Estimator.BlocksScale | backend/ai_optimizer.py:98 | blocks per day is proportional to power |
| Estimator.ProfitPerWatt | backend/ai_optimizer.py:82-110 | the estimate equals power times the one-watt estimate, because the hashrate is linear in power |
| Estimator.ProfitAdditive | backend/ai_optimizer.py:82-110 | the estimate for a sum of two power budgets is the sum of their estimates |
| Estimator.ProfitMonotone | backend/ai_optimizer.py:82-110 | with non-negative prices, the estimate never decreases as power grows |
| Estimator.ProfitReadsOwnPrice | backend/ai_optimizer.py:75-110 | a coin's estimate depends only on its own price, plus the DOGE price when the coin is LTC |
| Estimator.MergedBonusUnscaled | backend/ai_optimizer.py:101-110 | for LTC, having a DOGE price adds exactly blocks*10000*dogePrice*0.8, which the 1.2 efficiency does not scale |
| Selection.MaxBy | backend/ai_optimizer.py:157 | the chosen index has the highest score, and every earlier element scores strictly less (the first maximum) |
| Selection.FirstMaxUnique | backend/ai_optimizer.py:157 | any index that is a maximum and beats every earlier element is the one `MaxBy` returns |
| Selection.BestCoin | backend/ai_optimizer.py:152-158 | the best coin's profit is at least every coin's, and it is strictly above every coin earlier in the order |
| Selection.BestDiffersIff | backend/ai_optimizer.py:157-161 | the best coin differs from the current one iff some coin earns more, or earns the same and comes earlier |
| Switching.ShouldSwitch | backend/ai_optimizer.py:145-173 | it faults iff the best coin differs and current profit is 0; otherwise it switches iff the best coin differs and (best-current)/current > 0.05, for current profits of either sign; a switch targets the best coin, never the current one, with gainPercent*current = (new-current)*100; a stay carries all profits |
| Switching.SwitchIffBeatsMargin | backend/ai_optimizer.py:161-171 | for a positive current profit that equals the current coin's estimate, it switches iff some other coin earns more than 1.05 times it |
| Switching.PenaltyIsStrict | backend/ai_optimizer.py:164 | against 100, profits of 104 and exactly 105 stay, and 106 switches with a 6% gain |
| Switching.TieKeepsCurrent | backend/ai_optimizer.py:157-164 | a coin tied with an earlier best coin, at non-zero profit, is kept |
| Switching.AllZeroFaultsOffFirstCoin | backend/ai_optimizer.py:157-162 | when every estimate is 0, mining LTC or DOGE hits the division by zero |
| Turbine.AdviseRpm | backend/ai_optimizer.py:114-143 | below optimum-50 the action is increase, above optimum+50 it is decrease, otherwise optimal; a move targets the optimum with gain abs(diff)*0.15/optimum > 0; optimal keeps the current RPM with gain 0 |
| Turbine.AdviceIdempotent | backend/ai_optimizer.py:133-143 | asking again at the recommended target gives optimal |
| Turbine.AdviceMovesTowardOptimum | backend/ai_optimizer.py:133-143 | the target is never farther from the optimum than the current RPM |
| Turbine.AdviceIgnoresFlowAndPower | backend/ai_optimizer.py:114-143 | flow rate and power output do not change the advice |
| Turbine.GainBound | backend/ai_optimizer.py:140 | speeding up from a non-negative RPM gains at most 0.15; slowing down from above twice the optimum gains more |
| Optimizer.Alerts | backend/ai_optimizer.py:225-233 | exactly one low-efficiency alert iff efficiency < 70, exactly one excellent notice iff > 85, never both; exactly one flow alert iff flow < 10 |
| Optimizer.Cycle | backend/ai_optimizer.py:175-268 | power becomes the reading; afterwards a coin is always set; the first cycle completes on the best coin; a failed cycle keeps coin and history; a completed one keeps the old history as a prefix and appends exactly one record holding the now-mined coin, the power, the efficiency and that coin's estimate, reports the turbine advice and the alerts, and reports a switch iff the coin changed |
| Optimizer.CycleFollowsPolicy | backend/ai_optimizer.py:199-216 | with a coin set, the cycle fails iff the rule faults, moves to the recommended coin on a switch, and keeps the coin otherwise |
| Optimizer.CycleFailsIff | backend/ai_optimizer.py:175-216 | a cycle fails iff a coin is set, its estimate is 0 and a different coin is best |
| Optimizer.BtcOutageWhileOnLtc | backend/ai_optimizer.py:200-202 | while mining LTC at a non-zero estimate, a missing BTC price makes BTC's estimate 0 and the cycle still completes |
| Optimizer.Step | backend/ai_optimizer.py:184-242 | after any cycle, completed or failed, a coin is set, power is the reading, and the old history is a prefix of at most one more record |
| Optimizer.Run | backend/ai_optimizer.py:289-306 | over successive cycles the coin, once set, stays set; power is the last reading; history only grows, by at most one per cycle |
| Optimizer.RunWithoutZeroEstimates | backend/ai_optimizer.py:289-306 | when no estimate is ever 0, every cycle completes and the history grows by exactly one per cycle |
| Optimizer.FirstCycleScenario | backend/ai_optimizer.py:217-223 | from start-up at 1000 W with BTC $60000, LTC $0.10 and DOGE $0.08, the first cycle starts mining BTC |

## Left out

- Price fetching (`get_coin_price`, lines 43-58) is replaced by the price oracle. That covers the HTTP request to CoinGecko, its 5-second timeout, and the exception handling that returns `None`.
- The price is fetched anew for each estimate, including the history record's recomputation at line 241. The model assumes the price does not move within a cycle.
- The optimal RPM is a positive parameter. Its derivation with `np.sqrt` and `np.pi` (lines 119-130) is not modelled.
- IEEE floating-point rounding is not modelled; all arithmetic is exact.
- Console output and `send_notification` (lines 274-277) are left out. A notification corresponds to `Report.switchedTo`, and alerts are the tags in `Report.alerts`.
- The history's `datetime.now()` timestamps are omitted.
- The main loop's sensor HTTP request, `time.sleep(60)`, `time.sleep(10)` and the `KeyboardInterrupt` exit (lines 283-306) are left out. `Optimizer.Run` keeps only the loop's behaviour of continuing after a failed cycle.
- Pool start/stop calls are left out; they are commented out in the source. Pool URLs and algorithm names appear only in output.
- Coins outside BTC, LTC and DOGE are not modelled. The table lookups' defaults (difficulty 1, hashrate 0, reward 0) therefore never apply.
- `api_key` is never used by the engine.

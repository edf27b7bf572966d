# Hierarchical Perception Control in Dafny

This project models the control-and-tuning layer of HierarchicalPerceptionControl and proves properties of it. That layer covers:

- **Signal history and delay line** (`signals.py`). `SignalHistory` is a bounded FIFO of samples: a deque whose `maxlen` is one more than the requested length. It offers the aggregates and two scans over the stored samples. `DelayedSignal` is the N-cycle transport delay built on it.
- **Twiddle** (`auto_tune.py`). This is derivative-free coordinate descent over a parameter dictionary, together with the `AutoTuneFunction` object it tunes. The imperative `Twiddle` method is proved to compute exactly what the pure functions `Trial` / `Sweep` / `Run` / `TwiddleResult` describe. Those functions in turn carry the guarantees: the best cost never gets worse, the cost is evaluated at most 1 + 2·|p|·max_iterations times, the stopping tests hold, and the returned `best_p` is the dictionary `p` itself.
- **Control units** (`ControlUnit.py`). The Perceptual Control Theory unit updates `o := o + (kg·e - o)/ks` with `e = r - p`. The units that the hierarchical layer builds from a definition record become `GenericControlUnit`, whose control law is a function given to it.
- **Hierarchical control** (`hierarchical_control.py`). The main unit's output becomes the reference of every low-level control, and their action maps are merged. Each step adds the main error to a cost in which errors of the wrong sign are weighed by the overshoot gain. A subclass overrides which observation the main unit perceives and how its output becomes actions; these overrides are the constants `obsIndex` and `actionsFromOutput`.
- **Concrete controls**:
  - car speed (accelerator and brake split), acceleration, and position-to-speed cascades (`CarControl.py`);
  - tuning of the car speed control over episodes (`CarControl.py`);
  - the cart-pole chains of PCU units (`CartPole.py`);
  - the pole-angle hierarchical control (`CartPoleControl.py`).
- **Fuzzy-rule text handling** (`FuzzyControl.py`):
  - `string_to_dict` and `string_to_value`;
  - `rule_code`, `define_rules` and `define_tests`;
  - the lookups of fuzzy variables and the clipping of out-of-range inputs;
  - the uniform triangular layout of adjectives.

Arithmetic is on `real`. Python dictionaries are ordered sequences of `(key, value)` pairs (`Dicts.Dict`). Putting an existing key keeps its position; a new key goes at the end.

Files:
- `common.dfy`: `Option`/`Result`, real helpers, parameter and dict sequences.
- `signals.dfy`
- `control_unit.dfy`
- `hierarchical_control.dfy`
- `auto_tune.dfy`
- `car_control.dfy`
- `cart_pole.dfy`
- `cart_pole_control.dfy`
- `fuzzy_control.dfy`

## Model

| member | source | states |
|---|---|---|
| Reals.Sign | hierarchical_control.py:31 | `signum`: -1, 0 or 1, and 0 exactly for 0 and 1 exactly for positive values |
| Dicts.PutLookup | FuzzyControl.py:284 | after `d[k] = v`, `k` reads `v` and every other key reads what it read before |
| Dicts.UpdateLookup | hierarchical_control.py:53 | after `d.update(pairs)`, a key reads its last value among the pairs when it has one, else its old value |
| Dicts.MergeAllLookup | hierarchical_control.py:50-53 | the dict merged from a list of dicts reads, for each key, the value of the last dict that assigns it |
| Signals.Window | signals.py:15-16 | a deque with `maxlen` cap that received a sequence holds its last min(len, cap) samples, in order |
| Signals.WindowAppend | signals.py:31-32 | appending to a full or partial deque is the same as having received the longer sequence |
| Signals.AppendEvictsOldest | signals.py:31-32 | appending to a full deque drops exactly the oldest sample and adds the new one last |
| Signals.OptimaBelowSound | signals.py:101-116 | every reported point is a local optimum of the samples, reported in increasing index order |
| Signals.OptimaBelowComplete | signals.py:101-116 | every local optimum of the samples is reported |
| Signals.OptimumAtMeaning | signals.py:103-115 | a maximum is reported at i exactly when the first difference exceeds 0.1 and the next is below -0.1, a minimum exactly when the next difference is not below -0.1 and the first is below -0.1; the point holds i and the sample i-1 |
| Signals.SignalHistory.constructor | signals.py:10-13 | a history of length n has capacity n+1 and starts empty |
| Signals.SignalHistory.Reset | signals.py:15-16 | the history is emptied and the capacity kept |
| Signals.SignalHistory.SetLen | signals.py:21-29 | the capacity becomes n+1 and all stored values are discarded |
| Signals.SignalHistory.Append | signals.py:31-32 | the values are the last `capacity` samples of the old values followed by the new one; the capacity bound holds |
| Signals.SignalHistory.Update | signals.py:34-43 | on a non-empty history only the newest value is replaced and the length is kept; an empty history is the error case and is left unchanged |
| Signals.SignalHistory.Load | signals.py:45-53 | the history holds the last `capacity` elements of the loaded list, in order, whatever it held before |
| Signals.SignalHistory.IsFull | signals.py:55-56 | full exactly when the number of values reached the capacity |
| Signals.SignalHistory.Last | signals.py:78-79 | the newest value, or the empty-history error |
| Signals.SignalHistory.Sum | signals.py:96-98 | the sum of the stored values |
| Signals.SignalHistory.Average | signals.py:81-88 | 0 for an empty history, otherwise the value whose product with the count is the sum |
| Signals.SignalHistory.Min | signals.py:90-91 | a stored value no larger than any other, or the empty-history error |
| Signals.SignalHistory.Max | signals.py:93-94 | a stored value no smaller than any other, or the empty-history error |
| Signals.SignalHistory.GetAggregate | signals.py:59-76 | dispatches on the five names with each aggregate's meaning; any other name is the unknown-aggregate error |
| Signals.SignalHistory.LocalOptimumPoints | signals.py:101-116 | the scan returns exactly the local optima below the length, in index order |
| Signals.SignalHistory.ChangedDerivative | signals.py:118-129 | true exactly when some i >= 2 has a second difference of absolute value above 0.1 |
| Signals.DelayedSignal.constructor | signals.py:139-140 | a delay of n cycles is an empty history of capacity n+1 |
| Signals.DelayedSignal.SetDelay | signals.py:142-143 | the capacity becomes delay+1 and all history is discarded |
| Signals.DelayedSignal.GetValue | signals.py:145-148 | no value until the history is full, then the oldest stored sample |
| Signals.TestDelayedSignal | signals.py:151-156 | after feeding a sequence into a delay of `lag`, no value when at most `lag` samples were fed, else the sample fed `lag` appends before the last |
| Signals.OldestOfWindow | signals.py:145-156 | the window of capacity lag+1 is full exactly when more than `lag` samples arrived, and its oldest sample is the one `lag` before the newest |
| Signals.AverageBetweenExtremes | signals.py:81-94 | the average lies between any lower and upper bound of the samples, so between `min` and `max` |
| ControlUnit.PcuNoSmoothing | ControlUnit.py:19 | with ks = 1 the new output is exactly kg·e, whatever the previous output |
| ControlUnit.PcuFixedPoint | ControlUnit.py:19 | an output equal to kg·e is unchanged by the update |
| ControlUnit.PcuApproach | ControlUnit.py:19 | the distance to kg·e is multiplied by 1 - 1/ks at each update |
| ControlUnit.PcuGains | ControlUnit.py:11-12 | kg is the first gain; ks is the second gain, or 1.0 when only one is given; an empty list has no gains |
| ControlUnit.PCUControlUnit.constructor | ControlUnit.py:9-15 | name, debug flag and the gains read from the list are stored; o and e start at 0 |
| ControlUnit.PCUControlUnit.GetOutput | ControlUnit.py:17-22 | e becomes reference - perception, o becomes the PCU update of the old o, and the new o is returned |
| ControlUnit.GenericControlUnit.constructor | CarControl.py:19 | a unit built from its control law and parameters, with reference, output and error 0 |
| ControlUnit.GenericControlUnit.GetOutput | hierarchical_control.py:61 | the given reference becomes the unit's reference; error and output are what the law gives for the parameters, the old output, that reference and the perception; the output is returned; parameters and reset count are kept |
| ControlUnit.GenericControlUnit.SetReference | hierarchical_control.py:34 | only the unit's reference changes |
| ControlUnit.GenericControlUnit.Reset | hierarchical_control.py:26 | output and error return to 0 and the reset is recorded; parameters and reference are kept |
| ControlUnit.GenericControlUnit.SetParameters | hierarchical_control.py:85-86 | only the parameters change |
| Hierarchical.AddCost | hierarchical_control.py:76 | the cost step records the new error as the current error |
| Hierarchical.AddCostNeverDecreases | hierarchical_control.py:67-75 | with a non-negative overshoot gain, neither the total error nor the maximum overshoot ever decreases |
| Hierarchical.MisSignedMax | hierarchical_control.py:69-73 | the largest absolute value among the errors whose sign differs from the initial one (0 when there are none) |
| Hierarchical.OvershootIsLargestMisSignedError | hierarchical_control.py:67-76 | from a fresh reference, after any sequence of errors, the maximum overshoot is the largest mis-signed absolute error and the current error is the last one |
| Hierarchical.UnitGainCostIsAbsSum | hierarchical_control.py:67-76 | with overshoot gain 1 the total error grows by exactly the sum of the absolute errors, whatever their signs |
| Hierarchical.SameSignCostIsAbsSum | hierarchical_control.py:67-76 | errors that all keep the reference's sign add exactly their absolute sum to the total error, whatever the gain, and leave the maximum overshoot unchanged |
| Hierarchical.CostAtLeastAbsSum | hierarchical_control.py:67-76 | with a gain of at least 1 the overshoot weighting only adds to the cost: the total error grows by at least the sum of the absolute errors |
| Hierarchical.AddCostStepLowerBound | hierarchical_control.py:67-75 | with a gain of at least 1 one cost step adds at least the absolute value of the new error |
| Hierarchical.SingleAction | hierarchical_control.py:64-65 | the default action map has the one entry `action_name -> output` |
| Hierarchical.HierarchicalControl.constructor | hierarchical_control.py:10-22 | fields as given, cost 0, and the reference set as `set_reference` sets it, including in the main unit |
| Hierarchical.HierarchicalControl.SetReference | hierarchical_control.py:29-34 | stores the reference and its sign, zeroes the maximum overshoot and the current error, forwards the reference to the main unit, and keeps the total error |
| Hierarchical.HierarchicalControl.AddToCost | hierarchical_control.py:67-76 | the cost moves by one `AddCost` step for the new error; the reference and its sign are kept |
| Hierarchical.HierarchicalControl.Reset | hierarchical_control.py:24-27 | at every depth of the tree (`ResetTree`): total error 0; the main unit's output and error are 0 and its reset is counted, its reference and parameters kept; the control's reference, sign, maximum overshoot and current error untouched |
| Hierarchical.HierarchicalControl.ResetNext | hierarchical_control.py:27 | one more low level and its whole subtree are reset as above, those before it stay reset and those after it keep their state |
| Hierarchical.HierarchicalControl.GetSecondReference | hierarchical_control.py:59-62 | the main unit takes this control's reference and runs once on the main observation against it, and its new output is returned |
| Hierarchical.HierarchicalControl.GetActions | hierarchical_control.py:39-57 | the main unit runs once against the reference; the result is the action map the whole tree yields from its new outputs (`ActionsOf`): the main output's map without low levels, otherwise the low levels' maps merged in list order; at every depth below (`SteppedTree`), each control has taken its parent's new output as reference (with its sign, overshoot and current error reset), its main unit has run once against it from its old output with its parameters and reset count kept, and its cost has grown by that unit's new error from its old total error; this control's cost grows exactly once by the main unit's new error, and its reference and sign are kept. The cost update is made right after the main unit runs rather than after the low levels, which yields the same final state because the low levels never touch this control's cost |
| Hierarchical.HierarchicalControl.StepLowLevels | hierarchical_control.py:50-53 | after every low level has taken the reference and stepped, the result is their action maps merged in list order, and each low level's whole subtree has taken its step (`SteppedTree`) from the state it held before |
| Hierarchical.HierarchicalControl.StepNext | hierarchical_control.py:51-53 | one more low level's subtree steps and its map is merged in, keeping the steps of the subtrees before it and the state of those after it |
| Hierarchical.HierarchicalControl.StepChild | hierarchical_control.py:52-53 | `set_reference` then `get_actions` on one low level: the step described above through its whole subtree and that low level's own action map, with every object of the other low levels' subtrees untouched |
| Hierarchical.MergeAllIsMerged | hierarchical_control.py:50-53 | merging, in order, maps that are the low levels' own action maps gives the merged map of the tree |
| Hierarchical.HierarchicalControl.SetParameters | hierarchical_control.py:82-86 | the parameters read back are the ones set, and the main unit's reference and resets are kept |
| AutoTune.IsBetterStrictOrder | auto_tune.py:146-147 | `is_better` is a strict order: never both ways, and transitive |
| AutoTune.LowerThenRaise | auto_tune.py:71-91 | raising by dp, lowering by bad_inc·dp and raising by dp again moves the key by (2 - bad_inc)·dp |
| AutoTune.Trial | auto_tune.py:70-95 | a trial on one key keeps the number of parameters and steps |
| AutoTune.TrialOutcome | auto_tune.py:70-95 | a trial never makes the absolute best cost worse and evaluates the cost once or twice |
| AutoTune.TrialRaises | auto_tune.py:71-78 | when the raised value is better, it is kept, its cost becomes the best, and the step grows by good_inc after one evaluation |
| AutoTune.TrialLowers | auto_tune.py:79-89 | when only the lowered value is better, it is kept, its cost becomes the best, and the step grows by mid_inc after two evaluations |
| AutoTune.TrialRetreats | auto_tune.py:90-94 | when neither is better, the key ends at orig + (2 - bad_inc)·dp, the best is unchanged, and the step shrinks by dec_inc |
| AutoTune.TrialFrame | auto_tune.py:70-94 | a trial changes only the value and the step of its own key |
| AutoTune.TrialKeepsBestCostAtDefault | auto_tune.py:71-94 | with bad_inc = 2, parameters whose cost is the best cost still have that property after a trial |
| AutoTune.TrialDriftsWhenBadIncIsNotTwo | auto_tune.py:81-96 | with bad_inc = 3 a failed trial leaves the key away from its start, so the returned parameters need not have the returned best cost |
| AutoTune.Sweep | auto_tune.py:70-95 | a sweep over the keys keeps the number of parameters and steps |
| AutoTune.SweepOutcome | auto_tune.py:70-95 | a sweep over n keys never worsens the best cost and evaluates the cost between n and 2n times |
| AutoTune.Run | auto_tune.py:57-95 | the outer loop keeps the number of parameters and steps |
| AutoTune.EvalBudgetIsProduct | auto_tune.py:57-95 | the evaluation budget of the outer loop is 2·keys·iterations |
| AutoTune.RunOutcome | auto_tune.py:57-68 | the outer loop never worsens the best cost; the returned j is 0 or an iteration index; a return before the last iteration means the step sum fell to the threshold or the best cost is below 0.0001 |
| AutoTune.RunEvals | auto_tune.py:57-95 | the remaining iterations evaluate the cost at most twice per key each |
| AutoTune.InitialSearch | auto_tune.py:47-54 | every key starts with step `change`, and the best cost is the cost of the initial parameters, evaluated once |
| AutoTune.TwiddleResult | auto_tune.py:19-96 | twiddle's result keeps the number of parameters, never has a worse absolute cost than the start, evaluates the cost at most 1 + 2·|p|·max_iterations times, returns j = 0 or an iteration index, and stops early only on a stopping test |
| AutoTune.SweepKeepsBestCost | auto_tune.py:70-95 | with bad_inc = 2, a sweep keeps parameters whose cost is the best cost |
| AutoTune.RunKeepsBestCost | auto_tune.py:57-96 | with bad_inc = 2, the outer loop keeps parameters whose cost is the best cost |
| AutoTune.TwiddleReturnsBestAtDefault | auto_tune.py:54-96 | `best_p` is `p` itself, and with the default bad_inc = 2 its cost is the returned best cost |
| AutoTune.DictSum | auto_tune.py:153-157 | the sum of the values |
| AutoTune.InitialSteps | auto_tune.py:48-51 | one step per parameter key, each equal to `change` |
| AutoTune.AutoTuneFunction.constructor | auto_tune.py:104-118 | the settings are stored and the call counter starts at 0 |
| AutoTune.AutoTuneFunction.RunFunctionWithParameters | auto_tune.py:135-144 | returns the cost of the parameters and counts the call when this object counts calls |
| AutoTune.AutoTuneFunction.AutoTuneWithTwiddle | auto_tune.py:126-127 | twiddle runs with this object's threshold, change, bad_inc and mid_inc and the default 1000 iterations (not max_iter); the counter grows by the number of evaluations, at most 1 + 2·|p|·1000 |
| AutoTune.AutoTuneFunction.AutoTune | auto_tune.py:120-124 | the best parameters of that twiddle run; the call counter grows by exactly the number of cost evaluations the run makes (when calls are counted), so by at most 1 + 2·|p|·1000 |
| AutoTune.TwiddleTrial | auto_tune.py:70-95 | the body of the inner loop computes `Trial`, and counts its evaluations |
| AutoTune.TwiddleSweep | auto_tune.py:70-95 | the inner loop computes `Sweep` over all keys |
| AutoTune.TwiddleLoop | auto_tune.py:57-95 | the outer loop computes `Run` from iteration 0 |
| AutoTune.Twiddle | auto_tune.py:19-96 | twiddle returns exactly `TwiddleResult`'s best cost, parameters and j, and the counter grows by its evaluations |
| CarControl.PedalActions | CarControl.py:27-32 | `acc` and `brake` are both non-negative, at most one is non-zero, and acc - brake is the output |
| CarControl.PedalLookup | CarControl.py:27-32 | `acc` reads max(a, 0) and `brake` reads max(-a, 0) |
| CarControl.NewCarSpeedControl | CarControl.py:13-25 | no low levels, overshoot gain 10 by default, the speed `observation[1]` perceived, pedal actions, and the reference set |
| CarControl.NewCarAccPedalControl | CarControl.py:41-52 | no low levels, reference 0, overshoot gain 1 by default, the acceleration `observation[2]` perceived, the default action map |
| CarControl.CarPositionalControl.constructor | CarControl.py:98-103 | the two units and the position reference are stored; accumulated error 0 |
| CarControl.CarPositionalControl.GetAction | CarControl.py:105-110 | the absolute position error (not its square) is accumulated; the position unit takes the position reference and runs on the position; the speed unit takes the position unit's output as its reference and runs on the speed; that output is returned |
| CarControl.AutoTuneCarSpeed.constructor | CarControl.py:56-65 | the control, the episode and max_iter are stored |
| CarControl.AutoTuneCarSpeed.SetParameters | CarControl.py:70-71 | delegates to the control: its parameters read back as the ones set |
| CarControl.AutoTuneCarSpeed.SetAndReset | CarControl.py:80-81 | the parameters read back are the ones given, and the whole tree is in the reset state (`ResetTree`) of the state it held with those parameters installed |
| CarControl.AutoTuneCarSpeed.RunOneEpisode | CarControl.py:79-85 | parameters are installed and the control reset once (parameters read back, main unit's reset counted once), then the episode's cost for those parameters is returned |
| CarControl.AutoTuneCarSpeed.RunFunctionWithParameters | CarControl.py:87-90 | the cost of one episode with the parameters; the parameters read back are the ones given and the main unit's reset is counted once |
| CarControl.AutoTuneCarSpeed.AutoTune | CarControl.py:73-77 | the best parameters of twiddle from the control's parameters with the base settings, never worse in absolute cost than the start |
| CartPole.DebugFlags | CartPole.py:27 | the given flags when there are at least four, otherwise four false flags |
| CartPole.Push | CartPole.py:43 | the action is 0 or 1, and 1 exactly when the last output is positive |
| CartPole.ControlCartPoleAtAngle.constructor | CartPole.py:25-32 | the four gain lists are unpacked in order into four fresh, distinct PCU units named pole angle, pole speed, cart pos and cart speed, with the debug flags |
| CartPole.ControlCartPoleAtAngle.ChangePoleAngleReference | CartPole.py:34-35 | the pole-angle reference is replaced |
| CartPole.ControlCartPoleAtAngle.GetAction | CartPole.py:37-44 | pole angle against the reference, then pole speed, cart position and cart speed, each against the previous unit's new output; the action is the push direction of the last output |
| CartPole.MoveCartToPosition.constructor | CartPole.py:7-11 | `gains[0]` drives the cart-position unit (debug on); the remaining four go to the angle controller, whose first unit alone prints |
| CartPole.MoveCartToPosition.ChangeCartPosReference | CartPole.py:13-14 | the cart-position reference is replaced |
| CartPole.MoveCartToPosition.GetAction | CartPole.py:16-21 | the position unit's new output becomes the angle controller's reference before that controller's chain computes the action; each unit's error is its predecessor's new output minus its observation (angle, angular speed, cart position, cart speed) and its output one filter step on that error |
| CartPoleControl.NewCartPoleControl | CartPoleControl.py:5-19 | no low levels, overshoot gain 10 and reference 0 by default, the pole angle `observation[2]` perceived, the default action map |
| CartPoleControl.GetAction | CartPoleControl.py:21-24 | the reference is set first; then the main unit runs on the pole angle, the action is the one-entry map to its output, and the cost grows by its new error measured against the new reference |
| FuzzyControl.Split | FuzzyControl.py:281 | `str.split` always yields at least one piece |
| FuzzyControl.SplitJoin | FuzzyControl.py:281 | joining the pieces of a split with the separator gives back the string |
| FuzzyControl.SplitAbsent | FuzzyControl.py:223 | a string without the separator splits into itself alone |
| FuzzyControl.SplitPrefix | FuzzyControl.py:281 | a first piece free of separator characters is split off before the rest |
| FuzzyControl.SplitAnyPieces | FuzzyControl.py:278 | splitting on a set of delimiters yields pieces free of them that concatenate to the string without them |
| FuzzyControl.NonEmptyConcat | FuzzyControl.py:278 | dropping the empty pieces loses no character |
| FuzzyControl.TokensSpec | FuzzyControl.py:278 | the tokens are non-empty, contain no `,`, `&` or space, and together are the input without its delimiters |
| FuzzyControl.StringToValue | FuzzyControl.py:289-294 | a number exactly when the text parses as a decimal, otherwise the text itself |
| FuzzyControl.StringToValueInt | FuzzyControl.py:289-294 | the decimal notation of an integer reads back as that number |
| FuzzyControl.KeyValueRoundTrip | FuzzyControl.py:281-284 | a token `k:v` gives back key k and the value of v |
| FuzzyControl.KeyValueExtraColons | FuzzyControl.py:281-284 | a token with several colons uses its first two parts |
| FuzzyControl.DictOfLookup | FuzzyControl.py:277-286 | later duplicate keys overwrite earlier ones: each key reads the value of its last token |
| FuzzyControl.DictOfPrefixFailure | FuzzyControl.py:280-284 | once a token fails, the tokens after it do not matter |
| FuzzyControl.DictOfFailure | FuzzyControl.py:280-284 | the dict is built exactly when every token has a colon; otherwise the error is a token without one |
| FuzzyControl.StringToDict | FuzzyControl.py:270-286 | the loop computes the dict of the tokens, or fails on the first token without a colon |
| FuzzyControl.Terms | FuzzyControl.py:262-264 | one term per pair |
| FuzzyControl.CodeIsJoin | FuzzyControl.py:258-267 | the rule code of a non-empty dict is its terms joined by ` &` |
| FuzzyControl.RuleCodeTerms | FuzzyControl.py:251-267 | the rule code exists exactly when the string parses, and is the ` dict['k']['v']` terms of its pairs joined by ` &` |
| FuzzyControl.Code | FuzzyControl.py:260-267 | the separator loop computes the joined terms |
| FuzzyControl.RuleCode | FuzzyControl.py:251-267 | `rule_code` parses the string, then emits its code for the `antecedents` or `consequents` dict |
| FuzzyControl.MapAllSuccess | FuzzyControl.py:220-235 | a list of configurations is built exactly when each one is, with the results in order |
| FuzzyControl.MapAllFailsAt | FuzzyControl.py:221-235 | the first failing configuration's error is the result |
| FuzzyControl.RuleWithoutArrowFails | FuzzyControl.py:223-230 | a rule without `=>` is rejected |
| FuzzyControl.RuleOfSides | FuzzyControl.py:222-230 | a rule `lhs=>rhs` has the antecedent code of lhs and the consequent code of rhs |
| FuzzyControl.DefineRules | FuzzyControl.py:203-235 | the loop builds the rule of every rule string, or stops at the first one that fails |
| FuzzyControl.DefineTests | FuzzyControl.py:238-248 | the loop builds one test per configuration: its input dict, its output or none, its comment or '' |
| FuzzyControl.ClipValueSpec | FuzzyControl.py:80-84 | with a margin that fits in the range, values below become min + small_inc, values above become max - small_inc, values in range are kept, the result lies in the range, and clipping is idempotent |
| FuzzyControl.FuzzyControl.constructor | FuzzyControl.py:43-55 | name, description, rules, variables and tests are stored |
| FuzzyControl.FuzzyControl.AddTest | FuzzyControl.py:87-88 | the test is appended |
| FuzzyControl.FuzzyControl.GetFuzzyVariable | FuzzyControl.py:125-131 | antecedents are searched first, then consequents; none exactly when neither has the name |
| FuzzyControl.FuzzyControl.GetFuzzyVariableMinMax | FuzzyControl.py:133-137 | the first and last points of the variable's universe; an unknown name is an error |
| FuzzyControl.FuzzyControl.ClipOutlierValues | FuzzyControl.py:68-84 | keys and order are kept, each antecedent input is clipped into its variable's universe, other inputs are unchanged; fails exactly when an antecedent has no universe |
| FuzzyControl.PeakClosedForm | FuzzyControl.py:170-183 | the i-th peak is min + i·increment, capped at max |
| FuzzyControl.LastPeakIsMax | FuzzyControl.py:166-183 | spread over k >= 2 adjectives, the last peak is exactly max |
| FuzzyControl.TriangleInRange | FuzzyControl.py:172-178 | each triangle is ordered and its feet are clamped into [min, max] |
| FuzzyControl.LayoutLookup | FuzzyControl.py:171-180 | with distinct names, each adjective is the triangle at its own peak |
| FuzzyControl.Layout | FuzzyControl.py:170-183 | the loop with the running `low` computes the layout of all names |
| FuzzyControl.UniformAdjectives | FuzzyControl.py:163-183 | exactly one adjective divides by zero; otherwise the increment is (max - min)/(k - 1) and the layout is computed |

## Left out

- Rendering, plotting and the Qt windows are not part of this model: the `view_*.py` files, `show_auto_tune`, `view_memberships`, `view_fuzzy_variable` and `show_window`.
- `parm_string`, `summary_string` and `dict_string` are left out. They only format text.
- The Gym environment, the car model (`CarModel.py`, `CarEnvironment`) and `FuzzyExample.py` are not part of this model.
- Fuzzy inference is left out. This covers `compute`, `run_tests`, `print_outs`, `ctrl.ControlSystem` and its simulation in the constructor, `trimf`/`trapmf`, and the `eval` of the generated rule code. All of it belongs to an external fuzzy library. A rule is the pair of code strings that would be evaluated.
- YAML loading is left out: `create_from_file`, `get_car_controller` and the unit-test entry points read files.
- `create_control` and the unit types it builds are not shown. `GenericControlUnit` stands for them: the law is a parameter, and only the error, output, reference, reset and parameters are modelled.
- `signum` is not shown; `Reals.Sign` is the usual -1/0/1.
- Debug `print` calls are left out. `debug` flags are stored but print nothing.
- IEEE floating point is not modelled. All values are exact reals, and 0.1, 0.0001 and `small_inc` are exact constants.
- The `Ecoli` class is left out. It is marked unimplemented and has no behaviour beyond storing its arguments.
- `set_kg`, `set_ks` and the base `set_parameters` are left out:
  - `set_kg` and `set_ks` forward to unit methods that are not shown;
  - the base `set_parameters` is `pass`.
- `get_len` is the field `length` itself.
- Signals.SignalHistory.constructor: lengths are natural numbers. A negative Python length, which gives a deque of capacity 0 or a ValueError, is not modelled.
- Hierarchical.HierarchicalControl.GetActions: the controls and units of a tree must be distinct objects that share nothing (`Valid`). A Python tree that lists the same control or unit twice, and so steps it twice, is not modelled.
- Signals.SignalHistory.SetLen: lengths are natural numbers. `set_len(-1)`, which gives a deque of capacity 0, and more negative lengths, for which the deque raises ValueError, are not modelled.
- Signals.SignalHistory.Update: Python raises on an empty history (`pop`). The model reports it through `ok == false` and leaves the history unchanged.
- Signals.SignalHistory.Last: `Last`, `Min` and `Max` raise in Python on an empty history. The model returns the `EmptyHistory` error instead.
- AutoTune.TwiddleResult: it states only that the returned dict has as many entries as the input. It does not state that the keys are those of the input in the same order, which holds because `SetValue` keeps keys.
- AutoTune.Twiddle: Python's dict iteration order is the order of `p`'s entries. Costs are a function of the ordered parameter list.
- CarControl.AutoTuneCarSpeed.AutoTune: in Python every evaluation during tuning also sets the control's parameters and resets it. Here tuning evaluates the pure `episode` function and does not change the control.
  - The final state of the control is therefore not modelled.
  - Neither is a parameter dict shared between the control and twiddle.
  - The environment settings (car name, output lag, slope, dt, reference changes) are folded into `episode`.
- CarControl.AutoTuneCarSpeed.RunOneEpisode: the episode's speed trace (`speed_evo`) is not returned. The environment run is the given `episode` function of the parameters alone, so its cost does not depend on the control's law or on references carried over from earlier runs. The run's effect on the control (its `get_action` steps, total error growing to the returned cost, the reference changes) is not modelled; the state after `set_parameters` and `reset` is stated by `SetAndReset`, and after the run only the parameters and the reset count are promised.
- CarControl.AutoTuneCarSpeed.RunFunctionWithParameters: the same gap as `RunOneEpisode`; only the parameters and the reset count of the control are promised after the call.
- ControlUnit.PCUControlUnit.GetOutput: `ks != 0` is required; Python divides by `ks` unguarded and raises on 0.
- ControlUnit.PCUControlUnit.constructor: a non-empty gain list is required; Python raises IndexError on `gains[0]`.
- CartPole.ControlCartPoleAtAngle.constructor:
  - exactly four gain lists are required, because unpacking raises otherwise;
  - the debug flags are a list, because `debug_units=None` raises on `len`.
- FuzzyControl.StringToValue: numbers are decimals with an optional sign and point, such as `12`, `-0.5` and `.5`. Python's `float` also accepts exponents, `inf`, `nan`, underscores and surrounding white space; those read as text here.
- FuzzyControl.RuleCode: how Python prints a float with `%s` is the parameter `show`.
- FuzzyControl.StringToDict: the delimiter set is the default `,`, `&` and space. Other delimiter regular expressions are not modelled. A token without a colon is an error result where Python prints a warning and raises IndexError.
- FuzzyControl.DefineRules: a rule without `=>` is an error result where Python warns and then raises, at the latest at `tokens[1]` (`rule_code(tokens[0], True)` is evaluated first). A rule with two `=>` uses its first two parts, as Python does.
- FuzzyControl.FuzzyControl.ClipOutlierValues:
  - it returns the clipped dict instead of updating the caller's dict in place;
  - inputs are numbers;
  - an antecedent with an empty universe is an error result, and the entries already clipped by then are not reported.
- FuzzyControl.UniformAdjectives: only the uniform branch of `define_fuzzy_variables` is modelled.
  - The universe `np.arange(min, max + inc, inc)` is not modelled.
  - Adjectives listed explicitly are not modelled.
  - A variable is given as its universe and its adjectives' shapes.

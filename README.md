# Orion order-intent normalisation and buffer fee controller, in Dafny

This project models two parts of the Orion protocol's Python code.

- **Order intents** (`python-sdk/python_sdk/utils.py`). A curator's order intent maps token addresses to weights. `validate_order` makes three checks on it, in order:
  1. every token is whitelisted;
  2. every weight is positive;
  3. the weights sum to 1 within floating-point tolerance.

  With `fuzz` set, it then gives every whitelisted vault missing from the intent a small random "dust" weight and renormalises the weights. Finally it scales the weights by `10**decimals` and rounds them to integers with `round_with_fixed_sum`. That function is largest-remainder (Hamilton) rounding. It floors every value, then orders the indices by descending fractional part and adds one unit to the first `remainder` of them. `remainder` is the target minus the sum of the floors, and the selection uses Python slice semantics: a remainder above n selects all n, and a negative one counts from the end.
- **Buffer fee controller** (`test/buffer_poc.py`). `SmoothFeeController` turns the buffer's distance from its target ratio into a fee rate in four steps:
  1. a deadband;
  2. exponential smoothing of the error;
  3. a proportional gain;
  4. a rate limit, with the fee floored at zero.

  The simulation script runs the controller and the simple fee `max(0, x* - ratio)` side by side for one epoch per slippage sample. The buffer is clamped at zero.

Modules:

- `Wrappers` (`wrappers.dfy`): `Option`.
- `Rounding` (`rounding.dfy`): `round_with_fixed_sum`, plus the specification predicate `IsLargestRemainder` and the lemmas about it. The implementation is an insertion `ArgsortDescending` and a loop over an array (`RaiseFirst`).
- `OrderIntent` (`order_intent.dfy`): `validate_order` as a method that returns `Result<seq<Amount>>`. The three errors are modelled as values. The dust loop is a method (`AddDust`) proved against the function `WithDust`. At the end of the file, a corrected pipeline gives amounts that sum to exactly `10**decimals` (see Findings).
- `FeeController` (`fee_controller.dfy`): the class `SmoothFeeController`, whose `CalculateFeeRate` updates `previousFee` and `smoothedError` in place. The arithmetic of one call is the method `FeeStep`, specified by the predicate `ControllerStep`. The simulation loop is the method `Simulate`, whose loop body is `RunEpoch`; its histories are specified epoch by epoch by `EpochRecorded`.

An order intent is a sequence of `Allocation(token, weight)` entries in the dictionary's insertion order. Keys are distinct (`DistinctTokens`), which is a precondition because a Python dict guarantees it. The output is a sequence of `Amount(token, units)` entries in the same order. The contract chain works like this:

- `ValidateOrder`'s result satisfies `IsLargestRemainder` for the prepared, scaled weights.
- The `Rounding` lemmas give what that predicate means: the total, the exact target when the remainder lies in range, idempotence on integer input, and the one-unit bound.

## Model

| member | source | states |
|---|---|---|
| Rounding.SumReal | python-sdk/python_sdk/utils.py:31 | Python's `sum` of the weights (also at lines 49 and 72), taken left to right from 0 |
| Rounding.SumInt | python-sdk/python_sdk/utils.py:75 | `np.sum(floored)`, the integer total of the floors, taken left to right from 0 |
| Rounding.Floors | python-sdk/python_sdk/utils.py:74 | one integer per value, with `f <= v < f + 1` (`np.floor`) |
| Rounding.Frac | python-sdk/python_sdk/utils.py:78 | the fractional part `v - floor(v)` lies in [0, 1) and leaves an integer when subtracted |
| Rounding.RoundHalfEven | python-sdk/python_sdk/utils.py:72 | Python's `round`: within 0.5 of the argument, and an exact tie goes to the even integer |
| Rounding.SliceLength | python-sdk/python_sdk/utils.py:83 | how many indices `indices[:remainder]` selects: `remainder` when it is in [0, n], all n when it is larger, n + remainder (at least 0) when it is negative |
| Rounding.Remainder | python-sdk/python_sdk/utils.py:75 | the units left to hand out after flooring; it lies in [target - sum, target - sum + n), the upper bound strict for a non-empty list |
| Rounding.TargetOf | python-sdk/python_sdk/utils.py:71-72 | a given target is used as is; with none, the target is the sum rounded (within 0.5 of the sum) |
| Rounding.ArgsortDescending | python-sdk/python_sdk/utils.py:79 | `np.argsort(-fractional_parts)`: a permutation of the indices with keys in non-increasing order (ties in any order) |
| Rounding.InsertKeepsPermutation | python-sdk/python_sdk/utils.py:79 | inserting the next index anywhere keeps the order a permutation |
| Rounding.InsertKeepsDescending | python-sdk/python_sdk/utils.py:79 | inserting the next index at its place keeps the keys non-increasing |
| Rounding.RaiseFirst | python-sdk/python_sdk/utils.py:82-83 | `result[indices[:k]] += 1` on a copy of the floors: exactly the first k indices are raised by one, all others keep their floor, and k entries are raised |
| Rounding.CountRaisedBump | python-sdk/python_sdk/utils.py:83 | raising one floored entry adds one to the count of raised entries |
| Rounding.RaisedFirstAreLargest | python-sdk/python_sdk/utils.py:79-83 | when the first k indices of a descending argsort are raised, every raised entry has a fractional part at least as large as every entry left at its floor |
| Rounding.IsLargestRemainder | python-sdk/python_sdk/utils.py:65-85 | the specification of the rounding: the same length, each entry its floor or its floor plus one, `SliceLength(remainder, n)` entries raised, and no raised entry with a smaller fractional part than an unraised one |
| Rounding.RoundWithFixedSum | python-sdk/python_sdk/utils.py:65-85 | the result is a largest-remainder rounding towards the target: each entry is its floor or its floor plus one, `SliceLength(remainder, n)` entries are raised, and no raised entry has a smaller fractional part than an unraised one |
| Rounding.FloorsRaiseNothing | python-sdk/python_sdk/utils.py:74 | the floors alone raise no entry |
| Rounding.SumIsFloorsPlusRaised | python-sdk/python_sdk/utils.py:74-83 | the total of any floor-or-floor-plus-one result is the sum of the floors plus the number raised |
| Rounding.LargestRemainderSum | python-sdk/python_sdk/utils.py:74-85 | the total of the rounding is the sum of the floors plus `SliceLength(remainder, n)` |
| Rounding.LargestRemainderExactSum | python-sdk/python_sdk/utils.py:75-85 | when the remainder lies in [0, n], exactly that many entries are raised and the total equals the target |
| Rounding.NoneRaised | python-sdk/python_sdk/utils.py:83 | a result with no raised entries is the floors |
| Rounding.SumIntAsReal | python-sdk/python_sdk/utils.py:75 | the integer total equals the real total of the same values |
| Rounding.LargestRemainderIdempotent | python-sdk/python_sdk/utils.py:65-85 | integer inputs whose sum is the target have remainder 0 and come back unchanged |
| Rounding.SumGap | python-sdk/python_sdk/utils.py:75 | a pointwise-smaller sequence that is a whole unit smaller somewhere has a total at least one smaller |
| Rounding.SumMonotone | python-sdk/python_sdk/utils.py:75 | the total is monotone in the values |
| Rounding.RaisedIndicatorSum | python-sdk/python_sdk/utils.py:83 | the sum of the 0/1 raise indicators is the count of raised entries |
| Rounding.SumSplitsIntoFloorsAndFracs | python-sdk/python_sdk/utils.py:74-78 | the total of the values is the total of the floors plus the total of the fractional parts |
| Rounding.FracSumBelowLength | python-sdk/python_sdk/utils.py:78 | the fractional parts sum to at least 0 and, for a non-empty list, below n |
| Rounding.LargestRemainderExactTarget | python-sdk/python_sdk/utils.py:65-85 | when the target is exactly the values' sum, the remainder lies in [0, n], the result sums to the target, and every entry is strictly within one unit of its value |
| OrderIntent.Tokens | python-sdk/python_sdk/utils.py:21 | the keys of the intent, in order |
| OrderIntent.Weights | python-sdk/python_sdk/utils.py:26 | the values of the intent, in order |
| OrderIntent.Pow10 | python-sdk/python_sdk/utils.py:44 | `10**decimals`, at least 1 |
| OrderIntent.AllWhitelisted | python-sdk/python_sdk/utils.py:21-23 | every key of the intent is in the whitelist |
| OrderIntent.AllPositive | python-sdk/python_sdk/utils.py:26-27 | every weight is strictly positive |
| OrderIntent.SumIsClose | python-sdk/python_sdk/utils.py:30-31 | `np.isclose(sum, 1, atol=1e-10)` with its default `rtol=1e-5`: the sum lies within 1e-10 + 1e-5 of 1 |
| OrderIntent.FindUnlisted | python-sdk/python_sdk/utils.py:20-23 | the whitelist loop: nothing is found exactly when every key is whitelisted, and what is found is the first key that is not |
| OrderIntent.CheckOrder | python-sdk/python_sdk/utils.py:20-34 | the three checks in order: each error is reported exactly when its check fails and every earlier check passed; no error exactly when all pass |
| OrderIntent.MissingVaults | python-sdk/python_sdk/utils.py:41-42 | the vaults the fuzz loop adds: each is whitelisted, not a key of the intent and listed once, and every vault is either a key or added |
| OrderIntent.MissingVaultsInWhitelistOrder | python-sdk/python_sdk/utils.py:41-45 | the added vaults come in whitelist order |
| OrderIntent.DustWeight | python-sdk/python_sdk/utils.py:44 | `randint(1, 10) / 10**decimals`: for a draw in [1, 10], positive and at most `10 / 10**decimals` (so at most 1 once there is a decimal) |
| OrderIntent.DustEntries | python-sdk/python_sdk/utils.py:43-45 | the j-th missing vault gets the j-th draw divided by `10**decimals` |
| OrderIntent.WithDust | python-sdk/python_sdk/utils.py:38-45 | the keys after the fuzz loop are the intent's keys followed by the missing vaults |
| OrderIntent.WithDustStep | python-sdk/python_sdk/utils.py:41-45 | one more vault adds its dust entry, with the next draw, exactly when it is not yet a key |
| OrderIntent.AddDust | python-sdk/python_sdk/utils.py:38-45 | the loop that inserts into the growing dictionary yields exactly `WithDust` |
| OrderIntent.Times | python-sdk/python_sdk/utils.py:53-56 | every weight multiplied by the same factor |
| OrderIntent.SumScaled | python-sdk/python_sdk/utils.py:53-56 | scaling every weight scales the total by the same factor |
| OrderIntent.SumAppend | python-sdk/python_sdk/utils.py:49 | the total of a concatenation is the sum of the totals |
| OrderIntent.SumPositive | python-sdk/python_sdk/utils.py:49 | positive weights have a positive total |
| OrderIntent.Renormalise | python-sdk/python_sdk/utils.py:47-51 | `weight / sum(weights)` keeps the keys, and the new weights sum to exactly 1 |
| OrderIntent.Scale | python-sdk/python_sdk/utils.py:53-56 | the keys are kept and every weight is multiplied by `10**decimals` |
| OrderIntent.ScaledTotal | python-sdk/python_sdk/utils.py:53-58 | the scaled total is the original total times `10**decimals` |
| OrderIntent.Zip | python-sdk/python_sdk/utils.py:60 | `dict(zip(keys, rounded))` has those keys and those amounts, in order |
| OrderIntent.DustedSumPositive | python-sdk/python_sdk/utils.py:43-49 | an intent that passed the checks still has a positive total once dust is added, so the division is defined |
| OrderIntent.PreparedWeights | python-sdk/python_sdk/utils.py:38-51 | with fuzz, the padded and renormalised weights, which sum to 1, keyed by the intent's keys and then the missing vaults; without fuzz, the intent itself |
| OrderIntent.Normalise | python-sdk/python_sdk/utils.py:36-60 | the amounts carry the prepared keys, and they are a largest-remainder rounding of the scaled weights towards `10**decimals`; with fuzz, where the weights were renormalised, they sum to exactly `10**decimals` and each lies strictly within one unit of its scaled weight |
| OrderIntent.ValidateOrder | python-sdk/python_sdk/utils.py:18-62 | each error exactly when its check is the first to fail (a missing token is reported as the first non-whitelisted key); otherwise the amounts have distinct keys (the intent's, then the missing vaults when fuzzing) and are the largest-remainder rounding of the prepared, scaled weights; without fuzz, each amount is the floor or the floor plus one of its scaled weight; with fuzz, the amounts sum to exactly `10**decimals` and each lies strictly within one unit of its scaled, renormalised weight |
| OrderIntent.DistinctAfterDust | python-sdk/python_sdk/utils.py:41-45 | adding the missing vaults keeps the keys distinct |
| OrderIntent.AcceptedIntentUnderTarget | python-sdk/python_sdk/utils.py:29-34 | an intent that passes the tolerance check, rounded with 6 decimals, gives 999993 rather than 10**6 |
| OrderIntent.AcceptedIntentOverTarget | python-sdk/python_sdk/utils.py:53-59 | an intent that passes the tolerance check, rounded with 6 decimals, gives a total of 10**6 + 7 |
| OrderIntent.RenormalisedWeights | python-sdk/python_sdk/utils.py:47-51 | the corrected pipeline's weights always sum to exactly 1 and keep the keys |
| OrderIntent.NormaliseExact | python-sdk/python_sdk/utils.py:36-60 | corrected normalisation: the amounts sum to exactly `10**decimals`, and each lies strictly within one unit of its scaled weight |
| OrderIntent.ValidateOrderExact | python-sdk/python_sdk/utils.py:18-62 | corrected `validate_order`: the same errors under the same conditions (the first non-whitelisted key reported), and on success distinct keys and amounts summing to exactly `10**decimals` |
| FeeController.Clip | test/buffer_poc.py:91 | `np.clip`: inside the bounds when they are ordered, unchanged when already inside, the upper bound when the bounds cross |
| FeeController.Deadbanded | test/buffer_poc.py:76-78 | an error smaller than the deadband becomes 0, any other error is kept, and the magnitude never grows |
| FeeController.BlendBetween | test/buffer_poc.py:81-82 | a blend with a weight in [0, 1] lies between its two inputs |
| FeeController.BlendBounds | test/buffer_poc.py:81-82 | a blend with a weight in [0, 1] lies between the minimum and the maximum of its inputs |
| FeeController.Smoothed | test/buffer_poc.py:80-82 | the smoothed error lies between the new error and the previous smoothed error, and decays by `1 - alpha` when the error is zero |
| FeeController.RateLimited | test/buffer_poc.py:88-94 | the new fee is never negative and moves at most `max_change` from the previous fee; a target within reach is taken (floored at zero) |
| FeeController.ControllerStep | test/buffer_poc.py:72-97 | one call under given parameters: the smoothed error is the smoothing of the deadbanded error of the buffer ratio, and the fee is the rate-limited fee towards gain times that smoothed error |
| FeeController.ControllerStepProperties | test/buffer_poc.py:76-97 | what one step promises: the fee is never negative and moves by at most the step limit; an error inside the deadband only decays the smoothed error; the smoothed error lies between the deadbanded error and its previous value |
| FeeController.FeeStep | test/buffer_poc.py:73-94 | the statements of `calculate_fee_rate` on values compute exactly `ControllerStep` |
| FeeController.SmoothFeeController.constructor | test/buffer_poc.py:63-70 | the parameters are stored, and the previous fee and smoothed error start at 0 |
| FeeController.SmoothFeeController.CalculateFeeRate | test/buffer_poc.py:72-97 | updates only the smoothed error and the previous fee, as `ControllerStep` from the old values: the deadbanded, smoothed error; the rate-limited fee of gain 1, never negative and within `max_fee_change` of the previous fee; the returned fee becomes the previous fee |
| FeeController.SimpleFeeRate | test/buffer_poc.py:111-116 | never negative, positive exactly when the buffer ratio is below `balance_ratio`, and at least `balance_ratio - ratio` |
| FeeController.NextBuffer | test/buffer_poc.py:134 | the clamped buffer is never negative, never below the unclamped balance, and equal to it when positive |
| FeeController.EpochValues | test/buffer_poc.py:126-134 | one pass of the loop body under the script's parameters (tvl 1 000 000, target 0.005, step 0.0005, smoothing 0.1, deadband 0.001): the controller's call as `ControllerStep`, the simple fee, fees of `fee_rate * tvl` and the buffer clamped after the slippage cost |
| FeeController.EpochRecorded | test/buffer_poc.py:125-138 | epoch k of the histories is `EpochValues` from `buffer_over_time[k]` to `buffer_over_time[k + 1]`, with the previous fee `fee_rates[k - 1]` (0 for the first epoch) and the smoothed error before and after the call |
| FeeController.Recorded | test/buffer_poc.py:119-138 | the histories after some passes of the loop: one more buffer than epochs, starting from the initial buffer and a zero smoothed error, with every epoch so far recorded |
| FeeController.RateLimitedSeries | test/buffer_poc.py:88-94 | the fee series starts within `max_fee_change` of 0 and consecutive fees differ by at most `max_fee_change` |
| FeeController.ScriptEpoch | test/buffer_poc.py:99-106 | a controller built with the script's parameters (tvl 1 000 000, target 0.005, step 0.0005, smoothing 0.1, deadband 0.001), with the script's bookkeeping, makes one epoch as `EpochValues` states |
| FeeController.EpochRecordedLocal | test/buffer_poc.py:125-138 | whether an epoch is recorded depends only on that epoch's entries and the fee before it |
| FeeController.AppendKeepsEarlierEpochs | test/buffer_poc.py:135-138 | appending the next epoch's entries leaves every earlier epoch recorded |
| FeeController.AppendRecordsNextEpoch | test/buffer_poc.py:126-138 | appending the values of the next epoch records it |
| FeeController.RecordedAppend | test/buffer_poc.py:125-138 | one more pass of the loop keeps the histories recorded |
| FeeController.RecordedBuffersNonNegative | test/buffer_poc.py:134 | every buffer of recorded histories is non-negative |
| FeeController.RecordedFeesNonNegative | test/buffer_poc.py:94 | every controller fee of recorded histories is non-negative |
| FeeController.RecordedRateLimited | test/buffer_poc.py:88-94 | consecutive controller fees of recorded histories, starting from 0, differ by at most 0.0005 |
| FeeController.RunEpoch | test/buffer_poc.py:125-138 | one pass of the loop body on the live controller: each history gains exactly one entry, the histories stay `Recorded` with one more epoch (the controller's fee computed from the last buffer, the previous fee and the previous smoothed error, the simple fee, the fees and the clamped buffer), and the controller is left at the new fee and smoothed error |
| FeeController.Simulate | test/buffer_poc.py:37-138 | one entry per epoch (plus the initial buffer), and the controller's smoothed error before and after each epoch: each epoch's fee is what `calculate_fee_rate` computes from that epoch's buffer, the previous fee and the previous smoothed error; `fee * tvl` is collected, the simple fee is recorded and the buffer is clamped; every buffer and every fee is non-negative, and consecutive controller fees, starting from 0, differ by at most 0.0005 |

## Left out

- Floating point: weights, fees and buffers are exact reals. IEEE rounding in `sum`, in `/`, in `* 10**decimals`, and in `np.floor` of a float is not modelled. The counterexamples in Findings use weights that are exact in binary.
- `astype(int)` and int64 overflow of the floored values are not modelled; integers are unbounded.
- `random.randint(1, 10)` with its fixed seed: the draws are a parameter `dust`, required to lie in [1, 10] and to hold at least one draw per whitelisted vault.
- The on-chain lookups `is_whitelisted`, `get_whitelisted_vaults` and `get_curator_intent_decimals` (in `python-sdk/python_sdk/chain_interactions.py`) are parameters: a set of tokens, a list of vaults and a natural number. Checksum-address case normalisation of the keys is not modelled; tokens are compared as strings.
- `validate_order`: the function assigns into the caller's dictionary during the fuzz loop. That aliasing is not modelled; the model returns the padded intent as a new value.
- `round_with_fixed_sum` receives a NumPy array of `float64`; the model receives a sequence of reals.
- The slippage model of `test/buffer_poc.py` (normal and binomial draws, `np.random.seed`, the clip to ±0.001) is not modelled. `Simulate` takes the slippage series as a parameter, and the number of epochs is its length.
- The plots and the summary statistics printed at the end of `test/buffer_poc.py` are not modelled: they are output only.
- `FeeController.SmoothFeeController.CalculateFeeRate` requires a non-zero TVL. The Python code divides by it, and the division would raise `ZeroDivisionError`. It also requires `Valid()` (a non-negative previous fee), which the constructor establishes and every call keeps.
- `FeeController.SimpleFeeRate` requires a non-zero TVL for the same reason: `simple_fee_rate` divides by it (`test/buffer_poc.py:112`), and the `ZeroDivisionError` is not modelled. The script only calls it with a TVL of 1 000 000.
- The encrypted-intent path is not part of this model. It is a comment only, at `utils.py:15`.
- The CLI, FHE, IPFS upload and Rust files are not part of this model.
- `RoundWithFixedSum` and `ArgsortDescending`: `np.argsort` sorts with its default algorithm, which is not stable, so the model promises no order among equal fractional parts.
- `np.isclose(..., 1, atol=1e-10)` keeps its default `rtol=1e-5`, so the accepted band is |sum - 1| <= 1e-10 + 1e-5 (`SumIsClose`).
- `validate_order`'s default `fuzz=False` (`python-sdk/python_sdk/utils.py:18`) is not modelled: `ValidateOrder` takes `fuzz` explicitly, and its one caller passes it.
- `SmoothFeeController.__init__` has default arguments (`max_fee_change=0.001`, `smoothing_factor=0.1`, `deadband=0.001`, `test/buffer_poc.py:63`). The constructor takes all five parameters explicitly: the only call, at `test/buffer_poc.py:100-106`, passes all of them.

## Findings

| source | as written | input that shows it | evidently intended | confidence | as-written member | corrected member |
|---|---|---|---|---|---|---|
| python-sdk/python_sdk/utils.py:29-59 | `validate_order` accepts weights whose sum is only close to 1, and without `fuzz` it scales them unchanged. The remainder `10**d - sum(floors)` can then fall outside [0, n]. The slice `indices[:remainder]` clamps a large remainder and wraps a negative one, so the result does not sum to `10**d`. | `{A: 1 - 2^-17}` with 6 decimals gives `{A: 999993}`. `{A: 0.5, B: 0.5 + 2^-17}` gives `{A: 500000, B: 500007}`, a total of 1000007. | the amounts sum to exactly `10**decimals`, which holds once the weights are renormalised in both paths | not executed | OrderIntent.AcceptedIntentUnderTarget, OrderIntent.AcceptedIntentOverTarget | OrderIntent.ValidateOrderExact |

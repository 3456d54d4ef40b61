/**
 * The exploratory buffer/fee simulation: a smoothed, rate-limited
 * proportional fee controller, the simple proportional fee it is compared
 * with, and the loop that runs both against a slippage series while keeping
 * the buffer non-negative.
 *
 * Quantities are exact reals; float rounding is not modelled.
 */
module FeeController {

  function Abs(x: real): real
  {
    if x < 0.0 then -x else x
  }

  function Max(x: real, y: real): real
  {
    if x >= y then x else y
  }

  function Min(x: real, y: real): real
  {
    if x <= y then x else y
  }

  /**
   * `np.clip(x, lo, hi)`, which is `minimum(maximum(x, lo), hi)`: the result
   * lies in [lo, hi] when that interval is not empty, and is `x` when `x` is.
   */
  function Clip(x: real, lo: real, hi: real): (r: real)
    ensures lo <= hi ==> lo <= r <= hi
    ensures lo <= x <= hi ==> r == x
    ensures lo > hi ==> r == hi
  {
    Min(Max(x, lo), hi)
  }

  /** The error after the deadband: zero strictly inside the band, unchanged outside it. */
  function Deadbanded(error: real, deadband: real): (e: real)
    ensures Abs(error) < deadband ==> e == 0.0
    ensures Abs(error) >= deadband ==> e == error
    ensures Abs(e) <= Abs(error)
  {
    if Abs(error) < deadband then 0.0 else error
  }

  /** The weighted average `alpha * hi + (1 - alpha) * lo`. */
  function Blend(alpha: real, hi: real, lo: real): real
  {
    alpha * hi + (1.0 - alpha) * lo
  }

  /** With a weight in [0, 1], the average of `lo <= hi` lies in [lo, hi]. */
  lemma BlendBetween(alpha: real, hi: real, lo: real)
    requires 0.0 <= alpha <= 1.0 && lo <= hi
    ensures lo <= Blend(alpha, hi, lo) <= hi
  {
    var gap := hi - lo;
    var step := alpha * gap;
    FractionOf(alpha, gap);
    assert 0.0 <= step <= gap;
    assert alpha * hi + (1.0 - alpha) * lo == lo + step;
  }

  lemma BlendSwap(alpha: real, hi: real, lo: real)
    ensures Blend(alpha, hi, lo) == Blend(1.0 - alpha, lo, hi)
  {
  }

  lemma FractionOf(alpha: real, x: real)
    requires 0.0 <= alpha <= 1.0 && x >= 0.0
    ensures 0.0 <= alpha * x <= x
  {
    assert x - alpha * x == (1.0 - alpha) * x;
  }

  /**
   * Exponential smoothing `alpha * error + (1 - alpha) * previous`: with a
   * factor in [0, 1] the result lies between the new error and the previous
   * smoothed value; a zero error decays the previous value by `1 - alpha`.
   */
  function Smoothed(alpha: real, error: real, previous: real): (s: real)
    ensures 0.0 <= alpha <= 1.0 ==> Min(error, previous) <= s <= Max(error, previous)
    ensures error == 0.0 ==> s == (1.0 - alpha) * previous
  {
    BlendBounds(alpha, error, previous);
    Blend(alpha, error, previous)
  }

  /** With a weight in [0, 1], the average of two values lies between them, whichever is larger. */
  lemma BlendBounds(alpha: real, a: real, b: real)
    ensures 0.0 <= alpha <= 1.0 ==> Min(a, b) <= Blend(alpha, a, b) <= Max(a, b)
  {
    if 0.0 <= alpha <= 1.0 {
      if a >= b {
        BlendBetween(alpha, a, b);
      } else {
        BlendSwap(alpha, a, b);
        BlendBetween(1.0 - alpha, b, a);
      }
    }
  }

  /** The proportional gain `k` of the controller. */
  const Gain: real := 1.0

  /**
   * The fee after rate limiting and the floor at zero: never negative, never
   * more than `maxChange` away from the previous fee (when both are
   * non-negative), and equal to the (non-negative) target when the target is
   * within reach.
   */
  function RateLimited(previousFee: real, targetFee: real, maxChange: real): (fee: real)
    ensures fee >= 0.0
    ensures maxChange >= 0.0 && previousFee >= 0.0 ==>
      fee - previousFee <= maxChange && previousFee - fee <= maxChange
    ensures Abs(targetFee - previousFee) <= maxChange ==> fee == Max(0.0, targetFee)
  {
    var change := Clip(targetFee - previousFee, -maxChange, maxChange);
    Max(0.0, previousFee + change)
  }

  /**
   * One call of `calculate_fee_rate` under the given parameters, started at
   * `buffer` with `previousFee` and `smoothedBefore` (and a non-zero TVL): the deadbanded error of
   * the buffer ratio is smoothed into `smoothedAfter`, and `fee` is the
   * rate-limited fee towards `Gain * smoothedAfter`.
   */
  predicate ControllerStep(tvl: real, targetRatio: real, maxFeeChange: real, smoothingFactor: real, deadband: real,
                           buffer: real, previousFee: real, smoothedBefore: real, smoothedAfter: real, fee: real)
  {
    && tvl != 0.0
    && smoothedAfter == Smoothed(smoothingFactor, Deadbanded(targetRatio - buffer / tvl, deadband), smoothedBefore)
    && fee == RateLimited(previousFee, Gain * smoothedAfter, maxFeeChange)
  }

  /**
   * What one call promises: the fee is never negative and, for a
   * non-negative previous fee and step limit, moves by at most the limit; an
   * error inside the deadband only decays the smoothed error; and the
   * smoothed error lies between the deadbanded error and its previous value.
   */
  lemma ControllerStepProperties(tvl: real, targetRatio: real, maxFeeChange: real, smoothingFactor: real,
                                 deadband: real, buffer: real, previousFee: real, smoothedBefore: real,
                                 smoothedAfter: real, fee: real)
    requires ControllerStep(tvl, targetRatio, maxFeeChange, smoothingFactor, deadband,
                            buffer, previousFee, smoothedBefore, smoothedAfter, fee)
    ensures fee >= 0.0
    ensures maxFeeChange >= 0.0 && previousFee >= 0.0 ==>
      fee - previousFee <= maxFeeChange && previousFee - fee <= maxFeeChange
    ensures Abs(targetRatio - buffer / tvl) < deadband ==> smoothedAfter == (1.0 - smoothingFactor) * smoothedBefore
    ensures 0.0 <= smoothingFactor <= 1.0 ==>
      var error := Deadbanded(targetRatio - buffer / tvl, deadband);
      Min(error, smoothedBefore) <= smoothedAfter <= Max(error, smoothedBefore)
  {
    var error := Deadbanded(targetRatio - buffer / tvl, deadband);
    assert smoothedAfter == Smoothed(smoothingFactor, error, smoothedBefore);
    assert fee == RateLimited(previousFee, Gain * smoothedAfter, maxFeeChange);
  }

  /**
   * The arithmetic of `calculate_fee_rate` on values: from the controller's
   * parameters, the buffer, the previous fee and the previous smoothed error
   * to the new smoothed error and the new fee.
   */
  method FeeStep(tvl: real, targetRatio: real, maxFeeChange: real, smoothingFactor: real, deadband: real,
                 currentBuffer: real, previous: real, smoothedBefore: real)
    returns (smoothed: real, newFee: real)
    requires tvl != 0.0
    ensures ControllerStep(tvl, targetRatio, maxFeeChange, smoothingFactor, deadband,
                           currentBuffer, previous, smoothedBefore, smoothed, newFee)
  {
    var bufferRatio := currentBuffer / tvl;
    var error := targetRatio - bufferRatio;
    if Abs(error) < deadband {
      error := 0.0;
    }
    assert error == Deadbanded(targetRatio - currentBuffer / tvl, deadband);
    smoothed := smoothingFactor * error + (1.0 - smoothingFactor) * smoothedBefore;
    assert smoothed == Smoothed(smoothingFactor, error, smoothedBefore);
    var targetFee := Gain * smoothed;
    var maxChange := maxFeeChange;
    var feeChange := targetFee - previous;
    feeChange := Clip(feeChange, -maxChange, maxChange);
    newFee := previous + feeChange;
    newFee := Max(0.0, newFee);
    assert newFee == RateLimited(previous, targetFee, maxChange);
  }

  /** `SmoothFeeController`: fixed parameters, and the two fields each call updates. */
  class SmoothFeeController {
    var tvl: real
    var targetRatio: real
    var maxFeeChange: real
    var smoothingFactor: real
    var deadband: real
    var previousFee: real
    var smoothedError: real

    /** The fee the controller last returned is never negative. */
    predicate Valid()
      reads this
    {
      previousFee >= 0.0
    }

    constructor (tvl: real, targetRatio: real, maxFeeChange: real, smoothingFactor: real, deadband: real)
      ensures Valid()
      ensures this.tvl == tvl && this.targetRatio == targetRatio && this.maxFeeChange == maxFeeChange
      ensures this.smoothingFactor == smoothingFactor && this.deadband == deadband
      ensures previousFee == 0.0 && smoothedError == 0.0
    {
      this.tvl := tvl;
      this.targetRatio := targetRatio;
      this.maxFeeChange := maxFeeChange;
      this.smoothingFactor := smoothingFactor;
      this.deadband := deadband;
      previousFee := 0.0;
      smoothedError := 0.0;
    }

    /**
     * `calculate_fee_rate(current_buffer)`: deadband the error between the
     * target ratio and the buffer ratio, smooth it into `smoothedError`, take
     * it as the target fee, rate-limit the change from the previous fee,
     * floor at zero, and store the result as `previousFee`.
     */
    method CalculateFeeRate(currentBuffer: real) returns (newFee: real)
      requires Valid() && tvl != 0.0
      modifies this`smoothedError, this`previousFee
      ensures ControllerStep(tvl, targetRatio, maxFeeChange, smoothingFactor, deadband,
                             currentBuffer, old(previousFee), old(smoothedError), smoothedError, newFee)
      ensures previousFee == newFee && newFee >= 0.0 && Valid()
      ensures maxFeeChange >= 0.0 ==>
        newFee - old(previousFee) <= maxFeeChange && old(previousFee) - newFee <= maxFeeChange
      ensures Abs(targetRatio - currentBuffer / tvl) < deadband ==>
        smoothedError == (1.0 - smoothingFactor) * old(smoothedError)
      ensures 0.0 <= smoothingFactor <= 1.0 ==>
        var error := Deadbanded(targetRatio - currentBuffer / tvl, deadband);
        Min(error, old(smoothedError)) <= smoothedError <= Max(error, old(smoothedError))
    {
      var previous, smoothedBefore := previousFee, smoothedError;
      var smoothed;
      smoothed, newFee := FeeStep(tvl, targetRatio, maxFeeChange, smoothingFactor, deadband,
                                  currentBuffer, previous, smoothedBefore);
      ControllerStepProperties(tvl, targetRatio, maxFeeChange, smoothingFactor, deadband,
                               currentBuffer, previous, smoothedBefore, smoothed, newFee);
      smoothedError, previousFee := smoothed, newFee;
    }
  }

  // ---------------------------------------------------------------------------
  // The simulation script
  // ---------------------------------------------------------------------------

  const Tvl: real := 1000000.0
  /** `balance_ratio`, which is also the target `x_star` of the simple fee. */
  const BalanceRatio: real := 0.005
  const InitialBuffer: real := BalanceRatio * Tvl
  const MaxFeeChange: real := 0.0005
  const SmoothingFactor: real := 0.1
  const Deadband: real := 0.001

  /**
   * `simple_fee_rate(current_buffer, tvl)`: `x_star - buffer / tvl` floored at
   * zero, so it is never negative and positive exactly when the buffer ratio
   * is below the target.
   */
  function SimpleFeeRate(currentBuffer: real, tvl: real): (fee: real)
    requires tvl != 0.0
    ensures fee >= 0.0
    ensures fee > 0.0 <==> currentBuffer / tvl < BalanceRatio
    ensures fee >= BalanceRatio - currentBuffer / tvl
  {
    var bufferRatio := currentBuffer / tvl;
    var fee := 1.0 * (BalanceRatio - bufferRatio);
    Max(0.0, fee)
  }

  /**
   * One step of the buffer, `max(current + fees - slippage_cost, 0)`: never
   * negative, and the unclamped balance whenever that is positive.
   */
  function NextBuffer(currentBuffer: real, fees: real, slippageCost: real): (b: real)
    ensures b >= 0.0
    ensures b >= currentBuffer + fees - slippageCost
    ensures b > 0.0 ==> b == currentBuffer + fees - slippageCost
  {
    Max(currentBuffer + fees - slippageCost, 0.0)
  }

  /**
   * One epoch of the simulation: started at `buffer` with the controller at
   * `previousFee` and `smoothedBefore`, the controller's call yields
   * `smoothedAfter` and `feeRate`; the fees are `feeRate * tvl`, the simple fee
   * is recorded beside it, and the buffer moves to its clamped next value.
   * The script's parameters (`Tvl`, `BalanceRatio`, `MaxFeeChange`,
   * `SmoothingFactor`, `Deadband`) appear here as their literal values, which
   * keeps every product with them linear for the verifier.
   */
  predicate EpochValues(buffer: real, nextBuffer: real, fees: real, feeRate: real, originalFeeRate: real,
                        slippage: real, previousFee: real, smoothedBefore: real, smoothedAfter: real)
  {
    && ControllerStep(1000000.0, 0.005, 0.0005, 0.1, 0.001,
                      buffer, previousFee, smoothedBefore, smoothedAfter, feeRate)
    && fees == feeRate * 1000000.0
    && originalFeeRate == SimpleFeeRate(buffer, 1000000.0)
    && nextBuffer == NextBuffer(buffer, fees, slippage * 1000000.0)
  }

  /** A controller built with the script's parameters, and the script's bookkeeping, make one epoch. */
  lemma ScriptEpoch(tvl: real, targetRatio: real, maxFeeChange: real, smoothingFactor: real, deadband: real,
                    buffer: real, nextBuffer: real, fees: real, feeRate: real, originalFeeRate: real,
                    slippage: real, previousFee: real, smoothedBefore: real, smoothedAfter: real)
    requires tvl == Tvl && targetRatio == BalanceRatio && maxFeeChange == MaxFeeChange
    requires smoothingFactor == SmoothingFactor && deadband == Deadband
    requires ControllerStep(tvl, targetRatio, maxFeeChange, smoothingFactor, deadband,
                            buffer, previousFee, smoothedBefore, smoothedAfter, feeRate)
    requires fees == feeRate * Tvl && originalFeeRate == SimpleFeeRate(buffer, Tvl)
    requires nextBuffer == NextBuffer(buffer, fees, slippage * Tvl)
    ensures EpochValues(buffer, nextBuffer, fees, feeRate, originalFeeRate, slippage,
                        previousFee, smoothedBefore, smoothedAfter)
  {
  }

  /** What epoch `k` of the simulation records, the controller starting from fee 0. */
  predicate EpochRecorded(bufferOverTime: seq<real>, feesCollected: seq<real>, feeRates: seq<real>,
                          originalFeeRates: seq<real>, smoothed: seq<real>, slippageSeries: seq<real>, k: nat)
    requires k + 1 < |bufferOverTime| && k < |feesCollected| && k < |feeRates|
    requires k < |originalFeeRates| && k + 1 < |smoothed| && k < |slippageSeries|
  {
    EpochValues(bufferOverTime[k], bufferOverTime[k + 1], feesCollected[k], feeRates[k], originalFeeRates[k],
                slippageSeries[k], if k == 0 then 0.0 else feeRates[k - 1], smoothed[k], smoothed[k + 1])
  }

  /**
   * The histories after `|feesCollected|` epochs of the simulation: the
   * initial buffer, the controller's initial smoothed error 0, and every
   * epoch recorded.
   */
  predicate Recorded(bufferOverTime: seq<real>, feesCollected: seq<real>, feeRates: seq<real>,
                     originalFeeRates: seq<real>, smoothed: seq<real>, slippageSeries: seq<real>)
  {
    && |bufferOverTime| == |feesCollected| + 1 == |smoothed|
    && |feeRates| == |feesCollected| && |originalFeeRates| == |feesCollected|
    && |feesCollected| <= |slippageSeries|
    && bufferOverTime[0] == InitialBuffer && smoothed[0] == 0.0
    && forall k :: 0 <= k < |feesCollected| ==>
         EpochRecorded(bufferOverTime, feesCollected, feeRates, originalFeeRates, smoothed, slippageSeries, k)
  }

  /** Whether epoch `k` is recorded depends only on the entries of epoch `k` (and the fee before it). */
  lemma EpochRecordedLocal(b: seq<real>, f: seq<real>, r: seq<real>, o: seq<real>, sm: seq<real>,
                           b': seq<real>, f': seq<real>, r': seq<real>, o': seq<real>, sm': seq<real>,
                           slippageSeries: seq<real>, k: nat)
    requires k + 1 < |b| && k < |f| && k < |r| && k < |o| && k + 1 < |sm| && k < |slippageSeries|
    requires k + 1 < |b'| && k < |f'| && k < |r'| && k < |o'| && k + 1 < |sm'|
    requires b'[k] == b[k] && b'[k + 1] == b[k + 1] && f'[k] == f[k] && r'[k] == r[k] && o'[k] == o[k]
    requires sm'[k] == sm[k] && sm'[k + 1] == sm[k + 1] && (k > 0 ==> r'[k - 1] == r[k - 1])
    ensures EpochRecorded(b', f', r', o', sm', slippageSeries, k) == EpochRecorded(b, f, r, o, sm, slippageSeries, k)
  {
  }

  /** Appending one more epoch's entries leaves the earlier epochs recorded. */
  lemma AppendKeepsEarlierEpochs(b: seq<real>, f: seq<real>, r: seq<real>, o: seq<real>, sm: seq<real>,
                                 slippageSeries: seq<real>,
                                 nextBuffer: real, fees: real, feeRate: real, originalFeeRate: real, smoothedAfter: real)
    requires Recorded(b, f, r, o, sm, slippageSeries)
    ensures forall k :: 0 <= k < |f| ==>
      EpochRecorded(b + [nextBuffer], f + [fees], r + [feeRate], o + [originalFeeRate], sm + [smoothedAfter],
                    slippageSeries, k)
  {
    forall k | 0 <= k < |f|
      ensures EpochRecorded(b + [nextBuffer], f + [fees], r + [feeRate], o + [originalFeeRate], sm + [smoothedAfter],
                            slippageSeries, k)
    {
      EpochRecordedLocal(b, f, r, o, sm, b + [nextBuffer], f + [fees], r + [feeRate], o + [originalFeeRate],
                         sm + [smoothedAfter], slippageSeries, k);
    }
  }

  /** Appending the entries of the next epoch records that epoch. */
  lemma AppendRecordsNextEpoch(b: seq<real>, f: seq<real>, r: seq<real>, o: seq<real>, sm: seq<real>,
                               slippageSeries: seq<real>,
                               nextBuffer: real, fees: real, feeRate: real, originalFeeRate: real, smoothedAfter: real)
    requires |b| == |f| + 1 == |sm| && |r| == |f| && |o| == |f| && |f| < |slippageSeries|
    requires EpochValues(b[|f|], nextBuffer, fees, feeRate, originalFeeRate, slippageSeries[|f|],
                         if |f| == 0 then 0.0 else r[|f| - 1], sm[|f|], smoothedAfter)
    ensures EpochRecorded(b + [nextBuffer], f + [fees], r + [feeRate], o + [originalFeeRate], sm + [smoothedAfter],
                          slippageSeries, |f|)
  {
    var n := |f|;
    assert (b + [nextBuffer])[n] == b[n] && (b + [nextBuffer])[n + 1] == nextBuffer;
    assert (sm + [smoothedAfter])[n] == sm[n] && (sm + [smoothedAfter])[n + 1] == smoothedAfter;
    assert n > 0 ==> (r + [feeRate])[n - 1] == r[n - 1];
  }

  /** Appending one more epoch's values keeps the histories recorded. */
  lemma RecordedAppend(bufferOverTime: seq<real>, feesCollected: seq<real>, feeRates: seq<real>,
                       originalFeeRates: seq<real>, smoothed: seq<real>, slippageSeries: seq<real>,
                       nextBuffer: real, fees: real, feeRate: real, originalFeeRate: real, smoothedAfter: real)
    requires Recorded(bufferOverTime, feesCollected, feeRates, originalFeeRates, smoothed, slippageSeries)
    requires |feesCollected| < |slippageSeries|
    requires EpochValues(bufferOverTime[|feesCollected|], nextBuffer, fees, feeRate, originalFeeRate,
                         slippageSeries[|feesCollected|],
                         if |feesCollected| == 0 then 0.0 else feeRates[|feesCollected| - 1],
                         smoothed[|feesCollected|], smoothedAfter)
    ensures Recorded(bufferOverTime + [nextBuffer], feesCollected + [fees], feeRates + [feeRate],
                     originalFeeRates + [originalFeeRate], smoothed + [smoothedAfter], slippageSeries)
  {
    AppendKeepsEarlierEpochs(bufferOverTime, feesCollected, feeRates, originalFeeRates, smoothed, slippageSeries,
                             nextBuffer, fees, feeRate, originalFeeRate, smoothedAfter);
    AppendRecordsNextEpoch(bufferOverTime, feesCollected, feeRates, originalFeeRates, smoothed, slippageSeries,
                           nextBuffer, fees, feeRate, originalFeeRate, smoothedAfter);
  }

  /** Every buffer of recorded histories is non-negative: the initial one, and each clamped one. */
  lemma RecordedBuffersNonNegative(bufferOverTime: seq<real>, feesCollected: seq<real>, feeRates: seq<real>,
                                   originalFeeRates: seq<real>, smoothed: seq<real>, slippageSeries: seq<real>)
    requires Recorded(bufferOverTime, feesCollected, feeRates, originalFeeRates, smoothed, slippageSeries)
    ensures forall k :: 0 <= k < |bufferOverTime| ==> bufferOverTime[k] >= 0.0
  {
    forall k | 0 < k < |bufferOverTime|
      ensures bufferOverTime[k] >= 0.0
    {
      assert EpochRecorded(bufferOverTime, feesCollected, feeRates, originalFeeRates, smoothed, slippageSeries, k - 1);
    }
  }

  /** The controller fees of recorded histories are non-negative. */
  lemma RecordedFeesNonNegative(bufferOverTime: seq<real>, feesCollected: seq<real>, feeRates: seq<real>,
                                originalFeeRates: seq<real>, smoothed: seq<real>, slippageSeries: seq<real>)
    requires Recorded(bufferOverTime, feesCollected, feeRates, originalFeeRates, smoothed, slippageSeries)
    ensures forall k :: 0 <= k < |feeRates| ==> feeRates[k] >= 0.0
  {
    forall k | 0 <= k < |feeRates|
      ensures feeRates[k] >= 0.0
    {
      assert EpochRecorded(bufferOverTime, feesCollected, feeRates, originalFeeRates, smoothed, slippageSeries, k);
    }
  }

  /**
   * Consecutive controller fees of recorded histories, starting from the
   * initial fee 0, differ by at most `MaxFeeChange`.
   */
  lemma RecordedRateLimited(bufferOverTime: seq<real>, feesCollected: seq<real>, feeRates: seq<real>,
                            originalFeeRates: seq<real>, smoothed: seq<real>, slippageSeries: seq<real>)
    requires Recorded(bufferOverTime, feesCollected, feeRates, originalFeeRates, smoothed, slippageSeries)
    ensures RateLimitedSeries(feeRates)
  {
    RecordedFeesNonNegative(bufferOverTime, feesCollected, feeRates, originalFeeRates, smoothed, slippageSeries);
    if |feeRates| > 0 {
      assert EpochRecorded(bufferOverTime, feesCollected, feeRates, originalFeeRates, smoothed, slippageSeries, 0);
    }
    forall k | 0 < k < |feeRates|
      ensures WithinMaxChange(feeRates[k - 1], feeRates[k])
    {
      assert EpochRecorded(bufferOverTime, feesCollected, feeRates, originalFeeRates, smoothed, slippageSeries, k);
    }
  }

  /** Consecutive fee rates, starting from the initial fee 0, differ by at most `MaxFeeChange`. */
  predicate RateLimitedSeries(feeRates: seq<real>)
  {
    && (|feeRates| > 0 ==> WithinMaxChange(0.0, feeRates[0]))
    && forall k :: 0 < k < |feeRates| ==> WithinMaxChange(feeRates[k - 1], feeRates[k])
  }

  predicate WithinMaxChange(before: real, after: real)
  {
    after - before <= MaxFeeChange && before - after <= MaxFeeChange
  }

  /**
   * One pass of the simulation loop's body on a controller built with the
   * script's parameters: the controller's fee for the last buffer (which
   * updates the controller), the simple fee, the fees collected and the
   * clamped buffer, each appended to its history. The histories stay
   * recorded, with one more epoch.
   */
  method RunEpoch(controller: SmoothFeeController, slippageSeries: seq<real>,
                  buffers: seq<real>, fees: seq<real>, rates: seq<real>, simpleRates: seq<real>,
                  ghost smoothed: seq<real>)
    returns (buffers': seq<real>, fees': seq<real>, rates': seq<real>, simpleRates': seq<real>,
             ghost smoothed': seq<real>)
    requires controller.tvl == Tvl && controller.targetRatio == BalanceRatio
    requires controller.maxFeeChange == MaxFeeChange && controller.smoothingFactor == SmoothingFactor
    requires controller.deadband == Deadband
    requires Recorded(buffers, fees, rates, simpleRates, smoothed, slippageSeries) && |fees| < |slippageSeries|
    requires controller.previousFee == (if |fees| == 0 then 0.0 else rates[|fees| - 1])
    requires controller.smoothedError == smoothed[|fees|]
    modifies controller`smoothedError, controller`previousFee
    ensures Recorded(buffers', fees', rates', simpleRates', smoothed', slippageSeries) && |fees'| == |fees| + 1
    ensures buffers' == buffers + [buffers'[|buffers|]] && fees' == fees + [fees'[|fees|]]
    ensures rates' == rates + [rates'[|rates|]] && simpleRates' == simpleRates + [simpleRates'[|simpleRates|]]
    ensures smoothed' == smoothed + [smoothed'[|smoothed|]]
    ensures controller.previousFee == rates'[|fees|] && controller.smoothedError == smoothed'[|fees| + 1]
  {
    var currentBuffer := buffers[|buffers| - 1];
    var slippage := slippageSeries[|fees|];
    ghost var previousFee, smoothedBefore := controller.previousFee, controller.smoothedError;
    RecordedFeesNonNegative(buffers, fees, rates, simpleRates, smoothed, slippageSeries);
    var feeRate := controller.CalculateFeeRate(currentBuffer);
    var originalFeeRate := SimpleFeeRate(currentBuffer, Tvl);
    var collected := feeRate * Tvl;
    var totalSlippageCost := slippage * Tvl;
    var newBuffer := NextBuffer(currentBuffer, collected, totalSlippageCost);
    ScriptEpoch(controller.tvl, controller.targetRatio, controller.maxFeeChange, controller.smoothingFactor,
                controller.deadband, currentBuffer, newBuffer, collected, feeRate, originalFeeRate, slippage,
                previousFee, smoothedBefore, controller.smoothedError);
    RecordedAppend(buffers, fees, rates, simpleRates, smoothed, slippageSeries,
                   newBuffer, collected, feeRate, originalFeeRate, controller.smoothedError);
    buffers', fees', rates', simpleRates' := buffers + [newBuffer], fees + [collected], rates + [feeRate],
                                             simpleRates + [originalFeeRate];
    smoothed' := smoothed + [controller.smoothedError];
  }

  /**
   * The simulation loop over a given slippage series: one controller fee and
   * one simple fee per epoch, and the buffer after each. Each controller fee
   * is the one `calculate_fee_rate` computes from that epoch's buffer; the
   * controller's smoothed error before and after each epoch is returned in
   * `smoothed`. The buffer stays non-negative, every fee is non-negative, and
   * consecutive controller fees (starting from 0) differ by at most the
   * maximum fee change.
   */
  method Simulate(slippageSeries: seq<real>)
    returns (bufferOverTime: seq<real>, feesCollected: seq<real>, feeRates: seq<real>, originalFeeRates: seq<real>,
             ghost smoothed: seq<real>)
    ensures |bufferOverTime| == |slippageSeries| + 1 && bufferOverTime[0] == InitialBuffer
    ensures |feesCollected| == |feeRates| == |originalFeeRates| == |slippageSeries|
    ensures |smoothed| == |slippageSeries| + 1 && smoothed[0] == 0.0
    ensures forall k :: 0 <= k < |slippageSeries| ==>
      EpochRecorded(bufferOverTime, feesCollected, feeRates, originalFeeRates, smoothed, slippageSeries, k)
    ensures forall k :: 0 <= k < |bufferOverTime| ==> bufferOverTime[k] >= 0.0
    ensures forall k :: 0 <= k < |feeRates| ==> feeRates[k] >= 0.0
    ensures RateLimitedSeries(feeRates)
  {
    var controller := new SmoothFeeController(Tvl, BalanceRatio, MaxFeeChange, SmoothingFactor, Deadband);
    bufferOverTime := [InitialBuffer];
    feesCollected, feeRates, originalFeeRates := [], [], [];
    smoothed := [0.0];
    for i := 0 to |slippageSeries|
      invariant controller.tvl == Tvl && controller.targetRatio == BalanceRatio
      invariant controller.maxFeeChange == MaxFeeChange && controller.smoothingFactor == SmoothingFactor
      invariant controller.deadband == Deadband
      invariant |feesCollected| == i
      invariant Recorded(bufferOverTime, feesCollected, feeRates, originalFeeRates, smoothed, slippageSeries)
      invariant controller.previousFee == if i == 0 then 0.0 else feeRates[i - 1]
      invariant controller.smoothedError == smoothed[i]
    {
      bufferOverTime, feesCollected, feeRates, originalFeeRates, smoothed :=
        RunEpoch(controller, slippageSeries, bufferOverTime, feesCollected, feeRates, originalFeeRates, smoothed);
    }
    RecordedBuffersNonNegative(bufferOverTime, feesCollected, feeRates, originalFeeRates, smoothed, slippageSeries);
    RecordedFeesNonNegative(bufferOverTime, feesCollected, feeRates, originalFeeRates, smoothed, slippageSeries);
    RecordedRateLimited(bufferOverTime, feesCollected, feeRates, originalFeeRates, smoothed, slippageSeries);
  }
}

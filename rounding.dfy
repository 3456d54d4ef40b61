/**
 * Largest-remainder (Hamilton) rounding of a list of reals to integers with a
 * prescribed total, as done by `round_with_fixed_sum` in the SDK's utilities.
 *
 * Values are exact reals; the float64 arithmetic of numpy is not modelled.
 */
module Rounding {
  import opened Wrappers

  // ---------------------------------------------------------------------------
  // Sums, floors and fractional parts
  // ---------------------------------------------------------------------------

  function SumReal(s: seq<real>): real
    decreases |s|
  {
    if |s| == 0 then 0.0 else SumReal(s[..|s| - 1]) + s[|s| - 1]
  }

  function SumInt(s: seq<int>): int
    decreases |s|
  {
    if |s| == 0 then 0 else SumInt(s[..|s| - 1]) + s[|s| - 1]
  }

  /** `np.floor(values).astype(int)` on exact reals. */
  function Floors(values: seq<real>): (f: seq<int>)
    ensures |f| == |values|
    ensures forall i :: 0 <= i < |values| ==> f[i] as real <= values[i] < f[i] as real + 1.0
  {
    seq(|values|, i requires 0 <= i < |values| => values[i].Floor)
  }

  /** The fractional part `x - floor(x)`, which lies in [0, 1). */
  function Frac(x: real): (r: real)
    ensures 0.0 <= r < 1.0
    ensures (x - r).Floor as real == x - r
  {
    x - x.Floor as real
  }

  /**
   * Python's built-in `round` on a number: to the nearest integer, with a tie
   * going to the even neighbour.
   */
  function RoundHalfEven(x: real): (r: int)
    ensures -0.5 <= r as real - x <= 0.5
    ensures (r as real - x == 0.5 || r as real - x == -0.5) ==> r % 2 == 0
  {
    var f := x.Floor;
    var d := x - f as real;
    if d < 0.5 then f
    else if d > 0.5 then f + 1
    else if f % 2 == 0 then f
    else f + 1
  }

  /**
   * The number of leading elements that the Python slice `xs[:stop]` keeps
   * from a list of length `n`: a negative `stop` counts from the end, and any
   * bound is clamped to the list.
   */
  function SliceLength(stop: int, n: nat): (k: nat)
    ensures k <= n
    ensures 0 <= stop <= n ==> k == stop
    ensures stop > n ==> k == n
    ensures stop < 0 ==> k == if n + stop < 0 then 0 else n + stop
  {
    if stop >= 0 then (if stop <= n then stop else n)
    else if n + stop < 0 then 0
    else n + stop
  }

  // ---------------------------------------------------------------------------
  // What a correct result of round_with_fixed_sum is
  // ---------------------------------------------------------------------------

  /** The sum the rounding aims at: the given one, else the rounded total. */
  function TargetOf(values: seq<real>, targetSum: Option<int>): (t: int)
    ensures targetSum.Some? ==> t == targetSum.value
    ensures targetSum.None? ==> -0.5 <= t as real - SumReal(values) <= 0.5
  {
    match targetSum
    case Some(t) => t
    case None => RoundHalfEven(SumReal(values))
  }

  /** The number of units to hand out after flooring: `target - sum(floor(values))`. */
  function Remainder(values: seq<real>, target: int): (r: int)
    ensures target as real - SumReal(values) <= r as real
    ensures |values| > 0 ==> r as real < target as real - SumReal(values) + |values| as real
  {
    SumSplitsIntoFloorsAndFracs(values);
    FracSumBelowLength(values);
    target - SumInt(Floors(values))
  }

  /** Entry `i` of `result` is its value's floor plus one. */
  predicate Raised(values: seq<real>, result: seq<int>, i: nat)
    requires |result| == |values| && i < |values|
  {
    result[i] == values[i].Floor + 1
  }

  /** How many entries of `result` are their value's floor plus one. */
  function CountRaised(values: seq<real>, result: seq<int>): (c: nat)
    requires |result| == |values|
    ensures c <= |values|
    decreases |values|
  {
    if |values| == 0 then 0
    else
      CountRaised(values[..|values| - 1], result[..|result| - 1])
      + (if Raised(values, result, |values| - 1) then 1 else 0)
  }

  /**
   * `result` is a largest-remainder rounding of `values` towards `target`:
   * same length, each entry the floor or the floor plus one of its value, as
   * many raised entries as the slice `indices[:remainder]` keeps, and no
   * raised entry with a smaller fractional part than an entry left at its
   * floor. Nothing is said about how ties are broken.
   */
  predicate IsLargestRemainder(values: seq<real>, target: int, result: seq<int>)
  {
    && |result| == |values|
    && (forall i :: 0 <= i < |values| ==>
          result[i] == values[i].Floor || result[i] == values[i].Floor + 1)
    && CountRaised(values, result) == SliceLength(Remainder(values, target), |values|)
    && (forall i, j ::
          (0 <= i < |values| && 0 <= j < |values| &&
           Raised(values, result, i) && !Raised(values, result, j)) ==>
          Frac(values[i]) >= Frac(values[j]))
  }

  // ---------------------------------------------------------------------------
  // The algorithm
  // ---------------------------------------------------------------------------

  /** `order` lists every index below `n` exactly once. */
  predicate IsIndexPermutation(order: seq<nat>, n: nat)
  {
    && |order| == n
    && (forall a :: 0 <= a < n ==> order[a] < n)
    && (forall a, b :: 0 <= a < b < n ==> order[a] != order[b])
    && (forall j :: 0 <= j < n ==> j in order)
  }

  /**
   * `np.argsort(-keys)`: the indices of `keys` ordered by descending key.
   * numpy's default sort is not stable, so the contract says nothing about
   * the relative order of equal keys.
   */
  method ArgsortDescending(keys: seq<real>) returns (order: seq<nat>)
    ensures IsIndexPermutation(order, |keys|)
    ensures forall a, b :: 0 <= a < b < |keys| ==> keys[order[a]] >= keys[order[b]]
  {
    order := [];
    for i := 0 to |keys|
      invariant IsIndexPermutation(order, i)
      invariant forall a, b :: 0 <= a < b < i ==> keys[order[a]] >= keys[order[b]]
    {
      var p := 0;
      while p < |order| && keys[order[p]] >= keys[i]
        invariant 0 <= p <= |order|
        invariant forall a :: 0 <= a < p ==> keys[order[a]] >= keys[i]
      {
        p := p + 1;
      }
      InsertKeepsPermutation(order, i, p);
      InsertKeepsDescending(keys, order, i, p);
      order := order[..p] + [i] + order[p..];
    }
  }

  /** Inserting the next index anywhere keeps a permutation of the indices seen so far. */
  lemma InsertKeepsPermutation(order: seq<nat>, i: nat, p: nat)
    requires IsIndexPermutation(order, i) && p <= i
    ensures IsIndexPermutation(order[..p] + [i] + order[p..], i + 1)
  {
    var next := order[..p] + [i] + order[p..];
    assert forall a :: 0 <= a < |next| ==>
      next[a] == if a < p then order[a] else if a == p then i else order[a - 1];
    forall j | 0 <= j < i + 1
      ensures j in next
    {
      if j < i {
        assert j in order;
        var a :| 0 <= a < |order| && order[a] == j;
        assert next[if a < p then a else a + 1] == j;
      } else {
        assert next[p] == j;
      }
    }
  }

  /**
   * Inserting index `i` after every key at least as large as its own, and
   * before the first smaller one, keeps the order descending.
   */
  lemma InsertKeepsDescending(keys: seq<real>, order: seq<nat>, i: nat, p: nat)
    requires i < |keys| && p <= |order|
    requires forall a :: 0 <= a < |order| ==> order[a] < |keys|
    requires forall a, b :: 0 <= a < b < |order| ==> keys[order[a]] >= keys[order[b]]
    requires forall a :: 0 <= a < p ==> keys[order[a]] >= keys[i]
    requires p < |order| ==> keys[order[p]] < keys[i]
    ensures forall a, b :: 0 <= a < b < |order| + 1 ==>
      keys[(order[..p] + [i] + order[p..])[a]] >= keys[(order[..p] + [i] + order[p..])[b]]
  {
    var next := order[..p] + [i] + order[p..];
    assert forall a :: 0 <= a < |next| ==>
      next[a] == if a < p then order[a] else if a == p then i else order[a - 1];
  }

  /** One more raised entry, at a slot that was at its floor, raises the count by one. */
  lemma {:induction false} CountRaisedBump(values: seq<real>, result: seq<int>, j: nat)
    requires |result| == |values| && j < |values|
    requires result[j] == values[j].Floor
    ensures CountRaised(values, result[j := values[j].Floor + 1]) == CountRaised(values, result) + 1
    decreases |values|
  {
    var n := |values|;
    var bumped := result[j := values[j].Floor + 1];
    if j < n - 1 {
      assert bumped[..n - 1] == result[..n - 1][j := values[j].Floor + 1];
      CountRaisedBump(values[..n - 1], result[..n - 1], j);
    } else {
      assert bumped[..n - 1] == result[..n - 1];
    }
  }

  /**
   * `result = floored.copy(); result[indices[:k]] += 1`: copy the floors and
   * add one unit in place to each of the first `k` slots of `indices`.
   */
  method RaiseFirst(values: seq<real>, indices: seq<nat>, k: nat) returns (result: seq<int>)
    requires IsIndexPermutation(indices, |values|) && k <= |values|
    ensures |result| == |values|
    ensures forall j :: 0 <= j < |values| ==>
      result[j] == values[j].Floor + (if j in indices[..k] then 1 else 0)
    ensures CountRaised(values, result) == k
  {
    var n := |values|;
    var floored := Floors(values);
    var res := new int[n](i requires 0 <= i < n => floored[i]);
    FloorsRaiseNothing(values);
    assert res[..] == floored;
    for t := 0 to k
      invariant forall j :: 0 <= j < n ==>
        res[j] == floored[j] + (if j in indices[..t] then 1 else 0)
      invariant CountRaised(values, res[..]) == t
    {
      var slot := indices[t];
      assert slot !in indices[..t];
      assert res[slot] == floored[slot];
      CountRaisedBump(values, res[..], slot);
      res[slot] := res[slot] + 1;
      assert indices[..t + 1] == indices[..t] + [slot];
    }
    result := res[..];
  }

  /**
   * Raising the first `k` indices of a descending order of fractional parts
   * never raises a smaller fractional part than one it leaves.
   */
  lemma RaisedFirstAreLargest(values: seq<real>, indices: seq<nat>, k: nat, result: seq<int>)
    requires IsIndexPermutation(indices, |values|) && k <= |values|
    requires forall a, b :: 0 <= a < b < |values| ==> Frac(values[indices[a]]) >= Frac(values[indices[b]])
    requires |result| == |values|
    requires forall j :: 0 <= j < |values| ==>
      result[j] == values[j].Floor + (if j in indices[..k] then 1 else 0)
    ensures forall i, j ::
      (0 <= i < |values| && 0 <= j < |values| &&
       Raised(values, result, i) && !Raised(values, result, j)) ==>
      Frac(values[i]) >= Frac(values[j])
  {
    var n := |values|;
    forall i, j | 0 <= i < n && 0 <= j < n && Raised(values, result, i) && !Raised(values, result, j)
      ensures Frac(values[i]) >= Frac(values[j])
    {
      assert i in indices[..k];
      assert j !in indices[..k];
      assert j in indices;
      var a :| 0 <= a < k && indices[a] == i;
      var b :| 0 <= b < n && indices[b] == j;
      assert b >= k;
    }
  }

  /**
   * `round_with_fixed_sum(values, target_sum)`: floor every value, work out
   * how many units are missing from the target, and add one unit to each of
   * the first `remainder` indices in descending order of fractional part.
   */
  method RoundWithFixedSum(values: seq<real>, targetSum: Option<int>) returns (result: seq<int>)
    ensures IsLargestRemainder(values, TargetOf(values, targetSum), result)
  {
    var n := |values|;
    var target := if targetSum.Some? then targetSum.value else RoundHalfEven(SumReal(values));
    var floored := Floors(values);
    var remainder := target - SumInt(floored);
    var fractional := seq(n, i requires 0 <= i < n => values[i] - floored[i] as real);
    assert forall i :: 0 <= i < n ==> fractional[i] == Frac(values[i]);
    var indices := ArgsortDescending(fractional);
    var k := SliceLength(remainder, n);
    result := RaiseFirst(values, indices, k);
    RaisedFirstAreLargest(values, indices, k, result);
  }

  // ---------------------------------------------------------------------------
  // Properties of every largest-remainder rounding
  // ---------------------------------------------------------------------------

  /** The floors themselves raise no entry. */
  lemma {:induction false} FloorsRaiseNothing(values: seq<real>)
    ensures CountRaised(values, Floors(values)) == 0
    decreases |values|
  {
    var n := |values|;
    if n > 0 {
      FloorsRaiseNothing(values[..n - 1]);
      assert Floors(values)[..n - 1] == Floors(values[..n - 1]);
    }
  }

  /** Each entry that is its floor or its floor plus one adds that one to the sum. */
  lemma {:induction false} SumIsFloorsPlusRaised(values: seq<real>, result: seq<int>)
    requires |result| == |values|
    requires forall i :: 0 <= i < |values| ==>
      result[i] == values[i].Floor || result[i] == values[i].Floor + 1
    ensures SumInt(result) == SumInt(Floors(values)) + CountRaised(values, result)
    decreases |values|
  {
    var n := |values|;
    if n > 0 {
      SumIsFloorsPlusRaised(values[..n - 1], result[..n - 1]);
      assert Floors(values)[..n - 1] == Floors(values[..n - 1]);
    }
  }

  /**
   * The output sums to the floors plus the number of units the slice hands
   * out, whatever the remainder.
   */
  lemma LargestRemainderSum(values: seq<real>, target: int, result: seq<int>)
    requires IsLargestRemainder(values, target, result)
    ensures SumInt(result) == SumInt(Floors(values)) + SliceLength(Remainder(values, target), |values|)
  {
    SumIsFloorsPlusRaised(values, result);
  }

  /**
   * When the remainder is between 0 and the number of values, exactly that
   * many entries are raised and the output sums to the target.
   */
  lemma LargestRemainderExactSum(values: seq<real>, target: int, result: seq<int>)
    requires IsLargestRemainder(values, target, result)
    requires 0 <= Remainder(values, target) <= |values|
    ensures CountRaised(values, result) == Remainder(values, target)
    ensures SumInt(result) == target
  {
    LargestRemainderSum(values, target, result);
  }

  /** No entry is raised when none is counted. */
  lemma {:induction false} NoneRaised(values: seq<real>, result: seq<int>)
    requires |result| == |values|
    requires CountRaised(values, result) == 0
    ensures forall i :: 0 <= i < |values| ==> !Raised(values, result, i)
    decreases |values|
  {
    var n := |values|;
    if n > 0 {
      NoneRaised(values[..n - 1], result[..n - 1]);
      forall i | 0 <= i < n - 1
        ensures !Raised(values, result, i)
      {
        assert !Raised(values[..n - 1], result[..n - 1], i);
      }
    }
  }

  lemma {:induction false} SumIntAsReal(s: seq<int>)
    ensures SumInt(s) as real == SumReal(seq(|s|, i requires 0 <= i < |s| => s[i] as real))
    decreases |s|
  {
    var n := |s|;
    var r := seq(n, i requires 0 <= i < n => s[i] as real);
    if n > 0 {
      SumIntAsReal(s[..n - 1]);
      assert r[..n - 1] == seq(n - 1, i requires 0 <= i < n - 1 => s[..n - 1][i] as real);
    }
  }

  /**
   * Idempotence: values that are already integers, rounded towards their own
   * total, come back unchanged.
   */
  lemma LargestRemainderIdempotent(values: seq<real>, target: int, result: seq<int>)
    requires forall i :: 0 <= i < |values| ==> values[i].Floor as real == values[i]
    requires target as real == SumReal(values)
    requires IsLargestRemainder(values, target, result)
    ensures Remainder(values, target) == 0
    ensures forall i :: 0 <= i < |values| ==> result[i] as real == values[i]
  {
    var f := Floors(values);
    SumIntAsReal(f);
    assert seq(|f|, i requires 0 <= i < |f| => f[i] as real) == values;
    NoneRaised(values, result);
  }

  /** Termwise `x <= y`, and one term at least 1 below, make the sums at least 1 apart. */
  lemma {:induction false} SumGap(x: seq<real>, y: seq<real>, m: nat)
    requires |x| == |y| && m < |x|
    requires forall i :: 0 <= i < |x| ==> x[i] <= y[i]
    requires x[m] <= y[m] - 1.0
    ensures SumReal(x) <= SumReal(y) - 1.0
    decreases |x|
  {
    var n := |x|;
    if m < n - 1 {
      SumGap(x[..n - 1], y[..n - 1], m);
    } else {
      SumMonotone(x[..n - 1], y[..n - 1]);
    }
  }

  lemma {:induction false} SumMonotone(x: seq<real>, y: seq<real>)
    requires |x| == |y|
    requires forall i :: 0 <= i < |x| ==> x[i] <= y[i]
    ensures SumReal(x) <= SumReal(y)
    decreases |x|
  {
    if |x| > 0 {
      SumMonotone(x[..|x| - 1], y[..|y| - 1]);
    }
  }

  /** The fractional parts, and the 0/1 indicator of the raised entries. */
  function Fracs(values: seq<real>): (r: seq<real>)
    ensures |r| == |values|
  {
    seq(|values|, i requires 0 <= i < |values| => Frac(values[i]))
  }

  function RaisedIndicator(values: seq<real>, result: seq<int>): (r: seq<real>)
    requires |result| == |values|
    ensures |r| == |values|
  {
    seq(|values|, i requires 0 <= i < |values| => if Raised(values, result, i) then 1.0 else 0.0)
  }

  lemma {:induction false} RaisedIndicatorSum(values: seq<real>, result: seq<int>)
    requires |result| == |values|
    ensures SumReal(RaisedIndicator(values, result)) == CountRaised(values, result) as real
    decreases |values|
  {
    var n := |values|;
    if n > 0 {
      RaisedIndicatorSum(values[..n - 1], result[..n - 1]);
      assert RaisedIndicator(values, result)[..n - 1] == RaisedIndicator(values[..n - 1], result[..n - 1]);
    }
  }

  /** The sum of the values is the sum of the floors plus the sum of the fractional parts. */
  lemma {:induction false} SumSplitsIntoFloorsAndFracs(values: seq<real>)
    ensures SumReal(values) == SumInt(Floors(values)) as real + SumReal(Fracs(values))
    decreases |values|
  {
    var n := |values|;
    if n > 0 {
      SumSplitsIntoFloorsAndFracs(values[..n - 1]);
      assert Floors(values)[..n - 1] == Floors(values[..n - 1]);
      assert Fracs(values)[..n - 1] == Fracs(values[..n - 1]);
    }
  }

  lemma {:induction false} FracSumBelowLength(values: seq<real>)
    ensures 0.0 <= SumReal(Fracs(values))
    ensures |values| > 0 ==> SumReal(Fracs(values)) < |values| as real
    decreases |values|
  {
    var n := |values|;
    if n > 0 {
      FracSumBelowLength(values[..n - 1]);
      assert Fracs(values)[..n - 1] == Fracs(values[..n - 1]);
    }
  }

  /**
   * When the target is exactly the real total of the values, the remainder
   * is the sum of the fractional parts, so it lies between 0 and the number
   * of values: the output sums to the target, and every entry lies strictly
   * within one unit of its value.
   */
  lemma LargestRemainderExactTarget(values: seq<real>, target: int, result: seq<int>)
    requires target as real == SumReal(values)
    requires IsLargestRemainder(values, target, result)
    ensures 0 <= Remainder(values, target) <= |values|
    ensures SumInt(result) == target
    ensures forall i :: 0 <= i < |values| ==>
      -1.0 < result[i] as real - values[i] < 1.0
  {
    var n := |values|;
    SumSplitsIntoFloorsAndFracs(values);
    FracSumBelowLength(values);
    var rem := Remainder(values, target);
    assert rem as real == SumReal(Fracs(values));
    LargestRemainderExactSum(values, target, result);
    forall i | 0 <= i < n
      ensures -1.0 < result[i] as real - values[i] < 1.0
    {
      if Raised(values, result, i) && Frac(values[i]) == 0.0 {
        // Every unraised entry then has fractional part 0, so the fractional
        // parts sum to less than the number of raised entries.
        var x := Fracs(values);
        var y := RaisedIndicator(values, result);
        forall j | 0 <= j < n
          ensures x[j] <= y[j]
        {
          if !Raised(values, result, j) {
            assert Frac(values[i]) >= Frac(values[j]);
          }
        }
        SumGap(x, y, i);
        RaisedIndicatorSum(values, result);
        assert false;
      }
    }
  }
}

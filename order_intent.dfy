/**
 * Validation and normalisation of a curator's order intent, as done by
 * `validate_order` in the SDK's utilities: an intent maps whitelisted tokens
 * to positive weights summing to about 1, and comes out as integer amounts in
 * units of `10**decimals`.
 *
 * The chain lookups are parameters: `whitelisted` answers `is_whitelisted`,
 * `vaults` is the list `get_whitelisted_vaults` returns, `decimals` is what
 * `get_curator_intent_decimals` returns, and `dust` holds the successive draws
 * of `random.randint(1, 10)`.
 */
module OrderIntent {
  import opened Wrappers
  import opened Rounding

  type Token = string

  /** One entry of the intent dictionary, in insertion order. */
  datatype Allocation = Allocation(token: Token, weight: real)

  /** One entry of the normalised intent: a token and its integer amount. */
  datatype Amount = Amount(token: Token, units: int)

  /** The three `ValueError`s that `validate_order` raises, in the order it checks them. */
  datatype OrderError =
    | TokenNotWhitelisted(token: Token)
    | NonPositiveWeight
    | SumNotOne

  datatype Result<T> = Ok(value: T) | Err(error: OrderError)

  /** `np.isclose(s, 1, atol=1e-10)` keeps numpy's default relative tolerance. */
  const AbsoluteTolerance: real := 0.0000000001
  const RelativeTolerance: real := 0.00001

  function Tokens(intent: seq<Allocation>): (ts: seq<Token>)
    ensures |ts| == |intent|
    ensures forall i :: 0 <= i < |intent| ==> ts[i] == intent[i].token
  {
    seq(|intent|, i requires 0 <= i < |intent| => intent[i].token)
  }

  function Weights(intent: seq<Allocation>): (ws: seq<real>)
    ensures |ws| == |intent|
    ensures forall i :: 0 <= i < |intent| ==> ws[i] == intent[i].weight
  {
    seq(|intent|, i requires 0 <= i < |intent| => intent[i].weight)
  }

  function AmountTokens(amounts: seq<Amount>): (ts: seq<Token>)
    ensures |ts| == |amounts|
    ensures forall i :: 0 <= i < |amounts| ==> ts[i] == amounts[i].token
  {
    seq(|amounts|, i requires 0 <= i < |amounts| => amounts[i].token)
  }

  function Units(amounts: seq<Amount>): (us: seq<int>)
    ensures |us| == |amounts|
    ensures forall i :: 0 <= i < |amounts| ==> us[i] == amounts[i].units
  {
    seq(|amounts|, i requires 0 <= i < |amounts| => amounts[i].units)
  }

  /** Dictionary keys are unique. */
  predicate DistinctTokens(ts: seq<Token>)
  {
    forall a, b :: 0 <= a < b < |ts| ==> ts[a] != ts[b]
  }

  function Pow10(d: nat): (p: nat)
    ensures p >= 1
  {
    if d == 0 then 1 else 10 * Pow10(d - 1)
  }

  // ---------------------------------------------------------------------------
  // The three checks
  // ---------------------------------------------------------------------------

  predicate AllWhitelisted(intent: seq<Allocation>, whitelisted: set<Token>)
  {
    forall i :: 0 <= i < |intent| ==> intent[i].token in whitelisted
  }

  /** Position `i` holds the first token, in key order, that is not whitelisted. */
  predicate FirstUnlistedAt(intent: seq<Allocation>, whitelisted: set<Token>, i: nat)
  {
    && i < |intent|
    && intent[i].token !in whitelisted
    && forall j :: 0 <= j < i ==> intent[j].token in whitelisted
  }

  predicate AllPositive(intent: seq<Allocation>)
  {
    forall i :: 0 <= i < |intent| ==> intent[i].weight > 0.0
  }

  predicate SumIsClose(intent: seq<Allocation>)
  {
    var s := SumReal(Weights(intent));
    -(AbsoluteTolerance + RelativeTolerance) <= s - 1.0 <= AbsoluteTolerance + RelativeTolerance
  }

  /** The whitelist loop: stops at the first key that is not whitelisted. */
  method FindUnlisted(intent: seq<Allocation>, whitelisted: set<Token>) returns (bad: Option<Token>)
    ensures bad.None? <==> AllWhitelisted(intent, whitelisted)
    ensures bad.Some? ==>
      exists i: nat :: FirstUnlistedAt(intent, whitelisted, i) && intent[i].token == bad.value
  {
    for i := 0 to |intent|
      invariant forall j :: 0 <= j < i ==> intent[j].token in whitelisted
    {
      if intent[i].token !in whitelisted {
        assert FirstUnlistedAt(intent, whitelisted, i);
        return Some(intent[i].token);
      }
    }
    return None;
  }

  /**
   * The checks of `validate_order`, in the order it makes them; the first one
   * that fails decides the error.
   */
  method CheckOrder(intent: seq<Allocation>, whitelisted: set<Token>) returns (failure: Option<OrderError>)
    ensures failure.None? <==>
      AllWhitelisted(intent, whitelisted) && AllPositive(intent) && SumIsClose(intent)
    ensures (failure.Some? && failure.value.TokenNotWhitelisted?) <==> !AllWhitelisted(intent, whitelisted)
    ensures failure.Some? && failure.value.TokenNotWhitelisted? ==>
      exists i: nat :: FirstUnlistedAt(intent, whitelisted, i) && intent[i].token == failure.value.token
    ensures failure == Some(NonPositiveWeight) <==>
      AllWhitelisted(intent, whitelisted) && !AllPositive(intent)
    ensures failure == Some(SumNotOne) <==>
      AllWhitelisted(intent, whitelisted) && AllPositive(intent) && !SumIsClose(intent)
  {
    var bad := FindUnlisted(intent, whitelisted);
    if bad.Some? {
      return Some(TokenNotWhitelisted(bad.value));
    }
    if !AllPositive(intent) {
      return Some(NonPositiveWeight);
    }
    if !SumIsClose(intent) {
      return Some(SumNotOne);
    }
    return None;
  }

  // ---------------------------------------------------------------------------
  // Dust for the whitelisted vaults the intent leaves out
  // ---------------------------------------------------------------------------

  /**
   * The vaults, in whitelist order, that are not among `tokens`, each once:
   * the keys the fuzz loop adds to the intent.
   */
  function MissingVaults(tokens: seq<Token>, vaults: seq<Token>): (m: seq<Token>)
    ensures |m| <= |vaults|
    ensures DistinctTokens(m)
    ensures forall t :: t in m ==> t in vaults && t !in tokens
    ensures forall v :: v in vaults ==> v in tokens || v in m
    decreases |vaults|
  {
    if |vaults| == 0 then []
    else
      var earlier := MissingVaults(tokens, vaults[..|vaults| - 1]);
      var v := vaults[|vaults| - 1];
      assert forall t :: t in vaults[..|vaults| - 1] ==> t in vaults;
      if v in tokens || v in earlier then earlier
      else earlier + [v]
  }

  /**
   * The missing vaults come in whitelist order: each one is listed before
   * every occurrence of any vault that follows it.
   */
  predicate InListOrder(m: seq<Token>, vaults: seq<Token>)
  {
    forall a, b, j :: 0 <= a < b < |m| && 0 <= j < |vaults| && vaults[j] == m[b] ==>
      m[a] in vaults[..j]
  }

  lemma {:induction false} MissingVaultsInWhitelistOrder(tokens: seq<Token>, vaults: seq<Token>)
    ensures InListOrder(MissingVaults(tokens, vaults), vaults)
    decreases |vaults|
  {
    if |vaults| > 0 {
      var n := |vaults|;
      var front := vaults[..n - 1];
      var earlier := MissingVaults(tokens, front);
      var v := vaults[n - 1];
      MissingVaultsInWhitelistOrder(tokens, front);
      var m := MissingVaults(tokens, vaults);
      assert m == earlier || m == earlier + [v];
      forall a, b, j | 0 <= a < b < |m| && 0 <= j < n && vaults[j] == m[b]
        ensures m[a] in vaults[..j]
      {
        assert m[a] == earlier[a];
        assert m[a] in front;
        if j < n - 1 {
          assert front[j] == vaults[j];
          if b == |earlier| {
            assert false;
          }
          assert earlier[b] == m[b];
          assert InListOrder(earlier, front);
          assert earlier[a] in front[..j];
          assert front[..j] == vaults[..j];
        } else {
          assert front == vaults[..j];
        }
      }
    }
  }

  /** The dust weight `randint(1, 10) / 10**decimals` of one draw. */
  function DustWeight(draw: int, decimals: nat): (w: real)
    ensures 1 <= draw <= 10 ==> 0.0 < w <= 10.0 / Pow10(decimals) as real
    ensures 1 <= draw <= 10 && decimals >= 1 ==> w <= 1.0
  {
    draw as real / Pow10(decimals) as real
  }

  /** One entry per missing vault, the `j`-th weighted by the `j`-th draw. */
  function DustEntries(missing: seq<Token>, dust: seq<int>, decimals: nat): (r: seq<Allocation>)
    requires |dust| >= |missing|
    ensures Tokens(r) == missing
    ensures forall j :: 0 <= j < |r| ==> r[j].weight == DustWeight(dust[j], decimals)
  {
    seq(|missing|, j requires 0 <= j < |missing| => Allocation(missing[j], DustWeight(dust[j], decimals)))
  }

  lemma TokensAppend(a: seq<Allocation>, b: seq<Allocation>)
    ensures Tokens(a + b) == Tokens(a) + Tokens(b)
  {
  }

  lemma WeightsAppend(a: seq<Allocation>, b: seq<Allocation>)
    ensures Weights(a + b) == Weights(a) + Weights(b)
  {
  }

  /** The intent after the fuzz loop: its own entries, then the dust entries of the missing vaults. */
  function WithDust(intent: seq<Allocation>, vaults: seq<Token>, dust: seq<int>, decimals: nat): (r: seq<Allocation>)
    requires |dust| >= |vaults|
    ensures Tokens(r) == Tokens(intent) + MissingVaults(Tokens(intent), vaults)
  {
    var m := MissingVaults(Tokens(intent), vaults);
    TokensAppend(intent, DustEntries(m, dust, decimals));
    intent + DustEntries(m, dust, decimals)
  }

  /** Extending the vault list by one vault adds at most its dust entry, drawn next. */
  lemma {:induction false} WithDustStep(intent: seq<Allocation>, vaults: seq<Token>, v: Token, dust: seq<int>, decimals: nat)
    requires |dust| > |vaults|
    ensures var before := WithDust(intent, vaults, dust, decimals);
            var drawn := |MissingVaults(Tokens(intent), vaults)|;
            drawn <= |vaults| &&
            WithDust(intent, vaults + [v], dust, decimals) ==
              if v in Tokens(before) then before
              else before + [Allocation(v, DustWeight(dust[drawn], decimals))]
    ensures |MissingVaults(Tokens(intent), vaults + [v])| ==
            |MissingVaults(Tokens(intent), vaults)| + (if v in Tokens(WithDust(intent, vaults, dust, decimals)) then 0 else 1)
  {
    var t := Tokens(intent);
    var longer := vaults + [v];
    assert longer[..|longer| - 1] == vaults;
    assert longer[|longer| - 1] == v;
    var m := MissingVaults(t, vaults);
    var before := WithDust(intent, vaults, dust, decimals);
    assert Tokens(before) == t + m;
    assert v in Tokens(before) <==> v in t || v in m;
    if v !in t && v !in m {
      assert MissingVaults(t, longer) == m + [v];
      var entry := Allocation(v, DustWeight(dust[|m|], decimals));
      var e1 := DustEntries(m + [v], dust, decimals);
      var e0 := DustEntries(m, dust, decimals);
      assert forall j :: 0 <= j < |e1| ==> e1[j] == (e0 + [entry])[j];
      assert e1 == e0 + [entry];
      assert intent + e1 == (intent + e0) + [entry];
    } else {
      assert MissingVaults(t, longer) == m;
    }
  }

  /**
   * The fuzz loop: for each whitelisted vault not yet a key, insert it with
   * the next dust weight. The dictionary grows while the loop runs, so a vault
   * listed twice is added once.
   */
  method AddDust(intent: seq<Allocation>, vaults: seq<Token>, dust: seq<int>, decimals: nat)
    returns (extended: seq<Allocation>)
    requires |dust| >= |vaults|
    ensures extended == WithDust(intent, vaults, dust, decimals)
  {
    extended := intent;
    var drawn := 0;
    assert vaults[..0] == [];
    assert DustEntries([], dust, decimals) == [];
    assert intent + [] == intent;
    for i := 0 to |vaults|
      invariant extended == WithDust(intent, vaults[..i], dust, decimals)
      invariant drawn == |MissingVaults(Tokens(intent), vaults[..i])|
    {
      var vault := vaults[i];
      assert vaults[..i + 1] == vaults[..i] + [vault];
      WithDustStep(intent, vaults[..i], vault, dust, decimals);
      if vault !in Tokens(extended) {
        extended := extended + [Allocation(vault, DustWeight(dust[drawn], decimals))];
        drawn := drawn + 1;
      }
    }
    assert vaults[..|vaults|] == vaults;
  }

  // ---------------------------------------------------------------------------
  // Renormalising and scaling
  // ---------------------------------------------------------------------------

  /** Every element multiplied by `c`. */
  function Times(s: seq<real>, c: real): (r: seq<real>)
    ensures |r| == |s|
    ensures forall i :: 0 <= i < |s| ==> r[i] == s[i] * c
  {
    seq(|s|, i requires 0 <= i < |s| => s[i] * c)
  }

  lemma {:induction false} SumScaled(s: seq<real>, c: real)
    ensures SumReal(Times(s, c)) == SumReal(s) * c
    decreases |s|
  {
    var n := |s|;
    if n > 0 {
      SumScaled(s[..n - 1], c);
      var front := Times(s[..n - 1], c);
      assert forall i :: 0 <= i < n - 1 ==> Times(s, c)[..n - 1][i] == front[i];
      assert Times(s, c)[..n - 1] == front;
    }
  }

  lemma {:induction false} SumAppend(s: seq<real>, t: seq<real>)
    ensures SumReal(s + t) == SumReal(s) + SumReal(t)
    decreases |t|
  {
    if |t| > 0 {
      assert (s + t)[..|s + t| - 1] == s + t[..|t| - 1];
      assert (s + t)[|s + t| - 1] == t[|t| - 1];
      SumAppend(s, t[..|t| - 1]);
    } else {
      assert s + t == s;
    }
  }

  lemma {:induction false} SumPositive(s: seq<real>)
    requires forall i :: 0 <= i < |s| ==> s[i] > 0.0
    ensures SumReal(s) >= 0.0
    ensures |s| > 0 ==> SumReal(s) > 0.0
    decreases |s|
  {
    if |s| > 0 {
      SumPositive(s[..|s| - 1]);
    }
  }

  lemma DivisionAsProduct(x: real, s: real)
    requires s != 0.0
    ensures x / s == x * (1.0 / s)
  {
  }

  /** `{token: weight / sum(weights)}`: the same keys, weights summing to exactly 1. */
  function Renormalise(intent: seq<Allocation>): (r: seq<Allocation>)
    requires SumReal(Weights(intent)) != 0.0
    ensures Tokens(r) == Tokens(intent)
    ensures SumReal(Weights(r)) == 1.0
  {
    var s := SumReal(Weights(intent));
    var r := seq(|intent|, i requires 0 <= i < |intent| => Allocation(intent[i].token, intent[i].weight / s));
    forall i | 0 <= i < |intent|
      ensures Weights(r)[i] == Times(Weights(intent), 1.0 / s)[i]
    {
      DivisionAsProduct(intent[i].weight, s);
    }
    assert Weights(r) == Times(Weights(intent), 1.0 / s);
    SumScaled(Weights(intent), 1.0 / s);
    r
  }

  /** `{token: weight * 10**decimals}`: the same keys, every weight scaled. */
  function Scale(intent: seq<Allocation>, decimals: nat): (r: seq<Allocation>)
    ensures Tokens(r) == Tokens(intent)
    ensures Weights(r) == Times(Weights(intent), Pow10(decimals) as real)
  {
    var c := Pow10(decimals) as real;
    var r := seq(|intent|, i requires 0 <= i < |intent| => Allocation(intent[i].token, intent[i].weight * c));
    assert forall i :: 0 <= i < |intent| ==> Weights(r)[i] == Times(Weights(intent), c)[i];
    assert Weights(r) == Times(Weights(intent), c);
    r
  }

  /** Scaling multiplies the total by `10**decimals`. */
  lemma ScaledTotal(intent: seq<Allocation>, decimals: nat)
    ensures SumReal(Weights(Scale(intent, decimals))) == SumReal(Weights(intent)) * Pow10(decimals) as real
  {
    SumScaled(Weights(intent), Pow10(decimals) as real);
  }

  /** `dict(zip(keys, rounded_values))`. */
  function Zip(tokens: seq<Token>, units: seq<int>): (r: seq<Amount>)
    requires |units| == |tokens|
    ensures AmountTokens(r) == tokens && Units(r) == units
  {
    seq(|tokens|, i requires 0 <= i < |tokens| => Amount(tokens[i], units[i]))
  }

  /** An intent that passed the checks keeps a positive total once dust is added. */
  lemma DustedSumPositive(intent: seq<Allocation>, vaults: seq<Token>, dust: seq<int>, decimals: nat)
    requires |dust| >= |vaults| && forall j :: 0 <= j < |dust| ==> 1 <= dust[j] <= 10
    requires SumIsClose(intent)
    ensures SumReal(Weights(WithDust(intent, vaults, dust, decimals))) > 0.0
  {
    var extra := DustEntries(MissingVaults(Tokens(intent), vaults), dust, decimals);
    WeightsAppend(intent, extra);
    SumAppend(Weights(intent), Weights(extra));
    assert forall j :: 0 <= j < |extra| ==> Weights(extra)[j] == DustWeight(dust[j], decimals);
    assert forall j :: 0 <= j < |extra| ==> Weights(extra)[j] > 0.0;
    SumPositive(Weights(extra));
  }

  /** The weights that get scaled and rounded: with dust and renormalised only when fuzzing. */
  function PreparedWeights(intent: seq<Allocation>, vaults: seq<Token>, dust: seq<int>, decimals: nat, fuzz: bool)
    : (r: seq<Allocation>)
    requires |dust| >= |vaults| && forall j :: 0 <= j < |dust| ==> 1 <= dust[j] <= 10
    requires SumIsClose(intent)
    ensures fuzz ==> SumReal(Weights(r)) == 1.0
    ensures Tokens(r) == Tokens(intent) + (if fuzz then MissingVaults(Tokens(intent), vaults) else [])
  {
    if fuzz then
      DustedSumPositive(intent, vaults, dust, decimals);
      Renormalise(WithDust(intent, vaults, dust, decimals))
    else
      assert Tokens(intent) + [] == Tokens(intent);
      intent
  }

  // ---------------------------------------------------------------------------
  // validate_order
  // ---------------------------------------------------------------------------

  /** `units` is the floor or the floor plus one of `exact`. */
  predicate WithinOneUnit(exact: real, units: int)
  {
    units == exact.Floor || units == exact.Floor + 1
  }

  /**
   * What `validate_order` does once the checks have passed: optional dust and
   * renormalisation, scaling by `10**decimals`, and largest-remainder
   * rounding towards `10**decimals`, keyed by the intent's tokens.
   */
  method Normalise(intent: seq<Allocation>, vaults: seq<Token>, dust: seq<int>, decimals: nat, fuzz: bool)
    returns (amounts: seq<Amount>)
    requires |dust| >= |vaults| && forall j :: 0 <= j < |dust| ==> 1 <= dust[j] <= 10
    requires SumIsClose(intent)
    ensures AmountTokens(amounts) == Tokens(intent) + (if fuzz then MissingVaults(Tokens(intent), vaults) else [])
    ensures IsLargestRemainder(Weights(Scale(PreparedWeights(intent, vaults, dust, decimals, fuzz), decimals)),
                               Pow10(decimals), Units(amounts))
    ensures fuzz ==> SumInt(Units(amounts)) == Pow10(decimals)
    ensures fuzz ==> forall i :: 0 <= i < |amounts| ==>
      -1.0 < amounts[i].units as real - Scale(PreparedWeights(intent, vaults, dust, decimals, fuzz), decimals)[i].weight < 1.0
  {
    var weights := intent;
    if fuzz {
      var extended := AddDust(intent, vaults, dust, decimals);
      DustedSumPositive(intent, vaults, dust, decimals);
      weights := Renormalise(extended);
    }
    assert weights == PreparedWeights(intent, vaults, dust, decimals, fuzz);
    var scaled := Scale(weights, decimals);
    var rounded := RoundWithFixedSum(Weights(scaled), Some(Pow10(decimals)));
    if fuzz {
      ScaledTotal(weights, decimals);
      LargestRemainderExactTarget(Weights(scaled), Pow10(decimals), rounded);
    }
    amounts := Zip(Tokens(scaled), rounded);
  }

  /**
   * `validate_order(order_intent, fuzz)`: the three checks in order, each
   * ending the call with its error; then the normalisation.
   */
  method ValidateOrder(intent: seq<Allocation>, whitelisted: set<Token>, vaults: seq<Token>,
                       dust: seq<int>, decimals: nat, fuzz: bool)
    returns (r: Result<seq<Amount>>)
    requires DistinctTokens(Tokens(intent))
    requires |dust| >= |vaults| && forall j :: 0 <= j < |dust| ==> 1 <= dust[j] <= 10
    ensures (r.Err? && r.error.TokenNotWhitelisted?) <==> !AllWhitelisted(intent, whitelisted)
    ensures r.Err? && r.error.TokenNotWhitelisted? ==>
      exists i: nat :: FirstUnlistedAt(intent, whitelisted, i) && intent[i].token == r.error.token
    ensures r == Err(NonPositiveWeight) <==> AllWhitelisted(intent, whitelisted) && !AllPositive(intent)
    ensures r == Err(SumNotOne) <==>
      AllWhitelisted(intent, whitelisted) && AllPositive(intent) && !SumIsClose(intent)
    ensures r.Ok? <==> AllWhitelisted(intent, whitelisted) && AllPositive(intent) && SumIsClose(intent)
    ensures r.Ok? ==>
      && AmountTokens(r.value) == Tokens(intent) + (if fuzz then MissingVaults(Tokens(intent), vaults) else [])
      && DistinctTokens(AmountTokens(r.value))
      && IsLargestRemainder(Weights(Scale(PreparedWeights(intent, vaults, dust, decimals, fuzz), decimals)),
                            Pow10(decimals), Units(r.value))
    ensures r.Ok? && !fuzz ==> forall i :: 0 <= i < |intent| ==>
      WithinOneUnit(Scale(intent, decimals)[i].weight, r.value[i].units)
    ensures r.Ok? && fuzz ==> SumInt(Units(r.value)) == Pow10(decimals)
    ensures r.Ok? && fuzz ==> forall i :: 0 <= i < |r.value| ==>
      -1.0 < r.value[i].units as real - Scale(PreparedWeights(intent, vaults, dust, decimals, fuzz), decimals)[i].weight < 1.0
  {
    var failure := CheckOrder(intent, whitelisted);
    if failure.Some? {
      return Err(failure.value);
    }
    var amounts := Normalise(intent, vaults, dust, decimals, fuzz);
    DistinctAfterDust(intent, vaults, fuzz);
    r := Ok(amounts);
  }

  lemma DistinctAfterDust(intent: seq<Allocation>, vaults: seq<Token>, fuzz: bool)
    requires DistinctTokens(Tokens(intent))
    ensures DistinctTokens(Tokens(intent) + (if fuzz then MissingVaults(Tokens(intent), vaults) else []))
  {
    var ts := Tokens(intent);
    var m := if fuzz then MissingVaults(ts, vaults) else [];
    var all := ts + m;
    forall a, b | 0 <= a < b < |all|
      ensures all[a] != all[b]
    {
      if b >= |ts| && a < |ts| {
        assert all[b] in m;
        assert all[a] in ts;
      }
    }
  }

  // ---------------------------------------------------------------------------
  // The exact total: what the tolerance lets through, and the corrected pipeline
  // ---------------------------------------------------------------------------

  /**
   * A single token weighted 1 - 2^-17 passes all three checks (its distance
   * from 1 is within 1e-10 + 1e-5), but with 6 decimals its scaled weight
   * 999992.37... floors to 999992, the remainder 8 is clamped to the one slot
   * by the slice, and the output is 999993 instead of 10**6.
   */
  lemma AcceptedIntentUnderTarget()
    ensures var intent := [Allocation("0xaaa", 1.0 - 1.0 / 131072.0)];
      && AllWhitelisted(intent, {"0xaaa"}) && AllPositive(intent) && SumIsClose(intent)
      && Remainder(Weights(Scale(intent, 6)), Pow10(6)) == 8
      && forall units :: IsLargestRemainder(Weights(Scale(intent, 6)), Pow10(6), units) ==>
           units == [999993] && SumInt(units) != Pow10(6)
  {
    var intent := [Allocation("0xaaa", 1.0 - 1.0 / 131072.0)];
    assert Pow10(6) == 1000000 by {
      assert Pow10(3) == 1000;
    }
    var values := Weights(Scale(intent, 6));
    assert values == [999992.37060546875];
    assert Floors(values) == [999992];
    assert SumInt([999992]) == 999992;
    forall units | IsLargestRemainder(values, Pow10(6), units)
      ensures units == [999993]
    {
      assert CountRaised(values, units) == 1;
      assert Raised(values, units, 0);
    }
  }

  /**
   * Two tokens weighted 1/2 and 1/2 + 2^-17 pass all three checks, but with 6
   * decimals their floors already sum to 1000007: the remainder -7 makes the
   * slice empty and the output overshoots 10**6 by 7.
   */
  lemma AcceptedIntentOverTarget()
    ensures var intent := [Allocation("0xaaa", 0.5), Allocation("0xbbb", 0.5 + 1.0 / 131072.0)];
      && AllWhitelisted(intent, {"0xaaa", "0xbbb"}) && AllPositive(intent) && SumIsClose(intent)
      && Remainder(Weights(Scale(intent, 6)), Pow10(6)) == -7
      && forall units :: IsLargestRemainder(Weights(Scale(intent, 6)), Pow10(6), units) ==>
           units == [500000, 500007] && SumInt(units) == Pow10(6) + 7
  {
    var intent := [Allocation("0xaaa", 0.5), Allocation("0xbbb", 0.5 + 1.0 / 131072.0)];
    assert Pow10(6) == 1000000 by {
      assert Pow10(3) == 1000;
    }
    assert SumReal(Weights(intent)) == 1.0 + 1.0 / 131072.0 by {
      var ws := Weights(intent);
      assert ws == [0.5, 0.5 + 1.0 / 131072.0];
      assert ws[..1] == [0.5];
      assert [0.5][..0] == [];
    }
    var values := Weights(Scale(intent, 6));
    assert values == [500000.0, 500007.62939453125];
    assert Floors(values) == [500000, 500007];
    assert SumInt([500000, 500007]) == 1000007 by {
      assert [500000, 500007][..1] == [500000];
    }
    forall units | IsLargestRemainder(values, Pow10(6), units)
      ensures units == [500000, 500007]
    {
      NoneRaised(values, units);
      assert !Raised(values, units, 0) && !Raised(values, units, 1);
    }
    assert SumInt([500000, 500007]) == Pow10(6) + 7;
  }

  /** The weights the corrected pipeline rounds: always renormalised, with dust when fuzzing. */
  function RenormalisedWeights(intent: seq<Allocation>, vaults: seq<Token>, dust: seq<int>, decimals: nat, fuzz: bool)
    : (r: seq<Allocation>)
    requires |dust| >= |vaults| && forall j :: 0 <= j < |dust| ==> 1 <= dust[j] <= 10
    requires SumIsClose(intent)
    ensures SumReal(Weights(r)) == 1.0
    ensures Tokens(r) == Tokens(intent) + (if fuzz then MissingVaults(Tokens(intent), vaults) else [])
  {
    if fuzz then
      DustedSumPositive(intent, vaults, dust, decimals);
      Renormalise(WithDust(intent, vaults, dust, decimals))
    else
      assert Tokens(intent) + [] == Tokens(intent);
      Renormalise(intent)
  }

  /**
   * The corrected normalisation: renormalising in both paths makes the scaled
   * weights sum to exactly `10**decimals`, so the output does too, and every
   * amount lies strictly within one unit of its scaled weight.
   */
  method NormaliseExact(intent: seq<Allocation>, vaults: seq<Token>, dust: seq<int>, decimals: nat, fuzz: bool)
    returns (amounts: seq<Amount>)
    requires |dust| >= |vaults| && forall j :: 0 <= j < |dust| ==> 1 <= dust[j] <= 10
    requires SumIsClose(intent)
    ensures AmountTokens(amounts) == Tokens(intent) + (if fuzz then MissingVaults(Tokens(intent), vaults) else [])
    ensures SumInt(Units(amounts)) == Pow10(decimals)
    ensures forall i :: 0 <= i < |amounts| ==>
      -1.0 < amounts[i].units as real - Scale(RenormalisedWeights(intent, vaults, dust, decimals, fuzz), decimals)[i].weight < 1.0
  {
    var weights := intent;
    if fuzz {
      weights := AddDust(intent, vaults, dust, decimals);
      DustedSumPositive(intent, vaults, dust, decimals);
    }
    weights := Renormalise(weights);
    assert weights == RenormalisedWeights(intent, vaults, dust, decimals, fuzz);
    var scaled := Scale(weights, decimals);
    var rounded := RoundWithFixedSum(Weights(scaled), Some(Pow10(decimals)));
    ScaledTotal(weights, decimals);
    LargestRemainderExactTarget(Weights(scaled), Pow10(decimals), rounded);
    amounts := Zip(Tokens(scaled), rounded);
  }

  /**
   * `validate_order` with the corrected normalisation: the same checks and
   * errors, and on success amounts that sum to exactly `10**decimals`.
   */
  method ValidateOrderExact(intent: seq<Allocation>, whitelisted: set<Token>, vaults: seq<Token>,
                            dust: seq<int>, decimals: nat, fuzz: bool)
    returns (r: Result<seq<Amount>>)
    requires DistinctTokens(Tokens(intent))
    requires |dust| >= |vaults| && forall j :: 0 <= j < |dust| ==> 1 <= dust[j] <= 10
    ensures (r.Err? && r.error.TokenNotWhitelisted?) <==> !AllWhitelisted(intent, whitelisted)
    ensures r.Err? && r.error.TokenNotWhitelisted? ==>
      exists i: nat :: FirstUnlistedAt(intent, whitelisted, i) && intent[i].token == r.error.token
    ensures r == Err(NonPositiveWeight) <==> AllWhitelisted(intent, whitelisted) && !AllPositive(intent)
    ensures r == Err(SumNotOne) <==>
      AllWhitelisted(intent, whitelisted) && AllPositive(intent) && !SumIsClose(intent)
    ensures r.Ok? <==> AllWhitelisted(intent, whitelisted) && AllPositive(intent) && SumIsClose(intent)
    ensures r.Ok? ==>
      && AmountTokens(r.value) == Tokens(intent) + (if fuzz then MissingVaults(Tokens(intent), vaults) else [])
      && DistinctTokens(AmountTokens(r.value))
      && SumInt(Units(r.value)) == Pow10(decimals)
  {
    var failure := CheckOrder(intent, whitelisted);
    if failure.Some? {
      return Err(failure.value);
    }
    var amounts := NormaliseExact(intent, vaults, dust, decimals, fuzz);
    DistinctAfterDust(intent, vaults, fuzz);
    r := Ok(amounts);
  }
}

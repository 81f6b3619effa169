/**
 * The covariate side of the beta generators. Random covariate draws are
 * inputs, and so is any beta value produced through `exp`; what remains
 * is the weight vector of the many-covariate generator, the linear
 * predictor `np.matmul(alpha, v)` it feeds, and the two-level betas of the
 * effect-modification generator.
 */
module Covariates {

  /** Column `k` of a covariate matrix (`v[:, k]`): the covariates of epidemic `k`. */
  function Column(v: seq<seq<real>>, k: nat): (col: seq<real>)
    requires forall row :: row in v ==> k < |row|
    ensures |col| == |v|
  {
    seq(|v|, r requires 0 <= r < |v| => v[r][k])
  }

  function Ones(n: nat): seq<real>
  {
    seq(n, _ => 1.0)
  }

  function Zeros(n: nat): seq<real>
  {
    seq(n, _ => 0.0)
  }

  /**
   * The weights of `generate_betas_many_cov2`: one per covariate, 1 for
   * each of the `numPred` predictive covariates, then 0 for each of the
   * `numNotPred` others.
   */
  function ManyCovariateWeights(numPred: nat, numNotPred: nat): (alpha: seq<real>)
    ensures |alpha| == numPred + numNotPred
    ensures forall r :: 0 <= r < |alpha| ==> (alpha[r] == 1.0 <==> r < numPred)
    ensures forall r :: 0 <= r < |alpha| ==> (alpha[r] == 0.0 <==> numPred <= r)
  {
    Ones(numPred) + Zeros(numNotPred)
  }

  /** Plain sum of reals. */
  function RealSum(x: seq<real>): real
  {
    if |x| == 0 then 0.0 else x[0] + RealSum(x[1..])
  }

  /** `np.matmul(alpha, v)` for one epidemic: the weighted sum of its covariates. */
  function Dot(alpha: seq<real>, x: seq<real>): real
    requires |alpha| == |x|
  {
    if |alpha| == 0 then 0.0 else alpha[0] * x[0] + Dot(alpha[1..], x[1..])
  }

  lemma {:induction false} DotZeros(n: nat, x: seq<real>)
    requires |x| == n
    ensures Dot(Zeros(n), x) == 0.0
  {
    if n > 0 {
      assert Zeros(n)[1..] == Zeros(n - 1);
      DotZeros(n - 1, x[1..]);
    }
  }

  /**
   * Under the many-covariate weights the linear predictor is the sum of
   * the predictive covariates alone.
   */
  lemma {:induction false} ManyCovariatePredictor(numPred: nat, numNotPred: nat, x: seq<real>)
    requires |x| == numPred + numNotPred
    ensures Dot(ManyCovariateWeights(numPred, numNotPred), x) == RealSum(x[..numPred])
    decreases numPred
  {
    var alpha := ManyCovariateWeights(numPred, numNotPred);
    if numPred == 0 {
      assert alpha == Zeros(numNotPred);
      DotZeros(numNotPred, x);
    } else {
      assert alpha[1..] == ManyCovariateWeights(numPred - 1, numNotPred);
      ManyCovariatePredictor(numPred - 1, numNotPred, x[1..]);
      assert x[..numPred][1..] == x[1..][..numPred - 1];
    }
  }

  /**
   * The non-predictive covariates do not affect beta: two epidemics whose
   * predictive covariates agree get the same linear predictor, hence the
   * same `1 + exp(...)`, whatever their other covariates are.
   */
  lemma {:induction false} NonPredictiveCovariatesIgnored(numPred: nat, numNotPred: nat, x: seq<real>, y: seq<real>)
    requires |x| == |y| == numPred + numNotPred
    requires x[..numPred] == y[..numPred]
    ensures Dot(ManyCovariateWeights(numPred, numNotPred), x) == Dot(ManyCovariateWeights(numPred, numNotPred), y)
  {
    ManyCovariatePredictor(numPred, numNotPred, x);
    ManyCovariatePredictor(numPred, numNotPred, y);
  }

  /** `exp(log(1.5))`: the beta of an epidemic outside the interaction group. */
  const BaselineBeta: real := 1.5
  /** `exp(log(2.0))`: the factor the interaction multiplies beta by. */
  const InteractionFactor: real := 2.0

  /** numpy's cast of a comparison to 0 or 1 in arithmetic. */
  function Indicator(b: bool): nat
  {
    if b then 1 else 0
  }

  /** `base` raised to the power `n`, the value of `exp(n * log(base))`. */
  function Power(base: real, n: nat): real
  {
    if n == 0 then 1.0 else base * Power(base, n - 1)
  }

  /** The interaction group: high-density epidemics whose population wears no mask. */
  predicate Elevated(highDensity: nat, wearsMask: nat)
  {
    highDensity == 1 && wearsMask == 0
  }

  /**
   * `generate_betas_effect_mod`'s betas from its two covariate rows, as the
   * exact value of `exp(log(1.5) + log(2.0) * (hd == 1) * (ws == 0))`, that
   * is 1.5 times 2.0 raised to the product of the two indicators: every
   * epidemic has beta 1.5 except the high-density, no-mask ones, which have
   * twice that.
   */
  function EffectModBetas(highDensity: seq<nat>, wearsMask: seq<nat>): (beta: seq<real>)
    requires |highDensity| == |wearsMask|
    ensures |beta| == |highDensity|
    ensures forall i :: 0 <= i < |beta| ==>
              (beta[i] == BaselineBeta * InteractionFactor <==> Elevated(highDensity[i], wearsMask[i]))
    ensures forall i :: 0 <= i < |beta| ==> (beta[i] == BaselineBeta <==> !Elevated(highDensity[i], wearsMask[i]))
  {
    seq(|highDensity|, i requires 0 <= i < |highDensity| =>
      BaselineBeta * Power(InteractionFactor, Indicator(highDensity[i] == 1) * Indicator(wearsMask[i] == 0)))
  }
}

/**
 * `generate_observed_SIR_curves`: reject stochastic fadeouts, then cut the
 * accepted ground-truth curve at the last day whose cumulative count is
 * still below a target fraction of the eventual total. Each simulator call
 * is an input: `attempt(a)` is the curve the `a`-th call (from 0) returns.
 */
module Observation {
  import opened Results
  import opened Series
  import SirCurve

  /** A curve whose total reaches this many infections is not a fadeout. */
  const FadeoutThreshold: nat := 10
  /** The rejection loop gives up after this many simulator calls. */
  const MaxAttempts: nat := 5000
  /** The observed window is never shorter than this many days. */
  const MinObservedDays: nat := 2

  /** The curve the rejection loop kept, and how many simulator calls it made. */
  datatype Accepted = Accepted(curve: seq<nat>, attempts: nat)

  /** The cutoff index set of `np.where(cumulative < target)` was empty, so `np.max` raised. */
  datatype WindowError = NoDayBelowTarget

  /** The observed prefix and the full curve it was cut from. */
  datatype Window = Window(observed: seq<nat>, groundTruth: seq<nat>)

  /**
   * The `while total < 10 and count < 5000` loop, entered with `count`
   * calls already made (the loop body always runs once). It stops at the
   * first curve that is not a fadeout or when the call budget is used up,
   * and keeps the last curve generated either way; every curve it passed
   * over was a fadeout.
   */
  function RetryFrom(attempt: nat -> seq<nat>, count: nat): (r: Accepted)
    requires count < MaxAttempts
    ensures count < r.attempts <= MaxAttempts
    ensures r.curve == attempt(r.attempts - 1)
    ensures Sum(r.curve) >= FadeoutThreshold || r.attempts == MaxAttempts
    ensures forall a :: count <= a < r.attempts - 1 ==> Sum(attempt(a)) < FadeoutThreshold
    decreases MaxAttempts - count
  {
    var curve := attempt(count);
    if Sum(curve) >= FadeoutThreshold || count + 1 == MaxAttempts then
      Accepted(curve, count + 1)
    else
      RetryFrom(attempt, count + 1)
  }

  /** The whole rejection loop, starting with no calls made. */
  function RejectFadeouts(attempt: nat -> seq<nat>): (r: Accepted)
    ensures 1 <= r.attempts <= MaxAttempts
    ensures r.curve == attempt(r.attempts - 1)
    ensures Sum(r.curve) >= FadeoutThreshold || r.attempts == MaxAttempts
    ensures forall a :: 0 <= a < r.attempts - 1 ==> Sum(attempt(a)) < FadeoutThreshold
  {
    RetryFrom(attempt, 0)
  }

  /**
   * The rejection loop stops at the FIRST curve that is not a fadeout: if
   * any of the first 5000 calls returns one, the loop keeps exactly the
   * earliest such call's curve.
   */
  lemma {:induction false} RejectFadeoutsKeepsFirstOutbreak(attempt: nat -> seq<nat>, a: nat)
    requires a < MaxAttempts
    requires Sum(attempt(a)) >= FadeoutThreshold
    requires forall b :: 0 <= b < a ==> Sum(attempt(b)) < FadeoutThreshold
    ensures RejectFadeouts(attempt) == Accepted(attempt(a), a + 1)
  {
  }

  /** `np.max(np.where(cumulative < target))`: the last index whose value is below `target`. */
  function LastIndexBelow(cumulative: seq<nat>, target: real): (r: Option<nat>)
    ensures r.Some? ==> r.value < |cumulative| && (cumulative[r.value] as real) < target
    ensures r.Some? ==> forall j :: r.value < j < |cumulative| ==> (cumulative[j] as real) >= target
    ensures r.None? ==> forall j :: 0 <= j < |cumulative| ==> (cumulative[j] as real) >= target
    decreases |cumulative|
  {
    if |cumulative| == 0 then None
    else if (cumulative[|cumulative| - 1] as real) < target then Some(|cumulative| - 1)
    else LastIndexBelow(cumulative[..|cumulative| - 1], target)
  }

  /** `target_size = total_infections * percent_infected`. */
  function TargetSize(curve: seq<nat>, percentInfected: real): real
  {
    (Sum(curve) as real) * percentInfected
  }

  /**
   * `current_time`: the last day whose inclusive cumulative count is below
   * the target, raised to at least 2; an error when no day is below it.
   * Every day after the current time has reached the target, and above the
   * floor the current time itself is still below it, which together fix
   * the result at the floor as well.
   */
  function CurrentTime(curve: seq<nat>, percentInfected: real): (r: Result<nat, WindowError>)
    ensures r.Success? ==> r.value >= MinObservedDays
    ensures r.Failure? <==> forall j :: 0 <= j < |curve| ==> (Cumsum(curve)[j] as real) >= TargetSize(curve, percentInfected)
    ensures r.Success? ==> forall j :: r.value < j < |curve| ==> (Cumsum(curve)[j] as real) >= TargetSize(curve, percentInfected)
    ensures r.Success? && r.value > MinObservedDays ==>
              r.value < |curve| && (Cumsum(curve)[r.value] as real) < TargetSize(curve, percentInfected)
  {
    match LastIndexBelow(Cumsum(curve), TargetSize(curve, percentInfected))
    case None => Failure(NoDayBelowTarget)
    case Some(m) => Success(if m > MinObservedDays then m else MinObservedDays)
  }

  /** numpy's `s[:n]`, which clamps an end past the last element. */
  function Take(s: seq<nat>, n: nat): (r: seq<nat>)
    ensures r <= s
    ensures |r| == if n <= |s| then n else |s|
  {
    if n <= |s| then s[..n] else s
  }

  /**
   * The observed window of an accepted curve: its prefix up to (not
   * including) the current time. Every day after the one that ends the
   * window has reached the target; outside the floor of 2 days that day
   * itself is still below it.
   */
  function ObservationWindow(curve: seq<nat>, percentInfected: real): (r: Result<seq<nat>, WindowError>)
    ensures r.Failure? <==> CurrentTime(curve, percentInfected).Failure?
    ensures r.Success? ==> r.value <= curve
    ensures r.Success? ==> |r.value| >= MinObservedDays || r.value == curve
    ensures r.Success? ==> forall j :: |r.value| < j < |curve| ==> (Cumsum(curve)[j] as real) >= TargetSize(curve, percentInfected)
    ensures r.Success? && |r.value| > MinObservedDays ==>
              |r.value| < |curve| && (Cumsum(curve)[|r.value|] as real) < TargetSize(curve, percentInfected)
  {
    match CurrentTime(curve, percentInfected)
    case Failure(e) => Failure(e)
    case Success(t) => Success(Take(curve, t))
  }

  /**
   * `generate_observed_SIR_curves`: the accepted curve and its observed
   * window. The ground truth is the curve of the last simulator call made,
   * and the observed series is that curve's cutoff window.
   */
  function GenerateObserved(percentInfected: real, attempt: nat -> seq<nat>): (r: Result<Window, WindowError>)
    ensures r.Success? ==> r.value.observed <= r.value.groundTruth
    ensures r.Success? ==> ObservationWindow(r.value.groundTruth, percentInfected) == Success(r.value.observed)
    ensures r.Success? ==> r.value.groundTruth == RejectFadeouts(attempt).curve
    ensures r.Success? <==> ObservationWindow(RejectFadeouts(attempt).curve, percentInfected).Success?
  {
    var gt := RejectFadeouts(attempt).curve;
    match ObservationWindow(gt, percentInfected)
    case Failure(e) => Failure(e)
    case Success(obs) => Success(Window(obs, gt))
  }

  /**
   * When the day that ends the window is itself below the target (always
   * the case above the 2-day floor, and at the floor when that day is the
   * last one below), the observed days total strictly less than the target.
   */
  lemma {:induction false} ObservedBelowTarget(curve: seq<nat>, percentInfected: real)
    requires ObservationWindow(curve, percentInfected).Success?
    requires |ObservationWindow(curve, percentInfected).value| < |curve|
    requires (Cumsum(curve)[|ObservationWindow(curve, percentInfected).value|] as real) < TargetSize(curve, percentInfected)
    ensures (Sum(ObservationWindow(curve, percentInfected).value) as real) < TargetSize(curve, percentInfected)
  {
    var obs := ObservationWindow(curve, percentInfected).value;
    CumsumMeaning(curve);
    SumPrefixMonotone(curve, |obs|, |obs| + 1);
    assert curve[..|obs|] == obs;
  }

  /**
   * On a simulator curve, whose first day holds the single seed case, the
   * cutoff fails exactly when the target is at most 1; otherwise the
   * observed window has between 2 days and the whole curve.
   */
  lemma {:induction false} SirCurveWindow(curve: seq<nat>, percentInfected: real)
    requires SirCurve.IsSirCurve(curve)
    ensures ObservationWindow(curve, percentInfected).Failure? <==> TargetSize(curve, percentInfected) <= 1.0
    ensures ObservationWindow(curve, percentInfected).Success? ==>
              MinObservedDays <= |ObservationWindow(curve, percentInfected).value| <= |curve|
  {
    var target := TargetSize(curve, percentInfected);
    CumsumMeaning(curve);
    assert curve[..1] == [curve[0]];
    assert Sum([curve[0]]) == curve[0] + Sum([curve[0]][1..]);
    assert Cumsum(curve)[0] == 1;
    if target <= 1.0 {
      forall j | 0 <= j < |curve|
        ensures (Cumsum(curve)[j] as real) >= target
      {
        assert Cumsum(curve)[0] <= Cumsum(curve)[j];
      }
    }
  }

  /** A fraction of at most 1 of the total is at most the total. */
  lemma {:induction false} TargetAtMostTotal(curve: seq<nat>, percentInfected: real)
    requires 0.0 <= percentInfected <= 1.0
    ensures TargetSize(curve, percentInfected) <= Sum(curve) as real
  {
  }

  /**
   * With a target no larger than the eventual total (`percent_infected`
   * at most 1), the last day is never below it, so a window past the
   * 2-day floor always leaves at least the final two days unobserved.
   */
  lemma {:induction false} WindowLeavesFinalDays(curve: seq<nat>, percentInfected: real)
    requires 0.0 <= percentInfected <= 1.0
    requires ObservationWindow(curve, percentInfected).Success?
    requires |ObservationWindow(curve, percentInfected).value| > MinObservedDays
    ensures |ObservationWindow(curve, percentInfected).value| + 2 <= |curve|
  {
    var obs := ObservationWindow(curve, percentInfected).value;
    TargetAtMostTotal(curve, percentInfected);
    CumsumMeaning(curve);
    assert (Cumsum(curve)[|obs|] as real) < TargetSize(curve, percentInfected);
    assert (Cumsum(curve)[|curve| - 1] as real) >= TargetSize(curve, percentInfected);
  }

  /**
   * The failure is reachable: the simulator returns the curve [1, 9, 0] of
   * a population of 10 (nine infected on the first step, everyone
   * recovered on the second), its total of 10 passes the rejection loop,
   * and with `percent_infected` 0.05 the target of 0.5 lies below the seed
   * day's cumulative count of 1.
   */
  lemma {:induction false} SmallTargetFails()
    ensures SirCurve.GroundTruthCurve(10, [SirCurve.Draw(9, 0), SirCurve.Draw(0, 10)]) == Success([1, 9, 0])
    ensures Sum([1, 9, 0]) >= FadeoutThreshold
    ensures ObservationWindow([1, 9, 0], 0.05).Failure?
  {
    var curve: seq<nat> := [1, 9, 0];
    var draws := [SirCurve.Draw(9, 0), SirCurve.Draw(0, 10)];
    assert Sum(curve) == 10 by {
      assert curve[1..] == [9, 0];
      assert [9, 0][1..] == [0];
      assert [0][1..] == [];
    }
    var c0 := SirCurve.Initial(10);
    var c1 := SirCurve.Step(c0, draws[0]);
    var c2 := SirCurve.Step(c1, draws[1]);
    assert c1 == SirCurve.Compartments(0, 10, 0) && c2 == SirCurve.Compartments(0, 0, 10);
    var rest := draws[1..];
    assert rest == [SirCurve.Draw(0, 10)] && rest[0] == draws[1] && rest[1..] == [];
    assert SirCurve.Simulate(c2, rest[1..]) == Success(SirCurve.Run([], c2));
    assert [0] + [] == [0];
    assert SirCurve.Simulate(c1, rest) == Success(SirCurve.Run([0], c2));
    assert [9] + [0] == [9, 0];
    assert SirCurve.Simulate(c0, draws) == Success(SirCurve.Run([9, 0], c2));
    assert [SirCurve.SeedInfections] + [9, 0] == curve;
    SirCurveWindow(curve, 0.05);
  }
}

/**
 * The discrete-time stochastic SIR recursion that produces one complete
 * epidemic curve. The two binomial draws of each step are supplied as
 * input, so the model is a deterministic function of them; the float
 * probabilities that parameterise those draws are not modelled, and the
 * draws are constrained only by the support of the binomial distribution.
 */
module SirCurve {
  import opened Results
  import opened Series

  /** Susceptible, infected and recovered head counts. */
  datatype Compartments = Compartments(susceptible: int, infected: int, recovered: int)

  /** One step's draws: new infections among the susceptible, recoveries among the infected. */
  datatype Draw = Draw(newInfections: nat, newRecoveries: nat)

  /**
   * Why a supplied draw sequence does not describe a finished epidemic:
   * it ran out while people were still infected, or a draw lies outside
   * the support of its binomial distribution. Neither can happen with a
   * real random source; both exist only because the draws are an input.
   */
  datatype SimError = DrawsExhausted | DrawOutOfSupport

  /** The new-infection count of every step, and the compartments when the loop stopped. */
  datatype Run = Run(newInfections: seq<nat>, final: Compartments)

  /** The epidemic always starts from one infected person at time 0. */
  const SeedInfections: nat := 1

  function Initial(popSize: nat): Compartments
  {
    Compartments(popSize - SeedInfections, SeedInfections, 0)
  }

  /** Binomial(n, p) draws lie in 0..n: infections among S, recoveries among I. */
  predicate InSupport(c: Compartments, d: Draw)
  {
    d.newInfections <= c.susceptible && d.newRecoveries <= c.infected
  }

  /** The compartment update of one step. */
  function Step(c: Compartments, d: Draw): Compartments
  {
    Compartments(c.susceptible - d.newInfections,
                 c.infected + d.newInfections - d.newRecoveries,
                 c.recovered + d.newRecoveries)
  }

  /** Every compartment is a head count and together they make up the population. */
  predicate Conserved(c: Compartments, popSize: nat)
  {
    c.susceptible >= 0 && c.infected >= 0 && c.recovered >= 0
    && c.susceptible + c.infected + c.recovered == popSize
  }

  /** The compartments after the first `k` draws have been applied. */
  function StateAfter(c: Compartments, draws: seq<Draw>, k: nat): Compartments
    requires k <= |draws|
    decreases k
  {
    if k == 0 then c else StateAfter(Step(c, draws[0]), draws[1..], k - 1)
  }

  /**
   * The `while num_infected > 0` loop run from `c` on the supplied draws.
   * It consumes exactly as many draws as it takes steps; the head count is
   * conserved by every step, a step from non-negative compartments with
   * in-support draws keeps them non-negative, and the loop stops with no
   * one infected.
   */
  function Simulate(c: Compartments, draws: seq<Draw>): (r: Result<Run, SimError>)
    ensures r.Success? ==> |r.value.newInfections| <= |draws|
    ensures r.Success? ==> forall i :: 0 <= i < |r.value.newInfections| ==>
                             r.value.newInfections[i] == draws[i].newInfections
    ensures r.Success? ==> r.value.final == StateAfter(c, draws, |r.value.newInfections|)
    ensures r.Success? ==> r.value.final.infected <= 0
    ensures r.Success? && c.infected > 0 ==> |r.value.newInfections| >= 1
    ensures r.Success? && c.infected <= 0 ==> r.value.newInfections == []
    ensures r.Success? ==> r.value.final.susceptible + Sum(r.value.newInfections) == c.susceptible
    ensures r.Success? ==> r.value.final.susceptible + r.value.final.infected + r.value.final.recovered
                           == c.susceptible + c.infected + c.recovered
    ensures r.Success? && c.susceptible >= 0 && c.infected >= 0 && c.recovered >= 0 ==>
              r.value.final.susceptible >= 0 && r.value.final.infected == 0 && r.value.final.recovered >= 0
    decreases |draws|
  {
    if c.infected <= 0 then
      Success(Run([], c))
    else if |draws| == 0 then
      Failure(DrawsExhausted)
    else if !InSupport(c, draws[0]) then
      Failure(DrawOutOfSupport)
    else
      match Simulate(Step(c, draws[0]), draws[1..])
      case Failure(e) => Failure(e)
      case Success(rest) =>
        assert ([draws[0].newInfections] + rest.newInfections)[1..] == rest.newInfections;
        Success(Run([draws[0].newInfections] + rest.newInfections, rest.final))
  }

  /** A curve the simulator can return: the seed case, then at least one step. */
  predicate IsSirCurve(curve: seq<nat>)
  {
    |curve| >= 2 && curve[0] == SeedInfections
  }

  /**
   * `generate_ground_truth_SIR_curve`: the seed count followed by the new
   * infections of every step until no one is infected. Day `i + 1` holds
   * draw `i`'s infections, the curve is one longer than the number of
   * steps, and its total is everyone who ever left the susceptible pool,
   * who by the end have all recovered.
   */
  function GroundTruthCurve(popSize: nat, draws: seq<Draw>): (r: Result<seq<nat>, SimError>)
    ensures r.Success? ==> IsSirCurve(r.value)
    ensures r.Success? ==> |r.value| - 1 <= |draws|
    ensures r.Success? ==> forall i :: 0 <= i < |r.value| - 1 ==> r.value[i + 1] == draws[i].newInfections
    ensures r.Success? ==> StateAfter(Initial(popSize), draws, |r.value| - 1).infected == 0
    ensures r.Success? ==> StateAfter(Initial(popSize), draws, |r.value| - 1).recovered == Sum(r.value)
    ensures r.Success? ==> Sum(r.value) <= popSize
    ensures r.Success? ==> HaltsAfter(Initial(popSize), draws, |r.value| - 1)
  {
    match Simulate(Initial(popSize), draws)
    case Failure(e) => Failure(e)
    case Success(run) =>
      var curve := [SeedInfections] + run.newInfections;
      assert curve[1..] == run.newInfections;
      SimulateHaltsAfter(Initial(popSize), draws, |run.newInfections|);
      Success(curve)
  }

  /**
   * Population conservation: if each of the first `n` draws lies in the
   * support of its step's binomial, then after every one of those steps
   * all three compartments are non-negative and sum to the population.
   */
  lemma {:induction false} SupportedStepsConserve(c: Compartments, draws: seq<Draw>, n: nat, popSize: nat)
    requires Conserved(c, popSize)
    requires n <= |draws|
    requires forall k :: 0 <= k < n ==> InSupport(StateAfter(c, draws, k), draws[k])
    ensures forall k :: 0 <= k <= n ==> Conserved(StateAfter(c, draws, k), popSize)
    decreases n
  {
    if n > 0 {
      assert InSupport(StateAfter(c, draws, 0), draws[0]);
      var c' := Step(c, draws[0]);
      forall k | 0 <= k < n - 1
        ensures InSupport(StateAfter(c', draws[1..], k), draws[1..][k])
      {
        assert InSupport(StateAfter(c, draws, k + 1), draws[k + 1]);
      }
      SupportedStepsConserve(c', draws[1..], n - 1, popSize);
      forall k | 0 <= k <= n
        ensures Conserved(StateAfter(c, draws, k), popSize)
      {
        if k > 0 {
          assert StateAfter(c, draws, k) == StateAfter(c', draws[1..], k - 1);
        }
      }
    }
  }

  /** The loop takes exactly `n` steps on `draws`: each earlier step saw someone infected and in-support draws, and after `n` steps no one is infected. */
  predicate HaltsAfter(c: Compartments, draws: seq<Draw>, n: nat)
  {
    n <= |draws|
    && (forall k :: 0 <= k < n ==> StateAfter(c, draws, k).infected > 0 && InSupport(StateAfter(c, draws, k), draws[k]))
    && StateAfter(c, draws, n).infected <= 0
  }

  /** After a first in-support step from an infected state, halting after `n` steps is halting after `n - 1` more. */
  lemma {:induction false} HaltsAfterFirstStep(c: Compartments, draws: seq<Draw>, n: nat)
    requires c.infected > 0 && |draws| > 0 && InSupport(c, draws[0]) && n > 0
    ensures HaltsAfter(c, draws, n) <==> HaltsAfter(Step(c, draws[0]), draws[1..], n - 1)
  {
    var c' := Step(c, draws[0]);
    if HaltsAfter(c', draws[1..], n - 1) {
      forall k | 0 <= k < n
        ensures StateAfter(c, draws, k).infected > 0 && InSupport(StateAfter(c, draws, k), draws[k])
      {
        if k > 0 {
          assert StateAfter(c, draws, k) == StateAfter(c', draws[1..], k - 1);
          assert draws[k] == draws[1..][k - 1];
        }
      }
      assert StateAfter(c, draws, n) == StateAfter(c', draws[1..], n - 1);
    }
    if HaltsAfter(c, draws, n) {
      forall k | 0 <= k < n - 1
        ensures StateAfter(c', draws[1..], k).infected > 0 && InSupport(StateAfter(c', draws[1..], k), draws[1..][k])
      {
        assert StateAfter(c, draws, k + 1) == StateAfter(c', draws[1..], k);
        assert StateAfter(c, draws, k + 1).infected > 0 && InSupport(StateAfter(c, draws, k + 1), draws[k + 1]);
      }
      assert StateAfter(c, draws, n) == StateAfter(c', draws[1..], n - 1);
    }
  }

  /** The simulator succeeds after `n` steps exactly when the loop, stepped by hand, halts after `n` steps. */
  lemma {:induction false} SimulateHaltsAfter(c: Compartments, draws: seq<Draw>, n: nat)
    ensures (Simulate(c, draws).Success? && |Simulate(c, draws).value.newInfections| == n) <==> HaltsAfter(c, draws, n)
    decreases |draws|
  {
    if c.infected <= 0 {
      if 0 < n <= |draws| {
        assert StateAfter(c, draws, 0).infected <= 0;
      }
    } else if |draws| == 0 {
    } else if !InSupport(c, draws[0]) {
      if 0 < n <= |draws| {
        assert !InSupport(StateAfter(c, draws, 0), draws[0]);
      }
    } else if n > 0 {
      SimulateHaltsAfter(Step(c, draws[0]), draws[1..], n - 1);
      HaltsAfterFirstStep(c, draws, n);
    }
  }

  /**
   * Along every curve the simulator returns, the head count is conserved
   * after every step: S, I and R stay non-negative and sum to `popSize`.
   */
  lemma {:induction false} ConservedAlongCurve(popSize: nat, draws: seq<Draw>)
    requires GroundTruthCurve(popSize, draws).Success?
    ensures forall k :: 0 <= k < |GroundTruthCurve(popSize, draws).value| ==>
              Conserved(StateAfter(Initial(popSize), draws, k), popSize)
  {
    var run := Simulate(Initial(popSize), draws).value;
    var n := |run.newInfections|;
    SimulateHaltsAfter(Initial(popSize), draws, n);
    assert popSize >= 1 by {
      assert InSupport(StateAfter(Initial(popSize), draws, 0), draws[0]);
    }
    SupportedStepsConserve(Initial(popSize), draws, n, popSize);
  }
}

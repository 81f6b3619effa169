/**
 * `generate_SIR_simulations`: the batch of `num_simulations` replicates of
 * `num_epidemics` epidemic slots. The generator outputs (beta, v, alpha)
 * and the per-slot `percent_infected` draws are fixed for the whole batch
 * and arrive in a `Config`; the simulator calls are an oracle
 * `attempt(j, k)(a)`, the curve of the `a`-th call made for replicate `j`
 * of slot `k`.
 */
module Simulations {
  import opened Results
  import opened Series
  import opened Observation
  import SirCurve
  import Covariates

  /** `meta_data`: one per epidemic slot, shared by every replicate of that slot. */
  datatype Metadata = Metadata(
    numEpidemics: nat,
    epidemicId: nat,
    fracEstimateOfTotal: real,
    percentInfected: real,
    popSize: nat,
    beta: real,
    gamma: real)

  /** `disease_trajectory`: one per (replicate, slot) pair. */
  datatype Trajectory = Trajectory(
    uniqueId: nat,
    simulationNumber: nat,
    epidemicNumber: nat,
    newInfections: seq<nat>,
    estimatedInfections: real,
    groundTruth: seq<nat>,
    totalInfections: nat,
    v: seq<real>,
    alpha: seq<real>,
    metadata: Metadata,
    t: seq<nat>,
    groundTruthT: seq<nat>,
    cumulativeInfections: seq<nat>,
    groundTruthCumulativeInfections: seq<nat>)

  /** The batch parameters and the draws fixed before any simulation runs. */
  datatype Config = Config(
    numSimulations: nat,
    numEpidemics: nat,
    beta: seq<real>,
    v: seq<seq<real>>,
    alpha: seq<real>,
    percentInfected: seq<real>,
    gamma: real,
    popSize: nat,
    fracEstimateOfTotal: real)

  /**
   * What the batch indexes: a beta, a `percent_infected` draw and a
   * covariate column for every slot, and a non-zero observed fraction to
   * divide by.
   */
  predicate ValidConfig(cfg: Config)
  {
    && |cfg.beta| >= cfg.numEpidemics
    && |cfg.percentInfected| >= cfg.numEpidemics
    && (forall row :: row in cfg.v ==> |row| >= cfg.numEpidemics)
    && cfg.fracEstimateOfTotal != 0.0
  }

  /** The metadata record of slot `k`. */
  function SlotMetadata(cfg: Config, k: nat): Metadata
    requires ValidConfig(cfg) && k < cfg.numEpidemics
  {
    Metadata(cfg.numEpidemics, k, cfg.fracEstimateOfTotal, cfg.percentInfected[k],
             cfg.popSize, cfg.beta[k], cfg.gamma)
  }

  /** The time indices and non-predictive cumulative sums a trajectory carries for its two series. */
  predicate SeriesDerived(d: Trajectory)
  {
    && |d.t| == |d.newInfections|
    && (forall i :: 0 <= i < |d.t| ==> d.t[i] == i)
    && |d.groundTruthT| == |d.groundTruth|
    && (forall i :: 0 <= i < |d.groundTruthT| ==> d.groundTruthT[i] == i)
    && |d.cumulativeInfections| == |d.newInfections|
    && (forall i :: 0 <= i < |d.cumulativeInfections| ==>
          d.cumulativeInfections[i] == Sum(d.newInfections[..i]))
    && |d.groundTruthCumulativeInfections| == |d.groundTruth|
    && (forall i :: 0 <= i < |d.groundTruthCumulativeInfections| ==>
          d.groundTruthCumulativeInfections[i] == Sum(d.groundTruth[..i]))
  }

  /**
   * One trajectory record. Its cumulative series count only the days
   * strictly before each day, its time indices number the days from 0, its
   * total is that of the ground truth, and its estimate, scaled back by
   * the observed fraction, is the observed total.
   */
  function MakeTrajectory(uniqueId: nat, j: nat, k: nat, md: Metadata, o: Window,
                          v: seq<real>, alpha: seq<real>): (d: Trajectory)
    requires md.fracEstimateOfTotal != 0.0
    ensures SeriesDerived(d)
    ensures d.totalInfections == Sum(o.groundTruth)
    ensures d.estimatedInfections * md.fracEstimateOfTotal == Sum(o.observed) as real
    ensures d.newInfections == o.observed && d.groundTruth == o.groundTruth
    ensures d.uniqueId == uniqueId && d.simulationNumber == j && d.epidemicNumber == k && d.metadata == md
    ensures d.v == v && d.alpha == alpha
  {
    NonPredictiveCumsumCounts(o.observed);
    NonPredictiveCumsumCounts(o.groundTruth);
    Trajectory(
      uniqueId := uniqueId,
      simulationNumber := j,
      epidemicNumber := k,
      newInfections := o.observed,
      estimatedInfections := (Sum(o.observed) as real) / md.fracEstimateOfTotal,
      groundTruth := o.groundTruth,
      totalInfections := Sum(o.groundTruth),
      v := v,
      alpha := alpha,
      metadata := md,
      t := TimeIndex(|o.observed|),
      groundTruthT := TimeIndex(|o.groundTruth|),
      cumulativeInfections := NonPredictiveCumsum(o.observed),
      groundTruthCumulativeInfections := NonPredictiveCumsum(o.groundTruth))
  }

  /** Position of replicate `j`, slot `k` in a replicate-major, slot-minor enumeration. */
  function Position(j: nat, k: nat, numEpidemics: nat): nat
  {
    j * numEpidemics + k
  }

  lemma {:induction false} MulMonotone(a: nat, b: nat, c: nat)
    requires a <= b
    ensures a * c <= b * c
    decreases b - a
  {
    if a < b {
      MulMonotone(a, b - 1, c);
      assert b * c == (b - 1) * c + c;
    }
  }

  /** After the last slot of replicate `j` comes the first slot of replicate `j + 1`. */
  lemma {:induction false} NextReplicate(j: nat, numSimulations: nat, numEpidemics: nat)
    requires j < numSimulations
    ensures Position(j, numEpidemics, numEpidemics) == Position(j + 1, 0, numEpidemics)
    ensures Position(j + 1, 0, numEpidemics) <= numSimulations * numEpidemics
  {
    assert (j + 1) * numEpidemics == j * numEpidemics + numEpidemics;
    MulMonotone(j + 1, numSimulations, numEpidemics);
  }

  /**
   * The positions of a `j`-outer, `k`-inner loop fill `0 .. S * E`
   * without gaps, and each decodes back to its `(j, k)` by division.
   */
  lemma {:induction false} FlatIndex(j: nat, k: nat, numSimulations: nat, numEpidemics: nat)
    requires j < numSimulations && k < numEpidemics
    ensures Position(j, k, numEpidemics) < numSimulations * numEpidemics
    ensures Position(j, k, numEpidemics) + 1 == Position(j, k + 1, numEpidemics)
    ensures Position(j, k, numEpidemics) / numEpidemics == j
    ensures Position(j, k, numEpidemics) % numEpidemics == k
  {
    var n := Position(j, k, numEpidemics);
    assert (j + 1) * numEpidemics == j * numEpidemics + numEpidemics;
    MulMonotone(j + 1, numSimulations, numEpidemics);
    var q := n / numEpidemics;
    var r := n % numEpidemics;
    assert n == q * numEpidemics + r;
    if q > j {
      MulMonotone(1, q - j, numEpidemics);
      assert false;
    } else if q < j {
      MulMonotone(1, j - q, numEpidemics);
      assert false;
    }
  }

  /**
   * The trajectory expected for replicate `j` of slot `k`, with the id of
   * its position; or the error its cutoff raises.
   */
  function TrajectoryOf(cfg: Config, attempt: (nat, nat) -> (nat -> seq<nat>), j: nat, k: nat): Result<Trajectory, WindowError>
    requires ValidConfig(cfg) && k < cfg.numEpidemics
  {
    var md := SlotMetadata(cfg, k);
    match GenerateObserved(md.percentInfected, attempt(j, k))
    case Failure(e) => Failure(e)
    case Success(o) => Success(MakeTrajectory(Position(j, k, cfg.numEpidemics), j, k, md, o,
                                              Covariates.Column(cfg.v, k), cfg.alpha))
  }

  /** The trajectory expected at position `p` of the batch: replicate `p / E`, slot `p % E`. */
  function SlotTrajectory(cfg: Config, attempt: (nat, nat) -> (nat -> seq<nat>), p: nat): Result<Trajectory, WindowError>
    requires ValidConfig(cfg) && cfg.numEpidemics > 0
  {
    TrajectoryOf(cfg, attempt, p / cfg.numEpidemics, p % cfg.numEpidemics)
  }

  lemma {:induction false} SlotAtPosition(cfg: Config, attempt: (nat, nat) -> (nat -> seq<nat>), j: nat, k: nat)
    requires ValidConfig(cfg) && j < cfg.numSimulations && k < cfg.numEpidemics
    ensures Position(j, k, cfg.numEpidemics) < cfg.numSimulations * cfg.numEpidemics
    ensures SlotTrajectory(cfg, attempt, Position(j, k, cfg.numEpidemics)) == TrajectoryOf(cfg, attempt, j, k)
  {
    FlatIndex(j, k, cfg.numSimulations, cfg.numEpidemics);
  }

  /** `ts` holds the first `|ts|` positions of the batch, each the trajectory expected there. */
  predicate BatchPrefix(cfg: Config, attempt: (nat, nat) -> (nat -> seq<nat>), ts: seq<Trajectory>)
    requires ValidConfig(cfg)
  {
    && |ts| <= cfg.numSimulations * cfg.numEpidemics
    && (cfg.numEpidemics > 0 ==> forall p :: 0 <= p < |ts| ==> SlotTrajectory(cfg, attempt, p) == Success(ts[p]))
  }

  /** `ts` is a finished batch: one trajectory per position, each the one expected there. */
  predicate IsBatch(cfg: Config, attempt: (nat, nat) -> (nat -> seq<nat>), ts: seq<Trajectory>)
    requires ValidConfig(cfg)
  {
    && |ts| == cfg.numSimulations * cfg.numEpidemics
    && BatchPrefix(cfg, attempt, ts)
  }

  /** Appending the trajectory expected at the next position extends a batch prefix. */
  lemma {:induction false} ExtendBatchPrefix(cfg: Config, attempt: (nat, nat) -> (nat -> seq<nat>), ts: seq<Trajectory>, d: Trajectory)
    requires ValidConfig(cfg) && cfg.numEpidemics > 0 && BatchPrefix(cfg, attempt, ts)
    requires |ts| < cfg.numSimulations * cfg.numEpidemics
    requires SlotTrajectory(cfg, attempt, |ts|) == Success(d)
    ensures BatchPrefix(cfg, attempt, ts + [d])
  {
    var ts' := ts + [d];
    forall p | 0 <= p < |ts'|
      ensures SlotTrajectory(cfg, attempt, p) == Success(ts'[p])
    {
      if p < |ts| {
        assert ts'[p] == ts[p];
      }
    }
  }

  /**
   * `generate_SIR_simulations`: builds one metadata record per slot, then
   * runs replicate-major, slot-minor, assigning ids in generation order.
   * It either returns the whole batch, or stops with the error of the
   * first position whose cutoff fails, every earlier position having
   * succeeded.
   */
  method GenerateSimulations(cfg: Config, attempt: (nat, nat) -> (nat -> seq<nat>))
    returns (r: Result<seq<Trajectory>, WindowError>)
    requires ValidConfig(cfg)
    ensures r.Success? ==> IsBatch(cfg, attempt, r.value)
    ensures r.Failure? ==>
              cfg.numEpidemics > 0
              && exists p :: 0 <= p < cfg.numSimulations * cfg.numEpidemics
                          && SlotTrajectory(cfg, attempt, p) == Failure(r.error)
                          && forall q :: 0 <= q < p ==> SlotTrajectory(cfg, attempt, q).Success?
  {
    var numEpidemics := cfg.numEpidemics;
    var metadata: seq<Metadata> := [];
    var i := 0;
    while i < numEpidemics
      invariant i <= numEpidemics && |metadata| == i
      invariant forall k :: 0 <= k < i ==> metadata[k] == SlotMetadata(cfg, k)
    {
      metadata := metadata + [Metadata(numEpidemics, i, cfg.fracEstimateOfTotal, cfg.percentInfected[i],
                                       cfg.popSize, cfg.beta[i], cfg.gamma)];
      i := i + 1;
    }

    var trajectories: seq<Trajectory> := [];
    var uniqueId: nat := 0;
    var j := 0;
    while j < cfg.numSimulations
      invariant j <= cfg.numSimulations
      invariant uniqueId == |trajectories| == Position(j, 0, numEpidemics)
      invariant BatchPrefix(cfg, attempt, trajectories)
    {
      var k := 0;
      while k < numEpidemics
        invariant k <= numEpidemics
        invariant uniqueId == |trajectories| == Position(j, k, numEpidemics)
        invariant BatchPrefix(cfg, attempt, trajectories)
      {
        SlotAtPosition(cfg, attempt, j, k);
        FlatIndex(j, k, cfg.numSimulations, numEpidemics);
        var md := metadata[k];
        var o := GenerateObserved(md.percentInfected, attempt(j, k));
        if o.Failure? {
          assert SlotTrajectory(cfg, attempt, uniqueId) == Failure(o.error);
          return Failure(o.error);
        }
        var d := MakeTrajectory(uniqueId, j, k, md, o.value, Covariates.Column(cfg.v, k), cfg.alpha);
        assert SlotTrajectory(cfg, attempt, uniqueId) == Success(d);
        ExtendBatchPrefix(cfg, attempt, trajectories, d);
        trajectories := trajectories + [d];
        uniqueId := uniqueId + 1;
        k := k + 1;
      }
      NextReplicate(j, cfg.numSimulations, numEpidemics);
      j := j + 1;
    }
    assert Position(cfg.numSimulations, 0, numEpidemics) == cfg.numSimulations * numEpidemics;
    return Success(trajectories);
  }

  /** The ids of a batch, in generation order. */
  function Ids(ts: seq<Trajectory>): (ids: seq<nat>)
    ensures |ids| == |ts|
  {
    seq(|ts|, p requires 0 <= p < |ts| => ts[p].uniqueId)
  }

  /** Every position below `S * E` is the position of its quotient and remainder by `E`. */
  lemma {:induction false} PositionOfQuotient(p: nat, numSimulations: nat, numEpidemics: nat)
    requires p < numSimulations * numEpidemics
    ensures numEpidemics > 0
    ensures Position(p / numEpidemics, p % numEpidemics, numEpidemics) == p
  {
  }

  /**
   * The trajectory at position `p` has id `p`, replicate `p / E` and
   * slot `p % E`.
   */
  lemma {:induction false} BatchPositions(cfg: Config, attempt: (nat, nat) -> (nat -> seq<nat>), ts: seq<Trajectory>)
    requires ValidConfig(cfg) && IsBatch(cfg, attempt, ts)
    ensures forall p :: 0 <= p < |ts| ==>
              ts[p].uniqueId == p
              && ts[p].simulationNumber == p / cfg.numEpidemics
              && ts[p].epidemicNumber == p % cfg.numEpidemics
  {
    forall p | 0 <= p < |ts|
      ensures ts[p].uniqueId == p && ts[p].simulationNumber == p / cfg.numEpidemics
              && ts[p].epidemicNumber == p % cfg.numEpidemics
    {
      PositionOfQuotient(p, cfg.numSimulations, cfg.numEpidemics);
      assert SlotTrajectory(cfg, attempt, p) == Success(ts[p]);
    }
  }

  /**
   * Ids are a bijection with generation order: the trajectory of
   * replicate `j`, slot `k` sits at position `j * E + k`, and the ids, in
   * order, are exactly `np.arange(S * E)`.
   */
  lemma {:induction false} BatchIds(cfg: Config, attempt: (nat, nat) -> (nat -> seq<nat>), ts: seq<Trajectory>)
    requires ValidConfig(cfg) && IsBatch(cfg, attempt, ts)
    ensures forall j, k :: 0 <= j < cfg.numSimulations && 0 <= k < cfg.numEpidemics ==>
              Position(j, k, cfg.numEpidemics) < |ts|
              && ts[Position(j, k, cfg.numEpidemics)].uniqueId == Position(j, k, cfg.numEpidemics)
              && ts[Position(j, k, cfg.numEpidemics)].simulationNumber == j
              && ts[Position(j, k, cfg.numEpidemics)].epidemicNumber == k
    ensures Ids(ts) == TimeIndex(cfg.numSimulations * cfg.numEpidemics)
  {
    BatchPositions(cfg, attempt, ts);
    forall j, k | 0 <= j < cfg.numSimulations && 0 <= k < cfg.numEpidemics
      ensures Position(j, k, cfg.numEpidemics) < |ts|
              && ts[Position(j, k, cfg.numEpidemics)].uniqueId == Position(j, k, cfg.numEpidemics)
              && ts[Position(j, k, cfg.numEpidemics)].simulationNumber == j
              && ts[Position(j, k, cfg.numEpidemics)].epidemicNumber == k
    {
      FlatIndex(j, k, cfg.numSimulations, cfg.numEpidemics);
    }
  }

  /**
   * Every replicate of slot `k` carries the same metadata record, the one
   * built for slot `k` (whose `epidemic_id` is `k`), and the same
   * covariate column and weights.
   */
  lemma {:induction false} BatchMetadataShared(cfg: Config, attempt: (nat, nat) -> (nat -> seq<nat>), ts: seq<Trajectory>)
    requires ValidConfig(cfg) && IsBatch(cfg, attempt, ts)
    ensures forall p :: 0 <= p < |ts| ==>
              ts[p].epidemicNumber < cfg.numEpidemics
              && ts[p].metadata == SlotMetadata(cfg, ts[p].epidemicNumber)
              && ts[p].metadata.epidemicId == ts[p].epidemicNumber
              && ts[p].v == Covariates.Column(cfg.v, ts[p].epidemicNumber)
              && ts[p].alpha == cfg.alpha
    ensures forall p, q :: 0 <= p < |ts| && 0 <= q < |ts| && ts[p].epidemicNumber == ts[q].epidemicNumber ==>
              ts[p].metadata == ts[q].metadata && ts[p].v == ts[q].v
  {
    forall p | 0 <= p < |ts|
      ensures ts[p].epidemicNumber < cfg.numEpidemics
              && ts[p].metadata == SlotMetadata(cfg, ts[p].epidemicNumber)
              && ts[p].v == Covariates.Column(cfg.v, ts[p].epidemicNumber)
              && ts[p].alpha == cfg.alpha
    {
      assert SlotTrajectory(cfg, attempt, p) == Success(ts[p]);
    }
  }

  /**
   * When every simulator call yields a curve of the SIR recursion, every
   * trajectory of a batch keeps the record's invariants: its observed
   * series is a prefix of the ground truth of at least 2 days, the
   * ground truth is the curve the rejection loop kept (so it is not a
   * fadeout unless the loop used all 5000 calls), its total is the ground
   * truth's, and its time indices and cumulative sums are derived from
   * its series.
   */
  lemma {:induction false} BatchTrajectoriesWellFormed(cfg: Config, attempt: (nat, nat) -> (nat -> seq<nat>), ts: seq<Trajectory>)
    requires ValidConfig(cfg) && IsBatch(cfg, attempt, ts)
    requires forall j, k, a :: SirCurve.IsSirCurve(attempt(j, k)(a))
    ensures forall p :: 0 <= p < |ts| ==>
              && SeriesDerived(ts[p])
              && ts[p].newInfections <= ts[p].groundTruth
              && MinObservedDays <= |ts[p].newInfections| <= |ts[p].groundTruth|
              && ts[p].totalInfections == Sum(ts[p].groundTruth)
              && ts[p].groundTruth == RejectFadeouts(attempt(ts[p].simulationNumber, ts[p].epidemicNumber)).curve
              && (ts[p].totalInfections >= FadeoutThreshold
                  || RejectFadeouts(attempt(ts[p].simulationNumber, ts[p].epidemicNumber)).attempts == MaxAttempts)
  {
    forall p | 0 <= p < |ts|
      ensures && SeriesDerived(ts[p])
              && ts[p].newInfections <= ts[p].groundTruth
              && MinObservedDays <= |ts[p].newInfections| <= |ts[p].groundTruth|
              && ts[p].totalInfections == Sum(ts[p].groundTruth)
              && ts[p].groundTruth == RejectFadeouts(attempt(ts[p].simulationNumber, ts[p].epidemicNumber)).curve
              && (ts[p].totalInfections >= FadeoutThreshold
                  || RejectFadeouts(attempt(ts[p].simulationNumber, ts[p].epidemicNumber)).attempts == MaxAttempts)
    {
      assert SlotTrajectory(cfg, attempt, p) == Success(ts[p]);
      var j := p / cfg.numEpidemics;
      var k := p % cfg.numEpidemics;
      var accepted := RejectFadeouts(attempt(j, k));
      assert SirCurve.IsSirCurve(attempt(j, k)(accepted.attempts - 1));
      SirCurveWindow(accepted.curve, SlotMetadata(cfg, k).percentInfected);
    }
  }
}

/** The inference classes of klqp.py: KLqp, which picks an estimator at
    initialisation and a builder when the objective is built, and the seven
    classes that always run one builder. One Dafny class stands for all eight;
    `algorithm` says which Python class the object is. */
module KLqpInference {
  import opened Types
  import opened LogDensities
  import opened Selector
  import opened RaoBlackwell
  import opened Objectives
  import opened Builders
  import opened RaoBlackwellBuilder

  class Inference {
    /** The Python class of the object. */
    const algorithm: Algorithm
    /** latent_vars, the keys of data, and model_wrapper. */
    const problem: Problem
    /** self.score, set by KLqp.initialize only. */
    var score: Option<bool>
    /** self.n_samples, set by initialize. */
    var nSamples: Option<int>

    constructor(algorithm: Algorithm, problem: Problem)
      ensures this.algorithm == algorithm && this.problem == problem
      ensures score == None && nSamples == None
    {
      this.algorithm := algorithm;
      this.problem := problem;
      score := None;
      nSamples := None;
    }

    /** KLqp.initialize(n_samples, score): store the sample count and settle
        the estimator. */
    method Initialize(n: int, scoreArg: Option<bool>)
      requires algorithm == KLqp
      modifies this
      ensures nSamples == Some(n)
      ensures score == Some(ResolveScore(scoreArg, problem.latentVars))
    {
      if scoreArg.None? && AllOf(problem.latentVars, (zq: (Node, Node)) => zq.1.isReparameterized && zq.1.isContinuous) {
        score := Some(false);
      } else {
        score := Some(true);
      }
      nSamples := Some(n);
    }

    /** initialize(n_samples) of the seven fixed-builder classes: store the
        sample count only. */
    method InitializeFixed(n: int)
      requires algorithm != KLqp
      modifies this
      ensures nSamples == Some(n) && score == old(score)
    {
      nSamples := Some(n);
    }

    /** build_loss of the three reparameterisation classes. */
    method BuildLoss(ext: Externals) returns (loss: Result<real>)
      requires algorithm.IsReparameterizationClass() && nSamples.Some?
      ensures loss == LossOf(FixedBuilder(algorithm), problem, ext, Count(nSamples.value))
    {
      match algorithm
      case ReparameterizationKLqp =>
        loss := BuildReparamLoss(problem, nSamples.value, ext);
      case ReparameterizationKLKLqp =>
        loss := BuildReparamKLLoss(problem, nSamples.value, ext);
      case ReparameterizationEntropyKLqp =>
        loss := BuildReparamEntropyLoss(problem, nSamples.value, ext);
    }

    /** build_loss_and_gradients of KLqp and of the four score classes: the
        objective of the builder that Route picks for this object. */
    method BuildLossAndGradients(varList: seq<Var>, ext: Externals) returns (r: Result<Objective>)
      requires !algorithm.IsReparameterizationClass() && nSamples.Some?
      requires algorithm == KLqp ==> score.Some?
      ensures r == ObjectiveOf(Route(algorithm, score == Some(true), IsAnalyticKL(problem)),
                               problem, ext, Count(nSamples.value), varList)
    {
      var n := nSamples.value;
      if algorithm == KLqp {
        var isAnalyticKL := IsAnalyticKL(problem);
        if score.value {
          if isAnalyticKL {
            r := BuildScoreKLLossAndGradients(problem, n, ext, varList);
          } else {
            r := BuildScoreRBLossAndGradients(problem, n, ext, varList);
          }
        } else {
          var loss: Result<real>;
          if isAnalyticKL {
            loss := BuildReparamKLLoss(problem, n, ext);
          } else {
            loss := BuildReparamLoss(problem, n, ext);
          }
          if loss.Err? {
            return Err(loss.error);
          }
          r := Ok(Objective(loss.value, GradientPairs(Pathwise(loss.value), varList)));
        }
      } else {
        match algorithm
        case ScoreKLqp =>
          r := BuildScoreLossAndGradients(problem, n, ext, varList);
        case ScoreRBKLqp =>
          r := BuildScoreRBLossAndGradients(problem, n, ext, varList);
        case ScoreKLKLqp =>
          r := BuildScoreKLLossAndGradients(problem, n, ext, varList);
        case ScoreEntropyKLqp =>
          r := BuildScoreEntropyLossAndGradients(problem, n, ext, varList);
      }
    }
  }
}

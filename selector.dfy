/** The decisions of klqp.py: which gradient estimator KLqp.initialize
    settles on, whether an analytic KL is available, and which builder each
    inference class runs. */
module Selector {
  import opened Types

  /** Python's all([...]) over a list. */
  function AllOf<T>(xs: seq<T>, p: T -> bool): (r: bool)
    ensures r <==> forall i :: 0 <= i < |xs| ==> p(xs[i])
  {
    if xs == [] then true
    else
      var rest := AllOf(xs[1..], p);
      assert forall i :: 1 <= i < |xs| ==> xs[i] == xs[1..][i - 1];
      p(xs[0]) && rest
  }

  /** The score flag that KLqp.initialize stores: the reparameterisation
      estimator is used only when no `score` argument was passed and every
      approximation is both reparameterisable and continuous. Any argument,
      False included, forces the score-function estimator. */
  function ResolveScore(scoreArg: Option<bool>, lv: seq<(Node, Node)>): (score: bool)
    ensures !score <==>
      scoreArg.None? &&
      forall i :: 0 <= i < |lv| ==> lv[i].1.isReparameterized && lv[i].1.isContinuous
    ensures scoreArg.Some? ==> score
  {
    if scoreArg.None? && AllOf(lv, (zq: (Node, Node)) => zq.1.isReparameterized && zq.1.isContinuous)
    then false
    else true
  }

  /** hasattr(model_wrapper, 'log_lik'); None has no such attribute. */
  predicate HasLogLik(w: Option<ModelWrapper>)
  {
    w.Some? && w.value.hasLogLik
  }

  /** The analytic-KL check of KLqp.build_loss_and_gradients. */
  function IsAnalyticKL(p: Problem): (r: bool)
    ensures r <==>
      (forall i :: 0 <= i < |p.latentVars| ==> p.latentVars[i].1.family == Normal) &&
      ((forall i :: 0 <= i < |p.latentVars| ==> p.latentVars[i].0.family == Normal) ||
       HasLogLik(p.modelWrapper))
  {
    var qzIsNormal := AllOf(p.latentVars, (zq: (Node, Node)) => zq.1.family == Normal);
    var zIsNormal := AllOf(p.latentVars, (zq: (Node, Node)) => zq.0.family == Normal);
    qzIsNormal && (zIsNormal || HasLogLik(p.modelWrapper))
  }

  /** KLqp's choice of builder from its two flags. The estimator follows the
      score flag, the analytic KL follows the check, and neither an entropy
      builder nor the vanilla score builder is ever chosen. */
  function Dispatch(score: bool, analyticKL: bool): (b: Builder)
    ensures b.IsScore() == score
    ensures b.UsesAnalyticKL() == analyticKL
    ensures !b.UsesAnalyticEntropy()
    ensures b != ScoreLoss
  {
    if score then
      if analyticKL then ScoreKLLoss else ScoreRBLoss
    else
      if analyticKL then ReparamKLLoss else ReparamLoss
  }

  /** The four properties in Dispatch's contract leave exactly one builder. */
  lemma DispatchIsDeterminedByItsContract(score: bool, analyticKL: bool, b: Builder)
    requires b.IsScore() == score && b.UsesAnalyticKL() == analyticKL
    requires !b.UsesAnalyticEntropy() && b != ScoreLoss
    ensures b == Dispatch(score, analyticKL)
  {
  }

  /** The builder each fixed-builder class always calls. */
  function FixedBuilder(alg: Algorithm): (b: Builder)
    requires alg != KLqp
    ensures b.IsScore() <==> alg.IsScoreClass()
    ensures b.UsesAnalyticKL() <==> alg == ReparameterizationKLKLqp || alg == ScoreKLKLqp
    ensures b.UsesAnalyticEntropy() <==> alg == ReparameterizationEntropyKLqp || alg == ScoreEntropyKLqp
    ensures b == ScoreRBLoss <==> alg == ScoreRBKLqp
  {
    match alg
    case ReparameterizationKLqp => ReparamLoss
    case ReparameterizationKLKLqp => ReparamKLLoss
    case ReparameterizationEntropyKLqp => ReparamEntropyLoss
    case ScoreKLqp => ScoreLoss
    case ScoreRBKLqp => ScoreRBLoss
    case ScoreKLKLqp => ScoreKLLoss
    case ScoreEntropyKLqp => ScoreEntropyLoss
  }

  /** The builder an inference object of class `alg` runs, given the stored
      score flag and the analytic-KL check (the fixed classes ignore both).
      The vanilla score builder is reached only through ScoreKLqp and the
      entropy builders only through their own classes. */
  function Route(alg: Algorithm, score: bool, analyticKL: bool): (b: Builder)
    ensures b == ScoreLoss <==> alg == ScoreKLqp
    ensures b.UsesAnalyticEntropy() <==>
      alg == ReparameterizationEntropyKLqp || alg == ScoreEntropyKLqp
    ensures alg == KLqp ==> b.IsScore() == score && b.UsesAnalyticKL() == analyticKL
    ensures alg.IsReparameterizationClass() ==> !b.IsScore()
    ensures alg.IsScoreClass() ==> b.IsScore()
  {
    if alg == KLqp then Dispatch(score, analyticKL) else FixedBuilder(alg)
  }

  /** A fixed-builder class runs the same builder whatever the flags, and no
      two fixed-builder classes share a builder. */
  lemma FixedClassesOwnTheirBuilder(alg: Algorithm, alg': Algorithm, s: bool, k: bool, s': bool, k': bool)
    requires alg != KLqp && alg' != KLqp
    ensures Route(alg, s, k) == Route(alg, s', k')
    ensures Route(alg, s, k) == Route(alg', s', k') <==> alg == alg'
  {
  }
}

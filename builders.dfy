/** The six builders of klqp.py that keep one running log-density per Monte
    Carlo sample: build_reparam_loss, build_reparam_kl_loss,
    build_reparam_entropy_loss and the score-function builders with and
    without an analytic term. Each fills its per-sample lists sample by
    sample, term by term, packs them and reduces them; each is proved to
    return what Objectives.LossOf or Objectives.ObjectiveOf specifies. */
module Builders {
  import opened Types
  import opened LogDensities
  import opened Objectives

  // ----- the inner loops of one sample -----

  /** `acc += log q(sample)` for every node, starting from `init`. */
  method AddApproxTerms(nodes: seq<Node>, ext: Externals, s: int, init: real) returns (acc: real)
    ensures acc == init + SumNodeQ(nodes, ext, s)
  {
    acc := init;
    for i := 0 to |nodes|
      invariant acc == init + SumNodeQ(nodes[..i], ext, s)
    {
      assert nodes[..i + 1][..i] == nodes[..i];
      acc := acc + ext.logQ(s, nodes[i]);
    }
    assert nodes[..|nodes|] == nodes;
  }

  /** `acc += log p(node)` for every node, starting from `init`. */
  method AddModelTerms(nodes: seq<Node>, ext: Externals, s: int, init: real) returns (acc: real)
    ensures acc == init + SumNodeP(nodes, ext, s)
  {
    acc := init;
    for i := 0 to |nodes|
      invariant acc == init + SumNodeP(nodes[..i], ext, s)
    {
      assert nodes[..i + 1][..i] == nodes[..i];
      acc := acc + ext.logP(s, nodes[i]);
    }
    assert nodes[..|nodes|] == nodes;
  }

  /** The data loop: `acc += log p(x | ...)` for every key of the data
      dictionary that is a random variable; other keys are skipped. */
  method AddDataTerms(data: seq<DataKey>, ext: Externals, s: int, init: real) returns (acc: real)
    ensures acc == init + SumData(data, ext, s)
  {
    acc := init;
    for j := 0 to |data|
      invariant acc == init + SumData(data[..j], ext, s)
    {
      assert data[..j + 1][..j] == data[..j];
      if data[j].Observed? {
        acc := acc + ext.logP(s, data[j].rv);
      }
    }
    assert data[..|data|] == data;
  }

  // ----- the sample loops -----

  /** The loop shared by build_reparam_loss, build_reparam_entropy_loss,
      build_score_loss_and_gradients and
      build_score_entropy_loss_and_gradients: for n_samples samples,
      accumulate q_log_prob[s] over the latents and p_log_prob[s] over the
      latents and observed variables (or take the wrapper's log_prob). */
  method SampleJoint(p: Problem, ext: Externals, nSamples: int) returns (pLogProb: seq<real>, qLogProb: seq<real>)
    ensures pLogProb == PLogProbs(p, ext, Count(nSamples))
    ensures qLogProb == QLogProbs(p, ext, Count(nSamples))
  {
    var n := Count(nSamples);
    pLogProb := seq(n, _ => 0.0);
    qLogProb := seq(n, _ => 0.0);
    for s := 0 to n
      invariant |pLogProb| == n && |qLogProb| == n
      invariant forall t :: 0 <= t < s ==> pLogProb[t] == PLogProb(p, ext, t) && qLogProb[t] == QLogProb(p, ext, t)
      invariant forall t :: s <= t < n ==> pLogProb[t] == 0.0 && qLogProb[t] == 0.0
    {
      var q := AddApproxTerms(LatentKeys(p.latentVars), ext, s, qLogProb[s]);
      qLogProb := qLogProb[s := q];
      if p.modelWrapper.None? {
        var acc := AddModelTerms(LatentKeys(p.latentVars), ext, s, pLogProb[s]);
        acc := AddDataTerms(p.data, ext, s, acc);
        pLogProb := pLogProb[s := acc];
      } else {
        pLogProb := pLogProb[s := ext.wrapperLogProb(s)];
      }
    }
  }

  /** The loop of the analytic-KL builders: accumulate q_log_prob[s] and
      p_log_lik[s], the likelihood terms of the observed variables (or the
      wrapper's log_lik, which fails at the first sample when the wrapper has
      none). */
  method SampleLikelihood(p: Problem, ext: Externals, nSamples: int)
    returns (r: Result<(seq<real>, seq<real>)>)
    ensures r.Err? <==> Count(nSamples) > 0 && LacksLogLik(p)
    ensures r.Err? ==> r.error == MissingLogLik
    ensures r.Ok? ==> r.value == (PLogLiks(p, ext, Count(nSamples)), QLogProbs(p, ext, Count(nSamples)))
  {
    var n := Count(nSamples);
    var pLogLik := seq(n, _ => 0.0);
    var qLogProb := seq(n, _ => 0.0);
    for s := 0 to n
      invariant |pLogLik| == n && |qLogProb| == n
      invariant s > 0 ==> !LacksLogLik(p)
      invariant forall t :: 0 <= t < s ==> pLogLik[t] == PLogLik(p, ext, t) && qLogProb[t] == QLogProb(p, ext, t)
      invariant forall t :: s <= t < n ==> pLogLik[t] == 0.0 && qLogProb[t] == 0.0
    {
      var q := AddApproxTerms(LatentKeys(p.latentVars), ext, s, qLogProb[s]);
      qLogProb := qLogProb[s := q];
      if p.modelWrapper.None? {
        var acc := AddDataTerms(p.data, ext, s, pLogLik[s]);
        pLogLik := pLogLik[s := acc];
      } else if p.modelWrapper.value.hasLogLik {
        pLogLik := pLogLik[s := ext.wrapperLogLik(s)];
      } else {
        return Err(MissingLogLik);
      }
    }
    assert pLogLik == PLogLiks(p, ext, n) && qLogProb == QLogProbs(p, ext, n);
    r := Ok((pLogLik, qLogProb));
  }

  // ----- the builders -----

  /** build_reparam_loss: -mean(p_log_prob - q_log_prob). */
  method BuildReparamLoss(p: Problem, nSamples: int, ext: Externals) returns (loss: Result<real>)
    ensures loss == LossOf(ReparamLoss, p, ext, Count(nSamples))
  {
    var pLogProb, qLogProb := SampleJoint(p, ext, nSamples);
    if |pLogProb| == 0 {
      return Err(EmptySampleList);
    }
    loss := Ok(-Mean(Sub(pLogProb, qLogProb)));
  }

  /** build_reparam_kl_loss: -(mean(p_log_lik) - KL). */
  method BuildReparamKLLoss(p: Problem, nSamples: int, ext: Externals) returns (loss: Result<real>)
    ensures loss == LossOf(ReparamKLLoss, p, ext, Count(nSamples))
  {
    var sampled := SampleLikelihood(p, ext, nSamples);
    if sampled.Err? {
      return Err(sampled.error);
    }
    var pLogLik := sampled.value.0;
    if |pLogLik| == 0 {
      return Err(EmptySampleList);
    }
    loss := Ok(-(Mean(pLogLik) - AnalyticKL(p, ext)));
  }

  /** build_reparam_entropy_loss: -(mean(p_log_prob) + H). */
  method BuildReparamEntropyLoss(p: Problem, nSamples: int, ext: Externals) returns (loss: Result<real>)
    ensures loss == LossOf(ReparamEntropyLoss, p, ext, Count(nSamples))
  {
    var pLogProb, _ := SampleJoint(p, ext, nSamples);
    if |pLogProb| == 0 {
      return Err(EmptySampleList);
    }
    loss := Ok(-(Mean(pLogProb) + AnalyticEntropy(p.latentVars, ext)));
  }

  /** build_score_loss_and_gradients: the vanilla loss, and the gradients of
      -mean(q_log_prob * stop_gradient(p_log_prob - q_log_prob)). */
  method BuildScoreLossAndGradients(p: Problem, nSamples: int, ext: Externals, varList: seq<Var>)
    returns (r: Result<Objective>)
    ensures r == ObjectiveOf(ScoreLoss, p, ext, Count(nSamples), varList)
  {
    var pLogProb, qLogProb := SampleJoint(p, ext, nSamples);
    if |pLogProb| == 0 {
      return Err(EmptySampleList);
    }
    var losses := Sub(pLogProb, qLogProb);
    var loss := -Mean(losses);
    r := Ok(Objective(loss, GradientPairs(ScoreFunction(qLogProb, losses, 0.0), varList)));
  }

  /** build_score_kl_loss_and_gradients: the analytic-KL loss, and the
      gradients of -(mean(q_log_prob * stop_gradient(p_log_lik)) - KL). */
  method BuildScoreKLLossAndGradients(p: Problem, nSamples: int, ext: Externals, varList: seq<Var>)
    returns (r: Result<Objective>)
    ensures r == ObjectiveOf(ScoreKLLoss, p, ext, Count(nSamples), varList)
  {
    var sampled := SampleLikelihood(p, ext, nSamples);
    if sampled.Err? {
      return Err(sampled.error);
    }
    var (pLogLik, qLogProb) := sampled.value;
    if |pLogLik| == 0 {
      return Err(EmptySampleList);
    }
    var kl := AnalyticKL(p, ext);
    var loss := -(Mean(pLogLik) - kl);
    r := Ok(Objective(loss, GradientPairs(ScoreFunction(qLogProb, pLogLik, -kl), varList)));
  }

  /** build_score_entropy_loss_and_gradients: the analytic-entropy loss, and
      the gradients of -(mean(q_log_prob * stop_gradient(p_log_prob)) + H). */
  method BuildScoreEntropyLossAndGradients(p: Problem, nSamples: int, ext: Externals, varList: seq<Var>)
    returns (r: Result<Objective>)
    ensures r == ObjectiveOf(ScoreEntropyLoss, p, ext, Count(nSamples), varList)
  {
    var pLogProb, qLogProb := SampleJoint(p, ext, nSamples);
    if |pLogProb| == 0 {
      return Err(EmptySampleList);
    }
    var entropy := AnalyticEntropy(p.latentVars, ext);
    var loss := -(Mean(pLogProb) + entropy);
    r := Ok(Objective(loss, GradientPairs(ScoreFunction(qLogProb, pLogProb, entropy), varList)));
  }
}

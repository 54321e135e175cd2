/** How each builder combines the stacked per-sample log-densities and the
    closed-form terms into a loss and a gradient surrogate. */
module Objectives {
  import opened Types
  import opened LogDensities
  import opened RaoBlackwell
  import opened Selector

  // ----- closed-form terms, summed over the latent variables -----

  /** Sum over the latents of KL(qz || z) against each Normal prior z. */
  function SumKL(lv: seq<(Node, Node)>, ext: Externals): real
  {
    if lv == [] then 0.0
    else SumKL(lv[..|lv| - 1], ext) + ext.kl(lv[|lv| - 1].1, lv[|lv| - 1].0)
  }

  /** Sum over the approximations of KL(qz || N(0, 1)). */
  function SumKLStandard(lv: seq<(Node, Node)>, ext: Externals): real
  {
    if lv == [] then 0.0
    else SumKLStandard(lv[..|lv| - 1], ext) + ext.klStandard(lv[|lv| - 1].1)
  }

  /** The list the KL term reduces: one KL per (z, qz), against the prior on
      the graph path and against N(0, 1) with a model wrapper. */
  function KLTerms(p: Problem, ext: Externals): seq<real>
  {
    seq(|p.latentVars|, i requires 0 <= i < |p.latentVars| =>
      if p.modelWrapper.None? then ext.kl(p.latentVars[i].1, p.latentVars[i].0)
      else ext.klStandard(p.latentVars[i].1))
  }

  lemma {:induction false} SumKLIsSumOfTerms(p: Problem, ext: Externals)
    ensures p.modelWrapper.None? ==> SumKL(p.latentVars, ext) == Sum(KLTerms(p, ext))
    ensures p.modelWrapper.Some? ==> SumKLStandard(p.latentVars, ext) == Sum(KLTerms(p, ext))
    decreases |p.latentVars|
  {
    var lv := p.latentVars;
    if lv != [] {
      var init := p.(latentVars := lv[..|lv| - 1]);
      SumKLIsSumOfTerms(init, ext);
      assert KLTerms(p, ext)[..|lv| - 1] == KLTerms(init, ext);
    }
  }

  /** The analytic KL term: the sum over the factors of their KL terms. */
  function AnalyticKL(p: Problem, ext: Externals): (r: real)
    ensures r == Sum(KLTerms(p, ext))
  {
    SumKLIsSumOfTerms(p, ext);
    if p.modelWrapper.None? then SumKL(p.latentVars, ext) else SumKLStandard(p.latentVars, ext)
  }

  /** The list the entropy term reduces: one entropy per approximation. */
  function EntropyTerms(lv: seq<(Node, Node)>, ext: Externals): seq<real>
  {
    seq(|lv|, i requires 0 <= i < |lv| => ext.entropy(lv[i].1))
  }

  /** Sum over the approximations of their closed-form entropies. */
  function AnalyticEntropy(lv: seq<(Node, Node)>, ext: Externals): (r: real)
    ensures r == Sum(EntropyTerms(lv, ext))
  {
    if lv == [] then 0.0
    else
      assert EntropyTerms(lv, ext)[..|lv| - 1] == EntropyTerms(lv[..|lv| - 1], ext);
      AnalyticEntropy(lv[..|lv| - 1], ext) + ext.entropy(lv[|lv| - 1].1)
  }

  /** A model wrapper without `log_lik`, which the analytic-KL builders call. */
  predicate LacksLogLik(p: Problem)
  {
    p.modelWrapper.Some? && !p.modelWrapper.value.hasLogLik
  }

  // ----- losses and surrogates -----

  /** The loss of every builder except the Rao-Blackwellised one, for n
      Monte Carlo samples. With no sample the stacked lists are empty and
      packing them is taken to fail; an analytic-KL builder with a wrapper that lacks
      `log_lik` fails at its first sample. */
  function LossOf(b: Builder, p: Problem, ext: Externals, n: nat): (r: Result<real>)
    requires b != ScoreRBLoss
    ensures r.Err? <==> n == 0 || (b.UsesAnalyticKL() && LacksLogLik(p))
    ensures n == 0 ==> r == Err(EmptySampleList)
    ensures n > 0 && r.Err? ==> r.error == MissingLogLik
  {
    if n == 0 then Err(EmptySampleList)
    else if b.UsesAnalyticKL() then
      if LacksLogLik(p) then Err(MissingLogLik)
      else Ok(-(Mean(PLogLiks(p, ext, n)) - AnalyticKL(p, ext)))
    else if b.UsesAnalyticEntropy() then
      Ok(-(Mean(PLogProbs(p, ext, n)) + AnalyticEntropy(p.latentVars, ext)))
    else
      Ok(-Mean(Sub(PLogProbs(p, ext, n), QLogProbs(p, ext, n))))
  }

  /** The score-function surrogate of the non-Rao-Blackwellised score
      builders: q_log_prob weighted by a detached learning signal, plus the
      analytic term. */
  function ScoreSurrogate(b: Builder, p: Problem, ext: Externals, n: nat): (g: Surrogate)
    requires b.IsScore() && b != ScoreRBLoss
    ensures g.ScoreFunction? && g.logQ == QLogProbs(p, ext, n) && |g.detached| == n
    ensures forall s :: 0 <= s < n ==>
      g.detached[s] == (if b.UsesAnalyticKL() then PLogLik(p, ext, s)
                        else if b.UsesAnalyticEntropy() then PLogProb(p, ext, s)
                        else PLogProb(p, ext, s) - QLogProb(p, ext, s))
    ensures n > 0 && LossOf(b, p, ext, n).Ok? ==>
      LossOf(b, p, ext, n).value == -(Mean(g.detached) + g.analytic)
  {
    var q := QLogProbs(p, ext, n);
    if b.UsesAnalyticKL() then ScoreFunction(q, PLogLiks(p, ext, n), -AnalyticKL(p, ext))
    else if b.UsesAnalyticEntropy() then ScoreFunction(q, PLogProbs(p, ext, n), AnalyticEntropy(p.latentVars, ext))
    else ScoreFunction(q, Sub(PLogProbs(p, ext, n), q), 0.0)
  }

  /** What a builder returns as (loss, grads_and_vars) for var_list: the
      reparameterisation builders differentiate the loss itself, the score
      builders their surrogate, the Rao-Blackwellised builder one surrogate per
      factor (with one log-density dictionary per sample). */
  function ObjectiveOf(b: Builder, p: Problem, ext: Externals, n: nat, varList: seq<Var>): (r: Result<Objective>)
    ensures b != ScoreRBLoss ==> (r.Err? <==> LossOf(b, p, ext, n).Err?)
    ensures b != ScoreRBLoss && r.Ok? ==>
      r.value.loss == LossOf(b, p, ext, n).value && |r.value.gradsAndVars| == |varList|
    ensures b == ScoreRBLoss ==> (r.Err? <==> n == 0)
    ensures r.Err? ==> r.error == (if n == 0 then EmptySampleList else MissingLogLik)
  {
    if b == ScoreRBLoss then ScoreRB(p, ext, n, varList)
    else
      match LossOf(b, p, ext, n)
      case Err(e) => Err(e)
      case Ok(loss) =>
        var g := if b.IsScore() then ScoreSurrogate(b, p, ext, n) else Pathwise(loss);
        Ok(Objective(loss, GradientPairs(g, varList)))
  }

  // ----- properties -----

  /** With a model wrapper the KL term is taken against N(0, 1) for every
      approximation: it does not depend on the model's prior variables. */
  lemma {:induction false} WrapperKLIgnoresPriors(lv1: seq<(Node, Node)>, lv2: seq<(Node, Node)>, ext: Externals)
    requires |lv1| == |lv2|
    requires forall i :: 0 <= i < |lv1| ==> lv1[i].1 == lv2[i].1
    ensures SumKLStandard(lv1, ext) == SumKLStandard(lv2, ext)
  {
    if lv1 != [] {
      WrapperKLIgnoresPriors(lv1[..|lv1| - 1], lv2[..|lv2| - 1], ext);
    }
  }

  /** On the graph path the vanilla loss -mean(p - q) is the analytic-KL loss
      -(mean(p_log_lik) - KL) with KL replaced by its Monte Carlo estimate
      mean(q - prior). */
  lemma VanillaLossIsKLLossWithSampledKL(p: Problem, ext: Externals, n: nat)
    requires n > 0 && p.modelWrapper.None?
    ensures LossOf(ReparamLoss, p, ext, n) ==
      Ok(-(Mean(PLogLiks(p, ext, n)) - (Mean(QLogProbs(p, ext, n)) - Mean(PriorLogProbs(p, ext, n)))))
  {
    var joint, lik, q, prior := PLogProbs(p, ext, n), PLogLiks(p, ext, n), QLogProbs(p, ext, n), PriorLogProbs(p, ext, n);
    forall s | 0 <= s < n ensures lik[s] == joint[s] - prior[s] {
      JointIsSumOverModelRVs(p, ext, s);
    }
    assert lik == Sub(joint, prior);
    MeanOfDifference(joint, prior);
    MeanOfDifference(joint, q);
  }

  /** The analytic-entropy loss -(mean(p) + H) differs from the vanilla loss
      by exactly how far H is from the Monte Carlo entropy estimate -mean(q). */
  lemma EntropyLossIsVanillaWithSampledEntropy(p: Problem, ext: Externals, n: nat)
    requires n > 0
    ensures LossOf(ReparamEntropyLoss, p, ext, n).value ==
      LossOf(ReparamLoss, p, ext, n).value - (AnalyticEntropy(p.latentVars, ext) + Mean(QLogProbs(p, ext, n)))
  {
    MeanOfDifference(PLogProbs(p, ext, n), QLogProbs(p, ext, n));
  }

  /** A score builder reports the same loss as the reparameterisation builder
      with the same analytic term; the estimators differ only in what is
      differentiated. */
  lemma ScoreBuildersReportReparamLoss(p: Problem, ext: Externals, n: nat)
    ensures LossOf(ScoreLoss, p, ext, n) == LossOf(ReparamLoss, p, ext, n)
    ensures LossOf(ScoreKLLoss, p, ext, n) == LossOf(ReparamKLLoss, p, ext, n)
    ensures LossOf(ScoreEntropyLoss, p, ext, n) == LossOf(ReparamEntropyLoss, p, ext, n)
  {
  }

  /** Outside Rao-Blackwellisation there is exactly one (gradient, variable)
      pair per element of var_list, in var_list order, all of one surrogate:
      the loss itself for the reparameterisation builders, the score surrogate
      otherwise. */
  lemma GradientPairsFollowVarList(b: Builder, p: Problem, ext: Externals, n: nat, varList: seq<Var>)
    requires b != ScoreRBLoss && ObjectiveOf(b, p, ext, n, varList).Ok?
    ensures var o := ObjectiveOf(b, p, ext, n, varList).value;
      |o.gradsAndVars| == |varList| &&
      forall i :: 0 <= i < |varList| ==>
        o.gradsAndVars[i].1 == varList[i] && o.gradsAndVars[i].0.wrt == varList[i] &&
        o.gradsAndVars[i].0.of == (if b.IsScore() then ScoreSurrogate(b, p, ext, n) else Pathwise(o.loss))
  {
  }

  /** KLqp fails on a non-empty sample list only when it picks an analytic-KL
      builder for a model wrapper without `log_lik`, which happens exactly
      when every latent and every approximation is Normal. */
  lemma KLqpFailsOnlyForWrapperWithoutLogLik(p: Problem, ext: Externals, n: nat, varList: seq<Var>, score: bool)
    requires n > 0
    ensures ObjectiveOf(Route(KLqp, score, IsAnalyticKL(p)), p, ext, n, varList).Err? <==>
      LacksLogLik(p) &&
      (forall i :: 0 <= i < |p.latentVars| ==> p.latentVars[i].0.family == Normal && p.latentVars[i].1.family == Normal)
  {
    assert SampleRows(n) != [];
  }
}

# KLqp objective construction, modelled in Dafny

This project models the decision and bookkeeping layer of Edward's `KLqp`
variational inference (`edward/inferences/klqp.py`). KLqp minimises
KL(q(z; λ) ‖ p(z | x)) by building a Monte Carlo estimate of the negative
ELBO and a list of (gradient, variable) pairs. The model covers:

- how `KLqp.initialize` settles on the score-function or the
  reparameterisation estimator;
- how `KLqp.build_loss_and_gradients` decides whether an analytic KL term is
  available and picks one of its four builders;
- how each of the seven fixed-builder classes routes to its own builder;
- how every builder fills its per-sample lists `p_log_prob[s]`,
  `p_log_lik[s]` and `q_log_prob[s]`, and how it combines them into a loss
  and a gradient surrogate;
- the Rao-Blackwellised builder: per-sample log-density dictionaries, the
  relevant set of each latent (its descendants among the model's random
  variables, plus itself), one score surrogate per variational factor, and
  the emitted pairs, factor by factor.

Everything the layer receives from outside is an opaque input, bundled in
`Types.Externals`:

- the log-density of each node at each sample;
- the model wrapper's `log_prob` and `log_lik`;
- the closed-form KL and entropy terms;
- the graph's descendant relation;
- which trainable variables belong to an approximation.

A gradient is represented by the surrogate scalar it differentiates and the
variable it is taken with respect to.

Modules:

- `Types`: the entities.
- `LogDensities`: the per-sample sums and reductions.
- `Selector`: the estimator rule, the analytic-KL check, dispatch and routing.
- `RaoBlackwell`: the specification of the Rao-Blackwellised objective.
- `Objectives`: the loss and surrogate of every builder.
- `Builders`: the six list-based builders, as loops.
- `RaoBlackwellBuilder`: the dictionary-based builder, as loops over heap
  dictionaries.
- `KLqpInference`: the inference classes.

Each builder method is proved to return exactly what the specification
functions give. Those functions carry their own lemmas.

Error paths are results, not preconditions:

- With `n_samples <= 0` the per-sample lists are empty
  (`EmptySampleList`). The Rao-Blackwellised builder then fails at
  `p_log_probs[0]`. The six list builders are taken to fail when they pack
  the empty lists; see "## Left out".
- The analytic-KL builders fail at their first sample when the model wrapper
  has no `log_lik` (`MissingLogLik`).

## Model

| member | source | states |
|---|---|---|
| `Selector.AllOf` | edward/inferences/klqp.py:40-41 | Python's `all` over a list holds exactly when the predicate holds at every index |
| `Selector.ResolveScore` | edward/inferences/klqp.py:39-44 | the score flag is false exactly when no `score` argument was passed and every approximation is reparameterised and continuous; any argument, `False` included, forces the score estimator |
| `KLqpInference.Inference.Initialize` | edward/inferences/klqp.py:26-47 | KLqp's initialize stores `n_samples` unchanged and stores the score flag that `ResolveScore` characterises |
| `KLqpInference.Inference.InitializeFixed` | edward/inferences/klqp.py:118-127 | a fixed-builder class's initialize stores `n_samples` only |
| `KLqpInference.Inference.constructor` | edward/inferences/klqp.py:23-24 | a new inference object has neither a sample count nor a score flag |
| `Selector.IsAnalyticKL` | edward/inferences/klqp.py:74-79 | the analytic-KL check holds iff every approximation is Normal and (every prior is Normal or the model wrapper has `log_lik`) |
| `Selector.Dispatch` | edward/inferences/klqp.py:80-95 | KLqp's builder uses the score estimator iff the score flag is set and the analytic KL iff the check holds; it never uses an analytic entropy and never the vanilla score builder |
| `Selector.DispatchIsDeterminedByItsContract` | edward/inferences/klqp.py:80-95 | those four properties leave exactly one builder for each pair of flags |
| `Selector.Route` | edward/inferences/klqp.py:80-306 | the vanilla score builder is reached only through ScoreKLqp, the entropy builders only through their own classes; KLqp follows its flags; reparameterisation classes never use the score estimator and score classes always do |
| `Selector.FixedBuilder` | edward/inferences/klqp.py:130-306 | each fixed-builder class's builder uses the score estimator iff the class is a score class, the analytic KL iff it is a KL class, the analytic entropy iff it is an entropy class, and Rao-Blackwellisation iff it is ScoreRBKLqp |
| `Selector.FixedClassesOwnTheirBuilder` | edward/inferences/klqp.py:105-306 | a fixed-builder class runs the same builder whatever the flags, and no two fixed-builder classes share a builder |
| `KLqpInference.Inference.BuildLoss` | edward/inferences/klqp.py:130-190 | `build_loss` of the three reparameterisation classes returns the loss of that class's builder |
| `KLqpInference.Inference.BuildLossAndGradients` | edward/inferences/klqp.py:49-99 | KLqp and the score classes return the objective of the builder `Route` picks, where the Rao-Blackwellised one is the corrected builder (`ScoreRB`; see "## Left out"); on KLqp's reparameterisation path the loss itself is differentiated for each variable of var_list |
| `LogDensities.SumDataIsSumOverObserved` | edward/inferences/klqp.py:345-348 | the data loop adds one term per data key that is a random variable; other keys contribute nothing, wherever they stand |
| `LogDensities.JointIsSumOverModelRVs` | edward/inferences/klqp.py:341-348 | on the graph path `p_log_prob[s]` is the sum over model_rvs (latents, then observed random variables) and splits into prior terms plus `p_log_lik[s]` |
| `LogDensities.Dedup` | edward/inferences/klqp.py:590-591 | the keys of a dictionary filled from a key sequence hold no duplicates |
| `LogDensities.QLogProb` | edward/inferences/klqp.py:324-330 | `q_log_prob[s]` is the sum of the latents' approximation terms at sample s and reads nothing else |
| `LogDensities.PLogProb` | edward/inferences/klqp.py:332-351 | on the graph path `p_log_prob[s]` has one term per element of model_rvs; with a model wrapper it is the wrapper's `log_prob` |
| `LogDensities.PLogLik` | edward/inferences/klqp.py:386-401 | on the graph path `p_log_lik[s]` has one term per observed random variable; with a model wrapper it is the wrapper's `log_lik` |
| `LogDensities.GradientPairs` | edward/inferences/klqp.py:97-98 | one pair per variable, in var_list order, each the gradient of the given surrogate with respect to its own variable |
| `Builders.AddApproxTerms` | edward/inferences/klqp.py:326-330 | the latent loop adds exactly the sum of log q over the latents to `q_log_prob[s]` |
| `Builders.AddModelTerms` | edward/inferences/klqp.py:341-343 | the prior loop adds exactly the sum of log p over the latents to `p_log_prob[s]` |
| `Builders.AddDataTerms` | edward/inferences/klqp.py:345-348 | the data loop adds exactly the likelihood terms of the observed random variables |
| `Builders.SampleJoint` | edward/inferences/klqp.py:322-351 | after the sample loop, `p_log_prob` and `q_log_prob` hold, for each of the n_samples samples, the joint (or the wrapper's `log_prob`) and the approximation's log-density |
| `Builders.SampleLikelihood` | edward/inferences/klqp.py:377-401 | the analytic-KL sample loop yields `p_log_lik` and `q_log_prob` per sample, or fails exactly when there is a sample and the wrapper has no `log_lik` |
| `Builders.BuildReparamLoss` | edward/inferences/klqp.py:309-356 | returns `-mean(p_log_prob - q_log_prob)`, or fails on an empty sample list |
| `Builders.BuildReparamKLLoss` | edward/inferences/klqp.py:359-414 | returns `-(mean(p_log_lik) - KL)`, or fails for a missing `log_lik` or an empty sample list |
| `Builders.BuildReparamEntropyLoss` | edward/inferences/klqp.py:417-468 | returns `-(mean(p_log_prob) + H)`, or fails on an empty sample list |
| `Builders.BuildScoreLossAndGradients` | edward/inferences/klqp.py:471-519 | returns the vanilla loss and, per element of var_list, the gradient of `-mean(q_log_prob * stop_gradient(p_log_prob - q_log_prob))` |
| `Builders.BuildScoreKLLossAndGradients` | edward/inferences/klqp.py:595-651 | returns the analytic-KL loss and, per element of var_list, the gradient of `-(mean(q_log_prob * stop_gradient(p_log_lik)) - KL)` |
| `Builders.BuildScoreEntropyLossAndGradients` | edward/inferences/klqp.py:654-707 | returns the analytic-entropy loss and, per element of var_list, the gradient of `-(mean(q_log_prob * stop_gradient(p_log_prob)) + H)` |
| `Objectives.LossOf` | edward/inferences/klqp.py:377-403 | a builder's loss fails exactly when there is no sample, or when an analytic-KL builder meets a model wrapper without `log_lik` |
| `Objectives.AnalyticKL` | edward/inferences/klqp.py:405-411 | the KL term is the sum over the factors of KL(qz ‖ z), or of KL(qz ‖ N(0, 1)) with a model wrapper |
| `Objectives.AnalyticEntropy` | edward/inferences/klqp.py:464-465 | the entropy term is the sum over the approximations of their entropies |
| `Objectives.ScoreSurrogate` | edward/inferences/klqp.py:513-517 | the score surrogate weights `q_log_prob` by a detached learning signal, one per sample, where index s is sample s's own `p_log_lik[s]` (analytic KL), `p_log_prob[s]` (analytic entropy) or `p_log_prob[s] - q_log_prob[s]`; the signal's mean plus the analytic term is exactly minus the reported loss |
| `Objectives.ObjectiveOf` | edward/inferences/klqp.py:80-99 | a builder's objective fails exactly when its loss fails (the Rao-Blackwellised one exactly when there is no sample), and otherwise, outside Rao-Blackwellisation, reports that loss with one pair per element of var_list |
| `Objectives.VanillaLossIsKLLossWithSampledKL` | edward/inferences/klqp.py:353-413 | on the graph path the vanilla loss equals the analytic-KL loss with the KL replaced by its Monte Carlo estimate `mean(q - prior)` |
| `Objectives.EntropyLossIsVanillaWithSampledEntropy` | edward/inferences/klqp.py:462-467 | the analytic-entropy loss differs from the vanilla loss by exactly `H + mean(q_log_prob)`, the error of the sampled entropy |
| `Objectives.WrapperKLIgnoresPriors` | edward/inferences/klqp.py:409-411 | with a model wrapper the KL term is taken against N(0, 1) and does not depend on the prior variables |
| `Objectives.ScoreBuildersReportReparamLoss` | edward/inferences/klqp.py:510-514 | each score builder reports the same loss as the reparameterisation builder with the same analytic term |
| `Objectives.GradientPairsFollowVarList` | edward/inferences/klqp.py:515-518 | outside Rao-Blackwellisation there is one pair per element of var_list, in var_list order, each of the same surrogate |
| `Objectives.KLqpFailsOnlyForWrapperWithoutLogLik` | edward/inferences/klqp.py:74-91 | with at least one sample, KLqp fails exactly when it has a wrapper without `log_lik` and every latent and approximation is Normal |
| `RaoBlackwell.DescendantsMembers` | edward/inferences/klqp.py:573 | `get_descendants(candidates)` keeps exactly the candidates that descend from z |
| `RaoBlackwell.Descendants` | edward/inferences/klqp.py:573 | the descendants of z among the candidates are at most as many as the candidates, and a node is among them iff it is a candidate that descends from z |
| `RaoBlackwell.Relevant` | edward/inferences/klqp.py:568-573 | `model_rvs_i` ends with z and holds exactly z and z's descendants among model_rvs |
| `RaoBlackwell.RelevantMembers` | edward/inferences/klqp.py:568-573 | the relevant set of z holds z and exactly its descendants among the latents and observed random variables |
| `RaoBlackwell.LatentsAmongMembers` | edward/inferences/klqp.py:577-578 | the q-sum of a factor ranges over exactly the relevant nodes that are latents |
| `RaoBlackwell.OwnedVarsMembers` | edward/inferences/klqp.py:583 | a factor's variables are exactly the elements of var_list that belong to its approximation |
| `RaoBlackwell.RBPairsBelongToTheirFactor` | edward/inferences/klqp.py:572-588 | every emitted pair is for a variable of var_list, taken for that variable, owned by some factor, and of that factor's Rao-Blackwellised surrogate |
| `RaoBlackwell.RBPairs` | edward/inferences/klqp.py:571-588 | every pair emitted by the factor loop is a score-surrogate gradient, one surrogate term per stacked index, taken with respect to its own variable, which is in var_list |
| `RaoBlackwell.RBPairsComplete` | edward/inferences/klqp.py:583-588 | conversely, for every factor and every var_list variable its approximation depends on, the pair (gradient of that factor's surrogate with respect to the variable, the variable) is emitted |
| `RaoBlackwell.RBPairsPrefix` | edward/inferences/klqp.py:571-588 | the pairs are emitted factor by factor: those of the first j factors are a prefix of those of the first k, for j ≤ k |
| `RaoBlackwell.ScoreRB` | edward/inferences/klqp.py:537-592 | with one dictionary per sample the objective fails exactly when there is no sample, and its loss reads sample 0 |
| `RaoBlackwell.SharedDictRB` | edward/inferences/klqp.py:537-592 | with `[{}] * n_samples` the objective fails exactly when there is no sample, and its loss reads the last sample |
| `RaoBlackwell.PerSampleIndexReadsItsSample` | edward/inferences/klqp.py:576-582 | with one dictionary per sample, index s of every factor's surrogate holds sample s's relevant-set terms, for every problem |
| `RaoBlackwell.SharedIndexReadsLastSample` | edward/inferences/klqp.py:537-538 | with the shared dictionary, every index of every factor's surrogate holds the last sample's terms, for every problem |
| `RaoBlackwell.OneSampleDictsAgree` | edward/inferences/klqp.py:537-538 | with at most one sample, the default, the shared dictionary and per-sample dictionaries give the same objective |
| `RaoBlackwell.RaoBlackwellLocality` | edward/inferences/klqp.py:572-586 | a factor's surrogate depends only on the log-densities of its relevant set; changing any other variable's terms leaves it unchanged |
| `RaoBlackwell.RBLossIsJointDifference` | edward/inferences/klqp.py:590-591 | when no node is both latent and observed, the reported loss is the joint difference `-(p - q)` of the sample that index 0 reads |
| `RaoBlackwell.PerSampleDictsKeepSamplesApart` | edward/inferences/klqp.py:537-591 | with one dictionary per sample, index s holds sample s's relevant-set terms and the reported loss is sample 0's joint difference |
| `RaoBlackwell.SharedDictsReadOnlyLastSample` | edward/inferences/klqp.py:537-538 | with the shared dictionary, every index and the reported loss read the last sample |
| `RaoBlackwell.SharedDictCounterexample` | edward/inferences/klqp.py:590-591 | two samples whose model terms differ give a reported loss that differs from the per-sample version's |
| `RaoBlackwell.SingleFactorRelevantSet` | edward/inferences/klqp.py:568-578 | for a single latent that every observed random variable descends from, the relevant set is the observed variables then z, and its only latent is z |
| `RaoBlackwell.SingleFactorP` | edward/inferences/klqp.py:573-579 | for a single latent that every observed random variable descends from, a sample's `pi_log_prob` is that sample's full joint log-density |
| `RaoBlackwell.SingleFactorQ` | edward/inferences/klqp.py:573-578 | in that case a sample's `qi_log_prob` is that sample's full `q_log_prob` |
| `RaoBlackwell.RBMatchesScoreForSingleFactor` | edward/inferences/klqp.py:572-585 | in that case the factor's stacked terms equal the vanilla score builder's `p_log_prob` and `q_log_prob` |
| `RaoBlackwell.LookupP` | edward/inferences/klqp.py:579 | reading a dictionary that holds the model terms of a sample sums exactly those terms |
| `RaoBlackwell.LookupQ` | edward/inferences/klqp.py:577-578 | reading a dictionary that holds the approximation terms of a sample sums exactly those terms |
| `RaoBlackwell.OverwrittenEntries` | edward/inferences/klqp.py:537-538 | a sample that writes the same keys as the previous one leaves nothing of the previous sample in the dictionary |
| `RaoBlackwellBuilder.LogDensityDict.constructor` | edward/inferences/klqp.py:537 | a new dictionary is empty |
| `RaoBlackwellBuilder.WriteApproxTerms` | edward/inferences/klqp.py:542-547 | the latent loop writes log q of each latent's draw, overwriting earlier entries |
| `RaoBlackwellBuilder.WriteModelTerms` | edward/inferences/klqp.py:558-560 | the prior loop writes log p of each latent |
| `RaoBlackwellBuilder.WriteDataTerms` | edward/inferences/klqp.py:562-565 | the data loop writes log p of each observed random variable and nothing for other keys |
| `RaoBlackwellBuilder.WriteSample` | edward/inferences/klqp.py:539-565 | after one sample the dictionaries hold that sample's terms for model_rvs and for the latents, on top of what they held |
| `RaoBlackwellBuilder.RaoBlackwellGradients` | edward/inferences/klqp.py:571-588 | the per-factor loop stacks each factor's relevant-set terms and emits the pairs `RBPairs` specifies, factor by factor |
| `RaoBlackwellBuilder.StackFactorTerms` | edward/inferences/klqp.py:573-582 | for one factor, `pi_log_prob[t]` and `qi_log_prob[t]` are the relevant-set sums of the sample that index t holds |
| `RaoBlackwellBuilder.AppendPairs` | edward/inferences/klqp.py:583-588 | one (gradient, variable) pair is appended per variable of the factor, in var_list order |
| `RaoBlackwellBuilder.ReadDicts` | edward/inferences/klqp.py:571-592 | after the sample loop the builder returns the Rao-Blackwellised objective of the samples the dictionaries hold, or fails when there is no sample |
| `RaoBlackwellBuilder.SubsetOfModelRVs` | edward/inferences/klqp.py:573-579 | every key a factor reads is present in the dictionaries |
| `RaoBlackwellBuilder.ReportedLoss` | edward/inferences/klqp.py:590-591 | the loss sums each dictionary's values once per distinct key |
| `RaoBlackwellBuilder.FreshSample` | edward/inferences/klqp.py:539-565 | one sample written into two new dictionaries leaves them holding exactly that sample's terms |
| `RaoBlackwellBuilder.WritePerSampleDicts` | edward/inferences/klqp.py:537-565 | with one dictionary per sample, index t of each list holds exactly sample t's terms after the loop |
| `RaoBlackwellBuilder.Repeat` | edward/inferences/klqp.py:537-538 | `[d] * n` is n references to the same dictionary |
| `RaoBlackwellBuilder.WriteSharedDicts` | edward/inferences/klqp.py:537-565 | with `[{}] * n_samples` the shared dictionaries hold the last sample's terms only after the loop |
| `RaoBlackwellBuilder.BuildScoreRBLossAndGradients` | edward/inferences/klqp.py:522-592 | with one dictionary per sample the builder returns the Rao-Blackwellised objective `ScoreRB` |
| `RaoBlackwellBuilder.BuildScoreRBLossAndGradientsAsWritten` | edward/inferences/klqp.py:537-592 | with `[{}] * n_samples` the builder returns `SharedDictRB`, in which every index reads the last sample |

## Left out

- TensorFlow's numerics are not modelled: automatic differentiation, `stop_gradient`, `pack`, `unpack` and the reductions. A gradient is the pair of the surrogate it differentiates and the variable; reductions are exact sums and means over reals.
- Floating-point behaviour is not modelled; sums are taken in exact real arithmetic, so the order in which dictionary values are summed does not matter.
- Monte Carlo sampling and the graph copy with substitution are not modelled. Each (sample, node) log-density is an input, so the `dict_swap` substitution dictionary, which is the same object as `z_sample`, does not appear.
- `log_prob`, `entropy`, `get_variables` and `kl_multivariate_normal` are defined outside this file. They are opaque inputs, so the KL and entropy are trusted to be analytic for the approximations involved.
- RaoBlackwell.Descendants: only the descendant relation is an opaque input. `get_descendants(candidates)` is taken to return the candidates that descend from z, in candidate order, with repeated candidates kept. This matters only for a node that is both a latent and a data key.
- `get_variables` is taken to return the approximation's variables in var_list order.
- The model wrapper's `log_prob` and `log_lik` are opaque inputs; only whether `log_lik` exists is modelled.
- The `VariationalInference` superclass, including the rest of `initialize` and the `build_loss_and_gradients` it gives the reparameterisation classes, is not part of this model.
- The `n_samples=1` default is not modelled; the sample count is always passed.
- `MFVI` is a second name for `KLqp` and adds no behaviour.
- Builders.SampleJoint also computes `q_log_prob` for `build_reparam_entropy_loss`, which does not use it.
- Builders.SampleLikelihood also computes `q_log_prob` for `build_reparam_kl_loss`, which does not use it. Neither extra list changes any result.
- RaoBlackwell.RBLossIsJointDifference, RaoBlackwell.PerSampleDictsKeepSamplesApart and RaoBlackwell.SharedDictsReadOnlyLastSample require that no node is both a latent and a data key, which klqp.py does not demand. For such a node the dictionary keeps a single entry, while the joint counts it twice. Only their loss conjunct needs it: the per-index facts hold for every problem, as RaoBlackwell.PerSampleIndexReadsItsSample and RaoBlackwell.SharedIndexReadsLastSample state.
- Objectives.LossOf and the six list builders (`Builders.BuildReparamLoss` and the rest) assume that `tf.pack` of an empty list fails, so that an empty sample list gives `EmptySampleList`. This is an assumption about TensorFlow; klqp.py itself does not check the sample count. The Rao-Blackwellised builder needs no such assumption: it fails at `p_log_probs[0]`.
- KLqpInference.Inference.BuildLossAndGradients runs the corrected Rao-Blackwellised builder (`BuildScoreRBLossAndGradients`, objective `ScoreRB`) for KLqp and ScoreRBKLqp, where klqp.py runs the shared-dictionary code (`SharedDictRB`; see "## Findings"). The two agree for at most one sample (RaoBlackwell.OneSampleDictsAgree) and differ from two samples on (RaoBlackwell.SharedDictCounterexample).
- The Rao-Blackwellised builder ignores the model wrapper; the model does the same.

## Findings

| source | as written | input that shows it | evidently intended | confidence | as-written member | corrected member |
|---|---|---|---|---|---|---|
| edward/inferences/klqp.py:537-538 | `[{}] * n_samples` makes every element of `p_log_probs` (and of `q_log_probs`) one shared dictionary. Each sample overwrites the previous one's entries, so every stacked index and the reported "sample 0" loss read the last sample. | two samples of one latent z, with no data, where log p(z) is 0 at sample 0 and 1 at sample 1 and log q(z) is equal at both: the reported loss is the per-sample one minus 1 | one dictionary per sample, so index s reads sample s and the loss reads sample 0 | not executed | `RaoBlackwellBuilder.BuildScoreRBLossAndGradientsAsWritten`, `RaoBlackwell.SharedDictCounterexample` | `RaoBlackwellBuilder.BuildScoreRBLossAndGradients`, `RaoBlackwell.PerSampleDictsKeepSamplesApart` |

The inference classes (`KLqpInference.Inference.BuildLossAndGradients`, for KLqp and ScoreRBKLqp) run the corrected builder.

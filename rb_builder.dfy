/** build_score_rb_loss_and_gradients, step by step: one pass over the
    samples that writes each sample's log-densities into dictionaries keyed by
    random variable, then one pass per variational factor that reads, at each
    stacked index, the terms of the factor's relevant set.

    The dictionaries are objects on the heap. The builder as written fills
    `[{}] * n_samples`, a list whose every element is one and the same
    dictionary; BuildScoreRBLossAndGradients gives each sample a dictionary of
    its own, as the per-sample indexing intends. */
module RaoBlackwellBuilder {
  import opened Types
  import opened LogDensities
  import opened RaoBlackwell

  /** A Python dict from random variables to log-density tensors. */
  class LogDensityDict {
    var entries: map<Node, real>

    /** `{}` */
    constructor()
      ensures entries == map[]
    {
      entries := map[];
    }
  }

  /** `d[rv] = log q(rv)` for each node in order, at sample s. */
  method WriteApproxTerms(nodes: seq<Node>, ext: Externals, s: int, d: LogDensityDict)
    modifies d
    ensures d.entries == old(d.entries) + QEntries(nodes, ext, s)
  {
    for i := 0 to |nodes|
      invariant d.entries == old(d.entries) + QEntries(nodes[..i], ext, s)
    {
      assert nodes[..i + 1] == nodes[..i] + [nodes[i]];
      QEntriesStep(old(d.entries), nodes[..i], nodes[i], ext, s);
      d.entries := d.entries[nodes[i] := ext.logQ(s, nodes[i])];
    }
    assert nodes[..|nodes|] == nodes;
  }

  /** `d[rv] = log p(rv)` for each node in order, at sample s. */
  method WriteModelTerms(nodes: seq<Node>, ext: Externals, s: int, d: LogDensityDict)
    modifies d
    ensures d.entries == old(d.entries) + PEntries(nodes, ext, s)
  {
    for i := 0 to |nodes|
      invariant d.entries == old(d.entries) + PEntries(nodes[..i], ext, s)
    {
      assert nodes[..i + 1] == nodes[..i] + [nodes[i]];
      PEntriesStep(old(d.entries), nodes[..i], nodes[i], ext, s);
      d.entries := d.entries[nodes[i] := ext.logP(s, nodes[i])];
    }
    assert nodes[..|nodes|] == nodes;
  }

  /** The data loop: `d[x] = log p(x | ...)` for every key of the data
      dictionary that is a random variable; other keys are skipped. */
  method WriteDataTerms(data: seq<DataKey>, ext: Externals, s: int, d: LogDensityDict)
    modifies d
    ensures d.entries == old(d.entries) + PEntries(ObservedRVs(data), ext, s)
  {
    for j := 0 to |data|
      invariant d.entries == old(d.entries) + PEntries(ObservedRVs(data[..j]), ext, s)
    {
      assert data[..j + 1][..j] == data[..j];
      if data[j].Observed? {
        assert ObservedRVs(data[..j + 1]) == ObservedRVs(data[..j]) + [data[j].rv];
        PEntriesStep(old(d.entries), ObservedRVs(data[..j]), data[j].rv, ext, s);
        d.entries := d.entries[data[j].rv := ext.logP(s, data[j].rv)];
      } else {
        assert ObservedRVs(data[..j + 1]) == ObservedRVs(data[..j]);
      }
    }
    assert data[..|data|] == data;
  }

  /** The first loop body for sample s: write log q of each latent's draw
      into qd, then log p of each latent and each observed random variable
      into pd. Keys already present are overwritten. */
  method WriteSample(p: Problem, ext: Externals, s: int, pd: LogDensityDict, qd: LogDensityDict)
    requires pd != qd
    modifies pd, qd
    ensures qd.entries == old(qd.entries) + ApproxDict(p, ext, s)
    ensures pd.entries == old(pd.entries) + ModelDict(p, ext, s)
  {
    var keys := LatentKeys(p.latentVars);
    WriteApproxTerms(keys, ext, s, qd);
    WriteModelTerms(keys, ext, s, pd);
    WriteDataTerms(p.data, ext, s, pd);
    PEntriesAppend(old(pd.entries), keys, ObservedRVs(p.data), ext, s);
  }

  /** The inner loop over the stacked indices for factor z: pi_log_prob[t]
      and qi_log_prob[t] sum the relevant-set terms found in the dictionaries
      at index t, which hold sample rows[t]. */
  method StackFactorTerms(
    p: Problem, ext: Externals, z: Node, k: nat,
    pLogProbs: seq<LogDensityDict>, qLogProbs: seq<LogDensityDict>, ghost rows: seq<int>)
    returns (piLogProb: seq<real>, qiLogProb: seq<real>)
    requires k < |p.latentVars| && z == p.latentVars[k].0
    requires |pLogProbs| == |rows| && |qLogProbs| == |rows|
    requires forall t :: 0 <= t < |rows| ==>
      pLogProbs[t].entries == ModelDict(p, ext, rows[t]) && qLogProbs[t].entries == ApproxDict(p, ext, rows[t])
    ensures piLogProb == FactorPs(p, ext, z, rows) && qiLogProb == FactorQs(p, ext, z, rows)
  {
    var n := |pLogProbs|;
    var modelRVsI := Relevant(p, ext, z);
    var latentsI := LatentsAmong(modelRVsI, LatentKeys(p.latentVars));
    SubsetOfModelRVs(p, ext, k);
    piLogProb := seq(n, _ => 0.0);
    qiLogProb := seq(n, _ => 0.0);
    for s := 0 to n
      invariant |piLogProb| == n && |qiLogProb| == n
      invariant forall t :: 0 <= t < s ==>
        piLogProb[t] == FactorP(p, ext, z, rows[t]) && qiLogProb[t] == FactorQ(p, ext, z, rows[t])
    {
      LookupP(modelRVsI, pLogProbs[s].entries, ext, rows[s]);
      LookupQ(latentsI, qLogProbs[s].entries, ext, rows[s]);
      qiLogProb := qiLogProb[s := SumLookup(latentsI, qLogProbs[s].entries)];
      piLogProb := piLogProb[s := SumLookup(modelRVsI, pLogProbs[s].entries)];
    }
  }

  /** `grads_and_vars.append((grad, var))` for each variable of qz, in
      var_list order, each the gradient of the factor's surrogate. */
  method AppendPairs(init: seq<(Gradient, Var)>, surrogate: Surrogate, qzVars: seq<Var>)
    returns (gradsAndVars: seq<(Gradient, Var)>)
    ensures gradsAndVars == init + GradientPairs(surrogate, qzVars)
  {
    gradsAndVars := init;
    for j := 0 to |qzVars|
      invariant gradsAndVars == init + GradientPairs(surrogate, qzVars[..j])
    {
      assert GradientPairs(surrogate, qzVars[..j + 1]) ==
        GradientPairs(surrogate, qzVars[..j]) + [(Gradient(surrogate, qzVars[j]), qzVars[j])];
      gradsAndVars := gradsAndVars + [(Gradient(surrogate, qzVars[j]), qzVars[j])];
    }
    assert qzVars[..|qzVars|] == qzVars;
  }

  /** The per-factor loop shared by both variants: for each (z, qz), stack
      over the indices the relevant-set terms read from the dictionaries, and
      emit one (gradient, variable) pair per variable of qz in var_list. Index
      t holds the dictionaries of sample rows[t]. */
  method RaoBlackwellGradients(
    p: Problem, ext: Externals, varList: seq<Var>,
    pLogProbs: seq<LogDensityDict>, qLogProbs: seq<LogDensityDict>, ghost rows: seq<int>)
    returns (gradsAndVars: seq<(Gradient, Var)>)
    requires |pLogProbs| == |rows| && |qLogProbs| == |rows|
    requires forall t :: 0 <= t < |rows| ==>
      pLogProbs[t].entries == ModelDict(p, ext, rows[t]) && qLogProbs[t].entries == ApproxDict(p, ext, rows[t])
    ensures gradsAndVars == RBPairs(p, ext, rows, varList, |p.latentVars|)
  {
    gradsAndVars := [];
    for k := 0 to |p.latentVars|
      invariant gradsAndVars == RBPairs(p, ext, rows, varList, k)
    {
      var z, qz := p.latentVars[k].0, p.latentVars[k].1;
      var piLogProb, qiLogProb := StackFactorTerms(p, ext, z, k, pLogProbs, qLogProbs, rows);
      var surrogate := ScoreFunction(qiLogProb, Sub(piLogProb, qiLogProb), 0.0);
      gradsAndVars := AppendPairs(gradsAndVars, surrogate, OwnedVars(qz, varList, ext));
    }
  }

  /** The relevant set of the k-th latent lies among model_rvs, so the model
      dictionaries hold all of its terms and the approximation dictionaries
      all of its latent terms. */
  lemma SubsetOfModelRVs(p: Problem, ext: Externals, k: nat)
    requires k < |p.latentVars|
    ensures forall s :: HoldsP(ModelDict(p, ext, s), Relevant(p, ext, p.latentVars[k].0), ext, s)
    ensures forall s :: HoldsQ(ApproxDict(p, ext, s),
      LatentsAmong(Relevant(p, ext, p.latentVars[k].0), LatentKeys(p.latentVars)), ext, s)
  {
    var z := p.latentVars[k].0;
    var keys := LatentKeys(p.latentVars);
    assert keys[k] == z;
    forall x | x in Relevant(p, ext, z) ensures x in ModelRVs(p) {
      RelevantMembers(p, ext, z, x);
    }
    forall x | x in LatentsAmong(Relevant(p, ext, z), keys) ensures x in keys {
      LatentsAmongMembers(Relevant(p, ext, z), keys, x);
    }
  }

  /** The reported loss: the sum of the values of each dictionary at index 0,
      one term per distinct key. */
  method ReportedLoss(p: Problem, pd: LogDensityDict, qd: LogDensityDict, ext: Externals, ghost s: int)
    returns (loss: real)
    requires pd.entries == ModelDict(p, ext, s) && qd.entries == ApproxDict(p, ext, s)
    ensures loss == DictLoss(p, ext, s)
  {
    var modelKeys, latentKeys := Dedup(ModelRVs(p)), Dedup(LatentKeys(p.latentVars));
    forall x | x in modelKeys ensures x in ModelRVs(p) {
      DedupMembers(ModelRVs(p), x);
    }
    forall x | x in latentKeys ensures x in LatentKeys(p.latentVars) {
      DedupMembers(LatentKeys(p.latentVars), x);
    }
    LookupP(modelKeys, pd.entries, ext, s);
    LookupQ(latentKeys, qd.entries, ext, s);
    loss := -(SumLookup(modelKeys, pd.entries) - SumLookup(latentKeys, qd.entries));
  }

  /** The first loop body with dictionaries of its own: two new dicts,
      filled with sample s. */
  method FreshSample(p: Problem, ext: Externals, s: int) returns (pd: LogDensityDict, qd: LogDensityDict)
    ensures fresh(pd) && fresh(qd)
    ensures pd.entries == ModelDict(p, ext, s) && qd.entries == ApproxDict(p, ext, s)
  {
    pd := new LogDensityDict();
    qd := new LogDensityDict();
    WriteSample(p, ext, s, pd, qd);
  }

  /** The sample loop with a fresh pair of dictionaries for each sample. */
  method WritePerSampleDicts(p: Problem, ext: Externals, n: nat)
    returns (pLogProbs: seq<LogDensityDict>, qLogProbs: seq<LogDensityDict>)
    ensures |pLogProbs| == n && |qLogProbs| == n
    ensures forall t :: 0 <= t < n ==>
      pLogProbs[t].entries == ModelDict(p, ext, t) && qLogProbs[t].entries == ApproxDict(p, ext, t)
  {
    pLogProbs, qLogProbs := [], [];
    for s := 0 to n
      invariant |pLogProbs| == s && |qLogProbs| == s
      invariant forall t :: 0 <= t < s ==>
        pLogProbs[t].entries == ModelDict(p, ext, t) && qLogProbs[t].entries == ApproxDict(p, ext, t)
    {
      var pd, qd := FreshSample(p, ext, s);
      pLogProbs := pLogProbs + [pd];
      qLogProbs := qLogProbs + [qd];
    }
  }

  /** What follows the sample loop: with no sample, indexing `p_log_probs[0]`
      fails (and packing the empty lists is taken to fail); otherwise the per-factor gradients and the loss read from the
      dictionaries at index 0. Index t holds the dictionaries of sample
      rows[t]. */
  method ReadDicts(
    p: Problem, ext: Externals, varList: seq<Var>,
    pLogProbs: seq<LogDensityDict>, qLogProbs: seq<LogDensityDict>, ghost rows: seq<int>)
    returns (r: Result<Objective>)
    requires |pLogProbs| == |rows| && |qLogProbs| == |rows|
    requires forall t :: 0 <= t < |rows| ==>
      pLogProbs[t].entries == ModelDict(p, ext, rows[t]) && qLogProbs[t].entries == ApproxDict(p, ext, rows[t])
    ensures r == RBObjective(p, ext, rows, varList)
  {
    if |pLogProbs| == 0 {
      return Err(EmptySampleList);
    }
    var gradsAndVars := RaoBlackwellGradients(p, ext, varList, pLogProbs, qLogProbs, rows);
    var loss := ReportedLoss(p, pLogProbs[0], qLogProbs[0], ext, rows[0]);
    r := Ok(Objective(loss, gradsAndVars));
  }

  /** `[d] * n`: a list of n references to the one object d. */
  function Repeat(d: LogDensityDict, n: nat): (r: seq<LogDensityDict>)
    ensures |r| == n && forall t :: 0 <= t < n ==> r[t] == d
  {
    if n == 0 then [] else Repeat(d, n - 1) + [d]
  }

  /** The sample loop over `[{}] * n_samples`: every element of each list is
      the one shared dictionary, so sample s overwrites what sample s - 1
      wrote, and after the loop the dictionaries hold the last sample only. */
  method WriteSharedDicts(
    p: Problem, ext: Externals, pLogProbs: seq<LogDensityDict>, qLogProbs: seq<LogDensityDict>,
    pShared: LogDensityDict, qShared: LogDensityDict)
    requires pShared != qShared && |pLogProbs| == |qLogProbs|
    requires forall t :: 0 <= t < |pLogProbs| ==> pLogProbs[t] == pShared && qLogProbs[t] == qShared
    requires pShared.entries == map[] && qShared.entries == map[]
    modifies pShared, qShared
    ensures |pLogProbs| > 0 ==> pShared.entries == ModelDict(p, ext, |pLogProbs| - 1)
    ensures |pLogProbs| > 0 ==> qShared.entries == ApproxDict(p, ext, |pLogProbs| - 1)
  {
    for s := 0 to |pLogProbs|
      invariant s == 0 ==> pShared.entries == map[] && qShared.entries == map[]
      invariant s > 0 ==> pShared.entries == ModelDict(p, ext, s - 1) && qShared.entries == ApproxDict(p, ext, s - 1)
    {
      WriteSample(p, ext, s, pLogProbs[s], qLogProbs[s]);
      if s > 0 {
        OverwrittenEntries(ModelDict(p, ext, s - 1), ModelDict(p, ext, s));
        OverwrittenEntries(ApproxDict(p, ext, s - 1), ApproxDict(p, ext, s));
      }
    }
  }

  /** build_score_rb_loss_and_gradients with one dictionary per sample. */
  method BuildScoreRBLossAndGradients(p: Problem, nSamples: int, ext: Externals, varList: seq<Var>)
    returns (r: Result<Objective>)
    ensures r == ScoreRB(p, ext, Count(nSamples), varList)
  {
    var n := Count(nSamples);
    var pLogProbs, qLogProbs := WritePerSampleDicts(p, ext, n);
    ghost var rows := SampleRows(n);
    forall t | 0 <= t < n
      ensures pLogProbs[t].entries == ModelDict(p, ext, rows[t])
      ensures qLogProbs[t].entries == ApproxDict(p, ext, rows[t])
    {
      assert rows[t] == t;
    }
    r := ReadDicts(p, ext, varList, pLogProbs, qLogProbs, rows);
  }

  /** build_score_rb_loss_and_gradients as written: `[{}] * n_samples` makes
      every index of p_log_probs (and of q_log_probs) the same dictionary, so
      each sample overwrites the previous one's entries. */
  method BuildScoreRBLossAndGradientsAsWritten(p: Problem, nSamples: int, ext: Externals, varList: seq<Var>)
    returns (r: Result<Objective>)
    ensures r == SharedDictRB(p, ext, Count(nSamples), varList)
  {
    var n := Count(nSamples);
    var pShared := new LogDensityDict();
    var qShared := new LogDensityDict();
    var pLogProbs := Repeat(pShared, n);
    var qLogProbs := Repeat(qShared, n);
    WriteSharedDicts(p, ext, pLogProbs, qLogProbs, pShared, qShared);
    ghost var rows := LastSampleRows(n);
    forall t | 0 <= t < n
      ensures pLogProbs[t].entries == ModelDict(p, ext, rows[t])
      ensures qLogProbs[t].entries == ApproxDict(p, ext, rows[t])
    {
      assert rows[t] == n - 1;
    }
    r := ReadDicts(p, ext, varList, pLogProbs, qLogProbs, rows);
  }
}

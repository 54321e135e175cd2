/** The bookkeeping of build_score_rb_loss_and_gradients: per-variable
    log-density dictionaries, the relevant set of each latent (its
    descendants among model_rvs plus itself), the per-factor score surrogate,
    and the order in which (gradient, variable) pairs are emitted.

    The builder reads, at stacked index t, the dictionaries of some sample
    rows[t]. With one dictionary per sample, rows[t] == t (SampleRows); with
    the single dictionary that `[{}] * n_samples` creates, every index reads
    what the last sample wrote (LastSampleRows). */
module RaoBlackwell {
  import opened Types
  import opened LogDensities

  // ----- relevant sets -----

  /** z.get_descendants(candidates): the candidates that descend from z, in
      candidate order. */
  function Descendants(z: Node, candidates: seq<Node>, ext: Externals): (r: seq<Node>)
    ensures |r| <= |candidates|
    ensures forall x :: x in r <==> x in candidates && ext.isDescendant(z, x)
  {
    if candidates == [] then []
    else
      var last := candidates[|candidates| - 1];
      Descendants(z, candidates[..|candidates| - 1], ext) +
        (if ext.isDescendant(z, last) then [last] else [])
  }

  /** model_rvs_i = z.get_descendants(model_rvs) + [z]. */
  function Relevant(p: Problem, ext: Externals, z: Node): (r: seq<Node>)
    ensures 0 < |r| <= |ModelRVs(p)| + 1 && r[|r| - 1] == z
    ensures forall x :: x in r <==> x == z || (x in ModelRVs(p) && ext.isDescendant(z, x))
  {
    Descendants(z, ModelRVs(p), ext) + [z]
  }

  /** [rv for rv in nodes if rv in keys]. */
  function LatentsAmong(nodes: seq<Node>, keys: seq<Node>): seq<Node>
  {
    if nodes == [] then []
    else
      var last := nodes[|nodes| - 1];
      LatentsAmong(nodes[..|nodes| - 1], keys) + (if last in keys then [last] else [])
  }

  /** qz.get_variables(var_list): the variables of var_list that belong to qz,
      in var_list order. */
  function OwnedVars(qz: Node, varList: seq<Var>, ext: Externals): (r: seq<Var>)
    ensures forall v :: v in r ==> v in varList && ext.dependsOn(qz, v)
  {
    if varList == [] then []
    else
      var last := varList[|varList| - 1];
      OwnedVars(qz, varList[..|varList| - 1], ext) + (if ext.dependsOn(qz, last) then [last] else [])
  }

  lemma {:induction false} DescendantsMembers(z: Node, cs: seq<Node>, ext: Externals, x: Node)
    ensures x in Descendants(z, cs, ext) <==> x in cs && ext.isDescendant(z, x)
  {
    if cs != [] {
      var init := cs[..|cs| - 1];
      DescendantsMembers(z, init, ext, x);
      assert cs == init + [cs[|cs| - 1]];
    }
  }

  /** The relevant set of z holds z and exactly its descendants among the
      latent keys and the observed random variables. */
  lemma RelevantMembers(p: Problem, ext: Externals, z: Node, x: Node)
    ensures x in Relevant(p, ext, z) <==> x == z || (x in ModelRVs(p) && ext.isDescendant(z, x))
  {
    DescendantsMembers(z, ModelRVs(p), ext, x);
  }

  lemma {:induction false} LatentsAmongMembers(nodes: seq<Node>, keys: seq<Node>, x: Node)
    ensures x in LatentsAmong(nodes, keys) <==> x in nodes && x in keys
  {
    if nodes != [] {
      var init := nodes[..|nodes| - 1];
      LatentsAmongMembers(init, keys, x);
      assert nodes == init + [nodes[|nodes| - 1]];
    }
  }

  lemma {:induction false} OwnedVarsMembers(qz: Node, varList: seq<Var>, ext: Externals, v: Var)
    ensures v in OwnedVars(qz, varList, ext) <==> v in varList && ext.dependsOn(qz, v)
  {
    if varList != [] {
      var init := varList[..|varList| - 1];
      OwnedVarsMembers(qz, init, ext, v);
      assert varList == init + [varList[|varList| - 1]];
    }
  }

  // ----- per-factor surrogate -----

  /** pi_log_prob at sample s: the model terms of the relevant set. */
  function FactorP(p: Problem, ext: Externals, z: Node, s: int): real
  {
    SumNodeP(Relevant(p, ext, z), ext, s)
  }

  /** qi_log_prob at sample s: the approximation terms of the relevant
      latents only. */
  function FactorQ(p: Problem, ext: Externals, z: Node, s: int): real
  {
    SumNodeQ(LatentsAmong(Relevant(p, ext, z), LatentKeys(p.latentVars)), ext, s)
  }

  function FactorPs(p: Problem, ext: Externals, z: Node, rows: seq<int>): seq<real>
  {
    seq(|rows|, t requires 0 <= t < |rows| => FactorP(p, ext, z, rows[t]))
  }

  function FactorQs(p: Problem, ext: Externals, z: Node, rows: seq<int>): seq<real>
  {
    seq(|rows|, t requires 0 <= t < |rows| => FactorQ(p, ext, z, rows[t]))
  }

  /** -mean(qi_log_prob * stop_gradient(pi_log_prob - qi_log_prob)). */
  function FactorSurrogate(p: Problem, ext: Externals, z: Node, rows: seq<int>): Surrogate
  {
    var qs := FactorQs(p, ext, z, rows);
    ScoreFunction(qs, Sub(FactorPs(p, ext, z, rows), qs), 0.0)
  }

  /** The gradient pairs emitted for the first k variational factors, factor
      by factor, each for its own variables in var_list order. */
  function RBPairs(p: Problem, ext: Externals, rows: seq<int>, varList: seq<Var>, k: nat): (r: seq<(Gradient, Var)>)
    requires k <= |p.latentVars|
    ensures forall j :: 0 <= j < |r| ==>
      r[j].1 in varList && r[j].0.wrt == r[j].1 && r[j].0.of.ScoreFunction? && |r[j].0.of.logQ| == |rows|
  {
    if k == 0 then []
    else
      var zq := p.latentVars[k - 1];
      RBPairs(p, ext, rows, varList, k - 1) +
        GradientPairs(FactorSurrogate(p, ext, zq.0, rows), OwnedVars(zq.1, varList, ext))
  }

  /** The objective when stacked index t reads the dictionaries of sample
      rows[t]. The reported loss sums the values of the two dictionaries at
      index 0, one term per distinct key. With no index at all the builder
      fails (indexing `p_log_probs[0]`; packing an empty list is taken to fail too). */
  function RBObjective(p: Problem, ext: Externals, rows: seq<int>, varList: seq<Var>): (r: Result<Objective>)
    ensures r.Err? <==> rows == []
    ensures r.Err? ==> r.error == EmptySampleList
    ensures r.Ok? ==> r.value.loss == DictLoss(p, ext, rows[0])
  {
    if rows == [] then Err(EmptySampleList)
    else Ok(Objective(DictLoss(p, ext, rows[0]), RBPairs(p, ext, rows, varList, |p.latentVars|)))
  }

  /** The reported loss when the dictionaries hold sample s: the negated sum
      of the model dictionary's values minus the sum of the approximation
      dictionary's values, one term per distinct key. */
  function DictLoss(p: Problem, ext: Externals, s: int): real
  {
    -(SumNodeP(Dedup(ModelRVs(p)), ext, s) - SumNodeQ(Dedup(LatentKeys(p.latentVars)), ext, s))
  }

  /** One dictionary per sample: index t reads sample t. */
  function SampleRows(n: nat): seq<int>
  {
    seq(n, s => s)
  }

  /** `[{}] * n_samples`: every index reads the one dictionary, which holds
      what the last sample wrote. */
  function LastSampleRows(n: nat): seq<int>
  {
    seq(n, _ => n - 1)
  }

  /** The Rao-Blackwellised objective with one dictionary per sample: it
      fails exactly when there is no sample, and its loss reads sample 0. */
  function ScoreRB(p: Problem, ext: Externals, n: nat, varList: seq<Var>): (r: Result<Objective>)
    ensures r.Err? <==> n == 0
    ensures r.Err? ==> r.error == EmptySampleList
    ensures r.Ok? ==> r.value.loss == DictLoss(p, ext, 0)
  {
    assert 0 < n ==> SampleRows(n)[0] == 0;
    RBObjective(p, ext, SampleRows(n), varList)
  }

  /** The Rao-Blackwellised objective as klqp.py builds it, with every
      per-sample dictionary one shared object: it fails exactly when there is
      no sample, and its loss reads the last sample. */
  function SharedDictRB(p: Problem, ext: Externals, n: nat, varList: seq<Var>): (r: Result<Objective>)
    ensures r.Err? <==> n == 0
    ensures r.Err? ==> r.error == EmptySampleList
    ensures r.Ok? ==> r.value.loss == DictLoss(p, ext, n - 1)
  {
    assert 0 < n ==> LastSampleRows(n)[0] == n - 1;
    RBObjective(p, ext, LastSampleRows(n), varList)
  }

  // ----- properties -----

  /** Every emitted pair is (gradient w.r.t. v, v) for a v of var_list that
      belongs to some factor qz, and the differentiated surrogate is that
      factor's Rao-Blackwellised one. */
  lemma {:induction false} RBPairsBelongToTheirFactor(
    p: Problem, ext: Externals, rows: seq<int>, varList: seq<Var>, k: nat, j: int)
    requires k <= |p.latentVars| && 0 <= j < |RBPairs(p, ext, rows, varList, k)|
    ensures var pair := RBPairs(p, ext, rows, varList, k)[j];
      pair.1 in varList && pair.0.wrt == pair.1 &&
      exists i :: 0 <= i < k && ext.dependsOn(p.latentVars[i].1, pair.1) &&
        pair.0.of == FactorSurrogate(p, ext, p.latentVars[i].0, rows)
  {
    var prev := RBPairs(p, ext, rows, varList, k - 1);
    if j < |prev| {
      RBPairsBelongToTheirFactor(p, ext, rows, varList, k - 1, j);
    } else {
      var zq := p.latentVars[k - 1];
      var owned := OwnedVars(zq.1, varList, ext);
      OwnedVarsMembers(zq.1, varList, ext, owned[j - |prev|]);
    }
  }

  /** The converse: for every factor qz among the first k and every variable
      v of var_list that qz depends on, the pair (gradient of qz's surrogate
      w.r.t. v, v) is emitted. */
  lemma {:induction false} RBPairsComplete(
    p: Problem, ext: Externals, rows: seq<int>, varList: seq<Var>, k: nat, i: nat, v: Var)
    requires k <= |p.latentVars| && i < k && v in varList && ext.dependsOn(p.latentVars[i].1, v)
    ensures (Gradient(FactorSurrogate(p, ext, p.latentVars[i].0, rows), v), v) in RBPairs(p, ext, rows, varList, k)
  {
    var zq := p.latentVars[k - 1];
    var prev := RBPairs(p, ext, rows, varList, k - 1);
    var owned := OwnedVars(zq.1, varList, ext);
    var tail := GradientPairs(FactorSurrogate(p, ext, zq.0, rows), owned);
    assert RBPairs(p, ext, rows, varList, k) == prev + tail;
    if i < k - 1 {
      RBPairsComplete(p, ext, rows, varList, k - 1, i, v);
    } else {
      OwnedVarsMembers(zq.1, varList, ext, v);
      GradientPairsHas(FactorSurrogate(p, ext, zq.0, rows), owned, v);
    }
  }

  lemma GradientPairsHas(g: Surrogate, vars: seq<Var>, v: Var)
    requires v in vars
    ensures (Gradient(g, v), v) in GradientPairs(g, vars)
  {
    var j :| 0 <= j < |vars| && vars[j] == v;
    assert GradientPairs(g, vars)[j] == (Gradient(g, v), v);
  }

  /** Factor by factor: the pairs of the first j factors are a prefix of the
      pairs of the first k. */
  lemma {:induction false} RBPairsPrefix(
    p: Problem, ext: Externals, rows: seq<int>, varList: seq<Var>, j: nat, k: nat)
    requires j <= k <= |p.latentVars|
    ensures RBPairs(p, ext, rows, varList, j) <= RBPairs(p, ext, rows, varList, k)
  {
    if j < k {
      RBPairsPrefix(p, ext, rows, varList, j, k - 1);
      var a := RBPairs(p, ext, rows, varList, j);
      var b := RBPairs(p, ext, rows, varList, k - 1);
      var zq := p.latentVars[k - 1];
      var c := RBPairs(p, ext, rows, varList, k);
      assert c == b + GradientPairs(FactorSurrogate(p, ext, zq.0, rows), OwnedVars(zq.1, varList, ext));
      assert c[..|a|] == b[..|a|] == a;
    }
  }

  lemma {:induction false} DescendantsCongruent(z: Node, cs: seq<Node>, e1: Externals, e2: Externals)
    requires forall x :: e1.isDescendant(z, x) == e2.isDescendant(z, x)
    ensures Descendants(z, cs, e1) == Descendants(z, cs, e2)
  {
    if cs != [] {
      DescendantsCongruent(z, cs[..|cs| - 1], e1, e2);
    }
  }

  /** Rao-Blackwellisation: the surrogate of factor z depends only on the
      log-densities of z's relevant set. Changing the model or approximation
      terms of any other variable leaves the gradient for qz unchanged. */
  lemma RaoBlackwellLocality(p: Problem, e1: Externals, e2: Externals, z: Node, rows: seq<int>)
    requires forall x :: e1.isDescendant(z, x) == e2.isDescendant(z, x)
    requires forall s, x :: x in Relevant(p, e1, z) ==>
      e1.logP(s, x) == e2.logP(s, x) && e1.logQ(s, x) == e2.logQ(s, x)
    ensures FactorSurrogate(p, e1, z, rows) == FactorSurrogate(p, e2, z, rows)
  {
    DescendantsCongruent(z, ModelRVs(p), e1, e2);
    var rel := Relevant(p, e1, z);
    var lat := LatentsAmong(rel, LatentKeys(p.latentVars));
    forall x | x in lat ensures x in rel {
      LatentsAmongMembers(rel, LatentKeys(p.latentVars), x);
    }
    forall t | 0 <= t < |rows|
      ensures FactorP(p, e1, z, rows[t]) == FactorP(p, e2, z, rows[t])
      ensures FactorQ(p, e1, z, rows[t]) == FactorQ(p, e2, z, rows[t])
    {
      SumNodePCongruent(rel, e1, e2, rows[t]);
      SumNodeQCongruent(lat, e1, e2, rows[t]);
    }
    assert FactorPs(p, e1, z, rows) == FactorPs(p, e2, z, rows);
    assert FactorQs(p, e1, z, rows) == FactorQs(p, e2, z, rows);
  }

  /** When no node is both a latent and an observed variable, the reported
      loss is the graph-path joint difference -(p - q) of the sample that
      index 0 reads. */
  lemma RBLossIsJointDifference(p: Problem, ext: Externals, rows: seq<int>, varList: seq<Var>)
    requires rows != [] && Distinct(ModelRVs(p))
    ensures RBObjective(p, ext, rows, varList).Ok?
    ensures RBObjective(p, ext, rows, varList).value.loss ==
      -((PriorLogProb(p, ext, rows[0]) + SumData(p.data, ext, rows[0])) - QLogProb(p, ext, rows[0]))
  {
    var keys := LatentKeys(p.latentVars);
    DedupOfDistinct(ModelRVs(p));
    assert forall i, j :: 0 <= i < j < |keys| ==> keys[i] == ModelRVs(p)[i] && keys[j] == ModelRVs(p)[j];
    DedupOfDistinct(keys);
    SumDataIsSumOverObserved(p.data, ext, rows[0]);
    SumNodePAppend(keys, ObservedRVs(p.data), ext, rows[0]);
  }

  /** With one dictionary per sample, stacked index s of every factor's
      surrogate holds sample s's relevant-set terms, for every problem. */
  lemma PerSampleIndexReadsItsSample(p: Problem, ext: Externals, n: nat, z: Node, s: int)
    requires 0 <= s < n
    ensures FactorSurrogate(p, ext, z, SampleRows(n)).logQ[s] == FactorQ(p, ext, z, s)
    ensures FactorSurrogate(p, ext, z, SampleRows(n)).detached[s] == FactorP(p, ext, z, s) - FactorQ(p, ext, z, s)
  {
  }

  /** With the shared dictionary, every stacked index of every factor's
      surrogate holds the last sample's relevant-set terms, for every
      problem. */
  lemma SharedIndexReadsLastSample(p: Problem, ext: Externals, n: nat, z: Node, t: int)
    requires 0 <= t < n
    ensures FactorSurrogate(p, ext, z, LastSampleRows(n)).logQ[t] == FactorQ(p, ext, z, n - 1)
    ensures FactorSurrogate(p, ext, z, LastSampleRows(n)).detached[t] ==
      FactorP(p, ext, z, n - 1) - FactorQ(p, ext, z, n - 1)
  {
  }

  /** With at most one sample (n_samples defaults to 1) the shared dictionary
      is harmless: both builders return the same objective. */
  lemma OneSampleDictsAgree(p: Problem, ext: Externals, n: nat, varList: seq<Var>)
    requires n <= 1
    ensures SharedDictRB(p, ext, n, varList) == ScoreRB(p, ext, n, varList)
  {
    assert LastSampleRows(n) == SampleRows(n);
  }

  /** With one dictionary per sample, stacked index s holds sample s's
      relevant-set terms and the reported loss is sample 0's joint difference. */
  lemma PerSampleDictsKeepSamplesApart(p: Problem, ext: Externals, n: nat, varList: seq<Var>, z: Node, s: int)
    requires 0 <= s < n && Distinct(ModelRVs(p))
    ensures ScoreRB(p, ext, n, varList).Ok?
    ensures ScoreRB(p, ext, n, varList).value.loss ==
      -((PriorLogProb(p, ext, 0) + SumData(p.data, ext, 0)) - QLogProb(p, ext, 0))
    ensures FactorSurrogate(p, ext, z, SampleRows(n)).logQ[s] == FactorQ(p, ext, z, s)
    ensures FactorSurrogate(p, ext, z, SampleRows(n)).detached[s] == FactorP(p, ext, z, s) - FactorQ(p, ext, z, s)
  {
    RBLossIsJointDifference(p, ext, SampleRows(n), varList);
    PerSampleIndexReadsItsSample(p, ext, n, z, s);
  }

  /** With the shared dictionary, two samples that differ in their model
      terms yield a reported loss built from the second one only, unlike the
      per-sample version. */
  lemma SharedDictCounterexample(ext: Externals, z: Node, qz: Node)
    requires ext.logP(0, z) == 0.0 && ext.logP(1, z) == 1.0
    requires ext.logQ(0, z) == ext.logQ(1, z)
    ensures var p := Problem([(z, qz)], [], None);
      SharedDictRB(p, ext, 2, []).Ok? && ScoreRB(p, ext, 2, []).Ok? &&
      SharedDictRB(p, ext, 2, []).value.loss == ScoreRB(p, ext, 2, []).value.loss - 1.0
  {
    var p := Problem([(z, qz)], [], None);
    assert LatentKeys(p.latentVars) == [z];
    assert ObservedRVs(p.data) == [];
    assert ModelRVs(p) == [z];
    assert [z][..0] == [];
    assert Dedup([z]) == [z];
    assert SampleRows(2)[0] == 0 && LastSampleRows(2)[0] == 1;
    assert SumNodeP([z], ext, 0) == 0.0 && SumNodeP([z], ext, 1) == 1.0;
    assert SumNodeQ([z], ext, 0) == ext.logQ(0, z) && SumNodeQ([z], ext, 1) == ext.logQ(1, z);
  }

  /** With the shared dictionary, every stacked index and the reported loss
      read the terms of the last sample, n - 1. */
  lemma SharedDictsReadOnlyLastSample(p: Problem, ext: Externals, n: nat, varList: seq<Var>, z: Node, t: int)
    requires 0 <= t < n && Distinct(ModelRVs(p))
    ensures SharedDictRB(p, ext, n, varList).Ok?
    ensures SharedDictRB(p, ext, n, varList).value.loss ==
      -((PriorLogProb(p, ext, n - 1) + SumData(p.data, ext, n - 1)) - QLogProb(p, ext, n - 1))
    ensures FactorSurrogate(p, ext, z, LastSampleRows(n)).logQ[t] == FactorQ(p, ext, z, n - 1)
    ensures FactorSurrogate(p, ext, z, LastSampleRows(n)).detached[t] ==
      FactorP(p, ext, z, n - 1) - FactorQ(p, ext, z, n - 1)
  {
    RBLossIsJointDifference(p, ext, LastSampleRows(n), varList);
    SharedIndexReadsLastSample(p, ext, n, z, t);
  }

  lemma {:induction false} DescendantsAppend(z: Node, a: seq<Node>, b: seq<Node>, ext: Externals)
    ensures Descendants(z, a + b, ext) == Descendants(z, a, ext) + Descendants(z, b, ext)
  {
    if b == [] {
      assert a + b == a;
    } else {
      assert (a + b)[..|a + b| - 1] == a + b[..|b| - 1];
      DescendantsAppend(z, a, b[..|b| - 1], ext);
    }
  }

  lemma {:induction false} DescendantsOfAll(z: Node, cs: seq<Node>, ext: Externals)
    requires forall x :: x in cs ==> ext.isDescendant(z, x)
    ensures Descendants(z, cs, ext) == cs
  {
    if cs != [] {
      var init, last := cs[..|cs| - 1], cs[|cs| - 1];
      assert ext.isDescendant(z, last) by { assert last in cs; }
      forall x | x in init ensures ext.isDescendant(z, x) {
        assert x in cs;
      }
      DescendantsOfAll(z, init, ext);
      assert cs == init + [last];
    }
  }

  /** [rv for rv in nodes if rv in keys] is empty when no node is a key. */
  lemma {:induction false} LatentsAmongNone(nodes: seq<Node>, keys: seq<Node>)
    requires forall i :: 0 <= i < |nodes| ==> nodes[i] !in keys
    ensures LatentsAmong(nodes, keys) == []
  {
    if nodes != [] {
      LatentsAmongNone(nodes[..|nodes| - 1], keys);
    }
  }

  /** The latents among `nodes + [z]`, when z is the only key and not among
      `nodes`: z alone. */
  lemma OnlyKeyAmong(nodes: seq<Node>, z: Node)
    requires z !in nodes
    ensures LatentsAmong(nodes + [z], [z]) == [z]
  {
    var rel := nodes + [z];
    assert rel[..|rel| - 1] == nodes;
    forall i | 0 <= i < |nodes| ensures nodes[i] !in [z] {
      assert nodes[i] in nodes;
    }
    LatentsAmongNone(nodes, [z]);
  }

  /** The descendants of z among `[z] + obs`, when z does not descend from
      itself and every node of obs does: obs. */
  lemma DescendantsOfSingleLatent(z: Node, obs: seq<Node>, ext: Externals)
    requires !ext.isDescendant(z, z)
    requires forall x :: x in obs ==> ext.isDescendant(z, x)
    ensures Descendants(z, [z] + obs, ext) == obs
  {
    DescendantsAppend(z, [z], obs, ext);
    assert Descendants(z, [z], ext) == [] by {
      assert [z][..0] == [];
    }
    DescendantsOfAll(z, obs, ext);
  }

  /** The relevant set of the only latent z, when every observed random
      variable descends from z: the observed random variables, then z. */
  lemma SingleFactorRelevantSet(p: Problem, ext: Externals, z: Node, qz: Node)
    requires p.latentVars == [(z, qz)]
    requires z !in ObservedRVs(p.data) && !ext.isDescendant(z, z)
    requires forall x :: x in ObservedRVs(p.data) ==> ext.isDescendant(z, x)
    ensures Relevant(p, ext, z) == ObservedRVs(p.data) + [z]
    ensures LatentsAmong(Relevant(p, ext, z), LatentKeys(p.latentVars)) == [z]
  {
    var obs := ObservedRVs(p.data);
    assert LatentKeys(p.latentVars) == [z];
    assert ModelRVs(p) == [z] + obs;
    DescendantsOfSingleLatent(z, obs, ext);
    OnlyKeyAmong(obs, z);
  }

  /** SumNodeP of the observed random variables, then z: the likelihood
      terms plus z's prior term. */
  lemma ObservedThenLatentP(p: Problem, ext: Externals, z: Node, s: int)
    ensures SumNodeP(ObservedRVs(p.data) + [z], ext, s) == SumData(p.data, ext, s) + ext.logP(s, z)
  {
    SumDataIsSumOverObserved(p.data, ext, s);
    SumNodePAppend(ObservedRVs(p.data), [z], ext, s);
    assert SumNodeP([z], ext, s) == ext.logP(s, z) by {
      assert [z][..0] == [];
    }
  }

  /** A one-node sum is that node's term. */
  lemma SingletonSums(z: Node, ext: Externals, s: int)
    ensures SumNodeP([z], ext, s) == ext.logP(s, z)
    ensures SumNodeQ([z], ext, s) == ext.logQ(s, z)
  {
    assert [z][..0] == [];
  }

  /** Sample s of the single-factor case: the factor's model terms are the
      full joint log-density. */
  lemma SingleFactorP(p: Problem, ext: Externals, z: Node, qz: Node, s: int)
    requires p.latentVars == [(z, qz)] && p.modelWrapper.None?
    requires z !in ObservedRVs(p.data) && !ext.isDescendant(z, z)
    requires forall x :: x in ObservedRVs(p.data) ==> ext.isDescendant(z, x)
    ensures FactorP(p, ext, z, s) == PLogProb(p, ext, s)
  {
    var prior, lik := ext.logP(s, z), SumData(p.data, ext, s);
    assert FactorP(p, ext, z, s) == prior + lik by {
      SingleFactorRelevantSet(p, ext, z, qz);
      ObservedThenLatentP(p, ext, z, s);
    }
    assert PriorLogProb(p, ext, s) == prior by {
      assert LatentKeys(p.latentVars) == [z];
      SingletonSums(z, ext, s);
    }
  }

  /** Sample s of the single-factor case: the factor's approximation terms
      are the full q_log_prob. */
  lemma SingleFactorQ(p: Problem, ext: Externals, z: Node, qz: Node, s: int)
    requires p.latentVars == [(z, qz)]
    requires z !in ObservedRVs(p.data) && !ext.isDescendant(z, z)
    requires forall x :: x in ObservedRVs(p.data) ==> ext.isDescendant(z, x)
    ensures FactorQ(p, ext, z, s) == QLogProb(p, ext, s)
  {
    SingleFactorRelevantSet(p, ext, z, qz);
    assert LatentKeys(p.latentVars) == [z];
  }

  /** For a single latent z from which every observed random variable
      descends, Rao-Blackwellisation changes nothing: the per-sample terms of
      the factor are the full p_log_prob and q_log_prob of the vanilla score
      builder. */
  lemma RBMatchesScoreForSingleFactor(p: Problem, ext: Externals, z: Node, qz: Node, n: nat)
    requires p.latentVars == [(z, qz)] && p.modelWrapper.None?
    requires z !in ObservedRVs(p.data) && !ext.isDescendant(z, z)
    requires forall x :: x in ObservedRVs(p.data) ==> ext.isDescendant(z, x)
    ensures FactorPs(p, ext, z, SampleRows(n)) == PLogProbs(p, ext, n)
    ensures FactorQs(p, ext, z, SampleRows(n)) == QLogProbs(p, ext, n)
  {
    forall s | 0 <= s < n
      ensures FactorP(p, ext, z, s) == PLogProb(p, ext, s)
      ensures FactorQ(p, ext, z, s) == QLogProb(p, ext, s)
    {
      SingleFactorP(p, ext, z, qz, s);
      SingleFactorQ(p, ext, z, qz, s);
    }
  }

  // ----- reading the dictionaries -----

  /** {rv: log p(rv) for rv in nodes} at sample s. */
  function PEntries(nodes: seq<Node>, ext: Externals, s: int): map<Node, real>
  {
    map k | k in nodes :: ext.logP(s, k)
  }

  /** {rv: log q(rv) for rv in nodes} at sample s. */
  function QEntries(nodes: seq<Node>, ext: Externals, s: int): map<Node, real>
  {
    map k | k in nodes :: ext.logQ(s, k)
  }

  /** The entries sample s writes into its model log-density dictionary:
      one per latent key and one per observed random variable. */
  function ModelDict(p: Problem, ext: Externals, s: int): map<Node, real>
  {
    PEntries(ModelRVs(p), ext, s)
  }

  /** The entries sample s writes into its approximation log-density
      dictionary: one per latent key. */
  function ApproxDict(p: Problem, ext: Externals, s: int): map<Node, real>
  {
    QEntries(LatentKeys(p.latentVars), ext, s)
  }

  /** Writing the keys of xs and then those of ys, one at a time, fills a
      dictionary with the entries of xs + ys. */
  lemma PEntriesAppend(m: map<Node, real>, xs: seq<Node>, ys: seq<Node>, ext: Externals, s: int)
    ensures m + PEntries(xs, ext, s) + PEntries(ys, ext, s) == m + PEntries(xs + ys, ext, s)
  {
    var lhs, rhs := m + PEntries(xs, ext, s) + PEntries(ys, ext, s), m + PEntries(xs + ys, ext, s);
    assert forall k :: k in xs + ys <==> k in xs || k in ys;
    assert lhs.Keys == rhs.Keys;
    forall k | k in lhs ensures lhs[k] == rhs[k] {
    }
  }

  /** Writing one more key into a dictionary filled with the entries of xs. */
  lemma PEntriesStep(m: map<Node, real>, xs: seq<Node>, x: Node, ext: Externals, s: int)
    ensures (m + PEntries(xs, ext, s))[x := ext.logP(s, x)] == m + PEntries(xs + [x], ext, s)
  {
    var lhs, rhs := (m + PEntries(xs, ext, s))[x := ext.logP(s, x)], m + PEntries(xs + [x], ext, s);
    assert forall k :: k in xs + [x] <==> k in xs || k == x;
    assert lhs.Keys == rhs.Keys;
  }

  lemma QEntriesStep(m: map<Node, real>, xs: seq<Node>, x: Node, ext: Externals, s: int)
    ensures (m + QEntries(xs, ext, s))[x := ext.logQ(s, x)] == m + QEntries(xs + [x], ext, s)
  {
    var lhs, rhs := (m + QEntries(xs, ext, s))[x := ext.logQ(s, x)], m + QEntries(xs + [x], ext, s);
    assert forall k :: k in xs + [x] <==> k in xs || k == x;
    assert lhs.Keys == rhs.Keys;
  }

  /** A sample that writes the same keys as the previous one leaves nothing
      of the previous sample in the dictionary. */
  lemma OverwrittenEntries(before: map<Node, real>, after: map<Node, real>)
    requires before.Keys <= after.Keys
    ensures before + after == after
  {
  }

  /** tf.reduce_sum([d[k] for k in keys]). */
  function SumLookup(keys: seq<Node>, d: map<Node, real>): real
    requires forall k :: k in keys ==> k in d
  {
    if keys == [] then 0.0 else SumLookup(keys[..|keys| - 1], d) + d[keys[|keys| - 1]]
  }

  /** A dictionary holding the model terms of sample s for all `keys`. */
  predicate HoldsP(d: map<Node, real>, keys: seq<Node>, ext: Externals, s: int)
  {
    forall k :: k in keys ==> k in d && d[k] == ext.logP(s, k)
  }

  /** A dictionary holding the approximation terms of sample s for all `keys`. */
  predicate HoldsQ(d: map<Node, real>, keys: seq<Node>, ext: Externals, s: int)
  {
    forall k :: k in keys ==> k in d && d[k] == ext.logQ(s, k)
  }

  lemma {:induction false} LookupP(keys: seq<Node>, d: map<Node, real>, ext: Externals, s: int)
    requires HoldsP(d, keys, ext, s)
    ensures SumLookup(keys, d) == SumNodeP(keys, ext, s)
  {
    if keys != [] {
      LookupP(keys[..|keys| - 1], d, ext, s);
    }
  }

  lemma {:induction false} LookupQ(keys: seq<Node>, d: map<Node, real>, ext: Externals, s: int)
    requires HoldsQ(d, keys, ext, s)
    ensures SumLookup(keys, d) == SumNodeQ(keys, ext, s)
  {
    if keys != [] {
      LookupQ(keys[..|keys| - 1], d, ext, s);
    }
  }
}

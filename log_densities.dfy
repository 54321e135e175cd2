/** Per-sample log-density bookkeeping shared by all builders: which terms
    enter p_log_prob[s], p_log_lik[s] and q_log_prob[s], and the reductions
    (sum, mean, elementwise difference) that combine them. */
module LogDensities {
  import opened Types

  // ----- reductions over stacked per-sample values -----

  /** tf.reduce_sum over a list of scalars. */
  function Sum(xs: seq<real>): real
  {
    if xs == [] then 0.0 else Sum(xs[..|xs| - 1]) + xs[|xs| - 1]
  }

  /** tf.reduce_mean over a non-empty list of scalars. */
  function Mean(xs: seq<real>): real
    requires |xs| > 0
  {
    Sum(xs) / (|xs| as real)
  }

  /** Elementwise difference of two stacked lists of the same length. */
  function Sub(a: seq<real>, b: seq<real>): seq<real>
    requires |a| == |b|
  {
    seq(|a|, i requires 0 <= i < |a| => a[i] - b[i])
  }

  lemma {:induction false} SumOfDifference(a: seq<real>, b: seq<real>)
    requires |a| == |b|
    ensures Sum(Sub(a, b)) == Sum(a) - Sum(b)
  {
    if a != [] {
      var k := |a| - 1;
      assert Sub(a, b)[..k] == Sub(a[..k], b[..k]);
      SumOfDifference(a[..k], b[..k]);
    }
  }

  /** The mean of a difference is the difference of the means. */
  lemma MeanOfDifference(a: seq<real>, b: seq<real>)
    requires |a| == |b| > 0
    ensures Mean(Sub(a, b)) == Mean(a) - Mean(b)
  {
    SumOfDifference(a, b);
    var n := |a| as real;
    assert (Sum(a) - Sum(b)) / n == Sum(a) / n - Sum(b) / n;
  }

  /** Length of `[0.0] * n` in Python: negative counts give an empty list. */
  function Count(n: int): nat
  {
    if n < 0 then 0 else n
  }

  // ----- the nodes of the problem -----

  /** six.iterkeys(latent_vars). */
  function LatentKeys(lv: seq<(Node, Node)>): seq<Node>
  {
    seq(|lv|, i requires 0 <= i < |lv| => lv[i].0)
  }

  /** [x for x in data if isinstance(x, RandomVariable)]. */
  function ObservedRVs(data: seq<DataKey>): seq<Node>
  {
    if data == [] then []
    else
      var last := data[|data| - 1];
      ObservedRVs(data[..|data| - 1]) + (if last.Observed? then [last.rv] else [])
  }

  /** model_rvs: the latent keys followed by the observed random variables. */
  function ModelRVs(p: Problem): seq<Node>
  {
    LatentKeys(p.latentVars) + ObservedRVs(p.data)
  }

  predicate Distinct(xs: seq<Node>)
  {
    forall i, j :: 0 <= i < j < |xs| ==> xs[i] != xs[j]
  }

  /** The keys of a dictionary filled by writing the keys of xs in order:
      each key once, where it was first written. */
  function Dedup(xs: seq<Node>): (r: seq<Node>)
    ensures Distinct(r)
  {
    if xs == [] then []
    else
      var init := Dedup(xs[..|xs| - 1]);
      var last := xs[|xs| - 1];
      if last in init then init else init + [last]
  }

  lemma {:induction false} DedupMembers(xs: seq<Node>, x: Node)
    ensures x in Dedup(xs) <==> x in xs
  {
    if xs != [] {
      var init := xs[..|xs| - 1];
      DedupMembers(init, x);
      assert xs == init + [xs[|xs| - 1]];
    }
  }

  /** Writing distinct keys leaves them all, in order. */
  lemma {:induction false} DedupOfDistinct(xs: seq<Node>)
    requires Distinct(xs)
    ensures Dedup(xs) == xs
  {
    if xs != [] {
      var init := xs[..|xs| - 1];
      DedupOfDistinct(init);
      DedupMembers(init, xs[|xs| - 1]);
      assert xs == init + [xs[|xs| - 1]];
    }
  }

  // ----- per-sample sums of opaque log-densities -----

  /** Sum over `nodes` of the model log-densities at sample s. */
  function SumNodeP(nodes: seq<Node>, ext: Externals, s: int): real
  {
    if nodes == [] then 0.0
    else SumNodeP(nodes[..|nodes| - 1], ext, s) + ext.logP(s, nodes[|nodes| - 1])
  }

  /** Sum over `nodes` of the approximations' log-densities at sample s. */
  function SumNodeQ(nodes: seq<Node>, ext: Externals, s: int): real
  {
    if nodes == [] then 0.0
    else SumNodeQ(nodes[..|nodes| - 1], ext, s) + ext.logQ(s, nodes[|nodes| - 1])
  }

  /** The data loop of the builders: one likelihood term per key that is a
      random variable, nothing for any other key. */
  function SumData(data: seq<DataKey>, ext: Externals, s: int): real
  {
    if data == [] then 0.0
    else
      var last := data[|data| - 1];
      SumData(data[..|data| - 1], ext, s) + (if last.Observed? then ext.logP(s, last.rv) else 0.0)
  }

  /** q_log_prob[s]: one term per latent variable. It reads nothing but the
      approximations' log-densities of the latents at sample s. */
  function QLogProb(p: Problem, ext: Externals, s: int): (r: real)
    ensures forall e2: Externals ::
      (forall x :: x in LatentKeys(p.latentVars) ==> e2.logQ(s, x) == ext.logQ(s, x)) ==>
        r == SumNodeQ(LatentKeys(p.latentVars), e2, s)
  {
    SumNodeQLocal(LatentKeys(p.latentVars), ext, s);
    SumNodeQ(LatentKeys(p.latentVars), ext, s)
  }

  /** p_log_prob[s]: on the graph path one prior term per latent and one
      likelihood term per data key that is a random variable, that is one
      term per element of model_rvs; with a model wrapper, its log_prob. */
  function PLogProb(p: Problem, ext: Externals, s: int): (r: real)
    ensures p.modelWrapper.None? ==> r == SumNodeP(ModelRVs(p), ext, s)
    ensures p.modelWrapper.Some? ==> r == ext.wrapperLogProb(s)
  {
    SumDataIsSumOverObserved(p.data, ext, s);
    SumNodePAppend(LatentKeys(p.latentVars), ObservedRVs(p.data), ext, s);
    if p.modelWrapper.None? then SumNodeP(LatentKeys(p.latentVars), ext, s) + SumData(p.data, ext, s)
    else ext.wrapperLogProb(s)
  }

  /** p_log_lik[s]: on the graph path the likelihood terms only, one per
      observed random variable; with a model wrapper, its log_lik. */
  function PLogLik(p: Problem, ext: Externals, s: int): (r: real)
    ensures p.modelWrapper.None? ==> r == SumNodeP(ObservedRVs(p.data), ext, s)
    ensures p.modelWrapper.Some? ==> r == ext.wrapperLogLik(s)
  {
    SumDataIsSumOverObserved(p.data, ext, s);
    if p.modelWrapper.None? then SumData(p.data, ext, s) else ext.wrapperLogLik(s)
  }

  /** The per-sample prior part of p_log_prob[s] on the graph path. */
  function PriorLogProb(p: Problem, ext: Externals, s: int): real
  {
    SumNodeP(LatentKeys(p.latentVars), ext, s)
  }

  /** tf.pack of the per-sample lists, for samples 0 .. n-1. */
  function PLogProbs(p: Problem, ext: Externals, n: nat): seq<real>
  {
    seq(n, s => PLogProb(p, ext, s))
  }

  function PLogLiks(p: Problem, ext: Externals, n: nat): seq<real>
  {
    seq(n, s => PLogLik(p, ext, s))
  }

  function QLogProbs(p: Problem, ext: Externals, n: nat): seq<real>
  {
    seq(n, s => QLogProb(p, ext, s))
  }

  function PriorLogProbs(p: Problem, ext: Externals, n: nat): seq<real>
  {
    seq(n, s => PriorLogProb(p, ext, s))
  }

  // ----- properties of the accumulation -----

  lemma {:induction false} SumNodePAppend(xs: seq<Node>, ys: seq<Node>, ext: Externals, s: int)
    ensures SumNodeP(xs + ys, ext, s) == SumNodeP(xs, ext, s) + SumNodeP(ys, ext, s)
  {
    if ys == [] {
      assert xs + ys == xs;
    } else {
      var k := |ys| - 1;
      assert (xs + ys)[..|xs + ys| - 1] == xs + ys[..k];
      SumNodePAppend(xs, ys[..k], ext, s);
    }
  }

  /** The data loop sums exactly the observed random variables: keys that are
      not random variables contribute nothing, whatever their position. */
  lemma {:induction false} SumDataIsSumOverObserved(data: seq<DataKey>, ext: Externals, s: int)
    ensures SumData(data, ext, s) == SumNodeP(ObservedRVs(data), ext, s)
  {
    if data != [] {
      var init := data[..|data| - 1];
      var last := data[|data| - 1];
      SumDataIsSumOverObserved(init, ext, s);
      if last.Observed? {
        SumNodePAppend(ObservedRVs(init), [last.rv], ext, s);
      } else {
        assert ObservedRVs(data) == ObservedRVs(init) + [] == ObservedRVs(init);
      }
    }
  }

  /** The graph-path model log-density at sample s is the sum of the model
      log-densities of model_rvs. */
  lemma JointIsSumOverModelRVs(p: Problem, ext: Externals, s: int)
    requires p.modelWrapper.None?
    ensures PLogProb(p, ext, s) == SumNodeP(ModelRVs(p), ext, s)
    ensures PLogProb(p, ext, s) == PriorLogProb(p, ext, s) + PLogLik(p, ext, s)
  {
    SumDataIsSumOverObserved(p.data, ext, s);
    SumNodePAppend(LatentKeys(p.latentVars), ObservedRVs(p.data), ext, s);
  }

  lemma {:induction false} SumNodePCongruent(nodes: seq<Node>, e1: Externals, e2: Externals, s: int)
    requires forall x :: x in nodes ==> e1.logP(s, x) == e2.logP(s, x)
    ensures SumNodeP(nodes, e1, s) == SumNodeP(nodes, e2, s)
  {
    if nodes != [] {
      SumNodePCongruent(nodes[..|nodes| - 1], e1, e2, s);
    }
  }

  lemma {:induction false} SumNodeQCongruent(nodes: seq<Node>, e1: Externals, e2: Externals, s: int)
    requires forall x :: x in nodes ==> e1.logQ(s, x) == e2.logQ(s, x)
    ensures SumNodeQ(nodes, e1, s) == SumNodeQ(nodes, e2, s)
  {
    if nodes != [] {
      SumNodeQCongruent(nodes[..|nodes| - 1], e1, e2, s);
    }
  }

  /** A sum over `nodes` of approximation terms reads only those nodes'
      terms at sample s. */
  lemma SumNodeQLocal(nodes: seq<Node>, ext: Externals, s: int)
    ensures forall e2: Externals ::
      (forall x :: x in nodes ==> e2.logQ(s, x) == ext.logQ(s, x)) ==>
        SumNodeQ(nodes, ext, s) == SumNodeQ(nodes, e2, s)
  {
    forall e2: Externals | forall x :: x in nodes ==> e2.logQ(s, x) == ext.logQ(s, x)
      ensures SumNodeQ(nodes, ext, s) == SumNodeQ(nodes, e2, s)
    {
      SumNodeQCongruent(nodes, ext, e2, s);
    }
  }

  // ----- gradient pairs -----

  /** [(grad, var) for grad, var in zip(tf.gradients(g, vars), vars)]. */
  function GradientPairs(g: Surrogate, vars: seq<Var>): (r: seq<(Gradient, Var)>)
    ensures |r| == |vars|
    ensures forall i :: 0 <= i < |r| ==> r[i].1 == vars[i] && r[i].0.wrt == r[i].1 && r[i].0.of == g
  {
    seq(|vars|, i requires 0 <= i < |vars| => (Gradient(g, vars[i]), vars[i]))
  }
}

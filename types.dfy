/** The entities of the KLqp objective-construction layer.
    Everything the layer receives from code outside it (sampling, log-densities,
    closed-form KL and entropy terms, the model graph's descendant relation,
    the trainable variables of an approximation) is an opaque input here. */
module Types {

  datatype Option<T> = None | Some(value: T)

  /** Distribution family, as far as `isinstance(rv, Normal)` can tell. */
  datatype Family = Normal | NonNormal

  /** A random variable of the model or of the approximating family.
      Random variables are compared by identity, which `id` stands for. */
  datatype Node = Node(id: nat, family: Family, isReparameterized: bool, isContinuous: bool)

  /** A key of the data dictionary: an observed random variable, or any other
      object (a placeholder tensor, a name) that the builders skip. */
  datatype DataKey = Observed(rv: Node) | Placeholder(name: string)

  /** A trainable parameter (a TensorFlow variable). */
  datatype Var = Var(name: string)

  /** The optional model wrapper; only whether it has a `log_lik` matters here. */
  datatype ModelWrapper = ModelWrapper(hasLogLik: bool)

  /** What an inference object holds while it builds its objective:
      the latent variables as (model variable z, approximation qz) pairs in
      dictionary order, the keys of the data dictionary in order, and the
      optional model wrapper. */
  datatype Problem = Problem(
    latentVars: seq<(Node, Node)>,
    data: seq<DataKey>,
    modelWrapper: Option<ModelWrapper>)

  /** The values the layer obtains from outside, per Monte Carlo sample index s:
      - logQ(s, z): the summed log-density of qz at its s-th draw, for latent z;
      - logP(s, x): the summed model log-density of node x at sample s, with
        latents replaced by their draws and observed nodes by their data;
      - wrapperLogProb(s), wrapperLogLik(s): the model wrapper's callbacks;
      - kl(qz, z): the summed closed-form KL of qz against the Normal prior z;
      - klStandard(qz): the summed closed-form KL of qz against N(0, 1);
      - entropy(qz): the closed-form entropy of qz;
      - isDescendant(z, x): whether x is a descendant of z in the model graph;
      - dependsOn(qz, v): whether the trainable variable v is one of qz's. */
  datatype Externals = Externals(
    logQ: (int, Node) -> real,
    logP: (int, Node) -> real,
    wrapperLogProb: int -> real,
    wrapperLogLik: int -> real,
    kl: (Node, Node) -> real,
    klStandard: Node -> real,
    entropy: Node -> real,
    isDescendant: (Node, Node) -> bool,
    dependsOn: (Node, Var) -> bool)

  /** The seven objective builders of klqp.py. */
  datatype Builder =
    | ReparamLoss          // build_reparam_loss
    | ReparamKLLoss        // build_reparam_kl_loss
    | ReparamEntropyLoss   // build_reparam_entropy_loss
    | ScoreLoss            // build_score_loss_and_gradients
    | ScoreRBLoss          // build_score_rb_loss_and_gradients
    | ScoreKLLoss          // build_score_kl_loss_and_gradients
    | ScoreEntropyLoss     // build_score_entropy_loss_and_gradients
  {
    /** Whether the builder uses the score-function gradient estimator. */
    predicate IsScore() {
      ScoreLoss? || ScoreRBLoss? || ScoreKLLoss? || ScoreEntropyLoss?
    }

    /** Whether the builder replaces the sampled prior term by a closed-form KL. */
    predicate UsesAnalyticKL() {
      ReparamKLLoss? || ScoreKLLoss?
    }

    /** Whether the builder adds a closed-form entropy of the approximation. */
    predicate UsesAnalyticEntropy() {
      ReparamEntropyLoss? || ScoreEntropyLoss?
    }
  }

  /** The inference classes of klqp.py: KLqp picks its builder, the other
      seven always use one builder each. */
  datatype Algorithm =
    | KLqp
    | ReparameterizationKLqp
    | ReparameterizationKLKLqp
    | ReparameterizationEntropyKLqp
    | ScoreKLqp
    | ScoreRBKLqp
    | ScoreKLKLqp
    | ScoreEntropyKLqp
  {
    /** The classes that expose `build_loss` (gradients are taken outside). */
    predicate IsReparameterizationClass() {
      ReparameterizationKLqp? || ReparameterizationKLKLqp? || ReparameterizationEntropyKLqp?
    }

    /** The classes that expose `build_loss_and_gradients` with a fixed builder. */
    predicate IsScoreClass() {
      ScoreKLqp? || ScoreRBKLqp? || ScoreKLKLqp? || ScoreEntropyKLqp?
    }
  }

  /** The scalar that TensorFlow differentiates to obtain the gradients:
      - Pathwise(loss): the loss itself, differentiated through the
        reparameterised draws;
      - ScoreFunction(logQ, detached, analytic): the surrogate
        -(mean(logQ * stop_gradient(detached)) + analytic), where logQ is
        evaluated at draws held constant and `detached` is excluded from
        differentiation. */
  datatype Surrogate =
    | Pathwise(loss: real)
    | ScoreFunction(logQ: seq<real>, detached: seq<real>, analytic: real)

  /** The gradient of a surrogate with respect to one trainable variable. */
  datatype Gradient = Gradient(of: Surrogate, wrt: Var)

  /** A loss and its (gradient, variable) pairs. */
  datatype Objective = Objective(loss: real, gradsAndVars: seq<(Gradient, Var)>)

  datatype BuildError =
    | EmptySampleList   // no Monte Carlo sample: indexing `p_log_probs[0]` fails, and packing an empty list is taken to fail
    | MissingLogLik     // the model wrapper has no `log_lik`

  datatype Result<T> = Ok(value: T) | Err(error: BuildError)
}

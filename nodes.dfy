/** The random-variable nodes of a model, as far as the transform wrappers, the
    distribution catalog and the neural encoders look at them, and the
    constructor calls by which `default_q` describes a posterior node. */
module Nodes {
  import opened Common
  import opened Transforms

  /** The distribution classes of `elbow/elementary.py`. */
  datatype Family =
    | ContinuousUniform | GammaMatrix | BetaMatrix | DirichletMatrix
    | BernoulliMatrix | MultinomialMatrix | Laplace | MVGaussian | Gaussian

  /** An input of a node: another node of the model, or a fixed tensor. */
  datatype Arg = Random(node: Node) | Fixed(value: Tensor, shape: Shape)

  /** What a node is: an elementary distribution, one of the two transform
      wrappers of `elbow/transforms.py`, or one of the two neural encoders of
      `elbow/models/neural.py` (both deterministic transforms). */
  datatype Kind =
    | Elementary(family: Family)
    | UnaryTransform(parent: Node, transform: Transform)
    | TransformedDistribution(dist: Node, transform: Transform)
    | NeuralGaussianTransform(x: Arg, dHidden: int, dZ: int)
    | NeuralBernoulliTransform(z: Arg, dHidden: int, dX: int)

  /** A node: its name and kind, its shape, the shapes of its inputs
      (`input_shapes`), its fixed inputs (`inputs_nonrandom`), the tensors it
      holds as instance attributes (`mean`, `std`, `variance`, `p`, ...), its
      current sample (`_sampled`) and the posterior attached to it, if any. */
  datatype Node = Node(
    name: string,
    kind: Kind,
    shape: Shape,
    inputShapes: map<string, Shape>,
    nonrandom: map<string, Tensor>,
    attrs: map<string, Tensor>,
    sampled: Option<Tensor>,
    q: Option<Node>)

  /** The deterministic transforms, whose `attach_q` always raises. */
  predicate IsDeterministic(k: Kind)
  {
    k.UnaryTransform? || k.NeuralGaussianTransform? || k.NeuralBernoulliTransform?
  }

  /** `x._sampled`, which raises AttributeError on a node that has none and on `None`. */
  function Sampled(n: Option<Node>): (r: Outcome<Tensor>)
    ensures r.Ok? <==> n.Some? && n.value.sampled.Some?
    ensures r.Fail? ==> r.error == AttributeError("_sampled")
  {
    if n.Some? && n.value.sampled.Some? then Ok(n.value.sampled.value)
    else Fail(AttributeError("_sampled"))
  }

  /** `getattr(x, name)` for a tensor attribute. */
  function Attr(n: Node, attr: string): (r: Outcome<Tensor>)
    ensures r.Ok? <==> attr in n.attrs
    ensures r.Ok? ==> r.value == n.attrs[attr]
  {
    if attr in n.attrs then Ok(n.attrs[attr]) else Fail(AttributeError(attr))
  }

  /** The name `default_q` gives a posterior: `"q_" + name`. */
  function PosteriorName(name: string): (r: string)
    ensures |r| == |name| + 2 && r[..2] == "q_" && r[2..] == name
  {
    "q_" + name
  }

  /** A constructor call that `default_q` returns: an existing node (an
      attached posterior), or a new node of some class built from the given
      arguments. A name of `None` is left to the base class. */
  datatype Ctor =
    | Existing(node: Node)
    | NewElementary(family: Family, optName: Option<string>, shape: Shape)
    | NewTransformed(dist: Ctor, transform: Transform, name: string)
    | NewUnary(parent: Ctor, transform: Transform, name: string)
    | NewNeuralGaussian(x: CtorArg, dHidden: int, dZ: int, name: string)
    | NewNeuralBernoulli(z: CtorArg, dHidden: int, dX: int, name: string)

  /** An input of a constructor call: a posterior under construction, or a fixed tensor. */
  datatype CtorArg = FromCtor(ctor: Ctor) | FixedShape(shape: Shape)

  /** The name a constructor call gives its node. */
  function CtorName(c: Ctor): Option<string>
  {
    match c
    case Existing(n) => Some(n.name)
    case NewElementary(_, name, _) => name
    case NewTransformed(_, _, name) => Some(name)
    case NewUnary(_, _, name) => Some(name)
    case NewNeuralGaussian(_, _, _, name) => Some(name)
    case NewNeuralBernoulli(_, _, _, name) => Some(name)
  }
}

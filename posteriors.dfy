/** Default posteriors of whole nodes: `q_distribution` gives a node's
    attached posterior or else its `default_q`, and `default_q` of the
    transform wrappers and the neural encoders is built from the posteriors
    of their inputs. The theorem of this module is that a default posterior
    built this way has the shape of the node it approximates. */
module Posteriors {
  import opened Common
  import opened Transforms
  import opened TransformLaws
  import opened Nodes
  import opened Catalog
  import opened Neural
  import opened TransformNodes

  // ---------------------------------------------------------------------
  // The shape of the node a constructor call builds

  /** The shape of a node input: the node's shape, or the fixed tensor's. */
  function ArgShape(a: Arg): Shape
  {
    match a
    case Random(n) => n.shape
    case Fixed(_, s) => s
  }

  /** The shape the node built by `c` gets: an elementary class keeps the
      shape it is given (`DirichletMatrix` unpacks it into `N, K`); both
      transform wrappers take the transform's output shape of their input's;
      the neural encoders follow their `_compute_shape`, the Bernoulli one
      reading `z.shape[-1]` first. A wrapper over a shape-preserving
      transform has the shape of the node it wraps, failure included. */
  function BuiltShape(c: Ctor): (r: Outcome<Shape>)
    ensures c.Existing? ==> r == Ok(c.node.shape)
    ensures c.NewTransformed? && ShapePreserving(c.transform) ==> r == BuiltShape(c.dist)
    ensures c.NewUnary? && ShapePreserving(c.transform) ==> r == BuiltShape(c.parent)
    decreases c, 0
  {
    match c
    case Existing(n) => Ok(n.shape)
    case NewElementary(f, _, shape) =>
      if f == DirichletMatrix && |shape| != 2 then Fail(ValueError) else Ok(shape)
    case NewTransformed(d, t, _) =>
      var s :- BuiltShape(d);
      WrappedShape(t, s)
    case NewUnary(p, t, _) =>
      var s :- BuiltShape(p);
      WrappedShape(t, s)
    case NewNeuralGaussian(x, _, dZ, _) =>
      var s :- BuiltArgShape(x);
      Ok(GaussianEncoderShape(s, dZ))
    case NewNeuralBernoulli(z, _, dX, _) =>
      var s :- BuiltArgShape(z);
      var _ :- BernoulliEncoderLatentWidth(s);
      Ok(BernoulliEncoderShape(s, dX))
  }

  /** The shape a transform wrapper takes from the node it wraps:
      `transform.output_shape` of that node's shape. */
  function WrappedShape(t: Transform, s: Shape): (r: Outcome<Shape>)
    ensures ShapePreserving(t) ==> r == Ok(s)
  {
    if ShapePreserving(t) then ShapePreservingKeepsShape(t, s); OutputShape(t, s)
    else OutputShape(t, s)
  }

  /** The shape of a constructor argument. */
  function BuiltArgShape(a: CtorArg): Outcome<Shape>
    decreases a, 1
  {
    match a
    case FromCtor(c) => BuiltShape(c)
    case FixedShape(s) => Ok(s)
  }

  /** Describing a `UnaryTransform` over an existing node gives the shape its
      constructor computes, and fails exactly when the constructor fails on the
      shape. */
  lemma UnaryBuiltShape(k: Kernel, a: Node, t: Transform, name: string, items: seq<(string, Shape)>)
    ensures MakeUnary(k, a, t, name, items).Ok? ==>
            BuiltShape(NewUnary(Existing(a), t, name)) == Ok(MakeUnary(k, a, t, name, items).value.shape)
    ensures BuiltShape(NewUnary(Existing(a), t, name)) == OutputShape(t, a.shape)
    ensures BuiltShape(NewUnary(Existing(a), t, name)).Fail? ==> MakeUnary(k, a, t, name, items).Fail?
  {
    UnaryShape(k, a, t, name, items);
  }

  /** Likewise for a `TransformedDistribution` over an existing source. */
  lemma TransformedBuiltShape(k: Kernel, dist: Node, t: Transform, name: string, items: seq<(string, Shape)>, initial: map<string, Tensor>)
    ensures MakeTransformed(k, dist, t, name, items, initial).Ok? ==>
            BuiltShape(NewTransformed(Existing(dist), t, name)) == Ok(MakeTransformed(k, dist, t, name, items, initial).value.shape)
    ensures BuiltShape(NewTransformed(Existing(dist), t, name)) == OutputShape(t, dist.shape)
    ensures BuiltShape(NewTransformed(Existing(dist), t, name)).Fail? ==> MakeTransformed(k, dist, t, name, items, initial).Fail?
  {
  }

  // ---------------------------------------------------------------------
  // q_distribution and default_q

  /** `q_distribution()`: the attached posterior if there is one, otherwise
      the node's `default_q()`. */
  function QDistribution(n: Node): Outcome<Ctor>
    decreases n, 1
  {
    if n.q.Some? then Ok(Existing(n.q.value)) else DefaultQ(n)
  }

  /** The posterior passed for a node input: the input node's
      `q_distribution()` for a random input, the tensor itself for a fixed one. */
  function QArg(a: Arg): Outcome<CtorArg>
    decreases a, 2
  {
    match a
    case Random(p) =>
      var c :- QDistribution(p);
      Ok(FromCtor(c))
    case Fixed(_, s) => Ok(FixedShape(s))
  }

  /** `default_q()`: a catalog class uses its own rule; `UnaryTransform`
      applies its transform to the parent's `q_distribution()`;
      `TransformedDistribution` applies its transform to the source's
      `default_q()` (not to a posterior attached to the source); a neural
      encoder is rebuilt over the posterior of its input with the same widths.
      The posterior is named `"q_" + name`. */
  function DefaultQ(n: Node): (r: Outcome<Ctor>)
    ensures r.Ok? ==> !r.value.Existing? && CtorName(r.value) == Some(PosteriorName(n.name))
    decreases n, 0
  {
    var qName := PosteriorName(n.name);
    match n.kind
    case Elementary(f) => FamilyDefaultQ(f, n.name, n.shape)
    case UnaryTransform(parent, t) =>
      var qa :- QDistribution(parent);
      Ok(NewUnary(qa, t, qName))
    case TransformedDistribution(dist, t) =>
      var dq :- DefaultQ(dist);
      Ok(NewTransformed(dq, t, qName))
    case NeuralGaussianTransform(x, dHidden, dZ) =>
      var qx :- QArg(x);
      Ok(NewNeuralGaussian(qx, dHidden, dZ, qName))
    case NeuralBernoulliTransform(z, dHidden, dX) =>
      var qz :- QArg(z);
      Ok(NewNeuralBernoulli(qz, dHidden, dX, qName))
  }

  // ---------------------------------------------------------------------
  // Well-formed models

  /** The shapes of a model agree with its construction: a Dirichlet node
      has rank 2; a transform wrapper has the transform's output shape of its
      input's; an encoder has the shape its `_compute_shape` gives, and the
      Bernoulli encoder's latent input has a last dimension; an attached
      posterior has the node's shape. The same holds of every input. */
  predicate WellFormed(n: Node)
    decreases n, 1
  {
    (n.q.Some? ==> n.q.value.shape == n.shape) &&
    match n.kind
    case Elementary(f) => f == DirichletMatrix ==> |n.shape| == 2
    case UnaryTransform(p, t) => WellFormed(p) && OutputShape(t, p.shape) == Ok(n.shape)
    case TransformedDistribution(d, t) => WellFormed(d) && OutputShape(t, d.shape) == Ok(n.shape)
    case NeuralGaussianTransform(x, _, dZ) =>
      ArgWellFormed(x) && n.shape == GaussianEncoderShape(ArgShape(x), dZ)
    case NeuralBernoulliTransform(z, _, dX) =>
      ArgWellFormed(z) && |ArgShape(z)| > 0 && n.shape == BernoulliEncoderShape(ArgShape(z), dX)
  }

  predicate ArgWellFormed(a: Arg)
    decreases a, 2
  {
    a.Random? ==> WellFormed(a.node)
  }

  // ---------------------------------------------------------------------
  // A posterior has the shape of its node

  /** Every default posterior of a catalog class has the shape of its node:
      `Exp`, `Logit` and `Simplex` keep the shape of the Gaussian they push
      forward. */
  lemma FamilyDefaultQShape(f: Family, name: string, shape: Shape)
    requires f == DirichletMatrix ==> |shape| == 2
    requires FamilyDefaultQ(f, name, shape).Ok?
    ensures BuiltShape(FamilyDefaultQ(f, name, shape).value) == Ok(shape)
  {
    if f == DirichletMatrix {
      assert [shape[0], shape[1]] == shape;
    }
  }

  /** `default_q()` of a well-formed node, when it exists, builds a node of
      the same shape. */
  lemma {:induction false} DefaultQShape(n: Node)
    requires WellFormed(n) && DefaultQ(n).Ok?
    ensures BuiltShape(DefaultQ(n).value) == Ok(n.shape)
    decreases n, 0
  {
    match n.kind
    case Elementary(f) =>
      FamilyDefaultQShape(f, n.name, n.shape);
    case UnaryTransform(p, t) =>
      QDistributionShape(p);
    case TransformedDistribution(d, t) =>
      DefaultQShape(d);
    case NeuralGaussianTransform(x, _, _) =>
      QArgShape(x);
    case NeuralBernoulliTransform(z, _, _) =>
      QArgShape(z);
  }

  /** `q_distribution()` of a well-formed node builds a node of its shape. */
  lemma {:induction false} QDistributionShape(n: Node)
    requires WellFormed(n) && QDistribution(n).Ok?
    ensures BuiltShape(QDistribution(n).value) == Ok(n.shape)
    decreases n, 1
  {
    if n.q.None? {
      DefaultQShape(n);
    }
  }

  lemma {:induction false} QArgShape(a: Arg)
    requires ArgWellFormed(a) && QArg(a).Ok?
    ensures BuiltArgShape(QArg(a).value) == Ok(ArgShape(a))
    decreases a, 2
  {
    if a.Random? {
      QDistributionShape(a.node);
    }
  }

  // ---------------------------------------------------------------------
  // Where a default posterior comes from

  /** A node has a default posterior exactly when the rule of every class
      it is built from gives one: a catalog class defines one (and a
      Dirichlet shape unpacks), the parent of a `UnaryTransform` and every
      random input of an encoder has a posterior, and the source of a
      `TransformedDistribution` has a default posterior. */
  predicate HasDefaultQ(n: Node)
    decreases n, 0
  {
    match n.kind
    case Elementary(f) => f != MultinomialMatrix && f != MVGaussian && (f == DirichletMatrix ==> |n.shape| == 2)
    case UnaryTransform(p, _) => HasQ(p)
    case TransformedDistribution(d, _) => HasDefaultQ(d)
    case NeuralGaussianTransform(x, _, _) => x.Random? ==> HasQ(x.node)
    case NeuralBernoulliTransform(z, _, _) => z.Random? ==> HasQ(z.node)
  }

  predicate HasQ(n: Node)
    decreases n, 1
  {
    n.q.Some? || HasDefaultQ(n)
  }

  lemma {:induction false} DefaultQExists(n: Node)
    ensures DefaultQ(n).Ok? <==> HasDefaultQ(n)
    decreases n, 0
  {
    match n.kind
    case Elementary(f) =>
      DefaultQDefined(f, n.name, n.shape);
    case UnaryTransform(p, _) =>
      QDistributionExists(p);
    case TransformedDistribution(d, _) =>
      DefaultQExists(d);
    case NeuralGaussianTransform(x, _, _) =>
      if x.Random? { QDistributionExists(x.node); }
    case NeuralBernoulliTransform(z, _, _) =>
      if z.Random? { QDistributionExists(z.node); }
  }

  lemma {:induction false} QDistributionExists(n: Node)
    ensures QDistribution(n).Ok? <==> HasQ(n)
    decreases n, 1
  {
    if n.q.None? {
      DefaultQExists(n);
    }
  }

  /** A `TransformedDistribution` wraps the source's own default posterior:
      a posterior attached to the source does not enter it. */
  lemma TransformedIgnoresAttachedSourceQ(n: Node, sourceQ: Option<Node>)
    requires n.kind.TransformedDistribution?
    ensures var d := n.kind.dist;
            var n' := n.(kind := TransformedDistribution(d.(q := sourceQ), n.kind.transform));
            DefaultQ(n') == DefaultQ(n)
  {
  }
}

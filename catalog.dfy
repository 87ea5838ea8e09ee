/** The dispatch rules of the distribution catalog, `elbow/elementary.py`:
    input tables, shape inference, input-shape rules, default posteriors,
    the `reparameterized` flags, duck-typed Gaussian detection and the branch
    selection of the expected log-density terms. Numeric values stay abstract. */
module Catalog {
  import opened Common
  import opened Transforms
  import opened Nodes

  // ---------------------------------------------------------------------
  // Inputs

  /** The parameterization that `inputs()` names for a parameter; `None` in the source. */
  datatype Initializer =
    | NoInitializer | Unconstrained | PositiveExp | UnitInterval | PsdDiagonal
    | InitWeights | InitZeroVector

  /** What `inputs()` returns: a table from parameter name to initializer, or,
      for `MultinomialMatrix`, the parenthesised string `("p")`. */
  datatype InputTable = Table(entries: map<string, Initializer>) | BareString(text: string)

  function Inputs(f: Family): InputTable
  {
    match f
    case ContinuousUniform => Table(map["min_range" := NoInitializer, "max_range" := NoInitializer])
    case GammaMatrix => Table(map["alpha" := PositiveExp, "beta" := PositiveExp])
    case BetaMatrix => Table(map["alpha" := PositiveExp, "beta" := PositiveExp])
    case DirichletMatrix => Table(map["alpha" := PositiveExp])
    case BernoulliMatrix => Table(map["p" := UnitInterval])
    case MultinomialMatrix => BareString("p")
    case Laplace => Table(map["loc" := Unconstrained, "scale" := PositiveExp])
    case MVGaussian => Table(map["mean" := Unconstrained, "cov" := PsdDiagonal])
    case Gaussian => Table(map["mean" := Unconstrained, "std" := PositiveExp])
  }

  /** `inputs().keys()`: a string has no `keys` method. */
  function InputNames(f: Family): (r: Outcome<set<string>>)
    ensures r.Fail? <==> f == MultinomialMatrix
    ensures r.Fail? ==> r.error == AttributeError("keys")
  {
    match Inputs(f)
    case Table(entries) => Ok(entries.Keys)
    case BareString(_) => Fail(AttributeError("keys"))
  }

  // ---------------------------------------------------------------------
  // Shape inference

  /** The classes that define `_compute_shape`; the others rely on the base class. */
  predicate HasShapeRule(f: Family)
  {
    f != Laplace && f != MVGaussian && f != Gaussian
  }

  /** Binding keyword arguments to a signature: every required name must be
      present, and without `**kwargs` no other name may be. */
  function BindKeywords(given: set<string>, required: set<string>, acceptsExtra: bool): (r: Outcome<()>)
    ensures r.Ok? <==> required <= given && (acceptsExtra || given <= required)
  {
    if !(required <= given) || (!acceptsExtra && !(given <= required)) then Fail(TypeError)
    else Ok(())
  }

  /** `_compute_shape(**{name + "_shape": shape})` of a catalog class, from the
      shapes of its inputs keyed by input name. `ContinuousUniform` asserts its
      two range shapes are equal; `GammaMatrix` and `BetaMatrix` broadcast
      alpha against beta; the others pass their parameter's shape through. */
  function ComputeShape(f: Family, shapes: map<string, Shape>): Outcome<Shape>
    requires HasShapeRule(f)
  {
    match f
    case ContinuousUniform =>
      var _ :- BindKeywords(shapes.Keys, {"min_range", "max_range"}, true);
      if shapes["min_range"] == shapes["max_range"] then Ok(shapes["min_range"])
      else Fail(AssertionError)
    case GammaMatrix =>
      var _ :- BindKeywords(shapes.Keys, {"alpha", "beta"}, false);
      Broadcast(shapes["alpha"], shapes["beta"])
    case BetaMatrix =>
      var _ :- BindKeywords(shapes.Keys, {"alpha", "beta"}, false);
      Broadcast(shapes["alpha"], shapes["beta"])
    case DirichletMatrix =>
      var _ :- BindKeywords(shapes.Keys, {"alpha"}, false);
      Ok(shapes["alpha"])
    case BernoulliMatrix =>
      var _ :- BindKeywords(shapes.Keys, {"p"}, false);
      Ok(shapes["p"])
    case MultinomialMatrix =>
      var _ :- BindKeywords(shapes.Keys, {"p"}, false);
      Ok(shapes["p"])
  }

  /** Gamma and Beta take the broadcast of their two parameter shapes, which
      does not depend on which parameter is which, keeps a common shape and
      lets a scalar parameter follow the other. */
  lemma BroadcastFamilies(f: Family, a: Shape, b: Shape)
    requires f == GammaMatrix || f == BetaMatrix
    ensures ComputeShape(f, map["alpha" := a, "beta" := b]) == Broadcast(a, b)
    ensures ComputeShape(f, map["alpha" := a, "beta" := b]) == ComputeShape(f, map["alpha" := b, "beta" := a])
    ensures ComputeShape(f, map["alpha" := a, "beta" := a]) == Ok(a)
    ensures ComputeShape(f, map["alpha" := a, "beta" := []]) == Ok(a)
    ensures ComputeShape(f, map["alpha" := a]) == Fail(TypeError)
  {
    assert map["alpha" := a, "beta" := b].Keys == {"alpha", "beta"};
    assert map["alpha" := b, "beta" := a].Keys == {"alpha", "beta"};
    assert map["alpha" := a, "beta" := a].Keys == {"alpha", "beta"};
    assert map["alpha" := a, "beta" := []].Keys == {"alpha", "beta"};
    assert "beta" !in map["alpha" := a].Keys;
    BroadcastCommutes(a, b);
    BroadcastWithItself(a);
  }

  /** `DirichletMatrix`, `BernoulliMatrix` and `MultinomialMatrix` have the shape of their parameter. */
  lemma PassThroughFamilies(p: Shape)
    ensures ComputeShape(DirichletMatrix, map["alpha" := p]) == Ok(p)
    ensures ComputeShape(BernoulliMatrix, map["p" := p]) == Ok(p)
    ensures ComputeShape(MultinomialMatrix, map["p" := p]) == Ok(p)
    ensures ComputeShape(BernoulliMatrix, map["p" := p, "alpha" := p]) == Fail(TypeError)
  {
    assert map["alpha" := p].Keys == {"alpha"};
    assert map["p" := p].Keys == {"p"};
    assert "alpha" in map["p" := p, "alpha" := p].Keys;
  }

  /** `ContinuousUniform` accepts exactly equal range shapes and takes that shape. */
  lemma UniformShape(lo: Shape, hi: Shape)
    ensures ComputeShape(ContinuousUniform, map["min_range" := lo, "max_range" := hi]).Ok? <==> lo == hi
    ensures lo == hi ==> ComputeShape(ContinuousUniform, map["min_range" := lo, "max_range" := hi]) == Ok(lo)
    ensures lo != hi ==> ComputeShape(ContinuousUniform, map["min_range" := lo, "max_range" := hi]) == Fail(AssertionError)
  {
    assert map["min_range" := lo, "max_range" := hi].Keys == {"min_range", "max_range"};
  }

  /** `ContinuousUniform._logp`: minus the log area of the region, whatever
      `result` is. `logArea(hi, lo)` is `reduce_sum(log(hi - lo))`. */
  function UniformLogp(logArea: (Tensor, Tensor) -> real, result: Tensor, lo: Tensor, hi: Tensor): real
  {
    -logArea(hi, lo)
  }

  lemma UniformLogpIgnoresResult(logArea: (Tensor, Tensor) -> real, r1: Tensor, r2: Tensor, lo: Tensor, hi: Tensor)
    ensures UniformLogp(logArea, r1, lo, hi) == UniformLogp(logArea, r2, lo, hi)
  {
  }

  // ---------------------------------------------------------------------
  // Input-shape rules

  /** The classes that define `_input_shape`. */
  predicate HasInputShapeRule(f: Family)
  {
    f == BernoulliMatrix || f == MVGaussian
  }

  /** `_input_shape(param)`. `BernoulliMatrix` asserts the parameter is one of
      its inputs and gives the node shape. `MVGaussian` gives the node shape for
      `mean` and (n, n) for `cov` when the node shape is (n, k); it raises for
      any other name. */
  function FamilyInputShape(f: Family, shape: Shape, param: string): Outcome<Shape>
    requires HasInputShapeRule(f)
  {
    if f == BernoulliMatrix then
      if param in Inputs(f).entries then Ok(shape) else Fail(AssertionError)
    else if param == "mean" then Ok(shape)
    else if param == "cov" then
      if |shape| == 2 then Ok([shape[0], shape[0]]) else Fail(ValueError)
    else Fail(Unsupported)
  }

  lemma InputShapeRules(shape: Shape, param: string)
    ensures FamilyInputShape(BernoulliMatrix, shape, param).Ok? <==> param == "p"
    ensures FamilyInputShape(BernoulliMatrix, shape, param).Ok? ==> FamilyInputShape(BernoulliMatrix, shape, param).value == shape
    ensures FamilyInputShape(MVGaussian, shape, "mean") == Ok(shape)
    ensures |shape| == 2 ==> FamilyInputShape(MVGaussian, shape, "cov") == Ok([shape[0], shape[0]])
    ensures |shape| != 2 ==> FamilyInputShape(MVGaussian, shape, "cov") == Fail(ValueError)
    ensures param != "mean" && param != "cov" ==> FamilyInputShape(MVGaussian, shape, param) == Fail(Unsupported)
  {
  }

  // ---------------------------------------------------------------------
  // Default posteriors

  /** `default_q` of a catalog class. `ContinuousUniform` gets a Gaussian;
      Gamma, Beta and Dirichlet get a Gaussian pushed through `Exp`, `Logit`
      and `Simplex`; Bernoulli, Laplace and Gaussian get their own family.
      The Dirichlet posterior unpacks the shape as (n, k).
      `MultinomialMatrix` and `MVGaussian` define none. */
  function FamilyDefaultQ(f: Family, name: string, shape: Shape): Outcome<Ctor>
  {
    var qName := PosteriorName(name);
    match f
    case ContinuousUniform => Ok(NewElementary(Gaussian, Some(qName), shape))
    case GammaMatrix => Ok(NewTransformed(NewElementary(Gaussian, None, shape), Exp, qName))
    case BetaMatrix => Ok(NewTransformed(NewElementary(Gaussian, None, shape), Logit, qName))
    case DirichletMatrix =>
      if |shape| == 2 then Ok(NewTransformed(NewElementary(Gaussian, None, [shape[0], shape[1]]), Simplex, qName))
      else Fail(ValueError)
    case BernoulliMatrix => Ok(NewElementary(BernoulliMatrix, Some(qName), shape))
    case Laplace => Ok(NewElementary(Laplace, Some(qName), shape))
    case Gaussian => Ok(NewElementary(Gaussian, Some(qName), shape))
    case MultinomialMatrix => Fail(NoDefaultPosterior)
    case MVGaussian => Fail(NoDefaultPosterior)
  }

  /** The family a default posterior draws from and the transform it is
      pushed through: the same family for Bernoulli, Laplace and Gaussian, a
      Gaussian otherwise. */
  lemma DefaultQFamilies(f: Family, name: string, shape: Shape)
    requires FamilyDefaultQ(f, name, shape).Ok?
    ensures var c := FamilyDefaultQ(f, name, shape).value;
            (f == BernoulliMatrix || f == Laplace || f == Gaussian) ==> c == NewElementary(f, Some(PosteriorName(name)), shape)
    ensures var c := FamilyDefaultQ(f, name, shape).value;
            f == ContinuousUniform ==> c == NewElementary(Gaussian, Some(PosteriorName(name)), shape)
    ensures var c := FamilyDefaultQ(f, name, shape).value;
            (f == GammaMatrix || f == BetaMatrix || f == DirichletMatrix) ==>
              c.NewTransformed? && c.dist == NewElementary(Gaussian, None, shape) && c.name == PosteriorName(name) &&
              c.transform == (if f == GammaMatrix then Exp else if f == BetaMatrix then Logit else Simplex)
  {
    if f == DirichletMatrix {
      assert [shape[0], shape[1]] == shape;
    }
  }

  /** A catalog class has a default posterior exactly when it defines
      `default_q`, and, for Dirichlet, its shape unpacks as (n, k). */
  lemma DefaultQDefined(f: Family, name: string, shape: Shape)
    ensures FamilyDefaultQ(f, name, shape).Ok? <==>
            f != MultinomialMatrix && f != MVGaussian && (f == DirichletMatrix ==> |shape| == 2)
    ensures FamilyDefaultQ(f, name, shape).Fail? ==>
            FamilyDefaultQ(f, name, shape).error == (if f == DirichletMatrix then ValueError else NoDefaultPosterior)
  {
  }

  /** `DirichletMatrix.__init__` unpacks its shape into `N, K`, so only a
      rank-2 shape gets through, whatever the class docstring says. */
  function DirichletInit(shape: Shape): (r: Outcome<(int, int)>)
    ensures r.Ok? <==> |shape| == 2
    ensures r.Ok? ==> [r.value.0, r.value.1] == shape
    ensures r.Fail? ==> r.error == ValueError
  {
    if |shape| == 2 then Ok((shape[0], shape[1])) else Fail(ValueError)
  }

  // ---------------------------------------------------------------------
  // Flags

  /** `reparameterized()`: `None` where the class leaves it to the base class. */
  function Reparameterized(f: Family): (r: Option<bool>)
    ensures r == Some(true) <==> f == Gaussian || f == MVGaussian
    ensures r == None <==> f == ContinuousUniform || f == Laplace
  {
    match f
    case Gaussian => Some(true)
    case MVGaussian => Some(true)
    case ContinuousUniform => None
    case Laplace => None
    case _ => Some(false)
  }

  /** `is_gaussian(dist)`: duck typing, true when both `dist.mean` and
      `dist.variance` can be read; `None` has neither. */
  predicate IsGaussian(q: Option<Node>)
  {
    q.Some? && "mean" in q.value.attrs && "variance" in q.value.attrs
  }

  /** `Gaussian.derived_parameters(mean, std)`: exactly `{variance: std**2}`;
      calling it without `mean` or `std` raises TypeError. The other classes
      inherit the base method, taken to derive nothing. */
  function DerivedParameters(square: Tensor -> Tensor, f: Option<Family>, params: map<string, Tensor>): (r: Outcome<map<string, Tensor>>)
    ensures f == Some(Gaussian) && "mean" in params && "std" in params ==>
              r.Ok? && r.value.Keys == {"variance"} && r.value["variance"] == square(params["std"])
    ensures f == Some(Gaussian) && !("mean" in params && "std" in params) ==> r == Fail(TypeError)
    ensures f != Some(Gaussian) ==> r == Ok(map[])
  {
    if f == Some(Gaussian) then
      if "mean" in params && "std" in params then Ok(map["variance" := square(params["std"])])
      else Fail(TypeError)
    else Ok(map[])
  }

  // ---------------------------------------------------------------------
  // Expected log-density terms

  /** The term `Gaussian._expected_logp` builds, one constructor per branch. */
  datatype GaussianTerm =
    | CrossWithResultQ(qMean: Tensor, qVariance: Tensor, mean: Tensor, variance: Tensor)
    | CrossWithMeanQ(qMean: Tensor, qVariance: Tensor, result: Tensor, variance: Tensor)
    | CrossWithBothQ(qMean: Tensor, qVariance: Tensor, resultMean: Tensor, variance: Tensor)
    | SampledLogDensity(result: Tensor, mean: Tensor, std: Tensor)

  /** `get_sample(q, param)`: the fixed input when there is no posterior, else its sample. */
  function GetSample(node: Node, q: Option<Node>, param: string): (r: Outcome<Tensor>)
    ensures q.None? ==> (r.Ok? <==> param in node.nonrandom)
    ensures q.None? && r.Ok? ==> r.value == node.nonrandom[param]
    ensures q.Some? ==> r == Sampled(q)
  {
    if q.None? then
      if param in node.nonrandom then Ok(node.nonrandom[param]) else Fail(KeyError(param))
    else Sampled(q)
  }

  /** `Gaussian._expected_logp(q_result, q_mean, q_std)`: draw the std, mean and
      result samples in that order, then pick the cross-entropy against
      whichever posterior is Gaussian, or the log density of the samples when
      neither is. `add` and `square` are the tensor operations. */
  function GaussianExpectedLogp(k: Kernel, node: Node, qResult: Node, qMean: Option<Node>, qStd: Option<Node>): Outcome<GaussianTerm>
  {
    var stdSample :- GetSample(node, qStd, "std");
    var meanSample :- GetSample(node, qMean, "mean");
    var resultSample :- Sampled(Some(qResult));
    var resultIsGaussian := IsGaussian(Some(qResult));
    var meanIsGaussian := IsGaussian(qMean);
    if resultIsGaussian && !meanIsGaussian then
      Ok(CrossWithResultQ(qResult.attrs["mean"], qResult.attrs["variance"], meanSample, k.square(stdSample)))
    else if !resultIsGaussian && meanIsGaussian then
      Ok(CrossWithMeanQ(qMean.value.attrs["mean"], qMean.value.attrs["variance"], resultSample, k.square(stdSample)))
    else if resultIsGaussian && meanIsGaussian then
      Ok(CrossWithBothQ(qMean.value.attrs["mean"], k.add(qMean.value.attrs["variance"], qResult.attrs["variance"]),
                        qResult.attrs["mean"], k.square(stdSample)))
    else
      Ok(SampledLogDensity(resultSample, meanSample, stdSample))
  }

  /** Once the samples exist, exactly one of the four branches is taken, and
      which one is decided by the pair (is the result posterior Gaussian, is
      the mean posterior Gaussian). Without a mean posterior the fixed mean is
      the mean sample. */
  lemma GaussianBranchSelection(k: Kernel, node: Node, qResult: Node, qMean: Option<Node>, qStd: Option<Node>)
    ensures var r := GaussianExpectedLogp(k, node, qResult, qMean, qStd);
            r.Ok? <==> GetSample(node, qStd, "std").Ok? && GetSample(node, qMean, "mean").Ok? && qResult.sampled.Some?
    ensures var r := GaussianExpectedLogp(k, node, qResult, qMean, qStd);
            r.Ok? ==>
              (r.value.CrossWithResultQ? <==> IsGaussian(Some(qResult)) && !IsGaussian(qMean)) &&
              (r.value.CrossWithMeanQ? <==> !IsGaussian(Some(qResult)) && IsGaussian(qMean)) &&
              (r.value.CrossWithBothQ? <==> IsGaussian(Some(qResult)) && IsGaussian(qMean)) &&
              (r.value.SampledLogDensity? <==> !IsGaussian(Some(qResult)) && !IsGaussian(qMean))
    ensures var r := GaussianExpectedLogp(k, node, qResult, qMean, qStd);
            r.Ok? && qMean.None? ==> r.value.CrossWithResultQ? || r.value.SampledLogDensity?
    ensures var r := GaussianExpectedLogp(k, node, qResult, qMean, qStd);
            r.Ok? && qMean.None? && r.value.CrossWithResultQ? ==> r.value.mean == node.nonrandom["mean"]
    ensures var r := GaussianExpectedLogp(k, node, qResult, qMean, qStd);
            r.Ok? && qMean.None? && r.value.SampledLogDensity? ==> r.value.mean == node.nonrandom["mean"]
    ensures qStd.None? && "std" !in node.nonrandom ==>
            GaussianExpectedLogp(k, node, qResult, qMean, qStd) == Fail(KeyError("std"))
  {
  }

  /** The term `BernoulliMatrix._expected_logp` builds. */
  datatype BernoulliTerm =
    | BernoulliCross(q: Tensor, p: Tensor)         // minus the cross-entropy of q against p
    | BernoulliLogDensity(result: Tensor, p: Tensor)

  /** `BernoulliMatrix._expected_logp(q_result, q_p)`: the cross-entropy
      branch when `q_result.p` can be read, otherwise (the bare `except`) the
      log density of the result posterior's sample. */
  function BernoulliExpectedLogp(qResult: Node, qP: Option<Node>): Outcome<BernoulliTerm>
  {
    var p :- Sampled(qP);
    if "p" in qResult.attrs then Ok(BernoulliCross(qResult.attrs["p"], p))
    else
      var result :- Sampled(Some(qResult));
      Ok(BernoulliLogDensity(result, p))
  }

  lemma BernoulliBranchSelection(qResult: Node, qP: Option<Node>)
    ensures var r := BernoulliExpectedLogp(qResult, qP);
            r.Ok? <==> Sampled(qP).Ok? && ("p" in qResult.attrs || qResult.sampled.Some?)
    ensures var r := BernoulliExpectedLogp(qResult, qP);
            r.Ok? ==> (r.value.BernoulliCross? <==> "p" in qResult.attrs)
    ensures var r := BernoulliExpectedLogp(qResult, qP);
            r.Ok? && r.value.BernoulliCross? ==> r.value.q == qResult.attrs["p"] && r.value.p == qP.value.sampled.value
    ensures var r := BernoulliExpectedLogp(qResult, qP);
            r.Ok? && r.value.BernoulliLogDensity? ==> r.value.result == qResult.sampled.value
  {
  }

  /** `MultinomialMatrix._expected_logp` as written: it returns the sum of
      `multinomial_entropy(q, cross_q=p)`, which is the cross-entropy
      `-sum(q * log p)` itself, without the minus sign the Bernoulli and
      Gaussian terms carry. `crossEntropy(q, p)` is that sum. */
  function MultinomialExpectedLogpAsWritten(crossEntropy: (Tensor, Tensor) -> real, qResult: Node, qP: Option<Node>): Outcome<real>
  {
    var p :- Sampled(qP);
    var q :- Attr(qResult, "p");
    Ok(crossEntropy(q, p))
  }

  /** The expected log-likelihood the method is meant to return: minus the
      cross-entropy, as in `BernoulliMatrix._expected_logp`. */
  function MultinomialExpectedLogp(crossEntropy: (Tensor, Tensor) -> real, qResult: Node, qP: Option<Node>): Outcome<real>
  {
    var p :- Sampled(qP);
    var q :- Attr(qResult, "p");
    Ok(-crossEntropy(q, p))
  }

  /** As written, whenever the cross-entropy is positive (any non-degenerate
      posterior) the "expected log-probability" of a one-hot outcome comes out
      positive, which no log-probability of a discrete outcome can be. */
  lemma MultinomialSignAsWritten(crossEntropy: (Tensor, Tensor) -> real, qResult: Node, qP: Option<Node>)
    requires Sampled(qP).Ok? && "p" in qResult.attrs
    requires crossEntropy(qResult.attrs["p"], qP.value.sampled.value) > 0.0
    ensures MultinomialExpectedLogpAsWritten(crossEntropy, qResult, qP).Ok?
    ensures MultinomialExpectedLogpAsWritten(crossEntropy, qResult, qP).value > 0.0
    ensures MultinomialExpectedLogpAsWritten(crossEntropy, qResult, qP).value ==
            -MultinomialExpectedLogp(crossEntropy, qResult, qP).value
  {
  }

  /** With the sign restored, the expected log-probability is never positive
      when cross-entropies are non-negative (probabilities clipped to at most 1). */
  lemma MultinomialExpectedLogpNonPositive(crossEntropy: (Tensor, Tensor) -> real, qResult: Node, qP: Option<Node>)
    requires forall a, b :: crossEntropy(a, b) >= 0.0
    ensures MultinomialExpectedLogp(crossEntropy, qResult, qP).Ok? <==> Sampled(qP).Ok? && "p" in qResult.attrs
    ensures MultinomialExpectedLogp(crossEntropy, qResult, qP).Ok? ==>
            MultinomialExpectedLogp(crossEntropy, qResult, qP).value <= 0.0
  {
  }
}

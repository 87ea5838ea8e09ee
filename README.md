# elbow transforms, elementary distributions and neural encoders in Dafny

This project models three parts of `elbow`, a library for variational inference that builds models out of random-variable nodes. They are:

- **The transform algebra** (`elbow/transforms.py`). These are stateless transform classes with:
  - the forward map, optionally with its log Jacobian;
  - the inverse map;
  - `output_shape` / `input_shape`;
  - `is_structural`.

  It also covers `invert_transform` and `chain_transforms` (whose class methods are loops), the named derived transforms, and the shifted `Simplex` / `SimplexCol`.
- **The two node wrappers built on it**:
  - `UnaryTransform`: a deterministic transform of a node already in the model. It passes parameters through structural transforms.
  - `TransformedDistribution`: a new random variable with the pushed-forward density of a source distribution.
- **The elementary distribution catalog** (`elbow/elementary.py`). For each class it models:
  - the input tables and initializers;
  - the shape rules, input-shape rules and default posteriors;
  - the reparameterization flags and derived parameters;
  - the branch structure of the expected log-density terms.
- **The neural encoders** (`elbow/models/neural.py`): their inputs, parameter shapes and output shapes, and the shape contract of `neural_gaussian`.

## Modules

- `common.dfy`: shapes as integer sequences, an opaque `Tensor`, Python exception kinds, the `Outcome` result type, and the NumPy broadcasting rule.
- `transforms.dfy`: the `Transform` datatype, with one constructor per class, `Inverted` for `invert_transform` and `Chain` for `chain_transforms`. It also holds the named derived transforms and the recursive shape, forward and inverse maps.
  - Numerics come from a `Kernel` value: the per-class forward and inverse maps and log Jacobians, tensor rank, row/column max-shift, addition and squaring. They are parameters, not code.
- `transform_laws.dfy`: the algebra's laws:
  - chaining composes the maps;
  - inversion swaps them;
  - the shape maps are mutually inverse;
  - a chain of bijections is a bijection;
  - the derived transforms behave as stated.
- `chain.dfy`: each class method of a chain is written as the loop the source runs, and proved to compute the recursive definition.
- `nodes.dfy`: nodes, their kinds, attributes, samples and attached posteriors. It also describes constructor calls (`Ctor`) that `default_q` returns.
- `catalog.dfy`: the elementary classes.
- `neural.dfy`: the encoders.
- `transform_nodes.dfy`: `UnaryTransform` and `TransformedDistribution`:
  - the parameter pass-through loop of `UnaryTransform.__init__`;
  - the `setattr`/`delattr` loop of `TransformedDistribution.__init__`;
  - `observe` and `attach_q`;
  - the change-of-variables density.
- `posteriors.dfy`: `q_distribution` / `default_q` over whole models. The main theorem is that a default posterior has the shape of the node it approximates.

The Python dictionaries the constructors iterate over appear as a sequence of distinct `(name, shape)` items in iteration order. `ItemsOf(items, m)` says the sequence lists exactly the entries of `m`.

## Model

| member | source | states |
|---|---|---|
| Common.Broadcast | elbow/elementary.py:61-62 | `broadcast_shape`, under the NumPy rule: shapes aligned on the right, each pair of dimensions equal or one of them 1, ShapeMismatch otherwise; its laws are the four lemmas below |
| Transforms.OutputShape | elbow/transforms.py:204-514 | `output_shape` of every class: the identity by default, (N, M) to (M, N) for `Transpose`, the last dimension grown by one for `UnitColumn` and `RowNormalize1` (ValueError on other ranks), the source's `input_shape` for an inverted transform, the stages in order for a chain |
| Transforms.InputShape | elbow/transforms.py:209-569 | `input_shape` of every class: the identity by default and for `UnitColumn`, `output_shape` for the self-inverse classes, the last dimension shrunk by one for `RowNormalize1`, the source's `output_shape` for an inverted transform, the stages last to first for a chain |
| Transforms.IsStructural | elbow/transforms.py:214-575 | `is_structural`: false by default, true for `Transpose`, the source's flag for an inverted transform, all stages structural for a chain |
| Transforms.Primitive | elbow/transforms.py:236-481 | `transform(x)` of one base class through the numeric engine: zero log Jacobian for `Transpose` and `UnitColumn`; `RowNormalize` accepts ranks 1 and 2; `RowNormalize1` accepts rank 2 and raises NameError on `x` for a vector |
| Transforms.Forward | elbow/transforms.py:196-612 | `transform(x, return_log_jac)` of every transform: base classes as above, `Simplex`/`SimplexCol` as the shifted raw chains, an inverted transform as its source's inverse, a chain stage by stage with log Jacobians summed |
| Transforms.Backward | elbow/transforms.py:200-557 | `inverse(y, return_log_jac)`: forward map for the self-inverse classes, NameError on `clip_finite` for `Logit` with a log Jacobian, NotImplementedError for the classes without an inverse, the source's forward map for an inverted transform, the stage inverses last to first for a chain |
| Common.BroadcastWithItself | elbow/elementary.py:61-62 | broadcasting a shape against itself gives that shape |
| Common.BroadcastCommutes | elbow/elementary.py:89-90 | broadcasting does not depend on the argument order, in success and in failure |
| Common.ScalarBroadcastsToAnything | elbow/elementary.py:61-62 | a scalar shape, in either position, broadcasts to the other shape |
| Common.BroadcastRank | elbow/elementary.py:61-62 | a successful broadcast has the rank of the longer shape, and each dimension of an input is 1 or the aligned dimension of the result |
| TransformLaws.OutputShapeAppend | elbow/transforms.py:559-563 | the output shape of a chain of `a + b` is that of `b` applied to that of `a`, failures included |
| TransformLaws.InputShapeAppend | elbow/transforms.py:565-569 | the input shape of a chain of `a + b` is that of `a` applied to that of `b` (last stage first), failures included |
| TransformLaws.ChainOfTwoShapes | elbow/transforms.py:559-569 | `chain(T1, T2)` has output shape `T2.output_shape(T1.output_shape(s))` and input shape `T1.input_shape(T2.input_shape(s))` |
| TransformLaws.SingleStageShapes | elbow/transforms.py:559-569 | a one-stage chain has that stage's shape maps |
| TransformLaws.InvertSwapsShapeMaps | elbow/transforms.py:495-523 | `invert_transform` swaps forward with inverse and output with input shape, keeps `is_structural`, and inverting twice gives the original maps back |
| TransformLaws.ShapeMapsInverse | elbow/transforms.py:204-212 | for every transform not built on `UnitColumn`, `output_shape(s) == o` holds exactly when `input_shape(o) == s` |
| TransformLaws.StagesShapeMapsInverse | elbow/transforms.py:559-569 | the same if-and-only-if for a chain of such stages |
| TransformLaws.TransposeShapeInverse | elbow/transforms.py:485-488 | the transpose shape map is its own inverse: it sends `s` to `o` exactly when it sends `o` to `s` |
| TransformLaws.GrowShrinkInverse | elbow/transforms.py:339-371 | growing the last dimension by one and shrinking it by one are mutually inverse |
| TransformLaws.UnitColumnBreaksShapeRoundTrip | elbow/transforms.py:288-312 | `UnitColumn` maps (n, k) to (n, k+1) but its inherited `input_shape` is the identity, so the shape round trip fails |
| TransformLaws.ShapePreservingKeepsShape | elbow/transforms.py:204-212 | a transform built from pointwise classes keeps every shape in both directions |
| TransformLaws.StagesShapePreservingKeepsShape | elbow/transforms.py:559-569 | a chain of such stages keeps every shape in both directions |
| TransformLaws.DerivedPointwiseTransforms | elbow/transforms.py:580-593 | `Sqrt`, `Log`, `Reciprocal_Sqrt`, `Reciprocal_Square`, `Exp_Reciprocal` and `Simplex_Raw` keep shapes and are not structural; `Simplex` and `SimplexCol` keep shapes |
| TransformLaws.NormalizeOneShapes | elbow/transforms.py:586-590 | `ColNormalize1` maps (n, k) to (n+1, k) and back; `Simplex1` maps (n, k) to (n, k+1) and back; `Simplex1Col` maps (n, k) to (n+1, k) |
| TransformLaws.TransposeLaws | elbow/transforms.py:222-492 | `Transpose` and `Reciprocal` are self-inverse; `Transpose` is structural with a zero log Jacobian, accepts exactly rank-2 shapes, maps (N, M) to (M, N) in both shape maps, and transposing a shape twice gives it back |
| TransformLaws.ChainStructuralIffAll | elbow/transforms.py:571-575 | a chain is structural exactly when every stage is |
| TransformLaws.ForwardAppend | elbow/transforms.py:530-542 | the forward map of a chain of `a + b` runs `a` then `b`, adding the two log Jacobians; a failure in either is the chain's failure |
| TransformLaws.SingleStageForward | elbow/transforms.py:530-542 | a one-stage chain gives its stage's forward result, or its failure |
| TransformLaws.TwoStageForward | elbow/transforms.py:530-542 | a two-stage chain runs the first stage, then the second on its output, adding the log Jacobians; the first failure is the chain's |
| TransformLaws.ChainInverseIsReversedInverses | elbow/transforms.py:544-557 | a chain's `inverse` is the forward map of the chain of the stage inverses in reverse order, log Jacobian included |
| TransformLaws.SimplexIsShiftedRaw | elbow/transforms.py:596-603 | `Simplex.transform(x)` is `Simplex_Raw.transform` of `x` shifted by its row maximum |
| TransformLaws.ColNormalizeSteps | elbow/transforms.py:587 | `ColNormalize` is transpose, row-normalize, transpose, applied step by step |
| TransformLaws.ColNormalize1Shapes | elbow/transforms.py:586 | `ColNormalize1` (transpose, `RowNormalize1`, transpose) maps an (n, k) matrix to (n+1, k), and its inverse maps (n+1, k) back to (n, k) |
| TransformLaws.SimplexColIsShiftedRaw | elbow/transforms.py:605-612 | `SimplexCol.transform(x)` is `Simplex_Raw_Col.transform` of `x` shifted by its column maximum |
| TransformLaws.InvertedBijective | elbow/transforms.py:495-523 | inverting a transform whose inverse and forward undo each other everywhere gives another such transform |
| TransformLaws.ChainBijective | elbow/transforms.py:525-557 | a chain of such stages is such a transform: `inverse(transform(x)) == x` and `transform(inverse(y)) == y` with negated log Jacobians |
| TransformLaws.StagesInvert | elbow/transforms.py:530-557 | the chain's inverse undoes its forward map at every point, with the negated log Jacobian |
| TransformLaws.StagesRecover | elbow/transforms.py:530-557 | the chain's forward map undoes its inverse at every point, with the negated log Jacobian |
| TransformLaws.LogitInverseWithLogJacRaises | elbow/transforms.py:257-268 | `Logit.inverse` raises NameError on `clip_finite` whenever the log Jacobian is asked for and succeeds otherwise; so does `invert_transform(Logit).transform`, and `Logit` is not a bijection with log Jacobians |
| TransformLaws.RowNormalize1RejectsVectors | elbow/transforms.py:320-337 | `RowNormalize1.transform` succeeds exactly on rank-2 inputs; on a vector it raises NameError on `x` |
| Chains.SumAppend | elbow/transforms.py:538-541 | summing the collected log Jacobians with one more appended adds that one |
| Chains.OutputShapeLoop | elbow/transforms.py:559-563 | the loop of `Chain.output_shape` computes the chain's output shape, stopping at the first failing stage |
| Chains.InputShapeSuffixFails | elbow/transforms.py:565-569 | if the later stages' input shapes fail, the chain's input shape fails with the same error |
| Chains.InputShapeLoop | elbow/transforms.py:565-569 | the reversed loop of `Chain.input_shape` computes the chain's input shape |
| Chains.TransformLoop | elbow/transforms.py:530-542 | the loop of `Chain.transform` computes the chain's forward map, returning the sum of the stage log Jacobians |
| Chains.BackwardSuffixFails | elbow/transforms.py:544-557 | if the later stages' inverses fail, the chain's inverse fails with the same error |
| Chains.InverseLoop | elbow/transforms.py:544-557 | the reversed loop of `Chain.inverse` computes the chain's inverse map and the sum of the log Jacobians |
| Chains.IsStructuralLoop | elbow/transforms.py:571-575 | the loop that multiplies flags into `True` returns the integer 1 exactly when every stage is structural (and the chain is), 0 otherwise |
| Nodes.PosteriorName | elbow/transforms.py:93 | the posterior name is `"q_"` followed by the node's name |
| Catalog.InputNames | elbow/elementary.py:203-204 | `inputs().keys()` fails with AttributeError exactly for `MultinomialMatrix`, whose `inputs()` returns the string `"p"` |
| Catalog.Inputs | elbow/elementary.py:27-318 | the `inputs()` table of every class, with its initializers, and the bare string `"p"` of `MultinomialMatrix` |
| Catalog.ComputeShape | elbow/elementary.py:30-227 | `_compute_shape` of the classes that define one, with Python's keyword binding (TypeError on a missing or unexpected input shape) |
| Catalog.BroadcastFamilies | elbow/elementary.py:61-62 | Gamma and Beta take the broadcast of alpha and beta, independent of their order, keeping a common shape, letting a scalar beta follow alpha, and raising TypeError without beta |
| Catalog.PassThroughFamilies | elbow/elementary.py:126-127 | Dirichlet, Bernoulli and Multinomial take the shape of their one parameter, and reject an extra keyword with TypeError |
| Catalog.UniformShape | elbow/elementary.py:30-32 | `ContinuousUniform` succeeds exactly when the range shapes are equal, takes that shape, and fails its assertion otherwise |
| Catalog.UniformLogp | elbow/elementary.py:37-39 | `ContinuousUniform._logp`: minus the log area of the range |
| Catalog.UniformLogpIgnoresResult | elbow/elementary.py:37-39 | the uniform log density is the same at every result |
| Catalog.FamilyInputShape | elbow/elementary.py:153-272 | `_input_shape(param)` of `BernoulliMatrix` and `MVGaussian` |
| Catalog.InputShapeRules | elbow/elementary.py:153-271 | Bernoulli gives its node shape for `p` and fails its assertion on any other name; MVGaussian gives the node shape for `mean`, (n, n) for `cov` on an (n, k) node, ValueError on another rank, and raises for any other name |
| Catalog.FamilyDefaultQ | elbow/elementary.py:41-339 | `default_q` of every catalog class, as a description of the constructor call it makes, and NoDefaultPosterior for the classes that define none |
| Catalog.DefaultQFamilies | elbow/elementary.py:41-141 | a Uniform gets a Gaussian posterior; Gamma, Beta and Dirichlet get a same-shaped Gaussian pushed through `Exp`, `Logit` and `Simplex`; Bernoulli, Laplace and Gaussian get their own family; every posterior is named `q_<name>` |
| Catalog.DefaultQDefined | elbow/elementary.py:129-141 | a class has a default posterior exactly when it defines `default_q` and, for Dirichlet, the shape unpacks into (n, k); the error otherwise is ValueError for Dirichlet |
| Catalog.DirichletInit | elbow/elementary.py:106-108 | the Dirichlet constructor succeeds exactly on rank-2 shapes, storing (N, K), and raises ValueError otherwise |
| Catalog.Reparameterized | elbow/elementary.py:68-364 | exactly Gaussian and MVGaussian are reparameterized; Uniform and Laplace leave the flag to the base class |
| Catalog.IsGaussian | elbow/elementary.py:300-310 | `is_gaussian(dist)`: true exactly when `mean` and `variance` can both be read |
| Catalog.DerivedParameters | elbow/elementary.py:323-324 | Gaussian derives exactly `{variance: std**2}` from mean and std and raises TypeError without them; the other classes derive nothing |
| Catalog.GetSample | elbow/elementary.py:343-344 | without a posterior the fixed input is used (KeyError if there is none); with one, its sample |
| Catalog.GaussianExpectedLogp | elbow/elementary.py:341-361 | `Gaussian._expected_logp`: the samples of std, mean and result, in that order, then one of four terms |
| Catalog.GaussianBranchSelection | elbow/elementary.py:341-361 | the Gaussian expected log density succeeds exactly when the std, mean and result samples exist; exactly one branch is taken, the one chosen by which posteriors are Gaussian; with no mean posterior the fixed mean is used |
| Catalog.BernoulliExpectedLogp | elbow/elementary.py:161-175 | `BernoulliMatrix._expected_logp`: the cross-entropy term when `q_result.p` can be read, else the log density of the sample |
| Catalog.BernoulliBranchSelection | elbow/elementary.py:161-175 | the Bernoulli expected log density succeeds exactly when the `p` sample exists and either the result posterior has `p` or a sample; it uses the cross-entropy branch exactly when `q_result.p` exists, with the right operands |
| Catalog.MultinomialExpectedLogpAsWritten | elbow/elementary.py:219-224 | `MultinomialMatrix._expected_logp` as written: the cross-entropy itself |
| Catalog.MultinomialExpectedLogp | elbow/elementary.py:219-224 | the same term with the sign of the Bernoulli term: minus the cross-entropy |
| Catalog.MultinomialSignAsWritten | elbow/elementary.py:219-224 | as written, the Multinomial expected log density is the positive cross-entropy, the negation of the intended value |
| Catalog.MultinomialExpectedLogpNonPositive | elbow/elementary.py:219-224 | with the sign restored, it succeeds exactly when `p` has a sample and the result posterior has `p`, and it is never positive |
| Neural.AllButLast | elbow/models/neural.py:110-111 | `shape[:-1]` has one dimension fewer (none for `()`) and the shape is it plus its last dimension |
| Neural.GaussianEncoderInputs | elbow/models/neural.py:53-54 | `NeuralGaussianTransform.inputs()`: `X` without an initializer, the weights by `init_weights`, the biases by `init_zero_vector` |
| Neural.GaussianEncoderInputShape | elbow/models/neural.py:56-68 | `NeuralGaussianTransform._input_shape`: the assertion, the lookup of `X`'s last dimension, then one shape per weight and bias |
| Neural.GaussianEncoderShape | elbow/models/neural.py:70-73 | the encoder's shape is 2, then the data shape without its last dimension, then `d_z` |
| Neural.GaussianEncoderInputShapes | elbow/models/neural.py:56-68 | given a data shape ending in `d_x`: w3 is (d_x, d_hidden), w4/w5 are (d_hidden, d_z), b3 is (d_hidden,), b4/b5 are (d_z,), `X` has no rule, unknown names fail the assertion |
| Neural.GaussianEncoderNeedsDataShape | elbow/models/neural.py:56-58 | without a shape for `X` every declared parameter raises KeyError on `X` |
| Neural.AugmentedShape | elbow/models/neural.py:32-34 | a requested shape is passed on with 2 prepended, and no request as none |
| Neural.AugmentedRequestConsistent | elbow/models/neural.py:32-34 | the encoder's shape equals the augmented request exactly when the request is the data shape without its last dimension, then `d_z` |
| Neural.NeuralGaussianShape | elbow/models/neural.py:32-38 | the Gaussian `neural_gaussian` returns has the data shape without its last dimension, then `d_z`, and is the encoder's shape without its leading 2 |
| Neural.BernoulliEncoderInputs | elbow/models/neural.py:94-95 | `NeuralBernoulliTransform.inputs()`: `z` without an initializer, the weights by `init_weights`, the biases by `init_zero_vector` |
| Neural.BernoulliEncoderInputShape | elbow/models/neural.py:97-108 | `NeuralBernoulliTransform._input_shape`: the assertion, then one shape per weight and bias |
| Neural.BernoulliEncoderLatentWidth | elbow/models/neural.py:85-91 | `d_z` is the last dimension of `z`'s shape; an empty shape raises IndexError |
| Neural.BernoulliEncoderShape | elbow/models/neural.py:110-111 | the encoder keeps `z`'s shape but for the last dimension, which becomes `d_x` |
| Neural.BernoulliEncoderInputShapes | elbow/models/neural.py:97-108 | w1 is (d_z, d_hidden), w2 is (d_hidden, d_x), b1 is (d_hidden,), b2 is (d_x,), `z` has no rule, unknown names fail the assertion |
| Neural.BernoulliEncoderReplacesLast | elbow/models/neural.py:85-111 | the encoder's shape has `z`'s rank and leading dimensions; w1 starts at `z`'s last dimension and w2 ends at the output's |
| Neural.InitializerTables | elbow/models/neural.py:53-95 | only the data input has no initializer, and only biases are zero-vector initialized, in both encoders |
| Neural.BiasShapesAreVectors | elbow/models/neural.py:25-28 | every parameter initialized by `init_zero_vector` gets a rank-1 shape, so its assertion holds |
| TransformNodes.PassThrough | elbow/transforms.py:52-62 | the `transformed` dictionary the loop of `UnaryTransform.__init__` builds, item by item |
| TransformNodes.PassThroughPrefixFails | elbow/transforms.py:54-62 | a failure part-way through the parameter loop is the loop's failure |
| TransformNodes.PassThroughLoop | elbow/transforms.py:52-62 | the loop over `A.input_shapes.items()` builds the dictionary of passed-through parameters |
| TransformNodes.ToMapLast | elbow/transforms.py:55 | removing the last of distinct items removes exactly that name from the dictionary |
| TransformNodes.PassThroughSucceeds | elbow/transforms.py:54-62 | the pass-through loop succeeds exactly when every parameter exists on the parent and, if it has the parent's shape, the transform accepts it |
| TransformNodes.PassStepContents | elbow/transforms.py:55-62 | one successful iteration reads the parameter from the parent, adds it exactly when its shape is the parent's or scalar, with the transformed or copied value, and changes no other entry |
| TransformNodes.PassThroughContents | elbow/transforms.py:54-62 | a successful loop holds exactly the parameters of the parent's shape (transformed) and the scalar ones (copied) |
| TransformNodes.PassThroughOrderIndependent | elbow/transforms.py:55-62 | the result does not depend on the iteration order of `input_shapes` |
| TransformNodes.StructuralAttrs | elbow/transforms.py:52-71 | the attributes a structural `UnaryTransform` sets: the passed parameters, then what the parent derives from them, nothing if that raises |
| TransformNodes.MakeUnary | elbow/transforms.py:47-82 | `UnaryTransform(A, transform)`: shape `output_shape(A.shape)`, attributes passed through only for a structural transform |
| TransformNodes.UnaryShape | elbow/transforms.py:81-82 | the wrapper's shape is the transform's output shape of the parent's, its failure the wrapper's failure; a non-structural transform passes no parameters |
| TransformNodes.StructuralTransformOfGaussian | elbow/transforms.py:64-71 | a structural transform of a Gaussian carries the transformed mean and std and the variance derived from the transformed std, so it is Gaussian by duck typing |
| TransformNodes.NodeIsGaussian | elbow/transforms.py:95-96 | a non-structural `UnaryTransform` is never Gaussian, and a Gaussian one has a Gaussian parent |
| TransformNodes.ObservedRoot | elbow/transforms.py:87-89 | observing walks up to the nearest ancestor that is not a `UnaryTransform` |
| TransformNodes.Observe | elbow/transforms.py:25-26 | a successful observation lands on that ancestor; one that reaches a neural encoder raises |
| TransformNodes.ObserveThroughUnary | elbow/transforms.py:87-89 | observing the transformed value of `x` is observing `x` on the parent, where the inverse undoes the transform |
| TransformNodes.AttachQ | elbow/transforms.py:22-23 | attaching a posterior fails exactly on deterministic transforms |
| TransformNodes.ShapesFromClass | elbow/transforms.py:118-124 | building the source from a class with `input_shape(shape)`, then taking `output_shape` of that |
| TransformNodes.ShapeFromClassRoundTrip | elbow/transforms.py:118-124 | a distribution built from a class with a requested shape gets that shape, for transforms not built on `UnitColumn` |
| TransformNodes.UnitColumnFromClassGrows | elbow/transforms.py:118-124 | with `UnitColumn` the node comes out one column wider than requested |
| TransformNodes.Transfer | elbow/transforms.py:132-141 | the attributes after the `setattr`/`delattr` loop of `TransformedDistribution.__init__`, item by item |
| TransformNodes.TransferPrefixFails | elbow/transforms.py:132-141 | a failure part-way through the `setattr`/`delattr` loop is the loop's failure |
| TransformNodes.TransferLoop | elbow/transforms.py:132-141 | the loop over `dist.input_shapes.items()` sets or deletes each attribute |
| TransformNodes.TransferContents | elbow/transforms.py:132-141 | after the loop each parameter of the source's shape under a structural transform holds its transformed value, each other one is deleted, and nothing else changes |
| TransformNodes.MakeTransformed | elbow/transforms.py:109-141 | the node's shape is the transform's output shape of the source's and its attributes are those the loop leaves; it succeeds when both steps do |
| TransformNodes.TransformedLogp | elbow/transforms.py:168-170 | `_logp`: the source density at the inverse image plus the inverse's log Jacobian |
| TransformNodes.TransformedSampleAndEntropy | elbow/transforms.py:149-153 | `_sample_and_entropy`: the transformed sample, the source entropy plus the forward log Jacobian, and that log Jacobian |
| TransformNodes.ChangeOfVariables | elbow/transforms.py:168-170 | where the inverse undoes the forward map, the transformed density of `T(x)` is the source density at `x` minus the forward log Jacobian |
| TransformNodes.SampledTermInvariant | elbow/transforms.py:149-173 | the single-sample term logp + entropy of a transformed distribution equals the source's |
| TransformNodes.LogitDensityRaises | elbow/transforms.py:168-170 | the density of any distribution pushed through `Logit` raises NameError on `clip_finite` |
| Posteriors.BuiltShape | elbow/transforms.py:81-159 | the node built from an existing posterior has that node's shape, and a `UnaryTransform` or `TransformedDistribution` over a shape-preserving transform has the shape of the node it wraps, failure included |
| Posteriors.WrappedShape | elbow/transforms.py:81-82 | the shape a wrapper takes from the node it wraps, which is that node's shape for a shape-preserving transform |
| Posteriors.UnaryBuiltShape | elbow/transforms.py:81-82 | the shape of a described `UnaryTransform` over an existing node is `output_shape` of its shape, the shape `UnaryTransform(A, transform)` gets; it fails only where that constructor fails |
| Posteriors.TransformedBuiltShape | elbow/transforms.py:158-159 | the shape of a described `TransformedDistribution` over an existing source is `output_shape` of its shape, the shape the constructor gives; it fails only where the constructor fails |
| Posteriors.DefaultQ | elbow/transforms.py:28-35 | every default posterior is a new node named `q_<name>` |
| Posteriors.QDistribution | elbow/transforms.py:91-93 | `q_distribution()`: the attached posterior, else `default_q()` |
| Posteriors.QArg | elbow/transforms.py:32-34 | the posterior passed for each input: the input node's `q_distribution()` for a random input, the fixed tensor otherwise |
| Posteriors.FamilyDefaultQShape | elbow/elementary.py:129-141 | the default posterior of every catalog class has the node's shape |
| Posteriors.DefaultQShape | elbow/transforms.py:91-93 | the default posterior of a well-formed node, when it exists, has the node's shape |
| Posteriors.QDistributionShape | elbow/transforms.py:91-93 | the posterior of a well-formed node, attached or default, has the node's shape |
| Posteriors.QArgShape | elbow/transforms.py:32 | the posterior passed for an input has that input's shape |
| Posteriors.DefaultQExists | elbow/transforms.py:175-177 | a node has a default posterior exactly when every class rule it depends on gives one |
| Posteriors.QDistributionExists | elbow/transforms.py:91-93 | a node has a posterior exactly when one is attached or it has a default one |
| Posteriors.TransformedIgnoresAttachedSourceQ | elbow/transforms.py:175-177 | the default posterior of a `TransformedDistribution` does not depend on a posterior attached to its source |

## Left out

- Tensor arithmetic (TensorFlow ops, sampling, random draws, `layer`, the initializer bodies, the density formulas in `dists.py`) is not modelled. The per-class forward and inverse maps and log Jacobians, tensor rank, the max-shift, addition and squaring are parameters (`Kernel`), and the cross-entropy and log-area functions are function parameters.
- `elbow/util` is not part of this model. `broadcast_shape` is taken to follow the NumPy broadcasting rule; `shapes_equal` and `shape_is_scalar` are taken as equality and rank 0.
- The base class `ConditionalDistribution` is not part of this model. `q_distribution` is modelled as "the attached posterior, else `default_q()`". `derived_parameters` of classes that do not override it derives nothing. A class without `default_q` gets no default posterior.
  - Catalog.ComputeShape and Catalog.FamilyInputShape require a class that defines `_compute_shape` / `_input_shape`; the base class's rules for the others are not modelled.
- The wrappers' own `input_shapes` and `inputs_random`, `_setup_inputs`, `inputs`, `_compute_dtype` and `_sample` are not modelled beyond what the shape and attribute rules need. `DeterministicTransform._logp` and `_entropy` return the constant 0 and are not modelled.
- Posteriors for the neural encoders' weight and bias inputs are not modelled. `default_q` of an encoder is rebuilt over the posterior of its data/latent input only, with the same widths.
- `unpackRV` and the `Sandbox` script are not modelled. `neural_bernoulli` only forwards its arguments to the encoder and `BernoulliMatrix`.
- The log Jacobian of an empty chain (`tf.stack` of an empty list) is modelled as 0.
- `Chain.inverse` combines its log Jacobians with `tf.pack`, which exists only in TensorFlow before 1.0; it is modelled like `tf.stack` in `Chain.transform`.
- `UnitColumn.transform` and the tensor forms of `RowNormalize` are reached only through the `Kernel`; `UnitColumn`'s shape maps and its missing `input_shape` are modelled.
- Floating-point rounding, clipping of Jacobians to finite values, and overflow are not modelled.
- Posteriors.BuiltShape: states only the shape of the node a constructor call would build, not the node's attributes, since those are set by the base class.

## Findings

| source | as written | input that shows it | evidently intended | confidence | as-written member | corrected member |
|---|---|---|---|---|---|---|
| elbow/elementary.py:219-224 | `MultinomialMatrix._expected_logp` returns the sum of `multinomial_entropy(q, cross_q=p)`, the cross-entropy `-sum(q log p)`, with no minus sign | q = p = [0.5, 0.5] for a single row: the cross-entropy is log 2 > 0, so the returned "expected log-probability" of a discrete outcome is positive | minus the cross-entropy, as `BernoulliMatrix._expected_logp` (elbow/elementary.py:161-175) returns, which is never positive | not executed | Catalog.MultinomialSignAsWritten | Catalog.MultinomialExpectedLogpNonPositive |

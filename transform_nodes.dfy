/** The two node wrappers of `elbow/transforms.py`: `UnaryTransform`, a
    deterministic transform of a node already in the model, and
    `TransformedDistribution`, a new random variable whose density is that of
    a source distribution pushed through a transform. */
module TransformNodes {
  import opened Common
  import opened Transforms
  import opened TransformLaws
  import opened Nodes
  import opened Catalog

  // ---------------------------------------------------------------------
  // Dictionary items

  /** The dictionary whose `items()` are listed, later entries winning. */
  function ToMap(items: seq<(string, Shape)>): map<string, Shape>
  {
    if items == [] then map[]
    else ToMap(items[..|items| - 1])[items[|items| - 1].0 := items[|items| - 1].1]
  }

  /** Each name listed once, as the `items()` of a dictionary are. */
  predicate Distinct(items: seq<(string, Shape)>)
  {
    items == [] ||
    (Distinct(items[..|items| - 1]) && items[|items| - 1].0 !in ToMap(items[..|items| - 1]))
  }

  /** `items` is `m.items()` in some iteration order. */
  predicate ItemsOf(items: seq<(string, Shape)>, m: map<string, Shape>)
  {
    Distinct(items) && ToMap(items) == m
  }

  // ---------------------------------------------------------------------
  // UnaryTransform: passing parameters through a structural transform

  /** A parameter whose shape is the parent's shape is transformed; a scalar
      parameter is copied; any other parameter is dropped. */
  predicate Kept(a: Node, shape: Shape)
  {
    shape == a.shape || IsScalar(shape)
  }

  /** The parameter can be read from the parent and, when it is to be
      transformed, the transform accepts it. */
  predicate Passable(k: Kernel, a: Node, t: Transform, name: string, shape: Shape)
  {
    name in a.attrs && (shape == a.shape ==> Forward(k, t, a.attrs[name], false).Ok?)
  }

  /** Every listed parameter is passable. */
  predicate AllPassable(k: Kernel, a: Node, t: Transform, m: map<string, Shape>)
  {
    forall x :: x in m ==> Passable(k, a, t, x, m[x])
  }

  /** The value the wrapper receives for a kept, passable parameter. */
  function PassedValue(k: Kernel, a: Node, t: Transform, name: string, shape: Shape): Tensor
    requires Passable(k, a, t, name, shape)
  {
    if shape == a.shape then Forward(k, t, a.attrs[name], false).value.value else a.attrs[name]
  }

  /** One iteration of the loop in `UnaryTransform.__init__`: read the
      parameter from the parent (before looking at its shape), then transform,
      copy or drop it. */
  function PassStep(k: Kernel, a: Node, t: Transform, name: string, shape: Shape, acc: map<string, Tensor>): Outcome<map<string, Tensor>>
  {
    var inp :- Attr(a, name);
    if shape == a.shape then
      var v :- Forward(k, t, inp, false);
      Ok(acc[name := v.value])
    else if IsScalar(shape) then Ok(acc[name := inp])
    else Ok(acc)
  }

  /** The `transformed` dictionary after the loop over `items`. */
  function PassThrough(k: Kernel, a: Node, t: Transform, items: seq<(string, Shape)>): Outcome<map<string, Tensor>>
  {
    if items == [] then Ok(map[])
    else
      var acc :- PassThrough(k, a, t, items[..|items| - 1]);
      PassStep(k, a, t, items[|items| - 1].0, items[|items| - 1].1, acc)
  }

  lemma {:induction false} PassThroughPrefixFails(k: Kernel, a: Node, t: Transform, items: seq<(string, Shape)>, j: nat, e: Error)
    requires j <= |items|
    requires PassThrough(k, a, t, items[..j]) == Fail(e)
    ensures PassThrough(k, a, t, items) == Fail(e)
    decreases |items| - j
  {
    if j < |items| {
      assert items[..j + 1][..j] == items[..j];
      PassThroughPrefixFails(k, a, t, items, j + 1, e);
    } else {
      assert items[..j] == items;
    }
  }

  /** The loop of `UnaryTransform.__init__` over `A.input_shapes.items()`,
      building the dictionary of passed-through parameters. */
  method PassThroughLoop(k: Kernel, a: Node, t: Transform, items: seq<(string, Shape)>) returns (r: Outcome<map<string, Tensor>>)
    ensures r == PassThrough(k, a, t, items)
  {
    var transformed: map<string, Tensor> := map[];
    var i := 0;
    while i < |items|
      invariant 0 <= i <= |items|
      invariant PassThrough(k, a, t, items[..i]) == Ok(transformed)
    {
      assert items[..i + 1][..i] == items[..i];
      var (name, shape) := items[i];
      if name !in a.attrs {
        PassThroughPrefixFails(k, a, t, items, i + 1, AttributeError(name));
        return Fail(AttributeError(name));
      }
      var inp := a.attrs[name];
      if shape == a.shape {
        var v := Forward(k, t, inp, false);
        if v.Fail? {
          PassThroughPrefixFails(k, a, t, items, i + 1, v.error);
          return Fail(v.error);
        }
        transformed := transformed[name := v.value.value];
      } else if IsScalar(shape) {
        transformed := transformed[name := inp];
      }
      i := i + 1;
    }
    assert items[..i] == items;
    return Ok(transformed);
  }

  /** Removing the last listed name leaves the rest of the dictionary as it was. */
  lemma ToMapLast(items: seq<(string, Shape)>)
    requires items != [] && Distinct(items)
    ensures var front, last := items[..|items| - 1], items[|items| - 1];
            var m0, m := ToMap(front), ToMap(items);
            last.0 !in m0 && last.0 in m && m[last.0] == last.1 &&
            (forall x :: x in m0 ==> x in m && m[x] == m0[x]) &&
            (forall x :: x in m ==> x == last.0 || x in m0)
  {
  }

  /** The loop succeeds exactly when every listed parameter is passable. */
  lemma {:induction false} PassThroughSucceeds(k: Kernel, a: Node, t: Transform, items: seq<(string, Shape)>)
    requires Distinct(items)
    ensures PassThrough(k, a, t, items).Ok? <==> AllPassable(k, a, t, ToMap(items))
    decreases |items|
  {
    if items != [] {
      var front := items[..|items| - 1];
      var name, shape := items[|items| - 1].0, items[|items| - 1].1;
      PassThroughSucceeds(k, a, t, front);
      ToMapLast(items);
      var m0, m := ToMap(front), ToMap(items);
      if PassThrough(k, a, t, front).Fail? {
        var x :| x in m0 && !Passable(k, a, t, x, m0[x]);
        assert !Passable(k, a, t, x, m[x]);
      } else {
        var acc := PassThrough(k, a, t, front).value;
        assert PassThrough(k, a, t, items) == PassStep(k, a, t, name, shape, acc);
        if Passable(k, a, t, name, shape) {
          assert forall x :: x in m ==> Passable(k, a, t, x, m[x]);
        }
      }
    }
  }

  /** A successful step adds the parameter when it is kept, with the value
      passed for it, and leaves every other entry as it was. */
  lemma PassStepContents(k: Kernel, a: Node, t: Transform, name: string, shape: Shape, acc: map<string, Tensor>)
    requires PassStep(k, a, t, name, shape, acc).Ok?
    ensures var r := PassStep(k, a, t, name, shape, acc).value;
            Passable(k, a, t, name, shape) &&
            (forall x :: x in r <==> x in acc || (x == name && Kept(a, shape))) &&
            (forall x :: x in r && x != name ==> r[x] == acc[x]) &&
            (Kept(a, shape) ==> r[name] == PassedValue(k, a, t, name, shape))
  {
  }

  /** What a successful loop holds: exactly the kept parameters, each
      transformed (same shape as the parent) or copied (scalar). */
  lemma {:induction false} PassThroughContents(k: Kernel, a: Node, t: Transform, items: seq<(string, Shape)>)
    requires Distinct(items)
    ensures var m := ToMap(items);
            var r := PassThrough(k, a, t, items);
            r.Ok? ==> forall x :: x in r.value <==> x in m && Kept(a, m[x])
    ensures var m := ToMap(items);
            var r := PassThrough(k, a, t, items);
            r.Ok? ==> forall x :: x in r.value ==> Passable(k, a, t, x, m[x]) && r.value[x] == PassedValue(k, a, t, x, m[x])
    decreases |items|
  {
    if items != [] && PassThrough(k, a, t, items).Ok? {
      var front := items[..|items| - 1];
      var name, shape := items[|items| - 1].0, items[|items| - 1].1;
      PassThroughContents(k, a, t, front);
      ToMapLast(items);
      var acc := PassThrough(k, a, t, front).value;
      assert PassThrough(k, a, t, items) == PassStep(k, a, t, name, shape, acc);
      PassStepContents(k, a, t, name, shape, acc);
    }
  }

  /** The result does not depend on the iteration order of `input_shapes`. */
  lemma PassThroughOrderIndependent(k: Kernel, a: Node, t: Transform, items1: seq<(string, Shape)>, items2: seq<(string, Shape)>)
    requires ItemsOf(items1, a.inputShapes) && ItemsOf(items2, a.inputShapes)
    ensures PassThrough(k, a, t, items1).Ok? <==> PassThrough(k, a, t, items2).Ok?
    ensures PassThrough(k, a, t, items1).Ok? ==> PassThrough(k, a, t, items1) == PassThrough(k, a, t, items2)
  {
    PassThroughSucceeds(k, a, t, items1);
    PassThroughSucceeds(k, a, t, items2);
    PassThroughContents(k, a, t, items1);
    PassThroughContents(k, a, t, items2);
    if PassThrough(k, a, t, items1).Ok? {
      var r1, r2 := PassThrough(k, a, t, items1).value, PassThrough(k, a, t, items2).value;
      assert r1.Keys == r2.Keys;
      assert forall x :: x in r1 ==> r1[x] == r2[x];
      assert r1 == r2;
    }
  }

  /** The family whose `derived_parameters` a node uses. */
  function FamilyOf(a: Node): Option<Family>
  {
    if a.kind.Elementary? then Some(a.kind.family) else None
  }

  /** The attributes a structural `UnaryTransform` sets on itself: the passed
      parameters, then whatever the parent derives from them (an exception
      there is caught and gives nothing). */
  function StructuralAttrs(k: Kernel, a: Node, t: Transform, items: seq<(string, Shape)>): Outcome<map<string, Tensor>>
  {
    var transformed :- PassThrough(k, a, t, items);
    var derived := match DerivedParameters(k.square, FamilyOf(a), transformed)
                   case Ok(d) => d
                   case Fail(_) => map[];
    Ok(transformed + derived)
  }

  /** `UnaryTransform(A, transform, name=name)`: its shape is the transform's
      output shape of the parent's; only a structural transform passes
      parameters through. The wrapper's own input shapes are left empty. */
  function MakeUnary(k: Kernel, a: Node, t: Transform, name: string, items: seq<(string, Shape)>): Outcome<Node>
  {
    var shape :- OutputShape(t, a.shape);
    var attrs :- if IsStructural(t) then StructuralAttrs(k, a, t, items) else Ok(map[]);
    Ok(Node(name, UnaryTransform(a, t), shape, map[], map[], attrs, None, None))
  }

  lemma UnaryShape(k: Kernel, a: Node, t: Transform, name: string, items: seq<(string, Shape)>)
    ensures OutputShape(t, a.shape).Fail? ==> MakeUnary(k, a, t, name, items) == Fail(OutputShape(t, a.shape).error)
    ensures MakeUnary(k, a, t, name, items).Ok? ==>
            var n := MakeUnary(k, a, t, name, items).value;
            n.shape == OutputShape(t, a.shape).value && n.kind == UnaryTransform(a, t) && n.name == name
    ensures !IsStructural(t) ==>
            (MakeUnary(k, a, t, name, items).Ok? <==> OutputShape(t, a.shape).Ok?) &&
            (MakeUnary(k, a, t, name, items).Ok? ==> MakeUnary(k, a, t, name, items).value.attrs == map[])
  {
  }

  /** A structural transform of a Gaussian whose `mean` and `std` have its
      shape is again a Gaussian by duck typing: it carries the transformed
      mean and std and the variance derived from the transformed std. */
  lemma StructuralTransformOfGaussian(k: Kernel, a: Node, t: Transform, name: string, items: seq<(string, Shape)>)
    requires a.kind == Elementary(Gaussian) && IsStructural(t)
    requires ItemsOf(items, map["mean" := a.shape, "std" := a.shape])
    requires "mean" in a.attrs && "std" in a.attrs
    requires Forward(k, t, a.attrs["mean"], false).Ok? && Forward(k, t, a.attrs["std"], false).Ok?
    requires OutputShape(t, a.shape).Ok?
    ensures MakeUnary(k, a, t, name, items).Ok?
    ensures var n := MakeUnary(k, a, t, name, items).value;
            IsGaussian(Some(n)) && "std" in n.attrs &&
            n.attrs["mean"] == Forward(k, t, a.attrs["mean"], false).value.value &&
            n.attrs["std"] == Forward(k, t, a.attrs["std"], false).value.value &&
            n.attrs["variance"] == k.square(n.attrs["std"])
  {
    PassThroughSucceeds(k, a, t, items);
    PassThroughContents(k, a, t, items);
    var m := ToMap(items);
    assert "mean" in m && "std" in m;
    assert forall x :: x in m ==> Passable(k, a, t, x, m[x]);
    var transformed := PassThrough(k, a, t, items).value;
    assert "mean" in transformed && "std" in transformed;
  }

  /** `UnaryTransform.is_gaussian`: structural and over a Gaussian parent;
      the base class's `is_gaussian` decides for other nodes. */
  function NodeIsGaussian(n: Node, baseIsGaussian: Node -> bool): (r: bool)
    ensures n.kind.UnaryTransform? && !IsStructural(n.kind.transform) ==> !r
    ensures n.kind.UnaryTransform? && r ==> NodeIsGaussian(n.kind.parent, baseIsGaussian)
    decreases n
  {
    match n.kind
    case UnaryTransform(parent, t) => IsStructural(t) && NodeIsGaussian(parent, baseIsGaussian)
    case _ => baseIsGaussian(n)
  }

  // ---------------------------------------------------------------------
  // Observations and attached posteriors

  /** The call that reaches the base class: observing a node, or attaching a posterior to it. */
  datatype Effect = BaseObserve(node: string, value: Tensor) | BaseAttachQ(node: string, q: string)

  /** The nearest ancestor through `UnaryTransform` parents that is not one. */
  function ObservedRoot(n: Node): (r: Node)
    ensures !r.kind.UnaryTransform?
    decreases n
  {
    if n.kind.UnaryTransform? then ObservedRoot(n.kind.parent) else n
  }

  /** `observe(value)`: a `UnaryTransform` passes `transform.inverse(value)`
      to its parent; the neural encoders, as deterministic transforms, raise;
      any other node is observed by the base class. */
  function Observe(k: Kernel, n: Node, value: Tensor): (r: Outcome<Effect>)
    ensures r.Ok? ==> r.value.BaseObserve? && r.value.node == ObservedRoot(n).name
    ensures ObservedRoot(n).kind.NeuralGaussianTransform? || ObservedRoot(n).kind.NeuralBernoulliTransform? ==>
            r.Fail?
    decreases n
  {
    match n.kind
    case UnaryTransform(parent, t) =>
      var inv :- Backward(k, t, value, false);
      Observe(k, parent, inv.value)
    case NeuralGaussianTransform(_, _, _) => Fail(Unsupported)
    case NeuralBernoulliTransform(_, _, _) => Fail(Unsupported)
    case _ => Ok(BaseObserve(n.name, value))
  }

  /** Observing the transformed value of `x` observes `x` on the parent, when
      the transform's inverse undoes it at `x`. */
  lemma ObserveThroughUnary(k: Kernel, n: Node, x: Tensor)
    requires n.kind.UnaryTransform?
    requires Forward(k, n.kind.transform, x, false).Ok?
    requires InvertsAt(k, n.kind.transform, x, false)
    ensures Observe(k, n, Forward(k, n.kind.transform, x, false).value.value) == Observe(k, n.kind.parent, x)
  {
  }

  /** `attach_q`: a deterministic transform refuses an explicit posterior. */
  function AttachQ(n: Node, q: Node): (r: Outcome<Effect>)
    ensures r.Fail? <==> IsDeterministic(n.kind)
    ensures r.Fail? ==> r.error == Unsupported
    ensures r.Ok? ==> r.value == BaseAttachQ(n.name, q.name)
  {
    if IsDeterministic(n.kind) then Fail(Unsupported) else Ok(BaseAttachQ(n.name, q.name))
  }

  // ---------------------------------------------------------------------
  // TransformedDistribution

  /** `TransformedDistribution(SomeClass, transform, shape=s)`: the source is
      built with `transform.input_shape(s)` and the node takes the output shape
      of that. Returns the two shapes. */
  function ShapesFromClass(t: Transform, requested: Shape): Outcome<(Shape, Shape)>
  {
    var sourceShape :- InputShape(t, requested);
    var shape :- OutputShape(t, sourceShape);
    Ok((sourceShape, shape))
  }

  /** For a transform without `UnitColumn`, a successful construction gives the
      requested shape back. */
  lemma ShapeFromClassRoundTrip(t: Transform, requested: Shape)
    requires !MentionsUnitColumn(t)
    requires InputShape(t, requested).Ok?
    ensures ShapesFromClass(t, requested).Ok?
    ensures ShapesFromClass(t, requested).value.1 == requested
  {
    ShapeMapsInverse(t, InputShape(t, requested).value, requested);
  }

  /** With `UnitColumn`, whose input shape is the identity, the node comes out
      one column wider than requested. */
  lemma UnitColumnFromClassGrows(n: int, k: int)
    ensures ShapesFromClass(UnitColumn, [n, k]) == Ok(([n, k], [n, k + 1]))
    ensures ShapesFromClass(UnitColumn, [n, k]).value.1 != [n, k]
  {
    assert [n, k + 1][1] != [n, k][1];
  }

  /** One iteration of the loop in `TransformedDistribution.__init__`: for a
      structural transform and a parameter of the source's shape, set the
      transformed parameter; otherwise delete the attribute. */
  function TransferStep(k: Kernel, dist: Node, t: Transform, name: string, shape: Shape, attrs: map<string, Tensor>): Outcome<map<string, Tensor>>
  {
    if IsStructural(t) && shape == dist.shape then
      var inp :- Attr(dist, name);
      var v :- Forward(k, t, inp, false);
      Ok(attrs[name := v.value])
    else if name in attrs then Ok(attrs - {name})
    else Fail(AttributeError(name))
  }

  /** The node's attributes after the loop over `items`, from `initial`. */
  function Transfer(k: Kernel, dist: Node, t: Transform, items: seq<(string, Shape)>, initial: map<string, Tensor>): Outcome<map<string, Tensor>>
  {
    if items == [] then Ok(initial)
    else
      var attrs :- Transfer(k, dist, t, items[..|items| - 1], initial);
      TransferStep(k, dist, t, items[|items| - 1].0, items[|items| - 1].1, attrs)
  }

  lemma {:induction false} TransferPrefixFails(k: Kernel, dist: Node, t: Transform, items: seq<(string, Shape)>, initial: map<string, Tensor>, j: nat, e: Error)
    requires j <= |items|
    requires Transfer(k, dist, t, items[..j], initial) == Fail(e)
    ensures Transfer(k, dist, t, items, initial) == Fail(e)
    decreases |items| - j
  {
    if j < |items| {
      assert items[..j + 1][..j] == items[..j];
      TransferPrefixFails(k, dist, t, items, initial, j + 1, e);
    } else {
      assert items[..j] == items;
    }
  }

  /** The loop of `TransformedDistribution.__init__` over
      `dist.input_shapes.items()`, calling `setattr`/`delattr` on the node's
      attributes. */
  method TransferLoop(k: Kernel, dist: Node, t: Transform, items: seq<(string, Shape)>, initial: map<string, Tensor>)
    returns (r: Outcome<map<string, Tensor>>)
    ensures r == Transfer(k, dist, t, items, initial)
  {
    var attrs := initial;
    var i := 0;
    while i < |items|
      invariant 0 <= i <= |items|
      invariant Transfer(k, dist, t, items[..i], initial) == Ok(attrs)
    {
      assert items[..i + 1][..i] == items[..i];
      var (name, shape) := items[i];
      if IsStructural(t) && shape == dist.shape {
        if name !in dist.attrs {
          TransferPrefixFails(k, dist, t, items, initial, i + 1, AttributeError(name));
          return Fail(AttributeError(name));
        }
        var v := Forward(k, t, dist.attrs[name], false);
        if v.Fail? {
          TransferPrefixFails(k, dist, t, items, initial, i + 1, v.error);
          return Fail(v.error);
        }
        attrs := attrs[name := v.value.value];
      } else {
        if name !in attrs {
          TransferPrefixFails(k, dist, t, items, initial, i + 1, AttributeError(name));
          return Fail(AttributeError(name));
        }
        attrs := attrs - {name};
      }
      i := i + 1;
    }
    assert items[..i] == items;
    return Ok(attrs);
  }

  /** A parameter the node keeps: the transform is structural and the
      parameter has the source's shape. */
  predicate Transferred(dist: Node, t: Transform, shape: Shape)
  {
    IsStructural(t) && shape == dist.shape
  }

  /** What the loop leaves: every listed parameter is set to its transformed
      value when transferred and deleted otherwise; every other attribute is
      unchanged. */
  lemma {:induction false} TransferContents(k: Kernel, dist: Node, t: Transform, items: seq<(string, Shape)>, initial: map<string, Tensor>)
    requires Distinct(items)
    ensures var m := ToMap(items);
            var r := Transfer(k, dist, t, items, initial);
            r.Ok? ==> forall x :: x in m ==>
              (Transferred(dist, t, m[x]) ==>
                 (x in r.value && x in dist.attrs && Forward(k, t, dist.attrs[x], false).Ok? &&
                  r.value[x] == Forward(k, t, dist.attrs[x], false).value.value)) &&
              (!Transferred(dist, t, m[x]) ==> x !in r.value && x in initial)
    ensures var m := ToMap(items);
            var r := Transfer(k, dist, t, items, initial);
            r.Ok? ==> forall x :: x !in m ==> (x in r.value <==> x in initial) && (x in initial ==> r.value[x] == initial[x])
    decreases |items|
  {
    if items != [] {
      var front := items[..|items| - 1];
      TransferContents(k, dist, t, front, initial);
      ToMapLast(items);
    }
  }

  /** `TransformedDistribution(dist, transform, name=name)` from a source
      instance: the shape is the transform's output shape of the source's, and
      the attributes are those the loop leaves. */
  function MakeTransformed(k: Kernel, dist: Node, t: Transform, name: string, items: seq<(string, Shape)>, initial: map<string, Tensor>): (r: Outcome<Node>)
    ensures r.Ok? ==> OutputShape(t, dist.shape) == Ok(r.value.shape) && r.value.kind == TransformedDistribution(dist, t)
    ensures r.Ok? ==> Transfer(k, dist, t, items, initial) == Ok(r.value.attrs)
    ensures OutputShape(t, dist.shape).Ok? && Transfer(k, dist, t, items, initial).Ok? ==> r.Ok?
  {
    var shape :- OutputShape(t, dist.shape);
    var attrs :- Transfer(k, dist, t, items, initial);
    Ok(Node(name, TransformedDistribution(dist, t), shape, dist.inputShapes, dist.nonrandom, attrs, None, None))
  }

  // ---------------------------------------------------------------------
  // Densities of a transformed distribution

  /** `TransformedDistribution._logp(result)`: the source density at the
      inverse image plus the inverse's log Jacobian. */
  function TransformedLogp(k: Kernel, t: Transform, distLogp: Tensor -> real, result: Tensor): Outcome<real>
  {
    var inv :- Backward(k, t, result, true);
    Ok(distLogp(inv.value) + inv.logJac)
  }

  /** `_sample_and_entropy`: the transformed source sample, the source's
      entropy estimate plus the forward log Jacobian, and that log Jacobian
      (kept as `_sampled_log_jacobian`). */
  datatype SampleEntropy = SampleEntropy(sample: Tensor, entropy: real, logJac: real)

  function TransformedSampleAndEntropy(k: Kernel, t: Transform, distSample: Tensor, distEntropy: real): Outcome<SampleEntropy>
  {
    var f :- Forward(k, t, distSample, true);
    Ok(SampleEntropy(f.value, distEntropy + f.logJac, f.logJac))
  }

  /** Change of variables: where the inverse undoes the forward map, the
      density of the transformed sample is the source density minus the
      forward log Jacobian. */
  lemma ChangeOfVariables(k: Kernel, t: Transform, distLogp: Tensor -> real, x: Tensor)
    requires Forward(k, t, x, true).Ok? && InvertsAt(k, t, x, true)
    ensures var f := Forward(k, t, x, true).value;
            TransformedLogp(k, t, distLogp, f.value) == Ok(distLogp(x) - f.logJac)
  {
  }

  /** The single-sample ELBO term `logp + entropy` of a transformed
      distribution equals the source's: the log Jacobian the entropy gains is
      the one the density loses. */
  lemma SampledTermInvariant(k: Kernel, t: Transform, distLogp: Tensor -> real, x: Tensor, distEntropy: real)
    requires Forward(k, t, x, true).Ok? && InvertsAt(k, t, x, true)
    ensures TransformedSampleAndEntropy(k, t, x, distEntropy).Ok?
    ensures var se := TransformedSampleAndEntropy(k, t, x, distEntropy).value;
            TransformedLogp(k, t, distLogp, se.sample).Ok? &&
            TransformedLogp(k, t, distLogp, se.sample).value + se.entropy == distLogp(x) + distEntropy
  {
    ChangeOfVariables(k, t, distLogp, x);
  }

  /** Because `Logit.inverse` with a log Jacobian raises, the density of any
      distribution pushed through `Logit` (the Beta posterior) raises too. */
  lemma LogitDensityRaises(k: Kernel, distLogp: Tensor -> real, y: Tensor)
    ensures TransformedLogp(k, Logit, distLogp, y) == Fail(NameError("clip_finite"))
  {
  }
}

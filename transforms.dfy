/** The transform algebra of `elbow/transforms.py`: stateless bijectors with a
    forward map, an inverse map, a pair of shape maps and a "structural" flag,
    composed by inversion and chaining. */
module Transforms {
  import opened Common

  /** Every transform class of the library. `Inverted(t)` is the class that
      `invert_transform(t)` builds and `Chain(stages)` the class that
      `chain_transforms(*stages)` builds. */
  datatype Transform =
    | Exp | Log1Exp | Logit | Square | Reciprocal | Transpose
    | RowNormalize | UnitColumn | RowNormalize1
    | Simplex | SimplexCol
    | Inverted(source: Transform)
    | Chain(stages: seq<Transform>)

  // The transforms the library defines by composition.
  const Sqrt := Inverted(Square)
  const Log := Inverted(Exp)
  const ReciprocalSqrt := Chain([Reciprocal, Sqrt])
  const ReciprocalSquare := Chain([Reciprocal, Square])
  const ExpReciprocal := Chain([Exp, Reciprocal])
  const ColNormalize1 := Chain([Transpose, RowNormalize1, Transpose])
  const ColNormalize := Chain([Transpose, RowNormalize, Transpose])
  const Simplex1 := Chain([Exp, RowNormalize1])
  const Simplex1Col := Chain([Exp, ColNormalize1])
  const SimplexRaw := Chain([Exp, RowNormalize])
  const SimplexRawCol := Chain([Exp, ColNormalize])

  // ---------------------------------------------------------------------
  // Shape maps

  /** `output_shape`: the default is the identity; `Transpose` swaps the two
      dimensions of a matrix; `UnitColumn` and `RowNormalize1` grow the last
      dimension of a vector or matrix by one. Unpacking a tuple of the wrong
      length raises ValueError. */
  function OutputShape(t: Transform, s: Shape): Outcome<Shape>
    decreases t
  {
    match t
    case Transpose => TransposeShape(s)
    case UnitColumn => GrowLast(s)
    case RowNormalize1 => GrowLast(s)
    case Inverted(source) => InputShape(source, s)
    case Chain(stages) => StagesOutputShape(stages, s)
    case _ => Ok(s)
  }

  /** `input_shape`: the default is the identity; self-inverse transforms
      (`Transpose`, `Reciprocal`) reuse `output_shape`; `RowNormalize1` shrinks
      the last dimension by one. `UnitColumn` defines none and so inherits the
      identity. */
  function InputShape(t: Transform, s: Shape): Outcome<Shape>
    decreases t
  {
    match t
    case Transpose => TransposeShape(s)
    case RowNormalize1 => ShrinkLast(s)
    case Inverted(source) => OutputShape(source, s)
    case Chain(stages) => StagesInputShape(stages, s)
    case _ => Ok(s)
  }

  /** A chain's output shape: each stage's `output_shape`, first to last. */
  function StagesOutputShape(stages: seq<Transform>, s: Shape): Outcome<Shape>
    decreases stages
  {
    if stages == [] then Ok(s)
    else
      var m :- OutputShape(stages[0], s);
      StagesOutputShape(stages[1..], m)
  }

  /** A chain's input shape: each stage's `input_shape`, last to first. */
  function StagesInputShape(stages: seq<Transform>, s: Shape): Outcome<Shape>
    decreases stages
  {
    if stages == [] then Ok(s)
    else
      var m :- StagesInputShape(stages[1..], s);
      InputShape(stages[0], m)
  }

  /** `N, M = input_shape; return (M, N)`. */
  function TransposeShape(s: Shape): Outcome<Shape>
  {
    if |s| == 2 then Ok([s[1], s[0]]) else Fail(ValueError)
  }

  /** `n, k = shape; return (n, k+1)`, falling back to `k, = shape; return (k+1,)`. */
  function GrowLast(s: Shape): Outcome<Shape>
  {
    if |s| == 2 then Ok([s[0], s[1] + 1])
    else if |s| == 1 then Ok([s[0] + 1])
    else Fail(ValueError)
  }

  /** `n, k = shape; return (n, k-1)`, falling back to `k, = shape; return (k-1,)`. */
  function ShrinkLast(s: Shape): Outcome<Shape>
  {
    if |s| == 2 then Ok([s[0], s[1] - 1])
    else if |s| == 1 then Ok([s[0] - 1])
    else Fail(ValueError)
  }

  // ---------------------------------------------------------------------
  // The structural flag

  /** `is_structural`: only `Transpose` among the base classes; an inverted
      transform keeps its source's flag; a chain is structural when all of its
      stages are. */
  predicate IsStructural(t: Transform)
    decreases t
  {
    match t
    case Transpose => true
    case Inverted(source) => IsStructural(source)
    case Chain(stages) => AllStructural(stages)
    case _ => false
  }

  predicate AllStructural(stages: seq<Transform>)
    decreases stages
  {
    stages == [] || (IsStructural(stages[0]) && AllStructural(stages[1..]))
  }

  /** A transform whose two shape maps are the identity: built only from
      pointwise classes (and `Simplex`, `SimplexCol`, `RowNormalize`, which keep
      the shape) by inversion and chaining. */
  predicate ShapePreserving(t: Transform)
    decreases t
  {
    match t
    case Transpose => false
    case UnitColumn => false
    case RowNormalize1 => false
    case Inverted(source) => ShapePreserving(source)
    case Chain(stages) => AllShapePreserving(stages)
    case _ => true
  }

  predicate AllShapePreserving(stages: seq<Transform>)
    decreases stages
  {
    stages == [] || (ShapePreserving(stages[0]) && AllShapePreserving(stages[1..]))
  }

  /** Whether `UnitColumn` occurs anywhere in the transform. */
  predicate MentionsUnitColumn(t: Transform)
    decreases t
  {
    match t
    case UnitColumn => true
    case Inverted(source) => MentionsUnitColumn(source)
    case Chain(stages) => AnyMentionsUnitColumn(stages)
    case _ => false
  }

  predicate AnyMentionsUnitColumn(stages: seq<Transform>)
    decreases stages
  {
    stages != [] && (MentionsUnitColumn(stages[0]) || AnyMentionsUnitColumn(stages[1..]))
  }

  // ---------------------------------------------------------------------
  // Forward and inverse maps

  /** The numeric engine: what each base transform does to a tensor and the log
      Jacobian determinant it reports, plus the few tensor primitives the
      modelled code uses. Nothing about their values is assumed. */
  datatype Kernel = Kernel(
    forward: (Transform, Tensor) -> Tensor,
    forwardLogJac: (Transform, Tensor) -> real,
    inverse: (Transform, Tensor) -> Tensor,
    inverseLogJac: (Transform, Tensor) -> real,
    rank: Tensor -> nat,
    shiftByMax: (Tensor, nat) -> Tensor,    // x - max(x, axis), keeping dimensions
    add: (Tensor, Tensor) -> Tensor,
    square: Tensor -> Tensor)

  /** A transformed value together with its log Jacobian determinant. When the
      caller does not ask for the log Jacobian (`return_log_jac=False`) it
      ignores the second component. */
  datatype Applied = Applied(value: Tensor, logJac: real)

  /** `transform(x)` of one base class. `Transpose` and `UnitColumn` report a
      zero log Jacobian. `RowNormalize` accepts a matrix or a vector;
      `RowNormalize1` accepts a matrix, and on a vector its fallback branch
      names an undefined `x`. */
  function Primitive(k: Kernel, t: Transform, x: Tensor): Outcome<Applied>
  {
    match t
    case Transpose => Ok(Applied(k.forward(t, x), 0.0))
    case UnitColumn => Ok(Applied(k.forward(t, x), 0.0))
    case RowNormalize =>
      if k.rank(x) == 2 || k.rank(x) == 1 then Ok(Applied(k.forward(t, x), k.forwardLogJac(t, x)))
      else Fail(ValueError)
    case RowNormalize1 =>
      if k.rank(x) == 2 then Ok(Applied(k.forward(t, x), k.forwardLogJac(t, x)))
      else if k.rank(x) == 1 then Fail(NameError("x"))
      else Fail(ValueError)
    case _ => Ok(Applied(k.forward(t, x), k.forwardLogJac(t, x)))
  }

  /** `transform(x, return_log_jac)`. `Simplex` shifts its input by the row
      maximum and applies `Simplex_Raw` (`Exp` then `RowNormalize`);
      `SimplexCol` shifts by the column maximum and applies `Simplex_Raw_Col`
      (`Exp`, then `Transpose`, `RowNormalize`, `Transpose`). */
  function Forward(k: Kernel, t: Transform, x: Tensor, withLogJac: bool): Outcome<Applied>
    decreases t
  {
    match t
    case Simplex =>
      var e := Primitive(k, Exp, k.shiftByMax(x, 1)).value;
      var r :- Primitive(k, RowNormalize, e.value);
      Ok(Applied(r.value, e.logJac + r.logJac))
    case SimplexCol =>
      var e := Primitive(k, Exp, k.shiftByMax(x, 0)).value;
      var t1 := Primitive(k, Transpose, e.value).value;
      var r :- Primitive(k, RowNormalize, t1.value);
      var t2 := Primitive(k, Transpose, r.value).value;
      Ok(Applied(t2.value, e.logJac + t1.logJac + r.logJac + t2.logJac))
    case Inverted(source) => Backward(k, source, x, withLogJac)
    case Chain(stages) => StagesForward(k, stages, x, withLogJac)
    case _ => Primitive(k, t, x)
  }

  /** `inverse(y, return_log_jac)`. Self-inverse classes (`Reciprocal`,
      `Transpose`) run their forward map. `Logit` refers to an undefined
      `clip_finite` when the log Jacobian is asked for. `RowNormalize`,
      `UnitColumn`, `Simplex` and `SimplexCol` inherit the abstract inverse. */
  function Backward(k: Kernel, t: Transform, y: Tensor, withLogJac: bool): Outcome<Applied>
    decreases t
  {
    match t
    case Reciprocal => Primitive(k, t, y)
    case Transpose => Primitive(k, t, y)
    case Logit =>
      if withLogJac then Fail(NameError("clip_finite"))
      else Ok(Applied(k.inverse(t, y), k.inverseLogJac(t, y)))
    case RowNormalize => Fail(NotImplemented)
    case UnitColumn => Fail(NotImplemented)
    case Simplex => Fail(NotImplemented)
    case SimplexCol => Fail(NotImplemented)
    case Inverted(source) => Forward(k, source, y, withLogJac)
    case Chain(stages) => StagesBackward(k, stages, y, withLogJac)
    case _ => Ok(Applied(k.inverse(t, y), k.inverseLogJac(t, y)))
  }

  /** A chain's forward map: stages first to last, log Jacobians summed. */
  function StagesForward(k: Kernel, stages: seq<Transform>, x: Tensor, withLogJac: bool): Outcome<Applied>
    decreases stages
  {
    if stages == [] then Ok(Applied(x, 0.0))
    else
      var a :- Forward(k, stages[0], x, withLogJac);
      var b :- StagesForward(k, stages[1..], a.value, withLogJac);
      Ok(Applied(b.value, a.logJac + b.logJac))
  }

  /** A chain's inverse map: stage inverses last to first, log Jacobians summed. */
  function StagesBackward(k: Kernel, stages: seq<Transform>, y: Tensor, withLogJac: bool): Outcome<Applied>
    decreases stages
  {
    if stages == [] then Ok(Applied(y, 0.0))
    else
      var b :- StagesBackward(k, stages[1..], y, withLogJac);
      var a :- Backward(k, stages[0], b.value, withLogJac);
      Ok(Applied(a.value, b.logJac + a.logJac))
  }
}

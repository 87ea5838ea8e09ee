/** Laws of the transform algebra: how chaining and inversion compose the
    shape maps, the structural flag and the forward/inverse maps, and which
    round trips hold. */
module TransformLaws {
  import opened Common
  import opened Transforms

  // ---------------------------------------------------------------------
  // Shape maps

  /** Chaining two stage lists composes their output shape maps in order. */
  lemma {:induction false} OutputShapeAppend(a: seq<Transform>, b: seq<Transform>, s: Shape)
    ensures StagesOutputShape(a + b, s) ==
            match StagesOutputShape(a, s)
            case Ok(m) => StagesOutputShape(b, m)
            case Fail(e) => Fail(e)
    decreases a
  {
    if a != [] {
      assert (a + b)[0] == a[0] && (a + b)[1..] == a[1..] + b;
      match OutputShape(a[0], s)
      case Ok(m) => OutputShapeAppend(a[1..], b, m);
      case Fail(_) =>
    } else {
      assert a + b == b;
    }
  }

  /** Chaining two stage lists composes their input shape maps, the later list first. */
  lemma {:induction false} InputShapeAppend(a: seq<Transform>, b: seq<Transform>, s: Shape)
    ensures StagesInputShape(a + b, s) ==
            match StagesInputShape(b, s)
            case Ok(m) => StagesInputShape(a, m)
            case Fail(e) => Fail(e)
    decreases a
  {
    if a != [] {
      assert (a + b)[0] == a[0] && (a + b)[1..] == a[1..] + b;
      InputShapeAppend(a[1..], b, s);
    } else {
      assert a + b == b;
    }
  }

  /** `chain(T1, T2).output_shape = T2.output_shape(T1.output_shape(.))` and
      `chain(T1, T2).input_shape = T1.input_shape(T2.input_shape(.))`. */
  lemma ChainOfTwoShapes(t1: Transform, t2: Transform, s: Shape)
    ensures OutputShape(Chain([t1, t2]), s) ==
            match OutputShape(t1, s)
            case Ok(m) => OutputShape(t2, m)
            case Fail(e) => Fail(e)
    ensures InputShape(Chain([t1, t2]), s) ==
            match InputShape(t2, s)
            case Ok(m) => InputShape(t1, m)
            case Fail(e) => Fail(e)
  {
    assert [t1, t2] == [t1] + [t2];
    OutputShapeAppend([t1], [t2], s);
    InputShapeAppend([t1], [t2], s);
    SingleStageShapes(t1, s);
    SingleStageShapes(t2, s);
    match OutputShape(t1, s) {
      case Ok(m) => SingleStageShapes(t2, m);
      case Fail(_) =>
    }
    match InputShape(t2, s) {
      case Ok(m) => SingleStageShapes(t1, m);
      case Fail(_) =>
    }
  }

  /** A chain of one stage has that stage's shape maps. */
  lemma SingleStageShapes(t: Transform, s: Shape)
    ensures StagesOutputShape([t], s) == OutputShape(t, s)
    ensures StagesInputShape([t], s) == InputShape(t, s)
  {
    assert [t][1..] == [];
    match OutputShape(t, s) {
      case Ok(_) =>
      case Fail(_) =>
    }
    match InputShape(t, s) {
      case Ok(_) =>
      case Fail(_) =>
    }
  }

  /** `invert_transform` swaps the two shape maps and keeps the structural flag;
      inverting twice gives back the original transform's behaviour. */
  lemma InvertSwapsShapeMaps(k: Kernel, t: Transform, s: Shape, x: Tensor, withLogJac: bool)
    ensures OutputShape(Inverted(t), s) == InputShape(t, s)
    ensures InputShape(Inverted(t), s) == OutputShape(t, s)
    ensures IsStructural(Inverted(t)) == IsStructural(t)
    ensures Forward(k, Inverted(t), x, withLogJac) == Backward(k, t, x, withLogJac)
    ensures Backward(k, Inverted(t), x, withLogJac) == Forward(k, t, x, withLogJac)
    ensures OutputShape(Inverted(Inverted(t)), s) == OutputShape(t, s)
    ensures InputShape(Inverted(Inverted(t)), s) == InputShape(t, s)
    ensures Forward(k, Inverted(Inverted(t)), x, withLogJac) == Forward(k, t, x, withLogJac)
    ensures Backward(k, Inverted(Inverted(t)), x, withLogJac) == Backward(k, t, x, withLogJac)
  {
  }

  /** The two shape maps are mutually inverse, in both directions, for every
      transform that does not use `UnitColumn`. */
  lemma {:induction false} ShapeMapsInverse(t: Transform, s: Shape, o: Shape)
    requires !MentionsUnitColumn(t)
    ensures OutputShape(t, s) == Ok(o) <==> InputShape(t, o) == Ok(s)
    decreases t, 1
  {
    match t
    case Inverted(source) => ShapeMapsInverse(source, o, s);
    case Chain(stages) => StagesShapeMapsInverse(stages, s, o);
    case Transpose => TransposeShapeInverse(s, o);
    case RowNormalize1 => GrowShrinkInverse(s, o);
    case _ =>
  }

  lemma TransposeShapeInverse(s: Shape, o: Shape)
    ensures TransposeShape(s) == Ok(o) <==> TransposeShape(o) == Ok(s)
  {
    if |s| == 2 && |o| == 2 {
      assert [s[1], s[0]] == o <==> [o[1], o[0]] == s by {
        if [s[1], s[0]] == o { assert [o[1], o[0]] == s; }
        if [o[1], o[0]] == s { assert [s[1], s[0]] == o; }
      }
    }
  }

  lemma GrowShrinkInverse(s: Shape, o: Shape)
    ensures GrowLast(s) == Ok(o) <==> ShrinkLast(o) == Ok(s)
  {
    if GrowLast(s) == Ok(o) {
      if |s| == 2 { assert [o[0], o[1] - 1] == s; } else { assert [o[0] - 1] == s; }
    }
    if ShrinkLast(o) == Ok(s) {
      if |o| == 2 { assert [s[0], s[1] + 1] == o; } else { assert [s[0] + 1] == o; }
    }
  }

  lemma {:induction false} StagesShapeMapsInverse(stages: seq<Transform>, s: Shape, o: Shape)
    requires !AnyMentionsUnitColumn(stages)
    ensures StagesOutputShape(stages, s) == Ok(o) <==> StagesInputShape(stages, o) == Ok(s)
    decreases stages, 0
  {
    if stages != [] {
      var head, rest := stages[0], stages[1..];
      if StagesOutputShape(stages, s) == Ok(o) {
        var m := OutputShape(head, s).value;
        StagesShapeMapsInverse(rest, m, o);
        ShapeMapsInverse(head, s, m);
      }
      if StagesInputShape(stages, o) == Ok(s) {
        var m := StagesInputShape(rest, o).value;
        StagesShapeMapsInverse(rest, m, o);
        ShapeMapsInverse(head, s, m);
      }
    }
  }

  /** `UnitColumn` grows the last dimension but inherits the identity
      `input_shape`, so its input shape does not undo its output shape. */
  lemma UnitColumnBreaksShapeRoundTrip(n: int, k: int)
    ensures OutputShape(UnitColumn, [n, k]) == Ok([n, k + 1])
    ensures InputShape(UnitColumn, [n, k + 1]) == Ok([n, k + 1])
    ensures InputShape(UnitColumn, [n, k + 1]) != Ok([n, k])
  {
    assert [n, k + 1] != [n, k] by { assert [n, k + 1][1] != [n, k][1]; }
  }

  /** A transform built from pointwise classes keeps every shape in both directions. */
  lemma {:induction false} ShapePreservingKeepsShape(t: Transform, s: Shape)
    requires ShapePreserving(t)
    ensures OutputShape(t, s) == Ok(s) && InputShape(t, s) == Ok(s)
    decreases t, 1
  {
    match t
    case Inverted(source) => ShapePreservingKeepsShape(source, s);
    case Chain(stages) => StagesShapePreservingKeepsShape(stages, s);
    case _ =>
  }

  lemma {:induction false} StagesShapePreservingKeepsShape(stages: seq<Transform>, s: Shape)
    requires AllShapePreserving(stages)
    ensures StagesOutputShape(stages, s) == Ok(s) && StagesInputShape(stages, s) == Ok(s)
    decreases stages, 0
  {
    if stages != [] {
      ShapePreservingKeepsShape(stages[0], s);
      StagesShapePreservingKeepsShape(stages[1..], s);
    }
  }

  /** The derived pointwise transforms keep shapes and are not structural. */
  lemma DerivedPointwiseTransforms()
    ensures ShapePreserving(Sqrt) && !IsStructural(Sqrt)
    ensures ShapePreserving(Log) && !IsStructural(Log)
    ensures ShapePreserving(ReciprocalSqrt) && !IsStructural(ReciprocalSqrt)
    ensures ShapePreserving(ReciprocalSquare) && !IsStructural(ReciprocalSquare)
    ensures ShapePreserving(ExpReciprocal) && !IsStructural(ExpReciprocal)
    ensures ShapePreserving(SimplexRaw) && !IsStructural(SimplexRaw)
    ensures ShapePreserving(Simplex) && ShapePreserving(SimplexCol)
  {
    assert Sqrt == Inverted(Square) && ShapePreserving(Inverted(Square));
    assert Log == Inverted(Exp) && ShapePreserving(Inverted(Exp));
    assert [Reciprocal, Sqrt][1..] == [Sqrt];
    assert [Reciprocal, Square][1..] == [Square];
    assert [Exp, Reciprocal][1..] == [Reciprocal];
    assert [Exp, RowNormalize][1..] == [RowNormalize];
    assert [Sqrt][1..] == [] && [Square][1..] == [] && [Reciprocal][1..] == [] && [RowNormalize][1..] == [];
    assert ReciprocalSqrt == Chain([Reciprocal, Sqrt]);
    assert AllShapePreserving([Sqrt]) && AllShapePreserving([Reciprocal, Sqrt]);
    assert [Reciprocal, Sqrt][0] == Reciprocal && !AllStructural([Reciprocal, Sqrt]);
  }

  /** `ColNormalize1 = chain(Transpose, RowNormalize1, Transpose)` maps an
      (n, k) matrix to (n+1, k) and back. */
  lemma ColNormalize1Shapes(n: int, k: int)
    ensures OutputShape(ColNormalize1, [n, k]) == Ok([n + 1, k])
    ensures InputShape(ColNormalize1, [n + 1, k]) == Ok([n, k])
  {
    var cn := [Transpose, RowNormalize1, Transpose];
    assert ColNormalize1 == Chain(cn);
    assert cn[1..] == [RowNormalize1, Transpose] && cn[1..][1..] == [Transpose];
    assert StagesOutputShape(cn[1..][1..], [k, n + 1]) == Ok([n + 1, k]);
    assert StagesOutputShape(cn[1..], [k, n]) == Ok([n + 1, k]);
    assert StagesInputShape(cn[1..][1..], [n + 1, k]) == Ok([k, n + 1]);
    assert StagesInputShape(cn[1..], [n + 1, k]) == Ok([k, n]);
  }

  /** `ColNormalize1` maps (n, k) to (n+1, k) and back; `Simplex1` maps
      (n, k) to (n, k+1) and back; `Simplex1Col` maps (n, k) to (n+1, k). */
  lemma NormalizeOneShapes(n: int, k: int)
    ensures OutputShape(ColNormalize1, [n, k]) == Ok([n + 1, k])
    ensures InputShape(ColNormalize1, [n + 1, k]) == Ok([n, k])
    ensures OutputShape(Simplex1, [n, k]) == Ok([n, k + 1])
    ensures InputShape(Simplex1, [n, k + 1]) == Ok([n, k])
    ensures OutputShape(Simplex1Col, [n, k]) == Ok([n + 1, k])
  {
    ColNormalize1Shapes(n, k);
    assert Simplex1 == Chain([Exp, RowNormalize1]);
    ChainOfTwoShapes(Exp, RowNormalize1, [n, k]);
    ChainOfTwoShapes(Exp, RowNormalize1, [n, k + 1]);
    assert Simplex1Col == Chain([Exp, ColNormalize1]);
    ChainOfTwoShapes(Exp, ColNormalize1, [n, k]);
  }

  /** `Transpose` is self-inverse, structural, reports a zero log Jacobian, and
      transposing a matrix shape twice gives it back; `Reciprocal` is self-inverse. */
  lemma TransposeLaws(k: Kernel, x: Tensor, withLogJac: bool, s: Shape)
    ensures Backward(k, Transpose, x, withLogJac) == Forward(k, Transpose, x, withLogJac)
    ensures Forward(k, Transpose, x, withLogJac) == Ok(Applied(k.forward(Transpose, x), 0.0))
    ensures IsStructural(Transpose)
    ensures |s| == 2 <==> OutputShape(Transpose, s).Ok?
    ensures |s| == 2 ==> OutputShape(Transpose, s) == Ok([s[1], s[0]]) && InputShape(Transpose, s) == Ok([s[1], s[0]])
    ensures |s| == 2 ==> OutputShape(Transpose, OutputShape(Transpose, s).value) == Ok(s)
    ensures Backward(k, Reciprocal, x, withLogJac) == Forward(k, Reciprocal, x, withLogJac)
  {
    if |s| == 2 {
      assert [[s[1], s[0]][1], [s[1], s[0]][0]] == s;
    }
  }

  // ---------------------------------------------------------------------
  // The structural flag

  /** A chain is structural exactly when every stage is. */
  lemma {:induction false} ChainStructuralIffAll(stages: seq<Transform>)
    ensures IsStructural(Chain(stages)) <==> forall i :: 0 <= i < |stages| ==> IsStructural(stages[i])
  {
    if stages != [] {
      ChainStructuralIffAll(stages[1..]);
      assert forall i :: 1 <= i < |stages| ==> stages[i] == stages[1..][i - 1];
    }
  }

  // ---------------------------------------------------------------------
  // Forward and inverse maps

  /** Chaining two stage lists composes their forward maps and adds the log Jacobians. */
  lemma {:induction false} ForwardAppend(k: Kernel, a: seq<Transform>, b: seq<Transform>, x: Tensor, withLogJac: bool)
    ensures StagesForward(k, a + b, x, withLogJac) ==
            match StagesForward(k, a, x, withLogJac)
            case Fail(e) => Fail(e)
            case Ok(p) =>
              match StagesForward(k, b, p.value, withLogJac)
              case Fail(e) => Fail(e)
              case Ok(q) => Ok(Applied(q.value, p.logJac + q.logJac))
    decreases a
  {
    if a == [] {
      assert a + b == b;
      match StagesForward(k, b, x, withLogJac)
      case Ok(q) => assert 0.0 + q.logJac == q.logJac;
      case Fail(_) =>
    } else {
      assert (a + b)[0] == a[0] && (a + b)[1..] == a[1..] + b;
      match Forward(k, a[0], x, withLogJac)
      case Ok(h) => ForwardAppend(k, a[1..], b, h.value, withLogJac);
      case Fail(_) =>
    }
  }

  /** A one-stage chain runs that stage's forward map. */
  lemma SingleStageForward(k: Kernel, t: Transform, x: Tensor, withLogJac: bool)
    ensures StagesForward(k, [t], x, withLogJac) ==
            match Forward(k, t, x, withLogJac)
            case Fail(e) => Fail(e)
            case Ok(q) => Ok(Applied(q.value, q.logJac + 0.0))
  {
    assert [t][1..] == [];
  }

  /** A two-stage chain runs the first stage's forward map, then the second's. */
  lemma TwoStageForward(k: Kernel, t1: Transform, t2: Transform, x: Tensor, withLogJac: bool)
    ensures var p := Forward(k, t1, x, withLogJac);
            StagesForward(k, [t1, t2], x, withLogJac) ==
            if p.Fail? then Fail(p.error)
            else
              var q := Forward(k, t2, p.value.value, withLogJac);
              if q.Fail? then Fail(q.error)
              else Ok(Applied(q.value.value, p.value.logJac + (q.value.logJac + 0.0)))
  {
    assert [t1, t2][1..] == [t2];
    match Forward(k, t1, x, withLogJac) {
      case Ok(p) => SingleStageForward(k, t2, p.value, withLogJac);
      case Fail(_) =>
    }
  }

  /** The inverses of the stages in reverse order. */
  function ReversedInverses(stages: seq<Transform>): (r: seq<Transform>)
    ensures |r| == |stages|
  {
    if stages == [] then [] else ReversedInverses(stages[1..]) + [Inverted(stages[0])]
  }

  /** A chain's `inverse` is the chain of the stage inverses in reverse order. */
  lemma {:induction false} ChainInverseIsReversedInverses(k: Kernel, stages: seq<Transform>, y: Tensor, withLogJac: bool)
    ensures Backward(k, Chain(stages), y, withLogJac) ==
            Forward(k, Chain(ReversedInverses(stages)), y, withLogJac)
  {
    if stages != [] {
      var front := ReversedInverses(stages[1..]);
      var last := [Inverted(stages[0])];
      ChainInverseIsReversedInverses(k, stages[1..], y, withLogJac);
      ForwardAppend(k, front, last, y, withLogJac);
      match StagesBackward(k, stages[1..], y, withLogJac) {
        case Ok(b) =>
          SingleStageForward(k, Inverted(stages[0]), b.value, withLogJac);
        case Fail(_) =>
      }
    }
  }

  /** `Simplex` is `Simplex_Raw` applied to the input shifted by its row maximum. */
  lemma SimplexIsShiftedRaw(k: Kernel, x: Tensor, withLogJac: bool)
    ensures Forward(k, Simplex, x, withLogJac) == Forward(k, SimplexRaw, k.shiftByMax(x, 1), withLogJac)
  {
    assert SimplexRaw == Chain([Exp, RowNormalize]);
    TwoStageForward(k, Exp, RowNormalize, k.shiftByMax(x, 1), withLogJac);
  }

  /** `ColNormalize = chain(Transpose, RowNormalize, Transpose)`, applied step by step. */
  lemma ColNormalizeSteps(k: Kernel, x: Tensor, withLogJac: bool)
    ensures Forward(k, ColNormalize, x, withLogJac) ==
            var t1 := Primitive(k, Transpose, x).value;
            match Primitive(k, RowNormalize, t1.value)
            case Fail(err) => Fail(err)
            case Ok(r) =>
              var t2 := Primitive(k, Transpose, r.value).value;
              Ok(Applied(t2.value, t1.logJac + (r.logJac + (t2.logJac + 0.0))))
  {
    var cn := [Transpose, RowNormalize, Transpose];
    assert ColNormalize == Chain(cn);
    assert cn[1..] == [RowNormalize, Transpose] && cn[1..][1..] == [Transpose] && cn[1..][1..][1..] == [];
  }

  /** `SimplexCol` is `Simplex_Raw_Col` applied to the input shifted by its column maximum. */
  lemma SimplexColIsShiftedRaw(k: Kernel, x: Tensor, withLogJac: bool)
    ensures Forward(k, SimplexCol, x, withLogJac) == Forward(k, SimplexRawCol, k.shiftByMax(x, 0), withLogJac)
  {
    var z := k.shiftByMax(x, 0);
    assert SimplexRawCol == Chain([Exp, ColNormalize]);
    var e := Primitive(k, Exp, z).value;
    TwoStageForward(k, Exp, ColNormalize, z, withLogJac);
    ColNormalizeSteps(k, e.value, withLogJac);
    var t1 := Primitive(k, Transpose, e.value).value;
    match Primitive(k, RowNormalize, t1.value) {
      case Ok(r) =>
        var t2 := Primitive(k, Transpose, r.value).value;
        assert Forward(k, SimplexCol, x, withLogJac) == Ok(Applied(t2.value, e.logJac + t1.logJac + r.logJac + t2.logJac));
      case Fail(_) =>
    }
  }

  // ---------------------------------------------------------------------
  // Round trips

  /** `inverse(transform(x)) == x`, with the inverse reporting the negated log
      Jacobian, at one point. */
  predicate InvertsAt(k: Kernel, t: Transform, x: Tensor, withLogJac: bool)
  {
    Forward(k, t, x, withLogJac).Ok? ==>
      var f := Forward(k, t, x, withLogJac).value;
      Backward(k, t, f.value, withLogJac) == Ok(Applied(x, -f.logJac))
  }

  /** `transform(inverse(y)) == y`, with the forward map reporting the negated
      log Jacobian, at one point. */
  predicate RecoversAt(k: Kernel, t: Transform, y: Tensor, withLogJac: bool)
  {
    Backward(k, t, y, withLogJac).Ok? ==>
      var b := Backward(k, t, y, withLogJac).value;
      Forward(k, t, b.value, withLogJac) == Ok(Applied(y, -b.logJac))
  }

  /** A transform that round-trips in both directions at every point. */
  ghost predicate Bijective(k: Kernel, t: Transform, withLogJac: bool)
  {
    (forall x :: InvertsAt(k, t, x, withLogJac)) && (forall y :: RecoversAt(k, t, y, withLogJac))
  }

  /** Inverting a bijective transform gives a bijective transform. */
  lemma InvertedBijective(k: Kernel, t: Transform, withLogJac: bool)
    requires Bijective(k, t, withLogJac)
    ensures Bijective(k, Inverted(t), withLogJac)
  {
    forall x ensures InvertsAt(k, Inverted(t), x, withLogJac) {
      assert RecoversAt(k, t, x, withLogJac);
    }
    forall y ensures RecoversAt(k, Inverted(t), y, withLogJac) {
      assert InvertsAt(k, t, y, withLogJac);
    }
  }

  /** A chain of bijective stages is bijective: its inverse undoes its forward
      map and the log Jacobians cancel. */
  lemma ChainBijective(k: Kernel, stages: seq<Transform>, withLogJac: bool)
    requires forall i :: 0 <= i < |stages| ==> Bijective(k, stages[i], withLogJac)
    ensures Bijective(k, Chain(stages), withLogJac)
  {
    forall x ensures InvertsAt(k, Chain(stages), x, withLogJac) {
      StagesInvert(k, stages, x, withLogJac);
    }
    forall y ensures RecoversAt(k, Chain(stages), y, withLogJac) {
      StagesRecover(k, stages, y, withLogJac);
    }
  }

  lemma {:induction false} StagesInvert(k: Kernel, stages: seq<Transform>, x: Tensor, withLogJac: bool)
    requires forall i :: 0 <= i < |stages| ==> Bijective(k, stages[i], withLogJac)
    ensures InvertsAt(k, Chain(stages), x, withLogJac)
  {
    if stages != [] && Forward(k, Chain(stages), x, withLogJac).Ok? {
      var head, rest := stages[0], stages[1..];
      assert Bijective(k, head, withLogJac);
      assert forall i :: 0 <= i < |rest| ==> rest[i] == stages[i + 1];
      assert Forward(k, Chain(stages), x, withLogJac) == StagesForward(k, stages, x, withLogJac);
      var a := Forward(k, head, x, withLogJac).value;
      var b := StagesForward(k, rest, a.value, withLogJac).value;
      StagesInvert(k, rest, a.value, withLogJac);
      assert StagesBackward(k, rest, b.value, withLogJac) == Ok(Applied(a.value, -b.logJac));
      assert InvertsAt(k, head, x, withLogJac);
      assert Backward(k, head, a.value, withLogJac) == Ok(Applied(x, -a.logJac));
    }
  }

  lemma {:induction false} StagesRecover(k: Kernel, stages: seq<Transform>, y: Tensor, withLogJac: bool)
    requires forall i :: 0 <= i < |stages| ==> Bijective(k, stages[i], withLogJac)
    ensures RecoversAt(k, Chain(stages), y, withLogJac)
  {
    if stages != [] && Backward(k, Chain(stages), y, withLogJac).Ok? {
      var head, rest := stages[0], stages[1..];
      assert Bijective(k, head, withLogJac);
      assert forall i :: 0 <= i < |rest| ==> rest[i] == stages[i + 1];
      assert Backward(k, Chain(stages), y, withLogJac) == StagesBackward(k, stages, y, withLogJac);
      var b := StagesBackward(k, rest, y, withLogJac).value;
      var a := Backward(k, head, b.value, withLogJac).value;
      StagesRecover(k, rest, y, withLogJac);
      assert RecoversAt(k, head, b.value, withLogJac);
      assert Forward(k, head, a.value, withLogJac) == Ok(Applied(b.value, -a.logJac));
      assert StagesForward(k, rest, b.value, withLogJac) == Ok(Applied(y, -b.logJac));
    }
  }

  // ---------------------------------------------------------------------
  // Defects of the source, as written

  /** `Logit.inverse` names an undefined `clip_finite` when the log Jacobian is
      asked for, so it raises NameError then, and succeeds otherwise; the same
      holds of the forward map of `invert_transform(Logit)`. */
  lemma LogitInverseWithLogJacRaises(k: Kernel, y: Tensor)
    ensures Backward(k, Logit, y, true) == Fail(NameError("clip_finite"))
    ensures Backward(k, Logit, y, false).Ok?
    ensures Forward(k, Inverted(Logit), y, true) == Fail(NameError("clip_finite"))
    ensures !Bijective(k, Logit, true)
  {
    assert !RecoversAt(k, Logit, y, true) || !InvertsAt(k, Logit, y, true);
  }

  /** `RowNormalize1.transform` of a vector reaches the fallback branch, which
      names an undefined `x`; only matrices get through. */
  lemma RowNormalize1RejectsVectors(k: Kernel, x: Tensor, withLogJac: bool)
    ensures k.rank(x) == 1 ==> Forward(k, RowNormalize1, x, withLogJac) == Fail(NameError("x"))
    ensures Forward(k, RowNormalize1, x, withLogJac).Ok? <==> k.rank(x) == 2
  {
  }
}

/** The class that `chain_transforms(*stages)` builds: each of its class
    methods is a loop over the stages, proved here to compute the chain's
    shape maps, forward and inverse maps and structural flag. */
module Chains {
  import opened Common
  import opened Transforms
  import opened TransformLaws

  /** `tf.reduce_sum` of the collected log Jacobians. */
  function Sum(xs: seq<real>): real
  {
    if xs == [] then 0.0 else Sum(xs[..|xs| - 1]) + xs[|xs| - 1]
  }

  lemma SumAppend(xs: seq<real>, x: real)
    ensures Sum(xs + [x]) == Sum(xs) + x
  {
    assert (xs + [x])[..|xs|] == xs;
  }

  /** `Chain.output_shape`: thread the shape through each stage's
      `output_shape`, first stage first. */
  method OutputShapeLoop(stages: seq<Transform>, s: Shape) returns (r: Outcome<Shape>)
    ensures r == OutputShape(Chain(stages), s)
  {
    var cur := s;
    var i := 0;
    while i < |stages|
      invariant 0 <= i <= |stages|
      invariant StagesOutputShape(stages, s) == StagesOutputShape(stages[i..], cur)
    {
      assert stages[i..][1..] == stages[i + 1..];
      var next := OutputShape(stages[i], cur);
      if next.Fail? {
        return Fail(next.error);
      }
      cur := next.value;
      i := i + 1;
    }
    return Ok(cur);
  }

  /** If a suffix of the stages fails on the way back, the whole chain fails
      with the same error. */
  lemma {:induction false} InputShapeSuffixFails(stages: seq<Transform>, j: nat, s: Shape, e: Error)
    requires j <= |stages|
    requires StagesInputShape(stages[j..], s) == Fail(e)
    ensures StagesInputShape(stages, s) == Fail(e)
    decreases j
  {
    if j > 0 {
      assert stages[j - 1..][1..] == stages[j..];
      InputShapeSuffixFails(stages, j - 1, s, e);
    }
  }

  /** `Chain.input_shape`: thread the shape back through each stage's
      `input_shape`, last stage first. */
  method InputShapeLoop(stages: seq<Transform>, s: Shape) returns (r: Outcome<Shape>)
    ensures r == InputShape(Chain(stages), s)
  {
    var cur := s;
    var i := |stages|;
    while i > 0
      invariant 0 <= i <= |stages|
      invariant StagesInputShape(stages[i..], s) == Ok(cur)
    {
      assert stages[i - 1..][1..] == stages[i..];
      var next := InputShape(stages[i - 1], cur);
      if next.Fail? {
        InputShapeSuffixFails(stages, i - 1, s, next.error);
        return Fail(next.error);
      }
      cur := next.value;
      i := i - 1;
    }
    return Ok(cur);
  }

  /** `Chain.transform`: apply each stage's `transform` in order, collecting
      the stage log Jacobians and returning their sum. */
  method TransformLoop(k: Kernel, stages: seq<Transform>, x: Tensor, withLogJac: bool) returns (r: Outcome<Applied>)
    ensures r == Forward(k, Chain(stages), x, withLogJac)
  {
    var cur := x;
    var logJacs: seq<real> := [];
    var i := 0;
    while i < |stages|
      invariant 0 <= i <= |stages|
      invariant StagesForward(k, stages, x, withLogJac) ==
                match StagesForward(k, stages[i..], cur, withLogJac)
                case Ok(q) => Ok(Applied(q.value, Sum(logJacs) + q.logJac))
                case Fail(e) => Fail(e)
    {
      assert stages[i..][1..] == stages[i + 1..];
      var step := Forward(k, stages[i], cur, withLogJac);
      if step.Fail? {
        return Fail(step.error);
      }
      SumAppend(logJacs, step.value.logJac);
      cur := step.value.value;
      logJacs := logJacs + [step.value.logJac];
      i := i + 1;
    }
    return Ok(Applied(cur, Sum(logJacs)));
  }

  lemma {:induction false} BackwardSuffixFails(k: Kernel, stages: seq<Transform>, j: nat, y: Tensor, withLogJac: bool, e: Error)
    requires j <= |stages|
    requires StagesBackward(k, stages[j..], y, withLogJac) == Fail(e)
    ensures StagesBackward(k, stages, y, withLogJac) == Fail(e)
    decreases j
  {
    if j > 0 {
      assert stages[j - 1..][1..] == stages[j..];
      BackwardSuffixFails(k, stages, j - 1, y, withLogJac, e);
    }
  }

  /** One more stage on the way back: run its inverse on the value so far and
      add its log Jacobian. */
  lemma BackwardStep(k: Kernel, stages: seq<Transform>, i: nat, y: Tensor, withLogJac: bool, cur: Tensor, lj: real)
    requires 0 < i <= |stages|
    requires StagesBackward(k, stages[i..], y, withLogJac) == Ok(Applied(cur, lj))
    ensures StagesBackward(k, stages[i - 1..], y, withLogJac) ==
            match Backward(k, stages[i - 1], cur, withLogJac)
            case Fail(e) => Fail(e)
            case Ok(a) => Ok(Applied(a.value, lj + a.logJac))
  {
    assert stages[i - 1..][1..] == stages[i..];
  }

  /** `Chain.inverse`: apply each stage's `inverse`, last stage first,
      collecting the stage log Jacobians and returning their sum. */
  method InverseLoop(k: Kernel, stages: seq<Transform>, y: Tensor, withLogJac: bool) returns (r: Outcome<Applied>)
    ensures r == Backward(k, Chain(stages), y, withLogJac)
  {
    var cur := y;
    var logJacs: seq<real> := [];
    var i := |stages|;
    while i > 0
      invariant 0 <= i <= |stages|
      invariant StagesBackward(k, stages[i..], y, withLogJac) == Ok(Applied(cur, Sum(logJacs)))
    {
      BackwardStep(k, stages, i, y, withLogJac, cur, Sum(logJacs));
      var step := Backward(k, stages[i - 1], cur, withLogJac);
      if step.Fail? {
        BackwardSuffixFails(k, stages, i - 1, y, withLogJac, step.error);
        return Fail(step.error);
      }
      SumAppend(logJacs, step.value.logJac);
      cur := step.value.value;
      logJacs := logJacs + [step.value.logJac];
      i := i - 1;
    }
    return Ok(Applied(cur, Sum(logJacs)));
  }

  /** `Chain.is_structural`: start from `True` and multiply in each stage's
      flag, last stage first; Python's `True *= b` yields the integer 1 or 0.
      The result is 1 exactly when every stage is structural. */
  method IsStructuralLoop(stages: seq<Transform>) returns (flag: int)
    ensures flag == 0 || flag == 1
    ensures flag == 1 <==> forall i :: 0 <= i < |stages| ==> IsStructural(stages[i])
    ensures flag == 1 <==> IsStructural(Chain(stages))
  {
    flag := 1;
    var i := |stages|;
    while i > 0
      invariant 0 <= i <= |stages|
      invariant flag == 0 || flag == 1
      invariant flag == 1 <==> forall j :: i <= j < |stages| ==> IsStructural(stages[j])
    {
      flag := flag * (if IsStructural(stages[i - 1]) then 1 else 0);
      i := i - 1;
    }
    ChainStructuralIffAll(stages);
  }
}

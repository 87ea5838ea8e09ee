/** Shared vocabulary of the model: shapes, abstract tensors, the exceptions the
    library raises, and NumPy-style shape broadcasting. */
module Common {

  /** A tensor shape, as the Python tuple of dimensions. Dimensions are plain
      integers: `RowNormalize1.input_shape` can produce -1 from a 0 dimension. */
  type Shape = seq<int>

  /** A tensor value. The model never looks inside one: every numeric result is
      produced by the numeric kernel that the caller supplies. */
  type Tensor(==, !new)

  datatype Option<+T> = None | Some(value: T)

  /** The exceptions the modelled code raises, by Python exception class. */
  datatype Error =
    | ShapeMismatch              // two parameter shapes that cannot be broadcast
    | AssertionError             // a failed `assert`
    | ValueError                 // tuple unpacking with the wrong number of values
    | IndexError                 // `shape[-1]` of an empty shape
    | KeyError(key: string)      // a missing dictionary key
    | TypeError                  // a missing keyword argument
    | NameError(name: string)    // use of a name that is not defined
    | AttributeError(attr: string)
    | NotImplemented             // `Transform.transform`/`inverse` left abstract
    | Unsupported                // an explicit `raise Exception(...)`
    | NoDefaultPosterior         // a family that defines no `default_q`

  /** The result of a call that may raise. */
  datatype Outcome<+T> = Ok(value: T) | Fail(error: Error) {
    predicate IsFailure() { Fail? }
    function PropagateFailure<U>(): Outcome<U>
      requires Fail?
    {
      Fail(error)
    }
    function Extract(): T
      requires Ok?
    {
      value
    }
  }

  predicate IsScalar(s: Shape) { |s| == 0 }

  function Max(a: int, b: int): int { if a < b then b else a }

  /** NumPy broadcasting of two shapes: align them on the right; two dimensions
      agree when they are equal or one of them is 1, and the result takes the
      other one; the longer shape contributes its leading dimensions. */
  function Broadcast(a: Shape, b: Shape): Outcome<Shape>
    decreases |a| + |b|
  {
    if |a| == 0 then Ok(b)
    else if |b| == 0 then Ok(a)
    else
      var x, y := a[|a| - 1], b[|b| - 1];
      if x == y || x == 1 || y == 1 then
        var front :- Broadcast(a[..|a| - 1], b[..|b| - 1]);
        Ok(front + [if x == 1 then y else x])
      else
        Fail(ShapeMismatch)
  }

  /** A shape broadcasts with itself to itself. */
  lemma {:induction false} BroadcastWithItself(a: Shape)
    ensures Broadcast(a, a) == Ok(a)
  {
    if |a| > 0 {
      BroadcastWithItself(a[..|a| - 1]);
      assert a[..|a| - 1] + [a[|a| - 1]] == a;
    }
  }

  /** Broadcasting does not depend on the order of its arguments. */
  lemma {:induction false} BroadcastCommutes(a: Shape, b: Shape)
    ensures Broadcast(a, b) == Broadcast(b, a)
    decreases |a| + |b|
  {
    if |a| > 0 && |b| > 0 {
      BroadcastCommutes(a[..|a| - 1], b[..|b| - 1]);
    }
  }

  /** A scalar broadcasts to any shape. */
  lemma ScalarBroadcastsToAnything(a: Shape)
    ensures Broadcast([], a) == Ok(a) && Broadcast(a, []) == Ok(a)
  {
  }

  /** A successful broadcast has the rank of the longer shape, and each of its
      dimensions agrees with the aligned dimension of both inputs. */
  lemma {:induction false} BroadcastRank(a: Shape, b: Shape)
    requires Broadcast(a, b).Ok?
    ensures |Broadcast(a, b).value| == Max(|a|, |b|)
    ensures forall i :: 0 <= i < |a| ==>
              var r := Broadcast(a, b).value;
              r[|r| - |a| + i] == a[i] || a[i] == 1
    decreases |a| + |b|
  {
    if |a| > 0 && |b| > 0 {
      var a', b' := a[..|a| - 1], b[..|b| - 1];
      BroadcastRank(a', b');
    }
  }
}

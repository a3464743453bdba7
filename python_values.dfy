/** Abstract Python values, exceptions and truthiness: as much of Python's and
    NumPy's semantics as the PlaquesImageRGB constructor depends on. */
module PyValues {

  datatype Option<T> = None | Some(value: T)

  /** The exception classes the constructor raises itself, plus any other
      class a collaborator may raise. */
  datatype ExceptionClass = TypeError | ValueError | OtherError(className: string)

  datatype Exception = Exception(cls: ExceptionClass, message: string)

  /** A Python evaluation either returns a value or raises an exception. */
  datatype Result<T> = Ok(value: T) | Raise(error: Exception)

  /** The number of elements of an array of the given shape. */
  function Size(shape: seq<nat>): nat
  {
    if shape == [] then 1 else shape[0] * Size(shape[1..])
  }

  /** Element contents are abstracted to their truth values, in row-major
      order; only the shape and, for one-element arrays, the truth of the
      sole element matter to the code modelled here. */
  datatype ArrayData = ArrayData(shape: seq<nat>, truths: seq<bool>)

  /** A numpy.ndarray: it always holds exactly as many elements as its shape says. */
  type NdArray = a: ArrayData | |a.truths| == Size(a.shape) witness ArrayData([], [false])

  /** The Python values an argument of the constructor may be. */
  datatype PyValue =
    | NoneValue                 // None
    | Bool(b: bool)             // True / False
    | Int(i: int)
    | Float(f: real)            // NaN and the infinities are not modelled
    | Str(s: string)
    | Collection(length: nat)   // list, tuple, dict, set: truth is non-emptiness
    | Array(arr: NdArray)       // numpy.ndarray
    | Object(truth: bool)       // any other object: what its __bool__ or __len__ says

  /** isinstance(v, str) */
  predicate IsStr(v: PyValue)
  {
    v.Str?
  }

  /** isinstance(v, np.ndarray) and v.ndim == rank, evaluated left to right as
      the source's `or` of the two negations does: ndim is only read of an array. */
  predicate IsArrayOfRank(v: PyValue, rank: nat)
  {
    v.Array? && |v.arr.shape| == rank
  }

  /** NumPy's refusal to give a truth value to an array that does not hold
      exactly one element. */
  const AmbiguousManyError := Exception(ValueError,
    "The truth value of an array with more than one element is ambiguous. Use a.any() or a.all()")
  const AmbiguousEmptyError := Exception(ValueError,
    "The truth value of an empty array is ambiguous. Use `array.size > 0` to check that an array is not empty.")

  /** Every dimension of the shape has length one. */
  predicate AllOnes(shape: seq<nat>)
  {
    forall i :: 0 <= i < |shape| ==> shape[i] == 1
  }

  /** An array holds exactly one element exactly when every dimension is 1. */
  lemma {:induction false} SizeIsOneIff(shape: seq<nat>)
    ensures Size(shape) == 1 <==> AllOnes(shape)
  {
    if shape != [] {
      var rest := shape[1..];
      SizeIsOneIff(rest);
      assert AllOnes(shape) <==> shape[0] == 1 && AllOnes(rest) by {
        assert forall i :: 0 <= i < |rest| ==> rest[i] == shape[i + 1];
      }
      if Size(shape) == 1 {
        ProductIsOne(shape[0], Size(rest));
      }
    }
  }

  lemma ProductIsOne(x: nat, y: nat)
    requires x * y == 1
    ensures x == 1 && y == 1
  {
  }

  /** bool(v): Python truthiness, which for an ndarray raises ValueError
      unless the array holds exactly one element. */
  function Truth(v: PyValue): (r: Result<bool>)
    ensures !v.Array? ==> r.Ok?
    ensures v.Array? ==> (r.Ok? <==> AllOnes(v.arr.shape))
    ensures v.Array? && r.Ok? ==> |v.arr.truths| == 1 && r.value == v.arr.truths[0]
    ensures r.Raise? ==> r.error.cls == ValueError
    ensures v == NoneValue || v == Int(0) || v == Float(0.0) || v == Bool(false) || v == Str("")
            ==> r == Ok(false)
  {
    match v
    case NoneValue => Ok(false)
    case Bool(b) => Ok(b)
    case Int(i) => Ok(i != 0)
    case Float(f) => Ok(f != 0.0)
    case Str(s) => Ok(|s| > 0)
    case Collection(n) => Ok(n > 0)
    case Object(t) => Ok(t)
    case Array(a) =>
      SizeIsOneIff(a.shape);
      if |a.truths| == 1 then Ok(a.truths[0])
      else if |a.truths| == 0 then Raise(AmbiguousEmptyError)
      else Raise(AmbiguousManyError)
  }

  /** The truth test an `if`/`elif` applies to `x and y`: x is tested first,
      and y is tested only when x is truthy; either test may raise. */
  function TruthOfAnd(x: PyValue, y: PyValue): (r: Result<bool>)
    ensures r == Ok(true) <==> Truth(x) == Ok(true) && Truth(y) == Ok(true)
    ensures r == Ok(false) <==> Truth(x) == Ok(false) || (Truth(x) == Ok(true) && Truth(y) == Ok(false))
    ensures Truth(x).Raise? ==> r == Truth(x)
    ensures Truth(x) == Ok(true) ==> r == Truth(y)
  {
    match Truth(x)
    case Raise(e) => Raise(e)
    case Ok(false) => Ok(false)
    case Ok(true) => Truth(y)
  }
}

/** Option and Result, the two Rust enums every adapter threads its values through.
    Result is failure-compatible, so `var x :- e;` plays the part of Rust's `?`. */
module Wrappers {

  datatype Option<+T> = None | Some(value: T) {

    /** Rust's `Option::unwrap_or`. */
    function UnwrapOr(default: T): T {
      match this
      case Some(v) => v
      case None => default
    }
  }

  datatype Result<+T, +E> = Success(value: T) | Failure(error: E) {

    predicate IsFailure() {
      Failure?
    }

    function PropagateFailure<U>(): Result<U, E>
      requires Failure?
    {
      Failure(error)
    }

    function Extract(): T
      requires Success?
    {
      value
    }

    /** Rust's `Result::map_err`. */
    function MapError<F>(f: E -> F): Result<T, F> {
      match this
      case Success(v) => Success(v)
      case Failure(e) => Failure(f(e))
    }
  }

  /** Rust's `Option::ok_or`. */
  function OkOr<T, E>(o: Option<T>, e: E): Result<T, E> {
    match o
    case Some(v) => Success(v)
    case None => Failure(e)
  }

  /** How many values an option holds: one or none. */
  function OptionLength<T>(o: Option<T>): nat {
    if o.Some? then 1 else 0
  }

  /** An option as the sequence of the values it holds, as `Option::into_iter` yields them. */
  function OptionToSeq<T>(o: Option<T>): (s: seq<T>)
    ensures |s| == OptionLength(o)
    ensures o.Some? ==> s == [o.value]
  {
    match o
    case Some(x) => [x]
    case None => []
  }

  /** `xs.iter().map(f).collect::<Result<Vec<_>, _>>()`: apply `f` left to right and stop
      at the first failure, whose error becomes the error of the whole. */
  function TryMap<A, B, E(==)>(xs: seq<A>, f: A -> Result<B, E>): (r: Result<seq<B>, E>)
    ensures r.Success? <==> forall i :: 0 <= i < |xs| ==> f(xs[i]).Success?
    ensures r.Success? ==> |r.value| == |xs|
    ensures r.Success? ==> forall i :: 0 <= i < |xs| ==> f(xs[i]) == Success(r.value[i])
    ensures r.Failure? ==>
              exists i :: 0 <= i < |xs| && f(xs[i]) == Failure(r.error)
                          && forall j :: 0 <= j < i ==> f(xs[j]).Success?
    decreases |xs|
  {
    if |xs| == 0 then Success([])
    else
      var head :- f(xs[0]);
      var tail :- TryMap(xs[1..], f);
      Success([head] + tail)
  }
}

/** Result and option types shared by the models. */
module Prelude {

  datatype Option<+T> = None | Some(value: T)

  type Bytes = seq<bv8>

  /** An exception the source raises is a `Err`; its reason is kept only where callers branch on it. */
  datatype Result<+T, +E> = Ok(value: T) | Err(error: E)

  function Map<S, T>(f: S -> T, xs: seq<S>): (ys: seq<T>)
    ensures |ys| == |xs|
    ensures forall i :: 0 <= i < |ys| ==> ys[i] == f(xs[i])
  {
    seq(|xs|, i requires 0 <= i < |xs| => f(xs[i]))
  }
}

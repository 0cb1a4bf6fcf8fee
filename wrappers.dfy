/** Option and Result: the value-level stand-ins for Python's `None` and for an
    exception escaping a call. */
module Wrappers {

  datatype Option<+T> = None | Some(value: T) {
    function GetOr(default: T): T {
      match this
      case Some(v) => v
      case None => default
    }
  }

  /** `Err` carries `str(e)` of the exception Python would raise. */
  datatype Result<+T> = Ok(value: T) | Err(error: string)

  /** Applying a function that may raise to each element in order, as a list
      comprehension or `asyncio.gather` over a list does: all results in order, or
      the error of the first element that raises. */
  function MapAll<T, U>(f: T -> Result<U>, xs: seq<T>): (r: Result<seq<U>>)
    ensures r.Ok? <==> forall i :: 0 <= i < |xs| ==> f(xs[i]).Ok?
    ensures r.Ok? ==> |r.value| == |xs| && forall i :: 0 <= i < |xs| ==> r.value[i] == f(xs[i]).value
    ensures r.Err? ==>
      exists i :: 0 <= i < |xs| && f(xs[i]).Err? && r.error == f(xs[i]).error
                  && (forall k :: 0 <= k < i ==> f(xs[k]).Ok?)
    decreases |xs|
  {
    if xs == [] then Ok([])
    else
      var rest := MapAll(f, xs[1..]);
      assert forall i :: 0 < i < |xs| ==> xs[i] == xs[1..][i - 1];
      match f(xs[0])
      case Err(e) => Err(e)
      case Ok(y) =>
        match rest
        case Err(e) =>
          var i :| 0 <= i < |xs[1..]| && f(xs[1..][i]).Err? && e == f(xs[1..][i]).error
            && forall k :: 0 <= k < i ==> f(xs[1..][k]).Ok?;
          assert f(xs[i + 1]).Err? && forall k :: 0 <= k < i + 1 ==> f(xs[k]).Ok?;
          Err(e)
        case Ok(ys) => Ok([y] + ys)
  }

  /** The error of the mapping is the error of the first element that raises. */
  lemma {:induction false} MapAllFirstError<T, U>(f: T -> Result<U>, xs: seq<T>, i: nat)
    requires i < |xs| && f(xs[i]).Err?
    requires forall k :: 0 <= k < i ==> f(xs[k]).Ok?
    ensures MapAll(f, xs) == Err(f(xs[i]).error)
    decreases i
  {
    if i > 0 {
      assert forall k :: 0 <= k < i - 1 ==> xs[1..][k] == xs[k + 1];
      MapAllFirstError(f, xs[1..], i - 1);
    }
  }
}

/** Option and Result, the failure-compatible wrappers the model uses for JavaScript's
    `undefined` and for exceptions thrown while decoding an event. */
module Results {

  datatype Option<+T> = None | Some(value: T)

  /** A value or the error that the JavaScript code would have thrown. */
  datatype Result<+T, +E> = Ok(value: T) | Err(error: E) {
    predicate IsFailure() { Err? }

    function PropagateFailure<U>(): Result<U, E>
      requires Err?
    {
      Err(error)
    }

    function Extract(): T
      requires Ok?
    {
      value
    }
  }

  /** Runs results in order and collects their values; the first error ends the run, as the
      first exception thrown inside a JavaScript `map` callback does. */
  function AllOk<T, E>(rs: seq<Result<T, E>>): Result<seq<T>, E> {
    if rs == [] then Ok([])
    else
      var prefix :- AllOk(rs[..|rs| - 1]);
      var last :- rs[|rs| - 1];
      Ok(prefix + [last])
  }

  /** One more result: an error ends the run with that error, a value is appended. */
  lemma AllOkStep<T, E>(rs: seq<Result<T, E>>, k: nat)
    requires k < |rs|
    ensures AllOk(rs[..k + 1]) ==
              match AllOk(rs[..k])
              case Err(e) => Err(e)
              case Ok(vs) =>
                match rs[k]
                case Err(e) => Err(e)
                case Ok(v) => Ok(vs + [v])
  {
    assert rs[..k + 1][..k] == rs[..k];
  }

  /** A run with one more result at its end. */
  lemma AllOkSnoc<T, E>(rs: seq<Result<T, E>>, r: Result<T, E>)
    ensures AllOk(rs + [r]) ==
              match AllOk(rs)
              case Err(e) => Err(e)
              case Ok(vs) =>
                match r
                case Err(e) => Err(e)
                case Ok(v) => Ok(vs + [v])
  {
    assert (rs + [r])[..|rs|] == rs;
  }

  /** Once a prefix of the run has failed, every longer prefix fails with the same error. */
  lemma {:induction false} AllOkErrorPersists<T, E>(rs: seq<Result<T, E>>, k: nat, j: nat)
    requires k <= j <= |rs|
    requires AllOk(rs[..k]).Err?
    ensures AllOk(rs[..j]) == AllOk(rs[..k])
  {
    if j > k {
      AllOkErrorPersists(rs, k, j - 1);
      AllOkStep(rs, j - 1);
    }
  }

  /** The run succeeds exactly when every result is a value, and then it holds those values in order. */
  lemma {:induction false} AllOkValues<T, E>(rs: seq<Result<T, E>>)
    ensures AllOk(rs).Ok? <==> forall i :: 0 <= i < |rs| ==> rs[i].Ok?
    ensures AllOk(rs).Ok? ==> |AllOk(rs).value| == |rs| &&
                              forall i :: 0 <= i < |rs| ==> AllOk(rs).value[i] == rs[i].value
  {
    if rs != [] {
      var n := |rs| - 1;
      AllOkValues(rs[..n]);
      assert forall i :: 0 <= i < n ==> rs[..n][i] == rs[i];
    }
  }
}

/** Failure-compatible result types shared by every module of the model. */
module Wrappers {

  datatype Option<+T> = None | Some(value: T)

  /** The value of a Go call that returns `(T, error)`. */
  datatype Result<+T, +E> = Ok(value: T) | Err(error: E) {

    predicate IsFailure() {
      Err?
    }

    function PropagateFailure<U>(): Result<U, E>
      requires Err?
    {
      Err(error)
    }

    function Extract(): T
      requires Ok?
    {
      value
    }
  }

  /** Runs through `rs` in order and stops at the first failure, reporting its index;
      this is the shape of every Go loop of the form
      `for i, x := range xs { v, err := f(x); if err != nil { return wrap(i, err) }; ... }`. */
  function Sequence<T, E>(rs: seq<Result<T, E>>): (r: Result<seq<T>, (nat, E)>)
    ensures r.Ok? ==> |r.value| == |rs| && forall i :: 0 <= i < |rs| ==> rs[i] == Ok(r.value[i])
    ensures r.Err? ==> r.error.0 < |rs| && rs[r.error.0] == Err(r.error.1)
    ensures r.Err? ==> forall j :: 0 <= j < r.error.0 ==> rs[j].Ok?
  {
    if |rs| == 0 then Ok([])
    else match rs[0]
      case Err(e) => Err((0, e))
      case Ok(v) =>
        match Sequence(rs[1..])
        case Ok(vs) => Ok([v] + vs)
        case Err(err) => Err((err.0 + 1, err.1))
  }

  /** When `rs[i]` is the first `Err`, `Sequence` reports its index and error,
      `(i, rs[i].error)`. */
  lemma SequenceFirstError<T, E>(rs: seq<Result<T, E>>, i: nat)
    requires i < |rs| && rs[i].Err?
    requires forall j :: 0 <= j < i ==> rs[j].Ok?
    ensures Sequence(rs) == Err((i, rs[i].error))
  {
    var r := Sequence(rs);
  }

  lemma SequenceAllOk<T, E>(rs: seq<Result<T, E>>, vs: seq<T>)
    requires |vs| == |rs|
    requires forall j :: 0 <= j < |rs| ==> rs[j] == Ok(vs[j])
    ensures Sequence(rs) == Ok(vs)
  {
    var r := Sequence(rs);
    assert r.Ok? ==> r.value == vs;
  }
}

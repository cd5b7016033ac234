/** Option and Result, the two failure-compatible wrappers the model uses. */
module Wrappers {

  /** A value that may be absent: a null message field, a missing key, a failed parse. */
  datatype Option<+T> = None | Some(value: T)

  /** The outcome of an operation that either yields a value or fails with an error. */
  datatype Result<+T, +E> = Ok(value: T) | Err(error: E) {

    predicate IsFailure() {
      Err?
    }

    function PropagateFailure<U>(): Result<U, E>
      requires Err?
    {
      Err(error)
    }

    function Extract(): T
      requires Ok?
    {
      value
    }
  }

  /** `acc` followed by the value of `r`, or the error of `r`. */
  function Prepend<T, E>(acc: seq<T>, r: Result<seq<T>, E>): (p: Result<seq<T>, E>)
    ensures p.Ok? <==> r.Ok?
    ensures r.Ok? ==> p.value == acc + r.value
    ensures r.Err? ==> p.error == r.error
  {
    match r
    case Ok(v) => Ok(acc + v)
    case Err(e) => Err(e)
  }

  lemma PrependNothing<T, E>(r: Result<seq<T>, E>)
    ensures Prepend([], r) == r
  {
    if r.Ok? {
      assert [] + r.value == r.value;
    }
  }

  /** Prepending twice is prepending the concatenation. */
  lemma PrependPrepend<T, E>(a: seq<T>, b: seq<T>, r: Result<seq<T>, E>)
    ensures Prepend(a, Prepend(b, r)) == Prepend(a + b, r)
  {
    if r.Ok? {
      assert a + (b + r.value) == (a + b) + r.value;
    }
  }

  /** `f` applied to every element in order, stopping at the first error. */
  function MapAll<A, B, E>(xs: seq<A>, f: A -> Result<B, E>): Result<seq<B>, E>
  {
    if |xs| == 0 then Ok([])
    else
      match f(xs[0])
      case Err(e) => Err(e)
      case Ok(y) => Prepend([y], MapAll(xs[1..], f))
  }

  /** `MapAll` succeeds exactly when `f` succeeds on every element, and then it keeps
      the length and maps each element to `f`'s value for it. */
  lemma {:induction false} MapAllOk<A, B, E>(xs: seq<A>, f: A -> Result<B, E>)
    ensures MapAll(xs, f).Ok? <==> forall i :: 0 <= i < |xs| ==> f(xs[i]).Ok?
    ensures MapAll(xs, f).Ok? ==>
              |MapAll(xs, f).value| == |xs| &&
              forall i :: 0 <= i < |xs| ==> f(xs[i]) == Ok(MapAll(xs, f).value[i])
    decreases |xs|
  {
    if |xs| > 0 {
      MapAllOk(xs[1..], f);
      if f(xs[0]).Ok? && MapAll(xs[1..], f).Ok? {
        var ys := MapAll(xs, f).value;
        assert ys == [f(xs[0]).value] + MapAll(xs[1..], f).value;
        forall i | 0 <= i < |xs|
          ensures f(xs[i]) == Ok(ys[i])
        {
          if i > 0 {
            assert xs[i] == xs[1..][i - 1];
          }
        }
      }
      if forall i :: 0 <= i < |xs| ==> f(xs[i]).Ok? {
        assert forall i :: 0 <= i < |xs| - 1 ==> xs[1..][i] == xs[i + 1];
      }
    }
  }

  /** A failing `MapAll` reports the error of the first element `f` rejects. */
  lemma {:induction false} MapAllFirstError<A, B, E>(xs: seq<A>, f: A -> Result<B, E>)
    requires MapAll(xs, f).Err?
    ensures exists k :: 0 <= k < |xs| && f(xs[k]) == Err(MapAll(xs, f).error) &&
                        forall j :: 0 <= j < k ==> f(xs[j]).Ok?
    decreases |xs|
  {
    if f(xs[0]).Ok? {
      MapAllFirstError(xs[1..], f);
      var k :| 0 <= k < |xs[1..]| && f(xs[1..][k]) == Err(MapAll(xs[1..], f).error) &&
               forall j :: 0 <= j < k ==> f(xs[1..][j]).Ok?;
      assert f(xs[k + 1]) == Err(MapAll(xs, f).error);
      forall j | 0 <= j < k + 1
        ensures f(xs[j]).Ok?
      {
        if j > 0 {
          assert xs[j] == xs[1..][j - 1];
        }
      }
    } else {
      assert f(xs[0]) == Err(MapAll(xs, f).error);
    }
  }

  /** Splitting off a processed prefix: the invariant of a loop that computes `MapAll`. */
  lemma MapAllStep<A, B, E>(xs: seq<A>, i: nat, f: A -> Result<B, E>)
    requires i < |xs| && f(xs[i]).Ok?
    ensures MapAll(xs[i..], f) == Prepend([f(xs[i]).value], MapAll(xs[i + 1..], f))
  {
    assert xs[i..][1..] == xs[i + 1..];
  }
}

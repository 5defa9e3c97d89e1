/** Option and Result, and the throwing `map` of a JavaScript array. */
module Wrappers {

  datatype Option<+T> = None | Some(value: T)

  /** A value or the error that an operation raised. */
  datatype Result<+T, +E> = Success(value: T) | Failure(error: E) {
    predicate IsFailure() {
      Failure?
    }

    function PropagateFailure<U>(): Result<U, E>
      requires Failure?
    {
      Failure(error)
    }

    function Extract(): T
      requires Success?
    {
      value
    }
  }

  /** `xs.map(f)` where `f` may throw: the first element (in order) whose
      callback fails decides the error; otherwise one result per element. */
  function MapAll<A, B, E>(f: A -> Result<B, E>, xs: seq<A>): (r: Result<seq<B>, E>)
    ensures r.Success? ==>
      |r.value| == |xs| && forall i :: 0 <= i < |xs| ==> f(xs[i]) == Success(r.value[i])
    ensures r.Failure? ==>
      exists k :: 0 <= k < |xs| && f(xs[k]) == Failure(r.error) &&
                  forall j :: 0 <= j < k ==> f(xs[j]).Success?
  {
    if xs == [] then Success([])
    else
      match f(xs[0])
      case Failure(e) => Failure(e)
      case Success(y) =>
        match MapAll(f, xs[1..])
        case Failure(e) =>
          assert forall j :: 1 <= j < |xs| ==> xs[j] == xs[1..][j - 1];
          Failure(e)
        case Success(ys) => Success([y] + ys)
  }

  /** Applies a partial `f` to every element; None if it is undefined on any. */
  function MapSome<A, B>(f: A -> Option<B>, xs: seq<A>): (r: Option<seq<B>>)
    ensures r.Some? <==> forall i :: 0 <= i < |xs| ==> f(xs[i]).Some?
    ensures r.Some? ==>
      |r.value| == |xs| && forall i :: 0 <= i < |xs| ==> f(xs[i]) == Some(r.value[i])
  {
    if xs == [] then Some([])
    else
      match f(xs[0])
      case None => None
      case Some(y) =>
        match MapSome(f, xs[1..])
        case None =>
          assert exists i :: 1 <= i < |xs| && f(xs[i]).None? by {
            var i :| 0 <= i < |xs[1..]| && f(xs[1..][i]).None?;
            assert xs[1..][i] == xs[i + 1];
          }
          None
        case Some(ys) => Some([y] + ys)
  }

  lemma MapSomeOne<A, B>(f: A -> Option<B>, x: A)
    ensures MapSome(f, [x]) == if f(x).Some? then Some([f(x).value]) else None
  {
    assert [x][1..] == [];
    if f(x).Some? {
      assert [f(x).value] + [] == [f(x).value];
    }
  }

  lemma MapSomeTwo<A, B>(f: A -> Option<B>, x: A, y: A)
    ensures MapSome(f, [x, y]) ==
            if f(x).Some? && f(y).Some? then Some([f(x).value, f(y).value]) else None
  {
    assert [x, y][1..] == [y];
    MapSomeOne(f, y);
    if f(x).Some? && f(y).Some? {
      assert [f(x).value] + [f(y).value] == [f(x).value, f(y).value];
    }
  }
}

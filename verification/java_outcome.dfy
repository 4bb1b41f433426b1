/** How the model writes the two ways a Java expression can fall short of a
    plain value: a reference that may be `null` (`Option`), and a call that
    may throw instead of returning (`Result`, whose `error` is the exception).
    `Result` supports Dafny's `:-` operator, so a sequence of calls in the model
    stops at the first exception just as the Java statements do. */
module JavaOutcome {

  /** A reference that may be `null`. */
  datatype Option<+T> = None | Some(value: T) {

    /** The referenced value, or `fallback` for `null`: the shape of
        `System.getProperty(key, def)`. */
    function OrDefault(fallback: T): (r: T)
      ensures Some? ==> r == value
      ensures None? ==> r == fallback
    {
      if Some? then value else fallback
    }
  }

  /** A call's outcome: the value it returned, or the exception it threw. */
  datatype Result<+T, +E> = Ok(value: T) | Err(error: E) {

    /** For `:-`: the call threw. */
    predicate IsFailure() {
      Err?
    }

    /** For `:-`: the exception, passed on unchanged to the caller. */
    function PropagateFailure<U>(): Result<U, E>
      requires Err?
    {
      Err(error)
    }

    /** For `:-`: the value the call returned. */
    function Extract(): T
      requires Ok?
    {
      value
    }
  }

  /** Applies `f` to each element in order and collects the results, stopping
      at the first failure: the shape of a Java loop whose body may throw. */
  function Traverse<A, B, E>(xs: seq<A>, f: A --> Result<B, E>): (r: Result<seq<B>, E>)
    requires forall i :: 0 <= i < |xs| ==> f.requires(xs[i])
    ensures r.Ok? <==> forall i :: 0 <= i < |xs| ==> f(xs[i]).Ok?
    ensures r.Ok? ==> |r.value| == |xs| && forall i :: 0 <= i < |xs| ==> r.value[i] == f(xs[i]).value
    ensures r.Err? ==> exists i :: 0 <= i < |xs| && (forall j :: 0 <= j < i ==> f(xs[j]).Ok?)
                                  && f(xs[i]).Err? && f(xs[i]).error == r.error
    decreases |xs|
  {
    if |xs| == 0 then Ok([])
    else
      match f(xs[0])
      case Err(e) => Err(e)
      case Ok(b) =>
        match Traverse(xs[1..], f)
        case Err(e) =>
          assert exists i :: 0 <= i < |xs| && (forall j :: 0 <= j < i ==> f(xs[j]).Ok?)
                            && f(xs[i]).Err? && f(xs[i]).error == e by {
            var i :| 0 <= i < |xs[1..]| && (forall j :: 0 <= j < i ==> f(xs[1..][j]).Ok?)
                     && f(xs[1..][i]).Err? && f(xs[1..][i]).error == e;
            assert forall j :: 0 <= j < i + 1 ==> f(xs[j]).Ok? by {
              forall j | 0 <= j < i + 1 ensures f(xs[j]).Ok? {
                if j > 0 { assert xs[j] == xs[1..][j - 1]; }
              }
            }
            assert xs[i + 1] == xs[1..][i];
          }
          Err(e)
        case Ok(rest) => Ok([b] + rest)
  }

  /** When every step succeeds, `Traverse` returns exactly the step results. */
  lemma TraverseAllOk<A, B, E>(xs: seq<A>, f: A --> Result<B, E>, ys: seq<B>)
    requires |xs| == |ys|
    requires forall i :: 0 <= i < |xs| ==> f.requires(xs[i]) && f(xs[i]).Ok? && f(xs[i]).value == ys[i]
    ensures Traverse(xs, f) == Ok(ys)
  {
    var r := Traverse(xs, f);
    assert r.value == ys;
  }
}

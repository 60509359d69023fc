/** Energy accumulators.

    The spin systems add energies in a loop that starts from `0.0` and stops at
    the first term that raises: `SumResults` is that loop's value, `Sum` the
    plain sum it reduces to when no term raises. */
module Sums {
  import opened Outcomes

  function Sum(xs: seq<real>): real
  {
    if xs == [] then 0.0 else Sum(xs[..|xs| - 1]) + xs[|xs| - 1]
  }

  /** The value of `acc = 0.0; for x in xs: acc += x()`, where evaluating a
      term may raise: the loop stops at the first error. */
  function SumResults(xs: seq<Result<real>>): (r: Result<real>)
  {
    if xs == [] then Ok(0.0)
    else
      match SumResults(xs[..|xs| - 1])
      case Err(e) => Err(e)
      case Ok(s) =>
        match xs[|xs| - 1]
        case Err(e) => Err(e)
        case Ok(x) => Ok(s + x)
  }

  /** Once a prefix of the terms raises, so does the whole loop, with the same error. */
  lemma {:induction false} SumResultsErrPrefix(xs: seq<Result<real>>, k: nat)
    requires k <= |xs| && SumResults(xs[..k]).Err?
    ensures SumResults(xs) == SumResults(xs[..k])
    decreases |xs| - k
  {
    if k < |xs| {
      assert xs[..k + 1][..k] == xs[..k];
      SumResultsErrPrefix(xs, k + 1);
    } else {
      assert xs[..k] == xs;
    }
  }

  /** One more term: the running sum grows by it. */
  lemma SumResultsStep(xs: seq<Result<real>>, k: nat, s: real, x: real)
    requires k < |xs| && SumResults(xs[..k]) == Ok(s) && xs[k] == Ok(x)
    ensures SumResults(xs[..k + 1]) == Ok(s + x)
  {
    assert xs[..k + 1][..k] == xs[..k];
  }

  /** The first term that raises ends the loop with its error. */
  lemma SumResultsStop(xs: seq<Result<real>>, k: nat)
    requires k < |xs| && SumResults(xs[..k]).Ok? && xs[k].Err?
    ensures SumResults(xs) == Err(xs[k].error)
  {
    assert xs[..k + 1][..k] == xs[..k];
    SumResultsErrPrefix(xs, k + 1);
  }

  /** When no term raises, the loop returns the plain sum of the terms. */
  lemma {:induction false} SumResultsAllOk(xs: seq<Result<real>>, ys: seq<real>)
    requires |xs| == |ys|
    requires forall k :: 0 <= k < |xs| ==> xs[k] == Ok(ys[k])
    ensures SumResults(xs) == Ok(Sum(ys))
  {
    if xs != [] {
      SumResultsAllOk(xs[..|xs| - 1], ys[..|ys| - 1]);
    }
  }

  /** The loop raises exactly when some term raises, and then with the error
      of the first such term. */
  lemma {:induction false} SumResultsFirstError(xs: seq<Result<real>>)
    ensures SumResults(xs).Ok? <==> forall k :: 0 <= k < |xs| ==> xs[k].Ok?
    ensures SumResults(xs).Err? ==> exists k :: 0 <= k < |xs| && xs[k] == Err(SumResults(xs).error) &&
                                                forall j :: 0 <= j < k ==> xs[j].Ok?
  {
    if xs != [] {
      var init := xs[..|xs| - 1];
      SumResultsFirstError(init);
      assert forall k :: 0 <= k < |init| ==> xs[k] == init[k];
    }
  }

  /** When every term that raises raises `e`, and one does, the loop raises `e`. */
  lemma SumResultsOnlyError(xs: seq<Result<real>>, e: Error, k: nat)
    requires k < |xs| && xs[k].Err?
    requires forall j :: 0 <= j < |xs| && xs[j].Err? ==> xs[j].error == e
    ensures SumResults(xs) == Err(e)
  {
    SumResultsFirstError(xs);
  }

  /** `n` equal terms add up to `n` times the term. */
  lemma {:induction false} SumConstant(xs: seq<real>, v: real)
    requires forall k :: 0 <= k < |xs| ==> xs[k] == v
    ensures Sum(xs) == |xs| as real * v
  {
    if xs != [] {
      SumConstant(xs[..|xs| - 1], v);
    }
  }
}

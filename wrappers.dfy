/** Failure-carrying values used throughout the model: an absent value, and the
    Python exceptions the analysed code can raise on malformed input. */
module Wrappers {

  datatype Option<+T> = None | Some(value: T)

  /** The exceptions that the detector code can raise on its inputs; each one
      ends the analysis, so the model returns it instead of a partial result. */
  datatype PyError =
    | ValueError(what: string)   // int() of a non-number, str.index without a match, list.remove of a missing item
    | IndexError(what: string)   // subscript past the end of a list
    | KeyError(what: string)     // dictionary or enum lookup of a missing key
    | AttributeError(what: string)  // a field the object's class does not have

  datatype Result<+T> = Ok(value: T) | Err(error: PyError)

  /** `Ok(x)` as the one-element list of results of a loop iteration. */
  function Listed<T>(r: Result<T>): (l: Result<seq<T>>)
    ensures l.Ok? <==> r.Ok?
    ensures r.Ok? ==> l.value == [r.value]
    ensures r.Err? ==> l.error == r.error
  {
    match r
    case Ok(x) => Ok([x])
    case Err(e) => Err(e)
  }

  /** A loop whose iterations each append a list of values or raise: the values
      of all iterations in order, or the error of the first iteration that raises
      (the loop stops there). */
  function Gather<T>(rs: seq<Result<seq<T>>>): Result<seq<T>> {
    if rs == [] then Ok([])
    else
      match Gather(rs[..|rs| - 1])
      case Err(e) => Err(e)
      case Ok(xs) =>
        match rs[|rs| - 1]
        case Err(e) => Err(e)
        case Ok(ys) => Ok(xs + ys)
  }

  /** One more iteration of the loop. */
  lemma GatherStep<T>(rs: seq<Result<seq<T>>>, n: nat)
    requires n < |rs|
    ensures Gather(rs[..n + 1]) == match Gather(rs[..n])
                                   case Err(e) => Err(e)
                                   case Ok(xs) => (match rs[n] case Err(e) => Err(e) case Ok(ys) => Ok(xs + ys))
  {
    assert rs[..n + 1][..n] == rs[..n];
  }

  /** A loop without error so far, and an iteration without error, extend the collected list. */
  lemma GatherSnoc<T>(rs: seq<Result<seq<T>>>, n: nat, xs: seq<T>, ys: seq<T>)
    requires n < |rs| && Gather(rs[..n]) == Ok(xs) && rs[n] == Ok(ys)
    ensures Gather(rs[..n + 1]) == Ok(xs + ys)
  {
    GatherStep(rs, n);
  }

  /** Once an iteration raises, the loop's outcome is that error. */
  lemma {:induction false} GatherStops<T>(rs: seq<Result<seq<T>>>, n: nat)
    requires n <= |rs| && Gather(rs[..n]).Err?
    ensures Gather(rs) == Gather(rs[..n])
    decreases |rs| - n
  {
    if n < |rs| {
      GatherStep(rs, n);
      GatherStops(rs, n + 1);
    } else {
      assert rs[..n] == rs;
    }
  }

  /** The loop raises exactly when one of its iterations raises, and then with the
      error of the first one. */
  lemma {:induction false} GatherErr<T>(rs: seq<Result<seq<T>>>)
    ensures Gather(rs).Ok? <==> forall i :: 0 <= i < |rs| ==> rs[i].Ok?
    ensures Gather(rs).Err? ==> exists i :: 0 <= i < |rs| && rs[i] == Err(Gather(rs).error)
                                          && forall j :: 0 <= j < i ==> rs[j].Ok?
    decreases |rs|
  {
    if rs != [] {
      var front := rs[..|rs| - 1];
      GatherErr(front);
      assert forall i :: 0 <= i < |front| ==> front[i] == rs[i];
    }
  }

  /** Every value of the loop comes from one of its iterations. */
  lemma {:induction false} GatherFrom<T>(rs: seq<Result<seq<T>>>, x: T)
    requires Gather(rs).Ok? && x in Gather(rs).value
    ensures exists i :: 0 <= i < |rs| && rs[i].Ok? && x in rs[i].value
    decreases |rs|
  {
    var front := rs[..|rs| - 1];
    if x in Gather(front).value {
      GatherFrom(front, x);
      var i :| 0 <= i < |front| && front[i].Ok? && x in front[i].value;
      assert front[i] == rs[i];
    }
  }

  /** Every value of every iteration is among the loop's values. */
  lemma {:induction false} GatherHas<T>(rs: seq<Result<seq<T>>>, i: nat, x: T)
    requires Gather(rs).Ok? && i < |rs| && rs[i].Ok? && x in rs[i].value
    ensures x in Gather(rs).value
    decreases |rs|
  {
    var front := rs[..|rs| - 1];
    if i < |front| {
      assert front[i] == rs[i];
      GatherHas(front, i, x);
    }
  }

  /** When the loop completes, every iteration completed and all it produced is collected. */
  lemma GatherAll<T>(rs: seq<Result<seq<T>>>, i: nat)
    requires Gather(rs).Ok? && i < |rs|
    ensures rs[i].Ok? && forall x :: x in rs[i].value ==> x in Gather(rs).value
  {
    GatherErr(rs);
    forall x | x in rs[i].value ensures x in Gather(rs).value {
      GatherHas(rs, i, x);
    }
  }

  /** A loop whose every iteration yields exactly one value yields those values in order. */
  lemma {:induction false} GatherSingles<T>(rs: seq<Result<seq<T>>>)
    requires forall i :: 0 <= i < |rs| ==> rs[i].Ok? && |rs[i].value| == 1
    ensures Gather(rs).Ok? && |Gather(rs).value| == |rs|
    ensures forall i :: 0 <= i < |rs| ==> Gather(rs).value[i] == rs[i].value[0]
    decreases |rs|
  {
    if rs != [] {
      var front := rs[..|rs| - 1];
      assert forall i :: 0 <= i < |front| ==> front[i] == rs[i];
      GatherSingles(front);
    }
  }
}

/** Option and Result, the model's stand-ins for Python's None and for raised exceptions. */
module Wrappers {

  datatype Option<+T> = None | Some(value: T)

  /** Ok carries a value; Err carries the text `str(e)` of the exception Python would raise. */
  datatype Result<+T> = Ok(value: T) | Err(message: string) {

    predicate IsFailure() {
      Err?
    }

    function PropagateFailure<U>(): Result<U>
      requires Err?
    {
      Err(message)
    }

    function Extract(): T
      requires Ok?
    {
      value
    }
  }

  /**
   * A loop that raises at the first element whose result is an error: the
   * values in order when every element succeeds, otherwise that first error.
   */
  function Collect<T>(rs: seq<Result<T>>): (r: Result<seq<T>>)
    ensures r.Ok? ==> |r.value| == |rs|
    decreases |rs|
  {
    if rs == [] then Ok([])
    else
      match Collect(rs[..|rs| - 1])
      case Err(e) => Err(e)
      case Ok(init) =>
        match rs[|rs| - 1]
        case Err(e) => Err(e)
        case Ok(x) => Ok(init + [x])
  }

  /** Collecting succeeds exactly when every element does, and keeps the values in place. */
  lemma {:induction false} CollectOk<T>(rs: seq<Result<T>>)
    ensures Collect(rs).Ok? <==> forall i :: 0 <= i < |rs| ==> rs[i].Ok?
    ensures Collect(rs).Ok? ==> forall i :: 0 <= i < |rs| ==> Collect(rs).value[i] == rs[i].value
    decreases |rs|
  {
    if rs != [] {
      var init := rs[..|rs| - 1];
      CollectOk(init);
      assert forall i :: 0 <= i < |init| ==> init[i] == rs[i];
    }
  }

  /** A failed collection reports the error of the first failing element. */
  lemma {:induction false} CollectErr<T>(rs: seq<Result<T>>)
    requires Collect(rs).Err?
    ensures exists i :: (0 <= i < |rs| && rs[i] == Err(Collect(rs).message) &&
      forall j :: 0 <= j < i ==> rs[j].Ok?)
    decreases |rs|
  {
    var init := rs[..|rs| - 1];
    assert forall i :: 0 <= i < |init| ==> init[i] == rs[i];
    if Collect(init).Err? {
      CollectErr(init);
      var i :| 0 <= i < |init| && init[i] == Err(Collect(init).message) && forall j :: 0 <= j < i ==> init[j].Ok?;
      assert rs[i] == Err(Collect(rs).message);
    } else {
      CollectOk(init);
      assert rs[|rs| - 1] == Err(Collect(rs).message);
    }
  }

  /** Once a prefix fails, the whole collection fails the same way. */
  lemma {:induction false} CollectStops<T>(rs: seq<Result<T>>, k: nat)
    requires k <= |rs| && Collect(rs[..k]).Err?
    ensures Collect(rs) == Collect(rs[..k])
    decreases |rs|
  {
    if k < |rs| {
      var init := rs[..|rs| - 1];
      assert init[..k] == rs[..k];
      CollectStops(init, k);
    } else {
      assert rs[..k] == rs;
    }
  }

  /** Collecting one more element extends a successful prefix. */
  lemma CollectStep<T>(rs: seq<Result<T>>, k: nat)
    requires k < |rs|
    ensures Collect(rs[..k + 1]) ==
      match Collect(rs[..k])
      case Err(e) => Err(e)
      case Ok(init) => (match rs[k] case Err(e) => Err(e) case Ok(x) => Ok(init + [x]))
  {
    assert rs[..k + 1][..k] == rs[..k];
  }

  /** A successful element extends a successful prefix. */
  lemma CollectExtend<T>(rs: seq<Result<T>>, k: nat, done: seq<T>)
    requires k < |rs| && Collect(rs[..k]) == Ok(done) && rs[k].Ok?
    ensures Collect(rs[..k + 1]) == Ok(done + [rs[k].value])
  {
    CollectStep(rs, k);
  }

  /** The first failing element decides the whole collection. */
  lemma CollectFails<T>(rs: seq<Result<T>>, k: nat)
    requires k < |rs| && Collect(rs[..k]).Ok? && rs[k].Err?
    ensures Collect(rs) == Err(rs[k].message)
  {
    CollectStep(rs, k);
    CollectStops(rs, k + 1);
  }

  /** The values of the successful results, in order; the failed ones are skipped. */
  function OkValues<T>(rs: seq<Result<T>>): (vs: seq<T>)
    ensures |vs| <= |rs|
    decreases |rs|
  {
    if rs == [] then []
    else OkValues(rs[..|rs| - 1]) + (if rs[|rs| - 1].Ok? then [rs[|rs| - 1].value] else [])
  }

  /** Every kept value comes from a successful result; with no failures, all are kept in place. */
  lemma {:induction false} OkValuesSpec<T>(rs: seq<Result<T>>)
    ensures forall v :: v in OkValues(rs) ==> exists i :: 0 <= i < |rs| && rs[i] == Ok(v)
    ensures (forall i :: 0 <= i < |rs| ==> rs[i].Ok?) ==>
      |OkValues(rs)| == |rs| && forall i :: 0 <= i < |rs| ==> OkValues(rs)[i] == rs[i].value
    decreases |rs|
  {
    if rs != [] {
      var init := rs[..|rs| - 1];
      assert forall i :: 0 <= i < |init| ==> init[i] == rs[i];
      OkValuesSpec(init);
    }
  }

  /** One more result keeps its value when it succeeds. */
  lemma OkValuesStep<T>(rs: seq<Result<T>>, k: nat)
    requires k < |rs|
    ensures OkValues(rs[..k + 1]) == OkValues(rs[..k]) + if rs[k].Ok? then [rs[k].value] else []
  {
    assert rs[..k + 1][..k] == rs[..k];
  }
}

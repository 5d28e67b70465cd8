/**
 * Step results: three append-only lists (succeeded, warning, failed) and, in the
 * retryable variant, a list of items to submit again.
 */
module FlowBase {

  /** An item that did not succeed, with the reason. */
  datatype StepFailedResult<F> = StepFailedResult(payload: F, errorMessage: string) {
    /** `str(result)` is the error message alone. */
    function Str(): (s: string)
      ensures s == errorMessage
    {
      errorMessage
    }
  }

  /** A snapshot of one step's results; `name` is the results class name used by merge. */
  datatype StepReport<R, F> = StepReport(
    name: string,
    succeeded: seq<R>,
    warning: seq<StepFailedResult<F>>,
    failed: seq<StepFailedResult<F>>)
  {
    function Size(): nat {
      |succeeded| + |warning| + |failed|
    }
  }

  function EmptyReport<R, F>(name: string): (r: StepReport<R, F>)
    ensures r.name == name && r.Size() == 0
  {
    StepReport(name, [], [], [])
  }

  /** What happens to one item inside a step. */
  datatype Outcome<R, F> =
    | Succeeded(result: R)
    | Warned(previous: F, message: string)
    | Failed(previous: F, message: string)

  /** The report after one `add_*` call for the outcome. */
  function Record<R, F>(rep: StepReport<R, F>, o: Outcome<R, F>): (r: StepReport<R, F>)
    ensures r.name == rep.name
    ensures r.Size() == rep.Size() + 1
  {
    match o
    case Succeeded(x) => rep.(succeeded := rep.succeeded + [x])
    case Warned(p, m) => rep.(warning := rep.warning + [StepFailedResult(p, m)])
    case Failed(p, m) => rep.(failed := rep.failed + [StepFailedResult(p, m)])
  }

  /** Recording the outcomes in order, starting from `rep`. */
  function RecordAll<R, F>(rep: StepReport<R, F>, outs: seq<Outcome<R, F>>): (r: StepReport<R, F>)
    decreases |outs|
  {
    if outs == [] then rep else Record(RecordAll(rep, outs[..|outs| - 1]), outs[|outs| - 1])
  }

  /** A fresh results object after recording the outcomes in order. */
  function Route<R, F>(name: string, outs: seq<Outcome<R, F>>): StepReport<R, F> {
    RecordAll(EmptyReport(name), outs)
  }

  /** The results of the successful outcomes, in order. */
  function Successes<R, F>(outs: seq<Outcome<R, F>>): (r: seq<R>)
    ensures |r| <= |outs|
  {
    if outs == [] then []
    else (if outs[0].Succeeded? then [outs[0].result] else []) + Successes(outs[1..])
  }

  /** The warned outcomes as failed results, in order. */
  function Warnings<R, F>(outs: seq<Outcome<R, F>>): (r: seq<StepFailedResult<F>>)
    ensures |r| <= |outs|
  {
    if outs == [] then []
    else (if outs[0].Warned? then [StepFailedResult(outs[0].previous, outs[0].message)] else []) + Warnings(outs[1..])
  }

  /** The failed outcomes as failed results, in order. */
  function Failures<R, F>(outs: seq<Outcome<R, F>>): (r: seq<StepFailedResult<F>>)
    ensures |r| <= |outs|
  {
    if outs == [] then []
    else (if outs[0].Failed? then [StepFailedResult(outs[0].previous, outs[0].message)] else []) + Failures(outs[1..])
  }

  lemma {:induction false} FiltersAppendOne<R, F>(outs: seq<Outcome<R, F>>, o: Outcome<R, F>)
    ensures Successes(outs + [o]) == Successes(outs) + Successes([o])
    ensures Warnings(outs + [o]) == Warnings(outs) + Warnings([o])
    ensures Failures(outs + [o]) == Failures(outs) + Failures([o])
    decreases |outs|
  {
    if outs != [] {
      assert (outs + [o])[1..] == outs[1..] + [o];
      FiltersAppendOne(outs[1..], o);
    } else {
      assert outs + [o] == [o];
    }
  }

  /** Recording keeps the name. */
  lemma {:induction false} RecordAllName<R, F>(rep: StepReport<R, F>, outs: seq<Outcome<R, F>>)
    ensures RecordAll(rep, outs).name == rep.name
    decreases |outs|
  {
    if outs != [] {
      RecordAllName(rep, outs[..|outs| - 1]);
    }
  }

  /** Recording appends exactly the successful results, in order. */
  lemma {:induction false} RecordAllSucceeded<R, F>(rep: StepReport<R, F>, outs: seq<Outcome<R, F>>)
    ensures RecordAll(rep, outs).succeeded == rep.succeeded + Successes(outs)
    decreases |outs|
  {
    if outs != [] {
      var init, o := outs[..|outs| - 1], outs[|outs| - 1];
      RecordAllSucceeded(rep, init);
      assert outs == init + [o];
      FiltersAppendOne(init, o);
      assert [o][1..] == [];
    }
  }

  /** Recording appends exactly the warned outcomes, in order. */
  lemma {:induction false} RecordAllWarning<R, F>(rep: StepReport<R, F>, outs: seq<Outcome<R, F>>)
    ensures RecordAll(rep, outs).warning == rep.warning + Warnings(outs)
    decreases |outs|
  {
    if outs != [] {
      var init, o := outs[..|outs| - 1], outs[|outs| - 1];
      RecordAllWarning(rep, init);
      assert outs == init + [o];
      FiltersAppendOne(init, o);
      assert [o][1..] == [];
    }
  }

  /** Recording appends exactly the failed outcomes, in order. */
  lemma {:induction false} RecordAllFailed<R, F>(rep: StepReport<R, F>, outs: seq<Outcome<R, F>>)
    ensures RecordAll(rep, outs).failed == rep.failed + Failures(outs)
    decreases |outs|
  {
    if outs != [] {
      var init, o := outs[..|outs| - 1], outs[|outs| - 1];
      RecordAllFailed(rep, init);
      assert outs == init + [o];
      FiltersAppendOne(init, o);
      assert [o][1..] == [];
    }
  }

  /**
   * Recording appends, bucket by bucket, exactly the outcomes of that kind, in
   * order; nothing is dropped, merged or reordered.
   */
  lemma RecordAllIsFilter<R, F>(rep: StepReport<R, F>, outs: seq<Outcome<R, F>>)
    ensures RecordAll(rep, outs) ==
      StepReport(rep.name, rep.succeeded + Successes(outs), rep.warning + Warnings(outs), rep.failed + Failures(outs))
  {
    RecordAllName(rep, outs);
    RecordAllSucceeded(rep, outs);
    RecordAllWarning(rep, outs);
    RecordAllFailed(rep, outs);
  }

  /** A step that routes its items this way reports the filtered outcomes. */
  lemma RouteIsFilter<R, F>(name: string, outs: seq<Outcome<R, F>>)
    ensures Route(name, outs) == StepReport(name, Successes(outs), Warnings(outs), Failures(outs))
  {
    RecordAllIsFilter(EmptyReport(name), outs);
  }

  /** Every outcome lands in exactly one bucket. */
  lemma {:induction false} FiltersPartition<R, F>(outs: seq<Outcome<R, F>>)
    ensures |Successes(outs)| + |Warnings(outs)| + |Failures(outs)| == |outs|
    decreases |outs|
  {
    if outs != [] {
      FiltersPartition(outs[1..]);
    }
  }

  /** Every item routed by a step is accounted for exactly once. */
  lemma RouteAccounts<R, F>(name: string, outs: seq<Outcome<R, F>>)
    ensures Route(name, outs).Size() == |outs|
  {
    RouteIsFilter(name, outs);
    FiltersPartition(outs);
  }

  /** The successful results are exactly those of the `Succeeded` outcomes. */
  lemma {:induction false} SuccessesMembers<R, F>(outs: seq<Outcome<R, F>>)
    ensures forall x :: x in Successes(outs) <==> exists i :: 0 <= i < |outs| && outs[i] == Succeeded(x)
    decreases |outs|
  {
    if outs != [] {
      SuccessesMembers(outs[1..]);
      forall x | (exists i :: 0 <= i < |outs| && outs[i] == Succeeded(x))
        ensures x in Successes(outs)
      {
        var i :| 0 <= i < |outs| && outs[i] == Succeeded(x);
        if i > 0 {
          assert outs[1..][i - 1] == outs[i];
        }
      }
    }
  }

  /** The failed results are exactly those of the `Failed` outcomes. */
  lemma {:induction false} FailuresMembers<R, F>(outs: seq<Outcome<R, F>>)
    ensures forall f: StepFailedResult<F> :: f in Failures(outs) <==>
      exists i :: 0 <= i < |outs| && outs[i] == Failed(f.payload, f.errorMessage)
    decreases |outs|
  {
    if outs != [] {
      FailuresMembers(outs[1..]);
      forall f: StepFailedResult<F> | (exists i :: 0 <= i < |outs| && outs[i] == Failed(f.payload, f.errorMessage))
        ensures f in Failures(outs)
      {
        var i :| 0 <= i < |outs| && outs[i] == Failed(f.payload, f.errorMessage);
        if i > 0 {
          assert outs[1..][i - 1] == outs[i];
        }
      }
    }
  }

  /** A `Succeeded` outcome's record is among the step's succeeded results. */
  lemma SucceededIn<R, F>(name: string, outs: seq<Outcome<R, F>>, i: nat)
    requires i < |outs| && outs[i].Succeeded?
    ensures outs[i].result in Route(name, outs).succeeded
  {
    RouteIsFilter(name, outs);
    SuccessesMembers(outs);
  }

  /** A `Failed` outcome is among the step's failures, with its message. */
  lemma FailedIn<R, F>(name: string, outs: seq<Outcome<R, F>>, i: nat)
    requires i < |outs| && outs[i].Failed?
    ensures StepFailedResult(outs[i].previous, outs[i].message) in Route(name, outs).failed
  {
    RouteIsFilter(name, outs);
    FailuresMembers(outs);
  }

  /** The warned results are exactly those of the `Warned` outcomes. */
  lemma {:induction false} WarningsMembers<R, F>(outs: seq<Outcome<R, F>>)
    ensures forall f: StepFailedResult<F> :: f in Warnings(outs) <==>
      exists i :: 0 <= i < |outs| && outs[i] == Warned(f.payload, f.errorMessage)
    decreases |outs|
  {
    if outs != [] {
      WarningsMembers(outs[1..]);
      forall f: StepFailedResult<F> | (exists i :: 0 <= i < |outs| && outs[i] == Warned(f.payload, f.errorMessage))
        ensures f in Warnings(outs)
      {
        var i :| 0 <= i < |outs| && outs[i] == Warned(f.payload, f.errorMessage);
        if i > 0 {
          assert outs[1..][i - 1] == outs[i];
        }
      }
    }
  }

  /** A step that never warns reports no warnings. */
  lemma {:induction false} NoWarnings<R, F>(outs: seq<Outcome<R, F>>)
    requires forall i :: 0 <= i < |outs| ==> !outs[i].Warned?
    ensures Warnings(outs) == []
    decreases |outs|
  {
    if outs != [] {
      assert forall i :: 0 <= i < |outs[1..]| ==> outs[1..][i] == outs[i + 1];
      NoWarnings(outs[1..]);
    }
  }

  /**
   * A step whose outcome for each input either succeeds or fails that input
   * accounts for every input once, warns nothing, and fails only its inputs.
   */
  lemma SucceedOrFail<R, F>(name: string, inputs: seq<F>, outs: seq<Outcome<R, F>>)
    requires |outs| == |inputs|
    requires forall i :: 0 <= i < |outs| ==> !outs[i].Warned? && (outs[i].Failed? ==> outs[i].previous == inputs[i])
    ensures Route(name, outs).name == name
    ensures Route(name, outs).warning == []
    ensures |Route(name, outs).succeeded| + |Route(name, outs).failed| == |inputs|
    ensures forall f :: f in Route(name, outs).failed ==> f.payload in inputs
  {
    RouteIsFilter(name, outs);
    NoWarnings(outs);
    FiltersPartition(outs);
    FailuresFromInputs(inputs, outs);
  }

  /** Failures whose outcome fails the input at the same position report only inputs. */
  lemma {:induction false} FailuresFromInputs<R, F>(inputs: seq<F>, outs: seq<Outcome<R, F>>)
    requires |outs| == |inputs|
    requires forall i :: 0 <= i < |outs| ==> outs[i].Failed? ==> outs[i].previous == inputs[i]
    ensures forall f :: f in Failures(outs) ==> f.payload in inputs
    decreases |outs|
  {
    if outs != [] {
      assert forall i :: 0 <= i < |outs| - 1 ==> outs[1..][i] == outs[i + 1] && inputs[1..][i] == inputs[i + 1];
      FailuresFromInputs(inputs[1..], outs[1..]);
      assert forall x :: x in inputs[1..] ==> x in inputs;
    }
  }

  /** When every outcome succeeds, the report holds their results in order and nothing else. */
  lemma {:induction false} AllSucceeded<R, F>(outs: seq<Outcome<R, F>>)
    requires forall i :: 0 <= i < |outs| ==> outs[i].Succeeded?
    ensures |Successes(outs)| == |outs|
    ensures forall i :: 0 <= i < |outs| ==> Successes(outs)[i] == outs[i].result
    ensures Warnings(outs) == [] && Failures(outs) == []
    decreases |outs|
  {
    if outs != [] {
      assert forall i :: 0 <= i < |outs[1..]| ==> outs[1..][i] == outs[i + 1];
      AllSucceeded(outs[1..]);
    }
  }

  /** One more outcome extends the report by one `add_*` call. */
  lemma RouteAppendOne<R, F>(name: string, outs: seq<Outcome<R, F>>, o: Outcome<R, F>)
    ensures Route(name, outs + [o]) == Record(Route(name, outs), o)
  {
    assert (outs + [o])[..|outs|] == outs;
  }

  /** Routing one more outcome of a sequence is one more `add_*` call. */
  lemma RoutePrefixStep<R, F>(name: string, outs: seq<Outcome<R, F>>, i: nat)
    requires i < |outs|
    ensures Route(name, outs[..i + 1]) == Record(Route(name, outs[..i]), outs[i])
  {
    assert outs[..i + 1] == outs[..i] + [outs[i]];
    RouteAppendOne(name, outs[..i], outs[i]);
  }

  /** `BaseStepResults`: append-only lists filled in call order. */
  class StepResults<R, F> {
    const name: string
    var succeeded: seq<R>
    var warning: seq<StepFailedResult<F>>
    var failed: seq<StepFailedResult<F>>

    constructor (name: string)
      ensures this.name == name
      ensures succeeded == [] && warning == [] && failed == []
    {
      this.name := name;
      succeeded := [];
      warning := [];
      failed := [];
    }

    function Report(): StepReport<R, F>
      reads this
    {
      StepReport(name, succeeded, warning, failed)
    }

    /** `add_succeeded`. */
    method AddSucceeded(result: R)
      modifies this
      ensures succeeded == old(succeeded) + [result]
      ensures warning == old(warning) && failed == old(failed)
    {
      succeeded := succeeded + [result];
    }

    /** `add_warning`. */
    method AddWarning(previous: F, message: string)
      modifies this
      ensures warning == old(warning) + [StepFailedResult(previous, message)]
      ensures succeeded == old(succeeded) && failed == old(failed)
    {
      warning := warning + [StepFailedResult(previous, message)];
    }

    /** `add_failed`. */
    method AddFailed(previous: F, message: string)
      modifies this
      ensures failed == old(failed) + [StepFailedResult(previous, message)]
      ensures succeeded == old(succeeded) && warning == old(warning)
    {
      failed := failed + [StepFailedResult(previous, message)];
    }

    /** The `add_*` call an outcome stands for. */
    method Add(o: Outcome<R, F>)
      modifies this
      ensures Report() == Record(old(Report()), o)
    {
      match o
      case Succeeded(x) => AddSucceeded(x);
      case Warned(p, m) => AddWarning(p, m);
      case Failed(p, m) => AddFailed(p, m);
    }

    /** `succeeded.extend(more)`. */
    method ExtendSucceeded(more: seq<R>)
      modifies this
      ensures succeeded == old(succeeded) + more
      ensures warning == old(warning) && failed == old(failed)
    {
      succeeded := succeeded + more;
    }

    /** `failed.extend(more)`. */
    method ExtendFailed(more: seq<StepFailedResult<F>>)
      modifies this
      ensures failed == old(failed) + more
      ensures succeeded == old(succeeded) && warning == old(warning)
    {
      failed := failed + more;
    }
  }

  /** `BaseRetryableStepResults`: step results plus the items to submit again. */
  class RetryableStepResults<R, F> {
    const results: StepResults<R, F>
    var toRetry: seq<R>

    constructor (name: string)
      ensures fresh(results)
      ensures results.name == name
      ensures results.succeeded == [] && results.warning == [] && results.failed == []
      ensures toRetry == []
    {
      results := new StepResults(name);
      toRetry := [];
    }

    /** `to_retry.append`. */
    method AddToRetry(item: R)
      modifies this
      ensures toRetry == old(toRetry) + [item]
    {
      toRetry := toRetry + [item];
    }
  }
}

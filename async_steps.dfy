/**
 * Reconciliation of a finished Benchling bulk task with the items submitted in
 * it, and the retry loop of the bulk steps: when some items failed, the bulk task was
 * rolled back, so the remaining items are submitted again in a new task.
 */
module AsyncSteps {
  import opened Wrappers
  import opened Values
  import opened Dicts
  import opened Models
  import opened FlowBase

  const UnparsableErrors: string := "Unable to parse errors from AsyncTask"
  const IndexOutOfRange: string := "list index out of range"

  /** `_has_async_task_errors`: an absent or None `errors` counts as no error. */
  function HasAsyncTaskErrors(errors: ErrorPayload): (b: bool)
    ensures errors.NotPresent? || errors.NullErrors? ==> !b
    ensures errors.ListErrors? ==> (b <==> errors.entries != [])
    ensures errors.DictErrors? ==> (b <==> errors.pairs != [])
  {
    match errors
    case NotPresent => false
    case NullErrors => false
    case ListErrors(entries) => |entries| > 0
    case DictErrors(pairs) => |pairs| > 0
    case OtherShape(size) => size > 0
  }

  /** Every entry of the group has the index `k`. */
  predicate SameIndex(group: seq<ErrorEntry>, k: ErrorKey) {
    forall e :: e in group ==> e.index == k
  }

  /**
   * `itertools.groupby(errors, lambda e: e.get('index'))`: the maximal runs of
   * consecutive entries with equal index, in order.
   */
  function Groups(entries: seq<ErrorEntry>): (r: seq<seq<ErrorEntry>>)
    ensures Flatten(r) == entries
    ensures forall i :: 0 <= i < |r| ==> r[i] != [] && SameIndex(r[i], r[i][0].index)
    ensures forall i :: 0 <= i < |r| - 1 ==> r[i][0].index != r[i + 1][0].index
    ensures r != [] ==> r[0][0] == entries[0]
    ensures |r| <= |entries|
    decreases |entries|
  {
    if entries == [] then []
    else
      var rest := Groups(entries[1..]);
      if rest != [] && rest[0][0].index == entries[0].index then
        var r := [[entries[0]] + rest[0]] + rest[1..];
        assert Flatten(r) == [entries[0]] + rest[0] + Flatten(rest[1..]);
        assert Flatten(rest) == rest[0] + Flatten(rest[1..]);
        assert [entries[0]] + entries[1..] == entries;
        r
      else
        var r := [[entries[0]]] + rest;
        assert r[1..] == rest;
        assert [entries[0]] + entries[1..] == entries;
        r
  }

  /** `[error.get('message') for error in group if 'message' in error]`. */
  function PresentMessages(group: seq<ErrorEntry>): (r: seq<string>)
    ensures |r| <= |group|
    decreases |group|
  {
    if group == [] then []
    else (if group[0].message.Some? then [group[0].message.value] else []) + PresentMessages(group[1..])
  }

  /** The (index, joined message) pair of each group. */
  function GroupMessages(groups: seq<seq<ErrorEntry>>): (r: seq<(ErrorKey, string)>)
    requires forall i :: 0 <= i < |groups| ==> groups[i] != []
    ensures |r| == |groups|
    ensures forall i :: 0 <= i < |groups| ==>
      r[i] == (groups[i][0].index, Join(PresentMessages(groups[i]), "\n"))
  {
    seq(|groups|, i requires 0 <= i < |groups| => (groups[i][0].index, Join(PresentMessages(groups[i]), "\n")))
  }

  /**
   * `_get_error_message_by_index`. A list payload becomes one entry per group, a
   * dict payload is kept as it is; any other shape raises.
   */
  function ErrorMessageByIndex(errors: ErrorPayload): (r: Result<Dict<ErrorKey, string>>)
    ensures r.Err? <==> !(errors.ListErrors? || errors.DictErrors?)
    ensures r.Err? ==> r.message == UnparsableErrors
    ensures r.Ok? ==> DistinctKeys(r.value)
  {
    match errors
    case ListErrors(entries) => Ok(FromPairs(GroupMessages(Groups(entries))))
    case DictErrors(pairs) => Ok(FromPairs(pairs))
    case _ => Err(UnparsableErrors)
  }

  /** A dict payload (whose keys a Python dict keeps distinct) is returned as it is. */
  lemma DictErrorsKept(pairs: seq<(ErrorKey, string)>)
    requires DistinctKeys(pairs)
    ensures ErrorMessageByIndex(DictErrors(pairs)) == Ok(pairs)
  {
    FromDistinctPairs(pairs);
  }

  /** `str(e)` of the TypeError a non-integer list index raises. */
  function IndexTypeError(k: ErrorKey): string {
    if k.TextKey? then "list indices must be integers or slices, not str"
    else "list indices must be integers or slices, not NoneType"
  }

  /**
   * The position `inputs[k]` reads in a list of length `n`. With
   * `negativeIndexing`, as Python does, -n <= k < 0 reads position n + k.
   */
  function Position(k: ErrorKey, n: nat, negativeIndexing: bool): (r: Result<nat>)
    ensures r.Ok? ==> r.value < n && k.IntKey?
    ensures r.Ok? && !negativeIndexing ==> k == IntKey(r.value)
    ensures !negativeIndexing && k.IntKey? && 0 <= k.n < n ==> r == Ok(k.n)
  {
    match k
    case IntKey(m) =>
      if 0 <= m < n then Ok(m)
      else if negativeIndexing && -(n as int) <= m < 0 then Ok((m + n) as nat)
      else Err(IndexOutOfRange)
    case _ => Err(IndexTypeError(k))
  }

  /** The failures the loop over the error dict records, in dict order; the first bad key raises. */
  function FailIndexed<I>(inputs: seq<I>, d: Dict<ErrorKey, string>, negativeIndexing: bool): (r: Result<seq<StepFailedResult<I>>>)
    ensures r.Ok? ==> |r.value| == |d|
    ensures r.Ok? ==> forall i :: 0 <= i < |d| ==> Position(d[i].0, |inputs|, negativeIndexing).Ok?
    ensures r.Ok? ==> forall i :: 0 <= i < |d| ==>
      r.value[i] == StepFailedResult(inputs[Position(d[i].0, |inputs|, negativeIndexing).value], d[i].1)
    decreases |d|
  {
    if d == [] then Ok([])
    else
      var last := d[|d| - 1];
      match FailIndexed(inputs, d[..|d| - 1], negativeIndexing)
      case Err(e) => Err(e)
      case Ok(fs) =>
        match Position(last.0, |inputs|, negativeIndexing)
        case Err(e) => Err(e)
        case Ok(p) => Ok(fs + [StepFailedResult(inputs[p], last.1)])
  }

  /** Once a key raises, the keys after it are never reached: the same error surfaces. */
  lemma {:induction false} FailIndexedStopsAtError<I>(inputs: seq<I>, d: Dict<ErrorKey, string>, j: nat, negativeIndexing: bool)
    requires j <= |d|
    requires FailIndexed(inputs, d[..j], negativeIndexing).Err?
    ensures FailIndexed(inputs, d, negativeIndexing) == FailIndexed(inputs, d[..j], negativeIndexing)
    decreases |d| - j
  {
    if j < |d| {
      assert d[..j + 1][..j] == d[..j];
      FailIndexedStopsAtError(inputs, d, j + 1, negativeIndexing);
    } else {
      assert d[..j] == d;
    }
  }

  /** The integer keys of the error dict. */
  function KeyPositions(keys: seq<ErrorKey>): set<int> {
    set k | k in keys && k.IntKey? :: k.n
  }

  /** `[item for i, item in enumerate(inputs) if i not in keys]`. */
  function RetryItems<I>(inputs: seq<I>, positions: set<int>): (r: seq<I>)
    ensures |r| <= |inputs|
    decreases |inputs|
  {
    if inputs == [] then []
    else
      var n := |inputs| - 1;
      RetryItems(inputs[..n], positions) + (if n in positions then [] else [inputs[n]])
  }

  /** `[task.message]` failure for every input. */
  function AllFailed<I>(inputs: seq<I>, message: string): (r: seq<StepFailedResult<I>>)
    ensures |r| == |inputs|
    ensures forall i :: 0 <= i < |inputs| ==> r[i] == StepFailedResult(inputs[i], message)
  {
    seq(|inputs|, i requires 0 <= i < |inputs| => StepFailedResult(inputs[i], message))
  }

  /** What `AsyncTaskResultProcessor.process` returns. */
  datatype TaskResults<I> = TaskResults(succeeded: seq<I>, failed: seq<StepFailedResult<I>>, toRetry: seq<I>)

  /** The sentinel errors value that fails the whole batch with the bulk task's message. */
  predicate IsSentinel(d: Dict<ErrorKey, string>) {
    Get(d, TextKey("index")) == Some("message")
  }

  /** `process`, parameterised by how `inputs[index]` treats a negative index. */
  function ProcessWith<I>(task: AsyncTask, inputs: seq<I>, negativeIndexing: bool): (r: Result<TaskResults<I>>)
    ensures !HasAsyncTaskErrors(task.errors) ==> r == Ok(TaskResults(inputs, [], []))
  {
    if !HasAsyncTaskErrors(task.errors) then Ok(TaskResults(inputs, [], []))
    else
      match ErrorMessageByIndex(task.errors)
      case Err(e) => Err(e)
      case Ok(d) =>
        if IsSentinel(d) then Ok(TaskResults([], AllFailed(inputs, task.message), []))
        else
          match FailIndexed(inputs, d, negativeIndexing)
          case Err(e) => Err(e)
          case Ok(fs) => Ok(TaskResults([], fs, RetryItems(inputs, KeyPositions(Keys(d)))))
  }

  /** `process` exactly as written: Python list indexing accepts negative indices. */
  function ProcessAsWritten<I>(task: AsyncTask, inputs: seq<I>): (r: Result<TaskResults<I>>)
    ensures r.Ok? ==> |r.value.toRetry| <= |inputs|
  {
    ProcessWith(task, inputs, true)
  }

  /**
   * A negative index fails an item that the retry filter, which compares
   * positions 0..n-1 with the keys, keeps: the retry batch is not smaller, and
   * `execute` submits the same batch again and again.
   */
  lemma NegativeIndexIsRetried<I>(x: I, message: string)
    ensures ProcessAsWritten(AsyncTask(DictErrors([(IntKey(-1), "bad")]), message, []), [x])
      == Ok(TaskResults([], [StepFailedResult(x, "bad")], [x]))
  {
    var d := [(IntKey(-1), "bad")];
    var task := AsyncTask(DictErrors(d), message, []);
    assert HasAsyncTaskErrors(task.errors);
    DictErrorsKept(d);
    assert ErrorMessageByIndex(task.errors) == Ok(d);
    assert !IsSentinel(d);
    FailIndexedSingle([x], IntKey(-1), "bad", true);
    assert Position(IntKey(-1), 1, true) == Ok(0);
    assert FailIndexed([x], d, true) == Ok([StepFailedResult(x, "bad")]);
    assert KeyPositions(Keys(d)) == {-1};
    assert [x][..0] == [];
    assert RetryItems([x], {-1}) == [x];
  }

  /** The loop over a one-entry error dict. */
  lemma FailIndexedSingle<I>(inputs: seq<I>, k: ErrorKey, message: string, negativeIndexing: bool)
    ensures FailIndexed(inputs, [(k, message)], negativeIndexing) ==
      match Position(k, |inputs|, negativeIndexing)
      case Err(e) => Err(e)
      case Ok(p) => Ok([StepFailedResult(inputs[p], message)])
  {
    var d := [(k, message)];
    assert d[..|d| - 1] == [];
    assert d[|d| - 1] == (k, message);
    assert FailIndexed(inputs, d[..|d| - 1], negativeIndexing) == Ok([]);
    match Position(k, |inputs|, negativeIndexing)
    case Err(e) =>
    case Ok(p) =>
      assert [] + [StepFailedResult(inputs[p], message)] == [StepFailedResult(inputs[p], message)];
  }

  /** `process` with indices restricted to positions 0..n-1, as the retry filter assumes. */
  function Process<I>(task: AsyncTask, inputs: seq<I>): (r: Result<TaskResults<I>>)
    ensures !HasAsyncTaskErrors(task.errors) ==> r == Ok(TaskResults(inputs, [], []))
    ensures r.Ok? ==> |r.value.succeeded| + |r.value.failed| + |r.value.toRetry| == |inputs|
    ensures r.Ok? && r.value.failed != [] ==> |r.value.toRetry| < |inputs| && r.value.succeeded == []
  {
    ProcessAccounts(task, inputs);
    ProcessWith(task, inputs, false)
  }

  lemma ProcessAccounts<I>(task: AsyncTask, inputs: seq<I>)
    ensures var r := ProcessWith(task, inputs, false);
      r.Ok? ==> |r.value.succeeded| + |r.value.failed| + |r.value.toRetry| == |inputs|
  {
    var r := ProcessWith(task, inputs, false);
    if r.Ok? && HasAsyncTaskErrors(task.errors) {
      var d := ErrorMessageByIndex(task.errors).value;
      if !IsSentinel(d) {
        RetryAccounts(inputs, d);
      }
    }
  }

  /** Distinct integer keys give as many positions as keys. */
  lemma {:induction false} KeyPositionsCount(d: Dict<ErrorKey, string>)
    requires DistinctKeys(d)
    requires forall i :: 0 <= i < |d| ==> d[i].0.IntKey?
    ensures |KeyPositions(Keys(d))| == |d|
    decreases |d|
  {
    if d != [] {
      var init, last := d[..|d| - 1], d[|d| - 1];
      KeyPositionsCount(init);
      assert Keys(d) == Keys(init) + [last.0];
      assert KeyPositions(Keys(d)) == KeyPositions(Keys(init)) + {last.0.n};
      assert last.0.n !in KeyPositions(Keys(init)) by {
        forall k | k in Keys(init) && k.IntKey? ensures k.n != last.0.n {
          var i :| 0 <= i < |init| && Keys(init)[i] == k;
          assert d[i].0 != d[|d| - 1].0;
        }
      }
    }
  }

  /** Positions at or beyond the end of `inputs` do not change what is retried. */
  lemma {:induction false} RetryIgnoresOutside<I>(inputs: seq<I>, s: set<int>, t: set<int>)
    requires forall i :: 0 <= i < |inputs| ==> (i in s <==> i in t)
    ensures RetryItems(inputs, s) == RetryItems(inputs, t)
    decreases |inputs|
  {
    if inputs != [] {
      RetryIgnoresOutside(inputs[..|inputs| - 1], s, t);
    }
  }

  /** The retry list holds exactly the positions that are not failed. */
  lemma {:induction false} RetryCount<I>(inputs: seq<I>, s: set<int>)
    requires forall i :: i in s ==> 0 <= i < |inputs|
    ensures |RetryItems(inputs, s)| + |s| == |inputs|
    decreases |inputs|
  {
    if inputs == [] {
      assert forall i :: i !in s;
      assert s == {};
    } else {
      var n := |inputs| - 1;
      var init := inputs[..n];
      if n in s {
        var s' := s - {n};
        RetryIgnoresOutside(init, s, s');
        RetryCount(init, s');
      } else {
        RetryCount(init, s);
      }
    }
  }

  /** In the per-index case, failed and retried items together are all the inputs. */
  lemma RetryAccounts<I>(inputs: seq<I>, d: Dict<ErrorKey, string>)
    requires DistinctKeys(d)
    requires FailIndexed(inputs, d, false).Ok?
    ensures |FailIndexed(inputs, d, false).value| + |RetryItems(inputs, KeyPositions(Keys(d)))| == |inputs|
  {
    var s := KeyPositions(Keys(d));
    forall i | 0 <= i < |d| ensures d[i].0.IntKey? && 0 <= d[i].0.n < |inputs| {
      assert Position(d[i].0, |inputs|, false).Ok?;
    }
    KeyPositionsCount(d);
    forall p | p in s ensures 0 <= p < |inputs| {
      var k :| k in Keys(d) && k.IntKey? && k.n == p;
      var i :| 0 <= i < |d| && Keys(d)[i] == k;
    }
    RetryCount(inputs, s);
  }

  /** The sentinel fails every input with the bulk task's message and retries nothing. */
  lemma ProcessSentinel<I>(task: AsyncTask, inputs: seq<I>)
    requires HasAsyncTaskErrors(task.errors)
    requires ErrorMessageByIndex(task.errors).Ok? && IsSentinel(ErrorMessageByIndex(task.errors).value)
    ensures Process(task, inputs) == Ok(TaskResults([], AllFailed(inputs, task.message), []))
  {
  }

  /** With indices restricted to 0..n-1, the negative index of the counterexample raises instead. */
  lemma NegativeIndexIsRejected<I>(x: I, message: string)
    ensures Process(AsyncTask(DictErrors([(IntKey(-1), "bad")]), message, []), [x]) == Err(IndexOutOfRange)
  {
    var d := [(IntKey(-1), "bad")];
    DictErrorsKept(d);
    assert !IsSentinel(d);
    FailIndexedSingle([x], IntKey(-1), "bad", false);
  }

  /** The state of an `AsyncTaskResults` object. */
  function Snapshot<I>(r: RetryableStepResults<I, I>): TaskResults<I>
    reads r, r.results
  {
    TaskResults(r.results.succeeded, r.results.failed, r.toRetry)
  }

  /** The loop appending every input to `succeeded`. */
  method AddAllSucceeded<R, F>(s: StepResults<R, F>, items: seq<R>)
    modifies s
    ensures s.succeeded == old(s.succeeded) + items
    ensures s.warning == old(s.warning) && s.failed == old(s.failed)
  {
    var i := 0;
    while i < |items|
      invariant 0 <= i <= |items|
      invariant s.succeeded == old(s.succeeded) + items[..i]
      invariant s.warning == old(s.warning) && s.failed == old(s.failed)
    {
      s.AddSucceeded(items[i]);
      assert items[..i + 1] == items[..i] + [items[i]];
      i := i + 1;
    }
    assert items[..i] == items;
  }

  /** The loop failing every input with one message. */
  method AddAllFailed<I>(s: StepResults<I, I>, items: seq<I>, message: string)
    modifies s
    ensures s.failed == old(s.failed) + AllFailed(items, message)
    ensures s.succeeded == old(s.succeeded) && s.warning == old(s.warning)
  {
    var i := 0;
    while i < |items|
      invariant 0 <= i <= |items|
      invariant s.failed == old(s.failed) + AllFailed(items[..i], message)
      invariant s.succeeded == old(s.succeeded) && s.warning == old(s.warning)
    {
      s.AddFailed(items[i], message);
      assert items[..i + 1] == items[..i] + [items[i]];
      i := i + 1;
    }
    assert items[..i] == items;
  }

  /** The loop over `error_message_by_index.items()`; `Some(e)` when indexing raised `e`. */
  method AddIndexedFailures<I>(s: StepResults<I, I>, inputs: seq<I>, d: Dict<ErrorKey, string>) returns (e: Option<string>)
    modifies s
    ensures e.None? <==> FailIndexed(inputs, d, false).Ok?
    ensures e.Some? ==> e.value == FailIndexed(inputs, d, false).message
    ensures e.None? ==> s.failed == old(s.failed) + FailIndexed(inputs, d, false).value
    ensures s.succeeded == old(s.succeeded) && s.warning == old(s.warning)
  {
    var j := 0;
    while j < |d|
      invariant 0 <= j <= |d|
      invariant FailIndexed(inputs, d[..j], false).Ok?
      invariant s.failed == old(s.failed) + FailIndexed(inputs, d[..j], false).value
      invariant s.succeeded == old(s.succeeded) && s.warning == old(s.warning)
    {
      assert d[..j + 1][..j] == d[..j];
      var p := Position(d[j].0, |inputs|, false);
      if p.Err? {
        FailIndexedStopsAtError(inputs, d, j + 1, false);
        return Some(p.message);
      }
      s.AddFailed(inputs[p.value], d[j].1);
      j := j + 1;
    }
    assert d[..j] == d;
    return None;
  }

  /** The loop collecting the inputs whose index is not a key of `d`. */
  method RetryList<I>(inputs: seq<I>, d: Dict<ErrorKey, string>) returns (remaining: seq<I>)
    ensures remaining == RetryItems(inputs, KeyPositions(Keys(d)))
  {
    ghost var positions := KeyPositions(Keys(d));
    remaining := [];
    var i := 0;
    while i < |inputs|
      invariant 0 <= i <= |inputs|
      invariant remaining == RetryItems(inputs[..i], positions)
    {
      assert inputs[..i + 1][..i] == inputs[..i];
      assert i in positions <==> IntKey(i) in Keys(d);
      if IntKey(i) !in Keys(d) {
        remaining := remaining + [inputs[i]];
      }
      i := i + 1;
    }
    assert inputs[..i] == inputs;
  }

  /** The loop appending to `to_retry`. */
  method AddAllToRetry<I>(r: RetryableStepResults<I, I>, items: seq<I>)
    modifies r
    ensures r.toRetry == old(r.toRetry) + items
  {
    var k := 0;
    while k < |items|
      invariant 0 <= k <= |items|
      invariant r.toRetry == old(r.toRetry) + items[..k]
    {
      r.AddToRetry(items[k]);
      assert items[..k + 1] == items[..k] + [items[k]];
      k := k + 1;
    }
    assert items[..k] == items;
  }

  /** `AsyncTaskResultProcessor(task).process(inputs)`, filling a fresh `AsyncTaskResults`. */
  method ProcessTask<I>(task: AsyncTask, inputs: seq<I>) returns (r: Result<RetryableStepResults<I, I>>)
    ensures r.Ok? ==> fresh(r.value) && fresh(r.value.results)
    ensures r.Ok? <==> Process(task, inputs).Ok?
    ensures r.Err? ==> r.message == Process(task, inputs).message
    ensures r.Ok? ==> Process(task, inputs) == Ok(Snapshot(r.value))
  {
    var results := new RetryableStepResults<I, I>("AsyncTaskResults");
    var s := results.results;
    if !HasAsyncTaskErrors(task.errors) {
      AddAllSucceeded(s, inputs);
      assert [] + inputs == inputs;
      return Ok(results);
    }
    var parsed := ErrorMessageByIndex(task.errors);
    if parsed.Err? {
      return Err(parsed.message);
    }
    var d := parsed.value;
    if IsSentinel(d) {
      AddAllFailed(s, inputs, task.message);
      assert [] + AllFailed(inputs, task.message) == AllFailed(inputs, task.message);
      assert Process(task, inputs) == Ok(TaskResults([], AllFailed(inputs, task.message), []));
      return Ok(results);
    }
    var e := AddIndexedFailures(s, inputs, d);
    if e.Some? {
      return Err(e.value);
    }
    var fs := FailIndexed(inputs, d, false).value;
    assert s.failed == fs by {
      assert [] + fs == fs;
    }
    var remaining := RetryList(inputs, d);
    AddAllToRetry(results, remaining);
    assert results.toRetry == remaining by {
      assert [] + remaining == remaining;
    }
    assert Process(task, inputs) == Ok(TaskResults([], fs, remaining));
    return Ok(results);
  }

  /**
   * A `BaseAsyncTaskStep`: the name of the results class it initialises, the
   * request it submits for a batch and the outputs read back once a batch
   * has gone through without errors.
   */
  datatype AsyncStep<!I, O> = AsyncStep(
    name: string,
    getTask: seq<I> -> Result<AsyncTask>,
    getSucceededItems: (seq<I>, AsyncTask) -> Result<seq<O>>)

  /**
   * What `BaseAsyncTaskStep.execute(items)` returns, or the exception it
   * raises, with error indices restricted to positions 0..n-1 (`Process`):
   * a negative error index raises here, where the code as written fails that
   * item and re-submits it (see `ProcessAsWritten`).
   */
  function ExecuteSpec<I, O>(step: AsyncStep<I, O>, items: seq<I>): (r: Result<StepReport<O, I>>)
    ensures r.Ok? ==> r.value.name == step.name && r.value.warning == []
    ensures items == [] ==> r == Ok(EmptyReport(step.name))
    decreases |items|
  {
    if items == [] then Ok(EmptyReport(step.name))
    else
      match step.getTask(items)
      case Err(e) => Err(e)
      case Ok(task) =>
        match Process(task, items)
        case Err(e) => Err(e)
        case Ok(tr) =>
          if tr.failed != [] then
            match ExecuteSpec(step, tr.toRetry)
            case Err(e) => Err(e)
            case Ok(rr) => Ok(StepReport(step.name, rr.succeeded, [], tr.failed + rr.failed))
          else
            match step.getSucceededItems(items, task)
            case Err(e) => Err(e)
            case Ok(outs) => Ok(StepReport(step.name, outs, [], []))
  }

  /** The batches `execute` submits through `get_task`, in order. */
  function Batches<I, O>(step: AsyncStep<I, O>, items: seq<I>): (r: seq<seq<I>>)
    decreases |items|
  {
    if items == [] then []
    else
      match step.getTask(items)
      case Err(_) => [items]
      case Ok(task) =>
        match Process(task, items)
        case Ok(tr) =>
          if tr.failed != [] then [items] + Batches(step, tr.toRetry) else [items]
        case Err(_) => [items]
  }

  /**
   * Retrying terminates: the first batch is the whole input, and every
   * retried batch is strictly shorter than the one before it, so there are at
   * most `|items|` of them.
   */
  lemma {:induction false} BatchesShrink<I, O>(step: AsyncStep<I, O>, items: seq<I>)
    ensures items == [] <==> Batches(step, items) == []
    ensures items != [] ==> Batches(step, items)[0] == items
    ensures forall i :: 0 < i < |Batches(step, items)| ==> |Batches(step, items)[i]| < |Batches(step, items)[i - 1]|
    ensures forall i :: 0 <= i < |Batches(step, items)| ==> Batches(step, items)[i] != []
    ensures |Batches(step, items)| <= |items|
    decreases |items|
  {
    if items != [] {
      var bs := Batches(step, items);
      match step.getTask(items)
      case Err(_) =>
      case Ok(task) =>
        match Process(task, items)
        case Err(_) =>
        case Ok(tr) =>
          if tr.failed != [] {
            BatchesShrink(step, tr.toRetry);
            var rest := Batches(step, tr.toRetry);
            assert bs == [items] + rest;
            if rest != [] {
              assert rest[0] == tr.toRetry;
            }
            forall i | 0 < i < |bs|
              ensures |bs[i]| < |bs[i - 1]|
            {
              assert bs[i] == rest[i - 1];
              if i > 1 {
                assert bs[i - 1] == rest[i - 2];
              }
            }
          }
    }
  }

  /** A step whose `get_succeeded_items` returns one output per input item. */
  ghost predicate OneOutputPerItem<I(!new), O>(step: AsyncStep<I, O>) {
    forall xs: seq<I>, task: AsyncTask :: step.getSucceededItems(xs, task).Ok? ==> |step.getSucceededItems(xs, task).value| == |xs|
  }

  /** Every input ends up succeeded or failed exactly once, retries included. */
  lemma {:induction false} ExecuteAccounts<I(!new), O>(step: AsyncStep<I, O>, items: seq<I>)
    requires OneOutputPerItem(step)
    ensures ExecuteSpec(step, items).Ok? ==>
      |ExecuteSpec(step, items).value.succeeded| + |ExecuteSpec(step, items).value.failed| == |items|
    decreases |items|
  {
    if items != [] {
      match step.getTask(items)
      case Err(_) =>
      case Ok(task) =>
        match Process(task, items)
        case Err(_) =>
        case Ok(tr) =>
          if tr.failed != [] {
            ExecuteAccounts(step, tr.toRetry);
          }
    }
  }

  /** Every item left for retry is one of the inputs. */
  lemma {:induction false} RetryItemsMembers<I>(inputs: seq<I>, s: set<int>)
    ensures forall x :: x in RetryItems(inputs, s) ==> x in inputs
    decreases |inputs|
  {
    if inputs != [] {
      RetryItemsMembers(inputs[..|inputs| - 1], s);
    }
  }

  /** A round sorts its own inputs: all succeed or none, and failures and retries are inputs. */
  lemma ProcessMembers<I>(task: AsyncTask, inputs: seq<I>)
    requires Process(task, inputs).Ok?
    ensures Process(task, inputs).value.succeeded == inputs || Process(task, inputs).value.succeeded == []
    ensures forall f :: f in Process(task, inputs).value.failed ==> f.payload in inputs
    ensures forall x :: x in Process(task, inputs).value.toRetry ==> x in inputs
  {
    var tr := Process(task, inputs).value;
    if HasAsyncTaskErrors(task.errors) {
      var d := ErrorMessageByIndex(task.errors).value;
      if !IsSentinel(d) {
        RetryItemsMembers(inputs, KeyPositions(Keys(d)));
      }
      forall f | f in tr.failed
        ensures f.payload in inputs
      {
        var i :| 0 <= i < |tr.failed| && tr.failed[i] == f;
      }
    }
  }

  /**
   * Every failure, retries included, is of one of the items, and the successes
   * are the outputs read back for one batch of them.
   */
  lemma {:induction false} ExecuteMembers<I, O>(step: AsyncStep<I, O>, items: seq<I>)
    requires ExecuteSpec(step, items).Ok?
    ensures forall f :: f in ExecuteSpec(step, items).value.failed ==> f.payload in items
    ensures ExecuteSpec(step, items).value.succeeded == [] ||
      exists b: seq<I>, task: AsyncTask :: (forall x :: x in b ==> x in items) &&
        step.getSucceededItems(b, task) == Ok(ExecuteSpec(step, items).value.succeeded)
    decreases |items|
  {
    if items != [] {
      var task := step.getTask(items).value;
      var tr := Process(task, items).value;
      ProcessMembers(task, items);
      if tr.failed != [] {
        ExecuteMembers(step, tr.toRetry);
        var rr := ExecuteSpec(step, tr.toRetry).value;
        assert ExecuteSpec(step, items).value.succeeded == rr.succeeded;
        if rr.succeeded != [] {
          var b: seq<I>, t: AsyncTask :| (forall x :: x in b ==> x in tr.toRetry) && step.getSucceededItems(b, t) == Ok(rr.succeeded);
          assert forall x :: x in b ==> x in items;
        }
      }
    }
  }

  /** Every batch submitted is made of the items. */
  lemma {:induction false} BatchesMembers<I, O>(step: AsyncStep<I, O>, items: seq<I>)
    ensures forall k, x :: 0 <= k < |Batches(step, items)| && x in Batches(step, items)[k] ==> x in items
    decreases |items|
  {
    if items != [] {
      match step.getTask(items)
      case Err(_) =>
      case Ok(task) =>
        match Process(task, items)
        case Err(_) =>
        case Ok(tr) =>
          if tr.failed != [] {
            ProcessMembers(task, items);
            BatchesMembers(step, tr.toRetry);
            var bs := Batches(step, items);
            assert bs == [items] + Batches(step, tr.toRetry);
            forall k, x | 0 <= k < |bs| && x in bs[k]
              ensures x in items
            {
              if k > 0 {
                assert bs[k] == Batches(step, tr.toRetry)[k - 1];
              }
            }
          }
    }
  }

  /**
   * The failures of the first round come first, ahead of those of the
   * retries, and a round that fails nothing is the last one.
   */
  lemma FirstRoundFailuresFirst<I, O>(step: AsyncStep<I, O>, items: seq<I>, task: AsyncTask)
    requires items != [] && step.getTask(items) == Ok(task)
    requires Process(task, items).Ok?
    requires ExecuteSpec(step, items).Ok?
    ensures Process(task, items).value.failed <= ExecuteSpec(step, items).value.failed
    ensures Process(task, items).value.failed == [] ==>
      step.getSucceededItems(items, task).Ok? &&
      ExecuteSpec(step, items).value.succeeded == step.getSucceededItems(items, task).value
  {
  }

  /** `BaseAsyncTaskStep.execute`, returning the results and the batches submitted. */
  method Execute<I, O>(step: AsyncStep<I, O>, items: seq<I>) returns (r: Result<StepResults<O, I>>, ghost batches: seq<seq<I>>)
    ensures r.Ok? ==> fresh(r.value)
    ensures r.Ok? <==> ExecuteSpec(step, items).Ok?
    ensures r.Err? ==> r.message == ExecuteSpec(step, items).message
    ensures r.Ok? ==> r.value.Report() == ExecuteSpec(step, items).value
    ensures batches == Batches(step, items)
    decreases |items|
  {
    var results := new StepResults<O, I>(step.name);
    if |items| == 0 {
      return Ok(results), [];
    }
    var task := step.getTask(items);
    if task.Err? {
      return Err(task.message), [items];
    }
    var processed := ProcessTask(task.value, items);
    if processed.Err? {
      return Err(processed.message), [items];
    }
    ghost var tr := Process(task.value, items).value;
    var failed := processed.value.results.failed;
    var toRetry := processed.value.toRetry;
    assert failed == tr.failed && toRetry == tr.toRetry;
    if |failed| > 0 {
      results.ExtendFailed(failed);
      assert results.failed == failed && results.succeeded == [] by {
        assert [] + failed == failed;
      }
      var retry, more := Execute(step, toRetry);
      if retry.Err? {
        return Err(retry.message), [items] + more;
      }
      ghost var rr := ExecuteSpec(step, toRetry).value;
      var retried := retry.value;
      assert retried.Report() == rr;
      var moreSucceeded := retried.succeeded;
      var moreFailed := retried.failed;
      assert moreSucceeded == rr.succeeded && moreFailed == rr.failed;
      results.ExtendSucceeded(moreSucceeded);
      results.ExtendFailed(moreFailed);
      assert results.succeeded == rr.succeeded by {
        assert [] + moreSucceeded == moreSucceeded;
      }
      assert results.failed == tr.failed + rr.failed;
      assert ExecuteSpec(step, items) == Ok(StepReport(step.name, rr.succeeded, [], tr.failed + rr.failed));
      return Ok(results), [items] + more;
    }
    var outs := step.getSucceededItems(items, task.value);
    if outs.Err? {
      return Err(outs.message), [items];
    }
    AddAllSucceeded(results, outs.value);
    assert [] + outs.value == outs.value;
    return Ok(results), [items];
  }
}

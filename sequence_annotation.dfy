/**
 * The provenance chain: each step wraps the item it received in a record that
 * points to it as `previous`, and the record's properties delegate down the
 * chain to the record that introduced the value. Also the merge of the step
 * results into the flow result.
 */
module SequenceAnnotation {
  import opened Wrappers
  import opened Values
  import opened Models
  import opened BenchlingFields
  import opened FlowBase

  /** `DnaSequenceAnalysis`. */
  datatype Analysis = Analysis(imgtVersion: Option<string>, imgtData: Option<Row>, kabatData: Option<Row>)

  /** One record per step result dataclass; `previous` is the record of the step before. */
  datatype Item =
    | EventValidationResult(event: Event, dnaSchemaType: Option<DnaSchemaType>)
    | GetDnaSequenceResult(previous: Item, dnaSequence: Option<DnaSequence>)
    | GetSpeciesResult(previous: Item, species: string)
    | IgBlastExecutionResult(previous: Item, analysis: Analysis)
    | CreateAaSequenceResult(previous: Item, aaSequenceRequest: AaSequenceRequest, aaSequence: AaSequence)
    | FillTranslationResult(previous: Item)
    | CreateGermlineAlignmentSequenceResult(previous: Item, germlineAlignmentSequence: Option<DnaSequence>)
    | CreateNucleotideTemplateAlignmentResult(previous: Item)
  {
    /** The position of the record's class in the chain. */
    function Stage(): nat {
      match this
      case EventValidationResult(_, _) => 0
      case GetDnaSequenceResult(_, _) => 1
      case GetSpeciesResult(_, _) => 2
      case IgBlastExecutionResult(_, _) => 3
      case CreateAaSequenceResult(_, _, _) => 4
      case FillTranslationResult(_) => 5
      case CreateGermlineAlignmentSequenceResult(_, _) => 6
      case CreateNucleotideTemplateAlignmentResult(_) => 7
    }

    /** Every `previous` has the type the dataclass declares: the record of the stage before. */
    predicate Valid()
      decreases this
    {
      Stage() == 0 || (previous.Stage() + 1 == Stage() && previous.Valid())
    }

    /** The record of stage `k` further down the chain. */
    function Ancestor(k: nat): (r: Item)
      requires Valid() && k <= Stage()
      ensures r.Valid() && r.Stage() == k
      decreases this
    {
      if k == Stage() then this else previous.Ancestor(k)
    }

    /** The `event` property, defined on every record. */
    function GetEvent(): Event
      requires Valid()
      decreases this
    {
      if EventValidationResult? then event else previous.GetEvent()
    }

    /** The `dna_schema_type` property, defined up to `CreateAaSequenceResult`. */
    function GetDnaSchemaType(): Option<DnaSchemaType>
      requires Valid() && Stage() <= 4
      decreases this
    {
      if EventValidationResult? then dnaSchemaType else previous.GetDnaSchemaType()
    }

    /** The `dna_sequence` property, defined from `GetDnaSequenceResult` on. */
    function GetDnaSequence(): Option<DnaSequence>
      requires Valid() && 1 <= Stage()
      decreases this
    {
      if GetDnaSequenceResult? then dnaSequence else previous.GetDnaSequence()
    }

    /** The `analysis` property, defined from `IgBlastExecutionResult` to `CreateGermlineAlignmentSequenceResult`. */
    function GetAnalysis(): Analysis
      requires Valid() && 3 <= Stage() <= 6
      decreases this
    {
      if IgBlastExecutionResult? then analysis else previous.GetAnalysis()
    }

    /** The `aa_sequence` property, defined from `CreateAaSequenceResult` on. */
    function GetAaSequence(): AaSequence
      requires Valid() && 4 <= Stage()
      decreases this
    {
      if CreateAaSequenceResult? then aaSequence else previous.GetAaSequence()
    }
  }

  /** The items a step receives: well-formed records of the class its signature names. */
  predicate AtStage(items: seq<Item>, k: nat) {
    forall i :: 0 <= i < |items| ==> items[i].Valid() && items[i].Stage() == k
  }

  /** Every record of the list is a well-formed record of class `k`. */
  lemma MembersAtStage(xs: seq<Item>, k: nat)
    requires forall x :: x in xs ==> x.Valid() && x.Stage() == k
    ensures AtStage(xs, k)
  {
    forall i | 0 <= i < |xs|
      ensures xs[i].Valid() && xs[i].Stage() == k
    {
      assert xs[i] in xs;
    }
  }

  /** `event` on every record is the event of the root `EventValidationResult`. */
  lemma {:induction false} EventIsRoot(x: Item)
    requires x.Valid()
    ensures x.Ancestor(0).EventValidationResult?
    ensures x.GetEvent() == x.Ancestor(0).event
    decreases x
  {
    if x.Stage() > 0 {
      EventIsRoot(x.previous);
    }
  }

  /** `dna_schema_type` is the one the validation step decided. */
  lemma {:induction false} DnaSchemaTypeIsRoot(x: Item)
    requires x.Valid() && x.Stage() <= 4
    ensures x.Ancestor(0).EventValidationResult?
    ensures x.GetDnaSchemaType() == x.Ancestor(0).dnaSchemaType
    decreases x
  {
    if x.Stage() > 0 {
      DnaSchemaTypeIsRoot(x.previous);
    }
  }

  /** `dna_sequence` on every later record is the one `GetDnaSequenceResult` fetched. */
  lemma {:induction false} DnaSequenceIsFetched(x: Item)
    requires x.Valid() && 1 <= x.Stage()
    ensures x.Ancestor(1).GetDnaSequenceResult?
    ensures x.GetDnaSequence() == x.Ancestor(1).dnaSequence
    decreases x
  {
    if x.Stage() > 1 {
      DnaSequenceIsFetched(x.previous);
    }
  }

  /** `analysis` on every later record is the one `IgBlastExecutionResult` holds. */
  lemma {:induction false} AnalysisIsBlasted(x: Item)
    requires x.Valid() && 3 <= x.Stage() <= 6
    ensures x.Ancestor(3).IgBlastExecutionResult?
    ensures x.GetAnalysis() == x.Ancestor(3).analysis
    decreases x
  {
    if x.Stage() > 3 {
      AnalysisIsBlasted(x.previous);
    }
  }

  /** `aa_sequence` on every later record is the one `CreateAaSequenceResult` holds. */
  lemma {:induction false} AaSequenceIsCreated(x: Item)
    requires x.Valid() && 4 <= x.Stage()
    ensures x.Ancestor(4).CreateAaSequenceResult?
    ensures x.GetAaSequence() == x.Ancestor(4).aaSequence
    decreases x
  {
    if x.Stage() > 4 {
      AaSequenceIsCreated(x.previous);
    }
  }

  /** The class name `merge` instantiates. */
  const FlowResultsName: string := "SequenceAnnotationBulkFlowResults"

  /** Each result re-issued with its message prefixed by `<name>: `. */
  function Prefixed<F>(name: string, rs: seq<StepFailedResult<F>>): (r: seq<StepFailedResult<F>>)
    ensures |r| == |rs|
    ensures forall i :: 0 <= i < |rs| ==>
      r[i] == StepFailedResult(rs[i].payload, name + ": " + rs[i].errorMessage)
    decreases |rs|
  {
    if rs == [] then []
    else
      var last := rs[|rs| - 1];
      Prefixed(name, rs[..|rs| - 1]) + [StepFailedResult(last.payload, name + ": " + last.errorMessage)]
  }

  /** The warnings of all steps, in step order, each prefixed by its step's name. */
  function AllWarnings<R, F>(steps: seq<StepReport<R, F>>): seq<StepFailedResult<F>>
    decreases |steps|
  {
    if steps == [] then []
    else
      var last := steps[|steps| - 1];
      AllWarnings(steps[..|steps| - 1]) + Prefixed(last.name, last.warning)
  }

  /** The failures of all steps, in step order, each prefixed by its step's name. */
  function AllFailures<R, F>(steps: seq<StepReport<R, F>>): seq<StepFailedResult<F>>
    decreases |steps|
  {
    if steps == [] then []
    else
      var last := steps[|steps| - 1];
      AllFailures(steps[..|steps| - 1]) + Prefixed(last.name, last.failed)
  }

  /** `SequenceAnnotationBulkFlowResults.merge`. */
  function MergeSpec<R, F>(steps: seq<StepReport<R, F>>): StepReport<R, F>
    requires |steps| > 0
  {
    StepReport(FlowResultsName, steps[|steps| - 1].succeeded, AllWarnings(steps), AllFailures(steps))
  }

  /** The number of warnings over all steps. */
  function WarningCount<R, F>(steps: seq<StepReport<R, F>>): nat
    decreases |steps|
  {
    if steps == [] then 0 else WarningCount(steps[..|steps| - 1]) + |steps[|steps| - 1].warning|
  }

  /** The number of failures over all steps. */
  function FailureCount<R, F>(steps: seq<StepReport<R, F>>): nat
    decreases |steps|
  {
    if steps == [] then 0 else FailureCount(steps[..|steps| - 1]) + |steps[|steps| - 1].failed|
  }

  /** The merged warning and failed counts are the sums of the per-step counts. */
  lemma {:induction false} MergeCounts<R, F>(steps: seq<StepReport<R, F>>)
    ensures |AllWarnings(steps)| == WarningCount(steps)
    ensures |AllFailures(steps)| == FailureCount(steps)
    decreases |steps|
  {
    if steps != [] {
      MergeCounts(steps[..|steps| - 1]);
    }
  }

  /** Merging steps `a` then `b` concatenates their prefixed warnings. */
  lemma {:induction false} MergeAppendWarnings<R, F>(a: seq<StepReport<R, F>>, b: seq<StepReport<R, F>>)
    ensures AllWarnings(a + b) == AllWarnings(a) + AllWarnings(b)
    decreases |b|
  {
    if b == [] {
      assert a + b == a;
    } else {
      var init, last := b[..|b| - 1], b[|b| - 1];
      assert b == init + [last];
      assert a + b == (a + init) + [last];
      AllWarningsSnoc(a + init, last);
      AllWarningsSnoc(init, last);
      MergeAppendWarnings(a, init);
      ConcatAssoc(AllWarnings(a), AllWarnings(init), Prefixed(last.name, last.warning));
    }
  }

  /**
   * Associativity of concatenation on generic sequences, so that the solver
   * does not unfold the merged lists into it.
   */
  lemma ConcatAssoc<T>(x: seq<T>, y: seq<T>, z: seq<T>)
    ensures (x + y) + z == x + (y + z)
  {
  }

  /** One more step appends its prefixed warning entries. */
  lemma AllWarningsSnoc<R, F>(steps: seq<StepReport<R, F>>, last: StepReport<R, F>)
    ensures AllWarnings(steps + [last]) == AllWarnings(steps) + Prefixed(last.name, last.warning)
  {
    assert (steps + [last])[..|steps|] == steps;
  }

  /** Merging steps `a` then `b` concatenates their prefixed failures. */
  lemma {:induction false} MergeAppendFailures<R, F>(a: seq<StepReport<R, F>>, b: seq<StepReport<R, F>>)
    ensures AllFailures(a + b) == AllFailures(a) + AllFailures(b)
    decreases |b|
  {
    if b == [] {
      assert a + b == a;
    } else {
      var init, last := b[..|b| - 1], b[|b| - 1];
      assert b == init + [last];
      assert a + b == (a + init) + [last];
      AllFailuresSnoc(a + init, last);
      AllFailuresSnoc(init, last);
      MergeAppendFailures(a, init);
      ConcatAssoc(AllFailures(a), AllFailures(init), Prefixed(last.name, last.failed));
    }
  }

  /** One more step appends its prefixed failed entries. */
  lemma AllFailuresSnoc<R, F>(steps: seq<StepReport<R, F>>, last: StepReport<R, F>)
    ensures AllFailures(steps + [last]) == AllFailures(steps) + Prefixed(last.name, last.failed)
  {
    assert (steps + [last])[..|steps|] == steps;
  }

  /** A single step's merged result keeps its succeeded list and prefixes every message. */
  lemma MergeOne<R, F>(step: StepReport<R, F>)
    ensures MergeSpec([step]) == StepReport(FlowResultsName, step.succeeded, Prefixed(step.name, step.warning), Prefixed(step.name, step.failed))
  {
    assert [step][..0] == [];
    assert AllWarnings([step]) == [] + Prefixed(step.name, step.warning);
    assert AllFailures([step]) == [] + Prefixed(step.name, step.failed);
  }

  /** The inner loop of `merge` over one step's warnings. */
  method AddPrefixedWarnings<R, F>(results: StepResults<R, F>, name: string, ws: seq<StepFailedResult<F>>)
    modifies results
    ensures results.warning == old(results.warning) + Prefixed(name, ws)
    ensures results.succeeded == old(results.succeeded) && results.failed == old(results.failed)
  {
    var j := 0;
    while j < |ws|
      invariant 0 <= j <= |ws|
      invariant results.warning == old(results.warning) + Prefixed(name, ws[..j])
      invariant results.succeeded == old(results.succeeded) && results.failed == old(results.failed)
    {
      assert ws[..j + 1][..j] == ws[..j];
      results.AddWarning(ws[j].payload, name + ": " + ws[j].errorMessage);
      j := j + 1;
    }
    assert ws[..j] == ws;
  }

  /** The inner loop of `merge` over one step's failures. */
  method AddPrefixedFailures<R, F>(results: StepResults<R, F>, name: string, fs: seq<StepFailedResult<F>>)
    modifies results
    ensures results.failed == old(results.failed) + Prefixed(name, fs)
    ensures results.succeeded == old(results.succeeded) && results.warning == old(results.warning)
  {
    var j := 0;
    while j < |fs|
      invariant 0 <= j <= |fs|
      invariant results.failed == old(results.failed) + Prefixed(name, fs[..j])
      invariant results.succeeded == old(results.succeeded) && results.warning == old(results.warning)
    {
      assert fs[..j + 1][..j] == fs[..j];
      results.AddFailed(fs[j].payload, name + ": " + fs[j].errorMessage);
      j := j + 1;
    }
    assert fs[..j] == fs;
  }

  /** `merge` as written: a fresh accumulator filled step by step, then the last step's succeeded. */
  method Merge<R, F>(steps: seq<StepReport<R, F>>) returns (results: StepResults<R, F>)
    requires |steps| > 0
    ensures fresh(results)
    ensures results.Report() == MergeSpec(steps)
  {
    results := new StepResults(FlowResultsName);
    var i := 0;
    while i < |steps|
      invariant 0 <= i <= |steps|
      invariant results.name == FlowResultsName && results.succeeded == []
      invariant results.warning == AllWarnings(steps[..i])
      invariant results.failed == AllFailures(steps[..i])
    {
      var step := steps[i];
      assert steps[..i + 1][..i] == steps[..i];
      assert steps[..i + 1][i] == step;
      AddPrefixedWarnings(results, step.name, step.warning);
      AddPrefixedFailures(results, step.name, step.failed);
      i := i + 1;
    }
    assert steps[..i] == steps;
    var last := steps[|steps| - 1].succeeded;
    var k := 0;
    while k < |last|
      invariant 0 <= k <= |last|
      invariant results.name == FlowResultsName
      invariant results.succeeded == last[..k]
      invariant results.warning == AllWarnings(steps) && results.failed == AllFailures(steps)
    {
      results.AddSucceeded(last[k]);
      k := k + 1;
    }
    assert last[..k] == last;
  }
}

/**
 * `SequenceAnnotationBulkFlow.execute`: the nine steps run in a fixed order,
 * each on what the previous one let through, until one lets nothing through;
 * their results are merged and the session status is decided from the counts.
 */
module SequenceAnnotationFlow {
  import opened Wrappers
  import opened Values
  import opened Models
  import opened FlowBase
  import opened SequenceAnnotation
  import ValidateEvents
  import GetDnaSequences
  import GetSpecies
  import ExecuteIgBlast
  import ExcludeStopCodons
  import CreateAaSequences
  import FillTranslations
  import CreateGermlineAlignmentSequences
  import CreateNucleotideTemplateAlignment

  /** The number of steps of the flow. */
  const StepCount: nat := 9

  /** The steps' labels, in the order the flow runs them. */
  const Labels: seq<string> := [
    ValidateEvents.Label, GetDnaSequences.Label, GetSpecies.Label, ExecuteIgBlast.Label,
    ExcludeStopCodons.Label, CreateAaSequences.Label, FillTranslations.Label,
    CreateGermlineAlignmentSequences.Label, CreateNucleotideTemplateAlignment.Label]

  /** The steps' result class names, in the same order. */
  const ResultsNames: seq<string> := [
    ValidateEvents.ResultsName, GetDnaSequences.ResultsName, GetSpecies.ResultsName, ExecuteIgBlast.ResultsName,
    ExcludeStopCodons.ResultsName, CreateAaSequences.ResultsName, FillTranslations.ResultsName,
    CreateGermlineAlignmentSequences.ResultsName, CreateNucleotideTemplateAlignment.ResultsName]

  /**
   * The record class step `k` (counted from 0, the validation) receives from
   * the step before: stop-codon exclusion passes its records on unchanged.
   * `InputStage(9)` is the class the last step produces.
   */
  function InputStage(k: nat): nat
    requires 1 <= k <= StepCount
  {
    if k <= 4 then k - 1 else k - 2
  }

  /**
   * What a step answers when handed records of another class than it takes;
   * `RunnerAccounts` and `RunFromNames` show the flow never does so.
   */
  const OutOfOrder: string := "the records are not of the class the step takes"

  /**
   * The `steps` list after the validation: what step `k` (counted from the
   * validation) returns on its input, or the exception it raises.
   */
  function StepOf(services: Services, k: nat, items: seq<Item>): Result<StepReport<Item, Item>> {
    if k == 1 then
      if AtStage(items, 0) then Ok(GetDnaSequences.GetDnaSequencesSpec(services, items)) else Err(OutOfOrder)
    else if k == 2 then
      if AtStage(items, 1) then GetSpecies.GetSpeciesSpec(services, items) else Err(OutOfOrder)
    else if k == 3 then
      if AtStage(items, 2) then ExecuteIgBlast.ExecuteIgBlastSpec(services, items) else Err(OutOfOrder)
    else if k == 4 then
      if AtStage(items, 3) then ExcludeStopCodons.ExcludeStopCodonsSpec(items) else Err(OutOfOrder)
    else if k == 5 then
      if AtStage(items, 3) then Ok(CreateAaSequences.CreateAaSequencesSpec(services, items)) else Err(OutOfOrder)
    else if k == 6 then
      if AtStage(items, 4) then FillTranslations.FillTranslationsSpec(services, items) else Err(OutOfOrder)
    else if k == 7 then
      if AtStage(items, 5) then CreateGermlineAlignmentSequences.CreateGermlineAlignmentSequencesSpec(services, items)
      else Err(OutOfOrder)
    else if k == 8 then
      if AtStage(items, 6) then Ok(CreateNucleotideTemplateAlignment.CreateNucleotideTemplateAlignmentSpec(services, items))
      else Err(OutOfOrder)
    else Err(OutOfOrder)
  }

  /** A step of the flow by its position, counted from the validation. */
  type StepRunner = (nat, seq<Item>) -> Result<StepReport<Item, Item>>

  /** The steps of the flow after the validation, by position. */
  function Runner(services: Services): StepRunner {
    (k: nat, items: seq<Item>) => StepOf(services, k, items)
  }

  /**
   * Each step, given records of the class it takes, accounts for every one of
   * them exactly once and passes on records of the class the next step takes.
   */
  ghost predicate Accounts(run: StepRunner) {
    forall k: nat, items: seq<Item> {:trigger Accounted(k, items, run(k, items))}
      | 1 <= k < StepCount && AtStage(items, InputStage(k)) :: Accounted(k, items, run(k, items))
  }

  /**
   * What `Accounts` asks of step `k` on `items`: it accounts for every input
   * record exactly once, as succeeded, warned or failed, and passes on
   * records of the class the next step takes.
   */
  ghost predicate Accounted(k: nat, items: seq<Item>, r: Result<StepReport<Item, Item>>)
    requires 1 <= k < StepCount
  {
    r.Ok? ==>
      r.value.name == ResultsNames[k] &&
      |r.value.succeeded| + |r.value.warning| + |r.value.failed| == |items| &&
      AtStage(r.value.succeeded, InputStage(k + 1))
  }

  lemma GetDnaSequencesAccounted(services: Services, items: seq<Item>)
    requires AtStage(items, 0)
    ensures Accounted(1, items, Ok(GetDnaSequences.GetDnaSequencesSpec(services, items)))
  {
    var r := GetDnaSequences.GetDnaSequencesSpec(services, items);
    assert InputStage(2) == 1;
    assert AtStage(r.succeeded, 1);
  }

  lemma GetSpeciesAccounted(services: Services, items: seq<Item>)
    requires AtStage(items, 1)
    ensures Accounted(2, items, GetSpecies.GetSpeciesSpec(services, items))
  {
    var r := GetSpecies.GetSpeciesSpec(services, items);
    assert InputStage(3) == 2;
    if r.Ok? {
      GetSpecies.GetSpeciesAccounts(services, items);
      MembersAtStage(r.value.succeeded, 2);
    }
  }

  lemma ExecuteIgBlastAccounted(services: Services, items: seq<Item>)
    requires AtStage(items, 2)
    ensures Accounted(3, items, ExecuteIgBlast.ExecuteIgBlastSpec(services, items))
  {
    match ExecuteIgBlast.ExecuteIgBlastSpec(services, items)
    case Err(_) =>
    case Ok(v) =>
      assert InputStage(4) == 3;
      ExecuteIgBlastName();
      ExecuteIgBlastPassesOn(services, items, v);
  }

  /** The name of the fourth step's results. */
  lemma ExecuteIgBlastName()
    ensures ResultsNames[3] == ExecuteIgBlast.ResultsName
  {
  }

  lemma ExecuteIgBlastPassesOn(services: Services, items: seq<Item>, v: StepReport<Item, Item>)
    requires AtStage(items, 2) && ExecuteIgBlast.ExecuteIgBlastSpec(services, items) == Ok(v)
    ensures v.name == ExecuteIgBlast.ResultsName && |v.succeeded| + |v.warning| + |v.failed| == |items|
    ensures AtStage(v.succeeded, 3)
  {
    var outs := ExecuteIgBlast.StepOutcomes(services, items).value;
    assert v == Route(ExecuteIgBlast.ResultsName, outs);
    ExecuteIgBlast.StepOutcomesAbout(services, items);
    ExecuteIgBlast.AboutReport(items, outs);
    ExecuteIgBlast.AboutReportStage(items, outs);
  }

  lemma ExcludeStopCodonsAccounted(items: seq<Item>)
    requires AtStage(items, 3)
    ensures Accounted(4, items, ExcludeStopCodons.ExcludeStopCodonsSpec(items))
  {
    var r := ExcludeStopCodons.ExcludeStopCodonsSpec(items);
    assert InputStage(5) == 3;
    if r.Ok? {
      ExcludeStopCodons.ExcludeStopCodonsPartition(items);
    }
  }

  lemma CreateAaSequencesAccounted(services: Services, items: seq<Item>)
    requires AtStage(items, 3)
    ensures Accounted(5, items, Ok(CreateAaSequences.CreateAaSequencesSpec(services, items)))
  {
    var r := CreateAaSequences.CreateAaSequencesSpec(services, items);
    assert InputStage(6) == 4;
    CreateAaSequences.CreateAaSequencesAccounts(services, items);
    MembersAtStage(r.succeeded, 4);
  }

  lemma FillTranslationsAccounted(services: Services, items: seq<Item>)
    requires AtStage(items, 4)
    ensures Accounted(6, items, FillTranslations.FillTranslationsSpec(services, items))
  {
    var r := FillTranslations.FillTranslationsSpec(services, items);
    assert InputStage(7) == 5;
    if r.Ok? {
      FillTranslations.FillTranslationsAccounts(services, items);
      FillTranslations.FillTranslationsSucceeded(services, items);
      MembersAtStage(r.value.succeeded, 5);
    }
  }

  lemma CreateGermlineAlignmentSequencesAccounted(services: Services, items: seq<Item>)
    requires AtStage(items, 5)
    ensures Accounted(7, items, CreateGermlineAlignmentSequences.CreateGermlineAlignmentSequencesSpec(services, items))
  {
    var r := CreateGermlineAlignmentSequences.CreateGermlineAlignmentSequencesSpec(services, items);
    assert InputStage(8) == 6;
    if r.Ok? {
      CreateGermlineAlignmentSequences.CreateGermlineAlignmentSequencesAccounts(services, items);
      MembersAtStage(r.value.succeeded, 6);
    }
  }

  lemma CreateNucleotideTemplateAlignmentAccounted(services: Services, items: seq<Item>)
    requires AtStage(items, 6)
    ensures Accounted(8, items, Ok(CreateNucleotideTemplateAlignment.CreateNucleotideTemplateAlignmentSpec(services, items)))
  {
    var r := CreateNucleotideTemplateAlignment.CreateNucleotideTemplateAlignmentSpec(services, items);
    assert InputStage(9) == 7;
    CreateNucleotideTemplateAlignment.CreateNucleotideTemplateAlignmentAccounts(services, items);
    MembersAtStage(r.succeeded, 7);
  }

  /** `run` runs the steps of the flow as `StepOf` defines them. */
  ghost predicate Implements(services: Services, run: StepRunner) {
    forall k: nat, items: seq<Item> {:trigger StepOf(services, k, items)} :: run(k, items) == StepOf(services, k, items)
  }

  lemma RunnerImplements(services: Services)
    ensures Implements(services, Runner(services))
  {
    forall k: nat, items: seq<Item>
      ensures Runner(services)(k, items) == StepOf(services, k, items)
    {
    }
  }

  /** A runner of the flow's steps keeps the accounts `Accounts` asks for. */
  lemma ImplementsAccounts(services: Services, run: StepRunner)
    requires Implements(services, run)
    ensures Accounts(run)
  {
    forall k: nat, items: seq<Item> | 1 <= k < StepCount && AtStage(items, InputStage(k))
      ensures Accounted(k, items, run(k, items))
    {
      StepAccounted(services, k, items);
    }
  }

  /** Every step of the flow keeps the accounts `Accounts` asks for. */
  lemma RunnerAccounts(services: Services)
    ensures Accounts(Runner(services))
  {
    RunnerImplements(services);
    ImplementsAccounts(services, Runner(services));
  }

  /** Step `k` keeps the accounts on records of the class it takes. */
  lemma StepAccounted(services: Services, k: nat, items: seq<Item>)
    requires 1 <= k < StepCount && AtStage(items, InputStage(k))
    ensures Accounted(k, items, StepOf(services, k, items))
  {
    if k == 1 {
      GetDnaSequencesAccounted(services, items);
    } else if k == 2 {
      GetSpeciesAccounted(services, items);
    } else if k == 3 {
      ExecuteIgBlastAccounted(services, items);
    } else if k == 4 {
      ExcludeStopCodonsAccounted(items);
    } else if k == 5 {
      CreateAaSequencesAccounted(services, items);
    } else if k == 6 {
      FillTranslationsAccounted(services, items);
    } else if k == 7 {
      CreateGermlineAlignmentSequencesAccounted(services, items);
    } else {
      CreateNucleotideTemplateAlignmentAccounted(services, items);
    }
  }

  /**
   * The results of steps `k` onwards on `items`: a step whose `succeeded` is
   * empty is recorded and ends the flow, and an exception ends it at once.
   */
  function RunFrom(run: StepRunner, k: nat, items: seq<Item>): Result<seq<StepReport<Item, Item>>>
    decreases StepCount - k
  {
    if k >= StepCount then Ok([])
    else
      var r :- run(k, items);
      if r.succeeded == [] then Ok([r])
      else
        var rest :- RunFrom(run, k + 1, r.succeeded);
        Ok([r] + rest)
  }

  /** The step results of the loop once the validation has returned `first`. */
  function RunAll(run: StepRunner, first: StepReport<Item, Item>): Result<seq<StepReport<Item, Item>>> {
    if first.succeeded == [] then Ok([first])
    else
      var rest :- RunFrom(run, 1, first.succeeded);
      Ok([first] + rest)
  }

  /** `step_results` once the loop is over, or the exception a step raised. */
  function FlowSteps(services: Services, events: seq<Event>): Result<seq<StepReport<Item, Item>>> {
    RunAll(Runner(services), ValidateEvents.ValidateSpec(services.config, events))
  }

  /** The results `SequenceAnnotationBulkFlow.execute(events)` returns, or the exception it raises. */
  function FlowSpec(services: Services, events: seq<Event>): Result<StepReport<Item, Item>> {
    var steps :- FlowSteps(services, events);
    if steps == [] then Ok(EmptyReport(FlowResultsName)) else Ok(MergeSpec(steps))
  }

  // Session status

  /** `AppSessionUpdateStatus`, for the three values the flow sets. */
  datatype SessionStatus = StatusFailed | StatusCompletedWithWarnings | StatusSucceeded

  /** `AppSessionMessageStyle`, for the three values the flow uses. */
  datatype MessageStyle = StyleError | StyleWarning | StyleSuccess

  /** `_get_flow_status`. */
  function FlowStatus(results: StepReport<Item, Item>): (r: (SessionStatus, MessageStyle))
    ensures r.0 == StatusFailed <==> |results.failed| > 0 && |results.succeeded| == 0
    ensures r.0 == StatusSucceeded <==> |results.failed| == 0 && |results.warning| == 0
    ensures r.1 == match r.0 case StatusFailed => StyleError case StatusCompletedWithWarnings => StyleWarning case StatusSucceeded => StyleSuccess
  {
    if |results.failed| > 0 then
      if |results.succeeded| == 0 then (StatusFailed, StyleError)
      else (StatusCompletedWithWarnings, StyleWarning)
    else if |results.warning| > 0 then (StatusCompletedWithWarnings, StyleWarning)
    else (StatusSucceeded, StyleSuccess)
  }

  /** `'<label> (<count>)'`, sent before a step runs. */
  function ProgressMessage(title: string, count: nat): string {
    title + " (" + NatToString(count) + ")"
  }

  /**
   * The progress messages of the executed steps: the first counts the events,
   * each later one the records the step before let through.
   */
  function ProgressMessages(eventCount: nat, steps: seq<StepReport<Item, Item>>): (r: seq<string>)
    requires |steps| <= StepCount
    ensures |r| == |steps|
    ensures |steps| > 0 ==> r[0] == ProgressMessage(Labels[0], eventCount)
    ensures forall i :: 0 < i < |steps| ==> r[i] == ProgressMessage(Labels[i], |steps[i - 1].succeeded|)
  {
    seq(|steps|, i requires 0 <= i < |steps| => ProgressMessage(Labels[i], if i == 0 then eventCount else |steps[i - 1].succeeded|))
  }

  /** Running one more step adds the message counting the records it is given. */
  lemma ProgressMessagesAppend(eventCount: nat, steps: seq<StepReport<Item, Item>>, step: StepReport<Item, Item>)
    requires 0 < |steps| < StepCount
    ensures ProgressMessages(eventCount, steps + [step]) ==
      ProgressMessages(eventCount, steps) + [ProgressMessage(Labels[|steps|], |steps[|steps| - 1].succeeded|)]
  {
    var a := ProgressMessages(eventCount, steps + [step]);
    var b := ProgressMessages(eventCount, steps) + [ProgressMessage(Labels[|steps|], |steps[|steps| - 1].succeeded|)];
    assert |a| == |b|;
    forall i | 0 <= i < |a|
      ensures a[i] == b[i]
    {
      if 0 < i < |steps| {
        assert (steps + [step])[i - 1] == steps[i - 1];
      }
    }
  }

  /**
   * Under `Accounts`, a step that returns reports under its own name, counts
   * each input once and passes on records of the class the next step takes.
   */
  lemma AccountsPassOn(run: StepRunner, k: nat, items: seq<Item>)
    requires Accounts(run)
    requires 1 <= k < StepCount && AtStage(items, InputStage(k)) && run(k, items).Ok?
    ensures run(k, items).value.name == ResultsNames[k]
    ensures |run(k, items).value.succeeded| + |run(k, items).value.warning| + |run(k, items).value.failed| == |items|
    ensures AtStage(run(k, items).value.succeeded, InputStage(k + 1))
  {
    assert Accounted(k, items, run(k, items));
  }

  /** The completion message, with the merged counts. */
  function CompletionMessage(results: StepReport<Item, Item>): string {
    "Flow completed " + NatToString(|results.succeeded|) + " succeeded / " + NatToString(|results.warning|) +
      " warnings / " + NatToString(|results.failed|) + " failed"
  }

  /** How the session is closed: its status, and the style and text of the completion message. */
  datatype Closing = Closing(status: SessionStatus, style: MessageStyle, message: string)

  function ClosingOf(results: StepReport<Item, Item>): Closing {
    Closing(FlowStatus(results).0, FlowStatus(results).1, CompletionMessage(results))
  }

  // Properties

  /**
   * The steps from `k` on are one at least and at most the remaining ones;
   * all but the last of them let something through, and the last lets
   * nothing through unless it is the ninth step.
   */
  lemma {:induction false} RunFromStops(run: StepRunner, k: nat, items: seq<Item>)
    requires k < StepCount && RunFrom(run, k, items).Ok?
    ensures var rs := RunFrom(run, k, items).value;
      1 <= |rs| <= StepCount - k &&
      (forall j :: 0 <= j < |rs| - 1 ==> rs[j].succeeded != []) &&
      (k + |rs| < StepCount ==> rs[|rs| - 1].succeeded == [])
    decreases StepCount - k
  {
    var rs := RunFrom(run, k, items).value;
    var r := run(k, items).value;
    if r.succeeded == [] || k + 1 == StepCount {
      assert rs == [r];
    } else {
      var rest := RunFrom(run, k + 1, r.succeeded).value;
      assert rs == [r] + rest;
      RunFromStops(run, k + 1, r.succeeded);
      forall j | 0 < j < |rs|
        ensures rs[j] == rest[j - 1]
      {
      }
    }
  }

  /** The steps from `k` on report under the names of steps `k`, `k + 1`, and so on. */
  lemma {:induction false} RunFromNames(run: StepRunner, k: nat, items: seq<Item>)
    requires Accounts(run) && 1 <= k < StepCount && AtStage(items, InputStage(k)) && RunFrom(run, k, items).Ok?
    ensures |RunFrom(run, k, items).value| <= StepCount - k
    ensures forall j :: 0 <= j < |RunFrom(run, k, items).value| ==> RunFrom(run, k, items).value[j].name == ResultsNames[k + j]
    decreases StepCount - k
  {
    var rs := RunFrom(run, k, items).value;
    var r := run(k, items).value;
    AccountsPassOn(run, k, items);
    if r.succeeded == [] || k + 1 == StepCount {
      assert rs == [r];
    } else {
      var rest := RunFrom(run, k + 1, r.succeeded).value;
      assert rs == [r] + rest;
      RunFromNames(run, k + 1, r.succeeded);
      NamesShift(r, rest, k);
    }
  }

  /** Reports named from step `k + 1` on, after one named as step `k`, are named from step `k` on. */
  lemma NamesShift(r: StepReport<Item, Item>, rest: seq<StepReport<Item, Item>>, k: nat)
    requires k + 1 + |rest| <= StepCount && r.name == ResultsNames[k]
    requires forall j :: 0 <= j < |rest| ==> rest[j].name == ResultsNames[k + 1 + j]
    ensures forall j :: 0 <= j < |[r] + rest| ==> ([r] + rest)[j].name == ResultsNames[k + j]
  {
    var rs := [r] + rest;
    forall j | 0 <= j < |rs|
      ensures rs[j].name == ResultsNames[k + j]
    {
      if j > 0 {
        assert rs[j] == rest[j - 1] && k + 1 + (j - 1) == k + j;
      }
    }
  }

  /**
   * Every input record of the steps from `k` on ends as a warning, a failure
   * or one of the records the last of them let through.
   */
  lemma {:induction false} RunFromConserves(run: StepRunner, k: nat, items: seq<Item>)
    requires Accounts(run) && 1 <= k < StepCount && AtStage(items, InputStage(k)) && RunFrom(run, k, items).Ok?
    ensures var rs := RunFrom(run, k, items).value;
      rs != [] && |items| == |AllWarnings(rs)| + |AllFailures(rs)| + |rs[|rs| - 1].succeeded|
    decreases StepCount - k
  {
    var rs := RunFrom(run, k, items).value;
    var r := run(k, items).value;
    AccountsPassOn(run, k, items);
    if r.succeeded == [] || k + 1 == StepCount {
      assert rs == [r];
      MergeOne(r);
      assert |AllWarnings(rs)| == |r.warning| && |AllFailures(rs)| == |r.failed|;
    } else {
      var rest := RunFrom(run, k + 1, r.succeeded).value;
      assert rs == [r] + rest;
      RunFromConserves(run, k + 1, r.succeeded);
      ConsCounts(r, rest);
      assert |AllWarnings(rs)| == |r.warning| + |AllWarnings(rest)|;
      assert |AllFailures(rs)| == |r.failed| + |AllFailures(rest)|;
      assert rs[|rs| - 1] == rest[|rest| - 1];
    }
  }

  /** Counting the warnings, failures and last records of a step followed by others. */
  lemma ConsCounts(r: StepReport<Item, Item>, rest: seq<StepReport<Item, Item>>)
    requires rest != []
    ensures |AllWarnings([r] + rest)| == |r.warning| + |AllWarnings(rest)|
    ensures |AllFailures([r] + rest)| == |r.failed| + |AllFailures(rest)|
    ensures ([r] + rest)[|[r] + rest| - 1] == rest[|rest| - 1]
  {
    MergeOne(r);
    MergeAppendWarnings([r], rest);
    MergeAppendFailures([r], rest);
  }

  /** The records the last of the steps from `k` on let through are of the class the last step produces. */
  lemma {:induction false} RunFromLast(run: StepRunner, k: nat, items: seq<Item>)
    requires Accounts(run) && 1 <= k < StepCount && AtStage(items, InputStage(k)) && RunFrom(run, k, items).Ok?
    ensures var rs := RunFrom(run, k, items).value;
      rs != [] && (rs[|rs| - 1].succeeded == [] || AtStage(rs[|rs| - 1].succeeded, InputStage(StepCount)))
    decreases StepCount - k
  {
    var rs := RunFrom(run, k, items).value;
    var r := run(k, items).value;
    if r.succeeded == [] || k + 1 == StepCount {
      AccountsPassOn(run, k, items);
      assert rs == [r];
    } else {
      AccountsPassOn(run, k, items);
      var rest := RunFrom(run, k + 1, r.succeeded).value;
      RunFromLast(run, k + 1, r.succeeded);
      assert rs == [r] + rest;
      assert rs[|rs| - 1] == rest[|rest| - 1];
    }
  }

  /** The facts `RunFromStops` and `RunFromNames` state, lifted to the whole flow. */
  ghost predicate FlowShaped(events: seq<Event>, first: StepReport<Item, Item>, steps: seq<StepReport<Item, Item>>) {
    1 <= |steps| <= StepCount && steps[0] == first &&
    (forall j :: 0 <= j < |steps| ==> steps[j].name == ResultsNames[j]) &&
    (forall j :: 0 <= j < |steps| - 1 ==> steps[j].succeeded != []) &&
    (|steps| < StepCount ==> steps[|steps| - 1].succeeded == []) &&
    |events| == |AllWarnings(steps)| + |AllFailures(steps)| + |steps[|steps| - 1].succeeded| &&
    (steps[|steps| - 1].succeeded == [] || AtStage(steps[|steps| - 1].succeeded, InputStage(StepCount)))
  }

  /** The structural facts of `FlowShaped`: how many steps ran and where the loop stopped. */
  lemma RunAllStops(run: StepRunner, first: StepReport<Item, Item>)
    requires RunAll(run, first).Ok?
    ensures var steps := RunAll(run, first).value;
      1 <= |steps| <= StepCount && steps[0] == first &&
      (forall j :: 0 <= j < |steps| - 1 ==> steps[j].succeeded != []) &&
      (|steps| < StepCount ==> steps[|steps| - 1].succeeded == [])
  {
    var steps := RunAll(run, first).value;
    if first.succeeded != [] {
      var rest := RunFrom(run, 1, first.succeeded).value;
      RunFromStops(run, 1, first.succeeded);
      assert steps == [first] + rest;
      forall j | 0 < j < |steps|
        ensures steps[j] == rest[j - 1]
      {
      }
    } else {
      assert steps == [first];
    }
  }

  /** The steps of the flow report under the names of the steps in order. */
  lemma RunAllNames(run: StepRunner, first: StepReport<Item, Item>)
    requires Accounts(run) && RunAll(run, first).Ok?
    requires first.name == ResultsNames[0] && AtStage(first.succeeded, 0)
    ensures |RunAll(run, first).value| <= StepCount
    ensures forall j :: 0 <= j < |RunAll(run, first).value| ==> RunAll(run, first).value[j].name == ResultsNames[j]
  {
    var steps := RunAll(run, first).value;
    if first.succeeded != [] {
      var rest := RunFrom(run, 1, first.succeeded).value;
      RunFromNames(run, 1, first.succeeded);
      assert steps == [first] + rest;
      forall j | 0 < j < |steps|
        ensures steps[j] == rest[j - 1]
      {
      }
    } else {
      assert steps == [first];
    }
  }

  /** Every event ends as a warning, a failure or a record the last step let through. */
  lemma RunAllConserves(run: StepRunner, events: seq<Event>, first: StepReport<Item, Item>)
    requires Accounts(run) && RunAll(run, first).Ok? && AtStage(first.succeeded, 0)
    requires |first.succeeded| + |first.warning| + |first.failed| == |events|
    ensures var steps := RunAll(run, first).value;
      steps != [] && |events| == |AllWarnings(steps)| + |AllFailures(steps)| + |steps[|steps| - 1].succeeded|
  {
    var steps := RunAll(run, first).value;
    MergeOne(first);
    if first.succeeded != [] {
      var rest := RunFrom(run, 1, first.succeeded).value;
      RunFromConserves(run, 1, first.succeeded);
      ConsCounts(first, rest);
      assert steps == [first] + rest;
    } else {
      assert steps == [first];
    }
  }

  /** The records the flow's last step lets through are of the class the last step produces. */
  lemma RunAllLast(run: StepRunner, first: StepReport<Item, Item>)
    requires Accounts(run) && RunAll(run, first).Ok? && AtStage(first.succeeded, 0)
    ensures var steps := RunAll(run, first).value;
      steps != [] && (steps[|steps| - 1].succeeded == [] || AtStage(steps[|steps| - 1].succeeded, InputStage(StepCount)))
  {
    var steps := RunAll(run, first).value;
    if first.succeeded != [] {
      var rest := RunFrom(run, 1, first.succeeded).value;
      RunFromLast(run, 1, first.succeeded);
      assert steps == [first] + rest;
      assert steps[|steps| - 1] == rest[|rest| - 1];
    } else {
      assert steps == [first];
    }
  }

  lemma RunAllShaped(run: StepRunner, events: seq<Event>, first: StepReport<Item, Item>)
    requires Accounts(run) && RunAll(run, first).Ok?
    requires first.name == ResultsNames[0] && AtStage(first.succeeded, 0)
    requires |first.succeeded| + |first.warning| + |first.failed| == |events|
    ensures FlowShaped(events, first, RunAll(run, first).value)
  {
    RunAllStops(run, first);
    RunAllNames(run, first);
    RunAllConserves(run, events, first);
    RunAllLast(run, first);
  }

  lemma FlowStepsShaped(services: Services, events: seq<Event>)
    requires FlowSteps(services, events).Ok?
    ensures FlowShaped(events, ValidateEvents.ValidateSpec(services.config, events), FlowSteps(services, events).value)
  {
    var first := ValidateEvents.ValidateSpec(services.config, events);
    ValidateEvents.ValidateAccounts(services.config, events);
    ValidateEvents.ValidateSucceeded(services.config, events);
    MembersAtStage(first.succeeded, 0);
    RunnerAccounts(services);
    RunAllShaped(Runner(services), events, first);
  }

  /**
   * `step_results` has one entry per executed step, one to nine, in the fixed
   * order, starting with the validation; the loop stops after the first step
   * that lets nothing through and not before.
   */
  lemma FlowStepsShape(services: Services, events: seq<Event>)
    requires FlowSteps(services, events).Ok?
    ensures var steps := FlowSteps(services, events).value;
      1 <= |steps| <= StepCount &&
      steps[0] == ValidateEvents.ValidateSpec(services.config, events) &&
      (forall j :: 0 <= j < |steps| ==> steps[j].name == ResultsNames[j]) &&
      (forall j :: 0 <= j < |steps| - 1 ==> steps[j].succeeded != []) &&
      (|steps| < StepCount ==> steps[|steps| - 1].succeeded == [])
  {
    FlowStepsShaped(services, events);
  }

  /**
   * Every event is accounted for exactly once in the merged results: as one
   * of the records the last step let through, as a warning, or as a failure.
   */
  lemma FlowConserves(services: Services, events: seq<Event>)
    requires FlowSpec(services, events).Ok?
    ensures |FlowSpec(services, events).value.succeeded| + |FlowSpec(services, events).value.warning| +
      |FlowSpec(services, events).value.failed| == |events|
  {
    FlowStepsShaped(services, events);
  }

  /**
   * The merged succeeded list is the last step's; it is empty unless all nine
   * steps ran, and every record in it is a template alignment result.
   */
  lemma FlowSucceeded(services: Services, events: seq<Event>)
    requires FlowSpec(services, events).Ok?
    ensures var steps := FlowSteps(services, events).value;
      FlowSpec(services, events).value.succeeded == steps[|steps| - 1].succeeded
    ensures FlowSpec(services, events).value.succeeded != [] ==> |FlowSteps(services, events).value| == StepCount
    ensures forall x :: x in FlowSpec(services, events).value.succeeded ==>
      x.CreateNucleotideTemplateAlignmentResult? && x.Valid()
  {
    FlowStepsShaped(services, events);
    var steps := FlowSteps(services, events).value;
    assert FlowSpec(services, events) == Ok(MergeSpec(steps));
    ShapedSucceeded(events, ValidateEvents.ValidateSpec(services.config, events), steps);
  }

  /** The succeeded records of a shaped run are those of its last step, and are template alignment results. */
  lemma ShapedSucceeded(events: seq<Event>, first: StepReport<Item, Item>, steps: seq<StepReport<Item, Item>>)
    requires FlowShaped(events, first, steps)
    ensures MergeSpec(steps).succeeded == steps[|steps| - 1].succeeded
    ensures MergeSpec(steps).succeeded != [] ==> |steps| == StepCount
    ensures forall x :: x in MergeSpec(steps).succeeded ==> x.CreateNucleotideTemplateAlignmentResult? && x.Valid()
  {
    var succeeded := MergeSpec(steps).succeeded;
    assert InputStage(StepCount) == 7;
    forall x | x in succeeded
      ensures x.CreateNucleotideTemplateAlignmentResult? && x.Valid()
    {
      var i :| 0 <= i < |succeeded| && succeeded[i] == x;
    }
  }

  /** The session fails exactly when nothing got through and something failed, and succeeds exactly when nothing went wrong. */
  lemma FlowStatusSpec(services: Services, events: seq<Event>)
    requires FlowSpec(services, events).Ok?
    ensures var results := FlowSpec(services, events).value;
      var status := FlowStatus(results).0;
      (status == StatusFailed <==> |results.failed| > 0 && |results.succeeded| == 0) &&
      (status == StatusSucceeded <==> |results.failed| == 0 && |results.warning| == 0) &&
      (status == StatusSucceeded ==> |results.succeeded| == |events|)
  {
    FlowConserves(services, events);
  }

  // The flow

  /** Step 1 of the loop: `GetDnaSequences`'s own `execute` on the stage-0 records. */
  method RunGetDnaSequences(services: Services, items: seq<Item>) returns (r: Result<StepReport<Item, Item>>)
    requires AtStage(items, 0)
    ensures r == Ok(GetDnaSequences.GetDnaSequencesSpec(services, items))
  {
    var results, _ := GetDnaSequences.Execute(services, items);
    r := Ok(results.Report());
  }

  /** Step 2 of the loop: `GetSpecies`'s own `execute` on the stage-1 records. */
  method RunGetSpecies(services: Services, items: seq<Item>) returns (r: Result<StepReport<Item, Item>>)
    requires AtStage(items, 1)
    ensures r == GetSpecies.GetSpeciesSpec(services, items)
  {
    var res, _ := GetSpecies.Execute(services, items);
    r := if res.Ok? then Ok(res.value.Report()) else Err(res.message);
  }

  /** Step 3 of the loop: `ExecuteIgBlast`'s own `execute` on the stage-2 records. */
  method RunExecuteIgBlast(services: Services, items: seq<Item>) returns (r: Result<StepReport<Item, Item>>)
    requires AtStage(items, 2)
    ensures r == ExecuteIgBlast.ExecuteIgBlastSpec(services, items)
  {
    var res, _ := ExecuteIgBlast.Execute(services, items);
    r := if res.Ok? then Ok(res.value.Report()) else Err(res.message);
  }

  /** Step 4 of the loop: `ExcludeStopCodons`'s own `execute` on the stage-3 records. */
  method RunExcludeStopCodons(items: seq<Item>) returns (r: Result<StepReport<Item, Item>>)
    requires AtStage(items, 3)
    ensures r == ExcludeStopCodons.ExcludeStopCodonsSpec(items)
  {
    var res, _ := ExcludeStopCodons.Execute(items);
    r := if res.Ok? then Ok(res.value.Report()) else Err(res.message);
  }

  /** Step 5 of the loop: `CreateAaSequences`'s own `execute` on the stage-3 records. */
  method RunCreateAaSequences(services: Services, items: seq<Item>) returns (r: Result<StepReport<Item, Item>>)
    requires AtStage(items, 3)
    ensures r == Ok(CreateAaSequences.CreateAaSequencesSpec(services, items))
  {
    var results, _ := CreateAaSequences.Execute(services, items);
    r := Ok(results.Report());
  }

  /** Step 6 of the loop: `FillTranslations`'s own `execute` on the stage-4 records. */
  method RunFillTranslations(services: Services, items: seq<Item>) returns (r: Result<StepReport<Item, Item>>)
    requires AtStage(items, 4)
    ensures r == FillTranslations.FillTranslationsSpec(services, items)
  {
    var res;
    ghost var batches;
    res, batches := FillTranslations.Execute(services, items);
    r := if res.Ok? then Ok(res.value.Report()) else Err(res.message);
  }

  /** Step 7 of the loop: `CreateGermlineAlignmentSequences`'s own `execute` on the stage-5 records. */
  method RunCreateGermlineAlignmentSequences(services: Services, items: seq<Item>) returns (r: Result<StepReport<Item, Item>>)
    requires AtStage(items, 5)
    ensures r == CreateGermlineAlignmentSequences.CreateGermlineAlignmentSequencesSpec(services, items)
  {
    var res;
    ghost var batches;
    res, batches := CreateGermlineAlignmentSequences.Execute(services, items);
    r := if res.Ok? then Ok(res.value.Report()) else Err(res.message);
  }

  /** Step 8 of the loop: `CreateNucleotideTemplateAlignment`'s own `execute` on the stage-6 records. */
  method RunCreateNucleotideTemplateAlignment(services: Services, items: seq<Item>) returns (r: Result<StepReport<Item, Item>>)
    requires AtStage(items, 6)
    ensures r == Ok(CreateNucleotideTemplateAlignment.CreateNucleotideTemplateAlignmentSpec(services, items))
  {
    var results, _ := CreateNucleotideTemplateAlignment.Execute(services, items);
    r := Ok(results.Report());
  }

  /** One step of the loop, dispatched to the step's own `execute`. */
  method ExecuteStep(services: Services, ghost run: StepRunner, k: nat, items: seq<Item>) returns (r: Result<StepReport<Item, Item>>)
    requires Implements(services, run)
    requires 1 <= k < StepCount && AtStage(items, InputStage(k))
    ensures r == run(k, items)
  {
    if k == 1 {
      r := RunGetDnaSequences(services, items);
    } else if k == 2 {
      r := RunGetSpecies(services, items);
    } else if k == 3 {
      r := RunExecuteIgBlast(services, items);
    } else if k == 4 {
      r := RunExcludeStopCodons(items);
    } else if k == 5 {
      r := RunCreateAaSequences(services, items);
    } else if k == 6 {
      r := RunFillTranslations(services, items);
    } else if k == 7 {
      r := RunCreateGermlineAlignmentSequences(services, items);
    } else {
      r := RunCreateNucleotideTemplateAlignment(services, items);
    }
    assert r == StepOf(services, k, items);
  }

  /** The step results `done` followed by those of `rest`, or the exception of `rest`. */
  function Then(done: seq<StepReport<Item, Item>>, rest: Result<seq<StepReport<Item, Item>>>): Result<seq<StepReport<Item, Item>>> {
    match rest
    case Err(e) => Err(e)
    case Ok(rs) => Ok(done + rs)
  }

  /** What is left of the flow at step `k` with `items` let through: nothing once they are none. */
  function Remaining(run: StepRunner, k: nat, items: seq<Item>): Result<seq<StepReport<Item, Item>>> {
    if items == [] then Ok([]) else RunFrom(run, k, items)
  }

  /** Before the loop: the whole flow is the validation followed by the rest. */
  lemma RemainingStart(run: StepRunner, first: StepReport<Item, Item>)
    ensures RunAll(run, first) == Then([first], Remaining(run, 1, first.succeeded))
  {
    assert [first] + [] == [first];
  }

  /** One turn of the loop: what is left of the flow after running step `k`. */
  lemma RemainingStep(run: StepRunner, k: nat, items: seq<Item>, done: seq<StepReport<Item, Item>>)
    requires k < StepCount && items != []
    ensures run(k, items).Err? ==> Then(done, Remaining(run, k, items)) == Err(run(k, items).message)
    ensures run(k, items).Ok? ==>
      Then(done, Remaining(run, k, items)) == Then(done + [run(k, items).value], Remaining(run, k + 1, run(k, items).value.succeeded))
  {
    if run(k, items).Ok? {
      var r := run(k, items).value;
      if r.succeeded == [] {
        assert (done + [r]) + [] == done + [r];
      } else {
        match RunFrom(run, k + 1, r.succeeded)
        case Err(e) =>
        case Ok(rest) =>
          assert done + ([r] + rest) == (done + [r]) + rest;
      }
    }
  }

  /** After the loop: nothing is left once every step ran or nothing got through. */
  lemma RemainingEnd(run: StepRunner, k: nat, items: seq<Item>, done: seq<StepReport<Item, Item>>)
    requires k >= StepCount || items == []
    ensures Then(done, Remaining(run, k, items)) == Ok(done)
  {
    assert done + [] == done;
  }

  /** One turn of the loop of `execute`, stated on the step runner alone. */
  lemma LoopAdvance(run: StepRunner, first: StepReport<Item, Item>, eventCount: nat, k: nat,
                    done: seq<StepReport<Item, Item>>, next: seq<Item>)
    requires Accounts(run)
    requires 1 <= k < StepCount && |done| == k && next != []
    requires AtStage(next, InputStage(k)) && next == done[k - 1].succeeded
    requires RunAll(run, first) == Then(done, Remaining(run, k, next))
    ensures run(k, next).Err? ==> RunAll(run, first) == Err(run(k, next).message)
    ensures run(k, next).Ok? ==>
      AtStage(run(k, next).value.succeeded, InputStage(k + 1)) &&
      ProgressMessages(eventCount, done + [run(k, next).value]) ==
        ProgressMessages(eventCount, done) + [ProgressMessage(Labels[k], |next|)] &&
      RunAll(run, first) == Then(done + [run(k, next).value], Remaining(run, k + 1, run(k, next).value.succeeded))
  {
    RemainingStep(run, k, next, done);
    if run(k, next).Ok? {
      AccountsPassOn(run, k, next);
      ProgressMessagesAppend(eventCount, done, run(k, next).value);
    }
  }

  /**
   * The loop of `execute` after the validation returned `first`; `progress`
   * are the messages sent before the later steps.
   */
  method ExecuteSteps(services: Services, ghost run: StepRunner, first: StepReport<Item, Item>, eventCount: nat)
    returns (r: Result<seq<StepReport<Item, Item>>>, progress: seq<string>)
    requires Implements(services, run) && AtStage(first.succeeded, 0)
    ensures r == RunAll(run, first)
    ensures r.Ok? ==> |r.value| <= StepCount && progress == ProgressMessages(eventCount, r.value)
  {
    ImplementsAccounts(services, run);
    progress := [ProgressMessage(Labels[0], eventCount)];
    var stepResults := [first];
    var next := first.succeeded;
    var k := 1;
    RemainingStart(run, first);
    while k < StepCount && next != []
      invariant 1 <= k <= StepCount && |stepResults| == k
      invariant AtStage(next, InputStage(k))
      invariant next == stepResults[k - 1].succeeded
      invariant progress == ProgressMessages(eventCount, stepResults)
      invariant RunAll(run, first) == Then(stepResults, Remaining(run, k, next))
      decreases StepCount - k
    {
      progress := progress + [ProgressMessage(Labels[k], |next|)];
      var step := ExecuteStep(services, run, k, next);
      LoopAdvance(run, first, eventCount, k, stepResults, next);
      if step.Err? {
        return Err(step.message), progress;
      }
      stepResults := stepResults + [step.value];
      next := step.value.succeeded;
      k := k + 1;
    }
    RemainingEnd(run, k, next, stepResults);
    return Ok(stepResults), progress;
  }

  /**
   * `SequenceAnnotationBulkFlow.execute`: `progress` are the messages sent
   * before the steps, and `closing` how the session is closed.
   */
  method Execute(services: Services, events: seq<Event>)
    returns (r: Result<StepResults<Item, Item>>, progress: seq<string>, closing: Option<Closing>)
    ensures r.Ok? ==> fresh(r.value)
    ensures r.Ok? <==> FlowSpec(services, events).Ok?
    ensures r.Err? ==> r.message == FlowSpec(services, events).message && closing.None?
    ensures r.Ok? ==> r.value.Report() == FlowSpec(services, events).value
    ensures r.Ok? ==>
      |FlowSteps(services, events).value| <= StepCount &&
      progress == ProgressMessages(|events|, FlowSteps(services, events).value)
    ensures r.Ok? ==> closing == Some(ClosingOf(FlowSpec(services, events).value))
  {
    var first := ValidateEvents.Execute(services.config, events);
    var report := first.Report();
    ValidateEvents.ValidateSucceeded(services.config, events);
    MembersAtStage(report.succeeded, 0);
    var steps;
    RunnerImplements(services);
    steps, progress := ExecuteSteps(services, Runner(services), report, |events|);
    if steps.Err? {
      return Err(steps.message), progress, None;
    }
    FlowStepsShaped(services, events);
    var merged := Merge(steps.value);
    r := Ok(merged);
    closing := Some(ClosingOf(merged.Report()));
  }
}

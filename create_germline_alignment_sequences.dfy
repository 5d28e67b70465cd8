/**
 * The eighth step, an asynchronous bulk task: a germline-alignment DNA
 * sequence is created for every item, and the created sequences are matched
 * back to the items through their "DNA Sequence ID" custom field.
 */
module CreateGermlineAlignmentSequences {
  import opened Wrappers
  import opened Values
  import opened Models
  import opened Dicts
  import opened BenchlingFields
  import opened FlowBase
  import opened SequenceAnnotation
  import opened AsyncSteps
  import opened Utils
  import IgBlastToBenchling

  const ResultsName: string := "CreateGermlineAlignmentSequencesStepResults"

  const Label: string := "Create germline alignment sequences"

  /**
   * What the step answers for a batch that is not made of
   * `FillTranslationResult` records; `BatchesAreFilled` shows none reaches it.
   */
  const NotFilled: string := "the batch is not made of FillTranslationResult records"

  /**
   * `to_dna_sequence_bulk_create(item.dna_sequence, sanitize_sequence(item.analysis.imgt_data.get('germline_alignment')))`:
   * the IMGT row is read before the mapper reads the DNA id.
   */
  function BulkCreateFor(x: Item): (r: Result<DnaSequenceBulkCreate>)
    requires x.Valid() && x.Stage() == 5
    ensures x.GetAnalysis().imgtData.None? ==> r == Err(NoneHasNoGet)
    ensures x.GetAnalysis().imgtData.Some? && x.GetDnaSequence().None? ==> r == Err(NoneHasNoId)
    ensures x.GetAnalysis().imgtData.Some? && x.GetDnaSequence().Some? ==>
      r == Ok(IgBlastToBenchling.BulkCreate(x.GetDnaSequence().value,
        SanitizeSequence(RowGet(x.GetAnalysis().imgtData.value, "germline_alignment"))))
  {
    match x.GetAnalysis().imgtData
    case None => Err(NoneHasNoGet)
    case Some(imgt) =>
      var germline := SanitizeSequence(RowGet(imgt, "germline_alignment"));
      match x.GetDnaSequence()
      case None => Err(NoneHasNoId)
      case Some(dna) => Ok(IgBlastToBenchling.BulkCreate(dna, germline))
  }

  function BulkCreateAll(xs: seq<Item>): (rs: seq<Result<DnaSequenceBulkCreate>>)
    requires AtStage(xs, 5)
    ensures |rs| == |xs|
    ensures forall i :: 0 <= i < |xs| ==> rs[i] == BulkCreateFor(xs[i])
  {
    seq(|xs|, i requires 0 <= i < |xs| => BulkCreateFor(xs[i]))
  }

  /** `get_task`: one bulk create of all payloads, or the exception building them raises. */
  function GetTask(services: Services, xs: seq<Item>): Result<AsyncTask>
    requires AtStage(xs, 5)
  {
    var creates :- Collect(BulkCreateAll(xs));
    Ok(services.createDnaSequences(creates))
  }

  /** The "DNA Sequence ID" value of a created sequence, `Null` when the field is absent. */
  function LinkedId(s: DnaSequence): Value {
    FieldValue(s.customFields, DnaSequenceIdCustomField)
  }

  /** The key of a created sequence in the comprehension: a missing field or a list raises. */
  function GermlineKey(s: DnaSequence): (r: Result<Value>)
    ensures r.Ok? <==> DnaSequenceIdCustomField in s.customFields && !LinkedId(s).Items?
    ensures r.Ok? ==> r.value == LinkedId(s)
    ensures r.Err? ==> r.message == if DnaSequenceIdCustomField in s.customFields then UnhashableList else NoneHasNoValue
  {
    if DnaSequenceIdCustomField !in s.customFields then Err(NoneHasNoValue)
    else if s.customFields[DnaSequenceIdCustomField].value.Items? then Err(UnhashableList)
    else Ok(s.customFields[DnaSequenceIdCustomField].value)
  }

  /** `germline_sequence_by_sequence_id`, built over the bulk task's response; later sequences win. */
  function GermlineById(response: seq<DnaSequence>): Result<map<Value, DnaSequence>>
    decreases |response|
  {
    if response == [] then Ok(map[])
    else
      var m :- GermlineById(response[..|response| - 1]);
      var last := response[|response| - 1];
      var k :- GermlineKey(last);
      Ok(m[k := last])
  }

  /** `germline_sequence_by_sequence_id.get(id)`. */
  function Lookup(m: map<Value, DnaSequence>, id: string): (r: Option<DnaSequence>)
    ensures r.Some? <==> Str(id) in m
    ensures r.Some? ==> r.value == m[Str(id)]
  {
    if Str(id) in m then Some(m[Str(id)]) else None
  }

  /** One element of the result list: the item's DNA id is read, so a missing sequence raises. */
  function Matched(m: map<Value, DnaSequence>, x: Item): (r: Result<Item>)
    requires x.Valid() && x.Stage() == 5
    ensures r.Err? <==> x.GetDnaSequence().None?
    ensures r.Err? ==> r.message == NoneHasNoId
    ensures r.Ok? ==> r.value == CreateGermlineAlignmentSequenceResult(x, Lookup(m, x.GetDnaSequence().value.id))
  {
    match x.GetDnaSequence()
    case None => Err(NoneHasNoId)
    case Some(dna) => Ok(CreateGermlineAlignmentSequenceResult(x, Lookup(m, dna.id)))
  }

  function MatchedAll(m: map<Value, DnaSequence>, xs: seq<Item>): (rs: seq<Result<Item>>)
    requires AtStage(xs, 5)
    ensures |rs| == |xs|
    ensures forall i :: 0 <= i < |xs| ==> rs[i] == Matched(m, xs[i])
  {
    seq(|xs|, i requires 0 <= i < |xs| => Matched(m, xs[i]))
  }

  /** `get_succeeded_items`, or the exception it raises. */
  function SucceededItems(xs: seq<Item>, task: AsyncTask): (r: Result<seq<Item>>)
    requires AtStage(xs, 5)
    ensures r.Ok? ==> |r.value| == |xs|
  {
    var m :- GermlineById(task.response);
    Collect(MatchedAll(m, xs))
  }

  /** The step as the base asynchronous step runs it. */
  function Step(services: Services): AsyncStep<Item, Item> {
    AsyncStep(
      ResultsName,
      (xs: seq<Item>) => if AtStage(xs, 5) then GetTask(services, xs) else Err(NotFilled),
      (xs: seq<Item>, task: AsyncTask) => if AtStage(xs, 5) then SucceededItems(xs, task) else Err(NotFilled))
  }

  /** The results `CreateGermlineAlignmentSequencesStep.execute(items)` returns, or the exception it raises. */
  function CreateGermlineAlignmentSequencesSpec(services: Services, items: seq<Item>): Result<StepReport<Item, Item>> {
    ExecuteSpec(Step(services), items)
  }

  // Properties

  /**
   * The bulk create is built exactly when every item has an IMGT row and a DNA
   * sequence; it then holds one payload per item, in item order, whose bases
   * are the item's sanitized germline alignment.
   */
  lemma BulkCreatesSpec(xs: seq<Item>)
    requires AtStage(xs, 5)
    ensures Collect(BulkCreateAll(xs)).Ok? <==>
      forall i :: 0 <= i < |xs| ==> xs[i].GetAnalysis().imgtData.Some? && xs[i].GetDnaSequence().Some?
    ensures Collect(BulkCreateAll(xs)).Ok? ==>
      var cs := Collect(BulkCreateAll(xs)).value;
      |cs| == |xs| &&
      forall i :: 0 <= i < |xs| ==>
        cs[i].bases == SanitizeSequence(RowGet(xs[i].GetAnalysis().imgtData.value, "germline_alignment")) &&
        cs[i].customFields == map[DnaSequenceIdCustomField := Str(xs[i].GetDnaSequence().value.id)] &&
        cs[i].name == xs[i].GetDnaSequence().value.name + "_germline_alignment"
  {
    CollectOk(BulkCreateAll(xs));
  }

  /** The comprehension raises exactly when a created sequence has no "DNA Sequence ID" field or a list in it. */
  lemma {:induction false} GermlineByIdErr(response: seq<DnaSequence>)
    ensures GermlineById(response).Err? <==> exists j :: 0 <= j < |response| && GermlineKey(response[j]).Err?
    decreases |response|
  {
    if response != [] {
      var init := response[..|response| - 1];
      var last := response[|response| - 1];
      GermlineByIdErr(init);
      if GermlineById(init).Err? {
        var j :| 0 <= j < |init| && GermlineKey(init[j]).Err?;
        assert response[j] == init[j];
      } else if GermlineKey(last).Err? {
        assert GermlineKey(response[|response| - 1]).Err?;
      } else {
        forall j | 0 <= j < |response| ensures GermlineKey(response[j]).Ok? {
          if j < |init| {
            assert response[j] == init[j];
          }
        }
      }
    }
  }

  /** When it does not raise, the comprehension is the map by "DNA Sequence ID" value. */
  lemma {:induction false} GermlineByIdIsMap(response: seq<DnaSequence>)
    requires GermlineById(response).Ok?
    ensures GermlineById(response).value == MapBy(response, LinkedId)
    decreases |response|
  {
    if response != [] {
      GermlineByIdIsMap(response[..|response| - 1]);
    }
  }

  /**
   * An item is matched with the last created sequence whose "DNA Sequence ID"
   * is the item's DNA id, and with none exactly when no created sequence
   * carries that id.
   */
  lemma MatchedSpec(response: seq<DnaSequence>, x: Item)
    requires x.Valid() && x.Stage() == 5 && x.GetDnaSequence().Some? && GermlineById(response).Ok?
    ensures var g := Matched(GermlineById(response).value, x).value.germlineAlignmentSequence;
      var id := Str(x.GetDnaSequence().value.id);
      (g.Some? ==> g.value in response && LinkedId(g.value) == id) &&
      (g.None? <==> forall s :: s in response ==> LinkedId(s) != id)
  {
    GermlineByIdIsMap(response);
  }

  lemma MatchedLastWins(response: seq<DnaSequence>, x: Item, j: nat)
    requires x.Valid() && x.Stage() == 5 && x.GetDnaSequence().Some? && GermlineById(response).Ok?
    requires j < |response| && LinkedId(response[j]) == Str(x.GetDnaSequence().value.id)
    requires forall k :: j < k < |response| ==> LinkedId(response[k]) != LinkedId(response[j])
    ensures Matched(GermlineById(response).value, x).value.germlineAlignmentSequence == Some(response[j])
  {
    GermlineByIdIsMap(response);
    MapByLastWins(response, LinkedId, j);
  }

  /**
   * `get_succeeded_items` returns one result per input, in input order, each
   * a well-formed record of its item; it raises exactly when the response
   * has a bad key or an item has no DNA sequence.
   */
  lemma SucceededItemsSpec(xs: seq<Item>, task: AsyncTask)
    requires AtStage(xs, 5)
    ensures SucceededItems(xs, task).Err? <==>
      (exists j :: 0 <= j < |task.response| && GermlineKey(task.response[j]).Err?) ||
      (exists i :: 0 <= i < |xs| && xs[i].GetDnaSequence().None?)
    ensures SucceededItems(xs, task).Ok? ==>
      forall i :: 0 <= i < |xs| ==>
        var r := SucceededItems(xs, task).value[i];
        r.CreateGermlineAlignmentSequenceResult? && r.previous == xs[i] && r.Valid() && r.Stage() == 6 &&
        r.germlineAlignmentSequence == Lookup(GermlineById(task.response).value, xs[i].GetDnaSequence().value.id)
  {
    GermlineByIdErr(task.response);
    if GermlineById(task.response).Ok? {
      CollectOk(MatchedAll(GermlineById(task.response).value, xs));
    }
  }

  lemma OneGermlinePerItem(services: Services)
    ensures OneOutputPerItem(Step(services))
  {
    forall xs: seq<Item>, task: AsyncTask | Step(services).getSucceededItems(xs, task).Ok?
      ensures |Step(services).getSucceededItems(xs, task).value| == |xs|
    {
    }
  }

  lemma SubBatch(items: seq<Item>, b: seq<Item>)
    requires AtStage(items, 5) && forall x :: x in b ==> x in items
    ensures AtStage(b, 5)
  {
    forall i | 0 <= i < |b|
      ensures b[i].Valid() && b[i].Stage() == 5
    {
      assert b[i] in b;
    }
  }

  /** Every batch the retries submit is made of the items, so none reaches the guards. */
  lemma BatchesAreFilled(services: Services, items: seq<Item>)
    requires AtStage(items, 5)
    ensures forall k :: 0 <= k < |Batches(Step(services), items)| ==>
      AtStage(Batches(Step(services), items)[k], 5) &&
      Step(services).getTask(Batches(Step(services), items)[k]) == GetTask(services, Batches(Step(services), items)[k])
  {
    var bs := Batches(Step(services), items);
    BatchesMembers(Step(services), items);
    forall k | 0 <= k < |bs|
      ensures AtStage(bs[k], 5)
    {
      SubBatch(items, bs[k]);
    }
  }

  /**
   * Every item ends succeeded or failed exactly once, retries included, and
   * nothing is warned; each success is a well-formed record of one of the
   * items, and each failure is of one of the items.
   */
  lemma CreateGermlineAlignmentSequencesAccounts(services: Services, items: seq<Item>)
    requires AtStage(items, 5) && CreateGermlineAlignmentSequencesSpec(services, items).Ok?
    ensures CreateGermlineAlignmentSequencesSpec(services, items).value.name == ResultsName
    ensures CreateGermlineAlignmentSequencesSpec(services, items).value.warning == []
    ensures |CreateGermlineAlignmentSequencesSpec(services, items).value.succeeded| +
      |CreateGermlineAlignmentSequencesSpec(services, items).value.failed| == |items|
    ensures forall x :: x in CreateGermlineAlignmentSequencesSpec(services, items).value.succeeded ==>
      x.CreateGermlineAlignmentSequenceResult? && x.previous in items && x.Valid() && x.Stage() == 6
    ensures forall f :: f in CreateGermlineAlignmentSequencesSpec(services, items).value.failed ==> f.payload in items
  {
    var step := Step(services);
    OneGermlinePerItem(services);
    ExecuteAccounts(step, items);
    ExecuteMembers(step, items);
    SucceededStage(services, items);
  }

  /** Every succeeded output is a stage-6 result built on one of the items. */
  lemma SucceededStage(services: Services, items: seq<Item>)
    requires AtStage(items, 5) && ExecuteSpec(Step(services), items).Ok?
    ensures forall x :: x in ExecuteSpec(Step(services), items).value.succeeded ==>
      x.CreateGermlineAlignmentSequenceResult? && x.previous in items && x.Valid() && x.Stage() == 6
  {
    var step := Step(services);
    ExecuteMembers(step, items);
    var succeeded := ExecuteSpec(step, items).value.succeeded;
    if succeeded != [] {
      var b: seq<Item>, task: AsyncTask :| (forall x :: x in b ==> x in items) && step.getSucceededItems(b, task) == Ok(succeeded);
      SubBatch(items, b);
      SucceededItemsSpec(b, task);
      forall x | x in succeeded
        ensures x.CreateGermlineAlignmentSequenceResult? && x.previous in items && x.Valid() && x.Stage() == 6
      {
        var i :| 0 <= i < |b| && succeeded[i] == x;
        assert b[i] in b;
      }
    }
  }

  /**
   * When the bulk create goes through without errors, the step returns what
   * `get_succeeded_items` reads back for all the items, or its exception.
   */
  lemma CreateGermlineAlignmentSequencesAllSucceed(services: Services, items: seq<Item>)
    requires AtStage(items, 5) && items != [] && GetTask(services, items).Ok?
    requires !HasAsyncTaskErrors(GetTask(services, items).value.errors)
    ensures var outs := SucceededItems(items, GetTask(services, items).value);
      CreateGermlineAlignmentSequencesSpec(services, items) ==
        if outs.Ok? then Ok(StepReport(ResultsName, outs.value, [], [])) else Err(outs.message)
  {
    var task := GetTask(services, items).value;
    assert Step(services).getTask(items) == Ok(task);
    assert Process(task, items) == Ok(TaskResults(items, [], []));
  }

  // The step

  /** `CreateGermlineAlignmentSequencesStep.execute`, the base asynchronous step's loop. */
  method Execute(services: Services, items: seq<Item>) returns (r: Result<StepResults<Item, Item>>, ghost batches: seq<seq<Item>>)
    requires AtStage(items, 5)
    ensures r.Ok? ==> fresh(r.value)
    ensures r.Ok? <==> CreateGermlineAlignmentSequencesSpec(services, items).Ok?
    ensures r.Err? ==> r.message == CreateGermlineAlignmentSequencesSpec(services, items).message
    ensures r.Ok? ==> r.value.Report() == CreateGermlineAlignmentSequencesSpec(services, items).value
    ensures batches == Batches(Step(services), items)
  {
    r, batches := AsyncSteps.Execute(Step(services), items);
  }
}

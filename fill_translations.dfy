/**
 * The seventh step, an asynchronous bulk task: every DNA sequence gets its
 * "Translation AA" field pointed at the AA sequence created for it. Failed
 * items are retried as the base asynchronous step does.
 */
module FillTranslations {
  import opened Wrappers
  import opened Values
  import opened Models
  import opened BenchlingFields
  import opened FlowBase
  import opened SequenceAnnotation
  import opened AsyncSteps
  import IgBlastToBenchling

  const ResultsName: string := "FillTranslationsStepResults"

  const Label: string := "Fill DNA sequence translations"

  /**
   * What the step's `get_task` answers for a batch that is not made of
   * `CreateAaSequenceResult` records; `BatchesAreCreated` shows none reaches it.
   */
  const NotCreated: string := "the batch is not made of CreateAaSequenceResult records"

  /** The value written to "Translation AA": a list of one id for a sequence, the bare id for a feature. */
  function TranslationValue(t: DnaSchemaType, aa: AaSequence): (v: Value)
    ensures t == Sequence ==> v == Items([Str(aa.id)])
    ensures t == Feature ==> v == Str(aa.id)
  {
    match t
    case Sequence => Items([Str(aa.id)])
    case Feature => Str(aa.id)
  }

  /**
   * `_to_dna_sequence_bulk_update(result.dna_sequence, result.dna_schema_type, result.aa_sequence)`:
   * the mapper's bulk update without the computed fields, with the schema's
   * "Translation AA" field set.
   */
  function Payload(x: Item): (r: Result<DnaSequenceBulkUpdate>)
    requires x.Valid() && x.Stage() == 4
    ensures x.GetDnaSchemaType().None? ==> r == Err(NoneHasNoComputedFields)
    ensures x.GetDnaSchemaType().Some? && x.GetDnaSequence().None? ==> r == Err(NoneHasNoFields)
    ensures r.Ok? <==> x.GetDnaSchemaType().Some? && x.GetDnaSequence().Some?
    ensures r.Ok? ==>
      var t := x.GetDnaSchemaType().value;
      var dna := x.GetDnaSequence().value;
      r.value.id == dna.id && r.value.name == dna.name && r.value.bases == dna.bases &&
      r.value.folderId == dna.folderId && r.value.isCircular == dna.isCircular &&
      r.value.customFields == IgBlastToBenchling.CopiedFields(dna.customFields) &&
      t.TranslationAaKey() in r.value.fields &&
      r.value.fields[t.TranslationAaKey()] == TranslationValue(t, x.GetAaSequence()) &&
      (forall k :: k != t.TranslationAaKey() ==>
        (k in r.value.fields <==> k in dna.fields && dna.fields[k].value != Null && k !in t.ComputedFields())) &&
      (forall k :: k != t.TranslationAaKey() && k in r.value.fields ==> r.value.fields[k] == dna.fields[k].value)
  {
    match x.GetDnaSchemaType()
    case None => Err(NoneHasNoComputedFields)
    case Some(t) =>
      match x.GetDnaSequence()
      case None => Err(NoneHasNoFields)
      case Some(dna) =>
        var u := IgBlastToBenchling.BulkUpdatePayload(dna, t.ComputedFields());
        Ok(u.(fields := u.fields[t.TranslationAaKey() := TranslationValue(t, x.GetAaSequence())]))
  }

  function PayloadAll(xs: seq<Item>): (rs: seq<Result<DnaSequenceBulkUpdate>>)
    requires AtStage(xs, 4)
    ensures |rs| == |xs|
    ensures forall i :: 0 <= i < |xs| ==> rs[i] == Payload(xs[i])
  {
    seq(|xs|, i requires 0 <= i < |xs| => Payload(xs[i]))
  }

  /** The list comprehension passed to `update_dna_sequences`, or the exception it raises. */
  function Updates(xs: seq<Item>): Result<seq<DnaSequenceBulkUpdate>>
    requires AtStage(xs, 4)
  {
    Collect(PayloadAll(xs))
  }

  /** `get_task`: one bulk update of all payloads. */
  function GetTask(services: Services, xs: seq<Item>): Result<AsyncTask>
    requires AtStage(xs, 4)
  {
    var updates :- Updates(xs);
    Ok(services.updateDnaSequences(updates))
  }

  /** `get_succeeded_items`: one `FillTranslationResult` per item, in order. */
  function SucceededItems(xs: seq<Item>): (r: seq<Item>)
    ensures |r| == |xs|
    ensures forall i :: 0 <= i < |xs| ==> r[i] == FillTranslationResult(xs[i])
  {
    seq(|xs|, i requires 0 <= i < |xs| => FillTranslationResult(xs[i]))
  }

  /** The step as the base asynchronous step runs it. */
  function Step(services: Services): AsyncStep<Item, Item> {
    AsyncStep(
      ResultsName,
      (xs: seq<Item>) => if AtStage(xs, 4) then GetTask(services, xs) else Err(NotCreated),
      (xs: seq<Item>, task: AsyncTask) => Ok(SucceededItems(xs)))
  }

  /** The results `FillTranslationsStep.execute(items)` returns, or the exception it raises. */
  function FillTranslationsSpec(services: Services, items: seq<Item>): Result<StepReport<Item, Item>> {
    ExecuteSpec(Step(services), items)
  }

  // Properties

  /**
   * The bulk update can be built exactly when every item has a schema type and
   * a DNA sequence; it then holds one payload per item, in item order.
   */
  lemma UpdatesSpec(xs: seq<Item>)
    requires AtStage(xs, 4)
    ensures Updates(xs).Ok? <==>
      forall i :: 0 <= i < |xs| ==> xs[i].GetDnaSchemaType().Some? && xs[i].GetDnaSequence().Some?
    ensures Updates(xs).Ok? ==>
      |Updates(xs).value| == |xs| && forall i :: 0 <= i < |xs| ==> Payload(xs[i]) == Ok(Updates(xs).value[i])
  {
    CollectOk(PayloadAll(xs));
  }

  /** Every batch the retries submit is made of the items, so none reaches the guard. */
  lemma BatchesAreCreated(services: Services, items: seq<Item>)
    requires AtStage(items, 4)
    ensures forall k :: 0 <= k < |Batches(Step(services), items)| ==>
      AtStage(Batches(Step(services), items)[k], 4) &&
      Step(services).getTask(Batches(Step(services), items)[k]) == GetTask(services, Batches(Step(services), items)[k])
  {
    var bs := Batches(Step(services), items);
    BatchesMembers(Step(services), items);
    forall k | 0 <= k < |bs|
      ensures AtStage(bs[k], 4)
    {
      SubBatch(items, bs[k]);
    }
  }

  lemma SubBatch(items: seq<Item>, b: seq<Item>)
    requires AtStage(items, 4) && forall x :: x in b ==> x in items
    ensures AtStage(b, 4)
  {
    forall i | 0 <= i < |b|
      ensures b[i].Valid() && b[i].Stage() == 4
    {
      assert b[i] in b;
    }
  }

  lemma OneFillPerItem(services: Services)
    ensures OneOutputPerItem(Step(services))
  {
  }

  /**
   * Every item ends succeeded or failed exactly once, retries included, and
   * nothing is warned; each failure is of one of the items.
   */
  lemma FillTranslationsAccounts(services: Services, items: seq<Item>)
    requires AtStage(items, 4) && FillTranslationsSpec(services, items).Ok?
    ensures FillTranslationsSpec(services, items).value.name == ResultsName
    ensures FillTranslationsSpec(services, items).value.warning == []
    ensures |FillTranslationsSpec(services, items).value.succeeded| + |FillTranslationsSpec(services, items).value.failed| == |items|
    ensures forall f :: f in FillTranslationsSpec(services, items).value.failed ==> f.payload in items
  {
    var step := Step(services);
    OneFillPerItem(services);
    ExecuteAccounts(step, items);
    ExecuteMembers(step, items);
  }

  /** Each succeeded record is the translation record of one of the items. */
  lemma FillTranslationsSucceeded(services: Services, items: seq<Item>)
    requires AtStage(items, 4) && FillTranslationsSpec(services, items).Ok?
    ensures forall x :: x in FillTranslationsSpec(services, items).value.succeeded ==>
      x.FillTranslationResult? && x.previous in items && x.Valid() && x.Stage() == 5
  {
    var step := Step(services);
    ExecuteMembers(step, items);
    var succeeded := ExecuteSpec(step, items).value.succeeded;
    if succeeded != [] {
      var b: seq<Item>, task: AsyncTask :| (forall x :: x in b ==> x in items) && step.getSucceededItems(b, task) == Ok(succeeded);
      assert succeeded == SucceededItems(b);
      SucceededFromBatch(items, b);
    }
  }

  /** The records read back for a batch drawn from the items are stage-5 records of those items. */
  lemma SucceededFromBatch(items: seq<Item>, b: seq<Item>)
    requires AtStage(items, 4) && forall x :: x in b ==> x in items
    ensures forall x :: x in SucceededItems(b) ==>
      x.FillTranslationResult? && x.previous in items && x.Valid() && x.Stage() == 5
  {
    forall x | x in SucceededItems(b)
      ensures x.FillTranslationResult? && x.previous in items && x.Valid() && x.Stage() == 5
    {
      var i :| 0 <= i < |b| && SucceededItems(b)[i] == x;
      assert b[i] in b;
    }
  }

  /**
   * When the bulk update goes through without errors, every item succeeds in
   * input order and nothing is retried.
   */
  lemma FillTranslationsAllSucceed(services: Services, items: seq<Item>)
    requires AtStage(items, 4) && items != [] && Updates(items).Ok?
    requires !HasAsyncTaskErrors(services.updateDnaSequences(Updates(items).value).errors)
    ensures FillTranslationsSpec(services, items) == Ok(StepReport(ResultsName, SucceededItems(items), [], []))
  {
    var task := services.updateDnaSequences(Updates(items).value);
    assert Step(services).getTask(items) == Ok(task);
    assert Process(task, items) == Ok(TaskResults(items, [], []));
  }

  /** A bulk update that cannot be built raises before any task is submitted. */
  lemma FillTranslationsRaisesFirst(services: Services, items: seq<Item>)
    requires AtStage(items, 4) && items != [] && Updates(items).Err?
    ensures FillTranslationsSpec(services, items) == Err(Updates(items).message)
    ensures Batches(Step(services), items) == [items]
  {
    assert Step(services).getTask(items) == Err(Updates(items).message);
  }

  // The step

  /** `_to_dna_sequence_bulk_update`, setting the translation in the payload's field map. */
  method ToDnaSequenceBulkUpdate(x: Item) returns (r: Result<DnaSequenceBulkUpdate>)
    requires x.Valid() && x.Stage() == 4
    ensures r == Payload(x)
  {
    var t := x.GetDnaSchemaType();
    if t.None? {
      return Err(NoneHasNoComputedFields);
    }
    var dna := x.GetDnaSequence();
    if dna.None? {
      return Err(NoneHasNoFields);
    }
    var payload := IgBlastToBenchling.ToDnaSequenceBulkUpdate(dna.value, t.value.ComputedFields());
    var aa := x.GetAaSequence();
    var fields := payload.fields;
    if t.value == Sequence {
      fields := fields[DnaSequenceFieldKey.TranslationAa.Key() := Items([Str(aa.id)])];
    } else {
      fields := fields[DnaFeatureFieldKey.TranslationAa.Key() := Str(aa.id)];
    }
    r := Ok(payload.(fields := fields));
  }

  /** `FillTranslationsStep.execute`, the base asynchronous step's loop; `batches` are the batches submitted. */
  method Execute(services: Services, items: seq<Item>) returns (r: Result<StepResults<Item, Item>>, ghost batches: seq<seq<Item>>)
    requires AtStage(items, 4)
    ensures r.Ok? ==> fresh(r.value)
    ensures r.Ok? <==> FillTranslationsSpec(services, items).Ok?
    ensures r.Err? ==> r.message == FillTranslationsSpec(services, items).message
    ensures r.Ok? ==> r.value.Report() == FillTranslationsSpec(services, items).value
    ensures batches == Batches(Step(services), items)
  {
    r, batches := AsyncSteps.Execute(Step(services), items);
  }
}

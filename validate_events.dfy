/**
 * The first step: keep the registration events whose entity is a DNA sequence or
 * a DNA feature of a supported type, and record which schema it belongs to.
 */
module ValidateEvents {
  import opened Wrappers
  import opened Values
  import opened Models
  import opened BenchlingFields
  import opened FlowBase
  import opened SequenceAnnotation

  const SupportedTypes: seq<string> := ["VL", "VH", "HCDR3"]

  const ResultsName: string := "ValidateEventsStepResults"

  const Label: string := "Filter events"

  /** A field text counts as supported only when present and listed. */
  predicate Supported(text: Option<string>) {
    text.Some? && text.value in SupportedTypes
  }

  /** `_get_dna_schema_type`: the sequence schema is checked before the feature schema. */
  function SchemaType(config: Config, entity: GenericEntity): (t: Option<DnaSchemaType>)
    ensures t == Some(Sequence) <==> entity.schemaId == config.dnaSequenceSchemaId
    ensures t == Some(Feature) <==>
      entity.schemaId != config.dnaSequenceSchemaId && entity.schemaId == config.dnaFeatureSchemaId
    ensures t.None? <==>
      entity.schemaId != config.dnaSequenceSchemaId && entity.schemaId != config.dnaFeatureSchemaId
  {
    if entity.schemaId == config.dnaSequenceSchemaId then Some(Sequence)
    else if entity.schemaId == config.dnaFeatureSchemaId then Some(Feature)
    else None
  }

  /** `_get_error_message`: why the entity is rejected, if it is. */
  function ErrorMessage(entity: GenericEntity, t: Option<DnaSchemaType>): (m: Option<string>)
    ensures t.None? ==> m == Some("Unknown entity schema \"" + entity.schemaId + "\"")
    ensures t == Some(Sequence) && !Supported(FieldText(entity.fields, DnaSequenceFieldKey.Type.Key())) ==>
      m == Some("Type \"" + Format(FieldText(entity.fields, DnaSequenceFieldKey.Type.Key())) + "\" is not supported")
    ensures (t == Some(Sequence) && Supported(FieldText(entity.fields, DnaSequenceFieldKey.Type.Key())) &&
      !Truthy(FieldValue(entity.fields, DnaSequenceFieldKey.SourceClone.Key()))) ==>
      m == Some("Missing \"Source: Clone\" field value")
    ensures t == Some(Feature) && !Supported(FieldText(entity.fields, DnaFeatureFieldKey.Functions.Key())) ==>
      m == Some("Type \"" + Format(FieldText(entity.fields, DnaFeatureFieldKey.Functions.Key())) + "\" is not supported")
  {
    match t
    case Some(Sequence) =>
      var kind := FieldText(entity.fields, DnaSequenceFieldKey.Type.Key());
      var sourceClone := FieldValue(entity.fields, DnaSequenceFieldKey.SourceClone.Key());
      if !Supported(kind) then Some("Type \"" + Format(kind) + "\" is not supported")
      else if !Truthy(sourceClone) then
        assert DnaSequenceFieldKey.SourceClone.Key() == "Source: Clone";
        assert "Missing \"" + "Source: Clone" + "\" field value" == "Missing \"Source: Clone\" field value";
        Some("Missing \"" + DnaSequenceFieldKey.SourceClone.Key() + "\" field value")
      else None
    case Some(Feature) =>
      var functions := FieldText(entity.fields, DnaFeatureFieldKey.Functions.Key());
      if !Supported(functions) then Some("Type \"" + Format(functions) + "\" is not supported")
      else None
    case None => Some("Unknown entity schema \"" + entity.schemaId + "\"")
  }

  /**
   * The events the step lets through, stated without the error messages: a DNA
   * sequence of a supported type with a source clone, or a DNA feature of a
   * supported function.
   */
  predicate Accepted(config: Config, entity: GenericEntity) {
    (entity.schemaId == config.dnaSequenceSchemaId
      && Supported(FieldText(entity.fields, "Type"))
      && Truthy(FieldValue(entity.fields, "Source: Clone")))
    || (entity.schemaId != config.dnaSequenceSchemaId
      && entity.schemaId == config.dnaFeatureSchemaId
      && Supported(FieldText(entity.fields, "Function(s)")))
  }

  /** An event is rejected with a message exactly when it is not accepted. */
  lemma ErrorMessageIffRejected(config: Config, entity: GenericEntity)
    ensures ErrorMessage(entity, SchemaType(config, entity)).None? <==> Accepted(config, entity)
  {
  }

  /** What happens to one event. */
  function Classify(config: Config, event: Event): Outcome<Item, Item> {
    var t := SchemaType(config, event.entity);
    match ErrorMessage(event.entity, t)
    case Some(m) => Failed(EventValidationResult(event, t), m)
    case None => Succeeded(EventValidationResult(event, t))
  }

  function Outcomes(config: Config, events: seq<Event>): (outs: seq<Outcome<Item, Item>>)
    ensures |outs| == |events|
    ensures forall i :: 0 <= i < |events| ==> outs[i] == Classify(config, events[i])
  {
    seq(|events|, i requires 0 <= i < |events| => Classify(config, events[i]))
  }

  /** The results `ValidateEventsStep.execute(events)` returns. */
  function ValidateSpec(config: Config, events: seq<Event>): StepReport<Item, Item> {
    Route(ResultsName, Outcomes(config, events))
  }

  /** Each event is reported exactly once, as succeeded or failed; nothing is warned. */
  lemma ValidateAccounts(config: Config, events: seq<Event>)
    ensures ValidateSpec(config, events).name == ResultsName
    ensures ValidateSpec(config, events).warning == []
    ensures |ValidateSpec(config, events).succeeded| + |ValidateSpec(config, events).failed| == |events|
  {
    var outs := Outcomes(config, events);
    RouteIsFilter(ResultsName, outs);
    NoWarnings(outs);
    FiltersPartition(outs);
  }

  /** The outcome of one event succeeds exactly when the event is accepted. */
  lemma ClassifyIffAccepted(config: Config, event: Event)
    ensures Classify(config, event).Succeeded? <==> Accepted(config, event.entity)
    ensures Classify(config, event).Succeeded? ==>
      Classify(config, event).result == EventValidationResult(event, SchemaType(config, event.entity))
    ensures Classify(config, event).Failed? ==>
      Classify(config, event).previous == EventValidationResult(event, SchemaType(config, event.entity)) &&
      Some(Classify(config, event).message) == ErrorMessage(event.entity, SchemaType(config, event.entity))
  {
    ErrorMessageIffRejected(config, event.entity);
  }

  /**
   * The succeeded records are exactly the records of the accepted events: each
   * is a valid root of a provenance chain with a known schema.
   */
  lemma ValidateSucceeded(config: Config, events: seq<Event>)
    ensures forall x :: x in ValidateSpec(config, events).succeeded ==>
      x.EventValidationResult? && x.Valid() && x.dnaSchemaType.Some? && Accepted(config, x.event.entity)
    ensures forall i :: 0 <= i < |events| && Accepted(config, events[i].entity) ==>
      EventValidationResult(events[i], SchemaType(config, events[i].entity)) in ValidateSpec(config, events).succeeded
  {
    var outs := Outcomes(config, events);
    RouteIsFilter(ResultsName, outs);
    SuccessesMembers(outs);
    forall x: Item | x in Successes(outs)
      ensures x.EventValidationResult? && x.Valid() && x.dnaSchemaType.Some? && Accepted(config, x.event.entity)
    {
      var i :| 0 <= i < |outs| && outs[i] == Succeeded(x);
      ClassifyIffAccepted(config, events[i]);
    }
    forall i | 0 <= i < |events| && Accepted(config, events[i].entity)
      ensures EventValidationResult(events[i], SchemaType(config, events[i].entity)) in Successes(outs)
    {
      ClassifyIffAccepted(config, events[i]);
      assert outs[i] == Succeeded(EventValidationResult(events[i], SchemaType(config, events[i].entity)));
    }
  }

  /** The failed records are those of the rejected events, each with its message. */
  lemma ValidateFailed(config: Config, events: seq<Event>)
    ensures forall f :: f in ValidateSpec(config, events).failed ==>
      f.payload.EventValidationResult? && !Accepted(config, f.payload.event.entity) &&
      Some(f.errorMessage) == ErrorMessage(f.payload.event.entity, f.payload.dnaSchemaType)
    ensures forall i :: 0 <= i < |events| && !Accepted(config, events[i].entity) ==>
      exists f :: (f in ValidateSpec(config, events).failed &&
        f.payload == EventValidationResult(events[i], SchemaType(config, events[i].entity)))
  {
    var outs := Outcomes(config, events);
    RouteIsFilter(ResultsName, outs);
    FailuresMembers(outs);
    forall f: StepFailedResult<Item> | f in Failures(outs)
      ensures f.payload.EventValidationResult? && !Accepted(config, f.payload.event.entity) &&
        Some(f.errorMessage) == ErrorMessage(f.payload.event.entity, f.payload.dnaSchemaType)
    {
      var i :| 0 <= i < |outs| && outs[i] == Failed(f.payload, f.errorMessage);
      ClassifyIffAccepted(config, events[i]);
    }
    forall i | 0 <= i < |events| && !Accepted(config, events[i].entity)
      ensures exists f :: (f in Failures(outs) &&
        f.payload == EventValidationResult(events[i], SchemaType(config, events[i].entity)))
    {
      ClassifyIffAccepted(config, events[i]);
      var f := StepFailedResult(outs[i].previous, outs[i].message);
      assert f in Failures(outs);
    }
  }

  /** `ValidateEventsStep.execute`. */
  method Execute(config: Config, events: seq<Event>) returns (results: StepResults<Item, Item>)
    ensures fresh(results)
    ensures results.Report() == ValidateSpec(config, events)
  {
    ghost var outs := Outcomes(config, events);
    results := new StepResults(ResultsName);
    var i := 0;
    while i < |events|
      invariant 0 <= i <= |events|
      invariant results.Report() == RecordAll(EmptyReport(ResultsName), outs[..i])
    {
      var entity := events[i].entity;
      var t := SchemaType(config, entity);
      var m := ErrorMessage(entity, t);
      if m.Some? {
        results.AddFailed(EventValidationResult(events[i], t), m.value);
      } else {
        results.AddSucceeded(EventValidationResult(events[i], t));
      }
      assert outs[..i + 1][..i] == outs[..i];
      i := i + 1;
    }
    assert outs[..i] == outs;
  }
}

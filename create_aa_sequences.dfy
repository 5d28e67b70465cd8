/**
 * The sixth step: one AA sequence is created per item from its IgBLAST
 * analysis. Every exception on the way, the mapper's or the service's, fails
 * that item alone.
 */
module CreateAaSequences {
  import opened Wrappers
  import opened Models
  import opened BenchlingFields
  import opened FlowBase
  import opened SequenceAnnotation
  import IgBlastToBenchling

  const ResultsName: string := "CreateAaSequencesStepResults"

  const Label: string := "Create AA sequences"

  /**
   * A DNA sequence record for the calls below that do not read the sequence;
   * `AnnotateIgnoresSequence` shows that the value chosen makes no difference.
   */
  const NoSequence: DnaSequence := DnaSequence("", "", "", None, false, map[], map[])

  /**
   * `mapper.to_aa_sequence_create_or_update(item.dna_sequence, ...)` for an
   * item with no DNA sequence: the IMGT row is read first, then the DNA fields
   * when there is a schema, and the sequence id only after the annotation.
   */
  function MissingSequenceRequest(x: Item): (r: Result<AaSequenceRequest>)
    requires x.Valid() && x.Stage() == 3
    ensures r.Err?
    ensures x.GetAnalysis().imgtData.None? ==> r.message == NoneHasNoGet
    ensures x.GetAnalysis().imgtData.Some? && x.GetDnaSchemaType().Some? ==> r.message == NoneHasNoFields
  {
    var a := x.GetAnalysis();
    match a.imgtData
    case None => Err(NoneHasNoGet)
    case Some(imgt) =>
      if x.GetDnaSchemaType().Some? then Err(NoneHasNoFields)
      else
        match IgBlastToBenchling.Annotate(NoSequence, None, a.imgtVersion, imgt, a.kabatData)
        case Err(e) => Err(e)
        case Ok(_) => Err(NoneHasNoId)
  }

  /** The request built for an item, with no existing AA sequence, or the exception building it raises. */
  function BuildRequest(config: Config, x: Item): (r: Result<AaSequenceRequest>)
    requires x.Valid() && x.Stage() == 3
    ensures x.GetDnaSequence().Some? ==>
      r == IgBlastToBenchling.AaSequencePayload(config, x.GetDnaSequence().value, x.GetDnaSchemaType(),
        x.GetAnalysis().imgtVersion, x.GetAnalysis().imgtData, x.GetAnalysis().kabatData, None)
    ensures x.GetDnaSequence().None? ==> r.Err?
  {
    match x.GetDnaSequence()
    case None => MissingSequenceRequest(x)
    case Some(dna) =>
      var a := x.GetAnalysis();
      IgBlastToBenchling.AaSequencePayload(config, dna, x.GetDnaSchemaType(), a.imgtVersion, a.imgtData, a.kabatData, None)
  }

  /** The outcome of one item once its request is built, or building it raised. */
  function ClassifyRequest(services: Services, x: Item, req: Result<AaSequenceRequest>): (o: Outcome<Item, Item>)
    requires x.Valid() && x.Stage() == 3
    ensures (o.Succeeded? <==> req.Ok? && services.createAaSequence(req.value).Ok?) &&
      (o.Succeeded? ==>
        o.result == CreateAaSequenceResult(x, req.value, services.createAaSequence(req.value).value) &&
        o.result.Valid() && o.result.Stage() == 4) &&
      (o.Failed? ==> (o.previous == x &&
        o.message == if req.Err? then req.message else services.createAaSequence(req.value).message)) &&
      !o.Warned?
  {
    match req
    case Err(e) => Failed(x, e)
    case Ok(request) =>
      match services.createAaSequence(request)
      case Err(e) => Failed(x, e)
      case Ok(aa) => Succeeded(CreateAaSequenceResult(x, request, aa))
  }

  /**
   * One iteration of the loop. The item succeeds exactly when its request can
   * be built and the service creates the AA sequence; the result then holds
   * that request and that AA sequence. Otherwise it fails with the text of the
   * first exception.
   */
  function Classify(services: Services, x: Item): (o: Outcome<Item, Item>)
    requires x.Valid() && x.Stage() == 3
    ensures var req := BuildRequest(services.config, x);
      (o.Succeeded? <==> req.Ok? && services.createAaSequence(req.value).Ok?) &&
      (o.Succeeded? ==>
        o.result == CreateAaSequenceResult(x, req.value, services.createAaSequence(req.value).value) &&
        o.result.Valid() && o.result.Stage() == 4) &&
      (o.Failed? ==> (o.previous == x &&
        o.message == if req.Err? then req.message else services.createAaSequence(req.value).message)) &&
      !o.Warned?
  {
    ClassifyRequest(services, x, BuildRequest(services.config, x))
  }

  function Outcomes(services: Services, items: seq<Item>): (outs: seq<Outcome<Item, Item>>)
    requires AtStage(items, 3)
    ensures |outs| == |items|
    ensures forall i :: 0 <= i < |items| ==> outs[i] == Classify(services, items[i])
  {
    seq(|items|, i requires 0 <= i < |items| => Classify(services, items[i]))
  }

  /** The results `CreateAaSequencesStep.execute(items)` returns; it never raises. */
  function CreateAaSequencesSpec(services: Services, items: seq<Item>): (r: StepReport<Item, Item>)
    requires AtStage(items, 3)
    ensures items == [] ==> r == EmptyReport(ResultsName)
  {
    if items == [] then EmptyReport(ResultsName) else Route(ResultsName, Outcomes(services, items))
  }

  function BuildAll(config: Config, items: seq<Item>): (rs: seq<Result<AaSequenceRequest>>)
    requires AtStage(items, 3)
    ensures |rs| == |items|
    ensures forall i :: 0 <= i < |items| ==> rs[i] == BuildRequest(config, items[i])
  {
    seq(|items|, i requires 0 <= i < |items| => BuildRequest(config, items[i]))
  }

  /** The requests passed to `create_aa_sequence`, in item order: those the mapper could build. */
  function Submitted(config: Config, items: seq<Item>): seq<AaSequenceRequest>
    requires AtStage(items, 3)
  {
    OkValues(BuildAll(config, items))
  }

  // Properties

  /** The annotation of a record without a schema type never reads the DNA sequence. */
  lemma AnnotateIgnoresSequence(s1: DnaSequence, s2: DnaSequence, imgtVersion: Option<string>, imgt: Row, kabatData: Option<Row>)
    ensures IgBlastToBenchling.Annotate(s1, None, imgtVersion, imgt, kabatData) ==
      IgBlastToBenchling.Annotate(s2, None, imgtVersion, imgt, kabatData)
  {
    assert IgBlastToBenchling.SchemaFields(s1, None, imgtVersion) == IgBlastToBenchling.SchemaFields(s2, None, imgtVersion);
  }

  /**
   * The mapper fails an item only with the exceptions its data can cause, or
   * for a missing DNA sequence.
   */
  lemma BuildRequestErrors(config: Config, x: Item)
    requires x.Valid() && x.Stage() == 3 && BuildRequest(config, x).Err?
    ensures BuildRequest(config, x).message in IgBlastToBenchling.PayloadErrorMessages + {NoneHasNoFields, NoneHasNoId}
  {
    var a := x.GetAnalysis();
    match x.GetDnaSequence()
    case Some(dna) =>
      IgBlastToBenchling.PayloadErrors(config, dna, x.GetDnaSchemaType(), a.imgtVersion, a.imgtData, a.kabatData, None);
    case None =>
      if a.imgtData.Some? {
        IgBlastToBenchling.AnnotateErrors(NoSequence, None, a.imgtVersion, a.imgtData.value, a.kabatData);
      }
  }

  /**
   * Every item has exactly one outcome, succeeded or failed, in input order;
   * nothing is warned. Each success is a well-formed record of the item it
   * was created for, holding what the service returned for its request.
   */
  lemma CreateAaSequencesAccounts(services: Services, items: seq<Item>)
    requires AtStage(items, 3)
    ensures CreateAaSequencesSpec(services, items).name == ResultsName
    ensures CreateAaSequencesSpec(services, items).warning == []
    ensures |CreateAaSequencesSpec(services, items).succeeded| + |CreateAaSequencesSpec(services, items).failed| == |items|
    ensures forall x :: x in CreateAaSequencesSpec(services, items).succeeded ==>
      x.CreateAaSequenceResult? && x.Valid() && x.Stage() == 4 && x.previous in items &&
      BuildRequest(services.config, x.previous) == Ok(x.aaSequenceRequest) &&
      services.createAaSequence(x.aaSequenceRequest) == Ok(x.aaSequence)
    ensures forall f :: f in CreateAaSequencesSpec(services, items).failed ==> f.payload in items
  {
    if items != [] {
      var outs := Outcomes(services, items);
      var reqs := BuildAll(services.config, items);
      assert CreateAaSequencesSpec(services, items) == Route(ResultsName, outs);
      OutcomesCreated(services, items);
      SucceedOrFail(ResultsName, items, outs);
      CreatedSucceeded(services, items, reqs, outs);
      forall x: Item | x in Route(ResultsName, outs).succeeded
        ensures x.CreateAaSequenceResult? && x.Valid() && x.Stage() == 4 && x.previous in items &&
          BuildRequest(services.config, x.previous) == Ok(x.aaSequenceRequest) &&
          services.createAaSequence(x.aaSequenceRequest) == Ok(x.aaSequence)
      {
        var i :| 0 <= i < |items| && x.previous == items[i] && reqs[i] == Ok(x.aaSequenceRequest);
      }
    }
  }

  /** Each outcome is that of its own item: a success created from the item's request, or a failure. */
  ghost predicate Created(services: Services, items: seq<Item>, reqs: seq<Result<AaSequenceRequest>>, outs: seq<Outcome<Item, Item>>)
    requires AtStage(items, 3)
  {
    |outs| == |items| && |reqs| == |items| &&
    forall i :: 0 <= i < |outs| ==>
      (outs[i].Succeeded? ==>
        outs[i].result.CreateAaSequenceResult? && outs[i].result.Valid() && outs[i].result.Stage() == 4 &&
        outs[i].result.previous == items[i] &&
        reqs[i] == Ok(outs[i].result.aaSequenceRequest) &&
        services.createAaSequence(outs[i].result.aaSequenceRequest) == Ok(outs[i].result.aaSequence)) &&
      (!outs[i].Succeeded? ==> outs[i].Failed? && outs[i].previous == items[i])
  }

  lemma OutcomesCreated(services: Services, items: seq<Item>)
    requires AtStage(items, 3)
    ensures Created(services, items, BuildAll(services.config, items), Outcomes(services, items))
  {
  }

  /** Each success is the record created for one of the items from that item's request. */
  lemma CreatedSucceeded(services: Services, items: seq<Item>, reqs: seq<Result<AaSequenceRequest>>, outs: seq<Outcome<Item, Item>>)
    requires AtStage(items, 3) && Created(services, items, reqs, outs)
    ensures forall x :: x in Route(ResultsName, outs).succeeded ==>
      x.CreateAaSequenceResult? && x.Valid() && x.Stage() == 4 &&
      services.createAaSequence(x.aaSequenceRequest) == Ok(x.aaSequence) &&
      exists i :: 0 <= i < |items| && x.previous == items[i] && reqs[i] == Ok(x.aaSequenceRequest)
  {
    RouteIsFilter(ResultsName, outs);
    SuccessesMembers(outs);
    forall x | x in Successes(outs)
      ensures x.CreateAaSequenceResult? && x.Valid() && x.Stage() == 4 &&
        services.createAaSequence(x.aaSequenceRequest) == Ok(x.aaSequence) &&
        exists i :: 0 <= i < |items| && x.previous == items[i] && reqs[i] == Ok(x.aaSequenceRequest)
    {
      var i :| 0 <= i < |outs| && outs[i] == Succeeded(x);
    }
  }


  /** The service is called once per item whose request could be built, in item order. */
  lemma SubmittedSpec(config: Config, items: seq<Item>)
    requires AtStage(items, 3)
    ensures |Submitted(config, items)| <= |items|
    ensures forall r :: r in Submitted(config, items) ==> exists i :: 0 <= i < |items| && BuildRequest(config, items[i]) == Ok(r)
    ensures (forall i :: 0 <= i < |items| ==> BuildRequest(config, items[i]).Ok?) ==>
      |Submitted(config, items)| == |items| &&
      forall i :: 0 <= i < |items| ==> Submitted(config, items)[i] == BuildRequest(config, items[i]).value
  {
    var rs := BuildAll(config, items);
    OkValuesSpec(rs);
  }

  // The step

  /** `mapper.to_aa_sequence_create_or_update(item.dna_sequence, ..., None)`. */
  method ToAaSequenceRequest(config: Config, x: Item) returns (r: Result<AaSequenceRequest>)
    requires x.Valid() && x.Stage() == 3
    ensures r == BuildRequest(config, x)
  {
    var a := x.GetAnalysis();
    var dna := x.GetDnaSequence();
    if dna.Some? {
      r := IgBlastToBenchling.ToAaSequenceCreateOrUpdate(config, dna.value, x.GetDnaSchemaType(), a.imgtVersion, a.imgtData, a.kabatData, None);
      return;
    }
    if a.imgtData.None? {
      return Err(NoneHasNoGet);
    }
    if x.GetDnaSchemaType().Some? {
      return Err(NoneHasNoFields);
    }
    var annotated := IgBlastToBenchling.AnnotateLoops(NoSequence, None, a.imgtVersion, a.imgtData.value, a.kabatData);
    if annotated.Err? {
      return Err(annotated.message);
    }
    return Err(NoneHasNoId);
  }

  /**
   * The body of the loop for one item: the record it adds to `results`, and
   * the request passed to `create_aa_sequence`, if the mapper built one.
   */
  method CreateOne(services: Services, results: StepResults<Item, Item>, item: Item) returns (call: Option<AaSequenceRequest>)
    requires item.Valid() && item.Stage() == 3
    modifies results
    ensures results.Report() == Record(old(results.Report()), Classify(services, item))
    ensures call == if BuildRequest(services.config, item).Ok? then Some(BuildRequest(services.config, item).value) else None
  {
    var request := ToAaSequenceRequest(services.config, item);
    if request.Err? {
      results.AddFailed(item, request.message);
      return None;
    }
    var aa := services.createAaSequence(request.value);
    if aa.Err? {
      results.AddFailed(item, aa.message);
    } else {
      results.AddSucceeded(CreateAaSequenceResult(item, request.value, aa.value));
    }
    return Some(request.value);
  }

  /** `CreateAaSequencesStep.execute`; `calls` are the requests passed to `create_aa_sequence`. */
  method Execute(services: Services, items: seq<Item>) returns (results: StepResults<Item, Item>, calls: seq<AaSequenceRequest>)
    requires AtStage(items, 3)
    ensures fresh(results)
    ensures results.Report() == CreateAaSequencesSpec(services, items)
    ensures calls == Submitted(services.config, items)
  {
    results := new StepResults<Item, Item>(ResultsName);
    calls := [];
    if |items| == 0 {
      return;
    }
    ghost var outs := Outcomes(services, items);
    ghost var rs := BuildAll(services.config, items);
    for i := 0 to |items|
      invariant results.Report() == Route(ResultsName, outs[..i])
      invariant calls == OkValues(rs[..i])
    {
      OkValuesStep(rs, i);
      RoutePrefixStep(ResultsName, outs, i);
      assert outs[i] == Classify(services, items[i]) && rs[i] == BuildRequest(services.config, items[i]);
      var call := CreateOne(services, results, items[i]);
      if call.Some? {
        calls := calls + [call.value];
      }
    }
    assert outs[..|items|] == outs && rs[..|items|] == rs;
  }

}

/**
 * The ninth step: one nucleotide template alignment is requested per item,
 * between its DNA sequence (the template) and its germline-alignment
 * sequence. Every exception fails that item alone.
 */
module CreateNucleotideTemplateAlignment {
  import opened Wrappers
  import opened Models
  import opened FlowBase
  import opened SequenceAnnotation

  const ResultsName: string := "CreateNucleotideTemplateAlignmentStepResults"

  const Label: string := "Create nucleotide template alignments"

  /**
   * The arguments of `create_template_alignment(item.germline_alignment_sequence.name,
   * item.dna_sequence.id, item.germline_alignment_sequence.id)`, evaluated left to
   * right, or the exception evaluating them raises.
   */
  function AlignmentArguments(x: Item): (r: Result<(string, string, string)>)
    requires x.Valid() && x.Stage() == 6
    ensures x.germlineAlignmentSequence.None? ==> r == Err(NoneHasNoName)
    ensures x.germlineAlignmentSequence.Some? && x.GetDnaSequence().None? ==> r == Err(NoneHasNoId)
    ensures x.germlineAlignmentSequence.Some? && x.GetDnaSequence().Some? ==>
      r == Ok((x.germlineAlignmentSequence.value.name, x.GetDnaSequence().value.id, x.germlineAlignmentSequence.value.id))
  {
    match x.germlineAlignmentSequence
    case None => Err(NoneHasNoName)
    case Some(germline) =>
      match x.GetDnaSequence()
      case None => Err(NoneHasNoId)
      case Some(dna) => Ok((germline.name, dna.id, germline.id))
  }

  /**
   * One iteration of the loop: the item succeeds exactly when it has both
   * sequences and the service raises nothing; otherwise it fails with the
   * text of the first exception.
   */
  function Classify(services: Services, x: Item): (o: Outcome<Item, Item>)
    requires x.Valid() && x.Stage() == 6
    ensures var args := AlignmentArguments(x);
      (o.Succeeded? <==> (x.germlineAlignmentSequence.Some? && x.GetDnaSequence().Some? &&
        services.createTemplateAlignment(args.value.0, args.value.1, args.value.2).None?)) &&
      (o.Succeeded? ==> o.result == CreateNucleotideTemplateAlignmentResult(x) && o.result.Valid() && o.result.Stage() == 7) &&
      (o.Failed? ==> (o.previous == x &&
        o.message == if args.Err? then args.message else services.createTemplateAlignment(args.value.0, args.value.1, args.value.2).value)) &&
      !o.Warned?
  {
    match AlignmentArguments(x)
    case Err(e) => Failed(x, e)
    case Ok((name, sequenceId, germlineId)) =>
      match services.createTemplateAlignment(name, sequenceId, germlineId)
      case Some(e) => Failed(x, e)
      case None => Succeeded(CreateNucleotideTemplateAlignmentResult(x))
  }

  function Outcomes(services: Services, items: seq<Item>): (outs: seq<Outcome<Item, Item>>)
    requires AtStage(items, 6)
    ensures |outs| == |items|
    ensures forall i :: 0 <= i < |items| ==> outs[i] == Classify(services, items[i])
  {
    seq(|items|, i requires 0 <= i < |items| => Classify(services, items[i]))
  }

  /** The results `CreateNucleotideTemplateAlignmentStep.execute(items)` returns; it never raises. */
  function CreateNucleotideTemplateAlignmentSpec(services: Services, items: seq<Item>): (r: StepReport<Item, Item>)
    requires AtStage(items, 6)
    ensures items == [] ==> r == EmptyReport(ResultsName)
  {
    if items == [] then EmptyReport(ResultsName) else Route(ResultsName, Outcomes(services, items))
  }

  function ArgumentsAll(items: seq<Item>): (rs: seq<Result<(string, string, string)>>)
    requires AtStage(items, 6)
    ensures |rs| == |items|
    ensures forall i :: 0 <= i < |items| ==> rs[i] == AlignmentArguments(items[i])
  {
    seq(|items|, i requires 0 <= i < |items| => AlignmentArguments(items[i]))
  }

  /** The calls made to `create_template_alignment`, in item order: one per item with both sequences. */
  function Requested(items: seq<Item>): seq<(string, string, string)>
    requires AtStage(items, 6)
  {
    OkValues(ArgumentsAll(items))
  }

  // Properties

  /** Each outcome is that of its own item: a success wrapping it, or a failure of it. */
  ghost predicate Aligned(services: Services, items: seq<Item>, outs: seq<Outcome<Item, Item>>)
    requires AtStage(items, 6)
  {
    |outs| == |items| &&
    forall i :: 0 <= i < |outs| ==>
      (outs[i].Succeeded? ==>
        outs[i].result == CreateNucleotideTemplateAlignmentResult(items[i]) &&
        items[i].germlineAlignmentSequence.Some? && items[i].GetDnaSequence().Some?) &&
      (!outs[i].Succeeded? ==> outs[i].Failed? && outs[i].previous == items[i])
  }

  lemma OutcomesAligned(services: Services, items: seq<Item>)
    requires AtStage(items, 6)
    ensures Aligned(services, items, Outcomes(services, items))
  {
  }

  lemma AlignedReport(services: Services, items: seq<Item>, outs: seq<Outcome<Item, Item>>)
    requires AtStage(items, 6) && Aligned(services, items, outs)
    ensures forall x :: x in Route(ResultsName, outs).succeeded ==>
      x.CreateNucleotideTemplateAlignmentResult? && x.previous in items && x.Valid() && x.Stage() == 7 &&
      x.previous.germlineAlignmentSequence.Some? && x.previous.GetDnaSequence().Some?
  {
    RouteIsFilter(ResultsName, outs);
    SuccessesMembers(outs);
    forall x | x in Successes(outs)
      ensures x.CreateNucleotideTemplateAlignmentResult? && x.previous in items && x.Valid() && x.Stage() == 7 &&
        x.previous.germlineAlignmentSequence.Some? && x.previous.GetDnaSequence().Some?
    {
      var i :| 0 <= i < |outs| && outs[i] == Succeeded(x);
      assert items[i] in items;
    }
  }

  /**
   * Every item has exactly one outcome, succeeded or failed, and nothing is
   * warned; each success wraps an item that had both sequences, and each
   * failure is of one of the items.
   */
  lemma CreateNucleotideTemplateAlignmentAccounts(services: Services, items: seq<Item>)
    requires AtStage(items, 6)
    ensures CreateNucleotideTemplateAlignmentSpec(services, items).name == ResultsName
    ensures CreateNucleotideTemplateAlignmentSpec(services, items).warning == []
    ensures |CreateNucleotideTemplateAlignmentSpec(services, items).succeeded| +
      |CreateNucleotideTemplateAlignmentSpec(services, items).failed| == |items|
    ensures forall x :: x in CreateNucleotideTemplateAlignmentSpec(services, items).succeeded ==>
      x.CreateNucleotideTemplateAlignmentResult? && x.previous in items && x.Valid() && x.Stage() == 7 &&
      x.previous.germlineAlignmentSequence.Some? && x.previous.GetDnaSequence().Some?
    ensures forall f :: f in CreateNucleotideTemplateAlignmentSpec(services, items).failed ==> f.payload in items
  {
    if items != [] {
      var outs := Outcomes(services, items);
      assert CreateNucleotideTemplateAlignmentSpec(services, items) == Route(ResultsName, outs);
      OutcomesAligned(services, items);
      SucceedOrFail(ResultsName, items, outs);
      AlignedReport(services, items, outs);
    }
  }

  /**
   * An item whose germline sequence was not found by the step before fails
   * here, and so does one the service rejects; the others are kept.
   */
  lemma CreateNucleotideTemplateAlignmentFails(services: Services, items: seq<Item>, i: nat)
    requires AtStage(items, 6) && i < |items|
    ensures items[i].germlineAlignmentSequence.None? ==>
      StepFailedResult(items[i], NoneHasNoName) in CreateNucleotideTemplateAlignmentSpec(services, items).failed
    ensures Classify(services, items[i]).Succeeded? ==>
      CreateNucleotideTemplateAlignmentResult(items[i]) in CreateNucleotideTemplateAlignmentSpec(services, items).succeeded
  {
    var outs := Outcomes(services, items);
    assert CreateNucleotideTemplateAlignmentSpec(services, items) == Route(ResultsName, outs);
    if items[i].germlineAlignmentSequence.None? {
      assert outs[i] == Failed(items[i], NoneHasNoName);
      FailedIn(ResultsName, outs, i);
    }
    if Classify(services, items[i]).Succeeded? {
      assert outs[i] == Succeeded(CreateNucleotideTemplateAlignmentResult(items[i]));
      SucceededIn(ResultsName, outs, i);
    }
  }

  /**
   * The service is called once per item having both sequences, in item order;
   * when every item has them, with the arguments of every item.
   */
  lemma RequestedSpec(items: seq<Item>)
    requires AtStage(items, 6)
    ensures |Requested(items)| <= |items|
    ensures forall a :: a in Requested(items) ==> exists i :: 0 <= i < |items| && AlignmentArguments(items[i]) == Ok(a)
    ensures (forall i :: 0 <= i < |items| ==> items[i].germlineAlignmentSequence.Some? && items[i].GetDnaSequence().Some?) ==>
      |Requested(items)| == |items| &&
      forall i :: 0 <= i < |items| ==> (Requested(items)[i] ==
        (items[i].germlineAlignmentSequence.value.name, items[i].GetDnaSequence().value.id, items[i].germlineAlignmentSequence.value.id))
  {
    OkValuesSpec(ArgumentsAll(items));
  }

  // The step

  /**
   * The body of the loop for one item: the record it adds to `results`, and
   * the arguments passed to `create_template_alignment`, if the item has both sequences.
   */
  method AlignOne(services: Services, results: StepResults<Item, Item>, item: Item) returns (call: Option<(string, string, string)>)
    requires item.Valid() && item.Stage() == 6
    modifies results
    ensures results.Report() == Record(old(results.Report()), Classify(services, item))
    ensures call == if AlignmentArguments(item).Ok? then Some(AlignmentArguments(item).value) else None
  {
    var args := AlignmentArguments(item);
    if args.Err? {
      results.AddFailed(item, args.message);
      return None;
    }
    var raised := services.createTemplateAlignment(args.value.0, args.value.1, args.value.2);
    if raised.Some? {
      results.AddFailed(item, raised.value);
    } else {
      results.AddSucceeded(CreateNucleotideTemplateAlignmentResult(item));
    }
    return Some(args.value);
  }

  /** `CreateNucleotideTemplateAlignmentStep.execute`; `calls` are the argument triples passed to the service. */
  method Execute(services: Services, items: seq<Item>) returns (results: StepResults<Item, Item>, calls: seq<(string, string, string)>)
    requires AtStage(items, 6)
    ensures fresh(results)
    ensures results.Report() == CreateNucleotideTemplateAlignmentSpec(services, items)
    ensures calls == Requested(items)
  {
    results := new StepResults<Item, Item>(ResultsName);
    calls := [];
    if |items| == 0 {
      return;
    }
    ghost var outs := Outcomes(services, items);
    ghost var rs := ArgumentsAll(items);
    for i := 0 to |items|
      invariant results.Report() == Route(ResultsName, outs[..i])
      invariant calls == OkValues(rs[..i])
    {
      OkValuesStep(rs, i);
      RoutePrefixStep(ResultsName, outs, i);
      assert outs[i] == Classify(services, items[i]) && rs[i] == AlignmentArguments(items[i]);
      var call := AlignOne(services, results, items[i]);
      if call.Some? {
        calls := calls + [call.value];
      }
    }
    assert outs[..|items|] == outs && rs[..|items|] == rs;
  }
}

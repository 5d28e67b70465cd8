/**
 * The second step: fetch, in one bulk call, the DNA sequence of every validated
 * event and pair each event with it.
 */
module GetDnaSequences {
  import opened Wrappers
  import opened Models
  import opened Dicts
  import opened FlowBase
  import opened SequenceAnnotation

  const ResultsName: string := "GetDnaSequencesStepResults"

  const Label: string := "Get DNA sequences"

  /** The ids passed to the bulk fetch: the entity ids, in item order. */
  function EntityIds(items: seq<Item>): (ids: seq<string>)
    requires AtStage(items, 0)
    ensures |ids| == |items|
    ensures forall i :: 0 <= i < |items| ==> ids[i] == items[i].event.entity.id
  {
    seq(|items|, i requires 0 <= i < |items| => items[i].event.entity.id)
  }

  /** `{dna_sequence.id: dna_sequence for dna_sequence in dna_sequences}`. */
  function ById(sequences: seq<DnaSequence>): map<string, DnaSequence> {
    MapBy(sequences, (s: DnaSequence) => s.id)
  }

  /** `dict.get(id)`. */
  function Lookup(byId: map<string, DnaSequence>, id: string): (r: Option<DnaSequence>)
    ensures r.Some? <==> id in byId
    ensures r.Some? ==> r.value == byId[id]
  {
    if id in byId then Some(byId[id]) else None
  }

  /** The bulk call the step makes, if any: none for no items. */
  function Request(items: seq<Item>): (r: Option<seq<string>>)
    requires AtStage(items, 0)
    ensures r.None? <==> items == []
  {
    if items == [] then None else Some(EntityIds(items))
  }

  /** Every item succeeds, paired with what the fetch returned for its id. */
  function Outcomes(services: Services, items: seq<Item>): (outs: seq<Outcome<Item, Item>>)
    requires AtStage(items, 0)
    ensures |outs| == |items|
  {
    if items == [] then []
    else
      var byId := ById(services.getDnaSequencesById(EntityIds(items)));
      seq(|items|, i requires 0 <= i < |items| =>
        Succeeded(GetDnaSequenceResult(items[i], Lookup(byId, items[i].event.entity.id))))
  }

  /**
   * The results `GetDnaSequencesStep.execute(items)` returns: every item
   * succeeds, in input order, as a well-formed record that points to it;
   * nothing is warned or failed.
   */
  function GetDnaSequencesSpec(services: Services, items: seq<Item>): (r: StepReport<Item, Item>)
    requires AtStage(items, 0)
    ensures r.name == ResultsName && r.warning == [] && r.failed == []
    ensures |r.succeeded| == |items|
    ensures forall i :: 0 <= i < |items| ==>
      r.succeeded[i].GetDnaSequenceResult? && r.succeeded[i].previous == items[i] &&
      r.succeeded[i].Valid() && r.succeeded[i].Stage() == 1
  {
    var outs := Outcomes(services, items);
    RouteIsFilter(ResultsName, outs);
    AllSucceeded(outs);
    Route(ResultsName, outs)
  }

  /**
   * The sequence paired with an item is one the fetch returned under the item's
   * entity id, and there is none exactly when the fetch returned no sequence
   * with that id.
   */
  lemma GetDnaSequencesPairs(services: Services, items: seq<Item>, i: nat)
    requires AtStage(items, 0) && i < |items|
    ensures var fetched := services.getDnaSequencesById(EntityIds(items));
      var x := GetDnaSequencesSpec(services, items).succeeded[i];
      (x.dnaSequence.Some? ==> x.dnaSequence.value in fetched && x.dnaSequence.value.id == items[i].event.entity.id) &&
      (x.dnaSequence.None? <==> forall s :: s in fetched ==> s.id != items[i].event.entity.id)
  {
    var outs := Outcomes(services, items);
    RouteIsFilter(ResultsName, outs);
    AllSucceeded(outs);
  }

  /** When the fetch returns the same id more than once, the later sequence is kept. */
  lemma GetDnaSequencesLastWins(services: Services, items: seq<Item>, i: nat, j: nat)
    requires AtStage(items, 0) && i < |items|
    requires var fetched := services.getDnaSequencesById(EntityIds(items));
      j < |fetched| && fetched[j].id == items[i].event.entity.id &&
      forall k :: j < k < |fetched| ==> fetched[k].id != fetched[j].id
    ensures GetDnaSequencesSpec(services, items).succeeded[i].dnaSequence ==
      Some(services.getDnaSequencesById(EntityIds(items))[j])
  {
    var outs := Outcomes(services, items);
    RouteIsFilter(ResultsName, outs);
    AllSucceeded(outs);
    MapByLastWins(services.getDnaSequencesById(EntityIds(items)), (s: DnaSequence) => s.id, j);
  }

  /** `GetDnaSequencesStep.execute`; `requested` is the id list of the one bulk fetch, if made. */
  method Execute(services: Services, items: seq<Item>) returns (results: StepResults<Item, Item>, requested: Option<seq<string>>)
    requires AtStage(items, 0)
    ensures fresh(results)
    ensures results.Report() == GetDnaSequencesSpec(services, items)
    ensures requested == Request(items)
  {
    results := new StepResults(ResultsName);
    if |items| == 0 {
      return results, None;
    }
    var ids := EntityIds(items);
    requested := Some(ids);
    var byId := ById(services.getDnaSequencesById(ids));
    ghost var outs := Outcomes(services, items);
    var i := 0;
    while i < |items|
      invariant 0 <= i <= |items|
      invariant results.Report() == RecordAll(EmptyReport(ResultsName), outs[..i])
    {
      results.AddSucceeded(GetDnaSequenceResult(items[i], Lookup(byId, items[i].event.entity.id)));
      assert outs[..i + 1][..i] == outs[..i];
      i := i + 1;
    }
    assert outs[..i] == outs;
  }
}

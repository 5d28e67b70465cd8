/**
 * The third step: find the species of every fetched DNA sequence. A DNA feature
 * names it in its own "Source Species" field; a DNA sequence points through its
 * "Source: Clone" field to a clone entity, fetched in one bulk call, whose
 * "Species" field names it. Only the species IgBLAST supports pass.
 */
module GetSpecies {
  import opened Wrappers
  import opened Values
  import opened Models
  import opened Dicts
  import opened BenchlingFields
  import opened FlowBase
  import opened SequenceAnnotation
  import opened IgBlastToBenchling

  const ResultsName: string := "GetSpeciesStepResults"

  const Label: string := "Filter events"

  /** The item's `dna_schema_type` is `t`. */
  predicate Of(x: Item, t: DnaSchemaType)
    requires x.Valid() && x.Stage() == 1
  {
    x.GetDnaSchemaType() == Some(t)
  }

  /** The id of the item's DNA sequence, None when none was fetched. */
  function DnaId(x: Item): (id: Option<string>)
    requires x.Valid() && x.Stage() == 1
    ensures id.Some? <==> x.GetDnaSequence().Some?
    ensures id.Some? ==> id.value == x.GetDnaSequence().value.id
  {
    match x.GetDnaSequence()
    case None => None
    case Some(dna) => Some(dna.id)
  }

  /** The item's "Source: Clone" value, `Null` when the field is absent. */
  function CloneValue(x: Item): (v: Value)
    requires x.Valid() && x.Stage() == 1 && x.GetDnaSequence().Some?
    ensures v == FieldValue(x.GetDnaSequence().value.fields, "Source: Clone")
  {
    FieldValue(x.GetDnaSequence().value.fields, DnaSequenceFieldKey.SourceClone.Key())
  }

  /**
   * The first dict comprehension: DNA id to "Source Species" text over the
   * feature items, later items winning; an item without a DNA sequence raises.
   */
  function FeatureSpecies(items: seq<Item>): (r: Result<map<string, Option<string>>>)
    requires AtStage(items, 1)
    ensures r.Err? ==> r.message == NoneHasNoId
    decreases |items|
  {
    if items == [] then Ok(map[])
    else
      var init :- FeatureSpecies(items[..|items| - 1]);
      var x := items[|items| - 1];
      if !Of(x, Feature) then Ok(init)
      else
        match x.GetDnaSequence()
        case None => Err(NoneHasNoId)
        case Some(dna) => Ok(init[dna.id := FieldText(dna.fields, DnaFeatureFieldKey.SourceSpecies.Key())])
  }

  /**
   * The second dict comprehension: DNA id to "Source: Clone" value over the
   * sequence items, later items winning; an item without a DNA sequence or
   * without the field raises.
   */
  function CloneIds(items: seq<Item>): (r: Result<map<string, Value>>)
    requires AtStage(items, 1)
    ensures r.Err? ==> r.message == NoneHasNoId || r.message == NoneHasNoValue
    decreases |items|
  {
    if items == [] then Ok(map[])
    else
      var init :- CloneIds(items[..|items| - 1]);
      var x := items[|items| - 1];
      if !Of(x, Sequence) then Ok(init)
      else
        match x.GetDnaSequence()
        case None => Err(NoneHasNoId)
        case Some(dna) =>
          if DnaSequenceFieldKey.SourceClone.Key() !in dna.fields then Err(NoneHasNoValue)
          else Ok(init[dna.id := dna.fields[DnaSequenceFieldKey.SourceClone.Key()].value])
  }

  /** `set(clones.values())`: a list value cannot be hashed. */
  function UniqueIds(clones: map<string, Value>): (r: Result<set<Value>>)
    ensures r.Ok? <==> forall k :: k in clones ==> !clones[k].Items?
    ensures r.Err? ==> r.message == UnhashableList
    ensures r.Ok? ==> forall k :: k in clones ==> clones[k] in r.value
    ensures r.Ok? ==> forall v :: v in r.value ==> exists k :: k in clones && clones[k] == v
  {
    if exists k :: k in clones && clones[k].Items? then Err(UnhashableList) else Ok(clones.Values)
  }

  /** The third dict comprehension: clone entity id to its "Species" text, later entities winning. */
  function SpeciesByEntity(entities: seq<CustomEntity>): map<string, Option<string>> {
    var byId := MapBy(entities, (e: CustomEntity) => e.id);
    map k | k in byId :: FieldText(byId[k].fields, DnaSequenceFieldKey.Species.Key())
  }

  /** `species_by_custom_entity_id.get(custom_entity_id)`: only a string can match an entity id. */
  function EntitySpecies(byEntity: map<string, Option<string>>, cloneId: Value): Option<string> {
    if cloneId.Str? && cloneId.text in byEntity then byEntity[cloneId.text] else None
  }

  /** The clone species written over the feature species, as the update loop leaves the dict. */
  function Overridden(speciesById: map<string, Option<string>>, clones: map<string, Value>, byEntity: map<string, Option<string>>): (r: map<string, Option<string>>)
    ensures r.Keys == speciesById.Keys + clones.Keys
    ensures forall k :: k in clones ==> r[k] == EntitySpecies(byEntity, clones[k])
    ensures forall k :: k in speciesById && k !in clones ==> r[k] == speciesById[k]
  {
    speciesById + map k | k in clones :: EntitySpecies(byEntity, clones[k])
  }

  /** `_get_species_by_dna_sequence_id(items)`. */
  function SpeciesById(services: Services, items: seq<Item>): Result<map<string, Option<string>>>
    requires AtStage(items, 1)
  {
    var feature :- FeatureSpecies(items);
    var clones :- CloneIds(items);
    var ids :- UniqueIds(clones);
    if |ids| == 0 then Ok(feature)
    else Ok(Overridden(feature, clones, SpeciesByEntity(services.getCustomEntitiesById(ids))))
  }

  /** The ids the custom-entity fetch is called with, None when it is not called. */
  function EntityRequest(items: seq<Item>): Option<set<Value>>
    requires AtStage(items, 1)
  {
    match (FeatureSpecies(items), CloneIds(items))
    case (Ok(_), Ok(clones)) =>
      (match UniqueIds(clones)
       case Ok(ids) => if |ids| == 0 then None else Some(ids)
       case Err(_) => None)
    case _ => None
  }

  /** The fetch `execute` makes, if any: none for no items. */
  function Request(items: seq<Item>): (r: Option<set<Value>>)
    requires AtStage(items, 1)
    ensures items == [] ==> r.None?
  {
    if items == [] then None else EntityRequest(items)
  }

  /** The species check of the loop: a supported species succeeds, any other fails the item. */
  function Verdict(x: Item, species: Option<string>): (o: Outcome<Item, Item>)
    ensures o.Succeeded? <==> species.Some? && species.value in SpeciesNames
    ensures o.Succeeded? ==> o.result == GetSpeciesResult(x, species.value)
    ensures !o.Succeeded? ==> o == Failed(x, "Species \"" + Format(species) + "\" not supported")
  {
    if SpeciesOrganism(species).Some? then Succeeded(GetSpeciesResult(x, species.value))
    else Failed(x, "Species \"" + Format(species) + "\" not supported")
  }

  /** One iteration of the loop; `item.dna_sequence.id` raises when nothing was fetched. */
  function Classify(m: map<string, Option<string>>, x: Item): Result<Outcome<Item, Item>>
    requires x.Valid() && x.Stage() == 1
  {
    match x.GetDnaSequence()
    case None => Err(NoneHasNoId)
    case Some(dna) => Ok(Verdict(x, if dna.id in m then m[dna.id] else None))
  }

  /** Every iteration of the loop, each on its own. */
  function ClassifyAll(m: map<string, Option<string>>, items: seq<Item>): (rs: seq<Result<Outcome<Item, Item>>>)
    requires AtStage(items, 1)
    ensures |rs| == |items|
    ensures forall i :: 0 <= i < |items| ==> rs[i] == Classify(m, items[i])
  {
    seq(|items|, i requires 0 <= i < |items| => Classify(m, items[i]))
  }

  /** The outcomes of the loop, or the exception that ends the step. */
  function StepOutcomes(services: Services, items: seq<Item>): Result<seq<Outcome<Item, Item>>>
    requires AtStage(items, 1)
  {
    var m :- SpeciesById(services, items);
    Collect(ClassifyAll(m, items))
  }

  /** The results `GetSpeciesStep.execute(items)` returns, or the exception it raises. */
  function GetSpeciesSpec(services: Services, items: seq<Item>): (r: Result<StepReport<Item, Item>>)
    requires AtStage(items, 1)
    ensures items == [] ==> r == Ok(EmptyReport(ResultsName))
  {
    if items == [] then Ok(EmptyReport(ResultsName))
    else
      var outs :- StepOutcomes(services, items);
      Ok(Route(ResultsName, outs))
  }

  // The comprehensions

  /** The feature comprehension raises exactly when a feature item has no DNA sequence. */
  lemma {:induction false} FeatureSpeciesErr(items: seq<Item>)
    requires AtStage(items, 1)
    ensures FeatureSpecies(items).Err? <==>
      exists i :: 0 <= i < |items| && Of(items[i], Feature) && items[i].GetDnaSequence().None?
    decreases |items|
  {
    if items != [] {
      var init := items[..|items| - 1];
      assert forall i :: 0 <= i < |init| ==> init[i] == items[i];
      FeatureSpeciesErr(init);
    }
  }

  /** A feature item's entry is its own "Source Species" text unless a later feature item has its id. */
  lemma {:induction false} FeatureLastWins(items: seq<Item>, i: nat)
    requires AtStage(items, 1) && i < |items|
    requires FeatureSpecies(items).Ok? && Of(items[i], Feature)
    requires forall j :: i < j < |items| && Of(items[j], Feature) ==> DnaId(items[j]) != DnaId(items[i])
    ensures items[i].GetDnaSequence().Some?
    ensures items[i].GetDnaSequence().value.id in FeatureSpecies(items).value
    ensures FeatureSpecies(items).value[items[i].GetDnaSequence().value.id] ==
      FieldText(items[i].GetDnaSequence().value.fields, "Source Species")
    decreases |items|
  {
    var init := items[..|items| - 1];
    assert forall j :: 0 <= j < |init| ==> init[j] == items[j];
    if i < |items| - 1 {
      FeatureLastWins(init, i);
    }
  }

  /** Every key of the feature comprehension is the DNA id of a feature item. */
  lemma {:induction false} FeatureKeys(items: seq<Item>)
    requires AtStage(items, 1) && FeatureSpecies(items).Ok?
    ensures forall k :: k in FeatureSpecies(items).value ==>
      exists j :: 0 <= j < |items| && Of(items[j], Feature) && DnaId(items[j]) == Some(k)
    decreases |items|
  {
    if items != [] {
      var init := items[..|items| - 1];
      assert forall j :: 0 <= j < |init| ==> init[j] == items[j];
      FeatureKeys(init);
    }
  }

  /** The clone comprehension raises exactly when a sequence item has no DNA sequence or no "Source: Clone" field. */
  lemma {:induction false} CloneIdsErr(items: seq<Item>)
    requires AtStage(items, 1)
    ensures CloneIds(items).Err? <==>
      exists i :: 0 <= i < |items| && Of(items[i], Sequence) &&
        (items[i].GetDnaSequence().None? || "Source: Clone" !in items[i].GetDnaSequence().value.fields)
    decreases |items|
  {
    if items != [] {
      var init := items[..|items| - 1];
      assert forall i :: 0 <= i < |init| ==> init[i] == items[i];
      CloneIdsErr(init);
    }
  }

  /** A sequence item's entry is its own "Source: Clone" value unless a later sequence item has its id. */
  lemma {:induction false} CloneLastWins(items: seq<Item>, i: nat)
    requires AtStage(items, 1) && i < |items|
    requires CloneIds(items).Ok? && Of(items[i], Sequence)
    requires forall j :: i < j < |items| && Of(items[j], Sequence) ==> DnaId(items[j]) != DnaId(items[i])
    ensures items[i].GetDnaSequence().Some?
    ensures items[i].GetDnaSequence().value.id in CloneIds(items).value
    ensures CloneIds(items).value[items[i].GetDnaSequence().value.id] == CloneValue(items[i])
    decreases |items|
  {
    var init := items[..|items| - 1];
    assert forall j :: 0 <= j < |init| ==> init[j] == items[j];
    if i < |items| - 1 {
      CloneLastWins(init, i);
    }
  }

  /** Every entry of the clone comprehension comes from a sequence item. */
  lemma {:induction false} CloneKeys(items: seq<Item>)
    requires AtStage(items, 1) && CloneIds(items).Ok?
    ensures forall k :: k in CloneIds(items).value ==>
      exists j :: 0 <= j < |items| && Of(items[j], Sequence) && DnaId(items[j]) == Some(k) &&
        CloneIds(items).value[k] == CloneValue(items[j])
    decreases |items|
  {
    if items != [] {
      var init := items[..|items| - 1];
      assert forall j :: 0 <= j < |init| ==> init[j] == items[j];
      CloneKeys(init);
    }
  }

  /** The species of a clone id is the "Species" text of the last fetched entity with that id. */
  lemma EntitySpeciesLastWins(entities: seq<CustomEntity>, j: nat)
    requires j < |entities|
    requires forall k :: j < k < |entities| ==> entities[k].id != entities[j].id
    ensures EntitySpecies(SpeciesByEntity(entities), Str(entities[j].id)) == FieldText(entities[j].fields, "Species")
  {
    MapByLastWins(entities, (e: CustomEntity) => e.id, j);
  }

  /** A clone id that is not a string, or that no fetched entity has, has no species. */
  lemma EntitySpeciesAbsent(entities: seq<CustomEntity>, cloneId: Value)
    requires !cloneId.Str? || forall e :: e in entities ==> e.id != cloneId.text
    ensures EntitySpecies(SpeciesByEntity(entities), cloneId).None?
  {
  }

  // The step

  /** The custom entities are fetched at most once, and only when some item is a DNA sequence. */
  lemma RequestOnlyForSequences(items: seq<Item>)
    requires AtStage(items, 1)
    ensures Request(items).Some? ==> exists i :: 0 <= i < |items| && Of(items[i], Sequence)
    ensures Request(items).Some? ==> Request(items).value == CloneIds(items).value.Values
  {
    if Request(items).Some? {
      var clones := CloneIds(items).value;
      assert Request(items) == Some(clones.Values) && |clones.Values| > 0;
      var v :| v in clones.Values;
      var k :| k in clones && clones[k] == v;
      CloneKeys(items);
      var j :| 0 <= j < |items| && Of(items[j], Sequence) && DnaId(items[j]) == Some(k) && clones[k] == CloneValue(items[j]);
    }
  }

  /** The DNA id of every sequence item is a key of the clone comprehension. */
  lemma {:induction false} CloneHasEverySequence(items: seq<Item>, i: nat)
    requires AtStage(items, 1) && i < |items|
    requires CloneIds(items).Ok? && Of(items[i], Sequence)
    ensures items[i].GetDnaSequence().Some?
    ensures items[i].GetDnaSequence().value.id in CloneIds(items).value
    decreases |items|
  {
    var init := items[..|items| - 1];
    assert forall j :: 0 <= j < |init| ==> init[j] == items[j];
    if i < |items| - 1 {
      CloneHasEverySequence(init, i);
    }
  }

  /** A sequence item makes the fetch happen, unless the comprehensions raise first. */
  lemma RequestForEverySequence(items: seq<Item>, i: nat)
    requires AtStage(items, 1) && i < |items| && Of(items[i], Sequence)
    requires FeatureSpecies(items).Ok? && CloneIds(items).Ok? && UniqueIds(CloneIds(items).value).Ok?
    ensures Request(items).Some?
  {
    var m := CloneIds(items).value;
    CloneHasEverySequence(items, i);
    assert m[items[i].GetDnaSequence().value.id] in UniqueIds(m).value;
  }

  /** The outcome of item `i` is the verdict on the species the lookup gives for its DNA id. */
  lemma OutcomeIsVerdict(services: Services, items: seq<Item>, i: nat)
    requires AtStage(items, 1) && i < |items| && StepOutcomes(services, items).Ok?
    ensures SpeciesById(services, items).Ok? && items[i].GetDnaSequence().Some?
    ensures var m := SpeciesById(services, items).value;
      var id := items[i].GetDnaSequence().value.id;
      StepOutcomes(services, items).value[i] == Verdict(items[i], if id in m then m[id] else None)
  {
    var m := SpeciesById(services, items).value;
    var rs := ClassifyAll(m, items);
    CollectOk(rs);
    assert rs[i].Ok?;
  }

  /**
   * A feature item whose DNA id no sequence item and no later feature item
   * shares is judged on its own "Source Species" text.
   */
  lemma GetSpeciesOfFeature(services: Services, items: seq<Item>, i: nat)
    requires AtStage(items, 1) && i < |items| && StepOutcomes(services, items).Ok?
    requires Of(items[i], Feature)
    requires forall j :: i < j < |items| && Of(items[j], Feature) ==> DnaId(items[j]) != DnaId(items[i])
    requires forall j :: 0 <= j < |items| && Of(items[j], Sequence) ==> DnaId(items[j]) != DnaId(items[i])
    ensures items[i].GetDnaSequence().Some?
    ensures StepOutcomes(services, items).value[i] ==
      Verdict(items[i], FieldText(items[i].GetDnaSequence().value.fields, "Source Species"))
  {
    OutcomeIsVerdict(services, items, i);
    FeatureLastWins(items, i);
    CloneKeys(items);
    var id := items[i].GetDnaSequence().value.id;
    assert id !in CloneIds(items).value;
  }

  /**
   * A sequence item whose DNA id no later sequence item shares is judged on the
   * species of the fetched entity its "Source: Clone" value names.
   */
  lemma GetSpeciesOfSequence(services: Services, items: seq<Item>, i: nat)
    requires AtStage(items, 1) && i < |items| && StepOutcomes(services, items).Ok?
    requires Of(items[i], Sequence)
    requires forall j :: i < j < |items| && Of(items[j], Sequence) ==> DnaId(items[j]) != DnaId(items[i])
    ensures Request(items).Some? && items[i].GetDnaSequence().Some?
    ensures StepOutcomes(services, items).value[i] ==
      Verdict(items[i], EntitySpecies(SpeciesByEntity(services.getCustomEntitiesById(Request(items).value)), CloneValue(items[i])))
  {
    OutcomeIsVerdict(services, items, i);
    RequestForEverySequence(items, i);
    CloneLastWins(items, i);
  }

  /** Each outcome is that of its own item: a supported species succeeds, anything else fails. */
  ghost predicate Judged(items: seq<Item>, outs: seq<Outcome<Item, Item>>) {
    |outs| == |items| &&
    forall i :: 0 <= i < |outs| ==>
      (outs[i].Succeeded? ==>
        outs[i].result.GetSpeciesResult? && outs[i].result.previous == items[i] && outs[i].result.species in SpeciesNames) &&
      (!outs[i].Succeeded? ==> outs[i].Failed? && outs[i].previous == items[i])
  }

  lemma StepOutcomesJudged(services: Services, items: seq<Item>)
    requires AtStage(items, 1) && StepOutcomes(services, items).Ok?
    ensures Judged(items, StepOutcomes(services, items).value)
  {
    forall i | 0 <= i < |items| {
      OutcomeIsVerdict(services, items, i);
    }
  }

  /** Judged outcomes route to succeeded and failed only, one record per item. */
  lemma JudgedReport(items: seq<Item>, outs: seq<Outcome<Item, Item>>)
    requires AtStage(items, 1) && Judged(items, outs)
    ensures Route(ResultsName, outs).name == ResultsName
    ensures Route(ResultsName, outs).warning == []
    ensures |Route(ResultsName, outs).succeeded| + |Route(ResultsName, outs).failed| == |items|
  {
    RouteIsFilter(ResultsName, outs);
    FiltersPartition(outs);
    NoWarnings(outs);
  }

  /** Each record routed from judged outcomes is one of the items or wraps one with a supported species. */
  lemma JudgedReportMembers(items: seq<Item>, outs: seq<Outcome<Item, Item>>)
    requires AtStage(items, 1) && Judged(items, outs)
    ensures forall x :: x in Route(ResultsName, outs).succeeded ==>
      x.GetSpeciesResult? && x.species in SpeciesNames && x.Valid() && x.Stage() == 2 && x.previous in items
    ensures forall f :: f in Route(ResultsName, outs).failed ==> f.payload in items
  {
    RouteIsFilter(ResultsName, outs);
    SuccessesMembers(outs);
    FailuresMembers(outs);
  }

  /** Each item has exactly one outcome, succeeded or failed, in input order; nothing is warned. */
  lemma GetSpeciesAccounts(services: Services, items: seq<Item>)
    requires AtStage(items, 1) && GetSpeciesSpec(services, items).Ok?
    ensures GetSpeciesSpec(services, items).value.name == ResultsName
    ensures GetSpeciesSpec(services, items).value.warning == []
    ensures |GetSpeciesSpec(services, items).value.succeeded| + |GetSpeciesSpec(services, items).value.failed| == |items|
    ensures forall x :: x in GetSpeciesSpec(services, items).value.succeeded ==>
      x.GetSpeciesResult? && x.species in SpeciesNames && x.Valid() && x.Stage() == 2 && x.previous in items
    ensures forall f :: f in GetSpeciesSpec(services, items).value.failed ==> f.payload in items
  {
    if items != [] {
      var outs := StepOutcomes(services, items).value;
      assert GetSpeciesSpec(services, items) == Ok(Route(ResultsName, outs));
      StepOutcomesJudged(services, items);
      JudgedReport(items, outs);
      JudgedReportMembers(items, outs);
    }
  }

  /** The step raises only for a missing DNA sequence, a missing clone field or a list-valued clone field. */
  lemma GetSpeciesErrors(services: Services, items: seq<Item>)
    requires AtStage(items, 1) && GetSpeciesSpec(services, items).Err?
    ensures GetSpeciesSpec(services, items).message in {NoneHasNoId, NoneHasNoValue, UnhashableList}
  {
    var m := SpeciesById(services, items);
    if m.Ok? {
      var rs := ClassifyAll(m.value, items);
      CollectErr(rs);
    }
  }

  /**
   * Every item has a DNA sequence, and every sequence item a non-list
   * "Source: Clone" value: then the step does not raise.
   */
  lemma GetSpeciesOkWhen(services: Services, items: seq<Item>)
    requires AtStage(items, 1)
    requires forall i :: 0 <= i < |items| ==> items[i].GetDnaSequence().Some?
    requires forall i :: 0 <= i < |items| && Of(items[i], Sequence) ==>
      "Source: Clone" in items[i].GetDnaSequence().value.fields && !CloneValue(items[i]).Items?
    ensures GetSpeciesSpec(services, items).Ok?
  {
    if items != [] {
      FeatureSpeciesErr(items);
      CloneIdsErr(items);
      CloneKeys(items);
      var m := SpeciesById(services, items).value;
      var rs := ClassifyAll(m, items);
      CollectOk(rs);
    }
  }

  /** The update loop over the clone comprehension's keys. */
  method OverrideSpecies(speciesById: map<string, Option<string>>, clones: map<string, Value>, byEntity: map<string, Option<string>>)
    returns (r: map<string, Option<string>>)
    ensures r == Overridden(speciesById, clones, byEntity)
  {
    r := speciesById;
    var keys := clones.Keys;
    ghost var done: set<string> := {};
    while keys != {}
      invariant keys !! done && keys + done == clones.Keys
      invariant r.Keys == speciesById.Keys + done
      invariant forall k :: k in done ==> r[k] == EntitySpecies(byEntity, clones[k])
      invariant forall k :: k in speciesById && k !in done ==> r[k] == speciesById[k]
      decreases keys
    {
      var k :| k in keys;
      r := r[k := EntitySpecies(byEntity, clones[k])];
      keys := keys - {k};
      done := done + {k};
    }
    ghost var o := Overridden(speciesById, clones, byEntity);
    assert r.Keys == o.Keys;
    assert forall k :: k in r ==> r[k] == o[k];
  }

  /** `_get_species_by_dna_sequence_id`; `requested` is the id set of the entity fetch, if made. */
  method SpeciesByDnaSequenceId(services: Services, items: seq<Item>)
    returns (r: Result<map<string, Option<string>>>, requested: Option<set<Value>>)
    requires AtStage(items, 1)
    ensures r == SpeciesById(services, items)
    ensures requested == EntityRequest(items)
  {
    var feature := FeatureSpecies(items);
    if feature.Err? {
      return Err(feature.message), None;
    }
    var clones := CloneIds(items);
    if clones.Err? {
      return Err(clones.message), None;
    }
    var ids := UniqueIds(clones.value);
    if ids.Err? {
      return Err(ids.message), None;
    }
    if |ids.value| == 0 {
      return Ok(feature.value), None;
    }
    requested := Some(ids.value);
    var byEntity := SpeciesByEntity(services.getCustomEntitiesById(ids.value));
    var m := OverrideSpecies(feature.value, clones.value, byEntity);
    r := Ok(m);
  }

  /** The loop of `GetSpeciesStep.execute` once the species lookup is built. */
  method ClassifyLoop(m: map<string, Option<string>>, items: seq<Item>) returns (r: Result<StepResults<Item, Item>>)
    requires AtStage(items, 1)
    ensures r.Ok? ==> fresh(r.value)
    ensures r.Ok? <==> Collect(ClassifyAll(m, items)).Ok?
    ensures r.Err? ==> r.message == Collect(ClassifyAll(m, items)).message
    ensures r.Ok? ==> r.value.Report() == Route(ResultsName, Collect(ClassifyAll(m, items)).value)
  {
    var results := new StepResults<Item, Item>(ResultsName);
    ghost var rs := ClassifyAll(m, items);
    ghost var done: seq<Outcome<Item, Item>> := [];
    for i := 0 to |items|
      invariant Collect(rs[..i]) == Ok(done)
      invariant results.Report() == Route(ResultsName, done)
    {
      var item := items[i];
      var dna := item.GetDnaSequence();
      if dna.None? {
        CollectFails(rs, i);
        return Err(NoneHasNoId);
      }
      var species := if dna.value.id in m then m[dna.value.id] else None;
      assert rs[i] == Ok(Verdict(item, species));
      if SpeciesOrganism(species).None? {
        results.AddFailed(item, "Species \"" + Format(species) + "\" not supported");
      } else {
        results.AddSucceeded(GetSpeciesResult(item, species.value));
      }
      RouteAppendOne(ResultsName, done, rs[i].value);
      CollectExtend(rs, i, done);
      done := done + [rs[i].value];
    }
    assert rs[..|items|] == rs;
    return Ok(results);
  }

  /** `GetSpeciesStep.execute`; `requested` is the id set of the entity fetch, if made. */
  method Execute(services: Services, items: seq<Item>)
    returns (r: Result<StepResults<Item, Item>>, requested: Option<set<Value>>)
    requires AtStage(items, 1)
    ensures r.Ok? ==> fresh(r.value)
    ensures r.Ok? <==> GetSpeciesSpec(services, items).Ok?
    ensures r.Err? ==> r.message == GetSpeciesSpec(services, items).message
    ensures r.Ok? ==> r.value.Report() == GetSpeciesSpec(services, items).value
    ensures requested == Request(items)
  {
    if |items| == 0 {
      var results := new StepResults<Item, Item>(ResultsName);
      return Ok(results), None;
    }
    var lookup;
    lookup, requested := SpeciesByDnaSequenceId(services, items);
    if lookup.Err? {
      return Err(lookup.message), requested;
    }
    r := ClassifyLoop(lookup.value, items);
  }
}

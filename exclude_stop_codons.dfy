/**
 * The fifth step: items whose IMGT row reports a stop codon are set aside
 * with a warning, and their DNA sequences get a comment saying why, in one
 * bulk update.
 */
module ExcludeStopCodons {
  import opened Wrappers
  import opened Values
  import opened Models
  import opened BenchlingFields
  import opened FlowBase
  import opened SequenceAnnotation
  import IgBlastToBenchling

  const ResultsName: string := "ExcludeStopCodonsStepResults"

  const Label: string := "Exclude sequences with stop codon"

  const StopCodonMessage: string := "Non-productive sequence: stop codon"

  /** The IMGT row of the item says `'stop_codon': 'T'`. */
  predicate HasStopCodon(x: Item)
    requires x.Valid() && x.Stage() == 3
  {
    x.GetAnalysis().imgtData.Some? && RowGet(x.GetAnalysis().imgtData.value, "stop_codon") == Str("T")
  }

  /**
   * One iteration of the loop. Any `'stop_codon'` other than `'T'`, a missing
   * one included, lets the item through; `'T'` warns. The session message
   * reads the DNA id, so an excluded item without a DNA sequence raises.
   */
  function Classify(x: Item): (r: Result<Outcome<Item, Item>>)
    requires x.Valid() && x.Stage() == 3
    ensures r.Err? <==> x.GetAnalysis().imgtData.None? || (HasStopCodon(x) && x.GetDnaSequence().None?)
    ensures r.Err? ==> r.message == (if x.GetAnalysis().imgtData.None? then NoneHasNoGet else NoneHasNoId)
    ensures r.Ok? ==> r.value == if HasStopCodon(x) then Warned(x, StopCodonMessage) else Succeeded(x)
  {
    match x.GetAnalysis().imgtData
    case None => Err(NoneHasNoGet)
    case Some(imgt) =>
      if RowGet(imgt, "stop_codon") != Str("T") then Ok(Succeeded(x))
      else if x.GetDnaSequence().None? then Err(NoneHasNoId)
      else Ok(Warned(x, StopCodonMessage))
  }

  function ClassifyAll(items: seq<Item>): (rs: seq<Result<Outcome<Item, Item>>>)
    requires AtStage(items, 3)
    ensures |rs| == |items|
    ensures forall i :: 0 <= i < |items| ==> rs[i] == Classify(items[i])
  {
    seq(|items|, i requires 0 <= i < |items| => Classify(items[i]))
  }

  /** The outcomes of the loop, or the exception that ends it. */
  function StepOutcomes(items: seq<Item>): Result<seq<Outcome<Item, Item>>>
    requires AtStage(items, 3)
  {
    Collect(ClassifyAll(items))
  }

  /** The items that pass, in input order. */
  function Productive(items: seq<Item>): (r: seq<Item>)
    requires AtStage(items, 3)
    ensures AtStage(r, 3)
    decreases |items|
  {
    if items == [] then []
    else
      var init := items[..|items| - 1];
      var x := items[|items| - 1];
      Productive(init) + (if HasStopCodon(x) then [] else [x])
  }

  /** The `excluded_dna_sequences` list: the items with a stop codon, in input order. */
  function NonProductive(items: seq<Item>): (r: seq<Item>)
    requires AtStage(items, 3)
    ensures AtStage(r, 3)
    decreases |items|
  {
    if items == [] then []
    else
      var init := items[..|items| - 1];
      var x := items[|items| - 1];
      NonProductive(init) + (if HasStopCodon(x) then [x] else [])
  }

  /** Each item set aside, with the stop-codon warning. */
  function StopCodonWarnings(xs: seq<Item>): (ws: seq<StepFailedResult<Item>>)
    ensures |ws| == |xs|
    ensures forall i :: 0 <= i < |xs| ==> ws[i] == StepFailedResult(xs[i], StopCodonMessage)
  {
    seq(|xs|, i requires 0 <= i < |xs| => StepFailedResult(xs[i], StopCodonMessage))
  }

  /**
   * `_to_dna_sequence_bulk_update`: the mapper's bulk update, without the
   * schema's computed fields, with the schema's Comment field set to the
   * stop-codon message. The schema type is read first, then the DNA fields.
   */
  function Payload(x: Item): (r: Result<DnaSequenceBulkUpdate>)
    requires x.Valid() && x.Stage() == 3
    ensures x.GetDnaSchemaType().None? ==> r == Err(NoneHasNoComputedFields)
    ensures x.GetDnaSchemaType().Some? && x.GetDnaSequence().None? ==> r == Err(NoneHasNoFields)
    ensures r.Ok? <==> x.GetDnaSchemaType().Some? && x.GetDnaSequence().Some?
    ensures r.Ok? ==>
      var t := x.GetDnaSchemaType().value;
      var dna := x.GetDnaSequence().value;
      r.value.id == dna.id && r.value.name == dna.name && r.value.bases == dna.bases &&
      r.value.folderId == dna.folderId && r.value.isCircular == dna.isCircular &&
      r.value.customFields == IgBlastToBenchling.CopiedFields(dna.customFields) &&
      t.CommentKey() in r.value.fields && r.value.fields[t.CommentKey()] == Str(StopCodonMessage) &&
      (forall k :: k != t.CommentKey() ==>
        (k in r.value.fields <==> k in dna.fields && dna.fields[k].value != Null && k !in t.ComputedFields())) &&
      (forall k :: k != t.CommentKey() && k in r.value.fields ==> r.value.fields[k] == dna.fields[k].value)
  {
    match x.GetDnaSchemaType()
    case None => Err(NoneHasNoComputedFields)
    case Some(t) =>
      match x.GetDnaSequence()
      case None => Err(NoneHasNoFields)
      case Some(dna) =>
        var u := IgBlastToBenchling.BulkUpdatePayload(dna, t.ComputedFields());
        Ok(u.(fields := u.fields[t.CommentKey() := Str(StopCodonMessage)]))
  }

  function PayloadAll(xs: seq<Item>): (rs: seq<Result<DnaSequenceBulkUpdate>>)
    requires AtStage(xs, 3)
    ensures |rs| == |xs|
    ensures forall i :: 0 <= i < |xs| ==> rs[i] == Payload(xs[i])
  {
    seq(|xs|, i requires 0 <= i < |xs| => Payload(xs[i]))
  }

  /** The list comprehension passed to `update_dna_sequences`, or the exception it raises. */
  function Updates(xs: seq<Item>): Result<seq<DnaSequenceBulkUpdate>>
    requires AtStage(xs, 3)
  {
    Collect(PayloadAll(xs))
  }

  /** The results `ExcludeStopCodonsStep.execute(items)` returns, or the exception it raises. */
  function ExcludeStopCodonsSpec(items: seq<Item>): Result<StepReport<Item, Item>>
    requires AtStage(items, 3)
  {
    var outs :- StepOutcomes(items);
    var _ :- Updates(NonProductive(items));
    Ok(Route(ResultsName, outs))
  }

  /** The bulk update the step submits, if it gets that far and has anything to exclude. */
  function Request(items: seq<Item>): Option<seq<DnaSequenceBulkUpdate>>
    requires AtStage(items, 3)
  {
    if StepOutcomes(items).Err? || NonProductive(items) == [] then None
    else
      match Updates(NonProductive(items))
      case Err(_) => None
      case Ok(us) => Some(us)
  }

  // Properties

  /** The two filters split the items. */
  lemma FiltersSplit(items: seq<Item>)
    requires AtStage(items, 3)
    ensures |Productive(items)| + |NonProductive(items)| == |items|
    ensures (forall i :: 0 <= i < |items| ==> !HasStopCodon(items[i])) ==> Productive(items) == items
    ensures NonProductive(items) == [] <==> forall i :: 0 <= i < |items| ==> !HasStopCodon(items[i])
  {
    FiltersCount(items);
    FiltersClean(items);
    FiltersNoneExcluded(items);
  }

  /** Every item goes to exactly one of the two filters. */
  lemma {:induction false} FiltersCount(items: seq<Item>)
    requires AtStage(items, 3)
    ensures |Productive(items)| + |NonProductive(items)| == |items|
    decreases |items|
  {
    if items != [] {
      var init := items[..|items| - 1];
      assert forall i :: 0 <= i < |init| ==> init[i] == items[i];
      FiltersCount(init);
    }
  }

  /** Without a stop codon every item is productive. */
  lemma {:induction false} FiltersClean(items: seq<Item>)
    requires AtStage(items, 3)
    ensures (forall i :: 0 <= i < |items| ==> !HasStopCodon(items[i])) ==> Productive(items) == items
    decreases |items|
  {
    if items != [] && forall i :: 0 <= i < |items| ==> !HasStopCodon(items[i]) {
      var n := |items| - 1;
      var init := items[..n];
      assert forall i :: 0 <= i < |init| ==> init[i] == items[i];
      FiltersClean(init);
      assert !HasStopCodon(items[n]);
      assert init + [items[n]] == items;
    }
  }

  /** Nothing is excluded exactly when no item has a stop codon. */
  lemma {:induction false} FiltersNoneExcluded(items: seq<Item>)
    requires AtStage(items, 3)
    ensures NonProductive(items) == [] <==> forall i :: 0 <= i < |items| ==> !HasStopCodon(items[i])
    decreases |items|
  {
    if items != [] {
      var n := |items| - 1;
      var init := items[..n];
      assert forall i :: 0 <= i < |init| ==> init[i] == items[i];
      FiltersNoneExcluded(init);
    }
  }

  /** One more item extends the excluded ones by itself when it has a stop codon. */
  lemma NonProductiveStep(items: seq<Item>, i: nat)
    requires AtStage(items, 3) && i < |items|
    ensures NonProductive(items[..i + 1]) == NonProductive(items[..i]) + (if HasStopCodon(items[i]) then [items[i]] else [])
  {
    assert items[..i + 1][..i] == items[..i];
    assert items[..i + 1][i] == items[i];
  }

  /** Item by item, the outcome of an item that does not raise. */
  ghost predicate Judged(items: seq<Item>, outs: seq<Outcome<Item, Item>>)
    requires AtStage(items, 3)
  {
    |outs| == |items| &&
    forall i :: 0 <= i < |items| ==>
      outs[i] == if HasStopCodon(items[i]) then Warned(items[i], StopCodonMessage) else Succeeded(items[i])
  }

  lemma StepOutcomesJudged(items: seq<Item>)
    requires AtStage(items, 3) && StepOutcomes(items).Ok?
    ensures Judged(items, StepOutcomes(items).value)
    ensures forall i :: 0 <= i < |items| ==>
      items[i].GetAnalysis().imgtData.Some? && (HasStopCodon(items[i]) ==> items[i].GetDnaSequence().Some?)
  {
    CollectOk(ClassifyAll(items));
  }

  /** Judged outcomes route the productive items to succeeded and the others to warning. */
  lemma {:induction false} JudgedReport(items: seq<Item>, outs: seq<Outcome<Item, Item>>)
    requires AtStage(items, 3) && Judged(items, outs)
    ensures Route(ResultsName, outs) ==
      StepReport(ResultsName, Productive(items), StopCodonWarnings(NonProductive(items)), [])
    decreases |items|
  {
    if items != [] {
      var n := |items| - 1;
      var init := items[..n];
      assert forall i :: 0 <= i < |init| ==> init[i] == items[i];
      JudgedReport(init, outs[..n]);
      assert outs[..n] + [outs[n]] == outs;
      RouteAppendOne(ResultsName, outs[..n], outs[n]);
      assert StopCodonWarnings(NonProductive(items)) ==
        StopCodonWarnings(NonProductive(init)) + (if HasStopCodon(items[n]) then StopCodonWarnings([items[n]]) else []);
    }
  }

  /**
   * The items without a stop codon succeed unchanged, in input order; the
   * others are warned with the stop-codon message, in input order; nothing
   * fails, and every item is accounted for once.
   */
  lemma ExcludeStopCodonsPartition(items: seq<Item>)
    requires AtStage(items, 3) && ExcludeStopCodonsSpec(items).Ok?
    ensures ExcludeStopCodonsSpec(items).value.name == ResultsName
    ensures ExcludeStopCodonsSpec(items).value.succeeded == Productive(items)
    ensures ExcludeStopCodonsSpec(items).value.warning == StopCodonWarnings(NonProductive(items))
    ensures ExcludeStopCodonsSpec(items).value.failed == []
    ensures |ExcludeStopCodonsSpec(items).value.succeeded| + |ExcludeStopCodonsSpec(items).value.warning| == |items|
  {
    var outs := StepOutcomes(items).value;
    assert ExcludeStopCodonsSpec(items) == Ok(Route(ResultsName, outs));
    StepOutcomesJudged(items);
    JudgedReport(items, outs);
    FiltersSplit(items);
  }

  /** The excluded items all have a DNA sequence once the loop is through. */
  lemma {:induction false} NonProductiveHaveSequences(items: seq<Item>)
    requires AtStage(items, 3)
    requires forall i :: 0 <= i < |items| ==> HasStopCodon(items[i]) ==> items[i].GetDnaSequence().Some?
    ensures forall i :: 0 <= i < |NonProductive(items)| ==>
      HasStopCodon(NonProductive(items)[i]) && NonProductive(items)[i].GetDnaSequence().Some?
    decreases |items|
  {
    if items != [] {
      var init := items[..|items| - 1];
      assert forall i :: 0 <= i < |init| ==> init[i] == items[i];
      NonProductiveHaveSequences(init);
    }
  }

  /** Every excluded item is one of the items. */
  lemma {:induction false} NonProductiveMembers(items: seq<Item>)
    requires AtStage(items, 3)
    ensures forall x :: x in NonProductive(items) ==> x in items && HasStopCodon(x)
    decreases |items|
  {
    if items != [] {
      var init := items[..|items| - 1];
      NonProductiveMembers(init);
    }
  }

  /**
   * The step raises exactly when an item has no IMGT row, an item with a stop
   * codon has no DNA sequence, or one has no schema type; the DNA fields are
   * never read from a missing sequence.
   */
  lemma ExcludeStopCodonsOkIff(items: seq<Item>)
    requires AtStage(items, 3)
    ensures ExcludeStopCodonsSpec(items).Ok? <==>
      forall i :: 0 <= i < |items| ==>
        items[i].GetAnalysis().imgtData.Some? &&
        (HasStopCodon(items[i]) ==> items[i].GetDnaSequence().Some? && items[i].GetDnaSchemaType().Some?)
    ensures ExcludeStopCodonsSpec(items).Err? ==>
      ExcludeStopCodonsSpec(items).message in {NoneHasNoGet, NoneHasNoId, NoneHasNoComputedFields}
  {
    var rs := ClassifyAll(items);
    CollectOk(rs);
    if StepOutcomes(items).Ok? {
      StepOutcomesJudged(items);
      var xs := NonProductive(items);
      var ps := PayloadAll(xs);
      CollectOk(ps);
      NonProductiveHaveSequences(items);
      NonProductiveMembers(items);
      if Updates(xs).Err? {
        CollectErr(ps);
        var j :| 0 <= j < |xs| && ps[j] == Err(Updates(xs).message);
        assert xs[j] in items;
        var i :| 0 <= i < |items| && items[i] == xs[j];
      } else {
        forall i | 0 <= i < |items| && HasStopCodon(items[i])
          ensures items[i].GetDnaSchemaType().Some?
        {
          NonProductiveHas(items, i);
          var j :| 0 <= j < |xs| && xs[j] == items[i];
          assert ps[j].Ok?;
        }
      }
    } else {
      CollectErr(rs);
    }
  }

  /** Every item with a stop codon is in the excluded list. */
  lemma {:induction false} NonProductiveHas(items: seq<Item>, i: nat)
    requires AtStage(items, 3) && i < |items| && HasStopCodon(items[i])
    ensures exists j :: 0 <= j < |NonProductive(items)| && NonProductive(items)[j] == items[i]
    decreases |items|
  {
    var init := items[..|items| - 1];
    if i < |items| - 1 {
      assert init[i] == items[i];
      NonProductiveHas(init, i);
      var j :| 0 <= j < |NonProductive(init)| && NonProductive(init)[j] == items[i];
      assert NonProductive(items)[j] == items[i];
    } else {
      assert NonProductive(items)[|NonProductive(init)|] == items[i];
    }
  }

  /**
   * The bulk update is made exactly when the step does not raise and some
   * item has a stop codon; it holds one payload per excluded item, in order.
   */
  lemma RequestWhen(items: seq<Item>)
    requires AtStage(items, 3)
    ensures Request(items).Some? <==>
      ExcludeStopCodonsSpec(items).Ok? && exists i :: 0 <= i < |items| && HasStopCodon(items[i])
    ensures Request(items).Some? ==>
      |Request(items).value| == |NonProductive(items)| &&
      forall j :: 0 <= j < |NonProductive(items)| ==>
        Payload(NonProductive(items)[j]) == Ok(Request(items).value[j])
  {
    FiltersSplit(items);
    if Request(items).Some? {
      CollectOk(PayloadAll(NonProductive(items)));
    }
  }

  // The step

  /** `_to_dna_sequence_bulk_update`, setting the comment in the payload's field map. */
  method ToDnaSequenceBulkUpdate(x: Item) returns (r: Result<DnaSequenceBulkUpdate>)
    requires x.Valid() && x.Stage() == 3
    ensures r == Payload(x)
  {
    var t := x.GetDnaSchemaType();
    if t.None? {
      return Err(NoneHasNoComputedFields);
    }
    var dna := x.GetDnaSequence();
    if dna.None? {
      return Err(NoneHasNoFields);
    }
    var payload := IgBlastToBenchling.ToDnaSequenceBulkUpdate(dna.value, t.value.ComputedFields());
    var fields := payload.fields[t.value.CommentKey() := Str(StopCodonMessage)];
    r := Ok(payload.(fields := fields));
  }

  /** The list comprehension over the excluded items. */
  method BuildUpdates(xs: seq<Item>) returns (r: Result<seq<DnaSequenceBulkUpdate>>)
    requires AtStage(xs, 3)
    ensures r == Updates(xs)
  {
    ghost var ps := PayloadAll(xs);
    var updates: seq<DnaSequenceBulkUpdate> := [];
    for i := 0 to |xs|
      invariant Collect(ps[..i]) == Ok(updates)
    {
      var u := ToDnaSequenceBulkUpdate(xs[i]);
      if u.Err? {
        CollectFails(ps, i);
        return Err(u.message);
      }
      CollectExtend(ps, i, updates);
      updates := updates + [u.value];
    }
    assert ps[..|xs|] == ps;
    return Ok(updates);
  }

  /** `ExcludeStopCodonsStep.execute`; `request` is the bulk update submitted, if any. */
  method Execute(items: seq<Item>) returns (r: Result<StepResults<Item, Item>>, request: Option<seq<DnaSequenceBulkUpdate>>)
    requires AtStage(items, 3)
    ensures r.Ok? ==> fresh(r.value)
    ensures r.Ok? <==> ExcludeStopCodonsSpec(items).Ok?
    ensures r.Err? ==> r.message == ExcludeStopCodonsSpec(items).message
    ensures r.Ok? ==> r.value.Report() == ExcludeStopCodonsSpec(items).value
    ensures request == Request(items)
  {
    var results := new StepResults<Item, Item>(ResultsName);
    ghost var rs := ClassifyAll(items);
    ghost var done: seq<Outcome<Item, Item>> := [];
    var excluded: seq<Item> := [];
    for i := 0 to |items|
      invariant Collect(rs[..i]) == Ok(done)
      invariant results.Report() == Route(ResultsName, done)
      invariant excluded == NonProductive(items[..i])
    {
      var item := items[i];
      var imgt := item.GetAnalysis().imgtData;
      CollectStep(rs, i);
      NonProductiveStep(items, i);
      if imgt.None? {
        CollectStops(rs, i + 1);
        return Err(NoneHasNoGet), None;
      }
      if RowGet(imgt.value, "stop_codon") != Str("T") {
        results.AddSucceeded(item);
      } else {
        results.AddWarning(item, StopCodonMessage);
        var dna := item.GetDnaSequence();
        if dna.None? {
          CollectStops(rs, i + 1);
          return Err(NoneHasNoId), None;
        }
        excluded := excluded + [item];
      }
      RouteAppendOne(ResultsName, done, rs[i].value);
      assert (done + [rs[i].value])[..|done|] == done;
      done := done + [rs[i].value];
    }
    assert rs[..|items|] == rs && items[..|items|] == items;
    if |excluded| > 0 {
      var updates := BuildUpdates(excluded);
      if updates.Err? {
        return Err(updates.message), None;
      }
      request := Some(updates.value);
    } else {
      assert Updates(excluded) == Ok([]);
      request := None;
    }
    return Ok(results), request;
  }
}

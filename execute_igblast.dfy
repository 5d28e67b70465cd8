/**
 * The fourth step: submit the DNA sequences to IgBLAST, once with the IMGT and
 * once with the Kabat domain system, one submission per run of consecutive items
 * of the same species, and attach the two result rows of every sequence.
 */
module ExecuteIgBlast {
  import opened Wrappers
  import opened Values
  import opened Models
  import opened Dicts
  import opened FlowBase
  import opened SequenceAnnotation
  import opened IgBlastToBenchling

  const ResultsName: string := "ExecuteIgBlastStepResults"

  const Label: string := "Execute BLASTs"

  /** Every item of the run has the given species. */
  predicate SameSpecies(run: seq<Item>, species: string)
    requires AtStage(run, 2)
  {
    forall i :: 0 <= i < |run| ==> run[i].species == species
  }

  /** Non-empty runs of species-tagged items. */
  predicate ValidRuns(runs: seq<seq<Item>>) {
    forall k :: 0 <= k < |runs| ==> runs[k] != [] && AtStage(runs[k], 2)
  }

  /** What `Runs` promises of the runs of `items`. */
  predicate GroupsRuns(items: seq<Item>, r: seq<seq<Item>>)
    requires AtStage(items, 2)
  {
    Flatten(r) == items && ValidRuns(r) &&
    (forall k :: 0 <= k < |r| ==> SameSpecies(r[k], r[k][0].species)) &&
    (forall k :: 0 <= k < |r| - 1 ==> r[k][0].species != r[k + 1][0].species) &&
    (r != [] ==> r[0][0] == items[0])
  }

  /**
   * `itertools.groupby(items, lambda result: result.species)`: the maximal runs
   * of consecutive items with equal species, in order.
   */
  function Runs(items: seq<Item>): (r: seq<seq<Item>>)
    requires AtStage(items, 2)
    ensures Flatten(r) == items
    ensures ValidRuns(r)
    ensures forall k :: 0 <= k < |r| ==> SameSpecies(r[k], r[k][0].species)
    ensures forall k :: 0 <= k < |r| - 1 ==> r[k][0].species != r[k + 1][0].species
    ensures r != [] ==> r[0][0] == items[0]
    decreases |items|
  {
    if items == [] then []
    else
      var rest := Runs(items[1..]);
      assert GroupsRuns(items[1..], rest);
      if rest != [] && rest[0][0].species == items[0].species then
        RunsJoin(items, rest);
        [[items[0]] + rest[0]] + rest[1..]
      else
        RunsStart(items, rest);
        [[items[0]]] + rest
  }

  /** The first item joins the first run of the rest when it has that run's species. */
  lemma RunsJoin(items: seq<Item>, rest: seq<seq<Item>>)
    requires AtStage(items, 2) && items != []
    requires GroupsRuns(items[1..], rest)
    requires rest != [] && rest[0][0].species == items[0].species
    ensures GroupsRuns(items, [[items[0]] + rest[0]] + rest[1..])
  {
    var r := [[items[0]] + rest[0]] + rest[1..];
    assert Flatten(r) == [items[0]] + rest[0] + Flatten(rest[1..]);
    assert Flatten(rest) == rest[0] + Flatten(rest[1..]);
    assert [items[0]] + items[1..] == items;
    forall k | 1 <= k < |r|
      ensures r[k] == rest[k]
    {
    }
    assert SameSpecies(r[0], r[0][0].species);
  }

  /** Otherwise the first item starts a run of its own. */
  lemma RunsStart(items: seq<Item>, rest: seq<seq<Item>>)
    requires AtStage(items, 2) && items != []
    requires GroupsRuns(items[1..], rest)
    requires !(rest != [] && rest[0][0].species == items[0].species)
    ensures GroupsRuns(items, [[items[0]]] + rest)
  {
    var r := [[items[0]]] + rest;
    assert r[1..] == rest;
    assert [items[0]] + items[1..] == items;
    forall k | 1 <= k < |r|
      ensures r[k] == rest[k - 1]
    {
    }
  }

  /** `str(KeyError(species))`, for a species without quote or backslash characters. */
  function KeyErrorText(species: string): string {
    "'" + species + "'"
  }

  /** `Sequence(result.dna_sequence.id, result.dna_sequence.bases)`. */
  function ToIgSequence(x: Item): Result<IgSequence>
    requires x.Valid() && x.Stage() == 2
  {
    match x.GetDnaSequence()
    case None => Err(NoneHasNoId)
    case Some(dna) => Ok(IgSequence(dna.id, dna.bases))
  }

  function ToIgSequenceAll(run: seq<Item>): (rs: seq<Result<IgSequence>>)
    requires AtStage(run, 2)
    ensures |rs| == |run|
    ensures forall i :: 0 <= i < |run| ==> rs[i] == ToIgSequence(run[i])
  {
    seq(|run|, i requires 0 <= i < |run| => ToIgSequence(run[i]))
  }

  /**
   * The list comprehension of submitted sequences: the id and bases of every
   * item, in order; it raises when an item has no DNA sequence.
   */
  function IgSequences(run: seq<Item>): (r: Result<seq<IgSequence>>)
    requires AtStage(run, 2)
    ensures r.Ok? <==> forall i :: 0 <= i < |run| ==> run[i].GetDnaSequence().Some?
    ensures r.Err? ==> r.message == NoneHasNoId
    ensures r.Ok? ==> |r.value| == |run| && forall i :: 0 <= i < |run| ==>
      r.value[i] == IgSequence(run[i].GetDnaSequence().value.id, run[i].GetDnaSequence().value.bases)
  {
    var rs := ToIgSequenceAll(run);
    CollectOk(rs);
    if Collect(rs).Err? then CollectErr(rs); Collect(rs) else Collect(rs)
  }

  /** What a run submits: its organism, looked up first, and its sequences. */
  function RunRequest(run: seq<Item>): Result<(seq<IgSequence>, Organism)>
    requires AtStage(run, 2) && run != []
  {
    match SpeciesOrganism(Some(run[0].species))
    case None => Err(KeyErrorText(run[0].species))
    case Some(organism) =>
      var sequences :- IgSequences(run);
      Ok((sequences, organism))
  }

  /** `{row.get('sequence_id'): row for row in rows}`. */
  function RowsById(rows: seq<Row>): map<Value, Row> {
    MapBy(rows, (row: Row) => RowGet(row, "sequence_id"))
  }

  /** `data_by_sequence_id.get(id)`. */
  function RowFor(byId: map<Value, Row>, id: string): Option<Row> {
    if Str(id) in byId then Some(byId[Str(id)]) else None
  }

  /** The record a successful run gives an item. */
  function Blasted(x: Item, imgt: IgBlastResponse, kabat: IgBlastResponse): Item
    requires x.Valid() && x.Stage() == 2 && x.GetDnaSequence().Some?
  {
    var id := x.GetDnaSequence().value.id;
    IgBlastExecutionResult(x, Analysis(imgt.imgtVersion, RowFor(RowsById(imgt.rows), id), RowFor(RowsById(kabat.rows), id)))
  }

  /** `o` is the outcome of item `x`: succeeded as the record wrapping it, or failed with it; never warned. */
  predicate About(o: Outcome<Item, Item>, x: Item) {
    (o.Succeeded? && o.result.IgBlastExecutionResult? && o.result.previous == x) || (o.Failed? && o.previous == x)
  }

  /**
   * The outcome of every item of a submitted run: all succeed when both
   * submissions return 0, otherwise all fail with the IMGT error text.
   */
  function RunVerdict(run: seq<Item>, imgt: IgBlastResponse, kabat: IgBlastResponse): (outs: seq<Outcome<Item, Item>>)
    requires AtStage(run, 2) && forall i :: 0 <= i < |run| ==> run[i].GetDnaSequence().Some?
    ensures |outs| == |run|
    ensures forall i :: 0 <= i < |run| ==> About(outs[i], run[i])
    ensures imgt.returncode == 0 && kabat.returncode == 0 ==> forall i :: 0 <= i < |run| ==> outs[i].Succeeded?
    ensures !(imgt.returncode == 0 && kabat.returncode == 0) ==>
      forall i :: 0 <= i < |run| ==> outs[i] == Failed(run[i], imgt.error)
  {
    if imgt.returncode == 0 && kabat.returncode == 0 then
      seq(|run|, i requires 0 <= i < |run| => Succeeded(Blasted(run[i], imgt, kabat)))
    else
      seq(|run|, i requires 0 <= i < |run| => Failed(run[i], imgt.error))
  }

  /** One iteration of the outer loop: submit the run twice and route its items. */
  function RunOutcomes(services: Services, run: seq<Item>): Result<seq<Outcome<Item, Item>>>
    requires AtStage(run, 2) && run != []
  {
    var request :- RunRequest(run);
    var imgt := services.postSequencesSync(request.0, request.1, Imgt);
    var kabat := services.postSequencesSync(request.0, request.1, Kabat);
    Ok(RunVerdict(run, imgt, kabat))
  }

  function RunOutcomesAll(services: Services, runs: seq<seq<Item>>): (rs: seq<Result<seq<Outcome<Item, Item>>>>)
    requires ValidRuns(runs)
    ensures |rs| == |runs|
    ensures forall k :: 0 <= k < |runs| ==> rs[k] == RunOutcomes(services, runs[k])
  {
    seq(|runs|, k requires 0 <= k < |runs| => RunOutcomes(services, runs[k]))
  }

  /** The outcomes of all runs in order, or the exception that ends the step. */
  function StepOutcomes(services: Services, items: seq<Item>): Result<seq<Outcome<Item, Item>>>
    requires AtStage(items, 2)
  {
    var perRun :- Collect(RunOutcomesAll(services, Runs(items)));
    Ok(Flatten(perRun))
  }

  /** The results `ExecuteIgBlastStep.execute(items)` returns, or the exception it raises. */
  function ExecuteIgBlastSpec(services: Services, items: seq<Item>): (r: Result<StepReport<Item, Item>>)
    requires AtStage(items, 2)
  {
    var outs :- StepOutcomes(services, items);
    Ok(Route(ResultsName, outs))
  }

  /** One `post_sequences_sync` call. */
  datatype Submission = Submission(sequences: seq<IgSequence>, organism: Organism, system: DomainSystem)

  /** The calls one run makes: none when it raises before submitting. */
  function RunSubmissions(run: seq<Item>): seq<Submission>
    requires AtStage(run, 2) && run != []
  {
    match RunRequest(run)
    case Err(_) => []
    case Ok(request) => [Submission(request.0, request.1, Imgt), Submission(request.0, request.1, Kabat)]
  }

  /** The calls made, run by run, up to the run that raises. */
  function Submissions(runs: seq<seq<Item>>): seq<Submission>
    requires ValidRuns(runs)
    decreases |runs|
  {
    if runs == [] then []
    else if RunRequest(runs[0]).Err? then []
    else RunSubmissions(runs[0]) + Submissions(runs[1..])
  }

  // Properties

  lemma {:induction false} FlattenAbout(perRun: seq<seq<Outcome<Item, Item>>>, runs: seq<seq<Item>>)
    requires |perRun| == |runs|
    requires forall k :: 0 <= k < |runs| ==> |perRun[k]| == |runs[k]|
    requires forall k, i :: 0 <= k < |runs| && 0 <= i < |runs[k]| ==> About(perRun[k][i], runs[k][i])
    ensures |Flatten(perRun)| == |Flatten(runs)|
    ensures forall i :: 0 <= i < |Flatten(runs)| ==> About(Flatten(perRun)[i], Flatten(runs)[i])
    decreases |runs|
  {
    if runs != [] {
      FlattenAbout(perRun[1..], runs[1..]);
    }
  }

  /**
   * Every item has exactly one outcome, at its own position: its record when
   * its run succeeded, a failure otherwise; nothing is warned.
   */
  lemma StepOutcomesAbout(services: Services, items: seq<Item>)
    requires AtStage(items, 2) && StepOutcomes(services, items).Ok?
    ensures |StepOutcomes(services, items).value| == |items|
    ensures forall i :: 0 <= i < |items| ==> About(StepOutcomes(services, items).value[i], items[i])
  {
    var runs := Runs(items);
    var rs := RunOutcomesAll(services, runs);
    CollectOk(rs);
    var perRun := Collect(rs).value;
    forall k | 0 <= k < |runs|
      ensures |perRun[k]| == |runs[k]|
      ensures forall i :: 0 <= i < |runs[k]| ==> About(perRun[k][i], runs[k][i])
    {
      assert rs[k].Ok?;
    }
    FlattenAbout(perRun, runs);
  }

  /** Outcomes about the items route to succeeded and failed only, one record per item. */
  lemma AboutReport(items: seq<Item>, outs: seq<Outcome<Item, Item>>)
    requires |outs| == |items|
    requires forall i :: 0 <= i < |items| ==> About(outs[i], items[i])
    ensures Route(ResultsName, outs).name == ResultsName
    ensures Route(ResultsName, outs).warning == []
    ensures |Route(ResultsName, outs).succeeded| + |Route(ResultsName, outs).failed| == |items|
  {
    RouteIsFilter(ResultsName, outs);
    FiltersPartition(outs);
    NoWarnings(outs);
  }

  /** Each record routed from outcomes about the items is one of the items or wraps one. */
  lemma AboutReportMembers(items: seq<Item>, outs: seq<Outcome<Item, Item>>)
    requires AtStage(items, 2) && |outs| == |items|
    requires forall i :: 0 <= i < |items| ==> About(outs[i], items[i])
    ensures forall x :: x in Route(ResultsName, outs).succeeded ==>
      x.IgBlastExecutionResult? && x.Valid() && x.Stage() == 3 && x.previous in items
    ensures forall f :: f in Route(ResultsName, outs).failed ==> f.payload in items
  {
    RouteIsFilter(ResultsName, outs);
    SuccessesMembers(outs);
    FailuresMembers(outs);
  }

  /** The succeeded records of such outcomes are all at the analysis stage. */
  lemma AboutReportStage(items: seq<Item>, outs: seq<Outcome<Item, Item>>)
    requires AtStage(items, 2) && |outs| == |items|
    requires forall i :: 0 <= i < |items| ==> About(outs[i], items[i])
    ensures AtStage(Route(ResultsName, outs).succeeded, 3)
  {
    RouteIsFilter(ResultsName, outs);
    SuccessesMembers(outs);
    MembersAtStage(Successes(outs), 3);
  }

  /**
   * Every item ends in exactly one of succeeded or failed, in order; the
   * succeeded records are well formed and wrap one of the items.
   */
  lemma ExecuteIgBlastAccounts(services: Services, items: seq<Item>)
    requires AtStage(items, 2) && ExecuteIgBlastSpec(services, items).Ok?
    ensures ExecuteIgBlastSpec(services, items).value.name == ResultsName
    ensures ExecuteIgBlastSpec(services, items).value.warning == []
    ensures |ExecuteIgBlastSpec(services, items).value.succeeded| + |ExecuteIgBlastSpec(services, items).value.failed| == |items|
    ensures forall x :: x in ExecuteIgBlastSpec(services, items).value.succeeded ==>
      x.IgBlastExecutionResult? && x.Valid() && x.Stage() == 3 && x.previous in items
    ensures forall f :: f in ExecuteIgBlastSpec(services, items).value.failed ==> f.payload in items
  {
    var outs := StepOutcomes(services, items).value;
    assert ExecuteIgBlastSpec(services, items) == Ok(Route(ResultsName, outs));
    StepOutcomesAbout(services, items);
    AboutReport(items, outs);
    AboutReportMembers(items, outs);
  }

  /**
   * Inside a successful run, an item's analysis holds the IMGT version and the
   * rows of both reports whose `sequence_id` is the item's DNA id.
   */
  lemma RunAnalysis(services: Services, run: seq<Item>, i: nat)
    requires AtStage(run, 2) && run != [] && i < |run| && RunRequest(run).Ok?
    ensures var request := RunRequest(run).value;
      var imgt := services.postSequencesSync(request.0, request.1, Imgt);
      var kabat := services.postSequencesSync(request.0, request.1, Kabat);
      var id := run[i].GetDnaSequence().value.id;
      imgt.returncode == 0 && kabat.returncode == 0 ==>
        RunOutcomes(services, run).value[i] ==
          Succeeded(IgBlastExecutionResult(run[i], Analysis(imgt.imgtVersion, RowFor(RowsById(imgt.rows), id), RowFor(RowsById(kabat.rows), id))))
  {
  }

  /** Both submissions of a run carry the same sequences and organism, IMGT first. */
  lemma SubmissionsPairUp(runs: seq<seq<Item>>, k: nat)
    requires ValidRuns(runs) && k < |runs|
    requires forall j :: 0 <= j <= k ==> RunRequest(runs[j]).Ok?
    ensures |Submissions(runs)| >= 2 * k + 2
    ensures Submissions(runs)[2 * k] == Submission(RunRequest(runs[k]).value.0, RunRequest(runs[k]).value.1, Imgt)
    ensures Submissions(runs)[2 * k + 1] == Submission(RunRequest(runs[k]).value.0, RunRequest(runs[k]).value.1, Kabat)
    decreases k
  {
    ValidRunsDrop(runs, 1);
    var head := RunSubmissions(runs[0]);
    var tail := Submissions(runs[1..]);
    RunSubmissionsOk(runs[0]);
    assert Submissions(runs) == head + tail;
    if k > 0 {
      var rest := runs[1..];
      forall j | 0 <= j <= k - 1
        ensures RunRequest(rest[j]).Ok?
      {
        assert rest[j] == runs[j + 1];
      }
      SubmissionsPairUp(rest, k - 1);
      assert rest[k - 1] == runs[k];
      assert (head + tail)[2 * k] == tail[2 * (k - 1)];
      assert (head + tail)[2 * k + 1] == tail[2 * (k - 1) + 1];
    }
  }

  /** A row found for an id is one of the report's rows with that `sequence_id`; none is found exactly when there is none. */
  lemma RowForFound(rows: seq<Row>, id: string)
    ensures RowFor(RowsById(rows), id).Some? ==>
      RowFor(RowsById(rows), id).value in rows && RowGet(RowFor(RowsById(rows), id).value, "sequence_id") == Str(id)
    ensures RowFor(RowsById(rows), id).None? <==> forall row :: row in rows ==> RowGet(row, "sequence_id") != Str(id)
  {
  }

  /** When a report repeats a `sequence_id`, the later row is kept. */
  lemma RowForLastWins(rows: seq<Row>, j: nat, id: string)
    requires j < |rows| && RowGet(rows[j], "sequence_id") == Str(id)
    requires forall k :: j < k < |rows| ==> RowGet(rows[k], "sequence_id") != Str(id)
    ensures RowFor(RowsById(rows), id) == Some(rows[j])
  {
    MapByLastWins(rows, (row: Row) => RowGet(row, "sequence_id"), j);
  }

  /** A run raises for an unsupported species, checked first, or for an item without a DNA sequence. */
  lemma RunOutcomesErr(services: Services, run: seq<Item>)
    requires AtStage(run, 2) && run != [] && RunOutcomes(services, run).Err?
    ensures RunOutcomes(services, run).message == NoneHasNoId ||
      (run[0].species !in SpeciesNames && RunOutcomes(services, run).message == KeyErrorText(run[0].species))
  {
  }

  /** The step raises only for an unsupported species or an item without a DNA sequence. */
  lemma ExecuteIgBlastErrors(services: Services, items: seq<Item>)
    requires AtStage(items, 2) && ExecuteIgBlastSpec(services, items).Err?
    ensures var m := ExecuteIgBlastSpec(services, items).message;
      m == NoneHasNoId ||
      exists i :: 0 <= i < |items| && items[i].GetSpeciesResult? && items[i].species !in SpeciesNames &&
        m == KeyErrorText(items[i].species)
  {
    var runs := Runs(items);
    var k := RaisingRun(services, items);
    RunOutcomesErr(services, runs[k]);
    var i := RunHead(items, k);
    assert items[i].GetSpeciesResult? && items[i].species == runs[k][0].species;
  }

  /** The run whose exception the step raises. */
  lemma RaisingRun(services: Services, items: seq<Item>) returns (k: nat)
    requires AtStage(items, 2) && ExecuteIgBlastSpec(services, items).Err?
    ensures k < |Runs(items)| && RunOutcomes(services, Runs(items)[k]).Err?
    ensures ExecuteIgBlastSpec(services, items).message == RunOutcomes(services, Runs(items)[k]).message
  {
    var rs := RunOutcomesAll(services, Runs(items));
    assert Collect(rs).Err?;
    CollectErr(rs);
    k :| 0 <= k < |rs| && rs[k] == Err(Collect(rs).message);
  }

  /** Where the first item of a run sits among the items. */
  lemma RunHead(items: seq<Item>, k: nat) returns (i: nat)
    requires AtStage(items, 2) && k < |Runs(items)|
    ensures i < |items| && items[i] == Runs(items)[k][0]
  {
    FlattenHas(Runs(items), k);
    i :| 0 <= i < |items| && items[i] == Runs(items)[k][0];
  }

  /** The first item of every run is one of the items. */
  lemma {:induction false} FlattenHas(runs: seq<seq<Item>>, k: nat)
    requires k < |runs| && runs[k] != []
    ensures runs[k][0] in Flatten(runs)
    decreases k
  {
    if k > 0 {
      FlattenHas(runs[1..], k - 1);
    }
  }

  /** Supported species and fetched DNA sequences throughout: then the step does not raise. */
  lemma ExecuteIgBlastOkWhen(services: Services, items: seq<Item>)
    requires AtStage(items, 2)
    requires forall i :: 0 <= i < |items| ==> items[i].species in SpeciesNames && items[i].GetDnaSequence().Some?
    ensures ExecuteIgBlastSpec(services, items).Ok?
  {
    var runs := Runs(items);
    var rs := RunOutcomesAll(services, runs);
    forall k | 0 <= k < |runs| ensures rs[k].Ok? {
      forall i | 0 <= i < |runs[k]| ensures runs[k][i] in items {
        FlattenMember(runs, k, i);
      }
    }
    CollectOk(rs);
  }

  /** Every item of every run is one of the items. */
  lemma {:induction false} FlattenMember(runs: seq<seq<Item>>, k: nat, i: nat)
    requires k < |runs| && i < |runs[k]|
    ensures runs[k][i] in Flatten(runs)
    decreases k
  {
    if k > 0 {
      FlattenMember(runs[1..], k - 1, i);
    }
  }

  /** The loop over one run's items, after both submissions returned 0. */
  method AddSucceededRun(results: StepResults<Item, Item>, run: seq<Item>, imgt: IgBlastResponse, kabat: IgBlastResponse, ghost done: seq<Outcome<Item, Item>>)
    requires AtStage(run, 2) && forall i :: 0 <= i < |run| ==> run[i].GetDnaSequence().Some?
    requires imgt.returncode == 0 && kabat.returncode == 0
    requires results.Report() == Route(ResultsName, done)
    modifies results
    ensures results.Report() == Route(ResultsName, done + RunVerdict(run, imgt, kabat))
  {
    ghost var verdict := RunVerdict(run, imgt, kabat);
    var imgtById := RowsById(imgt.rows);
    var kabatById := RowsById(kabat.rows);
    var j := 0;
    assert done + verdict[..j] == done;
    while j < |run|
      invariant 0 <= j <= |run|
      invariant results.Report() == Route(ResultsName, done + verdict[..j])
    {
      var id := run[j].GetDnaSequence().value.id;
      results.AddSucceeded(IgBlastExecutionResult(run[j], Analysis(imgt.imgtVersion, RowFor(imgtById, id), RowFor(kabatById, id))));
      RouteAppendOne(ResultsName, done + verdict[..j], verdict[j]);
      assert done + verdict[..j + 1] == (done + verdict[..j]) + [verdict[j]];
      j := j + 1;
    }
    assert verdict[..j] == verdict;
  }

  /** The loop over one run's items, after a submission returned non-zero. */
  method AddFailedRun(results: StepResults<Item, Item>, run: seq<Item>, imgt: IgBlastResponse, kabat: IgBlastResponse, ghost done: seq<Outcome<Item, Item>>)
    requires AtStage(run, 2) && forall i :: 0 <= i < |run| ==> run[i].GetDnaSequence().Some?
    requires !(imgt.returncode == 0 && kabat.returncode == 0)
    requires results.Report() == Route(ResultsName, done)
    modifies results
    ensures results.Report() == Route(ResultsName, done + RunVerdict(run, imgt, kabat))
  {
    ghost var verdict := RunVerdict(run, imgt, kabat);
    var j := 0;
    assert done + verdict[..j] == done;
    while j < |run|
      invariant 0 <= j <= |run|
      invariant results.Report() == Route(ResultsName, done + verdict[..j])
    {
      results.AddFailed(run[j], imgt.error);
      RouteAppendOne(ResultsName, done + verdict[..j], verdict[j]);
      assert done + verdict[..j + 1] == (done + verdict[..j]) + [verdict[j]];
      j := j + 1;
    }
    assert verdict[..j] == verdict;
  }

  /** One iteration of the outer loop; `raised` is the exception that ends the step, if any. */
  method ExecuteRun(services: Services, results: StepResults<Item, Item>, run: seq<Item>, ghost done: seq<Outcome<Item, Item>>)
    returns (raised: Option<string>, runPosts: seq<Submission>)
    requires AtStage(run, 2) && run != []
    requires results.Report() == Route(ResultsName, done)
    modifies results
    ensures raised.Some? <==> RunOutcomes(services, run).Err?
    ensures raised.Some? <==> RunRequest(run).Err?
    ensures raised.Some? ==> raised.value == RunOutcomes(services, run).message
    ensures raised.None? ==> results.Report() == Route(ResultsName, done + RunOutcomes(services, run).value)
    ensures runPosts == RunSubmissions(run)
  {
    var organism := SpeciesOrganism(Some(run[0].species));
    if organism.None? {
      return Some(KeyErrorText(run[0].species)), [];
    }
    var sequences := IgSequences(run);
    if sequences.Err? {
      return Some(sequences.message), [];
    }
    var imgt := services.postSequencesSync(sequences.value, organism.value, Imgt);
    var kabat := services.postSequencesSync(sequences.value, organism.value, Kabat);
    runPosts := [Submission(sequences.value, organism.value, Imgt), Submission(sequences.value, organism.value, Kabat)];
    if imgt.returncode == 0 && kabat.returncode == 0 {
      AddSucceededRun(results, run, imgt, kabat, done);
    } else {
      AddFailedRun(results, run, imgt, kabat, done);
    }
    raised := None;
  }

  /** The outer loop over the runs; `raised` is the exception that ends it, if any. */
  method ExecuteRuns(services: Services, results: StepResults<Item, Item>, runs: seq<seq<Item>>)
    returns (raised: Option<string>, posts: seq<Submission>)
    requires ValidRuns(runs)
    requires results.Report() == Route(ResultsName, [])
    modifies results
    ensures raised.Some? <==> Collect(RunOutcomesAll(services, runs)).Err?
    ensures raised.Some? ==> raised.value == Collect(RunOutcomesAll(services, runs)).message
    ensures raised.None? ==> results.Report() == Route(ResultsName, Flatten(Collect(RunOutcomesAll(services, runs)).value))
    ensures posts == Submissions(runs)
  {
    ghost var rs := RunOutcomesAll(services, runs);
    ghost var done: seq<seq<Outcome<Item, Item>>> := [];
    posts := [];
    var k := 0;
    while k < |runs|
      invariant 0 <= k <= |runs|
      invariant Collect(rs[..k]) == Ok(done)
      invariant results.Report() == Route(ResultsName, Flatten(done))
      invariant posts + Submissions(runs[k..]) == Submissions(runs)
    {
      var failed, runPosts := ExecuteRun(services, results, runs[k], Flatten(done));
      SubmissionsAdvance(runs, k, posts, runPosts);
      posts := posts + runPosts;
      if failed.Some? {
        CollectFails(rs, k);
        return failed, posts;
      }
      CollectExtend(rs, k, done);
      FlattenAppend(done, rs[k].value);
      done := done + [rs[k].value];
      k := k + 1;
    }
    assert rs[..k] == rs;
    assert runs[k..] == [];
    raised := None;
  }

  /** `ExecuteIgBlastStep.execute`; `posts` are the IgBLAST calls made, in order. */
  method Execute(services: Services, items: seq<Item>)
    returns (r: Result<StepResults<Item, Item>>, posts: seq<Submission>)
    requires AtStage(items, 2)
    ensures r.Ok? ==> fresh(r.value)
    ensures r.Ok? <==> ExecuteIgBlastSpec(services, items).Ok?
    ensures r.Err? ==> r.message == ExecuteIgBlastSpec(services, items).message
    ensures r.Ok? ==> r.value.Report() == ExecuteIgBlastSpec(services, items).value
    ensures posts == Submissions(Runs(items))
  {
    var results := new StepResults<Item, Item>(ResultsName);
    var raised;
    raised, posts := ExecuteRuns(services, results, Runs(items));
    if raised.Some? {
      return Err(raised.value), posts;
    }
    return Ok(results), posts;
  }

  /** The calls made so far, with those of run `k` added, still lead to all the calls. */
  lemma SubmissionsAdvance(runs: seq<seq<Item>>, k: nat, posts: seq<Submission>, runPosts: seq<Submission>)
    requires ValidRuns(runs) && k < |runs|
    requires posts + Submissions(runs[k..]) == Submissions(runs)
    requires runPosts == RunSubmissions(runs[k])
    ensures RunRequest(runs[k]).Ok? ==> (posts + runPosts) + Submissions(runs[k + 1..]) == Submissions(runs)
    ensures RunRequest(runs[k]).Err? ==> posts + runPosts == Submissions(runs)
  {
    ValidRunsDrop(runs, k + 1);
    SubmissionsStep(runs, k);
    if RunRequest(runs[k]).Ok? {
      var rest := Submissions(runs[k + 1..]);
      assert (posts + runPosts) + rest == posts + (runPosts + rest);
    } else {
      assert runPosts == [];
      assert posts + runPosts == posts;
    }
  }

  /** A run that does not raise makes its two calls, IMGT first. */
  lemma RunSubmissionsOk(run: seq<Item>)
    requires AtStage(run, 2) && run != [] && RunRequest(run).Ok?
    ensures RunSubmissions(run) ==
      [Submission(RunRequest(run).value.0, RunRequest(run).value.1, Imgt), Submission(RunRequest(run).value.0, RunRequest(run).value.1, Kabat)]
  {
  }

  /** The runs from `k` on are runs too. */
  lemma ValidRunsDrop(runs: seq<seq<Item>>, k: nat)
    requires ValidRuns(runs) && k <= |runs|
    ensures ValidRuns(runs[k..])
  {
    forall j | 0 <= j < |runs[k..]|
      ensures runs[k..][j] != [] && AtStage(runs[k..][j], 2)
    {
      assert runs[k..][j] == runs[k + j];
    }
  }

  /** The calls from run `k` on: that run's, then the later ones unless it raised. */
  lemma SubmissionsStep(runs: seq<seq<Item>>, k: nat)
    requires ValidRuns(runs) && k < |runs|
    ensures Submissions(runs[k..]) ==
      if RunRequest(runs[k]).Err? then [] else RunSubmissions(runs[k]) + Submissions(runs[k + 1..])
  {
    assert runs[k..][0] == runs[k] && runs[k..][1..] == runs[k + 1..];
  }
}
